# Concert pricing engine and reward scorer

This project is a Dafny model of the core of ticket-env. The core is a simulated ticket market for a handful of
concerts:

- **Price.** Each simulated day, every concert is priced from its base price and four demand multipliers: time to the
  event, inventory left, web traffic and user preference.
- **Median floor.** The price is raised to the median of that concert's earlier prices.
- **One day.** The day's price is appended to the concert's history, a number of tickets is sold (never more than
  remain), the price is scored against the history, and the clock moves on one day.
- **Reward.** A purchase price is scored by placing it in one of `num_bins` equal-width bins of the history's price
  range. A cheaper purchase earns a higher reward, which is then adjusted for the user's preference.
- **Preferences.** They come from a free-text prompt. A keyword parser gives 95 to the first concert, in declared
  order, whose name the prompt contains. Every other concert gets a low value.

Two copies of the engine exist: `pricing.py`, which the web routes use, and `testy.py`, an experimental copy. One class
`ConcertEngine.ConcertPricing` models both, parameterised by `Multipliers.Variant`:

| constant | WebApp (`pricing.py`) | Experiment (`testy.py`) |
|---|---|---|
| preference below which the 0.9 multiplier applies | 50 | 30 |
| preference written for unselected concerts | 40 | 20 |
| engine reward penalty below preference 30 | 1.5 | 0.5 |
| "Date" field in the day snapshot | absent | present |
| LLM prompt parser | absent | present |

The standalone scorer of `reward_func.py` is modelled separately in `RewardFunc`.

Modules:

- `Multipliers`: the four band multipliers and the variant constants.
- `Stats`: `min`, `max`, `sorted`, `statistics.median`, `numpy.clip` and `round(x, 2)`.
- `Bins`: `numpy.linspace` edges and `numpy.digitize(..., right=True)` as the count of edges strictly below a value.
- `Text`: `str.lower`, `str.strip`, substring search and the first-match scan over the concerts.
- `Pricing`: the engine's value-level rules: price with median floor, the engine reward, the clamped sale and the
  preference tables the parsers write.
- `RewardFunc`: `calculate_reward` of `reward_func.py`, returning `(reward, bin_index, edges)`.
- `ConcertEngine`: the engine state (`ConcertPricing`, a class with map-valued fields) and its operations.
  - Selling, the two prompt parsers and a simulated day are methods with loops.
  - A day is specified by `Fold`, which applies each concert's turn in declared order to the tables the earlier
    turns left.
  - `DayRecords` proves that, since names are distinct, each concert's result comes from its own state before the
    day.

The two reward implementations behave differently, and the model follows the code of each:

- **The engine never clamps the bin index.** Its `calculate_reward` (`pricing.py:146-182`, `testy.py:192-216`) uses
  `numpy.digitize` without clamping. A purchase at the lowest price therefore gets a base reward of `num_bins`, one more than the
  `num_bins - 1` a flat history scores (`Pricing.EngineBaseRewardExtremes`). Elsewhere the engine agrees with the
  clamped scorer (`Pricing.EngineBinAgainstScorer`). The engine floors its reward at 0.
- **The standalone scorer has no floor.** It clamps the bin to `[1, num_bins]`, but its reward can be negative
  (`RewardFunc.RewardCanBeNegative`).
- **Each copy keeps its own preference policy.** The two are not merged into one.

## Model

| member | source | states |
|---|---|---|
| Multipliers.TimeMultiplier | pricing.py:21-28 | 0.85 exactly when more than 30 days remain, 1.0 exactly for 7..30 days, 1.25 exactly for fewer than 7 |
| Multipliers.InventoryMultiplier | pricing.py:30-39 | 1.0 exactly when more than half the tickets remain, 1.15 exactly for a ratio in (0.2, 0.5], 1.35 exactly for 0.2 or less |
| Multipliers.TrafficMultiplier | pricing.py:41-47 | 0.95 exactly below 30, 1.0 exactly for 30..69, 1.2 exactly from 70 on |
| Multipliers.PreferenceMultiplier | pricing.py:49-56 | 0.9 exactly below the variant's cut (50, or 30 in the Experiment copy), 1.0 exactly from the cut to 69, 1.15 exactly from 70 on |
| Multipliers.TimeMultiplierMonotone | pricing.py:21-28 | fewer days to the event never lower the time multiplier |
| Multipliers.InventoryMultiplierMonotone | pricing.py:30-39 | selling more tickets never lowers the inventory multiplier |
| Multipliers.TrafficMultiplierMonotone | pricing.py:41-47 | more traffic never lowers the traffic multiplier |
| Multipliers.PreferenceMultiplierMonotone | testy.py:59-66 | a higher preference never lowers the preference multiplier, in either variant |
| Stats.SeqMin | pricing.py:155 | `min` of a non-empty history is one of its prices and no price is below it |
| Stats.SeqMax | pricing.py:156 | `max` of a non-empty history is one of its prices and no price is above it |
| Stats.SortedCopySorted | pricing.py:70 | the sorted copy that `statistics.median` works on is ascending and holds exactly the history's prices |
| Stats.InsertSorted | pricing.py:70 | inserting a price into an ascending list keeps it ascending |
| Stats.InsertPerm | pricing.py:70 | inserting a price adds exactly that price to the list's elements |
| Stats.MedianBounds | pricing.py:70-71 | the median floor lies between the history's minimum and maximum |
| Stats.MedianOfPrices | pricing.py:70 | `statistics.median` of an odd-length history is one of its prices, and of an even-length one the mean of two of its prices |
| Stats.MedianOrderFree | pricing.py:70 | the median depends only on which prices the history holds, not on their order |
| Stats.MedianOfSortedOdd | pricing.py:70 | the median of an ascending history of odd length is its middle price |
| Stats.SortedUnique | pricing.py:70 | two ascending lists with the same elements are equal, so the sorted copy is unique |
| Stats.Clip | pricing.py:162 | `numpy.clip` returns a value in [lo, hi]: the value itself inside the range, otherwise the nearer bound |
| Stats.Round2 | pricing.py:66 | `round(x, 2)` returns a whole number of cents within half a cent of x, and leaves a whole number of cents unchanged |
| Bins.Edges | pricing.py:165 | `linspace(lo, hi, n + 1)` has n + 1 points from lo to hi with equal steps of (hi - lo) / n |
| Bins.EdgesIncreasing | reward_func.py:33 | over a range with lo < hi the edges rise strictly |
| Bins.CountBelow | pricing.py:168 | the `digitize` index is at most the number of edges |
| Bins.CountBelowMonotone | pricing.py:168 | a larger price never gets a lower `digitize` index |
| Bins.CountBelowSplits | pricing.py:168 | on ascending edges, every edge before the index is below the price and every edge from the index on is at or above it |
| Bins.CountBelowLocates | reward_func.py:34 | on ascending edges the index is k whenever e[k-1] < x <= e[k] (a missing end edge imposes nothing), so a price on an edge falls in the lower bin |
| Text.Lower | pricing.py:131 | `str.lower` keeps the length, leaves no ASCII or Latin-1 capital, keeps every other character, and moves each capital 32 code points on to its small letter |
| Text.LowerChar | pricing.py:135 | one character: the result is never a capital, a non-capital is kept, and a capital becomes its small letter |
| Text.LowerIdempotent | pricing.py:131 | lower-casing an already lowered text changes nothing |
| Text.MentionsIgnoresCase | pricing.py:135 | `concert.lower() in prompt_lower` gives the same answer whether the name or the prompt was lowered beforehand |
| Text.StripLeft | testy.py:177 | drops exactly the leading whitespace |
| Text.StripRight | testy.py:177 | drops exactly the trailing whitespace |
| Text.Strip | testy.py:177 | the stripped reply is a slice of the reply with only whitespace outside it, and it neither starts nor ends with whitespace |
| Text.FirstMatch | pricing.py:134-137 | finds the first concert, in declared order, whose lowered name occurs in the lowered text, and none exactly when no name occurs |
| Pricing.DaysBefore | pricing.py:22 | `.days` of the difference is the whole number of days, rounded down, between now and the event |
| Pricing.DemandFactor | pricing.py:61-66 | the product of the four multipliers lies between 0.72675 and 2.32875 |
| Pricing.RawPrice | pricing.py:66 | the raw price is a whole number of cents within half a cent of the base price times the multipliers |
| Pricing.MedianFloor | pricing.py:68-73 | the price is at least the raw price; with a history it is at least the median and is one of the two; without one it is the raw price |
| Pricing.PriceExample | pricing.py:59-75 | base price 7000, 7..30 days out, over half the tickets left, traffic 50 and preference 50 price at exactly 7000.00 |
| Pricing.EngineReward | pricing.py:151-182 | the engine's reward is 0 for an empty history and `num_bins - 1` for a flat one whatever the price (so -1 when `num_bins` is 0); over a spread history it is never negative |
| Pricing.EngineBaseRewardExtremes | pricing.py:162-172 | without the clamp, a purchase at the minimum price gets `num_bins` and one at the maximum gets 0 |
| Pricing.EngineBinAgainstScorer | pricing.py:168-172 | the engine's base reward equals the clamped scorer's except at the minimum price, where it is one higher |
| Pricing.BinsAgree | pricing.py:168-172 | on ascending edges, the unclamped and the clamped base reward differ only for a price on the first edge |
| Pricing.EngineRewardClipping | pricing.py:162 | a price below the minimum scores like the minimum, and one above the maximum like the maximum |
| Pricing.EngineRewardNonIncreasingInPrice | pricing.py:162-172 | a cheaper purchase never scores lower than a dearer one |
| Pricing.EngineRewardAdjustment | pricing.py:174-182 | over a spread history the reward is the base plus 0.5 above preference 70, the base from 30 to 70, and the base less the variant's penalty, floored at 0, below 30 |
| Pricing.EngineRewardMonotoneInPreference | testy.py:210-216 | a higher preference never lowers the engine's reward, in either variant |
| Pricing.AfterSale | pricing.py:121-124 | a sale adds exactly min(num, remaining): the count never falls, never exceeds the total, and grows by num unless the concert sells out |
| Pricing.MaxDailySales | pricing.py:95 | the cap on a day's random sales, `max(1, traffic // 10)`, is at least 1 |
| Pricing.Preferences | pricing.py:139-143 | the table the parsers write has exactly one entry per concert |
| Pricing.KeywordPreferences | pricing.py:131-143 | the keyword table has one entry per concert, each 95 or the variant's low value, and 95 only for a concert the prompt mentions |
| Pricing.AnswerChoice | testy.py:177-183 | an LLM answer selects a concert exactly when there is one, and the selection is a valid position |
| Pricing.AnswerPreferences | testy.py:177-189 | the answer's table has one entry per concert, each 95 or the variant's low value, and some concert holds 95 whenever there is one |
| Pricing.PreferencesInRange | pricing.py:139-143 | every preference written lies in [0, 100] |
| Pricing.PreferencesShape | pricing.py:139-143 | every written preference lies in [0, 100], a concert holds 95 exactly when it is the selected one, and at most one concert holds 95 |
| Pricing.KeywordResolution | pricing.py:131-143 | a concert gets 95 exactly when the prompt mentions it and no earlier concert; every other concert gets the variant's low value |
| Pricing.SingleMentionSelects | pricing.py:134-137 | a prompt mentioning exactly one concert selects it wherever it stands in the declared order, and gives every other concert the low value |
| Pricing.AnswerSelectsExactlyOne | testy.py:177-189 | an LLM answer gives 95 to exactly one concert, the first it mentions or the first declared when it mentions none, and the low value to the others |
| Pricing.SelectionMultipliers | testy.py:145-158 | through the preference multiplier, the selected concert is priced at 1.15 and every other one at 0.9, in either variant |
| RewardFunc.CalculateReward | reward_func.py:19-54 | `(0, None, [])` for an empty history; `(num_bins - 1, 1, [min] * (num_bins + 1))` for a flat one; otherwise a bin in [1, num_bins] and the `linspace` edges |
| RewardFunc.RewardEdges | reward_func.py:33 | the edges are num_bins + 1 evenly spaced, strictly rising values from the minimum to the maximum |
| RewardFunc.RewardClipping | reward_func.py:31 | a price below the minimum gives the same result as the minimum, and one above the maximum as the maximum |
| RewardFunc.RewardBinLocation | reward_func.py:33-35 | the clipped price lies in (e[b-1], e[b]] for the returned bin b, or equals the minimum in bin 1 |
| RewardFunc.RewardOnEdge | reward_func.py:34-35 | a clipped price exactly on edge k falls in bin k, the lower of the two bins sharing it |
| RewardFunc.RewardBaseRange | reward_func.py:37-38 | the base reward is `num_bins - bin_index` and lies in [0, num_bins - 1] |
| RewardFunc.PreferenceAdjusted | reward_func.py:41-44 | the preference step raises the reward exactly above 50, lowers it exactly below 30, and moves it by at most +0.25 or -1.5 |
| RewardFunc.ThresholdAdjusted | reward_func.py:47-52 | the threshold step changes the reward exactly when it is at or below the threshold, raises it only for a preference above 50, and moves it by at most +0.75 or -1 |
| RewardFunc.AdjustedMonotone | reward_func.py:41-52 | the preference and threshold steps never reverse the order of two base rewards |
| RewardFunc.RewardNonIncreasingInPrice | reward_func.py:31-52 | a cheaper purchase never scores lower than a dearer one |
| RewardFunc.RewardMonotoneInPreference | reward_func.py:41-52 | a higher preference never lowers the reward |
| RewardFunc.RewardBinIgnoresPreference | reward_func.py:33-54 | the bin and the edges never depend on the preference or the threshold |
| RewardFunc.RewardAdjustment | reward_func.py:41-52 | over a spread history with base b: above preference 50 the reward is b + 1 when b + 0.25 is at or below the threshold and b + 0.25 otherwise; from 30 to 50 it is b - 1 or b; below 30 it is b - 2.5 or b - 1.5; the threshold step fires exactly when the preference-adjusted reward is at or below the threshold |
| RewardFunc.RewardExample | reward_func.py:33-39 | history 100..500, five bins, purchase at 250: edges [100, 180, 260, 340, 420, 500], bin 2, reward 3 |
| RewardFunc.RewardCanBeNegative | reward_func.py:41-54 | nothing floors the reward: a disliked concert bought at the top of its range scores -2.5 |
| ConcertEngine.TablesAgree | pricing.py:139-143 | two tables keyed by the concerts that agree on every concert are equal |
| ConcertEngine.FoldPending | pricing.py:89-96 | with distinct names, a concert whose turn has not come still has its count and history from before the day |
| ConcertEngine.FoldDone | pricing.py:89-110 | with distinct names, each concert whose turn has passed holds the count, history and entry of its turn on its own state before the day |
| ConcertEngine.FoldGrows | pricing.py:92 | a day appends exactly one price to every concert's history |
| ConcertEngine.FoldDayKeys | pricing.py:90-110 | after k turns the snapshot holds exactly the starting keys and the first k concerts |
| ConcertEngine.FoldKeys | pricing.py:90-110 | after a whole pass the snapshot holds exactly the starting keys and every concert |
| ConcertEngine.ConcertPricing.constructor | pricing.py:7-18 | sold counts start at 0, histories empty, preferences at 50, and the state is valid |
| ConcertEngine.ConcertPricing.Quote | pricing.py:59-75 | `get_price` is at least the rounded product of the multipliers and, with a history, at least its median and equal to one of the two; with no history it is the rounded product |
| ConcertEngine.ConcertPricing.SellTicket | pricing.py:121-124 | only concert c's count changes, by the clamped amount, and no concert is oversold |
| ConcertEngine.ConcertPricing.FirstMentioned | pricing.py:131-137 | the loop returns the first concert the lowered prompt mentions, or none |
| ConcertEngine.ConcertPricing.SetPreferences | pricing.py:139-143 | the loop writes 95 for the selected concert and the variant's low value for every other one, keeping preferences in range |
| ConcertEngine.ConcertPricing.ParseUserPrompt | pricing.py:127-143 | the preference table becomes the keyword parser's table for the prompt, and the state stays valid |
| ConcertEngine.ConcertPricing.ParseUserPromptLlm | testy.py:161-189 | a failed request falls back to the keyword parser; otherwise the answer's first mentioned concert, or the first declared, is selected |
| ConcertEngine.ConcertPricing.ResolvePrompt | testy.py:94-98 | the table becomes the one the chosen parser writes |
| ConcertEngine.ConcertPricing.TurnFacts | pricing.py:90-110 | a turn sells min(sale, remaining), records `Remaining = total - sold` with the price and counts, respects the median floor, keeps the floor price within the history, never scores below 0, and stamps the date only in the Experiment copy |
| ConcertEngine.ConcertPricing.DayRecords | pricing.py:89-110 | after a day each concert's count, history and entry come from its own turn on its own state before the day |
| ConcertEngine.ConcertPricing.DaySnapshot | pricing.py:101-110 | the snapshot's keys are exactly the concerts (beside any the starting snapshot held); each history grows by exactly that entry's price and each `Remaining` is the total less the new count |
| ConcertEngine.ConcertPricing.TakeTurn | pricing.py:90-110 | one concert's turn writes the price, count and entry of its turn into the tables and keeps them keyed and within capacity |
| ConcertEngine.ConcertPricing.DayTables | pricing.py:89-115 | the loop's tables equal the fold of every concert's turn in declared order |
| ConcertEngine.ConcertPricing.RecordDay | pricing.py:117-119 | stores the day's counts and histories and moves the clock exactly one day, keeping the state valid |
| ConcertEngine.ConcertPricing.SimulateDay | pricing.py:87-119 | the new counts, histories and snapshot are the fold of the day's turns from the old state at the old date, the snapshot is keyed by exactly the concerts, and the clock moves exactly one day |
| ConcertEngine.ConcertPricing.SimulatePurchase | testy.py:88-137 | resolves the prompt with the chosen parser, then gives the day's tables as the fold of the turns, returns a snapshot keyed by exactly the concerts, and moves the clock one day |

## Left out

- `app.py` is left out: FastAPI routes, templates and the rewriting of `results.json`. They only compose
  `simulate_purchase` with the scorer.
- `llm_client.py` is left out: an HTTP client with a timeout and a random fallback choice.
- `agent_playwright.py` is left out: asynchronous browser automation.
- The HTTP request in `_parse_user_prompt_llm` (`testy.py:161-176`) is left out. The reply is an input
  `Option<string>`, where None stands for a non-200 status. A 200 reply whose JSON lacks the expected fields raises in
  the source; that path is not modelled.
- `_log_rewards` and the creation of the log file (`testy.py:26-28`, `testy.py:219-224`) are left out: file I/O.
- Every `print` is left out.
- `random.randint` is an input. The day's sale counts arrive as a map `sales`, and `SimulatePurchase` requires each
  count to lie in [0, `max(1, traffic // 10)`].
- ConcertEngine.ConcertPricing.SimulatePurchase: requires every concert to be a key of `webTraffic` and `sales`. The
  source raises `KeyError` for a concert missing from the traffic map (`pricing.py:90`, `testy.py:104`); that error
  path is not modelled. The caller in `app.py` builds the map from every concert.
- `datetime.now()` and `timedelta` are replaced by real numbers of days since a fixed epoch.
  - The constructor takes the starting instant as a parameter.
  - `.days` is the floor of the difference between two instants.
  - The snapshot's "Date" is the calendar day of the clock, its floor.
- Prices are exact reals. `round(x, 2)` is exact decimal rounding with ties to even. Binary floating-point effects are
  not modelled, for example the inexact products and `linspace` steps that can move a price across a cent or an edge.
- Text.Lower: lowers only ASCII and Latin-1 capitals, not the other Unicode case mappings of `str.lower`.
- ConcertEngine.ConcertPricing.constructor: requires the three dictionaries to have the same keys and every total to
  be positive.
  - A `base_prices` key missing from `total_tickets` or `concert_dates` makes the source raise `KeyError` on the first
    day (`pricing.py:22`, `pricing.py:31`).
  - Extra keys in `total_tickets` or `concert_dates` are harmless in the source: they only add a sold count of 0 that
    no day touches (`pricing.py:10`). The model does not admit them.
  - With a zero total, the inventory multiplier divides by zero on the first day.
  - An empty configuration is admitted. Only the LLM parser needs a concert: after a successful reply that mentions
    none it selects `list(self.base_prices.keys())[0]`, which fails when there are none. `ParseUserPromptLlm` requires
    a concert only in that case.
- ConcertEngine.ConcertPricing.ParseUserPromptLlm: requires the Experiment variant, since only `testy.py` has this
  parser.
- ConcertEngine.ConcertPricing.DayTables: the day's turn function has a fallback branch for a concert outside the
  configuration. No call reaches that branch.
- Pricing.MaxDailySales: only bounds the cap from below. The cap is used only to constrain the `sales` input.
- The engine's `num_bins` is always 5 in `simulate_purchase`. A negative `num_bins` is not modelled, since bin
  counts are natural numbers. With -1, `linspace` returns no edges. Below -1 it raises.
- ConcertEngine.ConcertPricing.SellTicket: takes `num` as a natural number with no default.
  - `sell_ticket`'s default `num=1` is not modelled, since every call in the core passes the day's count.
  - A negative `num` is not modelled. The source accepts one and then lowers the sold count (`pricing.py:123`). The
    day's counts come from `random.randint(0, ...)` and are never negative.
- The `__main__` demonstrations of each file are left out.
