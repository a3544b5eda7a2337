/**
 * The value-level rules of the concert pricing engine: a day's price with its
 * median floor, the engine's own reward, the preference table the prompt
 * parsers write and the clamped ticket sale. The class in ConcertEngine keeps
 * the state these rules read and write.
 */
module Pricing {
  import opened Wrappers
  import opened Stats
  import opened Text
  import opened Bins
  import opened Multipliers
  import RewardFunc

  /** The preference the parsers give the selected concert. */
  const HighPreference: int := 95
  /** Every concert's preference before the first prompt. */
  const NeutralPreference: int := 50
  /** The engine's reward adds LikedBonus above LikedAbove and takes the variant's penalty below DislikedBelow. */
  const LikedAbove: int := 70
  const DislikedBelow: int := 30
  const LikedBonus: real := 0.5

  /** No name occurs twice in the list. */
  ghost predicate Distinct(names: seq<string>) {
    |names| == 0 || (names[0] !in names[1..] && Distinct(names[1..]))
  }

  /** Two different positions of a list of distinct names hold different names. */
  lemma {:induction false} DistinctAt(names: seq<string>, i: nat, j: nat)
    requires Distinct(names) && i < j < |names|
    ensures names[i] != names[j]
  {
    if i == 0 {
      assert names[j] == names[1..][j - 1];
    } else {
      DistinctAt(names[1..], i - 1, j - 1);
    }
  }

  /** `(concert_date - current_date).days`: the whole days between the two instants, rounded down. */
  function DaysBefore(eventDate: real, now: real): (d: int)
    ensures d as real <= eventDate - now < d as real + 1.0
  {
    (eventDate - now).Floor
  }

  /**
   * The product of the four multipliers: between 0.85 * 1.0 * 0.95 * 0.9
   * (far out, plenty left, quiet, disliked) and 1.25 * 1.35 * 1.2 * 1.15
   * (last week, nearly sold out, busy, liked).
   */
  function DemandFactor(v: Variant, daysBefore: int, sold: int, total: int, traffic: int, preference: int): (f: real)
    requires total > 0
    ensures 0.72675 <= f <= 2.32875
  {
    var t, i := TimeMultiplier(daysBefore), InventoryMultiplier(sold, total);
    var w, p := TrafficMultiplier(traffic), PreferenceMultiplier(v, preference);
    assert 0.85 <= t * i <= 1.6875;
    assert 0.8075 <= t * i * w <= 2.025;
    t * i * w * p
  }

  /** The base price times the four multipliers, rounded to cents. */
  function RawPrice(v: Variant, base: real, daysBefore: int, sold: int, total: int, traffic: int, preference: int)
    : (r: real)
    requires total > 0
    ensures IsCents(r)
    ensures -0.005 <= r - base * DemandFactor(v, daysBefore, sold, total, traffic, preference) <= 0.005
  {
    Round2(base * DemandFactor(v, daysBefore, sold, total, traffic, preference))
  }

  /** The day's price: the raw price raised to the median of the earlier prices when there are any. */
  function MedianFloor(raw: real, history: seq<real>): (p: real)
    ensures p >= raw
    ensures |history| > 0 ==> p >= Median(history) && (p == raw || p == Median(history))
    ensures |history| == 0 ==> p == raw
  {
    if |history| > 0 then
      var floor := Median(history);
      if raw >= floor then raw else floor
    else
      raw
  }

  /**
   * The worked example: base price 7000 a week to a month out, over half the
   * tickets left, traffic 50 and neutral preference price at exactly 7000.
   */
  lemma PriceExample(daysBefore: int, sold: int, total: int)
    requires 7 <= daysBefore <= 30 && total > 0 && 2 * sold < total
    ensures MedianFloor(RawPrice(WebApp, 7000.0, daysBefore, sold, total, 50, NeutralPreference), []) == 7000.0
  {
    assert RemainingRatio(sold, total) > 0.5 by {
      assert (total - sold) as real > 0.5 * total as real;
    }
    assert DemandFactor(WebApp, daysBefore, sold, total, 50, NeutralPreference) == 1.0;
    assert IsCents(7000.0);
  }

  /** Over a spread history, the engine's base reward: `max(num_bins - digitize(...), 0)` with the bin unclamped. */
  function EngineBaseReward(history: seq<real>, purchased: real, numBins: nat): int
    requires |history| > 0 && SeqMin(history) < SeqMax(history)
  {
    var lo, hi := SeqMin(history), SeqMax(history);
    var bin := CountBelow(Edges(lo, hi, numBins), Clip(purchased, lo, hi));
    if numBins - bin >= 0 then numBins - bin else 0
  }

  /** Half a point more above preference 70, the variant's penalty below 30. */
  function EnginePreferenceAdjusted(v: Variant, reward: real, preference: int): real {
    if preference > LikedAbove then reward + LikedBonus
    else if preference < DislikedBelow then reward - v.LowPreferencePenalty()
    else reward
  }

  /** The engine's `calculate_reward(concert, purchased_price, num_bins)` on that concert's history and preference. */
  function EngineReward(v: Variant, history: seq<real>, purchased: real, preference: int, numBins: nat): (r: real)
    ensures |history| == 0 ==> r == 0.0
    ensures |history| > 0 && SeqMin(history) == SeqMax(history) ==> r == (numBins - 1) as real
    ensures |history| > 0 && SeqMin(history) < SeqMax(history) ==> r >= 0.0
  {
    if |history| == 0 then 0.0
    else if SeqMin(history) == SeqMax(history) then (numBins - 1) as real
    else
      var adjusted := EnginePreferenceAdjusted(v, EngineBaseReward(history, purchased, numBins) as real, preference);
      if adjusted >= 0.0 then adjusted else 0.0
  }

  /**
   * Without the clamp, a purchase at the lowest price gets the full numBins,
   * one more than the numBins - 1 a flat history gets, and one at the highest
   * price gets 0.
   */
  lemma EngineBaseRewardExtremes(history: seq<real>, numBins: nat)
    requires |history| > 0 && SeqMin(history) < SeqMax(history) && numBins >= 1
    ensures EngineBaseReward(history, SeqMin(history), numBins) == numBins
    ensures EngineBaseReward(history, SeqMax(history), numBins) == 0
  {
    var lo, hi := SeqMin(history), SeqMax(history);
    var e := Edges(lo, hi, numBins);
    EdgesIncreasing(lo, hi, numBins);
    assert Clip(lo, lo, hi) == lo && Clip(hi, lo, hi) == hi;
    CountBelowLocates(e, lo, 0);
    assert CountBelow(e, lo) == 0;
    CountBelowLocates(e, hi, numBins);
    assert CountBelow(e, hi) == numBins;
  }

  /**
   * The engine's unclamped bin against the standalone scorer's clamped one:
   * the base rewards agree except at the minimum price, where the engine's is
   * one higher.
   */
  lemma EngineBinAgainstScorer(history: seq<real>, purchased: real, numBins: nat)
    requires |history| > 0 && SeqMin(history) < SeqMax(history) && numBins >= 1
    ensures var lo, hi := SeqMin(history), SeqMax(history);
      EngineBaseReward(history, purchased, numBins)
      == RewardFunc.BaseReward(numBins, RewardFunc.BinOf(lo, hi, purchased, numBins))
         + (if Clip(purchased, lo, hi) == lo then 1 else 0)
  {
    var lo, hi := SeqMin(history), SeqMax(history);
    EdgesIncreasing(lo, hi, numBins);
    BinsAgree(Edges(lo, hi, numBins), Clip(purchased, lo, hi), numBins);
  }

  /** On ascending edges, a value between the outer edges scores alike in both, except at the lowest edge. */
  lemma BinsAgree(e: seq<real>, p: real, n: nat)
    requires n >= 1 && |e| == n + 1 && StrictlyIncreasing(e) && e[0] <= p <= e[n]
    ensures var b := CountBelow(e, p);
      (if n - b >= 0 then n - b else 0)
      == RewardFunc.BaseReward(n, RewardFunc.ClampBin(b, n)) + (if p == e[0] then 1 else 0)
  {
    if p == e[0] {
      CountBelowLocates(e, p, 0);
    } else {
      CountBelowInterior(e, p);
    }
  }

  /** A price below the minimum scores like the minimum, one above the maximum like the maximum. */
  lemma EngineRewardClipping(v: Variant, history: seq<real>, purchased: real, preference: int, numBins: nat)
    requires |history| > 0
    ensures purchased < SeqMin(history) ==>
              EngineReward(v, history, purchased, preference, numBins)
              == EngineReward(v, history, SeqMin(history), preference, numBins)
    ensures purchased > SeqMax(history) ==>
              EngineReward(v, history, purchased, preference, numBins)
              == EngineReward(v, history, SeqMax(history), preference, numBins)
  {
  }

  /** A cheaper purchase never scores lower than a dearer one. */
  lemma EngineRewardNonIncreasingInPrice(v: Variant, history: seq<real>, p1: real, p2: real, preference: int,
                                         numBins: nat)
    requires p1 <= p2
    ensures EngineReward(v, history, p2, preference, numBins) <= EngineReward(v, history, p1, preference, numBins)
  {
    if |history| > 0 && SeqMin(history) < SeqMax(history) {
      var lo, hi := SeqMin(history), SeqMax(history);
      CountBelowMonotone(Edges(lo, hi, numBins), Clip(p1, lo, hi), Clip(p2, lo, hi));
    }
  }

  /**
   * Over a spread history the engine's reward is the base reward plus half a
   * point above preference 70, or minus the variant's penalty below 30, and
   * never below zero.
   */
  lemma EngineRewardAdjustment(v: Variant, history: seq<real>, purchased: real, preference: int, numBins: nat)
    requires |history| > 0 && SeqMin(history) < SeqMax(history)
    ensures var b := EngineBaseReward(history, purchased, numBins) as real;
      var r := EngineReward(v, history, purchased, preference, numBins);
      && (preference > 70 ==> r == b + 0.5)
      && (30 <= preference <= 70 ==> r == b)
      && (preference < 30 ==> r == if b >= v.LowPreferencePenalty() then b - v.LowPreferencePenalty() else 0.0)
  {
  }

  /** A higher preference never lowers the engine's reward. */
  lemma EngineRewardMonotoneInPreference(v: Variant, history: seq<real>, purchased: real, pref1: int, pref2: int,
                                         numBins: nat)
    requires pref1 <= pref2
    ensures EngineReward(v, history, purchased, pref1, numBins) <= EngineReward(v, history, purchased, pref2, numBins)
  {
  }

  /** `sell_ticket`: the sold count after selling `num` more, clamped to what is left. */
  function AfterSale(sold: int, total: int, num: int): (s: int)
    requires 0 <= sold <= total && num >= 0
    ensures sold <= s <= total
    ensures s - sold <= num
    ensures s - sold == num || s == total
  {
    var remaining := total - sold;
    sold + (if num <= remaining then num else remaining)
  }

  /** The upper bound of `random.randint(0, max(1, traffic // 10))`, the day's simulated sales. */
  function MaxDailySales(traffic: int): (n: int)
    ensures n >= 1
  {
    if traffic / 10 > 1 then traffic / 10 else 1
  }

  /** The concert at position k, if any. */
  function NameAt(names: seq<string>, k: Option<nat>): Option<string> {
    if k.Some? && k.value < |names| then Some(names[k.value]) else None
  }

  /** The table a prompt parser writes: HighPreference for the selected concert, `low` for every other one. */
  function Preferences(concerts: seq<string>, selected: Option<string>, low: int): (m: map<string, int>)
    ensures m.Keys == set c | c in concerts
  {
    map c | c in concerts :: if selected == Some(c) then HighPreference else low
  }

  /** `_parse_user_prompt`: the first concert the prompt mentions is selected. */
  function KeywordPreferences(v: Variant, concerts: seq<string>, prompt: string): (m: map<string, int>)
    ensures m.Keys == set c | c in concerts
    ensures forall c | c in m :: m[c] == HighPreference || m[c] == v.UnselectedPreference()
    ensures forall c | c in m :: m[c] == HighPreference ==> Mentions(c, prompt)
  {
    Preferences(concerts, NameAt(concerts, FirstMatch(concerts, prompt)), v.UnselectedPreference())
  }

  /**
   * The concert an LLM answer selects: the first the stripped answer mentions,
   * or the first declared one when it mentions none; None when there is no
   * concert to fall back on.
   */
  function AnswerChoice(concerts: seq<string>, answer: string): (k: Option<nat>)
    ensures k.Some? <==> |concerts| > 0
    ensures k.Some? ==> k.value < |concerts|
  {
    if |concerts| == 0 then None
    else
      match FirstMatch(concerts, Strip(answer))
      case Some(i) => Some(i)
      case None => Some(0)
  }

  /** `_parse_user_prompt_llm` after a successful reply. */
  function AnswerPreferences(v: Variant, concerts: seq<string>, answer: string): (m: map<string, int>)
    ensures m.Keys == set c | c in concerts
    ensures forall c | c in m :: m[c] == HighPreference || m[c] == v.UnselectedPreference()
    ensures |concerts| > 0 ==> exists c | c in m :: m[c] == HighPreference
  {
    var k := AnswerChoice(concerts, answer);
    var m := Preferences(concerts, NameAt(concerts, k), v.UnselectedPreference());
    assert k.Some? ==> concerts[k.value] in m && m[concerts[k.value]] == HighPreference;
    m
  }

  lemma PreferencesInRange(concerts: seq<string>, selected: Option<string>, low: int)
    requires 0 <= low <= 100
    ensures var m := Preferences(concerts, selected, low);
      forall c | c in m :: 0 <= m[c] <= 100
  {
  }

  /** Any table the parsers write keeps every preference in [0, 100] and gives 95 to at most one concert. */
  lemma PreferencesShape(v: Variant, concerts: seq<string>, selected: Option<string>)
    ensures var m := Preferences(concerts, selected, v.UnselectedPreference());
      && (forall c | c in m :: 0 <= m[c] <= 100)
      && (forall c | c in m :: m[c] == HighPreference <==> selected == Some(c))
      && (forall c, d | c in m && d in m && m[c] == HighPreference && m[d] == HighPreference :: c == d)
  {
  }

  /**
   * The keyword parser gives 95 to exactly the first concert, in declared
   * order, whose name the prompt mentions, and the variant's low value to
   * every other concert; with no mention, every concert gets the low value.
   */
  lemma KeywordResolution(v: Variant, concerts: seq<string>, prompt: string)
    requires Distinct(concerts)
    ensures var m := KeywordPreferences(v, concerts, prompt);
      forall i | 0 <= i < |concerts| ::
        && concerts[i] in m
        && (m[concerts[i]] == HighPreference <==>
              Mentions(concerts[i], prompt) && forall j | 0 <= j < i :: !Mentions(concerts[j], prompt))
        && (m[concerts[i]] != HighPreference ==> m[concerts[i]] == v.UnselectedPreference())
  {
    var k := FirstMatch(concerts, prompt);
    forall i | 0 <= i < |concerts|
      ensures k == Some(i) <==>
                Mentions(concerts[i], prompt) && forall j | 0 <= j < i :: !Mentions(concerts[j], prompt)
      ensures NameAt(concerts, k) == Some(concerts[i]) <==> k == Some(i)
    {
    }
  }

  /** A prompt that mentions exactly one concert selects that concert, wherever it stands in the declared order. */
  lemma SingleMentionSelects(v: Variant, concerts: seq<string>, prompt: string, k: nat)
    requires Distinct(concerts) && k < |concerts|
    requires Mentions(concerts[k], prompt)
    requires forall j | 0 <= j < |concerts| && j != k :: !Mentions(concerts[j], prompt)
    ensures var m := KeywordPreferences(v, concerts, prompt);
      && m[concerts[k]] == HighPreference
      && forall j | 0 <= j < |concerts| && j != k :: m[concerts[j]] == v.UnselectedPreference()
  {
    KeywordResolution(v, concerts, prompt);
  }

  /**
   * An LLM answer always selects exactly one concert: the first it mentions,
   * or the first declared one when it mentions none.
   */
  lemma AnswerSelectsExactlyOne(v: Variant, concerts: seq<string>, answer: string)
    requires Distinct(concerts) && |concerts| > 0
    ensures var m := AnswerPreferences(v, concerts, answer);
      var k := AnswerChoice(concerts, answer).value;
      && (forall c | c in m :: m[c] == HighPreference <==> c == concerts[k])
      && (forall c | c in m :: m[c] != HighPreference ==> m[c] == v.UnselectedPreference())
      && (Mentions(concerts[k], Strip(answer)) || (k == 0 && forall j | 0 <= j < |concerts| :: !Mentions(concerts[j], Strip(answer))))
      && (forall j | 0 <= j < k :: !Mentions(concerts[j], Strip(answer)))
  {
    var k := AnswerChoice(concerts, answer).value;
    assert NameAt(concerts, AnswerChoice(concerts, answer)) == Some(concerts[k]);
    PreferencesShape(v, concerts, Some(concerts[k]));
    match FirstMatch(concerts, Strip(answer)) {
      case Some(i) => assert k == i;
      case None => assert k == 0;
    }
  }

  /** Through the preference multiplier, the selected concert is priced at 1.15 and every other one at 0.9. */
  lemma SelectionMultipliers(v: Variant, concerts: seq<string>, selected: Option<string>)
    ensures var m := Preferences(concerts, selected, v.UnselectedPreference());
      forall c | c in m :: PreferenceMultiplier(v, m[c]) == if selected == Some(c) then 1.15 else 0.9
  {
  }
}
