/**
 * The pricing engine's mutable state, `ConcertPricing`, and the operations
 * that change it: selling tickets, resolving a prompt into preferences and
 * simulating one day.
 */
module ConcertEngine {
  import opened Wrappers
  import opened Stats
  import opened Text
  import opened Multipliers
  import opened Pricing

  /** One concert's entry in a day snapshot; `date` is present only in the Experiment copy. */
  datatype DayEntry = DayEntry(
    date: Option<int>,
    price: real,
    traffic: int,
    preference: int,
    soldToday: int,
    totalSold: int,
    remaining: int,
    floorPrice: real,
    reward: real)

  /**
   * How a day's prompt becomes preferences: the keyword parser, or the LLM
   * parser given the service's reply (None stands for a non-200 status).
   */
  datatype Resolver = Keyword | Llm(reply: Option<string>)

  /** `simulate_purchase` scores every concert's day with five bins. */
  const DayNumBins: nat := 5

  /** The preference table a resolver writes. */
  function ResolvedPreferences(v: Variant, concerts: seq<string>, prompt: string, resolver: Resolver)
    : map<string, int>
  {
    match resolver
    case Keyword => KeywordPreferences(v, concerts, prompt)
    case Llm(None) => KeywordPreferences(v, concerts, prompt)
    case Llm(Some(answer)) => AnswerPreferences(v, concerts, answer)
  }

  /** Two tables keyed by the concerts that agree on every concert are equal. */
  lemma TablesAgree(concerts: seq<string>, m: map<string, int>, target: map<string, int>)
    requires m.Keys == (set c | c in concerts) && target.Keys == m.Keys
    requires forall j | 0 <= j < |concerts| :: m[concerts[j]] == target[concerts[j]]
    ensures m == target
  {
    forall c | c in m
      ensures m[c] == target[c]
    {
      var j :| 0 <= j < |concerts| && concerts[j] == c;
    }
  }

  /** The tables one simulated day rewrites: sold counts, price histories and the day's entries. */
  datatype Ledger = Ledger(sold: map<string, int>, history: map<string, seq<real>>, day: map<string, DayEntry>)

  /** What one concert's turn of the day produces: the quoted price, the sold count after the sale and the entry. */
  datatype Turn = Turn(price: real, soldAfter: int, entry: DayEntry)

  /** Concert c's sold count in the tables, zero when it has none. */
  function SoldOf(l: Ledger, c: string): int {
    if c in l.sold then l.sold[c] else 0
  }

  /** Concert c's price history in the tables, empty when it has none. */
  function HistoryOf(l: Ledger, c: string): seq<real> {
    if c in l.history then l.history[c] else []
  }

  /** Writes concert c's turn into the tables: its price appended to its history, its new count and its entry. */
  function Place(l: Ledger, c: string, t: Turn): Ledger {
    Ledger(l.sold[c := t.soldAfter], l.history[c := HistoryOf(l, c) + [t.price]], l.day[c := t.entry])
  }

  /**
   * The tables once the first k concerts of `order` have taken their turn,
   * in that order, each turn computed by `turn` from that concert's count
   * and history as the earlier turns left them.
   */
  ghost function Fold(start: Ledger, order: seq<string>, turn: (string, int, seq<real>) -> Turn, k: nat): Ledger
    requires k <= |order|
    decreases k
  {
    if k == 0 then start
    else
      var l, c := Fold(start, order, turn, k - 1), order[k - 1];
      Place(l, c, turn(c, SoldOf(l, c), HistoryOf(l, c)))
  }

  /** With distinct names, every concert from position k on still has its starting count and history. */
  lemma {:induction false} FoldPending(start: Ledger, order: seq<string>, turn: (string, int, seq<real>) -> Turn,
                                       k: nat, j: nat)
    requires Distinct(order) && k <= j < |order|
    ensures var l, c := Fold(start, order, turn, k), order[j];
      SoldOf(l, c) == SoldOf(start, c) && HistoryOf(l, c) == HistoryOf(start, c)
  {
    if k > 0 {
      FoldPending(start, order, turn, k - 1, j);
      DistinctAt(order, k - 1, j);
    }
  }

  /**
   * With distinct names, once the first k turns are taken each of those
   * concerts holds the turn computed from its own count and history before
   * the day.
   */
  lemma {:induction false} FoldDone(start: Ledger, order: seq<string>, turn: (string, int, seq<real>) -> Turn,
                                    k: nat, j: nat)
    requires Distinct(order) && j < k <= |order|
    ensures var l, c := Fold(start, order, turn, k), order[j];
      var t := turn(c, SoldOf(start, c), HistoryOf(start, c));
      && c in l.sold && l.sold[c] == t.soldAfter
      && c in l.history && l.history[c] == HistoryOf(start, c) + [t.price]
      && c in l.day && l.day[c] == t.entry
  {
    if j < k - 1 {
      FoldDone(start, order, turn, k - 1, j);
      DistinctAt(order, j, k - 1);
    } else {
      FoldPending(start, order, turn, k - 1, j);
    }
  }

  /** With distinct names, a whole pass of turns extends every concert's history by exactly one price. */
  lemma FoldGrows(start: Ledger, order: seq<string>, turn: (string, int, seq<real>) -> Turn)
    requires Distinct(order)
    ensures var l := Fold(start, order, turn, |order|);
      forall c | c in order :: c in l.history && |l.history[c]| == |HistoryOf(start, c)| + 1
  {
    forall c | c in order
      ensures var l := Fold(start, order, turn, |order|);
        c in l.history && |l.history[c]| == |HistoryOf(start, c)| + 1
    {
      var j :| 0 <= j < |order| && order[j] == c;
      FoldDone(start, order, turn, |order|, j);
    }
  }

  /** A pass of k turns adds exactly the first k names of `order` to the day's entries. */
  lemma {:induction false} FoldDayKeys(start: Ledger, order: seq<string>, turn: (string, int, seq<real>) -> Turn,
                                       k: nat)
    requires k <= |order|
    ensures Fold(start, order, turn, k).day.Keys == start.day.Keys + (set j | 0 <= j < k :: order[j])
  {
    if k > 0 {
      FoldDayKeys(start, order, turn, k - 1);
      assert (set j | 0 <= j < k :: order[j]) == (set j | 0 <= j < k - 1 :: order[j]) + {order[k - 1]};
    }
  }

  /** A whole pass of turns adds exactly the names of `order` to the day's entries. */
  lemma FoldKeys(start: Ledger, order: seq<string>, turn: (string, int, seq<real>) -> Turn)
    ensures Fold(start, order, turn, |order|).day.Keys == start.day.Keys + (set c | c in order)
  {
    FoldDayKeys(start, order, turn, |order|);
    assert (set j | 0 <= j < |order| :: order[j]) == (set c | c in order) by {
      forall c | c in order ensures c in (set j | 0 <= j < |order| :: order[j]) {
        var j :| 0 <= j < |order| && order[j] == c;
      }
    }
  }

  class ConcertPricing {
    const variant: Variant
    /** The concerts in declared order (the key order of the source's dictionaries). */
    const concerts: seq<string>
    const basePrices: map<string, real>
    const totalTickets: map<string, int>
    /** Event instants, in days since a fixed epoch. */
    const concertDates: map<string, real>
    var soldTickets: map<string, int>
    /** The simulated clock, in days (with a fraction of a day) since the same epoch. */
    var currentDate: real
    var priceHistory: map<string, seq<real>>
    var userPreferences: map<string, int>
    ghost const startDate: real
    ghost var daysElapsed: nat

    ghost function Names(): set<string> {
      set c | c in concerts
    }

    /** What the constructor fixes: distinct names, one base price, date and total per concert, all totals positive. */
    ghost predicate Configured() {
      && Distinct(concerts)
      && basePrices.Keys == Names() && totalTickets.Keys == Names() && concertDates.Keys == Names()
      && forall c | c in totalTickets :: totalTickets[c] > 0
    }

    /** What pricing one concert needs: its base price, its date and a positive total. */
    ghost predicate Priced(c: string) {
      c in basePrices && c in concertDates && c in totalTickets && totalTickets[c] > 0
    }

    /** No concert is ever oversold. */
    ghost predicate TicketsValid()
      reads this`soldTickets
    {
      && soldTickets.Keys == Names()
      && forall c | c in soldTickets :: c in totalTickets && 0 <= soldTickets[c] <= totalTickets[c]
    }

    ghost predicate PreferencesValid()
      reads this`userPreferences
    {
      && userPreferences.Keys == Names()
      && forall c | c in userPreferences :: 0 <= userPreferences[c] <= 100
    }

    ghost predicate HistoryKeyed()
      reads this`priceHistory
    {
      priceHistory.Keys == Names()
    }

    /** Every table has one entry per concert, and the counts and preferences are in range. */
    ghost predicate Readable()
      reads this`soldTickets, this`userPreferences, this`priceHistory
    {
      Configured() && TicketsValid() && PreferencesValid() && HistoryKeyed()
    }

    /** Every history holds one price per simulated day, and the clock has moved one day per day. */
    ghost predicate Timeline()
      reads this`priceHistory, this`daysElapsed, this`currentDate
    {
      && (forall c | c in priceHistory :: |priceHistory[c]| == daysElapsed)
      && currentDate == startDate + daysElapsed as real
    }

    /** The state between two simulated days. */
    ghost predicate Valid()
      reads this
    {
      Readable() && Timeline()
    }

    constructor (variant: Variant, concerts: seq<string>, basePrices: map<string, real>,
                 totalTickets: map<string, int>, concertDates: map<string, real>, now: real)
      requires Distinct(concerts)
      requires basePrices.Keys == (set c | c in concerts)
      requires totalTickets.Keys == basePrices.Keys && concertDates.Keys == basePrices.Keys
      requires forall c | c in totalTickets :: totalTickets[c] > 0
      ensures Valid()
      ensures this.variant == variant && this.concerts == concerts && this.basePrices == basePrices
      ensures this.totalTickets == totalTickets && this.concertDates == concertDates
      ensures soldTickets == map c | c in concerts :: 0
      ensures priceHistory == map c | c in concerts :: []
      ensures userPreferences == map c | c in concerts :: NeutralPreference
      ensures currentDate == now && daysElapsed == 0
    {
      this.variant := variant;
      this.concerts := concerts;
      this.basePrices := basePrices;
      this.totalTickets := totalTickets;
      this.concertDates := concertDates;
      soldTickets := map c | c in concerts :: 0;
      currentDate := now;
      priceHistory := map c | c in concerts :: [];
      userPreferences := map c | c in concerts :: NeutralPreference;
      startDate := now;
      daysElapsed := 0;
    }

    /**
     * The price `get_price` quotes for concert c at instant `now` from the
     * given sold count, preference and history: the rounded product of the
     * multipliers, raised to the median of the history when it has one.
     */
    function Quote(c: string, now: real, sold: int, traffic: int, preference: int, history: seq<real>): (p: real)
      requires Priced(c)
      ensures p >= RawPrice(variant, basePrices[c], DaysBefore(concertDates[c], now), sold, totalTickets[c], traffic,
                            preference)
      ensures |history| > 0 ==> p >= Median(history)
      ensures |history| > 0 ==>
                p == Median(history)
                || p == RawPrice(variant, basePrices[c], DaysBefore(concertDates[c], now), sold, totalTickets[c], traffic,
                                 preference)
      ensures |history| == 0 ==>
                p == RawPrice(variant, basePrices[c], DaysBefore(concertDates[c], now), sold, totalTickets[c], traffic,
                              preference)
    {
      MedianFloor(RawPrice(variant, basePrices[c], DaysBefore(concertDates[c], now), sold, totalTickets[c], traffic,
                           preference),
                  history)
    }

    /** The snapshot's "Date": the calendar day of the clock, recorded only by the Experiment copy. */
    function DateStamp(now: real): Option<int> {
      if variant.Experiment? then Some(now.Floor) else None
    }

    /** `sell_ticket`: sells up to `num` tickets of concert c, never more than remain. */
    method SellTicket(c: string, num: nat)
      requires Configured() && TicketsValid() && c in Names()
      modifies this`soldTickets
      ensures TicketsValid()
      ensures soldTickets == old(soldTickets)[c := AfterSale(old(soldTickets[c]), totalTickets[c], num)]
    {
      var remaining := totalTickets[c] - soldTickets[c];
      var n := if num <= remaining then num else remaining;
      soldTickets := soldTickets[c := soldTickets[c] + n];
    }

    /** The first concert, in declared order, whose lower-cased name the lower-cased text contains. */
    method FirstMentioned(text: string) returns (selected: Option<string>)
      ensures selected == NameAt(concerts, FirstMatch(concerts, text))
    {
      var textLower := Lower(text);
      selected := None;
      var i := 0;
      while i < |concerts|
        invariant 0 <= i <= |concerts|
        invariant selected == None
        invariant forall j | 0 <= j < i :: !Mentions(concerts[j], text)
      {
        if Occurs(Lower(concerts[i]), textLower) {
          selected := Some(concerts[i]);
          break;
        }
        i := i + 1;
      }
    }

    /** Writes HighPreference for the selected concert and the variant's low value for every other one. */
    method SetPreferences(selected: Option<string>)
      requires Configured() && userPreferences.Keys == Names()
      modifies this`userPreferences
      ensures PreferencesValid()
      ensures userPreferences == Preferences(concerts, selected, variant.UnselectedPreference())
    {
      var low := variant.UnselectedPreference();
      ghost var target := Preferences(concerts, selected, low);
      var i := 0;
      while i < |concerts|
        invariant 0 <= i <= |concerts|
        invariant userPreferences.Keys == Names()
        invariant forall j | 0 <= j < i :: userPreferences[concerts[j]] == target[concerts[j]]
      {
        var c := concerts[i];
        userPreferences := userPreferences[c := if selected == Some(c) then HighPreference else low];
        i := i + 1;
      }
      TablesAgree(concerts, userPreferences, target);
      PreferencesInRange(concerts, selected, low);
    }

    /** `_parse_user_prompt`: the keyword parser. */
    method ParseUserPrompt(prompt: string)
      requires Valid()
      modifies this`userPreferences
      ensures Valid()
      ensures userPreferences == KeywordPreferences(variant, concerts, prompt)
    {
      var selected := FirstMentioned(prompt);
      SetPreferences(selected);
    }

    /**
     * `_parse_user_prompt_llm` from the service's reply on: a failed request
     * falls back to the keyword parser; otherwise the first concert the
     * stripped answer mentions is selected, or the first declared concert.
     */
    method ParseUserPromptLlm(prompt: string, reply: Option<string>)
      requires Valid() && variant.Experiment?
      requires reply.Some? ==> |concerts| > 0
      modifies this`userPreferences
      ensures Valid()
      ensures userPreferences == ResolvedPreferences(variant, concerts, prompt, Llm(reply))
    {
      if reply.None? {
        ParseUserPrompt(prompt);
        return;
      }
      var choice := Strip(reply.value);
      var selected := FirstMentioned(choice);
      if selected.None? {
        selected := Some(concerts[0]);
      }
      SetPreferences(selected);
    }

    /**
     * Concert c's turn of a simulated day, from its own state before the
     * day: the quoted price, the count after the sale, and the entry holding
     * the price, the sale, the median of the extended history and the reward.
     */
    function TurnOf(c: string, now: real, preference: int, traffic: int, sale: int, soldBefore: int,
                    historyBefore: seq<real>): Turn
      requires Priced(c) && 0 <= soldBefore <= totalTickets[c] && sale >= 0
    {
      var price := Quote(c, now, soldBefore, traffic, preference, historyBefore);
      var history := historyBefore + [price];
      var sold := AfterSale(soldBefore, totalTickets[c], sale);
      Turn(price, sold,
           DayEntry(DateStamp(now), price, traffic, preference, sale, sold, totalTickets[c] - sold, Median(history),
                    EngineReward(variant, history, price, preference, DayNumBins)))
    }

    /**
     * What one concert's turn records: the sale is clamped to what is left,
     * the entry repeats the price and the counts with `Remaining = total -
     * sold`, the price respects the median floor of the earlier prices, the
     * floor price lies within the extended history, the reward is never
     * negative, and the date is the turn's own instant (Experiment only).
     */
    lemma TurnFacts(c: string, now: real, preference: int, traffic: int, sale: int, soldBefore: int,
                    historyBefore: seq<real>)
      requires Configured() && c in Names() && 0 <= soldBefore <= totalTickets[c] && sale >= 0
      ensures var t := TurnOf(c, now, preference, traffic, sale, soldBefore, historyBefore);
        var h := historyBefore + [t.price];
        && soldBefore <= t.soldAfter <= totalTickets[c]
        && t.soldAfter - soldBefore == (if sale <= totalTickets[c] - soldBefore then sale else totalTickets[c] - soldBefore)
        && t.entry.price == t.price && t.entry.soldToday == sale && t.entry.totalSold == t.soldAfter
        && t.entry.remaining == totalTickets[c] - t.soldAfter
        && t.entry.traffic == traffic && t.entry.preference == preference
        && (|historyBefore| > 0 ==> t.price >= Median(historyBefore))
        && SeqMin(h) <= t.entry.floorPrice <= SeqMax(h)
        && t.entry.reward >= 0.0
        && t.entry.date == (if variant.Experiment? then Some(now.Floor) else None)
    {
      var t := TurnOf(c, now, preference, traffic, sale, soldBefore, historyBefore);
      MedianBounds(historyBefore + [t.price]);
    }

    /** Resolves a day's prompt into the preference table, with the keyword parser or the LLM parser. */
    method ResolvePrompt(prompt: string, resolver: Resolver)
      requires Valid()
      requires resolver.Llm? ==> variant.Experiment? && (resolver.reply.Some? ==> |concerts| > 0)
      modifies this`userPreferences
      ensures Valid()
      ensures userPreferences == ResolvedPreferences(variant, concerts, prompt, resolver)
    {
      match resolver {
        case Keyword => ParseUserPrompt(prompt);
        case Llm(reply) => ParseUserPromptLlm(prompt, reply);
      }
    }

    /** The day's tables are keyed by the concerts and no concert is oversold. */
    ghost predicate Balanced(l: Ledger) {
      && l.sold.Keys == Names() && l.history.Keys == Names()
      && forall c | c in l.sold :: c in totalTickets && 0 <= l.sold[c] <= totalTickets[c]
    }

    /** What a day needs for every concert: its preference, its traffic and its sale count. */
    ghost predicate DayInputs(prefs: map<string, int>, webTraffic: map<string, int>, sales: map<string, int>) {
      forall c | c in Names() :: c in prefs && c in webTraffic && c in sales && 0 <= sales[c]
    }

    /**
     * A day's turn for each concert at instant `now`: the turn `TurnOf`
     * computes from the day's inputs for that concert and its count and
     * history (a concert outside the configuration keeps its count).
     */
    ghost function DayStep(now: real, prefs: map<string, int>, webTraffic: map<string, int>, sales: map<string, int>)
      : (string, int, seq<real>) -> Turn
    {
      (c: string, sold: int, history: seq<real>) =>
        if Priced(c) && c in prefs && c in webTraffic && c in sales && 0 <= sales[c]
           && 0 <= sold <= totalTickets[c]
        then TurnOf(c, now, prefs[c], webTraffic[c], sales[c], sold, history)
        else Turn(0.0, sold, DayEntry(None, 0.0, 0, 0, 0, sold, 0, 0.0, 0.0))
    }

    /**
     * After a whole day every concert's count, history and entry come from
     * its own turn on its own state before the day: no turn sees another
     * concert's sale.
     */
    lemma DayRecords(start: Ledger, now: real, prefs: map<string, int>, webTraffic: map<string, int>,
                     sales: map<string, int>)
      requires Configured() && Balanced(start) && DayInputs(prefs, webTraffic, sales)
      ensures var l := Fold(start, concerts, DayStep(now, prefs, webTraffic, sales), |concerts|);
        forall c | c in Names() ::
          var t := TurnOf(c, now, prefs[c], webTraffic[c], sales[c], start.sold[c], start.history[c]);
          && c in l.sold && l.sold[c] == t.soldAfter
          && c in l.history && l.history[c] == start.history[c] + [t.price]
          && c in l.day && l.day[c] == t.entry
    {
      var step := DayStep(now, prefs, webTraffic, sales);
      var l := Fold(start, concerts, step, |concerts|);
      forall c | c in Names()
        ensures var t := TurnOf(c, now, prefs[c], webTraffic[c], sales[c], start.sold[c], start.history[c]);
          && c in l.sold && l.sold[c] == t.soldAfter
          && c in l.history && l.history[c] == start.history[c] + [t.price]
          && c in l.day && l.day[c] == t.entry
      {
        var j :| 0 <= j < |concerts| && concerts[j] == c;
        FoldDone(start, concerts, step, |concerts|, j);
        assert step(c, SoldOf(start, c), HistoryOf(start, c))
                 == TurnOf(c, now, prefs[c], webTraffic[c], sales[c], start.sold[c], start.history[c]);
      }
    }

    /**
     * The day snapshot of `simulate_purchase`: one entry per concert, each
     * concert's history grown by exactly that entry's price, and the entry's
     * `Remaining` equal to the total less the new sold count.
     */
    lemma DaySnapshot(start: Ledger, now: real, prefs: map<string, int>, webTraffic: map<string, int>,
                      sales: map<string, int>)
      requires Configured() && Balanced(start) && DayInputs(prefs, webTraffic, sales)
      ensures var l := Fold(start, concerts, DayStep(now, prefs, webTraffic, sales), |concerts|);
        forall c | c in Names() ::
          && c in l.day && c in l.sold && c in l.history
          && l.history[c] == start.history[c] + [l.day[c].price]
          && l.day[c].remaining == totalTickets[c] - l.sold[c]
          && start.sold[c] <= l.sold[c] <= totalTickets[c]
          && l.day[c].date == DateStamp(now)
      ensures var l := Fold(start, concerts, DayStep(now, prefs, webTraffic, sales), |concerts|);
        l.day.Keys == start.day.Keys + Names()
    {
      DayRecords(start, now, prefs, webTraffic, sales);
      FoldKeys(start, concerts, DayStep(now, prefs, webTraffic, sales));
      forall c | c in Names() {
        TurnFacts(c, now, prefs[c], webTraffic[c], sales[c], start.sold[c], start.history[c]);
      }
    }

    /** One concert's turn: price it, append the price, sell, and record the day's entry. */
    method TakeTurn(c: string, now: real, prefs: map<string, int>, webTraffic: map<string, int>,
                    sales: map<string, int>, l: Ledger) returns (r: Ledger)
      requires c in Names() && Priced(c) && DayInputs(prefs, webTraffic, sales) && Balanced(l)
      ensures r == Place(l, c, DayStep(now, prefs, webTraffic, sales)(c, SoldOf(l, c), HistoryOf(l, c)))
      ensures Balanced(r)
    {
      var preference, traffic, sale := prefs[c], webTraffic[c], sales[c];
      ghost var t := TurnOf(c, now, preference, traffic, sale, l.sold[c], l.history[c]);
      assert DayStep(now, prefs, webTraffic, sales)(c, SoldOf(l, c), HistoryOf(l, c)) == t;
      var price := Quote(c, now, l.sold[c], traffic, preference, l.history[c]);
      var history := l.history[c := l.history[c] + [price]];
      var sold := l.sold[c := AfterSale(l.sold[c], totalTickets[c], sale)];
      var reward := EngineReward(variant, history[c], price, preference, DayNumBins);
      r := Ledger(sold, history, l.day[c := DayEntry(DateStamp(now), price, traffic, preference, sale, sold[c],
                                                 totalTickets[c] - sold[c], Median(history[c]), reward)]);
    }

    /** The loop of `simulate_purchase`: every concert in declared order takes its turn. */
    method DayTables(now: real, prefs: map<string, int>, webTraffic: map<string, int>, sales: map<string, int>,
                     start: Ledger) returns (l: Ledger)
      requires Configured() && Balanced(start) && DayInputs(prefs, webTraffic, sales)
      ensures l == Fold(start, concerts, DayStep(now, prefs, webTraffic, sales), |concerts|)
      ensures Balanced(l)
    {
      ghost var step := DayStep(now, prefs, webTraffic, sales);
      l := start;
      var i := 0;
      while i < |concerts|
        invariant 0 <= i <= |concerts|
        invariant l == Fold(start, concerts, step, i) && Balanced(l)
      {
        var c := concerts[i];
        l := TakeTurn(c, now, prefs, webTraffic, sales, l);
        i := i + 1;
      }
    }

    /** Stores a day's tables and moves the clock on one day. */
    method RecordDay(l: Ledger)
      requires Valid() && Balanced(l)
      requires forall c | c in Names() :: |l.history[c]| == |priceHistory[c]| + 1
      modifies this`priceHistory, this`soldTickets, this`currentDate, this`daysElapsed
      ensures Valid()
      ensures soldTickets == l.sold && priceHistory == l.history
      ensures daysElapsed == old(daysElapsed) + 1 && currentDate == old(currentDate) + 1.0
    {
      soldTickets, priceHistory := l.sold, l.history;
      currentDate := currentDate + 1.0;
      daysElapsed := daysElapsed + 1;
    }

    /** The day after the prompt is resolved: the turns, then the clock moves on one day. */
    method SimulateDay(webTraffic: map<string, int>, sales: map<string, int>)
      returns (day: map<string, DayEntry>)
      requires Valid() && DayInputs(userPreferences, webTraffic, sales)
      modifies this`priceHistory, this`soldTickets, this`currentDate, this`daysElapsed
      ensures Valid()
      ensures daysElapsed == old(daysElapsed) + 1 && currentDate == old(currentDate) + 1.0
      ensures Ledger(soldTickets, priceHistory, day)
                == Fold(Ledger(old(soldTickets), old(priceHistory), map[]), concerts,
                        DayStep(old(currentDate), userPreferences, webTraffic, sales), |concerts|)
      ensures day.Keys == Names()
    {
      var l := DayTables(currentDate, userPreferences, webTraffic, sales, Ledger(soldTickets, priceHistory, map[]));
      FoldGrows(Ledger(soldTickets, priceHistory, map[]), concerts, DayStep(currentDate, userPreferences, webTraffic, sales));
      FoldKeys(Ledger(soldTickets, priceHistory, map[]), concerts, DayStep(currentDate, userPreferences, webTraffic, sales));
      RecordDay(l);
      day := l.day;
    }

    /**
     * `simulate_purchase`: resolves the prompt, then for every concert in
     * declared order prices it, appends the price to its history, sells the
     * day's tickets and scores the price; finally advances the clock one day.
     * `sales` holds the day's random sale counts, each drawn between 0 and
     * the traffic-dependent cap.
     */
    method SimulatePurchase(prompt: string, resolver: Resolver, webTraffic: map<string, int>,
                            sales: map<string, int>)
      returns (day: map<string, DayEntry>)
      requires Valid()
      requires resolver.Llm? ==> variant.Experiment? && (resolver.reply.Some? ==> |concerts| > 0)
      requires forall c | c in Names() ::
                 c in webTraffic && c in sales && 0 <= sales[c] <= MaxDailySales(webTraffic[c])
      modifies this
      ensures Valid()
      ensures daysElapsed == old(daysElapsed) + 1 && currentDate == old(currentDate) + 1.0
      ensures userPreferences == ResolvedPreferences(variant, concerts, prompt, resolver)
      ensures Ledger(soldTickets, priceHistory, day)
                == Fold(Ledger(old(soldTickets), old(priceHistory), map[]), concerts,
                        DayStep(old(currentDate), userPreferences, webTraffic, sales), |concerts|)
      ensures day.Keys == Names()
    {
      ResolvePrompt(prompt, resolver);
      day := SimulateDay(webTraffic, sales);
    }
  }
}
