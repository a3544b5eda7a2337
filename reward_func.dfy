/**
 * The standalone reward scorer the web routes call after each simulated day:
 * it places the purchase price in one of `numBins` equal-width bins of the
 * concert's price range, turns the bin into a base reward (cheaper is better),
 * then adjusts it for the user's preference and softens it around a threshold.
 */
module RewardFunc {
  import opened Wrappers
  import opened Stats
  import opened Bins

  /** `(reward, bin_index, bins)`; `binIndex` is None where the scorer returns Python's None. */
  datatype RewardResult = RewardResult(reward: real, binIndex: Option<int>, edges: seq<real>)

  /** The scorer's default arguments. */
  const DefaultPreference: int := 50
  const DefaultThreshold: real := 2.0

  /** `max(1, min(num_bins, k))`. */
  function ClampBin(k: int, numBins: int): int {
    var upper := if numBins <= k then numBins else k;
    if 1 >= upper then 1 else upper
  }

  /** `max(num_bins - bin_index, 0)`. */
  function BaseReward(numBins: int, binIndex: int): int {
    if numBins - binIndex >= 0 then numBins - binIndex else 0
  }

  /** A quarter point more for a liked concert (above 50), one and a half less for a disliked one (below 30). */
  function PreferenceAdjusted(reward: real, preference: int): (r: real)
    ensures r > reward <==> preference > 50
    ensures r < reward <==> preference < 30
    ensures reward - 1.5 <= r <= reward + 0.25
  {
    if preference > 50 then reward + 0.25
    else if preference < 30 then reward - 1.5
    else reward
  }

  /** At or below the threshold: three quarters more for a liked concert, one less otherwise. */
  function ThresholdAdjusted(reward: real, preference: int, threshold: real): (r: real)
    ensures r == reward <==> reward > threshold
    ensures r > reward <==> reward <= threshold && preference > 50
    ensures reward - 1.0 <= r <= reward + 0.75
  {
    if reward <= threshold then
      if preference > 50 then reward + 0.75 else reward - 1.0
    else
      reward
  }

  /** The final reward for a base reward: the preference step, then the threshold step. */
  function Adjusted(base: int, preference: int, threshold: real): real {
    ThresholdAdjusted(PreferenceAdjusted(base as real, preference), preference, threshold)
  }

  /** The bin of the clipped purchase price over a non-degenerate range. */
  function BinOf(lo: real, hi: real, purchased: real, numBins: nat): int
    requires lo < hi
  {
    ClampBin(CountBelow(Edges(lo, hi, numBins), Clip(purchased, lo, hi)), numBins)
  }

  /** `calculate_reward(price_history, purchased_price, preference, num_bins, threshold)`. */
  function CalculateReward(history: seq<real>, purchased: real, preference: int, numBins: nat, threshold: real)
    : (r: RewardResult)
    ensures |history| == 0 ==> r == RewardResult(0.0, None, [])
    ensures |history| > 0 && SeqMin(history) == SeqMax(history) ==>
              r == RewardResult((numBins - 1) as real, Some(1), seq(numBins + 1, _ => SeqMin(history)))
    ensures |history| > 0 && SeqMin(history) < SeqMax(history) ==>
              && r.binIndex.Some?
              && r.edges == Edges(SeqMin(history), SeqMax(history), numBins)
              && (numBins >= 1 ==> 1 <= r.binIndex.value <= numBins)
  {
    if |history| == 0 then RewardResult(0.0, None, [])
    else
      var lo := SeqMin(history);
      var hi := SeqMax(history);
      if lo == hi then
        RewardResult((numBins - 1) as real, Some(1), seq(numBins + 1, _ => lo))
      else
        var binIndex := BinOf(lo, hi, purchased, numBins);
        RewardResult(Adjusted(BaseReward(numBins, binIndex), preference, threshold), Some(binIndex),
                     Edges(lo, hi, numBins))
  }

  /** Over a spread history the edges are numBins + 1 evenly spaced, strictly rising values from min to max. */
  lemma RewardEdges(history: seq<real>, purchased: real, preference: int, numBins: nat, threshold: real)
    requires |history| > 0 && SeqMin(history) < SeqMax(history) && numBins >= 1
    ensures var e := CalculateReward(history, purchased, preference, numBins, threshold).edges;
      && |e| == numBins + 1
      && e[0] == SeqMin(history) && e[numBins] == SeqMax(history)
      && StrictlyIncreasing(e)
      && forall i | 0 <= i < numBins :: e[i + 1] - e[i] == (SeqMax(history) - SeqMin(history)) / numBins as real
  {
    EdgesIncreasing(SeqMin(history), SeqMax(history), numBins);
  }

  /** A price below the minimum scores like the minimum, one above the maximum like the maximum. */
  lemma RewardClipping(history: seq<real>, purchased: real, preference: int, numBins: nat, threshold: real)
    requires |history| > 0
    ensures purchased < SeqMin(history) ==>
              CalculateReward(history, purchased, preference, numBins, threshold)
              == CalculateReward(history, SeqMin(history), preference, numBins, threshold)
    ensures purchased > SeqMax(history) ==>
              CalculateReward(history, purchased, preference, numBins, threshold)
              == CalculateReward(history, SeqMax(history), preference, numBins, threshold)
  {
  }

  /**
   * The right-inclusive rule over a spread history: the clipped price p lies in
   * (e[b-1], e[b]] for the returned bin b, or equals the minimum in bin 1.
   */
  lemma RewardBinLocation(history: seq<real>, purchased: real, preference: int, numBins: nat, threshold: real)
    requires |history| > 0 && SeqMin(history) < SeqMax(history) && numBins >= 1
    ensures var r := CalculateReward(history, purchased, preference, numBins, threshold);
      var p := Clip(purchased, SeqMin(history), SeqMax(history));
      && r.binIndex.Some? && 1 <= r.binIndex.value <= numBins
      && r.edges[r.binIndex.value - 1] <= p <= r.edges[r.binIndex.value]
      && (r.binIndex.value > 1 ==> r.edges[r.binIndex.value - 1] < p)
      && (r.binIndex.value == 1 ==> p <= r.edges[1])
  {
    var lo, hi := SeqMin(history), SeqMax(history);
    var e := Edges(lo, hi, numBins);
    var p := Clip(purchased, lo, hi);
    EdgesIncreasing(lo, hi, numBins);
    CountBelowSplits(e, p);
    var k := CountBelow(e, p);
    assert p <= e[numBins];
    assert k <= numBins;
  }

  /** A clipped price exactly on edge k (k >= 1) falls in bin k, the lower of the two bins sharing that edge. */
  lemma RewardOnEdge(history: seq<real>, purchased: real, preference: int, numBins: nat, threshold: real, k: nat)
    requires |history| > 0 && SeqMin(history) < SeqMax(history)
    requires 1 <= k <= numBins
    requires Clip(purchased, SeqMin(history), SeqMax(history)) == Edges(SeqMin(history), SeqMax(history), numBins)[k]
    ensures CalculateReward(history, purchased, preference, numBins, threshold).binIndex == Some(k)
  {
    var lo, hi := SeqMin(history), SeqMax(history);
    var e := Edges(lo, hi, numBins);
    EdgesIncreasing(lo, hi, numBins);
    CountBelowLocates(e, e[k], k);
  }

  /** The base reward lies in [0, numBins - 1] over a spread history. */
  lemma RewardBaseRange(history: seq<real>, purchased: real, preference: int, numBins: nat, threshold: real)
    requires |history| > 0 && SeqMin(history) < SeqMax(history) && numBins >= 1
    ensures var b := CalculateReward(history, purchased, preference, numBins, threshold).binIndex.value;
      0 <= BaseReward(numBins, b) <= numBins - 1 && BaseReward(numBins, b) == numBins - b
  {
  }

  /** The preference and threshold steps never reverse the order of two base rewards. */
  lemma {:induction false} AdjustedMonotone(b1: int, b2: int, preference: int, threshold: real)
    requires b1 <= b2
    ensures Adjusted(b1, preference, threshold) <= Adjusted(b2, preference, threshold)
  {
    if b1 < b2 {
      assert b1 as real + 1.0 <= b2 as real;
    }
  }

  /** A cheaper purchase never scores lower than a dearer one (same history, preference, bins and threshold). */
  lemma RewardNonIncreasingInPrice(history: seq<real>, p1: real, p2: real, preference: int, numBins: nat,
                                   threshold: real)
    requires p1 <= p2
    ensures CalculateReward(history, p2, preference, numBins, threshold).reward
            <= CalculateReward(history, p1, preference, numBins, threshold).reward
  {
    if |history| > 0 && SeqMin(history) < SeqMax(history) {
      var lo, hi := SeqMin(history), SeqMax(history);
      CountBelowMonotone(Edges(lo, hi, numBins), Clip(p1, lo, hi), Clip(p2, lo, hi));
      AdjustedMonotone(BaseReward(numBins, BinOf(lo, hi, p2, numBins)),
                       BaseReward(numBins, BinOf(lo, hi, p1, numBins)), preference, threshold);
    }
  }

  /** A higher preference never lowers the reward: disliked <= neutral <= liked. */
  lemma RewardMonotoneInPreference(history: seq<real>, purchased: real, pref1: int, pref2: int, numBins: nat,
                                   threshold: real)
    requires pref1 <= pref2
    ensures CalculateReward(history, purchased, pref1, numBins, threshold).reward
            <= CalculateReward(history, purchased, pref2, numBins, threshold).reward
  {
  }

  /** The bin and the edges never depend on the preference or the threshold. */
  lemma RewardBinIgnoresPreference(history: seq<real>, purchased: real, pref1: int, pref2: int, numBins: nat,
                                   t1: real, t2: real)
    ensures CalculateReward(history, purchased, pref1, numBins, t1).binIndex
            == CalculateReward(history, purchased, pref2, numBins, t2).binIndex
    ensures CalculateReward(history, purchased, pref1, numBins, t1).edges
            == CalculateReward(history, purchased, pref2, numBins, t2).edges
  {
  }

  /**
   * The final reward for base reward b: the preference step (+0.25 above 50,
   * -1.5 below 30), then, at or below the threshold, +0.75 for a liked
   * concert or -1 otherwise; nothing floors the result at zero.
   */
  lemma RewardAdjustment(history: seq<real>, purchased: real, preference: int, numBins: nat, threshold: real)
    requires |history| > 0 && SeqMin(history) < SeqMax(history)
    ensures var r := CalculateReward(history, purchased, preference, numBins, threshold);
      var b := BaseReward(numBins, r.binIndex.value) as real;
      && (preference > 50 ==> r.reward == if b + 0.25 <= threshold then b + 1.0 else b + 0.25)
      && (30 <= preference <= 50 ==> r.reward == if b <= threshold then b - 1.0 else b)
      && (preference < 30 ==> r.reward == if b - 1.5 <= threshold then b - 2.5 else b - 1.5)
      && (r.reward != PreferenceAdjusted(b, preference) <==> PreferenceAdjusted(b, preference) <= threshold)
  {
  }

  /** The worked example: prices 100..500, five bins, a purchase at 250. */
  lemma RewardExample()
    ensures CalculateReward([100.0, 200.0, 300.0, 400.0, 500.0], 250.0, DefaultPreference, 5, DefaultThreshold)
            == RewardResult(3.0, Some(2), [100.0, 180.0, 260.0, 340.0, 420.0, 500.0])
  {
    var h := [100.0, 200.0, 300.0, 400.0, 500.0];
    SortedMin(h);
    SortedMax(h);
    ExampleEdges();
    ExampleBin();
  }

  /** Five bins over 100..500 are 80 wide. */
  lemma ExampleEdges()
    ensures Edges(100.0, 500.0, 5) == [100.0, 180.0, 260.0, 340.0, 420.0, 500.0]
  {
    var e := Edges(100.0, 500.0, 5);
    assert e[1] == 180.0 && e[2] == 260.0 && e[3] == 340.0 && e[4] == 420.0;
  }

  /** A purchase at 250 over 100..500 falls in the second of five bins. */
  lemma ExampleBin()
    ensures BinOf(100.0, 500.0, 250.0, 5) == 2
  {
    ExampleEdges();
    EdgesIncreasing(100.0, 500.0, 5);
    CountBelowLocates(Edges(100.0, 500.0, 5), 250.0, 2);
  }

  /** The reward can go negative: a disliked concert bought at the top of its range scores -2.5. */
  lemma RewardCanBeNegative()
    ensures CalculateReward([100.0, 200.0], 200.0, 10, 5, DefaultThreshold).reward == -2.5
  {
    var h := [100.0, 200.0];
    SortedMin(h);
    SortedMax(h);
    var e := Edges(100.0, 200.0, 5);
    EdgesIncreasing(100.0, 200.0, 5);
    CountBelowLocates(e, 200.0, 5);
  }
}
