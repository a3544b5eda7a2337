/**
 * Bin edges and bin lookup as numpy computes them for the reward scorers:
 * `numpy.linspace(lo, hi, n + 1)` and `numpy.digitize(x, edges, right=True)`.
 */
module Bins {

  ghost predicate StrictlyIncreasing(e: seq<real>) {
    forall i, j | 0 <= i < j < |e| :: e[i] < e[j]
  }

  /** `numpy.linspace(lo, hi, n + 1)`: n + 1 points, the first lo, then equal steps up to hi. */
  function Edges(lo: real, hi: real, n: nat): (e: seq<real>)
    ensures |e| == n + 1 && e[0] == lo
    ensures n > 0 ==> e[n] == hi
    ensures n > 0 ==> forall i | 0 <= i < n :: e[i + 1] - e[i] == (hi - lo) / n as real
  {
    if n == 0 then [lo]
    else
      var step := (hi - lo) / n as real;
      var e := seq(n + 1, i requires 0 <= i <= n => lo + i as real * step);
      assert e[n] == hi by {
        assert n as real * step == hi - lo;
      }
      assert forall i | 0 <= i < n :: e[i + 1] - e[i] == step by {
        forall i | 0 <= i < n
          ensures e[i + 1] - e[i] == step
        {
          assert (i + 1) as real * step == i as real * step + step;
        }
      }
      e
  }

  /** Over a range with lo < hi the edges rise strictly. */
  lemma EdgesIncreasing(lo: real, hi: real, n: nat)
    requires lo < hi
    ensures StrictlyIncreasing(Edges(lo, hi, n))
  {
    var e := Edges(lo, hi, n);
    if n > 0 {
      var step := (hi - lo) / n as real;
      assert step > 0.0;
      forall i, j | 0 <= i < j < |e|
        ensures e[i] < e[j]
      {
        assert e[i] == lo + i as real * step;
        assert e[j] == lo + j as real * step;
        assert e[j] - e[i] == (j - i) as real * step;
        PositiveProduct((j - i) as real, step);
      }
    }
  }

  lemma PositiveProduct(a: real, b: real)
    requires a > 0.0 && b > 0.0
    ensures a * b > 0.0
  {
  }

  /**
   * `numpy.digitize(x, edges, right=True)` for ascending edges: the number of
   * edges strictly below x.
   */
  function CountBelow(e: seq<real>, x: real): (k: nat)
    ensures k <= |e|
  {
    if e == [] then 0
    else (if e[0] < x then 1 else 0) + CountBelow(e[1..], x)
  }

  /** A larger value is never placed in a lower bin. */
  lemma {:induction false} CountBelowMonotone(e: seq<real>, x: real, y: real)
    requires x <= y
    ensures CountBelow(e, x) <= CountBelow(e, y)
  {
    if e != [] {
      CountBelowMonotone(e[1..], x, y);
    }
  }

  /**
   * On ascending edges the count splits them: every edge before position
   * CountBelow(e, x) lies below x, every edge from it on lies at or above x.
   */
  lemma {:induction false} CountBelowSplits(e: seq<real>, x: real)
    requires StrictlyIncreasing(e)
    ensures forall i | 0 <= i < CountBelow(e, x) :: e[i] < x
    ensures forall i | CountBelow(e, x) <= i < |e| :: x <= e[i]
  {
    if e != [] {
      CountBelowSplits(e[1..], x);
      var k := CountBelow(e[1..], x);
      if e[0] < x {
        forall i | 0 <= i < k + 1
          ensures e[i] < x
        {
          if i > 0 { assert e[1..][i - 1] == e[i]; }
        }
        forall i | k + 1 <= i < |e|
          ensures x <= e[i]
        {
          assert e[1..][i - 1] == e[i];
        }
      } else {
        assert forall i | 0 < i < |e| :: e[0] < e[i];
        CountBelowZero(e, x);
      }
    }
  }

  /** A value above the first edge and at most the last falls in one of the interior bins. */
  lemma CountBelowInterior(e: seq<real>, x: real)
    requires StrictlyIncreasing(e) && |e| > 0 && e[0] < x <= e[|e| - 1]
    ensures 1 <= CountBelow(e, x) < |e|
  {
    CountBelowSplits(e, x);
  }

  lemma CountBelowZero(e: seq<real>, x: real)
    requires forall i | 0 <= i < |e| :: x <= e[i]
    ensures CountBelow(e, x) == 0
  {
    if e != [] {
      CountBelowZero(e[1..], x);
    }
  }

  /**
   * The right-inclusive rule: on ascending edges, x lands at position k exactly
   * when e[k-1] < x <= e[k], so a value on an edge falls in the lower bin.
   */
  lemma CountBelowLocates(e: seq<real>, x: real, k: nat)
    requires StrictlyIncreasing(e) && k <= |e|
    requires k == 0 || e[k - 1] < x
    requires k == |e| || x <= e[k]
    ensures CountBelow(e, x) == k
  {
    CountBelowSplits(e, x);
  }
}
