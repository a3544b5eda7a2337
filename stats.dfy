/**
 * The order statistics and numeric helpers the engine takes from Python:
 * `min`/`max`, `statistics.median`, `numpy.clip` and `round(x, 2)`.
 */
module Stats {

  /** Smallest element of a non-empty history (Python's `min`, numpy's `ndarray.min`). */
  function SeqMin(s: seq<real>): (m: real)
    requires |s| > 0
    ensures m in s
    ensures forall x | x in s :: m <= x
  {
    if |s| == 1 then s[0]
    else
      var rest := SeqMin(s[1..]);
      assert s == [s[0]] + s[1..];
      if s[0] <= rest then s[0] else rest
  }

  /** Largest element of a non-empty history (Python's `max`, numpy's `ndarray.max`). */
  function SeqMax(s: seq<real>): (m: real)
    requires |s| > 0
    ensures m in s
    ensures forall x | x in s :: x <= m
  {
    if |s| == 1 then s[0]
    else
      var rest := SeqMax(s[1..]);
      assert s == [s[0]] + s[1..];
      if s[0] >= rest then s[0] else rest
  }

  ghost predicate IsSorted(s: seq<real>) {
    forall i, j | 0 <= i < j < |s| :: s[i] <= s[j]
  }

  /** The first element of an ascending sequence is its minimum. */
  lemma SortedMin(s: seq<real>)
    requires |s| > 0 && IsSorted(s)
    ensures SeqMin(s) == s[0]
  {
    var i :| 0 <= i < |s| && s[i] == SeqMin(s);
    assert s[0] <= s[i];
    assert s[0] in s;
  }

  /** The last element of an ascending sequence is its maximum. */
  lemma SortedMax(s: seq<real>)
    requires |s| > 0 && IsSorted(s)
    ensures SeqMax(s) == s[|s| - 1]
  {
    var j :| 0 <= j < |s| && s[j] == SeqMax(s);
    assert s[j] <= s[|s| - 1];
    assert s[|s| - 1] in s;
  }

  /** Inserts `x` before the first element it does not exceed. */
  function Insert(x: real, s: seq<real>): (r: seq<real>)
    ensures |r| == |s| + 1
  {
    if s == [] || x <= s[0] then [x] + s
    else [s[0]] + Insert(x, s[1..])
  }

  /** Inserting adds exactly `x` to the elements. */
  lemma {:induction false} InsertPerm(x: real, s: seq<real>)
    ensures multiset(Insert(x, s)) == multiset(s) + multiset{x}
  {
    if s != [] && x > s[0] {
      InsertPerm(x, s[1..]);
      assert s == [s[0]] + s[1..];
    }
  }

  /** An ascending sequence stays ascending behind an element no greater than any of its elements. */
  lemma ConsSorted(a: real, t: seq<real>)
    requires IsSorted(t) && forall k | 0 <= k < |t| :: a <= t[k]
    ensures IsSorted([a] + t)
  {
  }

  /** Inserting into an ascending sequence keeps it ascending. */
  lemma {:induction false} InsertSorted(x: real, s: seq<real>)
    requires IsSorted(s)
    ensures IsSorted(Insert(x, s))
  {
    if s == [] || x <= s[0] {
      ConsSorted(x, s);
    } else {
      var rest := Insert(x, s[1..]);
      InsertSorted(x, s[1..]);
      InsertPerm(x, s[1..]);
      forall k | 0 <= k < |rest|
        ensures s[0] <= rest[k]
      {
        assert rest[k] in multiset(rest);
        assert rest[k] == x || rest[k] in s[1..];
      }
      ConsSorted(s[0], rest);
    }
  }

  /** Python's `sorted` on a list of prices, by insertion. */
  function SortedCopy(s: seq<real>): (r: seq<real>)
    ensures |r| == |s|
  {
    if s == [] then [] else Insert(s[0], SortedCopy(s[1..]))
  }

  /** `sorted` returns the same elements in ascending order. */
  lemma {:induction false} SortedCopySorted(s: seq<real>)
    ensures IsSorted(SortedCopy(s))
    ensures multiset(SortedCopy(s)) == multiset(s)
  {
    if s != [] {
      SortedCopySorted(s[1..]);
      InsertSorted(s[0], SortedCopy(s[1..]));
      InsertPerm(s[0], SortedCopy(s[1..]));
      assert s == [s[0]] + s[1..];
    }
  }

  /** The middle element of a sequence, or the mean of the two middle elements when its length is even. */
  function Middle(t: seq<real>): real
    requires |t| > 0
  {
    var n := |t|;
    if n % 2 == 1 then t[n / 2] else (t[n / 2 - 1] + t[n / 2]) / 2.0
  }

  /** The middle of a sequence lies within any bounds on all of its elements. */
  lemma MiddleWithin(t: seq<real>, lo: real, hi: real)
    requires |t| > 0 && forall k | 0 <= k < |t| :: lo <= t[k] <= hi
    ensures lo <= Middle(t) <= hi
  {
  }

  /**
   * `statistics.median`: the middle element of the sorted data, or the mean
   * of the two middle elements when the length is even.
   */
  function Median(s: seq<real>): real
    requires |s| > 0
  {
    Middle(SortedCopy(s))
  }

  /** The median is made of the history's own prices: one of them, or the mean of two of them. */
  lemma MedianOfPrices(s: seq<real>)
    requires |s| > 0
    ensures |s| % 2 == 1 ==> Median(s) in s
    ensures |s| % 2 == 0 ==> exists a, b | a in s && b in s :: Median(s) == (a + b) / 2.0
  {
    var t := SortedCopy(s);
    SortedCopySorted(s);
    var n := |t|;
    assert t[n / 2] in multiset(t) && t[n / 2] in s;
    assert n % 2 == 0 ==> t[n / 2 - 1] in multiset(t) && t[n / 2 - 1] in s;
  }

  /** The median lies between the smallest and the largest price of the history. */
  lemma MedianBounds(s: seq<real>)
    requires |s| > 0
    ensures SeqMin(s) <= Median(s) <= SeqMax(s)
  {
    var t := SortedCopy(s);
    SortedCopySorted(s);
    forall k | 0 <= k < |t|
      ensures SeqMin(s) <= t[k] <= SeqMax(s)
    {
      assert t[k] in multiset(t);
      assert t[k] in s;
    }
    MiddleWithin(t, SeqMin(s), SeqMax(s));
  }

  /** Two ascending sequences holding the same elements are equal. */
  lemma {:induction false} SortedUnique(a: seq<real>, b: seq<real>)
    requires IsSorted(a) && IsSorted(b)
    requires multiset(a) == multiset(b)
    ensures a == b
  {
    assert |a| == |b| by {
      assert |multiset(a)| == |multiset(b)|;
    }
    if a != [] {
      SortedHeadsAgree(a, b);
      SortedHeadsAgree(b, a);
      assert a == [a[0]] + a[1..];
      assert b == [b[0]] + b[1..];
      assert a[0] == b[0];
      assert multiset(a[1..]) == multiset(b[1..]) by {
        assert multiset(a) == multiset{a[0]} + multiset(a[1..]);
        assert multiset(b) == multiset{a[0]} + multiset(b[1..]);
        assert multiset(a[1..]) == multiset(a) - multiset{a[0]};
        assert multiset(b[1..]) == multiset(b) - multiset{a[0]};
      }
      SortedUnique(a[1..], b[1..]);
    }
  }

  /** The head of an ascending sequence is at most every element of any sequence with the same elements. */
  lemma SortedHeadsAgree(a: seq<real>, b: seq<real>)
    requires IsSorted(b) && |a| > 0 && |b| > 0
    requires multiset(a) == multiset(b)
    ensures b[0] <= a[0]
  {
    assert a[0] in multiset(b);
    var j :| 0 <= j < |b| && b[j] == a[0];
  }

  /**
   * The median depends only on the values of the history, not on the order
   * in which the days appended them.
   */
  lemma MedianOrderFree(a: seq<real>, b: seq<real>)
    requires |a| > 0
    requires multiset(a) == multiset(b)
    ensures |b| == |a| && Median(a) == Median(b)
  {
    assert |multiset(a)| == |multiset(b)|;
    SortedCopySorted(a);
    SortedCopySorted(b);
    SortedUnique(SortedCopy(a), SortedCopy(b));
  }

  /** The median of an odd-length ascending history is its middle element. */
  lemma MedianOfSortedOdd(s: seq<real>)
    requires IsSorted(s) && |s| % 2 == 1
    ensures Median(s) == s[|s| / 2]
  {
    SortedCopySorted(s);
    SortedUnique(SortedCopy(s), s);
  }

  /** `numpy.clip(x, lo, hi)` with `lo <= hi`. */
  function Clip(x: real, lo: real, hi: real): (r: real)
    requires lo <= hi
    ensures lo <= r <= hi
    ensures lo <= x <= hi ==> r == x
    ensures x < lo ==> r == lo
    ensures x > hi ==> r == hi
  {
    if x < lo then lo else if x > hi then hi else x
  }

  /** A whole number of hundredths. */
  predicate IsCents(x: real) {
    (x * 100.0).Floor as real == x * 100.0
  }

  /**
   * `round(x, 2)`: the nearest whole number of hundredths, ties to the even
   * neighbour. Exact decimal arithmetic stands in for binary floating point.
   */
  function Round2(x: real): (r: real)
    ensures IsCents(r)
    ensures -0.005 <= r - x <= 0.005
    ensures IsCents(x) ==> r == x
  {
    var y := x * 100.0;
    var f := y.Floor;
    var frac := y - f as real;
    var n := if frac > 0.5 then f + 1
             else if frac < 0.5 then f
             else if f % 2 == 0 then f else f + 1;
    assert (n as real / 100.0) * 100.0 == n as real;
    n as real / 100.0
  }
}
