/**
 * Order statistics of a numeric column as pandas computes them: minimum
 * and maximum, quantiles with linear interpolation between the sorted
 * observations, and the median.
 */
module Order {

  predicate Sorted(s: seq<real>)
  {
    forall i, j :: 0 <= i <= j < |s| ==> s[i] <= s[j]
  }

  /** Smallest element (`min(series)`; Python raises ValueError on an empty one). */
  function Min(xs: seq<real>): (m: real)
    requires |xs| > 0
    ensures m in xs
    ensures forall i :: 0 <= i < |xs| ==> m <= xs[i]
  {
    if |xs| == 1 then xs[0]
    else
      var rest := Min(xs[1..]);
      assert xs[1..][0] == xs[1];
      if xs[0] <= rest then xs[0] else rest
  }

  /** Largest element (`max(series)`; Python raises ValueError on an empty one). */
  function Max(xs: seq<real>): (m: real)
    requires |xs| > 0
    ensures m in xs
    ensures forall i :: 0 <= i < |xs| ==> xs[i] <= m
  {
    if |xs| == 1 then xs[0]
    else
      var rest := Max(xs[1..]);
      assert xs[1..][0] == xs[1];
      if xs[0] >= rest then xs[0] else rest
  }

  /** The elements strictly below `bound`, in their original order (`s[s < bound]`). */
  function Below(xs: seq<real>, bound: real): (r: seq<real>)
    ensures |r| <= |xs|
    ensures forall x :: x in r <==> x in xs && x < bound
    ensures |r| == 0 <==> forall i :: 0 <= i < |xs| ==> xs[i] >= bound
  {
    if |xs| == 0 then []
    else if xs[0] < bound then [xs[0]] + Below(xs[1..], bound)
    else Below(xs[1..], bound)
  }

  function Insert(x: real, s: seq<real>): (r: seq<real>)
    requires Sorted(s)
    ensures Sorted(r)
    ensures multiset(r) == multiset(s) + multiset{x}
  {
    if |s| == 0 then [x]
    else if x <= s[0] then [x] + s
    else
      assert s == [s[0]] + s[1..];
      var t := Insert(x, s[1..]);
      assert forall k :: 0 <= k < |t| ==> s[0] <= t[k] by {
        forall k | 0 <= k < |t| ensures s[0] <= t[k] {
          assert t[k] in multiset(s[1..]) + multiset{x};
          if t[k] != x {
            assert t[k] in s[1..];
          }
        }
      }
      [s[0]] + t
  }

  /** The observations in ascending order, as the quantile computation sees them. */
  function Sort(xs: seq<real>): (r: seq<real>)
    ensures Sorted(r)
    ensures multiset(r) == multiset(xs)
    ensures |r| == |xs|
  {
    if |xs| == 0 then []
    else
      assert xs == [xs[0]] + xs[1..];
      Insert(xs[0], Sort(xs[1..]))
  }

  /** The smallest observation is the first one in sorted order. */
  lemma SortedFirstIsMin(xs: seq<real>)
    requires |xs| > 0
    ensures Sort(xs)[0] == Min(xs)
  {
    var s := Sort(xs);
    assert s[0] in multiset(xs);
    assert Min(xs) in multiset(s);
  }

  /** The largest observation is the last one in sorted order. */
  lemma SortedLastIsMax(xs: seq<real>)
    requires |xs| > 0
    ensures Sort(xs)[|xs| - 1] == Max(xs)
  {
    var s := Sort(xs);
    assert s[|xs| - 1] in multiset(xs);
    assert Max(xs) in multiset(s);
    var j :| 0 <= j < |s| && s[j] == Max(xs);
    assert s[j] <= s[|xs| - 1];
  }

  /** `(n - 1) * q` split into its integer part (an index) and its fraction. */
  function Position(n: nat, q: real): (h: real)
    requires n > 0 && 0.0 <= q <= 1.0
    ensures 0.0 <= h <= (n - 1) as real
  {
    var m := (n - 1) as real;
    assert 0.0 <= m * q <= m by {
      assert m - m * q == m * (1.0 - q);
    }
    m * q
  }

  function LowIndex(n: nat, q: real): (lo: nat)
    requires n > 0 && 0.0 <= q <= 1.0
    ensures lo < n
    ensures lo as real <= Position(n, q) < lo as real + 1.0
  {
    Position(n, q).Floor
  }

  /** `a + (b - a) * t`. */
  function Lerp(a: real, b: real, t: real): real
  {
    a + (b - a) * t
  }

  lemma LerpBetween(a: real, b: real, t: real)
    requires a <= b && 0.0 <= t <= 1.0
    ensures a <= Lerp(a, b, t) <= b
  {
    var w := b - a;
    var d := w * t;
    assert 0.0 <= d;
    assert d <= w by {
      assert w - d == w * (1.0 - t);
    }
    assert Lerp(a, b, t) == a + d;
  }

  lemma LerpMonotone(a: real, b: real, t1: real, t2: real)
    requires a <= b && t1 <= t2
    ensures Lerp(a, b, t1) <= Lerp(a, b, t2)
  {
    assert (b - a) * t2 - (b - a) * t1 == (b - a) * (t2 - t1);
    assert (b - a) * (t2 - t1) >= 0.0;
  }

  /**
   * Quantile `q` of sorted data with linear interpolation (pandas'
   * default): the element at index floor((n - 1) q) moved toward the next
   * one by the fractional part of (n - 1) q.
   */
  function Quantile(s: seq<real>, q: real): real
    requires |s| > 0 && 0.0 <= q <= 1.0
  {
    var lo := LowIndex(|s|, q);
    if lo + 1 < |s| then Lerp(s[lo], s[lo + 1], Position(|s|, q) - lo as real) else s[lo]
  }

  /** A quantile lies between the two sorted observations it interpolates, so within the data's range. */
  lemma QuantileBetween(s: seq<real>, q: real)
    requires Sorted(s) && |s| > 0 && 0.0 <= q <= 1.0
    ensures s[LowIndex(|s|, q)] <= Quantile(s, q)
    ensures LowIndex(|s|, q) + 1 < |s| ==> Quantile(s, q) <= s[LowIndex(|s|, q) + 1]
    ensures s[0] <= Quantile(s, q) <= s[|s| - 1]
  {
    var lo := LowIndex(|s|, q);
    if lo + 1 < |s| {
      LerpBetween(s[lo], s[lo + 1], Position(|s|, q) - lo as real);
    }
  }

  /** A higher quantile is never smaller. */
  lemma QuantileMonotone(s: seq<real>, q1: real, q2: real)
    requires Sorted(s) && |s| > 0 && 0.0 <= q1 <= q2 <= 1.0
    ensures Quantile(s, q1) <= Quantile(s, q2)
  {
    var n := |s|;
    assert Position(n, q1) <= Position(n, q2) by {
      var m, dq := (n - 1) as real, q2 - q1;
      assert m >= 0.0 && dq >= 0.0;
      assert m * q2 - m * q1 == m * dq;
      assert m * dq >= 0.0;
    }
    var lo1, lo2 := LowIndex(n, q1), LowIndex(n, q2);
    QuantileBetween(s, q1);
    QuantileBetween(s, q2);
    if lo1 == lo2 {
      if lo1 + 1 < n {
        LerpMonotone(s[lo1], s[lo1 + 1], Position(n, q1) - lo1 as real, Position(n, q2) - lo2 as real);
      }
    } else {
      assert lo1 < lo2;
      assert s[lo1 + 1] <= s[lo2];
    }
  }

  /**
   * The median by its textbook definition: the middle observation, or the
   * mean of the two middle ones for an even count.
   */
  function Median(s: seq<real>): real
    requires |s| > 0
  {
    if |s| % 2 == 1 then s[|s| / 2] else (s[|s| / 2 - 1] + s[|s| / 2]) / 2.0
  }

  /** pandas' `median()` is its 0.5 quantile. */
  lemma MedianIsMiddleQuantile(s: seq<real>)
    requires |s| > 0
    ensures Median(s) == Quantile(s, 0.5)
  {
    var n := |s|;
    var m := n / 2;
    if n % 2 == 1 {
      assert (n - 1) as real * 0.5 == m as real;
      assert LowIndex(n, 0.5) == m;
    } else {
      assert (n - 1) as real * 0.5 == (m - 1) as real + 0.5;
      assert LowIndex(n, 0.5) == m - 1;
    }
  }
}
