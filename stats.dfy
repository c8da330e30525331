/**
 * Statistics primitives of the XmR engine: sums and means, the moving-range
 * column (pandas `abs(x.diff())`), dropping its undefined slot (`dropna`),
 * the average moving range, and decimal rounding half-to-even.
 */
module Stats {
  import opened Wrappers

  function Abs(x: real): (r: real)
    ensures r >= 0.0 && (r == x || r == -x)
  {
    if x < 0.0 then -x else x
  }

  function Sum(s: seq<real>): real
  {
    if |s| == 0 then 0.0 else s[0] + Sum(s[1..])
  }

  /** Arithmetic mean of a non-empty sequence. */
  function Average(s: seq<real>): real
    requires |s| > 0
  {
    Sum(s) / |s| as real
  }

  lemma {:induction false} SumNonnegative(s: seq<real>)
    requires forall i :: 0 <= i < |s| ==> s[i] >= 0.0
    ensures Sum(s) >= 0.0
  {
    if |s| > 0 {
      SumNonnegative(s[1..]);
    }
  }

  lemma {:induction false} SumConstant(s: seq<real>, c: real)
    requires forall i :: 0 <= i < |s| ==> s[i] == c
    ensures Sum(s) == |s| as real * c
  {
    if |s| > 0 {
      SumConstant(s[1..], c);
    }
  }

  lemma AverageNonnegative(s: seq<real>)
    requires |s| > 0
    requires forall i :: 0 <= i < |s| ==> s[i] >= 0.0
    ensures Average(s) >= 0.0
  {
    SumNonnegative(s);
  }

  lemma AverageConstant(s: seq<real>, c: real)
    requires |s| > 0
    requires forall i :: 0 <= i < |s| ==> s[i] == c
    ensures Average(s) == c
  {
    SumConstant(s, c);
  }

  /**
   * The moving-range column: one entry per observation, undefined at
   * position 0 (pandas' `diff` leaves NaN there) and `|x[i] - x[i-1]|` at
   * every later position.
   */
  function MovingRanges(xs: seq<real>): (r: seq<Option<real>>)
    ensures |r| == |xs|
    ensures forall i :: 0 <= i < |r| ==> (r[i].None? <==> i == 0)
    ensures forall i :: 1 <= i < |r| ==> r[i].value == Abs(xs[i] - xs[i - 1])
  {
    seq(|xs|, i requires 0 <= i < |xs| => if i == 0 then None else Some(Abs(xs[i] - xs[i - 1])))
  }

  /** The defined entries of a column, in order (pandas' `dropna`, which `mean` applies). */
  function Present(rs: seq<Option<real>>): (p: seq<real>)
    ensures |p| <= |rs|
  {
    if |rs| == 0 then []
    else (if rs[0].Some? then [rs[0].value] else []) + Present(rs[1..])
  }

  lemma {:induction false} PresentAllDefined(rs: seq<Option<real>>)
    requires forall i :: 0 <= i < |rs| ==> rs[i].Some?
    ensures Present(rs) == seq(|rs|, i requires 0 <= i < |rs| => rs[i].value)
  {
    if |rs| > 0 {
      PresentAllDefined(rs[1..]);
    }
  }

  /** The n - 1 differences between neighbours, in order. */
  function Differences(xs: seq<real>): (d: seq<real>)
    requires |xs| > 0
    ensures |d| == |xs| - 1
    ensures forall i :: 0 <= i < |d| ==> d[i] == Abs(xs[i + 1] - xs[i])
    ensures forall i :: 0 <= i < |d| ==> d[i] >= 0.0
  {
    seq(|xs| - 1, i requires 0 <= i < |xs| - 1 => Abs(xs[i + 1] - xs[i]))
  }

  /** Dropping the undefined slot leaves exactly the n - 1 neighbour differences. */
  lemma PresentMovingRanges(xs: seq<real>)
    requires |xs| > 0
    ensures Present(MovingRanges(xs)) == Differences(xs)
  {
    var rs := MovingRanges(xs);
    var t := rs[1..];
    assert rs[0].None?;
    assert Present(rs) == Present(t);
    PresentAllDefined(t);
    var d := Differences(xs);
    assert |t| == |d|;
    forall i | 0 <= i < |t| ensures t[i].value == d[i] {
      assert t[i] == rs[i + 1];
    }
  }

  /** AmR: the mean of the defined moving ranges. */
  function AverageMovingRange(xs: seq<real>): (amr: real)
    requires |xs| >= 2
  {
    PresentMovingRanges(xs);
    Average(Present(MovingRanges(xs)))
  }

  /** AmR is the sum of the n - 1 neighbour differences divided by n - 1, and never negative. */
  lemma AverageMovingRangeMeaning(xs: seq<real>)
    requires |xs| >= 2
    ensures AverageMovingRange(xs) == Sum(Differences(xs)) / (|xs| - 1) as real
    ensures AverageMovingRange(xs) >= 0.0
  {
    PresentMovingRanges(xs);
    AverageNonnegative(Differences(xs));
  }

  /** A constant series has no movement: AmR is zero. */
  lemma ConstantSeriesAverageMovingRange(xs: seq<real>, c: real)
    requires |xs| >= 2
    requires forall i :: 0 <= i < |xs| ==> xs[i] == c
    ensures AverageMovingRange(xs) == 0.0
  {
    PresentMovingRanges(xs);
    AverageConstant(Differences(xs), 0.0);
  }

  function Pow10(d: nat): (p: real)
    ensures p >= 1.0
  {
    if d == 0 then 1.0 else 10.0 * Pow10(d - 1)
  }

  /**
   * The factor that turns `digits` decimals into units: 10^digits, or
   * 1 / 10^-digits for a negative `digits` (rounding to tens, hundreds, ...).
   */
  function Scale(digits: int): (p: real)
    ensures p > 0.0
  {
    if digits >= 0 then Pow10(digits) else 1.0 / Pow10(-digits)
  }

  /** The integer nearest to `y`, ties to the even one. */
  function NearestEven(y: real): (n: int)
  {
    var f := y.Floor;
    var frac := y - f as real;
    if frac < 0.5 then f else if frac > 0.5 then f + 1 else if f % 2 == 0 then f else f + 1
  }

  lemma NearestEvenBounds(y: real)
    ensures Abs(NearestEven(y) as real - y) <= 0.5
    ensures y >= 0.0 ==> NearestEven(y) >= 0
  {
  }

  /**
   * Rounding to `digits` decimals, ties to the even neighbour (numpy's
   * `around`, which pandas' `round` uses).
   */
  function RoundHalfEven(x: real, digits: int): (r: real)
  {
    Unscale(NearestEven(x * Scale(digits)), digits)
  }

  function Unscale(n: int, digits: int): real
  {
    n as real / Scale(digits)
  }

  /** Rounding keeps the sign of a non-negative value. */
  lemma RoundHalfEvenNonnegative(x: real, digits: int)
    requires x >= 0.0
    ensures RoundHalfEven(x, digits) >= 0.0
  {
    var n := NearestEven(x * Scale(digits));
    assert RoundHalfEven(x, digits) == Unscale(n, digits);
    var p := Scale(digits);
    assert x * p >= 0.0 by {
      assert p > 0.0;
    }
    NearestEvenBounds(x * p);
    assert n as real / p >= 0.0 by {
      assert n >= 0 && p > 0.0;
    }
  }

  /** The moving-range column with every defined entry rounded (`round(abs(x.diff()), d)`). */
  function RoundRanges(rs: seq<Option<real>>, digits: int): (r: seq<Option<real>>)
    ensures |r| == |rs|
    ensures forall i :: 0 <= i < |rs| ==> (r[i].Some? <==> rs[i].Some?)
    ensures forall i :: 0 <= i < |rs| && rs[i].Some? ==> r[i].value == RoundHalfEven(rs[i].value, digits)
  {
    seq(|rs|, i requires 0 <= i < |rs| => if rs[i].Some? then Some(RoundHalfEven(rs[i].value, digits)) else None)
  }

  lemma {:induction false} PresentRounded(rs: seq<Option<real>>, digits: int)
    ensures |Present(RoundRanges(rs, digits))| == |Present(rs)|
    ensures forall i :: 0 <= i < |Present(rs)| ==>
      Present(RoundRanges(rs, digits))[i] == RoundHalfEven(Present(rs)[i], digits)
  {
    if |rs| > 0 {
      PresentRounded(rs[1..], digits);
      assert RoundRanges(rs, digits)[1..] == RoundRanges(rs[1..], digits);
    }
  }

  /** AmR of the rounded moving ranges, as the X-chart computes it. */
  function RoundedAverageMovingRange(xs: seq<real>, digits: int): (amr: real)
    requires |xs| >= 2
  {
    PresentMovingRanges(xs);
    PresentRounded(MovingRanges(xs), digits);
    Average(Present(RoundRanges(MovingRanges(xs), digits)))
  }

  /** Rounding the moving ranges cannot make their average negative. */
  lemma RoundedAverageMovingRangeNonnegative(xs: seq<real>, digits: int)
    requires |xs| >= 2
    ensures RoundedAverageMovingRange(xs, digits) >= 0.0
  {
    PresentMovingRanges(xs);
    PresentRounded(MovingRanges(xs), digits);
    var p := Present(RoundRanges(MovingRanges(xs), digits));
    forall i | 0 <= i < |p| ensures p[i] >= 0.0 {
      RoundHalfEvenNonnegative(Differences(xs)[i], digits);
    }
    AverageNonnegative(p);
  }
}
