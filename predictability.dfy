/**
 * Predictability evaluator: the all-or-nothing verdict of a whole series,
 * against the X limits (`network_analysis`, `xchart_comparison`) or
 * against URL (`mrchart_comparison`).
 */
module Predictability {
  import opened Wrappers
  import opened Stats
  import opened ControlLimits
  import opened Variation

  datatype Characterization = Predictable | Unpredictable

  /** Python's `all(lo <= x <= hi for x in xs)`. */
  function AllWithin(xs: seq<real>, lo: real, hi: real): (b: bool)
    ensures b <==> forall i :: 0 <= i < |xs| ==> lo <= xs[i] <= hi
  {
    |xs| == 0 || (lo <= xs[0] <= hi && AllWithin(xs[1..], lo, hi))
  }

  /** Python's `all(m < bound for m in ms)`. */
  function AllBelow(ms: seq<real>, bound: real): (b: bool)
    ensures b <==> forall i :: 0 <= i < |ms| ==> ms[i] < bound
  {
    |ms| == 0 || (ms[0] < bound && AllBelow(ms[1..], bound))
  }

  /**
   * X-chart verdict: Predictable iff every value satisfies LPL <= x <= UPL.
   * With undefined limits every comparison is false, so only the empty
   * series is Predictable.
   */
  function XCharacterization(xs: seq<real>, lim: Option<XmrLimits>): (c: Characterization)
  {
    if lim.None? then (if |xs| == 0 then Predictable else Unpredictable)
    else if AllWithin(xs, lim.value.lpl, lim.value.upl) then Predictable
    else Unpredictable
  }

  /**
   * mR-chart verdict: Predictable iff every defined moving range is strictly
   * below URL (`mR.dropna()`; a series with fewer than two points has none).
   */
  function MrCharacterization(xs: seq<real>): (c: Characterization)
  {
    if |xs| < 2 then Predictable
    else if AllBelow(Present(MovingRanges(xs)), C2 * AverageMovingRange(xs)) then Predictable
    else Unpredictable
  }

  /** Predictable iff every observation is within the limits (no observation outside). */
  lemma XCharacterizationMeaning(xs: seq<real>, lim: Option<XmrLimits>)
    ensures XCharacterization(xs, lim) == Predictable <==>
      |xs| == 0 || (lim.Some? && forall i :: 0 <= i < |xs| ==> lim.value.lpl <= xs[i] <= lim.value.upl)
  {
  }

  /** Predictable iff every neighbour difference is strictly below URL = C2·AmR. */
  lemma MrCharacterizationMeaning(xs: seq<real>)
    ensures MrCharacterization(xs) == Predictable <==>
      |xs| < 2 || forall k :: 0 <= k < |xs| - 1 ==> Abs(xs[k + 1] - xs[k]) < C2 * AverageMovingRange(xs)
  {
    if |xs| >= 2 {
      PresentMovingRanges(xs);
    }
  }

  /**
   * With defined limits, a series is Predictable exactly when every
   * observation is labelled common cause: one assignable point makes it
   * Unpredictable.
   */
  lemma PredictableIffAllCommon(xs: seq<real>, lim: Option<XmrLimits>)
    requires lim.Some?
    ensures XCharacterization(xs, lim) == Predictable <==>
      forall i :: 0 <= i < |xs| ==> XCause(xs[i], lim) == CommonCause
  {
  }

  /** Every point of a Predictable series is common cause (whatever the limits). */
  lemma PredictableMeansCommon(xs: seq<real>, lim: Option<XmrLimits>)
    requires XCharacterization(xs, lim) == Predictable
    ensures forall i :: 0 <= i < |xs| ==> XCause(xs[i], lim) == CommonCause
  {
  }

  /**
   * A single observation has undefined limits: its label is common cause,
   * yet its X verdict is Unpredictable and its mR verdict Predictable.
   */
  lemma SinglePointVerdicts(x: real, v: Variant)
    ensures XCause(x, LimitsOf([x], v)) == CommonCause
    ensures XCharacterization([x], LimitsOf([x], v)) == Unpredictable
    ensures MrCharacterization([x]) == Predictable
  {
  }

  /** An mR-Predictable series has every moving range labelled common cause. */
  lemma MrPredictableMeansCommon(xs: seq<real>)
    requires MrCharacterization(xs) == Predictable
    ensures forall i :: 0 <= i < |xs| ==> MrCause(MovingRanges(xs)[i], UrlOf(xs)) == CommonCause
  {
    MrCharacterizationMeaning(xs);
  }

  /**
   * The converse fails at the boundary: a moving range exactly equal to URL
   * is common cause for `mrchart` (`>`), yet `mrchart_comparison` calls the
   * series Unpredictable (`<`).
   */
  lemma RangeOnUrlDisagreement(xs: seq<real>, k: nat)
    requires 1 <= k < |xs|
    requires Abs(xs[k] - xs[k - 1]) == C2 * AverageMovingRange(xs)
    ensures MrCause(MovingRanges(xs)[k], UrlOf(xs)) == CommonCause
    ensures MrCharacterization(xs) == Unpredictable
  {
    MrCharacterizationMeaning(xs);
    assert !(Abs(xs[k - 1 + 1] - xs[k - 1]) < C2 * AverageMovingRange(xs));
  }

  /** A series in which that happens: moving ranges 3.268, 0, 0, 0.732, so AmR = 1 and URL = 3.268. */
  const BoundarySeries: seq<real> := [0.0, 3.268, 3.268, 3.268, 2.536]

  lemma {:induction false} SumOfFour(s: seq<real>)
    requires |s| == 4
    ensures Sum(s) == s[0] + s[1] + s[2] + s[3]
  {
    assert Sum(s[3..]) == s[3] by { assert s[3..][1..] == []; }
    assert Sum(s[2..]) == s[2] + Sum(s[3..]) by { assert s[2..][1..] == s[3..]; }
    assert Sum(s[1..]) == s[1] + Sum(s[2..]) by { assert s[1..][1..] == s[2..]; }
  }

  lemma AmrFromSum(xs: seq<real>)
    requires |xs| == 5 && Sum(Differences(xs)) == 4.0
    ensures AverageMovingRange(xs) == 1.0
  {
    AverageMovingRangeMeaning(xs);
  }

  lemma BoundarySeriesOnUrl()
    ensures Abs(BoundarySeries[1] - BoundarySeries[0]) == C2 * AverageMovingRange(BoundarySeries)
  {
    var b := BoundarySeries;
    var d := Differences(b);
    assert d[0] == 3.268 by { assert d[0] == Abs(b[1] - b[0]); }
    assert d[1] == 0.0 by { assert d[1] == Abs(b[2] - b[1]); }
    assert d[2] == 0.0 by { assert d[2] == Abs(b[3] - b[2]); }
    assert d[3] == 0.732 by { assert d[3] == Abs(b[4] - b[3]); }
    SumOfFour(d);
    AmrFromSum(b);
  }

  /**
   * `network_analysis` floors UPL at 0 and so is at least as lenient as
   * `xchart_comparison`; the two verdicts agree whenever UPL >= 0.
   */
  lemma NetworkVerdictIsLenient(xs: seq<real>)
    ensures XCharacterization(xs, LimitsOf(xs, XComparison)) == Predictable ==>
      XCharacterization(xs, LimitsOf(xs, Network)) == Predictable
    ensures |xs| >= 2 && LimitsOf(xs, XComparison).value.upl >= 0.0 ==>
      XCharacterization(xs, LimitsOf(xs, XComparison)) == XCharacterization(xs, LimitsOf(xs, Network))
  {
  }
}
