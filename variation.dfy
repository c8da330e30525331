/**
 * Variation classifier: labels each observation (X-chart) and each moving
 * range (mR-chart) as common or assignable cause. A comparison with an
 * undefined value or limit (NaN in the source) is false, so such points
 * are labelled common cause.
 */
module Variation {
  import opened Wrappers
  import opened Stats
  import opened ControlLimits

  datatype Cause = CommonCause | AssignableCause

  /** `xchart_variation`: assignable iff the value lies above UPL or below LPL. */
  function XCause(x: real, lim: Option<XmrLimits>): (c: Cause)
    ensures c == CommonCause <==> lim.None? || lim.value.lpl <= x <= lim.value.upl
  {
    if lim.Some? && (x > lim.value.upl || x < lim.value.lpl) then AssignableCause else CommonCause
  }

  /** `mrchart_variation`: assignable iff the moving range lies above URL. */
  function MrCause(r: Option<real>, url: Option<real>): (c: Cause)
    ensures c == CommonCause <==> r.None? || url.None? || r.value <= url.value
  {
    if r.Some? && url.Some? && r.value > url.value then AssignableCause else CommonCause
  }

  /** The X label of every observation, in order. */
  function XLabels(xs: seq<real>, lim: Option<XmrLimits>): (causes: seq<Cause>)
    ensures |causes| == |xs|
    ensures forall i :: 0 <= i < |xs| ==> causes[i] == XCause(xs[i], lim)
  {
    seq(|xs|, i requires 0 <= i < |xs| => XCause(xs[i], lim))
  }

  /** The mR label of every moving-range entry, in order. */
  function MrLabels(rs: seq<Option<real>>, url: Option<real>): (causes: seq<Cause>)
    ensures |causes| == |rs|
    ensures forall i :: 0 <= i < |rs| ==> causes[i] == MrCause(rs[i], url)
  {
    seq(|rs|, i requires 0 <= i < |rs| => MrCause(rs[i], url))
  }

  /**
   * X labels applied to a column that may hold NaN (the moving-range
   * column, when the chart's values column is itself named
   * 'Moving Ranges'): a NaN entry compares false and is common cause.
   */
  function XLabelsOfRanges(rs: seq<Option<real>>, lim: Option<XmrLimits>): (causes: seq<Cause>)
    ensures |causes| == |rs|
    ensures forall i :: 0 <= i < |rs| ==>
      (causes[i] == AssignableCause <==> rs[i].Some? && XCause(rs[i].value, lim) == AssignableCause)
  {
    seq(|rs|, i requires 0 <= i < |rs| => if rs[i].Some? then XCause(rs[i].value, lim) else CommonCause)
  }

  /** The 'X-Chart Variation' column: one label per observation. */
  method LabelX(xs: seq<real>, lim: Option<XmrLimits>) returns (causes: seq<Cause>)
    ensures causes == XLabels(xs, lim)
    ensures |causes| == |xs|
    ensures forall i :: 0 <= i < |xs| ==>
      (causes[i] == AssignableCause <==> lim.Some? && (xs[i] > lim.value.upl || xs[i] < lim.value.lpl))
  {
    causes := [];
    var i := 0;
    while i < |xs|
      invariant 0 <= i <= |xs|
      invariant |causes| == i
      invariant forall k :: 0 <= k < i ==> causes[k] == XCause(xs[k], lim)
    {
      causes := causes + [XCause(xs[i], lim)];
      i := i + 1;
    }
  }

  /** The 'mR-Chart Variation' column: one label per moving-range entry. */
  method LabelMr(rs: seq<Option<real>>, url: Option<real>) returns (causes: seq<Cause>)
    ensures causes == MrLabels(rs, url)
    ensures |causes| == |rs|
    ensures forall i :: 0 <= i < |rs| ==>
      (causes[i] == AssignableCause <==> rs[i].Some? && url.Some? && rs[i].value > url.value)
  {
    causes := [];
    var i := 0;
    while i < |rs|
      invariant 0 <= i <= |rs|
      invariant |causes| == i
      invariant forall k :: 0 <= k < i ==> causes[k] == MrCause(rs[k], url)
    {
      causes := causes + [MrCause(rs[i], url)];
      i := i + 1;
    }
  }

  /** Points exactly on a limit are common cause, on both charts. */
  lemma LimitsAreCommon(lim: XmrLimits, r: real)
    ensures XCause(lim.upl, Some(lim)) == CommonCause <==> lim.lpl <= lim.upl
    ensures XCause(lim.lpl, Some(lim)) == CommonCause <==> lim.lpl <= lim.upl
    ensures MrCause(Some(lim.url), Some(lim.url)) == CommonCause
  {
  }

  /** The undefined first moving range is always common cause. */
  lemma FirstMovingRangeCommon(xs: seq<real>)
    requires |xs| > 0
    ensures MrCause(MovingRanges(xs)[0], UrlOf(xs)) == CommonCause
  {
  }

  /**
   * A constant series with a non-negative value has every observation and
   * every moving range labelled common cause; a negative constant series
   * has every observation labelled assignable cause (its LPL is floored
   * above its UPL).
   */
  lemma ConstantSeriesLabels(xs: seq<real>, c: real)
    requires |xs| >= 2
    requires forall i :: 0 <= i < |xs| ==> xs[i] == c
    ensures c >= 0.0 ==> forall i :: 0 <= i < |xs| ==> XCause(xs[i], LimitsOf(xs, Chart)) == CommonCause
    ensures c < 0.0 ==> forall i :: 0 <= i < |xs| ==> XCause(xs[i], LimitsOf(xs, Chart)) == AssignableCause
    ensures forall i :: 0 <= i < |xs| ==> MrCause(MovingRanges(xs)[i], UrlOf(xs)) == CommonCause
  {
    ConstantSeriesLimits(xs, c);
  }
}
