/**
 * `limit_chart` without its plot: the observations against fixed
 * specification limits USL and LSL supplied by the caller (not computed
 * from the data), with the count and the share of observations outside.
 */
module SpecLimits {
  import opened Wrappers
  import opened Stats
  import opened ControlLimits
  import opened Frames

  /**
   * The parameter table: Mean, Target, Mean to Target Delta, USL, LSL,
   * Spec Limit Range, # of Values, # Outside Spec, % Outside Spec.
   * Mean, delta and percentage are NaN (None) for an empty column.
   */
  datatype SpecReport = SpecReport(
    mean: Option<real>, target: real, delta: Option<real>,
    usl: real, lsl: real, slr: real,
    count: nat, outside: nat, percent: Option<real>)

  /** `np.sum(data > bound)`. */
  function CountAbove(xs: seq<real>, bound: real): (n: nat)
    ensures n <= |xs|
    ensures n == 0 <==> forall i :: 0 <= i < |xs| ==> xs[i] <= bound
  {
    if |xs| == 0 then 0 else (if xs[0] > bound then 1 else 0) + CountAbove(xs[1..], bound)
  }

  /** `np.sum(data < bound)`. */
  function CountBelow(xs: seq<real>, bound: real): (n: nat)
    ensures n <= |xs|
    ensures n == 0 <==> forall i :: 0 <= i < |xs| ==> xs[i] >= bound
  {
    if |xs| == 0 then 0 else (if xs[0] < bound then 1 else 0) + CountBelow(xs[1..], bound)
  }

  /** `outside_USL + outside_LSL`: an observation is counted once per limit it violates. */
  function CountOutside(xs: seq<real>, usl: real, lsl: real): (n: nat)
    ensures n == 0 <==> forall i :: 0 <= i < |xs| ==> lsl <= xs[i] <= usl
  {
    CountAbove(xs, usl) + CountBelow(xs, lsl)
  }

  /** The report for a numeric series; the percentage is NaN (None) when there are no observations. */
  function ReportOf(xs: seq<real>, target: real, usl: real, lsl: real): (r: SpecReport)
    ensures r.count == |xs| && r.slr == usl - lsl && r.target == target && r.usl == usl && r.lsl == lsl
    ensures r.mean == MeanOf(xs) && (r.delta.Some? <==> |xs| > 0)
    ensures |xs| > 0 ==> r.delta.value == target - r.mean.value
    ensures r.outside == CountOutside(xs, usl, lsl)
    ensures r.percent.Some? <==> |xs| > 0
    ensures |xs| > 0 ==> r.percent.value == 100.0 * r.outside as real / |xs| as real
  {
    var outside := CountOutside(xs, usl, lsl);
    SpecReport(
      MeanOf(xs), target, if |xs| == 0 then None else Some(target - Average(xs)),
      usl, lsl, usl - lsl,
      |xs|, outside, if |xs| == 0 then None else Some(outside as real / |xs| as real * 100.0))
  }

  /**
   * `limit_chart`: `df[values]` and `df[x_labels]` are looked up first
   * (KeyError), and a non-numeric values column fails at the mean
   * (TypeError). The limits are not checked: nothing demands LSL <= USL.
   */
  function LimitChart(t: Table, values: string, xLabels: string, target: real, usl: real, lsl: real): (r: Result<SpecReport, Error>)
    ensures values !in t ==> r == Failure(MissingColumn(values))
    ensures values in t && xLabels !in t ==> r == Failure(MissingColumn(xLabels))
    ensures r.Success? <==> xLabels in t && SeriesIn(t, values).Success?
    ensures r.Success? ==> r.value == ReportOf(t[values].values, target, usl, lsl)
  {
    if values !in t then Failure(MissingColumn(values))
    else if xLabels !in t then Failure(MissingColumn(xLabels))
    else
      var xs :- SeriesIn(t, values);
      Success(ReportOf(xs, target, usl, lsl))
  }

  /** With LSL <= USL no observation violates both limits, so at most all of them are outside. */
  lemma {:induction false} OutsideAtMostAll(xs: seq<real>, usl: real, lsl: real)
    requires lsl <= usl
    ensures CountOutside(xs, usl, lsl) <= |xs|
  {
    if |xs| > 0 {
      OutsideAtMostAll(xs[1..], usl, lsl);
    }
  }

  /** With ordered limits the share outside is a percentage between 0 and 100. */
  lemma PercentInRange(xs: seq<real>, target: real, usl: real, lsl: real)
    requires lsl <= usl && |xs| > 0
    ensures 0.0 <= ReportOf(xs, target, usl, lsl).percent.value <= 100.0
  {
    OutsideAtMostAll(xs, usl, lsl);
    var n := |xs| as real;
    var o := CountOutside(xs, usl, lsl) as real;
    assert o <= n;
    assert o / n <= 1.0;
  }

  /** Nothing is outside exactly when every observation lies within [LSL, USL]. */
  lemma NoneOutsideIffWithin(xs: seq<real>, target: real, usl: real, lsl: real)
    requires |xs| > 0
    ensures ReportOf(xs, target, usl, lsl).percent.value == 0.0 <==> forall i :: 0 <= i < |xs| ==> lsl <= xs[i] <= usl
  {
  }

  /** Inverted limits (LSL > USL) count an observation lying between them twice. */
  lemma InvertedLimitsCountTwice()
    ensures ReportOf([5.0], 0.0, 0.0, 10.0).outside == 2
    ensures ReportOf([5.0], 0.0, 0.0, 10.0).percent == Some(200.0)
  {
    assert CountAbove([5.0], 0.0) == 1;
    assert CountBelow([5.0], 10.0) == 1;
  }

  /** Observations 5, 6, 7, 15 against USL = 10 and LSL = 0: one outside, 25 percent. */
  lemma ExampleReport()
    ensures ReportOf([5.0, 6.0, 7.0, 15.0], 8.0, 10.0, 0.0).outside == 1
    ensures ReportOf([5.0, 6.0, 7.0, 15.0], 8.0, 10.0, 0.0).percent == Some(25.0)
    ensures ReportOf([5.0, 6.0, 7.0, 15.0], 8.0, 10.0, 0.0).slr == 10.0
  {
    var xs := [5.0, 6.0, 7.0, 15.0];
    assert CountBelow(xs, 0.0) == 0;
    assert CountAbove(xs, 10.0) == 1 by {
      assert xs[1..] == [6.0, 7.0, 15.0];
      assert xs[1..][1..] == [7.0, 15.0];
      assert xs[1..][1..][1..] == [15.0];
    }
  }
}
