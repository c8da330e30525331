/**
 * The three chart functions of the engine without their plots: `xchart`,
 * `mrchart` and `pbc` read a values column and an x-label column, copy the
 * frame, add the moving ranges and the variation labels to the copy, and
 * return the copy with their parameters. The caller's frame is left as it
 * was.
 */
module Charts {
  import opened Wrappers
  import opened Stats
  import opened ControlLimits
  import opened Variation
  import opened Frames

  const MovingRangesColumn: string := "Moving Ranges"
  const XVariationColumn: string := "X-Chart Variation"
  const MrVariationColumn: string := "mR-Chart Variation"

  /** Mean and the X-chart limits (UPL, LPL, PLR; AmR and URL too for `pbc`). */
  datatype XParams = XParams(mean: Option<real>, limits: Option<XmrLimits>)

  /** AmR and URL of an mR-chart. */
  datatype MrParams = MrParams(amr: Option<real>, url: Option<real>)

  /** The parameter table and the labelled copy of the frame. */
  datatype ChartOutput<P> = ChartOutput(params: P, frame: Frame)

  /**
   * What every chart reads before it computes anything: the values series
   * (KeyError, then TypeError on text) and then the x-label column
   * (KeyError); the labels themselves only place ticks on the plot.
   */
  function ChartSeries(t: Table, values: string, xLabels: string): (r: Result<seq<real>, Error>)
    ensures r.Success? <==> SeriesIn(t, values).Success? && xLabels in t
    ensures r.Success? ==> r.value == t[values].values
    ensures SeriesIn(t, values).Failure? ==> r == Failure(SeriesIn(t, values).error)
    ensures SeriesIn(t, values).Success? && xLabels !in t ==> r == Failure(MissingColumn(xLabels))
  {
    var xs :- SeriesIn(t, values);
    if xLabels in t then Success(xs) else Failure(MissingColumn(xLabels))
  }

  /**
   * The 'X-Chart Variation' column: the labels of `df[values]` read after
   * 'Moving Ranges' was written, so a values column of that very name is
   * labelled through its new, moving-range contents.
   */
  function XColumn(values: string, xs: seq<real>, ranges: seq<Option<real>>, lim: Option<XmrLimits>): Column
  {
    if values == MovingRangesColumn then Causes(XLabelsOfRanges(ranges, lim)) else Causes(XLabels(xs, lim))
  }

  method LabelValues(values: string, xs: seq<real>, ranges: seq<Option<real>>, lim: Option<XmrLimits>)
    returns (col: Column)
    requires |ranges| == |xs|
    ensures col == XColumn(values, xs, ranges, lim)
    ensures Length(col) == |xs|
  {
    if values == MovingRangesColumn {
      col := Causes(XLabelsOfRanges(ranges, lim));
    } else {
      var causes := LabelX(xs, lim);
      col := Causes(causes);
    }
  }

  /**
   * `xchart`: moving ranges rounded half-to-even to `digits` decimals, AmR
   * from the rounded ranges, limits with LPL floored at zero, one X label
   * per observation.
   */
  method XChart(df: Frame, values: string, xLabels: string, digits: int) returns (r: Result<ChartOutput<XParams>, Error>)
    requires df.Valid()
    ensures r.Success? <==> ChartSeries(df.columns, values, xLabels).Success?
    ensures r.Failure? ==> r.error == ChartSeries(df.columns, values, xLabels).error
    ensures r.Success? ==>
      var xs := ChartSeries(df.columns, values, xLabels).value;
      var lim := RoundedLimitsOf(xs, digits);
      var ranges := RoundRanges(MovingRanges(xs), digits);
      && r.value.params == XParams(MeanOf(xs), lim)
      && fresh(r.value.frame) && r.value.frame.Valid() && r.value.frame.rows == df.rows
      && r.value.frame.columns == df.columns[MovingRangesColumn := Ranges(ranges)]
                                            [XVariationColumn := XColumn(values, xs, ranges, lim)]
  {
    var xs :- ChartSeries(df.columns, values, xLabels);
    var lim := RoundedLimitsOf(xs, digits);
    var ranges := RoundRanges(MovingRanges(xs), digits);
    var f := df.Copy();
    f.SetColumn(MovingRangesColumn, Ranges(ranges));
    var col := LabelValues(values, xs, ranges, lim);
    f.SetColumn(XVariationColumn, col);
    r := Success(ChartOutput(XParams(MeanOf(xs), lim), f));
  }

  /** `mrchart`: unrounded moving ranges, AmR, URL and one mR label per row. */
  method MrChart(df: Frame, values: string, xLabels: string) returns (r: Result<ChartOutput<MrParams>, Error>)
    requires df.Valid()
    ensures r.Success? <==> ChartSeries(df.columns, values, xLabels).Success?
    ensures r.Failure? ==> r.error == ChartSeries(df.columns, values, xLabels).error
    ensures r.Success? ==>
      var xs := ChartSeries(df.columns, values, xLabels).value;
      && r.value.params == MrParams(AmrOf(xs), UrlOf(xs))
      && fresh(r.value.frame) && r.value.frame.Valid() && r.value.frame.rows == df.rows
      && r.value.frame.columns == df.columns[MovingRangesColumn := Ranges(MovingRanges(xs))]
                                            [MrVariationColumn := Causes(MrLabels(MovingRanges(xs), UrlOf(xs)))]
  {
    var xs :- ChartSeries(df.columns, values, xLabels);
    var ranges := MovingRanges(xs);
    var f := df.Copy();
    f.SetColumn(MovingRangesColumn, Ranges(ranges));
    var causes := LabelMr(ranges, UrlOf(xs));
    f.SetColumn(MrVariationColumn, Causes(causes));
    r := Success(ChartOutput(MrParams(AmrOf(xs), UrlOf(xs)), f));
  }

  /** `pbc`: the X-chart and the mR-chart together, on unrounded moving ranges. */
  method Pbc(df: Frame, values: string, xLabels: string) returns (r: Result<ChartOutput<XParams>, Error>)
    requires df.Valid()
    ensures r.Success? <==> ChartSeries(df.columns, values, xLabels).Success?
    ensures r.Failure? ==> r.error == ChartSeries(df.columns, values, xLabels).error
    ensures r.Success? ==>
      var xs := ChartSeries(df.columns, values, xLabels).value;
      var lim := LimitsOf(xs, Chart);
      var ranges := MovingRanges(xs);
      && r.value.params == XParams(MeanOf(xs), lim)
      && fresh(r.value.frame) && r.value.frame.Valid() && r.value.frame.rows == df.rows
      && r.value.frame.columns == df.columns[MovingRangesColumn := Ranges(ranges)]
                                            [XVariationColumn := XColumn(values, xs, ranges, lim)]
                                            [MrVariationColumn := Causes(MrLabels(ranges, UrlOf(xs)))]
  {
    var xs :- ChartSeries(df.columns, values, xLabels);
    var lim := LimitsOf(xs, Chart);
    var ranges := MovingRanges(xs);
    var f := df.Copy();
    f.SetColumn(MovingRangesColumn, Ranges(ranges));
    var col := LabelValues(values, xs, ranges, lim);
    f.SetColumn(XVariationColumn, col);
    var causes := LabelMr(ranges, UrlOf(xs));
    f.SetColumn(MrVariationColumn, Causes(causes));
    r := Success(ChartOutput(XParams(MeanOf(xs), lim), f));
  }
}
