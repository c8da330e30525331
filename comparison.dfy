/**
 * The comparison functions: one row of limits and one verdict per frame
 * of a list (`network_analysis`, `xchart_comparison`,
 * `mrchart_comparison`). The frames are only read, so they are passed as
 * their column tables.
 */
module Comparison {
  import opened Wrappers
  import opened Stats
  import opened ControlLimits
  import opened Predictability
  import opened Frames

  /** A result row of `network_analysis` / `xchart_comparison`: Labels, Mean, UPL, LPL, PLR, AmR, URL, Characterization. */
  datatype XRow = XRow(title: string, mean: Option<real>, limits: Option<XmrLimits>, characterization: Characterization)

  /** A result row of `mrchart_comparison`: Labels, AmR, URL, Characterization. */
  datatype MrRow = MrRow(title: string, amr: Option<real>, url: Option<real>, characterization: Characterization)

  /** What `mrchart_comparison` computes for one frame before the labels are attached. */
  datatype MrStats = MrStats(mean: Option<real>, amr: Option<real>, url: Option<real>, characterization: Characterization)

  /** The statistics of one series under the given limit variant. */
  function XRowOf(title: string, xs: seq<real>, v: Variant): (row: XRow)
    ensures row.title == title && row.mean == MeanOf(xs) && row.limits == LimitsOf(xs, v)
    ensures row.characterization == Predictable <==>
      |xs| == 0 || (row.limits.Some? && forall i :: 0 <= i < |xs| ==> row.limits.value.lpl <= xs[i] <= row.limits.value.upl)
  {
    XCharacterizationMeaning(xs, LimitsOf(xs, v));
    XRow(title, MeanOf(xs), LimitsOf(xs, v), XCharacterization(xs, LimitsOf(xs, v)))
  }

  /** One row per frame, labels in the order given. */
  function XRows(labels: seq<string>, series: seq<seq<real>>, v: Variant): (rows: seq<XRow>)
    requires |labels| == |series|
    ensures |rows| == |series|
    ensures forall i :: 0 <= i < |series| ==> rows[i] == XRowOf(labels[i], series[i], v)
  {
    seq(|series|, i requires 0 <= i < |series| => XRowOf(labels[i], series[i], v))
  }

  /**
   * `network_analysis`: the condition column must be present in every
   * frame, then there must be one label per frame; both raise ValueError.
   * A non-numeric condition column fails afterwards, at the first such frame.
   * An empty frame list passes those checks, but the verdict `apply` over the
   * zero-row parameter table yields a table, not a column, and assigning it
   * raises ValueError.
   */
  function NetworkAnalysis(frames: seq<Table>, condition: string, labels: seq<string>): (r: Result<seq<XRow>, Error>)
    ensures !AllHave(frames, condition) ==> r == Failure(ConditionNotInAllFrames)
    ensures AllHave(frames, condition) && |labels| != |frames| ==> r == Failure(LabelCountMismatch(|labels|, |frames|))
    ensures |frames| == 0 && |labels| == 0 ==> r == Failure(NoFrames)
    ensures r.Success? <==>
      |frames| > 0 && AllHave(frames, condition) && |labels| == |frames| && SeriesOfAll(frames, condition).Success?
    ensures r.Success? ==> |r.value| == |frames|
    ensures r.Success? ==> forall i :: 0 <= i < |frames| ==> r.value[i] == XRowOf(labels[i], frames[i][condition].values, Network)
  {
    if !AllHave(frames, condition) then Failure(ConditionNotInAllFrames)
    else if |labels| != |frames| then Failure(LabelCountMismatch(|labels|, |frames|))
    else
      var series :- SeriesOfAll(frames, condition);
      if |frames| == 0 then Failure(NoFrames) else Success(XRows(labels, series, Network))
  }

  /**
   * `xchart_comparison`: the condition series of every frame (KeyError or
   * TypeError at the first bad frame), then the x-label column of every
   * frame (KeyError), then one label per frame (ValueError). An empty frame
   * list fails as in `NetworkAnalysis`, at the verdict assignment.
   */
  function XChartComparison(frames: seq<Table>, condition: string, xLabels: string, labels: seq<string>): (r: Result<seq<XRow>, Error>)
    ensures SeriesOfAll(frames, condition).Failure? ==> r == Failure(SeriesOfAll(frames, condition).error)
    ensures SeriesOfAll(frames, condition).Success? && !AllHave(frames, xLabels) ==> r == Failure(MissingColumn(xLabels))
    ensures SeriesOfAll(frames, condition).Success? && AllHave(frames, xLabels) && |labels| != |frames| ==>
      r == Failure(LabelCountMismatch(|labels|, |frames|))
    ensures |frames| == 0 && |labels| == 0 ==> r == Failure(NoFrames)
    ensures r.Success? <==>
      |frames| > 0 && SeriesOfAll(frames, condition).Success? && AllHave(frames, xLabels) && |labels| == |frames|
    ensures r.Success? ==> |r.value| == |frames|
    ensures r.Success? ==> forall i :: 0 <= i < |frames| ==> r.value[i] == XRowOf(labels[i], frames[i][condition].values, XComparison)
  {
    var series :- SeriesOfAll(frames, condition);
    if !AllHave(frames, xLabels) then Failure(MissingColumn(xLabels))
    else if |labels| != |frames| then Failure(LabelCountMismatch(|labels|, |frames|))
    else if |frames| == 0 then Failure(NoFrames)
    else Success(XRows(labels, series, XComparison))
  }

  /** The statistics `mrchart_comparison` appends for one series. */
  function MrStatsOf(xs: seq<real>): (s: MrStats)
    ensures s.mean == MeanOf(xs) && s.amr == AmrOf(xs) && s.url == UrlOf(xs)
    ensures s.characterization == Predictable <==>
      |xs| < 2 || forall k :: 0 <= k < |xs| - 1 ==> Abs(xs[k + 1] - xs[k]) < C2 * AverageMovingRange(xs)
  {
    MrCharacterizationMeaning(xs);
    MrStats(MeanOf(xs), AmrOf(xs), UrlOf(xs), MrCharacterization(xs))
  }

  /** The output columns: the label, then AmR, URL and the verdict (the mean is not returned). */
  function RowFromStats(title: string, s: MrStats): MrRow
  {
    MrRow(title, s.amr, s.url, s.characterization)
  }

  /** The output row of one series. */
  function MrRowOf(title: string, xs: seq<real>): (row: MrRow)
    ensures row.title == title && row.amr == AmrOf(xs) && row.url == UrlOf(xs)
    ensures row.characterization == MrStatsOf(xs).characterization
  {
    RowFromStats(title, MrStatsOf(xs))
  }

  /** When frame `i` is the first that fails, its error is the error of the whole list. */
  lemma {:induction false} FirstFailureDecides(ts: seq<Table>, name: string, i: nat)
    requires i < |ts| && FirstFailure(ts, name, i)
    ensures SeriesOfAll(ts, name) == Failure(SeriesIn(ts[i], name).error)
  {
    if i > 0 {
      assert FirstFailure(ts[1..], name, i - 1) by {
        forall j | 0 <= j < i - 1 ensures SeriesIn(ts[1..][j], name).Success? {
          assert ts[1..][j] == ts[j + 1];
        }
      }
      FirstFailureDecides(ts[1..], name, i - 1);
    }
  }

  /**
   * The loop of `mrchart_comparison`: the statistics of each frame in
   * turn, stopping at the first frame whose condition column cannot be read.
   */
  method CollectStats(frames: seq<Table>, condition: string) returns (r: Result<seq<MrStats>, Error>)
    ensures SeriesOfAll(frames, condition).Failure? ==> r == Failure(SeriesOfAll(frames, condition).error)
    ensures r.Success? <==> SeriesOfAll(frames, condition).Success?
    ensures r.Success? ==> |r.value| == |frames|
    ensures r.Success? ==> forall j :: 0 <= j < |frames| ==> r.value[j] == MrStatsOf(frames[j][condition].values)
  {
    var stats: seq<MrStats> := [];
    var i := 0;
    while i < |frames|
      invariant 0 <= i <= |frames|
      invariant |stats| == i
      invariant forall j :: 0 <= j < i ==> SeriesIn(frames[j], condition).Success?
      invariant forall j :: 0 <= j < i ==> stats[j] == MrStatsOf(frames[j][condition].values)
    {
      var series := SeriesIn(frames[i], condition);
      if series.Failure? {
        FirstFailureDecides(frames, condition, i);
        return Failure(series.error);
      }
      stats := stats + [MrStatsOf(series.value)];
      i := i + 1;
    }
    r := Success(stats);
  }

  /**
   * `mrchart_comparison`: the x-label column of every frame first
   * (KeyError), then the statistics loop, then one label per frame
   * (ValueError).
   */
  method MrChartComparison(frames: seq<Table>, condition: string, xLabels: string, labels: seq<string>)
    returns (r: Result<seq<MrRow>, Error>)
    ensures !AllHave(frames, xLabels) ==> r == Failure(MissingColumn(xLabels))
    ensures AllHave(frames, xLabels) && SeriesOfAll(frames, condition).Failure? ==>
      r == Failure(SeriesOfAll(frames, condition).error)
    ensures AllHave(frames, xLabels) && SeriesOfAll(frames, condition).Success? && |labels| != |frames| ==>
      r == Failure(LabelCountMismatch(|labels|, |frames|))
    ensures r.Success? <==> AllHave(frames, xLabels) && SeriesOfAll(frames, condition).Success? && |labels| == |frames|
    ensures r.Success? ==> |r.value| == |frames|
    ensures r.Success? ==> forall i :: 0 <= i < |frames| ==> r.value[i] == MrRowOf(labels[i], frames[i][condition].values)
  {
    if !AllHave(frames, xLabels) {
      return Failure(MissingColumn(xLabels));
    }
    var stats :- CollectStats(frames, condition);
    if |labels| != |frames| {
      return Failure(LabelCountMismatch(|labels|, |frames|));
    }
    r := Success(seq(|frames|, j requires 0 <= j < |frames| => RowFromStats(labels[j], stats[j])));
  }

  /** Every `network_analysis` row has 0 <= LPL <= UPL and PLR = UPL - LPL >= 0. */
  lemma NetworkRowsOrdered(frames: seq<Table>, condition: string, labels: seq<string>)
    requires NetworkAnalysis(frames, condition, labels).Success?
    ensures forall i :: 0 <= i < |frames| && NetworkAnalysis(frames, condition, labels).value[i].limits.Some? ==>
      var l := NetworkAnalysis(frames, condition, labels).value[i].limits.value;
      0.0 <= l.lpl <= l.upl && l.plr == l.upl - l.lpl && l.plr >= 0.0
  {
    var rows := NetworkAnalysis(frames, condition, labels).value;
    forall i | 0 <= i < |frames| && rows[i].limits.Some?
      ensures 0.0 <= rows[i].limits.value.lpl <= rows[i].limits.value.upl
      ensures rows[i].limits.value.plr == rows[i].limits.value.upl - rows[i].limits.value.lpl >= 0.0
    {
      LimitsOrdered(frames[i][condition].values, Network);
    }
  }

  /**
   * On the same frames, a series that `xchart_comparison` calls Predictable
   * is Predictable for `network_analysis` too.
   */
  lemma NetworkAtLeastAsLenient(frames: seq<Table>, condition: string, xLabels: string, labels: seq<string>)
    requires XChartComparison(frames, condition, xLabels, labels).Success?
    ensures NetworkAnalysis(frames, condition, labels).Success?
    ensures forall i :: 0 <= i < |frames| ==>
      (XChartComparison(frames, condition, xLabels, labels).value[i].characterization == Predictable ==>
      NetworkAnalysis(frames, condition, labels).value[i].characterization == Predictable)
  {
    assert AllHave(frames, condition) by {
      forall i | 0 <= i < |frames| ensures condition in frames[i] {
        assert SeriesIn(frames[i], condition).Success?;
      }
    }
    forall i | 0 <= i < |frames|
      ensures XCharacterization(frames[i][condition].values, LimitsOf(frames[i][condition].values, XComparison)) == Predictable ==>
        XCharacterization(frames[i][condition].values, LimitsOf(frames[i][condition].values, Network)) == Predictable
    {
      NetworkVerdictIsLenient(frames[i][condition].values);
    }
  }
}
