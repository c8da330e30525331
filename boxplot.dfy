/**
 * `boxplotfeatures`: the five-number-style summary of a column (median,
 * quartiles, IQR, whisker bounds) and the rows lying outside the whiskers.
 */
module BoxPlot {
  import opened Wrappers
  import opened Frames
  import opened Order

  /** Whisker length in IQRs. */
  const Multiplier: real := 1.5

  datatype BoxPlotSummary = BoxPlotSummary(
    median: real, q1: real, q3: real, iqr: real, lowerBound: real, upperBound: real)

  /** The rows outside the whiskers, or the string "No outliers" when there are none. */
  datatype Outliers = NoOutliers | OutlierRows(rows: seq<nat>)

  function Q1Of(xs: seq<real>): real
    requires |xs| > 0
  {
    Quantile(Sort(xs), 0.25)
  }

  function Q3Of(xs: seq<real>): real
    requires |xs| > 0
  {
    Quantile(Sort(xs), 0.75)
  }

  /** Q1 - 1.5 IQR. */
  function LowerFence(xs: seq<real>): real
    requires |xs| > 0
  {
    Q1Of(xs) - Multiplier * (Q3Of(xs) - Q1Of(xs))
  }

  /** Q3 + 1.5 IQR. */
  function UpperFence(xs: seq<real>): real
    requires |xs| > 0
  {
    Q3Of(xs) + Multiplier * (Q3Of(xs) - Q1Of(xs))
  }

  /** `max(Q1 - 1.5 IQR, min(column))`. */
  function LowerBound(xs: seq<real>): real
    requires |xs| > 0
  {
    Larger(LowerFence(xs), Min(xs))
  }

  /** `max(column[column < Q3 + 1.5 IQR])`, defined when some observation lies below the fence. */
  function UpperBound(xs: seq<real>): real
    requires |xs| > 0 && |Below(xs, UpperFence(xs))| > 0
  {
    Max(Below(xs, UpperFence(xs)))
  }

  /** Python's `max(a, b)` on numbers. */
  function Larger(a: real, b: real): (m: real)
    ensures m >= a && m >= b && (m == a || m == b)
  {
    if b > a then b else a
  }

  /** The indices, ascending, of the observations below `lb` or above `ub`. */
  function RowsOutside(xs: seq<real>, lb: real, ub: real): (rows: seq<nat>)
    ensures forall k: nat :: k in rows <==> k < |xs| && (xs[k] < lb || xs[k] > ub)
    ensures forall i, j :: 0 <= i < j < |rows| ==> rows[i] < rows[j]
  {
    if |xs| == 0 then []
    else
      var front := xs[..|xs| - 1];
      var earlier := RowsOutside(front, lb, ub);
      assert forall k: nat :: k < |front| ==> front[k] == xs[k];
      var last := |xs| - 1;
      assert forall i :: 0 <= i < |earlier| ==> earlier[i] < last by {
        forall i | 0 <= i < |earlier| ensures earlier[i] < last {
          assert earlier[i] in earlier;
        }
      }
      if xs[last] < lb || xs[last] > ub then earlier + [last] else earlier
  }

  /** The outlier rows reported, empty for "No outliers". */
  function Flagged(o: Outliers): seq<nat>
  {
    match o
    case NoOutliers => []
    case OutlierRows(rows) => rows
  }

  /**
   * The features of a numeric series. `min` of an empty column raises
   * ValueError, and so does `max` when no observation lies strictly below
   * the upper fence.
   */
  function Features(xs: seq<real>, column: string): (r: Result<(BoxPlotSummary, Outliers), Error>)
    ensures |xs| == 0 ==> r == Failure(EmptyColumn(column))
    ensures |xs| > 0 && |Below(xs, UpperFence(xs))| == 0 ==> r == Failure(NothingBelowFence(column))
    ensures r.Success? <==> |xs| > 0 && |Below(xs, UpperFence(xs))| > 0
    ensures r.Success? ==> r.value.0 == BoxPlotSummary(Median(Sort(xs)), Q1Of(xs), Q3Of(xs), Q3Of(xs) - Q1Of(xs),
                                                       LowerBound(xs), UpperBound(xs))
    ensures r.Success? ==> Flagged(r.value.1) == RowsOutside(xs, LowerBound(xs), UpperBound(xs))
    ensures r.Success? ==> (r.value.1 == NoOutliers <==> |RowsOutside(xs, LowerBound(xs), UpperBound(xs))| == 0)
  {
    if |xs| == 0 then Failure(EmptyColumn(column))
    else if |Below(xs, UpperFence(xs))| == 0 then Failure(NothingBelowFence(column))
    else
      var rows := RowsOutside(xs, LowerBound(xs), UpperBound(xs));
      Success((BoxPlotSummary(Median(Sort(xs)), Q1Of(xs), Q3Of(xs), Q3Of(xs) - Q1Of(xs), LowerBound(xs), UpperBound(xs)),
               if |rows| == 0 then NoOutliers else OutlierRows(rows)))
  }

  /** `boxplotfeatures(df, column)`: KeyError or TypeError from the lookup, then the features. */
  function BoxPlotFeatures(t: Table, column: string): (r: Result<(BoxPlotSummary, Outliers), Error>)
    ensures SeriesIn(t, column).Failure? ==> r == Failure(SeriesIn(t, column).error)
    ensures SeriesIn(t, column).Success? ==> r == Features(t[column].values, column)
  {
    var xs :- SeriesIn(t, column);
    Features(xs, column)
  }

  /**
   * The summary is ordered: min <= Q1 <= median <= Q3 <= max, IQR >= 0, the
   * lower bound lies between min and Q1, and the upper bound is an
   * observation strictly below the upper fence.
   */
  lemma SummaryOrdered(xs: seq<real>, column: string)
    requires Features(xs, column).Success?
    ensures var b := Features(xs, column).value.0;
      && Min(xs) <= b.q1 <= b.median <= b.q3 <= Max(xs)
      && b.iqr >= 0.0
      && Min(xs) <= b.lowerBound <= b.q1
      && b.upperBound in xs && b.upperBound < UpperFence(xs)
  {
    var s := Sort(xs);
    SortedFirstIsMin(xs);
    SortedLastIsMax(xs);
    QuantileMonotone(s, 0.25, 0.5);
    QuantileMonotone(s, 0.5, 0.75);
    QuantileBetween(s, 0.25);
    QuantileBetween(s, 0.75);
    MedianIsMiddleQuantile(s);
    assert UpperBound(xs) in Below(xs, UpperFence(xs));
  }

  /**
   * The rows reported are exactly Tukey's outliers, with a non-strict upper
   * fence: x < Q1 - 1.5 IQR or x >= Q3 + 1.5 IQR.
   */
  lemma OutliersAreTukeyOutliers(xs: seq<real>, column: string)
    requires Features(xs, column).Success?
    ensures forall k: nat :: k in Flagged(Features(xs, column).value.1) <==>
      k < |xs| && (xs[k] < LowerFence(xs) || xs[k] >= UpperFence(xs))
  {
    var below := Below(xs, UpperFence(xs));
    var ub := UpperBound(xs);
    assert ub in below;
    forall k: nat | k < |xs|
      ensures xs[k] > ub <==> xs[k] >= UpperFence(xs)
    {
      if xs[k] < UpperFence(xs) {
        assert xs[k] in below;
      }
    }
    forall k: nat | k < |xs|
      ensures xs[k] < LowerBound(xs) <==> xs[k] < LowerFence(xs)
    {
    }
  }

  /**
   * `boxplotfeatures` raises on a non-empty column exactly when Q3 equals the
   * minimum: then IQR = 0, the upper fence is the minimum and nothing lies
   * below it.
   */
  lemma FailsIffUpperQuartileIsMin(xs: seq<real>, column: string)
    requires |xs| > 0
    ensures Features(xs, column).Failure? <==> Q3Of(xs) == Min(xs)
  {
    var s := Sort(xs);
    SortedFirstIsMin(xs);
    QuantileBetween(s, 0.25);
    QuantileMonotone(s, 0.25, 0.75);
    assert Min(xs) <= Q1Of(xs) <= Q3Of(xs);
    if Q3Of(xs) == Min(xs) {
      assert UpperFence(xs) == Min(xs);
    } else {
      var j :| 0 <= j < |xs| && xs[j] == Min(xs);
      assert xs[j] < UpperFence(xs);
    }
  }

  /** A constant column, however long, makes `boxplotfeatures` raise. */
  lemma ConstantColumnFails(xs: seq<real>, c: real, column: string)
    requires |xs| > 0
    requires forall i :: 0 <= i < |xs| ==> xs[i] == c
    ensures Features(xs, column) == Failure(NothingBelowFence(column))
  {
    FailsIffUpperQuartileIsMin(xs, column);
    var s := Sort(xs);
    QuantileBetween(s, 0.75);
    SortedFirstIsMin(xs);
    SortedLastIsMax(xs);
  }
}
