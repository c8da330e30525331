# XmR process-behaviour statistics, modelled in Dafny

This project models the statistical engine of `process/improvement.py`: the
functions that turn a column of individual values into moving ranges, an
average moving range (AmR), natural process limits (UPL, LPL, PLR) and an
upper range limit (URL), label every observation and every moving range as
common or assignable cause, and call a whole series Predictable or
Unpredictable. It covers the single-frame charts (`xchart`, `mrchart`,
`pbc`), the multi-frame comparisons (`network_analysis`,
`xchart_comparison`, `mrchart_comparison`), the specification-limit chart
(`limit_chart`) and the box-plot summary (`boxplotfeatures`). All plotting
is removed; what remains is the numbers, the labels and the errors.

Values are `real`. pandas' NaN is modelled as `Option.None` wherever the
code can produce it from numeric input:

- the first moving range of a series;
- AmR and every limit derived from it when a series has fewer than two
  observations (the mean is also NaN for an empty series);
- the mean, the mean-to-target delta and the percentage outside of
  `limit_chart` for an empty column.

A comparison with NaN is false. So a point compared against undefined
limits is labelled common cause. Against undefined limits the X verdict is
Predictable only for an empty series, while the mR verdict is Predictable
for every series with fewer than two observations, because no moving range
is left once the NaN is dropped (`Predictability.SinglePointVerdicts`).

`round_value` may be negative, as numpy's rounding allows: the moving ranges
are then rounded half-to-even to tens, hundreds and so on (`Stats.Scale`).

Modules, one file each:

| file | module | source |
|---|---|---|
| `wrappers.dfy` | `Wrappers` | `Option` and `Result` (the error path of a call that raises) |
| `stats.dfy` | `Stats` | means, `abs(x.diff())`, `dropna`, AmR, half-to-even rounding |
| `limits.dfy` | `ControlLimits` | C1 = 2.660, C2 = 3.268, the three ways the source computes limits |
| `variation.dfy` | `Variation` | `xchart_variation` / `mrchart_variation` and the label columns |
| `predictability.dfy` | `Predictability` | the Predictable / Unpredictable verdicts |
| `frames.dfy` | `Frames` | the DataFrame: column lookup, `copy()`, adding a column |
| `charts.dfy` | `Charts` | `xchart`, `mrchart`, `pbc` |
| `comparison.dfy` | `Comparison` | `network_analysis`, `xchart_comparison`, `mrchart_comparison` |
| `speclimits.dfy` | `SpecLimits` | `limit_chart` |
| `order.dfy` | `Order` | min, max, sorting, linear-interpolation quantiles, median |
| `boxplot.dfy` | `BoxPlot` | `boxplotfeatures` |

The three limit variants (`ControlLimits.Variant`) differ only in where the
floor at zero is applied:

- `Chart` (`xchart`, `pbc`): PLR = UPL − LPL is taken before LPL is floored, so PLR = 2·C1·AmR.
- `XComparison` (`xchart_comparison`): LPL is floored, and PLR = UPL − floored LPL.
- `Network` (`network_analysis`): UPL and LPL are both floored, and PLR is their difference.

The floor does not keep the limits ordered. For the series −5, −5 the code
reports UPL = −5 and LPL = 0 (`ControlLimits.NegativeSeriesCrossesLimits`).
`ControlLimits.LimitsOrdered` proves LPL ≤ UPL exactly when UPL ≥ 0.

## Model

| member | source | states |
|---|---|---|
| `Stats.MovingRanges` | process/improvement.py:659-660 | one entry per observation; the first is undefined and entry i is abs(x[i] − x[i−1]) |
| `Stats.Differences` | process/improvement.py:1177 | the n − 1 neighbour differences, each non-negative |
| `Stats.PresentMovingRanges` | process/improvement.py:1184 | dropping the undefined entry of the moving-range column leaves exactly the n − 1 neighbour differences |
| `Stats.AverageMovingRangeMeaning` | process/improvement.py:670 | AmR is the sum of the neighbour differences over n − 1, and it is never negative |
| `Stats.ConstantSeriesAverageMovingRange` | process/improvement.py:670 | a constant series has AmR = 0 |
| `Stats.AverageNonnegative` | process/improvement.py:668-670 | the mean of non-negative values is non-negative |
| `Stats.AverageConstant` | process/improvement.py:668 | the mean of a constant series is that constant |
| `Stats.NearestEvenBounds` | process/improvement.py:347 | half-to-even rounding moves a value by at most one half unit and keeps a non-negative value non-negative |
| `Stats.RoundHalfEvenNonnegative` | process/improvement.py:347 | rounding a moving range to `round_value` decimals keeps it non-negative |
| `Stats.RoundRanges` | process/improvement.py:347 | the rounded column has the same shape, undefined where the input was, each defined entry rounded |
| `Stats.PresentRounded` | process/improvement.py:347-357 | dropping NaN commutes with rounding: the same number of defined ranges, each rounded |
| `Stats.RoundedAverageMovingRangeNonnegative` | process/improvement.py:357 | the X-chart's AmR of rounded ranges is never negative |
| `ControlLimits.FloorAtZero` | process/improvement.py:681 | `max(v, 0)`: at least 0, at least v, and equal to one of them |
| `ControlLimits.MeanOf` | process/improvement.py:668 | the mean is defined exactly for a non-empty series |
| `ControlLimits.LimitsOf` | process/improvement.py:676-683 | limits are defined exactly when the series has at least two observations |
| `ControlLimits.RoundedLimitsOf` | process/improvement.py:355-370 | the X-chart's limits from rounded ranges are defined exactly for n ≥ 2 |
| `ControlLimits.AmrOf` | process/improvement.py:1180 | AmR is defined exactly for n ≥ 2 |
| `ControlLimits.UrlOf` | process/improvement.py:1181 | URL is defined exactly for n ≥ 2 |
| `ControlLimits.RangeLimitsNonnegative` | process/improvement.py:880-883 | every variant's AmR is the mean neighbour difference, and URL = C2·AmR ≥ 0 |
| `ControlLimits.ChartLimits` | process/improvement.py:676-683 | UPL = mean + C1·AmR, PLR = 2·C1·AmR computed before the floor, LPL = max(mean − C1·AmR, 0) |
| `ControlLimits.LimitsOrdered` | process/improvement.py:1038-1051 | network limits satisfy 0 ≤ LPL ≤ UPL with PLR ≥ 0; for the other variants LPL ≤ UPL holds exactly when UPL ≥ 0 |
| `ControlLimits.NonnegativeDataOrdersLimits` | process/improvement.py:676-681 | non-negative observations give 0 ≤ LPL ≤ UPL under every variant |
| `ControlLimits.NegativeSeriesCrossesLimits` | process/improvement.py:676-681 | the series −5, −5 gets UPL = −5 below LPL = 0 |
| `ControlLimits.ConstantSeriesLimits` | process/improvement.py:676-683 | a constant c gives AmR = PLR = URL = 0, UPL = c, LPL = max(c, 0) |
| `ControlLimits.PlrVariants` | process/improvement.py:881-891 | PLR of `xchart_comparison` ≤ PLR of `network_analysis` ≤ PLR of `pbc`, all equal when mean − C1·AmR ≥ 0 |
| `ControlLimits.RoundedLimits` | process/improvement.py:357-370 | with rounded ranges, AmR and URL stay ≥ 0, PLR = 2·C1·AmR and LPL ≥ 0 |
| `Variation.XCause` | process/improvement.py:760-764 | common cause iff LPL ≤ x ≤ UPL, or the limits are NaN |
| `Variation.MrCause` | process/improvement.py:766-770 | common cause iff the range is ≤ URL, or either is NaN |
| `Variation.XLabels` | process/improvement.py:773 | one X label per observation, in order |
| `Variation.MrLabels` | process/improvement.py:774 | one mR label per moving-range entry, in order |
| `Variation.XLabelsOfRanges` | process/improvement.py:443 | X labels of a column holding NaN: assignable iff the entry is defined and outside the limits |
| `Variation.LabelX` | process/improvement.py:773 | the label column equals the per-observation labels; a label is assignable iff the limits exist and x > UPL or x < LPL |
| `Variation.LabelMr` | process/improvement.py:774 | a range label is assignable iff the range and URL exist and the range > URL |
| `Variation.LimitsAreCommon` | process/improvement.py:760-770 | a point exactly on UPL or LPL is common cause when the limits are ordered, and a range equal to URL is common cause |
| `Variation.FirstMovingRangeCommon` | process/improvement.py:774 | the undefined first moving range is always labelled common cause |
| `Variation.ConstantSeriesLabels` | process/improvement.py:676-774 | a constant series is all common cause if c ≥ 0 and all assignable if c < 0; its ranges are all common cause |
| `Predictability.AllWithin` | process/improvement.py:897 | `all(lo <= x <= hi)` holds iff every element lies in [lo, hi] |
| `Predictability.AllBelow` | process/improvement.py:1184 | `all(m < bound)` holds iff every element is strictly below bound |
| `Predictability.XCharacterizationMeaning` | process/improvement.py:896-898 | Predictable iff the series is empty, or the limits exist and every value lies in [LPL, UPL] |
| `Predictability.MrCharacterizationMeaning` | process/improvement.py:1184 | Predictable iff n < 2 or every neighbour difference is strictly below C2·AmR |
| `Predictability.PredictableIffAllCommon` | process/improvement.py:760-764 | with defined limits, Predictable iff every observation is labelled common cause |
| `Predictability.PredictableMeansCommon` | process/improvement.py:1056-1058 | every observation of a Predictable series is common cause |
| `Predictability.SinglePointVerdicts` | process/improvement.py:1179-1184 | one observation: common-cause label, X verdict Unpredictable, mR verdict Predictable |
| `Predictability.MrPredictableMeansCommon` | process/improvement.py:1184 | an mR-Predictable series has every range labelled common cause |
| `Predictability.RangeOnUrlDisagreement` | process/improvement.py:584-585 | a range exactly equal to URL is common cause for `mrchart`, yet `mrchart_comparison` calls the series Unpredictable |
| `Predictability.BoundarySeriesOnUrl` | process/improvement.py:1177-1184 | the series 0, 3.268, 3.268, 3.268, 2.536 has AmR 1 and its first range equal to URL, so the disagreement occurs |
| `Predictability.NetworkVerdictIsLenient` | process/improvement.py:881-897 | Predictable for `xchart_comparison` implies Predictable for `network_analysis`; when UPL ≥ 0 the two agree |
| `Frames.SeriesIn` | process/improvement.py:346-347 | `df[name]` fails with KeyError when absent and with TypeError on a text column; otherwise it yields that column's values |
| `Frames.SeriesOfAll` | process/improvement.py:1034-1043 | all frames' series in order, or the error of the first frame that fails |
| `Frames.Frame.constructor` | process/improvement.py:351 | a frame whose columns all have one entry per row |
| `Frames.Frame.Copy` | process/improvement.py:351 | `df.copy()`: a fresh frame with the same columns |
| `Frames.Frame.SetColumn` | process/improvement.py:352 | the column is added or replaced; nothing else changes |
| `Charts.ChartSeries` | process/improvement.py:346-348 | the values series is read first, then the x-label column; either failing raises |
| `Charts.XChart` | process/improvement.py:346-443 | errors as `ChartSeries`; a fresh copy gains rounded 'Moving Ranges' and 'X-Chart Variation'; parameters are mean and limits from the rounded AmR; the input frame is unchanged |
| `Charts.MrChart` | process/improvement.py:514-591 | a fresh copy gains 'Moving Ranges' and 'mR-Chart Variation'; parameters are AmR and URL |
| `Charts.Pbc` | process/improvement.py:659-774 | a fresh copy gains 'Moving Ranges' and both label columns; parameters are mean, UPL, LPL, PLR, AmR, URL |
| `Comparison.XRowOf` | process/improvement.py:877-898 | a row carries mean and limits of its series, and is Predictable iff every value lies within the limits (or the series is empty) |
| `Comparison.NetworkAnalysis` | process/improvement.py:867-899 | ValueError when a frame lacks the condition, then ValueError on a label-count mismatch, then the first non-numeric frame; an empty frame list passes those checks and then raises ValueError when the verdicts are assigned (:896); otherwise one row per frame in order |
| `Comparison.XChartComparison` | process/improvement.py:1034-1059 | first failing series, then a missing x-label column, then a label-count mismatch, then ValueError for an empty frame list when the verdicts are assigned (:1056); otherwise one row per frame, with LPL alone floored |
| `Comparison.MrStatsOf` | process/improvement.py:1177-1187 | mean, AmR, URL of a series, and Predictable iff every neighbour difference < URL |
| `Comparison.MrRowOf` | process/improvement.py:1241-1242 | the output row keeps the label, AmR, URL and verdict of the series |
| `Comparison.FirstFailureDecides` | process/improvement.py:1175-1176 | the first frame whose series fails decides the error of the whole list |
| `Comparison.CollectStats` | process/improvement.py:1174-1187 | the loop fails with the error of the first frame whose series fails; otherwise it yields one entry of statistics per frame, in order |
| `Comparison.MrChartComparison` | process/improvement.py:1172-1192 | a missing x-label column fails first; then the loop's error; then a label-count mismatch; otherwise one row per frame |
| `Comparison.NetworkRowsOrdered` | process/improvement.py:881-891 | every `network_analysis` row has 0 ≤ LPL ≤ UPL and PLR = UPL − LPL ≥ 0 |
| `Comparison.NetworkAtLeastAsLenient` | process/improvement.py:896-898 | on the same frames, every row Predictable in `xchart_comparison` is Predictable in `network_analysis` |
| `SpecLimits.CountAbove` | process/improvement.py:226 | the count is at most n, and zero iff no value exceeds the bound |
| `SpecLimits.CountBelow` | process/improvement.py:227 | the count is at most n, and zero iff no value is below the bound |
| `SpecLimits.CountOutside` | process/improvement.py:228 | zero iff every value lies in [LSL, USL] |
| `SpecLimits.ReportOf` | process/improvement.py:216-229 | count, mean, delta = target − mean, SLR = USL − LSL, the outside count, and percent = 100·outside/n (NaN for n = 0) |
| `SpecLimits.LimitChart` | process/improvement.py:212-229 | KeyError for the values column, then for x_labels, then TypeError on text; otherwise the report |
| `SpecLimits.OutsideAtMostAll` | process/improvement.py:226-228 | with LSL ≤ USL, at most all observations are outside |
| `SpecLimits.PercentInRange` | process/improvement.py:229 | with LSL ≤ USL, the percentage lies in [0, 100] |
| `SpecLimits.NoneOutsideIffWithin` | process/improvement.py:226-229 | 0 percent outside iff every value lies within the limits |
| `SpecLimits.InvertedLimitsCountTwice` | process/improvement.py:226-229 | with LSL > USL, a value between them is counted twice, giving 200 percent |
| `SpecLimits.ExampleReport` | process/improvement.py:223-229 | 5, 6, 7, 15 against USL 10 and LSL 0: one outside, 25 percent, SLR 10 |
| `Order.Min` | process/improvement.py:1297 | the minimum is an element and no element is smaller |
| `Order.Max` | process/improvement.py:1298 | the maximum is an element and no element is larger |
| `Order.Below` | process/improvement.py:1298 | keeps exactly the elements strictly below the bound; empty iff none is below |
| `Order.Sort` | process/improvement.py:1290-1291 | sorted, and a permutation of the input |
| `Order.SortedFirstIsMin` | process/improvement.py:1297 | the first sorted element is the minimum |
| `Order.SortedLastIsMax` | process/improvement.py:1298 | the last sorted element is the maximum |
| `Order.QuantileBetween` | process/improvement.py:1290-1291 | a quantile lies between the two sorted observations it interpolates, hence within [min, max] |
| `Order.QuantileMonotone` | process/improvement.py:1290-1291 | q1 ≤ q2 implies quantile(q1) ≤ quantile(q2) |
| `Order.MedianIsMiddleQuantile` | process/improvement.py:1287 | the median (middle element, or mean of the two middle ones) equals the 0.5 quantile |
| `BoxPlot.Larger` | process/improvement.py:1297 | `max(a, b)`: at least both, and equal to one |
| `BoxPlot.RowsOutside` | process/improvement.py:1301 | exactly the row indices below the lower bound or above the upper one, ascending |
| `BoxPlot.Features` | process/improvement.py:1287-1313 | ValueError for an empty column, or when nothing lies below Q3 + 1.5·IQR; otherwise the summary and the outlier rows, reported as "No outliers" exactly when no row lies outside the bounds |
| `BoxPlot.BoxPlotFeatures` | process/improvement.py:1287-1298 | the column lookup's KeyError or TypeError comes first, then the features |
| `BoxPlot.SummaryOrdered` | process/improvement.py:1287-1298 | min ≤ Q1 ≤ median ≤ Q3 ≤ max; IQR ≥ 0; min ≤ lower bound ≤ Q1; the upper bound is an observation below the upper fence |
| `BoxPlot.OutliersAreTukeyOutliers` | process/improvement.py:1297-1301 | a row is reported iff x < Q1 − 1.5·IQR or x ≥ Q3 + 1.5·IQR |
| `BoxPlot.FailsIffUpperQuartileIsMin` | process/improvement.py:1298 | a non-empty column raises iff Q3 equals the minimum |
| `BoxPlot.ConstantColumnFails` | process/improvement.py:1298 | a constant column always raises |

## Left out

- Plotting, colours, figure layout, tick labels and titles: none of these affects the returned numbers.
- Display rounding (`round(x, round_value)`) of every returned parameter table is left out; the model returns unrounded values. The rounding of the moving ranges inside `xchart` is modelled, because it changes AmR and the limits.
- IEEE floating point. Values are exact reals, and NaN is modelled only where listed above. Rounding half-to-even is applied to exact decimals, not to their binary approximations.
- A column that already holds NaN (such as the 'Moving Ranges' column a chart adds), used as the values of another call. pandas skips the NaN in its means; the model reports `MissingValues` instead.
- The result table of `mrchart_comparison` drops the mean it computes (:1241). `Comparison.MrStatsOf` keeps the mean, and `Comparison.MrRowOf` leaves it out as the source does.
- The `xchart`/`pbc` results contain the mean and the limits; `XParams` also carries AmR and URL for `xchart`, where the source only reports Mean, UPL, LPL and PLR.
- Non-numeric labels in the label lists: labels are strings.
- The label-count check of `xchart_comparison` and `mrchart_comparison` is pandas' length check on column assignment. It is modelled as the same `LabelCountMismatch` error that `network_analysis` raises explicitly. With no frames and a non-empty label list, pandas first grows the empty table to one row per label and then fails the length check on the next column; the model reports `LabelCountMismatch` for that case as well.
- Stats.RoundHalfEven: no error bound relating the rounded AmR to the unrounded one is proved; only non-negativity is.
- The code has no explicit checks for too little data, invalid bounds or empty input in `limit_chart` and the charts. An empty column gives NaN, and inverted limits are accepted. The model follows the code: `None` for NaN, and `SpecLimits.InvertedLimitsCountTwice` shows what inverted limits do.
- `bar_chart` and `delta_chart` are pure plotting and are not part of this model.
