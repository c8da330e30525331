/**
 * Control-limit engine: the Shewhart XmR limits computed from the mean and
 * the average moving range (AmR), in the three forms the source uses.
 */
module ControlLimits {
  import opened Wrappers
  import opened Stats

  /** Scaling constant for the natural process limits (3 / d2 with d2 = 1.128). */
  const C1: real := 2.660
  /** Scaling constant for the upper range limit (D4 for subgroups of two). */
  const C2: real := 3.268

  /**
   * Which function computes the limits:
   * - Chart: `xchart`, `pbc` — PLR taken before LPL is floored at 0;
   * - XComparison: `xchart_comparison` — LPL floored, PLR = UPL - floored LPL;
   * - Network: `network_analysis` — UPL and LPL floored, PLR from the floored pair.
   */
  datatype Variant = Chart | XComparison | Network

  /** AmR, the X-chart limits and the moving-range limit of one series. */
  datatype XmrLimits = XmrLimits(amr: real, upl: real, lpl: real, plr: real, url: real)

  /** Python's `max(v, 0)`: keeps `v` unless 0 is larger. */
  function FloorAtZero(v: real): (r: real)
    ensures r >= 0.0 && r >= v && (r == v || r == 0.0)
  {
    if 0.0 > v then 0.0 else v
  }

  function LimitsFrom(mean: real, amr: real, v: Variant): XmrLimits
  {
    var upl := mean + C1 * amr;
    var lpl := mean - C1 * amr;
    match v
    case Chart => XmrLimits(amr, upl, FloorAtZero(lpl), upl - lpl, C2 * amr)
    case XComparison => XmrLimits(amr, upl, FloorAtZero(lpl), upl - FloorAtZero(lpl), C2 * amr)
    case Network => XmrLimits(amr, FloorAtZero(upl), FloorAtZero(lpl), FloorAtZero(upl) - FloorAtZero(lpl), C2 * amr)
  }

  /** The mean of a series; None for an empty one (pandas gives NaN). */
  function MeanOf(xs: seq<real>): (m: Option<real>)
    ensures m.Some? <==> |xs| > 0
  {
    if |xs| == 0 then None else Some(Average(xs))
  }

  /**
   * The limits of a series. With fewer than two observations there is no
   * moving range, AmR is NaN in the source and so is every limit: None.
   */
  function LimitsOf(xs: seq<real>, v: Variant): (r: Option<XmrLimits>)
    ensures r.Some? <==> |xs| >= 2
  {
    if |xs| < 2 then None else Some(LimitsFrom(Average(xs), AverageMovingRange(xs), v))
  }

  /** The limits as `xchart` computes them: AmR from the moving ranges rounded to `digits` decimals. */
  function RoundedLimitsOf(xs: seq<real>, digits: int): (r: Option<XmrLimits>)
    ensures r.Some? <==> |xs| >= 2
  {
    if |xs| < 2 then None else Some(LimitsFrom(Average(xs), RoundedAverageMovingRange(xs, digits), Chart))
  }

  /** AmR and URL as `mrchart` and `mrchart_comparison` compute them. */
  function AmrOf(xs: seq<real>): (a: Option<real>)
    ensures a.Some? <==> |xs| >= 2
  {
    if |xs| < 2 then None else Some(AverageMovingRange(xs))
  }

  function UrlOf(xs: seq<real>): (u: Option<real>)
    ensures u.Some? <==> |xs| >= 2
  {
    if |xs| < 2 then None else Some(C2 * AverageMovingRange(xs))
  }

  /** AmR is the mean of the n - 1 absolute neighbour differences; AmR and URL are never negative. */
  lemma RangeLimitsNonnegative(xs: seq<real>, v: Variant)
    requires |xs| >= 2
    ensures AmrOf(xs) == Some(Sum(Differences(xs)) / (|xs| - 1) as real)
    ensures LimitsOf(xs, v).value.amr == AmrOf(xs).value >= 0.0
    ensures LimitsOf(xs, v).value.url == UrlOf(xs).value == C2 * AmrOf(xs).value >= 0.0
  {
    AverageMovingRangeMeaning(xs);
  }

  /**
   * Chart limits: UPL = mean + C1·AmR; PLR is taken from the unfloored
   * lower limit, so PLR = 2·C1·AmR; the reported LPL is max(mean - C1·AmR, 0).
   */
  lemma ChartLimits(xs: seq<real>)
    requires |xs| >= 2
    ensures var l := LimitsOf(xs, Chart).value;
      && l.upl == Average(xs) + C1 * l.amr
      && l.plr == l.upl - (Average(xs) - C1 * l.amr) == 2.0 * C1 * l.amr
      && l.lpl == FloorAtZero(Average(xs) - C1 * l.amr)
      && l.lpl >= 0.0
  {
  }

  /**
   * The floored LPL lies below UPL exactly when UPL is not negative; under
   * `network_analysis`, which floors both, the limits are always ordered.
   */
  lemma LimitsOrdered(xs: seq<real>, v: Variant)
    requires |xs| >= 2
    ensures var l := LimitsOf(xs, v).value;
      (v == Network ==> 0.0 <= l.lpl <= l.upl && l.plr >= 0.0)
      && (v != Network ==> (l.lpl <= l.upl <==> l.upl >= 0.0))
  {
    AverageMovingRangeMeaning(xs);
  }

  /** With non-negative measurements (the source's domain) the limits are ordered in every variant. */
  lemma NonnegativeDataOrdersLimits(xs: seq<real>, v: Variant)
    requires |xs| >= 2
    requires forall i :: 0 <= i < |xs| ==> xs[i] >= 0.0
    ensures 0.0 <= LimitsOf(xs, v).value.lpl <= LimitsOf(xs, v).value.upl
  {
    AverageMovingRangeMeaning(xs);
    AverageNonnegative(xs);
  }

  /** A negative constant series shows the limits crossing: LPL = 0 lies above UPL. */
  lemma NegativeSeriesCrossesLimits()
    ensures LimitsOf([-5.0, -5.0], Chart) == Some(XmrLimits(0.0, -5.0, 0.0, 0.0, 0.0))
  {
    ConstantSeriesAverageMovingRange([-5.0, -5.0], -5.0);
    AverageConstant([-5.0, -5.0], -5.0);
  }

  /**
   * A constant series: AmR = URL = PLR = 0, UPL = the constant and
   * LPL = max(constant, 0).
   */
  lemma ConstantSeriesLimits(xs: seq<real>, c: real)
    requires |xs| >= 2
    requires forall i :: 0 <= i < |xs| ==> xs[i] == c
    ensures LimitsOf(xs, Chart) == Some(XmrLimits(0.0, c, FloorAtZero(c), 0.0, 0.0))
  {
    ConstantSeriesAverageMovingRange(xs, c);
    AverageConstant(xs, c);
  }

  /**
   * The three PLR variants: flooring can only shrink the range, so
   * xchart_comparison <= network_analysis <= chart, and all three agree
   * when the unfloored LPL is not negative.
   */
  lemma PlrVariants(mean: real, amr: real)
    requires amr >= 0.0
    ensures LimitsFrom(mean, amr, XComparison).plr <= LimitsFrom(mean, amr, Network).plr <= LimitsFrom(mean, amr, Chart).plr
    ensures mean - C1 * amr >= 0.0 ==>
      LimitsFrom(mean, amr, XComparison) == LimitsFrom(mean, amr, Network) == LimitsFrom(mean, amr, Chart)
  {
  }

  /** Rounding the moving ranges (the `xchart` variant) keeps AmR and URL non-negative and PLR = 2·C1·AmR. */
  lemma RoundedLimits(xs: seq<real>, digits: int)
    requires |xs| >= 2
    ensures var l := RoundedLimitsOf(xs, digits).value;
      l.amr >= 0.0 && l.url >= 0.0 && l.plr == 2.0 * C1 * l.amr && l.lpl >= 0.0
  {
    RoundedAverageMovingRangeNonnegative(xs, digits);
  }
}
