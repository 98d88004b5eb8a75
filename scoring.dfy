/**
 * The composite scorer of app/page.tsx (`computeScore`): raw quantities of
 * one pair, twelve normalised features, their weighted sum, the 0-100 score
 * and its colour tier.
 *
 * `Math.log10` and `Math.pow` have no counterpart in Dafny; they are passed
 * in as the fields of a `MathLib`, about which nothing is assumed.
 */
module Scoring {
  import opened Wrappers
  import opened FeatureNormalizer
  import opened ChartSignals
  import opened Market

  /** The transcendental functions the scorer calls. */
  datatype MathLib = MathLib(log10: real -> real, pow: (real, real) -> real)

  /** A ratio that is `Infinity` when its denominator is zero. */
  datatype Extended = Finite(value: real) | PosInfinity

  /** The score's colour tier. */
  datatype Colour = Red | Yellow | Green

  /** The twelve keys of the feature map. */
  datatype Feature =
    | Vol24h | LiquidityUsd | Trades24h | Vql
    | Momentum1h | Momentum6h | Momentum24h
    | McapToLiq | Holders
    | Structure | Patterns | DiscoveryAge

  /** The weight table, in the order the source folds it. */
  const Weights: seq<(Feature, real)> := [
    (Vol24h, 0.16), (LiquidityUsd, 0.12), (Trades24h, 0.05), (Vql, 0.06),
    (Momentum1h, 0.12), (Momentum6h, 0.10), (Momentum24h, 0.04),
    (McapToLiq, 0.05), (Holders, 0.08),
    (Structure, 0.13), (Patterns, 0.09), (DiscoveryAge, 0.10)
  ]

  /** Milliseconds per hour (`36e5`). */
  const MsPerHour: real := 3600000.0

  /** The raw quantities `computeScore` derives from a pair. */
  datatype Features = Features(
    h1: real, h6: real, h24: real,
    vol24: real, liq: real, trades24: real, fdv: real,
    vql: real, mcapToLiq: Extended, ageHours: real,
    top10Pct: Option<real>)

  datatype ScoreResult = ScoreResult(
    features: Features,
    featureScores: map<Feature, real>,
    score: real,
    colour: Colour,
    chart: Option<Signals>)

  // ------------------------------------------------------ raw quantities

  /** `+(fdv ?? 0) || +(marketCap ?? 0) || 0`: a zero FDV falls back to the market cap. */
  function FdvOf(p: Pair): (fdv: real)
    ensures p.fdv.Some? && p.fdv.value != 0.0 ==> fdv == p.fdv.value
    ensures (p.fdv.None? || p.fdv.value == 0.0) ==> fdv == p.marketCap.GetOr(0.0)
  {
    var f := p.fdv.GetOr(0.0);
    if f != 0.0 then f else p.marketCap.GetOr(0.0)
  }

  /**
   * Hours since the pair was created, at clock reading `now` (ms); 24 when
   * the creation time is unknown or zero.
   */
  function AgeHours(createdAt: Option<real>, now: real): (age: real)
    ensures createdAt.GetOr(0.0) == 0.0 ==> age == 24.0
    ensures createdAt.GetOr(0.0) != 0.0 ==> age * MsPerHour == now - createdAt.value
  {
    var c := createdAt.GetOr(0.0);
    if c != 0.0 then (now - c) / MsPerHour else 24.0
  }

  /** The `features` record of `computeScore`. */
  function RawFeatures(p: Pair, top10Pct: Option<real>, now: real): (f: Features)
    ensures f.liq == p.liquidityUsd.GetOr(0.0) && f.vol24 == p.volumeH24.GetOr(0.0)
    ensures f.h1 == p.changeH1.GetOr(0.0) && f.h6 == p.changeH6.GetOr(0.0) && f.h24 == p.changeH24.GetOr(0.0)
    ensures f.trades24 == p.buysH24.GetOr(0.0) + p.sellsH24.GetOr(0.0)
    ensures f.fdv == FdvOf(p) && f.top10Pct == top10Pct
    ensures f.liq > 0.0 ==> f.vql * f.liq == f.vol24
    ensures f.liq <= 0.0 ==> f.vql == 0.0
    ensures f.liq > 0.0 ==> f.mcapToLiq.Finite? && f.mcapToLiq.value * f.liq == f.fdv
    ensures f.liq <= 0.0 ==> f.mcapToLiq == PosInfinity
    ensures f.ageHours == AgeHours(p.pairCreatedAt, now)
  {
    var vol24 := p.volumeH24.GetOr(0.0);
    var liq := p.liquidityUsd.GetOr(0.0);
    var fdv := FdvOf(p);
    Features(
      p.changeH1.GetOr(0.0), p.changeH6.GetOr(0.0), p.changeH24.GetOr(0.0),
      vol24, liq, p.buysH24.GetOr(0.0) + p.sellsH24.GetOr(0.0), fdv,
      if liq > 0.0 then vol24 / liq else 0.0,
      if liq > 0.0 then Finite(fdv / liq) else PosInfinity,
      AgeHours(p.pairCreatedAt, now),
      top10Pct)
  }

  // ------------------------------------------------------------ features

  /**
   * Holder concentration: neutral 0.5 when unknown, otherwise
   * `scoreFromFeature(30 - min(top10, 30), 0, 30)`, which falls linearly from
   * 1 at no concentration to 0 at 30% and above.
   */
  function HoldersScore(top10Pct: Option<real>): (s: real)
    ensures top10Pct.None? ==> s == 0.5
    ensures top10Pct.Some? ==> s == Clamp((30.0 - top10Pct.value) / 30.0, 0.0, 1.0)
  {
    if top10Pct.None? then 0.5
    else ScoreFromFeature(Some(30.0 - Min(top10Pct.value, 30.0)), 0.0, 30.0, false)
  }

  /** `uptrend * 0.6 + emaUp * 0.4`, 0 without chart data. */
  function StructureScore(chart: Option<Signals>): (s: real)
    ensures 0.0 <= s <= 1.0
    ensures chart.None? ==> s == 0.0
    ensures chart.Some? ==> (s == 1.0 <==> chart.value.uptrend && chart.value.emaUp)
    ensures chart.Some? ==> (s == 0.0 <==> !chart.value.uptrend && !chart.value.emaUp)
  {
    var up := if chart.Some? && chart.value.uptrend then 1.0 else 0.0;
    var aligned := if chart.Some? && chart.value.emaUp then 1.0 else 0.0;
    up * 0.6 + aligned * 0.4
  }

  /**
   * `clamp(sfp / 6, 0, 1) * 0.5 + clamp(fvg / 8, 0, 1) * 0.2 + (roundBottom ? 0.3 : 0)`,
   * 0 without chart data.
   */
  function PatternScore(chart: Option<Signals>): (s: real)
    ensures 0.0 <= s <= 1.0
    ensures chart.None? ==> s == 0.0
    ensures chart.Some? ==>
      (s == 1.0 <==> chart.value.sfpCount >= 6 && chart.value.fvgCount >= 8 && chart.value.roundBottom)
  {
    var sfp := if chart.Some? then chart.value.sfpCount else 0;
    var fvg := if chart.Some? then chart.value.fvgCount else 0;
    Clamp(sfp as real / 6.0, 0.0, 1.0) * 0.5 +
    Clamp(fvg as real / 8.0, 0.0, 1.0) * 0.2 +
    (if chart.Some? && chart.value.roundBottom then 0.3 else 0.0)
  }

  /**
   * The inverted valuation-to-liquidity feature. `Infinity` (no liquidity)
   * saturates at the top, so its inverted score is 0.
   */
  function McapToLiqScore(m: Extended, math: MathLib): (s: real)
    ensures 0.0 <= s <= 1.0
    ensures m == PosInfinity ==> s == 0.0
  {
    match m
    case PosInfinity => 0.0
    case Finite(r) => ScoreFromFeature(Some(math.log10(Max(r, 1.0))), 1.0, 3.3, true)
  }

  /** A map that holds each of the twelve keys holds every feature. */
  lemma EveryFeatureIn(m: map<Feature, real>)
    requires Vol24h in m && LiquidityUsd in m && Trades24h in m && Vql in m
    requires Momentum1h in m && Momentum6h in m && Momentum24h in m
    requires McapToLiq in m && Holders in m
    requires Structure in m && Patterns in m && DiscoveryAge in m
    ensures forall k: Feature :: k in m
  {
    forall k: Feature ensures k in m {
      match k
      case Vol24h => case LiquidityUsd => case Trades24h => case Vql =>
      case Momentum1h => case Momentum6h => case Momentum24h =>
      case McapToLiq => case Holders =>
      case Structure => case Patterns => case DiscoveryAge =>
    }
  }

  /** The map `f` of `computeScore`. */
  function FeatureScores(f: Features, chart: Option<Signals>, math: MathLib): (m: map<Feature, real>)
    ensures forall k: Feature :: k in m
    ensures forall k :: k in m ==> 0.0 <= m[k] <= 1.0
    ensures m[Holders] == HoldersScore(f.top10Pct)
    ensures m[Structure] == StructureScore(chart) && m[Patterns] == PatternScore(chart)
    ensures m[Momentum1h] == Saturation(f.h1, -6.0, 10.0)
    ensures m[Momentum6h] == Saturation(f.h6, -12.0, 22.0)
    ensures m[Momentum24h] == Saturation(f.h24, -25.0, 40.0)
    ensures m[DiscoveryAge] == Saturation(f.ageHours, 6.0, 168.0)
    ensures m[McapToLiq] == McapToLiqScore(f.mcapToLiq, math)
  {
    var m := map[
      Vol24h := ScoreFromFeature(Some(math.log10(Max(f.vol24, 1.0))), 3.7, 6.2, false),
      LiquidityUsd := ScoreFromFeature(Some(math.log10(Max(f.liq, 1.0))), 3.5, 6.0, false),
      Trades24h := ScoreFromFeature(Some(math.log10(Max(f.trades24, 1.0))), 1.3, 3.2, false),
      Vql := ScoreFromFeature(Some(math.log10(Max(f.vql, 0.000001))), -3.0, 1.2, false),
      Momentum1h := ScoreFromFeature(Some(f.h1), -6.0, 10.0, false),
      Momentum6h := ScoreFromFeature(Some(f.h6), -12.0, 22.0, false),
      Momentum24h := ScoreFromFeature(Some(f.h24), -25.0, 40.0, false),
      McapToLiq := McapToLiqScore(f.mcapToLiq, math),
      Holders := HoldersScore(f.top10Pct),
      Structure := StructureScore(chart),
      Patterns := PatternScore(chart),
      DiscoveryAge := ScoreFromFeature(Some(f.ageHours), 6.0, 168.0, false)
    ];
    EveryFeatureIn(m);
    m
  }

  // ------------------------------------------------------- weighted sum

  /** `Σ w * (f[k] ?? 0)` over a weight table. */
  function WeightedSum(table: seq<(Feature, real)>, f: map<Feature, real>): real
  {
    if table == [] then 0.0
    else table[0].1 * (if table[0].0 in f then f[table[0].0] else 0.0) + WeightedSum(table[1..], f)
  }

  /** The sum of a table's weights. */
  function TotalWeight(table: seq<(Feature, real)>): real
  {
    if table == [] then 0.0 else table[0].1 + TotalWeight(table[1..])
  }

  /** With non-negative weights and features in [0, 1], the weighted sum lies between 0 and the total weight. */
  lemma {:induction false} WeightedSumBounds(table: seq<(Feature, real)>, f: map<Feature, real>)
    requires forall i :: 0 <= i < |table| ==> table[i].1 >= 0.0
    requires forall k :: k in f ==> 0.0 <= f[k] <= 1.0
    ensures 0.0 <= WeightedSum(table, f) <= TotalWeight(table)
  {
    if table != [] {
      WeightedSumBounds(table[1..], f);
      var w, x := table[0].1, if table[0].0 in f then f[table[0].0] else 0.0;
      assert 0.0 <= w * x <= w by {
        assert w * (1.0 - x) >= 0.0;
      }
    }
  }

  /**
   * The twelve weights add up to 1.1, not 1: a weighted sum of features in
   * [0, 1] can exceed 1.
   */
  lemma WeightsTotal()
    ensures TotalWeight(Weights) == 1.1
  {
  }

  /** When every listed feature scores 1, the weighted sum is the total weight. */
  lemma {:induction false} WeightedSumOfOnes(table: seq<(Feature, real)>, f: map<Feature, real>)
    requires forall i :: 0 <= i < |table| ==> table[i].0 in f && f[table[i].0] == 1.0
    ensures WeightedSum(table, f) == TotalWeight(table)
  {
    if table != [] {
      WeightedSumOfOnes(table[1..], f);
    }
  }

  /**
   * A feature map with every feature at 1 gives `raw` = 1.1, so the final
   * clamp to 100 is reached before every feature is at its best.
   */
  lemma RawCanExceedOne(m: map<Feature, real>)
    requires forall k: Feature :: k in m && m[k] == 1.0
    ensures RawScore(m) == 1.1
  {
    WeightedSumOfOnes(Weights, m);
    WeightsTotal();
  }

  /** The weighted sum `raw` of a feature map. */
  function RawScore(m: map<Feature, real>): real
  {
    WeightedSum(Weights, m)
  }

  /** With every feature in [0, 1], `raw` lies in [0, 1.1]. */
  lemma RawScoreBounds(m: map<Feature, real>)
    requires forall k :: k in m ==> 0.0 <= m[k] <= 1.0
    ensures 0.0 <= RawScore(m) <= 1.1
  {
    WeightsNonNegative();
    WeightsTotal();
    WeightedSumBounds(Weights, m);
  }

  lemma WeightsNonNegative()
    ensures forall i :: 0 <= i < |Weights| ==> Weights[i].1 >= 0.0
  {
  }

  /** `clamp(100 * (0.1 + 0.9 * raw^0.9), 0, 100)`. */
  function ScaledScore(raw: real, math: MathLib): (score: real)
    ensures 0.0 <= score <= 100.0
  {
    Clamp(100.0 * (0.1 + 0.9 * math.pow(raw, 0.9)), 0.0, 100.0)
  }

  /** The colour tier of a score. */
  function Tier(score: real): (c: Colour)
    ensures c == Green <==> score >= 70.0
    ensures c == Yellow <==> 50.0 <= score < 70.0
    ensures c == Red <==> score < 50.0
  {
    if score >= 70.0 then Green
    else if score >= 50.0 then Yellow
    else Red
  }

  /** `computeScore`: `now` is the clock reading (ms) the source takes from `Date.now()`. */
  function ComputeScore(p: Pair, top10Pct: Option<real>, chart: Option<Signals>, now: real, math: MathLib): (r: ScoreResult)
    ensures r.features == RawFeatures(p, top10Pct, now) && r.chart == chart
    ensures r.featureScores == FeatureScores(r.features, chart, math)
    ensures r.score == ScaledScore(RawScore(r.featureScores), math)
    ensures 0.0 <= r.score <= 100.0
    ensures r.colour == Tier(r.score)
    ensures forall k: Feature :: k in r.featureScores
    ensures 0.0 <= RawScore(r.featureScores) <= 1.1
    ensures top10Pct.None? ==> r.featureScores[Holders] == 0.5
    ensures 0.0 <= r.featureScores[Structure] <= 1.0 && 0.0 <= r.featureScores[Patterns] <= 1.0
    ensures chart.None? ==> r.featureScores[Structure] == 0.0 && r.featureScores[Patterns] == 0.0
  {
    var f := RawFeatures(p, top10Pct, now);
    var m := FeatureScores(f, chart, math);
    var raw := RawScore(m);
    RawScoreBounds(m);
    var score := ScaledScore(raw, math);
    ScoreResult(f, m, score, Tier(score), chart)
  }

  /**
   * Worked scenario: liquidity 100,000, 24h volume 300,000, 500 trades,
   * momentum 2% / 5% / 10%, FDV 1.2M, created 48 hours before `now`, no
   * holder or chart data.
   */
  lemma ScenarioMidPool(now: real, math: MathLib)
    requires now != 48.0 * MsPerHour
    ensures var r := ComputeScore(
              Pair(None, Some(100000.0), Some(300000.0), Some(500.0), None,
                   Some(2.0), Some(5.0), Some(10.0), Some(1200000.0), None,
                   Some(now - 48.0 * MsPerHour)),
              None, None, now, math);
            && r.features.vql == 3.0
            && r.features.mcapToLiq == Finite(12.0)
            && r.features.ageHours == 48.0
            && r.features.trades24 == 500.0
            && r.featureScores[Holders] == 0.5
            && r.featureScores[Structure] == 0.0
            && r.featureScores[Patterns] == 0.0
            && r.featureScores[Momentum1h] == 0.5
            && r.featureScores[Momentum6h] == 0.5
            && r.featureScores[Momentum24h] == 7.0 / 13.0
            && r.featureScores[DiscoveryAge] == 7.0 / 27.0
  {
  }
}
