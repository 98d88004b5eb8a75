/**
 * The entry and exit planners of app/page.tsx: `baseBestEntryFDV`,
 * `decideTrafficLight`, `chooseExitPercent`, `priceFromFDV` and
 * `buildEntryExit`, which turn a scored pair into a trading plan.
 */
module Planning {
  import opened Wrappers
  import opened FeatureNormalizer
  import opened ChartSignals
  import opened Market
  import Scoring

  // --------------------------------------------------------- entry planner

  /** A closed interval of valuations. */
  datatype Band = Band(lo: real, hi: real)

  /** Target valuation per dollar of liquidity. */
  function EntryMultiplier(liq: real): real
  {
    if liq < 50000.0 then 8.0 else if liq > 400000.0 then 12.0 else 10.0
  }

  /** The liquidity tier's band for the entry target. */
  function TierBand(liq: real): (b: Band)
    ensures liq < 50000.0 ==> b == Band(120000.0, 250000.0)
    ensures 50000.0 <= liq < 150000.0 ==> b == Band(150000.0, 350000.0)
    ensures 150000.0 <= liq < 400000.0 ==> b == Band(250000.0, 600000.0)
    ensures 400000.0 <= liq ==> b == Band(120000.0, 1200000.0)
    ensures b.lo < b.hi
  {
    if liq < 50000.0 then Band(120000.0, 250000.0)
    else if liq < 150000.0 then Band(150000.0, 350000.0)
    else if liq < 400000.0 then Band(250000.0, 600000.0)
    else Band(120000.0, 1200000.0)
  }

  /** The entry target after the tier clamp and before any adjustment. */
  function ClampedBase(liq: real): (t: real)
    ensures liq < 50000.0 ==> 120000.0 <= t <= 250000.0
    ensures 50000.0 <= liq < 150000.0 ==> 150000.0 <= t <= 350000.0
    ensures 150000.0 <= liq < 400000.0 ==> 250000.0 <= t <= 600000.0
    ensures 400000.0 <= liq ==> 120000.0 <= t <= 1200000.0
  {
    Clamp(EntryMultiplier(liq) * liq, TierBand(liq).lo, TierBand(liq).hi)
  }

  /**
   * The five independent multiplicative adjustments: 6h momentum above 15%,
   * a 1h dip below -3% on active flow, flow above 5x liquidity, a pair younger
   * than 3 hours, and one between 24 and 120 hours old.
   */
  function EntryAdjustment(f: Scoring.Features): (a: real)
    ensures 0.765 <= a <= 1.58125
  {
    (if f.h6 > 15.0 then 1.25 else 1.0) *
    (if f.h1 < -3.0 && f.vql > 1.0 then 0.9 else 1.0) *
    (if f.vql > 5.0 then 1.15 else 1.0) *
    (if f.ageHours < 3.0 then 0.85 else 1.0) *
    (if 24.0 < f.ageHours < 120.0 then 1.1 else 1.0)
  }

  /** The adjustments applied one after another to `target`. */
  function Adjusted(target: real, f: Scoring.Features): real
  {
    var t1 := if f.h6 > 15.0 then target * 1.25 else target;
    var t2 := if f.h1 < -3.0 && f.vql > 1.0 then t1 * 0.9 else t1;
    var t3 := if f.vql > 5.0 then t2 * 1.15 else t2;
    var t4 := if f.ageHours < 3.0 then t3 * 0.85 else t3;
    if 24.0 < f.ageHours < 120.0 then t4 * 1.1 else t4
  }

  /** Applying the adjustments in sequence multiplies by their product. */
  lemma AdjustedIsScaled(target: real, f: Scoring.Features)
    ensures Adjusted(target, f) == target * EntryAdjustment(f)
  {
  }

  /** The target entry valuation: the clamped base, then the adjustments. */
  function EntryTarget(f: Scoring.Features): (t: real)
    ensures t == ClampedBase(Max(f.liq, 1.0)) * EntryAdjustment(f)
    ensures t > 0.0
  {
    var base := ClampedBase(Max(f.liq, 1.0));
    AdjustedIsScaled(base, f);
    Adjusted(base, f)
  }

  /** `baseBestEntryFDV`, step by step as the source reassigns `target`, `lo` and `hi`. */
  method BestEntryFdv(f: Scoring.Features) returns (target: real)
    ensures target == EntryTarget(f)
  {
    var liq := Max(f.liq, 1.0);
    target := 10.0 * liq;
    if liq < 50000.0 { target := 8.0 * liq; }
    if liq > 400000.0 { target := 12.0 * liq; }

    var lo, hi := 120000.0, 1200000.0;
    if liq < 50000.0 {
      lo, hi := 120000.0, 250000.0;
    } else if liq < 150000.0 {
      lo, hi := 150000.0, 350000.0;
    } else if liq < 400000.0 {
      lo, hi := 250000.0, 600000.0;
    }
    target := Clamp(target, lo, hi);
    assert target == ClampedBase(liq);

    if f.h6 > 15.0 { target := target * 1.25; }
    if f.h1 < -3.0 && f.vql > 1.0 { target := target * 0.9; }
    if f.vql > 5.0 { target := target * 1.15; }
    if f.ageHours < 3.0 { target := target * 0.85; }
    if f.ageHours > 24.0 && f.ageHours < 120.0 { target := target * 1.1; }
  }

  /**
   * From 50,000 of liquidity up, ten or twelve times the liquidity is always
   * above the tier's band, so the clamped base is the band's upper end.
   */
  lemma ClampedBaseSaturates(liq: real)
    requires liq >= 50000.0
    ensures ClampedBase(liq) == TierBand(liq).hi
  {
  }

  /**
   * The adjustments can take the target outside its tier band, but never
   * below 0.765 times its lower end nor above 1.58125 times its upper end.
   */
  lemma EntryTargetNearBand(f: Scoring.Features)
    ensures var b := TierBand(Max(f.liq, 1.0));
            b.lo * 0.765 <= EntryTarget(f) <= b.hi * 1.58125
  {
    var liq := Max(f.liq, 1.0);
    var b, c, a := TierBand(liq), ClampedBase(liq), EntryAdjustment(f);
    assert b.lo <= c <= b.hi;
    assert (c - b.lo) * a >= 0.0;
    assert b.lo * (a - 0.765) >= 0.0;
    assert (b.hi - c) * a >= 0.0;
    assert b.hi * (1.58125 - a) >= 0.0;
  }

  /** The adjustments do move the target out of its band: 40,000 of liquidity with 20% 6h momentum. */
  lemma AdjustmentsCanLeaveBand()
    ensures var f := Scoring.Features(0.0, 20.0, 0.0, 0.0, 40000.0, 0.0, 0.0, 0.0, Scoring.Finite(0.0), 200.0, None);
            EntryTarget(f) == 312500.0 > TierBand(40000.0).hi
  {
  }

  /**
   * Worked scenario: liquidity 10,000 and 6h momentum 20%, with no other
   * adjustment, give 8 x 10,000 = 80,000, clamped to 120,000, times 1.25.
   */
  lemma ScenarioSmallPool(f: Scoring.Features)
    requires f.liq == 10000.0 && f.h6 == 20.0
    requires !(f.h1 < -3.0 && f.vql > 1.0) && f.vql <= 5.0
    requires 3.0 <= f.ageHours <= 24.0 || 120.0 <= f.ageHours
    ensures ClampedBase(Max(f.liq, 1.0)) == 120000.0
    ensures EntryTarget(f) == 150000.0
  {
  }

  // ------------------------------------------------- traffic-light evaluator

  datatype Light = Red | Yellow | Green
  datatype Reversion = Low | Medium | High

  /** The result of `decideTrafficLight`. */
  datatype Traffic = Traffic(light: Light, ratio: real, gapPct: real, reversion: Reversion)

  /**
   * `decideTrafficLight`: how far the current valuation sits above the entry
   * target, whether that is safe to enter now, and the risk of reversion.
   */
  function DecideTrafficLight(currentFdv: real, bestFdv: real, f: Scoring.Features): (t: Traffic)
    ensures t.ratio * Max(bestFdv, 1.0) == currentFdv
    ensures t.gapPct == (t.ratio - 1.0) * 100.0
    ensures t.ratio <= 1.05 <==> currentFdv <= 1.05 * Max(bestFdv, 1.0)
    ensures t.light == Green <==> t.ratio <= 1.05 && f.vql >= 2.0 && -8.0 < f.h6 < 12.0
    ensures t.light == Yellow <==>
      t.light != Green && t.ratio <= 1.35 && (f.vql >= 1.0 || f.h6 <= 12.0)
    ensures t.ratio > 1.35 ==> t.light == Red
    ensures t.reversion == High <==> f.h6 > 30.0 || f.vql < 1.0 || f.liq < 30000.0
    ensures t.reversion == Medium <==>
      t.reversion != High && (f.h6 > 18.0 || f.vql < 1.5 || f.liq < 60000.0)
  {
    var denom := Max(bestFdv, 1.0);
    var ratio := currentFdv / denom;
    assert ratio * denom == currentFdv;
    assert ratio <= 1.05 <==> currentFdv <= 1.05 * denom by {
      assert currentFdv - 1.05 * denom == (ratio - 1.05) * denom;
    }
    var light :=
      if ratio <= 1.05 && f.vql >= 2.0 && f.h6 > -8.0 && f.h6 < 12.0 then Green
      else if ratio <= 1.35 && (f.vql >= 1.0 || f.h6 <= 12.0) then Yellow
      else Red;
    var rev :=
      if f.h6 > 30.0 || f.vql < 1.0 || f.liq < 30000.0 then High
      else if f.h6 > 18.0 || f.vql < 1.5 || f.liq < 60000.0 then Medium
      else Low;
    Traffic(light, ratio, (ratio - 1.0) * 100.0, rev)
  }

  /** A green light on a pool with at least 60,000 of liquidity always carries low reversion risk. */
  lemma GreenOnDeepPoolIsLowRisk(currentFdv: real, bestFdv: real, f: Scoring.Features)
    requires DecideTrafficLight(currentFdv, bestFdv, f).light == Green
    requires f.liq >= 60000.0
    ensures DecideTrafficLight(currentFdv, bestFdv, f).reversion == Low
  {
  }

  /** Worked scenario: 105,000 against a target of 100,000, flow 2.5x, 6h momentum 3%. */
  lemma ScenarioGreenLight(f: Scoring.Features)
    requires f.vql == 2.5 && f.h6 == 3.0
    ensures var t := DecideTrafficLight(105000.0, 100000.0, f);
            t.ratio == 1.05 && t.light == Green && t.gapPct == 5.0
  {
  }

  // ------------------------------------------------------------ exit planner

  /** The profit target of a score band. */
  function BandPercent(score: real): (pct: real)
    ensures 15.0 <= pct <= 400.0
  {
    if score < 50.0 then 15.0
    else if score < 70.0 then 40.0
    else if score < 85.0 then 120.0
    else if score < 95.0 then 280.0
    else 400.0
  }

  /** `clamp(50 * max(vql, 0.2), 10, 500)`: the flow ceiling. */
  function FlowCap(vql: real): (c: real)
    ensures 10.0 <= c <= 500.0
    ensures 0.2 <= vql <= 10.0 ==> c == 50.0 * vql
  {
    Clamp(50.0 * Max(vql, 0.2), 10.0, 500.0)
  }

  /** The band percent capped by the flow ceiling. */
  function CappedPercent(score: real, vql: real): (pct: real)
    ensures 10.0 <= pct <= 400.0
    ensures pct <= BandPercent(score) && pct <= FlowCap(vql)
  {
    Min(BandPercent(score), FlowCap(vql))
  }

  /** The valuation and momentum dampeners. */
  function MarketDampened(pct: real, f: Scoring.Features): (r: real)
    ensures 0.0 <= pct ==> 0.42 * pct <= r <= pct
  {
    var p1 := if f.fdv > 5000000.0 then pct * 0.7 else pct;
    if f.h6 > 30.0 then p1 * 0.6 else p1
  }

  /** The chart dampeners, which never go below 10. */
  function ChartDampened(pct: real, chart: Option<Signals>): (r: real)
    ensures chart.None? ==> r == pct
    ensures chart.Some? && pct >= 0.0 ==> r <= Max(10.0, pct)
  {
    if chart.None? then pct
    else
      var c := chart.value;
      var p1 := if !c.uptrend && !c.roundBottom then Max(10.0, pct * 0.7) else pct;
      if c.sfpCount < 2 && c.fvgCount < 2 then Max(10.0, p1 * 0.85) else p1
  }

  /**
   * The exit percent: score band, flow ceiling, dampeners, final clamp. It
   * always lies in [10, 500] and never above the capped band percent.
   */
  function ExitPercent(score: real, f: Scoring.Features, chart: Option<Signals>): (pct: real)
    ensures 10.0 <= pct <= 500.0
    ensures pct <= CappedPercent(score, f.vql)
    ensures chart.None? && f.fdv <= 5000000.0 && f.h6 <= 30.0 ==> pct == CappedPercent(score, f.vql)
  {
    Clamp(ChartDampened(MarketDampened(CappedPercent(score, f.vql), f), chart), 10.0, 500.0)
  }

  /** `chooseExitPercent`, step by step as the source reassigns `pct`. */
  method ChooseExitPercent(score: real, f: Scoring.Features, chart: Option<Signals>) returns (pct: real)
    ensures pct == ExitPercent(score, f, chart)
    ensures 10.0 <= pct <= 500.0
  {
    if score < 50.0 { pct := 15.0; }
    else if score < 70.0 { pct := 40.0; }
    else if score < 85.0 { pct := 120.0; }
    else if score < 95.0 { pct := 280.0; }
    else { pct := 400.0; }
    assert pct == BandPercent(score);

    var flowCap := Clamp(50.0 * Max(f.vql, 0.2), 10.0, 500.0);
    pct := Min(pct, flowCap);
    ghost var capped := pct;
    assert capped == CappedPercent(score, f.vql);
    if f.fdv > 5000000.0 { pct := pct * 0.7; }
    if f.h6 > 30.0 { pct := pct * 0.6; }
    ghost var dampened := pct;
    assert dampened == MarketDampened(capped, f);

    if chart.Some? {
      var c := chart.value;
      if !c.uptrend && !c.roundBottom { pct := Max(10.0, pct * 0.7); }
      if c.sfpCount < 2 && c.fvgCount < 2 { pct := Max(10.0, pct * 0.85); }
    }
    assert pct == ChartDampened(dampened, chart);
    pct := Clamp(pct, 10.0, 500.0);
  }

  /** A higher score never lowers the exit target. */
  lemma ExitPercentMonotoneInScore(s1: real, s2: real, f: Scoring.Features, chart: Option<Signals>)
    requires s1 <= s2
    ensures ExitPercent(s1, f, chart) <= ExitPercent(s2, f, chart)
  {
    var p1, p2 := CappedPercent(s1, f.vql), CappedPercent(s2, f.vql);
    assert BandPercent(s1) <= BandPercent(s2);
    assert p1 <= p2;
    var m1, m2 := MarketDampened(p1, f), MarketDampened(p2, f);
    assert m1 <= m2;
    assert ChartDampened(m1, chart) <= ChartDampened(m2, chart);
  }

  /**
   * Worked scenario: score 92, flow 0.5x, FDV 6M, 6h momentum 35%, no chart:
   * 280 capped to 25, then 17.5, then 10.5.
   */
  lemma ScenarioDampenedExit(f: Scoring.Features)
    requires f.vql == 0.5 && f.fdv == 6000000.0 && f.h6 == 35.0
    ensures BandPercent(92.0) == 280.0 && FlowCap(f.vql) == 25.0
    ensures MarketDampened(CappedPercent(92.0, f.vql), f) == 10.5
    ensures ExitPercent(92.0, f, None) == 10.5
  {
  }

  // ------------------------------------------------------------------ glue

  /**
   * `priceFromFDV`: the current price scaled by target over current
   * valuation; nothing when any input is missing or zero.
   */
  function PriceFromFdv(price: Option<real>, currentFdv: Option<real>, targetFdv: Option<real>): (r: Option<real>)
    ensures r.Some? <==>
      price.GetOr(0.0) != 0.0 && currentFdv.GetOr(0.0) != 0.0 && targetFdv.GetOr(0.0) != 0.0
    ensures r.Some? ==> r.value * currentFdv.value == price.value * targetFdv.value
  {
    if price.GetOr(0.0) == 0.0 || currentFdv.GetOr(0.0) == 0.0 || targetFdv.GetOr(0.0) == 0.0 then None
    else
      var q := targetFdv.value / currentFdv.value;
      assert q * currentFdv.value == targetFdv.value;
      Some(price.value * q)
  }

  /** An entry price band: the target price ±3%. */
  datatype PriceBand = PriceBand(lo: real, hi: real)

  /** The result of `buildEntryExit`. */
  datatype Plan = Plan(
    bestEntryFdv: real,
    entryBand: Option<PriceBand>,
    traffic: Traffic,
    exitPct: real,
    exitFdv: Option<real>,
    exitPrice: Option<real>)

  /** `exitFDV`: the current valuation grown by the exit percent; nothing when it is zero. */
  function ExitFdv(fdv: real, exitPct: real): (r: Option<real>)
    ensures r.Some? <==> fdv != 0.0
    ensures r.Some? ==> (r.value - fdv) * 100.0 == fdv * exitPct
  {
    if fdv != 0.0 then Some(fdv * (1.0 + exitPct / 100.0)) else None
  }

  /** The ±3% band around an entry mid price; nothing when there is no (nonzero) mid price. */
  function EntryBand(mid: Option<real>): (r: Option<PriceBand>)
    ensures r.Some? <==> mid.GetOr(0.0) != 0.0
    ensures r.Some? ==> r.value.lo + r.value.hi == 2.0 * mid.value
    ensures r.Some? ==> r.value.hi - r.value.lo == 0.06 * mid.value
  {
    if mid.Some? && mid.value != 0.0 then Some(PriceBand(mid.value * 0.97, mid.value * 1.03)) else None
  }

  /** The plan `buildEntryExit` assembles, from the entry target and exit percent. */
  function PlanOf(p: Pair, s: Scoring.ScoreResult, best: real, exitPct: real): Plan
  {
    var fdv := s.features.fdv;
    var currentFdv := if fdv != 0.0 then Some(fdv) else None;
    Plan(
      best,
      EntryBand(PriceFromFdv(p.priceUsd, currentFdv, Some(best))),
      DecideTrafficLight(fdv, best, s.features),
      exitPct,
      ExitFdv(fdv, exitPct),
      PriceFromFdv(p.priceUsd, currentFdv, ExitFdv(fdv, exitPct)))
  }

  /**
   * `buildEntryExit`. The traffic light receives the valuation itself: the
   * source passes `null` when it is zero, which divides as 0.
   */
  method BuildEntryExit(p: Pair, s: Scoring.ScoreResult) returns (plan: Plan)
    ensures plan == PlanOf(p, s, EntryTarget(s.features), ExitPercent(s.score, s.features, s.chart))
    ensures plan.bestEntryFdv == EntryTarget(s.features)
    ensures plan.exitPct == ExitPercent(s.score, s.features, s.chart)
  {
    var f := s.features;
    var currentPrice := p.priceUsd;
    var currentFdv := if f.fdv != 0.0 then Some(f.fdv) else None;

    var best := BestEntryFdv(f);
    var traffic := DecideTrafficLight(f.fdv, best, f);

    var entryMid := PriceFromFdv(currentPrice, currentFdv, Some(best));
    var entryBand := EntryBand(entryMid);

    var exitPct := ChooseExitPercent(s.score, f, s.chart);
    var exitFdv := ExitFdv(f.fdv, exitPct);
    var exitPrice := PriceFromFdv(currentPrice, currentFdv, exitFdv);
    plan := Plan(best, entryBand, traffic, exitPct, exitFdv, exitPrice);
  }

  /**
   * The prices of a plan: a band exactly when the price and valuation are
   * known, ±3% around the price scaled to the entry target; an exit valuation
   * exactly when the valuation is known; and an exit price equal to the
   * current price grown by the exit percent.
   */
  lemma PlanPricesFrom(price: Option<real>, fdv: real, best: real, exitPct: real)
    requires best > 0.0 && exitPct >= 10.0
    ensures var currentFdv := if fdv != 0.0 then Some(fdv) else None;
            var band := EntryBand(PriceFromFdv(price, currentFdv, Some(best)));
            var exitFdv := ExitFdv(fdv, exitPct);
            var exitPrice := PriceFromFdv(price, currentFdv, exitFdv);
            && (band.Some? <==> price.GetOr(0.0) != 0.0 && fdv != 0.0)
            && (band.Some? ==>
                  band.value.lo * fdv == 0.97 * price.value * best &&
                  band.value.hi * fdv == 1.03 * price.value * best)
            && (exitFdv.Some? <==> fdv != 0.0)
            && (exitFdv.Some? ==> exitFdv.value == fdv * (1.0 + exitPct / 100.0))
            && (exitPrice.Some? <==> price.GetOr(0.0) != 0.0 && fdv != 0.0)
            && (exitPrice.Some? ==> exitPrice.value == price.value * (1.0 + exitPct / 100.0))
  {
  }

  /** The same, for the plan `buildEntryExit` returns. */
  lemma PlanPrices(p: Pair, s: Scoring.ScoreResult)
    ensures var fdv, exitPct := s.features.fdv, ExitPercent(s.score, s.features, s.chart);
            var plan := PlanOf(p, s, EntryTarget(s.features), exitPct);
            && (plan.entryBand.Some? <==> p.priceUsd.GetOr(0.0) != 0.0 && fdv != 0.0)
            && (plan.exitPrice.Some? <==> p.priceUsd.GetOr(0.0) != 0.0 && fdv != 0.0)
            && (plan.exitPrice.Some? ==> plan.exitPrice.value == p.priceUsd.value * (1.0 + exitPct / 100.0))
  {
    PlanPricesFrom(p.priceUsd, s.features.fdv, EntryTarget(s.features), ExitPercent(s.score, s.features, s.chart));
  }
}
