# Meme-coin checker: scoring and planning pipeline in Dafny

This project models the analysis core of the token checker in `app/page.tsx`. It takes one market snapshot of a DEX pair. It can also take a candle series and the top-10 holder share. From these it produces:

- a 0–100 likelihood score with a Green/Yellow/Red tier;
- a target entry valuation (FDV) with a ±3% entry price band;
- a traffic light ("safe to enter now?") with a reversion-risk level and the percent gap to the target;
- an exit percent, with the exit valuation and exit price it implies.

Modules, leaf first:

- `Wrappers` (`wrappers.dfy`): `Option`. `None` stands for a JavaScript `null` or `undefined`.
- `FeatureNormalizer` (`feature_normalizer.dfy`): `clamp` and `scoreFromFeature`. The latter saturates a value linearly into [0, 1].
- `ChartSignals` (`chart_signals.dfy`): `extractChartSignals`. It computes EMA-50/EMA-200, the count of higher highs and higher lows over the last ten bars, swing-failure and fair-value-gap counts, and the round-bottom scan. Each loop in the source becomes a method with loop invariants. Each method is proved equal to a specification function, and properties are proved about those functions.
- `Market` (`market.dfy`): the pair snapshot and `pickBestPair`.
- `Scoring` (`scoring.dfy`): `computeScore`. The logarithm and power functions are passed in as a `MathLib` record, and nothing is assumed about them.
- `Planning` (`planning.dfy`): `baseBestEntryFDV` and `chooseExitPercent`, both as methods that reassign locals step by step as the source does. Also `decideTrafficLight`, `priceFromFDV` and `buildEntryExit`.

Numbers are Dafny `real`s. The clock reading `Date.now()` is a parameter `now`, in milliseconds. A liquidity of zero makes the valuation-to-liquidity ratio `Infinity`. That case is the explicit value `Extended.PosInfinity`.

Two facts about the code deserve mention:

- The twelve weights (app/page.tsx:36-56) add up to 1.1 (`Scoring.WeightsTotal`). So the weighted sum `raw` lies in [0, 1.1] (`Scoring.RawScoreBounds`), and it reaches 1.1 when every feature is at its best (`Scoring.RawCanExceedOne`). The final clamp to 100 therefore does real work.
- The round-bottom test is strict on both sides. It needs a strictly negative slope followed by a strictly positive one (`s1 < 0 && s2 > 0`), so a slope that only flattens to zero does not count.

## Model

| member | source | states |
|---|---|---|
| `FeatureNormalizer.Clamp` | app/page.tsx:58-59 | result is at least `lo`, at most `hi` when `lo <= hi`, equals `v` inside the bounds and the nearer bound outside |
| `FeatureNormalizer.Saturation` | app/page.tsx:80-83 | result in [0,1]; 0 at or below `lo`, 1 at or above `hi`; strictly between, `s * (hi - lo) == v - lo` and 0 < s < 1 |
| `FeatureNormalizer.ScoreFromFeature` | app/page.tsx:72-85 | a missing value scores 0 whatever `invert` says; otherwise the saturation, or one minus it when inverted; always in [0,1] |
| `FeatureNormalizer.SaturationMonotone` | app/page.tsx:80-83 | saturation is non-decreasing in the value |
| `FeatureNormalizer.ScoreFromFeatureMonotone` | app/page.tsx:72-85 | a plain feature score is non-decreasing in the value, an inverted one non-increasing |
| `FeatureNormalizer.ScoreFromFeatureInverts` | app/page.tsx:84 | the inverted score is exactly one minus the plain score |
| `Market.LiquidityOf` | app/page.tsx:67 | no contract of its own: `liquidity?.usd || 0`. The `Market.Outranks`, `Market.BestIndex` and `Market.PickBestPair` rows use it |
| `Market.VolumeOf` | app/page.tsx:68 | no contract of its own: `volume?.h24 || 0`. The `Market.Outranks`, `Market.BestIndex` and `Market.PickBestPair` rows use it |
| `Market.Outranks` | app/page.tsx:66-68 | no contract of its own: the comparator (more liquidity, or equal liquidity and more volume). Its properties are in the `Market.OutranksIsStrictOrder`, `Market.BestIndex` and `Market.PickBestPair` rows |
| `Market.OutranksIsStrictOrder` | app/page.tsx:66-68 | the comparator is a strict order: irreflexive, asymmetric and transitive |
| `Market.BestIndex` | app/page.tsx:65-69 | the chosen pair is outranked by none (liquidity, then 24h volume, both descending) and outranks every pair listed before it, as the first element of a stable sort |
| `Market.PickBestPair` | app/page.tsx:63-70 | nothing exactly for a missing or empty list; otherwise a listed pair with the greatest liquidity, and the greatest volume among pairs of equal liquidity, found at an index where every earlier pair is strictly outranked, so it is the earliest of the pairs tied on both keys |
| `Market.FirstUnbeatenIsUnique` | app/page.tsx:65-69 | at most one index is outranked by no pair while outranking every earlier pair, so that description determines which pair the stable sort puts first |
| `ChartSignals.Closes` | app/page.tsx:166 | the closes have the series' length, and each is its bar's close |
| `ChartSignals.Highs` | app/page.tsx:167 | the highs have the series' length, and each is its bar's high |
| `ChartSignals.Lows` | app/page.tsx:168 | the lows have the series' length, and each is its bar's low |
| `ChartSignals.Smoothing` | app/page.tsx:171 | the EMA factor satisfies `k * (period + 1) == 2`, is positive, and is at most 1 for a period of at least 1 |
| `ChartSignals.EmaSeries` | app/page.tsx:170-179 | the EMA series has the input's length and starts at the first value |
| `ChartSignals.Ema` | app/page.tsx:170-179 | the push loop builds exactly the EMA series, of the input's length, starting at the first close |
| `ChartSignals.EmaWithinRange` | app/page.tsx:170-182 | with `0 <= k <= 1`, every EMA point lies in any interval that holds every input value |
| `ChartSignals.FastEmaWithinCloses` | app/page.tsx:181 | every point of the 50-period EMA lies between bounds on the closes |
| `ChartSignals.Rises` | app/page.tsx:186-189 | the number of strict rises over `k` consecutive pairs is at most `k` |
| `ChartSignals.HigherHighs` | app/page.tsx:184-189 | the strict rises of highs over the last ten bars number at most 9 |
| `ChartSignals.HigherLows` | app/page.tsx:184-189 | the strict rises of lows over the last ten bars number at most 9 |
| `ChartSignals.TrendCounts` | app/page.tsx:184-189 | the single loop computes both counts exactly; each is at most 9, and `hh + hl` at most 18 |
| `ChartSignals.MaxHigh` | app/page.tsx:194 | the window maximum bounds every high in the window |
| `ChartSignals.MinLow` | app/page.tsx:195 | the window minimum bounds every low in the window from below |
| `ChartSignals.MaxHighAttained` | app/page.tsx:194 | the window maximum is one of the window's highs |
| `ChartSignals.MinLowAttained` | app/page.tsx:195 | the window minimum is one of the window's lows |
| `ChartSignals.SfpAt` | app/page.tsx:193-199 | one bar adds at most two swing failures (a failed breakout and a failed breakdown) |
| `ChartSignals.SfpUpTo` | app/page.tsx:192-199 | no contract of its own: the swing failures of bars 5 to n-1, summed bar by bar. The `ChartSignals.CountSwingFailures`, `ChartSignals.SfpBound`, `ChartSignals.SfpPrefixStable`, `ChartSignals.SfpUpToMonotone` and `ChartSignals.AppendNeverLowersCounts` rows are stated in terms of it |
| `ChartSignals.CountSwingFailures` | app/page.tsx:192-199 | the loop's count is the sum of per-bar swing failures over bars 5 to n-1 |
| `ChartSignals.FvgAt` | app/page.tsx:202-208 | one triple adds at most two gaps |
| `ChartSignals.FvgUpTo` | app/page.tsx:201-208 | no contract of its own: the fair-value gaps of the triples ending at bars 2 to n-1, summed triple by triple. The `ChartSignals.CountFairValueGaps`, `ChartSignals.FvgBound`, `ChartSignals.FvgBoundWellFormed`, `ChartSignals.FvgPrefixStable`, `ChartSignals.FvgUpToMonotone` and `ChartSignals.AppendNeverLowersCounts` rows are stated in terms of it |
| `ChartSignals.CountFairValueGaps` | app/page.tsx:201-208 | the loop's count is the sum of per-triple gaps over the triples ending at bars 2 to n-1 |
| `ChartSignals.Slope` | app/page.tsx:210 | five times the slope is the change of the EMA over five bars; the slope is negative exactly when the EMA fell over those bars, and positive exactly when it rose |
| `ChartSignals.TurnsUpAt` | app/page.tsx:213-215 | no contract of its own: the test `s1 < 0 && s2 > 0` on the slopes at `i - 1` and `i`. The `ChartSignals.Slope` row gives the sign of each slope, and the `ChartSignals.DetectRoundBottom` row uses the test |
| `ChartSignals.HasRoundBottom` | app/page.tsx:211-219 | no contract of its own: some index from 55 on passes the turn test. The `ChartSignals.DetectRoundBottom` row proves the scan equal to it |
| `ChartSignals.DetectRoundBottom` | app/page.tsx:210-219 | true exactly when some index `i` from 55 on has slope(i-1) < 0 and slope(i) > 0 |
| `ChartSignals.ExtractChartSignals` | app/page.tsx:163-228 | nothing exactly for a missing series or one under 50 bars; otherwise all five signals of the specification functions at once, with uptrend implying emaUp |
| `ChartSignals.SignalsOf` | app/page.tsx:221-227 | no contract of its own: the five signals of a series of 50 or more bars, built from the specification functions. The `ChartSignals.ExtractChartSignals` row proves the method equal to it, and the `ChartSignals.SignalsBounds` row states its properties |
| `ChartSignals.SfpBound` | app/page.tsx:192-199 | `sfpCount <= 2 * (n - 5)` |
| `ChartSignals.FvgBound` | app/page.tsx:201-208 | `fvgCount <= 2 * (n - 2)` |
| `ChartSignals.FvgBoundWellFormed` | app/page.tsx:201-208 | on bars whose low is at most their high, `fvgCount <= n - 2` |
| `ChartSignals.MaxHighPrefix` | app/page.tsx:194 | bars appended after a window do not change its maximum |
| `ChartSignals.MinLowPrefix` | app/page.tsx:195 | bars appended after a window do not change its minimum |
| `ChartSignals.SfpPrefixStable` | app/page.tsx:192-199 | appending bars leaves the swing-failure count of the first n bars unchanged |
| `ChartSignals.FvgPrefixStable` | app/page.tsx:201-208 | appending bars leaves the gap count of the first n bars unchanged |
| `ChartSignals.SfpUpToMonotone` | app/page.tsx:192-199 | the swing-failure count over a prefix never decreases as the prefix grows |
| `ChartSignals.FvgUpToMonotone` | app/page.tsx:201-208 | the gap count over a prefix never decreases as the prefix grows |
| `ChartSignals.AppendNeverLowersCounts` | app/page.tsx:192-208 | neither pattern count decreases when bars are appended to the series |
| `ChartSignals.SignalsBounds` | app/page.tsx:184-226 | for any series of 50 or more bars: uptrend implies emaUp, and both counts respect their bounds |
| `Scoring.FdvOf` | app/page.tsx:240 | the FDV when it is present and nonzero, otherwise the market cap, otherwise 0 |
| `Scoring.AgeHours` | app/page.tsx:243-244 | 24 hours when the creation time is unknown or zero; otherwise `age * 3,600,000 == now - createdAt` |
| `Scoring.RawFeatures` | app/page.tsx:233-244 | missing fields read as 0: liquidity, volume, the 1h/6h/24h momentum and buys and sells, with trades being buys plus sells; `vql * liq == vol24` and `mcapToLiq * liq == fdv` when liquidity is positive; otherwise vql is 0 and mcapToLiq is infinite |
| `Scoring.HoldersScore` | app/page.tsx:246-250 | 0.5 when concentration is unknown; otherwise `clamp((30 - top10) / 30, 0, 1)` |
| `Scoring.StructureScore` | app/page.tsx:252-258 | in [0,1]; 0 without chart data; 1 exactly when uptrend and emaUp both hold, 0 exactly when neither does |
| `Scoring.PatternScore` | app/page.tsx:254-257 | in [0,1]; 0 without chart data; 1 exactly when sfpCount >= 6, fvgCount >= 8 and there is a round bottom |
| `Scoring.McapToLiqScore` | app/page.tsx:268-273 | in [0,1]; 0 for an infinite ratio (no liquidity) |
| `Scoring.FeatureScores` | app/page.tsx:260-278 | all twelve keys are present, each in [0,1]; the momentum and age features are their saturations over the source's ranges; holders, structure, patterns and valuation-to-liquidity come from their own scoring functions |
| `Scoring.WeightedSum` | app/page.tsx:280-283 | no contract of its own: the sum of weight × feature score over a weight table, with a missing key contributing 0. The `Scoring.WeightedSumBounds` and `Scoring.WeightedSumOfOnes` rows state its properties |
| `Scoring.RawScore` | app/page.tsx:280-283 | no contract of its own: `raw`, the weighted sum over the twelve weights. The `Scoring.RawScoreBounds`, `Scoring.RawCanExceedOne` and `Scoring.ComputeScore` rows use it |
| `Scoring.WeightedSumBounds` | app/page.tsx:280-283 | with non-negative weights and features in [0,1], the weighted sum lies between 0 and the total weight |
| `Scoring.WeightsTotal` | app/page.tsx:36-56 | the weight table sums to exactly 1.1 |
| `Scoring.WeightedSumOfOnes` | app/page.tsx:280-283 | when every feature is 1 the weighted sum equals the total weight |
| `Scoring.RawCanExceedOne` | app/page.tsx:36-56 | with every feature at 1, `raw` is 1.1 |
| `Scoring.RawScoreBounds` | app/page.tsx:280-283 | with every feature in [0,1], `raw` lies in [0, 1.1] |
| `Scoring.ScaledScore` | app/page.tsx:284 | the score lies in [0,100] whatever `pow` returns |
| `Scoring.Tier` | app/page.tsx:286-288 | Green exactly when score >= 70, Yellow exactly when 50 <= score < 70, Red exactly when score < 50 |
| `Scoring.ComputeScore` | app/page.tsx:232-297 | the feature map is the feature scores of the raw features, and the score is the scaled weighted sum of that map; score in [0,100] with its tier; raw in [0, 1.1]; holders 0.5 when unknown; structure and patterns in [0,1], and 0 without chart data |
| `Scoring.ScenarioMidPool` | app/page.tsx:233-278 | worked scenario: vql 3, mcapToLiq 12, age 48h, holders 0.5, structure and patterns 0, momentum features 0.5, 0.5, 7/13, age feature 7/27 |
| `Planning.EntryMultiplier` | app/page.tsx:301-304 | no contract of its own: 8 below 50k of liquidity, 12 above 400k, 10 between. The `Planning.ClampedBase`, `Planning.EntryTarget` and `Planning.ScenarioSmallPool` rows state what it yields |
| `Planning.TierBand` | app/page.tsx:306-317 | the band of each liquidity tier: [120k,250k] below 50k, [150k,350k] below 150k, [250k,600k] below 400k, [120k,1.2M] from 400k on; each is non-empty |
| `Planning.ClampedBase` | app/page.tsx:301-318 | before adjustment the target lies in [120k,250k] below 50k of liquidity, [150k,350k] below 150k, [250k,600k] below 400k, and [120k,1.2M] otherwise |
| `Planning.EntryAdjustment` | app/page.tsx:320-324 | the product of the five adjustments lies in [0.765, 1.58125] |
| `Planning.Adjusted` | app/page.tsx:320-324 | no contract of its own: the five adjustments applied one after another. The `Planning.AdjustedIsScaled` and `Planning.BestEntryFdv` rows state what it computes |
| `Planning.AdjustedIsScaled` | app/page.tsx:320-324 | applying the adjustments one after another equals multiplying by their product |
| `Planning.EntryTarget` | app/page.tsx:299-327 | the target is the clamped base times the adjustment product, and is positive |
| `Planning.BestEntryFdv` | app/page.tsx:299-327 | the step-by-step reassignments compute exactly the entry target |
| `Planning.ClampedBaseSaturates` | app/page.tsx:301-318 | from 50k of liquidity up, the clamped base is always its band's upper end |
| `Planning.EntryTargetNearBand` | app/page.tsx:306-324 | the final target lies between 0.765 times the band's lower end and 1.58125 times its upper end |
| `Planning.AdjustmentsCanLeaveBand` | app/page.tsx:318-324 | 40k of liquidity with 20% 6h momentum gives 312,500, above that tier's 250k ceiling |
| `Planning.ScenarioSmallPool` | app/page.tsx:299-326 | worked scenario: liquidity 10k and h6 20 with no other adjustment give a base of 120k and a target of 150k |
| `Planning.DecideTrafficLight` | app/page.tsx:329-343 | `ratio * max(best, 1) == current`; gapPct is `(ratio - 1) * 100`; Green exactly when ratio <= 1.05, vql >= 2 and -8 < h6 < 12; Yellow exactly under the second test; ratio > 1.35 always Red; High risk exactly when h6 > 30, vql < 1 or liq < 30k; Medium under the second test |
| `Planning.GreenOnDeepPoolIsLowRisk` | app/page.tsx:334-339 | a green light on a pool with at least 60k of liquidity always has low reversion risk |
| `Planning.ScenarioGreenLight` | app/page.tsx:329-342 | worked scenario: 105k against 100k with vql 2.5 and h6 3 gives ratio 1.05, Green and gapPct 5 |
| `Planning.BandPercent` | app/page.tsx:349-353 | the band percent lies in [15, 400] |
| `Planning.FlowCap` | app/page.tsx:355 | the flow ceiling lies in [10, 500] and is `50 * vql` for vql in [0.2, 10] |
| `Planning.CappedPercent` | app/page.tsx:349-356 | the capped percent lies in [10, 400] and exceeds neither the band percent nor the flow ceiling |
| `Planning.MarketDampened` | app/page.tsx:357-358 | the valuation and momentum dampeners keep a non-negative percent between 0.42 times itself and itself |
| `Planning.ChartDampened` | app/page.tsx:360-363 | without chart data nothing changes; with it the percent never rises above max(10, itself) |
| `Planning.ExitPercent` | app/page.tsx:345-365 | the exit percent lies in [10, 500] and never exceeds the capped band percent; without chart data or dampeners it equals min(band percent, flow ceiling) |
| `Planning.ChooseExitPercent` | app/page.tsx:345-365 | the step-by-step reassignments compute exactly the exit percent, which lies in [10, 500] |
| `Planning.ExitPercentMonotoneInScore` | app/page.tsx:345-365 | a higher score never lowers the exit percent |
| `Planning.ScenarioDampenedExit` | app/page.tsx:349-364 | worked scenario: score 92, vql 0.5, FDV 6M, h6 35, no chart gives 280, then 25, then 10.5 |
| `Planning.PriceFromFdv` | app/page.tsx:367-374 | present exactly when price, current and target valuation are all present and nonzero; then `price' * current == price * target` |
| `Planning.EntryBand` | app/page.tsx:385 | present exactly when the mid price is present and nonzero; then the band is centred on the mid price and 6% of it wide |
| `Planning.ExitFdv` | app/page.tsx:388 | present exactly when the current valuation is nonzero; then it exceeds that valuation by `exitPct` percent of it |
| `Planning.PlanOf` | app/page.tsx:381-391 | no contract of its own: the plan assembled from the entry target and the exit percent. The `Planning.BuildEntryExit` row proves the method equal to it, and the `Planning.PlanPrices` and `Planning.PlanPricesFrom` rows state its prices |
| `Planning.BuildEntryExit` | app/page.tsx:376-392 | the plan carries the entry target, the traffic light against it, and the exit percent, assembled as the source does |
| `Planning.PlanPricesFrom` | app/page.tsx:384-389 | a band exactly when price and valuation are known, ±3% around the price scaled to the target; an exit valuation exactly when the valuation is known; exit price = price × (1 + exitPct/100) |
| `Planning.PlanPrices` | app/page.tsx:376-392 | for the plan `buildEntryExit` returns: band and exit price present exactly when price and valuation are known, and exit price = price × (1 + exitPct/100) |

## Left out

- `fetchBirdeyeCandles` and `fetchSolHoldersTop10Pct` (app/page.tsx:89-159) are network I/O. The model takes their results as the optional candle series and the optional `top10Pct`.
- The `handleCheck` orchestration, the React state, the JSX, `GaugeBar`, the colour `useMemo`s and the number formatting (app/page.tsx:398-750) are not modelled. Neither are app/layout.tsx and the components/ui wrappers. The tailwind-merge library behind components/ui/cn.ts is not part of this model.
- `Date.now()` is the parameter `now`. `Math.log10` and `Math.pow` are fields of `MathLib`, and nothing is assumed about them.
- Scoring.ScenarioMidPool: states the features of the worked scenario but not its literal score or tier, because those depend on the values of `log10` and `pow`.
- IEEE-754 rounding, NaN and `Infinity` are not modelled, except for the infinite valuation-to-liquidity ratio. Snapshot fields are either absent (`None`) or finite numbers. A non-numeric field that the source would turn into NaN is outside the model. So is a NaN inside `scoreFromFeature`, `clamp` or the comparisons.
- Market.PickBestPair: assumes that `Array.prototype.sort` is stable, as ECMAScript 2019 requires, so that among equal pairs the earliest listed one comes first.
- The pair's string fields (symbol, chain and DEX ids, base-token address) are not modelled, because the pipeline only passes them through or uses them for I/O. A `Candle` carries the bar's timestamp `t`, open `o` and volume `v`, as the fetched bars do, but no signal reads them.
- ChartSignals.CountSwingFailures and ChartSignals.CountFairValueGaps: return 0 at once for series too short to have a window. There the source's loop does not run at all, so the result is the same.
