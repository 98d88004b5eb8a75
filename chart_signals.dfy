/**
 * The candle signal extractor of app/page.tsx (`extractChartSignals`): two
 * exponential moving averages of the closes, a higher-high/higher-low count
 * over the last ten bars, swing-failure and fair-value-gap counts, and a
 * round-bottom scan on the slope of the 50-period average.
 *
 * Each loop of the source is a method proved against a specification
 * function; `SignalsOf` assembles those functions into the whole result.
 */
module ChartSignals {
  import opened Wrappers
  import opened FeatureNormalizer

  /** One OHLCV bar: timestamp (ms), open, high, low, close, volume. */
  datatype Candle = Candle(t: int, o: real, h: real, l: real, c: real, v: real)

  /** What the extractor reports about a series of at least `MinBars` bars. */
  datatype Signals = Signals(uptrend: bool, sfpCount: nat, fvgCount: nat, roundBottom: bool, emaUp: bool)

  /** Shorter series give no signals at all. */
  const MinBars: nat := 50
  const FastPeriod: nat := 50
  const SlowPeriod: nat := 200
  /** Bars whose consecutive pairs are compared for higher highs and lows. */
  const TrendBars: nat := 10
  /** Look-back window of the swing-failure test, and of the EMA slope. */
  const Window: nat := 5
  /** First index at which the round-bottom scan looks. */
  const TurnScanStart: nat := 55

  function Closes(cs: seq<Candle>): (r: seq<real>)
    ensures |r| == |cs| && forall i :: 0 <= i < |cs| ==> r[i] == cs[i].c
  {
    seq(|cs|, i requires 0 <= i < |cs| => cs[i].c)
  }

  function Highs(cs: seq<Candle>): (r: seq<real>)
    ensures |r| == |cs| && forall i :: 0 <= i < |cs| ==> r[i] == cs[i].h
  {
    seq(|cs|, i requires 0 <= i < |cs| => cs[i].h)
  }

  function Lows(cs: seq<Candle>): (r: seq<real>)
    ensures |r| == |cs| && forall i :: 0 <= i < |cs| ==> r[i] == cs[i].l
  {
    seq(|cs|, i requires 0 <= i < |cs| => cs[i].l)
  }

  // ---------------------------------------------------------------- EMA

  /** The EMA smoothing factor `k = 2 / (period + 1)`. */
  function Smoothing(period: nat): (k: real)
    ensures k * (period as real + 1.0) == 2.0
    ensures 0.0 < k
    ensures period >= 1 ==> k <= 1.0
  {
    2.0 / (period as real + 1.0)
  }

  /**
   * The EMA series: seeded with the first value, then
   * `e := x * k + e * (1 - k)` for each further value.
   */
  function EmaSeries(xs: seq<real>, k: real): (out: seq<real>)
    requires |xs| > 0
    ensures |out| == |xs| && out[0] == xs[0]
    decreases |xs|
  {
    if |xs| == 1 then [xs[0]]
    else
      var prev := EmaSeries(xs[..|xs| - 1], k);
      prev + [xs[|xs| - 1] * k + prev[|prev| - 1] * (1.0 - k)]
  }

  /** The inner `ema` helper: one `push` per further value. */
  method Ema(xs: seq<real>, period: nat) returns (out: seq<real>)
    requires |xs| > 0
    ensures out == EmaSeries(xs, Smoothing(period))
    ensures |out| == |xs| && out[0] == xs[0]
  {
    var k := Smoothing(period);
    var e := xs[0];
    out := [e];
    for i := 1 to |xs|
      invariant out == EmaSeries(xs[..i], k)
      invariant e == out[i - 1]
    {
      assert xs[..i + 1][..i] == xs[..i];
      e := xs[i] * k + e * (1.0 - k);
      assert EmaSeries(xs[..i + 1], k) == out + [e];
      out := out + [e];
    }
    assert xs[..|xs|] == xs;
  }

  /** A convex combination of two values in [lo, hi] stays in [lo, hi]. */
  lemma ConvexStep(x: real, e: real, k: real, lo: real, hi: real)
    requires 0.0 <= k <= 1.0
    requires lo <= x <= hi && lo <= e <= hi
    ensures lo <= x * k + e * (1.0 - k) <= hi
  {
    assert (x - lo) * k >= 0.0;
    assert (e - lo) * (1.0 - k) >= 0.0;
    assert (hi - x) * k >= 0.0;
    assert (hi - e) * (1.0 - k) >= 0.0;
  }

  /**
   * With `0 <= k <= 1` the EMA is a running weighted average: when every
   * value lies in [lo, hi], so does every point of the EMA.
   */
  lemma {:induction false} EmaWithinRange(xs: seq<real>, k: real, lo: real, hi: real)
    requires |xs| > 0 && 0.0 <= k <= 1.0
    requires forall i :: 0 <= i < |xs| ==> lo <= xs[i] <= hi
    ensures forall i :: 0 <= i < |xs| ==> lo <= EmaSeries(xs, k)[i] <= hi
  {
    if |xs| > 1 {
      var init := xs[..|xs| - 1];
      EmaWithinRange(init, k, lo, hi);
      var prev := EmaSeries(init, k);
      ConvexStep(xs[|xs| - 1], prev[|prev| - 1], k, lo, hi);
    }
  }

  // ------------------------------------------------ higher highs and lows

  /** How many `i` in [lo, hi) have `s[i + 1] > s[i]`. */
  function Rises(s: seq<real>, lo: nat, hi: nat): (n: nat)
    requires lo <= hi < |s|
    ensures n <= hi - lo
    decreases hi
  {
    if lo == hi then 0
    else Rises(s, lo, hi - 1) + (if s[hi] > s[hi - 1] then 1 else 0)
  }

  /** Strictly higher highs over the nine consecutive pairs of the last ten bars. */
  function HigherHighs(cs: seq<Candle>): (n: nat)
    requires |cs| >= TrendBars
    ensures n <= TrendBars - 1
  {
    Rises(Highs(cs), |cs| - TrendBars, |cs| - 1)
  }

  /** Strictly higher lows over the nine consecutive pairs of the last ten bars. */
  function HigherLows(cs: seq<Candle>): (n: nat)
    requires |cs| >= TrendBars
    ensures n <= TrendBars - 1
  {
    Rises(Lows(cs), |cs| - TrendBars, |cs| - 1)
  }

  /** The `hh`/`hl` loop, counting both kinds of rise in one pass. */
  method TrendCounts(cs: seq<Candle>) returns (hh: nat, hl: nat)
    requires |cs| >= TrendBars
    ensures hh == HigherHighs(cs) && hl == HigherLows(cs)
    ensures hh <= 9 && hl <= 9 && hh + hl <= 18
  {
    var highs, lows := Highs(cs), Lows(cs);
    var start := |cs| - TrendBars;
    hh, hl := 0, 0;
    for i := start to |cs| - 1
      invariant hh == Rises(highs, start, i)
      invariant hl == Rises(lows, start, i)
    {
      if highs[i + 1] > highs[i] { hh := hh + 1; }
      if lows[i + 1] > lows[i] { hl := hl + 1; }
    }
  }

  // ------------------------------------------------------ swing failures

  /** `Math.max(...highs.slice(lo, hi))`. */
  function MaxHigh(cs: seq<Candle>, lo: nat, hi: nat): (m: real)
    requires lo < hi <= |cs|
    ensures forall j :: lo <= j < hi ==> cs[j].h <= m
    decreases hi - lo
  {
    if hi - lo == 1 then cs[lo].h else Max(MaxHigh(cs, lo, hi - 1), cs[hi - 1].h)
  }

  /** `Math.min(...lows.slice(lo, hi))`. */
  function MinLow(cs: seq<Candle>, lo: nat, hi: nat): (m: real)
    requires lo < hi <= |cs|
    ensures forall j :: lo <= j < hi ==> m <= cs[j].l
    decreases hi - lo
  {
    if hi - lo == 1 then cs[lo].l else Min(MinLow(cs, lo, hi - 1), cs[hi - 1].l)
  }

  /**
   * Swing failures at bar `i`: one for a high above the previous five highs
   * that closes back below their maximum, one for a low below the previous
   * five lows that closes back above their minimum.
   */
  function SfpAt(cs: seq<Candle>, i: nat): (n: nat)
    requires Window <= i < |cs|
    ensures n <= 2
  {
    var prevHigh := MaxHigh(cs, i - Window, i);
    var prevLow := MinLow(cs, i - Window, i);
    var c := cs[i];
    (if c.h > prevHigh && c.c < prevHigh then 1 else 0) +
    (if c.l < prevLow && c.c > prevLow then 1 else 0)
  }

  /** Swing failures of the bars [5, n). */
  function SfpUpTo(cs: seq<Candle>, n: nat): (count: nat)
    requires n <= |cs|
    decreases n
  {
    if n <= Window then 0 else SfpUpTo(cs, n - 1) + SfpAt(cs, n - 1)
  }

  /** The `sfpCount` loop. */
  method CountSwingFailures(cs: seq<Candle>) returns (count: nat)
    ensures count == SfpUpTo(cs, |cs|)
  {
    count := 0;
    if |cs| <= Window {
      return;
    }
    for i := Window to |cs|
      invariant count == SfpUpTo(cs, i)
    {
      var prevHigh := MaxHigh(cs, i - Window, i);
      var prevLow := MinLow(cs, i - Window, i);
      var c := cs[i];
      if c.h > prevHigh && c.c < prevHigh { count := count + 1; }
      if c.l < prevLow && c.c > prevLow { count := count + 1; }
    }
  }

  // ------------------------------------------------------ fair-value gaps

  /**
   * Gaps in the triple ending at bar `i`: bullish when each bar's low clears
   * the previous bar's high, bearish when each bar's high stays under the
   * previous bar's low.
   */
  function FvgAt(cs: seq<Candle>, i: nat): (n: nat)
    requires 2 <= i < |cs|
    ensures n <= 2
  {
    var c0, c1, c2 := cs[i - 2], cs[i - 1], cs[i];
    (if c1.l > c0.h && c2.l > c1.h then 1 else 0) +
    (if c1.h < c0.l && c2.h < c1.l then 1 else 0)
  }

  /** Fair-value gaps of the triples ending at bars [2, n). */
  function FvgUpTo(cs: seq<Candle>, n: nat): (count: nat)
    requires n <= |cs|
    decreases n
  {
    if n <= 2 then 0 else FvgUpTo(cs, n - 1) + FvgAt(cs, n - 1)
  }

  /** The `fvgCount` loop. */
  method CountFairValueGaps(cs: seq<Candle>) returns (count: nat)
    ensures count == FvgUpTo(cs, |cs|)
  {
    count := 0;
    if |cs| <= 2 {
      return;
    }
    for i := 2 to |cs|
      invariant count == FvgUpTo(cs, i)
    {
      var c0, c1, c2 := cs[i - 2], cs[i - 1], cs[i];
      if c1.l > c0.h && c2.l > c1.h { count := count + 1; }
      if c1.h < c0.l && c2.h < c1.l { count := count + 1; }
    }
  }

  // --------------------------------------------------------- round bottom

  /** `slope(arr, i) = (arr[i] - arr[i - 5]) / 5`. */
  function Slope(e: seq<real>, i: nat): (s: real)
    requires Window <= i < |e|
    ensures s * Window as real == e[i] - e[i - Window]
    ensures s < 0.0 <==> e[i] < e[i - Window]
    ensures s > 0.0 <==> e[i] > e[i - Window]
  {
    (e[i] - e[i - Window]) / Window as real
  }

  /** The slope is strictly negative at `i - 1` and strictly positive at `i`. */
  predicate TurnsUpAt(e: seq<real>, i: nat)
    requires Window < i < |e|
  {
    Slope(e, i - 1) < 0.0 && Slope(e, i) > 0.0
  }

  /** Some index from 55 on is a turn. */
  ghost predicate HasRoundBottom(e: seq<real>)
  {
    exists i :: TurnScanStart <= i < |e| && TurnsUpAt(e, i)
  }

  /** The `roundBottom` scan, which stops at the first turn it finds. */
  method DetectRoundBottom(e: seq<real>) returns (found: bool)
    ensures found <==> HasRoundBottom(e)
  {
    found := false;
    var i := TurnScanStart;
    while i < |e|
      invariant TurnScanStart <= i
      invariant forall j :: TurnScanStart <= j < i && j < |e| ==> !TurnsUpAt(e, j)
    {
      var s1, s2 := Slope(e, i - 1), Slope(e, i);
      if s1 < 0.0 && s2 > 0.0 {
        assert TurnsUpAt(e, i);
        found := true;
        break;
      }
      i := i + 1;
    }
  }

  // ------------------------------------------------------------ assembly

  /** The signals of a series of at least 50 bars. */
  ghost function SignalsOf(cs: seq<Candle>): (s: Signals)
    requires |cs| >= MinBars
  {
    var n := |cs|;
    var fast := EmaSeries(Closes(cs), Smoothing(FastPeriod));
    var slow := EmaSeries(Closes(cs), Smoothing(SlowPeriod));
    var emaUp := fast[n - 1] > slow[n - 1];
    var hh := HigherHighs(cs);
    var hl := HigherLows(cs);
    Signals(emaUp && hh + hl >= 12, SfpUpTo(cs, n), FvgUpTo(cs, n), HasRoundBottom(fast), emaUp)
  }

  /**
   * `extractChartSignals`: nothing for a missing series or one shorter than
   * 50 bars, otherwise every signal at once.
   */
  method ExtractChartSignals(candles: Option<seq<Candle>>) returns (r: Option<Signals>)
    ensures r.None? <==> candles.None? || |candles.value| < MinBars
    ensures r.Some? ==> r.value == SignalsOf(candles.value)
    ensures r.Some? ==> (r.value.uptrend ==> r.value.emaUp)
  {
    if candles.None? || |candles.value| < MinBars {
      return None;
    }
    var cs := candles.value;
    var closes := Closes(cs);
    var fast := Ema(closes, FastPeriod);
    var slow := Ema(closes, SlowPeriod);
    var hh, hl := TrendCounts(cs);
    var emaUp := fast[|fast| - 1] > slow[|slow| - 1];
    var uptrend := emaUp && hh + hl >= 12;
    var sfp := CountSwingFailures(cs);
    var fvg := CountFairValueGaps(cs);
    var roundBottom := DetectRoundBottom(fast);
    ghost var spec := SignalsOf(cs);
    assert spec.emaUp == emaUp;
    assert spec.uptrend == uptrend;
    assert spec.sfpCount == sfp && spec.fvgCount == fvg;
    assert spec.roundBottom == roundBottom;
    r := Some(Signals(uptrend, sfp, fvg, roundBottom, emaUp));
  }

  // ------------------------------------------------------------ properties

  /** Each bar adds at most two swing failures. */
  lemma {:induction false} SfpBound(cs: seq<Candle>, n: nat)
    requires Window <= n <= |cs|
    ensures SfpUpTo(cs, n) <= 2 * (n - Window)
    decreases n
  {
    if n > Window {
      SfpBound(cs, n - 1);
    }
  }

  /** Each triple adds at most two gaps. */
  lemma {:induction false} FvgBound(cs: seq<Candle>, n: nat)
    requires 2 <= n <= |cs|
    ensures FvgUpTo(cs, n) <= 2 * (n - 2)
    decreases n
  {
    if n > 2 {
      FvgBound(cs, n - 1);
    }
  }

  /** Every bar's low is at most its high. */
  predicate WellFormed(cs: seq<Candle>)
  {
    forall i :: 0 <= i < |cs| ==> cs[i].l <= cs[i].h
  }

  /** On well-formed bars a triple is never both a bullish and a bearish gap. */
  lemma {:induction false} FvgBoundWellFormed(cs: seq<Candle>, n: nat)
    requires WellFormed(cs) && 2 <= n <= |cs|
    ensures FvgUpTo(cs, n) <= n - 2
    decreases n
  {
    if n > 2 {
      FvgBoundWellFormed(cs, n - 1);
    }
  }

  /** The window maximum is one of the window's highs. */
  lemma {:induction false} MaxHighAttained(cs: seq<Candle>, lo: nat, hi: nat)
    requires lo < hi <= |cs|
    ensures exists j :: lo <= j < hi && cs[j].h == MaxHigh(cs, lo, hi)
    decreases hi - lo
  {
    if hi - lo == 1 {
      assert cs[lo].h == MaxHigh(cs, lo, hi);
    } else if cs[hi - 1].h == MaxHigh(cs, lo, hi) {
    } else {
      MaxHighAttained(cs, lo, hi - 1);
      var j :| lo <= j < hi - 1 && cs[j].h == MaxHigh(cs, lo, hi - 1);
      assert cs[j].h == MaxHigh(cs, lo, hi);
    }
  }

  /** The window minimum is one of the window's lows. */
  lemma {:induction false} MinLowAttained(cs: seq<Candle>, lo: nat, hi: nat)
    requires lo < hi <= |cs|
    ensures exists j :: lo <= j < hi && cs[j].l == MinLow(cs, lo, hi)
    decreases hi - lo
  {
    if hi - lo == 1 {
      assert cs[lo].l == MinLow(cs, lo, hi);
    } else if cs[hi - 1].l == MinLow(cs, lo, hi) {
    } else {
      MinLowAttained(cs, lo, hi - 1);
      var j :| lo <= j < hi - 1 && cs[j].l == MinLow(cs, lo, hi - 1);
      assert cs[j].l == MinLow(cs, lo, hi);
    }
  }

  lemma {:induction false} MaxHighPrefix(cs: seq<Candle>, more: seq<Candle>, lo: nat, hi: nat)
    requires lo < hi <= |cs|
    ensures MaxHigh(cs + more, lo, hi) == MaxHigh(cs, lo, hi)
    decreases hi - lo
  {
    if hi - lo > 1 {
      MaxHighPrefix(cs, more, lo, hi - 1);
    }
  }

  lemma {:induction false} MinLowPrefix(cs: seq<Candle>, more: seq<Candle>, lo: nat, hi: nat)
    requires lo < hi <= |cs|
    ensures MinLow(cs + more, lo, hi) == MinLow(cs, lo, hi)
    decreases hi - lo
  {
    if hi - lo > 1 {
      MinLowPrefix(cs, more, lo, hi - 1);
    }
  }

  /** Appending bars leaves the swing-failure count of the first `n` bars unchanged. */
  lemma {:induction false} SfpPrefixStable(cs: seq<Candle>, more: seq<Candle>, n: nat)
    requires n <= |cs|
    ensures SfpUpTo(cs + more, n) == SfpUpTo(cs, n)
    decreases n
  {
    if n > Window {
      SfpPrefixStable(cs, more, n - 1);
      MaxHighPrefix(cs, more, n - 1 - Window, n - 1);
      MinLowPrefix(cs, more, n - 1 - Window, n - 1);
      assert (cs + more)[n - 1] == cs[n - 1];
    }
  }

  /** Appending bars leaves the gap count of the first `n` bars unchanged. */
  lemma {:induction false} FvgPrefixStable(cs: seq<Candle>, more: seq<Candle>, n: nat)
    requires n <= |cs|
    ensures FvgUpTo(cs + more, n) == FvgUpTo(cs, n)
    decreases n
  {
    if n > 2 {
      FvgPrefixStable(cs, more, n - 1);
      assert (cs + more)[n - 1] == cs[n - 1];
      assert (cs + more)[n - 2] == cs[n - 2];
      assert (cs + more)[n - 3] == cs[n - 3];
    }
  }

  lemma {:induction false} SfpUpToMonotone(cs: seq<Candle>, m: nat, n: nat)
    requires m <= n <= |cs|
    ensures SfpUpTo(cs, m) <= SfpUpTo(cs, n)
    decreases n
  {
    if m < n {
      SfpUpToMonotone(cs, m, n - 1);
    }
  }

  lemma {:induction false} FvgUpToMonotone(cs: seq<Candle>, m: nat, n: nat)
    requires m <= n <= |cs|
    ensures FvgUpTo(cs, m) <= FvgUpTo(cs, n)
    decreases n
  {
    if m < n {
      FvgUpToMonotone(cs, m, n - 1);
    }
  }

  /** Neither pattern count decreases when bars are appended to the series. */
  lemma AppendNeverLowersCounts(cs: seq<Candle>, more: seq<Candle>)
    ensures SfpUpTo(cs, |cs|) <= SfpUpTo(cs + more, |cs + more|)
    ensures FvgUpTo(cs, |cs|) <= FvgUpTo(cs + more, |cs + more|)
  {
    SfpPrefixStable(cs, more, |cs|);
    SfpUpToMonotone(cs + more, |cs|, |cs + more|);
    FvgPrefixStable(cs, more, |cs|);
    FvgUpToMonotone(cs + more, |cs|, |cs + more|);
  }

  /** The signals of a long enough series: an uptrend needs EMA alignment, and the counts are bounded. */
  lemma SignalsBounds(cs: seq<Candle>)
    requires |cs| >= MinBars
    ensures SignalsOf(cs).uptrend ==> SignalsOf(cs).emaUp
    ensures SignalsOf(cs).sfpCount <= 2 * (|cs| - Window)
    ensures SignalsOf(cs).fvgCount <= 2 * (|cs| - 2)
  {
    SfpBound(cs, |cs|);
    FvgBound(cs, |cs|);
  }

  /** Every point of the 50-bar EMA lies between the lowest and highest close. */
  lemma FastEmaWithinCloses(cs: seq<Candle>, lo: real, hi: real)
    requires |cs| >= MinBars
    requires forall i :: 0 <= i < |cs| ==> lo <= cs[i].c <= hi
    ensures forall i :: 0 <= i < |cs| ==> lo <= EmaSeries(Closes(cs), Smoothing(FastPeriod))[i] <= hi
  {
    EmaWithinRange(Closes(cs), Smoothing(FastPeriod), lo, hi);
  }
}
