/**
 * The technical signal engine: window statistics over a price history, the
 * four voting rules (RSI, MACD, moving-average trend, Bollinger position) and
 * the majority vote over them.
 *
 * Exponentially weighted means and rolling standard deviations are
 * floating-point numerics that the model takes as given (`Numerics`); every
 * other value is computed here over reals, with NaN where pandas yields NaN.
 */
module TechnicalIndicators {
  import opened Common

  // Window lengths (config.py:22-26 and the literals of the engine).
  const RsiPeriod: nat := 14
  const MacdFast: nat := 12
  const MacdSlow: nat := 26
  const MacdSignalSpan: nat := 9
  const BbandsPeriod: nat := 20
  const SupportWindow: nat := 52
  const VolumeWindow: nat := 20

  /** `str(e)` of the ValueError `int()` raises for NaN. */
  const NaNToIntError: string := "cannot convert float NaN to integer"

  /** The numerics taken as given: the last value of `ewm(span).mean()` of a
      series, the last value of the MACD signal line for a close series, and
      the last value of `rolling(n).std()`. */
  datatype Numerics = Numerics(
    ema: (seq<real>, nat) -> real,
    macdSignalLine: seq<real> -> real,
    rollingStd: (seq<real>, nat) -> real)

  datatype Signal = Bullish | Bearish | Neutral

  /** The rationale attached to each per-indicator signal. */
  datatype Reason =
    | Oversold(rsi: Float) | Overbought(rsi: Float) | RsiNeutral(rsi: Float)
    | PositiveHistogram | NegativeHistogram | MixedMacd
    | GoldenCross | DeathCross | MixedAverages
    | NearLowerBand(position: Float) | NearUpperBand(position: Float) | MidBand(position: Float)

  datatype IndicatorSignal = IndicatorSignal(indicator: string, signal: Signal, reason: Reason)

  datatype MacdValues = MacdValues(macd: real, signal: real, histogram: real)
  datatype Bands = Bands(upper: real, middle: real, lower: real, position: Float)
  datatype MovingAverages = MovingAverages(sma20: Float, sma50: Float, sma200: Float, ema20: real)
  datatype VolumeStats = VolumeStats(current: int, avg20: int, ratio: Float)
  datatype Range52 = Range52(high: Float, low: Float)

  /** The indicator dictionary of a successful run, grouped as it is nested. */
  datatype IndicatorSet = IndicatorSet(
    rsi: Float,
    macd: MacdValues,
    bands: Bands,
    averages: MovingAverages,
    volume: VolumeStats,
    support: Range52,
    signals: seq<IndicatorSignal>,
    overall: Signal,
    bullishCount: nat,
    bearishCount: nat)

  /** The engine's result: the indicator dictionary with status "success", or
      `{"error", "status": "failed"}`. */
  datatype IndicatorResult = IndicatorsOk(values: IndicatorSet) | IndicatorsFailed(error: string)

  // ---------------------------------------------------------------------
  // Window statistics
  // ---------------------------------------------------------------------

  function Highs(h: PriceSeries): (r: seq<real>)
    ensures |r| == |h| && forall i | 0 <= i < |h| :: r[i] == h[i].high
  {
    seq(|h|, i requires 0 <= i < |h| => h[i].high)
  }

  function Lows(h: PriceSeries): (r: seq<real>)
    ensures |r| == |h| && forall i | 0 <= i < |h| :: r[i] == h[i].low
  {
    seq(|h|, i requires 0 <= i < |h| => h[i].low)
  }

  function Volumes(h: PriceSeries): (r: seq<real>)
    ensures |r| == |h| && forall i | 0 <= i < |h| :: r[i] == h[i].volume
  {
    seq(|h|, i requires 0 <= i < |h| => h[i].volume)
  }

  function Sum(s: seq<real>): real {
    if |s| == 0 then 0.0 else Sum(s[..|s| - 1]) + s[|s| - 1]
  }

  /** The last `n` entries: the window `rolling(n)` reads at `iloc[-1]`. */
  function LastN(s: seq<real>, n: nat): (w: seq<real>)
    requires n <= |s|
    ensures |w| == n
  {
    s[|s| - n..]
  }

  function MaxOf(s: seq<real>): (m: real)
    requires |s| > 0
    ensures forall i | 0 <= i < |s| :: s[i] <= m
    ensures m in s
  {
    if |s| == 1 then s[0]
    else
      var m := MaxOf(s[..|s| - 1]);
      assert s[..|s| - 1] <= s;
      if s[|s| - 1] > m then s[|s| - 1] else m
  }

  function MinOf(s: seq<real>): (m: real)
    requires |s| > 0
    ensures forall i | 0 <= i < |s| :: m <= s[i]
    ensures m in s
  {
    if |s| == 1 then s[0]
    else
      var m := MinOf(s[..|s| - 1]);
      assert s[..|s| - 1] <= s;
      if s[|s| - 1] < m then s[|s| - 1] else m
  }

  /** `s.rolling(n).mean().iloc[-1]`: NaN while the series is shorter than the window. */
  function RollingMean(s: seq<real>, n: nat): Float
    requires n > 0
  {
    if |s| < n then NaN else Finite(Sum(LastN(s, n)) / n as real)
  }

  /** `s.rolling(n).max().iloc[-1]`. */
  function RollingMax(s: seq<real>, n: nat): Float
    requires n > 0
  {
    if |s| < n then NaN else Finite(MaxOf(LastN(s, n)))
  }

  /** `s.rolling(n).min().iloc[-1]`. */
  function RollingMin(s: seq<real>, n: nat): Float
    requires n > 0
  {
    if |s| < n then NaN else Finite(MinOf(LastN(s, n)))
  }

  function Positive(x: real): real { if x > 0.0 then x else 0.0 }

  /** `close.diff().where(delta > 0, 0)`: the first, undefined, delta counts as 0. */
  function Gains(c: seq<real>): (g: seq<real>)
    ensures |g| == |c|
    ensures forall i | 0 <= i < |g| :: g[i] >= 0.0
  {
    seq(|c|, i requires 0 <= i < |c| => if i == 0 then 0.0 else Positive(c[i] - c[i - 1]))
  }

  /** `-close.diff().where(delta < 0, 0)`. */
  function Losses(c: seq<real>): (l: seq<real>)
    ensures |l| == |c|
    ensures forall i | 0 <= i < |l| :: l[i] >= 0.0
  {
    seq(|c|, i requires 0 <= i < |c| => if i == 0 then 0.0 else Positive(c[i - 1] - c[i]))
  }

  /** RSI = 100 - 100 / (1 + gain / loss), with numpy's division by zero. */
  function Rsi(gain: real, loss: real): (r: Float)
    requires gain >= 0.0 && loss >= 0.0
    ensures loss > 0.0 ==> r.Finite? && 0.0 <= r.v < 100.0
    ensures loss == 0.0 && gain > 0.0 ==> r == Finite(100.0)
    ensures loss == 0.0 && gain == 0.0 ==> r == NaN
  {
    match Div(gain, loss)
    case Finite(rs) =>
      assert rs >= 0.0;
      assert 0.0 < 100.0 / (1.0 + rs) <= 100.0;
      Finite(100.0 - 100.0 / (1.0 + rs))
    case PosInf => Finite(100.0)
    case NegInf => Finite(100.0)
    case NaN => NaN
  }

  /** Where the current price sits inside the bands, as a percentage. */
  function BandPosition(price: real, upper: real, lower: real): Float {
    Scale(Div(price - lower, upper - lower), 100.0)
  }

  // ---------------------------------------------------------------------
  // The voting rules
  // ---------------------------------------------------------------------

  function RsiEntry(rsi: Float): IndicatorSignal {
    if Less(rsi, Finite(30.0)) then IndicatorSignal("RSI", Bullish, Oversold(rsi))
    else if Less(Finite(70.0), rsi) then IndicatorSignal("RSI", Bearish, Overbought(rsi))
    else IndicatorSignal("RSI", Neutral, RsiNeutral(rsi))
  }

  function MacdEntry(macd: real, signal: real, histogram: real): IndicatorSignal {
    if histogram > 0.0 && macd > signal then IndicatorSignal("MACD", Bullish, PositiveHistogram)
    else if histogram < 0.0 && macd < signal then IndicatorSignal("MACD", Bearish, NegativeHistogram)
    else IndicatorSignal("MACD", Neutral, MixedMacd)
  }

  function MaEntry(price: real, sma50: Float, sma200: Float): IndicatorSignal {
    if Less(sma200, Finite(price)) && Less(sma200, sma50) then IndicatorSignal("MA", Bullish, GoldenCross)
    else if Less(Finite(price), sma200) && Less(sma50, sma200) then IndicatorSignal("MA", Bearish, DeathCross)
    else IndicatorSignal("MA", Neutral, MixedAverages)
  }

  function BbEntry(position: Float): IndicatorSignal {
    if Less(position, Finite(20.0)) then IndicatorSignal("BBANDS", Bullish, NearLowerBand(position))
    else if Less(Finite(80.0), position) then IndicatorSignal("BBANDS", Bearish, NearUpperBand(position))
    else IndicatorSignal("BBANDS", Neutral, MidBand(position))
  }

  /** RSI: oversold below 30, overbought above 70; 30, 70 and NaN are neutral. */
  lemma {:induction false} RsiRule(rsi: Float)
    ensures RsiEntry(rsi).signal == Bullish <==> rsi.NegInf? || (rsi.Finite? && rsi.v < 30.0)
    ensures RsiEntry(rsi).signal == Bearish <==> rsi.PosInf? || (rsi.Finite? && rsi.v > 70.0)
    ensures RsiEntry(rsi).signal == Neutral <==> rsi.NaN? || (rsi.Finite? && 30.0 <= rsi.v <= 70.0)
  {
  }

  /** MACD: bullish iff histogram > 0 and MACD above its signal line, bearish iff
      histogram < 0 and MACD below it. */
  lemma {:induction false} MacdRule(macd: real, signal: real, histogram: real)
    ensures MacdEntry(macd, signal, histogram).signal == Bullish <==> histogram > 0.0 && macd > signal
    ensures MacdEntry(macd, signal, histogram).signal == Bearish <==> histogram < 0.0 && macd < signal
  {
  }

  /** Trend: bullish iff price and SMA-50 are both above SMA-200, bearish iff
      both are below; a NaN average makes the rule neutral. */
  lemma {:induction false} MaRule(price: real, sma50: Float, sma200: Float)
    ensures MaEntry(price, sma50, sma200).signal == Bullish <==> Less(sma200, Finite(price)) && Less(sma200, sma50)
    ensures MaEntry(price, sma50, sma200).signal == Bearish <==> Less(Finite(price), sma200) && Less(sma50, sma200)
    ensures sma200.NaN? ==> MaEntry(price, sma50, sma200).signal == Neutral
  {
  }

  /** Bollinger: bullish below 20 percent, bearish above 80 percent. */
  lemma {:induction false} BbRule(position: Float)
    ensures BbEntry(position).signal == Bullish <==> position.NegInf? || (position.Finite? && position.v < 20.0)
    ensures BbEntry(position).signal == Bearish <==> position.PosInf? || (position.Finite? && position.v > 80.0)
  {
  }

  /** How many signals in `s` have value `x` (the generator sums). */
  function Count(s: seq<IndicatorSignal>, x: Signal): (n: nat)
    ensures n <= |s|
  {
    if |s| == 0 then 0
    else Count(s[..|s| - 1], x) + (if s[|s| - 1].signal == x then 1 else 0)
  }

  /** The majority rule: three or more of four. */
  function Vote(bullish: nat, bearish: nat): Signal {
    if bullish >= 3 then Bullish
    else if bearish >= 3 then Bearish
    else Neutral
  }

  // ---------------------------------------------------------------------
  // The engine
  // ---------------------------------------------------------------------

  /** The four per-indicator signals, in voting order. */
  function SignalList(rsi: Float, macd: real, signal: real, histogram: real,
                      price: real, sma50: Float, sma200: Float, position: Float): seq<IndicatorSignal>
  {
    [RsiEntry(rsi), MacdEntry(macd, signal, histogram), MaEntry(price, sma50, sma200), BbEntry(position)]
  }

  /** The mean of the last `n` entries, for a series at least that long. */
  function MeanLast(s: seq<real>, n: nat): (m: real)
    requires 0 < n <= |s|
    ensures (forall i | 0 <= i < |s| :: s[i] >= 0.0) ==> m >= 0.0
  {
    SumNonNegative(LastN(s, n));
    Sum(LastN(s, n)) / n as real
  }

  /** RSI over the last 14 deltas of the closes. */
  function RsiOf(close: seq<real>): Float
    requires |close| >= RsiPeriod
  {
    Rsi(MeanLast(Gains(close), RsiPeriod), MeanLast(Losses(close), RsiPeriod))
  }

  /** MACD line (fast EMA minus slow EMA), its signal line and their difference. */
  function MacdOf(close: seq<real>, num: Numerics): (m: MacdValues)
    ensures m.histogram == m.macd - m.signal
  {
    var line := num.ema(close, MacdFast) - num.ema(close, MacdSlow);
    var signal := num.macdSignalLine(close);
    MacdValues(line, signal, line - signal)
  }

  /** The Bollinger bands: SMA-20 plus and minus two standard deviations, and
      the position of the last close between them. */
  function BandsOf(close: seq<real>, num: Numerics): (b: Bands)
    requires |close| >= BbandsPeriod
    ensures b.upper - b.middle == b.middle - b.lower
    ensures b.position == BandPosition(close[|close| - 1], b.upper, b.lower)
  {
    var mid := MeanLast(close, BbandsPeriod);
    var std := num.rollingStd(close, BbandsPeriod);
    Bands(mid + 2.0 * std, mid, mid - 2.0 * std,
          BandPosition(close[|close| - 1], mid + 2.0 * std, mid - 2.0 * std))
  }

  function AveragesOf(close: seq<real>, num: Numerics): MovingAverages {
    MovingAverages(RollingMean(close, 20), RollingMean(close, 50), RollingMean(close, 200), num.ema(close, 20))
  }

  /** The last volume against the 20-row average, truncated as `int()` does. */
  function VolumeOf(h: PriceSeries): VolumeStats
    requires |h| >= VolumeWindow
  {
    var avg := MeanLast(Volumes(h), VolumeWindow);
    var current := h[|h| - 1].volume;
    VolumeStats(Trunc(current), Trunc(avg), Div(current, avg))
  }

  function SupportOf(h: PriceSeries): Range52 {
    Range52(RollingMax(Highs(h), SupportWindow), RollingMin(Lows(h), SupportWindow))
  }

  /** The signals, with their counts and the vote, over computed values. */
  function Assemble(rsi: Float, macd: MacdValues, bands: Bands, averages: MovingAverages,
                    volume: VolumeStats, support: Range52, price: real): IndicatorSet
  {
    var signals := SignalList(rsi, macd.macd, macd.signal, macd.histogram,
                              price, averages.sma50, averages.sma200, bands.position);
    var bullish := Count(signals, Bullish);
    var bearish := Count(signals, Bearish);
    IndicatorSet(rsi, macd, bands, averages, volume, support, signals, Vote(bullish, bearish), bullish, bearish)
  }

  /** The indicator values of a history of at least 20 rows, its signal list
      and its vote. */
  function Compute(h: PriceSeries, num: Numerics): IndicatorSet
    requires |h| >= VolumeWindow
  {
    var close := Closes(h);
    Assemble(RsiOf(close), MacdOf(close, num), BandsOf(close, num), AveragesOf(close, num),
             VolumeOf(h), SupportOf(h), close[|close| - 1])
  }

  /** `calculate_indicators`: an empty history fails on `iloc[-1]`, a history
      shorter than the 20-row volume window fails on `int(NaN)`, anything
      longer yields the indicator set. */
  function Indicators(h: PriceSeries, num: Numerics): IndicatorResult {
    if |h| == 0 then IndicatorsFailed(IndexOutOfBounds)
    else if |h| < VolumeWindow then IndicatorsFailed(NaNToIntError)
    else IndicatorsOk(Compute(h, num))
  }

  /** The interpretation step of the engine: the signal list built by four
      appends, counted by one loop, and the vote. */
  method InterpretSignals(rsi: Float, macd: MacdValues, bands: Bands, averages: MovingAverages,
                          volume: VolumeStats, support: Range52, price: real) returns (r: IndicatorSet)
    ensures r == Assemble(rsi, macd, bands, averages, volume, support, price)
  {
    var signals: seq<IndicatorSignal> := [];
    signals := signals + [RsiEntry(rsi)];
    signals := signals + [MacdEntry(macd.macd, macd.signal, macd.histogram)];
    signals := signals + [MaEntry(price, averages.sma50, averages.sma200)];
    signals := signals + [BbEntry(bands.position)];
    var bullish: nat := 0;
    var bearish: nat := 0;
    for i := 0 to |signals|
      invariant bullish == Count(signals[..i], Bullish)
      invariant bearish == Count(signals[..i], Bearish)
    {
      assert signals[..i + 1][..i] == signals[..i];
      if signals[i].signal == Bullish { bullish := bullish + 1; }
      if signals[i].signal == Bearish { bearish := bearish + 1; }
    }
    assert signals[..|signals|] == signals;
    assert signals == SignalList(rsi, macd.macd, macd.signal, macd.histogram,
                                 price, averages.sma50, averages.sma200, bands.position);
    var overall := if bullish >= 3 then Bullish else if bearish >= 3 then Bearish else Neutral;
    r := IndicatorSet(rsi, macd, bands, averages, volume, support, signals, overall, bullish, bearish);
  }

  /** The imperative engine: the failure paths, the indicator values, then
      their interpretation. */
  method CalculateIndicators(h: PriceSeries, num: Numerics) returns (r: IndicatorResult)
    ensures r == Indicators(h, num)
  {
    if |h| == 0 {
      return IndicatorsFailed(IndexOutOfBounds);
    }
    if |h| < VolumeWindow {
      return IndicatorsFailed(NaNToIntError);
    }
    var close := Closes(h);
    var values := InterpretSignals(RsiOf(close), MacdOf(close, num), BandsOf(close, num), AveragesOf(close, num),
                                   VolumeOf(h), SupportOf(h), close[|close| - 1]);
    r := IndicatorsOk(values);
  }

  // ---------------------------------------------------------------------
  // Properties
  // ---------------------------------------------------------------------

  lemma {:induction false} CountBoth(s: seq<IndicatorSignal>)
    ensures Count(s, Bullish) + Count(s, Bearish) <= |s|
  {
    if |s| > 0 {
      CountBoth(s[..|s| - 1]);
    }
  }

  /** The vote over computed values: four signals named RSI, MACD, MA, BBANDS
      in that order; the counts are the numbers of bullish and bearish ones and
      total at most four; overall is bullish iff at least three are bullish,
      bearish iff at least three are bearish, neutral otherwise. */
  lemma {:induction false} AssembleVotes(rsi: Float, macd: MacdValues, bands: Bands, averages: MovingAverages,
                      volume: VolumeStats, support: Range52, price: real)
    ensures var s := Assemble(rsi, macd, bands, averages, volume, support, price);
      && |s.signals| == 4
      && s.signals[0].indicator == "RSI" && s.signals[1].indicator == "MACD"
      && s.signals[2].indicator == "MA" && s.signals[3].indicator == "BBANDS"
      && s.bullishCount == Count(s.signals, Bullish)
      && s.bearishCount == Count(s.signals, Bearish)
      && s.bullishCount + s.bearishCount <= 4
      && (s.overall == Bullish <==> s.bullishCount >= 3)
      && (s.overall == Bearish <==> s.bearishCount >= 3)
      && (s.overall == Neutral <==> s.bullishCount < 3 && s.bearishCount < 3)
  {
    var s := Assemble(rsi, macd, bands, averages, volume, support, price);
    CountBoth(s.signals);
  }

  /** The same for every successful run of the engine. */
  lemma {:induction false} MajorityVote(h: PriceSeries, num: Numerics)
    requires Indicators(h, num).IndicatorsOk?
    ensures var s := Indicators(h, num).values;
      && |s.signals| == 4
      && s.bullishCount + s.bearishCount <= 4
      && (s.overall == Bullish <==> s.bullishCount >= 3)
      && (s.overall == Bearish <==> s.bearishCount >= 3)
      && (s.overall == Neutral <==> s.bullishCount < 3 && s.bearishCount < 3)
  {
    var close := Closes(h);
    AssembleVotes(RsiOf(close), MacdOf(close, num), BandsOf(close, num), AveragesOf(close, num),
                  VolumeOf(h), SupportOf(h), close[|close| - 1]);
  }

  lemma {:induction false} SumBounds(s: seq<real>, lo: real, hi: real)
    requires forall i | 0 <= i < |s| :: lo <= s[i] <= hi
    ensures |s| as real * lo <= Sum(s) <= |s| as real * hi
  {
    if |s| > 0 {
      SumBounds(s[..|s| - 1], lo, hi);
    }
  }

  lemma {:induction false} SumNonNegative(s: seq<real>)
    ensures (forall i | 0 <= i < |s| :: s[i] >= 0.0) ==> Sum(s) >= 0.0
  {
    if |s| > 0 {
      SumNonNegative(s[..|s| - 1]);
    }
  }

  lemma {:induction false} DivBounds(total: real, k: real, lo: real, hi: real)
    requires k > 0.0 && k * lo <= total <= k * hi
    ensures lo <= total / k <= hi
  {
  }

  /** A rolling mean (SMA-20, SMA-50, SMA-200, the middle band) is the mean of
      the last n values, so it lies between their minimum and their maximum. */
  lemma {:induction false} RollingMeanBounds(s: seq<real>, n: nat)
    requires 0 < n <= |s|
    ensures RollingMean(s, n).Finite?
    ensures MinOf(LastN(s, n)) <= RollingMean(s, n).v <= MaxOf(LastN(s, n))
  {
    var w := LastN(s, n);
    var lo, hi := MinOf(w), MaxOf(w);
    MeanBounds(w, lo, hi);
    assert RollingMean(s, n) == Finite(Sum(w) / n as real);
  }

  lemma {:induction false} MeanBounds(w: seq<real>, lo: real, hi: real)
    requires |w| > 0 && forall i | 0 <= i < |w| :: lo <= w[i] <= hi
    ensures lo <= Sum(w) / |w| as real <= hi
  {
    SumBounds(w, lo, hi);
    DivBounds(Sum(w), |w| as real, lo, hi);
  }

  /** The 52-row high bounds every one of the last 52 highs and is one of
      them; the 52-row low likewise. Shorter histories give NaN. */
  lemma {:induction false} SupportBounds(h: PriceSeries)
    ensures |h| < SupportWindow ==> SupportOf(h).high.NaN? && SupportOf(h).low.NaN?
    ensures |h| >= SupportWindow ==>
      var r := SupportOf(h);
      && r.high.Finite? && r.low.Finite?
      && (forall i | |h| - SupportWindow <= i < |h| :: r.low.v <= h[i].low && h[i].high <= r.high.v)
      && (exists i | |h| - SupportWindow <= i < |h| :: h[i].high == r.high.v)
      && (exists i | |h| - SupportWindow <= i < |h| :: h[i].low == r.low.v)
  {
    if |h| >= SupportWindow {
      var r := SupportOf(h);
      var off := |h| - SupportWindow;
      var hw := LastN(Highs(h), SupportWindow);
      var lw := LastN(Lows(h), SupportWindow);
      forall i | off <= i < |h|
        ensures r.low.v <= h[i].low && h[i].high <= r.high.v
      {
        assert hw[i - off] == h[i].high;
        assert lw[i - off] == h[i].low;
      }
      var j :| 0 <= j < |hw| && hw[j] == r.high.v;
      assert h[j + off].high == r.high.v;
      var k :| 0 <= k < |lw| && lw[k] == r.low.v;
      assert h[k + off].low == r.low.v;
    }
  }

  /** With a positive average loss, RSI is the share of gains in all
      movement, `100 * gain / (gain + loss)`, hence in [0, 100). */
  lemma {:induction false} RsiRange(gain: real, loss: real)
    requires gain >= 0.0 && loss > 0.0
    ensures Rsi(gain, loss).Finite?
    ensures Rsi(gain, loss).v == 100.0 * gain / (gain + loss)
  {
    var rs := gain / loss;
    var t := gain + loss;
    assert rs * loss == gain;
    assert (1.0 + rs) * loss == t;
    var a := 100.0 * loss / t;
    var b := 100.0 * gain / t;
    assert 100.0 / (1.0 + rs) == a by {
      assert a * (1.0 + rs) == 100.0 * loss * (1.0 + rs) / t;
    }
    assert a * t == 100.0 * loss && b * t == 100.0 * gain;
    assert (a + b - 100.0) * t == 0.0;
  }

  /** The failure paths: no rows fails on indexing, 1 to 19 rows fail on the
      NaN volume average; 20 rows and more always succeed. */
  lemma {:induction false} FailureIffShort(h: PriceSeries, num: Numerics)
    ensures Indicators(h, num).IndicatorsFailed? <==> |h| < VolumeWindow
    ensures |h| == 0 ==> Indicators(h, num) == IndicatorsFailed(IndexOutOfBounds)
    ensures 0 < |h| < VolumeWindow ==> Indicators(h, num) == IndicatorsFailed(NaNToIntError)
  {
  }

  /** Histories of 20 to 199 rows have no 200-row average: the trend rule is
      then neutral. */
  lemma {:induction false} ShortHistoryTrendNeutral(h: PriceSeries, num: Numerics)
    requires VolumeWindow <= |h| < 200
    ensures Indicators(h, num).values.averages.sma200 == NaN
    ensures Indicators(h, num).values.signals[2].signal == Neutral
  {
  }

  /** Because the model keeps the unrounded histogram, the MACD rule reduces
      to comparing the MACD line with its signal line. */
  lemma {:induction false} MacdHistogramConsistent(h: PriceSeries, num: Numerics)
    requires Indicators(h, num).IndicatorsOk?
    ensures var s := Indicators(h, num).values;
      && s.macd.histogram == s.macd.macd - s.macd.signal
      && (s.signals[1].signal == Bullish <==> s.macd.macd > s.macd.signal)
      && (s.signals[1].signal == Bearish <==> s.macd.macd < s.macd.signal)
  {
    var close := Closes(h);
    var macd := MacdOf(close, num);
    var values := Assemble(RsiOf(close), macd, BandsOf(close, num), AveragesOf(close, num),
                         VolumeOf(h), SupportOf(h), close[|close| - 1]);
    assert Indicators(h, num).values == values;
    assert values.macd == macd;
    assert values.signals[1] == MacdEntry(macd.macd, macd.signal, macd.histogram);
  }
}
