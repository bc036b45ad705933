// The signal engine: indicator series built by loops, and the BUY / SELL / HOLD score
// made from their last values. NaN entries are None.
module SignalEngine {
  import opened Common
  import opened Indicators

  type Series = seq<Option<real>>

  // ----- Indicator loops -----

  method SumRange(values: seq<real>, lo: nat, hi: nat) returns (sum: real)
    requires lo <= hi <= |values|
    ensures sum == Sum(values, lo, hi)
  {
    sum := 0.0;
    for j := lo to hi
      invariant sum == Sum(values, lo, j)
    {
      sum := sum + values[j];
    }
  }

  method SmaSeries(values: seq<real>, period: nat) returns (r: Series)
    requires period >= 1
    ensures |r| == |values|
    ensures forall i :: 0 <= i < |r| ==>
                          r[i] == if i < period - 1 then None else Some(Mean(values, i + 1 - period, i + 1))
  {
    r := [];
    for i := 0 to |values|
      invariant |r| == i
      invariant forall j :: 0 <= j < i ==>
                              r[j] == if j < period - 1 then None else Some(Mean(values, j + 1 - period, j + 1))
    {
      if i < period - 1 {
        r := r + [None];
      } else {
        var sum := SumRange(values, i + 1 - period, i + 1);
        r := r + [Some(sum / period as real)];
      }
    }
  }

  method EmaSeries(values: seq<real>, period: nat) returns (r: Series)
    requires period >= 1
    ensures |r| == |values|
    ensures forall i :: 0 <= i < |r| ==> r[i] == if i < period - 1 then None else Some(EmaAt(values, period, i))
  {
    var k := 2.0 / (period as real + 1.0);
    var prev: real := 0.0;
    r := [];
    for i := 0 to |values|
      invariant |r| == i
      invariant forall j :: 0 <= j < i ==> r[j] == if j < period - 1 then None else Some(EmaAt(values, period, j))
      invariant i >= period ==> prev == EmaAt(values, period, i - 1)
    {
      if i < period - 1 {
        r := r + [None];
      } else if i == period - 1 {
        var sum := SumRange(values, 0, period);
        prev := sum / period as real;
        r := r + [Some(prev)];
      } else {
        prev := EmaStep(values[i], prev, k);
        r := r + [Some(prev)];
      }
    }
  }

  // Rises and falls over the first `period` moves.
  method SeedMoves(closes: seq<real>, ghost up: seq<real>, ghost down: seq<real>, period: nat)
      returns (gains: real, losses: real)
    requires 1 <= period < |closes| && Moves(closes, up, down)
    ensures gains == Sum(up, 1, period + 1) && losses == Sum(down, 1, period + 1)
  {
    gains, losses := 0.0, 0.0;
    for i := 1 to period + 1
      invariant gains == Sum(up, 1, i) && losses == Sum(down, 1, i)
    {
      var diff := closes[i] - closes[i - 1];
      if diff >= 0.0 {
        gains := gains + diff;
      } else {
        losses := losses - diff;
      }
    }
  }

  method SmoothedRsi(closes: seq<real>, ghost up: seq<real>, ghost down: seq<real>, period: nat) returns (r: Series)
    requires 1 <= period < |closes| && Moves(closes, up, down)
    ensures |r| == |closes|
    ensures forall i :: 0 <= i < |r| ==> r[i] == if i < period then None else Some(RsiOf(up, down, period, i))
  {
    r := seq(|closes|, _ => None);
    var gains, losses := SeedMoves(closes, up, down, period);
    var avgGain, avgLoss := gains / period as real, losses / period as real;
    WilderNonNegative(up, period, period);
    WilderNonNegative(down, period, period);
    r := r[period := Some(RsiFrom(avgGain, avgLoss))];
    for i := period + 1 to |closes|
      invariant |r| == |closes|
      invariant avgGain == Wilder(up, period, i - 1) && avgLoss == Wilder(down, period, i - 1)
      invariant forall j :: 0 <= j < |r| ==> r[j] == if period <= j < i then Some(RsiOf(up, down, period, j)) else None
    {
      var diff := closes[i] - closes[i - 1];
      var g := if diff > 0.0 then diff else 0.0;
      var l := if diff < 0.0 then -diff else 0.0;
      avgGain := WilderStep(g, avgGain, period as real);
      avgLoss := WilderStep(l, avgLoss, period as real);
      WilderNonNegative(up, period, i);
      WilderNonNegative(down, period, i);
      r := r[i := Some(RsiFrom(avgGain, avgLoss))];
    }
  }

  method RsiSeries(closes: seq<real>, period: nat) returns (r: Series)
    requires period >= 1
    ensures |r| == |closes|
    ensures forall i :: 0 <= i < |r| ==> r[i] == if i < period then None else Some(RsiAt(closes, period, i))
  {
    if |closes| < period + 1 {
      return seq(|closes|, _ => None);
    }
    MovesOfCloses(closes);
    r := SmoothedRsi(closes, Gains(closes), Losses(closes), period);
  }

  // With too few bars the write at index `period` extends the array, still undefined.
  method AtrSeries(high: seq<real>, low: seq<real>, close: seq<real>, period: nat) returns (r: Series)
    requires |high| == |low| == |close| && period >= 1
    ensures |r| == if 2 <= |close| <= period then period + 1 else |close|
    ensures forall i :: 0 <= i < |r| ==>
                          r[i] == if period <= i < |close| then Some(AtrAt(high, low, close, period, i)) else None
  {
    r := seq(|close|, _ => None);
    if |close| < 2 {
      return;
    }
    var ranges := [0.0];
    for i := 1 to |close|
      invariant |ranges| == i
      invariant ranges == TrueRanges(high, low, close)[..i]
    {
      ranges := ranges + [TrueRange(high[i], low[i], close[i - 1])];
    }
    assert ranges == TrueRanges(high, low, close);
    if |close| <= period {
      return seq(period + 1, _ => None);
    }
    var sum := SumRange(ranges, 1, period + 1);
    var prev := sum / period as real;
    r := r[period := Some(prev)];
    for i := period + 1 to |close|
      invariant |r| == |close|
      invariant prev == Wilder(ranges, period, i - 1)
      invariant forall j :: 0 <= j < |r| ==>
                              r[j] == if period <= j < i then Some(AtrAt(high, low, close, period, j)) else None
    {
      prev := WilderStep(ranges[i], prev, period as real);
      r := r[i := Some(prev)];
    }
  }

  // ----- Scoring -----

  datatype Kline = Kline(open: real, high: real, low: real, close: real, volume: real)
  datatype Action = BUY | SELL | HOLD
  datatype Trend = UP | DOWN | FLAT

  datatype Signal = Signal(action: Action, confidence: real, minConfidenceRequired: real,
                           rsi: real, trend: Trend, volatilityPct: Option<real>, volumeRatio: Option<real>)

  const ABSOLUTE_SIGNAL_FLOOR: real := 0.05

  function TrendOf(e20: real, e50: real, lastClose: real): Trend {
    if e20 > e50 * 1.002 && lastClose >= e20 then UP
    else if e20 < e50 * 0.998 && lastClose <= e20 then DOWN
    else FLAT
  }

  function VolatilityPct(atr: real, lastClose: real): Option<real> {
    if lastClose > 0.0 then Some(Quotient(atr, lastClose) * 100.0) else None
  }

  function VolumeRatio(volAvg: real, lastVol: real): Option<real> {
    if volAvg > 0.0 then Some(Quotient(lastVol, volAvg)) else None
  }

  function Chop(volatilityPct: Option<real>): real {
    match volatilityPct case None => 0.45 case Some(v) => Clamp01(Min(v / 14.0, 1.0))
  }

  function Flow(volumeRatio: Option<real>): real {
    match volumeRatio case None => 0.5 case Some(v) => Clamp01(Min(Max(v, 0.4), 2.2) / 2.2)
  }

  function MinConfidence(volatilityPct: Option<real>, volumeRatio: Option<real>): real {
    Clamp(0.08 + Chop(volatilityPct) * 0.08 - Flow(volumeRatio) * 0.04, ABSOLUTE_SIGNAL_FLOOR, 0.20)
  }

  function Margin(volatilityPct: Option<real>, volumeRatio: Option<real>): real {
    Clamp(0.005 + Chop(volatilityPct) * 0.01 - Flow(volumeRatio) * 0.003, 0.003, 0.02)
  }

  function RsiBuy(rsi: real): real {
    if rsi <= 35.0 then Clamp01((50.0 - rsi) / 50.0) * 0.85
    else if rsi <= 55.0 then Clamp01((60.0 - rsi) / 25.0)
    else if rsi < 70.0 then Clamp01((70.0 - rsi) / 20.0) * 0.5
    else 0.0
  }

  function RsiSell(rsi: real): real {
    if rsi >= 65.0 then Clamp01((rsi - 55.0) / 45.0)
    else if rsi >= 45.0 then Clamp01((rsi - 40.0) / 30.0) * 0.7
    else if rsi < 35.0 then Clamp01((45.0 - rsi) / 45.0) * 0.4
    else Clamp01((50.0 - rsi) / 50.0) * 0.3
  }

  function VolScore(volumeRatio: Option<real>): real {
    match volumeRatio case None => 0.5 case Some(v) => Clamp01(Min(v, 2.5) / 2.5)
  }

  function VolNorm(volatilityPct: Option<real>): real {
    match volatilityPct case None => 0.5 case Some(v) => Clamp01(1.0 - Min(v / 15.0, 1.0)) * 0.4 + 0.3
  }

  function BuyScore(rsi: real, trend: Trend, volatilityPct: Option<real>, volumeRatio: Option<real>): real {
    var t := if trend == UP then 0.85 else if trend == FLAT then 0.45 else 0.15;
    Clamp01(RsiBuy(rsi) * 0.38 + t * 0.32 + VolScore(volumeRatio) * 0.18 + VolNorm(volatilityPct) * 0.12)
  }

  function SellScore(rsi: real, trend: Trend, volatilityPct: Option<real>, volumeRatio: Option<real>): real {
    var t := if trend == DOWN then 0.85 else if trend == FLAT then 0.45 else 0.15;
    Clamp01(RsiSell(rsi) * 0.38 + t * 0.32 + VolScore(volumeRatio) * 0.18 + VolNorm(volatilityPct) * 0.12)
  }

  function Decide(rsi: real, trend: Trend, volatilityPct: Option<real>, volumeRatio: Option<real>): Signal {
    var buy := BuyScore(rsi, trend, volatilityPct, volumeRatio);
    var sell := SellScore(rsi, trend, volatilityPct, volumeRatio);
    var floor := MinConfidence(volatilityPct, volumeRatio);
    var margin := Margin(volatilityPct, volumeRatio);
    var (action, confidence) :=
      if buy >= floor && buy >= sell + margin then (BUY, buy)
      else if sell >= floor && sell >= buy + margin then (SELL, sell)
      else (HOLD, Max(buy, sell));
    Signal(action, confidence, floor, rsi, trend, volatilityPct, volumeRatio)
  }

  function Closes(ks: seq<Kline>): seq<real> { seq(|ks|, i requires 0 <= i < |ks| => ks[i].close) }
  function Highs(ks: seq<Kline>): seq<real> { seq(|ks|, i requires 0 <= i < |ks| => ks[i].high) }
  function Lows(ks: seq<Kline>): seq<real> { seq(|ks|, i requires 0 <= i < |ks| => ks[i].low) }
  function Volumes(ks: seq<Kline>): seq<real> { seq(|ks|, i requires 0 <= i < |ks| => ks[i].volume) }

  ghost function LastRsi(ks: seq<Kline>): real
    requires |ks| >= 52
  {
    RsiAt(Closes(ks), 14, |ks| - 1)
  }

  function LastTrend(ks: seq<Kline>): Trend
    requires |ks| >= 52
  {
    var n, closes := |ks|, Closes(ks);
    TrendOf(EmaAt(closes, 20, n - 1), EmaAt(closes, 50, n - 1), closes[n - 1])
  }

  function LastVolatilityPct(ks: seq<Kline>): Option<real>
    requires |ks| >= 52
  {
    var n, closes := |ks|, Closes(ks);
    VolatilityPct(AtrAt(Highs(ks), Lows(ks), closes, 14, n - 1), closes[n - 1])
  }

  function LastVolumeRatio(ks: seq<Kline>): Option<real>
    requires |ks| >= 52
  {
    var n, volumes := |ks|, Volumes(ks);
    VolumeRatio(Mean(volumes, n - 20, n), volumes[n - 1])
  }

  // The engine on the reference indicators.
  ghost function Score(ks: seq<Kline>): Option<Signal> {
    if |ks| < 52 then None
    else Some(Decide(LastRsi(ks), LastTrend(ks), LastVolatilityPct(ks), LastVolumeRatio(ks)))
  }

  // The engine as written: series first, then their last entries.
  method ScoreSignalFromKlines(ks: seq<Kline>) returns (r: Option<Signal>)
    ensures r == Score(ks)
  {
    if |ks| < 52 {
      return None;
    }
    var n := |ks|;
    var closes, volumes := Closes(ks), Volumes(ks);
    var rsiSeries := RsiSeries(closes, 14);
    var ema20 := EmaSeries(closes, 20);
    var ema50 := EmaSeries(closes, 50);
    var atrSeries := AtrSeries(Highs(ks), Lows(ks), closes, 14);
    var volMa := SmaSeries(volumes, 20);
    if rsiSeries[n - 1].None? {
      return None;
    }
    var lastClose := closes[n - 1];
    var trend := if ema20[n - 1].Some? && ema50[n - 1].Some? then
                   TrendOf(ema20[n - 1].value, ema50[n - 1].value, lastClose)
                 else FLAT;
    var atrLast := atrSeries[|atrSeries| - 1];
    var volatilityPct := if atrLast.Some? then VolatilityPct(atrLast.value, lastClose) else None;
    var volumeRatio := if volMa[n - 1].Some? then VolumeRatio(volMa[n - 1].value, volumes[n - 1]) else None;
    return Some(Decide(rsiSeries[n - 1].value, trend, volatilityPct, volumeRatio));
  }

  // ----- Unit independence -----

  // The same market quoted in other units: prices times c, volumes times d.
  ghost predicate Requoted(c: real, d: real, ks: seq<Kline>, ks': seq<Kline>) {
    && |ks| == |ks'|
    && forall i :: 0 <= i < |ks| ==>
                     && Product(c, ks[i].high, ks'[i].high)
                     && Product(c, ks[i].low, ks'[i].low)
                     && Product(c, ks[i].close, ks'[i].close)
                     && Product(d, ks[i].volume, ks'[i].volume)
  }

  lemma CompareScales(c: real, a: real, b: real, ca: real, cb: real)
    requires c > 0.0 && Product(c, a, ca) && Product(c, b, cb)
    ensures ca > cb <==> a > b
    ensures ca >= cb <==> a >= b
  {
    if a > b {
      MulMonoStrict(b, a, c, cb, ca);
    } else if a < b {
      MulMonoStrict(a, b, c, ca, cb);
    }
  }

  lemma TrendUnitFree(c: real, e20: real, e50: real, last: real, e20': real, e50': real, last': real)
    requires c > 0.0 && Product(c, e20, e20') && Product(c, e50, e50') && Product(c, last, last')
    ensures TrendOf(e20', e50', last') == TrendOf(e20, e50, last)
  {
    CompareScales(c, e20, e50 * 1.002, e20', e50' * 1.002);
    CompareScales(c, e50 * 0.998, e20, e50' * 0.998, e20');
    CompareScales(c, last, e20, last', e20');
    CompareScales(c, e20, last, e20', last');
  }

  lemma QuotientUnitFree(c: real, a: real, b: real, ca: real, cb: real)
    requires c > 0.0 && Product(c, a, ca) && Product(c, b, cb)
    ensures cb > 0.0 <==> b > 0.0
    ensures b > 0.0 ==> Quotient(ca, cb) == Quotient(a, b)
  {
    CompareScales(c, b, 0.0, cb, 0.0);
    if b > 0.0 {
      DivCommonFactor(a, b, c);
    }
  }

  lemma PricesRescaled(c: real, d: real, ks: seq<Kline>, ks': seq<Kline>)
    requires Requoted(c, d, ks, ks')
    ensures Rescaled(c, Closes(ks), Closes(ks'))
    ensures Rescaled(c, Highs(ks), Highs(ks'))
    ensures Rescaled(c, Lows(ks), Lows(ks'))
    ensures Rescaled(d, Volumes(ks), Volumes(ks'))
  {
  }

  lemma LastRsiUnitFree(c: real, d: real, ks: seq<Kline>, ks': seq<Kline>)
    requires c > 0.0 && Requoted(c, d, ks, ks') && |ks| >= 52
    ensures LastRsi(ks') == LastRsi(ks)
  {
    PricesRescaled(c, d, ks, ks');
    RsiUnitFree(c, Closes(ks), Closes(ks'), 14, |ks| - 1);
  }

  lemma LastTrendUnitFree(c: real, d: real, ks: seq<Kline>, ks': seq<Kline>)
    requires c > 0.0 && Requoted(c, d, ks, ks') && |ks| >= 52
    ensures LastTrend(ks') == LastTrend(ks)
  {
    PricesRescaled(c, d, ks, ks');
    var i, xs, ys := |ks| - 1, Closes(ks), Closes(ks');
    EmaScales(c, xs, ys, 20, i);
    EmaScales(c, xs, ys, 50, i);
    TrendUnitFree(c, EmaAt(xs, 20, i), EmaAt(xs, 50, i), xs[i], EmaAt(ys, 20, i), EmaAt(ys, 50, i), ys[i]);
  }

  lemma LastVolatilityUnitFree(c: real, d: real, ks: seq<Kline>, ks': seq<Kline>)
    requires c > 0.0 && Requoted(c, d, ks, ks') && |ks| >= 52
    ensures LastVolatilityPct(ks') == LastVolatilityPct(ks)
  {
    PricesRescaled(c, d, ks, ks');
    var i, xs, ys := |ks| - 1, Closes(ks), Closes(ks');
    AtrScales(c, Highs(ks), Lows(ks), xs, Highs(ks'), Lows(ks'), ys, 14, i);
    QuotientUnitFree(c, AtrAt(Highs(ks), Lows(ks), xs, 14, i), xs[i], AtrAt(Highs(ks'), Lows(ks'), ys, 14, i), ys[i]);
  }

  lemma LastVolumeUnitFree(c: real, d: real, ks: seq<Kline>, ks': seq<Kline>)
    requires d > 0.0 && Requoted(c, d, ks, ks') && |ks| >= 52
    ensures LastVolumeRatio(ks') == LastVolumeRatio(ks)
  {
    PricesRescaled(c, d, ks, ks');
    var n, xs, ys := |ks|, Volumes(ks), Volumes(ks');
    MeanScales(d, xs, ys, n - 20, n);
    QuotientUnitFree(d, xs[n - 1], Mean(xs, n - 20, n), ys[n - 1], Mean(ys, n - 20, n));
  }

  // Quoting every price and every volume in other units changes nothing the engine
  // returns: not the action, the confidence, the threshold, nor any feature.
  lemma ScoreUnitFree(c: real, d: real, ks: seq<Kline>, ks': seq<Kline>)
    requires c > 0.0 && d > 0.0 && Requoted(c, d, ks, ks')
    ensures Score(ks') == Score(ks)
  {
    if |ks| >= 52 {
      LastRsiUnitFree(c, d, ks, ks');
      LastTrendUnitFree(c, d, ks, ks');
      LastVolatilityUnitFree(c, d, ks, ks');
      LastVolumeUnitFree(c, d, ks, ks');
    }
  }

  // ----- What every signal satisfies -----

  // The required confidence lies in [0.05, 0.1528] and the separation margin in
  // [0.003, 0.01446]: the upper clamps are never reached.
  lemma ThresholdRange(volatilityPct: Option<real>, volumeRatio: Option<real>)
    ensures 0.05 <= MinConfidence(volatilityPct, volumeRatio) <= 0.1528
    ensures 0.003 <= Margin(volatilityPct, volumeRatio) <= 0.01446
  {
    assert 0.0 <= Chop(volatilityPct) <= 1.0;
    assert 0.18 <= Flow(volumeRatio) <= 1.0 by {
      if volumeRatio.Some? {
        assert 0.4 <= Min(Max(volumeRatio.value, 0.4), 2.2) <= 2.2;
      }
    }
  }

  // A directional signal clears its floor and beats the other side by the margin; the
  // confidence is a probability.
  lemma SignalSound(ks: seq<Kline>)
    requires Score(ks).Some?
    ensures var s := Score(ks).value;
            && 0.0 <= s.confidence <= 1.0 && 0.0 <= s.rsi <= 100.0
            && (s.action != HOLD ==> s.confidence >= s.minConfidenceRequired >= ABSOLUTE_SIGNAL_FLOOR)
            && (s.action == BUY ==> s.confidence > SellScore(s.rsi, s.trend, s.volatilityPct, s.volumeRatio))
            && (s.action == SELL ==> s.confidence > BuyScore(s.rsi, s.trend, s.volatilityPct, s.volumeRatio))
  {
    var s := Score(ks).value;
    RsiRange(Closes(ks), 14, |ks| - 1);
    ThresholdRange(s.volatilityPct, s.volumeRatio);
  }
}
