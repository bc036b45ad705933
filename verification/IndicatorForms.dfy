// The last-value indicators of the council's technical voter.
module TechnicalIndicators {
  import opened Common
  import opened Indicators

  method Ema(values: seq<real>, period: nat) returns (r: Option<real>)
    requires period >= 1
    ensures r == if |values| < period then None else Some(EmaAt(values, period, |values| - 1))
  {
    if |values| < period {
      return None;
    }
    var k := 2.0 / (period as real + 1.0);
    var total := 0.0;
    for i := 0 to period
      invariant total == Sum(values, 0, i)
    {
      total := total + values[i];
    }
    var out := total / period as real;
    for i := period to |values|
      invariant out == EmaAt(values, period, i - 1)
    {
      out := EmaStep(values[i], out, k);
    }
    return Some(out);
  }

  method SmoothMoves(closes: seq<real>, ghost up: seq<real>, ghost down: seq<real>, period: nat)
      returns (avgGain: real, avgLoss: real)
    requires 1 <= period < |closes| && Moves(closes, up, down)
    ensures avgGain == Wilder(up, period, |closes| - 1) && avgLoss == Wilder(down, period, |closes| - 1)
  {
    var gains, losses := 0.0, 0.0;
    for i := 1 to period + 1
      invariant gains == Sum(up, 1, i) && losses == Sum(down, 1, i)
    {
      var d := closes[i] - closes[i - 1];
      if d >= 0.0 {
        gains := gains + d;
      } else {
        losses := losses - d;
      }
    }
    avgGain, avgLoss := gains / period as real, losses / period as real;
    for i := period + 1 to |closes|
      invariant avgGain == Wilder(up, period, i - 1) && avgLoss == Wilder(down, period, i - 1)
    {
      var d := closes[i] - closes[i - 1];
      avgGain := WilderStep(Max(0.0, d), avgGain, period as real);
      avgLoss := WilderStep(Max(0.0, -d), avgLoss, period as real);
    }
  }

  method Rsi(closes: seq<real>, period: nat) returns (r: Option<real>)
    requires period >= 1
    ensures r == if |closes| < period + 1 then None else Some(RsiAt(closes, period, |closes| - 1))
  {
    if |closes| < period + 1 {
      return None;
    }
    MovesOfCloses(closes);
    AveragesNonNegative(closes, period, |closes| - 1);
    var avgGain, avgLoss := SmoothMoves(closes, Gains(closes), Losses(closes), period);
    var value := FromAverages(avgGain, avgLoss);
    return Some(value);
  }

  method FromAverages(avgGain: real, avgLoss: real) returns (r: real)
    requires avgGain >= 0.0 && avgLoss >= 0.0
    ensures r == RsiFrom(avgGain, avgLoss)
  {
    if avgLoss == 0.0 {
      return 100.0;
    }
    RelativeStrength(avgGain, avgLoss);
    var rs := avgGain / avgLoss;
    return 100.0 - 100.0 / (1.0 + rs);
  }
}

// The simple-window RSI of the token alerts.
module DexSignalMath {
  import opened Common
  import opened Indicators

  // RSI over the last `period` moves only; a window without any move reads 50.
  ghost function WindowRsi(up: seq<real>, down: seq<real>, period: nat): real
    requires 1 <= period < |up| == |down| && NonNegative(up) && NonNegative(down)
  {
    var n := |up|;
    var gain, loss := Mean(up, n - period, n), Mean(down, n - period, n);
    MeanNonNegative(up, n - period, n);
    MeanNonNegative(down, n - period, n);
    if loss == 0.0 && gain == 0.0 then 50.0 else RsiFrom(gain, loss)
  }

  lemma MeanNonNegative(xs: seq<real>, lo: nat, hi: nat)
    requires lo < hi <= |xs| && NonNegative(xs)
    ensures Mean(xs, lo, hi) >= 0.0
    ensures Mean(xs, lo, hi) == 0.0 <==> Sum(xs, lo, hi) == 0.0
  {
    SumNonNegative(xs, lo, hi);
    NonNegativeQuotient(Sum(xs, lo, hi), (hi - lo) as real);
  }

  method WindowMoves(closes: seq<real>, ghost up: seq<real>, ghost down: seq<real>, period: nat)
      returns (gains: real, losses: real)
    requires 1 <= period < |closes| && Moves(closes, up, down)
    ensures gains == Sum(up, |closes| - period, |closes|) && losses == Sum(down, |closes| - period, |closes|)
  {
    gains, losses := 0.0, 0.0;
    for i := |closes| - period to |closes|
      invariant gains == Sum(up, |closes| - period, i) && losses == Sum(down, |closes| - period, i)
    {
      var delta := closes[i] - closes[i - 1];
      if delta >= 0.0 {
        gains := gains + delta;
      } else {
        losses := losses - delta;
      }
    }
  }

  method Rsi(closes: seq<real>, period: nat) returns (r: Option<real>)
    requires period >= 1
    ensures r == if |closes| < period + 1 then None else Some(WindowRsi(Gains(closes), Losses(closes), period))
  {
    if |closes| < period + 1 {
      return None;
    }
    ghost var n, up, down := |closes|, Gains(closes), Losses(closes);
    MovesOfCloses(closes);
    var gains, losses := WindowMoves(closes, up, down, period);
    var avgGain, avgLoss := gains / period as real, losses / period as real;
    MeanNonNegative(up, n - period, n);
    MeanNonNegative(down, n - period, n);
    var value := FromAverages(avgGain, avgLoss);
    return Some(value);
  }

  method FromAverages(avgGain: real, avgLoss: real) returns (r: real)
    requires avgGain >= 0.0 && avgLoss >= 0.0
    ensures r == if avgLoss == 0.0 && avgGain == 0.0 then 50.0 else RsiFrom(avgGain, avgLoss)
  {
    if avgLoss == 0.0 {
      return if avgGain == 0.0 then 50.0 else 100.0;
    }
    RelativeStrength(avgGain, avgLoss);
    var rs := avgGain / avgLoss;
    return 100.0 - 100.0 / (1.0 + rs);
  }
}

// The separately written indicators compute the same numbers.
module IndicatorAgreement {
  import opened Common
  import opened Indicators
  import opened IndicatorLaws
  import SignalEngine
  import TechnicalIndicators
  import DexSignalMath

  ghost predicate Flat(c: seq<real>) {
    forall i, j :: 0 <= i < j < |c| ==> c[i] == c[j]
  }

  lemma {:induction false} NoMovesIsFlat(c: seq<real>, up: seq<real>, down: seq<real>, n: nat)
    requires Moves(c, up, down) && 1 <= n <= |c|
    requires forall i :: 1 <= i < n ==> up[i] == 0.0 && down[i] == 0.0
    ensures forall i :: 0 <= i < n ==> c[i] == c[0]
  {
    if n == 1 {
    } else {
      NoMovesIsFlat(c, up, down, n - 1);
      assert up[n - 1] == 0.0 && down[n - 1] == 0.0;
    }
  }

  lemma {:induction false} FlatHasNoMoves(c: seq<real>, up: seq<real>, down: seq<real>, n: nat)
    requires Moves(c, up, down) && Flat(c) && 1 <= n <= |c|
    ensures Sum(up, 1, n) == 0.0 && Sum(down, 1, n) == 0.0
  {
    if n == 1 {
    } else {
      FlatHasNoMoves(c, up, down, n - 1);
      assert c[n - 2] == c[n - 1];
    }
  }

  // A series is flat exactly when it neither rises nor falls.
  lemma FlatIffNoMoves(c: seq<real>, up: seq<real>, down: seq<real>)
    requires Moves(c, up, down) && |c| >= 2
    ensures Flat(c) <==> Sum(up, 1, |c|) == 0.0 && Sum(down, 1, |c|) == 0.0
  {
    if Flat(c) {
      FlatHasNoMoves(c, up, down, |c|);
    }
    if Sum(up, 1, |c|) == 0.0 && Sum(down, 1, |c|) == 0.0 {
      SumNonNegative(up, 1, |c|);
      SumNonNegative(down, 1, |c|);
      NoMovesIsFlat(c, up, down, |c|);
    }
  }

  lemma WindowAgrees(c: seq<real>, up: seq<real>, down: seq<real>, period: nat)
    requires Moves(c, up, down) && 1 <= period && |c| == period + 1
    ensures DexSignalMath.WindowRsi(up, down, period) == RsiOf(up, down, period, period) <==> !Flat(c)
  {
    FlatIffNoMoves(c, up, down);
    DexSignalMath.MeanNonNegative(up, 1, period + 1);
    DexSignalMath.MeanNonNegative(down, 1, period + 1);
  }

  // On exactly period + 1 closes the window RSI is the Wilder RSI, except on a flat
  // series, where one reads 50 and the other 100.
  lemma WindowAgreesUnlessFlat(c: seq<real>, period: nat)
    requires 1 <= period && |c| == period + 1
    ensures DexSignalMath.WindowRsi(Gains(c), Losses(c), period) == RsiAt(c, period, period) <==> !Flat(c)
  {
    MovesOfCloses(c);
    WindowAgrees(c, Gains(c), Losses(c), period);
  }

  lemma FlatMoves(c: seq<real>, up: seq<real>, down: seq<real>, i: nat)
    requires Moves(c, up, down) && Flat(c) && 1 <= i < |c|
    ensures up[i] == 0.0 && down[i] == 0.0
  {
    assert c[i - 1] == c[i];
  }

  // On every flat series long enough to be read, the two readings are these.
  lemma FlatReadings(c: seq<real>, period: nat)
    requires 1 <= period < |c| && Flat(c)
    ensures DexSignalMath.WindowRsi(Gains(c), Losses(c), period) == 50.0 && RsiAt(c, period, |c| - 1) == 100.0
  {
    MovesOfCloses(c);
    FlatReadingsOf(c, Gains(c), Losses(c), period);
  }

  lemma FlatReadingsOf(c: seq<real>, up: seq<real>, down: seq<real>, period: nat)
    requires Moves(c, up, down) && 1 <= period < |c| && Flat(c)
    ensures DexSignalMath.WindowRsi(up, down, period) == 50.0 && RsiOf(up, down, period, |c| - 1) == 100.0
  {
    var n := |c|;
    forall i | 1 <= i < n
      ensures up[i] == 0.0 && down[i] == 0.0
    {
      FlatMoves(c, up, down, i);
    }
    SumOfZeros(up, n - period, n);
    SumOfZeros(down, n - period, n);
    DexSignalMath.MeanNonNegative(up, n - period, n);
    DexSignalMath.MeanNonNegative(down, n - period, n);
    WilderOfZeros(up, period, n - 1);
    WilderOfZeros(down, period, n - 1);
  }

  // The last entry of the EMA series is the last-value EMA, within the inputs' range.
  method CompareEma(values: seq<real>, period: nat, least: real, most: real)
      returns (series: SignalEngine.Series, last: Option<real>)
    requires period >= 1 && |values| >= 1
    requires forall i :: 0 <= i < |values| ==> least <= values[i] <= most
    ensures |series| == |values| && series[|values| - 1] == last
    ensures forall i :: 0 <= i < |series| && series[i].Some? ==> least <= series[i].value <= most
    ensures last.Some? <==> |values| >= period
  {
    series := SignalEngine.EmaSeries(values, period);
    last := TechnicalIndicators.Ema(values, period);
    forall i | 0 <= i < |series| && series[i].Some?
      ensures least <= series[i].value <= most
    {
      EmaBounds(values, period, i, least, most);
    }
  }

  // The last entry of the RSI series is the last-value RSI; with exactly period + 1
  // closes that are not all equal, it is the window RSI too.
  method CompareRsi(closes: seq<real>, period: nat)
      returns (series: SignalEngine.Series, last: Option<real>, window: Option<real>)
    requires period >= 1 && |closes| >= 1
    ensures |series| == |closes| && series[|closes| - 1] == last
    ensures last.Some? <==> |closes| > period
    ensures window.Some? <==> |closes| > period
    ensures |closes| == period + 1 ==> (window == last <==> !Flat(closes))
    ensures forall i :: 0 <= i < |series| && series[i].Some? ==> 0.0 <= series[i].value <= 100.0
  {
    series := SignalEngine.RsiSeries(closes, period);
    last := TechnicalIndicators.Rsi(closes, period);
    window := DexSignalMath.Rsi(closes, period);
    if |closes| == period + 1 {
      WindowAgreesUnlessFlat(closes, period);
    }
    forall i | 0 <= i < |series| && series[i].Some?
      ensures 0.0 <= series[i].value <= 100.0
    {
      RsiRange(closes, period, i);
    }
  }
}
