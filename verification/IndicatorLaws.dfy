// What the indicators measure, apart from how they are computed.
module IndicatorLaws {
  import opened Common
  import opened Indicators

  // ----- RSI -----

  // RSI is the share of the rises in all movement, in percent.
  lemma RsiIsShareOfRises(gain: real, loss: real)
    requires gain >= 0.0 && loss >= 0.0 && gain + loss > 0.0
    ensures Product(RsiFrom(gain, loss), gain + loss, 100.0 * gain)
  {
    if loss > 0.0 {
      RelativeStrength(gain, loss);
      var rs := gain / loss;
      assert rs * loss == gain;
      ShareOf(rs, loss, gain + loss, RsiFrom(gain, loss), 100.0 / (1.0 + rs));
    }
  }

  lemma ShareOf(rs: real, loss: real, all: real, rsi: real, rest: real)
    requires rs >= 0.0 && all == (1.0 + rs) * loss && rest * (1.0 + rs) == 100.0 && rsi == 100.0 - rest
    ensures Product(rsi, all, 100.0 * (rs * loss))
  {
    assert rest * all == (rest * (1.0 + rs)) * loss;
  }

  // More rises never lower it, and more falls never raise it.
  lemma RsiMonotone(gain: real, loss: real, gain': real, loss': real)
    requires 0.0 <= gain <= gain' && 0.0 <= loss' <= loss && gain + loss > 0.0
    ensures RsiFrom(gain, loss) <= RsiFrom(gain', loss')
  {
    if gain' + loss' > 0.0 {
      RsiIsShareOfRises(gain, loss);
      RsiIsShareOfRises(gain', loss');
      SharesCompare(gain, loss, gain', loss', RsiFrom(gain, loss), RsiFrom(gain', loss'));
    }
  }

  lemma SharesCompare(gain: real, loss: real, gain': real, loss': real, r: real, r': real)
    requires 0.0 <= gain <= gain' && 0.0 <= loss' <= loss && gain + loss > 0.0 && gain' + loss' > 0.0
    requires Product(r, gain + loss, 100.0 * gain) && Product(r', gain' + loss', 100.0 * gain')
    ensures r <= r'
  {
    var all, all' := gain + loss, gain' + loss';
    var cross, cross' := gain * loss', gain' * loss;
    MulMono(gain, gain', loss', cross, gain' * loss');
    MulMono(loss', loss, gain', gain' * loss', cross');
    var x, x' := r * all * all', r' * all' * all;
    assert x == 100.0 * (gain * gain' + cross) && x' == 100.0 * (gain * gain' + cross');
    if r > r' {
      var w := all * all';
      MulMonoStrict(0.0, all, all', 0.0, w);
      MulMonoStrict(r', r, w, x', x);
    }
  }

  ghost predicate NeverFalls(c: seq<real>) {
    forall i :: 1 <= i < |c| ==> c[i - 1] <= c[i]
  }

  ghost predicate NeverRises(c: seq<real>) {
    forall i :: 1 <= i < |c| ==> c[i] <= c[i - 1]
  }

  lemma {:induction false} SumOfZeros(xs: seq<real>, lo: nat, hi: nat)
    requires lo <= hi <= |xs| && forall i :: lo <= i < hi ==> xs[i] == 0.0
    ensures Sum(xs, lo, hi) == 0.0
  {
    if lo == hi {
    } else {
      SumOfZeros(xs, lo, hi - 1);
    }
  }

  lemma {:induction false} WilderOfZeros(xs: seq<real>, period: nat, i: nat)
    requires 1 <= period <= i < |xs| && forall j :: 1 <= j <= i ==> xs[j] == 0.0
    ensures Wilder(xs, period, i) == 0.0
  {
    if i == period {
      SumOfZeros(xs, 1, period + 1);
    } else {
      WilderOfZeros(xs, period, i - 1);
    }
  }

  // Without a fall RSI reads 100, also when nothing moved at all.
  lemma NeverFallingReads100(c: seq<real>, period: nat, i: nat)
    requires 1 <= period <= i < |c| && NeverFalls(c)
    ensures RsiAt(c, period, i) == 100.0
  {
    AveragesNonNegative(c, period, i);
    forall j | 1 <= j <= i
      ensures Losses(c)[j] == 0.0
    {
      LossesAt(c, j);
    }
    WilderOfZeros(Losses(c), period, i);
  }

  lemma {:induction false} WilderPositive(xs: seq<real>, period: nat, i: nat, j: nat)
    requires 2 <= period <= i < |xs| && NonNegative(xs) && 1 <= j <= i && xs[j] > 0.0
    ensures Wilder(xs, period, i) > 0.0
  {
    WilderNonNegative(xs, period, i);
    if i == period {
      SumNonNegative(xs, 1, period + 1);
      NonNegativeQuotient(Sum(xs, 1, period + 1), period as real);
    } else {
      WilderNonNegative(xs, period, i - 1);
      if j < i {
        WilderPositive(xs, period, i - 1, j);
      }
      StepPositive(xs[i], Wilder(xs, period, i - 1), period as real);
    }
  }

  lemma StepPositive(x: real, prev: real, period: real)
    requires period >= 2.0 && x >= 0.0 && prev >= 0.0 && (x > 0.0 || prev > 0.0)
    ensures WilderStep(x, prev, period) > 0.0
  {
    var kept := prev * (period - 1.0);
    MulMono(0.0, prev, period - 1.0, 0.0, kept);
    if prev > 0.0 {
      MulMonoStrict(0.0, prev, period - 1.0, 0.0, kept);
    }
    var w := WilderStep(x, prev, period);
    assert w * period == kept + x;
  }

  // Without a rise, and with a fall, it reads 0.
  lemma NeverRisingReads0(c: seq<real>, period: nat, i: nat, j: nat)
    requires 2 <= period <= i < |c| && NeverRises(c) && 1 <= j <= i && c[j] < c[j - 1]
    ensures RsiAt(c, period, i) == 0.0
  {
    AveragesNonNegative(c, period, i);
    forall k | 1 <= k <= i
      ensures Gains(c)[k] == 0.0
    {
      GainsAt(c, k);
    }
    WilderOfZeros(Gains(c), period, i);
    LossesAt(c, j);
    WilderPositive(Losses(c), period, i, j);
    RsiIsShareOfRises(Wilder(Gains(c), period, i), Wilder(Losses(c), period, i));
  }

  // ----- EMA -----

  // a + b * i, as a series.
  ghost predicate Ramp(v: seq<real>, a: real, b: real) {
    forall i :: 0 <= i < |v| ==> v[i] == a + Worth(b, i as real)
  }

  function Worth(b: real, x: real): real {
    b * x
  }

  lemma {:induction false} RampSum(v: seq<real>, a: real, b: real, n: nat)
    requires Ramp(v, a, b) && n <= |v|
    ensures Sum(v, 0, n) == a * n as real + b * (n as real * (n as real - 1.0) / 2.0)
  {
    if n == 0 {
    } else {
      RampSum(v, a, b, n - 1);
      var x := n as real - 1.0;
      assert v[n - 1] == a + b * x;
      RampTerm(a, b, x);
    }
  }

  lemma RampTerm(a: real, b: real, x: real)
    ensures a * x + b * (x * (x - 1.0) / 2.0) + (a + b * x) == a * (x + 1.0) + b * ((x + 1.0) * x / 2.0)
  {
  }

  // The rise of a line over (period - 1) / 2 steps.
  function Lag(b: real, p: real): real {
    b * ((p - 1.0) / 2.0)
  }

  // The EMA of a straight line lags (period - 1) / 2 steps behind it, from the seed on:
  // the weight 2 / (period + 1) is the one that keeps the seed's lag.
  lemma {:induction false} EmaLag(v: seq<real>, a: real, b: real, period: nat, i: nat)
    requires Ramp(v, a, b) && 1 <= period <= i + 1 <= |v|
    ensures EmaAt(v, period, i) == v[i] - Lag(b, period as real)
  {
    if i == period - 1 {
      RampSeed(v, a, b, period);
    } else {
      EmaLag(v, a, b, period, i - 1);
      RampStep(v, a, b, i);
      StepLag(v[i - 1], b, period as real, EmaWeight(period), v[i], EmaAt(v, period, i - 1));
    }
  }

  lemma RampStep(v: seq<real>, a: real, b: real, i: nat)
    requires Ramp(v, a, b) && 1 <= i < |v|
    ensures v[i] == v[i - 1] + b
  {
    OneMoreStep(b, (i - 1) as real);
  }

  lemma OneMoreStep(b: real, x: real)
    ensures Worth(b, x + 1.0) == Worth(b, x) + b
  {
  }

  lemma RampSeed(v: seq<real>, a: real, b: real, period: nat)
    requires Ramp(v, a, b) && 1 <= period <= |v|
    ensures Mean(v, 0, period) == v[period - 1] - Lag(b, period as real)
  {
    RampSum(v, a, b, period);
    SeedLag(a, b, period as real, Sum(v, 0, period), Mean(v, 0, period));
  }

  lemma SeedLag(a: real, b: real, p: real, sum: real, mean: real)
    requires p >= 1.0 && sum == a * p + b * (p * (p - 1.0) / 2.0) && mean == sum / p
    ensures mean == a + Worth(b, p - 1.0) - Lag(b, p)
  {
    assert mean * p == sum;
    var guess := a + b * ((p - 1.0) / 2.0);
    assert guess * p == sum;
    MulCancel(guess, p);
  }

  lemma StepLag(x: real, b: real, p: real, k: real, x': real, prev: real)
    requires p >= 1.0 && k == 2.0 / (p + 1.0) && x' == x + b && prev == x - Lag(b, p)
    ensures EmaStep(x', prev, k) == x' - Lag(b, p)
  {
    assert k * (p + 1.0) == 2.0;
    var half := b * ((p + 1.0) / 2.0);
    assert prev == x' - half && half == Lag(b, p) + b;
    assert half * k == b * (k * (p + 1.0)) / 2.0;
    assert EmaStep(x', prev, k) == x' - half + half * k;
  }

  // ----- Wilder smoothing -----

  // A constant input closes one period-th of the gap with every step.
  lemma GapShrinks(x: real, prev: real, period: real)
    requires period > 0.0
    ensures Product(WilderStep(x, prev, period) - x, period, (prev - x) * (period - 1.0))
  {
    var w := WilderStep(x, prev, period);
    assert w * period == prev * (period - 1.0) + x;
  }

  // It never leaves the range of its inputs.
  lemma {:induction false} WilderBounds(xs: seq<real>, period: nat, i: nat, least: real, most: real)
    requires 1 <= period <= i < |xs| && forall j :: 1 <= j <= i ==> least <= xs[j] <= most
    ensures least <= Wilder(xs, period, i) <= most
  {
    if i == period {
      MeanBounds(xs, 1, period + 1, least, most);
    } else {
      WilderBounds(xs, period, i - 1, least, most);
      StepBetween(xs[i], Wilder(xs, period, i - 1), period as real, least, most);
    }
  }

  lemma StepBetween(x: real, prev: real, period: real, least: real, most: real)
    requires period >= 1.0 && least <= x <= most && least <= prev <= most
    ensures least <= WilderStep(x, prev, period) <= most
  {
    var w, kept := WilderStep(x, prev, period), prev * (period - 1.0);
    assert w * period == kept + x;
    MulMono(least, prev, period - 1.0, least * (period - 1.0), kept);
    MulMono(prev, most, period - 1.0, kept, most * (period - 1.0));
    QuotientBetween(kept + x, period, least, most);
  }

  // ----- True range -----

  // The true range is the span of the bar together with the close before it.
  lemma TrueRangeIsSpan(high: real, low: real, prevClose: real)
    requires low <= high
    ensures TrueRange(high, low, prevClose) == Max(high, prevClose) - Min(low, prevClose)
  {
  }
}
