// Reference definitions of the moving averages, RSI and ATR, and what holds of them
// for every series: bounds, and behaviour under a change of units.
module Indicators {
  import opened Common

  // ----- Sums and means -----

  // s[lo] + ... + s[hi - 1]
  function Sum(s: seq<real>, lo: nat, hi: nat): real
    requires lo <= hi <= |s|
  {
    if lo == hi then 0.0 else Sum(s, lo, hi - 1) + s[hi - 1]
  }

  function Mean(s: seq<real>, lo: nat, hi: nat): real
    requires lo < hi <= |s|
  {
    Sum(s, lo, hi) / (hi - lo) as real
  }

  // ----- Smoothing -----

  function EmaWeight(period: nat): real
    requires period >= 1
  {
    2.0 / (period as real + 1.0)
  }

  function EmaStep(x: real, prev: real, k: real): real {
    x * k + prev * (1.0 - k)
  }

  function EmaAt(v: seq<real>, period: nat, i: nat): real
    requires 1 <= period <= i + 1 <= |v|
  {
    if i == period - 1 then Mean(v, 0, period)
    else EmaStep(v[i], EmaAt(v, period, i - 1), EmaWeight(period))
  }

  function WilderStep(x: real, prev: real, period: real): real
    requires period > 0.0
  {
    (prev * (period - 1.0) + x) / period
  }

  // Wilder smoothing of xs[1..]; xs[0] has no predecessor and is not read.
  function Wilder(xs: seq<real>, period: nat, i: nat): real
    requires 1 <= period <= i < |xs|
  {
    if i == period then Mean(xs, 1, period + 1)
    else WilderStep(xs[i], Wilder(xs, period, i - 1), period as real)
  }

  // ----- RSI -----

  function Gain(d: real): real {
    if d > 0.0 then d else 0.0
  }

  function Gains(c: seq<real>): (g: seq<real>)
    ensures |g| == |c| && NonNegative(g)
  {
    seq(|c|, i requires 0 <= i < |c| => if i == 0 then 0.0 else Gain(c[i] - c[i - 1]))
  }

  function Losses(c: seq<real>): (l: seq<real>)
    ensures |l| == |c| && NonNegative(l)
  {
    seq(|c|, i requires 0 <= i < |c| => if i == 0 then 0.0 else Gain(c[i - 1] - c[i]))
  }

  // An average loss of zero makes the relative strength infinite, hence 100.
  function RsiFrom(gain: real, loss: real): real
    requires gain >= 0.0 && loss >= 0.0
  {
    if loss == 0.0 then 100.0 else
      RelativeStrength(gain, loss);
      100.0 - 100.0 / (1.0 + gain / loss)
  }

  // up and down are the rises and falls of the closes c.
  ghost predicate Moves(c: seq<real>, up: seq<real>, down: seq<real>) {
    && |up| == |down| == |c|
    && (forall i {:trigger up[i]} :: 1 <= i < |c| ==> up[i] == Gain(c[i] - c[i - 1]))
    && (forall i {:trigger down[i]} :: 1 <= i < |c| ==> down[i] == Gain(c[i - 1] - c[i]))
    && NonNegative(up) && NonNegative(down)
  }

  ghost predicate NonNegative(xs: seq<real>) {
    forall i :: 0 <= i < |xs| ==> xs[i] >= 0.0
  }

  ghost function RsiOf(up: seq<real>, down: seq<real>, period: nat, i: nat): real
    requires |up| == |down| && NonNegative(up) && NonNegative(down) && 1 <= period <= i < |up|
  {
    WilderNonNegative(up, period, i);
    WilderNonNegative(down, period, i);
    RsiFrom(Wilder(up, period, i), Wilder(down, period, i))
  }

  ghost function RsiAt(c: seq<real>, period: nat, i: nat): real
    requires 1 <= period <= i < |c|
  {
    RsiOf(Gains(c), Losses(c), period, i)
  }

  lemma MovesOfCloses(c: seq<real>)
    ensures Moves(c, Gains(c), Losses(c))
  {
    forall i | 1 <= i < |c|
      ensures Gains(c)[i] == Gain(c[i] - c[i - 1])
    {
      GainsAt(c, i);
    }
    forall i | 1 <= i < |c|
      ensures Losses(c)[i] == Gain(c[i - 1] - c[i])
    {
      LossesAt(c, i);
    }
  }

  lemma GainsAt(c: seq<real>, i: nat)
    requires 1 <= i < |c|
    ensures Gains(c)[i] == Gain(c[i] - c[i - 1])
  {
  }

  lemma LossesAt(c: seq<real>, i: nat)
    requires 1 <= i < |c|
    ensures Losses(c)[i] == Gain(c[i - 1] - c[i])
  {
  }

  // ----- ATR -----

  function TrueRange(high: real, low: real, prevClose: real): real {
    Max(Max(high - low, Abs(high - prevClose)), Abs(low - prevClose))
  }

  function TrueRanges(high: seq<real>, low: seq<real>, close: seq<real>): (t: seq<real>)
    requires |high| == |low| == |close|
    ensures |t| == |close|
  {
    seq(|close|, i requires 0 <= i < |close| => if i == 0 then 0.0 else TrueRange(high[i], low[i], close[i - 1]))
  }

  function AtrAt(high: seq<real>, low: seq<real>, close: seq<real>, period: nat, i: nat): real
    requires |high| == |low| == |close| && 1 <= period <= i < |close|
  {
    Wilder(TrueRanges(high, low, close), period, i)
  }

  // ----- Bounds -----

  lemma RelativeStrength(gain: real, loss: real)
    requires gain >= 0.0 && loss > 0.0
    ensures gain / loss >= 0.0
  {
  }

  lemma {:induction false} SumBounds(s: seq<real>, lo: nat, hi: nat, least: real, most: real)
    requires lo <= hi <= |s|
    requires forall i :: lo <= i < hi ==> least <= s[i] <= most
    ensures least * (hi - lo) as real <= Sum(s, lo, hi)
    ensures Sum(s, lo, hi) <= most * (hi - lo) as real
  {
    if lo == hi {
    } else {
      SumBounds(s, lo, hi - 1, least, most);
      OneMore(least, (hi - 1 - lo) as real);
      OneMore(most, (hi - 1 - lo) as real);
    }
  }

  lemma OneMore(x: real, n: real)
    ensures x * (n + 1.0) == x * n + x
  {
  }

  lemma MeanBounds(s: seq<real>, lo: nat, hi: nat, least: real, most: real)
    requires lo < hi <= |s|
    requires forall i :: lo <= i < hi ==> least <= s[i] <= most
    ensures least <= Mean(s, lo, hi) <= most
  {
    SumBounds(s, lo, hi, least, most);
    QuotientBetween(Sum(s, lo, hi), (hi - lo) as real, least, most);
  }

  lemma QuotientBetween(a: real, n: real, least: real, most: real)
    requires n > 0.0 && least * n <= a && a <= most * n
    ensures least <= Quotient(a, n) <= most
  {
    DivCompare(a, n, least, least * n);
    DivCompare(a, n, most, most * n);
  }

  // A weighted average stays between its operands' bounds.
  lemma EmaStepBounds(x: real, prev: real, k: real, least: real, most: real)
    requires 0.0 < k && !(k > 1.0) && least <= x <= most && least <= prev <= most
    ensures least <= EmaStep(x, prev, k) <= most
  {
    var xk, pk := x * k, prev * (1.0 - k);
    var lk, lk', mk, mk' := least * k, least * (1.0 - k), most * k, most * (1.0 - k);
    MulMono(least, x, k, lk, xk);
    MulMono(x, most, k, xk, mk);
    MulMono(least, prev, 1.0 - k, lk', pk);
    MulMono(prev, most, 1.0 - k, pk, mk');
    assert lk + lk' == least && mk + mk' == most;
  }

  lemma EmaWeightRange(period: nat)
    requires period >= 1
    ensures 0.0 < EmaWeight(period)
    ensures !(EmaWeight(period) > 1.0)
  {
    DivCompare(2.0, period as real + 1.0, 1.0, period as real + 1.0);
  }

  // An EMA never leaves the range of its inputs.
  lemma {:induction false} EmaBounds(v: seq<real>, period: nat, i: nat, least: real, most: real)
    requires 1 <= period <= i + 1 <= |v|
    requires forall j :: 0 <= j <= i ==> least <= v[j] <= most
    ensures least <= EmaAt(v, period, i) <= most
  {
    if i == period - 1 {
      MeanBounds(v, 0, period, least, most);
    } else {
      EmaBounds(v, period, i - 1, least, most);
      EmaWeightRange(period);
      EmaStepBounds(v[i], EmaAt(v, period, i - 1), EmaWeight(period), least, most);
    }
  }

  lemma {:induction false} SumNonNegative(s: seq<real>, lo: nat, hi: nat)
    requires lo <= hi <= |s|
    requires forall i :: lo <= i < hi ==> s[i] >= 0.0
    ensures Sum(s, lo, hi) >= 0.0
    ensures Sum(s, lo, hi) == 0.0 ==> forall i :: lo <= i < hi ==> s[i] == 0.0
  {
    if lo == hi {
    } else {
      SumNonNegative(s, lo, hi - 1);
    }
  }

  lemma NonNegativeQuotient(a: real, n: real)
    requires a >= 0.0 && n > 0.0
    ensures a / n >= 0.0
    ensures a / n == 0.0 <==> a == 0.0
  {
    var q := a / n;
    assert q * n == a;
  }

  lemma NonNegativeProduct(a: real, b: real)
    requires a >= 0.0 && b >= 0.0
    ensures a * b >= 0.0
  {
  }

  lemma {:induction false} WilderNonNegative(xs: seq<real>, period: nat, i: nat)
    requires 1 <= period <= i < |xs|
    requires NonNegative(xs)
    ensures Wilder(xs, period, i) >= 0.0
  {
    if i == period {
      SumNonNegative(xs, 1, period + 1);
      NonNegativeQuotient(Sum(xs, 1, period + 1), period as real);
    } else {
      WilderNonNegative(xs, period, i - 1);
      var prev := Wilder(xs, period, i - 1);
      NonNegativeProduct(prev, period as real - 1.0);
      NonNegativeQuotient(prev * (period as real - 1.0) + xs[i], period as real);
    }
  }

  lemma AveragesNonNegative(c: seq<real>, period: nat, i: nat)
    requires 1 <= period <= i < |c|
    ensures Wilder(Gains(c), period, i) >= 0.0 && Wilder(Losses(c), period, i) >= 0.0
  {
    WilderNonNegative(Gains(c), period, i);
    WilderNonNegative(Losses(c), period, i);
  }

  lemma RsiFromRange(gain: real, loss: real)
    requires gain >= 0.0 && loss >= 0.0
    ensures 0.0 <= RsiFrom(gain, loss) <= 100.0
  {
    if loss > 0.0 {
      RelativeStrength(gain, loss);
      var d := 1.0 + gain / loss;
      DivCompare(100.0, d, 100.0, 100.0 * d);
      NonNegativeQuotient(100.0, d);
    }
  }

  // RSI is always between 0 and 100.
  lemma RsiRange(c: seq<real>, period: nat, i: nat)
    requires 1 <= period <= i < |c|
    ensures 0.0 <= RsiAt(c, period, i) <= 100.0
  {
    AveragesNonNegative(c, period, i);
    RsiFromRange(Wilder(Gains(c), period, i), Wilder(Losses(c), period, i));
  }

  // ----- Change of units -----

  // ys is xs with every entry multiplied by c.
  ghost predicate Rescaled(c: real, xs: seq<real>, ys: seq<real>) {
    |xs| == |ys| && forall i :: 0 <= i < |xs| ==> Product(c, xs[i], ys[i])
  }

  lemma {:induction false} SumScales(c: real, xs: seq<real>, ys: seq<real>, lo: nat, hi: nat)
    requires Rescaled(c, xs, ys) && lo <= hi <= |xs|
    ensures Product(c, Sum(xs, lo, hi), Sum(ys, lo, hi))
  {
    if lo == hi {
    } else {
      SumScales(c, xs, ys, lo, hi - 1);
      SumOfProducts(c, Sum(xs, lo, hi - 1), xs[hi - 1], Sum(ys, lo, hi - 1), ys[hi - 1]);
    }
  }

  lemma SumOfProducts(c: real, a: real, b: real, ca: real, cb: real)
    requires Product(c, a, ca) && Product(c, b, cb)
    ensures Product(c, a + b, ca + cb)
  {
  }

  lemma QuotientOfProduct(c: real, a: real, n: real, ca: real)
    requires n > 0.0 && Product(c, a, ca)
    ensures Product(c, a / n, ca / n)
  {
    var q := a / n;
    assert q * n == a;
    assert ca == (c * q) * n;
    MulCancel(c * q, n);
  }

  lemma MeanScales(c: real, xs: seq<real>, ys: seq<real>, lo: nat, hi: nat)
    requires Rescaled(c, xs, ys) && lo < hi <= |xs|
    ensures Product(c, Mean(xs, lo, hi), Mean(ys, lo, hi))
  {
    SumScales(c, xs, ys, lo, hi);
    QuotientOfProduct(c, Sum(xs, lo, hi), (hi - lo) as real, Sum(ys, lo, hi));
  }

  lemma EmaStepScales(c: real, x: real, prev: real, k: real, cx: real, cprev: real)
    requires Product(c, x, cx) && Product(c, prev, cprev)
    ensures Product(c, EmaStep(x, prev, k), EmaStep(cx, cprev, k))
  {
  }

  lemma {:induction false} EmaScales(c: real, xs: seq<real>, ys: seq<real>, period: nat, i: nat)
    requires Rescaled(c, xs, ys) && 1 <= period <= i + 1 <= |xs|
    ensures Product(c, EmaAt(xs, period, i), EmaAt(ys, period, i))
  {
    if i == period - 1 {
      MeanScales(c, xs, ys, 0, period);
    } else {
      EmaScales(c, xs, ys, period, i - 1);
      EmaStepScales(c, xs[i], EmaAt(xs, period, i - 1), EmaWeight(period), ys[i], EmaAt(ys, period, i - 1));
    }
  }

  lemma WilderStepScales(c: real, x: real, prev: real, period: real, cx: real, cprev: real)
    requires period > 0.0 && Product(c, x, cx) && Product(c, prev, cprev)
    ensures Product(c, WilderStep(x, prev, period), WilderStep(cx, cprev, period))
  {
    var a := prev * (period - 1.0) + x;
    var ca := cprev * (period - 1.0) + cx;
    assert Product(c, a, ca);
    QuotientOfProduct(c, a, period, ca);
  }

  lemma {:induction false} WilderScales(c: real, xs: seq<real>, ys: seq<real>, period: nat, i: nat)
    requires Rescaled(c, xs, ys) && 1 <= period <= i < |xs|
    ensures Product(c, Wilder(xs, period, i), Wilder(ys, period, i))
  {
    if i == period {
      MeanScales(c, xs, ys, 1, period + 1);
    } else {
      WilderScales(c, xs, ys, period, i - 1);
      WilderStepScales(c, xs[i], Wilder(xs, period, i - 1), period as real, ys[i], Wilder(ys, period, i - 1));
    }
  }

  lemma GainScales(c: real, a: real, b: real, ca: real, cb: real)
    requires c > 0.0 && Product(c, a, ca) && Product(c, b, cb)
    ensures Product(c, Gain(a - b), Gain(ca - cb))
  {
    var d, cd := a - b, ca - cb;
    assert Product(c, d, cd);
    if d > 0.0 {
      MulMonoStrict(0.0, d, c, 0.0, cd);
    } else {
      MulMono(d, 0.0, c, cd, 0.0);
    }
  }

  lemma GainsScale(c: real, xs: seq<real>, ys: seq<real>)
    requires c > 0.0 && Rescaled(c, xs, ys)
    ensures Rescaled(c, Gains(xs), Gains(ys)) && Rescaled(c, Losses(xs), Losses(ys))
  {
    forall i | 0 <= i < |xs|
      ensures Product(c, Gains(xs)[i], Gains(ys)[i]) && Product(c, Losses(xs)[i], Losses(ys)[i])
    {
      if i > 0 {
        GainScales(c, xs[i], xs[i - 1], ys[i], ys[i - 1]);
        GainScales(c, xs[i - 1], xs[i], ys[i - 1], ys[i]);
      }
    }
  }

  lemma RsiFromScales(c: real, gain: real, loss: real, cgain: real, closs: real)
    requires c > 0.0 && gain >= 0.0 && loss >= 0.0 && Product(c, gain, cgain) && Product(c, loss, closs)
    ensures cgain >= 0.0 && closs >= 0.0
    ensures RsiFrom(cgain, closs) == RsiFrom(gain, loss)
  {
    NonNegativeProduct(c, gain);
    NonNegativeProduct(c, loss);
    if loss > 0.0 {
      MulMonoStrict(0.0, loss, c, 0.0, closs);
      DivCommonFactor(gain, loss, c);
    }
  }

  // RSI does not depend on the price unit.
  lemma RsiUnitFree(c: real, xs: seq<real>, ys: seq<real>, period: nat, i: nat)
    requires c > 0.0 && Rescaled(c, xs, ys) && 1 <= period <= i < |xs|
    ensures RsiAt(ys, period, i) == RsiAt(xs, period, i)
  {
    GainsScale(c, xs, ys);
    WilderScales(c, Gains(xs), Gains(ys), period, i);
    WilderScales(c, Losses(xs), Losses(ys), period, i);
    AveragesNonNegative(xs, period, i);
    RsiFromScales(c, Wilder(Gains(xs), period, i), Wilder(Losses(xs), period, i),
                  Wilder(Gains(ys), period, i), Wilder(Losses(ys), period, i));
  }

  lemma AbsScales(c: real, a: real, b: real, ca: real, cb: real)
    requires c > 0.0 && Product(c, a, ca) && Product(c, b, cb)
    ensures Product(c, Abs(a - b), Abs(ca - cb))
  {
    var d, cd := a - b, ca - cb;
    assert Product(c, d, cd);
    if d > 0.0 {
      MulMonoStrict(0.0, d, c, 0.0, cd);
    } else {
      MulMono(d, 0.0, c, cd, 0.0);
    }
  }

  lemma MaxScales(c: real, a: real, b: real, ca: real, cb: real)
    requires c > 0.0 && Product(c, a, ca) && Product(c, b, cb)
    ensures Product(c, Max(a, b), Max(ca, cb))
  {
    if a > b {
      MulMonoStrict(b, a, c, cb, ca);
    } else {
      MulMono(a, b, c, ca, cb);
    }
  }

  lemma TrueRangeScales(c: real, h: real, l: real, p: real, ch: real, cl: real, cp: real)
    requires c > 0.0 && Product(c, h, ch) && Product(c, l, cl) && Product(c, p, cp)
    ensures Product(c, TrueRange(h, l, p), TrueRange(ch, cl, cp))
  {
    assert Product(c, h - l, ch - cl);
    AbsScales(c, h, p, ch, cp);
    AbsScales(c, l, p, cl, cp);
    MaxScales(c, h - l, Abs(h - p), ch - cl, Abs(ch - cp));
    MaxScales(c, Max(h - l, Abs(h - p)), Abs(l - p), Max(ch - cl, Abs(ch - cp)), Abs(cl - cp));
  }

  // ATR is measured in price units.
  lemma AtrScales(c: real, h: seq<real>, l: seq<real>, p: seq<real>, h': seq<real>, l': seq<real>, p': seq<real>,
                  period: nat, i: nat)
    requires c > 0.0 && Rescaled(c, h, h') && Rescaled(c, l, l') && Rescaled(c, p, p')
    requires |h| == |l| == |p| && 1 <= period <= i < |p|
    ensures Product(c, AtrAt(h, l, p, period, i), AtrAt(h', l', p', period, i))
  {
    forall j | 0 <= j < |p|
      ensures Product(c, TrueRanges(h, l, p)[j], TrueRanges(h', l', p')[j])
    {
      if j > 0 {
        TrueRangeScales(c, h[j], l[j], p[j - 1], h'[j], l'[j], p'[j - 1]);
      }
    }
    WilderScales(c, TrueRanges(h, l, p), TrueRanges(h', l', p'), period, i);
  }
}
