// What the signal engine's features and decision mean for the tape they are read from.
module SignalLaws {
  import opened Common
  import opened Indicators
  import opened IndicatorLaws
  import opened SignalEngine

  // ----- The trend -----

  // An up-trend has the last close above the slow average by more than 0.2%, with the fast
  // average between them; a down-trend the mirror image.
  lemma TrendMeaning(ks: seq<Kline>)
    requires |ks| >= 52
    ensures var n, closes := |ks|, Closes(ks);
            var fast, slow := EmaAt(closes, 20, n - 1), EmaAt(closes, 50, n - 1);
            && (LastTrend(ks) == UP <==> 1.002 * slow < fast <= closes[n - 1])
            && (LastTrend(ks) == DOWN <==>
                closes[n - 1] <= fast < 0.998 * slow && !(1.002 * slow < fast <= closes[n - 1]))
            && (LastTrend(ks) == UP ==> closes[n - 1] > 1.002 * slow)
            && (LastTrend(ks) == DOWN ==> closes[n - 1] < 0.998 * slow)
  {
  }

  ghost predicate Priced(c: seq<real>) {
    forall i :: 0 <= i < |c| ==> c[i] > 0.0
  }

  lemma {:induction false} NeverFallsOrdered(c: seq<real>, i: nat, j: nat)
    requires NeverFalls(c) && i <= j < |c|
    ensures c[i] <= c[j]
  {
    if i == j {
    } else {
      NeverFallsOrdered(c, i, j - 1);
    }
  }

  lemma {:induction false} NeverRisesOrdered(c: seq<real>, i: nat, j: nat)
    requires NeverRises(c) && i <= j < |c|
    ensures c[j] <= c[i]
  {
    if i == j {
    } else {
      NeverRisesOrdered(c, i, j - 1);
    }
  }

  // Closes that never fall are never a down-trend, and closes that never rise never an
  // up-trend.
  lemma MonotoneTrend(ks: seq<Kline>)
    requires |ks| >= 52 && Priced(Closes(ks))
    ensures NeverFalls(Closes(ks)) ==> LastTrend(ks) != DOWN
    ensures NeverRises(Closes(ks)) ==> LastTrend(ks) != UP
  {
    var c, n := Closes(ks), |ks|;
    if NeverFalls(c) {
      forall j | 0 <= j <= n - 1
        ensures 0.0 < c[j] <= c[n - 1]
      {
        NeverFallsOrdered(c, j, n - 1);
      }
      EmaBounds(c, 50, n - 1, 0.0, c[n - 1]);
    }
    if NeverRises(c) {
      forall j | 0 <= j <= n - 1
        ensures c[n - 1] <= c[j] <= c[0]
      {
        NeverRisesOrdered(c, j, n - 1);
        NeverRisesOrdered(c, 0, j);
      }
      EmaBounds(c, 50, n - 1, c[n - 1], c[0]);
    }
  }

  // ----- The scores -----

  // A better trend makes a buy more attractive and a sell less so.
  lemma ScoresFollowTrend(rsi: real, vol: Option<real>, volume: Option<real>)
    requires 0.0 <= rsi <= 100.0
    ensures BuyScore(rsi, DOWN, vol, volume) < BuyScore(rsi, FLAT, vol, volume) < BuyScore(rsi, UP, vol, volume)
    ensures SellScore(rsi, UP, vol, volume) < SellScore(rsi, FLAT, vol, volume) < SellScore(rsi, DOWN, vol, volume)
  {
    ScoreParts(rsi, vol, volume);
  }

  lemma ScoreParts(rsi: real, vol: Option<real>, volume: Option<real>)
    requires 0.0 <= rsi <= 100.0
    ensures 0.0 <= RsiBuy(rsi) <= 1.0 && 0.0 <= RsiSell(rsi) <= 1.0
    ensures 0.0 <= VolScore(volume) <= 1.0 && 0.3 <= VolNorm(vol) <= 0.7
  {
  }

  // Within each band the buy side weakens as RSI rises; the sell side strengthens above 45
  // and weakens below it.
  lemma ScoresFollowRsi(rsi: real, rsi': real)
    requires 0.0 <= rsi <= rsi' <= 100.0
    ensures rsi' <= 35.0 || (35.0 < rsi && rsi' <= 55.0) || (55.0 < rsi && rsi' < 70.0) || 70.0 <= rsi ==>
              RsiBuy(rsi) >= RsiBuy(rsi')
    ensures (45.0 <= rsi && rsi' < 65.0) || 65.0 <= rsi ==> RsiSell(rsi) <= RsiSell(rsi')
    ensures rsi' < 35.0 || (35.0 <= rsi && rsi' < 45.0) ==> RsiSell(rsi) >= RsiSell(rsi')
  {
  }

  // Where the bands of the oscillator begin and end.
  lemma RsiCorners()
    ensures RsiBuy(0.0) == 0.85 && RsiBuy(35.0) == 0.255 && RsiBuy(40.0) == 0.8 && RsiBuy(55.0) == 0.2
    ensures RsiBuy(60.0) == 0.25 && RsiBuy(66.0) == 0.1 && RsiBuy(70.0) == 0.0 && RsiBuy(100.0) == 0.0
    ensures RsiSell(100.0) == 1.0 && RsiSell(77.5) == 0.5 && RsiSell(64.0) == 0.56 && RsiSell(49.0) == 0.21
    ensures RsiSell(0.0) == 0.4 && RsiSell(22.5) == 0.2 && RsiSell(35.0) == 0.09 && RsiSell(40.0) == 0.06
  {
  }

  lemma TapeTerms(v: real, v': real, u: real, u': real)
    requires 0.0 <= v <= v' && 0.0 <= u <= u'
    ensures VolNorm(Some(v')) <= VolNorm(Some(v)) && VolScore(Some(u)) <= VolScore(Some(u'))
    ensures Chop(Some(v)) <= Chop(Some(v')) && Flow(Some(u)) <= Flow(Some(u'))
  {
  }

  // Volume speaks for acting, volatility against it: it lowers both scores and raises the
  // bar and the separation they have to clear.
  lemma ScoresFollowTape(rsi: real, trend: Trend, v: real, v': real, u: real, u': real)
    requires 0.0 <= rsi <= 100.0 && 0.0 <= v <= v' && 0.0 <= u <= u'
    ensures BuyScore(rsi, trend, Some(v'), Some(u)) <= BuyScore(rsi, trend, Some(v), Some(u'))
    ensures SellScore(rsi, trend, Some(v'), Some(u)) <= SellScore(rsi, trend, Some(v), Some(u'))
    ensures MinConfidence(Some(v), Some(u')) <= MinConfidence(Some(v'), Some(u))
    ensures Margin(Some(v), Some(u')) <= Margin(Some(v'), Some(u))
  {
    TapeTerms(v, v', u, u');
    BuyFollows(RsiBuy(rsi), rsi, trend, Some(v'), Some(u), Some(v), Some(u'));
    SellFollows(rsi, trend, Some(v'), Some(u), Some(v), Some(u'));
  }

  // Strictly so, until the terms are exhausted: volume up to two and a half times its mean,
  // volatility up to 15% for the scores and 14% for the bars.
  lemma TapeTermsStrict(v: real, v': real, u: real, u': real)
    requires 0.0 <= v < v' && 0.0 <= u < u'
    ensures v' <= 15.0 ==> VolNorm(Some(v')) < VolNorm(Some(v))
    ensures u' <= 2.5 ==> VolScore(Some(u)) < VolScore(Some(u'))
    ensures v' <= 14.0 ==> Chop(Some(v)) < Chop(Some(v'))
    ensures 0.4 <= u && u' <= 2.2 ==> Flow(Some(u)) < Flow(Some(u'))
    ensures VolScore(Some(2.5)) == 1.0 && VolNorm(Some(0.0)) == 0.7 && VolNorm(Some(15.0)) == 0.3
    ensures Chop(Some(14.0)) == 1.0 && Flow(Some(2.2)) == 1.0
  {
  }

  lemma BuyFollows(r: real, rsi: real, trend: Trend, v: Option<real>, u: Option<real>, v': Option<real>,
                   u': Option<real>)
    requires r == RsiBuy(rsi) && VolNorm(v) <= VolNorm(v') && VolScore(u) <= VolScore(u')
    ensures BuyScore(rsi, trend, v, u) <= BuyScore(rsi, trend, v', u')
  {
  }

  lemma SellFollows(rsi: real, trend: Trend, v: Option<real>, u: Option<real>, v': Option<real>, u': Option<real>)
    requires VolNorm(v) <= VolNorm(v') && VolScore(u) <= VolScore(u')
    ensures SellScore(rsi, trend, v, u) <= SellScore(rsi, trend, v', u')
  {
  }

  // ----- The decision -----

  // How much more the oscillator speaks for buying than for selling.
  function Tilt(rsi: real): real {
    RsiBuy(rsi) - RsiSell(rsi)
  }

  lemma TiltBounds(rsi: real)
    requires 0.0 <= rsi <= 100.0
    ensures rsi <= 79.0 ==> Tilt(rsi) >= -0.55
    ensures rsi <= 35.0 || rsi >= 45.0 ==> Tilt(rsi) <= 0.55
    ensures rsi == 100.0 ==> Tilt(rsi) == -1.0
    ensures rsi == 0.0 ==> 0.44 <= Tilt(rsi) <= 0.46
  {
  }

  // Both scores, and the gap between them, in terms of trend and tilt.
  lemma ScoreGap(rsi: real, trend: Trend, vol: Option<real>, volume: Option<real>)
    requires 0.0 <= rsi <= 100.0
    ensures var gap := BuyScore(rsi, trend, vol, volume) - SellScore(rsi, trend, vol, volume);
            gap == 0.38 * Tilt(rsi) + (if trend == UP then 0.224 else if trend == DOWN then -0.224 else 0.0)
    ensures trend == UP ==> BuyScore(rsi, trend, vol, volume) >= 0.3
    ensures trend == DOWN ==> SellScore(rsi, trend, vol, volume) >= 0.3
  {
    ScoreParts(rsi, vol, volume);
  }

  // A side that is strong enough and ahead by enough is taken, at any bar and margin.
  lemma BuysIf(rsi: real, trend: Trend, vol: Option<real>, volume: Option<real>, buy: real, sell: real)
    requires buy == BuyScore(rsi, trend, vol, volume) && sell == SellScore(rsi, trend, vol, volume)
    ensures buy >= 0.3 && buy - sell >= 0.0145 ==> Decide(rsi, trend, vol, volume).action == BUY
    ensures sell >= 0.3 && sell - buy >= 0.0145 ==> Decide(rsi, trend, vol, volume).action == SELL
  {
    ThresholdRange(vol, volume);
  }

  // The trend decides: whatever volatility and volume, an up-trend is bought up to an RSI of
  // 79, and a down-trend is sold unless RSI lies between 35 and 45.
  lemma TrendDecides(rsi: real, vol: Option<real>, volume: Option<real>)
    requires 0.0 <= rsi <= 100.0
    ensures rsi <= 79.0 ==> Decide(rsi, UP, vol, volume).action == BUY
    ensures rsi <= 35.0 || rsi >= 45.0 ==> Decide(rsi, DOWN, vol, volume).action == SELL
  {
    TiltBounds(rsi);
    GapDecides(rsi, UP, vol, volume, Tilt(rsi));
    GapDecides(rsi, DOWN, vol, volume, Tilt(rsi));
  }

  lemma GapDecides(rsi: real, trend: Trend, vol: Option<real>, volume: Option<real>, tilt: real)
    requires 0.0 <= rsi <= 100.0 && tilt == Tilt(rsi)
    ensures trend == UP && tilt >= -0.55 ==> Decide(rsi, trend, vol, volume).action == BUY
    ensures trend == DOWN && tilt <= 0.55 ==> Decide(rsi, trend, vol, volume).action == SELL
  {
    ScoreGap(rsi, trend, vol, volume);
    BuysIf(rsi, trend, vol, volume, BuyScore(rsi, trend, vol, volume), SellScore(rsi, trend, vol, volume));
  }

  // An exhausted oscillator overrides it: at 100 every trend is sold; at 0 a flat tape is
  // bought and a falling one sold.
  lemma ExtremesDecide(vol: Option<real>, volume: Option<real>)
    ensures Decide(100.0, UP, vol, volume).action == SELL && Decide(100.0, FLAT, vol, volume).action == SELL
    ensures Decide(0.0, FLAT, vol, volume).action == BUY && Decide(0.0, DOWN, vol, volume).action == SELL
  {
    TiltBounds(0.0);
    TiltBounds(100.0);
    ThresholdRange(vol, volume);
    ExtremeScores(vol, volume);
    ScoreGap(100.0, UP, vol, volume);
    ScoreGap(100.0, FLAT, vol, volume);
    ScoreGap(0.0, FLAT, vol, volume);
    ScoreGap(0.0, DOWN, vol, volume);
  }

  lemma ExtremeScores(vol: Option<real>, volume: Option<real>)
    ensures SellScore(100.0, UP, vol, volume) >= 0.3 && SellScore(100.0, FLAT, vol, volume) >= 0.3
    ensures BuyScore(0.0, FLAT, vol, volume) >= 0.3
  {
    ScoreParts(100.0, vol, volume);
  }

  // A signal that is the decision on its own features.
  ghost predicate Decided(s: Signal) {
    s == Decide(s.rsi, s.trend, s.volatilityPct, s.volumeRatio)
  }

  lemma SignalIsDecided(ks: seq<Kline>, s: Signal)
    requires |ks| >= 52 && Score(ks) == Some(s)
    ensures Decided(s) && 0.0 <= s.rsi <= 100.0
    ensures s.rsi == LastRsi(ks) && s.trend == LastTrend(ks)
    ensures s.volatilityPct == LastVolatilityPct(ks) && s.volumeRatio == LastVolumeRatio(ks)
  {
    LastRsiRange(ks);
    DecisionIsDecided(LastRsi(ks), LastTrend(ks), LastVolatilityPct(ks), LastVolumeRatio(ks));
  }

  lemma LastRsiRange(ks: seq<Kline>)
    requires |ks| >= 52
    ensures 0.0 <= LastRsi(ks) <= 100.0
  {
    RsiRange(Closes(ks), 14, |ks| - 1);
  }

  lemma DecisionIsDecided(rsi: real, trend: Trend, vol: Option<real>, volume: Option<real>)
    ensures var s := Decide(rsi, trend, vol, volume);
            Decided(s) && s.rsi == rsi && s.trend == trend && s.volatilityPct == vol && s.volumeRatio == volume
  {
  }

  // What any decided signal does, by its trend and RSI.
  lemma DecidedFollows(s: Signal)
    requires Decided(s) && 0.0 <= s.rsi <= 100.0
    ensures s.trend == UP && s.rsi <= 79.0 ==> s.action == BUY
    ensures s.trend == DOWN && (s.rsi <= 35.0 || s.rsi >= 45.0) ==> s.action == SELL
    ensures s.rsi == 100.0 && s.trend != DOWN ==> s.action == SELL
    ensures s.rsi == 0.0 && s.trend != UP ==> s.action == if s.trend == DOWN then SELL else BUY
  {
    TrendDecides(s.rsi, s.volatilityPct, s.volumeRatio);
    ExtremesDecide(s.volatilityPct, s.volumeRatio);
  }

  // The decision the engine returns, in terms of the tape's trend and RSI.
  lemma SignalFollowsTape(ks: seq<Kline>, s: Signal)
    requires |ks| >= 52 && Score(ks) == Some(s)
    ensures s.rsi == LastRsi(ks) && s.trend == LastTrend(ks)
    ensures s.trend == UP && s.rsi <= 79.0 ==> s.action == BUY
    ensures s.trend == DOWN && (s.rsi <= 35.0 || s.rsi >= 45.0) ==> s.action == SELL
  {
    SignalIsDecided(ks, s);
    DecidedFollows(s);
  }

  lemma LastRsiOf(ks: seq<Kline>)
    requires |ks| >= 52
    ensures NeverFalls(Closes(ks)) ==> LastRsi(ks) == 100.0
    ensures forall j :: 1 <= j < |ks| && NeverRises(Closes(ks)) && Closes(ks)[j] < Closes(ks)[j - 1] ==>
              LastRsi(ks) == 0.0
  {
    if NeverFalls(Closes(ks)) {
      NeverFallingReads100(Closes(ks), 14, |ks| - 1);
    }
    forall j | 1 <= j < |ks| && NeverRises(Closes(ks)) && Closes(ks)[j] < Closes(ks)[j - 1]
      ensures LastRsi(ks) == 0.0
    {
      NeverRisingReads0(Closes(ks), 14, |ks| - 1, j);
    }
  }

  // A tape that never falls is sold: its RSI of 100 outweighs any up-trend.
  lemma NeverFallingTapeIsSold(ks: seq<Kline>, s: Signal)
    requires |ks| >= 52 && Priced(Closes(ks)) && NeverFalls(Closes(ks)) && Score(ks) == Some(s)
    ensures s.rsi == 100.0 && s.trend != DOWN && s.action == SELL
  {
    SignalIsDecided(ks, s);
    LastRsiOf(ks);
    MonotoneTrend(ks);
    DecidedFollows(s);
  }

  // A tape that never rises, and fell at least once, is sold while it trends down and bought
  // once it has gone flat.
  lemma NeverRisingTape(ks: seq<Kline>, j: nat, s: Signal)
    requires |ks| >= 52 && Priced(Closes(ks)) && NeverRises(Closes(ks)) && Score(ks) == Some(s)
    requires 1 <= j < |ks| && Closes(ks)[j] < Closes(ks)[j - 1]
    ensures s.rsi == 0.0 && s.trend != UP && s.action == if s.trend == DOWN then SELL else BUY
  {
    SignalIsDecided(ks, s);
    LastRsiOf(ks);
    MonotoneTrend(ks);
    DecidedFollows(s);
  }

  // ----- The other features -----

  // Volatility is the ATR in percent of the last close, volume the last one over its mean.
  lemma FeatureMeaning(ks: seq<Kline>)
    requires |ks| >= 52
    ensures var n, closes, volumes := |ks|, Closes(ks), Volumes(ks);
            && IsRatio(LastVolatilityPct(ks), AtrAt(Highs(ks), Lows(ks), closes, 14, n - 1), closes[n - 1], 100.0)
            && IsRatio(LastVolumeRatio(ks), volumes[n - 1], Mean(volumes, n - 20, n), 1.0)
  {
    var n, closes, volumes := |ks|, Closes(ks), Volumes(ks);
    VolatilityIsRatio(AtrAt(Highs(ks), Lows(ks), closes, 14, n - 1), closes[n - 1]);
    VolumeIsRatio(Mean(volumes, n - 20, n), volumes[n - 1]);
  }

  // r is a over b, in units of 1 / scale; there is none without a positive b.
  ghost predicate IsRatio(r: Option<real>, a: real, b: real, scale: real) {
    (r.Some? <==> b > 0.0) && (r.Some? ==> r.value * b == scale * a)
  }

  lemma VolatilityIsRatio(atr: real, lastClose: real)
    ensures IsRatio(VolatilityPct(atr, lastClose), atr, lastClose, 100.0)
  {
    if lastClose > 0.0 {
      assert Quotient(atr, lastClose) * lastClose == atr;
    }
  }

  lemma VolumeIsRatio(volAvg: real, lastVol: real)
    ensures IsRatio(VolumeRatio(volAvg, lastVol), lastVol, volAvg, 1.0)
  {
    if volAvg > 0.0 {
      assert Quotient(lastVol, volAvg) * volAvg == lastVol;
    }
  }
}
