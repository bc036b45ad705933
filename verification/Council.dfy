// Votes of the agent council and how the technical voter forms its own.
module Votes {
  import opened Common

  datatype Vote = BUY | HOLD | AVOID
  datatype AgentVote = AgentVote(vote: Vote, confidence: real)

  // A confidence is a probability; zero means offline.
  predicate InRange(v: AgentVote) {
    0.0 <= v.confidence <= 1.0
  }

  predicate Online(v: AgentVote) {
    v.confidence != 0.0
  }

  // ----- The technical voter -----

  function AnalyzeCandles(rsi14: Option<real>, emaCrossBull: Option<bool>, trendStrength: real,
                          degraded: bool): AgentVote {
    var overbought := rsi14.Some? && rsi14.value > 78.0;
    var healthy := rsi14.Some? && 50.0 <= rsi14.value <= 70.0;
    var base := if degraded then 0.42 else 0.5;
    var c0 := if overbought then 0.7 else if healthy then base + 0.1 else base;
    var v0 := AgentVote(if overbought then AVOID else HOLD, c0);
    var v1 :=
      if overbought || emaCrossBull.None? then v0
      else if emaCrossBull.value && trendStrength >= 0.55 then
        if degraded then v0
        else
          var bonus := if rsi14.Some? && 50.0 < rsi14.value < 70.0 then 0.1 else 0.0;
          AgentVote(BUY, Min(0.9, 0.55 + (trendStrength - 0.55) * 1.2 + bonus))
      else if !emaCrossBull.value && trendStrength < 0.45 then AgentVote(AVOID, 0.65)
      else v0;
    v1.(confidence := Min(0.95, Max(0.3, v1.confidence)))
  }

  datatype LongTrend = Bull | Bear | Sideways
  datatype Regime = HighVolatility | Choppy | OtherRegime

  // The stored multi-timeframe picture; usable when it is neither missing nor thin.
  datatype Context = Context(usable: bool, score: real, longTrend: Option<LongTrend>, rangePosition: Option<real>,
                             regime: Regime)

  function ContextConfidence(c: real, ctx: Context): real {
    var c1 :=
      if ctx.longTrend == Some(Bear)
          && (match ctx.rangePosition case None => 1.0 case Some(p) => p) < 0.25 then Max(0.4, c - 0.15)
      else if ctx.score >= 0.5 && ctx.longTrend == Some(Bull) then Min(0.95, c + 0.12)
      else if ctx.score >= 0.5 then Min(0.92, c + 0.06)
      else c;
    match ctx.regime
    case HighVolatility => Max(0.4, c1 - 0.1)
    case Choppy => Max(0.4, c1 - 0.05)
    case OtherRegime => c1
  }

  function ApplyContext(v: AgentVote, ctx: Option<Context>): AgentVote {
    if ctx.None? || !ctx.value.usable then v
    else
      var w :=
        if v.vote == BUY && ctx.value.score <= -0.5 then
          AgentVote(HOLD, match ctx.value.regime
                          case HighVolatility => Max(0.4, 0.45 - 0.1)
                          case Choppy => Max(0.4, 0.45 - 0.05)
                          case OtherRegime => 0.45)
        else if v.vote == BUY then AgentVote(BUY, ContextConfidence(v.confidence, ctx.value))
        else if v.vote == HOLD && ctx.value.score >= 0.75 && ctx.value.longTrend == Some(Bull) then
          AgentVote(HOLD, Min(0.6, v.confidence + 0.08))
        else v;
      w.(confidence := Min(0.95, Max(0.3, w.confidence)))
  }

  function TechnicalVote(rsi14: Option<real>, emaCrossBull: Option<bool>, trendStrength: real, degraded: bool,
                         ctx: Option<Context>): AgentVote {
    ApplyContext(AnalyzeCandles(rsi14, emaCrossBull, trendStrength, degraded), ctx)
  }

  predicate Overbought(rsi14: Option<real>) {
    rsi14.Some? && rsi14.value > 78.0
  }

  // The technical voter is always online, with confidence between 0.3 and 0.95. It says BUY
  // exactly on a bullish cross with strength, on sound candles, below an RSI of 78 and not
  // against the larger picture; and AVOID exactly when overbought or on a bearish cross
  // without strength.
  lemma TechnicalVoteRange(rsi14: Option<real>, emaCrossBull: Option<bool>, trendStrength: real, degraded: bool,
                           ctx: Option<Context>)
    ensures 0.3 <= TechnicalVote(rsi14, emaCrossBull, trendStrength, degraded, ctx).confidence <= 0.95
    ensures TechnicalVote(rsi14, emaCrossBull, trendStrength, degraded, ctx).vote == BUY <==>
            && !degraded && emaCrossBull == Some(true) && trendStrength >= 0.55 && !Overbought(rsi14)
            && (ctx.Some? && ctx.value.usable ==> ctx.value.score > -0.5)
    ensures TechnicalVote(rsi14, emaCrossBull, trendStrength, degraded, ctx).vote == AVOID <==>
            Overbought(rsi14) || (emaCrossBull == Some(false) && trendStrength < 0.45)
  {
  }

  // A technical BUY starts at 0.55, is a tenth surer inside the healthy RSI band, and reaches
  // 0.9 at most.
  lemma TechnicalBuyConfidence(rsi14: Option<real>, strength: real)
    requires strength >= 0.55 && !Overbought(rsi14)
    ensures var c := TechnicalVote(rsi14, Some(true), strength, false, None).confidence;
            var healthy := rsi14.Some? && 50.0 < rsi14.value < 70.0;
            && 0.55 <= c <= 0.9 && (healthy ==> c >= 0.65)
            && (strength == 0.55 ==> c == if healthy then 0.65 else 0.55)
            && (strength >= 0.85 ==> c == 0.9)
  {
  }

  // A stronger trend never makes a BUY less confident.
  lemma StrengthAddsConfidence(rsi14: Option<real>, strength: real, strength': real, ctx: Option<Context>)
    requires 0.55 <= strength <= strength' && !Overbought(rsi14)
    ensures TechnicalVote(rsi14, Some(true), strength, false, ctx).confidence <=
            TechnicalVote(rsi14, Some(true), strength', false, ctx).confidence
  {
  }
}

// The weighted tally both councils share.
module Tally {
  import opened Common
  import opened Votes

  // The agents in order: momentum, sentiment, technical, risk, LLM, order book, volatility.
  const AGENTS: nat := 7
  const MOMENTUM: nat := 0
  const TECHNICAL: nat := 2
  const RISK: nat := 3
  const VETO_CONFIDENCE: real := 0.72
  const MIN_BUY_VOTES: nat := 3

  function VoteScore(v: AgentVote): real {
    match v.vote case BUY => v.confidence case AVOID => -v.confidence case HOLD => 0.0
  }

  function Share(v: AgentVote, weight: real): real {
    VoteScore(v) * weight
  }

  // The tally over the first n agents; offline ones are left out.
  function Weighted(votes: seq<AgentVote>, weights: seq<real>, n: nat): real
    requires n <= |votes| == |weights|
  {
    if n == 0 then 0.0
    else Weighted(votes, weights, n - 1) + if Online(votes[n - 1]) then Share(votes[n - 1], weights[n - 1]) else 0.0
  }

  function TotalWeight(votes: seq<AgentVote>, weights: seq<real>, n: nat): real
    requires n <= |votes| == |weights|
  {
    if n == 0 then 0.0 else TotalWeight(votes, weights, n - 1) + if Online(votes[n - 1]) then weights[n - 1] else 0.0
  }

  predicate Vetoes(v: AgentVote) {
    Online(v) && v.vote == AVOID && v.confidence >= VETO_CONFIDENCE
  }

  function BuyVoters(votes: seq<AgentVote>): set<nat> {
    set i: nat | i < |votes| && votes[i].vote == BUY && votes[i].confidence > 0.0
  }

  method TallyVotes(votes: seq<AgentVote>, weights: seq<real>)
      returns (weighted: real, totalWeight: real, vetoedBy: Option<nat>)
    requires |votes| == |weights|
    ensures weighted == Weighted(votes, weights, |votes|) && totalWeight == TotalWeight(votes, weights, |votes|)
    ensures vetoedBy.None? <==> forall i :: 0 <= i < |votes| ==> !Vetoes(votes[i])
    ensures vetoedBy.Some? ==> vetoedBy.value < |votes| && Vetoes(votes[vetoedBy.value]) &&
                               forall i :: 0 <= i < vetoedBy.value ==> !Vetoes(votes[i])
  {
    weighted, totalWeight, vetoedBy := 0.0, 0.0, None;
    for n := 0 to |votes|
      invariant weighted == Weighted(votes, weights, n) && totalWeight == TotalWeight(votes, weights, n)
      invariant vetoedBy.None? ==> forall i :: 0 <= i < n ==> !Vetoes(votes[i])
      invariant vetoedBy.Some? ==> vetoedBy.value < n && Vetoes(votes[vetoedBy.value]) &&
                                   forall i :: 0 <= i < vetoedBy.value ==> !Vetoes(votes[i])
    {
      var v := votes[n];
      if v.confidence == 0.0 {
        continue;
      }
      weighted := weighted + Share(v, weights[n]);
      totalWeight := totalWeight + weights[n];
      if v.vote == AVOID && v.confidence >= VETO_CONFIDENCE && vetoedBy.None? {
        vetoedBy := Some(n);
      }
    }
  }

  function Consensus(weighted: real, totalWeight: real): real {
    if totalWeight > 0.0 then (Quotient(weighted, totalWeight) + 1.0) / 2.0 else 0.5
  }

  function ConsensusOf(votes: seq<AgentVote>, weights: seq<real>): real
    requires |votes| == |weights|
  {
    Consensus(Weighted(votes, weights, |votes|), TotalWeight(votes, weights, |votes|))
  }

  lemma ShareRange(v: AgentVote, weight: real)
    requires InRange(v) && weight > 0.0
    ensures -weight <= Share(v, weight) <= weight
  {
    var score, share := VoteScore(v), Share(v, weight);
    MulMono(score, 1.0, weight, share, weight);
    MulMono(-1.0, score, weight, -weight, share);
  }

  lemma {:induction false} TallyRange(votes: seq<AgentVote>, weights: seq<real>, n: nat)
    requires n <= |votes| == |weights|
    requires forall i :: 0 <= i < n ==> InRange(votes[i]) && weights[i] > 0.0
    ensures -TotalWeight(votes, weights, n) <= Weighted(votes, weights, n) <= TotalWeight(votes, weights, n)
  {
    if n == 0 {
    } else {
      TallyRange(votes, weights, n - 1);
      ShareRange(votes[n - 1], weights[n - 1]);
    }
  }

  // The consensus is a probability.
  lemma ConsensusRange(weighted: real, totalWeight: real)
    requires -totalWeight <= weighted <= totalWeight
    ensures 0.0 <= Consensus(weighted, totalWeight) <= 1.0
  {
    if totalWeight > 0.0 {
      DivCompare(weighted, totalWeight, 1.0, totalWeight);
      DivCompare(weighted, totalWeight, -1.0, -totalWeight);
    }
  }

  // A consensus above one half needs a positive weighted mean of the votes.
  lemma ConsensusIsMean(weighted: real, totalWeight: real, bar: real)
    requires Consensus(weighted, totalWeight) >= bar && bar > 0.5
    ensures totalWeight > 0.0 && Quotient(weighted, totalWeight) >= 2.0 * bar - 1.0
  {
  }

  lemma SubsetCard(a: set<nat>, b: set<nat>)
    requires a <= b
    ensures |a| <= |b|
  {
    var rest := b - a;
    assert b == a + rest;
  }

  // Three named buyers make a count of three.
  lemma ThreeBuyers(votes: seq<AgentVote>, i: nat, j: nat, k: nat)
    requires i != j && j != k && i != k && {i, j, k} <= BuyVoters(votes)
    ensures |BuyVoters(votes)| >= 3
  {
    SubsetCard({i, j, k}, BuyVoters(votes));
  }
}

// The Jupiter council.
module JupiterCouncil {
  import opened Common
  import opened Votes
  import opened Tally

  const BASE_THRESHOLD: real := 0.63
  const MIN_VOTE_CONFIDENCE: real := 0.63
  const CORE_BUY_CONFIDENCE: real := 0.72

  function AdaptiveThreshold(winRatePct: Option<real>, samples: nat): real {
    if winRatePct.None? || samples < 8 then BASE_THRESHOLD
    else if winRatePct.value < 65.0 then Min(0.68, BASE_THRESHOLD + (65.0 - winRatePct.value) / 100.0 * 0.5 + 0.02)
    else if winRatePct.value > 70.0 then Max(0.5, BASE_THRESHOLD - 0.03)
    else BASE_THRESHOLD
  }

  // The bar stays between 0.60 and 0.68, and never rises with the win rate.
  lemma ThresholdAntitone(w: real, w': real, samples: nat)
    requires w <= w'
    ensures 0.6 <= AdaptiveThreshold(Some(w'), samples) <= AdaptiveThreshold(Some(w), samples) <= 0.68
    ensures 0.6 <= AdaptiveThreshold(None, samples) <= 0.68
  {
  }

  function AccuracyWeight(accuracyPct: Option<real>): real {
    match accuracyPct case None => 1.0 case Some(a) => Min(1.4, Max(0.6, 0.6 + a / 100.0 * 0.8))
  }

  predicate IsCore(id: nat) {
    id == MOMENTUM || id == TECHNICAL || id == RISK
  }

  function ApplyConfidenceGates(id: nat, v: AgentVote): AgentVote {
    if 0.0 < v.confidence < MIN_VOTE_CONFIDENCE then AgentVote(HOLD, 0.0)
    else if IsCore(id) && v.vote == BUY && v.confidence < CORE_BUY_CONFIDENCE then AgentVote(HOLD, v.confidence)
    else v
  }

  function Gated(raw: seq<AgentVote>): (g: seq<AgentVote>)
    ensures |g| == |raw| && forall i :: 0 <= i < |raw| ==> g[i] == ApplyConfidenceGates(i, raw[i])
  {
    seq(|raw|, i requires 0 <= i < |raw| => ApplyConfidenceGates(i, raw[i]))
  }

  // What survives the gates: an online vote is at least 0.63 sure, a core BUY 0.72.
  lemma GatesHold(id: nat, v: AgentVote)
    requires InRange(v)
    ensures var g := ApplyConfidenceGates(id, v);
            && InRange(g)
            && (Online(g) ==> g.confidence >= MIN_VOTE_CONFIDENCE)
            && (IsCore(id) && g.vote == BUY && Online(g) ==> g.confidence >= CORE_BUY_CONFIDENCE)
  {
  }

  function Weights(accuracies: seq<Option<real>>): (w: seq<real>)
    ensures |w| == |accuracies| && forall i :: 0 <= i < |w| ==> w[i] == AccuracyWeight(accuracies[i])
  {
    seq(|accuracies|, i requires 0 <= i < |accuracies| => AccuracyWeight(accuracies[i]))
  }

  datatype Decision = Decision(buy: bool, consensus: real, vetoedBy: Option<nat>)

  predicate CoreAligned(votes: seq<AgentVote>)
    requires |votes| == AGENTS
  {
    && votes[MOMENTUM].vote == BUY && votes[TECHNICAL].vote == BUY && votes[RISK].vote == BUY
    && votes[MOMENTUM].confidence >= CORE_BUY_CONFIDENCE
    && votes[TECHNICAL].confidence >= CORE_BUY_CONFIDENCE
    && votes[RISK].confidence >= CORE_BUY_CONFIDENCE
  }

  predicate EnoughBuys(votes: seq<AgentVote>)
    requires |votes| == AGENTS
  {
    |BuyVoters(votes)| >= MIN_BUY_VOTES || (CoreAligned(votes) && |BuyVoters(votes)| >= 2)
  }

  // The alternative clause never decides: three aligned core agents are three buyers.
  lemma CoreClauseNeverDecides(votes: seq<AgentVote>)
    requires |votes| == AGENTS
    ensures EnoughBuys(votes) <==> |BuyVoters(votes)| >= MIN_BUY_VOTES
  {
    if CoreAligned(votes) {
      ThreeBuyers(votes, MOMENTUM, TECHNICAL, RISK);
    }
  }

  ghost predicate SoundBuy(votes: seq<AgentVote>, weights: seq<real>, bar: real)
    requires |votes| == |weights| == AGENTS
  {
    && |BuyVoters(votes)| >= 3
    && (forall i :: 0 <= i < AGENTS ==> !(Online(votes[i]) && votes[i].vote == AVOID && votes[i].confidence >= 0.72))
    && TotalWeight(votes, weights, AGENTS) > 0.0
    && Quotient(Weighted(votes, weights, AGENTS), TotalWeight(votes, weights, AGENTS)) >= bar
  }

  // The tally and the decision, for any seven votes, any accuracies and any win rate.
  method Evaluate(raw: seq<AgentVote>, accuracies: seq<Option<real>>, winRatePct: Option<real>, samples: nat,
                  riskBlocked: bool, riskBuys: bool)
      returns (d: Decision)
    requires |raw| == |accuracies| == AGENTS && forall i :: 0 <= i < AGENTS ==> InRange(raw[i])
    ensures 0.0 <= d.consensus <= 1.0 && d.consensus == ConsensusOf(Gated(raw), Weights(accuracies))
    ensures d.buy ==> SoundBuy(Gated(raw), Weights(accuracies), 0.2) && !riskBlocked && riskBuys && d.vetoedBy.None?
    ensures d.buy <==>
            && !riskBlocked && riskBuys && d.vetoedBy.None?
            && d.consensus >= AdaptiveThreshold(winRatePct, samples)
            && |BuyVoters(Gated(raw))| >= MIN_BUY_VOTES
    ensures d.vetoedBy.None? <==> forall i :: 0 <= i < AGENTS ==> !Vetoes(Gated(raw)[i])
  {
    var threshold := AdaptiveThreshold(winRatePct, samples);
    var votes, weights := Gated(raw), Weights(accuracies);
    var weighted, totalWeight, vetoedBy := TallyVotes(votes, weights);
    var consensus := Consensus(weighted, totalWeight);
    var buy := !riskBlocked && riskBuys && consensus >= threshold && EnoughBuys(votes) && vetoedBy.None?;
    d := Decision(buy, consensus, vetoedBy);
    TallyRange(votes, weights, AGENTS);
    ConsensusRange(weighted, totalWeight);
    CoreClauseNeverDecides(votes);
    var rate := if winRatePct.Some? then winRatePct.value else 0.0;
    ThresholdAntitone(rate, rate, samples);
    if buy {
      ConsensusIsMean(weighted, totalWeight, threshold);
    }
  }

  // ----- The votes it is given -----

  datatype RiskDecision = RiskDecision(hasPick: bool, momentumScore: real, confidence: real, buys: bool,
                                       blocked: Option<bool>)
  datatype Oracle = Oracle(sentiment: real, confidence: real)

  function MomentumVote(risk: RiskDecision): AgentVote {
    if !risk.hasPick then AgentVote(HOLD, 0.0)
    else AgentVote(if risk.momentumScore >= CORE_BUY_CONFIDENCE then BUY else if risk.momentumScore <= 0.3 then AVOID
                   else HOLD,
                   Min(0.95, Max(MIN_VOTE_CONFIDENCE, risk.momentumScore)))
  }

  function SentimentVote(oracle: Option<Oracle>): AgentVote {
    match oracle
    case None => AgentVote(HOLD, 0.35)
    case Some(o) =>
      if o.sentiment < -0.35 && o.confidence > 0.4 then AgentVote(AVOID, Min(0.9, o.confidence + 0.2))
      else if o.sentiment > 0.2 && o.confidence > 0.35 then AgentVote(BUY, Min(0.85, 0.5 + o.sentiment * 0.5))
      else AgentVote(HOLD, 0.45)
  }

  // blocked: Some(true) for the gates that only hold, Some(false) for the others.
  function RiskVote(risk: RiskDecision): AgentVote {
    if risk.blocked.Some? then AgentVote(if risk.blocked.value then HOLD else AVOID, 0.75)
    else if risk.buys && risk.confidence >= CORE_BUY_CONFIDENCE then
      AgentVote(BUY, Min(0.95, Max(MIN_VOTE_CONFIDENCE, risk.confidence)))
    else AgentVote(HOLD, if risk.confidence >= MIN_VOTE_CONFIDENCE then Min(0.95, risk.confidence) else 0.0)
  }

  function OrderbookVote(obi: Option<real>): AgentVote {
    match obi
    case None => AgentVote(HOLD, 0.3)
    case Some(x) =>
      if x > 0.18 then AgentVote(BUY, Min(0.85, 0.45 + x * 0.6))
      else if x < -0.18 then AgentVote(AVOID, Min(0.85, 0.45 + Abs(x) * 0.6))
      else AgentVote(HOLD, 0.4)
  }

  function VolatilityVote(trend: real): AgentVote {
    if trend >= 0.72 then AgentVote(BUY, Min(0.82, 0.4 + trend * 0.45))
    else if trend <= 0.28 then AgentVote(AVOID, 0.7)
    else AgentVote(HOLD, 0.42)
  }

  function RawVotes(risk: RiskDecision, oracle: Option<Oracle>, technical: AgentVote, llm: AgentVote, obi: Option<real>,
                    trend: real)
      : (v: seq<AgentVote>)
    ensures |v| == AGENTS
  {
    [MomentumVote(risk), SentimentVote(oracle), technical, RiskVote(risk), llm, OrderbookVote(obi),
     VolatilityVote(trend)]
  }

  // Whatever the market says, the assembled votes are probabilities.
  lemma RawVotesInRange(risk: RiskDecision, oracle: Option<Oracle>, technical: AgentVote, llm: AgentVote,
                        obi: Option<real>, trend: real)
    requires InRange(technical) && InRange(llm)
    ensures forall i :: 0 <= i < AGENTS ==> InRange(RawVotes(risk, oracle, technical, llm, obi, trend)[i])
  {
  }
}

// The Binance council.
module CexCouncil {
  import opened Common
  import opened Votes
  import opened Tally

  const BASE_THRESHOLD: real := 0.62

  datatype Consent = HubBuy | HubSell | HubHold

  function HubMomentum(hub: Consent, conf: real): AgentVote {
    if hub == HubBuy && conf >= 0.45 then AgentVote(BUY, Clamp(conf, 0.35, 0.9))
    else if hub == HubSell && conf >= 0.45 then AgentVote(AVOID, Clamp(conf, 0.4, 0.9))
    else AgentVote(HOLD, 0.45)
  }

  function HubRisk(hub: Consent, conf: real, hasOpenLong: bool, freeUsdt: real, spreadBps: Option<real>,
                   advisesNo: bool): AgentVote {
    if hasOpenLong then AgentVote(HOLD, 0.7)
    else if freeUsdt < 5.0 then AgentVote(AVOID, 0.85)
    else if spreadBps.Some? && spreadBps.value > 15.0 then AgentVote(AVOID, 0.75)
    else if advisesNo then AgentVote(AVOID, 0.7)
    else if hub == HubBuy && conf >= 0.5 then AgentVote(BUY, Clamp(0.5 + conf * 0.35, 0.45, 0.88))
    else AgentVote(HOLD, 0.5)
  }

  function SentimentVote(oracle: Option<(real, real)>): AgentVote {
    match oracle
    case None => AgentVote(HOLD, 0.35)
    case Some((sentiment, confidence)) =>
      if sentiment < -0.35 && confidence > 0.4 then AgentVote(AVOID, Min(0.85, confidence + 0.15))
      else if sentiment > 0.25 && confidence > 0.35 then AgentVote(BUY, Min(0.8, 0.45 + sentiment * 0.4))
      else AgentVote(HOLD, 0.4)
  }

  function OrderbookVote(obi: Option<real>): AgentVote {
    match obi
    case None => AgentVote(HOLD, 0.3)
    case Some(x) =>
      if x > 0.15 then AgentVote(BUY, Min(0.85, 0.48 + x * 0.55))
      else if x < -0.15 then AgentVote(AVOID, Min(0.85, 0.48 + Abs(x) * 0.55))
      else AgentVote(HOLD, 0.4)
  }

  function VolatilityVote(hub: Consent, change24: real): AgentVote {
    if Abs(change24) >= 6.0 then AgentVote(AVOID, 0.72)
    else if hub == HubBuy && Abs(change24) <= 3.5 then AgentVote(BUY, 0.58)
    else AgentVote(HOLD, 0.42)
  }

  // Without candle data the technical vote is replaced by a veto.
  function CandleVote(noCandles: bool, technical: AgentVote): AgentVote {
    if noCandles then AgentVote(AVOID, 0.78) else technical
  }

  // The assembled votes meet what the tally relies on, whatever the market says: the
  // technical voter is never offline, and the LLM voter clamps its own confidence.
  lemma RawVotesWellFormed(hub: Consent, conf: real, hasOpenLong: bool, freeUsdt: real, spreadBps: Option<real>,
                           advisesNo: bool, oracle: Option<(real, real)>, llm: AgentVote, obi: Option<real>,
                           change24: real, noCandles: bool, rsi14: Option<real>, emaCrossBull: Option<bool>,
                           trendStrength: real, degraded: bool, ctx: Option<Context>)
    requires InRange(llm)
    ensures WellFormed([HubMomentum(hub, conf), SentimentVote(oracle),
                        CandleVote(noCandles, TechnicalVote(rsi14, emaCrossBull, trendStrength, degraded, ctx)),
                        HubRisk(hub, conf, hasOpenLong, freeUsdt, spreadBps, advisesNo), llm, OrderbookVote(obi),
                        VolatilityVote(hub, change24)], hub, conf, hasOpenLong, freeUsdt, spreadBps, advisesNo)
  {
    TechnicalVoteRange(rsi14, emaCrossBull, trendStrength, degraded, ctx);
    AssembledVotes(hub, conf, hasOpenLong, freeUsdt, spreadBps, advisesNo, oracle, llm, obi, change24,
                   CandleVote(noCandles, TechnicalVote(rsi14, emaCrossBull, trendStrength, degraded, ctx)));
  }

  lemma AssembledVotes(hub: Consent, conf: real, hasOpenLong: bool, freeUsdt: real, spreadBps: Option<real>,
                       advisesNo: bool, oracle: Option<(real, real)>, llm: AgentVote, obi: Option<real>,
                       change24: real, technical: AgentVote)
    requires InRange(llm) && InRange(technical) && technical.confidence >= 0.3
    ensures WellFormed([HubMomentum(hub, conf), SentimentVote(oracle), technical,
                        HubRisk(hub, conf, hasOpenLong, freeUsdt, spreadBps, advisesNo), llm, OrderbookVote(obi),
                        VolatilityVote(hub, change24)], hub, conf, hasOpenLong, freeUsdt, spreadBps, advisesNo)
  {
  }

  // The votes as they enter the tally: momentum and risk from the hub, a technical vote
  // that is never offline, the rest as given.
  ghost predicate WellFormed(votes: seq<AgentVote>, hub: Consent, conf: real, hasOpenLong: bool, freeUsdt: real,
                             spreadBps: Option<real>, advisesNo: bool) {
    && |votes| == AGENTS && (forall i :: 0 <= i < AGENTS ==> InRange(votes[i]))
    && votes[MOMENTUM] == HubMomentum(hub, conf)
    && votes[RISK] == HubRisk(hub, conf, hasOpenLong, freeUsdt, spreadBps, advisesNo)
    && votes[TECHNICAL].confidence >= 0.3
  }

  predicate CoreAligned(votes: seq<AgentVote>)
    requires |votes| == AGENTS
  {
    votes[MOMENTUM].vote == BUY && votes[TECHNICAL].vote == BUY
  }

  predicate EnoughBuys(votes: seq<AgentVote>)
    requires |votes| == AGENTS
  {
    |BuyVoters(votes)| >= MIN_BUY_VOTES || (CoreAligned(votes) && |BuyVoters(votes)| >= 2)
  }

  // Among decisions that need the risk vote to be BUY, the two-vote clause never decides.
  lemma CoreClauseNeverDecides(votes: seq<AgentVote>, hub: Consent, conf: real, hasOpenLong: bool, freeUsdt: real,
                               spreadBps: Option<real>, advisesNo: bool)
    requires WellFormed(votes, hub, conf, hasOpenLong, freeUsdt, spreadBps, advisesNo) && votes[RISK].vote == BUY
    ensures EnoughBuys(votes) <==> |BuyVoters(votes)| >= MIN_BUY_VOTES
  {
    if CoreAligned(votes) {
      ThreeBuyers(votes, MOMENTUM, TECHNICAL, RISK);
    }
  }

  // On arbitrary votes it can: an offline technical BUY leaves two online buyers.
  lemma OfflineTechnicalWouldDecide()
    ensures var offline, buy := AgentVote(BUY, 0.0), AgentVote(BUY, 0.9);
            var votes := [buy, AgentVote(HOLD, 0.0), offline, buy, AgentVote(HOLD, 0.0), AgentVote(HOLD, 0.0),
                          AgentVote(HOLD, 0.0)];
            EnoughBuys(votes) && |BuyVoters(votes)| == 2
  {
    var offline, buy := AgentVote(BUY, 0.0), AgentVote(BUY, 0.9);
    var votes := [buy, AgentVote(HOLD, 0.0), offline, buy, AgentVote(HOLD, 0.0), AgentVote(HOLD, 0.0),
                  AgentVote(HOLD, 0.0)];
    assert BuyVoters(votes) == {0, 3};
  }

  // Order size in whole cents.
  function OrderSizeUsd(maxTradeUsd: real, freeUsdt: real): real {
    Min(maxTradeUsd, (Min(freeUsdt * 0.95, maxTradeUsd) * 100.0).Floor as real / 100.0)
  }

  datatype Decision = Decision(buy: bool, consensus: real, orderSizeUsd: real, vetoedBy: Option<nat>)

  function Ones(n: nat): (w: seq<real>)
    ensures |w| == n && forall i :: 0 <= i < n ==> w[i] == 1.0
  {
    seq(n, _ => 1.0)
  }

  method Evaluate(votes: seq<AgentVote>, hub: Consent, conf: real, hasOpenLong: bool, freeUsdt: real,
                  spreadBps: Option<real>, advisesNo: bool, maxTradeUsd: real)
      returns (d: Decision)
    requires WellFormed(votes, hub, conf, hasOpenLong, freeUsdt, spreadBps, advisesNo)
    ensures 0.0 <= d.consensus <= 1.0 && d.consensus == ConsensusOf(votes, Ones(AGENTS))
    ensures d.buy ==>
              && |BuyVoters(votes)| >= 3
              && (forall i :: 0 <= i < AGENTS ==>
                  !(Online(votes[i]) && votes[i].vote == AVOID && votes[i].confidence >= 0.72))
              && TotalWeight(votes, Ones(AGENTS), AGENTS) > 0.0
              && Quotient(Weighted(votes, Ones(AGENTS), AGENTS), TotalWeight(votes, Ones(AGENTS), AGENTS)) >= 0.24
    ensures d.buy ==>
              !hasOpenLong && hub == HubBuy && conf >= 0.5 && 5.0 <= d.orderSizeUsd <= maxTradeUsd
              && d.orderSizeUsd <= freeUsdt * 0.95
    ensures !d.buy ==> d.orderSizeUsd == 0.0
    ensures d.buy <==>
            && !hasOpenLong && OrderSizeUsd(maxTradeUsd, freeUsdt) >= 5.0 && d.consensus >= BASE_THRESHOLD
            && |BuyVoters(votes)| >= MIN_BUY_VOTES && d.vetoedBy.None? && votes[RISK].vote == BUY
  {
    var weighted, totalWeight, vetoedBy := TallyVotes(votes, Ones(AGENTS));
    var consensus := Consensus(weighted, totalWeight);
    var size := OrderSizeUsd(maxTradeUsd, freeUsdt);
    var buy := !hasOpenLong && size >= 5.0 && consensus >= BASE_THRESHOLD && EnoughBuys(votes) && vetoedBy.None?
        && votes[RISK].vote == BUY;
    d := Decision(buy, consensus, if buy then size else 0.0, vetoedBy);
    TallyRange(votes, Ones(AGENTS), AGENTS);
    ConsensusRange(weighted, totalWeight);
    if votes[RISK].vote == BUY {
      CoreClauseNeverDecides(votes, hub, conf, hasOpenLong, freeUsdt, spreadBps, advisesNo);
    }
    if buy {
      ConsensusIsMean(weighted, totalWeight, BASE_THRESHOLD);
    }
  }
}
