// Which way the councils lean, for all votes and weights.
module CouncilLaws {
  import opened Common
  import opened Votes
  import opened Tally
  import JupiterCouncil
  import CexCouncil

  // ----- The tally has a direction -----

  function Rank(v: Vote): int {
    match v case AVOID => -1 case HOLD => 0 case BUY => 1
  }

  ghost predicate Weighed(votes: seq<AgentVote>, weights: seq<real>) {
    |votes| == |weights| && forall i :: 0 <= i < |votes| ==> InRange(votes[i]) && weights[i] > 0.0
  }

  lemma ShareSign(v: AgentVote, weight: real)
    requires InRange(v) && weight > 0.0
    ensures v.vote == BUY && Online(v) ==> Share(v, weight) > 0.0
    ensures v.vote == HOLD || !Online(v) ==> Share(v, weight) == 0.0
    ensures v.vote == AVOID && Online(v) ==> Share(v, weight) < 0.0
  {
    var share := v.confidence * weight;
    MulMono(0.0, v.confidence, weight, 0.0, share);
    if Online(v) {
      MulMonoStrict(0.0, v.confidence, weight, 0.0, share);
    }
  }

  // Without an AVOID the tally is not negative, and positive once somebody online buys.
  lemma {:induction false} NoAvoidNotNegative(votes: seq<AgentVote>, weights: seq<real>, n: nat)
    requires Weighed(votes, weights) && n <= |votes| && forall i :: 0 <= i < n ==> votes[i].vote != AVOID
    ensures Weighted(votes, weights, n) >= 0.0
    ensures (exists i :: 0 <= i < n && votes[i].vote == BUY && Online(votes[i])) ==> Weighted(votes, weights, n) > 0.0
  {
    if n == 0 {
    } else {
      NoAvoidNotNegative(votes, weights, n - 1);
      ShareSign(votes[n - 1], weights[n - 1]);
    }
  }

  // Without a BUY it is not positive, and negative once somebody online avoids.
  lemma {:induction false} NoBuyNotPositive(votes: seq<AgentVote>, weights: seq<real>, n: nat)
    requires Weighed(votes, weights) && n <= |votes| && forall i :: 0 <= i < n ==> votes[i].vote != BUY
    ensures Weighted(votes, weights, n) <= 0.0
    ensures (exists i :: 0 <= i < n && votes[i].vote == AVOID && Online(votes[i])) ==> Weighted(votes, weights, n) < 0.0
  {
    if n == 0 {
    } else {
      NoBuyNotPositive(votes, weights, n - 1);
      ShareSign(votes[n - 1], weights[n - 1]);
    }
  }

  lemma ConsensusSign(weighted: real, totalWeight: real)
    requires totalWeight >= 0.0 && (totalWeight == 0.0 ==> weighted == 0.0)
    ensures weighted >= 0.0 <==> Consensus(weighted, totalWeight) >= 0.5
    ensures weighted > 0.0 <==> Consensus(weighted, totalWeight) > 0.5
  {
    if totalWeight > 0.0 {
      var q := Quotient(weighted, totalWeight);
      assert q * totalWeight == weighted;
      DivCompare(weighted, totalWeight, 0.0, 0.0 * totalWeight);
      if q > 0.0 {
        MulMonoStrict(0.0, q, totalWeight, 0.0, weighted);
      } else {
        MulMono(q, 0.0, totalWeight, weighted, 0.0);
      }
    }
  }

  lemma {:induction false} TotalNotNegative(votes: seq<AgentVote>, weights: seq<real>, n: nat)
    requires Weighed(votes, weights) && n <= |votes|
    ensures TotalWeight(votes, weights, n) >= 0.0
    ensures TotalWeight(votes, weights, n) == 0.0 ==> Weighted(votes, weights, n) == 0.0
    ensures forall i :: 0 <= i < n && Online(votes[i]) ==> TotalWeight(votes, weights, n) >= weights[i]
  {
    if n == 0 {
    } else {
      TotalNotNegative(votes, weights, n - 1);
    }
  }

  // A council of which nobody buys never passes one half; one of which nobody avoids never
  // falls below it.
  lemma ConsensusLeans(votes: seq<AgentVote>, weights: seq<real>)
    requires Weighed(votes, weights)
    ensures (forall i :: 0 <= i < |votes| ==> votes[i].vote != BUY) ==> ConsensusOf(votes, weights) <= 0.5
    ensures (forall i :: 0 <= i < |votes| ==> votes[i].vote != AVOID) ==> ConsensusOf(votes, weights) >= 0.5
  {
    var n := |votes|;
    TotalNotNegative(votes, weights, n);
    ConsensusSign(Weighted(votes, weights, n), TotalWeight(votes, weights, n));
    if forall i :: 0 <= i < n ==> votes[i].vote != BUY {
      NoBuyNotPositive(votes, weights, n);
    }
    if forall i :: 0 <= i < n ==> votes[i].vote != AVOID {
      NoAvoidNotNegative(votes, weights, n);
    }
  }

  // Turning one online vote from AVOID to HOLD to BUY, at the same confidence, raises the
  // tally and leaves the total weight.
  lemma {:induction false} TallyRises(votes: seq<AgentVote>, weights: seq<real>, k: nat, v: Vote, n: nat)
    requires Weighed(votes, weights) && k < |votes| && n <= |votes| && Online(votes[k]) && Rank(votes[k].vote) < Rank(v)
    ensures var votes' := votes[k := votes[k].(vote := v)];
            && TotalWeight(votes', weights, n) == TotalWeight(votes, weights, n)
            && (n <= k ==> Weighted(votes', weights, n) == Weighted(votes, weights, n))
            && (n > k ==> Weighted(votes', weights, n) > Weighted(votes, weights, n))
  {
    if n == 0 {
    } else {
      TallyRises(votes, weights, k, v, n - 1);
      if n - 1 == k {
        ShareSign(votes[k], weights[k]);
        ShareSign(votes[k].(vote := v), weights[k]);
      }
    }
  }

  // So it strictly raises the consensus.
  lemma ConsensusRises(votes: seq<AgentVote>, weights: seq<real>, k: nat, v: Vote)
    requires Weighed(votes, weights) && k < |votes| && Online(votes[k]) && Rank(votes[k].vote) < Rank(v)
    ensures ConsensusOf(votes[k := votes[k].(vote := v)], weights) > ConsensusOf(votes, weights)
  {
    var n, votes' := |votes|, votes[k := votes[k].(vote := v)];
    TallyRises(votes, weights, k, v, n);
    TotalNotNegative(votes, weights, n);
    QuotientRises(Weighted(votes, weights, n), Weighted(votes', weights, n), TotalWeight(votes, weights, n));
  }

  lemma QuotientRises(a: real, b: real, c: real)
    requires a < b && c > 0.0
    ensures Quotient(a, c) < Quotient(b, c)
  {
    var x, y := Quotient(a, c), Quotient(b, c);
    assert x * c == a && y * c == b;
    if x >= y {
      MulMono(y, x, c, b, a);
    }
  }

  // A unanimous council, whatever the weights: all BUY at confidence c is a consensus of
  // (1 + c) / 2, all AVOID of (1 - c) / 2, all HOLD of one half.
  lemma {:induction false} UnanimousTally(votes: seq<AgentVote>, weights: seq<real>, v: AgentVote, n: nat)
    requires Weighed(votes, weights) && n <= |votes| && Online(v) && forall i :: 0 <= i < n ==> votes[i] == v
    ensures Product(VoteScore(v), TotalWeight(votes, weights, n), Weighted(votes, weights, n))
    ensures n > 0 ==> TotalWeight(votes, weights, n) > 0.0
  {
    if n == 0 {
    } else {
      UnanimousTally(votes, weights, v, n - 1);
      TotalNotNegative(votes, weights, n - 1);
      Distributes(VoteScore(v), TotalWeight(votes, weights, n - 1), weights[n - 1]);
    }
  }

  lemma Distributes(x: real, a: real, b: real)
    ensures x * (a + b) == x * a + x * b
  {
  }

  lemma UnanimousConsensus(votes: seq<AgentVote>, weights: seq<real>, v: AgentVote)
    requires Weighed(votes, weights) && votes != [] && Online(v) && forall i :: 0 <= i < |votes| ==> votes[i] == v
    ensures v.vote == BUY ==> ConsensusOf(votes, weights) == (1.0 + v.confidence) / 2.0
    ensures v.vote == AVOID ==> ConsensusOf(votes, weights) == (1.0 - v.confidence) / 2.0
    ensures v.vote == HOLD ==> ConsensusOf(votes, weights) == 0.5
  {
    var n := |votes|;
    UnanimousTally(votes, weights, v, n);
    ConsensusValue(VoteScore(v), TotalWeight(votes, weights, n), Weighted(votes, weights, n));
  }

  lemma ConsensusValue(score: real, totalWeight: real, weighted: real)
    requires totalWeight > 0.0 && Product(score, totalWeight, weighted)
    ensures Consensus(weighted, totalWeight) == (1.0 + score) / 2.0
  {
    MulCancel(score, totalWeight);
  }

  // ----- Weights, gates and bars -----

  // A better record never weighs less; none at all weighs as much as being right half the
  // time, and no record moves a weight outside [0.6, 1.4].
  lemma WeightFollowsAccuracy(a: real, a': real)
    requires a <= a'
    ensures 0.6 <= JupiterCouncil.AccuracyWeight(Some(a)) <= JupiterCouncil.AccuracyWeight(Some(a')) <= 1.4
    ensures JupiterCouncil.AccuracyWeight(None) == JupiterCouncil.AccuracyWeight(Some(50.0)) == 1.0
    ensures JupiterCouncil.AccuracyWeight(Some(0.0)) == 0.6 && JupiterCouncil.AccuracyWeight(Some(100.0)) == 1.4
  {
  }

  // The gates let through, unchanged, every vote that is sure enough, take the others
  // offline, and turn an unsure core BUY into a HOLD that still counts.
  lemma GatesLetThrough(id: nat, v: AgentVote)
    requires InRange(v)
    ensures var g, core := JupiterCouncil.ApplyConfidenceGates(id, v), JupiterCouncil.IsCore(id);
            && (v.confidence >= 0.72 || (v.confidence >= 0.63 && (v.vote != BUY || !core)) ==> g == v)
            && (v.confidence < 0.63 ==> !Online(g))
            && (core && v.vote == BUY && 0.63 <= v.confidence < 0.72 ==> g == AgentVote(HOLD, v.confidence))
  {
  }

  // The bar is 0.63 until eight trades are known, 0.60 on a winning record, and rises by
  // half a point per point of win rate lost below 65, to 0.68 at most.
  lemma BarFollowsRecord(winRate: real, samples: nat)
    ensures samples < 8 ==> JupiterCouncil.AdaptiveThreshold(Some(winRate), samples) == 0.63
    ensures samples >= 8 && winRate > 70.0 ==> JupiterCouncil.AdaptiveThreshold(Some(winRate), samples) == 0.6
    ensures samples >= 8 && 65.0 <= winRate <= 70.0 ==> JupiterCouncil.AdaptiveThreshold(Some(winRate), samples) == 0.63
    ensures samples >= 8 && 59.0 <= winRate < 65.0 ==>
              JupiterCouncil.AdaptiveThreshold(Some(winRate), samples) == 0.65 + (65.0 - winRate) * 0.005
    ensures samples >= 8 && winRate <= 59.0 ==> JupiterCouncil.AdaptiveThreshold(Some(winRate), samples) == 0.68
  {
  }

  // ----- Both councils -----

  lemma GatedAlike(raw: seq<AgentVote>, v: AgentVote)
    requires |raw| == AGENTS && InRange(v) && v.confidence >= 0.72 && forall i :: 0 <= i < AGENTS ==> raw[i] == v
    ensures forall i :: 0 <= i < AGENTS ==> JupiterCouncil.Gated(raw)[i] == v
  {
    forall i | 0 <= i < AGENTS
      ensures JupiterCouncil.Gated(raw)[i] == v
    {
      GatesLetThrough(i, raw[i]);
    }
  }

  lemma AccuracyWeighs(votes: seq<AgentVote>, accuracies: seq<Option<real>>)
    requires |votes| == |accuracies| && forall i :: 0 <= i < |votes| ==> InRange(votes[i])
    ensures Weighed(votes, JupiterCouncil.Weights(accuracies))
  {
  }

  // Seven equally confident votes of 0.72 or more: all BUY is bought if the risk analyst
  // agrees, whatever the record of each; all HOLD or AVOID never is.
  method JupiterUnanimous(v: AgentVote, accuracies: seq<Option<real>>, winRatePct: Option<real>, samples: nat)
      returns (d: JupiterCouncil.Decision)
    requires |accuracies| == AGENTS && InRange(v) && v.confidence >= 0.72
    ensures d.buy <==> v.vote == BUY
    ensures v.vote == BUY ==> d.consensus == (1.0 + v.confidence) / 2.0
  {
    var raw := seq(AGENTS, _ => v);
    d := JupiterCouncil.Evaluate(raw, accuracies, winRatePct, samples, false, true);
    var votes := JupiterCouncil.Gated(raw);
    GatedAlike(raw, v);
    AccuracyWeighs(votes, accuracies);
    UnanimousConsensus(votes, JupiterCouncil.Weights(accuracies), v);
    var rate := if winRatePct.Some? then winRatePct.value else 0.0;
    JupiterCouncil.ThresholdAntitone(rate, rate, samples);
    if v.vote == BUY {
      ThreeBuyers(votes, 0, 1, 2);
    }
  }

  // ----- Which way each voter leans -----

  // Order book and sentiment votes follow the sign of what they read, beyond a dead band; the
  // order book votes are mirror images of each other.
  lemma JupiterVotersLean(x: real, o: JupiterCouncil.Oracle)
    ensures JupiterCouncil.OrderbookVote(Some(x)).vote == BUY <==> x > 0.18
    ensures JupiterCouncil.OrderbookVote(Some(x)).vote == AVOID <==> x < -0.18
    ensures JupiterCouncil.OrderbookVote(Some(x)).confidence == JupiterCouncil.OrderbookVote(Some(-x)).confidence
    ensures JupiterCouncil.SentimentVote(Some(o)).vote == BUY <==> o.sentiment > 0.2 && o.confidence > 0.35
    ensures JupiterCouncil.SentimentVote(Some(o)).vote == AVOID <==> o.sentiment < -0.35 && o.confidence > 0.4
    ensures JupiterCouncil.VolatilityVote(x).vote == BUY <==> x >= 0.72
    ensures JupiterCouncil.VolatilityVote(x).vote == AVOID <==> x <= 0.28
  {
  }

  // A more lopsided book never votes with less confidence, and any lopsided one with more
  // than an even one.
  lemma LopsidedIsSurer(x: real, y: real)
    requires Abs(x) <= Abs(y)
    ensures JupiterCouncil.OrderbookVote(Some(x)).confidence <= JupiterCouncil.OrderbookVote(Some(y)).confidence
    ensures CexCouncil.OrderbookVote(Some(x)).confidence <= CexCouncil.OrderbookVote(Some(y)).confidence
    ensures Abs(x) <= 0.15 && Abs(y) > 0.18 ==>
              && JupiterCouncil.OrderbookVote(Some(x)).confidence < JupiterCouncil.OrderbookVote(Some(y)).confidence
              && CexCouncil.OrderbookVote(Some(x)).confidence < CexCouncil.OrderbookVote(Some(y)).confidence
  {
  }

  // Momentum and risk buy only on a pick that is 0.72 sure; a blocked trade is never bought.
  lemma JupiterCoreLeans(risk: JupiterCouncil.RiskDecision)
    ensures JupiterCouncil.MomentumVote(risk).vote == BUY <==> risk.hasPick && risk.momentumScore >= 0.72
    ensures JupiterCouncil.MomentumVote(risk).vote == AVOID <==> risk.hasPick && risk.momentumScore <= 0.3
    ensures JupiterCouncil.RiskVote(risk).vote == BUY <==> risk.blocked.None? && risk.buys && risk.confidence >= 0.72
    ensures JupiterCouncil.RiskVote(risk).vote == AVOID <==> risk.blocked == Some(false)
  {
  }

  lemma CexVotersLean(x: real, sentiment: real, confidence: real)
    ensures CexCouncil.OrderbookVote(Some(x)).vote == BUY <==> x > 0.15
    ensures CexCouncil.OrderbookVote(Some(x)).vote == AVOID <==> x < -0.15
    ensures CexCouncil.OrderbookVote(Some(x)).confidence == CexCouncil.OrderbookVote(Some(-x)).confidence
    ensures CexCouncil.SentimentVote(Some((sentiment, confidence))).vote == BUY <==>
            sentiment > 0.25 && confidence > 0.35
    ensures CexCouncil.SentimentVote(Some((sentiment, confidence))).vote == AVOID <==>
            sentiment < -0.35 && confidence > 0.4
  {
  }

  // The Binance hub's voters: momentum follows the hub, volatility avoids a move of six
  // percent, and risk buys only a hub buy of a flat account with money and a tight spread.
  lemma CexHubLeans(hub: CexCouncil.Consent, conf: real, change24: real, hasOpenLong: bool, freeUsdt: real,
                    spreadBps: Option<real>, advisesNo: bool)
    ensures CexCouncil.HubMomentum(hub, conf).vote == BUY <==> hub == CexCouncil.HubBuy && conf >= 0.45
    ensures CexCouncil.HubMomentum(hub, conf).vote == AVOID <==> hub == CexCouncil.HubSell && conf >= 0.45
    ensures CexCouncil.VolatilityVote(hub, change24).vote == AVOID <==> Abs(change24) >= 6.0
    ensures CexCouncil.VolatilityVote(hub, change24).vote == BUY <==> hub == CexCouncil.HubBuy && Abs(change24) <= 3.5
    ensures CexCouncil.HubRisk(hub, conf, hasOpenLong, freeUsdt, spreadBps, advisesNo).vote == BUY <==>
            && !hasOpenLong && freeUsdt >= 5.0 && (spreadBps.Some? ==> spreadBps.value <= 15.0) && !advisesNo
            && hub == CexCouncil.HubBuy && conf >= 0.5
  {
  }

  // The order is the largest amount in whole cents within the cap and 95% of the wallet, or
  // the cap itself.
  lemma OrderSizeIsGreatest(maxTradeUsd: real, freeUsdt: real, cents: int)
    ensures cents as real / 100.0 <= freeUsdt * 0.95 && cents as real / 100.0 <= maxTradeUsd ==>
              cents as real / 100.0 <= CexCouncil.OrderSizeUsd(maxTradeUsd, freeUsdt)
    ensures CexCouncil.OrderSizeUsd(maxTradeUsd, freeUsdt) <= freeUsdt * 0.95
    ensures CexCouncil.OrderSizeUsd(maxTradeUsd, freeUsdt) <= maxTradeUsd
  {
    WholeCents(Min(freeUsdt * 0.95, maxTradeUsd), cents);
  }

  lemma WholeCents(y: real, cents: int)
    ensures var whole := (y * 100.0).Floor as real / 100.0;
            whole <= y && (cents as real / 100.0 <= y ==> cents as real / 100.0 <= whole)
  {
    var n := (y * 100.0).Floor;
    if cents as real / 100.0 <= y {
      assert cents as real <= y * 100.0;
      assert cents <= n;
    }
  }
}
