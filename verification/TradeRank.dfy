// Ranking trade candidates: the tie-band comparator, the filters and scores of the risk
// analyst, and the sorted list it takes its shortlist from.
module TradeRank {
  import opened Common

  datatype Scored = Scored(item: Suggestion, totalScore: real, isMajor: bool)

  const TIE_BAND: real := 0.04

  // Negative: a ranks first. Positive: b ranks first.
  function CompareTradeRank(a: Scored, b: Scored, tieBand: real): real {
    if Abs(a.totalScore - b.totalScore) >= tieBand then b.totalScore - a.totalScore
    else if a.isMajor != b.isMajor then (if a.isMajor then -1.0 else 1.0)
    else b.totalScore - a.totalScore
  }

  // ----- The comparator is an order -----

  // A major counts as much as a score one tie band higher.
  function Key(a: Scored, tieBand: real): real {
    a.totalScore + if a.isMajor then tieBand else 0.0
  }

  // Higher key first; equal keys, the non-major first.
  predicate Precedes(a: Scored, b: Scored, tieBand: real) {
    Key(a, tieBand) > Key(b, tieBand) || (Key(a, tieBand) == Key(b, tieBand) && !a.isMajor && b.isMajor)
  }

  // Near ties look intransitive, but the comparator is exactly the order by key.
  lemma ComparatorIsKeyOrder(a: Scored, b: Scored, tieBand: real)
    requires tieBand > 0.0
    ensures CompareTradeRank(a, b, tieBand) < 0.0 <==> Precedes(a, b, tieBand)
    ensures CompareTradeRank(a, b, tieBand) > 0.0 <==> Precedes(b, a, tieBand)
    ensures CompareTradeRank(a, b, tieBand) == 0.0 <==> a.totalScore == b.totalScore && a.isMajor == b.isMajor
  {
  }

  lemma ComparatorIsTransitive(a: Scored, b: Scored, c: Scored, tieBand: real)
    requires tieBand > 0.0
    requires CompareTradeRank(a, b, tieBand) <= 0.0 && CompareTradeRank(b, c, tieBand) <= 0.0
    ensures CompareTradeRank(a, c, tieBand) <= 0.0
    ensures CompareTradeRank(a, b, tieBand) < 0.0 || CompareTradeRank(b, c, tieBand) < 0.0 ==>
              CompareTradeRank(a, c, tieBand) < 0.0
  {
    ComparatorIsKeyOrder(a, b, tieBand);
    ComparatorIsKeyOrder(b, c, tieBand);
    ComparatorIsKeyOrder(a, c, tieBand);
  }

  // ----- Filters and scores -----

  datatype Strength = Strong | Rising | Watch | Weak

  datatype Suggestion = Suggestion(
    symbol: string,
    base: string,
    signal: Strength,
    liquidityUsd: real,
    volume24hUsd: real,
    score: real,
    change5m: real,
    change1h: real,
    change24h: real)

  datatype Settings = Settings(minLiquidityUsd: real, minStrong: bool, watchSymbol: Option<string>)
  datatype BoardSignal = BoardSignal(symbol: string, isBuy: bool)

  function UpperChar(c: char): char {
    if 'a' <= c <= 'z' then (c as int - 32) as char else c
  }

  function Upper(s: string): string {
    seq(|s|, i requires 0 <= i < |s| => UpperChar(s[i]))
  }

  predicate IsTier1Major(base: string) {
    Upper(Trim(base)) in {"SOL", "BTC", "ETH", "WBTC", "WETH"}
  }

  function SignalRank(s: Strength): int {
    match s case Strong => 3 case Rising => 2 case Watch => 1 case Weak => 0
  }

  predicate IsOverextended(x: Suggestion) {
    x.change5m > 8.0 || x.change1h > 20.0 || x.change24h > 60.0
  }

  predicate Passes(x: Suggestion, settings: Settings, openBases: set<string>) {
    && (settings.watchSymbol.Some? ==> Upper(x.symbol) == Upper(settings.watchSymbol.value))
    && SignalRank(x.signal) >= (if settings.minStrong then 3 else 2)
    && x.liquidityUsd >= settings.minLiquidityUsd
    && Upper(x.base) !in openBases
    && !IsOverextended(x)
  }

  function VolumeScore(x: Suggestion): real {
    if x.volume24hUsd > 10000000.0 then 1.0
    else if x.volume24hUsd > 1000000.0 then 0.85
    else if x.volume24hUsd > 500000.0 then 0.7
    else if x.volume24hUsd > 100000.0 then 0.55
    else 0.4
  }

  function FirstSignal(signals: seq<BoardSignal>, symbol: string): Option<BoardSignal> {
    if signals == [] then None
    else if signals[0].symbol == symbol then Some(signals[0])
    else FirstSignal(signals[1..], symbol)
  }

  function MomentumScore(x: Suggestion, signals: seq<BoardSignal>): real {
    var board := FirstSignal(signals, x.symbol);
    var s0 := x.score / 100.0;
    var s1 := if board.Some? && board.value.isBuy then s0 + 0.15 else s0;
    var s2 := if 0.0 < x.change1h < 8.0 then s1 + 0.1 else if x.change1h > 15.0 then s1 - 0.1 else s1;
    var s3 := if 0.0 < x.change24h < 20.0 then s2 + 0.05
              else if x.change24h > 50.0 then s2 - 0.15
              else if x.change24h < -20.0 then s2 - 0.1
              else s2;
    Clamp01(s3)
  }

  function Score(x: Suggestion, signals: seq<BoardSignal>): Scored {
    Scored(x, VolumeScore(x) * 0.35 + MomentumScore(x, signals) * 0.65, IsTier1Major(x.base))
  }

  // Every score lies between the floor a thin token gets and 1.
  lemma ScoreRange(x: Suggestion, signals: seq<BoardSignal>)
    ensures 0.14 <= Score(x, signals).totalScore <= 1.0
  {
  }

  // A token gets through exactly if it is the watched one, when one is watched; its signal is
  // strong, or rising where that suffices; it has the liquidity; it is not held; and it has
  // not run up more than 8% in five minutes, 20% in an hour or 60% in a day.
  lemma PassesIff(x: Suggestion, settings: Settings, openBases: set<string>)
    ensures Passes(x, settings, openBases) <==>
            && (settings.watchSymbol.Some? ==> Upper(x.symbol) == Upper(settings.watchSymbol.value))
            && (x.signal == Strong || (x.signal == Rising && !settings.minStrong))
            && x.liquidityUsd >= settings.minLiquidityUsd && Upper(x.base) !in openBases
            && x.change5m <= 8.0 && x.change1h <= 20.0 && x.change24h <= 60.0
  {
  }

  // More volume, a higher suggestion score or a buy on the signal board never lower the
  // score, other things equal.
  lemma ScoreMonotone(x: Suggestion, y: Suggestion, signals: seq<BoardSignal>)
    requires y == x.(volume24hUsd := y.volume24hUsd, score := y.score)
    requires x.volume24hUsd <= y.volume24hUsd && x.score <= y.score
    ensures Score(x, signals).totalScore <= Score(y, signals).totalScore
  {
    assert VolumeScore(x) <= VolumeScore(y) && MomentumScore(x, signals) <= MomentumScore(y, signals);
  }

  // Momentum counts for 65% of the score and volume for 35%: a full point of momentum is
  // worth more than any difference in volume.
  lemma ScoreWeights(x: Suggestion, y: Suggestion, signals: seq<BoardSignal>)
    ensures Score(x, signals).totalScore - Score(y, signals).totalScore ==
            0.65 * (MomentumScore(x, signals) - MomentumScore(y, signals)) + 0.35 * (VolumeScore(x) - VolumeScore(y))
    ensures 0.0 <= MomentumScore(x, signals) <= 1.0 && 0.4 <= VolumeScore(x) <= 1.0
    ensures MomentumScore(x, signals) == 1.0 && MomentumScore(y, signals) == 0.0 ==>
              Score(x, signals).totalScore > Score(y, signals).totalScore
  {
  }

  // What each circumstance adds to a middling score: a buy on the board 0.15; a rise of less
  // than 8% in the hour 0.1, more than 15% minus 0.1; a rise of less than 20% in the day 0.05,
  // more than 50% minus 0.15, a fall of more than 20% minus 0.1.
  lemma MomentumTerms(x: Suggestion, signals: seq<BoardSignal>)
    requires 40.0 <= x.score <= 60.0
    ensures var bare := x.(change1h := 0.0, change24h := 0.0);
            && MomentumScore(bare, []) == x.score / 100.0
            && MomentumScore(bare, [BoardSignal(x.symbol, true)] + signals) == x.score / 100.0 + 0.15
            && MomentumScore(bare, [BoardSignal(x.symbol, false)] + signals) == x.score / 100.0
            && MomentumScore(bare.(change1h := x.change1h), []) == x.score / 100.0 + HourTerm(x.change1h)
            && MomentumScore(bare.(change24h := x.change24h), []) == x.score / 100.0 + DayTerm(x.change24h)
  {
    assert ([BoardSignal(x.symbol, true)] + signals)[0] == BoardSignal(x.symbol, true);
    assert ([BoardSignal(x.symbol, false)] + signals)[0] == BoardSignal(x.symbol, false);
  }

  ghost function HourTerm(change: real): real {
    if change > 15.0 then -0.1 else if 0.0 < change && change < 8.0 then 0.1 else 0.0
  }

  ghost function DayTerm(change: real): real {
    if change > 50.0 then -0.15 else if change < -20.0 then -0.1
    else if 0.0 < change && change < 20.0 then 0.05 else 0.0
  }

  // The tiers of daily volume.
  lemma VolumeTiers(x: Suggestion)
    ensures VolumeScore(x) == 1.0 <==> x.volume24hUsd > 10000000.0
    ensures VolumeScore(x) >= 0.85 <==> x.volume24hUsd > 1000000.0
    ensures VolumeScore(x) >= 0.7 <==> x.volume24hUsd > 500000.0
    ensures VolumeScore(x) >= 0.55 <==> x.volume24hUsd > 100000.0
    ensures VolumeScore(x) in {0.4, 0.55, 0.7, 0.85, 1.0}
  {
  }

  // The scored candidates: precisely the suggestions passing every filter, in order.
  function Candidates(xs: seq<Suggestion>, settings: Settings, openBases: set<string>,
                      signals: seq<BoardSignal>): seq<Scored> {
    if xs == [] then []
    else
      var rest := Candidates(xs[..|xs| - 1], settings, openBases, signals);
      var x := xs[|xs| - 1];
      if Passes(x, settings, openBases) then rest + [Score(x, signals)] else rest
  }

  lemma {:induction false} CandidatesAreThePassing(
    xs: seq<Suggestion>, settings: Settings, openBases: set<string>, signals: seq<BoardSignal>, c: Scored)
    ensures c in Candidates(xs, settings, openBases, signals) <==>
            exists i :: 0 <= i < |xs| && Passes(xs[i], settings, openBases) && c == Score(xs[i], signals)
  {
    if xs == [] {
    } else {
      var n := |xs| - 1;
      CandidatesAreThePassing(xs[..n], settings, openBases, signals, c);
      if Passes(xs[n], settings, openBases) && c == Score(xs[n], signals) {
        assert c in Candidates(xs, settings, openBases, signals);
      }
      if i :| 0 <= i < n && Passes(xs[..n][i], settings, openBases) && c == Score(xs[..n][i], signals) {
        assert xs[i] == xs[..n][i];
      }
      if i :| 0 <= i < n && Passes(xs[i], settings, openBases) && c == Score(xs[i], signals) {
        assert xs[..n][i] == xs[i];
      }
    }
  }

  // ----- Sorting -----

  ghost predicate Ranked(r: seq<Scored>) {
    forall i, j :: 0 <= i < j < |r| ==> CompareTradeRank(r[i], r[j], TIE_BAND) <= 0.0
  }

  // The members of r that compare as equal to c, in order.
  function Peers(r: seq<Scored>, c: Scored): seq<Scored> {
    if r == [] then []
    else
      var rest := Peers(r[..|r| - 1], c);
      var x := r[|r| - 1];
      if x.totalScore == c.totalScore && x.isMajor == c.isMajor then rest + [x] else rest
  }

  lemma {:induction false} PeersConcat(a: seq<Scored>, b: seq<Scored>, c: Scored)
    ensures Peers(a + b, c) == Peers(a, c) + Peers(b, c)
  {
    if b == [] {
      assert a + b == a;
    } else {
      PeersConcat(a, b[..|b| - 1], c);
      assert (a + b)[..|a + b| - 1] == a + b[..|b| - 1];
    }
  }

  lemma {:induction false} NoPeers(r: seq<Scored>, c: Scored)
    requires forall i :: 0 <= i < |r| ==> r[i].totalScore != c.totalScore || r[i].isMajor != c.isMajor
    ensures Peers(r, c) == []
  {
    if r == [] {
    } else {
      NoPeers(r[..|r| - 1], c);
    }
  }

  // r is what a stable sort by the comparator makes of xs.
  ghost predicate StablySorted(xs: seq<Scored>, r: seq<Scored>) {
    && Ranked(r)
    && multiset(r) == multiset(xs)
    && forall c :: Peers(r, c) == Peers(xs, c)
  }

  // Where x goes: after everything that does not rank behind it.
  method InsertionPoint(r: seq<Scored>, x: Scored) returns (k: nat)
    requires Ranked(r)
    ensures k <= |r|
    ensures forall i :: 0 <= i < k ==> CompareTradeRank(r[i], x, TIE_BAND) <= 0.0
    ensures forall i :: k <= i < |r| ==> CompareTradeRank(x, r[i], TIE_BAND) < 0.0
  {
    k := |r|;
    while k > 0 && CompareTradeRank(r[k - 1], x, TIE_BAND) > 0.0
      invariant k <= |r|
      invariant forall i :: k <= i < |r| ==> CompareTradeRank(x, r[i], TIE_BAND) < 0.0
    {
      ComparatorIsKeyOrder(r[k - 1], x, TIE_BAND);
      ComparatorIsKeyOrder(x, r[k - 1], TIE_BAND);
      k := k - 1;
    }
    if k > 0 {
      forall i | 0 <= i < k
        ensures CompareTradeRank(r[i], x, TIE_BAND) <= 0.0
      {
        if i < k - 1 {
          ComparatorIsTransitive(r[i], r[k - 1], x, TIE_BAND);
        }
      }
    }
  }

  lemma InsertedPeers(r: seq<Scored>, k: nat, x: Scored, c: Scored)
    requires k <= |r| && forall i :: k <= i < |r| ==> CompareTradeRank(x, r[i], TIE_BAND) < 0.0
    ensures Peers(r[..k] + [x] + r[k..], c) == Peers(r + [x], c)
  {
    PeersConcat(r[..k] + [x], r[k..], c);
    PeersConcat(r[..k], [x], c);
    PeersConcat(r, [x], c);
    assert r == r[..k] + r[k..];
    PeersConcat(r[..k], r[k..], c);
    assert [x][..0] == [];
    if x.totalScore == c.totalScore && x.isMajor == c.isMajor {
      forall i | 0 <= i < |r[k..]|
        ensures r[k..][i].totalScore != c.totalScore || r[k..][i].isMajor != c.isMajor
      {
        ComparatorIsKeyOrder(x, r[k..][i], TIE_BAND);
      }
      NoPeers(r[k..], c);
    }
  }

  function Inserted(r: seq<Scored>, k: nat, x: Scored): seq<Scored>
    requires k <= |r|
  {
    r[..k] + [x] + r[k..]
  }

  lemma InsertedRanked(r: seq<Scored>, k: nat, x: Scored)
    requires Ranked(r) && k <= |r|
    requires forall i :: 0 <= i < k ==> CompareTradeRank(r[i], x, TIE_BAND) <= 0.0
    requires forall i :: k <= i < |r| ==> CompareTradeRank(x, r[i], TIE_BAND) < 0.0
    ensures Ranked(Inserted(r, k, x))
  {
  }

  lemma InsertedMembers(r: seq<Scored>, k: nat, x: Scored)
    requires k <= |r|
    ensures multiset(Inserted(r, k, x)) == multiset(r) + multiset{x}
  {
    assert r == r[..k] + r[k..];
  }

  // Inserting the next element behind all that do not rank behind it keeps the sort stable.
  lemma InsertedIsStable(xs: seq<Scored>, r: seq<Scored>, k: nat, x: Scored)
    requires StablySorted(xs, r) && k <= |r|
    requires forall i :: 0 <= i < k ==> CompareTradeRank(r[i], x, TIE_BAND) <= 0.0
    requires forall i :: k <= i < |r| ==> CompareTradeRank(x, r[i], TIE_BAND) < 0.0
    ensures StablySorted(xs + [x], Inserted(r, k, x))
  {
    InsertedRanked(r, k, x);
    InsertedMembers(r, k, x);
    forall c
      ensures Peers(Inserted(r, k, x), c) == Peers(xs + [x], c)
    {
      InsertedPeers(r, k, x, c);
      PeersConcat(r, [x], c);
      PeersConcat(xs, [x], c);
    }
  }

  method StableSort(xs: seq<Scored>) returns (r: seq<Scored>)
    ensures StablySorted(xs, r)
  {
    r := [];
    for n := 0 to |xs|
      invariant StablySorted(xs[..n], r)
    {
      var k := InsertionPoint(r, xs[n]);
      InsertedIsStable(xs[..n], r, k, xs[n]);
      r := Inserted(r, k, xs[n]);
      assert xs[..n + 1] == xs[..n] + [xs[n]];
    }
    assert xs[..|xs|] == xs;
  }

  // Filter, score, sort.
  method RankTokens(xs: seq<Suggestion>, settings: Settings, openBases: set<string>, signals: seq<BoardSignal>)
      returns (ranked: seq<Scored>)
    ensures StablySorted(Candidates(xs, settings, openBases, signals), ranked)
  {
    var scored := [];
    for n := 0 to |xs|
      invariant scored == Candidates(xs[..n], settings, openBases, signals)
    {
      assert xs[..n + 1][..n] == xs[..n];
      if Passes(xs[n], settings, openBases) {
        scored := scored + [Score(xs[n], signals)];
      }
    }
    assert xs[..|xs|] == xs;
    ranked := StableSort(scored);
  }

  // The shortlist holds the best three: no candidate left out ranks ahead of one in it.
  lemma ShortlistIsBest(xs: seq<Scored>, ranked: seq<Scored>, c: Scored)
    requires StablySorted(xs, ranked)
    requires multiset(ranked[if |ranked| < 3 then |ranked| else 3..])[c] > 0
    ensures c in xs
    ensures forall i :: 0 <= i < 3 && i < |ranked| ==> CompareTradeRank(ranked[i], c, TIE_BAND) <= 0.0
  {
    var k := if |ranked| < 3 then |ranked| else 3;
    assert c in ranked[k..];
    var j :| k <= j < |ranked| && ranked[j] == c;
    assert c in multiset(ranked);
    assert c in multiset(xs);
  }

  lemma HeadIsFirstPeer(r: seq<Scored>, c: Scored)
    requires r != [] && r[0].totalScore == c.totalScore && r[0].isMajor == c.isMajor
    ensures Peers(r, c) == [r[0]] + Peers(r[1..], c)
  {
    assert r == [r[0]] + r[1..];
    PeersConcat([r[0]], r[1..], c);
    assert [r[0]][..0] == [];
  }

  lemma TailPeers(r: seq<Scored>, r': seq<Scored>, c: Scored)
    requires r != [] && r' != [] && r[0] == r'[0] && Peers(r, c) == Peers(r', c)
    ensures Peers(r[1..], c) == Peers(r'[1..], c)
  {
    assert r == [r[0]] + r[1..] && r' == [r'[0]] + r'[1..];
    PeersConcat([r[0]], r[1..], c);
    PeersConcat([r'[0]], r'[1..], c);
    var head := Peers([r[0]], c);
    assert Peers(r[1..], c) == Peers(r, c)[|head|..];
    assert Peers(r'[1..], c) == Peers(r', c)[|head|..];
  }

  lemma PeersOfHeads(r: seq<Scored>, r': seq<Scored>, c: Scored)
    requires r != [] && r' != [] && Peers(r, c) == Peers(r', c)
    requires r[0].totalScore == c.totalScore && r[0].isMajor == c.isMajor
    requires r'[0].totalScore == c.totalScore && r'[0].isMajor == c.isMajor
    ensures r[0] == r'[0]
  {
    HeadIsFirstPeer(r, c);
    HeadIsFirstPeer(r', c);
    assert Peers(r, c)[0] == Peers(r', c)[0];
  }

  // No element ranks ahead of the head.
  lemma HeadIsFirst(r: seq<Scored>, x: Scored)
    requires Ranked(r) && r != [] && x in multiset(r)
    ensures x == r[0] || CompareTradeRank(r[0], x, TIE_BAND) <= 0.0
  {
    var i :| 0 <= i < |r| && r[i] == x;
  }

  // Two that rank level are peers.
  lemma LevelIsPeer(a: Scored, b: Scored)
    requires CompareTradeRank(a, b, TIE_BAND) <= 0.0 && CompareTradeRank(b, a, TIE_BAND) <= 0.0
    ensures a.totalScore == b.totalScore && a.isMajor == b.isMajor
  {
    ComparatorIsKeyOrder(a, b, TIE_BAND);
    ComparatorIsKeyOrder(b, a, TIE_BAND);
  }

  lemma SameHead(r: seq<Scored>, r': seq<Scored>)
    requires Ranked(r) && Ranked(r') && multiset(r) == multiset(r') && r != [] && r' != []
    requires Peers(r, r[0]) == Peers(r', r[0])
    ensures r[0] == r'[0]
  {
    HeadIsFirst(r, r'[0]);
    HeadIsFirst(r', r[0]);
    if r[0] != r'[0] {
      LevelIsPeer(r[0], r'[0]);
      PeersOfHeads(r, r', r[0]);
    }
  }

  lemma TailMembers(r: seq<Scored>)
    requires r != []
    ensures multiset(r) == multiset(r[1..]) + multiset{r[0]}
  {
    assert r == [r[0]] + r[1..];
  }

  lemma TailRanked(r: seq<Scored>)
    requires Ranked(r) && r != []
    ensures Ranked(r[1..])
  {
  }

  lemma SameRest(a: multiset<Scored>, b: multiset<Scored>, x: Scored)
    requires a + multiset{x} == b + multiset{x}
    ensures a == b
  {
    assert a == (a + multiset{x}) - multiset{x};
    assert b == (b + multiset{x}) - multiset{x};
  }

  lemma SameTail(r: seq<Scored>, r': seq<Scored>)
    requires Ranked(r) && Ranked(r') && multiset(r) == multiset(r') && r != [] && r' != [] && r[0] == r'[0]
    ensures Ranked(r[1..]) && Ranked(r'[1..]) && multiset(r[1..]) == multiset(r'[1..])
  {
    TailRanked(r);
    TailRanked(r');
    TailMembers(r);
    TailMembers(r');
    SameRest(multiset(r[1..]), multiset(r'[1..]), r[0]);
  }

  // Sorted and stable leaves no choice: the ranking is one definite list.
  lemma {:induction false} StableSortIsUnique(r: seq<Scored>, r': seq<Scored>)
    requires Ranked(r) && Ranked(r') && multiset(r) == multiset(r')
    requires forall c :: Peers(r, c) == Peers(r', c)
    ensures r == r'
    decreases |r|
  {
    assert |multiset(r)| == |r| && |multiset(r')| == |r'|;
    if r == [] {
    } else {
      SameHead(r, r');
      SameTail(r, r');
      forall c
        ensures Peers(r[1..], c) == Peers(r'[1..], c)
      {
        TailPeers(r, r', c);
      }
      StableSortIsUnique(r[1..], r'[1..]);
      assert r == [r[0]] + r[1..] && r' == [r'[0]] + r'[1..];
    }
  }
}
