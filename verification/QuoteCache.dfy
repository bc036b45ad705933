// Quotes from the swap aggregator: a short cache, stale quotes rescaled while the
// aggregator refuses requests, and the retry loop around one order call.
module QuoteCache {
  import opened Common
  import opened Decimal

  const QUOTE_ORDER_TTL_MS: int := 2_500
  const QUOTE_ORDER_STALE_MS: int := 45_000
  const RATE_LIMIT_BACKOFF_MS: int := 12_000

  datatype Key = Key(inputMint: string, outputMint: string, amount: string, options: string)
  datatype Order = Order(inAmount: string, outAmount: string, route: nat)
  datatype Entry = Entry(key: Key, at: int, body: Order)

  // A Map in insertion order: setting a present key keeps its place.
  type Cache = seq<Entry>

  ghost predicate DistinctKeys(cache: Cache) {
    forall i, j :: 0 <= i < j < |cache| ==> cache[i].key != cache[j].key
  }

  function Find(cache: Cache, key: Key): (i: nat)
    ensures i <= |cache|
    ensures i < |cache| ==> cache[i].key == key
    ensures forall j :: 0 <= j < i ==> cache[j].key != key
  {
    if cache == [] || cache[0].key == key then 0 else 1 + Find(cache[1..], key)
  }

  function Put(cache: Cache, e: Entry): Cache {
    var i := Find(cache, e.key);
    if i < |cache| then cache[i := e] else cache + [e]
  }

  lemma PutKeepsDistinct(cache: Cache, e: Entry)
    requires DistinctKeys(cache)
    ensures DistinctKeys(Put(cache, e))
    ensures exists i :: 0 <= i < |Put(cache, e)| && Put(cache, e)[i] == e
  {
    var i := Find(cache, e.key);
    assert Put(cache, e)[i] == e;
  }

  // BigInt of a decimal numeral.
  function BigInt(s: string): Option<nat> {
    if AllDigits(s) then Some(DigitsValue(s)) else None
  }

  predicate Fresh(e: Entry, now: int) {
    now - e.at <= QUOTE_ORDER_STALE_MS
  }

  function StaleCachedOrder(cache: Cache, key: Key, now: int): Option<Order> {
    var i := Find(cache, key);
    if i < |cache| && Fresh(cache[i], now) then Some(cache[i].body) else None
  }

  // A quote young enough to be served as it is.
  function Hit(cache: Cache, key: Key, now: int): Option<Order> {
    var i := Find(cache, key);
    if i < |cache| && now - cache[i].at < QUOTE_ORDER_TTL_MS then Some(cache[i].body) else None
  }

  // ----- Rescaling another size of the same pair -----

  predicate Usable(e: Entry, inputMint: string, outputMint: string, now: int) {
    && Fresh(e, now) && e.key.inputMint == inputMint && e.key.outputMint == outputMint
    && BigInt(e.key.amount).Some? && BigInt(e.key.amount).value > 0
  }

  // The newest usable entry, the first inserted among equals.
  ghost predicate IsNewest(cache: Cache, i: nat, inputMint: string, outputMint: string, now: int) {
    && i < |cache| && Usable(cache[i], inputMint, outputMint, now)
    && (forall j :: 0 <= j < |cache| && Usable(cache[j], inputMint, outputMint, now) ==> cache[j].at <= cache[i].at)
    && (forall j :: 0 <= j < i && Usable(cache[j], inputMint, outputMint, now) ==> cache[j].at < cache[i].at)
  }

  method FindNewest(cache: Cache, inputMint: string, outputMint: string, now: int) returns (best: Option<nat>)
    ensures best.Some? ==> IsNewest(cache, best.value, inputMint, outputMint, now)
    ensures best.None? <==> forall j :: 0 <= j < |cache| ==> !Usable(cache[j], inputMint, outputMint, now)
  {
    best := None;
    for n := 0 to |cache|
      invariant best.Some? ==> best.value < n && IsNewest(cache[..n], best.value, inputMint, outputMint, now)
      invariant best.None? <==> forall j :: 0 <= j < n ==> !Usable(cache[j], inputMint, outputMint, now)
    {
      if Usable(cache[n], inputMint, outputMint, now) && (best.None? || cache[n].at > cache[best.value].at) {
        best := Some(n);
      }
    }
    assert cache[..|cache|] == cache;
  }

  // r is the quote `body`, cached for cachedAmt, rescaled to amount by integer division.
  ghost predicate Rescales(r: Order, body: Order, cachedAmt: nat, amountRaw: string) {
    && BigInt(amountRaw).Some? && BigInt(body.outAmount).Some? && BigInt(r.outAmount).Some?
    && r == body.(inAmount := amountRaw, outAmount := r.outAmount)
    && var amount, outAmount, scaled := BigInt(amountRaw).value, BigInt(body.outAmount).value,
       BigInt(r.outAmount).value;
       && amount > 0 && scaled > 0
       && ScaledDown(scaled, outAmount, amount, cachedAmt)
  }

  // scaled is outAmount * amount / cachedAmt rounded down: its rate never beats the cached one.
  ghost predicate ScaledDown(scaled: nat, outAmount: nat, amount: nat, cachedAmt: nat) {
    scaled * cachedAmt <= outAmount * amount < (scaled + 1) * cachedAmt
  }

  function ScaleOut(outAmount: nat, amount: nat, cachedAmt: nat): (scaled: nat)
    requires cachedAmt > 0
    ensures ScaledDown(scaled, outAmount, amount, cachedAmt)
  {
    DivisionScalesDown(outAmount, amount, cachedAmt, outAmount * amount);
    outAmount * amount / cachedAmt
  }

  lemma DivisionScalesDown(outAmount: nat, amount: nat, cachedAmt: nat, p: int)
    requires cachedAmt > 0 && p == outAmount * amount
    ensures p >= 0 && p / cachedAmt >= 0 && ScaledDown(p / cachedAmt, outAmount, amount, cachedAmt)
  {
    var q, r := p / cachedAmt, p % cachedAmt;
    var qc := q * cachedAmt;
    assert p == qc + r;
    assert (q + 1) * cachedAmt == qc + cachedAmt;
  }

  lemma RescaledOrder(body: Order, cachedAmt: nat, amountRaw: string, scaled: nat)
    requires BigInt(amountRaw).Some? && BigInt(body.outAmount).Some? && BigInt(amountRaw).value > 0 && scaled > 0
    requires ScaledDown(scaled, BigInt(body.outAmount).value, BigInt(amountRaw).value, cachedAmt)
    ensures Rescales(body.(inAmount := amountRaw, outAmount := DigitsOf(scaled, 1)), body, cachedAmt, amountRaw)
  {
  }

  // The entry can serve this amount: all three numerals read, and at least one unit is left.
  predicate Rescalable(e: Entry, amountRaw: string) {
    && BigInt(amountRaw).Some? && BigInt(e.body.outAmount).Some? && BigInt(e.key.amount).Some?
    && 0 < BigInt(e.key.amount).value <= BigInt(e.body.outAmount).value * BigInt(amountRaw).value
  }

  // r is the newest usable entry of the pair, rescaled.
  ghost predicate RescaledFromNewest(cache: Cache, inputMint: string, outputMint: string, amountRaw: string, now: int,
                                     r: Order) {
    exists i: nat :: IsNewest(cache, i, inputMint, outputMint, now) &&
                Rescales(r, cache[i].body, BigInt(cache[i].key.amount).value, amountRaw)
  }

  // The newest usable entry of the pair can serve this amount.
  ghost predicate CanRescale(cache: Cache, inputMint: string, outputMint: string, amountRaw: string, now: int) {
    exists i: nat :: IsNewest(cache, i, inputMint, outputMint, now) && Rescalable(cache[i], amountRaw)
  }

  lemma NothingLeftIff(scaled: nat, outAmount: nat, amount: nat, cachedAmt: nat, p: int)
    requires cachedAmt > 0 && p == outAmount * amount && ScaledDown(scaled, outAmount, amount, cachedAmt)
    ensures scaled > 0 <==> cachedAmt <= p
    ensures amount == 0 ==> p == 0
  {
    var sc := scaled * cachedAmt;
    if scaled > 0 {
      assert sc == (scaled - 1) * cachedAmt + cachedAmt;
    }
  }

  method StaleCachedOrderByMints(cache: Cache, inputMint: string, outputMint: string, amountRaw: string, now: int)
      returns (r: Option<Order>)
    ensures r.Some? <==> CanRescale(cache, inputMint, outputMint, amountRaw, now)
    ensures r.Some? ==> RescaledFromNewest(cache, inputMint, outputMint, amountRaw, now, r.value)
  {
    var amount := BigInt(amountRaw);
    if amount.None? || amount.value == 0 {
      return None;
    }
    var best := FindNewest(cache, inputMint, outputMint, now);
    if best.None? {
      return None;
    }
    var e := cache[best.value];
    var cachedAmt := BigInt(e.key.amount).value;
    var outNum := BigInt(e.body.outAmount);
    if outNum.None? {
      return None;
    }
    assert IsNewest(cache, best.value, inputMint, outputMint, now);
    var scaledOut := ScaleOut(outNum.value, amount.value, cachedAmt);
    NothingLeftIff(scaledOut, outNum.value, amount.value, cachedAmt, outNum.value * amount.value);
    if scaledOut == 0 {
      return None;
    }
    r := Some(e.body.(inAmount := amountRaw, outAmount := DigitsOf(scaledOut, 1)));
    RescaledOrder(e.body, cachedAmt, amountRaw, scaledOut);
  }

  // Where a stale quote comes from: the exact key while it is unexpired, otherwise the
  // newest entry of the pair, rescaled.
  ghost predicate StaleSource(cache: Cache, key: Key, now: int, r: Order) {
    || StaleCachedOrder(cache, key, now) == Some(r)
    || (&& StaleCachedOrder(cache, key, now).None?
        && RescaledFromNewest(cache, key.inputMint, key.outputMint, key.amount, now, r))
  }

  ghost predicate Resolvable(cache: Cache, key: Key, now: int) {
    StaleCachedOrder(cache, key, now).Some? || CanRescale(cache, key.inputMint, key.outputMint, key.amount, now)
  }

  method ResolveStaleQuote(cache: Cache, key: Key, now: int) returns (r: Option<Order>)
    ensures r.Some? ==> StaleSource(cache, key, now, r.value)
    ensures StaleCachedOrder(cache, key, now).Some? ==> r == StaleCachedOrder(cache, key, now)
    ensures r.Some? <==> Resolvable(cache, key, now)
  {
    r := StaleCachedOrder(cache, key, now);
    if r.None? {
      r := StaleCachedOrderByMints(cache, key.inputMint, key.outputMint, key.amount, now);
    }
  }

  // ----- The order call -----

  // What one HTTP attempt meets: success, a 429, an error response that talks of rate
  // limits, one worth retrying, any other, or a thrown network error.
  datatype Reply = Success(body: Order) | TooManyRequests | RateText | Retryable | OtherError | NetworkError

  // The aggregator is refusing requests.
  predicate Refuses(reply: Reply) {
    reply.TooManyRequests? || reply.RateText?
  }

  datatype Failure = RateLimited | OrderFailed

  function Bumped(slippageBps: Option<int>, attempt: nat): int {
    var s := (match slippageBps case None => 100 case Some(v) => v) + 50 * attempt;
    if s < 2000 then s else 2000
  }

  // A retry never lowers a slippage that was within the cap, and only then.
  lemma BumpRaisesIff(s: int, attempt: nat)
    requires attempt >= 1
    ensures Bumped(Some(s), attempt) >= s <==> s <= 2000
    ensures Bumped(Some(s), attempt) <= 2000
  {
  }

  // A caller that starts above the cap asks for less on its first retry.
  lemma BumpLowersAboveCap(s: int)
    requires s > 2000
    ensures Bumped(Some(s), 1) == 2000 < s
  {
  }

  // The schedule of a taker whose errors are all retried: 50, 100 and 150 basis points more
  // with every attempt, 2000 at most; a caller that set none starts from 100.
  lemma SlippageSchedule(s: int)
    requires s <= 2000
    ensures var first := Bumped(Some(s), 1);
            var second := Bumped(Some(first), 2);
            var third := Bumped(Some(second), 3);
            && first == (if s <= 1950 then s + 50 else 2000)
            && second == (if s <= 1850 then s + 150 else 2000)
            && third == (if s <= 1700 then s + 300 else 2000)
    ensures Bumped(None, 1) == 150
  {
  }

  // A stale quote is never older than 45 seconds, and one served at once never 2.5.
  lemma QuotesAreRecent(cache: Cache, key: Key, now: int)
    ensures StaleCachedOrder(cache, key, now).Some? ==>
              exists i :: 0 <= i < |cache| && cache[i].key == key && now - cache[i].at <= 45_000
    ensures Hit(cache, key, now).Some? ==>
              exists i :: 0 <= i < |cache| && cache[i].key == key && now - cache[i].at < 2_500
    ensures forall i: nat :: IsNewest(cache, i, key.inputMint, key.outputMint, now) ==> now - cache[i].at <= 45_000
  {
    var i := Find(cache, key);
    if i < |cache| {
      assert cache[i].key == key;
    }
  }

  function Attempts(taker: bool): nat {
    if taker then 4 else 2
  }

  ghost predicate NotFalling(a: Option<int>, b: Option<int>) {
    a.Some? ==> b.Some? && a.value <= b.value
  }

  // The slippages requested, attempt by attempt.
  ghost predicate Rising(sent: seq<Option<int>>) {
    forall i, j :: 0 <= i < j < |sent| ==> NotFalling(sent[i], sent[j])
  }

  ghost predicate Capped(sent: seq<Option<int>>) {
    forall i :: 0 <= i < |sent| && sent[i].Some? ==> sent[i].value <= 2000
  }

  // Sent so far, and about to be sent.
  ghost predicate Ascending(sent: seq<Option<int>>, next: Option<int>) {
    && Rising(sent) && Capped(sent)
    && (forall i :: 0 <= i < |sent| ==> NotFalling(sent[i], next))
    && (next.Some? ==> next.value <= 2000)
  }

  lemma AscendingExtends(sent: seq<Option<int>>, next: Option<int>, next': Option<int>)
    requires Ascending(sent, next) && NotFalling(next, next') && (next'.Some? ==> next'.value <= 2000)
    ensures Ascending(sent + [next], next')
  {
    var a := sent + [next];
    forall i, j | 0 <= i < j < |a|
      ensures NotFalling(a[i], a[j])
    {
      assert j < |sent| ==> NotFalling(sent[i], sent[j]);
    }
  }

  // Sending the current slippage keeps the list ascending, whether the next one is the
  // same or bumped.
  lemma NextAscends(sent: seq<Option<int>>, slippage: Option<int>, attempt: nat)
    requires Ascending(sent, slippage)
    ensures Ascending(sent + [slippage], slippage) && Ascending(sent + [slippage], Some(Bumped(slippage, attempt)))
  {
    AscendingExtends(sent, slippage, slippage);
    AscendingExtends(sent, slippage, Some(Bumped(slippage, attempt)));
  }

  // After a failed attempt a quote may come from the cache: on a refusal, and on an error
  // that is not the last and not called retryable.
  predicate AsksForStale(taker: bool, reply: Reply, attempt: nat) {
    !taker && (Refuses(reply) || (!reply.Retryable? && attempt < Attempts(taker)))
  }

  // Where the answer of an attempt comes from.
  ghost predicate Answers(cache: Cache, key: Key, taker: bool, now: int, reply: Reply, r: Order) {
    reply == Success(r) || (!taker && StaleSource(cache, key, now, r))
  }

  class QuoteService {
    var cache: Cache
    var rateLimitedUntil: int
    var lastFetchAt: int

    ghost predicate Valid()
      reads this
    {
      DistinctKeys(cache)
    }

    constructor ()
      ensures Valid() && cache == [] && rateLimitedUntil == 0 && lastFetchAt == 0
    {
      cache, rateLimitedUntil, lastFetchAt := [], 0, 0;
    }

    // What an unsuccessful attempt leads to: a stale quote served instead, or the slippage
    // of the next attempt. Errors are thrown inside the try, so any of them is retried.
    method Fail(key: Key, taker: bool, slippage: Option<int>, attempt: nat, reply: Reply, now: int)
        returns (error: Failure, stale: Option<Order>, next: Option<int>)
      requires !reply.Success? && attempt >= 1
      modifies this`rateLimitedUntil
      ensures error == if Refuses(reply) then RateLimited else OrderFailed
      ensures rateLimitedUntil == if Refuses(reply) then now + RATE_LIMIT_BACKOFF_MS else old(rateLimitedUntil)
      ensures stale.Some? <==> AsksForStale(taker, reply, attempt) && Resolvable(cache, key, now)
      ensures stale.Some? ==> StaleSource(cache, key, now, stale.value)
      ensures next == if Refuses(reply) then slippage else Some(Bumped(slippage, attempt))
    {
      error, stale, next := OrderFailed, None, slippage;
      if Refuses(reply) {
        rateLimitedUntil := now + RATE_LIMIT_BACKOFF_MS;
        error := RateLimited;
      } else {
        next := Some(Bumped(slippage, attempt));
      }
      if AsksForStale(taker, reply, attempt) {
        stale := ResolveStaleQuote(cache, key, now);
      }
    }

    // One attempt: an answer, stored if it is a quote, or what to try next.
    method Attempt(key: Key, taker: bool, slippage: Option<int>, attempt: nat, reply: Reply, now: int)
        returns (answer: Option<Order>, error: Failure, next: Option<int>)
      requires Valid() && attempt >= 1
      modifies this
      ensures Valid() && lastFetchAt == old(lastFetchAt)
      ensures cache == if reply.Success? && !taker then Put(old(cache), Entry(key, now, reply.body)) else old(cache)
      ensures reply.Success? ==> answer == Some(reply.body)
      ensures answer.Some? ==> Answers(old(cache), key, taker, now, reply, answer.value)
      ensures !reply.Success? ==>
                && (answer.Some? <==> AsksForStale(taker, reply, attempt) && Resolvable(old(cache), key, now))
                && error == if Refuses(reply) then RateLimited else OrderFailed
      ensures next == if reply.Success? || Refuses(reply) then slippage else Some(Bumped(slippage, attempt))
      ensures rateLimitedUntil == if Refuses(reply) then now + RATE_LIMIT_BACKOFF_MS else old(rateLimitedUntil)
    {
      answer, error, next := None, OrderFailed, slippage;
      if reply.Success? {
        answer := Some(reply.body);
        if !taker {
          PutKeepsDistinct(cache, Entry(key, now, reply.body));
          cache := Put(cache, Entry(key, now, reply.body));
        }
      } else {
        error, answer, next := Fail(key, taker, slippage, attempt, reply, now);
      }
    }

    // The retry loop. `replies` and `clock` give what each attempt meets and when; `sent`
    // lists the slippage each attempt asked for.
    method Fetch(key: Key, taker: bool, slippageBps: Option<int>, replies: seq<Reply>, clock: seq<int>)
        returns (r: Result<Order, Failure>, sent: seq<Option<int>>)
      requires Valid() && |replies| == |clock| == Attempts(taker)
      modifies this
      ensures Valid() && lastFetchAt == old(lastFetchAt)
      ensures 0 < |sent| <= Attempts(taker) && sent[0] == slippageBps
      ensures slippageBps.None? || slippageBps.value <= 2000 ==> Rising(sent) && Capped(sent)
      ensures forall i :: 0 <= i < |sent| && replies[i].Success? ==> i == |sent| - 1 && r == Ok(replies[i].body)
      ensures r.Err? ==> |sent| == Attempts(taker)
      ensures r.Ok? ==> Answers(old(cache), key, taker, clock[|sent| - 1], replies[|sent| - 1], r.value)
      ensures cache == old(cache)
              || (!taker && r.Ok? && cache == Put(old(cache), Entry(key, clock[|sent| - 1], r.value)))
    {
      sent := [];
      var slippage := slippageBps;
      r := Err(OrderFailed);
      for attempt := 1 to Attempts(taker) + 1
        invariant Valid() && cache == old(cache) && lastFetchAt == old(lastFetchAt)
        invariant |sent| == attempt - 1
        invariant if |sent| == 0 then slippage == slippageBps else sent[0] == slippageBps
        invariant r.Err? && forall i :: 0 <= i < |sent| ==> !replies[i].Success?
        invariant slippageBps.None? || slippageBps.value <= 2000 ==> Ascending(sent, slippage)
      {
        var now, reply := clock[attempt - 1], replies[attempt - 1];
        if slippageBps.None? || slippageBps.value <= 2000 {
          NextAscends(sent, slippage, attempt);
        }
        sent := sent + [slippage];
        var answer, error, next := Attempt(key, taker, slippage, attempt, reply, now);
        if answer.Some? {
          return Ok(answer.value), sent;
        }
        r, slippage := Err(error), next;
      }
    }

    // One call: a young quote, a stale one while the aggregator refuses, or the network.
    method GetOrder(key: Key, taker: bool, slippageBps: Option<int>, startedAt: int, replies: seq<Reply>,
                    clock: seq<int>)
        returns (r: Result<Order, Failure>, sent: seq<Option<int>>)
      requires Valid() && |replies| == |clock| == Attempts(taker)
      modifies this
      ensures Valid()
      ensures |sent| <= Attempts(taker)
      ensures |sent| > 0 ==> sent[0] == slippageBps
      ensures slippageBps.None? || slippageBps.value <= 2000 ==> Rising(sent) && Capped(sent)
      ensures !taker && Hit(old(cache), key, startedAt).Some? ==>
                sent == [] && r == Ok(Hit(old(cache), key, startedAt).value)
      ensures forall i :: 0 <= i < |sent| && replies[i].Success? ==> i == |sent| - 1 && r == Ok(replies[i].body)
      ensures r.Err? ==> |sent| == Attempts(taker)
      ensures r.Ok? && |sent| == 0 ==>
                !taker && (Hit(old(cache), key, startedAt) == Some(r.value)
                           || StaleSource(old(cache), key, startedAt, r.value))
      ensures r.Ok? && |sent| > 0 ==>
                Answers(old(cache), key, taker, clock[|sent| - 1], replies[|sent| - 1], r.value)
      ensures cache == old(cache) ||
              (!taker && r.Ok? && |sent| > 0 && cache == Put(old(cache), Entry(key, clock[|sent| - 1], r.value)))
    {
      if !taker {
        var hit := Hit(cache, key, startedAt);
        if hit.Some? {
          return Ok(hit.value), [];
        }
        if startedAt < rateLimitedUntil {
          var stale := ResolveStaleQuote(cache, key, startedAt);
          if stale.Some? {
            return Ok(stale.value), [];
          }
        }
      }
      lastFetchAt := startedAt;
      r, sent := Fetch(key, taker, slippageBps, replies, clock);
    }
  }
}
