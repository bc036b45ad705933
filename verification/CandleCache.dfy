// Candles aligned to the live price: fetched arrays are kept by several caches at once
// and rescaled in place on every request.
module CandleCache {
  import opened Common

  datatype Bar = Bar(open: real, high: real, low: real, close: real, volume: real)

  const DEAD_BAND: real := 0.0005

  // ----- The rescaling, on values -----

  function ScaleBar(b: Bar, scale: real): Bar {
    b.(open := b.open * scale, high := b.high * scale, low := b.low * scale, close := b.close * scale)
  }

  function PinBar(b: Bar, live: real): Bar {
    b.(close := live, high := Max(b.high, live), low := Min(b.low, live))
  }

  predicate Disagrees(scale: real) {
    Abs(scale - 1.0) > DEAD_BAND
  }

  // The factor applied to every bar: 1 inside the dead band.
  function Applied(close: real, live: real): real
    requires close > 0.0
  {
    if Disagrees(Quotient(live, close)) then Quotient(live, close) else 1.0
  }

  function ScaleAll(bars: seq<Bar>, scale: real): (r: seq<Bar>)
    ensures |r| == |bars| && forall i :: 0 <= i < |r| ==> r[i] == ScaleBar(bars[i], scale)
  {
    seq(|bars|, i requires 0 <= i < |bars| => ScaleBar(bars[i], scale))
  }

  function Aligned(bars: seq<Bar>, live: real): (r: seq<Bar>)
    ensures |r| == |bars|
  {
    if bars == [] || bars[|bars| - 1].close <= 0.0 then bars
    else
      var n, scale := |bars| - 1, Quotient(live, bars[|bars| - 1].close);
      var scaled := if Disagrees(scale) then ScaleAll(bars, scale) else bars;
      scaled[n := PinBar(scaled[n], live)]
  }

  // What a request makes of a series: the live price aligns it, or stands alone.
  function AlignedTo(bars: seq<Bar>, live: Option<real>): seq<Bar> {
    if live.None? then bars
    else if bars == [] then [Bar(live.value, live.value, live.value, live.value, 0.0)]
    else Aligned(bars, live.value)
  }

  // ----- The heap -----

  class Candle {
    var open: real
    var high: real
    var low: real
    var close: real
    var volume: real

    ghost function Value(): Bar
      reads this
    {
      Bar(open, high, low, close, volume)
    }

    constructor (b: Bar)
      ensures Value() == b
    {
      open, high, low, close, volume := b.open, b.high, b.low, b.close, b.volume;
    }

    method Scale(scale: real)
      modifies this
      ensures Value() == ScaleBar(old(Value()), scale)
    {
      open := open * scale;
      high := high * scale;
      low := low * scale;
      close := close * scale;
    }
  }

  ghost function Bars(candles: seq<Candle>): (b: seq<Bar>)
    reads candles
    ensures |b| == |candles| && forall i :: 0 <= i < |candles| ==> b[i] == candles[i].Value()
  {
    seq(|candles|, i requires 0 <= i < |candles| reads candles => candles[i].Value())
  }

  ghost predicate Distinct(candles: seq<Candle>) {
    forall i, j :: 0 <= i < j < |candles| ==> candles[i] != candles[j]
  }

  method ScaleEach(candles: seq<Candle>, scale: real)
    requires Distinct(candles)
    modifies candles
    ensures Bars(candles) == ScaleAll(old(Bars(candles)), scale)
  {
    for n := 0 to |candles|
      invariant forall i :: 0 <= i < n ==> candles[i].Value() == ScaleBar(old(candles[i].Value()), scale)
      invariant forall i :: n <= i < |candles| ==> candles[i].Value() == old(candles[i].Value())
    {
      candles[n].Scale(scale);
    }
  }

  method AlignInPlace(candles: seq<Candle>, live: real)
    requires Distinct(candles)
    modifies candles
    ensures Bars(candles) == Aligned(old(Bars(candles)), live)
  {
    if |candles| == 0 || candles[|candles| - 1].close <= 0.0 {
      return;
    }
    var last := candles[|candles| - 1];
    var scale := Quotient(live, last.close);
    if Disagrees(scale) {
      ScaleEach(candles, scale);
    }
    last.close := live;
    last.high := Max(last.high, live);
    last.low := Min(last.low, live);
  }

  // Aligning one array moves no other that is kept apart from it.
  method AlignShared(candles: seq<Candle>, live: real, ghost arrays: set<seq<Candle>>)
    requires KeptApart(arrays) && candles in arrays
    modifies candles
    ensures forall a :: a in arrays ==>
                          Bars(a) == if a == candles then Aligned(old(Bars(a)), live) else old(Bars(a))
  {
    AlignInPlace(candles, live);
  }

  twostate predicate AllFresh(new candles: seq<Candle>) {
    forall i :: 0 <= i < |candles| ==> fresh(candles[i])
  }

  method NewCandles(bars: seq<Bar>) returns (candles: seq<Candle>)
    ensures Distinct(candles) && Bars(candles) == bars && AllFresh(candles)
  {
    candles := [];
    for n := 0 to |bars|
      invariant |candles| == n && Distinct(candles)
      invariant forall i :: 0 <= i < n ==> fresh(candles[i]) && candles[i].Value() == bars[i]
    {
      var c := new Candle(bars[n]);
      candles := candles + [c];
    }
  }

  // ----- The caches -----

  // Where an array is kept: in one of the three Maps, under a key, or in the local variable
  // of a request that waits for the live price.
  datatype Slot = Ohlcv(key: string) | LastGood(key: string) | Inflight(key: string) | Frame(id: nat)
  datatype Entry = Entry(at: int, candles: seq<Candle>)

  const OHLCV_TTL_MS: int := 20_000
  const LAST_GOOD_TTL_MS: int := 1_800_000

  predicate Failed(reply: Option<seq<Bar>>) {
    reply.None? || reply.value == []
  }

  ghost predicate Apart(a: seq<Candle>, b: seq<Candle>) {
    forall i, j :: 0 <= i < |a| && 0 <= j < |b| ==> a[i] != b[j]
  }

  ghost predicate KeptApart(arrays: set<seq<Candle>>) {
    && (forall a :: a in arrays ==> a != [] && Distinct(a))
    && (forall a, b :: a in arrays && b in arrays && a != b ==> Apart(a, b))
  }

  datatype Request = Request(goodKey: string, geckoKey: string, now: int, isNative: bool,
                             binance: Option<seq<Bar>>, gecko: Option<seq<Bar>>)

  // The reply a fetch builds its series from: the exchange's, else the on-chain one.
  function Reply(req: Request): Option<seq<Bar>> {
    if !req.isNative && !Failed(req.binance) then req.binance else req.gecko
  }

  predicate IsReply(req: Request, bars: seq<Bar>) {
    !Failed(Reply(req)) && bars == Reply(req).value
  }

  // The steps of the traffic: a request obtains its series, a request meets its live price
  // and answers, a fetch leaves the table of those in flight.
  datatype Step = Begin(id: nat, req: Request) | Finish(id: nat, live: Option<real>) | Land(goodKey: string)

  class CandleService {
    var cache: map<Slot, Entry>

    // The arrays some slot holds.
    ghost function Arrays(): set<seq<Candle>>
      reads this
    {
      set k | k in cache :: cache[k].candles
    }

    // Two slots hold the very same array or arrays with no candle in common.
    ghost predicate Valid()
      reads this
    {
      KeptApart(Arrays())
    }

    ghost function Footprint(): set<Candle>
      reads this
    {
      set a, i | a in Arrays() && 0 <= i < |a| :: a[i]
    }

    constructor ()
      ensures Valid() && cache == map[]
    {
      cache := map[];
    }

    method Store(slot: Slot, now: int, candles: seq<Candle>)
      requires KeptApart(Arrays() + {candles})
      modifies this
      ensures Valid() && cache == old(cache)[slot := Entry(now, candles)]
      ensures candles in Arrays() && Arrays() <= old(Arrays()) + {candles}
    {
      cache := cache[slot := Entry(now, candles)];
      assert cache[slot].candles == candles;
      forall a | a in Arrays()
        ensures a in old(Arrays()) + {candles}
      {
        var k :| k in cache && cache[k].candles == a;
      }
    }

    // The on-chain source keeps its array for a while and hands out the same one. An
    // empty reply is a failed one.
    method FetchGecko(key: string, now: int, fetched: Option<seq<Bar>>) returns (r: Option<seq<Candle>>)
      requires Valid()
      modifies this
      ensures Valid()
      ensures var hit := Ohlcv(key) in old(cache) && now - old(cache)[Ohlcv(key)].at < OHLCV_TTL_MS;
              && (hit ==> cache == old(cache) && r == Some(old(cache)[Ohlcv(key)].candles))
              && (!hit && Failed(fetched) ==> cache == old(cache) && r == None)
              && (!hit && !Failed(fetched) ==>
                    && r.Some? && AllFresh(r.value) && Distinct(r.value) && Bars(r.value) == fetched.value
                    && cache == old(cache)[Ohlcv(key) := Entry(now, r.value)])
      ensures r.Some? ==> r.value in Arrays()
    {
      if Ohlcv(key) in cache && now - cache[Ohlcv(key)].at < OHLCV_TTL_MS {
        assert cache[Ohlcv(key)].candles in Arrays();
        return Some(cache[Ohlcv(key)].candles);
      }
      if Failed(fetched) {
        return None;
      }
      var candles := NewCandles(fetched.value);
      FreshIsApart(candles);
      Store(Ohlcv(key), now, candles);
      return Some(candles);
    }

    // Arrays allocated later share nothing with the cached ones.
    twostate lemma FreshIsApart(new candles: seq<Candle>)
      requires cache == old(cache) && old(Valid()) && Distinct(candles) && candles != [] && AllFresh(candles)
      ensures KeptApart(Arrays() + {candles})
    {
    }

    // Fetch the series: exchange shape, else on-chain.
    method FetchFresh(req: Request) returns (r: Option<seq<Candle>>)
      requires Valid()
      modifies this
      ensures r.Some? ==> KeptApart(Arrays() + {r.value})
      ensures r.None? ==> cache == old(cache) && Valid()
      ensures forall k :: k in old(cache) && !k.Ohlcv? ==> k in cache && cache[k] == old(cache)[k]
      ensures forall k :: k in cache && !k.Ohlcv? ==> k in old(cache)
      ensures forall a :: a in Arrays() ==> a in old(Arrays()) || AllFresh(a)
      ensures r.Some? ==> r.value in old(Arrays()) || (AllFresh(r.value) && IsReply(req, Bars(r.value)))
    {
      if !req.isNative && !Failed(req.binance) {
        var c := NewCandles(req.binance.value);
        FreshIsApart(c);
        return Some(c);
      }
      r := FetchGecko(req.geckoKey, req.now, req.gecko);
      if r.Some? {
        assert Arrays() + {r.value} == Arrays();
      }
    }

    // The first half of a request: join the fetch in flight for its key, or start one;
    // what is served fresh becomes the last good series, as the same array. Failing that,
    // the last good series, else nothing.
    method Resolve(req: Request) returns (candles: seq<Candle>, stale: bool)
      requires Valid()
      modifies this
      ensures Valid()
      ensures forall a :: a in Arrays() ==> a in old(Arrays()) || AllFresh(a)
      ensures candles == [] ==> !stale && cache == old(cache)
      ensures candles != [] ==>
                candles in Arrays() && LastGood(req.goodKey) in cache && cache[LastGood(req.goodKey)].candles == candles
      ensures candles != [] && !stale ==>
                && cache[LastGood(req.goodKey)].at == req.now
                && Inflight(req.goodKey) in cache && cache[Inflight(req.goodKey)].candles == candles
      ensures Inflight(req.goodKey) in old(cache) ==> !stale && candles == old(cache)[Inflight(req.goodKey)].candles
      ensures stale ==> cache == old(cache) && req.now - cache[LastGood(req.goodKey)].at < LAST_GOOD_TTL_MS
      ensures forall k :: k in cache && k.Frame? ==> k in old(cache)
      ensures candles != [] ==> candles in old(Arrays()) || (AllFresh(candles) && IsReply(req, Bars(candles)))
    {
      var flight, good := Inflight(req.goodKey), LastGood(req.goodKey);
      if flight in cache {
        candles, stale := cache[flight].candles, false;
        assert candles in Arrays() && Arrays() + {candles} == Arrays();
        Store(good, req.now, candles);
        return;
      }
      var fetched := FetchFresh(req);
      if fetched.Some? {
        candles, stale := fetched.value, false;
        Store(flight, req.now, candles);
        assert Arrays() + {candles} == Arrays();
        Store(good, req.now, candles);
      } else if good in cache && req.now - cache[good].at < LAST_GOOD_TTL_MS {
        assert cache[good].candles in Arrays();
        candles, stale := cache[good].candles, true;
      } else {
        candles, stale := [], false;
      }
    }

    // Obtain the series and wait for the live price with it.
    method BeginRequest(id: nat, req: Request) returns (degraded: bool, stale: bool)
      requires Valid() && Frame(id) !in cache
      modifies this
      ensures Valid()
      ensures forall a :: a in Arrays() ==> a in old(Arrays()) || AllFresh(a)
      ensures degraded ==> !stale && cache == old(cache)
      ensures !degraded ==>
                Frame(id) in cache && LastGood(req.goodKey) in cache
                && cache[Frame(id)].candles == cache[LastGood(req.goodKey)].candles
      ensures stale ==> req.now - cache[LastGood(req.goodKey)].at < LAST_GOOD_TTL_MS
      ensures !degraded ==>
                var c := cache[Frame(id)].candles;
                c in old(Arrays()) || (AllFresh(c) && IsReply(req, Bars(c)))
    {
      var candles;
      candles, stale := Resolve(req);
      degraded := candles == [];
      if !degraded {
        assert Arrays() + {candles} == Arrays();
        Store(Frame(id), req.now, candles);
      }
    }

    // The second half: the array is aligned where it lies, so every slot that holds it
    // sees the new values; other arrays do not move. With no series the live price is
    // served as one flat bar that no slot keeps.
    method FinishRequest(id: nat, live: Option<real>) returns (candles: seq<Candle>)
      requires Valid()
      modifies this, Footprint()
      ensures Valid() && cache == old(cache) - {Frame(id)}
      ensures Frame(id) in old(cache) ==> candles == old(cache)[Frame(id)].candles
      ensures Frame(id) !in old(cache) ==> AllFresh(candles) && Bars(candles) == AlignedTo([], live)
      ensures forall a :: a in old(Arrays()) ==>
                            Bars(a) == if a == candles then AlignedTo(old(Bars(a)), live) else old(Bars(a))
    {
      candles := [];
      ghost var arrays := Arrays();
      if Frame(id) in cache {
        candles := cache[Frame(id)].candles;
        assert candles in arrays;
        Drop(Frame(id));
        if live.Some? {
          AlignShared(candles, live.value, arrays);
        }
      } else if live.Some? {
        var p := live.value;
        var c := new Candle(Bar(p, p, p, p, 0.0));
        candles := [c];
        assert cache == old(cache) - {Frame(id)};
      }
    }

    method Drop(slot: Slot)
      requires Valid()
      modifies this
      ensures Valid() && cache == old(cache) - {slot}
      ensures Arrays() <= old(Arrays())
    {
      cache := cache - {slot};
      forall a | a in Arrays()
        ensures a in old(Arrays())
      {
        var k :| k in cache && cache[k].candles == a;
        assert k in old(cache) && old(cache)[k].candles == a;
      }
    }

    // One request without interruption.
    method GetAlignedCandles(id: nat, req: Request, live: Option<real>)
        returns (candles: seq<Candle>, stale: bool, degraded: bool)
      requires Valid() && Frame(id) !in cache
      modifies this, Footprint()
      ensures Valid()
      ensures forall a :: a in old(Arrays()) ==>
                            Bars(a) == if a == candles then AlignedTo(old(Bars(a)), live) else old(Bars(a))
      ensures degraded ==> AllFresh(candles) && Bars(candles) == AlignedTo([], live)
      ensures !degraded ==> LastGood(req.goodKey) in cache && cache[LastGood(req.goodKey)].candles == candles
      ensures !degraded && candles !in old(Arrays()) ==>
                !Failed(Reply(req)) && Bars(candles) == AlignedTo(Reply(req).value, live)
    {
      ghost var arrays := Arrays();
      degraded, stale := BeginRequest(id, req);
      assert KeptApart(arrays + Arrays());
      AllHeldOrUntouched(arrays);
      if !degraded {
        assert cache[Frame(id)].candles in Arrays();
      }
      candles := FinishRequest(id, live);
    }

    lemma AllHeldOrUntouched(arrays: set<seq<Candle>>)
      requires KeptApart(arrays + Arrays())
      ensures forall a :: a in arrays && a !in Arrays() ==> forall i :: 0 <= i < |a| ==> a[i] !in Footprint()
    {
    }

    // A step as seen from any one array, whether or not a slot still holds it.
    method TakeStep(step: Step, ghost shared: seq<Candle>) returns (served: Option<seq<Candle>>)
      requires KeptApart(Arrays() + {shared})
      modifies this, Footprint()
      ensures KeptApart(Arrays() + {shared})
      ensures forall a :: a in Arrays() ==> a in old(Arrays()) || AllFresh(a)
      ensures served.Some? <==> step.Finish?
      ensures Bars(shared) == if Refreshes(step, served, shared) then Aligned(old(Bars(shared)), step.live.value)
                              else old(Bars(shared))
    {
      HeldOrUntouched(shared);
      match step
      case Begin(id, req) =>
        served := None;
        if Frame(id) !in cache {
          var degraded, stale := BeginRequest(id, req);
        }
      case Finish(id, live) =>
        if Frame(id) in cache {
          assert cache[Frame(id)].candles in Arrays();
        }
        DropShrinks(Frame(id));
        var candles := FinishRequest(id, live);
        served := Some(candles);
      case Land(goodKey) =>
        served := None;
        Drop(Inflight(goodKey));
    }

    lemma DropShrinks(slot: Slot)
      ensures forall k :: k in cache - {slot} ==> (cache - {slot})[k].candles in Arrays()
    {
    }

    lemma HeldOrUntouched(shared: seq<Candle>)
      requires KeptApart(Arrays() + {shared})
      ensures Valid() && shared != []
      ensures shared in Arrays() || forall i :: 0 <= i < |shared| ==> shared[i] !in Footprint()
    {
      assert shared in Arrays() + {shared};
    }

    // Any interleaving of any traffic, seen from one shared array: it has been refreshed by
    // the live prices of the answers that were this very array, in order, and by nothing
    // else.
    method ServeAll(steps: seq<Step>, ghost shared: seq<Candle>) returns (served: seq<Option<seq<Candle>>>)
      requires Valid() && shared in Arrays()
      modifies this, Footprint()
      ensures Valid() && |served| == |steps|
      ensures forall i :: 0 <= i < |steps| ==> (served[i].Some? <==> steps[i].Finish?)
      ensures Bars(shared) == After(old(Bars(shared)), LivePrices(steps, served, shared))
    {
      served := [];
      assert Arrays() + {shared} == Arrays();
      for n := 0 to |steps|
        invariant KeptApart(Arrays() + {shared}) && |served| == n
        invariant forall a :: a in Arrays() ==> a in old(Arrays()) || AllFresh(a)
        invariant forall i :: 0 <= i < n ==> (served[i].Some? <==> steps[i].Finish?)
        invariant Bars(shared) == After(old(Bars(shared)), LivePrices(steps[..n], served, shared))
      {
        var answer := TakeStep(steps[n], shared);
        ServedStep(old(Bars(shared)), steps, n, served, answer, shared);
        served := served + [answer];
      }
      assert steps[..|steps|] == steps;
    }

    // With positive live prices, that traffic leaves a sound array sound and scales it by
    // one common factor, whoever asked and whichever slots share it.
    method ServeAllUniformly(steps: seq<Step>, ghost shared: seq<Candle>) returns (served: seq<Option<seq<Candle>>>)
      requires Valid() && shared in Arrays() && Sound(Bars(shared)) && PositivePrices(steps)
      modifies this, Footprint()
      ensures Valid() && |served| == |steps| && AllPositive(LivePrices(steps, served, shared))
      ensures UniformlyScaled(old(Bars(shared)), LivePrices(steps, served, shared), Bars(shared))
    {
      ghost var bars := Bars(shared);
      served := ServeAll(steps, shared);
      LivePricesPositive(steps, served, shared);
      RefreshesScaleUniformly(bars, LivePrices(steps, served, shared));
    }
  }

  // The step answers with this array, at a live price.
  predicate Refreshes(step: Step, answer: Option<seq<Candle>>, shared: seq<Candle>) {
    step.Finish? && step.live.Some? && answer == Some(shared)
  }

  // The live prices of the answers that were this array, in order.
  ghost function LivePrices(steps: seq<Step>, served: seq<Option<seq<Candle>>>, shared: seq<Candle>): seq<real>
    requires |served| == |steps|
  {
    if steps == [] then []
    else
      var n := |steps| - 1;
      LivePrices(steps[..n], served[..n], shared)
      + if Refreshes(steps[n], served[n], shared) then [steps[n].live.value] else []
  }

  predicate PositivePrices(steps: seq<Step>) {
    forall i :: 0 <= i < |steps| && steps[i].Finish? && steps[i].live.Some? ==> steps[i].live.value > 0.0
  }

  lemma {:induction false} LivePricesPositive(steps: seq<Step>, served: seq<Option<seq<Candle>>>, shared: seq<Candle>)
    requires |served| == |steps| && PositivePrices(steps)
    ensures AllPositive(LivePrices(steps, served, shared))
  {
    if steps == [] {
    } else {
      LivePricesPositive(steps[..|steps| - 1], served[..|steps| - 1], shared);
    }
  }

  lemma ServedStep(bars: seq<Bar>, steps: seq<Step>, n: nat, served: seq<Option<seq<Candle>>>,
                   answer: Option<seq<Candle>>,
                   shared: seq<Candle>)
    requires n < |steps| && |served| == n
    ensures var before := After(bars, LivePrices(steps[..n], served, shared));
            After(bars, LivePrices(steps[..n + 1], served + [answer], shared)) ==
            if Refreshes(steps[n], answer, shared) then Aligned(before, steps[n].live.value) else before
  {
    assert steps[..n + 1][..n] == steps[..n] && (served + [answer])[..n] == served;
    var prices := LivePrices(steps[..n], served, shared);
    if Refreshes(steps[n], answer, shared) {
      AfterAppend(bars, prices, steps[n].live.value);
    } else {
      assert prices + [] == prices;
    }
  }

  // ----- Runs of refreshes on one array -----

  ghost predicate Ohlc(b: Bar) {
    b.low <= b.open <= b.high && b.low <= b.close <= b.high
  }

  function After(bars: seq<Bar>, lives: seq<real>): seq<Bar>
    decreases |lives|
  {
    if lives == [] then bars else After(Aligned(bars, lives[0]), lives[1..])
  }

  lemma {:induction false} AfterAppend(bars: seq<Bar>, lives: seq<real>, live: real)
    ensures After(bars, lives + [live]) == Aligned(After(bars, lives), live)
    decreases |lives|
  {
    if lives != [] {
      assert (lives + [live])[1..] == lives[1..] + [live];
      AfterAppend(Aligned(bars, lives[0]), lives[1..], live);
    } else {
      assert [live][1..] == [];
    }
  }

  // The product of the scales applied, starting from the close c, and of those the dead
  // band skipped.
  function AppliedProduct(c: real, lives: seq<real>): real
    requires c > 0.0 && AllPositive(lives)
    decreases |lives|
  {
    if lives == [] then 1.0 else Applied(c, lives[0]) * AppliedProduct(lives[0], lives[1..])
  }

  function Skipped(c: real, live: real): real
    requires c > 0.0
  {
    if Disagrees(Quotient(live, c)) then 1.0 else Quotient(live, c)
  }

  function SkippedProduct(c: real, lives: seq<real>): real
    requires c > 0.0 && AllPositive(lives)
    decreases |lives|
  {
    if lives == [] then 1.0 else Skipped(c, lives[0]) * SkippedProduct(lives[0], lives[1..])
  }

  predicate AllPositive(lives: seq<real>) {
    forall i :: 0 <= i < |lives| ==> lives[i] > 0.0
  }

  // b' is b with all four prices multiplied by f.
  ghost predicate ScaledBy(b: Bar, b': Bar, f: real) {
    && Product(b.open, f, b'.open) && Product(b.high, f, b'.high)
    && Product(b.low, f, b'.low) && Product(b.close, f, b'.close) && b'.volume == b.volume
  }

  lemma ScaleKeepsOhlc(b: Bar, scale: real)
    requires Ohlc(b) && scale > 0.0
    ensures Ohlc(ScaleBar(b, scale))
  {
    var s := ScaleBar(b, scale);
    MulMono(b.low, b.open, scale, s.low, s.open);
    MulMono(b.open, b.high, scale, s.open, s.high);
    MulMono(b.low, b.close, scale, s.low, s.close);
    MulMono(b.close, b.high, scale, s.close, s.high);
  }

  lemma PositiveQuotient(a: real, b: real)
    requires a > 0.0 && b > 0.0
    ensures Quotient(a, b) > 0.0
  {
  }

  ghost predicate AllOhlc(bars: seq<Bar>) {
    forall i :: 0 <= i < |bars| ==> Ohlc(bars[i])
  }

  lemma ScaleAllKeepsOhlc(bars: seq<Bar>, scale: real)
    requires AllOhlc(bars) && scale > 0.0
    ensures AllOhlc(ScaleAll(bars, scale))
  {
    forall i | 0 <= i < |bars|
      ensures Ohlc(ScaleAll(bars, scale)[i])
    {
      ScaleKeepsOhlc(bars[i], scale);
    }
  }

  lemma AlignedKeepsOhlc(bars: seq<Bar>, live: real)
    requires live > 0.0 && bars != [] && bars[|bars| - 1].close > 0.0 && AllOhlc(bars)
    ensures AllOhlc(Aligned(bars, live))
  {
    var close := bars[|bars| - 1].close;
    PositiveQuotient(live, close);
    ScaleAllKeepsOhlc(bars, Quotient(live, close));
  }

  lemma AlignedPins(bars: seq<Bar>, live: real)
    requires bars != [] && bars[|bars| - 1].close > 0.0
    ensures Aligned(bars, live)[|bars| - 1].close == live
  {
  }

  // A skipped scale was within 0.05% of one, an applied one was not.
  lemma DeadBand(c: real, live: real)
    requires c > 0.0
    ensures Applied(c, live) != 1.0 ==> Applied(c, live) > 1.0005 || Applied(c, live) < 0.9995
    ensures 0.9995 <= Skipped(c, live) <= 1.0005
    ensures Applied(c, live) == 1.0 || Skipped(c, live) == 1.0
  {
  }

  // The last bar is stretched no further than to the live price: each end is its own or the
  // live price, and it keeps open and volume.
  lemma LastBarIsStretched(bars: seq<Bar>, live: real)
    requires bars != [] && bars[|bars| - 1].close > 0.0
    ensures var last, f, after := bars[|bars| - 1], Applied(bars[|bars| - 1].close, live),
            Aligned(bars, live)[|bars| - 1];
            && after.volume == last.volume && Product(last.open, f, after.open)
            && (after.high == live || Product(last.high, f, after.high)) && after.high >= live
            && (after.low == live || Product(last.low, f, after.low)) && after.low <= live
  {
    ScaledByOne(bars[|bars| - 1]);
    ScaledByScale(bars[|bars| - 1], Quotient(live, bars[|bars| - 1].close));
  }

  lemma AlignedScales(bars: seq<Bar>, live: real, i: nat)
    requires i < |bars| - 1 && bars[|bars| - 1].close > 0.0
    ensures ScaledBy(bars[i], Aligned(bars, live)[i], Applied(bars[|bars| - 1].close, live))
  {
    ScaledByOne(bars[i]);
    ScaledByScale(bars[i], Quotient(live, bars[|bars| - 1].close));
  }

  lemma ScaledByOne(b: Bar)
    ensures ScaledBy(b, b, 1.0)
  {
  }

  lemma ScaledByScale(b: Bar, f: real)
    ensures ScaledBy(b, ScaleBar(b, f), f)
  {
  }

  lemma ScaledTwice(x: real, f: real, g: real, xf: real, xfg: real)
    requires Product(x, f, xf) && Product(xf, g, xfg)
    ensures Product(x, f * g, xfg)
  {
  }

  lemma ScaledByTwice(b: Bar, b1: Bar, b2: Bar, f: real, g: real, fg: real)
    requires ScaledBy(b, b1, f) && ScaledBy(b1, b2, g) && Product(f, g, fg)
    ensures ScaledBy(b, b2, fg)
  {
    ScaledTwice(b.open, f, g, b1.open, b2.open);
    ScaledTwice(b.high, f, g, b1.high, b2.high);
    ScaledTwice(b.low, f, g, b1.low, b2.low);
    ScaledTwice(b.close, f, g, b1.close, b2.close);
  }

  // Applied and skipped scales together carry the first close to the last live price.
  lemma {:induction false} FactorsMultiplyOut(c: real, lives: seq<real>)
    requires c > 0.0 && AllPositive(lives)
    ensures Carries(AppliedProduct(c, lives), SkippedProduct(c, lives), c, LastPrice(c, lives))
    decreases |lives|
  {
    if lives == [] {
    } else {
      FactorsMultiplyOut(lives[0], lives[1..]);
      OneScale(c, lives[0]);
      FactorsStep(c, lives);
    }
  }

  lemma FactorsStep(c: real, lives: seq<real>)
    requires c > 0.0 && AllPositive(lives) && lives != []
    requires Carries(Applied(c, lives[0]), Skipped(c, lives[0]), c, lives[0])
    requires Carries(AppliedProduct(lives[0], lives[1..]), SkippedProduct(lives[0], lives[1..]), lives[0],
                     LastPrice(lives[0], lives[1..]))
    ensures Carries(AppliedProduct(c, lives), SkippedProduct(c, lives), c, LastPrice(c, lives))
  {
    var live, rest := lives[0], lives[1..];
    CarryOn(Applied(c, live), Skipped(c, live), c, live, AppliedProduct(live, rest), SkippedProduct(live, rest),
            LastPrice(live, rest), AppliedProduct(c, lives), SkippedProduct(c, lives));
  }

  // f times s is the ratio of p to c.
  predicate Carries(f: real, s: real, c: real, p: real) {
    f * s * c == p
  }

  function LastPrice(c: real, lives: seq<real>): real {
    if lives == [] then c else lives[|lives| - 1]
  }

  lemma OneScale(c: real, live: real)
    requires c > 0.0
    ensures Carries(Applied(c, live), Skipped(c, live), c, live)
  {
    assert Quotient(live, c) * c == live;
  }

  lemma CarryOn(a: real, k: real, c: real, live: real, f: real, s: real, p: real, af: real, ks: real)
    requires Carries(a, k, c, live) && Carries(f, s, live, p) && Product(a, f, af) && Product(k, s, ks)
    ensures Carries(af, ks, c, p)
  {
    assert (a * f) * (k * s) * c == f * s * (a * k * c);
  }

  // A series as a source sends it: consistent bars, and a last close to scale by.
  ghost predicate Sound(bars: seq<Bar>) {
    bars != [] && bars[|bars| - 1].close > 0.0 && AllOhlc(bars)
  }

  // Every bar keeps low <= open, close <= high; the last close is the live price; and all
  // other bars carry one common factor, which times the skipped scales is the ratio of the
  // live price to the original close.
  ghost predicate UniformlyScaled(bars: seq<Bar>, lives: seq<real>, r: seq<Bar>)
    requires Sound(bars) && AllPositive(lives)
  {
    var c := bars[|bars| - 1].close;
    && |r| == |bars| && AllOhlc(r)
    && r[|r| - 1].close == LastPrice(c, lives)
    && (forall i :: 0 <= i < |bars| - 1 ==> ScaledBy(bars[i], r[i], AppliedProduct(c, lives)))
    && Carries(AppliedProduct(c, lives), SkippedProduct(c, lives), c, r[|r| - 1].close)
  }

  // So it is over any run of refreshes with positive live prices on one shared array.
  lemma RefreshesScaleUniformly(bars: seq<Bar>, lives: seq<real>)
    requires Sound(bars) && AllPositive(lives)
    ensures UniformlyScaled(bars, lives, After(bars, lives))
  {
    AfterKeepsOhlc(bars, lives);
    FactorsMultiplyOut(bars[|bars| - 1].close, lives);
    forall i | 0 <= i < |bars| - 1
      ensures ScaledBy(bars[i], After(bars, lives)[i], AppliedProduct(bars[|bars| - 1].close, lives))
    {
      AfterScales(bars, lives, i);
    }
  }

  lemma {:induction false} AfterKeepsOhlc(bars: seq<Bar>, lives: seq<real>)
    requires bars != [] && bars[|bars| - 1].close > 0.0 && AllPositive(lives) && AllOhlc(bars)
    ensures var r := After(bars, lives);
            |r| == |bars| && AllOhlc(r) && r[|r| - 1].close == LastPrice(bars[|bars| - 1].close, lives)
    decreases |lives|
  {
    if lives == [] {
    } else {
      AlignedKeepsOhlc(bars, lives[0]);
      AlignedPins(bars, lives[0]);
      AfterKeepsOhlc(Aligned(bars, lives[0]), lives[1..]);
    }
  }

  lemma {:induction false} AfterScales(bars: seq<Bar>, lives: seq<real>, i: nat)
    requires i < |bars| - 1 && bars[|bars| - 1].close > 0.0 && AllPositive(lives)
    ensures |After(bars, lives)| == |bars|
    ensures ScaledBy(bars[i], After(bars, lives)[i], AppliedProduct(bars[|bars| - 1].close, lives))
    decreases |lives|
  {
    var c := bars[|bars| - 1].close;
    if lives == [] {
      ScaledByOne(bars[i]);
    } else {
      AlignedPins(bars, lives[0]);
      AlignedScales(bars, lives[0], i);
      AfterScales(Aligned(bars, lives[0]), lives[1..], i);
      ScalesCompose(bars[i], Aligned(bars, lives[0])[i], After(bars, lives)[i], c, lives);
    }
  }

  lemma ScalesCompose(b: Bar, b1: Bar, b2: Bar, c: real, lives: seq<real>)
    requires lives != [] && c > 0.0 && AllPositive(lives)
    requires ScaledBy(b, b1, Applied(c, lives[0])) && ScaledBy(b1, b2, AppliedProduct(lives[0], lives[1..]))
    ensures ScaledBy(b, b2, AppliedProduct(c, lives))
  {
    ScaledByTwice(b, b1, b2, Applied(c, lives[0]), AppliedProduct(lives[0], lives[1..]), AppliedProduct(c, lives));
  }
}
