// Swaps signed by the user's own wallet: the registry of quotes the server handed out,
// and the trade rows their fills are booked on. Handlers are atomic.
module SelfCustody {
  import opened Common

  const BUILD_TTL_MS: int := 90_000

  datatype Side = BUY | SELL

  datatype Build = Build(at: int, user: string, side: Side, pair: string, amountIn: real, expectedOut: real,
                         usdValue: real)

  datatype Trade = Trade(user: string, pair: string, entry: real, alloc: Option<real>, pnl: Option<real>,
                         exit: Option<real>, open: bool)

  datatype SubmitError = QuoteExpired | NotYourQuote | Undecodable | ExecuteFailed

  function OrZero(o: Option<real>): real {
    match o case None => 0.0 case Some(v) => v
  }

  // Rounding to 1e-8.
  function Round8(x: real): real {
    Round(x * 100000000.0) as real / 100000000.0
  }

  lemma Round8Error(x: real)
    ensures -0.000000005 <= Round8(x) - x <= 0.000000005
  {
    var n := Round(x * 100000000.0);
    assert n as real <= x * 100000000.0 + 0.5 && x * 100000000.0 + 0.5 < n as real + 1.0;
  }

  // ----- One sell against one lot -----

  // Relative move, times an allocation.
  function ExactPnl(alloc: real, entry: real, exit: real): real {
    if entry > 0.0 then alloc * (Quotient(exit, entry) - 1.0) else 0.0
  }

  function RoundTripRealizedPnl(alloc: real, entry: real, exit: real): real {
    if alloc <= 0.0 || entry <= 0.0 || exit <= 0.0 then 0.0 else Round8(ExactPnl(alloc, entry, exit))
  }

  function BookedQty(alloc: real, entry: real): real {
    if entry > 0.0 then Quotient(alloc, entry) else 0.0
  }

  predicate IsPartial(alloc: real, entry: real, soldQty: real) {
    BookedQty(alloc, entry) > 0.0 && soldQty < BookedQty(alloc, entry) * 0.95
  }

  // The share of the allocation a sell closes.
  function ClosedAlloc(alloc: real, entry: real, soldQty: real): real {
    if IsPartial(alloc, entry, soldQty) then alloc * Min(0.95, Quotient(soldQty, BookedQty(alloc, entry))) else alloc
  }

  function Remaining(alloc: real, entry: real, soldQty: real): real {
    Max(0.0, alloc - ClosedAlloc(alloc, entry, soldQty))
  }

  predicate StaysOpen(alloc: real, entry: real, soldQty: real) {
    IsPartial(alloc, entry, soldQty) && Remaining(alloc, entry, soldQty) > 0.5
  }

  function SoldOn(t: Trade, soldQty: real, price: real): Trade {
    var alloc := OrZero(t.alloc);
    var stays := StaysOpen(alloc, t.entry, soldQty);
    t.(alloc := Some(if stays then Remaining(alloc, t.entry, soldQty) else alloc),
       pnl := Some(OrZero(t.pnl) + RoundTripRealizedPnl(ClosedAlloc(alloc, t.entry, soldQty), t.entry, price)),
       exit := if stays then t.exit else Some(price),
       open := stays)
  }

  // ----- Booking a fill -----

  function EffectivePrice(b: Build): real {
    match b.side
    case BUY => if b.expectedOut > 0.000000000000000001 then Quotient(b.amountIn, b.expectedOut) else 0.0
    case SELL => if b.amountIn > 0.000000000000000001 then Quotient(b.expectedOut, b.amountIn) else 0.0
  }

  function AllocationUsd(b: Build): Option<real> {
    var usd := Round8(Max(0.0, b.usdValue));
    if usd > 0.0 then Some(usd) else None
  }

  predicate IsOpenLot(t: Trade, user: string, pair: string) {
    t.open && t.user == user && t.pair == pair
  }

  // Rows are in order of creation: the first open one is the oldest. |trades| if none.
  function OldestOpen(trades: seq<Trade>, user: string, pair: string): (i: nat)
    ensures i <= |trades|
    ensures i < |trades| ==> IsOpenLot(trades[i], user, pair)
    ensures forall j :: 0 <= j < i ==> !IsOpenLot(trades[j], user, pair)
  {
    if trades == [] || IsOpenLot(trades[0], user, pair) then 0 else 1 + OldestOpen(trades[1..], user, pair)
  }

  function Booked(trades: seq<Trade>, b: Build): seq<Trade> {
    match b.side
    case BUY => trades + [Trade(b.user, b.pair, EffectivePrice(b), AllocationUsd(b), None, None, true)]
    case SELL =>
      var i := OldestOpen(trades, b.user, b.pair);
      if i < |trades| then trades[i := SoldOn(trades[i], b.amountIn, EffectivePrice(b))]
      else trades + [Trade(b.user, b.pair, EffectivePrice(b), AllocationUsd(b), Some(0.0), Some(EffectivePrice(b)),
                           false)]
  }

  function Unexpired(builds: map<string, Build>, now: int): map<string, Build> {
    map id | id in builds && builds[id].at >= now - BUILD_TTL_MS :: builds[id]
  }

  class SwapService {
    var builds: map<string, Build>
    var trades: seq<Trade>

    constructor ()
      ensures builds == map[] && trades == []
    {
      builds, trades := map[], [];
    }

    method PruneBuilds(now: int)
      modifies this`builds
      ensures builds == Unexpired(old(builds), now)
    {
      ghost var full := builds;
      var left := builds.Keys;
      while left != {}
        invariant left <= full.Keys
        invariant builds == map id | id in full && (id in left || full[id].at >= now - BUILD_TTL_MS) :: full[id]
        decreases |left|
      {
        var id :| id in left;
        if builds[id].at < now - BUILD_TTL_MS {
          builds := builds - {id};
        }
        left := left - {id};
      }
    }

    method RegisterBuild(requestId: string, b: Build, now: int)
      modifies this`builds
      ensures builds == Unexpired(old(builds), now)[requestId := b]
    {
      PruneBuilds(now);
      builds := builds[requestId := b];
    }

    // Relays a signed transaction. A fill is booked only from an unexpired quote of the
    // same user, whose request id is then spent.
    method SubmitSwap(user: string, requestId: string, now: int, decodes: bool, executes: bool)
        returns (r: Result<Build, SubmitError>)
      modifies this
      ensures r.Ok? <==>
              && requestId in old(builds) && old(builds)[requestId].at >= now - BUILD_TTL_MS
              && old(builds)[requestId].user == user && decodes && executes
      ensures r.Ok? ==>
                && r.value == old(builds)[requestId] && trades == Booked(old(trades), r.value)
                && requestId !in builds && builds == Unexpired(old(builds), now) - {requestId}
      ensures r.Err? ==> trades == old(trades) && builds == Unexpired(old(builds), now)
    {
      PruneBuilds(now);
      if requestId !in builds {
        return Err(QuoteExpired);
      }
      var ctx := builds[requestId];
      if ctx.user != user {
        return Err(NotYourQuote);
      }
      if !decodes {
        return Err(Undecodable);
      }
      if !executes {
        return Err(ExecuteFailed);
      }
      builds := builds - {requestId};
      if ctx.side == BUY {
        trades := trades + [Trade(ctx.user, ctx.pair, EffectivePrice(ctx), AllocationUsd(ctx), None, None, true)];
      } else {
        var i := OldestOpen(trades, ctx.user, ctx.pair);
        if i < |trades| {
          trades := trades[i := SoldOn(trades[i], ctx.amountIn, EffectivePrice(ctx))];
        } else {
          trades := trades + [Trade(ctx.user, ctx.pair, EffectivePrice(ctx), AllocationUsd(ctx), Some(0.0),
                                    Some(EffectivePrice(ctx)), false)];
        }
      }
      return Ok(ctx);
    }
  }

  // ----- One sell, accounted -----

  // What a closing partial sell leaves unaccounted on the row.
  function WriteOff(alloc: real, entry: real, soldQty: real): real {
    if IsPartial(alloc, entry, soldQty) && !StaysOpen(alloc, entry, soldQty) then Remaining(alloc, entry, soldQty)
    else 0.0
  }

  lemma PartOf(alloc: real, f: real, part: real)
    requires alloc >= 0.0 && 0.0 <= f <= 1.0 && part == alloc * f
    ensures 0.0 <= part <= alloc
  {
    MulMono(0.0, f, alloc, 0.0, part);
    MulMono(f, 1.0, alloc, part, alloc);
  }

  lemma ClosedAllocRange(alloc: real, entry: real, soldQty: real)
    requires alloc >= 0.0 && soldQty >= 0.0
    ensures 0.0 <= ClosedAlloc(alloc, entry, soldQty) <= alloc
  {
    if IsPartial(alloc, entry, soldQty) {
      var q := BookedQty(alloc, entry);
      DivCompare(soldQty, q, 0.0, 0.0);
      assert Quotient(soldQty, q) >= 0.0 by {
        var x := soldQty / q;
        assert x * q == soldQty;
      }
      PartOf(alloc, Min(0.95, Quotient(soldQty, q)), ClosedAlloc(alloc, entry, soldQty));
    }
  }

  // A sell splits the allocation into what it closes, what stays open, and a write-off
  // of at most fifty cents that only a closing partial sell makes.
  lemma SellSplitsAllocation(alloc: real, entry: real, soldQty: real)
    requires alloc >= 0.0 && soldQty >= 0.0
    ensures alloc == ClosedAlloc(alloc, entry, soldQty) + WriteOff(alloc, entry, soldQty)
                     + (if StaysOpen(alloc, entry, soldQty) then Remaining(alloc, entry, soldQty) else 0.0)
    ensures 0.0 <= WriteOff(alloc, entry, soldQty) <= 0.5
    ensures WriteOff(alloc, entry, soldQty) != 0.0 ==>
              IsPartial(alloc, entry, soldQty) && !StaysOpen(alloc, entry, soldQty)
  {
    ClosedAllocRange(alloc, entry, soldQty);
  }

  // Selling a share f of the booked quantity, below 95%, closes that share of the allocation;
  // 95% or more closes all of it.
  lemma SellClosesShare(alloc: real, entry: real, soldQty: real, f: real)
    requires alloc > 0.0 && entry > 0.0 && Product(soldQty, entry, f * alloc)
    ensures f < 0.95 ==> ClosedAlloc(alloc, entry, soldQty) == f * alloc
    ensures f >= 0.95 ==> ClosedAlloc(alloc, entry, soldQty) == alloc && !StaysOpen(alloc, entry, soldQty)
  {
    var booked := BookedQty(alloc, entry);
    assert booked * entry == alloc;
    ShareOfBooked(soldQty, entry, alloc, booked, f);
  }

  lemma ShareOfBooked(soldQty: real, entry: real, alloc: real, booked: real, f: real)
    requires alloc > 0.0 && entry > 0.0 && booked * entry == alloc && soldQty * entry == f * alloc
    ensures booked > 0.0 && soldQty == f * booked && Quotient(soldQty, booked) == f
    ensures soldQty < booked * 0.95 <==> f < 0.95
  {
    if booked <= 0.0 {
      MulMono(booked, 0.0, entry, alloc, 0.0);
    }
    assert (f * booked) * entry == f * alloc;
    MulCancel(f * booked, entry);
    MulCancel(soldQty, entry);
    MulCancel(f, booked);
    var x := 0.95 * booked;
    if f < 0.95 {
      MulMonoStrict(f, 0.95, booked, soldQty, x);
    } else {
      MulMono(0.95, f, booked, x, soldQty);
    }
  }

  // Price times base is the quote moved, on either side.
  lemma PriceTimesBase(b: Build)
    ensures b.side == BUY && b.expectedOut > 0.000000000000000001 ==>
              Product(EffectivePrice(b), b.expectedOut, b.amountIn)
    ensures b.side == SELL && b.amountIn > 0.000000000000000001 ==>
              Product(EffectivePrice(b), b.amountIn, b.expectedOut)
  {
    if b.side == BUY && b.expectedOut > 0.000000000000000001 {
      PerUnit(b.amountIn, b.expectedOut);
    }
    if b.side == SELL && b.amountIn > 0.000000000000000001 {
      PerUnit(b.expectedOut, b.amountIn);
    }
  }

  lemma PerUnit(a: real, b: real)
    requires b != 0.0
    ensures Product(Quotient(a, b), b, a)
  {
  }

  // The exact profit of a slice is its base times the move of the price.
  lemma ExactPnlIsMove(alloc: real, entry: real, exit: real, qty: real)
    requires entry > 0.0 && Product(qty, entry, alloc)
    ensures ExactPnl(alloc, entry, exit) == qty * (exit - entry)
  {
    var q := Quotient(exit, entry);
    assert q * entry == exit;
    assert alloc * (q - 1.0) == qty * (q * entry) - qty * entry;
  }

  // A buy is booked at its dollar value, to half a 1e-8, and not at all below that.
  lemma AllocationIsValue(b: Build)
    ensures match AllocationUsd(b)
            case Some(usd) => usd > 0.0 && Within(usd, b.usdValue, HALF_UNIT)
            case None => b.usdValue <= HALF_UNIT
  {
    Round8Error(Max(0.0, b.usdValue));
    if b.usdValue < 0.0 {
      assert Round8(0.0) == 0.0;
    }
  }

  ghost predicate Within(a: real, b: real, tolerance: real) {
    b - tolerance <= a <= b + tolerance
  }

  const HALF_UNIT: real := 0.000000005

  lemma MinusOne(alloc: real)
    ensures alloc * (0.0 - 1.0) == -alloc
  {
  }

  lemma NothingMoved(x: real)
    ensures 0.0 * x == 0.0
  {
  }

  // The booked profit is the exact one to half a unit of 1e-8, exactly when the exit
  // price is positive or there was next to nothing to sell.
  lemma BookedPnlIsExactIff(alloc: real, entry: real, exit: real)
    requires alloc >= 0.0 && exit >= 0.0
    ensures Within(RoundTripRealizedPnl(alloc, entry, exit), ExactPnl(alloc, entry, exit), HALF_UNIT) <==>
            exit > 0.0 || entry <= 0.0 || alloc <= HALF_UNIT
  {
    if entry > 0.0 {
      if alloc == 0.0 {
        NothingMoved(Quotient(exit, entry) - 1.0);
      } else if exit > 0.0 {
        Round8Error(ExactPnl(alloc, entry, exit));
      } else {
        assert Quotient(exit, entry) == 0.0;
        MinusOne(alloc);
      }
    }
  }

  // A zero exit price books no loss at all.
  lemma ZeroExitBooksNothing()
    ensures RoundTripRealizedPnl(10.0, 2.0, 0.0) == 0.0 && ExactPnl(10.0, 2.0, 0.0) == -10.0
  {
  }

  // ----- The ledger over runs -----

  function OpenAlloc(t: Trade): real {
    if t.open then OrZero(t.alloc) else 0.0
  }

  function TotalOpen(trades: seq<Trade>): real {
    if trades == [] then 0.0 else TotalOpen(trades[..|trades| - 1]) + OpenAlloc(trades[|trades| - 1])
  }

  function TotalPnl(trades: seq<Trade>): real {
    if trades == [] then 0.0 else TotalPnl(trades[..|trades| - 1]) + OrZero(trades[|trades| - 1].pnl)
  }

  lemma {:induction false} TotalsAfterUpdate(trades: seq<Trade>, i: nat, t: Trade)
    requires i < |trades|
    ensures TotalOpen(trades[i := t]) == TotalOpen(trades) - OpenAlloc(trades[i]) + OpenAlloc(t)
    ensures TotalPnl(trades[i := t]) == TotalPnl(trades) - OrZero(trades[i].pnl) + OrZero(t.pnl)
  {
    var n := |trades| - 1;
    if i == n {
      assert trades[i := t][..n] == trades[..n];
    } else {
      TotalsAfterUpdate(trades[..n], i, t);
      assert trades[i := t][..n] == trades[..n][i := t];
    }
  }

  lemma TotalsAfterAppend(trades: seq<Trade>, t: Trade)
    ensures TotalOpen(trades + [t]) == TotalOpen(trades) + OpenAlloc(t)
    ensures TotalPnl(trades + [t]) == TotalPnl(trades) + OrZero(t.pnl)
  {
    assert (trades + [t])[..|trades|] == trades;
  }

  ghost predicate NonNegative(trades: seq<Trade>) {
    forall i :: 0 <= i < |trades| ==> OrZero(trades[i].alloc) >= 0.0
  }

  // The parts of one booking: allocation bought, closed, written off, and exact profit.
  datatype Parts = Parts(bought: real, closed: real, writtenOff: real, exactPnl: real)

  function PartsOf(trades: seq<Trade>, b: Build): Parts {
    match b.side
    case BUY => Parts(OrZero(AllocationUsd(b)), 0.0, 0.0, 0.0)
    case SELL =>
      var i := OldestOpen(trades, b.user, b.pair);
      if i == |trades| then Parts(0.0, 0.0, 0.0, 0.0)
      else
        var a, e := OrZero(trades[i].alloc), trades[i].entry;
        var closed := ClosedAlloc(a, e, b.amountIn);
        Parts(0.0, closed, WriteOff(a, e, b.amountIn), ExactPnl(closed, e, EffectivePrice(b)))
  }

  // Raw token amounts are not negative.
  ghost predicate SaneBuild(b: Build) {
    b.amountIn >= 0.0 && b.expectedOut >= 0.0
  }

  predicate Priced(b: Build) {
    b.side == SELL ==> EffectivePrice(b) > 0.0
  }

  lemma SellOnLot(t: Trade, soldQty: real, price: real)
    requires t.open && OrZero(t.alloc) >= 0.0 && soldQty >= 0.0
    ensures var a := OrZero(t.alloc);
            && OpenAlloc(t) == OpenAlloc(SoldOn(t, soldQty, price)) + ClosedAlloc(a, t.entry, soldQty)
                               + WriteOff(a, t.entry, soldQty)
            && (price > 0.0 ==> Within(OrZero(SoldOn(t, soldQty, price).pnl) - OrZero(t.pnl),
                                       ExactPnl(ClosedAlloc(a, t.entry, soldQty), t.entry, price), HALF_UNIT))
            && OrZero(SoldOn(t, soldQty, price).alloc) >= 0.0
            && 0.0 <= WriteOff(a, t.entry, soldQty) <= 0.5
  {
    var a := OrZero(t.alloc);
    SellSplitsAllocation(a, t.entry, soldQty);
    ClosedAllocRange(a, t.entry, soldQty);
    if price > 0.0 {
      BookedPnlIsExactIff(ClosedAlloc(a, t.entry, soldQty), t.entry, price);
    }
  }

  ghost predicate Balances(trades: seq<Trade>, after: seq<Trade>, p: Parts, priced: bool) {
    && NonNegative(after)
    && TotalOpen(after) == TotalOpen(trades) + p.bought - p.closed - p.writtenOff
    && (priced ==> Within(TotalPnl(after) - TotalPnl(trades), p.exactPnl, HALF_UNIT))
    && 0.0 <= p.writtenOff <= 0.5
  }

  lemma SellBalances(trades: seq<Trade>, i: nat, soldQty: real, price: real)
    requires NonNegative(trades) && i < |trades| && trades[i].open && soldQty >= 0.0
    ensures var a, e := OrZero(trades[i].alloc), trades[i].entry;
            var closed := ClosedAlloc(a, e, soldQty);
            Balances(trades, trades[i := SoldOn(trades[i], soldQty, price)],
                     Parts(0.0, closed, WriteOff(a, e, soldQty), ExactPnl(closed, e, price)), price > 0.0)
  {
    SellOnLot(trades[i], soldQty, price);
    TotalsAfterUpdate(trades, i, SoldOn(trades[i], soldQty, price));
  }

  // One booking moves the totals by its parts and keeps the rows sane.
  lemma BookingBalances(trades: seq<Trade>, b: Build)
    requires NonNegative(trades) && SaneBuild(b)
    ensures Balances(trades, Booked(trades, b), PartsOf(trades, b), Priced(b))
  {
    var i := OldestOpen(trades, b.user, b.pair);
    if b.side == SELL && i < |trades| {
      SellBalances(trades, i, b.amountIn, EffectivePrice(b));
    } else {
      TotalsAfterAppend(trades, Booked(trades, b)[|trades|]);
    }
  }

  // A sell changes only the oldest open lot of its user and pair.
  lemma SellTouchesOldestOnly(trades: seq<Trade>, b: Build, j: nat)
    requires b.side == SELL && j < |trades| && Booked(trades, b)[..|trades|][j] != trades[j]
    ensures IsOpenLot(trades[j], b.user, b.pair)
    ensures forall k :: 0 <= k < j ==> !IsOpenLot(trades[k], b.user, b.pair)
    ensures |Booked(trades, b)| == |trades|
  {
  }

  function After(trades: seq<Trade>, run: seq<Build>): seq<Trade>
    decreases |run|
  {
    if run == [] then trades else After(Booked(trades, run[0]), run[1..])
  }

  function TotalParts(trades: seq<Trade>, run: seq<Build>): Parts
    decreases |run|
  {
    if run == [] then Parts(0.0, 0.0, 0.0, 0.0)
    else
      var p, q := PartsOf(trades, run[0]), TotalParts(Booked(trades, run[0]), run[1..]);
      Parts(p.bought + q.bought, p.closed + q.closed, p.writtenOff + q.writtenOff, p.exactPnl + q.exactPnl)
  }

  ghost predicate SaneRun(run: seq<Build>) {
    forall i :: 0 <= i < |run| ==> SaneBuild(run[i])
  }

  // Over any run of buys and sells, by any number of users: everything ever allocated is
  // still open, was closed by some slice, or was written off in steps of at most fifty
  // cents; and when every sell has a price, the stored profit is the exact one to half a
  // 1e-8 per booking.
  lemma {:induction false} LedgerConservation(trades: seq<Trade>, run: seq<Build>)
    requires NonNegative(trades) && SaneRun(run)
    ensures var p := TotalParts(trades, run);
            && TotalOpen(trades) + p.bought == TotalOpen(After(trades, run)) + p.closed + p.writtenOff
            && ((forall i :: 0 <= i < |run| ==> Priced(run[i])) ==>
                  Within(TotalPnl(After(trades, run)) - TotalPnl(trades), p.exactPnl, |run| as real * HALF_UNIT))
            && 0.0 <= p.writtenOff <= |run| as real * 0.5
    decreases |run|
  {
    if run == [] {
    } else {
      BookingBalances(trades, run[0]);
      LedgerConservation(Booked(trades, run[0]), run[1..]);
    }
  }

  // ----- The life of one lot -----

  // The sells that a run books on lot i: how many, and their parts.
  datatype LotParts = LotParts(sells: nat, closed: real, writtenOff: real, exactPnl: real)

  predicate SellsFrom(trades: seq<Trade>, b: Build, i: nat) {
    b.side == SELL && OldestOpen(trades, b.user, b.pair) == i < |trades|
  }

  function LotPartsOf(trades: seq<Trade>, run: seq<Build>, i: nat): LotParts
    decreases |run|
  {
    if run == [] then LotParts(0, 0.0, 0.0, 0.0)
    else
      var q := LotPartsOf(Booked(trades, run[0]), run[1..], i);
      if !SellsFrom(trades, run[0], i) then q
      else
        var p := PartsOf(trades, run[0]);
        LotParts(1 + q.sells, p.closed + q.closed, p.writtenOff + q.writtenOff, p.exactPnl + q.exactPnl)
  }

  // Every sell that the run books on lot i has a price.
  predicate PricedOn(trades: seq<Trade>, run: seq<Build>, i: nat)
    decreases |run|
  {
    run == [] || ((SellsFrom(trades, run[0], i) ==> Priced(run[0])) && PricedOn(Booked(trades, run[0]), run[1..], i))
  }

  // A booking leaves every lot alone but the one it sells from, and that one was open.
  lemma OtherLotsUntouched(trades: seq<Trade>, b: Build, i: nat)
    requires i < |trades|
    ensures i < |Booked(trades, b)|
    ensures !SellsFrom(trades, b, i) ==> Booked(trades, b)[i] == trades[i]
    ensures SellsFrom(trades, b, i) ==>
              trades[i].open && Booked(trades, b)[i] == SoldOn(trades[i], b.amountIn, EffectivePrice(b))
  {
  }

  lemma {:induction false} ClosedLotIsFinal(trades: seq<Trade>, run: seq<Build>, i: nat)
    requires i < |trades| && !trades[i].open
    ensures i < |After(trades, run)| && After(trades, run)[i] == trades[i]
    ensures LotPartsOf(trades, run, i) == LotParts(0, 0.0, 0.0, 0.0)
    decreases |run|
  {
    if run == [] {
    } else {
      OtherLotsUntouched(trades, run[0], i);
      ClosedLotIsFinal(Booked(trades, run[0]), run[1..], i);
    }
  }

  ghost predicate LotBalances(t: Trade, t': Trade, p: LotParts, priced: bool) {
    && OpenAlloc(t) == OpenAlloc(t') + p.closed + p.writtenOff
    && 0.0 <= p.writtenOff <= 0.5 && (p.writtenOff > 0.0 ==> !t'.open)
    && (priced ==> Within(OrZero(t'.pnl) - OrZero(t.pnl), p.exactPnl, p.sells as real * HALF_UNIT))
  }

  // Over any run of bookings, of whatever users and pairs: what a lot was opened with is
  // what stays open, plus the slices closed on it, plus one write-off of at most fifty
  // cents, made only by the sell that closes it; and its stored profit is within half a
  // 1e-8 per sell of the exact profit of its slices.
  lemma {:induction false} LotConservation(trades: seq<Trade>, run: seq<Build>, i: nat)
    requires NonNegative(trades) && SaneRun(run) && i < |trades| && trades[i].open
    ensures i < |After(trades, run)|
    ensures LotBalances(trades[i], After(trades, run)[i], LotPartsOf(trades, run, i), PricedOn(trades, run, i))
    decreases |run|
  {
    if run == [] {
    } else {
      var next := Booked(trades, run[0]);
      OtherLotsUntouched(trades, run[0], i);
      BookingBalances(trades, run[0]);
      if SellsFrom(trades, run[0], i) {
        SellOnLot(trades[i], run[0].amountIn, EffectivePrice(run[0]));
        SellSplitsAllocation(OrZero(trades[i].alloc), trades[i].entry, run[0].amountIn);
      }
      if next[i].open {
        LotConservation(next, run[1..], i);
      } else {
        ClosedLotIsFinal(next, run[1..], i);
      }
    }
  }
}
