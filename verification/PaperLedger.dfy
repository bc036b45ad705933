// Paper spot trading: market fills with slippage and taker fees, and the ledger of
// trades, deposits and withdrawals they are booked in. Handlers are atomic.
module PaperLedger {
  import opened Common

  // ----- Execution prices -----

  const FEE_DEFAULT: int := 10
  const FEE_MAX: int := 200
  const SLIP_DEFAULT: int := 10
  const SLIP_MAX: int := 500
  const PRICE_FLOOR: real := 0.000000000001

  // A setting in basis points; anything unreadable or out of range is the default.
  function Bps(raw: Option<int>, max: int, default: int): (n: int)
    requires 0 <= default <= max
    ensures 0 <= n <= max
  {
    if raw.None? || raw.value < 0 || raw.value > max then default else raw.value
  }

  datatype Costs = Costs(rawFee: Option<int>, rawSlip: Option<int>) {
    function Fee(): (f: real)
      ensures 0.0 <= f <= 0.02
    {
      Bps(rawFee, FEE_MAX, FEE_DEFAULT) as real / 10000.0
    }

    function Slip(): (s: real)
      ensures 0.0 <= s <= 0.05
    {
      Bps(rawSlip, SLIP_MAX, SLIP_DEFAULT) as real / 10000.0
    }

    // What a leg keeps after its fee.
    function Keep(): (k: real)
      ensures 0.0 < k <= 1.0
    {
      1.0 - Fee()
    }

    function BuyPrice(ask: real): real {
      ask * (1.0 + Slip())
    }

    function SellPrice(bid: real): (p: real)
      ensures p >= PRICE_FLOOR
    {
      Max(PRICE_FLOOR, bid * (1.0 - Slip()))
    }

    function BaseQty(alloc: real, ask: real): real
      requires ask != 0.0
    {
      Quotient(alloc * Keep(), ask)
    }

    function Proceeds(baseQty: real, bid: real): real {
      baseQty * bid * Keep()
    }

    function RoundTripPnl(alloc: real, entryAsk: real, exitBid: real): real
      requires entryAsk != 0.0
    {
      Proceeds(BaseQty(alloc, entryAsk), exitBid) - alloc
    }

    function UnrealizedPnl(alloc: real, entry: real, bid: real): real
      requires entry != 0.0
    {
      RoundTripPnl(alloc, entry, SellPrice(bid))
    }
  }

  // ----- The ledger -----

  datatype Trade = Trade(user: string, entry: real, alloc: Option<real>, exit: Option<real>, pnl: Option<real>,
                         open: bool)
  datatype Portfolio = Portfolio(totalValue: real, pnl: real)
  datatype Movement = Movement(user: string, amount: real)
  datatype Books = Books(trades: seq<Trade>, portfolios: map<string, Portfolio>, deposits: seq<Movement>,
                         withdrawals: seq<Movement>)

  datatype LedgerError = NoPortfolio | InsufficientBalance

  function OrZero(o: Option<real>): real {
    match o case None => 0.0 case Some(v) => v
  }

  predicate Priced(t: Trade) {
    OrZero(t.alloc) > 0.0 && t.entry > 0.0
  }

  // The profit a close at this bid books.
  function ClosePnl(t: Trade, bid: real, costs: Costs): real {
    if Priced(t) then costs.RoundTripPnl(OrZero(t.alloc), t.entry, costs.SellPrice(bid))
    else costs.SellPrice(bid) - t.entry
  }

  // The profit shown beside an open position.
  function DisplayedPnl(t: Trade, bid: real, costs: Costs): Option<real> {
    if t.entry > 0.0 && t.alloc.Some? && t.alloc.value > 0.0 then Some(costs.UnrealizedPnl(t.alloc.value, t.entry, bid))
    else None
  }

  predicate Closable(b: Books, user: string, id: nat) {
    id < |b.trades| && b.trades[id].user == user && b.trades[id].open
  }

  function Move(portfolios: map<string, Portfolio>, user: string, value: real, pnl: real): map<string, Portfolio>
    requires user in portfolios
  {
    var p := portfolios[user];
    portfolios[user := Portfolio(p.totalValue + value, p.pnl + pnl)]
  }

  function Opened(b: Books, user: string, ask: real, alloc: real, costs: Costs): Books {
    b.(trades := b.trades + [Trade(user, costs.BuyPrice(ask), Some(alloc), None, None, true)])
  }

  function Closed(b: Books, user: string, id: nat, bid: real, costs: Costs): Books {
    if !Closable(b, user, id) then b
    else
      var t := b.trades[id];
      var pnl := ClosePnl(t, bid, costs);
      var trades := b.trades[id := t.(exit := Some(costs.SellPrice(bid)), pnl := Some(pnl), open := false)];
      if user in b.portfolios then b.(trades := trades, portfolios := Move(b.portfolios, user, pnl, pnl))
      else b.(trades := trades)
  }

  function Deposited(b: Books, user: string, amount: real): Books {
    if user !in b.portfolios then b
    else b.(deposits := b.deposits + [Movement(user, amount)], portfolios := Move(b.portfolios, user, amount, 0.0))
  }

  predicate CanWithdraw(b: Books, user: string, amount: real) {
    user in b.portfolios && amount <= b.portfolios[user].totalValue
  }

  function Withdrawn(b: Books, user: string, amount: real): Books {
    if !CanWithdraw(b, user, amount) then b
    else b.(withdrawals := b.withdrawals + [Movement(user, amount)],
            portfolios := Move(b.portfolios, user, -amount, 0.0))
  }

  class PaperDesk {
    var trades: seq<Trade>
    var portfolios: map<string, Portfolio>
    var deposits: seq<Movement>
    var withdrawals: seq<Movement>

    function State(): Books
      reads this
    {
      Books(trades, portfolios, deposits, withdrawals)
    }

    constructor (opening: map<string, Portfolio>)
      ensures State() == Books([], opening, [], [])
    {
      trades, portfolios, deposits, withdrawals := [], opening, [], [];
    }

    method Increment(user: string, value: real, pnl: real) returns (r: Result<(), LedgerError>)
      modifies this`portfolios
      ensures r == if user in old(portfolios) then Ok(()) else Err(NoPortfolio)
      ensures portfolios == if r.Ok? then Move(old(portfolios), user, value, pnl) else old(portfolios)
    {
      if user !in portfolios {
        return Err(NoPortfolio);
      }
      var p := portfolios[user];
      portfolios := portfolios[user := Portfolio(p.totalValue + value, p.pnl + pnl)];
      return Ok(());
    }

    method PaperOpenPosition(user: string, ask: real, alloc: real, costs: Costs) returns (id: nat, executionPrice: real)
      modifies this`trades
      ensures State() == Opened(old(State()), user, ask, alloc, costs)
      ensures Closable(State(), user, id) && id == |old(trades)| && executionPrice == trades[id].entry
    {
      executionPrice := costs.BuyPrice(ask);
      id := |trades|;
      trades := trades + [Trade(user, executionPrice, Some(alloc), None, None, true)];
    }

    // A missing or already closed trade yields nothing and changes nothing. The trade row
    // is written before the portfolio, and stays written when the portfolio is missing.
    method PaperClosePosition(user: string, id: nat, bid: real, costs: Costs)
        returns (r: Result<Option<real>, LedgerError>)
      modifies this`trades, this`portfolios
      ensures State() == Closed(old(State()), user, id, bid, costs)
      ensures !Closable(old(State()), user, id) ==> r == Ok(None) && State() == old(State())
      ensures Closable(old(State()), user, id) && user in old(portfolios) ==>
                && r == Ok(Some(ClosePnl(old(trades)[id], bid, costs)))
                && portfolios[user].totalValue == old(portfolios)[user].totalValue + r.value.value
      ensures Closable(old(State()), user, id) && user !in old(portfolios) ==> r == Err(NoPortfolio)
    {
      if id >= |trades| || trades[id].user != user || !trades[id].open {
        return Ok(None);
      }
      var t := trades[id];
      var exit := costs.SellPrice(bid);
      var alloc := if t.alloc.Some? then t.alloc.value else 0.0;
      var pnl := if alloc > 0.0 && t.entry > 0.0 then costs.RoundTripPnl(alloc, t.entry, exit) else exit - t.entry;
      trades := trades[id := t.(exit := Some(exit), pnl := Some(pnl), open := false)];
      var moved := Increment(user, pnl, pnl);
      return if moved.Ok? then Ok(Some(pnl)) else Err(moved.error);
    }

    method Deposit(user: string, amount: real) returns (r: Result<real, LedgerError>)
      modifies this`deposits, this`portfolios
      ensures State() == Deposited(old(State()), user, amount)
      ensures r == if user in old(portfolios) then Ok(old(portfolios)[user].totalValue + amount) else Err(NoPortfolio)
    {
      if user !in portfolios {
        return Err(NoPortfolio);
      }
      deposits := deposits + [Movement(user, amount)];
      var _ := Increment(user, amount, 0.0);
      return Ok(portfolios[user].totalValue);
    }

    method Withdraw(user: string, amount: real) returns (r: Result<real, LedgerError>)
      modifies this`withdrawals, this`portfolios
      ensures State() == Withdrawn(old(State()), user, amount)
      ensures r.Ok? <==> CanWithdraw(old(State()), user, amount)
      ensures r.Ok? ==> r.value == portfolios[user].totalValue == old(portfolios)[user].totalValue - amount >= 0.0
    {
      if user !in portfolios {
        return Err(NoPortfolio);
      }
      if amount > portfolios[user].totalValue {
        return Err(InsufficientBalance);
      }
      withdrawals := withdrawals + [Movement(user, amount)];
      var _ := Increment(user, -amount, 0.0);
      return Ok(portfolios[user].totalValue);
    }
  }

  // ----- Conservation over runs -----

  datatype Event =
    | Open(user: string, ask: real, alloc: real, costs: Costs)
    | Close(user: string, id: nat, bid: real, costs: Costs)
    | Deposit(user: string, amount: real)
    | Withdraw(user: string, amount: real)

  function Step(b: Books, e: Event): Books {
    match e
    case Open(user, ask, alloc, costs) => Opened(b, user, ask, alloc, costs)
    case Close(user, id, bid, costs) => Closed(b, user, id, bid, costs)
    case Deposit(user, amount) => Deposited(b, user, amount)
    case Withdraw(user, amount) => Withdrawn(b, user, amount)
  }

  function After(b: Books, run: seq<Event>): Books
    decreases |run|
  {
    if run == [] then b else After(Step(b, run[0]), run[1..])
  }

  // Sums over the recorded rows of one user.
  function Total(rows: seq<Movement>, user: string): real {
    if rows == [] then 0.0
    else Total(rows[..|rows| - 1], user) + if rows[|rows| - 1].user == user then rows[|rows| - 1].amount else 0.0
  }

  function BookedPnl(t: Trade, user: string): real {
    if t.user == user && !t.open then OrZero(t.pnl) else 0.0
  }

  function ClosedPnl(trades: seq<Trade>, user: string): real {
    if trades == [] then 0.0
    else BookedPnl(trades[0], user) + ClosedPnl(trades[1..], user)
  }

  lemma TotalAppend(rows: seq<Movement>, row: Movement, user: string)
    ensures Total(rows + [row], user) == Total(rows, user) + if row.user == user then row.amount else 0.0
  {
    assert (rows + [row])[..|rows|] == rows;
  }

  lemma {:induction false} ClosedPnlAppend(trades: seq<Trade>, t: Trade, user: string)
    ensures ClosedPnl(trades + [t], user) == ClosedPnl(trades, user) + BookedPnl(t, user)
  {
    if trades == [] {
      assert [t][1..] == [];
    } else {
      assert (trades + [t])[1..] == trades[1..] + [t];
      ClosedPnlAppend(trades[1..], t, user);
    }
  }

  lemma {:induction false} ClosedPnlUpdate(trades: seq<Trade>, i: nat, t: Trade, user: string)
    requires i < |trades|
    ensures ClosedPnl(trades[i := t], user) == ClosedPnl(trades, user) - BookedPnl(trades[i], user) + BookedPnl(t, user)
  {
    if i == 0 {
      assert trades[i := t][1..] == trades[1..];
    } else {
      assert trades[i := t][1..] == trades[1..][i - 1 := t];
      ClosedPnlUpdate(trades[1..], i - 1, t, user);
    }
  }

  // What a user's portfolio would be without any recorded movement or closed trade.
  function Unexplained(b: Books, user: string): Portfolio
    requires user in b.portfolios
  {
    var p, closed := b.portfolios[user], ClosedPnl(b.trades, user);
    Portfolio(p.totalValue - Total(b.deposits, user) + Total(b.withdrawals, user) - closed, p.pnl - closed)
  }

  lemma OpenExplains(b: Books, e: Event, user: string)
    requires user in b.portfolios && e.Open?
    ensures user in Step(b, e).portfolios && Unexplained(Step(b, e), user) == Unexplained(b, user)
  {
    ClosedPnlAppend(b.trades, Step(b, e).trades[|b.trades|], user);
  }

  lemma CloseExplains(b: Books, e: Event, user: string)
    requires user in b.portfolios && e.Close?
    ensures user in Step(b, e).portfolios && Unexplained(Step(b, e), user) == Unexplained(b, user)
  {
    if Closable(b, e.user, e.id) {
      CloseMoves(b, e, user);
      ClosedPnlUpdate(b.trades, e.id, Step(b, e).trades[e.id], user);
    }
  }

  // A close moves the closer's portfolio, and nobody else's, by what its row books.
  lemma CloseMoves(b: Books, e: Event, user: string)
    requires user in b.portfolios && e.Close? && Closable(b, e.user, e.id)
    ensures var b' := Step(b, e);
            var booked := BookedPnl(b'.trades[e.id], user);
            && b'.trades == b.trades[e.id := b'.trades[e.id]] && BookedPnl(b.trades[e.id], user) == 0.0
            && user in b'.portfolios
            && b'.portfolios[user] == Portfolio(b.portfolios[user].totalValue + booked, b.portfolios[user].pnl + booked)
            && b'.deposits == b.deposits && b'.withdrawals == b.withdrawals
  {
  }

  lemma DepositExplains(b: Books, e: Event, user: string)
    requires user in b.portfolios && e.Deposit?
    ensures user in Step(b, e).portfolios && Unexplained(Step(b, e), user) == Unexplained(b, user)
  {
    TotalAppend(b.deposits, Movement(e.user, e.amount), user);
  }

  lemma WithdrawExplains(b: Books, e: Event, user: string)
    requires user in b.portfolios && e.Withdraw?
    ensures user in Step(b, e).portfolios && Unexplained(Step(b, e), user) == Unexplained(b, user)
  {
    TotalAppend(b.withdrawals, Movement(e.user, e.amount), user);
  }

  lemma StepExplains(b: Books, e: Event, user: string)
    requires user in b.portfolios
    ensures user in Step(b, e).portfolios && Unexplained(Step(b, e), user) == Unexplained(b, user)
  {
    match e
    case Open(_, _, _, _) => OpenExplains(b, e, user);
    case Close(_, _, _, _) => CloseExplains(b, e, user);
    case Deposit(_, _) => DepositExplains(b, e, user);
    case Withdraw(_, _) => WithdrawExplains(b, e, user);
  }

  lemma {:induction false} RunExplains(b: Books, run: seq<Event>, user: string)
    requires user in b.portfolios
    ensures user in After(b, run).portfolios && Unexplained(After(b, run), user) == Unexplained(b, user)
    decreases |run|
  {
    if run == [] {
    } else {
      StepExplains(b, run[0], user);
      RunExplains(Step(b, run[0]), run[1..], user);
    }
  }

  // Over any run of opens, closes, deposits and withdrawals by any users, from any books:
  // a wallet changes by the deposits recorded, less the withdrawals, plus the profits of
  // the trades closed; and its running profit changes by the same profits.
  lemma LedgerConservation(b: Books, run: seq<Event>, user: string)
    requires user in b.portfolios
    ensures var after := After(b, run);
            var closed := ClosedPnl(after.trades, user) - ClosedPnl(b.trades, user);
            && user in after.portfolios
            && after.portfolios[user].totalValue - b.portfolios[user].totalValue ==
               (Total(after.deposits, user) - Total(b.deposits, user))
               - (Total(after.withdrawals, user) - Total(b.withdrawals, user)) + closed
            && after.portfolios[user].pnl - b.portfolios[user].pnl == closed
  {
    RunExplains(b, run, user);
  }

  // A closed row is final: no run changes it, and closing it again changes nothing at all.
  lemma {:induction false} ClosedRowsAreFinal(b: Books, run: seq<Event>, id: nat)
    requires id < |b.trades| && !b.trades[id].open
    ensures id < |After(b, run).trades| && After(b, run).trades[id] == b.trades[id]
    ensures forall user, bid, costs :: Closed(After(b, run), user, id, bid, costs) == After(b, run)
    decreases |run|
  {
    if run == [] {
    } else {
      ClosedRowsAreFinal(Step(b, run[0]), run[1..], id);
    }
  }

  // ----- What a close is worth -----

  // Exactly the rows with an allocation and an entry price show a profit, and what they
  // show is what closing them at that bid books.
  lemma DisplayedIsBooked(b: Books, user: string, id: nat, bid: real, costs: Costs)
    requires Closable(b, user, id)
    ensures var shown, row := DisplayedPnl(b.trades[id], bid, costs), Closed(b, user, id, bid, costs).trades[id];
            && (shown.Some? <==> Priced(b.trades[id]))
            && (shown.Some? ==> row.pnl == shown)
            && !row.open
  {
  }

  // Without a setting, or with one out of range, both costs are ten basis points.
  lemma DefaultCosts(raw: int)
    requires raw < 0 || raw > 500
    ensures Costs(None, None).Fee() == 0.001 && Costs(None, None).Slip() == 0.001
    ensures Costs(Some(raw), Some(raw)).Fee() == 0.001 && Costs(Some(raw), Some(raw)).Slip() == 0.001
  {
  }

  // Slippage moves a fill by its basis points, against the trader on either side.
  lemma SlippageInBps(price: real, bps: int)
    requires 0 <= bps <= 500 && price >= PRICE_FLOOR * 2.0
    ensures var costs := Costs(None, Some(bps));
            && costs.BuyPrice(price) * 10000.0 == price * (10000 + bps) as real
            && costs.SellPrice(price) * 10000.0 == price * (10000 - bps) as real
  {
    var costs := Costs(None, Some(bps));
    assert costs.Slip() == bps as real / 10000.0;
    SlipOf(price, bps as real, costs.Slip());
    var rest := price * (1.0 - costs.Slip());
    MulMono(0.5, 1.0 - costs.Slip(), price, 0.5 * price, rest);
  }

  lemma SlipOf(price: real, bps: real, slip: real)
    requires slip == bps / 10000.0
    ensures price * (1.0 + slip) * 10000.0 == price * (10000.0 + bps)
    ensures price * (1.0 - slip) * 10000.0 == price * (10000.0 - bps)
  {
  }

  // A round trip at one price costs both fees: of 10000 bps, (10000 - fee)^2 / 10000 come
  // back.
  lemma RoundTripCostsBothFees(alloc: real, price: real, bps: int)
    requires 0 <= bps <= 200 && price > 0.0
    ensures var kept := 10000.0 - bps as real;
            (Costs(Some(bps), None).RoundTripPnl(alloc, price, price) + alloc) * 100000000.0 == alloc * kept * kept
  {
    var costs, kept := Costs(Some(bps), None), 10000.0 - bps as real;
    assert costs.Keep() * 10000.0 == kept;
    var base := costs.BaseQty(alloc, price);
    QuotientTimes(alloc * costs.Keep(), price, base);
    BothFees(alloc, price, costs.Keep(), base, kept);
  }

  lemma BothFees(alloc: real, price: real, keep: real, base: real, kept: real)
    requires base * price == alloc * keep && keep * 10000.0 == kept
    ensures base * price * keep * 100000000.0 == alloc * kept * kept
  {
    assert kept * kept == keep * keep * 100000000.0;
    assert base * price * keep == alloc * (keep * keep);
  }

  // The proceeds grow in proportion to the exit price.
  lemma ProceedsInProportion(alloc: real, entry: real, exit: real, x: real, costs: Costs)
    requires entry > 0.0
    ensures costs.RoundTripPnl(alloc, entry, x * exit) + alloc == x * (costs.RoundTripPnl(alloc, entry, exit) + alloc)
  {
    InProportion(costs.BaseQty(alloc, entry), exit, x, costs.Keep());
  }

  lemma InProportion(base: real, exit: real, x: real, keep: real)
    ensures base * (x * exit) * keep == x * (base * exit * keep)
  {
  }

  // keep * keep * x, as a named quantity.
  function AfterFees(keep: real, x: real): real {
    keep * keep * x
  }

  lemma GainIff(alloc: real, entry: real, exit: real, keep: real, base: real, proceeds: real)
    requires alloc > 0.0 && entry > 0.0 && base * entry == alloc * keep && proceeds == base * exit * keep
    ensures proceeds > alloc <==> AfterFees(keep, exit) > entry
  {
    var net := AfterFees(keep, exit);
    var pe, ae, an := proceeds * entry, alloc * entry, alloc * net;
    assert pe == an by {
      assert pe == (base * entry) * (exit * keep);
      assert (alloc * keep) * (exit * keep) == an;
    }
    if proceeds > alloc {
      MulMonoStrict(alloc, proceeds, entry, ae, pe);
    } else {
      MulMono(proceeds, alloc, entry, pe, ae);
    }
    if net > entry {
      MulMonoStrict(entry, net, alloc, ae, an);
    } else {
      MulMono(net, entry, alloc, an, ae);
    }
  }

  // On an uncrossed book a sell that is not at the floor fetches no more than the buy cost.
  lemma SellNoDearerThanBuy(ask: real, bid: real, slip: real, entry: real, fetched: real)
    requires bid <= ask && 0.0 <= slip <= 0.05 && entry == ask * (1.0 + slip) && fetched == bid * (1.0 - slip)
             && fetched > 0.0
    ensures fetched <= entry
  {
    if bid <= 0.0 {
      MulMono(bid, 0.0, 1.0 - slip, fetched, 0.0);
    }
    MulMono(1.0 - slip, 1.0, bid, fetched, bid);
    MulMono(1.0, 1.0 + slip, ask, ask, entry);
  }

  lemma AfterFeesBounds(keep: real, x: real, y: real)
    requires 0.0 < keep <= 1.0 && 0.0 < x <= y
    ensures 0.0 < AfterFees(keep, x) <= x && AfterFees(keep, x) <= AfterFees(keep, y)
  {
    var kk := keep * keep;
    MulMono(keep, 1.0, keep, kk, keep);
    MulMonoStrict(0.0, keep, keep, 0.0, kk);
    MulMono(kk, 1.0, x, AfterFees(keep, x), x);
    MulMonoStrict(0.0, kk, x, 0.0, AfterFees(keep, x));
    MulMono(x, y, kk, AfterFees(keep, x), AfterFees(keep, y));
  }

  // Opening at the ask and closing at the bid of an uncrossed book gains exactly when the
  // entry price is under the floor that a sell is lifted to, less both fees.
  lemma OpenCloseGainsIff(b: Books, user: string, ask: real, bid: real, alloc: real, costs: Costs)
    requires bid <= ask
    ensures var b1 := Opened(b, user, ask, alloc, costs);
            var row := Closed(b1, user, |b.trades|, bid, costs).trades[|b.trades|];
            && Closable(b1, user, |b.trades|) && row.pnl.Some?
            && (row.pnl.value > 0.0 <==>
                costs.BuyPrice(ask) < if alloc > 0.0 then AfterFees(costs.Keep(), PRICE_FLOOR) else PRICE_FLOOR)
  {
    var t := Opened(b, user, ask, alloc, costs).trades[|b.trades|];
    BookGainsIff(t, ask, bid, costs);
  }

  lemma BookGainsIff(t: Trade, ask: real, bid: real, costs: Costs)
    requires bid <= ask && t.entry == costs.BuyPrice(ask)
    ensures ClosePnl(t, bid, costs) > 0.0 <==>
            t.entry < if OrZero(t.alloc) > 0.0 then AfterFees(costs.Keep(), PRICE_FLOOR) else PRICE_FLOOR
  {
    var exit, keep := costs.SellPrice(bid), costs.Keep();
    UncrossedExit(ask, bid, costs);
    AfterFeesBounds(keep, PRICE_FLOOR, exit);
    AfterFeesBounds(keep, exit, exit);
    if Priced(t) {
      PricedGainIff(OrZero(t.alloc), t.entry, exit, costs);
    }
  }

  lemma UncrossedExit(ask: real, bid: real, costs: Costs)
    requires bid <= ask
    ensures costs.SellPrice(bid) == PRICE_FLOOR || costs.SellPrice(bid) <= costs.BuyPrice(ask)
  {
    if costs.SellPrice(bid) > PRICE_FLOOR {
      SellNoDearerThanBuy(ask, bid, costs.Slip(), costs.BuyPrice(ask), bid * (1.0 - costs.Slip()));
    }
  }

  lemma PricedGainIff(alloc: real, entry: real, exit: real, costs: Costs)
    requires alloc > 0.0 && entry > 0.0
    ensures costs.RoundTripPnl(alloc, entry, exit) > 0.0 <==> AfterFees(costs.Keep(), exit) > entry
  {
    var base := costs.BaseQty(alloc, entry);
    QuotientTimes(alloc * costs.Keep(), entry, base);
    GainIff(alloc, entry, exit, costs.Keep(), base, costs.Proceeds(base, exit));
  }

  lemma QuotientTimes(a: real, b: real, q: real)
    requires b != 0.0 && q == Quotient(a, b)
    ensures q * b == a
  {
  }

  // Under the floor it does: without costs, a hundred dollars at half the floor double.
  lemma DustGains(b: Books, user: string)
    ensures var ask, free := PRICE_FLOOR * 0.5, Costs(Some(0), Some(0));
            Closed(Opened(b, user, ask, 100.0, free), user, |b.trades|, ask, free).trades[|b.trades|].pnl == Some(100.0)
  {
    var ask, free := PRICE_FLOOR * 0.5, Costs(Some(0), Some(0));
    assert free.Keep() == 1.0 && free.BuyPrice(ask) == ask && free.SellPrice(ask) == PRICE_FLOOR;
    assert free.RoundTripPnl(100.0, ask, PRICE_FLOOR) == 100.0;
  }

  // So no fee, slippage or allocation makes it gain once the ask is at the floor or above.
  lemma OpenCloseNeverGains(b: Books, user: string, ask: real, bid: real, alloc: real, costs: Costs)
    requires bid <= ask && ask >= PRICE_FLOOR
    ensures var row := Closed(Opened(b, user, ask, alloc, costs), user, |b.trades|, bid, costs).trades[|b.trades|];
            row.pnl.Some? && row.pnl.value <= 0.0
  {
    OpenCloseGainsIff(b, user, ask, bid, alloc, costs);
    AfterFeesBounds(costs.Keep(), PRICE_FLOOR, PRICE_FLOOR);
    MulMono(1.0, 1.0 + costs.Slip(), ask, ask, costs.BuyPrice(ask));
  }
}
