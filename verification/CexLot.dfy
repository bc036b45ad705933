// The Binance Super Machine's open lot: bought by the council, skimmed for profit,
// closed by take-profit, stop-loss or trailing stop, and edited by the manual desk.
// Ticks and handlers are atomic; quotes, balances and order replies are inputs.
module CexLot {
  import opened Common

  // The configuration row. An open lot lives in the first fields; the exits, the
  // trailing peak and the banked profit belong to it too.
  datatype Row = Row(
    symbol: Option<string>,
    entryPrice: Option<real>,
    baseQty: Option<real>,
    quoteSpent: Option<real>,
    takeProfitPct: Option<real>,
    stopLossPct: Option<real>,
    trailingStop: Option<bool>,
    trailingPeak: Option<real>,
    skimmedUsd: Option<real>,
    lastBuyAt: Option<int>)

  datatype Lot = Lot(
    symbol: string,
    entry: real,
    baseQty: real,
    quoteSpent: real,
    skimmed: real,
    takeProfitPct: Option<real>,
    stopLossPct: Option<real>,
    trailingStop: Option<bool>,
    peak: Option<real>)

  datatype ExitSettings = ExitSettings(
    enabled: bool,
    takeProfitPct: real,
    stopLossPct: real,
    profitSkim: bool,
    trailingStop: bool,
    trailingActivationPct: real,
    trailingDeltaPct: real)

  const BUY_COOLDOWN_MS: int := 480_000
  const SKIM_COOLDOWN_MS: int := 45_000
  const MIN_SELL_NOTIONAL_USD: real := 5.5

  function Or<T>(o: Option<T>, d: T): T {
    match o case None => d case Some(v) => v
  }

  function ToOpenLong(row: Row): (lot: Option<Lot>)
    ensures lot.Some? ==> lot.value.baseQty > 0.0 && lot.value.entry > 0.0
  {
    if row.symbol.None? || row.baseQty.None? || row.entryPrice.None? then None
    else if !(row.baseQty.value > 0.0) || !(row.entryPrice.value > 0.0) then None
    else Some(Lot(row.symbol.value, row.entryPrice.value, row.baseQty.value, Or(row.quoteSpent, 0.0),
                  Or(row.skimmedUsd, 0.0),
                  row.takeProfitPct, row.stopLossPct, row.trailingStop, row.trailingPeak))
  }

  function ClearOpenLot(row: Row): Row {
    Row(None, None, None, None, None, None, None, None, None, row.lastBuyAt)
  }

  function PnlPct(entry: real, mark: real): real
    requires entry > 0.0
  {
    Quotient(mark - entry, entry) * 100.0
  }

  // ----- The profit slice -----

  datatype Blocked = NotInProfit | TooSmall | UnderMinimum

  datatype Slice = Slice(pnlPct: real, skimQty: real, skimNotionalUsd: real, blocked: Option<Blocked>)

  function ProfitUsd(lot: Lot, mark: real): real
    requires lot.entry > 0.0
  {
    lot.quoteSpent * (PnlPct(lot.entry, mark) / 100.0)
  }

  // The wanted slice before the minimum-order check.
  function SliceQty(lot: Lot, mark: real, freeBase: Option<real>): real
    requires lot.entry > 0.0 && mark != 0.0
  {
    var qty := Min(lot.baseQty * 0.5, Quotient(ProfitUsd(lot, mark), mark));
    if freeBase.Some? && freeBase.value > 0.0 then Min(qty, freeBase.value * 0.98) else qty
  }

  lemma ProfitNeedsARise(entry: real, mark: real)
    requires entry > 0.0 && PnlPct(entry, mark) > 0.0
    ensures mark > entry
  {
    DivCompare(mark - entry, entry, 0.0, 0.0);
  }

  function ComputeSkimSlice(lot: Lot, mark: real, freeBase: Option<real>): Slice
    requires lot.entry > 0.0
  {
    var pnlPct := PnlPct(lot.entry, mark);
    if pnlPct <= 0.05 then Slice(pnlPct, 0.0, 0.0, Some(NotInProfit))
    else
      ProfitNeedsARise(lot.entry, mark);
      var qty := SliceQty(lot, mark, freeBase);
      if qty <= 0.0 || qty >= lot.baseQty * 0.9 then Slice(pnlPct, 0.0, 0.0, Some(TooSmall))
      else if qty * mark < MIN_SELL_NOTIONAL_USD then Slice(pnlPct, 0.0, qty * mark, Some(UnderMinimum))
      else Slice(pnlPct, qty, qty * mark, None)
  }

  // ----- Order replies -----

  // What the exchange answers to an order: base executed and quote moved, each of which
  // may be missing.
  datatype Fill = Fill(executedQty: Option<real>, quoteQty: Option<real>)

  // The order record made of it: the average price is quote per unit, when both are there.
  function FilledQuantity(fill: Fill): real {
    Or(fill.executedQty, 0.0)
  }

  function QuoteQuantity(fill: Fill): real {
    Or(fill.quoteQty, 0.0)
  }

  function AvgFillPrice(fill: Fill): Option<real> {
    if fill.executedQty.Some? && fill.quoteQty.Some? && fill.executedQty.value > 0.0 then
      Some(Quotient(fill.quoteQty.value, fill.executedQty.value))
    else None
  }

  // A zero fill stands for the whole quantity, a missing average price for the mark.
  function SoldQty(fill: Fill, wanted: real): real {
    if FilledQuantity(fill) != 0.0 then FilledQuantity(fill) else wanted
  }

  function FillPrice(fill: Fill, mark: real): real {
    if AvgFillPrice(fill).Some? && AvgFillPrice(fill).value > 0.0 then AvgFillPrice(fill).value else mark
  }

  // The money a buy took: the quote moved, or an estimate without one.
  function MoneySpent(fill: Fill, estimate: real): real {
    if QuoteQuantity(fill) != 0.0 then QuoteQuantity(fill) else estimate
  }

  // What a buy paid per unit.
  function PaidPerUnit(fill: Fill, estimate: real): real
    requires FilledQuantity(fill) > 0.0
  {
    FillPrice(fill, Quotient(MoneySpent(fill, estimate), FilledQuantity(fill)))
  }

  // Profit of selling qty at price.
  function Realized(price: real, entry: real, qty: real): real {
    (price - entry) * qty
  }

  // Cost left after selling part of the base; the fraction is capped at 95%.
  function SpentLeft(spent: real, base: real, sold: real): real
    requires base > 0.0
  {
    Max(0.0, spent * (1.0 - Min(0.95, Quotient(sold, base))))
  }

  // Booking a skim on the row.
  function Skimmed(row: Row, lot: Lot, sold: real, price: real): Row
    requires lot.baseQty > 0.0
  {
    row.(baseQty := Some(Max(0.0, lot.baseQty - sold)),
         quoteSpent := Some(SpentLeft(lot.quoteSpent, lot.baseQty, sold)),
         skimmedUsd := Some(lot.skimmed + Realized(price, lot.entry, sold)))
  }

  // ----- Exits -----

  datatype Reason = NoReason | ProfitSkim | TakeProfit | StopLoss | TrailingStop

  // The tick reaches the trailing branch.
  predicate Trails(lot: Lot, mark: real, exit: ExitSettings)
    requires lot.entry > 0.0
  {
    && exit.enabled
    && PnlPct(lot.entry, mark) < Or(lot.takeProfitPct, exit.takeProfitPct)
    && Or(lot.trailingStop, exit.trailingStop)
  }

  function NewPeak(lot: Lot, mark: real): real {
    Max(Or(lot.peak, 0.0), mark)
  }

  function ActivationLevel(entry: real, exit: ExitSettings): real {
    entry * (1.0 + exit.trailingActivationPct / 100.0)
  }

  // Never below entry + 0.1% once armed.
  function TrailFloor(peak: real, entry: real, exit: ExitSettings): real {
    Max(peak * (1.0 - exit.trailingDeltaPct / 100.0), entry * 1.001)
  }

  predicate TrailingFires(lot: Lot, mark: real, exit: ExitSettings)
    requires lot.entry > 0.0
  {
    var peak := NewPeak(lot, mark);
    && peak >= ActivationLevel(lot.entry, exit)
    && mark <= TrailFloor(peak, lot.entry, exit)
    && PnlPct(lot.entry, mark) > 0.0
  }

  function ReasonFor(lot: Lot, mark: real, exit: ExitSettings, freeBase: real, now: int, lastSkimAt: int): Reason
    requires lot.entry > 0.0
  {
    var pnlPct := PnlPct(lot.entry, mark);
    var slBase := Or(lot.stopLossPct, exit.stopLossPct);
    var sl := if lot.skimmed > 0.0 then Min(slBase, 0.35) else slBase;
    if !exit.enabled then NoReason
    else if pnlPct >= Or(lot.takeProfitPct, exit.takeProfitPct) then
      if exit.profitSkim && now - lastSkimAt >= SKIM_COOLDOWN_MS
          && ComputeSkimSlice(lot, mark, Some(freeBase)).blocked.None? then
        ProfitSkim
      else TakeProfit
    else if Or(lot.trailingStop, exit.trailingStop) && TrailingFires(lot, mark, exit) then TrailingStop
    else if pnlPct <= -sl then StopLoss
    else NoReason
  }

  // ----- Events -----

  // What one tick sees. sellReply and buyReply are None when the order throws.
  datatype TickInput = TickInput(
    now: int,
    freeBase: real,
    mark: Option<real>,
    exit: ExitSettings,
    sellReply: Option<Fill>,
    watchSymbol: string,
    councilSizeUsd: Option<real>,
    ask: Option<real>,
    buyReply: Option<Fill>)

  datatype Event =
    | Tick(input: TickInput)
    | ManualSkim(mark: real, freeBase: real, reply: Option<Fill>)
    | SetOverrides(takeProfitPct: Option<Option<real>>, stopLossPct: Option<Option<real>>,
                   trailingStop: Option<Option<bool>>)
    | DeskBuy(symbol: string, fill: Fill, estQuoteValue: real)
    | DeskSell(symbol: string, fill: Fill)

  datatype Machine = Machine(row: Row, lastSkimAt: int)

  function BoughtRow(row: Row, symbol: string, fill: Fill, sizeUsd: real, now: int): Row
    requires FilledQuantity(fill) > 0.0
  {
    row.(symbol := Some(symbol), entryPrice := Some(PaidPerUnit(fill, sizeUsd)),
         baseQty := Some(FilledQuantity(fill)), quoteSpent := Some(MoneySpent(fill, sizeUsd)), lastBuyAt := Some(now))
  }

  predicate Buys(row: Row, input: TickInput) {
    && input.councilSizeUsd.Some? && input.councilSizeUsd.value >= 5.0
    && input.now - Or(row.lastBuyAt, 0) >= BUY_COOLDOWN_MS
    && input.ask.Some? && input.ask.value > 0.0
    && input.buyReply.Some? && FilledQuantity(input.buyReply.value) > 0.0
  }

  // The buy at the end of a tick, with no lot open.
  function TickBuy(row: Row, input: TickInput): Row {
    if Buys(row, input) then BoughtRow(row, input.watchSymbol, input.buyReply.value, input.councilSizeUsd.value,
                                       input.now) else row
  }

  // Managing an open lot that the account still holds.
  function TickManage(m: Machine, lot: Lot, mark: real, input: TickInput): Machine
    requires lot.entry > 0.0 && lot.baseQty > 0.0
  {
    TickWith(m, lot, mark, input,
             ReasonFor(lot, mark, input.exit, input.freeBase, input.now, m.lastSkimAt),
             Trails(lot, mark, input.exit),
             ComputeSkimSlice(lot, mark, Some(input.freeBase)).skimQty)
  }

  // The updates, once it is known why to exit, whether the peak is followed, and how
  // much a skim would sell.
  function TickWith(m: Machine, lot: Lot, mark: real, input: TickInput, reason: Reason, trails: bool,
                    wanted: real): Machine
    requires lot.baseQty > 0.0
  {
    var row := if trails && NewPeak(lot, mark) > Or(lot.peak, 0.0) then m.row.(trailingPeak := Some(NewPeak(lot, mark)))
        else m.row;
    if reason == NoReason then m.(row := row)
    else if reason == ProfitSkim then
      match input.sellReply
      case None => Machine(row, input.now)
      case Some(fill) => Machine(Skimmed(row, lot, SoldQty(fill, wanted), FillPrice(fill, mark)), input.now)
    else m.(row := if input.sellReply.Some? then ClearOpenLot(row) else row)
  }

  predicate Ghost(lot: Lot, freeBase: real) {
    freeBase < lot.baseQty * 0.05
  }

  function Ticked(m: Machine, input: TickInput): Machine {
    match ToOpenLong(m.row)
    case None => m.(row := TickBuy(m.row, input))
    case Some(lot) =>
      if Ghost(lot, input.freeBase) then m.(row := TickBuy(ClearOpenLot(m.row), input))
      else if input.mark.None? then m
      else TickManage(m, lot, input.mark.value, input)
  }

  function SkimmedByHand(m: Machine, mark: real, freeBase: real, reply: Option<Fill>): Machine {
    match ToOpenLong(m.row)
    case None => m
    case Some(lot) =>
      if mark <= 0.0 then m
      else
        var slice := ComputeSkimSlice(lot, mark, Some(freeBase));
        if slice.blocked.Some? || reply.None? then m
        else m.(row := Skimmed(m.row, lot, SoldQty(reply.value, slice.skimQty), FillPrice(reply.value, mark)))
  }

  // A desk sell that leaves at most 5% closes the lot, but clears only its own fields.
  predicate Flattens(row: Row, symbol: string, filledQty: real) {
    row.symbol == Some(symbol) && Or(row.baseQty, 0.0) > 0.0
    && row.baseQty.value - filledQty <= row.baseQty.value * 0.05
  }

  function DeskSold(row: Row, symbol: string, filledQty: real): Row {
    if filledQty <= 0.0 || row.symbol != Some(symbol) || Or(row.baseQty, 0.0) <= 0.0 then row
    else if Flattens(row, symbol, filledQty) then
      row.(symbol := None, entryPrice := None, baseQty := None, quoteSpent := None)
    else
      var booked := row.baseQty.value;
      row.(baseQty := Some(booked - filledQty),
           quoteSpent := Some(Or(row.quoteSpent, 0.0) * Quotient(booked - filledQty, booked)))
  }

  // A desk buy opens a lot, adds to the one in the same symbol, or leaves another alone.
  function DeskBought(row: Row, symbol: string, fill: Fill, estQuoteValue: real): Row {
    var prevQty, filledQty := Or(row.baseQty, 0.0), FilledQuantity(fill);
    if filledQty <= 0.0 || PaidPerUnit(fill, estQuoteValue) <= 0.0 then row
    else if row.symbol.Some? && row.symbol != Some(symbol) && prevQty > 0.0 then row
    else
      var quoteValue := MoneySpent(fill, estQuoteValue);
      if row.symbol == Some(symbol) && prevQty > 0.0 then
        var newQty, newCost := prevQty + filledQty, Or(row.quoteSpent, 0.0) + quoteValue;
        row.(baseQty := Some(newQty), quoteSpent := Some(newCost), entryPrice := Some(Quotient(newCost, newQty)))
      else row.(symbol := Some(symbol), entryPrice := Some(PaidPerUnit(fill, estQuoteValue)),
                baseQty := Some(filledQty), quoteSpent := Some(quoteValue))
  }

  // Fields not sent stay; null clears an override.
  function Overridden(row: Row, tp: Option<Option<real>>, sl: Option<Option<real>>,
                      trailing: Option<Option<bool>>): Row {
    if row.symbol.None? then row
    else row.(takeProfitPct := Or(tp, row.takeProfitPct), stopLossPct := Or(sl, row.stopLossPct),
              trailingStop := Or(trailing, row.trailingStop))
  }

  function Apply(m: Machine, e: Event): Machine {
    match e
    case Tick(input) => Ticked(m, input)
    case ManualSkim(mark, freeBase, reply) => SkimmedByHand(m, mark, freeBase, reply)
    case SetOverrides(tp, sl, trailing) => m.(row := Overridden(m.row, tp, sl, trailing))
    case DeskBuy(symbol, fill, estimate) => m.(row := DeskBought(m.row, symbol, fill, estimate))
    case DeskSell(symbol, fill) => m.(row := DeskSold(m.row, symbol, FilledQuantity(fill)))
  }

  function After(m: Machine, run: seq<Event>): Machine
    decreases |run|
  {
    if run == [] then m else After(Apply(m, run[0]), run[1..])
  }

  // ----- The service, updating its row in place -----

  class SuperMachine {
    var row: Row
    var lastSkimAt: int

    ghost function Value(): Machine
      reads this
    {
      Machine(row, lastSkimAt)
    }

    method BookSkim(lot: Lot, wanted: real, mark: real, fill: Fill)
      requires lot.baseQty > 0.0
      modifies this`row
      ensures row == Skimmed(old(row), lot, SoldQty(fill, wanted), FillPrice(fill, mark))
    {
      var soldQty := if FilledQuantity(fill) != 0.0 then FilledQuantity(fill) else wanted;
      var average := AvgFillPrice(fill);
      var fillPrice := if average.Some? && average.value > 0.0 then average.value else mark;
      var realized := Realized(fillPrice, lot.entry, soldQty);
      row := row.(baseQty := Some(Max(0.0, lot.baseQty - soldQty)),
                  quoteSpent := Some(SpentLeft(lot.quoteSpent, lot.baseQty, soldQty)),
                  skimmedUsd := Some(lot.skimmed + realized));
    }

    method SkimPositionProfit(mark: real, freeBase: real, reply: Option<Fill>)
      modifies this`row
      ensures Value() == SkimmedByHand(old(Value()), mark, freeBase, reply)
    {
      var open := ToOpenLong(row);
      if open.None? || mark <= 0.0 {
        return;
      }
      var slice := ComputeSkimSlice(open.value, mark, Some(freeBase));
      if slice.blocked.Some? || reply.None? {
        return;
      }
      BookSkim(open.value, slice.skimQty, mark, reply.value);
    }

    // The exit logic; `done` when the tick ends here.
    method ManageLot(lot: Lot, mark: real, input: TickInput) returns (done: bool)
      requires lot.entry > 0.0 && lot.baseQty > 0.0
      modifies this
      ensures Value() == TickManage(old(Value()), lot, mark, input)
    {
      var reason := ReasonFor(lot, mark, input.exit, input.freeBase, input.now, lastSkimAt);
      if Trails(lot, mark, input.exit) {
        var prevPeak := Or(lot.peak, 0.0);
        var peak := Max(prevPeak, mark);
        if peak > prevPeak {
          row := row.(trailingPeak := Some(peak));
        }
      }
      if reason == ProfitSkim {
        lastSkimAt := input.now;
        if input.sellReply.Some? {
          BookSkim(lot, ComputeSkimSlice(lot, mark, Some(input.freeBase)).skimQty, mark, input.sellReply.value);
        }
        return true;
      }
      if reason != NoReason {
        if input.sellReply.Some? {
          row := ClearOpenLot(row);
        }
        return true;
      }
      return false;
    }

    method TickUser(input: TickInput)
      modifies this
      ensures Value() == Ticked(old(Value()), input)
    {
      var open := ToOpenLong(row);
      if open.Some? {
        if input.freeBase < open.value.baseQty * 0.05 {
          row := ClearOpenLot(row);
          open := None;
        } else if input.mark.Some? {
          var done := ManageLot(open.value, input.mark.value, input);
          if done {
            return;
          }
        }
      }
      if open.Some? || !Buys(row, input) {
        return;
      }
      row := BoughtRow(row, input.watchSymbol, input.buyReply.value, input.councilSizeUsd.value, input.now);
    }
  }
}
