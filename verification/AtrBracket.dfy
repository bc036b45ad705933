// The advanced bot's bracket: one position at a time, with a stop-loss and a
// take-profit fixed at entry and a trailing stop that follows the price. Each tick is
// atomic; market data, the policy's decision and the exchange's replies are inputs.
module AtrBracket {
  import opened Common

  datatype Decision = BUY | SELL | HOLD
  datatype Exit = NoExit | StopLoss | TakeProfit | TrailingStop | SignalClose

  datatype Bot = Bot(
    long: bool,
    entry: real,
    stop: real,
    takeProfit: real,
    trail: real,
    tradeId: Option<nat>,
    bars: nat,
    equity: real)

  // What a tick sees. closePnl is the reply to a close (None: nothing was closed);
  // atr is the 14-period ATR when enough hourly bars exist, entryAtr the same reading
  // taken inside the open.
  datatype Input = Input(
    price: Option<real>,
    atr: Option<real>,
    decision: Decision,
    closePnl: Option<real>,
    entryAtr: Option<real>,
    fillPrice: real,
    newTradeId: nat)

  function Flat(equity: real): Bot {
    Bot(false, 0.0, 0.0, 0.0, 0.0, None, 0, equity)
  }

  // The ATR used to place the bracket: a zero or missing reading falls back to 1%.
  function PlacementAtr(price: real, entryAtr: Option<real>): real {
    if entryAtr.Some? && entryAtr.value != 0.0 then entryAtr.value else price * 0.01
  }

  function Opened(b: Bot, price: real, input: Input): Bot {
    var a := PlacementAtr(price, input.entryAtr);
    var e := input.fillPrice;
    Bot(true, e, e - 2.0 * a, e + 2.0 * a, 0.0, Some(input.newTradeId), 0, b.equity)
  }

  function Closed(b: Bot, input: Input): Bot {
    if b.tradeId.None? || input.closePnl.None? then b else Flat(b.equity + input.closePnl.value)
  }

  // The trailing stop after this price: it only ever rises.
  function Trailed(b: Bot, price: real, a: real): real {
    if price > b.entry + a && price - 1.5 * a > b.trail then price - 1.5 * a else b.trail
  }

  // Which protective exit a price triggers.
  function Triggered(b: Bot, price: real, a: real): Exit {
    if price <= b.stop then StopLoss
    else if price >= b.takeProfit && b.takeProfit > 0.0 then TakeProfit
    else if price > b.entry + a && price <= Trailed(b, price, a) then TrailingStop
    else NoExit
  }

  function ExitOf(b: Bot, input: Input): Exit {
    if input.price.None? then NoExit
    else
      var exit := if b.long && input.atr.Some? then Triggered(b, input.price.value, input.atr.value) else NoExit;
      if exit != NoExit then exit
      else if input.decision == SELL && b.long then SignalClose
      else NoExit
  }

  // The state a tick leaves behind.
  function Ticked(b: Bot, input: Input): Bot {
    if input.price.None? then b
    else
      var price := input.price.value;
      var exit := ExitOf(b, input);
      var watching := b.long && input.atr.Some? && exit != StopLoss && exit != TakeProfit;
      var b1 := if watching then b.(trail := Trailed(b, price, input.atr.value)) else b;
      if exit == StopLoss || exit == TakeProfit || exit == TrailingStop then Closed(b1, input)
      else
        var b2 :=
          if input.decision == BUY && !b1.long then Opened(b1, price, input)
          else if exit == SignalClose then Closed(b1, input)
          else b1;
        if b2.long then b2.(bars := b2.bars + 1) else b2
  }

  class BotState {
    var long: bool
    var entryPrice: real
    var stopPrice: real
    var takeProfitPrice: real
    var trailingStop: real
    var currentTradeId: Option<nat>
    var barsInPosition: nat
    var equity: real

    ghost function Value(): Bot
      reads this
    {
      Bot(long, entryPrice, stopPrice, takeProfitPrice, trailingStop, currentTradeId, barsInPosition, equity)
    }

    constructor (initialEquity: real)
      ensures Value() == Flat(initialEquity)
    {
      long, entryPrice, stopPrice, takeProfitPrice, trailingStop := false, 0.0, 0.0, 0.0, 0.0;
      currentTradeId, barsInPosition, equity := None, 0, initialEquity;
    }

    method OpenPosition(markPrice: real, input: Input)
      modifies this
      ensures Value() == Opened(old(Value()), markPrice, input)
    {
      var atrVal := markPrice * 0.01;
      if input.entryAtr.Some? && input.entryAtr.value != 0.0 {
        atrVal := input.entryAtr.value;
      }
      long := true;
      entryPrice := input.fillPrice;
      stopPrice := input.fillPrice - 2.0 * atrVal;
      takeProfitPrice := input.fillPrice + 2.0 * atrVal;
      trailingStop := 0.0;
      currentTradeId := Some(input.newTradeId);
      barsInPosition := 0;
    }

    method ClosePosition(input: Input)
      modifies this
      ensures Value() == Closed(old(Value()), input)
    {
      if currentTradeId.None? || input.closePnl.None? {
        return;
      }
      equity := equity + input.closePnl.value;
      long, entryPrice, stopPrice, takeProfitPrice, trailingStop := false, 0.0, 0.0, 0.0, 0.0;
      currentTradeId, barsInPosition := None, 0;
    }

    method Tick(input: Input) returns (exit: Exit)
      modifies this
      ensures Value() == Ticked(old(Value()), input)
      ensures exit == ExitOf(old(Value()), input)
    {
      if input.price.None? {
        return NoExit;
      }
      var price := input.price.value;
      if long && input.atr.Some? {
        var atr14 := input.atr.value;
        if price <= stopPrice {
          ClosePosition(input);
          return StopLoss;
        }
        if price >= takeProfitPrice && takeProfitPrice > 0.0 {
          ClosePosition(input);
          return TakeProfit;
        }
        if price > entryPrice + atr14 {
          var newTrail := price - 1.5 * atr14;
          if newTrail > trailingStop {
            trailingStop := newTrail;
          }
          if price <= trailingStop {
            ClosePosition(input);
            return TrailingStop;
          }
        }
      }
      exit := NoExit;
      if input.decision == BUY && !long {
        OpenPosition(price, input);
      } else if input.decision == SELL && long {
        ClosePosition(input);
        exit := SignalClose;
      }
      if long {
        barsInPosition := barsInPosition + 1;
      }
    }
  }

  // ----- Runs -----

  function After(b: Bot, run: seq<Input>): Bot
    decreases |run|
  {
    if run == [] then b else After(Ticked(b, run[0]), run[1..])
  }

  function Exits(b: Bot, run: seq<Input>): seq<Exit>
    decreases |run|
  {
    if run == [] then [] else [ExitOf(b, run[0])] + Exits(Ticked(b, run[0]), run[1..])
  }

  // Market data are sane: prices and fills positive, true ranges never negative.
  ghost predicate SaneInput(input: Input) {
    && (input.price.Some? ==> input.price.value > 0.0)
    && (input.atr.Some? ==> input.atr.value >= 0.0)
    && (input.entryAtr.Some? ==> input.entryAtr.value >= 0.0)
    && input.fillPrice > 0.0
  }

  ghost predicate Sane(run: seq<Input>) {
    forall i :: 0 <= i < |run| ==> SaneInput(run[i])
  }

  // The ATR the open bracket was placed with.
  ghost function EntryAtr(b: Bot): real {
    (b.takeProfit - b.entry) / 2.0
  }

  // Flat means everything cleared; long means a bracket symmetric around the entry.
  ghost predicate BracketOk(b: Bot) {
    if b.long then b.entry > 0.0 && EntryAtr(b) > 0.0 && b.entry - b.stop == b.takeProfit - b.entry && b.tradeId.Some?
    else b == Flat(b.equity)
  }

  lemma BracketKept(b: Bot, input: Input)
    requires BracketOk(b) && SaneInput(input)
    ensures BracketOk(Ticked(b, input))
  {
  }

  // ----- The bracket and the reading it was placed with -----

  // The position opened at this fill with this ATR reading: stop and target two readings
  // away on either side.
  ghost predicate Placed(b: Bot, fill: real, reading: real) {
    b.long && b.entry == fill && b.stop == fill - 2.0 * reading && b.takeProfit == fill + 2.0 * reading
  }

  // The reading an open uses: the ATR it reads, or one percent of the price without one.
  ghost function Reading(input: Input): real
    requires input.price.Some?
  {
    if input.entryAtr.Some? && input.entryAtr.value != 0.0 then input.entryAtr.value else input.price.value / 100.0
  }

  ghost predicate Buying(b: Bot, input: Input) {
    !b.long && input.price.Some? && input.decision == BUY
  }

  // A buy from flat places the bracket by its own fill and reading.
  lemma BuyPlacesBracket(b: Bot, input: Input)
    requires Buying(b, input)
    ensures Placed(Ticked(b, input), input.fillPrice, Reading(input)) && EntryAtr(Ticked(b, input)) == Reading(input)
    ensures Ticked(b, input).trail == 0.0 && Ticked(b, input).bars == 1 && ExitOf(b, input) == NoExit
  {
  }

  // Until it is closed, nothing moves the bracket.
  lemma BracketStays(b: Bot, input: Input, fill: real, reading: real)
    requires Placed(b, fill, reading)
    ensures Placed(Ticked(b, input), fill, reading) || Ticked(b, input) == Flat(Ticked(b, input).equity)
    ensures input.price.Some? && ExitOf(b, input) == NoExit ==> Ticked(b, input).bars == b.bars + 1
  {
  }

  // A readable tick whose close is answered closes the position at or beyond its levels, by
  // the stop below and the target above, and leaves it open strictly between them unless it
  // trails out or the policy sells.
  lemma LevelsClose(b: Bot, input: Input, fill: real, reading: real)
    requires Placed(b, fill, reading) && BracketOk(b) && SaneInput(input) && reading > 0.0
    requires input.price.Some? && input.atr.Some? && input.closePnl.Some?
    ensures var price := input.price.value;
            && (price <= fill - 2.0 * reading <==> ExitOf(b, input) == StopLoss)
            && (price >= fill + 2.0 * reading <==> ExitOf(b, input) == TakeProfit)
            && (ExitOf(b, input) != NoExit <==> !Ticked(b, input).long)
            && (Ticked(b, input).long ==> fill - 2.0 * reading < price < fill + 2.0 * reading)
            && (ExitOf(b, input) == SignalClose ==> input.decision == SELL)
  {
  }

  // On a tick without an exit the trail only rises, and only to one and a half ATR below a
  // price that is more than one ATR above the entry. A trailing exit is such a price at or
  // under the trail.
  lemma TrailMeaning(b: Bot, input: Input)
    requires b.long && input.price.Some? && input.atr.Some? && input.atr.value > 0.0
    ensures var price, a, after := input.price.value, input.atr.value, Ticked(b, input).trail;
            && (ExitOf(b, input) == NoExit ==>
                  && b.trail <= after && (after != b.trail ==> after == price - 1.5 * a && price > b.entry + a)
                  && (price > b.entry + a ==> after >= price - 1.5 * a))
            && (ExitOf(b, input) == TrailingStop ==> b.entry + a < price <= b.trail)
  {
  }

  // ----- The trailing exit needs a contracting ATR -----

  // The reading of the open position after a tick: a new one at a buy.
  ghost function ReadingAfter(b: Bot, reading: real, input: Input): real {
    if Buying(b, input) then Reading(input) else reading
  }

  // Whenever a position is open, the ATR read is at least 0.8 of the reading it was opened
  // with.
  ghost predicate AtrHolds(b: Bot, reading: real, run: seq<Input>)
    decreases |run|
  {
    run != [] ==>
      && (b.long && run[0].atr.Some? ==> run[0].atr.value >= 0.8 * reading)
      && AtrHolds(Ticked(b, run[0]), ReadingAfter(b, reading, run[0]), run[1..])
  }

  // With the ATR held, the trail stays below entry + 0.8 ATR, out of reach of any price
  // that could test it.
  ghost predicate TrailLow(b: Bot) {
    b.long ==> b.trail == 0.0 || b.trail < b.entry + 0.8 * EntryAtr(b)
  }

  lemma TrailStaysLow(b: Bot, input: Input)
    requires BracketOk(b) && TrailLow(b) && SaneInput(input)
    requires b.long && input.atr.Some? ==> input.atr.value >= 0.8 * EntryAtr(b)
    ensures TrailLow(Ticked(b, input))
    ensures ExitOf(b, input) != TrailingStop
  {
  }

  lemma ReadingKept(b: Bot, reading: real, input: Input)
    requires b.long ==> EntryAtr(b) == reading
    ensures Ticked(b, input).long ==> EntryAtr(Ticked(b, input)) == ReadingAfter(b, reading, input)
  {
    if Buying(b, input) {
      BuyPlacesBracket(b, input);
    }
  }

  lemma {:induction false} TrailingExitNeedsContraction(b: Bot, reading: real, run: seq<Input>)
    requires BracketOk(b) && TrailLow(b) && (b.long ==> EntryAtr(b) == reading) && Sane(run)
             && AtrHolds(b, reading, run)
    ensures TrailingStop !in Exits(b, run)
    decreases |run|
  {
    if run == [] {
    } else {
      BracketKept(b, run[0]);
      TrailStaysLow(b, run[0]);
      ReadingKept(b, reading, run[0]);
      TrailingExitNeedsContraction(Ticked(b, run[0]), ReadingAfter(b, reading, run[0]), run[1..]);
    }
  }

  // From a fresh bot, over any number of positions: if no ATR read while a position is open
  // is below 0.8 of the reading at its own buy, no trailing exit ever fires.
  lemma NoTrailingExitFromStart(equity: real, run: seq<Input>)
    requires Sane(run) && AtrHolds(Flat(equity), 0.0, run)
    ensures TrailingStop !in Exits(Flat(equity), run)
  {
    TrailingExitNeedsContraction(Flat(equity), 0.0, run);
  }

  function Quiet(price: real, atr: real): Input {
    Input(Some(price), Some(atr), HOLD, Some(0.0), None, 1.0, 0)
  }

  function BuyAt(fill: real, reading: real): Input {
    Input(Some(fill), Some(reading), BUY, None, Some(reading), fill, 0)
  }

  // 0.8 is sharp: for every fill and reading, and every smaller ratio, a buy followed by two
  // ticks at that ratio of the reading fires the trailing exit.
  lemma BelowEightTenthsItFires(equity: real, fill: real, reading: real, ratio: real) returns (p1: real, p2: real)
    requires fill > 0.0 && reading > 0.0 && 0.0 < ratio < 0.8
    ensures p1 > 0.0 && p2 > 0.0
    ensures var run := [BuyAt(fill, reading), Quiet(p1, ratio * reading), Quiet(p2, ratio * reading)];
            Exits(Flat(equity), run) == [NoExit, NoExit, TrailingStop]
  {
    var a := ratio * reading;
    MulMonoStrict(ratio, 0.8, reading, a, 0.8 * reading);
    MulMonoStrict(0.0, ratio, reading, 0.0, a);
    p1 := fill + 2.0 * reading - (0.8 * reading - a);
    p2 := p1 - 1.5 * a;
    var b := Ticked(Flat(equity), BuyAt(fill, reading));
    BuyPlacesBracket(Flat(equity), BuyAt(fill, reading));
    TwoTicksFire(b, fill, reading, a, p1, p2);
    ThreeExits(Flat(equity), BuyAt(fill, reading), Quiet(p1, a), Quiet(p2, a));
  }

  lemma TwoTicksFire(b: Bot, fill: real, reading: real, a: real, p1: real, p2: real)
    requires Placed(b, fill, reading) && b.trail == 0.0 && fill > 0.0 && 0.0 < a < 0.8 * reading
    requires p1 == fill + 2.0 * reading - (0.8 * reading - a) && p2 == p1 - 1.5 * a
    ensures ExitOf(b, Quiet(p1, a)) == NoExit
    ensures ExitOf(Ticked(b, Quiet(p1, a)), Quiet(p2, a)) == TrailingStop
  {
    var b1 := Ticked(b, Quiet(p1, a));
    assert b1.long && b1.entry == b.entry && b1.takeProfit == b.takeProfit && b1.trail == p2;
  }

  lemma ThreeExits(b: Bot, x: Input, y: Input, z: Input)
    ensures Exits(b, [x, y, z]) == [ExitOf(b, x), ExitOf(Ticked(b, x), y), ExitOf(Ticked(Ticked(b, x), y), z)]
  {
    assert [x, y, z][1..] == [y, z] && [y, z][1..] == [z] && [z][1..] == [];
    assert Exits(Ticked(Ticked(b, x), y), [z]) == [ExitOf(Ticked(Ticked(b, x), y), z)] + [];
    assert Exits(Ticked(b, x), [y, z]) == [ExitOf(Ticked(b, x), y)] + Exits(Ticked(Ticked(b, x), y), [z]);
  }

  // ----- Equity -----

  // What a tick books.
  function Booked(b: Bot, input: Input): real {
    if ExitOf(b, input) != NoExit && b.tradeId.Some? && input.closePnl.Some? then input.closePnl.value else 0.0
  }

  function TotalBooked(b: Bot, run: seq<Input>): real
    decreases |run|
  {
    if run == [] then 0.0 else Booked(b, run[0]) + TotalBooked(Ticked(b, run[0]), run[1..])
  }

  lemma EquityStep(b: Bot, input: Input)
    ensures Ticked(b, input).equity == b.equity + Booked(b, input)
  {
  }

  // Over any run, equity moves by exactly the profit and loss of the closes.
  lemma {:induction false} EquityIsBooked(b: Bot, run: seq<Input>)
    ensures After(b, run).equity == b.equity + TotalBooked(b, run)
    decreases |run|
  {
    if run == [] {
    } else {
      EquityStep(b, run[0]);
      EquityIsBooked(Ticked(b, run[0]), run[1..]);
    }
  }
}
