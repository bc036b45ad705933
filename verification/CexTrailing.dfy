// The trailing peak of the Binance lot is the history of that lot alone, unless the
// manual desk flattens it.
module CexTrailing {
  import opened Common
  import opened CexLot
  import opened CexLotProofs

  function MaxOf(h: seq<real>): real
    requires h != []
  {
    if |h| == 1 then h[0] else Max(MaxOf(h[..|h| - 1]), h[|h| - 1])
  }

  // MaxOf is the maximum.
  lemma {:induction false} MaxOfIsMaximum(h: seq<real>)
    requires h != []
    ensures MaxOf(h) in h
    ensures forall i :: 0 <= i < |h| ==> h[i] <= MaxOf(h)
  {
    if |h| == 1 {
    } else {
      MaxOfIsMaximum(h[..|h| - 1]);
    }
  }

  // The marks at which this lot was in the trailing branch, after one more event. A
  // closed or new lot starts over.
  function Marked(m: Machine, e: Event, h: seq<real>): seq<real> {
    match ToOpenLong(m.row)
    case None => []
    case Some(lot) =>
      match e
      case Tick(input) =>
        if Ghost(lot, input.freeBase) then []
        else if input.mark.None? then h
        else
          var reason := ReasonFor(lot, input.mark.value, input.exit, input.freeBase, input.now, m.lastSkimAt);
          if reason != NoReason && reason != ProfitSkim && input.sellReply.Some? then []
          else if Trails(lot, input.mark.value, input.exit) then h + [input.mark.value]
          else h
      case DeskSell(symbol, fill) =>
        if FilledQuantity(fill) > 0.0 && Flattens(m.row, symbol, FilledQuantity(fill)) then [] else h
      case _ => h
  }

  // A row is either a whole open lot or has nothing left of one.
  ghost predicate Whole(row: Row) {
    if row.symbol.Some? then row.baseQty.Some? && row.baseQty.value > 0.0 && row.entryPrice.Some?
        && row.entryPrice.value > 0.0
    else row == ClearOpenLot(row)
  }

  ghost predicate PeakIsHistory(row: Row, h: seq<real>) {
    row.trailingPeak == if h == [] then None else Some(MaxOf(h))
  }

  ghost predicate PeakInv(m: Machine, h: seq<real>) {
    && Whole(m.row) && PeakIsHistory(m.row, h)
    && (forall i :: 0 <= i < |h| ==> h[i] > 0.0)
    && (m.row.symbol.None? ==> h == [])
  }

  ghost predicate Inv(m: Machine, h: seq<real>) {
    PeakInv(m, h) && AtCost(m.row)
  }

  // Marks are positive, the exchange moves no negative quote, and fills stay within the
  // requested slice.
  ghost predicate EnvOk(m: Machine, e: Event) {
    && FillsWithin(m, e)
    && match e
       case Tick(input) =>
         && (input.mark.Some? ==> input.mark.value > 0.0)
         && (input.buyReply.Some? ==> QuoteQuantity(input.buyReply.value) >= 0.0)
       case _ => true
  }

  lemma PeakFollowsHistory(lot: Lot, h: seq<real>, mark: real)
    requires mark > 0.0 && lot.peak == if h == [] then None else Some(MaxOf(h))
    ensures NewPeak(lot, mark) == MaxOf(h + [mark])
    ensures h != [] && !(NewPeak(lot, mark) > Or(lot.peak, 0.0)) ==> MaxOf(h + [mark]) == MaxOf(h)
  {
    if h != [] {
      assert (h + [mark])[..|h|] == h;
    }
  }

  lemma BuyIsWhole(row: Row, input: TickInput)
    requires Buys(row, input) && QuoteQuantity(input.buyReply.value) >= 0.0
    ensures Whole(TickBuy(row, input)) && TickBuy(row, input).symbol.Some?
    ensures TickBuy(row, input).trailingPeak == row.trailingPeak
  {
    var fill := input.buyReply.value;
    QuotientSign(MoneySpent(fill, input.councilSizeUsd.value), FilledQuantity(fill));
  }

  // A buy on a whole row starts a clean lot: no peak, no banked profit, no overrides.
  lemma BuyStartsClean(row: Row, input: TickInput)
    requires Whole(row) && row.symbol.None? && Buys(row, input) && QuoteQuantity(input.buyReply.value) >= 0.0
    ensures ToOpenLong(TickBuy(row, input)).Some?
    ensures var lot := ToOpenLong(TickBuy(row, input)).value;
            lot.peak == None && lot.skimmed == 0.0 && lot.takeProfitPct == None && lot.stopLossPct == None
            && lot.trailingStop == None
  {
    BuyIsWhole(row, input);
  }

  lemma SkimKeepsPeak(m: Machine, lot: Lot, sold: real, price: real, now: int, h: seq<real>)
    requires PeakInv(m, h) && ToOpenLong(m.row) == Some(lot) && 0.0 < sold <= lot.baseQty * 0.5
    ensures PeakInv(Machine(Skimmed(m.row, lot, sold, price), now), h)
  {
  }

  lemma ManagedTick(m: Machine, lot: Lot, mark: real, input: TickInput, reason: Reason, trails: bool, wanted: real,
                    h: seq<real>)
    requires PeakInv(m, h) && ToOpenLong(m.row) == Some(lot) && mark > 0.0
    requires reason == ProfitSkim ==> !trails && 0.0 < wanted <= lot.baseQty * 0.5
    requires reason == ProfitSkim && input.sellReply.Some? ==> 0.0 <= FilledQuantity(input.sellReply.value) <= wanted
    ensures var h' := if reason != NoReason && reason != ProfitSkim && input.sellReply.Some? then []
                      else if trails then h + [mark] else h;
            PeakInv(TickWith(m, lot, mark, input, reason, trails, wanted), h')
  {
    if reason == ProfitSkim {
      if input.sellReply.Some? {
        var fill := input.sellReply.value;
        SkimKeepsPeak(m, lot, SoldQty(fill, wanted), FillPrice(fill, mark), input.now, h);
      }
    } else {
      PeakFollowsHistory(lot, h, mark);
    }
  }

  lemma TickKeepsInv(m: Machine, input: TickInput, h: seq<real>)
    requires Inv(m, h) && EnvOk(m, Tick(input))
    ensures Inv(Ticked(m, input), Marked(m, Tick(input), h))
  {
    TickIsAtCost(m, input);
    match ToOpenLong(m.row)
    case None =>
      if Buys(m.row, input) {
        BuyIsWhole(m.row, input);
      }
    case Some(lot) =>
      if Ghost(lot, input.freeBase) {
        if Buys(ClearOpenLot(m.row), input) {
          BuyIsWhole(ClearOpenLot(m.row), input);
        }
      } else if input.mark.Some? {
        var mark := input.mark.value;
        var reason := ReasonFor(lot, mark, input.exit, input.freeBase, input.now, m.lastSkimAt);
        if reason == ProfitSkim {
          SkimReason(lot, mark, input.exit, input.freeBase, input.now, m.lastSkimAt);
          UnblockedSlice(lot, mark, Some(input.freeBase));
        }
        ManagedTick(m, lot, mark, input, reason, Trails(lot, mark, input.exit),
                    ComputeSkimSlice(lot, mark, Some(input.freeBase)).skimQty, h);
      }
  }

  // The desk may flatten a lot only when none of its extra fields is set.
  ghost predicate LeavesNothing(row: Row) {
    && row.takeProfitPct.None? && row.stopLossPct.None? && row.trailingStop.None?
    && row.trailingPeak.None? && row.skimmedUsd.None?
  }

  // That is exact: a flattening desk sell leaves a whole row if and only if it finds
  // nothing else on it.
  lemma DeskFlattenLeaksUnlessBare(row: Row, symbol: string, qty: real)
    requires Whole(row) && qty > 0.0 && Flattens(row, symbol, qty)
    ensures Whole(DeskSold(row, symbol, qty)) <==> LeavesNothing(row)
  {
  }

  ghost predicate DeskBehaves(m: Machine, e: Event) {
    e.DeskSell? && FilledQuantity(e.fill) > 0.0 && Flattens(m.row, e.symbol, FilledQuantity(e.fill)) ==>
      LeavesNothing(m.row)
  }

  lemma OtherKeepsInv(m: Machine, e: Event, h: seq<real>)
    requires Inv(m, h) && EnvOk(m, e) && DeskBehaves(m, e) && !e.Tick?
    ensures Inv(Apply(m, e), Marked(m, e, h))
  {
    EventIsAtCost(m, e);
    match e
    case ManualSkim(mark, freeBase, reply) =>
      var open := ToOpenLong(m.row);
      if open.Some? && mark > 0.0 && ComputeSkimSlice(open.value, mark, Some(freeBase)).blocked.None? {
        UnblockedSlice(open.value, mark, Some(freeBase));
      }
    case DeskBuy(symbol, fill, estimate) =>
      if FilledQuantity(fill) > 0.0 && PaidPerUnit(fill, estimate) > 0.0 && m.row.symbol == Some(symbol) {
        AddedLotIsPriced(m.row, fill, estimate);
      }
    case _ =>
  }

  // Money was spent on the lot and on the addition, so the blended entry is positive.
  lemma AddedLotIsPriced(row: Row, fill: Fill, estimate: real)
    requires AtCost(row) && ToOpenLong(row).Some? && FilledQuantity(fill) > 0.0 && PaidPerUnit(fill, estimate) > 0.0
    ensures Quotient(Or(row.quoteSpent, 0.0) + MoneySpent(fill, estimate),
                     row.baseQty.value + FilledQuantity(fill)) > 0.0
  {
    var lot := ToOpenLong(row).value;
    ProductSign(lot.entry, lot.baseQty, lot.quoteSpent);
    BuyBooksAtCost(fill, estimate);
    ProductSign(PaidPerUnit(fill, estimate), FilledQuantity(fill), MoneySpent(fill, estimate));
    QuotientSign(lot.quoteSpent + MoneySpent(fill, estimate), lot.baseQty + FilledQuantity(fill));
  }

  ghost predicate EnvOkThrough(m: Machine, run: seq<Event>)
    decreases |run|
  {
    run == [] || (EnvOk(m, run[0]) && DeskBehaves(m, run[0]) && EnvOkThrough(Apply(m, run[0]), run[1..]))
  }

  function History(m: Machine, run: seq<Event>, h: seq<real>): seq<real>
    decreases |run|
  {
    if run == [] then h else History(Apply(m, run[0]), run[1..], Marked(m, run[0], h))
  }

  // Over any run in which the desk never flattens a lot that carries extra fields, the
  // stored peak is the highest mark at which this very lot was in the trailing branch.
  lemma {:induction false} PeakIsThisLotsMaximum(m: Machine, run: seq<Event>, h: seq<real>)
    requires Inv(m, h) && EnvOkThrough(m, run)
    ensures Inv(After(m, run), History(m, run, h))
    decreases |run|
  {
    if run == [] {
    } else {
      if run[0].Tick? {
        TickKeepsInv(m, run[0].input, h);
      } else {
        OtherKeepsInv(m, run[0], h);
      }
      PeakIsThisLotsMaximum(Apply(m, run[0]), run[1..], Marked(m, run[0], h));
    }
  }

  // The event does not end the lot: it is no ghost, no exit sells it and the desk does not
  // flatten it. Skims, override changes, desk buys and partial desk sells do not end it.
  ghost predicate Survives(m: Machine, e: Event) {
    && ToOpenLong(m.row).Some?
    && match e
       case Tick(input) =>
         var lot := ToOpenLong(m.row).value;
         && !Ghost(lot, input.freeBase)
         && (input.mark.Some? ==>
               var reason := ReasonFor(lot, input.mark.value, input.exit, input.freeBase, input.now, m.lastSkimAt);
               reason == NoReason || reason == ProfitSkim || input.sellReply.None?)
       case DeskSell(symbol, fill) =>
         FilledQuantity(fill) <= 0.0 || !Flattens(m.row, symbol, FilledQuantity(fill))
       case _ => true
  }

  ghost predicate SurvivesThrough(m: Machine, run: seq<Event>)
    decreases |run|
  {
    run == [] || (Survives(m, run[0]) && SurvivesThrough(Apply(m, run[0]), run[1..]))
  }

  lemma PeakStep(m: Machine, e: Event, h: seq<real>)
    requires Survives(m, e)
    ensures Or(m.row.trailingPeak, 0.0) <= Or(Apply(m, e).row.trailingPeak, 0.0)
    ensures |h| <= |Marked(m, e, h)| && Marked(m, e, h)[..|h|] == h
  {
  }

  // While a lot lives, whatever is done to it, its stored peak never falls and its history
  // is only added to.
  lemma {:induction false} PeakNeverFalls(m: Machine, run: seq<Event>, h: seq<real>)
    requires SurvivesThrough(m, run)
    ensures Or(m.row.trailingPeak, 0.0) <= Or(After(m, run).row.trailingPeak, 0.0)
    ensures |h| <= |History(m, run, h)| && History(m, run, h)[..|h|] == h
    decreases |run|
  {
    if run == [] {
      assert After(m, run) == m;
    } else {
      var h' := Marked(m, run[0], h);
      PeakStep(m, run[0], h);
      PeakNeverFalls(Apply(m, run[0]), run[1..], h');
      assert History(m, run, h)[..|h|] == History(m, run, h)[..|h'|][..|h|];
    }
  }

  // A trailing sale is justified by the lot's own history: its peak reached the
  // activation level, the mark fell to the floor, and the sale is above the entry.
  lemma TrailingSaleIsJustified(m: Machine, input: TickInput, h: seq<real>)
    requires Inv(m, h) && EnvOk(m, Tick(input)) && ToOpenLong(m.row).Some? && input.mark.Some?
    requires var lot := ToOpenLong(m.row).value;
             ReasonFor(lot, input.mark.value, input.exit, input.freeBase, input.now, m.lastSkimAt) == TrailingStop
    ensures var lot, mark := ToOpenLong(m.row).value, input.mark.value;
            var peak := MaxOf(h + [mark]);
            && peak >= ActivationLevel(lot.entry, input.exit)
            && mark <= TrailFloor(peak, lot.entry, input.exit)
            && mark > lot.entry
  {
    var lot, mark := ToOpenLong(m.row).value, input.mark.value;
    PeakFollowsHistory(lot, h, mark);
    TrailingReason(lot, mark, input.exit, input.freeBase, input.now, m.lastSkimAt);
  }

  lemma TrailingReason(lot: Lot, mark: real, exit: ExitSettings, freeBase: real, now: int, lastSkimAt: int)
    requires lot.entry > 0.0 && ReasonFor(lot, mark, exit, freeBase, now, lastSkimAt) == TrailingStop
    ensures TrailingFires(lot, mark, exit) && mark > lot.entry
  {
    ProfitNeedsARise(lot.entry, mark);
  }

  // ----- The leak -----

  const EXITS := ExitSettings(true, 50.0, 10.0, false, true, 0.8, 0.4)

  // One coin for a hundred dollars.
  const FILL := Fill(Some(1.0), Some(100.0))

  function BuyTick(now: int): Event {
    Tick(TickInput(now, 0.0, None, EXITS, None, "BTCUSDT", Some(100.0), Some(100.0), Some(FILL)))
  }

  function WatchTick(now: int, mark: real): Event {
    Tick(TickInput(now, 1.0, Some(mark), EXITS, None, "BTCUSDT", None, None, None))
  }

  const EMPTY_ROW := Row(None, None, None, None, None, None, None, None, None, None)

  // A lot peaks at 120, the desk sells it, the council buys again at 100: the new lot
  // inherits the old peak.
  lemma StalePeakSurvivesDeskSell() returns (m: Machine)
    ensures m == After(Machine(EMPTY_ROW, 0),
                       [BuyTick(1_000_000), WatchTick(1_020_000, 120.0), DeskSell("BTCUSDT", FILL), BuyTick(2_000_000)])
    ensures ToOpenLong(m.row) == Some(Lot("BTCUSDT", 100.0, 1.0, 100.0, 0.0, None, None, None, Some(120.0)))
  {
    var m0 := Machine(EMPTY_ROW, 0);
    var m1 := Apply(m0, BuyTick(1_000_000));
    assert m1.row == EMPTY_ROW.(symbol := Some("BTCUSDT"), entryPrice := Some(100.0), baseQty := Some(1.0),
                                quoteSpent := Some(100.0),
                                lastBuyAt := Some(1_000_000));
    var m2 := Apply(m1, WatchTick(1_020_000, 120.0));
    assert PnlPct(100.0, 120.0) == 20.0;
    assert m2.row == m1.row.(trailingPeak := Some(120.0));
    var m3 := Apply(m2, DeskSell("BTCUSDT", FILL));
    assert m3.row == EMPTY_ROW.(trailingPeak := Some(120.0), lastBuyAt := Some(1_000_000));
    m := Apply(m3, BuyTick(2_000_000));
    assert m.row == m1.row.(trailingPeak := Some(120.0), lastBuyAt := Some(2_000_000));
    RunOfFour(m0, BuyTick(1_000_000), WatchTick(1_020_000, 120.0), DeskSell("BTCUSDT", FILL), BuyTick(2_000_000));
  }

  lemma RunOfFour(m: Machine, a: Event, b: Event, c: Event, d: Event)
    ensures After(m, [a, b, c, d]) == Apply(Apply(Apply(Apply(m, a), b), c), d)
  {
    assert [a, b, c, d][1..] == [b, c, d];
    assert [b, c, d][1..] == [c, d];
    assert [c, d][1..] == [d];
    assert After(m, [a, b, c, d]) == After(Apply(m, a), [b, c, d]);
    assert After(Apply(m, a), [b, c, d]) == After(Apply(Apply(m, a), b), [c, d]);
    assert After(Apply(Apply(m, a), b), [c, d]) == After(Apply(Apply(Apply(m, a), b), c), [d]);
    assert [d][1..] == [];
  }

  // At 105 the inherited peak sells a lot that its own history would keep.
  lemma StalePeakSellsEarly(m: Machine)
    requires ToOpenLong(m.row) == Some(Lot("BTCUSDT", 100.0, 1.0, 100.0, 0.0, None, None, None, Some(120.0)))
    ensures var lot := ToOpenLong(m.row).value;
            && ReasonFor(lot, 105.0, EXITS, 1.0, 2_020_000, m.lastSkimAt) == TrailingStop
            && ReasonFor(lot.(peak := None), 105.0, EXITS, 1.0, 2_020_000, m.lastSkimAt) == NoReason
  {
    var lot := ToOpenLong(m.row).value;
    AtFivePercent(lot, m.lastSkimAt);
    AtFivePercent(lot.(peak := None), m.lastSkimAt);
  }

  // Five percent up, a lot without overrides sells by its trailing stop or not at all, and
  // does so under a peak of 120 but not without one.
  lemma AtFivePercent(lot: Lot, lastSkimAt: int)
    requires lot.entry == 100.0 && lot.takeProfitPct == None && lot.stopLossPct == None && lot.trailingStop == None
    requires lot.skimmed == 0.0 && (lot.peak == None || lot.peak == Some(120.0))
    ensures ReasonFor(lot, 105.0, EXITS, 1.0, 2_020_000, lastSkimAt) == if lot.peak.Some? then TrailingStop
            else NoReason
  {
    assert PnlPct(lot.entry, 105.0) == 5.0;
    assert ActivationLevel(lot.entry, EXITS) == 100.8;
    assert TrailFloor(NewPeak(lot, 105.0), lot.entry, EXITS) == if lot.peak.Some? then 119.52 else 104.58;
    assert TrailingFires(lot, 105.0, EXITS) <==> lot.peak.Some?;
  }
}
