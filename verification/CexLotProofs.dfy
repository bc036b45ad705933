// What the Binance lot keeps over whole runs.
module CexLotProofs {
  import opened Common
  import opened CexLot

  // ----- The slice -----

  lemma ProfitShare(entry: real, mark: real)
    requires entry > 0.0 && mark > entry
    ensures PnlPct(entry, mark) / 100.0 == Quotient(mark - entry, entry)
    ensures PnlPct(entry, mark) > 0.0
  {
    DivCompare(mark - entry, entry, 0.0, 0.0);
    assert Quotient(mark - entry, entry) > 0.0 by {
      var q := (mark - entry) / entry;
      assert q * entry == mark - entry;
    }
  }

  lemma ProductSign(a: real, b: real, ab: real)
    requires b > 0.0 && ab == a * b
    ensures ab > 0.0 <==> a > 0.0
  {
    if a > 0.0 {
      MulMonoStrict(0.0, a, b, 0.0, ab);
    } else {
      MulMono(a, 0.0, b, ab, 0.0);
    }
  }

  lemma QuotientSign(a: real, b: real)
    requires b > 0.0
    ensures Quotient(a, b) > 0.0 <==> a > 0.0
  {
    ProductSign(Quotient(a, b), b, a);
  }

  // The slice is never close to the whole lot, and is positive exactly when money was
  // spent on it.
  lemma SliceQtyRange(lot: Lot, mark: real, freeBase: Option<real>)
    requires lot.entry > 0.0 && lot.baseQty > 0.0 && mark > lot.entry
    ensures SliceQty(lot, mark, freeBase) <= lot.baseQty * 0.5
    ensures SliceQty(lot, mark, freeBase) > 0.0 <==> lot.quoteSpent > 0.0
  {
    ProfitShare(lot.entry, mark);
    ProductSign(lot.quoteSpent, PnlPct(lot.entry, mark) / 100.0, ProfitUsd(lot, mark));
    QuotientSign(ProfitUsd(lot, mark), mark);
  }

  // The slice is the largest sale within half the lot, the profit at the mark, and 98% of
  // the free balance when there is one.
  lemma SliceIsGreatest(lot: Lot, mark: real, freeBase: Option<real>, q: real, value: real)
    requires lot.entry > 0.0 && mark > 0.0 && value == q * mark
    ensures q <= SliceQty(lot, mark, freeBase) <==>
            && q <= lot.baseQty / 2.0 && value <= ProfitUsd(lot, mark)
            && (freeBase.Some? && freeBase.value > 0.0 ==> q <= freeBase.value * 0.98)
  {
    DivCompare(ProfitUsd(lot, mark), mark, q, value);
  }

  // The profit is the money spent times the relative rise.
  lemma ProfitIsShareOfCost(lot: Lot, mark: real)
    requires lot.entry > 0.0
    ensures Product(ProfitUsd(lot, mark), lot.entry, lot.quoteSpent * (mark - lot.entry))
  {
    var share := Quotient(mark - lot.entry, lot.entry);
    assert share * lot.entry == mark - lot.entry;
    assert ProfitUsd(lot, mark) == lot.quoteSpent * share;
    assert lot.quoteSpent * share * lot.entry == lot.quoteSpent * (share * lot.entry);
  }

  // A skim goes ahead exactly on a rise above 0.05% of a lot that cost something, when the
  // slice is worth at least $5.50.
  lemma SkimGoesAheadIff(lot: Lot, mark: real, freeBase: Option<real>)
    requires lot.entry > 0.0 && lot.baseQty > 0.0 && mark > 0.0
    ensures ComputeSkimSlice(lot, mark, freeBase).blocked.None? <==>
            PnlPct(lot.entry, mark) > 0.05 && lot.quoteSpent > 0.0 && SliceQty(lot, mark, freeBase) * mark >= 5.5
  {
    TooSmallMeansNoCost(lot, mark, freeBase);
  }

  // So the "too small" refusal never comes from the 90% guard: it means exactly that
  // the row carries no cost.
  lemma TooSmallMeansNoCost(lot: Lot, mark: real, freeBase: Option<real>)
    requires lot.entry > 0.0 && lot.baseQty > 0.0
    ensures ComputeSkimSlice(lot, mark, freeBase).blocked == Some(TooSmall) <==>
            PnlPct(lot.entry, mark) > 0.05 && lot.quoteSpent <= 0.0
  {
    if PnlPct(lot.entry, mark) > 0.05 {
      ProfitNeedsARise(lot.entry, mark);
      SliceQtyRange(lot, mark, freeBase);
    }
  }

  lemma UnblockedSlice(lot: Lot, mark: real, freeBase: Option<real>)
    requires lot.entry > 0.0 && lot.baseQty > 0.0 && ComputeSkimSlice(lot, mark, freeBase).blocked.None?
    ensures mark > lot.entry
    ensures var qty := ComputeSkimSlice(lot, mark, freeBase).skimQty;
            0.0 < qty <= lot.baseQty * 0.5 && qty == SliceQty(lot, mark, freeBase)
  {
    ProfitNeedsARise(lot.entry, mark);
    SliceQtyRange(lot, mark, freeBase);
  }

  // Bought at its entry price, a lot's profit is its base times the rise.
  lemma ProfitOfLot(lot: Lot, mark: real)
    requires lot.entry > 0.0 && mark > lot.entry && Product(lot.entry, lot.baseQty, lot.quoteSpent)
    ensures Product(lot.baseQty, mark - lot.entry, ProfitUsd(lot, mark))
  {
    ProfitShare(lot.entry, mark);
    ShareOfCost(lot.entry, lot.baseQty, lot.quoteSpent, mark - lot.entry, PnlPct(lot.entry, mark) / 100.0);
  }

  lemma ShareOfCost(entry: real, base: real, spent: real, rise: real, share: real)
    requires entry > 0.0 && Product(entry, base, spent) && share == Quotient(rise, entry)
    ensures Product(base, rise, spent * share)
  {
    assert share * entry == rise;
    assert spent * share == base * (share * entry);
  }

  // Value kept at the mark against the cost.
  lemma KeptValue(base: real, entry: real, mark: real, sold: real, soldValue: real, profit: real, spent: real,
                  kept: real)
    requires Product(sold, mark, soldValue) && Product(base, mark - entry, profit) && Product(entry, base, spent)
    requires Product(base - sold, mark, kept)
    ensures kept - spent == profit - soldValue
  {
  }

  // Neither cap binds: the profit is worth no more than half the lot, nor than what the
  // account can sell.
  predicate Uncapped(lot: Lot, mark: real, freeBase: Option<real>)
    requires lot.entry > 0.0 && mark != 0.0
  {
    Quotient(ProfitUsd(lot, mark), mark) <= lot.baseQty * 0.5 && CanSell(lot, mark, freeBase)
  }

  // The free balance, when it is known, covers the profit.
  predicate CanSell(lot: Lot, mark: real, freeBase: Option<real>)
    requires lot.entry > 0.0 && mark != 0.0
  {
    freeBase.Some? && freeBase.value > 0.0 ==> Quotient(ProfitUsd(lot, mark), mark) <= freeBase.value * 0.98
  }

  // A skim sells only profit: what is kept, at the mark, is still worth the cost. When the
  // whole slice is sold it is worth exactly the cost if and only if neither cap binds.
  lemma SkimSellsOnlyProfit(lot: Lot, mark: real, freeBase: Option<real>, sold: real, kept: real)
    requires lot.entry > 0.0 && lot.baseQty > 0.0 && Product(lot.entry, lot.baseQty, lot.quoteSpent)
    requires ComputeSkimSlice(lot, mark, freeBase).blocked.None?
    requires sold <= ComputeSkimSlice(lot, mark, freeBase).skimQty && Product(lot.baseQty - sold, mark, kept)
    ensures mark > 0.0 && kept >= lot.quoteSpent
    ensures sold == ComputeSkimSlice(lot, mark, freeBase).skimQty ==>
              (kept == lot.quoteSpent <==> Uncapped(lot, mark, freeBase))
  {
    UnblockedSlice(lot, mark, freeBase);
    ProfitOfLot(lot, mark);
    SaleAgainstProfit(sold, mark, ProfitUsd(lot, mark), sold * mark);
    KeptValue(lot.baseQty, lot.entry, mark, sold, sold * mark, ProfitUsd(lot, mark), lot.quoteSpent, kept);
  }

  lemma SaleAgainstProfit(sold: real, mark: real, profit: real, soldValue: real)
    requires mark > 0.0 && soldValue == sold * mark && sold <= Quotient(profit, mark)
    ensures soldValue <= profit
    ensures sold == Quotient(profit, mark) <==> soldValue == profit
  {
    DivCompare(profit, mark, sold, soldValue);
  }

  // The half-lot cap binds exactly when the price has more than doubled.
  lemma HalfCapBindsIff(lot: Lot, mark: real)
    requires lot.entry > 0.0 && lot.baseQty > 0.0 && mark > lot.entry && Product(lot.entry, lot.baseQty, lot.quoteSpent)
    ensures Quotient(ProfitUsd(lot, mark), mark) > lot.baseQty * 0.5 <==> mark > 2.0 * lot.entry
  {
    ProfitOfLot(lot, mark);
    HalfOfLot(lot.baseQty, lot.entry, mark, ProfitUsd(lot, mark), lot.baseQty * 0.5);
  }

  lemma HalfOfLot(base: real, entry: real, mark: real, profit: real, half: real)
    requires base > 0.0 && mark > 0.0 && Product(base, mark - entry, profit) && half == base * 0.5
    ensures Quotient(profit, mark) > half <==> mark > 2.0 * entry
  {
    var halfValue, excess := half * mark, base * (mark * 0.5 - entry);
    DivCompare(profit, mark, half, halfValue);
    assert profit - halfValue == excess;
    ProductSign(mark * 0.5 - entry, base, excess);
  }

  // ----- Lots are at cost -----

  // What was paid per unit, times the units, is the money spent: a reported average always
  // comes with the quote it was made of.
  lemma BuyBooksAtCost(fill: Fill, estimate: real)
    requires FilledQuantity(fill) > 0.0
    ensures Product(PaidPerUnit(fill, estimate), FilledQuantity(fill), MoneySpent(fill, estimate))
  {
    var qty := FilledQuantity(fill);
    QuotientTimes(MoneySpent(fill, estimate), qty);
    if AvgFillPrice(fill).Some? {
      QuotientTimes(fill.quoteQty.value, qty);
    }
  }

  lemma QuotientTimes(a: real, b: real)
    requires b != 0.0
    ensures Product(Quotient(a, b), b, a)
  {
  }

  // The money spent on an open lot is its entry price times its base.
  ghost predicate AtCost(row: Row) {
    ToOpenLong(row).Some? ==>
      var lot := ToOpenLong(row).value;
      Product(lot.entry, lot.baseQty, lot.quoteSpent)
  }

  lemma BuyIsAtCost(row: Row, symbol: string, fill: Fill, sizeUsd: real, now: int)
    requires FilledQuantity(fill) > 0.0
    ensures AtCost(BoughtRow(row, symbol, fill, sizeUsd, now))
  {
    BuyBooksAtCost(fill, sizeUsd);
  }

  lemma DeskBuyIsAtCost(row: Row, symbol: string, fill: Fill, estimate: real)
    requires AtCost(row)
    ensures AtCost(DeskBought(row, symbol, fill, estimate))
  {
    if FilledQuantity(fill) > 0.0 {
      BuyBooksAtCost(fill, estimate);
      var prevQty := Or(row.baseQty, 0.0);
      if prevQty > 0.0 {
        QuotientTimes(Or(row.quoteSpent, 0.0) + MoneySpent(fill, estimate), prevQty + FilledQuantity(fill));
      }
    }
  }

  // A desk sell takes its share of the cost along.
  lemma DeskSellIsAtCost(row: Row, symbol: string, filledQty: real)
    requires AtCost(row)
    ensures AtCost(DeskSold(row, symbol, filledQty))
  {
    if ToOpenLong(row).Some? {
      var lot := ToOpenLong(row).value;
      ShareLeft(lot.entry, lot.baseQty, lot.quoteSpent, lot.baseQty - filledQty);
    }
  }

  lemma ShareLeft(entry: real, base: real, spent: real, left: real)
    requires base > 0.0 && Product(entry, base, spent)
    ensures Product(entry, left, spent * Quotient(left, base))
  {
    var f := Quotient(left, base);
    assert f * base == left;
    assert spent * f == entry * (f * base);
  }

  // ----- Conservation under skims -----

  // A sale of at most half the lot: the row afterwards, in terms of the lot.
  lemma SkimBooks(row: Row, lot: Lot, sold: real, price: real, cost: real)
    requires ToOpenLong(row) == Some(lot) && 0.0 < sold <= lot.baseQty * 0.5
    requires cost >= 0.0 && Product(cost, lot.baseQty, lot.quoteSpent)
    ensures ToOpenLong(Skimmed(row, lot, sold, price)).Some?
    ensures Carries(lot, ToOpenLong(Skimmed(row, lot, sold, price)).value, Sale(sold, price), cost)
  {
    RemainingCost(lot.baseQty, lot.quoteSpent, sold, cost);
  }

  lemma RemainingCost(base: real, spent: real, sold: real, cost: real)
    requires 0.0 < sold <= base * 0.5 && cost >= 0.0 && Product(cost, base, spent)
    ensures base - sold > 0.0
    ensures Product(cost, base - sold, SpentLeft(spent, base, sold))
  {
    var f := sold / base;
    assert f * base == sold;
    DivCompare(sold, base, 0.95, 0.95 * base);
    var left := base - sold;
    var leftCost := cost * left;
    assert spent * (1.0 - f) == leftCost;
    MulMono(0.0, cost, left, 0.0, leftCost);
  }

  // What an event sells out of a lot that stays open.
  datatype Sale = NoSale | Sale(qty: real, price: real)

  function SaleOf(m: Machine, e: Event): Sale {
    match ToOpenLong(m.row)
    case None => NoSale
    case Some(lot) =>
      match e
      case Tick(input) =>
        if Ghost(lot, input.freeBase) || input.mark.None? || input.sellReply.None? then NoSale
        else if ReasonFor(lot, input.mark.value, input.exit, input.freeBase, input.now, m.lastSkimAt) == ProfitSkim then
          Sale(SoldQty(input.sellReply.value, ComputeSkimSlice(lot, input.mark.value, Some(input.freeBase)).skimQty),
               FillPrice(input.sellReply.value, input.mark.value))
        else NoSale
      case ManualSkim(mark, freeBase, reply) =>
        var slice := ComputeSkimSlice(lot, mark, Some(freeBase));
        if mark <= 0.0 || slice.blocked.Some? || reply.None? then NoSale
        else Sale(SoldQty(reply.value, slice.skimQty), FillPrice(reply.value, mark))
      case _ => NoSale
  }

  // Fills never exceed the requested quantity.
  ghost predicate FillsWithin(m: Machine, e: Event) {
    match ToOpenLong(m.row)
    case None => true
    case Some(lot) =>
      match e
      case Tick(input) =>
        input.sellReply.Some? && input.mark.Some? ==>
          || 0.0 <= FilledQuantity(input.sellReply.value)
                 <= ComputeSkimSlice(lot, input.mark.value, Some(input.freeBase)).skimQty
          || ReasonFor(lot, input.mark.value, input.exit, input.freeBase, input.now, m.lastSkimAt) != ProfitSkim
      case ManualSkim(mark, freeBase, reply) =>
        reply.Some? ==> 0.0 <= FilledQuantity(reply.value) <= ComputeSkimSlice(lot, mark, Some(freeBase)).skimQty
      case _ => true
  }

  // The event neither closes the lot nor is an edit from the manual desk.
  ghost predicate LotLives(m: Machine, e: Event) {
    && ToOpenLong(m.row).Some?
    && match e
       case Tick(input) =>
         var lot := ToOpenLong(m.row).value;
         && !Ghost(lot, input.freeBase)
         && (input.mark.Some? ==>
               var reason := ReasonFor(lot, input.mark.value, input.exit, input.freeBase, input.now, m.lastSkimAt);
               reason == NoReason || reason == ProfitSkim || input.sellReply.None?)
       case ManualSkim(_, _, _) => true
       case SetOverrides(_, _, _) => true
       case DeskBuy(_, _, _) => false
       case DeskSell(_, _) => false
  }

  // The lot after an event it survives, in terms of the sale.
  ghost predicate Carries(lot: Lot, lot': Lot, sale: Sale, cost: real) {
    && lot'.symbol == lot.symbol && lot'.entry == lot.entry
    && Product(cost, lot'.baseQty, lot'.quoteSpent)
    && match sale
       case NoSale => lot'.baseQty == lot.baseQty && lot'.skimmed == lot.skimmed
       case Sale(qty, price) =>
         lot'.baseQty == lot.baseQty - qty && lot'.skimmed == lot.skimmed + Realized(price, lot.entry, qty)
  }

  // A skim on the tick is unblocked, and happens above the trailing branch.
  lemma SkimReason(lot: Lot, mark: real, exit: ExitSettings, freeBase: real, now: int, lastSkimAt: int)
    requires lot.entry > 0.0 && ReasonFor(lot, mark, exit, freeBase, now, lastSkimAt) == ProfitSkim
    ensures ComputeSkimSlice(lot, mark, Some(freeBase)).blocked.None? && !Trails(lot, mark, exit)
  {
  }

  // With the decision taken, the updates carry the lot.
  lemma UpdatesCarry(m: Machine, lot: Lot, mark: real, input: TickInput, reason: Reason, trails: bool, wanted: real,
                     cost: real)
    requires ToOpenLong(m.row) == Some(lot) && cost >= 0.0 && Product(cost, lot.baseQty, lot.quoteSpent)
    requires reason == NoReason || reason == ProfitSkim || input.sellReply.None?
    requires reason == ProfitSkim ==> !trails && 0.0 < wanted <= lot.baseQty * 0.5
    requires reason == ProfitSkim && input.sellReply.Some? ==> 0.0 <= FilledQuantity(input.sellReply.value) <= wanted
    ensures ToOpenLong(TickWith(m, lot, mark, input, reason, trails, wanted).row).Some?
    ensures var sale := if reason == ProfitSkim && input.sellReply.Some? then
                          Sale(SoldQty(input.sellReply.value, wanted), FillPrice(input.sellReply.value, mark))
                              else NoSale;
            Carries(lot, ToOpenLong(TickWith(m, lot, mark, input, reason, trails, wanted).row).value, sale, cost)
  {
    if reason == ProfitSkim && input.sellReply.Some? {
      SkimBooks(m.row, lot, SoldQty(input.sellReply.value, wanted), FillPrice(input.sellReply.value, mark), cost);
    }
  }

  lemma TickCarries(m: Machine, input: TickInput, cost: real)
    requires LotLives(m, Tick(input)) && FillsWithin(m, Tick(input)) && cost >= 0.0
    requires var lot := ToOpenLong(m.row).value; Product(cost, lot.baseQty, lot.quoteSpent)
    ensures ToOpenLong(Ticked(m, input).row).Some?
    ensures Carries(ToOpenLong(m.row).value, ToOpenLong(Ticked(m, input).row).value, SaleOf(m, Tick(input)), cost)
  {
    var lot := ToOpenLong(m.row).value;
    if input.mark.Some? {
      var mark := input.mark.value;
      var reason := ReasonFor(lot, mark, input.exit, input.freeBase, input.now, m.lastSkimAt);
      if reason == ProfitSkim {
        SkimReason(lot, mark, input.exit, input.freeBase, input.now, m.lastSkimAt);
        UnblockedSlice(lot, mark, Some(input.freeBase));
      }
      UpdatesCarry(m, lot, mark, input, reason, Trails(lot, mark, input.exit),
                   ComputeSkimSlice(lot, mark, Some(input.freeBase)).skimQty, cost);
    }
  }

  lemma ManualCarries(m: Machine, e: Event, cost: real)
    requires !e.Tick? && LotLives(m, e) && FillsWithin(m, e) && cost >= 0.0
    requires var lot := ToOpenLong(m.row).value; Product(cost, lot.baseQty, lot.quoteSpent)
    ensures ToOpenLong(Apply(m, e).row).Some?
    ensures Carries(ToOpenLong(m.row).value, ToOpenLong(Apply(m, e).row).value, SaleOf(m, e), cost)
  {
    var lot := ToOpenLong(m.row).value;
    if e.ManualSkim? {
      var slice := ComputeSkimSlice(lot, e.mark, Some(e.freeBase));
      if e.mark > 0.0 && slice.blocked.None? && e.reply.Some? {
        UnblockedSlice(lot, e.mark, Some(e.freeBase));
        SkimBooks(m.row, lot, SoldQty(e.reply.value, slice.skimQty), FillPrice(e.reply.value, e.mark), cost);
      }
    }
  }

  ghost predicate LivesThrough(m: Machine, run: seq<Event>)
    decreases |run|
  {
    run == [] || (LotLives(m, run[0]) && FillsWithin(m, run[0]) && LivesThrough(Apply(m, run[0]), run[1..]))
  }

  function Worth(qty: real, price: real): real {
    qty * price
  }

  function Proceeds(m: Machine, run: seq<Event>): real
    decreases |run|
  {
    if run == [] then 0.0
    else
      (match SaleOf(m, run[0]) case NoSale => 0.0 case Sale(qty, price) => Worth(qty, price))
      + Proceeds(Apply(m, run[0]), run[1..])
  }

  // Base given up, at the entry price.
  function CostOf(entry: real, base: real, base': real): real {
    entry * (base - base')
  }

  lemma SaleBalance(entry: real, base: real, qty: real, price: real)
    ensures Worth(qty, price) == Realized(price, entry, qty) + CostOf(entry, base, base - qty)
  {
  }

  lemma CostAdds(entry: real, a: real, b: real, c: real)
    ensures CostOf(entry, a, c) == CostOf(entry, a, b) + CostOf(entry, b, c)
  {
  }

  lemma CostOfNothing(entry: real, a: real)
    ensures CostOf(entry, a, a) == 0.0
  {
  }

  // Over any run of ticks, skims and override changes that one lot lives through: the
  // average cost never changes, some base always remains, and the money taken out is
  // the banked profit plus the entry price of the base sold.
  lemma {:induction false} LotConservation(m: Machine, run: seq<Event>, cost: real)
    requires LivesThrough(m, run) && ToOpenLong(m.row).Some? && cost >= 0.0
    requires var lot := ToOpenLong(m.row).value; Product(cost, lot.baseQty, lot.quoteSpent)
    ensures ToOpenLong(After(m, run).row).Some?
    ensures var lot, lot' := ToOpenLong(m.row).value, ToOpenLong(After(m, run).row).value;
            && lot'.symbol == lot.symbol && lot'.entry == lot.entry
            && Product(cost, lot'.baseQty, lot'.quoteSpent) && lot'.baseQty > 0.0
            && Proceeds(m, run) == (lot'.skimmed - lot.skimmed) + CostOf(lot.entry, lot.baseQty, lot'.baseQty)
    decreases |run|
  {
    var lot := ToOpenLong(m.row).value;
    if run == [] {
      CostOfNothing(lot.entry, lot.baseQty);
    } else {
      var e, m' := run[0], Apply(m, run[0]);
      if e.Tick? {
        TickCarries(m, e.input, cost);
      } else {
        ManualCarries(m, e, cost);
      }
      LotConservation(m', run[1..], cost);
      CarriedBalance(lot, ToOpenLong(m'.row).value, ToOpenLong(After(m', run[1..]).row).value, SaleOf(m, e), cost);
    }
  }

  lemma CarriedBalance(lot: Lot, lot1: Lot, lot2: Lot, sale: Sale, cost: real)
    requires Carries(lot, lot1, sale, cost)
    ensures (if sale.NoSale? then 0.0 else Worth(sale.qty, sale.price))
            + CostOf(lot.entry, lot1.baseQty, lot2.baseQty) ==
            (lot1.skimmed - lot.skimmed) + CostOf(lot.entry, lot.baseQty, lot2.baseQty)
  {
    CostAdds(lot.entry, lot.baseQty, lot1.baseQty, lot2.baseQty);
    if sale.NoSale? {
      CostOfNothing(lot.entry, lot.baseQty);
    } else {
      SaleBalance(lot.entry, lot.baseQty, sale.qty, sale.price);
    }
  }

  // ----- Every open lot is at cost -----

  lemma TickIsAtCost(m: Machine, input: TickInput)
    requires AtCost(m.row) && FillsWithin(m, Tick(input))
    ensures AtCost(Ticked(m, input).row)
  {
    match ToOpenLong(m.row)
    case None =>
      if Buys(m.row, input) {
        BuyIsAtCost(m.row, input.watchSymbol, input.buyReply.value, input.councilSizeUsd.value, input.now);
      }
    case Some(lot) =>
      if Ghost(lot, input.freeBase) {
        var cleared := ClearOpenLot(m.row);
        if Buys(cleared, input) {
          BuyIsAtCost(cleared, input.watchSymbol, input.buyReply.value, input.councilSizeUsd.value, input.now);
        }
      } else if LotLives(m, Tick(input)) {
        TickCarries(m, input, lot.entry);
      }
  }

  lemma EventIsAtCost(m: Machine, e: Event)
    requires AtCost(m.row) && FillsWithin(m, e)
    ensures AtCost(Apply(m, e).row)
  {
    match e
    case Tick(input) => TickIsAtCost(m, input);
    case DeskBuy(symbol, fill, estimate) => DeskBuyIsAtCost(m.row, symbol, fill, estimate);
    case DeskSell(symbol, fill) => DeskSellIsAtCost(m.row, symbol, FilledQuantity(fill));
    case _ =>
      if ToOpenLong(m.row).Some? {
        ManualCarries(m, e, ToOpenLong(m.row).value.entry);
      }
  }

  ghost predicate FillsWithinThrough(m: Machine, run: seq<Event>)
    decreases |run|
  {
    run == [] || (FillsWithin(m, run[0]) && FillsWithinThrough(Apply(m, run[0]), run[1..]))
  }

  // Over every run of ticks, skims, override changes and desk trades, the lot that is open
  // in the end, whichever it is, is at cost.
  lemma {:induction false} LotsAreAtCost(m: Machine, run: seq<Event>)
    requires AtCost(m.row) && FillsWithinThrough(m, run)
    ensures AtCost(After(m, run).row)
    decreases |run|
  {
    if run == [] {
    } else {
      EventIsAtCost(m, run[0]);
      LotsAreAtCost(Apply(m, run[0]), run[1..]);
    }
  }

  // So in every state reachable from an account without a lot, a skim sells only profit:
  // what it keeps is worth the cost at the mark, and exactly the cost if and only if the
  // price has at most doubled and the account can sell the whole profit.
  lemma ReachableSkimSellsOnlyProfit(m: Machine, run: seq<Event>, mark: real, freeBase: Option<real>, sold: real,
                                     kept: real)
    requires ToOpenLong(m.row).None? && FillsWithinThrough(m, run) && ToOpenLong(After(m, run).row).Some?
    requires var lot := ToOpenLong(After(m, run).row).value;
             && ComputeSkimSlice(lot, mark, freeBase).blocked.None?
             && sold <= ComputeSkimSlice(lot, mark, freeBase).skimQty && Product(lot.baseQty - sold, mark, kept)
    ensures var lot := ToOpenLong(After(m, run).row).value;
            && mark > 0.0 && kept >= lot.quoteSpent
            && (sold == ComputeSkimSlice(lot, mark, freeBase).skimQty ==>
                (kept == lot.quoteSpent <==> mark <= 2.0 * lot.entry && CanSell(lot, mark, freeBase)))
  {
    var lot := ToOpenLong(After(m, run).row).value;
    LotsAreAtCost(m, run);
    UnblockedSlice(lot, mark, freeBase);
    SkimSellsOnlyProfit(lot, mark, freeBase, sold, kept);
    HalfCapBindsIff(lot, mark);
  }
}
