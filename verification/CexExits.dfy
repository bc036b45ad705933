// When the Binance lot is sold: its levels, seen from the row a tick leaves behind.
module CexExits {
  import opened Common
  import opened CexLot
  import opened CexLotProofs

  // The levels of a lot: overrides win over the settings, and once something was skimmed
  // the stop is no wider than 0.35%.
  function TakeProfitAt(lot: Lot, exit: ExitSettings): real {
    Or(lot.takeProfitPct, exit.takeProfitPct)
  }

  function StopLossAt(lot: Lot, exit: ExitSettings): real {
    Or(lot.stopLossPct, exit.stopLossPct)
  }

  predicate HitsStop(lot: Lot, mark: real, exit: ExitSettings)
    requires lot.entry > 0.0
  {
    || PnlPct(lot.entry, mark) <= -StopLossAt(lot, exit)
    || (lot.skimmed > 0.0 && PnlPct(lot.entry, mark) <= -0.35)
  }

  predicate HitsTarget(lot: Lot, mark: real, exit: ExitSettings)
    requires lot.entry > 0.0
  {
    PnlPct(lot.entry, mark) >= TakeProfitAt(lot, exit)
  }

  // Trailing is on, the best mark so far armed it, and the mark has come back to the floor
  // while still above the entry.
  predicate TrailedOut(lot: Lot, mark: real, exit: ExitSettings) {
    var best := if lot.peak.Some? && lot.peak.value > mark then lot.peak.value else mark;
    && (if lot.trailingStop.Some? then lot.trailingStop.value else exit.trailingStop)
    && best >= lot.entry + lot.entry * exit.trailingActivationPct / 100.0
    && (mark <= best - best * exit.trailingDeltaPct / 100.0 || mark <= lot.entry * 1.001)
    && mark > lot.entry
  }

  // A tick that can act: exits enabled, a positive mark, the base still held, and an
  // exchange that answers, filling no more than asked.
  ghost predicate CanAct(m: Machine, input: TickInput) {
    && ToOpenLong(m.row).Some? && !Ghost(ToOpenLong(m.row).value, input.freeBase)
    && input.exit.enabled && input.mark.Some? && input.mark.value > 0.0 && input.sellReply.Some?
    && FillsWithin(m, Tick(input))
  }

  // The lot after the tick: gone, smaller by a skim, or as large as before.
  predicate Gone(row: Row) {
    ToOpenLong(row).None?
  }

  predicate Shrunk(lot: Lot, row: Row) {
    ToOpenLong(row).Some? && ToOpenLong(row).value.baseQty < lot.baseQty
  }

  predicate Kept(lot: Lot, row: Row) {
    ToOpenLong(row).Some? && ToOpenLong(row).value.baseQty == lot.baseQty
  }

  lemma PnlSign(entry: real, mark: real)
    requires entry > 0.0
    ensures PnlPct(entry, mark) > 0.0 <==> mark > entry
    ensures Product(PnlPct(entry, mark), entry, 100.0 * (mark - entry))
  {
    QuotientSign(mark - entry, entry);
    QuotientTimes(mark - entry, entry);
  }

  // What the decision answers to, in terms of the levels.
  lemma ReasonIff(lot: Lot, mark: real, exit: ExitSettings, freeBase: real, now: int, lastSkimAt: int)
    requires lot.entry > 0.0 && exit.enabled && mark > 0.0
    ensures var reason := ReasonFor(lot, mark, exit, freeBase, now, lastSkimAt);
            && (reason == NoReason <==>
                !HitsTarget(lot, mark, exit) && !HitsStop(lot, mark, exit) && !TrailedOut(lot, mark, exit))
            && (reason == ProfitSkim <==>
                && HitsTarget(lot, mark, exit) && exit.profitSkim && now - lastSkimAt >= 45_000
                && ComputeSkimSlice(lot, mark, Some(freeBase)).blocked.None?)
  {
    PnlSign(lot.entry, mark);
    TrailedOutIff(lot, mark, exit);
  }

  lemma TrailedOutIff(lot: Lot, mark: real, exit: ExitSettings)
    requires lot.entry > 0.0 && mark > 0.0
    ensures TrailedOut(lot, mark, exit) <==> Or(lot.trailingStop, exit.trailingStop) && TrailingFires(lot, mark, exit)
  {
    PnlSign(lot.entry, mark);
    var best := NewPeak(lot, mark);
    PercentOff(best, exit.trailingDeltaPct);
    PercentOff(lot.entry, -exit.trailingActivationPct);
  }

  lemma PercentOff(x: real, pct: real)
    ensures x * (1.0 - pct / 100.0) == x - x * pct / 100.0
    ensures x * (1.0 + -pct / 100.0) == x + x * -pct / 100.0
  {
  }

  lemma TickRow(m: Machine, input: TickInput)
    requires CanAct(m, input)
    ensures var lot := ToOpenLong(m.row).value;
            var reason := ReasonFor(lot, input.mark.value, input.exit, input.freeBase, input.now, m.lastSkimAt);
            && (reason == NoReason ==> Kept(lot, Ticked(m, input).row) && Ticked(m, input).lastSkimAt == m.lastSkimAt)
            && (reason == ProfitSkim ==> Shrunk(lot, Ticked(m, input).row) && Ticked(m, input).lastSkimAt == input.now)
            && (reason != NoReason && reason != ProfitSkim ==> Gone(Ticked(m, input).row))
  {
    var lot := ToOpenLong(m.row).value;
    var reason := ReasonFor(lot, input.mark.value, input.exit, input.freeBase, input.now, m.lastSkimAt);
    if reason == ProfitSkim {
      SkimReason(lot, input.mark.value, input.exit, input.freeBase, input.now, m.lastSkimAt);
      UnblockedSlice(lot, input.mark.value, Some(input.freeBase));
    }
  }

  // A stop that is hit sells the whole lot, unless the target is hit as well.
  lemma StopLossSells(m: Machine, input: TickInput)
    requires CanAct(m, input)
    requires var lot := ToOpenLong(m.row).value;
             HitsStop(lot, input.mark.value, input.exit) && !HitsTarget(lot, input.mark.value, input.exit)
    ensures Gone(Ticked(m, input).row)
  {
    var lot := ToOpenLong(m.row).value;
    ReasonIff(lot, input.mark.value, input.exit, input.freeBase, input.now, m.lastSkimAt);
    TickRow(m, input);
  }

  // A target that is hit sells the lot, or skims it.
  lemma TakeProfitSells(m: Machine, input: TickInput)
    requires CanAct(m, input) && HitsTarget(ToOpenLong(m.row).value, input.mark.value, input.exit)
    ensures Gone(Ticked(m, input).row) || Shrunk(ToOpenLong(m.row).value, Ticked(m, input).row)
  {
    var lot := ToOpenLong(m.row).value;
    ReasonIff(lot, input.mark.value, input.exit, input.freeBase, input.now, m.lastSkimAt);
    TickRow(m, input);
  }

  // Exactly: a tick that can act leaves the lot as it was if and only if the mark lies
  // strictly between its levels and has not trailed out; and it skims if and only if the
  // target is hit, skimming is on, 45 seconds have passed and the slice is not blocked.
  lemma LotIsKeptIff(m: Machine, input: TickInput)
    requires CanAct(m, input)
    ensures var lot, mark, after := ToOpenLong(m.row).value, input.mark.value, Ticked(m, input).row;
            && (Kept(lot, after) <==>
                !HitsTarget(lot, mark, input.exit) && !HitsStop(lot, mark, input.exit)
                && !TrailedOut(lot, mark, input.exit))
            && (Shrunk(lot, after) <==>
                && HitsTarget(lot, mark, input.exit) && input.exit.profitSkim && input.now - m.lastSkimAt >= 45_000
                && ComputeSkimSlice(lot, mark, Some(input.freeBase)).blocked.None?)
            && (Kept(lot, after) || Shrunk(lot, after) || Gone(after))
  {
    var lot := ToOpenLong(m.row).value;
    ReasonIff(lot, input.mark.value, input.exit, input.freeBase, input.now, m.lastSkimAt);
    TickRow(m, input);
  }

  // With exits disabled, or an exchange that does not answer, the lot is kept.
  lemma NothingSoldWithoutExits(m: Machine, input: TickInput)
    requires ToOpenLong(m.row).Some? && !Ghost(ToOpenLong(m.row).value, input.freeBase)
    requires !input.exit.enabled || input.sellReply.None? || input.mark.None?
    ensures Kept(ToOpenLong(m.row).value, Ticked(m, input).row)
  {
  }

  // An override that is sent becomes the level; one sent as null gives the level back to the
  // settings; one not sent stays. Nothing else changes.
  lemma OverridesSetLevels(m: Machine, tp: Option<Option<real>>, sl: Option<Option<real>>,
                           trailing: Option<Option<bool>>, exit: ExitSettings)
    requires ToOpenLong(m.row).Some?
    ensures ToOpenLong(Apply(m, SetOverrides(tp, sl, trailing)).row).Some?
    ensures var lot, lot' := ToOpenLong(m.row).value, ToOpenLong(Apply(m, SetOverrides(tp, sl, trailing)).row).value;
            && (tp.Some? ==> TakeProfitAt(lot', exit) == Or(tp.value, exit.takeProfitPct))
            && (tp.None? ==> TakeProfitAt(lot', exit) == TakeProfitAt(lot, exit))
            && (sl.Some? ==> StopLossAt(lot', exit) == Or(sl.value, exit.stopLossPct))
            && (sl.None? ==> StopLossAt(lot', exit) == StopLossAt(lot, exit))
            && lot'.trailingStop == Or(trailing, lot.trailingStop)
            && lot' == lot.(takeProfitPct := lot'.takeProfitPct, stopLossPct := lot'.stopLossPct,
                            trailingStop := lot'.trailingStop)
  {
  }

  // Desk trades move the base by what was filled: a buy of another symbol leaves the lot, a
  // sell that leaves five percent or less ends it.
  lemma DeskMovesBase(m: Machine, symbol: string, fill: Fill, estimate: real)
    requires ToOpenLong(m.row).Some? && FilledQuantity(fill) > 0.0 && PaidPerUnit(fill, estimate) > 0.0
    ensures var lot, filled := ToOpenLong(m.row).value, FilledQuantity(fill);
            var bought, sold := Apply(m, DeskBuy(symbol, fill, estimate)).row, Apply(m, DeskSell(symbol, fill)).row;
            if symbol != lot.symbol then bought == m.row && sold == m.row
            else
              && bought.baseQty == Some(lot.baseQty + filled)
              && bought.quoteSpent == Some(lot.quoteSpent + MoneySpent(fill, estimate))
              && (if lot.baseQty - filled <= lot.baseQty / 20.0 then Gone(sold)
                  else sold.baseQty == Some(lot.baseQty - filled))
  {
  }

  // A lot whose coins have left the account, all but a twentieth, is dropped; a lot that
  // stays on the row is still held.
  lemma GhostIsCleared(m: Machine, input: TickInput)
    requires ToOpenLong(m.row).Some? && input.freeBase < ToOpenLong(m.row).value.baseQty / 20.0
    ensures Gone(Ticked(m, input).row) || Ticked(m, input).row.lastBuyAt == Some(input.now)
  {
  }

  // A tick opens a lot only where there was none, or a ghost, eight minutes after the last
  // buy, for five dollars or more.
  lemma BuysAreSpaced(m: Machine, input: TickInput)
    requires Ticked(m, input).row.lastBuyAt != m.row.lastBuyAt
    ensures Ticked(m, input).row.lastBuyAt == Some(input.now)
    ensures m.row.lastBuyAt.Some? ==> input.now - m.row.lastBuyAt.value >= 480_000
    ensures input.councilSizeUsd.Some? && input.councilSizeUsd.value >= 5.0
    ensures ToOpenLong(m.row).Some? ==> Ghost(ToOpenLong(m.row).value, input.freeBase)
  {
  }
}
