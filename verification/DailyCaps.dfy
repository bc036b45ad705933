// The Jupiter Super Machine's daily caps. A tick reads its row, awaits other services, and
// later writes counters computed from what it read; the watcher's re-entrancy flag is what
// keeps two ticks from doing so at once. The model splits a tick at those awaits.
module DailyCaps {
  import opened Common

  const DAY_MS: int := 86_400_000
  const BASE_COOLDOWN_MS: int := 600_000
  const AUTO_SCAN_COOLDOWN_MS: int := 180_000
  const AGGRESSIVE_COOLDOWN_MS: int := 120_000
  const USDC_RESERVE_USD: real := 6.0

  // The limits that stay fixed over a run.
  datatype Limits = Limits(maxDailyTrades: int, maxDailyVolumeUsd: real, aggressive: bool, watchesOne: bool) {
    function Cooldown(): (c: int)
      ensures c >= AGGRESSIVE_COOLDOWN_MS
    {
      if aggressive then AGGRESSIVE_COOLDOWN_MS else if watchesOne then BASE_COOLDOWN_MS else AUTO_SCAN_COOLDOWN_MS
    }
  }

  // The calendar day (UTC) of an instant; day keys are its printed form.
  function Day(at: int): int {
    at / DAY_MS
  }

  // ----- Sizing -----

  datatype StreakType = WinStreak | LossStreak | NoStreak
  datatype Sizing = Sizing(confidence: real, winRate: real, streak: int, streakType: StreakType)

  function Cents(x: real): real {
    Round(x * 100.0) as real / 100.0
  }

  lemma CentsError(x: real)
    ensures x - 0.005 <= Cents(x) <= x + 0.005
  {
    var n := Round(x * 100.0);
    assert n as real <= x * 100.0 + 0.5 && x * 100.0 + 0.5 < n as real + 1.0;
  }

  function WalletMaxTradeUsd(usdc: real): real {
    if usdc <= 0.0 then 10.0
    else
      var deployable := Max(0.0, usdc - USDC_RESERVE_USD);
      if deployable < 8.0 then Max(5.0, Cents(deployable))
      else Max(8.0, Min(deployable, Cents(usdc * 0.55)))
  }

  // The reserve is safe from the wallet cap once eight dollars can be deployed; below
  // eleven dollars in all, the five-dollar minimum overrides it.
  lemma WalletCapAndReserve(usdc: real)
    ensures usdc >= 14.0 ==> 8.0 <= WalletMaxTradeUsd(usdc) <= usdc - USDC_RESERVE_USD
    ensures 11.0 <= usdc < 14.0 ==> WalletMaxTradeUsd(usdc) <= usdc - USDC_RESERVE_USD + 0.005
    ensures usdc < 11.0 ==> WalletMaxTradeUsd(usdc) > usdc - USDC_RESERVE_USD
    ensures WalletMaxTradeUsd(usdc) >= 5.0
    ensures usdc >= 15.0 ==>
              WalletMaxTradeUsd(usdc) >= usdc * 0.55 - 0.005 || WalletMaxTradeUsd(usdc) == usdc - 6.0
    ensures usdc >= 15.0 ==> WalletMaxTradeUsd(usdc) <= usdc * 0.55 + 0.005
  {
    CentsError(Max(0.0, usdc - USDC_RESERVE_USD));
    CentsError(usdc * 0.55);
  }

  function ConfidenceTerm(s: Sizing): real {
    if s.confidence > 0.7 then 0.3 else if s.confidence > 0.6 then 0.15 else if s.confidence < 0.5 then -0.2 else 0.0
  }

  function WinRateTerm(s: Sizing): real {
    if s.winRate > 0.6 then 0.2 else if s.winRate < 0.4 then -0.2 else 0.0
  }

  function StreakTerm(s: Sizing): real {
    if s.streakType == WinStreak && s.streak >= 3 then 0.15
    else if s.streakType == LossStreak && s.streak >= 2 then -0.25 else 0.0
  }

  function RawMultiplier(s: Sizing): real {
    1.0 + ConfidenceTerm(s) + WinRateTerm(s) + StreakTerm(s)
  }

  function Multiplier(s: Sizing): real {
    Max(0.5, Min(1.8, RawMultiplier(s)))
  }

  method AddUpMultiplier(s: Sizing) returns (multiplier: real)
    ensures multiplier == RawMultiplier(s)
  {
    multiplier := 1.0;
    if s.confidence > 0.7 {
      multiplier := multiplier + 0.3;
    } else if s.confidence > 0.6 {
      multiplier := multiplier + 0.15;
    } else if s.confidence < 0.5 {
      multiplier := multiplier - 0.2;
    }
    if s.winRate > 0.6 {
      multiplier := multiplier + 0.2;
    } else if s.winRate < 0.4 {
      multiplier := multiplier - 0.2;
    }
    if s.streakType == WinStreak && s.streak >= 3 {
      multiplier := multiplier + 0.15;
    } else if s.streakType == LossStreak && s.streak >= 2 {
      multiplier := multiplier - 0.25;
    }
  }

  method CalculateDynamicSize(baseSize: real, s: Sizing) returns (usd: real)
    ensures usd == DynamicSize(baseSize, s)
  {
    var multiplier := AddUpMultiplier(s);
    multiplier := Max(0.5, Min(1.8, multiplier));
    usd := Cents(baseSize * multiplier);
  }

  function DynamicSize(baseSize: real, s: Sizing): real {
    Cents(baseSize * Multiplier(s))
  }

  // The upper clamp of 1.8 never binds; the lower one binds exactly when all three
  // penalties meet.
  lemma MultiplierRange(s: Sizing)
    ensures 0.5 <= Multiplier(s) <= 1.65
    ensures Multiplier(s) != RawMultiplier(s) <==>
            s.confidence < 0.5 && s.winRate < 0.4 && s.streakType == LossStreak && s.streak >= 2
  {
  }

  // A surer signal, a better record and a better streak never make the trade smaller.
  lemma SizeFollowsRecord(s: Sizing, t: Sizing)
    requires s.confidence <= t.confidence && s.winRate <= t.winRate
    requires s == t.(confidence := s.confidence, winRate := s.winRate)
    ensures Multiplier(s) <= Multiplier(t)
  {
  }

  lemma SizeFollowsStreak(s: Sizing, n: int)
    requires n >= 0
    ensures Multiplier(s.(streakType := LossStreak, streak := n)) <= Multiplier(s.(streakType := NoStreak)) <=
            Multiplier(s.(streakType := WinStreak, streak := n))
    ensures n >= 3 ==> Multiplier(s.(streakType := NoStreak)) < Multiplier(s.(streakType := WinStreak, streak := n))
    ensures n >= 2 && RawMultiplier(s.(streakType := NoStreak)) > 0.75 ==>
              Multiplier(s.(streakType := LossStreak, streak := n)) < Multiplier(s.(streakType := NoStreak))
  {
  }

  // An average tick trades its cap; each circumstance on its own moves it by a fixed share.
  lemma OneTermAtATime(s: Sizing)
    ensures var plain := Sizing(0.55, 0.5, s.streak, NoStreak);
            && Multiplier(plain) == 1.0
            && Multiplier(plain.(confidence := s.confidence)) ==
               (if s.confidence > 0.7 then 1.3 else if s.confidence > 0.6 then 1.15 else if s.confidence < 0.5 then 0.8
                else 1.0)
            && Multiplier(plain.(winRate := s.winRate)) ==
               (if s.winRate > 0.6 then 1.2 else if s.winRate < 0.4 then 0.8 else 1.0)
            && (s.streak >= 3 ==> Multiplier(plain.(streakType := WinStreak)) == 1.15)
            && (s.streak >= 2 ==> Multiplier(plain.(streakType := LossStreak)) == 0.75)
            && (s.streak < 2 ==> Multiplier(plain.(streakType := s.streakType)) == 1.0)
  {
  }

  // All three bonuses together, and only they, make the largest trade.
  lemma LargestTrade(s: Sizing)
    ensures Multiplier(s) == 1.65 <==>
            s.confidence > 0.7 && s.winRate > 0.6 && s.streakType == WinStreak && s.streak >= 3
  {
  }

  lemma SizeIsCapped(cap: real, s: Sizing)
    requires cap >= 0.0
    ensures DynamicSize(cap, s) <= 1.65 * cap + 0.005
  {
    MultiplierRange(s);
    AtMost(cap, Multiplier(s), 1.65);
    CentsError(cap * Multiplier(s));
  }

  lemma AtMost(cap: real, a: real, b: real)
    requires cap >= 0.0 && a <= b
    ensures cap * a <= b * cap
  {
    MulMono(a, b, cap, cap * a, b * cap);
  }

  // ----- The row, and the segments of a tick between awaits -----

  datatype Row = Row(on: bool, maxTradeUsd: real, dayKey: Option<int>, tradesToday: int, volumeTodayUsd: real,
                     lastTradeAt: Option<int>)

  function ResetRow(row: Row, day: int): Row {
    row.(dayKey := Some(day), tradesToday := 0, volumeTodayUsd := 0.0)
  }

  predicate ClearsCaps(limits: Limits, refreshed: Row, now: int) {
    && refreshed.tradesToday < limits.maxDailyTrades
    && refreshed.volumeTodayUsd < limits.maxDailyVolumeUsd
    && now - (if refreshed.lastTradeAt.Some? then refreshed.lastTradeAt.value else 0) >= limits.Cooldown()
  }

  // The cap of this tick: the saved one, or in auto-scan the wallet's if that is larger.
  function EffectiveCap(limits: Limits, saved: real, usdc: Option<real>): (cap: real)
    ensures cap >= saved
  {
    if limits.watchesOne || usdc.None? then saved else Max(saved, WalletMaxTradeUsd(usdc.value))
  }

  // In auto-scan the cap is the larger of the saved one and the wallet's; a watched symbol
  // keeps the saved one.
  lemma CapIsLarger(limits: Limits, saved: real, usdc: real)
    ensures !limits.watchesOne ==>
              var cap := EffectiveCap(limits, saved, Some(usdc));
              && cap >= saved && cap >= WalletMaxTradeUsd(usdc) && (cap == saved || cap == WalletMaxTradeUsd(usdc))
    ensures limits.watchesOne ==> EffectiveCap(limits, saved, Some(usdc)) == saved
    ensures EffectiveCap(limits, saved, None) == saved
  {
  }

  function CapSaved(row: Row, saved: real, cap: real): Row {
    if cap > saved + 0.5 then row.(maxTradeUsd := cap) else row
  }

  // Saving never lowers the cap, and leaves it within fifty cents of the effective one.
  lemma SavedCapRises(row: Row, cap: real)
    requires cap >= row.maxTradeUsd
    ensures var after := CapSaved(row, row.maxTradeUsd, cap);
            && row.maxTradeUsd <= after.maxTradeUsd <= cap <= after.maxTradeUsd + 0.5
            && after == row.(maxTradeUsd := after.maxTradeUsd)
  {
  }

  // The commit writes counters computed from the row read at the start of the tick.
  function Recorded(row: Row, refreshed: Row, now: int, usd: real): Row {
    row.(lastTradeAt := Some(now), tradesToday := refreshed.tradesToday + 1,
         volumeTodayUsd := refreshed.volumeTodayUsd + usd)
  }

  class SuperMachine {
    var row: Row
    var watcherRunning: bool

    constructor (on: bool, maxTradeUsd: real)
      ensures row == Row(on, maxTradeUsd, None, 0, 0.0, None) && !watcherRunning
    {
      row, watcherRunning := Row(on, maxTradeUsd, None, 0, 0.0, None), false;
    }

    // Entering yields the row if it is switched on; a watcher that is running is left alone.
    method EnterWatcher() returns (entered: bool, fetched: Option<Row>)
      modifies this`watcherRunning
      ensures watcherRunning
      ensures entered == !old(watcherRunning)
      ensures fetched == if entered && row.on then Some(row) else None
    {
      entered, fetched := !watcherRunning, None;
      watcherRunning := true;
      if entered && row.on {
        fetched := Some(row);
      }
    }

    method LeaveWatcher()
      modifies this`watcherRunning
      ensures !watcherRunning
    {
      watcherRunning := false;
    }

    method ResetDailyCountersIfNeeded(fetched: Row, now: int) returns (refreshed: Row)
      modifies this`row
      ensures row == if fetched.dayKey == Some(Day(now)) then old(row) else ResetRow(old(row), Day(now))
      ensures refreshed == if fetched.dayKey == Some(Day(now)) then fetched else row
    {
      if fetched.dayKey == Some(Day(now)) {
        return fetched;
      }
      row := row.(dayKey := Some(Day(now)), tradesToday := 0, volumeTodayUsd := 0.0);
      return row;
    }

    method CheckCaps(limits: Limits, refreshed: Row, saved: real, now: int, usdc: Option<real>)
        returns (cap: Option<real>)
      modifies this`row
      ensures cap.Some? <==> ClearsCaps(limits, refreshed, now)
      ensures cap.Some? ==>
                cap.value == EffectiveCap(limits, saved, usdc) && row == CapSaved(old(row), saved, cap.value)
      ensures cap.None? ==> row == old(row)
    {
      if refreshed.tradesToday >= limits.maxDailyTrades {
        return None;
      }
      if refreshed.volumeTodayUsd >= limits.maxDailyVolumeUsd {
        return None;
      }
      var lastTrade := if refreshed.lastTradeAt.Some? then refreshed.lastTradeAt.value else 0;
      if now - lastTrade < limits.Cooldown() {
        return None;
      }
      var effective := saved;
      if !limits.watchesOne && usdc.Some? {
        effective := Max(saved, WalletMaxTradeUsd(usdc.value));
        if effective > saved + 0.5 {
          row := row.(maxTradeUsd := effective);
        }
      }
      return Some(effective);
    }

    // The swap goes ahead only if the machine is still on.
    method CommitBuy(refreshed: Row, now: int, cap: real, sizing: Sizing) returns (usd: Option<real>)
      modifies this`row
      ensures usd == if old(row).on then Some(DynamicSize(cap, sizing)) else None
      ensures row == if usd.Some? then Recorded(old(row), refreshed, now, usd.value) else old(row)
    {
      if !row.on {
        return None;
      }
      var size := CalculateDynamicSize(cap, sizing);
      row := row.(lastTradeAt := Some(now), tradesToday := refreshed.tradesToday + 1,
                  volumeTodayUsd := refreshed.volumeTodayUsd + size);
      return Some(size);
    }
  }

  // ----- Interleaved runs -----

  // Where one run of the watcher has got to.
  datatype Pass =
    | Fetched(row: Row)
    | Refreshed(row: Row, saved: real, day: int)
    | Cleared(row: Row, day: int, checkedAt: int, cap: real)
    | Done

  // A buy that went through: the day its tick started on, when its caps were checked and
  // when it was recorded.
  datatype Trade = Trade(day: int, checkedAt: int, recordedAt: int, cap: real, usd: real)

  datatype Machine = Machine(row: Row, running: bool, passes: map<nat, Pass>, now: int, log: seq<Trade>)

  datatype Event =
    | Enter(id: nat, at: int)
    | Reset(id: nat, at: int)
    | Check(id: nat, at: int, usdc: Option<real>)
    | Commit(id: nat, at: int, sizing: Sizing)
    | Skip(id: nat, at: int)
    | Leave(id: nat, at: int)
    | Configure(at: int, on: bool, maxTradeUsd: real)

  predicate Enabled(m: Machine, e: Event) {
    && e.at >= m.now
    && match e
       case Enter(id, _) => id !in m.passes
       case Reset(id, _) => id in m.passes && m.passes[id].Fetched?
       case Check(id, _, _) => id in m.passes && m.passes[id].Refreshed?
       case Commit(id, _, _) => id in m.passes && m.passes[id].Cleared?
       case Skip(id, _) => id in m.passes
       case Leave(id, _) => id in m.passes && m.passes[id].Done?
       case Configure(_, _, usd) => usd >= 0.0
  }

  function Entered(m: Machine, id: nat): Machine {
    m.(running := true, passes := m.passes[id := if m.row.on then Fetched(m.row) else Done])
  }

  function ResetDone(m: Machine, id: nat, at: int): Machine
    requires id in m.passes && m.passes[id].Fetched?
  {
    var fetched := m.passes[id].row;
    if fetched.dayKey == Some(Day(at)) then
      m.(passes := m.passes[id := Refreshed(fetched, fetched.maxTradeUsd, Day(at))])
    else
      var row := ResetRow(m.row, Day(at));
      m.(row := row, passes := m.passes[id := Refreshed(row, fetched.maxTradeUsd, Day(at))])
  }

  function Checked(limits: Limits, m: Machine, id: nat, at: int, usdc: Option<real>): Machine
    requires id in m.passes && m.passes[id].Refreshed?
  {
    var p := m.passes[id];
    if !ClearsCaps(limits, p.row, at) then m.(passes := m.passes[id := Done])
    else
      var cap := EffectiveCap(limits, p.saved, usdc);
      m.(row := CapSaved(m.row, p.saved, cap), passes := m.passes[id := Cleared(p.row, p.day, at, cap)])
  }

  function Committed(m: Machine, id: nat, at: int, sizing: Sizing): Machine
    requires id in m.passes && m.passes[id].Cleared?
  {
    var p := m.passes[id];
    if !m.row.on then m.(passes := m.passes[id := Done])
    else
      var usd := DynamicSize(p.cap, sizing);
      m.(row := Recorded(m.row, p.row, at, usd), passes := m.passes[id := Done],
         log := m.log + [Trade(p.day, p.checkedAt, at, p.cap, usd)])
  }

  // guarded says whether the re-entrancy flag is consulted.
  function Step(limits: Limits, guarded: bool, m: Machine, e: Event): Machine
    requires Enabled(m, e)
  {
    var next :=
      match e
      case Enter(id, _) => if guarded && m.running then m else Entered(m, id)
      case Reset(id, at) => ResetDone(m, id, at)
      case Check(id, at, usdc) => Checked(limits, m, id, at, usdc)
      case Commit(id, at, sizing) => Committed(m, id, at, sizing)
      case Skip(id, _) => m.(passes := m.passes[id := Done])
      case Leave(id, _) => m.(running := false, passes := m.passes - {id})
      case Configure(_, on, usd) => m.(row := m.row.(on := on, maxTradeUsd := usd));
    next.(now := e.at)
  }

  predicate ValidRun(limits: Limits, guarded: bool, m: Machine, run: seq<Event>)
    decreases |run|
  {
    run == [] || (Enabled(m, run[0]) && ValidRun(limits, guarded, Step(limits, guarded, m, run[0]), run[1..]))
  }

  function After(limits: Limits, guarded: bool, m: Machine, run: seq<Event>): Machine
    requires ValidRun(limits, guarded, m, run)
    decreases |run|
  {
    if run == [] then m else After(limits, guarded, Step(limits, guarded, m, run[0]), run[1..])
  }

  function Start(on: bool, maxTradeUsd: real, now: int): Machine {
    Machine(Row(on, maxTradeUsd, None, 0, 0.0, None), false, map[], now, [])
  }

  // ----- Lawful logs -----

  function Count(log: seq<Trade>, day: int): nat {
    if log == [] then 0 else Count(log[..|log| - 1], day) + if log[|log| - 1].day == day then 1 else 0
  }

  function Volume(log: seq<Trade>, day: int): real {
    if log == [] then 0.0
    else Volume(log[..|log| - 1], day) + if log[|log| - 1].day == day then log[|log| - 1].usd else 0.0
  }

  // t may come after the trades before it: its day is under both caps, the cooldown has
  // passed since the last recorded trade, and its size is within its tick's cap.
  ghost predicate MayFollow(limits: Limits, before: seq<Trade>, t: Trade) {
    && Count(before, t.day) < limits.maxDailyTrades
    && Volume(before, t.day) < limits.maxDailyVolumeUsd
    && (before != [] ==>
          && t.checkedAt - before[|before| - 1].recordedAt >= limits.Cooldown()
          && Day(before[|before| - 1].recordedAt) <= t.day)
    && t.usd <= 1.65 * t.cap + 0.005
    && t.day <= Day(t.checkedAt) && t.checkedAt <= t.recordedAt
  }

  ghost predicate Lawful(limits: Limits, log: seq<Trade>) {
    log == [] || (Lawful(limits, log[..|log| - 1]) && MayFollow(limits, log[..|log| - 1], log[|log| - 1]))
  }

  ghost predicate NoneAfter(log: seq<Trade>, day: int) {
    forall i :: 0 <= i < |log| ==> log[i].day <= day
  }

  lemma AppendTrade(limits: Limits, log: seq<Trade>, t: Trade)
    requires Lawful(limits, log) && MayFollow(limits, log, t)
    ensures Lawful(limits, log + [t])
    ensures Count(log + [t], t.day) == Count(log, t.day) + 1 && Volume(log + [t], t.day) == Volume(log, t.day) + t.usd
  {
    assert (log + [t])[..|log|] == log;
  }

  lemma {:induction false} NewDayIsEmpty(log: seq<Trade>, last: int, day: int)
    requires NoneAfter(log, last) && last < day
    ensures Count(log, day) == 0 && Volume(log, day) == 0.0
  {
    if log == [] {
    } else {
      NewDayIsEmpty(log[..|log| - 1], last, day);
    }
  }

  // ----- The invariant -----

  predicate SameCounters(a: Row, b: Row) {
    a.dayKey == b.dayKey && a.tradesToday == b.tradesToday && a.volumeTodayUsd == b.volumeTodayUsd
    && a.lastTradeAt == b.lastTradeAt
  }

  // The row's counters are those of the log.
  ghost predicate RowMatchesLog(row: Row, log: seq<Trade>, now: int) {
    && (row.dayKey.None? ==> log == [] && row.tradesToday == 0 && row.volumeTodayUsd == 0.0)
    && (row.dayKey.Some? ==>
          && row.dayKey.value <= Day(now) && NoneAfter(log, row.dayKey.value)
          && row.tradesToday == Count(log, row.dayKey.value) && row.volumeTodayUsd == Volume(log, row.dayKey.value))
    && row.lastTradeAt == (if log == [] then None else Some(log[|log| - 1].recordedAt))
    && (log != [] ==> log[|log| - 1].recordedAt <= now)
    && row.maxTradeUsd >= 0.0
  }

  predicate StartedOn(row: Row, day: int) {
    row.dayKey == Some(day) && (row.lastTradeAt.Some? ==> Day(row.lastTradeAt.value) <= day)
  }

  // What a tick under way holds is still what the row says.
  ghost predicate Current(limits: Limits, m: Machine, p: Pass) {
    match p
    case Fetched(row) => SameCounters(row, m.row) && row.maxTradeUsd >= 0.0
    case Refreshed(row, saved, day) => SameCounters(row, m.row) && StartedOn(row, day) && saved >= 0.0
    case Cleared(row, day, checkedAt, cap) =>
      && SameCounters(row, m.row) && StartedOn(row, day) && cap >= 0.0
      && ClearsCaps(limits, row, checkedAt) && day <= Day(checkedAt) && checkedAt <= m.now
    case Done => true
  }

  ghost predicate Alone(m: Machine) {
    && (m.running <==> m.passes != map[])
    && (forall i, j :: i in m.passes && j in m.passes ==> i == j)
  }

  ghost predicate Inv(limits: Limits, m: Machine) {
    && Alone(m)
    && Lawful(limits, m.log)
    && RowMatchesLog(m.row, m.log, m.now)
    && (forall i :: i in m.passes ==> Current(limits, m, m.passes[i]))
  }

  lemma DayMonotone(a: int, b: int)
    requires a <= b
    ensures Day(a) <= Day(b)
  {
  }

  // The one pass under way has moved on; nothing else holds a snapshot.
  lemma PassMoves(limits: Limits, m: Machine, m': Machine, id: nat, p: Pass)
    requires Alone(m) && id in m.passes && m'.passes == m.passes[id := p] && m'.running == m.running
    requires Lawful(limits, m'.log) && RowMatchesLog(m'.row, m'.log, m'.now) && Current(limits, m', p)
    ensures Inv(limits, m')
  {
  }

  lemma RowStays(row: Row, row': Row, log: seq<Trade>, now: int, now': int)
    requires RowMatchesLog(row, log, now) && SameCounters(row, row') && row'.maxTradeUsd >= 0.0 && now <= now'
    ensures RowMatchesLog(row', log, now')
  {
    DayMonotone(now, now');
  }

  // A new day key starts from zero, since no trade of that day exists yet.
  lemma ResetMatches(row: Row, log: seq<Trade>, now: int, at: int)
    requires RowMatchesLog(row, log, now) && now <= at && row.dayKey != Some(Day(at))
    ensures RowMatchesLog(ResetRow(row, Day(at)), log, at)
  {
    DayMonotone(now, at);
    if row.dayKey.Some? {
      NewDayIsEmpty(log, row.dayKey.value, Day(at));
    }
  }

  lemma LastTradeBefore(row: Row, log: seq<Trade>, now: int, at: int)
    requires RowMatchesLog(row, log, now) && now <= at
    ensures row.lastTradeAt.Some? ==> Day(row.lastTradeAt.value) <= Day(at)
  {
    if log != [] {
      DayMonotone(log[|log| - 1].recordedAt, at);
    }
  }

  lemma ResetKeepsInv(limits: Limits, m: Machine, id: nat, at: int)
    requires Inv(limits, m) && Enabled(m, Reset(id, at))
    ensures Inv(limits, Step(limits, true, m, Reset(id, at)))
  {
    var m' := Step(limits, true, m, Reset(id, at));
    assert Current(limits, m, m.passes[id]);
    LastTradeBefore(m.row, m.log, m.now, at);
    if m.row.dayKey == Some(Day(at)) {
      RowStays(m.row, m'.row, m.log, m.now, at);
    } else {
      ResetMatches(m.row, m.log, m.now, at);
    }
    PassMoves(limits, m, m', id, m'.passes[id]);
  }

  lemma CheckKeepsInv(limits: Limits, m: Machine, id: nat, at: int, usdc: Option<real>)
    requires Inv(limits, m) && Enabled(m, Check(id, at, usdc))
    ensures Inv(limits, Step(limits, true, m, Check(id, at, usdc)))
  {
    var m' := Step(limits, true, m, Check(id, at, usdc));
    assert Current(limits, m, m.passes[id]);
    DayMonotone(m.now, at);
    RowStays(m.row, m'.row, m.log, m.now, at);
    PassMoves(limits, m, m', id, m'.passes[id]);
  }

  // The counters a commit writes are those of the longer log.
  lemma RecordedMatches(row: Row, refreshed: Row, log: seq<Trade>, now: int, t: Trade)
    requires RowMatchesLog(row, log, now) && SameCounters(row, refreshed) && row.dayKey == Some(t.day)
             && now <= t.recordedAt
    requires Count(log + [t], t.day) == Count(log, t.day) + 1 && Volume(log + [t], t.day) == Volume(log, t.day) + t.usd
    ensures RowMatchesLog(Recorded(row, refreshed, t.recordedAt, t.usd), log + [t], t.recordedAt)
  {
    DayMonotone(now, t.recordedAt);
  }

  lemma ClearedMayFollow(limits: Limits, m: Machine, p: Pass, at: int, t: Trade)
    requires RowMatchesLog(m.row, m.log, m.now) && p.Cleared? && Current(limits, m, p) && m.now <= at
    requires t == Trade(p.day, p.checkedAt, at, p.cap, t.usd) && t.usd <= 1.65 * p.cap + 0.005
    ensures MayFollow(limits, m.log, t)
  {
  }

  lemma CommitKeepsInv(limits: Limits, m: Machine, id: nat, at: int, sizing: Sizing)
    requires Inv(limits, m) && Enabled(m, Commit(id, at, sizing))
    ensures Inv(limits, Step(limits, true, m, Commit(id, at, sizing)))
  {
    var m', p := Step(limits, true, m, Commit(id, at, sizing)), m.passes[id];
    assert Current(limits, m, p);
    if m.row.on {
      SizeIsCapped(p.cap, sizing);
      var t := Trade(p.day, p.checkedAt, at, p.cap, DynamicSize(p.cap, sizing));
      ClearedMayFollow(limits, m, p, at, t);
      AppendTrade(limits, m.log, t);
      RecordedMatches(m.row, p.row, m.log, m.now, t);
    } else {
      RowStays(m.row, m'.row, m.log, m.now, at);
    }
    PassMoves(limits, m, m', id, Done);
  }

  lemma StepKeepsInv(limits: Limits, m: Machine, e: Event)
    requires Inv(limits, m) && Enabled(m, e)
    ensures Inv(limits, Step(limits, true, m, e))
  {
    var m' := Step(limits, true, m, e);
    match e
    case Reset(id, at) => ResetKeepsInv(limits, m, id, at);
    case Check(id, at, usdc) => CheckKeepsInv(limits, m, id, at, usdc);
    case Commit(id, at, sizing) => CommitKeepsInv(limits, m, id, at, sizing);
    case _ => RowStays(m.row, m'.row, m.log, m.now, e.at);
  }

  lemma {:induction false} InvariantOverRuns(limits: Limits, m: Machine, run: seq<Event>)
    requires Inv(limits, m) && ValidRun(limits, true, m, run)
    ensures Inv(limits, After(limits, true, m, run))
    decreases |run|
  {
    if run == [] {
    } else {
      StepKeepsInv(limits, m, run[0]);
      InvariantOverRuns(limits, Step(limits, true, m, run[0]), run[1..]);
    }
  }

  // ----- What lawful logs promise -----

  // The last trade counted against a day.
  function LastOn(log: seq<Trade>, day: int): Trade
    requires Count(log, day) > 0
  {
    if log[|log| - 1].day == day then log[|log| - 1] else LastOn(log[..|log| - 1], day)
  }

  lemma {:induction false} LawfulIsCapped(limits: Limits, log: seq<Trade>, day: int)
    requires Lawful(limits, log)
    ensures Count(log, day) <= MaxInt(0, limits.maxDailyTrades)
    ensures Count(log, day) > 0 ==>
              var last := LastOn(log, day);
              && Volume(log, day) < limits.maxDailyVolumeUsd + last.usd
              && last.usd <= 1.65 * last.cap + 0.005
  {
    if log == [] {
    } else {
      LawfulIsCapped(limits, log[..|log| - 1], day);
    }
  }

  // Every guarded run, with any other users' ticks and setting changes in between: each day
  // stays within its trade cap, and within its volume cap plus the trade that crossed it.
  lemma DailyCapsHold(limits: Limits, on: bool, maxTradeUsd: real, now: int, run: seq<Event>, day: int)
    requires maxTradeUsd >= 0.0 && ValidRun(limits, true, Start(on, maxTradeUsd, now), run)
    ensures var m := After(limits, true, Start(on, maxTradeUsd, now), run);
            && Count(m.log, day) <= MaxInt(0, limits.maxDailyTrades)
            && m.row.tradesToday <= MaxInt(0, limits.maxDailyTrades)
            && (m.row.dayKey == Some(day) ==>
                m.row.tradesToday == Count(m.log, day) && m.row.volumeTodayUsd == Volume(m.log, day))
            && (Count(m.log, day) > 0 ==>
                  && Volume(m.log, day) < limits.maxDailyVolumeUsd + LastOn(m.log, day).usd
                  && LastOn(m.log, day).usd <= 1.65 * LastOn(m.log, day).cap + 0.005)
  {
    var m := After(limits, true, Start(on, maxTradeUsd, now), run);
    InvariantOverRuns(limits, Start(on, maxTradeUsd, now), run);
    LawfulIsCapped(limits, m.log, day);
    if m.row.dayKey.Some? {
      LawfulIsCapped(limits, m.log, m.row.dayKey.value);
    }
  }

  // Any two trades are a cooldown apart for each trade between them.
  lemma {:induction false} TradesAreSpaced(limits: Limits, log: seq<Trade>, i: nat, j: nat)
    requires Lawful(limits, log) && i < j < |log|
    ensures log[j].checkedAt >= log[i].recordedAt + (j - i) * limits.Cooldown()
  {
    if j < |log| - 1 {
      TradesAreSpaced(limits, log[..|log| - 1], i, j);
    } else if i < j - 1 {
      TradesAreSpaced(limits, log[..|log| - 1], i, j - 1);
      LawfulPrefixOrder(limits, log[..|log| - 1]);
      assert (j - i) * limits.Cooldown() == (j - 1 - i) * limits.Cooldown() + limits.Cooldown();
    }
  }

  lemma LawfulPrefixOrder(limits: Limits, log: seq<Trade>)
    requires Lawful(limits, log) && log != []
    ensures log[|log| - 1].checkedAt <= log[|log| - 1].recordedAt
  {
  }

  // Every guarded run keeps its buys apart: caps are checked a cooldown, at least, after
  // the trade before was recorded.
  lemma CooldownHolds(limits: Limits, on: bool, maxTradeUsd: real, now: int, run: seq<Event>, i: nat, j: nat)
    requires maxTradeUsd >= 0.0 && ValidRun(limits, true, Start(on, maxTradeUsd, now), run)
    requires i < j < |After(limits, true, Start(on, maxTradeUsd, now), run).log|
    ensures var log := After(limits, true, Start(on, maxTradeUsd, now), run).log;
            var minutes := if limits.aggressive then 2 else if limits.watchesOne then 10 else 3;
            log[j].checkedAt >= log[i].recordedAt + (j - i) * (minutes * 60_000)
  {
    InvariantOverRuns(limits, Start(on, maxTradeUsd, now), run);
    TradesAreSpaced(limits, After(limits, true, Start(on, maxTradeUsd, now), run).log, i, j);
  }

  // ----- Calendar days -----

  // How many trades were recorded on a calendar day, whatever day their tick began on.
  function RecordedOn(log: seq<Trade>, day: int): nat {
    if log == [] then 0 else RecordedOn(log[..|log| - 1], day) + if Day(log[|log| - 1].recordedAt) == day then 1 else 0
  }

  // A tick that begins before midnight and records after it is counted against the day it
  // began on. This one began before the day and was recorded on it.
  predicate StraddlesInto(t: Trade, day: int) {
    t.day < day == Day(t.recordedAt)
  }

  // This one began on the day and was recorded after it.
  predicate StraddlesOut(t: Trade, day: int) {
    t.day == day < Day(t.recordedAt)
  }

  function Into(log: seq<Trade>, day: int): nat {
    if log == [] then 0 else Into(log[..|log| - 1], day) + if StraddlesInto(log[|log| - 1], day) then 1 else 0
  }

  function OutOf(log: seq<Trade>, day: int): nat {
    if log == [] then 0 else OutOf(log[..|log| - 1], day) + if StraddlesOut(log[|log| - 1], day) then 1 else 0
  }

  // Trades recorded on a day, and those counted against it, differ by the straddling ones.
  lemma {:induction false} StraddlersBalance(limits: Limits, log: seq<Trade>, day: int)
    requires Lawful(limits, log)
    ensures RecordedOn(log, day) + OutOf(log, day) == Count(log, day) + Into(log, day)
  {
    if log == [] {
      assert RecordedOn(log, day) == 0;
    } else {
      StraddlersBalance(limits, log[..|log| - 1], day);
      DayMonotone(log[|log| - 1].checkedAt, log[|log| - 1].recordedAt);
    }
  }

  // At most one trade straddles into a day, and at most one out of it.
  lemma {:induction false} OneStraddler(limits: Limits, log: seq<Trade>, day: int)
    requires Lawful(limits, log)
    ensures Into(log, day) <= 1 && OutOf(log, day) <= 1
    ensures log != [] && Day(log[|log| - 1].recordedAt) < day ==> Into(log, day) == 0
    ensures log != [] && Day(log[|log| - 1].recordedAt) <= day ==> OutOf(log, day) == 0
  {
    if log == [] {
      assert Into(log, day) == 0;
    } else {
      OneStraddler(limits, log[..|log| - 1], day);
      DayMonotone(log[|log| - 1].checkedAt, log[|log| - 1].recordedAt);
    }
  }

  lemma CalendarDayExceedsByAtMostOne(limits: Limits, log: seq<Trade>, day: int)
    requires Lawful(limits, log)
    ensures RecordedOn(log, day) <= Count(log, day) + 1
  {
    StraddlersBalance(limits, log, day);
    OneStraddler(limits, log, day);
  }

  lemma {:induction false} StraddlersExist(log: seq<Trade>, day: int)
    ensures Into(log, day) > 0 <==> exists i :: 0 <= i < |log| && StraddlesInto(log[i], day)
    ensures OutOf(log, day) > 0 <==> exists i :: 0 <= i < |log| && StraddlesOut(log[i], day)
  {
    if log == [] {
      assert Into(log, day) == 0 && OutOf(log, day) == 0;
    } else {
      var n := |log| - 1;
      StraddlersExist(log[..n], day);
      assert forall i :: 0 <= i < n ==> log[..n][i] == log[i];
    }
  }

  // A calendar day records more trades than its cap exactly when its own ticks used the
  // cap up, one tick from before midnight was recorded on it, and none of its own was
  // recorded after it.
  ghost predicate Overfull(limits: Limits, log: seq<Trade>, day: int) {
    && Count(log, day) == MaxInt(0, limits.maxDailyTrades)
    && (exists i :: 0 <= i < |log| && StraddlesInto(log[i], day))
    && (forall i :: 0 <= i < |log| ==> !StraddlesOut(log[i], day))
  }

  lemma CalendarCapExceededIff(limits: Limits, log: seq<Trade>, day: int)
    requires Lawful(limits, log)
    ensures RecordedOn(log, day) > MaxInt(0, limits.maxDailyTrades) <==> Overfull(limits, log, day)
    ensures RecordedOn(log, day) <= MaxInt(0, limits.maxDailyTrades) + 1
  {
    LawfulIsCapped(limits, log, day);
    StraddlersBalance(limits, log, day);
    OneStraddler(limits, log, day);
    StraddlersExist(log, day);
  }

  // So over every guarded run: a calendar day is within its cap but for that one case, and
  // then over it by one.
  lemma CalendarCapsHold(limits: Limits, on: bool, maxTradeUsd: real, now: int, run: seq<Event>, day: int)
    requires maxTradeUsd >= 0.0 && ValidRun(limits, true, Start(on, maxTradeUsd, now), run)
    ensures var log := After(limits, true, Start(on, maxTradeUsd, now), run).log;
            && (RecordedOn(log, day) > MaxInt(0, limits.maxDailyTrades) <==> Overfull(limits, log, day))
            && RecordedOn(log, day) <= MaxInt(0, limits.maxDailyTrades) + 1
  {
    InvariantOverRuns(limits, Start(on, maxTradeUsd, now), run);
    CalendarCapExceededIff(limits, After(limits, true, Start(on, maxTradeUsd, now), run).log, day);
  }

  // ----- Two runs worth knowing -----

  const PLAIN: Sizing := Sizing(0.55, 0.5, 0, NoStreak)
  const ONE_A_DAY: Limits := Limits(1, 1000.0, true, true)

  ghost predicate Reaches(limits: Limits, guarded: bool, m: Machine, run: seq<Event>, end: Machine) {
    ValidRun(limits, guarded, m, run) && After(limits, guarded, m, run) == end
  }

  lemma {:induction false} ReachesNext(limits: Limits, guarded: bool, m: Machine, run: seq<Event>, mid: Machine,
                                       e: Event, end: Machine)
    requires Reaches(limits, guarded, m, run, mid) && Enabled(mid, e) && end == Step(limits, guarded, mid, e)
    ensures Reaches(limits, guarded, m, run + [e], end)
    decreases |run|
  {
    if run == [] {
      assert (run + [e])[1..] == [];
    } else {
      assert (run + [e])[1..] == run[1..] + [e];
      ReachesNext(limits, guarded, Step(limits, guarded, m, run[0]), run[1..], mid, e, end);
    }
  }

  // The machine after a tick, alone, that buys on a new day.
  function Bought(m: Machine, began: int, recorded: int): Machine {
    var row, usd := ResetRow(m.row, Day(began)), DynamicSize(m.row.maxTradeUsd, PLAIN);
    Machine(Recorded(row, row, recorded, usd), false, map[], recorded,
            m.log + [Trade(Day(began), began, recorded, m.row.maxTradeUsd, usd)])
  }

  // A quiet machine on which a tick may buy on a new day.
  ghost predicate ReadyToBuy(limits: Limits, m: Machine, began: int) {
    && !m.running && m.passes == map[] && m.row.on && m.now <= began && limits.watchesOne
    && m.row.dayKey != Some(Day(began)) && limits.maxDailyTrades > 0 && limits.maxDailyVolumeUsd > 0.0
    && began - (if m.row.lastTradeAt.Some? then m.row.lastTradeAt.value else 0) >= limits.Cooldown()
  }

  // The machine with that tick past its checks.
  function Clearing(m: Machine, began: int): Machine {
    var row := ResetRow(m.row, Day(began));
    m.(running := true, row := row, now := began,
       passes := map[0 := Cleared(row, Day(began), began, m.row.maxTradeUsd)])
  }

  lemma TickClears(limits: Limits, start: Machine, before: seq<Event>, m: Machine, began: int) returns (run: seq<Event>)
    requires Reaches(limits, true, start, before, m) && ReadyToBuy(limits, m, began)
    ensures Reaches(limits, true, start, run, Clearing(m, began))
  {
    var row := ResetRow(m.row, Day(began));
    var m1 := m.(running := true, passes := map[0 := Fetched(m.row)], now := began);
    var m2 := m1.(row := row, passes := map[0 := Refreshed(row, m.row.maxTradeUsd, Day(began))]);
    ReachesNext(limits, true, start, before, m, Enter(0, began), m1);
    run := before + [Enter(0, began)];
    ReachesNext(limits, true, start, run, m1, Reset(0, began), m2);
    run := run + [Reset(0, began)];
    ReachesNext(limits, true, start, run, m2, Check(0, began, None), Clearing(m, began));
    run := run + [Check(0, began, None)];
  }

  // Such a tick can run to its end, and buys.
  lemma BuyingRuns(limits: Limits, start: Machine, before: seq<Event>, m: Machine, began: int, recorded: int)
      returns (run: seq<Event>)
    requires Reaches(limits, true, start, before, m) && ReadyToBuy(limits, m, began) && began <= recorded
    ensures Reaches(limits, true, start, run, Bought(m, began, recorded))
  {
    run := TickClears(limits, start, before, m, began);
    var m5 := Bought(m, began, recorded);
    var m4 := m5.(running := true, passes := map[0 := Done]);
    ReachesNext(limits, true, start, run, Clearing(m, began), Commit(0, recorded, PLAIN), m4);
    run := run + [Commit(0, recorded, PLAIN)];
    ReachesNext(limits, true, start, run, m4, Leave(0, recorded), m5);
    run := run + [Leave(0, recorded)];
  }

  lemma RecordedOnTwo(a: Trade, b: Trade, day: int)
    requires Day(a.recordedAt) == day && Day(b.recordedAt) == day
    ensures RecordedOn([a, b], day) == 2
  {
    assert [a, b][..1] == [a] && [a][..0] == [];
    assert RecordedOn([a], day) == 1;
  }

  // The extra trade is real: with one trade a day allowed, a tick begun in the last
  // millisecond before midnight and another after the cooldown put two on one calendar day.
  lemma TwoTradesOnOneDay(day: int, maxTradeUsd: real) returns (run: seq<Event>, end: Machine)
    requires day >= 1
    ensures Reaches(ONE_A_DAY, true, Start(true, maxTradeUsd, 0), run, end)
    ensures RecordedOn(end.log, day) == 2
  {
    var midnight, start := day * DAY_MS, Start(true, maxTradeUsd, 0);
    var later := midnight + AGGRESSIVE_COOLDOWN_MS;
    assert Day(midnight - 1) == day - 1 && Day(midnight) == day && Day(later) == day;
    run := BuyingRuns(ONE_A_DAY, start, [], start, midnight - 1, midnight);
    var m1 := Bought(start, midnight - 1, midnight);
    run := BuyingRuns(ONE_A_DAY, start, run, m1, later, later);
    end := Bought(m1, later, later);
    RecordedOnTwo(m1.log[0], end.log[1], day);
    assert end.log == [m1.log[0], end.log[1]];
  }

  lemma CountTwo(t: Trade)
    ensures Count([t, t], t.day) == 2
  {
    assert [t, t][..1] == [t] && [t][..0] == [];
    assert Count([t], t.day) == 1;
  }

  // Without the flag two overlapping ticks both pass a cap of one, both buy, and the
  // second write hides the first.
  lemma UnguardedTicksLoseAnUpdate(at: int, maxTradeUsd: real) returns (run: seq<Event>, end: Machine)
    requires at >= AGGRESSIVE_COOLDOWN_MS
    ensures Reaches(ONE_A_DAY, false, Start(true, maxTradeUsd, at), run, end)
    ensures Count(end.log, Day(at)) == 2 && end.row.tradesToday == 1
  {
    var start := Start(true, maxTradeUsd, at);
    var mid;
    run, mid := BothClear(at, maxTradeUsd);
    var row, usd := mid.row, DynamicSize(maxTradeUsd, PLAIN);
    var t := Trade(Day(at), at, at, maxTradeUsd, usd);
    var m7 := mid.(row := Recorded(row, row, at, usd), passes := map[0 := Done, 1 := mid.passes[1]], log := [t]);
    end := m7.(passes := map[0 := Done, 1 := Done], log := [t, t]);
    ReachesNext(ONE_A_DAY, false, start, run, mid, Commit(0, at, PLAIN), m7);
    run := run + [Commit(0, at, PLAIN)];
    ReachesNext(ONE_A_DAY, false, start, run, m7, Commit(1, at, PLAIN), end);
    run := run + [Commit(1, at, PLAIN)];
    CountTwo(t);
  }

  lemma BothRefreshed(at: int, maxTradeUsd: real) returns (run: seq<Event>, mid: Machine)
    ensures Reaches(ONE_A_DAY, false, Start(true, maxTradeUsd, at), run, mid)
    ensures var row := ResetRow(Start(true, maxTradeUsd, at).row, Day(at));
            var refreshed := Refreshed(row, maxTradeUsd, Day(at));
            mid == Machine(row, true, map[0 := refreshed, 1 := refreshed], at, [])
  {
    var start := Start(true, maxTradeUsd, at);
    var row := ResetRow(start.row, Day(at));
    var refreshed := Refreshed(row, maxTradeUsd, Day(at));
    var m1 := start.(running := true, passes := map[0 := Fetched(start.row)]);
    var m2 := m1.(passes := map[0 := Fetched(start.row), 1 := Fetched(start.row)]);
    var m3 := m2.(row := row, passes := map[0 := refreshed, 1 := Fetched(start.row)]);
    mid := m3.(passes := map[0 := refreshed, 1 := refreshed]);
    ReachesNext(ONE_A_DAY, false, start, [], start, Enter(0, at), m1);
    run := [] + [Enter(0, at)];
    ReachesNext(ONE_A_DAY, false, start, run, m1, Enter(1, at), m2);
    run := run + [Enter(1, at)];
    ReachesNext(ONE_A_DAY, false, start, run, m2, Reset(0, at), m3);
    run := run + [Reset(0, at)];
    ReachesNext(ONE_A_DAY, false, start, run, m3, Reset(1, at), mid);
    run := run + [Reset(1, at)];
  }

  lemma BothClear(at: int, maxTradeUsd: real) returns (run: seq<Event>, mid: Machine)
    requires at >= AGGRESSIVE_COOLDOWN_MS
    ensures Reaches(ONE_A_DAY, false, Start(true, maxTradeUsd, at), run, mid)
    ensures var row := ResetRow(Start(true, maxTradeUsd, at).row, Day(at));
            var cleared := Cleared(row, Day(at), at, maxTradeUsd);
            mid == Machine(row, true, map[0 := cleared, 1 := cleared], at, [])
  {
    var start := Start(true, maxTradeUsd, at);
    var m4;
    run, m4 := BothRefreshed(at, maxTradeUsd);
    var cleared := Cleared(m4.row, Day(at), at, maxTradeUsd);
    var m5 := m4.(passes := map[0 := cleared, 1 := m4.passes[1]]);
    mid := m4.(passes := map[0 := cleared, 1 := cleared]);
    ReachesNext(ONE_A_DAY, false, start, run, m4, Check(0, at, None), m5);
    run := run + [Check(0, at, None)];
    ReachesNext(ONE_A_DAY, false, start, run, m5, Check(1, at, None), mid);
    run := run + [Check(1, at, None)];
  }
}
