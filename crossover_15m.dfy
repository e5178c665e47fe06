// backtest_sma_15m of sma_crossover_15m.py: the daily SMA (the mean of the
// p daily closes before a date, from QQQ's own bars), TQQQ held on 15-minute
// bars and stopped against each bar's low; the SMA exit and the entry are
// decided once per date, at the first bar of a new date, from the values
// remembered at the first bar of the date before (prev_qqq_close, prev_sma),
// and filled at that bar's open.
module Crossover15m {
  import opened Core
  import opened Stops
  import opened Ledger
  import opened DailySma
  import Fills
  import Position
  import PriorSma
  import PriorSmaScripts
  import opened Rounding

  const StartingCap: real := 10000.0
  const MinBars: nat := 1000

  /** compute_daily_sma's two tables, from QQQ's bars (each bar's `signal`
      is its close): the SMA for each date and the daily close. */
  datatype Ctx = Ctx(sma: map<int, real>, daily: map<int, real>, fixedFrac: real, trailFrac: real)

  /** The simulation's money and trades, and prev_day, prev_qqq_close and
      prev_sma. The engine's own `prev` field is unused here. */
  datatype St = St(sim: PriorSma.Sim, prevDay: Option<int>, prevClose: Option<real>, prevSma: Option<real>)

  /** Python's truth value of an optional float: present and non-zero. */
  predicate Truthy(x: Option<real>)
  {
    x.Some? && x.value != 0.0
  }

  /** Every open can be divided by (an entry fills at the open). */
  predicate OpenDivisible(bars: seq<Bar>)
  {
    forall i :: 0 <= i < |bars| ==> bars[i].open != 0.0
  }

  function Begin(capital: real): (st: St)
    ensures st.sim.pos == 0.0 && st.sim.cap == capital && st.sim.trades == [] && st.prevDay.None?
  {
    St(PriorSma.Start(capital), None, None, None)
  }

  /** `prev_day and day != prev_day`: the first processed bar of a new date
      (never the very first one). */
  predicate NewDay(st: St, b: Bar)
  {
    st.prevDay.Some? && b.at.day != st.prevDay.value
  }

  /** Yesterday closed below its SMA (both values truthy). */
  predicate CrossedBelow(st: St)
  {
    Truthy(st.prevClose) && Truthy(st.prevSma) && st.prevClose.value < st.prevSma.value
  }

  /** Yesterday closed above its SMA, and the calendar day before yesterday
      had a truthy daily close at or below yesterday's SMA. */
  predicate CrossedAbove(c: Ctx, st: St)
  {
    && Truthy(st.prevClose) && Truthy(st.prevSma) && st.prevClose.value > st.prevSma.value
    && st.prevDay.Some?
    && var dayBefore := st.prevDay.value - 1;
      && dayBefore in c.daily && c.daily[dayBefore] != 0.0
      && st.prevDay.value in c.sma && c.sma[st.prevDay.value] != 0.0
      && c.daily[dayBefore] <= c.sma[st.prevDay.value]
  }

  /** The exit block of a long bar: raise the high, then the stop against
      the low (filled at the stop), else on a new date a cross from above
      (filled at the open). */
  function Exits(start: real, c: Ctx, st: St, b: Bar): (r: PriorSma.Sim)
    requires PriorSma.Ok(start, st.sim) && st.sim.pos > 0.0
    ensures PriorSma.Ok(start, r)
  {
    var s := st.sim;
    var h := if b.high > s.highest then b.high else s.highest;
    var raised := s.(highest := h);
    var stop := ActiveStop(s.entry, h, c.fixedFrac, c.trailFrac);
    if b.low <= stop then PriorSma.Close(start, raised, b.at, stop, StopHit)
    else if NewDay(st, b) && CrossedBelow(st) then PriorSma.Close(start, raised, b.at, b.open, SmaExit)
    else raised
  }

  /** An entry at the open: `pos = cap / open`, highest from the bar's
      high, `cap = 0`. */
  function Enter(start: real, s: PriorSma.Sim, b: Bar): (r: PriorSma.Sim)
    requires PriorSma.Ok(start, s) && s.pos == 0.0 && b.open != 0.0
    ensures PriorSma.Ok(start, r) && r.pos == Fills.SharesFor(s.cap, b.open) && r.cap == 0.0
    ensures r.entry == b.open && r.entryAt == b.at && r.highest == b.high && r.trades == s.trades
  {
    PriorSma.SharesValue(s.cap, b.open);
    s.(pos := Fills.SharesFor(s.cap, b.open), entry := b.open, entryAt := b.at, highest := b.high, cap := 0.0)
  }

  /** One pass of the loop: skip a date without SMA; the exit block when
      long; then (not `elif`) the entry block when flat on a new date; then
      the remembered values at the first bar of a date, and prev_day. */
  function Step(start: real, c: Ctx, st: St, b: Bar): (r: St)
    requires PriorSma.Ok(start, st.sim) && b.open != 0.0
    ensures PriorSma.Ok(start, r.sim)
  {
    if b.at.day !in c.sma then st
    else
      var afterExit := if st.sim.pos > 0.0 then Exits(start, c, st, b) else st.sim;
      var afterEntry :=
        if afterExit.pos == 0.0 && NewDay(st, b) && CrossedAbove(c, st) then Enter(start, afterExit, b)
        else afterExit;
      var firstOfDay := st.prevDay != Some(b.at.day);
      St(afterEntry, Some(b.at.day),
         if firstOfDay then Some(b.signal) else st.prevClose,
         if firstOfDay then Some(c.sma[b.at.day]) else st.prevSma)
  }

  function Run(start: real, c: Ctx, bars: seq<Bar>): (st: St)
    requires OpenDivisible(bars)
    ensures PriorSma.Ok(start, st.sim)
  {
    if bars == [] then Begin(start)
    else Step(start, c, Run(start, c, bars[..|bars| - 1]), bars[|bars| - 1])
  }

  /** The tables of compute_daily_sma over QQQ's bars. */
  function ContextOf(qqq: seq<Bar>, p: nat, fixedFrac: real, trailFrac: real): Ctx
  {
    Ctx(PriorSma.SmaOf(qqq, p), DailyCloseUpTo(qqq, |qqq|), fixedFrac, trailFrac)
  }

  /** The loop and the closing block (`if pos > 0` sold at the last joined
      bar's close as "eod"). */
  function Simulation(start: real, c: Ctx, common: seq<Bar>): (s: PriorSma.Sim)
    requires OpenDivisible(common)
    ensures PriorSma.Ok(start, s) && s.pos <= 0.0
  {
    if common == [] then PriorSma.Start(start)
    else PriorSma.Finish(start, Run(start, c, common).sim, common[|common| - 1])
  }

  /** backtest_sma_15m: None on fewer than 1000 joined bars or without
      trades, else ret, n and wr. */
  function Backtest(qqq: seq<Bar>, common: seq<Bar>, p: nat, fixedFrac: real, trailFrac: real): (r: Option<PriorSmaScripts.Brief>)
    requires OpenDivisible(common)
    ensures var s := Simulation(StartingCap, ContextOf(qqq, p, fixedFrac, trailFrac), common);
      && (r.None? <==> |common| < MinBars || s.trades == [])
      && (r.Some? ==>
            && r.value.n == |s.trades|
            && r.value.ret == RoundTo(PriorSmaScripts.Ret(s.cap), 2)
            && 0.0 <= r.value.wr <= PriorSmaScripts.WinRate(s.trades)
            && (r.value.wr == 0.0 <==> forall i :: 0 <= i < |s.trades| ==> Scaled(PriorSma.PnlPct(s.trades[i]), 2) <= 0.5))
  {
    if |common| < MinBars then None
    else
      var s := Simulation(StartingCap, ContextOf(qqq, p, fixedFrac, trailFrac), common);
      if s.trades == [] then None
      else Some(PriorSmaScripts.Brief(RoundTo(PriorSmaScripts.Ret(s.cap), 2), |s.trades|, PriorSmaScripts.RoundedWinRate(s.trades, 2)))
  }

  // ---- the loop as the script writes it ----

  method ProcessBar(start: real, c: Ctx, st: St, b: Bar) returns (r: St)
    requires PriorSma.Ok(start, st.sim) && b.open != 0.0
    ensures r == Step(start, c, st, b)
  {
    var day := b.at.day;
    if day !in c.sma {
      return st;
    }
    var sma := c.sma[day];
    var qqqClose := b.signal;
    var prevDay, prevQqqClose, prevSma := st.prevDay, st.prevClose, st.prevSma;
    var sim := st.sim;
    if sim.pos > 0.0 {
      sim := ExitBlock(start, c, st, b);
    }
    sim := EntryBlock(start, c, st, sim, b);
    if prevDay != Some(day) {
      prevSma := Some(sma);
      prevQqqClose := Some(qqqClose);
    }
    r := St(sim, Some(day), prevQqqClose, prevSma);
  }

  /** Lines 110-146: raise the high, then the stop against the low, else a
      cross from above on a new date. */
  method ExitBlock(start: real, c: Ctx, st: St, b: Bar) returns (r: PriorSma.Sim)
    requires PriorSma.Ok(start, st.sim) && st.sim.pos > 0.0
    ensures r == Exits(start, c, st, b)
  {
    var cap, pos, entryPrice, highest, entryAt, trades := st.sim.cap, st.sim.pos, st.sim.entry, st.sim.highest, st.sim.entryAt, st.sim.trades;
    var day := b.at.day;
    var prevDay, prevQqqClose, prevSma := st.prevDay, st.prevClose, st.prevSma;
    if b.high > highest {
      highest := b.high;
    }
    var stopPrice := ActiveStop(entryPrice, highest, c.fixedFrac, c.trailFrac);
    var exitPrice := 0.0;
    var exitReason: Option<Reason> := None;
    if b.low <= stopPrice {
      exitPrice, exitReason := stopPrice, Some(StopHit);
    } else if prevDay.Some? && day != prevDay.value {
      if Truthy(prevQqqClose) && Truthy(prevSma) && prevQqqClose.value < prevSma.value {
        exitPrice, exitReason := b.open, Some(SmaExit);
      }
    }
    if exitReason.Some? {
      var pnl := Fills.Value(pos, exitPrice) - Fills.Value(pos, entryPrice);
      cap := Fills.Value(pos, exitPrice);
      trades := trades + [Trade(entryAt, entryPrice, pos, Some(Exit(b.at, exitPrice, pnl, exitReason.value)))];
      pos, highest := 0.0, 0.0;
    }
    r := PriorSma.Sim(cap, pos, entryPrice, highest, entryAt, st.sim.prev, trades);
  }

  /** Lines 148-163: when flat on a new date after a cross from below,
      buy at the open with the whole capital. */
  method EntryBlock(start: real, c: Ctx, st: St, s: PriorSma.Sim, b: Bar) returns (r: PriorSma.Sim)
    requires PriorSma.Ok(start, s) && b.open != 0.0
    ensures r == if s.pos == 0.0 && NewDay(st, b) && CrossedAbove(c, st) then Enter(start, s, b) else s
  {
    r := s;
    var day := b.at.day;
    var prevDay, prevQqqClose, prevSma := st.prevDay, st.prevClose, st.prevSma;
    if s.pos == 0.0 && prevDay.Some? && day != prevDay.value {
      if Truthy(prevQqqClose) && Truthy(prevSma) && prevQqqClose.value > prevSma.value {
        var dayBefore := prevDay.value - 1;
        var dayBeforeClose: Option<real> := if dayBefore in c.daily then Some(c.daily[dayBefore]) else None;
        var dayBeforeSma: Option<real> := if prevDay.value in c.sma then Some(c.sma[prevDay.value]) else None;
        if Truthy(dayBeforeClose) && Truthy(dayBeforeSma) && dayBeforeClose.value <= dayBeforeSma.value {
          r := s.(pos := s.cap / b.open, entry := b.open, entryAt := b.at, highest := b.high, cap := 0.0);
        }
      }
    }
  }

  method Simulate(start: real, c: Ctx, common: seq<Bar>) returns (st: St)
    requires OpenDivisible(common)
    ensures st == Run(start, c, common)
  {
    st := Begin(start);
    var i := 0;
    while i < |common|
      invariant 0 <= i <= |common|
      invariant st == Run(start, c, common[..i])
    {
      assert common[..i + 1][..i] == common[..i];
      st := ProcessBar(start, c, st, common[i]);
      i := i + 1;
    }
    assert common[..i] == common;
  }

  /** compute_daily_sma: the daily closes of QQQ's bars, then the SMA over
      them. */
  method ComputeDailySma(qqq: seq<Bar>, p: nat) returns (sma: map<int, real>, daily: map<int, real>)
    ensures sma == PriorSma.SmaOf(qqq, p) && daily == DailyCloseUpTo(qqq, |qqq|)
  {
    sma := PriorSma.BuildSma(qqq, p);
    daily := DailyCloses(qqq);
  }

  method RunBacktest(qqq: seq<Bar>, common: seq<Bar>, p: nat, fixedFrac: real, trailFrac: real)
    returns (r: Option<PriorSmaScripts.Brief>)
    requires OpenDivisible(common)
    ensures r == Backtest(qqq, common, p, fixedFrac, trailFrac)
  {
    var sma, daily := ComputeDailySma(qqq, p);
    if |common| < MinBars {
      return None;
    }
    var c := Ctx(sma, daily, fixedFrac, trailFrac);
    var st := Simulate(StartingCap, c, common);
    var s := st.sim;
    if s.pos > 0.0 {
      var last := common[|common| - 1];
      s := PriorSma.Close(StartingCap, s, last.at, last.close, OpenAtEnd);
    }
    if s.trades == [] {
      return None;
    }
    r := Some(PriorSmaScripts.Brief(RoundTo(PriorSmaScripts.Ret(s.cap), 2), |s.trades|, PriorSmaScripts.RoundedWinRate(s.trades, 2)));
  }

  // ---- what the loop promises ----

  /** A bar whose date has no SMA changes nothing, not even prev_day; any
      other bar sets prev_day to its date. */
  lemma SkipRule(start: real, c: Ctx, st: St, b: Bar)
    requires PriorSma.Ok(start, st.sim) && b.open != 0.0
    ensures b.at.day !in c.sma ==> Step(start, c, st, b) == st
    ensures b.at.day in c.sma ==> Step(start, c, st, b).prevDay == Some(b.at.day)
  {
  }

  /** The exits of a long bar: the stop (low at or below the hybrid stop)
      fills at the stop; otherwise, only at the first bar of a new date, a
      close below the SMA remembered from the day before fills at the open;
      otherwise the position is kept and its stop has not fallen. */
  lemma {:induction false} ExitRule(start: real, c: Ctx, st: St, b: Bar)
    requires PriorSma.Ok(start, st.sim) && b.open != 0.0 && st.sim.pos > 0.0 && b.at.day in c.sma && c.trailFrac <= 1.0
    ensures var r := Exits(start, c, st, b);
      var s := st.sim;
      var h := if b.high > s.highest then b.high else s.highest;
      var stop := ActiveStop(s.entry, h, c.fixedFrac, c.trailFrac);
      var n := |s.trades|;
      && (b.low <= stop ==>
            r.pos == 0.0 && |r.trades| == n + 1 && r.trades[n].exit.value.price == stop && r.trades[n].exit.value.reason == StopHit)
      && (!(b.low <= stop) && NewDay(st, b) && CrossedBelow(st) ==>
            r.pos == 0.0 && |r.trades| == n + 1 && r.trades[n].exit.value.price == b.open && r.trades[n].exit.value.reason == SmaExit)
      && (!(b.low <= stop) && !(NewDay(st, b) && CrossedBelow(st)) ==>
            r == s.(highest := h) && ActiveStop(s.entry, s.highest, c.fixedFrac, c.trailFrac) <= stop)
  {
    StopNeverDecreases(st.sim.entry, st.sim.highest, if b.high > st.sim.highest then b.high else st.sim.highest, c.fixedFrac, c.trailFrac);
  }

  /** The entry rule: a position opens only at the first bar of a new date,
      when flat after the exit block (so an SMA exit at the open and a new
      entry can share a bar), on a cross from below confirmed by the
      calendar day before yesterday; it buys at the open with all the
      capital. */
  lemma EntryRule(start: real, c: Ctx, st: St, b: Bar)
    requires PriorSma.Ok(start, st.sim) && b.open != 0.0 && b.at.day in c.sma
    ensures var r := Step(start, c, st, b);
      var afterExit := if st.sim.pos > 0.0 then Exits(start, c, st, b) else st.sim;
      && (afterExit.pos == 0.0 && NewDay(st, b) && CrossedAbove(c, st) ==>
            r.sim.entry == b.open && r.sim.entryAt == b.at && r.sim.cap == 0.0
            && r.sim.pos == Fills.SharesFor(afterExit.cap, b.open) && r.sim.trades == afterExit.trades)
      && (!(afterExit.pos == 0.0 && NewDay(st, b) && CrossedAbove(c, st)) ==> r.sim == afterExit)
  {
  }

  /** The remembered close is QQQ's close at the first processed bar of the
      last processed date (not that date's last close); the remembered SMA
      is that date's SMA. */
  lemma {:induction false} RememberedAtFirstBar(start: real, c: Ctx, bars: seq<Bar>)
    requires OpenDivisible(bars)
    ensures var st := Run(start, c, bars);
      st.prevDay.Some? ==>
        exists k ::
          && 0 <= k < |bars| && FirstOfDay(bars, k) && bars[k].at.day == st.prevDay.value
          && bars[k].at.day in c.sma
          && st.prevClose == Some(bars[k].signal) && st.prevSma == Some(c.sma[bars[k].at.day])
  {
    if bars != [] {
      var n := |bars|;
      var init := bars[..n - 1];
      var b := bars[n - 1];
      var pre := Run(start, c, init);
      var st := Run(start, c, bars);
      assert init == bars[..n - 1];
      RememberedAtFirstBar(start, c, init);
      if b.at.day !in c.sma || pre.prevDay == Some(b.at.day) {
        if st.prevDay.Some? {
          var k :| && 0 <= k < |init| && FirstOfDay(init, k) && init[k].at.day == pre.prevDay.value
                   && init[k].at.day in c.sma
                   && pre.prevClose == Some(init[k].signal) && pre.prevSma == Some(c.sma[init[k].at.day]);
          assert bars[k] == init[k] && (k > 0 ==> bars[k - 1] == init[k - 1]);
          assert FirstOfDay(bars, k);
        }
      } else {
        assert FirstOfDay(bars, n - 1);
      }
    }
  }

  /** With positive prices and capital the position is never negative. */
  predicate Sane(s: PriorSma.Sim)
  {
    s.pos >= 0.0 && s.cap >= 0.0 && (s.pos > 0.0 ==> s.entry > 0.0)
  }

  lemma StepSane(start: real, c: Ctx, st: St, b: Bar)
    requires PriorSma.Ok(start, st.sim) && Sane(st.sim) && b.open > 0.0 && b.close > 0.0 && b.low > 0.0
    ensures Sane(Step(start, c, st, b).sim)
  {
    if b.at.day in c.sma {
      var afterExit := if st.sim.pos > 0.0 then Exits(start, c, st, b) else st.sim;
      if st.sim.pos > 0.0 {
        var s := st.sim;
        var h := if b.high > s.highest then b.high else s.highest;
        var stop := ActiveStop(s.entry, h, c.fixedFrac, c.trailFrac);
        if b.low <= stop {
          assert Fills.Value(s.pos, stop) >= 0.0;
        } else if NewDay(st, b) && CrossedBelow(st) {
          assert Fills.Value(s.pos, b.open) >= 0.0;
        }
      }
      assert Sane(afterExit);
      if afterExit.pos == 0.0 && NewDay(st, b) && CrossedAbove(c, st) {
        assert Fills.SharesFor(afterExit.cap, b.open) >= 0.0;
      }
    }
  }

  lemma {:induction false} RunSane(start: real, c: Ctx, bars: seq<Bar>)
    requires OpenDivisible(bars) && PositivePrices(bars) && start >= 0.0
    ensures Sane(Run(start, c, bars).sim)
  {
    if bars != [] {
      var p := bars[..|bars| - 1];
      RunSane(start, c, p);
      StepSane(start, c, Run(start, c, p), bars[|bars| - 1]);
    }
  }

  /** After the closing block nothing is held. */
  lemma FinalFlat(c: Ctx, common: seq<Bar>)
    requires OpenDivisible(common) && PositivePrices(common)
    ensures Simulation(StartingCap, c, common).pos == 0.0
  {
    if common != [] {
      RunSane(StartingCap, c, common);
      assert Sane(Run(StartingCap, c, common).sim);
    }
  }

  /** The final capital is the starting capital plus the trades' pnl and
      the starting capital times their compounded growth, so
      `ret = 100 * (growth - 1)`. */
  lemma FinalCapital(c: Ctx, common: seq<Bar>)
    requires OpenDivisible(common) && PositivePrices(common)
    ensures var s := Simulation(StartingCap, c, common);
      && PriorSma.Settled(StartingCap, s)
      && PriorSmaScripts.Ret(s.cap) == 100.0 * (Position.Growth(s.trades) - 1.0)
  {
    FinalFlat(c, common);
  }
}
