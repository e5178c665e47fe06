// sma50_v2: the daily series decides everything. A date closing above its
// SMA after an SMA date that did not is an 'up' cross event, the reverse a
// 'down' event; each event schedules an entry or an SMA exit on the first
// windowed trading date after it. Intraday bars only run the stop and carry
// out the scheduled actions.
module SmaV2 {
  import Fills
  import SmaV4
  import opened Core
  import opened Calendar
  import opened Stops
  import opened Ledger
  import opened DailySma
  import opened Position

  const FixedStopPct: real := 0.075
  const TrailingStopPct: real := 0.15
  const StartingCapital: real := 10000.0
  const SmaPeriod: nat := 50

  // ---- cross events (lines 27-43) ----

  datatype Cross = Up | Down

  /** cross_events after the loop has looked at the first n of the sorted
      SMA dates. */
  function EventsUpTo(dates: seq<int>, sma: map<int, real>, closes: map<int, real>, n: nat): map<int, Cross>
    requires n <= |dates|
  {
    if n <= 1 then map[]
    else
      var m := EventsUpTo(dates, sma, closes, n - 1);
      var prevD, currD := dates[n - 2], dates[n - 1];
      if !SmaV4.DailyAbove(sma, closes, prevD) && SmaV4.DailyAbove(sma, closes, currD) then m[currD := Up]
      else if SmaV4.DailyAbove(sma, closes, prevD) && !SmaV4.DailyAbove(sma, closes, currD) then m[currD := Down]
      else m
  }

  /** Lines 36-43. */
  method CrossEvents(sortedDates: seq<int>, sma: map<int, real>, closes: map<int, real>) returns (crossEvents: map<int, Cross>)
    ensures crossEvents == EventsUpTo(sortedDates, sma, closes, |sortedDates|)
  {
    crossEvents := map[];
    var i := 1;
    while i < |sortedDates|
      invariant 1 <= i <= |sortedDates| || (|sortedDates| == 0 && i == 1)
      invariant crossEvents == EventsUpTo(sortedDates, sma, closes, if |sortedDates| == 0 then 0 else i)
    {
      var prevD, currD := sortedDates[i - 1], sortedDates[i];
      if !SmaV4.DailyAbove(sma, closes, prevD) && SmaV4.DailyAbove(sma, closes, currD) {
        crossEvents := crossEvents[currD := Up];
      } else if SmaV4.DailyAbove(sma, closes, prevD) && !SmaV4.DailyAbove(sma, closes, currD) {
        crossEvents := crossEvents[currD := Down];
      }
      i := i + 1;
    }
  }

  /** A date is an event exactly when its side of the SMA differs from the
      previous SMA date's, and the event is 'up' exactly when the date closes
      above. */
  lemma {:induction false} EventMeaning(dates: seq<int>, sma: map<int, real>, closes: map<int, real>, n: nat, d: int)
    requires n <= |dates|
    ensures d in EventsUpTo(dates, sma, closes, n) <==>
      exists i :: 1 <= i < n && dates[i] == d && SmaV4.DailyAbove(sma, closes, dates[i - 1]) != SmaV4.DailyAbove(sma, closes, dates[i])
    ensures d in EventsUpTo(dates, sma, closes, n) ==>
      EventsUpTo(dates, sma, closes, n)[d] == (if SmaV4.DailyAbove(sma, closes, d) then Up else Down)
  {
    if n > 1 {
      EventMeaning(dates, sma, closes, n - 1, d);
      var i := n - 1;
      if d == dates[i] && SmaV4.DailyAbove(sma, closes, dates[i - 1]) != SmaV4.DailyAbove(sma, closes, dates[i]) {
        assert d in EventsUpTo(dates, sma, closes, n);
      }
    }
  }

  // ---- the schedule (lines 70-83) ----

  /** Line 71: the trading dates from 2021-01-05 to 2026-02-07. */
  function WindowDays(days: seq<int>): (r: seq<int>)
    ensures forall x :: x in r <==> x in days && WindowFirstDay <= x <= WindowLastDay
    ensures (forall a, b :: 0 <= a < b < |days| ==> days[a] < days[b]) ==> forall a, b :: 0 <= a < b < |r| ==> r[a] < r[b]
  {
    if days == [] then []
    else
      var rest := WindowDays(days[1..]);
      assert forall x :: x in days[1..] ==> x in days;
      if WindowFirstDay <= days[0] <= WindowLastDay then
        if forall a, b :: 0 <= a < b < |days| ==> days[a] < days[b] then
          assert forall b :: 0 <= b < |rest| ==> days[0] < rest[b] by {
            forall b | 0 <= b < |rest| ensures days[0] < rest[b] {
              assert rest[b] in days[1..];
            }
          }
          [days[0]] + rest
        else [days[0]] + rest
      else rest
  }

  /** The dates the events of one kind among `keys` schedule their action
      on. */
  function ScheduledFrom(events: map<int, Cross>, keys: set<int>, days: seq<int>, kind: Cross): set<int>
  {
    set d | d in keys && d in events && events[d] == kind && SmaV4.FirstAfter(days, d).Some? :: SmaV4.FirstAfter(days, d).value
  }

  /** entry_dates (kind Up) and sma_exit_dates (kind Down). */
  function Scheduled(events: map<int, Cross>, days: seq<int>, kind: Cross): set<int>
  {
    ScheduledFrom(events, events.Keys, days, kind)
  }

  /** Lines 74-83, over the events in any order. */
  method BuildSchedule(crossEvents: map<int, Cross>, tradingDates: seq<int>) returns (entryDates: set<int>, smaExitDates: set<int>)
    ensures entryDates == Scheduled(crossEvents, tradingDates, Up)
    ensures smaExitDates == Scheduled(crossEvents, tradingDates, Down)
  {
    entryDates, smaExitDates := {}, {};
    var todo := crossEvents.Keys;
    ghost var done: set<int> := {};
    assert ScheduledFrom(crossEvents, done, tradingDates, Up) == {};
    assert ScheduledFrom(crossEvents, done, tradingDates, Down) == {};
    while todo != {}
      invariant todo <= crossEvents.Keys && done == crossEvents.Keys - todo
      invariant entryDates == ScheduledFrom(crossEvents, done, tradingDates, Up)
      invariant smaExitDates == ScheduledFrom(crossEvents, done, tradingDates, Down)
      decreases |todo|
    {
      Inhabited(todo);
      var d :| d in todo;
      entryDates, smaExitDates := ScheduleEvent(crossEvents, done, d, tradingDates, entryDates, smaExitDates);
      todo := todo - {d};
      done := done + {d};
    }
    assert done == crossEvents.Keys;
  }

  /** The loop body of lines 76-83 for the event on date d. */
  method ScheduleEvent(crossEvents: map<int, Cross>, ghost done: set<int>, d: int, tradingDates: seq<int>, entryDates: set<int>, smaExitDates: set<int>)
    returns (entries: set<int>, exits: set<int>)
    requires d in crossEvents
    requires entryDates == ScheduledFrom(crossEvents, done, tradingDates, Up)
    requires smaExitDates == ScheduledFrom(crossEvents, done, tradingDates, Down)
    ensures entries == ScheduledFrom(crossEvents, done + {d}, tradingDates, Up)
    ensures exits == ScheduledFrom(crossEvents, done + {d}, tradingDates, Down)
  {
    entries, exits := entryDates, smaExitDates;
    var nextDays := SmaV4.FirstAfter(tradingDates, d);
    if nextDays.Some? {
      if crossEvents[d] == Up {
        entries := entries + {nextDays.value};
      } else {
        exits := exits + {nextDays.value};
      }
    }
    AddKey(crossEvents, done, d, tradingDates, Up);
    AddKey(crossEvents, done, d, tradingDates, Down);
  }

  lemma AddKey(events: map<int, Cross>, keys: set<int>, d: int, days: seq<int>, kind: Cross)
    requires d in events
    ensures ScheduledFrom(events, keys + {d}, days, kind)
      == ScheduledFrom(events, keys, days, kind)
         + (if events[d] == kind && SmaV4.FirstAfter(days, d).Some? then {SmaV4.FirstAfter(days, d).value} else {})
  {
  }

  /** Each scheduled date is the next trading date after an event of its
      kind: it is a trading date later than the event, and no trading date
      lies strictly between. */
  lemma ScheduledOnNextDay(events: map<int, Cross>, days: seq<int>, kind: Cross, e: int)
    requires forall a, b :: 0 <= a < b < |days| ==> days[a] < days[b]
    requires e in Scheduled(events, days, kind)
    ensures exists c ::
      && c in events && events[c] == kind && c < e && e in days
      && forall t :: t in days && c < t ==> e <= t
  {
    var c :| c in events && events[c] == kind && SmaV4.FirstAfter(days, c).Some? && SmaV4.FirstAfter(days, c).value == e;
    forall t | t in days && c < t ensures e <= t {
      SmaV4.FirstAfterIsNext(days, c, t);
    }
  }

  // ---- the simulation (lines 104-161) ----

  /** entry_dates and sma_exit_dates. */
  datatype Context = Context(entryDates: set<int>, exitDates: set<int>)

  /** The book plus last_exit_date and the dates whose should_enter and
      should_exit_sma flags were already used up. */
  datatype State = State(book: Book, lastExit: Option<int>, enterDoneOn: Option<int>, exitDoneOn: Option<int>)

  predicate Ok(start: real, s: State)
  {
    Valid(start, s.book)
  }

  /** should_enter and should_exit_sma on the bar's date. */
  predicate ShouldEnter(ctx: Context, s: State, d: int)
  {
    d in ctx.entryDates && s.enterDoneOn != Some(d)
  }

  predicate ShouldExitSma(ctx: Context, s: State, d: int)
  {
    d in ctx.exitDates && s.exitDoneOn != Some(d)
  }

  /** Lines 118-147: raise the high; the stop fills at the active stop, else
      a pending SMA exit sells at the close and is used up; either exit
      cancels the date's entry. */
  function CheckExit(start: real, ctx: Context, s: State, b: Bar): (r: State)
    requires Ok(start, s) && s.book.holding
    ensures Ok(start, r)
  {
    var raised := Raise(s.book, b.high);
    Reframe(start, s.book, raised);
    var d := b.at.day;
    var stop := StopOf(raised, FixedStopPct, TrailingStopPct);
    if b.low <= stop then
      s.(book := Sell(start, raised, b.at, stop, StopHit), lastExit := Some(d), enterDoneOn := Some(d))
    else if ShouldExitSma(ctx, s, d) then
      s.(book := Sell(start, raised, b.at, b.close, SmaExit), lastExit := Some(d), enterDoneOn := Some(d), exitDoneOn := Some(d))
    else s.(book := raised)
  }

  /** One pass of the inner loop (lines 118-161). */
  function Step(start: real, ctx: Context, s: State, b: Bar): (r: State)
    requires Ok(start, s) && b.close != 0.0
    ensures Ok(start, r)
  {
    var d := b.at.day;
    if s.book.holding then CheckExit(start, ctx, s, b)
    else if ShouldEnter(ctx, s, d) then
      if s.lastExit == Some(d) then s
      else s.(book := Buy(start, s.book, b.at, b.close, b.high), enterDoneOn := Some(d))
    else s
  }

  function Run(start: real, ctx: Context, bars: seq<Bar>): (s: State)
    requires CloseDivisible(bars)
    ensures Ok(start, s)
  {
    if bars == [] then State(Fresh(start), None, None, None)
    else Step(start, ctx, Run(start, ctx, bars[..|bars| - 1]), bars[|bars| - 1])
  }

  /** `days` is `sorted(grouped.keys())` (line 70): the sorted dates of the
      TQQQ bars. It is a parameter here and is not derived from `bars`. */
  function ContextOf(rows: seq<DailyBar>, days: seq<int>): Context
  {
    var dates := ValidDaysUpTo(rows, SmaPeriod, |rows|);
    var events := EventsUpTo(dates, SmaTable(rows, SmaPeriod), CloseTable(rows, SmaPeriod), |dates|);
    var tradingDates := WindowDays(days);
    Context(Scheduled(events, tradingDates, Up), Scheduled(events, tradingDates, Down))
  }

  /** The whole script as a value; a position still open at the end is
      closed at the last close as "OPEN" (lines 164-171). */
  function Backtest(rows: seq<DailyBar>, days: seq<int>, bars: seq<Bar>, lastAt: Stamp, lastClose: real): (r: Book)
    requires CloseDivisible(bars)
    ensures OnlyLastOpen(r.trades) && !LastOpen(r.trades)
    ensures r.capital == StartingCapital + ClosedPnl(r.trades)
  {
    SmaV4.WindowDivisible(bars);
    Settle(StartingCapital, Run(StartingCapital, ContextOf(rows, days), SmaV4.Window(bars)).book, lastAt, lastClose)
  }

  /** Lines 118-147 over one held bar. */
  method CheckExits(start: real, ctx: Context, s: State, b: Bar) returns (r: State)
    requires Ok(start, s) && s.book.holding
    ensures r == CheckExit(start, ctx, s, b)
  {
    var d := b.at.day;
    var book := s.book;
    var highest := book.highest;
    if b.high > highest {
      highest := b.high;
    }
    var activeStop := ActiveStop(book.entry, highest, FixedStopPct, TrailingStopPct);
    book := book.(highest := highest);
    Reframe(start, s.book, book);
    r := s.(book := book);
    if b.low <= activeStop {
      book := CloseAll(start, book, b.at, activeStop, StopHit);
      r := r.(book := book, lastExit := Some(d), enterDoneOn := Some(d));
    } else if d in ctx.exitDates && s.exitDoneOn != Some(d) {
      book := CloseAll(start, book, b.at, b.close, SmaExit);
      r := r.(book := book, lastExit := Some(d), enterDoneOn := Some(d), exitDoneOn := Some(d));
    }
  }

  method ProcessBar(start: real, ctx: Context, s: State, b: Bar) returns (r: State)
    requires Ok(start, s) && b.close != 0.0
    ensures r == Step(start, ctx, s, b)
  {
    r := s;
    var d := b.at.day;
    if r.book.holding {
      r := CheckExits(start, ctx, r, b);
    } else if d in ctx.entryDates && r.enterDoneOn != Some(d) {
      if r.lastExit == Some(d) {
        return;  // T+1
      }
      var book := OpenAll(start, r.book, b.at, b.close, b.high);
      r := r.(book := book, enterDoneOn := Some(d));
    }
  }

  method Simulate(start: real, ctx: Context, bars: seq<Bar>) returns (st: State)
    requires CloseDivisible(bars)
    ensures st == Run(start, ctx, bars)
  {
    st := State(Fresh(start), None, None, None);
    var i := 0;
    while i < |bars|
      invariant 0 <= i <= |bars|
      invariant st == Run(start, ctx, bars[..i])
    {
      assert bars[..i + 1][..i] == bars[..i];
      st := ProcessBar(start, ctx, st, bars[i]);
      i := i + 1;
    }
    assert bars[..i] == bars;
  }

  /** The script: the SMA tables, the cross events, the schedule, the loop
      over the window and the final close of an open position. */
  method RunV2(rows: seq<DailyBar>, days: seq<int>, bars: seq<Bar>, lastAt: Stamp, lastClose: real) returns (trades: seq<Trade>, capital: real)
    requires CloseDivisible(bars)
    ensures trades == Backtest(rows, days, bars, lastAt, lastClose).trades
    ensures capital == Backtest(rows, days, bars, lastAt, lastClose).capital
  {
    var smaByDate, closeByDate, sortedDates, _ := BuildV6Tables(rows, SmaPeriod);
    var crossEvents := CrossEvents(sortedDates, smaByDate, closeByDate);
    var tradingDates := WindowDays(days);
    var entryDates, smaExitDates := BuildSchedule(crossEvents, tradingDates);
    var ctx := Context(entryDates, smaExitDates);
    assert ctx == ContextOf(rows, days);
    SmaV4.WindowDivisible(bars);
    var st := Simulate(StartingCapital, ctx, SmaV4.Window(bars));
    var book := st.book;
    if book.holding && book.trades[|book.trades| - 1].exit.None? {
      book := CloseAll(StartingCapital, book, lastAt, lastClose, OpenAtEnd);
    }
    trades, capital := book.trades, book.capital;
  }

  // ---- what the script promises ----

  /** Lines 129-135: the stop beats a scheduled SMA exit and fills at the
      active stop; otherwise a scheduled, unused SMA exit sells at the close
      and is used up; either exit records the date and cancels the date's
      entry. */
  lemma {:induction false} ExitRule(start: real, ctx: Context, s: State, b: Bar)
    requires Ok(start, s) && s.book.holding
    ensures var r := CheckExit(start, ctx, s, b);
      var d := b.at.day;
      var stop := StopOf(Raise(s.book, b.high), FixedStopPct, TrailingStopPct);
      var n := |s.book.trades|;
      && |r.book.trades| == n
      && (b.low <= stop ==>
            && !r.book.holding && r.lastExit == Some(d) && r.enterDoneOn == Some(d) && r.exitDoneOn == s.exitDoneOn
            && r.book.trades[n - 1].exit == Some(Exit(b.at, stop, PnlAt(s.book, stop), StopHit)))
      && (!(b.low <= stop) && ShouldExitSma(ctx, s, d) ==>
            && !r.book.holding && r.lastExit == Some(d) && r.enterDoneOn == Some(d) && r.exitDoneOn == Some(d)
            && r.book.trades[n - 1].exit == Some(Exit(b.at, b.close, PnlAt(s.book, b.close), SmaExit)))
      && (!(b.low <= stop) && !ShouldExitSma(ctx, s, d) ==> r == s.(book := Raise(s.book, b.high)))
  {
  }

  /** Lines 149-161: a flat bar enters at its close exactly when its date is
      scheduled, its entry is not used up and the date had no exit; the
      entry is then used up, so it fires at most once per date. */
  lemma {:induction false} EntryRule(start: real, ctx: Context, s: State, b: Bar)
    requires Ok(start, s) && b.close != 0.0 && !s.book.holding
    ensures var r := Step(start, ctx, s, b);
      && (r.book.holding <==> ShouldEnter(ctx, s, b.at.day) && s.lastExit != Some(b.at.day))
      && (r.book.holding ==>
            && r.enterDoneOn == Some(b.at.day) && !ShouldEnter(ctx, r, b.at.day)
            && r.book.trades == Append(s.book.trades, b.at, b.close, Fills.SharesFor(s.book.capital, b.close)))
      && (!r.book.holding ==> r == s)
  {
  }

  /** Every trade opens on a scheduled entry date, and every SMA exit is on
      a scheduled exit date. */
  predicate OnSchedule(ctx: Context, trades: seq<Trade>)
  {
    forall i :: 0 <= i < |trades| ==>
      && trades[i].entryAt.day in ctx.entryDates
      && (trades[i].exit.Some? && trades[i].exit.value.reason == SmaExit ==> trades[i].exit.value.at.day in ctx.exitDates)
  }

  /** The T+1 bookkeeping and the schedule the loop keeps. */
  predicate Keeps(ctx: Context, s: State)
  {
    NoSameDayReentry(s.book.trades, AnyExit) && ExitDayTracked(s.lastExit, s.book.trades, AnyExit)
    && OnSchedule(ctx, s.book.trades)
  }

  /** Over a whole run: no trade opens on the date its predecessor closed,
      every trade opens on a date an 'up' event scheduled, and every SMA
      exit happens on a date a 'down' event scheduled. */
  lemma {:induction false} RunKeepsSchedule(start: real, ctx: Context, bars: seq<Bar>)
    requires CloseDivisible(bars)
    ensures Keeps(ctx, Run(start, ctx, bars))
    ensures NoSameDayReentry(Run(start, ctx, bars).book.trades, AnyExit)
    ensures OnSchedule(ctx, Run(start, ctx, bars).book.trades)
  {
    if bars != [] {
      RunKeepsSchedule(start, ctx, bars[..|bars| - 1]);
      StepKeeps(start, ctx, Run(start, ctx, bars[..|bars| - 1]), bars[|bars| - 1]);
    }
  }

  lemma {:induction false} StepKeeps(start: real, ctx: Context, s: State, b: Bar)
    requires Ok(start, s) && b.close != 0.0 && Keeps(ctx, s)
    ensures Keeps(ctx, Step(start, ctx, s, b))
  {
    var d := b.at.day;
    var r := Step(start, ctx, s, b);
    if s.book.holding {
      var raised := Raise(s.book, b.high);
      Reframe(start, s.book, raised);
      var stop := StopOf(raised, FixedStopPct, TrailingStopPct);
      if b.low <= stop {
        var e := Exit(b.at, stop, PnlAt(raised, stop), StopHit);
        CloseLastKeepsReentryRule(raised.trades, AnyExit, Some(d), e);
        CloseLastOnSchedule(ctx, raised.trades, e);
      } else if ShouldExitSma(ctx, s, d) {
        var e := Exit(b.at, b.close, PnlAt(raised, b.close), SmaExit);
        CloseLastKeepsReentryRule(raised.trades, AnyExit, Some(d), e);
        CloseLastOnSchedule(ctx, raised.trades, e);
      }
    } else if ShouldEnter(ctx, s, d) && s.lastExit != Some(d) {
      var shares := Fills.SharesFor(s.book.capital, b.close);
      AppendKeepsReentryRule(s.book.trades, AnyExit, s.lastExit, b.at, b.close, shares);
      assert OnSchedule(ctx, Append(s.book.trades, b.at, b.close, shares)) by {
        var t := Append(s.book.trades, b.at, b.close, shares);
        forall i | 0 <= i < |t| - 1 ensures t[i] == s.book.trades[i] {
          assert t[..|s.book.trades|] == s.book.trades;
        }
      }
    }
  }

  lemma CloseLastOnSchedule(ctx: Context, trades: seq<Trade>, e: Exit)
    requires |trades| > 0 && OnSchedule(ctx, trades)
    requires e.reason == SmaExit ==> e.at.day in ctx.exitDates
    ensures OnSchedule(ctx, CloseLast(trades, e))
  {
    var t := CloseLast(trades, e);
    forall i | 0 <= i < |t| - 1 ensures t[i] == trades[i] {
      assert t[..|trades| - 1] == trades[..|trades| - 1];
    }
  }
}
