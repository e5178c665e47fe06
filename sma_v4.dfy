// sma50_v4: SMA exits come from the daily series. A date whose close falls
// to or below its SMA after the previous SMA date closed above it is a
// cross-down; the first trading date after it exits at the close of its
// first held bar. Entries are the intraday cross against the latest earlier
// SMA, and the T+1 cooldown applies only after stop exits.
module SmaV4 {
  import Fills
  import opened Core
  import opened Calendar
  import opened Stops
  import opened Ledger
  import opened DailySma
  import opened Position

  const FixedStopPct: real := 0.075
  const TrailingStopPct: real := 0.15
  const StartingCapital: real := 10000.0
  const SmaPeriod: nat := 50

  // ---- the daily schedule (lines 45-60) ----

  /** daily_above[d]: the daily close above that day's SMA. */
  predicate DailyAbove(sma: map<int, real>, closes: map<int, real>, d: int)
  {
    d in sma && d in closes && closes[d] > sma[d]
  }

  /** cross_down_dates after the loop has looked at the first n of the
      sorted SMA dates. */
  function CrossDownsUpTo(dates: seq<int>, sma: map<int, real>, closes: map<int, real>, n: nat): set<int>
    requires n <= |dates|
  {
    if n <= 1 then {}
    else
      CrossDownsUpTo(dates, sma, closes, n - 1)
      + (if DailyAbove(sma, closes, dates[n - 2]) && !DailyAbove(sma, closes, dates[n - 1]) then {dates[n - 1]} else {})
  }

  /** Lines 48-52. */
  method CrossDowns(sortedDaily: seq<int>, sma: map<int, real>, closes: map<int, real>) returns (crossDownDates: set<int>)
    ensures crossDownDates == CrossDownsUpTo(sortedDaily, sma, closes, |sortedDaily|)
  {
    crossDownDates := {};
    var i := 1;
    while i < |sortedDaily|
      invariant 1 <= i <= |sortedDaily| || (|sortedDaily| == 0 && i == 1)
      invariant crossDownDates == CrossDownsUpTo(sortedDaily, sma, closes, if |sortedDaily| == 0 then 0 else i)
    {
      var prevD, currD := sortedDaily[i - 1], sortedDaily[i];
      if DailyAbove(sma, closes, prevD) && !DailyAbove(sma, closes, currD) {
        crossDownDates := crossDownDates + {currD};
      }
      i := i + 1;
    }
  }

  /** A date is a cross-down exactly when it follows, in the sorted SMA
      dates, a date that closed above its SMA, and itself does not. */
  lemma {:induction false} CrossDownMeaning(dates: seq<int>, sma: map<int, real>, closes: map<int, real>, n: nat, d: int)
    requires n <= |dates|
    ensures d in CrossDownsUpTo(dates, sma, closes, n) <==>
      exists i :: 1 <= i < n && dates[i] == d && DailyAbove(sma, closes, dates[i - 1]) && !DailyAbove(sma, closes, dates[i])
  {
    if n > 1 {
      CrossDownMeaning(dates, sma, closes, n - 1, d);
      var i := n - 1;
      if d == dates[i] && DailyAbove(sma, closes, dates[i - 1]) && !DailyAbove(sma, closes, dates[i]) {
        assert d in CrossDownsUpTo(dates, sma, closes, n);
      }
    }
  }

  /** `[td for td in trading_dates_set if td > d]`, first element. */
  function FirstAfter(days: seq<int>, d: int): (r: Option<int>)
    ensures r.None? <==> forall j :: 0 <= j < |days| ==> days[j] <= d
    ensures r.Some? ==> exists k :: 0 <= k < |days| && days[k] == r.value && d < r.value && forall j :: 0 <= j < k ==> days[j] <= d
  {
    if days == [] then None
    else if days[0] > d then Some(days[0])
    else
      var r := FirstAfter(days[1..], d);
      if r.Some? then
        var k :| 0 <= k < |days[1..]| && days[1..][k] == r.value && d < r.value && forall j :: 0 <= j < k ==> days[1..][j] <= d;
        assert days[k + 1] == r.value;
        r
      else r
  }

  /** On sorted trading dates the first later date is the next trading date:
      no trading date lies strictly between. */
  lemma FirstAfterIsNext(days: seq<int>, d: int, e: int)
    requires forall a, b :: 0 <= a < b < |days| ==> days[a] < days[b]
    requires FirstAfter(days, d).Some? && e in days && d < e
    ensures FirstAfter(days, d).value <= e
  {
    var r := FirstAfter(days, d).value;
    var k :| 0 <= k < |days| && days[k] == r && d < r && forall j :: 0 <= j < k ==> days[j] <= d;
    var m :| 0 <= m < |days| && days[m] == e;
    assert k <= m;
  }

  /** sma_exit_dates: each cross-down mapped to the first later trading date. */
  function ExitDates(crossDowns: set<int>, days: seq<int>): set<int>
  {
    set d | d in crossDowns && FirstAfter(days, d).Some? :: FirstAfter(days, d).value
  }

  /** Lines 56-60, over the set of cross-down dates in any order. */
  method MapExitDates(crossDownDates: set<int>, tradingDates: seq<int>) returns (smaExitDates: set<int>)
    ensures smaExitDates == ExitDates(crossDownDates, tradingDates)
  {
    smaExitDates := {};
    var todo := crossDownDates;
    while todo != {}
      invariant todo <= crossDownDates
      invariant smaExitDates == ExitDates(crossDownDates - todo, tradingDates)
      decreases |todo|
    {
      Inhabited(todo);
      var d :| d in todo;
      var nextDay := FirstAfter(tradingDates, d);
      if nextDay.Some? {
        smaExitDates := smaExitDates + {nextDay.value};
      }
      todo := todo - {d};
      assert ExitDates(crossDownDates - todo, tradingDates)
        == ExitDates(crossDownDates - (todo + {d}), tradingDates) + (if nextDay.Some? then {nextDay.value} else {});
    }
  }

  // ---- the simulation (lines 83-163) ----

  /** sma_by_date and sma_exit_dates. */
  datatype Context = Context(sma: map<int, real>, exitDates: set<int>)

  /** The book plus last_stop_exit_date, prev_above_sma and the date whose
      SMA exit was done (sma_exit_done is that date being today's). */
  datatype State = State(book: Book, lastStop: Option<int>, prev: Option<bool>, exitDoneOn: Option<int>)

  predicate Ok(start: real, s: State)
  {
    Valid(start, s.book)
  }

  /** Lines 115-146: raise the high; on an SMA-exit date the first held bar
      exits at its close before any stop check, otherwise the stop fills at
      the active stop. */
  function CheckExit(start: real, ctx: Context, s: State, b: Bar): (r: State)
    requires Ok(start, s) && s.book.holding
    ensures Ok(start, r) && r.prev == s.prev
  {
    var raised := Raise(s.book, b.high);
    Reframe(start, s.book, raised);
    var d := b.at.day;
    var stop := StopOf(raised, FixedStopPct, TrailingStopPct);
    if d in ctx.exitDates && s.exitDoneOn != Some(d) then
      s.(book := Sell(start, raised, b.at, b.close, SmaExit), exitDoneOn := Some(d))
    else if b.low <= stop then
      s.(book := Sell(start, raised, b.at, stop, StopHit), lastStop := Some(d))
    else s.(book := raised)
  }

  /** One pass of the inner loop over a bar of a date with an earlier SMA
      date; bars of dates without one are skipped (lines 89-92). */
  function Step(start: real, ctx: Context, s: State, b: Bar): (r: State)
    requires Ok(start, s) && b.close != 0.0
    ensures Ok(start, r)
  {
    match RefSma(ctx.sma, b.at.day)
    case None => s
    case Some(smaVal) =>
      var above := b.signal > smaVal;
      if s.prev.None? then s.(prev := Some(above))
      else if s.book.holding then CheckExit(start, ctx, s, b).(prev := Some(above))
      else if !s.prev.value && above then
        if s.lastStop == Some(b.at.day) then s.(prev := Some(above))
        else s.(book := Buy(start, s.book, b.at, b.close, b.high), prev := Some(above))
      else s.(prev := Some(above))
  }

  function Run(start: real, ctx: Context, bars: seq<Bar>): (s: State)
    requires CloseDivisible(bars)
    ensures Ok(start, s)
  {
    if bars == [] then State(Fresh(start), None, None, None)
    else Step(start, ctx, Run(start, ctx, bars[..|bars| - 1]), bars[|bars| - 1])
  }

  /** The simulated bars: the joined market-hours bars of the trading dates
      from 2021-01-05 to 2026-02-07 (lines 80-81). */
  function Window(bars: seq<Bar>): (w: seq<Bar>)
    ensures forall i :: 0 <= i < |w| ==> w[i] in bars && WindowFirstDay <= w[i].at.day <= WindowLastDay && InMarketHours(w[i].at)
  {
    var m := MarketHours(bars);
    var w := DateWindow(m, Some(WindowFirstDay), Some(WindowLastDay));
    assert forall i :: 0 <= i < |w| ==> w[i] in m;
    w
  }

  function ContextOf(rows: seq<DailyBar>, tradingDates: seq<int>): Context
  {
    var dates := ValidDaysUpTo(rows, SmaPeriod, |rows|);
    var sma := SmaTable(rows, SmaPeriod);
    Context(sma, ExitDates(CrossDownsUpTo(dates, sma, CloseTable(rows, SmaPeriod), |dates|), tradingDates))
  }

  /** The whole script as a value. `tradingDates` is the sorted list of the
      trade series' dates; a position still open at the end is closed at the
      last close as "OPEN" (lines 166-173). */
  function Backtest(rows: seq<DailyBar>, tradingDates: seq<int>, bars: seq<Bar>, lastAt: Stamp, lastClose: real): (r: Book)
    requires CloseDivisible(bars)
    ensures OnlyLastOpen(r.trades) && !LastOpen(r.trades)
    ensures r.capital == StartingCapital + ClosedPnl(r.trades)
  {
    WindowDivisible(bars);
    Settle(StartingCapital, Run(StartingCapital, ContextOf(rows, tradingDates), Window(bars)).book, lastAt, lastClose)
  }

  lemma WindowDivisible(bars: seq<Bar>)
    requires CloseDivisible(bars)
    ensures CloseDivisible(Window(bars))
  {
    var w := Window(bars);
    forall i | 0 <= i < |w| ensures NonZeroClose(w[i]) {
      assert w[i] in bars;
    }
  }

  /** Lines 115-146 over one held bar. */
  method CheckExits(start: real, ctx: Context, s: State, b: Bar) returns (r: State)
    requires Ok(start, s) && s.book.holding
    ensures r == CheckExit(start, ctx, s, b)
  {
    var d := b.at.day;
    var smaExitToday := d in ctx.exitDates;
    var smaExitDone := s.exitDoneOn == Some(d);
    var book := s.book;
    var highest := book.highest;
    if b.high > highest {
      highest := b.high;
    }
    var activeStop := ActiveStop(book.entry, highest, FixedStopPct, TrailingStopPct);
    book := book.(highest := highest);
    Reframe(start, s.book, book);
    r := s.(book := book);
    if smaExitToday && !smaExitDone {
      book := CloseAll(start, book, b.at, b.close, SmaExit);
      r := r.(book := book, exitDoneOn := Some(d));
    } else if b.low <= activeStop {
      book := CloseAll(start, book, b.at, activeStop, StopHit);
      r := r.(book := book, lastStop := Some(d));
    }
  }

  /** The inner loop's body over one bar. */
  method ProcessBar(start: real, ctx: Context, s: State, b: Bar) returns (r: State)
    requires Ok(start, s) && b.close != 0.0
    ensures r == Step(start, ctx, s, b)
  {
    var sma := RefSma(ctx.sma, b.at.day);
    if sma.None? {
      return s;
    }
    var aboveSma := b.signal > sma.value;
    if s.prev.None? {
      return s.(prev := Some(aboveSma));
    }
    r := s;
    if r.book.holding {
      r := CheckExits(start, ctx, r, b);
    } else if !r.prev.value && aboveSma {
      if r.lastStop == Some(b.at.day) {
        // T+1 for stop exits only
        return r.(prev := Some(aboveSma));
      }
      var book := OpenAll(start, r.book, b.at, b.close, b.high);
      r := r.(book := book);
    }
    r := r.(prev := Some(aboveSma));
  }

  method Simulate(start: real, ctx: Context, bars: seq<Bar>) returns (st: State)
    requires CloseDivisible(bars)
    ensures st == Run(start, ctx, bars)
  {
    st := State(Fresh(start), None, None, None);
    var i := 0;
    while i < |bars|
      invariant 0 <= i <= |bars|
      invariant st == Run(start, ctx, bars[..i])
    {
      assert bars[..i + 1][..i] == bars[..i];
      st := ProcessBar(start, ctx, st, bars[i]);
      i := i + 1;
    }
    assert bars[..i] == bars;
  }

  /** The script: the tables, the exit schedule, the loop over the window and
      the final close of an open position. */
  method RunV4(rows: seq<DailyBar>, tradingDates: seq<int>, bars: seq<Bar>, lastAt: Stamp, lastClose: real) returns (trades: seq<Trade>, capital: real)
    requires CloseDivisible(bars)
    ensures trades == Backtest(rows, tradingDates, bars, lastAt, lastClose).trades
    ensures capital == Backtest(rows, tradingDates, bars, lastAt, lastClose).capital
  {
    var smaByDate, closeByDate, sortedDaily, _ := BuildV6Tables(rows, SmaPeriod);
    var crossDownDates := CrossDowns(sortedDaily, smaByDate, closeByDate);
    var smaExitDates := MapExitDates(crossDownDates, tradingDates);
    var ctx := Context(smaByDate, smaExitDates);
    assert ctx == ContextOf(rows, tradingDates);
    WindowDivisible(bars);
    var st := Simulate(StartingCapital, ctx, Window(bars));
    var book := st.book;
    if book.holding && book.trades[|book.trades| - 1].exit.None? {
      book := CloseAll(StartingCapital, book, lastAt, lastClose, OpenAtEnd);
    }
    trades, capital := book.trades, book.capital;
  }

  // ---- what the script promises ----

  /** Lines 127-134: on an SMA-exit date whose exit is not yet done, a held
      bar exits at its close as "SMA EXIT" whatever the stop says, and the
      exit is then done for that date; otherwise the stop fills at the
      active stop; a done date never exits by SMA again. */
  lemma {:induction false} ExitRule(start: real, ctx: Context, s: State, b: Bar)
    requires Ok(start, s) && s.book.holding
    ensures var r := CheckExit(start, ctx, s, b);
      var d := b.at.day;
      var stop := StopOf(Raise(s.book, b.high), FixedStopPct, TrailingStopPct);
      var n := |s.book.trades|;
      && |r.book.trades| == n
      && (d in ctx.exitDates && s.exitDoneOn != Some(d) ==>
            !r.book.holding && r.exitDoneOn == Some(d) && r.lastStop == s.lastStop
            && r.book.trades[n - 1].exit == Some(Exit(b.at, b.close, PnlAt(s.book, b.close), SmaExit)))
      && (!(d in ctx.exitDates && s.exitDoneOn != Some(d)) ==>
            r.exitDoneOn == s.exitDoneOn
            && (r.book.holding <==> !(b.low <= stop))
            && (b.low <= stop ==>
                  && r.lastStop == Some(d)
                  && r.book.trades[n - 1].exit == Some(Exit(b.at, stop, PnlAt(s.book, stop), StopHit))))
  {
  }

  /** Lines 145-152: only a stop blocks a same-day re-entry. From flat, a
      bullish cross enters exactly when the date had no stop exit. */
  lemma {:induction false} StopOnlyCooldown(start: real, ctx: Context, s: State, b: Bar)
    requires Ok(start, s) && b.close != 0.0 && !s.book.holding && s.prev == Some(false)
    requires RefSma(ctx.sma, b.at.day).Some? && b.signal > RefSma(ctx.sma, b.at.day).value
    ensures Step(start, ctx, s, b).book.holding <==> s.lastStop != Some(b.at.day)
  {
  }

  /** The stop-only T+1 bookkeeping the loop keeps. */
  predicate Cooldown(s: State)
  {
    NoSameDayReentry(s.book.trades, {StopHit}) && ExitDayTracked(s.lastStop, s.book.trades, {StopHit})
  }

  /** No trade opens on the date its predecessor was stopped out. */
  lemma {:induction false} RunNoReentryAfterStop(start: real, ctx: Context, bars: seq<Bar>)
    requires CloseDivisible(bars)
    ensures Cooldown(Run(start, ctx, bars))
    ensures NoSameDayReentry(Run(start, ctx, bars).book.trades, {StopHit})
  {
    if bars != [] {
      RunNoReentryAfterStop(start, ctx, bars[..|bars| - 1]);
      StepCooldown(start, ctx, Run(start, ctx, bars[..|bars| - 1]), bars[|bars| - 1]);
    }
  }

  lemma {:induction false} StepCooldown(start: real, ctx: Context, s: State, b: Bar)
    requires Ok(start, s) && b.close != 0.0 && Cooldown(s)
    ensures Cooldown(Step(start, ctx, s, b))
  {
    var d := b.at.day;
    var ref := RefSma(ctx.sma, d);
    if ref.Some? && s.prev.Some? {
      var above := b.signal > ref.value;
      if s.book.holding {
        var raised := Raise(s.book, b.high);
        Reframe(start, s.book, raised);
        var stop := StopOf(raised, FixedStopPct, TrailingStopPct);
        if d in ctx.exitDates && s.exitDoneOn != Some(d) {
          CloseLastKeepsReentryRule(raised.trades, {StopHit}, s.lastStop, Exit(b.at, b.close, PnlAt(raised, b.close), SmaExit));
        } else if b.low <= stop {
          CloseLastKeepsReentryRule(raised.trades, {StopHit}, Some(d), Exit(b.at, stop, PnlAt(raised, stop), StopHit));
        }
      } else if !s.prev.value && above && s.lastStop != Some(d) {
        AppendKeepsReentryRule(s.book.trades, {StopHit}, s.lastStop, b.at, b.close, Fills.SharesFor(s.book.capital, b.close));
      }
    }
  }

  /** Lines 89-94, 110-112: a bar of a date without an earlier SMA date is
      skipped, and the first usable bar only seeds prev_above_sma. */
  lemma SkipAndSeed(start: real, ctx: Context, s: State, b: Bar)
    requires Ok(start, s) && b.close != 0.0
    ensures (forall k :: k in ctx.sma ==> b.at.day <= k) ==> Step(start, ctx, s, b) == s
    ensures RefSma(ctx.sma, b.at.day).Some? && s.prev.None? ==>
      Step(start, ctx, s, b) == s.(prev := Some(b.signal > RefSma(ctx.sma, b.at.day).value))
  {
  }
}
