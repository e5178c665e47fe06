// sma50_v6: the v3 loop against the SMA of the immediately preceding
// SMA-valid daily row, plus an end-of-day check: holding at a session's last
// bar with the daily close at or below that day's SMA latches an exit that
// the next session's first bar carries out at its close.
module SmaV6 {
  import opened Core
  import Fills
  import opened Stops
  import opened Ledger
  import opened DailySma
  import opened Position

  const FixedStopPct: real := 0.075
  const TrailingStopPct: real := 0.15
  const StartingCapital: real := 10000.0
  const SmaPeriod: nat := 50

  /** prev_sma_by_date, sma_by_date, daily_close_by_date and the first and
      last bar of each date. */
  datatype Context = Context(prev: map<int, real>, sma: map<int, real>, closes: map<int, real>,
                             first: map<int, Stamp>, last: map<int, Stamp>)

  /** The book plus last_exit_date, prev_above_sma and pending_eod_exit. */
  datatype State = State(book: Book, lastExit: Option<int>, prev: Option<bool>, pending: bool)

  predicate Ok(start: real, s: State)
  {
    Valid(start, s.book)
  }

  predicate IsFirstBar(ctx: Context, at: Stamp)
  {
    at.day in ctx.first && ctx.first[at.day] == at
  }

  predicate IsLastBar(ctx: Context, at: Stamp)
  {
    at.day in ctx.last && ctx.last[at.day] == at
  }

  /** Lines 106-124: the latched exit at the session's first bar; the flag
      afterwards is the bar's own intraday flag. */
  function ServiceLatch(start: real, s: State, b: Bar, above: bool): (r: State)
    requires Ok(start, s)
    ensures Ok(start, r) && !r.pending && !r.book.holding && r.prev == Some(above)
  {
    if s.book.holding then
      State(Sell(start, s.book, b.at, b.close, SmaExitEod), Some(b.at.day), Some(above), false)
    else s.(pending := false, prev := Some(above))
  }

  /** Lines 127-154: raise the high, then the stop (low <= active stop,
      filled at the stop) or a bearish cross (filled at the close). */
  function CheckExit(start: real, s: State, b: Bar, above: bool): (r: State)
    requires Ok(start, s) && s.book.holding
    ensures Ok(start, r) && r.prev == s.prev && r.pending == s.pending
  {
    var raised := Raise(s.book, b.high);
    Reframe(start, s.book, raised);
    var stop := StopOf(raised, FixedStopPct, TrailingStopPct);
    if b.low <= stop then
      s.(book := Sell(start, raised, b.at, stop, StopHit), lastExit := Some(b.at.day))
    else if s.prev == Some(true) && !above then
      s.(book := Sell(start, raised, b.at, b.close, SmaExit), lastExit := Some(b.at.day))
    else s.(book := raised)
  }

  /** Lines 174-185: at the session's last bar, holding with the daily close
      at or below that day's SMA latches the exit, and the flag takes the
      end-of-day comparison. */
  function EodCheck(ctx: Context, s: State, b: Bar): (r: State)
    ensures r.book == s.book && r.lastExit == s.lastExit
  {
    var d := b.at.day;
    if IsLastBar(ctx, b.at) && d in ctx.sma && d in ctx.closes then
      var eodAbove := ctx.closes[d] > ctx.sma[d];
      s.(pending := s.pending || (s.book.holding && !eodAbove), prev := Some(eodAbove))
    else s
  }

  /** One pass of the loop body (lines 85-185). */
  function Step(start: real, ctx: Context, s: State, b: Bar): (r: State)
    requires Ok(start, s) && b.close != 0.0
    ensures Ok(start, r)
  {
    var d := b.at.day;
    if d !in ctx.prev then s
    else
      var above := b.signal > ctx.prev[d];
      if s.prev.None? then s.(prev := Some(above))
      else if s.pending && IsFirstBar(ctx, b.at) then ServiceLatch(start, s, b, above)
      else if s.book.holding then EodCheck(ctx, CheckExit(start, s, b, above).(prev := Some(above)), b)
      else if !s.prev.value && above then
        if s.lastExit == Some(d) then s.(prev := Some(above))
        else EodCheck(ctx, s.(book := Buy(start, s.book, b.at, b.close, b.high), prev := Some(above)), b)
      else EodCheck(ctx, s.(prev := Some(above)), b)
  }

  function Run(start: real, ctx: Context, bars: seq<Bar>): (s: State)
    requires CloseDivisible(bars)
    ensures Ok(start, s)
  {
    if bars == [] then State(Fresh(start), None, None, false)
    else Step(start, ctx, Run(start, ctx, bars[..|bars| - 1]), bars[|bars| - 1])
  }

  function ContextOf(rows: seq<DailyBar>, w: seq<Bar>): Context
  {
    Context(V6PrevTable(rows, SmaPeriod), SmaTable(rows, SmaPeriod), CloseTable(rows, SmaPeriod), FirstTable(w), LastTable(w))
  }

  /** The whole script as a value: the market-hours bars simulated, then the
      open position closed at the last close as "OPEN" (lines 188-195). */
  function Backtest(rows: seq<DailyBar>, bars: seq<Bar>, lastAt: Stamp, lastClose: real): (r: Book)
    requires CloseDivisible(bars)
    ensures OnlyLastOpen(r.trades) && !LastOpen(r.trades)
    ensures r.capital == StartingCapital + ClosedPnl(r.trades)
  {
    MarketHoursDivisible(bars);
    var w := MarketHours(bars);
    Settle(StartingCapital, Run(StartingCapital, ContextOf(rows, w), w).book, lastAt, lastClose)
  }

  lemma MarketHoursDivisible(bars: seq<Bar>)
    requires CloseDivisible(bars)
    ensures CloseDivisible(MarketHours(bars))
  {
    var w := MarketHours(bars);
    forall i | 0 <= i < |w| ensures NonZeroClose(w[i]) {
      assert w[i] in bars;
    }
  }

  /** The loop body over one bar. */
  method ProcessBar(start: real, ctx: Context, s: State, b: Bar) returns (r: State)
    requires Ok(start, s) && b.close != 0.0
    ensures r == Step(start, ctx, s, b)
  {
    var d := b.at.day;
    if d !in ctx.prev {
      return s;
    }
    var smaVal := ctx.prev[d];
    var aboveSma := b.signal > smaVal;
    if s.prev.None? {
      return s.(prev := Some(aboveSma));
    }
    var isFirstBar := d in ctx.first && ctx.first[d] == b.at;
    var State(book, lastExitDate, prevAboveSma, pendingEodExit) := s;
    if pendingEodExit && isFirstBar {
      if book.holding {
        book := CloseAll(start, book, b.at, b.close, SmaExitEod);
        lastExitDate := Some(d);
      }
      return State(book, lastExitDate, Some(aboveSma), false);
    }
    if book.holding {
      r := CheckExits(start, s, b, aboveSma);
      r := r.(prev := Some(aboveSma));
    } else if !prevAboveSma.value && aboveSma {
      if lastExitDate == Some(d) {
        // T+1
        return s.(prev := Some(aboveSma));
      }
      book := OpenAll(start, book, b.at, b.close, b.high);
      r := State(book, lastExitDate, Some(aboveSma), pendingEodExit);
    } else {
      r := s.(prev := Some(aboveSma));
    }
    r := MarkEod(ctx, r, b);
  }

  /** Lines 127-154: the stop and the bearish-cross exits. */
  method CheckExits(start: real, s: State, b: Bar, aboveSma: bool) returns (r: State)
    requires Ok(start, s) && s.book.holding
    ensures r == CheckExit(start, s, b, aboveSma)
  {
    var State(book, lastExitDate, prevAboveSma, pendingEodExit) := s;
    var highest := book.highest;
    if b.high > highest {
      highest := b.high;
    }
    var activeStop := ActiveStop(book.entry, highest, FixedStopPct, TrailingStopPct);
    book := book.(highest := highest);
    Reframe(start, s.book, book);
    if b.low <= activeStop {
      book := CloseAll(start, book, b.at, activeStop, StopHit);
      lastExitDate := Some(b.at.day);
    } else if prevAboveSma == Some(true) && !aboveSma {
      book := CloseAll(start, book, b.at, b.close, SmaExit);
      lastExitDate := Some(b.at.day);
    }
    r := State(book, lastExitDate, prevAboveSma, pendingEodExit);
  }

  /** Lines 174-185: the end-of-day check on the session's last bar. */
  method MarkEod(ctx: Context, s: State, b: Bar) returns (r: State)
    ensures r == EodCheck(ctx, s, b)
  {
    var d := b.at.day;
    r := s;
    if d in ctx.last && ctx.last[d] == b.at && d in ctx.sma && d in ctx.closes {
      var eodAbove := ctx.closes[d] > ctx.sma[d];
      if r.book.holding && !eodAbove {
        r := r.(pending := true);
      }
      r := r.(prev := Some(eodAbove));
    }
  }

  /** The loop of lines 85-185 over the market-hours bars. */
  method Simulate(start: real, ctx: Context, commonTs: seq<Bar>) returns (st: State)
    requires CloseDivisible(commonTs)
    ensures st == Run(start, ctx, commonTs)
  {
    st := State(Fresh(start), None, None, false);
    var i := 0;
    while i < |commonTs|
      invariant 0 <= i <= |commonTs|
      invariant st == Run(start, ctx, commonTs[..i])
    {
      assert commonTs[..i + 1][..i] == commonTs[..i];
      st := ProcessBar(start, ctx, st, commonTs[i]);
      i := i + 1;
    }
    assert commonTs[..i] == commonTs;
  }

  /** The script: the daily tables, the day bounds, the loop and the final
      close of an open position. */
  method RunV6(rows: seq<DailyBar>, bars: seq<Bar>, lastAt: Stamp, lastClose: real) returns (trades: seq<Trade>, capital: real)
    requires CloseDivisible(bars)
    ensures trades == Backtest(rows, bars, lastAt, lastClose).trades
    ensures capital == Backtest(rows, bars, lastAt, lastClose).capital
  {
    var smaByDate, dailyCloseByDate, _, prevSmaByDate := BuildV6Tables(rows, SmaPeriod);
    MarketHoursDivisible(bars);
    var commonTs := MarketHours(bars);
    var firstBarOfDay, lastBarOfDay := DayBounds(commonTs);
    var ctx := Context(prevSmaByDate, smaByDate, dailyCloseByDate, firstBarOfDay, lastBarOfDay);
    assert ctx == ContextOf(rows, commonTs);
    var st := Simulate(StartingCapital, ctx, commonTs);
    var book := st.book;
    if book.holding && book.trades[|book.trades| - 1].exit.None? {
      book := CloseAll(StartingCapital, book, lastAt, lastClose, OpenAtEnd);
    }
    trades, capital := book.trades, book.capital;
  }

  // ---- what the script promises ----

  /** Lines 88-101: a date without a previous-row SMA is skipped, and the
      first usable bar only seeds prev_above_sma. */
  lemma SkipAndSeed(start: real, ctx: Context, s: State, b: Bar)
    requires Ok(start, s) && b.close != 0.0
    ensures b.at.day !in ctx.prev ==> Step(start, ctx, s, b) == s
    ensures b.at.day in ctx.prev && s.prev.None? ==>
      Step(start, ctx, s, b) == s.(prev := Some(b.signal > ctx.prev[b.at.day]))
  {
  }

  /** Lines 127-143: while holding, the stop (low <= max(fixed, trailing))
      fires first and fills exactly at the stop, with no gap-through rule;
      otherwise a bearish cross exits at the close; the position stays open
      exactly when neither happens, and then its stop has not moved down. */
  lemma {:induction false} ExitRule(start: real, s: State, b: Bar, above: bool)
    requires Ok(start, s) && s.book.holding
    ensures var r := CheckExit(start, s, b, above);
      var stop := StopOf(Raise(s.book, b.high), FixedStopPct, TrailingStopPct);
      var n := |s.book.trades|;
      && |r.book.trades| == n
      && (r.book.holding <==> !(b.low <= stop) && !(s.prev == Some(true) && !above))
      && (b.low <= stop ==> r.book.trades[n - 1].exit == Some(Exit(b.at, stop, PnlAt(s.book, stop), StopHit)))
      && (!(b.low <= stop) && s.prev == Some(true) && !above ==>
            r.book.trades[n - 1].exit == Some(Exit(b.at, b.close, PnlAt(s.book, b.close), SmaExit)))
      && (!r.book.holding ==> r.lastExit == Some(b.at.day))
      && (r.book.holding ==> StopOf(s.book, FixedStopPct, TrailingStopPct) <= StopOf(r.book, FixedStopPct, TrailingStopPct))
  {
    RaiseRatchets(s.book, b.high, FixedStopPct, TrailingStopPct);
  }

  /** Lines 174-185: the latch is set only at a session's last bar, only
      while holding with the daily close at or below that day's SMA, and the
      flag is then the end-of-day state. */
  lemma {:induction false} LatchAtSessionEnd(ctx: Context, s: State, b: Bar)
    ensures var r := EodCheck(ctx, s, b);
      var d := b.at.day;
      && (r.pending && !s.pending ==> IsLastBar(ctx, b.at) && s.book.holding && d in ctx.sma && d in ctx.closes && ctx.closes[d] <= ctx.sma[d])
      && (IsLastBar(ctx, b.at) && d in ctx.sma && d in ctx.closes ==>
            r.prev == Some(ctx.closes[d] > ctx.sma[d])
            && (s.book.holding && ctx.closes[d] <= ctx.sma[d] ==> r.pending))
      && (!IsLastBar(ctx, b.at) ==> r == s)
  {
  }

  /** Lines 106-124: a first bar with the latch set sells any position at
      its close as "SMA EXIT (EOD)", clears the latch, takes the bar's
      intraday flag and does nothing else. */
  lemma {:induction false} LatchServiced(start: real, ctx: Context, s: State, b: Bar)
    requires Ok(start, s) && b.close != 0.0
    requires b.at.day in ctx.prev && s.prev.Some? && s.pending && IsFirstBar(ctx, b.at)
    ensures var r := Step(start, ctx, s, b);
      && !r.pending && !r.book.holding && r.prev == Some(b.signal > ctx.prev[b.at.day])
      && |r.book.trades| == |s.book.trades|
      && (s.book.holding ==>
            r.book.trades[|r.book.trades| - 1].exit == Some(Exit(b.at, b.close, PnlAt(s.book, b.close), SmaExitEod))
            && r.lastExit == Some(b.at.day))
      && (!s.book.holding ==> r.book == s.book && r.lastExit == s.lastExit)
  {
  }

  /** The T+1 bookkeeping the loop keeps. */
  predicate Cooldown(s: State)
  {
    NoSameDayReentry(s.book.trades, AnyExit) && ExitDayTracked(s.lastExit, s.book.trades, AnyExit)
  }

  /** Lines 116, 154, 157-160: no entry is made on any date with an exit of
      any kind, so no trade opens on the date the previous one closed. */
  lemma {:induction false} RunNoSameDayReentry(start: real, ctx: Context, bars: seq<Bar>)
    requires CloseDivisible(bars)
    ensures Cooldown(Run(start, ctx, bars))
    ensures NoSameDayReentry(Run(start, ctx, bars).book.trades, AnyExit)
  {
    if bars != [] {
      RunNoSameDayReentry(start, ctx, bars[..|bars| - 1]);
      StepCooldown(start, ctx, Run(start, ctx, bars[..|bars| - 1]), bars[|bars| - 1]);
    }
  }

  lemma {:induction false} StepCooldown(start: real, ctx: Context, s: State, b: Bar)
    requires Ok(start, s) && b.close != 0.0 && Cooldown(s)
    ensures Cooldown(Step(start, ctx, s, b))
  {
    var d := b.at.day;
    if d in ctx.prev && s.prev.Some? {
      var above := b.signal > ctx.prev[d];
      if s.pending && IsFirstBar(ctx, b.at) {
        if s.book.holding {
          CloseLastKeepsReentryRule(s.book.trades, AnyExit, Some(b.at.day), Exit(b.at, b.close, PnlAt(s.book, b.close), SmaExitEod));
        }
      } else if s.book.holding {
        var raised := Raise(s.book, b.high);
        Reframe(start, s.book, raised);
        var stop := StopOf(raised, FixedStopPct, TrailingStopPct);
        if b.low <= stop {
          CloseLastKeepsReentryRule(raised.trades, AnyExit, Some(b.at.day), Exit(b.at, stop, PnlAt(raised, stop), StopHit));
        } else if s.prev == Some(true) && !above {
          CloseLastKeepsReentryRule(raised.trades, AnyExit, Some(b.at.day), Exit(b.at, b.close, PnlAt(raised, b.close), SmaExit));
        }
      } else if !s.prev.value && above && s.lastExit != Some(d) {
        AppendKeepsReentryRule(s.book.trades, AnyExit, s.lastExit, b.at, b.close, Fills.SharesFor(s.book.capital, b.close));
      }
    }
  }

  /** Lines 157-169: an entry happens only from flat, on a bullish cross,
      never at a first bar with the latch set and never on a date with an
      exit; it invests the whole capital at the bar's close. */
  lemma {:induction false} EntryRule(start: real, ctx: Context, s: State, b: Bar)
    requires Ok(start, s) && b.close != 0.0 && !s.book.holding
    ensures var r := Step(start, ctx, s, b);
      r.book.holding ==>
        && b.at.day in ctx.prev && s.prev == Some(false) && b.signal > ctx.prev[b.at.day]
        && !(s.pending && IsFirstBar(ctx, b.at)) && s.lastExit != Some(b.at.day)
        && r.book == Buy(start, s.book, b.at, b.close, b.high)
  {
  }
}
