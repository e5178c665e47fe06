// sma50_v5: the intraday cross against the previous daily row's SMA, plus a
// separately tracked end-of-day state. An end-of-day flip latches an exit
// (above to below, while holding) or an entry (below to above, while flat);
// the latch is carried out on a 09:30 bar at that bar's close.
module SmaV5 {
  import Fills
  import opened Core
  import opened Calendar
  import opened Stops
  import opened Ledger
  import opened DailySma
  import opened Position

  const FixedStopPct: real := 0.075
  const TrailingStopPct: real := 0.15
  const StartingCapital: real := 10000.0
  const SmaPeriod: nat := 50

  /** pending_eod_exit: False, True (an exit) or the string "entry". */
  datatype Latch = NoLatch | ExitLatch | EntryLatch

  /** prev_sma, daily_sma, daily_close and last_bar_of_day. */
  datatype Context = Context(prev: map<int, real>, sma: map<int, real>, closes: map<int, real>, last: map<int, Stamp>)

  /** The book plus last_exit_date, prev_above_sma, eod_above_sma and
      pending_eod_exit. */
  datatype State = State(book: Book, lastExit: Option<int>, prev: Option<bool>, eod: Option<bool>, latch: Latch)

  predicate Ok(start: real, s: State)
  {
    Valid(start, s.book)
  }

  predicate IsLastBar(ctx: Context, at: Stamp)
  {
    at.day in ctx.last && ctx.last[at.day] == at
  }

  /** `ts.hour == 9 and ts.minute == 30` */
  predicate IsMarketOpen(at: Stamp)
  {
    at.minute == SessionOpen
  }

  // ---- the seed of the end-of-day state (lines 84-88) ----

  /** eod_above_sma after the loop has looked at the first n of the sorted
      SMA dates: the comparison of the latest one before 2021-01-05. */
  function SeedUpTo(dates: seq<int>, sma: map<int, real>, closes: map<int, real>, n: nat): Option<bool>
    requires n <= |dates|
  {
    if n == 0 then None
    else
      var prior := SeedUpTo(dates, sma, closes, n - 1);
      var d := dates[n - 1];
      if d >= WindowFirstDay then prior
      else if d in closes && d in sma then Some(closes[d] > sma[d])
      else prior
  }

  /** The loop of lines 84-88, with its `break` at the first date on or
      after 2021-01-05. */
  method SeedEod(dates: seq<int>, sma: map<int, real>, closes: map<int, real>) returns (eodAboveSma: Option<bool>)
    requires forall a, b :: 0 <= a < b < |dates| ==> dates[a] < dates[b]
    ensures eodAboveSma == SeedUpTo(dates, sma, closes, |dates|)
  {
    eodAboveSma := None;
    var i := 0;
    while i < |dates|
      invariant 0 <= i <= |dates|
      invariant eodAboveSma == SeedUpTo(dates, sma, closes, i)
    {
      var d := dates[i];
      if d >= WindowFirstDay {
        SeedIgnoresLater(dates, sma, closes, i, |dates|);
        return;
      }
      if d in closes && d in sma {
        eodAboveSma := Some(closes[d] > sma[d]);
      }
      i := i + 1;
    }
  }

  /** Once a sorted date reaches 2021-01-05, no later date changes the seed. */
  lemma {:induction false} SeedIgnoresLater(dates: seq<int>, sma: map<int, real>, closes: map<int, real>, i: nat, n: nat)
    requires forall a, b :: 0 <= a < b < |dates| ==> dates[a] < dates[b]
    requires i < |dates| && dates[i] >= WindowFirstDay && i <= n <= |dates|
    ensures SeedUpTo(dates, sma, closes, n) == SeedUpTo(dates, sma, closes, i)
  {
    if n > i {
      SeedIgnoresLater(dates, sma, closes, i, n - 1);
      assert dates[n - 1] >= dates[i];
    }
  }

  /** The seed is the comparison at a date before 2021-01-05 present in both
      tables, and no later such date precedes 2021-01-05. */
  lemma {:induction false} SeedMeaning(dates: seq<int>, sma: map<int, real>, closes: map<int, real>, n: nat)
    requires n <= |dates|
    ensures var e := SeedUpTo(dates, sma, closes, n);
      && (e.None? ==> forall j :: 0 <= j < n && dates[j] < WindowFirstDay ==> !(dates[j] in closes && dates[j] in sma))
      && (e.Some? ==>
            exists j ::
              && 0 <= j < n && dates[j] < WindowFirstDay && dates[j] in closes && dates[j] in sma
              && e == Some(closes[dates[j]] > sma[dates[j]])
              && forall k :: j < k < n && dates[k] < WindowFirstDay ==> !(dates[k] in closes && dates[k] in sma))
  {
    if n > 0 {
      SeedMeaning(dates, sma, closes, n - 1);
      var d := dates[n - 1];
      if d < WindowFirstDay && d in closes && d in sma {
        assert SeedUpTo(dates, sma, closes, n) == Some(closes[d] > sma[d]);
      } else {
        var e := SeedUpTo(dates, sma, closes, n - 1);
        assert SeedUpTo(dates, sma, closes, n) == e;
        if e.Some? {
          var j :| 0 <= j < n - 1 && dates[j] < WindowFirstDay && dates[j] in closes && dates[j] in sma
            && e == Some(closes[dates[j]] > sma[dates[j]])
            && forall k :: j < k < n - 1 && dates[k] < WindowFirstDay ==> !(dates[k] in closes && dates[k] in sma);
          assert forall k :: j < k < n && dates[k] < WindowFirstDay ==> !(dates[k] in closes && dates[k] in sma);
        }
      }
    }
  }

  // ---- the loop body ----

  /** Lines 116-126: any latch (True, or the truthy "entry") while holding
      on a 09:30 bar sells at the close as "SMA EXIT (EOD)". */
  function ServiceExit(start: real, s: State, b: Bar): (r: State)
    requires Ok(start, s)
    ensures Ok(start, r)
  {
    if s.latch != NoLatch && IsMarketOpen(b.at) && s.book.holding then
      s.(book := Sell(start, s.book, b.at, b.close, SmaExitEod), lastExit := Some(b.at.day), latch := NoLatch)
    else s
  }

  /** Lines 129-143: the "entry" latch while flat on a 09:30 bar buys at the
      close unless the date already had an exit; a string latch is then
      cleared whether or not it fired. */
  function ServiceEntry(start: real, s: State, b: Bar): (r: State)
    requires Ok(start, s) && b.close != 0.0
    ensures Ok(start, r) && r.latch != EntryLatch
  {
    var s1 :=
      if !s.book.holding && s.latch == EntryLatch && IsMarketOpen(b.at) then
        (if s.lastExit != Some(b.at.day) then s.(book := Buy(start, s.book, b.at, b.close, b.high)) else s).(latch := NoLatch)
      else s;
    if s1.latch == EntryLatch then s1.(latch := NoLatch) else s1
  }

  /** Lines 146-173: raise the high, then the stop (filled at the stop) or a
      bearish cross (filled at the close). */
  function CheckExit(start: real, s: State, b: Bar, above: bool): (r: State)
    requires Ok(start, s) && s.book.holding
    ensures Ok(start, r) && r.prev == s.prev && r.latch == s.latch && r.eod == s.eod
  {
    var raised := Raise(s.book, b.high);
    Reframe(start, s.book, raised);
    var stop := StopOf(raised, FixedStopPct, TrailingStopPct);
    if b.low <= stop then
      s.(book := Sell(start, raised, b.at, stop, StopHit), lastExit := Some(b.at.day))
    else if s.prev == Some(true) && !above then
      s.(book := Sell(start, raised, b.at, b.close, SmaExit), lastExit := Some(b.at.day))
    else s.(book := raised)
  }

  /** Lines 193-206: at the session's last bar the end-of-day comparison
      latches an exit on a flip to below while holding, an entry on a flip to
      above while flat, and becomes both flags. */
  function EodCheck(ctx: Context, s: State, b: Bar): (r: State)
    ensures r.book == s.book && r.lastExit == s.lastExit
  {
    var d := b.at.day;
    if IsLastBar(ctx, b.at) && d in ctx.sma && d in ctx.closes then
      var newEod := ctx.closes[d] > ctx.sma[d];
      var latch :=
        if s.eod.None? then s.latch
        else if s.book.holding && s.eod.value && !newEod then ExitLatch
        else if !s.book.holding && !s.eod.value && newEod then EntryLatch
        else s.latch;
      s.(latch := latch, eod := Some(newEod), prev := Some(newEod))
    else s
  }

  /** One pass of the loop body (lines 95-206). */
  function Step(start: real, ctx: Context, s: State, b: Bar): (r: State)
    requires Ok(start, s) && b.close != 0.0
    ensures Ok(start, r)
  {
    var d := b.at.day;
    if d !in ctx.prev then s
    else
      var above := b.signal > ctx.prev[d];
      if s.prev.None? then s.(prev := Some(above))
      else
        Intraday(start, ctx, ServiceEntry(start, ServiceExit(start, s, b), b), b, above)
  }

  /** Lines 146-206: the intraday exit or entry, then the end-of-day check. */
  function Intraday(start: real, ctx: Context, s: State, b: Bar, above: bool): (r: State)
    requires Ok(start, s) && b.close != 0.0 && s.prev.Some?
    ensures Ok(start, r)
  {
    if s.book.holding then EodCheck(ctx, CheckExit(start, s, b, above).(prev := Some(above)), b)
    else if !s.prev.value && above then
      if s.lastExit == Some(b.at.day) then s.(prev := Some(above))
      else EodCheck(ctx, s.(book := Buy(start, s.book, b.at, b.close, b.high), prev := Some(above)), b)
    else EodCheck(ctx, s.(prev := Some(above)), b)
  }

  function Run(start: real, ctx: Context, seed: Option<bool>, bars: seq<Bar>): (s: State)
    requires CloseDivisible(bars)
    ensures Ok(start, s)
  {
    if bars == [] then State(Fresh(start), None, None, seed, NoLatch)
    else Step(start, ctx, Run(start, ctx, seed, bars[..|bars| - 1]), bars[|bars| - 1])
  }

  function ContextOf(rows: seq<DailyBar>, w: seq<Bar>): Context
  {
    Context(PrevRowUpTo(rows, SmaPeriod, |rows|), SmaTable(rows, SmaPeriod), CloseTable(rows, SmaPeriod), LastTable(w))
  }

  /** The seed from the sorted SMA dates. */
  function SeedOf(rows: seq<DailyBar>): Option<bool>
  {
    var dates := ValidDaysUpTo(rows, SmaPeriod, |rows|);
    SeedUpTo(dates, SmaTable(rows, SmaPeriod), CloseTable(rows, SmaPeriod), |dates|)
  }

  /** The whole script as a value, with the open position closed at the last
      close as "OPEN" (lines 209-216). */
  function Backtest(rows: seq<DailyBar>, bars: seq<Bar>, lastAt: Stamp, lastClose: real): (r: Book)
    requires CloseDivisible(bars)
    ensures OnlyLastOpen(r.trades) && !LastOpen(r.trades)
    ensures r.capital == StartingCapital + ClosedPnl(r.trades)
  {
    MarketHoursDivisible(bars);
    var w := MarketHours(bars);
    Settle(StartingCapital, Run(StartingCapital, ContextOf(rows, w), SeedOf(rows), w).book, lastAt, lastClose)
  }

  lemma MarketHoursDivisible(bars: seq<Bar>)
    requires CloseDivisible(bars)
    ensures CloseDivisible(MarketHours(bars))
  {
    var w := MarketHours(bars);
    forall i | 0 <= i < |w| ensures NonZeroClose(w[i]) {
      assert w[i] in bars;
    }
  }

  /** Lines 116-143: the two latches at the open. */
  method ServiceLatches(start: real, s: State, b: Bar) returns (r: State)
    requires Ok(start, s) && b.close != 0.0
    ensures r == ServiceEntry(start, ServiceExit(start, s, b), b)
  {
    var d := b.at.day;
    var isMarketOpen := b.at.minute == SessionOpen;
    var State(book, lastExitDate, prevAboveSma, eodAboveSma, pendingEodExit) := s;
    if pendingEodExit != NoLatch && isMarketOpen && book.holding {
      book := CloseAll(start, book, b.at, b.close, SmaExitEod);
      lastExitDate := Some(d);
      pendingEodExit := NoLatch;
    }
    if !book.holding && pendingEodExit == EntryLatch && isMarketOpen {
      if lastExitDate != Some(d) {
        // T+1
        book := OpenAll(start, book, b.at, b.close, b.high);
      }
      pendingEodExit := NoLatch;
    }
    if pendingEodExit == EntryLatch {
      pendingEodExit := NoLatch;
    }
    r := State(book, lastExitDate, prevAboveSma, eodAboveSma, pendingEodExit);
  }

  /** The loop body over one bar. */
  method ProcessBar(start: real, ctx: Context, s: State, b: Bar) returns (r: State)
    requires Ok(start, s) && b.close != 0.0
    ensures r == Step(start, ctx, s, b)
  {
    var d := b.at.day;
    if d !in ctx.prev {
      return s;
    }
    var smaVal := ctx.prev[d];
    var aboveSma := b.signal > smaVal;
    if s.prev.None? {
      return s.(prev := Some(aboveSma));
    }
    r := ServiceLatches(start, s, b);
    r := ProcessIntraday(start, ctx, r, b, aboveSma);
  }

  /** Lines 146-173: the stop and the bearish-cross exits. */
  method CheckExits(start: real, s: State, b: Bar, aboveSma: bool) returns (r: State)
    requires Ok(start, s) && s.book.holding
    ensures r == CheckExit(start, s, b, aboveSma)
  {
    var book := s.book;
    var highest := book.highest;
    if b.high > highest {
      highest := b.high;
    }
    var activeStop := ActiveStop(book.entry, highest, FixedStopPct, TrailingStopPct);
    book := book.(highest := highest);
    Reframe(start, s.book, book);
    r := s.(book := book);
    if b.low <= activeStop {
      book := CloseAll(start, book, b.at, activeStop, StopHit);
      r := r.(book := book, lastExit := Some(b.at.day));
    } else if s.prev == Some(true) && !aboveSma {
      book := CloseAll(start, book, b.at, b.close, SmaExit);
      r := r.(book := book, lastExit := Some(b.at.day));
    }
  }

  /** Lines 146-206 over one bar. */
  method ProcessIntraday(start: real, ctx: Context, s: State, b: Bar, aboveSma: bool) returns (r: State)
    requires Ok(start, s) && b.close != 0.0 && s.prev.Some?
    ensures r == Intraday(start, ctx, s, b, aboveSma)
  {
    var d := b.at.day;
    r := s;
    if r.book.holding {
      r := CheckExits(start, r, b, aboveSma);
    } else if !r.prev.value && aboveSma {
      if r.lastExit == Some(d) {
        // T+1
        return r.(prev := Some(aboveSma));
      }
      var book := OpenAll(start, r.book, b.at, b.close, b.high);
      r := r.(book := book);
    }
    r := r.(prev := Some(aboveSma));
    ghost var acted := r;
    if d in ctx.last && ctx.last[d] == b.at && d in ctx.sma && d in ctx.closes {
      var newEod := ctx.closes[d] > ctx.sma[d];
      if r.eod.Some? {
        if r.book.holding && r.eod.value && !newEod {
          r := r.(latch := ExitLatch);
        } else if !r.book.holding && !r.eod.value && newEod {
          r := r.(latch := EntryLatch);
        }
      }
      r := r.(eod := Some(newEod), prev := Some(newEod));
    }
    assert r == EodCheck(ctx, acted, b);
  }

  /** The loop of lines 95-206 over the market-hours bars. */
  method Simulate(start: real, ctx: Context, seed: Option<bool>, commonTs: seq<Bar>) returns (st: State)
    requires CloseDivisible(commonTs)
    ensures st == Run(start, ctx, seed, commonTs)
  {
    st := State(Fresh(start), None, None, seed, NoLatch);
    var i := 0;
    while i < |commonTs|
      invariant 0 <= i <= |commonTs|
      invariant st == Run(start, ctx, seed, commonTs[..i])
    {
      assert commonTs[..i + 1][..i] == commonTs[..i];
      st := ProcessBar(start, ctx, st, commonTs[i]);
      i := i + 1;
    }
    assert commonTs[..i] == commonTs;
  }

  /** The script: the daily tables, the end-of-day seed, the day bounds, the
      loop and the final close of an open position. */
  method RunV5(rows: seq<DailyBar>, bars: seq<Bar>, lastAt: Stamp, lastClose: real) returns (trades: seq<Trade>, capital: real)
    requires StrictlyAscending(rows) && CloseDivisible(bars)
    ensures trades == Backtest(rows, bars, lastAt, lastClose).trades
    ensures capital == Backtest(rows, bars, lastAt, lastClose).capital
  {
    var dailySma, dailyClose, prevSma := BuildV5Tables(rows, SmaPeriod);
    var sortedDates := ValidDaysUpTo(rows, SmaPeriod, |rows|);
    ValidDaysAscending(rows, SmaPeriod);
    assert forall a, b :: 0 <= a < b < |sortedDates| ==> sortedDates[a] < sortedDates[b];
    var eodAboveSma := SeedEod(sortedDates, dailySma, dailyClose);
    MarketHoursDivisible(bars);
    var commonTs := MarketHours(bars);
    var _, lastBarOfDay := DayBounds(commonTs);
    var ctx := Context(prevSma, dailySma, dailyClose, lastBarOfDay);
    assert ctx == ContextOf(rows, commonTs);
    var st := Simulate(StartingCapital, ctx, eodAboveSma, commonTs);
    var book := st.book;
    if book.holding && book.trades[|book.trades| - 1].exit.None? {
      book := CloseAll(StartingCapital, book, lastAt, lastClose, OpenAtEnd);
    }
    trades, capital := book.trades, book.capital;
  }

  // ---- what the script promises ----

  /** Lines 98-111: a date without a previous-row SMA is skipped, and the
      first usable bar only seeds prev_above_sma. */
  lemma SkipAndSeed(start: real, ctx: Context, s: State, b: Bar)
    requires Ok(start, s) && b.close != 0.0
    ensures b.at.day !in ctx.prev ==> Step(start, ctx, s, b) == s
    ensures b.at.day in ctx.prev && s.prev.None? ==>
      Step(start, ctx, s, b) == s.(prev := Some(b.signal > ctx.prev[b.at.day]))
  {
  }

  /** Lines 193-206: the exit latch is set only on an end-of-day flip from
      above to below while holding, the entry latch only on a flip from
      below to above while flat; both flags then take the new state. */
  lemma {:induction false} LatchOnFlip(ctx: Context, s: State, b: Bar)
    ensures var r := EodCheck(ctx, s, b);
      var d := b.at.day;
      && (r.latch != s.latch ==>
            && IsLastBar(ctx, b.at) && d in ctx.sma && d in ctx.closes && s.eod.Some?
            && (r.latch == ExitLatch ==> s.book.holding && s.eod.value && ctx.closes[d] <= ctx.sma[d])
            && (r.latch == EntryLatch ==> !s.book.holding && !s.eod.value && ctx.closes[d] > ctx.sma[d])
            && r.latch != NoLatch)
      && (IsLastBar(ctx, b.at) && d in ctx.sma && d in ctx.closes ==>
            r.eod == Some(ctx.closes[d] > ctx.sma[d]) && r.prev == r.eod)
      && (!IsLastBar(ctx, b.at) ==> r == s)
  {
  }

  /** Lines 113-126: an end-of-day exit happens only on a 09:30 bar, at that
      bar's close, and only with a latch set. */
  lemma {:induction false} EodExitAtOpen(start: real, s: State, b: Bar)
    requires Ok(start, s)
    ensures var r := ServiceExit(start, s, b);
      && (r != s ==>
            && IsMarketOpen(b.at) && s.latch != NoLatch && s.book.holding && !r.book.holding && r.latch == NoLatch
            && r.book.trades[|r.book.trades| - 1].exit == Some(Exit(b.at, b.close, PnlAt(s.book, b.close), SmaExitEod)))
      && (s.latch != NoLatch && IsMarketOpen(b.at) && s.book.holding ==> r != s)
  {
    if s.latch != NoLatch && IsMarketOpen(b.at) && s.book.holding {
      assert ServiceExit(start, s, b).book.holding != s.book.holding;
    }
  }

  /** Lines 129-143: the entry latch buys only on a 09:30 bar while flat and
      without an exit that date, at the bar's close; whether it fired or not
      it does not survive the bar. */
  lemma {:induction false} EodEntryAtOpen(start: real, s: State, b: Bar)
    requires Ok(start, s) && b.close != 0.0
    ensures var r := ServiceEntry(start, s, b);
      && r.latch != EntryLatch
      && (r.book != s.book ==>
            && IsMarketOpen(b.at) && s.latch == EntryLatch && !s.book.holding
            && s.lastExit != Some(b.at.day) && r.book == Buy(start, s.book, b.at, b.close, b.high))
      && (s.latch != EntryLatch ==> r == s)
  {
  }

  /** Lines 146-173: while holding the stop fires first and fills exactly at
      max(fixed, trailing); otherwise a bearish cross exits at the close. */
  lemma {:induction false} ExitRule(start: real, s: State, b: Bar, above: bool)
    requires Ok(start, s) && s.book.holding
    ensures var r := CheckExit(start, s, b, above);
      var stop := StopOf(Raise(s.book, b.high), FixedStopPct, TrailingStopPct);
      var n := |s.book.trades|;
      && |r.book.trades| == n
      && (r.book.holding <==> !(b.low <= stop) && !(s.prev == Some(true) && !above))
      && (b.low <= stop ==> r.book.trades[n - 1].exit == Some(Exit(b.at, stop, PnlAt(s.book, stop), StopHit)))
      && (!(b.low <= stop) && s.prev == Some(true) && !above ==>
            r.book.trades[n - 1].exit == Some(Exit(b.at, b.close, PnlAt(s.book, b.close), SmaExit)))
      && (!r.book.holding ==> r.lastExit == Some(b.at.day))
      && (r.book.holding ==> StopOf(s.book, FixedStopPct, TrailingStopPct) <= StopOf(r.book, FixedStopPct, TrailingStopPct))
  {
    RaiseRatchets(s.book, b.high, FixedStopPct, TrailingStopPct);
  }

  /** The T+1 bookkeeping the loop keeps. */
  predicate Cooldown(s: State)
  {
    NoSameDayReentry(s.book.trades, AnyExit) && ExitDayTracked(s.lastExit, s.book.trades, AnyExit)
  }

  /** Lines 130 and 176-179: neither the latched nor the intraday entry
      happens on a date with an exit, so no trade opens on the date the
      previous one closed. */
  lemma {:induction false} RunNoSameDayReentry(start: real, ctx: Context, seed: Option<bool>, bars: seq<Bar>)
    requires CloseDivisible(bars)
    ensures Cooldown(Run(start, ctx, seed, bars))
    ensures NoSameDayReentry(Run(start, ctx, seed, bars).book.trades, AnyExit)
  {
    if bars != [] {
      RunNoSameDayReentry(start, ctx, seed, bars[..|bars| - 1]);
      StepCooldown(start, ctx, Run(start, ctx, seed, bars[..|bars| - 1]), bars[|bars| - 1]);
    }
  }

  lemma {:induction false} LatchesCooldown(start: real, s: State, b: Bar)
    requires Ok(start, s) && b.close != 0.0 && Cooldown(s)
    ensures Cooldown(ServiceEntry(start, ServiceExit(start, s, b), b))
  {
    var s1 := ServiceExit(start, s, b);
    if s.latch != NoLatch && IsMarketOpen(b.at) && s.book.holding {
      CloseLastKeepsReentryRule(s.book.trades, AnyExit, Some(b.at.day), Exit(b.at, b.close, PnlAt(s.book, b.close), SmaExitEod));
    }
    assert Cooldown(s1);
    if !s1.book.holding && s1.latch == EntryLatch && IsMarketOpen(b.at) && s1.lastExit != Some(b.at.day) {
      AppendKeepsReentryRule(s1.book.trades, AnyExit, s1.lastExit, b.at, b.close, Fills.SharesFor(s1.book.capital, b.close));
    }
  }

  lemma {:induction false} StepCooldown(start: real, ctx: Context, s: State, b: Bar)
    requires Ok(start, s) && b.close != 0.0 && Cooldown(s)
    ensures Cooldown(Step(start, ctx, s, b))
  {
    var d := b.at.day;
    if d in ctx.prev && s.prev.Some? {
      var above := b.signal > ctx.prev[d];
      LatchesCooldown(start, s, b);
      var s3 := ServiceEntry(start, ServiceExit(start, s, b), b);
      if s3.book.holding {
        ExitCooldown(start, s3, b, above);
      } else if !s3.prev.value && above && s3.lastExit != Some(d) {
        AppendKeepsReentryRule(s3.book.trades, AnyExit, s3.lastExit, b.at, b.close, Fills.SharesFor(s3.book.capital, b.close));
      }
    }
  }

  /** An intraday exit keeps the bookkeeping: the trade closed is the last
      one and its date becomes the last exit. */
  lemma ExitCooldown(start: real, s: State, b: Bar, above: bool)
    requires Ok(start, s) && s.book.holding && Cooldown(s)
    ensures Cooldown(CheckExit(start, s, b, above))
  {
    var raised := Raise(s.book, b.high);
    Reframe(start, s.book, raised);
    var stop := StopOf(raised, FixedStopPct, TrailingStopPct);
    if b.low <= stop {
      CloseLastKeepsReentryRule(raised.trades, AnyExit, Some(b.at.day), Exit(b.at, stop, PnlAt(raised, stop), StopHit));
    } else if s.prev == Some(true) && !above {
      CloseLastKeepsReentryRule(raised.trades, AnyExit, Some(b.at.day), Exit(b.at, b.close, PnlAt(raised, b.close), SmaExit));
    }
  }
}
