// sma50_trade_list: the trade list script. Each trading date compares the
// QQQ close of every TQQQ bar with the SMA of the latest earlier SMA date.
// The first date that has one only seeds the previous flag from that date's
// daily close, stops are labelled trailing or fixed, and no entry follows an
// exit of any kind on the same date.
module SmaTradeList {
  import Fills
  import SmaV4
  import opened Core
  import opened Stops
  import opened Ledger
  import opened DailySma
  import opened Position

  const FixedStopPct: real := 0.075
  const TrailingStopPct: real := 0.15
  const StartingCapital: real := 10000.0
  const SmaPeriod: nat := 50

  /** sma_lookup (the daily SMA and close of each SMA date) and the
      timestamps that have a QQQ bar (qqq_15.index). */
  datatype Context = Context(sma: map<int, real>, closes: map<int, real>, quoted: set<Stamp>)

  /** The book plus last_exit_date, prev_above_sma and the date whose bars
      were skipped because it seeded prev_above_sma. */
  datatype State = State(book: Book, lastExit: Option<int>, prev: Option<bool>, seedDay: Option<int>)

  predicate Ok(start: real, s: State)
  {
    Valid(start, s.book)
  }

  /** Lines 207-209: after an exit the entry price and the high are zeroed
      as well. */
  function Cleared(start: real, b: Book): (r: Book)
    requires Valid(start, b) && !b.holding
    ensures Valid(start, r) && !r.holding && r.trades == b.trades && r.capital == b.capital
  {
    b.(entry := 0.0, highest := 0.0)
  }

  /** The label of a stop exit (line 184). */
  function StopLabel(b: Book): Reason
  {
    if KindOf(b.entry, b.highest, FixedStopPct, TrailingStopPct) == TrailKind then TrailStop else FixedStopHit
  }

  /** Lines 170-210: raise the high; the stop fills at the active stop, else
      a bearish cross sells at the close. */
  function CheckExit(start: real, s: State, b: Bar, above: bool): (r: State)
    requires Ok(start, s) && s.book.holding
    ensures Ok(start, r) && r.prev == s.prev && r.seedDay == s.seedDay
  {
    var raised := Raise(s.book, b.high);
    Reframe(start, s.book, raised);
    var stop := StopOf(raised, FixedStopPct, TrailingStopPct);
    if b.low <= stop then
      s.(book := Cleared(start, Sell(start, raised, b.at, stop, StopLabel(raised))), lastExit := Some(b.at.day))
    else if s.prev == Some(true) && !above then
      s.(book := Cleared(start, Sell(start, raised, b.at, b.close, SmaExit)), lastExit := Some(b.at.day))
    else s.(book := raised)
  }

  /** One TQQQ bar of the date loop (lines 130-234). */
  function Step(start: real, ctx: Context, s: State, b: Bar): (r: State)
    requires Ok(start, s) && b.close != 0.0
    ensures Ok(start, r)
  {
    var d := b.at.day;
    match LatestKeyBefore(ctx.sma.Keys, d)
    case None => s
    case Some(prevDate) =>
      if s.prev.None? then s.(prev := Some(SmaV4.DailyAbove(ctx.sma, ctx.closes, prevDate)), seedDay := Some(d))
      else if s.seedDay == Some(d) || b.at !in ctx.quoted then s
      else
        var above := b.signal > ctx.sma[prevDate];
        if s.book.holding then CheckExit(start, s, b, above).(prev := Some(above))
        else if s.lastExit != Some(d) && s.prev == Some(false) && above then
          s.(book := Buy(start, s.book, b.at, b.close, b.high), prev := Some(above))
        else s.(prev := Some(above))
  }

  function Run(start: real, ctx: Context, bars: seq<Bar>): (s: State)
    requires CloseDivisible(bars)
    ensures Ok(start, s)
  {
    if bars == [] then State(Fresh(start), None, None, None)
    else Step(start, ctx, Run(start, ctx, bars[..|bars| - 1]), bars[|bars| - 1])
  }

  function ContextOf(rows: seq<DailyBar>, quoted: set<Stamp>): Context
  {
    Context(SmaTable(rows, SmaPeriod), CloseTable(rows, SmaPeriod), quoted)
  }

  /** The whole script as a value over the sorted TQQQ bars; a position
      still open at the end is closed at the last TQQQ close as "OPEN"
      (lines 237-250). */
  function Backtest(rows: seq<DailyBar>, quoted: set<Stamp>, bars: seq<Bar>, lastAt: Stamp, lastClose: real): (r: Book)
    requires CloseDivisible(bars)
    ensures OnlyLastOpen(r.trades) && !LastOpen(r.trades)
    ensures r.capital == StartingCapital + ClosedPnl(r.trades)
  {
    Settle(StartingCapital, Run(StartingCapital, ContextOf(rows, quoted), bars).book, lastAt, lastClose)
  }

  /** Lines 170-210 over one held bar. */
  method CheckExits(start: real, s: State, b: Bar, aboveSma: bool) returns (r: State)
    requires Ok(start, s) && s.book.holding
    ensures r == CheckExit(start, s, b, aboveSma)
  {
    var book := s.book;
    var highestSinceEntry := book.highest;
    if b.high > highestSinceEntry {
      highestSinceEntry := b.high;
    }
    var fixedStop := FixedStop(book.entry, FixedStopPct);
    var trailingStop := TrailingStop(highestSinceEntry, TrailingStopPct);
    var activeStop := ActiveStop(book.entry, highestSinceEntry, FixedStopPct, TrailingStopPct);
    book := book.(highest := highestSinceEntry);
    Reframe(start, s.book, book);
    r := s.(book := book);
    if b.low <= activeStop {
      var reason := if trailingStop >= fixedStop then TrailStop else FixedStopHit;
      assert reason == StopLabel(book);
      book := CloseAll(start, book, b.at, activeStop, reason);
      r := r.(book := Cleared(start, book), lastExit := Some(b.at.day));
    } else if s.prev == Some(true) && !aboveSma {
      book := CloseAll(start, book, b.at, b.close, SmaExit);
      r := r.(book := Cleared(start, book), lastExit := Some(b.at.day));
    }
  }

  /** The body of the date loop over one TQQQ bar. */
  method ProcessBar(start: real, ctx: Context, s: State, b: Bar) returns (r: State)
    requires Ok(start, s) && b.close != 0.0
    ensures r == Step(start, ctx, s, b)
  {
    var date := b.at.day;
    var prevDate := LatestKeyBefore(ctx.sma.Keys, date);
    if prevDate.None? {
      return s;
    }
    if s.prev.None? {
      var prevClose := if prevDate.value in ctx.closes then ctx.closes[prevDate.value] else 0.0;
      return s.(prev := Some(prevDate.value in ctx.closes && prevClose > ctx.sma[prevDate.value]), seedDay := Some(date));
    }
    if s.seedDay == Some(date) || b.at !in ctx.quoted {
      return s;
    }
    var aboveSma := b.signal > ctx.sma[prevDate.value];
    r := s;
    if r.book.holding {
      r := CheckExits(start, r, b, aboveSma);
    } else if r.lastExit == Some(date) {
      // T+1 cooldown
    } else if r.prev == Some(false) && aboveSma {
      var book := OpenAll(start, r.book, b.at, b.close, b.high);
      r := r.(book := book);
    }
    r := r.(prev := Some(aboveSma));
  }

  method Simulate(start: real, ctx: Context, bars: seq<Bar>) returns (st: State)
    requires CloseDivisible(bars)
    ensures st == Run(start, ctx, bars)
  {
    st := State(Fresh(start), None, None, None);
    var i := 0;
    while i < |bars|
      invariant 0 <= i <= |bars|
      invariant st == Run(start, ctx, bars[..i])
    {
      assert bars[..i + 1][..i] == bars[..i];
      st := ProcessBar(start, ctx, st, bars[i]);
      i := i + 1;
    }
    assert bars[..i] == bars;
  }

  /** The script: the SMA lookup, the loop and the final close. */
  method RunTradeList(rows: seq<DailyBar>, quoted: set<Stamp>, bars: seq<Bar>, lastAt: Stamp, lastClose: real) returns (trades: seq<Trade>, capital: real)
    requires CloseDivisible(bars)
    ensures trades == Backtest(rows, quoted, bars, lastAt, lastClose).trades
    ensures capital == Backtest(rows, quoted, bars, lastAt, lastClose).capital
  {
    var smaLookup, closeLookup := BuildTables(rows, SmaPeriod);
    var ctx := Context(smaLookup, closeLookup, quoted);
    var st := Simulate(StartingCapital, ctx, bars);
    var book := st.book;
    if book.holding && |book.trades| > 0 && book.trades[|book.trades| - 1].exit.None? {
      book := CloseAll(StartingCapital, book, lastAt, lastClose, OpenAtEnd);
    }
    trades, capital := book.trades, book.capital;
  }

  // ---- what the script promises ----

  /** Lines 131-144: the first date with an earlier SMA date only seeds the
      previous flag from that SMA date's daily close against its SMA, and
      its remaining bars trade nothing; dates without one are skipped. */
  lemma SeedRule(start: real, ctx: Context, s: State, b: Bar)
    requires Ok(start, s) && b.close != 0.0
    ensures (forall k :: k in ctx.sma ==> b.at.day <= k) ==> Step(start, ctx, s, b) == s
    ensures LatestKeyBefore(ctx.sma.Keys, b.at.day).Some? && s.prev.None? ==>
      var k := LatestKeyBefore(ctx.sma.Keys, b.at.day).value;
      Step(start, ctx, s, b) == s.(prev := Some(k in ctx.closes && ctx.closes[k] > ctx.sma[k]), seedDay := Some(b.at.day))
    ensures s.prev.Some? && s.seedDay == Some(b.at.day) ==> Step(start, ctx, s, b) == s
  {
  }

  /** Lines 160-164: a TQQQ bar without a QQQ bar at its timestamp changes
      nothing. */
  lemma UnquotedSkipped(start: real, ctx: Context, s: State, b: Bar)
    requires Ok(start, s) && b.close != 0.0 && s.prev.Some? && b.at !in ctx.quoted
    ensures Step(start, ctx, s, b) == s
  {
  }

  /** Lines 175-210: the stop fills at the active stop, labelled a trailing
      stop exactly when the trailing level is at least the fixed one; a
      bearish cross exits at the close only when no stop fired; an exit
      leaves no shares, zeroes the entry and the high, sets the capital to
      the shares' value at the fill and records the date. */
  lemma {:induction false} ExitRule(start: real, s: State, b: Bar, above: bool)
    requires Ok(start, s) && s.book.holding
    ensures var r := CheckExit(start, s, b, above);
      var raised := Raise(s.book, b.high);
      var fixed := FixedStop(raised.entry, FixedStopPct);
      var trailing := TrailingStop(raised.highest, TrailingStopPct);
      var stop := if fixed >= trailing then fixed else trailing;
      var n := |s.book.trades|;
      && |r.book.trades| == n
      && (b.low <= stop ==>
            && r.book.trades[n - 1].exit == Some(Exit(b.at, stop, PnlAt(s.book, stop), if trailing >= fixed then TrailStop else FixedStopHit))
            && r.book.capital == Fills.Value(s.book.shares, stop))
      && (!(b.low <= stop) && s.prev == Some(true) && !above ==>
            && r.book.trades[n - 1].exit == Some(Exit(b.at, b.close, PnlAt(s.book, b.close), SmaExit))
            && r.book.capital == Fills.Value(s.book.shares, b.close))
      && (b.low <= stop || (s.prev == Some(true) && !above) ==>
            && !r.book.holding && r.book.shares == 0.0 && r.book.entry == 0.0 && r.book.highest == 0.0
            && r.lastExit == Some(b.at.day))
      && (!(b.low <= stop) && !(s.prev == Some(true) && !above) ==> r == s.(book := raised))
  {
  }

  /** Lines 213-233: from flat, a quoted bar of a traded date enters at its
      close, with the high of the bar, exactly when the flag goes from False
      to above and the date had no exit. */
  lemma {:induction false} EntryRule(start: real, ctx: Context, s: State, b: Bar)
    requires Ok(start, s) && b.close != 0.0 && !s.book.holding && s.prev.Some? && s.seedDay != Some(b.at.day)
    requires b.at in ctx.quoted && LatestKeyBefore(ctx.sma.Keys, b.at.day).Some?
    ensures var r := Step(start, ctx, s, b);
      var above := b.signal > ctx.sma[LatestKeyBefore(ctx.sma.Keys, b.at.day).value];
      && r.prev == Some(above)
      && (r.book.holding <==> s.lastExit != Some(b.at.day) && s.prev == Some(false) && above)
      && (r.book.holding ==>
            && r.book.highest == b.high && r.book.entry == b.close
            && r.book.trades == Append(s.book.trades, b.at, b.close, Fills.SharesFor(s.book.capital, b.close)))
      && (!r.book.holding ==> r.book == s.book)
  {
  }

  /** The T+1 bookkeeping the loop keeps. */
  predicate Cooldown(s: State)
  {
    NoSameDayReentry(s.book.trades, AnyExit) && ExitDayTracked(s.lastExit, s.book.trades, AnyExit)
  }

  /** Over a whole run no trade opens on the date its predecessor closed. */
  lemma {:induction false} RunNoSameDayReentry(start: real, ctx: Context, bars: seq<Bar>)
    requires CloseDivisible(bars)
    ensures Cooldown(Run(start, ctx, bars))
    ensures NoSameDayReentry(Run(start, ctx, bars).book.trades, AnyExit)
  {
    if bars != [] {
      RunNoSameDayReentry(start, ctx, bars[..|bars| - 1]);
      StepCooldown(start, ctx, Run(start, ctx, bars[..|bars| - 1]), bars[|bars| - 1]);
    }
  }

  lemma {:induction false} StepCooldown(start: real, ctx: Context, s: State, b: Bar)
    requires Ok(start, s) && b.close != 0.0 && Cooldown(s)
    ensures Cooldown(Step(start, ctx, s, b))
  {
    var d := b.at.day;
    var ref := LatestKeyBefore(ctx.sma.Keys, d);
    if ref.Some? && s.prev.Some? && s.seedDay != Some(d) && b.at in ctx.quoted {
      var above := b.signal > ctx.sma[ref.value];
      if s.book.holding {
        var raised := Raise(s.book, b.high);
        Reframe(start, s.book, raised);
        var stop := StopOf(raised, FixedStopPct, TrailingStopPct);
        if b.low <= stop {
          CloseLastKeepsReentryRule(raised.trades, AnyExit, Some(d), Exit(b.at, stop, PnlAt(raised, stop), StopLabel(raised)));
        } else if s.prev == Some(true) && !above {
          CloseLastKeepsReentryRule(raised.trades, AnyExit, Some(d), Exit(b.at, b.close, PnlAt(raised, b.close), SmaExit));
        }
      } else if s.lastExit != Some(d) && s.prev == Some(false) && above {
        AppendKeepsReentryRule(s.book.trades, AnyExit, s.lastExit, b.at, b.close, Fills.SharesFor(s.book.capital, b.close));
      }
    }
  }
}
