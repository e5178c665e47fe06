// sma50_v3: the intraday cross of QQQ's 15-minute close against the latest
// SMA(50) of a strictly earlier date, TQQQ held with the hybrid stop filled
// exactly at the stop, a bearish cross exiting at the bar's close, and no
// entry on a date that already had an exit.
module SmaV3 {
  import opened Core
  import opened Stops
  import opened Ledger
  import opened DailySma
  import opened Position

  const FixedStopPct: real := 0.075
  const TrailingStopPct: real := 0.15
  const StartingCapital: real := 10000.0
  const SmaPeriod: nat := 50

  /** The book plus last_exit_date and prev_above_sma (None until seeded). */
  datatype State = State(book: Book, lastExit: Option<int>, prev: Option<bool>)

  /** The book's invariant, for the starting capital `start`. */
  predicate Ok(start: real, s: State)
  {
    Valid(start, s.book)
  }


  /** Lines 79-106: raise the high, then the stop (low <= active stop, filled
      at the stop) or a bearish cross (filled at the close). */
  function CheckExit(start: real, s: State, b: Bar, above: bool): (r: State)
    requires Ok(start, s) && s.book.holding
    ensures Ok(start, r) && r.prev == s.prev
  {
    var raised := Raise(s.book, b.high);
    Reframe(start, s.book, raised);
    var stop := StopOf(raised, FixedStopPct, TrailingStopPct);
    if b.low <= stop then
      s.(book := Sell(start, raised, b.at, stop, StopHit), lastExit := Some(b.at.day))
    else if s.prev == Some(true) && !above then
      s.(book := Sell(start, raised, b.at, b.close, SmaExit), lastExit := Some(b.at.day))
    else s.(book := raised)
  }

  /** One pass of the loop body (lines 56-123). */
  function Step(start: real, sma: map<int, real>, s: State, b: Bar): (r: State)
    requires Ok(start, s) && b.close != 0.0
    ensures Ok(start, r)
  {
    match RefSma(sma, b.at.day)
    case None => s
    case Some(ref) =>
      var above := b.signal > ref;
      if s.prev.None? then s.(prev := Some(above))
      else if s.book.holding then CheckExit(start, s, b, above).(prev := Some(above))
      else if s.prev == Some(false) && above then
        if s.lastExit == Some(b.at.day) then s.(prev := Some(above))
        else s.(book := Buy(start, s.book, b.at, b.close, b.high), prev := Some(above))
      else s.(prev := Some(above))
  }

  function Run(start: real, sma: map<int, real>, bars: seq<Bar>): (s: State)
    requires CloseDivisible(bars)
    ensures Ok(start, s)
  {
    if bars == [] then State(Fresh(start), None, None)
    else
      Step(start, sma, Run(start, sma, bars[..|bars| - 1]), bars[|bars| - 1])
  }

  /** The whole script as a value: the market-hours bars simulated against
      the SMA table, then the open position closed at the last close. */
  function Backtest(rows: seq<DailyBar>, bars: seq<Bar>, lastAt: Stamp, lastClose: real): (r: Book)
    requires CloseDivisible(bars)
    ensures OnlyLastOpen(r.trades) && !LastOpen(r.trades)
    ensures r.capital == StartingCapital + ClosedPnl(r.trades)
  {
    MarketHoursDivisible(bars);
    Settle(StartingCapital, Run(StartingCapital, SmaTable(rows, SmaPeriod), MarketHours(bars)).book, lastAt, lastClose)
  }

  lemma MarketHoursDivisible(bars: seq<Bar>)
    requires CloseDivisible(bars)
    ensures CloseDivisible(MarketHours(bars))
  {
    var w := MarketHours(bars);
    forall i | 0 <= i < |w| ensures NonZeroClose(w[i]) {
      assert w[i] in bars;
    }
  }

  /** The loop body over one bar. */
  method ProcessBar(start: real, smaByDate: map<int, real>, s: State, b: Bar) returns (r: State)
    requires Ok(start, s) && b.close != 0.0
    ensures r == Step(start, smaByDate, s, b)
  {
    var ref := RefSma(smaByDate, b.at.day);
    if ref.None? {
      return s;
    }
    var aboveSma := b.signal > ref.value;
    if s.prev.None? {
      return s.(prev := Some(aboveSma));
    }
    var State(book, lastExitDate, prevAboveSma) := s;
    if book.holding {
      var highest := book.highest;
      if b.high > highest {
        highest := b.high;
      }
      var activeStop := ActiveStop(book.entry, highest, FixedStopPct, TrailingStopPct);
      book := book.(highest := highest);
      Reframe(start, s.book, book);
      if b.low <= activeStop {
        book := CloseAll(start, book, b.at, activeStop, StopHit);
        lastExitDate := Some(b.at.day);
      } else if prevAboveSma == Some(true) && !aboveSma {
        book := CloseAll(start, book, b.at, b.close, SmaExit);
        lastExitDate := Some(b.at.day);
      }
    } else if prevAboveSma == Some(false) && aboveSma {
      if lastExitDate == Some(b.at.day) {
        // T+1
        return s.(prev := Some(aboveSma));
      }
      book := OpenAll(start, book, b.at, b.close, b.high);
    }
    r := State(book, lastExitDate, Some(aboveSma));
  }

  /** The loop of lines 56-123 over the market-hours bars. */
  method Simulate(start: real, smaByDate: map<int, real>, commonTs: seq<Bar>) returns (st: State)
    requires CloseDivisible(commonTs)
    ensures st == Run(start, smaByDate, commonTs)
  {
    st := State(Fresh(start), None, None);
    var i := 0;
    while i < |commonTs|
      invariant 0 <= i <= |commonTs|
      invariant st == Run(start, smaByDate, commonTs[..i])
    {
      assert commonTs[..i + 1][..i] == commonTs[..i];
      st := ProcessBar(start, smaByDate, st, commonTs[i]);
      i := i + 1;
    }
    assert commonTs[..i] == commonTs;
  }

  /** The script: the SMA table, the loop over the market-hours bars and the
      final close of an open position (lines 125-133). */
  method RunV3(rows: seq<DailyBar>, bars: seq<Bar>, lastAt: Stamp, lastClose: real) returns (trades: seq<Trade>, capital: real)
    requires CloseDivisible(bars)
    ensures trades == Backtest(rows, bars, lastAt, lastClose).trades
    ensures capital == Backtest(rows, bars, lastAt, lastClose).capital
  {
    var smaByDate, _ := BuildTables(rows, SmaPeriod);
    MarketHoursDivisible(bars);
    var st := Simulate(StartingCapital, smaByDate, MarketHours(bars));
    var book := st.book;
    if book.holding && book.trades[|book.trades| - 1].exit.None? {
      book := CloseAll(StartingCapital, book, lastAt, lastClose, OpenAtEnd);
    }
    trades, capital := book.trades, book.capital;
  }

  // ---- what the script promises ----

  /** Lines 59-65, 74-76: without an SMA of a strictly earlier date the bar
      is skipped; the first usable bar only seeds the previous flag. */
  lemma SkipAndSeed(start: real, sma: map<int, real>, s: State, b: Bar)
    requires Ok(start, s) && b.close != 0.0
    ensures (forall k :: k in sma ==> b.at.day <= k) ==> Step(start, sma, s, b) == s
    ensures RefSma(sma, b.at.day).Some? && s.prev.None? ==>
      Step(start, sma, s, b) == s.(prev := Some(b.signal > RefSma(sma, b.at.day).value))
  {
  }

  /** Lines 79-106: while holding, the stop fires on low <= active stop and
      fills at the stop; otherwise a bearish cross exits at the close; the
      position stays open exactly when neither happens. */
  lemma {:induction false} ExitRule(start: real, s: State, b: Bar, above: bool)
    requires Ok(start, s) && s.book.holding
    ensures var r := CheckExit(start, s, b, above);
      var stop := StopOf(Raise(s.book, b.high), FixedStopPct, TrailingStopPct);
      var n := |s.book.trades|;
      && |r.book.trades| == n
      && (r.book.holding <==> !(b.low <= stop) && !(s.prev == Some(true) && !above))
      && (b.low <= stop ==> r.book.trades[n - 1].exit.Some? && r.book.trades[n - 1].exit.value.reason == StopHit
                            && r.book.trades[n - 1].exit.value.price == stop)
      && (!(b.low <= stop) && s.prev == Some(true) && !above ==>
            r.book.trades[n - 1].exit.Some? && r.book.trades[n - 1].exit.value.reason == SmaExit
            && r.book.trades[n - 1].exit.value.price == b.close)
      && (!r.book.holding ==> r.lastExit == Some(b.at.day))
      && (r.book.holding ==> r.book.entry == s.book.entry && StopOf(s.book, FixedStopPct, TrailingStopPct) <= StopOf(r.book, FixedStopPct, TrailingStopPct))
  {
    RaiseRatchets(s.book, b.high, FixedStopPct, TrailingStopPct);
  }

  /** Lines 98-99, 109-121: an entry happens only from flat on a bullish
      cross, never on a date with an exit, and invests the whole capital at
      the bar's close with the high seeded from the bar. */
  lemma {:induction false} EntryRule(start: real, sma: map<int, real>, s: State, b: Bar)
    requires Ok(start, s) && b.close != 0.0 && !s.book.holding
    ensures var r := Step(start, sma, s, b);
      r.book.holding ==>
        && RefSma(sma, b.at.day).Some? && s.prev == Some(false) && b.signal > RefSma(sma, b.at.day).value
        && s.lastExit != Some(b.at.day)
        && r.book == Buy(start, s.book, b.at, b.close, b.high)
    ensures s.lastExit == Some(b.at.day) ==> !Step(start, sma, s, b).book.holding
  {
  }

  /** Full reinvestment compounds over the whole run: the capital is the
      starting capital times the product of the exit/entry ratios. */
  lemma {:induction false} RunCompounds(start: real, sma: map<int, real>, bars: seq<Bar>)
    requires CloseDivisible(bars)
    ensures Compounds(start, Run(start, sma, bars).book)
  {
    if bars != [] {
      var p := bars[..|bars| - 1];
      var s := Run(start, sma, p);
      var b := bars[|bars| - 1];
      RunCompounds(start, sma, p);
      StepCompounds(start, sma, s, b);
    }
  }

  lemma {:induction false} StepCompounds(start: real, sma: map<int, real>, s: State, b: Bar)
    requires Ok(start, s) && b.close != 0.0 && Compounds(start, s.book)
    ensures Compounds(start, Step(start, sma, s, b).book)
  {
    match RefSma(sma, b.at.day)
    case None =>
    case Some(ref) =>
      var above := b.signal > ref;
      if s.prev.None? {
      } else if s.book.holding {
        var raised := Raise(s.book, b.high);
        Reframe(start, s.book, raised);
        var stop := StopOf(raised, FixedStopPct, TrailingStopPct);
        if b.low <= stop {
          SellCompounds(start, raised, b.at, stop, StopHit);
        } else if s.prev == Some(true) && !above {
          SellCompounds(start, raised, b.at, b.close, SmaExit);
        }
      } else if s.prev == Some(false) && above && s.lastExit != Some(b.at.day) {
        BuyCompounds(start, s.book, b.at, b.close, b.high);
      }
  }
}
