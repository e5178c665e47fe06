// The daily engine of sma-daily-trading (backtest_v3.py and compare_etfs.py
// run the same loop): one decision per trading day on the signal ETF's
// close against its SMA, fills on the leveraged ETF's daily bar. The hybrid
// stop is checked on the daily close and exits there; a bearish cross exits
// at the open; every exit locks trading through the next calendar day; and
// after a stop the strategy remembers whether the signal was still above,
// re-entering at the next unlocked open if it still is.
module DailyEngine {
  import Fills
  import opened Core
  import opened Stops
  import opened DailySma

  /** run_backtest's parameters: starting capital, SMA period, the two stop
      percentages and the first backtest date. */
  datatype Params = Params(capital: real, smaPeriod: nat, fixedPct: real, trailPct: real, startDay: int)

  /** The defaults of both scripts: $10,000, a 100-day SMA, a 10% fixed and
      a 15% trailing stop, from 2021-07-01. */
  const BacktestStartDay: int := 18809
  const Defaults: Params := Params(10000.0, 100, 10.0, 15.0, BacktestStartDay)

  /** The trade ETF's daily bar. */
  datatype Ohlc = Ohlc(open: real, high: real, close: real)

  /** One row of the aligned frames: the signal close and its SMA (None
      where the rolling mean is NaN) and the trade ETF's bar. */
  datatype Day = Day(day: int, close: real, sma: Option<real>, trade: Ohlc)

  /** `close > sma`; a comparison with NaN is False. */
  predicate Above(r: Day)
  {
    r.sma.Some? && r.close > r.sma.value
  }

  // ---- aligning the frames (lines 53-62 of backtest_v3.py) ----

  /** Signal row i joined with the trade ETF's bar of the same date. */
  function RowAt(signal: seq<DailyBar>, trade: map<int, Ohlc>, p: nat, i: int): Day
    requires 0 <= i < |signal| && signal[i].day in trade
  {
    Day(signal[i].day, signal[i].close, Rolling(signal, p, i), trade[signal[i].day])
  }

  /** Whether signal row i survives the alignment and the start filter. */
  predicate Kept(signal: seq<DailyBar>, trade: map<int, Ohlc>, startDay: int, i: int)
    requires 0 <= i < |signal|
  {
    signal[i].day in trade && signal[i].day >= startDay
  }

  /** The SMA is computed over the whole signal download; the rows kept are
      the dates the trade ETF also has, from the backtest start on, in the
      signal's order. */
  function Align(signal: seq<DailyBar>, trade: map<int, Ohlc>, p: nat, startDay: int, n: nat): (rows: seq<Day>)
    requires n <= |signal|
    ensures |rows| <= n
    ensures forall i :: 0 <= i < n && Kept(signal, trade, startDay, i) ==> RowAt(signal, trade, p, i) in rows
  {
    if n == 0 then []
    else
      var rest := Align(signal, trade, p, startDay, n - 1);
      if Kept(signal, trade, startDay, n - 1) then rest + [RowAt(signal, trade, p, n - 1)]
      else rest
  }

  /** Every aligned row is a kept signal row, with the SMA of the whole
      signal series at that row. */
  lemma {:induction false} AlignOnlyKept(signal: seq<DailyBar>, trade: map<int, Ohlc>, p: nat, startDay: int, n: nat, k: int)
    requires n <= |signal| && 0 <= k < |Align(signal, trade, p, startDay, n)|
    ensures exists i :: 0 <= i < n && Kept(signal, trade, startDay, i) && Align(signal, trade, p, startDay, n)[k] == RowAt(signal, trade, p, i)
  {
    var rest := Align(signal, trade, p, startDay, n - 1);
    if k < |rest| {
      AlignOnlyKept(signal, trade, p, startDay, n - 1, k);
      var i :| 0 <= i < n - 1 && Kept(signal, trade, startDay, i) && rest[k] == RowAt(signal, trade, p, i);
      assert Align(signal, trade, p, startDay, n)[k] == rest[k];
    } else {
      assert Align(signal, trade, p, startDay, n)[k] == RowAt(signal, trade, p, n - 1);
    }
  }

  // ---- the simulation ----

  datatype EntryReason = CrossEntry | Reentry   // 'CROSS' / 'REENT'

  datatype ExitReason = TrailExit | FixedExit | SmaCrossExit | EndExit   // 'TRAIL' / 'FIXED' / 'SMA' / 'END'

  /** The open position dict. */
  datatype Holding = Holding(entryDay: int, entryPrice: real, shares: real, high: real, reason: EntryReason)

  /** A completed trade as appended to `trades`. */
  datatype Closed = Closed(entryDay: int, entryPrice: real, exitDay: int, exitPrice: real, pnl: real,
                           exitReason: ExitReason, entryReason: EntryReason)

  /** portfolio, position, signal_memory, t1_locked_until and trades. */
  datatype State = State(portfolio: real, position: Option<Holding>, memory: bool, lockedUntil: Option<int>, trades: seq<Closed>)

  function TotalPnl(trades: seq<Closed>): real
  {
    if trades == [] then 0.0 else TotalPnl(trades[..|trades| - 1]) + trades[|trades| - 1].pnl
  }

  lemma TotalPnlAppend(trades: seq<Closed>, c: Closed)
    ensures TotalPnl(trades + [c]) == TotalPnl(trades) + c.pnl
  {
    assert (trades + [c])[..|trades|] == trades;
  }

  /** Every open price can be divided by (`portfolio / open`). */
  predicate OpensDivisible(rows: seq<Day>)
  {
    forall i :: 0 <= i < |rows| ==> rows[i].trade.open != 0.0
  }

  function Raised(h: Holding, high: real): (r: Holding)
    ensures r == h.(high := r.high) && r.high >= h.high && r.high >= high
  {
    if high > h.high then h.(high := high) else h
  }

  /** The exit block: pnl = (exit - entry) * shares is added to the
      portfolio and the trade appended; trading is locked through the next
      calendar day. */
  function Close(s: State, h: Holding, d: int, price: real, reason: ExitReason): (r: State)
    ensures r.position.None? && r.lockedUntil == Some(d + 1) && r.memory == s.memory
    ensures r.trades == s.trades + [Closed(h.entryDay, h.entryPrice, d, price, Fills.Value(h.shares, price - h.entryPrice), reason, h.reason)]
    ensures r.portfolio == s.portfolio + Fills.Value(h.shares, price - h.entryPrice)
  {
    var pnl := Fills.Value(h.shares, price - h.entryPrice);
    s.(portfolio := s.portfolio + pnl, position := None, lockedUntil := Some(d + 1),
       trades := s.trades + [Closed(h.entryDay, h.entryPrice, d, price, pnl, reason, h.reason)])
  }

  /** The entry block: all of the portfolio at the open. */
  function Open(s: State, today: Day, reason: EntryReason): State
    requires today.trade.open != 0.0
  {
    s.(position := Some(Holding(today.day, today.trade.open, Fills.SharesFor(s.portfolio, today.trade.open), today.trade.high, reason)))
  }

  /** The stop label: TRAIL when the trailing level is at least the fixed
      one. */
  function StopReason(ps: Params, h: Holding): ExitReason
  {
    if TrailingStop(h.high, ps.trailPct / 100.0) >= FixedStop(h.entryPrice, ps.fixedPct / 100.0) then TrailExit else FixedExit
  }

  /** Lines 90-156 of backtest_v3.py while holding. */
  function CheckExit(ps: Params, s: State, yesterday: Day, today: Day): (r: State)
    requires s.position.Some?
  {
    var h := Raised(s.position.value, today.trade.high);
    var stop := ActiveStop(h.entryPrice, h.high, ps.fixedPct / 100.0, ps.trailPct / 100.0);
    if today.trade.close <= stop then
      Close(s, h, today.day, today.trade.close, StopReason(ps, h)).(memory := Above(today))
    else if !Above(today) && Above(yesterday) then
      Close(s, h, today.day, today.trade.open, SmaCrossExit).(memory := false)
    else s.(position := Some(h))
  }

  /** Lines 158-185 of backtest_v3.py while flat: the remembered signal
      re-enters if still above; otherwise the memory is dropped and a
      bullish cross enters. */
  function CheckEntry(s: State, yesterday: Day, today: Day): (r: State)
    requires s.position.None? && today.trade.open != 0.0
  {
    if s.memory && Above(today) then Open(s, today, Reentry).(memory := false)
    else if Above(today) && !Above(yesterday) then Open(s.(memory := false), today, CrossEntry)
    else s.(memory := false)
  }

  /** One day of the loop (lines 71-185 of backtest_v3.py). */
  function Step(ps: Params, s: State, yesterday: Day, today: Day): (r: State)
    requires today.trade.open != 0.0
  {
    if s.lockedUntil.Some? && today.day <= s.lockedUntil.value then
      if s.position.Some? then s.(position := Some(Raised(s.position.value, today.trade.high))) else s
    else if s.position.Some? then CheckExit(ps, s, yesterday, today)
    else CheckEntry(s, yesterday, today)
  }

  function Initial(ps: Params): State
  {
    State(ps.capital, None, false, None, [])
  }

  /** The state after the loop has run over days 1 .. n - 1. */
  function Run(ps: Params, rows: seq<Day>, n: nat): State
    requires n <= |rows| && OpensDivisible(rows)
  {
    if n <= 1 then Initial(ps)
    else Step(ps, Run(ps, rows, n - 1), rows[n - 2], rows[n - 1])
  }

  /** Lines 187-210: a position still open is closed at the last close as
      END. */
  function Finish(s: State, rows: seq<Day>): (r: State)
    requires |rows| > 0
  {
    if s.position.Some? then
      var last := rows[|rows| - 1];
      var h := s.position.value;
      var pnl := Fills.Value(h.shares, last.trade.close - h.entryPrice);
      s.(portfolio := s.portfolio + pnl, position := None,
         trades := s.trades + [Closed(h.entryDay, h.entryPrice, last.day, last.trade.close, pnl, EndExit, h.reason)])
    else s
  }

  /** The trades and the final portfolio. */
  function Backtest(ps: Params, rows: seq<Day>): (r: State)
    requires OpensDivisible(rows)
    ensures r.position.None?
    ensures r.portfolio == ps.capital + TotalPnl(r.trades)
  {
    if rows == [] then Initial(ps)
    else
      RunBalance(ps, rows, |rows|);
      var s := Run(ps, rows, |rows|);
      if s.position.Some? then
        TotalPnlAppend(s.trades, Closed(s.position.value.entryDay, s.position.value.entryPrice, rows[|rows| - 1].day,
          rows[|rows| - 1].trade.close, Fills.Value(s.position.value.shares, rows[|rows| - 1].trade.close - s.position.value.entryPrice),
          EndExit, s.position.value.reason));
        Finish(s, rows)
      else Finish(s, rows)
  }

  /** Lines 212-214: buy-and-hold of the signal ETF. */
  function BuyAndHold(capital: real, rows: seq<Day>): real
    requires |rows| > 0 && rows[0].close != 0.0
  {
    capital * (rows[|rows| - 1].close / rows[0].close)
  }

  // ---- the loop as written ----

  /** The stop and cross-exit checks of one held day. */
  method CheckExits(ps: Params, s: State, yesterday: Day, today: Day) returns (r: State)
    requires s.position.Some?
    ensures r == CheckExit(ps, s, yesterday, today)
  {
    var aboveSmaToday, aboveSmaYest := Above(today), Above(yesterday);
    var position := s.position.value;
    var highSinceEntry := position.high;
    if today.trade.high > highSinceEntry {
      highSinceEntry := today.trade.high;
    }
    position := position.(high := highSinceEntry);
    var fixedStop := FixedStop(position.entryPrice, ps.fixedPct / 100.0);
    var trailingStop := TrailingStop(position.high, ps.trailPct / 100.0);
    var effectiveStop := if fixedStop >= trailingStop then fixedStop else trailingStop;
    var stopType := if trailingStop >= fixedStop then TrailExit else FixedExit;
    if today.trade.close <= effectiveStop {
      var exitPrice := today.trade.close;
      var pnl := Fills.Value(position.shares, exitPrice - position.entryPrice);
      r := s.(portfolio := s.portfolio + pnl, position := None, lockedUntil := Some(today.day + 1),
              trades := s.trades + [Closed(position.entryDay, position.entryPrice, today.day, exitPrice, pnl, stopType, position.reason)],
              memory := aboveSmaToday);
      return;
    }
    if !aboveSmaToday && aboveSmaYest {
      var exitPrice := today.trade.open;
      var pnl := Fills.Value(position.shares, exitPrice - position.entryPrice);
      r := s.(portfolio := s.portfolio + pnl, position := None, lockedUntil := Some(today.day + 1),
              trades := s.trades + [Closed(position.entryDay, position.entryPrice, today.day, exitPrice, pnl, SmaCrossExit, position.reason)],
              memory := false);
      return;
    }
    r := s.(position := Some(position));
  }

  /** One pass of the loop body. */
  method ProcessDay(ps: Params, s: State, yesterday: Day, today: Day) returns (r: State)
    requires today.trade.open != 0.0
    ensures r == Step(ps, s, yesterday, today)
  {
    if s.lockedUntil.Some? && today.day <= s.lockedUntil.value {
      r := s;
      if r.position.Some? {
        var high := if r.position.value.high >= today.trade.high then r.position.value.high else today.trade.high;
        r := r.(position := Some(r.position.value.(high := high)));
      }
      return;
    }
    if s.position.Some? {
      r := CheckExits(ps, s, yesterday, today);
      return;
    }
    r := s;
    var aboveSmaToday, aboveSmaYest := Above(today), Above(yesterday);
    if r.memory {
      if aboveSmaToday {
        var entryPrice := today.trade.open;
        var shares := Fills.SharesFor(r.portfolio, entryPrice);
        r := r.(position := Some(Holding(today.day, entryPrice, shares, today.trade.high, Reentry)), memory := false);
        return;
      } else {
        r := r.(memory := false);
      }
    }
    if aboveSmaToday && !aboveSmaYest {
      var entryPrice := today.trade.open;
      var shares := Fills.SharesFor(r.portfolio, entryPrice);
      r := r.(position := Some(Holding(today.day, entryPrice, shares, today.trade.high, CrossEntry)));
    }
  }

  /** `for i in range(1, len(rows))` and the final close. */
  method RunBacktest(ps: Params, rows: seq<Day>) returns (trades: seq<Closed>, portfolio: real)
    requires OpensDivisible(rows)
    ensures trades == Backtest(ps, rows).trades && portfolio == Backtest(ps, rows).portfolio
  {
    var st := Initial(ps);
    var i := 1;
    while i < |rows|
      invariant 1 <= i <= |rows| || (rows == [] && i == 1)
      invariant st == Run(ps, rows, if rows == [] then 0 else i)
    {
      st := ProcessDay(ps, st, rows[i - 1], rows[i]);
      i := i + 1;
    }
    if st.position.Some? {
      var h := st.position.value;
      var exitPrice := rows[|rows| - 1].trade.close;
      var pnl := Fills.Value(h.shares, exitPrice - h.entryPrice);
      st := st.(portfolio := st.portfolio + pnl, position := None,
                trades := st.trades + [Closed(h.entryDay, h.entryPrice, rows[|rows| - 1].day, exitPrice, pnl, EndExit, h.reason)]);
    }
    trades, portfolio := st.trades, st.portfolio;
  }

  // ---- what the engine promises ----

  /** Lines 105, 132 and 191: the portfolio is the starting capital plus
      the pnl of every trade closed so far. */
  lemma {:induction false} RunBalance(ps: Params, rows: seq<Day>, n: nat)
    requires n <= |rows| && OpensDivisible(rows)
    ensures Run(ps, rows, n).portfolio == ps.capital + TotalPnl(Run(ps, rows, n).trades)
  {
    if n > 1 {
      RunBalance(ps, rows, n - 1);
      var s := Run(ps, rows, n - 1);
      StepBalance(ps, s, rows[n - 2], rows[n - 1]);
    }
  }

  lemma StepBalance(ps: Params, s: State, yesterday: Day, today: Day)
    requires today.trade.open != 0.0
    ensures Step(ps, s, yesterday, today).portfolio - TotalPnl(Step(ps, s, yesterday, today).trades)
      == s.portfolio - TotalPnl(s.trades)
  {
    var r := Step(ps, s, yesterday, today);
    if r.trades != s.trades {
      assert r.trades == s.trades + [r.trades[|r.trades| - 1]];
      TotalPnlAppend(s.trades, r.trades[|r.trades| - 1]);
    }
  }

  /** Lines 85-88: on a locked day (up to and including the day after an
      exit) only the high since entry moves. */
  lemma LockedDay(ps: Params, s: State, yesterday: Day, today: Day)
    requires today.trade.open != 0.0 && s.lockedUntil.Some? && today.day <= s.lockedUntil.value
    ensures var r := Step(ps, s, yesterday, today);
      && r.trades == s.trades && r.portfolio == s.portfolio && r.memory == s.memory
      && r.lockedUntil == s.lockedUntil && r.position.Some? == s.position.Some?
      && (s.position.Some? ==> r.position.value == Raised(s.position.value, today.trade.high))
  {
  }

  /** Lines 94-126: the stop is the higher of the two levels after raising
      the high; a close at or below it exits at that close, labelled TRAIL
      exactly when the trailing level is at least the fixed one, and
      remembers whether the signal is still above. Lines 128-156: otherwise
      a bearish cross exits at the open and clears the memory. */
  lemma {:induction false} ExitRule(ps: Params, s: State, yesterday: Day, today: Day)
    requires today.trade.open != 0.0 && s.position.Some? && !(s.lockedUntil.Some? && today.day <= s.lockedUntil.value)
    ensures var r := Step(ps, s, yesterday, today);
      var h := Raised(s.position.value, today.trade.high);
      var fixed := FixedStop(h.entryPrice, ps.fixedPct / 100.0);
      var trailing := TrailingStop(h.high, ps.trailPct / 100.0);
      var stopped := today.trade.close <= (if fixed >= trailing then fixed else trailing);
      var crossed := !Above(today) && Above(yesterday);
      && (stopped ==>
            && r.position.None? && r.memory == Above(today) && r.lockedUntil == Some(today.day + 1)
            && r.trades == s.trades + [Closed(h.entryDay, h.entryPrice, today.day, today.trade.close,
                 Fills.Value(h.shares, today.trade.close - h.entryPrice), if trailing >= fixed then TrailExit else FixedExit, h.reason)])
      && (!stopped && crossed ==>
            && r.position.None? && !r.memory && r.lockedUntil == Some(today.day + 1)
            && r.trades == s.trades + [Closed(h.entryDay, h.entryPrice, today.day, today.trade.open,
                 Fills.Value(h.shares, today.trade.open - h.entryPrice), SmaCrossExit, h.reason)])
      && (!stopped && !crossed ==> r == s.(position := Some(h)))
  {
  }

  /** Lines 158-185: on an unlocked flat day the memory, if set, re-enters
      at the open as REENT when the signal is still above; in every other
      case the memory ends up cleared and a bullish cross enters at the open
      as CROSS with all of the portfolio. */
  lemma {:induction false} EntryRule(ps: Params, s: State, yesterday: Day, today: Day)
    requires today.trade.open != 0.0 && s.position.None? && !(s.lockedUntil.Some? && today.day <= s.lockedUntil.value)
    ensures var r := Step(ps, s, yesterday, today);
      && !r.memory && r.trades == s.trades && r.portfolio == s.portfolio && r.lockedUntil == s.lockedUntil
      && (r.position.Some? <==> (s.memory && Above(today)) || (Above(today) && !Above(yesterday)))
      && (r.position.Some? ==>
            r.position.value == Holding(today.day, today.trade.open, Fills.SharesFor(s.portfolio, today.trade.open), today.trade.high,
                                        if s.memory then Reentry else CrossEntry))
  {
  }

  /** Consecutive trades are separated by the lock: each entry comes at
      least two calendar days after the previous exit. */
  predicate Spaced(trades: seq<Closed>)
  {
    forall j :: 1 <= j < |trades| ==> trades[j].entryDay > trades[j - 1].exitDay + 1
  }

  /** The lock bookkeeping the loop keeps. */
  predicate LockKept(s: State)
  {
    && Spaced(s.trades)
    && (s.trades == [] <==> s.lockedUntil.None?)
    && (s.trades != [] ==> s.lockedUntil == Some(s.trades[|s.trades| - 1].exitDay + 1))
    && (s.trades != [] && s.position.Some? ==> s.position.value.entryDay > s.trades[|s.trades| - 1].exitDay + 1)
  }

  /** Over a whole run (the final END close included) no trade opens on the
      calendar day of the previous exit or the day after. */
  lemma {:induction false} RunSpaced(ps: Params, rows: seq<Day>, n: nat)
    requires n <= |rows| && OpensDivisible(rows)
    ensures LockKept(Run(ps, rows, n))
  {
    if n > 1 {
      RunSpaced(ps, rows, n - 1);
      StepLockKept(ps, Run(ps, rows, n - 1), rows[n - 2], rows[n - 1]);
    }
  }

  lemma StepLockKept(ps: Params, s: State, yesterday: Day, today: Day)
    requires today.trade.open != 0.0 && LockKept(s)
    ensures LockKept(Step(ps, s, yesterday, today))
  {
    if s.lockedUntil.Some? && today.day <= s.lockedUntil.value {
      LockedStepKeepsLock(ps, s, yesterday, today);
    } else if s.position.Some? {
      ExitStepKeepsLock(ps, s, yesterday, today);
    } else {
      OpenKeepsLock(s, today, Reentry);
      OpenKeepsLock(s.(memory := false), today, CrossEntry);
      assert Step(ps, s, yesterday, today) == CheckEntry(s, yesterday, today);
    }
  }

  lemma LockedStepKeepsLock(ps: Params, s: State, yesterday: Day, today: Day)
    requires today.trade.open != 0.0 && LockKept(s)
    requires s.lockedUntil.Some? && today.day <= s.lockedUntil.value
    ensures LockKept(Step(ps, s, yesterday, today))
  {
    if s.position.Some? {
      var r := Step(ps, s, yesterday, today);
      assert r == s.(position := Some(Raised(s.position.value, today.trade.high)));
    }
  }

  lemma ExitStepKeepsLock(ps: Params, s: State, yesterday: Day, today: Day)
    requires today.trade.open != 0.0 && LockKept(s) && s.position.Some?
    requires !(s.lockedUntil.Some? && today.day <= s.lockedUntil.value)
    ensures LockKept(Step(ps, s, yesterday, today))
  {
    assert Step(ps, s, yesterday, today) == CheckExit(ps, s, yesterday, today);
    var h := Raised(s.position.value, today.trade.high);
    var stop := ActiveStop(h.entryPrice, h.high, ps.fixedPct / 100.0, ps.trailPct / 100.0);
    if today.trade.close <= stop {
      CloseKeepsLock(s, h, today.day, today.trade.close, StopReason(ps, h), Above(today));
    } else if !Above(today) && Above(yesterday) {
      CloseKeepsLock(s, h, today.day, today.trade.open, SmaCrossExit, false);
    } else {
      assert CheckExit(ps, s, yesterday, today) == s.(position := Some(h));
    }
  }

  /** An exit records the day it locks from, after its entry. */
  lemma CloseKeepsLock(s: State, h: Holding, d: int, price: real, reason: ExitReason, m: bool)
    requires LockKept(s) && s.position.Some? && h.entryDay == s.position.value.entryDay
    ensures LockKept(Close(s, h, d, price, reason).(memory := m))
  {
    var r := Close(s, h, d, price, reason).(memory := m);
    assert r.trades[..|s.trades|] == s.trades;
    forall j | 1 <= j < |r.trades| ensures r.trades[j].entryDay > r.trades[j - 1].exitDay + 1 {
      if j < |s.trades| {
        assert r.trades[j] == s.trades[j] && r.trades[j - 1] == s.trades[j - 1];
      }
    }
  }

  /** An entry past the lock opens after the last exit's following day. */
  lemma OpenKeepsLock(s: State, today: Day, reason: EntryReason)
    requires LockKept(s) && s.position.None? && today.trade.open != 0.0
    requires !(s.lockedUntil.Some? && today.day <= s.lockedUntil.value)
    ensures LockKept(Open(s, today, reason)) && LockKept(Open(s, today, reason).(memory := false))
  {
  }

  lemma BacktestSpaced(ps: Params, rows: seq<Day>)
    requires OpensDivisible(rows)
    ensures Spaced(Backtest(ps, rows).trades)
  {
    if rows != [] {
      RunSpaced(ps, rows, |rows|);
      BacktestIsFinish(ps, rows);
      FinishSpaced(Run(ps, rows, |rows|), rows);
    }
  }

  lemma BacktestIsFinish(ps: Params, rows: seq<Day>)
    requires OpensDivisible(rows) && rows != []
    ensures Backtest(ps, rows) == Finish(Run(ps, rows, |rows|), rows)
  {
  }

  /** The END close comes after the position's entry, which the lock
      already spaced from the previous exit. */
  lemma FinishSpaced(s: State, rows: seq<Day>)
    requires |rows| > 0 && LockKept(s)
    ensures Spaced(Finish(s, rows).trades)
  {
    if s.position.Some? {
      var t := Finish(s, rows).trades;
      assert t[..|s.trades|] == s.trades;
      forall j | 1 <= j < |t| ensures t[j].entryDay > t[j - 1].exitDay + 1 {
        if j < |s.trades| {
          assert t[j] == s.trades[j] && t[j - 1] == s.trades[j - 1];
        } else {
          assert t[j - 1] == s.trades[|s.trades| - 1];
        }
      }
    }
  }

  /** Every entry price is one of the (nonzero) opens. */
  predicate EntriesPriced(s: State)
  {
    (s.position.Some? ==> s.position.value.entryPrice != 0.0)
    && forall j :: 0 <= j < |s.trades| ==> s.trades[j].entryPrice != 0.0
  }

  lemma {:induction false} RunPriced(ps: Params, rows: seq<Day>, n: nat)
    requires n <= |rows| && OpensDivisible(rows)
    ensures EntriesPriced(Run(ps, rows, n))
  {
    if n > 1 {
      RunPriced(ps, rows, n - 1);
      var s := Run(ps, rows, n - 1);
      var r := Step(ps, s, rows[n - 2], rows[n - 1]);
      if r.trades != s.trades {
        assert r.trades[..|s.trades|] == s.trades;
      }
    }
  }

  lemma BacktestPriced(ps: Params, rows: seq<Day>)
    requires OpensDivisible(rows)
    ensures forall j :: 0 <= j < |Backtest(ps, rows).trades| ==> Backtest(ps, rows).trades[j].entryPrice != 0.0
  {
    if rows != [] {
      RunPriced(ps, rows, |rows|);
      var s := Run(ps, rows, |rows|);
      var t := Finish(s, rows).trades;
      assert Backtest(ps, rows).trades == t;
      if s.position.Some? {
        assert t[..|s.trades|] == s.trades;
      }
    }
  }

  /** backtest_v3.py's run_backtest: align, simulate, close, and the
      buy-and-hold final of the signal ETF from its first and last close in
      the backtest period. */
  method RunV3(ps: Params, signal: seq<DailyBar>, trade: map<int, Ohlc>) returns (trades: seq<Closed>, portfolio: real, bhFinal: real)
    requires var rows := Align(signal, trade, ps.smaPeriod, ps.startDay, |signal|);
      OpensDivisible(rows) && |rows| > 0 && rows[0].close != 0.0
    ensures var rows := Align(signal, trade, ps.smaPeriod, ps.startDay, |signal|);
      && trades == Backtest(ps, rows).trades && portfolio == Backtest(ps, rows).portfolio
      && bhFinal == BuyAndHold(ps.capital, rows)
  {
    var rows := Align(signal, trade, ps.smaPeriod, ps.startDay, |signal|);
    trades, portfolio := RunBacktest(ps, rows);
    var startPrice, endPrice := rows[0].close, rows[|rows| - 1].close;
    bhFinal := ps.capital * (endPrice / startPrice);
  }
}
