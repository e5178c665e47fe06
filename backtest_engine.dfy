// run_backtest of the SMA(50) crossover engine with slippage and
// commission: QQQ's 15-minute close against the latest SMA of an earlier
// date, TQQQ traded with a hybrid fixed/trailing stop, an end-of-day close
// check that latches an exit for the next session's first bar, and a
// same-day re-entry cooldown that an end-of-day exit bypasses.
module SmaBacktest {
  import opened Core
  import opened Fills
  import opened Stops
  import opened Ledger
  import opened DailySma

  /** The command-line arguments the simulation reads. */
  datatype Args = Args(
    startDate: Option<int>, endDate: Option<int>, capital: real, smaPeriod: nat,
    fixedStop: real, trailingStop: real, slippage: real, commission: real, noSlippage: bool)

  /** The defaults of parse_args. */
  const DefaultArgs: Args := Args(None, None, 10000.0, 50, 0.075, 0.15, 0.0005, 0.0, false)

  /** The parameters the loop uses, with slippage already forced to zero by
      `--no-slippage`. */
  datatype Config = Config(capital: real, fixedFrac: real, trailFrac: real, slippage: real, commission: real)

  function ConfigOf(a: Args): (c: Config)
    ensures c.slippage == (if a.noSlippage then 0.0 else a.slippage)
    ensures c.capital == a.capital && c.commission == a.commission
  {
    Config(a.capital, a.fixedStop, a.trailingStop, EffectiveSlippage(a.noSlippage, a.slippage), a.commission)
  }

  /** The lookup tables: SMA and close by date, first and last bar per date. */
  datatype Context = Context(sma: map<int, real>, closes: map<int, real>, first: map<int, Stamp>, last: map<int, Stamp>)

  /** The loop's variables. `prev` is prev_above_sma, None until seeded. */
  datatype State = State(
    capital: real, shares: real, entry: real, highest: real,
    lastExit: Option<int>, lastExitWasEod: bool, trades: seq<Trade>,
    inPosition: bool, prev: Option<bool>, pending: bool,
    slipCost: real, commCost: real)

  function Init(c: Config): (s: State)
    ensures Valid(c, s) && !s.inPosition && !s.pending && s.prev.None? && s.trades == []
  {
    State(c.capital, 0.0, 0.0, 0.0, None, false, [], false, None, false, 0.0, 0.0)
  }

  /** The invariant the loop keeps:
      - at most one trade is open, and it is the last one, exactly while in
        position;
      - capital telescopes: start + the pnl of the completed trades - the
        entry commissions;
      - while holding, the shares are worth the capital at the entry price;
      - the commission total counts one commission per entry and per exit. */
  predicate Valid(c: Config, s: State)
  {
    OnlyLastOpen(s.trades) && (s.inPosition <==> LastOpen(s.trades))
    && s.capital == c.capital + ClosedPnl(s.trades) - Fees(c.commission, |s.trades|)
    && (s.inPosition ==> Value(s.shares, s.entry) == s.capital)
    && s.commCost == Fees(c.commission, |s.trades| + CountClosed(s.trades))
  }

  /** Valid only reads the money and the trade list. */
  lemma Reframe(c: Config, s: State, t: State)
    requires Valid(c, s)
    requires t.trades == s.trades && t.capital == s.capital && t.shares == s.shares && t.entry == s.entry
    requires t.inPosition == s.inPosition && t.commCost == s.commCost
    ensures Valid(c, t)
  {
  }

  /** An entry fill the loop can divide by: buying at the bar's close. */
  predicate Divisible(c: Config, b: Bar)
  {
    ApplySlippage(b.close, Buy, c.slippage) != 0.0
  }

  predicate IsFirstBar(ctx: Context, at: Stamp)
  {
    at.day in ctx.first && ctx.first[at.day] == at
  }

  predicate IsLastBar(ctx: Context, at: Stamp)
  {
    at.day in ctx.last && ctx.last[at.day] == at
  }

  /** Completing the open trade at raw price `raw`: the sell fill after
      slippage, pnl and capital net of the commission, shares reset. */
  function CloseTrade(c: Config, s: State, at: Stamp, raw: real, reason: Reason): (r: State)
    requires Valid(c, s) && s.inPosition
    ensures Valid(c, r) && !r.inPosition && r.lastExit == Some(at.day) && r.lastExitWasEod == (reason == SmaExitEod)
    ensures |r.trades| == |s.trades| && r.trades[..|s.trades| - 1] == s.trades[..|s.trades| - 1]
    ensures r.trades[|r.trades| - 1].exit == Some(Exit(at, ApplySlippage(raw, Sell, c.slippage), r.capital - s.capital, reason))
    ensures r.slipCost == s.slipCost + Value(s.shares, Distance(raw, ApplySlippage(raw, Sell, c.slippage)))
    ensures c.slippage == 0.0 ==> r.slipCost == s.slipCost
    ensures r.commCost == s.commCost + c.commission && r.shares == 0.0
    ensures r.pending == s.pending && r.prev == s.prev && r.entry == s.entry
  {
    var fill := ApplySlippage(raw, Sell, c.slippage);
    var pnl := Value(s.shares, fill - s.entry) - c.commission;
    assert Value(s.shares, fill - s.entry) == Value(s.shares, fill) - Value(s.shares, s.entry);
    CloseLastPnl(s.trades, Exit(at, fill, pnl, reason));
    CloseLastCount(s.trades, Exit(at, fill, pnl, reason));
    s.(capital := Value(s.shares, fill) - c.commission,
       slipCost := s.slipCost + Value(s.shares, Distance(raw, fill)),
       commCost := s.commCost + c.commission,
       trades := CloseLast(s.trades, Exit(at, fill, pnl, reason)),
       inPosition := false, shares := 0.0, lastExit := Some(at.day), lastExitWasEod := reason == SmaExitEod)
  }

  /** Opening a trade at the bar's close: the entry commission comes off the
      capital first and the rest is invested. */
  function Enter(c: Config, s: State, b: Bar): (r: State)
    requires Valid(c, s) && !s.inPosition && Divisible(c, b)
    ensures Valid(c, r) && r.inPosition && r.highest == b.high && !r.lastExitWasEod
    ensures r.trades == Append(s.trades, b.at, ApplySlippage(b.close, Buy, c.slippage), r.shares)
    ensures r.capital == s.capital - c.commission && r.entry == ApplySlippage(b.close, Buy, c.slippage)
    ensures r.slipCost == s.slipCost + Value(r.shares, Distance(r.entry, b.close))
    ensures c.slippage == 0.0 ==> r.slipCost == s.slipCost
    ensures r.pending == s.pending && r.lastExit == s.lastExit
  {
    var entry := ApplySlippage(b.close, Buy, c.slippage);
    var capital := s.capital - c.commission;
    var shares := SharesFor(capital, entry);
    assert c.slippage == 0.0 ==> Distance(entry, b.close) == 0.0 && Value(shares, 0.0) == 0.0;
    AppendPnl(s.trades, b.at, entry, shares);
    AppendCount(s.trades, b.at, entry, shares);
    s.(entry := entry, capital := capital, shares := shares,
       commCost := s.commCost + c.commission,
       slipCost := s.slipCost + Value(shares, Distance(entry, b.close)),
       highest := b.high,
       trades := Append(s.trades, b.at, entry, shares),
       inPosition := true, lastExitWasEod := false)
  }

  /** Lines 121-142: at the session's first bar a pending exit sells at the
      close as "SMA EXIT (EOD)"; the latch is cleared either way. */
  function ServiceLatch(c: Config, ctx: Context, s: State, b: Bar): (r: State)
    requires Valid(c, s)
    ensures Valid(c, r)
    ensures IsFirstBar(ctx, b.at) ==> !r.pending
    ensures !(s.pending && IsFirstBar(ctx, b.at)) ==> r == s
    ensures c.slippage == 0.0 ==> r.slipCost == s.slipCost
  {
    var isFirst := IsFirstBar(ctx, b.at);
    if s.pending && isFirst && s.inPosition then
      var closed := CloseTrade(c, s, b.at, b.close, SmaExitEod);
      Reframe(c, closed, closed.(pending := false, prev := Some(false)));
      closed.(pending := false, prev := Some(false))
    else if s.pending && isFirst then
      Reframe(c, s, s.(pending := false));
      s.(pending := false)
    else s
  }

  /** Lines 145-180: raise the high, then the stop (low <= active stop) or,
      on any bar but the session's last, a bearish cross. */
  function CheckExit(c: Config, ctx: Context, s: State, b: Bar, above: bool): (r: State)
    requires Valid(c, s) && s.inPosition
    ensures Valid(c, r)
    ensures c.slippage == 0.0 ==> r.slipCost == s.slipCost
  {
    var highest := if b.high > s.highest then b.high else s.highest;
    var stop := ActiveStop(s.entry, highest, c.fixedFrac, c.trailFrac);
    var s1 := s.(highest := highest);
    Reframe(c, s, s1);
    var exit: Option<(Reason, real)> :=
      if b.low <= stop then Some((StopHit, GapFill(stop, b.high, b.close)))
      else if s.prev == Some(true) && !above && !IsLastBar(ctx, b.at) then Some((SmaExit, b.close))
      else None;
    if exit.Some? then CloseTrade(c, s1, b.at, exit.value.1, exit.value.0) else s1
  }

  /** Lines 210-216: on the session's last bar, holding with the daily close
      at or below that day's SMA latches an exit; the previous-signal flag
      takes the end-of-day comparison. */
  function EodCheck(c: Config, ctx: Context, s: State, b: Bar): (r: State)
    requires Valid(c, s)
    ensures Valid(c, r)
    ensures r == s.(pending := r.pending, prev := r.prev)
    ensures r.pending != s.pending ==> r.pending && s.inPosition && IsLastBar(ctx, b.at)
  {
    var d := b.at.day;
    if IsLastBar(ctx, b.at) && d in ctx.sma && d in ctx.closes then
      var eodAbove := ctx.closes[d] > ctx.sma[d];
      var r := s.(pending := if s.inPosition && !eodAbove then true else s.pending, prev := Some(eodAbove));
      Reframe(c, s, r);
      r
    else s
  }

  /** `prev_above_sma = above_sma` */
  function SetPrev(c: Config, s: State, above: bool): (r: State)
    requires Valid(c, s)
    ensures Valid(c, r) && r == s.(prev := Some(above))
  {
    Reframe(c, s, s.(prev := Some(above)));
    s.(prev := Some(above))
  }

  /** One pass of the loop body over one joined bar. */
  function Step(c: Config, ctx: Context, s: State, b: Bar): (r: State)
    requires Valid(c, s) && Divisible(c, b)
    ensures Valid(c, r)
    ensures c.slippage == 0.0 ==> r.slipCost == s.slipCost
  {
    match RefSma(ctx.sma, b.at.day)
    case None => s
    case Some(ref) =>
      var above := b.signal > ref;
      if s.prev.None? then SetPrev(c, s, above)
      else
        var s2 := ServiceLatch(c, ctx, s, b);
        if s2.inPosition then EodCheck(c, ctx, SetPrev(c, CheckExit(c, ctx, s2, b, above), above), b)
        else if s2.prev == Some(false) && above then
          if s2.lastExit == Some(b.at.day) && !s2.lastExitWasEod then SetPrev(c, s2, above)
          else EodCheck(c, ctx, SetPrev(c, Enter(c, s2, b), above), b)
        else EodCheck(c, ctx, SetPrev(c, s2, above), b)
  }

  predicate AllDivisible(c: Config, bars: seq<Bar>)
  {
    forall i :: 0 <= i < |bars| ==> Divisible(c, bars[i])
  }

  /** The state after the loop has processed `bars`. */
  function Run(c: Config, ctx: Context, bars: seq<Bar>): (s: State)
    requires AllDivisible(c, bars)
    ensures Valid(c, s)
    ensures c.slippage == 0.0 ==> s.slipCost == 0.0
  {
    if bars == [] then Init(c)
    else Step(c, ctx, Run(c, ctx, bars[..|bars| - 1]), bars[|bars| - 1])
  }

  /** Lines 219-231: a position still open is sold at the series' last close
      as "OPEN", without commission. */
  function Finish(c: Config, s: State, lastAt: Stamp, lastClose: real): (r: State)
    requires Valid(c, s)
    ensures OnlyLastOpen(r.trades) && !LastOpen(r.trades) && |r.trades| == |s.trades|
    ensures r.capital == c.capital + ClosedPnl(r.trades) - Fees(c.commission, |r.trades|)
    ensures r.commCost == s.commCost
    ensures c.slippage == 0.0 ==> r.slipCost == s.slipCost
  {
    if s.inPosition && |s.trades| > 0 && s.trades[|s.trades| - 1].exit.None? then
      var fill := ApplySlippage(lastClose, Sell, c.slippage);
      var pnl := Value(s.shares, fill - s.entry);
      assert Value(s.shares, fill - s.entry) == Value(s.shares, fill) - Value(s.shares, s.entry);
      CloseLastPnl(s.trades, Exit(lastAt, fill, pnl, OpenAtEnd));
      s.(slipCost := s.slipCost + Value(s.shares, Distance(lastClose, fill)),
         trades := CloseLast(s.trades, Exit(lastAt, fill, pnl, OpenAtEnd)),
         capital := Value(s.shares, fill))
    else s
  }

  /** What run_backtest returns. */
  datatype Outcome = Outcome(trades: seq<Trade>, capital: real, slippageCost: real, commissionCost: real)

  function OutcomeOf(s: State): Outcome
  {
    Outcome(s.trades, s.capital, s.slipCost, s.commCost)
  }

  /** The bars the loop visits: the joined market-hours bars inside the
      optional date window. */
  function Window(a: Args, bars: seq<Bar>): seq<Bar>
  {
    DateWindow(bars, a.startDate, a.endDate)
  }

  function ContextOf(a: Args, rows: seq<DailyBar>, w: seq<Bar>): Context
  {
    Context(SmaTable(rows, a.smaPeriod), CloseTable(rows, a.smaPeriod), FirstTable(w), LastTable(w))
  }

  /** The whole simulation as a value: the specification of RunBacktest. */
  function Backtest(a: Args, rows: seq<DailyBar>, bars: seq<Bar>, lastAt: Stamp, lastClose: real): (o: Outcome)
    requires AllDivisible(ConfigOf(a), bars)
    ensures OnlyLastOpen(o.trades) && !LastOpen(o.trades)
    ensures o.capital == a.capital + ClosedPnl(o.trades) - Fees(a.commission, |o.trades|)
    ensures a.noSlippage ==> o.slippageCost == 0.0
  {
    WindowDivisible(a, bars);
    var w := Window(a, bars);
    var c := ConfigOf(a);
    var f := Finish(c, Run(c, ContextOf(a, rows, w), w), lastAt, lastClose);
    OutcomeOf(f)
  }

  lemma WindowDivisible(a: Args, bars: seq<Bar>)
    requires AllDivisible(ConfigOf(a), bars)
    ensures AllDivisible(ConfigOf(a), Window(a, bars))
  {
    var w := Window(a, bars);
    forall i | 0 <= i < |w| ensures Divisible(ConfigOf(a), w[i]) {
      assert w[i] in bars;
    }
  }

  /** Selling the whole position at the raw price `raw` (the block the loop
      repeats for the end-of-day and the intraday exits). */
  method SellAll(cfg: Config, s: State, at: Stamp, raw: real, reason: Reason) returns (r: State)
    requires Valid(cfg, s) && s.inPosition
    ensures r == CloseTrade(cfg, s, at, raw, reason)
  {
    var State(capital, shares, entryPrice, highest, lastExitDate, lastExitWasEod, trades, inPosition, prevAboveSma, pendingEodExit, totalSlippage, totalCommission) := s;
    var fill := ApplySlippage(raw, Sell, cfg.slippage);
    totalSlippage := totalSlippage + Value(shares, Distance(raw, fill));
    totalCommission := totalCommission + cfg.commission;
    var pnl := Value(shares, fill - entryPrice) - cfg.commission;
    capital := Value(shares, fill) - cfg.commission;
    trades := CloseLast(trades, Exit(at, fill, pnl, reason));
    inPosition := false;
    shares := 0.0;
    lastExitDate := Some(at.day);
    lastExitWasEod := reason == SmaExitEod;
    r := State(capital, shares, entryPrice, highest, lastExitDate, lastExitWasEod, trades, inPosition, prevAboveSma, pendingEodExit, totalSlippage, totalCommission);
  }

  /** Lines 121-142: the latched exit at the session's first bar. */
  method ServicePending(cfg: Config, ctx: Context, s: State, b: Bar) returns (r: State)
    requires Valid(cfg, s)
    ensures r == ServiceLatch(cfg, ctx, s, b)
  {
    var isFirstBar := b.at.day in ctx.first && ctx.first[b.at.day] == b.at;
    r := s;
    if s.pending && isFirstBar && s.inPosition {
      r := SellAll(cfg, s, b.at, b.close, SmaExitEod);
      r := r.(prev := Some(false));
    }
    if r.pending && isFirstBar {
      r := r.(pending := false);
    }
  }

  /** Lines 145-180: the stop and the bearish-cross exits. */
  method CheckExits(cfg: Config, ctx: Context, s: State, b: Bar, aboveSma: bool) returns (r: State)
    requires Valid(cfg, s) && s.inPosition
    ensures r == CheckExit(cfg, ctx, s, b, aboveSma)
  {
    var highest := s.highest;
    if b.high > highest {
      highest := b.high;
    }
    var activeStop := ActiveStop(s.entry, highest, cfg.fixedFrac, cfg.trailFrac);
    var isLastBar := b.at.day in ctx.last && ctx.last[b.at.day] == b.at;
    r := s.(highest := highest);
    Reframe(cfg, s, r);
    if b.low <= activeStop {
      r := SellAll(cfg, r, b.at, GapFill(activeStop, b.high, b.close), StopHit);
    } else if s.prev == Some(true) && !aboveSma && !isLastBar {
      r := SellAll(cfg, r, b.at, b.close, SmaExit);
    }
  }

  /** Lines 186-207: buying at the close with everything left after the
      commission. */
  method OpenPosition(cfg: Config, s: State, b: Bar) returns (r: State)
    requires Valid(cfg, s) && !s.inPosition && Divisible(cfg, b)
    ensures r == Enter(cfg, s, b)
  {
    var State(capital, shares, entryPrice, highest, lastExitDate, lastExitWasEod, trades, inPosition, prevAboveSma, pendingEodExit, totalSlippage, totalCommission) := s;
    var raw := b.close;
    entryPrice := ApplySlippage(raw, Buy, cfg.slippage);
    totalCommission := totalCommission + cfg.commission;
    capital := capital - cfg.commission;
    shares := SharesFor(capital, entryPrice);
    totalSlippage := totalSlippage + Value(shares, Distance(entryPrice, raw));
    highest := b.high;
    trades := Append(trades, b.at, entryPrice, shares);
    inPosition := true;
    lastExitWasEod := false;
    r := State(capital, shares, entryPrice, highest, lastExitDate, lastExitWasEod, trades, inPosition, prevAboveSma, pendingEodExit, totalSlippage, totalCommission);
  }

  /** One pass of run_backtest's loop body (lines 96-216) over the bar `b`. */
  method ProcessBar(cfg: Config, ctx: Context, s: State, b: Bar) returns (r: State)
    requires Valid(cfg, s) && Divisible(cfg, b)
    ensures r == Step(cfg, ctx, s, b)
  {
    var d := b.at.day;
    var ref := RefSma(ctx.sma, d);
    if ref.None? {
      return s;
    }
    var aboveSma := b.signal > ref.value;
    if s.prev.None? {
      return s.(prev := Some(aboveSma));
    }
    r := ServicePending(cfg, ctx, s, b);
    if r.inPosition {
      r := CheckExits(cfg, ctx, r, b, aboveSma);
    } else if r.prev == Some(false) && aboveSma {
      if r.lastExit == Some(d) && !r.lastExitWasEod {
        // same-day re-entry cooldown
        return SetPrev(cfg, r, aboveSma);
      }
      r := OpenPosition(cfg, r, b);
    }
    r := SetPrev(cfg, r, aboveSma);
    r := MarkEod(cfg, ctx, r, b);
  }

  /** Lines 210-216: the end-of-day check on the session's last bar. */
  method MarkEod(cfg: Config, ctx: Context, s: State, b: Bar) returns (r: State)
    requires Valid(cfg, s)
    ensures r == EodCheck(cfg, ctx, s, b)
  {
    var d := b.at.day;
    r := s;
    if d in ctx.last && ctx.last[d] == b.at && d in ctx.sma && d in ctx.closes {
      var eodAbove := ctx.closes[d] > ctx.sma[d];
      if r.inPosition && !eodAbove {
        r := r.(pending := true);
      }
      r := r.(prev := Some(eodAbove));
    }
  }

  /** run_backtest. `rows` is the daily signal series in date order, `bars`
      the joined market-hours 15-minute bars in time order, and
      (lastAt, lastClose) the final row of the trade series. */
  method RunBacktest(a: Args, rows: seq<DailyBar>, bars: seq<Bar>, lastAt: Stamp, lastClose: real)
    returns (trades: seq<Trade>, capital: real, totalSlippage: real, totalCommission: real)
    requires AllDivisible(ConfigOf(a), bars)
    ensures Outcome(trades, capital, totalSlippage, totalCommission) == Backtest(a, rows, bars, lastAt, lastClose)
  {
    WindowDivisible(a, bars);
    var cfg := ConfigOf(a);
    var smaByDate, dailyCloseByDate := BuildTables(rows, a.smaPeriod);
    var commonTs := Window(a, bars);
    var firstBarOfDay, lastBarOfDay := DayBounds(commonTs);
    var ctx := Context(smaByDate, dailyCloseByDate, firstBarOfDay, lastBarOfDay);
    assert ctx == ContextOf(a, rows, commonTs);

    var st := Init(cfg);
    var i := 0;
    while i < |commonTs|
      invariant 0 <= i <= |commonTs|
      invariant st == Run(cfg, ctx, commonTs[..i])
    {
      assert commonTs[..i + 1][..i] == commonTs[..i];
      st := ProcessBar(cfg, ctx, st, commonTs[i]);
      i := i + 1;
    }
    assert commonTs[..i] == commonTs;
    trades, capital, totalSlippage, totalCommission := CloseOut(cfg, st, lastAt, lastClose);
  }

  /** Lines 219-231: a position still open is sold at the last close as
      "OPEN". */
  method CloseOut(cfg: Config, st: State, lastAt: Stamp, lastClose: real)
    returns (trades: seq<Trade>, capital: real, totalSlippage: real, totalCommission: real)
    requires Valid(cfg, st)
    ensures Outcome(trades, capital, totalSlippage, totalCommission) == OutcomeOf(Finish(cfg, st, lastAt, lastClose))
  {
    var State(cap, shares, entryPrice, _, _, _, ts, inPosition, _, _, slip, comm) := st;
    trades, capital, totalSlippage, totalCommission := ts, cap, slip, comm;
    if inPosition && |trades| > 0 && trades[|trades| - 1].exit.None? {
      var fill := ApplySlippage(lastClose, Sell, cfg.slippage);
      totalSlippage := totalSlippage + Value(shares, Distance(lastClose, fill));
      var pnl := Value(shares, fill - entryPrice);
      trades := CloseLast(trades, Exit(lastAt, fill, pnl, OpenAtEnd));
      capital := Value(shares, fill);
    }
  }
}
