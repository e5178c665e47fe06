// The 15-minute crossover loop that sma_correct.py, sma_simple_15m.py,
// sma50_standard_output.py and best_strategy_detail.py repeat: QQQ's
// 15-minute close against the mean of the p daily closes before the bar's
// date; TQQQ bought with the whole capital at a bar's close on a cross from
// below, sold on the hybrid stop (checked against the bar's low, filled at
// the stop) or on a cross from above (at the close). Being long is
// `pos > 0` and being flat `pos == 0`, exactly as the scripts test them, and
// trades are recorded when they close.
module PriorSma {
  import opened Core
  import opened Stops
  import opened Ledger
  import opened DailySma
  import Fills
  import Position

  /** The price the highest-since-entry follows: the bar's high, or its
      close (sma_simple_15m.py). */
  datatype Track = ByHigh | ByClose

  /** The SMA table and the parameters. `labelStops` names a stop TRAIL or
      FIXED (sma50_standard_output.py) rather than plain "stop". */
  datatype Ctx = Ctx(sma: map<int, real>, fixedFrac: real, trailFrac: real, track: Track, labelStops: bool)

  /** cap, pos, entry_price, highest, the entry's timestamp, prev_above and
      the completed trades. */
  datatype Sim = Sim(cap: real, pos: real, entry: real, highest: real, entryAt: Stamp, prev: Option<bool>, trades: seq<Trade>)

  function Start(capital: real): (s: Sim)
    ensures s.pos == 0.0 && s.cap == capital && s.prev.None? && s.trades == []
  {
    Sim(capital, 0.0, 0.0, 0.0, Stamp(0, 0), None, [])
  }

  /** `sma[dates[i]] = mean(closes[i - p : i])` over the daily closes of the
      joined bars (the last close of each date). */
  function SmaOf(bars: seq<Bar>, p: nat): map<int, real>
  {
    PriorMeanTable(DailySeries(bars, |bars|), p)
  }

  function Mark(ctx: Ctx, b: Bar): real
  {
    if ctx.track == ByHigh then b.high else b.close
  }

  function StopReason(ctx: Ctx, entry: real, highest: real): (r: Reason)
    ensures !ctx.labelStops ==> r == StopHit
    ensures ctx.labelStops ==> (r == TrailStop || r == FixedStopHit)
    ensures ctx.labelStops ==> (r == TrailStop <==> TrailingStop(highest, ctx.trailFrac) >= FixedStop(entry, ctx.fixedFrac))
  {
    if !ctx.labelStops then StopHit
    else if KindOf(entry, highest, ctx.fixedFrac, ctx.trailFrac) == TrailKind then TrailStop
    else FixedStopHit
  }

  /** pnl_dollar = pos * exit - pos * entry. */
  function PnlOf(pos: real, entry: real, price: real): real
  {
    Fills.Value(pos, price) - Fills.Value(pos, entry)
  }

  /** pnl_pct = (exit - entry) / entry * 100 of a completed trade. */
  function PnlPct(t: Trade): real
    requires t.exit.Some? && t.entryPrice != 0.0
  {
    (t.exit.value.price - t.entryPrice) / t.entryPrice * 100.0
  }

  /** What one is worth: the capital when flat, the position at its entry
      price otherwise. */
  function Wealth(s: Sim): real
  {
    if s.pos == 0.0 then s.cap else Fills.Value(s.pos, s.entry)
  }

  predicate Completed(trades: seq<Trade>)
  {
    forall i :: 0 <= i < |trades| ==> trades[i].exit.Some? && trades[i].entryPrice != 0.0
  }

  /** The loop's invariant: every recorded trade is complete; the wealth is
      the starting capital plus the completed pnl, and also the starting
      capital times the product of the exit/entry ratios; while a position
      is held the capital is 0. */
  predicate Ok(start: real, s: Sim)
  {
    Completed(s.trades)
    && Wealth(s) == start + ClosedPnl(s.trades)
    && Wealth(s) == start * Position.Growth(s.trades)
    && (s.pos != 0.0 ==> s.cap == 0.0 && s.entry != 0.0)
  }

  lemma Rescale(pos: real, entry: real, price: real, w: real, g: real, start: real)
    requires entry != 0.0 && Fills.Value(pos, entry) == w && w == start * g
    ensures start * (g * (price / entry)) == Fills.Value(pos, price)
  {
    assert start * (g * (price / entry)) == w * (price / entry);
    assert w * (price / entry) == (pos * entry) * (price / entry);
    assert (pos * entry) * (price / entry) == pos * price;
  }

  /** An exit: `cap = pos * exit_price`, the trade recorded, `pos` and
      `highest` back to 0. */
  function Close(start: real, s: Sim, at: Stamp, price: real, reason: Reason): (r: Sim)
    requires Ok(start, s) && s.pos != 0.0
    ensures Ok(start, r) && r.pos == 0.0 && r.highest == 0.0 && r.cap == Fills.Value(s.pos, price)
    ensures r.trades == s.trades + [Trade(s.entryAt, s.entry, s.pos, Some(Exit(at, price, PnlOf(s.pos, s.entry, price), reason)))]
    ensures r.prev == s.prev && r.entry == s.entry
  {
    var t := Trade(s.entryAt, s.entry, s.pos, Some(Exit(at, price, PnlOf(s.pos, s.entry, price), reason)));
    var trades := s.trades + [t];
    assert trades[..|trades| - 1] == s.trades;
    assert Position.Growth(trades) == Position.Growth(s.trades) * (price / s.entry);
    Rescale(s.pos, s.entry, price, Wealth(s), Position.Growth(s.trades), start);
    s.(cap := Fills.Value(s.pos, price), pos := 0.0, highest := 0.0, trades := trades)
  }

  lemma SharesValue(cap: real, price: real)
    requires price != 0.0
    ensures Fills.Value(Fills.SharesFor(cap, price), price) == cap
    ensures Fills.SharesFor(cap, price) == 0.0 <==> cap == 0.0
  {
    var q := cap / price;
    assert q * price == cap;
  }

  /** An entry: `pos = cap / close`, entry price and highest seeded from the
      bar, `cap = 0`. */
  function Enter(start: real, ctx: Ctx, s: Sim, b: Bar): (r: Sim)
    requires Ok(start, s) && s.pos == 0.0 && b.close != 0.0
    ensures Ok(start, r) && r.pos == Fills.SharesFor(s.cap, b.close) && r.cap == 0.0
    ensures r.entry == b.close && r.entryAt == b.at && r.highest == Mark(ctx, b)
    ensures r.trades == s.trades && r.prev == s.prev
  {
    SharesValue(s.cap, b.close);
    s.(pos := Fills.SharesFor(s.cap, b.close), entry := b.close, entryAt := b.at, highest := Mark(ctx, b), cap := 0.0)
  }

  /** The highest after this bar. */
  function Raised(ctx: Ctx, s: Sim, b: Bar): (h: real)
    ensures h >= s.highest && h >= Mark(ctx, b) && (h == s.highest || h == Mark(ctx, b))
  {
    if Mark(ctx, b) > s.highest then Mark(ctx, b) else s.highest
  }

  /** The exit block of a long bar: raise the high, then the stop against
      the bar's low (filled at the stop), else a cross from above (filled at
      the close). */
  function Exits(start: real, ctx: Ctx, s: Sim, b: Bar, above: bool): (r: Sim)
    requires Ok(start, s) && s.pos > 0.0
    ensures Ok(start, r) && r.prev == s.prev
  {
    var h := Raised(ctx, s, b);
    var raised := s.(highest := h);
    var stop := ActiveStop(s.entry, h, ctx.fixedFrac, ctx.trailFrac);
    if b.low <= stop then Close(start, raised, b.at, stop, StopReason(ctx, s.entry, h))
    else if !above && s.prev == Some(true) then Close(start, raised, b.at, b.close, SmaExit)
    else raised
  }

  /** One pass of the loop over a joined bar. */
  function Step(start: real, ctx: Ctx, s: Sim, b: Bar): (r: Sim)
    requires Ok(start, s) && b.close != 0.0
    ensures Ok(start, r)
  {
    if b.at.day !in ctx.sma then s
    else
      var above := b.signal > ctx.sma[b.at.day];
      var moved :=
        if s.pos > 0.0 then Exits(start, ctx, s, b, above)
        else if s.pos == 0.0 && above && s.prev == Some(false) then Enter(start, ctx, s, b)
        else s;
      WithPrev(start, moved, Some(above))
  }

  function WithPrev(start: real, s: Sim, prev: Option<bool>): (r: Sim)
    requires Ok(start, s)
    ensures Ok(start, r) && r == s.(prev := prev)
  {
    var r := s.(prev := prev);
    assert Wealth(r) == Wealth(s);
    r
  }

  function Run(start: real, ctx: Ctx, bars: seq<Bar>): (s: Sim)
    requires Position.CloseDivisible(bars)
    ensures Ok(start, s)
  {
    if bars == [] then Start(start)
    else Step(start, ctx, Run(start, ctx, bars[..|bars| - 1]), bars[|bars| - 1])
  }

  /** The closing block: a long position is sold at the close of the last
      joined bar as "OPEN" / "eod". */
  function Finish(start: real, s: Sim, last: Bar): (r: Sim)
    requires Ok(start, s)
    ensures Ok(start, r) && (s.pos > 0.0 ==> r.pos == 0.0) && (s.pos <= 0.0 ==> r == s)
    ensures s.pos > 0.0 ==>
      r.trades == s.trades + [Trade(s.entryAt, s.entry, s.pos, Some(Exit(last.at, last.close, PnlOf(s.pos, s.entry, last.close), OpenAtEnd)))]
  {
    if s.pos > 0.0 then Close(start, s, last.at, last.close, OpenAtEnd) else s
  }

  /** The whole simulation as a value. */
  function Backtest(start: real, ctx: Ctx, bars: seq<Bar>): (r: Sim)
    requires Position.CloseDivisible(bars)
    ensures Ok(start, r) && r.pos <= 0.0
  {
    if bars == [] then Start(start) else Finish(start, Run(start, ctx, bars), bars[|bars| - 1])
  }

  // ---- the loop as the scripts write it ----

  /** The loop body over one joined bar. */
  method ProcessBar(start: real, ctx: Ctx, s: Sim, b: Bar) returns (r: Sim)
    requires Ok(start, s) && b.close != 0.0
    ensures r == Step(start, ctx, s, b)
  {
    var day := b.at.day;
    if day !in ctx.sma {
      return s;
    }
    var aboveSma := b.signal > ctx.sma[day];
    r := s;
    if s.pos > 0.0 {
      r := CheckExits(start, ctx, s, b, aboveSma);
    } else if s.pos == 0.0 && aboveSma && s.prev == Some(false) {
      r := OpenPosition(start, ctx, s, b);
    }
    r := r.(prev := Some(aboveSma));
  }

  /** The exit block of the loop body. */
  method CheckExits(start: real, ctx: Ctx, s: Sim, b: Bar, aboveSma: bool) returns (r: Sim)
    requires Ok(start, s) && s.pos > 0.0
    ensures r == Exits(start, ctx, s, b, aboveSma)
  {
    var Sim(cap, pos, entryPrice, highest, entryAt, prevAbove, trades) := s;
    if Mark(ctx, b) > highest {
      highest := Mark(ctx, b);
    }
    var stop := ActiveStop(entryPrice, highest, ctx.fixedFrac, ctx.trailFrac);
    var exitPrice := 0.0;
    var exitReason: Option<Reason> := None;
    if b.low <= stop {
      exitPrice, exitReason := stop, Some(StopReason(ctx, entryPrice, highest));
    } else if !aboveSma && prevAbove == Some(true) {
      exitPrice, exitReason := b.close, Some(SmaExit);
    }
    if exitReason.Some? {
      var pnlDollar := Fills.Value(pos, exitPrice) - Fills.Value(pos, entryPrice);
      cap := Fills.Value(pos, exitPrice);
      trades := trades + [Trade(entryAt, entryPrice, pos, Some(Exit(b.at, exitPrice, pnlDollar, exitReason.value)))];
      pos, highest := 0.0, 0.0;
    }
    r := Sim(cap, pos, entryPrice, highest, entryAt, prevAbove, trades);
  }

  /** The entry block of the loop body: everything into shares at the
      close. */
  method OpenPosition(start: real, ctx: Ctx, s: Sim, b: Bar) returns (r: Sim)
    requires Ok(start, s) && s.pos == 0.0 && b.close != 0.0
    ensures r == Enter(start, ctx, s, b)
  {
    var Sim(cap, pos, entryPrice, highest, entryAt, prevAbove, trades) := s;
    pos := cap / b.close;
    entryPrice := b.close;
    entryAt := b.at;
    highest := Mark(ctx, b);
    cap := 0.0;
    r := Sim(cap, pos, entryPrice, highest, entryAt, prevAbove, trades);
  }

  /** `for ts in common: ...` */
  method Simulate(start: real, ctx: Ctx, common: seq<Bar>) returns (st: Sim)
    requires Position.CloseDivisible(common)
    ensures st == Run(start, ctx, common)
  {
    st := Start(start);
    var i := 0;
    while i < |common|
      invariant 0 <= i <= |common|
      invariant st == Run(start, ctx, common[..i])
    {
      assert common[..i + 1][..i] == common[..i];
      st := ProcessBar(start, ctx, st, common[i]);
      i := i + 1;
    }
    assert common[..i] == common;
  }

  /** The loop, then `if pos > 0:` the close at the last joined bar. */
  method Simulation(start: real, ctx: Ctx, common: seq<Bar>) returns (st: Sim)
    requires Position.CloseDivisible(common)
    ensures st == Backtest(start, ctx, common)
  {
    st := Simulate(start, ctx, common);
    if st.pos > 0.0 {
      var last := common[|common| - 1];
      st := Close(start, st, last.at, last.close, OpenAtEnd);
    }
  }

  // ---- what the loop promises ----

  /** A bar whose date has no SMA changes nothing, not even prev_above; any
      other bar leaves prev_above at its own comparison. */
  lemma SkipRule(start: real, ctx: Ctx, s: Sim, b: Bar)
    requires Ok(start, s) && b.close != 0.0
    ensures b.at.day !in ctx.sma ==> Step(start, ctx, s, b) == s
    ensures b.at.day in ctx.sma ==> Step(start, ctx, s, b).prev == Some(b.signal > ctx.sma[b.at.day])
  {
  }

  /** The exit rules of a long bar: the stop (low at or below the hybrid
      stop) fills at the stop, with its label; otherwise a cross from above
      (prev_above truthy, now below) fills at the close; otherwise the
      position stays with the raised high, and its stop has not fallen. */
  lemma {:induction false} ExitRule(start: real, ctx: Ctx, s: Sim, b: Bar)
    requires Ok(start, s) && b.close != 0.0 && s.pos > 0.0 && b.at.day in ctx.sma && ctx.trailFrac <= 1.0
    ensures var r := Step(start, ctx, s, b);
      var above := b.signal > ctx.sma[b.at.day];
      var h := Raised(ctx, s, b);
      var stop := ActiveStop(s.entry, h, ctx.fixedFrac, ctx.trailFrac);
      var n := |s.trades|;
      && (b.low <= stop ==> r.pos == 0.0 && |r.trades| == n + 1 && r.trades[n].exit.value.price == stop
                            && r.trades[n].exit.value.reason == StopReason(ctx, s.entry, h))
      && (!(b.low <= stop) && !above && s.prev == Some(true) ==>
            r.pos == 0.0 && |r.trades| == n + 1 && r.trades[n].exit.value.price == b.close && r.trades[n].exit.value.reason == SmaExit)
      && (!(b.low <= stop) && !(!above && s.prev == Some(true)) ==>
            r == s.(highest := h, prev := Some(above)) && ActiveStop(s.entry, s.highest, ctx.fixedFrac, ctx.trailFrac) <= stop)
      && (r.pos == 0.0 ==> r.cap == Fills.Value(s.pos, r.trades[n].exit.value.price)
                            && r.trades[n].entryPrice == s.entry && r.trades[n].shares == s.pos)
  {
    StopNeverDecreases(s.entry, s.highest, Raised(ctx, s, b), ctx.fixedFrac, ctx.trailFrac);
  }

  /** The entry rule: a position opens exactly on a bar with an SMA, flat
      (`pos == 0`), above the SMA, after a bar that was below it
      (`prev_above == False`, so the initial None never counts) — never on
      the bar of an exit, and with the whole capital at the close. */
  lemma {:induction false} EntryRule(start: real, ctx: Ctx, s: Sim, b: Bar)
    requires Ok(start, s) && b.close != 0.0 && s.pos <= 0.0
    ensures var r := Step(start, ctx, s, b);
      (r.pos != s.pos || r.entry != s.entry) ==>
        && b.at.day in ctx.sma && s.pos == 0.0 && s.prev == Some(false) && b.signal > ctx.sma[b.at.day]
        && r.pos == Fills.SharesFor(s.cap, b.close) && r.entry == b.close && r.cap == 0.0 && r.highest == Mark(ctx, b)
    ensures b.at.day in ctx.sma && s.pos == 0.0 && s.prev == Some(false) && b.signal > ctx.sma[b.at.day] ==>
      Step(start, ctx, s, b).entry == b.close && Step(start, ctx, s, b).entryAt == b.at
    ensures |Step(start, ctx, s, b).trades| == |s.trades|
  {
  }

  /** An exit bar never also enters: a bar that closes a trade appends
      exactly that trade, stamped with the bar, and leaves the position
      flat; any other bar leaves the trade list as it was. */
  lemma NoEntryOnExitBar(start: real, ctx: Ctx, s: Sim, b: Bar)
    requires Ok(start, s) && b.close != 0.0
    ensures var r := Step(start, ctx, s, b);
      |r.trades| > |s.trades| ==>
        && s.pos > 0.0 && r.pos == 0.0 && |r.trades| == |s.trades| + 1
        && r.trades[..|s.trades|] == s.trades && r.trades[|s.trades|].exit.value.at == b.at
    ensures |Step(start, ctx, s, b).trades| <= |s.trades| ==> Step(start, ctx, s, b).trades == s.trades
  {
  }

  /** A position held after a bar was opened either earlier or on this bar,
      and then on a date with an SMA. */
  lemma EntryStamp(start: real, ctx: Ctx, s: Sim, b: Bar)
    requires Ok(start, s) && b.close != 0.0
    ensures var r := Step(start, ctx, s, b);
      r.pos != 0.0 ==> (s.pos != 0.0 && r.entryAt == s.entryAt) || (r.entryAt == b.at && b.at.day in ctx.sma)
  {
  }

  /** With positive prices and capital, the position is never negative:
      the scripts' `pos > 0` and `pos == 0` then cover every state. */
  predicate Sane(s: Sim)
  {
    s.pos >= 0.0 && s.cap >= 0.0 && (s.pos > 0.0 ==> s.entry > 0.0)
  }

  lemma {:induction false} StepSane(start: real, ctx: Ctx, s: Sim, b: Bar)
    requires Ok(start, s) && Sane(s) && b.close > 0.0 && b.low > 0.0
    ensures Sane(Step(start, ctx, s, b))
  {
    if b.at.day in ctx.sma {
      var above := b.signal > ctx.sma[b.at.day];
      if s.pos > 0.0 {
        var h := Raised(ctx, s, b);
        var stop := ActiveStop(s.entry, h, ctx.fixedFrac, ctx.trailFrac);
        if b.low <= stop {
          assert Fills.Value(s.pos, stop) >= 0.0;
        } else if !above && s.prev == Some(true) {
          assert Fills.Value(s.pos, b.close) >= 0.0;
        }
      } else if s.pos == 0.0 && above && s.prev == Some(false) {
        assert Fills.SharesFor(s.cap, b.close) >= 0.0;
      }
    }
  }

  lemma {:induction false} RunSane(start: real, ctx: Ctx, bars: seq<Bar>)
    requires Position.CloseDivisible(bars) && PositivePrices(bars) && start >= 0.0
    ensures Sane(Run(start, ctx, bars))
  {
    if bars != [] {
      var p := bars[..|bars| - 1];
      RunSane(start, ctx, p);
      StepSane(start, ctx, Run(start, ctx, p), bars[|bars| - 1]);
    }
  }

  lemma FinalFlat(start: real, ctx: Ctx, bars: seq<Bar>)
    requires Position.CloseDivisible(bars) && PositivePrices(bars) && start >= 0.0
    ensures Backtest(start, ctx, bars).pos == 0.0
  {
    if bars != [] {
      RunSane(start, ctx, bars);
      var s := Run(start, ctx, bars);
      assert Sane(s);
    }
  }

  /** The final capital (after the closing block) is the starting capital
      plus the sum of pnl_dollar, and equally the starting capital times
      the product of exit/entry over the trades: full reinvestment
      compounds. */
  lemma FinalCapital(start: real, ctx: Ctx, bars: seq<Bar>)
    requires Position.CloseDivisible(bars) && PositivePrices(bars) && start >= 0.0
    ensures Settled(start, Backtest(start, ctx, bars))
  {
    FinalFlat(start, ctx, bars);
  }

  /** The capital is the starting capital plus the completed pnl and the
      starting capital times the growth of the completed trades. */
  predicate Settled(start: real, s: Sim)
  {
    s.cap == start + ClosedPnl(s.trades) && s.cap == start * Position.Growth(s.trades) && Completed(s.trades)
  }

  // ---- the SMA table of the joined bars ----

  lemma {:induction false} PriorMeanNonEmpty(daily: seq<DailyBar>, p: nat, n: nat, d: int)
    requires n <= |daily| && d in PriorMeanUpTo(daily, p, n)
    ensures 1 <= p < n
  {
    if !(n <= p || p == 0) && d !in PriorMeanUpTo(daily, p, n - 1) {
    } else if !(n <= p || p == 0) {
      PriorMeanNonEmpty(daily, p, n - 1, d);
    }
  }

  /** Once any date of the joined bars has an SMA, so does the date of the
      last bar: the dates are the sorted daily dates, and the table covers
      every date from index p on. */
  lemma LastDayHasSma(bars: seq<Bar>, p: nat, d: int)
    requires DaysAscending(bars) && d in SmaOf(bars, p)
    ensures |bars| > 0 && bars[|bars| - 1].at.day in SmaOf(bars, p)
  {
    var daily := DailySeries(bars, |bars|);
    PriorMeanNonEmpty(daily, p, |daily|, d);
    DailySeriesShape(bars, |bars|);
    PriorMeanMeaning(daily, p, |daily|, |daily| - 1);
  }

  /** `daily[ts.date()] = close` over the joined bars, the dates sorted,
      then `sma[dates[i]] = mean(closes[i - p : i])` for i >= p. */
  method BuildSma(common: seq<Bar>, p: nat) returns (sma: map<int, real>)
    ensures sma == SmaOf(common, p)
  {
    var daily := DailySeries(common, |common|);
    if p == 0 {
      return map[];
    }
    sma := PriorMeans(daily, p);
  }
}
