// best_strategy_detail.py: the shared 15-minute crossover loop at SMA(50)
// with 7.5% fixed and 15% trailing stops, recording per calendar year the
// value at its first and at its last processed bar and its number of exits.
module BestStrategy {
  import opened Core
  import opened Ledger
  import opened Calendar
  import opened Yearly
  import Fills
  import Position
  import PriorSma

  const FixedSl: real := 0.075
  const TrailSl: real := 0.15
  const Capital: real := 10000.0
  const Period: nat := 50

  /** `yearly_vals[year]`: the start and end values and the trade counter. */
  datatype YearVals = YearVals(start: real, end: real, trades: nat)

  /** The loop's variables: those of the shared loop plus yearly_vals. */
  datatype Detail = Detail(sim: PriorSma.Sim, years: map<int, YearVals>)

  function ContextOf(bars: seq<Bar>): (ctx: PriorSma.Ctx)
    ensures ctx.sma == PriorSma.SmaOf(bars, Period)
  {
    PriorSma.Ctx(PriorSma.SmaOf(bars, Period), FixedSl, TrailSl, PriorSma.ByHigh, false)
  }

  /** `current_val = cap if pos == 0 else pos * t['c']` */
  function ValueAt(s: PriorSma.Sim, b: Bar): (v: real)
    ensures s.pos == 0.0 ==> v == s.cap
    ensures s.pos != 0.0 ==> v == Fills.Value(s.pos, b.close)
  {
    if s.pos == 0.0 then s.cap else Fills.Value(s.pos, b.close)
  }

  /** Lines 75-77: a year seen for the first time starts at the value; every
      processed bar moves its year's end to the value. */
  function MarkYear(years: map<int, YearVals>, y: int, v: real): (r: map<int, YearVals>)
    ensures r.Keys == years.Keys + {y} && r[y].end == v
    ensures y in years ==> r[y] == years[y].(end := v)
    ensures y !in years ==> r[y] == YearVals(v, v, 0)
    ensures forall k :: k in years && k != y ==> r[k] == years[k]
  {
    years[y := if y in years then years[y].(end := v) else YearVals(v, v, 0)]
  }

  /** `yearly_vals[year]['trades'] += 1` */
  function CountExit(years: map<int, YearVals>, y: int): (r: map<int, YearVals>)
    requires y in years
    ensures r.Keys == years.Keys && r[y] == years[y].(trades := years[y].trades + 1)
    ensures forall k :: k in years && k != y ==> r[k] == years[k]
  {
    years[y := years[y].(trades := years[y].trades + 1)]
  }

  /** One pass of the loop (lines 65-107). */
  function Step(start: real, ctx: PriorSma.Ctx, d: Detail, b: Bar): (r: Detail)
    requires PriorSma.Ok(start, d.sim) && b.close != 0.0
    ensures PriorSma.Ok(start, r.sim) && r.sim == PriorSma.Step(start, ctx, d.sim, b)
  {
    if b.at.day !in ctx.sma then d
    else
      var y := YearOf(b.at.day);
      var years := MarkYear(d.years, y, ValueAt(d.sim, b));
      var sim := PriorSma.Step(start, ctx, d.sim, b);
      Detail(sim, if |sim.trades| > |d.sim.trades| then CountExit(years, y) else years)
  }

  function Run(start: real, ctx: PriorSma.Ctx, bars: seq<Bar>): (d: Detail)
    requires Position.CloseDivisible(bars)
    ensures PriorSma.Ok(start, d.sim) && d.sim == PriorSma.Run(start, ctx, bars)
  {
    if bars == [] then Detail(PriorSma.Start(start), map[])
    else Step(start, ctx, Run(start, ctx, bars[..|bars| - 1]), bars[|bars| - 1])
  }

  /** Lines 109-114: a long position is closed at the last bar's close as
      'eod' and counted in that bar's year; the script indexes yearly_vals by
      that year without checking, and a missing year (a KeyError) is None. */
  function Finish(start: real, d: Detail, last: Bar): (r: Option<Detail>)
    requires PriorSma.Ok(start, d.sim)
    ensures d.sim.pos <= 0.0 ==> r == Some(d)
    ensures d.sim.pos > 0.0 ==> (r.None? <==> YearOf(last.at.day) !in d.years)
    ensures r.Some? ==> r.value.sim == PriorSma.Finish(start, d.sim, last)
  {
    if d.sim.pos <= 0.0 then Some(d)
    else
      var y := YearOf(last.at.day);
      if y !in d.years then None
      else Some(Detail(PriorSma.Close(start, d.sim, last.at, last.close, OpenAtEnd), CountExit(d.years, y)))
  }

  /** The script over the joined bars. */
  function Backtest(bars: seq<Bar>): (r: Option<Detail>)
    requires Position.CloseDivisible(bars)
  {
    if bars == [] then Some(Detail(PriorSma.Start(Capital), map[]))
    else Finish(Capital, Run(Capital, ContextOf(bars), bars), bars[|bars| - 1])
  }

  // ---- the script as written ----

  method ProcessBar(start: real, ctx: PriorSma.Ctx, d: Detail, b: Bar) returns (r: Detail)
    requires PriorSma.Ok(start, d.sim) && b.close != 0.0
    ensures r == Step(start, ctx, d, b)
  {
    var day := b.at.day;
    if day !in ctx.sma {
      return d;
    }
    var year := YearOf(day);
    var yearlyVals := d.years;
    var currentVal := if d.sim.pos == 0.0 then d.sim.cap else Fills.Value(d.sim.pos, b.close);
    if year !in yearlyVals {
      yearlyVals := yearlyVals[year := YearVals(currentVal, currentVal, 0)];
    }
    yearlyVals := yearlyVals[year := yearlyVals[year].(end := currentVal)];
    var sim := PriorSma.ProcessBar(start, ctx, d.sim, b);
    if |sim.trades| > |d.sim.trades| {
      yearlyVals := yearlyVals[year := yearlyVals[year].(trades := yearlyVals[year].trades + 1)];
    }
    r := Detail(sim, yearlyVals);
  }

  /** `for ts in common: ...` */
  method Simulate(start: real, ctx: PriorSma.Ctx, common: seq<Bar>) returns (d: Detail)
    requires Position.CloseDivisible(common)
    ensures d == Run(start, ctx, common)
  {
    d := Detail(PriorSma.Start(start), map[]);
    var i := 0;
    while i < |common|
      invariant 0 <= i <= |common|
      invariant d == Run(start, ctx, common[..i])
    {
      assert common[..i + 1][..i] == common[..i];
      d := ProcessBar(start, ctx, d, common[i]);
      i := i + 1;
    }
    assert common[..i] == common;
  }

  /** The whole script: the SMA table, the loop, the closing block. */
  method RunDetail(common: seq<Bar>) returns (r: Option<Detail>)
    requires Position.CloseDivisible(common)
    ensures r == Backtest(common)
  {
    var sma := PriorSma.BuildSma(common, Period);
    var ctx := PriorSma.Ctx(sma, FixedSl, TrailSl, PriorSma.ByHigh, false);
    var d := Simulate(Capital, ctx, common);
    if |common| == 0 {
      return Some(d);
    }
    if d.sim.pos > 0.0 {
      var last := common[|common| - 1];
      var year := YearOf(last.at.day);
      if year !in d.years {
        // yearly_vals[year] raises KeyError
        return None;
      }
      var sim := PriorSma.Close(Capital, d.sim, last.at, last.close, OpenAtEnd);
      d := Detail(sim, d.years[year := d.years[year].(trades := d.years[year].trades + 1)]);
    }
    r := Some(d);
  }

  // ---- what the script promises ----

  /** The trade counters: each year's counter is the number of trades that
      closed in that year, and every closed trade's year has a row. */
  predicate Tallied(d: Detail)
  {
    (forall y :: y in d.years ==> d.years[y].trades == |OfYear(d.sim.trades, y)|)
    && (forall i :: 0 <= i < |d.sim.trades| ==> d.sim.trades[i].exit.Some? && ExitYear(d.sim.trades[i]) in d.years)
  }

  /** A position is only opened on a processed bar, whose date has an SMA. */
  predicate Entered(ctx: PriorSma.Ctx, s: PriorSma.Sim)
  {
    s.pos != 0.0 ==> s.entryAt.day in ctx.sma
  }

  lemma {:induction false} OfYearAppend(ts: seq<Trade>, t: Trade, y: int)
    requires Priced(t)
    ensures |OfYear(ts + [t], y)| == |OfYear(ts, y)| + (if ExitYear(t) == y then 1 else 0)
  {
    assert (ts + [t])[..|ts|] == ts;
  }

  lemma {:induction false} NoRowNoTrades(ts: seq<Trade>, years: map<int, YearVals>, y: int)
    requires forall i :: 0 <= i < |ts| ==> ts[i].exit.Some? && ExitYear(ts[i]) in years
    requires y !in years
    ensures OfYear(ts, y) == []
  {
    if ts != [] {
      var init := ts[..|ts| - 1];
      assert forall i :: 0 <= i < |init| ==> init[i] == ts[i];
      NoRowNoTrades(init, years, y);
    }
  }

  lemma {:induction false} StepTallied(start: real, ctx: PriorSma.Ctx, d: Detail, b: Bar)
    requires PriorSma.Ok(start, d.sim) && b.close != 0.0 && Tallied(d) && Entered(ctx, d.sim)
    ensures Tallied(Step(start, ctx, d, b)) && Entered(ctx, Step(start, ctx, d, b).sim)
    ensures b.at.day in ctx.sma ==> YearOf(b.at.day) in Step(start, ctx, d, b).years
  {
    if b.at.day in ctx.sma {
      var y := YearOf(b.at.day);
      var r := Step(start, ctx, d, b);
      var s := d.sim;
      var years := MarkYear(d.years, y, ValueAt(s, b));
      PriorSma.NoEntryOnExitBar(start, ctx, s, b);
      PriorSma.EntryStamp(start, ctx, s, b);
      if y !in d.years {
        NoRowNoTrades(s.trades, d.years, y);
      }
      if |r.sim.trades| > |s.trades| {
        var t := r.sim.trades[|s.trades|];
        assert r.sim.trades == s.trades + [t];
        assert t.exit.value.at == b.at;
        forall k | k in r.years ensures r.years[k].trades == |OfYear(r.sim.trades, k)| {
          OfYearAppend(s.trades, t, k);
        }
        forall i | 0 <= i < |r.sim.trades| ensures r.sim.trades[i].exit.Some? && ExitYear(r.sim.trades[i]) in r.years {
          if i < |s.trades| {
            assert r.sim.trades[i] == s.trades[i];
          }
        }
      }
    }
  }

  lemma {:induction false} RunTallied(start: real, ctx: PriorSma.Ctx, bars: seq<Bar>)
    requires Position.CloseDivisible(bars)
    ensures Tallied(Run(start, ctx, bars)) && Entered(ctx, Run(start, ctx, bars).sim)
    ensures |bars| > 0 && bars[|bars| - 1].at.day in ctx.sma ==> YearOf(bars[|bars| - 1].at.day) in Run(start, ctx, bars).years
  {
    if bars != [] {
      var p := bars[..|bars| - 1];
      RunTallied(start, ctx, p);
      StepTallied(start, ctx, Run(start, ctx, p), bars[|bars| - 1]);
    }
  }

  /** The closing block never raises KeyError on joined bars in date order:
      a long position was opened on a date with an SMA, so the last date has
      one too and its year was recorded by the last bar. Afterwards every
      year's counter is its number of exits, the final 'eod' included. */
  lemma Counted(bars: seq<Bar>)
    requires Position.CloseDivisible(bars) && DaysAscending(bars)
    ensures Backtest(bars).Some?
    ensures Tallied(Backtest(bars).value)
  {
    if bars != [] {
      var ctx := ContextOf(bars);
      var d := Run(Capital, ctx, bars);
      var last := bars[|bars| - 1];
      RunTallied(Capital, ctx, bars);
      if d.sim.pos > 0.0 {
        PriorSma.LastDayHasSma(bars, Period, d.sim.entryAt.day);
        var y := YearOf(last.at.day);
        var r := Finish(Capital, d, last);
        var t := r.value.sim.trades[|d.sim.trades|];
        assert r.value.sim.trades == d.sim.trades + [t];
        forall k | k in r.value.years ensures r.value.years[k].trades == |OfYear(r.value.sim.trades, k)| {
          OfYearAppend(d.sim.trades, t, k);
        }
        forall i | 0 <= i < |r.value.sim.trades|
          ensures r.value.sim.trades[i].exit.Some? && ExitYear(r.value.sim.trades[i]) in r.value.years
        {
          if i < |d.sim.trades| {
            assert r.value.sim.trades[i] == d.sim.trades[i];
          }
        }
      }
    }
  }

  /** Lines 74-77 on a processed bar: its year's end becomes the bar's value
      (the capital when flat, the position marked at TQQQ's close when
      long); its start is that value only if the year is new; no other year
      changes except through exits, which only touch the counter. */
  lemma MarkRule(start: real, ctx: PriorSma.Ctx, d: Detail, b: Bar)
    requires PriorSma.Ok(start, d.sim) && b.close != 0.0 && b.at.day in ctx.sma
    ensures var r := Step(start, ctx, d, b);
      var y := YearOf(b.at.day);
      && r.years.Keys == d.years.Keys + {y}
      && r.years[y].end == ValueAt(d.sim, b)
      && r.years[y].start == (if y in d.years then d.years[y].start else ValueAt(d.sim, b))
      && (forall k :: k in d.years && k != y ==> r.years[k] == d.years[k])
  {
  }
}
