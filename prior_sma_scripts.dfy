// The three scripts that wrap the shared 15-minute loop of PriorSma:
// sma_correct.py and sma_simple_15m.py (a grid of SMA periods and stop
// percentages, returning a small summary per setting) and
// sma50_standard_output.py (one setting, with buy-and-hold, alpha, a win/loss
// breakdown and the annual table).
module PriorSmaScripts {
  import opened Core
  import opened Ledger
  import opened Yearly
  import Position
  import PriorSma
  import opened Rounding

  const StartingCap: real := 10000.0

  // ---- win and loss statistics ----

  /** The pnl_pct of the trades that won (`pnl_pct > 0`), in order. */
  function WinPcts(trades: seq<Trade>): (w: seq<real>)
    requires PriorSma.Completed(trades)
    ensures |w| <= |trades|
    ensures forall j :: 0 <= j < |w| ==> w[j] > 0.0
    ensures forall i :: 0 <= i < |trades| && PriorSma.PnlPct(trades[i]) > 0.0 ==> PriorSma.PnlPct(trades[i]) in w
  {
    if trades == [] then []
    else
      var init := trades[..|trades| - 1];
      var x := PriorSma.PnlPct(trades[|trades| - 1]);
      assert forall i :: 0 <= i < |init| ==> init[i] == trades[i];
      WinPcts(init) + (if x > 0.0 then [x] else [])
  }

  /** The pnl_pct of the trades that lost (`pnl_pct <= 0`: a flat trade is
      a loss), in order. */
  function LossPcts(trades: seq<Trade>): (l: seq<real>)
    requires PriorSma.Completed(trades)
    ensures |l| <= |trades|
    ensures forall j :: 0 <= j < |l| ==> l[j] <= 0.0
    ensures forall i :: 0 <= i < |trades| && PriorSma.PnlPct(trades[i]) <= 0.0 ==> PriorSma.PnlPct(trades[i]) in l
  {
    if trades == [] then []
    else
      var init := trades[..|trades| - 1];
      var x := PriorSma.PnlPct(trades[|trades| - 1]);
      assert forall i :: 0 <= i < |init| ==> init[i] == trades[i];
      LossPcts(init) + (if x <= 0.0 then [x] else [])
  }

  /** Every trade is a win or a loss, never both. */
  lemma {:induction false} WinsAndLosses(trades: seq<Trade>)
    requires PriorSma.Completed(trades)
    ensures |WinPcts(trades)| + |LossPcts(trades)| == |trades|
  {
    if trades != [] {
      WinsAndLosses(trades[..|trades| - 1]);
    }
  }

  /** `len(wins) / len(trades) * 100 if trades else 0`, in 0..100 and 100
      exactly when every trade won. */
  function WinRate(trades: seq<Trade>): (wr: real)
    requires PriorSma.Completed(trades)
    ensures 0.0 <= wr <= 100.0
    ensures wr == 100.0 <==> trades != [] && |WinPcts(trades)| == |trades|
    ensures trades == [] ==> wr == 0.0
  {
    if trades == [] then 0.0
    else
      var w, n := |WinPcts(trades)| as real, |trades| as real;
      Percentage(w, n);
      w / n * 100.0
  }

  /** How many trades still count as wins once their pnl_pct is stored as
      round(pnl_pct, d): those more than half a unit of the last digit
      above zero. */
  function RoundedWinCount(trades: seq<Trade>, d: nat): (n: nat)
    requires PriorSma.Completed(trades)
    ensures n <= |trades|
    ensures n == 0 <==> forall i :: 0 <= i < |trades| ==> Scaled(PriorSma.PnlPct(trades[i]), d) <= 0.5
  {
    if trades == [] then 0
    else
      var init := trades[..|trades| - 1];
      var x := PriorSma.PnlPct(trades[|trades| - 1]);
      assert forall i :: 0 <= i < |init| ==> init[i] == trades[i];
      RoundPositive(x, d);
      RoundedWinCount(init, d) + (if RoundTo(x, d) > 0.0 then 1 else 0)
  }

  /** Rounding the stored pnl_pct only turns wins into losses. */
  lemma {:induction false} RoundedWinsAtMostWins(trades: seq<Trade>, d: nat)
    requires PriorSma.Completed(trades)
    ensures RoundedWinCount(trades, d) <= |WinPcts(trades)|
  {
    if trades != [] {
      RoundedWinsAtMostWins(trades[..|trades| - 1], d);
      RoundKeepsSign(PriorSma.PnlPct(trades[|trades| - 1]), d);
    }
  }

  /** The win rate over the rounded pnl_pct values: in 0..100, 0 exactly
      when no trade clears half a unit of the last digit, and never above
      the win rate of the exact values. */
  function RoundedWinRate(trades: seq<Trade>, d: nat): (wr: real)
    requires PriorSma.Completed(trades)
    ensures 0.0 <= wr <= WinRate(trades) <= 100.0
    ensures wr == 0.0 <==> forall i :: 0 <= i < |trades| ==> Scaled(PriorSma.PnlPct(trades[i]), d) <= 0.5
  {
    if trades == [] then 0.0
    else
      var w, n := RoundedWinCount(trades, d) as real, |trades| as real;
      Percentage(w, n);
      RoundedWinsAtMostWins(trades, d);
      DivideMonotone(w, |WinPcts(trades)| as real, n);
      DivideSign(w, n);
      w / n * 100.0
  }

  /** The average win is positive and the average loss is at most zero. */
  lemma AverageSigns(trades: seq<Trade>)
    requires PriorSma.Completed(trades)
    ensures WinPcts(trades) != [] ==> Mean(WinPcts(trades)) > 0.0
    ensures Mean(LossPcts(trades)) <= 0.0
  {
    MeanSigns(WinPcts(trades));
    MeanSigns(LossPcts(trades));
  }

  // ---- test_strategy of sma_correct.py and sma_simple_15m.py ----

  /** `ret = (cap - 10000) / 100`, the per cent return on 10000. */
  function Ret(cap: real): (r: real)
    ensures r > 0.0 <==> cap > StartingCap
  {
    (cap - StartingCap) / 100.0
  }

  /** The SMA table of period p and the stop fractions (fixed_sl / 100,
      trail_sl / 100) with the highest price followed by `track`. */
  function GridContext(common: seq<Bar>, p: nat, fixedFrac: real, trailFrac: real, track: PriorSma.Track): PriorSma.Ctx
  {
    PriorSma.Ctx(PriorSma.SmaOf(common, p), fixedFrac, trailFrac, track, false)
  }

  /** The dict sma_correct.py returns: ret, n, wr and the stop count. */
  datatype Summary = Summary(ret: real, n: nat, wr: real, stops: nat)

  /** sma_correct.py's test_strategy: the highest price follows the bar's
      high; no trades gives None. */
  function CorrectTest(common: seq<Bar>, p: nat, fixedFrac: real, trailFrac: real): (r: Option<Summary>)
    requires Position.CloseDivisible(common)
    ensures var s := PriorSma.Backtest(StartingCap, GridContext(common, p, fixedFrac, trailFrac, PriorSma.ByHigh), common);
      && (r.None? <==> s.trades == [])
      && (r.Some? ==>
            && r.value.n == |s.trades|
            && r.value.ret == RoundTo(Ret(s.cap), 1)
            && r.value.stops == CountReason(s.trades, StopHit) <= r.value.n
            && 0.0 <= r.value.wr <= WinRate(s.trades)
            && (r.value.wr == 0.0 <==> forall i :: 0 <= i < |s.trades| ==> Scaled(PriorSma.PnlPct(s.trades[i]), 1) <= 0.5))
  {
    var s := PriorSma.Backtest(StartingCap, GridContext(common, p, fixedFrac, trailFrac, PriorSma.ByHigh), common);
    if s.trades == [] then None
    else Some(Summary(RoundTo(Ret(s.cap), 1), |s.trades|, RoundedWinRate(s.trades, 1), CountReason(s.trades, StopHit)))
  }

  method RunCorrectTest(common: seq<Bar>, p: nat, fixedFrac: real, trailFrac: real) returns (r: Option<Summary>)
    requires Position.CloseDivisible(common)
    ensures r == CorrectTest(common, p, fixedFrac, trailFrac)
  {
    var sma := PriorSma.BuildSma(common, p);
    var s := PriorSma.Simulation(StartingCap, PriorSma.Ctx(sma, fixedFrac, trailFrac, PriorSma.ByHigh, false), common);
    if s.trades == [] {
      return None;
    }
    r := Some(Summary(RoundTo(Ret(s.cap), 1), |s.trades|, RoundedWinRate(s.trades, 1), CountReason(s.trades, StopHit)));
  }

  /** The dict sma_simple_15m.py returns: ret, n and wr. */
  datatype Brief = Brief(ret: real, n: nat, wr: real)

  /** sma_simple_15m.py's test_strategy: the highest price follows the
      bar's close; no trades gives None. */
  function SimpleTest(common: seq<Bar>, p: nat, fixedFrac: real, trailFrac: real): (r: Option<Brief>)
    requires Position.CloseDivisible(common)
    ensures var s := PriorSma.Backtest(StartingCap, GridContext(common, p, fixedFrac, trailFrac, PriorSma.ByClose), common);
      && (r.None? <==> s.trades == [])
      && (r.Some? ==> r.value.n == |s.trades| && r.value.ret == RoundTo(Ret(s.cap), 1) && 0.0 <= r.value.wr <= 100.0)
  {
    var s := PriorSma.Backtest(StartingCap, GridContext(common, p, fixedFrac, trailFrac, PriorSma.ByClose), common);
    if s.trades == [] then None
    else Some(Brief(RoundTo(Ret(s.cap), 1), |s.trades|, WinRate(s.trades)))
  }

  method RunSimpleTest(common: seq<Bar>, p: nat, fixedFrac: real, trailFrac: real) returns (r: Option<Brief>)
    requires Position.CloseDivisible(common)
    ensures r == SimpleTest(common, p, fixedFrac, trailFrac)
  {
    var sma := PriorSma.BuildSma(common, p);
    var s := PriorSma.Simulation(StartingCap, PriorSma.Ctx(sma, fixedFrac, trailFrac, PriorSma.ByClose, false), common);
    if s.trades == [] {
      return None;
    }
    r := Some(Brief(RoundTo(Ret(s.cap), 1), |s.trades|, WinRate(s.trades)));
  }

  /** With positive prices the reported return is the compounded growth of
      the trades, `ret = 100 * (product of exit / entry - 1)`, and the
      capital is the starting capital plus the trades' pnl. */
  lemma ReturnCompounds(common: seq<Bar>, p: nat, fixedFrac: real, trailFrac: real, track: PriorSma.Track)
    requires Position.CloseDivisible(common) && PositivePrices(common)
    ensures var s := PriorSma.Backtest(StartingCap, GridContext(common, p, fixedFrac, trailFrac, track), common);
      && s.cap == StartingCap + ClosedPnl(s.trades)
      && Ret(s.cap) == 100.0 * (Position.Growth(s.trades) - 1.0)
  {
    PriorSma.FinalCapital(StartingCap, GridContext(common, p, fixedFrac, trailFrac, track), common);
  }

  // ---- sma50_standard_output.py ----

  const StdPeriod: nat := 50
  const StdFixed: real := 0.075
  const StdTrail: real := 0.15

  /** SMA 50, a 7.5% fixed and a 15% trailing stop, the highest price
      following the high, and the stops labelled TRAIL or FIXED. */
  function StdContext(common: seq<Bar>): PriorSma.Ctx
  {
    PriorSma.Ctx(PriorSma.SmaOf(common, StdPeriod), StdFixed, StdTrail, PriorSma.ByHigh, true)
  }

  /** One line of the annual table: the balance before and after the year
      and the year's number of trades. */
  datatype AnnualRow = AnnualRow(start: real, end: real, trades: nat)

  /** The figures the script prints after the trade log. */
  datatype Report = Report(cap: real, totalReturn: real, bhReturn: real, alpha: real,
                           wins: nat, losses: nat, fixedStops: nat, trailStops: nat, smaExits: nat,
                           winRate: real, avgWin: real, avgLoss: real,
                           annual: map<int, AnnualRow>)

  /** `bh_return = (last_qqq - first_qqq) / first_qqq * 100` over the
      signal closes of the first and last joined bars. */
  function BhReturn(common: seq<Bar>): real
    requires |common| > 0 && common[0].signal != 0.0
  {
    (common[|common| - 1].signal - common[0].signal) / common[0].signal * 100.0
  }

  /** Every trade carries an exit (the script's trades always do). */
  predicate AllPriced(ts: seq<Trade>)
  {
    forall i :: 0 <= i < |ts| ==> Priced(ts[i])
  }

  /** The exit years of the trades: the keys of the `yearly` dict. */
  function YearsOf(ts: seq<Trade>): set<int>
  {
    set i | 0 <= i < |ts| && Priced(ts[i]) :: ExitYear(ts[i])
  }

  /** The annual table as the design means it: for each exit year in
      ascending order, the balance is the starting capital plus the
      pnl_dollar of every trade closed in an earlier year, and it ends
      after adding the year's own. */
  function AnnualOf(ts: seq<Trade>, start: real): map<int, AnnualRow>
  {
    map y | y in YearsOf(ts) :: Row(ts, start, y)
  }

  function Row(ts: seq<Trade>, start: real, y: int): AnnualRow
  {
    AnnualRow(start + PnlBefore(ts, y), start + PnlThrough(ts, y), |OfYear(ts, y)|)
  }

  lemma YearsOfMeaning(ts: seq<Trade>)
    ensures forall y :: y in YearsOf(ts) <==> OfYear(ts, y) != []
  {
    forall y | OfYear(ts, y) != [] ensures y in YearsOf(ts) {
      OfYearMember(ts, y);
    }
    forall y | y in YearsOf(ts) ensures OfYear(ts, y) != [] {
      var i :| 0 <= i < |ts| && Priced(ts[i]) && ExitYear(ts[i]) == y;
      OfYearHas(ts, i);
    }
  }

  /** One year's entry of the `yearly` dict. */
  datatype YearSum = YearSum(pnl: real, trades: nat)

  lemma ClosedPnlSnoc(ts: seq<Trade>, t: Trade)
    ensures ClosedPnl(ts + [t]) == ClosedPnl(ts) + (if t.exit.Some? then t.exit.value.pnl else 0.0)
  {
    assert (ts + [t])[..|ts|] == ts;
  }

  /** `yearly` holds, for every exit year of `ts` and no other, the sum of
      that year's pnl_dollar and its number of trades. */
  ghost predicate Grouped(yearly: map<int, YearSum>, ts: seq<Trade>)
  {
    && (forall y :: y in yearly <==> OfYear(ts, y) != [])
    && (forall y :: y in yearly ==> yearly[y] == YearSum(ClosedPnl(OfYear(ts, y)), |OfYear(ts, y)|))
  }

  /** The entry a trade of year y updates: its current one, or zeros. */
  function Current(yearly: map<int, YearSum>, y: int): YearSum
  {
    if y in yearly then yearly[y] else YearSum(0.0, 0)
  }

  /** One pass of the grouping loop keeps its invariant. */
  lemma GroupStep(ts: seq<Trade>, i: int, yearly: map<int, YearSum>)
    requires 0 <= i < |ts| && Priced(ts[i])
    requires Grouped(yearly, ts[..i])
    ensures var y := ExitYear(ts[i]);
      Grouped(yearly[y := YearSum(Current(yearly, y).pnl + ts[i].exit.value.pnl, Current(yearly, y).trades + 1)], ts[..i + 1])
  {
    var y := ExitYear(ts[i]);
    var yearly' := yearly[y := YearSum(Current(yearly, y).pnl + ts[i].exit.value.pnl, Current(yearly, y).trades + 1)];
    GroupStepKeys(ts, i, yearly, yearly');
    GroupStepSums(ts, i, yearly, yearly');
  }

  lemma GroupStepKeys(ts: seq<Trade>, i: int, yearly: map<int, YearSum>, yearly': map<int, YearSum>)
    requires 0 <= i < |ts| && Priced(ts[i])
    requires Grouped(yearly, ts[..i])
    requires yearly' == yearly[ExitYear(ts[i]) := YearSum(Current(yearly, ExitYear(ts[i])).pnl + ts[i].exit.value.pnl, Current(yearly, ExitYear(ts[i])).trades + 1)]
    ensures forall z :: z in yearly' <==> OfYear(ts[..i + 1], z) != []
  {
    forall z ensures z in yearly' <==> OfYear(ts[..i + 1], z) != [] {
      OfYearOfPrefix(ts, i, z);
    }
  }

  lemma GroupStepSums(ts: seq<Trade>, i: int, yearly: map<int, YearSum>, yearly': map<int, YearSum>)
    requires 0 <= i < |ts| && Priced(ts[i])
    requires Grouped(yearly, ts[..i])
    requires yearly' == yearly[ExitYear(ts[i]) := YearSum(Current(yearly, ExitYear(ts[i])).pnl + ts[i].exit.value.pnl, Current(yearly, ExitYear(ts[i])).trades + 1)]
    ensures forall z :: z in yearly' ==> yearly'[z] == YearSum(ClosedPnl(OfYear(ts[..i + 1], z)), |OfYear(ts[..i + 1], z)|)
  {
    var t, y := ts[i], ExitYear(ts[i]);
    var pre, post := ts[..i], ts[..i + 1];
    forall z | z in yearly'
      ensures yearly'[z] == YearSum(ClosedPnl(OfYear(post, z)), |OfYear(post, z)|)
    {
      OfYearOfPrefix(ts, i, z);
      if z == y {
        assert Current(yearly, y) == YearSum(ClosedPnl(OfYear(pre, y)), |OfYear(pre, y)|);
        ClosedPnlSnoc(OfYear(pre, y), t);
        assert OfYear(post, y) == OfYear(pre, y) + [t];
      } else {
        assert OfYear(post, z) == OfYear(pre, z);
        assert yearly'[z] == yearly[z];
      }
    }
  }

  /** The trades of year z among the first i + 1. */
  lemma OfYearOfPrefix(ts: seq<Trade>, i: int, z: int)
    requires 0 <= i < |ts|
    ensures OfYear(ts[..i + 1], z) == OfYear(ts[..i], z) + (if Priced(ts[i]) && ExitYear(ts[i]) == z then [ts[i]] else [])
  {
    assert ts[..i + 1][..i] == ts[..i];
  }

  /** Lines 217-223: the pnl_dollar and the count of the trades per exit
      year. */
  method GroupByYear(trades: seq<Trade>) returns (yearly: map<int, YearSum>)
    requires AllPriced(trades)
    ensures yearly.Keys == YearsOf(trades)
    ensures forall y :: y in yearly ==> yearly[y] == YearSum(ClosedPnl(OfYear(trades, y)), |OfYear(trades, y)|)
  {
    yearly := map[];
    var i := 0;
    while i < |trades|
      invariant 0 <= i <= |trades|
      invariant Grouped(yearly, trades[..i])
    {
      var t := trades[i];
      var y := ExitYear(t);
      GroupStep(trades, i, yearly);
      var acc := Current(yearly, y);
      yearly := yearly[y := YearSum(acc.pnl + t.exit.value.pnl, acc.trades + 1)];
      i := i + 1;
    }
    assert trades[..i] == trades;
    GroupedKeys(yearly, trades);
  }

  /** A finished grouping has a key for each exit year and no other. */
  lemma GroupedKeys(yearly: map<int, YearSum>, ts: seq<Trade>)
    requires Grouped(yearly, ts)
    ensures yearly.Keys == YearsOf(ts)
  {
    YearsOfMeaning(ts);
    assert forall y :: y in yearly.Keys <==> y in YearsOf(ts);
  }

  lemma {:induction false} MinExists(s: set<int>)
    requires s != {}
    ensures exists m :: m in s && forall z :: z in s ==> m <= z
  {
    if forall y :: y !in s {
      assert false;
    }
    var x :| x in s;
    if s - {x} != {} {
      MinExists(s - {x});
      var m :| m in s - {x} && forall z :: z in s - {x} ==> m <= z;
      if x < m {
        forall z | z in s ensures x <= z {
          if z != x {
            assert z in s - {x};
          }
        }
      } else {
        forall z | z in s ensures m <= z {
          if z != x {
            assert z in s - {x};
          }
        }
      }
    } else {
      forall z | z in s ensures x <= z {
        assert z == x || z in s - {x};
      }
    }
  }

  lemma {:induction false} NothingBefore(ts: seq<Trade>, y: int)
    requires forall i :: 0 <= i < |ts| && Priced(ts[i]) ==> ExitYear(ts[i]) >= y
    ensures PnlBefore(ts, y) == 0.0
  {
    if ts != [] {
      NothingBefore(ts[..|ts| - 1], y);
    }
  }

  lemma {:induction false} ThroughIsBefore(ts: seq<Trade>, y: int)
    ensures PnlThrough(ts, y) == PnlBefore(ts, y + 1)
  {
    if ts != [] {
      ThroughIsBefore(ts[..|ts| - 1], y);
    }
  }

  /** The rows emitted so far: those of the years already taken from
      `remaining`, all before `next`, which is at most every year left. */
  ghost predicate Emitted(rows: map<int, AnnualRow>, ts: seq<Trade>, start: real, remaining: set<int>, next: int)
  {
    && remaining <= YearsOf(ts)
    && rows.Keys == YearsOf(ts) - remaining
    && (forall y :: y in rows ==> y < next)
    && (forall y :: y in remaining ==> next <= y)
    && (forall y :: y in rows ==> rows[y] == Row(ts, start, y))
  }

  /** Taking the smallest year left emits its row, which starts at the
      balance the earlier years left and ends after the year's pnl_dollar. */
  lemma EmitStep(rows: map<int, AnnualRow>, ts: seq<Trade>, start: real, remaining: set<int>, next: int, y: int,
                 running: real, sum: YearSum)
    requires Emitted(rows, ts, start, remaining, next)
    requires y in remaining && forall z :: z in remaining ==> y <= z
    requires running == start + PnlBefore(ts, next)
    requires sum == YearSum(ClosedPnl(OfYear(ts, y)), |OfYear(ts, y)|)
    ensures AnnualRow(running, running + sum.pnl, sum.trades) == Row(ts, start, y)
    ensures running + sum.pnl == start + PnlBefore(ts, y + 1)
    ensures Emitted(rows[y := AnnualRow(running, running + sum.pnl, sum.trades)], ts, start, remaining - {y}, y + 1)
  {
    forall i | 0 <= i < |ts| && Priced(ts[i]) ensures !(next - 1 < ExitYear(ts[i]) < y) {
      assert ExitYear(ts[i]) in YearsOf(ts);
      assert ExitYear(ts[i]) in rows || ExitYear(ts[i]) in remaining;
    }
    GapPnl(ts, next - 1, y);
    ThroughIsBefore(ts, next - 1);
    YearSpan(ts, y);
    ThroughIsBefore(ts, y);
  }

  /** Before the first year nothing is emitted and the balance is the
      starting capital. */
  lemma EmitStart(ts: seq<Trade>, start: real) returns (next: int)
    ensures Emitted(map[], ts, start, YearsOf(ts), next)
    ensures PnlBefore(ts, next) == 0.0
  {
    next := 0;
    if YearsOf(ts) != {} {
      MinExists(YearsOf(ts));
      next :| next in YearsOf(ts) && forall z :: z in YearsOf(ts) ==> next <= z;
    }
    forall i | 0 <= i < |ts| && Priced(ts[i]) ensures ExitYear(ts[i]) >= next {
      assert ExitYear(ts[i]) in YearsOf(ts);
    }
    NothingBefore(ts, next);
  }

  /** Once no year is left, the rows are the whole table. */
  lemma EmitDone(rows: map<int, AnnualRow>, ts: seq<Trade>, start: real, next: int)
    requires Emitted(rows, ts, start, {}, next)
    ensures rows == AnnualOf(ts, start)
  {
    assert rows.Keys == AnnualOf(ts, start).Keys;
  }

  /** Lines 225-230: the years in ascending order, each starting at the
      running balance and adding its pnl_dollar to it. */
  method RunningBalance(trades: seq<Trade>, start: real, yearly: map<int, YearSum>) returns (rows: map<int, AnnualRow>)
    requires yearly.Keys == YearsOf(trades)
    requires forall y :: y in yearly ==> yearly[y] == YearSum(ClosedPnl(OfYear(trades, y)), |OfYear(trades, y)|)
    ensures rows == AnnualOf(trades, start)
  {
    rows := map[];
    var running := start;
    var remaining := yearly.Keys;
    ghost var next := EmitStart(trades, start);
    while remaining != {}
      invariant Emitted(rows, trades, start, remaining, next)
      invariant running == start + PnlBefore(trades, next)
      decreases |remaining|
    {
      MinExists(remaining);
      var y :| y in remaining && forall z :: z in remaining ==> y <= z;
      var sum := yearly[y];
      EmitStep(rows, trades, start, remaining, next, y, running, sum);
      rows := rows[y := AnnualRow(running, running + sum.pnl, sum.trades)];
      running := running + sum.pnl;
      remaining := remaining - {y};
      next := y + 1;
    }
    EmitDone(rows, trades, start, next);
  }

  /** Lines 217-230: the per-year sums, then the running balance through
      the years in ascending order. */
  method AnnualTable(trades: seq<Trade>, start: real) returns (rows: map<int, AnnualRow>)
    requires AllPriced(trades)
    ensures rows == AnnualOf(trades, start)
  {
    var yearly := GroupByYear(trades);
    rows := RunningBalance(trades, start, yearly);
  }

  /** Each row of the table ends at its start plus the year's pnl_dollar,
      and a year starts where the previous year of the table ended. */
  lemma AnnualChains(ts: seq<Trade>, start: real)
    ensures AnnualOf(ts, start).Keys == YearsOf(ts)
    ensures forall y :: y in AnnualOf(ts, start) ==>
        AnnualOf(ts, start)[y].end == AnnualOf(ts, start)[y].start + ClosedPnl(OfYear(ts, y))
    ensures forall y1, y2 ::
        && y1 in AnnualOf(ts, start) && y2 in AnnualOf(ts, start) && y1 < y2
        && (forall y :: y1 < y < y2 ==> y !in AnnualOf(ts, start))
        ==>
        AnnualOf(ts, start)[y2].start == AnnualOf(ts, start)[y1].end
  {
    var rows := AnnualOf(ts, start);
    forall y | y in rows ensures rows[y].end == rows[y].start + ClosedPnl(OfYear(ts, y)) {
      YearSpan(ts, y);
    }
    forall y1, y2 | y1 in rows && y2 in rows && y1 < y2 && (forall y :: y1 < y < y2 ==> y !in rows)
      ensures rows[y2].start == rows[y1].end
    {
      forall i | 0 <= i < |ts| && Priced(ts[i]) ensures !(y1 < ExitYear(ts[i]) < y2) {
        assert ExitYear(ts[i]) in YearsOf(ts);
        assert ExitYear(ts[i]) in rows;
      }
      GapPnl(ts, y1, y2);
    }
  }

  /** The final figures (lines 145-155 and 190-230). */
  function StandardReport(common: seq<Bar>): Report
    requires Position.CloseDivisible(common) && |common| > 0 && common[0].signal != 0.0
  {
    var s := PriorSma.Backtest(StartingCap, StdContext(common), common);
    var totalReturn := (s.cap - StartingCap) / StartingCap * 100.0;
    var bh := BhReturn(common);
    Report(s.cap, totalReturn, bh, totalReturn - bh,
           |WinPcts(s.trades)|, |LossPcts(s.trades)|,
           CountReason(s.trades, FixedStopHit), CountReason(s.trades, TrailStop), CountReason(s.trades, SmaExit),
           WinRate(s.trades), Mean(WinPcts(s.trades)), Mean(LossPcts(s.trades)),
           AnnualOf(s.trades, StartingCap))
  }

  method WinLoss(trades: seq<Trade>) returns (wins: seq<real>, losses: seq<real>)
    requires PriorSma.Completed(trades)
    ensures wins == WinPcts(trades) && losses == LossPcts(trades)
  {
    wins, losses := [], [];
    var i := 0;
    while i < |trades|
      invariant 0 <= i <= |trades|
      invariant wins == WinPcts(trades[..i]) && losses == LossPcts(trades[..i])
    {
      assert trades[..i + 1][..i] == trades[..i];
      var x := PriorSma.PnlPct(trades[i]);
      if x > 0.0 {
        wins := wins + [x];
      } else {
        losses := losses + [x];
      }
      i := i + 1;
    }
    assert trades[..i] == trades;
  }

  /** The whole script after the download: the SMA table, the loop, the
      open position closed at the last bar, and the figures. */
  method StandardOutput(common: seq<Bar>) returns (r: Report)
    requires Position.CloseDivisible(common) && |common| > 0 && common[0].signal != 0.0
    ensures r == StandardReport(common)
  {
    var sma := PriorSma.BuildSma(common, StdPeriod);
    var s := PriorSma.Simulation(StartingCap, PriorSma.Ctx(sma, StdFixed, StdTrail, PriorSma.ByHigh, true), common);
    var bh := BhReturn(common);
    var wins, losses := WinLoss(s.trades);
    var totalReturn := (s.cap - StartingCap) / StartingCap * 100.0;
    var annual := AnnualTable(s.trades, StartingCap);
    r := Report(s.cap, totalReturn, bh, totalReturn - bh, |wins|, |losses|,
                CountReason(s.trades, FixedStopHit), CountReason(s.trades, TrailStop), CountReason(s.trades, SmaExit),
                WinRate(s.trades), Mean(wins), Mean(losses), annual);
  }

  /** What the report promises besides the annual table: with positive
      prices the final capital is the starting capital plus the sum of
      pnl_dollar; alpha is the strategy's return minus buy-and-hold's, and
      positive exactly when the strategy ends above buy-and-hold's final
      value `10000 * (1 + bh_return / 100)`; the wins and losses split the
      trades. */
  lemma StandardFacts(common: seq<Bar>)
    requires Position.CloseDivisible(common) && PositivePrices(common) && |common| > 0 && common[0].signal != 0.0
    ensures var s := PriorSma.Backtest(StartingCap, StdContext(common), common);
      var r := StandardReport(common);
      && r.cap == StartingCap + ClosedPnl(s.trades)
      && r.alpha == r.totalReturn - r.bhReturn
      && (r.alpha > 0.0 <==> r.cap > StartingCap * (1.0 + r.bhReturn / 100.0))
      && r.wins + r.losses == |s.trades|
      && r.annual == AnnualOf(s.trades, StartingCap)
  {
    var s := PriorSma.Backtest(StartingCap, StdContext(common), common);
    PriorSma.FinalCapital(StartingCap, StdContext(common), common);
    WinsAndLosses(s.trades);
  }

  /** Buy-and-hold's final value is the starting capital scaled by the
      signal's growth over the joined bars. */
  lemma BuyAndHoldScales(first: real, last: real)
    requires first != 0.0
    ensures StartingCap * (1.0 + (last - first) / first * 100.0 / 100.0) == StartingCap * (last / first)
  {
    var inv := 1.0 / first;
    assert first * inv == 1.0;
    assert (last - first) / first == (last - first) * inv;
    assert last / first == last * inv;
  }
}
