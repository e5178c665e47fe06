// backtest_sma of sma_crossover_test.py: one index loop over aligned
// arrays (QQQ closes as each bar's `signal`, TQQQ close, high and low),
// with the SMA of the p closes ending at the bar itself; strict crosses of
// QQQ over its SMA enter and exit, and a hybrid stop is checked against the
// low.
module CrossoverTest {
  import opened Core
  import opened Stops
  import opened Ledger
  import Fills
  import Position
  import PriorSma
  import PriorSmaScripts
  import opened Rounding

  const StartingCap: real := 10000.0
  /** `n < sma_period + 50` returns None. */
  const Margin: nat := 50

  /** The QQQ closes. */
  function Signals(bars: seq<Bar>): (c: seq<real>)
    ensures |c| == |bars| && forall i :: 0 <= i < |bars| ==> c[i] == bars[i].signal
  {
    seq(|bars|, i requires 0 <= i < |bars| => bars[i].signal)
  }

  /** `np.convolve(qqq_c, ones(p) / p, 'valid')` padded with p - 1 NaN:
      at index i >= p - 1 the mean of closes i - p + 1 .. i. */
  function Sma(bars: seq<Bar>, p: nat, i: int): real
    requires 1 <= p && p - 1 <= i < |bars|
  {
    WindowSum(bars, p, i) / p as real
  }

  /** The sum of closes i - p + 1 .. i. */
  function WindowSum(bars: seq<Bar>, p: nat, i: int): real
    requires p - 1 <= i < |bars|
  {
    Sum(Signals(bars)[i - p + 1..i + 1])
  }

  /** Strict crosses between bar i - 1 and bar i. */
  predicate CrossUp(bars: seq<Bar>, p: nat, i: int)
    requires 1 <= p && p <= i < |bars|
  {
    bars[i].signal > Sma(bars, p, i) && bars[i - 1].signal <= Sma(bars, p, i - 1)
  }

  predicate CrossDown(bars: seq<Bar>, p: nat, i: int)
    requires 1 <= p && p <= i < |bars|
  {
    bars[i].signal < Sma(bars, p, i) && bars[i - 1].signal >= Sma(bars, p, i - 1)
  }

  /** What the loop needs of its arguments: indices p + 1 .. n - 1 exist
      with a defined SMA at i and i - 1, so the NaN skip never fires. */
  predicate Fits(bars: seq<Bar>, p: nat, i: int)
  {
    1 <= p && p + 1 <= i <= |bars|
  }

  /** The entry at the close: `pos = cap / tqqq_c[i]`, highest from the
      high, `cap = 0`. */
  function Enter(start: real, s: PriorSma.Sim, b: Bar): (r: PriorSma.Sim)
    requires PriorSma.Ok(start, s) && s.pos == 0.0 && b.close != 0.0
    ensures PriorSma.Ok(start, r) && r.pos == Fills.SharesFor(s.cap, b.close) && r.cap == 0.0
    ensures r.entry == b.close && r.entryAt == b.at && r.highest == b.high && r.trades == s.trades
  {
    PriorSma.SharesValue(s.cap, b.close);
    s.(pos := Fills.SharesFor(s.cap, b.close), entry := b.close, entryAt := b.at, highest := b.high, cap := 0.0)
  }

  /** One pass at index i: when long, raise the high, then the stop
      against the low (filled at the stop), else a cross down (filled at the
      close); `elif` flat, a cross up enters. */
  function Step(start: real, bars: seq<Bar>, p: nat, fixedFrac: real, trailFrac: real, s: PriorSma.Sim, i: int): (r: PriorSma.Sim)
    requires 1 <= p && p <= i < |bars| && PriorSma.Ok(start, s) && bars[i].close != 0.0
    ensures PriorSma.Ok(start, r)
  {
    var b := bars[i];
    if s.pos > 0.0 then
      var h := if b.high > s.highest then b.high else s.highest;
      var raised := s.(highest := h);
      var stop := ActiveStop(s.entry, h, fixedFrac, trailFrac);
      if b.low <= stop then PriorSma.Close(start, raised, b.at, stop, StopHit)
      else if CrossDown(bars, p, i) then PriorSma.Close(start, raised, b.at, b.close, SmaExit)
      else raised
    else if s.pos == 0.0 && CrossUp(bars, p, i) then Enter(start, s, b)
    else s
  }

  /** The state after indices p + 1 .. k - 1. */
  function RunTo(start: real, bars: seq<Bar>, p: nat, fixedFrac: real, trailFrac: real, k: int): (s: PriorSma.Sim)
    requires Fits(bars, p, k) && Position.CloseDivisible(bars)
    ensures PriorSma.Ok(start, s)
    decreases k
  {
    if k == p + 1 then PriorSma.Start(start)
    else Step(start, bars, p, fixedFrac, trailFrac, RunTo(start, bars, p, fixedFrac, trailFrac, k - 1), k - 1)
  }

  /** The loop and the closing block (sold at `tqqq_c[-1]` as "eod"). */
  function Simulation(start: real, bars: seq<Bar>, p: nat, fixedFrac: real, trailFrac: real): (s: PriorSma.Sim)
    requires Fits(bars, p, |bars|) && Position.CloseDivisible(bars)
    ensures PriorSma.Ok(start, s) && s.pos <= 0.0
  {
    PriorSma.Finish(start, RunTo(start, bars, p, fixedFrac, trailFrac, |bars|), bars[|bars| - 1])
  }

  /** backtest_sma: None when n < p + 50 or without trades, else ret, n
      and wr. */
  function Backtest(bars: seq<Bar>, p: nat, fixedFrac: real, trailFrac: real): (r: Option<PriorSmaScripts.Brief>)
    requires 1 <= p && Position.CloseDivisible(bars)
    ensures |bars| < p + Margin ==> r.None?
    ensures |bars| >= p + Margin ==>
      var s := Simulation(StartingCap, bars, p, fixedFrac, trailFrac);
      && (r.None? <==> s.trades == [])
      && (r.Some? ==>
            && r.value.n == |s.trades|
            && r.value.ret == RoundTo(PriorSmaScripts.Ret(s.cap), 2)
            && 0.0 <= r.value.wr <= PriorSmaScripts.WinRate(s.trades)
            && (r.value.wr == 0.0 <==> forall i :: 0 <= i < |s.trades| ==> Scaled(PriorSma.PnlPct(s.trades[i]), 2) <= 0.5))
  {
    if |bars| < p + Margin then None
    else
      var s := Simulation(StartingCap, bars, p, fixedFrac, trailFrac);
      if s.trades == [] then None
      else Some(PriorSmaScripts.Brief(RoundTo(PriorSmaScripts.Ret(s.cap), 2), |s.trades|, PriorSmaScripts.RoundedWinRate(s.trades, 2)))
  }

  // ---- the loop as the script writes it ----

  method ProcessIndex(start: real, bars: seq<Bar>, p: nat, fixedFrac: real, trailFrac: real, s: PriorSma.Sim, i: int)
    returns (r: PriorSma.Sim)
    requires 1 <= p && p <= i < |bars| && PriorSma.Ok(start, s) && bars[i].close != 0.0
    ensures r == Step(start, bars, p, fixedFrac, trailFrac, s, i)
  {
    var cap, pos, entryPrice, highest, entryAt, trades := s.cap, s.pos, s.entry, s.highest, s.entryAt, s.trades;
    var b := bars[i];
    var smaNow, smaBefore := Sma(bars, p, i), Sma(bars, p, i - 1);
    if pos > 0.0 {
      if b.high > highest {
        highest := b.high;
      }
      var stopPrice := ActiveStop(entryPrice, highest, fixedFrac, trailFrac);
      var exitPrice := 0.0;
      var exitReason: Option<Reason> := None;
      if b.low <= stopPrice {
        exitPrice, exitReason := stopPrice, Some(StopHit);
      } else if b.signal < smaNow && bars[i - 1].signal >= smaBefore {
        exitPrice, exitReason := b.close, Some(SmaExit);
      }
      if exitReason.Some? {
        var pnl := Fills.Value(pos, exitPrice) - Fills.Value(pos, entryPrice);
        cap := Fills.Value(pos, exitPrice);
        trades := trades + [Trade(entryAt, entryPrice, pos, Some(Exit(b.at, exitPrice, pnl, exitReason.value)))];
        pos, highest := 0.0, 0.0;
      }
    } else if pos == 0.0 && b.signal > smaNow && bars[i - 1].signal <= smaBefore {
      pos := cap / b.close;
      entryPrice := b.close;
      entryAt := b.at;
      highest := b.high;
      cap := 0.0;
    }
    r := PriorSma.Sim(cap, pos, entryPrice, highest, entryAt, s.prev, trades);
  }

  method Simulate(start: real, bars: seq<Bar>, p: nat, fixedFrac: real, trailFrac: real) returns (s: PriorSma.Sim)
    requires Fits(bars, p, |bars|) && Position.CloseDivisible(bars)
    ensures s == RunTo(start, bars, p, fixedFrac, trailFrac, |bars|)
  {
    s := PriorSma.Start(start);
    var i := p + 1;
    while i < |bars|
      invariant p + 1 <= i <= |bars|
      invariant s == RunTo(start, bars, p, fixedFrac, trailFrac, i)
    {
      s := ProcessIndex(start, bars, p, fixedFrac, trailFrac, s, i);
      i := i + 1;
    }
  }

  method RunBacktest(bars: seq<Bar>, p: nat, fixedFrac: real, trailFrac: real) returns (r: Option<PriorSmaScripts.Brief>)
    requires 1 <= p && Position.CloseDivisible(bars)
    ensures r == Backtest(bars, p, fixedFrac, trailFrac)
  {
    if |bars| < p + Margin {
      return None;
    }
    var s := Simulate(StartingCap, bars, p, fixedFrac, trailFrac);
    if s.pos > 0.0 {
      var last := bars[|bars| - 1];
      s := PriorSma.Close(StartingCap, s, last.at, last.close, OpenAtEnd);
    }
    if s.trades == [] {
      return None;
    }
    r := Some(PriorSmaScripts.Brief(RoundTo(PriorSmaScripts.Ret(s.cap), 2), |s.trades|, PriorSmaScripts.RoundedWinRate(s.trades, 2)));
  }

  // ---- what the loop promises ----

  lemma {:induction false} SumBounds(s: seq<real>, lo: real, hi: real)
    requires forall j :: 0 <= j < |s| ==> lo <= s[j] <= hi
    ensures |s| as real * lo <= Sum(s) <= |s| as real * hi
  {
    if s != [] {
      SumBounds(s[..|s| - 1], lo, hi);
    }
  }

  lemma MeanBounds(total: real, n: real, lo: real, hi: real)
    requires n > 0.0 && n * lo <= total <= n * hi
    ensures lo <= total / n <= hi
  {
    var inv := 1.0 / n;
    assert n * inv == 1.0;
    assert total / n == total * inv;
    NonNegProduct(total - n * lo, inv);
    NonNegProduct(n * hi - total, inv);
    assert (total - n * lo) * inv == total * inv - lo * (n * inv);
    assert (n * hi - total) * inv == hi * (n * inv) - total * inv;
  }

  /** The SMA lies between the smallest and the largest close of its
      window. */
  lemma SmaWithinWindow(bars: seq<Bar>, p: nat, i: int, lo: real, hi: real)
    requires 1 <= p && p - 1 <= i < |bars|
    requires forall j :: i - p + 1 <= j <= i ==> lo <= bars[j].signal <= hi
    ensures lo <= Sma(bars, p, i) <= hi
  {
    var w := Signals(bars)[i - p + 1..i + 1];
    assert |w| == p && WindowSum(bars, p, i) == Sum(w);
    forall j | 0 <= j < |w| ensures lo <= w[j] <= hi {
      assert w[j] == bars[i - p + 1 + j].signal;
    }
    SumBounds(w, lo, hi);
    MeanBounds(Sum(w), p as real, lo, hi);
  }

  /** Moving on by one bar, the window sum gains the new close and loses
      the oldest: the convolution is a sliding sum. */
  lemma SmaSlides(bars: seq<Bar>, p: nat, i: int)
    requires 1 <= p && p <= i < |bars|
    ensures WindowSum(bars, p, i) == WindowSum(bars, p, i - 1) + bars[i].signal - bars[i - p].signal
  {
    var c := Signals(bars);
    var mid := c[i - p + 1..i];
    assert c[i - p..i] == [c[i - p]] + mid;
    assert c[i - p + 1..i + 1] == mid + [c[i]];
    SumAppend([c[i - p]], mid);
    SumAppend(mid, [c[i]]);
    assert Sum([c[i - p]]) == c[i - p] by {
      assert [c[i - p]][..0] == [];
    }
  }

  /** The exits of a long bar: a low at or below the hybrid stop fills at
      the stop and beats the SMA; otherwise a strict cross down fills at
      the close; otherwise the position is kept, with a stop that has not
      fallen, and nothing enters. */
  lemma {:induction false} ExitRule(start: real, bars: seq<Bar>, p: nat, fixedFrac: real, trailFrac: real, s: PriorSma.Sim, i: int)
    requires 1 <= p && p <= i < |bars| && PriorSma.Ok(start, s) && bars[i].close != 0.0 && s.pos > 0.0 && trailFrac <= 1.0
    ensures var r := Step(start, bars, p, fixedFrac, trailFrac, s, i);
      var b := bars[i];
      var h := if b.high > s.highest then b.high else s.highest;
      var stop := ActiveStop(s.entry, h, fixedFrac, trailFrac);
      var n := |s.trades|;
      && (b.low <= stop ==>
            r.pos == 0.0 && |r.trades| == n + 1 && r.trades[n].exit.value.price == stop && r.trades[n].exit.value.reason == StopHit)
      && (!(b.low <= stop) && CrossDown(bars, p, i) ==>
            r.pos == 0.0 && |r.trades| == n + 1 && r.trades[n].exit.value.price == b.close && r.trades[n].exit.value.reason == SmaExit)
      && (!(b.low <= stop) && !CrossDown(bars, p, i) ==>
            r == s.(highest := h) && ActiveStop(s.entry, s.highest, fixedFrac, trailFrac) <= stop)
  {
    var b := bars[i];
    StopNeverDecreases(s.entry, s.highest, if b.high > s.highest then b.high else s.highest, fixedFrac, trailFrac);
  }

  /** The entry rule: a position opens only from flat (never on the bar of
      an exit), exactly on a strict cross up, at the close with all the
      capital. */
  lemma EntryRule(start: real, bars: seq<Bar>, p: nat, fixedFrac: real, trailFrac: real, s: PriorSma.Sim, i: int)
    requires 1 <= p && p <= i < |bars| && PriorSma.Ok(start, s) && bars[i].close != 0.0 && s.pos == 0.0
    ensures var r := Step(start, bars, p, fixedFrac, trailFrac, s, i);
      && r.trades == s.trades
      && (CrossUp(bars, p, i) ==>
            r.entry == bars[i].close && r.entryAt == bars[i].at && r.cap == 0.0 && r.pos == Fills.SharesFor(s.cap, bars[i].close))
      && (!CrossUp(bars, p, i) ==> r == s)
  {
  }

  /** With positive prices and capital the position is never negative. */
  predicate Sane(s: PriorSma.Sim)
  {
    s.pos >= 0.0 && s.cap >= 0.0 && (s.pos > 0.0 ==> s.entry > 0.0)
  }

  lemma StepSane(start: real, bars: seq<Bar>, p: nat, fixedFrac: real, trailFrac: real, s: PriorSma.Sim, i: int)
    requires 1 <= p && p <= i < |bars| && PriorSma.Ok(start, s) && Sane(s) && bars[i].close > 0.0 && bars[i].low > 0.0
    ensures Sane(Step(start, bars, p, fixedFrac, trailFrac, s, i))
  {
    var b := bars[i];
    if s.pos > 0.0 {
      var h := if b.high > s.highest then b.high else s.highest;
      var stop := ActiveStop(s.entry, h, fixedFrac, trailFrac);
      if b.low <= stop {
        assert Fills.Value(s.pos, stop) >= 0.0;
      } else if CrossDown(bars, p, i) {
        assert Fills.Value(s.pos, b.close) >= 0.0;
      }
    } else if CrossUp(bars, p, i) {
      assert Fills.SharesFor(s.cap, b.close) >= 0.0;
    }
  }

  lemma {:induction false} RunSane(start: real, bars: seq<Bar>, p: nat, fixedFrac: real, trailFrac: real, k: int)
    requires Fits(bars, p, k) && Position.CloseDivisible(bars) && PositivePrices(bars) && start >= 0.0
    ensures Sane(RunTo(start, bars, p, fixedFrac, trailFrac, k))
    decreases k
  {
    if k > p + 1 {
      RunSane(start, bars, p, fixedFrac, trailFrac, k - 1);
      StepSane(start, bars, p, fixedFrac, trailFrac, RunTo(start, bars, p, fixedFrac, trailFrac, k - 1), k - 1);
    }
  }

  /** After the closing block nothing is held. */
  lemma FinalFlat(bars: seq<Bar>, p: nat, fixedFrac: real, trailFrac: real)
    requires Fits(bars, p, |bars|) && Position.CloseDivisible(bars) && PositivePrices(bars)
    ensures Simulation(StartingCap, bars, p, fixedFrac, trailFrac).pos == 0.0
  {
    RunSane(StartingCap, bars, p, fixedFrac, trailFrac, |bars|);
    assert Sane(RunTo(StartingCap, bars, p, fixedFrac, trailFrac, |bars|));
  }

  /** The final capital is the starting capital plus the trades' pnl and
      the starting capital times their compounded growth. */
  lemma FinalCapital(bars: seq<Bar>, p: nat, fixedFrac: real, trailFrac: real)
    requires Fits(bars, p, |bars|) && Position.CloseDivisible(bars) && PositivePrices(bars)
    ensures var s := Simulation(StartingCap, bars, p, fixedFrac, trailFrac);
      && PriorSma.Settled(StartingCap, s)
      && PriorSmaScripts.Ret(s.cap) == 100.0 * (Position.Growth(s.trades) - 1.0)
  {
    FinalFlat(bars, p, fixedFrac, trailFrac);
  }
}
