// The stop-loss / take-profit simulator repeated across the grid-search
// scripts: precomputed buy and sell signals, a position that is either flat
// or holds the whole capital, and every fill at a bar's close.
module SlTpSim {
  import opened Core
  import opened Fills

  /** Every grid-search script starts from 10000. */
  const InitialCapital: real := 10000.0

  /** stop_loss_pct / 100 and take_profit_pct / 100. */
  datatype Limits = Limits(stopLoss: real, takeProfit: real)

  datatype ExitReason = StopLoss | TakeProfit | SignalExit | EndOfData

  /** One round trip: bar indices and prices of entry and exit, the dollar
      pnl, the fractional return (pnl_pct / 100) and the exit reason. */
  datatype Fill = Fill(entryIdx: nat, exitIdx: nat, entry: real, exit: real, pnl: real, ret: real, reason: ExitReason)

  /** The loop's variables: capital, position, entry_price, the entry
      index and the trade list. */
  datatype Sim = Sim(capital: real, position: real, entry: real, entryIdx: nat, trades: seq<Fill>)

  /** What a run reads: the traded closes and the two signal columns. */
  datatype Series = Series(closes: seq<real>, buy: seq<bool>, sell: seq<bool>)

  /** Columns of one length and positive prices, so every division by an
      entry price or a close is defined. */
  predicate WellFormed(x: Series)
  {
    |x.buy| == |x.closes| && |x.sell| == |x.closes| && forall i :: 0 <= i < |x.closes| ==> x.closes[i] > 0.0
  }

  /** pnl_pct as a fraction: (price - entry) / entry. */
  function Ret(price: real, entry: real): real
    requires entry != 0.0
  {
    (price - entry) / entry
  }

  /** The exit rule in the explicit form of one script: the first of
      stop loss, take profit and sell signal that applies, or none. */
  function ReasonFor(lim: Limits, ret: real, sellNow: bool): (r: Option<ExitReason>)
    ensures r.Some? <==> (ret <= -lim.stopLoss || ret >= lim.takeProfit || sellNow)
    ensures r.Some? ==> r.value != EndOfData
  {
    if ret <= -lim.stopLoss then Some(StopLoss)
    else if ret >= lim.takeProfit then Some(TakeProfit)
    else if sellNow then Some(SignalExit)
    else None
  }

  function TotalPnl(ts: seq<Fill>): real
  {
    if ts == [] then 0.0 else TotalPnl(ts[..|ts| - 1]) + ts[|ts| - 1].pnl
  }

  function Init(): Sim
  {
    Sim(InitialCapital, 0.0, 0.0, 0, [])
  }

  /** The money is either all in cash or all in shares, and it always
      equals the starting capital plus the pnl booked so far. */
  predicate Accounts(s: Sim)
  {
    s.position >= 0.0
    && (s.position > 0.0 ==> s.entry > 0.0 && s.capital == 0.0 && Value(s.position, s.entry) == InitialCapital + TotalPnl(s.trades))
    && (s.position == 0.0 ==> s.capital > 0.0 && s.capital == InitialCapital + TotalPnl(s.trades))
  }

  lemma ValuePositive(a: real, b: real)
    requires a > 0.0 && b > 0.0
    ensures Value(a, b) > 0.0
  {
  }

  lemma SharesValue(amount: real, price: real)
    requires price > 0.0 && amount > 0.0
    ensures SharesFor(amount, price) > 0.0 && Value(SharesFor(amount, price), price) == amount
  {
  }

  /** One bar of the loop: while holding, leave at the close when the
      return reaches the stop or the target or a sell signal is up; while
      flat, put all the capital in at the close on a buy signal. A bar that
      exits never also enters. */
  function Step(lim: Limits, x: Series, s: Sim, i: nat): (r: Sim)
    requires WellFormed(x) && i < |x.closes| && Accounts(s)
    ensures Accounts(r)
  {
    var close := x.closes[i];
    if s.position > 0.0 then
      var ret := Ret(close, s.entry);
      if ret <= -lim.stopLoss || ret >= lim.takeProfit || x.sell[i] then
        var reason := if ret <= -lim.stopLoss then StopLoss else if ret >= lim.takeProfit then TakeProfit else SignalExit;
        var f := Fill(s.entryIdx, i, s.entry, close, Value(s.position, close - s.entry), ret, reason);
        var r := s.(capital := s.capital + Value(s.position, close), position := 0.0, trades := s.trades + [f]);
        assert Value(s.position, close - s.entry) == Value(s.position, close) - Value(s.position, s.entry);
        ValuePositive(s.position, close);
        assert r.trades[..|r.trades| - 1] == s.trades;
        r
      else s
    else if x.buy[i] && s.capital > 0.0 then
      SharesValue(s.capital, close);
      s.(position := SharesFor(s.capital, close), entry := close, entryIdx := i, capital := 0.0)
    else s
  }

  /** The state after the bars start .. i-1 (none when i <= start). */
  function Run(lim: Limits, x: Series, start: nat, i: nat): (s: Sim)
    requires WellFormed(x) && i <= |x.closes|
    ensures Accounts(s)
    decreases i
  {
    if i <= start then Init() else Step(lim, x, Run(lim, x, start, i - 1), i - 1)
  }

  /** After the loop a held position is sold at the last close. */
  function Finish(x: Series, s: Sim): (r: Sim)
    requires WellFormed(x) && |x.closes| > 0 && Accounts(s)
    ensures r.position == 0.0 && r.capital > 0.0 && r.capital == InitialCapital + TotalPnl(r.trades)
    ensures |r.trades| == |s.trades| + (if s.position > 0.0 then 1 else 0)
  {
    if s.position > 0.0 then
      var final := x.closes[|x.closes| - 1];
      var f := Fill(s.entryIdx, |x.closes| - 1, s.entry, final, Value(s.position, final - s.entry), Ret(final, s.entry), EndOfData);
      var r := s.(capital := s.capital + Value(s.position, final), position := 0.0, trades := s.trades + [f]);
      assert Value(s.position, final - s.entry) == Value(s.position, final) - Value(s.position, s.entry);
      ValuePositive(s.position, final);
      assert r.trades[..|r.trades| - 1] == s.trades;
      r
    else s
  }

  /** The whole simulation: the loop over the bars from `start`, then the
      final close. */
  function Simulation(lim: Limits, x: Series, start: nat): (r: Sim)
    requires WellFormed(x) && |x.closes| > 0
  {
    Finish(x, Run(lim, x, start, |x.closes|))
  }

  /** The simulation loop as the scripts write it. */
  method Simulate(lim: Limits, x: Series, start: nat) returns (capital: real, trades: seq<Fill>)
    requires WellFormed(x) && 0 < |x.closes| && start <= |x.closes|
    ensures capital == Simulation(lim, x, start).capital && trades == Simulation(lim, x, start).trades
  {
    var n := |x.closes|;
    capital := InitialCapital;
    var position := 0.0;
    var entry := 0.0;
    var entryIdx: nat := 0;
    trades := [];
    var i := start;
    while i < n
      invariant start <= i <= n
      invariant Sim(capital, position, entry, entryIdx, trades) == Run(lim, x, start, i)
    {
      ghost var before := Sim(capital, position, entry, entryIdx, trades);
      assert Run(lim, x, start, i + 1) == Step(lim, x, before, i);
      var close := x.closes[i];
      if position > 0.0 {
        var ret := Ret(close, entry);
        if ret <= -lim.stopLoss || ret >= lim.takeProfit || x.sell[i] {
          var pnl := Value(position, close - entry);
          capital := capital + Value(position, close);
          var reason := if ret <= -lim.stopLoss then StopLoss else if ret >= lim.takeProfit then TakeProfit else SignalExit;
          trades := trades + [Fill(entryIdx, i, entry, close, pnl, ret, reason)];
          position := 0.0;
        }
      } else if x.buy[i] && capital > 0.0 {
        position := SharesFor(capital, close);
        entry := close;
        entryIdx := i;
        capital := 0.0;
      }
      assert Sim(capital, position, entry, entryIdx, trades) == Step(lim, x, before, i);
      i := i + 1;
    }
    if position > 0.0 {
      var final := x.closes[n - 1];
      var pnl := Value(position, final - entry);
      capital := capital + Value(position, final);
      trades := trades + [Fill(entryIdx, n - 1, entry, final, pnl, Ret(final, entry), EndOfData)];
    }
  }

  // ---------------------------------------------------------------------
  // What the trade list records.

  /** No bar in [a, b) carries a buy signal. */
  predicate NoBuyIn(x: Series, a: int, b: int)
    requires WellFormed(x)
  {
    forall j :: a <= j < b && 0 <= j < |x.closes| ==> !x.buy[j]
  }

  /** No bar strictly between the entry and `b` met the exit rule. */
  predicate HeldThrough(lim: Limits, x: Series, entryIdx: int, entry: real, b: int)
    requires WellFormed(x) && entry != 0.0
  {
    forall j :: entryIdx < j < b && 0 <= j < |x.closes| ==> ReasonFor(lim, Ret(x.closes[j], entry), x.sell[j]).None?
  }

  /** A round trip the rules allow: it entered on a buy signal at that
      bar's close, was held through bars that did not meet the exit rule,
      and left at a later close for the reason the rule names (or at the
      last close, at the end of the data). */
  predicate Sound(lim: Limits, x: Series, start: int, f: Fill)
    requires WellFormed(x)
  {
    start <= f.entryIdx <= f.exitIdx < |x.closes|
    && x.buy[f.entryIdx]
    && f.entry == x.closes[f.entryIdx] && f.exit == x.closes[f.exitIdx]
    && f.ret == Ret(f.exit, f.entry)
    && HeldThrough(lim, x, f.entryIdx, f.entry, f.exitIdx)
    && (f.reason != EndOfData ==> f.entryIdx < f.exitIdx && ReasonFor(lim, f.ret, x.sell[f.exitIdx]) == Some(f.reason))
    && (f.reason == EndOfData ==> f.exitIdx == |x.closes| - 1)
  }

  /** The first bar at which the trade list allows the next entry. */
  function FreeFrom(ts: seq<Fill>, start: int): int
  {
    if ts == [] then start else ts[|ts| - 1].exitIdx + 1
  }

  /** The trades follow each other, every one sound, with no buy signal
      ignored while flat: a buy is skipped only on an exit bar. */
  predicate Chain(lim: Limits, x: Series, start: int, ts: seq<Fill>)
    requires WellFormed(x)
  {
    (forall k :: 0 <= k < |ts| ==> Sound(lim, x, start, ts[k]))
    && (forall k :: 0 <= k < |ts| ==> NoBuyIn(x, FreeFrom(ts[..k], start), ts[k].entryIdx))
    && (forall k :: 0 <= k < |ts| - 1 ==> ts[k].exitIdx < ts[k + 1].entryIdx && ts[k].reason != EndOfData)
  }

  /** The state after bar i-1 of the loop agrees with the rules: the trade
      list is a chain, and an open position entered on the first buy after
      the last exit and has not met the exit rule since. */
  predicate Tracks(lim: Limits, x: Series, start: nat, i: nat, s: Sim)
    requires WellFormed(x) && Accounts(s) && i <= |x.closes|
  {
    Chain(lim, x, start, s.trades)
    && (forall k :: 0 <= k < |s.trades| ==> s.trades[k].exitIdx < i && s.trades[k].reason != EndOfData)
    && (s.position > 0.0 ==>
          FreeFrom(s.trades, start) <= s.entryIdx < i && x.buy[s.entryIdx] && s.entry == x.closes[s.entryIdx]
          && NoBuyIn(x, FreeFrom(s.trades, start), s.entryIdx)
          && HeldThrough(lim, x, s.entryIdx, s.entry, i))
    && (s.position == 0.0 ==> NoBuyIn(x, FreeFrom(s.trades, start), i))
  }

  lemma FreeFromAppend(ts: seq<Fill>, f: Fill, start: int)
    ensures FreeFrom(ts + [f], start) == f.exitIdx + 1
    ensures (ts + [f])[..|ts|] == ts
  {
  }

  lemma ChainAppend(lim: Limits, x: Series, start: int, ts: seq<Fill>, f: Fill)
    requires WellFormed(x)
    requires Chain(lim, x, start, ts) && Sound(lim, x, start, f)
    requires NoBuyIn(x, FreeFrom(ts, start), f.entryIdx)
    requires |ts| > 0 ==> ts[|ts| - 1].exitIdx < f.entryIdx && ts[|ts| - 1].reason != EndOfData
    ensures Chain(lim, x, start, ts + [f])
  {
    var r := ts + [f];
    forall k | 0 <= k < |r|
      ensures Sound(lim, x, start, r[k])
    {
      if k < |ts| {
        assert r[k] == ts[k];
      }
    }
    forall k | 0 <= k < |r|
      ensures NoBuyIn(x, FreeFrom(r[..k], start), r[k].entryIdx)
    {
      if k < |ts| {
        assert r[..k] == ts[..k];
        assert r[k] == ts[k];
      } else {
        assert r[..k] == ts;
      }
    }
    forall k | 0 <= k < |r| - 1
      ensures r[k].exitIdx < r[k + 1].entryIdx && r[k].reason != EndOfData
    {
      if k < |ts| - 1 {
        assert r[k] == ts[k] && r[k + 1] == ts[k + 1];
      } else {
        assert r[k] == ts[|ts| - 1] && r[k + 1] == f;
      }
    }
  }

  lemma {:induction false} RunTracks(lim: Limits, x: Series, start: nat, i: nat)
    requires WellFormed(x) && i <= |x.closes|
    ensures Tracks(lim, x, start, i, Run(lim, x, start, i))
    decreases i
  {
    if i > start {
      var s := Run(lim, x, start, i - 1);
      RunTracks(lim, x, start, i - 1);
      StepTracks(lim, x, start, i - 1, s);
    }
  }

  lemma StepTracks(lim: Limits, x: Series, start: nat, i: nat, s: Sim)
    requires WellFormed(x) && start <= i < |x.closes| && Accounts(s)
    requires Tracks(lim, x, start, i, s)
    ensures Tracks(lim, x, start, i + 1, Step(lim, x, s, i))
  {
    if s.position > 0.0 {
      var ret := Ret(x.closes[i], s.entry);
      if ret <= -lim.stopLoss || ret >= lim.takeProfit || x.sell[i] {
        StepExits(lim, x, s, i);
        ExitTracks(lim, x, start, i, s, Step(lim, x, s, i));
      } else {
        StepKeeps(lim, x, s, i);
        HoldTracks(lim, x, start, i, s);
      }
    } else if x.buy[i] {
      EnterTracks(lim, x, start, i, s);
    } else {
      StepKeeps(lim, x, s, i);
    }
  }

  /** A bar that neither exits nor enters leaves the state as it was. */
  lemma StepKeeps(lim: Limits, x: Series, s: Sim, i: nat)
    requires WellFormed(x) && i < |x.closes| && Accounts(s)
    requires s.position > 0.0 ==> ReasonFor(lim, Ret(x.closes[i], s.entry), x.sell[i]).None?
    requires s.position <= 0.0 ==> !x.buy[i]
    ensures Step(lim, x, s, i) == s
  {
  }

  /** Holding through a bar that does not meet the exit rule. */
  lemma HoldTracks(lim: Limits, x: Series, start: nat, i: nat, s: Sim)
    requires WellFormed(x) && start <= i < |x.closes| && Accounts(s)
    requires Tracks(lim, x, start, i, s) && s.position > 0.0
    requires ReasonFor(lim, Ret(x.closes[i], s.entry), x.sell[i]).None?
    ensures Tracks(lim, x, start, i + 1, s)
  {
  }

  lemma FreeFromAtLeast(lim: Limits, x: Series, start: int, ts: seq<Fill>)
    requires WellFormed(x) && Chain(lim, x, start, ts)
    ensures start <= FreeFrom(ts, start)
  {
    if ts != [] {
      assert Sound(lim, x, start, ts[|ts| - 1]);
    }
  }

  /** The trade an exit at bar i records. */
  function ExitFill(lim: Limits, x: Series, s: Sim, i: nat): Fill
    requires WellFormed(x) && i < |x.closes| && s.entry != 0.0
  {
    var close := x.closes[i];
    var ret := Ret(close, s.entry);
    var reason := if ret <= -lim.stopLoss then StopLoss else if ret >= lim.takeProfit then TakeProfit else SignalExit;
    Fill(s.entryIdx, i, s.entry, close, Value(s.position, close - s.entry), ret, reason)
  }

  lemma StepExits(lim: Limits, x: Series, s: Sim, i: nat)
    requires WellFormed(x) && i < |x.closes| && Accounts(s) && s.position > 0.0
    requires var ret := Ret(x.closes[i], s.entry); ret <= -lim.stopLoss || ret >= lim.takeProfit || x.sell[i]
    ensures Step(lim, x, s, i).trades == s.trades + [ExitFill(lim, x, s, i)]
    ensures Step(lim, x, s, i).position == 0.0
  {
  }

  lemma ExitSound(lim: Limits, x: Series, start: nat, i: nat, s: Sim)
    requires WellFormed(x) && start <= i < |x.closes| && Accounts(s)
    requires Tracks(lim, x, start, i, s) && s.position > 0.0
    requires var ret := Ret(x.closes[i], s.entry); ret <= -lim.stopLoss || ret >= lim.takeProfit || x.sell[i]
    ensures Sound(lim, x, start, ExitFill(lim, x, s, i))
  {
    var f := ExitFill(lim, x, s, i);
    FreeFromAtLeast(lim, x, start, s.trades);
    assert ReasonFor(lim, f.ret, x.sell[i]) == Some(f.reason);
  }

  /** The state after an exit keeps tracking: the recorded trade is sound
      and continues the chain. */
  lemma ExitTracks(lim: Limits, x: Series, start: nat, i: nat, s: Sim, r: Sim)
    requires WellFormed(x) && start <= i < |x.closes| && Accounts(s) && Accounts(r)
    requires Tracks(lim, x, start, i, s) && s.position > 0.0
    requires var ret := Ret(x.closes[i], s.entry); ret <= -lim.stopLoss || ret >= lim.takeProfit || x.sell[i]
    requires r.trades == s.trades + [ExitFill(lim, x, s, i)] && r.position == 0.0
    ensures Tracks(lim, x, start, i + 1, r)
  {
    var f := ExitFill(lim, x, s, i);
    ExitSound(lim, x, start, i, s);
    ChainAppend(lim, x, start, s.trades, f);
    FreeFromAppend(s.trades, f, start);
    forall k | 0 <= k < |r.trades|
      ensures r.trades[k].exitIdx < i + 1 && r.trades[k].reason != EndOfData
    {
      if k < |s.trades| {
        assert r.trades[k] == s.trades[k];
      }
    }
  }

  lemma EnterTracks(lim: Limits, x: Series, start: nat, i: nat, s: Sim)
    requires WellFormed(x) && start <= i < |x.closes| && Accounts(s)
    requires Tracks(lim, x, start, i, s) && s.position == 0.0 && x.buy[i]
    ensures Tracks(lim, x, start, i + 1, Step(lim, x, s, i))
  {
    var r := Step(lim, x, s, i);
    assert r == s.(position := SharesFor(s.capital, x.closes[i]), entry := x.closes[i], entryIdx := i, capital := 0.0);
    assert r.position > 0.0;
    if s.trades != [] {
      assert s.trades[|s.trades| - 1].exitIdx < i;
    }
    assert FreeFrom(s.trades, start) <= i;
  }

  /** Every trade of a whole simulation is a sound round trip, they follow
      each other in bar order, no buy signal is passed over while flat
      except on an exit bar, and only the last trade can be the
      end-of-data close. */
  lemma SimulationChain(lim: Limits, x: Series, start: nat)
    requires WellFormed(x) && |x.closes| > 0
    ensures Chain(lim, x, start, Simulation(lim, x, start).trades)
    ensures Simulation(lim, x, start).trades == [] || Simulation(lim, x, start).trades[|Simulation(lim, x, start).trades| - 1].reason == EndOfData
            || NoBuyIn(x, FreeFrom(Simulation(lim, x, start).trades, start), |x.closes|)
  {
    RunTracks(lim, x, start, |x.closes|);
    FinishChains(lim, x, start, Run(lim, x, start, |x.closes|));
  }

  /** Closing at the end of the data keeps the chain, and a last trade
      closed by the rules means no buy signal was left after it. */
  lemma FinishChains(lim: Limits, x: Series, start: nat, s: Sim)
    requires WellFormed(x) && |x.closes| > 0 && Accounts(s) && Tracks(lim, x, start, |x.closes|, s)
    ensures Chain(lim, x, start, Finish(x, s).trades)
    ensures Finish(x, s).trades == [] || Finish(x, s).trades[|Finish(x, s).trades| - 1].reason == EndOfData
            || NoBuyIn(x, FreeFrom(Finish(x, s).trades, start), |x.closes|)
  {
    var r := Finish(x, s);
    if s.position > 0.0 {
      var f := r.trades[|r.trades| - 1];
      assert r.trades == s.trades + [f];
      assert HeldThrough(lim, x, f.entryIdx, f.entry, f.exitIdx);
      assert Sound(lim, x, start, f);
      ChainAppend(lim, x, start, s.trades, f);
    }
  }

  /** Final capital = initial capital + the sum of every trade's pnl,
      including the end-of-data close; nothing stays invested. */
  lemma SimulationSettles(lim: Limits, x: Series, start: nat)
    requires WellFormed(x) && |x.closes| > 0
    ensures Simulation(lim, x, start).capital == InitialCapital + TotalPnl(Simulation(lim, x, start).trades)
    ensures Simulation(lim, x, start).capital > 0.0
  {
  }

  /** A trade is a winner by its dollar pnl exactly when it is a winner by
      its percentage return, so both win-rate definitions agree. */
  lemma WinByPnlOrReturn(shares: real, entry: real, exit: real)
    requires shares > 0.0 && entry > 0.0
    ensures Value(shares, exit - entry) > 0.0 <==> Ret(exit, entry) > 0.0
  {
    if exit - entry > 0.0 {
      ValuePositive(shares, exit - entry);
    } else {
      assert Value(shares, exit - entry) == -Value(shares, entry - exit);
      if entry - exit > 0.0 {
        ValuePositive(shares, entry - exit);
      }
    }
  }

  /** Every trade is a winner by its pnl exactly when it is a winner by its
      return. */
  predicate SignsAgree(ts: seq<Fill>)
  {
    forall k :: 0 <= k < |ts| ==> (ts[k].pnl > 0.0 <==> ts[k].ret > 0.0)
  }

  lemma SignsAgreeAppend(ts: seq<Fill>, f: Fill)
    requires SignsAgree(ts) && (f.pnl > 0.0 <==> f.ret > 0.0)
    ensures SignsAgree(ts + [f])
  {
    var r := ts + [f];
    forall k | 0 <= k < |r| ensures r[k].pnl > 0.0 <==> r[k].ret > 0.0 {
      if k < |ts| {
        assert r[k] == ts[k];
      }
    }
  }

  lemma {:induction false} RunSignsAgree(lim: Limits, x: Series, start: nat, i: nat)
    requires WellFormed(x) && i <= |x.closes|
    ensures SignsAgree(Run(lim, x, start, i).trades)
    decreases i
  {
    if i > start {
      var s := Run(lim, x, start, i - 1);
      RunSignsAgree(lim, x, start, i - 1);
      var r := Step(lim, x, s, i - 1);
      if r.trades != s.trades {
        var f := r.trades[|r.trades| - 1];
        assert r.trades == s.trades + [f];
        WinByPnlOrReturn(s.position, s.entry, x.closes[i - 1]);
        SignsAgreeAppend(s.trades, f);
      }
    }
  }

  /** pnl > 0 and pnl_pct > 0 pick out the same trades of a whole
      simulation, the end-of-data close included. */
  lemma SimulationSignsAgree(lim: Limits, x: Series, start: nat)
    requires WellFormed(x) && |x.closes| > 0
    ensures SignsAgree(Simulation(lim, x, start).trades)
  {
    var s := Run(lim, x, start, |x.closes|);
    RunSignsAgree(lim, x, start, |x.closes|);
    var r := Finish(x, s);
    if r.trades != s.trades {
      var f := r.trades[|r.trades| - 1];
      assert r.trades == s.trades + [f];
      WinByPnlOrReturn(s.position, s.entry, x.closes[|x.closes| - 1]);
      SignsAgreeAppend(s.trades, f);
    }
  }

  /** The balance after every prefix of the trade list stays positive. */
  predicate Solvent(ts: seq<Fill>)
  {
    forall k :: 0 <= k <= |ts| ==> InitialCapital + TotalPnl(ts[..k]) > 0.0
  }

  lemma SolventAppend(ts: seq<Fill>, f: Fill)
    requires Solvent(ts) && InitialCapital + TotalPnl(ts + [f]) > 0.0
    ensures Solvent(ts + [f])
  {
    var r := ts + [f];
    forall k | 0 <= k <= |r| ensures InitialCapital + TotalPnl(r[..k]) > 0.0 {
      if k <= |ts| {
        assert r[..k] == ts[..k];
      } else {
        assert r[..k] == r;
      }
    }
  }

  lemma {:induction false} RunSolvent(lim: Limits, x: Series, start: nat, i: nat)
    requires WellFormed(x) && i <= |x.closes|
    ensures Solvent(Run(lim, x, start, i).trades)
    decreases i
  {
    if i > start {
      var s := Run(lim, x, start, i - 1);
      RunSolvent(lim, x, start, i - 1);
      var r := Step(lim, x, s, i - 1);
      if r.trades != s.trades {
        var f := r.trades[|r.trades| - 1];
        assert r.trades == s.trades + [f];
        SolventAppend(s.trades, f);
      }
    } else {
      var ts := Run(lim, x, start, i).trades;
      assert ts == [] && ts[..0] == [];
    }
  }

  /** Every balance along the way, not only the final one, is positive. */
  lemma SimulationSolvent(lim: Limits, x: Series, start: nat)
    requires WellFormed(x) && |x.closes| > 0
    ensures Solvent(Simulation(lim, x, start).trades)
  {
    var s := Run(lim, x, start, |x.closes|);
    RunSolvent(lim, x, start, |x.closes|);
    var r := Finish(x, s);
    if r.trades != s.trades {
      var f := r.trades[|r.trades| - 1];
      assert r.trades == s.trades + [f];
      SolventAppend(s.trades, f);
    }
  }
}
