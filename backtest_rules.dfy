// What run_backtest promises, stated about one pass of its loop body (Step)
// and about the whole run (Run, Backtest).
module SmaBacktestRules {
  import opened Core
  import opened Fills
  import opened Stops
  import opened Ledger
  import opened DailySma
  import opened SmaBacktest

  /** The stop the loop compares against after raising the high with `b`. */
  function StopAfter(c: Config, s: State, b: Bar): real
  {
    ActiveStop(s.entry, if b.high > s.highest then b.high else s.highest, c.fixedFrac, c.trailFrac)
  }

  /** The bar's intraday flag against the latest SMA of an earlier date. */
  predicate AboveRef(ctx: Context, b: Bar)
    requires RefSma(ctx.sma, b.at.day).Some?
  {
    b.signal > RefSma(ctx.sma, b.at.day).value
  }

  /** Lines 104-116: without a strictly earlier SMA date the bar is skipped,
      and the first usable bar only seeds the previous-signal flag. */
  lemma {:induction false} SkipAndSeed(c: Config, ctx: Context, s: State, b: Bar)
    requires Valid(c, s) && Divisible(c, b)
    ensures RefSma(ctx.sma, b.at.day).None? ==> Step(c, ctx, s, b) == s
    ensures RefSma(ctx.sma, b.at.day).Some? && s.prev.None? ==>
      Step(c, ctx, s, b) == s.(prev := Some(AboveRef(ctx, b)))
  {
    if RefSma(ctx.sma, b.at.day).Some? && s.prev.None? {
      assert Step(c, ctx, s, b) == SetPrev(c, s, AboveRef(ctx, b));
    }
  }

  /** Lines 145-180: while holding, the stop (low <= active stop) is checked
      first and fills at the stop, or at the close when the bar's high is
      below the stop; otherwise a bearish cross exits at the close, except on
      the session's last bar. The position stays open exactly when neither
      fires. */
  lemma {:induction false} ExitRule(c: Config, ctx: Context, s: State, b: Bar, above: bool)
    requires Valid(c, s) && s.inPosition
    ensures var r := CheckExit(c, ctx, s, b, above);
      var stop := StopAfter(c, s, b);
      var cross := s.prev == Some(true) && !above && !IsLastBar(ctx, b.at);
      && r.highest == (if b.high > s.highest then b.high else s.highest)
      && (r.inPosition <==> !(b.low <= stop) && !cross)
      && |r.trades| == |s.trades|
      && (b.low <= stop ==>
            r.trades[|s.trades| - 1].exit.Some?
            && r.trades[|s.trades| - 1].exit.value.reason == StopHit
            && r.trades[|s.trades| - 1].exit.value.price == ApplySlippage(GapFill(stop, b.high, b.close), Sell, c.slippage))
      && (!(b.low <= stop) && cross ==>
            r.trades[|s.trades| - 1].exit.Some?
            && r.trades[|s.trades| - 1].exit.value.reason == SmaExit
            && r.trades[|s.trades| - 1].exit.value.price == ApplySlippage(b.close, Sell, c.slippage))
      && (!r.inPosition ==> r.lastExit == Some(b.at.day) && !r.lastExitWasEod)
  {
    var hi := if b.high > s.highest then b.high else s.highest;
    var s1 := s.(highest := hi);
    Reframe(c, s, s1);
    var stop := StopAfter(c, s, b);
    if b.low <= stop {
      assert CheckExit(c, ctx, s, b, above) == CloseTrade(c, s1, b.at, GapFill(stop, b.high, b.close), StopHit);
    } else if s.prev == Some(true) && !above && !IsLastBar(ctx, b.at) {
      assert CheckExit(c, ctx, s, b, above) == CloseTrade(c, s1, b.at, b.close, SmaExit);
    } else {
      assert CheckExit(c, ctx, s, b, above) == s1;
    }
  }

  /** Lines 145-149: a bar that keeps the position open never lowers the active
      stop (for a trailing fraction of at most 100%). */
  lemma {:induction false} StopRatchets(c: Config, ctx: Context, s: State, b: Bar, above: bool)
    requires Valid(c, s) && s.inPosition && c.trailFrac <= 1.0
    ensures var r := CheckExit(c, ctx, s, b, above);
      r.inPosition ==>
        r.entry == s.entry && ActiveStop(s.entry, s.highest, c.fixedFrac, c.trailFrac) <= ActiveStop(r.entry, r.highest, c.fixedFrac, c.trailFrac)
  {
    ExitRule(c, ctx, s, b, above);
    StopNeverDecreases(s.entry, s.highest, CheckExit(c, ctx, s, b, above).highest, c.fixedFrac, c.trailFrac);
  }

  /** Over a whole bar as well: while the same trade stays open, the stop
      only moves up. */
  lemma {:induction false} StepStopRatchets(c: Config, ctx: Context, s: State, b: Bar)
    requires Valid(c, s) && Divisible(c, b) && s.inPosition && c.trailFrac <= 1.0
    ensures var r := Step(c, ctx, s, b);
      r.inPosition && |r.trades| == |s.trades| ==>
        ActiveStop(s.entry, s.highest, c.fixedFrac, c.trailFrac) <= ActiveStop(r.entry, r.highest, c.fixedFrac, c.trailFrac)
  {
    match RefSma(ctx.sma, b.at.day)
    case None =>
    case Some(ref) =>
      var above := b.signal > ref;
      if s.prev.Some? {
        var s2 := ServiceLatch(c, ctx, s, b);
        if s2.inPosition {
          assert s2 == s;
          StopRatchets(c, ctx, s, b, above);
        } else {
          // the latch sold the position; a position held afterwards is a new trade
          assert s.pending && IsFirstBar(ctx, b.at);
          assert |s2.trades| == |s.trades|;
          var r := Step(c, ctx, s, b);
          if r.inPosition {
            assert s2.prev == Some(false) && above;
            assert |r.trades| == |s.trades| + 1;
          }
        }
      }
  }

  /** Lines 210-216: a bar sets the end-of-day latch only when it is the
      session's last bar and the position is still held after it. */
  lemma LatchOnlyAtSessionEnd(c: Config, ctx: Context, s: State, b: Bar)
    requires Valid(c, s) && Divisible(c, b)
    ensures var r := Step(c, ctx, s, b);
      r.pending && !s.pending ==>
        IsLastBar(ctx, b.at) && r.inPosition && RefSma(ctx.sma, b.at.day).Some? && r.prev.Some?
  {
    match RefSma(ctx.sma, b.at.day)
    case None =>
    case Some(ref) =>
      var above := b.signal > ref;
      if s.prev.Some? && !s.pending {
        var s2 := ServiceLatch(c, ctx, s, b);
        assert s2 == s;
        if s2.inPosition {
          EodLatchesHeld(c, ctx, SetPrev(c, CheckExit(c, ctx, s2, b, above), above), b);
        } else if s2.prev == Some(false) && above {
          if !(s2.lastExit == Some(b.at.day) && !s2.lastExitWasEod) {
            EodLatchesHeld(c, ctx, SetPrev(c, Enter(c, s2, b), above), b);
          }
        } else {
          EodLatchesHeld(c, ctx, SetPrev(c, s2, above), b);
        }
      }
  }

  /** EodCheck sets the latch only on the session's last bar with the
      position held. */
  lemma EodLatchesHeld(c: Config, ctx: Context, e: State, b: Bar)
    requires Valid(c, e) && e.prev.Some?
    ensures var r := EodCheck(c, ctx, e, b);
      r.pending && !e.pending ==> IsLastBar(ctx, b.at) && r.inPosition && r.prev.Some?
  {
  }

  /** Lines 121-142 and 183-186: at the next session's first bar a latched
      exit sells the held trade at that bar's close as "SMA EXIT (EOD)", and a
      bullish bar re-enters at once, the cooldown notwithstanding. */
  lemma {:induction false} LatchServicedAtOpen(c: Config, ctx: Context, s: State, b: Bar)
    requires Valid(c, s) && Divisible(c, b)
    requires s.pending && s.inPosition && IsFirstBar(ctx, b.at)
    requires RefSma(ctx.sma, b.at.day).Some? && s.prev.Some?
    ensures var r := Step(c, ctx, s, b);
      && |r.trades| == |s.trades| + (if AboveRef(ctx, b) then 1 else 0)
      && r.trades[|s.trades| - 1].exit.Some?
      && r.trades[|s.trades| - 1].exit.value.at == b.at
      && r.trades[|s.trades| - 1].exit.value.reason == SmaExitEod
      && r.trades[|s.trades| - 1].exit.value.price == ApplySlippage(b.close, Sell, c.slippage)
      && (AboveRef(ctx, b) ==> r.inPosition && r.trades[|s.trades|].entryAt == b.at)
      && (r.pending ==> IsLastBar(ctx, b.at) && r.inPosition)
      && r.prev.Some?
  {
    var above := AboveRef(ctx, b);
    var closed := CloseTrade(c, s, b.at, b.close, SmaExitEod);
    var s2 := ServiceLatch(c, ctx, s, b);
    assert s2 == closed.(pending := false, prev := Some(false));
    var r := Step(c, ctx, s, b);
    if above {
      var e := Enter(c, s2, b);
      assert r == EodCheck(c, ctx, SetPrev(c, e, above), b);
      assert r.trades == e.trades;
      assert e.trades[..|s2.trades|] == s2.trades;
      assert r.trades[|s.trades| - 1] == s2.trades[|s.trades| - 1];
    } else {
      assert r == EodCheck(c, ctx, SetPrev(c, s2, above), b);
    }
  }

  /** Lines 137-139 and 183-186: after a STOP or intraday SMA exit, a flat
      position is not re-entered on the same date. */
  lemma {:induction false} SameDayCooldown(c: Config, ctx: Context, s: State, b: Bar)
    requires Valid(c, s) && Divisible(c, b)
    requires !s.inPosition && s.lastExit == Some(b.at.day) && !s.lastExitWasEod
    ensures Step(c, ctx, s, b).trades == s.trades && !Step(c, ctx, s, b).inPosition
  {
    match RefSma(ctx.sma, b.at.day)
    case None =>
    case Some(ref) =>
      var above := b.signal > ref;
      if s.prev.Some? {
        var s2 := ServiceLatch(c, ctx, s, b);
        assert s2.trades == s.trades && !s2.inPosition && s2.lastExit == s.lastExit && s2.lastExitWasEod == s.lastExitWasEod;
        if !(s2.prev == Some(false) && above) {
          assert Step(c, ctx, s, b) == EodCheck(c, ctx, SetPrev(c, s2, above), b);
        }
      }
  }

  /** The exits that start the same-day cooldown: a stop or an intraday SMA
      exit, but not the end-of-day exit. */
  const Cooling: set<Reason> := {StopHit, SmaExit}

  /** The cooldown bookkeeping the loop keeps: no trade opened on the date a
      stop or intraday SMA exit closed the one before; once the last trade
      closed that way, last_exit_date is its date and last_exit_was_eod is
      False. */
  predicate Cooldown(s: State)
  {
    NoSameDayReentry(s.trades, Cooling) && ExitDayTracked(s.lastExit, s.trades, Cooling)
    && ((|s.trades| > 0 && s.trades[|s.trades| - 1].exit.Some? && s.trades[|s.trades| - 1].exit.value.reason in Cooling)
        ==> !s.lastExitWasEod)
  }

  /** Lines 137-139 and 183-186 over the whole run: no trade opens on the
      date a stop or intraday SMA exit closed the previous trade, while an
      end-of-day exit leaves same-date re-entry open. */
  lemma {:induction false} RunNoSameDayReentry(c: Config, ctx: Context, bars: seq<Bar>)
    requires AllDivisible(c, bars)
    ensures Cooldown(Run(c, ctx, bars))
    ensures NoSameDayReentry(Run(c, ctx, bars).trades, Cooling)
  {
    if bars != [] {
      var p := bars[..|bars| - 1];
      assert AllDivisible(c, p);
      RunNoSameDayReentry(c, ctx, p);
      StepCooldown(c, ctx, Run(c, ctx, p), bars[|bars| - 1]);
    }
  }

  /** An entry after a trade that did not close by a stop or intraday SMA
      exit keeps the rule, whatever its date. */
  lemma AppendAfterOtherExit(trades: seq<Trade>, at: Stamp, price: real, shares: real)
    requires NoSameDayReentry(trades, Cooling)
    requires |trades| > 0 ==> trades[|trades| - 1].exit.Some? && trades[|trades| - 1].exit.value.reason !in Cooling
    ensures NoSameDayReentry(Append(trades, at, price, shares), Cooling)
  {
    var r := Append(trades, at, price, shares);
    forall j | 1 <= j < |r| && r[j - 1].exit.Some? && r[j - 1].exit.value.reason in Cooling
      ensures r[j].entryAt.day != r[j - 1].exit.value.at.day
    {
      assert j < |trades|;
      assert r[j] == trades[j] && r[j - 1] == trades[j - 1];
    }
  }

  /** The latched end-of-day exit keeps the bookkeeping: its label starts
      no cooldown. */
  lemma LatchCooldown(c: Config, ctx: Context, s: State, b: Bar)
    requires Valid(c, s) && Cooldown(s)
    ensures Cooldown(ServiceLatch(c, ctx, s, b))
  {
    if s.pending && IsFirstBar(ctx, b.at) && s.inPosition {
      CloseCooldown(c, s, b.at, b.close, SmaExitEod);
    }
  }

  /** Completing the open trade, for any reason, keeps the bookkeeping:
      CloseTrade remembers the date and sets the EOD flag from the label. */
  lemma CloseCooldown(c: Config, s: State, at: Stamp, raw: real, reason: Reason)
    requires Valid(c, s) && s.inPosition && Cooldown(s)
    ensures Cooldown(CloseTrade(c, s, at, raw, reason))
  {
    var r := CloseTrade(c, s, at, raw, reason);
    var e := r.trades[|r.trades| - 1].exit.value;
    assert r.trades == CloseLast(s.trades, e);
    CloseLastKeepsReentryRule(s.trades, Cooling, Some(at.day), e);
  }

  /** A stop or intraday SMA exit remembers its date with the EOD flag
      cleared. */
  lemma ExitCooldown(c: Config, ctx: Context, s: State, b: Bar, above: bool)
    requires Valid(c, s) && s.inPosition && Cooldown(s)
    ensures Cooldown(CheckExit(c, ctx, s, b, above))
  {
    var highest := if b.high > s.highest then b.high else s.highest;
    var stop := ActiveStop(s.entry, highest, c.fixedFrac, c.trailFrac);
    var s1 := s.(highest := highest);
    Reframe(c, s, s1);
    assert Cooldown(s1);
    if b.low <= stop {
      CloseCooldown(c, s1, b.at, GapFill(stop, b.high, b.close), StopHit);
    } else if s.prev == Some(true) && !above && !IsLastBar(ctx, b.at) {
      CloseCooldown(c, s1, b.at, b.close, SmaExit);
    }
  }

  /** An entry the cooldown lets through keeps the bookkeeping. */
  lemma EnterCooldown(c: Config, s: State, b: Bar)
    requires Valid(c, s) && !s.inPosition && Divisible(c, b) && Cooldown(s)
    requires !(s.lastExit == Some(b.at.day) && !s.lastExitWasEod)
    ensures Cooldown(Enter(c, s, b))
  {
    var e := Enter(c, s, b);
    if s.lastExit != Some(b.at.day) {
      AppendKeepsReentryRule(s.trades, Cooling, s.lastExit, b.at, e.entry, e.shares);
    } else {
      AppendAfterOtherExit(s.trades, b.at, e.entry, e.shares);
    }
  }

  /** SetPrev and EodCheck touch neither the trades nor the remembered exit. */
  lemma FlagsCooldown(c: Config, ctx: Context, s: State, b: Bar, above: bool)
    requires Valid(c, s) && Cooldown(s)
    ensures Cooldown(SetPrev(c, s, above)) && Cooldown(EodCheck(c, ctx, SetPrev(c, s, above), b))
  {
  }

  /** One pass of the loop body keeps the cooldown bookkeeping. */
  lemma {:induction false} StepCooldown(c: Config, ctx: Context, s: State, b: Bar)
    requires Valid(c, s) && Divisible(c, b) && Cooldown(s)
    ensures Cooldown(Step(c, ctx, s, b))
  {
    match RefSma(ctx.sma, b.at.day)
    case None =>
    case Some(ref) =>
      var above := b.signal > ref;
      if s.prev.None? {
        FlagsCooldown(c, ctx, s, b, above);
      } else {
        var s2 := ServiceLatch(c, ctx, s, b);
        LatchCooldown(c, ctx, s, b);
        if s2.inPosition {
          var t := CheckExit(c, ctx, s2, b, above);
          ExitCooldown(c, ctx, s2, b, above);
          FlagsCooldown(c, ctx, t, b, above);
        } else if s2.prev == Some(false) && above && !(s2.lastExit == Some(b.at.day) && !s2.lastExitWasEod) {
          var t := Enter(c, s2, b);
          EnterCooldown(c, s2, b);
          FlagsCooldown(c, ctx, t, b, above);
        } else {
          FlagsCooldown(c, ctx, s2, b, above);
        }
      }
  }

  /** `t` is `ts` with at most the last record completed and at most one
      record appended. */
  predicate Extends(ts: seq<Trade>, t: seq<Trade>)
  {
    |ts| <= |t| <= |ts| + 1 && (|ts| > 0 ==> t[..|ts| - 1] == ts[..|ts| - 1])
  }

  lemma ExtendsTrans(a: seq<Trade>, b: seq<Trade>, c: seq<Trade>)
    requires Extends(a, b) && Extends(b, c) && |b| == |a|
    ensures Extends(a, c)
  {
    if |a| > 0 {
      assert c[..|a| - 1] == c[..|b| - 1];
    }
  }

  lemma ServiceLatchExtends(c: Config, ctx: Context, s: State, b: Bar)
    requires Valid(c, s)
    ensures Extends(s.trades, ServiceLatch(c, ctx, s, b).trades) && |ServiceLatch(c, ctx, s, b).trades| == |s.trades|
  {
  }

  lemma CheckExitExtends(c: Config, ctx: Context, s: State, b: Bar, above: bool)
    requires Valid(c, s) && s.inPosition
    ensures Extends(s.trades, CheckExit(c, ctx, s, b, above).trades)
  {
    ExitRule(c, ctx, s, b, above);
  }

  lemma EnterExtends(c: Config, s: State, b: Bar)
    requires Valid(c, s) && !s.inPosition && Divisible(c, b)
    ensures Extends(s.trades, Enter(c, s, b).trades)
  {
    var t := Enter(c, s, b).trades;
    if |s.trades| > 0 {
      assert t[..|s.trades| - 1] == t[..|s.trades|][..|s.trades| - 1];
    }
  }

  /** Whatever the bar, the trade list only grows by appending: records
      before the last one never change. */
  lemma StepKeepsHistory(c: Config, ctx: Context, s: State, b: Bar)
    requires Valid(c, s) && Divisible(c, b)
    ensures Extends(s.trades, Step(c, ctx, s, b).trades)
  {
    match RefSma(ctx.sma, b.at.day)
    case None =>
    case Some(ref) =>
      var above := b.signal > ref;
      if s.prev.Some? {
        var s2 := ServiceLatch(c, ctx, s, b);
        ServiceLatchExtends(c, ctx, s, b);
        if s2.inPosition {
          HoldingKeepsHistory(c, ctx, s.trades, s2, b, above);
        } else if s2.prev == Some(false) && above {
          if !(s2.lastExit == Some(b.at.day) && !s2.lastExitWasEod) {
            EnteringKeepsHistory(c, ctx, s.trades, s2, b, above);
          }
        }
      }
  }

  /** The holding branch of Step appends at most one record to ts. */
  lemma HoldingKeepsHistory(c: Config, ctx: Context, ts: seq<Trade>, s2: State, b: Bar, above: bool)
    requires Valid(c, s2) && s2.inPosition && Extends(ts, s2.trades) && |s2.trades| == |ts|
    ensures Extends(ts, EodCheck(c, ctx, SetPrev(c, CheckExit(c, ctx, s2, b, above), above), b).trades)
  {
    CheckExitExtends(c, ctx, s2, b, above);
    ExtendsTrans(ts, s2.trades, CheckExit(c, ctx, s2, b, above).trades);
  }

  /** The entering branch of Step appends at most one record to ts. */
  lemma EnteringKeepsHistory(c: Config, ctx: Context, ts: seq<Trade>, s2: State, b: Bar, above: bool)
    requires Valid(c, s2) && !s2.inPosition && Divisible(c, b) && Extends(ts, s2.trades) && |s2.trades| == |ts|
    ensures Extends(ts, EodCheck(c, ctx, SetPrev(c, Enter(c, s2, b), above), b).trades)
  {
    EnterExtends(c, s2, b);
    ExtendsTrans(ts, s2.trades, Enter(c, s2, b).trades);
  }

  /** The premises of the schedule lemmas: the loop's bars in time order and
      the first/last-bar tables built from them. */
  predicate Scheduled(c: Config, ctx: Context, w: seq<Bar>)
  {
    AllDivisible(c, w) && Chronological(w) && ctx.first == FirstTable(w) && ctx.last == LastTable(w)
  }

  lemma PrefixDivisible(c: Config, w: seq<Bar>, i: nat)
    requires AllDivisible(c, w) && i <= |w|
    ensures AllDivisible(c, w[..i])
  {
  }

  /** A date with an earlier SMA date keeps one for every later date. */
  lemma RefSmaPersists(sma: map<int, real>, d: int, e: int)
    requires RefSma(sma, d).Some? && d <= e
    ensures RefSma(sma, e).Some?
  {
  }

  /** A bar right after a session's last bar opens the next session. */
  lemma NextOpensSession(ctx: Context, w: seq<Bar>, i: int)
    requires Chronological(w) && ctx.first == FirstTable(w) && ctx.last == LastTable(w)
    requires 0 < i < |w| && IsLastBar(ctx, w[i - 1].at)
    ensures IsFirstBar(ctx, w[i].at) && w[i - 1].at.day < w[i].at.day
  {
    ChronologicalOrder(w);
    LastTableMeaning(w, i - 1);
    FirstTableMeaning(w, i);
    assert Earlier(w[i - 1].at, w[i].at);
  }

  /** While the latch is set, the last bar processed closed its session, and
      the position, the previous-signal flag and an earlier SMA all exist. */
  lemma {:induction false} PendingAfterSessionEnd(c: Config, ctx: Context, w: seq<Bar>, i: nat)
    requires Scheduled(c, ctx, w) && i <= |w|
    ensures var s := Run(c, ctx, w[..i]);
      s.pending ==>
        0 < i && IsLastBar(ctx, w[i - 1].at) && s.inPosition && s.prev.Some? && RefSma(ctx.sma, w[i - 1].at.day).Some?
  {
    PrefixDivisible(c, w, i);
    if i > 0 {
      PrefixDivisible(c, w, i - 1);
      PendingAfterSessionEnd(c, ctx, w, i - 1);
      assert w[..i][..i - 1] == w[..i - 1];
      var s := Run(c, ctx, w[..i - 1]);
      var b := w[i - 1];
      var r := Run(c, ctx, w[..i]);
      assert r == Step(c, ctx, s, b);
      if r.pending {
        if !s.pending {
          LatchOnlyAtSessionEnd(c, ctx, s, b);
        } else {
          NextOpensSession(ctx, w, i - 1);
          RefSmaPersists(ctx.sma, w[i - 2].at.day, b.at.day);
          LatchServicedAtOpen(c, ctx, s, b);
          RefSmaPersists(ctx.sma, b.at.day, b.at.day);
        }
      }
    }
  }

  /** The latch set at a session's last bar is serviced by the very next bar:
      it opens the next session and sells the held trade at its close as
      "SMA EXIT (EOD)". */
  lemma {:induction false} LatchServicedNextBar(c: Config, ctx: Context, w: seq<Bar>, i: nat)
    requires Scheduled(c, ctx, w) && i < |w|
    ensures var s := Run(c, ctx, w[..i]);
      var r := Run(c, ctx, w[..i + 1]);
      s.pending ==>
        IsFirstBar(ctx, w[i].at)
        && |s.trades| > 0 && |s.trades| <= |r.trades|
        && r.trades[|s.trades| - 1].exit.Some?
        && r.trades[|s.trades| - 1].exit.value.at == w[i].at
        && r.trades[|s.trades| - 1].exit.value.reason == SmaExitEod
        && r.trades[|s.trades| - 1].exit.value.price == ApplySlippage(w[i].close, Sell, c.slippage)
  {
    PrefixDivisible(c, w, i);
    PrefixDivisible(c, w, i + 1);
    var s := Run(c, ctx, w[..i]);
    if s.pending {
      PendingAfterSessionEnd(c, ctx, w, i);
      NextOpensSession(ctx, w, i);
      RefSmaPersists(ctx.sma, w[i - 1].at.day, w[i].at.day);
      assert w[..i + 1][..i] == w[..i];
      assert Run(c, ctx, w[..i + 1]) == Step(c, ctx, s, w[i]);
      LatchServicedAtOpen(c, ctx, s, w[i]);
    }
  }
}
