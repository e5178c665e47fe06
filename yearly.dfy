// compute_yearly_breakdown: the completed trades grouped by the calendar
// year of their exit, with a running balance chained through the years.
module Yearly {
  import opened Core
  import opened Ledger
  import opened Calendar

  /** One year's entry: the balance when its first trade closed, its trades
      in order, how many of them were stops, and the balance after its last. */
  datatype YearRow = YearRow(begin: real, trades: seq<Trade>, stops: nat, end: real)

  /** The loop's two variables: the table and running_capital. */
  datatype Tally = Tally(rows: map<int, YearRow>, running: real)

  /** A trade with a pnl and an exit time; the others are skipped. */
  predicate Priced(t: Trade)
  {
    t.exit.Some?
  }

  function ExitYear(t: Trade): int
    requires Priced(t)
  {
    YearOf(t.exit.value.at.day)
  }

  /** One pass of the loop (lines 260-276). */
  function AddTrade(acc: Tally, t: Trade): (r: Tally)
    requires Priced(t)
    ensures r.running == acc.running + t.exit.value.pnl
    ensures r.rows.Keys == acc.rows.Keys + {ExitYear(t)}
  {
    var y := ExitYear(t);
    var row := if y in acc.rows then acc.rows[y] else YearRow(acc.running, [], 0, acc.running);
    var running := acc.running + t.exit.value.pnl;
    var row' := row.(trades := row.trades + [t],
                     stops := row.stops + (if t.exit.value.reason == StopHit then 1 else 0),
                     end := running);
    Tally(acc.rows[y := row'], running)
  }

  /** The table and the running balance after the trades of `ts`. */
  function TallyOf(ts: seq<Trade>, start: real): Tally
  {
    if ts == [] then Tally(map[], start)
    else
      var acc := TallyOf(ts[..|ts| - 1], start);
      var t := ts[|ts| - 1];
      if Priced(t) then AddTrade(acc, t) else acc
  }

  /** compute_yearly_breakdown. */
  method YearlyBreakdown(trades: seq<Trade>, startingCapital: real) returns (yearly: map<int, YearRow>)
    ensures yearly == TallyOf(trades, startingCapital).rows
  {
    if trades == [] {
      return map[];
    }
    yearly := map[];
    var runningCapital := startingCapital;
    var i := 0;
    while i < |trades|
      invariant 0 <= i <= |trades|
      invariant Tally(yearly, runningCapital) == TallyOf(trades[..i], startingCapital)
    {
      var t := trades[i];
      assert trades[..i + 1][..i] == trades[..i];
      i := i + 1;
      if t.exit.None? {
        continue;
      }
      var year := YearOf(t.exit.value.at.day);
      if year !in yearly {
        yearly := yearly[year := YearRow(runningCapital, [], 0, runningCapital)];
      }
      var row := yearly[year];
      row := row.(trades := row.trades + [t]);
      if t.exit.value.reason == StopHit {
        row := row.(stops := row.stops + 1);
      }
      runningCapital := runningCapital + t.exit.value.pnl;
      yearly := yearly[year := row.(end := runningCapital)];
    }
    assert trades[..i] == trades;
  }

  /** The priced trades of year `y`, in order. */
  function OfYear(ts: seq<Trade>, y: int): seq<Trade>
  {
    if ts == [] then []
    else
      var t := ts[|ts| - 1];
      OfYear(ts[..|ts| - 1], y) + (if Priced(t) && ExitYear(t) == y then [t] else [])
  }

  /** The pnl of the priced trades closed before year `y`, and through it. */
  function PnlBefore(ts: seq<Trade>, y: int): real
  {
    if ts == [] then 0.0
    else
      var t := ts[|ts| - 1];
      PnlBefore(ts[..|ts| - 1], y) + (if Priced(t) && ExitYear(t) < y then t.exit.value.pnl else 0.0)
  }

  function PnlThrough(ts: seq<Trade>, y: int): real
  {
    if ts == [] then 0.0
    else
      var t := ts[|ts| - 1];
      PnlThrough(ts[..|ts| - 1], y) + (if Priced(t) && ExitYear(t) <= y then t.exit.value.pnl else 0.0)
  }

  /** The trades close in year order (as they do when they close in time
      order). */
  predicate YearsAscending(ts: seq<Trade>)
  {
    forall i, j :: 0 <= i < j < |ts| && Priced(ts[i]) && Priced(ts[j]) ==> ExitYear(ts[i]) <= ExitYear(ts[j])
  }

  predicate YearsAtMost(ts: seq<Trade>, y: int)
  {
    forall i :: 0 <= i < |ts| && Priced(ts[i]) ==> ExitYear(ts[i]) <= y
  }

  lemma {:induction false} ThroughIsAll(ts: seq<Trade>, y: int)
    requires YearsAtMost(ts, y)
    ensures PnlThrough(ts, y) == ClosedPnl(ts)
  {
    if ts != [] {
      ThroughIsAll(ts[..|ts| - 1], y);
    }
  }

  lemma {:induction false} BeforeIsAll(ts: seq<Trade>, y: int)
    requires YearsAtMost(ts, y) && OfYear(ts, y) == []
    ensures PnlBefore(ts, y) == ClosedPnl(ts)
  {
    if ts != [] {
      var init := ts[..|ts| - 1];
      assert OfYear(init, y) == [] by {
        assert |OfYear(ts, y)| >= |OfYear(init, y)|;
      }
      BeforeIsAll(init, y);
    }
  }

  /** The table has exactly the exit years of the priced trades, and each
      row lists that year's trades. */
  lemma {:induction false} TallyKeys(ts: seq<Trade>, start: real)
    ensures forall y :: y in TallyOf(ts, start).rows <==> OfYear(ts, y) != []
    ensures forall y :: y in TallyOf(ts, start).rows ==> TallyOf(ts, start).rows[y].trades == OfYear(ts, y)
    ensures forall y :: y in TallyOf(ts, start).rows ==>
      TallyOf(ts, start).rows[y].stops == CountReason(OfYear(ts, y), StopHit)
  {
    if ts != [] {
      var init := ts[..|ts| - 1];
      var t := ts[|ts| - 1];
      TallyKeys(init, start);
      forall y ensures OfYear(ts, y) == OfYear(init, y) + (if Priced(t) && ExitYear(t) == y then [t] else []) {
      }
      if Priced(t) {
        var y := ExitYear(t);
        var o := OfYear(ts, y);
        assert o[..|o| - 1] == OfYear(init, y);
      }
    }
  }

  /** The running balance ends at the starting capital plus every priced pnl. */
  lemma {:induction false} TallyRunning(ts: seq<Trade>, start: real)
    ensures TallyOf(ts, start).running == start + ClosedPnl(ts)
  {
    if ts != [] {
      TallyRunning(ts[..|ts| - 1], start);
    }
  }

  /** With trades closing in year order, a year begins at the balance left by
      all earlier years and ends at the balance through its own trades; so
      each year begins where the previous year present in the table ended. */
  lemma {:induction false} TallyChains(ts: seq<Trade>, start: real)
    requires YearsAscending(ts)
    ensures forall y :: y in TallyOf(ts, start).rows ==>
      TallyOf(ts, start).rows[y].begin == start + PnlBefore(ts, y)
      && TallyOf(ts, start).rows[y].end == start + PnlThrough(ts, y)
  {
    if ts != [] {
      var init := ts[..|ts| - 1];
      var t := ts[|ts| - 1];
      assert YearsAscending(init);
      TallyChains(init, start);
      if Priced(t) {
        var acc := TallyOf(init, start);
        var yt := ExitYear(t);
        assert YearsAtMost(init, yt) by {
          forall i | 0 <= i < |init| && Priced(init[i]) ensures ExitYear(init[i]) <= yt {
            assert init[i] == ts[i];
          }
        }
        TallyRunning(init, start);
        TallyKeys(init, start);
        ThroughIsAll(init, yt);
        if yt !in acc.rows {
          BeforeIsAll(init, yt);
        }
        forall y | y in TallyOf(ts, start).rows
          ensures TallyOf(ts, start).rows[y].begin == start + PnlBefore(ts, y)
          ensures TallyOf(ts, start).rows[y].end == start + PnlThrough(ts, y)
        {
          if y != yt {
            assert y in acc.rows;
            assert y < yt by {
              OfYearMember(init, y);
            }
          }
        }
      }
    }
  }

  /** A year with a row has a trade of that year, so it is at most the
      latest year. */
  lemma {:induction false} OfYearMember(ts: seq<Trade>, y: int)
    requires OfYear(ts, y) != []
    ensures exists i :: 0 <= i < |ts| && Priced(ts[i]) && ExitYear(ts[i]) == y
  {
    var init := ts[..|ts| - 1];
    var t := ts[|ts| - 1];
    if Priced(t) && ExitYear(t) == y {
      assert ts[|ts| - 1] == t;
    } else {
      OfYearMember(init, y);
      var i :| 0 <= i < |init| && Priced(init[i]) && ExitYear(init[i]) == y;
      assert ts[i] == init[i];
    }
  }

  lemma {:induction false} OfYearHas(ts: seq<Trade>, i: int)
    requires 0 <= i < |ts| && Priced(ts[i])
    ensures OfYear(ts, ExitYear(ts[i])) != []
  {
    var init := ts[..|ts| - 1];
    if i < |ts| - 1 {
      assert init[i] == ts[i];
      OfYearHas(init, i);
    }
  }

  /** A year's own trades account for the step from its begin to its end. */
  lemma {:induction false} YearSpan(ts: seq<Trade>, y: int)
    ensures PnlThrough(ts, y) == PnlBefore(ts, y) + ClosedPnl(OfYear(ts, y))
  {
    if ts != [] {
      var init := ts[..|ts| - 1];
      var t := ts[|ts| - 1];
      YearSpan(init, y);
      if Priced(t) && ExitYear(t) == y {
        var o := OfYear(ts, y);
        assert o == OfYear(init, y) + [t];
        assert o[..|o| - 1] == OfYear(init, y) && o[|o| - 1] == t;
      } else {
        assert OfYear(ts, y) == OfYear(init, y) + [];
        assert OfYear(init, y) + [] == OfYear(init, y);
      }
    }
  }

  /** Lines 270-276: each year ends at its begin balance plus its own
      trades' pnl. */
  lemma YearBalances(ts: seq<Trade>, start: real, y: int)
    requires YearsAscending(ts) && y in TallyOf(ts, start).rows
    ensures TallyOf(ts, start).rows[y].end == TallyOf(ts, start).rows[y].begin + ClosedPnl(TallyOf(ts, start).rows[y].trades)
  {
    TallyChains(ts, start);
    TallyKeys(ts, start);
    YearSpan(ts, y);
  }

  /** Lines 265-270: a year begins at the end balance of the previous year
      in the table. */
  lemma ConsecutiveYears(ts: seq<Trade>, start: real, y1: int, y2: int)
    requires YearsAscending(ts) && y1 < y2
    requires y1 in TallyOf(ts, start).rows && y2 in TallyOf(ts, start).rows
    requires forall y :: y1 < y < y2 ==> y !in TallyOf(ts, start).rows
    ensures TallyOf(ts, start).rows[y2].begin == TallyOf(ts, start).rows[y1].end
  {
    TallyChains(ts, start);
    TallyKeys(ts, start);
    forall i | 0 <= i < |ts| && Priced(ts[i]) ensures !(y1 < ExitYear(ts[i]) < y2) {
      OfYearHas(ts, i);
    }
    GapPnl(ts, y1, y2);
  }

  lemma {:induction false} GapPnl(ts: seq<Trade>, y1: int, y2: int)
    requires y1 < y2
    requires forall i :: 0 <= i < |ts| && Priced(ts[i]) ==> !(y1 < ExitYear(ts[i]) < y2)
    ensures PnlBefore(ts, y2) == PnlThrough(ts, y1)
  {
    if ts != [] {
      var init := ts[..|ts| - 1];
      forall i | 0 <= i < |init| && Priced(init[i]) ensures !(y1 < ExitYear(init[i]) < y2) {
        assert init[i] == ts[i];
      }
      GapPnl(init, y1, y2);
      assert ts[|ts| - 1] == ts[|ts| - 1];
    }
  }
}
