// The append-only trade list of the SMA-crossover engines: an entry
// appends a record whose exit fields are empty and the exit completes that
// record in place.
module Ledger {
  import opened Core

  /** The exit labels the scripts write. */
  datatype Reason =
    | StopHit          // "STOP" / "stop"
    | TrailStop        // "TRAIL STOP" / "TRAIL"
    | FixedStopHit     // "FIXED STOP" / "FIXED"
    | SmaExit          // "SMA EXIT" / "sma"
    | SmaExitEod       // "SMA EXIT (EOD)"
    | OpenAtEnd        // "OPEN" / "END" / "eod"

  datatype Exit = Exit(at: Stamp, price: real, pnl: real, reason: Reason)

  datatype Trade = Trade(entryAt: Stamp, entryPrice: real, shares: real, exit: Option<Exit>)

  /** Every trade but possibly the last one is complete. */
  predicate OnlyLastOpen(trades: seq<Trade>)
  {
    forall i :: 0 <= i < |trades| - 1 ==> trades[i].exit.Some?
  }

  /** Is the last trade still open (its exit_dt None)? */
  predicate LastOpen(trades: seq<Trade>)
  {
    |trades| > 0 && trades[|trades| - 1].exit.None?
  }

  /** `trades.append({... exit fields None ...})` */
  function Append(trades: seq<Trade>, at: Stamp, price: real, shares: real): (r: seq<Trade>)
    ensures |r| == |trades| + 1 && r[..|trades|] == trades
    ensures LastOpen(r) && r[|trades|].entryAt == at && r[|trades|].entryPrice == price && r[|trades|].shares == shares
    ensures OnlyLastOpen(trades) && !LastOpen(trades) ==> OnlyLastOpen(r)
  {
    trades + [Trade(at, price, shares, None)]
  }

  /** `trades[-1].update({exit fields})` */
  function CloseLast(trades: seq<Trade>, e: Exit): (r: seq<Trade>)
    requires |trades| > 0
    ensures |r| == |trades| && r[..|trades| - 1] == trades[..|trades| - 1]
    ensures r[|trades| - 1] == trades[|trades| - 1].(exit := Some(e))
    ensures OnlyLastOpen(trades) ==> OnlyLastOpen(r) && !LastOpen(r)
  {
    trades[..|trades| - 1] + [trades[|trades| - 1].(exit := Some(e))]
  }

  /** Sum of the pnl of the completed trades. */
  function ClosedPnl(trades: seq<Trade>): real
  {
    if trades == [] then 0.0
    else
      var t := trades[|trades| - 1];
      ClosedPnl(trades[..|trades| - 1]) + (if t.exit.Some? then t.exit.value.pnl else 0.0)
  }

  /** Completing the open trade adds exactly its pnl; opening one adds nothing. */
  lemma CloseLastPnl(trades: seq<Trade>, e: Exit)
    requires LastOpen(trades)
    ensures ClosedPnl(CloseLast(trades, e)) == ClosedPnl(trades) + e.pnl
  {
    var r := CloseLast(trades, e);
    assert r[..|r| - 1] == trades[..|trades| - 1];
  }

  lemma AppendPnl(trades: seq<Trade>, at: Stamp, price: real, shares: real)
    ensures ClosedPnl(Append(trades, at, price, shares)) == ClosedPnl(trades)
  {
    var r := Append(trades, at, price, shares);
    assert r[..|r| - 1] == trades;
  }

  /** The number of completed trades with a given label. */
  function CountReason(trades: seq<Trade>, reason: Reason): (n: nat)
    ensures n <= |trades|
  {
    if trades == [] then 0
    else
      var t := trades[|trades| - 1];
      CountReason(trades[..|trades| - 1], reason) + (if t.exit.Some? && t.exit.value.reason == reason then 1 else 0)
  }

  /** The number of completed trades. */
  function CountClosed(trades: seq<Trade>): (n: nat)
    ensures n <= |trades|
  {
    if trades == [] then 0
    else CountClosed(trades[..|trades| - 1]) + (if trades[|trades| - 1].exit.Some? then 1 else 0)
  }

  lemma CloseLastCount(trades: seq<Trade>, e: Exit)
    requires LastOpen(trades)
    ensures CountClosed(CloseLast(trades, e)) == CountClosed(trades) + 1
  {
    var r := CloseLast(trades, e);
    assert r[..|r| - 1] == trades[..|trades| - 1];
  }

  lemma AppendCount(trades: seq<Trade>, at: Stamp, price: real, shares: real)
    ensures CountClosed(Append(trades, at, price, shares)) == CountClosed(trades)
  {
    var r := Append(trades, at, price, shares);
    assert r[..|r| - 1] == trades;
  }

  /** Every exit label. */
  const AnyExit: set<Reason> := {StopHit, TrailStop, FixedStopHit, SmaExit, SmaExitEod, OpenAtEnd}

  /** The T+1 rule as the trade list records it: no trade opens on the date
      its predecessor closed with one of the labels in `after`. */
  predicate NoSameDayReentry(trades: seq<Trade>, after: set<Reason>)
  {
    forall j :: 1 <= j < |trades| && trades[j - 1].exit.Some? && trades[j - 1].exit.value.reason in after ==>
      trades[j].entryAt.day != trades[j - 1].exit.value.at.day
  }

  /** The remembered exit date (last_exit_date, last_stop_exit_date) is the
      exit date of the last trade once it closed with a label in `after`. */
  predicate ExitDayTracked(lastExit: Option<int>, trades: seq<Trade>, after: set<Reason>)
  {
    |trades| > 0 && trades[|trades| - 1].exit.Some? && trades[|trades| - 1].exit.value.reason in after ==>
      lastExit == Some(trades[|trades| - 1].exit.value.at.day)
  }

  /** An entry on a date other than the remembered one keeps the T+1 rule. */
  lemma AppendKeepsReentryRule(trades: seq<Trade>, after: set<Reason>, lastExit: Option<int>, at: Stamp, price: real, shares: real)
    requires NoSameDayReentry(trades, after) && ExitDayTracked(lastExit, trades, after) && lastExit != Some(at.day)
    ensures NoSameDayReentry(Append(trades, at, price, shares), after)
    ensures ExitDayTracked(lastExit, Append(trades, at, price, shares), after)
  {
    var r := Append(trades, at, price, shares);
    forall j | 1 <= j < |r| && r[j - 1].exit.Some? && r[j - 1].exit.value.reason in after
      ensures r[j].entryAt.day != r[j - 1].exit.value.at.day
    {
      if j < |trades| {
        assert r[j] == trades[j] && r[j - 1] == trades[j - 1];
      } else {
        assert r[j - 1] == trades[|trades| - 1];
      }
    }
  }

  /** An exit keeps the T+1 rule; with a label in `after` its date must
      become the remembered one. */
  lemma CloseLastKeepsReentryRule(trades: seq<Trade>, after: set<Reason>, lastExit: Option<int>, e: Exit)
    requires NoSameDayReentry(trades, after) && |trades| > 0
    requires e.reason in after ==> lastExit == Some(e.at.day)
    ensures NoSameDayReentry(CloseLast(trades, e), after)
    ensures ExitDayTracked(lastExit, CloseLast(trades, e), after)
  {
    var r := CloseLast(trades, e);
    forall j | 1 <= j < |r| && r[j - 1].exit.Some? && r[j - 1].exit.value.reason in after
      ensures r[j].entryAt.day != r[j - 1].exit.value.at.day
    {
      assert r[j - 1] == trades[j - 1];
      assert r[j].entryAt == trades[j].entryAt;
    }
  }
}
