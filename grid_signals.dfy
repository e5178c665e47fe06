// The signal columns the grid-search scripts feed into the simulator:
// threshold and crossover votes per bar, the strategy tables that combine
// them, the hand-written EMA recurrences behind the MACD line, and the
// padded RSI of one script.
module GridSignals {
  import opened Core

  /** The per-bar votes of RSI and MACD. */
  datatype Votes = Votes(rsiBuy: bool, rsiSell: bool, macdBuy: bool, macdSell: bool)

  /** The wider set of one script: Bollinger %B, an EMA(9/21) cross and a
      volume filter besides RSI and MACD. */
  datatype WideVotes = WideVotes(v: Votes, bbBuy: bool, bbSell: bool, emaBuy: bool, emaSell: bool, volOk: bool)

  datatype Signal = Signal(buy: bool, sell: bool)

  // ---------------------------------------------------------------------
  // Strategy tables. Each maps a strategy name, and any unknown name to
  // the table's last branch.

  /** rsi_only, macd_only, rsi_macd_combo, else rsi_macd_either. */
  function GridRule(name: string, v: Votes): (r: Signal)
    ensures r.buy ==> v.rsiBuy || v.macdBuy
    ensures r.sell ==> v.rsiSell || v.macdSell
  {
    if name == "rsi_only" then Signal(v.rsiBuy, v.rsiSell)
    else if name == "macd_only" then Signal(v.macdBuy, v.macdSell)
    else if name == "rsi_macd_combo" then Signal(v.rsiBuy && v.macdBuy, v.rsiSell || v.macdSell)
    else Signal(v.rsiBuy || v.macdBuy, v.rsiSell || v.macdSell)
  }

  /** rsi_only, macd_only, else AND-buy / OR-sell. */
  function ChunkedRule(name: string, v: Votes): (r: Signal)
    ensures r.buy ==> v.rsiBuy || v.macdBuy
    ensures r.sell ==> v.rsiSell || v.macdSell
  {
    if name == "rsi_only" then Signal(v.rsiBuy, v.rsiSell)
    else if name == "macd_only" then Signal(v.macdBuy, v.macdSell)
    else Signal(v.rsiBuy && v.macdBuy, v.rsiSell || v.macdSell)
  }

  /** rsi, macd, both, else either. */
  function PairRule(name: string, v: Votes): (r: Signal)
    ensures r.buy ==> v.rsiBuy || v.macdBuy
    ensures r.sell ==> v.rsiSell || v.macdSell
  {
    if name == "rsi" then Signal(v.rsiBuy, v.rsiSell)
    else if name == "macd" then Signal(v.macdBuy, v.macdSell)
    else if name == "both" then Signal(v.rsiBuy && v.macdBuy, v.rsiSell || v.macdSell)
    else Signal(v.rsiBuy || v.macdBuy, v.rsiSell || v.macdSell)
  }

  /** rsi, macd (tested in either order), else the AND/OR combo. */
  function ComboRule(name: string, v: Votes): (r: Signal)
    ensures r.buy ==> v.rsiBuy || v.macdBuy
    ensures r.sell ==> v.rsiSell || v.macdSell
  {
    if name == "rsi" then Signal(v.rsiBuy, v.rsiSell)
    else if name == "macd" then Signal(v.macdBuy, v.macdSell)
    else Signal(v.rsiBuy && v.macdBuy, v.rsiSell || v.macdSell)
  }

  /** The eleven-entry table, all_combined being the default. */
  function WideRule(name: string, w: WideVotes): (r: Signal)
    ensures r.buy ==> w.v.rsiBuy || w.v.macdBuy || w.bbBuy || w.emaBuy
    ensures r.sell ==> w.v.rsiSell || w.v.macdSell || w.bbSell || w.emaSell
  {
    var v := w.v;
    if name == "rsi_only" then Signal(v.rsiBuy, v.rsiSell)
    else if name == "macd_only" then Signal(v.macdBuy, v.macdSell)
    else if name == "bb_only" then Signal(w.bbBuy, w.bbSell)
    else if name == "ema_only" then Signal(w.emaBuy, w.emaSell)
    else if name == "rsi_macd" then Signal(v.rsiBuy && v.macdBuy, v.rsiSell || v.macdSell)
    else if name == "rsi_bb" then Signal(v.rsiBuy && w.bbBuy, v.rsiSell || w.bbSell)
    else if name == "macd_bb" then Signal(v.macdBuy && w.bbBuy, v.macdSell || w.bbSell)
    else if name == "rsi_vol" then Signal(v.rsiBuy && w.volOk, v.rsiSell)
    else if name == "macd_vol" then Signal(v.macdBuy && w.volOk, v.macdSell)
    else if name == "triple" then Signal(v.rsiBuy && v.macdBuy && w.bbBuy, v.rsiSell || v.macdSell || w.bbSell)
    else Signal((v.rsiBuy || v.macdBuy || w.bbBuy) && w.volOk, v.rsiSell || v.macdSell || w.bbSell)
  }

  /** The combined strategies sit between the single ones: a combo buy is
      a buy of each single strategy, an either buy follows from any single
      buy, the combined sells are the union of the single sells, and an
      unknown name behaves as the last row. */
  lemma GridRuleOrder(v: Votes, other: string)
    requires other != "rsi_only" && other != "macd_only" && other != "rsi_macd_combo"
    ensures GridRule("rsi_macd_combo", v).buy ==> GridRule("rsi_only", v).buy && GridRule("macd_only", v).buy
    ensures GridRule("rsi_only", v).buy || GridRule("macd_only", v).buy ==> GridRule("rsi_macd_either", v).buy
    ensures GridRule("rsi_macd_combo", v).sell == GridRule("rsi_macd_either", v).sell
            == (GridRule("rsi_only", v).sell || GridRule("macd_only", v).sell)
    ensures GridRule(other, v) == GridRule("rsi_macd_either", v)
  {
  }

  lemma ChunkedRuleOrder(v: Votes, other: string)
    requires other != "rsi_only" && other != "macd_only"
    ensures ChunkedRule(other, v).buy <==> ChunkedRule("rsi_only", v).buy && ChunkedRule("macd_only", v).buy
    ensures ChunkedRule(other, v).sell <==> ChunkedRule("rsi_only", v).sell || ChunkedRule("macd_only", v).sell
  {
  }

  /** The pair table agrees with the grid table row for row, and the combo
      table with the chunked one. */
  lemma TablesAgree(v: Votes)
    ensures PairRule("rsi", v) == GridRule("rsi_only", v) && PairRule("macd", v) == GridRule("macd_only", v)
    ensures PairRule("both", v) == GridRule("rsi_macd_combo", v) && PairRule("either", v) == GridRule("rsi_macd_either", v)
    ensures ComboRule("rsi", v) == ChunkedRule("rsi_only", v) && ComboRule("macd", v) == ChunkedRule("macd_only", v)
    ensures ComboRule("combo", v) == ChunkedRule("combo", v)
  {
  }

  lemma WideRuleOrder(w: WideVotes)
    ensures WideRule("triple", w).buy ==> WideRule("rsi_macd", w).buy && WideRule("rsi_bb", w).buy && WideRule("macd_bb", w).buy
    ensures WideRule("rsi_macd", w).buy ==> WideRule("rsi_only", w).buy && WideRule("macd_only", w).buy
    ensures WideRule("rsi_vol", w).buy ==> WideRule("rsi_only", w).buy
    ensures WideRule("macd_vol", w).buy ==> WideRule("macd_only", w).buy
    ensures WideRule("all_combined", w).buy <==> (WideRule("rsi_only", w).buy || WideRule("macd_only", w).buy || WideRule("bb_only", w).buy) && w.volOk
    ensures WideRule("all_combined", w).sell == WideRule("triple", w).sell
  {
  }

  // ---------------------------------------------------------------------
  // Votes from indicator values.

  /** rsi < oversold buys and rsi > overbought sells; with oversold below
      overbought the two never fire together. */
  function RsiVote(rsi: real, oversold: real, overbought: real): (r: Signal)
    ensures oversold <= overbought ==> !(r.buy && r.sell)
  {
    Signal(rsi < oversold, rsi > overbought)
  }

  /** The previous index as pandas `shift(1)` sees it (none at the start)
      and as `np.roll(., 1)` sees it (the last index at the start). */
  function Before(n: int, i: int, roll: bool): (j: Option<int>)
    requires 0 <= i < n
    ensures j.Some? ==> 0 <= j.value < n
    ensures i > 0 ==> j == Some(i - 1)
  {
    if i > 0 then Some(i - 1) else if roll then Some(n - 1) else None
  }

  /** MACD crosses: the line is now above (below) the signal line and was
      at or below (at or above) it at the previous index. An undefined
      previous value compares false. */
  function MacdVote(line: seq<real>, sig: seq<real>, i: int, roll: bool): (r: Signal)
    requires |line| == |sig| && 0 <= i < |line|
    ensures !(r.buy && r.sell)
    ensures r.buy ==> line[i] > sig[i]
    ensures r.sell ==> line[i] < sig[i]
  {
    match Before(|line|, i, roll)
    case None => Signal(false, false)
    case Some(j) => Signal(line[i] > sig[i] && line[j] <= sig[j], line[i] < sig[i] && line[j] >= sig[j])
  }

  /** Past the first bar the two readings of "previous" agree, so the
      wrap-around of np.roll cannot matter to a loop that starts later. */
  lemma RollMattersOnlyAtZero(line: seq<real>, sig: seq<real>, i: int)
    requires |line| == |sig| && 0 < i < |line|
    ensures MacdVote(line, sig, i, true) == MacdVote(line, sig, i, false)
  {
  }

  /** A MACD buy cross at i means the line moved from at-or-below to above
      between i-1 and i; the reverse for a sell. */
  lemma MacdCrossMeaning(line: seq<real>, sig: seq<real>, i: int, roll: bool)
    requires |line| == |sig| && 0 < i < |line|
    ensures MacdVote(line, sig, i, roll).buy <==> line[i - 1] <= sig[i - 1] && line[i] > sig[i]
    ensures MacdVote(line, sig, i, roll).sell <==> line[i - 1] >= sig[i - 1] && line[i] < sig[i]
  {
  }

  /** The vote columns of a frame given its RSI, MACD and signal line. */
  function VotesOf(rsi: seq<real>, oversold: real, overbought: real, line: seq<real>, sig: seq<real>, roll: bool): (vs: seq<Votes>)
    requires |rsi| == |line| == |sig|
    ensures |vs| == |rsi|
    ensures forall i :: 0 <= i < |vs| ==>
      vs[i] == (var r := RsiVote(rsi[i], oversold, overbought); var m := MacdVote(line, sig, i, roll); Votes(r.buy, r.sell, m.buy, m.sell))
  {
    seq(|rsi|, i requires 0 <= i < |rsi| =>
      var r := RsiVote(rsi[i], oversold, overbought);
      var m := MacdVote(line, sig, i, roll);
      Votes(r.buy, r.sell, m.buy, m.sell))
  }

  function BuyColumn(ss: seq<Signal>): (b: seq<bool>)
    ensures |b| == |ss| && forall i :: 0 <= i < |ss| ==> b[i] == ss[i].buy
  {
    seq(|ss|, i requires 0 <= i < |ss| => ss[i].buy)
  }

  function SellColumn(ss: seq<Signal>): (b: seq<bool>)
    ensures |b| == |ss| && forall i :: 0 <= i < |ss| ==> b[i] == ss[i].sell
  {
    seq(|ss|, i requires 0 <= i < |ss| => ss[i].sell)
  }

  // ---------------------------------------------------------------------
  // Rows with NaN and the dropna step.

  /** The rows satisfying `ok`, in order: a row filter such as dropna. */
  function Keep<T(!new)>(rows: seq<T>, ok: T -> bool): (r: seq<T>)
    ensures |r| <= |rows|
    ensures forall k :: 0 <= k < |r| ==> ok(r[k])
    ensures forall x :: x in r <==> x in rows && ok(x)
  {
    if rows == [] then []
    else Keep(rows[..|rows| - 1], ok) + (if ok(rows[|rows| - 1]) then [rows[|rows| - 1]] else [])
  }

  /** Filtering keeps the order of the rows kept: each row of the result
      comes from a source row later than the one before it. */
  lemma KeepKeepsOrder<T(!new)>(rows: seq<T>, ok: T -> bool, k: int)
    requires 0 <= k < |Keep(rows, ok)|
    ensures exists j :: k <= j < |rows| && rows[j] == Keep(rows, ok)[k] && |Keep(rows[..j], ok)| == k
  {
    var j := KeepPosition(rows, ok, k);
  }

  /** The position KeepKeepsOrder speaks of. */
  lemma {:induction false} KeepPosition<T(!new)>(rows: seq<T>, ok: T -> bool, k: int) returns (j: int)
    requires 0 <= k < |Keep(rows, ok)|
    ensures k <= j < |rows| && rows[j] == Keep(rows, ok)[k] && |Keep(rows[..j], ok)| == k
  {
    var init, last := rows[..|rows| - 1], rows[|rows| - 1];
    assert Keep(rows, ok) == Keep(init, ok) + (if ok(last) then [last] else []);
    if k < |Keep(init, ok)| {
      j := KeepPosition(init, ok, k);
      assert rows[..j] == init[..j];
      assert rows[j] == init[j];
    } else {
      j := |rows| - 1;
      assert rows[..j] == init;
    }
  }

  /** A property of every row is a property of every row kept. */
  lemma {:induction false} KeepPreserves<T(!new)>(rows: seq<T>, ok: T -> bool, P: T -> bool)
    requires forall k :: 0 <= k < |rows| ==> P(rows[k])
    ensures forall k :: 0 <= k < |Keep(rows, ok)| ==> P(Keep(rows, ok)[k])
  {
    if rows != [] {
      var init := rows[..|rows| - 1];
      assert forall k :: 0 <= k < |init| ==> init[k] == rows[k];
      KeepPreserves(init, ok, P);
    }
  }

  /** One frame row: the close and the indicator values, None for NaN. */
  datatype Row = Row(close: real, rsi: Option<real>, macd: Option<real>, sig: Option<real>)

  predicate Complete(r: Row)
  {
    r.rsi.Some? && r.macd.Some? && r.sig.Some?
  }

  /** df.dropna(). */
  function DropNa(rows: seq<Row>): (r: seq<Row>)
    ensures |r| <= |rows|
    ensures forall k :: 0 <= k < |r| ==> Complete(r[k])
    ensures forall x :: x in r <==> x in rows && Complete(x)
  {
    Keep(rows, Complete)
  }

  /** The frame of closes and their indicator columns. */
  function Frame(c: seq<real>, rsi: seq<Option<real>>, line: seq<real>, sig: seq<real>): (rows: seq<Row>)
    requires |rsi| == |c| && |line| == |c| && |sig| == |c|
    ensures |rows| == |c|
    ensures forall i :: 0 <= i < |c| ==> rows[i] == Row(c[i], rsi[i], Some(line[i]), Some(sig[i]))
  {
    seq(|c|, i requires 0 <= i < |c| => Row(c[i], rsi[i], Some(line[i]), Some(sig[i])))
  }

  function Closes(rows: seq<Row>): (c: seq<real>)
    ensures |c| == |rows| && forall i :: 0 <= i < |rows| ==> c[i] == rows[i].close
  {
    seq(|rows|, i requires 0 <= i < |rows| => rows[i].close)
  }

  function RsiColumn(rows: seq<Row>): (c: seq<real>)
    requires forall k :: 0 <= k < |rows| ==> Complete(rows[k])
    ensures |c| == |rows| && forall i :: 0 <= i < |rows| ==> Some(c[i]) == rows[i].rsi
  {
    seq(|rows|, i requires 0 <= i < |rows| && Complete(rows[i]) => rows[i].rsi.value)
  }

  function MacdColumn(rows: seq<Row>): (c: seq<real>)
    requires forall k :: 0 <= k < |rows| ==> Complete(rows[k])
    ensures |c| == |rows| && forall i :: 0 <= i < |rows| ==> Some(c[i]) == rows[i].macd
  {
    seq(|rows|, i requires 0 <= i < |rows| && Complete(rows[i]) => rows[i].macd.value)
  }

  function SignalColumn(rows: seq<Row>): (c: seq<real>)
    requires forall k :: 0 <= k < |rows| ==> Complete(rows[k])
    ensures |c| == |rows| && forall i :: 0 <= i < |rows| ==> Some(c[i]) == rows[i].sig
  {
    seq(|rows|, i requires 0 <= i < |rows| && Complete(rows[i]) => rows[i].sig.value)
  }

  /** A row of the two-symbol frame: the signal symbol's close and
      indicators joined with the traded symbol's close. */
  datatype WideRow = WideRow(close: real, traded: real, rsi: Option<real>, macd: Option<real>, sig: Option<real>,
                             bbPct: Option<real>, fastEma: real, slowEma: real, volRatio: Option<real>)

  predicate WideComplete(r: WideRow)
  {
    r.rsi.Some? && r.macd.Some? && r.sig.Some? && r.bbPct.Some? && r.volRatio.Some?
  }

  /** The votes of one complete wide row, given its predecessor's MACD and
      EMA values when it has one (None being pandas' shifted NaN). */
  function WideVotesOf(r: WideRow, prev: Option<WideRow>, oversold: real, overbought: real): (w: WideVotes)
    requires WideComplete(r) && (prev.Some? ==> WideComplete(prev.value))
    ensures !(w.v.macdBuy && w.v.macdSell) && !(w.emaBuy && w.emaSell) && !(w.bbBuy && w.bbSell)
    ensures w.volOk <==> r.volRatio.value > 1.2
    ensures w.bbBuy <==> r.bbPct.value < 0.1
    ensures w.bbSell <==> r.bbPct.value > 0.9
  {
    var rv := RsiVote(r.rsi.value, oversold, overbought);
    var m, s := r.macd.value, r.sig.value;
    var crosses := match prev
      case None => (false, false, false, false)
      case Some(q) =>
        (m > s && q.macd.value <= q.sig.value, m < s && q.macd.value >= q.sig.value,
         r.fastEma > r.slowEma && q.fastEma <= q.slowEma, r.fastEma < r.slowEma && q.fastEma >= q.slowEma);
    WideVotes(Votes(rv.buy, rv.sell, crosses.0, crosses.1),
              r.bbPct.value < 0.1, r.bbPct.value > 0.9, crosses.2, crosses.3, r.volRatio.value > 1.2)
  }

  // ---------------------------------------------------------------------
  // The pandas RSI: rolling means of the gains and losses of close.diff(),
  // whose first NaN difference counts as neither gain nor loss.

  /** What a zero average loss gives: NaN where the script divides by
      loss.replace(0, nan), infinity (so RSI 100, or NaN for 0/0) where it
      divides by the bare loss. */
  datatype ZeroLoss = NanOnZeroLoss | InfOnZeroLoss

  function RollingRsiAt(ag: real, al: real, mode: ZeroLoss): (r: Option<real>)
    requires ag >= 0.0 && al >= 0.0
    ensures r.Some? ==> 0.0 <= r.value <= 100.0
    ensures al > 0.0 ==> r == Some(CappedRsi(ag, al))
    ensures r.None? <==> al == 0.0 && (mode.NanOnZeroLoss? || ag == 0.0)
  {
    if al > 0.0 then Some(CappedRsi(ag, al))
    else if mode.InfOnZeroLoss? && ag > 0.0 then Some(100.0)
    else None
  }

  function PandasRsi(c: seq<real>, p: int, mode: ZeroLoss): (r: seq<Option<real>>)
    requires 1 <= p
    ensures |r| == |c|
    ensures forall i :: 0 <= i < |c| && i < p - 1 ==> r[i] == None
    ensures forall i :: 0 <= i < |c| && r[i].Some? ==> 0.0 <= r[i].value <= 100.0
  {
    var g := Gains(Deltas(c));
    var l := Losses(Deltas(c));
    seq(|c|, i requires 0 <= i < |c| =>
      if i < p - 1 then None
      else
        TrailingMeanNonNegative(g, p, i);
        TrailingMeanNonNegative(l, p, i);
        RollingRsiAt(TrailingMean(g, p, i), TrailingMean(l, p, i), mode))
  }

  /** Where the window has lost something the two divisions agree; they
      differ only on windows without a loss, which one drops as NaN and the
      other reads as 100 when the price rose. */
  lemma ZeroLossModes(c: seq<real>, p: int, i: int)
    requires 1 <= p && p - 1 <= i < |c|
    ensures var l := TrailingMean(Losses(Deltas(c)), p, i);
      l > 0.0 ==> PandasRsi(c, p, NanOnZeroLoss)[i] == PandasRsi(c, p, InfOnZeroLoss)[i]
    ensures PandasRsi(c, p, NanOnZeroLoss)[i].None? <==> TrailingMean(Losses(Deltas(c)), p, i) == 0.0
    ensures PandasRsi(c, p, InfOnZeroLoss)[i].None? <==>
      TrailingMean(Losses(Deltas(c)), p, i) == 0.0 && TrailingMean(Gains(Deltas(c)), p, i) == 0.0
  {
    TrailingMeanNonNegative(Gains(Deltas(c)), p, i);
    TrailingMeanNonNegative(Losses(Deltas(c)), p, i);
  }

  // ---------------------------------------------------------------------
  // The hand-written EMA recurrences.

  /** alpha = 2 / (span + 1), a weight in (0, 1] for every span >= 1. */
  function Alpha(span: int): (a: real)
    requires span >= 1
    ensures 0.0 < a <= 1.0
  {
    2.0 / (span as real + 1.0)
  }

  /** ema[0] = x[0] and ema[i] = alpha x[i] + (1 - alpha) ema[i-1]. */
  function EmaAt(x: seq<real>, alpha: real, i: int): real
    requires 0 <= i < |x|
  {
    if i == 0 then x[0] else Blended(alpha, x[i], EmaAt(x, alpha, i - 1))
  }

  /** One step of the recurrence: the new value weighted by alpha, which
      lies between the new value and the previous average. */
  function Blended(alpha: real, a: real, b: real): (r: real)
    ensures 0.0 <= alpha <= 1.0 ==> a <= r <= b || b <= r <= a
  {
    var r := alpha * a + (1.0 - alpha) * b;
    if 0.0 <= alpha <= 1.0 then
      Blend(alpha, a, b, r);
      r
    else
      r
  }

  function Ema(x: seq<real>, alpha: real): (e: seq<real>)
    ensures |e| == |x| && forall i :: 0 <= i < |x| ==> e[i] == EmaAt(x, alpha, i)
  {
    seq(|x|, i requires 0 <= i < |x| => EmaAt(x, alpha, i))
  }

  /** The sign rule the blend needs. */
  lemma MulNonPos(x: real, y: real)
    requires x >= 0.0 && y <= 0.0
    ensures x * y <= 0.0
  {
  }

  /** A weighted average of two values lies between them. */
  lemma Blend(alpha: real, a: real, b: real, r: real)
    requires 0.0 <= alpha <= 1.0 && r == alpha * a + (1.0 - alpha) * b
    ensures a <= r <= b || b <= r <= a
  {
    assert r == b + alpha * (a - b);
    assert r == a + (1.0 - alpha) * (b - a);
    if a <= b {
      MulNonPos(alpha, a - b);
      MulNonPos(1.0 - alpha, a - b);
      assert (1.0 - alpha) * (b - a) == -((1.0 - alpha) * (a - b));
    } else {
      MulNonPos(alpha, b - a);
      MulNonPos(1.0 - alpha, b - a);
      assert alpha * (a - b) == -(alpha * (b - a));
    }
  }

  /** With a weight in [0, 1] the EMA never leaves the range of the values
      seen so far; in particular a constant series is its own EMA. */
  lemma {:induction false} EmaWithinRange(x: seq<real>, alpha: real, i: int, lo: real, hi: real)
    requires 0 <= i < |x| && 0.0 <= alpha <= 1.0
    requires forall j :: 0 <= j <= i ==> lo <= x[j] <= hi
    ensures lo <= EmaAt(x, alpha, i) <= hi
  {
    if i > 0 {
      EmaWithinRange(x, alpha, i - 1, lo, hi);
    }
  }

  /** The fast and slow EMA arrays, filled in one loop. */
  method FastSlowEma(x: seq<real>, alphaFast: real, alphaSlow: real) returns (fast: array<real>, slow: array<real>)
    requires |x| > 0
    ensures fresh(fast) && fresh(slow)
    ensures fast[..] == Ema(x, alphaFast) && slow[..] == Ema(x, alphaSlow)
  {
    var n := |x|;
    fast := new real[n];
    slow := new real[n];
    fast[0] := x[0];
    slow[0] := x[0];
    ghost var ef, es := Ema(x, alphaFast), Ema(x, alphaSlow);
    var i := 1;
    while i < n
      invariant 1 <= i <= n
      invariant fast[..i] == ef[..i]
      invariant slow[..i] == es[..i]
    {
      assert fast[i - 1] == ef[i - 1] && slow[i - 1] == es[i - 1];
      var f := Blended(alphaFast, x[i], fast[i - 1]);
      var s := Blended(alphaSlow, x[i], slow[i - 1]);
      assert f == ef[i] && s == es[i];
      fast[i] := f;
      slow[i] := s;
      assert fast[..i + 1] == fast[..i] + [f];
      assert ef[..i + 1] == ef[..i] + [f];
      i := i + 1;
    }
    assert fast[..] == fast[..n] && ef == ef[..n];
  }

  /** The signal line: the same recurrence over the MACD line. */
  method SignalLine(line: seq<real>, alpha: real) returns (sig: array<real>)
    requires |line| > 0
    ensures fresh(sig) && sig[..] == Ema(line, alpha)
  {
    var n := |line|;
    sig := new real[n];
    sig[0] := line[0];
    var i := 1;
    while i < n
      invariant 1 <= i <= n
      invariant forall j :: 0 <= j < i ==> sig[j] == EmaAt(line, alpha, j)
    {
      var v := Blended(alpha, line[i], sig[i - 1]);
      assert v == EmaAt(line, alpha, i);
      sig[i] := v;
      i := i + 1;
    }
  }

  /** macd = ema_fast - ema_slow. */
  function Minus(a: seq<real>, b: seq<real>): (d: seq<real>)
    requires |a| == |b|
    ensures |d| == |a| && forall i :: 0 <= i < |a| ==> d[i] == a[i] - b[i]
  {
    seq(|a|, i requires 0 <= i < |a| => a[i] - b[i])
  }

  function MacdLine(x: seq<real>, fast: int, slow: int): (m: seq<real>)
    requires fast >= 1 && slow >= 1
    ensures |m| == |x|
  {
    Minus(Ema(x, Alpha(fast)), Ema(x, Alpha(slow)))
  }

  /** The MACD line and its signal line from the recurrences. */
  method Macd(x: seq<real>, fast: int, slow: int, signal: int) returns (line: seq<real>, sig: seq<real>)
    requires |x| > 0 && fast >= 1 && slow >= 1 && signal >= 1
    ensures line == MacdLine(x, fast, slow) && sig == Ema(line, Alpha(signal))
  {
    var ef, es := FastSlowEma(x, Alpha(fast), Alpha(slow));
    line := Minus(ef[..], es[..]);
    var s := SignalLine(line, Alpha(signal));
    sig := s[..];
  }

  /** A flat price series has a flat zero MACD line. */
  lemma FlatSeriesHasNoMacd(x: seq<real>, fast: int, slow: int, i: int)
    requires fast >= 1 && slow >= 1 && 0 <= i < |x|
    requires forall j :: 0 <= j < |x| ==> x[j] == x[0]
    ensures MacdLine(x, fast, slow)[i] == 0.0
  {
    EmaWithinRange(x, Alpha(fast), i, x[0], x[0]);
    EmaWithinRange(x, Alpha(slow), i, x[0], x[0]);
  }

  // ---------------------------------------------------------------------
  // The padded RSI of one script: 'valid' window means of the gains and
  // losses, a zero average loss replaced by 1, and 50 in front.

  /** np.diff(close, prepend=close[0]). */
  function Deltas(c: seq<real>): (d: seq<real>)
    ensures |d| == |c|
    ensures forall i :: 0 < i < |c| ==> d[i] == c[i] - c[i - 1]
    ensures |c| > 0 ==> d[0] == 0.0
  {
    seq(|c|, i requires 0 <= i < |c| => if i == 0 then 0.0 else c[i] - c[i - 1])
  }

  function Gains(d: seq<real>): (g: seq<real>)
    ensures |g| == |d| && forall i :: 0 <= i < |d| ==> g[i] >= 0.0 && (d[i] > 0.0 ==> g[i] == d[i]) && (d[i] <= 0.0 ==> g[i] == 0.0)
  {
    seq(|d|, i requires 0 <= i < |d| => if d[i] > 0.0 then d[i] else 0.0)
  }

  function Losses(d: seq<real>): (l: seq<real>)
    ensures |l| == |d| && forall i :: 0 <= i < |d| ==> l[i] >= 0.0 && (d[i] < 0.0 ==> l[i] == -d[i]) && (d[i] >= 0.0 ==> l[i] == 0.0)
  {
    seq(|d|, i requires 0 <= i < |d| => if d[i] < 0.0 then -d[i] else 0.0)
  }

  lemma {:induction false} SumNonNegative(s: seq<real>)
    requires forall i :: 0 <= i < |s| ==> s[i] >= 0.0
    ensures Sum(s) >= 0.0
  {
    if s != [] {
      SumNonNegative(s[..|s| - 1]);
    }
  }

  lemma {:induction false} SumZero(s: seq<real>)
    requires forall i :: 0 <= i < |s| ==> s[i] == 0.0
    ensures Sum(s) == 0.0
  {
    if s != [] {
      SumZero(s[..|s| - 1]);
    }
  }

  /** A window of non-negative values has a non-negative sum. */
  lemma WindowSumNonNegative(x: seq<real>, lo: int, hi: int)
    requires 0 <= lo <= hi <= |x| && forall j :: 0 <= j < |x| ==> x[j] >= 0.0
    ensures Sum(x[lo..hi]) >= 0.0
  {
    var w := x[lo..hi];
    forall j | 0 <= j < |w| ensures w[j] >= 0.0 {
      assert w[j] == x[lo + j];
    }
    SumNonNegative(w);
  }

  lemma QuotientNonNegative(a: real, b: real)
    requires a >= 0.0 && b > 0.0
    ensures a / b >= 0.0
  {
  }

  /** The mean of the window of p values ending at index i. */
  function TrailingMean(x: seq<real>, p: int, i: int): real
    requires 1 <= p && p - 1 <= i < |x|
  {
    Sum(x[i - p + 1..i + 1]) / p as real
  }

  lemma TrailingMeanNonNegative(x: seq<real>, p: int, i: int)
    requires 1 <= p && p - 1 <= i < |x|
    requires forall j :: 0 <= j < |x| ==> x[j] >= 0.0
    ensures TrailingMean(x, p, i) >= 0.0
  {
    WindowSumNonNegative(x, i - p + 1, i + 1);
    QuotientNonNegative(Sum(x[i - p + 1..i + 1]), p as real);
  }

  /** 100 - 100 / (1 + gain / loss') with a zero loss replaced by 1. */
  function PatchedRsi(avgGain: real, avgLoss: real): (r: real)
    requires avgGain >= 0.0 && avgLoss >= 0.0
    ensures 0.0 <= r < 100.0
  {
    var rs := avgGain / (if avgLoss == 0.0 then 1.0 else avgLoss);
    assert rs >= 0.0;
    100.0 - 100.0 / (1.0 + rs)
  }

  /** The RSI column as the script builds it: 50 for the first p-1 bars,
      then the patched RSI of the trailing windows. */
  function PaddedRsi(c: seq<real>, p: int): (r: seq<real>)
    requires 1 <= p <= |c|
    ensures |r| == |c|
    ensures forall i :: 0 <= i < p - 1 ==> r[i] == 50.0
    ensures forall i :: 0 <= i < |c| ==> 0.0 <= r[i] < 100.0
  {
    var g := Gains(Deltas(c));
    var l := Losses(Deltas(c));
    seq(|c|, i requires 0 <= i < |c| =>
      if i < p - 1 then 50.0
      else
        TrailingMeanNonNegative(g, p, i);
        TrailingMeanNonNegative(l, p, i);
        PatchedRsi(TrailingMean(g, p, i), TrailingMean(l, p, i)))
  }

  /** On a series that only rises, the patched RSI reads 20, below an
      oversold level of 25, instead of the maximum. */
  lemma RisingSeriesReadsOversold()
    ensures PaddedRsi([100.0, 100.25, 100.5], 2)[2] == 20.0
    ensures RsiVote(PaddedRsi([100.0, 100.25, 100.5], 2)[2], 25.0, 75.0).buy
  {
    var c := [100.0, 100.25, 100.5];
    var g := Gains(Deltas(c));
    var l := Losses(Deltas(c));
    assert g[1..3] == [0.25, 0.25];
    assert l[1..3] == [0.0, 0.0];
    assert Sum([0.25, 0.25]) == 0.5 by {
      assert [0.25, 0.25][..1] == [0.25];
      assert [0.25][..0] == [];
    }
    assert Sum([0.0, 0.0]) == 0.0 by {
      assert [0.0, 0.0][..1] == [0.0];
      assert [0.0][..0] == [];
    }
    assert TrailingMean(g, 2, 2) == 0.25;
    assert TrailingMean(l, 2, 2) == 0.0;
  }

  /** The RSI with the cap the sibling scripts use: rs = 100 when the
      average loss is zero. */
  function CappedRsi(avgGain: real, avgLoss: real): (r: real)
    requires avgGain >= 0.0 && avgLoss >= 0.0
    ensures 0.0 <= r < 100.0
    ensures avgLoss == 0.0 ==> r > 99.0
    ensures avgLoss > 0.0 ==> r == PatchedRsi(avgGain, avgLoss)
  {
    var rs := if avgLoss > 0.0 then avgGain / avgLoss else 100.0;
    assert rs >= 0.0;
    100.0 - 100.0 / (1.0 + rs)
  }

  /** The padded RSI built on the capped formula. */
  function CorrectedPaddedRsi(c: seq<real>, p: int): (r: seq<real>)
    requires 1 <= p <= |c|
    ensures |r| == |c|
    ensures forall i :: 0 <= i < p - 1 ==> r[i] == 50.0
    ensures forall i :: 0 <= i < |c| ==> 0.0 <= r[i] < 100.0
  {
    var g := Gains(Deltas(c));
    var l := Losses(Deltas(c));
    seq(|c|, i requires 0 <= i < |c| =>
      if i < p - 1 then 50.0
      else
        TrailingMeanNonNegative(g, p, i);
        TrailingMeanNonNegative(l, p, i);
        CappedRsi(TrailingMean(g, p, i), TrailingMean(l, p, i)))
  }

  /** With the cap, a window in which the price never falls reads above
      99, so it never votes oversold at any level up to 99. */
  lemma NoFallNoOversold(c: seq<real>, p: int, i: int, oversold: real)
    requires 1 <= p <= |c| && p - 1 <= i < |c| && oversold <= 99.0
    requires forall j :: i - p + 1 <= j <= i && 0 < j ==> c[j - 1] <= c[j]
    ensures CorrectedPaddedRsi(c, p)[i] > 99.0
    ensures !RsiVote(CorrectedPaddedRsi(c, p)[i], oversold, 100.0).buy
  {
    var d := Deltas(c);
    var g, l := Gains(d), Losses(d);
    NoFallNoLoss(c, p, i);
    TrailingMeanNonNegative(g, p, i);
    assert CorrectedPaddedRsi(c, p)[i] == CappedRsi(TrailingMean(g, p, i), TrailingMean(l, p, i));
  }

  /** A window in which the price never falls has no average loss. */
  lemma NoFallNoLoss(c: seq<real>, p: int, i: int)
    requires 1 <= p <= |c| && p - 1 <= i < |c|
    requires forall j :: i - p + 1 <= j <= i && 0 < j ==> c[j - 1] <= c[j]
    ensures TrailingMean(Losses(Deltas(c)), p, i) == 0.0
  {
    var l := Losses(Deltas(c));
    forall k | i - p + 1 <= k <= i ensures l[k] == 0.0 {
      NoLossAt(c, k);
    }
    ZeroWindowMean(l, p, i);
  }

  lemma ZeroWindowMean(x: seq<real>, p: int, i: int)
    requires 1 <= p && p - 1 <= i < |x| && forall k :: i - p + 1 <= k <= i ==> x[k] == 0.0
    ensures TrailingMean(x, p, i) == 0.0
  {
    var w := x[i - p + 1..i + 1];
    forall j | 0 <= j < |w| ensures w[j] == 0.0 {
      assert w[j] == x[i - p + 1 + j];
    }
    SumZero(w);
  }

  lemma NoLossAt(c: seq<real>, k: int)
    requires 0 <= k < |c| && (k > 0 ==> c[k - 1] <= c[k])
    ensures Losses(Deltas(c))[k] == 0.0
  {
    var d := Deltas(c);
    assert d[k] >= 0.0;
  }

  // ---------------------------------------------------------------------
  // The RSI of the two-symbol scripts: np.convolve(., ones(p)/p, 'same')
  // of the gains and losses, with rs = 100 where the average loss is 0.

  function Clip(k: int, n: int): (r: int)
    requires 0 <= n
    ensures 0 <= r <= n
    ensures 0 <= k <= n ==> r == k
  {
    if k < 0 then 0 else if k > n then n else k
  }

  /** The 'same' output at index i: the sum of the window from
      i - p/2 to i + (p-1)/2, clipped to the series, over p. */
  function CentredMean(x: seq<real>, p: int, i: int): real
    requires 1 <= p && 0 <= i < |x|
  {
    var lo := Clip(i - p / 2, |x|);
    var hi := Clip(i + (p - 1) / 2 + 1, |x|);
    if lo <= hi then Sum(x[lo..hi]) / p as real else 0.0
  }

  /** The causal window: the p values ending at index i, clipped at the
      start of the series, over p. */
  function PastMean(x: seq<real>, p: int, i: int): real
    requires 1 <= p && 0 <= i < |x|
  {
    Sum(x[Clip(i - p + 1, |x|)..i + 1]) / p as real
  }

  lemma CentredMeanNonNegative(x: seq<real>, p: int, i: int)
    requires 1 <= p && 0 <= i < |x| && forall j :: 0 <= j < |x| ==> x[j] >= 0.0
    ensures CentredMean(x, p, i) >= 0.0
  {
    var lo := Clip(i - p / 2, |x|);
    var hi := Clip(i + (p - 1) / 2 + 1, |x|);
    assert CentredMean(x, p, i) == if lo <= hi then Sum(x[lo..hi]) / p as real else 0.0;
    if lo <= hi {
      WindowSumNonNegative(x, lo, hi);
      QuotientNonNegative(Sum(x[lo..hi]), p as real);
    }
  }

  lemma PastMeanNonNegative(x: seq<real>, p: int, i: int)
    requires 1 <= p && 0 <= i < |x| && forall j :: 0 <= j < |x| ==> x[j] >= 0.0
    ensures PastMean(x, p, i) >= 0.0
  {
    var lo := Clip(i - p + 1, |x|);
    WindowSumNonNegative(x, lo, i + 1);
    QuotientNonNegative(Sum(x[lo..i + 1]), p as real);
  }

  function CentredRsiAt(c: seq<real>, p: int, i: int): (r: real)
    requires 1 <= p && 0 <= i < |c|
    ensures 0.0 <= r < 100.0
  {
    var g := Gains(Deltas(c));
    var l := Losses(Deltas(c));
    CentredMeanNonNegative(g, p, i);
    CentredMeanNonNegative(l, p, i);
    CappedRsi(CentredMean(g, p, i), CentredMean(l, p, i))
  }

  /** The RSI as the two-symbol scripts compute it. */
  function CentredRsi(c: seq<real>, p: int): (r: seq<real>)
    requires 1 <= p
    ensures |r| == |c| && forall i :: 0 <= i < |c| ==> r[i] == CentredRsiAt(c, p, i)
  {
    seq(|c|, i requires 0 <= i < |c| => CentredRsiAt(c, p, i))
  }

  function PastRsiAt(c: seq<real>, p: int, i: int): (r: real)
    requires 1 <= p && 0 <= i < |c|
    ensures 0.0 <= r < 100.0
  {
    var g := Gains(Deltas(c));
    var l := Losses(Deltas(c));
    PastMeanNonNegative(g, p, i);
    PastMeanNonNegative(l, p, i);
    CappedRsi(PastMean(g, p, i), PastMean(l, p, i))
  }

  /** The same formula on the causal window. */
  function PastRsi(c: seq<real>, p: int): (r: seq<real>)
    requires 1 <= p
    ensures |r| == |c| && forall i :: 0 <= i < |c| ==> r[i] == PastRsiAt(c, p, i)
  {
    seq(|c|, i requires 0 <= i < |c| => PastRsiAt(c, p, i))
  }

  lemma Sum3(a: real, b: real, c: real)
    ensures Sum([a, b, c]) == a + b + c
  {
    assert [a][..0] == [];
    assert Sum([a]) == a;
    assert [a, b][..1] == [a];
    assert Sum([a, b]) == a + b;
    assert [a, b, c][..2] == [a, b];
  }

  /** The centred window reaches (p-1)/2 bars past the bar it is read at:
      two series that agree up to bar 1 read different RSI values at bar 1
      with p = 3, because their bar 2 differs. */
  lemma CentredRsiSeesTheFuture()
    ensures [100.0, 101.0, 102.0][..2] == [100.0, 101.0, 100.0][..2]
    ensures CentredRsi([100.0, 101.0, 102.0], 3)[1] != CentredRsi([100.0, 101.0, 100.0], 3)[1]
  {
    RisingCentredRsi();
    TurningCentredRsi();
  }

  /** Rising closes: no loss in the centred window, so the RSI is above 99. */
  lemma RisingCentredRsi()
    ensures CentredRsi([100.0, 101.0, 102.0], 3)[1] > 99.0
  {
    var up := [100.0, 101.0, 102.0];
    var l := Losses(Deltas(up));
    assert l == [0.0, 0.0, 0.0];
    CentredMeanOfThree(l);
    assert CentredRsi(up, 3)[1] == CentredRsiAt(up, 3, 1);
  }

  /** A fall at the next bar: equal gain and loss in the centred window, so
      the RSI is 50. */
  lemma TurningCentredRsi()
    ensures CentredRsi([100.0, 101.0, 100.0], 3)[1] == 50.0
  {
    var back := [100.0, 101.0, 100.0];
    var g, l := Gains(Deltas(back)), Losses(Deltas(back));
    assert g == [0.0, 1.0, 0.0] && l == [0.0, 0.0, 1.0];
    CentredMeanOfThree(g);
    CentredMeanOfThree(l);
    assert CentredRsiAt(back, 3, 1) == CappedRsi(1.0 / 3.0, 1.0 / 3.0);
    assert CentredRsi(back, 3)[1] == CentredRsiAt(back, 3, 1);
  }

  /** The centred window of width 3 at index 1 of three values is all of
      them. */
  lemma CentredMeanOfThree(x: seq<real>)
    requires |x| == 3
    ensures CentredMean(x, 3, 1) == (x[0] + x[1] + x[2]) / 3.0
  {
    assert x[0..3] == x == [x[0], x[1], x[2]];
    Sum3(x[0], x[1], x[2]);
  }

  /** The causal RSI at bar i depends on the closes up to bar i only. */
  lemma PastRsiIsCausal(c: seq<real>, d: seq<real>, p: int, i: int)
    requires 1 <= p && 0 <= i < |c| && i < |d| && c[..i + 1] == d[..i + 1]
    ensures PastRsi(c, p)[i] == PastRsi(d, p)[i]
  {
    var dc, dd := Deltas(c), Deltas(d);
    PrefixDeltas(c, d, i + 1);
    PrefixGainsLosses(dc, dd, i + 1);
    PrefixPastMean(Gains(dc), Gains(dd), p, i);
    PrefixPastMean(Losses(dc), Losses(dd), p, i);
    assert PastRsi(c, p)[i] == PastRsiAt(c, p, i);
    assert PastRsi(d, p)[i] == PastRsiAt(d, p, i);
  }

  lemma PrefixDeltas(c: seq<real>, d: seq<real>, n: int)
    requires 0 <= n <= |c| && n <= |d| && c[..n] == d[..n]
    ensures Deltas(c)[..n] == Deltas(d)[..n]
  {
    forall j | 0 <= j < n ensures Deltas(c)[j] == Deltas(d)[j] {
      assert c[j] == c[..n][j] && d[j] == d[..n][j];
      if j > 0 {
        assert c[j - 1] == c[..n][j - 1] && d[j - 1] == d[..n][j - 1];
      }
    }
  }

  lemma PrefixGainsLosses(x: seq<real>, y: seq<real>, n: int)
    requires 0 <= n <= |x| && n <= |y| && x[..n] == y[..n]
    ensures Gains(x)[..n] == Gains(y)[..n] && Losses(x)[..n] == Losses(y)[..n]
  {
    forall j | 0 <= j < n ensures x[j] == y[j] {
      assert x[j] == x[..n][j] && y[j] == y[..n][j];
    }
  }

  lemma PrefixPastMean(x: seq<real>, y: seq<real>, p: int, i: int)
    requires 1 <= p && 0 <= i < |x| && i < |y| && x[..i + 1] == y[..i + 1]
    ensures PastMean(x, p, i) == PastMean(y, p, i)
  {
    var lo := Clip(i - p + 1, |x|);
    assert lo == Clip(i - p + 1, |y|);
    assert x[lo..i + 1] == x[..i + 1][lo..];
    assert y[lo..i + 1] == y[..i + 1][lo..];
  }
}
