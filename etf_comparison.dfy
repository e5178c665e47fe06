// compare_etfs: the daily engine run over several signal / leveraged ETF
// pairs, each summarised against buy-and-hold of its signal ETF, and the
// summaries ranked by return.
module EtfComparison {
  import opened Core
  import opened DailySma
  import opened DailyEngine

  /** The dict run_backtest returns for one pair. */
  datatype Summary = Summary(name: string, final: real, returnPct: real, bhFinal: real, bhReturn: real, alpha: real,
                             trades: nat, winRate: real, avgWin: real, avgLoss: real)

  /** Both scripts' parameters, at the defaults. */
  const Capital: real := 10000.0
  const MinRows: nat := 10

  /** `pnl_pct` of a completed trade. */
  function PnlPct(t: Closed): real
    requires t.entryPrice != 0.0
  {
    (t.exitPrice / t.entryPrice - 1.0) * 100.0
  }

  function Winners(trades: seq<Closed>): (w: seq<Closed>)
    ensures |w| <= |trades|
    ensures forall j :: 0 <= j < |w| ==> w[j] in trades && w[j].pnl > 0.0
    ensures forall t :: t in trades && t.pnl > 0.0 ==> t in w
  {
    if trades == [] then []
    else
      var w := Winners(trades[..|trades| - 1]);
      assert forall t :: t in trades[..|trades| - 1] ==> t in trades;
      assert trades == trades[..|trades| - 1] + [trades[|trades| - 1]];
      if trades[|trades| - 1].pnl > 0.0 then w + [trades[|trades| - 1]] else w
  }

  function Losers(trades: seq<Closed>): (l: seq<Closed>)
    ensures |l| <= |trades|
    ensures forall j :: 0 <= j < |l| ==> l[j] in trades && l[j].pnl < 0.0
    ensures forall t :: t in trades && t.pnl < 0.0 ==> t in l
  {
    if trades == [] then []
    else
      var l := Losers(trades[..|trades| - 1]);
      assert forall t :: t in trades[..|trades| - 1] ==> t in trades;
      assert trades == trades[..|trades| - 1] + [trades[|trades| - 1]];
      if trades[|trades| - 1].pnl < 0.0 then l + [trades[|trades| - 1]] else l
  }

  /** `len(winning) / len(trades) * 100 if trades else 0` */
  function WinRate(trades: seq<Closed>): (r: real)
    ensures 0.0 <= r <= 100.0
    ensures trades == [] ==> r == 0.0
    ensures r == 100.0 <==> trades != [] && |Winners(trades)| == |trades|
  {
    if trades == [] then 0.0
    else
      var w, n := |Winners(trades)| as real, |trades| as real;
      Percentage(w, n);
      w / n * 100.0
  }

  function SumPct(trades: seq<Closed>): real
    requires forall j :: 0 <= j < |trades| ==> trades[j].entryPrice != 0.0
  {
    if trades == [] then 0.0 else SumPct(trades[..|trades| - 1]) + PnlPct(trades[|trades| - 1])
  }

  /** `np.mean([t['pnl_pct'] for t in ts]) if ts else 0` */
  function MeanPct(trades: seq<Closed>): real
    requires forall j :: 0 <= j < |trades| ==> trades[j].entryPrice != 0.0
  {
    if trades == [] then 0.0 else SumPct(trades) / |trades| as real
  }

  /** The opens and the first signal close can be divided by. */
  predicate Divisible(rows: seq<Day>)
  {
    OpensDivisible(rows) && (|rows| > 0 ==> rows[0].close != 0.0)
  }

  /** The run of one pair (lines 30-165). `signal` and `trade` are the two
      downloads. */
  function RunPair(signal: seq<DailyBar>, trade: map<int, Ohlc>, name: string): (r: Option<Summary>)
    requires Divisible(Align(signal, trade, Defaults.smaPeriod, Defaults.startDay, |signal|))
    ensures r.None? <==> signal == [] || |trade| == 0 || |Align(signal, trade, Defaults.smaPeriod, Defaults.startDay, |signal|)| < MinRows
    ensures r.Some? ==> r.value.final == Capital + TotalPnl(Backtest(Defaults, Align(signal, trade, Defaults.smaPeriod, Defaults.startDay, |signal|)).trades)
    ensures r.Some? ==> r.value.alpha == r.value.returnPct - r.value.bhReturn && 0.0 <= r.value.winRate <= 100.0
  {
    if signal == [] || |trade| == 0 then None
    else
      var rows := Align(signal, trade, Defaults.smaPeriod, Defaults.startDay, |signal|);
      if |rows| < MinRows then None
      else
        var result := Backtest(Defaults, rows);
        BacktestPriced(Defaults, rows);
        var trades := result.trades;
        var bhReturn := (rows[|rows| - 1].close / rows[0].close - 1.0) * 100.0;
        var bhFinal := Capital * (1.0 + bhReturn / 100.0);
        var totalReturn := (result.portfolio / Capital - 1.0) * 100.0;
        var winning, losing := Winners(trades), Losers(trades);
        assert forall j :: 0 <= j < |winning| ==> winning[j].entryPrice != 0.0;
        assert forall j :: 0 <= j < |losing| ==> losing[j].entryPrice != 0.0;
        Some(Summary(name, result.portfolio, totalReturn, bhFinal, bhReturn, totalReturn - bhReturn,
                     |trades|, WinRate(trades), MeanPct(winning), MeanPct(losing)))
  }

  // ---- the two buy-and-hold formulas ----

  /** compare_etfs.py's `CAPITAL * (1 + bh_return / 100)` with
      `bh_return = (end / start - 1) * 100` is backtest_v3.py's
      `capital * (end / start)`. */
  lemma BuyAndHoldFormulasAgree(rows: seq<Day>)
    requires |rows| > 0 && rows[0].close != 0.0
    ensures var bhReturn := (rows[|rows| - 1].close / rows[0].close - 1.0) * 100.0;
      Capital * (1.0 + bhReturn / 100.0) == BuyAndHold(Capital, rows)
  {
  }

  /** The alpha is positive exactly when the strategy ends above
      buy-and-hold. */
  lemma AlphaSign(s: Summary)
    requires s.returnPct == (s.final / Capital - 1.0) * 100.0
    requires s.bhReturn == (s.bhFinal / Capital - 1.0) * 100.0
    requires s.alpha == s.returnPct - s.bhReturn
    ensures s.alpha > 0.0 <==> s.final > s.bhFinal
    ensures s.alpha == (s.final - s.bhFinal) / Capital * 100.0
  {
  }

  // ---- the ranking (lines 176-187) ----

  /** `if result: results.append(result)` */
  function Collect(outcomes: seq<Option<Summary>>): (rs: seq<Summary>)
    ensures forall s :: s in rs <==> Some(s) in outcomes
    ensures |rs| <= |outcomes|
  {
    if outcomes == [] then []
    else
      var rest := Collect(outcomes[..|outcomes| - 1]);
      var last := outcomes[|outcomes| - 1];
      assert outcomes == outcomes[..|outcomes| - 1] + [last];
      if last.Some? then rest + [last.value] else rest
  }

  predicate RankedDesc(rs: seq<Summary>)
  {
    forall i, j :: 0 <= i < j < |rs| ==> rs[j].returnPct <= rs[i].returnPct
  }

  /** How many leading summaries return at least v. */
  function Place(rs: seq<Summary>, v: real): (p: nat)
    ensures p <= |rs|
    ensures forall i :: 0 <= i < p ==> rs[i].returnPct >= v
    ensures p < |rs| ==> rs[p].returnPct < v
  {
    if rs == [] || rs[0].returnPct < v then 0 else 1 + Place(rs[1..], v)
  }

  /** A later summary goes after every one returning as much (the sort is
      stable). */
  function PlaceIn(rs: seq<Summary>, s: Summary): (ys: seq<Summary>)
    ensures multiset(ys) == multiset(rs) + multiset{s}
  {
    var p := Place(rs, s.returnPct);
    assert rs == rs[..p] + rs[p..];
    rs[..p] + [s] + rs[p..]
  }

  /** `results.sort(key=lambda x: x['return_pct'], reverse=True)` */
  function Ranked(rs: seq<Summary>): (ys: seq<Summary>)
    ensures multiset(ys) == multiset(rs)
  {
    if rs == [] then []
    else
      assert rs == rs[..|rs| - 1] + [rs[|rs| - 1]];
      PlaceIn(Ranked(rs[..|rs| - 1]), rs[|rs| - 1])
  }

  lemma PlaceInRanked(rs: seq<Summary>, s: Summary)
    requires RankedDesc(rs)
    ensures RankedDesc(PlaceIn(rs, s))
  {
    var p := Place(rs, s.returnPct);
    var ys := PlaceIn(rs, s);
    assert ys == rs[..p] + [s] + rs[p..];
    forall i, j | 0 <= i < j < |ys| ensures ys[j].returnPct <= ys[i].returnPct {
      var ri := if i < p then rs[i] else if i == p then s else rs[i - 1];
      var rj := if j < p then rs[j] else if j == p then s else rs[j - 1];
      assert ys[i] == ri && ys[j] == rj;
    }
  }

  /** The ranking is a permutation of the results in descending order of
      return. */
  lemma {:induction false} RankedIsSorted(rs: seq<Summary>)
    ensures RankedDesc(Ranked(rs)) && multiset(Ranked(rs)) == multiset(rs)
  {
    if rs != [] {
      RankedIsSorted(rs[..|rs| - 1]);
      PlaceInRanked(Ranked(rs[..|rs| - 1]), rs[|rs| - 1]);
    }
  }
}
