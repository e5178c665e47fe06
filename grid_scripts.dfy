// The run_backtest / backtest functions of the grid-search scripts: the
// length guards, the indicator columns, the strategy table, the
// stop-loss / take-profit simulation and the metrics each one reports.
module GridScripts {
  import opened Core
  import opened Fills
  import opened SlTpSim
  import opened GridMetrics
  import opened GridSignals
  import opened Rounding

  /** Which profit factor a script reports, if any. */
  datatype PfRule = NoPf | Guarded(fallback: real) | Floored | Strict | Unguarded | Checked

  /** What a script keeps of each trade and counts wins, losses and the
      equity curve on: the pnl itself, the pnl rounded to some digits, or
      the percentage return rounded to some digits. */
  datatype Stored = RawPnl | RoundedPnl(digits: nat) | RoundedPct(digits: nat)

  function StoredValue(s: Stored, f: Fill): real
  {
    match s
    case RawPnl => f.pnl
    case RoundedPnl(d) => RoundTo(f.pnl, d)
    case RoundedPct(d) => RoundTo(f.ret * 100.0, d)
  }

  function StoredValues(s: Stored, ts: seq<Fill>): (vs: seq<real>)
    ensures |vs| == |ts| && forall k :: 0 <= k < |ts| ==> vs[k] == StoredValue(s, ts[k])
  {
    seq(|ts|, k requires 0 <= k < |ts| => StoredValue(s, ts[k]))
  }

  /** Whether a trade counts as a win once stored: a positive pnl, or one
      that is still positive after rounding, that is more than half a unit
      of the last digit kept. */
  predicate Wins(s: Stored, f: Fill)
  {
    match s
    case RawPnl => f.pnl > 0.0
    case RoundedPnl(d) => Scaled(f.pnl, d) > 0.5
    case RoundedPct(d) => Scaled(f.ret * 100.0, d) > 0.5
  }

  /** A stored value is positive exactly when the trade wins by that rule:
      with rounding, a gain below half a unit of the last digit counts as a
      loss. */
  lemma StoredWins(s: Stored, f: Fill)
    ensures StoredValue(s, f) > 0.0 <==> Wins(s, f)
  {
    match s
    case RawPnl =>
    case RoundedPnl(d) => RoundPositive(f.pnl, d);
    case RoundedPct(d) => RoundPositive(f.ret * 100.0, d);
  }

  /** No win is reported exactly when no trade wins by the stored rule. */
  lemma NoStoredWins(s: Stored, ts: seq<Fill>)
    ensures WinCount(StoredValues(s, ts)) == 0 <==> forall k :: 0 <= k < |ts| ==> !Wins(s, ts[k])
  {
    var vs := StoredValues(s, ts);
    forall k | 0 <= k < |ts| ensures vs[k] > 0.0 <==> Wins(s, ts[k]) {
      StoredWins(s, ts[k]);
    }
  }

  lemma RawValuesArePnls(ts: seq<Fill>)
    ensures StoredValues(RawPnl, ts) == Pnls(ts)
  {
  }

  /** What differs between the scripts once the signal columns exist: the
      first bar the loop looks at, the fewest trades a result needs, the
      profit factor, whether a maximum drawdown is reported, what is stored
      of each trade and the digits the returned total return keeps. */
  datatype Config = Config(start: nat, minTrades: nat, pf: PfRule, drawdown: bool, stored: Stored, retDigits: nat,
                           avg: Averages)

  /** Whether a script reports avg_win and avg_loss, and over which
      pnl_pct: the exact percentage, or the one it stored rounded to some
      digits. */
  datatype Averages = NoAverages | OverPct | OverRoundedPct(digits: nat)

  /** The pnl_pct a script keeps of a trade for its averages. */
  function PctValue(a: Averages, f: Fill): real
  {
    match a
    case OverRoundedPct(d) => RoundTo(f.ret * 100.0, d)
    case _ => f.ret * 100.0
  }

  function PctValues(a: Averages, ts: seq<Fill>): (qs: seq<real>)
    ensures |qs| == |ts| && forall k :: 0 <= k < |ts| ==> qs[k] == PctValue(a, ts[k])
  {
    seq(|ts|, k requires 0 <= k < |ts| => PctValue(a, ts[k]))
  }

  /** `[t['pnl_pct'] for t in winning_trades]`: the percentages qs of the
      trades whose stored value in ps is positive, one per winner. */
  function WinnerPcts(ps: seq<real>, qs: seq<real>): (ws: seq<real>)
    requires |ps| == |qs|
    ensures |ws| == WinCount(ps)
    ensures forall j :: 0 <= j < |ws| ==> exists k :: 0 <= k < |ps| && ps[k] > 0.0 && ws[j] == qs[k]
  {
    if ps == [] then []
    else
      var n := |ps| - 1;
      var w := WinnerPcts(ps[..n], qs[..n]);
      if ps[n] > 0.0 then w + [qs[n]] else w
  }

  /** `[t['pnl_pct'] for t in losing_trades]`: the percentages of the
      trades whose stored value is at most zero, one per loser. */
  function LoserPcts(ps: seq<real>, qs: seq<real>): (ls: seq<real>)
    requires |ps| == |qs|
    ensures |ls| == LoseCount(ps)
    ensures forall j :: 0 <= j < |ls| ==> exists k :: 0 <= k < |ps| && ps[k] <= 0.0 && ls[j] == qs[k]
  {
    if ps == [] then []
    else
      var n := |ps| - 1;
      var l := LoserPcts(ps[..n], qs[..n]);
      if ps[n] <= 0.0 then l + [qs[n]] else l
  }

  /** A trade whose stored value is positive has a positive return, so the
      percentage kept for the averages is at least zero, and positive when
      it is exact; a trade stored at most zero by its exact pnl has a return
      at most zero. */
  lemma PctSigns(cfg: Config, ts: seq<Fill>)
    requires SignsAgree(ts)
    ensures var ps, qs := StoredValues(cfg.stored, ts), PctValues(cfg.avg, ts);
      forall k :: 0 <= k < |ts| ==>
        (ps[k] > 0.0 ==> qs[k] >= 0.0)
        && (cfg.avg.OverPct? && cfg.stored.RawPnl? ==> (ps[k] > 0.0 <==> qs[k] > 0.0))
  {
    var ps, qs := StoredValues(cfg.stored, ts), PctValues(cfg.avg, ts);
    forall k | 0 <= k < |ts|
      ensures ps[k] > 0.0 ==> qs[k] >= 0.0
      ensures cfg.avg.OverPct? && cfg.stored.RawPnl? ==> (ps[k] > 0.0 <==> qs[k] > 0.0)
    {
      var f := ts[k];
      assert f.pnl > 0.0 <==> f.ret > 0.0;
      match cfg.stored
      case RawPnl =>
      case RoundedPnl(d) => RoundKeepsSign(f.pnl, d);
      case RoundedPct(d) => RoundKeepsSign(f.ret * 100.0, d);
      if ps[k] > 0.0 && cfg.avg.OverRoundedPct? {
        RoundMonotone(0.0, f.ret * 100.0, cfg.avg.digits);
        RoundWhole(0, cfg.avg.digits);
      }
    }
  }

  /** avg_win and avg_loss: at least zero, and zero without winners; the
      average loss is zero without losers; over the exact pnl and
      percentage the average win is positive exactly when some trade won,
      and the average loss is at most zero. */
  lemma AverageBounds(cfg: Config, ts: seq<Fill>)
    requires SignsAgree(ts)
    ensures var ps, qs := StoredValues(cfg.stored, ts), PctValues(cfg.avg, ts);
      var w, l := Mean(WinnerPcts(ps, qs)), Mean(LoserPcts(ps, qs));
      w >= 0.0 && (WinCount(ps) == 0 ==> w == 0.0) && (LoseCount(ps) == 0 ==> l == 0.0)
      && (cfg.avg.OverPct? && cfg.stored.RawPnl? ==> (w > 0.0 <==> WinCount(ps) > 0) && l <= 0.0)
  {
    var ps, qs := StoredValues(cfg.stored, ts), PctValues(cfg.avg, ts);
    var ws, ls := WinnerPcts(ps, qs), LoserPcts(ps, qs);
    PctSigns(cfg, ts);
    forall j | 0 <= j < |ws| ensures ws[j] >= 0.0 && (cfg.avg.OverPct? && cfg.stored.RawPnl? ==> ws[j] > 0.0) {
      var k :| 0 <= k < |ps| && ps[k] > 0.0 && ws[j] == qs[k];
    }
    forall j | 0 <= j < |ls| ensures cfg.avg.OverPct? && cfg.stored.RawPnl? ==> ls[j] <= 0.0 {
      var k :| 0 <= k < |ps| && ps[k] <= 0.0 && ls[j] == qs[k];
    }
    MeanSigns(ws);
    MeanSigns(ls);
  }

  /** The reported metrics: the total return is rounded as the scripts
      return it; the rates, profit factor, drawdown and final capital are
      the exact values those rounded figures are taken from. */
  datatype Report = Report(totalReturn: real, numTrades: nat, winRate: real, profitFactor: Option<real>,
                           avgWin: Option<real>, avgLoss: Option<real>, maxDrawdown: Option<real>, finalCapital: real)

  /** None when no profit factor is reported, or when the unguarded rule
      divides by a zero loss sum. */
  function ProfitFactorOf(rule: PfRule, ps: seq<real>): (pf: Option<real>)
    ensures pf.None? <==> rule.NoPf? || (rule.Unguarded? && LoseCount(ps) > 0 && LossTotal(ps) == 0.0)
    ensures pf.Some? ==> pf.value >= 0.0 && (pf.value == 0.0 <==> WinCount(ps) == 0)
  {
    match rule
    case NoPf => None
    case Guarded(fallback) => Some(GuardedProfitFactor(ps, fallback))
    case Floored => Some(FlooredProfitFactor(ps))
    case Strict => Some(StrictProfitFactor(ps))
    case Unguarded => UnguardedProfitFactor(ps)
    case Checked => Some(CheckedProfitFactor(ps))
  }

  /** The fewest trades for which a script reports a result. */
  function Needed(cfg: Config): nat
  {
    if cfg.minTrades > 1 then cfg.minTrades else 1
  }

  /** The metrics of a finished trade list: the rounded return and the
      win rate, profit factor and drawdown of the stored values. */
  function ReportOf(cfg: Config, ts: seq<Fill>, capital: real): Report
    requires |ts| > 0
  {
    var ps := StoredValues(cfg.stored, ts);
    var qs := PctValues(cfg.avg, ts);
    var eq := Curve(InitialCapital, ps);
    Report(RoundTo((capital - InitialCapital) / InitialCapital * 100.0, cfg.retDigits), |ts|, WinRate(ps),
           ProfitFactorOf(cfg.pf, ps),
           if cfg.avg.NoAverages? then None else Some(Mean(WinnerPcts(ps, qs))),
           if cfg.avg.NoAverages? then None else Some(Mean(LoserPcts(ps, qs))),
           if cfg.drawdown then Some(MaxDrawdownOf(eq, |eq|)) else None,
           capital)
  }

  /** The report of a simulated series, or None when it has too few trades. */
  function Evaluation(cfg: Config, lim: Limits, x: Series): Option<Report>
    requires WellFormed(x) && |x.closes| > 0
  {
    var sim := Simulation(lim, x, cfg.start);
    if |sim.trades| < Needed(cfg) then None
    else Some(ReportOf(cfg, sim.trades, sim.capital))
  }

  /** What every reported result satisfies under a configuration. */
  predicate Sensible(cfg: Config, r: Report)
  {
    r.numTrades >= Needed(cfg)
    && r.finalCapital > 0.0
    && r.totalReturn >= -100.0
    && 0.0 <= r.winRate <= 100.0
    && (r.profitFactor.Some? ==> !cfg.pf.NoPf? && r.profitFactor.value >= 0.0)
    && (r.profitFactor.None? ==> cfg.pf.NoPf? || cfg.pf.Unguarded?)
    && (r.avgWin.Some? <==> !cfg.avg.NoAverages?) && (r.avgLoss.Some? <==> !cfg.avg.NoAverages?)
    && (r.avgWin.Some? ==> r.avgWin.value >= 0.0 && (r.winRate == 0.0 ==> r.avgWin.value == 0.0))
    && (r.avgLoss.Some? ==> (r.winRate == 100.0 ==> r.avgLoss.value == 0.0))
    && (cfg.avg.OverPct? && cfg.stored.RawPnl? && r.avgWin.Some? ==> (r.avgWin.value > 0.0 <==> r.winRate > 0.0))
    && (cfg.avg.OverPct? && cfg.stored.RawPnl? && r.avgLoss.Some? ==> r.avgLoss.value <= 0.0)
    && (r.maxDrawdown.Some? <==> cfg.drawdown)
    && (r.maxDrawdown.Some? ==> 0.0 <= r.maxDrawdown.value && (cfg.stored.RawPnl? ==> r.maxDrawdown.value <= 100.0))
  }

  /** A reported result has enough trades, ends with positive capital equal
      to the initial capital plus the trades' pnl, so its rounded return is
      not below -100 percent; its win rate lies in [0, 100], and so does its
      drawdown when the curve runs over the exact pnl. */
  lemma EvaluationFacts(cfg: Config, lim: Limits, x: Series)
    requires WellFormed(x) && |x.closes| > 0
    ensures var sim := Simulation(lim, x, cfg.start);
      Evaluation(cfg, lim, x).None? <==> |sim.trades| < Needed(cfg)
    ensures var r := Evaluation(cfg, lim, x); var sim := Simulation(lim, x, cfg.start);
      r.Some? ==>
        r.value.numTrades == |sim.trades|
        && r.value.finalCapital == InitialCapital + Sum(Pnls(sim.trades))
        && Sensible(cfg, r.value)
  {
    var sim := Simulation(lim, x, cfg.start);
    SimulationSettles(lim, x, cfg.start);
    PnlsTotal(sim.trades);
    if |sim.trades| >= Needed(cfg) {
      StoredDrawdownBounded(cfg.stored, lim, x, cfg.start);
      SimulationSignsAgree(lim, x, cfg.start);
      ReportSensible(cfg, sim.trades, sim.capital);
    }
  }

  /** The report of enough trades with a positive final capital is
      sensible. */
  lemma ReportSensible(cfg: Config, ts: seq<Fill>, capital: real)
    requires |ts| >= Needed(cfg) && capital > 0.0 && SignsAgree(ts)
    requires var eq := Curve(InitialCapital, StoredValues(cfg.stored, ts));
      0.0 <= MaxDrawdownOf(eq, |eq|) && (cfg.stored.RawPnl? ==> MaxDrawdownOf(eq, |eq|) <= 100.0)
    ensures Sensible(cfg, ReportOf(cfg, ts, capital))
  {
    ReturnAtLeastLoss(capital, cfg.retDigits);
    AverageBounds(cfg, ts);
    CountsSplit(StoredValues(cfg.stored, ts));
  }

  /** The drawdown of the stored-value curve is never negative, and at most
      100 percent when the curve runs over the exact pnl. */
  lemma StoredDrawdownBounded(st: Stored, lim: Limits, x: Series, start: nat)
    requires WellFormed(x) && |x.closes| > 0
    ensures var eq := Curve(InitialCapital, StoredValues(st, Simulation(lim, x, start).trades));
      0.0 <= MaxDrawdownOf(eq, |eq|) && (st.RawPnl? ==> MaxDrawdownOf(eq, |eq|) <= 100.0)
  {
    var ts := Simulation(lim, x, start).trades;
    var eq := Curve(InitialCapital, StoredValues(st, ts));
    MaxDrawdownBounds(eq, |eq|);
    if st.RawPnl? {
      RawValuesArePnls(ts);
      SimulationDrawdownBounded(lim, x, start);
    }
  }

  /** A positive final capital loses less than everything, and rounding
      cannot take the return below -100. */
  lemma ReturnAtLeastLoss(capital: real, d: nat)
    requires capital > 0.0
    ensures RoundTo((capital - InitialCapital) / InitialCapital * 100.0, d) >= -100.0
  {
    RoundMonotone(-100.0, (capital - InitialCapital) / InitialCapital * 100.0, d);
    RoundWhole(-100, d);
  }

  /** The simulation loop followed by the metric loops. */
  method Evaluate(cfg: Config, lim: Limits, x: Series) returns (r: Option<Report>)
    requires WellFormed(x) && 0 < |x.closes| && cfg.start <= |x.closes|
    ensures r == Evaluation(cfg, lim, x)
  {
    var capital, trades := Simulate(lim, x, cfg.start);
    if |trades| < Needed(cfg) {
      return None;
    }
    var ps := StoredValues(cfg.stored, trades);
    ghost var curve := Curve(InitialCapital, ps);
    var dd: Option<real> := None;
    if cfg.drawdown {
      var eq := EquityCurve(InitialCapital, ps);
      var m := MaxDrawdown(eq);
      dd := Some(m);
    }
    assert dd == if cfg.drawdown then Some(MaxDrawdownOf(curve, |curve|)) else None;
    var rep := ReportOf(cfg, trades, capital);
    assert rep.maxDrawdown == dd;
    r := Some(rep.(maxDrawdown := dd));
  }

  // ---------------------------------------------------------------------
  // Strategy tables and parameters.

  datatype Table = GridTable | ChunkedTable | PairTable | ComboTable | MacdTable

  function Decide(t: Table, name: string, v: Votes): (s: Signal)
    ensures s.buy ==> v.rsiBuy || v.macdBuy
    ensures s.sell ==> v.rsiSell || v.macdSell
    ensures t.MacdTable? ==> s == Signal(v.macdBuy, v.macdSell)
  {
    match t
    case GridTable => GridRule(name, v)
    case ChunkedTable => ChunkedRule(name, v)
    case PairTable => PairRule(name, v)
    case ComboTable => ComboRule(name, v)
    case MacdTable => Signal(v.macdBuy, v.macdSell)
  }

  function SignalsOf(t: Table, name: string, vs: seq<Votes>): (ss: seq<Signal>)
    ensures |ss| == |vs| && forall i :: 0 <= i < |vs| ==> ss[i] == Decide(t, name, vs[i])
  {
    seq(|vs|, i requires 0 <= i < |vs| => Decide(t, name, vs[i]))
  }

  /** One parameter combination of a grid. */
  datatype Params = Params(rsiPeriod: int, oversold: real, overbought: real,
                           macdFast: int, macdSlow: int, macdSignal: int,
                           stopLossPct: real, takeProfitPct: real, strategy: string)

  predicate PeriodsValid(prm: Params)
  {
    prm.rsiPeriod >= 1 && prm.macdFast >= 1 && prm.macdSlow >= 1 && prm.macdSignal >= 1
  }

  /** Percentages become fractions. */
  function LimitsOf(prm: Params): (lim: Limits)
    ensures lim.stopLoss * 100.0 == prm.stopLossPct && lim.takeProfit * 100.0 == prm.takeProfitPct
  {
    Limits(prm.stopLossPct / 100.0, prm.takeProfitPct / 100.0)
  }

  predicate Positive(c: seq<real>)
  {
    forall i :: 0 <= i < |c| ==> c[i] > 0.0
  }

  // ---------------------------------------------------------------------
  // The pandas scripts: indicators over the whole frame, dropna, then the
  // loop over every remaining row.

  function PandasFrame(c: seq<real>, prm: Params, mode: ZeroLoss): (rows: seq<Row>)
    requires PeriodsValid(prm)
    ensures |rows| == |c| && forall i :: 0 <= i < |c| ==> rows[i].close == c[i]
  {
    var line := MacdLine(c, prm.macdFast, prm.macdSlow);
    Frame(c, PandasRsi(c, prm.rsiPeriod, mode), line, Ema(line, Alpha(prm.macdSignal)))
  }

  /** The signal columns of the rows left by dropna, crosses read against
      the previous remaining row. */
  function RowSeries(kept: seq<Row>, prm: Params, t: Table): (x: Series)
    requires forall k :: 0 <= k < |kept| ==> Complete(kept[k])
    ensures x.closes == Closes(kept) && |x.buy| == |kept| && |x.sell| == |kept|
  {
    var vs := VotesOf(RsiColumn(kept), prm.oversold, prm.overbought, MacdColumn(kept), SignalColumn(kept), false);
    var ss := SignalsOf(t, prm.strategy, vs);
    Series(Closes(kept), BuyColumn(ss), SellColumn(ss))
  }

  lemma KeptPositive(c: seq<real>, prm: Params, mode: ZeroLoss)
    requires PeriodsValid(prm) && Positive(c)
    ensures Positive(Closes(DropNa(PandasFrame(c, prm, mode))))
  {
    var rows := PandasFrame(c, prm, mode);
    var kept := DropNa(rows);
    forall k | 0 <= k < |kept| ensures kept[k].close > 0.0 {
      assert kept[k] in rows;
      var i :| 0 <= i < |rows| && rows[i] == kept[k];
    }
  }

  /** run_backtest of the pandas scripts: None without data, with fewer
      than 100 rows, with fewer than 50 rows left by dropna, or with too
      few trades. */
  function PandasBacktest(df: Option<seq<real>>, prm: Params, mode: ZeroLoss, t: Table, cfg: Config): (r: Option<Report>)
    requires PeriodsValid(prm) && cfg.start == 0
    requires df.Some? ==> Positive(df.value)
    ensures df.None? || |df.value| < 100 ==> r.None?
    ensures df.Some? && |df.value| >= 100 && |DropNa(PandasFrame(df.value, prm, mode))| < 50 ==> r.None?
    ensures r.Some? ==> Sensible(cfg, r.value)
  {
    if df.None? || |df.value| < 100 then None
    else
      var kept := DropNa(PandasFrame(df.value, prm, mode));
      if |kept| < 50 then None
      else
        KeptPositive(df.value, prm, mode);
        var x := RowSeries(kept, prm, t);
        EvaluationFacts(cfg, LimitsOf(prm), x);
        Evaluation(cfg, LimitsOf(prm), x)
  }

  const V3Config := Config(0, 1, Guarded(0.001), true, RawPnl, 2, OverPct)
  const MassiveConfig := Config(0, 1, Guarded(1.0), true, RawPnl, 2, OverPct)
  const ChunkedConfig := Config(0, 1, Floored, true, RawPnl, 2, NoAverages)

  /** massive_grid_search_v3.run_backtest. */
  function MassiveV3Backtest(df: Option<seq<real>>, prm: Params): (r: Option<Report>)
    requires PeriodsValid(prm) && (df.Some? ==> Positive(df.value))
    ensures df.None? || |df.value| < 100 ==> r.None?
    ensures r.Some? ==> Sensible(V3Config, r.value)
  {
    PandasBacktest(df, prm, NanOnZeroLoss, GridTable, V3Config)
  }

  /** massive_grid_search.run_backtest: the bare division in its RSI. */
  function MassiveBacktest(df: Option<seq<real>>, prm: Params): (r: Option<Report>)
    requires PeriodsValid(prm) && (df.Some? ==> Positive(df.value))
    ensures df.None? || |df.value| < 100 ==> r.None?
    ensures r.Some? ==> Sensible(MassiveConfig, r.value)
  {
    PandasBacktest(df, prm, InfOnZeroLoss, GridTable, MassiveConfig)
  }

  /** chunked_grid_search.run_backtest. */
  function ChunkedBacktest(df: Option<seq<real>>, prm: Params): (r: Option<Report>)
    requires PeriodsValid(prm) && (df.Some? ==> Positive(df.value))
    ensures df.None? || |df.value| < 100 ==> r.None?
    ensures r.Some? ==> Sensible(ChunkedConfig, r.value)
  {
    PandasBacktest(df, prm, NanOnZeroLoss, ChunkedTable, ChunkedConfig)
  }

  /** The pandas run with the simulation and metric loops as methods. */
  method RunPandas(df: Option<seq<real>>, prm: Params, mode: ZeroLoss, t: Table, cfg: Config) returns (r: Option<Report>)
    requires PeriodsValid(prm) && cfg.start == 0
    requires df.Some? ==> Positive(df.value)
    ensures r == PandasBacktest(df, prm, mode, t, cfg)
  {
    if df.None? || |df.value| < 100 {
      return None;
    }
    var kept := DropNa(PandasFrame(df.value, prm, mode));
    if |kept| < 50 {
      return None;
    }
    KeptPositive(df.value, prm, mode);
    r := Evaluate(cfg, LimitsOf(prm), RowSeries(kept, prm, t));
  }

  // ---------------------------------------------------------------------
  // The numpy scripts: signals from one symbol's closes, trades at the
  // other's, the loop from bar 50.

  /** Which RSI window the script reads: the centred one it computes or the
      causal one it means. */
  datatype RsiWindow = Centred | Past

  function RsiOf(w: RsiWindow, c: seq<real>, p: int): (r: seq<real>)
    requires 1 <= p
    ensures |r| == |c| && forall i :: 0 <= i < |c| ==> 0.0 <= r[i] < 100.0
  {
    match w
    case Centred => CentredRsi(c, p)
    case Past => PastRsi(c, p)
  }

  /** The signal columns over the signal symbol's closes. */
  function PairSignals(qqq: seq<real>, prm: Params, w: RsiWindow, t: Table): (ss: seq<Signal>)
    requires PeriodsValid(prm)
    ensures |ss| == |qqq|
  {
    var line := MacdLine(qqq, prm.macdFast, prm.macdSlow);
    var sig := Ema(line, Alpha(prm.macdSignal));
    SignalsOf(t, prm.strategy, VotesOf(RsiOf(w, qqq, prm.rsiPeriod), prm.oversold, prm.overbought, line, sig, true))
  }

  /** backtest / fast_backtest of the two-symbol scripts: None with fewer
      than 200 bars or too few trades. */
  function PairBacktest(qqq: seq<real>, tqqq: seq<real>, prm: Params, w: RsiWindow, t: Table, cfg: Config): (r: Option<Report>)
    requires PeriodsValid(prm) && |qqq| == |tqqq| && Positive(tqqq) && cfg.start == 50
    ensures |qqq| < 200 ==> r.None?
    ensures r.Some? ==> Sensible(cfg, r.value)
  {
    if |qqq| < 200 then None
    else
      var ss := PairSignals(qqq, prm, w, t);
      var x := Series(tqqq, BuyColumn(ss), SellColumn(ss));
      EvaluationFacts(cfg, LimitsOf(prm), x);
      Evaluation(cfg, LimitsOf(prm), x)
  }

  const EfficientConfig := Config(50, 1, NoPf, false, RoundedPct(2), 2, NoAverages)
  const PairChunkedConfig := Config(50, 3, NoPf, false, RoundedPct(1), 1, NoAverages)
  const CompleteConfig := Config(50, 5, NoPf, false, RoundedPct(2), 2, NoAverages)
  const MacdDeepConfig := Config(50, 5, NoPf, false, RoundedPct(1), 1, NoAverages)

  /** complete_test: RSI(14) with levels 30 and 70. */
  function CompleteParams(mf: int, ms: int, msig: int, sl: real, tp: real, strat: string): (prm: Params)
    ensures prm.rsiPeriod == 14 && prm.oversold == 30.0 && prm.overbought == 70.0
  {
    Params(14, 30.0, 70.0, mf, ms, msig, sl, tp, strat)
  }

  /** qqq_tqqq_efficient.fast_backtest. */
  function EfficientBacktest(qqq: seq<real>, tqqq: seq<real>, prm: Params): (r: Option<Report>)
    requires PeriodsValid(prm) && |qqq| == |tqqq| && Positive(tqqq)
    ensures |qqq| < 200 ==> r.None?
    ensures r.Some? ==> Sensible(EfficientConfig, r.value)
  {
    PairBacktest(qqq, tqqq, prm, Centred, PairTable, EfficientConfig)
  }

  /** qqq_tqqq_chunked.backtest: at least three trades. */
  function PairChunkedBacktest(qqq: seq<real>, tqqq: seq<real>, prm: Params): (r: Option<Report>)
    requires PeriodsValid(prm) && |qqq| == |tqqq| && Positive(tqqq)
    ensures |qqq| < 200 ==> r.None?
    ensures r.Some? ==> Sensible(PairChunkedConfig, r.value)
  {
    PairBacktest(qqq, tqqq, prm, Centred, PairTable, PairChunkedConfig)
  }

  /** complete_test.backtest: at least five trades. */
  function CompleteBacktest(qqq: seq<real>, tqqq: seq<real>, mf: int, ms: int, msig: int, sl: real, tp: real, strat: string): (r: Option<Report>)
    requires mf >= 1 && ms >= 1 && msig >= 1 && |qqq| == |tqqq| && Positive(tqqq)
    ensures |qqq| < 200 ==> r.None?
    ensures r.Some? ==> Sensible(CompleteConfig, r.value)
  {
    PairBacktest(qqq, tqqq, CompleteParams(mf, ms, msig, sl, tp, strat), Centred, ComboTable, CompleteConfig)
  }

  /** macd_deep_test.backtest: MACD crosses only, at least five trades. */
  function MacdDeepBacktest(qqq: seq<real>, tqqq: seq<real>, mf: int, ms: int, msig: int, sl: real, tp: real): (r: Option<Report>)
    requires mf >= 1 && ms >= 1 && msig >= 1 && |qqq| == |tqqq| && Positive(tqqq)
    ensures |qqq| < 200 ==> r.None?
    ensures r.Some? ==> Sensible(MacdDeepConfig, r.value)
  {
    PairBacktest(qqq, tqqq, Params(1, 0.0, 0.0, mf, ms, msig, sl, tp, "macd"), Centred, MacdTable, MacdDeepConfig)
  }

  /** qqq_tqqq_efficient.fast_backtest with the RSI averaged over the bars
      up to each one, so that no signal reads a later close. */
  function IntendedEfficientBacktest(qqq: seq<real>, tqqq: seq<real>, prm: Params): (r: Option<Report>)
    requires PeriodsValid(prm) && |qqq| == |tqqq| && Positive(tqqq)
    ensures |qqq| < 200 ==> r.None?
    ensures r.Some? ==> Sensible(EfficientConfig, r.value)
  {
    PairBacktest(qqq, tqqq, prm, Past, PairTable, EfficientConfig)
  }

  /** The RSI period and levels do not matter to the MACD-only table. */
  lemma MacdTableIgnoresRsi(qqq: seq<real>, prm: Params, w: RsiWindow, q: Params)
    requires PeriodsValid(prm) && PeriodsValid(q)
    requires prm.macdFast == q.macdFast && prm.macdSlow == q.macdSlow && prm.macdSignal == q.macdSignal
    ensures PairSignals(qqq, prm, w, MacdTable) == PairSignals(qqq, q, Centred, MacdTable)
  {
    var a := PairSignals(qqq, prm, w, MacdTable);
    var b := PairSignals(qqq, q, Centred, MacdTable);
    assert |a| == |b|;
    forall i | 0 <= i < |a| ensures a[i] == b[i] {
    }
  }

  /** The two-symbol run with the EMA, simulation and metric loops. */
  method RunPair(qqq: seq<real>, tqqq: seq<real>, prm: Params, w: RsiWindow, t: Table, cfg: Config) returns (r: Option<Report>)
    requires PeriodsValid(prm) && |qqq| == |tqqq| && Positive(tqqq) && cfg.start == 50
    ensures r == PairBacktest(qqq, tqqq, prm, w, t, cfg)
  {
    if |qqq| < 200 {
      return None;
    }
    var line, sig := Macd(qqq, prm.macdFast, prm.macdSlow, prm.macdSignal);
    var ss := SignalsOf(t, prm.strategy, VotesOf(RsiOf(w, qqq, prm.rsiPeriod), prm.oversold, prm.overbought, line, sig, true));
    r := Evaluate(cfg, LimitsOf(prm), Series(tqqq, BuyColumn(ss), SellColumn(ss)));
  }

  // ---------------------------------------------------------------------
  // fast_grid_search: one symbol, the padded RSI, pandas EMAs.

  const FastConfig := Config(50, 1, Strict, false, RawPnl, 2, NoAverages)

  /** Which zero-loss fix the padded RSI applies: the script's loss of 1
      or the cap at rs = 100 the sibling scripts use. */
  datatype PadRule = Patched | Capped

  function FastRsi(rule: PadRule, c: seq<real>, p: int): (r: seq<real>)
    requires 1 <= p <= |c|
    ensures |r| == |c| && forall i :: 0 <= i < |c| ==> 0.0 <= r[i] < 100.0
  {
    match rule
    case Patched => PaddedRsi(c, p)
    case Capped => CorrectedPaddedRsi(c, p)
  }

  function FastSignals(c: seq<real>, prm: Params, rule: PadRule): (ss: seq<Signal>)
    requires PeriodsValid(prm) && prm.rsiPeriod <= |c|
    ensures |ss| == |c|
  {
    var line := MacdLine(c, prm.macdFast, prm.macdSlow);
    var sig := Ema(line, Alpha(prm.macdSignal));
    SignalsOf(ComboTable, prm.strategy, VotesOf(FastRsi(rule, c, prm.rsiPeriod), prm.oversold, prm.overbought, line, sig, true))
  }

  /** The fast backtest under either zero-loss fix. */
  function FastWith(df: Option<seq<real>>, prm: Params, rule: PadRule): (r: Option<Report>)
    requires PeriodsValid(prm)
    requires df.Some? ==> Positive(df.value) && (|df.value| >= 100 ==> prm.rsiPeriod <= |df.value|)
    ensures df.None? || |df.value| < 100 ==> r.None?
    ensures r.Some? ==> Sensible(FastConfig, r.value)
  {
    if df.None? || |df.value| < 100 then None
    else
      var ss := FastSignals(df.value, prm, rule);
      var x := Series(df.value, BuyColumn(ss), SellColumn(ss));
      EvaluationFacts(FastConfig, LimitsOf(prm), x);
      Evaluation(FastConfig, LimitsOf(prm), x)
  }

  /** fast_grid_search.backtest, with the script's patched RSI. */
  function FastBacktest(df: Option<seq<real>>, prm: Params): (r: Option<Report>)
    requires PeriodsValid(prm)
    requires df.Some? ==> Positive(df.value) && (|df.value| >= 100 ==> prm.rsiPeriod <= |df.value|)
    ensures df.None? || |df.value| < 100 ==> r.None?
    ensures r.Some? ==> Sensible(FastConfig, r.value)
  {
    FastWith(df, prm, Patched)
  }

  /** The same backtest with the capped RSI, so that a window without
      losses reads near 100. */
  function IntendedFastBacktest(df: Option<seq<real>>, prm: Params): (r: Option<Report>)
    requires PeriodsValid(prm)
    requires df.Some? ==> Positive(df.value) && (|df.value| >= 100 ==> prm.rsiPeriod <= |df.value|)
    ensures df.None? || |df.value| < 100 ==> r.None?
    ensures r.Some? ==> Sensible(FastConfig, r.value)
  {
    FastWith(df, prm, Capped)
  }

  method RunFast(df: Option<seq<real>>, prm: Params) returns (r: Option<Report>)
    requires PeriodsValid(prm)
    requires df.Some? ==> Positive(df.value) && (|df.value| >= 100 ==> prm.rsiPeriod <= |df.value|)
    ensures r == FastBacktest(df, prm)
  {
    if df.None? || |df.value| < 100 {
      return None;
    }
    var ss := FastSignals(df.value, prm, Patched);
    r := Evaluate(FastConfig, LimitsOf(prm), Series(df.value, BuyColumn(ss), SellColumn(ss)));
  }

  // ---------------------------------------------------------------------
  // qqq_tqqq_massive_test: indicators over the signal symbol, an inner
  // join with the traded symbol's closes, dropna, the eleven-entry table.

  /** A bar of the signal symbol with its Bollinger %B and volume ratio
      columns (None for NaN). */
  datatype QqqRow = QqqRow(ts: int, close: real, bbPct: Option<real>, volRatio: Option<real>)

  function QqqCloses(q: seq<QqqRow>): (c: seq<real>)
    ensures |c| == |q| && forall i :: 0 <= i < |q| ==> c[i] == q[i].close
  {
    seq(|q|, i requires 0 <= i < |q| => q[i].close)
  }

  /** The indicator columns computed over the signal symbol. */
  datatype Columns = Columns(rsi: seq<Option<real>>, line: seq<real>, sig: seq<real>, fast: seq<real>, slow: seq<real>)

  predicate Fits(cols: Columns, n: int)
  {
    |cols.rsi| == n && |cols.line| == n && |cols.sig| == n && |cols.fast| == n && |cols.slow| == n
  }

  function ColumnsOf(q: seq<QqqRow>, prm: Params): (cols: Columns)
    requires PeriodsValid(prm)
    ensures Fits(cols, |q|)
  {
    var c := QqqCloses(q);
    var line := MacdLine(c, prm.macdFast, prm.macdSlow);
    Columns(PandasRsi(c, prm.rsiPeriod, NanOnZeroLoss), line, Ema(line, Alpha(prm.macdSignal)),
            Ema(c, Alpha(9)), Ema(c, Alpha(21)))
  }

  function JoinedRow(q: seq<QqqRow>, cols: Columns, tqqq: map<int, real>, i: int): WideRow
    requires Fits(cols, |q|) && 0 <= i < |q| && q[i].ts in tqqq
  {
    WideRow(q[i].close, tqqq[q[i].ts], cols.rsi[i], Some(cols.line[i]), Some(cols.sig[i]),
            q[i].bbPct, cols.fast[i], cols.slow[i], q[i].volRatio)
  }

  predicate PositiveMap(tqqq: map<int, real>)
  {
    forall t :: t in tqqq ==> tqqq[t] > 0.0
  }

  /** The inner join over the first n bars: the bars whose timestamp the
      traded symbol also has, in order, with its close. */
  function Join(q: seq<QqqRow>, cols: Columns, tqqq: map<int, real>, n: int): (rows: seq<WideRow>)
    requires Fits(cols, |q|) && 0 <= n <= |q|
    ensures |rows| <= n
    ensures PositiveMap(tqqq) ==> forall k :: 0 <= k < |rows| ==> rows[k].traded > 0.0
    ensures forall i :: 0 <= i < n && q[i].ts in tqqq ==> JoinedRow(q, cols, tqqq, i) in rows
  {
    if n == 0 then []
    else
      var init := Join(q, cols, tqqq, n - 1);
      var r := init + (if q[n - 1].ts in tqqq then [JoinedRow(q, cols, tqqq, n - 1)] else []);
      assert forall k :: 0 <= k < |init| ==> r[k] == init[k];
      r
  }

  function TradedCloses(rows: seq<WideRow>): (c: seq<real>)
    ensures |c| == |rows| && forall i :: 0 <= i < |rows| ==> c[i] == rows[i].traded
  {
    seq(|rows|, i requires 0 <= i < |rows| => rows[i].traded)
  }

  function WideSignal(kept: seq<WideRow>, prm: Params, i: int): (s: Signal)
    requires forall k :: 0 <= k < |kept| ==> WideComplete(kept[k])
    requires 0 <= i < |kept|
  {
    WideRule(prm.strategy, WideVotesOf(kept[i], if i > 0 then Some(kept[i - 1]) else None, prm.oversold, prm.overbought))
  }

  function WideSeries(kept: seq<WideRow>, prm: Params): (x: Series)
    requires forall k :: 0 <= k < |kept| ==> WideComplete(kept[k])
    ensures x.closes == TradedCloses(kept) && |x.buy| == |kept| && |x.sell| == |kept|
    ensures forall i :: 0 <= i < |kept| ==> x.buy[i] == WideSignal(kept, prm, i).buy && x.sell[i] == WideSignal(kept, prm, i).sell
  {
    Series(TradedCloses(kept),
           seq(|kept|, i requires 0 <= i < |kept| => WideSignal(kept, prm, i).buy),
           seq(|kept|, i requires 0 <= i < |kept| => WideSignal(kept, prm, i).sell))
  }

  lemma JoinedPositive(q: seq<QqqRow>, prm: Params, tqqq: map<int, real>)
    requires PeriodsValid(prm) && PositiveMap(tqqq)
    ensures Positive(TradedCloses(Keep(Join(q, ColumnsOf(q, prm), tqqq, |q|), WideComplete)))
  {
    KeepPreserves(Join(q, ColumnsOf(q, prm), tqqq, |q|), WideComplete, (r: WideRow) => r.traded > 0.0);
  }

  /** The pnl stored to the cent, the profit factor divided by the bare
      loss sum. */
  const QqqMassiveConfig := Config(0, 1, Unguarded, true, RoundedPnl(2), 2, OverRoundedPct(2))

  /** The same with the 0.01 floor also for losses that add up to zero. */
  const IntendedQqqMassiveConfig := Config(0, 1, Checked, true, RoundedPnl(2), 2, OverRoundedPct(2))

  /** run_backtest under a configuration: None with fewer than 200 bars of
      the signal symbol or fewer than 100 joined complete rows. */
  function JoinedBacktest(q: seq<QqqRow>, tqqq: map<int, real>, prm: Params, cfg: Config): (r: Option<Report>)
    requires PeriodsValid(prm) && PositiveMap(tqqq) && cfg.start == 0
    ensures |q| < 200 ==> r.None?
    ensures |q| >= 200 && |Keep(Join(q, ColumnsOf(q, prm), tqqq, |q|), WideComplete)| < 100 ==> r.None?
    ensures r.Some? ==> Sensible(cfg, r.value)
  {
    if |q| < 200 then None
    else
      var kept := Keep(Join(q, ColumnsOf(q, prm), tqqq, |q|), WideComplete);
      if |kept| < 100 then None
      else
        JoinedPositive(q, prm, tqqq);
        var x := WideSeries(kept, prm);
        EvaluationFacts(cfg, LimitsOf(prm), x);
        Evaluation(cfg, LimitsOf(prm), x)
  }

  /** qqq_tqqq_massive_test.run_backtest as written. */
  function QqqMassiveBacktest(q: seq<QqqRow>, tqqq: map<int, real>, prm: Params): (r: Option<Report>)
    requires PeriodsValid(prm) && PositiveMap(tqqq)
    ensures |q| < 200 ==> r.None?
    ensures |q| >= 200 && |Keep(Join(q, ColumnsOf(q, prm), tqqq, |q|), WideComplete)| < 100 ==> r.None?
    ensures r.Some? ==> Sensible(QqqMassiveConfig, r.value)
  {
    JoinedBacktest(q, tqqq, prm, QqqMassiveConfig)
  }

  /** run_backtest with the floored loss sum: every result has a profit
      factor. */
  function IntendedQqqMassiveBacktest(q: seq<QqqRow>, tqqq: map<int, real>, prm: Params): (r: Option<Report>)
    requires PeriodsValid(prm) && PositiveMap(tqqq)
    ensures |q| < 200 ==> r.None?
    ensures r.Some? ==> Sensible(IntendedQqqMassiveConfig, r.value) && r.value.profitFactor.Some?
  {
    JoinedBacktest(q, tqqq, prm, IntendedQqqMassiveConfig)
  }

  method RunQqqMassive(q: seq<QqqRow>, tqqq: map<int, real>, prm: Params) returns (r: Option<Report>)
    requires PeriodsValid(prm) && PositiveMap(tqqq)
    ensures r == QqqMassiveBacktest(q, tqqq, prm)
  {
    if |q| < 200 {
      return None;
    }
    var kept := Keep(Join(q, ColumnsOf(q, prm), tqqq, |q|), WideComplete);
    if |kept| < 100 {
      return None;
    }
    JoinedPositive(q, prm, tqqq);
    r := Evaluate(QqqMassiveConfig, LimitsOf(prm), WideSeries(kept, prm));
  }
}
