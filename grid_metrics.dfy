// Summary figures the grid-search scripts compute from a finished trade
// list: win rate, the profit-factor variants, the equity curve and its
// maximum drawdown, and the total return.
module GridMetrics {
  import opened Core
  import opened Fills
  import opened SlTpSim

  function Pnls(ts: seq<Fill>): (ps: seq<real>)
    ensures |ps| == |ts| && forall k :: 0 <= k < |ts| ==> ps[k] == ts[k].pnl
  {
    if ts == [] then [] else Pnls(ts[..|ts| - 1]) + [ts[|ts| - 1].pnl]
  }

  function Abs(a: real): (r: real)
    ensures r >= 0.0 && (r == a || r == -a)
  {
    if a < 0.0 then -a else a
  }

  /** How many trades made money (pnl > 0) and how many did not (pnl <= 0). */
  function WinCount(ps: seq<real>): (n: nat)
    ensures n <= |ps|
    ensures n == 0 <==> forall k :: 0 <= k < |ps| ==> ps[k] <= 0.0
  {
    if ps == [] then 0 else WinCount(ps[..|ps| - 1]) + (if ps[|ps| - 1] > 0.0 then 1 else 0)
  }

  function LoseCount(ps: seq<real>): (n: nat)
    ensures n <= |ps|
    ensures n == 0 <==> forall k :: 0 <= k < |ps| ==> ps[k] > 0.0
  {
    if ps == [] then 0 else LoseCount(ps[..|ps| - 1]) + (if ps[|ps| - 1] <= 0.0 then 1 else 0)
  }

  lemma {:induction false} CountsSplit(ps: seq<real>)
    ensures WinCount(ps) + LoseCount(ps) == |ps|
  {
    if ps != [] {
      CountsSplit(ps[..|ps| - 1]);
    }
  }

  /** The sum of the winning pnls, and of the losing ones (pnl <= 0, or
      pnl < 0 where a script filters strictly). */
  function GrossProfit(ps: seq<real>): (g: real)
    ensures g >= 0.0
    ensures g == 0.0 <==> WinCount(ps) == 0
  {
    if ps == [] then 0.0 else GrossProfit(ps[..|ps| - 1]) + (if ps[|ps| - 1] > 0.0 then ps[|ps| - 1] else 0.0)
  }

  function LossTotal(ps: seq<real>): (l: real)
    ensures l <= 0.0
  {
    if ps == [] then 0.0 else LossTotal(ps[..|ps| - 1]) + (if ps[|ps| - 1] <= 0.0 then ps[|ps| - 1] else 0.0)
  }

  function StrictLossTotal(ps: seq<real>): (l: real)
    ensures l <= 0.0
    ensures l == 0.0 <==> forall k :: 0 <= k < |ps| ==> ps[k] >= 0.0
  {
    if ps == [] then 0.0 else StrictLossTotal(ps[..|ps| - 1]) + (if ps[|ps| - 1] < 0.0 then ps[|ps| - 1] else 0.0)
  }

  /** Winners and losers together account for the whole pnl. */
  lemma {:induction false} PnlSplits(ps: seq<real>)
    ensures GrossProfit(ps) + LossTotal(ps) == Sum(ps)
  {
    if ps != [] {
      PnlSplits(ps[..|ps| - 1]);
    }
  }

  /** win_rate = len(wins) / len(trades) * 100. */
  function WinRate(ps: seq<real>): (w: real)
    requires |ps| > 0
    ensures 0.0 <= w <= 100.0
    ensures w == 0.0 <==> WinCount(ps) == 0
    ensures w == 100.0 <==> WinCount(ps) == |ps|
  {
    var n := WinCount(ps) as real;
    var t := |ps| as real;
    assert 0.0 <= n / t <= 1.0;
    n / t * 100.0
  }

  /** Profit factor with a fallback denominator when there is no losing
      trade and the gross profit itself when the losses sum to zero:
      0.001 in one script, 1 in another. */
  function GuardedProfitFactor(ps: seq<real>, fallback: real): (pf: real)
    ensures pf >= 0.0
    ensures pf == 0.0 <==> WinCount(ps) == 0
  {
    var gp := if WinCount(ps) > 0 then GrossProfit(ps) else 0.0;
    var gl := if LoseCount(ps) > 0 then Abs(LossTotal(ps)) else fallback;
    if gl > 0.0 then gp / gl else gp
  }

  /** sum(wins) / max(|sum(losses)|, 0.01). */
  function FlooredProfitFactor(ps: seq<real>): (pf: real)
    ensures pf >= 0.0
    ensures pf == 0.0 <==> WinCount(ps) == 0
  {
    var gl := Abs(LossTotal(ps));
    GrossProfit(ps) / (if gl >= 0.01 then gl else 0.01)
  }

  /** gross_win / (|sum of pnl < 0| or 0.01): a zero loss sum is falsy. */
  function StrictProfitFactor(ps: seq<real>): (pf: real)
    ensures pf >= 0.0
    ensures pf == 0.0 <==> WinCount(ps) == 0
  {
    var gl := Abs(StrictLossTotal(ps));
    GrossProfit(ps) / (if gl != 0.0 then gl else 0.01)
  }

  /** The profit factor as one script writes it: a fallback of 0.01 only
      when there is no losing trade, and then a bare division. None stands
      for the undefined quotient when the losing trades (pnl <= 0) all have
      pnl exactly 0. */
  function UnguardedProfitFactor(ps: seq<real>): (pf: Option<real>)
    ensures pf.None? <==> LoseCount(ps) > 0 && LossTotal(ps) == 0.0
    ensures pf.Some? ==> pf.value >= 0.0 && (pf.value == 0.0 <==> WinCount(ps) == 0)
  {
    var gp := if WinCount(ps) > 0 then GrossProfit(ps) else 0.0;
    var gl := if LoseCount(ps) > 0 then Abs(LossTotal(ps)) else 0.01;
    if gl == 0.0 then None else Some(gp / gl)
  }

  /** A trade closed at its own entry price books pnl 0 and is counted as a
      loser, so one such trade beside a winner stops the profit factor. */
  lemma BreakEvenTradeDividesByZero()
    ensures UnguardedProfitFactor([250.0, Value(40.0, 55.5 - 55.5)]) == None
  {
    var ps := [250.0, Value(40.0, 55.5 - 55.5)];
    assert ps[..1] == [250.0];
    assert LoseCount(ps) == 1;
    assert LossTotal(ps) == 0.0;
  }

  /** The same rule with the 0.01 floor also applied to a zero loss sum. */
  function CheckedProfitFactor(ps: seq<real>): (pf: real)
    ensures pf >= 0.0
    ensures pf == 0.0 <==> WinCount(ps) == 0
    ensures UnguardedProfitFactor(ps).Some? ==> pf == UnguardedProfitFactor(ps).value
  {
    var gp := if WinCount(ps) > 0 then GrossProfit(ps) else 0.0;
    var gl := if LoseCount(ps) > 0 && LossTotal(ps) != 0.0 then Abs(LossTotal(ps)) else 0.01;
    gp / gl
  }

  // ---------------------------------------------------------------------
  // The equity curve and its maximum drawdown.

  /** [initial] followed by the running balance after each trade. */
  function Curve(init: real, ps: seq<real>): (eq: seq<real>)
    ensures |eq| == |ps| + 1 && eq[0] == init
    ensures forall k :: 0 <= k < |ps| ==> eq[k + 1] == eq[k] + ps[k]
  {
    if ps == [] then [init]
    else
      var c := Curve(init, ps[..|ps| - 1]);
      c + [c[|ps| - 1] + ps[|ps| - 1]]
  }

  lemma {:induction false} CurveSums(init: real, ps: seq<real>, k: int)
    requires 0 <= k <= |ps|
    ensures Curve(init, ps)[k] == init + Sum(ps[..k])
  {
    if k > 0 {
      CurveSums(init, ps, k - 1);
      assert ps[..k][..k - 1] == ps[..k - 1];
    }
  }

  /** The loop that appends the running balance after each trade. */
  method EquityCurve(init: real, ps: seq<real>) returns (eq: seq<real>)
    ensures eq == Curve(init, ps)
  {
    eq := [init];
    var running := init;
    var k := 0;
    while k < |ps|
      invariant 0 <= k <= |ps|
      invariant eq == Curve(init, ps[..k]) && running == eq[k]
    {
      assert ps[..k + 1][..k] == ps[..k];
      running := running + ps[k];
      eq := eq + [running];
      k := k + 1;
    }
    assert ps[..k] == ps;
  }

  /** The running peak as the drawdown loop keeps it, starting at the
      first value. */
  function Peak(eq: seq<real>, i: int): (p: real)
    requires 0 <= i < |eq|
    ensures p >= eq[0] && p >= eq[i]
    ensures forall j :: 0 <= j <= i ==> eq[j] <= p
    ensures exists j :: 0 <= j <= i && eq[j] == p
  {
    if i == 0 then eq[0]
    else
      var q := Peak(eq, i - 1);
      if eq[i] > q then eq[i] else q
  }

  /** (peak - value) / peak * 100 at point i. */
  function DrawdownAt(eq: seq<real>, i: int): (d: real)
    requires 0 <= i < |eq| && eq[0] > 0.0
    ensures d >= 0.0
    ensures eq[i] >= 0.0 ==> d <= 100.0
  {
    var p := Peak(eq, i);
    assert (p - eq[i]) / p >= 0.0;
    assert eq[i] >= 0.0 ==> (p - eq[i]) / p <= 1.0;
    (p - eq[i]) / p * 100.0
  }

  /** max_dd after the first n points. */
  function MaxDrawdownOf(eq: seq<real>, n: int): real
    requires 0 <= n <= |eq| && |eq| > 0 && eq[0] > 0.0
  {
    if n == 0 then 0.0
    else
      var m := MaxDrawdownOf(eq, n - 1);
      var d := DrawdownAt(eq, n - 1);
      if d > m then d else m
  }

  /** The drawdown loop: the largest fall from the running peak, 0 when the
      curve never falls, as a percentage of that peak. */
  method MaxDrawdown(eq: seq<real>) returns (maxDd: real)
    requires |eq| > 0 && eq[0] > 0.0
    ensures maxDd == MaxDrawdownOf(eq, |eq|)
  {
    var peak := eq[0];
    maxDd := 0.0;
    var i := 0;
    while i < |eq|
      invariant 0 <= i <= |eq|
      invariant maxDd == MaxDrawdownOf(eq, i)
      invariant peak == Peak(eq, if i == 0 then 0 else i - 1)
    {
      PeakStep(eq, i, peak);
      if eq[i] > peak {
        peak := eq[i];
      }
      var dd := (peak - eq[i]) / peak * 100.0;
      DrawdownStep(eq, i, peak, maxDd);
      if dd > maxDd {
        maxDd := dd;
      }
      i := i + 1;
    }
  }

  /** The running peak after point i. */
  lemma PeakStep(eq: seq<real>, i: int, peak: real)
    requires 0 <= i < |eq| && eq[0] > 0.0 && peak == Peak(eq, if i == 0 then 0 else i - 1)
    ensures (if eq[i] > peak then eq[i] else peak) == Peak(eq, i) > 0.0
  {
  }

  /** max_dd after point i, from the peak there. */
  lemma DrawdownStep(eq: seq<real>, i: int, peak: real, m: real)
    requires 0 <= i < |eq| && eq[0] > 0.0 && peak == Peak(eq, i) && m == MaxDrawdownOf(eq, i)
    ensures var dd := (peak - eq[i]) / peak * 100.0;
      (if dd > m then dd else m) == MaxDrawdownOf(eq, i + 1)
  {
  }

  /** The maximum drawdown is the largest drawdown at any point, never
      negative, and at most 100% while the curve stays non-negative. */
  lemma {:induction false} MaxDrawdownBounds(eq: seq<real>, n: int)
    requires 0 <= n <= |eq| && |eq| > 0 && eq[0] > 0.0
    ensures MaxDrawdownOf(eq, n) >= 0.0
    ensures forall i :: 0 <= i < n ==> DrawdownAt(eq, i) <= MaxDrawdownOf(eq, n)
    ensures MaxDrawdownOf(eq, n) == 0.0 || exists i :: 0 <= i < n && DrawdownAt(eq, i) == MaxDrawdownOf(eq, n)
    ensures (forall i :: 0 <= i < n ==> eq[i] >= 0.0) ==> MaxDrawdownOf(eq, n) <= 100.0
  {
    if n > 0 {
      MaxDrawdownBounds(eq, n - 1);
    }
  }

  /** A curve that never falls has no drawdown. */
  lemma NoDrawdownWhenRising(eq: seq<real>)
    requires |eq| > 0 && eq[0] > 0.0
    requires forall i :: 0 < i < |eq| ==> eq[i - 1] <= eq[i]
    ensures MaxDrawdownOf(eq, |eq|) == 0.0
  {
    forall i | 0 <= i < |eq| ensures DrawdownAt(eq, i) == 0.0 {
      RisingPeak(eq, i);
    }
    MaxDrawdownBounds(eq, |eq|);
  }

  lemma {:induction false} RisingPeak(eq: seq<real>, i: int)
    requires 0 <= i < |eq|
    requires forall j :: 0 < j < |eq| ==> eq[j - 1] <= eq[j]
    ensures Peak(eq, i) == eq[i]
  {
    if i > 0 {
      RisingPeak(eq, i - 1);
    }
  }

  lemma {:induction false} PnlsTotal(ts: seq<Fill>)
    ensures Sum(Pnls(ts)) == TotalPnl(ts)
  {
    if ts != [] {
      PnlsTotal(ts[..|ts| - 1]);
      assert Pnls(ts)[..|ts| - 1] == Pnls(ts[..|ts| - 1]);
    }
  }

  /** The drawdown of a simulated run lies between 0% and 100%: its
      equity curve never reaches zero. */
  lemma SimulationDrawdownBounded(lim: Limits, x: Series, start: nat)
    requires WellFormed(x) && |x.closes| > 0
    ensures var eq := Curve(InitialCapital, Pnls(Simulation(lim, x, start).trades));
            0.0 <= MaxDrawdownOf(eq, |eq|) <= 100.0
  {
    var ts := Simulation(lim, x, start).trades;
    var ps := Pnls(ts);
    var eq := Curve(InitialCapital, ps);
    SimulationSolvent(lim, x, start);
    forall i | 0 <= i < |eq| ensures eq[i] >= 0.0 {
      CurveSums(InitialCapital, ps, i);
      assert ps[..i] == Pnls(ts[..i]);
      PnlsTotal(ts[..i]);
    }
    MaxDrawdownBounds(eq, |eq|);
  }
}
