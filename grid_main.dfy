// The main functions of the grid-search scripts: which parameter
// combinations they enumerate, how they walk them in batches (resuming from
// the set of combinations already done), which results they keep, and how
// they follow the best result and the ten best.
module GridMain {
  import opened Core
  import opened SlTpSim
  import opened GridSignals
  import opened GridScripts

  // ---------------------------------------------------------------------
  // Dropping the combinations whose MACD fast span is not below its slow
  // span.

  predicate MacdOrdered(prm: Params)
  {
    prm.macdFast < prm.macdSlow
  }

  /** The comprehension over the product of the grid: the combinations with
      fast < slow, in their original order. */
  function ValidCombos(cs: seq<Params>): (vs: seq<Params>)
    ensures |vs| <= |cs|
    ensures forall c :: c in vs <==> c in cs && MacdOrdered(c)
  {
    Keep(cs, MacdOrdered)
  }

  // ---------------------------------------------------------------------
  // Nested loops with `if mf >= ms: continue`.

  /** The fields of a combination below the two MACD spans, taken from the
      product of the inner lists (signal span, stop loss, take profit,
      strategy). */
  datatype Tail = Tail(signal: int, stopLoss: real, takeProfit: real, strategy: string)

  datatype Combo = Combo(fast: int, slow: int, tail: Tail)

  predicate Ordered(c: Combo)
  {
    c.fast < c.slow
  }

  /** One pair of spans with every tail. */
  function Cells(f: int, s: int, ts: seq<Tail>): (cs: seq<Combo>)
    ensures |cs| == |ts|
    ensures forall k :: 0 <= k < |ts| ==> cs[k] == Combo(f, s, ts[k])
  {
    seq(|ts|, k requires 0 <= k < |ts| => Combo(f, s, ts[k]))
  }

  /** The full product, fast span outermost: what itertools.product
      enumerates. */
  function Row(f: int, ss: seq<int>, ts: seq<Tail>): seq<Combo>
  {
    if ss == [] then []
    else Row(f, ss[..|ss| - 1], ts) + Cells(f, ss[|ss| - 1], ts)
  }

  function Product(fs: seq<int>, ss: seq<int>, ts: seq<Tail>): seq<Combo>
  {
    if fs == [] then []
    else Product(fs[..|fs| - 1], ss, ts) + Row(fs[|fs| - 1], ss, ts)
  }

  /** The same nesting with the slow loop skipping spans not above the fast
      span. */
  function SkipRow(f: int, ss: seq<int>, ts: seq<Tail>): seq<Combo>
  {
    if ss == [] then []
    else SkipRow(f, ss[..|ss| - 1], ts) + (if f >= ss[|ss| - 1] then [] else Cells(f, ss[|ss| - 1], ts))
  }

  function Skipping(fs: seq<int>, ss: seq<int>, ts: seq<Tail>): seq<Combo>
  {
    if fs == [] then []
    else Skipping(fs[..|fs| - 1], ss, ts) + SkipRow(fs[|fs| - 1], ss, ts)
  }

  lemma {:induction false} RowMembers(f: int, ss: seq<int>, ts: seq<Tail>)
    ensures forall c :: c in Row(f, ss, ts) <==> c.fast == f && c.slow in ss && c.tail in ts
  {
    if ss != [] {
      RowMembers(f, ss[..|ss| - 1], ts);
      assert ss == ss[..|ss| - 1] + [ss[|ss| - 1]];
    }
  }

  /** The product holds exactly the combinations of one entry from each
      list. */
  lemma {:induction false} ProductMembers(fs: seq<int>, ss: seq<int>, ts: seq<Tail>)
    ensures forall c :: c in Product(fs, ss, ts) <==> c.fast in fs && c.slow in ss && c.tail in ts
  {
    if fs != [] {
      ProductMembers(fs[..|fs| - 1], ss, ts);
      RowMembers(fs[|fs| - 1], ss, ts);
      assert fs == fs[..|fs| - 1] + [fs[|fs| - 1]];
    }
  }

  lemma {:induction false} SkipRowMembers(f: int, ss: seq<int>, ts: seq<Tail>)
    ensures forall c :: c in SkipRow(f, ss, ts) <==> c.fast == f && c.slow in ss && c.tail in ts && f < c.slow
  {
    if ss != [] {
      SkipRowMembers(f, ss[..|ss| - 1], ts);
      assert ss == ss[..|ss| - 1] + [ss[|ss| - 1]];
    }
  }

  /** The loops with the skip produce exactly the ordered combinations. */
  lemma {:induction false} SkippingMembers(fs: seq<int>, ss: seq<int>, ts: seq<Tail>)
    ensures forall c :: c in Skipping(fs, ss, ts) <==> c.fast in fs && c.slow in ss && c.tail in ts && Ordered(c)
  {
    if fs != [] {
      SkippingMembers(fs[..|fs| - 1], ss, ts);
      SkipRowMembers(fs[|fs| - 1], ss, ts);
      assert fs == fs[..|fs| - 1] + [fs[|fs| - 1]];
    }
  }

  /** complete_test.py's generation loop. */
  method GenerateCombos(fs: seq<int>, ss: seq<int>, ts: seq<Tail>) returns (all: seq<Combo>)
    ensures all == Skipping(fs, ss, ts)
  {
    all := [];
    var i := 0;
    while i < |fs|
      invariant 0 <= i <= |fs|
      invariant all == Skipping(fs[..i], ss, ts)
    {
      all := AppendSkipRow(all, fs[i], ss, ts);
      assert fs[..i + 1][..i] == fs[..i];
      i := i + 1;
    }
    assert fs[..i] == fs;
  }

  /** The middle loop of GenerateCombos: one fast span. */
  method AppendSkipRow(start: seq<Combo>, mf: int, ss: seq<int>, ts: seq<Tail>) returns (all: seq<Combo>)
    ensures all == start + SkipRow(mf, ss, ts)
  {
    all := start;
    var j := 0;
    while j < |ss|
      invariant 0 <= j <= |ss|
      invariant all == start + SkipRow(mf, ss[..j], ts)
    {
      var ms := ss[j];
      assert ss[..j + 1][..j] == ss[..j];
      j := j + 1;
      if mf >= ms {
        continue;
      }
      all := AppendCells(all, mf, ms, ts);
    }
    assert ss[..j] == ss;
  }

  /** The inner loop of GenerateCombos: one fast and slow span. */
  method AppendCells(start: seq<Combo>, mf: int, ms: int, ts: seq<Tail>) returns (all: seq<Combo>)
    ensures all == start + Cells(mf, ms, ts)
  {
    all := start;
    var k := 0;
    while k < |ts|
      invariant 0 <= k <= |ts|
      invariant all == start + Cells(mf, ms, ts[..k])
    {
      assert Cells(mf, ms, ts[..k + 1]) == Cells(mf, ms, ts[..k]) + [Combo(mf, ms, ts[k])];
      all := all + [Combo(mf, ms, ts[k])];
      k := k + 1;
    }
    assert ts[..k] == ts;
  }

  lemma {:induction false} KeepAppend<T(!new)>(a: seq<T>, b: seq<T>, ok: T -> bool)
    ensures Keep(a + b, ok) == Keep(a, ok) + Keep(b, ok)
  {
    if b != [] {
      DropLastOfAppend(a, b);
      KeepAppend(a, b[..|b| - 1], ok);
    } else {
      assert a + b == a;
    }
  }

  lemma KeepCells(f: int, s: int, ts: seq<Tail>)
    ensures Keep(Cells(f, s, ts), Ordered) == if f < s then Cells(f, s, ts) else []
  {
    var cs := Cells(f, s, ts);
    if f < s {
      forall i | 0 <= i < |cs| ensures Ordered(cs[i]) {
        assert cs[i] == Combo(f, s, ts[i]);
      }
      KeepAll(cs, Ordered);
    } else {
      forall i | 0 <= i < |cs| ensures !Ordered(cs[i]) {
        assert cs[i] == Combo(f, s, ts[i]);
      }
      KeepNone(cs, Ordered);
    }
  }

  lemma {:induction false} KeepRow(f: int, ss: seq<int>, ts: seq<Tail>)
    ensures Keep(Row(f, ss, ts), Ordered) == SkipRow(f, ss, ts)
  {
    if ss != [] {
      KeepRow(f, ss[..|ss| - 1], ts);
      KeepAppend(Row(f, ss[..|ss| - 1], ts), Cells(f, ss[|ss| - 1], ts), Ordered);
      KeepCells(f, ss[|ss| - 1], ts);
    }
  }

  /** Skipping inside the loops (complete_test.py, macd_deep_test.py,
      fast_grid_search.py) enumerates exactly what filtering the product
      afterwards (massive_grid_search*.py, chunked_grid_search.py) keeps,
      in the same order. */
  lemma {:induction false} SkippingIsFiltering(fs: seq<int>, ss: seq<int>, ts: seq<Tail>)
    ensures Skipping(fs, ss, ts) == Keep(Product(fs, ss, ts), Ordered)
  {
    if fs != [] {
      SkippingIsFiltering(fs[..|fs| - 1], ss, ts);
      KeepAppend(Product(fs[..|fs| - 1], ss, ts), Row(fs[|fs| - 1], ss, ts), Ordered);
      KeepRow(fs[|fs| - 1], ss, ts);
    }
  }

  // ---------------------------------------------------------------------
  // Results of one sweep.

  /** The results of the runs that returned one, in order. */
  function Somes<R>(os: seq<Option<R>>): seq<R>
  {
    if os == [] then []
    else
      var o := os[|os| - 1];
      Somes(os[..|os| - 1]) + (if o.Some? then [o.value] else [])
  }

  /** Somes keeps exactly the results present, and no more entries than
      there are runs. */
  lemma {:induction false} SomesMembers<R>(os: seq<Option<R>>)
    ensures |Somes(os)| <= |os|
    ensures forall r :: r in Somes(os) <==> Some(r) in os
  {
    if os != [] {
      SomesMembers(os[..|os| - 1]);
      assert os == os[..|os| - 1] + [os[|os| - 1]];
    }
  }

  /** The outcomes of running each item in order. */
  function Runs<T, R>(cs: seq<T>, run: T -> Option<R>): (os: seq<Option<R>>)
    ensures |os| == |cs|
  {
    if cs == [] then [] else Runs(cs[..|cs| - 1], run) + [run(cs[|cs| - 1])]
  }

  /** Outcome i is the run of item i. */
  lemma {:induction false} RunsAt<T, R>(cs: seq<T>, run: T -> Option<R>)
    ensures forall i :: 0 <= i < |cs| ==> Runs(cs, run)[i] == run(cs[i])
  {
    if cs != [] {
      RunsAt(cs[..|cs| - 1], run);
    }
  }

  lemma RunsStep<T, R>(cs: seq<T>, run: T -> Option<R>, j: int)
    requires 0 <= j < |cs|
    ensures Somes(Runs(cs[..j + 1], run)) == Somes(Runs(cs[..j], run)) + (if run(cs[j]).Some? then [run(cs[j]).value] else [])
  {
    var pre := cs[..j + 1];
    assert pre[..j] == cs[..j];
    var os := Runs(cs[..j], run);
    assert Runs(pre, run) == os + [run(cs[j])];
    assert (os + [run(cs[j])])[..|os|] == os;
  }

  /** What every run returns holds of every collected result. */
  lemma {:induction false} SomesOfRuns<T, R>(cs: seq<T>, run: T -> Option<R>, good: R -> bool)
    requires forall i :: 0 <= i < |cs| && run(cs[i]).Some? ==> good(run(cs[i]).value)
    ensures forall k :: 0 <= k < |Somes(Runs(cs, run))| ==> good(Somes(Runs(cs, run))[k])
  {
    if cs != [] {
      var init := cs[..|cs| - 1];
      forall i | 0 <= i < |init| && run(init[i]).Some? ensures good(run(init[i]).value) {
        assert init[i] == cs[i];
      }
      SomesOfRuns(init, run, good);
    }
  }

  /** qqq_tqqq_efficient.py's main keeps a result with at least three
      trades. */
  function EnoughTrades(r: Option<Report>): (k: Option<Report>)
    ensures k.Some? <==> r.Some? && r.value.numTrades >= 3
    ensures k.Some? ==> k == r
  {
    if r.Some? && r.value.numTrades >= 3 then r else None
  }

  /** The efficient script's three-trade filter over its one-trade backtest
      keeps a result exactly when qqq_tqqq_chunked.py's backtest, which
      asks for three trades itself, reports one, and then both have the
      same trades and final capital; they differ in the digits their
      returns and stored percentages keep. */
  lemma EfficientFilterIsChunkedBacktest(qqq: seq<real>, tqqq: seq<real>, prm: Params)
    requires PeriodsValid(prm) && |qqq| == |tqqq| && Positive(tqqq)
    ensures var e := EnoughTrades(EfficientBacktest(qqq, tqqq, prm)); var c := PairChunkedBacktest(qqq, tqqq, prm);
      (e.Some? <==> c.Some?)
      && (e.Some? && c.Some? ==> e.value.numTrades == c.value.numTrades && e.value.finalCapital == c.value.finalCapital)
  {
    if |qqq| >= 200 {
      var ss := PairSignals(qqq, prm, Centred, PairTable);
      var x := Series(tqqq, BuyColumn(ss), SellColumn(ss));
      var lim := LimitsOf(prm);
      assert EfficientBacktest(qqq, tqqq, prm) == Evaluation(EfficientConfig, lim, x);
      assert PairChunkedBacktest(qqq, tqqq, prm) == Evaluation(PairChunkedConfig, lim, x);
      EvaluationFacts(EfficientConfig, lim, x);
      EvaluationFacts(PairChunkedConfig, lim, x);
    }
  }

  // ---------------------------------------------------------------------
  // massive_grid_search.py: test_single_combo and the batches of 50.

  /** A combination with its symbol and timeframe. */
  datatype GridCombo = GridCombo(symbol: string, timeframe: string, prm: Params)

  /** The data fetch_data returns for a symbol and timeframe: None when the
      request fails. */
  type Fetch = (string, string) -> Option<seq<real>>

  predicate Testable(c: GridCombo, fetch: Fetch)
  {
    PeriodsValid(c.prm) && (fetch(c.symbol, c.timeframe).Some? ==> Positive(fetch(c.symbol, c.timeframe).value))
  }

  /** test_single_combo: None for an unordered MACD pair or a failed fetch,
      otherwise run_backtest's answer. */
  function TestSingleCombo(c: GridCombo, fetch: Fetch): (r: Option<Report>)
    requires Testable(c, fetch)
    ensures !MacdOrdered(c.prm) ==> r.None?
    ensures fetch(c.symbol, c.timeframe).None? ==> r.None?
    ensures MacdOrdered(c.prm) ==> r == MassiveBacktest(fetch(c.symbol, c.timeframe), c.prm)
    ensures r.Some? ==> Sensible(MassiveConfig, r.value)
  {
    if c.prm.macdFast >= c.prm.macdSlow then None
    else MassiveBacktest(fetch(c.symbol, c.timeframe), c.prm)
  }

  /** test_single_combo as a total function of the combination (the
      combinations of the grid are all testable). */
  function Attempt(fetch: Fetch): GridCombo -> Option<Report>
  {
    c => if Testable(c, fetch) then TestSingleCombo(c, fetch) else None
  }

  function Min(a: int, b: int): int
  {
    if a <= b then a else b
  }

  /** The number of batches: the ceiling of n / size. */
  function BatchCount(n: nat, size: nat): (total: nat)
    requires size > 0
    ensures size * total >= n && (total > 0 ==> size * (total - 1) < n)
  {
    (n + size - 1) / size
  }

  /** Batch k: the slice [k * size, min(k * size + size, n)). */
  function Batch<T>(xs: seq<T>, size: nat, k: nat): (b: seq<T>)
    requires size > 0 && k * size <= |xs|
    ensures |b| == Min(size, |xs| - k * size)
  {
    xs[k * size..Min(k * size + size, |xs|)]
  }

  /** The first m batches laid end to end. */
  function Batches<T>(xs: seq<T>, size: nat, m: nat): seq<T>
    requires size > 0 && (m > 0 ==> (m - 1) * size <= |xs|)
  {
    if m == 0 then [] else Batches(xs, size, m - 1) + Batch(xs, size, m - 1)
  }

  lemma {:induction false} BatchesArePrefix<T>(xs: seq<T>, size: nat, m: nat)
    requires size > 0 && (m > 0 ==> (m - 1) * size <= |xs|)
    ensures Batches(xs, size, m) == xs[..Min(m * size, |xs|)]
  {
    if m > 0 {
      BatchesArePrefix(xs, size, m - 1);
      assert (m - 1) * size + size == m * size;
    }
  }

  /** The batches cover the list exactly once, in order. */
  lemma BatchesPartition<T>(xs: seq<T>, size: nat)
    requires size > 0
    ensures Batches(xs, size, BatchCount(|xs|, size)) == xs
  {
    var total := BatchCount(|xs|, size);
    BatchesArePrefix(xs, size, total);
  }

  /** massive_grid_search.py's main loop: batches of 50, collecting the
      results the runs return, in order. */
  method RunBatches<T, R>(combos: seq<T>, run: T -> Option<R>) returns (results: seq<R>)
    ensures results == Somes(Runs(combos, run))
  {
    results := [];
    var batchSize := 50;
    var totalBatches := (|combos| + batchSize - 1) / batchSize;
    var batchNum := 0;
    while batchNum < totalBatches
      invariant 0 <= batchNum <= totalBatches
      invariant batchNum * 50 <= |combos| + 49
      invariant results == Somes(Runs(combos[..Min(batchNum * 50, |combos|)], run))
    {
      var startIdx := batchNum * batchSize;
      assert startIdx == batchNum * 50 < |combos|;
      var endIdx := Min(startIdx + batchSize, |combos|);
      var batch := combos[startIdx..endIdx];
      var found := RunBatch(batch, run);
      RunsSplit(combos, run, startIdx, endIdx);
      results := results + found;
      assert endIdx == Min((batchNum + 1) * 50, |combos|);
      batchNum := batchNum + 1;
    }
    assert combos[..Min(batchNum * 50, |combos|)] == combos;
  }

  /** One batch of RunBatches: the results of its runs, in order. */
  method RunBatch<T, R>(batch: seq<T>, run: T -> Option<R>) returns (found: seq<R>)
    ensures found == Somes(Runs(batch, run))
  {
    found := [];
    var k := 0;
    while k < |batch|
      invariant 0 <= k <= |batch|
      invariant found == Somes(Runs(batch[..k], run))
    {
      var result := run(batch[k]);
      RunsStep(batch, run, k);
      if result.Some? {
        found := found + [result.value];
      }
      k := k + 1;
    }
    assert batch[..k] == batch;
  }

  /** The runs of a prefix and of the batch after it make the runs of the
      longer prefix. */
  lemma RunsSplit<T, R>(cs: seq<T>, run: T -> Option<R>, lo: nat, hi: nat)
    requires lo <= hi <= |cs|
    ensures Somes(Runs(cs[..hi], run)) == Somes(Runs(cs[..lo], run)) + Somes(Runs(cs[lo..hi], run))
  {
    assert cs[..hi] == cs[..lo] + cs[lo..hi];
    RunsAppend(cs[..lo], cs[lo..hi], run);
    SomesAppend(Runs(cs[..lo], run), Runs(cs[lo..hi], run));
  }

  lemma {:induction false} RunsAppend<T, R>(a: seq<T>, b: seq<T>, run: T -> Option<R>)
    ensures Runs(a + b, run) == Runs(a, run) + Runs(b, run)
  {
    if b == [] {
      assert a + b == a;
    } else {
      var init, last := b[..|b| - 1], b[|b| - 1];
      RunsAppend(a, init, run);
      DropLastOfAppend(a, b);
      var ra, ri := Runs(a, run), Runs(init, run);
      assert Runs(b, run) == ri + [run(last)];
      assert Runs(a + b, run) == ra + ri + [run(last)];
      assert ra + ri + [run(last)] == ra + (ri + [run(last)]);
    }
  }

  lemma DropLastOfAppend<T>(a: seq<T>, b: seq<T>)
    requires b != []
    ensures (a + b)[..|a + b| - 1] == a + b[..|b| - 1]
    ensures (a + b)[|a + b| - 1] == b[|b| - 1]
  {
    var c, d := (a + b)[..|a + b| - 1], a + b[..|b| - 1];
    assert |c| == |d|;
    forall i | 0 <= i < |d| ensures c[i] == d[i] {
      if i < |a| {
        assert c[i] == a[i];
      } else {
        assert c[i] == b[i - |a|];
      }
    }
  }

  lemma {:induction false} SomesAppend<R>(x: seq<Option<R>>, y: seq<Option<R>>)
    ensures Somes(x + y) == Somes(x) + Somes(y)
  {
    if y == [] {
      assert x + y == x;
    } else {
      var init := y[..|y| - 1];
      SomesAppend(x, init);
      DropLastOfAppend(x, y);
    }
  }

  /** The massive search over its (filtered) combinations: the results are
      test_single_combo's, in order, each a sensible report. */
  method MassiveSearch(combos: seq<GridCombo>, fetch: Fetch) returns (results: seq<Report>)
    requires forall i :: 0 <= i < |combos| ==> Testable(combos[i], fetch)
    ensures |results| <= |combos|
    ensures forall i :: 0 <= i < |combos| ==> Runs(combos, Attempt(fetch))[i] == TestSingleCombo(combos[i], fetch)
    ensures results == Somes(Runs(combos, Attempt(fetch)))
    ensures forall k :: 0 <= k < |results| ==> Sensible(MassiveConfig, results[k])
  {
    results := RunBatches(combos, Attempt(fetch));
    RunsAt(combos, Attempt(fetch));
    SomesMembers(Runs(combos, Attempt(fetch)));
    SomesOfRuns(combos, Attempt(fetch), (r: Report) => Sensible(MassiveConfig, r));
  }

  // ---------------------------------------------------------------------
  // The best result, with the sentinel best = {'ret': -999}.

  function BestReturn(best: Option<Report>): real
  {
    if best.None? then -999.0 else best.value.totalReturn
  }

  function UpdateBest(best: Option<Report>, r: Report): (b: Option<Report>)
    ensures BestReturn(b) >= BestReturn(best) && BestReturn(b) >= r.totalReturn
    ensures b == best || b == Some(r)
  {
    if r.totalReturn > BestReturn(best) then Some(r) else best
  }

  function BestOf(rs: seq<Report>): Option<Report>
  {
    if rs == [] then None else UpdateBest(BestOf(rs[..|rs| - 1]), rs[|rs| - 1])
  }

  predicate AboveSentinel(rs: seq<Report>)
  {
    forall i :: 0 <= i < |rs| ==> rs[i].totalReturn > -999.0
  }

  /** Every reported result loses less than 100 percent, so it beats the
      sentinel. */
  lemma SensibleAboveSentinel(cfg: Config, rs: seq<Report>)
    requires forall i :: 0 <= i < |rs| ==> Sensible(cfg, rs[i])
    ensures AboveSentinel(rs)
  {
  }

  /** The best is a result with the largest return, the first one to reach
      it; there is one as soon as a result exists. */
  lemma {:induction false} BestIsFirstMaximum(rs: seq<Report>)
    requires AboveSentinel(rs)
    ensures BestOf(rs).Some? <==> rs != []
    ensures BestOf(rs).Some? ==> BestOf(rs).value in rs
    ensures forall i :: 0 <= i < |rs| ==> rs[i].totalReturn <= BestReturn(BestOf(rs))
    ensures forall i :: 0 <= i < |rs| && rs[i].totalReturn == BestReturn(BestOf(rs)) ==>
      BestOf(rs) == BestOf(rs[..i + 1])
  {
    if rs != [] {
      var init := rs[..|rs| - 1];
      BestIsFirstMaximum(init);
      forall i | 0 <= i < |rs| && rs[i].totalReturn == BestReturn(BestOf(rs))
        ensures BestOf(rs) == BestOf(rs[..i + 1])
      {
        if i < |rs| - 1 {
          assert init[i] == rs[i];
          assert init[..i + 1] == rs[..i + 1];
        } else {
          assert rs[..i + 1] == rs;
        }
      }
    }
  }

  // ---------------------------------------------------------------------
  // The ten best:
  //   top_10.append(r); top_10 = sorted(top_10, key=ret, reverse=True)[:10]

  predicate Descending(xs: seq<Report>)
  {
    forall i, j :: 0 <= i < j < |xs| ==> xs[j].totalReturn <= xs[i].totalReturn
  }

  /** How many leading entries return at least v. */
  function Slot(xs: seq<Report>, v: real): (p: nat)
    ensures p <= |xs|
    ensures forall i :: 0 <= i < p ==> xs[i].totalReturn >= v
    ensures p < |xs| ==> xs[p].totalReturn < v
  {
    if xs == [] || xs[0].totalReturn < v then 0 else 1 + Slot(xs[1..], v)
  }

  /** The stable descending sort of xs + [r] for a descending xs: r goes
      after every entry with an equal return. */
  function Insert(xs: seq<Report>, r: Report): (ys: seq<Report>)
    ensures |ys| == |xs| + 1
    ensures multiset(ys) == multiset(xs) + multiset{r}
  {
    var p := Slot(xs, r.totalReturn);
    assert xs == xs[..p] + xs[p..];
    xs[..p] + [r] + xs[p..]
  }

  lemma InsertShape(xs: seq<Report>, r: Report)
    ensures forall i :: 0 <= i < Slot(xs, r.totalReturn) ==> Insert(xs, r)[i] == xs[i]
    ensures Insert(xs, r)[Slot(xs, r.totalReturn)] == r
    ensures forall i :: Slot(xs, r.totalReturn) <= i < |xs| ==> Insert(xs, r)[i + 1] == xs[i]
  {
    var p := Slot(xs, r.totalReturn);
    SplicedShape(xs, p, r, Insert(xs, r));
  }

  /** The places of xs[..p] + [r] + xs[p..]. */
  lemma SplicedShape<T>(xs: seq<T>, p: nat, r: T, ys: seq<T>)
    requires p <= |xs| && ys == xs[..p] + [r] + xs[p..]
    ensures forall i :: 0 <= i < p ==> ys[i] == xs[i]
    ensures ys[p] == r
    ensures forall i :: p <= i < |xs| ==> ys[i + 1] == xs[i]
  {
  }

  /** Stability: the entries returning at least as much as r keep their
      places, r follows them and the others move down one place. */
  lemma InsertIsStable(xs: seq<Report>, r: Report)
    requires Descending(xs)
    ensures forall i :: 0 <= i < |xs| && xs[i].totalReturn >= r.totalReturn ==> Insert(xs, r)[i] == xs[i]
    ensures forall i :: 0 <= i < |xs| && xs[i].totalReturn < r.totalReturn ==> Insert(xs, r)[i + 1] == xs[i]
    ensures Insert(xs, r)[Slot(xs, r.totalReturn)] == r
  {
    InsertShape(xs, r);
    var p := Slot(xs, r.totalReturn);
    forall i | p < i < |xs| ensures xs[i].totalReturn < r.totalReturn {
      assert xs[i].totalReturn <= xs[p].totalReturn;
    }
  }

  /** The insertion keeps the list descending. */
  lemma InsertSorted(xs: seq<Report>, r: Report)
    requires Descending(xs)
    ensures Descending(Insert(xs, r))
  {
    var p := Slot(xs, r.totalReturn);
    var ys := Insert(xs, r);
    InsertShape(xs, r);
    forall i, j | 0 <= i < j < |ys| ensures ys[j].totalReturn <= ys[i].totalReturn {
      if j < p {
      } else if j == p {
      } else if i < p {
        assert ys[j] == xs[j - 1];
      } else if i == p {
        assert ys[j] == xs[j - 1];
      } else {
        assert ys[j] == xs[j - 1] && ys[i] == xs[i - 1];
      }
    }
  }

  function TopTen(xs: seq<Report>): (ys: seq<Report>)
    ensures |ys| == Min(10, |xs|) && ys == xs[..|ys|]
  {
    if |xs| <= 10 then xs else xs[..10]
  }

  datatype Leaders = Leaders(best: Option<Report>, top: seq<Report>)

  /** best and top_10 after the results rs, in order. */
  function Track(rs: seq<Report>): Leaders
  {
    if rs == [] then Leaders(None, [])
    else
      var l := Track(rs[..|rs| - 1]);
      var r := rs[|rs| - 1];
      Leaders(UpdateBest(l.best, r), TopTen(Insert(l.top, r)))
  }

  lemma SomesStep<R>(os: seq<Option<R>>, i: int)
    requires 0 <= i < |os|
    ensures Somes(os[..i + 1]) == Somes(os[..i]) + (if os[i].Some? then [os[i].value] else [])
  {
    assert os[..i + 1][..i] == os[..i];
  }

  lemma TrackStep(seen: seq<Report>, r: Report)
    ensures Track(seen + [r]) == Leaders(UpdateBest(Track(seen).best, r), TopTen(Insert(Track(seen).top, r)))
  {
    assert (seen + [r])[..|seen|] == seen;
  }

  /** The body of those loops for a result r: a strictly larger return
      replaces best, and r joins top_10. */
  method Offer(best: Option<Report>, top: seq<Report>, r: Report) returns (best': Option<Report>, top': seq<Report>)
    ensures best' == UpdateBest(best, r) && top' == TopTen(Insert(top, r))
  {
    best' := best;
    if r.totalReturn > BestReturn(best) {
      best' := Some(r);
    }
    top' := TopTen(Insert(top, r));
  }

  /** The main loops of qqq_tqqq_chunked.py and macd_deep_test.py, given
      the backtest outcomes in loop order. */
  method TrackLeaders(os: seq<Option<Report>>) returns (best: Option<Report>, top: seq<Report>)
    ensures Leaders(best, top) == Track(Somes(os))
  {
    best := None;
    top := [];
    var i := 0;
    assert os[..0] == [];
    while i < |os|
      invariant 0 <= i <= |os|
      invariant Leaders(best, top) == Track(Somes(os[..i]))
    {
      var best', top' := best, top;
      if os[i].Some? {
        best', top' := Offer(best, top, os[i].value);
      }
      TrackOne(os, i, best, top, best', top');
      best, top := best', top';
      i := i + 1;
    }
    assert os[..i] == os;
  }

  /** One pass of that loop: offering the outcome at i, if any, moves the
      leaders on to those of the first i + 1 outcomes. */
  lemma TrackOne(os: seq<Option<Report>>, i: int, best: Option<Report>, top: seq<Report>, best': Option<Report>, top': seq<Report>)
    requires 0 <= i < |os| && Leaders(best, top) == Track(Somes(os[..i]))
    requires os[i].Some? ==> best' == UpdateBest(best, os[i].value) && top' == TopTen(Insert(top, os[i].value))
    requires os[i].None? ==> best' == best && top' == top
    ensures Leaders(best', top') == Track(Somes(os[..i + 1]))
  {
    var seen := Somes(os[..i]);
    SomesStep(os, i);
    if os[i].Some? {
      var r := os[i].value;
      assert Somes(os[..i + 1]) == seen + [r];
      TrackStep(seen, r);
      assert Track(seen).best == best && Track(seen).top == top;
    } else {
      assert Somes(os[..i + 1]) == seen;
    }
  }

  /** Keeping the first ten keeps the order and takes entries of the list. */
  lemma TopTenFacts(ys: seq<Report>)
    ensures multiset(TopTen(ys)) <= multiset(ys)
    ensures Descending(ys) ==> Descending(TopTen(ys))
  {
    var t := TopTen(ys);
    assert ys == t + ys[|t|..];
  }

  /** top_10 stays sorted by return, holds min(10, n) entries, and takes
      them from the results. */
  lemma {:induction false} TopTenSorted(rs: seq<Report>)
    ensures Descending(Track(rs).top)
    ensures multiset(Track(rs).top) <= multiset(rs)
  {
    if rs != [] {
      var init := rs[..|rs| - 1];
      var r := rs[|rs| - 1];
      TopTenSorted(init);
      assert rs == init + [r];
      TopTenStep(init, r);
    }
  }

  lemma TopTenStep(init: seq<Report>, r: Report)
    requires Descending(Track(init).top) && multiset(Track(init).top) <= multiset(init)
    ensures Descending(Track(init + [r]).top) && multiset(Track(init + [r]).top) <= multiset(init + [r])
  {
    TrackStep(init, r);
    var before := Track(init).top;
    InsertSorted(before, r);
    TopTenFacts(Insert(before, r));
    assert multiset(init + [r]) == multiset(init) + multiset{r};
  }

  /** top_10 holds min(10, n) entries. */
  lemma {:induction false} TopTenSize(rs: seq<Report>)
    ensures |Track(rs).top| == Min(10, |rs|)
  {
    if rs != [] {
      var init := rs[..|rs| - 1];
      TopTenSize(init);
      var ys := Insert(Track(init).top, rs[|rs| - 1]);
      assert |ys| == Min(10, |init|) + 1;
      assert |Track(rs).top| == Min(10, |ys|);
    }
  }

  /** Inserting into a descending list of ten and keeping ten never lowers
      the tenth return. */
  lemma TenthRises(xs: seq<Report>, r: Report)
    requires Descending(xs) && |xs| == 10
    ensures TopTen(Insert(xs, r))[9].totalReturn >= xs[9].totalReturn
  {
    InsertShape(xs, r);
    var p := Slot(xs, r.totalReturn);
    if p <= 8 {
      assert Insert(xs, r)[9] == xs[8];
    } else if p == 10 {
      assert Insert(xs, r)[9] == xs[9];
    }
  }

  /** An entry of a descending list is among its first ten or returns no
      more than the tenth. */
  lemma InTopOrBelow(ys: seq<Report>, x: Report)
    requires Descending(ys) && x in ys
    ensures x in TopTen(ys) || (|TopTen(ys)| == 10 && x.totalReturn <= TopTen(ys)[9].totalReturn)
  {
    var k :| 0 <= k < |ys| && ys[k] == x;
    var t := TopTen(ys);
    if k < |t| {
      assert t[k] == x;
    } else {
      assert t[9] == ys[9];
    }
  }

  lemma InsertKeeps(xs: seq<Report>, r: Report)
    ensures r in Insert(xs, r)
    ensures forall x :: x in xs ==> x in Insert(xs, r)
  {
    var ys := Insert(xs, r);
    assert multiset(ys)[r] > 0;
    forall x | x in xs ensures x in ys {
      assert multiset(xs)[x] > 0;
    }
  }

  /** Every result is in top_10 or returns no more than its tenth entry. */
  lemma {:induction false} TopTenHoldsTheBest(rs: seq<Report>)
    ensures forall i :: 0 <= i < |rs| ==>
      rs[i] in Track(rs).top || (|Track(rs).top| == 10 && rs[i].totalReturn <= Track(rs).top[9].totalReturn)
  {
    if rs != [] {
      var init := rs[..|rs| - 1];
      var r := rs[|rs| - 1];
      TopTenHoldsTheBest(init);
      TopTenSorted(init);
      var before := Track(init).top;
      var ys := Insert(before, r);
      var top := TopTen(ys);
      assert Track(rs).top == top;
      InsertSorted(before, r);
      InsertKeeps(before, r);
      if |before| == 10 {
        TenthRises(before, r);
      }
      forall i | 0 <= i < |rs|
        ensures rs[i] in top || (|top| == 10 && rs[i].totalReturn <= top[9].totalReturn)
      {
        if i == |rs| - 1 {
          InTopOrBelow(ys, r);
        } else {
          assert init[i] == rs[i];
          if rs[i] in before {
            InTopOrBelow(ys, rs[i]);
          } else {
            assert |ys| == 11;
          }
        }
      }
    }
  }

  /** The first entry of top_10 is the best: strict > keeps the first of
      equal returns, and so does the stable sort. */
  lemma {:induction false} TopTenLeadsWithBest(rs: seq<Report>)
    requires AboveSentinel(rs) && rs != []
    ensures Track(rs).best.Some? && |Track(rs).top| > 0 && Track(rs).top[0] == Track(rs).best.value
  {
    var init := rs[..|rs| - 1];
    var r := rs[|rs| - 1];
    TopTenSorted(rs);
    if init == [] {
      assert Track(init).top == [];
    } else {
      assert AboveSentinel(init) by {
        forall i | 0 <= i < |init| ensures init[i].totalReturn > -999.0 {
          assert init[i] == rs[i];
        }
      }
      TopTenLeadsWithBest(init);
      TopTenSorted(init);
      InsertIsStable(Track(init).top, r);
    }
  }

  // ---------------------------------------------------------------------
  // complete_test.py: resuming from the completed set, batches of 100.

  predicate Usable(c: Combo)
  {
    c.fast >= 1 && c.slow >= 1 && c.tail.signal >= 1
  }

  /** The data both symbols share after the timestamp intersection. */
  predicate Aligned(qqq: seq<real>, tqqq: seq<real>)
  {
    |qqq| == |tqqq| && Positive(tqqq)
  }

  function CompleteRun(qqq: seq<real>, tqqq: seq<real>, c: Combo): (r: Option<Report>)
    requires Usable(c) && Aligned(qqq, tqqq)
    ensures r.Some? ==> Sensible(CompleteConfig, r.value)
  {
    CompleteBacktest(qqq, tqqq, c.fast, c.slow, c.tail.signal, c.tail.stopLoss, c.tail.takeProfit, c.tail.strategy)
  }

  /** backtest for one combination on the fixed data. */
  function CompleteAttempt(qqq: seq<real>, tqqq: seq<real>): Combo -> Option<Report>
  {
    c => if Usable(c) && Aligned(qqq, tqqq) then CompleteRun(qqq, tqqq, c) else None
  }

  /** remaining: the combinations not yet completed, in their order. */
  function Remaining<C(==,!new)>(all: seq<C>, completed: set<C>): (rem: seq<C>)
    ensures forall c :: c in rem <==> c in all && c !in completed
  {
    Keep(all, c => c !in completed)
  }

  lemma {:induction false} KeepAll<T(!new)>(rows: seq<T>, ok: T -> bool)
    requires forall i :: 0 <= i < |rows| ==> ok(rows[i])
    ensures Keep(rows, ok) == rows
  {
    if rows != [] {
      var init, last := rows[..|rows| - 1], rows[|rows| - 1];
      assert ok(last);
      assert Keep(rows, ok) == Keep(init, ok) + [last];
      KeepAll(init, ok);
      assert init + [last] == rows;
    }
  }

  lemma {:induction false} KeepNone<T(!new)>(rows: seq<T>, ok: T -> bool)
    requires forall i :: 0 <= i < |rows| ==> !ok(rows[i])
    ensures Keep(rows, ok) == []
  {
    if rows != [] {
      KeepNone(rows[..|rows| - 1], ok);
    }
  }

  /** The loop's variables: completed, the results written so far, tested
      and best. */
  datatype Progress<C> = Progress(completed: set<C>, results: seq<Report>, tested: nat, best: Option<Report>)

  function Visit<C>(p: Progress<C>, c: C, r: Option<Report>): Progress<C>
  {
    Progress(p.completed + {c},
             if r.Some? then p.results + [r.value] else p.results,
             p.tested + 1,
             if r.Some? then UpdateBest(p.best, r.value) else p.best)
  }

  /** The progress after running the combinations cs from p. */
  function Sweep<C>(p: Progress<C>, cs: seq<C>, run: C -> Option<Report>): Progress<C>
  {
    if cs == [] then p
    else
      var c := cs[|cs| - 1];
      Visit(Sweep(p, cs[..|cs| - 1], run), c, run(c))
  }

  function Resumed<C>(completed: set<C>): Progress<C>
  {
    Progress(completed, [], |completed|, None)
  }

  lemma SweepStep<C>(p: Progress<C>, cs: seq<C>, run: C -> Option<Report>, j: int)
    requires 0 <= j < |cs|
    ensures Sweep(p, cs[..j + 1], run) == Visit(Sweep(p, cs[..j], run), cs[j], run(cs[j]))
  {
    assert cs[..j + 1][..j] == cs[..j];
  }

  /** Sweep over a concatenation is one sweep after the other. */
  lemma {:induction false} SweepAppend<C>(p: Progress<C>, a: seq<C>, b: seq<C>, run: C -> Option<Report>)
    ensures Sweep(p, a + b, run) == Sweep(Sweep(p, a, run), b, run)
  {
    if b == [] {
      assert a + b == a;
    } else {
      DropLastOfAppend(a, b);
      SweepAppend(p, a, b[..|b| - 1], run);
    }
  }

  /** One batch of complete_test.py's main loop. */
  method SweepBatch<C>(before: Progress<C>, batch: seq<C>, run: C -> Option<Report>) returns (after: Progress<C>)
    ensures after == Sweep(before, batch, run)
  {
    var completed, results, tested, best := before.completed, before.results, before.tested, before.best;
    ghost var st := before;
    var k := 0;
    while k < |batch|
      invariant 0 <= k <= |batch|
      invariant st == Sweep(before, batch[..k], run)
      invariant Progress(completed, results, tested, best) == st
    {
      var c := batch[k];
      SweepStep(before, batch, run, k);
      var r := run(c);
      st := Visit(st, c, r);
      if r.Some? {
        results := results + [r.value];
        if r.value.totalReturn > BestReturn(best) {
          best := r;
        }
      }
      completed := completed + {c};
      tested := tested + 1;
      k := k + 1;
    }
    assert batch[..k] == batch;
    after := Progress(completed, results, tested, best);
  }

  /** complete_test.py's main loop after loading the progress file. */
  method ResumeSweep<C(==,!new)>(all: seq<C>, done: set<C>, run: C -> Option<Report>) returns (p: Progress<C>)
    ensures p == Sweep(Resumed(done), Remaining(all, done), run)
  {
    var completed := done;
    var remaining := Remaining(all, done);
    if remaining == [] {
      return Resumed(completed);
    }
    var batchSize := 100;
    var tested: nat := |completed|;
    var results: seq<Report> := [];
    var best: Option<Report> := None;
    ghost var st := Resumed(done);
    var batchStart := 0;
    while batchStart < |remaining|
      invariant 0 <= batchStart
      invariant st == Sweep(Resumed(done), remaining[..Min(batchStart, |remaining|)], run)
      invariant Progress(completed, results, tested, best) == st
    {
      var batchEnd := Min(batchStart + batchSize, |remaining|);
      var batch := remaining[batchStart..batchEnd];
      var after := SweepBatch(Progress(completed, results, tested, best), batch, run);
      completed, results, tested, best := after.completed, after.results, after.tested, after.best;
      SweepAppend(Resumed(done), remaining[..batchStart], batch, run);
      assert remaining[..batchStart] + batch == remaining[..batchEnd];
      st := after;
      batchStart := batchStart + batchSize;
    }
    assert remaining[..Min(batchStart, |remaining|)] == remaining;
    p := Progress(completed, results, tested, best);
  }

  /** After a sweep every combination it ran is completed, tested counts
      them, the results are the runs that returned one, and best is the
      best of them. */
  lemma {:induction false} SweepFacts<C>(p: Progress<C>, cs: seq<C>, run: C -> Option<Report>)
    ensures forall c :: c in Sweep(p, cs, run).completed <==> c in p.completed || c in cs
    ensures Sweep(p, cs, run).tested == p.tested + |cs|
    ensures Sweep(p, cs, run).results == p.results + Somes(Runs(cs, run))
    ensures p.best == BestOf(p.results) ==> Sweep(p, cs, run).best == BestOf(Sweep(p, cs, run).results)
  {
    if cs != [] {
      var init := cs[..|cs| - 1];
      var c := cs[|cs| - 1];
      SweepFacts(p, init, run);
      var q := Sweep(p, init, run);
      assert cs == init + [c];
      assert Runs(cs, run) == Runs(init, run) + [run(c)];
      assert (Runs(init, run) + [run(c)])[..|Runs(init, run)|] == Runs(init, run);
      if run(c).Some? {
        assert (q.results + [run(c).value])[..|q.results|] == q.results;
      }
    }
  }

  /** A resumed complete_test run completes all combinations, so a further
      resume finds nothing remaining; tested ends at the completed count
      plus the remaining ones; the results are sensible reports and best is
      a result with the largest return. */
  lemma ResumeCompletes(qqq: seq<real>, tqqq: seq<real>, all: seq<Combo>, done: set<Combo>)
    requires Aligned(qqq, tqqq) && forall i :: 0 <= i < |all| ==> Usable(all[i])
    ensures var p := Sweep(Resumed(done), Remaining(all, done), CompleteAttempt(qqq, tqqq));
      (forall c :: c in p.completed <==> c in done || c in all)
      && Remaining(all, p.completed) == []
      && p.tested == |done| + |Remaining(all, done)|
      && (forall k :: 0 <= k < |p.results| ==> Sensible(CompleteConfig, p.results[k]))
      && p.best == BestOf(p.results)
      && (p.results != [] ==>
            (p.best.Some? && p.best.value in p.results
             && forall k :: 0 <= k < |p.results| ==> p.results[k].totalReturn <= p.best.value.totalReturn))
  {
    var run := CompleteAttempt(qqq, tqqq);
    ResumeCovers(all, done, run);
    ResumeResults(qqq, tqqq, all, done);
  }

  /** A resumed sweep completes every combination and counts them. */
  lemma ResumeCovers(all: seq<Combo>, done: set<Combo>, run: Combo -> Option<Report>)
    ensures var p := Sweep(Resumed(done), Remaining(all, done), run);
      (forall c :: c in p.completed <==> c in done || c in all)
      && Remaining(all, p.completed) == []
      && p.tested == |done| + |Remaining(all, done)|
  {
    var rem := Remaining(all, done);
    SweepFacts(Resumed(done), rem, run);
    var p := Sweep(Resumed(done), rem, run);
    KeepNone(all, c => c !in p.completed);
  }

  /** The results of a resumed complete_test run are sensible and best is a
      result with the largest return. */
  lemma ResumeResults(qqq: seq<real>, tqqq: seq<real>, all: seq<Combo>, done: set<Combo>)
    requires Aligned(qqq, tqqq) && forall i :: 0 <= i < |all| ==> Usable(all[i])
    ensures var p := Sweep(Resumed(done), Remaining(all, done), CompleteAttempt(qqq, tqqq));
      (forall k :: 0 <= k < |p.results| ==> Sensible(CompleteConfig, p.results[k]))
      && p.best == BestOf(p.results)
      && (p.results != [] ==>
            (p.best.Some? && p.best.value in p.results
             && forall k :: 0 <= k < |p.results| ==> p.results[k].totalReturn <= p.best.value.totalReturn))
  {
    var run := CompleteAttempt(qqq, tqqq);
    var rem := Remaining(all, done);
    SweepFacts(Resumed(done), rem, run);
    var p := Sweep(Resumed(done), rem, run);
    RemainingRunsSensible(qqq, tqqq, all, done);
    assert p.results == Somes(Runs(rem, run));
    SensibleAboveSentinel(CompleteConfig, p.results);
    BestIsFirstMaximum(p.results);
  }

  /** Every result of the remaining combinations is a sensible report. */
  lemma RemainingRunsSensible(qqq: seq<real>, tqqq: seq<real>, all: seq<Combo>, done: set<Combo>)
    requires Aligned(qqq, tqqq) && forall i :: 0 <= i < |all| ==> Usable(all[i])
    ensures var rs := Somes(Runs(Remaining(all, done), CompleteAttempt(qqq, tqqq)));
      forall k :: 0 <= k < |rs| ==> Sensible(CompleteConfig, rs[k])
  {
    var run := CompleteAttempt(qqq, tqqq);
    var rem := Remaining(all, done);
    forall i | 0 <= i < |rem| && run(rem[i]).Some? ensures Sensible(CompleteConfig, run(rem[i]).value) {
      assert rem[i] in all;
    }
    SomesOfRuns(rem, run, (r: Report) => Sensible(CompleteConfig, r));
  }
}
