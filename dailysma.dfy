// Daily moving-average tables: the rolling SMA of the daily signal closes,
// the lookups built from it, and the "mean of the previous N daily closes"
// table that the scripts working from intraday bars alone compute.
module DailySma {
  import opened Core

  /** One row of the daily signal series, sorted by date. */
  datatype DailyBar = DailyBar(day: int, close: real)

  predicate StrictlyAscending(rows: seq<DailyBar>)
  {
    forall i, j :: 0 <= i < j < |rows| ==> rows[i].day < rows[j].day
  }

  function CloseSeq(rows: seq<DailyBar>): (c: seq<real>)
    ensures |c| == |rows| && forall i :: 0 <= i < |rows| ==> c[i] == rows[i].close
  {
    seq(|rows|, i requires 0 <= i < |rows| => rows[i].close)
  }

  /** `close.rolling(p).mean()` at row i: undefined (NaN) for the first p - 1
      rows, else the mean of the closes of rows i - p + 1 .. i. */
  function Rolling(rows: seq<DailyBar>, p: nat, i: int): (r: Option<real>)
    requires 0 <= i < |rows|
    ensures r.Some? <==> 1 <= p && p - 1 <= i
  {
    if 1 <= p && p - 1 <= i then Some(WindowMean(rows, i - p + 1, i + 1)) else None
  }

  /** Mean of the closes of rows lo .. hi - 1. */
  function WindowMean(rows: seq<DailyBar>, lo: int, hi: int): real
    requires 0 <= lo < hi <= |rows|
  {
    Sum(CloseSeq(rows)[lo..hi]) / (hi - lo) as real
  }

  /** sma_by_date after the first n rows: the rows with a defined SMA. */
  function SmaUpTo(rows: seq<DailyBar>, p: nat, n: nat): map<int, real>
    requires n <= |rows|
  {
    if n == 0 then map[]
    else
      var m := SmaUpTo(rows, p, n - 1);
      match Rolling(rows, p, n - 1)
      case None => m
      case Some(v) => m[rows[n - 1].day := v]
  }

  /** daily_close_by_date after the first n rows: closes of the same rows. */
  function CloseUpTo(rows: seq<DailyBar>, p: nat, n: nat): map<int, real>
    requires n <= |rows|
  {
    if n == 0 then map[]
    else
      var m := CloseUpTo(rows, p, n - 1);
      if Rolling(rows, p, n - 1).Some? then m[rows[n - 1].day := rows[n - 1].close] else m
  }

  function SmaTable(rows: seq<DailyBar>, p: nat): map<int, real>
  {
    SmaUpTo(rows, p, |rows|)
  }

  function CloseTable(rows: seq<DailyBar>, p: nat): map<int, real>
  {
    CloseUpTo(rows, p, |rows|)
  }

  /** The loop that fills sma_by_date and daily_close_by_date. */
  method BuildTables(rows: seq<DailyBar>, p: nat) returns (sma: map<int, real>, close: map<int, real>)
    ensures sma == SmaTable(rows, p) && close == CloseTable(rows, p)
  {
    sma, close := map[], map[];
    var i := 0;
    while i < |rows|
      invariant 0 <= i <= |rows|
      invariant sma == SmaUpTo(rows, p, i) && close == CloseUpTo(rows, p, i)
    {
      var v := Rolling(rows, p, i);
      if v.Some? {
        sma := sma[rows[i].day := v.value];
        close := close[rows[i].day := rows[i].close];
      }
      i := i + 1;
    }
  }

  /** Every key of the two tables is the date of a row with a defined SMA. */
  lemma {:induction false} TableKeys(rows: seq<DailyBar>, p: nat, n: nat)
    requires n <= |rows|
    ensures SmaUpTo(rows, p, n).Keys == CloseUpTo(rows, p, n).Keys
    ensures forall d :: d in SmaUpTo(rows, p, n) ==> exists i :: 0 <= i < n && rows[i].day == d && Rolling(rows, p, i).Some?
  {
    if n > 0 {
      TableKeys(rows, p, n - 1);
      var m := SmaUpTo(rows, p, n);
      forall d | d in m ensures exists i :: 0 <= i < n && rows[i].day == d && Rolling(rows, p, i).Some? {
        if d in SmaUpTo(rows, p, n - 1) {
          var i :| 0 <= i < n - 1 && rows[i].day == d && Rolling(rows, p, i).Some?;
        } else {
          assert rows[n - 1].day == d && Rolling(rows, p, n - 1).Some?;
        }
      }
    }
  }

  /** The row a key of the SMA table comes from. */
  lemma {:induction false} KeyRow(rows: seq<DailyBar>, p: nat, n: nat, d: int) returns (j: int)
    requires n <= |rows| && d in SmaUpTo(rows, p, n)
    ensures 0 <= j < n && rows[j].day == d && Rolling(rows, p, j).Some?
  {
    var m := SmaUpTo(rows, p, n - 1);
    if Rolling(rows, p, n - 1).Some? && rows[n - 1].day == d {
      j := n - 1;
    } else {
      assert d in m;
      j := KeyRow(rows, p, n - 1, d);
    }
  }

  /** On strictly ascending dates, exactly the rows from p - 1 on have an
      entry, holding their rolling mean and their close. */
  lemma {:induction false} TablesAt(rows: seq<DailyBar>, p: nat, n: nat, i: int)
    requires StrictlyAscending(rows) && n <= |rows| && 0 <= i < |rows|
    ensures rows[i].day in SmaUpTo(rows, p, n) <==> i < n && Rolling(rows, p, i).Some?
    ensures rows[i].day in CloseUpTo(rows, p, n) <==> i < n && Rolling(rows, p, i).Some?
    ensures i < n && Rolling(rows, p, i).Some? ==>
      SmaUpTo(rows, p, n)[rows[i].day] == Rolling(rows, p, i).value && CloseUpTo(rows, p, n)[rows[i].day] == rows[i].close
  {
    if n > 0 {
      TablesAt(rows, p, n - 1, i);
      var k := n - 1;
      if i != k {
        assert rows[i].day != rows[k].day;
      }
      var r := Rolling(rows, p, k);
      if r.Some? {
        assert SmaUpTo(rows, p, n) == SmaUpTo(rows, p, k)[rows[k].day := r.value];
        assert CloseUpTo(rows, p, n) == CloseUpTo(rows, p, k)[rows[k].day := rows[k].close];
      } else {
        assert SmaUpTo(rows, p, n) == SmaUpTo(rows, p, k) && CloseUpTo(rows, p, n) == CloseUpTo(rows, p, k);
      }
    }
  }

  /** The latest key strictly before d, i.e. `max(sd for sd in keys if sd < d)`,
      or None when no key is earlier. */
  function LatestKeyBefore(keys: set<int>, d: int): (r: Option<int>)
    ensures r.None? <==> forall k :: k in keys ==> d <= k
    ensures r.Some? ==> r.value in keys && r.value < d && forall k :: k in keys && k < d ==> k <= r.value
  {
    var earlier := set k | k in keys && k < d;
    if earlier == {} then
      assert forall k :: k in keys ==> d <= k by {
        forall k | k in keys ensures d <= k {
          assert k !in earlier;
        }
      }
      None
    else
      MaxExists(earlier);
      var m :| m in earlier && forall k :: k in earlier ==> k <= m;
      assert forall k :: k in keys && k < d ==> k <= m by {
        forall k | k in keys && k < d ensures k <= m {
          assert k in earlier;
        }
      }
      Some(m)
  }

  lemma MaxExists(s: set<int>)
    requires s != {}
    ensures exists m :: m in s && forall k :: k in s ==> k <= m
  {
    var m := MaxOf(s);
  }

  lemma {:induction false} MaxOf(s: set<int>) returns (m: int)
    requires s != {}
    ensures m in s && forall k :: k in s ==> k <= m
    decreases |s|
  {
    Inhabited(s);
    var x :| x in s;
    if s == {x} {
      m := x;
    } else {
      var rest := MaxOf(s - {x});
      m := if x > rest then x else rest;
      forall k | k in s ensures k <= m {
        if k != x {
          assert k in s - {x};
        }
      }
    }
  }

  lemma Inhabited(s: set<int>)
    ensures s == {} || exists y :: y in s
  {
    if forall y :: y !in s {
      assert s == {};
    }
  }

  /** The intraday reference of the scripts that look up the latest SMA of a
      strictly earlier date. */
  function RefSma(sma: map<int, real>, d: int): (r: Option<real>)
    ensures r.None? <==> forall k :: k in sma ==> d <= k
    ensures r.Some? ==> exists k :: k in sma && k < d && r.value == sma[k]
  {
    match LatestKeyBefore(sma.Keys, d)
    case None => None
    case Some(k) => Some(sma[k])
  }

  /** For a daily row with a defined SMA on the row before it, the latest
      earlier SMA date is that previous row: the reference is yesterday's SMA. */
  lemma LatestBeforeIsPreviousRow(rows: seq<DailyBar>, p: nat, i: int)
    requires StrictlyAscending(rows) && 0 < i < |rows| && Rolling(rows, p, i - 1).Some?
    ensures LatestKeyBefore(SmaTable(rows, p).Keys, rows[i].day) == Some(rows[i - 1].day)
    ensures RefSma(SmaTable(rows, p), rows[i].day) == Rolling(rows, p, i - 1)
  {
    TablesAt(rows, p, |rows|, i - 1);
    NothingBetween(rows, p, i);
    LatestKeyIs(SmaTable(rows, p).Keys, rows[i].day, rows[i - 1].day);
  }

  /** No SMA date falls before row i's date and after row i - 1's. */
  lemma NothingBetween(rows: seq<DailyBar>, p: nat, i: int)
    requires StrictlyAscending(rows) && 0 < i < |rows|
    ensures NoKeyBetween(SmaTable(rows, p).Keys, rows[i - 1].day, rows[i].day)
  {
    forall k | k in SmaTable(rows, p).Keys && k < rows[i].day ensures k <= rows[i - 1].day {
      var j := KeyRow(rows, p, |rows|, k);
      RowOrderIsDayOrder(rows, j, i);
      RowOrderIsDayOrder(rows, j, i - 1);
    }
  }

  predicate NoKeyBetween(keys: set<int>, lo: int, hi: int)
  {
    forall k :: k in keys && k < hi ==> k <= lo
  }

  lemma LatestKeyIs(keys: set<int>, d: int, x: int)
    requires x in keys && x < d && NoKeyBetween(keys, x, d)
    ensures LatestKeyBefore(keys, d) == Some(x)
  {
    var r := LatestKeyBefore(keys, d);
    assert r.Some?;
    assert x <= r.value;
  }

  /** On strictly ascending rows, row order and date order agree. */
  lemma RowOrderIsDayOrder(rows: seq<DailyBar>, a: int, b: int)
    requires StrictlyAscending(rows) && 0 <= a < |rows| && 0 <= b < |rows|
    ensures a < b <==> rows[a].day < rows[b].day
    ensures a == b <==> rows[a].day == rows[b].day
  {
    if a < b {
      assert rows[a].day < rows[b].day;
    } else if b < a {
      assert rows[b].day < rows[a].day;
    }
  }

  // ----- sma50_v6.py: previous row among the SMA-valid dates -----

  /** sorted_daily_dates after the first n rows. */
  function ValidDaysUpTo(rows: seq<DailyBar>, p: nat, n: nat): seq<int>
    requires n <= |rows|
  {
    if n == 0 then []
    else ValidDaysUpTo(rows, p, n - 1) + (if Rolling(rows, p, n - 1).Some? then [rows[n - 1].day] else [])
  }

  /** prev_sma_by_date[dates[i]] = sma_by_date[dates[i - 1]] for the first n
      indices of `dates`. */
  function PrevFromListUpTo(dates: seq<int>, sma: map<int, real>, n: nat): map<int, real>
    requires n <= |dates|
    requires forall j :: 0 <= j < |dates| ==> dates[j] in sma
  {
    if n <= 1 then map[]
    else PrevFromListUpTo(dates, sma, n - 1)[dates[n - 1] := sma[dates[n - 2]]]
  }

  lemma {:induction false} ValidDaysInTable(rows: seq<DailyBar>, p: nat, n: nat)
    requires n <= |rows|
    ensures forall j :: 0 <= j < |ValidDaysUpTo(rows, p, n)| ==> ValidDaysUpTo(rows, p, n)[j] in SmaUpTo(rows, p, n)
    ensures |ValidDaysUpTo(rows, p, n)| <= n
  {
    if n > 0 {
      ValidDaysInTable(rows, p, n - 1);
      var prev := ValidDaysUpTo(rows, p, n - 1);
      var cur := ValidDaysUpTo(rows, p, n);
      forall j | 0 <= j < |cur| ensures cur[j] in SmaUpTo(rows, p, n) {
        if j < |prev| {
          assert cur[j] == prev[j];
        }
      }
    }
  }

  /** With a window p >= 1 the SMA-valid rows are the rows p - 1 .. , so
      sorted_daily_dates lists their dates in order. */
  lemma {:induction false} ValidDaysAreTail(rows: seq<DailyBar>, p: nat, n: nat)
    requires 1 <= p && n <= |rows|
    ensures |ValidDaysUpTo(rows, p, n)| == (if n < p then 0 else n - p + 1)
    ensures forall j :: 0 <= j < |ValidDaysUpTo(rows, p, n)| ==> ValidDaysUpTo(rows, p, n)[j] == rows[j + p - 1].day
  {
    if n > 0 {
      ValidDaysAreTail(rows, p, n - 1);
      var prev := ValidDaysUpTo(rows, p, n - 1);
      if p - 1 <= n - 1 {
        var cur := prev + [rows[n - 1].day];
        assert ValidDaysUpTo(rows, p, n) == cur;
        forall j | 0 <= j < |cur| ensures cur[j] == rows[j + p - 1].day {
          if j < |prev| {
            assert cur[j] == prev[j];
          }
        }
      } else {
        assert ValidDaysUpTo(rows, p, n) == prev;
      }
    }
  }

  method BuildV6Tables(rows: seq<DailyBar>, p: nat) returns (sma: map<int, real>, close: map<int, real>, dates: seq<int>, prev: map<int, real>)
    ensures sma == SmaTable(rows, p) && close == CloseTable(rows, p) && dates == ValidDaysUpTo(rows, p, |rows|)
    ensures prev == V6PrevTable(rows, p)
  {
    sma, close, dates := map[], map[], [];
    var i := 0;
    while i < |rows|
      invariant 0 <= i <= |rows|
      invariant sma == SmaUpTo(rows, p, i) && close == CloseUpTo(rows, p, i) && dates == ValidDaysUpTo(rows, p, i)
    {
      var v := Rolling(rows, p, i);
      SmaStep(rows, p, i);
      if v.Some? {
        sma := sma[rows[i].day := v.value];
        close := close[rows[i].day := rows[i].close];
        dates := dates + [rows[i].day];
      }
      i := i + 1;
    }
    ValidDaysInTable(rows, p, |rows|);
    prev := PreviousByDate(dates, sma);
  }

  /** Lines 51-54 of sma50_v6.py: each listed date after the first gets the
      SMA of the date listed before it. */
  method PreviousByDate(dates: seq<int>, sma: map<int, real>) returns (prev: map<int, real>)
    requires forall j :: 0 <= j < |dates| ==> dates[j] in sma
    ensures prev == PrevFromListUpTo(dates, sma, |dates|)
  {
    prev := map[];
    var k := 1;
    while k < |dates|
      invariant 1 <= k <= |dates| || (|dates| == 0 && k == 1)
      invariant prev == PrevFromListUpTo(dates, sma, if |dates| == 0 then 0 else k)
    {
      prev := prev[dates[k] := sma[dates[k - 1]]];
      k := k + 1;
    }
  }

  lemma {:induction false} PrevFromListAt(dates: seq<int>, sma: map<int, real>, n: nat, j: int)
    requires n <= |dates| && 0 <= j < |dates| && forall k :: 0 <= k < |dates| ==> dates[k] in sma
    requires forall a, b :: 0 <= a < b < |dates| ==> dates[a] < dates[b]
    ensures dates[j] in PrevFromListUpTo(dates, sma, n) <==> 1 <= j < n
    ensures 1 <= j < n ==> PrevFromListUpTo(dates, sma, n)[dates[j]] == sma[dates[j - 1]]
  {
    if n > 1 {
      PrevFromListAt(dates, sma, n - 1, j);
      if j != n - 1 {
        assert dates[j] != dates[n - 1];
      }
    }
  }

  lemma {:induction false} PrevFromListKeys(dates: seq<int>, sma: map<int, real>, n: nat)
    requires n <= |dates| && forall k :: 0 <= k < |dates| ==> dates[k] in sma
    ensures forall d :: d in PrevFromListUpTo(dates, sma, n) ==> exists j :: 1 <= j < n && dates[j] == d
  {
    if n > 1 {
      PrevFromListKeys(dates, sma, n - 1);
      forall d | d in PrevFromListUpTo(dates, sma, n) ensures exists j :: 1 <= j < n && dates[j] == d {
        if d != dates[n - 1] {
          assert d in PrevFromListUpTo(dates, sma, n - 1);
        }
      }
    }
  }

  /** prev_sma_by_date as the loop over sorted_daily_dates leaves it. */
  function V6PrevTable(rows: seq<DailyBar>, p: nat): map<int, real>
  {
    ValidDaysInTable(rows, p, |rows|);
    var dates := ValidDaysUpTo(rows, p, |rows|);
    PrevFromListUpTo(dates, SmaTable(rows, p), |dates|)
  }

  lemma ValidDaysAscending(rows: seq<DailyBar>, p: nat)
    requires StrictlyAscending(rows) && 1 <= p
    ensures forall a, b :: 0 <= a < b < |ValidDaysUpTo(rows, p, |rows|)| ==> ValidDaysUpTo(rows, p, |rows|)[a] < ValidDaysUpTo(rows, p, |rows|)[b]
  {
    var dates := ValidDaysUpTo(rows, p, |rows|);
    ValidDaysAreTail(rows, p, |rows|);
    forall a, b | 0 <= a < b < |dates| ensures dates[a] < dates[b] {
      assert dates[a] == rows[a + p - 1].day && dates[b] == rows[b + p - 1].day;
    }
  }

  /** prev_sma_by_date: a date has an entry exactly when the daily row before
      it has an SMA, and the entry is that row's SMA. */
  lemma V6PrevMeaning(rows: seq<DailyBar>, p: nat, i: int)
    requires StrictlyAscending(rows) && 1 <= p && 0 <= i < |rows|
    ensures rows[i].day in V6PrevTable(rows, p) <==> p <= i
    ensures p <= i ==> V6PrevTable(rows, p)[rows[i].day] == Rolling(rows, p, i - 1).value
  {
    if p <= i {
      V6PrevPresent(rows, p, i);
    } else {
      V6PrevAbsent(rows, p, i);
    }
  }

  lemma V6PrevPresent(rows: seq<DailyBar>, p: nat, i: int)
    requires StrictlyAscending(rows) && 1 <= p <= i < |rows|
    ensures rows[i].day in V6PrevTable(rows, p)
    ensures V6PrevTable(rows, p)[rows[i].day] == Rolling(rows, p, i - 1).value
  {
    var dates := ValidDaysUpTo(rows, p, |rows|);
    var sma := SmaTable(rows, p);
    var j := i - p + 1;
    assert 1 <= j < |dates| && dates[j] == rows[i].day && dates[j - 1] == rows[i - 1].day by {
      ValidDaysAreTail(rows, p, |rows|);
    }
    ValidDaysInTable(rows, p, |rows|);
    var v6 := PrevFromListUpTo(dates, sma, |dates|);
    assert dates[j] in v6 && v6[dates[j]] == sma[dates[j - 1]] by {
      ValidDaysAscending(rows, p);
      PrevFromListAt(dates, sma, |dates|, j);
    }
    assert V6PrevTable(rows, p) == v6;
    TablesAt(rows, p, |rows|, i - 1);
  }

  lemma V6PrevAbsent(rows: seq<DailyBar>, p: nat, i: int)
    requires StrictlyAscending(rows) && 1 <= p && 0 <= i < p && i < |rows|
    ensures rows[i].day !in V6PrevTable(rows, p)
  {
    var dates := ValidDaysUpTo(rows, p, |rows|);
    var sma := SmaTable(rows, p);
    ValidDaysInTable(rows, p, |rows|);
    ValidDaysAreTail(rows, p, |rows|);
    PrevFromListKeys(dates, sma, |dates|);
    assert V6PrevTable(rows, p) == PrevFromListUpTo(dates, sma, |dates|);
    forall j | 1 <= j < |dates| ensures dates[j] != rows[i].day {
      assert dates[j] == rows[j + p - 1].day;
      assert i < j + p - 1;
    }
  }

  // ----- sma50_v5.py: previous row, when that row has an SMA -----

  /** prev_sma after the first n rows: row n - 1 gets an entry when it and
      the row before it both have an SMA. */
  function PrevRowUpTo(rows: seq<DailyBar>, p: nat, n: nat): map<int, real>
    requires n <= |rows|
  {
    if n == 0 then map[] else PrevRowStep(rows, p, n - 1, PrevRowUpTo(rows, p, n - 1))
  }

  method BuildV5Tables(rows: seq<DailyBar>, p: nat) returns (sma: map<int, real>, close: map<int, real>, prev: map<int, real>)
    ensures sma == SmaTable(rows, p) && close == CloseTable(rows, p) && prev == PrevRowUpTo(rows, p, |rows|)
  {
    sma, close, prev := map[], map[], map[];
    var i := 0;
    while i < |rows|
      invariant 0 <= i <= |rows|
      invariant sma == SmaUpTo(rows, p, i) && close == CloseUpTo(rows, p, i) && prev == PrevRowUpTo(rows, p, i)
    {
      ghost var prev0 := prev;
      var v := Rolling(rows, p, i);
      if v.Some? {
        sma := sma[rows[i].day := v.value];
        close := close[rows[i].day := rows[i].close];
        SmaStep(rows, p, i);
        assert sma == SmaUpTo(rows, p, i + 1);
        if i > 0 {
          var prevDay := rows[i - 1].day;
          if prevDay in sma {
            prev := prev[rows[i].day := sma[prevDay]];
          }
        }
      } else {
        SmaStep(rows, p, i);
      }
      assert prev == PrevRowStep(rows, p, i, prev0);
      i := i + 1;
    }
  }

  lemma SmaStep(rows: seq<DailyBar>, p: nat, i: nat)
    requires i < |rows|
    ensures Rolling(rows, p, i).Some? ==>
      SmaUpTo(rows, p, i + 1) == SmaUpTo(rows, p, i)[rows[i].day := Rolling(rows, p, i).value] &&
      CloseUpTo(rows, p, i + 1) == CloseUpTo(rows, p, i)[rows[i].day := rows[i].close]
    ensures Rolling(rows, p, i).None? ==> SmaUpTo(rows, p, i + 1) == SmaUpTo(rows, p, i) && CloseUpTo(rows, p, i + 1) == CloseUpTo(rows, p, i)
  {
  }

  /** The entry row i adds to prev_sma, given the table m before it. */
  function PrevRowStep(rows: seq<DailyBar>, p: nat, i: nat, m: map<int, real>): map<int, real>
    requires i < |rows|
  {
    var before := SmaUpTo(rows, p, i + 1);
    if Rolling(rows, p, i).Some? && i > 0 && rows[i - 1].day in before then m[rows[i].day := before[rows[i - 1].day]] else m
  }

  lemma {:induction false} V5PrevAt(rows: seq<DailyBar>, p: nat, n: nat, i: int)
    requires StrictlyAscending(rows) && 1 <= p && n <= |rows| && 0 <= i < |rows|
    ensures rows[i].day in PrevRowUpTo(rows, p, n) <==> p <= i < n
    ensures p <= i < n ==> PrevRowUpTo(rows, p, n)[rows[i].day] == Rolling(rows, p, i - 1).value
  {
    if n > 0 {
      V5PrevAt(rows, p, n - 1, i);
      V5PrevStep(rows, p, n, i);
    }
  }

  /** One step of V5PrevAt: the table up to n from the one up to n - 1. */
  lemma V5PrevStep(rows: seq<DailyBar>, p: nat, n: nat, i: int)
    requires StrictlyAscending(rows) && 1 <= p && 0 < n <= |rows| && 0 <= i < |rows|
    requires rows[i].day in PrevRowUpTo(rows, p, n - 1) <==> p <= i < n - 1
    requires p <= i < n - 1 ==> PrevRowUpTo(rows, p, n - 1)[rows[i].day] == Rolling(rows, p, i - 1).value
    ensures rows[i].day in PrevRowUpTo(rows, p, n) <==> p <= i < n
    ensures p <= i < n ==> PrevRowUpTo(rows, p, n)[rows[i].day] == Rolling(rows, p, i - 1).value
  {
    var k := n - 1;
    var before := PrevRowUpTo(rows, p, k);
    var after := PrevRowStep(rows, p, k, before);
    if k > 0 {
      TablesAt(rows, p, k + 1, k - 1);
    }
    if i == k {
      if p <= k {
        assert after == before[rows[k].day := Rolling(rows, p, k - 1).value];
      } else {
        assert after == before;
      }
    } else {
      RowOrderIsDayOrder(rows, i, k);
      assert rows[i].day in after <==> rows[i].day in before;
    }
  }

  /** prev_sma and prev_sma_by_date coincide: v5 and v6 see the same
      previous-day reference on every daily row. */
  lemma V5EqualsV6(rows: seq<DailyBar>, p: nat, i: int)
    requires StrictlyAscending(rows) && 1 <= p && 0 <= i < |rows|
    ensures var v6 := V6PrevTable(rows, p);
      var v5 := PrevRowUpTo(rows, p, |rows|);
      (rows[i].day in v5 <==> rows[i].day in v6) && (rows[i].day in v5 ==> v5[rows[i].day] == v6[rows[i].day])
  {
    V6PrevMeaning(rows, p, i);
    V5PrevAt(rows, p, |rows|, i);
  }

  // ----- tables built from intraday bars: the last close of each date -----

  /** daily_close after the first n bars: the close of the last bar of each
      date seen, in input order. */
  function DailyCloseUpTo(bars: seq<Bar>, n: nat): map<int, real>
    requires n <= |bars|
  {
    if n == 0 then map[] else DailyCloseUpTo(bars, n - 1)[bars[n - 1].at.day := bars[n - 1].signal]
  }

  method DailyCloses(bars: seq<Bar>) returns (table: map<int, real>)
    ensures table == DailyCloseUpTo(bars, |bars|)
  {
    table := map[];
    var i := 0;
    while i < |bars|
      invariant 0 <= i <= |bars| && table == DailyCloseUpTo(bars, i)
    {
      table := table[bars[i].at.day := bars[i].signal];
      i := i + 1;
    }
  }

  /** `dates = sorted(daily_close.keys())` paired with the closes: on bars
      whose dates ascend, one row per date, in date order. */
  function DailySeries(bars: seq<Bar>, n: nat): seq<DailyBar>
    requires n <= |bars|
  {
    if n == 0 then []
    else
      var s := DailySeries(bars, n - 1);
      var b := bars[n - 1];
      if |s| > 0 && s[|s| - 1].day == b.at.day then s[..|s| - 1] + [DailyBar(b.at.day, b.signal)]
      else s + [DailyBar(b.at.day, b.signal)]
  }

  /** The series has one row per date, dates strictly ascending, and ends
      with the date of the last bar seen. */
  lemma {:induction false} DailySeriesShape(bars: seq<Bar>, n: nat)
    requires DaysAscending(bars) && n <= |bars|
    ensures StrictlyAscending(DailySeries(bars, n))
    ensures n > 0 ==> |DailySeries(bars, n)| > 0 && DailySeries(bars, n)[|DailySeries(bars, n)| - 1].day == bars[n - 1].at.day
  {
    if n > 0 {
      DailySeriesShape(bars, n - 1);
      var s := DailySeries(bars, n - 1);
      var b := bars[n - 1];
      var row := DailyBar(b.at.day, b.signal);
      if |s| > 0 && s[|s| - 1].day == b.at.day {
        ReplaceLastAscending(s, row);
      } else {
        if |s| > 0 {
          assert bars[n - 2].at.day <= b.at.day;
        }
        AppendAscending(s, row);
      }
    }
  }

  lemma AppendAscending(s: seq<DailyBar>, row: DailyBar)
    requires StrictlyAscending(s) && (|s| > 0 ==> s[|s| - 1].day < row.day)
    ensures StrictlyAscending(s + [row])
  {
    var r := s + [row];
    forall i, j | 0 <= i < j < |r| ensures r[i].day < r[j].day {
      if j == |r| - 1 {
        assert r[i] == s[i];
        if i < |s| - 1 {
          assert s[i].day < s[|s| - 1].day;
        }
      } else {
        assert r[i] == s[i] && r[j] == s[j];
      }
    }
  }

  lemma ReplaceLastAscending(s: seq<DailyBar>, row: DailyBar)
    requires StrictlyAscending(s) && |s| > 0 && s[|s| - 1].day == row.day
    ensures StrictlyAscending(s[..|s| - 1] + [row])
  {
    var r := s[..|s| - 1] + [row];
    forall i, j | 0 <= i < j < |r| ensures r[i].day < r[j].day {
      assert r[i].day == s[i].day && r[j].day == s[j].day;
    }
  }

  /** Every row carries its date's entry of daily_close. */
  lemma {:induction false} DailySeriesCloses(bars: seq<Bar>, n: nat, j: int)
    requires DaysAscending(bars) && n <= |bars| && 0 <= j < |DailySeries(bars, n)|
    ensures DailySeries(bars, n)[j].day in DailyCloseUpTo(bars, n)
    ensures DailyCloseUpTo(bars, n)[DailySeries(bars, n)[j].day] == DailySeries(bars, n)[j].close
  {
    assert n > 0;
    var s := DailySeries(bars, n - 1);
    var r := DailySeries(bars, n);
    var b := bars[n - 1];
    var row := DailyBar(b.at.day, b.signal);
    var t := DailyCloseUpTo(bars, n);
    assert t == DailyCloseUpTo(bars, n - 1)[b.at.day := b.signal];
    if j == |r| - 1 {
      assert r[j] == row;
    } else {
      assert r[j] == s[j];
      DailySeriesCloses(bars, n - 1, j);
      assert r[j].day != b.at.day by {
        DailySeriesShape(bars, n);
        assert r[|r| - 1] == row;
      }
    }
  }

  /** Every date of daily_close has its row. */
  lemma {:induction false} DailySeriesCovers(bars: seq<Bar>, n: nat, d: int)
    requires DaysAscending(bars) && n <= |bars| && d in DailyCloseUpTo(bars, n)
    ensures exists j :: 0 <= j < |DailySeries(bars, n)| && DailySeries(bars, n)[j].day == d
  {
    var r := DailySeries(bars, n);
    var s := DailySeries(bars, n - 1);
    var b := bars[n - 1];
    DailySeriesShape(bars, n);
    if d == b.at.day {
      assert r[|r| - 1].day == d;
    } else {
      assert d in DailyCloseUpTo(bars, n - 1);
      DailySeriesCovers(bars, n - 1, d);
      var j :| 0 <= j < |s| && s[j].day == d;
      DailySeriesShape(bars, n - 1);
      if |s| > 0 && s[|s| - 1].day == b.at.day {
        assert r == s[..|s| - 1] + [DailyBar(b.at.day, b.signal)];
        assert j < |s| - 1 && r[j] == s[j];
      } else {
        assert r == s + [DailyBar(b.at.day, b.signal)];
        assert r[j] == s[j];
      }
    }
  }

  /** `sma[dates[i]] = mean(closes[i - p : i])` for p <= i < n: the mean of the
      p previous daily closes, excluding the date itself. */
  function PriorMeanUpTo(daily: seq<DailyBar>, p: nat, n: nat): map<int, real>
    requires n <= |daily|
  {
    if n <= p || p == 0 then map[]
    else PriorMeanUpTo(daily, p, n - 1)[daily[n - 1].day := PriorMean(daily, p, n - 1)]
  }

  /** Mean of the p daily closes before row i. */
  function PriorMean(daily: seq<DailyBar>, p: nat, i: int): real
    requires 1 <= p <= i < |daily|
  {
    WindowMean(daily, i - p, i)
  }

  function PriorMeanTable(daily: seq<DailyBar>, p: nat): map<int, real>
  {
    PriorMeanUpTo(daily, p, |daily|)
  }

  method PriorMeans(daily: seq<DailyBar>, p: nat) returns (sma: map<int, real>)
    requires 1 <= p
    ensures sma == PriorMeanTable(daily, p)
  {
    sma := map[];
    var i := p;
    while i < |daily|
      invariant p <= i && (i <= |daily| || |daily| < p)
      invariant sma == PriorMeanUpTo(daily, p, if |daily| < p then |daily| else i)
    {
      sma := sma[daily[i].day := Sum(CloseSeq(daily)[i - p..i]) / p as real];
      assert sma[daily[i].day] == PriorMean(daily, p, i);
      i := i + 1;
    }
  }

  lemma {:induction false} PriorMeanMeaning(daily: seq<DailyBar>, p: nat, n: nat, i: int)
    requires StrictlyAscending(daily) && 1 <= p && n <= |daily| && 0 <= i < |daily|
    ensures daily[i].day in PriorMeanUpTo(daily, p, n) <==> p <= i < n
    ensures p <= i < n ==> PriorMeanUpTo(daily, p, n)[daily[i].day] == PriorMean(daily, p, i)
  {
    if n > p {
      PriorMeanMeaning(daily, p, n - 1, i);
      PriorMeanStep(daily, p, n, i);
    }
  }

  /** One step of PriorMeanMeaning: the table up to n from the one up to n - 1. */
  lemma PriorMeanStep(daily: seq<DailyBar>, p: nat, n: nat, i: int)
    requires StrictlyAscending(daily) && 1 <= p < n <= |daily| && 0 <= i < |daily|
    requires daily[i].day in PriorMeanUpTo(daily, p, n - 1) <==> p <= i < n - 1
    requires p <= i < n - 1 ==> PriorMeanUpTo(daily, p, n - 1)[daily[i].day] == PriorMean(daily, p, i)
    ensures daily[i].day in PriorMeanUpTo(daily, p, n) <==> p <= i < n
    ensures p <= i < n ==> PriorMeanUpTo(daily, p, n)[daily[i].day] == PriorMean(daily, p, i)
  {
    var k := n - 1;
    var before := PriorMeanUpTo(daily, p, k);
    var after := before[daily[k].day := PriorMean(daily, p, k)];
    if i != k {
      RowOrderIsDayOrder(daily, i, k);
      assert daily[i].day in after <==> daily[i].day in before;
    }
  }
}
