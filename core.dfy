// Shared vocabulary of the backtesting scripts: optional values, bar
// timestamps, joined price bars and the simple filters applied to them
// before a simulation starts.
module Core {

  datatype Option<T> = None | Some(value: T)

  /** A bar's timestamp in New York time: a day ordinal (days since
      1970-01-01, so `day + 1` is the next calendar day) and the minute of
      that day. */
  datatype Stamp = Stamp(day: int, minute: int)

  predicate Earlier(a: Stamp, b: Stamp)
  {
    a.day < b.day || (a.day == b.day && a.minute < b.minute)
  }

  /** One joined bar: the signal instrument's close (QQQ) and the trade
      instrument's open, high, low and close (TQQQ) at one timestamp. */
  datatype Bar = Bar(at: Stamp, signal: real, open: real, high: real, low: real, close: real)

  /** Timestamps strictly increase, as after a sorted index intersection. */
  predicate Chronological(bars: seq<Bar>)
  {
    forall i, j :: 0 <= i < j < |bars| ==> Earlier(bars[i].at, bars[j].at)
  }

  /** Every traded price is positive, so dividing by an entry price is defined. */
  predicate PositivePrices(bars: seq<Bar>)
  {
    forall i :: 0 <= i < |bars| ==> bars[i].open > 0.0 && bars[i].high > 0.0 && bars[i].low > 0.0 && bars[i].close > 0.0
  }

  /** The bars kept by a boolean mask over the index, in their order. */
  function Filter(bars: seq<Bar>, keep: Stamp -> bool): (r: seq<Bar>)
    ensures |r| <= |bars|
    ensures forall i :: 0 <= i < |r| ==> r[i] in bars && keep(r[i].at)
  {
    if bars == [] then []
    else (if keep(bars[0].at) then [bars[0]] else []) + Filter(bars[1..], keep)
  }

  /** Nothing the mask keeps is dropped. */
  lemma {:induction false} FilterKeepsAll(bars: seq<Bar>, keep: Stamp -> bool)
    ensures forall b :: b in Filter(bars, keep) <==> b in bars && keep(b.at)
  {
    if bars != [] {
      FilterKeepsAll(bars[1..], keep);
      var head := if keep(bars[0].at) then [bars[0]] else [];
      assert Filter(bars, keep) == head + Filter(bars[1..], keep);
      forall b ensures b in Filter(bars, keep) <==> b in bars && keep(b.at) {
        assert b in bars <==> b == bars[0] || b in bars[1..];
      }
    }
  }

  lemma {:induction false} FilterChronological(bars: seq<Bar>, keep: Stamp -> bool)
    requires Chronological(bars)
    ensures Chronological(Filter(bars, keep))
  {
    if bars != [] {
      var rest := Filter(bars[1..], keep);
      FilterChronological(bars[1..], keep);
      if keep(bars[0].at) {
        var r := [bars[0]] + rest;
        assert Filter(bars, keep) == r;
        HeadEarlier(bars);
        forall i, j | 0 <= i < j < |r| ensures Earlier(r[i].at, r[j].at) {
          assert r[j] == rest[j - 1] && r[j] in bars[1..];
          if i > 0 {
            assert r[i] == rest[i - 1];
          }
        }
      } else {
        assert Filter(bars, keep) == rest;
      }
    }
  }

  lemma HeadEarlier(bars: seq<Bar>)
    requires Chronological(bars) && bars != []
    ensures forall b :: b in bars[1..] ==> Earlier(bars[0].at, b.at)
  {
    forall b | b in bars[1..] ensures Earlier(bars[0].at, b.at) {
      var k :| 0 <= k < |bars[1..]| && bars[1..][k] == b;
      assert bars[k + 1] == b;
    }
  }

  /** The regular session: 09:30 <= time < 16:00. */
  const SessionOpen: int := 9 * 60 + 30
  const SessionClose: int := 16 * 60

  predicate InMarketHours(s: Stamp)
  {
    SessionOpen <= s.minute < SessionClose
  }

  /** The market-hours mask both intraday series pass through on load. */
  function MarketHours(bars: seq<Bar>): (r: seq<Bar>)
    ensures forall i :: 0 <= i < |r| ==> r[i] in bars && SessionOpen <= r[i].at.minute < SessionClose
  {
    Filter(bars, InMarketHours)
  }

  /** The optional `--start-date` / `--end-date` window: start <= ts and
      ts < end + 1 day. */
  predicate InDateWindow(s: Stamp, start: Option<int>, end: Option<int>)
  {
    (start.None? || start.value <= s.day) && (end.None? || s.day < end.value + 1)
  }

  function DateWindow(bars: seq<Bar>, start: Option<int>, end: Option<int>): (r: seq<Bar>)
    ensures forall i :: 0 <= i < |r| ==> r[i] in bars && (start.None? || start.value <= r[i].at.day) && (end.None? || r[i].at.day <= end.value)
  {
    Filter(bars, s => InDateWindow(s, start, end))
  }

  /** Exactly the market-hours bars are kept, and exactly the bars inside
      the date window. */
  lemma MarketHoursKeeps(bars: seq<Bar>)
    ensures forall b :: b in MarketHours(bars) <==> b in bars && SessionOpen <= b.at.minute < SessionClose
  {
    FilterKeepsAll(bars, InMarketHours);
  }

  lemma DateWindowKeeps(bars: seq<Bar>, start: Option<int>, end: Option<int>)
    ensures forall b :: b in DateWindow(bars, start, end) <==> b in bars && (start.None? || start.value <= b.at.day) && (end.None? || b.at.day <= end.value)
  {
    FilterKeepsAll(bars, s => InDateWindow(s, start, end));
  }

  /** Is bar i the first, or the last, of its calendar date? On a
      chronological sequence these are the timestamps that the scripts
      record as first_bar_of_day and last_bar_of_day. */
  predicate FirstOfDay(bars: seq<Bar>, i: int)
    requires 0 <= i < |bars|
  {
    i == 0 || bars[i - 1].at.day != bars[i].at.day
  }

  predicate LastOfDay(bars: seq<Bar>, i: int)
    requires 0 <= i < |bars|
  {
    i == |bars| - 1 || bars[i + 1].at.day != bars[i].at.day
  }

  /** The first_bar_of_day table after the bars of `s`: a date's entry is
      written by its first bar only. */
  function FirstTable(s: seq<Bar>): map<int, Stamp>
  {
    if s == [] then map[]
    else
      var m := FirstTable(s[..|s| - 1]);
      var b := s[|s| - 1];
      if b.at.day in m then m else m[b.at.day := b.at]
  }

  /** The last_bar_of_day table after the bars of `s`: every bar overwrites
      its date's entry. */
  function LastTable(s: seq<Bar>): map<int, Stamp>
  {
    if s == [] then map[] else LastTable(s[..|s| - 1])[s[|s| - 1].at.day := s[|s| - 1].at]
  }

  /** The loop that fills first_bar_of_day and last_bar_of_day. */
  method DayBounds(bars: seq<Bar>) returns (first: map<int, Stamp>, last: map<int, Stamp>)
    ensures first == FirstTable(bars) && last == LastTable(bars)
  {
    first, last := map[], map[];
    var i := 0;
    while i < |bars|
      invariant 0 <= i <= |bars|
      invariant first == FirstTable(bars[..i]) && last == LastTable(bars[..i])
    {
      assert bars[..i + 1][..i] == bars[..i];
      var d := bars[i].at.day;
      last := last[d := bars[i].at];
      if d !in first {
        first := first[d := bars[i].at];
      }
      i := i + 1;
    }
    assert bars[..i] == bars;
  }

  /** Every entry of either table belongs to some bar of that date. */
  lemma TablesHoldBarsOfTheirDate(s: seq<Bar>)
    ensures forall j :: 0 <= j < |s| ==> s[j].at.day in FirstTable(s) && s[j].at.day in LastTable(s)
    ensures forall d :: d in FirstTable(s) ==> exists j :: 0 <= j < |s| && s[j].at.day == d && FirstTable(s)[d] == s[j].at
    ensures forall d :: d in LastTable(s) ==> exists j :: 0 <= j < |s| && s[j].at.day == d && LastTable(s)[d] == s[j].at
  {
    FirstTableHoldsBars(s);
    LastTableHoldsBars(s);
  }

  lemma {:induction false} FirstTableHoldsBars(s: seq<Bar>)
    ensures forall j :: 0 <= j < |s| ==> s[j].at.day in FirstTable(s)
    ensures forall d :: d in FirstTable(s) ==> exists j :: 0 <= j < |s| && s[j].at.day == d && FirstTable(s)[d] == s[j].at
  {
    if s != [] {
      var p := s[..|s| - 1];
      var b := s[|s| - 1];
      FirstTableHoldsBars(p);
      var first := FirstTable(s);
      assert first == if b.at.day in FirstTable(p) then FirstTable(p) else FirstTable(p)[b.at.day := b.at];
      forall d | d in first
        ensures exists j :: 0 <= j < |s| && s[j].at.day == d && first[d] == s[j].at
      {
        if d in FirstTable(p) {
          assert first[d] == FirstTable(p)[d];
          var j :| 0 <= j < |p| && p[j].at.day == d && FirstTable(p)[d] == p[j].at;
          assert s[j] == p[j];
        } else {
          assert d == b.at.day && first[d] == b.at;
        }
      }
      forall j | 0 <= j < |s| ensures s[j].at.day in first {
        if j < |p| { assert s[j] == p[j]; }
      }
    }
  }

  lemma {:induction false} LastTableHoldsBars(s: seq<Bar>)
    ensures forall j :: 0 <= j < |s| ==> s[j].at.day in LastTable(s)
    ensures forall d :: d in LastTable(s) ==> exists j :: 0 <= j < |s| && s[j].at.day == d && LastTable(s)[d] == s[j].at
  {
    if s != [] {
      var p := s[..|s| - 1];
      var b := s[|s| - 1];
      LastTableHoldsBars(p);
      var last := LastTable(s);
      assert last == LastTable(p)[b.at.day := b.at];
      forall d | d in last
        ensures exists j :: 0 <= j < |s| && s[j].at.day == d && last[d] == s[j].at
      {
        if d != b.at.day {
          assert d in LastTable(p) && last[d] == LastTable(p)[d];
          var j :| 0 <= j < |p| && p[j].at.day == d && LastTable(p)[d] == p[j].at;
          assert s[j] == p[j];
        } else {
          assert last[d] == b.at;
        }
      }
      forall j | 0 <= j < |s| ensures s[j].at.day in last {
        if j < |p| { assert s[j] == p[j]; }
      }
    }
  }

  /** The two consequences of chronological order that the day tables
      rely on: dates never go back, and no timestamp repeats. */
  predicate DaysAscending(bars: seq<Bar>)
  {
    forall i, j :: 0 <= i <= j < |bars| ==> bars[i].at.day <= bars[j].at.day
  }

  predicate DistinctStamps(bars: seq<Bar>)
  {
    forall i, j :: 0 <= i < j < |bars| ==> bars[i].at != bars[j].at
  }

  lemma ChronologicalOrder(bars: seq<Bar>)
    requires Chronological(bars)
    ensures DaysAscending(bars) && DistinctStamps(bars)
  {
    forall i, j | 0 <= i <= j < |bars| ensures bars[i].at.day <= bars[j].at.day {
      if i < j { assert Earlier(bars[i].at, bars[j].at); }
    }
    forall i, j | 0 <= i < j < |bars| ensures bars[i].at != bars[j].at {
      assert Earlier(bars[i].at, bars[j].at);
    }
  }

  /** On a chronological sequence, `ts == first_bar_of_day[d]` holds exactly
      when the previous bar lies on another date. */
  lemma {:induction false} FirstTableMeaning(s: seq<Bar>, i: int)
    requires DaysAscending(s) && DistinctStamps(s) && 0 <= i < |s|
    ensures s[i].at.day in FirstTable(s)
    ensures s[i].at == FirstTable(s)[s[i].at.day] <==> FirstOfDay(s, i)
  {
    FirstTableHoldsBars(s);
    var p := s[..|s| - 1];
    var n := |s| - 1;
    assert DaysAscending(p) && DistinctStamps(p);
    if i < n {
      FirstTableMeaning(p, i);
      assert s[i] == p[i];
      assert i > 0 ==> s[i - 1] == p[i - 1];
    } else if n > 0 {
      FirstTableHoldsBars(p);
      var d := s[n].at.day;
      if d in FirstTable(p) {
        var j :| 0 <= j < |p| && p[j].at.day == d && FirstTable(p)[d] == p[j].at;
        assert s[j] == p[j];
        assert s[j].at.day <= s[n - 1].at.day;
      } else {
        assert s[n - 1] == p[n - 1];
      }
    }
  }

  /** On a chronological sequence, `ts == last_bar_of_day[d]` holds exactly
      when the next bar lies on another date. */
  lemma {:induction false} LastTableMeaning(s: seq<Bar>, i: int)
    requires DaysAscending(s) && DistinctStamps(s) && 0 <= i < |s|
    ensures s[i].at.day in LastTable(s)
    ensures s[i].at == LastTable(s)[s[i].at.day] <==> LastOfDay(s, i)
  {
    LastTableHoldsBars(s);
    var p := s[..|s| - 1];
    var n := |s| - 1;
    assert DaysAscending(p) && DistinctStamps(p);
    if i < n {
      if s[n].at.day == s[i].at.day {
        assert s[i + 1].at.day == s[i].at.day by {
          assert s[i].at.day <= s[i + 1].at.day <= s[n].at.day;
        }
      } else {
        LastTableMeaning(p, i);
        assert s[i] == p[i] && s[i + 1] == (if i + 1 < n then p[i + 1] else s[n]);
      }
    }
  }

  function Sum(s: seq<real>): real
  {
    if s == [] then 0.0 else Sum(s[..|s| - 1]) + s[|s| - 1]
  }

  lemma {:induction false} SumAppend(s: seq<real>, t: seq<real>)
    ensures Sum(s + t) == Sum(s) + Sum(t)
  {
    if t == [] {
      assert s + t == s;
    } else {
      assert (s + t)[..|s + t| - 1] == s + t[..|t| - 1];
      SumAppend(s, t[..|t| - 1]);
    }
  }

  lemma NonNegProduct(a: real, b: real)
    requires 0.0 <= a && 0.0 <= b
    ensures 0.0 <= a * b
  {
  }

  /** `np.mean(xs) if xs else 0` */
  function Mean(xs: seq<real>): real
  {
    if xs == [] then 0.0 else Sum(xs) / |xs| as real
  }

  lemma {:induction false} SumPositive(xs: seq<real>)
    requires xs != [] && forall j :: 0 <= j < |xs| ==> xs[j] > 0.0
    ensures Sum(xs) > 0.0
  {
    if |xs| > 1 {
      SumPositive(xs[..|xs| - 1]);
    }
  }

  lemma {:induction false} SumNonPositive(xs: seq<real>)
    requires forall j :: 0 <= j < |xs| ==> xs[j] <= 0.0
    ensures Sum(xs) <= 0.0
  {
    if xs != [] {
      SumNonPositive(xs[..|xs| - 1]);
    }
  }

  lemma {:induction false} SumNonNegative(xs: seq<real>)
    requires forall j :: 0 <= j < |xs| ==> xs[j] >= 0.0
    ensures Sum(xs) >= 0.0
  {
    if xs != [] {
      SumNonNegative(xs[..|xs| - 1]);
    }
  }

  /** The mean of positive values is positive; of values at least zero, at
      least zero; of values at most zero, at most zero. */
  lemma MeanSigns(xs: seq<real>)
    ensures xs != [] && (forall j :: 0 <= j < |xs| ==> xs[j] > 0.0) ==> Mean(xs) > 0.0
    ensures (forall j :: 0 <= j < |xs| ==> xs[j] >= 0.0) ==> Mean(xs) >= 0.0
    ensures (forall j :: 0 <= j < |xs| ==> xs[j] <= 0.0) ==> Mean(xs) <= 0.0
  {
    if xs != [] {
      var n := |xs| as real;
      var inv := 1.0 / n;
      assert Sum(xs) / n == Sum(xs) * inv;
      if forall j :: 0 <= j < |xs| ==> xs[j] > 0.0 {
        SumPositive(xs);
      }
      if forall j :: 0 <= j < |xs| ==> xs[j] >= 0.0 {
        SumNonNegative(xs);
        NonNegProduct(Sum(xs), inv);
      }
      if forall j :: 0 <= j < |xs| ==> xs[j] <= 0.0 {
        SumNonPositive(xs);
        NonNegProduct(-Sum(xs), inv);
      }
    }
  }

  /** A share of a positive whole, as a percentage, lies in 0..100 and is
      100 exactly for the whole. */
  lemma Percentage(w: real, n: real)
    requires 0.0 <= w <= n && n > 0.0
    ensures 0.0 <= w / n * 100.0 <= 100.0
    ensures w / n * 100.0 == 100.0 <==> w == n
  {
    var inv := 1.0 / n;
    assert n * inv == 1.0;
    assert w / n == w * inv;
    NonNegProduct(n - w, inv);
    NonNegProduct(w, inv);
    assert (n - w) * inv == 1.0 - w * inv;
    assert (w * inv) * n == w;
  }
}
