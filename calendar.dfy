// Proleptic Gregorian calendar over day ordinals (day 0 is 1970-01-01):
// the year of a date, as `exit_dt.year` reads it, and the fixed dates
// that bound some of the simulations.
module Calendar {

  predicate IsLeap(y: int)
  {
    y % 4 == 0 && (y % 100 != 0 || y % 400 == 0)
  }

  function DaysInYear(y: int): int
  {
    if IsLeap(y) then 366 else 365
  }

  /** Ordinal of January 1st of year y. */
  function YearStart(y: int): int
    decreases if y < 1970 then 1970 - y else y - 1970
  {
    if y == 1970 then 0
    else if y > 1970 then YearStart(y - 1) + DaysInYear(y - 1)
    else YearStart(y + 1) - DaysInYear(y)
  }

  /** The year that contains the date `off` days after January 1st of y. */
  function YearFrom(y: int, off: int): int
    decreases if off < 0 then 1 else 0, if off < 0 then -off else off
  {
    if off < 0 then YearFrom(y - 1, off + DaysInYear(y - 1))
    else if off < DaysInYear(y) then y
    else YearFrom(y + 1, off - DaysInYear(y))
  }

  function YearOf(day: int): int
  {
    YearFrom(1970, day)
  }

  lemma {:induction false} YearFromBounds(y: int, off: int)
    ensures YearStart(YearFrom(y, off)) <= YearStart(y) + off < YearStart(YearFrom(y, off) + 1)
    decreases if off < 0 then 1 else 0, if off < 0 then -off else off
  {
    if off < 0 {
      YearFromBounds(y - 1, off + DaysInYear(y - 1));
      StartStep(y - 1);
    } else if off < DaysInYear(y) {
      StartStep(y);
    } else {
      YearFromBounds(y + 1, off - DaysInYear(y));
      StartStep(y);
    }
  }

  lemma StartStep(y: int)
    ensures YearStart(y + 1) == YearStart(y) + DaysInYear(y)
  {
  }

  /** A date lies in its year: on or after that year's January 1st and
      before the next one's. */
  lemma YearOfBounds(day: int)
    ensures YearStart(YearOf(day)) <= day < YearStart(YearOf(day) + 1)
  {
    YearFromBounds(1970, day);
  }

  lemma {:induction false} YearStartIncreasing(a: int, b: int)
    requires a < b
    ensures YearStart(a) < YearStart(b)
    decreases b - a
  {
    StartStep(a);
    if a + 1 < b {
      YearStartIncreasing(a + 1, b);
    }
  }

  /** Later dates never fall in earlier years. */
  lemma YearOfMonotone(d1: int, d2: int)
    requires d1 <= d2
    ensures YearOf(d1) <= YearOf(d2)
  {
    YearOfBounds(d1);
    YearOfBounds(d2);
    if YearOf(d2) < YearOf(d1) {
      YearStartIncreasing(YearOf(d2), YearOf(d1));
      if YearOf(d2) + 1 < YearOf(d1) {
        YearStartIncreasing(YearOf(d2) + 1, YearOf(d1));
      }
    }
  }

  /** 2021-01-05 and 2026-02-07, the first and last simulated dates of the
      scheduled-exit variants. */
  const WindowFirstDay: int := 18632
  const WindowLastDay: int := 20491

  /** Closed form of YearStart for years from 1970 on: 365 days a year
      plus one per leap year passed, 477 being the leap years before 1970. */
  lemma {:induction false} YearStartClosedForm(y: int)
    requires y >= 1970
    ensures YearStart(y) == 365 * (y - 1970) + ((y - 1) / 4 - (y - 1) / 100 + (y - 1) / 400) - 477
    decreases y - 1970
  {
    if y > 1970 {
      YearStartClosedForm(y - 1);
      LeapCountStep(y - 1);
    }
  }

  lemma LeapCountStep(y: int)
    ensures (y / 4 - y / 100 + y / 400) - ((y - 1) / 4 - (y - 1) / 100 + (y - 1) / 400) == (if IsLeap(y) then 1 else 0)
  {
    QuarterStep(y);
    CenturyStep(y);
    QuadCenturyStep(y);
    DivisorsNest(y);
  }

  lemma QuarterStep(y: int)
    ensures y / 4 - (y - 1) / 4 == if y % 4 == 0 then 1 else 0
  {
  }

  lemma CenturyStep(y: int)
    ensures y / 100 - (y - 1) / 100 == if y % 100 == 0 then 1 else 0
  {
  }

  lemma QuadCenturyStep(y: int)
    ensures y / 400 - (y - 1) / 400 == if y % 400 == 0 then 1 else 0
  {
  }

  lemma DivisorsNest(y: int)
    ensures y % 400 == 0 ==> y % 100 == 0
    ensures y % 100 == 0 ==> y % 4 == 0
  {
  }

  lemma WindowDates()
    ensures WindowFirstDay == YearStart(2021) + 4
    ensures WindowLastDay == YearStart(2026) + 31 + 6
  {
    YearStartClosedForm(2021);
    YearStartClosedForm(2026);
  }
}
