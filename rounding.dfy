// round(x, d) as the scripts apply it to a pnl or a return before storing
// or comparing it: the nearest multiple of 10^-d, a tie going to the even
// multiple. The value rounded is the exact real, not a binary float.
module Rounding {
  function Pow10(d: nat): (p: nat)
    ensures p >= 1
  {
    if d == 0 then 1 else 10 * Pow10(d - 1)
  }

  /** The nearest whole number to s, a tie going to the even one. */
  function RoundHalfEven(s: real): (m: int)
    ensures s - 0.5 <= m as real <= s + 0.5
    ensures (m as real - s == 0.5 || s - m as real == 0.5) ==> m % 2 == 0
  {
    var n := s.Floor;
    var f := s - n as real;
    if f > 0.5 then n + 1
    else if f < 0.5 then n
    else if n % 2 == 0 then n else n + 1
  }

  /** x in units of the last digit kept. */
  function Scaled(x: real, d: nat): real
  {
    x * Pow10(d) as real
  }

  /** round(x, d): a whole number of units of the last digit, off x by at
      most half a unit. */
  function RoundTo(x: real, d: nat): (r: real)
    ensures Scaled(x, d) - 0.5 <= Scaled(r, d) <= Scaled(x, d) + 0.5
    ensures Scaled(r, d) == Scaled(r, d).Floor as real
  {
    UnitsBack(RoundHalfEven(Scaled(x, d)), Pow10(d) as real);
    RoundHalfEven(Scaled(x, d)) as real / Pow10(d) as real
  }

  lemma UnitsBack(m: int, u: real)
    requires u > 0.0
    ensures (m as real / u) * u == m as real && ((m as real / u) * u).Floor == m
  {
  }

  /** The whole-number rounding is positive exactly above one half. */
  lemma HalfEvenPositive(s: real)
    ensures RoundHalfEven(s) > 0 <==> s > 0.5
  {
  }

  lemma HalfEvenMonotone(s: real, t: real)
    requires s <= t
    ensures RoundHalfEven(s) <= RoundHalfEven(t)
  {
  }

  lemma HalfEvenWhole(n: int)
    ensures RoundHalfEven(n as real) == n
  {
  }

  lemma ScaleMonotone(x: real, y: real, u: real)
    requires x <= y && u > 0.0
    ensures x * u <= y * u
  {
  }

  lemma DivideSign(a: real, u: real)
    requires u > 0.0
    ensures a / u > 0.0 <==> a > 0.0
  {
  }

  lemma DivideMonotone(a: real, b: real, u: real)
    requires a <= b && u > 0.0
    ensures a / u <= b / u
  {
  }

  /** A rounded value is positive exactly when x is more than half a unit
      of the last digit above zero. */
  lemma RoundPositive(x: real, d: nat)
    ensures RoundTo(x, d) > 0.0 <==> Scaled(x, d) > 0.5
  {
    HalfEvenPositive(Scaled(x, d));
    DivideSign(RoundHalfEven(Scaled(x, d)) as real, Pow10(d) as real);
  }

  /** Only a positive value rounds to a positive one. */
  lemma RoundKeepsSign(x: real, d: nat)
    ensures RoundTo(x, d) > 0.0 ==> x > 0.0
  {
    RoundPositive(x, d);
    if x <= 0.0 {
      ScaleMonotone(x, 0.0, Pow10(d) as real);
    }
  }

  /** Rounding keeps order: ties in the rounded values may appear, never
      inversions. */
  lemma RoundMonotone(x: real, y: real, d: nat)
    requires x <= y
    ensures RoundTo(x, d) <= RoundTo(y, d)
  {
    ScaleMonotone(x, y, Pow10(d) as real);
    HalfEvenMonotone(Scaled(x, d), Scaled(y, d));
    DivideMonotone(RoundHalfEven(Scaled(x, d)) as real, RoundHalfEven(Scaled(y, d)) as real, Pow10(d) as real);
  }

  /** A whole number is its own rounding. */
  lemma RoundWhole(k: int, d: nat)
    ensures RoundTo(k as real, d) == k as real
  {
    var n := k * Pow10(d);
    assert Scaled(k as real, d) == n as real;
    HalfEvenWhole(n);
    UnitsOut(k, Pow10(d));
  }

  lemma UnitsOut(k: int, p: nat)
    requires p >= 1
    ensures (k * p) as real / p as real == k as real
  {
  }
}
