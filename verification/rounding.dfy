/** Decimal rounding as numpy's `round` and Python's built-in `round` do it on exact
    numbers: to the nearest multiple of 10^-d, a tie going to the even neighbour. */
module Rounding {

  /** 10^d as a natural number. */
  function Pow10(d: nat): (p: nat)
    ensures p >= 1
  {
    if d == 0 then 1 else 10 * Pow10(d - 1)
  }

  /** n is an integer nearest to s, and the even one when s lies halfway. */
  ghost predicate NearestTiesEven(n: int, s: real)
  {
    && s - 0.5 <= n as real <= s + 0.5
    && (n as real == s - 0.5 || n as real == s + 0.5 ==> n % 2 == 0)
  }

  /** Some integer is nearest to s with ties to even: the floor or the one above it. */
  lemma NearestExists(s: real)
    ensures exists n :: NearestTiesEven(n, s)
  {
    var whole := s.Floor;
    var frac := s - whole as real;
    var n := if frac < 0.5 then whole
             else if frac > 0.5 then whole + 1
             else if whole % 2 == 0 then whole
             else whole + 1;
    assert NearestTiesEven(n, s);
  }

  /** The integer nearest to s, a tie going to the even one. */
  ghost function NearestEven(s: real): (n: int)
    ensures NearestTiesEven(n, s)
  {
    NearestExists(s);
    var n :| NearestTiesEven(n, s); n
  }

  /** Exactly one integer is nearest to s with ties to even. */
  lemma NearestTiesEvenUnique(m: int, n: int, s: real)
    requires NearestTiesEven(m, s) && NearestTiesEven(n, s)
    ensures m == n
  {
  }

  /** A larger number never has a smaller nearest integer. */
  lemma NearestTiesEvenMonotone(m: int, n: int, s: real, t: real)
    requires s <= t
    requires NearestTiesEven(m, s) && NearestTiesEven(n, t)
    ensures m <= n
  {
  }

  /** The number of units of 10^-d that `round(x, d)` keeps. */
  ghost function Units(x: real, d: nat): (n: int)
    ensures NearestTiesEven(n, x * Pow10(d) as real)
  {
    NearestEven(x * Pow10(d) as real)
  }

  /** `round(x, d)`: a whole number of 10^-d units, the number of them nearest to x. */
  ghost function Round(x: real, d: nat): (r: real)
    ensures r * Pow10(d) as real == Units(x, d) as real
  {
    var p := Pow10(d) as real;
    var n := Units(x, d);
    assert Scales(n as real / p, p, n);
    var r :| Scales(r, p, n); r
  }

  /** r units of size 1/p make n. */
  ghost predicate Scales(r: real, p: real, n: int)
  {
    r * p == n as real
  }

  /** Rounding moves a number by at most half a unit of 10^-d. */
  lemma RoundError(x: real, d: nat)
    ensures x * Pow10(d) as real - 0.5 <= Round(x, d) * Pow10(d) as real <= x * Pow10(d) as real + 0.5
  {
    var n := Units(x, d);
    assert NearestTiesEven(n, x * Pow10(d) as real);
  }

  /** A number already on the 10^-d grid is left alone. */
  lemma RoundOfGridValue(n: int, d: nat)
    ensures Round(n as real / Pow10(d) as real, d) == n as real / Pow10(d) as real
  {
    var p := Pow10(d) as real;
    var x := n as real / p;
    assert x * p == n as real;
    assert NearestTiesEven(n, x * p);
    NearestTiesEvenUnique(n, Units(x, d), x * p);
  }

  /** Rounding twice is rounding once. */
  lemma RoundIdempotent(x: real, d: nat)
    ensures Round(Round(x, d), d) == Round(x, d)
  {
    var p := Pow10(d) as real;
    var n := Units(x, d);
    assert Round(x, d) == n as real / p;
    RoundOfGridValue(n, d);
  }

  lemma RoundZero(d: nat)
    ensures Round(0.0, d) == 0.0
  {
    RoundOfGridValue(0, d);
  }

  /** Rounding never reverses the order of two numbers. */
  lemma RoundMonotone(x: real, y: real, d: nat)
    requires x <= y
    ensures Round(x, d) <= Round(y, d)
  {
    var p := Pow10(d) as real;
    MonotoneOnScale(x, y, p, Units(x, d), Units(y, d), Round(x, d), Round(y, d));
  }

  /** RoundMonotone on the numbers involved, without the rounding function. */
  lemma MonotoneOnScale(x: real, y: real, p: real, nx: int, ny: int, rx: real, ry: real)
    requires x <= y && p > 0.0
    requires NearestTiesEven(nx, x * p) && NearestTiesEven(ny, y * p)
    requires rx * p == nx as real && ry * p == ny as real
    ensures rx <= ry
  {
    ScaleMonotone(x, y, p);
    NearestTiesEvenMonotone(nx, ny, x * p, y * p);
    ScaleCancel(rx, ry, p, nx as real, ny as real);
  }

  lemma ScaleMonotone(x: real, y: real, p: real)
    requires x <= y && p > 0.0
    ensures x * p <= y * p
  {
  }

  lemma ScaleCancel(a: real, b: real, p: real, ap: real, bp: real)
    requires p > 0.0 && a * p == ap && b * p == bp && ap <= bp
    ensures a <= b
  {
  }

  lemma RoundNonNegative(x: real, d: nat)
    requires x >= 0.0
    ensures Round(x, d) >= 0.0
  {
    RoundZero(d);
    RoundMonotone(0.0, x, d);
  }

  /** Rounding a number no smaller than an integer k stays no smaller than k. */
  lemma RoundAtLeastInteger(x: real, k: int, d: nat)
    requires x >= k as real
    ensures Round(x, d) >= k as real
  {
    var p := Pow10(d);
    assert k as real == (k * p) as real / p as real;
    RoundOfGridValue(k * p, d);
    RoundMonotone(k as real, x, d);
  }
}
