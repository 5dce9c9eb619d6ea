/** Rounding of a reported number to a fixed count of decimal places, as
    `round(x, digits)` does on a numpy float: the scaled value is rounded
    to the nearest integer, ties going to the even neighbour. */
module Rounding {

  /** 10 to the power `k`. */
  function Pow10(k: nat): (p: real)
    ensures p >= 1.0
  {
    if k == 0 then 1.0 else 10.0 * Pow10(k - 1)
  }

  /** The integer nearest to `x`; an exact tie goes to the even integer. */
  function RoundHalfEven(x: real): (n: int)
    ensures -0.5 <= n as real - x <= 0.5
    ensures n as real - x == 0.5 || x - n as real == 0.5 ==> n % 2 == 0
    ensures x == x.Floor as real ==> n == x.Floor
  {
    var f := x.Floor;
    var d := x - f as real;
    if d < 0.5 then f
    else if d > 0.5 then f + 1
    else if f % 2 == 0 then f
    else f + 1
  }

  /** The integer `k` as a real number. */
  function Whole(k: int): real
  {
    k as real
  }

  /** `v` is a whole number. */
  ghost predicate IsWhole(v: real)
  {
    exists k :: v == Whole(k)
  }

  /** `v` is an even whole number. */
  ghost predicate IsEvenWhole(v: real)
  {
    exists k :: v == Whole(k) && k % 2 == 0
  }

  /** `x` rounded to `digits` decimal places: a multiple of 10^-digits that
      is never further from `x` than half a unit of the last kept place,
      and whose last kept digit is even when `x` lies exactly halfway. */
  function RoundTo(x: real, digits: nat): (r: real)
    ensures IsWhole(r * Pow10(digits))
    ensures -0.5 / Pow10(digits) <= r - x <= 0.5 / Pow10(digits)
    ensures (r - x) * Pow10(digits) == 0.5 || (x - r) * Pow10(digits) == 0.5 ==>
              IsEvenWhole(r * Pow10(digits))
  {
    var scale := Pow10(digits);
    var n := RoundHalfEven(x * scale);
    Rescale(x, scale, n);
    n as real / scale
  }

  /** The contract of `RoundTo` leaves no choice away from a tie: two
      multiples of `1 / scale`, one within half a step of `x` and the other
      strictly so, are equal. */
  lemma GridRoundingIsUnique(r: real, g: real, scale: real, x: real)
    requires scale > 0.0
    requires IsWhole(r * scale) && IsWhole(g * scale)
    requires -0.5 / scale <= r - x <= 0.5 / scale
    requires -0.5 / scale < g - x < 0.5 / scale
    ensures r == g
  {
    var kr := WholeWitness(r * scale);
    var kg := WholeWitness(g * scale);
    var inv := 1.0 / scale;
    assert 0.5 / scale == 0.5 * inv;
    assert scale * inv == 1.0;
    assert (0.5 * inv - (r - x)) * scale >= 0.0;
    assert ((r - x) + 0.5 * inv) * scale >= 0.0;
    assert (0.5 * inv - (g - x)) * scale > 0.0;
    assert ((g - x) + 0.5 * inv) * scale > 0.0;
    assert (r - g) * scale == (kr - kg) as real;
    assert kr == kg;
  }

  /** The whole number a whole-valued `v` equals. */
  lemma WholeWitness(v: real) returns (k: int)
    requires IsWhole(v)
    ensures v == Whole(k)
  {
    k :| v == Whole(k);
  }

  /** Bringing an integer `n` near `x * scale` back to the scale of `x`. */
  lemma Rescale(x: real, scale: real, n: int)
    requires scale > 0.0
    requires -0.5 <= n as real - x * scale <= 0.5
    ensures (n as real / scale) * scale == n as real
    ensures (n as real / scale) * scale == Whole(n)
    ensures (n as real / scale - x) * scale == n as real - x * scale
    ensures (x - n as real / scale) * scale == x * scale - n as real
    ensures -0.5 / scale <= n as real / scale - x <= 0.5 / scale
  {
    DivideBound(n as real - x * scale, scale);
    assert (n as real - x * scale) / scale == n as real / scale - x;
  }

  /** Dividing a quantity bounded by one half by a positive scale. */
  lemma DivideBound(e: real, scale: real)
    requires scale > 0.0
    requires -0.5 <= e <= 0.5
    ensures -0.5 / scale <= e / scale <= 0.5 / scale
  {
    var inv := 1.0 / scale;
    assert inv > 0.0;
    assert e / scale == e * inv && 0.5 / scale == 0.5 * inv;
    assert (0.5 - e) * inv >= 0.0 && (e + 0.5) * inv >= 0.0;
  }
}
