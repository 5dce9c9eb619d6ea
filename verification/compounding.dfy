/** Compound growth: natural powers and geometric sums, the arithmetic that
    both the SIP projection and the goal simulator rest on. */
module Compounding {
  import opened RealFacts

  /** `x` raised to the natural power `n`. */
  function Pow(x: real, n: nat): real
  {
    if n == 0 then 1.0 else x * Pow(x, n - 1)
  }

  /** x^0 + x^1 + ... + x^(n-1). */
  function GeomSum(x: real, n: nat): real
  {
    if n == 0 then 0.0 else GeomSum(x, n - 1) + Pow(x, n - 1)
  }

  /** Telescoping: (x - 1) times the geometric sum is x^n - 1. */
  lemma {:induction false} GeomSumTelescopes(x: real, n: nat)
    ensures (x - 1.0) * GeomSum(x, n) == Pow(x, n) - 1.0
  {
    if n > 0 {
      GeomSumTelescopes(x, n - 1);
      calc {
        (x - 1.0) * GeomSum(x, n);
        (x - 1.0) * GeomSum(x, n - 1) + (x - 1.0) * Pow(x, n - 1);
        Pow(x, n - 1) - 1.0 + (x - 1.0) * Pow(x, n - 1);
        x * Pow(x, n - 1) - 1.0;
      }
    }
  }

  /** The closed-form ordinary-annuity factor ((1+r)^n - 1) / r equals the
      geometric sum of the growth factors whenever the rate is non-zero. */
  lemma AnnuityFactorIsGeometricSum(r: real, n: nat)
    requires r != 0.0
    ensures (Pow(1.0 + r, n) - 1.0) / r == GeomSum(1.0 + r, n)
  {
    GeomSumTelescopes(1.0 + r, n);
  }

  /** A growth factor of at least one never shrinks a power below one. */
  lemma {:induction false} PowAtLeastOne(x: real, n: nat)
    requires x >= 1.0
    ensures Pow(x, n) >= 1.0
  {
    if n > 0 {
      PowAtLeastOne(x, n - 1);
      MulAtLeastOne(x, Pow(x, n - 1));
    }
  }

  /** With a growth factor of at least one, each of the n terms is at least
      one, so the geometric sum is at least n. */
  lemma {:induction false} GeomSumAtLeastCount(x: real, n: nat)
    requires x >= 1.0
    ensures GeomSum(x, n) >= n as real
  {
    if n > 0 {
      GeomSumAtLeastCount(x, n - 1);
      PowAtLeastOne(x, n - 1);
    }
  }

  /** With no growth the geometric sum just counts its terms. */
  lemma {:induction false} GeomSumOfOne(n: nat)
    ensures GeomSum(1.0, n) == n as real
  {
    if n > 0 {
      GeomSumOfOne(n - 1);
      PowOfOne(n - 1);
    }
  }

  lemma {:induction false} PowOfOne(n: nat)
    ensures Pow(1.0, n) == 1.0
  {
    if n > 0 {
      PowOfOne(n - 1);
    }
  }
}
