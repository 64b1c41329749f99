/** The transcendental functions the program takes from the C math library,
    and the constant PI it defines.  Their values are never computed here:
    an `Elementary` value bundles a square root, a sine and a cosine, and
    `Lawful` holds exactly the laws the proofs rely on. */
module RealMath {

  /** `PI` as the source defines it (a float literal, taken here as an exact real). */
  const PI: real := 3.14159265

  /** The full turn `2.0f*PI` that `idle` compares angles against. */
  const TwoPi: real := 2.0 * PI

  /** `sqrt`, `sin` and `cos` of `math.h`, supplied by the caller. */
  datatype Elementary = Elementary(sqrt: real -> real, sin: real -> real, cos: real -> real)
  {
    /** The only facts assumed about the three functions: the square root of a
        non-negative number is a non-negative number whose square it is, and
        sine and cosine satisfy the Pythagorean identity. */
    ghost predicate Lawful() {
      && (forall a: real :: 0.0 <= a ==> 0.0 <= sqrt(a) && sqrt(a) * sqrt(a) == a)
      && (forall a: real :: sin(a) * sin(a) + cos(a) * cos(a) == 1.0)
    }
  }

  /** The square root of a positive number is positive, so dividing by it is defined. */
  lemma SqrtPositive(m: Elementary, a: real)
    requires m.Lawful() && 0.0 < a
    ensures 0.0 < m.sqrt(a) && m.sqrt(a) * m.sqrt(a) == a
  {
  }

  /** The square root is determined by its laws: it is the non-negative root. */
  lemma SqrtUnique(m: Elementary, a: real, s: real)
    requires m.Lawful() && 0.0 <= s && s * s == a
    ensures m.sqrt(a) == s
  {
    assert 0.0 <= a by { assert 0.0 <= s * s; }
    var r := m.sqrt(a);
    assert 0.0 <= r && (r - s) * (r + s) == 0.0;
    ProductZero(r - s, r + s);
  }

  /** A product of reals is zero only when a factor is. */
  lemma ProductZero(u: real, v: real)
    requires u * v == 0.0
    ensures u == 0.0 || v == 0.0
  {
    if u != 0.0 {
      assert v == (u * v) / u;
    }
  }

  lemma SquareNonNegative(u: real)
    ensures 0.0 <= u * u
  {
  }

  /** Three reals whose squares sum to zero are all zero. */
  lemma SumOfSquaresZero(p: real, q: real, r: real)
    requires p * p + q * q + r * r == 0.0
    ensures p == 0.0 && q == 0.0 && r == 0.0
  {
    SquareNonNegative(p);
    SquareNonNegative(q);
    SquareNonNegative(r);
    assert p * p == 0.0 && q * q == 0.0 && r * r == 0.0;
    ProductZero(p, p);
    ProductZero(q, q);
    ProductZero(r, r);
  }

  /** A factor that leaves a positive number unchanged is 1. */
  lemma UnitFactor(s: real, t: real)
    requires 0.0 < t
    requires s * t - t == 0.0
    ensures s == 1.0
  {
    assert s == (s * t) / t;
  }
}
