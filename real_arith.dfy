/** Facts about products and squares of reals that the solver does not find unaided. */
module RealArith {

  function Sq(x: real): real {
    x * x
  }

  lemma PositiveProduct(a: real, b: real)
    requires 0.0 < a && 0.0 < b
    ensures 0.0 < a * b
  {
  }

  /** Multiplying by a non-negative factor keeps the order, strictly when the factor is positive. */
  lemma MulMonotone(a: real, b: real, c: real)
    requires a <= b && 0.0 <= c
    ensures a * c <= b * c
    ensures a < b && 0.0 < c ==> a * c < b * c
  {
    assert b * c - a * c == (b - a) * c;
  }

  lemma MulAtMost(a: real, b: real, c: real, d: real)
    requires 0.0 <= a <= b && 0.0 <= c <= d
    ensures a * c <= b * d
  {
    assert b * d - a * c == (b - a) * d + a * (d - c);
    if b - a > 0.0 && d > 0.0 { PositiveProduct(b - a, d); }
    if a > 0.0 && d - c > 0.0 { PositiveProduct(a, d - c); }
  }

  lemma MulLess(a: real, b: real, c: real, d: real)
    requires 0.0 <= a < b && 0.0 <= c < d
    ensures a * c < b * d
  {
    assert b * d - a * c == (b - a) * d + a * (d - c);
    PositiveProduct(b - a, d);
    if a > 0.0 { PositiveProduct(a, d - c); }
  }

  /** Squaring is monotone on the non-negative reals. */
  lemma SquareMonotone(a: real, b: real)
    requires 0.0 <= a <= b
    ensures Sq(a) <= Sq(b)
    ensures a < b ==> Sq(a) < Sq(b)
  {
    MulAtMost(a, b, a, b);
    if a < b {
      MulLess(a, b, a, b);
    }
  }

  /** A square is never negative, and it is zero only for zero. */
  lemma SquarePositive(a: real)
    ensures 0.0 <= Sq(a)
    ensures a != 0.0 ==> 0.0 < Sq(a)
  {
    var n := if a < 0.0 then -a else a;
    assert Sq(a) == Sq(n);
    SquareMonotone(0.0, n);
  }
}
