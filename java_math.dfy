/** The four java.lang.Math functions the motion model calls.

    Their IEEE-754 values are not modelled. Each one is a field of `MathOps`, a value the
    model takes as a parameter, and the only facts assumed about it are the laws below,
    stated as hypotheses wherever a property needs them. */
module JavaMath {
  import opened RealArith

  datatype MathOps = MathOps(
    sqrt: real -> real,
    sin: real -> real,
    cos: real -> real,
    atan2: (real, real) -> real)

  /** Math.sqrt returns the non-negative square root of a non-negative argument. */
  ghost predicate SqrtLaw(m: MathOps) {
    forall x: real :: 0.0 <= x ==> 0.0 <= m.sqrt(x) && Sq(m.sqrt(x)) == x
  }

  /** sin and cos of one angle lie on the unit circle. */
  ghost predicate PythagoreanLaw(m: MathOps) {
    forall t: real :: Sq(m.sin(t)) + Sq(m.cos(t)) == 1.0
  }

  /** The angle-addition formulas for sin and cos, for one pair of angles. */
  ghost predicate AddsAngles(m: MathOps, a: real, b: real) {
    && m.sin(a + b) == m.sin(a) * m.cos(b) + m.cos(a) * m.sin(b)
    && m.cos(a + b) == m.cos(a) * m.cos(b) - m.sin(a) * m.sin(b)
  }

  /** The angle-addition formulas hold for every pair of angles. */
  ghost predicate AdditionLaw(m: MathOps) {
    forall a: real, b: real :: AddsAngles(m, a, b)
  }

  /** The addition formulas for one pair of angles. */
  lemma AngleSum(m: MathOps, a: real, b: real)
    requires AdditionLaw(m)
    ensures m.sin(a + b) == m.sin(a) * m.cos(b) + m.cos(a) * m.sin(b)
    ensures m.cos(a + b) == m.cos(a) * m.cos(b) - m.sin(a) * m.sin(b)
  {
    assert AddsAngles(m, a, b);
  }
}
