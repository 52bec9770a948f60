/** The static helpers of the game panel: angle normalisation, distance, bearing,
    clamping and rounding to a pixel. */
module Geometry {
  import opened RealArith
  import opened JavaMath

  /** 2 * Math.PI, as the decimal that the double stands for when printed. */
  const TwoPi: real := 6.283185307179586

  predicate IsInteger(x: real) {
    x.Floor as real == x
  }

  // ---------------------------------------------------------------- normalisation

  /** The angle in [0, 2π) that points the same way as `angle`: the value the two
      loops of asNormalizedRadians arrive at, written as a closed formula. */
  function Normalized(angle: real): (r: real)
    ensures 0.0 <= r < TwoPi
    ensures IsInteger((angle - r) / TwoPi)
  {
    var k := (angle / TwoPi).Floor;
    TurnsBelow(angle, k);
    angle - k as real * TwoPi
  }

  /** k whole turns never exceed `angle` and k + 1 turns do. */
  lemma TurnsBelow(angle: real, k: int)
    requires k == (angle / TwoPi).Floor
    ensures k as real * TwoPi <= angle < k as real * TwoPi + TwoPi
    ensures (angle - (angle - k as real * TwoPi)) / TwoPi == k as real
  {
    var q := angle / TwoPi;
    assert angle == q * TwoPi;
    assert k as real <= q < k as real + 1.0;
    MulMonotone(k as real, q, TwoPi);
    MulMonotone(q, k as real + 1.0, TwoPi);
  }

  /** An integer number of turns lies strictly between -2π and 2π only if it is zero. */
  lemma WholeTurnsBetween(j: int)
    requires -TwoPi < j as real * TwoPi < TwoPi
    ensures j == 0
  {
    if j >= 1 {
      MulMonotone(1.0, j as real, TwoPi);
    } else if j <= -1 {
      MulMonotone(j as real, -1.0, TwoPi);
    }
  }

  /** Normalized is the only angle in [0, 2π) that differs from `angle` by whole turns. */
  lemma NormalizedUnique(angle: real, r: real)
    requires 0.0 <= r < TwoPi
    requires IsInteger((angle - r) / TwoPi)
    ensures r == Normalized(angle)
  {
    var n := Normalized(angle);
    var i := ((angle - r) / TwoPi).Floor;
    var j := ((angle - n) / TwoPi).Floor;
    assert angle - r == i as real * TwoPi;
    assert angle - n == j as real * TwoPi;
    assert n - r == (i - j) as real * TwoPi;
    WholeTurnsBetween(i - j);
  }

  /** An angle already in [0, 2π) is left as it is. */
  lemma NormalizedIdentity(angle: real)
    requires 0.0 <= angle < TwoPi
    ensures Normalized(angle) == angle
  {
    assert (angle - angle) / TwoPi == 0.0;
    NormalizedUnique(angle, angle);
  }

  /** Normalising twice is normalising once. */
  lemma NormalizedIdempotent(angle: real)
    ensures Normalized(Normalized(angle)) == Normalized(angle)
  {
    NormalizedIdentity(Normalized(angle));
  }

  /** asNormalizedRadians: add 2π while the angle is negative, then subtract 2π while it
      is at least 2π. */
  method AsNormalizedRadians(angle: real) returns (r: real)
    ensures 0.0 <= r < TwoPi
    ensures r == Normalized(angle)
  {
    r := angle;
    ghost var turns: int := 0;
    while r < 0.0
      invariant r == angle + turns as real * TwoPi
      decreases (-r).Floor
    {
      r := r + TwoPi;
      turns := turns + 1;
    }
    while r >= TwoPi
      invariant 0.0 <= r
      invariant r == angle + turns as real * TwoPi
      decreases r.Floor
    {
      r := r - TwoPi;
      turns := turns - 1;
    }
    assert (angle - r) / TwoPi == (-turns) as real;
    NormalizedUnique(angle, r);
  }

  // ---------------------------------------------------------------- distance and bearing

  /** distance: the Euclidean distance between two points. */
  function Distance(m: MathOps, x1: real, y1: real, x2: real, y2: real): (r: real)
    ensures SqrtLaw(m) ==> 0.0 <= r && Sq(r) == Sq(x1 - x2) + Sq(y1 - y2)
  {
    var diffX := x1 - x2;
    var diffY := y1 - y2;
    SquarePositive(diffX);
    SquarePositive(diffY);
    m.sqrt(diffX * diffX + diffY * diffY)
  }

  /** The distance is below a bound exactly when its square is below the bound's square,
      so the dead-band test needs no square root. */
  lemma DistanceBelow(m: MathOps, x1: real, y1: real, x2: real, y2: real, bound: real)
    requires SqrtLaw(m)
    requires 0.0 < bound
    ensures Distance(m, x1, y1, x2, y2) < bound <==> Sq(x1 - x2) + Sq(y1 - y2) < Sq(bound)
  {
    var r := Distance(m, x1, y1, x2, y2);
    if r < bound {
      SquareMonotone(r, bound);
    } else {
      SquareMonotone(bound, r);
    }
  }

  /** The distance is zero exactly when the two points coincide. */
  lemma DistanceZero(m: MathOps, x1: real, y1: real, x2: real, y2: real)
    requires SqrtLaw(m)
    ensures Distance(m, x1, y1, x2, y2) == 0.0 <==> x1 == x2 && y1 == y2
  {
    SquarePositive(Distance(m, x1, y1, x2, y2));
    SquarePositive(x1 - x2);
    SquarePositive(y1 - y2);
  }

  /** The direction from one point to another, as an angle in [0, 2π). */
  function Bearing(m: MathOps, fromX: real, fromY: real, toX: real, toY: real): real {
    Normalized(m.atan2(toY - fromY, toX - fromX))
  }

  /** angleTo: the bearing from one point to another, normalised into [0, 2π). */
  method AngleTo(m: MathOps, fromX: real, fromY: real, toX: real, toY: real) returns (r: real)
    ensures 0.0 <= r < TwoPi
    ensures r == Bearing(m, fromX, fromY, toX, toY)
  {
    var diffX := toX - fromX;
    var diffY := toY - fromY;
    r := AsNormalizedRadians(m.atan2(diffY, diffX));
  }

  // ---------------------------------------------------------------- clamping

  /** applyLimits: `min` below the range, `max` above it, `value` otherwise. */
  function ApplyLimits(value: real, min: real, max: real): (r: real)
    ensures min <= max ==> min <= r <= max
    ensures min <= max ==> (r == value <==> min <= value <= max)
  {
    if value < min then min
    else if value > max then max
    else value
  }

  /** The clamped value is the point of [min, max] closest to `value`. */
  lemma ApplyLimitsNearest(value: real, min: real, max: real, z: real)
    requires min <= z <= max
    ensures var r := ApplyLimits(value, min, max);
      (if r <= value then value - r else r - value) <= (if z <= value then value - z else z - value)
  {
  }

  // ---------------------------------------------------------------- rounding to a pixel

  const IntMin: int := -0x8000_0000
  const IntMax: int := 0x7fff_ffff

  function Saturate(n: int): int {
    if n < IntMin then IntMin else if n > IntMax then IntMax else n
  }

  /** Java's narrowing conversion (int) of a double: truncation toward zero, saturating at
      the bounds of int. */
  function TruncateToInt(x: real): (r: int)
    ensures IntMin <= r <= IntMax
    ensures 0.0 <= x < IntMax as real ==> r as real <= x < r as real + 1.0
    ensures IntMin as real < x < 0.0 ==> r as real - 1.0 < x <= r as real
    ensures IntMax as real <= x ==> r == IntMax
    ensures x <= IntMin as real ==> r == IntMin
  {
    if 0.0 <= x then Saturate(x.Floor) else Saturate(-((-x).Floor))
  }

  /** round as the source writes it: (int)(value + 0.5). */
  function RoundAsWritten(value: real): (r: int)
    ensures IntMin <= r <= IntMax
  {
    TruncateToInt(value + 0.5)
  }

  /** Rounding half up to the nearest int, saturating at the bounds of int: what round is
      evidently meant to compute (the rule Math.round follows). */
  function Round(value: real): (r: int)
    ensures IntMin <= r <= IntMax
    ensures IntMin as real <= value + 0.5 < IntMax as real + 1.0
        ==> r as real - 0.5 <= value < r as real + 0.5
  {
    Saturate((value + 0.5).Floor)
  }

  /** From -0.5 upward the source's formula is the intended rounding. */
  lemma RoundAsWrittenAgrees(value: real)
    requires -0.5 <= value
    ensures RoundAsWritten(value) == Round(value)
  {
  }

  /** Between -1.5 and -0.5 the truncating cast rounds toward zero, giving 0 where the
      nearest int is -1; -1.2 is one such input. */
  lemma RoundAsWrittenMissesNegatives(value: real)
    requires -1.5 < value < -0.5
    ensures RoundAsWritten(value) == 0
    ensures Round(value) == -1
  {
  }

  /** Everywhere below -0.5 where value + 0.5 is not a whole number (and the cast does not
      saturate), truncating toward zero lands one above the nearest int. */
  lemma RoundAsWrittenOffByOne(value: real)
    requires IntMin as real < value + 0.5 < 0.0
    requires !IsInteger(value + 0.5)
    ensures RoundAsWritten(value) == Round(value) + 1
  {
  }
}
