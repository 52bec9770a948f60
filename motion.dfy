/** The motion model of the game panel on values: the pose, the steering law, one
    integration step (moveRobot), one controller step (onModelUpdateEvent) and the
    repetition of controller steps that the update timer drives. */
module Motion {
  import opened RealArith
  import opened JavaMath
  import opened Geometry

  const MaxVelocity: real := 0.1
  const MaxAngularVelocity: real := 0.001
  /** The duration every controller step hands to moveRobot. */
  const StepDuration: real := 10.0
  /** Closer to the target than this, the controller leaves the pose alone. */
  const ArrivalRadius: real := 0.5

  /** Position and heading of the robot. */
  datatype Pose = Pose(x: real, y: real, direction: real)

  // ---------------------------------------------------------------- steering

  /** The bang-bang steering law: turn at full rate toward a larger bearing, at full rate
      the other way toward a smaller one, not at all when they are equal. The two angles
      are compared as plain numbers, so the shorter way round is not taken into account. */
  function Steering(angleToTarget: real, direction: real): (w: real)
    ensures w == MaxAngularVelocity || w == -MaxAngularVelocity || w == 0.0
    ensures 0.0 < w <==> angleToTarget > direction
    ensures w < 0.0 <==> angleToTarget < direction
  {
    if angleToTarget > direction then MaxAngularVelocity
    else if angleToTarget < direction then -MaxAngularVelocity
    else 0.0
  }

  /** With the heading just above 0 and the target just below 2π (a small clockwise turn
      away), the robot is sent counter-clockwise, almost a whole turn round. */
  lemma SteeringIgnoresWrapAround()
    ensures Steering(TwoPi - 0.1, 0.1) == MaxAngularVelocity
  {
  }

  // ---------------------------------------------------------------- moveRobot

  /** One integration step: clamp both velocities, then integrate. */
  function Advance(m: MathOps, p: Pose, velocity: real, angularVelocity: real, duration: real): (q: Pose)
    ensures 0.0 <= q.direction < TwoPi
  {
    Integrate(m, p, ApplyLimits(velocity, 0.0, MaxVelocity),
              ApplyLimits(angularVelocity, -MaxAngularVelocity, MaxAngularVelocity), duration)
  }

  /** Move for `duration` at speed v and turn rate w: along the circular arc of radius v / w,
      or along a straight line when w is zero; the new heading is normalised. */
  function Integrate(m: MathOps, p: Pose, v: real, w: real, duration: real): (q: Pose)
    ensures 0.0 <= q.direction < TwoPi
  {
    if w != 0.0 then
      Pose(p.x + v / w * (m.sin(p.direction + w * duration) - m.sin(p.direction)),
           p.y - v / w * (m.cos(p.direction + w * duration) - m.cos(p.direction)),
           Normalized(p.direction + w * duration))
    else
      Pose(p.x + v * duration * m.cos(p.direction),
           p.y + v * duration * m.sin(p.direction),
           Normalized(p.direction + w * duration))
  }

  /** The new heading is the old one turned by the clamped rate times the duration, and
      normalised into [0, 2π). */
  lemma AdvanceHeading(m: MathOps, p: Pose, velocity: real, angularVelocity: real, duration: real)
    ensures var w := ApplyLimits(angularVelocity, -MaxAngularVelocity, MaxAngularVelocity);
            var q := Advance(m, p, velocity, angularVelocity, duration);
            q.direction == Normalized(p.direction + w * duration)
            && 0.0 <= q.direction < TwoPi
            && IsInteger((p.direction + w * duration - q.direction) / TwoPi)
  {
  }

  /** The commands the integrator uses lie within the limits: speed in [0, MaxVelocity],
      turn rate in [-MaxAngularVelocity, MaxAngularVelocity], and the turn rate is zero after
      clamping exactly when it was zero before. */
  lemma AdvanceClampsCommands(velocity: real, angularVelocity: real)
    ensures 0.0 <= ApplyLimits(velocity, 0.0, MaxVelocity) <= MaxVelocity
    ensures -MaxAngularVelocity <= ApplyLimits(angularVelocity, -MaxAngularVelocity, MaxAngularVelocity)
                                <= MaxAngularVelocity
    ensures ApplyLimits(angularVelocity, -MaxAngularVelocity, MaxAngularVelocity) == 0.0
        <==> angularVelocity == 0.0
  {
  }

  /** With no turn rate the robot moves straight along its heading, by the clamped speed
      times the duration, and a heading already in [0, 2π) is kept exactly. */
  lemma StraightLineFallback(m: MathOps, p: Pose, velocity: real, duration: real)
    ensures var v := ApplyLimits(velocity, 0.0, MaxVelocity);
            var q := Advance(m, p, velocity, 0.0, duration);
            q.x == p.x + v * duration * m.cos(p.direction)
            && q.y == p.y + v * duration * m.sin(p.direction)
            && (0.0 <= p.direction < TwoPi ==> q.direction == p.direction)
  {
    if 0.0 <= p.direction < TwoPi {
      assert p.direction + 0.0 * duration == p.direction;
      NormalizedIdentity(p.direction);
    }
  }

  /** A straight step covers exactly speed times duration. */
  lemma StraightStepLength(m: MathOps, p: Pose, v: real, duration: real)
    requires PythagoreanLaw(m)
    ensures var q := Integrate(m, p, v, 0.0, duration);
            Sq(q.x - p.x) + Sq(q.y - p.y) == Sq(v * duration)
  {
    var q := Integrate(m, p, v, 0.0, duration);
    var s, c := m.sin(p.direction), m.cos(p.direction);
    assert q.x - p.x == v * duration * c;
    assert q.y - p.y == v * duration * s;
    assert Sq(v * duration * c) + Sq(v * duration * s) == Sq(v * duration) * (Sq(s) + Sq(c));
  }

  /** With a non-zero turn rate the old and the new position lie on one circle of radius
      |v / w|, whose centre is a quarter turn to the left of the old heading. */
  lemma ArcStaysOnCircle(m: MathOps, p: Pose, v: real, w: real, duration: real)
    requires PythagoreanLaw(m)
    requires w != 0.0
    ensures var q := Integrate(m, p, v, w, duration);
            var centreX := p.x - v / w * m.sin(p.direction);
            var centreY := p.y + v / w * m.cos(p.direction);
            Sq(p.x - centreX) + Sq(p.y - centreY) == Sq(v / w)
            && Sq(q.x - centreX) + Sq(q.y - centreY) == Sq(v / w)
  {
    var q := Integrate(m, p, v, w, duration);
    ArcGeometry(p.x, p.y, q.x, q.y,
                p.x - v / w * m.sin(p.direction), p.y + v / w * m.cos(p.direction), v / w,
                m.sin(p.direction), m.cos(p.direction),
                m.sin(p.direction + w * duration), m.cos(p.direction + w * duration));
  }

  /** Turning a point about a centre at distance `radius` keeps it at that distance: the
      plane geometry behind ArcStaysOnCircle, for sines and cosines on the unit circle. */
  lemma ArcGeometry(x: real, y: real, x': real, y': real, centreX: real, centreY: real,
                    radius: real, s: real, c: real, s': real, c': real)
    requires Sq(s) + Sq(c) == 1.0 && Sq(s') + Sq(c') == 1.0
    requires centreX == x - radius * s && centreY == y + radius * c
    requires x' == x + radius * (s' - s) && y' == y - radius * (c' - c)
    ensures Sq(x - centreX) + Sq(y - centreY) == Sq(radius)
    ensures Sq(x' - centreX) + Sq(y' - centreY) == Sq(radius)
  {
    assert x - centreX == radius * s && y - centreY == -radius * c;
    assert x' - centreX == radius * s' && y' - centreY == -radius * c';
    OnCircle(radius, s, c);
    OnCircle(radius, s', c');
  }

  /** Where on the circle the robot ends up: with a non-zero turn rate the new position is
      the old one rotated about the turning centre by the angle w * duration. */
  lemma ArcTurnsAboutCentre(m: MathOps, p: Pose, v: real, w: real, duration: real)
    requires AdditionLaw(m)
    requires w != 0.0
    ensures var q := Integrate(m, p, v, w, duration);
            var centreX := p.x - v / w * m.sin(p.direction);
            var centreY := p.y + v / w * m.cos(p.direction);
            var st, ct := m.sin(w * duration), m.cos(w * duration);
            && q.x - centreX == (p.x - centreX) * ct - (p.y - centreY) * st
            && q.y - centreY == (p.x - centreX) * st + (p.y - centreY) * ct
  {
    var q := Integrate(m, p, v, w, duration);
    var d, t := p.direction, w * duration;
    AngleSum(m, d, t);
    ArcRotation(p.x, p.y, q.x, q.y,
                p.x - v / w * m.sin(d), p.y + v / w * m.cos(d), v / w,
                m.sin(d), m.cos(d), m.sin(d + t), m.cos(d + t), m.sin(t), m.cos(t));
  }

  /** The plane geometry behind ArcTurnsAboutCentre: moving along the circle from angle
      (s, c) to the angle turned by (st, ct) is a rotation about the centre. */
  lemma ArcRotation(x: real, y: real, x': real, y': real, centreX: real, centreY: real,
                    radius: real, s: real, c: real, s': real, c': real, st: real, ct: real)
    requires s' == s * ct + c * st && c' == c * ct - s * st
    requires centreX == x - radius * s && centreY == y + radius * c
    requires x' == x + radius * (s' - s) && y' == y - radius * (c' - c)
    ensures x' - centreX == (x - centreX) * ct - (y - centreY) * st
    ensures y' - centreY == (x - centreX) * st + (y - centreY) * ct
  {
    assert x - centreX == radius * s && y - centreY == -radius * c;
    assert x' - centreX == radius * s' && y' - centreY == -radius * c';
    assert radius * s' == radius * s * ct + radius * c * st;
    assert -radius * c' == -radius * c * ct + radius * s * st;
  }

  /** A point on the unit circle, scaled by `radius`, is `radius` away from the origin. */
  lemma OnCircle(radius: real, s: real, c: real)
    requires Sq(s) + Sq(c) == 1.0
    ensures Sq(radius * s) + Sq(-radius * c) == Sq(radius)
  {
    assert Sq(radius * s) + Sq(-radius * c) == Sq(radius) * (Sq(s) + Sq(c));
  }

  // ---------------------------------------------------------------- onModelUpdateEvent

  /** One controller step: hold still within the dead-band, otherwise drive at full speed
      for one step duration, steering by the bang-bang law. */
  function Step(m: MathOps, p: Pose, targetX: int, targetY: int): (q: Pose)
    ensures 0.0 <= p.direction < TwoPi ==> 0.0 <= q.direction < TwoPi
  {
    if Distance(m, targetX as real, targetY as real, p.x, p.y) < ArrivalRadius then p
    else Advance(m, p, MaxVelocity, Steering(Bearing(m, p.x, p.y, targetX as real, targetY as real), p.direction), StepDuration)
  }

  /** Closer to the target than the arrival radius, a step changes nothing. */
  lemma StepHoldsInDeadBand(m: MathOps, p: Pose, targetX: int, targetY: int)
    requires Distance(m, targetX as real, targetY as real, p.x, p.y) < ArrivalRadius
    ensures Step(m, p, targetX, targetY) == p
  {
  }

  /** The dead-band, read through squared distances: within 0.5 of the target (squared
      distance below 0.25) the pose is kept. */
  lemma StepHoldsNearTarget(m: MathOps, p: Pose, targetX: int, targetY: int)
    requires SqrtLaw(m)
    requires Sq(targetX as real - p.x) + Sq(targetY as real - p.y) < 0.25
    ensures Step(m, p, targetX, targetY) == p
  {
    assert Sq(ArrivalRadius) == 0.25;
    DistanceBelow(m, targetX as real, targetY as real, p.x, p.y, ArrivalRadius);
  }

  /** A robot standing on the target does not move. */
  lemma StepHoldsOnTarget(m: MathOps, p: Pose, targetX: int, targetY: int)
    requires SqrtLaw(m)
    requires p.x == targetX as real && p.y == targetY as real
    ensures Step(m, p, targetX, targetY) == p
  {
    DistanceZero(m, targetX as real, targetY as real, p.x, p.y);
  }

  /** Outside the dead-band the step drives at full speed, the clamps pass both commands
      through unchanged, and the heading turns by +0.01, -0.01 or 0 radians (modulo 2π)
      according to how the bearing compares with the heading. */
  lemma StepOutsideDeadBand(m: MathOps, p: Pose, targetX: int, targetY: int)
    requires ArrivalRadius <= Distance(m, targetX as real, targetY as real, p.x, p.y)
    ensures var bearing := Bearing(m, p.x, p.y, targetX as real, targetY as real);
            var w := Steering(bearing, p.direction);
            && ApplyLimits(MaxVelocity, 0.0, MaxVelocity) == MaxVelocity
            && ApplyLimits(w, -MaxAngularVelocity, MaxAngularVelocity) == w
            && Step(m, p, targetX, targetY) == Advance(m, p, MaxVelocity, w, StepDuration)
            && Step(m, p, targetX, targetY).direction
               == Normalized(p.direction + (if bearing > p.direction then 0.01
                                            else if bearing < p.direction then -0.01
                                            else 0.0))
  {
  }

  /** From the starting pose (100, 100) heading 0, with the target at its starting point
      (150, 100) straight ahead, one step moves the robot one unit along the x axis. */
  lemma FirstStepDrivesStraightAhead(m: MathOps)
    requires SqrtLaw(m)
    requires m.atan2(0.0, 50.0) == 0.0
    requires m.cos(0.0) == 1.0 && m.sin(0.0) == 0.0
    ensures Step(m, Pose(100.0, 100.0, 0.0), 150, 100) == Pose(101.0, 100.0, 0.0)
  {
    var p := Pose(100.0, 100.0, 0.0);
    assert Sq(150.0 - 100.0) + Sq(100.0 - 100.0) == 2500.0;
    assert Sq(ArrivalRadius) == 0.25;
    DistanceBelow(m, 150.0, 100.0, p.x, p.y, ArrivalRadius);
    NormalizedIdentity(0.0);
    assert Bearing(m, p.x, p.y, 150.0, 100.0) == 0.0;
    StraightLineFallback(m, p, MaxVelocity, StepDuration);
  }

  // ---------------------------------------------------------------- repeated steps

  /** The pose after `n` controller steps toward a fixed target. */
  function Run(m: MathOps, p: Pose, targetX: int, targetY: int, n: nat): Pose
    decreases n
  {
    if n == 0 then p else Run(m, Step(m, p, targetX, targetY), targetX, targetY, n - 1)
  }

  /** However many steps run, the heading stays in [0, 2π). */
  lemma {:induction false} RunKeepsHeadingInRange(m: MathOps, p: Pose, targetX: int, targetY: int, n: nat)
    requires 0.0 <= p.direction < TwoPi
    ensures 0.0 <= Run(m, p, targetX, targetY, n).direction < TwoPi
    decreases n
  {
    if n > 0 {
      RunKeepsHeadingInRange(m, Step(m, p, targetX, targetY), targetX, targetY, n - 1);
    }
  }

  /** Once the robot is within the dead-band it stays put for every later step, until the
      target changes. */
  lemma {:induction false} RunHoldsOnceArrived(m: MathOps, p: Pose, targetX: int, targetY: int, n: nat)
    requires Distance(m, targetX as real, targetY as real, p.x, p.y) < ArrivalRadius
    ensures Run(m, p, targetX, targetY, n) == p
    decreases n
  {
    if n > 0 {
      RunHoldsOnceArrived(m, p, targetX, targetY, n - 1);
    }
  }

  /** Running n + 1 steps is running n steps and then one more. */
  lemma {:induction false} RunOneMore(m: MathOps, p: Pose, targetX: int, targetY: int, n: nat)
    ensures Run(m, p, targetX, targetY, n + 1) == Step(m, Run(m, p, targetX, targetY, n), targetX, targetY)
    decreases n
  {
    if n > 0 {
      RunOneMore(m, Step(m, p, targetX, targetY), targetX, targetY, n - 1);
    }
  }

  /** Heading along the x axis toward a target at (150, 100) that is at least one unit
      ahead, a step moves the robot exactly one unit closer. */
  lemma StraightAheadStep(m: MathOps, x: real)
    requires SqrtLaw(m)
    requires forall d: real :: 0.0 < d ==> m.atan2(0.0, d) == 0.0
    requires m.cos(0.0) == 1.0 && m.sin(0.0) == 0.0
    requires x <= 149.0
    ensures Step(m, Pose(x, 100.0, 0.0), 150, 100) == Pose(x + 1.0, 100.0, 0.0)
  {
    var p := Pose(x, 100.0, 0.0);
    SquareMonotone(1.0, 150.0 - x);
    assert Sq(100.0 - 100.0) == 0.0;
    assert Sq(ArrivalRadius) == 0.25;
    DistanceBelow(m, 150.0, 100.0, p.x, p.y, ArrivalRadius);
    assert m.atan2(100.0 - 100.0, 150.0 - x) == 0.0;
    NormalizedIdentity(0.0);
    StraightLineFallback(m, p, MaxVelocity, StepDuration);
  }

  /** From the starting pose and target, the robot drives along the x axis one unit per
      step, reaches the target (150, 100) after 50 steps and stays there. */
  lemma {:induction false} StraightAheadRun(m: MathOps, n: nat)
    requires SqrtLaw(m)
    requires forall d: real :: 0.0 < d ==> m.atan2(0.0, d) == 0.0
    requires m.cos(0.0) == 1.0 && m.sin(0.0) == 0.0
    ensures Run(m, Pose(100.0, 100.0, 0.0), 150, 100, n)
            == Pose(100.0 + (if n <= 50 then n else 50) as real, 100.0, 0.0)
    decreases n
  {
    if n > 0 {
      var start := Pose(100.0, 100.0, 0.0);
      StraightAheadRun(m, n - 1);
      RunOneMore(m, start, 150, 100, n - 1);
      if n <= 50 {
        StraightAheadStep(m, 100.0 + (n - 1) as real);
      } else {
        StepHoldsOnTarget(m, Pose(150.0, 100.0, 0.0), 150, 100);
      }
    }
  }
}
