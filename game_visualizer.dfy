/** The state of the game panel and the three operations that change it: a click sets the
    target, and every tick of the update timer runs one controller step, which moves the
    robot by one integration step. */
module Visualizer {
  import opened JavaMath
  import opened Geometry
  import opened Motion

  /** A pixel position, as a mouse click delivers it. */
  datatype Point = Point(x: int, y: int)

  class GameVisualizer {
    /** The java.lang.Math functions the panel calls. */
    const math: MathOps

    var robotPositionX: real
    var robotPositionY: real
    var robotDirection: real

    var targetPositionX: int
    var targetPositionY: int

    /** The heading is always a normalised angle. */
    ghost predicate Valid()
      reads this
    {
      0.0 <= robotDirection < TwoPi
    }

    function RobotPose(): Pose
      reads this
    {
      Pose(robotPositionX, robotPositionY, robotDirection)
    }

    /** The robot starts at (100, 100) heading along the x axis, the target at (150, 100). */
    constructor (math: MathOps)
      ensures Valid()
      ensures this.math == math
      ensures RobotPose() == Pose(100.0, 100.0, 0.0)
      ensures targetPositionX == 150 && targetPositionY == 100
    {
      this.math := math;
      robotPositionX, robotPositionY, robotDirection := 100.0, 100.0, 0.0;
      targetPositionX, targetPositionY := 150, 100;
    }

    /** setTargetPosition: the target becomes the clicked point; the robot is not touched. */
    method SetTargetPosition(p: Point)
      modifies this`targetPositionX, this`targetPositionY
      ensures targetPositionX == p.x && targetPositionY == p.y
      ensures RobotPose() == old(RobotPose())
    {
      targetPositionX := p.x;
      targetPositionY := p.y;
    }

    /** onModelUpdateEvent: one controller step toward the current target. */
    method OnModelUpdateEvent()
      requires Valid()
      modifies this`robotPositionX, this`robotPositionY, this`robotDirection
      ensures Valid()
      ensures RobotPose() == Step(math, old(RobotPose()), targetPositionX, targetPositionY)
      ensures Distance(math, targetPositionX as real, targetPositionY as real,
                       old(robotPositionX), old(robotPositionY)) < ArrivalRadius
              ==> RobotPose() == old(RobotPose())
    {
      var distance := Distance(math, targetPositionX as real, targetPositionY as real,
                               robotPositionX, robotPositionY);
      if distance < 0.5 {
        return;
      }
      var velocity := MaxVelocity;
      var angleToTarget := AngleTo(math, robotPositionX, robotPositionY,
                                   targetPositionX as real, targetPositionY as real);
      var angularVelocity := 0.0;
      if angleToTarget > robotDirection {
        angularVelocity := MaxAngularVelocity;
      }
      if angleToTarget < robotDirection {
        angularVelocity := -MaxAngularVelocity;
      }
      MoveRobot(velocity, angularVelocity, 10.0);
    }

    /** moveRobot: clamp both velocities, integrate the pose over `duration` and normalise
        the heading. */
    method MoveRobot(velocity: real, angularVelocity: real, duration: real)
      modifies this`robotPositionX, this`robotPositionY, this`robotDirection
      ensures Valid()
      ensures RobotPose() == Advance(math, old(RobotPose()), velocity, angularVelocity, duration)
    {
      var limitedVelocity := ApplyLimits(velocity, 0.0, MaxVelocity);
      var limitedAngularVelocity := ApplyLimits(angularVelocity, -MaxAngularVelocity, MaxAngularVelocity);
      ghost var after := Integrate(math, RobotPose(), limitedVelocity, limitedAngularVelocity, duration);
      var newX, newY;
      if limitedAngularVelocity != 0.0 {
        newX := robotPositionX + limitedVelocity / limitedAngularVelocity
                * (math.sin(robotDirection + limitedAngularVelocity * duration) - math.sin(robotDirection));
        newY := robotPositionY - limitedVelocity / limitedAngularVelocity
                * (math.cos(robotDirection + limitedAngularVelocity * duration) - math.cos(robotDirection));
        assert newX == after.x && newY == after.y;
      } else {
        newX := robotPositionX + limitedVelocity * duration * math.cos(robotDirection);
        newY := robotPositionY + limitedVelocity * duration * math.sin(robotDirection);
        assert newX == after.x && newY == after.y;
      }
      robotPositionX := newX;
      robotPositionY := newY;
      var newDirection := AsNormalizedRadians(robotDirection + limitedAngularVelocity * duration);
      robotDirection := newDirection;
      assert RobotPose() == after;
    }
  }
}
