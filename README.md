# Robot motion model of the game panel

This project models the robot in the game panel `gui.GameVisualizer` of the
"Robots" Swing application. The model covers:

- the robot's pose: its position and its heading in radians;
- the target, which the user moves with a mouse click;
- the model-update tick, which drives the robot towards the target by one
  10 ms step of a unicycle model with limited linear and angular velocity;
- the static helpers that tick uses: `distance`, `angleTo`, `applyLimits`,
  `asNormalizedRadians` and `round`.

Modules:

- `RealArith` (`real_arith.dfy`): the square function and the monotonicity
  facts about products that the other proofs use.
- `JavaMath` (`java_math.dfy`): `java.lang.Math`'s `sqrt`, `sin`, `cos` and
  `atan2` as a value of type `MathOps`. This value is handed to every
  operation that calls them. The laws the proofs rely on are stated as
  predicates: the square root squares back, `sin² + cos² = 1`, and the
  angle-addition formulas for `sin` and `cos`.
- `Geometry` (`geometry.dfy`): the static helpers. It also models Java's
  `(int)` cast and the rounding helper built on it.
- `Motion` (`motion.dfy`): the specification functions of one step.
  - `Steering` chooses the turn.
  - `Advance` and `Integrate` move the robot on an arc or a straight line.
  - `Step` is one full tick, including the arrival dead-band.
  - `Run` is a sequence of ticks.
- `Visualizer` (`game_visualizer.dfy`): the panel as a class. It has the
  panel's mutable fields and its methods `SetTargetPosition`,
  `OnModelUpdateEvent` and `MoveRobot`. `OnModelUpdateEvent` is proved
  equal to `Motion.Step` and `MoveRobot` to `Motion.Advance`.
  `SetTargetPosition` is specified directly on the fields: the target becomes
  the clicked point and the pose is unchanged.

The model follows the code. The code tests `Double.isFinite` on each
coordinate separately. Both tests fail exactly when the clamped angular
velocity is zero:

- with velocity 0 the quotient is `0/0`, which is NaN;
- with a positive velocity it is infinity times `sin(d) - sin(d)`, which is
  also NaN.

So the model decides both axes with the single branch `w != 0`.

The robot steers only by comparing the bearing with the heading, and both
are normalised into [0, 2π). Across the 0/2π seam, it therefore turns the
long way round. The model keeps that behaviour (`Motion.SteeringIgnoresWrapAround`).

## Model

| member | source | states |
|---|---|---|
| Geometry.Normalized | src/main/java/gui/GameVisualizer.java:215-226 | the normalised angle lies in [0, 2π) and differs from the input by a whole number of turns |
| Geometry.NormalizedUnique | src/main/java/gui/GameVisualizer.java:215-226 | any value in [0, 2π) that differs from the angle by whole turns is the normalised angle, so normalisation is fully determined |
| Geometry.NormalizedIdentity | src/main/java/gui/GameVisualizer.java:215-226 | an angle already in [0, 2π) is returned unchanged |
| Geometry.NormalizedIdempotent | src/main/java/gui/GameVisualizer.java:215-226 | normalising twice equals normalising once |
| Geometry.AsNormalizedRadians | src/main/java/gui/GameVisualizer.java:215-226 | the two loops that add or subtract 2π end with a value in [0, 2π), and that value is the normalised angle |
| Geometry.Distance | src/main/java/gui/GameVisualizer.java:107-112 | under the square-root law, the distance is non-negative and its square is the sum of the squared coordinate differences |
| Geometry.DistanceBelow | src/main/java/gui/GameVisualizer.java:107-112 | the distance is below a positive bound exactly when the squared differences sum to less than the bound squared |
| Geometry.DistanceZero | src/main/java/gui/GameVisualizer.java:107-112 | the distance is zero exactly when the two points coincide |
| Geometry.AngleTo | src/main/java/gui/GameVisualizer.java:122-128 | the angle to a point lies in [0, 2π) and is the `Bearing`: the normalised `atan2` of the displacement |
| Geometry.ApplyLimits | src/main/java/gui/GameVisualizer.java:168-175 | for an ordered range, the result lies in the range and equals the input exactly when the input is already inside it |
| Geometry.ApplyLimitsNearest | src/main/java/gui/GameVisualizer.java:168-175 | the clamped value is at least as close to the input as any point of the range |
| Geometry.TruncateToInt | src/main/java/gui/GameVisualizer.java:235 | Java's `(int)` cast truncates toward zero on each side of zero, and inputs at or beyond the 32-bit bounds give exactly that bound |
| Geometry.RoundAsWritten | src/main/java/gui/GameVisualizer.java:233-236 | the rounding helper as written returns a 32-bit integer |
| Geometry.Round | src/main/java/gui/GameVisualizer.java:228-236 | corrected rounding: within the 32-bit range, the result is the nearest integer, with halves rounded up |
| Geometry.RoundAsWrittenAgrees | src/main/java/gui/GameVisualizer.java:233-236 | from -0.5 upwards, the helper as written agrees with the corrected rounding |
| Geometry.RoundAsWrittenMissesNegatives | src/main/java/gui/GameVisualizer.java:233-236 | between -1.5 and -0.5, the helper as written returns 0 where the nearest integer is -1 |
| Geometry.RoundAsWrittenOffByOne | src/main/java/gui/GameVisualizer.java:233-236 | whenever value + 0.5 is negative, not a whole number and within the int range, the helper as written returns one more than the nearest integer |
| Motion.Steering | src/main/java/gui/GameVisualizer.java:145-155 | the turn is one of +max, -max or 0; it is positive exactly when the bearing exceeds the heading and negative exactly when it is below |
| Motion.SteeringIgnoresWrapAround | src/main/java/gui/GameVisualizer.java:147-155 | with the heading just above 0 and the bearing just below 2π, the robot turns the long way round |
| Motion.Advance | src/main/java/gui/GameVisualizer.java:183-208 | one movement always leaves the heading in [0, 2π) |
| Motion.Integrate | src/main/java/gui/GameVisualizer.java:188-207 | the arc or straight-line integration leaves the heading in [0, 2π) |
| Motion.AdvanceHeading | src/main/java/gui/GameVisualizer.java:206-207 | the new heading is the old heading plus the clamped angular velocity times the duration, normalised, and so differs from it by whole turns |
| Motion.AdvanceClampsCommands | src/main/java/gui/GameVisualizer.java:185-186 | the commanded velocities are clamped to [0, 0.1] and [-0.001, 0.001], and the clamped angular velocity is zero exactly when the commanded one is |
| Motion.StraightLineFallback | src/main/java/gui/GameVisualizer.java:193-206 | with no turn, the robot moves v·d along its heading and an in-range heading is kept |
| Motion.StraightStepLength | src/main/java/gui/GameVisualizer.java:193-202 | under sin² + cos² = 1, a straight step covers exactly the distance v·d |
| Motion.ArcStaysOnCircle | src/main/java/gui/GameVisualizer.java:188-199 | under sin² + cos² = 1, a turning step keeps the robot on the circle of radius v/ω around its turning centre |
| Motion.ArcTurnsAboutCentre | src/main/java/gui/GameVisualizer.java:188-199 | under the angle-addition formulas, a turning step rotates the robot's position about its turning centre by the angle ω·d, which fixes where on the circle it ends up |
| Motion.Step | src/main/java/gui/GameVisualizer.java:134-159 | one model-update tick keeps the heading in [0, 2π) |
| Motion.StepHoldsInDeadBand | src/main/java/gui/GameVisualizer.java:136-141 | closer than 0.5 to the target, a tick leaves the pose unchanged |
| Motion.StepHoldsNearTarget | src/main/java/gui/GameVisualizer.java:136-141 | under the square-root law, a squared distance below 0.25 leaves the pose unchanged |
| Motion.StepHoldsOnTarget | src/main/java/gui/GameVisualizer.java:136-141 | a robot standing on the target does not move |
| Motion.StepOutsideDeadBand | src/main/java/gui/GameVisualizer.java:142-158 | outside the dead-band, the commands pass the clamps unchanged, the robot advances at full speed for 10 ms, and the heading changes by +0.01, -0.01 or 0 before normalisation |
| Motion.FirstStepDrivesStraightAhead | src/main/java/gui/GameVisualizer.java:28-39 | from the initial pose (100, 100, 0), with the initial target (150, 100), the first tick moves the robot to (101, 100) and keeps heading 0 |
| Motion.Run | src/main/java/gui/GameVisualizer.java:59-66 | the pose after n ticks of the update timer toward a fixed target; its properties are the `Run*` lemmas below |
| Motion.RunKeepsHeadingInRange | src/main/java/gui/GameVisualizer.java:59-66 | any number of repeated ticks keeps an in-range heading in range |
| Motion.RunHoldsOnceArrived | src/main/java/gui/GameVisualizer.java:59-66 | once in the dead-band, further ticks never move the robot |
| Motion.RunOneMore | src/main/java/gui/GameVisualizer.java:59-66 | n + 1 ticks are n ticks followed by one more tick |
| Motion.StraightAheadStep | src/main/java/gui/GameVisualizer.java:134-159 | heading along the x axis with the target (150, 100) at least one unit ahead, a tick moves the robot exactly one unit toward it |
| Motion.StraightAheadRun | src/main/java/gui/GameVisualizer.java:28-66 | from the initial pose and target, after n ticks the robot is at (100 + n, 100) for n up to 50, and it stays at (150, 100) from then on |
| Visualizer.GameVisualizer.constructor | src/main/java/gui/GameVisualizer.java:28-34 | the panel starts with the robot at (100, 100), heading 0, and the target at (150, 100) |
| Visualizer.GameVisualizer.SetTargetPosition | src/main/java/gui/GameVisualizer.java:85-89 | the target becomes the clicked point and the robot's pose is unchanged |
| Visualizer.GameVisualizer.OnModelUpdateEvent | src/main/java/gui/GameVisualizer.java:134-159 | the new pose is one `Step` from the old pose towards the target, the heading stays in [0, 2π), and in the dead-band nothing moves |
| Visualizer.GameVisualizer.MoveRobot | src/main/java/gui/GameVisualizer.java:183-208 | the new pose is `Advance` of the old pose with the given commands, and the heading stays in [0, 2π) |

## Left out

- The repaint timer, `EventQueue.invokeLater` and painting (`paint`, `drawRobot`, `drawTarget`, `fillOval`, `drawOval`): drawing has no effect on the model.
- The mouse listener: it is modelled only through the `SetTargetPosition` call it makes.
- The two `java.util.Timer` threads and the `volatile` fields: the model treats each tick as one atomic call. Interleaving a click with a tick is not modelled.
- The rest of the application: the windows, the log and the program entry point are not part of this model.
- IEEE-754 doubles: the model computes on exact reals. It does not model rounding error, NaN, infinities or overflow. An ω so small that v/ω overflows would fall back to the straight line per axis in Java, but it turns on an arc here.
- `java.lang.Math`: `sqrt`, `sin`, `cos` and `atan2` are parameters. Only the laws each lemma names are assumed of them, as hypotheses.
- The constant 2π: it is the shortest decimal that reads back as the double `2*Math.PI`, 6.283185307179586. The double's exact value is larger by about 2.3e-16.
- Geometry.AsNormalizedRadians: the Java loops would not finish on a double too large for adding 2π to change it. On reals they always finish.
- Geometry.Distance: its contract holds only under the square-root law, because `Math.sqrt` is a parameter.
- Motion.Advance: its contract gives only the heading's range. The new position is stated by lemmas about `Integrate`, each under a law about `sin` and `cos`: `StraightLineFallback` gives it exactly with no turn, and `ArcTurnsAboutCentre` gives it as a rotation about the turning centre when turning.

## Findings

| source | as written | input that shows it | evidently intended | confidence | as-written member | corrected member |
|---|---|---|---|---|---|---|
| src/main/java/gui/GameVisualizer.java:233-236 | `(int)(value + 0.5)` truncates toward zero, so every value whose value + 0.5 is negative, not a whole number and within the int range rounds one too high; every value in (-1.5, -0.5) rounds to 0 | value = -1.2 gives 0; value = -2.2 gives -1 | the nearest integer (-1 and -2), as the helper's doc comment says | high; not executed | Geometry.RoundAsWrittenOffByOne | Geometry.Round |
