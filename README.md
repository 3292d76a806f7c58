# Two-link arm controller: joint-angle bookkeeping

This project models the joint-angle logic of the controller for a two-link
planar arm driven by two position actuators: a shoulder and an elbow. The
model covers these parts:

- wrapping angles into one turn (`scaleToCircle`);
- clamping goals into the workspace rectangle (`boundWithinGoal`);
- the angular tolerance test (`withinThreshold`);
- choosing the smallest rotation that reaches an inverse-kinematics target
  (the `alpha`/`beta` logic of `moveToXY`);
- converting between actuator ticks and radians (`returnCurrentPositions`,
  `returnCurrentPositionsNOMOD`, `moveToTheta`);
- the goal pipeline of `moveToXYGoal`;
- the arrival and motion checks (`nearGoalPosition`, `isMoving`,
  `actuatorsMoving`);
- the alternate elbow configuration (`computeAltIK`).

Angles are exact `real`s. `PI` is the exact value of the double that
Python's `math.pi` denotes. Wrapping is Python's floored `%`, so a wrapped
angle always lies in [0, 2π). Python's `int()` is modelled as truncation
toward zero.

Modules:

- `Angles` (angles.dfy): `Wrap`, `WithinThreshold`, and `AngularDistance`.
  `AngularDistance` is the distance of an angle from the nearest whole
  number of turns. `WithinThreshold`'s contract ties the threshold test to
  it.
- `Kinematics` (kinematics.dfy): the `ArmParams` record, `BoundWithinGoal`,
  the world/arm frame change, and `ComputeAltIK`.
- `Encoders` (encoders.dfy): ticks per radian, truncation, and the
  shoulder/elbow read and write conversions.
  - Over exact reals, the shoulder's write inverts its read. In double
    precision this can fall one tick short; see "## Left out".
  - Reading the elbow and commanding that angle gives
    int(position − elbow_offset/2). That is the position itself when the
    offset is zero. `ElbowRoundTripDrift` states this.
- `Resolver` (resolver.dfy): the minimal-rotation choice.
  - `Rotation` is the declarative choice: the earliest candidate of
    smallest magnitude.
  - `ChooseRotation` is the step-by-step code, proved equal to `Rotation`.
  - `ResolveJoint` applies the rotation to the unwrapped reading. The
    resulting command is the target modulo 2π, lies within π of the
    unwrapped reading, and is the target's representative nearest to it.
- `Controller` (controller.dfy):
  - the `Actuator` class holds the cached `CurrentPosition` and `Moving`
    registers and the `goal_position` register;
  - the `Arm` class holds the commanded `shoulderAngle` and `elbowAngle`,
    which `MoveToTheta` overwrites along with both goal registers;
  - `ActuatorsMoving` is the early-return scan over actuators;
  - `MoveToXY` and `MoveToXYGoal` are modelled on top of these.

The trigonometric parts are parameters of the methods that need them:

- `solve`: the trigonometric solution of `inverseKinematics`. It returns
  `None` where `math.sqrt` would receive a negative argument.
- `clip`: `boundWithinRobotReach`.

So every property below holds whatever those functions return.

Behaviour of the code that the model keeps:

- `math.sqrt` raises ValueError before anything is commanded when the
  target is out of reach. `MoveToXY` then returns false and changes nothing.
- The comparisons in the rotation choice are strict, so on a tie the
  earlier candidate is kept.
- The elbow's read and write conversions differ by half the elbow offset.
  The model keeps them as written.

## Model

| member | source | states |
|---|---|---|
| `Angles.Wrap` | Python/dynamixel_control.py:43-44 | scaleToCircle's result lies in [0, 2π) and differs from the input by a whole number of turns |
| `Angles.WrapUnique` | Python/dynamixel_control.py:43-44 | any r in [0, 2π) plus k turns wraps back to r, so the contract determines the result |
| `Angles.WrapShift` | Python/dynamixel_control.py:43-44 | shifting the input by whole turns leaves the wrapped value unchanged |
| `Angles.WrapIdempotent` | Python/dynamixel_control.py:43-44 | wrapping a wrapped angle changes nothing |
| `Angles.SameAngleIff` | Python/dynamixel_control.py:43-44 | two angles wrap alike exactly when their difference is a whole number of turns |
| `Angles.WrapWithinOneTurn` | Python/dynamixel_control.py:43-44 | within one turn either way, wrapping adds a turn to a negative angle, keeps an angle in [0, 2π), and maps 2π to 0 |
| `Angles.AngularDistance` | Python/dynamixel_control.py:62-68 | the distance to the nearest whole turn, which withinThreshold tests against; it lies in [0, π] |
| `Angles.AngularDistanceLeast` | Python/dynamixel_control.py:62-68 | no shift of the difference by k turns is nearer zero than its angular distance |
| `Angles.AngularDistanceTurnInvariant` | Python/dynamixel_control.py:62-68 | the angular distance depends only on the angle modulo a turn |
| `Angles.AngularDistanceOfWrapped` | Python/dynamixel_control.py:178-179 | measuring from the wrapped reading, as nearGoalPosition does, equals measuring from the unwrapped one |
| `Angles.WithinThresholdSymmetric` | Python/dynamixel_control.py:62-68 | negating the difference never changes withinThreshold's answer |
| `Angles.WithinThreshold` | Python/dynamixel_control.py:62-68 | passing the test always means the angular distance is within the threshold; for a difference in [-2π, 2π] the test holds if and only if it is |
| `Kinematics.BoundWithinGoal` | Python/dynamixel_control.py:47-54 | with lower ≤ upper the result lies in [lower, upper]; a value inside is unchanged; the result is always the value or one of the bounds, and above upper it is upper |
| `Kinematics.BoundWithinGoalIdempotent` | Python/dynamixel_control.py:47-54 | clamping twice equals clamping once |
| `Kinematics.BoundWithinGoalNearest` | Python/dynamixel_control.py:47-54 | the clamped value is at least as near the input as every point of [lower, upper] |
| `Kinematics.TransformGoalToRobot` | Python/dynamixel_control.py:146-147 | adding the mounting offsets back to the result gives the world point again |
| `Kinematics.RobotToWorld` | Python/dynamixel_control.py:198 | transformGoaltoRobot exactly undoes the pursuit loop's addition of the mounting offsets |
| `Kinematics.TransformGoalToRobotRoundTrip` | Python/dynamixel_control.py:146-147 | moving a world point into the arm frame and adding the offsets back, as line 198 does, gives the point again |
| `Kinematics.ComputeAltIK` | Python/dynamixel_control.py:30-41 | all three branches reflect theta1 about the wrapped endpoint bearing (t1 + theta1 = 2·bearing) and negate theta2 |
| `Kinematics.ComputeAltIKInvolution` | Python/dynamixel_control.py:30-41 | taking the alternate configuration twice gives back the original angles |
| `Encoders.Trunc` | Python/dynamixel_control.py:154-155 | int() gives the integer within 1 of its argument that is no larger in magnitude and has the same sign |
| `Encoders.TruncOfInt` | Python/dynamixel_control.py:154-155 | int() of a whole number is that number |
| `Encoders.ShoulderRadians` | Python/dynamixel_control.py:173 | scaling the shoulder reading back to ticks and adding the offset gives the raw position |
| `Encoders.ElbowRadians` | Python/dynamixel_control.py:174 | half the elbow reading, in ticks, plus the offset gives the raw position, so one elbow tick is two ticks of joint angle |
| `Encoders.ShoulderTicks` | Python/dynamixel_control.py:154 | the shoulder goal for an angle reads back within one tick's worth of radians (1/ticks_per_rad) of that angle |
| `Encoders.ElbowTicks` | Python/dynamixel_control.py:155 | the elbow goal for an angle reads back as the angle less offset/ticks_per_rad, within two ticks' worth of radians |
| `Encoders.ShoulderRoundTrip` | Python/dynamixel_control.py:173 | over exact reals, commanding the shoulder's unwrapped reading through line 154 reproduces its raw position |
| `Encoders.ElbowRoundTripDrift` | Python/dynamixel_control.py:174 | commanding the elbow's reading through line 155 gives int(position − elbow_offset/2), which is the position itself when the offset is zero |
| `Resolver.Rotation` | Python/dynamixel_control.py:123-133 | the chosen rotation is one of the three candidates, its magnitude is at most every candidate's, and a later candidate wins only with a strictly smaller magnitude |
| `Resolver.ChooseRotation` | Python/dynamixel_control.py:123-127 | the step-by-step reassignment of alpha (and of beta) yields exactly `Rotation` |
| `Resolver.RotationWithinHalfTurn` | Python/dynamixel_control.py:123-133 | with the wrapped reading and the target in [0, 2π), the rotation is at most π in magnitude |
| `Resolver.ResolveJoint` | Python/dynamixel_control.py:123-135 | the commanded angle currNOMOD − alpha equals the target modulo 2π and, for a target in [0, 2π), lies within π of the unwrapped reading |
| `Resolver.ResolveJointNearest` | Python/dynamixel_control.py:123-135 | no representative target + k·2π is nearer the unwrapped reading than the commanded angle |
| `Resolver.ResolveJointExample` | Python/dynamixel_control.py:123-135 | a joint at 7.0 rad unwrapped sent to 0.1 rad is commanded to 0.1 + 2π |
| `Controller.ActuatorsMoving` | Python/dynamixel_control.py:70-74 | true exactly when some actuator in the list has its Moving flag set |
| `Controller.InverseKinematics` | Python/dynamixel_control.py:25-28 | fails exactly when the trigonometric solution fails; otherwise both angles lie in [0, 2π) and equal the raw solution modulo 2π |
| `Controller.JointNear` | Python/dynamixel_control.py:179 | one joint's test holds exactly when the angular distance between the reading and the commanded angle is within the threshold |
| `Controller.JointNearTurnInvariant` | Python/dynamixel_control.py:177-182 | shifting a commanded angle by a full turn never changes the arrival test |
| `Controller.JointNearWhenCongruent` | Python/dynamixel_control.py:177-182 | with threshold ≥ 0, a joint whose reading equals its commanded angle modulo 2π has arrived |
| `Controller.Arm.constructor` | Python/dynamixel_control.py:105-110 | the arm keeps its two distinct actuators and parameters, and both commanded angles start at 0 |
| `Controller.Arm.CurrentPositionsUnwrapped` | Python/dynamixel_control.py:172-175 | over exact reals, commanding the shoulder reading gives back the shoulder's position; commanding the elbow reading gives int(position − elbow_offset/2) |
| `Controller.Arm.CurrentPositions` | Python/dynamixel_control.py:165-170 | both readings lie in [0, 2π) and are the wrapped values of the unwrapped readings |
| `Controller.Arm.NearGoalPosition` | Python/dynamixel_control.py:177-182 | true exactly when each joint's unwrapped reading is within angle_threshold of its commanded angle, measured modulo a turn |
| `Controller.Arm.NearGoalTurnInvariant` | Python/dynamixel_control.py:177-182 | shifting either commanded angle by whole turns never changes nearGoalPosition's answer |
| `Controller.Arm.NearGoalWhenCongruent` | Python/dynamixel_control.py:177-182 | with angle_threshold ≥ 0, an arm whose readings equal the commanded angles modulo 2π is near its goal |
| `Controller.Arm.IsMoving` | Python/dynamixel_control.py:158-162 | true exactly when the shoulder or the elbow has its Moving flag set |
| `Controller.Arm.MoveToTheta` | Python/dynamixel_control.py:150-155 | stores both commanded angles and sets the goals to int(t1·tpr + shoulder_offset) and int((t2·tpr + elbow_offset)/2); the frame says nothing else changes |
| `Controller.Arm.MoveToXY` | Python/dynamixel_control.py:118-135 | on a failed solution nothing changes; otherwise each commanded angle is `ResolveJoint` of its unwrapped reading and target, so it equals the target modulo 2π and lies within π of the reading, and both goals are set from those angles |
| `Controller.Arm.GoalTarget` | Python/dynamixel_control.py:139-142 | whatever the reach clip returns, the point passed on lies in [min_x, max_x] × [min_y, max_y] when the bounds are ordered; a clipped point already inside passes through unchanged |
| `Controller.Arm.MoveToXYGoal` | Python/dynamixel_control.py:138-143 | moves to `GoalTarget` of the world goal, with the same outcome as MoveToXY there |

## Left out

- Module-level hardware setup (lines 76-100): selecting the platform and port, opening the serial stream, scanning the bus and configuring the actuators. This is I/O against the external dynamixel library.
- `Arm.update` (lines 113-116): bus synchronisation and register reads are transport. The model treats the register cache as the plain fields of `Actuator`.
- `forwardKinematics` (lines 20-22) is not modelled, because it uses cos and sin.
- The trigonometric body of `inverseKinematics` (lines 26-27) and `boundWithinRobotReach` (lines 56-61) use atan2, sqrt, cos and sin. They enter as the `solve` and `clip` parameters. Only the wrapping of line 28 and the clamping after the clip are modelled.
- `Kinematics.ComputeAltIK`: the atan2 of line 33 is a parameter (`bearing`). The claim that the alternate angles reach the same point is trigonometric and is not stated.
- The pursuit loop (lines 187-205) is not modelled: it is an infinite loop with atan2/cos/sin stepping, printing and KeyboardInterrupt handling.
- Floating-point rounding: the model computes over exact reals. For example, a tiny negative angle whose float `%` rounds up to exactly 2π is not reproduced.
- `Encoders.ShoulderRoundTrip`: the round trip holds over exact reals only. In double precision, `(p − offset)/ticks_per_rad·ticks_per_rad + offset` can land just below the integer p. Line 154's `int()` then gives p − 1, one tick low; position 55 with offset 0 is an example.
- `Controller.Arm.CurrentPositionsUnwrapped`: its shoulder round trip is exact-real only, for the same reason. In double precision it can come out one tick low.
- Exceptions from the transport when `goal_position` is written are not modelled. Writes always succeed in the model.
