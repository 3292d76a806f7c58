/**
 * The trigonometry-free part of the arm's kinematics: the per-arm
 * parameters, clamping into the workspace (boundWithinGoal), the frame
 * change between world and arm coordinates, and the alternate elbow
 * configuration (computeAltIK).
 */
module Kinematics {
  import opened Angles

  datatype Option<T> = None | Some(value: T)

  /** The per-arm configuration record the controller reads from `self.params`. */
  datatype ArmParams = ArmParams(
    l1: real,                // shoulder link length
    l2: real,                // elbow link length
    shoulderOffset: real,    // shoulder ticks at physical angle zero
    elbowOffset: real,       // elbow ticks at physical angle zero
    minX: real, maxX: real,  // workspace rectangle, arm frame
    minY: real, maxY: real,
    horizontalOffset: real,  // position of the arm's shoulder in the world frame
    verticalOffset: real,
    angleThreshold: real     // tolerance of nearGoalPosition, radians
  )

  /**
   * boundWithinGoal: clamp `value` into [lower, upper]. Note the argument
   * order: the upper bound comes first.
   */
  function BoundWithinGoal(value: real, upper: real, lower: real): (r: real)
    ensures lower <= upper ==> lower <= r <= upper
    ensures lower <= value <= upper ==> r == value
    ensures r == value || r == upper || r == lower
    ensures value > upper ==> r == upper
  {
    if value > upper then upper
    else if value < lower then lower
    else value
  }

  /** Clamping a clamped value changes nothing. */
  lemma BoundWithinGoalIdempotent(value: real, upper: real, lower: real)
    requires lower <= upper
    ensures BoundWithinGoal(BoundWithinGoal(value, upper, lower), upper, lower)
            == BoundWithinGoal(value, upper, lower)
  {
  }

  /** The clamped value is the point of [lower, upper] nearest to the input. */
  lemma BoundWithinGoalNearest(value: real, upper: real, lower: real, z: real)
    requires lower <= z <= upper
    ensures Abs(BoundWithinGoal(value, upper, lower) - value) <= Abs(z - value)
  {
  }

  /**
   * An arm-frame point in world coordinates, as the pursuit loop computes it;
   * transformGoaltoRobot takes it back exactly.
   */
  function RobotToWorld(p: ArmParams, x: real, y: real): (r: (real, real))
    ensures TransformGoalToRobot(p, r.0, r.1) == (x, y)
  {
    (x + p.horizontalOffset, y + p.verticalOffset)
  }

  /** transformGoaltoRobot: a world point in the arm's own frame, the shoulder's position taken away. */
  function TransformGoalToRobot(p: ArmParams, x: real, y: real): (r: (real, real))
    ensures r.0 + p.horizontalOffset == x && r.1 + p.verticalOffset == y
  {
    (x - p.horizontalOffset, y - p.verticalOffset)
  }

  /** Going from the world to the arm frame and back is the identity too. */
  lemma TransformGoalToRobotRoundTrip(p: ArmParams, x: real, y: real)
    ensures var local := TransformGoalToRobot(p, x, y); RobotToWorld(p, local.0, local.1) == (x, y)
  {
  }

  /**
   * computeAltIK: the other elbow configuration reaching the same point. The
   * bearing is atan2(y, x) of the target; it is wrapped into one turn and the
   * shoulder angle is reflected about it, while the elbow angle is negated.
   */
  function ComputeAltIK(bearing: real, theta1: real, theta2: real): (r: (real, real))
    ensures r.0 + theta1 == 2.0 * Wrap(bearing)
    ensures r.1 + theta2 == 0.0
  {
    var angleToEndpoint := Wrap(bearing);
    if angleToEndpoint > theta1 then (theta1 + 2.0 * (angleToEndpoint - theta1), -theta2)
    else if angleToEndpoint < theta1 then (theta1 + 2.0 * (angleToEndpoint - theta1), -theta2)
    else (theta1, -theta2)
  }

  /** Switching the elbow configuration twice returns to the first one. */
  lemma ComputeAltIKInvolution(bearing: real, theta1: real, theta2: real)
    ensures var alt := ComputeAltIK(bearing, theta1, theta2);
            ComputeAltIK(bearing, alt.0, alt.1) == (theta1, theta2)
  {
  }
}
