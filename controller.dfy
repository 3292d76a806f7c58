/**
 * The arm controller: two position actuators (shoulder and elbow) whose
 * cached registers it reads and whose goal registers it writes, and the
 * commanded joint angles it keeps between control cycles.
 */
module Controller {
  import opened Angles
  import opened Kinematics
  import opened Encoders
  import opened Resolver

  /** The cached registers of one actuator, as the bus transport last left them. */
  class Actuator {
    var currentPosition: int   // CurrentPosition register, in ticks
    var moving: bool           // Moving register
    var goalPosition: int      // goal_position register, in ticks
  }

  /** actuatorsMoving: whether any of the actuators reports that it is moving. */
  method ActuatorsMoving(actuators: seq<Actuator>) returns (r: bool)
    ensures r <==> exists i :: 0 <= i < |actuators| && actuators[i].moving
  {
    for i := 0 to |actuators|
      invariant forall j :: 0 <= j < i ==> !actuators[j].moving
    {
      if actuators[i].moving {
        return true;
      }
    }
    return false;
  }

  /**
   * inverseKinematics: the joint angles reaching (x, y), each wrapped into one
   * turn. `solve` stands for the trigonometric solution of lines 26-27; it
   * gives None where math.sqrt would be handed a negative number and raise.
   */
  function InverseKinematics(solve: (real, real, real, real) -> Option<(real, real)>,
                             x: real, y: real, l1: real, l2: real): (r: Option<(real, real)>)
    ensures r.Some? <==> solve(x, y, l1, l2).Some?
    ensures r.Some? ==> 0.0 <= r.value.0 < TAU && 0.0 <= r.value.1 < TAU
    ensures r.Some? ==> (Wrap(r.value.0) == Wrap(solve(x, y, l1, l2).value.0)
                         && Wrap(r.value.1) == Wrap(solve(x, y, l1, l2).value.1))
  {
    match solve(x, y, l1, l2)
    case None => None
    case Some(raw) =>
      WrapIdempotent(raw.0);
      WrapIdempotent(raw.1);
      Some((Wrap(raw.0), Wrap(raw.1)))
  }

  /**
   * Whether one joint is at its commanded angle: the wrapped reading less the
   * commanded angle, wrapped again, passes withinThreshold.
   */
  function JointNear(wrapped: real, commanded: real, thresh: real): (r: bool)
    ensures r <==> AngularDistance(wrapped - commanded) <= thresh
  {
    var d := wrapped - commanded;
    WrapIdempotent(d);
    WithinThreshold(Wrap(d), thresh)
  }

  /** Commanding a joint a whole number of turns further does not change whether it has arrived. */
  lemma JointNearTurnInvariant(wrapped: real, commanded: real, k: int, thresh: real)
    ensures JointNear(wrapped, commanded + k as real * TAU, thresh) == JointNear(wrapped, commanded, thresh)
  {
    AngularDistanceTurnInvariant(wrapped - commanded, wrapped - (commanded + k as real * TAU), -k);
  }

  /** A joint whose reading equals its commanded angle modulo a turn has arrived. */
  lemma JointNearWhenCongruent(wrapped: real, commanded: real, thresh: real)
    requires thresh >= 0.0
    requires Wrap(wrapped) == Wrap(commanded)
    ensures JointNear(wrapped, commanded, thresh)
  {
    SameAngleIff(wrapped, commanded);
    var j := ((wrapped - commanded) / TAU).Floor;
    assert wrapped - commanded == 0.0 + j as real * TAU;
    WrapUnique(0.0, j);
  }

  class Arm {
    const params: ArmParams
    const shoulder: Actuator
    const elbow: Actuator
    var shoulderAngle: real    // last commanded shoulder angle, unwrapped
    var elbowAngle: real       // last commanded elbow angle, unwrapped

    /** The arm owns two distinct actuators. */
    predicate Valid()
    {
      shoulder != elbow
    }

    constructor (shoulder: Actuator, elbow: Actuator, params: ArmParams)
      requires shoulder != elbow
      ensures Valid()
      ensures this.shoulder == shoulder && this.elbow == elbow && this.params == params
      ensures shoulderAngle == 0.0 && elbowAngle == 0.0
    {
      this.params := params;
      this.shoulder := shoulder;
      this.elbow := elbow;
      elbowAngle := 0.0;
      shoulderAngle := 0.0;
    }

    /**
     * returnCurrentPositionsNOMOD: the joint angles from the cached positions,
     * not wrapped. Over exact reals, commanding the shoulder reading gives back
     * its position; commanding the elbow reading gives int(position - offset / 2).
     */
    function CurrentPositionsUnwrapped(): (r: (real, real))
      reads shoulder, elbow
      ensures ShoulderTicks(r.0, params.shoulderOffset) == shoulder.currentPosition
      ensures ElbowTicks(r.1, params.elbowOffset)
              == Trunc(elbow.currentPosition as real - params.elbowOffset / 2.0)
    {
      ShoulderRoundTrip(shoulder.currentPosition, params.shoulderOffset);
      ElbowRoundTripDrift(elbow.currentPosition, params.elbowOffset);
      (ShoulderRadians(shoulder.currentPosition, params.shoulderOffset),
       ElbowRadians(elbow.currentPosition, params.elbowOffset))
    }

    /**
     * returnCurrentPositions: the same readings wrapped into one turn; the
     * wrapped and unwrapped readings always denote the same angles.
     */
    function CurrentPositions(): (r: (real, real))
      reads shoulder, elbow
      ensures 0.0 <= r.0 < TAU && 0.0 <= r.1 < TAU
      ensures r.0 == Wrap(CurrentPositionsUnwrapped().0)
      ensures r.1 == Wrap(CurrentPositionsUnwrapped().1)
    {
      var theta1 := ShoulderRadians(shoulder.currentPosition, params.shoulderOffset);
      var theta2 := ElbowRadians(elbow.currentPosition, params.elbowOffset);
      (Wrap(theta1), Wrap(theta2))
    }

    /**
     * nearGoalPosition: both joints are within the angle threshold of their
     * commanded angles, measured modulo a turn.
     */
    function NearGoalPosition(): (r: bool)
      reads this, shoulder, elbow
      ensures r <==> (AngularDistance(CurrentPositionsUnwrapped().0 - shoulderAngle) <= params.angleThreshold
                      && AngularDistance(CurrentPositionsUnwrapped().1 - elbowAngle) <= params.angleThreshold)
    {
      var u := CurrentPositionsUnwrapped();
      var w := CurrentPositions();
      AngularDistanceOfWrapped(u.0, shoulderAngle);
      AngularDistanceOfWrapped(u.1, elbowAngle);
      JointNear(w.0, shoulderAngle, params.angleThreshold)
      && JointNear(w.1, elbowAngle, params.angleThreshold)
    }

    /**
     * Shifting either commanded angle by whole turns never changes
     * nearGoalPosition's answer.
     */
    lemma NearGoalTurnInvariant(k1: int, k2: int)
      ensures var u := CurrentPositionsUnwrapped();
              NearGoalPosition()
              <==> (AngularDistance(u.0 - (shoulderAngle + k1 as real * TAU)) <= params.angleThreshold
                    && AngularDistance(u.1 - (elbowAngle + k2 as real * TAU)) <= params.angleThreshold)
    {
      var u := CurrentPositionsUnwrapped();
      JointNearTurnInvariant(u.0, shoulderAngle, k1, params.angleThreshold);
      JointNearTurnInvariant(u.1, elbowAngle, k2, params.angleThreshold);
    }

    /**
     * With a non-negative threshold, an arm whose readings equal the commanded
     * angles modulo a turn is near its goal.
     */
    lemma NearGoalWhenCongruent()
      requires params.angleThreshold >= 0.0
      requires Wrap(CurrentPositionsUnwrapped().0) == Wrap(shoulderAngle)
      requires Wrap(CurrentPositionsUnwrapped().1) == Wrap(elbowAngle)
      ensures NearGoalPosition()
    {
      var u := CurrentPositionsUnwrapped();
      JointNearWhenCongruent(u.0, shoulderAngle, params.angleThreshold);
      JointNearWhenCongruent(u.1, elbowAngle, params.angleThreshold);
    }

    /** isMoving: whether either of the arm's actuators is moving. */
    method IsMoving() returns (r: bool)
      ensures r <==> shoulder.moving || elbow.moving
    {
      r := ActuatorsMoving([shoulder, elbow]);
      assert [shoulder, elbow][0] == shoulder && [shoulder, elbow][1] == elbow;
    }

    /**
     * moveToTheta: record the commanded angles and write both goal registers,
     * in ticks. Nothing else changes.
     */
    method MoveToTheta(t1: real, t2: real)
      requires Valid()
      modifies this, shoulder`goalPosition, elbow`goalPosition
      ensures shoulderAngle == t1 && elbowAngle == t2
      ensures shoulder.goalPosition == ShoulderTicks(t1, params.shoulderOffset)
      ensures elbow.goalPosition == ElbowTicks(t2, params.elbowOffset)
    {
      shoulderAngle := t1;
      elbowAngle := t2;
      var shoulderGoal := Trunc((t1 * TicksPerRad) + params.shoulderOffset);
      var elbowGoal := Trunc(((t2 * TicksPerRad) + params.elbowOffset) / 2.0);
      shoulder.goalPosition := shoulderGoal;
      elbow.goalPosition := elbowGoal;
    }

    /**
     * moveToXY: solve for the target joint angles, pick for each joint the
     * rotation of at most half a turn that reaches the target modulo a turn,
     * and command the unwrapped readings moved by those rotations. When the
     * solution fails (the source raises), nothing is commanded.
     */
    method MoveToXY(x: real, y: real, solve: (real, real, real, real) -> Option<(real, real)>)
      returns (ok: bool)
      requires Valid()
      modifies this, shoulder`goalPosition, elbow`goalPosition
      ensures ok <==> solve(x, y, params.l1, params.l2).Some?
      ensures !ok ==> (shoulderAngle == old(shoulderAngle) && elbowAngle == old(elbowAngle)
                       && shoulder.goalPosition == old(shoulder.goalPosition)
                       && elbow.goalPosition == old(elbow.goalPosition))
      ensures ok ==> var target := InverseKinematics(solve, x, y, params.l1, params.l2).value;
                     var u := CurrentPositionsUnwrapped();
                     && shoulderAngle == ResolveJoint(u.0, target.0)
                     && elbowAngle == ResolveJoint(u.1, target.1)
                     && Wrap(shoulderAngle) == target.0 && Abs(shoulderAngle - u.0) <= PI
                     && Wrap(elbowAngle) == target.1 && Abs(elbowAngle - u.1) <= PI
      ensures ok ==> (shoulder.goalPosition == ShoulderTicks(shoulderAngle, params.shoulderOffset)
                      && elbow.goalPosition == ElbowTicks(elbowAngle, params.elbowOffset))
    {
      var ik := InverseKinematics(solve, x, y, params.l1, params.l2);
      if ik.None? {
        return false;
      }
      var theta1, theta2 := ik.value.0, ik.value.1;
      var current := CurrentPositions();
      var shoulderCurr, elbowCurr := current.0, current.1;
      var unwrapped := CurrentPositionsUnwrapped();
      var shoulderCurrNomod, elbowCurrNomod := unwrapped.0, unwrapped.1;

      var alpha := ChooseRotation(shoulderCurr, theta1);
      var beta := ChooseRotation(elbowCurr, theta2);

      WrapIdempotent(theta1);
      WrapIdempotent(theta2);
      MoveToTheta(shoulderCurrNomod - alpha, elbowCurrNomod - beta);
      ok := true;
    }

    /**
     * The point moveToXYGoal hands to moveToXY: the world goal moved into the
     * arm frame, clipped to the arm's reach by `clip`, and clamped into the
     * workspace rectangle axis by axis.
     */
    function GoalTarget(x: real, y: real, clip: (real, real, real) -> (real, real)): (r: (real, real))
      ensures params.minX <= params.maxX ==> params.minX <= r.0 <= params.maxX
      ensures params.minY <= params.maxY ==> params.minY <= r.1 <= params.maxY
      ensures var local := TransformGoalToRobot(params, x, y);
              var clipped := clip(local.0, local.1, params.l1 + params.l2);
              params.minX <= clipped.0 <= params.maxX && params.minY <= clipped.1 <= params.maxY
              ==> r == clipped
    {
      var local := TransformGoalToRobot(params, x, y);
      var clipped := clip(local.0, local.1, params.l1 + params.l2);
      (BoundWithinGoal(clipped.0, params.maxX, params.minX),
       BoundWithinGoal(clipped.1, params.maxY, params.minY))
    }

    /**
     * moveToXYGoal: move towards a world-frame goal, through the arm frame,
     * the reach clip and the workspace clamp. `clip` stands for
     * boundWithinRobotReach.
     */
    method MoveToXYGoal(x: real, y: real, clip: (real, real, real) -> (real, real),
                        solve: (real, real, real, real) -> Option<(real, real)>)
      returns (ok: bool)
      requires Valid()
      modifies this, shoulder`goalPosition, elbow`goalPosition
      ensures var target := GoalTarget(x, y, clip);
              ok <==> solve(target.0, target.1, params.l1, params.l2).Some?
      ensures !ok ==> (shoulderAngle == old(shoulderAngle) && elbowAngle == old(elbowAngle)
                       && shoulder.goalPosition == old(shoulder.goalPosition)
                       && elbow.goalPosition == old(elbow.goalPosition))
      ensures ok ==> var target := GoalTarget(x, y, clip);
                     var angles := InverseKinematics(solve, target.0, target.1, params.l1, params.l2).value;
                     var u := CurrentPositionsUnwrapped();
                     && shoulderAngle == ResolveJoint(u.0, angles.0)
                     && elbowAngle == ResolveJoint(u.1, angles.1)
                     && shoulder.goalPosition == ShoulderTicks(shoulderAngle, params.shoulderOffset)
                     && elbow.goalPosition == ElbowTicks(elbowAngle, params.elbowOffset)
    {
      var local := TransformGoalToRobot(params, x, y);
      var clipped := clip(local.0, local.1, params.l1 + params.l2);
      var boundedX := BoundWithinGoal(clipped.0, params.maxX, params.minX);
      var boundedY := BoundWithinGoal(clipped.1, params.maxY, params.minY);
      ok := MoveToXY(boundedX, boundedY, solve);
    }
  }
}
