/**
 * Minimal-rotation selection for one joint. The joint's wrapped reading is
 * compared with the target and with the target shifted a turn either way;
 * the smallest difference is the rotation, which is then applied to the
 * unwrapped reading so that the joint never turns the long way round.
 */
module Resolver {
  import opened Angles

  /**
   * The rotation moveToXY chooses: of the three differences
   * curr - theta, curr - (theta + 2pi) and curr - (theta - 2pi), one of
   * smallest magnitude, the earliest one on a tie.
   */
  function Rotation(curr: real, theta: real): (r: real)
    ensures r == curr - theta || r == curr - (theta + TAU) || r == curr - (theta - TAU)
    ensures Abs(r) <= Abs(curr - theta)
    ensures Abs(r) <= Abs(curr - (theta + TAU))
    ensures Abs(r) <= Abs(curr - (theta - TAU))
    ensures r == curr - (theta + TAU) ==> Abs(curr - theta) > Abs(r)
    ensures r == curr - (theta - TAU) ==> Abs(curr - theta) > Abs(r) && Abs(curr - (theta + TAU)) > Abs(r)
  {
    var stay, up, down := curr - theta, curr - (theta + TAU), curr - (theta - TAU);
    if Abs(stay) <= Abs(up) && Abs(stay) <= Abs(down) then stay
    else if Abs(up) <= Abs(down) then up
    else down
  }

  /** The step-by-step selection of lines 123-127 (and, for the elbow, 129-133). */
  method ChooseRotation(curr: real, theta: real) returns (alpha: real)
    ensures alpha == Rotation(curr, theta)
  {
    alpha := curr - theta;
    if Abs(alpha) > Abs(curr - (theta + 2.0 * PI)) {
      alpha := curr - (theta + 2.0 * PI);
    }
    if Abs(alpha) > Abs(curr - (theta - 2.0 * PI)) {
      alpha := curr - (theta - 2.0 * PI);
    }
  }

  /** With the reading and the target both in one turn, the rotation is at most half a turn. */
  lemma RotationWithinHalfTurn(curr: real, theta: real)
    requires 0.0 <= curr < TAU && 0.0 <= theta < TAU
    ensures Abs(Rotation(curr, theta)) <= PI
  {
  }

  /**
   * The unwrapped joint command: the unwrapped reading less the rotation
   * chosen from the wrapped reading. It is the target up to whole turns and,
   * for a target in one turn, the representative of the target nearest the
   * unwrapped reading.
   */
  function ResolveJoint(unwrapped: real, theta: real): (r: real)
    ensures Wrap(r) == Wrap(theta)
    ensures 0.0 <= theta < TAU ==> Abs(r - unwrapped) <= PI
  {
    var curr := Wrap(unwrapped);
    var alpha := Rotation(curr, theta);
    var m := (unwrapped / TAU).Floor;
    WrapDecompose(unwrapped);
    var shift := if alpha == curr - theta then 0 else if alpha == curr - (theta + TAU) then 1 else -1;
    assert unwrapped - alpha == theta + (m + shift) as real * TAU;
    WrapShift(theta, m + shift);
    if 0.0 <= theta < TAU then RotationWithinHalfTurn(curr, theta); unwrapped - alpha
    else unwrapped - alpha
  }

  /**
   * No other representative of the target, theta + k turns, is closer to the
   * unwrapped reading than the resolved command.
   */
  lemma ResolveJointNearest(unwrapped: real, theta: real, k: int)
    requires 0.0 <= theta < TAU
    ensures Abs(ResolveJoint(unwrapped, theta) - unwrapped) <= Abs(theta + k as real * TAU - unwrapped)
  {
    var r := ResolveJoint(unwrapped, theta);
    var j := (r / TAU).Floor;
    WrapDecompose(r);
    assert r == theta + j as real * TAU;
    var i := k - j;
    assert theta + k as real * TAU - unwrapped == (r - unwrapped) + i as real * TAU;
    if i >= 1 {
      assert i as real * TAU >= TAU;
    } else if i <= -1 {
      assert i as real * TAU <= -TAU;
    }
  }

  /**
   * A joint at 7.0 rad unwrapped asked to go to 0.1 rad is commanded to
   * 0.1 + 2pi, the representative of 0.1 nearest 7.0, not back to 0.1.
   */
  lemma ResolveJointExample()
    ensures ResolveJoint(7.0, 0.1) == 0.1 + TAU
  {
  }
}
