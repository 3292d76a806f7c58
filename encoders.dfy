/**
 * Conversions between actuator ticks and joint radians. The actuators count
 * 4096 ticks per turn; the elbow is geared so that one elbow tick is two
 * ticks' worth of joint angle.
 */
module Encoders {
  import opened Angles

  /** ticks_per_rad: 4096 ticks in one turn. */
  const TicksPerRad: real := 4096.0 / (PI * 2.0)

  /** Python's int() on a float: truncation toward zero. */
  function Trunc(x: real): (r: int)
    ensures Abs(r as real) <= Abs(x)
    ensures Abs(x - r as real) < 1.0
    ensures x >= 0.0 ==> r >= 0
    ensures x <= 0.0 ==> r <= 0
  {
    if x >= 0.0 then x.Floor else -((-x).Floor)
  }

  /** Truncation keeps whole numbers as they are. */
  lemma TruncOfInt(n: int)
    ensures Trunc(n as real) == n
  {
  }

  /**
   * The shoulder reading: ticks from the zero offset, in radians. Scaling it
   * back to ticks and adding the offset gives the position again.
   */
  function ShoulderRadians(ticks: int, offset: real): (r: real)
    ensures r * TicksPerRad + offset == ticks as real
  {
    (ticks as real - offset) / TicksPerRad
  }

  /**
   * The elbow reading: twice the ticks from the zero offset, in radians, so
   * one elbow tick is worth two ticks of joint angle.
   */
  function ElbowRadians(ticks: int, offset: real): (r: real)
    ensures r * TicksPerRad / 2.0 + offset == ticks as real
  {
    (ticks as real - offset) / TicksPerRad * 2.0
  }

  /** The shoulder goal_position commanded for a joint angle; it reads back within one tick's worth of radians. */
  function ShoulderTicks(theta: real, offset: real): (r: int)
    ensures Abs(ShoulderRadians(r, offset) - theta) < 1.0 / TicksPerRad
  {
    Trunc(theta * TicksPerRad + offset)
  }

  /**
   * The elbow goal_position commanded for a joint angle. It reads back
   * shifted by offset / ticks_per_rad, up to two ticks' worth of radians: the
   * offset is halved on the way out but not on the way in.
   */
  function ElbowTicks(theta: real, offset: real): (r: int)
    ensures Abs(ElbowRadians(r, offset) - (theta - offset / TicksPerRad)) < 2.0 / TicksPerRad
  {
    Trunc((theta * TicksPerRad + offset) / 2.0)
  }

  /** Over exact reals, commanding the shoulder's own reading reproduces its raw position. */
  lemma ShoulderRoundTrip(ticks: int, offset: real)
    ensures ShoulderTicks(ShoulderRadians(ticks, offset), offset) == ticks
  {
  }

  /**
   * Reading an elbow position and commanding that angle gives
   * int(position - offset / 2): the position itself when the offset is zero.
   */
  lemma ElbowRoundTripDrift(ticks: int, offset: real)
    ensures ElbowTicks(ElbowRadians(ticks, offset), offset) == Trunc(ticks as real - offset / 2.0)
    ensures offset == 0.0 ==> ElbowTicks(ElbowRadians(ticks, offset), offset) == ticks
  {
  }
}
