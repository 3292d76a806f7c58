/**
 * Angles in radians as the arm controller handles them: one full turn,
 * wrapping an angle into one turn (scaleToCircle), the angular tolerance
 * test (withinThreshold) and the angular distance that test approximates.
 */
module Angles {

  /** The exact value of the double-precision number Python's math.pi denotes. */
  const PI: real := 3.141592653589793115997963468544185161590576171875

  /** One full turn, 2*pi. */
  const TAU: real := 2.0 * PI

  /** Python's abs on a real. */
  function Abs(x: real): (r: real)
    ensures r >= 0.0
    ensures r == x || r == -x
  {
    if x < 0.0 then -x else x
  }

  /** True when d is a whole number of turns (d / 2pi is an integer). */
  predicate WholeTurns(d: real)
  {
    (d / TAU).Floor as real == d / TAU
  }

  /**
   * scaleToCircle: `x % (2*pi)`. Python's `%` on floats is floored, so the
   * result has the sign of the divisor and lies in one turn [0, 2pi).
   */
  function Wrap(x: real): (r: real)
    ensures 0.0 <= r < TAU
    ensures WholeTurns(x - r)
  {
    var turns := (x / TAU).Floor;
    assert turns as real * TAU <= x < (turns + 1) as real * TAU;
    var w := x - TAU * turns as real;
    assert (x - w) / TAU == turns as real;
    w
  }

  /** Every angle is its wrapped value plus the whole turns Wrap removed. */
  lemma WrapDecompose(x: real)
    ensures x == Wrap(x) + (x / TAU).Floor as real * TAU
  {
  }

  /** Wrap is determined by its contract: a value in [0, 2pi) plus k turns wraps to itself. */
  lemma WrapUnique(r: real, k: int)
    requires 0.0 <= r < TAU
    ensures Wrap(r + k as real * TAU) == r
  {
    var x := r + k as real * TAU;
    assert x / TAU == r / TAU + k as real;
    assert k as real <= x / TAU < (k + 1) as real;
    assert (x / TAU).Floor == k;
    assert Wrap(x) == x - TAU * k as real;
  }

  /** Shifting an angle by whole turns does not change its wrapped value. */
  lemma WrapShift(x: real, k: int)
    ensures Wrap(x + k as real * TAU) == Wrap(x)
  {
    var m := (x / TAU).Floor;
    WrapDecompose(x);
    assert x + k as real * TAU == Wrap(x) + (m + k) as real * TAU;
    WrapUnique(Wrap(x), m + k);
  }

  /** Within one turn either way, wrapping adds a turn to a negative angle and maps a full turn to zero. */
  lemma WrapWithinOneTurn(d: real)
    ensures -TAU <= d < 0.0 ==> Wrap(d) == d + TAU
    ensures 0.0 <= d < TAU ==> Wrap(d) == d
    ensures d == TAU ==> Wrap(d) == 0.0
  {
    if d < 0.0 {
      if -TAU <= d { WrapUnique(d + TAU, -1); }
    } else if d < TAU {
      WrapUnique(d, 0);
    } else if d == TAU {
      WrapUnique(0.0, 1);
    }
  }

  /** Wrapping twice is wrapping once. */
  lemma WrapIdempotent(x: real)
    ensures Wrap(Wrap(x)) == Wrap(x)
  {
    WrapUnique(Wrap(x), 0);
  }

  /** Two angles wrap to the same value exactly when they differ by whole turns. */
  lemma SameAngleIff(a: real, b: real)
    ensures Wrap(a) == Wrap(b) <==> WholeTurns(a - b)
  {
    var m, n := (a / TAU).Floor, (b / TAU).Floor;
    WrapDecompose(a);
    WrapDecompose(b);
    if Wrap(a) == Wrap(b) {
      assert a - b == (m - n) as real * TAU;
      assert (a - b) / TAU == (m - n) as real;
    }
    if WholeTurns(a - b) {
      var j := ((a - b) / TAU).Floor;
      assert a == b + j as real * TAU;
      WrapShift(b, j);
    }
  }

  /**
   * The angular distance of d from zero: how far d is from the nearest whole
   * number of turns.
   */
  function AngularDistance(d: real): (r: real)
    ensures 0.0 <= r <= PI
    ensures r <= Wrap(d)
  {
    var w := Wrap(d);
    if w <= PI then w else TAU - w
  }

  /** No shift of d by whole turns is closer to zero than AngularDistance(d). */
  lemma AngularDistanceLeast(d: real, k: int)
    ensures AngularDistance(d) <= Abs(d - k as real * TAU)
  {
    var w, m := Wrap(d), (d / TAU).Floor;
    WrapDecompose(d);
    var j := m - k;
    assert d - k as real * TAU == w + j as real * TAU;
    if j >= 1 {
      assert w + j as real * TAU >= w;
    } else if j <= -1 {
      assert w + j as real * TAU <= w - TAU;
    }
  }

  /** AngularDistance depends only on the angle modulo a turn. */
  lemma AngularDistanceTurnInvariant(d: real, shifted: real, k: int)
    requires shifted == d + k as real * TAU
    ensures AngularDistance(shifted) == AngularDistance(d)
  {
    WrapShift(d, k);
  }

  /** Measuring from a wrapped reading or from the unwrapped one gives the same distance. */
  lemma AngularDistanceOfWrapped(u: real, a: real)
    ensures AngularDistance(Wrap(u) - a) == AngularDistance(u - a)
  {
    var m := (u / TAU).Floor;
    WrapDecompose(u);
    AngularDistanceTurnInvariant(u - a, Wrap(u) - a, -m);
  }

  /**
   * withinThreshold: a difference counts as close when it, or its magnitude
   * less one full turn, is within the threshold. Passing the test always
   * means being that close modulo a turn; for a difference of at most one
   * turn either way, it is exactly "the angular distance is within the
   * threshold".
   */
  function WithinThreshold(difference: real, thresh: real): (r: bool)
    ensures r ==> AngularDistance(difference) <= thresh
    ensures -TAU <= difference <= TAU ==> (r <==> AngularDistance(difference) <= thresh)
  {
    AngularDistanceLeast(difference, 0);
    AngularDistanceLeast(difference, 1);
    AngularDistanceLeast(difference, -1);
    WrapWithinOneTurn(difference);
    if Abs(difference) <= thresh then true
    else if Abs(Abs(difference) - 2.0 * PI) <= thresh then true
    else false
  }

  /** The test does not depend on the sign of the difference. */
  lemma WithinThresholdSymmetric(difference: real, thresh: real)
    ensures WithinThreshold(-difference, thresh) == WithinThreshold(difference, thresh)
  {
  }
}
