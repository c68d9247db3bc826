/** Degree arithmetic shared by every body of the animation.

    A tick adds a per-body delta to an angle and subtracts 360 at most once.
    `NormalizeDegrees` is the independent reference definition (the true
    remainder modulo 360, through `Floor`) that the tick is proved against.
    Angles are exact reals: float rounding is not part of the model.
 */
module Angles {

  /** One full turn, in degrees. */
  const FullTurn: real := 360.0

  /** An angle is normalised when it lies in [0, 360). */
  predicate InRange(a: real) {
    0.0 <= a < FullTurn
  }

  /** A per-tick delta needs at most one wrap when it lies in [0, 360]. */
  predicate ValidDelta(d: real) {
    0.0 <= d <= FullTurn
  }

  /** The number of whole turns contained in `x` (rounded down). */
  function Turns(x: real): int {
    (x / FullTurn).Floor
  }

  /** The remainder of `x` modulo 360, as a real in [0, 360). */
  function NormalizeDegrees(x: real): (r: real)
    ensures InRange(r)
    ensures x == r + FullTurn * Turns(x) as real
  {
    x - FullTurn * Turns(x) as real
  }

  /** `NormalizeDegrees` picks the one representative in [0, 360):
      any `r` in range that differs from `x` by whole turns is it. */
  lemma NormalizeUnique(x: real, r: real, k: int)
    requires InRange(r)
    requires x == r + FullTurn * k as real
    ensures NormalizeDegrees(x) == r
  {
    var f := (x / FullTurn).Floor;
    assert x / FullTurn == r / FullTurn + k as real;
    assert k as real <= x / FullTurn < k as real + 1.0;
    assert f as real <= x / FullTurn < f as real + 1.0;
    assert f == k;
  }

  /** Adding whole turns does not change the normalised angle. */
  lemma NormalizeShift(x: real, k: int)
    ensures NormalizeDegrees(x + FullTurn * k as real) == NormalizeDegrees(x)
  {
    var r := NormalizeDegrees(x);
    var f := Turns(x);
    NormalizeUnique(x + FullTurn * k as real, r, f + k);
  }

  /** One tick: add `delta`, then subtract 360 once if the sum reached 360. */
  function Advance(angle: real, delta: real): (r: real)
    ensures InRange(angle) && ValidDelta(delta) ==> InRange(r)
    ensures r == angle + delta || r == angle + delta - FullTurn
  {
    var sum := angle + delta;
    if sum >= FullTurn then sum - FullTurn else sum
  }

  /** For an angle in range and a delta of at most a full turn, one tick is
      exactly the remainder of the sum modulo 360. */
  lemma AdvanceIsModulo(angle: real, delta: real)
    requires InRange(angle) && ValidDelta(delta)
    ensures Advance(angle, delta) == NormalizeDegrees(angle + delta)
  {
    var sum := angle + delta;
    if sum >= FullTurn {
      NormalizeUnique(sum, sum - FullTurn, 1);
    } else {
      NormalizeUnique(sum, sum, 0);
    }
  }

  /** The single wrap is not a true modulo: a delta above a full turn can
      leave the angle out of range (no body of the animation has one). */
  lemma AdvanceNeedsSmallDelta()
    ensures Advance(0.0, 720.0) == 360.0
    ensures !InRange(Advance(0.0, 720.0))
  {
  }

  /** Where `n` steps of `delta` from `angle` end up before any wrapping. */
  function Sweep(angle: real, delta: real, n: nat): real {
    angle + n as real * delta
  }

  /** `n` consecutive ticks of the same delta.  An angle in range stays in
      range under any number of ticks of a delta in [0, 360]. */
  function TickN(angle: real, delta: real, n: nat): (r: real)
    ensures InRange(angle) && ValidDelta(delta) ==> InRange(r)
  {
    if n == 0 then angle else Advance(TickN(angle, delta, n - 1), delta)
  }

  /** Repeated ticks never drift: in exact arithmetic, `n` ticks land on
      the remainder of `angle + n * delta` modulo 360, however large `n` is. */
  lemma {:induction false} TickNIsModulo(angle: real, delta: real, n: nat)
    requires InRange(angle) && ValidDelta(delta)
    ensures InRange(TickN(angle, delta, n))
    ensures TickN(angle, delta, n) == NormalizeDegrees(Sweep(angle, delta, n))
  {
    if n == 0 {
      NormalizeUnique(angle, angle, 0);
    } else {
      var m: nat := n - 1;
      TickNIsModulo(angle, delta, m);
      var prev := TickN(angle, delta, m);
      var before := angle + m as real * delta;
      var after := angle + n as real * delta;
      assert after == before + delta by {
        assert n as real * delta == m as real * delta + delta;
      }
      assert prev == NormalizeDegrees(before);
      var f := Turns(before);
      assert before == prev + FullTurn * f as real;
      AdvanceIsModulo(prev, delta);
      NormalizeShift(after, -f);
      assert prev + delta == after + FullTurn * (-f) as real;
    }
  }
}
