/** The idle "tumble" of the die: three independent angles, each a ping-pong
    oscillator that moves by a fixed increment per frame and reverses its
    direction once it reaches or passes either end of its bounds. */
module Oscillator {

  /** Unity's Vector3, with real components (no IEEE rounding). */
  datatype Vec3 = Vec3(x: real, y: real, z: real)

  /** A float2 used as a range: `x` is the lower, `y` the upper bound. */
  datatype Bounds = Bounds(lower: real, upper: real)

  /** One axis: its current angle and whether it is ascending. */
  datatype Axis = Axis(value: real, ascending: bool)

  /** `Random.Range(b.x, b.y)` yields a value in this closed range. */
  predicate Within(v: real, b: Bounds) {
    b.lower <= v <= b.upper
  }

  predicate AllWithin(v: Vec3, xb: Bounds, yb: Bounds, zb: Bounds) {
    Within(v.x, xb) && Within(v.y, yb) && Within(v.z, zb)
  }

  /** The band an axis keeps between steps: an ascending axis has not yet
      passed the upper bound (it may sit one increment below the lower one,
      having just turned there), and a descending axis symmetrically. */
  predicate Banded(a: Axis, b: Bounds, inc: real) {
    if a.ascending then b.lower - inc <= a.value <= b.upper
    else b.lower <= a.value <= b.upper + inc
  }

  /** One step of one axis in `CalculateRotation`: move by `inc` in the
      current direction, then reverse if the new value is at or beyond
      either bound. */
  function Step(a: Axis, b: Bounds, inc: real): (r: Axis)
    ensures inc >= 0.0 && Banded(a, b, inc) ==> Banded(r, b, inc)
    ensures inc >= 0.0 && Banded(a, b, inc) ==> b.lower - inc <= r.value <= b.upper + inc
    ensures r.ascending != a.ascending ==> r.value <= b.lower || r.value >= b.upper
  {
    var v := if a.ascending then a.value + inc else a.value - inc;
    Axis(v, if v <= b.lower || v >= b.upper then !a.ascending else a.ascending)
  }

  method Advance(a: Axis, b: Bounds, inc: real) returns (r: Axis)
    ensures r == Step(a, b, inc)
  {
    var v := a.value;
    var ascending := a.ascending;
    if ascending {
      v := v + inc;
    } else {
      v := v - inc;
    }
    if v <= b.lower || v >= b.upper {
      ascending := !ascending;
    }
    r := Axis(v, ascending);
  }

  /** `n` consecutive steps of one axis. */
  function Run(a: Axis, b: Bounds, inc: real, n: nat): Axis
    decreases n
  {
    if n == 0 then a else Run(Step(a, b, inc), b, inc, n - 1)
  }

  /** A freshly randomised angle is in the band whatever its direction flag,
      so the band holds from `Start` and after every `Reset`. */
  lemma WithinIsBanded(v: real, ascending: bool, b: Bounds, inc: real)
    requires inc >= 0.0 && Within(v, b)
    ensures Banded(Axis(v, ascending), b, inc)
  {
  }

  lemma {:induction false} RunKeepsBand(a: Axis, b: Bounds, inc: real, n: nat)
    requires inc >= 0.0 && Banded(a, b, inc)
    ensures Banded(Run(a, b, inc, n), b, inc)
    decreases n
  {
    if n > 0 {
      RunKeepsBand(Step(a, b, inc), b, inc, n - 1);
    }
  }

  /** Starting anywhere in its bounds, an axis stays within one increment of
      them however many frames it oscillates. */
  lemma RunStaysNearBounds(a: Axis, b: Bounds, inc: real, n: nat)
    requires inc >= 0.0 && Within(a.value, b)
    ensures b.lower - inc <= Run(a, b, inc, n).value <= b.upper + inc
  {
    WithinIsBanded(a.value, a.ascending, b, inc);
    RunKeepsBand(a, b, inc, n);
  }

  /** The overshoot does happen: an ascending axis just below its upper
      bound steps past it, turns there, and comes back on the next frame. */
  lemma OvershootExample()
    ensures Run(Axis(4.5, true), Bounds(-5.0, 5.0), 1.0, 1) == Axis(5.5, false)
    ensures Run(Axis(4.5, true), Bounds(-5.0, 5.0), 1.0, 2) == Axis(4.5, false)
  {
  }
}
