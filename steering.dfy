/** The two angle helpers every steering behaviour is built from: the signed
    turn towards a target point, and the clamp to the per-frame turn limit. */
module Steering {
  import opened Boids

  function Abs(a: real): real
  {
    if a < 0.0 then -a else a
  }

  /** Math.sign on a non-NaN number. */
  function Sign(a: real): real
  {
    if a > 0.0 then 1.0 else if a < 0.0 then -1.0 else 0.0
  }

  function Min(a: real, b: real): real
  {
    if a <= b then a else b
  }

  /** The signed difference, in degrees, between the bearing from `b` to
      `target` and the heading of `b`, before any reflection. The +90
      turns atan2's "0 is east" into the boids' "0 is up". */
  function RawTurn(g: Geometry, target: Point, b: Boid): real
  {
    g.atan2Deg(target.y - b.pos.y, target.x - b.pos.x) + 90.0 - b.rotation
  }

  /** The reflection in angleToRotate: a difference of more than half a turn
      is replaced by (360 - |d|) with the sign of d reversed. The result is the
      same direction, shifted by one full turn, and it lands in [-180, 180]
      whenever the difference is within one and a half turns. */
  function Reflect(d: real): (r: real)
    ensures Abs(d) <= 180.0 ==> r == d
    ensures d > 180.0 ==> r == d - 360.0
    ensures d < -180.0 ==> r == d + 360.0
    ensures -540.0 <= d <= 540.0 ==> -180.0 <= r <= 180.0
    ensures 180.0 < Abs(d) < 360.0 ==> Sign(r) == -Sign(d) && Abs(r) == 360.0 - Abs(d)
  {
    if Abs(d) > 180.0 then (360.0 - Abs(d)) * (Sign(d) * -1.0) else d
  }

  /** angleToRotate(target, b): the raw difference when it is at most half a
      turn, otherwise the same direction one full turn closer to zero. */
  function AngleToRotate(g: Geometry, target: Point, b: Boid): (r: real)
    ensures Abs(RawTurn(g, target, b)) <= 180.0 ==> r == RawTurn(g, target, b)
    ensures Abs(RawTurn(g, target, b)) > 180.0 ==> Abs(r - RawTurn(g, target, b)) == 360.0
    ensures Abs(r) <= Abs(RawTurn(g, target, b))
  {
    Reflect(RawTurn(g, target, b))
  }

  /** clampAngle: caps the magnitude at maxRotation and keeps the sign. */
  function ClampAngle(angle: real): (r: real)
    ensures Abs(r) <= maxRotation
    ensures Sign(r) == Sign(angle)
    ensures Abs(angle) <= maxRotation ==> r == angle
    ensures Abs(angle) >= maxRotation ==> Abs(r) == maxRotation
  {
    Min(Abs(angle), maxRotation) * Sign(angle)
  }

  /** Clamping twice is clamping once, and a zero angle stays zero. */
  lemma ClampIdempotent(angle: real)
    ensures ClampAngle(ClampAngle(angle)) == ClampAngle(angle)
    ensures ClampAngle(0.0) == 0.0
  {
  }

  /** For a boid whose heading has not drifted more than 270 degrees below 0
      or 90 degrees above 360 (initBoids starts every boid in [0, 360)), the turn towards any
      target is at most half a turn in either direction. Headings are never
      normalised, so outside that window the reflection alone does not bring
      the difference into [-180, 180]. */
  lemma AngleToRotateInBand(g: Geometry, target: Point, b: Boid)
    requires Sound(g)
    requires -270.0 <= b.rotation <= 450.0
    ensures -180.0 <= AngleToRotate(g, target, b) <= 180.0
  {
  }

  /** A difference of more than one and a half turns, possible once a heading
      has drifted that far, is not brought into [-180, 180] by the reflection. */
  lemma ReflectLeavesBand(d: real)
    requires Abs(d) > 540.0
    ensures Abs(Reflect(d)) > 180.0
  {
  }
}
