/** The state of one boid, the tuning constants of the simulation, and the
    geometry primitives the simulation borrows from its drawing library.

    A boid is a triangle the library draws; the simulation only ever reads and
    writes its position and its heading (in degrees, never normalised). */
module Boids {

  datatype Point = Point(x: real, y: real)

  datatype Option<T> = None | Some(value: T)

  /** Position and heading of one boid. */
  datatype Boid = Boid(pos: Point, rotation: real)

  /** The library functions the step relies on and whose floating-point
      trigonometry is not modelled: they are supplied by the caller.
      - dist(p, q): the distance between two points;
      - atan2Deg(y, x): radToDeg(Math.atan2(y, x)), the bearing of (x, y);
      - ahead(t): the unit vector new Vector(0, -1, t);
      - behind(t): the unit vector new Vector(0, 1, t). */
  datatype Geometry = Geometry(
    dist: (Point, Point) -> real,
    atan2Deg: (real, real) -> real,
    ahead: real -> Point,
    behind: real -> Point)

  /** A vector of length one. */
  predicate Unit(p: Point)
  {
    p.x * p.x + p.y * p.y == 1.0
  }

  /** What the library promises of these functions and the step may use:
      distances are non-negative, atan2 yields a bearing in [-180, 180], and
      the rotated vectors are unit vectors. */
  ghost predicate Sound(g: Geometry)
  {
    (forall p, q :: g.dist(p, q) >= 0.0) &&
    (forall y, x :: -180.0 <= g.atan2Deg(y, x) <= 180.0) &&
    (forall t :: Unit(g.ahead(t)) && Unit(g.behind(t)))
  }

  // Tuning constants (speedReduction is 1, so the scaled values are the literals).
  const boidSpeed: real := 2.5
  const cohesionStrength: real := 0.045
  const alignmentStrength: real := 0.07
  const seperationStrength: real := 0.042
  const avoidanceStrength: real := 0.05
  const overflowAmount: real := 8.0
  const minDistance: real := 80.0
  const distToSeperate: real := 35.0
  const avoidDist: real := 120.0
  const maxRotation: real := 10.0

  function Add(p: Point, q: Point): Point
  {
    Point(p.x + q.x, p.y + q.y)
  }

  function Scale(p: Point, k: real): Point
  {
    Point(p.x * k, p.y * k)
  }

  /** Polygon.rotate: turns the boid by `delta` degrees; the position stays. */
  function Rotate(b: Boid, delta: real): Boid
  {
    b.(rotation := b.rotation + delta)
  }

  /** Polygon.move: displaces the boid by `v`; the heading stays. */
  function Move(b: Boid, v: Point): Boid
  {
    b.(pos := Add(b.pos, v))
  }

  /** Polygon.moveTo: places the boid at `p`; the heading stays. */
  function MoveTo(b: Boid, p: Point): Boid
  {
    b.(pos := p)
  }
}
