/** One animation frame of the flock: every boid, in index order, scans all
    the others, combines cohesion, alignment, separation and avoidance into one
    bounded turn, moves forward along its new heading and wraps around the
    screen edges. The array is updated in place, so boid i's scan already sees
    the new state of boids 0 .. i-1. */
module Flock {
  import opened Boids
  import opened Steering

  /** What one frame depends on besides the boids: the library geometry, the
      pointer position while the mouse button is held, and the canvas size. */
  datatype Env = Env(g: Geometry, avoidPoint: Option<Point>, width: real, height: real)

  // ---------------------------------------------------------------------------
  // Neighbour scan

  /** The indices j < n other than i whose distance from boid i is below
      `radius`, in increasing order. */
  function Within(g: Geometry, s: seq<Boid>, i: nat, radius: real, n: nat): (r: seq<nat>)
    requires i < |s| && n <= |s|
    ensures forall k :: 0 <= k < |r| ==> r[k] < n
    decreases n
  {
    if n == 0 then []
    else
      var r := Within(g, s, i, radius, n - 1);
      if n - 1 != i && g.dist(s[i].pos, s[n - 1].pos) < radius then r + [n - 1] else r
  }

  /** The filter is exact, and the list is in index order without repetition. */
  lemma {:induction false} WithinExact(g: Geometry, s: seq<Boid>, i: nat, radius: real, n: nat)
    requires i < |s| && n <= |s|
    ensures forall j: nat :: j in Within(g, s, i, radius, n) <==>
      j < n && j != i && g.dist(s[i].pos, s[j].pos) < radius
    ensures forall a, b :: 0 <= a < b < |Within(g, s, i, radius, n)| ==>
      Within(g, s, i, radius, n)[a] < Within(g, s, i, radius, n)[b]
    decreases n
  {
    if n > 0 {
      WithinExact(g, s, i, radius, n - 1);
    }
  }

  /** Every index within the separation radius is within the neighbour radius,
      since distToSeperate is below minDistance. */
  lemma CloseIndicesAreWide(g: Geometry, s: seq<Boid>, i: nat)
    requires i < |s|
    ensures forall j: nat :: j in Within(g, s, i, distToSeperate, |s|) ==> j in Within(g, s, i, minDistance, |s|)
  {
    WithinExact(g, s, i, minDistance, |s|);
    WithinExact(g, s, i, distToSeperate, |s|);
  }

  /** The boids j < n other than i whose distance from boid i is below
      `radius`, in index order. */
  function Neighbours(g: Geometry, s: seq<Boid>, i: nat, radius: real, n: nat): seq<Boid>
    requires i < |s| && n <= |s|
    decreases n
  {
    if n == 0 then []
    else
      var r := Neighbours(g, s, i, radius, n - 1);
      if n - 1 != i && g.dist(s[i].pos, s[n - 1].pos) < radius then r + [s[n - 1]] else r
  }

  /** The neighbour list holds exactly the boids at the filtered indices, in
      the same order. */
  lemma {:induction false} NeighboursAtIndices(g: Geometry, s: seq<Boid>, i: nat, radius: real, n: nat)
    requires i < |s| && n <= |s|
    ensures |Neighbours(g, s, i, radius, n)| == |Within(g, s, i, radius, n)|
    ensures forall k :: 0 <= k < |Within(g, s, i, radius, n)| ==>
      Neighbours(g, s, i, radius, n)[k] == s[Within(g, s, i, radius, n)[k]]
    decreases n
  {
    if n > 0 {
      NeighboursAtIndices(g, s, i, radius, n - 1);
    }
  }

  /** The "wide" neighbours of boid i (boidsInRange): every other boid closer
      than minDistance, in index order. */
  function Wide(g: Geometry, s: seq<Boid>, i: nat): seq<Boid>
    requires i < |s|
  {
    Neighbours(g, s, i, minDistance, |s|)
  }

  /** The "close" neighbours of boid i (boidsInMinorRadius): every other boid
      closer than distToSeperate, in index order. */
  function Close(g: Geometry, s: seq<Boid>, i: nat): seq<Boid>
    requires i < |s|
  {
    Neighbours(g, s, i, distToSeperate, |s|)
  }

  /** A boid with no wide neighbour has no close neighbour either. */
  lemma NoWideNoClose(g: Geometry, s: seq<Boid>, i: nat)
    requires i < |s|
    ensures Wide(g, s, i) == [] ==> Close(g, s, i) == []
  {
    NeighboursAtIndices(g, s, i, minDistance, |s|);
    NeighboursAtIndices(g, s, i, distToSeperate, |s|);
    var close := Within(g, s, i, distToSeperate, |s|);
    if close != [] {
      CloseIndicesAreWide(g, s, i);
      assert close[0] in Within(g, s, i, minDistance, |s|);
    }
  }

  /** The sum of the positions of the listed boids. */
  function SumPos(bs: seq<Boid>): Point
  {
    if |bs| == 0 then Point(0.0, 0.0) else Add(SumPos(bs[..|bs| - 1]), bs[|bs| - 1].pos)
  }

  /** The sum of the headings of the listed boids. */
  function SumRotation(bs: seq<Boid>): real
  {
    if |bs| == 0 then 0.0 else SumRotation(bs[..|bs| - 1]) + bs[|bs| - 1].rotation
  }

  lemma SumPosSnoc(bs: seq<Boid>, b: Boid)
    ensures SumPos(bs + [b]) == Add(SumPos(bs), b.pos)
  {
    assert (bs + [b])[..|bs|] == bs;
  }

  lemma SumRotationSnoc(bs: seq<Boid>, b: Boid)
    ensures SumRotation(bs + [b]) == SumRotation(bs) + b.rotation
  {
    assert (bs + [b])[..|bs|] == bs;
  }

  /** The inner loop of the frame for boid i: sums the positions and headings of
      the wide neighbours and collects the wide and close neighbour lists. */
  method ScanNeighbours(boids: seq<Boid>, i: nat, g: Geometry)
    returns (sumX: real, sumY: real, sumRotation: real, inRange: seq<Boid>, inMinorRadius: seq<Boid>)
    requires i < |boids|
    ensures inRange == Wide(g, boids, i) && inMinorRadius == Close(g, boids, i)
    ensures Point(sumX, sumY) == SumPos(inRange)
    ensures sumRotation == SumRotation(inRange)
  {
    sumX, sumY, sumRotation := 0.0, 0.0, 0.0;
    inRange, inMinorRadius := [], [];
    var j := 0;
    while j < |boids|
      invariant 0 <= j <= |boids|
      invariant inRange == Neighbours(g, boids, i, minDistance, j)
      invariant inMinorRadius == Neighbours(g, boids, i, distToSeperate, j)
      invariant Point(sumX, sumY) == SumPos(inRange)
      invariant sumRotation == SumRotation(inRange)
    {
      if i != j {
        var dist := g.dist(boids[i].pos, boids[j].pos);
        if dist < minDistance {
          SumPosSnoc(inRange, boids[j]);
          SumRotationSnoc(inRange, boids[j]);
          sumX := sumX + boids[j].pos.x;
          sumY := sumY + boids[j].pos.y;
          inRange := inRange + [boids[j]];
          sumRotation := sumRotation + boids[j].rotation;
        }
        if dist < distToSeperate {
          inMinorRadius := inMinorRadius + [boids[j]];
        }
      }
      j := j + 1;
    }
  }

  // ---------------------------------------------------------------------------
  // Steering contributions

  /** The average position of the listed boids. */
  function Centroid(wide: seq<Boid>): Point
    requires |wide| > 0
  {
    var sum := SumPos(wide);
    Point(sum.x / |wide| as real, sum.y / |wide| as real)
  }

  /** Cohesion: turn towards the centroid of the wide neighbours, weighted and
      clamped on its own. */
  function Cohesion(g: Geometry, b: Boid, wide: seq<Boid>): (r: real)
    requires |wide| > 0
    ensures Abs(r) <= maxRotation
    ensures var a := AngleToRotate(g, Centroid(wide), b) * cohesionStrength;
      Sign(r) == Sign(a) && Abs(r) == Min(Abs(a), maxRotation)
  {
    ClampAngle(AngleToRotate(g, Centroid(wide), b) * cohesionStrength)
  }

  /** The point one unit ahead of b along the average heading of the listed
      boids. */
  function AlignmentTarget(g: Geometry, b: Boid, wide: seq<Boid>): Point
    requires |wide| > 0
  {
    var v := g.ahead(SumRotation(wide) / |wide| as real);
    Point(v.x + b.pos.x, v.y + b.pos.y)
  }

  /** Alignment: turn towards a point one unit ahead along the average heading
      of the wide neighbours, weighted and clamped on its own. */
  function Alignment(g: Geometry, b: Boid, wide: seq<Boid>): (r: real)
    requires |wide| > 0
    ensures Abs(r) <= maxRotation
    ensures var a := AngleToRotate(g, AlignmentTarget(g, b, wide), b) * alignmentStrength;
      Sign(r) == Sign(a) && Abs(r) == Min(Abs(a), maxRotation)
  {
    ClampAngle(AngleToRotate(g, AlignmentTarget(g, b, wide), b) * alignmentStrength)
  }

  /** The unclamped sum of the per-neighbour separation terms: each close
      neighbour pushes b away from it (note the negation). */
  function SeparationSum(g: Geometry, b: Boid, close: seq<Boid>): real
  {
    if |close| == 0 then 0.0
    else
      var other := close[|close| - 1];
      SeparationSum(g, b, close[..|close| - 1]) + -AngleToRotate(g, other.pos, b) * seperationStrength
  }

  /** Separation: the per-neighbour terms are summed first and the sum is
      clamped once; with no close neighbour it is exactly zero. */
  function Separation(g: Geometry, b: Boid, close: seq<Boid>): (r: real)
    ensures Abs(r) <= maxRotation
    ensures close == [] ==> r == 0.0
    ensures Abs(SeparationSum(g, b, close)) <= maxRotation ==> r == SeparationSum(g, b, close)
    ensures Sign(r) == Sign(SeparationSum(g, b, close))
    ensures Abs(SeparationSum(g, b, close)) >= maxRotation ==> Abs(r) == maxRotation
  {
    ClampAngle(SeparationSum(g, b, close))
  }

  /** Avoidance: while the pointer is down and within avoidDist of boid b,
      turn away from it by the clamped turn towards it (no strength factor). */
  function Avoidance(env: Env, b: Boid): (r: real)
    ensures Abs(r) <= maxRotation
    ensures env.avoidPoint.None? ==> r == 0.0
    ensures env.avoidPoint.Some? && env.g.dist(env.avoidPoint.value, b.pos) >= avoidDist ==> r == 0.0
    ensures env.avoidPoint.Some? && env.g.dist(env.avoidPoint.value, b.pos) < avoidDist ==>
      var a := AngleToRotate(env.g, env.avoidPoint.value, b);
      Sign(r) == -Sign(a) && Abs(r) == Min(Abs(a), maxRotation)
  {
    if env.avoidPoint.Some? && env.g.dist(env.avoidPoint.value, b.pos) < avoidDist
    then -ClampAngle(AngleToRotate(env.g, env.avoidPoint.value, b))
    else 0.0
  }

  /** The turn boid i applies this frame, or None when the total is NaN: with
      no wide neighbour the centroid and the average heading are 0/0, the NaN
      reaches the total, and the guard skips the whole turn (separation and
      avoidance included). Otherwise the total is clamped to maxRotation. */
  function Turn(env: Env, s: seq<Boid>, i: nat): (t: Option<real>)
    requires i < |s|
    ensures t.None? <==> Wide(env.g, s, i) == []
    ensures t.Some? ==> Abs(t.value) <= maxRotation
    ensures t.Some? ==>
      var total := Cohesion(env.g, s[i], Wide(env.g, s, i)) + Alignment(env.g, s[i], Wide(env.g, s, i))
        + Separation(env.g, s[i], Close(env.g, s, i)) + Avoidance(env, s[i]);
      Sign(t.value) == Sign(total) && Abs(t.value) == Min(Abs(total), maxRotation)
  {
    var wide := Wide(env.g, s, i);
    if |wide| == 0 then None
    else
      Some(ClampAngle(Cohesion(env.g, s[i], wide) + Alignment(env.g, s[i], wide)
        + Separation(env.g, s[i], Close(env.g, s, i)) + Avoidance(env, s[i])))
  }

  /** The separation loop of the frame: sums the per-neighbour terms over the
      close list, then clamps the sum. */
  method SeparationRotation(boid: Boid, inMinorRadius: seq<Boid>, g: Geometry)
    returns (seperationRotation: real)
    ensures seperationRotation == Separation(g, boid, inMinorRadius)
    ensures Abs(seperationRotation) <= maxRotation
    ensures inMinorRadius == [] ==> seperationRotation == 0.0
  {
    seperationRotation := 0.0;
    var j := 0;
    while j < |inMinorRadius|
      invariant 0 <= j <= |inMinorRadius|
      invariant seperationRotation == SeparationSum(g, boid, inMinorRadius[..j])
    {
      var angle := -AngleToRotate(g, inMinorRadius[j].pos, boid) * seperationStrength;
      assert inMinorRadius[..j + 1][..j] == inMinorRadius[..j];
      seperationRotation := seperationRotation + angle;
      j := j + 1;
    }
    assert inMinorRadius[..j] == inMinorRadius;
    seperationRotation := ClampAngle(seperationRotation);
  }

  // ---------------------------------------------------------------------------
  // Motion and wrap-around

  /** Forward motion: new Vector(0, 1, heading) scaled by -boidSpeed. */
  function Advance(g: Geometry, b: Boid): (r: Boid)
    ensures r.rotation == b.rotation
    ensures r.pos == Add(b.pos, Scale(g.behind(b.rotation), -boidSpeed))
    ensures Unit(g.behind(b.rotation)) ==>
      (r.pos.x - b.pos.x) * (r.pos.x - b.pos.x) + (r.pos.y - b.pos.y) * (r.pos.y - b.pos.y)
        == boidSpeed * boidSpeed
  {
    Move(b, Scale(g.behind(b.rotation), -boidSpeed))
  }

  /** Horizontal wrap: a boid beyond either edge by more than overflowAmount is
      placed just outside the opposite edge. */
  function WrapX(b: Boid, width: real): (r: Boid)
    ensures width >= 0.0 ==> -overflowAmount <= r.pos.x <= width + overflowAmount
    ensures -overflowAmount <= b.pos.x <= width + overflowAmount ==> r == b
    ensures b.pos.x < -overflowAmount ==> r.pos.x == width + overflowAmount
    ensures -overflowAmount <= b.pos.x && width + overflowAmount < b.pos.x ==> r.pos.x == -overflowAmount
    ensures r.pos.y == b.pos.y && r.rotation == b.rotation
  {
    if b.pos.x < -overflowAmount then MoveTo(b, Point(width + overflowAmount, b.pos.y))
    else if b.pos.x > width + overflowAmount then MoveTo(b, Point(-overflowAmount, b.pos.y))
    else b
  }

  /** Vertical wrap, the same on the other axis. */
  function WrapY(b: Boid, height: real): (r: Boid)
    ensures height >= 0.0 ==> -overflowAmount <= r.pos.y <= height + overflowAmount
    ensures -overflowAmount <= b.pos.y <= height + overflowAmount ==> r == b
    ensures b.pos.y < -overflowAmount ==> r.pos.y == height + overflowAmount
    ensures -overflowAmount <= b.pos.y && height + overflowAmount < b.pos.y ==> r.pos.y == -overflowAmount
    ensures r.pos.x == b.pos.x && r.rotation == b.rotation
  {
    if b.pos.y < -overflowAmount then MoveTo(b, Point(b.pos.x, height + overflowAmount))
    else if b.pos.y > height + overflowAmount then MoveTo(b, Point(b.pos.x, -overflowAmount))
    else b
  }

  predicate InBand(b: Boid, width: real, height: real)
  {
    -overflowAmount <= b.pos.x <= width + overflowAmount &&
    -overflowAmount <= b.pos.y <= height + overflowAmount
  }

  // ---------------------------------------------------------------------------
  // The frame

  /** The rest of the loop body once the turn is known: rotate unless the
      turn is NaN, advance along the new heading, wrap each axis. Wrapping
      never touches the heading, so the heading changes by the turn alone. */
  function Finish(env: Env, b: Boid, turn: Option<real>): (r: Boid)
    ensures turn.None? ==> r.rotation == b.rotation
    ensures turn.Some? ==> r.rotation - b.rotation == turn.value
    ensures env.width >= 0.0 && env.height >= 0.0 ==> InBand(r, env.width, env.height)
    ensures var moved := Add(b.pos, Scale(env.g.behind(r.rotation), -boidSpeed));
      InBand(Boid(moved, r.rotation), env.width, env.height) ==> r.pos == moved
  {
    var turned := match turn
      case None => b
      case Some(t) => Rotate(b, t);
    WrapY(WrapX(Advance(env.g, turned), env.width), env.height)
  }

  /** The new state of boid i, computed from the state s the loop has reached
      when it gets to i: turn (unless NaN), advance, wrap. The heading changes
      by at most maxRotation, not at all without wide neighbours, and the
      position ends inside the wrap band. */
  function UpdateBoid(env: Env, s: seq<Boid>, i: nat): (r: Boid)
    requires i < |s|
    ensures Abs(r.rotation - s[i].rotation) <= maxRotation
    ensures Wide(env.g, s, i) == [] ==> r.rotation == s[i].rotation
    ensures env.width >= 0.0 && env.height >= 0.0 ==> InBand(r, env.width, env.height)
  {
    Finish(env, s[i], Turn(env, s, i))
  }

  /** The sequence after the first k iterations of an in-place loop that
      visits the slots in index order and replaces slot i by update(s, i),
      where s is the sequence as iteration i finds it. */
  function Sweep(update: (seq<Boid>, nat) --> Boid, s0: seq<Boid>, k: nat): (s: seq<Boid>)
    requires k <= |s0|
    requires forall s: seq<Boid>, i: nat :: i < |s| ==> update.requires(s, i)
    ensures |s| == |s0|
    decreases k
  {
    if k == 0 then s0
    else
      var s := Sweep(update, s0, k - 1);
      s[k - 1 := update(s, k - 1)]
  }

  /** The per-boid update of a frame, as a value a sweep can apply. */
  function Update(env: Env): (seq<Boid>, nat) --> Boid
  {
    (s: seq<Boid>, i: nat) requires i < |s| => UpdateBoid(env, s, i)
  }

  /** The boids after the first k iterations of the frame loop. */
  function After(env: Env, s0: seq<Boid>, k: nat): (s: seq<Boid>)
    requires k <= |s0|
  {
    Sweep(Update(env), s0, k)
  }

  /** The steering part of the loop body for boid i: scan, the four
      contributions, and the NaN guard. None stands for a NaN total. */
  method Steer(boids: seq<Boid>, i: nat, env: Env) returns (turn: Option<real>)
    requires i < |boids|
    ensures turn == Turn(env, boids, i)
    ensures turn.Some? ==> Abs(turn.value) <= maxRotation
  {
    var sumX, sumY, sumRotation, inRange, inMinorRadius := ScanNeighbours(boids, i, env.g);
    // With no wide neighbour the averages are 0/0, the total rotation is NaN
    // and the isNaN guard leaves the heading alone.
    if |inRange| == 0 {
      return None;
    }
    var n := |inRange| as real;
    var avgPoint := Point(sumX / n, sumY / n);
    var averageRotation := sumRotation / n;
    var rotation := 0.0;
    assert avgPoint == Centroid(inRange);
    rotation := rotation + ClampAngle(AngleToRotate(env.g, avgPoint, boids[i]) * cohesionStrength);
    ghost var cohesion := rotation;
    var relativeVec := env.g.ahead(averageRotation);
    var relativePoint := Point(relativeVec.x + boids[i].pos.x, relativeVec.y + boids[i].pos.y);
    assert relativePoint == AlignmentTarget(env.g, boids[i], inRange);
    rotation := rotation + ClampAngle(AngleToRotate(env.g, relativePoint, boids[i]) * alignmentStrength);
    assert rotation - cohesion == Alignment(env.g, boids[i], inRange);
    ghost var steered := rotation;
    var seperationRotation := SeparationRotation(boids[i], inMinorRadius, env.g);
    rotation := rotation + seperationRotation;
    if env.avoidPoint.Some? && env.g.dist(env.avoidPoint.value, boids[i].pos) < avoidDist {
      rotation := rotation + -ClampAngle(AngleToRotate(env.g, env.avoidPoint.value, boids[i]));
    }
    assert rotation == steered + seperationRotation + Avoidance(env, boids[i]);
    rotation := ClampAngle(rotation);
    turn := Some(rotation);
  }

  /** The end of the loop body for one boid: apply the turn unless it is
      NaN, move forward by boidSpeed along the new heading, then wrap the x
      axis and, from the result, the y axis. */
  method MoveBoid(boid: Boid, turn: Option<real>, env: Env) returns (b: Boid)
    ensures b == Finish(env, boid, turn)
    ensures env.width >= 0.0 && env.height >= 0.0 ==> InBand(b, env.width, env.height)
  {
    b := boid;
    if turn.Some? {
      b := Rotate(b, turn.value);
    }
    var vec := Scale(env.g.behind(b.rotation), -boidSpeed);
    b := Move(b, vec);
    ghost var moved := b;
    if b.pos.x < -overflowAmount {
      b := MoveTo(b, Point(env.width + overflowAmount, b.pos.y));
    } else if b.pos.x > env.width + overflowAmount {
      b := MoveTo(b, Point(-overflowAmount, b.pos.y));
    }
    assert b == WrapX(moved, env.width);
    ghost var wrappedX := b;
    if b.pos.y < -overflowAmount {
      b := MoveTo(b, Point(b.pos.x, env.height + overflowAmount));
    } else if b.pos.y > env.height + overflowAmount {
      b := MoveTo(b, Point(b.pos.x, -overflowAmount));
    }
    assert b == WrapY(wrappedX, env.height);
  }

  /** The frame's per-boid update, applied through the sweep, is the turn
      followed by the move and the wrap. */
  lemma UpdateIsFinish(env: Env, s: seq<Boid>, i: nat)
    requires i < |s|
    ensures Update(env)(s, i) == Finish(env, s[i], Turn(env, s, i))
  {
  }

  /** One frame: the loop of main over every boid, in index order, in place. */
  method Step(boids: array<Boid>, env: Env)
    modifies boids
    ensures boids[..] == After(env, old(boids[..]), boids.Length)
  {
    var i := 0;
    while i < boids.Length
      invariant 0 <= i <= boids.Length
      invariant boids[..] == After(env, old(boids[..]), i)
    {
      ghost var s := boids[..];
      var turn := Steer(boids[..], i, env);
      var b := MoveBoid(boids[i], turn, env);
      UpdateIsFinish(env, s, i);
      boids[i] := b;
      i := i + 1;
    }
  }

  // ---------------------------------------------------------------------------
  // Properties of a frame

  /** Iteration k changes only slot k: after k iterations the slots from k on
      still hold their state from the start. */
  lemma {:induction false} SweepUntouched(update: (seq<Boid>, nat) --> Boid, s0: seq<Boid>, k: nat, j: nat)
    requires forall s: seq<Boid>, i: nat :: i < |s| ==> update.requires(s, i)
    requires k <= j < |s0|
    ensures Sweep(update, s0, k)[j] == s0[j]
    decreases k
  {
    if k > 0 {
      SweepUntouched(update, s0, k - 1, j);
    }
  }

  /** Once iteration j is done, later iterations never change slot j again:
      its final value is update(s, j) for the sequence s in which slots
      0 .. j-1 had already been replaced. */
  lemma {:induction false} SweepSettled(update: (seq<Boid>, nat) --> Boid, s0: seq<Boid>, k: nat, j: nat)
    requires forall s: seq<Boid>, i: nat :: i < |s| ==> update.requires(s, i)
    requires j < k <= |s0|
    ensures Sweep(update, s0, k)[j] == update(Sweep(update, s0, j), j)
    decreases k
  {
    if k > j + 1 {
      SweepSettled(update, s0, k - 1, j);
    }
  }

  /** Over a whole frame: the number of boids is kept, every heading moves by
      at most maxRotation from where it was when the frame started, a boid that
      saw no wide neighbour when its turn came keeps its heading, and (for a
      canvas of non-negative size) every boid ends inside the wrap band. */
  lemma FrameProperties(env: Env, s0: seq<Boid>)
    ensures |After(env, s0, |s0|)| == |s0|
    ensures forall j :: 0 <= j < |s0| ==>
      Abs(After(env, s0, |s0|)[j].rotation - s0[j].rotation) <= maxRotation
    ensures forall j :: 0 <= j < |s0| && Wide(env.g, After(env, s0, j), j) == [] ==>
      After(env, s0, |s0|)[j].rotation == s0[j].rotation
    ensures env.width >= 0.0 && env.height >= 0.0 ==>
      forall j :: 0 <= j < |s0| ==> InBand(After(env, s0, |s0|)[j], env.width, env.height)
  {
    forall j | 0 <= j < |s0|
      ensures After(env, s0, |s0|)[j] == UpdateBoid(env, After(env, s0, j), j)
      ensures After(env, s0, j)[j] == s0[j]
    {
      SweepSettled(Update(env), s0, |s0|, j);
      SweepUntouched(Update(env), s0, j, j);
    }
  }
}
