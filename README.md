# Boids: one frame of the flocking step

This project models the per-frame update of the boids simulation in
`main.ts`. Each boid has a position and a heading in degrees. One frame
visits every boid in index order and does four things:

1. **Scan.** It scans every other boid. Those closer than `minDistance` (80)
   form the "wide" list, and their positions and headings are summed. Those
   closer than `distToSeperate` (35) form the "close" list.
2. **Steer.** It turns the boid by up to `maxRotation` (10) degrees. The turn
   combines four contributions, each clamped on its own:
   - cohesion, towards the centroid of the wide list;
   - alignment, towards the average heading of the wide list;
   - separation, away from every member of the close list;
   - avoidance, away from the mouse pointer while the button is held and the
     pointer is within `avoidDist` (120).
3. **Move.** It moves the boid `boidSpeed` forward along its new heading.
4. **Wrap.** It wraps the boid around each screen edge once it is more than
   `overflowAmount` (8) beyond that edge.

The `boids` array is updated in place. So when boid `i` is scanned, boids
`0 .. i-1` already have their new state for this frame.

Three files:
- `boid.dfy` (module `Boids`) holds the boid state, the tuning constants, and
  the library's polygon operations. The library geometry is a `Geometry`
  value: distance, `atan2` in degrees, and the two unit vectors.
- `steering.dfy` (module `Steering`) holds `angleToRotate` and `clampAngle`.
- `flock.dfy` (module `Flock`) holds:
  - the neighbour scan, the separation loop and the frame loop as methods
    over the array;
  - the functions that specify them;
  - lemmas about one whole frame.

Without a wide neighbour, the centroid and the average heading are `0/0`,
which is NaN. The NaN reaches the total turn, and the `isNaN` guard then skips
the rotation entirely. That includes separation and avoidance, even though
those are finite on their own. The model writes this as an explicit branch:
`Turn` is `None` exactly when the wide list is empty.

Headings are never reduced modulo 360. The reflection in `angleToRotate`
therefore lands in [-180, 180] only while the raw difference stays within one
and a half turns. `AngleToRotateInBand` and `ReflectLeavesBand` state both
sides of this.

## Model

| member | source | states |
|---|---|---|
| Steering.Reflect | main.ts:82-86 | A difference of at most 180 in magnitude is returned unchanged. Above 180 it becomes d - 360; below -180 it becomes d + 360. When the magnitude of d is strictly between 180 and 360, the result has magnitude 360 minus that of d and the opposite sign. For d in [-540, 540], the result lies in [-180, 180]. |
| Steering.AngleToRotateInBand | main.ts:80-87 | While atan2 stays within [-180, 180] and the heading stays in [-270, 450], the turn towards any target lies in [-180, 180]. |
| Steering.AngleToRotate | main.ts:80-87 | A raw difference of at most 180 in magnitude is returned as is. A larger one is moved by exactly one full turn, and it is never moved away from zero. |
| Steering.ReflectLeavesBand | main.ts:83-85 | Every difference of more than one and a half turns in magnitude reflects to a value outside [-180, 180]. |
| Steering.ClampAngle | main.ts:89-91 | The result is at most maxRotation in magnitude and has the sign of the input. It is the identity when the input is at most maxRotation in magnitude, and has magnitude exactly maxRotation otherwise. |
| Steering.ClampIdempotent | main.ts:89-91 | Clamping twice is clamping once, and clampAngle(0) is 0. |
| Flock.Within | main.ts:106-125 | Every index in the filtered list is below the scan bound. |
| Flock.WithinExact | main.ts:106-125 | An index is in the filtered list exactly when it is below n, is not i, and lies closer than the radius. The list is strictly increasing, so it is in index order and has no repeats. |
| Flock.NeighboursAtIndices | main.ts:106-125 | The neighbour list of boids has the same length as the filtered index list, and its k-th boid is the boid at the k-th filtered index. |
| Flock.CloseIndicesAreWide | main.ts:47-48 | Every index within distToSeperate is also within minDistance. |
| Flock.NoWideNoClose | main.ts:106-125 | A boid with an empty wide list also has an empty close list. |
| Flock.ScanNeighbours | main.ts:100-125 | The inner loop's lists are exactly the wide and close neighbour lists, in index order. Its running sums are the position sum and the heading sum of the wide list. |
| Flock.Cohesion | main.ts:136 | The cohesion contribution is the turn towards the centroid, weighted by cohesionStrength, then clamped: it has that weighted turn's sign and magnitude capped at maxRotation. |
| Flock.Alignment | main.ts:138-140 | The alignment contribution is the turn towards the point one unit ahead along the average heading, weighted by alignmentStrength, then clamped: it has that weighted turn's sign and magnitude capped at maxRotation. |
| Flock.Separation | main.ts:142-148 | Separation clamps the sum of the per-neighbour terms once. It is at most maxRotation in magnitude, it is 0 with no close neighbour, and it equals the unclamped sum when that sum is small enough. It always has the sum's sign, and a sum of magnitude maxRotation or more saturates at exactly maxRotation. |
| Flock.SeparationRotation | main.ts:142-148 | The separation loop computes exactly Separation of the close list: bounded, and 0 for an empty list. |
| Flock.Avoidance | main.ts:150-152 | The avoidance term is at most maxRotation in magnitude. It is 0 when the pointer is up, and 0 when the pointer is at least avoidDist away. Within avoidDist it has the opposite sign to the turn towards the pointer, so the boid turns away. Its magnitude is that turn clamped to maxRotation, with no strength factor. |
| Flock.Turn | main.ts:126-157 | The turn is absent (NaN) exactly when the wide list is empty. Otherwise it is the clamped total of cohesion, alignment, separation and avoidance: the total's sign, with magnitude capped at maxRotation. |
| Flock.Steer | main.ts:101-157 | The steering half of the loop body yields exactly Turn, and so a bounded turn or none. |
| Flock.WrapX | main.ts:161-165 | Beyond the left edge a boid moves to width + overflowAmount. Beyond the right edge (and not the left) it moves to -overflowAmount. A boid already in the band is untouched. For a non-negative width, x ends in [-overflowAmount, width + overflowAmount]. y and the heading never change. |
| Flock.WrapY | main.ts:166-170 | The same on the y axis. Beyond the top edge a boid moves to height + overflowAmount, and beyond the bottom edge to -overflowAmount. y ends in the band, and x and the heading never change. |
| Flock.Advance | main.ts:158-159 | The heading is kept, and the boid moves along the library's vector for its heading. When that vector has unit length, which `Sound` states for the library, the step is exactly boidSpeed long. |
| Flock.Finish | main.ts:154-170 | Without a turn the heading is kept; with one, the heading changes by exactly the turn. Wrapping never alters the heading. The boid moves from its old position along its new heading; unless the wrap applies, that is its final position. For a canvas of non-negative size the boid ends inside the wrap band. |
| Flock.MoveBoid | main.ts:154-170 | The rotate, move and wrap statements compute Finish, so the boid ends inside the wrap band. |
| Flock.UpdateBoid | main.ts:100-171 | One iteration changes boid i's heading by at most maxRotation, and not at all when it has no wide neighbour. The boid ends inside the wrap band. |
| Flock.UpdateIsFinish | main.ts:100-171 | The per-boid update applied by the sweep is the turn followed by the move and the wrap. |
| Flock.Sweep | main.ts:100 | An in-place sweep over the slots keeps the number of elements. |
| Flock.Step | main.ts:100-171 | After the frame, the array is the in-place sweep of the per-boid update over the starting array, in index order. |
| Flock.SweepUntouched | main.ts:100-171 | Iteration k changes only slot k: after k iterations, the slots from k on still hold their starting values. |
| Flock.SweepSettled | main.ts:100-171 | Once slot j is updated, later iterations leave it alone. Its final value is the update applied to the state that iteration j saw. |
| Flock.FrameProperties | main.ts:100-171 | Over a whole frame the boid count is kept, and every heading moves by at most maxRotation. A boid whose scan found no wide neighbour keeps its heading. For a canvas of non-negative size every boid ends inside the wrap band. |

## Left out

- Rendering and shape of a boid (main.ts:17-27), the debug lines and centroid circles (main.ts:55-64, 94-99, 117-120, 130-133) and `addBoidsToFrame`: they draw and do not change the simulation state.
- Mouse event wiring (main.ts:68-78): the pointer position is a parameter of the frame (`Env.avoidPoint`, absent while the button is up).
- `requestAnimationFrame` (main.ts:172): one frame is modelled, not the endless sequence of frames.
- `initBoids` and `random` (main.ts:180-190): they depend on `Math.random` and the canvas size; the frame starts from any array of boids.
- The `speedReduction` scaling (main.ts:30-44): its value is 1, so the constants are the literals.
- Floating point: coordinates and headings are unbounded reals, and there is no rounding. `distance`, `Math.atan2` with `radToDeg`, and the rotated unit vectors of `Vector` come from the drawing library. They are parameters of the frame (`Geometry`), and only their ranges and unit lengths (`Sound`) are assumed where a contract needs them. NaN appears only as the `None` turn of a boid without wide neighbours.
- `Polygon.rotate`, `move` and `moveTo` are not part of this model. They are taken to add to the heading, add to the position, and set the position (`Rotate`, `Move`, `MoveTo`).
- Boid objects are held as values in the array. The source never stores one boid object in two slots, and it reads the neighbour lists before boid i changes, so no aliasing is lost.
- The two inner loops read a copy of the array taken when boid i's turn comes. This copy equals the array at that point, since nothing is written until the loop body's rotate.
- Cohesion, Alignment: the contracts give the weighted, clamped turn, but not that this turn brings the boid's heading closer to the bearing of the centroid or the alignment target. That would need the uninterpreted trigonometry.
