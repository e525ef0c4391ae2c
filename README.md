# racing_game core in Dafny

A model of the game logic of the top-down racing game `main.py`. The model
covers the segment geometry used for every collision test, the circuit's
lap state machine (checkpoints in order, the start line, the lap ledger and
the best time), the car's edges and field updates, and the per-frame
in-bounds test with its lap-time penalty. Drawing, input and the clock are
outside the model.

Modules, one per file:

- `Geometry` (`geometry.dfy`) holds points, segments, `gradient`,
  `y_intercept`, the orientation test, `line_intersect` and `collide_point`.
  It also has the two list helpers the game builds on: closing a vertex
  list into a polygon, and counting how many segments a segment crosses.
- `Vehicle` (`vehicle.dfy`) holds the car's four corners and the edges
  `get_lines` pairs them into. It also holds the class `Car` with
  `reset`, `accelerate`, `turn`, `break_` and the motion step `update`.
  Sines, cosines and the rotated corner offsets are parameters.
- `Laps` (`laps.dfy`) is the lap state machine as values. It defines what
  construction, `reset`, `get_lap_time`, `update` and the penalty do to the
  state, and proves the invariants these keep.
- `Circuit` (`circuit.dfy`) holds the class `Track`, whose methods update
  its fields in place. A ghost `State()` collects those fields into a
  `Laps.Lap`, and every method is proved to change it exactly as the
  matching `Laps` function says. So every lemma of `Laps` holds of the object.
- `Race` (`race.dfy`) holds the in-bounds loop of `main` as a method with
  its penalty, and the order of one frame's steps. It also has the circuit
  `main` builds, as constants, and facts about the car at its spawn pose on
  that circuit.

The clock is a `now: real` argument, read once per operation. Numbers are
exact reals.

Three behaviours of the code that are easy to miss:

- `line_intersect` is not a proper-crossing test. Take a segment with one
  end resting on the inside of another segment `l1`, and its other end at
  `d`. It counts as crossing exactly when `Cross(l1.start, l1.end, d) > 0`,
  and not when that cross product is negative
  (`Geometry.TouchingIsOneSided`). With y pointing up, a positive cross
  product puts `d` to the left of `l1`. In the game's screen coordinates y
  points down, so on screen `d` is to the right of `l1`.
- The ray origin (635, 360) lies inside the inner wall, in the infield. A
  corner on the track is crossed from it by the inner wall once, which is
  why an odd count means in bounds (`Race.SpawnC0InBounds`,
  `Race.OriginCornerIsOut`).
- `get_corners` lists the corners in order round the body rectangle, so
  the pairs (1, 3) and (0, 2) that `get_lines` tests are the body's two
  diagonals. The two sides from corner 1 to 2 and from 3 to 0 are never
  tested against the checkpoints or the start line
  (`Vehicle.EdgesIncludeDiagonals`).

## Model

| member | source | states |
|---|---|---|
| Geometry.Gradient | main.py:38-43 | a vertical segment gives the fallback slope -2.809; any other gives the slope, i.e. slope times run equals rise |
| Geometry.YIntercept | main.py:45-47 | the line through the start point with the computed slope passes through the start point, and through the end point when the segment is not vertical |
| Geometry.Ccw | main.py:49-51 | the orientation test holds exactly when the cross product of the two directions is positive |
| Geometry.LineIntersect | main.py:53-55 | the two `__ccw` inequalities: each segment's endpoints lie on different sides of the other's line, one strictly positive and the other not |
| Geometry.CrossCyclic | main.py:49-51 | the cross product is unchanged by rotating its three points |
| Geometry.IntersectSymmetric | main.py:53-55 | `line_intersect` gives the same answer with its arguments swapped |
| Geometry.NoSelfIntersect | main.py:53-55 | a segment never intersects itself |
| Geometry.ProperCrossingIntersects | main.py:49-55 | two non-parallel segments that meet at a point strictly inside both are reported as intersecting |
| Geometry.SameSideNoIntersect | main.py:49-55 | a segment lying strictly on one side of the other's line is reported as not intersecting |
| Geometry.TouchingIsOneSided | main.py:49-55 | a segment from a point strictly inside `l1` to a point `d` off its line is reported as crossing `l1` exactly when `Cross(l1.start, l1.end, d) > 0`: left of `l1` with y up, right of it on the y-down screen |
| Geometry.CollidePoint | main.py:57-60 | a hit lies strictly inside the segment's bounding box; an axis-aligned segment is never hit |
| Geometry.OffsetIsHeightAboveLine | main.py:57-60 | the quantity compared with 100 is the point's height above the segment's line |
| Geometry.OnSegmentCollides | main.py:57-60 | a point on the segment's line and strictly inside its box is hit |
| Geometry.CollideByHeight | main.py:57-60 | inside the box, a point on or below the line is hit and a point 100 or more above it is not; the difference is signed |
| Geometry.AnyHit | main.py:105-106 | the test that some edge crosses the target: false for no edges, true whenever any edge crosses |
| Geometry.AnyHitExists | main.py:105-106 | "some edge crosses the target" holds exactly when an index of a crossing edge exists |
| Geometry.Crossings | main.py:304-309 | the crossing count is at most the number of segments, and positive exactly when some segment is crossed |
| Geometry.CrossingsAppend | main.py:305-309 | the count over concatenated lists is the sum of the counts |
| Geometry.CrossingsNone | main.py:305-309 | no crossed segment gives a count of 0 |
| Geometry.CrossingsSingle | main.py:305-309 | exactly one crossed segment gives a count of 1 |
| Geometry.PointCrossesNothing | main.py:305-309 | a segment of zero length crosses nothing |
| Geometry.Chain | main.py:71-72 | consecutive vertices joined: one segment fewer than vertices, segment i from vertex i to vertex i+1 |
| Geometry.ClosedPolygon | main.py:71-72 | one segment per vertex, each joining consecutive vertices, the last closing back to the first |
| Vehicle.CarEdges | main.py:177-179 | the four body edges, pairing corners (0,1), (1,3), (0,2), (2,3) |
| Vehicle.EdgesAreQuadrilateral | main.py:177-179 | the edges are the sides of the closed quadrilateral 0, 1, 3, 2, the last two taken in reverse |
| Vehicle.CornerOffsets | main.py:171-175 | the corners relative to the position, in order round a rectangle centred on it: sides 0 to 1 and 3 to 2 equal the height along the heading, sides 1 to 2 and 0 to 3 the width across it |
| Vehicle.Placed | main.py:171-175 | the corners shifted by the car's position: each axis's smallest and largest corner coordinate is the offsets' one plus the position |
| Vehicle.EdgesIncludeDiagonals | main.py:171-179 | the tested edges (1, 3) and (0, 2) both have the car's position as midpoint, so they are the body's diagonals |
| Vehicle.MinX | main.py:215-217 | `left`: the smallest corner x, no larger than any corner's and attained by one |
| Vehicle.MaxX | main.py:219-221 | `right`: the largest corner x, no smaller than any corner's and attained by one |
| Vehicle.MinY | main.py:211-213 | `top`: the smallest corner y, attained by a corner |
| Vehicle.MaxY | main.py:207-209 | `bottom`: the largest corner y, attained by a corner |
| Vehicle.ClampAxis | main.py:154-168 | a bounce happens exactly when the body sticks out of the world on that axis; the body is then moved flush with the edge it crossed, otherwise it stays put; a body that fits ends inside the world |
| Vehicle.Car.constructor | main.py:124-135 | the car starts at the given position, at rest, heading 0, 20 wide and 46 high |
| Vehicle.Car.Reset | main.py:137-141 | back at (186, 435), at rest, heading 0 |
| Vehicle.Car.Accelerate | main.py:185-188 | world velocity grows by the magnitude along the heading, longitudinal body speed by the magnitude; nothing else changes |
| Vehicle.Car.Turn | main.py:190-196 | only the heading changes, by the given angle |
| Vehicle.Car.Brake | main.py:198-199 | only the longitudinal body speed changes, scaled by 0.88, whatever the force |
| Vehicle.Displacement | main.py:152-162 | the body-frame velocity turned by the heading: for a unit sine and cosine its length is kept |
| Vehicle.BodyFits | main.py:171-175 | at any heading the 20 by 46 body spans no more than the world on either axis |
| Vehicle.Car.Update | main.py:143-168 | body speeds damped by 0.975 and 0.94; the position moves by the damped body velocity turned by the heading and is clamped per axis using the car's own 20 by 46 corners, a bounce scaling that axis's world velocity by -0.9; when the sine and cosine form a unit vector the car's corners then lie inside the 1270 by 720 world |
| Laps.MinOf | main.py:115-116 | the smallest time of the ledger, no larger than any entry and equal to one |
| Laps.Initial | main.py:70-80 | a new track has all flags clear, its origin at `now`, no lap timed, an empty ledger, an infinite best time and latest index -1, and satisfies the invariant |
| Laps.LapTime | main.py:87-90 | 0 when no lap is timed, otherwise the time since the lap origin |
| Laps.Reset | main.py:82-85 | flags cleared, timing stopped, origin at `now`; ledger, best time and latest index kept |
| Laps.ResetKeepsInv | main.py:82-85 | a reset keeps the invariant and leaves the lap time at 0 |
| Laps.Sweep | main.py:104-108 | flag i after the checkpoint loop is set if it was, or if an edge crosses gate i and it is the first gate or flag i-1 is set by then |
| Laps.SweepFacts | main.py:104-108 | the checkpoint loop keeps the flags in prefix order, clears none, and sets only flags whose gate an edge crosses |
| Laps.CrossStart | main.py:110-120 | one edge on the start line: with every flag set, a lap is appended, the flags cleared and the origin set to `now`; otherwise ledger, flags and best time are kept and the timer runs, started at `now` if it was not running |
| Laps.RecordLap | main.py:111-117 | a completed lap appends its time, clears all flags, bumps the latest index, takes the time as best if faster, and restarts the origin at `now` |
| Laps.StartPhase | main.py:109-120 | the start-line loop keeps the number of flags |
| Laps.Update | main.py:103-120 | one `update` keeps the number of flags |
| Laps.MinOfAppend | main.py:113-116 | the minimum after appending a time is that time if it is smaller, else the old minimum |
| Laps.CrossStartKeepsInv | main.py:110-120 | one start-line crossing keeps the invariant: prefix-ordered flags, latest index equal to ledger length minus one, best time the ledger's minimum |
| Laps.StartPhaseKeeps | main.py:109-120 | the start-line loop keeps the invariant, only appends to the ledger, never raises the best time, clears flags only all at once, and restarts the origin at `now` after a lap |
| Laps.StartPhaseLaps | main.py:109-120 | with checkpoints, no crossing edge changes nothing; one lap is recorded exactly when an edge crosses and every flag is set, or none otherwise; after a lap the flags are clear |
| Laps.StartPhaseNoCheckpoints | main.py:109-114 | with no checkpoints, every crossing edge records a lap |
| Laps.UpdateKeepsInv | main.py:103-120 | `update` keeps the invariant and the number of flags |
| Laps.UpdateAppendsOnly | main.py:103-120 | `update` only appends to the ledger and never raises the best time |
| Laps.UpdateFlags | main.py:104-112 | a flag is set only if an edge crosses its gate; a flag is cleared only with all the others |
| Laps.UpdateLapIff | main.py:103-120 | with checkpoints, a lap is recorded exactly when an edge crosses the start line with every flag set after the sweep; at most one is recorded, and then the flags are clear and the new lap starts at `now` with time 0 |
| Laps.UpdateNoCheckpoints | main.py:109-114 | with no checkpoints, the ledger grows by the number of edges crossing the start line |
| Laps.UnstartedLapIsZero | main.py:111-113 | clearing every gate without the timer ever having started records a lap of time 0 |
| Laps.UnstartedLapIsZeroPhase | main.py:109-113 | the same for the start-line loop alone |
| Laps.Penalize | main.py:313 | the penalty moves the lap origin back by 0.001 and changes nothing else |
| Laps.PenaltyKeepsInv | main.py:313 | the penalty keeps the invariant |
| Laps.PenaltyLengthensLap | main.py:313 | the penalty keeps the invariant and adds 0.001 to a timed lap; an untimed lap still reads 0 |
| Circuit.Track.constructor | main.py:70-80 | walls are the closed polygons of the vertex lists, one clear flag per checkpoint, lap state initial, invariant holds |
| Circuit.Track.Reset | main.py:82-85 | the object's state becomes the reset of the old state, invariant kept |
| Circuit.Track.GetLapTime | main.py:87-90 | 0 when no lap is timed, otherwise `now` minus the origin |
| Circuit.Track.Update | main.py:103-120 | the object's state becomes `update` of the old state for the car's edges; invariant kept |
| Circuit.Track.SweepCheckpoints | main.py:104-108 | the flags after the nested checkpoint loop are the sweep of the old flags |
| Circuit.Track.MarkCheckpoint | main.py:105-108 | one gate's pass sets only that flag, when an edge crosses the gate and it is the first gate or the previous flag is set |
| Circuit.Track.CrossStartLine | main.py:109-120 | the state after the start-line loop is the start phase of the old state |
| Race.CornerInBounds | main.py:304-311 | the `colls % 2` test of one corner: an in-bounds corner's ray crosses some wall |
| Race.InBounds | main.py:301-311 | the `in_bound` flag: every corner in bounds, so every corner's ray crosses some wall |
| Race.CheckInBounds | main.py:301-311 | the flag is true exactly when every corner's ray from (635, 360) crosses an odd number of walls |
| Race.ApplyBoundsPenalty | main.py:301-313 | same flag over outer then inner walls; out of bounds the state gets the penalty and nothing else changes; in bounds it is unchanged |
| Race.CornerParity | main.py:305-310 | a corner is in bounds exactly when its outer and inner crossing counts differ in parity |
| Race.CornerAtOriginIsOut | main.py:306-310 | a corner at the ray origin makes the car out of bounds |
| Race.Frame | main.py:297-313 | the lap state becomes `update` for the moved car's corners, then penalised exactly when that car is out of bounds; the heading is kept and, for a unit sine and cosine, the moved car's corners lie inside the world |
| Race.GameOuterWallsAre | main.py:252 | the outer wall of the game's circuit, segment by segment |
| Race.GameInnerWallsAre | main.py:253 | the inner wall of the game's circuit, segment by segment |
| Race.NewGameTrack | main.py:252-265 | the game's track has those walls, start line and checkpoints, and an initial lap state |
| Race.SpawnPose | main.py:171-175 | the spawn corners are those `get_corners` gives for the 20 by 46 car at (186, 435) with heading 0 |
| Race.SpawnC0InBounds | main.py:301-311 | on the game's circuit, spawn corner 0 is in bounds |
| Race.SpawnC1InBounds | main.py:301-311 | on the game's circuit, spawn corner 1 is in bounds |
| Race.SpawnC2InBounds | main.py:301-311 | on the game's circuit, spawn corner 2 is in bounds |
| Race.SpawnC3InBounds | main.py:301-311 | on the game's circuit, spawn corner 3 is in bounds |
| Race.SpawnIsInBounds | main.py:301-311 | on the game's circuit, the car at its spawn pose is in bounds |
| Race.OriginCornerIsOut | main.py:301-311 | on the game's circuit, a corner at the window origin is out of bounds, with an even count of 2 |
| Race.SpawnClearOfStart | main.py:109-110 | no edge of the car at its spawn pose crosses the start line |

## Left out

- Drawing, fonts, the window, the leaderboard (`Line.draw`, `Track.draw`, `Car.draw`, main.py:315-330). These are display only.
- Event and key polling, `fps.tick` and the program's entry point. The key bindings only choose which car method runs, with which argument.
- The key handling that changes `rel_vel[1]` by ±0.06 directly. It is a field write from input, not an operation of the car.
- `resource_path` and image loading in `Car.__init__`. These are filesystem and library calls.
- `move_toward`. It is never called.
- `time.perf_counter`. It becomes the `now` argument.
- Laps.RecordLap: reads the clock once. The source calls `get_lap_time` two or three times (the third only for a faster lap) and `perf_counter` once more when it records a lap. So its ledger entry, best-time comparison, best time and new origin can differ by the time that passes between those calls. The single reading is what makes "best time equals the ledger's minimum" exact.
- Sines and cosines are parameters of `Vehicle.Car.Accelerate`, `Vehicle.Car.Update`, `Vehicle.CornerOffsets` and `Race.Frame`. The model does not compute them from the heading. `Car.Update` and `Frame` take those of the heading and build the corners from them. Those corners use cos(τ/4 − a) = sin a and sin(τ/4 − a) = cos a.
- Numbers are exact reals rather than Python floats. Rounding is not modelled.
- The segment stroke width is drawing only, so it is left out.
- Circuit.Track.MarkCheckpoint: for gate 0 the source also reads `checks[-1]`, the last flag. The `or num == 0` makes that value irrelevant, so the model does not read it.
- Race.Frame: its contract states the car's heading and where its corners end up, but not its new position and velocities. Those are the ones `Vehicle.Car.Update` states.
- Vehicle.Car.Turn: the rotated body velocity `t_vel` that `turn` computes is never stored, so it is not computed.
