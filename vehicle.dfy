/** The car: its four corners and the edges tested against the track, and the
    field updates of its controls and of its per-frame motion step. Sines,
    cosines and the rotated corner offsets are trigonometry of the heading;
    they are taken as inputs rather than computed. */
module Vehicle {
  import opened Geometry

  /** The four corners `get_corners` returns, in its order. */
  datatype Corners = Corners(c0: Point, c1: Point, c2: Point, c3: Point)
  {
    function Seq(): (s: seq<Point>)
      ensures |s| == 4 && s[0] == c0 && s[1] == c1 && s[2] == c2 && s[3] == c3
    {
      [c0, c1, c2, c3]
    }
  }

  /** `get_lines`: the body's edges, pairing corners (0,1), (1,3), (0,2), (2,3). */
  function CarEdges(q: Corners): (r: seq<Line>)
    ensures |r| == 4
  {
    [Line(q.c0, q.c1), Line(q.c1, q.c3), Line(q.c0, q.c2), Line(q.c2, q.c3)]
  }

  function Reversed(l: Line): Line { Line(l.end, l.start) }

  /** `get_corners`, relative to the car's position: `c` and `s` are the
      cosine and sine of a quarter turn minus the heading, `w` and `h` the
      car's width and height. The corners go round the body rectangle in
      order: each side from corner 0 to 1 and from 3 to 2 runs along the
      body, each side from 1 to 2 and from 0 to 3 runs across it, and the
      rectangle is centred on the position. */
  function CornerOffsets(c: real, s: real, w: real, h: real): (q: Corners)
    ensures q.c1.x - q.c0.x == c * h && q.c1.y - q.c0.y == s * h
    ensures q.c2.x - q.c3.x == c * h && q.c2.y - q.c3.y == s * h
    ensures q.c2.x - q.c1.x == -(s * w) && q.c2.y - q.c1.y == c * w
    ensures q.c3.x - q.c0.x == -(s * w) && q.c3.y - q.c0.y == c * w
    ensures q.c0.x + q.c2.x == 0.0 && q.c0.y + q.c2.y == 0.0
    ensures q.c1.x + q.c3.x == 0.0 && q.c1.y + q.c3.y == 0.0
  {
    var ch, cw, sh, sw := c * h / 2.0, c * w / 2.0, s * h / 2.0, s * w / 2.0;
    Corners(Point(-ch + sw, -cw - sh), Point(ch + sw, -cw + sh),
            Point(ch - sw, cw + sh), Point(-ch - sw, cw - sh))
  }

  /** The corners of a car whose corners relative to its position are
      `offsets`, standing at (x, y). Its extent on each axis is that of the
      offsets, shifted by the position. */
  function Placed(offsets: Corners, x: real, y: real): (q: Corners)
    ensures MinX(q) == MinX(offsets) + x && MaxX(q) == MaxX(offsets) + x
    ensures MinY(q) == MinY(offsets) + y && MaxY(q) == MaxY(offsets) + y
  {
    Corners(Point(offsets.c0.x + x, offsets.c0.y + y), Point(offsets.c1.x + x, offsets.c1.y + y),
            Point(offsets.c2.x + x, offsets.c2.y + y), Point(offsets.c3.x + x, offsets.c3.y + y))
  }

  /** The pairs (1, 3) and (0, 2) of `get_lines` are the body's diagonals:
      both pass through the car's position at their midpoint. The sides from
      corner 1 to 2 and from 3 to 0 are not among the tested edges. */
  lemma EdgesIncludeDiagonals(c: real, s: real, w: real, h: real, x: real, y: real)
    ensures var e := CarEdges(Placed(CornerOffsets(c, s, w, h), x, y));
            Along(e[1], 0.5) == Point(x, y) && Along(e[2], 0.5) == Point(x, y)
  {
    var o := CornerOffsets(c, s, w, h);
    var q := Placed(o, x, y);
    assert q.c1.x + q.c3.x == 2.0 * x && q.c1.y + q.c3.y == 2.0 * y;
    assert q.c0.x + q.c2.x == 2.0 * x && q.c0.y + q.c2.y == 2.0 * y;
  }

  /** The edges are the sides of the closed quadrilateral c0, c1, c3, c2; the
      last two sides are taken from c0 and from c2 rather than towards them. */
  lemma EdgesAreQuadrilateral(q: Corners)
    ensures var p := ClosedPolygon([q.c0, q.c1, q.c3, q.c2]);
            CarEdges(q) == [p[0], p[1], Reversed(p[3]), Reversed(p[2])]
  {
    var p := ClosedPolygon([q.c0, q.c1, q.c3, q.c2]);
    assert p[2] == Line(q.c3, q.c2);
  }

  /** Smallest and largest corner coordinates: `left`, `right`, `top` and
      `bottom` of the source, taken over corner offsets. */
  function MinX(q: Corners): (m: real)
    ensures m <= q.c0.x && m <= q.c1.x && m <= q.c2.x && m <= q.c3.x
    ensures m == q.c0.x || m == q.c1.x || m == q.c2.x || m == q.c3.x
  {
    Min(Min(q.c0.x, q.c1.x), Min(q.c2.x, q.c3.x))
  }

  function MaxX(q: Corners): (m: real)
    ensures m >= q.c0.x && m >= q.c1.x && m >= q.c2.x && m >= q.c3.x
    ensures m == q.c0.x || m == q.c1.x || m == q.c2.x || m == q.c3.x
  {
    Max(Max(q.c0.x, q.c1.x), Max(q.c2.x, q.c3.x))
  }

  function MinY(q: Corners): (m: real)
    ensures m <= q.c0.y && m <= q.c1.y && m <= q.c2.y && m <= q.c3.y
    ensures m == q.c0.y || m == q.c1.y || m == q.c2.y || m == q.c3.y
  {
    Min(Min(q.c0.y, q.c1.y), Min(q.c2.y, q.c3.y))
  }

  function MaxY(q: Corners): (m: real)
    ensures m >= q.c0.y && m >= q.c1.y && m >= q.c2.y && m >= q.c3.y
    ensures m == q.c0.y || m == q.c1.y || m == q.c2.y || m == q.c3.y
  {
    Max(Max(q.c0.y, q.c1.y), Max(q.c2.y, q.c3.y))
  }

  const WorldWidth: real := 1270.0
  const WorldHeight: real := 720.0
  const Bounce: real := -0.9
  const LongitudinalDamping: real := 0.975
  const LateralDamping: real := 0.94
  const BrakeFactor: real := 0.88
  const Spawn: Point := Point(186.0, 435.0)

  /** One axis of the world-boundary clamp of `Car.update`. `pos` is the
      position after integration, `lo` and `hi` the smallest and largest
      corner offsets along the axis, `extent` the world size. The result is
      the corrected position and whether the car bounced. */
  function ClampAxis(pos: real, lo: real, hi: real, extent: real): (r: (real, bool))
    ensures r.1 <==> pos + lo < 0.0 || pos + hi > extent
    ensures pos + lo < 0.0 ==> r.0 + lo == 0.0
    ensures 0.0 <= pos + lo && pos + hi > extent ==> r.0 + hi == extent
    ensures !r.1 ==> r.0 == pos
    ensures lo <= hi && hi - lo <= extent ==> 0.0 <= r.0 + lo && r.0 + hi <= extent
  {
    var low, high := pos + lo, pos + hi;
    if pos - (pos - low) < 0.0 then ((pos - low) + 0.0, true)
    else if pos + (high - pos) > extent then (extent - (high - pos), true)
    else (pos, false)
  }

  /** The body-frame velocity (along, across the heading) turned into a world
      displacement, with the source's axis convention (heading 0 faces y). */
  function Displacement(along: real, across: real, sinAngle: real, cosAngle: real): (d: (real, real))
    ensures sinAngle * sinAngle + cosAngle * cosAngle == 1.0 ==>
              d.0 * d.0 + d.1 * d.1 == along * along + across * across
  {
    assert (along * sinAngle + across * cosAngle) * (along * sinAngle + across * cosAngle)
         + (along * cosAngle - across * sinAngle) * (along * cosAngle - across * sinAngle)
        == along * along * (sinAngle * sinAngle + cosAngle * cosAngle)
         + across * across * (sinAngle * sinAngle + cosAngle * cosAngle);
    (along * sinAngle + across * cosAngle, along * cosAngle - across * sinAngle)
  }

  /** A coordinate of a unit vector lies in [-1, 1]. */
  lemma UnitBounds(u: real, v: real)
    requires u * u + v * v == 1.0
    ensures -1.0 <= u <= 1.0
  {
    assert v * v >= 0.0;
    assert (1.0 - u) * (1.0 + u) >= 0.0;
  }

  /** At any heading, the 20 by 46 body spans at most 66 on each axis, so it
      fits the world. */
  lemma BodyFits(sinAngle: real, cosAngle: real)
    requires sinAngle * sinAngle + cosAngle * cosAngle == 1.0
    ensures var o := CornerOffsets(sinAngle, cosAngle, 20.0, 46.0);
            MaxX(o) - MinX(o) <= WorldWidth && MaxY(o) - MinY(o) <= WorldHeight
  {
    UnitBounds(sinAngle, cosAngle);
    UnitBounds(cosAngle, sinAngle);
    var o := CornerOffsets(sinAngle, cosAngle, 20.0, 46.0);
    assert -23.0 <= sinAngle * 23.0 <= 23.0 && -10.0 <= sinAngle * 10.0 <= 10.0;
    assert -23.0 <= cosAngle * 23.0 <= 23.0 && -10.0 <= cosAngle * 10.0 <= 10.0;
    assert -33.0 <= o.c0.x <= 33.0 && -33.0 <= o.c1.x <= 33.0 && -33.0 <= o.c2.x <= 33.0 && -33.0 <= o.c3.x <= 33.0;
    assert -33.0 <= o.c0.y <= 33.0 && -33.0 <= o.c1.y <= 33.0 && -33.0 <= o.c2.y <= 33.0 && -33.0 <= o.c3.y <= 33.0;
  }

  class Car {
    var posX: real      // exact_pos[0]
    var posY: real      // exact_pos[1]
    var velX: real      // velocity[0], world frame
    var velY: real      // velocity[1], world frame
    var relLong: real   // rel_vel[0], along the heading
    var relLat: real    // rel_vel[1], across the heading
    var angle: real
    const width: int := 10 * 2
    const height: int := 23 * 2

    /** The corners relative to the position for a heading with sine
        `sinAngle` and cosine `cosAngle`: a quarter turn minus the heading
        has cosine `sinAngle` and sine `cosAngle`. */
    function Body(sinAngle: real, cosAngle: real): Corners
    {
      CornerOffsets(sinAngle, cosAngle, width as real, height as real)
    }

    constructor (pos: Point)
      ensures posX == pos.x && posY == pos.y
      ensures velX == 0.0 && velY == 0.0 && relLong == 0.0 && relLat == 0.0
      ensures angle == 0.0 && width == 20 && height == 46
    {
      posX, posY := pos.x, pos.y;
      velX, velY := 0.0, 0.0;
      relLong, relLat := 0.0, 0.0;
      angle := 0.0;
    }

    /** Back to the spawn pose, at rest. */
    method Reset()
      modifies this
      ensures posX == Spawn.x && posY == Spawn.y
      ensures velX == 0.0 && velY == 0.0 && relLong == 0.0 && relLat == 0.0
      ensures angle == 0.0
    {
      posX, posY := 186.0, 435.0;
      velX, velY := 0.0, 0.0;
      relLong, relLat := 0.0, 0.0;
      angle := 0.0;
    }

    /** `accelerate(mag)`, given the sine and cosine of the current heading. */
    method Accelerate(mag: real, sinAngle: real, cosAngle: real)
      modifies this
      ensures velX == old(velX) + mag * sinAngle && velY == old(velY) + mag * cosAngle
      ensures relLong == old(relLong) + mag
      ensures relLat == old(relLat) && posX == old(posX) && posY == old(posY) && angle == old(angle)
    {
      velX := velX + mag * sinAngle;
      velY := velY + mag * cosAngle;
      relLong := relLong + mag;
    }

    /** `turn(ang)`: only the heading changes. The rotated body velocity the
        source computes is never stored, so it is not computed here. */
    method Turn(ang: real)
      modifies this
      ensures angle == old(angle) + ang
      ensures posX == old(posX) && posY == old(posY)
      ensures velX == old(velX) && velY == old(velY)
      ensures relLong == old(relLong) && relLat == old(relLat)
    {
      angle := angle + ang;
    }

    /** `break_(force)`: damps the longitudinal speed; `force` is unused. */
    method Brake(force: real)
      modifies this
      ensures relLong == old(relLong) * BrakeFactor
      ensures relLat == old(relLat) && angle == old(angle)
      ensures posX == old(posX) && posY == old(posY)
      ensures velX == old(velX) && velY == old(velY)
    {
      relLong := relLong * 0.88;
    }

    /** `update()`: damp the body-frame velocity, move along it rotated by the
        heading, and clamp each axis to the world, bouncing the world-frame
        velocity (which does not drive the motion). `sinAngle` and `cosAngle`
        are those of the heading; the clamp uses the body's corners at that
        heading. A 20 by 46 body always fits, so the car ends inside the
        world. */
    method Update(sinAngle: real, cosAngle: real)
      modifies this
      ensures relLong == old(relLong) * LongitudinalDamping && relLat == old(relLat) * LateralDamping
      ensures var o := Body(sinAngle, cosAngle);
              var c := ClampAxis(old(posX) + Displacement(relLong, relLat, sinAngle, cosAngle).0, MinX(o), MaxX(o), WorldWidth);
              posX == c.0 && velX == (if c.1 then old(velX) * Bounce else old(velX))
      ensures var o := Body(sinAngle, cosAngle);
              var c := ClampAxis(old(posY) + Displacement(relLong, relLat, sinAngle, cosAngle).1, MinY(o), MaxY(o), WorldHeight);
              posY == c.0 && velY == (if c.1 then old(velY) * Bounce else old(velY))
      ensures angle == old(angle)
      ensures sinAngle * sinAngle + cosAngle * cosAngle == 1.0 ==>
                var o := Body(sinAngle, cosAngle);
                && 0.0 <= posX + MinX(o) && posX + MaxX(o) <= WorldWidth
                && 0.0 <= posY + MinY(o) && posY + MaxY(o) <= WorldHeight
    {
      var offsets := Body(sinAngle, cosAngle);
      if sinAngle * sinAngle + cosAngle * cosAngle == 1.0 {
        BodyFits(sinAngle, cosAngle);
      }
      relLong := relLong * 0.975;
      relLat := relLat * 0.94;
      var d := Displacement(relLong, relLat, sinAngle, cosAngle);
      var movedX := posX + d.0;
      var cx := ClampAxis(movedX, MinX(offsets), MaxX(offsets), WorldWidth);
      assert MinX(offsets) <= MaxX(offsets);
      posX := cx.0;
      if cx.1 {
        velX := velX * Bounce;
      }
      var movedY := posY + d.1;
      var cy := ClampAxis(movedY, MinY(offsets), MaxY(offsets), WorldHeight);
      assert MinY(offsets) <= MaxY(offsets);
      posY := cy.0;
      if cy.1 {
        velY := velY * Bounce;
      }
    }
  }
}
