/** The per-frame part of the game loop that is not drawing or input: the
    in-bounds test by ray-crossing parity, its lap-time penalty, and the
    order of the physics, lap and in-bounds steps. Also the fixed circuit the
    game builds. */
module Race {
  import opened Geometry
  import opened Vehicle
  import opened Laps
  import opened Circuit

  /** The fixed point inside the track that every test ray starts from. */
  const RayOrigin: Point := Point(635.0, 360.0)

  /** A corner is in bounds when the ray from the reference point to it
      crosses an odd number of walls. */
  predicate CornerInBounds(corner: Point, walls: seq<Line>): (r: bool)
    ensures r ==> AnyHit(Line(RayOrigin, corner), walls)
  {
    Crossings(Line(RayOrigin, corner), walls) % 2 == 1
  }

  /** The car is in bounds when every corner is; then every corner's ray
      crosses some wall, and a car with a corner whose ray crosses none is
      out. */
  predicate InBounds(walls: seq<Line>, corners: seq<Point>): (r: bool)
    ensures r ==> forall k :: 0 <= k < |corners| ==> AnyHit(Line(RayOrigin, corners[k]), walls)
  {
    forall k :: 0 <= k < |corners| ==> CornerInBounds(corners[k], walls)
  }

  /** The in-bounds loop of the game: count wall crossings per corner and
      clear the flag on any even count. */
  method CheckInBounds(walls: seq<Line>, car: Corners) returns (inBound: bool)
    ensures inBound <==> InBounds(walls, car.Seq())
  {
    var corners := car.Seq();
    inBound := true;
    var k := 0;
    while k < |corners|
      invariant 0 <= k <= |corners|
      invariant inBound <==> forall m :: 0 <= m < k ==> CornerInBounds(corners[m], walls)
    {
      var colls := 0;
      var j := 0;
      while j < |walls|
        invariant 0 <= j <= |walls|
        invariant colls == Crossings(Line(RayOrigin, corners[k]), walls[..j])
      {
        assert walls[..j + 1][..j] == walls[..j];
        var l := Line(RayOrigin, corners[k]);
        if LineIntersect(l, walls[j]) {
          colls := colls + 1;
        }
        j := j + 1;
      }
      assert walls[..j] == walls;
      if colls % 2 == 0 {
        inBound := false;
      }
      k := k + 1;
    }
  }

  /** The walls the game tests against: outer polygon, then inner. */
  function Walls(track: Track): seq<Line>
    reads track
  {
    track.outerLines + track.innerLines
  }

  /** The in-bounds test and its penalty: an out-of-bounds car moves the lap
      origin back by the penalty step, and nothing else changes. */
  method ApplyBoundsPenalty(track: Track, car: Corners) returns (inBound: bool)
    requires track.Valid()
    modifies track
    ensures track.Valid()
    ensures inBound <==> InBounds(Walls(track), car.Seq())
    ensures track.State() == if inBound then old(track.State()) else Penalize(old(track.State()))
  {
    inBound := CheckInBounds(track.outerLines + track.innerLines, car);
    if !inBound {
      track.lapStart := track.lapStart - 0.001;
    }
    PenaltyKeepsInv(old(track.State()));
  }

  /** A corner's parity over both walls: in bounds exactly when the ray
      crosses the outer and the inner wall a different number of times modulo
      two. */
  lemma CornerParity(corner: Point, outer: seq<Line>, inner: seq<Line>)
    ensures CornerInBounds(corner, outer + inner)
        <==> (Crossings(Line(RayOrigin, corner), outer) % 2 != Crossings(Line(RayOrigin, corner), inner) % 2)
  {
    var ray := Line(RayOrigin, corner);
    CrossingsAppend(ray, outer, inner);
    SumParity(Crossings(ray, outer), Crossings(ray, inner));
  }

  lemma SumParity(a: nat, b: nat)
    ensures (a + b) % 2 == 1 <==> a % 2 != b % 2
  {
  }

  /** A corner exactly on the reference point is never in bounds: its ray has
      no length and crosses nothing. */
  lemma CornerAtOriginIsOut(walls: seq<Line>, corners: seq<Point>, k: nat)
    requires k < |corners| && corners[k] == RayOrigin
    ensures !InBounds(walls, corners)
  {
    PointCrossesNothing(RayOrigin, walls);
  }

  /** One frame after input handling: move the car, update the lap state from
      the car's new corners, then test the bounds and apply the penalty, all
      with the clock reading `now`. `sinAngle` and `cosAngle` are those of
      the car's heading. */
  method Frame(car: Car, track: Track, sinAngle: real, cosAngle: real, now: real)
    returns (inBound: bool)
    requires track.Valid()
    modifies car, track
    ensures track.Valid()
    ensures var q := Placed(car.Body(sinAngle, cosAngle), car.posX, car.posY);
            var s := Laps.Update(old(track.State()), track.checkPoints, track.startLine, CarEdges(q), now);
            && (inBound <==> InBounds(Walls(track), q.Seq()))
            && track.State() == if inBound then s else Penalize(s)
    ensures car.angle == old(car.angle)
    ensures sinAngle * sinAngle + cosAngle * cosAngle == 1.0 ==>
              var q := Placed(car.Body(sinAngle, cosAngle), car.posX, car.posY);
              0.0 <= MinX(q) && MaxX(q) <= WorldWidth && 0.0 <= MinY(q) && MaxY(q) <= WorldHeight
  {
    car.Update(sinAngle, cosAngle);
    var corners := Placed(car.Body(sinAngle, cosAngle), car.posX, car.posY);
    track.Update(corners, now);
    inBound := ApplyBoundsPenalty(track, corners);
  }

  /** The circuit `main` builds. */
  const GameOuter: seq<Point> := [
    Point(149.0, 464.0), Point(133.0, 138.0), Point(157.0, 113.0), Point(553.0, 35.0), Point(693.0, 205.0),
    Point(981.0, 160.0), Point(1163.0, 251.0), Point(1093.0, 607.0), Point(448.0, 682.0), Point(163.0, 547.0)]
  const GameInner: seq<Point> := [
    Point(228.0, 486.0), Point(208.0, 210.0), Point(253.0, 158.0), Point(496.0, 113.0), Point(661.0, 274.0),
    Point(943.0, 238.0), Point(1041.0, 292.0), Point(1015.0, 544.0), Point(469.0, 597.0)]
  const GameStart: Line := Line(Point(145.0, 378.0), Point(221.0, 374.0))
  const GameCheckpoints: seq<Line> := [
    Line(Point(138.0, 242.0), Point(209.0, 237.0)),
    Line(Point(336.0, 77.0), Point(341.0, 142.0)),
    Line(Point(575.0, 62.0), Point(509.0, 126.0)),
    Line(Point(681.0, 192.0), Point(628.0, 241.0)),
    Line(Point(790.0, 189.0), Point(796.0, 254.0)),
    Line(Point(1034.0, 188.0), Point(992.0, 264.0)),
    Line(Point(1036.0, 335.0), Point(1142.0, 356.0)),
    Line(Point(1108.0, 529.0), Point(1018.0, 519.0)),
    Line(Point(919.0, 626.0), Point(907.0, 557.0)),
    Line(Point(482.0, 678.0), Point(491.0, 596.0)),
    Line(Point(297.0, 610.0), Point(340.0, 538.0))]


  /** The game's walls written out side by side, each ring closing on its
      first vertex. */
  const GameOuterWalls: seq<Line> := [
    Line(Point(149.0, 464.0), Point(133.0, 138.0)),
    Line(Point(133.0, 138.0), Point(157.0, 113.0)),
    Line(Point(157.0, 113.0), Point(553.0, 35.0)),
    Line(Point(553.0, 35.0), Point(693.0, 205.0)),
    Line(Point(693.0, 205.0), Point(981.0, 160.0)),
    Line(Point(981.0, 160.0), Point(1163.0, 251.0)),
    Line(Point(1163.0, 251.0), Point(1093.0, 607.0)),
    Line(Point(1093.0, 607.0), Point(448.0, 682.0)),
    Line(Point(448.0, 682.0), Point(163.0, 547.0)),
    Line(Point(163.0, 547.0), Point(149.0, 464.0))]
  const GameInnerWalls: seq<Line> := [
    Line(Point(228.0, 486.0), Point(208.0, 210.0)),
    Line(Point(208.0, 210.0), Point(253.0, 158.0)),
    Line(Point(253.0, 158.0), Point(496.0, 113.0)),
    Line(Point(496.0, 113.0), Point(661.0, 274.0)),
    Line(Point(661.0, 274.0), Point(943.0, 238.0)),
    Line(Point(943.0, 238.0), Point(1041.0, 292.0)),
    Line(Point(1041.0, 292.0), Point(1015.0, 544.0)),
    Line(Point(1015.0, 544.0), Point(469.0, 597.0)),
    Line(Point(469.0, 597.0), Point(228.0, 486.0))]

  lemma GameOuterWallsAre()
    ensures ClosedPolygon(GameOuter) == GameOuterWalls
  {
    var r := ClosedPolygon(GameOuter);
    assert |r| == |GameOuterWalls|;
    forall i | 0 <= i < |r|
      ensures r[i] == GameOuterWalls[i]
    {
    }
  }

  lemma GameInnerWallsAre()
    ensures ClosedPolygon(GameInner) == GameInnerWalls
  {
    var r := ClosedPolygon(GameInner);
    assert |r| == |GameInnerWalls|;
    forall i | 0 <= i < |r|
      ensures r[i] == GameInnerWalls[i]
    {
    }
  }

  /** The track `main` builds, with the clock reading `now`: its walls are
      the two lists above. */
  method NewGameTrack(now: real) returns (t: Track)
    ensures fresh(t) && t.Valid()
    ensures Walls(t) == GameOuterWalls + GameInnerWalls
    ensures t.startLine == GameStart && t.checkPoints == GameCheckpoints
    ensures t.State() == Initial(|GameCheckpoints|, now)
  {
    t := new Track(GameOuter, GameInner, GameStart, GameCheckpoints, now);
    GameOuterWallsAre();
    GameInnerWallsAre();
  }

  /** The corners of the car at its spawn point with heading 0. */
  const SpawnCorners: Corners :=
    Corners(Point(196.0, 412.0), Point(196.0, 458.0), Point(176.0, 458.0), Point(176.0, 412.0))

  /** These are the corners `get_corners` gives for the 20 by 46 car at the
      spawn point with heading 0, where a quarter turn minus the heading has
      cosine 0 and sine 1. */
  lemma SpawnPose()
    ensures SpawnCorners == Placed(CornerOffsets(0.0, 1.0, 20.0, 46.0), Spawn.x, Spawn.y)
  {
  }

  /** Spawn corner `c0`: its ray misses the outer wall and crosses only the
      first inner wall, an odd count. */
  lemma SpawnC0InBounds()
    ensures CornerInBounds(SpawnCorners.c0, GameOuterWalls + GameInnerWalls)
  {
    var ray := Line(RayOrigin, SpawnCorners.c0);
    assert forall j :: 0 <= j < |GameOuterWalls| ==> !LineIntersect(ray, GameOuterWalls[j]);
    CrossingsNone(ray, GameOuterWalls);
    assert forall j :: 1 <= j < |GameInnerWalls| ==> !LineIntersect(ray, GameInnerWalls[j]);
    assert LineIntersect(ray, GameInnerWalls[0]);
    CrossingsSingle(ray, GameInnerWalls, 0);
    CrossingsAppend(ray, GameOuterWalls, GameInnerWalls);
  }

  /** Spawn corner `c1`: its ray misses the outer wall and crosses only the
      first inner wall, an odd count. */
  lemma SpawnC1InBounds()
    ensures CornerInBounds(SpawnCorners.c1, GameOuterWalls + GameInnerWalls)
  {
    var ray := Line(RayOrigin, SpawnCorners.c1);
    assert forall j :: 0 <= j < |GameOuterWalls| ==> !LineIntersect(ray, GameOuterWalls[j]);
    CrossingsNone(ray, GameOuterWalls);
    assert forall j :: 1 <= j < |GameInnerWalls| ==> !LineIntersect(ray, GameInnerWalls[j]);
    assert LineIntersect(ray, GameInnerWalls[0]);
    CrossingsSingle(ray, GameInnerWalls, 0);
    CrossingsAppend(ray, GameOuterWalls, GameInnerWalls);
  }

  /** Spawn corner `c2`: its ray misses the outer wall and crosses only the
      first inner wall, an odd count. */
  lemma SpawnC2InBounds()
    ensures CornerInBounds(SpawnCorners.c2, GameOuterWalls + GameInnerWalls)
  {
    var ray := Line(RayOrigin, SpawnCorners.c2);
    assert forall j :: 0 <= j < |GameOuterWalls| ==> !LineIntersect(ray, GameOuterWalls[j]);
    CrossingsNone(ray, GameOuterWalls);
    assert forall j :: 1 <= j < |GameInnerWalls| ==> !LineIntersect(ray, GameInnerWalls[j]);
    assert LineIntersect(ray, GameInnerWalls[0]);
    CrossingsSingle(ray, GameInnerWalls, 0);
    CrossingsAppend(ray, GameOuterWalls, GameInnerWalls);
  }

  /** Spawn corner `c3`: its ray misses the outer wall and crosses only the
      first inner wall, an odd count. */
  lemma SpawnC3InBounds()
    ensures CornerInBounds(SpawnCorners.c3, GameOuterWalls + GameInnerWalls)
  {
    var ray := Line(RayOrigin, SpawnCorners.c3);
    assert forall j :: 0 <= j < |GameOuterWalls| ==> !LineIntersect(ray, GameOuterWalls[j]);
    CrossingsNone(ray, GameOuterWalls);
    assert forall j :: 1 <= j < |GameInnerWalls| ==> !LineIntersect(ray, GameInnerWalls[j]);
    assert LineIntersect(ray, GameInnerWalls[0]);
    CrossingsSingle(ray, GameInnerWalls, 0);
    CrossingsAppend(ray, GameOuterWalls, GameInnerWalls);
  }

  /** A corner at the window's origin, outside the outer wall: its ray
      crosses one outer and one inner wall, an even count, so it is out of
      bounds. */
  lemma OriginCornerIsOut()
    ensures Crossings(Line(RayOrigin, Point(0.0, 0.0)), GameOuterWalls + GameInnerWalls) == 2
    ensures !CornerInBounds(Point(0.0, 0.0), GameOuterWalls + GameInnerWalls)
  {
    var ray := Line(RayOrigin, Point(0.0, 0.0));
    assert forall j :: 0 <= j < |GameOuterWalls| && j != 2 ==> !LineIntersect(ray, GameOuterWalls[j]);
    assert LineIntersect(ray, GameOuterWalls[2]);
    CrossingsSingle(ray, GameOuterWalls, 2);
    assert forall j :: 0 <= j < |GameInnerWalls| && j != 2 ==> !LineIntersect(ray, GameInnerWalls[j]);
    assert LineIntersect(ray, GameInnerWalls[2]);
    CrossingsSingle(ray, GameInnerWalls, 2);
    CrossingsAppend(ray, GameOuterWalls, GameInnerWalls);
  }

  /** No edge of the car at its spawn pose touches the start line, so the
      first frame does not start the lap clock. */
  lemma SpawnClearOfStart()
    ensures !AnyHit(GameStart, CarEdges(SpawnCorners))
  {
    var e := CarEdges(SpawnCorners);
    assert forall k :: 0 <= k < |e| ==> !LineIntersect(GameStart, e[k]);
    AnyHitExists(GameStart, e);
  }

  /** On the game's circuit, the car at its spawn pose is in bounds. */
  lemma SpawnIsInBounds()
    ensures InBounds(GameOuterWalls + GameInnerWalls, SpawnCorners.Seq())
  {
    SpawnC0InBounds();
    SpawnC1InBounds();
    SpawnC2InBounds();
    SpawnC3InBounds();
  }
}
