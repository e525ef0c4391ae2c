/** Plane geometry of the racing game: points, segments (`Line`), the slope and
    intercept of a segment, the orientation test behind `line_intersect`, the
    loose point-proximity test `collide_point`, and the closed polygon a track
    wall is built from. Coordinates are exact reals. */
module Geometry {

  datatype Point = Point(x: real, y: real)

  /** A segment from `start` to `end`. The source's cosmetic stroke width is
      only used for drawing and is not kept. */
  datatype Line = Line(start: Point, end: Point)

  /** The fallback slope `gradient` returns for a vertical segment. */
  const VerticalGradient: real := -2.809

  /** The vertical tolerance of `collide_point`. */
  const PointTolerance: real := 100.0

  /** Slope of the segment; a vertical segment gets the fallback constant
      instead of a division fault. */
  function Gradient(l: Line): (g: real)
    ensures l.end.x == l.start.x ==> g == VerticalGradient
    ensures l.end.x != l.start.x ==> g * (l.end.x - l.start.x) == l.end.y - l.start.y
  {
    if l.end.x - l.start.x == 0.0 then VerticalGradient
    else (l.end.y - l.start.y) / (l.end.x - l.start.x)
  }

  /** Where the segment's (fallback-sloped) line meets x = 0. */
  function YIntercept(l: Line): (b: real)
    ensures l.start.y == Gradient(l) * l.start.x + b
    ensures l.end.x != l.start.x ==> l.end.y == Gradient(l) * l.end.x + b
  {
    var g := Gradient(l);
    var b := l.start.y - g * l.start.x;
    assert l.end.x != l.start.x ==> g * l.end.x + b == l.start.y + g * (l.end.x - l.start.x);
    b
  }

  /** Twice the signed area of the triangle a, b, c: positive when c lies to
      the left of the directed line from a to b (in y-up axes). */
  function Cross(a: Point, b: Point, c: Point): real
  {
    (b.x - a.x) * (c.y - a.y) - (b.y - a.y) * (c.x - a.x)
  }

  /** The source's `__ccw(A, B, C)` comparison. */
  function Ccw(a: Point, b: Point, c: Point): (r: bool)
    ensures r <==> Cross(a, b, c) > 0.0
  {
    (c.y - a.y) * (b.x - a.x) > (b.y - a.y) * (c.x - a.x)
  }

  /** `line1.line_intersect(line2)`: each segment's endpoints lie on different
      sides (in the strict-versus-non-strict sense of `Ccw`) of the other. */
  function LineIntersect(l1: Line, l2: Line): (r: bool)
    ensures r <==> && (Cross(l2.start, l2.end, l1.start) > 0.0) != (Cross(l2.start, l2.end, l1.end) > 0.0)
                   && (Cross(l1.start, l1.end, l2.start) > 0.0) != (Cross(l1.start, l1.end, l2.end) > 0.0)
  {
    var a, b, c, d := l1.start, l1.end, l2.start, l2.end;
    Ccw(a, c, d) != Ccw(b, c, d) && Ccw(a, b, c) != Ccw(a, b, d)
  }

  lemma CrossCyclic(a: Point, b: Point, c: Point)
    ensures Cross(a, b, c) == Cross(b, c, a) == Cross(c, a, b)
  {
    assert Cross(a, b, c) == b.x * c.y - b.x * a.y - a.x * c.y - b.y * c.x + b.y * a.x + a.y * c.x;
    assert Cross(b, c, a) == c.x * a.y - c.x * b.y - b.x * a.y - c.y * a.x + c.y * b.x + b.y * a.x;
    assert Cross(c, a, b) == a.x * b.y - a.x * c.y - c.x * b.y - a.y * b.x + a.y * c.x + c.y * b.x;
  }

  /** The crossing test does not depend on which segment is asked: the four
      orientation tests of one order are those of the other, permuted. */
  lemma {:induction false} IntersectSymmetric(l1: Line, l2: Line)
    ensures LineIntersect(l1, l2) == LineIntersect(l2, l1)
  {
    var a, b, c, d := l1.start, l1.end, l2.start, l2.end;
    CrossCyclic(c, a, b);
    CrossCyclic(d, a, b);
    CrossCyclic(c, d, a);
    CrossCyclic(c, d, b);
  }

  /** A segment never crosses itself: every orientation test it asks is of a
      degenerate triangle. */
  lemma NoSelfIntersect(l: Line)
    ensures !LineIntersect(l, l)
  {
    assert Cross(l.start, l.start, l.end) == 0.0;
    assert Cross(l.end, l.start, l.end) == 0.0;
  }

  /** The point a fraction `t` of the way along the segment. */
  function Along(l: Line, t: real): Point
  {
    Point(l.start.x + t * (l.end.x - l.start.x), l.start.y + t * (l.end.y - l.start.y))
  }

  /** Cross product of the two segments' direction vectors: zero iff parallel. */
  function Direction(l1: Line, l2: Line): real
  {
    (l1.end.x - l1.start.x) * (l2.end.y - l2.start.y) - (l1.end.y - l1.start.y) * (l2.end.x - l2.start.x)
  }

  lemma CrossAffine(c: Point, d: Point, l: Line, t: real)
    ensures Cross(c, d, Along(l, t)) == (1.0 - t) * Cross(c, d, l.start) + t * Cross(c, d, l.end)
  {
    var p := Along(l, t);
    var ex, ey := d.x - c.x, d.y - c.y;
    assert Cross(c, d, p) == ex * (p.y - c.y) - ey * (p.x - c.x);
    assert p.y - c.y == (1.0 - t) * (l.start.y - c.y) + t * (l.end.y - c.y);
    assert p.x - c.x == (1.0 - t) * (l.start.x - c.x) + t * (l.end.x - c.x);
  }

  lemma OnOwnLine(l: Line, s: real)
    ensures Cross(l.start, l.end, Along(l, s)) == 0.0
  {
    var ex, ey := l.end.x - l.start.x, l.end.y - l.start.y;
    assert Cross(l.start, l.end, Along(l, s)) == ex * (s * ey) - ey * (s * ex);
  }

  /** If a convex combination of u and v with weight strictly inside (0, 1)
      vanishes and they are not both zero, exactly one of them is positive. */
  lemma OppositeSigns(u: real, v: real, t: real)
    requires 0.0 < t < 1.0
    requires (1.0 - t) * u + t * v == 0.0
    requires u != 0.0 || v != 0.0
    ensures (u > 0.0) != (v > 0.0)
  {
    if u > 0.0 {
      assert (1.0 - t) * u > 0.0;
      assert t * v < 0.0;
    } else if u < 0.0 {
      assert (1.0 - t) * u < 0.0;
      assert t * v > 0.0;
    } else {
      assert t * v == 0.0;
    }
  }

  /** Both endpoints of `l` on the line through c and d make `l` parallel to it. */
  lemma BothOnLineParallel(l: Line, c: Point, d: Point)
    requires Cross(c, d, l.start) == 0.0 && Cross(c, d, l.end) == 0.0
    ensures Direction(l, Line(c, d)) == 0.0
  {
    assert Direction(l, Line(c, d)) == Cross(c, d, l.start) - Cross(c, d, l.end);
  }

  /** Two non-parallel segments that meet at a point strictly inside both are
      reported as intersecting. */
  lemma {:induction false} ProperCrossingIntersects(l1: Line, l2: Line, t: real, s: real)
    requires 0.0 < t < 1.0 && 0.0 < s < 1.0
    requires Along(l1, t) == Along(l2, s)
    requires Direction(l1, l2) != 0.0
    ensures LineIntersect(l1, l2)
  {
    var a, b, c, d := l1.start, l1.end, l2.start, l2.end;
    // a and b on different sides of the line c-d
    CrossAffine(c, d, l1, t);
    OnOwnLine(l2, s);
    if Cross(c, d, a) == 0.0 && Cross(c, d, b) == 0.0 {
      BothOnLineParallel(l1, c, d);
      assert false;
    }
    OppositeSigns(Cross(c, d, a), Cross(c, d, b), t);
    CrossCyclic(a, c, d);
    CrossCyclic(b, c, d);
    // c and d on different sides of the line a-b
    CrossAffine(a, b, l2, s);
    OnOwnLine(l1, t);
    assert Direction(l2, l1) == -Direction(l1, l2);
    if Cross(a, b, c) == 0.0 && Cross(a, b, d) == 0.0 {
      BothOnLineParallel(l2, a, b);
      assert false;
    }
    OppositeSigns(Cross(a, b, c), Cross(a, b, d), s);
  }

  /** A positive product has factors of the same strict sign. */
  lemma ProductPositive(u: real, v: real)
    requires u * v > 0.0
    ensures (u > 0.0 && v > 0.0) || (u < 0.0 && v < 0.0)
  {
  }

  /** A segment lying strictly on one side of the other's line is never
      reported as crossing it, whichever segment is on which side. */
  lemma {:induction false} SameSideNoIntersect(l1: Line, l2: Line)
    requires Cross(l2.start, l2.end, l1.start) * Cross(l2.start, l2.end, l1.end) > 0.0
          || Cross(l1.start, l1.end, l2.start) * Cross(l1.start, l1.end, l2.end) > 0.0
    ensures !LineIntersect(l1, l2)
  {
    var a, b, c, d := l1.start, l1.end, l2.start, l2.end;
    CrossCyclic(a, c, d);
    CrossCyclic(b, c, d);
    if Cross(c, d, a) * Cross(c, d, b) > 0.0 {
      ProductPositive(Cross(c, d, a), Cross(c, d, b));
    } else {
      ProductPositive(Cross(a, b, c), Cross(a, b, d));
    }
  }

  /** Touching is treated asymmetrically, as the strict `>` of `Ccw` makes it:
      a segment starting at a point strictly inside `l1` and ending at `d`
      off its line is reported as crossing `l1` exactly when `d` lies to the
      left of `l1`; the mirror image on the right is not. */
  lemma {:induction false} TouchingIsOneSided(l1: Line, t: real, d: Point)
    requires 0.0 < t < 1.0 && Cross(l1.start, l1.end, d) != 0.0
    ensures LineIntersect(l1, Line(Along(l1, t), d)) <==> Cross(l1.start, l1.end, d) > 0.0
  {
    var a, b, p := l1.start, l1.end, Along(l1, t);
    // p is on l1's line, so only d decides the test against l1's line
    OnOwnLine(l1, t);
    // a and b are on strictly different sides of the line p-d
    CrossAffine(p, d, l1, t);
    assert Cross(p, d, p) == 0.0;
    assert Direction(l1, Line(p, d)) == Cross(p, d, a) - Cross(p, d, b);
    assert Cross(a, b, d) == Direction(l1, Line(p, d)) + Cross(a, b, p);
    OppositeSigns(Cross(p, d, a), Cross(p, d, b), t);
    CrossCyclic(a, p, d);
    CrossCyclic(b, p, d);
  }

  function Min(u: real, v: real): real { if u < v then u else v }
  function Max(u: real, v: real): real { if u < v then v else u }

  /** The point lies strictly inside the segment's axis-aligned bounding box. */
  predicate StrictlyInBox(l: Line, x: real, y: real)
  {
    Min(l.start.x, l.end.x) < x < Max(l.start.x, l.end.x)
    && Min(l.start.y, l.end.y) < y < Max(l.start.y, l.end.y)
  }

  /** `collide_point(x, y)`: strictly inside the bounding box and less than the
      tolerance above the segment's line. The offset is signed (no absolute
      value), so every point of the box below the line passes. */
  function CollidePoint(l: Line, x: real, y: real): (r: bool)
    ensures r ==> StrictlyInBox(l, x, y)
    ensures l.start.x == l.end.x || l.start.y == l.end.y ==> !r
  {
    StrictlyInBox(l, x, y) && y - Gradient(l) * x - YIntercept(l) < PointTolerance
  }

  /** The signed offset `collide_point` compares is the height of the point
      above the segment's line. */
  lemma {:induction false} OffsetIsHeightAboveLine(l: Line, x: real, y: real)
    requires l.start.x != l.end.x
    ensures y - Gradient(l) * x - YIntercept(l)
         == y - (l.start.y + (l.end.y - l.start.y) * (x - l.start.x) / (l.end.x - l.start.x))
  {
    var g, dx, dy := Gradient(l), l.end.x - l.start.x, l.end.y - l.start.y;
    assert g == dy / dx;
    assert dy * (x - l.start.x) / dx == g * (x - l.start.x);
  }

  /** A product with a non-zero factor vanishes only if the other factor does. */
  lemma ZeroProduct(a: real, b: real)
    requires a != 0.0 && a * b == 0.0
    ensures b == 0.0
  {
  }

  /** Every point of the segment's line inside its box is accepted: the
      offset `collide_point` compares is zero there. */
  lemma {:induction false} OnSegmentCollides(l: Line, p: Point)
    requires StrictlyInBox(l, p.x, p.y)
    requires Cross(l.start, l.end, p) == 0.0
    ensures CollidePoint(l, p.x, p.y)
  {
    var g, b := Gradient(l), YIntercept(l);
    var ex, ey := l.end.x - l.start.x, l.end.y - l.start.y;
    var dx, dy := p.x - l.start.x, p.y - l.start.y;
    var off := dy - g * dx;
    assert p.y - g * p.x - b == off;
    assert ey == g * ex;
    assert ey * dx == ex * (g * dx);
    assert ex * off == Cross(l.start, l.end, p);
    ZeroProduct(ex, off);
  }

  /** Inside the box, a point at or below the line always collides and a point
      at least the tolerance above it never does. */
  lemma {:induction false} CollideByHeight(l: Line, x: real, y: real)
    requires StrictlyInBox(l, x, y)
    ensures y <= Gradient(l) * x + YIntercept(l) ==> CollidePoint(l, x, y)
    ensures y >= Gradient(l) * x + YIntercept(l) + PointTolerance ==> !CollidePoint(l, x, y)
  {
  }

  /** Some segment of `segs` is crossed by `target`
      (`target.line_intersect(seg)`). */
  function AnyHit(target: Line, segs: seq<Line>): (r: bool)
    ensures r ==> |segs| > 0
    ensures forall k :: 0 <= k < |segs| && LineIntersect(target, segs[k]) ==> r
  {
    if |segs| == 0 then false
    else
      var init := segs[..|segs| - 1];
      assert forall k :: 0 <= k < |init| ==> init[k] == segs[k];
      AnyHit(target, init) || LineIntersect(target, segs[|segs| - 1])
  }

  lemma {:induction false} AnyHitExists(target: Line, segs: seq<Line>)
    ensures AnyHit(target, segs) <==> exists k :: 0 <= k < |segs| && LineIntersect(target, segs[k])
  {
    if |segs| > 0 {
      var init := segs[..|segs| - 1];
      AnyHitExists(target, init);
      assert forall k :: 0 <= k < |init| ==> init[k] == segs[k];
    }
  }

  /** How many segments of `segs` `target` crosses. */
  function Crossings(target: Line, segs: seq<Line>): (n: nat)
    ensures n <= |segs|
    ensures n > 0 <==> AnyHit(target, segs)
  {
    if |segs| == 0 then 0
    else Crossings(target, segs[..|segs| - 1]) + (if LineIntersect(target, segs[|segs| - 1]) then 1 else 0)
  }

  /** Counting over two lists of segments one after the other adds up. */
  lemma {:induction false} CrossingsAppend(target: Line, a: seq<Line>, b: seq<Line>)
    ensures Crossings(target, a + b) == Crossings(target, a) + Crossings(target, b)
  {
    if |b| == 0 {
      assert a + b == a;
    } else {
      var b' := b[..|b| - 1];
      CrossingsAppend(target, a, b');
      assert (a + b)[..|a + b| - 1] == a + b';
      assert (a + b)[|a + b| - 1] == b[|b| - 1];
    }
  }

  /** A target that crosses no segment has no crossings. */
  lemma CrossingsNone(target: Line, segs: seq<Line>)
    requires forall j :: 0 <= j < |segs| ==> !LineIntersect(target, segs[j])
    ensures Crossings(target, segs) == 0
  {
    AnyHitExists(target, segs);
  }

  /** A target that crosses exactly the segment at index `i` has one crossing. */
  lemma {:induction false} CrossingsSingle(target: Line, segs: seq<Line>, i: nat)
    requires i < |segs| && LineIntersect(target, segs[i])
    requires forall j :: 0 <= j < |segs| && j != i ==> !LineIntersect(target, segs[j])
    ensures Crossings(target, segs) == 1
  {
    var n := |segs| - 1;
    var init := segs[..n];
    assert forall j :: 0 <= j < n ==> init[j] == segs[j];
    if i == n {
      CrossingsNone(target, init);
    } else {
      CrossingsSingle(target, init, i);
    }
  }

  /** A segment of zero length crosses nothing. */
  lemma {:induction false} PointCrossesNothing(p: Point, segs: seq<Line>)
    ensures Crossings(Line(p, p), segs) == 0
  {
    if |segs| > 0 {
      PointCrossesNothing(p, segs[..|segs| - 1]);
    }
  }

  /** The open chain of segments joining consecutive points. */
  function Chain(pts: seq<Point>): (r: seq<Line>)
    ensures |r| == if |pts| == 0 then 0 else |pts| - 1
    ensures forall i :: 0 <= i < |r| ==> r[i] == Line(pts[i], pts[i + 1])
  {
    if |pts| < 2 then [] else [Line(pts[0], pts[1])] + Chain(pts[1..])
  }

  /** The wall segments of a closed polygon: consecutive points joined, and the
      last point joined back to the first. */
  function ClosedPolygon(pts: seq<Point>): (r: seq<Line>)
    requires |pts| > 0
    ensures |r| == |pts|
    ensures forall i :: 0 <= i < |pts| - 1 ==> r[i] == Line(pts[i], pts[i + 1])
    ensures r[|pts| - 1] == Line(pts[|pts| - 1], pts[0])
  {
    Chain(pts) + [Line(pts[|pts| - 1], pts[0])]
  }
}
