/** The track object: fixed wall, start-line and checkpoint geometry, and the
    lap state its methods update in place. Each method is proved to change the
    state exactly as the matching definition of module Laps says, so the
    properties proved there hold of the object. The clock is the `now`
    argument, read once per call. */
module Circuit {
  import opened Geometry
  import opened Vehicle
  import opened Laps

  class Track {
    const outerLines: seq<Line>
    const innerLines: seq<Line>
    const startLine: Line
    const checkPoints: seq<Line>
    var checks: seq<bool>
    var lapStart: real
    var bestTime: Best
    var started: bool
    var times: seq<real>
    var latest: int

    /** The lap state as a value. */
    ghost function State(): Lap
      reads this
    {
      Lap(checks, started, lapStart, bestTime, times, latest)
    }

    ghost predicate Valid()
      reads this
    {
      |checks| == |checkPoints| && Inv(State())
    }

    /** `Track(outer, inner, start, check_point)`: both walls are closed
        polygons, which needs at least one vertex each. */
    constructor (outer: seq<Point>, inner: seq<Point>, start: Line, checkPoint: seq<Line>, now: real)
      requires |outer| > 0 && |inner| > 0
      ensures Valid()
      ensures outerLines == ClosedPolygon(outer) && innerLines == ClosedPolygon(inner)
      ensures startLine == start && checkPoints == checkPoint
      ensures State() == Initial(|checkPoint|, now)
    {
      outerLines := ClosedPolygon(outer);
      innerLines := ClosedPolygon(inner);
      startLine := start;
      checkPoints := checkPoint;
      checks := AllFalse(|checkPoint|);
      lapStart := now;
      bestTime := Inf;
      started := false;
      times := [];
      latest := -1;
    }

    /** `reset()`: abandons the lap in progress; ledger and best time stay. */
    method Reset(now: real)
      requires Valid()
      modifies this
      ensures Valid() && State() == Laps.Reset(old(State()), now)
    {
      checks := AllFalse(|checks|);
      lapStart := now;
      started := false;
    }

    /** `get_lap_time()`. */
    function GetLapTime(now: real): (t: real)
      reads this
      ensures !started ==> t == 0.0
      ensures started ==> t == now - lapStart
      ensures t == LapTime(State(), now)
    {
      if started then now - lapStart else 0.0
    }

    /** `update(car)`, with the car given by its corners: the checkpoint
        loop, then the start-line loop. */
    method Update(car: Corners, now: real)
      requires Valid()
      modifies this
      ensures Valid()
      ensures State() == Laps.Update(old(State()), checkPoints, startLine, CarEdges(car), now)
    {
      var edges := CarEdges(car);
      SweepCheckpoints(edges);
      CrossStartLine(edges, now);
      UpdateKeepsInv(old(State()), checkPoints, startLine, edges, now);
    }

    /** The checkpoint loop of `update`. */
    method SweepCheckpoints(edges: seq<Line>)
      requires |checks| == |checkPoints|
      modifies this`checks
      ensures checks == Sweep(old(checks), checkPoints, edges)
    {
      var n := |checkPoints|;
      var num := 0;
      while num < n
        invariant 0 <= num <= n && |checks| == n
        invariant forall i :: 0 <= i < num ==> checks[i] == SweptAt(old(checks), checkPoints, edges, i)
        invariant forall i :: num <= i < n ==> checks[i] == old(checks)[i]
      {
        MarkCheckpoint(num, edges);
        num := num + 1;
      }
    }

    /** One pass of the checkpoint loop: the car edges against gate `num`. */
    method MarkCheckpoint(num: nat, edges: seq<Line>)
      requires |checks| == |checkPoints| && num < |checks|
      modifies this`checks
      ensures |checks| == |checkPoints|
      ensures checks == old(checks)[num := old(checks)[num]
                || (AnyHit(checkPoints[num], edges) && (num == 0 || old(checks)[num - 1]))]
    {
      ghost var prevSet := num == 0 || checks[num - 1];
      var j := 0;
      while j < |edges|
        invariant 0 <= j <= |edges|
        invariant checks == old(checks)[num := old(checks)[num]
                    || (AnyHit(checkPoints[num], edges[..j]) && prevSet)]
      {
        assert edges[..j + 1][..j] == edges[..j];
        if LineIntersect(checkPoints[num], edges[j]) {
          if num == 0 || checks[num - 1] {
            checks := checks[num := true];
          }
        }
        j := j + 1;
      }
      assert edges[..j] == edges;
    }

    /** The start-line loop of `update`. */
    method CrossStartLine(edges: seq<Line>, now: real)
      modifies this
      ensures State() == StartPhase(old(State()), startLine, edges, now)
    {
      var k := 0;
      while k < |edges|
        invariant 0 <= k <= |edges|
        invariant State() == StartPhase(old(State()), startLine, edges[..k], now)
      {
        assert edges[..k + 1][..k] == edges[..k];
        if LineIntersect(startLine, edges[k]) {
          if AllSet(checks) {
            checks := AllFalse(|checks|);
            times := times + [GetLapTime(now)];
            latest := latest + 1;
            if Faster(GetLapTime(now), bestTime) {
              bestTime := Fin(GetLapTime(now));
            }
            lapStart := now;
          } else if !started {
            started := true;
            lapStart := now;
          }
        }
        k := k + 1;
      }
      assert edges[..k] == edges;
    }
  }
}
