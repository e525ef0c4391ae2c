/** The lap state machine of the circuit as values: the state the track
    object holds, what one `update` call does to it (first the checkpoint
    sweep, then the start-line test), what `reset` does, and the invariants
    these keep. The `Track` class of module Circuit is proved to follow these
    definitions. */
module Laps {
  import opened Geometry

  /** The best lap time, which starts out as infinity. */
  datatype Best = Inf | Fin(secs: real)

  /** `t < best_time`; every finite time beats infinity. */
  predicate Faster(t: real, b: Best)
  {
    b.Inf? || t < b.secs
  }

  /** `b1 <= b2` in the extended reals. */
  predicate NoWorse(b1: Best, b2: Best)
  {
    b2.Inf? || (b1.Fin? && b1.secs <= b2.secs)
  }

  /** The mutable part of a track: checkpoint flags, whether a lap is being
      timed, when it started, the best time, the ledger of lap times and the
      index of the latest lap (-1 before the first). */
  datatype Lap = Lap(checks: seq<bool>, started: bool, lapStart: real, best: Best, times: seq<real>, latest: int)

  function AllFalse(n: nat): (r: seq<bool>)
    ensures |r| == n && forall i :: 0 <= i < n ==> !r[i]
  {
    seq(n, _ => false)
  }

  /** Python's `all(checks)`: vacuously true of no checkpoints. */
  predicate AllSet(c: seq<bool>)
  {
    forall i :: 0 <= i < |c| ==> c[i]
  }

  /** Flags have the shape true..true false..false. */
  predicate Prefixed(c: seq<bool>)
  {
    forall i :: 0 < i < |c| ==> (c[i] ==> c[i - 1])
  }

  /** Smallest lap time of a non-empty ledger. */
  function MinOf(ts: seq<real>): (m: real)
    requires |ts| > 0
    ensures forall i :: 0 <= i < |ts| ==> m <= ts[i]
    ensures exists i :: 0 <= i < |ts| && m == ts[i]
  {
    if |ts| == 1 then ts[0]
    else
      var rest := MinOf(ts[..|ts| - 1]);
      assert forall i :: 0 <= i < |ts| - 1 ==> ts[..|ts| - 1][i] == ts[i];
      if rest < ts[|ts| - 1] then rest else ts[|ts| - 1]
  }

  /** The invariant every reachable state keeps. */
  predicate Inv(s: Lap)
  {
    && Prefixed(s.checks)
    && s.latest == |s.times| - 1
    && (|s.times| == 0 ==> s.best == Inf)
    && (|s.times| > 0 ==> s.best == Fin(MinOf(s.times)))
  }

  /** State right after construction with `n` checkpoints at clock `now`. */
  function Initial(n: nat, now: real): (s: Lap)
    ensures Inv(s) && s.checks == AllFalse(n) && s.lapStart == now
    ensures s.times == [] && s.best == Inf && s.latest == -1 && !s.started
  {
    Lap(AllFalse(n), false, now, Inf, [], -1)
  }

  /** `get_lap_time()` with the clock reading `now`. */
  function LapTime(s: Lap, now: real): (t: real)
    ensures !s.started ==> t == 0.0
    ensures s.started ==> s.lapStart + t == now
  {
    if s.started then now - s.lapStart else 0.0
  }

  /** `reset()`: flags cleared, timer restarted and stopped; ledger kept. */
  function Reset(s: Lap, now: real): (r: Lap)
    ensures r.checks == AllFalse(|s.checks|) && !r.started && r.lapStart == now
    ensures r.times == s.times && r.best == s.best && r.latest == s.latest
  {
    s.(checks := AllFalse(|s.checks|), lapStart := now, started := false)
  }

  lemma ResetKeepsInv(s: Lap, now: real)
    requires Inv(s)
    ensures Inv(Reset(s, now)) && LapTime(Reset(s, now), now) == 0.0
  {
  }

  /** The checkpoint loop of `update`, flag by flag: checkpoint `i` ends up
      set if it was set, or if an edge crosses its gate and it is the first
      checkpoint or checkpoint `i - 1` has (by then) been set. */
  function SweptAt(c: seq<bool>, cps: seq<Line>, edges: seq<Line>, i: nat): bool
    requires |c| == |cps| && i < |c|
  {
    c[i] || (AnyHit(cps[i], edges) && (i == 0 || SweptAt(c, cps, edges, i - 1)))
  }

  /** All flags after the checkpoint loop. */
  function Sweep(c: seq<bool>, cps: seq<Line>, edges: seq<Line>): (r: seq<bool>)
    requires |c| == |cps|
    ensures |r| == |c| && forall i :: 0 <= i < |c| ==> r[i] == SweptAt(c, cps, edges, i)
  {
    seq(|c|, i requires 0 <= i < |c| => SweptAt(c, cps, edges, i))
  }

  /** Sweeping keeps the flags in prefix form, never clears a flag, and sets
      only flags whose gate some edge crosses. */
  lemma SweepFacts(c: seq<bool>, cps: seq<Line>, edges: seq<Line>)
    requires |c| == |cps|
    ensures Prefixed(c) ==> Prefixed(Sweep(c, cps, edges))
    ensures forall i :: 0 <= i < |c| && c[i] ==> Sweep(c, cps, edges)[i]
    ensures forall i :: 0 <= i < |c| && Sweep(c, cps, edges)[i] && !c[i] ==> AnyHit(cps[i], edges)
  {
  }

  /** The lap-recording branch of the start-line test. The clock is read
      once: the ledger entry, the best-time comparison and the new lap origin
      all use `now`. */
  function RecordLap(s: Lap, now: real): (r: Lap)
    ensures r.times == s.times + [LapTime(s, now)]
    ensures r.best == if Faster(LapTime(s, now), s.best) then Fin(LapTime(s, now)) else s.best
    ensures r.checks == AllFalse(|s.checks|) && r.latest == s.latest + 1
    ensures r.lapStart == now && r.started == s.started
  {
    var t := LapTime(s, now);
    s.(checks := AllFalse(|s.checks|),
       times := s.times + [t],
       latest := s.latest + 1,
       best := if Faster(t, s.best) then Fin(t) else s.best,
       lapStart := now)
  }

  /** One car edge crossing the start line: complete the lap if every flag is
      set, otherwise start the timer if it is not running. */
  function CrossStart(s: Lap, now: real): (r: Lap)
    ensures AllSet(s.checks) ==> && r.times == s.times + [LapTime(s, now)]
                                 && r.checks == AllFalse(|s.checks|) && r.lapStart == now
                                 && r.started == s.started
    ensures !AllSet(s.checks) ==> && r.times == s.times && r.checks == s.checks
                                  && r.best == s.best && r.latest == s.latest && r.started
                                  && r.lapStart == if s.started then s.lapStart else now
  {
    if AllSet(s.checks) then RecordLap(s, now)
    else if !s.started then s.(started := true, lapStart := now)
    else s
  }

  /** The start-line loop of `update`, over the car edges in order. */
  function StartPhase(s: Lap, start: Line, edges: seq<Line>, now: real): (r: Lap)
    ensures |r.checks| == |s.checks|
  {
    if |edges| == 0 then s
    else
      var p := StartPhase(s, start, edges[..|edges| - 1], now);
      if LineIntersect(start, edges[|edges| - 1]) then CrossStart(p, now) else p
  }

  /** One `update(car)` call, given the car's edges and the clock. */
  function Update(s: Lap, cps: seq<Line>, start: Line, edges: seq<Line>, now: real): (r: Lap)
    requires |s.checks| == |cps|
    ensures |r.checks| == |cps|
  {
    StartPhase(s.(checks := Sweep(s.checks, cps, edges)), start, edges, now)
  }

  lemma MinOfAppend(ts: seq<real>, t: real)
    requires |ts| > 0
    ensures MinOf(ts + [t]) == if t < MinOf(ts) then t else MinOf(ts)
  {
    assert (ts + [t])[..|ts|] == ts;
  }

  lemma {:induction false} CrossStartKeepsInv(s: Lap, now: real)
    requires Inv(s)
    ensures Inv(CrossStart(s, now))
  {
    if AllSet(s.checks) {
      var t := LapTime(s, now);
      if |s.times| > 0 {
        MinOfAppend(s.times, t);
      } else {
        assert s.times + [t] == [t];
      }
    }
  }

  /** The start-line phase keeps the invariant, never shortens the ledger,
      never raises the best time, only ever clears flags all at once. */
  lemma {:induction false} StartPhaseKeeps(s: Lap, start: Line, edges: seq<Line>, now: real)
    ensures var r := StartPhase(s, start, edges, now);
            && (Inv(s) ==> Inv(r))
            && |s.times| <= |r.times| && r.times[..|s.times|] == s.times
            && NoWorse(r.best, s.best)
            && (r.checks == s.checks || r.checks == AllFalse(|s.checks|))
            && (|r.times| > |s.times| ==> r.lapStart == now)
  {
    if |edges| > 0 {
      var p := StartPhase(s, start, edges[..|edges| - 1], now);
      StartPhaseKeeps(s, start, edges[..|edges| - 1], now);
      if Inv(s) {
        CrossStartKeepsInv(p, now);
      }
      assert (p.times + [LapTime(p, now)])[..|s.times|] == p.times[..|s.times|];
    }
  }

  /** With at least one checkpoint, the start-line phase records exactly one
      lap when some edge crosses the line and every flag was set, and none
      otherwise; after a recorded lap every flag is clear. No crossing edge
      leaves the state as it was. */
  lemma {:induction false} StartPhaseLaps(s: Lap, start: Line, edges: seq<Line>, now: real)
    requires |s.checks| > 0
    ensures var r := StartPhase(s, start, edges, now);
            && (!AnyHit(start, edges) ==> r == s)
            && |r.times| == |s.times| + (if AnyHit(start, edges) && AllSet(s.checks) then 1 else 0)
            && (|r.times| > |s.times| ==> r.checks == AllFalse(|s.checks|))
  {
    if |edges| > 0 {
      var init := edges[..|edges| - 1];
      var p := StartPhase(s, start, init, now);
      StartPhaseLaps(s, start, init, now);
      StartPhaseKeeps(s, start, init, now);
      assert !AllSet(AllFalse(|s.checks|)) by {
        assert !AllFalse(|s.checks|)[0];
      }
    }
  }

  /** With no checkpoints `all([])` holds, so every crossing edge records a
      lap. */
  lemma {:induction false} StartPhaseNoCheckpoints(s: Lap, start: Line, edges: seq<Line>, now: real)
    requires |s.checks| == 0
    ensures |StartPhase(s, start, edges, now).times| == |s.times| + Crossings(start, edges)
  {
    if |edges| > 0 {
      var p := StartPhase(s, start, edges[..|edges| - 1], now);
      StartPhaseNoCheckpoints(s, start, edges[..|edges| - 1], now);
      StartPhaseKeeps(s, start, edges[..|edges| - 1], now);
      assert AllSet(p.checks);
    }
  }

  /** `update` keeps the invariant and the number of flags. */
  lemma UpdateKeepsInv(s: Lap, cps: seq<Line>, start: Line, edges: seq<Line>, now: real)
    requires |s.checks| == |cps| && Inv(s)
    ensures Inv(Update(s, cps, start, edges, now))
    ensures |Update(s, cps, start, edges, now).checks| == |cps|
  {
    SweepFacts(s.checks, cps, edges);
    StartPhaseKeeps(s.(checks := Sweep(s.checks, cps, edges)), start, edges, now);
  }

  /** The ledger only grows by appending and the best time never rises. */
  lemma UpdateAppendsOnly(s: Lap, cps: seq<Line>, start: Line, edges: seq<Line>, now: real)
    requires |s.checks| == |cps|
    ensures var r := Update(s, cps, start, edges, now);
            |s.times| <= |r.times| && r.times[..|s.times|] == s.times && NoWorse(r.best, s.best)
  {
    StartPhaseKeeps(s.(checks := Sweep(s.checks, cps, edges)), start, edges, now);
  }

  /** A flag becomes set only if some edge crosses its gate, and flags are
      cleared only all together. */
  lemma UpdateFlags(s: Lap, cps: seq<Line>, start: Line, edges: seq<Line>, now: real, i: nat)
    requires |s.checks| == |cps| && i < |cps|
    ensures var r := Update(s, cps, start, edges, now);
            && (r.checks[i] && !s.checks[i] ==> AnyHit(cps[i], edges))
            && (s.checks[i] && !r.checks[i] ==> r.checks == AllFalse(|cps|))
  {
    SweepFacts(s.checks, cps, edges);
    StartPhaseKeeps(s.(checks := Sweep(s.checks, cps, edges)), start, edges, now);
  }

  /** With at least one checkpoint, `update` records a lap exactly when some
      edge crosses the start line with every flag set after the sweep; it
      records at most one, and then every flag is clear, the new lap started
      at `now` and its time reads 0. */
  lemma UpdateLapIff(s: Lap, cps: seq<Line>, start: Line, edges: seq<Line>, now: real)
    requires |s.checks| == |cps| && |cps| > 0
    ensures var r := Update(s, cps, start, edges, now);
            && (|r.times| == |s.times| + 1 <==> AnyHit(start, edges) && AllSet(Sweep(s.checks, cps, edges)))
            && |r.times| <= |s.times| + 1
            && (|r.times| > |s.times| ==> r.checks == AllFalse(|cps|) && r.lapStart == now && LapTime(r, now) == 0.0)
  {
    var swept := s.(checks := Sweep(s.checks, cps, edges));
    StartPhaseLaps(swept, start, edges, now);
    StartPhaseKeeps(swept, start, edges, now);
  }

  /** With no checkpoints, every car edge crossing the start line records a
      lap. */
  lemma UpdateNoCheckpoints(s: Lap, start: Line, edges: seq<Line>, now: real)
    requires |s.checks| == 0
    ensures |Update(s, [], start, edges, now).times| == |s.times| + Crossings(start, edges)
  {
    StartPhaseNoCheckpoints(s.(checks := Sweep(s.checks, [], edges)), start, edges, now);
  }

  /** Crossing every checkpoint without ever crossing the start line first
      records a lap of time 0: the timer never ran. */
  lemma UnstartedLapIsZero(s: Lap, cps: seq<Line>, start: Line, edges: seq<Line>, now: real)
    requires |s.checks| == |cps| && |cps| > 0 && !s.started
    requires AnyHit(start, edges) && AllSet(Sweep(s.checks, cps, edges))
    ensures Update(s, cps, start, edges, now).times == s.times + [0.0]
  {
    var swept := s.(checks := Sweep(s.checks, cps, edges));
    UnstartedLapIsZeroPhase(swept, start, edges, now);
  }

  lemma {:induction false} UnstartedLapIsZeroPhase(s: Lap, start: Line, edges: seq<Line>, now: real)
    requires |s.checks| > 0 && !s.started && AnyHit(start, edges) && AllSet(s.checks)
    ensures StartPhase(s, start, edges, now).times == s.times + [0.0]
  {
    var init := edges[..|edges| - 1];
    var p := StartPhase(s, start, init, now);
    StartPhaseLaps(s, start, init, now);
    if AnyHit(start, init) {
      UnstartedLapIsZeroPhase(s, start, init, now);
      assert !AllSet(p.checks) by {
        assert !AllFalse(|s.checks|)[0];
      }
    }
  }

  /** The out-of-bounds penalty: the lap origin moves back by a fixed step. */
  const Penalty: real := 0.001

  function Penalize(s: Lap): (r: Lap)
    ensures r.lapStart == s.lapStart - Penalty
    ensures r.(lapStart := s.lapStart) == s
  {
    s.(lapStart := s.lapStart - 0.001)
  }

  /** The penalty touches only the lap origin, so it keeps the invariant. */
  lemma PenaltyKeepsInv(s: Lap)
    requires Inv(s)
    ensures Inv(Penalize(s))
  {
  }

  /** The penalty keeps the invariant and adds its step to a running lap's
      time. */
  lemma PenaltyLengthensLap(s: Lap, now: real)
    requires Inv(s)
    ensures Inv(Penalize(s))
    ensures s.started ==> LapTime(Penalize(s), now) == LapTime(s, now) + Penalty
    ensures !s.started ==> LapTime(Penalize(s), now) == 0.0
  {
  }
}
