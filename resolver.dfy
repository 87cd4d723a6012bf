/**
 * What one tick of animate decides about the frog, as functions over the lanes
 * after motion: the flags the hazard loops accumulate, and the verdict drawn
 * from them (run over, drowned, carried off, off the side; log drift).
 */
module Resolver {
  import opened Field
  import opened Lanes

  /**
   * The flags of one pass over the lanes: whether a car hit the frog (so
   * game-over has been reported), whether the frog is in a water lane, whether
   * it stands on a log, and the speed of the last log it stands on.
   */
  datatype Scan = Scan(hit: bool, inWater: bool, onLog: bool, logSpeed: real)

  const NoScan: Scan := Scan(false, false, false, 0.0)

  /** The checks made against one (already moved) hazard of a lane with the given y, speed and kind. */
  function ScanObject(s: Scan, fx: real, fy: real, y: real, speed: real, kind: Kind, inLane: bool, h: Hazard): Scan
  {
    if kind == Road then s.(hit := s.hit || FrogHit(fx, fy, h.x, y, h.width))
    else if OnLog(fx, h.x, h.width) && inLane then s.(onLog := true, logSpeed := speed)
    else s
  }

  function ScanObjects(s: Scan, fx: real, fy: real, l: Lane, inLane: bool, hs: seq<Hazard>): Scan
    decreases |hs|
  {
    if hs == [] then s
    else ScanObject(ScanObjects(s, fx, fy, l, inLane, hs[..|hs| - 1]), fx, fy, l.y, l.speed, l.kind, inLane, hs[|hs| - 1])
  }

  /** One lane: the in-water flag, then every hazard in order. */
  function ScanLane(s: Scan, fx: real, fy: real, l: Lane): Scan
  {
    var inLane := InLane(fy, l.y);
    var s1 := if l.kind == Water && inLane then s.(inWater := true) else s;
    ScanObjects(s1, fx, fy, l, inLane, l.objects)
  }

  function ScanLanes(fx: real, fy: real, ls: seq<Lane>): Scan
    decreases |ls|
  {
    if ls == [] then NoScan
    else ScanLane(ScanLanes(fx, fy, ls[..|ls| - 1]), fx, fy, ls[|ls| - 1])
  }

  /** The end of a tick: whether game-over fires, and the frog's new x. */
  datatype Outcome = Outcome(dead: bool, x: real)

  /** The leftmost and rightmost frog x that survive the side check. */
  const SIDE_MIN: real := -10.0
  const SIDE_MAX: real := WIDTH - 20.0

  function Resolve(fx: real, s: Scan): Outcome
  {
    var drowned := s.inWater && !s.onLog;
    var drifting := s.onLog && s.logSpeed != 0.0;
    var nextX := fx + s.logSpeed;
    var carriedOff := drifting && (nextX < MIN_X || nextX > WIDTH);
    var offSide := fx < SIDE_MIN || fx > SIDE_MAX;
    Outcome(s.hit || drowned || carriedOff || offSide, if drifting && !carriedOff then nextX else fx)
  }

  /** The verdict of a tick for a frog at (fx, fy) against the lanes after motion. */
  function TickOutcome(fx: real, fy: real, ls: seq<Lane>): Outcome
  {
    Resolve(fx, ScanLanes(fx, fy, ls))
  }

  // Reference definitions, lane by lane.

  /** A car of road lane l overlaps the frog. */
  ghost predicate RunsOver(fx: real, fy: real, l: Lane)
  {
    l.kind == Road && exists k :: 0 <= k < |l.objects| && FrogHit(fx, fy, l.objects[k].x, l.y, l.objects[k].width)
  }

  /** The frog is in water lane l. */
  predicate Submerges(fy: real, l: Lane)
  {
    l.kind == Water && InLane(fy, l.y)
  }

  /** The frog is in water lane l and centred over one of its logs. */
  ghost predicate Carries(fx: real, fy: real, l: Lane)
  {
    Submerges(fy, l) && exists k :: 0 <= k < |l.objects| && OnLog(fx, l.objects[k].x, l.objects[k].width)
  }

  lemma {:induction false} ScanObjectsMeaning(s: Scan, fx: real, fy: real, l: Lane, inLane: bool, hs: seq<Hazard>)
    ensures var r := ScanObjects(s, fx, fy, l, inLane, hs);
      var touched := exists k :: 0 <= k < |hs| && FrogHit(fx, fy, hs[k].x, l.y, hs[k].width);
      var carried := exists k :: 0 <= k < |hs| && OnLog(fx, hs[k].x, hs[k].width);
      && (r.hit <==> s.hit || (l.kind == Road && touched))
      && r.inWater == s.inWater
      && (r.onLog <==> s.onLog || (l.kind == Water && inLane && carried))
      && r.logSpeed == (if l.kind == Water && inLane && carried then l.speed else s.logSpeed)
    decreases |hs|
  {
    if hs != [] {
      var init := hs[..|hs| - 1];
      ScanObjectsMeaning(s, fx, fy, l, inLane, init);
      forall k | 0 <= k < |init| ensures init[k] == hs[k] { }
    }
  }

  /**
   * The pass over all lanes reports a hit exactly when some road lane runs the
   * frog over, in-water exactly when some water lane holds it, and on-log
   * exactly when some water lane carries it.
   */
  lemma {:induction false} ScanLanesFlags(fx: real, fy: real, ls: seq<Lane>)
    ensures var r := ScanLanes(fx, fy, ls);
      && (r.hit <==> exists i :: 0 <= i < |ls| && RunsOver(fx, fy, ls[i]))
      && (r.inWater <==> exists i :: 0 <= i < |ls| && Submerges(fy, ls[i]))
      && (r.onLog <==> exists i :: 0 <= i < |ls| && Carries(fx, fy, ls[i]))
    decreases |ls|
  {
    if ls != [] {
      var init := ls[..|ls| - 1];
      var l := ls[|ls| - 1];
      ScanLanesFlags(fx, fy, init);
      var s := ScanLanes(fx, fy, init);
      var inLane := InLane(fy, l.y);
      var s1 := if l.kind == Water && inLane then s.(inWater := true) else s;
      ScanObjectsMeaning(s1, fx, fy, l, inLane, l.objects);
      forall i | 0 <= i < |init| ensures init[i] == ls[i] { }
    }
  }

  /** The drift speed the pass reports is that of the last lane that carries the frog. */
  lemma {:induction false} ScanLanesDrift(fx: real, fy: real, ls: seq<Lane>)
    ensures var r := ScanLanes(fx, fy, ls);
      r.onLog ==> exists i :: 0 <= i < |ls| && Carries(fx, fy, ls[i]) && r.logSpeed == ls[i].speed
                    && forall j :: i < j < |ls| ==> !Carries(fx, fy, ls[j])
    decreases |ls|
  {
    if ls != [] {
      var init := ls[..|ls| - 1];
      var l := ls[|ls| - 1];
      var last := |ls| - 1;
      ScanLanesDrift(fx, fy, init);
      var s := ScanLanes(fx, fy, init);
      var inLane := InLane(fy, l.y);
      var s1 := if l.kind == Water && inLane then s.(inWater := true) else s;
      ScanObjectsMeaning(s1, fx, fy, l, inLane, l.objects);
      forall i | 0 <= i < |init| ensures init[i] == ls[i] { }
      var r := ScanLanes(fx, fy, ls);
      if r.onLog {
        if Carries(fx, fy, l) {
          assert r.logSpeed == ls[last].speed;
        } else {
          var i :| 0 <= i < |init| && Carries(fx, fy, init[i]) && s.logSpeed == init[i].speed
                   && forall j :: i < j < |init| ==> !Carries(fx, fy, init[j]);
          assert forall j :: i < j < |ls| ==> !Carries(fx, fy, ls[j]);
        }
      }
    }
  }

  /**
   * The verdict, against the reference definitions: game-over fires exactly when
   * the frog is run over, or is in water and on no log, or drifts past the
   * carry bounds, or started the tick beyond the side bounds; the frog's x moves
   * by the carrying lane's speed exactly when it drifts and is not carried off.
   */
  lemma TickOutcomeMeaning(fx: real, fy: real, ls: seq<Lane>)
    ensures var out := TickOutcome(fx, fy, ls);
      var s := ScanLanes(fx, fy, ls);
      var runOver := exists i :: 0 <= i < |ls| && RunsOver(fx, fy, ls[i]);
      var carried := exists i :: 0 <= i < |ls| && Carries(fx, fy, ls[i]);
      var drowned := (exists i :: 0 <= i < |ls| && Submerges(fy, ls[i])) && !carried;
      var drifting := carried && s.logSpeed != 0.0;
      var carriedOff := drifting && (fx + s.logSpeed < MIN_X || fx + s.logSpeed > WIDTH);
      && (out.dead <==> runOver || drowned || carriedOff || fx < SIDE_MIN || fx > SIDE_MAX)
      && (out.x == if drifting && !carriedOff then fx + s.logSpeed else fx)
  {
    ScanLanesFlags(fx, fy, ls);
  }

  /**
   * Wherever the frog ends a tick it is inside the clamp bounds, having stayed
   * put or moved by exactly the drift speed; a frog that survives the tick
   * started it inside the side bounds.
   */
  lemma SurvivorStaysInside(fx: real, fy: real, ls: seq<Lane>)
    requires MIN_X <= fx <= MAX_X
    ensures var out := TickOutcome(fx, fy, ls);
      && MIN_X <= out.x <= MAX_X
      && (out.x == fx || out.x == fx + ScanLanes(fx, fy, ls).logSpeed)
      && (!out.dead ==> SIDE_MIN <= fx <= SIDE_MAX)
  {
  }

  /**
   * With disjoint lane bands (as every generated layout has), the drift speed is
   * the speed of the one water lane the frog is in.
   */
  lemma DriftIsOwnLaneSpeed(fx: real, fy: real, ls: seq<Lane>, i: int)
    requires BandsDisjoint(ls)
    requires 0 <= i < |ls| && Carries(fx, fy, ls[i])
    ensures ScanLanes(fx, fy, ls).onLog && ScanLanes(fx, fy, ls).logSpeed == ls[i].speed
  {
    ScanLanesFlags(fx, fy, ls);
    ScanLanesDrift(fx, fy, ls);
    var r := ScanLanes(fx, fy, ls);
    var i' :| 0 <= i' < |ls| && Carries(fx, fy, ls[i']) && r.logSpeed == ls[i'].speed
              && forall j :: i' < j < |ls| ==> !Carries(fx, fy, ls[j]);
    if i' < i {
      assert InLane(fy, ls[i'].y) && InLane(fy, ls[i].y);
    } else if i < i' {
      assert InLane(fy, ls[i].y) && InLane(fy, ls[i'].y);
    }
  }

  /** A frog in the band of a water lane whose logs are all elsewhere drowns. */
  lemma DrownExample()
    ensures TickOutcome(285.0, 310.0, [Lane(300.0, 1.5, Water, [Hazard(400.0, 80.0)])]).dead
  {
  }

  /**
   * On a log drifting left at speed 2, a frog at x = 0 is at x = -2 after one
   * tick; at x = -12 it ends the game by the side check even though the drift
   * target -14 is still inside the carry bounds.
   */
  lemma DriftExample()
    ensures var lane := Lane(300.0, -2.0, Water, [Hazard(-40.0, 100.0)]);
      && TickOutcome(0.0, 310.0, [lane]) == Outcome(false, -2.0)
      && TickOutcome(-12.0, 310.0, [lane]) == Outcome(true, -14.0)
  {
  }
}
