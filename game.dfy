/**
 * The running game of App.js: the session fields of App and the frog and lanes
 * of GameCanvas in one object, with the handlers as methods. React's effects
 * are flattened into the handlers in their firing order: starting a game and
 * clearing a stage each regenerate the lanes and put the frog on the start cell.
 */
module Frogger {
  import opened Wrappers
  import opened Field
  import opened Input
  import opened GameSession
  import opened Lanes
  import opened Resolver

  class Game {
    var state: GameState
    var score: int
    var stage: int
    var highScore: int
    var frogX: real
    var frogY: real
    /** lanesRef.current: the lanes, whose hazards the animation loop moves in place. */
    var lanes: seq<Lane>

    function Snapshot(): Session
      reads this
    {
      Session(state, score, stage, highScore)
    }

    /**
     * The score is ten per stage cleared; every lane moves and every hazard is
     * on track; no two lane bands meet; the frog is inside the clamp bounds and
     * below the goal row.
     */
    ghost predicate Valid()
      reads this
    {
      && ScoreMatchesStage(Snapshot())
      && LanesOk(lanes)
      && BandsDisjoint(lanes)
      && InField(frogX, frogY)
    }

    /** The page loads in START with the stored high score and no lanes yet. */
    constructor (storedHighScore: int)
      ensures Valid()
      ensures Snapshot() == Initial(storedHighScore)
      ensures frogX == START_X && frogY == START_Y && lanes == []
    {
      state, score, stage, highScore := Start, 0, 1, storedHighScore;
      frogX, frogY := START_X, START_Y;
      lanes := [];
    }

    /** initLanes: builds the lanes of the current stage from its draws and replaces the old ones. */
    method InitLanes(d: StageDraws)
      requires stage >= 1 && DrawsOk(d)
      modifies this`lanes
      ensures lanes == Generate(stage, d)
      ensures LanesOk(lanes) && BandsDisjoint(lanes)
    {
      var laneCount := 3 + (d.count * 2.0).Floor;
      var laneSpacing := (HEIGHT - 2.0 * GRID_SIZE) / laneCount as real;
      var newLanes: seq<Lane> := [];
      for i := 0 to laneCount
        invariant |newLanes| == i
        invariant forall k :: 0 <= k < i ==> newLanes[k] == NewLane(stage, laneCount, k, d.lanes[k])
      {
        var draw := d.lanes[i];
        var y := GRID_SIZE + i as real * laneSpacing + (laneSpacing - GRID_SIZE) / 2.0;
        var speed := (1.2 + draw.speed * 1.5 + stage as real * 0.15) * (if i % 2 == 0 then 1.0 else -1.0);
        var kind := if draw.kind > 0.5 then Water else Road;
        var numObjects := 2 + (draw.count * 2.0).Floor;
        var objects: seq<Hazard> := [];
        for j := 0 to numObjects
          invariant |objects| == j
          invariant forall k :: 0 <= k < j ==> objects[k] == NewObject(kind, draw.objects[k])
        {
          var od := draw.objects[j];
          objects := objects + [Hazard(od.x * WIDTH, if kind == Water then 80.0 + od.width * 40.0 else 40.0 + od.width * 30.0)];
        }
        assert Lane(y, speed, kind, objects) == NewLane(stage, laneCount, i, draw);
        newLanes := newLanes + [Lane(y, speed, kind, objects)];
      }
      lanes := newLanes;
      GenerateOk(stage, d);
    }

    /**
     * startGame, then the effect it triggers: new lanes for stage 1 and the frog on
     * the start cell. startGame is only reached outside PLAYING, so the state
     * always changes and the effect always fires.
     */
    method StartGame(d: StageDraws)
      requires Valid() && DrawsOk(d) && state != Playing
      modifies this
      ensures Valid()
      ensures Snapshot() == AfterStart(old(Snapshot()))
      ensures lanes == Generate(1, d) && frogX == START_X && frogY == START_Y
    {
      score, stage, state := 0, 1, Playing;
      InitLanes(d);
      frogX, frogY := START_X, START_Y;
    }

    /** handleGameOver: only while PLAYING; records a better score as the high score. */
    method HandleGameOver(finalScore: int)
      modifies this`state, this`highScore
      ensures Snapshot() == AfterGameOver(old(Snapshot()), finalScore)
      ensures old(Valid()) ==> Valid()
    {
      if state != Playing {
        return;
      }
      state := GameOver;
      if finalScore > highScore {
        highScore := finalScore;
      }
    }

    /**
     * handleStageComplete, then the effect it triggers: lanes for the new stage and
     * the frog on the start cell. It is only reached from a jump while PLAYING, so
     * the stage changes in PLAYING and the effect always fires.
     */
    method HandleStageComplete(d: StageDraws)
      requires Valid() && DrawsOk(d) && state == Playing
      modifies this
      ensures Valid()
      ensures Snapshot() == AfterStageComplete(old(Snapshot()))
      ensures lanes == Generate(stage, d) && frogX == START_X && frogY == START_Y
    {
      score := score + STAGE_BONUS;
      stage := stage + 1;
      InitLanes(d);
      frogX, frogY := START_X, START_Y;
    }

    /**
     * The state after a key event that asks for `dir` (None: no jump), from the
     * earlier session s0, frog (x0, y0) and lanes lanes0.
     */
    ghost predicate Jumped(s0: Session, x0: real, y0: real, lanes0: seq<Lane>, dir: Option<Dir>, d: StageDraws)
      requires s0.stage >= 1 && DrawsOk(d)
      reads this
    {
      match dir
      case None =>
        Snapshot() == s0 && frogX == x0 && frogY == y0 && lanes == lanes0
      case Some(dr) =>
        var l := Jump(x0, y0, dr);
        if l.cleared then
          Snapshot() == AfterStageComplete(s0) && lanes == Generate(s0.stage + 1, d)
          && frogX == START_X && frogY == START_Y
        else
          Snapshot() == s0 && frogX == l.x && frogY == l.y && lanes == lanes0
    }

    /** handleKeyDown: while PLAYING, a recognised key makes one jump; reaching the goal row clears the stage. */
    method HandleKeyDown(key: string, d: StageDraws)
      requires Valid() && DrawsOk(d)
      modifies this
      ensures Valid()
      ensures Jumped(old(Snapshot()), old(frogX), old(frogY), old(lanes),
                     if old(state) == Playing then KeyDirection(key) else None, d)
    {
      if state != Playing {
        return;
      }
      var dir := KeyDirection(key);
      if dir.None? {
        return;
      }
      var landing := Jump(frogX, frogY, dir.value);
      frogX, frogY := landing.x, landing.y;
      if landing.cleared {
        HandleStageComplete(d);
      }
    }

    /** handleTouchEnd for a swipe of (dx, dy): a long enough swipe is passed on as the matching arrow key. */
    method HandleTouchEnd(dx: real, dy: real, d: StageDraws)
      requires Valid() && DrawsOk(d)
      modifies this
      ensures Valid()
      ensures Jumped(old(Snapshot()), old(frogX), old(frogY), old(lanes),
                     if old(state) == Playing then SwipeDirection(dx, dy) else None, d)
    {
      if state != Playing {
        return;
      }
      var key := SwipeKey(dx, dy);
      if key.Some? {
        HandleKeyDown(key.value, d);
      }
    }

    /** The space-key handler of App: a space outside PLAYING starts a game. */
    method HandleSpace(key: string, d: StageDraws)
      requires Valid() && DrawsOk(d)
      modifies this
      ensures Valid()
      ensures Snapshot() == AfterSpace(old(Snapshot()), key)
      ensures key == " " && old(state) != Playing ==>
        lanes == Generate(1, d) && frogX == START_X && frogY == START_Y
      ensures key != " " || old(state) == Playing ==>
        frogX == old(frogX) && frogY == old(frogY) && lanes == old(lanes)
    {
      if key == " " && state != Playing {
        StartGame(d);
      }
    }

    /**
     * The body of animate's per-hazard callback for hazard j of lane i: moves
     * and wraps it in place, then reports game-over if it is a car overlapping
     * the frog at (fx, fy), or notes a log the frog stands on.
     */
    method MoveObject(i: int, j: int, fx: real, fy: real, inLane: bool, s0: Scan) returns (s: Scan)
      requires 0 <= i < |lanes| && 0 <= j < |lanes[i].objects|
      requires s0.hit ==> state != Playing
      modifies this`state, this`highScore, this`lanes
      ensures |lanes| == |old(lanes)|
      ensures forall k :: 0 <= k < |lanes| && k != i ==> lanes[k] == old(lanes[k])
      ensures lanes[i] == old(lanes[i]).(objects := old(lanes[i].objects)[j := Advance(old(lanes[i].objects[j]), lanes[i].speed)])
      ensures s == ScanObject(s0, fx, fy, lanes[i].y, lanes[i].speed, lanes[i].kind, inLane, lanes[i].objects[j])
      ensures s0.hit ==> s.hit
      ensures Snapshot() == if s.hit then AfterGameOver(old(Snapshot()), score) else old(Snapshot())
    {
      var lane := lanes[i];
      var obj := lane.objects[j];
      var x := obj.x + lane.speed;
      if lane.speed > 0.0 && x > WIDTH {
        x := -obj.width;
      }
      if lane.speed < 0.0 && x < -obj.width {
        x := WIDTH;
      }
      lanes := lanes[i := lane.(objects := lane.objects[j := obj.(x := x)])];
      s := s0;
      if lane.kind == Road {
        if FrogHit(fx, fy, x, lane.y, obj.width) {
          HandleGameOver(score);
          s := s.(hit := true);
        }
      } else if OnLog(fx, x, obj.width) && inLane {
        s := s.(onLog := true, logSpeed := lane.speed);
      }
    }

    /**
     * The hazard pass of lane i in animate: the in-water check, then every
     * hazard of the lane in order.
     */
    method SweepLane(i: int, fx: real, fy: real, s0: Scan) returns (s: Scan)
      requires 0 <= i < |lanes|
      requires s0.hit ==> state != Playing
      modifies this`state, this`highScore, this`lanes
      ensures lanes == old(lanes)[i := AdvanceLane(old(lanes[i]))]
      ensures s0.hit ==> s.hit
      ensures s == ScanLane(s0, fx, fy, AdvanceLane(old(lanes[i])))
      ensures Snapshot() == if s.hit then AfterGameOver(old(Snapshot()), score) else old(Snapshot())
    {
      ghost var S0 := Snapshot();
      ghost var L0 := lanes;
      ghost var moved := AdvanceLane(lanes[i]);
      ghost var ms := moved.objects;
      var isFrogInThisLane := InLane(fy, lanes[i].y);
      s := s0;
      if lanes[i].kind == Water && isFrogInThisLane {
        s := s.(inWater := true);
      }
      ghost var s1 := s;
      var j := 0;
      while j < |lanes[i].objects|
        invariant |lanes| == |L0| && lanes == L0[i := lanes[i]]
        invariant lanes[i].y == L0[i].y && lanes[i].speed == L0[i].speed && lanes[i].kind == L0[i].kind
        invariant 0 <= j <= |lanes[i].objects| == |ms|
        invariant forall k :: 0 <= k < j ==> lanes[i].objects[k] == ms[k]
        invariant forall k :: j <= k < |ms| ==> lanes[i].objects[k] == L0[i].objects[k]
        invariant s == ScanObjects(s1, fx, fy, moved, isFrogInThisLane, ms[..j])
        invariant s0.hit ==> s.hit
        invariant Snapshot() == if s.hit then AfterGameOver(S0, score) else S0
      {
        ghost var sj := s;
        s := MoveObject(i, j, fx, fy, isFrogInThisLane, s);
        assert ms[..j + 1][..j] == ms[..j];
        assert s == ScanObject(sj, fx, fy, moved.y, moved.speed, moved.kind, isFrogInThisLane, ms[j]);
        j := j + 1;
      }
      assert ms[..j] == ms;
      assert lanes[i] == moved;
    }

    /**
     * The hazard loop of one animate frame: every lane in order is swept
     * against the frog's position (fx, fy) at the start of the frame.
     */
    method SweepLanes(fx: real, fy: real) returns (s: Scan)
      requires state == Playing
      modifies this`state, this`highScore, this`lanes
      ensures lanes == AdvanceAll(old(lanes))
      ensures s == ScanLanes(fx, fy, lanes)
      ensures Snapshot() == if s.hit then AfterGameOver(old(Snapshot()), score) else old(Snapshot())
    {
      ghost var S0 := Snapshot();
      ghost var before := lanes;
      ghost var after := AdvanceAll(before);
      s := NoScan;
      var i := 0;
      while i < |lanes|
        invariant |lanes| == |before| && 0 <= i <= |lanes|
        invariant forall k :: 0 <= k < i ==> lanes[k] == after[k]
        invariant forall k :: i <= k < |lanes| ==> lanes[k] == before[k]
        invariant s == ScanLanes(fx, fy, after[..i])
        invariant Snapshot() == if s.hit then AfterGameOver(S0, score) else S0
      {
        ghost var si := s;
        s := SweepLane(i, fx, fy, s);
        assert after[..i + 1][..i] == after[..i];
        assert s == ScanLane(si, fx, fy, after[i]);
        i := i + 1;
      }
      assert after[..i] == after;
      assert lanes == after;
    }

    /**
     * The end of an animate frame, after the hazard loop reported the flags s
     * for a frog that started the frame at x = fx: drowning, log drift with the
     * carried-off check, and the side check.
     */
    method Settle(fx: real, s: Scan)
      requires InField(fx, frogY)
      requires s.hit ==> state != Playing
      requires frogX == fx
      modifies this`state, this`highScore, this`frogX
      ensures InField(frogX, frogY)
      ensures frogX == Resolve(fx, s).x
      ensures Snapshot() == if Resolve(fx, s).dead then AfterGameOver(old(Snapshot()), score) else old(Snapshot())
    {
      if s.inWater && !s.onLog {
        HandleGameOver(score);
      }
      if s.onLog && s.logSpeed != 0.0 {
        var nextX := fx + s.logSpeed;
        if nextX < MIN_X || nextX > WIDTH {
          HandleGameOver(score);
        } else {
          frogX := nextX;
        }
      }
      if fx < SIDE_MIN || fx > SIDE_MAX {
        HandleGameOver(score);
      }
    }

    /**
     * The simulation part of one animate frame. Outside PLAYING nothing moves.
     * While PLAYING every hazard moves and wraps, and game-over is reported for
     * each terminal condition found against the frog's position at the start of
     * the frame; a frog on a log drifts with it unless carried off.
     */
    method Tick()
      requires Valid()
      modifies this
      ensures Valid()
      ensures frogY == old(frogY)
      ensures old(state) != Playing ==>
        Snapshot() == old(Snapshot()) && frogX == old(frogX) && lanes == old(lanes)
      ensures old(state) == Playing ==>
        var out := TickOutcome(old(frogX), old(frogY), AdvanceAll(old(lanes)));
        && lanes == AdvanceAll(old(lanes))
        && frogX == out.x
        && Snapshot() == if out.dead then AfterGameOver(old(Snapshot()), old(score)) else old(Snapshot())
      ensures old(state) == Playing ==>
        forall i :: 0 <= i < |lanes| && Carries(old(frogX), old(frogY), lanes[i]) ==>
          !TickOutcome(old(frogX), old(frogY), lanes).dead ==> frogX == old(frogX) + lanes[i].speed
    {
      if state != Playing {
        return;
      }
      var fx, fy := frogX, frogY;
      AdvanceKeepsLayout(lanes);
      var s := SweepLanes(fx, fy);
      Settle(fx, s);
      forall i | 0 <= i < |lanes| && Carries(fx, fy, lanes[i])
        ensures !TickOutcome(fx, fy, lanes).dead ==> frogX == fx + lanes[i].speed
      {
        DriftIsOwnLaneSpeed(fx, fy, lanes, i);
      }
    }
  }
}
