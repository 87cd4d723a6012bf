/**
 * The hazard lanes of App.js: how initLanes lays out a stage from its random
 * draws, and how one tick moves and wraps every hazard.
 */
module Lanes {
  import opened Field

  datatype Kind = Road | Water

  /** A car or a log: its left edge and its width. */
  datatype Hazard = Hazard(x: real, width: real)

  /** A lane as a value: its top y, its signed speed, its kind and its hazards in order. */
  datatype Lane = Lane(y: real, speed: real, kind: Kind, objects: seq<Hazard>)

  /** The Math.random() values drawn for one hazard, one lane, and one stage. */
  datatype ObjectDraw = ObjectDraw(x: real, width: real)
  datatype LaneDraw = LaneDraw(speed: real, kind: real, count: real, objects: seq<ObjectDraw>)
  datatype StageDraws = StageDraws(count: real, lanes: seq<LaneDraw>)

  /** A value Math.random() can return. */
  predicate Unit(r: real)
  {
    0.0 <= r < 1.0
  }

  /** At most 4 lanes of at most 3 hazards are ever built, so that many draws suffice. */
  predicate LaneDrawOk(d: LaneDraw)
  {
    Unit(d.speed) && Unit(d.kind) && Unit(d.count) && |d.objects| >= 3
    && forall j :: 0 <= j < |d.objects| ==> Unit(d.objects[j].x) && Unit(d.objects[j].width)
  }

  predicate DrawsOk(d: StageDraws)
  {
    Unit(d.count) && |d.lanes| >= 4 && forall i :: 0 <= i < |d.lanes| ==> LaneDrawOk(d.lanes[i])
  }

  /** 3 + Math.floor(Math.random() * 2). */
  function LaneCount(r: real): (n: int)
    requires Unit(r)
    ensures n == 3 || n == 4
    ensures n == 4 <==> r >= 0.5
  {
    3 + (r * 2.0).Floor
  }

  /** 2 + Math.floor(Math.random() * 2). */
  function ObjectCount(r: real): (n: int)
    requires Unit(r)
    ensures n == 2 || n == 3
    ensures n == 3 <==> r >= 0.5
  {
    2 + (r * 2.0).Floor
  }

  /** The vertical band between the two safe rows, shared evenly by the lanes. */
  const LANE_AREA_HEIGHT: real := HEIGHT - 2.0 * GRID_SIZE

  /** Lane i of n sits centred in its share of the lane area. */
  function LaneY(n: int, i: int): real
    requires n > 0
  {
    var spacing := LANE_AREA_HEIGHT / n as real;
    GRID_SIZE + i as real * spacing + (spacing - GRID_SIZE) / 2.0
  }

  /** The least speed magnitude at a stage. */
  function MinSpeed(stage: int): real
  {
    1.2 + stage as real * 0.15
  }

  /** (1.2 + r * 1.5 + stage * 0.15), to the right on even lanes and to the left on odd ones. */
  function LaneSpeed(stage: int, i: int, r: real): (v: real)
    requires stage >= 1 && Unit(r)
    ensures i % 2 == 0 ==> MinSpeed(stage) <= v < MinSpeed(stage) + 1.5
    ensures i % 2 != 0 ==> -(MinSpeed(stage) + 1.5) < v <= -MinSpeed(stage)
    ensures v != 0.0
  {
    (1.2 + r * 1.5 + stage as real * 0.15) * (if i % 2 == 0 then 1.0 else -1.0)
  }

  function KindOf(r: real): Kind
  {
    if r > 0.5 then Water else Road
  }

  /** Logs are 80 to 120 wide, cars 40 to 70. */
  function ObjectWidth(kind: Kind, r: real): (w: real)
    requires Unit(r)
    ensures kind == Water ==> 80.0 <= w < 120.0
    ensures kind == Road ==> 40.0 <= w < 70.0
  {
    if kind == Water then 80.0 + r * 40.0 else 40.0 + r * 30.0
  }

  /** A hazard at x = r * WIDTH with the width its kind draws. */
  function NewObject(kind: Kind, d: ObjectDraw): Hazard
    requires Unit(d.width)
  {
    Hazard(d.x * WIDTH, ObjectWidth(kind, d.width))
  }

  function NewLane(stage: int, n: int, i: int, d: LaneDraw): Lane
    requires stage >= 1 && n > 0 && LaneDrawOk(d)
  {
    var kind := KindOf(d.kind);
    var m := ObjectCount(d.count);
    Lane(LaneY(n, i), LaneSpeed(stage, i, d.speed), kind,
         seq(m, j requires 0 <= j < m => NewObject(kind, d.objects[j])))
  }

  /** The lane set initLanes builds for a stage from its draws. */
  function Generate(stage: int, d: StageDraws): seq<Lane>
    requires stage >= 1 && DrawsOk(d)
  {
    var n := LaneCount(d.count);
    seq(n, i requires 0 <= i < n => NewLane(stage, n, i, d.lanes[i]))
  }

  /** A hazard is on screen or just off an edge: x in [-width, WIDTH]. */
  predicate OnTrack(h: Hazard)
  {
    h.width > 0.0 && -h.width <= h.x <= WIDTH
  }

  /** Every lane moves, and every hazard is on track. */
  predicate LanesOk(ls: seq<Lane>)
  {
    forall i :: 0 <= i < |ls| ==>
      ls[i].speed != 0.0 && forall k :: 0 <= k < |ls[i].objects| ==> OnTrack(ls[i].objects[k])
  }

  /** The lane bands of a layout cannot be shared: the frog is in at most one lane. */
  ghost predicate BandsDisjoint(ls: seq<Lane>)
  {
    forall i, j, fy :: 0 <= i < j < |ls| && InLane(fy, ls[i].y) ==> !InLane(fy, ls[j].y)
  }

  lemma LaneBand(n: int, i: int)
    requires n == 3 || n == 4
    requires 0 <= i < n
    ensures GRID_SIZE <= LaneY(n, i) - 10.0
    ensures LaneY(n, i) + 40.0 <= HEIGHT - GRID_SIZE
    ensures !InLane(START_Y, LaneY(n, i))
  {
  }

  lemma LaneGap(n: int, i: int, j: int)
    requires n == 3 || n == 4
    requires 0 <= i < j < n
    ensures LaneY(n, j) - LaneY(n, i) >= 125.0
  {
    var spacing := LANE_AREA_HEIGHT / n as real;
    assert LaneY(n, j) - LaneY(n, i) == (j - i) as real * spacing;
    assert spacing >= 125.0;
  }

  /**
   * initLanes builds 3 or 4 lanes whose bands lie between the safe rows, are
   * disjoint and leave the start cell clear; lane i runs right when i is even and
   * left when odd, at least MinSpeed(stage) fast; each has 2 or 3 hazards, logs
   * 80 to 120 wide and cars 40 to 70, all starting on screen.
   */
  lemma {:induction false} GenerateLayout(stage: int, d: StageDraws)
    requires stage >= 1 && DrawsOk(d)
    ensures var ls := Generate(stage, d);
      && 3 <= |ls| <= 4
      && LanesOk(ls)
      && BandsDisjoint(ls)
      && (forall i :: 0 <= i < |ls| ==>
            && GRID_SIZE <= ls[i].y - 10.0 && ls[i].y + 40.0 <= HEIGHT - GRID_SIZE
            && !InLane(START_Y, ls[i].y)
            && (i % 2 == 0 ==> ls[i].speed >= MinSpeed(stage))
            && (i % 2 != 0 ==> ls[i].speed <= -MinSpeed(stage))
            && 2 <= |ls[i].objects| <= 3)
      && (forall i, k :: 0 <= i < |ls| && 0 <= k < |ls[i].objects| ==>
            && 0.0 <= ls[i].objects[k].x < WIDTH
            && (ls[i].kind == Water ==> 80.0 <= ls[i].objects[k].width < 120.0)
            && (ls[i].kind == Road ==> 40.0 <= ls[i].objects[k].width < 70.0))
  {
    var ls := Generate(stage, d);
    var n := LaneCount(d.count);
    forall i | 0 <= i < n
      ensures GRID_SIZE <= ls[i].y - 10.0 && ls[i].y + 40.0 <= HEIGHT - GRID_SIZE
      ensures !InLane(START_Y, ls[i].y)
    {
      LaneBand(n, i);
    }
    forall i, k | 0 <= i < n && 0 <= k < |ls[i].objects|
      ensures 0.0 <= ls[i].objects[k].x < WIDTH
      ensures ls[i].kind == Water ==> 80.0 <= ls[i].objects[k].width < 120.0
      ensures ls[i].kind == Road ==> 40.0 <= ls[i].objects[k].width < 70.0
    {
      var od := d.lanes[i].objects[k];
      assert Unit(od.x) && Unit(od.width);
      assert ls[i].objects[k] == NewObject(ls[i].kind, od);
    }
    forall i, j, fy | 0 <= i < j < n && InLane(fy, ls[i].y)
      ensures !InLane(fy, ls[j].y)
    {
      LaneGap(n, i, j);
    }
  }

  /** Every generated layout is a valid lane set whose bands are disjoint. */
  lemma GenerateOk(stage: int, d: StageDraws)
    requires stage >= 1 && DrawsOk(d)
    ensures LanesOk(Generate(stage, d)) && BandsDisjoint(Generate(stage, d))
  {
    GenerateLayout(stage, d);
  }

  /**
   * One tick of one hazard: advance by the lane speed, then a hazard that left on
   * its way out re-enters from the opposite edge.
   */
  function Advance(h: Hazard, speed: real): (r: Hazard)
    ensures r.width == h.width
    ensures OnTrack(h) ==> OnTrack(r)
  {
    var x := h.x + speed;
    if speed > 0.0 && x > WIDTH then h.(x := -h.width)
    else if speed < 0.0 && x < -h.width then h.(x := WIDTH)
    else h.(x := x)
  }

  /** A hazard either moved by exactly the lane speed or wrapped to the edge it enters from. */
  lemma AdvanceMovesOrWraps(h: Hazard, speed: real)
    requires OnTrack(h)
    ensures var r := Advance(h, speed);
      r.x == h.x + speed
      || (speed > 0.0 && h.x + speed > WIDTH && r.x == -h.width)
      || (speed < 0.0 && h.x + speed < -h.width && r.x == WIDTH)
  {
  }

  function AdvanceLane(l: Lane): Lane
  {
    l.(objects := seq(|l.objects|, k requires 0 <= k < |l.objects| => Advance(l.objects[k], l.speed)))
  }

  function AdvanceAll(ls: seq<Lane>): seq<Lane>
  {
    seq(|ls|, i requires 0 <= i < |ls| => AdvanceLane(ls[i]))
  }

  lemma AdvanceOk(ls: seq<Lane>)
    requires LanesOk(ls)
    ensures LanesOk(AdvanceAll(ls))
  {
  }

  /**
   * A tick changes only hazard positions: lanes, their y, speed, kind, hazard
   * counts and widths stay, and every hazard stays on track.
   */
  lemma AdvanceKeepsLayout(ls: seq<Lane>)
    ensures var r := AdvanceAll(ls);
      && |r| == |ls|
      && (forall i :: 0 <= i < |ls| ==>
            r[i].y == ls[i].y && r[i].speed == ls[i].speed && r[i].kind == ls[i].kind
            && |r[i].objects| == |ls[i].objects|
            && forall k :: 0 <= k < |ls[i].objects| ==> r[i].objects[k].width == ls[i].objects[k].width)
      && (LanesOk(ls) ==> LanesOk(r))
      && (BandsDisjoint(ls) ==> BandsDisjoint(r))
  {
  }
}
