/**
 * The playfield of App.js: its constants, the clamp applied to every committed
 * jump, and the box tests used by the collision and carry checks.
 */
module Field {

  /** One grid cell: the length of a jump and the height of the safe rows. */
  const GRID_SIZE: real := 50.0
  const WIDTH: real := 600.0
  const HEIGHT: real := 600.0

  /** The frog is drawn and tested as a FROG_SIZE square; hazards are FROG_SIZE tall. */
  const FROG_SIZE: real := 30.0

  /** The start cell, used on entry to a stage and after a stage is cleared. */
  const START_X: real := WIDTH / 2.0 - 15.0
  const START_Y: real := HEIGHT - GRID_SIZE + 10.0

  /** The bounds a jump is clamped to. */
  const MIN_X: real := -30.0
  const MAX_X: real := WIDTH
  const MIN_Y: real := 0.0
  const MAX_Y: real := HEIGHT - GRID_SIZE + 10.0

  function Min(a: real, b: real): real { if a <= b then a else b }

  function Max(a: real, b: real): real { if a >= b then a else b }

  /** Math.max(lo, Math.min(hi, v)). */
  function Clamp(v: real, lo: real, hi: real): (r: real)
    requires lo <= hi
    ensures lo <= r <= hi
    ensures lo <= v <= hi ==> r == v
    ensures v < lo ==> r == lo
    ensures hi < v ==> r == hi
  {
    Max(lo, Min(hi, v))
  }

  /** Every position the frog can be committed to: clamped, and below the goal row. */
  predicate InField(x: real, y: real)
  {
    MIN_X <= x <= MAX_X && GRID_SIZE <= y <= MAX_Y
  }

  /** Strict overlap of the boxes (x1, y1, w1, h1) and (x2, y2, w2, h2). */
  predicate Overlaps(x1: real, y1: real, w1: real, h1: real, x2: real, y2: real, w2: real, h2: real)
  {
    x1 < x2 + w2 && x1 + w1 > x2 && y1 < y2 + h2 && y1 + h1 > y2
  }

  /** The point (px, py) lies strictly inside the box (x, y, w, h). */
  predicate Inside(px: real, py: real, x: real, y: real, w: real, h: real)
  {
    x < px < x + w && y < py < y + h
  }

  /**
   * For boxes of positive size, the strict overlap test holds exactly when some
   * point lies strictly inside both boxes.
   */
  lemma OverlapsIffSharedPoint(x1: real, y1: real, w1: real, h1: real, x2: real, y2: real, w2: real, h2: real)
    requires w1 > 0.0 && h1 > 0.0 && w2 > 0.0 && h2 > 0.0
    ensures Overlaps(x1, y1, w1, h1, x2, y2, w2, h2)
        <==> exists px, py :: Inside(px, py, x1, y1, w1, h1) && Inside(px, py, x2, y2, w2, h2)
  {
    if Overlaps(x1, y1, w1, h1, x2, y2, w2, h2) {
      var px := (Max(x1, x2) + Min(x1 + w1, x2 + w2)) / 2.0;
      var py := (Max(y1, y2) + Min(y1 + h1, y2 + h2)) / 2.0;
      assert Inside(px, py, x1, y1, w1, h1) && Inside(px, py, x2, y2, w2, h2);
    }
  }

  /** The road-collision test: the frog's box at (fx, fy) against a hazard at (x, laneY) of the given width. */
  predicate FrogHit(fx: real, fy: real, x: real, laneY: real, width: real)
  {
    Overlaps(fx, fy, FROG_SIZE, FROG_SIZE, x, laneY, width, FROG_SIZE)
  }

  /** The frog's centre row lies strictly inside the lane's band (laneY - 10, laneY + 40). */
  predicate InLane(fy: real, laneY: real)
  {
    var top := laneY - 10.0;
    fy + 15.0 > top && fy + 15.0 < top + GRID_SIZE
  }

  /** The frog's centre column lies strictly inside the log's span. */
  predicate OnLog(fx: real, x: real, width: real)
  {
    fx + 15.0 > x && fx + 15.0 < x + width
  }

  /**
   * Standing on a log is a stronger condition than touching it: a frog that is in
   * the lane and centred over the log also overlaps the log's box, so the same
   * position on a road lane would be a collision.
   */
  lemma OnLogTouchesLog(fx: real, fy: real, x: real, laneY: real, width: real)
    requires InLane(fy, laneY) && OnLog(fx, x, width)
    ensures FrogHit(fx, fy, x, laneY, width)
  {
  }

  /** A collision example: frog box [100,130] x [300,330] against a car at [110,150] x [295,325]. */
  lemma CollisionExample()
    ensures FrogHit(100.0, 300.0, 110.0, 295.0, 40.0)
    ensures !FrogHit(100.0, 300.0, 130.0, 295.0, 40.0)
  {
  }
}
