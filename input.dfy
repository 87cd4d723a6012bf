/**
 * Turning key presses and swipes into jumps (handleKeyDown and handleTouchEnd
 * in App.js): the key names recognised, the swipe normaliser, and the position
 * update a jump commits.
 */
module Input {
  import opened Wrappers
  import opened Field

  datatype Dir = Up | Down | Left | Right

  /** ASCII lower-casing; it agrees with toLowerCase on every recognised key name. */
  function LowerChar(c: char): char
  {
    if 'A' <= c <= 'Z' then (c as int + 32) as char else c
  }

  function LowerCase(s: string): string
  {
    seq(|s|, i requires 0 <= i < |s| => LowerChar(s[i]))
  }

  /** The direction a key press asks for: arrow keys and WASD, in any case. */
  function KeyDirection(key: string): Option<Dir>
  {
    var k := LowerCase(key);
    if k == "arrowup" || k == "w" then Some(Up)
    else if k == "arrowdown" || k == "s" then Some(Down)
    else if k == "arrowleft" || k == "a" then Some(Left)
    else if k == "arrowright" || k == "d" then Some(Right)
    else None
  }

  /** The key name the swipe handler sends on to the key handler. */
  function KeyName(d: Dir): string
  {
    match d
    case Up => "arrowup"
    case Down => "arrowdown"
    case Left => "arrowleft"
    case Right => "arrowright"
  }

  /** Every key name a swipe produces is read back by the key handler as the same direction. */
  lemma KeyNameRoundTrip(d: Dir)
    ensures KeyDirection(KeyName(d)) == Some(d)
  {
    var k := KeyName(d);
    assert LowerCase(k) == k;
  }

  /** The key names, in lower case, that ask for each direction. */
  function KeyNames(d: Dir): set<string>
  {
    match d
    case Up => {"arrowup", "w"}
    case Down => {"arrowdown", "s"}
    case Left => {"arrowleft", "a"}
    case Right => {"arrowright", "d"}
  }

  /** A key asks for direction d exactly when its lower-cased form is one of d's names. */
  lemma KeyDirectionByName(key: string, d: Dir)
    ensures KeyDirection(key) == Some(d) <==> LowerCase(key) in KeyNames(d)
  {
  }

  /** Upper- and mixed-case key names are recognised like their lower-case forms. */
  lemma UpperCaseKeysExample()
    ensures KeyDirection("ArrowUp") == Some(Up) && KeyDirection("W") == Some(Up)
    ensures KeyDirection("ARROWLEFT") == Some(Left) && KeyDirection("D") == Some(Right)
    ensures KeyDirection("Enter") == None
  {
    assert LowerCase("ArrowUp") == "arrowup";
    assert LowerCase("W") == "w";
    assert LowerCase("ARROWLEFT") == "arrowleft";
    assert LowerCase("D") == "d";
    assert LowerCase("Enter") == "enter";
  }

  function Abs(v: real): (r: real)
  {
    if v < 0.0 then -v else v
  }

  /** The minimum travel, on the dominant axis, for a swipe to count. */
  const SWIPE_THRESHOLD: real := 20.0

  /**
   * The swipe normaliser: nothing below the threshold; otherwise the dominant
   * axis (ties go vertical) and the sign of its delta. Stated region by region.
   */
  function SwipeDirection(dx: real, dy: real): (r: Option<Dir>)
    ensures r == None <==> Max(Abs(dx), Abs(dy)) <= SWIPE_THRESHOLD
    ensures r == Some(Right) <==> dx > SWIPE_THRESHOLD && dx > Abs(dy)
    ensures r == Some(Left) <==> dx < -SWIPE_THRESHOLD && -dx > Abs(dy)
    ensures r == Some(Down) <==> dy > SWIPE_THRESHOLD && Abs(dx) <= dy
    ensures r == Some(Up) <==> dy < -SWIPE_THRESHOLD && Abs(dx) <= -dy
  {
    var absX, absY := Abs(dx), Abs(dy);
    if Max(absX, absY) > SWIPE_THRESHOLD then
      if absX > absY then
        (if dx > 0.0 then Some(Right) else Some(Left))
      else
        (if dy > 0.0 then Some(Down) else Some(Up))
    else None
  }

  /** The key event a swipe is turned into, if any; the key handler decodes it to the swipe's direction. */
  function SwipeKey(dx: real, dy: real): (r: Option<string>)
    ensures r.None? <==> SwipeDirection(dx, dy).None?
    ensures r.Some? ==> KeyDirection(r.value) == SwipeDirection(dx, dy)
  {
    match SwipeDirection(dx, dy)
    case None => None
    case Some(d) => KeyNameRoundTrip(d); Some(KeyName(d))
  }

  function DeltaX(d: Dir): real
  {
    match d
    case Left => -GRID_SIZE
    case Right => GRID_SIZE
    case _ => 0.0
  }

  function DeltaY(d: Dir): real
  {
    match d
    case Up => -GRID_SIZE
    case Down => GRID_SIZE
    case _ => 0.0
  }

  /** Where a jump lands, and whether it reached the goal row (which fires stage-complete). */
  datatype Landing = Landing(x: real, y: real, cleared: bool)

  /**
   * The position update of handleKeyDown: one grid step, clamped; a landing above
   * the first grid row sends the frog back to the start cell and clears the stage.
   */
  function Jump(x: real, y: real, d: Dir): (l: Landing)
    ensures InField(l.x, l.y)
    ensures l.cleared ==> l.x == START_X && l.y == START_Y
  {
    var nx := Clamp(x + DeltaX(d), MIN_X, MAX_X);
    var ny := Clamp(y + DeltaY(d), MIN_Y, MAX_Y);
    if ny < GRID_SIZE then Landing(START_X, START_Y, true)
    else Landing(nx, ny, false)
  }

  /**
   * From any committed position, a jump that does not clear the stage changes
   * exactly the coordinate of its axis, by at most one grid cell, and by exactly
   * one grid cell when the target is inside the clamp bounds; a target past a
   * bound lands on that bound.
   */
  lemma JumpMovesOneAxis(x: real, y: real, d: Dir)
    requires InField(x, y)
    ensures var l := Jump(x, y, d);
      !l.cleared ==>
        (d in {Left, Right} ==>
           l.y == y && Abs(l.x - x) <= GRID_SIZE
           && (MIN_X <= x + DeltaX(d) <= MAX_X ==> l.x == x + DeltaX(d))
           && (x + DeltaX(d) > MAX_X ==> l.x == MAX_X)
           && (x + DeltaX(d) < MIN_X ==> l.x == MIN_X))
        && (d in {Up, Down} ==>
           l.x == x && Abs(l.y - y) <= GRID_SIZE
           && (MIN_Y <= y + DeltaY(d) <= MAX_Y ==> l.y == y + DeltaY(d))
           && (y + DeltaY(d) > MAX_Y ==> l.y == MAX_Y))
  {
  }

  /** From a committed position, a jump clears the stage exactly when it is upward from a row above y = 100. */
  lemma ClearsExactlyFromSecondRow(x: real, y: real, d: Dir)
    requires InField(x, y)
    ensures Jump(x, y, d).cleared <==> d == Up && y < 2.0 * GRID_SIZE
  {
  }

  /** A frog at (285, 60) that jumps up clears the stage and is back on the start cell. */
  lemma ClearExample()
    ensures Jump(285.0, 60.0, Up) == Landing(285.0, 560.0, true)
  {
  }
}
