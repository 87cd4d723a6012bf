# Frogger: a verified model of the game rules

App.js is a browser Frogger game. A frog jumps one grid cell at a time across
road lanes and water lanes. It dies on contact with a car, in open water, when
carried off screen by a log, or off the side of the field. It clears a stage by
reaching the top safe row. This project models the rules of that game in Dafny,
without React, the canvas or audio, and proves what they guarantee.

- `field.dfy` (module `Field`): the playfield constants (grid 50, field 600 x 600,
  start cell (285, 560)), the clamp, and the box tests used for collisions,
  lane occupancy and standing on a log.
- `input.dfy` (module `Input`): key names (arrow keys and WASD, any case), the
  swipe normaliser, and the position update one jump commits (`Jump`).
- `session.dfy` (module `GameSession`): the START / PLAYING / GAMEOVER state
  machine of `App` as pure functions on a session record. It also proves facts
  about whole runs of events: the high score is the best ended score, and
  score = 10 · (stage − 1).
- `lanes.dfy` (module `Lanes`): `initLanes` as a function of its random draws
  (`Generate`), the layout it guarantees, and one tick of hazard motion and wrap.
- `resolver.dfy` (module `Resolver`): the flags one animation frame gathers
  (`ScanLanes`) and the verdict drawn from them (`Resolve`, `TickOutcome`). Both
  are proved against reference definitions: run over, submerged, carried.
- `game.dfy` (module `Frogger`): class `Game`, holding the session fields, the
  frog and the lanes. Its handlers are methods specified by the functions above:
  - `HandleKeyDown` and `HandleTouchEnd` make a jump;
  - `HandleSpace` and `StartGame` start a game;
  - `HandleStageComplete` and `HandleGameOver` are the session transitions;
  - `Tick` is the simulation part of `animate`. It is built from the
    per-hazard step `MoveObject` and two loops: `SweepLane` over the hazards
    of one lane and `SweepLanes` over all lanes. `Settle` then resolves the
    frame.

   The class invariant `Valid` holds four facts:
   - score = 10 · (stage − 1);
   - every lane moves and every hazard is within [−width, 600];
   - no two lane bands meet;
   - the frog is inside the clamp bounds and below the goal row.

Random draws are parameters. `StageDraws` carries the values `Math.random()`
would return, each in [0, 1). Coordinates and speeds are `real`.

Three consequences of App.js worth knowing:
- The side check uses the frog's x at the start of the frame (App.js:392). It is
  not applied to the drifted x. So a frog drifting left dies when its
  frame-start x is below −10, before the drift bound of −30 is reached. See
  `Resolver.DriftExample`.
- The stage is cleared by the jump itself, when the clamped y is below 50
  (App.js:232). No animation frame is involved, and a frog cannot be committed
  to y < 50.
- A frog cannot be in two lanes at once in any generated layout. The lane bands
  are proved disjoint (`Lanes.GenerateLayout`) and stay so, as part of the
  game's invariant. So the drift speed is always the speed of the frog's own
  lane (`Resolver.DriftIsOwnLaneSpeed`, `Frogger.Game.Tick`).

## Model

| member | source | states |
|---|---|---|
| Field.Clamp | App.js:229-230 | the result lies in [lo, hi]; it equals v inside the range, lo below it, hi above it |
| Field.FrogHit | App.js:348-351 | the frog's 30 x 30 box overlaps a hazard's box of the lane; see OverlapsIffSharedPoint and CollisionExample |
| Field.OverlapsIffSharedPoint | App.js:348-351 | the strict four-comparison overlap test holds exactly when some point lies strictly inside both boxes |
| Field.InLane | App.js:315-316 | the frog's centre row lies strictly inside the lane's 50-high band; see OnLogTouchesLog and LaneGap |
| Field.OnLog | App.js:371-373 | the frog's centre column lies strictly inside the log's span; see OnLogTouchesLog |
| Field.OnLogTouchesLog | App.js:371-373 | a frog in a lane and centred over a log also overlaps the log's 30-high box |
| Field.CollisionExample | App.js:348-351 | frog box [100,130]x[300,330] hits a car at [110,150]x[295,325]; the same car at x = 130 does not |
| Input.KeyDirection | App.js:219-223 | the direction a key asks for after lower-casing, if any; see KeyDirectionByName and UpperCaseKeysExample |
| Input.KeyDirectionByName | App.js:219-223 | a key asks for direction d iff its lower-cased form is one of d's names: arrowup/w, arrowdown/s, arrowleft/a, arrowright/d |
| Input.UpperCaseKeysExample | App.js:219-223 | "ArrowUp" and "W" ask for Up, "ARROWLEFT" for Left, "D" for Right; "Enter" asks for nothing |
| Input.KeyNameRoundTrip | App.js:267-271 | every key name the swipe handler sends is read by the key handler as the same direction |
| Input.SwipeDirection | App.js:259-270 | no direction iff max(abs dx, abs dy) <= 20; Right iff dx > 20 and dx > abs dy; Left, Down, Up likewise, with ties going vertical |
| Input.SwipeKey | App.js:264-272 | a key event is produced iff the swipe has a direction, and the key handler decodes it to that direction |
| Input.Jump | App.js:216-238 | every landing is inside the clamp bounds and below the goal row; a clearing landing is the start cell |
| Input.JumpMovesOneAxis | App.js:220-230 | a non-clearing jump changes only its own axis, by at most 50; by exactly 50 when the target is inside the clamp bounds, and onto the bound itself when the target is past it |
| Input.ClearsExactlyFromSecondRow | App.js:229-235 | from any committed position a jump clears the stage iff it is Up from y < 100 |
| Input.ClearExample | App.js:232-235 | a frog at (285, 60) jumping up lands on (285, 560) and clears the stage |
| GameSession.AfterStart | App.js:82-87 | startGame gives PLAYING with score 0 and stage 1, keeps the high score, and satisfies score = 10 · (stage − 1) |
| GameSession.AfterGameOver | App.js:89-97 | outside PLAYING nothing changes; in PLAYING the state is GAMEOVER and the high score is max(old, finalScore); score and stage never change |
| GameSession.AfterStageComplete | App.js:99-103 | score +10 and stage +1; state and high score kept |
| GameSession.AfterSpace | App.js:106-110 | during PLAYING, and for any key but a space, the handler changes nothing; a space outside PLAYING restarts: PLAYING, score 0, stage 1, high score kept |
| GameSession.TransitionsKeepScore | App.js:82-103 | every transition preserves score = 10 · (stage − 1) |
| GameSession.GameOverIdempotent | App.js:89-92 | a second game-over report after the first changes nothing |
| GameSession.OnlySpaceLeavesIdle | App.js:106-110 | outside PLAYING the space handler reaches PLAYING iff the key is a space, and changes the session iff it is; game-over reports are ignored |
| GameSession.HighScoreIsBest | App.js:93-96 | after any run of events the high score is the maximum of the stored value and the scores of the games that ended |
| GameSession.HighScoreNeverDecreases | App.js:93-96 | along any run of events the high score never decreases and is at least every ended game's score |
| GameSession.RunKeepsScore | App.js:82-103 | any run of events preserves score = 10 · (stage − 1) |
| GameSession.StageClearExample | App.js:99-103 | starting a game and clearing one stage gives PLAYING, score 10, stage 2 |
| Lanes.LaneCount | App.js:183 | 3 + floor(2r) is 3 or 4, and 4 exactly when r >= 0.5 |
| Lanes.ObjectCount | App.js:193 | 2 + floor(2r) is 2 or 3, and 3 exactly when r >= 0.5 |
| Lanes.LaneSpeed | App.js:190 | even lanes run right at speed in [1.2 + 0.15·stage, 2.7 + 0.15·stage), odd lanes left with the same magnitude; the speed is never 0 |
| Lanes.ObjectWidth | App.js:198 | logs are 80 to 120 wide, cars 40 to 70 |
| Lanes.LaneBand | App.js:185-189 | each lane's band lies between the two safe rows and does not contain the start cell |
| Lanes.LaneGap | App.js:185-189 | two lanes of one layout are at least 125 apart vertically |
| Lanes.Generate | App.js:182-205 | initLanes as a function of its random draws; see GenerateLayout and GenerateOk |
| Lanes.GenerateLayout | App.js:182-205 | initLanes builds 3 or 4 lanes with disjoint bands between the safe rows; lane i's direction follows its parity and its speed is at least 1.2 + 0.15·stage; each lane has 2 or 3 hazards with widths of their kind, all starting on screen |
| Lanes.GenerateOk | App.js:182-205 | every generated layout satisfies the lane invariant (every lane moves, every hazard on track) and has disjoint lane bands |
| Lanes.Advance | App.js:323-326 | one tick keeps a hazard's width and keeps a hazard within [−width, 600] |
| Lanes.AdvanceMovesOrWraps | App.js:323-326 | a hazard either moves by exactly the lane speed, or wraps to −width (moving right past 600) or to 600 (moving left past −width) |
| Lanes.AdvanceLane | App.js:323-326 | every hazard of one lane takes one Advance step; see AdvanceKeepsLayout and Frogger.Game.SweepLane |
| Lanes.AdvanceAll | App.js:314-326 | every lane takes one AdvanceLane step, in order; see AdvanceOk, AdvanceKeepsLayout and Frogger.Game.SweepLanes |
| Lanes.AdvanceOk | App.js:323-326 | a tick preserves the lane invariant |
| Lanes.AdvanceKeepsLayout | App.js:314-326 | a tick keeps the lanes, their y, speed, kind, hazard count and hazard widths, the lane invariant and disjoint bands |
| Resolver.ScanObject | App.js:323-377 | one hazard's contribution to the frame flags: a road hit, or standing on a log and taking its lane's speed; see ScanObjectsMeaning |
| Resolver.ScanLane | App.js:315-377 | one lane's in-water flag and its hazards' contributions; see ScanObjectsMeaning and ScanLanesFlags |
| Resolver.ScanLanes | App.js:314-379 | the flags and drift speed one frame gathers over all lanes; see ScanLanesFlags, ScanLanesDrift and DriftIsOwnLaneSpeed |
| Resolver.Resolve | App.js:381-394 | the drown, drift and side checks applied to the gathered flags; see TickOutcomeMeaning and SurvivorStaysInside |
| Resolver.TickOutcome | App.js:381-394 | the verdict of one frame for a frog and the moved lanes; see TickOutcomeMeaning |
| Resolver.ScanObjectsMeaning | App.js:323-377 | the hazard loop of a lane reports a hit iff a road hazard overlaps the frog, and on-log iff a water hazard holds the frog centred in its lane, taking that lane's speed |
| Resolver.ScanLanesFlags | App.js:314-379 | the frame reports a hit iff some road lane runs the frog over, in-water iff some water lane's band holds it, and on-log iff some water lane carries it |
| Resolver.ScanLanesDrift | App.js:371-376 | the drift speed reported is that of the last lane that carries the frog |
| Resolver.TickOutcomeMeaning | App.js:381-394 | game-over fires iff the frog is run over, or is in water and carried by no log, or drifts past [−30, 600], or started the frame outside [−10, 580]; x moves by the drift speed iff it drifts and is not carried off |
| Resolver.SurvivorStaysInside | App.js:383-394 | the frog's x stays within [−30, 600] and either stays put or moves by exactly the reported drift speed; a survivor started the frame within [−10, 580] |
| Resolver.DriftIsOwnLaneSpeed | App.js:314-376 | with disjoint lane bands, the drift speed is that of the water lane the frog stands in |
| Resolver.DrownExample | App.js:381 | a frog in a water lane with no log beneath it dies |
| Resolver.DriftExample | App.js:383-394 | on a log of speed −2, a frog at x = 0 is at −2 after a tick; at x = −12 the side check ends the game |
| Frogger.Game.constructor | App.js:77-80 | the page starts in START with score 0, stage 1 and the stored high score (App.js:77-80), the frog on the start cell and no lanes (App.js:161-166), and the invariant holding |
| Frogger.Game.InitLanes | App.js:182-205 | the lanes become Generate(stage, draws), satisfy the lane invariant and have disjoint bands |
| Frogger.Game.StartGame | App.js:82-87 | called only outside PLAYING (App.js:107, 146), the session becomes AfterStart of the old one; the effect at App.js:207-212 then regenerates the lanes for stage 1 and puts the frog on the start cell; the invariant is kept |
| Frogger.Game.HandleGameOver | App.js:89-97 | the session becomes AfterGameOver(old session, finalScore), and the game invariant is kept |
| Frogger.Game.HandleStageComplete | App.js:99-103 | called only while PLAYING (App.js:233), the session becomes AfterStageComplete of the old one; the effect at App.js:207-212 then regenerates the lanes for the new stage and puts the frog on the start cell; the invariant is kept |
| Frogger.Game.HandleKeyDown | App.js:214-240 | outside PLAYING, or for an unrecognised key, nothing changes; otherwise the frog lands where Jump says, and a clearing jump completes the stage; the invariant is kept |
| Frogger.Game.HandleTouchEnd | App.js:255-274 | outside PLAYING nothing changes; otherwise the effect is a key press in the swipe's direction (none for a short swipe); the invariant is kept |
| Frogger.Game.HandleSpace | App.js:106-110 | the session becomes AfterSpace of the old one; a start regenerates the lanes and resets the frog, otherwise frog and lanes are untouched |
| Frogger.Game.MoveObject | App.js:323-377 | hazard j of lane i becomes Advance of itself and nothing else in the lanes changes; the flags are updated as ScanObject says; a hit reports game-over |
| Frogger.Game.SweepLane | App.js:314-379 | lane i becomes AdvanceLane of itself; the flags are ScanLane of the moved lane; game-over is reported iff a hit was found |
| Frogger.Game.SweepLanes | App.js:309-379 | the lanes become AdvanceAll of the old lanes; the flags are ScanLanes of the moved lanes; game-over is reported iff a hit was found |
| Frogger.Game.Settle | App.js:381-394 | the frog's x becomes Resolve(fx, flags).x and stays inside the clamp bounds; game-over is reported iff Resolve says the frog is dead |
| Frogger.Game.Tick | App.js:309-395 | outside PLAYING nothing changes; in PLAYING the lanes become AdvanceAll of the old lanes, the frog's x is that of TickOutcome, and game-over is reported iff TickOutcome is dead; a frog carried by lane i that survives moves by exactly lane i's speed; the invariant is kept |

## Left out

- Canvas drawing, sprites, colours and the HUD and overlay markup: rendering only; the overlay button's `startGame` is `Frogger.Game.StartGame`.
- `playSound` and the Web Audio API: a fire-and-forget side effect with no influence on the game state.
- `localStorage`: the stored high score is the constructor's parameter and is never written back. It is stored as a string in the original; that coercion is not reproduced.
- React plumbing is flattened into direct calls. This covers `useState`/`useRef`/`useEffect` synchronisation, listener registration and teardown, `requestAnimationFrame` scheduling, and the `setTimeout` that defers `onStageComplete`. The order the handlers run in is kept.
- Frogger.Game.StartGame and Frogger.Game.HandleStageComplete: the effect at App.js:207-212 that runs `initLanes` and resets the frog fires only in PLAYING and only when the state or the stage changed. `startGame` is only called outside PLAYING (App.js:107, 146) and `handleStageComplete` only from a jump while PLAYING (App.js:233), so the two methods require those states and the effect always fires; the model performs it within the same method. A call from another state, which App.js never makes, is not modelled.
- Frogger.Game.Tick: `onGameOver` calls within one frame are sequential. Each sees the state left by the previous one, so only the first acts. In the original, a stale closure lets each of them see PLAYING; the only extra effect is a repeated sound.
- Frogger.Game.HandleTouchEnd: takes the swipe's displacement directly. The touch-start recording and its null guard (`handleTouchStart`, `touchStartRef`) are not modelled.
- Frogger.Game.HandleKeyDown: the `isJumping` sprite-frame toggle is not modelled; it is cosmetic.
- Input.KeyDirection: lower-cases ASCII letters only. `toLowerCase` agrees with it on every key name that is recognised.
- Lanes.Generate: `Math.random()` values are explicit parameters in [0, 1). Their consumption order and the colour draw for cars are not modelled.
- Lanes and hazards are values. `lanesRef.current` is a `seq` field that the tick methods reassign element by element. The original mutates shared lane and hazard objects in place; no code holds a second reference to them, so there is no aliasing to model.
- Arithmetic is exact (`real`): IEEE-754 rounding of positions and speeds is not modelled.
