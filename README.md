# Drive Mad — a verified model of the game simulation

Drive Mad is a canvas arcade game. The player steers a car left and right across the
three lanes of a road, dodges oncoming cars and collects fuel cans, and the game speeds
up over time. This project models the per-frame simulation of `script.js` in Dafny and
proves its rules:

- the inclusive box-overlap test;
- lane placement;
- the spawners, with their random draws passed in as parameters;
- one frame of `update`, in its eleven steps;
- the session controls `startGame`, `togglePause`, `endGame` and `resetGame`, and the
  visibility rule that pauses a hidden game.

Layout, one module per file:

- `seqs.dfy` (`Seqs`): order-preserving `Filter`, the model of `Array.prototype.filter`
  and of splicing elements out one by one.
- `geometry.dfy` (`Geometry`): `Rect` and `RectsOverlap`.
- `field.dfy` (`Field`): canvas and road constants, `LaneX` (`randLaneX`), the clamp.
- `entities.dfy` (`Entities`): obstacle cars and fuel pickups, the spawners as functions,
  and falling.
- `simulation.dfy` (`Simulation`): the whole game state as a value (`Session`). It
  holds the rules of one tick (`Ticked`, `Moved`, `Steered`, `Resolved`, composed
  into `Step`), the controls (`Started`, `Toggled`, `Ended`, `Reset`, `OnHidden`)
  and the lemmas about them.
- `sweeps.dfy` (`Sweeps`): the four loops of a tick as methods. Each is proved to
  compute its specifying function.
- `game.dfy` (`GameLoop`): class `Game`. Its fields are the script's globals, and its
  methods are the script's functions:
  - The constructor ensures `State() == Initial(storedHighscore)`, the state at page
    load, and establishes the invariant `Inv`: the speed multiplier is at least 0.9,
    and the player is on the road.
  - `Update`, `StartGame`, `TogglePause`, `ResetGame` and `OnVisibilityChange` ensure
    `State() == F(old(State()))` for the matching function `F` of `Simulation`, and
    keep `Inv`.
  - The step helpers `AdvanceFrame`, `MoveEntities`, `ApplyControls` and
    `ResolveContacts`, and `EndGame`, give the new state through their `Simulation`
    function (`Ticked`, `Moved`, `Steered`, `Resolved`, `Ended`).
  - The spawners `SpawnObstacle` and `SpawnPickup` give the entity they append.

Numbers are exact `real`s. The road edges are the values that `initCanvasSize` sets:
62 and 417. Lanes are 355/3 wide. The player is 48 × 88 at y = 580 and steers 6 units
per tick.

Facts of the code that the model keeps:

- Lane placement centres the player's width (48) for both entity kinds
  (script.js:96-99, 106, 118). An obstacle (44 wide) therefore sits 2 units left of its
  lane's centre. A pickup is shifted by a further (48 − 28)/2 and so is exactly centred.
- Every pickup that overlaps the player in a tick is collected, each worth +15
  (script.js:238-248).
- The spawn interval is 90 at load (script.js:71) and 100 after a start
  (script.js:293). A reset leaves it alone (script.js:322-335).
- With both steering keys held, left is applied, then right, so the net move is zero
  (script.js:222-223).

One frame of `update` runs eleven steps in order:

1. Advance the frame counter (script.js:198).
2. On a cadence tick, spawn an obstacle, plus a pickup when the coin is below 0.25
   (script.js:200-203).
3. Add 0.15 to the speed multiplier every 600 frames (script.js:206-209).
4. Move every entity down (script.js:212-213, 218).
5. Drop the entities past H + 200 (script.js:215, 219).
6. Steer (script.js:222-223).
7. Clamp the player to the road (script.js:225-226).
8. End the game at the first obstacle hit (script.js:229-235).
9. Collect the overlapping pickups (script.js:238-248).
10. Add the passive score (script.js:251).
11. Remove the obstacles past H + 100, with +2 each (script.js:255-261).

`Ticked` is steps 1–3, `Moved` is steps 4–5, `Steered` is steps 6–7 and `Resolved` is
steps 8–11.

## Model

| member | source | states |
|---|---|---|
| Geometry.RectsOverlapSymmetric | script.js:124-126 | the overlap test gives the same answer with its arguments swapped |
| Geometry.OverlapIffCommonPoint | script.js:124-126 | for boxes of non-negative size, the test holds exactly when the two closed boxes share a point, so boxes that only touch overlap |
| Field.RoadEdgesFromWidth | script.js:342-343 | the road edges are floor(480·0.13) = 62 and floor(480·0.87) = 417; a lane is wider than the player |
| Field.LaneX | script.js:96-99 | the placed x puts a player-wide box inside its lane, with equal gaps on both sides |
| Field.LanesTileTheRoad | script.js:96-99 | each of the three lanes, and a player-wide box placed in it, lies on the road; neighbouring lanes are one lane width apart |
| Field.Clamp | script.js:225-226 | the result is in [left+6, right−48−6]; it is the input when that is in range, and the nearer bound otherwise |
| Entities.NewObstacle | script.js:102-112 | a new obstacle is a 44×88 car inside its lane whose bottom edge is `drop` above the field (so less than 80 for a drop in [0,80)), with speed 2+0.6·m plus the jitter, so in [2+0.6·m, 4+0.6·m) for jitter in [0,2) |
| Entities.NewPickup | script.js:115-121 | a new pickup is a 28-unit square centred in its lane whose bottom edge is `drop` above the field (so less than 60 for a drop in [0,60)), with speed 2+0.6·m |
| Entities.ObstacleSitsLeftOfCentre | script.js:98-106 | an obstacle's centre is 2 units left of its lane's centre, because placement centres the player's width |
| Entities.SpawnSpeedMonotone | script.js:110-120 | with the jitter fixed, spawn speeds never decrease as the speed multiplier grows |
| Entities.FallKeepsShape | script.js:212-218 | falling changes only y, keeping kind, column, size and speed, and never moves a non-negative-speed entity up |
| Simulation.SpawnPeriod | script.js:200 | the spawn period is at least 30; above 30 it is the floor of spawnInterval − 6·speedMultiplier |
| Simulation.SpawnPeriodShrinks | script.js:200 | a higher speed multiplier never lengthens the spawn period |
| Simulation.TickSpawnsAtMostOne | script.js:200-203 | a tick appends exactly one obstacle on a cadence tick and none otherwise, and exactly one pickup when it is a cadence tick and the coin is below 0.25, behind the existing entities; the appended entities are the spawners' at the multiplier from before the difficulty bump |
| Simulation.TickDifficulty | script.js:198-209 | the frame counter goes up by one; the speed multiplier rises by exactly 0.15 when the new frame is a multiple of 600 and is otherwise unchanged |
| Simulation.Steer | script.js:222-223 | the net steering displacement is +6 for right minus 6 for left, so zero with both keys held |
| Simulation.StepIdle | script.js:196 | a tick of a stopped or paused game leaves the whole state unchanged |
| Simulation.StepKeepsPlayerOnRoad | script.js:222-226 | after a running tick the player x is the clamped steered x and lies in [68, 363] for every key combination; with both keys held it is the clamped old x |
| Simulation.StepPreservesInv | script.js:195-262 | every tick keeps the speed multiplier at or above 0.9 and the player on the road |
| Simulation.StepUnfolds | script.js:195-262 | a running tick is steps 1–7 followed by steps 8–11, and steps 1–7 leave the score alone and the game running, with the speed multiplier that steps 1–3 left |
| Simulation.StepSpeed | script.js:206-248 | over a whole running tick the multiplier first gains 0.15 exactly when the new frame is a multiple of 600; a tick that ends the run keeps that value, and otherwise it is relieved once per pickup removed (−0.08 each, floor 0.9) |
| Simulation.StepCollisionEndsRun | script.js:229-235 | on a hit the game stops with the score frozen at its pre-tick value, the high score becomes max(old, floor(score)) and changes only if floor(score) is strictly greater, and later ticks change nothing |
| Simulation.ResolvedWithoutCollision | script.js:237-261 | with no hit, a pickup is removed exactly when it overlaps the player, the remaining obstacles are exactly those at or above H+100, the score gains 15 per pickup removed, the passive amount and 2 per obstacle removed, and the speed multiplier is relieved once per pickup |
| Simulation.Relieved | script.js:244 | after k ≥ 1 pickups the speed multiplier is at least 0.9 (and stays ≥ 0.9 if it was); it never exceeds max(old, 0.9) |
| Simulation.RelievedClosedForm | script.js:238-248 | after k ≥ 1 pickups the speed multiplier is max(0.9, old − 0.08·k) |
| Simulation.PassedCount | script.js:255-261 | the number of obstacles removed by the pass filter is the number that were past H+100 |
| Simulation.EndedHighscore | script.js:308-320 | game over stops the run and keeps the score; the high score is the larger of the old one and floor(score), and changes iff floor(score) is strictly greater |
| Simulation.StartedBeginsFreshRun | script.js:283-299 | starting a running game does nothing; starting a stopped one gives a fresh run (frame 0, score 0, no entities, multiplier 1, player centred, interval 100) with the high score kept |
| Simulation.ResetThenStart | script.js:322-335 | reset gives the load-time state except the high score and the spawn interval, which are kept; reset followed by start always gives a fresh run |
| Simulation.ToggleInvolutive | script.js:301-306 | toggling does nothing unless running; otherwise it flips the pause flag, and two toggles restore the state |
| Simulation.HiddenPauses | script.js:356-361 | hiding the page pauses a running game and never unpauses; a visible page or a stopped game is left unchanged; only the pause flag can change |
| Simulation.ControlsPreserveInv | script.js:283-335 | the load-time state and every control keep the invariant |
| Seqs.Filter | script.js:215 | the filtered list is no longer than the list, and a value is in it exactly when it is in the list and passes the test |
| Seqs.FilterAppend | script.js:238-248 | filtering distributes over concatenation, so survivors keep their relative order |
| Seqs.FilterCount | script.js:215 | each value occurs in the filtered list exactly as often as in the list when it passes the test, and not at all otherwise |
| Sweeps.MoveAndCull | script.js:212-219 | the move-then-filter loop returns the fallen entities still above H+200, in order |
| Sweeps.HitsAny | script.js:229-235 | the early-exit collision loop reports a hit exactly when some obstacle overlaps the player |
| Sweeps.CollectPickups | script.js:238-248 | the backward splice loop leaves exactly the non-overlapping pickups in order, adds 15 per removed pickup and relieves the multiplier once per removed pickup |
| Sweeps.AwardPassed | script.js:255-261 | the pass filter keeps exactly the obstacles at or above H+100, in order, and adds 2 per removed obstacle |
| GameLoop.Game.constructor | script.js:40-71 | the load-time state: stopped, score 0, multiplier 1, interval 90, no entities, player centred, high score as stored |
| GameLoop.Game.SpawnObstacle | script.js:102-112 | appends exactly the obstacle that the spawner function describes for the given draws |
| GameLoop.Game.SpawnPickup | script.js:115-121 | appends exactly the pickup that the spawner function describes for the given draws |
| GameLoop.Game.Update | script.js:195-262 | the new state is one tick of the specification, and the invariant is kept |
| GameLoop.Game.AdvanceFrame | script.js:198-209 | the new state is the specification's steps 1–3 |
| GameLoop.Game.MoveEntities | script.js:211-219 | the new state is the specification's steps 4–5 |
| GameLoop.Game.ApplyControls | script.js:221-226 | the new state is the specification's steps 6–7 |
| GameLoop.Game.ResolveContacts | script.js:228-261 | the new state is the specification's steps 8–11 |
| GameLoop.Game.StartGame | script.js:283-299 | the new state is the start transition, and the invariant is kept |
| GameLoop.Game.TogglePause | script.js:301-306 | the new state is the toggle transition, and the invariant is kept |
| GameLoop.Game.EndGame | script.js:308-320 | the new state is the game-over transition |
| GameLoop.Game.ResetGame | script.js:322-335 | the new state is the reset transition, and the invariant is kept |
| GameLoop.Game.OnVisibilityChange | script.js:356-361 | the new state is the visibility transition, and the invariant is kept |

## Left out

- Drawing (`drawRoad`, `drawPlayer`, `drawObstacles`, `drawPickups`, `render`): output
  only, with no effect on the state.
- Responsive sizing (`fitCanvas`) and the resize listener: page layout.
- Keyboard, touch and button listeners: the held keys are an input to `Update`
  (`Controls`). The buttons are the `Game` methods.
- `localStorage`: the stored high score is a constructor parameter, and the value that
  `endGame` would write is the `highscore` field. A stored value that is not a number
  (which the script would read as NaN) is not modelled.
- Text updates of the score, speed and pause readouts, and the game-over panel: display
  only.
- The `requestAnimationFrame` loop, its cancellation, and the duplicate loop that resuming
  can start: this is host scheduling. The model applies one `Update` per frame.
- `Math.random`: each tick's draws are passed in as `Draws`. These are the obstacle
  lane, jitter and drop, the pickup coin, and the pickup lane and drop. `ValidDraws`
  states their ranges.
- The obstacle colour: cosmetic, and its random draw is not modelled.
- IEEE-754 rounding of score and speed arithmetic: the model uses exact reals.
- The initial road edges 60 and W − 60: `initCanvasSize` replaces them with 62 and 417
  before any game can start.
