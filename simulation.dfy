/** The game state as a value and the rules of one frame and of the session
    transitions, as functions. The `Game` class follows these functions step by step. */
module Simulation {
  import opened Seqs
  import opened Geometry
  import opened Field
  import opened Entities

  /** All the state the per-frame simulation and the controls touch. */
  datatype Session = Session(
    running: bool,
    paused: bool,
    frame: nat,
    score: real,
    highscore: int,
    speedMultiplier: real,
    spawnInterval: int,
    obstacles: seq<Entity>,
    pickups: seq<Entity>,
    playerX: real)

  /** The steering keys held during a tick. */
  datatype Controls = Controls(left: bool, right: bool)

  /** The random draws one tick may consume: the obstacle's lane, speed jitter and
      extra height, the pickup coin, and the pickup's lane and extra height. */
  datatype Draws = Draws(
    obstacleLane: nat, jitter: real, obstacleDrop: nat,
    pickupRoll: real, pickupLane: nat, pickupDrop: nat)

  /** The ranges `Math.random` and `rng(n)` produce. */
  predicate ValidDraws(d: Draws)
  {
    d.obstacleLane < LaneCount && 0.0 <= d.jitter < 2.0 && d.obstacleDrop < 80 &&
    0.0 <= d.pickupRoll < 1.0 && d.pickupLane < LaneCount && d.pickupDrop < 60
  }

  const DespawnY: real := H + 200.0
  const PassY: real := H + 100.0

  /** The state invariant every operation keeps. */
  predicate Inv(s: Session)
  {
    s.speedMultiplier >= 0.9 && PlayerMinX <= s.playerX <= PlayerMaxX
  }

  /** The state when the page has loaded, with the stored high score. */
  function Initial(highscore: int): Session
  {
    Session(false, false, 0, 0.0, highscore, 1.0, 90, [], [], PlayerStartX)
  }

  /** A session that has just been started. */
  function NewRun(highscore: int): Session
  {
    Session(true, false, 0, 0.0, highscore, 1.0, 100, [], [], PlayerStartX)
  }

  // ---------------------------------------------------------------- spawning

  /** Frames between spawns: max(30, floor(spawnInterval - speedMultiplier * 6)). */
  function SpawnPeriod(spawnInterval: int, speedMultiplier: real): (p: int)
    ensures p >= 30
    ensures p > 30 ==> p as real <= spawnInterval as real - speedMultiplier * 6.0 < p as real + 1.0
    ensures p == 30 ==> spawnInterval as real - speedMultiplier * 6.0 < 31.0
  {
    var f := (spawnInterval as real - speedMultiplier * 6.0).Floor;
    if 30 >= f then 30 else f
  }

  /** A higher difficulty never lengthens the spawn period. */
  lemma SpawnPeriodShrinks(spawnInterval: int, sm1: real, sm2: real)
    requires sm1 <= sm2
    ensures SpawnPeriod(spawnInterval, sm2) <= SpawnPeriod(spawnInterval, sm1)
  {
  }

  predicate IsCadenceTick(s: Session)
  {
    (s.frame + 1) % SpawnPeriod(s.spawnInterval, s.speedMultiplier) == 0
  }

  /** Steps 1-3 of a tick: advance the frame counter, spawn on a cadence tick (an
      obstacle always, a pickup when the coin is below 0.25, both at the old
      difficulty), and add 0.15 to the difficulty every 600 frames. */
  function Ticked(s: Session, d: Draws): Session
  {
    var f := s.frame + 1;
    var spawn := f % SpawnPeriod(s.spawnInterval, s.speedMultiplier) == 0;
    var os := if spawn then s.obstacles + [NewObstacle(d.obstacleLane, d.jitter, d.obstacleDrop, s.speedMultiplier)]
              else s.obstacles;
    var ps := if spawn && d.pickupRoll < 0.25 then s.pickups + [NewPickup(d.pickupLane, d.pickupDrop, s.speedMultiplier)]
              else s.pickups;
    var sm := if f % 600 == 0 then s.speedMultiplier + 0.15 else s.speedMultiplier;
    s.(frame := f, obstacles := os, pickups := ps, speedMultiplier := sm)
  }

  // ---------------------------------------------------------------- movement

  /** Difficulty scales every entity's speed a second time through this factor. */
  function Factor(speedMultiplier: real): real
  {
    1.0 + speedMultiplier * 0.25
  }

  predicate OnRoad(e: Entity)
  {
    e.y < DespawnY
  }

  /** An entity list after it falls one tick and loses what went past H + 200. */
  function Survivors(es: seq<Entity>, factor: real): seq<Entity>
  {
    Filter(Advanced(es, factor), OnRoad)
  }

  /** Steps 4-5 of a tick. */
  function Moved(s: Session): Session
  {
    var f := Factor(s.speedMultiplier);
    s.(obstacles := Survivors(s.obstacles, f), pickups := Survivors(s.pickups, f))
  }

  /** The player's x after the steering keys: left subtracts vx, then right adds vx. */
  function Steer(x: real, c: Controls): (r: real)
    ensures r - x == (if c.right then PlayerVx else 0.0) - (if c.left then PlayerVx else 0.0)
  {
    var l := if c.left then x - PlayerVx else x;
    if c.right then l + PlayerVx else l
  }

  /** Steps 6-7 of a tick. */
  function Steered(s: Session, c: Controls): Session
  {
    s.(playerX := Clamp(Steer(s.playerX, c)))
  }

  // ---------------------------------------------------------------- resolution

  function PlayerBox(x: real): Rect
  {
    Rect(x, PlayerY, PlayerW, PlayerH)
  }

  /** Some obstacle overlaps the player. */
  predicate Collides(player: Rect, os: seq<Entity>)
  {
    exists i :: 0 <= i < |os| && RectsOverlap(player, os[i].Box())
  }

  /** The pickups the player does not touch, in their original order. */
  function Uncollected(player: Rect, ps: seq<Entity>): seq<Entity>
  {
    Filter(ps, (p: Entity) => !RectsOverlap(player, p.Box()))
  }

  /** Unfolding the pickup filter at position `i`, as the backward loop visits it. */
  lemma UncollectedAt(player: Rect, ps: seq<Entity>, i: nat)
    requires i < |ps|
    ensures Uncollected(player, ps[i..]) ==
      (if RectsOverlap(player, ps[i].Box()) then [] else [ps[i]]) + Uncollected(player, ps[i + 1..])
  {
    assert ps[i..][0] == ps[i] && ps[i..][1..] == ps[i + 1..];
  }

  /** The difficulty after `k` pickups, each one taking off 0.08 with a floor of 0.9. */
  function Relieved(speedMultiplier: real, k: nat): (r: real)
    ensures k > 0 ==> r >= 0.9
    ensures speedMultiplier >= 0.9 ==> r >= 0.9
    ensures r <= Max(speedMultiplier, 0.9)
  {
    if k == 0 then speedMultiplier else Max(0.9, Relieved(speedMultiplier, k - 1) - 0.08)
  }

  /** After at least one pickup the difficulty is max(0.9, old - 0.08 * k). */
  lemma {:induction false} RelievedClosedForm(speedMultiplier: real, k: nat)
    requires k > 0
    ensures Relieved(speedMultiplier, k) == Max(0.9, speedMultiplier - 0.08 * k as real)
  {
    if k > 1 {
      RelievedClosedForm(speedMultiplier, k - 1);
    }
  }

  /** Score earned by surviving one tick. */
  function PassiveGain(speedMultiplier: real): real
  {
    0.1 + speedMultiplier * 0.05
  }

  predicate NotPassed(o: Entity)
  {
    o.y <= PassY
  }

  /** `endGame`: the run stops and the high score becomes the floored score if that
      is larger. */
  function Ended(s: Session): Session
  {
    var final := s.score.Floor;
    s.(running := false, highscore := if final > s.highscore then final else s.highscore)
  }

  /** Steps 8-11 of a tick: end the game on a collision; otherwise collect every
      touching pickup (+15 each, difficulty relief), add the passive score, and
      remove the obstacles past H + 100 with +2 each. */
  function Resolved(s: Session): Session
  {
    var player := PlayerBox(s.playerX);
    if Collides(player, s.obstacles) then Ended(s)
    else
      var ps := Uncollected(player, s.pickups);
      var collected := |s.pickups| - |ps|;
      var sm := Relieved(s.speedMultiplier, collected);
      var os := Filter(s.obstacles, NotPassed);
      var passed := |s.obstacles| - |os|;
      s.(pickups := ps, speedMultiplier := sm, obstacles := os,
         score := s.score + 15.0 * collected as real + PassiveGain(sm) + 2.0 * passed as real)
  }

  /** `update` (script.js:195-262): nothing happens unless the game is running and
      not paused (line 196). Otherwise the tick runs these steps in order:
        1. advance the frame counter (198);
        2. on a cadence tick spawn an obstacle, and a pickup if the coin is below 0.25 (200-203);
        3. add 0.15 to the speed multiplier every 600 frames (206-209);
        4. move every entity down by speed * (1 + speedMultiplier * 0.25) (212-213, 218);
        5. drop the entities past H + 200 (215, 219);
        6. steer: left subtracts vx, then right adds it (222-223);
        7. clamp the player to the road (225-226);
        8. end the game at the first obstacle that overlaps the player (229-235);
        9. collect every overlapping pickup: +15 each, multiplier -0.08 floored at 0.9 (238-248);
       10. add the passive score 0.1 + speedMultiplier * 0.05 (251);
       11. remove the obstacles past H + 100 with +2 each (255-261).
      `Ticked` is steps 1-3, `Moved` 4-5, `Steered` 6-7 and `Resolved` 8-11. */
  function Step(s: Session, c: Controls, d: Draws): Session
  {
    if !s.running || s.paused then s
    else Resolved(Steered(Moved(Ticked(s, d)), c))
  }

  // ---------------------------------------------------------------- controls

  /** `startGame`. */
  function Started(s: Session): Session
  {
    if s.running then s
    else s.(running := true, paused := false, frame := 0, score := 0.0, obstacles := [], pickups := [],
            speedMultiplier := 1.0, playerX := PlayerStartX, spawnInterval := 100)
  }

  /** `togglePause`. */
  function Toggled(s: Session): Session
  {
    if !s.running then s else s.(paused := !s.paused)
  }

  /** `resetGame`: like a start, but the game stays stopped and the spawn interval
      is not touched. */
  function Reset(s: Session): Session
  {
    s.(running := false, paused := false, frame := 0, score := 0.0, obstacles := [], pickups := [],
       speedMultiplier := 1.0, playerX := PlayerStartX)
  }

  /** The visibility listener: a hidden page pauses a running game. */
  function OnHidden(s: Session, hidden: bool): Session
  {
    if hidden && s.running then s.(paused := true) else s
  }

  // ---------------------------------------------------------------- properties of one tick

  /** A stopped or paused game is left exactly as it is. */
  lemma StepIdle(s: Session, c: Controls, d: Draws)
    requires !s.running || s.paused
    ensures Step(s, c, d) == s
  {
  }

  /** At most one obstacle and at most one pickup are appended per tick, behind the
      existing entities. On a cadence tick the obstacle is the spawner's car at the
      speed multiplier from before the 600-frame bump; the pickup is added exactly
      when the tick is a cadence tick and the coin is below 0.25. */
  lemma TickSpawnsAtMostOne(s: Session, d: Draws)
    ensures var t := Ticked(s, d);
      |t.obstacles| == |s.obstacles| + (if IsCadenceTick(s) then 1 else 0) &&
      t.obstacles[..|s.obstacles|] == s.obstacles &&
      |t.pickups| == |s.pickups| + (if IsCadenceTick(s) && d.pickupRoll < 0.25 then 1 else 0) &&
      t.pickups[..|s.pickups|] == s.pickups
    ensures IsCadenceTick(s) ==>
      Ticked(s, d).obstacles == s.obstacles + [NewObstacle(d.obstacleLane, d.jitter, d.obstacleDrop, s.speedMultiplier)]
    ensures IsCadenceTick(s) && d.pickupRoll < 0.25 ==>
      Ticked(s, d).pickups == s.pickups + [NewPickup(d.pickupLane, d.pickupDrop, s.speedMultiplier)]
  {
  }

  /** The difficulty rises by exactly 0.15 on every 600th frame and is otherwise
      untouched by steps 1-3. */
  lemma TickDifficulty(s: Session, d: Draws)
    ensures (s.frame + 1) % 600 == 0 ==> Ticked(s, d).speedMultiplier == s.speedMultiplier + 0.15
    ensures (s.frame + 1) % 600 != 0 ==> Ticked(s, d).speedMultiplier == s.speedMultiplier
    ensures Ticked(s, d).frame == s.frame + 1
  {
  }

  /** After any tick of a running game the player is on the road, whatever keys are
      held; holding both keys moves the player only by the clamp. */
  lemma StepKeepsPlayerOnRoad(s: Session, c: Controls, d: Draws)
    requires s.running && !s.paused
    ensures PlayerMinX <= Step(s, c, d).playerX <= PlayerMaxX
    ensures Step(s, c, d).playerX == Clamp(Steer(s.playerX, c))
    ensures c.left && c.right ==> Step(s, c, d).playerX == Clamp(s.playerX)
  {
  }

  /** Every tick keeps the invariant, in particular the difficulty never drops below 0.9. */
  lemma StepPreservesInv(s: Session, c: Controls, d: Draws)
    requires Inv(s)
    ensures Inv(Step(s, c, d))
  {
  }

  /** The state that steps 8-11 start from. */
  function BeforeResolve(s: Session, c: Controls, d: Draws): Session
  {
    Steered(Moved(Ticked(s, d)), c)
  }

  /** The first collision ends the run: the score is frozen at its value before the
      tick, the high score becomes max(old, floor(score)) and changes only if
      floor(score) is strictly greater, and every later tick changes nothing. */
  lemma StepCollisionEndsRun(s: Session, c: Controls, d: Draws, c2: Controls, d2: Draws)
    requires s.running && !s.paused
    requires var m := BeforeResolve(s, c, d); Collides(PlayerBox(m.playerX), m.obstacles)
    ensures var r := Step(s, c, d);
      !r.running && r.score == s.score &&
      r.highscore == (if s.score.Floor > s.highscore then s.score.Floor else s.highscore) &&
      (r.highscore != s.highscore <==> s.score.Floor > s.highscore) &&
      Step(r, c2, d2) == r
  {
  }

  /** Steps 8-11 without a collision: exactly the touching pickups are removed (+15
      each), every remaining obstacle is at or above H + 100 and every obstacle still
      there was kept, the removed obstacles earn +2 each, and the passive score is
      added once. */
  lemma ResolvedWithoutCollision(m: Session)
    requires !Collides(PlayerBox(m.playerX), m.obstacles)
    ensures var r := Resolved(m);
      var collected := |m.pickups| - |r.pickups|;
      var passed := |m.obstacles| - |r.obstacles|;
      r.running == m.running && r.playerX == m.playerX && collected >= 0 && passed >= 0 &&
      (forall p :: p in m.pickups ==> (p in r.pickups <==> !RectsOverlap(PlayerBox(m.playerX), p.Box()))) &&
      (forall p :: p in r.pickups ==> p in m.pickups) &&
      (forall o :: o in r.obstacles ==> o in m.obstacles && o.y <= PassY) &&
      (forall o :: o in m.obstacles && o.y <= PassY ==> o in r.obstacles) &&
      r.speedMultiplier == Relieved(m.speedMultiplier, collected) &&
      r.score == m.score + 15.0 * collected as real + PassiveGain(r.speedMultiplier) + 2.0 * passed as real
  {
  }

  /** A running tick is steps 1-7 followed by steps 8-11, and steps 1-7 leave the
      score alone and the speed multiplier where the difficulty bump put it. */
  lemma StepUnfolds(s: Session, c: Controls, d: Draws)
    requires s.running && !s.paused
    ensures Step(s, c, d) == Resolved(BeforeResolve(s, c, d))
    ensures BeforeResolve(s, c, d).score == s.score && BeforeResolve(s, c, d).running
    ensures BeforeResolve(s, c, d).speedMultiplier == Ticked(s, d).speedMultiplier
  {
  }

  /** What a whole running tick does to the speed multiplier: it rises only through
      the 600-frame bump and falls only through pickups, 0.08 each with a floor of
      0.9; a tick that ends the run keeps the bumped value. */
  lemma StepSpeed(s: Session, c: Controls, d: Draws)
    requires s.running && !s.paused
    ensures var bumped := if (s.frame + 1) % 600 == 0 then s.speedMultiplier + 0.15 else s.speedMultiplier;
      var m := BeforeResolve(s, c, d);
      var r := Step(s, c, d);
      (Collides(PlayerBox(m.playerX), m.obstacles) ==> r.speedMultiplier == bumped) &&
      (!Collides(PlayerBox(m.playerX), m.obstacles) ==>
         |r.pickups| <= |m.pickups| && r.speedMultiplier == Relieved(bumped, |m.pickups| - |r.pickups|))
  {
    StepUnfolds(s, c, d);
    TickDifficulty(s, d);
  }

  /** The number of obstacles removed for passing is the number that were past H + 100. */
  lemma PassedCount(os: seq<Entity>)
    ensures |os| - |Filter(os, NotPassed)| == |Filter(os, (o: Entity) => !NotPassed(o))|
  {
    FilterPartition(os, NotPassed, (o: Entity) => !NotPassed(o));
  }

  // ---------------------------------------------------------------- properties of the controls

  /** The high score after a game over is the maximum of the old one and the floored
      score, and it changes only when the floored score is strictly greater. */
  lemma EndedHighscore(s: Session)
    ensures !Ended(s).running && Ended(s).score == s.score
    ensures Ended(s).highscore >= s.highscore && Ended(s).highscore >= s.score.Floor
    ensures Ended(s).highscore == s.highscore || Ended(s).highscore == s.score.Floor
    ensures Ended(s).highscore != s.highscore <==> s.score.Floor > s.highscore
  {
  }

  /** Starting a running game does nothing; starting a stopped one (idle or over)
      begins a fresh run that keeps only the high score. */
  lemma StartedBeginsFreshRun(s: Session)
    ensures s.running ==> Started(s) == s
    ensures !s.running ==> Started(s) == NewRun(s.highscore)
  {
  }

  /** Resetting stops the game and clears the session, keeping only the high score and
      the spawn interval; "try again" (reset, then start) always gives a fresh run. */
  lemma ResetThenStart(s: Session)
    ensures Reset(s) == Initial(s.highscore).(spawnInterval := s.spawnInterval)
    ensures Started(Reset(s)) == NewRun(s.highscore)
  {
  }

  /** Pausing needs a running game, and toggling twice gives back the same state. */
  lemma ToggleInvolutive(s: Session)
    ensures !s.running ==> Toggled(s) == s
    ensures s.running ==> Toggled(s).paused == !s.paused && Toggled(Toggled(s)) == s
  {
  }

  /** Hiding the page pauses a running game and never resumes one. */
  lemma HiddenPauses(s: Session, hidden: bool)
    ensures s.paused ==> OnHidden(s, hidden).paused
    ensures hidden && s.running ==> OnHidden(s, hidden).paused
    ensures !hidden ==> OnHidden(s, hidden) == s
    ensures !s.running ==> OnHidden(s, hidden) == s
    ensures OnHidden(s, hidden).(paused := s.paused) == s
  {
  }

  /** Every control keeps the invariant. */
  lemma ControlsPreserveInv(s: Session, hidden: bool, highscore: int)
    requires Inv(s)
    ensures Inv(Initial(highscore))
    ensures Inv(Started(s)) && Inv(Toggled(s)) && Inv(Reset(s)) && Inv(Ended(s)) && Inv(OnHidden(s, hidden))
  {
  }
}
