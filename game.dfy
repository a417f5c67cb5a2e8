/** The game's global state as one object whose methods are the functions of the
    script: `update`, the two spawners, `startGame`, `togglePause`, `endGame`,
    `resetGame` and the visibility listener. */
module GameLoop {
  import opened Field
  import opened Entities
  import opened Simulation
  import opened Sweeps

  class Game {
    var running: bool
    var paused: bool
    var frame: nat
    var score: real
    var highscore: int
    var speedMultiplier: real
    var spawnInterval: int
    var obstacles: seq<Entity>
    var pickups: seq<Entity>
    var playerX: real

    /** The abstract value of the object. */
    function State(): Session
      reads this
    {
      Session(running, paused, frame, score, highscore, speedMultiplier, spawnInterval,
              obstacles, pickups, playerX)
    }

    ghost predicate Valid()
      reads this
    {
      Inv(State())
    }

    /** The state once the page has loaded; `storedHighscore` is the value read back
        from storage. */
    constructor (storedHighscore: int)
      ensures Valid()
      ensures State() == Initial(storedHighscore)
    {
      running, paused := false, false;
      frame, score, highscore := 0, 0.0, storedHighscore;
      speedMultiplier, spawnInterval := 1.0, 90;
      obstacles, pickups := [], [];
      playerX := PlayerStartX;
    }

    /** `spawnObstacle`, with the lane, the speed jitter and the extra height drawn by
        the caller. */
    method SpawnObstacle(lane: nat, jitter: real, drop: nat)
      modifies this`obstacles
      ensures obstacles == old(obstacles) + [NewObstacle(lane, jitter, drop, speedMultiplier)]
    {
      var x := LaneX(lane);
      var y := -CarH - drop as real;
      obstacles := obstacles + [Car(x, y, CarW, CarH, 2.0 + jitter + speedMultiplier * 0.6)];
    }

    /** `spawnPickup`, with the lane and the extra height drawn by the caller. */
    method SpawnPickup(lane: nat, drop: nat)
      modifies this`pickups
      ensures pickups == old(pickups) + [NewPickup(lane, drop, speedMultiplier)]
    {
      var x := LaneX(lane) + (PlayerW - FuelSize) / 2.0;
      var y := -FuelSize - drop as real;
      pickups := pickups + [Fuel(x, y, FuelSize, 2.0 + speedMultiplier * 0.6)];
    }

    /** `update`: one frame of the simulation with the keys held and the random draws
        of this frame. */
    method Update(c: Controls, d: Draws)
      requires Valid() && ValidDraws(d)
      modifies this
      ensures Valid()
      ensures State() == Step(old(State()), c, d)
    {
      StepPreservesInv(State(), c, d);
      if !running || paused {
        return;
      }
      AdvanceFrame(d);
      MoveEntities();
      ApplyControls(c);
      ResolveContacts();
    }

    /** Steps 1-3 of `update`: frame counter, spawn cadence, difficulty bump. */
    method AdvanceFrame(d: Draws)
      modifies this
      ensures State() == Ticked(old(State()), d)
    {
      frame := frame + 1;
      if frame % SpawnPeriod(spawnInterval, speedMultiplier) == 0 {
        SpawnObstacle(d.obstacleLane, d.jitter, d.obstacleDrop);
        if d.pickupRoll < 0.25 {
          SpawnPickup(d.pickupLane, d.pickupDrop);
        }
      }
      if frame % 600 == 0 {
        speedMultiplier := speedMultiplier + 0.15;
      }
    }

    /** Steps 4-5 of `update`: move every entity and drop those past H + 200. */
    method MoveEntities()
      modifies this
      ensures State() == Moved(old(State()))
    {
      var factor := 1.0 + speedMultiplier * 0.25;
      obstacles := MoveAndCull(obstacles, factor);
      pickups := MoveAndCull(pickups, factor);
    }

    /** Steps 6-7 of `update`: steer, then clamp to the road. */
    method ApplyControls(c: Controls)
      modifies this
      ensures State() == Steered(old(State()), c)
    {
      if c.left {
        playerX := playerX - PlayerVx;
      }
      if c.right {
        playerX := playerX + PlayerVx;
      }
      playerX := Max(PlayerMinX, Min(PlayerMaxX, playerX));
    }

    /** Steps 8-11 of `update`: the collision loop (which ends the game at the first
        hit), the pickup loop, the passive score and the pass bonus. */
    method ResolveContacts()
      modifies this
      ensures State() == Resolved(old(State()))
    {
      var player := PlayerBox(playerX);
      var hit := HitsAny(player, obstacles);
      if hit {
        EndGame();
        return;
      }
      pickups, score, speedMultiplier := CollectPickups(player, pickups, score, speedMultiplier);
      score := score + 0.1 + speedMultiplier * 0.05;
      obstacles, score := AwardPassed(obstacles, score);
    }

    /** `startGame`: ignored while running, otherwise a fresh run. */
    method StartGame()
      requires Valid()
      modifies this
      ensures Valid()
      ensures State() == Started(old(State()))
    {
      ControlsPreserveInv(State(), false, highscore);
      if running {
        return;
      }
      running, paused := true, false;
      frame, score := 0, 0.0;
      obstacles, pickups := [], [];
      speedMultiplier := 1.0;
      playerX := W / 2.0 - PlayerW / 2.0;
      spawnInterval := 100;
    }

    /** `togglePause`: ignored unless running. */
    method TogglePause()
      requires Valid()
      modifies this
      ensures Valid()
      ensures State() == Toggled(old(State()))
    {
      if !running {
        return;
      }
      paused := !paused;
    }

    /** `endGame`: stop, and keep the floored score if it beats the high score. It is
        called only from `update`, in the middle of a tick. */
    method EndGame()
      modifies this
      ensures State() == Ended(old(State()))
    {
      running := false;
      if score.Floor > highscore {
        highscore := score.Floor;
      }
    }

    /** `resetGame`: stop and clear the session; the spawn interval is left alone. */
    method ResetGame()
      requires Valid()
      modifies this
      ensures Valid()
      ensures State() == Reset(old(State()))
    {
      running, paused := false, false;
      frame, score := 0, 0.0;
      obstacles, pickups := [], [];
      speedMultiplier := 1.0;
      playerX := W / 2.0 - PlayerW / 2.0;
    }

    /** The visibility listener: pause a running game when the page is hidden. */
    method OnVisibilityChange(hidden: bool)
      requires Valid()
      modifies this
      ensures Valid()
      ensures State() == OnHidden(old(State()), hidden)
    {
      if hidden && running {
        paused := true;
      }
    }
  }
}
