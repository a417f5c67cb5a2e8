/** Obstacle cars and fuel pickups, how they are spawned and how they fall. */
module Entities {
  import opened Geometry
  import opened Field

  /** An obstacle car (`Car`) or a fuel pickup (`Fuel`); both fall at their own speed.
      The obstacle's cosmetic colour is not modelled. */
  datatype Entity =
    | Car(x: real, y: real, w: real, h: real, speed: real)
    | Fuel(x: real, y: real, size: real, speed: real)
  {
    /** The box used for collision tests: a pickup is a square of side `size`. */
    function Box(): Rect
    {
      match this
      case Car(x, y, w, h, _) => Rect(x, y, w, h)
      case Fuel(x, y, size, _) => Rect(x, y, size, size)
    }
  }

  const CarW: real := 44.0
  const CarH: real := 88.0
  const FuelSize: real := 28.0

  /** Speed of a new entity before the obstacle's random jitter. */
  function BaseSpeed(speedMultiplier: real): real
  {
    2.0 + speedMultiplier * 0.6
  }

  /** `spawnObstacle` with its random draws as parameters: the lane, the speed jitter
      in [0, 2) and the extra height `drop` above the field in [0, 80). */
  function NewObstacle(lane: nat, jitter: real, drop: nat, speedMultiplier: real): (o: Entity)
    ensures o.Car? && o.w == CarW && o.h == CarH
    ensures LaneStart(lane) <= o.x && o.x + o.w <= LaneStart(lane) + LaneWidth
    ensures o.y + o.h == -(drop as real)
    ensures o.y + o.h <= 0.0 && (drop < 80 ==> o.y + o.h > -80.0)
    ensures o.speed == BaseSpeed(speedMultiplier) + jitter
    ensures 0.0 <= jitter < 2.0 ==> BaseSpeed(speedMultiplier) <= o.speed < BaseSpeed(speedMultiplier) + 2.0
  {
    Car(LaneX(lane), -CarH - drop as real, CarW, CarH, 2.0 + jitter + speedMultiplier * 0.6)
  }

  /** `spawnPickup` with its random draws as parameters: the lane and the extra
      height `drop` above the field in [0, 60). */
  function NewPickup(lane: nat, drop: nat, speedMultiplier: real): (p: Entity)
    ensures p.Fuel? && p.size == FuelSize
    ensures p.x - LaneStart(lane) == (LaneStart(lane) + LaneWidth) - (p.x + p.size)
    ensures p.y + p.size == -(drop as real)
    ensures p.y + p.size <= 0.0 && (drop < 60 ==> p.y + p.size > -60.0)
    ensures p.speed == BaseSpeed(speedMultiplier)
  {
    Fuel(LaneX(lane) + (PlayerW - FuelSize) / 2.0, -FuelSize - drop as real, FuelSize, 2.0 + speedMultiplier * 0.6)
  }

  /** Placement centres the player's width, not the obstacle's own: an obstacle sits
      (PlayerW - CarW) / 2 = 2 units left of its lane's centre line. */
  lemma ObstacleSitsLeftOfCentre(lane: nat, jitter: real, drop: nat, speedMultiplier: real)
    ensures var o := NewObstacle(lane, jitter, drop, speedMultiplier);
      o.x + o.w / 2.0 == LaneStart(lane) + LaneWidth / 2.0 - 2.0
  {
  }

  /** Spawn speeds never decrease when the difficulty rises, the jitter held fixed. */
  lemma SpawnSpeedMonotone(lane: nat, jitter: real, drop: nat, sm1: real, sm2: real)
    requires sm1 <= sm2
    ensures NewObstacle(lane, jitter, drop, sm1).speed <= NewObstacle(lane, jitter, drop, sm2).speed
    ensures NewPickup(lane, drop, sm1).speed <= NewPickup(lane, drop, sm2).speed
  {
  }

  /** One tick of movement: the entity moves down by its speed times `factor`. */
  function Fall(e: Entity, factor: real): Entity
  {
    e.(y := e.y + e.speed * factor)
  }

  /** Every entity of the list after one tick of movement. */
  function Advanced(es: seq<Entity>, factor: real): (r: seq<Entity>)
    ensures |r| == |es|
  {
    seq(|es|, i requires 0 <= i < |es| => Fall(es[i], factor))
  }

  /** Falling keeps an entity's kind, column, size and speed; a non-negative speed
      under a non-negative factor never moves it up. */
  lemma FallKeepsShape(e: Entity, factor: real)
    ensures Fall(e, factor).Car? == e.Car? && Fall(e, factor).x == e.x && Fall(e, factor).speed == e.speed
    ensures Fall(e, factor).Box().w == e.Box().w && Fall(e, factor).Box().h == e.Box().h
    ensures e.speed >= 0.0 && factor >= 0.0 ==> Fall(e, factor).y >= e.y
  {
  }
}
