/** The fixed playing field: canvas size, road edges, lanes and the player's car. */
module Field {

  /** Internal canvas resolution. */
  const W: real := 480.0
  const H: real := 720.0

  /** Road edges as the canvas initialisation sets them: floor(W * 0.13) and floor(W * 0.87). */
  const RoadLeft: real := 62.0
  const RoadRight: real := 417.0

  const LaneCount: nat := 3
  const LaneWidth: real := (RoadRight - RoadLeft) / LaneCount as real

  /** The player's car: fixed size, fixed row, steering step per tick. */
  const PlayerW: real := 48.0
  const PlayerH: real := 88.0
  const PlayerY: real := H - 140.0
  const PlayerVx: real := 6.0
  const Margin: real := 6.0

  /** The range the player's x is clamped to. */
  const PlayerMinX: real := RoadLeft + Margin
  const PlayerMaxX: real := RoadRight - PlayerW - Margin

  /** The player's x at load, on start and on reset: centred on the canvas. */
  const PlayerStartX: real := W / 2.0 - PlayerW / 2.0

  function Max(a: real, b: real): real { if a >= b then a else b }
  function Min(a: real, b: real): real { if a <= b then a else b }

  /** The road edges are the floors of 13% and 87% of the width. */
  lemma RoadEdgesFromWidth()
    ensures RoadLeft == (W * 0.13).Floor as real
    ensures RoadRight == (W * 0.87).Floor as real
    ensures RoadLeft < RoadRight && LaneWidth > PlayerW
  {
  }

  /** The left edge of lane `lane`. */
  function LaneStart(lane: nat): real
  {
    RoadLeft + lane as real * LaneWidth
  }

  /** `randLaneX`: the x at which a box as wide as the player's car sits centred in
      lane `lane`. */
  function LaneX(lane: nat): (x: real)
    ensures LaneStart(lane) <= x && x + PlayerW <= LaneStart(lane) + LaneWidth
    ensures x - LaneStart(lane) == (LaneStart(lane) + LaneWidth) - (x + PlayerW)
  {
    RoadLeft + lane as real * LaneWidth + (LaneWidth - PlayerW) / 2.0
  }

  /** Every lane lies on the road, and neighbouring lanes are one lane width apart. */
  lemma LanesTileTheRoad(lane: nat)
    requires lane < LaneCount
    ensures RoadLeft <= LaneStart(lane) && LaneStart(lane) + LaneWidth <= RoadRight
    ensures RoadLeft <= LaneX(lane) && LaneX(lane) + PlayerW <= RoadRight
    ensures LaneX(lane + 1) - LaneX(lane) == LaneWidth
  {
  }

  /** The bounds step of the player controls: x is forced into
      [RoadLeft + 6, RoadRight - PlayerW - 6]. */
  function Clamp(x: real): (r: real)
    ensures PlayerMinX <= r <= PlayerMaxX
    ensures PlayerMinX <= x <= PlayerMaxX ==> r == x
    ensures x < PlayerMinX ==> r == PlayerMinX
    ensures x > PlayerMaxX ==> r == PlayerMaxX
  {
    Max(PlayerMinX, Min(PlayerMaxX, x))
  }
}
