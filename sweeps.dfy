/** The four loops of one tick, each proved to compute the function of the
    `Simulation` module that specifies it. */
module Sweeps {
  import opened Seqs
  import opened Geometry
  import opened Entities
  import opened Simulation

  /** Move every entity down by `speed * factor`, then keep those still above
      H + 200 (the `forEach` move followed by `filter`). */
  method MoveAndCull(es: seq<Entity>, factor: real) returns (kept: seq<Entity>)
    ensures kept == Survivors(es, factor)
    ensures forall e :: e in kept ==> e.y < DespawnY
  {
    ghost var moved := Advanced(es, factor);
    kept := [];
    var i := 0;
    while i < |es|
      invariant 0 <= i <= |es|
      invariant kept == Filter(moved[..i], OnRoad)
    {
      var e := Fall(es[i], factor);
      assert moved[..i + 1] == moved[..i] + [e];
      FilterSnoc(moved[..i], e, OnRoad);
      if e.y < DespawnY {
        kept := kept + [e];
      }
      i := i + 1;
    }
    assert moved[..|es|] == moved;
  }

  /** The collision loop: true as soon as one obstacle overlaps the player. */
  method HitsAny(player: Rect, os: seq<Entity>) returns (hit: bool)
    ensures hit <==> Collides(player, os)
  {
    var i := 0;
    while i < |os|
      invariant 0 <= i <= |os|
      invariant forall j :: 0 <= j < i ==> !RectsOverlap(player, os[j].Box())
    {
      if RectsOverlap(player, os[i].Box()) {
        return true;
      }
      i := i + 1;
    }
    return false;
  }

  /** The pickup loop: walk the list from the back, splice out every pickup that
      overlaps the player, and for each add 15 to the score and take 0.08 off the
      difficulty with a floor of 0.9. */
  method CollectPickups(player: Rect, ps: seq<Entity>, score: real, speedMultiplier: real)
    returns (kept: seq<Entity>, score': real, speedMultiplier': real)
    ensures kept == Uncollected(player, ps)
    ensures |kept| <= |ps|
    ensures score' == score + 15.0 * (|ps| - |kept|) as real
    ensures speedMultiplier' == Relieved(speedMultiplier, |ps| - |kept|)
  {
    kept, score', speedMultiplier' := ps, score, speedMultiplier;
    var i := |ps|;
    while i > 0
      invariant 0 <= i <= |ps|
      invariant kept == ps[..i] + Uncollected(player, ps[i..])
      invariant |kept| <= |ps|
      invariant score' == score + 15.0 * (|ps| - |kept|) as real
      invariant speedMultiplier' == Relieved(speedMultiplier, |ps| - |kept|)
    {
      i := i - 1;
      UncollectedAt(player, ps, i);
      assert ps[..i + 1] == ps[..i] + [ps[i]];
      ghost var rest := Uncollected(player, ps[i + 1..]);
      assert kept == ps[..i] + [ps[i]] + rest;
      if RectsOverlap(player, kept[i].Box()) {
        kept := kept[..i] + kept[i + 1..];
        assert kept == ps[..i] + rest;
        score' := score' + 15.0;
        speedMultiplier' := if 0.9 >= speedMultiplier' - 0.08 then 0.9 else speedMultiplier' - 0.08;
      }
    }
    assert ps[0..] == ps;
  }

  /** The last filter of a tick: drop every obstacle past H + 100 and add 2 to the
      score for each. */
  method AwardPassed(os: seq<Entity>, score: real) returns (kept: seq<Entity>, score': real)
    ensures kept == Filter(os, NotPassed)
    ensures score' == score + 2.0 * (|os| - |kept|) as real
    ensures forall o :: o in kept ==> o.y <= PassY
  {
    kept, score' := [], score;
    var i := 0;
    while i < |os|
      invariant 0 <= i <= |os|
      invariant kept == Filter(os[..i], NotPassed)
      invariant score' == score + 2.0 * (i - |kept|) as real
    {
      assert os[..i + 1] == os[..i] + [os[i]];
      FilterSnoc(os[..i], os[i], NotPassed);
      if os[i].y > PassY {
        score' := score' + 2.0;
      } else {
        kept := kept + [os[i]];
      }
      i := i + 1;
    }
    assert os[..|os|] == os;
  }
}
