/** Axis-aligned boxes and the inclusive overlap test used for every collision. */
module Geometry {

  /** A box with its top-left corner at (x, y); y grows downwards as on the canvas. */
  datatype Rect = Rect(x: real, y: real, w: real, h: real)

  /** `rectsOverlap`: the boxes overlap unless one lies strictly to the left of,
      right of, above or below the other. Touching edges count as overlap. */
  predicate RectsOverlap(a: Rect, b: Rect)
  {
    !(a.x + a.w < b.x || b.x + b.w < a.x || a.y + a.h < b.y || b.y + b.h < a.y)
  }

  /** The point (px, py) lies in the closed box `r`. */
  predicate Contains(r: Rect, px: real, py: real)
  {
    r.x <= px <= r.x + r.w && r.y <= py <= r.y + r.h
  }

  predicate WellFormed(r: Rect)
  {
    r.w >= 0.0 && r.h >= 0.0
  }

  /** The test does not depend on which box is the player. */
  lemma RectsOverlapSymmetric(a: Rect, b: Rect)
    ensures RectsOverlap(a, b) <==> RectsOverlap(b, a)
  {
  }

  /** For boxes with non-negative sizes, the test is exactly "the two closed boxes
      share a point", so boxes that only touch along an edge or at a corner overlap. */
  lemma OverlapIffCommonPoint(a: Rect, b: Rect)
    requires WellFormed(a) && WellFormed(b)
    ensures RectsOverlap(a, b) <==> exists px, py :: Contains(a, px, py) && Contains(b, px, py)
  {
    if RectsOverlap(a, b) {
      var px := if a.x < b.x then b.x else a.x;
      var py := if a.y < b.y then b.y else a.y;
      assert Contains(a, px, py) && Contains(b, px, py);
    }
  }
}
