/**
  Axis-aligned rectangles in canvas coordinates (origin at the top-left
  corner, y growing downward) and the overlap test that decides every hit
  in the game.
 */
module Geometry {

  /** A rectangle given by its top-left corner and its size. */
  datatype Rect = Rect(x: real, y: real, width: real, height: real)

  /** Every rectangle the game builds has a positive width and height. */
  predicate HasArea(r: Rect)
  {
    r.width > 0.0 && r.height > 0.0
  }

  /** The point (px, py) lies strictly inside r. */
  predicate Inside(px: real, py: real, r: Rect)
  {
    r.x < px < r.x + r.width && r.y < py < r.y + r.height
  }

  /**
    The page's overlap test: four strict comparisons, one per edge. Two
    rectangles can only collide when together they span some width and
    some height, and two rectangles with an area that share their top-left
    corner always collide.
   */
  predicate CheckCollision(a: Rect, b: Rect)
    ensures CheckCollision(a, b) ==> a.width + b.width > 0.0 && a.height + b.height > 0.0
    ensures HasArea(a) && HasArea(b) && a.x == b.x && a.y == b.y ==> CheckCollision(a, b)
  {
    a.x < b.x + b.width &&
    a.x + a.width > b.x &&
    a.y < b.y + b.height &&
    a.y + a.height > b.y
  }

  function Max(a: real, b: real): real { if a < b then b else a }

  function Min(a: real, b: real): real { if a < b then a else b }

  /** The order of the two arguments does not matter. */
  lemma CheckCollisionSymmetric(a: Rect, b: Rect)
    ensures CheckCollision(a, b) == CheckCollision(b, a)
  {
  }

  /** Rectangles that only share an edge do not collide. */
  lemma TouchingEdgesDoNotCollide(a: Rect, b: Rect)
    requires a.x + a.width == b.x || b.x + b.width == a.x ||
             a.y + a.height == b.y || b.y + b.height == a.y
    ensures !CheckCollision(a, b)
  {
  }

  /** The two worked examples: 5x5 squares side by side, and overlapping by one unit. */
  lemma CheckCollisionExamples()
    ensures !CheckCollision(Rect(0.0, 0.0, 5.0, 5.0), Rect(5.0, 0.0, 5.0, 5.0))
    ensures CheckCollision(Rect(0.0, 0.0, 5.0, 5.0), Rect(4.0, 0.0, 5.0, 5.0))
  {
  }

  /**
    An independent reading of the test: for rectangles with an area, the
    four comparisons hold exactly when the open interiors share a point.
   */
  lemma CheckCollisionIffSharedInterior(a: Rect, b: Rect)
    requires HasArea(a) && HasArea(b)
    ensures CheckCollision(a, b) <==> exists px, py :: Inside(px, py, a) && Inside(px, py, b)
  {
    if CheckCollision(a, b) {
      var px := (Max(a.x, b.x) + Min(a.x + a.width, b.x + b.width)) / 2.0;
      var py := (Max(a.y, b.y) + Min(a.y + a.height, b.y + b.height)) / 2.0;
      assert Inside(px, py, a) && Inside(px, py, b);
    }
  }
}
