/**
 * Canvas coordinates and the selection rectangle that a drag gesture produces
 * (getNormalizedRect in script.js).
 */
module Geometry {
  import opened Wrappers

  /** A pointer position in canvas pixels. Pointer positions are taken as integers. */
  datatype Point = Point(x: int, y: int)

  /** The position the handlers reset `startCoords` and `currentCoords` to. */
  const Origin := Point(0, 0)

  /** An axis-aligned rectangle of pixels, as handed to getImageData and clearRect. */
  datatype Rect = Rect(x: nat, y: nat, width: nat, height: nat)

  function Min(a: int, b: int): int { if a <= b then a else b }

  function Max(a: int, b: int): int { if a <= b then b else a }

  function Abs(a: int): nat { if a < 0 then -a else a }

  /** `r` is non-empty and lies entirely on a canvas of the given size. */
  predicate InsideCanvas(r: Rect, canvasWidth: nat, canvasHeight: nat)
  {
    1 <= r.width && 1 <= r.height && r.x + r.width <= canvasWidth && r.y + r.height <= canvasHeight
  }

  /** The two rectangles share no pixel. */
  predicate Disjoint(a: Rect, b: Rect)
  {
    a.x + a.width <= b.x || b.x + b.width <= a.x || a.y + a.height <= b.y || b.y + b.height <= a.y
  }

  /**
   * The rectangle spanned by two drag corners, with its origin clamped to 0 and
   * its sides clamped to the canvas; None when a clamped side is shorter than one
   * pixel. The source's second test (a side <= 0) is implied by the first.
   */
  function NormalizedRect(start: Point, end: Point, canvasWidth: nat, canvasHeight: nat): (r: Option<Rect>)
    ensures r.None? <==>
      start.x == end.x || start.y == end.y ||
      Max(0, Min(start.x, end.x)) >= canvasWidth || Max(0, Min(start.y, end.y)) >= canvasHeight
    ensures r.Some? ==> InsideCanvas(r.value, canvasWidth, canvasHeight)
    ensures r.Some? ==> r.value.width <= Abs(end.x - start.x) && r.value.height <= Abs(end.y - start.y)
    // A drag whose corners both lie on the canvas selects exactly the box they span.
    ensures 0 <= start.x <= canvasWidth && 0 <= end.x <= canvasWidth && start.x != end.x &&
            0 <= start.y <= canvasHeight && 0 <= end.y <= canvasHeight && start.y != end.y ==>
              r == Some(Rect(Min(start.x, end.x), Min(start.y, end.y), Abs(end.x - start.x), Abs(end.y - start.y)))
  {
    var x := Min(start.x, end.x);
    var y := Min(start.y, end.y);
    var width := Abs(end.x - start.x);
    var height := Abs(end.y - start.y);
    var normX := Max(0, x);
    var normY := Max(0, y);
    var normWidth := Min(width, canvasWidth - normX);
    var normHeight := Min(height, canvasHeight - normY);
    if normWidth < 1 || normHeight < 1 then None
    else Some(Rect(normX, normY, normWidth, normHeight))
  }

  /** Which corner the drag started from does not matter. */
  lemma NormalizedRectSymmetric(start: Point, end: Point, canvasWidth: nat, canvasHeight: nat)
    ensures NormalizedRect(start, end, canvasWidth, canvasHeight) == NormalizedRect(end, start, canvasWidth, canvasHeight)
  {
  }

  /**
   * For corners with non-negative coordinates (every position a pointer event on
   * the canvas yields) the rectangle lies within the dragged box.
   */
  lemma NormalizedRectWithinDrag(start: Point, end: Point, canvasWidth: nat, canvasHeight: nat)
    requires 0 <= start.x && 0 <= start.y && 0 <= end.x && 0 <= end.y
    ensures var r := NormalizedRect(start, end, canvasWidth, canvasHeight);
      r.Some? ==>
        Min(start.x, end.x) <= r.value.x && r.value.x + r.value.width <= Max(start.x, end.x) &&
        Min(start.y, end.y) <= r.value.y && r.value.y + r.value.height <= Max(start.y, end.y)
  {
  }

  /** A click without movement selects nothing; the smallest drag selects one pixel. */
  lemma SelectionValidityBoundary(canvasWidth: nat, canvasHeight: nat)
    requires 7 <= canvasWidth && 7 <= canvasHeight
    ensures NormalizedRect(Point(5, 5), Point(5, 5), canvasWidth, canvasHeight).None?
    ensures NormalizedRect(Point(5, 5), Point(6, 6), canvasWidth, canvasHeight) == Some(Rect(5, 5, 1, 1))
  {
  }
}
