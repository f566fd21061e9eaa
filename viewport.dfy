// The visible rectangle of the complex plane, the mapping from device pixels
// to plane coordinates, and the geometry of one zoom-in step.
// Java doubles are modelled as exact reals.
module Viewport {

  const FRAME_WIDTH: int := 2000
  const FRAME_HEIGHT: int := 1500
  const ZOOM_FACTOR: real := 5.0

  const X_LEFT_BOUND: real := -2.5
  const X_RIGHT_BOUND: real := 1.5
  const Y_TOP_BOUND: real := 1.5
  const Y_BOTTOM_BOUND: real := -1.5

  /** One viewport: the record the panel stores in its history under the keys
    * "left", "right", "top" and "bottom". */
  datatype Bounds = Bounds(left: real, right: real, top: real, bottom: real)

  /** The full-plane view the panel starts with. */
  const INITIAL: Bounds := Bounds(X_LEFT_BOUND, X_RIGHT_BOUND, Y_TOP_BOUND, Y_BOTTOM_BOUND)

  /** A proper rectangle: non-empty in both directions. */
  predicate WellFormed(b: Bounds) {
    b.left < b.right && b.bottom < b.top
  }

  function Width(b: Bounds): real {
    b.right - b.left
  }

  function Height(b: Bounds): real {
    b.top - b.bottom
  }

  /** getScaledX: pixel column to plane x, a linear interpolation across the width. */
  function ScaledX(b: Bounds, x: int): real {
    (x as real / FRAME_WIDTH as real) * (b.right - b.left) + b.left
  }

  /** getScaledY: pixel row to plane y; row 0 is the top edge, so the axis is inverted. */
  function ScaledY(b: Bounds, y: int): real {
    (y as real / FRAME_HEIGHT as real) * -(b.top - b.bottom) + b.top
  }

  /** The left and right edges of the frame map to the left and right bounds. */
  lemma ScaledXEndpoints(b: Bounds)
    ensures ScaledX(b, 0) == b.left
    ensures ScaledX(b, FRAME_WIDTH) == b.right
  {
  }

  /** The top and bottom edges of the frame map to the top and bottom bounds. */
  lemma ScaledYEndpoints(b: Bounds)
    ensures ScaledY(b, 0) == b.top
    ensures ScaledY(b, FRAME_HEIGHT) == b.bottom
  {
  }

  /** On a proper rectangle, plane x grows strictly with the pixel column. */
  lemma ScaledXIncreasing(b: Bounds, x1: int, x2: int)
    requires WellFormed(b)
    ensures x1 < x2 <==> ScaledX(b, x1) < ScaledX(b, x2)
  {
    var w := b.right - b.left;
    var d := (x2 - x1) as real / FRAME_WIDTH as real;
    assert ScaledX(b, x2) - ScaledX(b, x1) == d * w;
  }

  /** On a proper rectangle, plane y falls strictly as the pixel row grows. */
  lemma ScaledYDecreasing(b: Bounds, y1: int, y2: int)
    requires WellFormed(b)
    ensures y1 < y2 <==> ScaledY(b, y1) > ScaledY(b, y2)
  {
    var h := b.top - b.bottom;
    var d := (y2 - y1) as real / FRAME_HEIGHT as real;
    assert ScaledY(b, y1) - ScaledY(b, y2) == d * h;
  }

  /** Every pixel inside the frame maps into the rectangle. */
  lemma PixelInsideFrameMapsInsideBounds(b: Bounds, x: int, y: int)
    requires WellFormed(b)
    requires 0 <= x <= FRAME_WIDTH && 0 <= y <= FRAME_HEIGHT
    ensures b.left <= ScaledX(b, x) <= b.right
    ensures b.bottom <= ScaledY(b, y) <= b.top
  {
    ScaledXEndpoints(b);
    ScaledYEndpoints(b);
    ScaledXIncreasing(b, 0, x);
    ScaledXIncreasing(b, x, FRAME_WIDTH);
    ScaledYDecreasing(b, 0, y);
    ScaledYDecreasing(b, y, FRAME_HEIGHT);
  }

  /** The viewport a primary click at pixel (px, py) zooms to: centred on the
    * clicked plane point, both extents divided by ZOOM_FACTOR. */
  function ZoomAt(b: Bounds, px: int, py: int): (r: Bounds)
    ensures Width(r) == Width(b) / ZOOM_FACTOR
    ensures Height(r) == Height(b) / ZOOM_FACTOR
    ensures (r.left + r.right) / 2.0 == ScaledX(b, px)
    ensures (r.top + r.bottom) / 2.0 == ScaledY(b, py)
    ensures WellFormed(b) ==> WellFormed(r)
  {
    var cx := ScaledX(b, px);
    var cy := ScaledY(b, py);
    var xRange := (b.right - b.left) / ZOOM_FACTOR;
    var yRange := (b.top - b.bottom) / ZOOM_FACTOR;
    Bounds(cx - xRange / 2.0, cx + xRange / 2.0, cy + yRange / 2.0, cy - yRange / 2.0)
  }

  /** The pixel (750, 750) of the initial view is the plane point (-1, 0); a
    * primary click there gives the 0.8 by 0.6 view centred on it. */
  lemma ZoomAtInitialExample()
    ensures ScaledX(INITIAL, 750) == -1.0 && ScaledY(INITIAL, 750) == 0.0
    ensures ZoomAt(INITIAL, 750, 750) == Bounds(-1.4, -0.6, 0.3, -0.3)
    ensures Width(ZoomAt(INITIAL, 750, 750)) == 0.8
    ensures Height(ZoomAt(INITIAL, 750, 750)) == 0.6
  {
  }
}
