// The panel object: its four current-bound fields, the history list and the
// cursor, updated in place by the click handler, and the render pass that
// fills the raster from them.
module Panel {
  import opened Viewport
  import opened Escape
  import opened Palette
  import opened ZoomHistory

  /** The colour the render pass gives the pixel at (column, row) when the
    * current view is b. */
  function RenderedPixel(b: Bounds, palette: seq<int>, column: int, row: int): int
    requires |palette| == MAX_ITERATION
  {
    PixelColor(palette, EscapeTime(ScaledX(b, column), ScaledY(b, row)))
  }

  /** The body of the render pass's column loop: map the pixel to the plane,
    * run the escape loop, and choose palette entry iteration-1 or black. The
    * index iteration-1 is always inside the palette because the loop runs at
    * least once. */
  method ColorOfPixel(colors: array<int>, b: Bounds, column: int, row: int) returns (rgb: int)
    requires colors.Length == MAX_ITERATION
    ensures rgb == RenderedPixel(b, colors[..], column, row)
  {
    var x0 := ScaledX(b, column);
    var y0 := ScaledY(b, row);
    var iteration := EscapeIterations(x0, y0);

    if iteration < MAX_ITERATION {
      rgb := colors[iteration - 1];
    } else {
      rgb := 0;
    }
  }

  class MandelbrotPanel {
    var currentXLeftBound: real
    var currentXRightBound: real
    var currentYTopBound: real
    var currentYBottomBound: real
    var boundsHistory: seq<Bounds>
    var zoomNum: int

    /** The four current-bound fields as one viewport. */
    function Current(): Bounds
      reads this
    {
      Bounds(currentXLeftBound, currentXRightBound, currentYTopBound, currentYBottomBound)
    }

    /** The whole state the click handler works on, as a value. */
    function State(): Snapshot
      reads this
    {
      Snapshot(Current(), boundsHistory, zoomNum)
    }

    predicate Valid()
      reads this
    {
      Consistent(State())
    }

    /** The history starts with the initial view alone, under cursor 0. */
    constructor ()
      ensures Valid()
      ensures State() == Initial()
    {
      currentXLeftBound := X_LEFT_BOUND;
      currentXRightBound := X_RIGHT_BOUND;
      currentYTopBound := Y_TOP_BOUND;
      currentYBottomBound := Y_BOTTOM_BOUND;
      boundsHistory := [INITIAL];
      zoomNum := 0;
    }

    /** The BUTTON1 branch of mouseClicked. */
    method ZoomIn(px: int, py: int)
      requires Valid()
      modifies this
      ensures Valid()
      ensures State() == ZoomedIn(old(State()), px, py)
    {
      var adjustedXClick := ScaledX(Current(), px);
      var adjustedYClick := ScaledY(Current(), py);

      var currentXRange := currentXRightBound - currentXLeftBound;
      var currentYRange := currentYTopBound - currentYBottomBound;

      currentXRange := currentXRange / ZOOM_FACTOR;
      currentYRange := currentYRange / ZOOM_FACTOR;

      currentXLeftBound := adjustedXClick - currentXRange / 2.0;
      currentXRightBound := adjustedXClick + currentXRange / 2.0;
      currentYTopBound := adjustedYClick + currentYRange / 2.0;
      currentYBottomBound := adjustedYClick - currentYRange / 2.0;

      zoomNum := zoomNum + 1;

      boundsHistory := Insert(boundsHistory, zoomNum, Current());
    }

    /** The BUTTON3 branch of mouseClicked. */
    method ZoomOut()
      requires Valid()
      modifies this
      ensures Valid()
      ensures State() == ZoomedOut(old(State()))
    {
      if zoomNum > 0 {
        zoomNum := zoomNum - 1;
        currentXLeftBound := boundsHistory[zoomNum].left;
        currentXRightBound := boundsHistory[zoomNum].right;
        currentYTopBound := boundsHistory[zoomNum].top;
        currentYBottomBound := boundsHistory[zoomNum].bottom;
      }
    }

    /** mouseClicked: BUTTON1 zooms in, BUTTON3 zooms out, other buttons are ignored. */
    method MouseClicked(button: int, px: int, py: int)
      requires Valid()
      modifies this
      ensures Valid()
      ensures State() == Clicked(old(State()), button, px, py)
    {
      if button == BUTTON1 {
        ZoomIn(px, py);
      } else if button == BUTTON3 {
        ZoomOut();
      }
    }

    /** paintComponent: build the palette, then for every row and column run the
      * escape loop on the pixel's plane point and store its colour. */
    method PaintComponent(toRgb: Hsb -> int, image: array2<int>)
      requires image.Length0 == FRAME_WIDTH && image.Length1 == FRAME_HEIGHT
      modifies image
      ensures forall column, row :: 0 <= column < FRAME_WIDTH && 0 <= row < FRAME_HEIGHT ==>
                image[column, row] == RenderedPixel(Current(), PaletteColors(toRgb), column, row)
    {
      var colors := BuildPalette(toRgb);
      ghost var palette := PaletteColors(toRgb);
      ghost var view := Current();

      for row := 0 to FRAME_HEIGHT
        invariant colors[..] == palette
        invariant forall c, r :: 0 <= c < FRAME_WIDTH && 0 <= r < row ==>
                    image[c, r] == RenderedPixel(view, palette, c, r)
      {
        for column := 0 to FRAME_WIDTH
          invariant colors[..] == palette
          invariant forall c, r :: 0 <= c < FRAME_WIDTH && 0 <= r < row ==>
                      image[c, r] == RenderedPixel(view, palette, c, r)
          invariant forall c :: 0 <= c < column ==>
                      image[c, row] == RenderedPixel(view, palette, c, row)
        {
          image[column, row] := ColorOfPixel(colors, Current(), column, row);
        }
      }
    }
  }
}
