# Mandelbrot set explorer panel, modelled in Dafny

The program is a single Swing panel, `MandelbrotSet`, that draws the
Mandelbrot set into a 2000 by 1500 raster and lets the user explore it with
the mouse. A primary click (BUTTON1) zooms in by a factor of 5, centred on the
clicked point. A secondary click (BUTTON3) steps back to the previous view.
The panel keeps a list of visited viewports and a cursor `zoomNum` into it.

Each render pass builds a palette of 1000 colours. For every pixel it maps the
pixel to a point c of the complex plane and iterates z <- z^2 + c from z = 0.
It counts the steps taken while |z|^2 < 4, up to 1000. A pixel whose count
reaches the cap is painted black. Otherwise it gets palette entry count - 1.

The model has five modules:

- `Viewport` (viewport.dfy): the constants, the `Bounds` of a view, the pixel
  to plane mapping (`getScaledX`, `getScaledY`) and the geometry of one zoom-in.
- `Escape` (escape.dfy): the escape-time loop as a method, proved equal to a
  recursive function. That function is proved to meet a reference definition
  stated on the orbit of 0.
- `Palette` (palette.dfy): the palette-building loop and the colour choice for
  one pixel.
- `ZoomHistory` (zoom_history.dfy): the click handler as a state machine over
  values (bounds, history, cursor) and the properties of zoom-in and zoom-out
  sequences.
- `Panel` (panel.dfy): the panel as a class whose fields the click handler
  updates in place, and the render pass writing into a two-dimensional array.
  Each method is proved against the functions of the modules above.

Java `double` values are modelled as exact reals. The colour conversion
`Color.HSBtoRGB` is a parameter `toRgb` of the render pass.

The comment at MandelbrotSet.java:138 speaks of a 50% zoom that cuts the
range in half, but lines 139-140 divide each range by ZOOM_FACTOR, which is 5.
Half of the new range then goes on each side of the clicked point (lines
145-148), so the new width is the old width divided by 5. The model follows
the code.

The code does not check that a clicked pixel lies inside the frame. The model
follows it and accepts any integer pixel.

## Model

| member | source | states |
|---|---|---|
| Viewport.ScaledX | src/mandelbrotSet/MandelbrotSet.java:109-114 | getScaledX as a function of the current bounds; its properties are the three lemmas about it below |
| Viewport.ScaledY | src/mandelbrotSet/MandelbrotSet.java:117-123 | getScaledY as a function of the current bounds, with row 0 at the top; its properties are the three lemmas about it below |
| Viewport.ScaledXEndpoints | src/mandelbrotSet/MandelbrotSet.java:109-114 | column 0 maps to the left bound and column FRAME_WIDTH to the right bound |
| Viewport.ScaledYEndpoints | src/mandelbrotSet/MandelbrotSet.java:117-123 | row 0 maps to the top bound and row FRAME_HEIGHT to the bottom bound |
| Viewport.ScaledXIncreasing | src/mandelbrotSet/MandelbrotSet.java:109-114 | on a proper rectangle, plane x is strictly increasing in the column, both directions |
| Viewport.ScaledYDecreasing | src/mandelbrotSet/MandelbrotSet.java:117-123 | on a proper rectangle, plane y is strictly decreasing in the row (screen rows grow downward), both directions |
| Viewport.PixelInsideFrameMapsInsideBounds | src/mandelbrotSet/MandelbrotSet.java:109-123 | every pixel of the frame maps to a point inside the current rectangle |
| Viewport.ZoomAt | src/mandelbrotSet/MandelbrotSet.java:131-148 | the new view is centred on the clicked plane point, its width and height are the old ones divided by ZOOM_FACTOR, and it stays a proper rectangle |
| Viewport.ZoomAtInitialExample | src/mandelbrotSet/MandelbrotSet.java:131-148 | pixel (750, 750) of the initial view is (-1, 0), and clicking it gives the view [-1.4, -0.6] by [-0.3, 0.3] |
| Escape.Step | src/mandelbrotSet/MandelbrotSet.java:73-75 | the coordinate update of one loop turn; StepIsSquarePlusC gives its meaning, and EscapeFromAfterStep and EscapeIterations prove that the loop body with its temporary computes it |
| Escape.StepIsSquarePlusC | src/mandelbrotSet/MandelbrotSet.java:73-75 | the coordinate update equals the complex map z*z + c, with complex multiplication and addition defined apart from it |
| Escape.TemporaryMatters | src/mandelbrotSet/MandelbrotSet.java:73-75 | at z = 1 + i, c = 0 the step gives 2i, while computing y from the already updated x would give 0 |
| Escape.EscapeFrom | src/mandelbrotSet/MandelbrotSet.java:72-77 | the count the loop ends with from a given step never falls below that step and never exceeds MAX_ITERATION |
| Escape.EscapeTime | src/mandelbrotSet/MandelbrotSet.java:68-77 | the iteration count of a plane point lies in 1..MAX_ITERATION, so it is never 0 |
| Escape.EscapeFromMeetsSpec | src/mandelbrotSet/MandelbrotSet.java:72-77 | from any orbit point reached inside radius 2, the loop ends at the first exit from radius 2 or at the cap |
| Escape.EscapeTimeMeetsSpec | src/mandelbrotSet/MandelbrotSet.java:68-77 | the count is the first n with the n-th orbit point outside radius 2, capped at MAX_ITERATION |
| Escape.EscapeTimeUnique | src/mandelbrotSet/MandelbrotSet.java:72-77 | at most one count meets the reference definition |
| Escape.EscapeTimeCharacterized | src/mandelbrotSet/MandelbrotSet.java:68-77 | a count meets the reference definition exactly when it is the computed count |
| Escape.OriginOrbitStaysAtOrigin | src/mandelbrotSet/MandelbrotSet.java:68-77 | the orbit of c = 0 stays at 0 |
| Escape.BoundedOrbitReachesCap | src/mandelbrotSet/MandelbrotSet.java:72 | a point whose first MAX_ITERATION orbit points stay inside radius 2 gets the cap |
| Escape.OriginNeverEscapes | src/mandelbrotSet/MandelbrotSet.java:68-77 | the origin gets the count MAX_ITERATION |
| Escape.PointTwoEscapesAfterOneStep | src/mandelbrotSet/MandelbrotSet.java:72-77 | the point (2, 0) reaches (2, 0) after one step and gets the count 1 |
| Escape.EscapeFromAfterStep | src/mandelbrotSet/MandelbrotSet.java:73-76 | one turn of the loop body, with the new x in a temporary, keeps the remaining count unchanged |
| Escape.EscapeIterations | src/mandelbrotSet/MandelbrotSet.java:68-77 | the while loop returns the escape time of (x0, y0), which lies in 1..MAX_ITERATION |
| Palette.PaletteHsb | src/mandelbrotSet/MandelbrotSet.java:60 | entry i has full saturation, brightness in [0, 1) and hue i/256 |
| Palette.BrightnessIncreasing | src/mandelbrotSet/MandelbrotSet.java:60 | brightness rises strictly with the entry index, both directions |
| Palette.HueWrapsEvery256 | src/mandelbrotSet/MandelbrotSet.java:60 | the hue advances by one full turn every 256 entries |
| Palette.PaletteEntry | src/mandelbrotSet/MandelbrotSet.java:58-61 | palette entry i is the colour converted from hue i/256, saturation 1, brightness i/(i+8) |
| Palette.BuildPalette | src/mandelbrotSet/MandelbrotSet.java:58-61 | the loop fills a newly allocated array of MAX_ITERATION entries equal to the palette |
| Palette.PixelColor | src/mandelbrotSet/MandelbrotSet.java:83-101 | a capped count gives black; an escaping count gives a palette entry other than the last one |
| Palette.OriginPixelIsBlack | src/mandelbrotSet/MandelbrotSet.java:97-98 | the pixel of the origin is black |
| Palette.PointTwoPixelIsFirstEntry | src/mandelbrotSet/MandelbrotSet.java:83-84 | the pixel of (2, 0) takes palette entry 0 |
| ZoomHistory.Insert | src/mandelbrotSet/MandelbrotSet.java:157 | insertion at index i puts x at i, keeps earlier entries and shifts later ones up by one |
| ZoomHistory.Initial | src/mandelbrotSet/MandelbrotSet.java:41-52 | the start state is consistent, its bounds are the initial view (-2.5, 1.5, 1.5, -1.5), the history holds that view alone and the cursor is 0 |
| ZoomHistory.ZoomedIn | src/mandelbrotSet/MandelbrotSet.java:129-157 | a primary click keeps the state consistent, advances the cursor by one, zooms the bounds and inserts them at the new cursor |
| ZoomHistory.ZoomedOut | src/mandelbrotSet/MandelbrotSet.java:161-171 | a secondary click keeps the state consistent, keeps the history, and moves the cursor back by one unless it is 0 |
| ZoomHistory.Clicked | src/mandelbrotSet/MandelbrotSet.java:128-172 | every click keeps the state consistent |
| ZoomHistory.ZoomInShiftsHistory | src/mandelbrotSet/MandelbrotSet.java:150-157 | a zoom-in grows the history by one, keeps entries up to the old cursor and shifts the later ones up |
| ZoomHistory.ZoomInThenOut | src/mandelbrotSet/MandelbrotSet.java:150-167 | zoom-in then zoom-out restores bounds and cursor, and the history keeps the inserted view |
| ZoomHistory.ZoomOutAtInitialIsNoOp | src/mandelbrotSet/MandelbrotSet.java:161-171 | a secondary click at cursor 0 changes nothing |
| ZoomHistory.OtherButtonIsIgnored | src/mandelbrotSet/MandelbrotSet.java:128-172 | a click with any other button changes nothing |
| ZoomHistory.FirstZoomExample | src/mandelbrotSet/MandelbrotSet.java:128-157 | a primary click at (750, 750) from the start gives the view [-1.4, -0.6] by [-0.3, 0.3] at cursor 1, with history [initial, that view] |
| ZoomHistory.ZoomedInAllShrinks | src/mandelbrotSet/MandelbrotSet.java:135-148 | after k zoom-ins anywhere, width and height are the starting ones divided by ZOOM_FACTOR^k |
| ZoomHistory.ZoomedInAllKeepsPrefix | src/mandelbrotSet/MandelbrotSet.java:150-157 | k zoom-ins advance the cursor by k, grow the history by k and keep the entries up to the old cursor |
| ZoomHistory.ZoomedOutTimesLands | src/mandelbrotSet/MandelbrotSet.java:161-167 | k zoom-outs from cursor c with k <= c land on history entry c - k with the history unchanged |
| ZoomHistory.ZoomInsUndoneByZoomOuts | src/mandelbrotSet/MandelbrotSet.java:150-167 | any k zoom-ins followed by k zoom-outs restore the starting bounds and cursor |
| Panel.ColorOfPixel | src/mandelbrotSet/MandelbrotSet.java:66-101 | the per-pixel body stores the colour of the escape time of the pixel's plane point |
| Panel.MandelbrotPanel.constructor | src/mandelbrotSet/MandelbrotSet.java:28-52 | the new panel is in the initial state, with one history entry and cursor 0 |
| Panel.MandelbrotPanel.ZoomIn | src/mandelbrotSet/MandelbrotSet.java:129-159 | the fields after the BUTTON1 branch are the state ZoomedIn gives, and consistency is kept |
| Panel.MandelbrotPanel.ZoomOut | src/mandelbrotSet/MandelbrotSet.java:161-170 | the fields after the BUTTON3 branch are the state ZoomedOut gives, and consistency is kept |
| Panel.MandelbrotPanel.MouseClicked | src/mandelbrotSet/MandelbrotSet.java:128-172 | the fields after any click are the state Clicked gives, and consistency is kept |
| Panel.MandelbrotPanel.PaintComponent | src/mandelbrotSet/MandelbrotSet.java:56-103 | every pixel of the raster holds the palette colour of its escape time in the current view, or black |

## Left out

- Swing and AWT plumbing is not modelled: the JFrame, `repaint`, `drawImage`, `main`, the empty mouse listeners, `setSize` and `addMouseListener`.
- Palette.PaletteEntry: `Color.HSBtoRGB` is the parameter `toRgb`, so the packed RGB values, the float conversion and the hue wrap inside it are not modelled.
- Escape.EscapeIterations: Java doubles are exact reals here, so IEEE-754 rounding and overflow to infinity are not modelled.
- All arithmetic on doubles is exact in the model, so the zoom results hold only for real numbers. After about 24 zoom-ins near x = -1, half the new range falls below the spacing of doubles. Lines 145-146 then round the left and right bounds to the same value. `Viewport.ZoomAt` (the view stays a proper rectangle) and `ZoomHistory.ZoomedInAllShrinks` (width and height divided by 5^k) do not hold for Java doubles at that depth.
- Panel.MandelbrotPanel.PaintComponent: the `BufferedImage` is a two-dimensional integer array indexed [column, row]; its 24-bit pixel packing is not modelled.
- The commented-out colourings and the unused `percent` variable are not modelled, since they have no effect.
- The initial capacity 5000 of the history list is not modelled; it does not change behaviour.
- The history entries are `Bounds` values rather than string-keyed hash maps, which always hold the four keys.
- `getScaledX` and `getScaledY` are functions of a `Bounds` value rather than reads of the panel's fields.
