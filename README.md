# Mandelbrot graphics engine, modelled in Dafny

This project models the core of the WPF Mandelbrot viewer's `GraphicsEngine`: the object that
owns the colour palette, the rectangle of the complex plane on view (the *view*), and the cursor
of the progressive renderer. It draws into a bitmap and calls back its window.

- **Palette.** The constructor builds 157 colours. There are 52 passes of a red-to-yellow, a
  green-to-cyan and a blue-to-magenta gradient step, followed by black. The palette's length
  fixes the iteration cap of the escape loop.
- **Escape loop.** `calculateAndFillSquare` iterates z := z² + c from z = c until |z| ≥ 2 or
  until the cap is reached. It then fills one square in the palette colour of the iteration it
  stopped at.
- **Progressive quadrant scheduler.** `renderView` fills the whole canvas with one colour and
  reports the zoom level, then runs `renderLoop`. The loop sweeps the canvas in row-major order
  in blocks. At each block it fills the top-right, bottom-left and bottom-right quadrants, and
  never the top-left one, which already has the right colour. After every full sweep it halves
  the block width. The pass ends after the sweep whose halved block width is at most one
  pixel; on a canvas whose width is a power of two, that is the sweep at block width 2.
  It asks the window to redraw after every sweep except the last, and whenever 1000 steps
  have run since the previous redraw, so at most 1000 steps come between redraws. A
  generation counter makes a call with a stale render number return at once.
- **View.** `constrainView` clamps a proposed rectangle into the default view (left -2.25,
  top 1.5, 3 × 3). It commits the rectangle only if it differs from the current view.
  `onCanvasClick` zooms in by two around the clicked point. `zoomOut` zooms out by two around
  the centre.

How the model is organised:

- The engine is the class `Engine.GraphicsEngine`, with the source's fields.
- The bitmap and the window are collaborators the engine cannot see. Each call made on them is
  appended to a field `effects : seq<Event>`:
  - `FillRectangle` carries its four bounds and its colour;
  - `RedrawImage`;
  - `SetZoomMessage` carries the zoom exponent.
- Each method that renders is proved against a specification function of the scheduler:
  - `PassEvents` is the exact sequence of effects of one pass;
  - `PassEnd` is where the pass leaves the cursor;
  - `RenderEffects` is everything `renderView` does.

  The properties the source promises are proved as lemmas about these functions: batching,
  termination, the finest level reached, the three-quadrant pattern, and the zoom report.
- Doubles are idealised as Dafny `real`. The escape loop and the view arithmetic are written
  exactly as the source writes them, over the reals.

Modules:

| Module | File | What it holds |
|---|---|---|
| `Palette` | `palette.dfy` | colours, the palette in closed form, the palette-building loop |
| `Escape` | `escape.dfy` | the orbit, the first-escape description, the escape loop |
| `Viewport` | `viewport.dfy` | view rectangles, clamping, the pixel-to-plane mapping, the zoom proposals |
| `Scheduler` | `scheduler.dfy` | the scheduler's cursor, its steps and passes as functions, and their lemmas |
| `Engine` | `engine.dfy` | the `GraphicsEngine` class and the lemmas that connect its loops to the scheduler |

## Model

| member | source | states |
|---|---|---|
| Palette.BuildPalette | WPFMandelbrot.Engine/GraphicsEngine.cs:47-58 | The loop builds 157 colours. Entry k is `PaletteColor(k)`: entries 3j, 3j+1 and 3j+2 are (255,5j,0), (0,255,5j) and (5j,0,255), all opaque. Entry 156 is black. |
| Palette.PaletteColorsDistinct | WPFMandelbrot.Engine/GraphicsEngine.cs:47-58 | No two palette entries are equal. Black is the last entry and no other. |
| Escape.EscapeFrom | WPFMandelbrot.Engine/GraphicsEngine.cs:68-82 | The loop continued from iteration i stops at an index between i and the cap. |
| Escape.EscapeTest | WPFMandelbrot.Engine/GraphicsEngine.cs:70-76 | The escape test in the loop body returns an index between i and the cap. |
| Escape.EscapeIndex | WPFMandelbrot.Engine/GraphicsEngine.cs:63-82 | The index the loop ends with never exceeds `palette.Count - 1`, so `palette[i]` is in bounds. |
| Escape.EscapeFromIsFirstEscape | WPFMandelbrot.Engine/GraphicsEngine.cs:68-82 | If no earlier orbit point escaped, the loop continued from iteration i ends on the first escaping iteration, or on the cap. |
| Escape.FirstEscapeIsUnique | WPFMandelbrot.Engine/GraphicsEngine.cs:68-82 | At most one index meets the first-escape description. |
| Escape.EscapeIndexIsFirstEscape | WPFMandelbrot.Engine/GraphicsEngine.cs:63-82 | An index is the loop's result if and only if it is the first escaping iteration, or the cap when none escapes. |
| Escape.CapMeansNeverEscaped | WPFMandelbrot.Engine/GraphicsEngine.cs:68-82 | The loop ends on the cap if and only if no orbit point before the cap has |z| ≥ 2. |
| Escape.EscapeIndexOutsideDisc | WPFMandelbrot.Engine/GraphicsEngine.cs:68-76 | A point with cr² + ci² ≥ 4 stops the loop at iteration 0, whatever the cap. |
| Escape.OriginOrbit | WPFMandelbrot.Engine/GraphicsEngine.cs:78-81 | The orbit of the origin stays at the origin. |
| Escape.OriginReachesCap | WPFMandelbrot.Engine/GraphicsEngine.cs:63-82 | The origin never escapes, so the loop runs to the cap and the origin gets the in-set index. |
| Scheduler.OriginFillIsBlack | WPFMandelbrot.Engine/GraphicsEngine.cs:58-88 | With the engine's palette, a square sampled at the origin is filled black. |
| Escape.Iterate | WPFMandelbrot.Engine/GraphicsEngine.cs:63-82 | The imperative loop over zr, zi and i returns the first escaping iteration, or the cap. |
| Engine.GraphicsEngine.constructor | WPFMandelbrot.Engine/GraphicsEngine.cs:40-59 | The new engine holds the 157-colour palette and the canvas size it was given. Its view, cursor and counters are zero and nothing has been drawn yet. |
| Engine.GraphicsEngine.CalculateAndFillSquare | WPFMandelbrot.Engine/GraphicsEngine.cs:61-89 | Exactly one fill is appended: bounds (left, top, left+w, top+w-1), colour `palette[EscapeIndex]`. No other field changes. |
| Scheduler.SquareFillColor | WPFMandelbrot.Engine/GraphicsEngine.cs:61-89 | With the engine's palette, a fill is black if and only if its sample point never escaped. A sample point outside the radius-2 disc gets palette entry 0. |
| Scheduler.StepFillsThreeQuadrants | WPFMandelbrot.Engine/GraphicsEngine.cs:108-131 | A step fills exactly three squares of side h = block/2, at offsets (h,0), (0,h) and (h,h) from the cursor. The top-left quadrant is never filled. |
| Scheduler.StepSamplesQuadrantCorners | WPFMandelbrot.Engine/GraphicsEngine.cs:108-131 | When the canvas scale matches the block's plane width, each quadrant is coloured from the plane point under its own top-left pixel. |
| Scheduler.Advance | WPFMandelbrot.Engine/GraphicsEngine.cs:133-153 | Within a sweep the cursor moves right, or down to the next row, with the block unchanged. At the end of a sweep it goes back to (0,0) with both widths halved. |
| Scheduler.AdvanceKeepsScanInvariant | WPFMandelbrot.Engine/GraphicsEngine.cs:133-145 | A step that does not end the pass keeps the cursor on the canvas, with both coordinates multiples of the current block width. |
| Scheduler.AdvanceStaysInRange | WPFMandelbrot.Engine/GraphicsEngine.cs:133-145 | A step that does not end the pass keeps the cursor on the canvas. |
| Scheduler.AdvanceKeepsScale | WPFMandelbrot.Engine/GraphicsEngine.cs:143-144 | Halving both widths together keeps the plane width of a block equal to its pixel width under the view's scale. |
| Scheduler.PassEndIsFinestLevel | WPFMandelbrot.Engine/GraphicsEngine.cs:140-150 | The pass terminates with the cursor at (0,0) and a block width of at most 1. The block width is exactly 1 when the pass started at 2 or more. |
| Scheduler.EventsBeforeRedraw | WPFMandelbrot.Engine/GraphicsEngine.cs:111-160 | Counts the effects before the first redraw. The effect it stops at, if any, is a redraw, and none before it is. |
| Scheduler.PassIsBatched | WPFMandelbrot.Engine/GraphicsEngine.cs:111-160 | At most 3 × 1000 fills, that is 1000 steps, come before the first `RedrawImage` of a pass, and between any `RedrawImage` and the next one or the end. |
| Scheduler.PassFinishedBatched | WPFMandelbrot.Engine/GraphicsEngine.cs:146-150 | The step that ends the pass keeps the batch bound. |
| Scheduler.PassRedrawBatched | WPFMandelbrot.Engine/GraphicsEngine.cs:111-160 | A step that ends a sweep or a batch is followed by a redraw that starts a new batch. |
| Scheduler.PassContinueBatched | WPFMandelbrot.Engine/GraphicsEngine.cs:111-157 | Any other step joins the batch that follows it. |
| Scheduler.PassOnlyFillsAndRedraws | WPFMandelbrot.Engine/GraphicsEngine.cs:101-161 | A pass never reports the zoom level; it only fills and redraws. |
| Scheduler.PassEndsWithFill | WPFMandelbrot.Engine/GraphicsEngine.cs:146-150 | The final sweep is not followed by `RedrawImage`: a pass ends on a fill. |
| Scheduler.RenderReportsZoomOnce | WPFMandelbrot.Engine/GraphicsEngine.cs:168-188 | A render first fills the whole canvas from the view's top-left point, then reports its zoom level, and reports it nowhere else. |
| Engine.StepTrace | WPFMandelbrot.Engine/GraphicsEngine.cs:111-160 | After a step's fills, what is left of the pass is one of three things: nothing when the step ends the pass; a `RedrawImage` and a fresh batch when it ends a sweep or a batch; otherwise the rest of the batch. |
| Engine.StepMovesCursor | WPFMandelbrot.Engine/GraphicsEngine.cs:133-153 | The final step leaves the cursor where the pass ends. Any other step keeps the cursor on the canvas, keeps the pass's end, and uses up one of the steps left. |
| Engine.GraphicsEngine.RenderLoop | WPFMandelbrot.Engine/GraphicsEngine.cs:91-166 | A stale render number changes nothing: no fill and no redraw. Otherwise the engine performs exactly `PassEvents` from its cursor, and the cursor ends at `PassEnd`. |
| Engine.GraphicsEngine.RenderBatch | WPFMandelbrot.Engine/GraphicsEngine.cs:104-158 | One batch runs up to 1000 steps and stops at the end of a sweep. Either it completes the pass, or it leaves the cursor where the rest of the pass, after a `RedrawImage`, continues. |
| Engine.GraphicsEngine.FillQuadrants | WPFMandelbrot.Engine/GraphicsEngine.cs:113-131 | The loop body's three fills are exactly `StepFills` at the cursor. |
| Engine.GraphicsEngine.MoveCursor | WPFMandelbrot.Engine/GraphicsEngine.cs:133-154 | The cursor update is `Advance`. The method reports whether the sweep ended and whether the pass is complete. |
| Engine.GraphicsEngine.RenderView | WPFMandelbrot.Engine/GraphicsEngine.cs:168-188 | The render number goes up by one. The effects are `RenderEffects` of the current view and zoom exponent. The cursor ends at the end of the pass started from (0,0) with the full canvas and view widths. |
| Engine.GraphicsEngine.RenderDefaultView | WPFMandelbrot.Engine/GraphicsEngine.cs:190-199 | The view becomes the default view and the zoom exponent 0, and the default view is rendered. |
| Viewport.Clamp | WPFMandelbrot.Engine/GraphicsEngine.cs:204-232 | The clamped rectangle lies inside the default view. Its width and height are capped at 3. |
| Viewport.ClampFixesExactlyContained | WPFMandelbrot.Engine/GraphicsEngine.cs:204-232 | Clamping leaves a rectangle unchanged if and only if it already lies in the default view. |
| Viewport.ClampIdempotent | WPFMandelbrot.Engine/GraphicsEngine.cs:204-236 | Clamping twice is clamping once, so repeating an accepted `constrainView` reports no change. |
| Viewport.ClampKeepsPositiveSize | WPFMandelbrot.Engine/GraphicsEngine.cs:204-210 | Clamping keeps a positive width and height positive. |
| Engine.GraphicsEngine.ConstrainView | WPFMandelbrot.Engine/GraphicsEngine.cs:201-249 | It returns true if and only if the clamped rectangle differs from the current view. When true, it commits the clamped rectangle and the zoom exponent floored at 0. When false, it leaves the view and the zoom exponent unchanged. |
| Viewport.CanvasSpansView | WPFMandelbrot.Engine/GraphicsEngine.cs:113-114 | The canvas corners map onto the view's corners. |
| Viewport.ZoomInProposal | WPFMandelbrot.Engine/GraphicsEngine.cs:256-265 | The proposed view is half as wide and half as high, and is centred on the clicked point. |
| Viewport.ZoomOutProposal | WPFMandelbrot.Engine/GraphicsEngine.cs:274-280 | The proposed view is twice as wide and twice as high, with the same centre. |
| Viewport.CentrePixelIsViewCentre | WPFMandelbrot.Engine/GraphicsEngine.cs:253-254 | The centre pixel of a canvas with even sides maps to the centre of the view. |
| Viewport.ZoomOutUndoesCentreZoomIn | WPFMandelbrot.Engine/GraphicsEngine.cs:251-285 | On a contained view of positive size, zooming in at its centre and then zooming out gives the view back, and both steps report a change. |
| Viewport.DefaultViewCentreClick | WPFMandelbrot.Engine/GraphicsEngine.cs:251-270 | A click at the centre of a 512 × 512 canvas showing the default view zooms to (-1.5, 0.75, 1.5, 1.5). |
| Engine.GraphicsEngine.OnCanvasClick | WPFMandelbrot.Engine/GraphicsEngine.cs:251-270 | Nothing changes when halving gives no positive size, or when the clamped proposal equals the view. Otherwise the view becomes the clamped proposal and the zoom exponent goes up by one; the engine renders it, and the cursor ends where the pass from (0,0) at full width ends. |
| Engine.GraphicsEngine.ZoomOut | WPFMandelbrot.Engine/GraphicsEngine.cs:272-285 | Nothing changes when the clamped proposal equals the view. Otherwise the view becomes the clamped proposal, the zoom exponent goes down by one but not below 0, and the engine renders it, the cursor ending where the pass from (0,0) at full width ends. |

## Left out

- The bitmap and the window.
  - `WriteableBitmap`, `BitmapFactory.New` and `GetBitmapContext` are not modelled.
  - Of `FillRectangle`, only the arguments are kept. The library's pixel semantics, including the off-by-one it compensates for, are not modelled.
  - `IMandelbrotWindow` is reduced to the `RedrawImage` and `SetZoomMessage` events.
- IEEE-754 doubles are idealised as reals.
  - The precision guards are kept as the source writes them: the equality test in `constrainView` and the `<= 0.0` test in `onCanvasClick`.
  - Over the reals they never fire on a real zoom-in, and no property here claims a float-exact result.
- The 32-bit wrap-around of `globalRenderNumber` and `zoomExponent` is not modelled; both are unbounded integers.
- The commented-out timer (`setTimeout`, `nextCallDelay`) and the UI in `WPFMandelbrot/MainWindow.xaml.cs` are not part of this model. `renderLoop` runs to completion synchronously, as the source does.
- Engine.GraphicsEngine.RenderLoop: it requires a block width of at least one pixel when the render number is current.
  - With a block width of 0 the source's loop never ends. This happens on a fresh engine, or on a second call after a pass finished on a one-pixel canvas.
  - `renderView` always meets the requirement.
- Engine.GraphicsEngine.constructor: it requires a canvas of at least one pixel each way. The source does not check this; a canvas of zero size would make the pixel-to-plane mapping divide by zero.
- The `renderLoop` method is split into three methods with their own contracts, so that each proof stays small:
  - `RenderBatch` is the inner `for` loop;
  - `FillQuadrants` is the three fills;
  - `MoveCursor` is the cursor update.

  The control flow and the field updates are the source's.
- The halving of the local `nextCanvasWidthInPixels` and `nextWidth` just before the `break` has no effect, because the next batch recomputes both. `RenderBatch` keeps it all the same.
- Engine.GraphicsEngine.Valid: the engine's invariant does not include the grid property, that the cursor lies on multiples of the block width. That property is proved on the scheduler instead, as `Scheduler.AdvanceKeepsScanInvariant`.
- The first fill of `renderView` uses the canvas width for both sides of the square. This is recorded as written, as a fill of (0, 0, W, W - 1); the model does not say how much of a non-square canvas that fill covers.
- Viewport.ZoomOutUndoesCentreZoomIn: the zoom round trip is proved only for a click at the centre of the view. A click elsewhere does not round-trip even when no clamp applies: `zoomOut` doubles the view about the zoomed view's centre, which is the clicked point, not the original view's centre.
- The scheduler's coverage is stated step by step: each step fills the three quadrants that the coarser level left on one colour. The model does not prove a whole-canvas statement that every pixel is eventually coloured from its own sample point.
