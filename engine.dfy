/** The graphics engine: the object that owns the palette, the view of the
    complex plane and the cursor of the progressive renderer, and that fills
    its bitmap and calls back its window. Both collaborators are recorded in
    the trace `effects`, in the order the engine calls them. */
module Engine {
  import opened Palette
  import opened Escape
  import opened Viewport
  import opened Scheduler

  class GraphicsEngine {
    const canvasWidthInPixels: int
    const canvasHeightInPixels: int
    const palette: seq<Color>

    var viewLeft: real
    var viewTop: real
    var viewWidth: real
    var viewHeight: real

    var currentCanvasLeftInPixels: int
    var currentCanvasTopInPixels: int
    var currentCanvasWidthInPixels: int
    var currentWidth: real

    var globalRenderNumber: int
    var zoomExponent: int

    /** Every fill of the bitmap and every call on the window so far. */
    var effects: seq<Event>

    function CanvasSize(): (c: Canvas)
    {
      Canvas(canvasWidthInPixels, canvasHeightInPixels)
    }

    function View(): (v: Rect)
      reads this`viewLeft, this`viewTop, this`viewWidth, this`viewHeight
    {
      Rect(viewLeft, viewTop, viewWidth, viewHeight)
    }

    function Cursor(): (s: Scan)
      reads this`currentCanvasLeftInPixels, this`currentCanvasTopInPixels,
            this`currentCanvasWidthInPixels, this`currentWidth
    {
      Scan(currentCanvasLeftInPixels, currentCanvasTopInPixels, currentCanvasWidthInPixels, currentWidth)
    }

    /** The engine's invariant: a palette of the constructor's size, a cursor
        on the canvas, a view inside the default view, and a zoom exponent
        that is never negative. */
    ghost predicate Valid()
      reads this
    {
      && canvasWidthInPixels >= 1 && canvasHeightInPixels >= 1
      && |palette| == PaletteSize
      && 0 <= currentCanvasLeftInPixels < canvasWidthInPixels
      && 0 <= currentCanvasTopInPixels < canvasHeightInPixels
      && currentCanvasWidthInPixels >= 0
      && Contained(View())
      && zoomExponent >= 0
    }

    /** Builds the palette; the view, the cursor and the counters start at zero. */
    constructor (canvasWidthInPixels: int, canvasHeightInPixels: int)
      requires canvasWidthInPixels >= 1 && canvasHeightInPixels >= 1
      ensures Valid() && IsEnginePalette(palette)
      ensures this.canvasWidthInPixels == canvasWidthInPixels
      ensures this.canvasHeightInPixels == canvasHeightInPixels
      ensures View() == Rect(0.0, 0.0, 0.0, 0.0)
      ensures Cursor() == Scan(0, 0, 0, 0.0)
      ensures globalRenderNumber == 0 && zoomExponent == 0 && effects == []
    {
      this.canvasWidthInPixels := canvasWidthInPixels;
      this.canvasHeightInPixels := canvasHeightInPixels;
      var p := BuildPalette();
      palette := p;
      viewLeft, viewTop, viewWidth, viewHeight := 0.0, 0.0, 0.0, 0.0;
      currentCanvasLeftInPixels, currentCanvasTopInPixels, currentCanvasWidthInPixels := 0, 0, 0;
      currentWidth := 0.0;
      globalRenderNumber, zoomExponent := 0, 0;
      effects := [];
    }

    /** Runs the escape loop for (cr, ci) and fills the square with the
        palette colour of the iteration it stopped at. */
    method CalculateAndFillSquare(cr: real, ci: real, canvasSquareLeft: int, canvasSquareTop: int, canvasSquareWidth: int)
      requires |palette| >= 1
      modifies this`effects
      ensures effects == old(effects) + [SquareFill(palette, cr, ci, canvasSquareLeft, canvasSquareTop, canvasSquareWidth)]
    {
      var maxNumIterations := |palette| - 1;
      var i := Iterate(cr, ci, maxNumIterations);
      effects := effects + [FillRectangle(canvasSquareLeft, canvasSquareTop,
                                          canvasSquareLeft + canvasSquareWidth,
                                          canvasSquareTop + canvasSquareWidth - 1, palette[i])];
    }

    /** The progressive renderer. A call whose render number is stale does
        nothing. Otherwise it runs the whole remaining pass from the cursor,
        batch after batch, and asks the window to redraw after every batch
        but the last. */
    method RenderLoop(localRenderNumber: int)
      requires Valid()
      requires localRenderNumber == globalRenderNumber ==> currentCanvasWidthInPixels >= 1
      modifies this`currentCanvasLeftInPixels, this`currentCanvasTopInPixels,
               this`currentCanvasWidthInPixels, this`currentWidth, this`effects
      ensures Valid()
      ensures localRenderNumber != globalRenderNumber ==> unchanged(this)
      ensures localRenderNumber == globalRenderNumber ==>
        && effects == old(effects) + PassEvents(CanvasSize(), View(), palette, old(Cursor()), 0)
        && Cursor() == PassEnd(CanvasSize(), old(Cursor()))
    {
      if localRenderNumber != globalRenderNumber {
        return;
      }
      ghost var target := effects + PassEvents(CanvasSize(), View(), palette, Cursor(), 0);
      ghost var finalCursor := PassEnd(CanvasSize(), Cursor());
      while true
        invariant Valid() && currentCanvasWidthInPixels >= 1
        invariant effects + PassEvents(CanvasSize(), View(), palette, Cursor(), 0) == target
        invariant PassEnd(CanvasSize(), Cursor()) == finalCursor
        decreases StepsLeft(CanvasSize(), Cursor())
      {
        var complete := RenderBatch(target);
        if complete {
          return;
        }
        effects := effects + [RedrawImage];
      }
    }

    /** One batch of renderLoop: up to MaxRendersPerCall steps from the
        cursor, stopping early when a sweep ends. The answer says whether
        the pass is complete; when it is not, a RedrawImage is what the
        pass does next. */
    method RenderBatch(ghost target: seq<Event>) returns (complete: bool)
      requires Valid() && currentCanvasWidthInPixels >= 1
      requires effects + PassEvents(CanvasSize(), View(), palette, Cursor(), 0) == target
      modifies this`currentCanvasLeftInPixels, this`currentCanvasTopInPixels,
               this`currentCanvasWidthInPixels, this`currentWidth, this`effects
      ensures Valid()
      ensures complete ==> effects == target && Cursor() == PassEnd(CanvasSize(), old(Cursor()))
      ensures !complete ==>
        && currentCanvasWidthInPixels >= 1
        && effects + [RedrawImage] + PassEvents(CanvasSize(), View(), palette, Cursor(), 0) == target
        && PassEnd(CanvasSize(), Cursor()) == PassEnd(CanvasSize(), old(Cursor()))
        && StepsLeft(CanvasSize(), Cursor()) < StepsLeft(CanvasSize(), old(Cursor()))
    {
      ghost var c := CanvasSize();
      ghost var v := View();
      ghost var finalCursor := PassEnd(c, Cursor());
      ghost var stepsAtStart := StepsLeft(c, Cursor());
      var nextCanvasWidthInPixels := currentCanvasWidthInPixels / 2;
      var nextWidth := currentWidth / 2.0;
      var renderNum := 0;
      while renderNum < MaxRendersPerCall
        invariant 0 <= renderNum <= MaxRendersPerCall
        invariant InRange(c, Cursor()) && View() == v
        invariant nextCanvasWidthInPixels == currentCanvasWidthInPixels / 2
        invariant nextWidth == currentWidth / 2.0
        invariant renderNum < MaxRendersPerCall ==>
          effects + PassEvents(c, v, palette, Cursor(), renderNum) == target
        invariant renderNum == MaxRendersPerCall ==>
          effects + [RedrawImage] + PassEvents(c, v, palette, Cursor(), 0) == target
        invariant PassEnd(c, Cursor()) == finalCursor
        invariant StepsLeft(c, Cursor()) + renderNum == stepsAtStart
      {
        ghost var s := Cursor();
        ghost var before := effects;
        FillQuadrants(nextCanvasWidthInPixels, nextWidth);
        StepTrace(c, v, palette, s, renderNum, before, effects, target);
        StepMovesCursor(c, s);
        var swept;
        complete, swept := MoveCursor(nextCanvasWidthInPixels, nextWidth);
        if complete {
          return;
        }
        if swept {
          nextCanvasWidthInPixels := nextCanvasWidthInPixels / 2;
          nextWidth := nextWidth / 2.0;
          // Let the window show the image at this block width.
          return;
        }
        renderNum := renderNum + 1;
      }
      complete := false;
    }

    /** The three fills of one step: the block's sample point is the plane
        point under its top-left pixel, and the top-right, bottom-left and
        bottom-right quadrants are sampled half a block further on. */
    method FillQuadrants(nextCanvasWidthInPixels: int, nextWidth: real)
      requires InRange(CanvasSize(), Cursor()) && |palette| >= 1
      requires nextCanvasWidthInPixels == currentCanvasWidthInPixels / 2 && nextWidth == currentWidth / 2.0
      modifies this`effects
      ensures effects == old(effects) + StepFills(CanvasSize(), View(), palette, Cursor())
    {
      var cr := currentCanvasLeftInPixels as real * viewWidth / canvasWidthInPixels as real + viewLeft;
      var ci := viewTop - currentCanvasTopInPixels as real * viewHeight / canvasHeightInPixels as real;

      CalculateAndFillSquare(cr + nextWidth, ci,
        currentCanvasLeftInPixels + nextCanvasWidthInPixels, currentCanvasTopInPixels,
        nextCanvasWidthInPixels);
      CalculateAndFillSquare(cr, ci - nextWidth,
        currentCanvasLeftInPixels, currentCanvasTopInPixels + nextCanvasWidthInPixels,
        nextCanvasWidthInPixels);
      CalculateAndFillSquare(cr + nextWidth, ci - nextWidth,
        currentCanvasLeftInPixels + nextCanvasWidthInPixels, currentCanvasTopInPixels + nextCanvasWidthInPixels,
        nextCanvasWidthInPixels);

      ghost var f := StepFills(CanvasSize(), View(), palette, Cursor());
      assert cr == PlaneX(View(), canvasWidthInPixels, currentCanvasLeftInPixels);
      assert ci == PlaneY(View(), canvasHeightInPixels, currentCanvasTopInPixels);
      assert effects == old(effects) + [f[0]] + [f[1]] + [f[2]];
      AppendThree(old(effects), f);
    }

    /** The cursor move of one step: one block to the right, else to the
        start of the next row, else back to the top-left corner with both
        block widths halved. The answers say whether the sweep ended and
        whether the pass is complete. */
    method MoveCursor(nextCanvasWidthInPixels: int, nextWidth: real) returns (complete: bool, swept: bool)
      requires InRange(CanvasSize(), Cursor())
      requires nextCanvasWidthInPixels == currentCanvasWidthInPixels / 2 && nextWidth == currentWidth / 2.0
      modifies this`currentCanvasLeftInPixels, this`currentCanvasTopInPixels,
               this`currentCanvasWidthInPixels, this`currentWidth
      ensures Cursor() == Advance(CanvasSize(), old(Cursor()))
      ensures swept == SweepDone(CanvasSize(), old(Cursor()))
      ensures complete == Finished(CanvasSize(), old(Cursor()))
    {
      complete, swept := false, false;
      currentCanvasLeftInPixels := currentCanvasLeftInPixels + currentCanvasWidthInPixels;

      if currentCanvasLeftInPixels >= canvasWidthInPixels {
        currentCanvasLeftInPixels := 0;
        currentCanvasTopInPixels := currentCanvasTopInPixels + currentCanvasWidthInPixels;

        if currentCanvasTopInPixels >= canvasHeightInPixels {
          currentCanvasTopInPixels := 0;
          currentCanvasWidthInPixels := nextCanvasWidthInPixels;
          currentWidth := nextWidth;
          swept := true;
          // Rendering is complete once the blocks are at most a pixel wide.
          complete := currentCanvasWidthInPixels <= 1;
        }
      }
    }

    /** Fills the whole canvas with the colour of the view's top-left point,
        reports the zoom level, starts a new render generation and runs it. */
    method RenderView()
      requires Valid()
      modifies this`currentCanvasLeftInPixels, this`currentCanvasTopInPixels,
               this`currentCanvasWidthInPixels, this`currentWidth, this`effects,
               this`globalRenderNumber
      ensures Valid()
      ensures globalRenderNumber == old(globalRenderNumber) + 1
      ensures effects == old(effects) + RenderEffects(CanvasSize(), View(), palette, zoomExponent)
      ensures Cursor() == PassEnd(CanvasSize(), Scan(0, 0, canvasWidthInPixels, viewWidth))
    {
      CalculateAndFillSquare(viewLeft, viewTop, 0, 0, canvasWidthInPixels);
      effects := effects + [SetZoomMessage(zoomExponent)];

      currentCanvasLeftInPixels := 0;
      currentCanvasTopInPixels := 0;
      currentCanvasWidthInPixels := canvasWidthInPixels;
      currentWidth := viewWidth;
      globalRenderNumber := globalRenderNumber + 1;
      ghost var start := effects;
      RenderLoop(globalRenderNumber);
      assert effects == start + PassEvents(CanvasSize(), View(), palette, Scan(0, 0, canvasWidthInPixels, viewWidth), 0);
    }

    /** Shows the default view at zoom level zero. */
    method RenderDefaultView()
      requires Valid()
      modifies this
      ensures Valid()
      ensures View() == DefaultView && zoomExponent == 0
      ensures globalRenderNumber == old(globalRenderNumber) + 1
      ensures effects == old(effects) + RenderEffects(CanvasSize(), DefaultView, palette, 0)
      ensures Cursor() == PassEnd(CanvasSize(), Scan(0, 0, canvasWidthInPixels, DefaultViewWidth))
    {
      viewLeft := DefaultViewLeft;
      viewTop := DefaultViewTop;
      viewWidth := DefaultViewWidth;
      viewHeight := DefaultViewHeight;
      zoomExponent := 0;

      RenderView();
    }

    /** Clamps the proposed view into the default view and commits it,
        together with the zoom exponent floored at zero, unless the clamped
        view is the current one. The answer says whether it committed. */
    method ConstrainView(newViewLeft: real, newViewTop: real, newViewWidth: real, newViewHeight: real,
                         newZoomExponent: int) returns (changed: bool)
      requires Valid()
      modifies this`viewLeft, this`viewTop, this`viewWidth, this`viewHeight, this`zoomExponent
      ensures Valid()
      ensures changed <==> Clamp(Rect(newViewLeft, newViewTop, newViewWidth, newViewHeight)) != old(View())
      ensures changed ==> View() == Clamp(Rect(newViewLeft, newViewTop, newViewWidth, newViewHeight))
                          && zoomExponent == (if newZoomExponent < 0 then 0 else newZoomExponent)
      ensures !changed ==> View() == old(View()) && zoomExponent == old(zoomExponent)
    {
      var left, top, width, height, zoom := newViewLeft, newViewTop, newViewWidth, newViewHeight, newZoomExponent;

      if width > DefaultViewWidth {
        width := DefaultViewWidth;
      }

      if height > DefaultViewHeight {
        height := DefaultViewHeight;
      }

      if left < DefaultViewLeft {
        left := DefaultViewLeft;
      }

      var newViewRight := left + width;
      var defaultViewRight := DefaultViewLeft + DefaultViewWidth;

      if newViewRight > defaultViewRight {
        left := defaultViewRight - width;
      }

      if top > DefaultViewTop {
        top := DefaultViewTop;
      }

      var newViewBottom := top - height;
      var defaultViewBottom := DefaultViewTop - DefaultViewHeight;

      if newViewBottom < defaultViewBottom {
        top := defaultViewBottom + height;
      }

      assert Rect(left, top, width, height) == Clamp(Rect(newViewLeft, newViewTop, newViewWidth, newViewHeight));
      if left == viewLeft && top == viewTop && width == viewWidth && height == viewHeight {
        return false;
      }

      if zoom < 0 {
        zoom := 0;
      }

      viewLeft := left;
      viewTop := top;
      viewWidth := width;
      viewHeight := height;
      zoomExponent := zoom;

      return true;
    }

    /** Zooms in by two, centred on the plane point under pixel (x, y), and
        renders when the clamped view differs from the current one. Nothing
        happens once halving the view no longer gives a positive size. */
    method OnCanvasClick(x: int, y: int)
      requires Valid()
      modifies this
      ensures Valid()
      ensures var p := Clamp(ZoomInProposal(old(View()), PlaneX(old(View()), canvasWidthInPixels, x),
                                           PlaneY(old(View()), canvasHeightInPixels, y)));
        if old(viewWidth) / 2.0 <= 0.0 || old(viewHeight) / 2.0 <= 0.0 || p == old(View()) then
          unchanged(this)
        else
          && View() == p
          && zoomExponent == old(zoomExponent) + 1
          && globalRenderNumber == old(globalRenderNumber) + 1
          && effects == old(effects) + RenderEffects(CanvasSize(), p, palette, zoomExponent)
          && Cursor() == PassEnd(CanvasSize(), Scan(0, 0, canvasWidthInPixels, p.width))
    {
      var cr := PlaneX(View(), canvasWidthInPixels, x);
      var ci := PlaneY(View(), canvasHeightInPixels, y);

      var newViewWidth := viewWidth / 2.0;
      var newViewHeight := viewHeight / 2.0;

      if newViewWidth <= 0.0 || newViewHeight <= 0.0 {
        // The floating-point precision limit has been reached.
        return;
      }

      var newViewLeft := cr - newViewWidth / 2.0;
      var newViewTop := ci + newViewHeight / 2.0;

      assert Rect(newViewLeft, newViewTop, newViewWidth, newViewHeight) == ZoomInProposal(View(), cr, ci);
      ghost var p := Clamp(Rect(newViewLeft, newViewTop, newViewWidth, newViewHeight));
      var changed := ConstrainView(newViewLeft, newViewTop, newViewWidth, newViewHeight, zoomExponent + 1);
      if changed {
        RenderView();
        assert View() == p;
      }
    }

    /** Zooms out by two about the centre of the view, and renders when the
        clamped view differs from the current one; the zoom exponent drops
        by one but never below zero. */
    method ZoomOut()
      requires Valid()
      modifies this
      ensures Valid()
      ensures var p := Clamp(ZoomOutProposal(old(View())));
        if p == old(View()) then
          unchanged(this)
        else
          && View() == p
          && zoomExponent == (if old(zoomExponent) == 0 then 0 else old(zoomExponent) - 1)
          && globalRenderNumber == old(globalRenderNumber) + 1
          && effects == old(effects) + RenderEffects(CanvasSize(), p, palette, zoomExponent)
          && Cursor() == PassEnd(CanvasSize(), Scan(0, 0, canvasWidthInPixels, p.width))
    {
      var cr := viewLeft + viewWidth / 2.0;
      var ci := viewTop - viewHeight / 2.0;

      var newViewWidth := viewWidth * 2.0;
      var newViewHeight := viewHeight * 2.0;
      var newViewLeft := cr - newViewWidth / 2.0;
      var newViewTop := ci + newViewHeight / 2.0;

      assert Rect(newViewLeft, newViewTop, newViewWidth, newViewHeight) == ZoomOutProposal(View());
      ghost var p := Clamp(Rect(newViewLeft, newViewTop, newViewWidth, newViewHeight));
      var changed := ConstrainView(newViewLeft, newViewTop, newViewWidth, newViewHeight, zoomExponent - 1);
      if changed {
        RenderView();
        assert View() == p;
      }
    }
  }

  /** One step against the rest of the pass: after the step's three fills,
      what is left of the pass is nothing when the step ends it, a redraw
      and a new batch when it ends a sweep or a batch, and otherwise the
      rest of the current batch. */
  lemma StepTrace(c: Canvas, v: Rect, palette: seq<Color>, s: Scan, renderNum: int,
                  before: seq<Event>, after: seq<Event>, target: seq<Event>)
    requires InRange(c, s) && 0 <= renderNum < MaxRendersPerCall && |palette| >= 1
    requires before + PassEvents(c, v, palette, s, renderNum) == target
    requires after == before + StepFills(c, v, palette, s)
    ensures Finished(c, s) ==> after == target
    ensures !Finished(c, s) && (SweepDone(c, s) || renderNum + 1 == MaxRendersPerCall) ==>
      after + [RedrawImage] + PassEvents(c, v, palette, Advance(c, s), 0) == target
    ensures !Finished(c, s) && !SweepDone(c, s) && renderNum + 1 < MaxRendersPerCall ==>
      after + PassEvents(c, v, palette, Advance(c, s), renderNum + 1) == target
  {
    var f := StepFills(c, v, palette, s);
    if Finished(c, s) {
      assert PassEvents(c, v, palette, s, renderNum) == f + [];
      assert after == before + f + [];
    } else if SweepDone(c, s) || renderNum + 1 == MaxRendersPerCall {
      var rest := [RedrawImage] + PassEvents(c, v, palette, Advance(c, s), 0);
      assert PassEvents(c, v, palette, s, renderNum) == f + rest;
      assert before + (f + rest) == after + rest;
    } else {
      var rest := PassEvents(c, v, palette, Advance(c, s), renderNum + 1);
      assert PassEvents(c, v, palette, s, renderNum) == f + rest;
      assert before + (f + rest) == after + rest;
    }
  }

  lemma AppendThree(t: seq<Event>, f: seq<Event>)
    requires |f| == 3
    ensures t + [f[0]] + [f[1]] + [f[2]] == t + f
  {
  }

  /** What one step does to the cursor: the pass ends where the final step
      leaves the cursor; any other step keeps the cursor on the canvas,
      leaves the end of the pass where it was, and uses up one step. */
  lemma StepMovesCursor(c: Canvas, s: Scan)
    requires InRange(c, s)
    ensures Finished(c, s) ==> PassEnd(c, s) == Advance(c, s) && StepsLeft(c, s) == 1
    ensures !Finished(c, s) ==>
      && InRange(c, Advance(c, s))
      && PassEnd(c, s) == PassEnd(c, Advance(c, s))
      && StepsLeft(c, s) == 1 + StepsLeft(c, Advance(c, s))
  {
    if !Finished(c, s) {
      AdvanceStaysInRange(c, s);
    }
  }
}
