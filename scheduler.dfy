/** The progressive quadrant scheduler as specification functions: the
    effects one render pass has on the bitmap and the window, step by step,
    and the properties of that sequence of effects. */
module Scheduler {
  import opened Palette
  import opened Escape
  import opened Viewport

  /** One call the engine makes on a collaborator it cannot see: a fill of
      its bitmap (the arguments are recorded, the library's pixel semantics
      are not modelled) or a callback on its window. */
  datatype Event =
    | FillRectangle(x1: int, y1: int, x2: int, y2: int, color: Color)
    | RedrawImage
    | SetZoomMessage(zoomExponent: int)

  /** Canvas size in pixels. */
  datatype Canvas = Canvas(width: int, height: int)

  /** The scheduler's cursor: the top-left pixel of the current block, the
      block width in pixels and the block width in plane units. */
  datatype Scan = Scan(left: int, top: int, blockWidth: int, planeWidth: real)

  /** Scheduler steps between two RedrawImage calls at most. */
  const MaxRendersPerCall: int := 1000

  /** The cursor lies on the canvas and the block is at least a pixel wide. */
  predicate InRange(c: Canvas, s: Scan)
  {
    1 <= s.blockWidth && 0 <= s.left < c.width && 0 <= s.top < c.height
  }

  /** The cursor lies on the grid of the current block width. */
  predicate OnGrid(s: Scan)
    requires s.blockWidth >= 1
  {
    s.left % s.blockWidth == 0 && s.top % s.blockWidth == 0
  }

  /** The fill calculateAndFillSquare makes: the square at (left, top) in
      the palette colour of the escape index of (cr, ci). */
  function SquareFill(palette: seq<Color>, cr: real, ci: real, left: int, top: int, width: int): (fill: Event)
    requires |palette| >= 1
  {
    FillRectangle(left, top, left + width, top + width - 1, palette[EscapeIndex(cr, ci, |palette| - 1)])
  }

  /** With the engine's palette, a fill is black exactly when its sample
      point never escaped within the iteration cap, and a sample point
      outside the radius-2 disc gets the first palette colour. */
  lemma SquareFillColor(palette: seq<Color>, cr: real, ci: real, left: int, top: int, width: int)
    requires IsEnginePalette(palette)
    ensures SquareFill(palette, cr, ci, left, top, width).color == Black
        <==> NeverEscapes(cr, ci, PaletteSize - 1)
    ensures cr * cr + ci * ci >= 4.0 ==> SquareFill(palette, cr, ci, left, top, width).color == PaletteColor(0)
  {
    var e := EscapeIndex(cr, ci, |palette| - 1);
    CapMeansNeverEscaped(cr, ci, |palette| - 1);
    PaletteColorsDistinct(e, e);
    if cr * cr + ci * ci >= 4.0 {
      EscapeIndexOutsideDisc(cr, ci, |palette| - 1);
    }
  }

  /** With the engine's palette, the square sampled at the origin is drawn
      black: the origin lies in the Mandelbrot set. */
  lemma OriginFillIsBlack(palette: seq<Color>, left: int, top: int, width: int)
    requires IsEnginePalette(palette)
    ensures SquareFill(palette, 0.0, 0.0, left, top, width).color == Black
  {
    OriginReachesCap(|palette| - 1);
  }

  /** The three fills of one scheduler step: the top-right, bottom-left and
      bottom-right quadrants of the current block, sampled half a plane
      block to the right of and/or below the block's own sample point. */
  function StepFills(c: Canvas, v: Rect, palette: seq<Color>, s: Scan): (fills: seq<Event>)
    requires c.width != 0 && c.height != 0 && |palette| >= 1
  {
    var cr := PlaneX(v, c.width, s.left);
    var ci := PlaneY(v, c.height, s.top);
    var half := s.blockWidth / 2;
    var nextWidth := s.planeWidth / 2.0;
    [ SquareFill(palette, cr + nextWidth, ci, s.left + half, s.top, half),
      SquareFill(palette, cr, ci - nextWidth, s.left, s.top + half, half),
      SquareFill(palette, cr + nextWidth, ci - nextWidth, s.left + half, s.top + half, half) ]
  }

  /** A fill of the square of side half whose top-left pixel is (x, y). */
  predicate FillsSquareAt(e: Event, x: int, y: int, half: int)
  {
    e.FillRectangle? && e.x1 == x && e.y1 == y && e.x2 == x + half && e.y2 == y + half - 1
  }

  /** Every step fills exactly three squares half the block wide: the
      top-right, bottom-left and bottom-right quadrants. None of them starts
      in the top-left quadrant, which keeps the colour of the coarser fill. */
  lemma StepFillsThreeQuadrants(c: Canvas, v: Rect, palette: seq<Color>, s: Scan)
    requires c.width != 0 && c.height != 0 && |palette| >= 1
    ensures var fills := StepFills(c, v, palette, s);
      var half := s.blockWidth / 2;
      && |fills| == 3
      && FillsSquareAt(fills[0], s.left + half, s.top, half)
      && FillsSquareAt(fills[1], s.left, s.top + half, half)
      && FillsSquareAt(fills[2], s.left + half, s.top + half, half)
  {
  }

  /** Where the canvas scale is the same on both axes and the block's plane
      width matches its pixel width, each quadrant is coloured from the
      plane point under its own top-left pixel, just as the block itself
      was; so the untouched top-left quadrant is already correct. */
  lemma StepSamplesQuadrantCorners(c: Canvas, v: Rect, palette: seq<Color>, s: Scan)
    requires c.width > 0 && c.height > 0 && |palette| >= 1
    requires s.blockWidth % 2 == 0
    requires v.width * c.height as real == v.height * c.width as real
    requires s.planeWidth * c.width as real == s.blockWidth as real * v.width
    ensures var half := s.blockWidth / 2;
      StepFills(c, v, palette, s) ==
      [ SquareFill(palette, PlaneX(v, c.width, s.left + half), PlaneY(v, c.height, s.top), s.left + half, s.top, half),
        SquareFill(palette, PlaneX(v, c.width, s.left), PlaneY(v, c.height, s.top + half), s.left, s.top + half, half),
        SquareFill(palette, PlaneX(v, c.width, s.left + half), PlaneY(v, c.height, s.top + half), s.left + half, s.top + half, half) ]
  {
    var w := c.width as real;
    var h := c.height as real;
    var half := s.blockWidth / 2;
    var nextWidth := s.planeWidth / 2.0;
    assert half as real * 2.0 == s.blockWidth as real;
    calc {
      half as real * v.width / w;
      (s.blockWidth as real * v.width / w) / 2.0;
      { assert s.blockWidth as real * v.width / w == s.planeWidth; }
      nextWidth;
    }
    calc {
      half as real * v.height / h;
      (s.blockWidth as real * v.width / w) / 2.0;
      nextWidth;
    }
    assert PlaneX(v, c.width, s.left + half) == PlaneX(v, c.width, s.left) + nextWidth;
    assert PlaneY(v, c.height, s.top + half) == PlaneY(v, c.height, s.top) - nextWidth;
  }

  /** The current row is finished and so is the last row: the sweep ends. */
  predicate SweepDone(c: Canvas, s: Scan)
  {
    s.left + s.blockWidth >= c.width && s.top + s.blockWidth >= c.height
  }

  /** The step that ends the pass: its sweep ends and the halved block
      width is at most one pixel. */
  predicate Finished(c: Canvas, s: Scan)
  {
    SweepDone(c, s) && s.blockWidth / 2 <= 1
  }

  /** The cursor after one step: right by a block, else down to the start of
      the next row, else back to the top-left corner with both widths halved. */
  function Advance(c: Canvas, s: Scan): (r: Scan)
    requires s.blockWidth >= 1
    ensures !SweepDone(c, s) ==> r.blockWidth == s.blockWidth && r.planeWidth == s.planeWidth
    ensures !SweepDone(c, s) ==> r.top > s.top || (r.top == s.top && r.left > s.left)
    ensures SweepDone(c, s) ==> r == Scan(0, 0, s.blockWidth / 2, s.planeWidth / 2.0)
  {
    if s.left + s.blockWidth < c.width then s.(left := s.left + s.blockWidth)
    else if s.top + s.blockWidth < c.height then s.(left := 0, top := s.top + s.blockWidth)
    else Scan(0, 0, s.blockWidth / 2, s.planeWidth / 2.0)
  }

  lemma MulAtLeast(k: int, b: int)
    requires b >= 1 && k >= 1
    ensures b * k >= b
  {
  }

  /** Adding the divisor keeps a multiple a multiple. */
  lemma ModAddDivisor(x: int, b: int)
    requires b >= 1 && x % b == 0
    ensures (x + b) % b == 0
  {
    var q := x / b;
    var q' := (x + b) / b;
    assert b * (q + 1 - q') == (x + b) % b;
    if q + 1 - q' >= 1 {
      MulAtLeast(q + 1 - q', b);
    } else if q' - q - 1 >= 1 {
      MulAtLeast(q' - q - 1, b);
    }
  }

  /** The scan invariant: every step that does not end the pass leaves the
      cursor on the canvas and on the grid of the (possibly halved) block
      width. */
  lemma AdvanceKeepsScanInvariant(c: Canvas, s: Scan)
    requires InRange(c, s) && OnGrid(s) && !Finished(c, s)
    ensures InRange(c, Advance(c, s)) && OnGrid(Advance(c, s))
  {
    if s.left + s.blockWidth < c.width {
      ModAddDivisor(s.left, s.blockWidth);
    } else if s.top + s.blockWidth < c.height {
      ModAddDivisor(s.top, s.blockWidth);
    }
  }

  /** Every step that does not end the pass leaves the cursor on the canvas. */
  lemma AdvanceStaysInRange(c: Canvas, s: Scan)
    requires InRange(c, s) && !Finished(c, s)
    ensures InRange(c, Advance(c, s))
  {
  }

  /** Halving keeps the plane width of a block equal to its pixel width under
      the view scale, provided the block width is even. */
  lemma AdvanceKeepsScale(c: Canvas, v: Rect, s: Scan)
    requires s.blockWidth >= 1 && s.blockWidth % 2 == 0
    requires s.planeWidth * c.width as real == s.blockWidth as real * v.width
    ensures Advance(c, s).planeWidth * c.width as real == Advance(c, s).blockWidth as real * v.width
  {
    if SweepDone(c, s) {
      assert (s.blockWidth / 2) as real * 2.0 == s.blockWidth as real;
    }
  }

  /** The number of steps left in the pass, the final one included. */
  function StepsLeft(c: Canvas, s: Scan): (n: nat)
    requires InRange(c, s)
    decreases s.blockWidth, c.height - s.top, c.width - s.left
  {
    if Finished(c, s) then 1 else 1 + StepsLeft(c, Advance(c, s))
  }

  /** Everything the pass does from cursor s on, with renderNum steps already
      taken in the current batch: the three fills of the step at s, then
      what follows them. */
  function PassEvents(c: Canvas, v: Rect, palette: seq<Color>, s: Scan, renderNum: int): (events: seq<Event>)
    requires InRange(c, s) && 0 <= renderNum < MaxRendersPerCall && |palette| >= 1
    decreases s.blockWidth, c.height - s.top, c.width - s.left, 1
  {
    StepFills(c, v, palette, s) + PassAfterStep(c, v, palette, s, renderNum)
  }

  /** What the pass does after the fills of the step at s: nothing when that
      step ends the pass; a RedrawImage and a new batch when it ends a sweep
      or fills a batch of MaxRendersPerCall steps; otherwise the rest of the
      current batch. */
  function PassAfterStep(c: Canvas, v: Rect, palette: seq<Color>, s: Scan, renderNum: int): (events: seq<Event>)
    requires InRange(c, s) && 0 <= renderNum < MaxRendersPerCall && |palette| >= 1
    decreases s.blockWidth, c.height - s.top, c.width - s.left, 0
  {
    if Finished(c, s) then []
    else if SweepDone(c, s) || renderNum + 1 == MaxRendersPerCall then
      [RedrawImage] + PassEvents(c, v, palette, Advance(c, s), 0)
    else
      PassEvents(c, v, palette, Advance(c, s), renderNum + 1)
  }

  /** The cursor the pass stops with. */
  function PassEnd(c: Canvas, s: Scan): (last: Scan)
    requires InRange(c, s)
    decreases s.blockWidth, c.height - s.top, c.width - s.left
  {
    if Finished(c, s) then Advance(c, s) else PassEnd(c, Advance(c, s))
  }

  /** The pass stops with the cursor at the top-left corner and a block width
      of at most one pixel: one pixel whenever it started at two or more. */
  lemma {:induction false} PassEndIsFinestLevel(c: Canvas, s: Scan)
    requires InRange(c, s)
    ensures PassEnd(c, s).left == 0 && PassEnd(c, s).top == 0
    ensures 0 <= PassEnd(c, s).blockWidth <= 1
    ensures s.blockWidth >= 2 ==> PassEnd(c, s).blockWidth == 1
    decreases s.blockWidth, c.height - s.top, c.width - s.left
  {
    if !Finished(c, s) {
      PassEndIsFinestLevel(c, Advance(c, s));
    }
  }

  /** The number of events before the first RedrawImage, or all of them. */
  function EventsBeforeRedraw(t: seq<Event>): (n: nat)
    ensures n <= |t|
    ensures n < |t| ==> t[n].RedrawImage?
    ensures forall i :: 0 <= i < n ==> !t[i].RedrawImage?
  {
    if t == [] || t[0].RedrawImage? then 0 else 1 + EventsBeforeRedraw(t[1..])
  }

  /** At most cap events come between any RedrawImage and the next one (or the end). */
  ghost predicate RedrawBatchesAtMost(t: seq<Event>, cap: int)
  {
    forall i :: 0 <= i < |t| && t[i].RedrawImage? ==> EventsBeforeRedraw(t[i + 1..]) <= cap
  }

  /** At most cap events come before the first RedrawImage, and at most cap
      between any RedrawImage and the next one (or the end). */
  ghost predicate Batched(t: seq<Event>, cap: int)
  {
    EventsBeforeRedraw(t) <= cap && RedrawBatchesAtMost(t, cap)
  }

  lemma {:induction false} EventsBeforeRedrawAfterFills(f: seq<Event>, rest: seq<Event>)
    requires forall i :: 0 <= i < |f| ==> f[i].FillRectangle?
    ensures EventsBeforeRedraw(f + rest) == |f| + EventsBeforeRedraw(rest)
  {
    if f == [] {
      assert f + rest == rest;
    } else {
      var t := f + rest;
      assert t[0] == f[0] && !t[0].RedrawImage?;
      assert t[1..] == f[1..] + rest;
      assert forall i :: 0 <= i < |f[1..]| ==> f[1..][i] == f[i + 1];
      EventsBeforeRedrawAfterFills(f[1..], rest);
      assert EventsBeforeRedraw(t) == 1 + EventsBeforeRedraw(t[1..]);
    }
  }

  lemma RedrawBatchesAfterFills(f: seq<Event>, rest: seq<Event>, cap: int)
    requires forall i :: 0 <= i < |f| ==> f[i].FillRectangle?
    requires RedrawBatchesAtMost(rest, cap)
    ensures RedrawBatchesAtMost(f + rest, cap)
  {
    var t := f + rest;
    forall i | 0 <= i < |t| && t[i].RedrawImage? ensures EventsBeforeRedraw(t[i + 1..]) <= cap {
      assert i >= |f|;
      assert t[i] == rest[i - |f|];
      assert t[i + 1..] == rest[i - |f| + 1..];
    }
  }

  lemma RedrawBatchesAfterRedraw(rest: seq<Event>, cap: int)
    requires Batched(rest, cap)
    ensures RedrawBatchesAtMost([RedrawImage] + rest, cap)
  {
    var t := [RedrawImage] + rest;
    forall i | 0 <= i < |t| && t[i].RedrawImage? ensures EventsBeforeRedraw(t[i + 1..]) <= cap {
      if i == 0 {
        assert t[1..] == rest;
      } else {
        assert t[i] == rest[i - 1];
        assert t[i + 1..] == rest[i - 1 + 1..];
      }
    }
  }

  lemma BatchedAfterStep(f: seq<Event>, rest: seq<Event>, room: int, cap: int)
    requires forall i :: 0 <= i < |f| ==> f[i].FillRectangle?
    requires EventsBeforeRedraw(rest) <= room && RedrawBatchesAtMost(rest, cap)
    requires |f| + room <= cap
    ensures EventsBeforeRedraw(f + rest) <= |f| + room
    ensures Batched(f + rest, cap)
  {
    EventsBeforeRedrawAfterFills(f, rest);
    RedrawBatchesAfterFills(f, rest, cap);
  }

  /** The batching of renderLoop: the window is asked to redraw at least
      once every MaxRendersPerCall steps (three fills each). */
  lemma {:induction false} PassIsBatched(c: Canvas, v: Rect, palette: seq<Color>, s: Scan, renderNum: int)
    requires InRange(c, s) && 0 <= renderNum < MaxRendersPerCall && |palette| >= 1
    ensures EventsBeforeRedraw(PassEvents(c, v, palette, s, renderNum)) <= 3 * (MaxRendersPerCall - renderNum)
    ensures Batched(PassEvents(c, v, palette, s, renderNum), 3 * MaxRendersPerCall)
    decreases s.blockWidth, c.height - s.top, c.width - s.left, 1
  {
    if Finished(c, s) {
      PassFinishedBatched(c, v, palette, s, renderNum);
    } else if SweepDone(c, s) || renderNum + 1 == MaxRendersPerCall {
      PassRedrawBatched(c, v, palette, s, renderNum);
    } else {
      PassContinueBatched(c, v, palette, s, renderNum);
    }
  }

  /** The last step of PassIsBatched: its three fills end the pass. */
  lemma PassFinishedBatched(c: Canvas, v: Rect, palette: seq<Color>, s: Scan, renderNum: int)
    requires InRange(c, s) && 0 <= renderNum < MaxRendersPerCall && |palette| >= 1
    requires Finished(c, s)
    ensures EventsBeforeRedraw(PassEvents(c, v, palette, s, renderNum)) <= 3 * (MaxRendersPerCall - renderNum)
    ensures Batched(PassEvents(c, v, palette, s, renderNum), 3 * MaxRendersPerCall)
  {
    var f := StepFills(c, v, palette, s);
    assert |f| == 3 && f[0].FillRectangle? && f[1].FillRectangle? && f[2].FillRectangle?;
    assert PassAfterStep(c, v, palette, s, renderNum) == [];
    assert PassEvents(c, v, palette, s, renderNum) == f + [];
    BatchedAfterStep(f, [], 3 * (MaxRendersPerCall - renderNum - 1), 3 * MaxRendersPerCall);
  }

  /** A step of PassIsBatched that ends a sweep or a batch: the step's three
      fills close the current batch and the redraw starts a new one. */
  lemma {:induction false} PassRedrawBatched(c: Canvas, v: Rect, palette: seq<Color>, s: Scan, renderNum: int)
    requires InRange(c, s) && 0 <= renderNum < MaxRendersPerCall && |palette| >= 1
    requires !Finished(c, s) && (SweepDone(c, s) || renderNum + 1 == MaxRendersPerCall)
    ensures EventsBeforeRedraw(PassEvents(c, v, palette, s, renderNum)) <= 3 * (MaxRendersPerCall - renderNum)
    ensures Batched(PassEvents(c, v, palette, s, renderNum), 3 * MaxRendersPerCall)
    decreases s.blockWidth, c.height - s.top, c.width - s.left, 0
  {
    AdvanceStaysInRange(c, s);
    PassIsBatched(c, v, palette, Advance(c, s), 0);
    var f := StepFills(c, v, palette, s);
    assert |f| == 3 && f[0].FillRectangle? && f[1].FillRectangle? && f[2].FillRectangle?;
    var next := PassEvents(c, v, palette, Advance(c, s), 0);
    var rest := [RedrawImage] + next;
    assert PassAfterStep(c, v, palette, s, renderNum) == rest;
    assert rest[0].RedrawImage?;
    RedrawBatchesAfterRedraw(next, 3 * MaxRendersPerCall);
    BatchedAfterStep(f, rest, 3 * (MaxRendersPerCall - renderNum - 1), 3 * MaxRendersPerCall);
  }

  /** One step of PassIsBatched that neither ends a sweep nor a batch: the
      step's three fills join the batch that follows them. */
  lemma {:induction false} PassContinueBatched(c: Canvas, v: Rect, palette: seq<Color>, s: Scan, renderNum: int)
    requires InRange(c, s) && 0 <= renderNum < MaxRendersPerCall && |palette| >= 1
    requires !Finished(c, s) && !SweepDone(c, s) && renderNum + 1 < MaxRendersPerCall
    ensures EventsBeforeRedraw(PassEvents(c, v, palette, s, renderNum)) <= 3 * (MaxRendersPerCall - renderNum)
    ensures Batched(PassEvents(c, v, palette, s, renderNum), 3 * MaxRendersPerCall)
    decreases s.blockWidth, c.height - s.top, c.width - s.left, 0
  {
    AdvanceStaysInRange(c, s);
    PassIsBatched(c, v, palette, Advance(c, s), renderNum + 1);
    var f := StepFills(c, v, palette, s);
    assert |f| == 3 && f[0].FillRectangle? && f[1].FillRectangle? && f[2].FillRectangle?;
    var rest := PassEvents(c, v, palette, Advance(c, s), renderNum + 1);
    assert PassAfterStep(c, v, palette, s, renderNum) == rest;
    BatchedAfterStep(f, rest, 3 * (MaxRendersPerCall - renderNum - 1), 3 * MaxRendersPerCall);
  }

  /** A pass only fills and redraws; it never reports the zoom level. */
  lemma {:induction false} PassOnlyFillsAndRedraws(c: Canvas, v: Rect, palette: seq<Color>, s: Scan, renderNum: int)
    requires InRange(c, s) && 0 <= renderNum < MaxRendersPerCall && |palette| >= 1
    ensures forall i :: 0 <= i < |PassEvents(c, v, palette, s, renderNum)| ==>
              !PassEvents(c, v, palette, s, renderNum)[i].SetZoomMessage?
    decreases s.blockWidth, c.height - s.top, c.width - s.left
  {
    var t := PassEvents(c, v, palette, s, renderNum);
    var f := StepFills(c, v, palette, s);
    var rest := PassAfterStep(c, v, palette, s, renderNum);
    assert |f| == 3 && !f[0].SetZoomMessage? && !f[1].SetZoomMessage? && !f[2].SetZoomMessage?;
    if !Finished(c, s) {
      if SweepDone(c, s) || renderNum + 1 == MaxRendersPerCall {
        var next := PassEvents(c, v, palette, Advance(c, s), 0);
        PassOnlyFillsAndRedraws(c, v, palette, Advance(c, s), 0);
        assert rest == [RedrawImage] + next;
        forall j | 1 <= j < |rest| ensures !rest[j].SetZoomMessage? {
          assert rest[j] == next[j - 1];
        }
      } else {
        PassOnlyFillsAndRedraws(c, v, palette, Advance(c, s), renderNum + 1);
        assert rest == PassEvents(c, v, palette, Advance(c, s), renderNum + 1);
      }
    } else {
      assert rest == [];
    }
    forall i | 0 <= i < |t| ensures !t[i].SetZoomMessage? {
      if i >= 3 {
        assert t[i] == rest[i - 3];
      }
    }
  }

  /** The last sweep is not followed by a RedrawImage: a pass ends on the
      final step's fills. */
  lemma {:induction false} PassEndsWithFill(c: Canvas, v: Rect, palette: seq<Color>, s: Scan, renderNum: int)
    requires InRange(c, s) && 0 <= renderNum < MaxRendersPerCall && |palette| >= 1
    ensures |PassEvents(c, v, palette, s, renderNum)| >= 3
    ensures PassEvents(c, v, palette, s, renderNum)[|PassEvents(c, v, palette, s, renderNum)| - 1].FillRectangle?
    decreases s.blockWidth, c.height - s.top, c.width - s.left
  {
    if !Finished(c, s) {
      if SweepDone(c, s) || renderNum + 1 == MaxRendersPerCall {
        PassEndsWithFill(c, v, palette, Advance(c, s), 0);
      } else {
        PassEndsWithFill(c, v, palette, Advance(c, s), renderNum + 1);
      }
    }
  }

  /** Everything renderView does to the bitmap and the window: fill the
      whole canvas with the colour of the view's top-left point, report the
      zoom level, then run the pass from the full canvas width. */
  function RenderEffects(c: Canvas, v: Rect, palette: seq<Color>, zoomExponent: int): (events: seq<Event>)
    requires c.width >= 1 && c.height >= 1 && |palette| >= 1
  {
    [SquareFill(palette, v.left, v.top, 0, 0, c.width), SetZoomMessage(zoomExponent)]
      + PassEvents(c, v, palette, Scan(0, 0, c.width, v.width), 0)
  }

  /** A render reports its zoom level once, as its second effect, after the
      coarsest whole-canvas fill. */
  lemma RenderReportsZoomOnce(c: Canvas, v: Rect, palette: seq<Color>, zoomExponent: int)
    requires c.width >= 1 && c.height >= 1 && |palette| >= 1
    ensures var r := RenderEffects(c, v, palette, zoomExponent);
      && r[0] == SquareFill(palette, v.left, v.top, 0, 0, c.width)
      && r[1] == SetZoomMessage(zoomExponent)
      && forall i :: 0 <= i < |r| && i != 1 ==> !r[i].SetZoomMessage?
  {
    var r := RenderEffects(c, v, palette, zoomExponent);
    var pass := PassEvents(c, v, palette, Scan(0, 0, c.width, v.width), 0);
    PassOnlyFillsAndRedraws(c, v, palette, Scan(0, 0, c.width, v.width), 0);
    forall i | 2 <= i < |r| ensures !r[i].SetZoomMessage? {
      assert r[i] == pass[i - 2];
    }
  }
}
