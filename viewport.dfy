/** The rectangle of the complex plane shown on the canvas, its clamping
    into the default view, and the zoom proposals, over the reals as an
    idealisation of double-precision arithmetic. */
module Viewport {

  /** A view rectangle: left edge, top edge (the largest imaginary part),
      width and height in plane units. */
  datatype Rect = Rect(left: real, top: real, width: real, height: real)

  const DefaultViewLeft: real := -2.25
  const DefaultViewTop: real := 1.5
  const DefaultViewWidth: real := 3.0
  const DefaultViewHeight: real := 3.0

  /** The framing the engine starts from, which holds the whole Mandelbrot set. */
  const DefaultView: Rect := Rect(DefaultViewLeft, DefaultViewTop, DefaultViewWidth, DefaultViewHeight)

  /** r is no larger than the default view and lies inside it. */
  predicate Contained(r: Rect)
  {
    && r.width <= DefaultViewWidth
    && r.height <= DefaultViewHeight
    && DefaultViewLeft <= r.left
    && r.left + r.width <= DefaultViewLeft + DefaultViewWidth
    && r.top <= DefaultViewTop
    && DefaultViewTop - DefaultViewHeight <= r.top - r.height
  }

  /** The clamps of constrainView, in the source's order: cap the size, then
      push the left edge in and pull it back from the right edge, then the
      same for the top and bottom edges. */
  function Clamp(r: Rect): (c: Rect)
    ensures Contained(c)
    ensures c.width == (if r.width > DefaultViewWidth then DefaultViewWidth else r.width)
    ensures c.height == (if r.height > DefaultViewHeight then DefaultViewHeight else r.height)
  {
    var width := if r.width > DefaultViewWidth then DefaultViewWidth else r.width;
    var height := if r.height > DefaultViewHeight then DefaultViewHeight else r.height;
    var left := if r.left < DefaultViewLeft then DefaultViewLeft else r.left;
    var left' := if left + width > DefaultViewLeft + DefaultViewWidth
                 then (DefaultViewLeft + DefaultViewWidth) - width else left;
    var top := if r.top > DefaultViewTop then DefaultViewTop else r.top;
    var top' := if top - height < DefaultViewTop - DefaultViewHeight
                then (DefaultViewTop - DefaultViewHeight) + height else top;
    Rect(left', top', width, height)
  }

  /** Clamping leaves exactly the contained rectangles alone. */
  lemma ClampFixesExactlyContained(r: Rect)
    ensures Clamp(r) == r <==> Contained(r)
  {
  }

  /** Clamping twice is clamping once: a second constrainView with the
      rectangle the first one committed reports no change. */
  lemma ClampIdempotent(r: Rect)
    ensures Clamp(Clamp(r)) == Clamp(r)
  {
    ClampFixesExactlyContained(Clamp(r));
  }

  /** A clamped rectangle keeps a positive size. */
  lemma ClampKeepsPositiveSize(r: Rect)
    requires r.width > 0.0 && r.height > 0.0
    ensures Clamp(r).width > 0.0 && Clamp(r).height > 0.0
  {
  }

  /** Real part of the plane point under canvas column x. */
  function PlaneX(v: Rect, canvasWidthInPixels: int, x: int): (cr: real)
    requires canvasWidthInPixels != 0
  {
    x as real * v.width / canvasWidthInPixels as real + v.left
  }

  /** Imaginary part of the plane point under canvas row y; rows grow
      downwards while the imaginary axis grows upwards. */
  function PlaneY(v: Rect, canvasHeightInPixels: int, y: int): (ci: real)
    requires canvasHeightInPixels != 0
  {
    v.top - y as real * v.height / canvasHeightInPixels as real
  }

  /** The canvas spans the view: its corners map onto the view's corners. */
  lemma CanvasSpansView(v: Rect, canvasWidthInPixels: int, canvasHeightInPixels: int)
    requires canvasWidthInPixels > 0 && canvasHeightInPixels > 0
    ensures PlaneX(v, canvasWidthInPixels, 0) == v.left
    ensures PlaneX(v, canvasWidthInPixels, canvasWidthInPixels) == v.left + v.width
    ensures PlaneY(v, canvasHeightInPixels, 0) == v.top
    ensures PlaneY(v, canvasHeightInPixels, canvasHeightInPixels) == v.top - v.height
  {
    var w := canvasWidthInPixels as real;
    var h := canvasHeightInPixels as real;
    assert w * v.width / w == v.width;
    assert h * v.height / h == v.height;
  }

  /** The plane point at the middle of a rectangle. */
  function Center(r: Rect): (centre: (real, real))
  {
    (r.left + r.width / 2.0, r.top - r.height / 2.0)
  }

  /** The rectangle onCanvasClick proposes: half the size, centred on the
      clicked plane point (cr, ci). */
  function ZoomInProposal(v: Rect, cr: real, ci: real): (p: Rect)
    ensures Center(p) == (cr, ci)
    ensures p.width * 2.0 == v.width && p.height * 2.0 == v.height
  {
    var newViewWidth := v.width / 2.0;
    var newViewHeight := v.height / 2.0;
    Rect(cr - newViewWidth / 2.0, ci + newViewHeight / 2.0, newViewWidth, newViewHeight)
  }

  /** The rectangle zoomOut proposes: twice the size, same centre. */
  function ZoomOutProposal(v: Rect): (p: Rect)
    ensures Center(p) == Center(v)
    ensures p.width == v.width * 2.0 && p.height == v.height * 2.0
  {
    var cr := v.left + v.width / 2.0;
    var ci := v.top - v.height / 2.0;
    var newViewWidth := v.width * 2.0;
    var newViewHeight := v.height * 2.0;
    Rect(cr - newViewWidth / 2.0, ci + newViewHeight / 2.0, newViewWidth, newViewHeight)
  }

  /** Half of an even pixel count, scaled by d / n, is half of d. */
  lemma HalfOfEvenScale(n: int, d: real)
    requires n > 0 && n % 2 == 0
    ensures (n / 2) as real * d / n as real == d / 2.0
  {
    var k := (n / 2) as real;
    assert n as real == 2.0 * k && k > 0.0;
    calc {
      k * d / n as real;
    ==
      k * d / (2.0 * k);
    ==
      (d / 2.0) * (2.0 * k) / (2.0 * k);
    ==
      d / 2.0;
    }
  }

  /** Clicking the centre pixel of a canvas with even sides picks the
      centre of the view. */
  lemma CentrePixelIsViewCentre(v: Rect, canvasWidthInPixels: int, canvasHeightInPixels: int)
    requires canvasWidthInPixels > 0 && canvasWidthInPixels % 2 == 0
    requires canvasHeightInPixels > 0 && canvasHeightInPixels % 2 == 0
    ensures (PlaneX(v, canvasWidthInPixels, canvasWidthInPixels / 2),
             PlaneY(v, canvasHeightInPixels, canvasHeightInPixels / 2)) == Center(v)
  {
    HalfOfEvenScale(canvasWidthInPixels, v.width);
    HalfOfEvenScale(canvasHeightInPixels, v.height);
    assert PlaneX(v, canvasWidthInPixels, canvasWidthInPixels / 2) == v.left + v.width / 2.0;
    assert PlaneY(v, canvasHeightInPixels, canvasHeightInPixels / 2) == v.top - v.height / 2.0;
  }

  /** Zooming in at the centre of a contained view of positive size and
      then zooming out gives back the same view: neither step is changed
      by the clamps, and both report a change. */
  lemma ZoomOutUndoesCentreZoomIn(v: Rect)
    requires Contained(v) && v.width > 0.0 && v.height > 0.0
    ensures var zoomedIn := Clamp(ZoomInProposal(v, Center(v).0, Center(v).1));
      && zoomedIn == ZoomInProposal(v, Center(v).0, Center(v).1)
      && zoomedIn != v
      && Clamp(ZoomOutProposal(zoomedIn)) == v
  {
    var p := ZoomInProposal(v, Center(v).0, Center(v).1);
    ClampFixesExactlyContained(p);
    assert ZoomOutProposal(p) == v;
    ClampFixesExactlyContained(v);
  }

  /** The default view is contained in itself, and a click at the centre of
      the 512 x 512 canvas showing it zooms to (-1.5, 0.75, 1.5, 1.5), whose
      centre is the centre of the default view. */
  lemma DefaultViewCentreClick()
    ensures Contained(DefaultView)
    ensures Clamp(ZoomInProposal(DefaultView, PlaneX(DefaultView, 512, 256), PlaneY(DefaultView, 512, 256)))
         == Rect(-1.5, 0.75, 1.5, 1.5)
    ensures Center(Rect(-1.5, 0.75, 1.5, 1.5)) == Center(DefaultView)
  {
    CentrePixelIsViewCentre(DefaultView, 512, 512);
    assert Center(DefaultView) == (-0.75, 0.0);
    var p := ZoomInProposal(DefaultView, -0.75, 0.0);
    assert p == Rect(-1.5, 0.75, 1.5, 1.5);
    ClampFixesExactlyContained(p);
  }
}
