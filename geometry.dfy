/**
 * Viewport geometry of the fundus-image canvas (Canvas.js): where each layer
 * is placed on screen for a given zoom level and pan offset, the brush's
 * screen-to-image inverse, the fit-to-page scale and the zoom-button factor.
 * All arithmetic is over `real`, where the source's transforms are exact.
 */
module Geometry {

  /** A positive pixel count. */
  type Pos = n: int | n > 0 witness 1

  /** The width and height, in pixels, of an image, a canvas or an off-screen surface. */
  datatype Dims = Dims(width: Pos, height: Pos)
  {
    function W(): real { width as real }
    function H(): real { height as real }
  }

  /** A point or a displacement in the plane. */
  datatype Point = Point(x: real, y: real)

  /**
   * Client coordinates of the visible canvas's top-left corner, hard-coded in
   * the brush tool (a one-pixel border and the toolbar above the canvas).
   */
  const CanvasLeft: real := 1.0
  const CanvasTop: real := 26.0

  /**
   * The origin, in zoomed image units, at which `draw` places the base and
   * annotation layers after `ctx.scale(zoom, zoom)`. It is chosen so that the
   * image centre lands at the screen point canvas/2 + zoom * offset.
   */
  function DrawOrigin(canvas: Dims, zoom: real, offset: Point, base: Dims): (o: Point)
    requires zoom > 0.0
    ensures zoom * (o.x + base.W() / 2.0) == canvas.W() / 2.0 + zoom * offset.x
    ensures zoom * (o.y + base.H() / 2.0) == canvas.H() / 2.0 + zoom * offset.y
  {
    var w := canvas.W() / zoom / 2.0;
    var h := canvas.H() / zoom / 2.0;
    Point(w + offset.x - base.W() / 2.0, h + offset.y - base.H() / 2.0)
  }

  /**
   * Screen position (canvas pixels) of the base-image pixel `p` in the frame
   * `draw` paints: scale by `zoom`, then translate by the draw origin.
   */
  function ImageToScreen(canvas: Dims, zoom: real, offset: Point, base: Dims, p: Point): (r: Point)
    requires zoom > 0.0
    ensures r.x == canvas.W() / 2.0 + zoom * (p.x - (base.W() / 2.0 - offset.x))
    ensures r.y == canvas.H() / 2.0 + zoom * (p.y - (base.H() / 2.0 - offset.y))
  {
    var o := DrawOrigin(canvas, zoom, offset, base);
    Point(zoom * (o.x + p.x), zoom * (o.y + p.y))
  }

  /**
   * The image point shown at the canvas centre depends only on the offset,
   * not on the zoom level: zooming keeps it in place.
   */
  lemma CentreIsFixed(canvas: Dims, zoom: real, offset: Point, base: Dims)
    requires zoom > 0.0
    ensures ImageToScreen(canvas, zoom, offset, base, Point(base.W() / 2.0 - offset.x, base.H() / 2.0 - offset.y))
            == Point(canvas.W() / 2.0, canvas.H() / 2.0)
  {
    var o := DrawOrigin(canvas, zoom, offset, base);
    assert zoom * (o.x + (base.W() / 2.0 - offset.x)) == zoom * (o.x + base.W() / 2.0) - zoom * offset.x;
    assert zoom * (o.y + (base.H() / 2.0 - offset.y)) == zoom * (o.y + base.H() / 2.0) - zoom * offset.y;
  }

  /**
   * The segmentation layer's secondary scale: the ratio of the base image's
   * resolution to the segmentation image's, per axis.
   */
  function SegScale(base: Dims, seg: Dims): (r: Point)
    ensures r.x > 0.0 && r.y > 0.0
    ensures r.x * seg.W() == base.W() && r.y * seg.H() == base.H()
  {
    Point(base.W() / seg.W(), base.H() / seg.H())
  }

  /**
   * The origin, in segmentation units, at which `draw` places the
   * segmentation layer after the extra `ctx.scale(ssx, ssy)`. Scaled back by
   * the segmentation scale it is exactly the base layer's origin.
   */
  function SegOrigin(canvas: Dims, zoom: real, offset: Point, base: Dims, seg: Dims): (o: Point)
    requires zoom > 0.0
    ensures var ss := SegScale(base, seg);
            ss.x * o.x == DrawOrigin(canvas, zoom, offset, base).x &&
            ss.y * o.y == DrawOrigin(canvas, zoom, offset, base).y
  {
    var ss := SegScale(base, seg);
    var sx := canvas.W() / ss.x / zoom / 2.0 + offset.x / ss.x - seg.W() / 2.0;
    var sy := canvas.H() / ss.y / zoom / 2.0 + offset.y / ss.y - seg.H() / 2.0;
    SegIdentity(canvas.W(), zoom, offset.x, base.W(), seg.W(), ss.x);
    SegIdentity(canvas.H(), zoom, offset.y, base.H(), seg.H(), ss.y);
    Point(sx, sy)
  }

  /** One axis of the segmentation-origin identity. */
  lemma SegIdentity(c: real, zoom: real, off: real, b: real, d: real, ss: real)
    requires zoom > 0.0 && d > 0.0 && ss > 0.0 && ss * d == b
    ensures ss * (c / ss / zoom / 2.0 + off / ss - d / 2.0) == c / zoom / 2.0 + off - b / 2.0
  {
    calc {
      ss * (c / ss / zoom / 2.0 + off / ss - d / 2.0);
      ss * (c / ss / zoom / 2.0) + ss * (off / ss) - ss * d / 2.0;
      { assert ss * (c / ss / zoom / 2.0) == c / zoom / 2.0; assert ss * (off / ss) == off; }
      c / zoom / 2.0 + off - b / 2.0;
    }
  }

  /**
   * The brush tool's conversion of a client-space pointer position to base
   * image coordinates. `css` is the canvas element's laid-out (CSS) size,
   * which the source reads with jQuery's width()/height(). The result is the
   * image pixel that the draw map, computed for a canvas of that size, shows
   * under the pointer, offset by the fixed canvas corner; when the CSS size
   * equals the pixel size this is the pixel `draw` shows there.
   */
  function BrushPoint(client: Point, css: Dims, zoom: real, offset: Point, base: Dims): (r: Point)
    requires zoom > 0.0
    ensures ImageToScreen(css, zoom, offset, base, r) == Point(client.x - CanvasLeft, client.y - CanvasTop)
  {
    var o := DrawOrigin(css, zoom, offset, base);
    AxisInverse(client.x - CanvasLeft, css.W(), zoom, offset.x, base.W(), o.x);
    AxisInverse(client.y - CanvasTop, css.H(), zoom, offset.y, base.H(), o.y);
    Point((client.x - (css.W() / 2.0 - zoom * (base.W() / 2.0 - offset.x)) - CanvasLeft) / zoom,
          (client.y - (css.H() / 2.0 - zoom * (base.H() / 2.0 - offset.y)) - CanvasTop) / zoom)
  }

  /** Conversely, the brush recovers every image pixel from the screen point `draw` shows it at. */
  lemma DrawInvertsBrush(p: Point, canvas: Dims, zoom: real, offset: Point, base: Dims)
    requires zoom > 0.0
    ensures var q := ImageToScreen(canvas, zoom, offset, base, p);
            BrushPoint(Point(q.x + CanvasLeft, q.y + CanvasTop), canvas, zoom, offset, base) == p
  {
    var q := ImageToScreen(canvas, zoom, offset, base, p);
    var o := DrawOrigin(canvas, zoom, offset, base);
    var b := BrushPoint(Point(q.x + CanvasLeft, q.y + CanvasTop), canvas, zoom, offset, base);
    AxisInverse(q.x, canvas.W(), zoom, offset.x, base.W(), o.x);
    AxisInverse(q.y, canvas.H(), zoom, offset.y, base.H(), o.y);
    assert zoom * b.x == zoom * p.x;
    assert zoom * b.y == zoom * p.y;
  }

  /** One axis of the draw map and the brush map: u is the brush's image coordinate of screen coordinate q. */
  lemma AxisInverse(q: real, c: real, zoom: real, off: real, b: real, o: real)
    requires zoom > 0.0
    requires zoom * (o + b / 2.0) == c / 2.0 + zoom * off
    ensures zoom * (o + (q - (c / 2.0 - zoom * (b / 2.0 - off))) / zoom) == q
  {
    var u := (q - (c / 2.0 - zoom * (b / 2.0 - off))) / zoom;
    assert zoom * u == q - (c / 2.0 - zoom * (b / 2.0 - off));
  }

  /**
   * The zoom level that `fitToPage` selects: the smaller of the two
   * canvas-to-image ratios (Math.min), so the whole image fits and touches
   * the canvas edges in at least one direction.
   */
  function FitScale(canvas: Dims, image: Dims): (s: real)
    ensures s > 0.0
    ensures s * image.W() <= canvas.W() && s * image.H() <= canvas.H()
    ensures s * image.W() == canvas.W() || s * image.H() == canvas.H()
  {
    var a := canvas.W() / image.W();
    var b := canvas.H() / image.H();
    assert a * image.W() == canvas.W() && b * image.H() == canvas.H();
    if a <= b then
      assert a * image.H() <= b * image.H();
      a
    else
      assert b * image.W() <= a * image.W();
      b
  }

  /** No larger zoom level keeps the whole image on the canvas. */
  lemma FitScaleIsLargest(canvas: Dims, image: Dims, t: real)
    requires t * image.W() <= canvas.W() && t * image.H() <= canvas.H()
    ensures t <= FitScale(canvas, image)
  {
    var s := FitScale(canvas, image);
    if s * image.W() == canvas.W() {
      assert t * image.W() <= s * image.W();
    } else {
      assert t * image.H() <= s * image.H();
    }
  }

  /**
   * After fitting (offset zero, zoom FitScale) the base image's corners are
   * shown inside the canvas, centred, and the image spans the full width or
   * the full height.
   */
  lemma FitInscribes(canvas: Dims, image: Dims)
    ensures var s := FitScale(canvas, image);
            var tl := ImageToScreen(canvas, s, Point(0.0, 0.0), image, Point(0.0, 0.0));
            var br := ImageToScreen(canvas, s, Point(0.0, 0.0), image, Point(image.W(), image.H()));
            && 0.0 <= tl.x && br.x <= canvas.W() && 0.0 <= tl.y && br.y <= canvas.H()
            && tl.x == canvas.W() - br.x && tl.y == canvas.H() - br.y
            && ((tl.x == 0.0 && br.x == canvas.W()) || (tl.y == 0.0 && br.y == canvas.H()))
  {
    var s := FitScale(canvas, image);
    var o := DrawOrigin(canvas, s, Point(0.0, 0.0), image);
    assert s * o.x == canvas.W() / 2.0 - s * image.W() / 2.0;
    assert s * o.y == canvas.H() / 2.0 - s * image.H() / 2.0;
    assert s * (o.x + image.W()) == s * o.x + s * image.W();
    assert s * (o.y + image.H()) == s * o.y + s * image.H();
  }

  /** The worked example: an 800x600 image in a 400x300 canvas fits at zoom 0.5. */
  lemma FitScaleExample()
    ensures FitScale(Dims(400, 300), Dims(800, 600)) == 0.5
  {
  }

  /**
   * The factor the zoom buttons pass to the image: |steps| for a positive
   * argument and 1/|steps| otherwise. The source divides by zero for
   * steps = 0, which has no real value.
   */
  function ZoomStepFactor(steps: real): (f: real)
    requires steps != 0.0
    ensures f > 0.0
    ensures steps > 0.0 ==> f == steps
    ensures steps < 0.0 ==> f * -steps == 1.0
  {
    var factor := if steps < 0.0 then -steps else steps;
    if steps > 0.0 then factor else 1.0 / factor
  }

  /** Zooming by n steps and then by -n steps multiplies the zoom by exactly 1. */
  lemma ZoomStepsInverse(n: real)
    requires n != 0.0
    ensures ZoomStepFactor(n) * ZoomStepFactor(-n) == 1.0
  {
    if n > 0.0 {
      assert ZoomStepFactor(-n) * n == 1.0;
    } else {
      assert ZoomStepFactor(n) * -n == 1.0;
    }
  }
}
