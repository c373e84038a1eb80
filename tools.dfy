/**
 * The tool dispatcher: `Canvas._onMove` maps a pointer delta (mx, my),
 * under the active tool, to an effect on the image or the annotation layer.
 */
module Tools {
  import opened Options
  import opened Geometry
  import opened ImageModel

  /** The `CanvasTool` codes. */
  const Cursor: int := 0
  const Brush: int := 1
  const ZoomTool: int := 2
  const TextTool: int := 3
  const Range: int := 4

  /**
   * `tool ? tool : this._tool`: an explicitly requested tool wins unless it
   * is absent or falsy, and the cursor's code 0 is falsy.
   */
  function EffectiveTool(requested: Option<int>, active: int): (r: int)
    ensures requested.Some? && requested.value != Cursor ==> r == requested.value
    ensures requested.None? || requested.value == Cursor ==> r == active
  {
    if requested.Some? && requested.value != 0 then requested.value else active
  }

  /** Requesting the cursor tool explicitly runs the active tool instead. */
  lemma CursorRequestIsIgnored(active: int)
    ensures EffectiveTool(Some(Cursor), active) == active
  {
  }

  /** A brush stroke: a line segment on the annotation layer, in base-image pixels. */
  datatype Segment = Segment(from: Point, to: Point)

  /** What one `_onMove` call does. */
  datatype Effect =
    | NoEffect                              // the text tool (TextTool) and unknown codes
    | Update(st: ImageState, ev: ImageEvent)  // a setter on the image, and the event it fires
    | Stroke(seg: Segment)                  // a line appended to the annotation layer, then a redraw
    | Fault                                 // the brush with no base image reads a field of null

  /** Cursor tool: the image follows the pointer, so the offset moves against the delta, in image units. */
  function CursorMove(st: ImageState, mx: real, my: real): (r: ImageState)
    requires st.Valid()
    ensures r.Valid() && r == st.(offset := r.offset)
    ensures st.zoomLevel * (r.offset.x - st.offset.x) == -mx
    ensures st.zoomLevel * (r.offset.y - st.offset.y) == -my
  {
    var scale := st.zoomLevel;
    st.Moved(-(mx / scale), -(my / scale))
  }

  /** Brush tool: from the image point under the pointer to that point plus the delta in image units. */
  function BrushStroke(st: ImageState, b: Dims, mx: real, my: real, client: Point, css: Dims): (r: Segment)
    requires st.Valid()
    ensures r.from == BrushPoint(client, css, st.zoomLevel, st.offset, b)
    ensures st.zoomLevel * (r.to.x - r.from.x) == mx && st.zoomLevel * (r.to.y - r.from.y) == my
  {
    var s := st.zoomLevel;
    var p := BrushPoint(client, css, s, st.offset, b);
    Segment(p, Point(p.x + mx / s, p.y + my / s))
  }

  /**
   * One pointer move under tool `action`. `zoomFactor` stands for the zoom
   * tool's Math.pow(2, my / 300); `client` is the event's client position and
   * `css` the canvas element's laid-out size, both read by the brush only.
   */
  function ApplyTool(action: int, st: ImageState, mx: real, my: real, client: Point, css: Dims, zoomFactor: real): (e: Effect)
    requires st.Valid() && zoomFactor > 0.0
    ensures e.Fault? <==> action == Brush && st.base.None?
    ensures e.NoEffect? <==> action != Cursor && action != Brush && action != ZoomTool && action != Range
    ensures action == TextTool ==> e == NoEffect
    ensures e.Stroke? <==> action == Brush && st.base.Some?
    ensures e.Update? ==>
              && e.st.Valid() && e.st.base == st.base && e.st.seg == st.seg
              && e.st.showBase == st.showBase && e.st.showAnnotate == st.showAnnotate
              && e.st.showSegment == st.showSegment && e.st.grayscale == st.grayscale
  {
    if action == Cursor then
      Update(CursorMove(st, mx, my), PositionChanged)
    else if action == Brush then
      match st.base
      case None => Fault
      case Some(b) => Stroke(BrushStroke(st, b, mx, my, client, css))
    else if action == ZoomTool then
      assert st.zoomLevel * zoomFactor > 0.0;
      Update(st.Zoomed(zoomFactor), ZoomChanged)
    else if action == Range then
      Update(st.WithWindowLevel(mx / 500.0 + st.window, my / 500.0 + st.level), DataChanged)
    else
      NoEffect
  }

  /**
   * Cursor tool: after a move by (mx, my) every image pixel is shown
   * (mx, my) screen pixels further towards the origin, i.e. the image is
   * dragged along with the pointer (the delta is previous minus current).
   */
  lemma CursorDragFollowsPointer(st: ImageState, b: Dims, canvas: Dims, mx: real, my: real,
                                 client: Point, css: Dims, zoomFactor: real, p: Point)
    requires st.Valid() && zoomFactor > 0.0
    ensures var e := ApplyTool(Cursor, st, mx, my, client, css, zoomFactor);
            e.Update? && e.ev == PositionChanged && e.st.zoomLevel == st.zoomLevel &&
            e.st.window == st.window && e.st.level == st.level &&
            var before := ImageToScreen(canvas, st.zoomLevel, st.offset, b, p);
            ImageToScreen(canvas, e.st.zoomLevel, e.st.offset, b, p) == Point(before.x - mx, before.y - my)
  {
    var s := st.zoomLevel;
    var st' := CursorMove(st, mx, my);
    var o := DrawOrigin(canvas, s, st.offset, b);
    var o' := DrawOrigin(canvas, s, st'.offset, b);
    assert s * o'.x == s * o.x - mx by {
      assert s * (o'.x + b.W() / 2.0) == canvas.W() / 2.0 + s * st.offset.x - s * (mx / s);
    }
    assert s * o'.y == s * o.y - my by {
      assert s * (o'.y + b.H() / 2.0) == canvas.H() / 2.0 + s * st.offset.y - s * (my / s);
    }
  }

  /** Cursor tool at a fixed zoom: a move by (dx, dy) and then by (-dx, -dy) restores the image exactly. */
  lemma CursorMoveInverse(st: ImageState, dx: real, dy: real, client: Point, css: Dims, zoomFactor: real)
    requires st.Valid() && zoomFactor > 0.0
    ensures var e1 := ApplyTool(Cursor, st, dx, dy, client, css, zoomFactor);
            e1.Update? &&
            ApplyTool(Cursor, e1.st, -dx, -dy, client, css, zoomFactor) == Update(st, PositionChanged)
  {
    var s := st.zoomLevel;
    var st1 := CursorMove(st, dx, dy);
    var st2 := CursorMove(st1, -dx, -dy);
    assert -(-dx / s) == dx / s && -(-dy / s) == dy / s;
    assert st2.offset == st.offset;
  }

  /**
   * Zoom tool: the zoom level is multiplied by the factor, the offset is
   * kept, so the image point at the canvas centre stays there.
   */
  lemma ZoomToolKeepsCentre(st: ImageState, b: Dims, canvas: Dims, mx: real, my: real,
                            client: Point, css: Dims, zoomFactor: real)
    requires st.Valid() && zoomFactor > 0.0
    ensures var e := ApplyTool(ZoomTool, st, mx, my, client, css, zoomFactor);
            e.Update? && e.ev == ZoomChanged &&
            e.st.zoomLevel == st.zoomLevel * zoomFactor && e.st.offset == st.offset &&
            e.st.window == st.window && e.st.level == st.level &&
            var c := Point(b.W() / 2.0 - st.offset.x, b.H() / 2.0 - st.offset.y);
            ImageToScreen(canvas, e.st.zoomLevel, e.st.offset, b, c) == ImageToScreen(canvas, st.zoomLevel, st.offset, b, c)
  {
    var e := ApplyTool(ZoomTool, st, mx, my, client, css, zoomFactor);
    CentreIsFixed(canvas, st.zoomLevel, st.offset, b);
    CentreIsFixed(canvas, e.st.zoomLevel, st.offset, b);
  }

  /**
   * Range tool: window and level grow by mx/500 and my/500; the view
   * (zoom and offset) is untouched and the change reprocesses the pixels.
   */
  lemma RangeToolAdjustsWindowLevel(st: ImageState, mx: real, my: real, client: Point, css: Dims, zoomFactor: real)
    requires st.Valid() && zoomFactor > 0.0
    ensures var e := ApplyTool(Range, st, mx, my, client, css, zoomFactor);
            e.Update? && Reprocesses(e.ev) &&
            e.st.window == st.window + mx / 500.0 && e.st.level == st.level + my / 500.0 &&
            e.st.zoomLevel == st.zoomLevel && e.st.offset == st.offset
  {
  }

  /**
   * Brush tool: with the canvas laid out at its pixel size, the stroke
   * starts at the image pixel under the pointer and ends at the pixel that
   * was under it at the previous event, (mx, my) screen pixels back.
   */
  lemma BrushStrokeJoinsPointerPositions(st: ImageState, canvas: Dims, mx: real, my: real,
                                         client: Point, zoomFactor: real)
    requires st.Valid() && zoomFactor > 0.0 && st.base.Some?
    ensures var e := ApplyTool(Brush, st, mx, my, client, canvas, zoomFactor);
            var corner := Point(client.x - CanvasLeft, client.y - CanvasTop);
            var b := st.base.value;
            e.Stroke? &&
            ImageToScreen(canvas, st.zoomLevel, st.offset, b, e.seg.from) == corner &&
            ImageToScreen(canvas, st.zoomLevel, st.offset, b, e.seg.to) == Point(corner.x + mx, corner.y + my)
  {
    var s := st.zoomLevel;
    var b := st.base.value;
    var seg := BrushStroke(st, b, mx, my, client, canvas);
    var o := DrawOrigin(canvas, s, st.offset, b);
    assert s * (o.x + seg.to.x) == s * (o.x + seg.from.x) + s * (mx / s);
    assert s * (o.y + seg.to.y) == s * (o.y + seg.from.y) + s * (my / s);
  }

  /** The worked example: a brush delta of (10, 0) at zoom 2 draws a line 5 image pixels long to the right. */
  lemma BrushExample(st: ImageState, client: Point, css: Dims)
    requires st.Valid() && st.zoomLevel == 2.0 && st.base.Some?
    ensures var e := ApplyTool(Brush, st, 10.0, 0.0, client, css, 1.0);
            e.Stroke? && e.seg.to == Point(e.seg.from.x + 5.0, e.seg.from.y)
  {
  }
}
