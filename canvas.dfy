/**
 * The canvas widget of Canvas.js as objects whose handlers update fields:
 * the image it shows, the active tool, the redraw block, the mouse-button
 * flags and last position, the touch-gesture accumulator and the off-screen
 * surfaces. What the visible canvas receives is recorded in `frames`, one
 * entry per call of `draw` that painted something.
 */
module Widget {
  import opened Options
  import opened Geometry
  import opened ImageModel
  import opened Compositor
  import opened Tools
  import opened Gestures

  /**
   * A fundus image object: the fields the canvas reads, and the setters it
   * calls with their assumed effects. Change notifications are not sent from
   * here; the canvas methods that call a setter run the handler it triggers.
   */
  class FundusImage {
    var zoomLevel: real
    var offset: Point
    var window: real
    var level: real
    var showBase: bool
    var showAnnotate: bool
    var showSegment: bool
    var grayscale: bool
    var base: Option<Dims>
    var seg: Option<Dims>

    function State(): ImageState
      reads this
    {
      ImageState(zoomLevel, offset, window, level, showBase, showAnnotate, showSegment, grayscale, base, seg)
    }

    ghost predicate Valid()
      reads this
    {
      State().Valid()
    }

    constructor (st: ImageState)
      requires st.Valid()
      ensures State() == st && Valid()
    {
      zoomLevel, offset, window, level := st.zoomLevel, st.offset, st.window, st.level;
      showBase, showAnnotate, showSegment, grayscale := st.showBase, st.showAnnotate, st.showSegment, st.grayscale;
      base, seg := st.base, st.seg;
    }

    method Move(dx: real, dy: real)
      requires Valid()
      modifies this
      ensures Valid() && State() == old(State()).Moved(dx, dy)
    {
      offset := Point(offset.x + dx, offset.y + dy);
    }

    method Zoom(f: real)
      requires Valid() && f > 0.0
      modifies this
      ensures Valid() && State() == old(State()).Zoomed(f)
    {
      zoomLevel := zoomLevel * f;
    }

    method SetZoom(v: real)
      requires v > 0.0
      modifies this
      ensures Valid() && State() == old(State()).WithZoom(v)
    {
      zoomLevel := v;
    }

    method SetPosition(x: real, y: real)
      requires Valid()
      modifies this
      ensures Valid() && State() == old(State()).WithPosition(x, y)
    {
      offset := Point(x, y);
    }

    method SetWindowLevel(w: real, l: real)
      requires Valid()
      modifies this
      ensures Valid() && State() == old(State()).WithWindowLevel(w, l)
    {
      window, level := w, l;
    }

    method SetGrayscale(g: bool)
      requires Valid()
      modifies this
      ensures Valid() && State() == old(State()).WithGrayscale(g)
    {
      grayscale := g;
    }

    /** The base raster finished loading with dimensions d. */
    method LoadBase(d: Dims)
      requires Valid()
      modifies this
      ensures Valid() && State() == old(State()).(base := Some(d))
    {
      base := Some(d);
    }

    /** The segmentation raster finished loading with dimensions d. */
    method LoadSeg(d: Dims)
      requires Valid()
      modifies this
      ensures Valid() && State() == old(State()).(seg := Some(d))
    {
      seg := Some(d);
    }
  }

  /** The touch accumulator: `last_mx`, `last_my` and `last_scale`, set by a `touch` event. */
  datatype Gesture = Gesture(lastMx: real, lastMy: real, lastScale: real)

  /** A mouse event's screen position (for deltas) and client position (for the brush). */
  datatype PointerEvent = PointerEvent(screen: Point, client: Point)

  /** The keyboard shortcut that toggles grayscale: charCode 103, a lower-case 'g'. */
  const GrayscaleKey: int := 103

  /** The size a freshly created off-screen canvas element has until it is resized. */
  const DefaultSurface: Dims := Dims(300, 150)

  /** The part of a canvas that one pointer move can change. */
  datatype Observed = Observed(image: ImageState, annotation: seq<Segment>, frames: seq<seq<DrawCmd>>, recaches: nat)

  /**
   * The canvas went from `before` to `after` by the tool effect `e`, `frame`
   * being what `draw` renders afterwards: an image setter fires its event
   * (a redraw, preceded by reprocessing for a data change); a brush stroke
   * is appended and redrawn; anything else changes nothing.
   */
  predicate Performed(e: Effect, before: Observed, after: Observed, frame: seq<DrawCmd>)
  {
    match e
    case Update(st, ev) =>
      after == Observed(st, before.annotation, before.frames + Painted(frame),
                        before.recaches + if Reprocesses(ev) then 1 else 0)
    case Stroke(seg) =>
      after == Observed(before.image, before.annotation + [seg], before.frames + Painted(frame), before.recaches)
    case _ => after == before
  }

  class Canvas {
    const size: Dims     // the canvas element's pixel size
    const cssSize: Dims  // its laid-out size, as jQuery's width()/height() report it
    var image: FundusImage?
    var tool: int
    var blockRedraws: bool
    var mouseButtons: seq<bool>  // indexed by e.which - 1
    var mousePos: Point
    var gesture: Option<Gesture>
    var offSurface: Dims  // the processed-image off-screen canvas
    var annSurface: Dims  // the annotation off-screen canvas
    var annotation: seq<Segment>
    var frames: seq<seq<DrawCmd>>
    var recaches: nat  // calls of drawCached, the pixel processing of the base layer

    /**
     * What holds at every point, also inside `fitToPage` while redraws are
     * blocked. Once the base image has loaded both off-screen surfaces have
     * its size, so pixel p of the processed and the annotation layers is
     * base pixel p, which is how `Compositor.BasePixel` treats them and what
     * makes `Compositor.LayersCoincide` a statement about this canvas.
     */
    ghost predicate Consistent()
      reads this, image
    {
      && |mouseButtons| == 3
      && (gesture.Some? ==> gesture.value.lastScale > 0.0)
      && (image != null ==>
            image.Valid() &&
            (image.base.Some? ==> offSurface == image.base.value && annSurface == image.base.value))
    }

    /** The invariant between handler calls: redraws are blocked only inside `fitToPage`. */
    ghost predicate Valid()
      reads this, image
    {
      Consistent() && !blockRedraws
    }

    function Snapshot(): View
      reads this, image
    {
      View(blockRedraws, size, if image == null then None else Some(image.State()))
    }

    function Observe(): Observed
      reads this, image
      requires image != null
    {
      Observed(image.State(), annotation, frames, recaches)
    }

    constructor (size: Dims, cssSize: Dims)
      ensures Valid() && this.size == size && this.cssSize == cssSize
      ensures image == null && tool == Cursor && mouseButtons == [false, false, false] && mousePos == Point(0.0, 0.0)
      ensures gesture == None && offSurface == DefaultSurface && annSurface == DefaultSurface
      ensures annotation == [] && frames == [] && recaches == 0
    {
      this.size, this.cssSize := size, cssSize;
      image, tool, blockRedraws := null, Cursor, false;
      mouseButtons, mousePos, gesture := [false, false, false], Point(0.0, 0.0), None;
      offSurface, annSurface := DefaultSurface, DefaultSurface;
      annotation, frames, recaches := [], [], 0;
    }

    /** `draw`: paints the composite onto the visible canvas, honouring the guards. */
    method Draw()
      requires Consistent()
      modifies this`frames
      ensures frames == old(frames) + Painted(Render(Snapshot()))
    {
      if blockRedraws { return; }
      if image == null {
        frames := frames + [[FillBlack(size)]];
        return;
      }
      if image.base.None? { return; }
      var s := image.zoomLevel;
      var b := image.base.value;
      var o := DrawOrigin(size, s, image.offset, b);
      var layers := [];
      if image.showBase { layers := layers + [DrawLayer(Processed, o)]; }
      if image.showAnnotate { layers := layers + [DrawLayer(Annotation, o)]; }
      if image.showSegment && image.seg.Some? {
        var ss := SegScale(b, image.seg.value);
        layers := layers + [Scale(ss.x, ss.y), DrawLayer(Segmentation, SegOrigin(size, s, image.offset, b, image.seg.value))];
      }
      assert layers == LayerCmds(size, image.State(), b);
      frames := frames + [[Save, FillBlack(size), Scale(s, s)] + layers + [Restore]];
    }

    /** The handlers `setImage` binds on the image: every event redraws, `dataChanged` reprocesses first. */
    method Notify(ev: ImageEvent)
      requires Consistent() && image != null
      modifies this`frames, this`recaches
      ensures recaches == old(recaches) + if Reprocesses(ev) then 1 else 0
      ensures frames == old(frames) + Painted(Render(Snapshot()))
    {
      if ev == DataChanged {
        recaches := recaches + 1;
      }
      Draw();
    }

    /** `initialDraw`: size both off-screen surfaces to the base image (which clears the annotations), reprocess, redraw. */
    method InitialDraw()
      requires |mouseButtons| == 3 && (gesture.Some? ==> gesture.value.lastScale > 0.0) && !blockRedraws
      requires image != null && image.Valid() && image.base.Some?
      modifies this`offSurface, this`annSurface, this`annotation, this`recaches, this`frames
      ensures Valid()
      ensures offSurface == image.base.value && annSurface == image.base.value && annotation == []
      ensures recaches == old(recaches) + 1
      ensures frames == old(frames) + [Render(Snapshot())]
    {
      offSurface := image.base.value;
      annSurface := image.base.value;
      annotation := [];
      recaches := recaches + 1;
      Draw();
    }

    method SetTool(t: int)
      modifies this`tool
      ensures tool == t
    {
      tool := t;
    }

    /** `setImage` (its state part): show `img`, or clear the view when it is null. */
    method SetImage(img: FundusImage?)
      requires Valid() && (img == null || img.Valid())
      modifies this`image, this`offSurface, this`annSurface, this`annotation, this`recaches, this`frames
      ensures Valid() && image == img
      ensures img != null && img.base.Some? ==>
                offSurface == img.base.value && annSurface == img.base.value && annotation == [] &&
                recaches == old(recaches) + 1 && frames == old(frames) + [Render(Snapshot())]
      ensures img == null || img.base.None? ==>
                offSurface == old(offSurface) && annSurface == old(annSurface) && annotation == old(annotation) &&
                recaches == old(recaches) && frames == old(frames) + Painted(Render(Snapshot()))
    {
      image := img;
      if image == null {
        Draw();
        return;
      }
      if image.base == None {
        Draw();
      } else {
        InitialDraw();
      }
    }

    /** The `onBaseLoad` handler: the current image's base raster arrived with dimensions d. */
    method OnBaseLoad(d: Dims)
      requires Valid() && image != null && image.base.None?
      modifies this`offSurface, this`annSurface, this`annotation, this`recaches, this`frames, image
      ensures Valid() && image == old(image) && image.State() == old(image.State()).(base := Some(d))
      ensures offSurface == d && annSurface == d && annotation == []
      ensures recaches == old(recaches) + 1 && frames == old(frames) + [Render(Snapshot())]
    {
      image.LoadBase(d);
      InitialDraw();
    }

    /** The `onSegLoad` handler: the current image's segmentation raster arrived with dimensions d. */
    method OnSegLoad(d: Dims)
      requires Valid() && image != null
      modifies this`frames, this`recaches, image
      ensures Valid() && image == old(image) && image.State() == old(image.State()).(seg := Some(d))
      ensures recaches == old(recaches)
      ensures frames == old(frames) + Painted(Render(Snapshot()))
    {
      image.LoadSeg(d);
      Notify(SegLoaded);
    }

    /** `zoom(steps)`: multiply the zoom by |steps|, or by 1/|steps| for a negative argument; nothing without an image. */
    method Zoom(steps: real)
      requires Valid() && steps != 0.0
      modifies this`frames, this`recaches, image
      ensures Valid() && image == old(image) && recaches == old(recaches)
      ensures old(image) == null ==> frames == old(frames)
      ensures old(image) != null ==>
                image.State() == old(image.State()).Zoomed(ZoomStepFactor(steps)) &&
                frames == old(frames) + Painted(Render(Snapshot()))
    {
      if image == null { return; }
      var factor := ZoomStepFactor(steps);
      image.Zoom(factor);
      Notify(ZoomChanged);
    }

    /**
     * `fitToPage`: with redraws blocked, centre the image and zoom it to fit
     * the canvas, then draw once; nothing without a loaded image.
     */
    method FitToPage()
      requires Valid()
      modifies this`blockRedraws, this`frames, this`recaches, image
      ensures Valid() && image == old(image) && recaches == old(recaches)
      ensures old(image) == null || old(image.base).None? ==> frames == old(frames)
      ensures old(image) != null && old(image.base).None? ==> image.State() == old(image.State())
      ensures old(image) != null && old(image.base).Some? ==>
                image.State() == old(image.State()).WithPosition(0.0, 0.0).WithZoom(FitScale(size, old(image.base).value)) &&
                frames == old(frames) + [Render(Snapshot())]
    {
      if image == null || image.base.None? { return; }
      var b := image.base.value;
      var s := FitScale(size, b);
      ghost var f0 := frames;
      blockRedraws := true;
      image.SetPosition(0.0, 0.0);
      Notify(PositionChanged);
      assert frames == f0;
      image.SetZoom(s);
      Notify(ZoomChanged);
      assert frames == f0;
      blockRedraws := false;
      Draw();
    }

    /** `mousedown`: remember the position and mark button `which` (1-based) as down. */
    method MouseDown(which: int, screen: Point)
      requires Valid()
      modifies this`mouseButtons, this`mousePos
      ensures Valid() && mousePos == screen
      ensures mouseButtons == if 1 <= which <= 3 then old(mouseButtons)[which - 1 := true] else old(mouseButtons)
    {
      mousePos := screen;
      if 1 <= which <= 3 {
        mouseButtons := mouseButtons[which - 1 := true];
      }
    }

    /** `mouseup`: mark button `which` (1-based) as up. */
    method MouseUp(which: int)
      requires Valid()
      modifies this`mouseButtons
      ensures Valid()
      ensures mouseButtons == if 1 <= which <= 3 then old(mouseButtons)[which - 1 := false] else old(mouseButtons)
    {
      if 1 <= which <= 3 {
        mouseButtons := mouseButtons[which - 1 := false];
      }
    }

    /**
     * `_onMove`: apply the effective tool to the delta (mx, my). Returns
     * whether the handler faulted (the brush read the width of a missing
     * base image), in which case nothing changed.
     */
    method OnMove(client: Point, mx: real, my: real, requested: Option<int>, zoomFactor: real) returns (faulted: bool)
      requires Valid() && image != null && zoomFactor > 0.0
      modifies this`annotation, this`frames, this`recaches, image
      ensures Valid() && image == old(image)
      ensures var e := ApplyTool(EffectiveTool(requested, tool), old(image.State()), mx, my, client, cssSize, zoomFactor);
              faulted == e.Fault? && Performed(e, old(Observe()), Observe(), Render(Snapshot()))
    {
      faulted := false;
      var action := EffectiveTool(requested, tool);
      if action == Cursor {
        PanTool(mx, my);
      } else if action == Brush {
        if image.base.None? {
          faulted := true;
          return;
        }
        BrushTool(client, mx, my);
      } else if action == ZoomTool {
        ZoomToolMove(zoomFactor);
      } else if action == Range {
        RangeTool(mx, my);
      }
    }

    /** The cursor case of `_onMove`: move the image against the delta, in image units. */
    method PanTool(mx: real, my: real)
      requires Valid() && image != null
      modifies this`frames, this`recaches, image
      ensures Valid() && image == old(image) && annotation == old(annotation)
      ensures Performed(Update(CursorMove(old(image.State()), mx, my), PositionChanged), old(Observe()), Observe(), Render(Snapshot()))
    {
      var scale := image.zoomLevel;
      var moveX := mx / scale;
      var moveY := my / scale;
      image.Move(-moveX, -moveY);
      Notify(PositionChanged);
    }

    /** The brush case of `_onMove` once the base image has loaded: stroke from the pointer back along the delta. */
    method BrushTool(client: Point, mx: real, my: real)
      requires Valid() && image != null && image.base.Some?
      modifies this`annotation, this`frames
      ensures Valid()
      ensures Performed(Stroke(BrushStroke(image.State(), image.base.value, mx, my, client, cssSize)),
                        old(Observe()), Observe(), Render(Snapshot()))
    {
      var s := image.zoomLevel;
      var p := BrushPoint(client, cssSize, s, image.offset, image.base.value);
      var seg := Segment(p, Point(p.x + mx / s, p.y + my / s));
      assert seg == BrushStroke(image.State(), image.base.value, mx, my, client, cssSize);
      annotation := annotation + [seg];
      Draw();
    }

    /** The zoom case of `_onMove`: multiply the zoom by the factor. */
    method ZoomToolMove(zoomFactor: real)
      requires Valid() && image != null && zoomFactor > 0.0
      modifies this`frames, this`recaches, image
      ensures Valid() && image == old(image) && annotation == old(annotation)
      ensures Performed(Update(old(image.State()).Zoomed(zoomFactor), ZoomChanged), old(Observe()), Observe(), Render(Snapshot()))
    {
      image.Zoom(zoomFactor);
      Notify(ZoomChanged);
    }

    /** The range case of `_onMove`: window and level grow by a 500th of the delta. */
    method RangeTool(mx: real, my: real)
      requires Valid() && image != null
      modifies this`frames, this`recaches, image
      ensures Valid() && image == old(image) && annotation == old(annotation)
      ensures var st := old(image.State());
              Performed(Update(st.WithWindowLevel(mx / 500.0 + st.window, my / 500.0 + st.level), DataChanged),
                        old(Observe()), Observe(), Render(Snapshot()))
    {
      var window := mx / 500.0 + image.window;
      var level := my / 500.0 + image.level;
      image.SetWindowLevel(window, level);
      Notify(DataChanged);
    }

    /**
     * `_onMouseMove`: with an image set, dispatch the delta (last position
     * minus current) while button 0 or 1 is down, then record the position
     * unless the handler faulted. Without an image it returns at once.
     */
    method OnMouseMove(e: PointerEvent, zoomFactor: real)
      requires Valid() && zoomFactor > 0.0
      modifies this`mousePos, this`annotation, this`frames, this`recaches, image
      ensures Valid() && image == old(image)
      ensures old(image) == null ==>
                mousePos == old(mousePos) && frames == old(frames) && annotation == old(annotation) && recaches == old(recaches)
      ensures old(image) != null ==>
                var t := MouseTool(mouseButtons, tool);
                var mx := old(mousePos).x - e.screen.x;
                var my := old(mousePos).y - e.screen.y;
                if t.None? then
                  Observe() == old(Observe()) && mousePos == e.screen
                else
                  var eff := ApplyTool(t.value, old(image.State()), mx, my, e.client, cssSize, zoomFactor);
                  Performed(eff, old(Observe()), Observe(), Render(Snapshot())) &&
                  mousePos == if eff.Fault? then old(mousePos) else e.screen
    {
      if image == null { return; }
      var moveX := mousePos.x - e.screen.x;
      var moveY := mousePos.y - e.screen.y;
      var faulted := false;
      if mouseButtons[0] {
        faulted := OnMove(e.client, moveX, moveY, None, zoomFactor);
      } else if mouseButtons[1] {
        faulted := OnMove(e.client, moveX, moveY, Some(Cursor), zoomFactor);
      }
      if !faulted {
        mousePos := e.screen;
      }
    }

    /** The `touch` gesture event: snapshot the zoom level and zero the drag accumulator. */
    method Touch()
      requires Valid()
      modifies this`gesture
      ensures Valid()
      ensures gesture == if image == null then old(gesture) else Some(Gesture(0.0, 0.0, image.zoomLevel))
    {
      if image == null { return; }
      gesture := Some(Gesture(0.0, 0.0, image.zoomLevel));
    }

    /**
     * The `drag` gesture event with cumulative displacement (dx, dy):
     * forward the change since the previous drag to `_onMove`, then
     * remember the displacement unless the handler faulted.
     */
    method Drag(client: Point, dx: real, dy: real, zoomFactor: real)
      requires Valid() && zoomFactor > 0.0
      modifies this`gesture, this`annotation, this`frames, this`recaches, image
      ensures Valid() && image == old(image)
      ensures old(image) == null || old(gesture).None? ==>
                gesture == old(gesture) && frames == old(frames) && annotation == old(annotation) && recaches == old(recaches)
      ensures old(image) != null && old(gesture).None? ==> image.State() == old(image.State())
      ensures old(image) != null && old(gesture).Some? ==>
                var g := old(gesture).value;
                var eff := ApplyTool(tool, old(image.State()), g.lastMx - dx, g.lastMy - dy, client, cssSize, zoomFactor);
                Performed(eff, old(Observe()), Observe(), Render(Snapshot())) &&
                gesture == if eff.Fault? then old(gesture) else Some(Gesture(dx, dy, g.lastScale))
    {
      if image == null || gesture.None? { return; }
      var g := gesture.value;
      var mx := g.lastMx - dx;
      var my := g.lastMy - dy;
      var faulted := OnMove(client, mx, my, None, zoomFactor);
      if !faulted {
        gesture := Some(Gesture(dx, dy, g.lastScale));
      }
    }

    /**
     * The `transform` (pinch) gesture event with overall scale `scale`: set
     * the zoom to the snapshot taken at `touch` times the scale.
     */
    method Transform(scale: real)
      requires Valid() && scale > 0.0
      modifies this`frames, this`recaches, image
      ensures Valid() && image == old(image) && gesture == old(gesture) && recaches == old(recaches)
      ensures old(image) == null || old(gesture).None? ==> frames == old(frames)
      ensures old(image) != null && old(gesture).None? ==> image.State() == old(image.State())
      ensures old(image) != null && old(gesture).Some? ==>
                image.State() == old(image.State()).WithZoom(old(gesture).value.lastScale * scale) &&
                frames == old(frames) + Painted(Render(Snapshot()))
    {
      if image == null || gesture.None? { return; }
      var zoom := gesture.value.lastScale * scale;
      image.SetZoom(zoom);
      Notify(ZoomChanged);
    }

    /** `_keyEventHandler`: the 'g' key toggles grayscale on the current image. */
    method KeyPress(charCode: int)
      requires Valid()
      modifies this`frames, this`recaches, image
      ensures Valid() && image == old(image)
      ensures old(image) == null || charCode != GrayscaleKey ==> frames == old(frames) && recaches == old(recaches)
      ensures old(image) != null && charCode != GrayscaleKey ==> image.State() == old(image.State())
      ensures old(image) != null && charCode == GrayscaleKey ==>
                image.State() == old(image.State()).WithGrayscale(!old(image.grayscale)) &&
                recaches == old(recaches) + 1 && frames == old(frames) + Painted(Render(Snapshot()))
    {
      if image != null && charCode == GrayscaleKey {
        image.SetGrayscale(!image.grayscale);
        Notify(DataChanged);
      }
    }
  }

  /** The undoable record of a change of the displayed image. */
  class SetImageAction {
    const older: FundusImage?
    const newer: FundusImage?
    const text: string := "changing the active image"

    constructor (older: FundusImage?, newer: FundusImage?)
      ensures this.older == older && this.newer == newer
    {
      this.older, this.newer := older, newer;
    }

    /** `undo`: show the previous image again, with `setImage`'s whole effect on the canvas. */
    method Undo(canvas: Canvas)
      requires canvas.Valid() && (older == null || older.Valid())
      modifies canvas`image, canvas`offSurface, canvas`annSurface, canvas`annotation, canvas`recaches, canvas`frames
      ensures canvas.Valid() && canvas.image == older
      ensures older != null && older.base.Some? ==>
                canvas.offSurface == older.base.value && canvas.annSurface == older.base.value && canvas.annotation == [] &&
                canvas.recaches == old(canvas.recaches) + 1 && canvas.frames == old(canvas.frames) + [Render(canvas.Snapshot())]
      ensures older == null || older.base.None? ==>
                canvas.offSurface == old(canvas.offSurface) && canvas.annSurface == old(canvas.annSurface) &&
                canvas.annotation == old(canvas.annotation) && canvas.recaches == old(canvas.recaches) &&
                canvas.frames == old(canvas.frames) + Painted(Render(canvas.Snapshot()))
    {
      canvas.SetImage(older);
    }

    /** `redo`: show the newer image again, with `setImage`'s whole effect on the canvas. */
    method Redo(canvas: Canvas)
      requires canvas.Valid() && (newer == null || newer.Valid())
      modifies canvas`image, canvas`offSurface, canvas`annSurface, canvas`annotation, canvas`recaches, canvas`frames
      ensures canvas.Valid() && canvas.image == newer
      ensures newer != null && newer.base.Some? ==>
                canvas.offSurface == newer.base.value && canvas.annSurface == newer.base.value && canvas.annotation == [] &&
                canvas.recaches == old(canvas.recaches) + 1 && canvas.frames == old(canvas.frames) + [Render(canvas.Snapshot())]
      ensures newer == null || newer.base.None? ==>
                canvas.offSurface == old(canvas.offSurface) && canvas.annSurface == old(canvas.annSurface) &&
                canvas.annotation == old(canvas.annotation) && canvas.recaches == old(canvas.recaches) &&
                canvas.frames == old(canvas.frames) + Painted(Render(canvas.Snapshot()))
    {
      canvas.SetImage(newer);
    }
  }
}
