/**
 * The compositor: `Canvas.draw` as the list of 2-D context commands it
 * issues, and a small interpreter of those commands that says where on the
 * screen each layer's pixels land.
 */
module Compositor {
  import opened Options
  import opened Geometry
  import opened ImageModel

  /** The three layers drawn by the canvas. */
  datatype Layer =
    | Processed     // the off-screen copy of the base image after pixel processing
    | Annotation    // the off-screen brush-stroke overlay
    | Segmentation  // the image's segmentation raster

  /** The context operations `draw` issues on the visible canvas. */
  datatype DrawCmd =
    | FillBlack(area: Dims)              // fillStyle black; rect(0, 0, w, h); fill()
    | Save
    | Restore
    | Scale(sx: real, sy: real)
    | DrawLayer(layer: Layer, at: Point)  // drawImage(layer, at.x, at.y)

  /** What `draw` depends on: the redraw block flag, the canvas size and the current image, if any. */
  datatype View = View(blocked: bool, canvas: Dims, image: Option<ImageState>)
  {
    predicate Valid() { image.Some? ==> image.value.Valid() }

    /** The case in which `draw` paints the layers: not blocked and the base image loaded. */
    predicate PaintsLayers() { !blocked && image.Some? && image.value.base.Some? }
  }

  /**
   * The commands of one call of `draw`: nothing exactly while redraws are
   * blocked or the base image is still loading (`DrawGuards` gives the shape
   * of what is painted otherwise).
   */
  function Render(v: View): (r: seq<DrawCmd>)
    requires v.Valid()
    ensures r == [] <==> v.blocked || (v.image.Some? && v.image.value.base.None?)
  {
    if v.blocked then []
    else match v.image
      case None => [FillBlack(v.canvas)]
      case Some(st) =>
        match st.base
        case None => []
        case Some(b) => Frame(v.canvas, st, b)
  }

  /** A command that neither saves nor restores the context. */
  predicate KeepsStack(cmd: DrawCmd)
  {
    !cmd.Save? && !cmd.Restore?
  }

  /** The full frame drawn when the base image is loaded. */
  function Frame(canvas: Dims, st: ImageState, b: Dims): seq<DrawCmd>
    requires st.Valid()
  {
    [Save, FillBlack(canvas), Scale(st.zoomLevel, st.zoomLevel)] + LayerCmds(canvas, st, b) + [Restore]
  }

  /**
   * The commands that draw the layers: one per visible layer, plus the
   * segmentation's extra scale (`LayerCmdsKeepStack`: none saves or restores).
   */
  function LayerCmds(canvas: Dims, st: ImageState, b: Dims): (r: seq<DrawCmd>)
    requires st.Valid()
    ensures |r| == |VisibleLayers(st)| + if st.showSegment && st.seg.Some? then 1 else 0
  {
    var o := DrawOrigin(canvas, st.zoomLevel, st.offset, b);
    (if st.showBase then [DrawLayer(Processed, o)] else [])
    + (if st.showAnnotate then [DrawLayer(Annotation, o)] else [])
    + SegCmds(canvas, st, b)
  }

  /**
   * The segmentation commands: present exactly when the layer is shown and
   * its raster has loaded, and then an extra scale that stretches the
   * segmentation to the base image's size, followed by the layer itself.
   */
  function SegCmds(canvas: Dims, st: ImageState, b: Dims): (r: seq<DrawCmd>)
    requires st.Valid()
    ensures r != [] <==> st.showSegment && st.seg.Some?
    ensures r != [] ==>
              && |r| == 2 && r[0].Scale? && r[1].DrawLayer? && r[1].layer == Segmentation
              && r[0].sx * st.seg.value.W() == b.W() && r[0].sy * st.seg.value.H() == b.H()
  {
    if st.showSegment && st.seg.Some? then
      var ss := SegScale(b, st.seg.value);
      [Scale(ss.x, ss.y), DrawLayer(Segmentation, SegOrigin(canvas, st.zoomLevel, st.offset, b, st.seg.value))]
    else []
  }

  /** What one call of `draw` adds to the visible canvas: its commands, when there are any. */
  function Painted(cmds: seq<DrawCmd>): seq<seq<DrawCmd>>
  {
    if cmds == [] then [] else [cmds]
  }

  // ---------------------------------------------------------------------------
  //  Interpreting a command list: where each drawn layer lands
  // ---------------------------------------------------------------------------

  /** The context's current scale and its stack of saved scales. */
  datatype Ctx = Ctx(scale: Point, saved: seq<Point>)

  const Identity: Ctx := Ctx(Point(1.0, 1.0), [])

  /**
   * A drawn layer: its pixel p is shown at screen point
   * (scale.x * (origin.x + p.x), scale.y * (origin.y + p.y)).
   */
  datatype Placement = Placement(layer: Layer, scale: Point, origin: Point)

  function PlacedAt(pl: Placement, p: Point): Point
  {
    Point(pl.scale.x * (pl.origin.x + p.x), pl.scale.y * (pl.origin.y + p.y))
  }

  /** The effect of one command on the context's transform (restore with nothing saved does nothing). */
  function Step(c: Ctx, cmd: DrawCmd): Ctx
  {
    match cmd
    case Save => Ctx(c.scale, c.saved + [c.scale])
    case Restore => if c.saved == [] then c else Ctx(c.saved[|c.saved| - 1], c.saved[..|c.saved| - 1])
    case Scale(sx, sy) => Ctx(Point(c.scale.x * sx, c.scale.y * sy), c.saved)
    case _ => c
  }

  /** The context after a command list. */
  function Final(cmds: seq<DrawCmd>, c: Ctx): Ctx
  {
    if cmds == [] then c else Final(cmds[1..], Step(c, cmds[0]))
  }

  /** The layers a command list draws, in order, with their screen placement. */
  function Placements(cmds: seq<DrawCmd>, c: Ctx): seq<Placement>
  {
    if cmds == [] then []
    else
      (if cmds[0].DrawLayer? then [Placement(cmds[0].layer, c.scale, cmds[0].at)] else [])
      + Placements(cmds[1..], Step(c, cmds[0]))
  }

  function Layers(ps: seq<Placement>): (ls: seq<Layer>)
    ensures |ls| == |ps| && forall i :: 0 <= i < |ps| ==> ls[i] == ps[i].layer
  {
    if ps == [] then [] else [ps[0].layer] + Layers(ps[1..])
  }

  lemma {:induction false} PlacementsAppend(xs: seq<DrawCmd>, ys: seq<DrawCmd>, c: Ctx)
    ensures Placements(xs + ys, c) == Placements(xs, c) + Placements(ys, Final(xs, c))
    ensures Final(xs + ys, c) == Final(ys, Final(xs, c))
  {
    if xs != [] {
      assert (xs + ys)[0] == xs[0] && (xs + ys)[1..] == xs[1..] + ys;
      PlacementsAppend(xs[1..], ys, Step(c, xs[0]));
    } else {
      assert xs + ys == ys;
    }
  }

  /** The layers `draw` paints into a frame, given the image's display flags. */
  function VisibleLayers(st: ImageState): seq<Layer>
  {
    (if st.showBase then [Processed] else [])
    + (if st.showAnnotate then [Annotation] else [])
    + (if st.showSegment && st.seg.Some? then [Segmentation] else [])
  }

  /** The base-image pixel that pixel p of a layer stands for (the segmentation may have another resolution). */
  function BasePixel(layer: Layer, st: ImageState, b: Dims, p: Point): Point
  {
    if layer == Segmentation && st.seg.Some? then
      var ss := SegScale(b, st.seg.value);
      Point(ss.x * p.x, ss.y * p.y)
    else p
  }

  /** Placements where every layer pixel lands where the base pixel it stands for lands. */
  ghost predicate Aligned(ps: seq<Placement>, canvas: Dims, st: ImageState, b: Dims)
    requires st.Valid()
  {
    forall pl, p :: pl in ps ==>
      PlacedAt(pl, p) == ImageToScreen(canvas, st.zoomLevel, st.offset, b, BasePixel(pl.layer, st, b, p))
  }

  lemma SegPlacementAligned(canvas: Dims, st: ImageState, b: Dims, p: Point)
    requires st.Valid() && st.seg.Some?
    ensures var ss := SegScale(b, st.seg.value);
            var pl := Placement(Segmentation, Point(st.zoomLevel * ss.x, st.zoomLevel * ss.y),
                                SegOrigin(canvas, st.zoomLevel, st.offset, b, st.seg.value));
            PlacedAt(pl, p) == ImageToScreen(canvas, st.zoomLevel, st.offset, b, BasePixel(Segmentation, st, b, p))
  {
    var s := st.zoomLevel;
    var ss := SegScale(b, st.seg.value);
    var so := SegOrigin(canvas, s, st.offset, b, st.seg.value);
    var o := DrawOrigin(canvas, s, st.offset, b);
    assert s * ss.x * (so.x + p.x) == s * (ss.x * so.x + ss.x * p.x);
    assert s * ss.y * (so.y + p.y) == s * (ss.y * so.y + ss.y * p.y);
  }

  /** The placements a full frame produces, layer by layer. */
  function ExpectedPlacements(canvas: Dims, st: ImageState, b: Dims): seq<Placement>
    requires st.Valid()
  {
    var s := st.zoomLevel;
    var o := DrawOrigin(canvas, s, st.offset, b);
    (if st.showBase then [Placement(Processed, Point(s, s), o)] else [])
    + (if st.showAnnotate then [Placement(Annotation, Point(s, s), o)] else [])
    + SegExpected(canvas, st, b)
  }

  function SegExpected(canvas: Dims, st: ImageState, b: Dims): seq<Placement>
    requires st.Valid()
  {
    if st.showSegment && st.seg.Some? then
      var s := st.zoomLevel;
      var ss := SegScale(b, st.seg.value);
      [Placement(Segmentation, Point(s * ss.x, s * ss.y), SegOrigin(canvas, s, st.offset, b, st.seg.value))]
    else []
  }

  /** Interpreting a single command. */
  lemma SingleCommand(cmd: DrawCmd, c: Ctx)
    ensures Final([cmd], c) == Step(c, cmd)
    ensures Placements([cmd], c) == if cmd.DrawLayer? then [Placement(cmd.layer, c.scale, cmd.at)] else []
  {
    assert [cmd][1..] == [];
  }

  /** The frame's opening commands draw nothing and leave the zoom scale in force, with the identity saved. */
  lemma HeadPlacements(canvas: Dims, s: real)
    ensures Placements([Save, FillBlack(canvas), Scale(s, s)], Identity) == []
    ensures Final([Save, FillBlack(canvas), Scale(s, s)], Identity) == Ctx(Point(s, s), [Point(1.0, 1.0)])
  {
    var c0 := Ctx(Point(1.0, 1.0), [Point(1.0, 1.0)]);
    var tail := [FillBlack(canvas), Scale(s, s)];
    assert Step(Identity, Save) == c0;
    assert Step(c0, FillBlack(canvas)) == c0;
    assert Step(c0, Scale(s, s)) == Ctx(Point(s, s), [Point(1.0, 1.0)]);
    SingleCommand(Save, Identity);
    SingleCommand(FillBlack(canvas), c0);
    SingleCommand(Scale(s, s), c0);
    PlacementsAppend([FillBlack(canvas)], [Scale(s, s)], c0);
    assert [FillBlack(canvas)] + [Scale(s, s)] == tail;
    PlacementsAppend([Save], tail, Identity);
    assert [Save] + tail == [Save, FillBlack(canvas), Scale(s, s)];
  }

  /** The segmentation commands place the segmentation layer at the combined scale. */
  lemma SegPlacements(canvas: Dims, st: ImageState, b: Dims)
    requires st.Valid()
    ensures var c1 := Ctx(Point(st.zoomLevel, st.zoomLevel), [Point(1.0, 1.0)]);
            Placements(SegCmds(canvas, st, b), c1) == SegExpected(canvas, st, b)
            && Final(SegCmds(canvas, st, b), c1).saved == [Point(1.0, 1.0)]
  {
    var s := st.zoomLevel;
    var c1 := Ctx(Point(s, s), [Point(1.0, 1.0)]);
    if st.showSegment && st.seg.Some? {
      var ss := SegScale(b, st.seg.value);
      var so := SegOrigin(canvas, s, st.offset, b, st.seg.value);
      var c2 := Ctx(Point(s * ss.x, s * ss.y), [Point(1.0, 1.0)]);
      SingleCommand(Scale(ss.x, ss.y), c1);
      SingleCommand(DrawLayer(Segmentation, so), c2);
      PlacementsAppend([Scale(ss.x, ss.y)], [DrawLayer(Segmentation, so)], c1);
      assert SegCmds(canvas, st, b) == [Scale(ss.x, ss.y)] + [DrawLayer(Segmentation, so)];
      assert Step(c1, Scale(ss.x, ss.y)) == c2;
      assert Placements(SegCmds(canvas, st, b), c1) == [Placement(Segmentation, c2.scale, so)];
      var e := SegExpected(canvas, st, b);
      assert |e| == 1 && e[0].layer == Segmentation && e[0].origin == so && e[0].scale == c2.scale;
      assert e == [Placement(Segmentation, c2.scale, so)];
    }
  }

  /** Interpreting a full frame yields the expected placements and restores the identity transform. */
  lemma FramePlacements(canvas: Dims, st: ImageState, b: Dims)
    requires st.Valid()
    ensures Placements(Frame(canvas, st, b), Identity) == ExpectedPlacements(canvas, st, b)
    ensures Final(Frame(canvas, st, b), Identity) == Identity
  {
    var s := st.zoomLevel;
    var o := DrawOrigin(canvas, s, st.offset, b);
    var c1 := Ctx(Point(s, s), [Point(1.0, 1.0)]);
    var head := [Save, FillBlack(canvas), Scale(s, s)];
    HeadPlacements(canvas, s);
    var baseCmds := if st.showBase then [DrawLayer(Processed, o)] else [];
    var annCmds := if st.showAnnotate then [DrawLayer(Annotation, o)] else [];
    var segCmds := SegCmds(canvas, st, b);
    SingleCommand(DrawLayer(Processed, o), c1);
    SingleCommand(DrawLayer(Annotation, o), c1);
    SegPlacements(canvas, st, b);
    PlacementsAppend(baseCmds, annCmds, c1);
    PlacementsAppend(baseCmds + annCmds, segCmds, c1);
    assert LayerCmds(canvas, st, b) == baseCmds + annCmds + segCmds;
    var cl := Final(segCmds, c1);
    SingleCommand(Restore, cl);
    PlacementsAppend(head, LayerCmds(canvas, st, b), Identity);
    PlacementsAppend(head + LayerCmds(canvas, st, b), [Restore], Identity);
  }

  /** Commands that neither save nor restore leave the saved stack as it was. */
  lemma {:induction false} KeepsStackFinal(cmds: seq<DrawCmd>, c: Ctx)
    requires forall i :: 0 <= i < |cmds| ==> KeepsStack(cmds[i])
    ensures Final(cmds, c).saved == c.saved
  {
    if cmds != [] {
      assert KeepsStack(cmds[0]);
      assert forall i :: 0 <= i < |cmds[1..]| ==> KeepsStack(cmds[1..][i]) by {
        forall i | 0 <= i < |cmds[1..]| ensures KeepsStack(cmds[1..][i]) {
          assert cmds[1..][i] == cmds[i + 1];
        }
      }
      KeepsStackFinal(cmds[1..], Step(c, cmds[0]));
    }
  }

  /** The layer commands neither save nor restore the context, nor clear the canvas. */
  lemma LayerCmdsKeepStack(canvas: Dims, st: ImageState, b: Dims)
    requires st.Valid()
    ensures forall i :: 0 <= i < |LayerCmds(canvas, st, b)| ==>
              KeepsStack(LayerCmds(canvas, st, b)[i]) && !LayerCmds(canvas, st, b)[i].FillBlack?
  {
  }

  /** Between its save and its restore, a frame neither saves nor restores. */
  lemma FrameBodyKeepsStack(canvas: Dims, st: ImageState, b: Dims)
    requires st.Valid()
    ensures var body := [FillBlack(canvas), Scale(st.zoomLevel, st.zoomLevel)] + LayerCmds(canvas, st, b);
            forall i :: 0 <= i < |body| ==> KeepsStack(body[i])
  {
    var l := LayerCmds(canvas, st, b);
    var body := [FillBlack(canvas), Scale(st.zoomLevel, st.zoomLevel)] + l;
    LayerCmdsKeepStack(canvas, st, b);
    forall i | 2 <= i < |body| ensures KeepsStack(body[i]) {
      assert body[i] == l[i - 2];
    }
  }

  /** A full frame restores whatever transform and saved stack the context had before it. */
  lemma FrameRestores(canvas: Dims, st: ImageState, b: Dims, c: Ctx)
    requires st.Valid()
    ensures Final(Frame(canvas, st, b), c) == c
  {
    var head := [FillBlack(canvas), Scale(st.zoomLevel, st.zoomLevel)];
    var body := head + LayerCmds(canvas, st, b);
    assert [Save, FillBlack(canvas), Scale(st.zoomLevel, st.zoomLevel)] == [Save] + head;
    assert Frame(canvas, st, b) == [Save] + body + [Restore];
    var c1 := Ctx(c.scale, c.saved + [c.scale]);
    SingleCommand(Save, c);
    PlacementsAppend([Save], body, c);
    PlacementsAppend([Save] + body, [Restore], c);
    FrameBodyKeepsStack(canvas, st, b);
    KeepsStackFinal(body, c1);
    var cl := Final(body, c1);
    SingleCommand(Restore, cl);
    assert cl.saved == c.saved + [c.scale];
    assert cl.saved[..|cl.saved| - 1] == c.saved;
  }

  lemma BasePlacementAligned(canvas: Dims, st: ImageState, b: Dims, l: Layer, p: Point)
    requires st.Valid() && l != Segmentation
    ensures var pl := Placement(l, Point(st.zoomLevel, st.zoomLevel), DrawOrigin(canvas, st.zoomLevel, st.offset, b));
            PlacedAt(pl, p) == ImageToScreen(canvas, st.zoomLevel, st.offset, b, BasePixel(l, st, b, p))
  {
  }

  /** The expected placements show the visible layers. */
  lemma ExpectedLayers(canvas: Dims, st: ImageState, b: Dims)
    requires st.Valid()
    ensures Layers(ExpectedPlacements(canvas, st, b)) == VisibleLayers(st)
  {
    var ps := ExpectedPlacements(canvas, st, b);
    var ls := VisibleLayers(st);
    assert |ps| == |ls|;
  }

  /** The expected placements are aligned. */
  lemma ExpectedAligned(canvas: Dims, st: ImageState, b: Dims)
    requires st.Valid()
    ensures Aligned(ExpectedPlacements(canvas, st, b), canvas, st, b)
  {
    var s := st.zoomLevel;
    var o := DrawOrigin(canvas, s, st.offset, b);
    var basePl := if st.showBase then [Placement(Processed, Point(s, s), o)] else [];
    var annPl := if st.showAnnotate then [Placement(Annotation, Point(s, s), o)] else [];
    var segPl := SegExpected(canvas, st, b);
    assert ExpectedPlacements(canvas, st, b) == basePl + annPl + segPl;
    forall pl, p | pl in basePl + annPl + segPl
      ensures PlacedAt(pl, p) == ImageToScreen(canvas, s, st.offset, b, BasePixel(pl.layer, st, b, p))
    {
      if pl in segPl {
        SegPlacementAligned(canvas, st, b, p);
      } else {
        BasePlacementAligned(canvas, st, b, pl.layer, p);
      }
    }
  }

  /**
   * `draw`'s guards: nothing while redraws are blocked, a black fill only
   * when no image is set, nothing while the base image is loading, and
   * otherwise a frame that clears first and leaves the context's transform
   * as it found it, whatever that was.
   */
  lemma DrawGuards(v: View)
    requires v.Valid()
    ensures v.blocked ==> Render(v) == []
    ensures !v.blocked && v.image.None? ==> Render(v) == [FillBlack(v.canvas)]
    ensures !v.blocked && v.image.Some? && v.image.value.base.None? ==> Render(v) == []
    ensures v.PaintsLayers() ==>
              var r := Render(v);
              |r| >= 4 && r[0] == Save && r[1] == FillBlack(v.canvas) &&
              r[2] == Scale(v.image.value.zoomLevel, v.image.value.zoomLevel) &&
              r[|r| - 1] == Restore && forall c :: Final(r, c) == c
  {
    if v.PaintsLayers() {
      forall c {
        FrameRestores(v.canvas, v.image.value, v.image.value.base.value, c);
      }
    }
  }

  /**
   * Layer order: a painted frame draws the processed base, the annotation
   * and the segmentation, in that order, each exactly when its display flag
   * is set (the segmentation also needs its image to have loaded).
   */
  lemma LayerOrder(v: View)
    requires v.Valid() && v.PaintsLayers()
    ensures Layers(Placements(Render(v), Identity)) == VisibleLayers(v.image.value)
  {
    FramePlacements(v.canvas, v.image.value, v.image.value.base.value);
    ExpectedLayers(v.canvas, v.image.value, v.image.value.base.value);
  }

  /**
   * The layers line up: in a painted frame every layer pixel lands on the
   * screen exactly where the base-image pixel it stands for lands, so the
   * base, annotation and (resampled) segmentation layers coincide.
   */
  lemma LayersCoincide(v: View, pl: Placement, p: Point)
    requires v.Valid() && v.PaintsLayers()
    requires pl in Placements(Render(v), Identity)
    ensures var st := v.image.value;
            PlacedAt(pl, p) == ImageToScreen(v.canvas, st.zoomLevel, st.offset, st.base.value,
                                             BasePixel(pl.layer, st, st.base.value, p))
  {
    FramePlacements(v.canvas, v.image.value, v.image.value.base.value);
    ExpectedAligned(v.canvas, v.image.value, v.image.value.base.value);
  }

  /**
   * A segmentation raster at half the base resolution in both directions is
   * drawn at twice the base layer's scale.
   */
  lemma HalfResolutionSegmentation(v: View, pl: Placement)
    requires v.Valid() && v.PaintsLayers()
    requires v.image.value.seg.Some?
    requires v.image.value.base.value.width == 2 * v.image.value.seg.value.width
    requires v.image.value.base.value.height == 2 * v.image.value.seg.value.height
    requires pl in Placements(Render(v), Identity) && pl.layer == Segmentation
    ensures pl.scale == Point(2.0 * v.image.value.zoomLevel, 2.0 * v.image.value.zoomLevel)
  {
    var st := v.image.value;
    var b := st.base.value;
    var seg := st.seg.value;
    FramePlacements(v.canvas, st, b);
    var s := st.zoomLevel;
    var o := DrawOrigin(v.canvas, s, st.offset, b);
    assert pl !in (if st.showBase then [Placement(Processed, Point(s, s), o)] else []);
    assert pl !in (if st.showAnnotate then [Placement(Annotation, Point(s, s), o)] else []);
    var e := SegExpected(v.canvas, st, b);
    assert pl in e;
    HalfResolutionScale(b, seg);
    assert pl == e[0];
  }

  lemma HalfResolutionScale(b: Dims, seg: Dims)
    requires b.width == 2 * seg.width && b.height == 2 * seg.height
    ensures SegScale(b, seg) == Point(2.0, 2.0)
  {
    assert b.W() == 2.0 * seg.W() && b.H() == 2.0 * seg.H();
    assert b.W() / seg.W() == 2.0;
    assert b.H() / seg.H() == 2.0;
  }
}
