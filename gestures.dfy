/**
 * The input adapter: which tool a mouse move runs, and what the touch-drag
 * accumulator (`last_mx`, `last_my`) forwards over a gesture.
 */
module Gestures {
  import opened Options
  import opened Geometry
  import opened ImageModel
  import opened Tools

  /**
   * The tool `_onMouseMove` dispatches to for mouse-button flags `buttons`
   * (index = `e.which - 1`): the active tool while button 0 is down,
   * otherwise the "pan override" while button 1 is down, and none else.
   * A move dispatches exactly when button 0 or 1 is down, and then always
   * to the active tool: since the cursor's code is 0, the pan override
   * selects nothing different.
   */
  function MouseTool(buttons: seq<bool>, active: int): (r: Option<int>)
    requires |buttons| == 3
    ensures r.Some? <==> buttons[0] || buttons[1]
    ensures r.Some? ==> r.value == active
  {
    if buttons[0] then Some(EffectiveTool(None, active))
    else if buttons[1] then Some(EffectiveTool(Some(Cursor), active))
    else None
  }

  /**
   * The deltas forwarded by successive drag events whose cumulative gesture
   * displacements are `deltas`, starting from the accumulator `last`: each
   * forwards the previous displacement minus the current one.
   */
  function DragMoves(last: Point, deltas: seq<Point>): (ms: seq<Point>)
    ensures |ms| == |deltas|
    ensures |ms| > 0 ==> ms[0] == Point(last.x - deltas[0].x, last.y - deltas[0].y)
    ensures forall i :: 0 < i < |ms| ==> ms[i] == Point(deltas[i - 1].x - deltas[i].x, deltas[i - 1].y - deltas[i].y)
    decreases deltas
  {
    if deltas == [] then []
    else [Point(last.x - deltas[0].x, last.y - deltas[0].y)] + DragMoves(deltas[0], deltas[1..])
  }

  function Sum(ms: seq<Point>): Point
  {
    if ms == [] then Point(0.0, 0.0) else var r := Sum(ms[1..]); Point(ms[0].x + r.x, ms[0].y + r.y)
  }

  /**
   * The forwarded deltas telescope: their sum is the starting accumulator
   * minus the latest cumulative displacement; after a `touch` (accumulator
   * zero) it is minus the latest displacement.
   */
  lemma {:induction false} DragsTelescope(last: Point, deltas: seq<Point>)
    requires deltas != []
    decreases deltas
    ensures Sum(DragMoves(last, deltas)) == Point(last.x - deltas[|deltas| - 1].x, last.y - deltas[|deltas| - 1].y)
  {
    if |deltas| > 1 {
      DragsTelescope(deltas[0], deltas[1..]);
      assert deltas[1..][|deltas| - 2] == deltas[|deltas| - 1];
    }
  }

  /** The image after a sequence of cursor-tool moves. */
  function CursorPans(st: ImageState, ms: seq<Point>): (r: ImageState)
    requires st.Valid()
    ensures r.zoomLevel == st.zoomLevel
    decreases ms
  {
    if ms == [] then st else CursorPans(CursorMove(st, ms[0].x, ms[0].y), ms[1..])
  }

  /**
   * A whole touch drag with the cursor tool pans the image by the latest
   * cumulative displacement over the zoom level, whatever the intermediate
   * drag events were.
   */
  lemma {:induction false} DragPanTotal(st: ImageState, last: Point, deltas: seq<Point>)
    requires st.Valid() && deltas != []
    decreases deltas
    ensures var d := deltas[|deltas| - 1];
            var r := CursorPans(st, DragMoves(last, deltas));
            r.offset == Point(st.offset.x + (d.x - last.x) / st.zoomLevel, st.offset.y + (d.y - last.y) / st.zoomLevel)
  {
    var s := st.zoomLevel;
    var m := Point(last.x - deltas[0].x, last.y - deltas[0].y);
    var st1 := CursorMove(st, m.x, m.y);
    var d := deltas[|deltas| - 1];
    assert DragMoves(last, deltas)[0] == m && DragMoves(last, deltas)[1..] == DragMoves(deltas[0], deltas[1..]);
    if |deltas| == 1 {
      assert DragMoves(deltas[0], deltas[1..]) == [];
      PanStep(st.offset.x, last.x, d.x, d.x, s);
      PanStep(st.offset.y, last.y, d.y, d.y, s);
    } else {
      DragPanTotal(st1, deltas[0], deltas[1..]);
      assert deltas[1..][|deltas| - 2] == d;
      PanStep(st.offset.x, last.x, deltas[0].x, d.x, s);
      PanStep(st.offset.y, last.y, deltas[0].y, d.y, s);
    }
  }

  /** One axis of a pan step followed by the rest of the drag. */
  lemma PanStep(a: real, l: real, d0: real, d: real, s: real)
    requires s > 0.0
    ensures a + -((l - d0) / s) + (d - d0) / s == a + (d - l) / s
  {
    assert -((l - d0) / s) == (d0 - l) / s;
    assert (d0 - l) / s + (d - d0) / s == (d - l) / s;
  }
}
