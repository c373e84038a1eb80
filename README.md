# Fundus image canvas: a Dafny model

This project models the `Canvas` widget of the fundus-image web viewer
(`WebServer/FundusWeb/Scripts/Canvas.js`). The widget shows one fundus image
on an HTML canvas. It composites three layers: the processed base image, a
freehand annotation overlay and a segmentation raster that may have another
resolution. It maps mouse, touch and keyboard input to pan, brush, zoom and
window/level tools. It also offers zoom buttons, fit-to-page, and an undoable
"set image" action.

Modules:

- `Geometry` (`geometry.dfy`) holds the pure viewport arithmetic over `real`. It covers the draw origin, the segmentation scale and origin, the brush's screen-to-image map, the fit-to-page scale and the zoom-button factor.
- `ImageModel` (`image_model.dfy`) holds `ImageState`, a value snapshot of a fundus image, and the change events the canvas listens to.
- `Compositor` (`compositor.dfy`) models `draw`. `Render` gives the list of 2-D context commands that `draw` issues. `Placements` is a small interpreter of those commands: for each drawn layer it says which screen point every pixel of that layer lands on.
- `Tools` (`tools.dfy`) holds `ApplyTool`, the effect of `_onMove` for each tool code.
- `Gestures` (`gestures.dfy`) says which tool a mouse move dispatches to, and what successive touch `drag` events forward.
- `Widget` (`canvas.dfy`) holds the three objects with mutable fields: `FundusImage`, `Canvas` and `SetImageAction`. Each handler is a method whose `ensures` ties the new state to the functions above.
- `Scenarios` (`scenarios.dfy`) holds sequences of handler calls: zoom round trip, grayscale toggled twice, undo then redo, and the 800x600 fit example.

## Assumptions about collaborators

`FundusImage.js` is not part of this model. Its setters are given these
effects:

- `move(dx, dy)` adds to the offset.
- `zoom(f)` multiplies the zoom level by `f`.
- `setZoom(v)` sets the zoom level.
- `setPosition(x, y)` sets the offset.
- `setWindowLevel(w, l)` sets both values.
- `setGrayscale(g)` sets the flag.

Each setter is also assumed to fire one notification:

- `move` and `setPosition` fire `positionChanged`.
- `zoom` and `setZoom` fire `zoomChanged`.
- `setWindowLevel` and `setGrayscale` fire `dataChanged`.

The canvas methods that call a setter then run the handler that `setImage` bound for that event: a redraw, preceded by `drawCached` for `dataChanged`.

Other modelling choices:

- The notifications are direct calls (`Canvas.Notify`), not jQuery event dispatch.
- `Canvas.frames` records what every `draw` call painted, one entry per call that painted anything.
- `Canvas.recaches` counts `drawCached` calls. The pixel processing itself is not modelled.
- The gesture callbacks reach the canvas through the page-global `WebPage.canvas`. Here they are methods of the canvas itself.
- `SetImageAction.Undo` and `SetImageAction.Redo` take the canvas as a parameter, again instead of the global.
- A JavaScript exception inside a handler is modelled as a fault. This happens when the brush reads the width of a base image that has not loaded. A faulting handler changes nothing, and the statements after the call are skipped. So the mouse position or the drag accumulator is not updated after a fault.

In these places the code does not do what its names suggest; the model follows the code:

- The "pan override" on mouse button index 1 does not force the pan tool. `_onMove` picks its tool with `tool ? tool : this._tool`, and `CanvasTool.cursor` is `0`, which is falsy. So the override runs the active tool (`Tools.CursorRequestIsIgnored`, `Gestures.MouseTool`).
- A brush stroke calls `draw` only. It does not re-run the pixel processing.
- Tool code 3 (`text`) exists and does nothing, like any unknown code.
- Loading a base image resizes both off-screen canvases. That clears the annotation overlay, so `setImage` with a loaded image, and `onBaseLoad`, discard every brush stroke.

## Model

| member | source | states |
|---|---|---|
| Geometry.DrawOrigin | WebServer/FundusWeb/Scripts/Canvas.js:188-194 | the origin of the base and annotation layers puts the image centre at screen point canvas/2 + zoom * offset, per axis |
| Geometry.ImageToScreen | WebServer/FundusWeb/Scripts/Canvas.js:188-202 | base pixel p is shown at canvas/2 + zoom * (p - (base/2 - offset)) on each axis, the closed form of draw's scale-then-translate |
| Geometry.CentreIsFixed | WebServer/FundusWeb/Scripts/Canvas.js:188-194 | the image point shown at the canvas centre depends on the offset only, at every zoom level |
| Geometry.SegScale | WebServer/FundusWeb/Scripts/Canvas.js:205-206 | the segmentation scale is positive and scales the segmentation's size to the base image's size on each axis |
| Geometry.SegOrigin | WebServer/FundusWeb/Scripts/Canvas.js:207-208 | the segmentation origin times the segmentation scale equals the base layer's origin, on each axis |
| Geometry.BrushPoint | WebServer/FundusWeb/Scripts/Canvas.js:357-358 | the brush's image point is the pixel that the draw map, taken at the canvas's CSS size, shows under the pointer minus the fixed (1, 26) canvas corner; when the CSS size equals the pixel size that is the pixel draw shows there |
| Geometry.DrawInvertsBrush | WebServer/FundusWeb/Scripts/Canvas.js:357-358 | conversely, the brush recovers every image pixel from the screen point where the draw map shows it |
| Geometry.FitScale | WebServer/FundusWeb/Scripts/Canvas.js:138-143 | the fit scale is positive, keeps both image dimensions within the canvas, and matches the canvas exactly in at least one dimension |
| Geometry.FitScaleIsLargest | WebServer/FundusWeb/Scripts/Canvas.js:143 | no larger zoom keeps the whole image within the canvas |
| Geometry.FitInscribes | WebServer/FundusWeb/Scripts/Canvas.js:138-150 | after fitting (offset 0, fit zoom) the image's corners are inside the canvas, the image is centred, and it spans the full width or the full height |
| Geometry.FitScaleExample | WebServer/FundusWeb/Scripts/Canvas.js:143 | an 800x600 image in a 400x300 canvas fits at zoom 0.5 |
| Geometry.ZoomStepFactor | WebServer/FundusWeb/Scripts/Canvas.js:128-129 | the zoom-button factor is positive: steps for steps > 0, and the reciprocal of abs(steps) for steps < 0 |
| Geometry.ZoomStepsInverse | WebServer/FundusWeb/Scripts/Canvas.js:125-131 | the factors for n and -n multiply to exactly 1 |
| Compositor.Render | WebServer/FundusWeb/Scripts/Canvas.js:170-212 | the commands of one draw (built from Frame, LayerCmds and SegCmds) are empty exactly while redraws are blocked or the base image is loading |
| Compositor.LayerCmds | WebServer/FundusWeb/Scripts/Canvas.js:202-210 | draw issues one command per visible layer, plus one extra scale for a shown, loaded segmentation |
| Compositor.SegCmds | WebServer/FundusWeb/Scripts/Canvas.js:204-211 | the segmentation commands are present exactly when the layer is shown and its raster has loaded, and then are a scale that stretches the segmentation to the base image's size followed by the segmentation layer |
| Compositor.LayerCmdsKeepStack | WebServer/FundusWeb/Scripts/Canvas.js:202-210 | no layer command saves, restores or clears |
| Compositor.FrameRestores | WebServer/FundusWeb/Scripts/Canvas.js:197-212 | a full frame returns the context to exactly the transform and saved stack it started with |
| Compositor.DrawGuards | WebServer/FundusWeb/Scripts/Canvas.js:170-201 | draw paints nothing while blocked; only a black fill without an image; nothing while the base image loads; otherwise save, fill, scale(zoom), ..., restore, which leaves any starting context's transform and saved stack as they were |
| Compositor.FramePlacements | WebServer/FundusWeb/Scripts/Canvas.js:197-212 | interpreting a full frame gives one placement per visible layer, and ends with the identity transform |
| Compositor.LayerOrder | WebServer/FundusWeb/Scripts/Canvas.js:202-211 | a painted frame draws processed base, annotation and segmentation in that order, each exactly when its flag is set; the segmentation also needs its raster |
| Compositor.LayersCoincide | WebServer/FundusWeb/Scripts/Canvas.js:188-210 | every pixel of every drawn layer lands where the base pixel it stands for lands (a segmentation pixel stands for the base pixel scaled by the resolution ratio) |
| Compositor.HalfResolutionSegmentation | WebServer/FundusWeb/Scripts/Canvas.js:205-210 | a segmentation at half the base resolution is drawn at twice the base layer's scale |
| Tools.ApplyTool | WebServer/FundusWeb/Scripts/Canvas.js:343-371 | a move faults exactly for the brush without a base image; does nothing exactly for tool codes other than 0, 1, 2 and 4, the text tool (3) among them; strokes exactly for the brush with a base image; an image update keeps the zoom positive and the rasters and display flags unchanged |
| Tools.EffectiveTool | WebServer/FundusWeb/Scripts/Canvas.js:344 | an explicitly requested tool runs unless it is absent or the cursor (code 0, falsy), in which case the active tool runs |
| Tools.CursorMove | WebServer/FundusWeb/Scripts/Canvas.js:346-350 | the cursor tool changes only the offset, by minus the delta over the zoom level on each axis |
| Tools.BrushStroke | WebServer/FundusWeb/Scripts/Canvas.js:352-359 | the stroke starts at the brush point under the pointer and spans the delta divided by the zoom level |
| Tools.CursorRequestIsIgnored | WebServer/FundusWeb/Scripts/Canvas.js:344 | requesting tool 0 (cursor) explicitly runs the active tool instead |
| Tools.CursorDragFollowsPointer | WebServer/FundusWeb/Scripts/Canvas.js:346-351 | the cursor tool keeps the zoom, window and level and moves every image pixel on screen by minus the delta, so the image follows the pointer |
| Tools.CursorMoveInverse | WebServer/FundusWeb/Scripts/Canvas.js:346-351 | at fixed zoom, a cursor move by (dx, dy) then by (-dx, -dy) restores the image state exactly |
| Tools.ZoomToolKeepsCentre | WebServer/FundusWeb/Scripts/Canvas.js:362-364 | the zoom tool multiplies the zoom by its factor, keeps the offset, window and level, and keeps the image point at the canvas centre in place |
| Tools.RangeToolAdjustsWindowLevel | WebServer/FundusWeb/Scripts/Canvas.js:366-370 | the range tool adds mx/500 to window and my/500 to level, leaves zoom and offset alone, and fires a data change |
| Tools.BrushStrokeJoinsPointerPositions | WebServer/FundusWeb/Scripts/Canvas.js:352-360 | when the CSS size equals the canvas size, the stroke starts at the pixel under the pointer and ends at the pixel (mx, my) screen pixels back, under the previous position |
| Tools.BrushExample | WebServer/FundusWeb/Scripts/Canvas.js:359 | a brush delta of (10, 0) at zoom 2 gives a stroke 5 image pixels long to the right |
| Gestures.MouseTool | WebServer/FundusWeb/Scripts/Canvas.js:332-337 | a mouse move dispatches exactly when button index 0 or 1 is down, and then always to the active tool |
| Gestures.DragMoves | WebServer/FundusWeb/Scripts/Canvas.js:55-61 | successive drags forward the previous accumulator minus the current cumulative displacement: the first from the starting accumulator, each later one from the displacement before it |
| Gestures.DragsTelescope | WebServer/FundusWeb/Scripts/Canvas.js:55-61 | the deltas forwarded by successive drags sum to the starting accumulator minus the latest cumulative displacement (after a touch, minus that displacement) |
| Gestures.DragPanTotal | WebServer/FundusWeb/Scripts/Canvas.js:55-61 | a whole drag with the cursor tool pans by the latest cumulative displacement over the zoom, whatever the intermediate events were |
| Widget.FundusImage.Move | WebServer/FundusWeb/Scripts/Canvas.js:350 | assumed effect of move: the offset is translated |
| Widget.FundusImage.Zoom | WebServer/FundusWeb/Scripts/Canvas.js:130 | assumed effect of zoom: the zoom level is multiplied by the factor |
| Widget.FundusImage.SetZoom | WebServer/FundusWeb/Scripts/Canvas.js:147 | assumed effect of setZoom: the zoom level is set |
| Widget.FundusImage.SetPosition | WebServer/FundusWeb/Scripts/Canvas.js:146 | assumed effect of setPosition: the offset is set |
| Widget.FundusImage.SetWindowLevel | WebServer/FundusWeb/Scripts/Canvas.js:369 | assumed effect of setWindowLevel: window and level are set |
| Widget.FundusImage.SetGrayscale | WebServer/FundusWeb/Scripts/Canvas.js:392 | assumed effect of setGrayscale: the flag is set |
| Widget.FundusImage.LoadBase | WebServer/FundusWeb/Scripts/Canvas.js:253-254 | the base raster arriving (the event behind onBaseLoad) sets the base dimensions only |
| Widget.FundusImage.LoadSeg | WebServer/FundusWeb/Scripts/Canvas.js:236 | the segmentation raster arriving (the event behind onSegLoad) sets the segmentation dimensions only |
| Widget.Canvas.constructor | WebServer/FundusWeb/Scripts/Canvas.js:112-116 | a new canvas has no image, the cursor tool, three released buttons, position (0, 0), 300x150 off-screen surfaces and nothing painted |
| Widget.Canvas.Draw | WebServer/FundusWeb/Scripts/Canvas.js:167-213 | draw appends to the visible canvas exactly the commands that Render gives for the current state, if there are any |
| Widget.Canvas.Notify | WebServer/FundusWeb/Scripts/Canvas.js:236-242 | every subscribed image event redraws once, and dataChanged reprocesses the base layer first |
| Widget.Canvas.InitialDraw | WebServer/FundusWeb/Scripts/Canvas.js:245-252 | both off-screen surfaces take the base image's size, the annotations are cleared, then one reprocess and one painted frame follow |
| Widget.Canvas.SetTool | WebServer/FundusWeb/Scripts/Canvas.js:121-123 | the active tool becomes the given code |
| Widget.Canvas.SetImage | WebServer/FundusWeb/Scripts/Canvas.js:215-258 | the image is replaced; a loaded image gets the initial draw; null, or an image still loading, only triggers a draw |
| Widget.Canvas.OnBaseLoad | WebServer/FundusWeb/Scripts/Canvas.js:244-254 | when the current image's base arrives, the surfaces are sized to it, the annotations are cleared, and one frame is painted |
| Widget.Canvas.OnSegLoad | WebServer/FundusWeb/Scripts/Canvas.js:236 | when the segmentation arrives, the view redraws |
| Widget.Canvas.Zoom | WebServer/FundusWeb/Scripts/Canvas.js:125-131 | the zoom is multiplied by ZoomStepFactor(steps) and one redraw follows; nothing happens without an image |
| Widget.Canvas.FitToPage | WebServer/FundusWeb/Scripts/Canvas.js:133-151 | with a loaded image: offset (0, 0), zoom FitScale, redraws unblocked, and exactly one frame painted; otherwise nothing is painted or reprocessed and the image's state is kept |
| Widget.Canvas.MouseDown | WebServer/FundusWeb/Scripts/Canvas.js:25-28 | the position is recorded and button which-1 is marked down |
| Widget.Canvas.MouseUp | WebServer/FundusWeb/Scripts/Canvas.js:29-31 | button which-1 is marked up |
| Widget.Canvas.OnMove | WebServer/FundusWeb/Scripts/Canvas.js:343-371 | the canvas and image change exactly as the ApplyTool effect of the effective tool says, and the method reports a fault exactly when that effect faults |
| Widget.Canvas.PanTool | WebServer/FundusWeb/Scripts/Canvas.js:346-351 | the cursor case performs the CursorMove update and its positionChanged redraw |
| Widget.Canvas.BrushTool | WebServer/FundusWeb/Scripts/Canvas.js:352-361 | the brush case appends the BrushStroke segment to the annotations and redraws |
| Widget.Canvas.ZoomToolMove | WebServer/FundusWeb/Scripts/Canvas.js:362-365 | the zoom case multiplies the zoom by the factor and redraws |
| Widget.Canvas.RangeTool | WebServer/FundusWeb/Scripts/Canvas.js:366-370 | the range case adds a 500th of the delta to window and level, then reprocesses and redraws |
| Widget.Canvas.OnMouseMove | WebServer/FundusWeb/Scripts/Canvas.js:322-341 | without an image nothing changes: not the position, the annotations, the frames or the reprocess count; otherwise the MouseTool choice with delta (last - current) is applied, and the position is recorded unless the handler faulted |
| Widget.Canvas.Touch | WebServer/FundusWeb/Scripts/Canvas.js:49-53 | a touch snapshots the zoom and zeroes the drag accumulator (when an image is set) |
| Widget.Canvas.Drag | WebServer/FundusWeb/Scripts/Canvas.js:55-61 | a drag applies the active tool to (accumulator - displacement), then stores the displacement unless the handler faulted; before any touch it changes nothing: not the gesture, the image, the annotations, the frames or the reprocess count |
| Widget.Canvas.Transform | WebServer/FundusWeb/Scripts/Canvas.js:63-66 | a pinch sets the zoom to the touch snapshot times the gesture scale, and leaves the snapshot unchanged, so the result does not depend on earlier pinches; before any touch the image and the frames are kept |
| Widget.Canvas.KeyPress | WebServer/FundusWeb/Scripts/Canvas.js:386-394 | the key with charCode 103 toggles grayscale on the current image, then reprocesses and redraws; any other key keeps the image, the frames and the reprocess count |
| Widget.SetImageAction.constructor | WebServer/FundusWeb/Scripts/Canvas.js:411-414 | the action records the previous and the new image |
| Widget.SetImageAction.Undo | WebServer/FundusWeb/Scripts/Canvas.js:422-424 | undo is setImage of the previous image: it is shown again, a loaded one resizes the surfaces, clears the annotations, reprocesses and paints one frame, otherwise one draw follows; tool, buttons, pointer and gesture are untouched |
| Widget.SetImageAction.Redo | WebServer/FundusWeb/Scripts/Canvas.js:426-428 | redo is setImage of the newer image, with the same whole-canvas effect as undo |
| Scenarios.ZoomRoundTrip | WebServer/FundusWeb/Scripts/Canvas.js:125-131 | zoom(n) then zoom(-n) restores the image state exactly |
| Scenarios.GrayscaleTwice | WebServer/FundusWeb/Scripts/Canvas.js:391-393 | pressing 'g' twice restores the image state |
| Scenarios.ZoomButtonsRoundTrip | WebServer/FundusWeb/Scripts/Canvas.js:101-106 | the zoom-in button (zoom(1.1)) followed by the zoom-out button (zoom(1/1.1)) restores the image state exactly |
| Scenarios.UndoThenRedo | WebServer/FundusWeb/Scripts/Canvas.js:411-428 | undo then redo shows the swapped-to image, neither image object changes, and the tool and pointer state are kept |
| Scenarios.FitExample | WebServer/FundusWeb/Scripts/Canvas.js:133-151 | fitting an 800x600 image into a 400x300 canvas gives zoom 0.5 and offset (0, 0) |

## Left out

- `Segmentation/FundusSegment/Source/Common.h` holds only include directives, a typedef and a guard. It has no logic to model.
- DOM and jQuery wiring is UI plumbing and is not modelled. This covers the display and quick-tool buttons (Canvas.js:76-106), event binding (23-31, 109), the Hammer and Modernizr setup (37-46), `WebPage.toolBar.populate`, and the button refresh in `setImage` (219, 231-233).
- The display toggles (`showBase`, `showSegmented`, `showAnnotated`) are called from the buttons. Only the canvas's reaction to `displayChanged` (a redraw, `Canvas.Notify`) is modelled.
- `setImage` unbinds and binds handlers on the image (221, 236-242, 254). This is modelled as the handlers being called directly.
- `setImage`'s `blockHistory` argument is not used by the code shown, so it is dropped.
- `download`, `print` and `_getDataUrl` (261-320) are browser download, popup and PNG encoding. They are not modelled.
- `getImage` is the `image` field.
- `drawCached` runs the pixel processing of an external library (163). It is counted (`recaches`) but not computed.
- `_drawLine` rasterisation (374-384) is not modelled. A stroke is the segment it would draw; its width (5) and colour (white) are not recorded.
- `hold` opens a context menu through the page (68-69). It is not modelled.
- The zoom tool's `Math.pow(2, my / 300)` is transcendental. It is the caller-supplied positive `zoomFactor` of `Tools.ApplyTool`, `Widget.Canvas.OnMove`, `Widget.Canvas.ZoomToolMove`, `Widget.Canvas.OnMouseMove` and `Widget.Canvas.Drag`.
- IEEE floating point is replaced by `real`, so rounding, `NaN` and `Infinity` are not modelled. The inverse-move and inverse-zoom properties hold exactly only over reals.
- Image and canvas sizes are positive integers. A zero-sized image or canvas, where the source divides by zero, is not modelled.
- Widget.Canvas.Zoom: requires steps != 0. For steps = 0 the source computes 1/0 = Infinity and passes it to the image's zoom. The only callers pass 1.1 and 1/1.1.
- Widget.Canvas.Drag: `last_mx`, `last_my` and `last_scale` are undefined in the source until the first `touch`, and a `drag` before it computes with `NaN`. The model does nothing then.
- Widget.Canvas.Transform: a `transform` before the first `touch` computes with `NaN` in the source. The model does nothing then. It also requires a positive gesture scale, while a scale of 0 in the source sets the zoom to 0, which the rest of the model keeps positive.
- Widget.Canvas.MouseDown: a button code outside 1..3 sets an array slot the dispatch never reads. The model keeps only the three slots, so it leaves them unchanged.
- Widget.Canvas.MouseUp: likewise, a button code outside 1..3 clears an array slot the dispatch never reads, and the model leaves the three slots unchanged.
- Widget.Canvas.KeyPress: with no image, pressing 'g' throws in the source. The model leaves everything as it was, which is the same observable outcome.
- `ctx.rect` without `beginPath` makes the path grow across draws. Paths are not modelled; a fill covers the canvas either way.
- The canvas element's size and CSS size are fixed for the canvas's lifetime. The brush point is the exact inverse of what `draw` shows only when the two are equal (`Geometry.BrushPoint`, `Tools.BrushStrokeJoinsPointerPositions`).
