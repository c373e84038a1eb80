/**
 * The state of a fundus image as the canvas sees it. The image class itself
 * (FundusImage.js) is not part of this model: its fields are the ones the
 * canvas reads, and the effects of its setters below are assumptions about it.
 */
module ImageModel {
  import opened Options
  import opened Geometry

  /** A snapshot of one fundus image's viewing state. */
  datatype ImageState = ImageState(
    zoomLevel: real,
    offset: Point,
    window: real,
    level: real,
    showBase: bool,
    showAnnotate: bool,
    showSegment: bool,
    grayscale: bool,
    base: Option<Dims>,  // None until the base image has loaded
    seg: Option<Dims>)   // None until (unless) a segmentation image has loaded
  {
    /** The invariant the image keeps: the zoom level is positive. */
    predicate Valid() { zoomLevel > 0.0 }

    /** Assumed effect of `move(dx, dy)`: the offset is translated. */
    function Moved(dx: real, dy: real): ImageState { this.(offset := Point(offset.x + dx, offset.y + dy)) }

    /** Assumed effect of `zoom(f)`: the zoom level is multiplied by f. */
    function Zoomed(f: real): ImageState { this.(zoomLevel := zoomLevel * f) }

    /** Assumed effect of `setZoom(v)`. */
    function WithZoom(v: real): ImageState { this.(zoomLevel := v) }

    /** Assumed effect of `setPosition(x, y)`. */
    function WithPosition(x: real, y: real): ImageState { this.(offset := Point(x, y)) }

    /** Assumed effect of `setWindowLevel(w, l)`. */
    function WithWindowLevel(w: real, l: real): ImageState { this.(window := w, level := l) }

    /** Assumed effect of `setGrayscale(g)`. */
    function WithGrayscale(g: bool): ImageState { this.(grayscale := g) }
  }

  /**
   * The change notifications the canvas subscribes to in `setImage`.
   * `onBaseLoad` is handled separately (it resizes the off-screen surfaces).
   */
  datatype ImageEvent = SegLoaded | PositionChanged | ZoomChanged | DisplayChanged | DataChanged

  /**
   * Only `dataChanged` makes the canvas re-run the pixel processing of the
   * base layer (`drawCached`) before redrawing; every subscribed event redraws.
   */
  predicate Reprocesses(ev: ImageEvent) { ev == DataChanged }
}
