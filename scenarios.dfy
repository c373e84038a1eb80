/**
 * Sequences of handler calls on one canvas, and what the handlers'
 * contracts together with the model's lemmas guarantee about them.
 */
module Scenarios {
  import opened Options
  import opened Geometry
  import opened ImageModel
  import opened Widget

  /** Zoom buttons are inverses: `zoom(n)` then `zoom(-n)` restores the image exactly. */
  method ZoomRoundTrip(c: Canvas, n: real)
    requires c.Valid() && n != 0.0
    modifies c`frames, c`recaches, c.image
    ensures c.Valid() && c.image == old(c.image)
    ensures c.image != null ==> c.image.State() == old(c.image.State())
  {
    c.Zoom(n);
    c.Zoom(-n);
    if c.image != null {
      ZoomStepsInverse(n);
      var z := old(c.image.zoomLevel);
      assert c.image.zoomLevel == z * ZoomStepFactor(n) * ZoomStepFactor(-n);
      assert z * ZoomStepFactor(n) * ZoomStepFactor(-n) == z * (ZoomStepFactor(n) * ZoomStepFactor(-n));
    }
  }

  /** The zoom-in and zoom-out buttons, `zoom(1.1)` and `zoom(1/1.1)`, undo each other exactly. */
  method ZoomButtonsRoundTrip(c: Canvas)
    requires c.Valid()
    modifies c`frames, c`recaches, c.image
    ensures c.Valid() && c.image == old(c.image)
    ensures c.image != null ==> c.image.State() == old(c.image.State())
  {
    c.Zoom(1.1);
    c.Zoom(1.0 / 1.1);
    if c.image != null {
      var z := old(c.image.zoomLevel);
      assert ZoomStepFactor(1.1) == 1.1 && ZoomStepFactor(1.0 / 1.1) == 1.0 / 1.1;
      assert c.image.zoomLevel == z * 1.1 * (1.0 / 1.1);
    }
  }

  /** Pressing 'g' twice restores the grayscale flag and everything else about the image. */
  method GrayscaleTwice(c: Canvas)
    requires c.Valid()
    modifies c`frames, c`recaches, c.image
    ensures c.Valid() && c.image == old(c.image)
    ensures c.image != null ==> c.image.State() == old(c.image.State())
  {
    c.KeyPress(GrayscaleKey);
    c.KeyPress(GrayscaleKey);
  }

  /**
   * `undo` after a recorded image swap shows the previous image, and `redo`
   * the swapped-to one; neither changes the image objects themselves.
   */
  method UndoThenRedo(a: SetImageAction, c: Canvas)
    requires c.Valid()
    requires a.older == null || a.older.Valid()
    requires a.newer == null || a.newer.Valid()
    modifies c`image, c`offSurface, c`annSurface, c`annotation, c`recaches, c`frames
    ensures c.Valid() && c.image == a.newer
    ensures c.tool == old(c.tool) && c.mouseButtons == old(c.mouseButtons) && c.mousePos == old(c.mousePos)
    ensures c.gesture == old(c.gesture)
    ensures a.older != null ==> a.older.State() == old(a.older.State())
    ensures a.newer != null ==> a.newer.State() == old(a.newer.State())
  {
    a.Undo(c);
    assert c.image == a.older;
    a.Redo(c);
  }

  /** The large-image example: an 800x600 image in a 400x300 canvas is centred at zoom 0.5. */
  method FitExample() returns (c: Canvas, img: FundusImage)
    ensures c.Valid() && c.image == img
    ensures img.zoomLevel == 0.5 && img.offset == Point(0.0, 0.0)
  {
    c := new Canvas(Dims(400, 300), Dims(400, 300));
    img := new FundusImage(ImageState(3.0, Point(10.0, -7.0), 1.0, 0.5, true, true, false, false,
                                      Some(Dims(800, 600)), None));
    c.SetImage(img);
    c.FitToPage();
    FitScaleExample();
  }
}
