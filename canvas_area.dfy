/** The canvas area's toolbar rules (CanvasArea.tsx): the zoom buttons and
    the tool buttons. */
module CanvasArea {
  import opened JsValues
  import opened Types
  import Store

  datatype ZoomDirection = ZoomIn | ZoomOut

  /** The smallest and largest scale the zoom buttons reach. */
  const MinButtonScale := 0.1
  const MaxButtonScale := 5.0

  /** 1.2 to zoom in, 0.8 to zoom out. */
  function ZoomFactor(d: ZoomDirection): real {
    if d == ZoomIn then 1.2 else 0.8
  }

  /** The scale after a zoom button: the scale times the factor, clamped to
      [0.1, 5]. */
  function ZoomedScale(scale: real, d: ZoomDirection): (r: real)
    ensures MinButtonScale <= r <= MaxButtonScale
  {
    Clamp(scale * ZoomFactor(d), MinButtonScale, MaxButtonScale)
  }

  /** Inside the range the button multiplies by 1.2 or 0.8; the ends of the
      range are fixed points of zooming further out of it. */
  lemma ZoomSteps(scale: real)
    ensures MinButtonScale <= scale * 1.2 <= MaxButtonScale ==> ZoomedScale(scale, ZoomIn) == scale * 1.2
    ensures MinButtonScale <= scale * 0.8 <= MaxButtonScale ==> ZoomedScale(scale, ZoomOut) == scale * 0.8
    ensures ZoomedScale(MaxButtonScale, ZoomIn) == MaxButtonScale
    ensures ZoomedScale(MinButtonScale, ZoomOut) == MinButtonScale
  {
  }

  /** From the same scale, zooming in never gives less than zooming out. */
  lemma ZoomInAtLeastOut(scale: real)
    ensures ZoomedScale(scale, ZoomIn) >= ZoomedScale(scale, ZoomOut)
  {
    if scale >= 0.0 {
      assert scale * 1.2 >= scale * 0.8;
    } else {
      assert scale * 1.2 < MinButtonScale && scale * 0.8 < MinButtonScale;
    }
  }

  /** `handleZoom(direction)` */
  method HandleZoom(store: Store.CanvasState, d: ZoomDirection)
    modifies store`scale
    ensures store.scale == ZoomedScale(old(store.scale), d)
  {
    var factor := if d == ZoomIn then 1.2 else 0.8;
    store.SetScale(Clamp(store.scale * factor, 0.1, 5.0));
  }

  /** `handleToolChange(tool)` */
  method HandleToolChange(store: Store.CanvasState, tool: DrawingTool)
    modifies store`currentTool
    ensures store.currentTool == tool
  {
    store.SetCurrentTool(tool);
  }
}
