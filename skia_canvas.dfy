/** The interaction rules of the canvas component (SkiaCanvas.tsx): screen and
    world coordinates, panning and wheel zoom, the topmost-visible hit test,
    the selection-handle layout and its hit test, the objects a mouse-up or a
    text submit creates, the rotate and scale gestures, and which objects a
    frame draws. The gesture state of the component is the class
    CanvasController; the drawing itself (CanvasKit) is not modelled. */
module SkiaCanvas {
  import opened JsValues
  import opened Types
  import opened SkiaUtils
  import opened Store
  import TextTool

  /** The box of an object, as the geometry helpers read it. */
  function SpanOf(o: CanvasObject): Span {
    Span(o.startX, o.startY, o.endX, o.endY)
  }

  /** `v || 0` for an optional number. */
  function OrZeroReal(v: Option<real>): real {
    if v.Some? then v.value else 0.0
  }

  /** `v || 1` for an optional scale: undefined and 0 both count as 1. */
  function OrOne(v: Option<real>): (r: real)
    ensures r != 0.0
    ensures v.Some? && v.value != 0.0 ==> r == v.value
    ensures v.None? || v.value == 0.0 ==> r == 1.0
  {
    if v.None? || v.value == 0.0 then 1.0 else v.value
  }

  // ---------------------------------------------------------------------------
  // Screen and world coordinates, pan and wheel zoom

  /** `(mouse - offset) / scale` on both axes: the offset is where the world
      origin is on the screen, and at scale 1 the map is a shift. */
  function ScreenToWorld(mouse: Point, offset: Point, scale: real): (w: Point)
    requires scale != 0.0
    ensures mouse == offset ==> w == Point(0.0, 0.0)
    ensures scale == 1.0 ==> w == Point(mouse.x - offset.x, mouse.y - offset.y)
  {
    Point((mouse.x - offset.x) / scale, (mouse.y - offset.y) / scale)
  }

  /** The world point maps back onto the screen point. */
  lemma WorldBackToScreen(mouse: Point, offset: Point, scale: real)
    requires scale != 0.0
    ensures ScreenToWorld(mouse, offset, scale).x * scale + offset.x == mouse.x
    ensures ScreenToWorld(mouse, offset, scale).y * scale + offset.y == mouse.y
  {
  }

  /** The offset after a pan step from `dragStart` to `mouse`: it moves by
      exactly the pointer's movement, so no movement keeps it. */
  function Panned(offset: Point, dragStart: Point, mouse: Point): (o: Point)
    ensures o.x - offset.x == mouse.x - dragStart.x && o.y - offset.y == mouse.y - dragStart.y
    ensures mouse == dragStart ==> o == offset
  {
    Point(offset.x + (mouse.x - dragStart.x), offset.y + (mouse.y - dragStart.y))
  }

  /** Two pan steps are one pan over the whole move, and the world point
      under the cursor stays under it. */
  lemma PanSteps(offset: Point, a: Point, b: Point, c: Point, scale: real)
    requires scale != 0.0
    ensures Panned(Panned(offset, a, b), b, c) == Panned(offset, a, c)
    ensures ScreenToWorld(b, Panned(offset, a, b), scale) == ScreenToWorld(a, offset, scale)
  {
    assert (b.x - (offset.x + (b.x - a.x))) / scale == (a.x - offset.x) / scale;
    assert (b.y - (offset.y + (b.y - a.y))) / scale == (a.y - offset.y) / scale;
  }

  datatype View = View(scale: real, offset: Point)

  /** `handleWheel`: with ctrl or meta held the zoom changes by 0.9 or 1.1,
      clamped to [0.1, 20], around the cursor; otherwise the view pans by the
      wheel deltas. */
  function Wheel(v: View, mouse: Point, deltaX: real, deltaY: real, zoomKey: bool): (r: View)
    requires v.scale != 0.0
    ensures zoomKey ==> 0.1 <= r.scale <= 20.0
    ensures !zoomKey ==> r.scale == v.scale
  {
    if zoomKey then
      var factor := if deltaY > 0.0 then 0.9 else 1.1;
      var s := Clamp(v.scale * factor, 0.1, 20.0);
      View(s, Point(mouse.x - (mouse.x - v.offset.x) * (s / v.scale), mouse.y - (mouse.y - v.offset.y) * (s / v.scale)))
    else View(v.scale, Point(v.offset.x - deltaX, v.offset.y - deltaY))
  }

  /** Wheel zoom keeps the scale in [0.1, 20] and the world point under the
      cursor fixed; a plain wheel moves the offset by the deltas only. */
  lemma WheelZoomFixesCursor(v: View, mouse: Point, deltaX: real, deltaY: real)
    requires v.scale != 0.0
    ensures var r := Wheel(v, mouse, deltaX, deltaY, true);
      0.1 <= r.scale <= 20.0 && ScreenToWorld(mouse, r.offset, r.scale) == ScreenToWorld(mouse, v.offset, v.scale)
    ensures Wheel(v, mouse, deltaX, deltaY, false) == View(v.scale, Point(v.offset.x - deltaX, v.offset.y - deltaY))
  {
    var r := Wheel(v, mouse, deltaX, deltaY, true);
    var k := r.scale / v.scale;
    assert r.offset.x == mouse.x - (mouse.x - v.offset.x) * k;
    assert (mouse.x - r.offset.x) / r.scale == (mouse.x - v.offset.x) * k / r.scale;
    assert k / r.scale == 1.0 / v.scale;
    assert (mouse.x - v.offset.x) * k / r.scale == (mouse.x - v.offset.x) * (k / r.scale);
    assert (mouse.y - v.offset.y) * k / r.scale == (mouse.y - v.offset.y) * (k / r.scale);
  }

  // ---------------------------------------------------------------------------
  // Selection handles

  datatype HandlePosition =
    | TopLeftHandle | TopCenterHandle | TopRightHandle | MiddleRightHandle
    | BottomRightHandle | BottomCenterHandle | BottomLeftHandle | MiddleLeftHandle
    | RotationHandle

  datatype HandleAction = ScaleAction | RotateAction

  datatype Handle = Handle(position: HandlePosition, x: real, y: real, cursor: string, action: HandleAction)

  /** A handle position relative to the object's centre, before rotation. */
  datatype LocalHandle = LocalHandle(position: HandlePosition, x: real, y: real, cursor: string)

  /** The distance of the rotation handle above the top edge. */
  const RotateHandleOffset := 36.0

  /** How near a point must be to grab a handle. */
  const HandleHitRadius := 14.0

  /** The eight scale handles of a `w` × `h` box: corners and edge midpoints,
      clockwise from the top-left. */
  function ScaleHandleOffsets(w: real, h: real): seq<LocalHandle> {
    [ LocalHandle(TopLeftHandle, -w / 2.0, -h / 2.0, "nwse-resize"),
      LocalHandle(TopCenterHandle, 0.0, -h / 2.0, "ns-resize"),
      LocalHandle(TopRightHandle, w / 2.0, -h / 2.0, "nesw-resize"),
      LocalHandle(MiddleRightHandle, w / 2.0, 0.0, "ew-resize"),
      LocalHandle(BottomRightHandle, w / 2.0, h / 2.0, "nwse-resize"),
      LocalHandle(BottomCenterHandle, 0.0, h / 2.0, "ns-resize"),
      LocalHandle(BottomLeftHandle, -w / 2.0, h / 2.0, "nesw-resize"),
      LocalHandle(MiddleLeftHandle, -w / 2.0, 0.0, "ew-resize") ]
  }

  /** The rotation handle, above the top edge. */
  function RotationOffset(h: real): LocalHandle {
    LocalHandle(RotationHandle, 0.0, -h / 2.0 - RotateHandleOffset, "grab")
  }

  /** The scaled size of an object's box. */
  function ScaledSize(o: CanvasObject): Point {
    var b := ObjectBounds(SpanOf(o));
    Point(b.width * OrOne(o.scaleX), b.height * OrOne(o.scaleY))
  }

  /** A handle in world coordinates: the centre plus the offset rotated by the
      object's rotation. */
  function Placed(l: LocalHandle, center: Point, rotation: real, action: HandleAction, m: Maths): (h: Handle)
    ensures h.position == l.position && h.cursor == l.cursor && h.action == action
  {
    var r := RotatePoint(Point(l.x, l.y), Point(0.0, 0.0), rotation, m);
    Handle(l.position, center.x + r.x, center.y + r.y, l.cursor, action)
  }

  /** The handles `drawSelectionHandlesInternal` returns for an object: none
      for a selection object, otherwise the eight scale handles in order and
      then the rotation handle. */
  function HandleLayout(o: CanvasObject, m: Maths): (hs: seq<Handle>)
    ensures o.kind == SelectTool <==> |hs| == 0
    ensures o.kind != SelectTool ==> |hs| == 9 && hs[8].action == RotateAction
  {
    if o.kind == SelectTool then []
    else
      var size := ScaledSize(o);
      var center := ObjectCenter(SpanOf(o));
      var rotation := OrZeroReal(o.rotation);
      var offsets := ScaleHandleOffsets(size.x, size.y);
      seq(8, i requires 0 <= i < 8 => Placed(offsets[i], center, rotation, ScaleAction, m))
        + [Placed(RotationOffset(size.y), center, rotation, RotateAction, m)]
  }

  /** The handle list is built by pushing one handle per scale position and
      then the rotation handle. */
  method SelectionHandles(o: CanvasObject, m: Maths) returns (handles: seq<Handle>)
    ensures handles == HandleLayout(o, m)
  {
    if o.kind == SelectTool {
      return [];
    }
    var size := ScaledSize(o);
    var center := ObjectCenter(SpanOf(o));
    var rotation := OrZeroReal(o.rotation);
    var positions := ScaleHandleOffsets(size.x, size.y);
    handles := [];
    for i := 0 to |positions|
      invariant |handles| == i
      invariant forall j :: 0 <= j < i ==> handles[j] == Placed(positions[j], center, rotation, ScaleAction, m)
    {
      handles := handles + [Placed(positions[i], center, rotation, ScaleAction, m)];
    }
    handles := handles + [Placed(RotationOffset(size.y), center, rotation, RotateAction, m)];
  }

  /** Nine handles: eight scale handles TL, TC, TR, MR, BR, BC, BL, ML and the
      rotation handle last. */
  lemma HandleOrder(o: CanvasObject, m: Maths)
    requires o.kind != SelectTool
    ensures var hs := HandleLayout(o, m);
      |hs| == 9
      && hs[0].position == TopLeftHandle && hs[1].position == TopCenterHandle
      && hs[2].position == TopRightHandle && hs[3].position == MiddleRightHandle
      && hs[4].position == BottomRightHandle && hs[5].position == BottomCenterHandle
      && hs[6].position == BottomLeftHandle && hs[7].position == MiddleLeftHandle
      && hs[8].position == RotationHandle && hs[8].action == RotateAction
      && forall i :: 0 <= i < 8 ==> hs[i].action == ScaleAction
  {
    var hs := HandleLayout(o, m);
    var size := ScaledSize(o);
    var offsets := ScaleHandleOffsets(size.x, size.y);
    var c := ObjectCenter(SpanOf(o));
    var rotation := OrZeroReal(o.rotation);
    assert forall i :: 0 <= i < 8 ==> hs[i].position == offsets[i].position && hs[i].action == ScaleAction;
    assert hs[8].position == RotationHandle && hs[8].action == RotateAction;
  }

  /** An unrotated object's handles sit at the box corners and edge
      midpoints, and the rotation handle 36 above the top edge's midpoint. */
  lemma HandlesUnrotated(o: CanvasObject, m: Maths)
    requires o.kind != SelectTool && OrZeroReal(o.rotation) == 0.0
    requires m.cosDeg(0.0) == 1.0 && m.sinDeg(0.0) == 0.0
    ensures var hs := HandleLayout(o, m);
      var c := ObjectCenter(SpanOf(o));
      var size := ScaledSize(o);
      |hs| == 9
      && hs[0].x == c.x - size.x / 2.0 && hs[0].y == c.y - size.y / 2.0
      && hs[1].x == c.x && hs[1].y == c.y - size.y / 2.0
      && hs[4].x == c.x + size.x / 2.0 && hs[4].y == c.y + size.y / 2.0
      && hs[7].x == c.x - size.x / 2.0 && hs[7].y == c.y
      && hs[8].x == c.x && hs[8].y == c.y - size.y / 2.0 - RotateHandleOffset
  {
  }

  /** Rotating the object moves its handles on circles about its centre:
      each handle is as far from the centre as its unrotated offset. */
  lemma HandlesKeepDistance(o: CanvasObject, m: Maths, i: nat)
    requires o.kind != SelectTool && i < 9
    requires UnitCircleAt(m, OrZeroReal(o.rotation))
    ensures var hs := HandleLayout(o, m);
      var size := ScaledSize(o);
      var l := if i < 8 then ScaleHandleOffsets(size.x, size.y)[i] else RotationOffset(size.y);
      |hs| == 9 && DistSq(Point(hs[i].x, hs[i].y), ObjectCenter(SpanOf(o))) == DistSq(Point(l.x, l.y), Point(0.0, 0.0))
  {
    var size := ScaledSize(o);
    var l := if i < 8 then ScaleHandleOffsets(size.x, size.y)[i] else RotationOffset(size.y);
    var rotation := OrZeroReal(o.rotation);
    var center := ObjectCenter(SpanOf(o));
    var action := if i < 8 then ScaleAction else RotateAction;
    assert HandleLayout(o, m)[i] == Placed(l, center, rotation, action, m);
    PlacedDistance(l, center, rotation, action, m);
  }

  /** A placed handle is as far from the centre as its offset is from the
      origin. */
  lemma PlacedDistance(l: LocalHandle, center: Point, rotation: real, action: HandleAction, m: Maths)
    requires UnitCircleAt(m, rotation)
    ensures var h := Placed(l, center, rotation, action, m);
      DistSq(Point(h.x, h.y), center) == DistSq(Point(l.x, l.y), Point(0.0, 0.0))
  {
    RotatePreservesDistance(Point(l.x, l.y), Point(0.0, 0.0), rotation, m);
  }

  /** A point grabs a handle when it lies within the hit radius. */
  predicate Near(p: Point, h: Handle, m: Maths) {
    CalculateDistance(p, Point(h.x, h.y), m) <= HandleHitRadius
  }

  /** `hitTestHandles`: the first handle in list order within the hit radius,
      or None when there is no list or no handle is near. */
  method HitTestHandles(p: Point, handles: Option<seq<Handle>>, m: Maths) returns (hit: Option<Handle>)
    ensures handles.None? ==> hit.None?
    ensures hit.Some? ==>
      handles.Some?
      && (exists k ::
            0 <= k < |handles.value| && handles.value[k] == hit.value
            && Near(p, handles.value[k], m) && forall j :: 0 <= j < k ==> !Near(p, handles.value[j], m))
    ensures hit.None? && handles.Some? ==> forall j :: 0 <= j < |handles.value| ==> !Near(p, handles.value[j], m)
  {
    if handles.None? {
      return None;
    }
    var hs := handles.value;
    for i := 0 to |hs|
      invariant forall j :: 0 <= j < i ==> !Near(p, hs[j], m)
    {
      if CalculateDistance(p, Point(hs[i].x, hs[i].y), m) <= HandleHitRadius {
        return Some(hs[i]);
      }
    }
    return None;
  }

  /** With a lawful square root, nearness is the squared distance test the
      radius bounds. */
  lemma NearBySquares(p: Point, h: Handle, m: Maths)
    requires SqrtAt(m, DistSq(p, Point(h.x, h.y)))
    ensures Near(p, h, m) <==> DistSq(p, Point(h.x, h.y)) <= 196.0
  {
    WithinRadius(p, Point(h.x, h.y), HandleHitRadius, m);
  }

  // ---------------------------------------------------------------------------
  // Hit testing

  function Sq(x: real): real { x * x }

  /** The box test about the centre `c` with half sizes `hw` and `hh`. */
  predicate InBox(t: Point, c: Point, hw: real, hh: real) {
    c.x - hw <= t.x <= c.x + hw && c.y - hh <= t.y <= c.y + hh
  }

  /** The ellipse test; a zero half size divides zero by zero, which is NaN
      and fails the comparison. */
  predicate InEllipse(t: Point, c: Point, hw: real, hh: real) {
    hw != 0.0 && hh != 0.0 && Sq((t.x - c.x) / hw) + Sq((t.y - c.y) / hh) <= 1.0
  }

  /** The point tested against an object: the world point turned back by the
      object's rotation about its centre, or the point itself when it is not
      rotated. */
  function TestPoint(o: CanvasObject, world: Point, m: Maths): Point {
    var rot := OrZeroReal(o.rotation);
    if rot != 0.0 then RotatePoint(world, ObjectCenter(SpanOf(o)), -rot, m) else world
  }

  /** Does the click at `world` hit `o`? Only visible rectangles and
      ellipses can be hit; an ellipse also needs the ellipse test. */
  predicate IsHit(o: CanvasObject, world: Point, m: Maths)
    ensures IsHit(o, world, m) ==> o.visible != Some(false) && (o.kind == RectangleTool || o.kind == EllipseTool)
  {
    var size := ScaledSize(o);
    var c := ObjectCenter(SpanOf(o));
    var t := TestPoint(o, world, m);
    o.visible != Some(false) && (o.kind == RectangleTool || o.kind == EllipseTool)
    && InBox(t, c, size.x / 2.0, size.y / 2.0)
    && (o.kind == EllipseTool ==> InEllipse(t, c, size.x / 2.0, size.y / 2.0))
  }

  /** The hit test of one object, as the click and hover loops compute it:
      invisible objects are skipped, the point is turned back by the
      object's rotation, and the box (and for an ellipse the ellipse) test
      is applied to the scaled half sizes. */
  method TestObject(o: CanvasObject, world: Point, m: Maths) returns (isHit: bool)
    ensures isHit == IsHit(o, world, m)
  {
    if o.visible == Some(false) {
      return false;
    }
    var center := ObjectCenter(SpanOf(o));
    var bounds := ObjectBounds(SpanOf(o));
    var rot := OrZeroReal(o.rotation);
    var sX := OrOne(o.scaleX);
    var sY := OrOne(o.scaleY);
    var t := if rot != 0.0 then RotatePoint(world, center, -rot, m) else world;
    assert t == TestPoint(o, world, m);
    isHit := false;
    var hW := bounds.width * sX / 2.0;
    var hH := bounds.height * sY / 2.0;
    assert hW == ScaledSize(o).x / 2.0 && hH == ScaledSize(o).y / 2.0;
    if o.kind == RectangleTool || o.kind == EllipseTool {
      isHit := center.x - hW <= t.x && t.x <= center.x + hW && center.y - hH <= t.y && t.y <= center.y + hH;
      assert isHit == InBox(t, center, hW, hH);
      if isHit && o.kind == EllipseTool {
        if hW == 0.0 || hH == 0.0 {
          isHit := false;
        } else {
          var nX := (t.x - center.x) / hW;
          var nY := (t.y - center.y) / hH;
          isHit := nX * nX + nY * nY <= 1.0;
        }
        assert isHit == InEllipse(t, center, hW, hH);
      }
    }
  }

  /** The result of a hit test as an optional index: `r` is the topmost
      object hit, or None when nothing is hit. */
  predicate TopmostHit(objects: seq<CanvasObject>, world: Point, m: Maths, r: Option<nat>) {
    (r.Some? ==>
       r.value < |objects| && IsHit(objects[r.value], world, m)
       && (forall j :: r.value < j < |objects| ==> !IsHit(objects[j], world, m)))
    && (r.None? ==> forall j :: 0 <= j < |objects| ==> !IsHit(objects[j], world, m))
  }

  /** `-1` as None. */
  function IndexOrNone(i: int): (r: Option<nat>)
    ensures r.Some? <==> i >= 0
    ensures r.Some? ==> r.value == i
  {
    if i >= 0 then Some(i) else None
  }

  /** The hit test of a click or a hover: scanning from the last object
      down, the index of the topmost object hit, or -1. */
  method HitTest(objects: seq<CanvasObject>, world: Point, m: Maths) returns (hit: int)
    ensures -1 <= hit < |objects|
    ensures hit >= 0 ==> IsHit(objects[hit], world, m)
    ensures forall j :: hit < j < |objects| ==> !IsHit(objects[j], world, m)
    ensures TopmostHit(objects, world, m, IndexOrNone(hit))
  {
    hit := -1;
    var i := |objects| - 1;
    while i >= 0
      invariant -1 <= i < |objects|
      invariant forall j :: i < j < |objects| ==> !IsHit(objects[j], world, m)
    {
      var isHit := TestObject(objects[i], world, m);
      if isHit {
        hit := i;
        break;
      }
      i := i - 1;
    }
  }

  /** A unit disc coordinate lies in [-1, 1]. */
  lemma UnitSquare(a: real)
    requires a * a <= 1.0
    ensures -1.0 <= a <= 1.0
  {
  }

  /** The ellipse lies inside its box: a point passing the ellipse test with
      positive half sizes passes the box test. */
  lemma EllipseInsideBox(t: Point, c: Point, hw: real, hh: real)
    requires hw > 0.0 && hh > 0.0
    requires InEllipse(t, c, hw, hh)
    ensures InBox(t, c, hw, hh)
  {
    var nx := (t.x - c.x) / hw;
    var ny := (t.y - c.y) / hh;
    assert Sq(nx) <= 1.0 && Sq(ny) <= 1.0;
    UnitSquare(nx);
    UnitSquare(ny);
    assert t.x - c.x == nx * hw;
    assert t.y - c.y == ny * hh;
    assert -hw <= nx * hw <= hw by { BoundedProduct(nx, hw); }
    assert -hh <= ny * hh <= hh by { BoundedProduct(ny, hh); }
  }

  lemma BoundedProduct(a: real, h: real)
    requires -1.0 <= a <= 1.0 && h > 0.0
    ensures -h <= a * h <= h
  {
    assert (1.0 - a) * h >= 0.0 by { NonNegativeProduct(1.0 - a, h); }
    assert (1.0 + a) * h >= 0.0 by { NonNegativeProduct(1.0 + a, h); }
  }

  /** An unrotated rectangle is hit exactly inside its scaled box. */
  lemma UnrotatedRectangleHit(o: CanvasObject, world: Point, m: Maths)
    requires o.kind == RectangleTool && o.visible != Some(false) && OrZeroReal(o.rotation) == 0.0
    ensures var c := ObjectCenter(SpanOf(o));
      var size := ScaledSize(o);
      IsHit(o, world, m) <==>
        (c.x - size.x / 2.0 <= world.x <= c.x + size.x / 2.0 && c.y - size.y / 2.0 <= world.y <= c.y + size.y / 2.0)
  {
  }

  /** A point inside a rectangle's unrotated box, rotated with the rectangle
      about its centre, still hits it. */
  lemma RotatedRectangleHit(o: CanvasObject, q: Point, m: Maths)
    requires o.kind == RectangleTool && o.visible != Some(false)
    requires UnitCircleAt(m, OrZeroReal(o.rotation)) && SymmetricAt(m, OrZeroReal(o.rotation))
    requires m.cosDeg(0.0) == 1.0 && m.sinDeg(0.0) == 0.0
    requires InBox(q, ObjectCenter(SpanOf(o)), ScaledSize(o).x / 2.0, ScaledSize(o).y / 2.0)
    ensures IsHit(o, RotatePoint(q, ObjectCenter(SpanOf(o)), OrZeroReal(o.rotation), m), m)
  {
    var rot := OrZeroReal(o.rotation);
    var c := ObjectCenter(SpanOf(o));
    var p := RotatePoint(q, c, rot, m);
    if rot != 0.0 {
      RotateBack(q, c, rot, m);
    } else {
      RotateByZero(q, c, m);
    }
    assert TestPoint(o, p, m) == q;
  }

  // ---------------------------------------------------------------------------
  // The per-frame object filter

  /** A text object with a non-empty id. */
  predicate KeyedText(o: CanvasObject) {
    o.kind == TextTool && o.id.Some? && o.id.value != ""
  }

  /** Does the frame draw object `i`? Invisible objects are skipped, and so
      is a keyed text object when an earlier drawn text has its id (the first
      visible text of each id is the one drawn). */
  predicate Drawn(objects: seq<CanvasObject>, i: nat)
    requires i < |objects|
  {
    objects[i].visible != Some(false)
    && !(KeyedText(objects[i])
         && (exists j ::
               0 <= j < i && objects[j].visible != Some(false)
               && KeyedText(objects[j]) && objects[j].id == objects[i].id))
  }

  /** The indices below `n` the frame draws, in order: each is below `n`,
      passes the drawing rule, and comes after the ones before it. */
  function DrawnIndices(objects: seq<CanvasObject>, n: nat): (r: seq<nat>)
    requires n <= |objects|
    ensures |r| <= n
    ensures forall k :: 0 <= k < |r| ==> r[k] < n && Drawn(objects, r[k])
    ensures forall k, l :: 0 <= k < l < |r| ==> r[k] < r[l]
  {
    if n == 0 then []
    else DrawnIndices(objects, n - 1) + (if Drawn(objects, n - 1) then [n - 1] else [])
  }

  /** The ids of the visible keyed texts below `n`. */
  function SeenTextIds(objects: seq<CanvasObject>, n: nat): set<string>
    requires n <= |objects|
  {
    set j | 0 <= j < n && objects[j].visible != Some(false) && KeyedText(objects[j]) :: objects[j].id.value
  }

  /** The `redraw` loop's filter: the indices of the objects it goes on to
      draw, using the set of text ids drawn so far. */
  method FrameObjects(objects: seq<CanvasObject>) returns (drawn: seq<nat>)
    ensures drawn == DrawnIndices(objects, |objects|)
  {
    drawn := [];
    var renderedTextIds: set<string> := {};
    for i := 0 to |objects|
      invariant drawn == DrawnIndices(objects, i)
      invariant renderedTextIds == SeenTextIds(objects, i)
    {
      var o := objects[i];
      if o.visible == Some(false) {
        assert SeenTextIds(objects, i + 1) == SeenTextIds(objects, i);
        continue;
      }
      if KeyedText(o) && o.id.value in renderedTextIds {
        assert !Drawn(objects, i);
        assert SeenTextIds(objects, i + 1) == SeenTextIds(objects, i);
        continue;
      }
      if KeyedText(o) {
        renderedTextIds := renderedTextIds + {o.id.value};
        assert SeenTextIds(objects, i + 1) == SeenTextIds(objects, i) + {o.id.value};
      } else {
        assert SeenTextIds(objects, i + 1) == SeenTextIds(objects, i);
      }
      assert Drawn(objects, i);
      drawn := drawn + [i];
    }
  }

  /** The drawn indices are exactly those of the objects the rule draws. */
  lemma {:induction false} DrawnIndicesMembers(objects: seq<CanvasObject>, n: nat)
    requires n <= |objects|
    ensures forall k: nat :: k in DrawnIndices(objects, n) <==> k < n && Drawn(objects, k)
  {
    if n > 0 {
      DrawnIndicesMembers(objects, n - 1);
    }
  }

  /** A frame draws no invisible object, no two keyed texts with one id, and
      every visible object that is not a keyed text. */
  lemma FrameRules(objects: seq<CanvasObject>)
    ensures var d := DrawnIndices(objects, |objects|);
      (forall k :: k in d ==> k < |objects| && objects[k].visible != Some(false))
      && (forall a, b :: a in d && b in d && a < b && KeyedText(objects[a]) && KeyedText(objects[b]) ==>
            objects[a].id != objects[b].id)
      && (forall k :: 0 <= k < |objects| && objects[k].visible != Some(false) && !KeyedText(objects[k]) ==> k in d)
  {
    DrawnIndicesMembers(objects, |objects|);
  }

  /** The first visible text with a given id is drawn. */
  lemma FirstTextDrawn(objects: seq<CanvasObject>, k: nat)
    requires k < |objects| && objects[k].visible != Some(false) && KeyedText(objects[k])
    requires forall j :: 0 <= j < k && objects[j].visible != Some(false) && KeyedText(objects[j]) ==> objects[j].id != objects[k].id
    ensures k in DrawnIndices(objects, |objects|)
  {
    DrawnIndicesMembers(objects, |objects|);
  }

  // ---------------------------------------------------------------------------
  // Objects created on the canvas

  /** The object a mouse-up builds for a shape tool from the drag's start
      and end, the current colour and stroke width; a pen object needs a
      path. Other tools build nothing. A built object has the tool as its
      type, is visible and has no id yet. */
  function NewShape(tool: DrawingTool, start: Point, end: Point, color: string, strokeWidth: real,
                    path: Option<seq<Point>>): (r: Option<CanvasObject>)
    ensures r.Some? <==> tool == RectangleTool || tool == EllipseTool || tool == LineTool || (tool == PenTool && path.Some?)
    ensures r.Some? ==> r.value.kind == tool && r.value.visible == Some(true) && r.value.id.None?
  {
    if tool == RectangleTool || tool == EllipseTool || tool == LineTool || (tool == PenTool && path.Some?) then
      Some(CanvasObject(tool, start.x, start.y, end.x, end.y,
                        if tool == LineTool then "transparent" else color, color,
                        Some(Fin(strokeWidth)), Some(true), Some(0.0), Some(1.0), Some(1.0), None,
                        if tool == PenTool then path else None, None, None))
    else None
  }

  /** A rectangle click: the rectangle tool released where it was pressed,
      with no handle held. */
  predicate ClickToCreate(tool: DrawingTool, start: Point, current: Point, handleHeld: bool) {
    tool == RectangleTool && start == current && !handleHeld
  }

  /** The end point of a drawn shape: a rectangle click is given the default
      size 100 × 100. Any other drag ends where the pointer is. */
  function ShapeEnd(tool: DrawingTool, start: Point, current: Point, handleHeld: bool): (e: Point)
    ensures tool != RectangleTool || start != current || handleHeld ==> e == current
    ensures tool == RectangleTool && start == current && !handleHeld ==> e == Point(start.x + 100.0, start.y + 100.0)
  {
    if ClickToCreate(tool, start, current, handleHeld) then Point(start.x + 100.0, start.y + 100.0) else current
  }

  /** A new shape has rotation 0, scale 1, is visible, takes the tool as its
      type and the current colour as fill and stroke (a line has no fill),
      and spans from the drag's start to its end. */
  lemma NewShapeFields(tool: DrawingTool, start: Point, current: Point, color: string, strokeWidth: real,
                       path: Option<seq<Point>>)
    requires tool == RectangleTool || tool == EllipseTool || tool == LineTool || (tool == PenTool && path.Some?)
    ensures var r := NewShape(tool, start, ShapeEnd(tool, start, current, false), color, strokeWidth, path);
      r.Some? && r.value.kind == tool && r.value.rotation == Some(0.0)
      && r.value.scaleX == Some(1.0) && r.value.scaleY == Some(1.0) && r.value.visible == Some(true)
      && r.value.strokeColor == color && r.value.fillColor == (if tool == LineTool then "transparent" else color)
      && r.value.startX == start.x && r.value.startY == start.y
      && (tool == RectangleTool && start == current ==>
            r.value.endX == start.x + 100.0 && r.value.endY == start.y + 100.0)
      && (!(tool == RectangleTool && start == current) ==> r.value.endX == current.x && r.value.endY == current.y)
  {
  }

  /** The font size of new text. */
  const TextFontSize := 20.0

  /** The object `handleTextSubmit` builds at the clicked world position: a
      visible text object with the text and no id. */
  function NewTextObject(at: Point, text: string, color: string): (r: CanvasObject)
    ensures r.kind == TextTool && r.text == Some(text) && r.visible == Some(true) && r.id.None?
  {
    CanvasObject(TextTool, at.x, at.y, at.x, at.y + TextFontSize, color, "transparent", Some(Fin(0.0)),
                 Some(true), Some(0.0), Some(1.0), Some(1.0), None, None, Some(text), Some(TextFontSize))
  }

  /** A text object stands on the clicked point, one font size high, and
      carries the text; the store's defaults leave it as it is, and a click
      never hits it, since only rectangles and ellipses are hit-tested. */
  lemma NewTextObjectFields(at: Point, text: string, color: string, world: Point, m: Maths)
    ensures var r := NewTextObject(at, text, color);
      r.kind == TextTool && r.text == Some(text) && r.fontSize == Some(TextFontSize)
      && r.startX == r.endX == at.x && r.startY == at.y && r.endY - r.startY == TextFontSize
      && r.fillColor == color && r.strokeColor == "transparent" && r.strokeWidth == Some(Fin(0.0))
    ensures color != "" ==> WithDefaults(NewTextObject(at, text, color)) == NewTextObject(at, text, color)
    ensures !IsHit(NewTextObject(at, text, color), world, m)
  {
  }

  // ---------------------------------------------------------------------------
  // Gestures

  /** The rotation during a rotate drag: the start rotation plus the angle
      swept since the drag began. */
  function DraggedRotation(initialRotation: real, initialAngle: real, currentAngle: real): (r: real)
    ensures r - initialRotation == currentAngle - initialAngle
  {
    initialRotation + (currentAngle - initialAngle)
  }

  /** The scales during a scale drag, or None (no change) when the drag began
      at the centre. */
  function DraggedScale(initialScale: Point, initialDistance: real, currentDistance: real): (r: Option<Point>)
    ensures r.None? <==> initialDistance == 0.0
    ensures initialDistance != 0.0 && currentDistance == initialDistance ==> r == Some(initialScale)
  {
    if initialDistance == 0.0 then None
    else
      var factor := currentDistance / initialDistance;
      assert currentDistance == initialDistance ==> factor == 1.0;
      Some(Point(initialScale.x * factor, initialScale.y * factor))
  }

  /** A rotate drag turns the object by the swept angle, so returning to the
      start angle restores the rotation and sweeps add up. */
  lemma RotateDragSweeps(r0: real, a0: real, a1: real, a2: real)
    ensures DraggedRotation(r0, a0, a0) == r0
    ensures DraggedRotation(DraggedRotation(r0, a0, a1), a1, a2) == DraggedRotation(r0, a0, a2)
  {
  }

  /** A scale drag scales both axes by the ratio of the distances: the
      aspect of the scales is kept, and no movement keeps the scales. */
  lemma ScaleDragKeepsAspect(s0: Point, d0: real, d1: real)
    requires d0 != 0.0
    ensures var r := DraggedScale(s0, d0, d1);
      r.Some? && r.value.x * s0.y == r.value.y * s0.x
      && r.value.x * d0 == s0.x * d1 && r.value.y * d0 == s0.y * d1
    ensures DraggedScale(s0, d0, d0) == Some(s0)
  {
    var f := d1 / d0;
    assert d0 / d0 == 1.0;
    assert s0.x * (d0 / d0) == s0.x && s0.y * (d0 / d0) == s0.y;
    var r := DraggedScale(s0, d0, d0);
    assert r.value.x == s0.x * (d0 / d0) && r.value.y == s0.y * (d0 / d0);
    assert s0.x * f * s0.y == s0.y * f * s0.x;
    assert s0.x * f * d0 == s0.x * (f * d0);
    assert s0.y * f * d0 == s0.y * (f * d0);
  }

  // ---------------------------------------------------------------------------
  // The component's gesture state

  /** The fields of `drawingStateRef.current` the handlers change, with the
      component's `isDrawing`, `isDragging`, `dragStart` and
      `hoveredObjectIndex` state. */
  datatype Gesture = Gesture(start: Point, current: Point, path: Option<seq<Point>>,
                             selectedObjectIndex: Option<nat>, activeHandle: Option<Handle>,
                             initialAngle: real, initialDistance: real, initialObjectRotation: real,
                             initialObjectScale: Point, isDrawing: bool, isDragging: bool, dragStart: Point,
                             hoveredObjectIndex: Option<nat>)

  /** Some handle of `hs` is within the hit radius of `p`. */
  predicate AnyNear(p: Point, hs: seq<Handle>, m: Maths) {
    exists k :: 0 <= k < |hs| && Near(p, hs[k], m)
  }

  /** `h` is the first handle of `hs` within the hit radius of `p`. */
  predicate FirstNear(p: Point, hs: seq<Handle>, m: Maths, h: Handle) {
    exists k :: 0 <= k < |hs| && hs[k] == h && Near(p, hs[k], m) && forall j :: 0 <= j < k ==> !Near(p, hs[j], m)
  }

  /** `r` is `g` after the press at `world` grabs the first handle near it
      of the selected object `obj`: the handle is held, drawing starts, and
      the start values of that handle's action are recorded; nothing else
      changes. */
  predicate GrabbedFrom(g: Gesture, r: Gesture, world: Point, obj: CanvasObject, hs: seq<Handle>, m: Maths) {
    r.activeHandle.Some? && FirstNear(world, hs, m, r.activeHandle.value)
    && var center := ObjectCenter(SpanOf(obj));
    if r.activeHandle.value.action == RotateAction then
      r == g.(activeHandle := r.activeHandle, isDrawing := true,
              initialAngle := CalculateAngle(center, world, m), initialObjectRotation := OrZeroReal(obj.rotation))
    else
      r == g.(activeHandle := r.activeHandle, isDrawing := true,
              initialDistance := CalculateDistance(center, world, m),
              initialObjectScale := Point(OrOne(obj.scaleX), OrOne(obj.scaleY)))
  }

  /** Does a select-tool press at `world` grab a handle? Only with a
      selection, a handle list and a handle near the point. */
  predicate GrabsHandle(g: Gesture, world: Point, tool: DrawingTool, objects: seq<CanvasObject>,
                        handles: Option<seq<Handle>>, m: Maths) {
    tool == SelectTool && g.selectedObjectIndex.Some? && handles.Some?
    && g.selectedObjectIndex.value < |objects| && AnyNear(world, handles.value, m)
  }

  /** `r` is `g` after a press at `world` that is neither blocked nor a pan.
      The start and current points move to `world` in every case. The text
      tool changes nothing else. A select-tool press grabs a handle, or else
      selects the topmost object hit and draws exactly on a hit. Every other
      tool starts drawing with no handle, the pen with a one-point path.
      The selection, the pan state and the hover are kept unless named. */
  predicate PressedFrom(g: Gesture, r: Gesture, world: Point, tool: DrawingTool, objects: seq<CanvasObject>,
                        handles: Option<seq<Handle>>, m: Maths) {
    var moved := g.(start := world, current := world);
    if tool == TextTool then r == moved
    else if GrabsHandle(g, world, tool, objects, handles, m) then
      GrabbedFrom(moved, r, world, objects[g.selectedObjectIndex.value], handles.value, m)
    else if tool == SelectTool then
      r == moved.(selectedObjectIndex := r.selectedObjectIndex, isDrawing := r.selectedObjectIndex.Some?)
      && TopmostHit(objects, world, m, r.selectedObjectIndex)
    else
      r == moved.(path := if tool == PenTool then Some([world]) else g.path, activeHandle := None, isDrawing := true)
  }

  /** What a press promises: the start and current points are the pressed
      point; without handles a select-tool press selects the topmost object
      hit and draws exactly on a hit; a drawing tool starts drawing with no
      handle held, the pen from a one-point path; and only a select-tool
      press can change the selection. */
  lemma PressFacts(g: Gesture, r: Gesture, world: Point, tool: DrawingTool, objects: seq<CanvasObject>,
                   handles: Option<seq<Handle>>, m: Maths)
    requires PressedFrom(g, r, world, tool, objects, handles, m)
    ensures r.start == world && r.current == world
    ensures tool == SelectTool && handles.None? ==>
      TopmostHit(objects, world, m, r.selectedObjectIndex) && r.isDrawing == r.selectedObjectIndex.Some?
    ensures tool != TextTool && tool != SelectTool ==>
      r.isDrawing && r.activeHandle.None? && (tool == PenTool ==> r.path == Some([world]))
    ensures tool != SelectTool ==> r.selectedObjectIndex == g.selectedObjectIndex
    ensures r.isDragging == g.isDragging && r.dragStart == g.dragStart && r.hoveredObjectIndex == g.hoveredObjectIndex
  {
    var moved := g.(start := world, current := world);
    if tool != TextTool && GrabsHandle(g, world, tool, objects, handles, m) {
      assert r.start == moved.start && r.current == moved.current;
    }
  }

  /** A press from a state already at the pressed point is the same press. */
  lemma PressFromMoved(g: Gesture, r: Gesture, world: Point, tool: DrawingTool, objects: seq<CanvasObject>,
                       handles: Option<seq<Handle>>, m: Maths)
    requires PressedFrom(g.(start := world, current := world), r, world, tool, objects, handles, m)
    ensures PressedFrom(g, r, world, tool, objects, handles, m)
  {
    assert GrabsHandle(g.(start := world, current := world), world, tool, objects, handles, m)
      == GrabsHandle(g, world, tool, objects, handles, m);
  }

  /** `r` is `g` after a mouse move to `mouse` (`world` in the world): a pan
      only moves the drag start; a held handle changes nothing here; while
      drawing the current point follows, extending a pen path; otherwise
      only the hover index changes, to the topmost object hit. */
  predicate MovedFrom(g: Gesture, r: Gesture, world: Point, mouse: Point, tool: DrawingTool,
                      objects: seq<CanvasObject>, m: Maths) {
    if g.isDragging then r == g.(dragStart := mouse)
    else if g.activeHandle.Some? then r == g
    else if g.isDrawing then
      r == g.(current := world, path := if tool == PenTool && g.path.Some? then Some(g.path.value + [world]) else g.path)
    else
      r == g.(hoveredObjectIndex := r.hoveredObjectIndex) && TopmostHit(objects, world, m, r.hoveredObjectIndex)
  }

  /** Two hover or selection indices that are both the topmost hit agree. */
  lemma TopmostHitUnique(objects: seq<CanvasObject>, world: Point, m: Maths, a: Option<nat>, b: Option<nat>)
    requires TopmostHit(objects, world, m, a) && TopmostHit(objects, world, m, b)
    ensures a == b
  {
  }

  /** There is one first handle near a point. */
  lemma FirstNearUnique(p: Point, hs: seq<Handle>, m: Maths, a: Handle, b: Handle)
    requires FirstNear(p, hs, m, a) && FirstNear(p, hs, m, b)
    ensures a == b
  {
    var i :| 0 <= i < |hs| && hs[i] == a && Near(p, hs[i], m) && forall j :: 0 <= j < i ==> !Near(p, hs[j], m);
    var k :| 0 <= k < |hs| && hs[k] == b && Near(p, hs[k], m) && forall j :: 0 <= j < k ==> !Near(p, hs[j], m);
  }

  /** A press determines the whole new gesture state: two states that both
      follow the press rules from the same state are equal. */
  lemma PressDetermined(g: Gesture, r1: Gesture, r2: Gesture, world: Point, tool: DrawingTool,
                        objects: seq<CanvasObject>, handles: Option<seq<Handle>>, m: Maths)
    requires PressedFrom(g, r1, world, tool, objects, handles, m)
    requires PressedFrom(g, r2, world, tool, objects, handles, m)
    ensures r1 == r2
  {
    if tool != TextTool && GrabsHandle(g, world, tool, objects, handles, m) {
      FirstNearUnique(world, handles.value, m, r1.activeHandle.value, r2.activeHandle.value);
    } else if tool == SelectTool {
      TopmostHitUnique(objects, world, m, r1.selectedObjectIndex, r2.selectedObjectIndex);
    }
  }

  /** A mouse move determines the whole new gesture state. */
  lemma MoveDetermined(g: Gesture, r1: Gesture, r2: Gesture, world: Point, mouse: Point, tool: DrawingTool,
                       objects: seq<CanvasObject>, m: Maths)
    requires MovedFrom(g, r1, world, mouse, tool, objects, m)
    requires MovedFrom(g, r2, world, mouse, tool, objects, m)
    ensures r1 == r2
  {
    if !g.isDragging && g.activeHandle.None? && !g.isDrawing {
      TopmostHitUnique(objects, world, m, r1.hoveredObjectIndex, r2.hoveredObjectIndex);
    }
  }

  /** The gesture state after `handleMouseUp`. A blocked release (text input
      open) changes nothing; a pan ends; a release with nothing in progress
      changes nothing; the text and plain select tools stop drawing; any
      other release stops drawing, lets go of the handle and, when a pen
      path becomes an object, drops the path. */
  function Released(g: Gesture, tool: DrawingTool, blocked: bool): (r: Gesture)
    ensures blocked ==> r == g
    ensures !blocked && g.isDragging ==> r == g.(isDragging := false)
    ensures r == g.(isDrawing := r.isDrawing, isDragging := r.isDragging, activeHandle := r.activeHandle, path := r.path)
    ensures r.activeHandle == g.activeHandle || r.activeHandle.None?
    ensures r.path != g.path ==> tool == PenTool && g.isDrawing && r.path.None?
    ensures !blocked && !g.isDragging && (g.isDrawing || tool == TextTool || g.activeHandle.Some?) ==> !r.isDrawing
    ensures !blocked && !g.isDragging && !g.isDrawing && tool != TextTool && g.activeHandle.None? ==> r == g
  {
    if blocked then g
    else if g.isDragging then g.(isDragging := false)
    else if !g.isDrawing && tool != TextTool && g.activeHandle.None? then g
    else if tool == TextTool || (tool == SelectTool && g.activeHandle.None?) then g.(isDrawing := false)
    else
      var penDone := tool == PenTool && g.isDrawing && g.path.Some?;
      g.(isDrawing := false, activeHandle := None, path := if penDone then None else g.path)
  }

  class CanvasController {
    var startX: real
    var startY: real
    var currentX: real
    var currentY: real
    /** The pen path being drawn, as its points. */
    var path: Option<seq<Point>>
    var selectedObjectIndex: Option<nat>
    var activeHandle: Option<Handle>
    var initialAngle: real
    var initialDistance: real
    var initialObjectRotation: real
    var initialObjectScale: Point
    /** Never assigned after construction: the handles a frame computes are
        not stored here. */
    var handles: Option<seq<Handle>>
    var isDrawing: bool
    var isDragging: bool
    var dragStart: Point
    var hoveredObjectIndex: Option<nat>

    constructor ()
      ensures startX == 0.0 && startY == 0.0 && currentX == 0.0 && currentY == 0.0
      ensures path.None? && selectedObjectIndex.None? && activeHandle.None? && handles.None?
      ensures initialAngle == 0.0 && initialDistance == 0.0 && initialObjectRotation == 0.0
      ensures initialObjectScale == Point(1.0, 1.0)
      ensures !isDrawing && !isDragging && dragStart == Point(0.0, 0.0) && hoveredObjectIndex.None?
    {
      startX, startY, currentX, currentY := 0.0, 0.0, 0.0, 0.0;
      path := None;
      selectedObjectIndex := None;
      activeHandle := None;
      initialAngle, initialDistance, initialObjectRotation := 0.0, 0.0, 0.0;
      initialObjectScale := Point(1.0, 1.0);
      handles := None;
      isDrawing, isDragging := false, false;
      dragStart := Point(0.0, 0.0);
      hoveredObjectIndex := None;
    }

    /** The gesture fields as one record. */
    function Snapshot(): Gesture
      reads this
    {
      Gesture(Point(startX, startY), Point(currentX, currentY), path, selectedObjectIndex, activeHandle,
              initialAngle, initialDistance, initialObjectRotation, initialObjectScale, isDrawing, isDragging,
              dragStart, hoveredObjectIndex)
    }

    /** The effect that selects the last object when the select tool is on
        and nothing is selected. */
    method SelectLastOnSelectTool(store: CanvasState)
      modifies this`selectedObjectIndex
      ensures store.currentTool == SelectTool && |store.objects| > 0 && old(selectedObjectIndex).None? ==>
        selectedObjectIndex == Some(|store.objects| - 1)
      ensures !(store.currentTool == SelectTool && |store.objects| > 0 && old(selectedObjectIndex).None?) ==>
        selectedObjectIndex == old(selectedObjectIndex)
    {
      if store.currentTool == SelectTool && |store.objects| > 0 && selectedObjectIndex.None? {
        selectedObjectIndex := Some(|store.objects| - 1);
      }
    }

    /** The select tool's click: the topmost object hit becomes the
        selection, and a hit starts a drag. */
    method SelectAt(world: Point, objects: seq<CanvasObject>, m: Maths)
      modifies this`selectedObjectIndex, this`isDrawing
      ensures TopmostHit(objects, world, m, selectedObjectIndex)
      ensures isDrawing == selectedObjectIndex.Some?
    {
      var hit := HitTest(objects, world, m);
      selectedObjectIndex := IndexOrNone(hit);
      isDrawing := hit != -1;
    }

    /** The handle branch of a select-tool press: grabbing a handle of the
        selected object records the angle or distance the drag starts from. */
    method GrabHandle(world: Point, objects: seq<CanvasObject>, m: Maths) returns (grabbed: bool)
      requires selectedObjectIndex.Some? && handles.Some?
      modifies this`activeHandle, this`initialAngle, this`initialObjectRotation, this`initialDistance,
        this`initialObjectScale, this`isDrawing
      ensures grabbed ==>
        activeHandle.Some? && isDrawing && selectedObjectIndex.value < |objects|
        && Near(world, activeHandle.value, m) && activeHandle.value in handles.value
      ensures grabbed && activeHandle.value.action == RotateAction ==>
        initialAngle == CalculateAngle(ObjectCenter(SpanOf(objects[selectedObjectIndex.value])), world, m)
        && initialObjectRotation == OrZeroReal(objects[selectedObjectIndex.value].rotation)
      ensures grabbed && activeHandle.value.action == ScaleAction ==>
        initialDistance == CalculateDistance(ObjectCenter(SpanOf(objects[selectedObjectIndex.value])), world, m)
        && initialObjectScale == Point(OrOne(objects[selectedObjectIndex.value].scaleX),
                                       OrOne(objects[selectedObjectIndex.value].scaleY))
      ensures !grabbed ==> activeHandle == old(activeHandle) && isDrawing == old(isDrawing)
      ensures grabbed <==> selectedObjectIndex.value < |objects| && AnyNear(world, handles.value, m)
      ensures grabbed ==> GrabbedFrom(old(Snapshot()), Snapshot(), world, objects[selectedObjectIndex.value], handles.value, m)
      ensures !grabbed ==> Snapshot() == old(Snapshot())
    {
      var hit := HitTestHandles(world, handles, m);
      if hit.None? || selectedObjectIndex.value >= |objects| {
        return false;
      }
      activeHandle := hit;
      var selected := objects[selectedObjectIndex.value];
      var center := ObjectCenter(SpanOf(selected));
      if hit.value.action == RotateAction {
        initialAngle := CalculateAngle(center, world, m);
        initialObjectRotation := OrZeroReal(selected.rotation);
      } else {
        initialDistance := CalculateDistance(center, world, m);
        initialObjectScale := Point(OrOne(selected.scaleX), OrOne(selected.scaleY));
      }
      isDrawing := true;
      return true;
    }

    /** A press that is neither blocked nor a pan, at the world point
        `world`: it starts a drag there; the text tool opens its input, the
        select tool grabs a handle or selects the topmost object hit, and
        the other tools start drawing (the pen with a one-point path). */
    method Press(world: Point, store: CanvasState, text: TextTool.TextToolState, m: Maths)
      modifies this`startX, this`startY, this`currentX, this`currentY, this`path, this`selectedObjectIndex,
        this`activeHandle, this`initialAngle, this`initialDistance, this`initialObjectRotation,
        this`initialObjectScale, this`isDrawing,
        text`clickedPosition, text`textSubmitted, text`textareaOpen, text`showTextInput, store`textPosition
      ensures startX == world.x && startY == world.y && currentX == world.x && currentY == world.y
      ensures store.currentTool == TextTool ==>
        text.clickedPosition == world && store.textPosition == world && text.textareaOpen
      ensures store.currentTool == SelectTool && handles.None? ==>
        TopmostHit(store.objects, world, m, selectedObjectIndex) && isDrawing == selectedObjectIndex.Some?
      ensures store.currentTool != TextTool && store.currentTool != SelectTool ==>
        isDrawing && activeHandle.None? && (store.currentTool == PenTool ==> path == Some([world]))
      ensures PressedFrom(old(Snapshot()), Snapshot(), world, store.currentTool, store.objects, handles, m)
      ensures store.currentTool != TextTool ==>
        unchanged(text) && store.textPosition == old(store.textPosition)
      ensures store.currentTool == TextTool ==> text.showTextInput && !text.textSubmitted
    {
      ghost var g := Snapshot();
      startX, startY, currentX, currentY := world.x, world.y, world.x, world.y;
      assert Snapshot() == g.(start := world, current := world);
      if store.currentTool == TextTool {
        text.ActivateTextTool(world, store);
      } else {
        PressTool(world, store.currentTool, store.objects, m);
        PressFromMoved(g, Snapshot(), world, store.currentTool, store.objects, handles, m);
      }
      PressFacts(g, Snapshot(), world, store.currentTool, store.objects, handles, m);
    }

    /** The part of a press after the start and current points are set, for
        every tool but text: a handle grab or a selection for the select
        tool, the start of a drawing for the others. */
    method PressTool(world: Point, tool: DrawingTool, objects: seq<CanvasObject>, m: Maths)
      requires tool != TextTool && startX == world.x && startY == world.y && currentX == world.x && currentY == world.y
      modifies this`path, this`selectedObjectIndex, this`activeHandle, this`initialAngle, this`initialDistance,
        this`initialObjectRotation, this`initialObjectScale, this`isDrawing
      ensures PressedFrom(old(Snapshot()), Snapshot(), world, tool, objects, handles, m)
    {
      var grabbed := false;
      if tool == SelectTool && selectedObjectIndex.Some? && handles.Some? {
        grabbed := GrabHandle(world, objects, m);
      }
      if grabbed {
      } else if tool == SelectTool {
        SelectAt(world, objects, m);
      } else {
        if tool == PenTool {
          path := Some([world]);
        }
        activeHandle := None;
        isDrawing := true;
      }
    }

    /** `handleMouseDown` at the canvas point `mouse`; `panButton` is the
        middle button or meta. Ignored while a text input is open; a pan
        press starts dragging the view, any other press is `Press` at the
        world point under the cursor. */
    method MouseDown(mouse: Point, panButton: bool, store: CanvasState, text: TextTool.TextToolState, m: Maths)
      requires store.scale != 0.0
      modifies this`startX, this`startY, this`currentX, this`currentY, this`path, this`selectedObjectIndex,
        this`activeHandle, this`initialAngle, this`initialDistance, this`initialObjectRotation,
        this`initialObjectScale, this`isDrawing, this`isDragging, this`dragStart,
        text`clickedPosition, text`textSubmitted, text`textareaOpen, text`showTextInput, store`textPosition
      ensures old(text.showTextInput) || old(text.textareaOpen) ==>
        text.showTextInput == old(text.showTextInput) && text.textareaOpen == old(text.textareaOpen)
        && isDrawing == old(isDrawing) && isDragging == old(isDragging) && selectedObjectIndex == old(selectedObjectIndex)
      ensures !(old(text.showTextInput) || old(text.textareaOpen)) && panButton ==> isDragging && dragStart == mouse
      ensures var world := ScreenToWorld(mouse, store.offset, store.scale);
        !(old(text.showTextInput) || old(text.textareaOpen)) && !panButton ==>
          startX == world.x && startY == world.y
          && (store.currentTool == TextTool ==> text.clickedPosition == world && text.textareaOpen)
          && (store.currentTool == SelectTool && handles.None? ==>
                TopmostHit(store.objects, world, m, selectedObjectIndex) && isDrawing == selectedObjectIndex.Some?)
          && (store.currentTool != TextTool && store.currentTool != SelectTool ==> isDrawing)
      ensures old(text.showTextInput) || old(text.textareaOpen) ==>
        Snapshot() == old(Snapshot()) && unchanged(text) && store.textPosition == old(store.textPosition)
      ensures !(old(text.showTextInput) || old(text.textareaOpen)) && panButton ==>
        Snapshot() == old(Snapshot()).(isDragging := true, dragStart := mouse)
        && unchanged(text) && store.textPosition == old(store.textPosition)
      ensures var world := ScreenToWorld(mouse, store.offset, store.scale);
        !(old(text.showTextInput) || old(text.textareaOpen)) && !panButton ==>
          PressedFrom(old(Snapshot()), Snapshot(), world, store.currentTool, store.objects, handles, m)
          && (store.currentTool == TextTool ==>
                store.textPosition == world && text.showTextInput && !text.textSubmitted)
          && (store.currentTool != TextTool ==> unchanged(text) && store.textPosition == old(store.textPosition))
    {
      if text.showTextInput || text.textareaOpen {
        return;
      }
      var world := ScreenToWorld(mouse, store.offset, store.scale);
      if panButton {
        isDragging := true;
        dragStart := mouse;
        return;
      }
      Press(world, store, text, m);
    }

    /** `handleCanvasMouseMove`: a pan step while dragging the view, the
        drag's current point (and the pen path) while drawing, and otherwise
        the hover hit test. */
    method MouseMove(mouse: Point, store: CanvasState, m: Maths)
      requires store.scale != 0.0
      modifies this`dragStart, this`currentX, this`currentY, this`path, this`hoveredObjectIndex, store`offset
      ensures isDragging ==> store.offset == Panned(old(store.offset), old(dragStart), mouse) && dragStart == mouse
      ensures !isDragging ==> store.offset == old(store.offset)
      ensures var world := ScreenToWorld(mouse, store.offset, store.scale);
        !isDragging && isDrawing && activeHandle.None? ==>
          currentX == world.x && currentY == world.y
          && path == (if store.currentTool == PenTool && old(path).Some? then Some(old(path).value + [world]) else old(path))
      ensures var world := ScreenToWorld(mouse, store.offset, store.scale);
        !isDragging && !isDrawing && activeHandle.None? ==> TopmostHit(store.objects, world, m, hoveredObjectIndex)
      ensures MovedFrom(old(Snapshot()), Snapshot(), ScreenToWorld(mouse, old(store.offset), store.scale), mouse,
                        store.currentTool, store.objects, m)
    {
      var world := ScreenToWorld(mouse, store.offset, store.scale);
      if isDragging {
        store.SetOffset(Panned(store.offset, dragStart, mouse));
        dragStart := mouse;
        return;
      }
      if isDrawing && activeHandle.None? {
        currentX, currentY := world.x, world.y;
        if store.currentTool == PenTool && path.Some? {
          path := Some(path.value + [world]);
        }
      } else if !isDrawing && activeHandle.None? {
        var found := HitTest(store.objects, world, m);
        hoveredObjectIndex := IndexOrNone(found);
      }
    }

    /** `handleMouseUp`: ends a pan or a drag and returns the object a drawing
        tool created (handed on to the application), after which the tool
        is reset to none. */
    method MouseUp(store: CanvasState, text: TextTool.TextToolState) returns (created: Option<CanvasObject>)
      modifies this`isDragging, this`isDrawing, this`activeHandle, this`path, store`currentTool
      ensures var blocked := old(text.showTextInput) || old(text.textareaOpen);
        var tool := old(store.currentTool);
        var proceeds := !blocked && !old(isDragging) && (old(isDrawing) || tool == TextTool || old(activeHandle).Some?)
          && tool != TextTool && !(tool == SelectTool && old(activeHandle).None?);
        var start := Point(startX, startY);
        var current := Point(currentX, currentY);
        var held := old(activeHandle).Some?;
        var makes := proceeds && (old(isDrawing) || ClickToCreate(tool, start, current, held)) && !(tool == SelectTool && held);
        created == (if makes then NewShape(tool, start, ShapeEnd(tool, start, current, held), store.currentColor,
                                           store.strokeWidth, old(path)) else None)
      ensures created.Some? ==> store.currentTool == NoTool
      ensures created.None? ==> store.currentTool == old(store.currentTool)
      ensures created.Some? && created.value.kind == PenTool ==> path.None?
      ensures var blocked := old(text.showTextInput) || old(text.textareaOpen);
        !blocked && old(isDragging) ==> !isDragging
      ensures var blocked := old(text.showTextInput) || old(text.textareaOpen);
        !blocked && !old(isDragging) && (old(isDrawing) || old(store.currentTool) == TextTool || old(activeHandle).Some?) ==>
          !isDrawing
      ensures var blocked := old(text.showTextInput) || old(text.textareaOpen);
        var tool := old(store.currentTool);
        var proceeds := !blocked && !old(isDragging) && (old(isDrawing) || tool == TextTool || old(activeHandle).Some?)
          && tool != TextTool && !(tool == SelectTool && old(activeHandle).None?);
        proceeds ==> activeHandle.None?
      ensures Snapshot() == Released(old(Snapshot()), old(store.currentTool), old(text.showTextInput) || old(text.textareaOpen))
    {
      ghost var g := Snapshot();
      created := None;
      if text.showTextInput || text.textareaOpen {
        return;
      }
      if isDragging {
        isDragging := false;
        return;
      }
      if !isDrawing && store.currentTool != TextTool && activeHandle.None? {
        return;
      }
      if store.currentTool == TextTool {
        isDrawing := false;
        return;
      }
      if store.currentTool == SelectTool && activeHandle.None? {
        isDrawing := false;
        return;
      }
      var start := Point(startX, startY);
      var end := Point(currentX, currentY);
      var isClickToCreate := false;
      if store.currentTool == RectangleTool && startX == currentX && startY == currentY && activeHandle.None? {
        end := Point(startX + 100.0, startY + 100.0);
        isClickToCreate := true;
      }
      assert isClickToCreate == ClickToCreate(store.currentTool, start, Point(currentX, currentY), activeHandle.Some?);
      assert end == ShapeEnd(store.currentTool, start, Point(currentX, currentY), activeHandle.Some?);
      var isTransforming := store.currentTool == SelectTool && activeHandle.Some?;
      if (isDrawing || isClickToCreate) && !isTransforming {
        var tool := store.currentTool;
        if tool == RectangleTool || tool == EllipseTool || tool == LineTool {
          created := NewShape(tool, start, end, store.currentColor, store.strokeWidth, None);
          assert created == NewShape(tool, start, end, store.currentColor, store.strokeWidth, path);
        } else if tool == PenTool && path.Some? {
          created := NewShape(tool, start, end, store.currentColor, store.strokeWidth, path);
          path := None;
        }
        if created.Some? {
          store.SetCurrentTool(NoTool);
        }
      }
      assert path == (if old(store.currentTool) == PenTool && g.isDrawing && g.path.Some? then None else g.path);
      isDrawing := false;
      activeHandle := None;
      assert Snapshot() == g.(isDrawing := false, activeHandle := None, path := path);
    }

    /** `handleWheel` with the wheel deltas; `zoomKey` is ctrl or meta. */
    method WheelEvent(mouse: Point, deltaX: real, deltaY: real, zoomKey: bool, store: CanvasState)
      requires store.scale != 0.0
      modifies store`scale, store`offset
      ensures View(store.scale, store.offset) == Wheel(View(old(store.scale), old(store.offset)), mouse, deltaX, deltaY, zoomKey)
    {
      var v := Wheel(View(store.scale, store.offset), mouse, deltaX, deltaY, zoomKey);
      store.SetScale(v.scale);
      store.SetOffset(v.offset);
    }

    /** The window's pointer-move handler while a handle is held: a rotate
        drag sets the rotation, a scale drag both scales, of the selected
        object. */
    method PointerMove(pointer: Point, store: CanvasState, m: Maths)
      requires store.scale != 0.0
      modifies store`objects
      ensures var p := ScreenToWorld(pointer, store.offset, store.scale);
        var live := activeHandle.Some? && selectedObjectIndex.Some? && selectedObjectIndex.value < |old(store.objects)|;
        (!live ==> store.objects == old(store.objects))
        && (live ==>
              var i := selectedObjectIndex.value;
              var center := ObjectCenter(SpanOf(old(store.objects)[i]));
              if activeHandle.value.action == RotateAction then
                store.objects == Rotated(old(store.objects), i,
                  DraggedRotation(initialObjectRotation, initialAngle, CalculateAngle(center, p, m)))
              else
                var s := DraggedScale(initialObjectScale, initialDistance, CalculateDistance(center, p, m));
                store.objects == (if s.None? then old(store.objects) else Scaled(old(store.objects), i, s.value.x, s.value.y)))
    {
      if activeHandle.None? || selectedObjectIndex.None? {
        return;
      }
      var p := ScreenToWorld(pointer, store.offset, store.scale);
      var i := selectedObjectIndex.value;
      // The source reads `objects[i]` unguarded and would throw here; no
      // caller leaves a selected index past the end.
      if i >= |store.objects| {
        return;
      }
      var center := ObjectCenter(SpanOf(store.objects[i]));
      if activeHandle.value.action == RotateAction {
        var currentAngle := CalculateAngle(center, p, m);
        store.RotateObject(i, DraggedRotation(initialObjectRotation, initialAngle, currentAngle));
      } else {
        var currentDistance := CalculateDistance(center, p, m);
        if initialDistance == 0.0 {
          return;
        }
        var s := DraggedScale(initialObjectScale, initialDistance, currentDistance);
        store.ScaleObject(i, s.value.x, s.value.y);
      }
    }

    /** The window's pointer-up handler: lets go of the handle. */
    method PointerUp()
      modifies this`activeHandle
      ensures activeHandle.None?
    {
      activeHandle := None;
    }

    /** `handleTextSubmit`: non-blank text becomes a text object at the
        clicked position in the current colour; the tool is reset and the
        input closed. */
    method TextSubmit(value: string, store: CanvasState, text: TextTool.TextToolState) returns (created: Option<CanvasObject>)
      modifies store`currentTool, text`showTextInput, text`textareaOpen
      ensures IsBlank(value) ==>
        created.None? && store.currentTool == old(store.currentTool)
        && text.showTextInput == old(text.showTextInput) && text.textareaOpen == old(text.textareaOpen)
      ensures !IsBlank(value) ==>
        created == Some(NewTextObject(text.clickedPosition, value, store.currentColor))
        && store.currentTool == NoTool && !text.showTextInput && !text.textareaOpen
    {
      if IsBlank(value) {
        return None;
      }
      created := Some(NewTextObject(text.clickedPosition, value, store.currentColor));
      store.SetCurrentTool(NoTool);
      text.showTextInput := false;
      text.textareaOpen := false;
    }
  }
}
