/** The scene object store (store.ts): the ordered list of canvas objects with
    add, update, remove, rotate, scale and visibility toggling, plus the view
    state (tool, zoom, pan offset, text position, current colours). Every
    action computes the next list from the current one (the functions below)
    and the store object replaces its field with it (class CanvasState). */
module Store {
  import opened JsValues
  import opened Types

  /** A canvas object. Optional fields are absent (`None`) when the source
      leaves them undefined; `path` is the sequence of points of a pen path,
      `text` and `fontSize` belong to text objects. */
  datatype CanvasObject = CanvasObject(
    kind: DrawingTool,
    startX: real,
    startY: real,
    endX: real,
    endY: real,
    fillColor: string,
    strokeColor: string,
    strokeWidth: Option<Num>,
    visible: Option<bool>,
    rotation: Option<real>,
    scaleX: Option<real>,
    scaleY: Option<real>,
    id: Option<string>,
    path: Option<seq<Point>>,
    text: Option<string>,
    fontSize: Option<real>)

  /** The fields an `updateObject` call can carry; a present field overrides
      the object's own. These are the fields the application ever updates. */
  datatype Patch = Patch(
    fillColor: Option<string>,
    strokeColor: Option<string>,
    strokeWidth: Option<Num>,
    visible: Option<bool>)

  const EmptyPatch := Patch(None, None, None, None)

  // ---------------------------------------------------------------------------
  // The list operations

  /** The defaults addObject fills in: visible unless it says otherwise, a
      stroke of "transparent" and a fill of "#FFFFFF" when the colour is empty. */
  function WithDefaults(o: CanvasObject): (r: CanvasObject)
    ensures r.visible.Some? && (o.visible.Some? ==> r.visible == o.visible)
    ensures o.visible.None? ==> r.visible == Some(true)
    ensures r.strokeColor != "" && (o.strokeColor != "" ==> r.strokeColor == o.strokeColor)
    ensures r.fillColor != "" && (o.fillColor != "" ==> r.fillColor == o.fillColor)
    ensures r == o.(visible := r.visible, strokeColor := r.strokeColor, fillColor := r.fillColor)
  {
    o.(visible := if o.visible.Some? then o.visible else Some(true),
       strokeColor := if o.strokeColor == "" then "transparent" else o.strokeColor,
       fillColor := if o.fillColor == "" then "#FFFFFF" else o.fillColor)
  }

  /** A text object carrying the id `id`. */
  predicate IsTextWithId(o: CanvasObject, id: string) {
    o.kind == TextTool && o.id == Some(id)
  }

  /** `findIndex` of the first text object with the id `id`, or -1. */
  function FindTextIndex(objects: seq<CanvasObject>, id: string): (k: int)
    ensures -1 <= k < |objects|
    ensures k >= 0 ==> IsTextWithId(objects[k], id)
    ensures forall j :: 0 <= j < |objects| && (k == -1 || j < k) ==> !IsTextWithId(objects[j], id)
  {
    if |objects| == 0 then -1
    else if IsTextWithId(objects[0], id) then 0
    else
      var k := FindTextIndex(objects[1..], id);
      if k == -1 then -1 else k + 1
  }

  /** The slot a text object `o` replaces, or -1 when it is to be appended. */
  function ReplacedSlot(objects: seq<CanvasObject>, o: CanvasObject): int {
    if o.kind == TextTool && o.id.Some? then FindTextIndex(objects, o.id.value) else -1
  }

  /** The list after `addObject(o)`: a text object whose id is already taken
      by a text object takes over that slot as given; anything else is
      appended with its defaults. Either way the new object is in the list,
      and no earlier slot changes but one given over to `o`. */
  function Added(objects: seq<CanvasObject>, o: CanvasObject): (r: seq<CanvasObject>)
    ensures |r| == |objects| || (|r| == |objects| + 1 && r[|objects|] == WithDefaults(o))
    ensures forall j :: 0 <= j < |objects| && r[j] != objects[j] ==> r[j] == o
  {
    var k := ReplacedSlot(objects, o);
    if k >= 0 then objects[k := o] else objects + [WithDefaults(o)]
  }

  /** The object after `{ ...o, ...p }`. */
  function Merged(o: CanvasObject, p: Patch): CanvasObject {
    o.(fillColor := if p.fillColor.Some? then p.fillColor.value else o.fillColor,
       strokeColor := if p.strokeColor.Some? then p.strokeColor.value else o.strokeColor,
       strokeWidth := if p.strokeWidth.Some? then p.strokeWidth else o.strokeWidth,
       visible := if p.visible.Some? then p.visible else o.visible)
  }

  /** The list after `updateObject(index, p)`: only slot `index` changes,
      and it stays the same object (type and id). */
  function Updated(objects: seq<CanvasObject>, index: nat, p: Patch): (r: seq<CanvasObject>)
    requires index < |objects|
    ensures |r| == |objects| && forall j :: 0 <= j < |r| && j != index ==> r[j] == objects[j]
    ensures r[index].id == objects[index].id && r[index].kind == objects[index].kind
  {
    objects[index := Merged(objects[index], p)]
  }

  /** The list after `removeObject(index)`: the filter keeping every position
      but `index`. One object goes when `index` names one, none otherwise,
      and nothing new appears. */
  function Removed(objects: seq<CanvasObject>, index: int): (r: seq<CanvasObject>)
    ensures |r| == if 0 <= index < |objects| then |objects| - 1 else |objects|
    ensures forall x :: x in r ==> x in objects
  {
    if |objects| == 0 then []
    else (if index == 0 then [] else [objects[0]]) + Removed(objects[1..], index - 1)
  }

  /** The list after `rotateObject(index, angle)`: slot `index` has the
      rotation `angle` and is still the same object. */
  function Rotated(objects: seq<CanvasObject>, index: nat, angle: real): (r: seq<CanvasObject>)
    requires index < |objects|
    ensures |r| == |objects| && r[index].rotation == Some(angle) && r[index].id == objects[index].id
  {
    objects[index := objects[index].(rotation := Some(angle))]
  }

  /** The list after `scaleObject(index, sx, sy)`: slot `index` has the
      two scales and is still the same object. */
  function Scaled(objects: seq<CanvasObject>, index: nat, sx: real, sy: real): (r: seq<CanvasObject>)
    requires index < |objects|
    ensures |r| == |objects| && r[index].scaleX == Some(sx) && r[index].scaleY == Some(sy)
    ensures r[index].id == objects[index].id
  {
    objects[index := objects[index].(scaleX := Some(sx), scaleY := Some(sy))]
  }

  /** `!visible`, where an undefined flag counts as false. */
  function Flipped(v: Option<bool>): bool {
    !(v == Some(true))
  }

  /** The list after `toggleObjectVisibility(index)`; nothing happens when
      there is no object at `index`. The flag of an existing slot always
      ends up defined and different. */
  function VisibilityToggled(objects: seq<CanvasObject>, index: int): (r: seq<CanvasObject>)
    ensures |r| == |objects|
    ensures 0 <= index < |objects| ==> r[index].visible.Some? && r[index].visible != objects[index].visible
  {
    if 0 <= index < |objects| then objects[index := objects[index].(visible := Some(Flipped(objects[index].visible)))]
    else objects
  }

  /** No two text objects share an id. */
  predicate UniqueTextIds(objects: seq<CanvasObject>) {
    forall i, j :: 0 <= i < j < |objects| && objects[i].kind == TextTool && objects[i].id.Some? ==>
      !IsTextWithId(objects[j], objects[i].id.value)
  }

  // ---------------------------------------------------------------------------
  // Properties of the list operations

  /** An object that does not replace a text slot is appended at the end with
      its defaults, and the list grows by one. */
  lemma AddAppends(objects: seq<CanvasObject>, o: CanvasObject)
    requires ReplacedSlot(objects, o) == -1
    ensures |Added(objects, o)| == |objects| + 1
    ensures Added(objects, o)[..|objects|] == objects
    ensures Added(objects, o)[|objects|] == WithDefaults(o)
  {
    assert (objects + [WithDefaults(o)])[..|objects|] == objects;
  }

  /** A text object whose id some text object already has replaces the first
      such object as given (without defaults); the length and every other
      slot stay. */
  lemma AddReplacesText(objects: seq<CanvasObject>, o: CanvasObject, j: nat)
    requires o.kind == TextTool && o.id.Some?
    requires j < |objects| && IsTextWithId(objects[j], o.id.value)
    ensures var k := FindTextIndex(objects, o.id.value);
      0 <= k <= j && |Added(objects, o)| == |objects| && Added(objects, o)[k] == o
      && forall i :: 0 <= i < |objects| && i != k ==> Added(objects, o)[i] == objects[i]
  {
  }

  /** Adding keeps text ids unique: an object either takes over the slot of
      the text object with its id or brings an id no text object has. */
  lemma AddKeepsTextIdsUnique(objects: seq<CanvasObject>, o: CanvasObject)
    requires UniqueTextIds(objects)
    ensures UniqueTextIds(Added(objects, o))
  {
    var r := Added(objects, o);
    var k := ReplacedSlot(objects, o);
    forall i, j | 0 <= i < j < |r| && r[i].kind == TextTool && r[i].id.Some?
      ensures !IsTextWithId(r[j], r[i].id.value)
    {
      if k >= 0 {
        assert r[k] == o;
        if i != k && j != k {
          assert r[i] == objects[i] && r[j] == objects[j];
        } else if i == k {
          // every slot after the first match held no text object with this id
          assert r[j] == objects[j];
          assert IsTextWithId(objects[k], o.id.value);
        } else {
          assert r[i] == objects[i];
          assert IsTextWithId(objects[k], o.id.value);
        }
      } else if j == |objects| {
        assert r[j] == WithDefaults(o) && r[i] == objects[i];
        if IsTextWithId(r[j], r[i].id.value) {
          assert IsTextWithId(objects[i], o.id.value);
        }
      } else {
        assert r[i] == objects[i] && r[j] == objects[j];
      }
    }
  }

  /** `updateObject(index, p)` changes slot `index` only, and there exactly the
      fields the patch carries. */
  lemma UpdateChangesOneSlot(objects: seq<CanvasObject>, index: nat, p: Patch)
    requires index < |objects|
    ensures var r := Updated(objects, index, p);
      |r| == |objects|
      && (forall i :: 0 <= i < |objects| && i != index ==> r[i] == objects[i])
      && (p.fillColor.Some? ==> r[index].fillColor == p.fillColor.value)
      && (p.strokeColor.Some? ==> r[index].strokeColor == p.strokeColor.value)
      && (p.strokeWidth.Some? ==> r[index].strokeWidth == p.strokeWidth)
      && (p.visible.Some? ==> r[index].visible == p.visible)
      && r[index] == objects[index].(fillColor := r[index].fillColor, strokeColor := r[index].strokeColor,
                                     strokeWidth := r[index].strokeWidth, visible := r[index].visible)
      && (p.fillColor.None? ==> r[index].fillColor == objects[index].fillColor)
      && (p.strokeColor.None? ==> r[index].strokeColor == objects[index].strokeColor)
      && (p.strokeWidth.None? ==> r[index].strokeWidth == objects[index].strokeWidth)
      && (p.visible.None? ==> r[index].visible == objects[index].visible)
  {
  }

  /** Applying the same patch twice is applying it once. */
  lemma MergeIdempotent(o: CanvasObject, p: Patch)
    ensures Merged(Merged(o, p), p) == Merged(o, p)
    ensures Merged(o, EmptyPatch) == o
  {
  }

  /** `removeObject(index)` deletes exactly position `index` and keeps the
      order of the rest. */
  lemma {:induction false} RemoveDeletesOne(objects: seq<CanvasObject>, index: nat)
    requires index < |objects|
    ensures Removed(objects, index) == objects[..index] + objects[index + 1..]
  {
    if index == 0 {
      RemoveOutOfRange(objects[1..], -1);
    } else {
      assert Removed(objects, index) == [objects[0]] + Removed(objects[1..], index - 1);
      RemoveDeletesOne(objects[1..], index - 1);
      assert objects[1..][..index - 1] == objects[1..index];
      assert objects[1..][index..] == objects[index + 1..];
      assert [objects[0]] + objects[1..index] == objects[..index];
    }
  }

  /** An index with no object removes nothing. */
  lemma {:induction false} RemoveOutOfRange(objects: seq<CanvasObject>, index: int)
    requires index < 0 || index >= |objects|
    ensures Removed(objects, index) == objects
  {
    if |objects| > 0 {
      RemoveOutOfRange(objects[1..], index - 1);
      assert [objects[0]] + objects[1..] == objects;
    }
  }

  /** `rotateObject` changes only the rotation of slot `index`. */
  lemma RotateChangesRotationOnly(objects: seq<CanvasObject>, index: nat, angle: real)
    requires index < |objects|
    ensures var r := Rotated(objects, index, angle);
      |r| == |objects| && r[index].rotation == Some(angle)
      && r[index].(rotation := objects[index].rotation) == objects[index]
      && forall i :: 0 <= i < |objects| && i != index ==> r[i] == objects[i]
  {
  }

  /** `scaleObject` changes only the two scales of slot `index`. */
  lemma ScaleChangesScalesOnly(objects: seq<CanvasObject>, index: nat, sx: real, sy: real)
    requires index < |objects|
    ensures var r := Scaled(objects, index, sx, sy);
      |r| == |objects| && r[index].scaleX == Some(sx) && r[index].scaleY == Some(sy)
      && r[index].(scaleX := objects[index].scaleX, scaleY := objects[index].scaleY) == objects[index]
      && forall i :: 0 <= i < |objects| && i != index ==> r[i] == objects[i]
  {
  }

  /** Toggling flips a defined flag of slot `index` (an undefined one becomes
      true) and leaves everything else. */
  lemma ToggleFlips(objects: seq<CanvasObject>, index: int)
    requires 0 <= index < |objects|
    ensures var r := VisibilityToggled(objects, index);
      |r| == |objects|
      && (objects[index].visible.Some? ==> r[index].visible == Some(!objects[index].visible.value))
      && (objects[index].visible.None? ==> r[index].visible == Some(true))
      && r[index].(visible := objects[index].visible) == objects[index]
      && forall i :: 0 <= i < |objects| && i != index ==> r[i] == objects[i]
  {
  }

  /** Toggling twice restores the list when the flag was defined, and an
      index with no object is a no-op. */
  lemma ToggleTwice(objects: seq<CanvasObject>, index: int)
    requires (0 <= index < |objects|) ==> objects[index].visible.Some?
    ensures VisibilityToggled(VisibilityToggled(objects, index), index) == objects
    ensures !(0 <= index < |objects|) ==> VisibilityToggled(objects, index) == objects
  {
    if 0 <= index < |objects| {
      var o := objects[index];
      if o.visible == Some(true) {
        assert Flipped(Some(Flipped(o.visible)));
      } else {
        assert o.visible.Some? && !o.visible.value;
      }
    }
  }

  // ---------------------------------------------------------------------------
  // The store

  class CanvasState {
    var currentTool: DrawingTool
    var scale: real
    var offset: Point
    var textPosition: Point
    var objects: seq<CanvasObject>
    var currentColor: string
    var currentStrokeColor: string
    var strokeWidth: real

    /** The initial store: no tool, zoom 1, no pan, no objects, white fill,
        black stroke, stroke width 2. */
    constructor ()
      ensures currentTool == NoTool && scale == 1.0 && offset == Point(0.0, 0.0)
      ensures textPosition == Point(0.0, 0.0) && objects == []
      ensures currentColor == "#FFFFFF" && currentStrokeColor == "#000000" && strokeWidth == 2.0
    {
      currentTool := NoTool;
      scale := 1.0;
      offset := Point(0.0, 0.0);
      textPosition := Point(0.0, 0.0);
      objects := [];
      currentColor := "#FFFFFF";
      currentStrokeColor := "#000000";
      strokeWidth := 2.0;
    }

    method SetCurrentTool(tool: DrawingTool)
      modifies this`currentTool
      ensures currentTool == tool
    {
      currentTool := tool;
    }

    method SetScale(s: real)
      modifies this`scale
      ensures scale == s
    {
      scale := s;
    }

    method SetOffset(p: Point)
      modifies this`offset
      ensures offset == p
    {
      offset := p;
    }

    method SetTextPosition(p: Point)
      modifies this`textPosition
      ensures textPosition == p
    {
      textPosition := p;
    }

    method SetColor(color: string)
      modifies this`currentColor
      ensures currentColor == color
    {
      currentColor := color;
    }

    method SetStrokeColor(color: string)
      modifies this`currentStrokeColor
      ensures currentStrokeColor == color
    {
      currentStrokeColor := color;
    }

    method SetStrokeWidth(width: real)
      modifies this`strokeWidth
      ensures strokeWidth == width
    {
      strokeWidth := width;
    }

    method AddObject(o: CanvasObject)
      modifies this`objects
      ensures objects == Added(old(objects), o)
      ensures UniqueTextIds(old(objects)) ==> UniqueTextIds(objects)
    {
      if UniqueTextIds(objects) {
        AddKeepsTextIdsUnique(objects, o);
      }
      objects := Added(objects, o);
    }

    method UpdateObject(index: nat, p: Patch)
      requires index < |objects|
      modifies this`objects
      ensures objects == Updated(old(objects), index, p)
    {
      objects := Updated(objects, index, p);
    }

    method RemoveObject(index: int)
      modifies this`objects
      ensures objects == Removed(old(objects), index)
    {
      objects := Removed(objects, index);
    }

    method RotateObject(index: nat, angle: real)
      requires index < |objects|
      modifies this`objects
      ensures objects == Rotated(old(objects), index, angle)
    {
      objects := Rotated(objects, index, angle);
    }

    method ScaleObject(index: nat, sx: real, sy: real)
      requires index < |objects|
      modifies this`objects
      ensures objects == Scaled(old(objects), index, sx, sy)
    {
      objects := Scaled(objects, index, sx, sy);
    }

    method ToggleObjectVisibility(index: int)
      modifies this`objects
      ensures objects == VisibilityToggled(old(objects), index)
    {
      objects := VisibilityToggled(objects, index);
    }
  }
}
