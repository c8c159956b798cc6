/** The application shell (App.tsx): it links the two stores. A shape the
    canvas finishes becomes a layer and a canvas object sharing one id, and
    the panel's appearance and the selected layer's visibility are copied
    onto the canvas object with that id whenever they differ. */
module App {
  import opened JsValues
  import opened Types
  import opened Store
  import opened LayerStore

  // ---------------------------------------------------------------------------
  // Finding by id

  /** `layers.findIndex(layer => layer.id === id)`: the first layer with the
      id, or -1. */
  function FindLayerIndex(layers: seq<Layer>, id: string): (k: int)
    ensures -1 <= k < |layers|
    ensures k >= 0 ==> layers[k].id == id
    ensures forall j :: 0 <= j < |layers| && (k == -1 || j < k) ==> layers[j].id != id
  {
    if |layers| == 0 then -1
    else if layers[0].id == id then 0
    else
      var k := FindLayerIndex(layers[1..], id);
      if k == -1 then -1 else k + 1
  }

  /** `objects.findIndex(obj => obj.id === id)`: the first object carrying
      the id, or -1; an object without an id matches no id. */
  function FindObjectIndex(objects: seq<CanvasObject>, id: string): (k: int)
    ensures -1 <= k < |objects|
    ensures k >= 0 ==> objects[k].id == Some(id)
    ensures forall j :: 0 <= j < |objects| && (k == -1 || j < k) ==> objects[j].id != Some(id)
  {
    if |objects| == 0 then -1
    else if objects[0].id == Some(id) then 0
    else
      var k := FindObjectIndex(objects[1..], id);
      if k == -1 then -1 else k + 1
  }

  /** Two lists with the same ids position by position have the same first
      object with a given id. */
  lemma SameIdsSameIndex(a: seq<CanvasObject>, b: seq<CanvasObject>, id: string)
    requires |a| == |b| && forall i :: 0 <= i < |a| ==> a[i].id == b[i].id
    ensures FindObjectIndex(a, id) == FindObjectIndex(b, id)
  {
  }

  // ---------------------------------------------------------------------------
  // Creating an object

  /** `handleSkiaObjectCreated(data)`: a layer of the object's type is added
      (its id is the one the layer store generates, passed in as `newId`),
      the object is added to the canvas store under that id, and the id is
      returned. */
  method HandleSkiaObjectCreated(data: CanvasObject, layerState: LayerState, canvas: CanvasState, newId: string)
    returns (layerId: string)
    requires layerState.Valid()
    modifies layerState, canvas`objects
    ensures layerState.Valid() && layerId == newId
    ensures layerState.layers == WithNewLayer(old(layerState.layers), newId, data.kind.Name(), None)
    ensures layerState.selectedLayerId == Some(newId)
    ensures canvas.objects == Added(old(canvas.objects), data.(id := Some(newId)))
    ensures TypeDefaults(data.kind.Name()).Some? ==>
      (layerState.position, layerState.dimensions, layerState.appearance) == TypeDefaults(data.kind.Name()).value
    ensures TypeDefaults(data.kind.Name()).None? ==>
      layerState.position == old(layerState.position) && layerState.dimensions == old(layerState.dimensions)
      && layerState.appearance == old(layerState.appearance)
  {
    layerId := layerState.AddLayer(data.kind.Name(), None, newId);
    var full := data.(id := Some(layerId));
    canvas.AddObject(full);
  }

  /** With a fresh id the object is appended and the layer too, and each is
      the first entry of its list carrying the id, so the sync below finds
      the new object from the new layer. */
  lemma CreatedObjectLinked(objects: seq<CanvasObject>, layers: seq<Layer>, data: CanvasObject, newId: string)
    requires forall i :: 0 <= i < |objects| ==> objects[i].id != Some(newId)
    requires !HasLayer(layers, newId)
    ensures var o := data.(id := Some(newId));
      var objs := Added(objects, o);
      objs == objects + [WithDefaults(o)]
      && FindObjectIndex(objs, newId) == |objects|
      && FindLayerIndex(WithNewLayer(layers, newId, data.kind.Name(), None), newId) == |layers|
  {
    var o := data.(id := Some(newId));
    assert ReplacedSlot(objects, o) == -1 by {
      if o.kind == TextTool {
        var k := FindTextIndex(objects, newId);
        if k >= 0 {
          assert IsTextWithId(objects[k], newId);
        }
      }
    }
    var objs := Added(objects, o);
    assert objs[|objects|].id == Some(newId);
    var ls := WithNewLayer(layers, newId, data.kind.Name(), None);
    assert ls[|layers|].id == newId;
    assert forall j :: 0 <= j < |layers| ==> ls[j].id == layers[j].id;
  }

  // ---------------------------------------------------------------------------
  // The layer to canvas sync

  /** `a !== b` between the panel's stroke width and an object's optional
      one: an absent width differs, and NaN differs from everything. */
  predicate StrokeWidthDiffers(w: Num, objectWidth: Option<Num>) {
    objectWidth.None? || !StrictEquals(w, objectWidth.value)
  }

  /** The `updates` object the sync builds for object `o`: each of fill,
      stroke, stroke width and visibility that differs from the panel's
      appearance or the layer's visibility, with the new value. */
  function SyncPatch(a: Appearance, visible: bool, o: CanvasObject): (p: Patch)
    ensures p == EmptyPatch ==> InSync(a, visible, o)
    ensures InSync(a, visible, o) && !a.strokeWidth.NaN? ==> p == EmptyPatch
  {
    Patch(
      if a.fill != o.fillColor then Some(a.fill) else None,
      if a.stroke != o.strokeColor then Some(a.stroke) else None,
      if StrokeWidthDiffers(a.strokeWidth, o.strokeWidth) then Some(a.strokeWidth) else None,
      if o.visible != Some(visible) then Some(visible) else None)
  }

  /** The object shows the panel's appearance and the layer's visibility. */
  predicate InSync(a: Appearance, visible: bool, o: CanvasObject) {
    o.fillColor == a.fill && o.strokeColor == a.stroke
    && o.strokeWidth == Some(a.strokeWidth) && o.visible == Some(visible)
  }

  /** The update the sync effect issues for the stores' state: the slot and
      the patch of `updateCanvasObject`, or None when it issues none. It
      needs a non-empty selected id, a layer with it, an object with it and
      at least one field that differs. */
  function SyncUpdate(layers: seq<Layer>, selectedId: Option<string>, a: Appearance, objects: seq<CanvasObject>)
    : (r: Option<(nat, Patch)>)
    ensures r.Some? ==>
              r.value.0 < |objects| && selectedId.Some?
              && objects[r.value.0].id == selectedId && r.value.1 != EmptyPatch
  {
    if selectedId.None? || selectedId.value == "" then None
    else
      var li := FindLayerIndex(layers, selectedId.value);
      if li == -1 then None
      else
        var k := FindObjectIndex(objects, selectedId.value);
        if k == -1 then None
        else
          var p := SyncPatch(a, layers[li].visible, objects[k]);
          if p == EmptyPatch then None else Some((k, p))
  }

  /** The sync effect: reads the layer store and, when a field differs,
      issues one `updateCanvasObject`; returns what it issued. */
  method SyncLayerToCanvas(layerState: LayerState, canvas: CanvasState) returns (issued: Option<(nat, Patch)>)
    modifies canvas`objects
    ensures issued == SyncUpdate(layerState.layers, layerState.selectedLayerId, layerState.appearance, old(canvas.objects))
    ensures issued.None? ==> canvas.objects == old(canvas.objects)
    ensures issued.Some? ==>
              issued.value.0 < |old(canvas.objects)|
              && canvas.objects == Updated(old(canvas.objects), issued.value.0, issued.value.1)
  {
    issued := None;
    var selectedId := layerState.selectedLayerId;
    if selectedId.None? || selectedId.value == "" {
      return;
    }
    var li := FindLayerIndex(layerState.layers, selectedId.value);
    if li == -1 {
      return;
    }
    var selectedLayer := layerState.layers[li];
    var index := FindObjectIndex(canvas.objects, selectedId.value);
    if index == -1 {
      return;
    }
    var o := canvas.objects[index];
    var appearance := layerState.appearance;
    var fill, stroke, width, visible := None, None, None, None;
    var changed := false;
    if appearance.fill != o.fillColor {
      fill := Some(appearance.fill);
      changed := true;
    }
    if appearance.stroke != o.strokeColor {
      stroke := Some(appearance.stroke);
      changed := true;
    }
    if StrokeWidthDiffers(appearance.strokeWidth, o.strokeWidth) {
      width := Some(appearance.strokeWidth);
      changed := true;
    }
    if Some(selectedLayer.visible) != o.visible {
      visible := Some(selectedLayer.visible);
      changed := true;
    }
    var updates := Patch(fill, stroke, width, visible);
    assert updates == SyncPatch(appearance, selectedLayer.visible, o);
    assert changed <==> updates != EmptyPatch;
    if changed {
      canvas.UpdateObject(index, updates);
      issued := Some((index, updates));
    }
  }

  // ---------------------------------------------------------------------------
  // Properties of the sync

  /** The patch carries exactly the fields that differ, the patched object is
      in sync and keeps everything else (position, size, rotation, scale,
      id, path and text), and, for a stroke width that is a number, the
      patch is empty exactly when the object is already in sync. */
  lemma SyncPatchRules(a: Appearance, visible: bool, o: CanvasObject)
    ensures var p := SyncPatch(a, visible, o);
      (p.fillColor.Some? <==> o.fillColor != a.fill)
      && (p.strokeColor.Some? <==> o.strokeColor != a.stroke)
      && (p.strokeWidth.Some? <==> (o.strokeWidth != Some(a.strokeWidth) || a.strokeWidth.NaN?))
      && (p.visible.Some? <==> o.visible != Some(visible))
    ensures var m := Merged(o, SyncPatch(a, visible, o));
      InSync(a, visible, m)
      && m == o.(fillColor := a.fill, strokeColor := a.stroke, strokeWidth := Some(a.strokeWidth),
                 visible := Some(visible))
    ensures !a.strokeWidth.NaN? ==> (SyncPatch(a, visible, o) == EmptyPatch <==> InSync(a, visible, o))
  {
  }

  /** Right after the sync's update, running it again on the new objects
      issues nothing: the same object is found and is now in sync. This
      needs a stroke width that is a number, which the layer store keeps. */
  lemma SyncIdempotent(layers: seq<Layer>, selectedId: Option<string>, a: Appearance, objects: seq<CanvasObject>)
    requires !a.strokeWidth.NaN?
    ensures var r := SyncUpdate(layers, selectedId, a, objects);
      r.Some? ==> SyncUpdate(layers, selectedId, a, Updated(objects, r.value.0, r.value.1)) == None
  {
    var r := SyncUpdate(layers, selectedId, a, objects);
    if r.Some? {
      var id := selectedId.value;
      var (k, p) := r.value;
      var li := FindLayerIndex(layers, id);
      var after := Updated(objects, k, p);
      UpdateChangesOneSlot(objects, k, p);
      SameIdsSameIndex(objects, after, id);
      SyncPatchRules(a, layers[li].visible, objects[k]);
      SyncPatchRules(a, layers[li].visible, after[k]);
    }
  }

  /** The sync issues nothing without a selected id, for the empty id, when
      no layer has the id, or when no canvas object carries it. */
  lemma SyncNeedsBothEnds(layers: seq<Layer>, selectedId: Option<string>, a: Appearance, objects: seq<CanvasObject>)
    ensures selectedId.None? || selectedId == Some("") ==> SyncUpdate(layers, selectedId, a, objects) == None
    ensures selectedId.Some? && !HasLayer(layers, selectedId.value) ==> SyncUpdate(layers, selectedId, a, objects) == None
    ensures selectedId.Some? && (forall i :: 0 <= i < |objects| ==> objects[i].id != selectedId) ==>
      SyncUpdate(layers, selectedId, a, objects) == None
  {
    if selectedId.Some? && selectedId.value != "" {
      var li := FindLayerIndex(layers, selectedId.value);
      if li != -1 {
        assert HasLayer(layers, selectedId.value);
      }
    }
  }

  /** When the sync issues an update, it names the first object with the
      selected layer's id, the patch is that of the layer's visibility and
      the panel's appearance, and the update leaves every other object and
      every field but the four synchronised ones as they were. */
  lemma SyncUpdateTarget(layers: seq<Layer>, selectedId: Option<string>, a: Appearance, objects: seq<CanvasObject>)
    ensures var r := SyncUpdate(layers, selectedId, a, objects);
      r.Some? ==>
        var k := r.value.0;
        var after := Updated(objects, k, r.value.1);
        var li := FindLayerIndex(layers, selectedId.value);
        k == FindObjectIndex(objects, selectedId.value) && li >= 0
        && |after| == |objects|
        && (forall i :: 0 <= i < |objects| && i != k ==> after[i] == objects[i])
        && InSync(a, layers[li].visible, after[k])
        && after[k] == objects[k].(fillColor := after[k].fillColor, strokeColor := after[k].strokeColor,
                                   strokeWidth := after[k].strokeWidth, visible := after[k].visible)
  {
    var r := SyncUpdate(layers, selectedId, a, objects);
    if r.Some? {
      var li := FindLayerIndex(layers, selectedId.value);
      UpdateChangesOneSlot(objects, r.value.0, r.value.1);
      SyncPatchRules(a, layers[li].visible, objects[r.value.0]);
    }
  }
}
