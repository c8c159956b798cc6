/** The layer store (useLayerStore.ts): the layer list with its single
    selection, and the property-panel values (position, dimensions,
    appearance) of the layer being edited. Each action computes new values
    from the current ones (the functions below) and the store replaces its
    fields with them (class LayerState). */
module LayerStore {
  import opened JsValues
  import opened Types

  /** A position field (`"x" | "y" | "rotation"`). */
  datatype Axis = X | Y | Rotation

  /** A dimension field (`"width" | "height"`). */
  datatype Dimension = Width | Height

  /** An `updateAppearance` call: a colour for fill or stroke, or a stroke
      width given as a string or a number. */
  datatype AppearanceEdit = Fill(color: string) | Stroke(color: string) | StrokeWidth(value: NumInput)

  /** An `updateShadow` call: the field and the value to store in it. */
  datatype ShadowEdit =
    | Enabled(on: bool)
    | OffsetX(x: Num)
    | OffsetY(y: Num)
    | Blur(blur: Num)
    | Spread(spread: Num)
    | Color(color: string)

  datatype Corner = TopLeft | TopRight | BottomLeft | BottomRight

  /** An `updateCornerRadius` call: the independent flag, one value for all
      four corners, or one corner. */
  datatype CornerEdit = Independent(on: bool) | All(radius: Num) | OneCorner(corner: Corner, radius: Num)

  /** The panel values the store starts with. */
  const InitialPosition := Position(Fin(0.0), Fin(0.0), Fin(0.0))
  const InitialDimensions := Dimensions(Fin(200.0), Fin(200.0))
  const InitialAppearance := Appearance("#FFFFFF", "transparent", Fin(2.0), DefaultShadow, DefaultCorners)

  // ---------------------------------------------------------------------------
  // Adding and selecting layers

  /** The name of the layer added when `count` layers exist: the type with a
      capital first letter, a space and `count + 1`. */
  function LayerName(kind: string, count: nat): string {
    Capitalized(kind) + " " + NatToDecimal(count + 1)
  }

  /** `parentId || undefined`: an empty or missing parent is no parent. */
  function ParentOrNone(parentId: Option<string>): (r: Option<string>)
    ensures r.Some? <==> parentId.Some? && parentId.value != ""
    ensures r.Some? ==> r == parentId
  {
    if parentId == Some("") then None else parentId
  }

  /** The layer `addLayer` appends. */
  function NewLayer(id: string, kind: string, count: nat, parentId: Option<string>): Layer {
    Layer(id, LayerName(kind, count), kind, true, false, ParentOrNone(parentId), true)
  }

  /** Every layer with its `selected` flag cleared. */
  function Deselected(layers: seq<Layer>): seq<Layer> {
    seq(|layers|, i requires 0 <= i < |layers| => layers[i].(selected := false))
  }

  /** The layer list after `addLayer`: one more layer, carrying the id and
      selected, after the earlier ones, which keep their ids and lose their
      selection. */
  function WithNewLayer(layers: seq<Layer>, id: string, kind: string, parentId: Option<string>): (r: seq<Layer>)
    ensures |r| == |layers| + 1 && r[|layers|].id == id && r[|layers|].selected
    ensures forall i :: 0 <= i < |layers| ==> r[i].id == layers[i].id && !r[i].selected
  {
    Deselected(layers) + [NewLayer(id, kind, |layers|, parentId)]
  }

  /** The panel values a new layer of a known type starts with, or None for a
      type that keeps the current values. The four known types start
      unrotated with a positive width and height. */
  function TypeDefaults(kind: string): (r: Option<(Position, Dimensions, Appearance)>)
    ensures r.Some? <==> kind == "rectangle" || kind == "frame" || kind == "ellipse" || kind == "text"
    ensures r.Some? ==>
      (r.value.0.rotation == Fin(0.0)
       && r.value.1.width.Fin? && r.value.1.width.v > 0.0 && r.value.1.height.Fin? && r.value.1.height.v > 0.0)
  {
    if kind == "rectangle" then
      Some((Position(Fin(150.0), Fin(200.0), Fin(0.0)), Dimensions(Fin(200.0), Fin(100.0)),
            Appearance("#FFFFFF", "transparent", Fin(2.0), DefaultShadow, DefaultCorners)))
    else if kind == "frame" then
      Some((Position(Fin(150.0), Fin(200.0), Fin(0.0)), Dimensions(Fin(400.0), Fin(300.0)),
            Appearance("#3C3C3C", "#E5E7EB", Fin(1.0), DefaultShadow, DefaultCorners)))
    else if kind == "ellipse" then
      Some((Position(Fin(308.0), Fin(509.0), Fin(0.0)), Dimensions(Fin(247.0), Fin(233.0)),
            Appearance("#FFFFFF", "transparent", Fin(2.0), DefaultShadow, DefaultCorners)))
    else if kind == "text" then
      Some((Position(Fin(250.0), Fin(300.0), Fin(0.0)), Dimensions(Fin(120.0), Fin(30.0)),
            Appearance("#FFFFFF", "transparent", Fin(0.0), DefaultShadow, DefaultCorners)))
    else None
  }

  /** Has some layer the id `id`? */
  predicate HasLayer(layers: seq<Layer>, id: string) {
    exists i :: 0 <= i < |layers| && layers[i].id == id
  }

  /** Every layer selected exactly when its id is `id`. */
  function SelectedOnly(layers: seq<Layer>, id: string): seq<Layer> {
    seq(|layers|, i requires 0 <= i < |layers| => layers[i].(selected := layers[i].id == id))
  }

  /** The list and the selected id after `selectLayer(id)`: the empty id
      deselects everything, an unknown id changes nothing. The layers keep
      their ids, and a newly selected id names an existing layer. */
  function Selected(layers: seq<Layer>, selectedId: Option<string>, id: string): (r: (seq<Layer>, Option<string>))
    ensures |r.0| == |layers| && forall i :: 0 <= i < |layers| ==> r.0[i].id == layers[i].id
    ensures r.1.Some? && r.1 != selectedId ==> r.1 == Some(id) && HasLayer(layers, id)
  {
    if id == "" then (Deselected(layers), None)
    else if !HasLayer(layers, id) then (layers, selectedId)
    else (SelectedOnly(layers, id), Some(id))
  }

  // ---------------------------------------------------------------------------
  // Deleting and editing layers

  /** The layers whose id is not `id`, in their order: none of them has the
      id, and each was in the list. */
  function Without(layers: seq<Layer>, id: string): (r: seq<Layer>)
    ensures |r| <= |layers|
    ensures forall i :: 0 <= i < |r| ==> r[i].id != id
    ensures forall l :: l in r ==> l in layers
  {
    if |layers| == 0 then []
    else (if layers[0].id == id then [] else [layers[0]]) + Without(layers[1..], id)
  }

  /** The selected id after `deleteLayer(id)`. */
  function SelectionAfterDelete(selectedId: Option<string>, id: string): Option<string> {
    if selectedId == Some(id) then None else selectedId
  }

  /** The per-layer edits that `map` over the layers with one id. */
  datatype LayerEdit = FlipVisible | FlipLock | SetParent(parentId: Option<string>) | SetName(name: string)

  function Edited(l: Layer, e: LayerEdit): Layer {
    match e
    case FlipVisible => l.(visible := !l.visible)
    case FlipLock => l.(locked := !l.locked)
    case SetParent(p) => l.(parentId := p)
    case SetName(n) => l.(name := n)
  }

  /** The layers with id `id` edited by `e`, the others as they are. No
      edit changes a layer's id or selection. */
  function MapMatching(layers: seq<Layer>, id: string, e: LayerEdit): (r: seq<Layer>)
    ensures |r| == |layers|
    ensures forall i :: 0 <= i < |layers| ==> r[i].id == layers[i].id && r[i].selected == layers[i].selected
  {
    seq(|layers|, i requires 0 <= i < |layers| => if layers[i].id == id then Edited(layers[i], e) else layers[i])
  }

  function VisibilityToggled(layers: seq<Layer>, id: string): seq<Layer> {
    MapMatching(layers, id, FlipVisible)
  }

  function LockToggled(layers: seq<Layer>, id: string): seq<Layer> {
    MapMatching(layers, id, FlipLock)
  }

  /** `setLayerParent(childId, parentId)`; a null parent is None. */
  function Reparented(layers: seq<Layer>, childId: string, parentId: Option<string>): seq<Layer> {
    MapMatching(layers, childId, SetParent(parentId))
  }

  function Renamed(layers: seq<Layer>, id: string, name: string): seq<Layer> {
    MapMatching(layers, id, SetName(name))
  }

  // ---------------------------------------------------------------------------
  // Panel edits

  /** `isNaN(n) ? 0 : n` of the parsed input. */
  function Parsed(value: NumInput): (r: Num)
    ensures !r.NaN?
    ensures !ToNumber(value).NaN? ==> r == ToNumber(value)
    ensures ToNumber(value).NaN? ==> r == Fin(0.0)
  {
    OrZero(ToNumber(value))
  }

  /** `updatePosition(axis, value)`: only the named field changes, and a
      position of numbers stays one. */
  function PositionEdited(p: Position, axis: Axis, value: NumInput): (r: Position)
    ensures axis != X ==> r.x == p.x
    ensures axis != Y ==> r.y == p.y
    ensures axis != Rotation ==> r.rotation == p.rotation
    ensures !p.x.NaN? && !p.y.NaN? && !p.rotation.NaN? ==> !r.x.NaN? && !r.y.NaN? && !r.rotation.NaN?
  {
    match axis
    case X => p.(x := Parsed(value))
    case Y => p.(y := Parsed(value))
    case Rotation => p.(rotation := Parsed(value))
  }

  /** `updateDimensions(dim, value)`: only the named field changes, and
      dimensions of numbers stay numbers. */
  function DimensionsEdited(d: Dimensions, dim: Dimension, value: NumInput): (r: Dimensions)
    ensures dim != Width ==> r.width == d.width
    ensures dim != Height ==> r.height == d.height
    ensures !d.width.NaN? && !d.height.NaN? ==> !r.width.NaN? && !r.height.NaN?
  {
    match dim
    case Width => d.(width := Parsed(value))
    case Height => d.(height := Parsed(value))
  }

  /** `updateAppearance(e)`: the shadow and the corners are kept, and a
      stroke width that is a number stays one. */
  function AppearanceEdited(a: Appearance, e: AppearanceEdit): (r: Appearance)
    ensures r.shadow == a.shadow && r.cornerRadius == a.cornerRadius
    ensures !e.Fill? ==> r.fill == a.fill
    ensures !e.Stroke? ==> r.stroke == a.stroke
    ensures !a.strokeWidth.NaN? ==> !r.strokeWidth.NaN?
  {
    match e
    case Fill(c) => a.(fill := c)
    case Stroke(c) => a.(stroke := c)
    case StrokeWidth(v) => a.(strokeWidth := Parsed(v))
  }

  /** `updateShadow(e)`: every field the edit does not name is kept. */
  function ShadowEdited(s: Shadow, e: ShadowEdit): (r: Shadow)
    ensures !e.Enabled? ==> r.enabled == s.enabled
    ensures !e.OffsetX? ==> r.offsetX == s.offsetX
    ensures !e.OffsetY? ==> r.offsetY == s.offsetY
    ensures !e.Blur? ==> r.blur == s.blur
    ensures !e.Spread? ==> r.spread == s.spread
    ensures !e.Color? ==> r.color == s.color
  {
    match e
    case Enabled(b) => s.(enabled := b)
    case OffsetX(n) => s.(offsetX := n)
    case OffsetY(n) => s.(offsetY := n)
    case Blur(n) => s.(blur := n)
    case Spread(n) => s.(spread := n)
    case Color(c) => s.(color := c)
  }

  /** `updateCornerRadius(e)`: only the flag edit changes the flag, "all"
      makes the four corners equal, and a corner edit sets that corner. */
  function CornersEdited(c: CornerRadius, e: CornerEdit): (r: CornerRadius)
    ensures !e.Independent? ==> r.independent == c.independent
    ensures e.All? ==> r.topLeft == r.topRight == r.bottomLeft == r.bottomRight == e.radius
    ensures e.OneCorner? ==> CornerValue(r, e.corner) == e.radius
  {
    match e
    case Independent(b) => c.(independent := b)
    case All(n) => c.(topLeft := n, topRight := n, bottomLeft := n, bottomRight := n)
    case OneCorner(TopLeft, n) => c.(topLeft := n)
    case OneCorner(TopRight, n) => c.(topRight := n)
    case OneCorner(BottomLeft, n) => c.(bottomLeft := n)
    case OneCorner(BottomRight, n) => c.(bottomRight := n)
  }

  /** The radius of one corner. */
  function CornerValue(c: CornerRadius, corner: Corner): Num {
    match corner
    case TopLeft => c.topLeft
    case TopRight => c.topRight
    case BottomLeft => c.bottomLeft
    case BottomRight => c.bottomRight
  }

  // ---------------------------------------------------------------------------
  // The store's invariant

  /** Every selected layer is the one `selectedLayerId` names, and a named
      layer exists. */
  predicate SelectionConsistent(layers: seq<Layer>, selectedId: Option<string>) {
    (forall i :: 0 <= i < |layers| && layers[i].selected ==> selectedId == Some(layers[i].id))
    && (selectedId.Some? ==> HasLayer(layers, selectedId.value))
  }

  // ---------------------------------------------------------------------------
  // Properties

  /** The new layer's name is the capitalised type, a space and the decimal
      form of the previous layer count plus one. */
  lemma LayerNameParts(kind: string, count: nat)
    ensures var name := LayerName(kind, count);
      var digits := name[|kind| + 1..];
      |name| > |kind| + 1 && name[..|kind|] == Capitalized(kind) && name[|kind|] == ' '
      && AllDigits(digits) && DecimalValue(digits) == count + 1
  {
    var name := LayerName(kind, count);
    assert name[|kind| + 1..] == NatToDecimal(count + 1);
    assert name[..|kind|] == Capitalized(kind);
    DecimalRoundTrip(count + 1);
  }

  /** `addLayer` appends exactly one layer — visible, unlocked and the only
      selected one — and keeps the earlier layers apart from their flag. */
  lemma AddLayerSelectsOnlyNew(layers: seq<Layer>, id: string, kind: string, parentId: Option<string>)
    ensures var r := WithNewLayer(layers, id, kind, parentId);
      |r| == |layers| + 1
      && r[|layers|] == NewLayer(id, kind, |layers|, parentId)
      && r[|layers|].visible && !r[|layers|].locked && r[|layers|].id == id
      && (forall i :: 0 <= i < |r| ==> (r[i].selected <==> i == |layers|))
      && (forall i :: 0 <= i < |layers| ==> r[i].(selected := layers[i].selected) == layers[i])
  {
  }

  /** After `addLayer` the selection is consistent whatever it was before. */
  lemma AddLayerConsistent(layers: seq<Layer>, id: string, kind: string, parentId: Option<string>)
    ensures SelectionConsistent(WithNewLayer(layers, id, kind, parentId), Some(id))
  {
    var r := WithNewLayer(layers, id, kind, parentId);
    assert r[|layers|].id == id;
  }

  /** The per-type panel values of a new layer. */
  lemma TypeDefaultValues()
    ensures TypeDefaults("rectangle").Some? && TypeDefaults("rectangle").value.1 == Dimensions(Fin(200.0), Fin(100.0))
      && TypeDefaults("rectangle").value.0 == Position(Fin(150.0), Fin(200.0), Fin(0.0))
    ensures TypeDefaults("frame").Some? && TypeDefaults("frame").value.1 == Dimensions(Fin(400.0), Fin(300.0))
      && TypeDefaults("frame").value.0 == Position(Fin(150.0), Fin(200.0), Fin(0.0))
    ensures TypeDefaults("ellipse").Some? && TypeDefaults("ellipse").value.1 == Dimensions(Fin(247.0), Fin(233.0))
      && TypeDefaults("ellipse").value.0 == Position(Fin(308.0), Fin(509.0), Fin(0.0))
    ensures TypeDefaults("text").Some? && TypeDefaults("text").value.1 == Dimensions(Fin(120.0), Fin(30.0))
      && TypeDefaults("text").value.0 == Position(Fin(250.0), Fin(300.0), Fin(0.0))
    ensures TypeDefaults("line").None? && TypeDefaults("pen").None?
  {
  }

  /** Every type's fresh appearance has the default shadow, square corners
      edited together, and a stroke width that is a number at least 0. */
  lemma TypeDefaultsWellFormed(kind: string)
    requires TypeDefaults(kind).Some?
    ensures var a := TypeDefaults(kind).value.2;
      a.shadow == DefaultShadow && a.cornerRadius == DefaultCorners
      && a.strokeWidth.Fin? && a.strokeWidth.v >= 0.0 && TypeDefaults(kind).value.0.rotation == Fin(0.0)
  {
  }

  /** `selectLayer`: the empty id deselects all, an unknown id changes
      nothing, a known id selects exactly the layers that carry it. */
  lemma SelectLayerEffect(layers: seq<Layer>, selectedId: Option<string>, id: string)
    ensures var (r, s) := Selected(layers, selectedId, id);
      |r| == |layers|
      && (forall i :: 0 <= i < |layers| ==> r[i].(selected := layers[i].selected) == layers[i])
      && (id == "" ==> s == None && forall i :: 0 <= i < |r| ==> !r[i].selected)
      && (id != "" && !HasLayer(layers, id) ==> r == layers && s == selectedId)
      && (id != "" && HasLayer(layers, id) ==> s == Some(id) && forall i :: 0 <= i < |r| ==> (r[i].selected <==> r[i].id == id))
  {
  }

  /** `selectLayer` keeps the selection consistent. */
  lemma SelectLayerConsistent(layers: seq<Layer>, selectedId: Option<string>, id: string)
    requires SelectionConsistent(layers, selectedId)
    ensures var (r, s) := Selected(layers, selectedId, id); SelectionConsistent(r, s)
  {
    var (r, s) := Selected(layers, selectedId, id);
    if id != "" && HasLayer(layers, id) {
      var k :| 0 <= k < |layers| && layers[k].id == id;
      assert r[k].id == id;
    }
  }

  /** Deleting keeps exactly the layers without the id: none with it remains,
      each other one does. */
  lemma {:induction false} WithoutMembers(layers: seq<Layer>, id: string)
    ensures |Without(layers, id)| <= |layers|
    ensures forall l :: l in Without(layers, id) <==> l in layers && l.id != id
  {
    if |layers| > 0 {
      WithoutMembers(layers[1..], id);
      assert layers == [layers[0]] + layers[1..];
    }
  }

  /** Deleting distributes over concatenation, so the kept layers stay in
      their order. */
  lemma {:induction false} WithoutAppend(a: seq<Layer>, b: seq<Layer>, id: string)
    ensures Without(a + b, id) == Without(a, id) + Without(b, id)
  {
    if |a| == 0 {
      assert a + b == b;
    } else {
      var head := if a[0].id == id then [] else [a[0]];
      assert (a + b)[0] == a[0] && (a + b)[1..] == a[1..] + b;
      WithoutAppend(a[1..], b, id);
      calc {
        Without(a + b, id);
        head + Without(a[1..] + b, id);
        head + (Without(a[1..], id) + Without(b, id));
        (head + Without(a[1..], id)) + Without(b, id);
        Without(a, id) + Without(b, id);
      }
    }
  }

  /** Deleting an id no layer has changes nothing. */
  lemma {:induction false} WithoutAbsent(layers: seq<Layer>, id: string)
    requires !HasLayer(layers, id)
    ensures Without(layers, id) == layers
  {
    if |layers| > 0 {
      assert layers[0].id != id;
      WithoutAbsent(layers[1..], id);
      assert [layers[0]] + layers[1..] == layers;
    }
  }

  /** `deleteLayer` keeps the selection consistent: a deleted selected layer
      clears the selected id, and any other selection survives. */
  lemma DeleteLayerConsistent(layers: seq<Layer>, selectedId: Option<string>, id: string)
    requires SelectionConsistent(layers, selectedId)
    ensures SelectionConsistent(Without(layers, id), SelectionAfterDelete(selectedId, id))
  {
    var r := Without(layers, id);
    var s := SelectionAfterDelete(selectedId, id);
    WithoutMembers(layers, id);
    forall i | 0 <= i < |r| && r[i].selected ensures s == Some(r[i].id) {
      assert r[i] in layers;
      var k :| 0 <= k < |layers| && layers[k] == r[i];
    }
    if s.Some? {
      var k :| 0 <= k < |layers| && layers[k].id == s.value;
      assert layers[k] in r;
      var j :| 0 <= j < |r| && r[j] == layers[k];
    }
  }

  /** A toggle flips the flag of the matching layers only, and toggling twice
      restores the list. */
  lemma ToggleLayerFlags(layers: seq<Layer>, id: string)
    ensures var r := VisibilityToggled(layers, id);
      |r| == |layers|
      && forall i :: 0 <= i < |layers| ==>
        (layers[i].id == id ==> r[i] == layers[i].(visible := !layers[i].visible))
        && (layers[i].id != id ==> r[i] == layers[i])
    ensures var r := LockToggled(layers, id);
      |r| == |layers|
      && forall i :: 0 <= i < |layers| ==>
        (layers[i].id == id ==> r[i] == layers[i].(locked := !layers[i].locked))
        && (layers[i].id != id ==> r[i] == layers[i])
    ensures VisibilityToggled(VisibilityToggled(layers, id), id) == layers
    ensures LockToggled(LockToggled(layers, id), id) == layers
  {
    var v := VisibilityToggled(VisibilityToggled(layers, id), id);
    assert forall i :: 0 <= i < |layers| ==> v[i] == layers[i];
    var l := LockToggled(LockToggled(layers, id), id);
    assert forall i :: 0 <= i < |layers| ==> l[i] == layers[i];
  }

  /** Edits of flags, parents and names never touch ids or selection, so the
      selection stays consistent. */
  lemma MapMatchingConsistent(layers: seq<Layer>, selectedId: Option<string>, id: string, e: LayerEdit)
    requires SelectionConsistent(layers, selectedId)
    ensures SelectionConsistent(MapMatching(layers, id, e), selectedId)
  {
    var r := MapMatching(layers, id, e);
    assert forall i :: 0 <= i < |layers| ==> r[i].id == layers[i].id && r[i].selected == layers[i].selected;
    if selectedId.Some? {
      var k :| 0 <= k < |layers| && layers[k].id == selectedId.value;
      assert r[k].id == selectedId.value;
    }
  }

  /** A numeric field edit stores the parsed number, or 0 for NaN, in the
      named field only. */
  lemma NumericEdits(p: Position, d: Dimensions, a: Appearance, value: NumInput)
    ensures PositionEdited(p, X, value) == p.(x := Parsed(value))
    ensures PositionEdited(p, Y, value) == p.(y := Parsed(value))
    ensures PositionEdited(p, Rotation, value) == p.(rotation := Parsed(value))
    ensures DimensionsEdited(d, Width, value) == d.(width := Parsed(value))
    ensures DimensionsEdited(d, Height, value) == d.(height := Parsed(value))
    ensures AppearanceEdited(a, StrokeWidth(value)) == a.(strokeWidth := Parsed(value))
    ensures ToNumber(value).NaN? ==> Parsed(value) == Fin(0.0)
  {
  }

  /** "all" sets the four corners to one value and keeps the flag;
      "independent" changes only the flag; a corner name changes that corner
      only. */
  lemma CornerEdits(c: CornerRadius, e: CornerEdit)
    ensures var r := CornersEdited(c, e);
      match e
      case All(n) => r.independent == c.independent
        && forall k :: CornerValue(r, k) == n
      case Independent(b) => r == c.(independent := b)
      case OneCorner(k, n) =>
        (CornerValue(r, k) == n && r.independent == c.independent
         && forall j :: j != k ==> CornerValue(r, j) == CornerValue(c, j))
  {
  }

  // ---------------------------------------------------------------------------
  // The store

  class LayerState {
    var layers: seq<Layer>
    var selectedLayerId: Option<string>
    var position: Position
    var dimensions: Dimensions
    var appearance: Appearance

    /** The selection is consistent and the stroke width is a number. */
    predicate Valid()
      reads this
    {
      SelectionConsistent(layers, selectedLayerId) && !appearance.strokeWidth.NaN?
    }

    constructor ()
      ensures Valid()
      ensures layers == [] && selectedLayerId == None
      ensures position == InitialPosition && dimensions == InitialDimensions && appearance == InitialAppearance
    {
      layers := [];
      selectedLayerId := None;
      position := InitialPosition;
      dimensions := InitialDimensions;
      appearance := InitialAppearance;
    }

    /** `addLayer(kind, parentId)` with the id the store generates passed in
        as `newId`; returns that id. */
    method AddLayer(kind: string, parentId: Option<string>, newId: string) returns (id: string)
      requires Valid()
      modifies this
      ensures Valid() && id == newId
      ensures layers == WithNewLayer(old(layers), newId, kind, parentId) && selectedLayerId == Some(newId)
      ensures TypeDefaults(kind).Some? ==> (position, dimensions, appearance) == TypeDefaults(kind).value
      ensures TypeDefaults(kind).None? ==>
        position == old(position) && dimensions == old(dimensions) && appearance == old(appearance)
    {
      var newPosition := position;
      var newDimensions := dimensions;
      var newAppearance := appearance;
      if kind == "rectangle" {
        newDimensions := Dimensions(Fin(200.0), Fin(100.0));
        newPosition := Position(Fin(150.0), Fin(200.0), Fin(0.0));
        newAppearance := Appearance("#FFFFFF", "transparent", Fin(2.0), DefaultShadow, DefaultCorners);
      } else if kind == "frame" {
        newDimensions := Dimensions(Fin(400.0), Fin(300.0));
        newPosition := Position(Fin(150.0), Fin(200.0), Fin(0.0));
        newAppearance := Appearance("#3C3C3C", "#E5E7EB", Fin(1.0), DefaultShadow, DefaultCorners);
      } else if kind == "ellipse" {
        newDimensions := Dimensions(Fin(247.0), Fin(233.0));
        newPosition := Position(Fin(308.0), Fin(509.0), Fin(0.0));
        newAppearance := Appearance("#FFFFFF", "transparent", Fin(2.0), DefaultShadow, DefaultCorners);
      } else if kind == "text" {
        newDimensions := Dimensions(Fin(120.0), Fin(30.0));
        newPosition := Position(Fin(250.0), Fin(300.0), Fin(0.0));
        newAppearance := Appearance("#FFFFFF", "transparent", Fin(0.0), DefaultShadow, DefaultCorners);
      }
      AddLayerConsistent(layers, newId, kind, parentId);
      layers := WithNewLayer(layers, newId, kind, parentId);
      selectedLayerId := Some(newId);
      position := newPosition;
      dimensions := newDimensions;
      appearance := newAppearance;
      id := newId;
    }

    method SelectLayer(id: string)
      requires Valid()
      modifies this`layers, this`selectedLayerId
      ensures Valid()
      ensures (layers, selectedLayerId) == Selected(old(layers), old(selectedLayerId), id)
    {
      SelectLayerConsistent(layers, selectedLayerId, id);
      var (r, s) := Selected(layers, selectedLayerId, id);
      layers, selectedLayerId := r, s;
    }

    method DeleteLayer(id: string)
      requires Valid()
      modifies this`layers, this`selectedLayerId
      ensures Valid()
      ensures layers == Without(old(layers), id)
      ensures selectedLayerId == SelectionAfterDelete(old(selectedLayerId), id)
    {
      DeleteLayerConsistent(layers, selectedLayerId, id);
      layers := Without(layers, id);
      selectedLayerId := SelectionAfterDelete(selectedLayerId, id);
    }

    method ToggleLayerVisibility(id: string)
      requires Valid()
      modifies this`layers
      ensures Valid()
      ensures layers == VisibilityToggled(old(layers), id)
    {
      MapMatchingConsistent(layers, selectedLayerId, id, FlipVisible);
      layers := VisibilityToggled(layers, id);
    }

    method ToggleLayerLock(id: string)
      requires Valid()
      modifies this`layers
      ensures Valid()
      ensures layers == LockToggled(old(layers), id)
    {
      MapMatchingConsistent(layers, selectedLayerId, id, FlipLock);
      layers := LockToggled(layers, id);
    }

    method UpdatePosition(axis: Axis, value: NumInput)
      modifies this`position
      ensures position == PositionEdited(old(position), axis, value)
    {
      position := PositionEdited(position, axis, value);
    }

    method UpdateDimensions(dim: Dimension, value: NumInput)
      modifies this`dimensions
      ensures dimensions == DimensionsEdited(old(dimensions), dim, value)
    {
      dimensions := DimensionsEdited(dimensions, dim, value);
    }

    method UpdateAppearance(e: AppearanceEdit)
      requires Valid()
      modifies this`appearance
      ensures Valid()
      ensures appearance == AppearanceEdited(old(appearance), e)
    {
      appearance := AppearanceEdited(appearance, e);
    }

    method UpdateShadow(e: ShadowEdit)
      requires Valid()
      modifies this`appearance
      ensures Valid()
      ensures appearance == old(appearance).(shadow := ShadowEdited(old(appearance).shadow, e))
    {
      appearance := appearance.(shadow := ShadowEdited(appearance.shadow, e));
    }

    method UpdateCornerRadius(e: CornerEdit)
      requires Valid()
      modifies this`appearance
      ensures Valid()
      ensures appearance == old(appearance).(cornerRadius := CornersEdited(old(appearance).cornerRadius, e))
    {
      appearance := appearance.(cornerRadius := CornersEdited(appearance.cornerRadius, e));
    }

    method SetLayerParent(childId: string, parentId: Option<string>)
      requires Valid()
      modifies this`layers
      ensures Valid()
      ensures layers == Reparented(old(layers), childId, parentId)
    {
      MapMatchingConsistent(layers, selectedLayerId, childId, SetParent(parentId));
      layers := Reparented(layers, childId, parentId);
    }

    method UpdateLayerName(id: string, newName: string)
      requires Valid()
      modifies this`layers
      ensures Valid()
      ensures layers == Renamed(old(layers), id, newName)
    {
      MapMatchingConsistent(layers, selectedLayerId, id, SetName(newName));
      layers := Renamed(layers, id, newName);
    }
  }
}
