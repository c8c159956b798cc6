# Vector drawing app: stores, canvas rules and property panels

This project models the logic of a browser vector-drawing application. The
application is built on React and a CanvasKit (Skia) canvas. The model covers:

- the **canvas store**: an ordered list of scene objects plus the view state
  (tool, zoom scale, pan offset, text position, current colours);
- the **layer store**: the layer list with its single selection, and the
  position, dimension and appearance values of the properties panel;
- the **geometry and colour helpers**: hex colour decoding, object centre and
  bounds, rotation about a pivot, angle and distance;
- the **canvas interaction rules**:
  - screen to world conversion, panning and wheel zoom;
  - topmost-object hit testing for clicks and hover;
  - the nine selection handles and the handle hit test;
  - the objects a mouse-up or a text submit creates;
  - the rotate and scale drag arithmetic;
  - the per-frame filter of drawn objects;
- the **application glue**: creating a layer for each new canvas object, and
  copying the selected layer's appearance onto its canvas object;
- the **small input rules**:
  - the zoom buttons;
  - the aspect-ratio-linked width and height fields;
  - the corner-radius and drop-shadow panels;
  - the colour picker's alpha suffix;
  - the once-only text submit guard.

State the application changes in place is modelled as classes with methods:
`Store.CanvasState`, `LayerStore.LayerState`, `TextTool.TextToolState`,
`SkiaCanvas.CanvasController` and `ColorInput.ColorPicker`. Each method's
`ensures` ties the new state to a specification function of the old state.
Those functions carry the lemmas: slot-only changes, de-duplication, selection
consistency, and round trips.

JavaScript values are modelled explicitly in `JsValues`:

- **Numbers** are `NaN`, signed infinities or finite reals. Signed zero is
  not tracked.
- **Parsing and formatting** are written out on strings, so that round trips
  such as `parseFloat(x.toFixed(2))` can be proved:
  - `parseFloat`;
  - `parseInt(·, 16)`;
  - `toFixed(2)`;
  - `toString(16)`;
  - `padStart`;
  - `trim`.

Cosine, sine (in degrees), `atan2` and `sqrt` are values of an abstract
`SkiaUtils.Maths` record. The lemmas that need them ask only for the law they
use, at the point they use it: cos² + sin² = 1 at that angle, or the square
root law at that value.

Modules:

| module | source |
|---|---|
| `JsValues` | JavaScript numbers and string conversions |
| `Types` | src/types/index.ts and the drawing tools |
| `SkiaUtils` | src/components/SkiaCanvas/skiaUtils.ts |
| `Store` | src/lib/store.ts |
| `LayerStore` | src/lib/useLayerStore.ts |
| `TextTool` | src/lib/useTextTool.ts |
| `SkiaCanvas` | src/components/SkiaCanvas/SkiaCanvas.tsx |
| `App` | src/App.tsx |
| `CanvasArea` | src/components/CanvasArea.tsx |
| `PropertiesSidebar` | src/components/PropertiesSidebar.tsx |
| `CornerRadiusControls` | src/components/ui-custom/CornerRadiusControls.tsx |
| `ShadowControls` | src/components/ui-custom/ShadowControls.tsx |
| `ColorInput` | src/components/ui-custom/ColorInput.tsx |

## Model

| member | source | states |
|---|---|---|
| JsValues.OrZero | src/components/ui-custom/ShadowControls.tsx:80 | `n \|\| 0` is never NaN; it keeps every other number and turns NaN into 0 |
| JsValues.Max0 | src/components/ui-custom/CornerRadiusControls.tsx:50 | `Math.max(0, n)` is NaN exactly when n is; otherwise it is non-negative, and it keeps a non-negative n |
| JsValues.Clamp | src/components/CanvasArea.tsx:50 | `max(lo, min(x, hi))` lies in [lo, hi]; it is x inside the range and the nearer end outside it |
| JsValues.DivNaN | src/components/PropertiesSidebar.tsx:72 | division gives NaN exactly for a NaN operand, 0/0 or ∞/∞ |
| JsValues.RoundHalfUp | src/components/ui-custom/ColorInput.tsx:30 | `Math.round(x)` is the integer k with x − 0.5 < k ≤ x + 0.5 |
| JsValues.TrimStartSpec | src/lib/useTextTool.ts:33 | trimming drops exactly a run of leading white space and keeps the rest from the first visible character |
| JsValues.BlankIffTrimmedEmpty | src/lib/useTextTool.ts:33 | `!text.trim()` holds exactly when every character is white space |
| JsValues.Capitalized | src/lib/useLayerStore.ts:87 | `charAt(0).toUpperCase() + slice(1)`, with ASCII case mapping: keeps the length, upper-cases the first character and keeps the rest |
| JsValues.DecimalRoundTrip | src/lib/useLayerStore.ts:88 | the decimal string of n reads back as n |
| JsValues.NatToDecimal | src/lib/useLayerStore.ts:88 | `String(n)` of a natural number: a non-empty string of decimal digits |
| JsValues.PadStart | src/components/ui-custom/ColorInput.tsx:32 | `padStart(n, c)` ends with the original string and is padded with c up to length n |
| JsValues.ParseIntHexPair | src/components/SkiaCanvas/skiaUtils.ts:15-18 | `parseInt(pair, 16)` of two hexadecimal digits is the byte they denote |
| JsValues.ParseIntHex | src/components/SkiaCanvas/skiaUtils.ts:15-18 | `parseInt(s, 16)` never yields an infinity; a finite result is a whole number, and a negative one comes only from text whose first non-blank character is `-` |
| JsValues.ParseHexPairAgrees | src/components/SkiaCanvas/skiaUtils.ts:15-22 | the case-by-case reading of two characters equals `parseInt(·, 16)` on every two-character string, malformed ones included |
| JsValues.HexByteRoundTrip | src/components/ui-custom/ColorInput.tsx:30-32 | for a byte, `n.toString(16).padStart(2, "0")` is two hexadecimal digits that parse back to n |
| JsValues.HexByteDigits | src/components/ui-custom/ColorInput.tsx:30-32 | that suffix is the high hexadecimal digit then the low one |
| JsValues.HexByte | src/components/ui-custom/ColorInput.tsx:30-32 | `toString(16).padStart(2, "0")` gives at least two characters, all hexadecimal digits |
| JsValues.ParseFloatEmpty | src/components/ui-custom/ShadowControls.tsx:29-33 | `parseFloat("")` is NaN |
| JsValues.ParseFloat | src/components/ui-custom/ShadowControls.tsx:29-33 | `parseFloat` yields a negative number or negative infinity only when the first non-blank character is `-` |
| JsValues.Fixed2Value | src/components/PropertiesSidebar.tsx:80 | the number `toFixed(2)` denotes is within 0.005 of a finite input; NaN and infinities stay as they are |
| JsValues.ParseFixed2 | src/components/PropertiesSidebar.tsx:80 | parsing the string `x.toFixed(2)` gives back x rounded to hundredths, for every number including NaN and the infinities |
| JsValues.ToFixed2 | src/components/PropertiesSidebar.tsx:80 | `toFixed(2)` gives at least three characters; for a finite number they end in a point and two decimal digits |
| SkiaUtils.RemoveFirst | src/components/SkiaCanvas/skiaUtils.ts:11 | `replace("#", "")` removes only the first "#", and changes nothing when there is none |
| SkiaUtils.HexToRgba | src/components/SkiaCanvas/skiaUtils.ts:6-28 | "transparent", or a colour whose digits (after dropping the first `#`) are neither 6 nor 8 long, is transparent black; with 6 digits the alpha is the default alpha |
| SkiaUtils.TransparentKeyword | src/components/SkiaCanvas/skiaUtils.ts:7-9 | `hexToRgba("transparent")` is transparent black |
| SkiaUtils.ChannelOfPair | src/components/SkiaCanvas/skiaUtils.ts:15-18 | a digit pair decodes to its byte / 255, which lies in [0, 1] |
| SkiaUtils.EightDigits | src/components/SkiaCanvas/skiaUtils.ts:11-18 | eight hexadecimal digits left after removing "#" decode pair by pair into r, g, b, a |
| SkiaUtils.SixDigits | src/components/SkiaCanvas/skiaUtils.ts:11-23 | six hexadecimal digits decode into r, g, b, and the alpha is the default alpha |
| SkiaUtils.OtherLength | src/components/SkiaCanvas/skiaUtils.ts:24-27 | any other length after removing "#" gives transparent black |
| SkiaUtils.ChannelsInUnitRange | src/components/SkiaCanvas/skiaUtils.ts:14-23 | every channel of a well-formed colour lies in [0, 1], given a default alpha in [0, 1] |
| SkiaUtils.ObjectCenter | src/components/SkiaCanvas/skiaUtils.ts:31-40 | the centre is as far from the start corner as from the end corner, on both axes |
| SkiaUtils.ObjectBounds | src/components/SkiaCanvas/skiaUtils.ts:42-51 | the width and height are non-negative and equal max − min on each axis |
| SkiaUtils.SwapInvariant | src/components/SkiaCanvas/skiaUtils.ts:37-50 | swapping start and end changes neither the centre nor the bounds |
| SkiaUtils.CenterAndHalfBounds | src/components/SkiaCanvas/skiaUtils.ts:37-50 | centre ± half the bounds gives the minimum and maximum coordinates |
| SkiaUtils.RotateFixesPivot | src/components/SkiaCanvas/skiaUtils.ts:53-71 | `rotatePoint` maps the pivot to itself |
| SkiaUtils.RotateByZero | src/components/SkiaCanvas/skiaUtils.ts:53-71 | rotating by 0 (cos 1, sin 0) moves nothing |
| SkiaUtils.RotatePreservesDistance | src/components/SkiaCanvas/skiaUtils.ts:53-71 | with cos² + sin² = 1, rotation keeps the squared distance to the pivot |
| SkiaUtils.RotateBack | src/components/SkiaCanvas/skiaUtils.ts:53-71 | rotating by −deg undoes rotating by deg |
| SkiaUtils.RotatePoint | src/components/SkiaCanvas/skiaUtils.ts:53-71 | the pivot maps to itself, and an angle whose cosine is 1 and sine 0 leaves every point where it is |
| SkiaUtils.DistSq | src/components/SkiaCanvas/skiaUtils.ts:90 | the squared distance is non-negative |
| SkiaUtils.CalculateDistance | src/components/SkiaCanvas/skiaUtils.ts:84-91 | the distance is the same with the two points swapped; where the square root is exact it is non-negative and squares to the squared distance |
| SkiaUtils.DistanceSymmetric | src/components/SkiaCanvas/skiaUtils.ts:84-91 | `calculateDistance(a, b)` equals `calculateDistance(b, a)` |
| SkiaUtils.WithinRadius | src/components/SkiaCanvas/skiaUtils.ts:84-91 | with a lawful square root, distance ≤ r exactly when squared distance ≤ r² |
| SkiaUtils.CalculateAngle | src/components/SkiaCanvas/skiaUtils.ts:73-82 | a point at the centre gives `atan2(0, 0)` in degrees |
| SkiaUtils.AngleOfOffset | src/components/SkiaCanvas/skiaUtils.ts:73-82 | moving the centre and the point by the same offset leaves the angle unchanged |
| Store.WithDefaults | src/lib/store.ts:95-100 | an undefined `visible` becomes true, an empty stroke "transparent" and an empty fill "#FFFFFF"; every other field is kept |
| Store.FindTextIndex | src/lib/store.ts:104-106 | the index of the first text object carrying the id, or −1 when there is none |
| Store.Added | src/lib/store.ts:92-117 | either the list keeps its length and each changed slot now holds the new object (a replaced text), or the object, with its defaults filled in, is appended and nothing earlier changes |
| Store.AddAppends | src/lib/store.ts:92-116 | an object that does not replace a text slot is appended with its defaults; the length grows by one and earlier objects are kept |
| Store.AddReplacesText | src/lib/store.ts:102-113 | a text object whose id a text object already has replaces the first such slot as given, without defaults; the length is unchanged |
| Store.AddKeepsTextIdsUnique | src/lib/store.ts:102-116 | if text ids are unique before `addObject`, they are unique after |
| Store.UpdateChangesOneSlot | src/lib/store.ts:118-123 | `updateObject(i, p)` merges p into slot i; the length and every other slot are unchanged |
| Store.MergeIdempotent | src/lib/store.ts:121 | merging a patch twice is merging it once, and the empty patch changes nothing |
| Store.Updated | src/lib/store.ts:118-123 | the list keeps its length, every other slot is unchanged, and the updated object keeps its id and kind |
| Store.RemoveDeletesOne | src/lib/store.ts:124-127 | `removeObject(i)` deletes exactly position i and keeps the others in order |
| Store.RemoveOutOfRange | src/lib/store.ts:124-127 | an index with no object removes nothing |
| Store.Removed | src/lib/store.ts:124-127 | an in-range index shortens the list by one, any other index keeps its length; no object appears that was not there |
| Store.RotateChangesRotationOnly | src/lib/store.ts:130-135 | `rotateObject` sets only the rotation of slot i |
| Store.Rotated | src/lib/store.ts:130-135 | the list keeps its length; the object at the index has the given rotation and keeps its id |
| Store.ScaleChangesScalesOnly | src/lib/store.ts:136-141 | `scaleObject` sets only the two scales of slot i |
| Store.Scaled | src/lib/store.ts:136-141 | the list keeps its length; the object at the index has both given scales and keeps its id |
| Store.ToggleFlips | src/lib/store.ts:150-160 | the flag at i becomes `!visible`, where undefined counts as false; nothing else changes |
| Store.ToggleTwice | src/lib/store.ts:150-160 | toggling twice restores a defined flag, and an out-of-range index is a no-op |
| Store.VisibilityToggled | src/lib/store.ts:150-160 | the list keeps its length; an in-range object ends with an explicit visibility different from the one it had |
| Store.CanvasState.constructor | src/lib/store.ts:77-146 | the initial state: tool none, scale 1, offset (0, 0), text position (0, 0), no objects, fill "#FFFFFF", stroke "#000000", stroke width 2 |
| Store.CanvasState.SetCurrentTool | src/lib/store.ts:78 | only the tool is replaced |
| Store.CanvasState.SetScale | src/lib/store.ts:83 | only the scale is replaced |
| Store.CanvasState.SetOffset | src/lib/store.ts:84 | only the offset is replaced |
| Store.CanvasState.SetTextPosition | src/lib/store.ts:88 | only the text position is replaced |
| Store.CanvasState.SetColor | src/lib/store.ts:147 | only the current colour is replaced |
| Store.CanvasState.SetStrokeColor | src/lib/store.ts:148 | only the stroke colour is replaced |
| Store.CanvasState.SetStrokeWidth | src/lib/store.ts:149 | only the stroke width is replaced |
| Store.CanvasState.AddObject | src/lib/store.ts:92-117 | the list becomes `Added(old, o)`, and unique text ids stay unique |
| Store.CanvasState.UpdateObject | src/lib/store.ts:118-123 | the list becomes `Updated(old, i, p)` |
| Store.CanvasState.RemoveObject | src/lib/store.ts:124-127 | the list becomes `Removed(old, i)` |
| Store.CanvasState.RotateObject | src/lib/store.ts:130-135 | the list becomes `Rotated(old, i, angle)` |
| Store.CanvasState.ScaleObject | src/lib/store.ts:136-141 | the list becomes `Scaled(old, i, sx, sy)` |
| Store.CanvasState.ToggleObjectVisibility | src/lib/store.ts:150-160 | the list becomes `VisibilityToggled(old, i)` |
| LayerStore.LayerNameParts | src/lib/useLayerStore.ts:87-89 | the name is the capitalised type, a space, then the decimal digits of the previous layer count + 1 |
| LayerStore.ParentOrNone | src/lib/useLayerStore.ts:98 | `parentId \|\| undefined`: an empty or missing parent is no parent |
| LayerStore.WithNewLayer | src/lib/useLayerStore.ts:200-205 | one layer is appended; it has the new id and is selected, while every earlier layer keeps its id and is deselected |
| LayerStore.AddLayerSelectsOnlyNew | src/lib/useLayerStore.ts:91-205 | `addLayer` appends exactly one layer: visible, unlocked and selected. Every earlier layer is kept with its selection cleared |
| LayerStore.AddLayerConsistent | src/lib/useLayerStore.ts:200-205 | after `addLayer`, the selection names the new layer and only it is selected |
| LayerStore.TypeDefaultValues | src/lib/useLayerStore.ts:101-198 | new-layer panel values per type: rectangle 200×100 at (150, 200); frame 400×300 at (150, 200); ellipse 247×233 at (308, 509); text 120×30 at (250, 300). Other types keep the current values |
| LayerStore.TypeDefaultsWellFormed | src/lib/useLayerStore.ts:101-198 | every type's fresh appearance has the default shadow, square corners and a numeric stroke width |
| LayerStore.TypeDefaults | src/lib/useLayerStore.ts:101-198 | defaults exist exactly for rectangle, frame, ellipse and text; each starts unrotated with a positive finite width and height |
| LayerStore.SelectLayerEffect | src/lib/useLayerStore.ts:215-240 | `selectLayer("")` deselects all and clears the id; an unknown id changes nothing; otherwise exactly the layers with that id are selected |
| LayerStore.SelectLayerConsistent | src/lib/useLayerStore.ts:215-240 | `selectLayer` keeps the selection consistent |
| LayerStore.Selected | src/lib/useLayerStore.ts:215-240 | the layers keep their number and order; a selection that changes names only the clicked id, and only when that layer exists |
| LayerStore.WithoutMembers | src/lib/useLayerStore.ts:244-246 | after deletion, a layer is kept exactly when it was there and its id differs |
| LayerStore.WithoutAppend | src/lib/useLayerStore.ts:244-246 | deletion distributes over concatenation, so the kept layers stay in order |
| LayerStore.WithoutAbsent | src/lib/useLayerStore.ts:244-246 | deleting an id no layer has changes nothing |
| LayerStore.Without | src/lib/useLayerStore.ts:244-246 | the filtered list is no longer, holds no layer with the id, and holds only layers that were there |
| LayerStore.DeleteLayerConsistent | src/lib/useLayerStore.ts:242-255 | `deleteLayer` clears the selected id only when it was the deleted one, and the selection stays consistent |
| LayerStore.ToggleLayerFlags | src/lib/useLayerStore.ts:257-271 | each toggle flips only the flag of matching layers, and toggling twice is the identity |
| LayerStore.MapMatchingConsistent | src/lib/useLayerStore.ts:257-389 | flag, parent and name edits keep ids and selection, so the selection stays consistent |
| LayerStore.MapMatching | src/lib/useLayerStore.ts:257-389 | an edit by id keeps the number of layers, and each layer's id and selection flag |
| LayerStore.Parsed | src/lib/useLayerStore.ts:274-279 | a parsed panel number is never NaN: it is the number itself, or 0 for NaN |
| LayerStore.NumericEdits | src/lib/useLayerStore.ts:273-305 | a position, dimension or stroke-width edit stores the parsed number (0 for NaN) in the named field only |
| LayerStore.PositionEdited | src/lib/useLayerStore.ts:273-282 | only the edited axis changes, and a position without NaN stays without NaN |
| LayerStore.DimensionsEdited | src/lib/useLayerStore.ts:284-293 | only the edited dimension changes, and dimensions without NaN stay without NaN |
| LayerStore.AppearanceEdited | src/lib/useLayerStore.ts:295-315 | shadow and corner radius are kept; fill changes only on a fill edit and stroke only on a stroke edit; a non-NaN stroke width stays non-NaN |
| LayerStore.ShadowEdited | src/lib/useLayerStore.ts:317-327 | a shadow edit changes no field other than the one it names |
| LayerStore.CornerEdits | src/lib/useLayerStore.ts:329-373 | "all" sets the four corners and keeps the flag; "independent" changes only the flag; a corner name changes only that corner |
| LayerStore.CornersEdited | src/lib/useLayerStore.ts:329-373 | the independent flag changes only on its own edit; a uniform edit sets all four corners to the radius; a single-corner edit sets that corner to the radius |
| LayerStore.LayerState.constructor | src/lib/useLayerStore.ts:55-79 | no layers, no selection, and the initial position, dimensions and appearance |
| LayerStore.LayerState.AddLayer | src/lib/useLayerStore.ts:82-213 | the layers become `WithNewLayer`, the new id is selected and returned, and the panel takes the type's defaults |
| LayerStore.LayerState.SelectLayer | src/lib/useLayerStore.ts:215-240 | the layers and the id become `Selected(old, id)` |
| LayerStore.LayerState.DeleteLayer | src/lib/useLayerStore.ts:242-255 | the layers become `Without(old, id)`, and the selection is cleared only for the deleted id |
| LayerStore.LayerState.ToggleLayerVisibility | src/lib/useLayerStore.ts:257-263 | the layers become `VisibilityToggled(old, id)` |
| LayerStore.LayerState.ToggleLayerLock | src/lib/useLayerStore.ts:265-271 | the layers become `LockToggled(old, id)` |
| LayerStore.LayerState.UpdatePosition | src/lib/useLayerStore.ts:273-282 | the position becomes `PositionEdited(old, axis, value)` |
| LayerStore.LayerState.UpdateDimensions | src/lib/useLayerStore.ts:284-293 | the dimensions become `DimensionsEdited(old, dim, value)` |
| LayerStore.LayerState.UpdateAppearance | src/lib/useLayerStore.ts:295-315 | the appearance becomes `AppearanceEdited(old, e)` |
| LayerStore.LayerState.UpdateShadow | src/lib/useLayerStore.ts:317-327 | only the shadow of the appearance changes, by `ShadowEdited` |
| LayerStore.LayerState.UpdateCornerRadius | src/lib/useLayerStore.ts:329-373 | only the corner radius of the appearance changes, by `CornersEdited` |
| LayerStore.LayerState.SetLayerParent | src/lib/useLayerStore.ts:375-381 | the layers become `Reparented(old, child, parent)` |
| LayerStore.LayerState.UpdateLayerName | src/lib/useLayerStore.ts:383-389 | the layers become `Renamed(old, id, name)` |
| TextTool.TextToolState.constructor | src/lib/useTextTool.ts:6-10 | no input shown, no textarea, the tool inactive, not submitted, clicked position (0, 0) |
| TextTool.TextToolState.Cleanup | src/lib/useTextTool.ts:13-23 | an open textarea is removed and the input hidden; with none open, nothing changes |
| TextTool.TextToolState.SafeSubmit | src/lib/useTextTool.ts:26-36 | it returns early when already submitted or with no textarea. Otherwise it sets the flag and cleans up first, then hands on the text only when it is not blank |
| TextTool.TextToolState.CreateTextArea | src/lib/useTextTool.ts:39-85 | a fresh textarea is open and shown, and the submit guard is re-armed |
| TextTool.TextToolState.OnToolChange | src/lib/useTextTool.ts:88-93 | the tool is active exactly when it is the text tool; leaving it cleans up an open textarea |
| TextTool.TextToolState.ActivateTextTool | src/lib/useTextTool.ts:98-108 | the world position is recorded here and in the store's text position, and a textarea is opened |
| TextTool.TextToolState.SubmitTwice | src/lib/useTextTool.ts:30-31 | of two submits on one textarea, the second never reaches the handler |
| SkiaCanvas.OrOne | src/components/SkiaCanvas/SkiaCanvas.tsx:773-774 | `v \|\| 1`: undefined and 0 count as 1; any other scale is kept |
| SkiaCanvas.ScreenToWorld | src/components/SkiaCanvas/SkiaCanvas.tsx:722-723 | the pan offset maps to the world origin; at scale 1 the world point is the screen point minus the offset |
| SkiaCanvas.WorldBackToScreen | src/components/SkiaCanvas/SkiaCanvas.tsx:722-723 | the world point of a screen point maps back onto it: world · scale + offset = screen |
| SkiaCanvas.Panned | src/components/SkiaCanvas/SkiaCanvas.tsx:824-830 | the offset moves by exactly the pointer's movement since the drag started, so no movement keeps it |
| SkiaCanvas.PanSteps | src/components/SkiaCanvas/SkiaCanvas.tsx:824-830 | two pan steps are one pan over the whole move, and the world point under the cursor stays put while panning |
| SkiaCanvas.Wheel | src/components/SkiaCanvas/SkiaCanvas.tsx:974-992 | a zoom gesture leaves the scale within 0.1 to 20; a plain scroll keeps the scale |
| SkiaCanvas.WheelZoomFixesCursor | src/components/SkiaCanvas/SkiaCanvas.tsx:982-991 | ctrl/meta wheel zoom keeps the scale in [0.1, 20] and the world point under the cursor fixed; otherwise the offset moves by −delta with the scale unchanged |
| SkiaCanvas.Placed | src/components/SkiaCanvas/SkiaCanvas.tsx:243-262 | a placed handle keeps its position name and cursor, and takes the given action |
| SkiaCanvas.PlacedDistance | src/components/SkiaCanvas/SkiaCanvas.tsx:243-262 | a placed handle is as far from the object's centre as its unrotated offset is from the origin |
| SkiaCanvas.HandleLayout | src/components/SkiaCanvas/SkiaCanvas.tsx:190-303 | an object drawn with the select tool has no handles; any other has nine, the last being the rotation handle |
| SkiaCanvas.SelectionHandles | src/components/SkiaCanvas/SkiaCanvas.tsx:155-307 | the `handles.push` loop over the eight positions, then the rotation handle, builds exactly `HandleLayout` |
| SkiaCanvas.HandleOrder | src/components/SkiaCanvas/SkiaCanvas.tsx:190-303 | nine handles: scale handles TL, TC, TR, MR, BR, BC, BL, ML, then the rotation handle last |
| SkiaCanvas.HandlesUnrotated | src/components/SkiaCanvas/SkiaCanvas.tsx:190-303 | unrotated handles sit at the scaled box's corners and edge midpoints; the rotation handle is 36 above the top midpoint |
| SkiaCanvas.HandlesKeepDistance | src/components/SkiaCanvas/SkiaCanvas.tsx:241-303 | with cos² + sin² = 1, each handle is as far from the centre as its unrotated offset |
| SkiaCanvas.HitTestHandles | src/components/SkiaCanvas/SkiaCanvas.tsx:311-323 | the first handle in list order within 14 of the point; none when the list is undefined or no handle is near |
| SkiaCanvas.NearBySquares | src/components/SkiaCanvas/SkiaCanvas.tsx:317-319 | with a lawful square root, a handle is near exactly when the squared distance is ≤ 196 |
| SkiaCanvas.TestObject | src/components/SkiaCanvas/SkiaCanvas.tsx:768-793 | one object's hit test equals `IsHit`: visible rectangles and ellipses only, the point turned back by the rotation, box then ellipse test |
| SkiaCanvas.IsHit | src/components/SkiaCanvas/SkiaCanvas.tsx:768-793 | only a rectangle or an ellipse that is not explicitly hidden can be hit |
| SkiaCanvas.HitTest | src/components/SkiaCanvas/SkiaCanvas.tsx:766-798 | the descending scan returns the highest-index hit, or −1; no object above it is hit |
| SkiaCanvas.IndexOrNone | src/components/SkiaCanvas/SkiaCanvas.tsx:799 | `hitIndex !== -1 ? hitIndex : null` |
| SkiaCanvas.EllipseInsideBox | src/components/SkiaCanvas/SkiaCanvas.tsx:782-792 | a point that passes the ellipse test also passes the box test |
| SkiaCanvas.UnrotatedRectangleHit | src/components/SkiaCanvas/SkiaCanvas.tsx:772-787 | an unrotated visible rectangle is hit exactly when \|x − cx\| ≤ w·sX/2 and \|y − cy\| ≤ h·sY/2 |
| SkiaCanvas.RotatedRectangleHit | src/components/SkiaCanvas/SkiaCanvas.tsx:772-787 | a point inside the box, rotated with the rectangle, hits the rotated rectangle |
| SkiaCanvas.FrameObjects | src/components/SkiaCanvas/SkiaCanvas.tsx:344-352 | the `forEach` filter with its set of drawn text ids yields exactly `DrawnIndices` |
| SkiaCanvas.DrawnIndices | src/components/SkiaCanvas/SkiaCanvas.tsx:347-352 | the drawn indices are strictly increasing, below the frame's count, and each names an object that is drawn |
| SkiaCanvas.DrawnIndicesMembers | src/components/SkiaCanvas/SkiaCanvas.tsx:347-352 | an index is drawn exactly when the object is visible and is not a repeat of an already drawn, visible, keyed text |
| SkiaCanvas.FrameRules | src/components/SkiaCanvas/SkiaCanvas.tsx:347-352 | a frame draws no invisible object and no two keyed texts with one id; it draws every visible object that is not a keyed text |
| SkiaCanvas.FirstTextDrawn | src/components/SkiaCanvas/SkiaCanvas.tsx:350-352 | the first visible text with a given id is drawn |
| SkiaCanvas.ShapeEnd | src/components/SkiaCanvas/SkiaCanvas.tsx:899-909 | a click (start equals the pointer) with the rectangle tool and no handle held ends 100 units right and down of the start; anything else ends at the pointer |
| SkiaCanvas.NewShape | src/components/SkiaCanvas/SkiaCanvas.tsx:896-953 | a shape is built exactly for rectangle, ellipse and line, and for the pen when a path was drawn; it has the tool's kind, is visible and has no id yet |
| SkiaCanvas.NewShapeFields | src/components/SkiaCanvas/SkiaCanvas.tsx:896-953 | a new shape has the tool as its type, rotation 0, scales 1 and visible true, and spans from start to end. Fill and stroke are the current colour, except that a line's fill is "transparent" |
| SkiaCanvas.NewTextObject | src/components/SkiaCanvas/SkiaCanvas.tsx:999-1014 | the object is a visible text object holding the submitted text, with no id yet |
| SkiaCanvas.NewTextObjectFields | src/components/SkiaCanvas/SkiaCanvas.tsx:999-1014 | the text object starts at the clicked point and is 20 high, carries the text, and has the current colour as fill and a transparent stroke of width 0. The store's defaults leave it as it is, and no click ever hits it, since only rectangles and ellipses are hit-tested |
| SkiaCanvas.RotateDragSweeps | src/components/SkiaCanvas/SkiaCanvas.tsx:1107-1110 | no sweep keeps the start rotation, and two sweeps compose into one |
| SkiaCanvas.DraggedRotation | src/components/SkiaCanvas/SkiaCanvas.tsx:1107-1110 | the rotation changes by exactly the angle the pointer swept around the centre |
| SkiaCanvas.ScaleDragKeepsAspect | src/components/SkiaCanvas/SkiaCanvas.tsx:1112-1119 | both scales are multiplied by currentDistance / initialDistance, keeping their aspect; no movement keeps the scales |
| SkiaCanvas.DraggedScale | src/components/SkiaCanvas/SkiaCanvas.tsx:1112-1119 | no scale is computed exactly when the grab was at distance 0; an unchanged distance keeps the initial scale |
| SkiaCanvas.CanvasController.constructor | src/components/SkiaCanvas/SkiaCanvas.tsx:130-153 | the initial drawing state: zero points, nothing selected or held, no handles, scale (1, 1); not drawing or dragging |
| SkiaCanvas.CanvasController.SelectLastOnSelectTool | src/components/SkiaCanvas/SkiaCanvas.tsx:649-659 | with the select tool, some objects and no selection, the last object becomes selected; otherwise nothing changes |
| SkiaCanvas.CanvasController.SelectAt | src/components/SkiaCanvas/SkiaCanvas.tsx:765-802 | the topmost hit becomes the selection (none on a miss), and drawing starts exactly on a hit |
| SkiaCanvas.CanvasController.GrabHandle | src/components/SkiaCanvas/SkiaCanvas.tsx:744-764 | a handle is grabbed exactly when one is near the point. Then the state is `GrabbedFrom`: the first such handle is held, drawing starts, a rotate grab records the start angle and the rotation, a scale grab the start distance and the scales (0 or undefined as 1), and nothing else changes. Without a grab nothing changes |
| SkiaCanvas.CanvasController.Press | src/components/SkiaCanvas/SkiaCanvas.tsx:730-812 | the new gesture state is `PressedFrom` the old one: the drag starts at the world point. The text tool opens its input there and changes nothing else; the select tool grabs a handle or selects the topmost hit; other tools keep the selection and start drawing, the pen with a one-point path. Only the text tool touches the text input |
| SkiaCanvas.CanvasController.MouseDown | src/components/SkiaCanvas/SkiaCanvas.tsx:710-812 | while a text input is open nothing changes; a middle-button or meta press only starts a pan from the mouse point; any other press leaves the state `PressedFrom` the old one at the world point |
| SkiaCanvas.CanvasController.MouseMove | src/components/SkiaCanvas/SkiaCanvas.tsx:814-876 | a pan step while dragging; the new gesture state is `MovedFrom` the old one: while drawing the current point follows (and the pen path grows), with a held handle nothing changes, otherwise only the hover index changes, to the topmost hit |
| SkiaCanvas.CanvasController.MouseUp | src/components/SkiaCanvas/SkiaCanvas.tsx:878-972 | the created object is exactly `NewShape` when drawing or a click-to-create applies, and the tool becomes none only then; the new gesture state is `Released` from the old one |
| SkiaCanvas.CanvasController.PressTool | src/components/SkiaCanvas/SkiaCanvas.tsx:743-811 | a non-text press from a state already at the point leaves the state `PressedFrom` the old one |
| SkiaCanvas.PressFacts | src/components/SkiaCanvas/SkiaCanvas.tsx:730-811 | after a press the start and current points are the pressed point; a select press without handles selects the topmost hit and draws exactly on a hit; a drawing tool draws with no handle, the pen from a one-point path; only the select tool changes the selection; the pan state and hover are kept |
| SkiaCanvas.PressDetermined | src/components/SkiaCanvas/SkiaCanvas.tsx:730-811 | the press rules fix the whole new gesture state: two states that both follow them from one state are equal |
| SkiaCanvas.MoveDetermined | src/components/SkiaCanvas/SkiaCanvas.tsx:814-876 | the mouse-move rules fix the whole new gesture state |
| SkiaCanvas.TopmostHitUnique | src/components/SkiaCanvas/SkiaCanvas.tsx:765-800 | the topmost object hit is unique |
| SkiaCanvas.FirstNearUnique | src/components/SkiaCanvas/SkiaCanvas.tsx:744-764 | the first handle near a point is unique |
| SkiaCanvas.Released | src/components/SkiaCanvas/SkiaCanvas.tsx:878-972 | a blocked release changes nothing; a pan ends; with nothing in progress nothing changes; otherwise drawing stops; only drawing, panning, the held handle and the pen path can change, the handle only by being let go, the path only by a pen stroke being dropped |
| SkiaCanvas.CanvasController.WheelEvent | src/components/SkiaCanvas/SkiaCanvas.tsx:974-992 | the view becomes `Wheel(old view, …)` |
| SkiaCanvas.CanvasController.PointerMove | src/components/SkiaCanvas/SkiaCanvas.tsx:1096-1122 | with a handle held and an object selected, a rotate drag stores `DraggedRotation` and a scale drag stores `DraggedScale`, unless the start distance is 0. Otherwise the objects are unchanged |
| SkiaCanvas.CanvasController.PointerUp | src/components/SkiaCanvas/SkiaCanvas.tsx:1124-1134 | the handle is let go |
| SkiaCanvas.CanvasController.TextSubmit | src/components/SkiaCanvas/SkiaCanvas.tsx:994-1026 | blank text changes nothing; otherwise the text object is created, the tool becomes none and the input closes |
| App.FindLayerIndex | src/App.tsx:37-38 | the first layer with the id, or −1 when none has it |
| App.FindObjectIndex | src/App.tsx:56-58 | the first canvas object with the id, or −1 when none has it |
| App.HandleSkiaObjectCreated | src/App.tsx:41-51 | adds a layer of the object's type, selected, and adds the object carrying that layer's id. It returns the id |
| App.CreatedObjectLinked | src/App.tsx:41-51 | with a fresh id, the new object is the last one and is found by the id, and so is the new layer |
| App.SyncUpdate | src/App.tsx:54-102 | an update is issued only for a selected layer that exists, to the object with its id, and only with a non-empty patch |
| App.SyncLayerToCanvas | src/App.tsx:54-102 | the field-by-field build with the `changed` flag issues exactly `SyncUpdate`; with no update the objects are unchanged, otherwise they become `Updated` |
| App.SyncPatchRules | src/App.tsx:64-89 | each of fill, stroke, stroke width and visible is in the patch exactly when it differs (strict equality, so a NaN width always differs). The merged object is in sync; a patch is empty exactly when the object is already in sync |
| App.SyncPatch | src/App.tsx:64-89 | an empty patch means the object is already in sync; an object in sync with a non-NaN stroke width gets an empty patch |
| App.SyncIdempotent | src/App.tsx:98-100 | right after an update, a second run issues none |
| App.SyncNeedsBothEnds | src/App.tsx:55-60 | no update without a selected id, without a layer with that id, or without an object with that id |
| App.SyncUpdateTarget | src/App.tsx:56-99 | the update targets the first object with the id and leaves every other slot alone. Only the four synced fields change, so position and size are never written |
| CanvasArea.ZoomedScale | src/components/CanvasArea.tsx:48-51 | the zoom-button scale always lies in [0.1, 5] |
| CanvasArea.ZoomSteps | src/components/CanvasArea.tsx:49-50 | inside the range, zoom in multiplies by 1.2 and zoom out by 0.8; in at 5 stays 5, and out at 0.1 stays 0.1 |
| CanvasArea.ZoomInAtLeastOut | src/components/CanvasArea.tsx:49-50 | from the same scale, zooming in never gives less than zooming out |
| CanvasArea.HandleZoom | src/components/CanvasArea.tsx:48-57 | the store scale becomes `ZoomedScale(old, direction)` |
| CanvasArea.HandleToolChange | src/components/CanvasArea.tsx:44-46 | the store tool becomes the chosen tool |
| PropertiesSidebar.SingleCall | src/components/PropertiesSidebar.tsx:75-92 | unlocked, or with a NaN ratio (0/0), an edit emits exactly the one call for the edited field |
| PropertiesSidebar.WidthEdited | src/components/PropertiesSidebar.tsx:72-82 | the width edit is always emitted first; a second, height, edit follows exactly when the ratio is locked and not NaN |
| PropertiesSidebar.HeightEdited | src/components/PropertiesSidebar.tsx:72-92 | the height edit is always emitted first; a second, width, edit follows exactly when the ratio is locked and not NaN |
| PropertiesSidebar.LockedWidth | src/components/PropertiesSidebar.tsx:72-82 | locked, a width edit to w emits ("width", value) and then ("height", w / ratio), to two decimals, with the ratio taken before the edit |
| PropertiesSidebar.LockedHeight | src/components/PropertiesSidebar.tsx:72-92 | locked, a height edit to h emits ("height", value) and then ("width", h · ratio), to two decimals |
| CornerRadiusControls.RadiusInput | src/components/ui-custom/CornerRadiusControls.tsx:49-59 | every radius the panel emits is non-negative |
| CornerRadiusControls.Rendered | src/components/ui-custom/CornerRadiusControls.tsx:34-46 | the controls appear exactly for a rectangle, and then show the given radius |
| CornerRadiusControls.RenderRules | src/components/ui-custom/CornerRadiusControls.tsx:34-46 | only rectangles get the panel, and a missing radius renders as four zero corners, linked |
| CornerRadiusControls.RadiusInputRules | src/components/ui-custom/CornerRadiusControls.tsx:48-61 | unparsable, empty or negative input emits 0, and a non-negative number is emitted as it is |
| CornerRadiusControls.EmittedEdits | src/components/ui-custom/CornerRadiusControls.tsx:48-65 | a uniform edit emits "all"; a corner edit emits that corner; the toggle emits the negated flag (true for a missing radius) |
| CornerRadiusControls.AverageOfEqual | src/components/ui-custom/CornerRadiusControls.tsx:70-74 | the average of four equal numbers is that number |
| CornerRadiusControls.UniformValue | src/components/ui-custom/CornerRadiusControls.tsx:68-74 | independent corners show the top-left corner; four equal finite corners average to that corner |
| CornerRadiusControls.AllSameShowsAverage | src/components/ui-custom/CornerRadiusControls.tsx:68-108 | with linked, equal corners, the shown value is the top-left radius, which equals the average |
| CornerRadiusControls.ShownValue | src/components/ui-custom/CornerRadiusControls.tsx:76-108 | with independent corners, or with all four equal, the uniform field shows the top-left corner |
| CornerRadiusControls.UniformEditShown | src/components/ui-custom/CornerRadiusControls.tsx:48-108 | after a uniform edit of linked corners, the panel shows the value emitted |
| ShadowControls.DefaultShadowHidden | src/components/ui-custom/ShadowControls.tsx:19-68 | a missing shadow is off, at offset (0, 4), with blur 8, spread 0 and colour black; the details show exactly when it is enabled |
| ShadowControls.BlurRules | src/components/ui-custom/ShadowControls.tsx:28-36 | the blur emitted is never negative: 0 for empty or unparsable input, otherwise max(0, n) |
| ShadowControls.BlurInput | src/components/ui-custom/ShadowControls.tsx:28-36 | the blur sent is never negative or NaN, and an empty field sends 0 |
| ShadowControls.SpreadRules | src/components/ui-custom/ShadowControls.tsx:38-46 | the spread emitted is never NaN: 0 for empty or unparsable input, otherwise n itself, negatives included |
| ShadowControls.SpreadInput | src/components/ui-custom/ShadowControls.tsx:38-46 | the spread sent is never NaN; a non-empty field that parses sends the parsed number |
| ShadowControls.OffsetInput | src/components/ui-custom/ShadowControls.tsx:80 | the offset sent is never NaN; text that parses sends the parsed number |
| ShadowControls.EditsApplied | src/components/ui-custom/ShadowControls.tsx:55-90 | applied by the store, a blur edit keeps the blur non-negative; the checkbox sets whether the details show; the offsets are never NaN |
| ColorInput.InitialColor | src/components/ui-custom/ColorInput.tsx:22 | the field's value when it starts with "#", otherwise "#ffffff" |
| ColorInput.AlphaByte | src/components/ui-custom/ColorInput.tsx:30 | the alpha of an opacity in 0..100 is a byte |
| ColorInput.AlphaByteRounds | src/components/ui-custom/ColorInput.tsx:30 | the alpha is `Math.round(opacity / 100 * 255)`: 0 at opacity 0 and 255 at 100 |
| ColorInput.WithAlpha | src/components/ui-custom/ColorInput.tsx:28-47 | the colour is kept as a prefix, and is returned unchanged exactly at full opacity |
| ColorInput.AlphaSuffix | src/components/ui-custom/ColorInput.tsx:28-47 | at opacity 100 the colour is emitted unchanged; below it, the colour gets exactly two hex digits that parse back to the alpha |
| ColorInput.EightDigitColour | src/components/ui-custom/ColorInput.tsx:29-34 | a "#rrggbb" colour below full opacity becomes an eight-digit colour. It decodes to the same r, g, b with alpha = alpha byte / 255 |
| ColorInput.ColorPicker.constructor | src/components/ui-custom/ColorInput.tsx:21-23 | the picker starts at `InitialColor(value)` and opacity 100 |
| ColorInput.ColorPicker.HandleColorChange | src/components/ui-custom/ColorInput.tsx:26-36 | stores the new colour and emits it at the stored opacity |
| ColorInput.ColorPicker.HandleOpacityChange | src/components/ui-custom/ColorInput.tsx:39-49 | stores the new opacity and emits the stored colour at it |

## Left out

- Drawing is not modelled: CanvasKit paints, paths, text, `drawFigmaHandle`, surfaces and flushing, the WASM and font loading, the resize observer and DOM listener registration. These are foreign calls and I/O. Only the object filter of a frame is modelled.
- `Math.cos`, `Math.sin`, `Math.atan2` and `Math.sqrt` are fields of the abstract `Maths` record. Lemmas that need their laws take them point-wise as preconditions.
- Ids from `Date.now()` and `Math.random()` are a parameter (`newId`) of `AddLayer` and `HandleSkiaObjectCreated`.
- `SkiaCanvas.CanvasController.GrabHandle`: the `handles` field of the drawing state is never assigned after start-up, because the handles a frame computes are returned and dropped. Handle grabbing is therefore unreachable in the application. The model keeps the branch and the handle layout, but does not claim that a handle drag happens end to end.
- The window pointer-down handler repeats the mouse-down handle branch; it is modelled once, as `GrabHandle`.
- The canvas store has no `aspectRatioLocked`, so in the running application the sidebar's lock is always off. `WidthEdited` and `HeightEdited` take the flag as a parameter.
- Floating point is modelled by real arithmetic: rounding error, signed zero and the `toFixed` behaviour from 10^21 upward are not modelled. The alpha byte is computed exactly in integers and proved equal to the real rounding.
- `PropertiesSidebar.LockedWidth`: states the second call's value through `Fixed2Value` of the real quotient; it does not model float division error.
- `Store.CanvasState.UpdateObject`, `Store.CanvasState.RotateObject`, `Store.CanvasState.ScaleObject`: require an index inside the list. In JavaScript an outside index would create a sparse hole, and every caller passes a found index.
- `SkiaCanvas.CanvasController.MouseDown`, `SkiaCanvas.CanvasController.MouseMove`, `SkiaCanvas.CanvasController.WheelEvent`, `SkiaCanvas.CanvasController.PointerMove`: require a non-zero scale. The stores only ever set scales clamped to at least 0.1.
- `App.SyncIdempotent`: requires a non-NaN stroke width, because NaN is never strictly equal to itself. `LayerStore.LayerState.Valid` keeps the stroke width a number, since every edit parses NaN to 0.
- `SkiaUtils.HexToRgba`: strings are sequences of Unicode code points, while JavaScript's `length` and `substring` count UTF-16 code units, so a colour string holding characters outside the Basic Multilingual Plane would be measured and cut differently. Colours come from the colour input as ASCII, for which the two agree.
- `JsValues.Upper` / `JsValues.Capitalized`: ASCII-only case mapping. JavaScript's `toUpperCase` maps all of Unicode and can change a string's length ("ß" becomes "SS"); the layer types it is applied to are ASCII words, for which the two agree.
- `SkiaCanvas.CanvasController.PointerMove`: with a selected index past the end of the list the model changes nothing, where the source would throw a `TypeError` reading the missing object. No handler leaves such an index.
- React effect scheduling and re-render timing are not modelled: effects are methods the caller runs.
- `console.log` and `console.warn` output, cursor styles, `preventDefault`, the textarea's DOM element, styling and focus timer, and the Escape and Enter key handling are left out.
- The pen path is the list of its points. CanvasKit `Path` objects, their copying and deletion are not modelled.
- Presentation-only components (header, layer list, toolbar buttons, property inputs) and the class-name helper are not part of this model.
