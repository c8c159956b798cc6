/** The corner-radius panel (CornerRadiusControls.tsx): it is shown for
    rectangles only; its inputs emit non-negative radii for all corners or for
    one, its link button flips the independent flag, and the uniform field
    shows the average of the corners. The edits it emits are the layer
    store's `CornerEdit`s. */
module CornerRadiusControls {
  import opened JsValues
  import opened Types
  import opened LayerStore

  /** The `objectType` of the panel. */
  datatype ObjectType = RectangleObject | EllipseObject | TextObject

  /** `cornerRadius || { 0, 0, 0, 0, independent: false }` */
  function SafeCorners(c: Option<CornerRadius>): CornerRadius {
    if c.Some? then c.value else DefaultCorners
  }

  /** The corners the panel renders with, or None when it renders nothing. */
  function Rendered(objectType: ObjectType, c: Option<CornerRadius>): (r: Option<CornerRadius>)
    ensures r.Some? <==> objectType == RectangleObject
    ensures r.Some? && c.Some? ==> r == c
  {
    if objectType != RectangleObject then None else Some(SafeCorners(c))
  }

  /** `Math.max(0, parseFloat(value) || 0)`: NaN and 0 are falsy, so both
      become 0. */
  function RadiusInput(value: string): (r: Num)
    ensures NonNegative(r)
  {
    Max0(OrZero(ParseFloat(value)))
  }

  /** `handleUniformChange(value)` */
  function UniformChange(value: string): CornerEdit {
    All(RadiusInput(value))
  }

  /** `handleCornerChange(corner, value)` */
  function CornerChange(corner: Corner, value: string): CornerEdit {
    OneCorner(corner, RadiusInput(value))
  }

  /** `toggleIndependent()` */
  function ToggleIndependent(c: Option<CornerRadius>): CornerEdit {
    Independent(!SafeCorners(c).independent)
  }

  /** `uniformValue`: the top-left radius when the corners are independent,
      the average of the four otherwise. */
  function UniformValue(c: CornerRadius): (u: Num)
    ensures c.independent ==> u == c.topLeft
    ensures c.topLeft.Fin? && c.topLeft == c.topRight == c.bottomLeft == c.bottomRight ==> u == c.topLeft
  {
    if c.independent then c.topLeft
    else Div(Add(Add(Add(c.topLeft, c.topRight), c.bottomLeft), c.bottomRight), Fin(4.0))
  }

  /** `isAllSame` */
  predicate AllSame(c: CornerRadius) {
    !c.independent && StrictEquals(c.topLeft, c.topRight) && StrictEquals(c.topRight, c.bottomLeft)
    && StrictEquals(c.bottomLeft, c.bottomRight)
  }

  /** The value of the uniform field: the top-left radius when the corners
      are independent or all the same. */
  function ShownValue(c: CornerRadius): (v: Num)
    ensures c.independent || AllSame(c) ==> v == c.topLeft
  {
    if AllSame(c) then c.topLeft else UniformValue(c)
  }

  /** Only a rectangle gets the panel, and a missing radius renders as four
      square corners edited together. */
  lemma RenderRules(objectType: ObjectType, c: Option<CornerRadius>)
    ensures Rendered(objectType, c).Some? <==> objectType == RectangleObject
    ensures objectType == RectangleObject && c.None? ==> Rendered(objectType, c) == Some(DefaultCorners)
    ensures DefaultCorners.topLeft == DefaultCorners.topRight == DefaultCorners.bottomLeft
      == DefaultCorners.bottomRight == Fin(0.0) && !DefaultCorners.independent
  {
  }

  /** Every emitted radius is a non-negative number: unparsable or empty
      input gives 0, a non-negative number is kept and a negative one gives 0. */
  lemma RadiusInputRules(value: string)
    ensures ParseFloat(value).NaN? ==> RadiusInput(value) == Fin(0.0)
    ensures RadiusInput("") == Fin(0.0)
    ensures NonNegative(ParseFloat(value)) ==> RadiusInput(value) == ParseFloat(value)
    ensures ParseFloat(value).Fin? && ParseFloat(value).v < 0.0 ==> RadiusInput(value) == Fin(0.0)
  {
    ParseFloatEmpty();
  }

  /** The emitted edits name what was edited and carry a non-negative radius;
      the toggle emits the negation of the flag. */
  lemma EmittedEdits(value: string, corner: Corner, c: Option<CornerRadius>)
    ensures UniformChange(value).All? && NonNegative(UniformChange(value).radius)
    ensures CornerChange(corner, value).OneCorner? && CornerChange(corner, value).corner == corner
      && NonNegative(CornerChange(corner, value).radius)
    ensures c.Some? ==> ToggleIndependent(c) == Independent(!c.value.independent)
    ensures c.None? ==> ToggleIndependent(c) == Independent(true)
  {
  }

  /** A non-NaN number added to itself four times and divided by four is
      itself. */
  lemma AverageOfEqual(n: Num)
    requires !n.NaN?
    ensures Div(Add(Add(Add(n, n), n), n), Fin(4.0)) == n
  {
    match n
    case Inf(_) =>
    case Fin(x) => assert (x + x + x + x) / 4.0 == x;
  }

  /** When the four corners are the same number the shown value is the top
      left corner, which is also their average. */
  lemma AllSameShowsAverage(c: CornerRadius)
    requires AllSame(c)
    ensures ShownValue(c) == c.topLeft == UniformValue(c)
  {
    AverageOfEqual(c.topLeft);
  }

  /** After a uniform edit of linked corners the panel shows the value that
      was entered. */
  lemma UniformEditShown(c: CornerRadius, value: string)
    requires !c.independent
    ensures ShownValue(CornersEdited(c, UniformChange(value))) == RadiusInput(value)
  {
    var e := CornersEdited(c, UniformChange(value));
    assert !RadiusInput(value).NaN?;
    assert AllSame(e);
    AllSameShowsAverage(e);
  }
}
