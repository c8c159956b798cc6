/** The width and height fields of the properties sidebar
    (PropertiesSidebar.tsx): with the aspect ratio locked, an edit of one
    dimension is followed by an edit of the other that keeps the ratio of the
    dimensions shown before the edit. The handlers only emit calls; each call
    is a `(dimension, value)` pair, in the order the handler makes them. */
module PropertiesSidebar {
  import opened JsValues
  import opened Types
  import opened LayerStore

  datatype DimensionCall = DimensionCall(dimension: Dimension, value: string)

  /** `width / height` of the dimensions before the edit. */
  function AspectRatio(d: Dimensions): Num {
    Div(d.width, d.height)
  }

  /** `handleWidthChange(value)`: the width call first, and a height call
      after it exactly when the lock is on and the ratio is a number. */
  function WidthEdited(value: string, d: Dimensions, locked: bool): (calls: seq<DimensionCall>)
    ensures 1 <= |calls| <= 2 && calls[0] == DimensionCall(Width, value)
    ensures |calls| == 2 <==> locked && !AspectRatio(d).NaN?
    ensures |calls| == 2 ==> calls[1].dimension == Height
  {
    var ratio := AspectRatio(d);
    [DimensionCall(Width, value)]
    + if locked && !ratio.NaN? then [DimensionCall(Height, ToFixed2(Div(ParseFloat(value), ratio)))] else []
  }

  /** `handleHeightChange(value)`: the height call first, and a width call
      after it exactly when the lock is on and the ratio is a number. */
  function HeightEdited(value: string, d: Dimensions, locked: bool): (calls: seq<DimensionCall>)
    ensures 1 <= |calls| <= 2 && calls[0] == DimensionCall(Height, value)
    ensures |calls| == 2 <==> locked && !AspectRatio(d).NaN?
    ensures |calls| == 2 ==> calls[1].dimension == Width
  {
    var ratio := AspectRatio(d);
    [DimensionCall(Height, value)]
    + if locked && !ratio.NaN? then [DimensionCall(Width, ToFixed2(Mul(ParseFloat(value), ratio)))] else []
  }

  /** Unlocked, or with a ratio that is not a number (0 / 0), an edit is the
      one call for the edited dimension. */
  lemma SingleCall(value: string, d: Dimensions, locked: bool)
    requires !locked || AspectRatio(d).NaN?
    ensures WidthEdited(value, d, locked) == [DimensionCall(Width, value)]
    ensures HeightEdited(value, d, locked) == [DimensionCall(Height, value)]
  {
  }

  /** With the lock on, a width edit to `w` is followed by a height edit
      that reads back as `w / ratio` rounded to hundredths. */
  lemma LockedWidth(value: string, d: Dimensions, w: real, r: real)
    requires AspectRatio(d) == Fin(r) && r != 0.0 && ParseFloat(value) == Fin(w)
    ensures var calls := WidthEdited(value, d, true);
      |calls| == 2 && calls[0] == DimensionCall(Width, value) && calls[1].dimension == Height
      && ParseFloat(calls[1].value) == Fixed2Value(Fin(w / r))
  {
    var calls := WidthEdited(value, d, true);
    assert Div(ParseFloat(value), AspectRatio(d)) == Fin(w / r);
    assert calls[1].value == ToFixed2(Fin(w / r));
    ParseFixed2(Fin(w / r));
  }

  /** With the lock on, a height edit to `h` is followed by a width edit
      that reads back as `h · ratio` rounded to hundredths. */
  lemma LockedHeight(value: string, d: Dimensions, h: real, r: real)
    requires AspectRatio(d) == Fin(r) && ParseFloat(value) == Fin(h)
    ensures var calls := HeightEdited(value, d, true);
      |calls| == 2 && calls[0] == DimensionCall(Height, value) && calls[1].dimension == Width
      && ParseFloat(calls[1].value) == Fixed2Value(Fin(h * r))
  {
    var calls := HeightEdited(value, d, true);
    MulFinite(h, r);
    assert calls[1].value == ToFixed2(Fin(h * r));
    ParseFixed2(Fin(h * r));
  }
}
