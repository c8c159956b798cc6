/** The drop-shadow panel (ShadowControls.tsx): the fall-back shadow, the
    enabled check box that reveals the other fields, and the parsing of the
    blur, spread and offset fields. The edits it emits are the layer store's
    `ShadowEdit`s. */
module ShadowControls {
  import opened JsValues
  import opened Types
  import opened LayerStore

  /** `shadow || { enabled: false, offsetX: 0, offsetY: 4, blur: 8, spread: 0, color: "#000000" }` */
  function SafeShadow(s: Option<Shadow>): Shadow {
    if s.Some? then s.value else DefaultShadow
  }

  /** The offset, blur and spread fields are shown only with the shadow on. */
  predicate DetailsShown(s: Option<Shadow>) {
    SafeShadow(s).enabled
  }

  /** `handleBlurChange(value)`: empty or unparsable input is 0, otherwise
      the number clamped at 0 from below. */
  function BlurInput(value: string): (r: Num)
    ensures NonNegative(r)
    ensures value == "" ==> r == Fin(0.0)
  {
    if value == "" then Fin(0.0)
    else
      var n := ParseFloat(value);
      if n.NaN? then Fin(0.0) else Max0(n)
  }

  /** `handleSpreadChange(value)`: empty or unparsable input is 0, otherwise
      the number as it is. */
  function SpreadInput(value: string): (r: Num)
    ensures !r.NaN?
    ensures value != "" && !ParseFloat(value).NaN? ==> r == ParseFloat(value)
  {
    if value == "" then Fin(0.0)
    else
      var n := ParseFloat(value);
      if n.NaN? then Fin(0.0) else n
  }

  /** The offset fields: `parseFloat(value) || 0`. */
  function OffsetInput(value: string): (r: Num)
    ensures !r.NaN?
    ensures !ParseFloat(value).NaN? ==> r == ParseFloat(value)
  {
    OrZero(ParseFloat(value))
  }

  /** The edits the panel emits. */
  function CheckboxChange(checked: bool): ShadowEdit { Enabled(checked) }
  function BlurChange(value: string): ShadowEdit { Blur(BlurInput(value)) }
  function SpreadChange(value: string): ShadowEdit { Spread(SpreadInput(value)) }
  function OffsetXChange(value: string): ShadowEdit { OffsetX(OffsetInput(value)) }
  function OffsetYChange(value: string): ShadowEdit { OffsetY(OffsetInput(value)) }

  /** The fall-back shadow is off, offset (0, 4), blur 8, spread 0, black,
      and its details are hidden. */
  lemma DefaultShadowHidden()
    ensures SafeShadow(None) == Shadow(false, Fin(0.0), Fin(4.0), Fin(8.0), Fin(0.0), "#000000")
    ensures !DetailsShown(None)
    ensures forall s: Shadow :: DetailsShown(Some(s)) <==> s.enabled
  {
  }

  /** The emitted blur is never negative or NaN: it is the parsed number
      clamped at 0, and 0 when there is none. The explicit test for the empty
      string agrees with the NaN test, as "" does not parse. */
  lemma BlurRules(value: string)
    ensures NonNegative(BlurInput(value))
    ensures BlurInput(value) == (if ParseFloat(value).NaN? then Fin(0.0) else Max0(ParseFloat(value)))
    ensures NonNegative(ParseFloat(value)) ==> BlurInput(value) == ParseFloat(value)
  {
    ParseFloatEmpty();
  }

  /** The emitted spread is never NaN; it is the parsed number itself, so
      negative spreads pass through. */
  lemma SpreadRules(value: string)
    ensures !SpreadInput(value).NaN?
    ensures SpreadInput(value) == OrZero(ParseFloat(value))
    ensures ParseFloat(value).Fin? ==> SpreadInput(value) == ParseFloat(value)
  {
    ParseFloatEmpty();
  }

  /** Applied by the store, a blur edit leaves a non-negative blur and
      changes nothing else; the check box turns the details on or off. */
  lemma EditsApplied(s: Shadow, value: string, checked: bool)
    ensures var t := ShadowEdited(s, BlurChange(value));
      NonNegative(t.blur) && t == s.(blur := t.blur)
    ensures DetailsShown(Some(ShadowEdited(s, CheckboxChange(checked)))) == checked
    ensures !ShadowEdited(s, OffsetXChange(value)).offsetX.NaN? && !ShadowEdited(s, OffsetYChange(value)).offsetY.NaN?
  {
    BlurRules(value);
  }
}
