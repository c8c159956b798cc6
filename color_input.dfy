/** The colour field with its picker (ColorInput.tsx): the picker keeps a
    colour and an opacity in 0..100, and every change emits the colour with,
    below full opacity, a two-digit hexadecimal alpha byte appended. */
module ColorInput {
  import opened JsValues
  import opened SkiaUtils

  /** The picker's first colour: the field's value when it starts with "#",
      white otherwise. */
  function InitialColor(value: string): (c: string)
    ensures |value| > 0 && value[0] == '#' ==> c == value
    ensures !(|value| > 0 && value[0] == '#') ==> c == "#ffffff"
  {
    if |value| > 0 && value[0] == '#' then value else "#ffffff"
  }

  /** The alpha byte of an opacity, `Math.round(opacity / 100 * 255)`,
      computed on integers (AlphaByteRounds). */
  function AlphaByte(opacity: int): (n: nat)
    requires 0 <= opacity <= 100
    ensures n <= 255
  {
    (opacity * 255 + 50) / 100
  }

  /** The integer alpha byte is the opacity's share of 255 rounded half up:
      0 at 0, 255 at 100. */
  lemma AlphaByteRounds(opacity: int)
    requires 0 <= opacity <= 100
    ensures AlphaByte(opacity) == RoundHalfUp(opacity as real / 100.0 * 255.0)
    ensures opacity == 0 ==> AlphaByte(opacity) == 0
    ensures opacity == 100 ==> AlphaByte(opacity) == 255
  {
    var k := AlphaByte(opacity);
    var x := opacity as real / 100.0 * 255.0;
    assert x == (opacity * 255) as real / 100.0;
    assert k * 100 <= opacity * 255 + 50 < k * 100 + 100;
    assert k as real <= x + 0.5 < k as real + 1.0;
    assert (x + 0.5).Floor == k;
  }

  /** The colour emitted for `hex` at `opacity`: unchanged at 100, else with
      the alpha byte in hexadecimal, zero-padded to two digits. */
  function WithAlpha(hex: string, opacity: int): (r: string)
    requires 0 <= opacity <= 100
    ensures |r| >= |hex| && r[..|hex|] == hex
    ensures opacity == 100 <==> r == hex
  {
    if opacity < 100 then hex + HexByte(AlphaByte(opacity)) else hex
  }

  /** At full opacity the colour is emitted as it is; below it, exactly two
      hexadecimal digits are appended, and they read back as the alpha
      byte. */
  lemma AlphaSuffix(hex: string, opacity: int)
    requires 0 <= opacity <= 100
    ensures opacity == 100 ==> WithAlpha(hex, opacity) == hex
    ensures opacity < 100 ==>
      var s := WithAlpha(hex, opacity)[|hex|..];
      |WithAlpha(hex, opacity)| == |hex| + 2 && WithAlpha(hex, opacity)[..|hex|] == hex
      && AllHexDigits(s) && HexValue(s) == AlphaByte(opacity)
  {
    if opacity < 100 {
      HexByteRoundTrip(AlphaByte(opacity));
      var w := WithAlpha(hex, opacity);
      assert w[|hex|..] == HexByte(AlphaByte(opacity));
    }
  }

  /** A "#rrggbb" colour below full opacity becomes an eight-digit colour:
      the canvas decodes red, green and blue from the same digit pairs as
      for "#rrggbb" (SkiaUtils.SixDigits), and the alpha byte over 255 as its
      alpha. */
  lemma EightDigitColour(digits: string, opacity: int, defaultAlpha: Num)
    requires |digits| == 6 && AllHexDigits(digits) && 0 <= opacity < 100
    ensures HexToRgba(WithAlpha("#" + digits, opacity), defaultAlpha)
         == RgbOf(digits, Fin(AlphaByte(opacity) as real / 255.0))
  {
    var s := AlphaTail("#" + digits, opacity);
    AppendedPair(digits, s, AlphaByte(opacity), WithAlpha("#" + digits, opacity), defaultAlpha);
  }

  /** The colour whose red, green and blue are the three digit pairs of
      `digits` over 255, with alpha `a`. */
  function RgbOf(digits: string, a: Num): Rgba
    requires |digits| == 6 && AllHexDigits(digits)
  {
    Rgba(Fin(PairValue(digits[0..2]) as real / 255.0), Fin(PairValue(digits[2..4]) as real / 255.0),
         Fin(PairValue(digits[4..6]) as real / 255.0), a)
  }

  /** Below full opacity the emitted colour is the colour and a pair worth
      the alpha byte. */
  lemma AlphaTail(hex: string, opacity: int) returns (s: string)
    requires 0 <= opacity < 100
    ensures WithAlpha(hex, opacity) == hex + s && IsHexPair(s) && PairValue(s) == AlphaByte(opacity)
  {
    s := HexByte(AlphaByte(opacity));
    BytePair(AlphaByte(opacity));
  }

  /** A byte's two hexadecimal digits are a pair worth the byte. */
  lemma BytePair(n: nat)
    requires n < 256
    ensures IsHexPair(HexByte(n)) && PairValue(HexByte(n)) == n
  {
    HexByteRoundTrip(n);
    HexPairValue(HexByte(n));
  }

  /** Six digits and a further pair worth `v` after "#" decode into the
      three colour pairs and `v` over 255. The hypotheses are stated as an
      implication so that a caller proves them together with its goal. */
  lemma AppendedPair(digits: string, s: string, v: nat, colour: string, defaultAlpha: Num)
    ensures (|digits| == 6 && AllHexDigits(digits) && IsHexPair(s) && PairValue(s) == v
             && colour == "#" + digits + s) ==>
      HexToRgba(colour, defaultAlpha) == Rgba(
        Fin(PairValue(digits[0..2]) as real / 255.0), Fin(PairValue(digits[2..4]) as real / 255.0),
        Fin(PairValue(digits[4..6]) as real / 255.0), Fin(v as real / 255.0))
  {
    if |digits| == 6 && AllHexDigits(digits) && IsHexPair(s) && PairValue(s) == v && colour == "#" + digits + s {
      HashRemoved(digits, s);
      var h := digits + s;
      assert AllHexDigits(h);
      assert h[0..2] == digits[0..2] && h[2..4] == digits[2..4] && h[4..6] == digits[4..6] && h[6..8] == s;
      EightDigits(colour, defaultAlpha);
    }
  }

  /** Removing the leading "#" leaves the digits and what follows them. */
  lemma HashRemoved(digits: string, s: string)
    ensures RemoveFirst("#" + digits, '#') == digits
    ensures RemoveFirst("#" + digits + s, '#') == digits + s
  {
    assert ("#" + digits)[1..] == digits;
    assert ("#" + digits + s)[1..] == digits + s;
  }

  /** The picker's state. */
  class ColorPicker {
    var color: string
    var opacity: int

    /** The opacity is that of the 0..100 range input. */
    predicate Valid()
      reads this
    {
      0 <= opacity <= 100
    }

    constructor (value: string)
      ensures Valid() && color == InitialColor(value) && opacity == 100
    {
      color := if |value| > 0 && value[0] == '#' then value else "#ffffff";
      opacity := 100;
    }

    /** `handleColorChange(hex)`: the new colour at the stored opacity. */
    method HandleColorChange(hex: string) returns (emitted: string)
      requires Valid()
      modifies this`color
      ensures Valid() && color == hex
      ensures emitted == WithAlpha(hex, opacity)
    {
      color := hex;
      emitted := hex;
      if opacity < 100 {
        AlphaByteRounds(opacity);
        var alpha := HexByte(RoundHalfUp(opacity as real / 100.0 * 255.0));
        emitted := hex + alpha;
      }
    }

    /** `handleOpacityChange(val)`: the stored colour at the new opacity. */
    method HandleOpacityChange(val: int) returns (emitted: string)
      requires Valid() && 0 <= val <= 100
      modifies this`opacity
      ensures Valid() && opacity == val
      ensures emitted == WithAlpha(color, val)
    {
      opacity := val;
      emitted := color;
      if val < 100 {
        AlphaByteRounds(val);
        var alpha := HexByte(RoundHalfUp(val as real / 100.0 * 255.0));
        emitted := color + alpha;
      }
    }
  }
}
