/** The JavaScript value semantics the drawing app relies on: numbers that can be
    NaN or infinite, and the conversions between strings and numbers performed by
    its inputs (parseFloat, parseInt with radix 16, toFixed(2), toString(16),
    padStart). The sign of zero is not tracked. */
module JsValues {

  datatype Option<+T> = None | Some(value: T)

  /** A JavaScript number. */
  datatype Num = NaN | Inf(negative: bool) | Fin(v: real)

  /** A value handed to a store action typed `string | number`. */
  datatype NumInput = Text(s: string) | Number(n: Num)

  /** `typeof value === "string" ? parseFloat(value) : value` */
  function ToNumber(value: NumInput): Num {
    match value
    case Text(s) => ParseFloat(s)
    case Number(n) => n
  }

  /** `n || 0` on a number, which is also `isNaN(n) ? 0 : n`: NaN and 0 are the
      falsy numbers and both become 0. */
  function OrZero(n: Num): (r: Num)
    ensures !r.NaN?
    ensures !n.NaN? ==> r == n
    ensures n.NaN? ==> r == Fin(0.0)
  {
    if n.NaN? then Fin(0.0) else n
  }

  /** A number that is not below zero (Infinity included). */
  predicate NonNegative(n: Num) {
    (n.Fin? && n.v >= 0.0) || n == Inf(false)
  }

  /** `Math.max(0, n)` */
  function Max0(n: Num): (r: Num)
    ensures n.NaN? <==> r.NaN?
    ensures !n.NaN? ==> NonNegative(r)
    ensures NonNegative(n) ==> r == n
  {
    match n
    case NaN => NaN
    case Inf(neg) => if neg then Fin(0.0) else n
    case Fin(x) => if x < 0.0 then Fin(0.0) else n
  }

  /** IEEE multiplication, without signed zeros. */
  function Mul(a: Num, b: Num): Num {
    match (a, b)
    case (NaN, _) => NaN
    case (_, NaN) => NaN
    case (Inf(s), Inf(t)) => Inf(s != t)
    case (Inf(s), Fin(y)) => if y == 0.0 then NaN else Inf(s != (y < 0.0))
    case (Fin(x), Inf(t)) => if x == 0.0 then NaN else Inf(t != (x < 0.0))
    case (Fin(x), Fin(y)) => Fin(x * y)
  }

  /** IEEE division, without signed zeros (a zero divisor counts as +0). */
  function Div(a: Num, b: Num): Num {
    match (a, b)
    case (NaN, _) => NaN
    case (_, NaN) => NaN
    case (Inf(_), Inf(_)) => NaN
    case (Inf(s), Fin(y)) => Inf(s != (y < 0.0))
    case (Fin(_), Inf(_)) => Fin(0.0)
    case (Fin(x), Fin(y)) =>
      if y == 0.0 then (if x == 0.0 then NaN else Inf(x < 0.0)) else Fin(x / y)
  }

  /** The product of two finite numbers is their real product. */
  lemma MulFinite(x: real, y: real)
    ensures Mul(Fin(x), Fin(y)) == Fin(x * y)
  {
  }

  /** IEEE addition, without signed zeros. */
  function Add(a: Num, b: Num): Num {
    match (a, b)
    case (NaN, _) => NaN
    case (_, NaN) => NaN
    case (Inf(s), Inf(t)) => if s == t then a else NaN
    case (Inf(_), Fin(_)) => a
    case (Fin(_), Inf(_)) => b
    case (Fin(x), Fin(y)) => Fin(x + y)
  }

  /** `a === b` on numbers: NaN equals nothing, not even itself. */
  predicate StrictEquals(a: Num, b: Num) {
    a == b && !a.NaN?
  }

  /** `Math.max(lo, Math.min(x, hi))` */
  function Clamp(x: real, lo: real, hi: real): (r: real)
    requires lo <= hi
    ensures lo <= r <= hi
    ensures lo <= x <= hi ==> r == x
    ensures x > hi ==> r == hi
    ensures x < lo ==> r == lo
  {
    if x > hi then hi else if x < lo then lo else x
  }

  /** Division is NaN exactly for NaN operands, 0/0 and Infinity/Infinity. */
  lemma DivNaN(a: Num, b: Num)
    ensures Div(a, b).NaN? <==>
      a.NaN? || b.NaN? || (a.Inf? && b.Inf?) || (a == Fin(0.0) && b == Fin(0.0))
  {
  }

  /** `Math.round` on a finite number: the nearest integer, halves rounded up. */
  function RoundHalfUp(x: real): (k: int)
    ensures x - 0.5 < k as real <= x + 0.5
  {
    (x + 0.5).Floor
  }

  // ---------------------------------------------------------------------------
  // Characters

  /** The characters String.prototype.trim and parseFloat skip: WhiteSpace and
      LineTerminator of ECMAScript. */
  predicate IsSpace(c: char) {
    c == '\t' || c == '\n' || c == '\U{000B}' || c == '\U{000C}' || c == '\r' || c == ' '
    || c == '\U{00A0}' || c == '\U{1680}' || ('\U{2000}' <= c <= '\U{200A}')
    || c == '\U{2028}' || c == '\U{2029}' || c == '\U{202F}' || c == '\U{205F}'
    || c == '\U{3000}' || c == '\U{FEFF}'
  }

  /** `!s.trim()`: the string is empty once trimmed. */
  predicate IsBlank(s: string) {
    forall i :: 0 <= i < |s| ==> IsSpace(s[i])
  }

  /** The string without its leading white space. */
  function TrimStart(s: string): string {
    if |s| > 0 && IsSpace(s[0]) then TrimStart(s[1..]) else s
  }

  /** Trimming drops a run of white space from the front and stops at the first
      visible character. */
  lemma {:induction false} TrimStartSpec(s: string)
    ensures var t := TrimStart(s);
      |t| <= |s| && t == s[|s| - |t|..] &&
      (forall i :: 0 <= i < |s| - |t| ==> IsSpace(s[i])) &&
      (|t| > 0 ==> !IsSpace(t[0]))
  {
    if |s| > 0 && IsSpace(s[0]) {
      TrimStartSpec(s[1..]);
    }
  }

  /** A string is blank exactly when trimming its start leaves nothing. */
  lemma BlankIffTrimmedEmpty(s: string)
    ensures IsBlank(s) <==> TrimStart(s) == []
  {
    TrimStartSpec(s);
  }

  /** `c.toUpperCase()` for ASCII letters; every other character is kept
      (the layer types that reach it are ASCII words). */
  function Upper(c: char): (u: char)
    ensures 'a' <= c <= 'z' ==> 'A' <= u <= 'Z'
    ensures !('a' <= c <= 'z') ==> u == c
  {
    if 'a' <= c <= 'z' then (c as int - 32) as char else c
  }

  /** `s.charAt(0).toUpperCase() + s.slice(1)` */
  function Capitalized(s: string): (r: string)
    ensures |r| == |s|
    ensures |s| > 0 ==> r[0] == Upper(s[0]) && r[1..] == s[1..]
  {
    if |s| == 0 then "" else [Upper(s[0])] + s[1..]
  }

  // ---------------------------------------------------------------------------
  // Decimal digits

  predicate IsDigit(c: char) { '0' <= c <= '9' }

  predicate AllDigits(s: string) {
    forall i :: 0 <= i < |s| ==> IsDigit(s[i])
  }

  function DigitValue(c: char): (d: nat)
    requires IsDigit(c)
    ensures d < 10
  {
    c as int - '0' as int
  }

  function Digit(d: nat): (c: char)
    requires d < 10
    ensures IsDigit(c) && DigitValue(c) == d
  {
    ('0' as int + d) as char
  }

  /** The value of a string of decimal digits, most significant first. */
  function DecimalValue(s: string): nat
    requires AllDigits(s)
  {
    if |s| == 0 then 0 else DecimalValue(s[..|s| - 1]) * 10 + DigitValue(s[|s| - 1])
  }

  /** `String(n)` for a natural number. */
  function NatToDecimal(n: nat): (s: string)
    ensures |s| > 0 && AllDigits(s)
  {
    if n < 10 then [Digit(n)] else NatToDecimal(n / 10) + [Digit(n % 10)]
  }

  /** Reading back the decimal form of `n` gives `n`. */
  lemma {:induction false} DecimalRoundTrip(n: nat)
    ensures DecimalValue(NatToDecimal(n)) == n
  {
    if n >= 10 {
      var s := NatToDecimal(n / 10);
      var t := s + [Digit(n % 10)];
      assert t[..|t| - 1] == s;
      DecimalRoundTrip(n / 10);
    }
  }

  /** How many decimal digits `s` starts with. */
  function DigitPrefixLength(s: string): (k: nat)
    ensures k <= |s| && AllDigits(s[..k])
    ensures k < |s| ==> !IsDigit(s[k])
  {
    if |s| > 0 && IsDigit(s[0]) then
      var k := 1 + DigitPrefixLength(s[1..]);
      assert s[..k] == [s[0]] + s[1..][..k - 1];
      k
    else 0
  }

  /** A run of digits followed by a non-digit is exactly the digit prefix. */
  lemma {:induction false} DigitPrefixOfAppend(ds: string, rest: string)
    requires AllDigits(ds)
    requires |rest| == 0 || !IsDigit(rest[0])
    ensures DigitPrefixLength(ds + rest) == |ds|
  {
    if |ds| > 0 {
      assert (ds + rest)[1..] == ds[1..] + rest;
      DigitPrefixOfAppend(ds[1..], rest);
    }
  }

  // ---------------------------------------------------------------------------
  // Hexadecimal digits

  predicate IsHexDigit(c: char) {
    IsDigit(c) || 'a' <= c <= 'f' || 'A' <= c <= 'F'
  }

  predicate AllHexDigits(s: string) {
    forall i :: 0 <= i < |s| ==> IsHexDigit(s[i])
  }

  function HexDigitValue(c: char): (d: nat)
    requires IsHexDigit(c)
    ensures d < 16
  {
    if IsDigit(c) then DigitValue(c)
    else if 'a' <= c <= 'f' then c as int - 'a' as int + 10
    else c as int - 'A' as int + 10
  }

  /** The lower-case hexadecimal digit `Number.prototype.toString(16)` writes. */
  function HexDigit(d: nat): (c: char)
    requires d < 16
    ensures IsHexDigit(c) && HexDigitValue(c) == d
  {
    if d < 10 then Digit(d) else ('a' as int + d - 10) as char
  }

  /** The value of a string of hexadecimal digits, most significant first. */
  function HexValue(s: string): nat
    requires AllHexDigits(s)
  {
    if |s| == 0 then 0 else HexValue(s[..|s| - 1]) * 16 + HexDigitValue(s[|s| - 1])
  }

  /** `n.toString(16)` for a natural number. */
  function NatToHex(n: nat): (s: string)
    ensures |s| > 0 && AllHexDigits(s)
  {
    if n < 16 then [HexDigit(n)] else NatToHex(n / 16) + [HexDigit(n % 16)]
  }

  /** How many hexadecimal digits `s` starts with. */
  function HexPrefixLength(s: string): (k: nat)
    ensures k <= |s| && AllHexDigits(s[..k])
    ensures k < |s| ==> !IsHexDigit(s[k])
  {
    if |s| > 0 && IsHexDigit(s[0]) then
      var k := 1 + HexPrefixLength(s[1..]);
      assert s[..k] == [s[0]] + s[1..][..k - 1];
      k
    else 0
  }

  /** `s.padStart(n, c)` with a one-character pad. */
  function PadStart(s: string, n: nat, c: char): (r: string)
    ensures |r| == if |s| >= n then |s| else n
    ensures r[|r| - |s|..] == s
    ensures forall i :: 0 <= i < |r| - |s| ==> r[i] == c
  {
    if |s| >= n then s else seq(n - |s|, _ => c) + s
  }

  /** The string without one leading "+" or "-". */
  function StripSign(t: string): string {
    if |t| > 0 && (t[0] == '-' || t[0] == '+') then t[1..] else t
  }

  /** `parseInt(s, 16)`: leading white space, an optional sign, an optional
      "0x"/"0X" prefix, then the longest run of hexadecimal digits; NaN when
      that run is empty. The result is never infinite, a number is a whole
      number, and a negative one needs a leading "-". */
  function ParseIntHex(s: string): (r: Num)
    ensures !r.Inf?
    ensures r.Fin? ==> r.v.Floor as real == r.v
    ensures r.Fin? && r.v < 0.0 ==> |TrimStart(s)| > 0 && TrimStart(s)[0] == '-'
  {
    var t := TrimStart(s);
    var neg := |t| > 0 && t[0] == '-';
    var u := StripSign(t);
    var w := if |u| >= 2 && u[0] == '0' && (u[1] == 'x' || u[1] == 'X') then u[2..] else u;
    var k := HexPrefixLength(w);
    if k == 0 then NaN
    else
      var mag: int := HexValue(w[..k]);
      Fin((if neg then -mag else mag) as real)
  }

  /** No hexadecimal digit is white space. */
  lemma HexDigitNotSpace(c: char)
    requires IsHexDigit(c)
    ensures !IsSpace(c)
  {
  }

  /** Trimming a string that starts with a visible character changes nothing. */
  lemma TrimStartVisible(s: string)
    requires |s| > 0 && !IsSpace(s[0])
    ensures TrimStart(s) == s
  {
  }

  /** Exactly two hexadecimal digits. */
  predicate IsHexPair(pair: string) {
    |pair| == 2 && IsHexDigit(pair[0]) && IsHexDigit(pair[1])
  }

  /** The byte two hexadecimal digits denote, most significant first. */
  function PairValue(pair: string): (v: nat)
    requires IsHexPair(pair)
    ensures v < 256
  {
    16 * HexDigitValue(pair[0]) + HexDigitValue(pair[1])
  }

  lemma HexPairValue(pair: string)
    requires IsHexPair(pair)
    ensures AllHexDigits(pair)
    ensures HexValue(pair) == PairValue(pair)
  {
    assert pair[..1] == [pair[0]];
    assert [pair[0]][..0] == [];
    assert HexValue([pair[0]]) == HexDigitValue(pair[0]);
  }

  /** Two hexadecimal digits parse to their byte value. */
  lemma ParseIntHexPair(pair: string)
    requires IsHexPair(pair)
    ensures ParseIntHex(pair) == Fin(PairValue(pair) as real)
  {
    HexDigitNotSpace(pair[0]);
    TrimStartVisible(pair);
    assert StripSign(pair) == pair;
    assert HexPrefixLength(pair[1..]) == 1;
    assert HexPrefixLength(pair) == 2;
    assert pair[..2] == pair;
    HexPairValue(pair);
  }

  /** `parseInt(p, 16)` for a string of exactly two characters, case by case:
      a leading digit (and a second one if there is one, except that "0x" is an
      empty prefixed number), or white space or a sign before one digit. */
  function ParseHexPair(p: string): (r: Num)
    requires |p| == 2
    ensures IsHexPair(p) ==> r == Fin(PairValue(p) as real)
  {
    var c0, c1 := p[0], p[1];
    if IsHexDigit(c0) then
      if c0 == '0' && (c1 == 'x' || c1 == 'X') then NaN
      else if IsHexDigit(c1) then Fin((16 * HexDigitValue(c0) + HexDigitValue(c1)) as real)
      else Fin(HexDigitValue(c0) as real)
    else if (IsSpace(c0) || c0 == '+' || c0 == '-') && IsHexDigit(c1) then
      var v := HexDigitValue(c1) as real;
      Fin(if c0 == '-' then -v else v)
    else NaN
  }

  /** Digits after any white space and sign: the value of the hexadecimal run. */
  lemma DigitRun(w: string)
    requires |w| <= 2
    ensures HexPrefixLength(w) == 0 <==> (|w| == 0 || !IsHexDigit(w[0]))
    ensures |w| >= 1 && IsHexDigit(w[0]) && (|w| == 1 || !IsHexDigit(w[1])) ==>
      HexPrefixLength(w) == 1 && HexValue(w[..1]) == HexDigitValue(w[0])
    ensures |w| == 2 && IsHexPair(w) ==> HexPrefixLength(w) == 2 && w[..2] == w
  {
    if |w| >= 1 {
      assert w[..1] == [w[0]];
      assert [w[0]][..0] == [];
      if |w| == 2 { assert w[1..] == [w[1]]; assert [w[1]][1..] == []; }
      else { assert w[1..] == []; }
    }
  }

  lemma AgreeDigitFirst(p: string)
    requires |p| == 2 && IsHexDigit(p[0])
    ensures ParseHexPair(p) == ParseIntHex(p)
  {
    HexDigitNotSpace(p[0]);
    TrimStartVisible(p);
    assert StripSign(p) == p;
    if p[0] == '0' && (p[1] == 'x' || p[1] == 'X') {
      assert p[2..] == [];
    } else {
      DigitRun(p);
      if IsHexDigit(p[1]) { HexPairValue(p); }
    }
  }

  lemma AgreeSignFirst(p: string)
    requires |p| == 2 && (p[0] == '+' || p[0] == '-')
    ensures ParseHexPair(p) == ParseIntHex(p)
  {
    TrimStartVisible(p);
    assert StripSign(p) == [p[1]];
    DigitRun([p[1]]);
  }

  lemma AgreeSpaceFirst(p: string)
    requires |p| == 2 && IsSpace(p[0])
    ensures ParseHexPair(p) == ParseIntHex(p)
  {
    assert TrimStart(p) == TrimStart([p[1]]) by { assert p[1..] == [p[1]]; }
    if IsSpace(p[1]) {
      assert [p[1]][1..] == [];
      assert TrimStart([p[1]]) == [];
      assert !IsHexDigit(p[1]) by { if IsHexDigit(p[1]) { HexDigitNotSpace(p[1]); } }
    } else {
      TrimStartVisible([p[1]]);
      if p[1] == '+' || p[1] == '-' {
        assert StripSign([p[1]]) == [];
      } else {
        assert StripSign([p[1]]) == [p[1]];
        DigitRun([p[1]]);
      }
    }
  }

  lemma AgreeOtherFirst(p: string)
    requires |p| == 2 && !IsHexDigit(p[0]) && !IsSpace(p[0]) && p[0] != '+' && p[0] != '-'
    ensures ParseHexPair(p) == ParseIntHex(p)
  {
    TrimStartVisible(p);
    assert StripSign(p) == p;
    DigitRun(p);
  }

  /** The two-character model is exactly `parseInt(p, 16)` on every string of
      length two. */
  lemma ParseHexPairAgrees(p: string)
    requires |p| == 2
    ensures ParseHexPair(p) == ParseIntHex(p)
  {
    if IsHexDigit(p[0]) { AgreeDigitFirst(p); }
    else if IsSpace(p[0]) { AgreeSpaceFirst(p); }
    else if p[0] == '+' || p[0] == '-' { AgreeSignFirst(p); }
    else { AgreeOtherFirst(p); }
  }

  /** The two-character alpha suffix ColorInput builds:
      `n.toString(16).padStart(2, "0")`: at least two hexadecimal digits. */
  function HexByte(n: nat): (r: string)
    ensures |r| >= 2 && AllHexDigits(r)
  {
    PadStart(NatToHex(n), 2, '0')
  }

  /** For a byte, the suffix is two hexadecimal digits that read back as the byte. */
  lemma HexByteRoundTrip(n: nat)
    requires n < 256
    ensures |HexByte(n)| == 2 && AllHexDigits(HexByte(n))
    ensures HexValue(HexByte(n)) == n
    ensures ParseIntHex(HexByte(n)) == Fin(n as real)
  {
    HexByteDigits(n);
    HexPairValue(HexByte(n));
    ParseIntHexPair(HexByte(n));
  }

  /** The suffix of a byte is its high digit then its low digit. */
  lemma HexByteDigits(n: nat)
    requires n < 256
    ensures HexByte(n) == [HexDigit(n / 16), HexDigit(n % 16)]
  {
    if n < 16 {
      assert NatToHex(n) == [HexDigit(n)];
      assert seq(1, _ => '0') == ['0'];
      assert HexByte(n) == ['0'] + [HexDigit(n)];
    } else {
      assert NatToHex(n / 16) == [HexDigit(n / 16)];
      assert NatToHex(n) == [HexDigit(n / 16), HexDigit(n % 16)];
    }
  }

  // ---------------------------------------------------------------------------
  // parseFloat and toFixed(2)

  function Pow10Nat(n: nat): (r: real)
    ensures r >= 1.0
  {
    if n == 0 then 1.0 else 10.0 * Pow10Nat(n - 1)
  }

  function Pow10(e: int): (r: real)
    ensures r > 0.0
  {
    if e >= 0 then Pow10Nat(e) else 1.0 / Pow10Nat(-e)
  }

  /** The exponent a string starts with ("e", an optional sign, at least one
      digit), or 0 when it starts with no well-formed exponent. */
  function ExponentPart(s: string): int {
    if |s| >= 2 && (s[0] == 'e' || s[0] == 'E') then
      var body := if s[1] == '-' || s[1] == '+' then s[2..] else s[1..];
      var k := DigitPrefixLength(body);
      var mag: int := DecimalValue(body[..k]);
      if k == 0 then 0 else if s[1] == '-' then -mag else mag
    else 0
  }

  /** The unsigned decimal literal a string starts with (digits, an optional
      fraction, an optional exponent), NaN when it has no digit. */
  function ParseDecimal(u: string): (r: Num)
    ensures r.NaN? || (r.Fin? && r.v >= 0.0)
  {
    var a := DigitPrefixLength(u);
    DecimalAfterIntegerPart(DecimalValue(u[..a]), a > 0, u[a..])
  }

  /** The rest of a decimal literal once its integer digits (worth `whole`) are
      read: an optional "." and fraction digits, then an optional exponent. */
  function DecimalAfterIntegerPart(whole: nat, hasDigits: bool, rest: string): (r: Num)
    ensures r.NaN? || (r.Fin? && r.v >= 0.0)
  {
    var dot := |rest| > 0 && rest[0] == '.';
    var tail := if dot then rest[1..] else [];
    var b := DigitPrefixLength(tail);
    if !hasDigits && b == 0 then NaN
    else
      var m := Mantissa(whole, tail[..b]);
      var scale := Pow10(ExponentPart(if dot then tail[b..] else rest));
      NonNegativeProduct(m, scale);
      Fin(m * scale)
  }

  /** The value of integer digits worth `whole` followed by fraction digits. */
  function Mantissa(whole: nat, fraction: string): (m: real)
    requires AllDigits(fraction)
    ensures m >= whole as real
  {
    var f := DecimalValue(fraction) as real;
    var p := Pow10Nat(|fraction|);
    NonNegativeQuotient(f, p);
    whole as real + f / p
  }

  lemma NonNegativeQuotient(x: real, y: real)
    requires x >= 0.0 && y > 0.0
    ensures x / y >= 0.0
  {
  }

  lemma NonNegativeProduct(x: real, y: real)
    requires x >= 0.0 && y > 0.0
    ensures x * y >= 0.0
  {
  }

  /** The unsigned magnitude parseFloat reads after the sign. */
  function ParseMagnitude(u: string): (r: Num)
    ensures r.NaN? || r == Inf(false) || (r.Fin? && r.v >= 0.0)
  {
    if |u| >= 8 && u[..8] == "Infinity" then Inf(false) else ParseDecimal(u)
  }

  function Negated(m: Num, neg: bool): Num {
    if !neg then m
    else match m
      case NaN => NaN
      case Inf(_) => Inf(true)
      case Fin(x) => Fin(-x)
  }

  /** `parseFloat(s)`: leading white space, an optional sign, then "Infinity" or
      the longest decimal literal; NaN when no digit is found. A negative
      result needs a leading "-". */
  function ParseFloat(s: string): (r: Num)
    ensures (r.Fin? && r.v < 0.0) || r == Inf(true) ==> |TrimStart(s)| > 0 && TrimStart(s)[0] == '-'
  {
    var t := TrimStart(s);
    Negated(ParseMagnitude(StripSign(t)), |t| > 0 && t[0] == '-')
  }

  /** The empty string parses to NaN. */
  lemma ParseFloatEmpty()
    ensures ParseFloat("") == NaN
  {
  }

  /** `Math.round(|x| * 100)`, the hundredths toFixed(2) writes. */
  function Hundredths(x: real): nat {
    var a := if x < 0.0 then -x else x;
    var k := RoundHalfUp(a * 100.0);
    assert k >= 0;
    k
  }

  /** `x.toFixed(2)` for the numbers the sidebar formats (below 10^21 in size):
      sign, integer part, ".", two digits; ties are rounded away from zero.
      A finite number always ends in a point and exactly two digits. */
  function ToFixed2(n: Num): (r: string)
    ensures |r| >= 3
    ensures n.Fin? ==> r[|r| - 3] == '.' && IsDigit(r[|r| - 2]) && IsDigit(r[|r| - 1])
  {
    match n
    case NaN => "NaN"
    case Inf(neg) => (if neg then "-" else "") + "Infinity"
    case Fin(x) =>
      var k := Hundredths(x);
      var r := k % 100;
      (if x < 0.0 then "-" else "") + NatToDecimal(k / 100) + "." + [Digit(r / 10), Digit(r % 10)]
  }

  /** The number `toFixed(2)` denotes: rounded to the nearest hundredth. */
  function Fixed2Value(n: Num): (r: Num)
    ensures n.Fin? ==> r.Fin? && -0.005 <= r.v - n.v <= 0.005
    ensures !n.Fin? ==> r == n
  {
    match n
    case Fin(x) =>
      var m := Hundredths(x) as real / 100.0;
      Fin(if x < 0.0 then -m else m)
    case _ => n
  }

  /** Parsing the string `toFixed(2)` produced gives back the rounded number. */
  lemma ParseFixed2(n: Num)
    ensures ParseFloat(ToFixed2(n)) == Fixed2Value(n)
  {
    match n
    case NaN => ParseNaNText();
    case Inf(neg) => ParseInfinityText(neg);
    case Fin(x) => ParseFixedFinite(x);
  }

  lemma ParseNaNText()
    ensures ParseFloat("NaN") == NaN
  {
    TrimStartVisible("NaN");
    assert StripSign("NaN") == "NaN";
    assert DigitPrefixLength("NaN") == 0;
    assert "NaN"[0..] == "NaN";
  }

  lemma ParseInfinityText(neg: bool)
    ensures ParseFloat((if neg then "-" else "") + "Infinity") == Inf(neg)
  {
    var s := (if neg then "-" else "") + "Infinity";
    TrimStartVisible(s);
    if neg {
      assert StripSign(s) == "Infinity";
    } else {
      assert s == "Infinity";
      assert StripSign(s) == s;
    }
  }

  lemma ParseFixedFinite(x: real)
    ensures ParseFloat(ToFixed2(Fin(x))) == Fixed2Value(Fin(x))
  {
    var k := Hundredths(x);
    var body := NatToDecimal(k / 100) + "." + [Digit(k % 100 / 10), Digit(k % 100 % 10)];
    var s := (if x < 0.0 then "-" else "") + body;
    assert ToFixed2(Fin(x)) == s;
    assert Fixed2Value(Fin(x)) == Negated(Fin(k as real / 100.0), x < 0.0);
    ParseFixedText(x < 0.0, k, body, s);
  }

  /** The text of `toFixed(2)`, sign and body, reads as the signed number of
      hundredths. */
  lemma ParseFixedText(neg: bool, k: nat, body: string, s: string)
    requires body == NatToDecimal(k / 100) + "." + [Digit(k % 100 / 10), Digit(k % 100 % 10)]
    requires s == (if neg then "-" else "") + body
    ensures ParseFloat(s) == Negated(Fin(k as real / 100.0), neg)
  {
    assert body[0] == NatToDecimal(k / 100)[0];
    ParseFixedBody(k);
    ParseSigned(neg, body, s);
  }

  /** A digit string with an optional "-" in front parses as its magnitude,
      negated for the "-". */
  lemma ParseSigned(neg: bool, body: string, s: string)
    requires |body| > 0 && IsDigit(body[0])
    requires s == (if neg then "-" else "") + body
    ensures ParseFloat(s) == Negated(ParseMagnitude(body), neg)
  {
    assert neg ==> s[0] == '-' && s[1..] == body;
    assert !neg ==> s == body;
    TrimStartVisible(s);
  }

  /** The unsigned body "ddd.dd" of toFixed(2) reads as hundredths / 100. */
  lemma ParseFixedBody(k: nat)
    ensures ParseMagnitude(NatToDecimal(k / 100) + "." + [Digit(k % 100 / 10), Digit(k % 100 % 10)])
         == Fin(k as real / 100.0)
  {
    var q, d1, d2 := k / 100, k % 100 / 10, k % 100 % 10;
    var ip := NatToDecimal(q);
    var fr := [Digit(d1), Digit(d2)];
    DecimalRoundTrip(q);
    TwoDigitValue(d1, d2);
    HundredthsSplit(k);
    FixedDecimal(ip, fr, ip + "." + fr);
  }

  /** Integer digits, "." and two fraction digits read as the integer plus
      hundredths. (Stated as an implication so that a caller's proof
      obligation is this one fact.) */
  lemma FixedDecimal(ip: string, fr: string, u: string)
    ensures (|ip| > 0 && AllDigits(ip) && |fr| == 2 && AllDigits(fr) && u == ip + "." + fr) ==>
              ParseMagnitude(u) == Fin(DecimalValue(ip) as real + DecimalValue(fr) as real / 100.0)
  {
    if |ip| > 0 && AllDigits(ip) && |fr| == 2 && AllDigits(fr) && u == ip + "." + fr {
      assert u == ip + ("." + fr);
      assert u[0] == ip[0];
      MagnitudeOfDigits(u);
      DecimalFraction(ip, fr);
    }
  }

  /** The decimal reading of integer digits, "." and two fraction digits. */
  lemma DecimalFraction(ip: string, fr: string)
    ensures (|ip| > 0 && AllDigits(ip) && |fr| == 2 && AllDigits(fr)) ==>
              ParseDecimal(ip + ("." + fr)) == Fin(DecimalValue(ip) as real + DecimalValue(fr) as real / 100.0)
  {
    if |ip| > 0 && AllDigits(ip) && |fr| == 2 && AllDigits(fr) {
      IntegerPartThenRest(ip, "." + fr);
      FractionHundredths(DecimalValue(ip), fr);
    }
  }

  /** A string that starts with a digit is not "Infinity". */
  lemma MagnitudeOfDigits(u: string)
    requires |u| > 0 && IsDigit(u[0])
    ensures ParseMagnitude(u) == ParseDecimal(u)
  {
    if |u| >= 8 {
      assert u[..8][0] == u[0];
    }
  }

  /** Integer digits followed by a string that does not start with a digit. */
  lemma IntegerPartThenRest(ip: string, rest: string)
    requires |ip| > 0 && AllDigits(ip)
    requires |rest| > 0 && !IsDigit(rest[0])
    ensures ParseDecimal(ip + rest) == DecimalAfterIntegerPart(DecimalValue(ip), true, rest)
  {
    var u := ip + rest;
    DigitPrefixOfAppend(ip, rest);
    assert u[..|ip|] == ip && u[|ip|..] == rest;
  }

  /** "." and two fraction digits read as hundredths. */
  lemma FractionHundredths(w: nat, fr: string)
    requires |fr| == 2 && AllDigits(fr)
    ensures DecimalAfterIntegerPart(w, true, "." + fr) == Fin(w as real + DecimalValue(fr) as real / 100.0)
  {
    FractionNoExponent(w, fr);
    MantissaHundredths(w, fr);
  }

  lemma MantissaHundredths(whole: nat, fr: string)
    requires |fr| == 2 && AllDigits(fr)
    ensures Mantissa(whole, fr) == whole as real + DecimalValue(fr) as real / 100.0
  {
    assert Pow10Nat(2) == 100.0 by {
      assert Pow10Nat(0) == 1.0;
      assert Pow10Nat(1) == 10.0;
    }
  }

  /** "." and fraction digits with nothing after them. */
  lemma FractionNoExponent(whole: nat, fr: string)
    requires AllDigits(fr)
    ensures DecimalAfterIntegerPart(whole, true, "." + fr) == Fin(Mantissa(whole, fr))
  {
    var rest := "." + fr;
    assert rest[1..] == fr;
    DigitPrefixOfAppend(fr, []);
    assert fr + [] == fr;
    assert fr[..|fr|] == fr && fr[|fr|..] == [];
    assert ExponentPart([]) == 0;
  }

  lemma TwoDigitValue(d1: nat, d2: nat)
    requires d1 < 10 && d2 < 10
    ensures AllDigits([Digit(d1), Digit(d2)])
    ensures DecimalValue([Digit(d1), Digit(d2)]) == d1 * 10 + d2
  {
    var fr := [Digit(d1), Digit(d2)];
    assert fr[..1] == [Digit(d1)];
    assert [Digit(d1)][..0] == [];
    assert DecimalValue([Digit(d1)]) == d1;
  }

  lemma HundredthsSplit(k: nat)
    ensures (k % 100 / 10) * 10 + k % 100 % 10 == k % 100
    ensures (k / 100) as real + (k % 100) as real / 100.0 == k as real / 100.0
  {
    var q, r := k / 100, k % 100;
    assert k == 100 * q + r;
    assert k as real == 100.0 * q as real + r as real;
  }
}
