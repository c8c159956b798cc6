/** The geometry and colour helpers of the canvas (skiaUtils.ts): hex colour
    decoding, the centre and size of an object's box, rotation about a pivot,
    the angle and the distance between two points. Trigonometry and the square
    root are parameters (`Maths`); the lemmas state the laws they rely on at
    the points where they are used. */
module SkiaUtils {
  import opened JsValues
  import opened Types

  // ---------------------------------------------------------------------------
  // Colours

  /** A colour with channels in the unit range when well formed. */
  datatype Rgba = Rgba(r: Num, g: Num, b: Num, a: Num)

  const TransparentBlack := Rgba(Fin(0.0), Fin(0.0), Fin(0.0), Fin(0.0))

  /** `s.replace(c, "")` with a string pattern: only the first occurrence goes. */
  function RemoveFirst(s: string, c: char): (r: string)
    ensures c in s ==> |r| == |s| - 1
    ensures c !in s ==> r == s
    ensures |s| > 0 && s[0] == c ==> r == s[1..]
  {
    if |s| == 0 then s
    else if s[0] == c then s[1..]
    else [s[0]] + RemoveFirst(s[1..], c)
  }

  /** `parseInt(pair, 16) / 255`; every pair the decoder reads has two
      characters, where `ParseHexPair` is `parseInt(_, 16)` (ParseHexPairAgrees). */
  function Channel(pair: string): Num
    requires |pair| == 2
  {
    Div(ParseHexPair(pair), Fin(255.0))
  }

  /** `hexToRgba(hex, defaultAlpha)`: transparent black for "transparent"
      and for any length but 6 or 8 once the "#" is gone; six digits take
      the default alpha. */
  function HexToRgba(hex: string, defaultAlpha: Num): (c: Rgba)
    ensures hex == "transparent" || (|RemoveFirst(hex, '#')| != 6 && |RemoveFirst(hex, '#')| != 8) ==>
      c == TransparentBlack
    ensures hex != "transparent" && |RemoveFirst(hex, '#')| == 6 ==> c.a == defaultAlpha
  {
    if hex == "transparent" then TransparentBlack
    else DecodeDigits(RemoveFirst(hex, '#'), defaultAlpha)
  }

  /** The colour of the digits left once the first "#" is removed. */
  function DecodeDigits(h: string, defaultAlpha: Num): Rgba {
    if |h| == 8 then Rgba(Channel(h[0..2]), Channel(h[2..4]), Channel(h[4..6]), Channel(h[6..8]))
    else if |h| == 6 then Rgba(Channel(h[0..2]), Channel(h[2..4]), Channel(h[4..6]), defaultAlpha)
    else TransparentBlack
  }

  /** The alpha the canvas passes when it gives none. */
  const DefaultAlpha := Fin(1.0)

  predicate InUnitRange(n: Num) {
    n.Fin? && 0.0 <= n.v <= 1.0
  }

  /** The keyword "transparent" is transparent black. */
  lemma TransparentKeyword(defaultAlpha: Num)
    ensures HexToRgba("transparent", defaultAlpha) == TransparentBlack
  {
  }

  /** Two hexadecimal digits give their byte value over 255, a number in [0, 1]. */
  lemma ChannelOfPair(pair: string)
    requires IsHexPair(pair)
    ensures Channel(pair) == Fin(PairValue(pair) as real / 255.0)
    ensures InUnitRange(Channel(pair))
  {
  }

  lemma TransparentIsNotHex()
    ensures !AllHexDigits(RemoveFirst("transparent", '#'))
  {
    var s := "transparent";
    assert s[0] == 't';
    assert RemoveFirst(s, '#') == [s[0]] + RemoveFirst(s[1..], '#');
    assert RemoveFirst(s, '#')[0] == 't';
  }

  /** The sub-strings of a well-formed colour are hexadecimal digit pairs. */
  lemma PairsOf(h: string, i: nat)
    requires AllHexDigits(h) && i + 2 <= |h|
    ensures IsHexPair(h[i..i + 2])
  {
  }

  /** Eight hexadecimal digits (after the first "#" is removed) decode pair by
      pair into four channels. */
  lemma EightDigits(hex: string, defaultAlpha: Num)
    requires |RemoveFirst(hex, '#')| == 8 && AllHexDigits(RemoveFirst(hex, '#'))
    ensures var h := RemoveFirst(hex, '#');
      HexToRgba(hex, defaultAlpha) == Rgba(
        Fin(PairValue(h[0..2]) as real / 255.0), Fin(PairValue(h[2..4]) as real / 255.0),
        Fin(PairValue(h[4..6]) as real / 255.0), Fin(PairValue(h[6..8]) as real / 255.0))
  {
    NotTransparent(hex);
    DecodeEight(RemoveFirst(hex, '#'), defaultAlpha);
  }

  /** Six hexadecimal digits decode into three channels; the alpha is the
      default one. */
  lemma SixDigits(hex: string, defaultAlpha: Num)
    requires |RemoveFirst(hex, '#')| == 6 && AllHexDigits(RemoveFirst(hex, '#'))
    ensures var h := RemoveFirst(hex, '#');
      HexToRgba(hex, defaultAlpha) == Rgba(
        Fin(PairValue(h[0..2]) as real / 255.0), Fin(PairValue(h[2..4]) as real / 255.0),
        Fin(PairValue(h[4..6]) as real / 255.0), defaultAlpha)
  {
    NotTransparent(hex);
    DecodeSix(RemoveFirst(hex, '#'), defaultAlpha);
  }

  lemma DecodeEight(h: string, defaultAlpha: Num)
    requires |h| == 8 && AllHexDigits(h)
    ensures DecodeDigits(h, defaultAlpha) == Rgba(
        Fin(PairValue(h[0..2]) as real / 255.0), Fin(PairValue(h[2..4]) as real / 255.0),
        Fin(PairValue(h[4..6]) as real / 255.0), Fin(PairValue(h[6..8]) as real / 255.0))
  {
    PairsOf(h, 0); PairsOf(h, 2); PairsOf(h, 4); PairsOf(h, 6);
    ChannelOfPair(h[0..2]);
    ChannelOfPair(h[2..4]);
    ChannelOfPair(h[4..6]);
    ChannelOfPair(h[6..8]);
  }

  lemma DecodeSix(h: string, defaultAlpha: Num)
    requires |h| == 6 && AllHexDigits(h)
    ensures DecodeDigits(h, defaultAlpha) == Rgba(
        Fin(PairValue(h[0..2]) as real / 255.0), Fin(PairValue(h[2..4]) as real / 255.0),
        Fin(PairValue(h[4..6]) as real / 255.0), defaultAlpha)
  {
    PairsOf(h, 0); PairsOf(h, 2); PairsOf(h, 4);
    ChannelOfPair(h[0..2]);
    ChannelOfPair(h[2..4]);
    ChannelOfPair(h[4..6]);
  }

  /** A colour whose digits are all hexadecimal is not the keyword. */
  lemma NotTransparent(hex: string)
    requires AllHexDigits(RemoveFirst(hex, '#'))
    ensures hex != "transparent"
  {
    TransparentIsNotHex();
  }

  /** Every channel a well-formed colour decodes to lies in [0, 1]. */
  lemma ChannelsInUnitRange(hex: string, defaultAlpha: Num)
    requires |RemoveFirst(hex, '#')| in {6, 8} && AllHexDigits(RemoveFirst(hex, '#'))
    requires InUnitRange(defaultAlpha)
    ensures var c := HexToRgba(hex, defaultAlpha);
      InUnitRange(c.r) && InUnitRange(c.g) && InUnitRange(c.b) && InUnitRange(c.a)
  {
    var h := RemoveFirst(hex, '#');
    PairsOf(h, 0); PairsOf(h, 2); PairsOf(h, 4);
    if |h| == 8 {
      PairsOf(h, 6);
      EightDigits(hex, defaultAlpha);
    } else {
      SixDigits(hex, defaultAlpha);
    }
  }

  /** Any other length, once the first "#" is removed, is transparent black. */
  lemma OtherLength(hex: string, defaultAlpha: Num)
    requires |RemoveFirst(hex, '#')| != 8 && |RemoveFirst(hex, '#')| != 6
    ensures HexToRgba(hex, defaultAlpha) == TransparentBlack
  {
  }

  // ---------------------------------------------------------------------------
  // Boxes

  /** The two corners getObjectCenter and getObjectBounds read. */
  datatype Span = Span(startX: real, startY: real, endX: real, endY: real)
  {
    /** The same box with its corners given the other way round. */
    function Swapped(): Span {
      Span(endX, endY, startX, startY)
    }
  }

  datatype Bounds = Bounds(width: real, height: real)

  function Min(a: real, b: real): real { if a <= b then a else b }
  function Max(a: real, b: real): real { if a <= b then b else a }

  /** `getObjectCenter`: the point as far from the start as from the end. */
  function ObjectCenter(o: Span): (c: Point)
    ensures c.x - o.startX == o.endX - c.x
    ensures c.y - o.startY == o.endY - c.y
  {
    Point((o.startX + o.endX) / 2.0, (o.startY + o.endY) / 2.0)
  }

  /** `getObjectBounds`: the absolute extent along each axis. */
  function ObjectBounds(o: Span): (b: Bounds)
    ensures b.width >= 0.0 && b.height >= 0.0
    ensures b.width == Max(o.startX, o.endX) - Min(o.startX, o.endX)
    ensures b.height == Max(o.startY, o.endY) - Min(o.startY, o.endY)
  {
    var w := o.endX - o.startX;
    var h := o.endY - o.startY;
    Bounds(if w < 0.0 then -w else w, if h < 0.0 then -h else h)
  }

  /** Neither the centre nor the size depends on which corner came first. */
  lemma SwapInvariant(o: Span)
    ensures ObjectCenter(o.Swapped()) == ObjectCenter(o)
    ensures ObjectBounds(o.Swapped()) == ObjectBounds(o)
  {
  }

  /** The centre plus or minus half the size gives the box's edges. */
  lemma CenterAndHalfBounds(o: Span)
    ensures ObjectCenter(o).x - ObjectBounds(o).width / 2.0 == Min(o.startX, o.endX)
    ensures ObjectCenter(o).x + ObjectBounds(o).width / 2.0 == Max(o.startX, o.endX)
    ensures ObjectCenter(o).y - ObjectBounds(o).height / 2.0 == Min(o.startY, o.endY)
    ensures ObjectCenter(o).y + ObjectBounds(o).height / 2.0 == Max(o.startY, o.endY)
  {
  }

  // ---------------------------------------------------------------------------
  // Rotation, angle and distance

  /** Cosine and sine of an angle in degrees (`Math.cos(deg * Math.PI / 180)`),
      `Math.atan2(y, x)` in degrees, and `Math.sqrt`. */
  datatype Maths = Maths(
    cosDeg: real -> real,
    sinDeg: real -> real,
    atan2Deg: (real, real) -> real,
    sqrt: real -> real)

  /** cos² + sin² = 1 at the angle `deg`. */
  predicate UnitCircleAt(m: Maths, deg: real) {
    m.cosDeg(deg) * m.cosDeg(deg) + m.sinDeg(deg) * m.sinDeg(deg) == 1.0
  }

  /** cos is even and sin is odd at the angle `deg`. */
  predicate SymmetricAt(m: Maths, deg: real) {
    m.cosDeg(-deg) == m.cosDeg(deg) && m.sinDeg(-deg) == -m.sinDeg(deg)
  }

  /** The square root of a non-negative `x` is the non-negative root. */
  predicate SqrtAt(m: Maths, x: real) {
    x >= 0.0 ==> m.sqrt(x) >= 0.0 && m.sqrt(x) * m.sqrt(x) == x
  }

  /** `rotatePoint(p.x, p.y, c.x, c.y, deg)`: the pivot stays where it is,
      and an angle with cosine 1 and sine 0 moves nothing. */
  function RotatePoint(p: Point, c: Point, deg: real, m: Maths): (q: Point)
    ensures p == c ==> q == c
    ensures m.cosDeg(deg) == 1.0 && m.sinDeg(deg) == 0.0 ==> q == p
  {
    var tx := p.x - c.x;
    var ty := p.y - c.y;
    var co := m.cosDeg(deg);
    var si := m.sinDeg(deg);
    Point(tx * co - ty * si + c.x, tx * si + ty * co + c.y)
  }

  /** The squared distance `(b.x - a.x)² + (b.y - a.y)²`. */
  function DistSq(a: Point, b: Point): (d: real)
    ensures d >= 0.0
  {
    (b.x - a.x) * (b.x - a.x) + (b.y - a.y) * (b.y - a.y)
  }

  /** `calculateDistance(a.x, a.y, b.x, b.y)`: symmetric, and with a lawful
      square root the non-negative number whose square is the squared
      distance. */
  function CalculateDistance(a: Point, b: Point, m: Maths): (d: real)
    ensures d == m.sqrt(DistSq(b, a))
    ensures SqrtAt(m, DistSq(a, b)) ==> d >= 0.0 && d * d == DistSq(a, b)
  {
    m.sqrt(DistSq(a, b))
  }

  /** `calculateAngle(c.x, c.y, p.x, p.y)`: the direction from `c` to `p`;
      a point taken about itself gives `atan2(0, 0)`. */
  function CalculateAngle(c: Point, p: Point, m: Maths): (a: real)
    ensures p == c ==> a == m.atan2Deg(0.0, 0.0)
  {
    m.atan2Deg(p.y - c.y, p.x - c.x)
  }

  /** The angle depends only on the offset from `c` to `p`: moving both
      points by the same amount keeps it. */
  lemma AngleOfOffset(c: Point, p: Point, d: Point, m: Maths)
    ensures CalculateAngle(Point(c.x + d.x, c.y + d.y), Point(p.x + d.x, p.y + d.y), m) == CalculateAngle(c, p, m)
  {
    assert (p.y + d.y) - (c.y + d.y) == p.y - c.y && (p.x + d.x) - (c.x + d.x) == p.x - c.x;
  }

  /** The pivot does not move. */
  lemma RotateFixesPivot(c: Point, deg: real, m: Maths)
    ensures RotatePoint(c, c, deg, m) == c
  {
  }

  /** Rotating by an angle whose cosine is 1 and sine is 0 moves nothing. */
  lemma RotateByZero(p: Point, c: Point, m: Maths)
    requires m.cosDeg(0.0) == 1.0 && m.sinDeg(0.0) == 0.0
    ensures RotatePoint(p, c, 0.0, m) == p
  {
  }

  /** With cos² + sin² = 1, rotation keeps the distance to the pivot. */
  lemma RotatePreservesDistance(p: Point, c: Point, deg: real, m: Maths)
    requires UnitCircleAt(m, deg)
    ensures DistSq(RotatePoint(p, c, deg, m), c) == DistSq(p, c)
  {
    var tx, ty := p.x - c.x, p.y - c.y;
    var co, si := m.cosDeg(deg), m.sinDeg(deg);
    var q := RotatePoint(p, c, deg, m);
    assert q.x - c.x == tx * co - ty * si;
    assert q.y - c.y == tx * si + ty * co;
    RotationSquares(tx, ty, co, si);
  }

  lemma RotationSquares(tx: real, ty: real, co: real, si: real)
    requires co * co + si * si == 1.0
    ensures (tx * co - ty * si) * (tx * co - ty * si) + (tx * si + ty * co) * (tx * si + ty * co)
         == tx * tx + ty * ty
  {
    calc {
      (tx * co - ty * si) * (tx * co - ty * si) + (tx * si + ty * co) * (tx * si + ty * co);
      tx * tx * (co * co + si * si) + ty * ty * (co * co + si * si);
      tx * tx + ty * ty;
    }
  }

  /** Rotating back by the opposite angle returns the point. */
  lemma RotateBack(p: Point, c: Point, deg: real, m: Maths)
    requires UnitCircleAt(m, deg) && SymmetricAt(m, deg)
    ensures RotatePoint(RotatePoint(p, c, deg, m), c, -deg, m) == p
  {
    var tx, ty := p.x - c.x, p.y - c.y;
    var co, si := m.cosDeg(deg), m.sinDeg(deg);
    var q := RotatePoint(p, c, deg, m);
    var ux, uy := q.x - c.x, q.y - c.y;
    assert ux == tx * co - ty * si && uy == tx * si + ty * co;
    UndoRotation(tx, ty, co, si);
  }

  lemma UndoRotation(tx: real, ty: real, co: real, si: real)
    requires co * co + si * si == 1.0
    ensures (tx * co - ty * si) * co - (tx * si + ty * co) * -si == tx
    ensures (tx * co - ty * si) * -si + (tx * si + ty * co) * co == ty
  {
    calc {
      (tx * co - ty * si) * co - (tx * si + ty * co) * -si;
      tx * (co * co + si * si);
      tx;
    }
    calc {
      (tx * co - ty * si) * -si + (tx * si + ty * co) * co;
      ty * (co * co + si * si);
      ty;
    }
  }

  /** The distance from `a` to `b` is the distance from `b` to `a`. */
  lemma DistanceSymmetric(a: Point, b: Point, m: Maths)
    ensures CalculateDistance(a, b, m) == CalculateDistance(b, a, m)
  {
    assert DistSq(a, b) == DistSq(b, a);
  }

  /** Comparing the distance with a radius is comparing the squared distance
      with the squared radius. */
  lemma WithinRadius(a: Point, b: Point, r: real, m: Maths)
    requires r >= 0.0 && SqrtAt(m, DistSq(a, b))
    ensures CalculateDistance(a, b, m) <= r <==> DistSq(a, b) <= r * r
  {
    var s := m.sqrt(DistSq(a, b));
    assert s >= 0.0 && s * s == DistSq(a, b);
    SquareMonotone(s, r);
  }

  lemma PositiveProduct(a: real, b: real)
    requires a > 0.0 && b > 0.0
    ensures a * b > 0.0
  {
  }

  lemma SquareStrict(r: real, s: real)
    requires 0.0 <= r < s
    ensures r * r < s * s
  {
    PositiveProduct(s - r, s + r);
    assert (s - r) * (s + r) == s * s - r * r;
  }

  lemma SquareMonotone(s: real, r: real)
    requires s >= 0.0 && r >= 0.0
    ensures s <= r <==> s * s <= r * r
  {
    if s <= r {
      assert s * s <= s * r <= r * r;
    } else {
      SquareStrict(r, s);
    }
  }
}
