/**
  * Colours as Go's `color.NRGBA` values, the placeholder colour, and their
  * `#rrggbb` rendering (`hexify` in util.go, repeated verbatim in image.go).
  */
module Colors {
  import opened Wrappers

  /** A `uint8` channel value. */
  type Byte = x: int | 0 <= x < 256

  /** A non-alpha-premultiplied colour: red, green, blue and alpha. */
  datatype NRGBA = NRGBA(r: Byte, g: Byte, b: Byte, a: Byte)

  /** The zero NRGBA value, used to mark a slot that holds no colour from the image. */
  const PLACEHOLDER: NRGBA := NRGBA(0, 0, 0, 0)

  /** Every colour read from an image is fully opaque, so it is never the placeholder. */
  lemma OpaqueIsNotPlaceholder(c: NRGBA)
    requires c.a == 255
    ensures c != PLACEHOLDER
  {
  }

  predicate IsLowerHexDigit(ch: char) {
    '0' <= ch <= '9' || 'a' <= ch <= 'f'
  }

  /** The lower-case hexadecimal digit for `d`. */
  function HexDigit(d: int): (ch: char)
    requires 0 <= d < 16
    ensures IsLowerHexDigit(ch)
  {
    if d < 10 then ('0' as int + d) as char else ('a' as int + (d - 10)) as char
  }

  /** The value of a lower-case hexadecimal digit; anything else is not a digit. */
  function DigitValue(ch: char): (v: Option<int>)
    ensures v.Some? <==> IsLowerHexDigit(ch)
    ensures v.Some? ==> 0 <= v.value < 16 && HexDigit(v.value) == ch
  {
    if '0' <= ch <= '9' then Some(ch as int - '0' as int)
    else if 'a' <= ch <= 'f' then Some(ch as int - 'a' as int + 10)
    else None
  }

  /** `%.2x` applied to a byte: two lower-case digits, zero-padded. */
  function Hex2(v: Byte): (s: string)
    ensures |s| == 2 && IsLowerHexDigit(s[0]) && IsLowerHexDigit(s[1])
  {
    [HexDigit(v / 16), HexDigit(v % 16)]
  }

  /** The byte that two hexadecimal digits denote, if both are digits. */
  function ParseHex2(hi: char, lo: char): (r: Option<Byte>)
    ensures r.Some? <==> IsLowerHexDigit(hi) && IsLowerHexDigit(lo)
  {
    match (DigitValue(hi), DigitValue(lo))
    case (Some(h), Some(l)) => Some(16 * h + l)
    case _ => None
  }

  lemma {:induction false} Hex2RoundTrip(v: Byte)
    ensures ParseHex2(Hex2(v)[0], Hex2(v)[1]) == Some(v)
  {
    var s := Hex2(v);
    assert DigitValue(s[0]) == Some(v / 16);
    assert DigitValue(s[1]) == Some(v % 16);
  }

  /** `hexify`: `#` followed by the red, green and blue channels as two hex digits each. */
  function Hexify(c: NRGBA): (s: string)
    ensures |s| == 7 && s[0] == '#'
    ensures forall i :: 1 <= i < 7 ==> IsLowerHexDigit(s[i])
  {
    "#" + Hex2(c.r) + Hex2(c.g) + Hex2(c.b)
  }

  /** Reads a `#rrggbb` string back into its red, green and blue channels. */
  function ParseHexify(s: string): (r: Option<(Byte, Byte, Byte)>)
    ensures r.Some? ==> |s| == 7 && s[0] == '#'
  {
    if |s| != 7 || s[0] != '#' then None
    else
      match (ParseHex2(s[1], s[2]), ParseHex2(s[3], s[4]), ParseHex2(s[5], s[6]))
      case (Some(r), Some(g), Some(b)) => Some((r, g, b))
      case _ => None
  }

  /** Each channel is rendered as exactly the two digits that denote it, in R, G, B order. */
  lemma {:induction false} HexifyDigits(c: NRGBA)
    ensures ParseHex2(Hexify(c)[1], Hexify(c)[2]) == Some(c.r)
    ensures ParseHex2(Hexify(c)[3], Hexify(c)[4]) == Some(c.g)
    ensures ParseHex2(Hexify(c)[5], Hexify(c)[6]) == Some(c.b)
  {
    var s := Hexify(c);
    assert s[1..3] == Hex2(c.r) && s[3..5] == Hex2(c.g) && s[5..7] == Hex2(c.b);
    Hex2RoundTrip(c.r);
    Hex2RoundTrip(c.g);
    Hex2RoundTrip(c.b);
  }

  /** Parsing the rendering recovers the colour's red, green and blue channels. */
  lemma {:induction false} HexifyRoundTrip(c: NRGBA)
    ensures ParseHexify(Hexify(c)) == Some((c.r, c.g, c.b))
  {
    HexifyDigits(c);
  }

  /** Two colours render alike exactly when their red, green and blue channels agree. */
  lemma {:induction false} HexifyInjective(c: NRGBA, d: NRGBA)
    ensures Hexify(c) == Hexify(d) <==> (c.r, c.g, c.b) == (d.r, d.g, d.b)
  {
    HexifyRoundTrip(c);
    HexifyRoundTrip(d);
  }

  /** Alpha plays no part: the placeholder renders like opaque black. */
  lemma HexifyIgnoresAlpha(c: NRGBA, alpha: Byte)
    ensures Hexify(c.(a := alpha)) == Hexify(c)
    ensures Hexify(PLACEHOLDER) == Hexify(NRGBA(0, 0, 0, 255)) == "#000000"
  {
  }

  lemma HexifyExamples()
    ensures Hexify(NRGBA(255, 0, 0, 255)) == "#ff0000"
    ensures Hexify(NRGBA(0, 0, 0, 255)) == "#000000"
    ensures Hexify(NRGBA(18, 171, 9, 7)) == "#12ab09"
  {
  }

  /** A rendering never contains the comma that separates output fields. */
  lemma HexifyHasNoComma(c: NRGBA)
    ensures ',' !in Hexify(c)
  {
    var s := Hexify(c);
    assert forall i :: 0 <= i < 7 ==> s[i] != ',';
  }
}
