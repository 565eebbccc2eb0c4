/**
 * Colours. The user interfaces deliver colours as `#RRGGBB` strings and
 * OpenCV draws with (blue, green, red) triples; `hex_to_bgr` converts the
 * first into the second.
 */
module Colour {

  /** An OpenCV colour: blue, green and red in that order. */
  datatype Bgr = Bgr(b: int, g: int, r: int)

  predicate InRange(c: Bgr) {
    0 <= c.b < 256 && 0 <= c.g < 256 && 0 <= c.r < 256
  }

  predicate IsHexDigit(c: char) {
    '0' <= c <= '9' || 'a' <= c <= 'f' || 'A' <= c <= 'F'
  }

  /** The digit's value as `int(_, 16)` reads it; letters in either case. */
  function HexDigitValue(c: char): (v: nat)
    requires IsHexDigit(c)
    ensures v < 16
  {
    if '0' <= c <= '9' then (c as int) - ('0' as int)
    else if 'a' <= c <= 'f' then (c as int) - ('a' as int) + 10
    else (c as int) - ('A' as int) + 10
  }

  /** The upper-case digit for a value below 16. */
  function HexDigitChar(v: nat): (c: char)
    requires v < 16
    ensures IsHexDigit(c) && HexDigitValue(c) == v
  {
    if v < 10 then ((v as int) + ('0' as int)) as char else ((v as int) - 10 + ('A' as int)) as char
  }

  /** The same digit, written in upper case. */
  function UpperHexDigit(c: char): (u: char)
    requires IsHexDigit(c)
    ensures IsHexDigit(u) && HexDigitValue(u) == HexDigitValue(c)
    ensures 'a' <= c <= 'f' ==> u != c
    ensures !('a' <= c <= 'f') ==> u == c
  {
    if 'a' <= c <= 'f' then ((c as int) - ('a' as int) + ('A' as int)) as char else c
  }

  /** Python's `s.lstrip('#')`: every leading `#` removed. */
  function StripHashes(s: string): (t: string)
    ensures |t| <= |s| && t == s[|s| - |t|..]
    ensures forall i :: 0 <= i < |s| - |t| ==> s[i] == '#'
    ensures t == [] || t[0] != '#'
  {
    if s != [] && s[0] == '#' then StripHashes(s[1..]) else s
  }

  /** After the leading `#`s, six hex digits: three two-digit pairs that `int(_, 16)` accepts. */
  predicate WellFormedHex(s: string) {
    var t := StripHashes(s);
    |t| >= 6 && forall i :: 0 <= i < 6 ==> IsHexDigit(t[i])
  }

  /** `int(p, 16)` for a two-digit pair. */
  function ParseHexPair(hi: char, lo: char): (v: nat)
    requires IsHexDigit(hi) && IsHexDigit(lo)
    ensures v < 256
    ensures v / 16 == HexDigitValue(hi) && v % 16 == HexDigitValue(lo)
  {
    16 * HexDigitValue(hi) + HexDigitValue(lo)
  }

  /**
   * `hex_to_bgr`: read the pairs in string order as red, green, blue and
   * hand them back reversed, as OpenCV wants them.
   */
  function HexToBgr(s: string): (c: Bgr)
    requires WellFormedHex(s)
    ensures InRange(c)
    ensures var t := StripHashes(s);
      && c.r == ParseHexPair(t[0], t[1])
      && c.g == ParseHexPair(t[2], t[3])
      && c.b == ParseHexPair(t[4], t[5])
  {
    var t := StripHashes(s);
    var rgb := (ParseHexPair(t[0], t[1]), ParseHexPair(t[2], t[3]), ParseHexPair(t[4], t[5]));
    Bgr(rgb.2, rgb.1, rgb.0)
  }

  /** Two upper-case hex digits for a channel value. */
  function HexPair(v: nat): (p: string)
    requires v < 256
    ensures |p| == 2 && IsHexDigit(p[0]) && IsHexDigit(p[1])
    ensures ParseHexPair(p[0], p[1]) == v
  {
    [HexDigitChar(v / 16), HexDigitChar(v % 16)]
  }

  /** The `#RRGGBB` string a colour picker shows for a colour, in upper case. */
  function FormatHex(c: Bgr): (s: string)
    requires InRange(c)
    ensures |s| == 7 && s[0] == '#'
  {
    "#" + HexPair(c.r) + HexPair(c.g) + HexPair(c.b)
  }

  /** The six digits of a well-formed colour string, in upper case, after one `#`. */
  function CanonicalHex(s: string): (u: string)
    requires WellFormedHex(s)
    ensures |u| == 7 && u[0] == '#'
  {
    var t := StripHashes(s);
    "#" + [UpperHexDigit(t[0]), UpperHexDigit(t[1]), UpperHexDigit(t[2]),
           UpperHexDigit(t[3]), UpperHexDigit(t[4]), UpperHexDigit(t[5])]
  }

  /** Every colour in range survives formatting and `hex_to_bgr` unchanged. */
  lemma FormatThenParse(c: Bgr)
    requires InRange(c)
    ensures WellFormedHex(FormatHex(c))
    ensures HexToBgr(FormatHex(c)) == c
  {
    var s := FormatHex(c);
    assert s[0] == '#' && s[1] != '#';
    assert StripHashes(s) == StripHashes(s[1..]) == s[1..];
  }

  lemma PairDigits(hi: char, lo: char)
    requires IsHexDigit(hi) && IsHexDigit(lo)
    ensures HexPair(ParseHexPair(hi, lo)) == [UpperHexDigit(hi), UpperHexDigit(lo)]
  {
    var v := ParseHexPair(hi, lo);
    assert HexDigitChar(v / 16) == UpperHexDigit(hi) by {
      assert HexDigitValue(hi) < 16;
    }
  }

  lemma FormatDigits(c: Bgr)
    requires InRange(c)
    ensures var r, g, b := HexPair(c.r), HexPair(c.g), HexPair(c.b);
      FormatHex(c) == ['#', r[0], r[1], g[0], g[1], b[0], b[1]]
  {
  }

  /** Parsing a colour and formatting it again gives its six digits in upper case. */
  lemma ParseThenFormat(s: string)
    requires WellFormedHex(s)
    ensures FormatHex(HexToBgr(s)) == CanonicalHex(s)
  {
    var t := StripHashes(s);
    var c := HexToBgr(s);
    PairDigits(t[0], t[1]);
    PairDigits(t[2], t[3]);
    PairDigits(t[4], t[5]);
    FormatDigits(c);
  }
}
