/**
 * Colour arithmetic of the Brand.dev normaliser: the perceived brightness of a
 * hex colour string and the colour-role guess made from a name and a brightness.
 */
module Brightness {
  import opened Wrappers
  import opened Strings

  predicate IsHexDigit(c: char) {
    '0' <= c <= '9' || 'a' <= c <= 'f' || 'A' <= c <= 'F'
  }

  /** The value of one hexadecimal digit, as `int(c, 16)` reads it. */
  function HexValue(c: char): (v: nat)
    requires IsHexDigit(c)
    ensures v < 16
  {
    if '0' <= c <= '9' then c as int - '0' as int
    else if 'a' <= c <= 'f' then c as int - 'a' as int + 10
    else c as int - 'A' as int + 10
  }

  /** The lower-case digit for a value below 16. */
  function HexChar(d: nat): (c: char)
    requires d < 16
    ensures IsHexDigit(c) && HexValue(c) == d && c != '#'
  {
    if d < 10 then ('0' as int + d) as char else ('a' as int + d - 10) as char
  }

  /** `s.lstrip('#')`: every leading `#` removed. */
  function StripHashes(s: string): (r: string)
    ensures |r| <= |s| && r == s[|s| - |r|..]
    ensures forall j :: 0 <= j < |s| - |r| ==> s[j] == '#'
    ensures r == [] || r[0] != '#'
  {
    if s != [] && s[0] == '#' then StripHashes(s[1..]) else s
  }

  /**
   * What the source needs of a colour string: once the `#`s are stripped, at
   * least five characters, and hex digits in the first six. The slices
   * `[0:2]` and `[2:4]` then hold two digits each; `[4:6]` holds two, or one
   * when only five characters remain.
   */
  predicate WellFormedHex(s: string) {
    var h := StripHashes(s);
    |h| >= 5 && forall i :: 0 <= i < 6 && i < |h| ==> IsHexDigit(h[i])
  }

  /** `int(h[i:i+2], 16)`. */
  function ChannelAt(h: string, i: nat): (v: nat)
    requires i + 2 <= |h| && IsHexDigit(h[i]) && IsHexDigit(h[i + 1])
    ensures v < 256
  {
    HexValue(h[i]) * 16 + HexValue(h[i + 1])
  }

  /** `int(h[4:6], 16)`: the slice is cut short when `h` has only five characters. */
  function BlueChannel(h: string): (v: nat)
    requires |h| >= 5 && IsHexDigit(h[4]) && (|h| >= 6 ==> IsHexDigit(h[5]))
    ensures v < 256
    ensures |h| >= 6 ==> v == ChannelAt(h, 4)
    ensures |h| == 5 ==> v == HexValue(h[4])
  {
    if |h| >= 6 then ChannelAt(h, 4) else HexValue(h[4])
  }

  /**
   * `calculate_brightness`: the weighted sum 299 R + 587 G + 114 B divided by 1000,
   * truncated. Python divides in floating point and then truncates; the sum is an
   * integer below 255001, so the correctly rounded quotient never crosses an integer
   * and the result equals integer division.
   */
  function CalculateBrightness(hex: string): (b: int)
    requires WellFormedHex(hex)
    ensures 0 <= b <= 255
  {
    var h := StripHashes(hex);
    (ChannelAt(h, 0) * 299 + ChannelAt(h, 2) * 587 + BlueChannel(h) * 114) / 1000
  }

  /**
   * A five-digit string is read, not rejected: its last digit alone is the blue
   * channel, so "#fffff" has brightness (255 * 299 + 255 * 587 + 15 * 114) / 1000 = 227.
   */
  lemma FiveDigitsRead()
    ensures WellFormedHex("#fffff")
    ensures CalculateBrightness("#fffff") == 227
  {
    assert StripHashes("#fffff") == "fffff" by {
      assert "#fffff"[1..] == "fffff";
    }
  }

  /** A leading `#` (or none, or several) does not change the brightness. */
  lemma LeadingHashIgnored(hex: string)
    requires WellFormedHex(hex)
    ensures WellFormedHex("#" + hex)
    ensures CalculateBrightness("#" + hex) == CalculateBrightness(hex)
  {
    assert StripHashes("#" + hex) == StripHashes(hex) by {
      assert ("#" + hex)[1..] == hex;
    }
  }

  /** Two lower-case hex digits spelling a byte value. */
  function ByteHex(v: nat): (s: string)
    requires v < 256
    ensures |s| == 2 && IsHexDigit(s[0]) && IsHexDigit(s[1]) && ChannelAt(s, 0) == v
  {
    [HexChar(v / 16), HexChar(v % 16)]
  }

  /**
   * The weights sum to 1000, so a grey `#vvvvvv` has brightness exactly `v`:
   * black is 0 and white is 255.
   */
  lemma GreyBrightness(v: nat)
    requires v < 256
    ensures WellFormedHex("#" + ByteHex(v) + ByteHex(v) + ByteHex(v))
    ensures CalculateBrightness("#" + ByteHex(v) + ByteHex(v) + ByteHex(v)) == v
  {
    var x := ByteHex(v);
    var h := x + x + x;
    assert ("#" + x + x + x)[1..] == h;
    assert StripHashes("#" + x + x + x) == h;
    assert |h| == 6;
    assert h[0..2] == x && h[2..4] == x;
    assert h[4] == x[0] && h[5] == x[1];
    assert ChannelAt(h, 0) == v && ChannelAt(h, 2) == v && BlueChannel(h) == v;
    assert v * 299 + v * 587 + v * 114 == v * 1000;
  }

  /** `infer_color_type`: the role a colour gets from its name and brightness. */
  function InferColorType(name: Option<string>, brightness: int): (t: string)
    ensures t == "dark" || t == "light" || t == "brand" || t == "accent"
    ensures brightness < 50 ==> t == "dark"
    ensures brightness > 200 ==> t == "light"
    ensures t == "light" ==> brightness > 200
    ensures t == "brand" ==> 50 <= brightness <= 200
  {
    var lower := ToLower(name.GetOr(""));
    if brightness < 50 then "dark"
    else if brightness > 200 then "light"
    else if Contains(lower, "primary") || Contains(lower, "brand") then "brand"
    else if Contains(lower, "accent") || Contains(lower, "secondary") then "accent"
    else if brightness < 128 then "dark"
    else "accent"
  }

  /** The name says "primary" or "brand" (after ASCII lower-casing). */
  predicate NamesBrand(name: string) {
    Contains(ToLower(name), "primary") || Contains(ToLower(name), "brand")
  }

  /** The name says "accent" or "secondary" (after ASCII lower-casing). */
  predicate NamesAccent(name: string) {
    Contains(ToLower(name), "accent") || Contains(ToLower(name), "secondary")
  }

  /** The name decides only in the middle band; there, "primary"/"brand" beat "accent"/"secondary". */
  lemma InferColorTypeMidBand(name: string, brightness: int)
    requires 50 <= brightness <= 200
    ensures NamesBrand(name) ==> InferColorType(Some(name), brightness) == "brand"
    ensures !NamesBrand(name) && NamesAccent(name) ==> InferColorType(Some(name), brightness) == "accent"
    ensures !NamesBrand(name) && !NamesAccent(name) ==>
      InferColorType(Some(name), brightness) == (if brightness < 128 then "dark" else "accent")
  {
  }

  /** An absent name and an empty name are treated alike (`if color_name`). */
  lemma InferColorTypeNoName(brightness: int)
    ensures InferColorType(None, brightness) == InferColorType(Some(""), brightness)
    ensures 50 <= brightness <= 200 ==>
      InferColorType(None, brightness) == (if brightness < 128 then "dark" else "accent")
  {
  }
}
