/**
 * Hex colour strings (`#RRGGBB`, `RRGGBB`, `#RGB`) and the Slides API's
 * RGB triples of channels in [0, 1].
 */
module Colors {
  import opened Wrappers
  import opened Strings

  /** An `rgbColor` object: three channels, each `value / 255` when parsed from hex. */
  datatype Rgb = Rgb(red: real, green: real, blue: real)

  /** The dictionary `rgb_to_hex` accepts: a missing key reads as 0. */
  datatype RgbInput = RgbInput(red: Option<real>, green: Option<real>, blue: Option<real>)

  datatype Channel = Red | Green | Blue

  datatype ColorError =
    | InvalidHex(body: string)                        // hex_to_rgb's ValueError
    | OutOfRange(channel: Channel, value: real)       // rgb_to_hex's ValueError

  /** The `solidFill` object of `rgba_to_solid_fill`. */
  datatype SolidFill = SolidFill(rgb: Rgb, alpha: real)

  predicate InUnitRange(x: real) { 0.0 <= x <= 1.0 }

  predicate IsHexDigit(c: char) {
    ('0' <= c <= '9') || ('a' <= c <= 'f') || ('A' <= c <= 'F')
  }

  predicate IsUpperHexDigit(c: char) {
    ('0' <= c <= '9') || ('A' <= c <= 'F')
  }

  function HexValue(c: char): (d: nat)
    requires IsHexDigit(c)
    ensures d < 16
  {
    if '0' <= c <= '9' then c as int - '0' as int
    else if 'a' <= c <= 'f' then c as int - 'a' as int + 10
    else c as int - 'A' as int + 10
  }

  /** `hex_color.lstrip("#")`: every leading `#` goes, not just one. */
  function StripHashes(s: string): (r: string)
    ensures r == [] || r[0] != '#'
    ensures |r| <= |s| && r == s[|s| - |r|..] && forall i :: 0 <= i < |s| - |r| ==> s[i] == '#'
  {
    if s != [] && s[0] == '#' then StripHashes(s[1..]) else s
  }

  /** The 3-digit shorthand doubles each character; any other length is left alone. */
  function ExpandShorthand(s: string): (r: string)
    ensures |s| == 3 ==> r == [s[0], s[0], s[1], s[1], s[2], s[2]]
    ensures |s| != 3 ==> r == s
  {
    if |s| == 3 then [s[0], s[0], s[1], s[1], s[2], s[2]] else s
  }

  /** The value of the two-digit group at `i`, as `int(s[i:i+2], 16)`. */
  function PairValue(s: string, i: nat): (v: nat)
    requires i + 2 <= |s| && IsHexDigit(s[i]) && IsHexDigit(s[i + 1])
    ensures v < 256
  {
    16 * HexValue(s[i]) + HexValue(s[i + 1])
  }

  /** The body after `#` stripping and shorthand expansion. */
  function HexBody(hex: string): string {
    ExpandShorthand(StripHashes(hex))
  }

  predicate IsValidBody(body: string) {
    |body| == 6 && forall i :: 0 <= i < 6 ==> IsHexDigit(body[i])
  }

  /** `hex_to_rgb`. */
  function HexToRgb(hex: string): (r: Result<Rgb, ColorError>)
    ensures r.Ok? <==> IsValidBody(HexBody(hex))
    ensures r.Ok? ==> InUnitRange(r.value.red) && InUnitRange(r.value.green) && InUnitRange(r.value.blue)
  {
    var body := HexBody(hex);
    if |body| != 6 then Err(InvalidHex(body))
    else if !(forall i :: 0 <= i < 6 ==> IsHexDigit(body[i])) then Err(InvalidHex(body))
    else Ok(Rgb(PairValue(body, 0) as real / 255.0,
                PairValue(body, 2) as real / 255.0,
                PairValue(body, 4) as real / 255.0))
  }

  /** Python's `round()`: to the nearest integer, ties to the even one. */
  function RoundHalfEven(x: real): (n: int)
    ensures -0.5 <= n as real - x <= 0.5
  {
    var f := x.Floor;
    var frac := x - f as real;
    if frac < 0.5 then f
    else if frac > 0.5 then f + 1
    else if f % 2 == 0 then f
    else f + 1
  }

  /** `rgb_to_hex`: range check, then `int(round(c * 255))` in two upper-case hex digits. */
  function RgbToHex(rgb: RgbInput): (r: Result<string, ColorError>)
    ensures r.Ok? <==>
      InUnitRange(rgb.red.GetOr(0.0)) && InUnitRange(rgb.green.GetOr(0.0)) && InUnitRange(rgb.blue.GetOr(0.0))
    ensures r.Ok? ==>
      (|r.value| == 7 && r.value[0] == '#' && forall i :: 1 <= i < 7 ==> IsUpperHexDigit(r.value[i]))
  {
    var red, green, blue := rgb.red.GetOr(0.0), rgb.green.GetOr(0.0), rgb.blue.GetOr(0.0);
    if !InUnitRange(red) then Err(OutOfRange(Red, red))
    else if !InUnitRange(green) then Err(OutOfRange(Green, green))
    else if !InUnitRange(blue) then Err(OutOfRange(Blue, blue))
    else
      Ok("#" + HexTriple(ByteOf(red), ByteOf(green), ByteOf(blue)))
  }

  /** Three bytes as three pairs of upper-case hex digits, each formatted `02X`. */
  function HexTriple(r8: int, g8: int, b8: int): (s: string)
    requires 0 <= r8 < 256 && 0 <= g8 < 256 && 0 <= b8 < 256
    ensures |s| == 6 && forall i :: 0 <= i < 6 ==> IsUpperHexDigit(s[i])
  {
    Hex02Byte(r8, true);
    Hex02Byte(g8, true);
    Hex02Byte(b8, true);
    Hex02(r8, true) + Hex02(g8, true) + Hex02(b8, true)
  }

  /** `int(round(c * 255))` for a channel in range. */
  function ByteOf(c: real): (n: int)
    requires InUnitRange(c)
    ensures 0 <= n < 256
    ensures -0.5 <= n as real - c * 255.0 <= 0.5
  {
    RoundHalfEven(c * 255.0)
  }

  /** `rgba_to_solid_fill`: nothing but `hex_to_rgb` and the given alpha. */
  function RgbaToSolidFill(hex: string, alpha: real): (r: Result<SolidFill, ColorError>)
    ensures r.Err? <==> HexToRgb(hex).Err?
    ensures r.Ok? ==> r.value == SolidFill(HexToRgb(hex).value, alpha)
  {
    var rgb :- HexToRgb(hex);
    Ok(SolidFill(rgb, alpha))
  }

  function AsInput(rgb: Rgb): RgbInput {
    RgbInput(Some(rgb.red), Some(rgb.green), Some(rgb.blue))
  }

  lemma UpperDigitRoundTrip(c: char)
    requires IsUpperHexDigit(c)
    ensures HexDigit(HexValue(c), true) == c
  {
  }

  lemma DigitValueRoundTrip(d: nat, upper: bool)
    requires d < 16
    ensures IsHexDigit(HexDigit(d, upper)) && HexValue(HexDigit(d, upper)) == d
  {
  }

  /** The channels parsed from a valid six-digit body. */
  function BodyRgb(body: string): Rgb
    requires IsValidBody(body)
  {
    Rgb(PairValue(body, 0) as real / 255.0, PairValue(body, 2) as real / 255.0, PairValue(body, 4) as real / 255.0)
  }

  /** One leading `#` in front of a valid body changes nothing; the body alone is parsed. */
  lemma {:induction false} ParseBody(body: string)
    requires IsValidBody(body)
    ensures HexToRgb(body) == Ok(BodyRgb(body))
    ensures HexToRgb("#" + body) == Ok(BodyRgb(body))
  {
    assert body[0] != '#';
    assert StripHashes(body) == body;
    assert ("#" + body)[1..] == body;
    assert StripHashes("#" + body) == body;
  }

  /** The byte a parsed channel came from is recovered exactly. */
  lemma ByteOfParsed(v: nat)
    requires v < 256
    ensures ByteOf(v as real / 255.0) == v
  {
    assert v as real / 255.0 * 255.0 == v as real;
  }

  /** Two upper-case digits print back as themselves. */
  lemma {:induction false} PairPrintsBack(body: string, i: nat)
    requires i + 2 <= |body| && IsUpperHexDigit(body[i]) && IsUpperHexDigit(body[i + 1])
    ensures Hex02(PairValue(body, i), true) == body[i..i + 2]
  {
    var v := PairValue(body, i);
    Hex02Byte(v, true);
    assert v / 16 == HexValue(body[i]) && v % 16 == HexValue(body[i + 1]);
    UpperDigitRoundTrip(body[i]);
    UpperDigitRoundTrip(body[i + 1]);
  }

  /** Channels that are whole bytes over 255 print as those bytes. */
  lemma PrintBytes(r8: nat, g8: nat, b8: nat)
    requires r8 < 256 && g8 < 256 && b8 < 256
    ensures RgbToHex(RgbInput(Some(r8 as real / 255.0), Some(g8 as real / 255.0), Some(b8 as real / 255.0)))
      == Ok("#" + HexTriple(r8, g8, b8))
  {
    ByteOfParsed(r8);
    ByteOfParsed(g8);
    ByteOfParsed(b8);
  }

  /** Round trip: an upper-case `#RRGGBB` string survives `rgb_to_hex(hex_to_rgb(h))`. */
  lemma {:induction false} HexRoundTrip(digits: string)
    requires |digits| == 6 && forall i :: 0 <= i < 6 ==> IsUpperHexDigit(digits[i])
    ensures HexToRgb("#" + digits).Ok?
    ensures RgbToHex(AsInput(HexToRgb("#" + digits).value)) == Ok("#" + digits)
  {
    ParseBody(digits);
    BodyPrintsBack(digits);
  }

  /** The channels of an upper-case body print back as that body. */
  lemma {:induction false} BodyPrintsBack(digits: string)
    requires |digits| == 6 && forall i :: 0 <= i < 6 ==> IsUpperHexDigit(digits[i])
    ensures IsValidBody(digits) && RgbToHex(AsInput(BodyRgb(digits))) == Ok("#" + digits)
  {
    var r8, g8, b8 := PairValue(digits, 0), PairValue(digits, 2), PairValue(digits, 4);
    assert IsValidBody(digits);
    var input := RgbInput(Some(r8 as real / 255.0), Some(g8 as real / 255.0), Some(b8 as real / 255.0));
    assert AsInput(BodyRgb(digits)) == input;
    PrintBytes(r8, g8, b8);
    TripleOfBody(digits);
    assert "#" + HexTriple(r8, g8, b8) == "#" + digits;
  }

  /** The three groups of an upper-case body print back as the body. */
  lemma {:induction false} TripleOfBody(digits: string)
    requires |digits| == 6 && forall i :: 0 <= i < 6 ==> IsUpperHexDigit(digits[i])
    requires IsValidBody(digits)
    ensures HexTriple(PairValue(digits, 0), PairValue(digits, 2), PairValue(digits, 4)) == digits
  {
    PairPrintsBack(digits, 0);
    PairPrintsBack(digits, 2);
    PairPrintsBack(digits, 4);
    assert digits[0..2] + digits[2..4] + digits[4..6] == digits;
  }

  /** A printed byte triple parses back to the same bytes over 255. */
  lemma {:induction false} ParsePrinted(r8: int, g8: int, b8: int)
    requires 0 <= r8 < 256 && 0 <= g8 < 256 && 0 <= b8 < 256
    ensures HexToRgb("#" + HexTriple(r8, g8, b8)) == Ok(Rgb(r8 as real / 255.0, g8 as real / 255.0, b8 as real / 255.0))
  {
    var body := HexTriple(r8, g8, b8);
    assert BodyRgb(body) == Rgb(r8 as real / 255.0, g8 as real / 255.0, b8 as real / 255.0) by {
      PrintedPairs(r8, g8, b8);
    }
    ParseBody(body);
  }

  /** Each two-digit group of a printed triple reads back as its byte. */
  lemma PrintedPairs(r8: int, g8: int, b8: int)
    requires 0 <= r8 < 256 && 0 <= g8 < 256 && 0 <= b8 < 256
    ensures var body := HexTriple(r8, g8, b8);
      PairValue(body, 0) == r8 && PairValue(body, 2) == g8 && PairValue(body, 4) == b8
  {
    Hex02Byte(r8, true);
    Hex02Byte(g8, true);
    Hex02Byte(b8, true);
    DigitValueRoundTrip(r8 / 16, true);
    DigitValueRoundTrip(r8 % 16, true);
    DigitValueRoundTrip(g8 / 16, true);
    DigitValueRoundTrip(g8 % 16, true);
    DigitValueRoundTrip(b8 / 16, true);
    DigitValueRoundTrip(b8 % 16, true);
  }

  /**
   * The other direction: printing a valid triple and parsing it back moves
   * each channel by at most half a step of 1/255.
   */
  lemma {:induction false} RgbRoundTrip(rgb: Rgb)
    requires InUnitRange(rgb.red) && InUnitRange(rgb.green) && InUnitRange(rgb.blue)
    ensures RgbToHex(AsInput(rgb)).Ok?
    ensures HexToRgb(RgbToHex(AsInput(rgb)).value).Ok?
    ensures var back := HexToRgb(RgbToHex(AsInput(rgb)).value).value;
      -1.0 / 510.0 <= back.red - rgb.red <= 1.0 / 510.0
      && -1.0 / 510.0 <= back.green - rgb.green <= 1.0 / 510.0
      && -1.0 / 510.0 <= back.blue - rgb.blue <= 1.0 / 510.0
  {
    var r8, g8, b8 := ByteOf(rgb.red), ByteOf(rgb.green), ByteOf(rgb.blue);
    ParsePrinted(r8, g8, b8);
    ChannelWithinHalfStep(rgb.red);
    ChannelWithinHalfStep(rgb.green);
    ChannelWithinHalfStep(rgb.blue);
  }

  lemma ChannelWithinHalfStep(c: real)
    requires InUnitRange(c)
    ensures -1.0 / 510.0 <= ByteOf(c) as real / 255.0 - c <= 1.0 / 510.0
  {
    var n := ByteOf(c) as real;
    assert n / 255.0 - c == (n - c * 255.0) / 255.0;
  }

  /** Leading `#`s never change the result. */
  lemma HashIsOptional(s: string)
    ensures HexToRgb("#" + s) == HexToRgb(s)
  {
    assert ("#" + s)[1..] == s;
  }

  /** A 3-digit body parses like its doubled 6-digit form. */
  lemma ShorthandExpands(s: string)
    requires |s| == 3 && s[0] != '#'
    ensures HexToRgb(s) == HexToRgb([s[0], s[0], s[1], s[1], s[2], s[2]])
  {
    var six := [s[0], s[0], s[1], s[1], s[2], s[2]];
    assert StripHashes(s) == s;
    assert StripHashes(six) == six;
    assert HexBody(s) == HexBody(six);
  }

  /** The digits of pure red. */
  lemma RedBody()
    ensures IsValidBody("FF0000") && BodyRgb("FF0000") == Rgb(1.0, 0.0, 0.0)
  {
    var red := "FF0000";
    assert HexValue(red[0]) == 15 && HexValue(red[1]) == 15;
    assert HexValue(red[2]) == 0 && HexValue(red[3]) == 0 && HexValue(red[4]) == 0 && HexValue(red[5]) == 0;
  }

  /** The parsing examples of the colour tests: pure red with and without `#`. */
  lemma ParseExamples()
    ensures HexToRgb("FF0000") == Ok(Rgb(1.0, 0.0, 0.0))
    ensures HexToRgb("#FF0000") == Ok(Rgb(1.0, 0.0, 0.0))
  {
    RedBody();
    assert "#" + "FF0000" == "#FF0000";
    ParseBody("FF0000");
  }

  /** The shorthand `#F00` is pure red too. */
  lemma ShorthandExample()
    ensures HexToRgb("#F00") == Ok(Rgb(1.0, 0.0, 0.0))
  {
    assert HexBody("#F00") == HexBody("FF0000") by {
      assert "#F00"[1..] == "F00";
      assert StripHashes("F00") == "F00";
      assert StripHashes("FF0000") == "FF0000";
      assert ['F', 'F', '0', '0', '0', '0'] == "FF0000";
    }
    ParseExamples();
  }

  /** The rejected inputs of the colour tests. */
  lemma RejectExamples()
    ensures HexToRgb("invalid").Err? && HexToRgb("#GG0000").Err? && HexToRgb("ZZZZZZ").Err?
  {
    RejectWrongLength("invalid");
    assert "#GG0000" == "#" + "GG0000";
    HashIsOptional("GG0000");
    RejectBadFirstDigit("GG0000");
    RejectBadFirstDigit("ZZZZZZ");
  }

  /** A body with no leading `#` whose length is neither 3 nor 6 is refused. */
  lemma RejectWrongLength(s: string)
    requires (s == [] || s[0] != '#') && |s| != 3 && |s| != 6
    ensures HexToRgb(s).Err?
  {
    assert HexBody(s) == s;
  }

  /** A six-character body with no leading `#` is refused when its first character is no hex digit. */
  lemma RejectBadFirstDigit(s: string)
    requires |s| == 6 && s[0] != '#' && !IsHexDigit(s[0])
    ensures HexToRgb(s).Err?
  {
    assert HexBody(s) == s;
  }

  /** Channels outside [0, 1] are refused. */
  lemma RangeExamples()
    ensures RgbToHex(RgbInput(Some(1.5), Some(0.0), Some(0.0))) == Err(OutOfRange(Red, 1.5))
    ensures RgbToHex(RgbInput(Some(-0.1), Some(0.0), Some(0.0))) == Err(OutOfRange(Red, -0.1))
    ensures RgbToHex(RgbInput(Some(0.0), None, Some(2.0))) == Err(OutOfRange(Blue, 2.0))
  {
  }

  /** A missing channel reads as 0. */
  lemma FormatExample()
    ensures RgbToHex(RgbInput(Some(1.0), None, None)) == Ok("#FF0000")
  {
    assert ByteOf(1.0) == 255 && ByteOf(0.0) == 0;
    assert HexTriple(255, 0, 0) == "FF0000" by {
      Hex02Byte(255, true);
      Hex02Byte(0, true);
      assert Hex02(255, true) == "FF" && Hex02(0, true) == "00";
    }
    assert "#" + "FF0000" == "#FF0000";
  }
}
