/**
 * The handful of Python `str` operations the tools rely on: `strip()`,
 * `lower()`/`upper()`, `in` (substring), `join`, slicing with `[:n]`,
 * decimal and `02x`/`02X` formatting. Case mapping, `isalnum` and
 * whitespace are the ASCII subsets of Python's Unicode definitions.
 */
module Strings {

  /** Characters `str.strip()` removes (the ASCII part of Python's whitespace). */
  predicate IsWhitespace(c: char) {
    c == ' ' || c == '\t' || c == '\n' || c == '\r' || c == '\U{0B}' || c == '\U{0C}'
      || c == '\U{1C}' || c == '\U{1D}' || c == '\U{1E}' || c == '\U{1F}'
  }

  predicate IsAsciiLetter(c: char) {
    ('a' <= c <= 'z') || ('A' <= c <= 'Z')
  }

  predicate IsAsciiDigit(c: char) {
    '0' <= c <= '9'
  }

  /** `str.isalnum()` on one character. */
  predicate IsAlnum(c: char) {
    IsAsciiLetter(c) || IsAsciiDigit(c)
  }

  /** `str.lstrip()`: the suffix left after dropping leading whitespace. */
  function TrimStart(s: string): (r: string)
    ensures |r| <= |s| && r == s[|s| - |r|..]
    ensures r == [] || !IsWhitespace(r[0])
    ensures forall i :: 0 <= i < |s| - |r| ==> IsWhitespace(s[i])
  {
    if s != [] && IsWhitespace(s[0]) then TrimStart(s[1..]) else s
  }

  /** `str.rstrip()`: the prefix left after dropping trailing whitespace. */
  function TrimEnd(s: string): (r: string)
    ensures |r| <= |s| && r == s[..|r|]
    ensures r == [] || !IsWhitespace(r[|r| - 1])
    ensures forall i :: |r| <= i < |s| ==> IsWhitespace(s[i])
  {
    if s != [] && IsWhitespace(s[|s| - 1]) then TrimEnd(s[..|s| - 1]) else s
  }

  /** `r` occurs in `s` as a contiguous block. */
  ghost predicate IsInfix(r: string, s: string) {
    exists i :: 0 <= i <= |s| && r <= s[i..]
  }

  /** `str.strip()`. */
  function Strip(s: string): (r: string)
    ensures IsInfix(r, s)
    ensures r == [] || (!IsWhitespace(r[0]) && !IsWhitespace(r[|r| - 1]))
    ensures r == [] <==> forall i :: 0 <= i < |s| ==> IsWhitespace(s[i])
  {
    var t := TrimStart(s);
    var r := TrimEnd(t);
    assert r <= s[|s| - |t|..];
    r
  }

  function LowerChar(c: char): char {
    if 'A' <= c <= 'Z' then (c as int + 32) as char else c
  }

  function UpperChar(c: char): char {
    if 'a' <= c <= 'z' then (c as int - 32) as char else c
  }

  /** `str.lower()`. */
  function Lower(s: string): (r: string)
    ensures |r| == |s| && forall i :: 0 <= i < |s| ==> r[i] == LowerChar(s[i])
  {
    seq(|s|, i requires 0 <= i < |s| => LowerChar(s[i]))
  }

  /** `str.upper()`. */
  function Upper(s: string): (r: string)
    ensures |r| == |s| && forall i :: 0 <= i < |s| ==> r[i] == UpperChar(s[i])
  {
    seq(|s|, i requires 0 <= i < |s| => UpperChar(s[i]))
  }

  /** Python's `sub in s`. */
  predicate Contains(s: string, sub: string) {
    sub <= s || (s != [] && Contains(s[1..], sub))
  }

  /** `sep.join(parts)`. */
  function Join(parts: seq<string>, sep: string): string {
    if |parts| == 0 then ""
    else if |parts| == 1 then parts[0]
    else parts[0] + sep + Join(parts[1..], sep)
  }

  /** `s[:n]` for a non-negative `n`. */
  function Take(s: string, n: nat): (r: string)
    ensures r <= s && |r| == if |s| <= n then |s| else n
  {
    if |s| <= n then s else s[..n]
  }

  /** One digit of a number written in base 16. */
  function HexDigit(d: nat, upper: bool): (c: char)
    requires d < 16
  {
    if d < 10 then ('0' as int + d) as char
    else if upper then ('A' as int + d - 10) as char
    else ('a' as int + d - 10) as char
  }

  /** The base-16 digits of `n`, most significant first, no padding. */
  function NatToHex(n: nat, upper: bool): (r: string)
    ensures 1 <= |r|
    ensures n < 16 <==> |r| == 1
  {
    if n < 16 then [HexDigit(n, upper)] else NatToHex(n / 16, upper) + [HexDigit(n % 16, upper)]
  }

  /** Python's `f"{n:02x}"` (`upper == false`) or `f"{n:02X}"` (`upper == true`). */
  function Hex02(n: int, upper: bool): (r: string)
    ensures 2 <= |r|
  {
    if n < 0 then "-" + NatToHex(-n, upper)
    else
      var digits := NatToHex(n, upper);
      if |digits| < 2 then "0" + digits else digits
  }

  /** A byte prints as exactly its two base-16 digits. */
  lemma Hex02Byte(n: int, upper: bool)
    requires 0 <= n < 256
    ensures Hex02(n, upper) == [HexDigit(n / 16, upper), HexDigit(n % 16, upper)]
  {
    if n >= 16 {
      assert NatToHex(n / 16, upper) == [HexDigit(n / 16, upper)];
    }
  }

  function DecimalDigit(d: nat): char
    requires d < 10
  {
    ('0' as int + d) as char
  }

  /** `str(n)` for a natural number. */
  function NatToString(n: nat): (r: string)
    ensures 1 <= |r| && forall i :: 0 <= i < |r| ==> IsAsciiDigit(r[i])
  {
    if n < 10 then [DecimalDigit(n)] else NatToString(n / 10) + [DecimalDigit(n % 10)]
  }
}
