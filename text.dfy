/**
 * Character and string helpers standing in for the Python string methods the
 * screening code uses (`lower`, `upper`, `strip`, `in`, `startswith`,
 * `isdigit`).  Only the ASCII ranges are modelled.
 */
module Text {

  predicate IsDigit(c: char) { '0' <= c <= '9' }

  /** The ASCII characters Python's `str.isspace` and regex `\s` accept. */
  predicate IsSpace(c: char)
  {
    c == ' ' || c == '\t' || c == '\n' || c == '\r' || c == '\U{000B}' || c == '\U{000C}'
    || c == '\U{001C}' || c == '\U{001D}' || c == '\U{001E}' || c == '\U{001F}'
  }

  function LowerChar(c: char): char
  {
    if 'A' <= c <= 'Z' then (c as int + 32) as char else c
  }

  function UpperChar(c: char): char
  {
    if 'a' <= c <= 'z' then (c as int - 32) as char else c
  }

  function Lower(s: string): (r: string)
    ensures |r| == |s|
  {
    seq(|s|, i requires 0 <= i < |s| => LowerChar(s[i]))
  }

  function Upper(s: string): (r: string)
    ensures |r| == |s|
  {
    seq(|s|, i requires 0 <= i < |s| => UpperChar(s[i]))
  }

  function StripLeft(s: string): (r: string)
    ensures |r| <= |s|
  {
    if |s| > 0 && IsSpace(s[0]) then StripLeft(s[1..]) else s
  }

  function StripRight(s: string): (r: string)
    ensures |r| <= |s|
  {
    if |s| > 0 && IsSpace(s[|s| - 1]) then StripRight(s[..|s| - 1]) else s
  }

  /** Python `s.strip()`: whitespace removed from both ends. */
  function Strip(s: string): (r: string)
    ensures |r| <= |s|
  {
    StripRight(StripLeft(s))
  }

  /** Python `kw in text` for strings. */
  predicate Contains(text: string, kw: string)
  {
    StartsWith(text, kw) || (|text| > 0 && Contains(text[1..], kw))
  }

  predicate StartsWith(s: string, prefix: string)
  {
    |prefix| <= |s| && s[..|prefix|] == prefix
  }

  /** The digit characters of `s`, in order. */
  function KeepDigits(s: string): (r: string)
    ensures |r| <= |s|
    ensures forall c | c in r :: IsDigit(c)
  {
    if s == [] then []
    else (if IsDigit(s[0]) then [s[0]] else []) + KeepDigits(s[1..])
  }

  /** `s` with every digit character removed. */
  function DropDigits(s: string): (r: string)
    ensures |r| <= |s|
    ensures forall c | c in r :: !IsDigit(c)
  {
    if s == [] then []
    else (if IsDigit(s[0]) then [] else [s[0]]) + DropDigits(s[1..])
  }

  /** The value of a decimal digit string; the empty string reads as 0. */
  function DigitsValue(s: string): nat
    requires forall c | c in s :: IsDigit(c)
  {
    assert s != [] ==> s[|s| - 1] in s;
    if s == [] then 0 else DigitsValue(s[..|s| - 1]) * 10 + DigitValue(s[|s| - 1])
  }

  function DigitValue(c: char): nat
    requires IsDigit(c)
  {
    c as int - '0' as int
  }

  /** Python `" ".join(parts)`. */
  function JoinSpace(parts: seq<string>): string
  {
    if parts == [] then ""
    else if |parts| == 1 then parts[0]
    else parts[0] + " " + JoinSpace(parts[1..])
  }

  /** Python `s[:n]`, which caps at the length. */
  function Take(s: string, n: nat): (r: string)
    ensures |r| <= n && |r| <= |s|
  {
    if n <= |s| then s[..n] else s
  }

  /** Python `str(n)` for a natural number. */
  function NatToString(n: nat): (r: string)
    ensures |r| > 0 && forall c | c in r :: IsDigit(c)
  {
    if n < 10 then [DigitChar(n)] else NatToString(n / 10) + [DigitChar(n % 10)]
  }

  function DigitChar(d: nat): (c: char)
    requires d < 10
    ensures IsDigit(c)
  {
    ('0' as int + d) as char
  }
}
