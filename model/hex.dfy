/**
 * Python's string helpers used by the colour parsers: `str.strip` and
 * `str.lstrip` of one character, slicing with clamped bounds, and
 * `int(s, 16)` on strings of hexadecimal digits.
 */
module Hex {
  import opened Errors

  predicate IsHexDigit(c: char) {
    '0' <= c <= '9' || 'a' <= c <= 'f' || 'A' <= c <= 'F'
  }

  predicate AllHex(s: string) {
    forall i :: 0 <= i < |s| ==> IsHexDigit(s[i])
  }

  function DigitValue(c: char): (v: nat)
    requires IsHexDigit(c)
    ensures v < 16
  {
    if '0' <= c <= '9' then (c as int - '0' as int)
    else if 'a' <= c <= 'f' then (c as int - 'a' as int) + 10
    else (c as int - 'A' as int) + 10
  }

  function Pow16(n: nat): (p: nat)
    ensures p >= 1
  {
    if n == 0 then 1 else 16 * Pow16(n - 1)
  }

  /** The number a string of hex digits denotes, most significant digit first. */
  function Value(s: string): nat
    requires AllHex(s)
  {
    if s == [] then 0 else Value(s[..|s| - 1]) * 16 + DigitValue(s[|s| - 1])
  }

  /** `k` hex digits denote a number below `16^k`. */
  lemma {:induction false} ValueBound(s: string)
    requires AllHex(s)
    ensures Value(s) < Pow16(|s|)
  {
    if s != [] {
      ValueBound(s[..|s| - 1]);
    }
  }

  /**
   * `int(s, 16)`, narrowed to plain hex digits: a non-empty string of them
   * parses to its value, below `16^|s|`, and every other string is a
   * ValueError here. Python also accepts surrounding whitespace, a sign, a
   * `0x` prefix and underscores between digits; see "Left out" in the README.
   */
  function ParseInt16(s: string): (r: Result<nat>)
    ensures r.Ok? <==> |s| > 0 && AllHex(s)
    ensures r.Ok? ==> r.value < Pow16(|s|)
    ensures r.Err? ==> r.error.ValueError?
  {
    if |s| == 0 || !AllHex(s) then
      Err(ValueError("invalid literal for int() with base 16: '" + s + "'"))
    else
      ValueBound(s);
      Ok(Value(s))
  }

  /** `s.lstrip(ch)`: the leading run of `ch` removed. */
  function LStrip(s: string, ch: char): (r: string)
    ensures |r| <= |s| && r == s[|s| - |r|..]
    ensures r == [] || r[0] != ch
    ensures forall i :: 0 <= i < |s| - |r| ==> s[i] == ch
  {
    if s != [] && s[0] == ch then LStrip(s[1..], ch) else s
  }

  /** `s.rstrip(ch)`: the trailing run of `ch` removed. */
  function RStrip(s: string, ch: char): (r: string)
    ensures |r| <= |s| && r == s[..|r|]
    ensures r == [] || r[|r| - 1] != ch
    ensures forall i :: |r| <= i < |s| ==> s[i] == ch
  {
    if s != [] && s[|s| - 1] == ch then RStrip(s[..|s| - 1], ch) else s
  }

  /** `s.strip(ch)`: both runs removed. */
  function Strip(s: string, ch: char): (r: string)
    ensures |r| <= |s|
    ensures r == [] || (r[0] != ch && r[|r| - 1] != ch)
  {
    RStrip(LStrip(s, ch), ch)
  }

  /** Python's `s[i:j]` for `0 <= i <= j`: bounds past the end are clamped. */
  function Slice(s: string, i: nat, j: nat): (r: string)
    requires i <= j
    ensures |r| == if i >= |s| then 0 else (if j <= |s| then j else |s|) - i
    ensures i < |s| ==> r == s[i..if j <= |s| then j else |s|]
  {
    if i >= |s| then "" else s[i..if j <= |s| then j else |s|]
  }

  /** Two hex digits denote at most 255. */
  lemma TwoDigitsAtMost255(s: string)
    requires |s| <= 2 && ParseInt16(s).Ok?
    ensures ParseInt16(s).value <= 255
  {
    assert Pow16(2) == 256;
    assert Pow16(|s|) <= 256 by {
      assert Pow16(0) == 1 && Pow16(1) == 16;
    }
  }
}
