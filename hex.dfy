/** Rendering a big integer in base 16 the way JavaScript's
    `BigInt.prototype.toString(16)` does (lower-case digits, no leading zeros,
    "0" for zero, a leading '-' for a negative value), and the `0x`-prefixed
    wire form `sendTx` builds from it. */
module Hex {

  predicate IsHexDigit(c: char)
  {
    ('0' <= c <= '9') || ('a' <= c <= 'f')
  }

  predicate AllHexDigits(s: string)
  {
    forall k :: 0 <= k < |s| ==> IsHexDigit(s[k])
  }

  function DigitChar(d: nat): (c: char)
    requires d < 16
    ensures IsHexDigit(c)
  {
    if d < 10 then ('0' as int + d) as char else ('a' as int + d - 10) as char
  }

  function DigitValue(c: char): (d: nat)
    requires IsHexDigit(c)
    ensures d < 16
  {
    if c <= '9' then c as int - '0' as int else c as int - 'a' as int + 10
  }

  /** The base-16 digits of `n`, most significant first: never empty, and
      starting with '0' only for zero itself. */
  function ToHex(n: nat): (s: string)
    ensures |s| >= 1 && AllHexDigits(s)
    ensures s[0] == '0' <==> n == 0
    ensures n == 0 ==> s == "0"
  {
    if n < 16 then [DigitChar(n)] else ToHex(n / 16) + [DigitChar(n % 16)]
  }

  /** The integer a string of hex digits denotes. */
  function ParseHex(s: string): nat
    requires AllHexDigits(s)
  {
    if s == [] then 0 else 16 * ParseHex(s[..|s| - 1]) + DigitValue(s[|s| - 1])
  }

  /** Reading the digits back gives the integer that was rendered. */
  lemma {:induction false} ParseToHex(n: nat)
    ensures ParseHex(ToHex(n)) == n
  {
    var s := ToHex(n);
    if n >= 16 {
      ParseToHex(n / 16);
      assert s[..|s| - 1] == ToHex(n / 16);
    }
  }

  /** Digits, optionally preceded by a minus sign. */
  predicate IsSignedHex(s: string)
  {
    if |s| > 0 && s[0] == '-' then AllHexDigits(s[1..]) else AllHexDigits(s)
  }

  function ParseSignedHex(s: string): int
    requires IsSignedHex(s)
  {
    if |s| > 0 && s[0] == '-' then -(ParseHex(s[1..]) as int) else ParseHex(s)
  }

  /** `n.toString(16)` for a BigInt `n`. */
  function ToSignedHex(n: int): (s: string)
    ensures IsSignedHex(s) && ParseSignedHex(s) == n
    ensures n >= 0 ==> s == ToHex(n)
    ensures n < 0 ==> s == "-" + ToHex(-n)
  {
    if n < 0 then
      ParseToHex(-n);
      var s := "-" + ToHex(-n);
      assert s[1..] == ToHex(-n);
      s
    else
      ParseToHex(n);
      ToHex(n)
  }

  /** `0x${n.toString(16)}`: "0x" followed by a rendering that reads back as
      `n`; for a non-negative `n` only digits follow the prefix. */
  function HexValue(n: int): (s: string)
    ensures |s| >= 3 && s[..2] == "0x"
    ensures IsSignedHex(s[2..]) && ParseSignedHex(s[2..]) == n
    ensures n >= 0 ==> AllHexDigits(s[2..]) && ParseHex(s[2..]) == n
  {
    var s := "0x" + ToSignedHex(n);
    assert s[2..] == ToSignedHex(n);
    s
  }

  /** Distinct amounts never share a wire form. */
  lemma HexValueInjective(m: int, n: int)
    requires HexValue(m) == HexValue(n)
    ensures m == n
  {
  }
}
