/**
 * The two JavaScript string conversions the core relies on: the decimal
 * form of a non-negative integer (template literals such as `p${i}` and
 * `${z}/${x}/${y}`), and the UTF-16 code units that `charCodeAt` reads.
 */
module Text {

  /** A UTF-16 code unit, the 16-bit number `charCodeAt` returns. */
  type CodeUnit = bv16

  function DigitChar(d: nat): (c: char)
    requires d < 10
    ensures '0' <= c <= '9'
  {
    ['0', '1', '2', '3', '4', '5', '6', '7', '8', '9'][d]
  }

  /** The decimal digits of `n`, most significant first, without leading zeros. */
  function NatToString(n: nat): (s: string)
    ensures |s| >= 1
    ensures forall i :: 0 <= i < |s| ==> '0' <= s[i] <= '9'
  {
    if n < 10 then [DigitChar(n)] else NatToString(n / 10) + [DigitChar(n % 10)]
  }

  lemma DigitCharInjective(a: nat, b: nat)
    requires a < 10 && b < 10 && DigitChar(a) == DigitChar(b)
    ensures a == b
  {
  }

  /** Distinct numbers print differently, so a printed number can be read back. */
  lemma {:induction false} NatToStringInjective(a: nat, b: nat)
    requires NatToString(a) == NatToString(b)
    ensures a == b
  {
    var s := NatToString(a);
    if a < 10 && b < 10 {
      DigitCharInjective(a, b);
    } else if a >= 10 && b >= 10 {
      var sa, sb := NatToString(a / 10), NatToString(b / 10);
      assert s == sa + [DigitChar(a % 10)] && s == sb + [DigitChar(b % 10)];
      assert sa == s[..|s| - 1] == sb;
      DigitCharInjective(a % 10, b % 10);
      NatToStringInjective(a / 10, b / 10);
    }
  }

  /** The UTF-16 encoding of one character, as `charCodeAt` sees it. */
  function Utf16(c: char): (u: seq<CodeUnit>)
    ensures (c as int < 0x1_0000) <==> |u| == 1
    ensures c as int >= 0x1_0000 ==> |u| == 2
  {
    if c as int < 0x1_0000 then [c as int as CodeUnit]
    else
      // a surrogate pair: high ten bits, then low ten bits, of c - 0x10000
      var v := c as int - 0x1_0000;
      [(0xD800 + v / 0x400) as CodeUnit, (0xDC00 + v % 0x400) as CodeUnit]
  }

  /** The UTF-16 code units of a string, in order. */
  function CodeUnits(s: string): (u: seq<CodeUnit>)
    ensures |u| >= |s|
  {
    if s == [] then [] else CodeUnits(s[..|s| - 1]) + Utf16(s[|s| - 1])
  }

  /** For text with no character beyond U+FFFF, one code unit per character. */
  lemma {:induction false} CodeUnitsOfBasicText(s: string)
    requires forall i :: 0 <= i < |s| ==> s[i] as int < 0x1_0000
    ensures |CodeUnits(s)| == |s|
    ensures forall i :: 0 <= i < |s| ==> CodeUnits(s)[i] == s[i] as int as CodeUnit
  {
    if s != [] {
      CodeUnitsOfBasicText(s[..|s| - 1]);
    }
  }
}
