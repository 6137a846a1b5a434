/** Numbers written in hexadecimal digits, as escapes use them. */
module Hexadecimal {
  function HexValue(c: char): (v: int)
    ensures -1 <= v < 16
  {
    if '0' <= c <= '9' then c as int - '0' as int
    else if 'a' <= c <= 'f' then c as int - 'a' as int + 10
    else if 'A' <= c <= 'F' then c as int - 'A' as int + 10
    else -1
  }

  /** The number written by hexadecimal digits, or -1. */
  function HexNumber(s: string): (v: int)
    ensures v >= -1
  {
    if s == "" then 0
    else
      var init := HexNumber(s[..|s| - 1]);
      if init < 0 || HexValue(s[|s| - 1]) < 0 then -1 else init * 16 + HexValue(s[|s| - 1])
  }

  function HexDigit(n: nat): (c: char)
    requires n < 16
    ensures HexValue(c) == n && c != '"' && c != '\\'
  {
    if n < 10 then '0' + n as char else 'a' + (n - 10) as char
  }

  function Power16(width: nat): (p: nat)
    ensures p >= 1
  {
    if width == 0 then 1 else 16 * Power16(width - 1)
  }

  function Hex(n: nat, width: nat): (digits: string)
    ensures |digits| == width
  {
    if width == 0 then "" else Hex(n / 16, width - 1) + [HexDigit(n % 16)]
  }

  lemma {:induction false} HexReadBack(n: nat, width: nat)
    requires n < Power16(width)
    ensures HexNumber(Hex(n, width)) == n
  {
    if width > 0 {
      HexReadBack(n / 16, width - 1);
      assert Hex(n, width)[..width - 1] == Hex(n / 16, width - 1);
    }
  }

  lemma {:induction false} HexIsPlain(n: nat, width: nat)
    ensures forall k :: 0 <= k < width ==> Hex(n, width)[k] != '"' && Hex(n, width)[k] != '\\'
  {
    if width > 0 {
      HexIsPlain(n / 16, width - 1);
    }
  }

  lemma PowersOf16()
    ensures Power16(2) == 256 && Power16(4) == 0x10000 && Power16(8) == 0x1_0000_0000
  {
    assert Power16(1) == 16;
    assert Power16(3) == 16 * Power16(2);
    assert Power16(5) == 16 * Power16(4);
    assert Power16(6) == 16 * Power16(5);
    assert Power16(7) == 16 * Power16(6);
  }

  /** The numbers of Unicode scalar values. */
  predicate Scalar(v: int) { 0 <= v < 0xD800 || 0xE000 <= v < 0x110000 }
}
