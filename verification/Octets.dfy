/** Octet strings and their lowercase hexadecimal spelling. */
module Octets {

  /** The copy loop counts octets in an int64 and reads at most a buffer of them at a time. */
  const MAX_INT64 := 0x7FFF_FFFF_FFFF_FFFF
  const BUFFER := 32 * 1024

  type Octet = x: int | 0 <= x < 256
  type Bytes = seq<Octet>

  const HEX: string := "0123456789abcdef"

  function HexDigit(n: int): char
    requires 0 <= n < 16
  {
    HEX[n]
  }

  predicate IsLowerHex(c: char) {
    '0' <= c <= '9' || 'a' <= c <= 'f'
  }

  function HexValue(c: char): (n: int)
    requires IsLowerHex(c)
    ensures 0 <= n < 16 && HexDigit(n) == c
  {
    if c <= '9' then c as int - '0' as int else c as int - 'a' as int + 10
  }

  lemma HexDigitIsLowerHex(n: int)
    requires 0 <= n < 16
    ensures IsLowerHex(HexDigit(n)) && HexValue(HexDigit(n)) == n
  {
  }

  function Hex(b: Bytes): string {
    if b == [] then "" else [HexDigit(b[0] / 16), HexDigit(b[0] % 16)] + Hex(b[1..])
  }

  lemma {:induction false} HexShape(b: Bytes)
    ensures |Hex(b)| == 2 * |b|
    ensures forall k :: 0 <= k < |Hex(b)| ==> IsLowerHex(Hex(b)[k])
  {
    if b != [] {
      HexShape(b[1..]);
      HexDigitIsLowerHex(b[0] / 16);
      HexDigitIsLowerHex(b[0] % 16);
    }
  }

  lemma {:induction false} HexInjective(a: Bytes, b: Bytes)
    requires Hex(a) == Hex(b)
    ensures a == b
  {
    HexShape(a);
    HexShape(b);
    if a != [] {
      assert Hex(a)[0] == Hex(b)[0] && Hex(a)[1] == Hex(b)[1];
      HexDigitIsLowerHex(a[0] / 16);
      HexDigitIsLowerHex(b[0] / 16);
      HexDigitIsLowerHex(a[0] % 16);
      HexDigitIsLowerHex(b[0] % 16);
      assert a[0] == b[0];
      assert Hex(a)[2..] == Hex(a[1..]) && Hex(b)[2..] == Hex(b[1..]);
      HexInjective(a[1..], b[1..]);
    }
  }
}
