/** UTF-8 as section 3 of RFC 3629 defines it. */
module Utf8 {
  import opened Octets
  import opened Wrappers

  type CodePoint = x: int | 0 <= x <= 0x10FFFF
  type Scalar = x: int | 0 <= x < 0xD800 || 0xE000 <= x <= 0x10FFFF

  function EncodeScalar(c: Scalar): (b: Bytes)
    ensures 1 <= |b| <= 4
  {
    if c < 0x80 then [c]
    else if c < 0x800 then [0xC0 + c / 0x40, 0x80 + c % 0x40]
    else if c < 0x1_0000 then [0xE0 + c / 0x1000, 0x80 + c / 0x40 % 0x40, 0x80 + c % 0x40]
    else [0xF0 + c / 0x4_0000, 0x80 + c / 0x1000 % 0x40, 0x80 + c / 0x40 % 0x40, 0x80 + c % 0x40]
  }

  function Encode(s: seq<Scalar>): Bytes {
    if s == [] then [] else EncodeScalar(s[0]) + Encode(s[1..])
  }

  predicate IsTail(o: Octet) {
    0x80 <= o <= 0xBF
  }

  /** The value of a lead and its tails, each stripped of its marker bits. */
  function Value2(lead: int, t1: int): int { lead * 0x40 + t1 }
  function Value3(lead: int, t1: int, t2: int): int { lead * 0x1000 + t1 * 0x40 + t2 }
  function Value4(lead: int, t1: int, t2: int, t3: int): int { lead * 0x4_0000 + t1 * 0x1000 + t2 * 0x40 + t3 }

  /** The first scalar of b and how many octets it takes, if b starts with a well-formed sequence. */
  function DecodeFirst(b: Bytes): (r: Option<(Scalar, nat)>)
    requires b != []
    ensures r.Some? ==> 1 <= r.value.1 <= |b|
  {
    var b0 := b[0];
    if b0 < 0x80 then Some((b0, 1))
    else if 0xC2 <= b0 <= 0xDF && |b| >= 2 && IsTail(b[1]) then
      Some((Value2(b0 - 0xC0, b[1] - 0x80), 2))
    else if 0xE0 <= b0 <= 0xEF && |b| >= 3 && IsTail(b[1]) && IsTail(b[2])
            && (b0 == 0xE0 ==> b[1] >= 0xA0) && (b0 == 0xED ==> b[1] <= 0x9F) then
      Some((Value3(b0 - 0xE0, b[1] - 0x80, b[2] - 0x80), 3))
    else if 0xF0 <= b0 <= 0xF4 && |b| >= 4 && IsTail(b[1]) && IsTail(b[2]) && IsTail(b[3])
            && (b0 == 0xF0 ==> b[1] >= 0x90) && (b0 == 0xF4 ==> b[1] <= 0x8F) then
      Some((Value4(b0 - 0xF0, b[1] - 0x80, b[2] - 0x80, b[3] - 0x80), 4))
    else None
  }

  function Decode(b: Bytes): Option<seq<Scalar>> {
    if b == [] then Some([]) else
      match DecodeFirst(b)
      case None => None
      case Some(first) =>
        match Decode(b[first.1..])
        case None => None
        case Some(rest) => Some([first.0] + rest)
  }

  predicate ValidUtf8(b: Bytes) {
    Decode(b).Some?
  }

  lemma Split(c: int)
    requires 0 <= c
    ensures c == Value2(c / 0x40, c % 0x40)
    ensures c == Value3(c / 0x1000, c / 0x40 % 0x40, c % 0x40)
    ensures c == Value4(c / 0x4_0000, c / 0x1000 % 0x40, c / 0x40 % 0x40, c % 0x40)
  {
    assert c / 0x40 / 0x40 == c / 0x1000;
    assert c / 0x1000 / 0x40 == c / 0x4_0000;
  }

  lemma Join2(x: int, y: int)
    requires 0 <= y < 0x40
    ensures Value2(x, y) / 0x40 == x && Value2(x, y) % 0x40 == y
  {
  }

  lemma Join(lead: int, t1: int, t2: int, t3: int)
    requires 0 <= lead && 0 <= t1 < 0x40 && 0 <= t2 < 0x40 && 0 <= t3 < 0x40
    ensures var c := Value4(lead, t1, t2, t3);
      c / 0x4_0000 == lead && c / 0x1000 % 0x40 == t1 && c / 0x40 % 0x40 == t2 && c % 0x40 == t3
      && c / 0x1000 == lead * 0x40 + t1
  {
    var c := Value4(lead, t1, t2, t3);
    var c1 := Value2(Value2(lead, t1), t2);
    assert c == Value2(c1, t3);
    Join2(c1, t3);
    Join2(Value2(lead, t1), t2);
    Join2(lead, t1);
    assert c / 0x40 / 0x40 == c / 0x1000;
    assert c / 0x1000 / 0x40 == c / 0x4_0000;
  }

  lemma DecodeFirstInvertsEncode(c: Scalar, rest: Bytes)
    ensures DecodeFirst(EncodeScalar(c) + rest) == Some((c, |EncodeScalar(c)|))
  {
    var e := EncodeScalar(c);
    var b := e + rest;
    assert |b| >= |e| && forall k :: 0 <= k < |e| ==> b[k] == e[k];
    Split(c);
  }

  lemma EncodeInvertsDecodeFirst(b: Bytes)
    requires b != [] && DecodeFirst(b).Some?
    ensures EncodeScalar(DecodeFirst(b).value.0) == b[..DecodeFirst(b).value.1]
  {
    var n := DecodeFirst(b).value.1;
    if n == 2 {
      EncodeInverts2(b);
    } else if n == 3 {
      EncodeInverts3(b);
    } else if n == 4 {
      EncodeInverts4(b);
    }
  }

  lemma EncodeInverts2(b: Bytes)
    requires b != [] && DecodeFirst(b).Some? && DecodeFirst(b).value.1 == 2
    ensures EncodeScalar(DecodeFirst(b).value.0) == b[..2]
  {
    Join2(b[0] - 0xC0, b[1] - 0x80);
  }

  lemma EncodeInverts3(b: Bytes)
    requires b != [] && DecodeFirst(b).Some? && DecodeFirst(b).value.1 == 3
    ensures EncodeScalar(DecodeFirst(b).value.0) == b[..3]
  {
    Join(0, b[0] - 0xE0, b[1] - 0x80, b[2] - 0x80);
  }

  lemma EncodeInverts4(b: Bytes)
    requires b != [] && DecodeFirst(b).Some? && DecodeFirst(b).value.1 == 4
    ensures EncodeScalar(DecodeFirst(b).value.0) == b[..4]
  {
    Join(b[0] - 0xF0, b[1] - 0x80, b[2] - 0x80, b[3] - 0x80);
  }

  /** Decoding is exactly the inverse of encoding. */
  lemma {:induction false} DecodeIsInverse(b: Bytes, s: seq<Scalar>)
    ensures Decode(b) == Some(s) <==> b == Encode(s)
    decreases |b|, 1
  {
    if b == Encode(s) {
      DecodeEncode(s);
    }
    if Decode(b) == Some(s) {
      EncodeDecode(b);
    }
  }

  lemma {:induction false} DecodeEncode(s: seq<Scalar>)
    ensures Decode(Encode(s)) == Some(s)
  {
    if s != [] {
      var rest := Encode(s[1..]);
      DecodeFirstInvertsEncode(s[0], rest);
      DecodeEncode(s[1..]);
      assert Encode(s)[|EncodeScalar(s[0])|..] == rest;
      assert [s[0]] + s[1..] == s;
    }
  }

  lemma {:induction false} EncodeDecode(b: Bytes)
    requires Decode(b).Some?
    ensures Encode(Decode(b).value) == b
    decreases |b|
  {
    if b != [] {
      var c, n, rest := DecodeStep(b);
      EncodeDecode(b[n..]);
      EncodeCons(c, rest);
      assert b == b[..n] + b[n..];
    }
  }

  lemma DecodeStep(b: Bytes) returns (c: Scalar, n: nat, rest: seq<Scalar>)
    requires b != [] && Decode(b).Some?
    ensures 1 <= n <= |b| && EncodeScalar(c) == b[..n]
    ensures Decode(b[n..]) == Some(rest) && Decode(b) == Some([c] + rest)
  {
    EncodeInvertsDecodeFirst(b);
    c, n := DecodeFirst(b).value.0, DecodeFirst(b).value.1;
    rest := Decode(b[n..]).value;
  }

  lemma EncodeCons(c: Scalar, s: seq<Scalar>)
    ensures Encode([c] + s) == EncodeScalar(c) + Encode(s)
  {
    assert ([c] + s)[1..] == s;
  }
}
