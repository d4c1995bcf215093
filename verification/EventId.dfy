/** The recogniser of event ids against RFC 9562: version 7 (section 5.7), variant 10 (section 4.1). */
module EventId {
  import opened Octets

  // ---- the recogniser ----

  predicate IsHex(c: char) {
    '0' <= c <= '9' || 'a' <= c <= 'f' || 'A' <= c <= 'F'
  }

  predicate IsHyphenAt(k: int) {
    k == 8 || k == 13 || k == 18 || k == 23
  }

  predicate CharacterFits(id: string, k: int)
    requires 0 <= k < |id|
  {
    if IsHyphenAt(k) then id[k] == '-' else IsHex(id[k])
  }

  predicate HexText(id: string) {
    |id| == 36 && forall k :: 0 <= k < 36 ==> CharacterFits(id, k)
  }

  ghost predicate Shaped(id: string) {
    && HexText(id)
    && id[14] == '7'
    && id[19] in "89aAbB"
  }

  method ValidID(id: string) returns (ok: bool)
    ensures ok <==> exists v :: IsUuidV7(v) && Lower(id) == Format(v)
    ensures ok ==> |id| == 36 && id[8] == id[13] == id[18] == id[23] == '-' && id[14] == '7' && id[19] in "89aAbB"
  {
    ValidIffUuidV7(id);
    if |id| != 36 {
      return false;
    }
    for k := 0 to |id|
      invariant forall j :: 0 <= j < k ==> CharacterFits(id, j)
    {
      if k == 8 || k == 13 || k == 18 || k == 23 {
        if id[k] != '-' {
          assert !CharacterFits(id, k);
          return false;
        }
      } else if !IsHex(id[k]) {
        assert !CharacterFits(id, k);
        return false;
      }
    }
    assert CharacterFits(id, 8) && CharacterFits(id, 13) && CharacterFits(id, 18) && CharacterFits(id, 23);
    if id[14] != '7' {
      return false;
    }
    match id[19]
    case '8' => return true;
    case '9' => return true;
    case 'a' => return true;
    case 'A' => return true;
    case 'b' => return true;
    case 'B' => return true;
    case _ => return false;
  }

  // ---- RFC 9562 ----

  /** Sixteen octets whose version nibble is 7 and whose variant bits are 10. */
  predicate IsUuidV7(v: Bytes) {
    |v| == 16 && v[6] / 16 == 7 && v[8] / 64 == 2
  }

  /** The 8-4-4-4-12 text of section 4. */
  function Format(v: Bytes): string
    requires |v| == 16
  {
    Hex(v[..4]) + "-" + TextFrom4(v)
  }

  function TextFrom4(v: Bytes): string
    requires |v| == 16
  {
    Hex(v[4..6]) + "-" + TextFrom6(v)
  }

  function TextFrom6(v: Bytes): string
    requires |v| == 16
  {
    Hex(v[6..8]) + "-" + TextFrom8(v)
  }

  function TextFrom8(v: Bytes): string
    requires |v| == 16
  {
    Hex(v[8..10]) + "-" + Hex(v[10..])
  }

  function LowerChar(c: char): (l: char)
    ensures IsHex(c) <==> IsLowerHex(l)
    ensures l == '-' <==> c == '-'
  {
    if 'A' <= c <= 'Z' then (c as int + 32) as char else c
  }

  function Lower(s: string): string {
    seq(|s|, k requires 0 <= k < |s| => LowerChar(s[k]))
  }

  function Parse(id: string): Bytes
    requires HexText(id)
  {
    seq(16, k requires 0 <= k < 16 => OctetAt(id, k))
  }

  /** Where the text of octet k starts. */
  function TextAt(k: int): (i: int)
    requires 0 <= k < 16
    ensures 0 <= i < 35 && !IsHyphenAt(i) && !IsHyphenAt(i + 1)
  {
    2 * k + (if k < 4 then 0 else if k < 6 then 1 else if k < 8 then 2 else if k < 10 then 3 else 4)
  }

  function PairValue(hi: int, lo: int): (o: Octet)
    requires 0 <= hi < 16 && 0 <= lo < 16
    ensures o / 16 == hi && o % 16 == lo
  {
    hi * 16 + lo
  }

  function OctetAt(id: string, k: int): Octet
    requires HexText(id) && 0 <= k < 16
  {
    assert CharacterFits(id, TextAt(k)) && CharacterFits(id, TextAt(k) + 1);
    PairValue(HexValue(LowerChar(id[TextAt(k)])), HexValue(LowerChar(id[TextAt(k) + 1])))
  }

  // ---- positions ----

  lemma {:induction false} HexAt(b: Bytes, k: nat)
    requires k < |b|
    ensures |Hex(b)| == 2 * |b|
    ensures Hex(b)[2 * k] == HexDigit(b[k] / 16) && Hex(b)[2 * k + 1] == HexDigit(b[k] % 16)
  {
    HexShape(b);
    if k > 0 {
      HexAt(b[1..], k - 1);
    }
  }

  /** The two characters at i spell the octet. */
  ghost predicate Spells(text: string, i: int, o: Octet) {
    0 <= i < |text| - 1 && text[i] == HexDigit(o / 16) && text[i + 1] == HexDigit(o % 16)
  }

  lemma TailFrom8(v: Bytes, k: nat)
    requires |v| == 16
    ensures |TextFrom8(v)| == 17 && TextFrom8(v)[4] == '-'
    ensures 8 <= k < 16 ==> Spells(TextFrom8(v), TextAt(k) - 19, v[k])
  {
    HexShape(v[8..10]);
    HexShape(v[10..]);
    if 8 <= k < 10 {
      HexAt(v[8..10], k - 8);
    } else if 10 <= k < 16 {
      HexAt(v[10..], k - 10);
    }
  }

  lemma TailFrom4(v: Bytes, k: nat)
    requires |v| == 16
    ensures |TextFrom4(v)| == 27 && TextFrom4(v)[4] == TextFrom4(v)[9] == TextFrom4(v)[14] == '-'
    ensures 4 <= k < 16 ==> Spells(TextFrom4(v), TextAt(k) - 9, v[k])
  {
    TailFrom8(v, k);
    HexShape(v[4..6]);
    HexShape(v[6..8]);
    assert TextFrom4(v)[10..] == TextFrom8(v);
    if 4 <= k < 6 {
      HexAt(v[4..6], k - 4);
    } else if 6 <= k < 8 {
      HexAt(v[6..8], k - 6);
    }
  }

  lemma FormatSpells(v: Bytes, k: nat)
    requires |v| == 16
    ensures |Format(v)| == 36 && Format(v)[8] == Format(v)[13] == Format(v)[18] == Format(v)[23] == '-'
    ensures k < 16 ==> Spells(Format(v), TextAt(k), v[k])
  {
    TailFrom4(v, k);
    HexShape(v[..4]);
    assert Format(v)[9..] == TextFrom4(v);
    if k < 4 {
      HexAt(v[..4], k);
    }
  }

  lemma FormatAt(v: Bytes, k: nat)
    requires |v| == 16 && k < 16
    ensures |Format(v)| == 36
    ensures Format(v)[TextAt(k)] == HexDigit(v[k] / 16) && Format(v)[TextAt(k) + 1] == HexDigit(v[k] % 16)
  {
    FormatSpells(v, k);
  }

  lemma FormatHyphens(v: Bytes)
    requires |v| == 16
    ensures |Format(v)| == 36
    ensures Format(v)[8] == Format(v)[13] == Format(v)[18] == Format(v)[23] == '-'
  {
    FormatSpells(v, 0);
  }

  /** Every position is a hyphen or one of the two digits of some octet. */
  lemma PositionOfDigit(j: nat) returns (k: nat)
    requires j < 36 && !IsHyphenAt(j)
    ensures k < 16 && (j == TextAt(k) || j == TextAt(k) + 1)
  {
    k := (j - (if j < 8 then 0 else if j < 13 then 1 else if j < 18 then 2 else if j < 23 then 3 else 4)) / 2;
  }

  // ---- formatting and parsing are inverse ----

  lemma ParseInvertsFormat(v: Bytes)
    requires |v| == 16
    ensures HexText(Format(v)) && Parse(Format(v)) == v
  {
    FormatHyphens(v);
    forall j | 0 <= j < 36
      ensures CharacterFits(Format(v), j)
    {
      if !IsHyphenAt(j) {
        var k := PositionOfDigit(j);
        FormatAt(v, k);
        HexDigitIsLowerHex(v[k] / 16);
        HexDigitIsLowerHex(v[k] % 16);
      }
    }
    forall k | 0 <= k < 16
      ensures OctetAt(Format(v), k) == v[k]
    {
      FormatAt(v, k);
      HexDigitIsLowerHex(v[k] / 16);
      HexDigitIsLowerHex(v[k] % 16);
    }
  }

  lemma FormatParseAt(id: string, j: nat)
    requires HexText(id) && j < 36
    ensures |Format(Parse(id))| == 36 && Format(Parse(id))[j] == LowerChar(id[j])
  {
    var v := Parse(id);
    FormatHyphens(v);
    assert CharacterFits(id, j);
    if !IsHyphenAt(j) {
      var k := PositionOfDigit(j);
      FormatAt(v, k);
      assert v[k] == OctetAt(id, k);
      OctetDigits(id, k);
    }
  }

  lemma OctetDigits(id: string, k: nat)
    requires HexText(id) && k < 16
    ensures HexDigit(OctetAt(id, k) / 16) == LowerChar(id[TextAt(k)])
    ensures HexDigit(OctetAt(id, k) % 16) == LowerChar(id[TextAt(k) + 1])
  {
    assert CharacterFits(id, TextAt(k)) && CharacterFits(id, TextAt(k) + 1);
    assert OctetAt(id, k) / 16 == HexValue(LowerChar(id[TextAt(k)]));
    assert OctetAt(id, k) % 16 == HexValue(LowerChar(id[TextAt(k) + 1]));
  }

  lemma FormatInvertsParse(id: string)
    requires HexText(id)
    ensures Format(Parse(id)) == Lower(id)
  {
    FormatHyphens(Parse(id));
    forall j | 0 <= j < 36
      ensures Format(Parse(id))[j] == Lower(id)[j]
    {
      FormatParseAt(id, j);
    }
  }

  lemma ShapedParses(id: string)
    requires Shaped(id)
    ensures IsUuidV7(Parse(id)) && Lower(id) == Format(Parse(id))
  {
    FormatInvertsParse(id);
    assert TextAt(6) == 14 && TextAt(8) == 19;
    assert CharacterFits(id, 14) && CharacterFits(id, 15) && CharacterFits(id, 19) && CharacterFits(id, 20);
    assert Parse(id)[6] == OctetAt(id, 6) && Parse(id)[8] == OctetAt(id, 8);
    VersionAndVariantDigits(id);
  }

  lemma VersionAndVariantDigits(id: string)
    requires |id| == 36 && id[14] == '7' && id[19] in "89aAbB"
    ensures LowerChar(id[14]) == '7' && HexValue('7') == 7
    ensures LowerChar(id[19]) in "89ab" && HexValue(LowerChar(id[19])) in {8, 9, 10, 11}
  {
  }

  lemma LowerIsHexText(id: string)
    requires HexText(Lower(id))
    ensures HexText(id)
  {
    assert |id| == |Lower(id)|;
    forall k | 0 <= k < 36
      ensures CharacterFits(id, k)
    {
      assert CharacterFits(Lower(id), k) && Lower(id)[k] == LowerChar(id[k]);
    }
  }

  lemma VersionAndVariantText(v: Bytes)
    requires IsUuidV7(v)
    ensures |Format(v)| == 36 && Format(v)[14] == '7' && Format(v)[19] in "89ab"
  {
    FormatAt(v, 6);
    FormatAt(v, 8);
    assert TextAt(6) == 14 && TextAt(8) == 19;
    assert v[8] / 16 == 8 || v[8] / 16 == 9 || v[8] / 16 == 10 || v[8] / 16 == 11;
    assert HexDigit(8) == '8' && HexDigit(9) == '9' && HexDigit(10) == 'a' && HexDigit(11) == 'b' && HexDigit(7) == '7';
  }

  lemma FormatIsShaped(id: string, v: Bytes)
    requires IsUuidV7(v) && Lower(id) == Format(v)
    ensures Shaped(id)
  {
    ParseInvertsFormat(v);
    LowerIsHexText(id);
    VersionAndVariantText(v);
    assert LowerChar(id[14]) == '7' && LowerChar(id[19]) in "89ab";
    VariantLetter(id[19]);
  }

  lemma VariantLetter(c: char)
    requires LowerChar(c) in "89ab"
    ensures c in "89aAbB"
  {
    assert c in "89aAbB" <==> c == '8' || c == '9' || c == 'a' || c == 'A' || c == 'b' || c == 'B';
  }

  /** The recogniser accepts exactly the case-insensitive texts of version 7 UUIDs. */
  lemma ValidIffUuidV7(id: string)
    ensures Shaped(id) <==> exists v :: IsUuidV7(v) && Lower(id) == Format(v)
  {
    if Shaped(id) {
      ShapedParses(id);
    }
    if v :| IsUuidV7(v) && Lower(id) == Format(v) {
      FormatIsShaped(id, v);
    }
  }

  /** Acceptance and the decoded value do not depend on letter case. */
  lemma CaseInsensitive(id: string)
    ensures Shaped(id) <==> Shaped(Lower(id))
    ensures Shaped(id) ==> Parse(id) == Parse(Lower(id)) && Format(Parse(id)) == Lower(id)
  {
    assert Lower(Lower(id)) == Lower(id);
    ValidIffUuidV7(id);
    ValidIffUuidV7(Lower(id));
    if Shaped(id) {
      FormatInvertsParse(id);
      ParseInvertsFormat(Parse(id));
    }
  }

  // ---- order ----

  predicate LexLess(a: seq<int>, b: seq<int>) {
    b != [] && (a == [] || a[0] < b[0] || (a[0] == b[0] && LexLess(a[1..], b[1..])))
  }

  function Codes(s: string): seq<int> {
    seq(|s|, k requires 0 <= k < |s| => s[k] as int)
  }

  /** The octets read as one big-endian number. */
  function Value(v: Bytes): nat {
    if v == [] then 0 else v[0] * Weight(|v| - 1) + Value(v[1..])
  }

  function Weight(n: nat): (p: nat)
    ensures p > 0
  {
    if n == 0 then 1 else 256 * Weight(n - 1)
  }

  lemma {:induction false} ValueBound(v: Bytes)
    ensures Value(v) < Weight(|v|)
  {
    if v != [] {
      ValueBound(v[1..]);
      var first: int := v[0];
      Scale(first, 255, Weight(|v| - 1));
      Scale(first + 1, 256, Weight(|v| - 1));
    }
  }

  lemma Scale(a: nat, b: nat, p: nat)
    requires a <= b
    ensures a * p <= b * p && (a + 1) * p == a * p + p
  {
  }

  lemma {:induction false} ValueOrder(a: Bytes, b: Bytes)
    requires |a| == |b|
    ensures LexLess(a, b) <==> Value(a) < Value(b)
  {
    if a != [] {
      var p := Weight(|a| - 1);
      ValueBound(a[1..]);
      ValueBound(b[1..]);
      ValueOrder(a[1..], b[1..]);
      if a[0] < b[0] {
        Scale(a[0] + 1, b[0], p);
        Scale(a[0], a[0], p);
      } else if b[0] < a[0] {
        Scale(b[0] + 1, a[0], p);
        Scale(b[0], b[0], p);
      }
    }
  }

  lemma {:induction false} LexConcat(a: seq<int>, b: seq<int>, x: seq<int>, y: seq<int>)
    requires |a| == |b|
    ensures LexLess(a + x, b + y) <==> LexLess(a, b) || (a == b && LexLess(x, y))
  {
    if a == [] {
      assert a + x == x && b + y == y;
    } else {
      LexConcat(a[1..], b[1..], x, y);
      assert (a + x)[1..] == a[1..] + x && (b + y)[1..] == b[1..] + y;
      assert a == b <==> a[0] == b[0] && a[1..] == b[1..];
    }
  }

  lemma DigitOrder(m: int, n: int)
    requires 0 <= m < 16 && 0 <= n < 16
    ensures m < n <==> HexDigit(m) as int < HexDigit(n) as int
  {
    HexDigitIsLowerHex(m);
    HexDigitIsLowerHex(n);
  }

  lemma {:induction false} HexOrder(a: Bytes, b: Bytes)
    requires |a| == |b|
    ensures LexLess(Codes(Hex(a)), Codes(Hex(b))) <==> LexLess(a, b)
  {
    if a != [] {
      var ah, bh := Codes([HexDigit(a[0] / 16), HexDigit(a[0] % 16)]), Codes([HexDigit(b[0] / 16), HexDigit(b[0] % 16)]);
      assert Codes(Hex(a)) == ah + Codes(Hex(a[1..])) && Codes(Hex(b)) == bh + Codes(Hex(b[1..]));
      LexConcat(ah, bh, Codes(Hex(a[1..])), Codes(Hex(b[1..])));
      HexOrder(a[1..], b[1..]);
      PairOrder(a[0], b[0]);
    }
  }

  lemma PairOrder(m: Octet, n: Octet)
    ensures var mh, nh := Codes([HexDigit(m / 16), HexDigit(m % 16)]), Codes([HexDigit(n / 16), HexDigit(n % 16)]);
      (LexLess(mh, nh) <==> m < n) && (mh == nh <==> m == n)
  {
    var mh, nh := Codes([HexDigit(m / 16), HexDigit(m % 16)]), Codes([HexDigit(n / 16), HexDigit(n % 16)]);
    DigitOrder(m / 16, n / 16);
    DigitOrder(n / 16, m / 16);
    DigitOrder(m % 16, n % 16);
    DigitOrder(n % 16, m % 16);
    assert mh[0] == HexDigit(m / 16) as int && mh[1] == HexDigit(m % 16) as int;
    assert nh[0] == HexDigit(n / 16) as int && nh[1] == HexDigit(n % 16) as int;
    assert LexLess(mh[1..], nh[1..]) <==> mh[1] < nh[1];
  }

  lemma CodesInjective(x: string, y: string)
    requires Codes(x) == Codes(y)
    ensures x == y
  {
    assert |x| == |Codes(x)| == |Codes(y)| == |y|;
    forall k | 0 <= k < |x|
      ensures x[k] == y[k]
    {
      assert Codes(x)[k] == Codes(y)[k];
    }
  }

  lemma SeparatorOrder(x: string, y: string)
    ensures LexLess(Codes("-") + Codes(x), Codes("-") + Codes(y)) <==> LexLess(Codes(x), Codes(y))
  {
    var sep := Codes("-");
    assert sep == ['-' as int] && sep[1..] == [];
    assert (sep + Codes(x))[1..] == Codes(x) && (sep + Codes(y))[1..] == Codes(y);
  }

  /** Peeling off one group and its separator. */
  lemma GroupOrder(a: Bytes, b: Bytes, x: string, y: string, u: Bytes, v: Bytes)
    requires |a| == |b| && (LexLess(Codes(x), Codes(y)) <==> LexLess(u, v))
    ensures LexLess(Codes(Hex(a) + "-" + x), Codes(Hex(b) + "-" + y)) <==> LexLess(a + u, b + v)
  {
    var ah, bh := Codes(Hex(a)), Codes(Hex(b));
    assert Codes(Hex(a) + "-" + x) == ah + (Codes("-") + Codes(x));
    assert Codes(Hex(b) + "-" + y) == bh + (Codes("-") + Codes(y));
    HexShape(a);
    HexShape(b);
    LexConcat(ah, bh, Codes("-") + Codes(x), Codes("-") + Codes(y));
    SeparatorOrder(x, y);
    HexOrder(a, b);
    LexConcat(a, b, u, v);
    if ah == bh {
      CodesInjective(Hex(a), Hex(b));
      HexInjective(a, b);
    }
  }

  lemma Slices(s: Bytes, i: nat, j: nat)
    requires i <= j <= |s|
    ensures s[i..j] + s[j..] == s[i..]
  {
  }

  lemma OrderFrom8(a: Bytes, b: Bytes)
    requires |a| == |b| == 16
    ensures LexLess(Codes(TextFrom8(a)), Codes(TextFrom8(b))) <==> LexLess(a[8..], b[8..])
  {
    HexOrder(a[10..], b[10..]);
    GroupOrder(a[8..10], b[8..10], Hex(a[10..]), Hex(b[10..]), a[10..], b[10..]);
    Slices(a, 8, 10);
    Slices(b, 8, 10);
  }

  lemma OrderFrom6(a: Bytes, b: Bytes)
    requires |a| == |b| == 16
    ensures LexLess(Codes(TextFrom6(a)), Codes(TextFrom6(b))) <==> LexLess(a[6..], b[6..])
  {
    OrderFrom8(a, b);
    GroupOrder(a[6..8], b[6..8], TextFrom8(a), TextFrom8(b), a[8..], b[8..]);
    Slices(a, 6, 8);
    Slices(b, 6, 8);
  }

  lemma OrderFrom4(a: Bytes, b: Bytes)
    requires |a| == |b| == 16
    ensures LexLess(Codes(TextFrom4(a)), Codes(TextFrom4(b))) <==> LexLess(a[4..], b[4..])
  {
    OrderFrom6(a, b);
    GroupOrder(a[4..6], b[4..6], TextFrom6(a), TextFrom6(b), a[6..], b[6..]);
    Slices(a, 4, 6);
    Slices(b, 4, 6);
  }

  /** Text order of lowercase ids is numeric order of their values. */
  lemma TextOrderIsNumericOrder(a: Bytes, b: Bytes)
    requires |a| == |b| == 16
    ensures LexLess(Codes(Format(a)), Codes(Format(b))) <==> Value(a) < Value(b)
  {
    OrderFrom4(a, b);
    GroupOrder(a[..4], b[..4], TextFrom4(a), TextFrom4(b), a[4..], b[4..]);
    assert a[..4] + a[4..] == a;
    assert b[..4] + b[4..] == b;
    ValueOrder(a, b);
  }
}
