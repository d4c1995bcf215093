/** The event-type rule, as the Go client, the Python client and the table's CHECK constraints state it. */
module EventType {
  import opened Octets
  import opened Wrappers
  import opened Utf8

  const MAX_EVENT_TYPE_BYTES := 255

  datatype Verdict = Accepted | NotUtf8 | Blank | TooLong

  // ---- trimming ----

  function TrimLeft(s: seq<int>, cut: int -> bool): seq<int> {
    if s != [] && cut(s[0]) then TrimLeft(s[1..], cut) else s
  }

  function TrimRight(s: seq<int>, cut: int -> bool): seq<int> {
    if s != [] && cut(s[|s| - 1]) then TrimRight(s[..|s| - 1], cut) else s
  }

  function Trim(s: seq<int>, cut: int -> bool): seq<int> {
    TrimRight(TrimLeft(s, cut), cut)
  }

  lemma {:induction false} TrimLeftEmpty(s: seq<int>, cut: int -> bool)
    ensures TrimLeft(s, cut) == [] <==> forall k :: 0 <= k < |s| ==> cut(s[k])
    ensures TrimLeft(s, cut) != [] ==> !cut(TrimLeft(s, cut)[0])
  {
    if s != [] && cut(s[0]) {
      TrimLeftEmpty(s[1..], cut);
      assert forall k :: 0 < k < |s| ==> s[k] == s[1..][k - 1];
    }
  }

  lemma {:induction false} TrimRightKeeps(s: seq<int>, cut: int -> bool)
    requires s != [] && !cut(s[0])
    ensures TrimRight(s, cut) != []
  {
    if cut(s[|s| - 1]) {
      TrimRightKeeps(s[..|s| - 1], cut);
    }
  }

  /** Trimming both ends leaves nothing exactly when every code point is in the trim set. */
  lemma TrimEmpty(s: seq<int>, cut: int -> bool)
    ensures Trim(s, cut) == [] <==> forall k :: 0 <= k < |s| ==> cut(s[k])
  {
    TrimLeftEmpty(s, cut);
    if TrimLeft(s, cut) != [] {
      TrimRightKeeps(TrimLeft(s, cut), cut);
    }
  }

  // ---- Go: a byte string; strings.TrimSpace over unicode.IsSpace ----

  predicate IsSpace(c: int) {
    || 0x09 <= c <= 0x0D || c == 0x20 || c == 0x85 || c == 0xA0 || c == 0x1680
    || 0x2000 <= c <= 0x200A || c == 0x2028 || c == 0x2029 || c == 0x202F || c == 0x205F || c == 0x3000
  }

  function GoVerdict(eventType: Bytes): Verdict {
    match Decode(eventType)
    case None => NotUtf8
    case Some(runes) =>
      if Trim(runes, c => IsSpace(c)) == [] then Blank
      else if |eventType| > MAX_EVENT_TYPE_BYTES then TooLong
      else Accepted
  }

  // ---- Python: a code point string, which may hold lone surrogates ----

  const WHITESPACE: seq<int> :=
    [0x09, 0x0A, 0x0B, 0x0C, 0x0D, 0x20, 0x85, 0xA0, 0x1680, 0x2000, 0x2001, 0x2002, 0x2003, 0x2004, 0x2005,
     0x2006, 0x2007, 0x2008, 0x2009, 0x200A, 0x2028, 0x2029, 0x202F, 0x205F, 0x3000]

  predicate Encodable(s: seq<CodePoint>) {
    forall k :: 0 <= k < |s| ==> !(0xD800 <= s[k] <= 0xDFFF)
  }

  function Scalars(s: seq<CodePoint>): seq<Scalar>
    requires Encodable(s)
  {
    s
  }

  function PythonVerdict(eventType: seq<CodePoint>): Verdict {
    if !Encodable(eventType) then NotUtf8
    else if Trim(eventType, c => c in WHITESPACE) == [] then Blank
    else if |Encode(Scalars(eventType))| > MAX_EVENT_TYPE_BYTES then TooLong
    else Accepted
  }

  // ---- SQL: a UTF-8 text value; both CHECK constraints must hold ----

  const TRIM_SET: seq<int> :=
    [0x0009, 0x000A, 0x000B, 0x000C, 0x000D, 0x0020, 0x0085, 0x00A0, 0x1680, 0x2000, 0x2001, 0x2002, 0x2003,
     0x2004, 0x2005, 0x2006, 0x2007, 0x2008, 0x2009, 0x200A, 0x2028, 0x2029, 0x202F, 0x205F, 0x3000]

  predicate NonblankCheck(eventType: seq<Scalar>) {
    Trim(eventType, c => c in TRIM_SET) != []
  }

  predicate MaxBytesCheck(eventType: seq<Scalar>) {
    |Encode(eventType)| <= MAX_EVENT_TYPE_BYTES
  }

  // ---- agreement ----

  predicate AllSpace(s: seq<int>) {
    forall k :: 0 <= k < |s| ==> IsSpace(s[k])
  }

  lemma SameWhitespace(c: int)
    ensures IsSpace(c) <==> c in WHITESPACE
    ensures IsSpace(c) <==> c in TRIM_SET
  {
    if IsSpace(c) {
      var k := if c <= 0x0D then c - 0x09 else if c == 0x20 then 5 else if c == 0x85 then 6 else if c == 0xA0 then 7
               else if c == 0x1680 then 8 else if c <= 0x200A then c - 0x2000 + 9 else if c == 0x2028 then 20
               else if c == 0x2029 then 21 else if c == 0x202F then 22 else if c == 0x205F then 23 else 24;
      assert WHITESPACE[k] == c && TRIM_SET[k] == c;
    }
  }

  lemma BlankMeansAllSpace(s: seq<int>)
    ensures Trim(s, c => IsSpace(c)) == [] <==> AllSpace(s)
    ensures Trim(s, c => c in WHITESPACE) == [] <==> AllSpace(s)
    ensures Trim(s, c => c in TRIM_SET) == [] <==> AllSpace(s)
  {
    TrimEmpty(s, c => IsSpace(c));
    TrimEmpty(s, c => c in WHITESPACE);
    TrimEmpty(s, c => c in TRIM_SET);
    forall k | 0 <= k < |s|
      ensures (s[k] in WHITESPACE <==> IsSpace(s[k])) && (s[k] in TRIM_SET <==> IsSpace(s[k]))
    {
      SameWhitespace(s[k]);
    }
  }

  /** For every sequence of Unicode scalar values the three rules give the same verdict; the longest texts have 255 bytes. */
  lemma RulesAgree(s: seq<Scalar>)
    ensures GoVerdict(Encode(s)) == PythonVerdict(s)
    ensures GoVerdict(Encode(s)) == Blank <==> !NonblankCheck(s)
    ensures GoVerdict(Encode(s)) == Accepted <==> NonblankCheck(s) && MaxBytesCheck(s)
    ensures GoVerdict(Encode(s)) == TooLong <==> NonblankCheck(s) && |Encode(s)| > 255
    ensures MaxBytesCheck(s) <==> |Encode(s)| <= 255
  {
    DecodeEncode(s);
    BlankMeansAllSpace(s);
  }

  /** Input that is not text is rejected by each client as such, and only that. */
  lemma OnlyTextPasses(b: Bytes, t: seq<CodePoint>)
    ensures GoVerdict(b) == NotUtf8 <==> forall s: seq<Scalar> :: b != Encode(s)
    ensures PythonVerdict(t) == NotUtf8 <==> exists k :: 0 <= k < |t| && 0xD800 <= t[k] <= 0xDFFF
  {
    if Decode(b).Some? {
      EncodeDecode(b);
    }
    forall s: seq<Scalar>
      ensures b == Encode(s) ==> Decode(b) == Some(s)
    {
      DecodeIsInverse(b, s);
    }
  }

  /** One code point outside the trim set, and a length within the bound, make an event type acceptable. */
  lemma NonblankAccepted(s: seq<Scalar>, k: nat)
    requires k < |s| && !IsSpace(s[k]) && |Encode(s)| <= MAX_EVENT_TYPE_BYTES
    ensures GoVerdict(Encode(s)) == Accepted
  {
    RulesAgree(s);
    BlankMeansAllSpace(s);
  }
}
