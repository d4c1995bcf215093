/** The copy loop under every put and get: stream, hash and count, with a fixed buffer and a 64-bit count. */
module HashingCopy {
  import opened Octets
  import opened Identity

  newtype int64 = x: int | -0x8000_0000_0000_0000 <= x < 0x8000_0000_0000_0000

  datatype ReadError = NoError | Eof | Broken

  /** What one read returns: some bytes, at most a buffer of them, together with nil, io.EOF or another error. */
  datatype Reading = Reading(data: Bytes, error: ReadError)

  type Script = s: seq<Reading> | forall k :: 0 <= k < |s| ==> |s[k].data| <= BUFFER

  /** A source that will answer its reads as scripted, and with EOF once the script is used up. */
  class Source {
    var script: Script

    constructor (script: Script)
      ensures this.script == script
    {
      this.script := script;
    }

    method Read() returns (r: Reading)
      modifies this
      ensures |r.data| <= BUFFER
      ensures old(script) == [] ==> r == Reading([], Eof) && script == []
      ensures old(script) != [] ==> r == old(script)[0] && script == old(script)[1..]
    {
      if script == [] {
        r := Reading([], Eof);
      } else {
        r := script[0];
        script := script[1..];
      }
    }
  }

  /** How one write goes: all of it, or only the first n bytes, with or without an error. */
  datatype WriteOutcome = Whole | Partial(n: nat, error: bool)

  class Sink {
    var data: Bytes
    var outcomes: seq<WriteOutcome>

    constructor (outcomes: seq<WriteOutcome>)
      ensures data == [] && this.outcomes == outcomes
    {
      data := [];
      this.outcomes := outcomes;
    }

    method Write(chunk: Bytes) returns (n: nat, failed: bool)
      modifies this
      ensures n <= |chunk| && data == old(data) + chunk[..n]
      ensures outcomes == if old(outcomes) == [] then [] else old(outcomes)[1..]
      ensures old(outcomes) == [] || old(outcomes)[0].Whole? ==> n == |chunk| && !failed
    {
      if outcomes == [] || outcomes[0].Whole? {
        n, failed := |chunk|, false;
      } else {
        n := if outcomes[0].n < |chunk| then outcomes[0].n else |chunk|;
        failed := outcomes[0].error;
      }
      data := data + chunk[..n];
      outcomes := if outcomes == [] then [] else outcomes[1..];
    }
  }

  // ---- the one-shot form ----

  /** Everything a source delivers, including the bytes that come together with its final error. */
  function Stream(script: seq<Reading>): Bytes {
    if script == [] then []
    else if script[0].error != NoError then script[0].data
    else script[0].data + Stream(script[1..])
  }

  predicate EndsClean(script: seq<Reading>) {
    script == [] || script[0].error == Eof || (script[0].error == NoError && EndsClean(script[1..]))
  }

  datatype Result = Copied(digest: string) | TooLarge | WriteFailed | ReadFailed

  predicate NeverFails(outcomes: seq<WriteOutcome>) {
    forall k :: 0 <= k < |outcomes| ==> outcomes[k].Whole?
  }

  /** Of the script's stream, these bytes have been taken in, and the rest is still to come. */
  predicate TakenIn(script: seq<Reading>, rest: seq<Reading>, data: Bytes) {
    Stream(script) == data + Stream(rest) && (EndsClean(script) <==> EndsClean(rest))
  }

  /** One read: its bytes are next, and it is the last if it comes with an error. */
  lemma OneRead(script: seq<Reading>, rest: seq<Reading>, data: Bytes, r: Reading)
    requires TakenIn(script, rest, data)
    requires r == if rest == [] then Reading([], Eof) else rest[0]
    ensures data + r.data <= Stream(script)
    ensures r.error == NoError ==> rest != [] && TakenIn(script, rest[1..], data + r.data)
    ensures r.error != NoError ==> data + r.data == Stream(script) && (EndsClean(script) <==> r.error == Eof)
  {
    if r.error == NoError {
      assert data + (r.data + Stream(rest[1..])) == data + r.data + Stream(rest[1..]);
    }
  }

  lemma PrefixOfRead(data: Bytes, chunk: Bytes, n: nat, all: Bytes)
    requires data + chunk <= all && n <= |chunk|
    ensures data + chunk[..n] <= all
  {
    assert (data + chunk)[..|data| + n] == data + chunk[..n];
  }

  /**
   For every way the source cuts its stream into reads: success delivers and hashes the whole stream and counts
   it exactly; any failure leaves a prefix of it in the destination, still counted exactly; and without a
   failure of either side the copy succeeds unless the stream is longer than an int64 can count.
   */
  method Copy(sha: Bytes -> Sum, dst: Sink, src: Source) returns (n: int64, result: Result)
    modifies dst, src
    ensures result.Copied? ==>
              EndsClean(old(src.script)) && dst.data == old(dst.data) + Stream(old(src.script))
              && n as int == |Stream(old(src.script))| && result.digest == Hex(sha(Stream(old(src.script))))
    ensures old(dst.data) <= dst.data <= old(dst.data) + Stream(old(src.script))
    ensures 0 <= n && n as int == |dst.data| - |old(dst.data)|
    ensures result == TooLarge ==> |Stream(old(src.script))| > 0x7FFF_FFFF_FFFF_FFFF
    ensures result == ReadFailed ==> !EndsClean(old(src.script))
    ensures EndsClean(old(src.script)) && NeverFails(old(dst.outcomes)) && |Stream(old(src.script))| <= 0x7FFF_FFFF_FFFF_FFFF ==>
              result.Copied?
  {
    ghost var script := src.script;
    ghost var start := dst.data;
    var hashed: Bytes := [];
    n := 0;
    while true
      invariant dst.data == start + hashed && n as int == |hashed|
      invariant TakenIn(script, src.script, hashed)
      invariant NeverFails(old(dst.outcomes)) ==> NeverFails(dst.outcomes)
      decreases |src.script|
    {
      ghost var before := src.script;
      var r := src.Read();
      OneRead(script, before, hashed, r);
      if |r.data| > 0 {
        if n > MAX_INT64 as int64 - |r.data| as int64 {
          result := TooLarge;
          return;
        }
        // MultiWriter: the hash sees the chunk only once the destination took all of it
        var nw, failed := dst.Write(r.data);
        n := n + nw as int64;
        assert start + hashed + r.data[..nw] == start + (hashed + r.data[..nw]);
        PrefixOfRead(hashed, r.data, nw, Stream(script));
        if failed || nw != |r.data| {
          result := WriteFailed;
          return;
        }
        assert r.data[..nw] == r.data;
        hashed := hashed + r.data;
      }
      if r.error != NoError {
        if r.error == Eof {
          break;
        }
        result := ReadFailed;
        return;
      }
    }
    assert hashed == Stream(script);
    result := Copied(Hex(sha(hashed)));
  }
}
