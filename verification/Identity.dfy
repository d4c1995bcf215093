/** Digests, artifact identities and the paths blobs live at. */
module Identity {
  import opened Octets
  import opened Wrappers

  const DIGEST_LENGTH := 64
  const PREFIX := "sha256:"

  predicate IsDigest(s: string) {
    |s| == DIGEST_LENGTH && forall k :: 0 <= k < |s| ==> IsLowerHex(s[k])
  }

  method ValidDigest(digest: string) returns (ok: bool)
    ensures ok <==> IsDigest(digest)
    ensures ok <==> |digest| == 64 && forall k :: 0 <= k < 64 ==> '0' <= digest[k] <= '9' || 'a' <= digest[k] <= 'f'
  {
    if |digest| != DIGEST_LENGTH {
      return false;
    }
    for k := 0 to |digest|
      invariant forall j :: 0 <= j < k ==> IsLowerHex(digest[j])
    {
      var c := digest[k];
      if !(('0' <= c && c <= '9') || ('a' <= c && c <= 'f')) {
        return false;
      }
    }
    return true;
  }

  function FormatIdentity(digest: string): string {
    PREFIX + digest
  }

  method ParseIdentity(identity: string) returns (digest: Option<string>)
    ensures digest == ParsedIdentity(identity)
  {
    if !(PREFIX <= identity) {
      return None;
    }
    var rest := identity[|PREFIX|..];
    var ok := ValidDigest(rest);
    return if ok then Some(rest) else None;
  }

  /** The only identities are the formatted digests. */
  ghost function ParsedIdentity(identity: string): Option<string> {
    if PREFIX <= identity && IsDigest(identity[|PREFIX|..]) then Some(identity[|PREFIX|..]) else None
  }

  /** Parsing inverts formatting, and accepts nothing that formatting does not produce. */
  lemma IdentityRoundTrip(identity: string, digest: string)
    ensures ParsedIdentity(identity) == Some(digest) <==> IsDigest(digest) && identity == FormatIdentity(digest)
    ensures FormatIdentity(digest) == "sha256:" + digest
    ensures ParsedIdentity(identity).Some? ==> identity == "sha256:" + ParsedIdentity(identity).value
  {
    if IsDigest(digest) && identity == FormatIdentity(digest) {
      assert identity[|PREFIX|..] == digest;
    }
    if ParsedIdentity(identity) == Some(digest) {
      assert identity == PREFIX + identity[|PREFIX|..];
    }
  }

  /** A 32-octet hash value. */
  type Sum = b: Bytes | |b| == 32 witness seq(32, _ => 0)

  lemma HexOfSumIsDigest(sum: Sum)
    ensures IsDigest(Hex(sum))
  {
    HexShape(sum);
  }
}
