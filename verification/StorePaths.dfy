/** The paths of blobs, and what one walk of syncChain puts on disk. */
module StorePaths {
  import opened Identity
  import opened Wrappers
  import opened Filesystem
  import opened CasProtocol
  import opened CasInvariant
  import opened CasOperations

  // ---- blob paths ----

  /** Where things are: a blob two shards deep, under the first and the next two characters of its digest. */
  lemma BlobPathIs(w: World, x: string)
    requires IsDigest(x)
    ensures BlobPath(w, x) == w.root + ["sha256", x[..2], x[2..4], x]
    ensures TempDir(w) == w.root + [".tmp"]
  {
  }

  /** Distinct digests have distinct paths, none lies under another, and none meets the staging directory. */
  lemma BlobPathsApart(w: World, x: string, y: string)
    ensures BlobPath(w, x) == BlobPath(w, y) <==> x == y
    ensures BlobPath(w, x) <= BlobPath(w, y) ==> x == y
    ensures !(TempDir(w) <= BlobPath(w, x)) && !(BlobPath(w, x) <= TempDir(w))
  {
    BlobPathInTree(w, x);
    BlobPathInTree(w, y);
    assert BlobPath(w, x)[|w.root|] == BlobTree(w)[|w.root|] == "sha256" && TempDir(w)[|w.root|] == ".tmp";
  }

  // ---- syncChain ----

  /** A walk that meets its stop visits it and what lies between; any other walk goes up to the filesystem root. */
  lemma {:induction false} ChainIsAncestors(dir: Path, stopAt: Option<Path>, p: Path)
    ensures p in ChainOf(dir, stopAt) <==>
              p <= dir && (stopAt.Some? && stopAt.value <= dir ==> stopAt.value <= p)
  {
    if stopAt == Some(dir) || dir == [] {
      assert p <= dir && dir <= p ==> p == dir;
    } else {
      ChainIsAncestors(Parent(dir), stopAt, p);
      assert p <= dir <==> p == dir || p <= Parent(dir);
      if stopAt.Some? {
        var stop := stopAt.value;
        assert stop == dir <==> stop <= dir && |stop| == |dir|;
        assert stopAt.value <= dir <==> stopAt.value <= Parent(dir);
      }
    }
  }

  lemma {:induction false} ChainOnce(dir: Path, stopAt: Option<Path>)
    ensures forall i, j :: 0 <= i < j < |ChainOf(dir, stopAt)| ==> |ChainOf(dir, stopAt)[i]| > |ChainOf(dir, stopAt)[j]|
    ensures ChainOf(dir, stopAt)[0] == dir
  {
    if !(stopAt == Some(dir) || dir == []) {
      ChainOnce(Parent(dir), stopAt);
    }
  }

  /** For every digest, the chain that publish syncs holds the directory of every entry on the blob's path below the root. */
  lemma ChainCoversBlob(w: World, x: string, n: nat)
    requires n <= |BlobPath(w, x)|
    ensures n > |w.root| <==> n > 0 && Parent(BlobPath(w, x)[..n]) in ChainOf(BlobDir(w, x), Some(w.root))
  {
    BlobPathInTree(w, x);
    var entry := BlobPath(w, x)[..n];
    assert BlobTree(w) <= BlobPath(w, x) && w.root <= BlobTree(w);
    assert w.root <= BlobDir(w, x);
    if n > 0 {
      assert Parent(entry) == BlobDir(w, x)[..n - 1];
      ChainIsAncestors(BlobDir(w, x), Some(w.root), Parent(entry));
    }
  }

  /** The disk after an uninterrupted walk of fsyncs. */
  function SyncedDirs(d: Disk, dirs: seq<Path>): Disk
    decreases |dirs|
  {
    if dirs == [] then d else SyncedDirs(SyncDir(d, dirs[0]), dirs[1..])
  }

  /** A walk changes nothing processes can see, and each directory in it ends with exactly its visible entries on disk. */
  lemma {:induction false} WalkSyncs(d: Disk, dirs: seq<Path>, p: Path)
    ensures SyncedDirs(d, dirs).cur == d.cur && SyncedDirs(d, dirs).files == d.files
    ensures if p != [] && Parent(p) in dirs
            then (p in SyncedDirs(d, dirs).dur <==> p in d.cur) && (p in d.cur ==> SyncedDirs(d, dirs).dur[p] == d.cur[p])
            else (p in SyncedDirs(d, dirs).dur <==> p in d.dur) && (p in d.dur ==> SyncedDirs(d, dirs).dur[p] == d.dur[p])
    decreases |dirs|
  {
    if dirs != [] {
      WalkSyncs(SyncDir(d, dirs[0]), dirs[1..], p);
    }
  }
}
