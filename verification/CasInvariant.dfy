/**
 What each process knows at each point of its program, and why no other process can spoil it.

 `Known` is local to one process. `Frame` is what a step of any one process leaves alone, so that
 preservation splits into one lemma about the acting process and one about all the others.
 */
module CasInvariant {
  import opened Octets
  import opened Wrappers
  import opened Identity
  import opened Filesystem
  import opened CasProtocol

  /** The file is linked under its temporary name and nowhere else. */
  ghost predicate Private(d: Disk, tmp: Path, i: Inode) {
    && Owned(d, tmp, i)
    && forall p :: Linked(d, p, i) ==> p == tmp
  }

  ghost predicate Owned(d: Disk, tmp: Path, i: Inode) {
    tmp in d.cur && d.cur[tmp] == Link(i) && i in d.files
  }

  ghost predicate HasBlob(w: World, d: Disk, digest: string) {
    var blob := BlobPath(w, digest);
    blob in d.cur && d.cur[blob].Link? && d.cur[blob].inode in d.files
  }

  function BlobInode(w: World, d: Disk, digest: string): Inode
    requires HasBlob(w, d, digest)
  {
    d.cur[BlobPath(w, digest)].inode
  }

  function BlobData(w: World, d: Disk, digest: string): Bytes
    requires HasBlob(w, d, digest)
  {
    d.files[BlobInode(w, d, digest)].data
  }

  /** The bytes stored at the digest's path are of that size and hash to the digest. */
  ghost predicate GoodBlob(w: World, d: Disk, digest: string, size: nat) {
    && HasBlob(w, d, digest)
    && Hex(w.sha(BlobData(w, d, digest))) == digest
    && |BlobData(w, d, digest)| == size
  }

  ghost predicate SyncedBlob(w: World, d: Disk, digest: string, size: nat) {
    GoodBlob(w, d, digest, size) && d.files[BlobInode(w, d, digest)].synced
  }

  /** ... and both the bytes and every directory entry from the filesystem root down are on disk. */
  ghost predicate SafeBlob(w: World, d: Disk, digest: string, size: nat) {
    SyncedBlob(w, d, digest, size) && DurablePath(d, BlobPath(w, digest))
  }

  /** All proper prefixes of p shorter than n are directories. */
  ghost predicate DirsBelow(d: Disk, p: Path, n: nat) {
    forall k :: 0 <= k <= |p| && k < n ==> IsDir(d, p[..k])
  }

  /** The entries of p's prefixes longer than n are on disk. */
  ghost predicate EntriesBeyond(d: Disk, p: Path, n: nat) {
    forall k :: n < k <= |p| ==> DurableEntry(d, p[..k])
  }

  ghost predicate TreesExist(w: World, d: Disk) {
    DirsBelow(d, BlobTree(w), |w.root| + 2) && DirsBelow(d, TempDir(w), |w.root| + 2)
  }

  ghost predicate RootSafe(w: World, d: Disk) {
    TreesExist(w, d) && DurablePath(d, BlobTree(w)) && DurablePath(d, TempDir(w))
  }

  ghost predicate Staged(w: World, d: Disk, job: Job) {
    && IsStaging(w, job.tmp) && Private(d, job.tmp, job.inode) && d.files[job.inode].data == job.data
    && |job.data| <= MAX_INT64
  }

  ghost predicate ReadyToLink(w: World, d: Disk, job: Job) {
    && Staged(w, d, job) && d.files[job.inode].synced
    && (job.want == None || job.want == Some(|job.data|))
  }

  /** After the blob was linked or verified. */
  ghost predicate Placed(w: World, d: Disk, job: Job, deduped: bool) {
    && (job.want == None || job.want == Some(|job.data|)) && |job.data| <= MAX_INT64
    && GoodBlob(w, d, Digest(w, job.data), |job.data|)
    && (!deduped ==> BlobInode(w, d, Digest(w, job.data)) == job.inode)
  }

  ghost predicate Keeping(w: World, d: Disk, job: Job, deduped: bool) {
    Placed(w, d, job, deduped) && SafeBlob(w, d, Digest(w, job.data), |job.data|) && job.inode in d.files
  }

  ghost predicate HoldsTemp(w: World, d: Disk, job: Job) {
    IsStaging(w, job.tmp) && Owned(d, job.tmp, job.inode)
  }

  ghost predicate KnownOpen(w: World, d: Disk, pc: Pc) {
    match pc
    case OpenMkdir(which, depth) =>
      && which < 2 && 1 <= depth <= |w.root| + 1
      && DirsBelow(d, StoreDirs(w)[which], depth)
      && (which == 1 ==> DirsBelow(d, BlobTree(w), |w.root| + 2))
    case OpenSync(which, dir) =>
      && which < 2 && TreesExist(w, d)
      && dir <= StoreDirs(w)[which]
      && EntriesBeyond(d, StoreDirs(w)[which], |dir| + 1)
      && (which == 1 ==> DurablePath(d, BlobTree(w)))
    case Opened => RootSafe(w, d)
    case _ => true
  }

  ghost predicate KnownStore(w: World, d: Disk, pc: Pc) {
    match pc
    case Create(_) => RootSafe(w, d)
    case Copy(job) => RootSafe(w, d) && Staged(w, d, job)
    case SyncTemp(job) => RootSafe(w, d) && Staged(w, d, job)
    case CheckSize(job) => RootSafe(w, d) && Staged(w, d, job) && d.files[job.inode].synced
    case MakeDirs(job, depth) =>
      && RootSafe(w, d) && ReadyToLink(w, d, job)
      && 1 <= depth <= |BlobDir(w, Digest(w, job.data))|
      && DirsBelow(d, BlobDir(w, Digest(w, job.data)), depth)
    case LinkBlob(job) =>
      && RootSafe(w, d) && ReadyToLink(w, d, job)
      && IsDir(d, BlobDir(w, Digest(w, job.data)))
    case VerifyStat(job) => RootSafe(w, d) && ReadyToLink(w, d, job)
    case VerifyOpen(job) => RootSafe(w, d) && ReadyToLink(w, d, job)
    case VerifyRead(job, i, seen) =>
      && RootSafe(w, d) && ReadyToLink(w, d, job)
      && HasBlob(w, d, Digest(w, job.data)) && BlobInode(w, d, Digest(w, job.data)) == i
      && seen <= d.files[i].data
    case SyncBlob(job, deduped) => RootSafe(w, d) && HoldsTemp(w, d, job) && Placed(w, d, job, deduped)
    case SyncChain(job, deduped, dir) =>
      && RootSafe(w, d) && HoldsTemp(w, d, job) && Placed(w, d, job, deduped)
      && SyncedBlob(w, d, Digest(w, job.data), |job.data|)
      && w.root <= dir <= BlobDir(w, Digest(w, job.data))
      && EntriesBeyond(d, BlobPath(w, Digest(w, job.data)), |dir| + 1)
    case Cleanup(job, kept) => HoldsTemp(w, d, job) && (kept.Kept? ==> Keeping(w, d, job, kept.deduped))
    case Stored(job, deduped) => Keeping(w, d, job, deduped)
    case _ => true
  }

  ghost predicate FetchStaged(w: World, d: Disk, f: Fetch) {
    FetchOwned(w, d, f) && Private(d, f.tmp, f.inode) && d.files[f.inode].data == f.data
  }

  ghost predicate FetchOwned(w: World, d: Disk, f: Fetch) {
    f.dest != [] && ChildOf(Parent(f.dest), f.tmp) && IsFetchName(f.tmp) && Owned(d, f.tmp, f.inode)
  }

  /** The destination holds this fetch's own file: complete, verified and synced. */
  ghost predicate Delivered(w: World, d: Disk, f: Fetch) {
    && f.dest != [] && f.dest in d.cur && d.cur[f.dest] == Link(f.inode) && DurableEntry(d, f.dest)
    && f.inode in d.files && d.files[f.inode] == File(f.data, true)
    && Hex(w.sha(f.data)) == f.digest
  }

  ghost predicate KnownGet(w: World, d: Disk, pc: Pc) {
    match pc
    case GetOpen(_, to) => to != Some([])
    case StreamCopy(digest, i, sent) =>
      IsDigest(digest) && HasBlob(w, d, digest) && BlobInode(w, d, digest) == i && sent <= d.files[i].data
    case Streamed(digest, sent) => Digest(w, sent) == digest
    case FetchCreate(digest, dest, i) =>
      dest != [] && IsDigest(digest) && HasBlob(w, d, digest) && BlobInode(w, d, digest) == i
    case FetchCopy(f, i) =>
      && FetchStaged(w, d, f)
      && IsDigest(f.digest) && HasBlob(w, d, f.digest) && BlobInode(w, d, f.digest) == i && f.data <= d.files[i].data
    case FetchSync(f) => FetchStaged(w, d, f)
    case FetchLink(f) => FetchStaged(w, d, f) && d.files[f.inode].synced && Digest(w, f.data) == f.digest
    case FetchSyncDir(f) =>
      && FetchOwned(w, d, f) && f.tmp != f.dest
      && f.dest in d.cur && d.cur[f.dest] == Link(f.inode)
      && d.files[f.inode] == File(f.data, true) && Digest(w, f.data) == f.digest
    case FetchCleanup(f, ok) => FetchOwned(w, d, f) && (ok ==> f.tmp != f.dest && Delivered(w, d, f))
    case Fetched(f) => Delivered(w, d, f)
    case FetchedEarlier(f) => Digest(w, f.data) == f.digest
    case _ => true
  }

  ghost predicate Known(w: World, d: Disk, pc: Pc) {
    KnownOpen(w, d, pc) && KnownStore(w, d, pc) && KnownGet(w, d, pc)
  }

  /** The file a process created, also after it returned success. */
  function OwnOf(pc: Pc): Option<Inode> {
    if JobOf(pc).Some? then Some(JobOf(pc).value.inode)
    else if FetchOf(pc).Some? then Some(FetchOf(pc).value.inode)
    else if pc.Stored? then Some(pc.job.inode)
    else if pc.Fetched? || pc.FetchedEarlier? then Some(pc.fetch.inode)
    else None
  }

  // ---- interference ----

  /** Only a process's own file, at a path that is no blob's, may be unlinked by it. */
  ghost predicate Spare(w: World, d: Disk, p: Path, mine: Option<Inode>) {
    mine.Some? && p in d.cur && d.cur[p] == Link(mine.value) && !IsBlobPath(w, p)
  }

  ghost predicate Unpublished(w: World, d: Disk, i: Inode) {
    forall p :: Linked(d, p, i) ==> !IsBlobPath(w, p)
  }

  ghost predicate KeepsFile(d: Disk, d': Disk, i: Inode)
    requires i in d.files
  {
    i in d'.files && d'.files[i].data == d.files[i].data && (d.files[i].synced ==> d'.files[i].synced)
  }

  /** What a step of the process that owns `mine` leaves alone. */
  ghost predicate Frame(w: World, d: Disk, d': Disk, mine: Option<Inode>) {
    && (forall p :: p in d.cur && !Spare(w, d, p, mine) ==> p in d'.cur && d'.cur[p] == d.cur[p])
    && (forall p :: DurableEntry(d, p) && !Spare(w, d, p, mine) ==> DurableEntry(d', p))
    && (forall i :: i in d.files ==> i in d'.files && (KeepsFile(d, d', i) || (mine == Some(i) && Unpublished(w, d, i))))
    && (forall p, i: Inode :: Linked(d', p, i) ==> Linked(d, p, i) || mine == Some(i) || i !in d.files)
  }

  ghost predicate Apart(d: Disk, pc: Pc, mine: Option<Inode>) {
    OwnOf(pc).Some? ==> OwnOf(pc).value in d.files && OwnOf(pc) != mine
  }

  /** No file holds other bytes with b's digest. */
  ghost predicate NoCollision(w: World, d: Disk, b: Bytes) {
    forall i :: i in d.files ==> SameIfSameDigest(w, d.files[i].data, b)
  }

  predicate SameIfSameDigest(w: World, x: Bytes, b: Bytes) {
    Digest(w, x) == Digest(w, b) ==> x == b
  }

  /** The bytes a process has read or has returned. */
  function HeldBy(pc: Pc): Option<Bytes> {
    match pc
    case StreamCopy(_, _, sent) => Some(sent)
    case Streamed(_, sent) => Some(sent)
    case Stored(job, _) => Some(job.data)
    case Fetched(f) => Some(f.data)
    case FetchedEarlier(f) => Some(f.data)
    case _ =>
      if JobOf(pc).Some? then Some(JobOf(pc).value.data)
      else if FetchOf(pc).Some? then Some(FetchOf(pc).value.data) else None
  }

  /** No file and no process holds other bytes with b's digest. */
  ghost predicate NoCollisionIn(w: World, s: State, b: Bytes) {
    && NoCollision(w, s.disk, b)
    && forall pid :: pid in s.procs && HeldBy(s.procs[pid]).Some? ==> SameIfSameDigest(w, HeldBy(s.procs[pid]).value, b)
  }

  lemma BlobPathInTree(w: World, digest: string)
    ensures BlobTree(w) <= BlobPath(w, digest) && BlobTree(w) <= BlobDir(w, digest)
    ensures Parent(BlobPath(w, digest)) == BlobDir(w, digest)
    ensures BlobPath(w, digest)[|w.root| + 3] == digest && |BlobPath(w, digest)| == |w.root| + 4
  {
  }

  lemma DigestPath(w: World, data: Bytes)
    ensures IsDigest(Digest(w, data)) && IsBlobPath(w, BlobPath(w, Digest(w, data)))
  {
    HexOfSumIsDigest(w.sha(data));
  }

  lemma FrameBlob(w: World, d: Disk, d': Disk, mine: Option<Inode>, digest: string)
    requires Frame(w, d, d', mine) && HasBlob(w, d, digest) && IsDigest(digest)
    ensures HasBlob(w, d', digest) && BlobInode(w, d', digest) == BlobInode(w, d, digest)
    ensures KeepsFile(d, d', BlobInode(w, d, digest))
  {
    BlobPathInTree(w, digest);
    assert Linked(d, BlobPath(w, digest), BlobInode(w, d, digest));
  }

  lemma FrameDirs(w: World, d: Disk, d': Disk, mine: Option<Inode>, p: Path, n: nat)
    requires Frame(w, d, d', mine) && DirsBelow(d, p, n)
    ensures DirsBelow(d', p, n)
  {
  }

  lemma FrameEntries(w: World, d: Disk, d': Disk, mine: Option<Inode>, p: Path, n: nat)
    requires Frame(w, d, d', mine) && EntriesBeyond(d, p, n)
    requires ValidDisk(d) && p in d.cur && (IsBlobPath(w, p) || IsDir(d, p))
    ensures EntriesBeyond(d', p, n)
  {
    forall k | n < k <= |p|
      ensures DurableEntry(d', p[..k])
    {
      PrefixNotSpare(w, d, mine, p, k);
    }
  }

  lemma PrefixNotSpare(w: World, d: Disk, mine: Option<Inode>, p: Path, k: nat)
    requires ValidDisk(d) && p in d.cur && k <= |p|
    requires IsBlobPath(w, p) || IsDir(d, p)
    ensures !Spare(w, d, p[..k], mine)
  {
    if k == |p| {
      assert p[..k] == p;
    } else {
      assert IsDir(d, p[..k]);
    }
  }

  lemma FrameDurablePath(w: World, d: Disk, d': Disk, mine: Option<Inode>, p: Path)
    requires Frame(w, d, d', mine) && ValidDisk(d) && DurablePath(d, p)
    requires p in d.cur && (IsBlobPath(w, p) || IsDir(d, p))
    ensures DurablePath(d', p)
  {
    forall k | 0 <= k <= |p|
      ensures DurableEntry(d', p[..k])
    {
      PrefixNotSpare(w, d, mine, p, k);
    }
  }

  lemma FrameRoot(w: World, d: Disk, d': Disk, mine: Option<Inode>)
    requires Frame(w, d, d', mine) && ValidDisk(d) && RootSafe(w, d)
    ensures RootSafe(w, d')
  {
    assert BlobTree(w)[..|w.root| + 1] == BlobTree(w) && TempDir(w)[..|w.root| + 1] == TempDir(w);
    FrameDurablePath(w, d, d', mine, BlobTree(w));
    FrameDurablePath(w, d, d', mine, TempDir(w));
  }

  lemma FrameOpen(w: World, d: Disk, d': Disk, mine: Option<Inode>, pc: Pc)
    requires Frame(w, d, d', mine) && ValidDisk(d) && KnownOpen(w, d, pc)
    ensures KnownOpen(w, d', pc)
  {
    match pc
    case OpenSync(which, dir) =>
      var tree := StoreDirs(w)[which];
      assert BlobTree(w)[..|w.root| + 1] == BlobTree(w) && tree[..|w.root| + 1] == tree;
      FrameEntries(w, d, d', mine, tree, |dir| + 1);
      if which == 1 {
        FrameDurablePath(w, d, d', mine, BlobTree(w));
      }
    case Opened => FrameRoot(w, d, d', mine);
    case _ =>
  }

  lemma FramePlaced(w: World, d: Disk, d': Disk, mine: Option<Inode>, job: Job, deduped: bool)
    requires Frame(w, d, d', mine) && ValidDisk(d) && Placed(w, d, job, deduped)
    ensures Placed(w, d', job, deduped)
    ensures SyncedBlob(w, d, Digest(w, job.data), |job.data|) ==> SyncedBlob(w, d', Digest(w, job.data), |job.data|)
    ensures SafeBlob(w, d, Digest(w, job.data), |job.data|) ==> SafeBlob(w, d', Digest(w, job.data), |job.data|)
  {
    var digest := Digest(w, job.data);
    DigestPath(w, job.data);
    FrameBlob(w, d, d', mine, digest);
    BlobPathInTree(w, digest);
    if SafeBlob(w, d, digest, |job.data|) {
      FrameDurablePath(w, d, d', mine, BlobPath(w, digest));
    }
  }

  lemma FrameStaged(w: World, d: Disk, d': Disk, mine: Option<Inode>, tmp: Path, i: Inode)
    requires Frame(w, d, d', mine) && Owned(d, tmp, i) && mine != Some(i)
    ensures Owned(d', tmp, i) && KeepsFile(d, d', i)
    ensures Private(d, tmp, i) ==> Private(d', tmp, i)
  {
  }

  lemma FrameStaging(w: World, d: Disk, d': Disk, mine: Option<Inode>, pc: Pc)
    requires Frame(w, d, d', mine) && ValidDisk(d) && Apart(d, pc, mine) && KnownStore(w, d, pc) && IsStagingPc(pc)
    ensures KnownStore(w, d', pc)
  {
    FrameRoot(w, d, d', mine);
    FrameStaged(w, d, d', mine, JobOf(pc).value.tmp, JobOf(pc).value.inode);
  }

  lemma FramePlacing(w: World, d: Disk, d': Disk, mine: Option<Inode>, pc: Pc)
    requires Frame(w, d, d', mine) && ValidDisk(d) && Apart(d, pc, mine) && KnownStore(w, d, pc) && IsPlacingPc(pc)
    ensures KnownStore(w, d', pc)
  {
    FrameRoot(w, d, d', mine);
    var job := JobOf(pc).value;
    FrameStaged(w, d, d', mine, job.tmp, job.inode);
    match pc
    case SyncBlob(_, deduped) => FramePlaced(w, d, d', mine, job, deduped);
    case SyncChain(_, deduped, dir) =>
      BlobPathInTree(w, Digest(w, job.data));
      DigestPath(w, job.data);
      FramePlaced(w, d, d', mine, job, deduped);
      FrameEntries(w, d, d', mine, BlobPath(w, Digest(w, job.data)), |dir| + 1);
    case _ =>
  }

  lemma FrameVerifying(w: World, d: Disk, d': Disk, mine: Option<Inode>, pc: Pc)
    requires Frame(w, d, d', mine) && ValidDisk(d) && Apart(d, pc, mine) && KnownStore(w, d, pc)
    requires pc.VerifyStat? || pc.VerifyOpen? || pc.VerifyRead?
    ensures KnownStore(w, d', pc)
  {
    FrameRoot(w, d, d', mine);
    var job := JobOf(pc).value;
    FrameStaged(w, d, d', mine, job.tmp, job.inode);
    if pc.VerifyRead? {
      DigestPath(w, job.data);
      FrameBlob(w, d, d', mine, Digest(w, job.data));
    }
  }

  lemma FrameEnding(w: World, d: Disk, d': Disk, mine: Option<Inode>, pc: Pc)
    requires Frame(w, d, d', mine) && ValidDisk(d) && Apart(d, pc, mine) && KnownStore(w, d, pc)
    requires pc.Cleanup? || pc.Stored?
    ensures KnownStore(w, d', pc)
  {
    match pc
    case Cleanup(job, kept) =>
      FrameStaged(w, d, d', mine, job.tmp, job.inode);
      if kept.Kept? {
        FramePlaced(w, d, d', mine, job, kept.deduped);
      }
    case Stored(job, deduped) => FramePlaced(w, d, d', mine, job, deduped);
  }

  lemma FrameStore(w: World, d: Disk, d': Disk, mine: Option<Inode>, pc: Pc)
    requires Frame(w, d, d', mine) && ValidDisk(d) && Apart(d, pc, mine) && KnownStore(w, d, pc)
    ensures KnownStore(w, d', pc)
  {
    if IsStagingPc(pc) {
      FrameStaging(w, d, d', mine, pc);
    } else if IsPlacingPc(pc) {
      FramePlacing(w, d, d', mine, pc);
    } else if pc.VerifyStat? || pc.VerifyOpen? || pc.VerifyRead? {
      FrameVerifying(w, d, d', mine, pc);
    } else if pc.Cleanup? || pc.Stored? {
      FrameEnding(w, d, d', mine, pc);
    } else if pc.Create? {
      FrameRoot(w, d, d', mine);
    }
  }

  lemma FrameGet(w: World, d: Disk, d': Disk, mine: Option<Inode>, pc: Pc)
    requires Frame(w, d, d', mine) && ValidDisk(d) && Apart(d, pc, mine) && KnownGet(w, d, pc)
    ensures KnownGet(w, d', pc)
  {
    if FetchOf(pc).Some? {
      FrameStaged(w, d, d', mine, FetchOf(pc).value.tmp, FetchOf(pc).value.inode);
    }
    match pc
    case StreamCopy(digest, _, _) => FrameBlob(w, d, d', mine, digest);
    case FetchCreate(digest, _, _) => FrameBlob(w, d, d', mine, digest);
    case FetchCopy(f, _) => FrameBlob(w, d, d', mine, f.digest);
    case _ =>
  }

  /** No step of another process spoils what a process knows. */
  lemma Stable(w: World, d: Disk, d': Disk, mine: Option<Inode>, pc: Pc)
    requires Frame(w, d, d', mine) && ValidDisk(d) && Apart(d, pc, mine) && Known(w, d, pc)
    ensures Known(w, d', pc)
  {
    FrameOpen(w, d, d', mine, pc);
    FrameStore(w, d, d', mine, pc);
    FrameGet(w, d, d', mine, pc);
  }
}
