/** Every step of a process re-establishes what the process knows and stays within its frame. */
module CasSteps {
  import opened Octets
  import opened Wrappers
  import opened Filesystem
  import opened CasProtocol
  import opened CasInvariant

  /** A well-behaved step of one process. */
  ghost predicate Sound(w: World, d: Disk, pc: Pc, t: Turn) {
    t.Turn? ==>
      && ValidDisk(t.disk) && Known(w, t.disk, t.pc) && Frame(w, d, t.disk, OwnOf(pc))
      && (OwnOf(t.pc).Some? ==>
            && OwnOf(t.pc).value in t.disk.files
            && (OwnOf(t.pc) == OwnOf(pc) || (OwnOf(pc) == None && OwnOf(t.pc).value !in d.files)))
  }

  ghost predicate Ready(w: World, d: Disk, pc: Pc) {
    ValidDisk(d) && Known(w, d, pc) && (OwnOf(pc).Some? ==> OwnOf(pc).value in d.files)
  }

  lemma SameDiskFrame(w: World, d: Disk, mine: Option<Inode>)
    ensures Frame(w, d, d, mine)
  {
  }

  lemma MkdirFrame(w: World, d: Disk, p: Path, mine: Option<Inode>)
    requires ValidDisk(d) && p !in d.cur && IsDir(d, Parent(p)) && |p| > 0
    ensures ValidDisk(Mkdir(d, p)) && Frame(w, d, Mkdir(d, p), mine)
  {
    PrefixesExist(d, p);
    var d' := Mkdir(d, p);
    forall q, k | q in d'.cur && 0 <= k < |q|
      ensures IsDir(d', q[..k])
    {
    }
    assert forall q, i: Inode :: Linked(d', q, i) ==> Linked(d, q, i);
  }

  lemma PrefixesExist(d: Disk, p: Path)
    requires ValidDisk(d) && |p| > 0 && IsDir(d, Parent(p))
    ensures forall k :: 0 <= k < |p| ==> IsDir(d, p[..k])
  {
    forall k | 0 <= k < |p|
      ensures IsDir(d, p[..k])
    {
      if k < |p| - 1 {
        assert Parent(p)[..k] == p[..k];
      }
    }
  }

  lemma CreateFrame(w: World, d: Disk, p: Path, i: Inode)
    requires ValidDisk(d) && p !in d.cur && IsDir(d, Parent(p)) && |p| > 0 && i !in d.files
    ensures ValidDisk(CreateFile(d, p, i)) && Frame(w, d, CreateFile(d, p, i), None)
    ensures Private(CreateFile(d, p, i), p, i)
  {
    PrefixesExist(d, p);
    var d' := CreateFile(d, p, i);
    forall q, j: Inode | Linked(d', q, j)
      ensures if j == i then q == p else Linked(d, q, j)
    {
      if q != p {
        assert Linked(d, q, j);
      }
    }
  }

  lemma LinkFrame(w: World, d: Disk, p: Path, i: Inode)
    requires ValidDisk(d) && p !in d.cur && IsDir(d, Parent(p)) && |p| > 0 && i in d.files
    ensures ValidDisk(LinkFile(d, p, i)) && Frame(w, d, LinkFile(d, p, i), Some(i))
  {
    PrefixesExist(d, p);
    var d' := LinkFile(d, p, i);
    forall q, j: Inode | Linked(d', q, j)
      ensures Linked(d, q, j) || j == i
    {
    }
  }

  lemma AppendFrame(w: World, d: Disk, i: Inode, chunk: Bytes)
    requires ValidDisk(d) && i in d.files && Unpublished(w, d, i)
    ensures ValidDisk(Append(d, i, chunk)) && Frame(w, d, Append(d, i, chunk), Some(i))
  {
    var d' := Append(d, i, chunk);
    assert forall q, j: Inode :: Linked(d', q, j) <==> Linked(d, q, j);
  }

  lemma SyncFileFrame(w: World, d: Disk, i: Inode, mine: Option<Inode>)
    requires ValidDisk(d) && i in d.files
    ensures ValidDisk(SyncFile(d, i)) && Frame(w, d, SyncFile(d, i), mine)
  {
    var d' := SyncFile(d, i);
    assert forall q, j: Inode :: Linked(d', q, j) <==> Linked(d, q, j);
  }

  lemma FlushFrame(w: World, d: Disk, ps: set<Path>, inodes: set<Inode>, mine: Option<Inode>)
    requires ValidDisk(d) && ([] in ps ==> [] in d.cur)
    ensures ValidDisk(Flush(d, ps, inodes)) && Frame(w, d, Flush(d, ps, inodes), mine)
    ensures forall p :: p in ps && p in d.cur ==> DurableEntry(Flush(d, ps, inodes), p)
  {
    var d' := Flush(d, ps, inodes);
    forall q, j: Inode | Linked(d', q, j)
      ensures Linked(d, q, j)
    {
    }
  }

  lemma SyncDirFrame(w: World, d: Disk, dir: Path, mine: Option<Inode>)
    requires ValidDisk(d)
    ensures ValidDisk(SyncDir(d, dir)) && Frame(w, d, SyncDir(d, dir), mine)
    ensures SyncDir(d, dir).cur == d.cur
    ensures SyncDir(d, dir).files == d.files
    ensures forall p :: p in d.cur && ChildOf(dir, p) ==> DurableEntry(SyncDir(d, dir), p)
  {
    FlushFrame(w, d, set p | p in d.cur.Keys + d.dur.Keys && ChildOf(dir, p), {}, mine);
  }

  lemma UnlinkFrame(w: World, d: Disk, p: Path, i: Inode)
    requires ValidDisk(d) && p in d.cur && d.cur[p] == Link(i) && !IsBlobPath(w, p)
    ensures ValidDisk(Unlink(d, p)) && Frame(w, d, Unlink(d, p), Some(i))
  {
    var d' := Unlink(d, p);
    forall q, k | q in d'.cur && 0 <= k < |q|
      ensures IsDir(d', q[..k])
    {
      assert IsDir(d, q[..k]);
    }
    assert forall q, j: Inode :: Linked(d', q, j) ==> Linked(d, q, j);
  }

  lemma StagingOutsideTree(w: World, p: Path)
    requires IsStaging(w, p)
    ensures !(BlobTree(w) <= p) && !IsBlobPath(w, p)
  {
    assert p[|w.root|] == TempDir(w)[|w.root|];
    BlobPathInTree(w, p[|p| - 1]);
  }

  /** No blob's path, nor any directory above one, is named like a fetch's temporary. */
  lemma FetchNameApart(w: World, p: Path)
    requires IsFetchName(p)
    ensures !IsBlobPath(w, p)
    ensures forall x :: !(BlobTree(w) <= p <= BlobDir(w, x))
  {
    assert p[|p| - 1][1] == FETCH_PREFIX[1] == 'u';
    assert forall x :: BlobTree(w) <= p <= BlobDir(w, x) ==> p[|p| - 1] == BlobDir(w, x)[|p| - 1];
  }

  // ---- Open ----

  lemma OpenMkdirSound(w: World, d: Disk, which: nat, depth: nat)
    requires Ready(w, d, OpenMkdir(which, depth))
    ensures Sound(w, d, OpenMkdir(which, depth), StepOpenMkdir(w, d, which, depth))
  {
    var tree := StoreDirs(w)[which];
    var p := tree[..depth];
    var t := StepOpenMkdir(w, d, which, depth);
    assert tree[..depth - 1] == Parent(p);
    if p !in d.cur && IsDir(d, Parent(p)) {
      MkdirFrame(w, d, p, None);
    } else {
      SameDiskFrame(w, d, None);
    }
    if !t.pc.OpenFailed? {
      FrameDirs(w, d, t.disk, None, tree, depth);
      assert IsDir(t.disk, tree[..depth]);
      assert DirsBelow(t.disk, tree, depth + 1);
      if which == 1 {
        FrameDirs(w, d, t.disk, None, BlobTree(w), |w.root| + 2);
      }
      assert TempDir(w)[..0] == [];
    }
  }

  lemma EntriesAfterSync(w: World, d: Disk, dir: Path, p: Path)
    requires ValidDisk(d) && dir < p && p in d.cur && EntriesBeyond(d, p, |dir| + 1)
    ensures EntriesBeyond(SyncDir(d, dir), p, |dir|)
  {
    SyncDirFrame(w, d, dir, None);
    forall k | |dir| < k <= |p|
      ensures DurableEntry(SyncDir(d, dir), p[..k])
    {
      if k == |dir| + 1 {
        assert p[..k][..|dir|] == dir;
        if k == |p| {
          assert p[..k] == p;
        } else {
          assert IsDir(d, p[..k]);
        }
      }
    }
  }

  /** What Open knows after one fsync of its chain. */
  lemma OpenSynced(w: World, d: Disk, which: nat, dir: Path)
    requires Ready(w, d, OpenSync(which, dir))
    ensures var d' := SyncDir(d, dir); var tree := StoreDirs(w)[which];
      && ValidDisk(d') && Frame(w, d, d', None) && TreesExist(w, d') && EntriesBeyond(d', tree, |dir|)
      && (which == 1 ==> DurablePath(d', BlobTree(w)))
  {
    var tree := StoreDirs(w)[which];
    SyncDirFrame(w, d, dir, None);
    assert BlobTree(w)[..|w.root| + 1] == BlobTree(w) && tree[..|w.root| + 1] == tree;
    FrameDirs(w, d, SyncDir(d, dir), None, BlobTree(w), |w.root| + 2);
    FrameDirs(w, d, SyncDir(d, dir), None, TempDir(w), |w.root| + 2);
    if which == 1 {
      FrameDurablePath(w, d, SyncDir(d, dir), None, BlobTree(w));
    }
    if dir != tree {
      EntriesAfterSync(w, d, dir, tree);
    }
  }

  lemma WholeChain(d: Disk, tree: Path)
    requires ValidDisk(d) && EntriesBeyond(d, tree, 0)
    ensures DurablePath(d, tree)
  {
    assert tree[..0] == [];
  }

  lemma OpenSyncSound(w: World, d: Disk, which: nat, dir: Path)
    requires Ready(w, d, OpenSync(which, dir))
    ensures Sound(w, d, OpenSync(which, dir), StepOpenSync(w, d, which, dir))
  {
    OpenSynced(w, d, which, dir);
    if !IsDir(d, dir) {
      SameDiskFrame(w, d, None);
    } else if dir == [] {
      WholeChain(SyncDir(d, dir), StoreDirs(w)[which]);
    }
  }

  // ---- Write, WriteFile ----

  lemma CreateSound(w: World, d: Disk, want: Option<nat>, c: Choice)
    requires Ready(w, d, Create(want))
    ensures Sound(w, d, Create(want), StepCreate(w, d, want, c))
  {
    var tmp := TempDir(w) + ["duro-put-" + c.name];
    if !IsDir(d, TempDir(w)) {
      SameDiskFrame(w, d, None);
    } else if tmp !in d.cur && c.inode !in d.files {
      assert Parent(tmp) == TempDir(w);
      CreateFrame(w, d, tmp, c.inode);
      FrameRoot(w, d, CreateFile(d, tmp, c.inode), None);
    }
  }

  lemma ChunkSound(w: World, d: Disk, job: Job, chunk: Bytes, next: Pc)
    requires Ready(w, d, Copy(job))
    requires next == Cleanup(job, NotKept) || (next == Copy(job.(data := job.data + chunk)) && !Overflows(job.data, chunk))
    ensures Sound(w, d, Copy(job), Turn(Append(d, job.inode, chunk), next))
  {
    StagingOutsideTree(w, job.tmp);
    AppendFrame(w, d, job.inode, chunk);
    var d' := Append(d, job.inode, chunk);
    FrameRoot(w, d, d', Some(job.inode));
    assert forall q :: Linked(d', q, job.inode) <==> Linked(d, q, job.inode);
  }

  lemma CopySound(w: World, d: Disk, job: Job, c: Choice)
    requires Ready(w, d, Copy(job))
    ensures Sound(w, d, Copy(job), StepCopy(d, job, c))
  {
    if c.chunk == [] || Overflows(job.data, c.chunk) {
      SameDiskFrame(w, d, Some(job.inode));
    } else {
      ChunkSound(w, d, job, c.chunk, Copy(job.(data := job.data + c.chunk)));
    }
  }

  lemma SyncTempSound(w: World, d: Disk, job: Job)
    requires Ready(w, d, SyncTemp(job))
    ensures Sound(w, d, SyncTemp(job), StepSyncTemp(d, job))
  {
    SyncFileFrame(w, d, job.inode, Some(job.inode));
    FrameRoot(w, d, SyncFile(d, job.inode), Some(job.inode));
    assert forall q :: Linked(SyncFile(d, job.inode), q, job.inode) <==> Linked(d, q, job.inode);
  }

  lemma CheckSizeSound(w: World, d: Disk, job: Job)
    requires Ready(w, d, CheckSize(job))
    ensures Sound(w, d, CheckSize(job), StepCheckSize(d, job))
  {
    SameDiskFrame(w, d, Some(job.inode));
    assert BlobDir(w, Digest(w, job.data))[..0] == [];
  }

  lemma MkdirKeepsReady(w: World, d: Disk, job: Job, p: Path)
    requires ValidDisk(d) && RootSafe(w, d) && ReadyToLink(w, d, job)
    requires p !in d.cur && IsDir(d, Parent(p)) && |p| > 0
    ensures RootSafe(w, Mkdir(d, p)) && ReadyToLink(w, Mkdir(d, p), job)
  {
    MkdirFrame(w, d, p, None);
    FrameRoot(w, d, Mkdir(d, p), None);
    FrameStaged(w, d, Mkdir(d, p), None, job.tmp, job.inode);
  }

  /** The disk and the frame of one level of MkdirAll. */
  lemma MakeDirsFrame(w: World, d: Disk, job: Job, depth: nat)
    requires Ready(w, d, MakeDirs(job, depth)) && StepMakeDirs(w, d, job, depth).Turn?
    ensures var d' := StepMakeDirs(w, d, job, depth).disk;
      && ValidDisk(d') && Frame(w, d, d', Some(job.inode)) && Frame(w, d, d', None)
      && RootSafe(w, d') && ReadyToLink(w, d', job) && d'.files == d.files
  {
    var dir := BlobDir(w, Digest(w, job.data));
    var p := dir[..depth];
    if p !in d.cur && IsDir(d, Parent(p)) {
      MkdirFrame(w, d, p, Some(job.inode));
      MkdirFrame(w, d, p, None);
      MkdirKeepsReady(w, d, job, p);
    } else {
      SameDiskFrame(w, d, Some(job.inode));
      SameDiskFrame(w, d, None);
    }
  }

  lemma MakeDirsDeeper(w: World, d: Disk, job: Job, depth: nat)
    requires Ready(w, d, MakeDirs(job, depth)) && StepMakeDirs(w, d, job, depth).Turn?
    requires !StepMakeDirs(w, d, job, depth).pc.Cleanup?
    ensures DirsBelow(StepMakeDirs(w, d, job, depth).disk, BlobDir(w, Digest(w, job.data)), depth + 1)
  {
    var dir := BlobDir(w, Digest(w, job.data));
    assert dir[..depth - 1] == Parent(dir[..depth]);
  }

  lemma MakeDirsSound(w: World, d: Disk, job: Job, depth: nat)
    requires Ready(w, d, MakeDirs(job, depth))
    ensures Sound(w, d, MakeDirs(job, depth), StepMakeDirs(w, d, job, depth))
  {
    var dir := BlobDir(w, Digest(w, job.data));
    var t := StepMakeDirs(w, d, job, depth);
    if t.Turn? {
      MakeDirsFrame(w, d, job, depth);
      if !t.pc.Cleanup? {
        MakeDirsDeeper(w, d, job, depth);
      }
      MakeDirsKnown(w, t.disk, job, depth, t.pc);
    }
  }

  lemma MakeDirsKnown(w: World, d: Disk, job: Job, depth: nat, next: Pc)
    requires RootSafe(w, d) && ReadyToLink(w, d, job) && 1 <= depth <= |BlobDir(w, Digest(w, job.data))|
    requires !next.Cleanup? ==> DirsBelow(d, BlobDir(w, Digest(w, job.data)), depth + 1)
    requires next in {Cleanup(job, NotKept), if depth == |BlobDir(w, Digest(w, job.data))| then LinkBlob(job) else MakeDirs(job, depth + 1)}
    ensures Known(w, d, next)
  {
    var dir := BlobDir(w, Digest(w, job.data));
    assert dir[..|dir|] == dir;
  }

  lemma LinkBlobSound(w: World, d: Disk, job: Job)
    requires Ready(w, d, LinkBlob(job))
    ensures Sound(w, d, LinkBlob(job), StepLinkBlob(w, d, job))
  {
    var blob := BlobPath(w, Digest(w, job.data));
    BlobPathInTree(w, Digest(w, job.data));
    if blob !in d.cur {
      LinkFrame(w, d, blob, job.inode);
      FrameRoot(w, d, LinkFile(d, blob, job.inode), Some(job.inode));
    } else {
      SameDiskFrame(w, d, Some(job.inode));
    }
  }

  lemma VerifySound(w: World, d: Disk, job: Job)
    requires Ready(w, d, VerifyStat(job))
    ensures Sound(w, d, VerifyStat(job), StepVerifyStat(w, d, job))
    ensures Sound(w, d, VerifyOpen(job), StepVerifyOpen(w, d, job))
  {
    SameDiskFrame(w, d, Some(job.inode));
    var blob := BlobPath(w, Digest(w, job.data));
    if blob in d.cur && d.cur[blob].Link? {
      assert Linked(d, blob, d.cur[blob].inode);
    }
  }

  lemma VerifyReadSound(w: World, d: Disk, job: Job, i: Inode, seen: Bytes, c: Choice)
    requires Ready(w, d, VerifyRead(job, i, seen))
    ensures Sound(w, d, VerifyRead(job, i, seen), StepVerifyRead(w, d, job, i, seen, c))
  {
    SameDiskFrame(w, d, Some(job.inode));
  }

  lemma SyncBlobSound(w: World, d: Disk, job: Job, deduped: bool)
    requires Ready(w, d, SyncBlob(job, deduped))
    ensures Sound(w, d, SyncBlob(job, deduped), StepSyncBlob(w, d, job, deduped))
  {
    var digest := Digest(w, job.data);
    BlobPathInTree(w, digest);
    var i := BlobInode(w, d, digest);
    SyncFileFrame(w, d, i, Some(job.inode));
    var d' := SyncFile(d, i);
    FrameRoot(w, d, d', Some(job.inode));
    FramePlaced(w, d, d', Some(job.inode), job, deduped);
    assert BlobTree(w)[..|w.root|] == w.root;
  }

  lemma ChainComplete(w: World, d: Disk, digest: string)
    requires RootSafe(w, d) && EntriesBeyond(d, BlobPath(w, digest), |w.root|)
    ensures DurablePath(d, BlobPath(w, digest))
  {
    var blob := BlobPath(w, digest);
    forall k | 0 <= k <= |blob|
      ensures DurableEntry(d, blob[..k])
    {
      if k <= |w.root| {
        assert blob[..k] == BlobTree(w)[..k];
      }
    }
  }

  /** One level of syncChain: what the process knows of its blob carries over, one more entry is on disk. */
  lemma SyncLevel(w: World, d: Disk, job: Job, deduped: bool, dir: Path)
    requires Ready(w, d, SyncChain(job, deduped, dir)) && IsDir(d, dir)
    ensures RootSafe(w, SyncDir(d, dir)) && HoldsTemp(w, SyncDir(d, dir), job)
    ensures Placed(w, SyncDir(d, dir), job, deduped)
    ensures SyncedBlob(w, SyncDir(d, dir), Digest(w, job.data), |job.data|)
    ensures EntriesBeyond(SyncDir(d, dir), BlobPath(w, Digest(w, job.data)), |dir|)
  {
    BlobPathInTree(w, Digest(w, job.data));
    SyncDirFrame(w, d, dir, Some(job.inode));
    FrameRoot(w, d, SyncDir(d, dir), Some(job.inode));
    FramePlaced(w, d, SyncDir(d, dir), Some(job.inode), job, deduped);
    EntriesAfterSync(w, d, dir, BlobPath(w, Digest(w, job.data)));
  }

  lemma ParentInChain(top: Path, dir: Path, p: Path)
    requires top <= dir <= p && dir != top
    ensures top <= Parent(dir) <= p && |Parent(dir)| + 1 == |dir|
  {
  }

  lemma SyncChainUp(w: World, d: Disk, job: Job, deduped: bool, dir: Path)
    requires Ready(w, d, SyncChain(job, deduped, dir)) && IsDir(d, dir) && dir != w.root
    ensures Sound(w, d, SyncChain(job, deduped, dir), Turn(SyncDir(d, dir), SyncChain(job, deduped, Parent(dir))))
  {
    SyncLevel(w, d, job, deduped, dir);
    SyncDirFrame(w, d, dir, Some(job.inode));
    ParentInChain(w.root, dir, BlobDir(w, Digest(w, job.data)));
  }

  lemma SyncChainTop(w: World, d: Disk, job: Job, deduped: bool)
    requires Ready(w, d, SyncChain(job, deduped, w.root)) && IsDir(d, w.root)
    ensures Sound(w, d, SyncChain(job, deduped, w.root), Turn(SyncDir(d, w.root), Cleanup(job, Kept(deduped))))
  {
    SyncLevel(w, d, job, deduped, w.root);
    SyncDirFrame(w, d, w.root, Some(job.inode));
    ChainComplete(w, SyncDir(d, w.root), Digest(w, job.data));
  }

  lemma SyncChainSound(w: World, d: Disk, job: Job, deduped: bool, dir: Path)
    requires Ready(w, d, SyncChain(job, deduped, dir))
    ensures Sound(w, d, SyncChain(job, deduped, dir), StepSyncChain(w, d, job, deduped, dir))
  {
    if !IsDir(d, dir) {
      SameDiskFrame(w, d, Some(job.inode));
    } else if dir == w.root {
      SyncChainTop(w, d, job, deduped);
    } else {
      ParentInChain(w.root, dir, BlobDir(w, Digest(w, job.data)));
      SyncChainUp(w, d, job, deduped, dir);
    }
  }

  lemma CleanupSound(w: World, d: Disk, job: Job, kept: Kept)
    requires Ready(w, d, Cleanup(job, kept))
    ensures Sound(w, d, Cleanup(job, kept), Turn(Unlink(d, job.tmp), AfterCleanup(job, kept)))
  {
    StagingOutsideTree(w, job.tmp);
    UnlinkFrame(w, d, job.tmp, job.inode);
    if kept.Kept? {
      // the kept blob lies outside the staging directory, so removing the temporary leaves it alone
      FramePlaced(w, d, Unlink(d, job.tmp), Some(job.inode), job, kept.deduped);
    }
    AfterCleanupKnown(w, Unlink(d, job.tmp), job, kept);
  }

  lemma AfterCleanupKnown(w: World, d: Disk, job: Job, kept: Kept)
    requires kept.Kept? ==> Keeping(w, d, job, kept.deduped)
    ensures Known(w, d, AfterCleanup(job, kept))
  {
  }

  // ---- GetToWriter, GetToFile ----

  lemma GetOpenSound(w: World, d: Disk, digest: string, to: Option<Path>)
    requires Ready(w, d, GetOpen(digest, to))
    ensures Sound(w, d, GetOpen(digest, to), StepGetOpen(w, d, digest, to))
  {
    SameDiskFrame(w, d, None);
    var blob := BlobPath(w, digest);
    if blob in d.cur && d.cur[blob].Link? {
      assert Linked(d, blob, d.cur[blob].inode);
    }
  }

  lemma GetStatSound(w: World, d: Disk, digest: string, dest: Path)
    requires Ready(w, d, GetStat(digest, dest))
    ensures Sound(w, d, GetStat(digest, dest), StepGetStat(d, digest, dest))
  {
    SameDiskFrame(w, d, None);
  }

  lemma StreamCopySound(w: World, d: Disk, digest: string, i: Inode, sent: Bytes, c: Choice)
    requires Ready(w, d, StreamCopy(digest, i, sent))
    ensures Sound(w, d, StreamCopy(digest, i, sent), StepStreamCopy(w, d, digest, i, sent, c))
  {
    SameDiskFrame(w, d, None);
  }

  lemma FetchCreated(w: World, d: Disk, digest: string, dest: Path, i: Inode, tmp: Path, file: Inode)
    requires Ready(w, d, FetchCreate(digest, dest, i)) && IsDir(d, Parent(dest))
    requires ChildOf(Parent(dest), tmp) && Parent(tmp) == Parent(dest) && tmp !in d.cur && file !in d.files
    requires IsFetchName(tmp)
    ensures Sound(w, d, FetchCreate(digest, dest, i),
                  Turn(CreateFile(d, tmp, file), FetchCopy(Fetch(digest, dest, tmp, file, []), i)))
  {
    CreateFrame(w, d, tmp, file);
    FrameBlob(w, d, CreateFile(d, tmp, file), None, digest);
  }

  lemma FetchCreateSound(w: World, d: Disk, digest: string, dest: Path, i: Inode, c: Choice)
    requires Ready(w, d, FetchCreate(digest, dest, i))
    ensures Sound(w, d, FetchCreate(digest, dest, i), StepFetchCreate(d, digest, dest, i, c))
  {
    var tmp := Parent(dest) + [FETCH_PREFIX + c.name];
    if !IsDir(d, Parent(dest)) {
      SameDiskFrame(w, d, None);
    } else if tmp !in d.cur && c.inode !in d.files {
      assert Parent(tmp) == Parent(dest);
      FetchCreated(w, d, digest, dest, i, tmp, c.inode);
    }
  }

  lemma FetchChunkFrame(w: World, d: Disk, f: Fetch, i: Inode, chunk: Bytes)
    requires Ready(w, d, FetchCopy(f, i))
    ensures var d' := Append(d, f.inode, chunk);
      && ValidDisk(d') && Frame(w, d, d', Some(f.inode)) && FetchStaged(w, d', f.(data := f.data + chunk))
      && HasBlob(w, d', f.digest) && BlobInode(w, d', f.digest) == i && d'.files[i] == d.files[i]
  {
    FetchNameApart(w, f.tmp);
    AppendFrame(w, d, f.inode, chunk);
    BlobPathInTree(w, f.digest);
    assert Linked(d, BlobPath(w, f.digest), i);
    assert forall q :: Linked(Append(d, f.inode, chunk), q, f.inode) <==> Linked(d, q, f.inode);
  }

  lemma FetchChunkSound(w: World, d: Disk, f: Fetch, i: Inode, chunk: Bytes, next: Pc)
    requires Ready(w, d, FetchCopy(f, i))
    requires next == FetchCleanup(f, false)
             || (next == FetchCopy(f.(data := f.data + chunk), i) && f.data + chunk <= d.files[i].data)
    ensures Sound(w, d, FetchCopy(f, i), Turn(Append(d, f.inode, chunk), next))
  {
    FetchChunkFrame(w, d, f, i, chunk);
  }

  lemma FetchCopySound(w: World, d: Disk, f: Fetch, i: Inode, c: Choice)
    requires Ready(w, d, FetchCopy(f, i))
    ensures Sound(w, d, FetchCopy(f, i), StepFetchCopy(d, f, i, c))
  {
    if c.chunk == [] {
      ExitSound(w, d, FetchCopy(f, i), FetchSync(f));
    } else if Overflows(f.data, c.chunk) {
      FetchCleanupKnown(w, d, f);
      ExitSound(w, d, FetchCopy(f, i), FetchCleanup(f, false));
    } else if f.data + c.chunk <= d.files[i].data {
      FetchChunkSound(w, d, f, i, c.chunk, FetchCopy(f.(data := f.data + c.chunk), i));
    }
  }

  lemma FetchSyncSound(w: World, d: Disk, f: Fetch)
    requires Ready(w, d, FetchSync(f))
    ensures Sound(w, d, FetchSync(f), StepFetchSync(w, d, f))
  {
    SyncFileFrame(w, d, f.inode, Some(f.inode));
    assert forall q :: Linked(SyncFile(d, f.inode), q, f.inode) <==> Linked(d, q, f.inode);
  }

  lemma FetchLinked(w: World, d: Disk, f: Fetch)
    requires Ready(w, d, FetchLink(f)) && f.dest !in d.cur && IsDir(d, Parent(f.dest))
    ensures Sound(w, d, FetchLink(f), Turn(LinkFile(d, f.dest, f.inode), FetchSyncDir(f)))
  {
    LinkFrame(w, d, f.dest, f.inode);
  }

  lemma FetchLinkSteps(w: World, d: Disk, f: Fetch)
    requires FetchOwned(w, d, f)
    ensures StepFetchLink(d, f) ==
              if f.dest !in d.cur && IsDir(d, Parent(f.dest)) then Turn(LinkFile(d, f.dest, f.inode), FetchSyncDir(f))
              else Turn(d, FetchCleanup(f, false))
  {
  }

  lemma FetchLinkSound(w: World, d: Disk, f: Fetch)
    requires Ready(w, d, FetchLink(f))
    ensures Sound(w, d, FetchLink(f), StepFetchLink(d, f))
  {
    FetchLinkSteps(w, d, f);
    if f.dest !in d.cur && IsDir(d, Parent(f.dest)) {
      FetchLinked(w, d, f);
    } else {
      FetchCleanupKnown(w, d, f);
      ExitSound(w, d, FetchLink(f), FetchCleanup(f, false));
    }
  }

  lemma FetchDirSynced(w: World, d: Disk, f: Fetch)
    requires Ready(w, d, FetchSyncDir(f)) && IsDir(d, Parent(f.dest))
    ensures Sound(w, d, FetchSyncDir(f), Turn(SyncDir(d, Parent(f.dest)), FetchCleanup(f, true)))
  {
    SyncDirFrame(w, d, Parent(f.dest), Some(f.inode));
  }

  lemma FetchSyncDirSound(w: World, d: Disk, f: Fetch)
    requires Ready(w, d, FetchSyncDir(f))
    ensures Sound(w, d, FetchSyncDir(f),
                  SyncDirStep(d, Parent(f.dest), FetchCleanup(f, true), FetchCleanup(f, false)))
  {
    if IsDir(d, Parent(f.dest)) {
      FetchDirSynced(w, d, f);
    } else {
      FetchCleanupKnown(w, d, f);
      ExitSound(w, d, FetchSyncDir(f), FetchCleanup(f, false));
    }
  }

  lemma UnlinkKeepsDelivered(w: World, d: Disk, f: Fetch)
    requires Delivered(w, d, f) && f.tmp != f.dest
    ensures Delivered(w, Unlink(d, f.tmp), f)
  {
  }

  lemma FetchCleanupSound(w: World, d: Disk, f: Fetch, ok: bool)
    requires Ready(w, d, FetchCleanup(f, ok))
    ensures Sound(w, d, FetchCleanup(f, ok), Turn(Unlink(d, f.tmp), AfterFetch(f, ok)))
  {
    FetchUnlinkFrame(w, d, f);
    if ok {
      UnlinkKeepsDelivered(w, d, f);
    }
    AfterFetchKnown(w, Unlink(d, f.tmp), f, ok);
  }

  lemma AfterFetchKnown(w: World, d: Disk, f: Fetch, ok: bool)
    requires ok ==> Delivered(w, d, f)
    ensures Known(w, d, AfterFetch(f, ok))
  {
  }

  lemma FetchUnlinkFrame(w: World, d: Disk, f: Fetch)
    requires ValidDisk(d) && FetchOwned(w, d, f)
    ensures ValidDisk(Unlink(d, f.tmp)) && Frame(w, d, Unlink(d, f.tmp), Some(f.inode))
  {
    FetchNameApart(w, f.tmp);
    UnlinkFrame(w, d, f.tmp, f.inode);
  }

  // ---- every step ----

  lemma StagingStepSound(w: World, d: Disk, pc: Pc, c: Choice)
    requires Ready(w, d, pc) && IsStagingPc(pc)
    ensures Sound(w, d, pc, Step(w, d, pc, c))
  {
    match pc
    case Copy(job) => CopySound(w, d, job, c);
    case SyncTemp(job) => SyncTempSound(w, d, job);
    case CheckSize(job) => CheckSizeSound(w, d, job);
  }

  lemma PlacingStepSound(w: World, d: Disk, pc: Pc, c: Choice)
    requires Ready(w, d, pc) && IsPlacingPc(pc)
    ensures Sound(w, d, pc, Step(w, d, pc, c))
  {
    if pc.MakeDirs? || pc.LinkBlob? {
      LinkingStepSound(w, d, pc, c);
    } else {
      SyncingStepSound(w, d, pc, c);
    }
  }

  lemma LinkingStepSound(w: World, d: Disk, pc: Pc, c: Choice)
    requires Ready(w, d, pc) && (pc.MakeDirs? || pc.LinkBlob?)
    ensures Sound(w, d, pc, Step(w, d, pc, c))
  {
    match pc
    case MakeDirs(job, depth) => MakeDirsSound(w, d, job, depth);
    case LinkBlob(job) => LinkBlobSound(w, d, job);
  }

  lemma SyncingStepSound(w: World, d: Disk, pc: Pc, c: Choice)
    requires Ready(w, d, pc) && (pc.SyncBlob? || pc.SyncChain?)
    ensures Sound(w, d, pc, Step(w, d, pc, c))
  {
    match pc
    case SyncBlob(job, deduped) => SyncBlobSound(w, d, job, deduped);
    case SyncChain(job, deduped, dir) => SyncChainSound(w, d, job, deduped, dir);
  }

  lemma VerifyingStepSound(w: World, d: Disk, pc: Pc, c: Choice)
    requires Ready(w, d, pc) && (pc.VerifyStat? || pc.VerifyOpen? || pc.VerifyRead?)
    ensures Sound(w, d, pc, Step(w, d, pc, c))
  {
    match pc
    case VerifyStat(job) => VerifySound(w, d, job);
    case VerifyOpen(job) => VerifySound(w, d, job);
    case VerifyRead(job, i, seen) => VerifyReadSound(w, d, job, i, seen, c);
  }

  lemma StoreStepSound(w: World, d: Disk, pc: Pc, c: Choice)
    requires Ready(w, d, pc) && JobOf(pc).Some?
    ensures Sound(w, d, pc, Step(w, d, pc, c))
  {
    if IsStagingPc(pc) {
      StagingStepSound(w, d, pc, c);
    } else if IsPlacingPc(pc) {
      PlacingStepSound(w, d, pc, c);
    } else if pc.Cleanup? {
      CleanupSound(w, d, pc.job, pc.kept);
    } else {
      VerifyingStepSound(w, d, pc, c);
    }
  }

  lemma FillingStepSound(w: World, d: Disk, pc: Pc, c: Choice)
    requires Ready(w, d, pc) && (pc.FetchCopy? || pc.FetchSync?)
    ensures Sound(w, d, pc, Step(w, d, pc, c))
  {
    match pc
    case FetchCopy(f, i) => FetchCopySound(w, d, f, i, c);
    case FetchSync(f) => FetchSyncSound(w, d, f);
  }

  lemma FetchStepSound(w: World, d: Disk, pc: Pc, c: Choice)
    requires Ready(w, d, pc) && FetchOf(pc).Some?
    ensures Sound(w, d, pc, Step(w, d, pc, c))
  {
    match pc
    case FetchLink(f) => FetchLinkSound(w, d, f);
    case FetchSyncDir(f) => FetchSyncDirSound(w, d, f);
    case FetchCleanup(f, ok) => FetchCleanupSound(w, d, f, ok);
    case _ => FillingStepSound(w, d, pc, c);
  }

  predicate IsOpeningPc(pc: Pc) {
    pc.OpenMkdir? || pc.OpenSync?
  }

  lemma OpeningStepSound(w: World, d: Disk, pc: Pc, c: Choice)
    requires Ready(w, d, pc) && IsOpeningPc(pc)
    ensures Sound(w, d, pc, Step(w, d, pc, c))
  {
    match pc
    case OpenMkdir(which, depth) => OpenMkdirSound(w, d, which, depth);
    case OpenSync(which, dir) => OpenSyncSound(w, d, which, dir);
  }

  predicate IsGettingPc(pc: Pc) {
    pc.GetStat? || pc.GetOpen? || pc.StreamCopy? || pc.FetchCreate?
  }

  lemma GettingStepSound(w: World, d: Disk, pc: Pc, c: Choice)
    requires Ready(w, d, pc) && IsGettingPc(pc)
    ensures Sound(w, d, pc, Step(w, d, pc, c))
  {
    match pc
    case GetStat(digest, dest) => GetStatSound(w, d, digest, dest);
    case GetOpen(digest, to) => GetOpenSound(w, d, digest, to);
    case StreamCopy(digest, i, sent) => StreamCopySound(w, d, digest, i, sent, c);
    case FetchCreate(digest, dest, i) => FetchCreateSound(w, d, digest, dest, i, c);
  }

  lemma EntryStepSound(w: World, d: Disk, pc: Pc, c: Choice)
    requires Ready(w, d, pc) && OwnOf(pc) == None
    ensures Sound(w, d, pc, Step(w, d, pc, c))
  {
    if IsOpeningPc(pc) {
      OpeningStepSound(w, d, pc, c);
    } else if IsGettingPc(pc) {
      GettingStepSound(w, d, pc, c);
    } else if pc.Create? {
      CreateSound(w, d, pc.want, c);
    }
  }

  /** Every system call the kernel carries out. */
  lemma StepSound(w: World, d: Disk, pc: Pc, c: Choice)
    requires Ready(w, d, pc)
    ensures Sound(w, d, pc, Step(w, d, pc, c))
  {
    if JobOf(pc).Some? {
      StoreStepSound(w, d, pc, c);
    } else if FetchOf(pc).Some? {
      FetchStepSound(w, d, pc, c);
    } else if OwnOf(pc) == None {
      EntryStepSound(w, d, pc, c);
    }
  }

  lemma FailedWriteSound(w: World, d: Disk, job: Job, chunk: Bytes)
    requires Ready(w, d, Copy(job))
    ensures Sound(w, d, Copy(job), Turn(Append(d, job.inode, chunk), Cleanup(job, NotKept)))
  {
    ChunkSound(w, d, job, chunk, Cleanup(job, NotKept));
  }

  lemma FailedFetchSound(w: World, d: Disk, f: Fetch, i: Inode, chunk: Bytes)
    requires Ready(w, d, FetchCopy(f, i))
    ensures Sound(w, d, FetchCopy(f, i), Turn(Append(d, f.inode, chunk), FetchCleanup(f, false)))
  {
    FetchChunkSound(w, d, f, i, chunk, FetchCleanup(f, false));
  }

  /** A call that fails without effect: what is known at the next point must follow from what is known here. */
  lemma ExitSound(w: World, d: Disk, pc: Pc, next: Pc)
    requires Ready(w, d, pc) && Known(w, d, next) && OwnOf(next) in {None, OwnOf(pc)}
    ensures Sound(w, d, pc, Turn(d, next))
  {
    SameDiskFrame(w, d, OwnOf(pc));
  }

  lemma StoreErrorKnown(w: World, d: Disk, pc: Pc)
    requires Ready(w, d, pc) && JobOf(pc).Some?
    ensures Sound(w, d, pc, Turn(d, ErrorExit(pc)))
  {
    if pc.Cleanup? {
      CleanupErrorKnown(w, d, pc.job, pc.kept);
    } else {
      JobHoldsTemp(w, d, pc);
      JobErrorExit(pc);
      CleanupKnown(w, d, JobOf(pc).value);
      ExitSound(w, d, pc, ErrorExit(pc));
    }
  }

  lemma JobErrorExit(pc: Pc)
    requires JobOf(pc).Some? && !pc.Cleanup?
    ensures ErrorExit(pc) == Cleanup(JobOf(pc).value, NotKept)
  {
  }

  lemma CleanupKnown(w: World, d: Disk, job: Job)
    requires HoldsTemp(w, d, job)
    ensures Known(w, d, Cleanup(job, NotKept))
  {
  }

  lemma CleanupErrorKnown(w: World, d: Disk, job: Job, kept: Kept)
    requires Ready(w, d, Cleanup(job, kept))
    ensures Sound(w, d, Cleanup(job, kept), Turn(d, AfterCleanup(job, kept)))
  {
    SameDiskFrame(w, d, Some(job.inode));
  }

  lemma JobHoldsTemp(w: World, d: Disk, pc: Pc)
    requires KnownStore(w, d, pc) && JobOf(pc).Some?
    ensures HoldsTemp(w, d, JobOf(pc).value)
  {
  }

  lemma FetchErrorKnown(w: World, d: Disk, pc: Pc)
    requires Ready(w, d, pc) && FetchOf(pc).Some?
    ensures Sound(w, d, pc, Turn(d, ErrorExit(pc)))
  {
    if pc.FetchCleanup? {
      FetchCleanupErrorKnown(w, d, pc.fetch, pc.ok);
    } else {
      FetchHoldsTemp(w, d, pc);
      FetchErrorExit(pc);
      FetchCleanupKnown(w, d, FetchOf(pc).value);
      ExitSound(w, d, pc, ErrorExit(pc));
    }
  }

  lemma FetchErrorExit(pc: Pc)
    requires FetchOf(pc).Some? && !pc.FetchCleanup?
    ensures ErrorExit(pc) == FetchCleanup(FetchOf(pc).value, false)
  {
  }

  lemma FetchCleanupKnown(w: World, d: Disk, f: Fetch)
    requires FetchOwned(w, d, f)
    ensures Known(w, d, FetchCleanup(f, false))
  {
  }

  lemma FetchCleanupErrorKnown(w: World, d: Disk, f: Fetch, ok: bool)
    requires Ready(w, d, FetchCleanup(f, ok))
    ensures Sound(w, d, FetchCleanup(f, ok), Turn(d, AfterFetch(f, ok)))
  {
    SameDiskFrame(w, d, Some(f.inode));
  }

  lemma FetchHoldsTemp(w: World, d: Disk, pc: Pc)
    requires KnownGet(w, d, pc) && FetchOf(pc).Some?
    ensures FetchOwned(w, d, FetchOf(pc).value)
  {
  }

  lemma EntryErrorKnown(w: World, d: Disk, pc: Pc)
    requires Ready(w, d, pc) && OwnOf(pc) == None && !Finished(pc)
    ensures Sound(w, d, pc, Turn(d, ErrorExit(pc)))
  {
    SameDiskFrame(w, d, OwnOf(pc));
  }

  /** Every failing system call. */
  lemma FaultSound(w: World, d: Disk, pc: Pc, c: Choice)
    requires Ready(w, d, pc)
    ensures Sound(w, d, pc, Fault(d, pc, c))
  {
    if pc.Copy? && c.chunk != [] {
      FailedWriteSound(w, d, pc.job, c.chunk);
    } else if pc.FetchCopy? && c.chunk != [] {
      FailedFetchSound(w, d, pc.fetch, pc.blob, c.chunk);
    } else if JobOf(pc).Some? {
      StoreErrorKnown(w, d, pc);
    } else if FetchOf(pc).Some? {
      FetchErrorKnown(w, d, pc);
    } else if !Finished(pc) {
      EntryErrorKnown(w, d, pc);
    }
  }
}
