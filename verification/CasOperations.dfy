/** Open, syncChain, stageTemp, publish with its Verify, Write and WriteFile, written as the code they are. */
module CasOperations {
  import opened Octets
  import opened Wrappers
  import opened Filesystem
  import opened CasProtocol
  import opened CasInvariant
  import opened CasSteps
  import opened CasProgress
  import opened CasCode
  import HashingCopy

  const NO_CHOICE := Choice("", 0, [])

  // ---- directories ----

  /** One level of MkdirAll: a directory that is already there will do, anything else in its place will not. */
  method EnsureDir(h: Host, p: Path) returns (e: Errno)
    modifies h`disk
    ensures e == Ok ==> if p in old(h.disk).cur then h.disk == old(h.disk) && IsDir(h.disk, p)
                        else IsDir(old(h.disk), Parent(p)) && h.disk == Mkdir(old(h.disk), p)
    ensures e == NotDirectory ==> if p in old(h.disk).cur then !IsDir(h.disk, p) else !IsDir(h.disk, Parent(p))
    ensures e == Failed ==> h.faulty
    ensures e in {Ok, NotDirectory, Failed} && (e != Ok ==> h.disk == old(h.disk))
  {
    e := h.Mkdir(p);
    if e == NoEntry {
      return NotDirectory;
    }
    if e == Exists {
      var found, i := h.Lookup(p);
      return if found == NotDirectory then Ok else if found == Failed then Failed else NotDirectory;
    }
  }

  // ---- syncChain ----

  /** The directories syncChain visits: dir and its ancestors, up to stopAt or the filesystem root. */
  function ChainOf(dir: Path, stopAt: Option<Path>): seq<Path> {
    if stopAt == Some(dir) || dir == [] then [dir] else [dir] + ChainOf(Parent(dir), stopAt)
  }

  /** Which syncChain call this is: publish's for a blob, or one of Open's two. */
  datatype Caller = FromPublish(job: Job, deduped: bool) | FromOpen(which: nat)

  function SyncingAt(caller: Caller, dir: Path): Pc {
    match caller
    case FromPublish(job, deduped) => SyncChain(job, deduped, dir)
    case FromOpen(which) => OpenSync(which, dir)
  }

  function SyncedAll(w: World, caller: Caller): Pc {
    match caller
    case FromPublish(job, deduped) => Cleanup(job, Kept(deduped))
    case FromOpen(which) => if which == 0 then OpenSync(1, TempDir(w)) else Opened
  }

  function SyncFailed(caller: Caller): Pc {
    if caller.FromPublish? then Cleanup(caller.job, NotKept) else OpenFailed
  }

  function StopAt(w: World, caller: Caller): Option<Path> {
    if caller.FromPublish? then Some(w.root) else None
  }

  predicate LastOfChain(dir: Path, stopAt: Option<Path>) {
    stopAt == Some(dir) || Parent(dir) == dir
  }

  /** syncPath of one directory of the chain. */
  method SyncOne(h: Host, ghost pid: Pid, dir: Path, ghost caller: Caller) returns (ok: bool)
    requires h.At(pid, SyncingAt(caller, dir))
    modifies h
    ensures h.Continued()
    ensures ok ==> h.At(pid, AfterSync(h.w, caller, dir))
    ensures !ok ==> h.At(pid, SyncFailed(caller)) && h.faulty
  {
    h.YieldKnown(pid);
    SyncedDirExists(h.w, h.disk, caller, dir);
    SyncingFails(caller, dir);
    SyncingSteps(h.w, h.disk, caller, dir);
    var e := h.SyncPath(dir);
    if e == Failed {
      h.Abort(pid, SyncingAt(caller, dir));
      return false;
    }
    h.Advance(pid, NO_CHOICE, AfterSync(h.w, caller, dir));
    return true;
  }

  function AfterSync(w: World, caller: Caller, dir: Path): Pc {
    if LastOfChain(dir, StopAt(w, caller)) then SyncedAll(w, caller) else SyncingAt(caller, Parent(dir))
  }

  lemma SyncingFails(caller: Caller, dir: Path)
    ensures ErrorExit(SyncingAt(caller, dir)) == SyncFailed(caller) && !Finished(SyncingAt(caller, dir))
  {
  }

  lemma SyncingSteps(w: World, d: Disk, caller: Caller, dir: Path)
    requires IsDir(d, dir) && (caller.FromOpen? ==> caller.which < 2)
    ensures Step(w, d, SyncingAt(caller, dir), NO_CHOICE) == Turn(SyncDir(d, dir), AfterSync(w, caller, dir))
  {
  }

  /** Nil only after an fsync of each directory of the chain, in order; the first failure stops it. */
  method SyncChainUp(h: Host, ghost pid: Pid, start: Path, stopAt: Option<Path>, ghost caller: Caller)
    returns (ok: bool, synced: seq<Path>)
    requires h.At(pid, SyncingAt(caller, start)) && stopAt == StopAt(h.w, caller)
    modifies h
    ensures h.Continued()
    ensures ok ==> h.At(pid, SyncedAll(h.w, caller)) && synced == ChainOf(start, stopAt)
    ensures !ok ==> h.At(pid, SyncFailed(caller)) && synced < ChainOf(start, stopAt) && h.faulty
  {
    var dir := start;
    synced := [];
    ChainStep([], start, stopAt);
    while true
      invariant h.At(pid, SyncingAt(caller, dir)) && h.Continued()
      invariant Walked(synced, dir, start, stopAt)
      decreases |dir|
    {
      ok := SyncOne(h, pid, dir, caller);
      if !ok {
        return;
      }
      WalkStep(synced, dir, start, stopAt);
      synced := synced + [dir];
      if stopAt == Some(dir) {
        return;
      }
      var parent := Parent(dir);
      if parent == dir {
        return;
      }
      dir := parent;
    }
  }

  /** The chain from start has been walked up to, and not including, dir. */
  predicate Walked(synced: seq<Path>, dir: Path, start: Path, stopAt: Option<Path>) {
    synced < ChainOf(start, stopAt) && synced + ChainOf(dir, stopAt) == ChainOf(start, stopAt)
  }

  lemma WalkStep(synced: seq<Path>, dir: Path, start: Path, stopAt: Option<Path>)
    requires Walked(synced, dir, start, stopAt)
    ensures if LastOfChain(dir, stopAt) then synced + [dir] == ChainOf(start, stopAt)
            else Walked(synced + [dir], Parent(dir), start, stopAt) && |Parent(dir)| < |dir|
  {
    ChainStep(synced, dir, stopAt);
  }

  lemma ChainStep(done: seq<Path>, dir: Path, stopAt: Option<Path>)
    ensures done + ChainOf(dir, stopAt) ==
              if LastOfChain(dir, stopAt) then done + [dir] else done + [dir] + ChainOf(Parent(dir), stopAt)
    ensures !LastOfChain(dir, stopAt) ==> done + [dir] < done + ChainOf(dir, stopAt)
    ensures done < done + ChainOf(dir, stopAt)
  {
    if !LastOfChain(dir, stopAt) {
      assert done + ([dir] + ChainOf(Parent(dir), stopAt)) == done + [dir] + ChainOf(Parent(dir), stopAt);
      assert |ChainOf(Parent(dir), stopAt)| > 0;
    }
  }

  lemma SyncedDirExists(w: World, d: Disk, caller: Caller, dir: Path)
    requires Ready(w, d, SyncingAt(caller, dir))
    ensures IsDir(d, dir) && (caller.FromOpen? ==> caller.which < 2)
  {
    match caller
    case FromPublish(job, deduped) =>
      var blob := BlobPath(w, Digest(w, job.data));
      BlobPathInTree(w, Digest(w, job.data));
      assert blob[..|dir|] == dir;
    case FromOpen(which) =>
      var tree := StoreDirs(w)[which];
      assert tree[..|dir|] == dir;
  }

  // ---- Open ----

  /** Where Open's loop over its two directories goes after a level. */
  function NextOpen(w: World, which: nat, depth: nat): Pc {
    if depth <= |w.root| then OpenMkdir(which, depth + 1)
    else if which == 0 then OpenMkdir(1, 1)
    else OpenSync(0, BlobTree(w))
  }

  /** Something other than a directory where a store directory or one above it must be. */
  ghost predicate Blocked(w: World, d: Disk) {
    exists which, depth :: which in {0, 1} && 0 <= depth <= |w.root| + 1 && NotDir(d, StoreDirs(w)[which][..depth])
  }

  predicate NotDir(d: Disk, p: Path) {
    p in d.cur && !IsDir(d, p)
  }

  method EnsureStoreDir(h: Host, ghost pid: Pid, which: nat, depth: nat) returns (ok: bool)
    requires which < 2 && 1 <= depth <= |h.w.root| + 1 && h.At(pid, OpenMkdir(which, depth))
    modifies h
    ensures h.Continued()
    ensures h.At(pid, if ok then NextOpen(h.w, which, depth) else OpenFailed)
    ensures !ok ==> h.faulty || Blocked(h.w, h.disk)
  {
    h.YieldKnown(pid);
    assert StoreDirs(h.w)[which][..depth - 1] == Parent(StoreDirs(h.w)[which][..depth]);
    var e := EnsureDir(h, StoreDirs(h.w)[which][..depth]);
    if e == Failed {
      h.Break(pid, NO_CHOICE);
      return false;
    }
    h.Advance(pid, NO_CHOICE, if e == Ok then NextOpen(h.w, which, depth) else OpenFailed);
    return e == Ok;
  }

  method EnsureTree(h: Host, ghost pid: Pid, which: nat) returns (ok: bool)
    requires which < 2 && h.At(pid, OpenMkdir(which, 1))
    modifies h
    ensures h.Continued()
    ensures h.At(pid, if ok then NextOpen(h.w, which, |h.w.root| + 1) else OpenFailed)
    ensures !ok ==> h.faulty || Blocked(h.w, h.disk)
  {
    for depth := 1 to |h.w.root| + 2
      invariant h.At(pid, if depth == 1 then OpenMkdir(which, 1) else NextOpen(h.w, which, depth - 1))
      invariant h.Continued()
    {
      ok := EnsureStoreDir(h, pid, which, depth);
      if !ok {
        return;
      }
    }
    return true;
  }

  /** Nil only with both store directories, and every entry above them, on disk; an error only for a reason. */
  method OpenStore(h: Host, ghost pid: Pid) returns (ok: bool)
    requires h.At(pid, OpenMkdir(0, 1))
    modifies h
    ensures h.Continued()
    ensures h.At(pid, if ok then Opened else OpenFailed)
    ensures ok ==> RootSafe(h.w, h.disk)
    ensures !ok ==> h.faulty || Blocked(h.w, h.disk)
  {
    ok := EnsureTrees(h, pid);
    if !ok {
      return;
    }
    ok := SyncTrees(h, pid);
    if ok {
      h.NowKnown(pid);
    }
  }

  method EnsureTrees(h: Host, ghost pid: Pid) returns (ok: bool)
    requires h.At(pid, OpenMkdir(0, 1))
    modifies h
    ensures h.Continued()
    ensures h.At(pid, if ok then OpenSync(0, BlobTree(h.w)) else OpenFailed)
    ensures !ok ==> h.faulty || Blocked(h.w, h.disk)
  {
    ok := EnsureTree(h, pid, 0);
    if ok {
      ok := EnsureTree(h, pid, 1);
    }
  }

  method SyncTrees(h: Host, ghost pid: Pid) returns (ok: bool)
    requires h.At(pid, OpenSync(0, BlobTree(h.w)))
    modifies h
    ensures h.Continued() && (!ok ==> h.faulty)
    ensures h.At(pid, if ok then Opened else OpenFailed)
  {
    var synced;
    ok, synced := SyncChainUp(h, pid, BlobTree(h.w), None, FromOpen(0));
    if ok {
      ok, synced := SyncChainUp(h, pid, TempDir(h.w), None, FromOpen(1));
    }
  }

  // ---- stageTemp ----

  function Flatten(chunks: seq<Bytes>): Bytes {
    if chunks == [] then [] else Flatten(chunks[..|chunks| - 1]) + chunks[|chunks| - 1]
  }

  /** What a source returns: reads of at most a buffer, then EOF or an error. It need not match its stat'd size. */
  datatype SourceFile = SourceFile(chunks: seq<Bytes>, broken: bool)

  predicate ReadableFile(source: SourceFile) {
    forall k :: 0 <= k < |source.chunks| ==> Readable(source.chunks[k])
  }

  /** A script of reads, as hashingCopy sees it, is such a source: reads of nothing drop out, data may come with the end. */
  function AsSource(script: HashingCopy.Script): SourceFile {
    SourceFile(Reads(script), !HashingCopy.EndsClean(script))
  }

  function Reads(script: seq<HashingCopy.Reading>): seq<Bytes> {
    if script == [] then []
    else
      (if script[0].data == [] then [] else [script[0].data])
      + if script[0].error != HashingCopy.NoError then [] else Reads(script[1..])
  }

  /**
   What the store's copy loop takes in from a source is what hashingCopy delivers of it: the same bytes, the same
   end. And the digest the store uses for these bytes, in a receipt of WriteFile, is the one that hashingCopy returns.
   */
  lemma ScriptIsSource(w: World, script: HashingCopy.Script)
    ensures ReadableFile(AsSource(script)) && Flatten(AsSource(script).chunks) == HashingCopy.Stream(script)
    ensures AsSource(script).broken <==> !HashingCopy.EndsClean(script)
    ensures Digest(w, Flatten(AsSource(script).chunks)) == Hex(w.sha(HashingCopy.Stream(script)))
  {
    ReadsAre(script);
  }

  lemma {:induction false} ReadsAre(script: seq<HashingCopy.Reading>)
    requires forall k :: 0 <= k < |script| ==> |script[k].data| <= BUFFER
    ensures forall k :: 0 <= k < |Reads(script)| ==> Readable(Reads(script)[k])
    ensures Flatten(Reads(script)) == HashingCopy.Stream(script)
  {
    if script != [] {
      var first := script[0].data;
      if script[0].error == HashingCopy.NoError {
        ReadsAre(script[1..]);
        if first != [] {
          FlattenCons(first, Reads(script[1..]));
        } else {
          assert Reads(script) == Reads(script[1..]);
        }
      } else if first != [] {
        FlattenCons(first, []);
        assert [first] == [first] + [];
      }
    }
  }

  lemma {:induction false} FlattenCons(first: Bytes, rest: seq<Bytes>)
    ensures Flatten([first] + rest) == first + Flatten(rest)
  {
    var all := [first] + rest;
    if rest != [] {
      FlattenCons(first, rest[..|rest| - 1]);
      assert all[..|all| - 1] == [first] + rest[..|rest| - 1];
    }
  }

  method CopyChunk(h: Host, ghost pid: Pid, job: Job, chunk: Bytes) returns (ok: bool)
    requires h.At(pid, Copy(job)) && Readable(chunk)
    modifies h
    ensures h.Continued()
    ensures ok ==> h.At(pid, Copy(job.(data := job.data + chunk))) && !Overflows(job.data, chunk)
    ensures !ok ==> h.At(pid, Cleanup(job, NotKept)) && (h.faulty || Overflows(job.data, chunk))
  {
    h.YieldKnown(pid);
    if Overflows(job.data, chunk) {
      h.Advance(pid, Choice("", 0, chunk), Cleanup(job, NotKept));
      return false;
    }
    var e, put := h.Write(job.inode, chunk);
    if e == Failed {
      h.Break(pid, Choice("", 0, put));
      return false;
    }
    h.Advance(pid, Choice("", 0, chunk), Copy(job.(data := job.data + chunk)));
    return true;
  }

  method SyncStaged(h: Host, ghost pid: Pid, job: Job) returns (ok: bool)
    requires h.At(pid, SyncTemp(job))
    modifies h
    ensures h.Continued()
    ensures h.At(pid, if ok then CheckSize(job) else Cleanup(job, NotKept))
    ensures !ok ==> h.faulty
  {
    h.YieldKnown(pid);
    var e := h.Fsync(job.inode);
    if e == Failed {
      h.Abort(pid, SyncTemp(job));
      return false;
    }
    h.Advance(pid, NO_CHOICE, CheckSize(job));
    return true;
  }

  method CreateStaged(h: Host, ghost pid: Pid, want: Option<nat>) returns (staged: Option<Job>)
    requires h.At(pid, Create(want))
    modifies h
    ensures h.Continued()
    ensures h.At(pid, if staged.Some? then Copy(staged.value) else StoreFailed)
    ensures staged.Some? ==> staged.value.data == [] && staged.value.want == want
    ensures staged == None ==> h.faulty
  {
    h.YieldKnown(pid);
    assert TempDir(h.w)[..|h.w.root| + 1] == TempDir(h.w);
    var e, name, i := h.CreateTemp(TempDir(h.w), "duro-put-");
    if e != Ok {
      h.Abort(pid, Create(want));
      return None;
    }
    var job := Job(want, TempDir(h.w) + ["duro-put-" + name], i, []);
    h.Advance(pid, Choice(name, i, []), Copy(job));
    return Some(job);
  }

  /** The copy loop over a source: every chunk, then EOF; it stops at the first failure. */
  method CopyAll(h: Host, ghost pid: Pid, empty: Job, source: SourceFile) returns (job: Job, ok: bool)
    requires h.At(pid, Copy(empty)) && empty.data == [] && ReadableFile(source)
    modifies h
    ensures h.Continued()
    ensures h.At(pid, if ok then SyncTemp(job) else Cleanup(job, NotKept))
    ensures job.want == empty.want
    ensures ok ==> job.data == Flatten(source.chunks) && !source.broken
    ensures !ok ==> h.faulty || source.broken || |Flatten(source.chunks)| > MAX_INT64
  {
    job := empty;
    for k := 0 to |source.chunks|
      invariant h.At(pid, Copy(job)) && h.Continued()
      invariant HasRead(job, empty.want, source, k)
    {
      job, ok := CopyNext(h, pid, job, empty.want, source, k);
      if !ok {
        return;
      }
    }
    assert source.chunks[..|source.chunks|] == source.chunks;
    ok := EndCopy(h, pid, job, source.broken);
  }

  /** The job holds the first k chunks of the source. */
  predicate HasRead(job: Job, want: Option<nat>, source: SourceFile, k: nat) {
    k <= |source.chunks| && job.data == Flatten(source.chunks[..k]) && job.want == want
  }

  method CopyNext(h: Host, ghost pid: Pid, job: Job, want: Option<nat>, source: SourceFile, k: nat) returns (next: Job, ok: bool)
    requires h.At(pid, Copy(job)) && ReadableFile(source) && k < |source.chunks| && HasRead(job, want, source, k)
    modifies h
    ensures h.Continued()
    ensures h.At(pid, if ok then Copy(next) else Cleanup(next, NotKept)) && next.want == want
    ensures ok ==> HasRead(next, want, source, k + 1)
    ensures !ok ==> h.faulty || |Flatten(source.chunks)| > MAX_INT64
  {
    ok := CopyChunk(h, pid, job, source.chunks[k]);
    next := job;
    if ok {
      FlattenNext(source.chunks, k);
      next := job.(data := job.data + source.chunks[k]);
    } else {
      ChunkCounts(source.chunks, k);
    }
  }

  lemma FlattenNext(chunks: seq<Bytes>, k: nat)
    requires k < |chunks|
    ensures Flatten(chunks[..k + 1]) == Flatten(chunks[..k]) + chunks[k]
  {
    assert chunks[..k + 1][..k] == chunks[..k];
  }

  lemma ChunkCounts(chunks: seq<Bytes>, k: nat)
    requires k < |chunks|
    ensures |Flatten(chunks[..k])| + |chunks[k]| <= |Flatten(chunks)|
  {
    FlattenNext(chunks, k);
    FlattenGrows(chunks, k + 1);
  }

  lemma {:induction false} FlattenGrows(chunks: seq<Bytes>, k: nat)
    requires k <= |chunks|
    ensures |Flatten(chunks[..k])| <= |Flatten(chunks)|
    decreases |chunks| - k
  {
    if k == |chunks| {
      assert chunks[..k] == chunks;
    } else {
      FlattenNext(chunks, k);
      FlattenGrows(chunks, k + 1);
    }
  }

  method EndCopy(h: Host, ghost pid: Pid, job: Job, broken: bool) returns (ok: bool)
    requires h.At(pid, Copy(job))
    modifies h
    ensures h.Continued()
    ensures h.At(pid, if ok then SyncTemp(job) else Cleanup(job, NotKept)) && ok == !broken
  {
    h.YieldKnown(pid);
    if broken {
      h.Abort(pid, Copy(job));
    } else {
      h.Advance(pid, NO_CHOICE, SyncTemp(job));
    }
    return !broken;
  }

  /** Success means that the whole source was staged, hashed and synced. */
  method StageTemp(h: Host, ghost pid: Pid, want: Option<nat>, source: SourceFile) returns (staged: Option<Job>, ok: bool)
    requires h.At(pid, Create(want)) && ReadableFile(source)
    modifies h
    ensures h.Continued()
    ensures h.At(pid, if staged == None then StoreFailed else if ok then CheckSize(staged.value) else Cleanup(staged.value, NotKept))
    ensures staged == None ==> !ok
    ensures staged.Some? ==> staged.value.want == want
    ensures ok ==> staged.value.data == Flatten(source.chunks) && !source.broken
    ensures !ok ==> h.faulty || source.broken || |Flatten(source.chunks)| > MAX_INT64
  {
    staged := CreateStaged(h, pid, want);
    if staged == None {
      return None, false;
    }
    var job;
    job, ok := FillStaged(h, pid, staged.value, source);
    return Some(job), ok;
  }

  /** The copy, then the fsync. */
  method FillStaged(h: Host, ghost pid: Pid, empty: Job, source: SourceFile) returns (job: Job, ok: bool)
    requires h.At(pid, Copy(empty)) && empty.data == [] && ReadableFile(source)
    modifies h
    ensures h.Continued()
    ensures h.At(pid, if ok then CheckSize(job) else Cleanup(job, NotKept)) && job.want == empty.want
    ensures ok ==> job.data == Flatten(source.chunks) && !source.broken
    ensures !ok ==> h.faulty || source.broken || |Flatten(source.chunks)| > MAX_INT64
  {
    job, ok := CopyAll(h, pid, empty, source);
    if ok {
      ok := SyncStaged(h, pid, job);
    }
  }

  // ---- Verify ----

  method VerifyStatBlob(h: Host, ghost pid: Pid, job: Job) returns (ok: bool)
    requires h.At(pid, VerifyStat(job))
    modifies h
    ensures h.Continued()
    ensures h.At(pid, if ok then VerifyOpen(job) else Cleanup(job, NotKept))
    ensures !ok ==> old(h.Doubtful(job.data))
  {
    h.YieldKnown(pid);
    h.StillCertain(job.data);
    var e, i := h.Lookup(BlobPath(h.w, Digest(h.w, job.data)));
    if e == Failed {
      h.Abort(pid, VerifyStat(job));
      return false;
    }
    if e == Ok {
      assert Linked(h.disk, BlobPath(h.w, Digest(h.w, job.data)), i);
    }
    ok := e == Ok && |h.disk.files[i].data| == |job.data|;
    h.Advance(pid, NO_CHOICE, if ok then VerifyOpen(job) else Cleanup(job, NotKept));
  }

  method VerifyOpenBlob(h: Host, ghost pid: Pid, job: Job) returns (blob: Option<Inode>)
    requires h.At(pid, VerifyOpen(job))
    modifies h
    ensures h.Continued()
    ensures h.At(pid, if blob.Some? then VerifyRead(job, blob.value, []) else Cleanup(job, NotKept))
    ensures blob == None ==> old(h.Doubtful(job.data))
  {
    h.Yield(pid);
    h.StillCertain(job.data);
    var e, i := h.Lookup(BlobPath(h.w, Digest(h.w, job.data)));
    if e == Failed {
      h.Abort(pid, VerifyOpen(job));
      return None;
    }
    h.Advance(pid, NO_CHOICE, if e == Ok then VerifyRead(job, i, []) else Cleanup(job, NotKept));
    return if e == Ok then Some(i) else None;
  }

  /** Where the verification is. */
  function Verifying(job: Job, blob: Inode, more: bool, ok: bool, seen: Bytes): Pc {
    if more then VerifyRead(job, blob, seen) else if ok then SyncBlob(job, true) else Cleanup(job, NotKept)
  }

  /** One read of the verification; `more` unless it ended, one way or the other. */
  method VerifyChunk(h: Host, ghost pid: Pid, job: Job, blob: Inode, seen: Bytes) returns (more: bool, ok: bool, all: Bytes)
    requires h.At(pid, VerifyRead(job, blob, seen))
    modifies h
    ensures h.Continued()
    ensures h.At(pid, Verifying(job, blob, more, ok, all))
    ensures more ==> |seen| < |all| <= MAX_INT64
    ensures !more && !ok ==> old(h.Doubtful(job.data))
  {
    h.YieldKnown(pid);
    h.StillCertain(job.data);
    var e, chunk := h.ReadAt(blob, |seen|);
    if e == Failed {
      h.Abort(pid, VerifyRead(job, blob, seen));
      return false, false, seen;
    }
    more, ok, all := VerifyOne(h, pid, job, blob, seen, chunk);
  }

  /** What follows a read: size and digest decide at the end of the file. */
  method VerifyOne(h: Host, ghost pid: Pid, job: Job, blob: Inode, seen: Bytes, chunk: Bytes)
    returns (more: bool, ok: bool, all: Bytes)
    requires h.At(pid, VerifyRead(job, blob, seen)) && Ready(h.w, h.disk, VerifyRead(job, blob, seen))
    requires chunk <= h.disk.files[blob].data[|seen|..] && |chunk| <= BUFFER
    requires chunk == [] ==> |seen| == |h.disk.files[blob].data|
    modifies h
    ensures h.Continued()
    ensures h.At(pid, Verifying(job, blob, more, ok, all))
    ensures more ==> |seen| < |all| <= MAX_INT64
    ensures !more && !ok ==> old(h.Doubtful(job.data))
  {
    ghost var data := h.disk.files[blob].data;
    assert data == seen + data[|seen|..];
    if chunk == [] {
      assert seen == data;
      ok := |seen| == |job.data| && Digest(h.w, seen) == Digest(h.w, job.data);
      h.Advance(pid, NO_CHOICE, if ok then SyncBlob(job, true) else Cleanup(job, NotKept));
      return false, ok, seen;
    }
    assert seen + chunk <= data;
    if Overflows(seen, chunk) {
      h.Advance(pid, Choice("", 0, chunk), Cleanup(job, NotKept));
      return false, false, seen;
    }
    h.Advance(pid, Choice("", 0, chunk), VerifyRead(job, blob, seen + chunk));
    return true, false, seen + chunk;
  }

  method VerifyBytes(h: Host, ghost pid: Pid, job: Job, blob: Inode) returns (ok: bool)
    requires h.At(pid, VerifyRead(job, blob, []))
    modifies h
    ensures h.Continued()
    ensures h.At(pid, if ok then SyncBlob(job, true) else Cleanup(job, NotKept))
    ensures !ok ==> old(h.Doubtful(job.data))
  {
    ok := false;
    var seen: Bytes := [];
    var more := true;
    while more
      invariant h.Continued() && (more ==> |seen| <= MAX_INT64)
      invariant h.At(pid, Verifying(job, blob, more, ok, seen))
      invariant !more && !ok ==> old(h.Doubtful(job.data))
      decreases if more then 1 + MAX_INT64 - |seen| else 0
    {
      h.StillCertain(job.data);
      more, ok, seen := VerifyChunk(h, pid, job, blob, seen);
    }
  }

  /** True only if what is stored at the digest has the size and the digest asked for. */
  method Verify(h: Host, ghost pid: Pid, job: Job) returns (ok: bool)
    requires h.At(pid, VerifyStat(job))
    modifies h
    ensures h.Continued()
    ensures h.At(pid, if ok then SyncBlob(job, true) else Cleanup(job, NotKept))
    ensures !ok ==> old(h.Doubtful(job.data))
  {
    ok := VerifyStatBlob(h, pid, job);
    if ok {
      h.StillCertain(job.data);
      ok := VerifyOpened(h, pid, job);
    }
  }

  method VerifyOpened(h: Host, ghost pid: Pid, job: Job) returns (ok: bool)
    requires h.At(pid, VerifyOpen(job))
    modifies h
    ensures h.Continued()
    ensures h.At(pid, if ok then SyncBlob(job, true) else Cleanup(job, NotKept))
    ensures !ok ==> old(h.Doubtful(job.data))
  {
    var blob := VerifyOpenBlob(h, pid, job);
    if blob == None {
      return false;
    }
    h.StillCertain(job.data);
    ok := VerifyBytes(h, pid, job, blob.value);
  }

  // ---- publish ----

  method EnsureBlobLevel(h: Host, ghost pid: Pid, job: Job, depth: nat) returns (ok: bool)
    requires h.At(pid, MakeDirs(job, depth)) && 1 <= depth <= |BlobDir(h.w, Digest(h.w, job.data))|
    modifies h
    ensures h.Continued()
    ensures h.At(pid, if !ok then Cleanup(job, NotKept)
                      else if depth == |BlobDir(h.w, Digest(h.w, job.data))| then LinkBlob(job)
                      else MakeDirs(job, depth + 1))
    ensures !ok ==> h.Excused(job.data)
  {
    var dir := BlobDir(h.w, Digest(h.w, job.data));
    YieldToLevel(h, pid, job, depth);
    var e := EnsureDir(h, dir[..depth]);
    if e == Failed {
      h.Abort(pid, MakeDirs(job, depth));
      return false;
    }
    h.Advance(pid, NO_CHOICE, if e != Ok then Cleanup(job, NotKept)
                              else if depth == |dir| then LinkBlob(job) else MakeDirs(job, depth + 1));
    return e == Ok;
  }

  /** Other processes run; afterwards only a file in the place of the next directory can be in the way. */
  method YieldToLevel(h: Host, ghost pid: Pid, job: Job, depth: nat)
    requires h.At(pid, MakeDirs(job, depth))
    modifies h
    ensures h.Continued() && h.At(pid, MakeDirs(job, depth)) && depth <= |BlobDir(h.w, Digest(h.w, job.data))|
    ensures var p := BlobDir(h.w, Digest(h.w, job.data))[..depth];
      IsDir(h.disk, Parent(p)) && (h.Excused(job.data) || (p in h.disk.cur ==> IsDir(h.disk, p)))
  {
    h.YieldKnown(pid);
    h.StillUnhindered(job.data);
    LevelFree(h.w, h.disk, job, depth);
  }

  method EnsureBlobDir(h: Host, ghost pid: Pid, job: Job) returns (ok: bool)
    requires h.At(pid, MakeDirs(job, 1))
    modifies h
    ensures h.Continued()
    ensures h.At(pid, if ok then LinkBlob(job) else Cleanup(job, NotKept))
    ensures !ok ==> h.Excused(job.data)
  {
    var n := |BlobDir(h.w, Digest(h.w, job.data))|;
    for depth := 1 to n + 1
      invariant h.At(pid, if depth <= n then MakeDirs(job, depth) else LinkBlob(job)) && h.Continued()
    {
      h.StillUnhindered(job.data);
      ok := EnsureBlobLevel(h, pid, job, depth);
      if !ok {
        return;
      }
    }
    return true;
  }

  /** link(2) of the temporary to the digest's path: Ok if this process published it, Exists if someone had. */
  method LinkStaged(h: Host, ghost pid: Pid, job: Job) returns (e: Errno)
    requires h.At(pid, LinkBlob(job))
    modifies h
    ensures h.Continued()
    ensures e == Ok ==> h.At(pid, SyncBlob(job, false))
    ensures e == Exists ==> h.At(pid, VerifyStat(job))
    ensures e != Ok && e != Exists ==> h.At(pid, Cleanup(job, NotKept)) && h.faulty
    ensures e == Exists ==> BlobPath(h.w, Digest(h.w, job.data)) in h.disk.cur
  {
    h.YieldKnown(pid);
    e := h.Link(job.tmp, BlobPath(h.w, Digest(h.w, job.data)));
    if e == Failed {
      h.Abort(pid, LinkBlob(job));
    } else {
      h.Advance(pid, NO_CHOICE, if e == Ok then SyncBlob(job, false)
                                else if e == Exists then VerifyStat(job) else Cleanup(job, NotKept));
    }
  }

  method SyncPublished(h: Host, ghost pid: Pid, job: Job, deduped: bool) returns (ok: bool)
    requires h.At(pid, SyncBlob(job, deduped))
    modifies h
    ensures h.Continued()
    ensures h.At(pid, if ok then SyncChain(job, deduped, BlobDir(h.w, Digest(h.w, job.data))) else Cleanup(job, NotKept))
    ensures !ok ==> h.faulty
  {
    h.YieldKnown(pid);
    var e := h.SyncPath(BlobPath(h.w, Digest(h.w, job.data)));
    if e == Failed {
      h.Abort(pid, SyncBlob(job, deduped));
      return false;
    }
    h.Advance(pid, NO_CHOICE, SyncChain(job, deduped, BlobDir(h.w, Digest(h.w, job.data))));
    return true;
  }

  /** A fresh link, or a verified blob that was there already. */
  method PlaceBlob(h: Host, ghost pid: Pid, job: Job) returns (ok: bool, deduped: bool)
    requires h.At(pid, LinkBlob(job))
    modifies h
    ensures h.Continued()
    ensures h.At(pid, if ok then SyncBlob(job, deduped) else Cleanup(job, NotKept))
    ensures !ok ==> h.Excused(job.data)
  {
    var e := LinkStaged(h, pid, job);
    if e == Exists {
      h.StillUnhindered(job.data);
      ok := Verify(h, pid, job);
      return ok, true;
    }
    return e == Ok, false;
  }

  /** The blob itself, then every directory from its own up to the store root: on both paths, unconditionally. */
  method MakeDurable(h: Host, ghost pid: Pid, job: Job, deduped: bool) returns (ok: bool)
    requires h.At(pid, SyncBlob(job, deduped))
    modifies h
    ensures h.Continued()
    ensures h.At(pid, Cleanup(job, if ok then Kept(deduped) else NotKept))
    ensures !ok ==> h.faulty
  {
    ok := SyncPublished(h, pid, job, deduped);
    if ok {
      var synced;
      ok, synced := SyncChainUp(h, pid, BlobDir(h.w, Digest(h.w, job.data)), Some(h.w.root), FromPublish(job, deduped));
    }
  }

  /** A put that linked the blob and one that found it there end alike. */
  method PlaceAndSync(h: Host, ghost pid: Pid, job: Job) returns (kept: Kept)
    requires h.At(pid, LinkBlob(job))
    modifies h
    ensures h.Continued()
    ensures h.At(pid, Cleanup(job, kept))
    ensures kept == NotKept ==> h.Excused(job.data)
  {
    var ok, deduped := PlaceBlob(h, pid, job);
    if !ok {
      return NotKept;
    }
    ok := MakeDurable(h, pid, job, deduped);
    return if ok then Kept(deduped) else NotKept;
  }

  /** Makes a staged file visible at its digest's path, or verifies what is there, and puts either on disk. */
  method Publish(h: Host, ghost pid: Pid, job: Job) returns (kept: Kept)
    requires h.At(pid, MakeDirs(job, 1))
    modifies h
    ensures h.Continued()
    ensures h.At(pid, Cleanup(job, kept))
    ensures kept == NotKept ==> h.Excused(job.data)
  {
    var ok := EnsureBlobDir(h, pid, job);
    if !ok {
      return NotKept;
    }
    h.StillUnhindered(job.data);
    kept := PlaceAndSync(h, pid, job);
  }

  // ---- Write, WriteFile ----

  method RemoveStaged(h: Host, ghost pid: Pid, job: Job, ghost kept: Kept) returns (removed: bool)
    requires h.At(pid, Cleanup(job, kept))
    modifies h
    ensures h.Continued()
    ensures h.At(pid, AfterCleanup(job, kept))
    ensures !removed ==> h.faulty
  {
    h.Yield(pid);
    var e := h.Remove(job.tmp);
    if e == Failed {
      h.Abort(pid, Cleanup(job, kept));
      return false;
    }
    h.Advance(pid, NO_CHOICE, AfterCleanup(job, kept));
    return true;
  }

  datatype Receipt = Receipt(digest: string, size: nat, deduped: bool)

  /** The job a process returned success with. */
  ghost predicate Returned(h: Host, pid: Pid, job: Job, r: Receipt)
    reads h
  {
    h.At(pid, Stored(job, r.deduped)) && r.digest == Hex(h.w.sha(job.data)) && r.size == |job.data|
  }

  /** The size check of WriteFile. */
  method CheckStaged(h: Host, ghost pid: Pid, job: Job) returns (fits: bool)
    requires h.At(pid, CheckSize(job))
    modifies h
    ensures h.Continued()
    ensures h.At(pid, if fits then MakeDirs(job, 1) else Cleanup(job, NotKept))
    ensures fits <==> job.want == None || job.want == Some(|job.data|)
  {
    h.Yield(pid);
    fits := job.want == None || job.want == Some(|job.data|);
    h.Advance(pid, NO_CHOICE, if fits then MakeDirs(job, 1) else Cleanup(job, NotKept));
  }

  /** ... then publish. */
  method PublishStaged(h: Host, ghost pid: Pid, job: Job) returns (kept: Kept)
    requires h.At(pid, CheckSize(job))
    modifies h
    ensures h.Continued()
    ensures h.At(pid, Cleanup(job, kept))
    ensures kept == NotKept ==> h.Excused(job.data) || (job.want.Some? && job.want.value != |job.data|)
  {
    var fits := CheckStaged(h, pid, job);
    kept := NotKept;
    if fits {
      h.StillUnhindered(job.data);
      kept := Publish(h, pid, job);
    }
  }

  /** Publish what was staged, if it was, and remove the temporary either way. */
  method FinishPut(h: Host, ghost pid: Pid, job: Job, staged: bool) returns (kept: Kept)
    requires h.At(pid, if staged then CheckSize(job) else Cleanup(job, NotKept))
    modifies h
    ensures h.Continued()
    ensures h.At(pid, AfterCleanup(job, kept)) && (kept.Kept? ==> staged)
    ensures kept == NotKept ==> !staged || h.Excused(job.data) || (job.want.Some? && job.want.value != |job.data|)
  {
    kept := NotKept;
    if staged {
      kept := PublishStaged(h, pid, job);
    }
    var removed := RemoveStaged(h, pid, job, kept);
  }

  /** What a process knows when its put has returned. */
  lemma StoredKnown(w: World, d: Disk, job: Job, deduped: bool)
    requires Ready(w, d, Stored(job, deduped))
    ensures SafeBlob(w, d, Digest(w, job.data), |job.data|)
    ensures job.want == None || job.want == Some(|job.data|)
  {
  }

  /**
   WriteFile, and Write when there is no stat'd size. A receipt names exactly the source's bytes, whose length is
   the size seen at open, and by the time it is returned they and every entry above them are on disk. There is
   no receipt only for a reason: a call or the source failed, the size changed, or the way was not clear.
   */
  method WriteFile(h: Host, ghost pid: Pid, want: Option<nat>, source: SourceFile)
    returns (receipt: Option<Receipt>, ghost job: Job)
    requires h.At(pid, Create(want)) && ReadableFile(source)
    modifies h
    ensures h.Continued()
    ensures receipt == None ==> h.At(pid, StoreFailed)
    ensures receipt.Some? ==> Returned(h, pid, job, receipt.value) && job.data == Flatten(source.chunks) && !source.broken
    ensures receipt.Some? ==> want == None || want == Some(receipt.value.size)
    ensures receipt.Some? ==> receipt.value.digest == Hex(h.w.sha(Flatten(source.chunks)))
                              && receipt.value.size == |Flatten(source.chunks)|
    ensures receipt.Some? ==> SafeBlob(h.w, h.disk, receipt.value.digest, receipt.value.size)
    ensures receipt == None ==> h.Excused(Flatten(source.chunks)) || source.broken
                                || (want.Some? && want.value != |Flatten(source.chunks)|)
  {
    var staged, ok := StageTemp(h, pid, want, source);
    h.StillUnhindered(Flatten(source.chunks));
    if staged == None {
      job := Job(None, [], 0, []);
      return None, job;
    }
    job := staged.value;
    var kept := FinishPut(h, pid, staged.value, ok);
    if kept == NotKept {
      return None, job;
    }
    KnownReturned(h, pid, job, kept.deduped);
    var data := staged.value.data;
    return Some(Receipt(Digest(h.w, data), |data|, kept.deduped)), job;
  }

  lemma KnownReturned(h: Host, pid: Pid, job: Job, deduped: bool)
    requires h.At(pid, Stored(job, deduped))
    ensures SafeBlob(h.w, h.disk, Digest(h.w, job.data), |job.data|)
    ensures job.want == None || job.want == Some(|job.data|)
  {
    h.NowKnown(pid);
    StoredKnown(h.w, h.disk, job, deduped);
  }
}
