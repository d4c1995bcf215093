/** What the store promises, over every run of any number of processes from any initial store. */
module CasTheorems {
  import opened Octets
  import opened Wrappers
  import opened Identity
  import opened Filesystem
  import opened CasProtocol
  import opened CasInvariant
  import opened CasSteps
  import opened CasReachable

  // ---- durability ----

  lemma StoredStays(w: World, s: State, a: Action, s': State, pid: Pid)
    requires Next(w, s, a, s') && pid in s.procs && s.procs[pid].Stored?
    ensures pid in s'.procs && s'.procs[pid] == s.procs[pid]
  {
  }

  /**
   Once Write or WriteFile has returned nil, on the fresh or the dedup path, the blob's bytes and every
   directory entry from the filesystem root to it are on disk in every later state, whatever any process
   does, whichever calls fail and however often the machine crashes.
   */
  lemma KeptForever(w: World, states: seq<State>, actions: seq<Action>, k: nat, j: nat, pid: Pid)
    requires IsRun(w, states, actions) && Init(w, states[0]) && k <= j <= |actions|
    requires pid in states[k].procs && states[k].procs[pid].Stored?
    ensures pid in states[j].procs && states[j].procs[pid] == states[k].procs[pid]
    ensures var job := states[k].procs[pid].job;
      && SafeBlob(w, states[j].disk, Digest(w, job.data), |job.data|)
      && (job.want.Some? ==> job.want.value == |job.data|)
    ensures var data, d := states[k].procs[pid].job.data, states[j].disk;
      var blob := BlobPath(w, Hex(w.sha(data)));
      && DurablePath(d, blob) && blob in d.cur && d.cur[blob].Link? && d.cur[blob].inode in d.files
      && d.files[d.cur[blob].inode].synced && |d.files[d.cur[blob].inode].data| == |data|
      && w.sha(d.files[d.cur[blob].inode].data) == w.sha(data)
  {
    StoredOver(w, states, actions, k, j, pid);
    RunInvariant(w, states, actions, j);
    KnownStored(w, states[j], pid);
    SafeBlobIs(w, states[j].disk, states[j].procs[pid].job.data);
  }

  lemma {:induction false} StoredOver(w: World, states: seq<State>, actions: seq<Action>, k: nat, j: nat, pid: Pid)
    requires IsRun(w, states, actions) && k <= j <= |actions| && pid in states[k].procs && states[k].procs[pid].Stored?
    ensures pid in states[j].procs && states[j].procs[pid] == states[k].procs[pid]
  {
    if k < j {
      StoredOver(w, states, actions, k, j - 1, pid);
      StoredStays(w, states[j - 1], actions[j - 1], states[j], pid);
    }
  }

  lemma KnownStored(w: World, s: State, pid: Pid)
    requires ProcsKnow(w, s) && pid in s.procs && s.procs[pid].Stored?
    ensures var job := s.procs[pid].job;
      SafeBlob(w, s.disk, Digest(w, job.data), |job.data|) && (job.want.Some? ==> job.want.value == |job.data|)
  {
    assert Ready(w, s.disk, s.procs[pid]);
  }

  /** A safe blob, spelt out: bytes of the same size and hash, and all of the path to them on disk. */
  lemma SafeBlobIs(w: World, d: Disk, data: Bytes)
    requires SafeBlob(w, d, Digest(w, data), |data|)
    ensures var blob := BlobPath(w, Hex(w.sha(data)));
      && DurablePath(d, blob) && blob in d.cur && d.cur[blob].Link? && d.cur[blob].inode in d.files
      && d.files[d.cur[blob].inode].synced && |d.files[d.cur[blob].inode].data| == |data|
      && w.sha(d.files[d.cur[blob].inode].data) == w.sha(data)
  {
    HexInjective(w.sha(BlobData(w, d, Digest(w, data))), w.sha(data));
  }

  lemma {:induction false} OpenedStays(w: World, states: seq<State>, actions: seq<Action>, k: nat, j: nat, pid: Pid)
    requires IsRun(w, states, actions) && k <= j <= |actions| && pid in states[k].procs && states[k].procs[pid].Opened?
    ensures pid in states[j].procs && states[j].procs[pid].Opened?
  {
    if k < j {
      OpenedStays(w, states, actions, k, j - 1, pid);
      StepKeepsOpened(w, states[j - 1], actions[j - 1], states[j], pid);
    }
  }

  lemma StepKeepsOpened(w: World, s: State, a: Action, s': State, pid: Pid)
    requires Next(w, s, a, s') && pid in s.procs && s.procs[pid].Opened?
    ensures pid in s'.procs && s'.procs[pid].Opened?
  {
  }

  // ---- deduplication ----

  ghost predicate ReturnedFresh(w: World, s: State, pid: Pid, x: string) {
    && pid in s.procs && s.procs[pid].Stored? && !s.procs[pid].deduped
    && Digest(w, s.procs[pid].job.data) == x
  }

  ghost predicate ReturnedFor(w: World, s: State, pid: Pid, x: string) {
    pid in s.procs && s.procs[pid].Stored? && Digest(w, s.procs[pid].job.data) == x
  }

  /** Over a whole run, crashes and failures included, at most one put of a digest reports deduped=false. */
  lemma AtMostOneFresh(w: World, states: seq<State>, actions: seq<Action>, k: nat, j: nat, p: Pid, q: Pid, x: string)
    requires IsRun(w, states, actions) && Init(w, states[0]) && k <= j <= |actions|
    requires ReturnedFresh(w, states[k], p, x) && ReturnedFresh(w, states[j], q, x)
    ensures p == q
  {
    KeptForever(w, states, actions, k, j, p);
    RunInvariant(w, states, actions, j);
    FreshOwnsBlob(w, states[j], p, x);
    FreshOwnsBlob(w, states[j], q, x);
  }

  lemma FreshOwnsBlob(w: World, s: State, pid: Pid, x: string)
    requires ProcsKnow(w, s) && ReturnedFresh(w, s, pid, x)
    ensures HasBlob(w, s.disk, x) && OwnOf(s.procs[pid]) == Some(BlobInode(w, s.disk, x))
  {
    assert Ready(w, s.disk, s.procs[pid]);
  }

  predicate FaultFree(actions: seq<Action>) {
    forall a :: a in actions ==> a.Begin? || a.Run? || a.WriteBack?
  }

  /** The process that linked the blob, from the link until it returns. */
  predicate IsLinker(w: World, pc: Pc, x: string) {
    match pc
    case SyncBlob(job, deduped) => !deduped && Digest(w, job.data) == x
    case SyncChain(job, deduped, _) => !deduped && Digest(w, job.data) == x
    case Cleanup(job, kept) => kept == Kept(false) && Digest(w, job.data) == x
    case Stored(job, deduped) => !deduped && Digest(w, job.data) == x
    case _ => false
  }

  ghost predicate HasLinker(w: World, s: State, x: string) {
    exists pid :: pid in s.procs && IsLinker(w, s.procs[pid], x)
  }

  lemma LinkerGoesOn(w: World, d: Disk, pc: Pc, c: Choice, x: string)
    requires Ready(w, d, pc) && IsLinker(w, pc, x) && Step(w, d, pc, c).Turn?
    ensures IsLinker(w, Step(w, d, pc, c).pc, x)
  {
    if pc.SyncChain? {
      var blob := BlobPath(w, x);
      BlobPathInTree(w, x);
      assert blob[..|pc.dir|] == pc.dir;
      assert IsDir(d, blob[..|pc.dir|]);
    }
  }

  lemma StepKeepsLinker(w: World, foreign: set<Inode>, s: State, pid: Pid, c: Choice, s': State, x: string)
    requires Inv(w, foreign, s) && Next(w, s, Run(pid, c), s') && IsDigest(x) && GetsKeepOff(s, iset{BlobPath(w, x)})
    requires BlobPath(w, x) in s.disk.cur ==> HasLinker(w, s, x)
    ensures BlobPath(w, x) in s'.disk.cur ==> HasLinker(w, s', x)
  {
    var pc := s.procs[pid];
    var blob := BlobPath(w, x);
    if blob in s.disk.cur {
      var q :| q in s.procs && IsLinker(w, s.procs[q], x);
      if q == pid {
        LinkerGoesOn(w, s.disk, pc, c, x);
      }
      assert IsLinker(w, s'.procs[q], x);
    } else if blob in s'.disk.cur {
      NewBlobHasLinker(w, s.disk, pc, c, x);
      assert IsLinker(w, s'.procs[pid], x);
    }
  }

  lemma NewBlobHasLinker(w: World, d: Disk, pc: Pc, c: Choice, x: string)
    requires Ready(w, d, pc) && Step(w, d, pc, c).Turn? && IsDigest(x) && DestOf(pc) != Some(BlobPath(w, x))
    requires BlobPath(w, x) !in d.cur && BlobPath(w, x) in Step(w, d, pc, c).disk.cur
    ensures IsLinker(w, Step(w, d, pc, c).pc, x)
  {
    StepNames(w, d, pc, c, BlobPath(w, x));
    if !pc.LinkBlob? {
      ReadyNamesPlaced(w, d, pc);
      BlobNamesAdded(w, pc, c, x);
    } else {
      BlobPathInTree(w, x);
      BlobPathInTree(w, Digest(w, pc.job.data));
    }
  }

  /** What holds of a digest absent at the start, as long as no get has its destination there. */
  ghost predicate LinkerInv(w: World, foreign: set<Inode>, s: State, x: string) {
    && Inv(w, foreign, s) && GetsKeepOff(s, iset{BlobPath(w, x)})
    && (BlobPath(w, x) in s.disk.cur ==> HasLinker(w, s, x))
  }

  lemma ActionKeepsLinker(w: World, foreign: set<Inode>, s: State, a: Action, s': State, x: string)
    requires LinkerInv(w, foreign, s, x) && Next(w, s, a, s') && IsDigest(x)
    requires (a.Begin? || a.Run? || a.WriteBack?) && BeginsOff(a, iset{BlobPath(w, x)})
    ensures LinkerInv(w, foreign, s', x)
  {
    ActionKeeps(w, foreign, s, a, s');
    ActionKeepsOff(w, s, a, s', iset{BlobPath(w, x)});
    if a.Run? {
      StepKeepsLinker(w, foreign, s, a.pid, a.choice, s', x);
    } else if BlobPath(w, x) in s.disk.cur {
      var q :| q in s.procs && IsLinker(w, s.procs[q], x);
      assert IsLinker(w, s'.procs[q], x);
    }
  }

  lemma {:induction false} LinkerExists(w: World, states: seq<State>, actions: seq<Action>, k: nat, x: string)
    requires IsRun(w, states, actions) && Init(w, states[0]) && k <= |actions| && FaultFree(actions)
    requires IsDigest(x) && BlobPath(w, x) !in states[0].disk.cur && RunKeepsOff(actions, iset{BlobPath(w, x)})
    ensures LinkerInv(w, states[0].disk.files.Keys, states[k], x)
  {
    if k == 0 {
      InitInvariant(w, states[0]);
    } else {
      LinkerExists(w, states, actions, k - 1, x);
      assert actions[k - 1] in actions && BeginsOff(actions[k - 1], iset{BlobPath(w, x)});
      ActionKeepsLinker(w, states[0].disk.files.Keys, states[k - 1], actions[k - 1], states[k], x);
    }
  }

  /**
   Without faults, over a digest absent at the start and no get's destination: when all puts have completed,
   exactly one of those that stored the digest reports deduped=false.
   */
  lemma ExactlyOneFresh(w: World, states: seq<State>, actions: seq<Action>, x: string, some: Pid)
    requires IsRun(w, states, actions) && Init(w, states[0]) && FaultFree(actions)
    requires BlobPath(w, x) !in states[0].disk.cur && RunKeepsOff(actions, iset{BlobPath(w, x)})
    requires var last := states[|actions|];
      (forall pid :: pid in last.procs ==> Finished(last.procs[pid])) && ReturnedFor(w, last, some, x)
    ensures var last := states[|actions|];
      exists pid :: ReturnedFresh(w, last, pid, x) && forall q :: ReturnedFresh(w, last, q, x) ==> q == pid
  {
    var n := |actions|;
    DigestPath(w, states[n].procs[some].job.data);
    StoredHasBlob(w, states, actions, n, some, x);
    LinkerExists(w, states, actions, n, x);
    var pid :| pid in states[n].procs && IsLinker(w, states[n].procs[pid], x);
    FinishedLinker(w, states[n], pid, x);
    forall q | ReturnedFresh(w, states[n], q, x)
      ensures q == pid
    {
      AtMostOneFresh(w, states, actions, n, n, q, pid, x);
    }
  }

  lemma StoredHasBlob(w: World, states: seq<State>, actions: seq<Action>, n: nat, pid: Pid, x: string)
    requires IsRun(w, states, actions) && Init(w, states[0]) && n <= |actions| && ReturnedFor(w, states[n], pid, x)
    ensures HasBlob(w, states[n].disk, x)
  {
    RunInvariant(w, states, actions, n);
    assert Ready(w, states[n].disk, states[n].procs[pid]);
  }

  lemma FinishedLinker(w: World, s: State, pid: Pid, x: string)
    requires pid in s.procs && IsLinker(w, s.procs[pid], x) && Finished(s.procs[pid])
    ensures ReturnedFresh(w, s, pid, x)
  {
  }

  // ---- integrity ----

  /**
   In every reachable state, as long as no get has a digest's path as its destination, whatever Duro linked at a
   digest's path is complete, synced and hashes to it.
   */
  lemma NoTornBlobEver(w: World, states: seq<State>, actions: seq<Action>, k: nat, x: string)
    requires IsRun(w, states, actions) && Init(w, states[0]) && k <= |actions| && RunKeepsOff(actions, BlobPaths(w))
    requires IsDigest(x) && HasBlob(w, states[k].disk, x) && BlobInode(w, states[k].disk, x) !in states[0].disk.files
    ensures GoodBlob(w, states[k].disk, x, |BlobData(w, states[k].disk, x)|)
    ensures SyncedBlob(w, states[k].disk, x, |BlobData(w, states[k].disk, x)|)
    ensures Hex(w.sha(BlobData(w, states[k].disk, x))) == x
  {
    RunKeepsBlobs(w, states, actions, k);
    assert Linked(states[k].disk, BlobPath(w, x), BlobInode(w, states[k].disk, x));
  }

  /** The name p still denotes what it denoted, with the same bytes. */
  ghost predicate SameContent(d: Disk, d': Disk, p: Path) {
    && p in d.cur && p in d'.cur && d'.cur[p] == d.cur[p]
    && (d.cur[p].Link? ==> d.cur[p].inode in d.files && d.cur[p].inode in d'.files
                           && d'.files[d.cur[p].inode].data == d.files[d.cur[p].inode].data)
  }

  predicate OwnTemp(s: State, a: Action, p: Path) {
    && (a.Run? || a.Break?) && a.pid in s.procs
    && TempName(s.procs[a.pid]) == Some(p)
  }

  function TempName(pc: Pc): Option<Path> {
    if JobOf(pc).Some? then Some(JobOf(pc).value.tmp)
    else if FetchOf(pc).Some? then Some(FetchOf(pc).value.tmp)
    else None
  }

  lemma WriteTouchesOnlyTemp(d: Disk, tmp: Path, i: Inode, chunk: Bytes, p: Path)
    requires ValidDisk(d) && Private(d, tmp, i) && p in d.cur && p != tmp
    ensures SameContent(d, Append(d, i, chunk), p)
  {
    if d.cur[p].Link? {
      assert Linked(d, p, d.cur[p].inode);
    }
  }

  lemma StepKeepsNode(w: World, d: Disk, pc: Pc, c: Choice, p: Path)
    requires p in d.cur && TempName(pc) != Some(p) && Step(w, d, pc, c).Turn?
    ensures p in Step(w, d, pc, c).disk.cur && Step(w, d, pc, c).disk.cur[p] == d.cur[p]
  {
  }

  lemma StepKeepsData(w: World, d: Disk, pc: Pc, c: Choice, i: Inode)
    requires i in d.files && Step(w, d, pc, c).Turn? && !pc.Copy? && !pc.FetchCopy?
    ensures i in Step(w, d, pc, c).disk.files && Step(w, d, pc, c).disk.files[i].data == d.files[i].data
  {
  }

  lemma StepTouchesOnlyTemp(w: World, d: Disk, pc: Pc, c: Choice, p: Path)
    requires Ready(w, d, pc) && p in d.cur && TempName(pc) != Some(p) && Step(w, d, pc, c).Turn?
    ensures SameContent(d, Step(w, d, pc, c).disk, p)
  {
    if d.cur[p].Link? {
      assert Linked(d, p, d.cur[p].inode);
    }
    if pc.Copy? {
      WriteTouchesOnlyTemp(d, pc.job.tmp, pc.job.inode, c.chunk, p);
    } else if pc.FetchCopy? {
      WriteTouchesOnlyTemp(d, pc.fetch.tmp, pc.fetch.inode, c.chunk, p);
    } else {
      StepKeepsNode(w, d, pc, c, p);
      if d.cur[p].Link? {
        StepKeepsData(w, d, pc, c, d.cur[p].inode);
      }
    }
  }

  lemma FaultTouchesOnlyTemp(w: World, d: Disk, pc: Pc, c: Choice, p: Path)
    requires Ready(w, d, pc) && p in d.cur && TempName(pc) != Some(p) && Fault(d, pc, c).Turn?
    ensures SameContent(d, Fault(d, pc, c).disk, p)
  {
    if d.cur[p].Link? {
      assert Linked(d, p, d.cur[p].inode);
    }
    match pc
    case Copy(job) => WriteTouchesOnlyTemp(d, job.tmp, job.inode, c.chunk, p);
    case FetchCopy(f, _) => WriteTouchesOnlyTemp(d, f.tmp, f.inode, c.chunk, p);
    case _ =>
  }

  /**
   No action but a crash changes any name other than the acting process's own temporary, nor the bytes under
   it: neither a published blob, nor a destination that exists, nor one a racer has just created.
   */
  lemma NamesUntouched(w: World, foreign: set<Inode>, s: State, a: Action, s': State, p: Path)
    requires Inv(w, foreign, s) && Next(w, s, a, s') && !a.Crash?
    requires p in s.disk.cur && !OwnTemp(s, a, p)
    ensures SameContent(s.disk, s'.disk, p)
  {
    if s.disk.cur[p].Link? {
      assert Linked(s.disk, p, s.disk.cur[p].inode);
    }
    match a
    case Run(pid, c) => StepTouchesOnlyTemp(w, s.disk, s.procs[pid], c, p);
    case Break(pid, c) => FaultTouchesOnlyTemp(w, s.disk, s.procs[pid], c, p);
    case _ =>
  }

  lemma PublishedUnchanged(w: World, foreign: set<Inode>, s: State, a: Action, s': State, p: Path)
    requires Inv(w, foreign, s) && Next(w, s, a, s') && !a.Crash?
    requires BlobTree(w) <= p && !IsFetchName(p) && p in s.disk.cur
    ensures SameContent(s.disk, s'.disk, p)
  {
    if OwnTemp(s, a, p) {
      TempNames(w, s.disk, s.procs[a.pid]);
    }
    NamesUntouched(w, foreign, s, a, s', p);
  }

  lemma TempNames(w: World, d: Disk, pc: Pc)
    requires Ready(w, d, pc) && TempName(pc).Some?
    ensures BlobTree(w) <= TempName(pc).value ==> IsFetchName(TempName(pc).value)
  {
    if JobOf(pc).Some? {
      StagingOutsideTree(w, JobOf(pc).value.tmp);
    }
  }

  lemma BlobNotFetchName(w: World, x: string)
    requires IsDigest(x)
    ensures BlobTree(w) <= BlobPath(w, x) && !IsFetchName(BlobPath(w, x))
  {
    BlobPathInTree(w, x);
    if IsFetchName(BlobPath(w, x)) {
      FetchNameApart(w, BlobPath(w, x));
    }
  }

  // ---- names under sha256, over crashes ----

  /** The name denotes this file, on disk nothing else, and the file is synced. */
  ghost predicate Settled(d: Disk, p: Path, i: Inode) {
    && p in d.cur && d.cur[p] == Link(i) && (p in d.dur ==> d.dur[p] == Link(i))
    && i in d.files && d.files[i].synced
  }

  lemma FrameSettled(w: World, d: Disk, d': Disk, mine: Option<Inode>, p: Path, i: Inode)
    requires Frame(w, d, d', mine) && Settled(d, p, i) && IsBlobPath(w, p)
    requires p in d'.dur ==> (p in d.dur && d'.dur[p] == d.dur[p]) || (p in d.cur && d'.dur[p] == d.cur[p])
    ensures Settled(d', p, i) && d'.files[i].data == d.files[i].data
  {
    assert Linked(d, p, i);
  }

  /** What is on disk under a name only ever becomes what processes see under it. */
  lemma StepSyncs(w: World, d: Disk, pc: Pc, c: Choice, p: Path)
    requires Step(w, d, pc, c).Turn? && p in Step(w, d, pc, c).disk.dur
    ensures var d' := Step(w, d, pc, c).disk;
      (p in d.dur && d'.dur[p] == d.dur[p]) || (p in d.cur && d'.dur[p] == d.cur[p])
  {
  }

  /** A name of a blob that an action does not lose keeps its file and its bytes, crash or no crash. */
  lemma SettledStays(w: World, foreign: set<Inode>, s: State, a: Action, s': State, p: Path, i: Inode)
    requires Inv(w, foreign, s) && Next(w, s, a, s') && IsBlobPath(w, p) && Settled(s.disk, p, i) && p in s'.disk.cur
    ensures Settled(s'.disk, p, i) && s'.disk.files[i].data == s.disk.files[i].data
  {
    match a
    case Run(pid, c) =>
      StepSound(w, s.disk, s.procs[pid], c);
      if p in s'.disk.dur {
        StepSyncs(w, s.disk, s.procs[pid], c, p);
      }
      FrameSettled(w, s.disk, s'.disk, OwnOf(s.procs[pid]), p, i);
    case Break(pid, c) =>
      FaultSound(w, s.disk, s.procs[pid], c);
      FaultNames(s.disk, s.procs[pid], c);
      FrameSettled(w, s.disk, s'.disk, OwnOf(s.procs[pid]), p, i);
    case WriteBack(paths, inodes) =>
      FlushFrame(w, s.disk, paths, inodes, None);
      FrameSettled(w, s.disk, s'.disk, None, p, i);
    case _ =>
  }

  ghost predicate NeverLost(states: seq<State>, k: nat, j: nat, p: Path)
    requires k <= j < |states|
  {
    forall m :: k <= m <= j ==> p in states[m].disk.cur
  }

  /**
   Over any run, with any crashes: a digest's path whose file was synced keeps that file and its bytes until the
   path itself is lost in a crash. So it denotes something else only if it was lost and linked anew.
   */
  lemma {:induction false} BlobKeptOrLost(w: World, states: seq<State>, actions: seq<Action>, k: nat, j: nat, x: string, i: Inode)
    requires IsRun(w, states, actions) && Init(w, states[0]) && k <= j <= |actions| && IsDigest(x)
    requires Settled(states[k].disk, BlobPath(w, x), i) && NeverLost(states, k, j, BlobPath(w, x))
    ensures Settled(states[j].disk, BlobPath(w, x), i) && states[j].disk.files[i].data == states[k].disk.files[i].data
  {
    if k < j {
      BlobKeptOrLost(w, states, actions, k, j - 1, x, i);
      RunInvariant(w, states, actions, j - 1);
      assert IsBlobPath(w, BlobPath(w, x));
      SettledStays(w, states[0].disk.files.Keys, states[j - 1], actions[j - 1], states[j], BlobPath(w, x), i);
    }
  }

  ghost predicate NoCrash(actions: seq<Action>, k: nat, j: nat)
    requires k <= j <= |actions|
  {
    forall m :: k <= m < j ==> !actions[m].Crash?
  }

  /** Between crashes, every name under sha256 but a fetch's temporary keeps denoting the same file with the same bytes. */
  lemma {:induction false} PublishedUnchangedOver(w: World, states: seq<State>, actions: seq<Action>, k: nat, j: nat, p: Path)
    requires IsRun(w, states, actions) && Init(w, states[0]) && k <= j <= |actions| && NoCrash(actions, k, j)
    requires BlobTree(w) <= p && !IsFetchName(p) && p in states[k].disk.cur
    ensures SameContent(states[k].disk, states[j].disk, p)
  {
    RunInvariant(w, states, actions, j);
    if k == j {
      if states[k].disk.cur[p].Link? {
        assert Linked(states[k].disk, p, states[k].disk.cur[p].inode);
      }
    } else {
      PublishedUnchangedOver(w, states, actions, k, j - 1, p);
      RunInvariant(w, states, actions, j - 1);
      PublishedUnchanged(w, states[0].disk.files.Keys, states[j - 1], actions[j - 1], states[j], p);
    }
  }

  /**
   While a blob's stored bytes are corrupt or of another size, no put of that digest and size has returned
   or will return success, and until a crash those bytes stay exactly as they are.
   */
  lemma CorruptBlobNeverKept(w: World, states: seq<State>, actions: seq<Action>, k: nat, j: nat, pid: Pid, data: Bytes)
    requires IsRun(w, states, actions) && Init(w, states[0]) && k <= j <= |actions| && NoCrash(actions, k, j)
    requires HasBlob(w, states[k].disk, Digest(w, data))
    requires !GoodBlob(w, states[k].disk, Digest(w, data), |data|)
    ensures SameContent(states[k].disk, states[j].disk, BlobPath(w, Digest(w, data)))
    ensures pid in states[j].procs && states[j].procs[pid].Stored? ==> states[j].procs[pid].job.data != data
  {
    HexOfSumIsDigest(w.sha(data));
    BlobNotFetchName(w, Digest(w, data));
    PublishedUnchangedOver(w, states, actions, k, j, BlobPath(w, Digest(w, data)));
    RunInvariant(w, states, actions, j);
    if pid in states[j].procs && states[j].procs[pid].Stored? {
      assert Ready(w, states[j].disk, states[j].procs[pid]);
    }
  }

  // ---- staging ----

  /** The actions that leave a staged temporary behind: dying with one, or failing to unlink it. */
  predicate LeavesTemp(s: State, a: Action) {
    || a.Crash?
    || (a.Kill? && a.pid in s.procs && JobOf(s.procs[a.pid]).Some?)
    || (a.Break? && a.pid in s.procs && s.procs[a.pid].Cleanup?)
  }

  predicate NoPutInProgress(s: State) {
    forall pid :: pid in s.procs ==> JobOf(s.procs[pid]) == None
  }

  lemma {:induction false} LitterUnchanged(w: World, states: seq<State>, actions: seq<Action>, k: nat, j: nat)
    requires IsRun(w, states, actions) && k <= j <= |actions|
    requires forall m :: k <= m < j ==> !LeavesTemp(states[m], actions[m])
    ensures states[j].litter == states[k].litter
  {
    if k < j {
      LitterUnchanged(w, states, actions, k, j - 1);
      assert !LeavesTemp(states[j - 1], actions[j - 1]);
      assert Next(w, states[j - 1], actions[j - 1], states[j]);
    }
  }

  /**
   For every schedule of failing calls: if no process dies with a temporary and every unlink succeeds, then
   whenever no put is in progress the staging directory holds exactly the names it held before.
   */
  lemma StagingRestored(w: World, states: seq<State>, actions: seq<Action>, k: nat, j: nat)
    requires IsRun(w, states, actions) && Init(w, states[0]) && k <= j <= |actions|
    requires forall m :: k <= m < j ==> !LeavesTemp(states[m], actions[m])
    requires NoPutInProgress(states[k]) && NoPutInProgress(states[j]) && RunKeepsOff(actions, StagingPaths(w))
    ensures Staging(w, states[j].disk) == Staging(w, states[k].disk)
  {
    LitterUnchanged(w, states, actions, k, j);
    RunKeepsStaging(w, states, actions, k);
    RunKeepsStaging(w, states, actions, j);
    StagingIsLitter(w, states[k]);
    StagingIsLitter(w, states[j]);
  }

  lemma StagingIsLitter(w: World, s: State)
    requires StagingExact(w, s) && NoPutInProgress(s)
    ensures Staging(w, s.disk) == s.litter
  {
    assert forall t, pid :: !OwnsTemp(s, t, pid);
    forall t
      ensures t in Staging(w, s.disk) <==> t in s.litter
    {
    }
  }

  // ---- get ----

  /** GetToWriter returns nil only when everything it delivered hashes to the digest, even over a corrupt store. */
  lemma StreamedIsVerified(w: World, states: seq<State>, actions: seq<Action>, k: nat, pid: Pid)
    requires IsRun(w, states, actions) && Init(w, states[0]) && k <= |actions|
    requires pid in states[k].procs && states[k].procs[pid].Streamed?
    ensures Hex(w.sha(states[k].procs[pid].sent)) == states[k].procs[pid].digest
  {
    RunInvariant(w, states, actions, k);
    assert Ready(w, states[k].disk, states[k].procs[pid]);
  }

  /**
   GetToFile returns nil only with the destination holding verified, synced bytes under a synced entry. That is so
   until a crash; DeliveredForever and DeliveredSurvivesIff say what a crash leaves of it.
   */
  lemma FetchedIsDelivered(w: World, states: seq<State>, actions: seq<Action>, k: nat, pid: Pid)
    requires IsRun(w, states, actions) && Init(w, states[0]) && k <= |actions|
    requires pid in states[k].procs && states[k].procs[pid].Fetched?
    ensures var f, d := states[k].procs[pid].fetch, states[k].disk;
      Delivered(w, d, f) && Hex(w.sha(d.files[d.cur[f.dest].inode].data)) == f.digest
  {
    RunInvariant(w, states, actions, k);
    assert Ready(w, states[k].disk, states[k].procs[pid]);
  }

  /** Of any number of gets to one destination at most one has returned nil since the last crash. */
  lemma AtMostOneFetch(w: World, states: seq<State>, actions: seq<Action>, k: nat, p: Pid, q: Pid)
    requires IsRun(w, states, actions) && Init(w, states[0]) && k <= |actions|
    requires p in states[k].procs && states[k].procs[p].Fetched?
    requires q in states[k].procs && states[k].procs[q].Fetched?
    requires states[k].procs[p].fetch.dest == states[k].procs[q].fetch.dest
    ensures p == q
  {
    FetchedIsDelivered(w, states, actions, k, p);
    FetchedIsDelivered(w, states, actions, k, q);
    RunInvariant(w, states, actions, k);
  }

  // ---- delivered destinations, over crashes ----

  /** A delivered destination whose directory is on disk with all above it. */
  ghost predicate Anchored(w: World, d: Disk, f: Fetch) {
    Delivered(w, d, f) && DurablePath(d, Parent(f.dest))
  }

  predicate HasFetched(s: State, pid: Pid, f: Fetch) {
    pid in s.procs && (s.procs[pid] == Fetched(f) || s.procs[pid] == FetchedEarlier(f))
  }

  lemma FrameDelivered(w: World, d: Disk, d': Disk, mine: Option<Inode>, f: Fetch)
    requires ValidDisk(d) && Frame(w, d, d', mine) && Anchored(w, d, f) && mine != Some(f.inode)
    ensures Anchored(w, d', f)
  {
    Stable(w, d, d', mine, Fetched(f));
    assert f.dest[..|f.dest| - 1] == Parent(f.dest);
    FrameDurablePath(w, d, d', mine, Parent(f.dest));
  }

  lemma AnchoredIsDurable(w: World, d: Disk, f: Fetch)
    requires Delivered(w, d, f)
    ensures DurablePath(d, Parent(f.dest)) <==> DurablePath(d, f.dest)
  {
    var n := |f.dest|;
    assert forall k :: 0 <= k < n ==> Parent(f.dest)[..k] == f.dest[..k];
    assert f.dest[..n] == f.dest;
  }

  lemma CrashKeepsDelivered(w: World, d: Disk, d': Disk, f: Fetch)
    requires Crashed(d, d') && Anchored(w, d, f)
    ensures Anchored(w, d', f)
  {
    AnchoredIsDurable(w, d, f);
    DurablePathSurvives(d, d', f.dest);
    assert f.dest[..|f.dest|] == f.dest;
    AnchoredIsDurable(w, d', f);
  }

  lemma AnchoredStays(w: World, foreign: set<Inode>, s: State, a: Action, s': State, pid: Pid, f: Fetch)
    requires Inv(w, foreign, s) && Next(w, s, a, s') && HasFetched(s, pid, f) && Anchored(w, s.disk, f)
    ensures HasFetched(s', pid, f) && Anchored(w, s'.disk, f)
  {
    FetchedStays(w, s, a, s', pid, f);
    match a
    case Run(p, c) =>
      StepSound(w, s.disk, s.procs[p], c);
      TurnKeepsAnchored(w, s, p, Step(w, s.disk, s.procs[p], c), pid, f);
    case Break(p, c) =>
      FaultSound(w, s.disk, s.procs[p], c);
      TurnKeepsAnchored(w, s, p, Fault(s.disk, s.procs[p], c), pid, f);
    case WriteBack(paths, inodes) =>
      FlushFrame(w, s.disk, paths, inodes, None);
      FrameDelivered(w, s.disk, s'.disk, None, f);
    case Crash(d') => CrashKeepsDelivered(w, s.disk, d', f);
    case _ =>
  }

  lemma FetchedStays(w: World, s: State, a: Action, s': State, pid: Pid, f: Fetch)
    requires Next(w, s, a, s') && HasFetched(s, pid, f)
    ensures HasFetched(s', pid, f) && ((a.Run? || a.Break?) ==> a.pid != pid)
  {
  }

  lemma TurnKeepsAnchored(w: World, s: State, p: Pid, t: Turn, pid: Pid, f: Fetch)
    requires ProcsKnow(w, s) && ValidDisk(s.disk) && p in s.procs && p != pid && HasFetched(s, pid, f)
    requires t.Turn? && Sound(w, s.disk, s.procs[p], t) && Anchored(w, s.disk, f)
    ensures Anchored(w, t.disk, f)
  {
    FrameDelivered(w, s.disk, t.disk, OwnOf(s.procs[p]), f);
  }

  /** A get that has returned nil, its destination delivered for good. */
  ghost predicate Rests(w: World, s: State, pid: Pid, f: Fetch) {
    HasFetched(s, pid, f) && Anchored(w, s.disk, f)
  }

  lemma RestsStays(w: World, foreign: set<Inode>, s: State, a: Action, s': State, pid: Pid, f: Fetch)
    requires Inv(w, foreign, s) && Next(w, s, a, s') && Rests(w, s, pid, f)
    ensures Rests(w, s', pid, f)
  {
    AnchoredStays(w, foreign, s, a, s', pid, f);
  }

  lemma {:induction false} AnchoredForever(w: World, states: seq<State>, actions: seq<Action>, k: nat, j: nat, pid: Pid, f: Fetch)
    requires IsRun(w, states, actions) && Init(w, states[0]) && k <= j <= |actions| && Rests(w, states[k], pid, f)
    ensures Rests(w, states[j], pid, f)
  {
    if k < j {
      AnchoredForever(w, states, actions, k, j - 1, pid, f);
      RunInvariant(w, states, actions, j - 1);
      RestsStays(w, states[0].disk.files.Keys, states[j - 1], actions[j - 1], states[j], pid, f);
    }
  }

  /** A directory that is on disk with all above it stays so for ever. */
  lemma {:induction false} DurableDirStays(w: World, states: seq<State>, actions: seq<Action>, k: nat, j: nat, dir: Path)
    requires IsRun(w, states, actions) && Init(w, states[0]) && k <= j <= |actions|
    requires IsDir(states[k].disk, dir) && DurablePath(states[k].disk, dir)
    ensures IsDir(states[j].disk, dir) && DurablePath(states[j].disk, dir)
  {
    if k < j {
      DurableDirStays(w, states, actions, k, j - 1, dir);
      RunInvariant(w, states, actions, j - 1);
      ActionKeepsDurableDir(w, states[0].disk.files.Keys, states[j - 1], actions[j - 1], states[j], dir);
    }
  }

  lemma ActionKeepsDurableDir(w: World, foreign: set<Inode>, s: State, a: Action, s': State, dir: Path)
    requires Inv(w, foreign, s) && Next(w, s, a, s') && IsDir(s.disk, dir) && DurablePath(s.disk, dir)
    ensures IsDir(s'.disk, dir) && DurablePath(s'.disk, dir)
  {
    match a
    case Run(pid, c) =>
      StepSound(w, s.disk, s.procs[pid], c);
      FrameDurablePath(w, s.disk, s'.disk, OwnOf(s.procs[pid]), dir);
    case Break(pid, c) =>
      FaultSound(w, s.disk, s.procs[pid], c);
      FrameDurablePath(w, s.disk, s'.disk, OwnOf(s.procs[pid]), dir);
    case WriteBack(paths, inodes) =>
      FlushFrame(w, s.disk, paths, inodes, None);
      FrameDurablePath(w, s.disk, s'.disk, None, dir);
    case Crash(d') => DurablePathSurvives(s.disk, d', dir);
    case _ =>
  }

  /**
   A destination that was delivered into a directory that was on disk, with all above it, in some earlier state
   (before the call, say) stays delivered for ever, whatever crashes; and no other get to that destination returns
   nil from then on.
   */
  lemma DeliveredForever(w: World, states: seq<State>, actions: seq<Action>, m: nat, k: nat, j: nat, pid: Pid, f: Fetch)
    requires IsRun(w, states, actions) && Init(w, states[0]) && m <= k <= j <= |actions|
    requires IsDir(states[m].disk, Parent(f.dest)) && DurablePath(states[m].disk, Parent(f.dest))
    requires pid in states[k].procs && states[k].procs[pid] == Fetched(f)
    ensures HasFetched(states[j], pid, f) && Delivered(w, states[j].disk, f)
    ensures forall q :: q in states[j].procs && states[j].procs[q].Fetched? && states[j].procs[q].fetch.dest == f.dest ==> q == pid
  {
    StaysDelivered(w, states, actions, m, k, j, pid, f);
    forall q | q in states[j].procs && states[j].procs[q].Fetched? && states[j].procs[q].fetch.dest == f.dest
      ensures q == pid
    {
      FetchedIsDelivered(w, states, actions, j, q);
      SoleOwner(w, states, actions, j, pid, q);
    }
  }

  lemma StaysDelivered(w: World, states: seq<State>, actions: seq<Action>, m: nat, k: nat, j: nat, pid: Pid, f: Fetch)
    requires IsRun(w, states, actions) && Init(w, states[0]) && m <= k <= j <= |actions|
    requires IsDir(states[m].disk, Parent(f.dest)) && DurablePath(states[m].disk, Parent(f.dest))
    requires pid in states[k].procs && states[k].procs[pid] == Fetched(f)
    ensures HasFetched(states[j], pid, f) && Anchored(w, states[j].disk, f)
  {
    DurableDirStays(w, states, actions, m, k, Parent(f.dest));
    FetchedIsDelivered(w, states, actions, k, pid);
    AnchoredForever(w, states, actions, k, j, pid, f);
  }

  lemma SoleOwner(w: World, states: seq<State>, actions: seq<Action>, j: nat, p: Pid, q: Pid)
    requires IsRun(w, states, actions) && Init(w, states[0]) && j <= |actions|
    requires p in states[j].procs && q in states[j].procs
    requires OwnOf(states[j].procs[p]).Some? && OwnOf(states[j].procs[p]) == OwnOf(states[j].procs[q])
    ensures p == q
  {
    RunInvariant(w, states, actions, j);
  }

  /** When a get has returned nil, its destination survives every crash exactly if its directory's chain is on disk. */
  lemma DeliveredSurvivesIff(w: World, states: seq<State>, actions: seq<Action>, k: nat, pid: Pid)
    requires IsRun(w, states, actions) && Init(w, states[0]) && k <= |actions|
    requires pid in states[k].procs && states[k].procs[pid].Fetched?
    ensures var f, d := states[k].procs[pid].fetch, states[k].disk;
      DurablePath(d, Parent(f.dest)) <==> forall d' :: Crashed(d, d') ==> Delivered(w, d', f)
  {
    var f, d := states[k].procs[pid].fetch, states[k].disk;
    FetchedIsDelivered(w, states, actions, k, pid);
    RunInvariant(w, states, actions, k);
    AnchoredIsDurable(w, d, f);
    SurvivesIffDurable(d, f.dest);
    if DurablePath(d, Parent(f.dest)) {
      forall d' | Crashed(d, d')
        ensures Delivered(w, d', f)
      {
        CrashKeepsDelivered(w, d, d', f);
      }
    }
  }

  /** A file that is still being filled, or was never verified, is visible only under its temporary name. */
  ghost predicate Complete(w: World, d: Disk, p: Path, x: string) {
    && p in d.cur && d.cur[p].Link? && d.cur[p].inode in d.files
    && d.files[d.cur[p].inode].synced && Hex(w.sha(d.files[d.cur[p].inode].data)) == x
  }

  predicate IsNewTemp(w: World, pc: Pc, p: Path) {
    || (pc.Create? && ChildOf(TempDir(w), p) && "duro-put-" <= p[|p| - 1])
    || (pc.FetchCreate? && ChildOf(Parent(pc.dest), p) && "duro-get-" <= p[|p| - 1])
  }

  /** The digest a process publishes under. */
  function PublishedDigest(w: World, pc: Pc): string {
    if pc.LinkBlob? then Hex(w.sha(pc.job.data)) else if pc.FetchLink? then pc.fetch.digest else ""
  }

  /**
   Every file name that appears is either a new temporary, or is linked complete: synced bytes that hash
   to the digest being published. No name that exists is ever taken over.
   */
  lemma VisibleOnlyComplete(w: World, foreign: set<Inode>, s: State, a: Action, s': State, p: Path)
    requires Inv(w, foreign, s) && Next(w, s, a, s') && !a.Crash?
    requires p !in s.disk.cur && p in s'.disk.cur && s'.disk.cur[p].Link?
    ensures a.Run? && a.pid in s.procs
    ensures || Complete(w, s'.disk, p, PublishedDigest(w, s.procs[a.pid]))
            || (IsNewTemp(w, s.procs[a.pid], p) && s'.disk.cur[p].inode !in s.disk.files)
  {
    match a
    case Run(pid, c) => NewNameComplete(w, s.disk, s.procs[pid], c, p);
    case Break(pid, c) => FaultNames(s.disk, s.procs[pid], c);
    case _ =>
  }

  lemma NewNameComplete(w: World, d: Disk, pc: Pc, c: Choice, p: Path)
    requires Ready(w, d, pc) && Step(w, d, pc, c).Turn?
    requires p !in d.cur && p in Step(w, d, pc, c).disk.cur && Step(w, d, pc, c).disk.cur[p].Link?
    ensures var d' := Step(w, d, pc, c).disk;
      || Complete(w, d', p, PublishedDigest(w, pc))
      || (IsNewTemp(w, pc, p) && d'.cur[p].inode !in d.files)
  {
    if pc.LinkBlob? || pc.FetchLink? {
      LinkedComplete(w, d, pc, c, p);
    } else {
      CreatedTemp(w, d, pc, c, p);
    }
  }

  lemma LinkedComplete(w: World, d: Disk, pc: Pc, c: Choice, p: Path)
    requires Ready(w, d, pc) && Step(w, d, pc, c).Turn? && (pc.LinkBlob? || pc.FetchLink?)
    requires p !in d.cur && p in Step(w, d, pc, c).disk.cur
    ensures Complete(w, Step(w, d, pc, c).disk, p, PublishedDigest(w, pc))
  {
  }

  lemma CreatedTemp(w: World, d: Disk, pc: Pc, c: Choice, p: Path)
    requires Step(w, d, pc, c).Turn? && !pc.LinkBlob? && !pc.FetchLink?
    requires p !in d.cur && p in Step(w, d, pc, c).disk.cur && Step(w, d, pc, c).disk.cur[p].Link?
    ensures IsNewTemp(w, pc, p) && Step(w, d, pc, c).disk.cur[p].inode !in d.files
  {
    StepNames(w, d, pc, c, p);
  }
}
