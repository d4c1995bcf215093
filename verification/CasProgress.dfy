/** When a put can succeed: nothing stands in the way of its blob, and nothing another process does gets in its way. */
module CasProgress {
  import opened Octets
  import opened Wrappers
  import opened Identity
  import opened Filesystem
  import opened CasProtocol
  import opened CasInvariant
  import opened CasSteps
  import opened CasReachable
  import CasTheorems

  /** A directory between the blob tree and the digest's blob. */
  predicate Level(w: World, x: string, p: Path) {
    BlobTree(w) <= p <= BlobDir(w, x)
  }

  /** No file where a directory must be, and at the digest's path nothing, or these bytes. */
  ghost predicate Clear(w: World, d: Disk, data: Bytes) {
    var x := Digest(w, data);
    && IsDir(d, BlobTree(w))
    && LevelsClear(w, d, x)
    && (BlobPath(w, x) in d.cur ==> GoodBlob(w, d, x, |data|))
  }

  /** So over a fresh store every put is clear. */
  lemma EmptyTreeIsClear(w: World, d: Disk, data: Bytes)
    requires IsDir(d, w.root + ["sha256"])
    requires forall p :: p in d.cur ==> !(w.root + ["sha256"] < p)
    ensures Clear(w, d, data)
  {
    var x := Digest(w, data);
    BlobPathInTree(w, x);
    forall p | Level(w, x, p) && p in d.cur
      ensures IsDir(d, p)
    {
      assert BlobTree(w) < p || p == BlobTree(w);
    }
  }

  /** Where a get's destination would be in the way: the blob's path and the directories above it in the tree. */
  ghost function InTheWay(w: World, x: string): iset<Path> {
    iset p | OnTheWay(w, x, p)
  }

  predicate OnTheWay(w: World, x: string, p: Path) {
    BlobTree(w) <= p <= BlobPath(w, x)
  }

  lemma NewLevelIsDir(w: World, d: Disk, pc: Pc, c: Choice, x: string, p: Path)
    requires Ready(w, d, pc) && Step(w, d, pc, c).Turn? && Level(w, x, p) && DestOf(pc) != Some(p)
    requires p !in d.cur && p in Step(w, d, pc, c).disk.cur
    ensures IsDir(Step(w, d, pc, c).disk, p)
  {
    ReadyNamesPlaced(w, d, pc);
    StepNames(w, d, pc, c, p);
    match pc
    case Create(_) => StagingOutsideTree(w, TempDir(w) + ["duro-put-" + c.name]);
    case LinkBlob(job) =>
      BlobPathInTree(w, Digest(w, job.data));
      BlobPathInTree(w, x);
    case FetchCreate(_, dest, _) => FetchNameApart(w, Parent(dest) + [FETCH_PREFIX + c.name]);
    case _ =>
  }

  lemma NewBlobIsGood(w: World, d: Disk, pc: Pc, c: Choice, data: Bytes)
    requires Ready(w, d, pc) && Step(w, d, pc, c).Turn? && NoCollision(w, d, data)
    requires DestOf(pc) != Some(BlobPath(w, Digest(w, data)))
    requires BlobPath(w, Digest(w, data)) !in d.cur && BlobPath(w, Digest(w, data)) in Step(w, d, pc, c).disk.cur
    ensures GoodBlob(w, Step(w, d, pc, c).disk, Digest(w, data), |data|)
  {
    var x := Digest(w, data);
    ReadyNamesPlaced(w, d, pc);
    StepNames(w, d, pc, c, BlobPath(w, x));
    HexOfSumIsDigest(w.sha(data));
    if !pc.LinkBlob? {
      BlobNamesAdded(w, pc, c, x);
    } else {
      BlobPathInTree(w, x);
      BlobPathInTree(w, Digest(w, pc.job.data));
      assert SameIfSameDigest(w, d.files[pc.job.inode].data, data);
    }
  }

  lemma LevelStays(w: World, foreign: set<Inode>, s: State, a: Action, s': State, x: string, p: Path)
    requires Inv(w, foreign, s) && Next(w, s, a, s') && !a.Crash? && GetsKeepOff(s, InTheWay(w, x))
    requires Level(w, x, p) && p in s'.disk.cur && (p in s.disk.cur ==> IsDir(s.disk, p))
    ensures IsDir(s'.disk, p)
  {
    if p in s.disk.cur {
      LevelNotFetchName(w, x, p);
      CasTheorems.PublishedUnchanged(w, foreign, s, a, s', p);
    } else {
      OnlyStepsAddNames(w, foreign, s, a, s', p);
      BlobPathInTree(w, x);
      assert p in InTheWay(w, x);
      NewLevelIsDir(w, s.disk, s.procs[a.pid], a.choice, x, p);
    }
  }

  lemma LevelNotFetchName(w: World, x: string, p: Path)
    requires Level(w, x, p)
    ensures !IsFetchName(p)
  {
    if IsFetchName(p) {
      FetchNameApart(w, p);
    }
  }

  /** No action but a crash gets in the way of a put, unless it is a get with its destination there. */
  lemma ClearStays(w: World, foreign: set<Inode>, s: State, a: Action, s': State, data: Bytes)
    requires Inv(w, foreign, s) && Next(w, s, a, s') && !a.Crash? && Clear(w, s.disk, data) && NoCollision(w, s.disk, data)
    requires GetsKeepOff(s, InTheWay(w, Digest(w, data)))
    ensures Clear(w, s'.disk, data)
  {
    TreeStays(w, foreign, s, a, s');
    LevelsStay(w, foreign, s, a, s', Digest(w, data));
    BlobStaysClear(w, foreign, s, a, s', data);
  }

  lemma TreeStays(w: World, foreign: set<Inode>, s: State, a: Action, s': State)
    requires Inv(w, foreign, s) && Next(w, s, a, s') && !a.Crash? && IsDir(s.disk, BlobTree(w))
    ensures IsDir(s'.disk, BlobTree(w))
  {
    CasTheorems.PublishedUnchanged(w, foreign, s, a, s', BlobTree(w));
  }

  ghost predicate LevelsClear(w: World, d: Disk, x: string) {
    forall p :: Level(w, x, p) && p in d.cur ==> IsDir(d, p)
  }

  lemma LevelsStay(w: World, foreign: set<Inode>, s: State, a: Action, s': State, x: string)
    requires Inv(w, foreign, s) && Next(w, s, a, s') && !a.Crash? && GetsKeepOff(s, InTheWay(w, x))
    requires LevelsClear(w, s.disk, x)
    ensures LevelsClear(w, s'.disk, x)
  {
    forall p | Level(w, x, p) && p in s'.disk.cur
      ensures IsDir(s'.disk, p)
    {
      LevelStays(w, foreign, s, a, s', x, p);
    }
  }

  lemma BlobStaysClear(w: World, foreign: set<Inode>, s: State, a: Action, s': State, data: Bytes)
    requires Inv(w, foreign, s) && Next(w, s, a, s') && !a.Crash? && Clear(w, s.disk, data) && NoCollision(w, s.disk, data)
    requires GetsKeepOff(s, InTheWay(w, Digest(w, data)))
    ensures BlobPath(w, Digest(w, data)) in s'.disk.cur ==> GoodBlob(w, s'.disk, Digest(w, data), |data|)
  {
    var blob := BlobPath(w, Digest(w, data));
    HexOfSumIsDigest(w.sha(data));
    CasTheorems.BlobNotFetchName(w, Digest(w, data));
    if blob in s.disk.cur {
      CasTheorems.PublishedUnchanged(w, foreign, s, a, s', blob);
    } else if blob in s'.disk.cur {
      OnlyStepsAddNames(w, foreign, s, a, s', blob);
      assert blob in InTheWay(w, Digest(w, data));
      NewBlobIsGood(w, s.disk, s.procs[a.pid], a.choice, data);
    }
  }

  lemma OnlyStepsAddNames(w: World, foreign: set<Inode>, s: State, a: Action, s': State, p: Path)
    requires Inv(w, foreign, s) && Next(w, s, a, s') && !a.Crash? && p !in s.disk.cur && p in s'.disk.cur
    ensures a.Run? && a.pid in s.procs && Ready(w, s.disk, s.procs[a.pid])
    ensures Step(w, s.disk, s.procs[a.pid], a.choice).Turn?
    ensures s'.disk == Step(w, s.disk, s.procs[a.pid], a.choice).disk
  {
    if a.Break? {
      FaultNames(s.disk, s.procs[a.pid], a.choice);
    }
  }

  /** A put of these bytes finds its way clear, and no get in progress is about to obstruct it. */
  ghost predicate Free(w: World, s: State, data: Bytes) {
    Clear(w, s.disk, data) && GetsKeepOff(s, InTheWay(w, Digest(w, data)))
  }

  /** No crash, and no get begins with a destination there. */
  ghost predicate Calm(actions: seq<Action>, k: nat, j: nat, off: iset<Path>)
    requires k <= j <= |actions|
  {
    forall m :: k <= m < j ==> !actions[m].Crash? && BeginsOff(actions[m], off)
  }

  /** All the while no file holds other bytes with the same digest. */
  ghost predicate NoCollisionOver(w: World, states: seq<State>, k: nat, j: nat, data: Bytes)
    requires k <= j < |states|
  {
    forall m :: k <= m < j ==> NoCollision(w, states[m].disk, data)
  }

  lemma FreeStays(w: World, foreign: set<Inode>, s: State, a: Action, s': State, data: Bytes)
    requires Inv(w, foreign, s) && Next(w, s, a, s') && !a.Crash? && Free(w, s, data) && NoCollision(w, s.disk, data)
    requires BeginsOff(a, InTheWay(w, Digest(w, data)))
    ensures Free(w, s', data)
  {
    ClearStays(w, foreign, s, a, s', data);
    ActionKeepsOff(w, s, a, s', InTheWay(w, Digest(w, data)));
  }

  lemma {:induction false} FreeOver(w: World, states: seq<State>, actions: seq<Action>, k: nat, j: nat, data: Bytes)
    requires IsRun(w, states, actions) && Init(w, states[0]) && k <= j <= |actions|
    requires Calm(actions, k, j, InTheWay(w, Digest(w, data))) && Free(w, states[k], data)
    requires NoCollisionOver(w, states, k, j, data)
    ensures Free(w, states[j], data)
  {
    if k < j {
      FreeOver(w, states, actions, k, j - 1, data);
      RunInvariant(w, states, actions, j - 1);
      FreeStays(w, states[0].disk.files.Keys, states[j - 1], actions[j - 1], states[j], data);
    }
  }

  // ---- a put that is not disturbed succeeds ----

  /** Where a put is once it has read these bytes, as long as nothing has gone wrong. */
  predicate OnCourse(w: World, d: Disk, pc: Pc, data: Bytes) {
    match pc
    case SyncTemp(job) => job.data == data && SizeFits(job)
    case CheckSize(job) => job.data == data && SizeFits(job)
    case MakeDirs(job, _) => job.data == data
    case LinkBlob(job) => job.data == data
    case VerifyStat(job) => job.data == data && BlobPath(w, Digest(w, data)) in d.cur
    case VerifyOpen(job) => job.data == data && BlobPath(w, Digest(w, data)) in d.cur
    case VerifyRead(job, _, _) => job.data == data
    case SyncBlob(job, _) => job.data == data
    case SyncChain(job, _, _) => job.data == data
    case Cleanup(job, kept) => job.data == data && kept.Kept?
    case Stored(job, _) => job.data == data
    case _ => false
  }

  /** What was read has the size seen at open, if one was looked at. */
  predicate SizeFits(job: Job) {
    job.want == None || job.want == Some(|job.data|)
  }

  /** Only a file in the place of a shard directory can keep MkdirAll from going on. */
  lemma LevelFree(w: World, d: Disk, job: Job, depth: nat)
    requires Ready(w, d, MakeDirs(job, depth))
    ensures var p := BlobDir(w, Digest(w, job.data))[..depth];
      && (p in d.cur && Clear(w, d, job.data) ==> IsDir(d, p))
      && IsDir(d, Parent(p))
  {
    var dir := BlobDir(w, Digest(w, job.data));
    BlobPathInTree(w, Digest(w, job.data));
    assert Parent(dir[..depth]) == dir[..depth - 1];
    if depth <= |w.root| + 1 {
      assert dir[..depth] == BlobTree(w)[..depth];
    } else {
      assert Level(w, Digest(w, job.data), dir[..depth]);
    }
  }

  lemma StepOnCourse(w: World, d: Disk, pc: Pc, c: Choice, data: Bytes)
    requires Ready(w, d, pc) && Clear(w, d, data) && |data| <= MAX_INT64 && OnCourse(w, d, pc, data)
    requires Step(w, d, pc, c).Turn?
    ensures OnCourse(w, Step(w, d, pc, c).disk, Step(w, d, pc, c).pc, data)
  {
    match pc
    case MakeDirs(job, depth) => LevelFree(w, d, job, depth);
    case VerifyRead(job, i, seen) => VerifyOnCourse(w, d, job, i, seen, c);
    case SyncChain(job, _, dir) =>
      var blob := BlobPath(w, Digest(w, data));
      BlobPathInTree(w, Digest(w, data));
      assert blob[..|dir|] == dir && IsDir(d, blob[..|dir|]);
    case _ =>
  }

  lemma VerifyOnCourse(w: World, d: Disk, job: Job, i: Inode, seen: Bytes, c: Choice)
    requires Ready(w, d, VerifyRead(job, i, seen)) && Clear(w, d, job.data) && |job.data| <= MAX_INT64
    requires StepVerifyRead(w, d, job, i, seen, c).Turn?
    ensures !StepVerifyRead(w, d, job, i, seen, c).pc.Cleanup?
  {
    if c.chunk != [] {
      assert |seen + c.chunk| <= |d.files[i].data|;
    }
  }

  /** No crash, and this process's calls do not fail and it does not die; others' may, and they may. */
  predicate Undisturbed(actions: seq<Action>, k: nat, j: nat, pid: Pid)
    requires k <= j <= |actions|
  {
    forall m :: k <= m < j ==> !actions[m].Crash? && (actions[m].Break? || actions[m].Kill? ==> actions[m].pid != pid)
  }

  lemma ActionOnCourse(w: World, foreign: set<Inode>, s: State, a: Action, s': State, pid: Pid, data: Bytes)
    requires Inv(w, foreign, s) && Next(w, s, a, s') && !a.Crash? && (a.Break? || a.Kill? ==> a.pid != pid)
    requires pid in s.procs && OnCourse(w, s.disk, s.procs[pid], data)
    requires Clear(w, s.disk, data) && |data| <= MAX_INT64
    ensures pid in s'.procs && OnCourse(w, s'.disk, s'.procs[pid], data)
  {
    if a.Run? && a.pid == pid {
      StepOnCourse(w, s.disk, s.procs[pid], a.choice, data);
    } else if BlobPath(w, Digest(w, data)) in s.disk.cur {
      HexOfSumIsDigest(w.sha(data));
      CasTheorems.BlobNotFetchName(w, Digest(w, data));
      CasTheorems.PublishedUnchanged(w, foreign, s, a, s', BlobPath(w, Digest(w, data)));
    }
  }

  /** A put on course, its way free. */
  ghost predicate Advancing(w: World, s: State, pid: Pid, data: Bytes) {
    pid in s.procs && OnCourse(w, s.disk, s.procs[pid], data) && Free(w, s, data) && |data| <= MAX_INT64
  }

  lemma AdvancingStays(w: World, foreign: set<Inode>, s: State, a: Action, s': State, pid: Pid, data: Bytes)
    requires Inv(w, foreign, s) && Next(w, s, a, s') && !a.Crash? && (a.Break? || a.Kill? ==> a.pid != pid)
    requires Advancing(w, s, pid, data) && BeginsOff(a, InTheWay(w, Digest(w, data))) && NoCollision(w, s.disk, data)
    ensures Advancing(w, s', pid, data)
  {
    ActionOnCourse(w, foreign, s, a, s', pid, data);
    FreeStays(w, foreign, s, a, s', data);
  }

  /**
   With nothing in its way, a put that is not itself disturbed goes on towards success, whatever the other processes
   do, short of a get to a destination on its path: once it has finished it has stored its bytes.
   */
  lemma UndisturbedPutSucceeds(w: World, states: seq<State>, actions: seq<Action>, k: nat, j: nat, pid: Pid, data: Bytes)
    requires IsRun(w, states, actions) && Init(w, states[0]) && k <= j <= |actions| && Undisturbed(actions, k, j, pid)
    requires Calm(actions, k, j, InTheWay(w, Digest(w, data))) && Advancing(w, states[k], pid, data)
    requires NoCollisionOver(w, states, k, j, data)
    ensures Advancing(w, states[j], pid, data)
    ensures Finished(states[j].procs[pid]) ==> states[j].procs[pid].Stored? && states[j].procs[pid].job.data == data
  {
    PutAdvances(w, states, actions, k, j, pid, data);
    FinishedOnCourse(w, states[j].disk, states[j].procs[pid], data);
  }

  lemma FinishedOnCourse(w: World, d: Disk, pc: Pc, data: Bytes)
    requires OnCourse(w, d, pc, data)
    ensures Finished(pc) ==> pc.Stored? && pc.job.data == data
  {
  }

  lemma {:induction false} PutAdvances(w: World, states: seq<State>, actions: seq<Action>, k: nat, j: nat, pid: Pid, data: Bytes)
    requires IsRun(w, states, actions) && Init(w, states[0]) && k <= j <= |actions| && Undisturbed(actions, k, j, pid)
    requires Calm(actions, k, j, InTheWay(w, Digest(w, data))) && Advancing(w, states[k], pid, data)
    requires NoCollisionOver(w, states, k, j, data)
    ensures Advancing(w, states[j], pid, data)
  {
    if k < j {
      PutAdvances(w, states, actions, k, j - 1, pid, data);
      RunInvariant(w, states, actions, j - 1);
      AdvancingStays(w, states[0].disk.files.Keys, states[j - 1], actions[j - 1], states[j], pid, data);
    }
  }

  /**
   Without faults, over a digest absent at the start: once some put has read the bytes with its way free, and all
   operations have completed, exactly one put reports that it stored them fresh.
   */
  lemma ExactlyOneStoresFresh(w: World, states: seq<State>, actions: seq<Action>, k: nat, pid: Pid, data: Bytes)
    requires IsRun(w, states, actions) && Init(w, states[0]) && k <= |actions| && CasTheorems.FaultFree(actions)
    requires RunKeepsOff(actions, InTheWay(w, Digest(w, data)))
    requires BlobPath(w, Digest(w, data)) !in states[0].disk.cur && Advancing(w, states[k], pid, data)
    requires NoCollisionOver(w, states, k, |actions|, data)
    requires forall q :: q in states[|actions|].procs ==> Finished(states[|actions|].procs[q])
    ensures var last := states[|actions|];
      exists p :: CasTheorems.ReturnedFresh(w, last, p, Digest(w, data))
                  && forall q :: CasTheorems.ReturnedFresh(w, last, q, Digest(w, data)) ==> q == p
  {
    forall m | 0 <= m < |actions|
      ensures !actions[m].Crash? && !actions[m].Break? && !actions[m].Kill?
      ensures BeginsOff(actions[m], InTheWay(w, Digest(w, data))) && BeginsOff(actions[m], iset{BlobPath(w, Digest(w, data))})
    {
      assert actions[m] in actions;
      BlobPathInTree(w, Digest(w, data));
      assert BlobPath(w, Digest(w, data)) in InTheWay(w, Digest(w, data));
    }
    UndisturbedPutSucceeds(w, states, actions, k, |actions|, pid, data);
    CasTheorems.ExactlyOneFresh(w, states, actions, Digest(w, data), pid);
  }

  // ---- a get that is not disturbed succeeds ----

  /** The store holds these bytes under their digest. */
  ghost predicate Holds(w: World, d: Disk, data: Bytes) {
    HasBlob(w, d, Digest(w, data)) && BlobData(w, d, Digest(w, data)) == data
  }

  /** Where a GetToWriter of these bytes is as long as nothing has gone wrong. */
  predicate OnRead(w: World, pc: Pc, data: Bytes) {
    match pc
    case GetOpen(digest, to) => digest == Digest(w, data) && to == None
    case StreamCopy(digest, _, _) => digest == Digest(w, data)
    case Streamed(digest, sent) => digest == Digest(w, data) && sent == data
    case _ => false
  }

  lemma StepOnRead(w: World, d: Disk, pc: Pc, c: Choice, data: Bytes)
    requires Ready(w, d, pc) && Holds(w, d, data) && |data| <= MAX_INT64 && OnRead(w, pc, data) && Step(w, d, pc, c).Turn?
    ensures OnRead(w, Step(w, d, pc, c).pc, data)
  {
    HexOfSumIsDigest(w.sha(data));
    if pc.StreamCopy? && c.chunk != [] {
      assert |pc.sent + c.chunk| <= |data|;
    }
  }

  lemma HoldsStays(w: World, foreign: set<Inode>, s: State, a: Action, s': State, data: Bytes)
    requires Inv(w, foreign, s) && Next(w, s, a, s') && !a.Crash? && Holds(w, s.disk, data)
    ensures Holds(w, s'.disk, data)
  {
    HexOfSumIsDigest(w.sha(data));
    CasTheorems.BlobNotFetchName(w, Digest(w, data));
    CasTheorems.PublishedUnchanged(w, foreign, s, a, s', BlobPath(w, Digest(w, data)));
  }

  /** A get of stored bytes on its way. */
  ghost predicate Reads(w: World, s: State, pid: Pid, data: Bytes) {
    pid in s.procs && OnRead(w, s.procs[pid], data) && Holds(w, s.disk, data) && |data| <= MAX_INT64
  }

  /** One action of anyone, while a get of stored bytes is under way. */
  lemma ActionOnRead(w: World, foreign: set<Inode>, s: State, a: Action, s': State, pid: Pid, data: Bytes)
    requires Inv(w, foreign, s) && Next(w, s, a, s') && !a.Crash? && (a.Break? || a.Kill? ==> a.pid != pid)
    requires Reads(w, s, pid, data)
    ensures Reads(w, s', pid, data)
  {
    HoldsStays(w, foreign, s, a, s', data);
    if a.Run? && a.pid == pid {
      StepOnRead(w, s.disk, s.procs[pid], a.choice, data);
    }
  }

  lemma {:induction false} GetAdvances(w: World, states: seq<State>, actions: seq<Action>, k: nat, j: nat, pid: Pid, data: Bytes)
    requires IsRun(w, states, actions) && Init(w, states[0]) && k <= j <= |actions| && Undisturbed(actions, k, j, pid)
    requires Reads(w, states[k], pid, data)
    ensures Reads(w, states[j], pid, data)
  {
    if k < j {
      GetAdvances(w, states, actions, k, j - 1, pid, data);
      RunInvariant(w, states, actions, j - 1);
      ActionOnRead(w, states[0].disk.files.Keys, states[j - 1], actions[j - 1], states[j], pid, data);
    }
  }

  lemma FinishedOnRead(w: World, pc: Pc, data: Bytes)
    requires OnRead(w, pc, data)
    ensures Finished(pc) ==> pc == Streamed(Digest(w, data), data)
  {
  }

  /** A GetToWriter of stored bytes that is not itself disturbed delivers exactly them, if it finishes. */
  lemma UndisturbedGetSucceeds(w: World, states: seq<State>, actions: seq<Action>, k: nat, j: nat, pid: Pid, data: Bytes)
    requires IsRun(w, states, actions) && Init(w, states[0]) && k <= j <= |actions| && Undisturbed(actions, k, j, pid)
    requires Reads(w, states[k], pid, data)
    ensures Reads(w, states[j], pid, data)
    ensures Finished(states[j].procs[pid]) ==> states[j].procs[pid] == Streamed(Digest(w, data), data)
  {
    GetAdvances(w, states, actions, k, j, pid, data);
    FinishedOnRead(w, states[j].procs[pid], data);
  }

  // ---- a get to a file that is not disturbed succeeds ----

  /** Where a GetToFile of these bytes is as long as nothing has gone wrong. */
  predicate OnFetch(w: World, d: Disk, pc: Pc, dest: Path, data: Bytes) {
    match pc
    case GetStat(digest, to) => digest == Digest(w, data) && to == dest && dest !in d.cur
    case GetOpen(digest, to) => digest == Digest(w, data) && to == Some(dest) && dest !in d.cur
    case FetchCreate(digest, to, _) => digest == Digest(w, data) && to == dest && dest !in d.cur
    case FetchCopy(f, _) => IsFetchOf(w, f, dest, data) && dest !in d.cur
    case FetchSync(f) => IsFetchOf(w, f, dest, data) && f.data == data && dest !in d.cur
    case FetchLink(f) => IsFetchOf(w, f, dest, data) && f.data == data && dest !in d.cur
    case FetchSyncDir(f) => IsFetchOf(w, f, dest, data) && f.data == data
    case FetchCleanup(f, ok) => ok && IsFetchOf(w, f, dest, data) && f.data == data
    case Fetched(f) => IsFetchOf(w, f, dest, data) && f.data == data
    case _ => false
  }

  predicate IsFetchOf(w: World, f: Fetch, dest: Path, data: Bytes) {
    f.digest == Digest(w, data) && f.dest == dest
  }

  lemma LookOnFetch(w: World, d: Disk, pc: Pc, c: Choice, dest: Path, data: Bytes)
    requires Ready(w, d, pc) && Holds(w, d, data) && IsDir(d, Parent(dest)) && !IsFetchName(dest)
    requires OnFetch(w, d, pc, dest, data) && Step(w, d, pc, c).Turn? && IsGettingPc(pc)
    ensures OnFetch(w, Step(w, d, pc, c).disk, Step(w, d, pc, c).pc, dest, data)
  {
    HexOfSumIsDigest(w.sha(data));
  }

  lemma CopyOnFetch(w: World, d: Disk, pc: Pc, c: Choice, dest: Path, data: Bytes)
    requires Ready(w, d, pc) && Holds(w, d, data) && |data| <= MAX_INT64
    requires OnFetch(w, d, pc, dest, data) && Step(w, d, pc, c).Turn? && pc.FetchCopy?
    ensures OnFetch(w, Step(w, d, pc, c).disk, Step(w, d, pc, c).pc, dest, data)
  {
    if c.chunk != [] {
      assert |pc.fetch.data + c.chunk| <= |data|;
    }
  }

  lemma FinishOnFetch(w: World, d: Disk, pc: Pc, c: Choice, dest: Path, data: Bytes)
    requires Ready(w, d, pc) && IsDir(d, Parent(dest))
    requires OnFetch(w, d, pc, dest, data) && Step(w, d, pc, c).Turn? && FetchOf(pc).Some? && !pc.FetchCopy?
    ensures OnFetch(w, Step(w, d, pc, c).disk, Step(w, d, pc, c).pc, dest, data)
  {
    if pc.FetchLink? {
      FetchLinkSteps(w, d, pc.fetch);
    }
  }

  /** A fetch of stored bytes on its way, to a destination that is free and has a directory. */
  ghost predicate Fetches(w: World, s: State, pid: Pid, dest: Path, data: Bytes) {
    && pid in s.procs && OnFetch(w, s.disk, s.procs[pid], dest, data)
    && Holds(w, s.disk, data) && |data| <= MAX_INT64 && IsDir(s.disk, Parent(dest)) && !IsFetchName(dest)
  }

  lemma StepOnFetch(w: World, s: State, pid: Pid, c: Choice, dest: Path, data: Bytes)
    requires Fetches(w, s, pid, dest, data) && Ready(w, s.disk, s.procs[pid]) && Step(w, s.disk, s.procs[pid], c).Turn?
    ensures OnFetch(w, Step(w, s.disk, s.procs[pid], c).disk, Step(w, s.disk, s.procs[pid], c).pc, dest, data)
  {
    var pc := s.procs[pid];
    if IsGettingPc(pc) {
      LookOnFetch(w, s.disk, pc, c, dest, data);
    } else if pc.FetchCopy? {
      CopyOnFetch(w, s.disk, pc, c, dest, data);
    } else {
      FinishOnFetch(w, s.disk, pc, c, dest, data);
    }
  }

  /** Directories stay. */
  lemma DirStays(w: World, foreign: set<Inode>, s: State, a: Action, s': State, p: Path)
    requires Inv(w, foreign, s) && Next(w, s, a, s') && !a.Crash? && IsDir(s.disk, p)
    ensures IsDir(s'.disk, p)
  {
    if CasTheorems.OwnTemp(s, a, p) {
      TempIsFile(w, s.disk, s.procs[a.pid]);
    }
    CasTheorems.NamesUntouched(w, foreign, s, a, s', p);
  }

  lemma {:induction false} DirStaysOver(w: World, states: seq<State>, actions: seq<Action>, k: nat, j: nat, p: Path)
    requires IsRun(w, states, actions) && Init(w, states[0]) && k <= j <= |actions|
    requires CasTheorems.NoCrash(actions, k, j) && IsDir(states[k].disk, p)
    ensures IsDir(states[j].disk, p)
  {
    if k < j {
      DirStaysOver(w, states, actions, k, j - 1, p);
      RunInvariant(w, states, actions, j - 1);
      DirStays(w, states[0].disk.files.Keys, states[j - 1], actions[j - 1], states[j], p);
    }
  }

  lemma TempIsFile(w: World, d: Disk, pc: Pc)
    requires Ready(w, d, pc) && CasTheorems.TempName(pc).Some?
    ensures CasTheorems.TempName(pc).value in d.cur && d.cur[CasTheorems.TempName(pc).value].Link?
  {
    if JobOf(pc).Some? {
      JobHoldsTemp(w, d, pc);
    } else {
      FetchHoldsTemp(w, d, pc);
    }
  }

  /** If the name appears, it is this process that makes it. */
  predicate OnlyMakes(s: State, a: Action, s': State, pid: Pid, dest: Path) {
    dest !in s.disk.cur && dest in s'.disk.cur ==> a.Run? && a.pid == pid
  }

  lemma ActionOnFetch(w: World, foreign: set<Inode>, s: State, a: Action, s': State, pid: Pid, dest: Path, data: Bytes)
    requires Inv(w, foreign, s) && Next(w, s, a, s') && !a.Crash? && (a.Break? || a.Kill? ==> a.pid != pid)
    requires Fetches(w, s, pid, dest, data) && OnlyMakes(s, a, s', pid, dest)
    ensures Fetches(w, s', pid, dest, data)
  {
    HoldsStays(w, foreign, s, a, s', data);
    DirStays(w, foreign, s, a, s', Parent(dest));
    if a.Run? && a.pid == pid {
      StepOnFetch(w, s, pid, a.choice, dest, data);
    }
  }

  /** All the while nobody else makes the name. */
  ghost predicate StaysFree(states: seq<State>, actions: seq<Action>, k: nat, j: nat, pid: Pid, dest: Path)
    requires k <= j <= |actions| < |states|
  {
    forall m :: k <= m < j ==> OnlyMakes(states[m], actions[m], states[m + 1], pid, dest)
  }

  lemma {:induction false} FetchAdvances(w: World, states: seq<State>, actions: seq<Action>, k: nat, j: nat, pid: Pid, dest: Path, data: Bytes)
    requires IsRun(w, states, actions) && Init(w, states[0]) && k <= j <= |actions| && Undisturbed(actions, k, j, pid)
    requires Fetches(w, states[k], pid, dest, data) && StaysFree(states, actions, k, j, pid, dest)
    ensures Fetches(w, states[j], pid, dest, data)
  {
    if k < j {
      FetchAdvances(w, states, actions, k, j - 1, pid, dest, data);
      RunInvariant(w, states, actions, j - 1);
      assert OnlyMakes(states[j - 1], actions[j - 1], states[j - 1 + 1], pid, dest);
      ActionOnFetch(w, states[0].disk.files.Keys, states[j - 1], actions[j - 1], states[j], pid, dest, data);
    }
  }

  lemma FinishedOnFetch(w: World, d: Disk, pc: Pc, dest: Path, data: Bytes)
    requires OnFetch(w, d, pc, dest, data) && Ready(w, d, pc)
    ensures Finished(pc) ==> pc.Fetched? && pc.fetch.dest == dest && pc.fetch.data == data && Delivered(w, d, pc.fetch)
  {
  }

  /**
   A GetToFile of stored bytes that is not itself disturbed, to a destination that has a directory and that nobody
   else takes, delivers exactly them there, if it finishes.
   */
  lemma UndisturbedFetchSucceeds(w: World, states: seq<State>, actions: seq<Action>, k: nat, j: nat, pid: Pid, dest: Path, data: Bytes)
    requires IsRun(w, states, actions) && Init(w, states[0]) && k <= j <= |actions| && Undisturbed(actions, k, j, pid)
    requires Fetches(w, states[k], pid, dest, data) && StaysFree(states, actions, k, j, pid, dest)
    ensures Fetches(w, states[j], pid, dest, data)
    ensures var pc := states[j].procs[pid];
      Finished(pc) ==> pc.Fetched? && pc.fetch.dest == dest && pc.fetch.data == data && Delivered(w, states[j].disk, pc.fetch)
  {
    FetchAdvances(w, states, actions, k, j, pid, dest, data);
    RunInvariant(w, states, actions, j);
    FinishedOnFetch(w, states[j].disk, states[j].procs[pid], dest, data);
  }
}
