/** The invariant of the whole store machine, and its preservation by every action of every run. */
module CasReachable {
  import opened Wrappers
  import opened Identity
  import opened Filesystem
  import opened CasProtocol
  import opened CasInvariant
  import opened CasSteps

  /** Each process knows what its program point says, and no two processes own the same file. */
  ghost predicate ProcsKnow(w: World, s: State) {
    && (forall pid :: pid in s.procs ==> Ready(w, s.disk, s.procs[pid]))
    && (forall p, q :: p in s.procs && q in s.procs && p != q && OwnOf(s.procs[p]).Some? ==>
          OwnOf(s.procs[p]) != OwnOf(s.procs[q]))
  }

  /** `foreign` are the files that were there before the run. */
  ghost predicate Inv(w: World, foreign: set<Inode>, s: State) {
    ProcsKnow(w, s) && ValidDisk(s.disk) && OwnFilesNew(foreign, s)
  }

  ghost predicate OwnFilesNew(foreign: set<Inode>, s: State) {
    && foreign <= s.disk.files.Keys
    && forall pid :: pid in s.procs && OwnOf(s.procs[pid]).Some? ==> OwnOf(s.procs[pid]).value !in foreign
  }

  // ---- what holds besides, as long as gets keep off the store's own paths ----

  /** No get in progress has its destination there. */
  ghost predicate GetsKeepOff(s: State, off: iset<Path>) {
    forall pid :: pid in s.procs && DestOf(s.procs[pid]).Some? ==> DestOf(s.procs[pid]).value !in off
  }

  /** No get that begins in the run does. */
  ghost predicate RunKeepsOff(actions: seq<Action>, off: iset<Path>) {
    forall k :: 0 <= k < |actions| ==> BeginsOff(actions[k], off)
  }

  predicate BeginsOff(a: Action, off: iset<Path>) {
    a.Begin? && DestOf(a.pc).Some? ==> DestOf(a.pc).value !in off
  }

  ghost function BlobPaths(w: World): iset<Path> {
    iset p | IsBlobPath(w, p)
  }

  ghost function StagingPaths(w: World): iset<Path> {
    iset p | IsStaging(w, p)
  }

  /** Whatever Duro linked at a digest's path, now or on disk, is complete, synced and hashes to the path's name. */
  ghost predicate NoTornBlob(w: World, foreign: set<Inode>, d: Disk) {
    forall x: string, i: Inode :: IsDigest(x) && Linked(d, BlobPath(w, x), i) && i !in foreign ==>
      i in d.files && d.files[i].synced && Digest(w, d.files[i].data) == x
  }

  ghost predicate OwnsTemp(s: State, t: Path, pid: Pid) {
    pid in s.procs && JobOf(s.procs[pid]).Some? && JobOf(s.procs[pid]).value.tmp == t
  }

  /** The staging directory holds the abandoned names and one name for each put in progress, nothing else. */
  ghost predicate StagingExact(w: World, s: State) {
    && (forall t :: t in s.litter ==> IsStaging(w, t))
    && (forall t, pid :: OwnsTemp(s, t, pid) ==> t !in s.litter)
    && (forall t :: IsStaging(w, t) ==> (t in s.disk.cur <==> t in s.litter || exists pid :: OwnsTemp(s, t, pid)))
  }

  // ---- what a step adds to and removes from the namespace ----

  /** The only name a step may add: a directory it makes, its temporary, or the path it publishes. */
  function AddedName(w: World, pc: Pc, c: Choice): Option<Path> {
    match pc
    case OpenMkdir(which, depth) =>
      if which < 2 && depth <= |w.root| + 1 then Some(StoreDirs(w)[which][..depth]) else None
    case Create(_) => Some(TempDir(w) + ["duro-put-" + c.name])
    case MakeDirs(job, depth) =>
      if depth <= |BlobDir(w, Digest(w, job.data))| then Some(BlobDir(w, Digest(w, job.data))[..depth]) else None
    case LinkBlob(job) => Some(BlobPath(w, Digest(w, job.data)))
    case FetchCreate(_, dest, _) => Some(Parent(dest) + [FETCH_PREFIX + c.name])
    case FetchLink(f) => Some(f.dest)
    case _ => None
  }

  function RemovedName(pc: Pc): Option<Path> {
    match pc
    case Cleanup(job, _) => Some(job.tmp)
    case FetchCleanup(f, _) => Some(f.tmp)
    case _ => None
  }

  /** A turn adds and removes no other names, on disk or off it. */
  ghost predicate NamesFollow(d: Disk, d': Disk, added: Option<Path>, removed: Option<Path>, p: Path) {
    && (Some(p) != added && Some(p) != removed ==> (p in d'.cur <==> p in d.cur))
    && (Some(p) != added ==> forall i: Inode :: Linked(d', p, i) ==> Linked(d, p, i))
    && (Some(p) == removed ==> p !in d'.cur)
  }

  lemma StoreStepNames(w: World, d: Disk, pc: Pc, c: Choice, p: Path)
    requires Step(w, d, pc, c).Turn? && JobOf(pc).Some?
    ensures NamesFollow(d, Step(w, d, pc, c).disk, AddedName(w, pc, c), RemovedName(pc), p)
  {
  }

  lemma FetchStepNames(w: World, d: Disk, pc: Pc, c: Choice, p: Path)
    requires Step(w, d, pc, c).Turn? && FetchOf(pc).Some?
    ensures NamesFollow(d, Step(w, d, pc, c).disk, AddedName(w, pc, c), RemovedName(pc), p)
  {
  }

  lemma EntryStepNames(w: World, d: Disk, pc: Pc, c: Choice, p: Path)
    requires Step(w, d, pc, c).Turn? && JobOf(pc) == None && FetchOf(pc) == None
    ensures NamesFollow(d, Step(w, d, pc, c).disk, AddedName(w, pc, c), RemovedName(pc), p)
  {
  }

  lemma StepNames(w: World, d: Disk, pc: Pc, c: Choice, p: Path)
    requires Step(w, d, pc, c).Turn?
    ensures NamesFollow(d, Step(w, d, pc, c).disk, AddedName(w, pc, c), RemovedName(pc), p)
  {
    if JobOf(pc).Some? {
      StoreStepNames(w, d, pc, c, p);
    } else if FetchOf(pc).Some? {
      FetchStepNames(w, d, pc, c, p);
    } else {
      EntryStepNames(w, d, pc, c, p);
    }
  }

  /** Where a process's names lie: its temporary in the staging directory, or beside its destination. */
  ghost predicate NamesPlaced(w: World, pc: Pc) {
    && (JobOf(pc).Some? ==> IsStaging(w, JobOf(pc).value.tmp))
    && (FetchOf(pc).Some? ==> var f := FetchOf(pc).value; f.dest != [] && ChildOf(Parent(f.dest), f.tmp) && IsFetchName(f.tmp))
    && (pc.FetchCreate? ==> pc.dest != [])
  }

  lemma ReadyNamesPlaced(w: World, d: Disk, pc: Pc)
    requires Ready(w, d, pc)
    ensures NamesPlaced(w, pc)
  {
  }

  /** Only a put links a blob, unless a get has its destination there. */
  lemma BlobNamesAdded(w: World, pc: Pc, c: Choice, x: string)
    requires NamesPlaced(w, pc) && IsDigest(x) && !pc.LinkBlob? && DestOf(pc) != Some(BlobPath(w, x))
    ensures AddedName(w, pc, c) != Some(BlobPath(w, x))
    ensures RemovedName(pc) != Some(BlobPath(w, x))
  {
    BlobPathInTree(w, x);
    assert IsBlobPath(w, BlobPath(w, x));
    match pc
    case Create(_) => StagingOutsideTree(w, TempDir(w) + ["duro-put-" + c.name]);
    case Cleanup(job, _) => StagingOutsideTree(w, job.tmp);
    case FetchCreate(_, dest, _) => FetchNameApart(w, Parent(dest) + [FETCH_PREFIX + c.name]);
    case FetchCleanup(f, _) => FetchNameApart(w, f.tmp);
    case _ =>
  }

  lemma BlobDirPrefix(w: World, digest: string, depth: nat, t: Path)
    requires IsStaging(w, t) && depth <= |BlobDir(w, digest)|
    ensures BlobDir(w, digest)[..depth] != t
  {
    BlobPathInTree(w, digest);
    StagingOutsideTree(w, t);
    assert depth == |w.root| + 2 ==> BlobTree(w) <= BlobDir(w, digest)[..depth];
  }

  /** Only a put adds and removes names in the staging directory, unless a get has its destination there. */
  lemma StagingNamesAdded(w: World, pc: Pc, c: Choice, t: Path)
    requires NamesPlaced(w, pc) && IsStaging(w, t) && (DestOf(pc).Some? ==> !IsStaging(w, DestOf(pc).value))
    ensures !pc.Create? ==> AddedName(w, pc, c) != Some(t)
    ensures !pc.Cleanup? ==> RemovedName(pc) != Some(t)
  {
    if DestOf(pc).Some? {
      FetchNamesApart(w, pc, c, t);
    } else {
      StoreNamesApart(w, pc, c, t);
    }
  }

  lemma StoreNamesApart(w: World, pc: Pc, c: Choice, t: Path)
    requires IsStaging(w, t) && DestOf(pc) == None
    ensures !pc.Create? ==> AddedName(w, pc, c) != Some(t)
    ensures !pc.Cleanup? ==> RemovedName(pc) != Some(t)
  {
    StagingOutsideTree(w, t);
    match pc
    case OpenMkdir(which, depth) => assert t[..|w.root| + 1] == TempDir(w);
    case MakeDirs(job, depth) =>
      if depth <= |BlobDir(w, Digest(w, job.data))| {
        BlobDirPrefix(w, Digest(w, job.data), depth, t);
      }
    case LinkBlob(job) => BlobPathInTree(w, Digest(w, job.data));
    case _ =>
  }

  lemma FetchNamesApart(w: World, pc: Pc, c: Choice, t: Path)
    requires NamesPlaced(w, pc) && IsStaging(w, t) && DestOf(pc).Some? && !IsStaging(w, DestOf(pc).value)
    ensures AddedName(w, pc, c) != Some(t) && RemovedName(pc) != Some(t)
  {
    match pc
    case FetchCreate(_, dest, _) => BesideNotStaging(w, dest, Parent(dest) + [FETCH_PREFIX + c.name]);
    case FetchCleanup(f, _) => BesideNotStaging(w, f.dest, f.tmp);
    case _ =>
  }

  lemma BesideNotStaging(w: World, dest: Path, p: Path)
    requires dest != [] && ChildOf(Parent(dest), p) && !IsStaging(w, dest)
    ensures !IsStaging(w, p)
  {
    assert p[..|p| - 1] == Parent(dest);
  }

  // ---- preservation ----

  /** A sound step of one process keeps what every process knows. */
  lemma TurnKeepsProcs(w: World, s: State, pid: Pid, t: Turn, litter: set<Path>)
    requires ProcsKnow(w, s) && pid in s.procs && ValidDisk(s.disk)
    requires t.Turn? && Sound(w, s.disk, s.procs[pid], t)
    ensures ProcsKnow(w, State(t.disk, s.procs[pid := t.pc], litter))
  {
    var mine := OwnOf(s.procs[pid]);
    var s' := State(t.disk, s.procs[pid := t.pc], litter);
    forall q | q in s'.procs
      ensures Ready(w, s'.disk, s'.procs[q])
    {
      if q != pid {
        Stable(w, s.disk, t.disk, mine, s.procs[q]);
      }
    }
  }

  lemma TurnKeepsOwn(w: World, foreign: set<Inode>, s: State, pid: Pid, t: Turn, litter: set<Path>)
    requires OwnFilesNew(foreign, s) && pid in s.procs && t.Turn? && Sound(w, s.disk, s.procs[pid], t)
    ensures OwnFilesNew(foreign, State(t.disk, s.procs[pid := t.pc], litter))
  {
  }

  lemma DestAfterStep(w: World, d: Disk, pc: Pc, c: Choice)
    requires Step(w, d, pc, c).Turn?
    ensures DestOf(Step(w, d, pc, c).pc) in {None, DestOf(pc)}
  {
  }

  lemma DestAfterError(pc: Pc)
    ensures DestOf(ErrorExit(pc)) in {None, DestOf(pc)} && DestOf(AfterCrash(pc)) == None
  {
  }

  lemma ActionKeepsOff(w: World, s: State, a: Action, s': State, off: iset<Path>)
    requires Next(w, s, a, s') && GetsKeepOff(s, off) && BeginsOff(a, off)
    ensures GetsKeepOff(s', off)
  {
    forall pid | pid in s'.procs && DestOf(s'.procs[pid]).Some?
      ensures DestOf(s'.procs[pid]).value !in off
    {
      if a.Run? && a.pid == pid {
        DestAfterStep(w, s.disk, s.procs[pid], a.choice);
      } else if a.Break? && a.pid == pid {
        FaultExit(s.disk, s.procs[pid], a.choice);
        DestAfterError(s.procs[pid]);
      } else if a.Crash? {
        DestAfterError(s.procs[pid]);
      }
    }
  }

  lemma FrameKeepsBlobs(w: World, foreign: set<Inode>, d: Disk, d': Disk, mine: Option<Inode>)
    requires NoTornBlob(w, foreign, d) && Frame(w, d, d', mine) && ValidDisk(d)
    requires forall x: string, i: Inode :: IsDigest(x) && Linked(d', BlobPath(w, x), i) ==> Linked(d, BlobPath(w, x), i)
    ensures NoTornBlob(w, foreign, d')
  {
    forall x: string, i: Inode | IsDigest(x) && Linked(d', BlobPath(w, x), i) && i !in foreign
      ensures i in d'.files && d'.files[i].synced && Digest(w, d'.files[i].data) == x
    {
      assert Linked(d, BlobPath(w, x), i) && IsBlobPath(w, BlobPath(w, x));
    }
  }

  lemma StepKeepsBlobs(w: World, foreign: set<Inode>, d: Disk, pc: Pc, c: Choice)
    requires NoTornBlob(w, foreign, d) && Ready(w, d, pc) && Step(w, d, pc, c).Turn?
    requires DestOf(pc).Some? ==> DestOf(pc).value !in BlobPaths(w)
    ensures NoTornBlob(w, foreign, Step(w, d, pc, c).disk)
  {
    var d' := Step(w, d, pc, c).disk;
    StepSound(w, d, pc, c);
    if pc.LinkBlob? {
      LinkKeepsBlobs(w, foreign, d, pc.job);
    } else {
      forall x: string, i: Inode | IsDigest(x) && Linked(d', BlobPath(w, x), i)
        ensures Linked(d, BlobPath(w, x), i)
      {
        assert IsBlobPath(w, BlobPath(w, x));
        ReadyNamesPlaced(w, d, pc);
        BlobNamesAdded(w, pc, c, x);
        StepNames(w, d, pc, c, BlobPath(w, x));
      }
      FrameKeepsBlobs(w, foreign, d, d', OwnOf(pc));
    }
  }

  lemma LinkKeepsBlobs(w: World, foreign: set<Inode>, d: Disk, job: Job)
    requires NoTornBlob(w, foreign, d) && Ready(w, d, LinkBlob(job))
    ensures NoTornBlob(w, foreign, StepLinkBlob(w, d, job).disk)
  {
    var d' := StepLinkBlob(w, d, job).disk;
    forall x: string, i: Inode | IsDigest(x) && Linked(d', BlobPath(w, x), i) && i !in foreign
      ensures i in d'.files && d'.files[i].synced && Digest(w, d'.files[i].data) == x
    {
      BlobPathInTree(w, x);
      BlobPathInTree(w, Digest(w, job.data));
      if !Linked(d, BlobPath(w, x), i) {
        assert BlobPath(w, x) == BlobPath(w, Digest(w, job.data));
      }
    }
  }

  /**
   The link of a get tears a blob exactly when its destination is the path of a digest other than the one it
   fetched.
   */
  lemma FetchLinkTearsIff(w: World, foreign: set<Inode>, d: Disk, f: Fetch)
    requires NoTornBlob(w, foreign, d) && Ready(w, d, FetchLink(f)) && f.inode !in foreign
    requires f.dest !in d.cur && IsDir(d, Parent(f.dest))
    ensures NoTornBlob(w, foreign, StepFetchLink(d, f).disk) <==> !(IsBlobPath(w, f.dest) && f.dest[|f.dest| - 1] != f.digest)
  {
    FetchLinkSteps(w, d, f);
    LinkTearsIff(w, foreign, d, f.dest, f.inode, f.digest);
  }

  lemma LinkTearsIff(w: World, foreign: set<Inode>, d: Disk, dest: Path, i: Inode, digest: string)
    requires NoTornBlob(w, foreign, d) && i !in foreign && dest != []
    requires i in d.files && d.files[i].synced && Digest(w, d.files[i].data) == digest
    ensures NoTornBlob(w, foreign, LinkFile(d, dest, i)) <==> !(IsBlobPath(w, dest) && dest[|dest| - 1] != digest)
  {
    var d' := LinkFile(d, dest, i);
    if IsBlobPath(w, dest) && dest[|dest| - 1] != digest {
      assert Linked(d', BlobPath(w, dest[|dest| - 1]), i);
    } else {
      forall x: string, k: Inode | IsDigest(x) && Linked(d', BlobPath(w, x), k) && k !in foreign
        ensures k in d'.files && d'.files[k].synced && Digest(w, d'.files[k].data) == x
      {
        BlobPathInTree(w, x);
        if !Linked(d, BlobPath(w, x), k) {
          assert BlobPath(w, x) == dest && k == i && IsBlobPath(w, dest);
        }
      }
    }
  }

  lemma FaultNames(d: Disk, pc: Pc, c: Choice)
    requires Fault(d, pc, c).Turn?
    ensures Fault(d, pc, c).disk.cur == d.cur && Fault(d, pc, c).disk.dur == d.dur
  {
  }

  lemma FaultKeepsBlobs(w: World, foreign: set<Inode>, d: Disk, pc: Pc, c: Choice)
    requires NoTornBlob(w, foreign, d) && Ready(w, d, pc) && Fault(d, pc, c).Turn?
    ensures NoTornBlob(w, foreign, Fault(d, pc, c).disk)
  {
    FaultSound(w, d, pc, c);
    FaultNames(d, pc, c);
    FrameKeepsBlobs(w, foreign, d, Fault(d, pc, c).disk, OwnOf(pc));
  }

  lemma ActionKeepsBlobs(w: World, foreign: set<Inode>, s: State, a: Action, s': State)
    requires Inv(w, foreign, s) && NoTornBlob(w, foreign, s.disk) && Next(w, s, a, s')
    requires GetsKeepOff(s, BlobPaths(w))
    ensures NoTornBlob(w, foreign, s'.disk)
  {
    match a
    case Run(pid, c) => StepKeepsBlobs(w, foreign, s.disk, s.procs[pid], c);
    case Break(pid, c) => FaultKeepsBlobs(w, foreign, s.disk, s.procs[pid], c);
    case WriteBack(paths, inodes) =>
      FlushFrame(w, s.disk, paths, inodes, None);
      FlushLinks(s.disk, paths, inodes);
      FrameKeepsBlobs(w, foreign, s.disk, s'.disk, None);
    case Crash(d') => CrashKeepsBlobs(w, foreign, s.disk, d');
    case _ =>
  }

  lemma CrashKeepsBlobs(w: World, foreign: set<Inode>, d: Disk, d': Disk)
    requires NoTornBlob(w, foreign, d) && Crashed(d, d')
    ensures NoTornBlob(w, foreign, d')
  {
    forall x: string, i: Inode | IsDigest(x) && Linked(d', BlobPath(w, x), i) && i !in foreign
      ensures i in d'.files && d'.files[i].synced && Digest(w, d'.files[i].data) == x
    {
      assert Linked(d, BlobPath(w, x), i);
    }
  }

  ghost predicate IntactInv(w: World, foreign: set<Inode>, s: State) {
    Inv(w, foreign, s) && NoTornBlob(w, foreign, s.disk) && GetsKeepOff(s, BlobPaths(w))
  }

  lemma ActionKeepsIntact(w: World, foreign: set<Inode>, s: State, a: Action, s': State)
    requires IntactInv(w, foreign, s) && Next(w, s, a, s') && BeginsOff(a, BlobPaths(w))
    ensures IntactInv(w, foreign, s')
  {
    ActionKeeps(w, foreign, s, a, s');
    ActionKeepsBlobs(w, foreign, s, a, s');
    ActionKeepsOff(w, s, a, s', BlobPaths(w));
  }

  lemma {:induction false} RunKeepsBlobs(w: World, states: seq<State>, actions: seq<Action>, k: nat)
    requires IsRun(w, states, actions) && Init(w, states[0]) && k <= |actions| && RunKeepsOff(actions, BlobPaths(w))
    ensures IntactInv(w, states[0].disk.files.Keys, states[k])
  {
    if k == 0 {
      InitInvariant(w, states[0]);
      assert forall x: string, i: Inode :: Linked(states[0].disk, BlobPath(w, x), i) ==> i in states[0].disk.files;
    } else {
      RunKeepsBlobs(w, states, actions, k - 1);
      assert BeginsOff(actions[k - 1], BlobPaths(w));
      ActionKeepsIntact(w, states[0].disk.files.Keys, states[k - 1], actions[k - 1], states[k]);
    }
  }

  // ---- the staging directory ----

  lemma StepKeepsStaging(w: World, foreign: set<Inode>, s: State, pid: Pid, c: Choice)
    requires Inv(w, foreign, s) && StagingExact(w, s) && GetsKeepOff(s, StagingPaths(w))
    requires pid in s.procs && Step(w, s.disk, s.procs[pid], c).Turn?
    ensures StagingExact(w, After(s, pid, Step(w, s.disk, s.procs[pid], c)))
  {
    var pc := s.procs[pid];
    var t := Step(w, s.disk, pc, c);
    var s' := After(s, pid, t);
    JobAfterStep(w, s.disk, pc, c);
    forall x, q | OwnsTemp(s', x, q)
      ensures x !in s.litter
    {
      if q == pid && pc.Create? {
        assert IsStaging(w, x) && x !in s.disk.cur;
      } else {
        assert OwnsTemp(s, x, q);
      }
    }
    forall x | IsStaging(w, x)
      ensures x in t.disk.cur <==> x in s.litter || exists q :: OwnsTemp(s', x, q)
    {
      OwnersAfterStep(w, foreign, s, pid, c, x);
    }
  }

  /** What a process stages under after a step: a put's first call chooses the name, its last gives it up. */
  ghost predicate JobFollows(w: World, d: Disk, pc: Pc, c: Choice, t: Turn)
    requires t.Turn?
  {
    if pc.Create? then
      && (JobOf(t.pc) == None ==> t.disk == d)
      && (JobOf(t.pc).Some? ==>
            var tmp := JobOf(t.pc).value.tmp;
            t.pc.Copy? && tmp == TempDir(w) + ["duro-put-" + c.name] && tmp !in d.cur && tmp in t.disk.cur)
    else if pc.Cleanup? then JobOf(t.pc) == None
    else JobOf(t.pc).Some? == JobOf(pc).Some? && (JobOf(pc).Some? ==> JobOf(t.pc).value.tmp == JobOf(pc).value.tmp)
  }

  lemma JobAfterStaging(w: World, d: Disk, pc: Pc, c: Choice)
    requires Step(w, d, pc, c).Turn? && (pc.Create? || IsStagingPc(pc) || pc.Cleanup?)
    ensures JobFollows(w, d, pc, c, Step(w, d, pc, c))
  {
  }

  lemma JobAfterPlacing(w: World, d: Disk, pc: Pc, c: Choice)
    requires Step(w, d, pc, c).Turn? && (IsPlacingPc(pc) || pc.VerifyStat? || pc.VerifyOpen? || pc.VerifyRead?)
    ensures JobFollows(w, d, pc, c, Step(w, d, pc, c))
  {
  }

  lemma NoJobAfterStep(w: World, d: Disk, pc: Pc, c: Choice)
    requires Step(w, d, pc, c).Turn? && JobOf(pc) == None && !pc.Create?
    ensures JobFollows(w, d, pc, c, Step(w, d, pc, c))
  {
  }

  lemma JobAfterStep(w: World, d: Disk, pc: Pc, c: Choice)
    requires Step(w, d, pc, c).Turn?
    ensures JobFollows(w, d, pc, c, Step(w, d, pc, c))
  {
    if pc.Create? || IsStagingPc(pc) || pc.Cleanup? {
      JobAfterStaging(w, d, pc, c);
    } else if JobOf(pc).Some? {
      JobAfterPlacing(w, d, pc, c);
    } else {
      NoJobAfterStep(w, d, pc, c);
    }
  }

  function After(s: State, pid: Pid, t: Turn): State
    requires t.Turn?
  {
    s.(disk := t.disk, procs := s.procs[pid := t.pc])
  }

  /** A put removes its temporary: nobody else stages under that name. */
  lemma OwnersAfterRemoval(w: World, s: State, pid: Pid, s': State, x: Path)
    requires ProcsKnow(w, s) && OwnsTemp(s, x, pid)
    requires pid in s'.procs && JobOf(s'.procs[pid]) == None && s'.procs == s.procs[pid := s'.procs[pid]]
    ensures forall q :: !OwnsTemp(s', x, q)
  {
    forall q
      ensures !OwnsTemp(s', x, q)
    {
      if q != pid && OwnsTemp(s, x, q) {
        OneOwner(w, s, x, pid, q);
      }
    }
  }

  /** Any other step leaves the owners of a staging name alone, or makes the process the owner of a new one. */
  lemma OwnersOtherwise(w: World, s: State, s': State, pid: Pid, x: Path)
    requires pid in s.procs && pid in s'.procs && s'.procs == s.procs[pid := s'.procs[pid]]
    requires OwnsTemp(s', x, pid) <==> OwnsTemp(s, x, pid)
    ensures (exists q :: OwnsTemp(s', x, q)) <==> (exists q :: OwnsTemp(s, x, q))
  {
    assert forall q :: q != pid ==> (OwnsTemp(s', x, q) <==> OwnsTemp(s, x, q));
    if q :| OwnsTemp(s, x, q) {
      assert OwnsTemp(s', x, q);
    }
    if q :| OwnsTemp(s', x, q) {
      assert OwnsTemp(s, x, q);
    }
  }

  predicate Claims(pc: Pc, x: Path) {
    JobOf(pc).Some? && JobOf(pc).value.tmp == x
  }

  /** What a turn does to one staging name and to the process's claim on it. */
  ghost predicate ClaimFollows(d: Disk, pc: Pc, t: Turn, x: Path)
    requires t.Turn?
  {
    if pc.Cleanup? && Claims(pc, x) then x !in t.disk.cur && JobOf(t.pc) == None
    else if Claims(pc, x) == Claims(t.pc, x) then x in t.disk.cur <==> x in d.cur
    else Claims(t.pc, x) && x in t.disk.cur
  }

  lemma StagingNameAfterStep(w: World, d: Disk, pc: Pc, c: Choice, x: Path)
    requires Ready(w, d, pc) && Step(w, d, pc, c).Turn? && IsStaging(w, x)
    requires DestOf(pc).Some? ==> !IsStaging(w, DestOf(pc).value)
    ensures ClaimFollows(d, pc, Step(w, d, pc, c), x)
  {
    ReadyNamesPlaced(w, d, pc);
    StagingNamesAdded(w, pc, c, x);
    StepNames(w, d, pc, c, x);
    JobAfterStep(w, d, pc, c);
  }

  lemma OwnersAfterTurn(w: World, s: State, pid: Pid, t: Turn, x: Path)
    requires ProcsKnow(w, s) && StagingExact(w, s) && pid in s.procs && IsStaging(w, x)
    requires t.Turn? && ClaimFollows(s.disk, s.procs[pid], t, x)
    ensures var s' := After(s, pid, t);
      x in s'.disk.cur <==> x in s.litter || exists q :: OwnsTemp(s', x, q)
  {
    var s' := After(s, pid, t);
    if s.procs[pid].Cleanup? && OwnsTemp(s, x, pid) {
      OwnersAfterRemoval(w, s, pid, s', x);
    } else if OwnsTemp(s', x, pid) == OwnsTemp(s, x, pid) {
      OwnersOtherwise(w, s, s', pid, x);
    } else {
      assert OwnsTemp(s', x, pid);
    }
  }

  lemma OwnersAfterStep(w: World, foreign: set<Inode>, s: State, pid: Pid, c: Choice, x: Path)
    requires Inv(w, foreign, s) && StagingExact(w, s) && GetsKeepOff(s, StagingPaths(w))
    requires pid in s.procs && Step(w, s.disk, s.procs[pid], c).Turn? && IsStaging(w, x)
    ensures var s' := After(s, pid, Step(w, s.disk, s.procs[pid], c));
      x in s'.disk.cur <==> x in s.litter || exists q :: OwnsTemp(s', x, q)
  {
    StagingNameAfterStep(w, s.disk, s.procs[pid], c, x);
    OwnersAfterTurn(w, s, pid, Step(w, s.disk, s.procs[pid], c), x);
  }

  lemma RunKeeps(w: World, foreign: set<Inode>, s: State, pid: Pid, c: Choice)
    requires Inv(w, foreign, s) && pid in s.procs && Step(w, s.disk, s.procs[pid], c).Turn?
    ensures Inv(w, foreign, After(s, pid, Step(w, s.disk, s.procs[pid], c)))
  {
    StepSound(w, s.disk, s.procs[pid], c);
    TurnKeepsProcs(w, s, pid, Step(w, s.disk, s.procs[pid], c), s.litter);
    TurnKeepsOwn(w, foreign, s, pid, Step(w, s.disk, s.procs[pid], c), s.litter);
  }

  lemma SameOwners(s: State, s': State, t: Path)
    requires s.disk.cur == s'.disk.cur
    requires forall q :: OwnsTemp(s, t, q) <==> OwnsTemp(s', t, q)
    ensures (exists q :: OwnsTemp(s, t, q)) <==> (exists q :: OwnsTemp(s', t, q))
  {
    if exists q :: OwnsTemp(s, t, q) {
      var q :| OwnsTemp(s, t, q);
      assert OwnsTemp(s', t, q);
    }
  }

  lemma BeginKnows(w: World, s: State, pc: Pc)
    requires ProcsKnow(w, s) && ValidDisk(s.disk) && MayBegin(w, s, pc)
    ensures Ready(w, s.disk, pc) && OwnOf(pc) == None
  {
    assert BlobTree(w)[..0] == [];
    if StoreOpen(s) {
      var pid :| pid in s.procs && s.procs[pid].Opened?;
      assert Ready(w, s.disk, s.procs[pid]);
    }
  }

  lemma BeginKeepsStaging(w: World, s: State, pid: Pid, pc: Pc)
    requires StagingExact(w, s) && pid !in s.procs && JobOf(pc) == None
    ensures StagingExact(w, s.(procs := s.procs[pid := pc]))
  {
    var s' := s.(procs := s.procs[pid := pc]);
    forall t, q
      ensures OwnsTemp(s', t, q) <==> OwnsTemp(s, t, q)
    {
    }
    forall t | IsStaging(w, t)
      ensures t in s'.disk.cur <==> t in s.litter || exists q :: OwnsTemp(s', t, q)
    {
      SameOwners(s, s', t);
    }
  }

  lemma BeginKeeps(w: World, foreign: set<Inode>, s: State, pid: Pid, pc: Pc)
    requires Inv(w, foreign, s) && pid !in s.procs && MayBegin(w, s, pc)
    ensures Inv(w, foreign, s.(procs := s.procs[pid := pc]))
  {
    BeginKnows(w, s, pc);
  }

  lemma ErrorExitJob(pc: Pc)
    ensures JobOf(ErrorExit(pc)) == if pc.Cleanup? then None else JobOf(pc)
  {
  }

  /** No two processes stage under one name: they would own the same file. */
  lemma OneOwner(w: World, s: State, t: Path, p: Pid, q: Pid)
    requires ProcsKnow(w, s) && OwnsTemp(s, t, p) && OwnsTemp(s, t, q)
    ensures p == q
  {
    assert Owned(s.disk, t, JobOf(s.procs[p]).value.inode);
    assert Owned(s.disk, t, JobOf(s.procs[q]).value.inode);
  }

  /** A process that gives up its temporary for good moves the name to the litter. */
  lemma AbandonKeepsStaging(w: World, s: State, s': State, pid: Pid)
    requires StagingExact(w, s) && pid in s.procs
    requires JobOf(s.procs[pid]).Some? ==> IsStaging(w, JobOf(s.procs[pid]).value.tmp)
    requires forall t, q :: OwnsTemp(s, t, q) && OwnsTemp(s, t, pid) ==> q == pid
    requires s'.disk.cur == s.disk.cur && s'.procs.Keys == s.procs.Keys
    requires forall q :: q in s.procs && q != pid ==> s'.procs[q] == s.procs[q]
    requires JobOf(s'.procs[pid]) == None && s'.litter == AddTemp(s.litter, s.procs[pid])
    ensures StagingExact(w, s')
  {
    assert JobOf(s.procs[pid]).Some? ==> OwnsTemp(s, JobOf(s.procs[pid]).value.tmp, pid);
    forall t, q
      ensures OwnsTemp(s', t, q) <==> OwnsTemp(s, t, q) && q != pid
    {
    }
    forall t | IsStaging(w, t)
      ensures t in s'.disk.cur <==> t in s'.litter || exists q :: OwnsTemp(s', t, q)
    {
      if OwnsTemp(s, t, pid) {
        assert t in s'.litter && t in s.disk.cur;
      } else {
        SameOwners(s, s', t);
      }
    }
  }

  lemma AbandonStaging(w: World, foreign: set<Inode>, s: State, s': State, pid: Pid)
    requires Inv(w, foreign, s) && StagingExact(w, s) && pid in s.procs
    requires s'.disk.cur == s.disk.cur && s'.procs.Keys == s.procs.Keys
    requires forall q :: q in s.procs && q != pid ==> s'.procs[q] == s.procs[q]
    requires JobOf(s'.procs[pid]) == None && s'.litter == AddTemp(s.litter, s.procs[pid])
    ensures StagingExact(w, s')
  {
    forall t, q | OwnsTemp(s, t, q) && OwnsTemp(s, t, pid)
      ensures q == pid
    {
      OneOwner(w, s, t, q, pid);
    }
    if JobOf(s.procs[pid]).Some? {
      TempIsStaging(w, s.disk, s.procs[pid]);
    }
    AbandonKeepsStaging(w, s, s', pid);
  }

  lemma TempIsStaging(w: World, d: Disk, pc: Pc)
    requires Ready(w, d, pc) && JobOf(pc).Some?
    ensures IsStaging(w, JobOf(pc).value.tmp)
  {
  }

  lemma SameJobsKeepStaging(w: World, s: State, s': State)
    requires StagingExact(w, s) && s'.disk.cur == s.disk.cur && s'.litter == s.litter && s'.procs.Keys == s.procs.Keys
    requires forall q :: q in s.procs ==> JobOf(s'.procs[q]) == JobOf(s.procs[q])
    ensures StagingExact(w, s')
  {
    forall x, q
      ensures OwnsTemp(s', x, q) <==> OwnsTemp(s, x, q)
    {
    }
    forall x | IsStaging(w, x)
      ensures x in s'.disk.cur <==> x in s'.litter || exists q :: OwnsTemp(s', x, q)
    {
      SameOwners(s, s', x);
    }
  }

  lemma FaultExit(d: Disk, pc: Pc, c: Choice)
    requires Fault(d, pc, c).Turn?
    ensures Fault(d, pc, c).pc == ErrorExit(pc) && Fault(d, pc, c).disk.cur == d.cur
  {
  }

  lemma BreakKeepsStaging(w: World, foreign: set<Inode>, s: State, pid: Pid, c: Choice, s': State)
    requires Inv(w, foreign, s) && StagingExact(w, s) && Next(w, s, Break(pid, c), s')
    ensures StagingExact(w, s')
  {
    FaultExit(s.disk, s.procs[pid], c);
    ErrorExitJob(s.procs[pid]);
    if s.procs[pid].Cleanup? {
      AbandonStaging(w, foreign, s, s', pid);
    } else {
      SameJobsKeepStaging(w, s, s');
    }
  }

  lemma BreakKeeps(w: World, foreign: set<Inode>, s: State, pid: Pid, c: Choice, s': State)
    requires Inv(w, foreign, s) && Next(w, s, Break(pid, c), s')
    ensures Inv(w, foreign, s')
  {
    FaultSound(w, s.disk, s.procs[pid], c);
    TurnKeepsProcs(w, s, pid, Fault(s.disk, s.procs[pid], c), s'.litter);
    TurnKeepsOwn(w, foreign, s, pid, Fault(s.disk, s.procs[pid], c), s'.litter);
  }

  lemma KillKeepsProcs(w: World, s: State, pid: Pid, s': State)
    requires ProcsKnow(w, s) && pid in s.procs && s'.disk == s.disk && s'.procs == s.procs[pid := Gone]
    ensures ProcsKnow(w, s')
  {
    forall q | q in s'.procs
      ensures Ready(w, s'.disk, s'.procs[q])
    {
      assert Ready(w, s.disk, s.procs[q]);
    }
  }

  lemma KillKeeps(w: World, foreign: set<Inode>, s: State, pid: Pid, s': State)
    requires Inv(w, foreign, s) && Next(w, s, Kill(pid), s')
    ensures Inv(w, foreign, s')
  {
    KillKeepsProcs(w, s, pid, s');
  }

  lemma WriteBackKeeps(w: World, foreign: set<Inode>, s: State, paths: set<Path>, inodes: set<Inode>, s': State)
    requires Inv(w, foreign, s) && Next(w, s, WriteBack(paths, inodes), s')
    ensures Inv(w, foreign, s')
  {
    FlushFrame(w, s.disk, paths, inodes, None);
    forall pid | pid in s.procs
      ensures Ready(w, s'.disk, s'.procs[pid])
    {
      Stable(w, s.disk, s'.disk, None, s.procs[pid]);
    }
  }

  lemma FlushLinks(d: Disk, paths: set<Path>, inodes: set<Inode>)
    ensures forall p, i: Inode :: Linked(Flush(d, paths, inodes), p, i) ==> Linked(d, p, i)
  {
  }

  lemma CrashKeepsRoot(w: World, d: Disk, d': Disk)
    requires Crashed(d, d') && ValidDisk(d) && RootSafe(w, d)
    ensures RootSafe(w, d')
  {
    assert BlobTree(w)[..|w.root| + 1] == BlobTree(w) && TempDir(w)[..|w.root| + 1] == TempDir(w);
    DurablePathSurvives(d, d', BlobTree(w));
    DurablePathSurvives(d, d', TempDir(w));
    forall k | 0 <= k <= |w.root| + 1
      ensures IsDir(d', BlobTree(w)[..k]) && IsDir(d', TempDir(w)[..k])
    {
      DurablePathPrefix(d, BlobTree(w), k);
      DurablePathPrefix(d, TempDir(w), k);
    }
  }

  lemma CrashKeepsBlob(w: World, d: Disk, d': Disk, digest: string, size: nat)
    requires Crashed(d, d') && SafeBlob(w, d, digest, size)
    ensures SafeBlob(w, d', digest, size) && BlobInode(w, d', digest) == BlobInode(w, d, digest)
  {
    DurablePathSurvives(d, d', BlobPath(w, digest));
  }

  lemma AfterCrashOwns(pc: Pc)
    ensures JobOf(AfterCrash(pc)) == None
    ensures OwnOf(AfterCrash(pc)).Some? ==> OwnOf(AfterCrash(pc)) == OwnOf(pc)
  {
  }

  lemma CrashKeepsKept(w: World, d: Disk, d': Disk, job: Job, deduped: bool)
    requires Crashed(d, d') && Keeping(w, d, job, deduped)
    ensures Keeping(w, d', job, deduped)
  {
    CrashKeepsBlob(w, d, d', Digest(w, job.data), |job.data|);
  }

  /** What outlives a crash: an opened store stays opened, kept blobs stay kept. */
  lemma CrashKeepsKnowledge(w: World, d: Disk, d': Disk, pc: Pc)
    requires Crashed(d, d') && Ready(w, d, pc)
    ensures Known(w, d', AfterCrash(pc))
  {
    if pc.Opened? {
      CrashKeepsRoot(w, d, d');
    } else if pc.Stored? {
      CrashKeepsKept(w, d, d', pc.job, pc.deduped);
    } else {
      GetVerified(w, d, pc);
      OthersKnowNothing(w, d', pc);
    }
  }

  /** The digest a get returned nil for, and the bytes it delivered. */
  predicate Matching(w: World, pc: Pc) {
    match pc
    case Streamed(digest, sent) => Digest(w, sent) == digest
    case Fetched(f) => Digest(w, f.data) == f.digest
    case FetchedEarlier(f) => Digest(w, f.data) == f.digest
    case _ => true
  }

  lemma GetVerified(w: World, d: Disk, pc: Pc)
    requires KnownGet(w, d, pc)
    ensures Matching(w, pc)
  {
  }

  lemma OthersKnowNothing(w: World, d': Disk, pc: Pc)
    requires !pc.Opened? && !pc.Stored? && Matching(w, pc)
    ensures Known(w, d', AfterCrash(pc))
  {
  }

  lemma CrashKeepsProcs(w: World, s: State, d': Disk, s': State)
    requires ProcsKnow(w, s) && Next(w, s, Crash(d'), s')
    ensures ProcsKnow(w, s')
  {
    forall pid | pid in s'.procs
      ensures Ready(w, d', s'.procs[pid])
      ensures OwnOf(s'.procs[pid]).Some? ==> OwnOf(s'.procs[pid]) == OwnOf(s.procs[pid])
    {
      AfterCrashOwns(s.procs[pid]);
      CrashKeepsKnowledge(w, s.disk, d', s.procs[pid]);
    }
  }

  lemma CrashKeepsOwners(w: World, s: State, d': Disk, s': State)
    requires Next(w, s, Crash(d'), s')
    ensures forall pid :: pid in s'.procs ==> JobOf(s'.procs[pid]) == None
    ensures forall pid :: pid in s'.procs && OwnOf(s'.procs[pid]).Some? ==> OwnOf(s'.procs[pid]) == OwnOf(s.procs[pid])
  {
    forall pid | pid in s'.procs
      ensures JobOf(s'.procs[pid]) == None
      ensures OwnOf(s'.procs[pid]).Some? ==> OwnOf(s'.procs[pid]) == OwnOf(s.procs[pid])
    {
      AfterCrashOwns(s.procs[pid]);
    }
  }

  lemma CrashKeeps(w: World, foreign: set<Inode>, s: State, d': Disk, s': State)
    requires Inv(w, foreign, s) && Next(w, s, Crash(d'), s')
    ensures Inv(w, foreign, s')
  {
    CrashKeepsProcs(w, s, d', s');
    CrashKeepsOwners(w, s, d', s');
  }

  /** Every action keeps the invariant. */
  lemma ActionKeeps(w: World, foreign: set<Inode>, s: State, a: Action, s': State)
    requires Inv(w, foreign, s) && Next(w, s, a, s')
    ensures Inv(w, foreign, s')
  {
    match a
    case Begin(pid, pc) => BeginKeeps(w, foreign, s, pid, pc);
    case Run(pid, c) => RunKeeps(w, foreign, s, pid, c);
    case Break(pid, c) => BreakKeeps(w, foreign, s, pid, c, s');
    case Kill(pid) => KillKeeps(w, foreign, s, pid, s');
    case WriteBack(paths, inodes) => WriteBackKeeps(w, foreign, s, paths, inodes, s');
    case Crash(d') => CrashKeeps(w, foreign, s, d', s');
  }

  /** The invariant holds in every state of every run from any store whatsoever. */
  lemma {:induction false} RunInvariant(w: World, states: seq<State>, actions: seq<Action>, k: nat)
    requires IsRun(w, states, actions) && Init(w, states[0]) && k <= |actions|
    ensures Inv(w, states[0].disk.files.Keys, states[k])
  {
    if k == 0 {
      InitInvariant(w, states[0]);
    } else {
      RunInvariant(w, states, actions, k - 1);
      ActionKeeps(w, states[0].disk.files.Keys, states[k - 1], actions[k - 1], states[k]);
    }
  }

  lemma InitInvariant(w: World, s: State)
    requires Init(w, s)
    ensures Inv(w, s.disk.files.Keys, s)
  {
  }

  // ---- staging, over runs ----

  lemma ActionKeepsStaging(w: World, foreign: set<Inode>, s: State, a: Action, s': State)
    requires Inv(w, foreign, s) && StagingExact(w, s) && Next(w, s, a, s') && GetsKeepOff(s, StagingPaths(w))
    ensures StagingExact(w, s')
  {
    match a
    case Begin(pid, pc) => BeginKeepsStaging(w, s, pid, pc);
    case Run(pid, c) => StepKeepsStaging(w, foreign, s, pid, c);
    case Break(pid, c) => BreakKeepsStaging(w, foreign, s, pid, c, s');
    case Kill(pid) => AbandonStaging(w, foreign, s, s', pid);
    case WriteBack(paths, inodes) => SameJobsKeepStaging(w, s, s');
    case Crash(d') =>
      CrashKeepsOwners(w, s, d', s');
      assert forall t, q :: !OwnsTemp(s', t, q);
  }

  lemma InitStaging(w: World, s: State)
    requires Init(w, s)
    ensures StagingExact(w, s)
  {
    assert forall t, q :: !OwnsTemp(s, t, q);
  }

  ghost predicate StagingInv(w: World, foreign: set<Inode>, s: State) {
    Inv(w, foreign, s) && StagingExact(w, s) && GetsKeepOff(s, StagingPaths(w))
  }

  lemma ActionKeepsStagingInv(w: World, foreign: set<Inode>, s: State, a: Action, s': State)
    requires StagingInv(w, foreign, s) && Next(w, s, a, s') && BeginsOff(a, StagingPaths(w))
    ensures StagingInv(w, foreign, s')
  {
    ActionKeeps(w, foreign, s, a, s');
    ActionKeepsStaging(w, foreign, s, a, s');
    ActionKeepsOff(w, s, a, s', StagingPaths(w));
  }

  lemma {:induction false} RunKeepsStaging(w: World, states: seq<State>, actions: seq<Action>, k: nat)
    requires IsRun(w, states, actions) && Init(w, states[0]) && k <= |actions| && RunKeepsOff(actions, StagingPaths(w))
    ensures StagingInv(w, states[0].disk.files.Keys, states[k])
  {
    if k == 0 {
      InitInvariant(w, states[0]);
      InitStaging(w, states[0]);
    } else {
      RunKeepsStaging(w, states, actions, k - 1);
      assert BeginsOff(actions[k - 1], StagingPaths(w));
      ActionKeepsStagingInv(w, states[0].disk.files.Keys, states[k - 1], actions[k - 1], states[k]);
    }
  }
}
