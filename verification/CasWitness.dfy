/**
 Runs that exist: what a get does whose destination is one of the store's own paths, and how a delivered
 destination is lost. With the theorems over all runs they say exactly which destinations keep what.
 */
module CasWitness {
  import opened Octets
  import opened Wrappers
  import opened Identity
  import opened Filesystem
  import opened FreshNames
  import opened CasProtocol
  import opened CasInvariant
  import opened CasReachable
  import CasTheorems

  // ---- runs, one action at a time ----

  predicate GoesTo(a: Action, dest: Path) {
    a.Begin? ==> DestOf(a.pc) in {None, Some(dest)}
  }

  ghost predicate GetsGoTo(actions: seq<Action>, dest: Path) {
    forall k :: 0 <= k < |actions| ==> GoesTo(actions[k], dest)
  }

  ghost predicate IsPath(w: World, states: seq<State>, actions: seq<Action>, s0: State, s: State, dest: Path) {
    && IsRun(w, states, actions) && Init(w, s0) && states[0] == s0 && states[|actions|] == s
    && CasTheorems.FaultFree(actions) && GetsGoTo(actions, dest)
  }

  /** Without faults, and with every get going to this destination, a run from s0 ends in s. */
  ghost predicate Leads(w: World, s0: State, s: State, dest: Path) {
    exists states: seq<State>, actions: seq<Action> :: IsPath(w, states, actions, s0, s, dest)
  }

  lemma Go(w: World, s0: State, s: State, a: Action, s': State, dest: Path)
    requires Leads(w, s0, s, dest) && Next(w, s, a, s') && (a.Begin? || a.Run?) && GoesTo(a, dest)
    ensures Leads(w, s0, s', dest)
  {
    var states: seq<State>, actions: seq<Action> :| IsPath(w, states, actions, s0, s, dest);
    assert IsPath(w, states + [s'], actions + [a], s0, s', dest);
  }

  /** One step of one process. */
  lemma Take(w: World, s0: State, s: State, pid: Pid, c: Choice, t: Turn, dest: Path) returns (s': State)
    requires Leads(w, s0, s, dest) && pid in s.procs && t.Turn? && Step(w, s.disk, s.procs[pid], c) == t
    ensures s' == State(t.disk, s.procs[pid := t.pc], s.litter) && Leads(w, s0, s', dest)
  {
    s' := State(t.disk, s.procs[pid := t.pc], s.litter);
    Go(w, s0, s, Run(pid, c), s', dest);
  }

  lemma Stay(w: World, s: State, dest: Path)
    requires Init(w, s)
    ensures Leads(w, s, s, dest)
  {
    assert IsPath(w, [s], [], s, s, dest);
  }

  // ---- a store with one blob, nothing of it synced but the blob's bytes ----

  function Above(p: Path): set<Path> {
    set k | 0 <= k <= |p| :: p[..k]
  }

  function StartDirs(w: World, x: string, dest: Path): set<Path> {
    Above(BlobDir(w, x)) + Above(TempDir(w)) + Above(Parent(dest))
  }

  function StartDisk(w: World, data: Bytes, dest: Path): Disk {
    var x := Digest(w, data);
    Disk((map p | p in StartDirs(w, x, dest) :: Directory)[BlobPath(w, x) := Link(0)],
         map[[] := Directory], map[0 := File(data, true)])
  }

  function Start(w: World, data: Bytes, dest: Path): State {
    State(StartDisk(w, data, dest), map[], Staging(w, StartDisk(w, data, dest)))
  }

  /** A destination that such a store leaves free. */
  predicate Beside(w: World, x: string, dest: Path) {
    dest != [] && !(dest <= TempDir(w)) && !(dest <= BlobPath(w, x)) && !(BlobPath(w, x) <= Parent(dest))
  }

  lemma AboveIs(p: Path, q: Path)
    ensures q in Above(p) <==> q <= p
  {
    if q <= p {
      assert q == p[..|q|];
    }
  }

  lemma StartDirsAre(w: World, x: string, dest: Path, q: Path)
    ensures q in StartDirs(w, x, dest) <==> q <= BlobDir(w, x) || q <= TempDir(w) || q <= Parent(dest)
  {
    AboveIs(BlobDir(w, x), q);
    AboveIs(TempDir(w), q);
    AboveIs(Parent(dest), q);
  }

  lemma BlobNotStartDir(w: World, x: string, dest: Path)
    requires Beside(w, x, dest)
    ensures BlobPath(w, x) !in StartDirs(w, x, dest) && dest !in StartDirs(w, x, dest) && dest != BlobPath(w, x)
  {
    StartDirsAre(w, x, dest, BlobPath(w, x));
    StartDirsAre(w, x, dest, dest);
    BlobPathInTree(w, x);
    assert BlobDir(w, x) <= BlobPath(w, x);
  }

  lemma StartIsValid(w: World, data: Bytes, dest: Path)
    requires Beside(w, Digest(w, data), dest)
    ensures ValidDisk(StartDisk(w, data, dest))
  {
    var x := Digest(w, data);
    var d := StartDisk(w, data, dest);
    BlobNotStartDir(w, x, dest);
    BlobPathInTree(w, x);
    StartDirsAre(w, x, dest, []);
    forall p, k | p in d.cur && 0 <= k < |p|
      ensures IsDir(d, p[..k])
    {
      StartDirsAre(w, x, dest, p);
      StartDirsAre(w, x, dest, p[..k]);
      if p == BlobPath(w, x) {
        assert p[..k] <= BlobDir(w, x);
      } else {
        assert p[..k] <= p;
      }
    }
  }

  lemma StartIsInit(w: World, data: Bytes, dest: Path)
    requires Beside(w, Digest(w, data), dest)
    ensures Init(w, Start(w, data, dest)) && dest !in Start(w, data, dest).disk.cur
    ensures HasBlob(w, Start(w, data, dest).disk, Digest(w, data))
    ensures TreesThere(w, Start(w, data, dest).disk) && IsDir(Start(w, data, dest).disk, Parent(dest))
  {
    var x := Digest(w, data);
    StartIsValid(w, data, dest);
    BlobNotStartDir(w, x, dest);
    BlobPathInTree(w, x);
    StartDirsAre(w, x, dest, Parent(dest));
    forall q | q <= BlobTree(w) || q <= TempDir(w)
      ensures IsDir(StartDisk(w, data, dest), q)
    {
      StartDirsAre(w, x, dest, q);
    }
  }

  // ---- Open ----

  const NOTHING := Choice("", 0, [])

  ghost predicate TreesThere(w: World, d: Disk) {
    forall q :: q <= BlobTree(w) || q <= TempDir(w) ==> IsDir(d, q)
  }

  function At(s: State, pid: Pid, pc: Pc): State {
    s.(procs := s.procs[pid := pc])
  }

  lemma {:induction false} OpenDirs(w: World, s0: State, s: State, which: nat, depth: nat, dest: Path)
    requires Leads(w, s0, s, dest) && TreesThere(w, s.disk)
    requires which < 2 && 1 <= depth <= |w.root| + 1 && 0 in s.procs && s.procs[0] == OpenMkdir(which, depth)
    ensures Leads(w, s0, At(s, 0, OpenSync(0, BlobTree(w))), dest)
    decreases 2 - which, |w.root| + 2 - depth
  {
    var p := StoreDirs(w)[which][..depth];
    assert p <= StoreDirs(w)[which] && IsDir(s.disk, p);
    var next := if depth <= |w.root| then OpenMkdir(which, depth + 1)
                else if which == 0 then OpenMkdir(1, 1) else OpenSync(0, BlobTree(w));
    var s' := Take(w, s0, s, 0, NOTHING, Turn(s.disk, next), dest);
    assert s' == At(s, 0, next);
    if next.OpenMkdir? {
      OpenDirs(w, s0, At(s, 0, next), next.which, next.depth, dest);
      assert At(At(s, 0, next), 0, OpenSync(0, BlobTree(w))) == At(s, 0, OpenSync(0, BlobTree(w)));
    }
  }

  /** An entry that Open does not sync. */
  predicate OffChains(w: World, q: Path) {
    q != [] && !(Parent(q) <= BlobTree(w)) && !(Parent(q) <= TempDir(w))
  }

  /** Only what is on disk has changed, and not for entries that Open does not sync. */
  ghost predicate OnlySynced(w: World, s: State, s': State) {
    && s'.disk.cur == s.disk.cur && s'.disk.files == s.disk.files && s'.litter == s.litter
    && forall q :: OffChains(w, q) && q !in s.disk.dur ==> q !in s'.disk.dur
  }

  lemma SyncSkips(w: World, d: Disk, dir: Path)
    requires dir <= BlobTree(w) || dir <= TempDir(w)
    ensures SyncDir(d, dir).cur == d.cur && SyncDir(d, dir).files == d.files
    ensures TreesThere(w, d) ==> TreesThere(w, SyncDir(d, dir))
    ensures forall q :: OffChains(w, q) && q !in d.dur ==> q !in SyncDir(d, dir).dur
  {
    forall q | OffChains(w, q)
      ensures !ChildOf(dir, q)
    {
      assert ChildOf(dir, q) ==> Parent(q) == dir;
    }
    if TreesThere(w, d) {
      forall q | q <= BlobTree(w) || q <= TempDir(w)
        ensures IsDir(SyncDir(d, dir), q)
      {
        assert IsDir(d, q);
      }
    }
  }

  lemma {:induction false} OpenSyncs(w: World, s0: State, s: State, which: nat, dir: Path, dest: Path) returns (s': State)
    requires Leads(w, s0, s, dest) && TreesThere(w, s.disk)
    requires which < 2 && dir <= StoreDirs(w)[which] && 0 in s.procs && s.procs[0] == OpenSync(which, dir)
    ensures Leads(w, s0, s', dest) && OnlySynced(w, s, s') && s'.procs == s.procs[0 := Opened]
    decreases 2 - which, |dir|
  {
    assert IsDir(s.disk, dir);
    SyncSkips(w, s.disk, dir);
    var next := if Parent(dir) != dir then OpenSync(which, Parent(dir))
                else if which == 0 then OpenSync(1, TempDir(w)) else Opened;
    s' := Take(w, s0, s, 0, NOTHING, Turn(SyncDir(s.disk, dir), next), dest);
    if next.OpenSync? {
      s' := OpenSyncs(w, s0, s', next.which, next.dir, dest);
    }
  }

  lemma OpenStore(w: World, data: Bytes, dest: Path) returns (s: State)
    requires Beside(w, Digest(w, data), dest)
    ensures var s0 := Start(w, data, dest);
      Leads(w, s0, s, dest) && OnlySynced(w, s0, s) && s.procs == map[0 := Opened]
  {
    var s0 := Start(w, data, dest);
    StartIsInit(w, data, dest);
    Stay(w, s0, dest);
    s := At(s0, 0, OpenMkdir(0, 1));
    Go(w, s0, s0, Begin(0, OpenMkdir(0, 1)), s, dest);
    OpenDirs(w, s0, s, 0, 1, dest);
    s := At(s, 0, OpenSync(0, BlobTree(w)));
    s := OpenSyncs(w, s0, s, 0, BlobTree(w), dest);
  }

  // ---- GetToFile ----

  /** Up to the creation of the temporary. */
  lemma Look(w: World, s0: State, s: State, x: string, dest: Path) returns (s': State)
    requires Leads(w, s0, s, dest) && s.procs == map[0 := Opened] && dest !in s.disk.cur
    requires IsDigest(x) && HasBlob(w, s.disk, x) && BlobInode(w, s.disk, x) == 0
    ensures Leads(w, s0, s', dest) && s' == At(s, 1, FetchCreate(x, dest, 0))
  {
    s' := At(s, 1, GetStat(x, dest));
    assert 0 in s.procs && s.procs[0].Opened?;
    Go(w, s0, s, Begin(1, GetStat(x, dest)), s', dest);
    s' := Take(w, s0, s', 1, NOTHING, Turn(s.disk, GetOpen(x, Some(dest))), dest);
    s' := Take(w, s0, s', 1, NOTHING, Turn(s.disk, FetchCreate(x, dest, 0)), dest);
  }

  /** The temporary, empty. */
  lemma Make(w: World, s0: State, s: State, f: Fetch, name: Name, dest: Path) returns (s': State)
    requires Leads(w, s0, s, dest) && f.dest == dest && 1 in s.procs && s.procs[1] == FetchCreate(f.digest, dest, 0)
    requires IsDir(s.disk, Parent(dest)) && f.tmp == Parent(dest) + [FETCH_PREFIX + name] && f.tmp !in s.disk.cur
    requires 1 !in s.disk.files && f.inode == 1
    ensures Leads(w, s0, s', dest) && s'.procs == s.procs[1 := FetchCopy(f.(data := []), 0)]
    ensures s'.disk == CreateFile(s.disk, f.tmp, 1)
  {
    s' := Take(w, s0, s, 1, Choice(name, 1, []), Turn(CreateFile(s.disk, f.tmp, 1), FetchCopy(f.(data := []), 0)), dest);
  }

  /** The temporary with all the bytes, before its sync. */
  lemma Copied(w: World, s0: State, s: State, f: Fetch, dest: Path) returns (s': State)
    requires Leads(w, s0, s, dest) && f.dest == dest && 1 in s.procs && s.procs[1] == FetchCopy(f.(data := []), 0)
    requires 0 in s.disk.files && 1 in s.disk.files && s.disk.files[0].data == f.data && f.inode == 1
    requires f.data == [] || Readable(f.data)
    ensures Leads(w, s0, s', dest) && s'.procs == s.procs[1 := FetchSync(f)]
    ensures s'.disk.cur == s.disk.cur && s'.disk.dur == s.disk.dur && 1 in s'.disk.files
  {
    s' := s;
    var empty := f.(data := []);
    if f.data != [] {
      assert empty.data + f.data == f.data && empty.(data := f.data) == f;
      s' := Take(w, s0, s, 1, Choice("", 0, f.data), Turn(Append(s.disk, 1, f.data), FetchCopy(f, 0)), dest);
    }
    s' := Take(w, s0, s', 1, NOTHING, Turn(s'.disk, FetchSync(f)), dest);
  }

  lemma Fill(w: World, s0: State, s: State, f: Fetch, name: Name, dest: Path) returns (s': State)
    requires Leads(w, s0, s, dest) && f.dest == dest && 1 in s.procs && s.procs[1] == FetchCreate(f.digest, dest, 0)
    requires IsDir(s.disk, Parent(dest)) && f.tmp == Parent(dest) + [FETCH_PREFIX + name] && f.tmp !in s.disk.cur
    requires 0 in s.disk.files && 1 !in s.disk.files && s.disk.files[0].data == f.data && f.inode == 1
    requires f.data == [] || Readable(f.data)
    ensures Leads(w, s0, s', dest) && s'.procs == s.procs[1 := FetchSync(f)]
    ensures s'.disk.cur == s.disk.cur[f.tmp := Link(1)] && s'.disk.dur == s.disk.dur && 1 in s'.disk.files
  {
    s' := Make(w, s0, s, f, name, dest);
    s' := Copied(w, s0, s', f, dest);
  }

  /** The sync and the link. */
  lemma Publish(w: World, s0: State, s: State, f: Fetch, dest: Path) returns (s': State)
    requires Leads(w, s0, s, dest) && f.dest == dest && 1 in s.procs && s.procs[1] == FetchSync(f)
    requires f.tmp in s.disk.cur && s.disk.cur[f.tmp] == Link(1) && f.inode == 1 && 1 in s.disk.files
    requires dest !in s.disk.cur && IsDir(s.disk, Parent(dest)) && Digest(w, f.data) == f.digest
    ensures Leads(w, s0, s', dest) && s'.procs == s.procs[1 := FetchSyncDir(f)]
    ensures s'.disk.cur == s.disk.cur[dest := Link(1)] && s'.disk.dur == s.disk.dur
  {
    s' := Take(w, s0, s, 1, NOTHING, Turn(SyncFile(s.disk, 1), FetchLink(f)), dest);
    s' := Take(w, s0, s', 1, NOTHING, Turn(LinkFile(s'.disk, dest, 1), FetchSyncDir(f)), dest);
  }

  /** The sync of the directory and the removal. */
  lemma Settle(w: World, s0: State, s: State, f: Fetch, dest: Path) returns (s': State)
    requires Leads(w, s0, s, dest) && f.dest == dest && 1 in s.procs && s.procs[1] == FetchSyncDir(f)
    requires dest in s.disk.cur && f.tmp != dest && IsDir(s.disk, Parent(dest))
    ensures Leads(w, s0, s', dest) && s'.procs == s.procs[1 := Fetched(f)]
    ensures dest in s'.disk.cur && s'.disk.cur[dest] == s.disk.cur[dest]
    ensures forall q :: q !in s.disk.dur && Parent(q) != Parent(dest) ==> q !in s'.disk.dur
  {
    assert forall q :: ChildOf(Parent(dest), q) ==> Parent(q) == Parent(dest);
    s' := Take(w, s0, s, 1, NOTHING, Turn(SyncDir(s.disk, Parent(dest)), FetchCleanup(f, true)), dest);
    s' := Take(w, s0, s', 1, NOTHING, Turn(Unlink(s'.disk, f.tmp), Fetched(f)), dest);
  }

  lemma GetFrom(w: World, s0: State, s: State, data: Bytes, dest: Path, name: Name) returns (s': State, f: Fetch)
    requires Leads(w, s0, s, dest) && s.procs == map[0 := Opened, 1 := FetchCreate(Digest(w, data), dest, 0)]
    requires dest != [] && dest !in s.disk.cur && IsDir(s.disk, Parent(dest))
    requires var tmp := Parent(dest) + [FETCH_PREFIX + name]; tmp !in s.disk.cur && tmp != dest
    requires 0 in s.disk.files && 1 !in s.disk.files && s.disk.files[0].data == data && (data == [] || Readable(data))
    ensures Leads(w, s0, s', dest) && s'.procs == map[0 := Opened, 1 := Fetched(f)]
    ensures f.dest == dest && f.data == data && f.digest == Digest(w, data) && f.inode == 1
    ensures dest in s'.disk.cur && s'.disk.cur[dest] == Link(1)
    ensures forall q :: q !in s.disk.dur && Parent(q) != Parent(dest) ==> q !in s'.disk.dur
  {
    f := Fetch(Digest(w, data), dest, Parent(dest) + [FETCH_PREFIX + name], 1, data);
    s' := Fill(w, s0, s, f, name, dest);
    s' := Publish(w, s0, s', f, dest);
    s' := Settle(w, s0, s', f, dest);
  }

  /** To any destination such a store leaves free, a get succeeds. */
  lemma GetSucceeds(w: World, data: Bytes, dest: Path) returns (s: State, f: Fetch)
    requires Beside(w, Digest(w, data), dest) && (data == [] || Readable(data))
    ensures Leads(w, Start(w, data, dest), s, dest) && s.procs == map[0 := Opened, 1 := Fetched(f)]
    ensures f.dest == dest && f.data == data && f.digest == Digest(w, data) && f.inode == 1
    ensures dest in s.disk.cur && s.disk.cur[dest] == Link(1)
    ensures forall q :: OffChains(w, q) && Parent(q) != Parent(dest) ==> q !in s.disk.dur
  {
    var s0 := Start(w, data, dest);
    StartIsInit(w, data, dest);
    HexOfSumIsDigest(w.sha(data));
    s := OpenStore(w, data, dest);
    s := Look(w, s0, s, Digest(w, data), dest);
    var name := AFreeName(s.disk.cur.Keys + {dest}, Parent(dest), FETCH_PREFIX);
    s, f := GetFrom(w, s0, s, data, dest, name);
  }

  // ---- which destinations keep what ----

  /** In every run all of whose gets go there, no blob is ever torn. */
  ghost predicate KeepsBlobsIntact(w: World, dest: Path) {
    forall states: seq<State>, actions: seq<Action> ::
      IsRun(w, states, actions) && Init(w, states[0]) && GetsGoTo(actions, dest) ==>
        NoTornBlob(w, states[0].disk.files.Keys, states[|actions|].disk)
  }

  /** A get of one blob to the path of another tears it: the digest's path then holds other bytes. */
  lemma GetTearsBlob(w: World, data: Bytes, y: string)
    requires IsDigest(y) && y != Digest(w, data) && (data == [] || Readable(data))
    ensures !KeepsBlobsIntact(w, BlobPath(w, y))
    ensures exists s :: Leads(w, Start(w, data, BlobPath(w, y)), s, BlobPath(w, y))
                        && HasBlob(w, s.disk, y) && BlobData(w, s.disk, y) == data
  {
    var dest := BlobPath(w, y);
    BlobIsBeside(w, Digest(w, data), y);
    var s, f := GetSucceeds(w, data, dest);
    var states: seq<State>, actions: seq<Action> :| IsPath(w, states, actions, Start(w, data, dest), s, dest);
    CasTheorems.FetchedIsDelivered(w, states, actions, |actions|, 1);
    assert Linked(s.disk, BlobPath(w, y), 1);
  }

  lemma BlobIsBeside(w: World, x: string, y: string)
    requires x != y
    ensures Beside(w, x, BlobPath(w, y))
  {
    BlobPathInTree(w, x);
    BlobPathInTree(w, y);
    assert BlobPath(w, y)[|w.root|] == BlobTree(w)[|w.root|] == "sha256";
  }

  /** Two short byte strings with different hashes, as any two of SHA-256's are in practice. */
  ghost predicate TellsApart(w: World, a: Bytes, b: Bytes) {
    (a == [] || Readable(a)) && (b == [] || Readable(b)) && Digest(w, a) != Digest(w, b)
  }

  /** The destinations that keep every blob intact are exactly those that are no digest's path. */
  lemma IntactIff(w: World, dest: Path, a: Bytes, b: Bytes)
    requires TellsApart(w, a, b)
    ensures KeepsBlobsIntact(w, dest) <==> !IsBlobPath(w, dest)
  {
    if IsBlobPath(w, dest) {
      var y := dest[|dest| - 1];
      GetTearsBlob(w, if y == Digest(w, a) then b else a, y);
    } else {
      forall states: seq<State>, actions: seq<Action> |
        IsRun(w, states, actions) && Init(w, states[0]) && GetsGoTo(actions, dest)
        ensures NoTornBlob(w, states[0].disk.files.Keys, states[|actions|].disk)
      {
        KeepsOff(actions, dest, BlobPaths(w));
        RunKeepsBlobs(w, states, actions, |actions|);
      }
    }
  }

  lemma KeepsOff(actions: seq<Action>, dest: Path, off: iset<Path>)
    requires GetsGoTo(actions, dest) && dest !in off
    ensures RunKeepsOff(actions, off)
  {
    forall k | 0 <= k < |actions|
      ensures BeginsOff(actions[k], off)
    {
      assert GoesTo(actions[k], dest);
    }
  }

  /** In every run all of whose gets go there, with no put at either end and none abandoned, staging is as it was. */
  ghost predicate KeepsStaging(w: World, dest: Path) {
    forall states: seq<State>, actions: seq<Action> ::
      IsRun(w, states, actions) && Init(w, states[0]) && GetsGoTo(actions, dest)
      && (forall m :: 0 <= m < |actions| ==> !CasTheorems.LeavesTemp(states[m], actions[m]))
      && CasTheorems.NoPutInProgress(states[|actions|]) ==>
        Staging(w, states[|actions|].disk) == Staging(w, states[0].disk)
  }

  /** The destinations that leave the staging directory as it was are exactly those outside it. */
  lemma StagingIff(w: World, dest: Path)
    ensures KeepsStaging(w, dest) <==> !IsStaging(w, dest)
  {
    if IsStaging(w, dest) {
      GetLeavesStaged(w, dest);
    } else {
      forall states: seq<State>, actions: seq<Action> |
        && IsRun(w, states, actions) && Init(w, states[0]) && GetsGoTo(actions, dest)
        && (forall m :: 0 <= m < |actions| ==> !CasTheorems.LeavesTemp(states[m], actions[m]))
        && CasTheorems.NoPutInProgress(states[|actions|])
        ensures Staging(w, states[|actions|].disk) == Staging(w, states[0].disk)
      {
        KeepsOff(actions, dest, StagingPaths(w));
        CasTheorems.StagingRestored(w, states, actions, 0, |actions|);
      }
    }
  }

  lemma GetLeavesStaged(w: World, dest: Path)
    requires IsStaging(w, dest)
    ensures !KeepsStaging(w, dest)
  {
    var data: Bytes := [];
    StagedIsBeside(w, Digest(w, data), dest);
    StartIsInit(w, data, dest);
    var s, f := GetSucceeds(w, data, dest);
    var states: seq<State>, actions: seq<Action> :| IsPath(w, states, actions, Start(w, data, dest), s, dest);
    forall m | 0 <= m < |actions|
      ensures !CasTheorems.LeavesTemp(states[m], actions[m])
    {
      assert actions[m] in actions;
    }
    assert dest in Staging(w, s.disk) && dest !in Staging(w, states[0].disk);
  }

  lemma StagedIsBeside(w: World, x: string, dest: Path)
    requires IsStaging(w, dest)
    ensures Beside(w, x, dest)
  {
    BlobPathInTree(w, x);
    assert Parent(dest) == TempDir(w);
    assert dest[|w.root|] == TempDir(w)[|w.root|] == ".tmp";
    assert BlobPath(w, x)[|w.root|] == BlobTree(w)[|w.root|] == "sha256";
  }

  // ---- a destination that a crash takes ----

  /**
   A get returns nil, and a crash takes its destination: any destination whose directory lies in a directory that
   neither Open nor the get syncs.
   */
  lemma DeliveredIsLost(w: World, data: Bytes, dest: Path)
    requires Beside(w, Digest(w, data), dest) && (data == [] || Readable(data))
    requires OffChains(w, Parent(dest))
    ensures exists s, f, d' ::
      && Leads(w, Start(w, data, dest), s, dest) && 1 in s.procs && s.procs[1] == Fetched(f) && f.dest == dest
      && Next(w, s, Crash(d'), State(d', map pid | pid in s.procs :: AfterCrash(s.procs[pid]), Staging(w, d')))
      && dest !in d'.cur
  {
    var s, f := GetSucceeds(w, data, dest);
    var states: seq<State>, actions: seq<Action> :| IsPath(w, states, actions, Start(w, data, dest), s, dest);
    RunInvariant(w, states, actions, |actions|);
    assert Parent(dest) !in s.disk.dur;
    assert dest[..|dest| - 1] == Parent(dest) && !DurablePath(s.disk, dest);
    WorstCrashHappens(s.disk);
    assert Leads(w, Start(w, data, dest), s, dest);
    assert dest !in WorstCrash(s.disk).cur;
    assert Next(w, s, Crash(WorstCrash(s.disk)),
                State(WorstCrash(s.disk), map pid | pid in s.procs :: AfterCrash(s.procs[pid]), Staging(w, WorstCrash(s.disk))));
  }
}
