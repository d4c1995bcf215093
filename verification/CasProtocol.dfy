/**
 The content-addressed store as a protocol over a crashable filesystem: any number of processes, each
 at one point of one operation (Open, Write/WriteFile, GetToWriter, GetToFile), interleaved one system
 call at a time. Any call may fail, any process may die, and the machine may crash.
 */
module CasProtocol {
  import opened Octets
  import opened Wrappers
  import opened Identity
  import opened Filesystem

  /** Where the store lives, and the hash function (SHA-256 itself is not modelled). */
  datatype World = World(root: Path, sha: Bytes -> Sum)

  function Digest(w: World, data: Bytes): string {
    Hex(w.sha(data))
  }

  // ---- paths ----

  function BlobTree(w: World): Path {
    w.root + ["sha256"]
  }

  function TempDir(w: World): Path {
    w.root + [".tmp"]
  }

  function StoreDirs(w: World): seq<Path> {
    [BlobTree(w), TempDir(w)]
  }

  function BlobDir(w: World, digest: string): Path {
    var shard := if |digest| < 4 then digest + seq(4 - |digest|, _ => '0') else digest;
    BlobTree(w) + [shard[..2], shard[2..4]]
  }

  function BlobPath(w: World, digest: string): Path {
    BlobDir(w, digest) + [digest]
  }

  /** Where some digest's blob goes. */
  predicate IsBlobPath(w: World, p: Path) {
    p != [] && IsDigest(p[|p| - 1]) && p == BlobPath(w, p[|p| - 1])
  }

  const FETCH_PREFIX := "duro-get-"

  /** Named like the temporaries of GetToFile. */
  predicate IsFetchName(p: Path) {
    p != [] && FETCH_PREFIX <= p[|p| - 1]
  }

  // ---- processes ----

  /** A staged temporary file, what has been read into it and hashed, and the size WriteFile saw at open. */
  datatype Job = Job(want: Option<nat>, tmp: Path, inode: Inode, data: Bytes)

  /** A fetch to a file: the temporary beside the destination and what has been copied and hashed. */
  datatype Fetch = Fetch(digest: string, dest: Path, tmp: Path, inode: Inode, data: Bytes)

  datatype Kept = Kept(deduped: bool) | NotKept

  /** The next system call of a process. */
  datatype Pc =
    // Open
    | OpenMkdir(which: nat, depth: nat)
    | OpenSync(which: nat, dir: Path)
    | Opened
    | OpenFailed
    // Write, WriteFile
    | Create(want: Option<nat>)
    | Copy(job: Job)
    | SyncTemp(job: Job)
    | CheckSize(job: Job)
    | MakeDirs(job: Job, depth: nat)
    | LinkBlob(job: Job)
    | VerifyStat(job: Job)
    | VerifyOpen(job: Job)
    | VerifyRead(job: Job, blob: Inode, seen: Bytes)
    | SyncBlob(job: Job, deduped: bool)
    | SyncChain(job: Job, deduped: bool, dir: Path)
    | Cleanup(job: Job, kept: Kept)
    | Stored(job: Job, deduped: bool)
    | StoreFailed
    // GetToWriter (no destination), GetToFile
    | GetStat(digest: string, dest: Path)
    | GetOpen(digest: string, to: Option<Path>)
    | StreamCopy(digest: string, blob: Inode, sent: Bytes)
    | Streamed(digest: string, sent: Bytes)
    | FetchCreate(digest: string, dest: Path, blob: Inode)
    | FetchCopy(fetch: Fetch, blob: Inode)
    | FetchSync(fetch: Fetch)
    | FetchLink(fetch: Fetch)
    | FetchSyncDir(fetch: Fetch)
    | FetchCleanup(fetch: Fetch, ok: bool)
    | Fetched(fetch: Fetch)
    | GetFailed
    // GetToFile that returned nil before a crash
    | FetchedEarlier(fetch: Fetch)
    // killed, or lost in a crash
    | Gone

  predicate Finished(pc: Pc) {
    pc.Opened? || pc.OpenFailed? || pc.Stored? || pc.StoreFailed? || pc.Streamed? || pc.Fetched? || pc.FetchedEarlier?
    || pc.GetFailed? || pc.Gone?
  }

  /** Choices the environment makes for a call: a temporary's name and inode, and the bytes a read returns. */
  datatype Choice = Choice(name: Name, inode: Inode, chunk: Bytes)

  datatype Turn = Stuck | Turn(disk: Disk, pc: Pc)

  /** Where a failing system call takes the process. */
  function ErrorExit(pc: Pc): Pc {
    match pc
    case OpenMkdir(_, _) => OpenFailed
    case OpenSync(_, _) => OpenFailed
    case Create(_) => StoreFailed
    case Copy(job) => Cleanup(job, NotKept)
    case SyncTemp(job) => Cleanup(job, NotKept)
    case CheckSize(job) => Cleanup(job, NotKept)
    case MakeDirs(job, _) => Cleanup(job, NotKept)
    case LinkBlob(job) => Cleanup(job, NotKept)
    case VerifyStat(job) => Cleanup(job, NotKept)
    case VerifyOpen(job) => Cleanup(job, NotKept)
    case VerifyRead(job, _, _) => Cleanup(job, NotKept)
    case SyncBlob(job, _) => Cleanup(job, NotKept)
    case SyncChain(job, _, _) => Cleanup(job, NotKept)
    case Cleanup(job, kept) => AfterCleanup(job, kept)
    case GetStat(_, _) => GetFailed
    case GetOpen(_, _) => GetFailed
    case StreamCopy(_, _, _) => GetFailed
    case FetchCreate(_, _, _) => GetFailed
    case FetchCopy(f, _) => FetchCleanup(f, false)
    case FetchSync(f) => FetchCleanup(f, false)
    case FetchLink(f) => FetchCleanup(f, false)
    case FetchSyncDir(f) => FetchCleanup(f, false)
    case FetchCleanup(f, ok) => AfterFetch(f, ok)
    case _ => pc
  }

  function AfterCleanup(job: Job, kept: Kept): Pc {
    if kept.Kept? then Stored(job, kept.deduped) else StoreFailed
  }

  function AfterFetch(f: Fetch, ok: bool): Pc {
    if ok then Fetched(f) else GetFailed
  }

  /** One read of at most a buffer; the copy loop refuses a read that would overflow its byte count. */
  predicate Readable(chunk: Bytes) {
    0 < |chunk| <= BUFFER
  }

  predicate Overflows(data: Bytes, chunk: Bytes) {
    |data| + |chunk| > MAX_INT64
  }

  // ---- Open ----

  /** mkdir tolerating a directory that is already there. */
  function MkdirStep(d: Disk, p: Path, next: Pc, error: Pc): Turn {
    if p in d.cur then Turn(d, if d.cur[p] == Directory then next else error)
    else if IsDir(d, Parent(p)) then Turn(Mkdir(d, p), next)
    else Turn(d, error)
  }

  function SyncDirStep(d: Disk, dir: Path, next: Pc, error: Pc): Turn {
    if IsDir(d, dir) then Turn(SyncDir(d, dir), next) else Turn(d, error)
  }

  /** MkdirAll of both store directories, shallowest missing directory first. */
  function StepOpenMkdir(w: World, d: Disk, which: nat, depth: nat): Turn {
    if which >= 2 || depth == 0 || depth > |w.root| + 1 then Stuck
    else
      MkdirStep(d, StoreDirs(w)[which][..depth],
        if depth <= |w.root| then OpenMkdir(which, depth + 1)
        else if which == 0 then OpenMkdir(1, 1)
        else OpenSync(0, StoreDirs(w)[0]),
        OpenFailed)
  }

  /** syncChain(dir, "") for both store directories: up to the filesystem root. */
  function StepOpenSync(w: World, d: Disk, which: nat, dir: Path): Turn {
    SyncDirStep(d, dir,
      if Parent(dir) != dir then OpenSync(which, Parent(dir))
      else if which == 0 then OpenSync(1, StoreDirs(w)[1])
      else Opened,
      OpenFailed)
  }

  // ---- Write, WriteFile ----

  function StepCreate(w: World, d: Disk, want: Option<nat>, c: Choice): Turn {
    var tmp := TempDir(w) + ["duro-put-" + c.name];
    if !IsDir(d, TempDir(w)) then Turn(d, StoreFailed)
    else if tmp in d.cur || c.inode in d.files then Stuck
    else Turn(CreateFile(d, tmp, c.inode), Copy(Job(want, tmp, c.inode, [])))
  }

  function StepCopy(d: Disk, job: Job, c: Choice): Turn {
    if job.inode !in d.files then Stuck
    else if c.chunk == [] then Turn(d, SyncTemp(job))
    else if !Readable(c.chunk) then Stuck
    else if Overflows(job.data, c.chunk) then Turn(d, Cleanup(job, NotKept))
    else Turn(Append(d, job.inode, c.chunk), Copy(job.(data := job.data + c.chunk)))
  }

  function StepSyncTemp(d: Disk, job: Job): Turn {
    if job.inode !in d.files then Stuck else Turn(SyncFile(d, job.inode), CheckSize(job))
  }

  function StepCheckSize(d: Disk, job: Job): Turn {
    Turn(d, if job.want == None || job.want == Some(|job.data|) then MakeDirs(job, 1) else Cleanup(job, NotKept))
  }

  function StepMakeDirs(w: World, d: Disk, job: Job, depth: nat): Turn {
    var dir := BlobDir(w, Digest(w, job.data));
    if depth == 0 || depth > |dir| then Stuck
    else MkdirStep(d, dir[..depth],
           if depth == |dir| then LinkBlob(job) else MakeDirs(job, depth + 1),
           Cleanup(job, NotKept))
  }

  function StepLinkBlob(w: World, d: Disk, job: Job): Turn {
    var blob := BlobPath(w, Digest(w, job.data));
    if blob in d.cur then Turn(d, VerifyStat(job))
    else if IsDir(d, Parent(blob)) && job.tmp in d.cur && d.cur[job.tmp].Link? then
      Turn(LinkFile(d, blob, d.cur[job.tmp].inode), SyncBlob(job, false))
    else Turn(d, Cleanup(job, NotKept))
  }

  function StepVerifyStat(w: World, d: Disk, job: Job): Turn {
    var blob := BlobPath(w, Digest(w, job.data));
    if blob in d.cur && d.cur[blob].Link? && d.cur[blob].inode in d.files
       && |d.files[d.cur[blob].inode].data| == |job.data|
    then Turn(d, VerifyOpen(job)) else Turn(d, Cleanup(job, NotKept))
  }

  function StepVerifyOpen(w: World, d: Disk, job: Job): Turn {
    var blob := BlobPath(w, Digest(w, job.data));
    if blob in d.cur && d.cur[blob].Link? then Turn(d, VerifyRead(job, d.cur[blob].inode, []))
    else Turn(d, Cleanup(job, NotKept))
  }

  function StepVerifyRead(w: World, d: Disk, job: Job, i: Inode, seen: Bytes, c: Choice): Turn {
    if i !in d.files then Stuck
    else if c.chunk == [] then
      if seen != d.files[i].data then Stuck
      else Turn(d, if |seen| == |job.data| && Digest(w, seen) == Digest(w, job.data)
                   then SyncBlob(job, true) else Cleanup(job, NotKept))
    else if !Readable(c.chunk) || !(seen + c.chunk <= d.files[i].data) then Stuck
    else Turn(d, if Overflows(seen, c.chunk) then Cleanup(job, NotKept) else VerifyRead(job, i, seen + c.chunk))
  }

  function StepSyncBlob(w: World, d: Disk, job: Job, deduped: bool): Turn {
    var digest := Digest(w, job.data);
    var blob := BlobPath(w, digest);
    if blob in d.cur && d.cur[blob].Link? && d.cur[blob].inode in d.files then
      Turn(SyncFile(d, d.cur[blob].inode), SyncChain(job, deduped, BlobDir(w, digest)))
    else Turn(d, Cleanup(job, NotKept))
  }

  /** syncChain(dir, root). */
  function StepSyncChain(w: World, d: Disk, job: Job, deduped: bool, dir: Path): Turn {
    SyncDirStep(d, dir,
      if dir == w.root || Parent(dir) == dir then Cleanup(job, Kept(deduped))
      else SyncChain(job, deduped, Parent(dir)),
      Cleanup(job, NotKept))
  }

  // ---- GetToWriter, GetToFile ----

  function StepGetStat(d: Disk, digest: string, dest: Path): Turn {
    Turn(d, if dest in d.cur then GetFailed else GetOpen(digest, Some(dest)))
  }

  function StepGetOpen(w: World, d: Disk, digest: string, to: Option<Path>): Turn {
    var blob := BlobPath(w, digest);
    if IsDigest(digest) && blob in d.cur && d.cur[blob].Link? then
      Turn(d, if to.None? then StreamCopy(digest, d.cur[blob].inode, [])
              else FetchCreate(digest, to.value, d.cur[blob].inode))
    else Turn(d, GetFailed)
  }

  function StepStreamCopy(w: World, d: Disk, digest: string, i: Inode, sent: Bytes, c: Choice): Turn {
    if i !in d.files then Stuck
    else if c.chunk == [] then
      if sent != d.files[i].data then Stuck
      else Turn(d, if Digest(w, sent) == digest then Streamed(digest, sent) else GetFailed)
    else if !Readable(c.chunk) || !(sent + c.chunk <= d.files[i].data) then Stuck
    else Turn(d, if Overflows(sent, c.chunk) then GetFailed else StreamCopy(digest, i, sent + c.chunk))
  }

  function StepFetchCreate(d: Disk, digest: string, dest: Path, i: Inode, c: Choice): Turn {
    var tmp := Parent(dest) + [FETCH_PREFIX + c.name];
    if !IsDir(d, Parent(dest)) then Turn(d, GetFailed)
    else if tmp in d.cur || c.inode in d.files then Stuck
    else Turn(CreateFile(d, tmp, c.inode), FetchCopy(Fetch(digest, dest, tmp, c.inode, []), i))
  }

  function StepFetchCopy(d: Disk, f: Fetch, i: Inode, c: Choice): Turn {
    if i !in d.files || f.inode !in d.files then Stuck
    else if c.chunk == [] then
      if f.data == d.files[i].data then Turn(d, FetchSync(f)) else Stuck
    else if !Readable(c.chunk) || !(f.data + c.chunk <= d.files[i].data) then Stuck
    else if Overflows(f.data, c.chunk) then Turn(d, FetchCleanup(f, false))
    else Turn(Append(d, f.inode, c.chunk), FetchCopy(f.(data := f.data + c.chunk), i))
  }

  function StepFetchSync(w: World, d: Disk, f: Fetch): Turn {
    if f.inode !in d.files then Stuck
    else Turn(SyncFile(d, f.inode), if Digest(w, f.data) == f.digest then FetchLink(f) else FetchCleanup(f, false))
  }

  function StepFetchLink(d: Disk, f: Fetch): Turn {
    if f.dest !in d.cur && IsDir(d, Parent(f.dest)) && f.tmp in d.cur && d.cur[f.tmp].Link? then
      Turn(LinkFile(d, f.dest, d.cur[f.tmp].inode), FetchSyncDir(f))
    else Turn(d, FetchCleanup(f, false))
  }

  /**
   One system call of a process that the kernel carries out (it may still report that a name is present,
   absent or wrong, which the process then acts on).
   */
  function Step(w: World, d: Disk, pc: Pc, c: Choice): Turn {
    match pc
    case OpenMkdir(which, depth) => StepOpenMkdir(w, d, which, depth)
    case OpenSync(which, dir) => StepOpenSync(w, d, which, dir)
    case Create(want) => StepCreate(w, d, want, c)
    case Copy(job) => StepCopy(d, job, c)
    case SyncTemp(job) => StepSyncTemp(d, job)
    case CheckSize(job) => StepCheckSize(d, job)
    case MakeDirs(job, depth) => StepMakeDirs(w, d, job, depth)
    case LinkBlob(job) => StepLinkBlob(w, d, job)
    case VerifyStat(job) => StepVerifyStat(w, d, job)
    case VerifyOpen(job) => StepVerifyOpen(w, d, job)
    case VerifyRead(job, i, seen) => StepVerifyRead(w, d, job, i, seen, c)
    case SyncBlob(job, deduped) => StepSyncBlob(w, d, job, deduped)
    case SyncChain(job, deduped, dir) => StepSyncChain(w, d, job, deduped, dir)
    case Cleanup(job, kept) => Turn(Unlink(d, job.tmp), AfterCleanup(job, kept))
    case GetStat(digest, dest) => StepGetStat(d, digest, dest)
    case GetOpen(digest, to) => StepGetOpen(w, d, digest, to)
    case StreamCopy(digest, i, sent) => StepStreamCopy(w, d, digest, i, sent, c)
    case FetchCreate(digest, dest, i) => StepFetchCreate(d, digest, dest, i, c)
    case FetchCopy(f, i) => StepFetchCopy(d, f, i, c)
    case FetchSync(f) => StepFetchSync(w, d, f)
    case FetchLink(f) => StepFetchLink(d, f)
    case FetchSyncDir(f) => SyncDirStep(d, Parent(f.dest), FetchCleanup(f, true), FetchCleanup(f, false))
    case FetchCleanup(f, ok) => Turn(Unlink(d, f.tmp), AfterFetch(f, ok))
    case _ => Stuck
  }

  /** A system call that fails; a failed write may still have put some bytes in the process's own file. */
  function Fault(d: Disk, pc: Pc, c: Choice): Turn {
    if Finished(pc) then Stuck
    else if pc.Copy? && pc.job.inode in d.files && c.chunk != [] then Turn(Append(d, pc.job.inode, c.chunk), ErrorExit(pc))
    else if pc.FetchCopy? && pc.fetch.inode in d.files && c.chunk != [] then Turn(Append(d, pc.fetch.inode, c.chunk), ErrorExit(pc))
    else Turn(d, ErrorExit(pc))
  }

  // ---- the whole machine ----

  type Pid = nat

  /** `litter` is history: staging names no live process will remove. */
  datatype State = State(disk: Disk, procs: map<Pid, Pc>, litter: set<Path>)

  datatype Action =
    | Begin(pid: Pid, pc: Pc)
    | Run(pid: Pid, choice: Choice)
    | Break(pid: Pid, choice: Choice)
    | Kill(pid: Pid)
    | WriteBack(paths: set<Path>, inodes: set<Inode>)
    | Crash(disk: Disk)

  predicate StoreOpen(s: State) {
    exists pid :: pid in s.procs && s.procs[pid].Opened?
  }

  /** Operations begin from an opened store; a fetch's destination may lie anywhere. */
  predicate MayBegin(w: World, s: State, pc: Pc) {
    match pc
    case OpenMkdir(which, depth) => which == 0 && depth == 1
    case Create(_) => StoreOpen(s)
    case GetStat(_, _) => StoreOpen(s)
    case GetOpen(_, to) => StoreOpen(s) && to.None?
    case _ => false
  }

  /** The staged file a Write or WriteFile in progress is responsible for. */
  function JobOf(pc: Pc): Option<Job> {
    match pc
    case Copy(job) => Some(job)
    case SyncTemp(job) => Some(job)
    case CheckSize(job) => Some(job)
    case MakeDirs(job, _) => Some(job)
    case LinkBlob(job) => Some(job)
    case VerifyStat(job) => Some(job)
    case VerifyOpen(job) => Some(job)
    case VerifyRead(job, _, _) => Some(job)
    case SyncBlob(job, _) => Some(job)
    case SyncChain(job, _, _) => Some(job)
    case Cleanup(job, _) => Some(job)
    case _ => None
  }

  predicate IsStagingPc(pc: Pc) {
    pc.Copy? || pc.SyncTemp? || pc.CheckSize?
  }

  predicate IsPlacingPc(pc: Pc) {
    pc.MakeDirs? || pc.LinkBlob? || pc.SyncBlob? || pc.SyncChain?
  }

  /** The fetch a GetToFile in progress has a temporary for. */
  function FetchOf(pc: Pc): Option<Fetch> {
    match pc
    case FetchCopy(f, _) => Some(f)
    case FetchSync(f) => Some(f)
    case FetchLink(f) => Some(f)
    case FetchSyncDir(f) => Some(f)
    case FetchCleanup(f, _) => Some(f)
    case _ => None
  }

  /** The destination of a GetToFile in progress. */
  function DestOf(pc: Pc): Option<Path> {
    match pc
    case GetStat(_, dest) => Some(dest)
    case GetOpen(_, to) => to
    case FetchCreate(_, dest, _) => Some(dest)
    case _ => if FetchOf(pc).Some? then Some(FetchOf(pc).value.dest) else None
  }

  predicate IsStaging(w: World, p: Path) {
    ChildOf(TempDir(w), p)
  }

  function Staging(w: World, d: Disk): set<Path> {
    set p | p in d.cur && IsStaging(w, p)
  }

  function AddTemp(litter: set<Path>, pc: Pc): set<Path> {
    if JobOf(pc).Some? then litter + {JobOf(pc).value.tmp} else litter
  }

  /** What has returned has returned. */
  function AfterCrash(pc: Pc): Pc {
    if pc.Fetched? then FetchedEarlier(pc.fetch) else if Finished(pc) then pc else Gone
  }

  ghost predicate Next(w: World, s: State, a: Action, s': State) {
    match a
    case Begin(pid, pc) =>
      && pid !in s.procs && MayBegin(w, s, pc)
      && s' == s.(procs := s.procs[pid := pc])
    case Run(pid, c) =>
      && pid in s.procs
      && var t := Step(w, s.disk, s.procs[pid], c);
      && t.Turn?
      && s' == s.(disk := t.disk, procs := s.procs[pid := t.pc])
    case Break(pid, c) =>
      && pid in s.procs
      && var t := Fault(s.disk, s.procs[pid], c);
      && t.Turn?
      && s' == State(t.disk, s.procs[pid := t.pc],
                     if s.procs[pid].Cleanup? then AddTemp(s.litter, s.procs[pid]) else s.litter)
    case Kill(pid) =>
      && pid in s.procs && !Finished(s.procs[pid])
      && s' == s.(procs := s.procs[pid := Gone], litter := AddTemp(s.litter, s.procs[pid]))
    case WriteBack(paths, inodes) =>
      s' == s.(disk := Flush(s.disk, paths, inodes))
    case Crash(d') =>
      && Crashed(s.disk, d')
      && s' == State(d', map pid | pid in s.procs :: AfterCrash(s.procs[pid]), Staging(w, d'))
  }

  /** An arbitrary store: any directories, synced or not, any files, corrupt or not; no process yet. */
  ghost predicate Init(w: World, s: State) {
    ValidDisk(s.disk) && s.procs == map[] && s.litter == Staging(w, s.disk)
  }

  /** states[0], states[1], ... is a run that takes actions[0], actions[1], ... */
  ghost predicate IsRun(w: World, states: seq<State>, actions: seq<Action>) {
    && |states| == |actions| + 1
    && forall k :: 0 <= k < |actions| ==> Next(w, states[k], actions[k], states[k + 1])
  }
}
