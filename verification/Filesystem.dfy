/**
 A POSIX-like filesystem that can crash.

 The namespace is keyed by cleaned absolute path (a sequence of names; the filesystem root is []).
 `cur` is what running processes see, `dur` is what has reached the disk: fsync of a directory copies
 its own entries from `cur` to `dur`. Files are inodes, so one file may be linked under several paths.
 */
module Filesystem {
  import opened Octets

  type Name = string
  type Path = seq<Name>
  type Inode = nat

  datatype Node = Directory | Link(inode: Inode)
  datatype File = File(data: Bytes, synced: bool)
  datatype Disk = Disk(cur: map<Path, Node>, dur: map<Path, Node>, files: map<Inode, File>)

  function Parent(p: Path): Path {
    if |p| == 0 then p else p[..|p| - 1]
  }

  predicate ChildOf(dir: Path, p: Path) {
    |p| == |dir| + 1 && p[..|dir|] == dir
  }

  predicate IsDir(d: Disk, p: Path) {
    p in d.cur && d.cur[p] == Directory
  }

  ghost predicate Linked(d: Disk, p: Path, i: Inode) {
    (p in d.cur && d.cur[p] == Link(i)) || (p in d.dur && d.dur[p] == Link(i))
  }

  /** Every name lies in a directory, and every link names an existing file. */
  ghost predicate ValidDisk(d: Disk) {
    && [] in d.cur && [] in d.dur && d.cur[[]] == d.dur[[]] == Directory
    && (forall p, k :: p in d.cur && 0 <= k < |p| ==> IsDir(d, p[..k]))
    && (forall p, i: Inode :: Linked(d, p, i) ==> i in d.files)
  }

  ghost predicate DurableEntry(d: Disk, p: Path) {
    p in d.cur && p in d.dur && d.cur[p] == d.dur[p]
  }

  /** Every directory entry from the root down to p is on disk. */
  ghost predicate DurablePath(d: Disk, p: Path) {
    forall k :: 0 <= k <= |p| ==> DurableEntry(d, p[..k])
  }

  // ---- system calls ----

  function Mkdir(d: Disk, p: Path): Disk {
    d.(cur := d.cur[p := Directory])
  }

  function CreateFile(d: Disk, p: Path, i: Inode): Disk {
    d.(cur := d.cur[p := Link(i)], files := d.files[i := File([], false)])
  }

  function Append(d: Disk, i: Inode, chunk: Bytes): Disk
    requires i in d.files
  {
    d.(files := d.files[i := File(d.files[i].data + chunk, false)])
  }

  function LinkFile(d: Disk, p: Path, i: Inode): Disk {
    d.(cur := d.cur[p := Link(i)])
  }

  function Unlink(d: Disk, p: Path): Disk {
    d.(cur := d.cur - {p})
  }

  function SyncFile(d: Disk, i: Inode): Disk
    requires i in d.files
  {
    d.(files := d.files[i := d.files[i].(synced := true)])
  }

  /** What an fsync of the directory leaves on disk. */
  function SyncDir(d: Disk, dir: Path): Disk {
    Flush(d, set p | p in d.cur.Keys + d.dur.Keys && ChildOf(dir, p), {})
  }

  /** The kernel may write back any entries and any files at any time. */
  function Flush(d: Disk, ps: set<Path>, files: set<Inode>): Disk {
    Disk(d.cur,
         map p | p in d.cur.Keys + d.dur.Keys && (if p in ps then p in d.cur else p in d.dur)
           :: if p in ps then d.cur[p] else d.dur[p],
         map i | i in d.files :: if i in files then d.files[i].(synced := true) else d.files[i])
  }

  /**
   A system crash. Each entry that survives is one that was current or on disk; an entry is certain to
   survive only when the whole chain above it is on disk, and an entry whose directory is lost is lost
   with it. A file that was never synced may hold anything.
   */
  ghost predicate Crashed(d: Disk, d': Disk) {
    && ValidDisk(d')
    && d'.cur == d'.dur
    && (forall p :: p in d'.cur ==> (p in d.cur && d'.cur[p] == d.cur[p]) || (p in d.dur && d'.cur[p] == d.dur[p]))
    && (forall p :: p in d.cur && DurablePath(d, p) ==> p in d'.cur && d'.cur[p] == d.cur[p])
    && d'.files.Keys == d.files.Keys
    && (forall i :: i in d.files && d.files[i].synced ==> d'.files[i] == d.files[i])
  }

  lemma DurablePathPrefix(d: Disk, p: Path, k: nat)
    requires DurablePath(d, p) && k <= |p|
    ensures DurablePath(d, p[..k])
  {
    forall j | 0 <= j <= k
      ensures DurableEntry(d, p[..k][..j])
    {
      assert p[..k][..j] == p[..j];
    }
  }

  lemma DurablePathSurvives(d: Disk, d': Disk, p: Path)
    requires Crashed(d, d') && p in d.cur && DurablePath(d, p)
    ensures DurablePath(d', p) && p in d'.cur && d'.cur[p] == d.cur[p]
  {
    forall k | 0 <= k <= |p|
      ensures DurableEntry(d', p[..k])
    {
      DurablePathPrefix(d, p, k);
    }
    assert p[..|p|] == p;
  }

  /** The crash that loses all it can. */
  ghost function WorstCrash(d: Disk): Disk {
    var kept := map p | p in d.cur && DurablePath(d, p) :: d.cur[p];
    Disk(kept, kept, d.files)
  }

  lemma WorstCrashHappens(d: Disk)
    requires ValidDisk(d)
    ensures Crashed(d, WorstCrash(d))
  {
    var d' := WorstCrash(d);
    forall p, k | p in d'.cur && 0 <= k < |p|
      ensures IsDir(d', p[..k])
    {
      DurablePathPrefix(d, p, k);
      assert IsDir(d, p[..k]);
    }
    assert forall p, i: Inode :: Linked(d', p, i) ==> Linked(d, p, i);
  }

  /** An entry survives every crash exactly when the whole chain above it is on disk. */
  lemma SurvivesIffDurable(d: Disk, p: Path)
    requires ValidDisk(d) && p in d.cur
    ensures DurablePath(d, p) <==> forall d' :: Crashed(d, d') ==> p in d'.cur && d'.cur[p] == d.cur[p]
  {
    WorstCrashHappens(d);
    assert !DurablePath(d, p) ==> p !in WorstCrash(d).cur;
  }

  /** A directory lost in a crash takes everything below it along, and comes back empty when it is recreated. */
  lemma LostDirectoryStaysEmpty(d: Disk, d': Disk, dir: Path, p: Path)
    requires Crashed(d, d') && dir !in d'.cur
    requires dir < p
    ensures p !in Mkdir(d', dir).cur && p !in Mkdir(d', dir).dur
  {
    assert p[..|dir|] == dir;
  }
}
