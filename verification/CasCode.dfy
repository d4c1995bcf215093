/**
 The store's operations as imperative code over system calls, one process among others.

 A Host is the machine the code runs on: `disk` is its filesystem, and `states`, `actions` (ghost) are the run
 of the store protocol that has happened so far. Before each system call the other processes may do anything
 (`Yield`), and each call may fail. Each operation is proved to be, call by call, a continuation of that run, so
 whatever holds of all runs of the protocol holds of the code; the results it returns are those of the run.
 */
module CasCode {
  import opened Octets
  import opened Wrappers
  import opened Identity
  import opened Filesystem
  import opened FreshNames
  import opened CasProtocol
  import opened CasInvariant
  import opened CasSteps
  import opened CasReachable
  import CasTheorems
  import opened CasProgress

  datatype Errno = Ok | Exists | NoEntry | NotDirectory | Failed

  class Host {
    const w: World
    /** Whether system calls may fail, and whether other processes run. */
    const faulty: bool
    const alone: bool
    /** Whether every get, of this process or another, has its destination outside the blob tree. */
    const tidy: bool
    var disk: Disk
    ghost var states: seq<State>
    ghost var actions: seq<Action>

    ghost predicate Valid()
      reads this
    {
      IsRun(w, states, actions) && Init(w, states[0]) && states[|actions|].disk == disk
    }

    ghost function Now(): State
      reads this
      requires |states| == |actions| + 1
    {
      states[|actions|]
    }

    ghost predicate At(pid: Pid, pc: Pc)
      reads this
    {
      Valid() && pid in Now().procs && Now().procs[pid] == pc
    }

    // ---- the run ----

    /** The call that just changed the disk is the process's next step in the run. */
    ghost method Advance(pid: Pid, c: Choice, pc: Pc)
      requires IsRun(w, states, actions) && Init(w, states[0]) && pid in Now().procs
      requires Step(w, Now().disk, Now().procs[pid], c) == Turn(disk, pc)
      modifies this`states, this`actions
      ensures At(pid, pc) && Continued()
      ensures Now().procs == old(Now().procs)[pid := pc] && Now().litter == old(Now().litter)
    {
      Extend(Run(pid, c), Now().(disk := disk, procs := Now().procs[pid := pc]));
    }

    /** The call failed. */
    ghost method Break(pid: Pid, c: Choice)
      requires IsRun(w, states, actions) && Init(w, states[0]) && pid in Now().procs
      requires Fault(Now().disk, Now().procs[pid], c) == Turn(disk, ErrorExit(Now().procs[pid]))
      modifies this`states, this`actions
      ensures At(pid, ErrorExit(old(Now().procs[pid]))) && Continued()
      ensures Now().procs == old(Now().procs)[pid := ErrorExit(old(Now().procs[pid]))]
    {
      var pc := Now().procs[pid];
      Extend(Action.Break(pid, c),
             State(disk, Now().procs[pid := ErrorExit(pc)], if pc.Cleanup? then AddTemp(Now().litter, pc) else Now().litter));
    }

    /** A call failed that changes nothing when it fails. */
    ghost method Abort(pid: Pid, pc: Pc)
      requires At(pid, pc) && !Finished(pc)
      modifies this`states, this`actions
      ensures At(pid, ErrorExit(pc)) && Continued()
    {
      Break(pid, Choice("", 0, []));
    }

    /** A process begins an operation. */
    ghost method Start(pid: Pid, pc: Pc)
      requires Valid() && pid !in Now().procs && MayBegin(w, Now(), pc)
      requires tidy && DestOf(pc).Some? ==> DestOf(pc).value !in TreePaths(w)
      modifies this`states, this`actions
      ensures At(pid, pc) && Continued()
      ensures Next(w, old(Now()), Begin(pid, pc), Now()) && Now().procs == old(Now().procs)[pid := pc]
    {
      Extend(Begin(pid, pc), Now().(procs := Now().procs[pid := pc]));
    }

    ghost method Extend(a: Action, s: State)
      requires IsRun(w, states, actions) && Next(w, Now(), a, s)
      modifies this`states, this`actions
      ensures states == old(states) + [s] && actions == old(actions) + [a] && IsRun(w, states, actions)
      ensures forall data: Bytes :: old(Collided(data)) ==> Collided(data)
    {
      states := states + [s];
      actions := actions + [a];
      forall data: Bytes | old(Collided(data))
        ensures Collided(data)
      {
        var k :| 0 <= k < |old(states)| && !NoCollision(w, old(states)[k].disk, data);
        assert states[k] == old(states)[k];
      }
    }

    /** The run goes on from where it was, without a crash, and tidily if it is to be. */
    twostate predicate Continued()
      reads this
    {
      && old(states) <= states && old(actions) <= actions
      && Orderly(|old(actions)|)
      && forall data: Bytes :: old(Collided(data)) ==> Collided(data)
    }

    ghost predicate Orderly(from: nat)
      reads this
    {
      forall k :: from <= k < |actions| ==> !actions[k].Crash? && (tidy ==> BeginsOff(actions[k], TreePaths(w)))
    }

    /**
     Why a put of these bytes may fail: calls may, something is or may come in its way, or they cannot be counted.
     */
    ghost predicate Hindered(data: Bytes)
      reads this
      requires Valid()
    {
      faulty || !tidy || !Free(w, Now(), data) || |data| > MAX_INT64
    }

    /** Some file of the run has held other bytes with the same digest. */
    ghost predicate Collided(data: Bytes)
      reads this
    {
      exists k :: 0 <= k < |states| && !NoCollision(w, states[k].disk, data)
    }

    /** Why a put of these bytes may have failed: it was hindered when it began, or there has been a collision. */
    twostate predicate Excused(data: Bytes)
      requires old(Valid())
      reads this
    {
      old(Hindered(data)) || Collided(data)
    }

    twostate lemma StillUnhindered(data: Bytes)
      requires old(Valid()) && Valid() && Continued()
      ensures Hindered(data) ==> Excused(data)
    {
      if !old(Hindered(data)) && !Collided(data) {
        assert states[|old(actions)|] == old(states)[|old(actions)|];
        OffTree(w, actions, |old(actions)|, Digest(w, data));
        FreeOver(w, states, actions, |old(actions)|, |actions|, data);
      }
    }

    /** Why verifying what is stored may fail to find these bytes. */
    ghost predicate Doubtful(data: Bytes)
      reads this
    {
      faulty || !GoodBlob(w, disk, Digest(w, data), |data|) || |data| > MAX_INT64
    }

    twostate lemma StillCertain(data: Bytes)
      requires old(Valid()) && Valid() && Continued()
      ensures Doubtful(data) ==> old(Doubtful(data))
    {
      if !old(Doubtful(data)) {
        HexOfSumIsDigest(w.sha(data));
        CasTheorems.BlobNotFetchName(w, Digest(w, data));
        assert states[|old(actions)|] == old(states)[|old(actions)|];
        CasTheorems.PublishedUnchangedOver(w, states, actions, |old(actions)|, |actions|, BlobPath(w, Digest(w, data)));
      }
    }

    /** A store that was opened stays opened. */
    twostate lemma StillOpen()
      requires old(Valid()) && Valid() && Continued() && old(StoreOpen(Now()))
      ensures StoreOpen(Now())
    {
      var pid :| pid in old(Now().procs) && old(Now().procs)[pid].Opened?;
      assert states[|old(actions)|] == old(states)[|old(actions)|];
      CasTheorems.OpenedStays(w, states, actions, |old(actions)|, |actions|, pid);
    }

    /** A directory stays one. */
    twostate lemma StillDir(p: Path)
      requires old(Valid()) && Valid() && Continued() && old(IsDir(disk, p))
      ensures IsDir(disk, p)
    {
      assert states[|old(actions)|] == old(states)[|old(actions)|];
      DirStaysOver(w, states, actions, |old(actions)|, |actions|, p);
    }

    /** The name has been there since. */
    twostate predicate Seen(p: Path)
      reads this
    {
      exists k :: |old(actions)| <= k < |states| && p in states[k].disk.cur
    }

    /** What every process knows here. */
    lemma NowKnown(pid: Pid)
      requires Valid() && pid in Now().procs
      ensures Ready(w, disk, Now().procs[pid])
    {
      RunInvariant(w, states, actions, |actions|);
    }

    /** Other processes run: any steps of the protocol but a crash. This process is where it was. */
    method Yield(ghost pid: Pid)
      requires Valid() && pid in Now().procs
      modifies this
      ensures At(pid, old(Now().procs[pid])) && Continued()
      ensures alone ==> disk == old(disk) && states == old(states) && actions == old(actions)
    {
      // the caller sees only the contract: any number of steps of others
    }

    /** Other processes run; the disk is then as this process's next call needs it. */
    method YieldKnown(ghost pid: Pid)
      requires Valid() && pid in Now().procs
      modifies this
      ensures At(pid, old(Now().procs[pid])) && Continued()
      ensures Ready(w, disk, old(Now().procs[pid]))
      ensures alone ==> disk == old(disk) && states == old(states) && actions == old(actions)
    {
      Yield(pid);
      NowKnown(pid);
    }

    method Fails() returns (fails: bool)
      ensures fails ==> faulty
    {
      fails := *;
      fails := fails && faulty;
    }

    // ---- system calls ----

    method Mkdir(p: Path) returns (e: Errno)
      modifies this`disk
      ensures e == Ok ==> p !in old(disk).cur && IsDir(old(disk), Parent(p)) && disk == Filesystem.Mkdir(old(disk), p)
      ensures e == Exists ==> p in old(disk).cur
      ensures e == NoEntry ==> p !in old(disk).cur && !IsDir(old(disk), Parent(p))
      ensures e == NotDirectory ==> false
      ensures e == Failed ==> faulty
      ensures e != Ok ==> disk == old(disk)
    {
      var fails := Fails();
      if fails {
        return Failed;
      }
      if p in disk.cur {
        return Exists;
      }
      if !IsDir(disk, Parent(p)) {
        return NoEntry;
      }
      disk := Filesystem.Mkdir(disk, p);
      return Ok;
    }

    /** Opens a new file under a name no one has, and retries until it finds one. */
    method CreateTemp(dir: Path, prefix: string) returns (e: Errno, name: Name, i: Inode)
      modifies this`disk
      ensures e == Ok ==> IsDir(old(disk), dir) && dir + [prefix + name] !in old(disk).cur && i !in old(disk).files
                          && disk == CreateFile(old(disk), dir + [prefix + name], i)
      ensures e == NoEntry ==> !IsDir(old(disk), dir)
      ensures e == Failed ==> faulty
      ensures e in {Ok, NoEntry, Failed} && (e != Ok ==> disk == old(disk))
    {
      name, i := "", 0;
      var fails := Fails();
      if fails {
        return Failed, name, i;
      }
      if !IsDir(disk, dir) {
        return NoEntry, name, i;
      }
      ghost var aName, aFile := AFreeName(disk.cur.Keys, dir, prefix), AFreeInode(disk.files.Keys);
      name :| dir + [prefix + name] !in disk.cur;
      i :| i !in disk.files;
      disk := CreateFile(disk, dir + [prefix + name], i);
      return Ok, name, i;
    }

    /** A write; one that fails may have put a part of the chunk into the file. */
    method Write(i: Inode, chunk: Bytes) returns (e: Errno, ghost put: Bytes)
      requires i in disk.files
      modifies this`disk
      ensures e == Ok ==> put == chunk
      ensures disk == if put == [] then old(disk) else Append(old(disk), i, put)
      ensures e == Failed ==> faulty
      ensures e in {Ok, Failed}
    {
      var fails := Fails();
      if fails {
        var n: int := *;
        var part := if 0 <= n <= |chunk| then chunk[..n] else [];
        disk := if part == [] then disk else Append(disk, i, part);
        return Failed, part;
      }
      disk := if chunk == [] then disk else Append(disk, i, chunk);
      return Ok, chunk;
    }

    method Fsync(i: Inode) returns (e: Errno)
      requires i in disk.files
      modifies this`disk
      ensures e == Ok ==> disk == SyncFile(old(disk), i)
      ensures e == Failed ==> faulty && disk == old(disk)
      ensures e in {Ok, Failed}
    {
      var fails := Fails();
      if fails {
        return Failed;
      }
      disk := SyncFile(disk, i);
      return Ok;
    }

    /** syncPath: open the file or directory by name and fsync it. */
    method SyncPath(p: Path) returns (e: Errno)
      requires p in disk.cur && disk.cur[p].Link? ==> disk.cur[p].inode in disk.files
      modifies this`disk
      ensures e == Ok ==> p in old(disk).cur
      ensures e == Ok ==> disk == (if old(disk).cur[p].Link? then SyncFile(old(disk), old(disk).cur[p].inode) else SyncDir(old(disk), p))
      ensures e == NoEntry ==> p !in old(disk).cur
      ensures e == Failed ==> faulty
      ensures e in {Ok, NoEntry, Failed} && (e != Ok ==> disk == old(disk))
    {
      var fails := Fails();
      if fails {
        return Failed;
      }
      if p !in disk.cur {
        return NoEntry;
      }
      if disk.cur[p].Link? {
        disk := SyncFile(disk, disk.cur[p].inode);
      } else {
        disk := SyncDir(disk, p);
      }
      return Ok;
    }

    /** link(2): refuses a name that is taken. */
    method Link(from: Path, to: Path) returns (e: Errno)
      modifies this`disk
      ensures e == Ok ==> to !in old(disk).cur && IsDir(old(disk), Parent(to)) && from in old(disk).cur
                          && old(disk).cur[from].Link? && disk == LinkFile(old(disk), to, old(disk).cur[from].inode)
      ensures e == Exists ==> to in old(disk).cur
      ensures e == NoEntry ==> to !in old(disk).cur
      ensures e == NoEntry ==> !(IsDir(old(disk), Parent(to)) && from in old(disk).cur && old(disk).cur[from].Link?)
      ensures e == Failed ==> faulty
      ensures e in {Ok, Exists, NoEntry, Failed} && (e != Ok ==> disk == old(disk))
    {
      var fails := Fails();
      if fails {
        return Failed;
      }
      if to in disk.cur {
        return Exists;
      }
      if !IsDir(disk, Parent(to)) || from !in disk.cur || !disk.cur[from].Link? {
        return NoEntry;
      }
      disk := LinkFile(disk, to, disk.cur[from].inode);
      return Ok;
    }

    method Remove(p: Path) returns (e: Errno)
      modifies this`disk
      ensures e == Ok ==> disk == Unlink(old(disk), p)
      ensures e == Failed ==> faulty && disk == old(disk)
      ensures e in {Ok, Failed}
    {
      var fails := Fails();
      if fails {
        return Failed;
      }
      disk := Unlink(disk, p);
      return Ok;
    }

    /** Lstat or Open of a file: its inode, unless the name is absent or no regular file. */
    method Lookup(p: Path) returns (e: Errno, i: Inode)
      ensures e == Ok ==> p in disk.cur && disk.cur[p] == Node.Link(i)
      ensures e == NoEntry ==> p !in disk.cur
      ensures e == NotDirectory ==> p in disk.cur && disk.cur[p].Directory?
      ensures e == Failed ==> faulty
      ensures e in {Ok, NoEntry, NotDirectory, Failed}
    {
      i := 0;
      var fails := Fails();
      if fails {
        return Failed, i;
      }
      if p !in disk.cur {
        return NoEntry, i;
      }
      match disk.cur[p]
      case Link(j) => return Ok, j;
      case Directory => return NotDirectory, i;
    }

    /** A read at an offset: at most a buffer of what follows, nothing only at the end. */
    method ReadAt(i: Inode, offset: nat) returns (e: Errno, chunk: Bytes)
      requires i in disk.files && offset <= |disk.files[i].data|
      ensures e == Ok ==> chunk <= disk.files[i].data[offset..] && |chunk| <= BUFFER
                          && (chunk == [] <==> offset == |disk.files[i].data|)
      ensures e == Failed ==> faulty
      ensures e in {Ok, Failed}
    {
      chunk := [];
      var fails := Fails();
      if fails {
        return Failed, chunk;
      }
      var rest := disk.files[i].data[offset..];
      var n: int := *;
      chunk := if 0 < n <= |rest| && n <= BUFFER then rest[..n] else if rest == [] then [] else rest[..1];
      return Ok, chunk;
    }
  }

  ghost function TreePaths(w: World): iset<Path> {
    iset p | InTree(w, p)
  }

  predicate InTree(w: World, p: Path) {
    BlobTree(w) <= p
  }

  lemma OffTree(w: World, actions: seq<Action>, from: nat, x: string)
    requires from <= |actions|
    requires forall k :: from <= k < |actions| ==> !actions[k].Crash? && BeginsOff(actions[k], TreePaths(w))
    ensures Calm(actions, from, |actions|, InTheWay(w, x))
  {
    forall m | from <= m < |actions|
      ensures BeginsOff(actions[m], InTheWay(w, x))
    {
      assert BeginsOff(actions[m], TreePaths(w));
      assert forall p :: p in InTheWay(w, x) ==> p in TreePaths(w);
    }
  }
}
