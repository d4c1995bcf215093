/** GetToWriter and GetToFile, written as the code they are. */
module CasGets {
  import opened Octets
  import opened Wrappers
  import opened Identity
  import opened Filesystem
  import opened CasProtocol
  import opened CasInvariant
  import opened CasSteps
  import opened CasCode
  import opened CasOperations

  /** A get of this digest need not find these bytes. */
  ghost predicate Unsure(h: Host, digest: string, data: Bytes)
    reads h
  {
    digest != Digest(h.w, data) || h.Doubtful(data)
  }

  /** Other processes run, and what was certain to be found still is. */
  method YieldCertain(h: Host, ghost pid: Pid, ghost data: Bytes)
    requires h.Valid() && pid in h.Now().procs
    modifies h
    ensures h.At(pid, old(h.Now().procs[pid])) && h.Continued()
    ensures Ready(h.w, h.disk, old(h.Now().procs[pid]))
    ensures h.Doubtful(data) ==> old(h.Doubtful(data))
    ensures h.alone ==> h.disk == old(h.disk)
  {
    h.YieldKnown(pid);
    h.StillCertain(data);
  }

  // ---- get ----

  /** Opens the blob for reading: malformed digests, absent blobs and anything but a file are refused. */
  method OpenBlob(h: Host, ghost pid: Pid, digest: string, to: Option<Path>, ghost data: Bytes) returns (blob: Option<Inode>)
    requires h.At(pid, GetOpen(digest, to))
    modifies h
    ensures h.Continued()
    ensures h.At(pid, if blob == None then GetFailed
                      else if to == None then StreamCopy(digest, blob.value, [])
                      else FetchCreate(digest, to.value, blob.value))
    ensures blob == None ==> old(Unsure(h, digest, data))
    ensures h.alone ==> h.disk == old(h.disk)
  {
    YieldCertain(h, pid, data);
    blob := OpenNow(h, pid, digest, to, data);
  }

  method OpenNow(h: Host, ghost pid: Pid, digest: string, to: Option<Path>, ghost data: Bytes) returns (blob: Option<Inode>)
    requires h.At(pid, GetOpen(digest, to))
    modifies h
    ensures h.Continued() && h.disk == old(h.disk)
    ensures h.At(pid, if blob == None then GetFailed
                      else if to == None then StreamCopy(digest, blob.value, [])
                      else FetchCreate(digest, to.value, blob.value))
    ensures blob == None ==> old(Unsure(h, digest, data))
  {
    HexOfSumIsDigest(h.w.sha(data));
    OpenSteps(h.w, h.disk, digest, to);
    var valid := ValidDigest(digest);
    if !valid {
      h.Advance(pid, NO_CHOICE, GetFailed);
      return None;
    }
    var e, i := h.Lookup(BlobPath(h.w, digest));
    if e == Failed {
      h.Abort(pid, GetOpen(digest, to));
      return None;
    }
    if e != Ok {
      h.Advance(pid, NO_CHOICE, GetFailed);
      return None;
    }
    h.Advance(pid, NO_CHOICE, if to == None then StreamCopy(digest, i, []) else FetchCreate(digest, to.value, i));
    return Some(i);
  }

  lemma OpenSteps(w: World, d: Disk, digest: string, to: Option<Path>)
    ensures var blob := BlobPath(w, digest);
      Step(w, d, GetOpen(digest, to), NO_CHOICE) ==
        Turn(d, if !IsDigest(digest) || blob !in d.cur || !d.cur[blob].Link? then GetFailed
                else if to == None then StreamCopy(digest, d.cur[blob].inode, [])
                else FetchCreate(digest, to.value, d.cur[blob].inode))
  {
  }

  /** A process in its copy loop, at this offset of the blob. */
  predicate CopyingFrom(pc: Pc, blob: Inode, offset: nat) {
    || (pc.StreamCopy? && pc.blob == blob && |pc.sent| == offset)
    || (pc.FetchCopy? && pc.blob == blob && |pc.fetch.data| == offset)
  }

  /** A read of the blob at this offset returned the chunk. */
  predicate IsRead(d: Disk, blob: Inode, offset: nat, chunk: Bytes) {
    && blob in d.files && offset <= |d.files[blob].data| && chunk <= d.files[blob].data[offset..] && |chunk| <= BUFFER
    && (chunk == [] ==> offset == |d.files[blob].data|)
  }

  /** Other processes run; then one read of the blob. */
  method ReadNext(h: Host, ghost pid: Pid, ghost pc: Pc, blob: Inode, offset: nat, ghost data: Bytes)
    returns (e: Errno, chunk: Bytes)
    requires h.At(pid, pc) && CopyingFrom(pc, blob, offset)
    modifies h
    ensures h.Continued() && h.At(pid, pc)
    ensures e == Ok ==> IsRead(h.disk, blob, offset, chunk)
    ensures (e == Ok || e == Failed) && (e == Failed ==> h.faulty)
    ensures h.Doubtful(data) ==> old(h.Doubtful(data))
    ensures h.alone ==> h.disk == old(h.disk)
  {
    YieldCertain(h, pid, data);
    e, chunk := h.ReadAt(blob, offset);
  }

  // ---- GetToWriter ----

  datatype Progress = More | Done | Stopped

  /** Where the copy loop of GetToWriter is. */
  function Streaming(p: Progress, digest: string, blob: Inode, sent: Bytes): Pc {
    match p
    case More => StreamCopy(digest, blob, sent)
    case Done => Streamed(digest, sent)
    case Stopped => GetFailed
  }

  /** One turn of the copy loop. */
  method StreamChunk(h: Host, ghost pid: Pid, digest: string, blob: Inode, sent: Bytes, ghost data: Bytes)
    returns (p: Progress, all: Bytes)
    requires h.At(pid, StreamCopy(digest, blob, sent))
    modifies h
    ensures h.Continued()
    ensures h.At(pid, Streaming(p, digest, blob, all)) && sent <= all
    ensures p == More ==> |sent| < |all| <= MAX_INT64
    ensures p == Done ==> Digest(h.w, all) == digest && (old(Unsure(h, digest, data)) || |all| == |data|)
    ensures p == Stopped ==> old(Unsure(h, digest, data))
    ensures Unsure(h, digest, data) ==> old(Unsure(h, digest, data))
  {
    var e, chunk := ReadNext(h, pid, StreamCopy(digest, blob, sent), blob, |sent|, data);
    p, all := AfterStreamRead(h, pid, digest, blob, sent, e, chunk, data);
  }

  method AfterStreamRead(h: Host, ghost pid: Pid, digest: string, blob: Inode, sent: Bytes, e: Errno, chunk: Bytes, ghost data: Bytes)
    returns (p: Progress, all: Bytes)
    requires h.At(pid, StreamCopy(digest, blob, sent))
    requires (e == Failed && h.faulty) || (e == Ok && IsRead(h.disk, blob, |sent|, chunk))
    modifies h
    ensures h.Continued() && h.disk == old(h.disk)
    ensures h.At(pid, Streaming(p, digest, blob, all)) && sent <= all
    ensures p == More ==> |sent| < |all| <= MAX_INT64
    ensures p == Done ==> Digest(h.w, all) == digest && (old(Unsure(h, digest, data)) || |all| == |data|)
    ensures p == Stopped ==> old(Unsure(h, digest, data))
  {
    if e == Failed {
      h.Abort(pid, StreamCopy(digest, blob, sent));
      return Stopped, sent;
    }
    p, all := StreamRead(h, pid, digest, blob, sent, chunk, data);
  }

  /** What follows a read: at the end of the file the digest decides; before it, the caller's writer, which may fail. */
  method StreamRead(h: Host, ghost pid: Pid, digest: string, blob: Inode, sent: Bytes, chunk: Bytes, ghost data: Bytes)
    returns (p: Progress, all: Bytes)
    requires h.At(pid, StreamCopy(digest, blob, sent)) && IsRead(h.disk, blob, |sent|, chunk)
    modifies h
    ensures h.Continued() && h.disk == old(h.disk)
    ensures h.At(pid, Streaming(p, digest, blob, all)) && sent <= all
    ensures p == More ==> |sent| < |all| <= MAX_INT64
    ensures p == Done ==> Digest(h.w, all) == digest && (old(Unsure(h, digest, data)) || |all| == |data|)
    ensures p == Stopped ==> old(Unsure(h, digest, data))
  {
    h.NowKnown(pid);
    ghost var bytes := h.disk.files[blob].data;
    assert bytes == sent + bytes[|sent|..];
    if chunk == [] {
      assert sent == bytes;
      var verified := Digest(h.w, sent) == digest;
      h.Advance(pid, NO_CHOICE, if verified then Streamed(digest, sent) else GetFailed);
      return if verified then Done else Stopped, sent;
    }
    assert sent + chunk <= bytes;
    if Overflows(sent, chunk) {
      h.Advance(pid, Choice("", 0, chunk), GetFailed);
      return Stopped, sent;
    }
    var writeFails := h.Fails();
    if writeFails {
      h.Abort(pid, StreamCopy(digest, blob, sent));
      return Stopped, sent;
    }
    h.Advance(pid, Choice("", 0, chunk), StreamCopy(digest, blob, sent + chunk));
    return More, sent + chunk;
  }

  method StreamAll(h: Host, ghost pid: Pid, digest: string, blob: Inode, ghost data: Bytes) returns (ok: bool, sent: Bytes)
    requires h.At(pid, StreamCopy(digest, blob, []))
    modifies h
    ensures h.Continued()
    ensures h.At(pid, Streaming(if ok then Done else Stopped, digest, blob, sent))
    ensures ok ==> Hex(h.w.sha(sent)) == digest && (old(Unsure(h, digest, data)) || |sent| == |data|)
    ensures !ok ==> old(Unsure(h, digest, data))
  {
    ghost var unsure := Unsure(h, digest, data);
    sent := [];
    var p := More;
    while p == More
      invariant h.At(pid, Streaming(p, digest, blob, sent)) && h.Continued()
      invariant p == More ==> |sent| <= MAX_INT64
      invariant p == Done ==> Digest(h.w, sent) == digest && (unsure || |sent| == |data|)
      invariant p == Stopped ==> unsure
      invariant Unsure(h, digest, data) ==> unsure
      decreases if p == More then 1 + MAX_INT64 - |sent| else 0
    {
      p, sent := StreamChunk(h, pid, digest, blob, sent, data);
    }
    ok := p == Done;
  }

  /**
   Nil only if everything written hashes to the digest, whatever the store holds. And while no call fails, a blob
   that verifies is delivered, whatever other processes do meanwhile.
   */
  method GetToWriter(h: Host, ghost pid: Pid, digest: string, ghost data: Bytes) returns (ok: bool, sent: Bytes)
    requires h.At(pid, GetOpen(digest, None))
    modifies h
    ensures h.Continued()
    ensures h.At(pid, if ok then Streamed(digest, sent) else GetFailed)
    ensures ok ==> Hex(h.w.sha(sent)) == digest && (old(Unsure(h, digest, data)) || |sent| == |data|)
    ensures !ok ==> old(Unsure(h, digest, data))
  {
    var blob := OpenBlob(h, pid, digest, None, data);
    if blob == None {
      return false, [];
    }
    h.StillCertain(data);
    ok, sent := StreamAll(h, pid, digest, blob.value, data);
  }

  // ---- GetToFile ----

  /** The destination must not exist. */
  method StatDestination(h: Host, ghost pid: Pid, digest: string, dest: Path) returns (ok: bool)
    requires h.At(pid, GetStat(digest, dest))
    modifies h
    ensures h.Continued()
    ensures h.At(pid, if ok then GetOpen(digest, Some(dest)) else GetFailed)
    ensures h.alone ==> h.disk == old(h.disk) && (ok ==> dest !in h.disk.cur)
    ensures !ok ==> h.faulty || dest in h.disk.cur
  {
    h.Yield(pid);
    var e, i := h.Lookup(dest);
    if e == Failed {
      h.Abort(pid, GetStat(digest, dest));
      return false;
    }
    h.Advance(pid, NO_CHOICE, if e == NoEntry then GetOpen(digest, Some(dest)) else GetFailed);
    return e == NoEntry;
  }

  /** The temporary was made under a new name, and nothing else changed; or nothing changed at all. */
  predicate MadeBeside(before: map<Path, Node>, after: map<Path, Node>, fetch: Option<Fetch>) {
    match fetch
    case None => after == before
    case Some(f) => f.tmp !in before && after == before[f.tmp := Node.Link(f.inode)] && IsFetchName(f.tmp)
  }

  method CreateBeside(h: Host, ghost pid: Pid, digest: string, dest: Path, blob: Inode) returns (fetch: Option<Fetch>)
    requires h.At(pid, FetchCreate(digest, dest, blob))
    modifies h
    ensures h.Continued()
    ensures h.At(pid, if fetch.Some? then FetchCopy(fetch.value, blob) else GetFailed)
    ensures fetch.Some? ==> fetch.value.digest == digest && fetch.value.dest == dest && fetch.value.data == []
    ensures h.alone ==> MadeBeside(old(h.disk.cur), h.disk.cur, fetch)
    ensures fetch == None ==> h.faulty || !IsDir(old(h.disk), Parent(dest))
  {
    h.Yield(pid);
    if IsDir(old(h.disk), Parent(dest)) {
      h.StillDir(Parent(dest));
    }
    fetch := MakeTemp(h, pid, digest, dest, blob);
  }

  method MakeTemp(h: Host, ghost pid: Pid, digest: string, dest: Path, blob: Inode) returns (fetch: Option<Fetch>)
    requires h.At(pid, FetchCreate(digest, dest, blob))
    modifies h
    ensures h.Continued()
    ensures h.At(pid, if fetch.Some? then FetchCopy(fetch.value, blob) else GetFailed)
    ensures fetch.Some? ==> fetch.value.digest == digest && fetch.value.dest == dest && fetch.value.data == []
    ensures MadeBeside(old(h.disk.cur), h.disk.cur, fetch)
    ensures fetch == None ==> h.faulty || !IsDir(old(h.disk), Parent(dest))
  {
    var e, name, i := h.CreateTemp(Parent(dest), FETCH_PREFIX);
    if e != Ok {
      NoTemp(h, pid, digest, dest, blob, e);
      return None;
    }
    var f := Fetch(digest, dest, Parent(dest) + [FETCH_PREFIX + name], i, []);
    CreateSteps(h.w, h.Now().disk, f, name, blob);
    h.Advance(pid, Choice(name, i, []), FetchCopy(f, blob));
    return Some(f);
  }

  /** The temporary could not be created. */
  ghost method NoTemp(h: Host, pid: Pid, digest: string, dest: Path, blob: Inode, e: Errno)
    requires h.At(pid, FetchCreate(digest, dest, blob)) && (e == Failed || !IsDir(h.disk, Parent(dest)))
    modifies h`states, h`actions
    ensures h.Continued() && h.At(pid, GetFailed)
  {
    if e == Failed {
      h.Abort(pid, FetchCreate(digest, dest, blob));
    } else {
      NoDirSteps(h.w, h.disk, digest, dest, blob);
      h.Advance(pid, NO_CHOICE, GetFailed);
    }
  }

  lemma NoDirSteps(w: World, d: Disk, digest: string, dest: Path, blob: Inode)
    requires !IsDir(d, Parent(dest))
    ensures Step(w, d, FetchCreate(digest, dest, blob), NO_CHOICE) == Turn(d, GetFailed)
  {
  }

  lemma CreateSteps(w: World, d: Disk, f: Fetch, name: Name, blob: Inode)
    requires IsDir(d, Parent(f.dest)) && f.tmp == Parent(f.dest) + [FETCH_PREFIX + name] && f.data == []
    requires f.tmp !in d.cur && f.inode !in d.files
    ensures Step(w, d, FetchCreate(f.digest, f.dest, blob), Choice(name, f.inode, [])) ==
              Turn(CreateFile(d, f.tmp, f.inode), FetchCopy(f, blob))
  {
  }

  /** Where the copy loop of GetToFile is. */
  function Fetching(p: Progress, f: Fetch, blob: Inode): Pc {
    match p
    case More => FetchCopy(f, blob)
    case Done => FetchSync(f)
    case Stopped => FetchCleanup(f, false)
  }

  /** One turn of the copy loop, into the temporary. */
  method FetchChunk(h: Host, ghost pid: Pid, f: Fetch, blob: Inode, ghost data: Bytes) returns (p: Progress, g: Fetch)
    requires h.At(pid, FetchCopy(f, blob))
    modifies h
    ensures h.Continued()
    ensures h.At(pid, Fetching(p, g, blob)) && g == f.(data := g.data)
    ensures p == More ==> |f.data| < |g.data| <= MAX_INT64
    ensures h.alone ==> h.disk.cur == old(h.disk.cur)
    ensures p == Stopped || (p == Done && Digest(h.w, g.data) != g.digest) ==> old(Unsure(h, f.digest, data))
  {
    var e, chunk := ReadNext(h, pid, FetchCopy(f, blob), blob, |f.data|, data);
    p, g := AfterFetchRead(h, pid, f, blob, e, chunk, data);
  }

  method AfterFetchRead(h: Host, ghost pid: Pid, f: Fetch, blob: Inode, e: Errno, chunk: Bytes, ghost data: Bytes)
    returns (p: Progress, g: Fetch)
    requires h.At(pid, FetchCopy(f, blob))
    requires (e == Failed && h.faulty) || (e == Ok && IsRead(h.disk, blob, |f.data|, chunk))
    modifies h
    ensures h.Continued() && h.disk.cur == old(h.disk.cur)
    ensures h.At(pid, Fetching(p, g, blob)) && g == f.(data := g.data)
    ensures p == More ==> |f.data| < |g.data| <= MAX_INT64
    ensures p == Stopped || (p == Done && Digest(h.w, g.data) != g.digest) ==> old(Unsure(h, f.digest, data))
  {
    if e == Failed {
      h.Abort(pid, FetchCopy(f, blob));
      return Stopped, f;
    }
    p, g := FetchRead(h, pid, f, blob, chunk, data);
  }

  /** What follows a read: the end of the copy, or a write. */
  method FetchRead(h: Host, ghost pid: Pid, f: Fetch, blob: Inode, chunk: Bytes, ghost data: Bytes) returns (p: Progress, g: Fetch)
    requires h.At(pid, FetchCopy(f, blob)) && IsRead(h.disk, blob, |f.data|, chunk)
    modifies h
    ensures h.Continued() && h.disk.cur == old(h.disk.cur)
    ensures h.At(pid, Fetching(p, g, blob)) && g == f.(data := g.data)
    ensures p == More ==> |f.data| < |g.data| <= MAX_INT64
    ensures p == Stopped || (p == Done && Digest(h.w, g.data) != g.digest) ==> old(Unsure(h, f.digest, data))
  {
    h.NowKnown(pid);
    ghost var bytes := h.disk.files[blob].data;
    assert bytes == f.data + bytes[|f.data|..];
    if chunk == [] {
      assert f.data == bytes;
      h.Advance(pid, NO_CHOICE, FetchSync(f));
      return Done, f;
    }
    assert f.data + chunk <= bytes;
    if Overflows(f.data, chunk) {
      h.Advance(pid, Choice("", 0, chunk), FetchCleanup(f, false));
      return Stopped, f;
    }
    p, g := WriteFetched(h, pid, f, blob, chunk);
  }

  method WriteFetched(h: Host, ghost pid: Pid, f: Fetch, blob: Inode, chunk: Bytes) returns (p: Progress, g: Fetch)
    requires h.At(pid, FetchCopy(f, blob)) && Readable(chunk) && !Overflows(f.data, chunk)
    requires f.inode in h.disk.files && blob in h.disk.files && f.data + chunk <= h.disk.files[blob].data
    modifies h
    ensures h.Continued()
    ensures h.At(pid, Fetching(p, g, blob)) && p != Done && (p == Stopped ==> h.faulty)
    ensures g == if p == More then f.(data := f.data + chunk) else f
    ensures h.disk.cur == old(h.disk.cur)
  {
    var e;
    ghost var part;
    e, part := h.Write(f.inode, chunk);
    if e == Failed {
      h.Break(pid, Choice("", 0, part));
      return Stopped, f;
    }
    h.Advance(pid, Choice("", 0, chunk), FetchCopy(f.(data := f.data + chunk), blob));
    return More, f.(data := f.data + chunk);
  }

  /** The loop can always go on: every chunk makes progress towards the bound of the byte count. */
  method FetchAll(h: Host, ghost pid: Pid, empty: Fetch, blob: Inode, ghost data: Bytes) returns (f: Fetch, ok: bool)
    requires h.At(pid, FetchCopy(empty, blob)) && empty.data == []
    modifies h
    ensures h.Continued()
    ensures h.At(pid, Fetching(if ok then Done else Stopped, f, blob))
    ensures f == empty.(data := f.data)
    ensures h.alone ==> h.disk.cur == old(h.disk.cur)
    ensures !ok || Digest(h.w, f.data) != f.digest ==> old(Unsure(h, f.digest, data))
  {
    f := empty;
    var p := More;
    while p == More
      invariant h.At(pid, Fetching(p, f, blob)) && h.Continued()
      invariant f == empty.(data := f.data) && (p == More ==> |f.data| <= MAX_INT64)
      invariant h.alone ==> h.disk.cur == old(h.disk.cur)
      invariant p == Stopped || (p == Done && Digest(h.w, f.data) != f.digest) ==> old(Unsure(h, f.digest, data))
      decreases if p == More then 1 + MAX_INT64 - |f.data| else 0
    {
      h.StillCertain(data);
      p, f := FetchChunk(h, pid, f, blob, data);
    }
    ok := p == Done;
  }

  /** fsync of the temporary, then the comparison of the digests. */
  method SyncAndCheck(h: Host, ghost pid: Pid, f: Fetch) returns (ok: bool)
    requires h.At(pid, FetchSync(f))
    modifies h
    ensures h.Continued()
    ensures h.At(pid, if ok then FetchLink(f) else FetchCleanup(f, false))
    ensures ok ==> Digest(h.w, f.data) == f.digest
    ensures !ok ==> h.faulty || Digest(h.w, f.data) != f.digest
    ensures h.alone ==> h.disk.cur == old(h.disk.cur)
  {
    h.YieldKnown(pid);
    var e := h.Fsync(f.inode);
    if e == Failed {
      h.Abort(pid, FetchSync(f));
      return false;
    }
    ok := Digest(h.w, f.data) == f.digest;
    h.Advance(pid, NO_CHOICE, if ok then FetchLink(f) else FetchCleanup(f, false));
  }

  method LinkDestination(h: Host, ghost pid: Pid, f: Fetch) returns (e: Errno)
    requires h.At(pid, FetchLink(f))
    modifies h
    ensures h.Continued()
    ensures h.At(pid, if e == Ok then FetchSyncDir(f) else FetchCleanup(f, false))
    ensures h.alone ==> Appeared(old(h.disk.cur), h.disk.cur, f, e == Ok)
    ensures e != Ok ==> h.faulty || f.dest in h.disk.cur
  {
    h.YieldKnown(pid);
    assert f.tmp[..|f.tmp| - 1] == Parent(f.dest);
    FetchLinkSteps(h.w, h.disk, f);
    e := h.Link(f.tmp, f.dest);
    if e == Failed {
      h.Abort(pid, FetchLink(f));
    } else {
      h.Advance(pid, NO_CHOICE, if e == Ok then FetchSyncDir(f) else FetchCleanup(f, false));
    }
  }

  method SyncDestination(h: Host, ghost pid: Pid, f: Fetch) returns (ok: bool)
    requires h.At(pid, FetchSyncDir(f))
    modifies h
    ensures h.Continued()
    ensures h.At(pid, FetchCleanup(f, ok)) && (!ok ==> h.faulty)
    ensures h.alone ==> h.disk.cur == old(h.disk.cur)
  {
    h.YieldKnown(pid);
    assert IsDir(h.disk, Parent(f.dest));
    var e := h.SyncPath(Parent(f.dest));
    if e == Failed {
      h.Abort(pid, FetchSyncDir(f));
      return false;
    }
    h.Advance(pid, NO_CHOICE, FetchCleanup(f, true));
    return true;
  }

  method RemoveFetched(h: Host, ghost pid: Pid, f: Fetch, ghost ok: bool) returns (removed: bool)
    requires h.At(pid, FetchCleanup(f, ok))
    modifies h
    ensures h.Continued()
    ensures h.At(pid, AfterFetch(f, ok))
    ensures h.alone && removed ==> h.disk.cur == old(h.disk.cur) - {f.tmp}
    ensures !removed ==> h.faulty
  {
    h.Yield(pid);
    var e := h.Remove(f.tmp);
    if e == Failed {
      h.Abort(pid, FetchCleanup(f, ok));
      return false;
    }
    h.Advance(pid, NO_CHOICE, AfterFetch(f, ok));
    return true;
  }

  /** The destination appears, or it is someone else's. */
  method LinkAndSync(h: Host, ghost pid: Pid, f: Fetch) returns (ok: bool, linked: bool)
    requires h.At(pid, FetchLink(f))
    modifies h
    ensures h.Continued()
    ensures h.At(pid, FetchCleanup(f, ok)) && (ok ==> linked)
    ensures h.alone ==> Appeared(old(h.disk.cur), h.disk.cur, f, linked)
    ensures !ok ==> h.faulty || h.Seen(f.dest)
    ensures h.alone && !ok ==> h.faulty || f.dest in old(h.disk.cur)
  {
    var e := LinkDestination(h, pid, f);
    if e != Ok {
      assert !h.faulty ==> f.dest in h.states[|h.actions|].disk.cur;
      return false, false;
    }
    ok := SyncDestination(h, pid, f);
    return ok, true;
  }

  ghost predicate Appeared(before: map<Path, Node>, after: map<Path, Node>, f: Fetch, linked: bool) {
    if linked then f.dest !in before && after == before[f.dest := Node.Link(f.inode)] else after == before
  }

  /** Verify, link and sync the destination. `linked` also when only the last sync failed. */
  method Deliver(h: Host, ghost pid: Pid, f: Fetch) returns (ok: bool, linked: bool)
    requires h.At(pid, FetchSync(f))
    modifies h
    ensures h.Continued()
    ensures h.At(pid, FetchCleanup(f, ok)) && (ok ==> linked)
    ensures linked ==> Digest(h.w, f.data) == f.digest
    ensures h.alone ==> Appeared(old(h.disk.cur), h.disk.cur, f, linked)
    ensures !ok ==> h.faulty || Digest(h.w, f.data) != f.digest || h.Seen(f.dest)
    ensures h.alone && !ok ==> h.faulty || Digest(h.w, f.data) != f.digest || f.dest in old(h.disk.cur)
  {
    ok := SyncAndCheck(h, pid, f);
    linked := false;
    if ok {
      ok, linked := LinkAndSync(h, pid, f);
    }
  }

  /** What GetToFile leaves in the namespace: what was there, and the verified destination if it was linked. */
  ghost predicate LeavesOnly(before: map<Path, Node>, after: map<Path, Node>, dest: Path, linked: bool) {
    if linked then dest !in before && dest in after && after == before[dest := after[dest]] else after == before
  }

  /** The copy, then the delivery unless the copy stopped. */
  method CopyAndDeliver(h: Host, ghost pid: Pid, f: Fetch, blob: Inode, ghost data: Bytes) returns (g: Fetch, ok: bool, linked: bool)
    requires h.At(pid, FetchCopy(f, blob)) && f.data == []
    modifies h
    ensures h.Continued()
    ensures h.At(pid, FetchCleanup(g, ok)) && (ok ==> linked) && g == f.(data := g.data)
    ensures h.alone ==> Appeared(old(h.disk.cur), h.disk.cur, f, linked)
    ensures !ok ==> old(Unsure(h, f.digest, data)) || h.Seen(f.dest)
    ensures h.alone && !ok ==> old(Unsure(h, f.digest, data)) || f.dest in old(h.disk.cur)
  {
    g, ok := FetchAll(h, pid, f, blob, data);
    linked := false;
    if ok {
      ok, linked := Deliver(h, pid, g);
    }
  }

  method FetchTo(h: Host, ghost pid: Pid, f: Fetch, blob: Inode, ghost data: Bytes) returns (g: Fetch, ok: bool, linked: bool, removed: bool)
    requires h.At(pid, FetchCopy(f, blob)) && f.data == []
    modifies h
    ensures h.Continued()
    ensures h.At(pid, AfterFetch(g, ok)) && (ok ==> linked) && g == f.(data := g.data)
    ensures h.alone && removed && f.tmp in old(h.disk.cur) ==>
              LeavesOnly(old(h.disk.cur) - {f.tmp}, h.disk.cur, f.dest, linked)
    ensures !ok ==> old(Unsure(h, f.digest, data)) || h.Seen(f.dest)
    ensures h.alone && !ok ==> old(Unsure(h, f.digest, data)) || f.dest in old(h.disk.cur)
  {
    g, ok, linked := CopyAndDeliver(h, pid, f, blob, data);
    removed := RemoveFetched(h, pid, g, ok);
  }

  /** A destination that exists, has no directory, or is named like a temporary, which may take its place. */
  predicate DestinationTrouble(d: Disk, dest: Path) {
    dest in d.cur || !IsDir(d, Parent(dest)) || IsFetchName(dest)
  }

  lemma KnownFetched(h: Host, pid: Pid, f: Fetch)
    requires h.At(pid, Fetched(f))
    ensures Delivered(h.w, h.disk, f)
  {
    h.NowKnown(pid);
  }

  /** From the temporary's creation to its removal. */
  method FetchBeside(h: Host, ghost pid: Pid, digest: string, dest: Path, blob: Inode, ghost data: Bytes)
    returns (fetch: Option<Fetch>, ok: bool, linked: bool, removed: bool)
    requires h.At(pid, FetchCreate(digest, dest, blob))
    modifies h
    ensures h.Continued()
    ensures h.At(pid, if fetch == None then GetFailed else AfterFetch(fetch.value, ok)) && (ok ==> linked && fetch.Some?)
    ensures fetch.Some? ==> fetch.value.digest == digest && fetch.value.dest == dest
    ensures ok ==> Delivered(h.w, h.disk, fetch.value)
    ensures h.alone && removed ==> LeavesOnly(old(h.disk.cur), h.disk.cur, dest, linked)
    ensures !ok ==> old(Unsure(h, digest, data) || !IsDir(h.disk, Parent(dest))) || h.Seen(dest)
    ensures h.alone && !ok ==> old(Unsure(h, digest, data) || DestinationTrouble(h.disk, dest))
  {
    fetch := CreateBeside(h, pid, digest, dest, blob);
    if fetch == None {
      return None, false, false, true;
    }
    ghost var before := h.disk.cur;
    assert h.alone ==> before - {fetch.value.tmp} == old(h.disk.cur);
    var f;
    h.StillCertain(data);
    f, ok, linked, removed := FetchTo(h, pid, fetch.value, blob, data);
    fetch := Some(f);
    if ok {
      KnownFetched(h, pid, f);
    }
  }

  /** Refuses a destination that exists and a digest it cannot open. */
  method OpenForFile(h: Host, ghost pid: Pid, digest: string, dest: Path, ghost data: Bytes) returns (blob: Option<Inode>)
    requires h.At(pid, GetStat(digest, dest))
    modifies h
    ensures h.Continued()
    ensures h.At(pid, if blob == None then GetFailed else FetchCreate(digest, dest, blob.value))
    ensures h.alone ==> h.disk == old(h.disk) && (blob.Some? ==> dest !in h.disk.cur)
    ensures blob == None ==> old(Unsure(h, digest, data)) || h.Seen(dest)
    ensures h.alone && blob == None ==> old(Unsure(h, digest, data) || dest in h.disk.cur)
  {
    var ok := StatDestination(h, pid, digest, dest);
    if !ok {
      assert !h.faulty ==> dest in h.states[|h.actions|].disk.cur;
      return None;
    }
    h.StillCertain(data);
    blob := OpenBlob(h, pid, digest, Some(dest), data);
  }

  /**
   Nil only with the destination new, holding verified synced bytes under a synced entry. When no other process
   interferes and the temporary could be removed, the namespace is exactly what it was, plus the destination if
   it was linked, for every way the other calls fail. In any company there is an error only for a reason: a call
   failed, the store does not hold the bytes, the destination has no directory, or its name was seen taken.
   */
  method GetToFile(h: Host, ghost pid: Pid, digest: string, dest: Path, ghost data: Bytes)
    returns (ok: bool, linked: bool, removed: bool, ghost fetch: Option<Fetch>)
    requires h.At(pid, GetStat(digest, dest))
    modifies h
    ensures h.Continued()
    ensures h.At(pid, if ok && fetch.Some? then Fetched(fetch.value) else GetFailed)
    ensures ok ==> fetch.Some? && fetch.value.digest == digest && fetch.value.dest == dest
                   && Delivered(h.w, h.disk, fetch.value) && linked
    ensures ok ==> Hex(h.w.sha(h.disk.files[h.disk.cur[dest].inode].data)) == digest
    ensures h.alone && removed ==> LeavesOnly(old(h.disk.cur), h.disk.cur, dest, linked)
    ensures h.alone && dest in old(h.disk.cur) ==> !ok && h.disk == old(h.disk)
    ensures !ok ==> old(Unsure(h, digest, data) || !IsDir(h.disk, Parent(dest))) || h.Seen(dest)
    ensures h.alone && !ok ==> old(Unsure(h, digest, data) || DestinationTrouble(h.disk, dest))
  {
    ok, linked, removed, fetch := false, false, true, None;
    var blob := OpenForFile(h, pid, digest, dest, data);
    if blob == None {
      return;
    }
    h.StillCertain(data);
    if IsDir(old(h.disk), Parent(dest)) {
      h.StillDir(Parent(dest));
    }
    fetch, ok, linked, removed := FetchBeside(h, pid, digest, dest, blob.value, data);
  }

  // ---- artifact.GetToWriter: from an identity ----

  /** The digest of a well-formed identity, and the get it stands for. */
  method GetArtifact(h: Host, ghost pid: Pid, identity: string, ghost data: Bytes) returns (ok: bool, sent: Bytes)
    requires h.Valid() && pid !in h.Now().procs && StoreOpen(h.Now())
    modifies h
    ensures h.Valid() && h.Continued()
    ensures ok ==> ParsedIdentity(identity) == Some(Hex(h.w.sha(sent))) && h.At(pid, Streamed(Hex(h.w.sha(sent)), sent))
    ensures ok ==> identity == "sha256:" + Hex(h.w.sha(sent))
    ensures !ok && ParsedIdentity(identity).Some? ==> old(Unsure(h, ParsedIdentity(identity).value, data))
    ensures ParsedIdentity(identity) == None ==> !ok && h.disk == old(h.disk)
  {
    var digest := ParseIdentity(identity);
    if digest == None {
      return false, [];
    }
    h.Start(pid, GetOpen(digest.value, None));
    h.StillCertain(data);
    ok, sent := GetToWriter(h, pid, digest.value, data);
  }

  /** The same, to a file: a destination comes into being only with the bytes that the identity names. */
  method FetchArtifact(h: Host, ghost pid: Pid, identity: string, dest: Path, ghost data: Bytes) returns (ok: bool, ghost fetch: Option<Fetch>)
    requires h.Valid() && pid !in h.Now().procs && StoreOpen(h.Now()) && (h.tidy ==> !InTree(h.w, dest))
    modifies h
    ensures h.Continued()
    ensures ok ==> fetch.Some? && fetch.value.dest == dest && Delivered(h.w, h.disk, fetch.value)
                   && ParsedIdentity(identity) == Some(Hex(h.w.sha(fetch.value.data)))
                   && identity == "sha256:" + Hex(h.w.sha(h.disk.files[h.disk.cur[dest].inode].data))
    ensures !ok && ParsedIdentity(identity).Some? ==>
              old(Unsure(h, ParsedIdentity(identity).value, data) || !IsDir(h.disk, Parent(dest))) || h.Seen(dest)
    ensures h.alone && !ok && ParsedIdentity(identity).Some? ==>
              old(Unsure(h, ParsedIdentity(identity).value, data) || DestinationTrouble(h.disk, dest))
    ensures ParsedIdentity(identity) == None || (h.alone && dest in old(h.disk.cur)) ==> !ok && h.disk == old(h.disk)
  {
    var digest := ParseIdentity(identity);
    if digest == None {
      return false, None;
    }
    h.Start(pid, GetStat(digest.value, dest));
    var linked, removed;
    h.StillCertain(data);
    ok, linked, removed, fetch := GetToFile(h, pid, digest.value, dest, data);
  }

  // ---- after a put ----

  /** What a put has stored is found, whatever ran and crashed since. */
  lemma StoredIsCertain(h: Host, put: Pid, job: Job)
    requires h.Valid() && put in h.Now().procs && h.Now().procs[put].Stored? && h.Now().procs[put].job == job
    ensures h.Doubtful(job.data) ==> h.faulty
    ensures ParsedIdentity(FormatIdentity(Digest(h.w, job.data))) == Some(Digest(h.w, job.data))
  {
    h.NowKnown(put);
    HexOfSumIsDigest(h.w.sha(job.data));
    IdentityRoundTrip(FormatIdentity(Digest(h.w, job.data)), Digest(h.w, job.data));
  }

  /**
   In whatever later state, a get of what a put stored succeeds unless one of its own calls fails, and delivers
   exactly the bytes that were put, unless it has come upon others with their digest.
   */
  method GetBack(h: Host, ghost pid: Pid, ghost put: Pid, ghost job: Job, identity: string) returns (ok: bool, sent: Bytes)
    requires h.Valid() && pid !in h.Now().procs && StoreOpen(h.Now())
    requires put in h.Now().procs && h.Now().procs[put].Stored? && h.Now().procs[put].job == job
    requires identity == FormatIdentity(Digest(h.w, job.data))
    modifies h
    ensures h.Valid() && h.Continued() && (!h.faulty ==> ok)
    ensures ok && NoCollisionIn(h.w, h.Now(), job.data) ==> sent == job.data
  {
    StoredIsCertain(h, put, job);
    ok, sent := GetArtifact(h, pid, identity, job.data);
    assert ok ==> HeldBy(h.Now().procs[pid]) == Some(sent);
  }

  /** And so does a get to a file, in any company, unless its destination has no directory or was seen taken. */
  method FetchBack(h: Host, ghost pid: Pid, ghost put: Pid, ghost job: Job, identity: string, dest: Path)
    returns (ok: bool, ghost fetch: Option<Fetch>)
    requires h.Valid() && pid !in h.Now().procs && StoreOpen(h.Now()) && (h.tidy ==> !InTree(h.w, dest))
    requires put in h.Now().procs && h.Now().procs[put].Stored? && h.Now().procs[put].job == job
    requires identity == FormatIdentity(Digest(h.w, job.data))
    modifies h
    ensures h.Continued()
    ensures !ok ==> h.faulty || !old(IsDir(h.disk, Parent(dest))) || h.Seen(dest)
    ensures h.alone && !h.faulty && !old(DestinationTrouble(h.disk, dest)) ==> ok
    ensures ok && NoCollision(h.w, h.disk, job.data) ==>
              fetch.Some? && fetch.value.dest == dest && fetch.value.data == job.data && Delivered(h.w, h.disk, fetch.value)
  {
    StoredIsCertain(h, put, job);
    ok, fetch := FetchArtifact(h, pid, identity, dest, job.data);
    assert ok ==> h.disk.files[fetch.value.inode].data == fetch.value.data;
  }

  // ---- Verify, called by itself ----

  /**
   Verify: a malformed digest, a negative size, a missing blob, one of another size, or one that changes while it is
   read is refused; success means that bytes of that size were read and have that digest.
   */
  method VerifyStored(h: Host, ghost pid: Pid, digest: string, size: int, ghost data: Bytes) returns (ok: bool, ghost seen: Bytes)
    requires h.Valid() && pid !in h.Now().procs && StoreOpen(h.Now())
    modifies h
    ensures h.Continued()
    ensures ok ==> IsDigest(digest) && Hex(h.w.sha(seen)) == digest && |seen| == size
    ensures !ok ==> old(Unsure(h, digest, data)) || size != |data|
  {
    seen := [];
    var valid := ValidDigest(digest);
    HexOfSumIsDigest(h.w.sha(data));
    if !valid || size < 0 {
      return false, seen;
    }
    h.Start(pid, GetOpen(digest, None));
    h.StillCertain(data);
    ok, seen := VerifyOpened(h, pid, digest, size, data);
  }

  method VerifyOpened(h: Host, ghost pid: Pid, digest: string, size: int, ghost data: Bytes) returns (ok: bool, ghost seen: Bytes)
    requires h.At(pid, GetOpen(digest, None))
    modifies h
    ensures h.Continued()
    ensures ok ==> Digest(h.w, seen) == digest && |seen| == size
    ensures !ok ==> old(Unsure(h, digest, data)) || size != |data|
  {
    seen := [];
    ok := StatSize(h, pid, digest, size, data);
    if !ok {
      return;
    }
    h.StillCertain(data);
    var sent;
    ok, sent := GetToWriter(h, pid, digest, data);
    return ok && |sent| == size, sent;
  }

  /** The blob is a file of that size. */
  method StatSize(h: Host, ghost pid: Pid, digest: string, size: int, ghost data: Bytes) returns (ok: bool)
    requires h.At(pid, GetOpen(digest, None))
    modifies h
    ensures h.Continued() && h.At(pid, GetOpen(digest, None))
    ensures !ok ==> old(Unsure(h, digest, data)) || size != |data|
  {
    YieldCertain(h, pid, data);
    var e, i := h.Lookup(BlobPath(h.w, digest));
    if e != Ok {
      return false;
    }
    assert Linked(h.disk, BlobPath(h.w, digest), i);
    return |h.disk.files[i].data| == size;
  }
}
