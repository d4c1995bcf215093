/** What Put and Get promise across both stores, over every run. */
module ArtifactTheorems {
  import opened Octets
  import opened Wrappers
  import opened Identity
  import opened Filesystem
  import opened CasProtocol
  import opened CasInvariant
  import opened CasSteps
  import opened CasReachable
  import CasTheorems
  import opened CasProgress
  import Ledger
  import LedgerTheorems
  import EventType
  import Utf8
  import opened Artifact

  // ---- the two-store boundary ----

  /** The event names a blob of the recorded size that hashes to the recorded digest and is wholly on disk. */
  ghost predicate NamesSafeBlob(w: World, d: Disk, event: Event) {
    && event.Observed?
    && ParsedIdentity(event.identity).Some?
    && SafeBlob(w, d, ParsedIdentity(event.identity).value, event.size)
  }

  lemma ObservationNamesSafeBlob(w: World, d: Disk, job: Job, host: Bytes, path: Bytes)
    requires SafeBlob(w, d, Digest(w, job.data), |job.data|)
    ensures NamesSafeBlob(w, d, Observation(w, job, host, path))
  {
    HexOfSumIsDigest(w.sha(job.data));
    IdentityRoundTrip(FormatIdentity(Digest(w, job.data)), Digest(w, job.data));
  }

  lemma PutEventSafe(w: World, foreign: set<Inode>, s: System, pid: Pid)
    requires JointInv(w, foreign, s) && pid in s.puts && pid in s.ledger.calls
    ensures NamesSafeBlob(w, s.store.disk, s.ledger.calls[pid].event)
  {
    assert Ready(w, s.store.disk, s.store.procs[pid]);
    ObservationNamesSafeBlob(w, s.store.disk, s.store.procs[pid].job, s.puts[pid].host, s.puts[pid].path);
  }

  /**
   In every reachable state, after any crashes, deaths and failures: the event of every transaction a put has
   opened, requested or committed names a blob that is wholly on disk, and so does every row it left.
   */
  lemma EventNamesSafeBlob(w: World, states: seq<System>, actions: seq<SystemAction>, k: nat, pid: Pid)
    requires SystemRun(w, states, actions) && SystemInit(w, states[0]) && k <= |actions|
    requires pid in states[k].puts && pid in states[k].ledger.txs
    ensures var tx := states[k].ledger.txs[pid];
      tx.Aborted? || (NamesSafeBlob(w, states[k].store.disk, tx.event)
                      && states[k].puts[pid].Storing?
                      && tx.event.host == states[k].puts[pid].host && tx.event.path == states[k].puts[pid].path
                      && tx.event.host != [] && Utf8.Decode(tx.event.host).Some? && Utf8.Decode(tx.event.path).Some?)
    ensures forall n :: 0 <= n < |states[k].ledger.rows| && states[k].ledger.rows[n].call == pid ==>
              var event := states[k].ledger.rows[n].event;
              && NamesSafeBlob(w, states[k].store.disk, event)
              && event.host != [] && Utf8.Decode(event.host).Some? && Utf8.Decode(event.path).Some?
  {
    JointRunInvariant(w, states, actions, k);
    var s := states[k];
    PutEventSafe(w, states[0].store.disk.files.Keys, s, pid);
    assert Ledger.TxFits(s.ledger.calls[pid], s.ledger.txs, pid, pid in s.ledger.misled);
  }

  // ---- reported outcomes ----

  lemma StepKeepsReport(w: World, s: System, a: SystemAction, s': System, pid: Pid)
    requires SystemNext(w, s, a, s') && pid in s.puts && ReportOf(w, s, pid) != Pending
    requires Joined(w, s)
    ensures pid in s'.puts && ReportOf(w, s', pid) == ReportOf(w, s, pid)
  {
    PutSettled(w, s, a, s', pid);
    if s.puts[pid].Storing? {
      StoreSettled(w, s, a, s', pid);
      if pid in s.ledger.calls {
        LedgerSettled(s, a, s', w, pid);
      }
    }
  }

  lemma PutSettled(w: World, s: System, a: SystemAction, s': System, pid: Pid)
    requires SystemNext(w, s, a, s') && pid in s.puts
    ensures pid in s'.puts && (s'.puts[pid] == s.puts[pid] || ReadyToObserve(s, pid))
  {
  }

  lemma StoreSettled(w: World, s: System, a: SystemAction, s': System, pid: Pid)
    requires SystemNext(w, s, a, s') && pid in s.puts && pid in s.store.procs && Finished(s.store.procs[pid])
    requires !s.store.procs[pid].Fetched?
    ensures pid in s'.store.procs && s'.store.procs[pid] == s.store.procs[pid]
  {
  }

  lemma LedgerSettled(s: System, a: SystemAction, s': System, w: World, pid: Pid)
    requires SystemNext(w, s, a, s') && pid in s.ledger.calls && pid in s.puts
    requires s.ledger.calls[pid].stage.Returned? || s.ledger.calls[pid].stage.Killed?
    ensures pid in s'.ledger.calls && s'.ledger.calls[pid].stage == s.ledger.calls[pid].stage
  {
  }

  /** The put has reported, and whether the answer to its COMMIT misled it is settled. */
  ghost predicate HasReported(w: World, s: System, pid: Pid, report: Report, misled: bool) {
    pid in s.puts && ReportOf(w, s, pid) == report && report != Pending && (pid in s.ledger.misled <==> misled)
  }

  lemma ReportedStays(w: World, foreign: set<Inode>, s: System, a: SystemAction, s': System, pid: Pid, report: Report, misled: bool)
    requires JointInv(w, foreign, s) && SystemNext(w, s, a, s') && HasReported(w, s, pid, report, misled)
    ensures HasReported(w, s', pid, report, misled)
  {
    StepKeepsReport(w, s, a, s', pid);
    StepKeepsMisled(w, s, a, s', pid);
  }

  lemma ReportedStep(w: World, states: seq<System>, actions: seq<SystemAction>, m: nat, pid: Pid, report: Report, misled: bool)
    requires SystemRun(w, states, actions) && SystemInit(w, states[0]) && m < |actions|
    requires HasReported(w, states[m], pid, report, misled)
    ensures HasReported(w, states[m + 1], pid, report, misled)
  {
    JointRunInvariant(w, states, actions, m);
    ReportedStays(w, states[0].store.disk.files.Keys, states[m], actions[m], states[m + 1], pid, report, misled);
  }

  lemma {:induction false} ReportedOver(w: World, states: seq<System>, actions: seq<SystemAction>, k: nat, j: nat, pid: Pid, report: Report, misled: bool)
    requires SystemRun(w, states, actions) && SystemInit(w, states[0]) && k <= j <= |actions|
    requires HasReported(w, states[k], pid, report, misled)
    ensures HasReported(w, states[j], pid, report, misled)
    decreases j - k
  {
    if k < j {
      ReportedStep(w, states, actions, k, pid, report, misled);
      ReportedOver(w, states, actions, k + 1, j, pid, report, misled);
    }
  }

  lemma ReportStays(w: World, states: seq<System>, actions: seq<SystemAction>, k: nat, j: nat, pid: Pid)
    requires SystemRun(w, states, actions) && SystemInit(w, states[0]) && k <= j <= |actions|
    requires pid in states[k].puts && ReportOf(w, states[k], pid) != Pending
    ensures HasReported(w, states[j], pid, ReportOf(w, states[k], pid), pid in states[k].ledger.misled)
  {
    ReportedOver(w, states, actions, k, j, pid, ReportOf(w, states[k], pid), pid in states[k].ledger.misled);
  }

  /** The bytes a report vouches for are wholly on disk. */
  ghost predicate StoredSafely(w: World, d: Disk, identity: string, size: nat) {
    ParsedIdentity(identity).Some? && SafeBlob(w, d, ParsedIdentity(identity).value, size)
  }

  ghost predicate HasObservationRow(s: System, pid: Pid, identity: string, size: nat) {
    exists n :: 0 <= n < |s.ledger.rows| && IsObservation(s.ledger.rows[n], s, pid, identity, size)
  }

  predicate IsObservation(row: Ledger.Row<Event>, s: System, pid: Pid, identity: string, size: nat) {
    && row.call == pid && pid in s.puts && s.puts[pid].Storing?
    && row.event == Observed(identity, size, s.puts[pid].host, s.puts[pid].path)
  }

  /** What a report says, and the ledger and the disk hold. A misled put's answer hid the end of the session. */
  ghost predicate ReportHolds(w: World, s: System, pid: Pid, report: Report, misled: bool) {
    var rows := LedgerTheorems.RowsOf(s.ledger, pid);
    match report
    case Receipt(identity, size) =>
      StoredSafely(w, s.store.disk, identity, size) && !misled && rows == 1 && HasObservationRow(s, pid, identity, size)
    case PutError(identity, size, outcome) =>
      StoredSafely(w, s.store.disk, identity, size) && rows <= 1 && (misled || outcome != "not_committed" || rows == 0)
    case PlainError => rows == 0
    case _ => rows <= 1
  }

  lemma ReportSoundAt(w: World, foreign: set<Inode>, s: System, pid: Pid)
    requires JointInv(w, foreign, s) && pid in s.puts
    ensures ReportHolds(w, s, pid, ReportOf(w, s, pid), pid in s.ledger.misled)
    ensures LedgerTheorems.RowsOf(s.ledger, pid) <= 1
  {
    if pid in s.ledger.calls {
      PutEventSafe(w, foreign, s, pid);
      LedgerTheorems.OutcomeMeansRows(s.ledger, pid);
    } else {
      LedgerTheorems.NoRows(s.ledger.rows, pid);
    }
  }

  lemma StepKeepsMisled(w: World, s: System, a: SystemAction, s': System, pid: Pid)
    requires SystemNext(w, s, a, s') && pid in s.puts && ReportOf(w, s, pid) != Pending && Joined(w, s)
    requires Ledger.Inv(s.ledger)
    ensures pid in s'.ledger.misled <==> pid in s.ledger.misled
  {
    assert pid in s.ledger.calls ==> s.ledger.calls[pid].stage.Returned? || s.ledger.calls[pid].stage.Killed?;
  }

  /**
   What Put reported stays true for ever. A receipt: exactly one row, this put's observation. not_committed: no
   row, unless the wording of the answer to its COMMIT hid the end of the session. unknown: at most one. A plain
   error: no row. And whenever Put says artifact_stored, the bytes are wholly on disk.
   */
  lemma PutSound(w: World, states: seq<System>, actions: seq<SystemAction>, k: nat, j: nat, pid: Pid)
    requires SystemRun(w, states, actions) && SystemInit(w, states[0]) && k <= j <= |actions|
    requires pid in states[k].puts && ReportOf(w, states[k], pid) != Pending
    ensures ReportHolds(w, states[j], pid, ReportOf(w, states[k], pid), pid in states[k].ledger.misled)
  {
    ReportStays(w, states, actions, k, j, pid);
    JointRunInvariant(w, states, actions, j);
    ReportSoundAt(w, states[0].store.disk.files.Keys, states[j], pid);
  }

  /**
   The report of a put that has stored its blob is its ledger call's outcome, and none of the puts that failed a check
   of the client: not_committed exactly for a confirmed non-commit, unknown exactly for an unknown outcome.
   */
  lemma ReportIff(w: World, states: seq<System>, actions: seq<SystemAction>, k: nat, pid: Pid)
    requires SystemRun(w, states, actions) && SystemInit(w, states[0]) && k <= |actions| && pid in states[k].puts
    ensures SaysStage(ReportOf(w, states[k], pid), states[k].ledger, pid)
    ensures var report := ReportOf(w, states[k], pid);
      report.Receipt? || report.PutError? ==>
        && pid in states[k].store.procs && states[k].store.procs[pid].Stored?
        && var data := states[k].store.procs[pid].job.data;
           report.identity == "sha256:" + Hex(w.sha(data)) && report.size == |data|
    ensures forall q :: q in UnknownPuts(w, states[k]) <==>
              q in states[k].puts && q in states[k].ledger.calls
              && states[k].ledger.calls[q].stage == Ledger.Returned(Ledger.Unknown)
  {
    JointRunInvariant(w, states, actions, k);
    StageSaid(w, states[k], pid);
    if ReportOf(w, states[k], pid).Receipt? || ReportOf(w, states[k], pid).PutError? {
      IdentitySaid(w, states[k], pid);
    }
    UnknownSaid(w, states[k]);
  }

  lemma IdentitySaid(w: World, s: System, pid: Pid)
    requires Joined(w, s) && pid in s.puts && (ReportOf(w, s, pid).Receipt? || ReportOf(w, s, pid).PutError?)
    ensures pid in s.store.procs && s.store.procs[pid].Stored?
    ensures var data := s.store.procs[pid].job.data;
      ReportOf(w, s, pid).identity == "sha256:" + Hex(w.sha(data)) && ReportOf(w, s, pid).size == |data|
  {
  }

  lemma UnknownSaid(w: World, s: System)
    requires Joined(w, s)
    ensures forall q :: q in UnknownPuts(w, s) <==>
              q in s.puts && q in s.ledger.calls && s.ledger.calls[q].stage == Ledger.Returned(Ledger.Unknown)
  {
    forall q | q in s.puts
      ensures SaysStage(ReportOf(w, s, q), s.ledger, q)
    {
      StageSaid(w, s, q);
    }
  }

  /** A report of an append says what the client has made of it; what has not returned is not reported. */
  predicate SaysStage(report: Report, s: LedgerState, pid: Pid) {
    && (report.PutError? && report.outcome == "not_committed" <==>
          pid in s.calls && s.calls[pid].stage == Ledger.Returned(Ledger.NotCommitted))
    && (report.PutError? && report.outcome == "unknown" <==>
          pid in s.calls && s.calls[pid].stage == Ledger.Returned(Ledger.Unknown))
    && (report.Receipt? <==> pid in s.calls && s.calls[pid].stage == Ledger.Returned(Ledger.Succeeded))
    && (report.PutError? ==> report.outcome == "not_committed" || report.outcome == "unknown")
  }

  lemma StageSaid(w: World, s: System, pid: Pid)
    requires Joined(w, s) && pid in s.puts
    ensures SaysStage(ReportOf(w, s, pid), s.ledger, pid)
  {
  }

  /** Puts by what they reported; `Open` ones are still running or were killed. */
  function Receipts(w: World, s: System): set<Pid> {
    set pid | pid in s.puts && ReportOf(w, s, pid).Receipt?
  }

  function UnknownPuts(w: World, s: System): set<Pid> {
    set pid | pid in s.puts && ReportOf(w, s, pid).PutError? && ReportOf(w, s, pid).outcome == "unknown"
  }

  function OpenPuts(w: World, s: System): set<Pid> {
    set pid | pid in s.puts && (ReportOf(w, s, pid).Pending? || ReportOf(w, s, pid).NoReport?)
  }

  function PutRows(s: System): set<Pid> {
    set pid | pid in s.puts && LedgerTheorems.RowsOf(s.ledger, pid) > 0
  }

  function MisledPuts(s: System): set<Pid> {
    set pid | pid in s.puts && pid in s.ledger.misled
  }

  lemma RowsOfPut(w: World, foreign: set<Inode>, s: System, pid: Pid)
    requires JointInv(w, foreign, s) && pid in s.puts
    ensures var r := ReportOf(w, s, pid); var rows := LedgerTheorems.RowsOf(s.ledger, pid);
      && rows <= 1
      && (r.Receipt? ==> rows == 1)
      && (pid !in s.ledger.misled ==>
            && (rows == 1 ==> r.Receipt? || (r.PutError? && r.outcome == "unknown") || r.Pending? || r.NoReport?))
  {
    ReportSoundAt(w, foreign, s, pid);
  }

  /**
   Over the puts of any run: receipts <= observation rows <= receipts + unknowns + puts running or killed, and to these
   come the puts that were told of a non-commit by an answer that hid the end of the session.
   */
  lemma PutConservation(w: World, states: seq<System>, actions: seq<SystemAction>, k: nat)
    requires SystemRun(w, states, actions) && SystemInit(w, states[0]) && k <= |actions|
    ensures var s := states[k];
      |Receipts(w, s)| <= |PutRows(s)| <= |Receipts(w, s)| + |UnknownPuts(w, s)| + |OpenPuts(w, s)| + |MisledPuts(s)|
    ensures forall pid :: pid in PutRows(states[k]) ==> LedgerTheorems.RowsOf(states[k].ledger, pid) == 1
  {
    var s := states[k];
    JointRunInvariant(w, states, actions, k);
    forall pid | pid in s.puts
      ensures pid in Receipts(w, s) ==> pid in PutRows(s)
      ensures pid in PutRows(s) ==> pid in Receipts(w, s) + UnknownPuts(w, s) + OpenPuts(w, s) + MisledPuts(s)
      ensures LedgerTheorems.RowsOf(s.ledger, pid) <= 1
    {
      RowsOfPut(w, states[0].store.disk.files.Keys, s, pid);
    }
    LedgerTheorems.CardinalityMonotone(Receipts(w, s), PutRows(s));
    LedgerTheorems.CardinalityMonotone(PutRows(s), Receipts(w, s) + UnknownPuts(w, s) + OpenPuts(w, s) + MisledPuts(s));
  }

  // ---- a server that words its answers plainly ----

  /** Every answer in the run is worded by its level, and no Python client gets a ROLLBACK tag. */
  ghost predicate SystemWellWorded(states: seq<System>, actions: seq<SystemAction>)
    requires |states| == |actions| + 1
  {
    forall k :: 0 <= k < |actions| && actions[k].LedgerAction? && actions[k].event.Answered? ==>
      LedgerTheorems.ReadableBy(states[k].ledger, actions[k].event.id, actions[k].event.answer)
  }

  lemma {:induction false} NoPutMisled(w: World, states: seq<System>, actions: seq<SystemAction>, k: nat)
    requires SystemRun(w, states, actions) && SystemInit(w, states[0]) && k <= |actions|
    requires SystemWellWorded(states, actions)
    ensures states[k].ledger.misled == {}
  {
    if k > 0 {
      NoPutMisled(w, states, actions, k - 1);
      LedgerProjection(w, states[k - 1], actions[k - 1], states[k]);
    }
  }

  lemma LedgerProjection(w: World, s: System, a: SystemAction, s': System)
    requires SystemNext(w, s, a, s') && s.ledger.misled == {}
    requires a.LedgerAction? && a.event.Answered? ==> LedgerTheorems.ReadableBy(s.ledger, a.event.id, a.event.answer)
    ensures s'.ledger.misled == {}
  {
  }

  /**
   What the source promises of Put, of such a server: a receipt means exactly one row, not_committed and a plain error
   none, for ever, and receipts <= rows <= receipts + unknowns + puts running or killed.
   */
  lemma PutPromisesKept(w: World, states: seq<System>, actions: seq<SystemAction>, k: nat, j: nat, pid: Pid)
    requires SystemRun(w, states, actions) && SystemInit(w, states[0]) && k <= j <= |actions|
    requires SystemWellWorded(states, actions)
    ensures pid in states[k].puts && ReportOf(w, states[k], pid) != Pending ==>
              ReportHolds(w, states[j], pid, ReportOf(w, states[k], pid), false)
    ensures var s := states[j];
      |Receipts(w, s)| <= |PutRows(s)| <= |Receipts(w, s)| + |UnknownPuts(w, s)| + |OpenPuts(w, s)|
  {
    NoPutMisled(w, states, actions, k);
    NoPutMisled(w, states, actions, j);
    if pid in states[k].puts && ReportOf(w, states[k], pid) != Pending {
      PutSound(w, states, actions, k, j, pid);
    }
    PutConservation(w, states, actions, j);
    assert MisledPuts(states[j]) == {};
  }

  // ---- corrupt blobs ----

  /** Between crashes, a system run's store runs as the store machine does: names under sha256 stay. */
  lemma {:induction false} BlobStaysOver(w: World, states: seq<System>, actions: seq<SystemAction>, k: nat, j: nat, x: string)
    requires SystemRun(w, states, actions) && SystemInit(w, states[0]) && k <= j <= |actions| && NoSystemCrash(actions, k, j)
    requires IsDigest(x) && HasBlob(w, states[k].store.disk, x)
    ensures HasBlob(w, states[j].store.disk, x) && BlobData(w, states[j].store.disk, x) == BlobData(w, states[k].store.disk, x)
  {
    if k < j {
      BlobStaysOver(w, states, actions, k, j - 1, x);
      JointRunInvariant(w, states, actions, j - 1);
      StoreKeepsBlob(w, states[0].store.disk.files.Keys, states[j - 1], actions[j - 1], states[j], x);
    }
  }

  ghost predicate NoSystemCrash(actions: seq<SystemAction>, k: nat, j: nat)
    requires k <= j <= |actions|
  {
    forall m :: k <= m < j ==> !actions[m].SystemCrash?
  }

  /** The action that a system action takes in the store, if any. */
  function InStore(s: System, a: SystemAction): Option<CasProtocol.Action> {
    match a
    case BeginPut(pid, host, path, want) => if Recordable(host, path) then Some(Begin(pid, Create(Some(want)))) else None
    case StoreAction(b) => Some(b)
    case SystemCrash(d') => Some(Crash(d'))
    case _ => None
  }

  lemma StoreProjection(w: World, s: System, a: SystemAction, s': System)
    requires SystemNext(w, s, a, s')
    ensures if InStore(s, a) == None then s'.store == s.store
            else CasProtocol.Next(w, s.store, InStore(s, a).value, s'.store)
    ensures a.SystemCrash? <==> InStore(s, a).Some? && InStore(s, a).value.Crash?
  {
  }

  lemma StoreKeepsBlob(w: World, foreign: set<Inode>, s: System, a: SystemAction, s': System, x: string)
    requires JointInv(w, foreign, s) && SystemNext(w, s, a, s') && !a.SystemCrash?
    requires IsDigest(x) && HasBlob(w, s.store.disk, x)
    ensures HasBlob(w, s'.store.disk, x) && BlobData(w, s'.store.disk, x) == BlobData(w, s.store.disk, x)
  {
    StoreProjection(w, s, a, s');
    if InStore(s, a).Some? {
      CasTheorems.BlobNotFetchName(w, x);
      CasTheorems.PublishedUnchanged(w, foreign, s.store, InStore(s, a).value, s'.store, BlobPath(w, x));
    }
  }

  /**
   While what is stored at a digest is corrupt or of another size, there is no call and no row of any put, of
   whatever time, whose event names that digest with that size: a put onto it appends no event.
   */
  lemma CorruptBlobHasNoEvent(w: World, states: seq<System>, actions: seq<SystemAction>, k: nat, j: nat, data: Bytes, pid: Pid)
    requires SystemRun(w, states, actions) && SystemInit(w, states[0]) && k <= j <= |actions| && NoSystemCrash(actions, k, j)
    requires HasBlob(w, states[k].store.disk, Digest(w, data)) && !GoodBlob(w, states[k].store.disk, Digest(w, data), |data|)
    requires pid in states[j].puts
    ensures pid in states[j].ledger.calls ==> !Names(w, states[j].ledger.calls[pid].event, data)
    ensures forall n :: 0 <= n < |states[j].ledger.rows| && states[j].ledger.rows[n].call == pid ==>
              !Names(w, states[j].ledger.rows[n].event, data)
  {
    HexOfSumIsDigest(w.sha(data));
    BlobStaysOver(w, states, actions, k, j, Digest(w, data));
    IdentityRoundTrip(FormatIdentity(Digest(w, data)), Digest(w, data));
    JointRunInvariant(w, states, actions, j);
    if pid in states[j].ledger.calls {
      PutEventSafe(w, states[0].store.disk.files.Keys, states[j], pid);
      assert Ledger.TxFits(states[j].ledger.calls[pid], states[j].ledger.txs, pid, pid in states[j].ledger.misled);
    }
  }

  predicate Names(w: World, event: Event, data: Bytes) {
    event.Observed? && event.identity == FormatIdentity(Digest(w, data)) && event.size == |data|
  }

  // ---- round trip ----

  /** The bytes a put stored, once it has its receipt. */
  ghost predicate Receipted(w: World, s: System, pid: Pid, b: Bytes, report: Report) {
    && pid in s.puts && ReportOf(w, s, pid) == report && report.Receipt?
    && pid in s.store.procs && s.store.procs[pid].Stored? && s.store.procs[pid].job.data == b
  }

  lemma ReceiptParses(w: World, s: System, pid: Pid, b: Bytes, report: Report)
    requires Receipted(w, s, pid, b, report)
    ensures ParsedIdentity(report.identity) == Some(Digest(w, b)) && report.size == |b|
  {
    HexOfSumIsDigest(w.sha(b));
    IdentityRoundTrip(FormatIdentity(Digest(w, b)), Digest(w, b));
  }

  /** What a get that returned nil has delivered. */
  ghost predicate DeliveredBy(d: Disk, pc: Pc, digest: string, b: Bytes) {
    match pc
    case Streamed(x, sent) => x == digest ==> sent == b
    case Fetched(f) => f.digest == digest ==>
      f.dest in d.cur && d.cur[f.dest] == Link(f.inode) && f.inode in d.files && d.files[f.inode].data == b
    case _ => true
  }

  lemma GetDelivers(w: World, s: CasProtocol.State, get: Pid, b: Bytes)
    requires get in s.procs && Ready(w, s.disk, s.procs[get]) && NoCollisionIn(w, s, b)
    ensures DeliveredBy(s.disk, s.procs[get], Digest(w, b), b)
  {
    match s.procs[get]
    case Streamed(x, sent) => assert HeldBy(s.procs[get]) == Some(sent);
    case Fetched(f) => assert HeldBy(s.procs[get]) == Some(f.data);
    case _ =>
  }

  lemma ReceiptHolds(w: World, states: seq<System>, actions: seq<SystemAction>, k: nat, j: nat, pid: Pid, b: Bytes, report: Report)
    requires SystemRun(w, states, actions) && SystemInit(w, states[0]) && k <= j <= |actions|
    requires Receipted(w, states[k], pid, b, report)
    ensures StoredSafely(w, states[j].store.disk, report.identity, |b|)
  {
    PutSound(w, states, actions, k, j, pid);
  }

  /** What has a receipt is in the store, and under the identity that the receipt names. */
  lemma ReceiptInStore(w: World, states: seq<System>, actions: seq<SystemAction>, k: nat, j: nat, pid: Pid, b: Bytes, report: Report)
    requires SystemRun(w, states, actions) && SystemInit(w, states[0]) && k <= j <= |actions|
    requires Receipted(w, states[k], pid, b, report) && NoCollision(w, states[j].store.disk, b)
    ensures ParsedIdentity(report.identity) == Some(Digest(w, b)) && Holds(w, states[j].store.disk, b)
  {
    ReceiptParses(w, states[k], pid, b, report);
    ReceiptHolds(w, states, actions, k, j, pid, b, report);
    assert SameIfSameDigest(w, BlobData(w, states[j].store.disk, Digest(w, b)), b);
  }

  /**
   After a put of bytes b returned its receipt, in every later state, whatever ran and crashed in between: the
   store holds exactly b under the receipt's identity, and every get of that identity that returned nil has
   delivered exactly b, no file or process holding other bytes with b's digest. PutThenGet and PutThenFetch say that
   such gets succeed.
   */
  lemma RoundTrip(w: World, states: seq<System>, actions: seq<SystemAction>, k: nat, j: nat, pid: Pid, b: Bytes, report: Report, get: Pid)
    requires SystemRun(w, states, actions) && SystemInit(w, states[0]) && k <= j <= |actions|
    requires Receipted(w, states[k], pid, b, report) && NoCollisionIn(w, states[j].store, b)
    ensures ParsedIdentity(report.identity) == Some(Digest(w, b)) && Holds(w, states[j].store.disk, b)
    ensures get in states[j].store.procs ==> DeliveredBy(states[j].store.disk, states[j].store.procs[get], Digest(w, b), b)
  {
    ReceiptInStore(w, states, actions, k, j, pid, b, report);
    if get in states[j].store.procs {
      JointRunInvariant(w, states, actions, j);
      GetDelivers(w, states[j].store, get, b);
    }
  }

  // ---- a get after a receipt succeeds ----

  /** No crash, and no call of this process fails and it does not die. */
  ghost predicate UndisturbedGet(actions: seq<SystemAction>, k: nat, j: nat, pid: Pid)
    requires k <= j <= |actions|
  {
    forall m :: k <= m < j ==> !actions[m].SystemCrash? && !Disturbs(actions[m], pid)
  }

  predicate Disturbs(a: SystemAction, pid: Pid) {
    a.StoreAction? && (a.action.Break? || a.action.Kill?) && a.action.pid == pid
  }

  lemma ReadingStays(w: World, foreign: set<Inode>, s: System, a: SystemAction, s': System, get: Pid, b: Bytes)
    requires JointInv(w, foreign, s) && SystemNext(w, s, a, s') && !a.SystemCrash? && !Disturbs(a, get)
    requires Reads(w, s.store, get, b)
    ensures Reads(w, s'.store, get, b)
  {
    StoreProjection(w, s, a, s');
    if InStore(s, a).Some? {
      ActionOnRead(w, foreign, s.store, InStore(s, a).value, s'.store, get, b);
    }
  }

  lemma ReadingStep(w: World, states: seq<System>, actions: seq<SystemAction>, m: nat, get: Pid, b: Bytes)
    requires SystemRun(w, states, actions) && SystemInit(w, states[0]) && m < |actions|
    requires !actions[m].SystemCrash? && !Disturbs(actions[m], get) && Reads(w, states[m].store, get, b)
    ensures Reads(w, states[m + 1].store, get, b)
  {
    JointRunInvariant(w, states, actions, m);
    ReadingStays(w, states[0].store.disk.files.Keys, states[m], actions[m], states[m + 1], get, b);
  }

  lemma {:induction false} ReadingOver(w: World, states: seq<System>, actions: seq<SystemAction>, k: nat, j: nat, get: Pid, b: Bytes)
    requires SystemRun(w, states, actions) && SystemInit(w, states[0]) && k <= j <= |actions|
    requires UndisturbedGet(actions, k, j, get) && Reads(w, states[k].store, get, b)
    ensures Reads(w, states[j].store, get, b)
    decreases j - k
  {
    if k < j {
      assert !actions[k].SystemCrash? && !Disturbs(actions[k], get);
      ReadingStep(w, states, actions, k, get, b);
      ReadingOver(w, states, actions, k + 1, j, get, b);
    }
  }

  /** A receipt names bytes whose number an int64 can hold. */
  lemma ReceiptBounded(w: World, states: seq<System>, actions: seq<SystemAction>, k: nat, pid: Pid, b: Bytes, report: Report)
    requires SystemRun(w, states, actions) && SystemInit(w, states[0]) && k <= |actions|
    requires Receipted(w, states[k], pid, b, report)
    ensures |b| <= MAX_INT64
  {
    JointRunInvariant(w, states, actions, k);
    assert Ready(w, states[k].store.disk, states[k].store.procs[pid]);
  }

  /**
   End to end: after a put of bytes b returned its receipt, whatever ran and crashed since, a GetToWriter of the
   receipt's identity whose own calls do not fail, and that no crash interrupts, delivers exactly b once it has
   finished, and can end in no other way; no file holding other bytes with b's digest when the get begins.
   */
  lemma PutThenGet(w: World, states: seq<System>, actions: seq<SystemAction>, k: nat, m: nat, j: nat, pid: Pid, b: Bytes, report: Report, get: Pid)
    requires SystemRun(w, states, actions) && SystemInit(w, states[0]) && k <= m <= j <= |actions|
    requires Receipted(w, states[k], pid, b, report) && NoCollision(w, states[m].store.disk, b)
    requires UndisturbedGet(actions, m, j, get)
    requires ParsedIdentity(report.identity).Some? && get in states[m].store.procs
    requires states[m].store.procs[get] == GetOpen(ParsedIdentity(report.identity).value, None)
    ensures get in states[j].store.procs
    ensures Finished(states[j].store.procs[get]) ==>
              states[j].store.procs[get] == Streamed(ParsedIdentity(report.identity).value, b)
  {
    ReceiptInStore(w, states, actions, k, m, pid, b, report);
    ReceiptBounded(w, states, actions, k, pid, b, report);
    ReadingOver(w, states, actions, m, j, get, b);
    FinishedOnRead(w, states[j].store.procs[get], b);
  }

  // ---- and so does a get to a file ----

  /** One action of the composed machine lets nobody but the get itself make the destination. */
  predicate GetMakes(s: System, a: SystemAction, s': System, get: Pid, dest: Path) {
    dest !in s.store.disk.cur && dest in s'.store.disk.cur ==> a.StoreAction? && a.action.Run? && a.action.pid == get
  }

  ghost predicate GetStaysFree(states: seq<System>, actions: seq<SystemAction>, k: nat, j: nat, get: Pid, dest: Path)
    requires k <= j <= |actions| < |states|
  {
    forall m :: k <= m < j ==> GetMakes(states[m], actions[m], states[m + 1], get, dest)
  }

  lemma FetchingStays(w: World, foreign: set<Inode>, s: System, a: SystemAction, s': System, get: Pid, dest: Path, b: Bytes)
    requires JointInv(w, foreign, s) && SystemNext(w, s, a, s') && !a.SystemCrash? && !Disturbs(a, get)
    requires Fetches(w, s.store, get, dest, b) && GetMakes(s, a, s', get, dest)
    ensures Fetches(w, s'.store, get, dest, b)
  {
    StoreProjection(w, s, a, s');
    if InStore(s, a).Some? {
      ActionOnFetch(w, foreign, s.store, InStore(s, a).value, s'.store, get, dest, b);
    }
  }

  lemma FetchingStep(w: World, states: seq<System>, actions: seq<SystemAction>, m: nat, get: Pid, dest: Path, b: Bytes)
    requires SystemRun(w, states, actions) && SystemInit(w, states[0]) && m < |actions|
    requires !actions[m].SystemCrash? && !Disturbs(actions[m], get) && GetMakes(states[m], actions[m], states[m + 1], get, dest)
    requires Fetches(w, states[m].store, get, dest, b)
    ensures Fetches(w, states[m + 1].store, get, dest, b)
  {
    JointRunInvariant(w, states, actions, m);
    FetchingStays(w, states[0].store.disk.files.Keys, states[m], actions[m], states[m + 1], get, dest, b);
  }

  lemma {:induction false} FetchingOver(w: World, states: seq<System>, actions: seq<SystemAction>, k: nat, j: nat, get: Pid, dest: Path, b: Bytes)
    requires SystemRun(w, states, actions) && SystemInit(w, states[0]) && k <= j <= |actions|
    requires UndisturbedGet(actions, k, j, get) && GetStaysFree(states, actions, k, j, get, dest)
    requires Fetches(w, states[k].store, get, dest, b)
    ensures Fetches(w, states[j].store, get, dest, b)
    decreases j - k
  {
    if k < j {
      assert GetMakes(states[k], actions[k], states[k + 1], get, dest);
      FetchingStep(w, states, actions, k, get, dest, b);
      FetchingOver(w, states, actions, k + 1, j, get, dest, b);
    }
  }

  /**
   End to end, to a file: after a receipt for bytes b, whatever ran and crashed since, a GetToFile of its identity whose
   own calls do not fail and that no crash interrupts, to a destination with a directory and a name that is free and
   that nobody else takes, ends, if it ends, with the destination delivered and holding exactly b.
   */
  lemma PutThenFetch(w: World, states: seq<System>, actions: seq<SystemAction>, k: nat, m: nat, j: nat, pid: Pid, b: Bytes, report: Report, get: Pid, dest: Path)
    requires SystemRun(w, states, actions) && SystemInit(w, states[0]) && k <= m <= j <= |actions|
    requires Receipted(w, states[k], pid, b, report) && NoCollision(w, states[m].store.disk, b)
    requires UndisturbedGet(actions, m, j, get) && GetStaysFree(states, actions, m, j, get, dest)
    requires ParsedIdentity(report.identity).Some? && get in states[m].store.procs
    requires states[m].store.procs[get] == GetStat(ParsedIdentity(report.identity).value, dest)
    requires dest !in states[m].store.disk.cur && IsDir(states[m].store.disk, Parent(dest)) && !IsFetchName(dest)
    ensures get in states[j].store.procs
    ensures var pc := states[j].store.procs[get];
      Finished(pc) ==> pc.Fetched? && pc.fetch.dest == dest && pc.fetch.data == b && Delivered(w, states[j].store.disk, pc.fetch)
  {
    ReceiptInStore(w, states, actions, k, m, pid, b, report);
    ReceiptBounded(w, states, actions, k, pid, b, report);
    FetchingOver(w, states, actions, m, j, get, dest, b);
    JointRunInvariant(w, states, actions, j);
    FinishedOnFetch(w, states[j].store.disk, states[j].store.procs[get], dest, b);
  }
}
