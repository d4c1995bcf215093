/**
 artifact.Put, written as the code it is. A Joint is a machine's store and its ledger together with the run of the
 composed machine so far (ghost): each call that Put makes, and whatever other processes and clients do meanwhile,
 extends that run, so what holds of all runs of the composed machine holds of this code.
 */
module PutCode {
  import opened Octets
  import opened Wrappers
  import opened Identity
  import opened Filesystem
  import opened FreshNames
  import opened CasProtocol
  import opened CasInvariant
  import opened CasCode
  import CasOperations
  import CasGets
  import Ledger
  import LedgerTheorems
  import LedgerCode
  import Utf8
  import opened Artifact
  import opened ArtifactTheorems

  /** What the code reports of an append, from its own two results. */
  function Reported(event: Event, outcome: Ledger.Outcome): Report
    requires event.Observed?
  {
    if outcome == Ledger.Succeeded then Receipt(event.identity, event.size)
    else PutError(event.identity, event.size, OutcomeText(outcome))
  }

  /**
   The report names the event's artifact, and the ledger holds what it says: for a receipt that one row, for unknown at
   most that, and for not_committed none, unless the wording of the answer to its COMMIT hid the end of the session.
   */
  ghost predicate Honest(s: LedgerState, pid: Pid, event: Event, report: Report)
    requires event.Observed?
  {
    match report
    case Receipt(identity, size) =>
      Observed(identity, size, event.host, event.path) == event
      && LedgerTheorems.RowsOf(s, pid) == 1 && LedgerTheorems.HasEventRow(s, pid, event)
    case PutError(identity, size, outcome) =>
      Observed(identity, size, event.host, event.path) == event && outcome in {"not_committed", "unknown"}
      && LedgerTheorems.RowsOf(s, pid) <= 1
      && (pid in s.misled || outcome != "not_committed" || LedgerTheorems.RowsOf(s, pid) == 0)
    case _ => false
  }

  // ---- the run of both ----

  class Joint {
    const h: Host
    const l: LedgerCode.Server
    ghost var puts: map<Pid, PutCall>
    ghost var states: seq<System>
    ghost var actions: seq<SystemAction>

    constructor (h: Host, l: LedgerCode.Server)
      requires h.Valid() && l.Valid() && h.actions == [] && l.actions == []
      ensures Valid() && this.h == h && this.l == l && puts == map[]
    {
      this.h, this.l := h, l;
      puts, states, actions := map[], [System(h.Now(), l.state, map[])], [];
    }

    ghost predicate Valid()
      reads this, h, l
    {
      h.Valid() && l.Valid() && RunTo(Now()) && Local()
    }

    /** Puts have ids that no other client of the ledger uses. */
    ghost predicate Local()
      reads this
    {
      forall pid :: pid in puts ==> pid in l.local
    }

    ghost function Now(): System
      reads this, h, l
      requires |h.states| == |h.actions| + 1
    {
      System(h.Now(), l.state, puts)
    }

    /** The run so far ends in s. */
    ghost predicate RunTo(s: System)
      reads this
    {
      SystemRun(h.w, states, actions) && SystemInit(h.w, states[0]) && states[|actions|] == s
    }

    twostate predicate Continued()
      reads this
    {
      old(states) <= states && old(actions) <= actions
    }

    ghost method Extend(a: SystemAction, s: System, s': System)
      requires RunTo(s) && SystemNext(h.w, s, a, s')
      modifies this`states, this`actions
      ensures RunTo(s') && Continued()
    {
      states := states + [s'];
      actions := actions + [a];
    }

    /** What processes did in the store since step n of its run happened in the run of both. */
    ghost method LiftStore(n: nat)
      requires h.Valid() && n <= |h.actions| && h.Orderly(n) && RunTo(System(h.states[n], l.state, puts))
      modifies this`states, this`actions
      ensures RunTo(Now()) && Continued()
    {
      for k := n to |h.actions|
        invariant RunTo(System(h.states[k], l.state, puts)) && Continued()
      {
        Extend(StoreAction(h.actions[k]), System(h.states[k], l.state, puts), System(h.states[k + 1], l.state, puts));
      }
    }

    /** And so did what clients and the server did in the ledger since step n of its run. */
    ghost method LiftLedger(n: nat)
      requires h.Valid() && l.Valid() && n <= |l.actions| && l.OthersSince(n) && Local()
      requires RunTo(System(h.Now(), l.states[n], puts))
      modifies this`states, this`actions
      ensures RunTo(Now()) && Continued()
    {
      for k := n to |l.actions|
        invariant RunTo(System(h.Now(), l.states[k], puts)) && Continued()
      {
        assert LedgerCode.OthersMay(l.local, l.actions[k]);
        Extend(LedgerAction(l.actions[k]), System(h.Now(), l.states[k], puts), System(h.Now(), l.states[k + 1], puts));
      }
    }
  }

  // ---- Put ----

  /** The process has returned from WriteFile with these bytes stored. */
  ghost predicate HasStored(h: Host, pid: Pid, data: Bytes)
    reads h
  {
    h.Valid() && pid in h.Now().procs && h.Now().procs[pid].Stored? && h.Now().procs[pid].job.data == data
  }

  /** A host or path that cannot be recorded ends the put before it touches anything. */
  ghost method Refuse(j: Joint, pid: Pid, host: Bytes, path: Bytes, size: nat)
    requires j.Valid() && pid !in j.puts && pid !in j.l.state.calls && pid in j.l.local && !Recordable(host, path)
    modifies j
    ensures j.Valid() && j.Continued() && j.puts == old(j.puts)[pid := Refused]
  {
    var s := j.Now();
    j.puts := j.puts[pid := Refused];
    j.Extend(BeginPut(pid, host, path, size), s, j.Now());
  }

  /** The put becomes a process of the store. */
  ghost method BeginStoring(j: Joint, pid: Pid, host: Bytes, path: Bytes, size: nat)
    requires j.Valid() && pid !in j.puts && pid !in j.l.state.calls && pid in j.l.local && Recordable(host, path)
    requires pid !in j.h.Now().procs && StoreOpen(j.h.Now())
    modifies j, j.h`states, j.h`actions
    ensures j.Valid() && j.Continued() && j.puts == old(j.puts)[pid := Storing(host, path)]
    ensures j.h.Continued() && j.h.At(pid, Create(Some(size)))
  {
    var s := j.Now();
    j.h.Start(pid, Create(Some(size)));
    j.puts := j.puts[pid := Storing(host, path)];
    BeginPutIsStep(j.h.w, s, pid, host, path, size, j.Now());
    j.Extend(BeginPut(pid, host, path, size), s, j.Now());
  }

  /** WriteFile, within the run of both. */
  method Store(j: Joint, ghost pid: Pid, size: nat, source: CasOperations.SourceFile)
    returns (receipt: Option<CasOperations.Receipt>, ghost job: Job)
    requires j.Valid() && j.h.At(pid, Create(Some(size))) && CasOperations.ReadableFile(source)
    modifies j`states, j`actions, j.h
    ensures j.Valid() && j.Continued() && j.h.Continued()
    ensures receipt == None ==> j.h.At(pid, StoreFailed)
    ensures receipt.Some? ==> CasOperations.Returned(j.h, pid, job, receipt.value) && receipt.value.size == size
    ensures receipt.Some? ==> job.data == CasOperations.Flatten(source.chunks)
    ensures receipt == None ==> j.h.Excused(CasOperations.Flatten(source.chunks)) || source.broken
                                || size != |CasOperations.Flatten(source.chunks)|
  {
    ghost var n := |j.h.actions|;
    ghost var before := j.h.states;
    receipt, job := CasOperations.WriteFile(j.h, pid, Some(size), source);
    assert j.h.states[n] == before[n];
    j.LiftStore(n);
  }

  lemma ObserveIsStep(w: World, s: System, pid: Pid, event: Event, s': System)
    requires ReadyToObserve(s, pid) && event == Observation(w, s.store.procs[pid].job, s.puts[pid].host, s.puts[pid].path)
    requires Ledger.Next(s.ledger, Ledger.Begin(pid, Ledger.GoClient, event, Valid(event)), s'.ledger)
    requires s' == s.(ledger := s'.ledger)
    ensures SystemNext(w, s, SystemAction.Observe(pid), s')
  {
  }

  lemma BeginPutIsStep(w: World, s: System, pid: Pid, host: Bytes, path: Bytes, size: nat, s': System)
    requires pid !in s.puts && pid !in s.ledger.calls && Recordable(host, path)
    requires CasProtocol.Next(w, s.store, Begin(pid, Create(Some(size))), s'.store)
    requires s' == s.(store := s'.store, puts := s.puts[pid := Storing(host, path)])
    ensures SystemNext(w, s, BeginPut(pid, host, path, size), s')
  {
  }

  /** The append begins: its event is the observation of what the put stored. */
  method BeginObserving(j: Joint, pid: Pid, ghost job: Job, ghost deduped: bool, event: Event)
    requires j.Valid() && j.h.At(pid, Stored(job, deduped)) && pid !in j.l.state.calls && pid in j.puts
    requires event.Observed? && event == Observation(j.h.w, job, event.host, event.path)
    requires j.puts[pid] == Storing(event.host, event.path)
    modifies j`states, j`actions, j.l
    ensures j.Valid() && j.Continued() && pid !in j.l.state.misled
    ensures j.l.At(pid, Ledger.GoClient, event, if Valid(event) then Ledger.Connect else Ledger.Returned(Ledger.Invalid))
  {
    ghost var s := j.Now();
    var valid := Valid(event);
    j.l.Start(pid, Ledger.GoClient, event, valid);
    ObserveIsStep(j.h.w, s, pid, event, j.Now());
    j.Extend(SystemAction.Observe(pid), s, j.Now());
  }

  /** The transaction, within the run of both. */
  method Transact(j: Joint, pid: Pid, event: Event) returns (outcome: Ledger.Outcome)
    requires j.Valid() && j.l.At(pid, Ledger.GoClient, event, Ledger.Connect) && pid in j.h.Now().procs
    modifies j`states, j`actions, j.l
    ensures j.Valid() && j.Continued()
    ensures j.l.At(pid, Ledger.GoClient, event, Ledger.Returned(outcome))
    ensures !j.l.faulty ==> outcome == Ledger.Succeeded && pid !in j.l.state.misled
  {
    ghost var n := |j.l.actions|;
    ghost var before := j.l.states;
    outcome := LedgerCode.Transact(j.l, pid, event);
    assert j.l.states[n] == before[n];
    j.LiftLedger(n);
  }

  /** While the append ran other processes did too, and the stored bytes are where they were. */
  method StillStored(j: Joint, ghost pid: Pid, ghost job: Job, ghost deduped: bool, event: Event)
    requires j.Valid() && j.h.At(pid, Stored(job, deduped))
    requires event.Observed? && event == Observation(j.h.w, job, event.host, event.path)
    modifies j`states, j`actions, j.h
    ensures j.Valid() && j.Continued() && j.h.Continued() && j.h.At(pid, Stored(job, deduped))
    ensures StoredSafely(j.h.w, j.h.disk, event.identity, event.size)
  {
    ghost var n := |j.h.actions|;
    ghost var before := j.h.states;
    j.h.Yield(pid);
    assert j.h.states[n] == before[n];
    j.LiftStore(n);
    j.h.NowKnown(pid);
    CasOperations.StoredKnown(j.h.w, j.h.disk, job, deduped);
    ObservationNamesSafeBlob(j.h.w, j.h.disk, job, event.host, event.path);
  }

  /** The second commit: the observation of what was stored. The event itself is always valid. */
  method ObserveStored(j: Joint, pid: Pid, ghost job: Job, ghost deduped: bool, event: Event)
    returns (report: Report, ghost outcome: Ledger.Outcome)
    requires j.Valid() && j.h.At(pid, Stored(job, deduped)) && pid !in j.l.state.calls && pid in j.puts
    requires event.Observed? && event == Observation(j.h.w, job, event.host, event.path)
    requires j.puts[pid] == Storing(event.host, event.path)
    modifies j`states, j`actions, j.l
    ensures j.Valid() && j.Continued()
    ensures j.l.At(pid, Ledger.GoClient, event, Ledger.Returned(outcome))
    ensures report == Reported(event, outcome) && Honest(j.l.state, pid, event, report)
    ensures report.PutError? ==> j.l.faulty
  {
    ObservationAlwaysValid(j.h.w, job, event.host, event.path);
    BeginObserving(j, pid, job, deduped, event);
    var o := Transact(j, pid, event);
    LedgerCode.ReturnedTruthful(j.l, pid, Ledger.GoClient, event, o);
    return Reported(event, o), o;
  }

  /** The report is the composed machine's. */
  lemma SameReport(w: World, s: System, pid: Pid, job: Job, deduped: bool, outcome: Ledger.Outcome, event: Event)
    requires event.Observed? && pid in s.puts && s.puts[pid] == Storing(event.host, event.path)
    requires pid in s.store.procs && s.store.procs[pid] == Stored(job, deduped)
    requires event == Observation(w, job, event.host, event.path)
    requires pid in s.ledger.calls && s.ledger.calls[pid].stage == Ledger.Returned(outcome)
    ensures ReportOf(w, s, pid) == Reported(event, outcome)
  {
  }

  /** What follows a successful WriteFile. */
  method FinishPut(j: Joint, pid: Pid, ghost job: Job, receipt: CasOperations.Receipt, host: Bytes, path: Bytes)
    returns (report: Report)
    requires j.Valid() && CasOperations.Returned(j.h, pid, job, receipt) && pid !in j.l.state.calls
    requires pid in j.puts && j.puts[pid] == Storing(host, path)
    modifies j`states, j`actions, j.h, j.l
    ensures j.Valid() && j.Continued() && j.h.Continued() && pid in j.puts
    ensures report == ReportOf(j.h.w, j.Now(), pid)
    ensures report != PlainError && (report.PutError? ==> j.l.faulty)
    ensures var event := Observation(j.h.w, job, host, path);
      && StoredSafely(j.h.w, j.h.disk, event.identity, event.size) && Honest(j.l.state, pid, event, report)
      && HasStored(j.h, pid, job.data)
  {
    var event := Observed(FormatIdentity(receipt.digest), receipt.size, host, path);
    ghost var outcome;
    report, outcome := ObserveStored(j, pid, job, receipt.deduped, event);
    StillStored(j, pid, job, receipt.deduped, event);
    SameReport(j.h.w, j.Now(), pid, job, receipt.deduped, outcome, event);
  }

  /** WriteFile, and what follows if it succeeds. */
  method PutStored(j: Joint, pid: Pid, host: Bytes, path: Bytes, size: nat, source: CasOperations.SourceFile)
    returns (report: Report)
    requires j.Valid() && j.h.At(pid, Create(Some(size))) && pid !in j.l.state.calls && CasOperations.ReadableFile(source)
    requires pid in j.puts && j.puts[pid] == Storing(host, path)
    modifies j`states, j`actions, j.h, j.l
    ensures j.Valid() && j.Continued() && j.h.Continued() && pid in j.puts
    ensures report == ReportOf(j.h.w, j.Now(), pid)
    ensures report == PlainError ==> j.l.state == old(j.l.state) && j.l.states == old(j.l.states)
    ensures report != PlainError ==>
              var data := CasOperations.Flatten(source.chunks);
              var event := Observed("sha256:" + Hex(j.h.w.sha(data)), size, host, path);
              && |data| == size && StoredSafely(j.h.w, j.h.disk, event.identity, size) && Honest(j.l.state, pid, event, report)
              && HasStored(j.h, pid, data)
    ensures report == PlainError ==> j.h.Excused(CasOperations.Flatten(source.chunks)) || source.broken
                                     || size != |CasOperations.Flatten(source.chunks)|
    ensures report.PutError? ==> j.l.faulty
  {
    var receipt;
    ghost var job;
    receipt, job := Store(j, pid, size, source);
    if receipt == None {
      return PlainError;
    }
    report := FinishPut(j, pid, job, receipt.value, host, path);
  }

  /**
   Put extends the run of both stores, and reports what that run defines: so all that is proved of every run is
   proved of it. A host or path that cannot be recorded exactly leaves both stores alone, and a failed WriteFile the
   ledger. Otherwise the report names the source's bytes, wholly on disk, and says what the ledger holds. Each error
   has its reason.
   */
  method Put(j: Joint, pid: Pid, host: Bytes, path: Bytes, size: nat, source: CasOperations.SourceFile)
    returns (report: Report)
    requires j.Valid() && pid !in j.puts && pid !in j.h.Now().procs && pid !in j.l.state.calls && pid in j.l.local
    requires StoreOpen(j.h.Now()) && CasOperations.ReadableFile(source)
    modifies j, j.h, j.l
    ensures j.Valid() && j.Continued() && j.h.Continued() && pid in j.puts
    ensures report == ReportOf(j.h.w, j.Now(), pid)
    ensures host == [] || Utf8.Decode(host) == None || Utf8.Decode(path) == None ==>
              report == PlainError && j.h.disk == old(j.h.disk) && j.h.states == old(j.h.states)
    ensures report == PlainError ==> j.l.state == old(j.l.state) && j.l.states == old(j.l.states)
    ensures report.PutError? && report.outcome == "not_committed" <==>
              pid in j.l.state.calls && j.l.state.calls[pid].stage == Ledger.Returned(Ledger.NotCommitted)
    ensures report.PutError? && report.outcome == "unknown" <==>
              pid in j.l.state.calls && j.l.state.calls[pid].stage == Ledger.Returned(Ledger.Unknown)
    ensures report.Receipt? <==> pid in j.l.state.calls && j.l.state.calls[pid].stage == Ledger.Returned(Ledger.Succeeded)
    ensures report != PlainError ==>
              var data := CasOperations.Flatten(source.chunks);
              var event := Observed("sha256:" + Hex(j.h.w.sha(data)), size, host, path);
              && |data| == size && StoredSafely(j.h.w, j.h.disk, event.identity, size) && Honest(j.l.state, pid, event, report)
              && HasStored(j.h, pid, data)
    ensures report == PlainError ==> host == [] || Utf8.Decode(host) == None || Utf8.Decode(path) == None || source.broken
                                     || j.h.Excused(CasOperations.Flatten(source.chunks))
                                     || size != |CasOperations.Flatten(source.chunks)|
    ensures report.PutError? ==> j.l.faulty
  {
    report := PlainError;
    if !Recordable(host, path) {
      Refuse(j, pid, host, path, size);
    } else {
      BeginStoring(j, pid, host, path, size);
      j.h.StillUnhindered(CasOperations.Flatten(source.chunks));
      report := PutStored(j, pid, host, path, size, source);
    }
    SaysNow(j, pid);
  }

  lemma SaysNow(j: Joint, pid: Pid)
    requires j.Valid() && pid in j.puts
    ensures SaysStage(ReportOf(j.h.w, j.Now(), pid), j.l.state, pid)
  {
    ReportIff(j.h.w, j.states, j.actions, |j.actions|, pid);
  }

  /** Put, then a get of the identity it returned: unless one of the get's own calls fails, exactly the source's bytes. */
  method PutThenGetBack(j: Joint, pid: Pid, host: Bytes, path: Bytes, size: nat, source: CasOperations.SourceFile)
    returns (report: Report, ok: bool, sent: Bytes)
    requires j.Valid() && pid !in j.puts && pid !in j.h.Now().procs && pid !in j.l.state.calls && pid in j.l.local
    requires StoreOpen(j.h.Now()) && CasOperations.ReadableFile(source)
    modifies j, j.h, j.l
    ensures j.h.Valid() && (report.Receipt? && !j.h.faulty ==> ok)
    ensures ok && NoCollisionIn(j.h.w, j.h.Now(), CasOperations.Flatten(source.chunks)) ==>
              sent == CasOperations.Flatten(source.chunks)
  {
    report := Put(j, pid, host, path, size, source);
    j.h.StillOpen();
    ok, sent := false, [];
    if report.Receipt? {
      ghost var get := AFreeInode(j.h.Now().procs.Keys);
      ghost var job := j.h.Now().procs[pid].job;
      ok, sent := CasGets.GetBack(j.h, get, pid, job, report.identity);
    }
  }

  /** Which action of the ledger's run makes a put report not_committed, and which unknown. */
  lemma ReportEnded(j: Joint, pid: Pid)
    requires j.Valid() && pid in j.puts
    ensures var report := ReportOf(j.h.w, j.Now(), pid); var n := |j.l.actions|;
      && (report.PutError? && report.outcome == "not_committed" <==>
            LedgerTheorems.HasEnded(j.l.actions, n, pid, Ledger.GoClient, Ledger.NotCommitted))
      && (report.PutError? && report.outcome == "unknown" <==>
            LedgerTheorems.HasEnded(j.l.actions, n, pid, Ledger.GoClient, Ledger.Unknown))
  {
    ReportIff(j.h.w, j.states, j.actions, |j.actions|, pid);
    JointRunInvariant(j.h.w, j.states, j.actions, |j.actions|);
    forall outcome
      ensures pid in j.l.state.calls && j.l.state.calls[pid].stage == Ledger.Returned(outcome) <==>
                LedgerTheorems.HasEnded(j.l.actions, |j.l.actions|, pid, Ledger.GoClient, outcome)
    {
      if pid in j.l.state.calls {
        LedgerTheorems.ReturnedIff(j.l.states, j.l.actions, |j.l.actions|, pid, outcome);
      } else {
        LedgerTheorems.NotEndedBefore(j.l.states, j.l.actions, |j.l.actions|, pid, Ledger.GoClient, outcome);
      }
    }
  }

  /** What has been proved of all runs, for this one: whatever happens later, the report stays true. */
  lemma PutInRun(j: Joint, pid: Pid, k: nat)
    requires j.Valid() && k <= |j.actions| && pid in j.states[k].puts && ReportOf(j.h.w, j.states[k], pid) != Pending
    ensures ReportHolds(j.h.w, j.Now(), pid, ReportOf(j.h.w, j.states[k], pid), pid in j.states[k].ledger.misled)
  {
    PutSound(j.h.w, j.states, j.actions, k, |j.actions|, pid);
  }
}
