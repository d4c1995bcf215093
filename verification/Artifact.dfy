/**
 Put: bytes into the store, then one observation event into the ledger. Two separate commits, composed from
 the store machine and the ledger machine, among any other store operations and appends.
 */
module Artifact {
  import opened Octets
  import opened Wrappers
  import opened Identity
  import opened Filesystem
  import opened CasProtocol
  import opened CasReachable
  import CasTheorems
  import Ledger
  import Utf8
  import EventType

  const EVENT_TYPE: Bytes :=
    [0x61, 0x72, 0x74, 0x69, 0x66, 0x61, 0x63, 0x74, 0x2E, 0x6F, 0x62, 0x73, 0x65, 0x72, 0x76, 0x65, 0x64]

  /** An observation's content, or any other event. */
  datatype Event =
    | Observed(identity: string, size: nat, host: Bytes, path: Bytes)
    | Other(eventType: Bytes)

  /** Where a put observes its bytes. Refused puts never touch the store. */
  datatype PutCall = Storing(host: Bytes, path: Bytes) | Refused | Died

  type LedgerState = Ledger.State<Event>

  datatype System = System(store: CasProtocol.State, ledger: LedgerState, puts: map<Pid, PutCall>)

  datatype SystemAction =
    | BeginPut(pid: Pid, host: Bytes, path: Bytes, want: nat)
    | StoreAction(action: CasProtocol.Action)
    | Observe(pid: Pid)
    | LedgerAction(event: Ledger.Action<Event>)
    | DieBetween(pid: Pid)
    | SystemCrash(disk: Disk)

  /** The host must be named, and JSON must be able to record host and path exactly. */
  predicate Recordable(host: Bytes, path: Bytes) {
    host != [] && Utf8.ValidUtf8(path) && Utf8.ValidUtf8(host)
  }

  function Observation(w: World, job: Job, host: Bytes, path: Bytes): Event {
    Observed(FormatIdentity(Digest(w, job.data)), |job.data|, host, path)
  }

  /** The event type every observation carries passes the client-side check. */
  function EventTypeOf(event: Event): Bytes {
    if event.Observed? then EVENT_TYPE else event.eventType
  }

  predicate Valid(event: Event) {
    EventType.GoVerdict(EventTypeOf(event)) == EventType.Accepted
  }

  /** "artifact.observed". */
  lemma ObservationType(w: World, job: Job, host: Bytes, path: Bytes)
    ensures EventTypeOf(Observation(w, job, host, path)) ==
              ['a' as int, 'r' as int, 't' as int, 'i' as int, 'f' as int, 'a' as int, 'c' as int, 't' as int, '.' as int,
                   'o' as int, 'b' as int, 's' as int, 'e' as int, 'r' as int, 'v' as int, 'e' as int, 'd' as int]
  {
    assert 'a' as int == 0x61 && 'z' as int == 0x7A && '.' as int == 0x2E;
  }

  /** The observation itself never fails the client-side event check. */
  lemma ObservationAlwaysValid(w: World, job: Job, host: Bytes, path: Bytes)
    ensures Valid(Observation(w, job, host, path))
  {
    AsciiAccepted(EVENT_TYPE);
  }

  lemma AsciiAccepted(text: seq<Utf8.Scalar>)
    requires 0 < |text| <= 255 && forall k :: 0 <= k < |text| ==> 0x20 < text[k] < 0x80
    ensures text == Utf8.Encode(text) && EventType.GoVerdict(Utf8.Encode(text)) == EventType.Accepted
  {
    EncodeAscii(text);
    assert !EventType.IsSpace(text[0]);
    EventType.NonblankAccepted(text, 0);
  }

  lemma {:induction false} EncodeAscii(s: seq<Utf8.Scalar>)
    requires forall k :: 0 <= k < |s| ==> s[k] < 0x80
    ensures Utf8.Encode(s) == s
  {
    if s != [] {
      EncodeAscii(s[1..]);
    }
  }

  predicate InPut(s: System, pid: Pid) {
    pid in s.puts && s.puts[pid].Storing?
  }

  predicate ReadyToObserve(s: System, pid: Pid) {
    InPut(s, pid) && pid in s.store.procs && s.store.procs[pid].Stored? && pid !in s.ledger.calls
  }

  /** The puts a crash of their machine kills: all that have not returned. */
  function LivePutCalls(s: System): set<Pid> {
    set pid | pid in s.puts && pid in s.ledger.calls && !s.ledger.calls[pid].stage.Returned?
  }

  ghost predicate SystemNext(w: World, s: System, a: SystemAction, s': System) {
    match a
    case BeginPut(pid, host, path, want) =>
      && pid !in s.puts && pid !in s.ledger.calls
      && if Recordable(host, path)
         then CasProtocol.Next(w, s.store, Begin(pid, Create(Some(want))), s'.store)
              && s' == s.(store := s'.store, puts := s.puts[pid := Storing(host, path)])
         else s' == s.(puts := s.puts[pid := Refused])
    case StoreAction(b) =>
      // any other store operation, and every store step of a put
      && !b.Crash?
      && CasProtocol.Next(w, s.store, b, s'.store) && s' == s.(store := s'.store)
    case Observe(pid) =>
      && ReadyToObserve(s, pid)
      && var event := Observation(w, s.store.procs[pid].job, s.puts[pid].host, s.puts[pid].path);
      && Ledger.Next(s.ledger, Ledger.Begin(pid, Ledger.GoClient, event, Valid(event)), s'.ledger)
      && s' == s.(ledger := s'.ledger)
    case LedgerAction(b) =>
      // appends that are no puts, and every ledger step of a put
      && (b.Begin? ==> b.id !in s.puts && b.valid == Valid(b.event))
      && Ledger.Next(s.ledger, b, s'.ledger) && s' == s.(ledger := s'.ledger)
    case DieBetween(pid) =>
      && ReadyToObserve(s, pid)
      && s' == s.(puts := s.puts[pid := Died])
    case SystemCrash(d') =>
      && CasProtocol.Next(w, s.store, Crash(d'), s'.store)
      && Ledger.Next(s.ledger, Ledger.Kill(LivePutCalls(s)), s'.ledger)
      && s' == s.(store := s'.store, ledger := s'.ledger,
                  puts := map pid | pid in s.puts :: if ReadyToObserve(s, pid) then Died else s.puts[pid])
  }

  /** Any store, and an empty record of calls; rows older than the run are not shown. */
  ghost predicate SystemInit(w: World, s: System) {
    CasProtocol.Init(w, s.store) && Ledger.Init(s.ledger) && s.puts == map[]
  }

  ghost predicate SystemRun(w: World, states: seq<System>, actions: seq<SystemAction>) {
    && |states| == |actions| + 1
    && forall k :: 0 <= k < |actions| ==> SystemNext(w, states[k], actions[k], states[k + 1])
  }

  // ---- what Put returns ----

  datatype Report =
    | Pending
    | PlainError
    | Receipt(identity: string, size: nat)
    | PutError(identity: string, size: nat, outcome: string)
    | NoReport

  function OutcomeText(outcome: Ledger.Outcome): string {
    // only a classified append error is evidence of a non-commit
    if outcome == Ledger.NotCommitted then "not_committed" else "unknown"
  }

  function ReportOf(w: World, s: System, pid: Pid): Report
    requires pid in s.puts
  {
    if s.puts[pid].Refused? then PlainError
    else if s.puts[pid].Died? || pid !in s.store.procs then NoReport
    else match s.store.procs[pid]
      case StoreFailed => PlainError
      case Gone => NoReport
      case Stored(job, _) =>
        if pid !in s.ledger.calls then Pending
        else
          var identity := FormatIdentity(Digest(w, job.data));
          (match s.ledger.calls[pid].stage
           case Returned(outcome) =>
             if outcome == Ledger.Succeeded then Receipt(identity, |job.data|)
             else PutError(identity, |job.data|, OutcomeText(outcome))
           case Killed => NoReport
           case _ => Pending)
      case _ => Pending
  }

  // ---- the invariant ----

  /** The host is named, and both it and the path are UTF-8. */
  predicate RecordedExactly(host: Bytes, path: Bytes) {
    host != [] && Utf8.Decode(host).Some? && Utf8.Decode(path).Some?
  }

  /** A put's append carries the observation of the blob that put stored, of a host and path that can be recorded. */
  ghost predicate Joined(w: World, s: System) {
    forall pid :: pid in s.puts ==>
      && (s.puts[pid].Storing? ==> pid in s.store.procs && RecordedExactly(s.puts[pid].host, s.puts[pid].path))
      && (pid in s.ledger.calls ==>
            && s.puts[pid].Storing? && s.store.procs[pid].Stored?
            && s.ledger.calls[pid].client == Ledger.GoClient && s.ledger.calls[pid].stage != Ledger.Returned(Ledger.Invalid)
            && s.ledger.calls[pid].event == Observation(w, s.store.procs[pid].job, s.puts[pid].host, s.puts[pid].path))
  }

  ghost predicate JointInv(w: World, foreign: set<Inode>, s: System) {
    Inv(w, foreign, s.store) && Ledger.Inv(s.ledger) && Joined(w, s)
  }

  lemma StoreKeepsJoined(w: World, s: System, b: CasProtocol.Action, s': System)
    requires Joined(w, s) && CasProtocol.Next(w, s.store, b, s'.store)
    requires s'.ledger == s.ledger && s'.puts == s.puts
    ensures Joined(w, s')
  {
    forall pid | pid in s.store.procs && s.store.procs[pid].Stored?
      ensures s'.store.procs[pid] == s.store.procs[pid]
    {
      CasTheorems.StoredStays(w, s.store, b, s'.store, pid);
    }
    ProcsOnlyGrow(w, s.store, b, s'.store);
  }

  lemma ProcsOnlyGrow(w: World, s: CasProtocol.State, b: CasProtocol.Action, s': CasProtocol.State)
    requires CasProtocol.Next(w, s, b, s')
    ensures s'.procs.Keys == if b.Begin? then s.procs.Keys + {b.pid} else s.procs.Keys
  {
  }

  /** A call's client and event never change, and only Begin adds a call. */
  lemma CallsKeepEvents(s: LedgerState, b: Ledger.Action<Event>, s': LedgerState, id: Ledger.CallId)
    requires Ledger.Next(s, b, s') && id in s'.calls && !(b.Begin? && b.id == id)
    ensures id in s.calls && s'.calls[id].event == s.calls[id].event && s'.calls[id].client == s.calls[id].client
    ensures s'.calls[id].stage == Ledger.Returned(Ledger.Invalid) ==> s.calls[id].stage == Ledger.Returned(Ledger.Invalid)
  {
  }

  lemma LedgerKeepsJoined(w: World, s: System, b: Ledger.Action<Event>, s': System)
    requires Joined(w, s) && Ledger.Next(s.ledger, b, s'.ledger) && s'.store == s.store && s'.puts == s.puts
    requires b.Begin? ==> b.id !in s.puts
    ensures Joined(w, s')
  {
    forall pid | pid in s'.puts && pid in s'.ledger.calls
      ensures pid in s.ledger.calls
      ensures s'.ledger.calls[pid].event == s.ledger.calls[pid].event
      ensures s'.ledger.calls[pid].client == s.ledger.calls[pid].client
      ensures s'.ledger.calls[pid].stage != Ledger.Returned(Ledger.Invalid)
    {
      CallsKeepEvents(s.ledger, b, s'.ledger, pid);
    }
  }

  lemma CrashKeepsJoined(w: World, s: System, d': Disk, s': System)
    requires Joined(w, s) && SystemNext(w, s, SystemCrash(d'), s')
    ensures Joined(w, s')
  {
    forall pid | pid in s.store.procs && s.store.procs[pid].Stored?
      ensures s'.store.procs[pid] == s.store.procs[pid]
    {
      CasTheorems.StoredStays(w, s.store, Crash(d'), s'.store, pid);
    }
    ProcsOnlyGrow(w, s.store, Crash(d'), s'.store);
    forall pid | pid in s'.puts && pid in s'.ledger.calls
      ensures pid in s.ledger.calls
      ensures s'.ledger.calls[pid].event == s.ledger.calls[pid].event
      ensures s'.ledger.calls[pid].client == s.ledger.calls[pid].client
      ensures s'.ledger.calls[pid].stage != Ledger.Returned(Ledger.Invalid)
    {
      CallsKeepEvents(s.ledger, Ledger.Kill(LivePutCalls(s)), s'.ledger, pid);
    }
  }

  lemma BeginPutKeepsJoint(w: World, foreign: set<Inode>, s: System, pid: Pid, host: Bytes, path: Bytes, want: nat, s': System)
    requires JointInv(w, foreign, s) && SystemNext(w, s, BeginPut(pid, host, path, want), s')
    ensures JointInv(w, foreign, s')
  {
    if Recordable(host, path) {
      ActionKeeps(w, foreign, s.store, Begin(pid, Create(Some(want))), s'.store);
      ProcsOnlyGrow(w, s.store, Begin(pid, Create(Some(want))), s'.store);
    }
  }

  lemma ObserveKeepsJoint(w: World, foreign: set<Inode>, s: System, pid: Pid, s': System)
    requires JointInv(w, foreign, s) && SystemNext(w, s, Observe(pid), s')
    ensures JointInv(w, foreign, s')
  {
    var event := Observation(w, s.store.procs[pid].job, s.puts[pid].host, s.puts[pid].path);
    ObservationAlwaysValid(w, s.store.procs[pid].job, s.puts[pid].host, s.puts[pid].path);
    Ledger.ActionKeeps(s.ledger, Ledger.Begin(pid, Ledger.GoClient, event, Valid(event)), s'.ledger);
  }

  lemma ActionKeepsJoint(w: World, foreign: set<Inode>, s: System, a: SystemAction, s': System)
    requires JointInv(w, foreign, s) && SystemNext(w, s, a, s')
    ensures JointInv(w, foreign, s')
  {
    match a
    case BeginPut(pid, host, path, want) => BeginPutKeepsJoint(w, foreign, s, pid, host, path, want, s');
    case Observe(pid) => ObserveKeepsJoint(w, foreign, s, pid, s');
    case StoreAction(b) =>
      ActionKeeps(w, foreign, s.store, b, s'.store);
      StoreKeepsJoined(w, s, b, s');
    case LedgerAction(b) =>
      Ledger.ActionKeeps(s.ledger, b, s'.ledger);
      LedgerKeepsJoined(w, s, b, s');
    case DieBetween(pid) =>
    case SystemCrash(d') =>
      ActionKeeps(w, foreign, s.store, Crash(d'), s'.store);
      Ledger.ActionKeeps(s.ledger, Ledger.Kill(LivePutCalls(s)), s'.ledger);
      CrashKeepsJoined(w, s, d', s');
  }

  lemma {:induction false} JointRunInvariant(w: World, states: seq<System>, actions: seq<SystemAction>, k: nat)
    requires SystemRun(w, states, actions) && SystemInit(w, states[0]) && k <= |actions|
    ensures JointInv(w, states[0].store.disk.files.Keys, states[k])
  {
    if k == 0 {
      InitInvariant(w, states[0].store);
    } else {
      JointRunInvariant(w, states, actions, k - 1);
      ActionKeepsJoint(w, states[0].store.disk.files.Keys, states[k - 1], actions[k - 1], states[k]);
    }
  }
}
