/** Initialize: any number of initializers, serialised by an advisory lock, over any pre-existing relation. */
module Initialize {
  import opened Wrappers

  // ---- comparing descriptors ----

  datatype Difference =
    | Missing(line: string)
    | Expected(line: string, found: string)
    | Unexpected(line: string)

  /** The first disagreement of two descriptor sequences, if any. */
  ghost predicate FirstDifference(want: seq<string>, got: seq<string>, k: nat, diff: Difference) {
    && k <= |want| && k <= |got| && want[..k] == got[..k]
    && match diff
       case Missing(line) => k < |want| && k == |got| && line == want[k]
       case Expected(line, found) => k < |want| && k < |got| && line == want[k] && found == got[k] && line != found
       case Unexpected(line) => k == |want| && k < |got| && line == got[k]
  }

  method DescriptorDiff(want: seq<string>, got: seq<string>) returns (diff: Option<Difference>)
    ensures diff == None <==> want == got
    ensures diff.Some? ==> exists k :: FirstDifference(want, got, k, diff.value)
  {
    for k := 0 to |want|
      invariant k <= |got| && want[..k] == got[..k]
    {
      if k >= |got| {
        assert FirstDifference(want, got, k, Missing(want[k]));
        return Some(Missing(want[k]));
      }
      if got[k] != want[k] {
        assert FirstDifference(want, got, k, Expected(want[k], got[k]));
        return Some(Expected(want[k], got[k]));
      }
      assert want[..k + 1] == want[..k] + [want[k]] && got[..k + 1] == got[..k] + [got[k]];
    }
    assert want[..|want|] == want;
    if |got| > |want| {
      assert FirstDifference(want, got, |want|, Unexpected(got[|want|]));
      return Some(Unexpected(got[|want|]));
    }
    assert got[..|want|] == got;
    return None;
  }

  // ---- examining an existing relation ----

  /** What Initialize can see of public.events. */
  datatype Relation = Relation(
    kind: char, persistence: char, rowSecurity: bool, forceRowSecurity: bool, policies: nat,
    extras: seq<string>, descriptors: seq<string>)

  predicate GuardsPass(r: Relation) {
    && r.kind == 'r' && r.persistence == 'p'
    && !r.rowSecurity && !r.forceRowSecurity && r.policies == 0
    && r.extras == []
  }

  predicate Compliant(r: Relation, want: seq<string>) {
    GuardsPass(r) && r.descriptors == want
  }

  datatype Refusal = WrongKind | NotPermanent | RowSecurity | CarriesExtras | Differs(diff: Difference)

  /** An existing relation is accepted exactly when the guards pass and the descriptors are equal. */
  method Examine(r: Relation, want: seq<string>) returns (refusal: Option<Refusal>)
    ensures refusal == None <==> Compliant(r, want)
    ensures refusal == None <==> r == Relation('r', 'p', false, false, 0, [], want)
    ensures refusal.Some? && refusal.value.Differs? ==>
              GuardsPass(r) && exists k :: FirstDifference(want, r.descriptors, k, refusal.value.diff)
  {
    if r.kind != 'r' {
      return Some(WrongKind);
    }
    if r.persistence != 'p' {
      return Some(NotPermanent);
    }
    if r.rowSecurity || r.forceRowSecurity || r.policies > 0 {
      return Some(RowSecurity);
    }
    if r.extras != [] {
      return Some(CarriesExtras);
    }
    var diff := DescriptorDiff(want, r.descriptors);
    return if diff.None? then None else Some(Differs(diff.value));
  }

  // ---- the protocol ----

  type Pid = nat

  datatype Stage =
    | ShowEncoding
    | BeginTx
    | Lock
    | LookUp
    | RunSchema
    | CommitSchema(created: bool)
    | Inspect
    | Finished(ok: bool)

  /** `table` is the committed public.events, `creators` the initializers whose CREATE TABLE was committed. */
  datatype State = State(utf8: bool, table: Option<Relation>, lock: Option<Pid>, procs: map<Pid, Stage>, creators: set<Pid>)

  /** `lands`: whether a COMMIT whose answer is lost took effect. */
  datatype Action = Begin(pid: Pid) | Run(pid: Pid) | Break(pid: Pid, lands: bool)

  /** What the schema creates in a database without the table. */
  function ContractTable(want: seq<string>): Relation {
    Relation('r', 'p', false, false, 0, [], want)
  }

  function Leave(s: State, pid: Pid, ok: bool): State {
    s.(procs := s.procs[pid := Finished(ok)], lock := if s.lock == Some(pid) then None else s.lock)
  }

  function GoTo(s: State, pid: Pid, stage: Stage): State {
    s.(procs := s.procs[pid := stage])
  }

  /** COMMIT of the schema: if this transaction made the table, it now exists. */
  function Land(s: State, pid: Pid, created: bool, want: seq<string>): State {
    if created then s.(table := Some(ContractTable(want)), creators := s.creators + {pid}) else s
  }

  ghost predicate Next(want: seq<string>, s: State, a: Action, s': State) {
    match a
    case Begin(pid) => pid !in s.procs && s' == GoTo(s, pid, ShowEncoding)
    case Run(pid) =>
      && pid in s.procs
      && (match s.procs[pid]
          case ShowEncoding => s' == if s.utf8 then GoTo(s, pid, BeginTx) else Leave(s, pid, false)
          case BeginTx => s' == GoTo(s, pid, Lock)
          case Lock => s.lock == None && s' == GoTo(s, pid, LookUp).(lock := Some(pid))
          case LookUp => s' == GoTo(s, pid, if s.table == None then RunSchema else Inspect)
          case RunSchema => s' == GoTo(s, pid, CommitSchema(s.table == None)) // IF NOT EXISTS
          case CommitSchema(created) => s' == Leave(Land(s, pid, created, want), pid, true)
          case Inspect => s' == Leave(s, pid, s.table.Some? && Compliant(s.table.value, want))
          case Finished(_) => false)
    case Break(pid, lands) =>
      // a failing statement, a lost session or a dead process: the transaction ends, and its lock with it
      && pid in s.procs && !s.procs[pid].Finished?
      && s' == if s.procs[pid].CommitSchema? && lands
               then Leave(Land(s, pid, s.procs[pid].created, want), pid, false)
               else Leave(s, pid, false)
  }

  ghost predicate Init(s: State) {
    s.lock == None && s.procs == map[] && s.creators == {}
  }

  ghost predicate IsRun(want: seq<string>, states: seq<State>, actions: seq<Action>) {
    && |states| == |actions| + 1
    && forall k :: 0 <= k < |actions| ==> Next(want, states[k], actions[k], states[k + 1])
  }

  predicate HoldsLock(stage: Stage) {
    stage.LookUp? || stage.RunSchema? || stage.CommitSchema? || stage.Inspect?
  }

  /** The lock makes the look-up and the creation one step. */
  ghost predicate Inv(s: State) {
    && (forall pid :: pid in s.procs ==> (HoldsLock(s.procs[pid]) <==> s.lock == Some(pid)))
    && (s.lock.Some? ==> s.lock.value in s.procs)
    && (forall pid :: pid in s.procs && (s.procs[pid].RunSchema? || s.procs[pid].CommitSchema?) ==> s.table == None)
    && (forall pid :: pid in s.procs && s.procs[pid].CommitSchema? ==> s.procs[pid].created)
    && (forall pid :: pid in s.procs && s.procs[pid].Inspect? ==> s.table.Some?)
    && (s.creators != {} ==> s.table.Some?)
    && (forall p, q :: p in s.creators && q in s.creators ==> p == q)
  }

  lemma ActionKeeps(want: seq<string>, s: State, a: Action, s': State)
    requires Inv(s) && Next(want, s, a, s')
    ensures Inv(s')
    ensures s.table.Some? ==> s'.table == s.table && s'.creators == s.creators
  {
  }

  lemma {:induction false} RunInvariant(want: seq<string>, states: seq<State>, actions: seq<Action>, k: nat)
    requires IsRun(want, states, actions) && Init(states[0]) && k <= |actions|
    ensures Inv(states[k])
  {
    if k > 0 {
      RunInvariant(want, states, actions, k - 1);
      ActionKeeps(want, states[k - 1], actions[k - 1], states[k]);
    }
  }

  /** Over any run, at most one initializer creates the table, and only where there was none. */
  lemma AtMostOneCreates(want: seq<string>, states: seq<State>, actions: seq<Action>, k: nat)
    requires IsRun(want, states, actions) && Init(states[0]) && k <= |actions|
    ensures forall p, q :: p in states[k].creators && q in states[k].creators ==> p == q
    ensures states[0].table.Some? ==> states[k].creators == {}
  {
    RunInvariant(want, states, actions, k);
    if states[0].table.Some? {
      ExistingUntouched(want, states, actions, 0, k);
    }
  }

  /** An existing relation is never altered, by any initializer, failing or not. */
  lemma {:induction false} ExistingUntouched(want: seq<string>, states: seq<State>, actions: seq<Action>, k: nat, j: nat)
    requires IsRun(want, states, actions) && Init(states[0]) && k <= j <= |actions| && states[k].table.Some?
    ensures states[j].table == states[k].table && states[j].creators == states[k].creators
  {
    if k < j {
      ExistingUntouched(want, states, actions, k, j - 1);
      RunInvariant(want, states, actions, j - 1);
      ActionKeeps(want, states[j - 1], actions[j - 1], states[j]);
    }
  }

  predicate FaultFree(actions: seq<Action>) {
    forall a :: a in actions ==> !a.Break?
  }

  /** On a UTF-8 database that is empty or already compliant, without faults, no initializer fails. */
  lemma {:induction false} AllSucceed(want: seq<string>, states: seq<State>, actions: seq<Action>, k: nat)
    requires IsRun(want, states, actions) && Init(states[0]) && k <= |actions| && FaultFree(actions)
    requires states[0].utf8 && (states[0].table.Some? ==> Compliant(states[0].table.value, want))
    ensures forall pid :: pid in states[k].procs && states[k].procs[pid].Finished? ==> states[k].procs[pid].ok
    ensures states[k].utf8 && (states[k].table.Some? ==> Compliant(states[k].table.value, want))
  {
    if k > 0 {
      AllSucceed(want, states, actions, k - 1);
      RunInvariant(want, states, actions, k - 1);
      assert actions[k - 1] in actions;
    }
  }

  /** Nobody waits for ever: while some initializer is not finished, some initializer can take a step. */
  lemma NoDeadlock(want: seq<string>, s: State, pid: Pid)
    requires Inv(s) && pid in s.procs && !s.procs[pid].Finished?
    ensures exists q, s' :: Next(want, s, Run(q), s') && Rank(s'.procs[q]) < Rank(s.procs[q])
  {
    var q := if s.procs[pid].Lock? && s.lock.Some? then s.lock.value else pid;
    assert HoldsLock(s.procs[q]) || s.lock == None || !s.procs[q].Lock?;
    assert Next(want, s, Run(q), StepOf(want, s, q));
  }

  /** The next step of an initializer that is not waiting. */
  function StepOf(want: seq<string>, s: State, pid: Pid): State
    requires pid in s.procs
  {
    match s.procs[pid]
    case ShowEncoding => if s.utf8 then GoTo(s, pid, BeginTx) else Leave(s, pid, false)
    case BeginTx => GoTo(s, pid, Lock)
    case Lock => GoTo(s, pid, LookUp).(lock := Some(pid))
    case LookUp => GoTo(s, pid, if s.table == None then RunSchema else Inspect)
    case RunSchema => GoTo(s, pid, CommitSchema(s.table == None))
    case CommitSchema(created) => Leave(Land(s, pid, created, want), pid, true)
    case Inspect => Leave(s, pid, s.table.Some? && Compliant(s.table.value, want))
    case Finished(_) => s
  }

  /** The holder of the lock is never stuck, and each of its steps brings its release nearer. */
  lemma HolderProceeds(want: seq<string>, s: State)
    requires Inv(s) && s.lock.Some?
    ensures var q := s.lock.value; var s' := StepOf(want, s, q);
      && Next(want, s, Run(q), s') && s'.procs.Keys == s.procs.Keys && Rank(s'.procs[q]) < Rank(s.procs[q])
      && (s'.lock == None || s'.lock == Some(q)) && forall p :: p in s.procs && p != q ==> s'.procs[p] == s.procs[p]
  {
  }

  /** How many steps an initializer still has to take at most. */
  function Rank(stage: Stage): nat {
    match stage
    case ShowEncoding => 6
    case BeginTx => 5
    case Lock => 4
    case LookUp => 3
    case RunSchema => 2
    case CommitSchema(_) => 1
    case Inspect => 1
    case Finished(_) => 0
  }
}
