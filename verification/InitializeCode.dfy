/** Initialize as the imperative code it is: one session among others, proved to be a run of the locking protocol. */
module InitializeCode {
  import opened Wrappers
  import opened Initialize

  class Cluster {
    /** The contract schema's descriptors, and whether this session's statements may fail. */
    const want: seq<string>
    const faulty: bool
    var state: State
    ghost var states: seq<State>
    ghost var actions: seq<Action>

    ghost predicate Valid()
      reads this
    {
      IsRun(want, states, actions) && Init(states[0]) && states[|actions|] == state
    }

    ghost predicate At(pid: Pid, stage: Stage)
      reads this
    {
      Valid() && pid in state.procs && state.procs[pid] == stage
    }

    /** The run goes on from where it was. */
    twostate predicate Continued()
      reads this
    {
      old(states) <= states && old(actions) <= actions
    }

    method Act(a: Action, s': State)
      requires Valid() && Next(want, state, a, s')
      modifies this
      ensures Valid() && Continued() && state == s'
    {
      state := s';
      states := states + [s'];
      actions := actions + [a];
    }

    /** Other sessions run. */
    method Yield(pid: Pid)
      requires Valid() && pid in state.procs
      modifies this
      ensures At(pid, old(state.procs[pid])) && Continued()
    {
      // the caller sees only the contract: any number of steps of others
    }

    /** Waits until the advisory lock is free: its holder runs until it lets go. */
    method AwaitLock(pid: Pid)
      requires At(pid, Lock)
      modifies this
      ensures At(pid, Lock) && Continued() && state.lock == None
    {
      Yield(pid);
      Now();
      while state.lock.Some?
        invariant At(pid, Lock) && Continued() && Inv(state)
        decreases if state.lock.Some? && state.lock.value in state.procs then 1 + Rank(state.procs[state.lock.value]) else 0
      {
        var holder := state.lock.value;
        HolderProceeds(want, state);
        Act(Run(holder), StepOf(want, state, holder));
        Now();
      }
    }

    lemma Now()
      requires Valid()
      ensures Inv(state)
    {
      RunInvariant(want, states, actions, |actions|);
    }

    /** A statement fails, or the session is lost; a COMMIT may still have landed. */
    method Fails(pid: Pid, stage: Stage) returns (fails: bool)
      requires At(pid, stage) && !stage.Finished?
      modifies this
      ensures Continued() && At(pid, if fails then Finished(false) else stage)
      ensures fails ==> faulty
      ensures !fails ==> state == old(state)
      ensures old(state.table.Some?) ==> state.table == old(state.table)
    {
      fails := *;
      fails := fails && faulty;
      if fails {
        var lands: bool := *;
        Act(Break(pid, lands),
            if stage.CommitSchema? && lands then Leave(Land(state, pid, stage.created, want), pid, false)
            else Leave(state, pid, false));
      }
      TableSettled();
    }

    /** A table that is there stays as it is, and one that appears is the contract's. */
    twostate lemma TableSettled()
      requires old(Valid()) && Valid() && Continued()
      ensures old(state.table.Some?) ==> state.table == old(state.table)
      ensures old(Acceptable(state, want)) ==> Acceptable(state, want)
      ensures state.utf8 == old(state.utf8)
    {
      assert states[|old(actions)|] == old(states)[|old(actions)|] == old(state);
      if old(state.table.Some?) {
        ExistingUntouched(want, states, actions, |old(actions)|, |actions|);
      }
      AcceptableStays(want, states, actions, |old(actions)|, |actions|);
    }
  }

  /** No table, or a compliant one. */
  predicate Acceptable(s: State, want: seq<string>) {
    s.table.Some? ==> Compliant(s.table.value, want)
  }

  lemma {:induction false} AcceptableStays(want: seq<string>, states: seq<State>, actions: seq<Action>, k: nat, j: nat)
    requires IsRun(want, states, actions) && Init(states[0]) && k <= j <= |actions|
    ensures Acceptable(states[k], want) ==> Acceptable(states[j], want)
    ensures states[j].utf8 == states[k].utf8
  {
    if k < j {
      AcceptableStays(want, states, actions, k, j - 1);
      RunInvariant(want, states, actions, j - 1);
      ActionKeeps(want, states[j - 1], actions[j - 1], states[j]);
    }
  }

  /** The encoding, the transaction and the lock. */
  method Enter(c: Cluster, pid: Pid) returns (ok: bool)
    requires c.At(pid, ShowEncoding)
    modifies c
    ensures c.Continued() && c.At(pid, if ok then LookUp else Finished(false))
    ensures !ok ==> c.faulty || !c.state.utf8
    ensures ok ==> c.state.utf8
  {
    c.Yield(pid);
    var fails := c.Fails(pid, ShowEncoding);
    if fails {
      return false;
    }
    if !c.state.utf8 {
      c.Act(Run(pid), Leave(c.state, pid, false));
      return false;
    }
    c.Act(Run(pid), GoTo(c.state, pid, BeginTx));
    ok := TakeLock(c, pid);
  }

  method TakeLock(c: Cluster, pid: Pid) returns (ok: bool)
    requires c.At(pid, BeginTx) && c.state.utf8
    modifies c
    ensures c.Continued() && c.At(pid, if ok then LookUp else Finished(false))
    ensures (!ok ==> c.faulty) && c.state.utf8
  {
    c.Yield(pid);
    c.TableSettled();
    var fails := c.Fails(pid, BeginTx);
    c.TableSettled();
    if fails {
      return false;
    }
    c.Act(Run(pid), GoTo(c.state, pid, Lock));
    c.AwaitLock(pid);
    c.TableSettled();
    fails := c.Fails(pid, Lock);
    c.TableSettled();
    if fails {
      return false;
    }
    c.Act(Run(pid), GoTo(c.state, pid, LookUp).(lock := Some(pid)));
    return true;
  }

  /** The schema, and its COMMIT. */
  method Create(c: Cluster, pid: Pid) returns (ok: bool)
    requires c.At(pid, RunSchema)
    modifies c
    ensures c.Continued() && c.At(pid, Finished(ok))
    ensures ok ==> c.state.table == Some(ContractTable(c.want))
    ensures !ok ==> c.faulty
  {
    c.Yield(pid);
    c.Now();
    var fails := c.Fails(pid, RunSchema);
    if fails {
      return false;
    }
    c.Act(Run(pid), GoTo(c.state, pid, CommitSchema(true)));
    c.Yield(pid);
    fails := c.Fails(pid, CommitSchema(true));
    if fails {
      return false;
    }
    c.Act(Run(pid), Leave(Land(c.state, pid, true, c.want), pid, true));
    return true;
  }

  /** The guards and the comparison, over the relation that is there. */
  method InspectTable(c: Cluster, pid: Pid) returns (ok: bool)
    requires c.At(pid, Inspect)
    modifies c
    ensures c.Continued() && c.At(pid, Finished(ok))
    ensures c.state.table.Some?
    ensures ok ==> Compliant(c.state.table.value, c.want)
    ensures !ok ==> c.faulty || !Compliant(c.state.table.value, c.want)
  {
    c.Yield(pid);
    c.Now();
    var table := c.state.table.value;
    var fails := c.Fails(pid, Inspect);
    if fails {
      return false;
    }
    var refusal := Examine(table, c.want);
    c.Act(Run(pid), Leave(c.state, pid, refusal == None));
    return refusal == None;
  }

  method CreateOrInspect(c: Cluster, pid: Pid) returns (ok: bool)
    requires c.At(pid, LookUp)
    modifies c
    ensures c.Continued() && c.At(pid, Finished(ok))
    ensures ok ==> c.state.table.Some? && Compliant(c.state.table.value, c.want)
    ensures !ok ==> c.faulty || (c.state.table.Some? && !Compliant(c.state.table.value, c.want))
  {
    c.Yield(pid);
    var fails := c.Fails(pid, LookUp);
    if fails {
      return false;
    }
    if c.state.table == None {
      c.Act(Run(pid), GoTo(c.state, pid, RunSchema));
      ok := Create(c, pid);
    } else {
      c.Act(Run(pid), GoTo(c.state, pid, Inspect));
      ok := InspectTable(c, pid);
    }
  }

  /**
   Success means that the contract's table is there; a table that was there is as it was, and is accepted exactly
   when it complies; where there was none, or a compliant one, only a failing statement can make it fail.
   */
  method InitializeLedger(c: Cluster, pid: Pid) returns (ok: bool)
    requires c.Valid() && pid !in c.state.procs
    modifies c
    ensures c.Continued() && c.At(pid, Finished(ok))
    ensures ok ==> c.state.table.Some? && Compliant(c.state.table.value, c.want) && c.state.utf8
    ensures ok ==> c.state.table == Some(Relation('r', 'p', false, false, 0, [], c.want))
    ensures old(c.state.table.Some?) ==> c.state.table == old(c.state.table)
    ensures !c.faulty && old(Acceptable(c.state, c.want) && c.state.utf8) ==> ok
    ensures !c.faulty && old(c.state.table.Some?) ==>
              (ok <==> c.state.utf8 && c.state.table == Some(Relation('r', 'p', false, false, 0, [], c.want)))
  {
    c.Act(Begin(pid), GoTo(c.state, pid, ShowEncoding));
    ok := Enter(c, pid);
    c.TableSettled();
    if ok {
      ok := CreateOrInspect(c, pid);
      c.TableSettled();
    }
  }
}
