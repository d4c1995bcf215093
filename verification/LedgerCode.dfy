/**
 Append and append_event as the imperative code they are, against a server that they see only through its
 answers. `state` is the ledger and every transaction in progress; `states`, `actions` (ghost) are the run of the
 ledger machine so far. Each client is proved to be a continuation of that run that returns the outcome the run
 records, so what holds of all runs holds of what the clients report.
 */
module LedgerCode {
  import opened Ledger
  import opened LedgerTheorems
  import opened Utf8
  import opened EventType
  import opened Artifact

  /** What a client learns from its COMMIT: an answer, or that it was never sent. */
  datatype CommitResult = Told(answer: Answer) | NotSent(known: bool)

  class Server {
    /** Whether statements, sessions and answers may be lost, and transactions aborted. */
    const faulty: bool
    /** The ids of this machine's puts, which no other client uses. */
    ghost const local: iset<CallId>
    var state: LedgerState
    ghost var states: seq<LedgerState>
    ghost var actions: seq<Ledger.Action<Event>>

    ghost predicate Valid()
      reads this
    {
      Ledger.IsRun(states, actions) && Ledger.Init(states[0]) && states[|actions|] == state
    }

    ghost predicate At(id: CallId, client: Client, event: Event, stage: Stage)
      reads this
    {
      Valid() && id in state.calls && state.calls[id] == Call(client, event, stage)
    }

    /** The run goes on from where it was. */
    twostate predicate Continued()
      reads this
    {
      old(states) <= states && old(actions) <= actions
    }

    /** ... and the calls that began meanwhile are other clients', which validate their events. */
    twostate predicate Proceeded()
      reads this
    {
      Continued() && OthersSince(|old(actions)|)
    }

    ghost predicate OthersSince(from: nat)
      reads this
    {
      forall k :: from <= k < |actions| ==> OthersMay(local, actions[k])
    }

    method Act(a: Ledger.Action<Event>, s': LedgerState)
      requires Valid() && Ledger.Next(state, a, s')
      modifies this
      ensures Valid() && Continued() && state == s' && actions == old(actions) + [a] && states == old(states) + [s']
    {
      state := s';
      states := states + [s'];
      actions := actions + [a];
    }

    /** Other clients and the server act; a call in progress stays where it is. */
    method Yield(ghost id: CallId)
      requires Valid() && id in state.calls
      modifies this
      ensures Valid() && Proceeded()
      ensures id in state.calls && state.calls[id] == old(state.calls[id])
      ensures !faulty ==> Progress(old(state.txs), state.txs, id)
      ensures id in state.misled <==> old(id in state.misled)
    {
      // the caller sees only the contract: any number of steps of others
    }

    /** Without faults a transaction only moves towards its commit. */
    static ghost predicate Progress(before: map<CallId, Tx<Event>>, after: map<CallId, Tx<Event>>, id: CallId) {
      && (id in before <==> id in after)
      && (id in before ==> after[id] == before[id]
                           || (before[id].CommitRequested? && after[id] == Committed(before[id].event)))
    }

    lemma NowFits(id: CallId)
      requires Valid() && id in state.calls
      ensures state.txs.Keys <= state.calls.Keys && TxFits(state.calls[id], state.txs, id, id in state.misled)
      ensures id in state.misled ==> state.calls[id].stage.Returned?
    {
      RunInvariant(states, actions, |actions|);
    }

    method Start(id: CallId, client: Client, event: Event, valid: bool)
      requires Valid() && id !in state.calls
      modifies this
      ensures At(id, client, event, if valid then Connect else Returned(Invalid)) && Continued()
      ensures Ledger.Next(old(state), Begin(id, client, event, valid), state)
      ensures id !in state.txs && id !in state.misled
    {
      RunInvariant(states, actions, |actions|);
      Act(Begin(id, client, event, valid),
          state.(calls := state.calls[id := Call(client, event, if valid then Connect else Returned(Invalid))]));
    }

    /** Begin, or psycopg.connect. */
    method Open(id: CallId, client: Client, ghost event: Event) returns (ok: bool)
      requires At(id, client, event, Connect)
      modifies this
      ensures At(id, client, event, if ok then Insert else Returned(NotCommitted)) && Proceeded()
      ensures !faulty ==> ok
    {
      Yield(id);
      ok := *;
      ok := ok || !faulty;
      Act(Connected(id, ok), Move(state, id, if ok then Insert else Returned(NotCommitted)));
    }

    /** The INSERT and its returned row; when it fails the server may or may not have run it. */
    method InsertRow(id: CallId, client: Client, event: Event) returns (ok: bool)
      requires At(id, client, event, Insert)
      modifies this
      ensures At(id, client, event, if ok then Commit else Returned(NotCommitted)) && Proceeded()
      ensures !faulty ==> ok && NotAborted(id)
    {
      Yield(id);
      NowFits(id);
      ok := *;
      ok := ok || !faulty;
      var reached: bool := *;
      reached := reached || ok;
      var s := if reached then state.(txs := state.txs[id := Tx.Open(event)]) else state;
      Act(Inserted(id, ok, reached), Move(s, id, if ok then Commit else Returned(NotCommitted)));
    }

    ghost predicate NotAborted(id: CallId)
      reads this
    {
      id in state.txs && !state.txs[id].Aborted?
    }

    /** COMMIT. The server decides on its own, and answers by the environment rule. */
    method CommitTx(id: CallId, client: Client, ghost event: Event) returns (result: CommitResult)
      requires At(id, client, event, Commit)
      modifies this
      ensures Proceeded() && (result.NotSent? && result.known ==> client.GoClient?)
      ensures At(id, client, event, Returned(match result
                                             case Told(answer) => Classify(client, answer)
                                             case NotSent(known) => if known then NotCommitted else Unknown))
      ensures !faulty && old(NotAborted(id)) ==> result == Told(CommandCommit) && id !in state.misled
    {
      Yield(id);
      NowFits(id);
      var sent: bool := *;
      sent := sent || !faulty;
      if !sent {
        var known: bool := *;
        known := known && client.GoClient?;
        Act(CommitNotSent(id, known), Move(state, id, Returned(if known then NotCommitted else Unknown)));
        return NotSent(known);
      }
      Request(id, client, event);
      var answer := Decide(id, client, event);
      result := Told(answer);
    }

    method Request(id: CallId, client: Client, ghost event: Event)
      requires At(id, client, event, Commit) && id in state.txs
      modifies this
      ensures Proceeded() && At(id, client, event, Await)
      ensures old(NotAborted(id)) ==> NotAborted(id)
    {
      var tx := if state.txs[id].Open? then CommitRequested(state.txs[id].event) else state.txs[id];
      Act(SendCommit(id), Move(state.(txs := state.txs[id := tx]), id, Await));
    }

    method Decide(id: CallId, client: Client, ghost event: Event) returns (answer: Answer)
      requires At(id, client, event, Await)
      modifies this
      ensures Proceeded()
      ensures At(id, client, event, Returned(Classify(client, answer)))
      ensures !faulty && old(NotAborted(id)) ==> answer == CommandCommit && id !in state.misled
    {
      Yield(id);
      NowFits(id);
      answer := *;
      if !faulty && !state.txs[id].Aborted? {
        if state.txs[id].CommitRequested? {
          Act(ServerCommits(id), state.(txs := state.txs[id := Committed(state.txs[id].event)],
                                        rows := state.rows + [Row(id, state.txs[id].event)]));
        }
        answer := CommandCommit;
      }
      answer := if MayAnswer(answer, state.txs[id]) then answer else Silence;
      var misled := if Plain(client, answer) then state.misled else state.misled + {id};
      Act(Answered(id, answer), Move(state.(misled := misled), id, Returned(Classify(client, answer))));
    }

    /** The deferred Rollback, or close: aborts a transaction that never asked to commit, if it gets through. */
    method Release(id: CallId)
      requires Valid() && id in state.calls
      modifies this
      ensures Valid() && Proceeded()
      ensures id in state.calls && state.calls[id] == old(state.calls[id])
      ensures id in state.misled <==> old(id in state.misled)
    {
      Yield(id);
      var arrives: bool := *;
      if arrives && id in state.txs && state.txs[id].Open? {
        Act(ServerAborts(id), state.(txs := state.txs[id := Aborted]));
      }
      Yield(id);
    }
  }

  /** What other clients do to the set of calls. */
  ghost predicate OthersMay(local: iset<CallId>, a: Ledger.Action<Event>) {
    a.Begin? ==> a.id !in local && a.valid == Valid(a.event)
  }

  /**
   What a returned outcome says about the ledger: a success exactly one row, unless a Python call took a ROLLBACK tag for
   it; a failed validation none; a non-commit none, unless the wording of the answer hid the end of the session.
   */
  ghost predicate Truthful(s: LedgerState, id: CallId, client: Client, event: Event, outcome: Outcome) {
    && RowsOf(s, id) <= 1
    && (outcome == Succeeded && (client.GoClient? || id !in s.misled) ==> RowsOf(s, id) == 1 && HasEventRow(s, id, event))
    && (outcome == Succeeded && client.PythonClient? && id in s.misled ==> RowsOf(s, id) == 0)
    && (outcome == NotCommitted && id !in s.misled ==> RowsOf(s, id) == 0)
    && (outcome == Invalid ==> RowsOf(s, id) == 0)
    && (id in s.misled ==> outcome == NotCommitted || (outcome == Succeeded && client.PythonClient?))
  }

  lemma ReturnedTruthful(l: Server, id: CallId, client: Client, event: Event, outcome: Outcome)
    requires l.At(id, client, event, Returned(outcome))
    ensures Truthful(l.state, id, client, event, outcome)
    ensures outcome == Invalid ==> id !in l.state.txs
  {
    RunInvariant(l.states, l.actions, |l.actions|);
    assert TxFits(l.state.calls[id], l.state.txs, id, id in l.state.misled);
    OutcomeMeansRows(l.state, id);
  }

  // ---- the Go client ----

  /** The three statements of the transaction, and what each failure is reported as. */
  method Transact(l: Server, id: CallId, event: Event) returns (outcome: Outcome)
    requires l.At(id, GoClient, event, Connect)
    modifies l
    ensures l.Proceeded() && l.At(id, GoClient, event, Returned(outcome)) && outcome != Invalid
    ensures !l.faulty ==> outcome == Succeeded && id !in l.state.misled
  {
    var ok := l.Open(id, GoClient, event);
    if !ok {
      return NotCommitted;
    }
    ok := l.InsertRow(id, GoClient, event);
    if !ok {
      l.Release(id);
      return NotCommitted;
    }
    var result := l.CommitTx(id, GoClient, event);
    match result {
      case Told(answer) => outcome := Classify(GoClient, answer);
      case NotSent(known) => outcome := if known then NotCommitted else Unknown;
    }
  }

  /**
   The outcome Append reports is the run's: a success has exactly its row, an unknown outcome at most that, and a
   non-commit none, unless the wording of the answer to its COMMIT hid the end of the session.
   */
  method Append(l: Server, id: CallId, event: Event) returns (outcome: Outcome)
    requires l.Valid() && id !in l.state.calls
    modifies l
    ensures l.Continued() && l.At(id, GoClient, event, Returned(outcome))
    ensures outcome == Invalid <==> !Valid(event)
    ensures !l.faulty && Valid(event) ==> outcome == Succeeded && id !in l.state.misled
    ensures outcome == Invalid ==> id !in l.state.txs
    ensures Truthful(l.state, id, GoClient, event, outcome)
    ensures outcome == Succeeded ==> RowsOf(l.state, id) == 1 && HasEventRow(l.state, id, event)
  {
    var valid := Valid(event);
    l.Start(id, GoClient, event, valid);
    outcome := Invalid;
    if valid {
      outcome := Transact(l, id, event);
    }
    ReturnedTruthful(l, id, GoClient, event, outcome);
  }

  // ---- the Python client ----

  method PythonCommit(l: Server, id: CallId, event: Event) returns (outcome: Outcome)
    requires l.At(id, PythonClient, event, Commit)
    modifies l
    ensures l.Proceeded() && l.At(id, PythonClient, event, Returned(outcome)) && outcome != Invalid
    ensures !l.faulty && old(l.NotAborted(id)) ==> outcome == Succeeded && id !in l.state.misled
  {
    var result := l.CommitTx(id, PythonClient, event);
    match result {
      case Told(answer) => outcome := Classify(PythonClient, answer);
      case NotSent(_) => outcome := Unknown;
    }
  }

  /** The same transaction; the connection is closed on every path. */
  method PythonTransact(l: Server, id: CallId, event: Event) returns (outcome: Outcome)
    requires l.At(id, PythonClient, event, Connect)
    modifies l
    ensures l.Proceeded() && l.At(id, PythonClient, event, Returned(outcome)) && outcome != Invalid
    ensures !l.faulty ==> outcome == Succeeded && id !in l.state.misled
  {
    var ok := l.Open(id, PythonClient, event);
    if !ok {
      return NotCommitted;
    }
    ok := l.InsertRow(id, PythonClient, event);
    outcome := NotCommitted;
    if ok {
      outcome := PythonCommit(l, id, event);
    }
    l.Release(id);
  }

  /** The event a Python caller's code points denote, once they are known to encode. */
  function PythonEvent(eventType: seq<CodePoint>): Event {
    Other(if Encodable(eventType) then Encode(Scalars(eventType)) else [])
  }

  /** It is those code points: their bytes decode to them, and pass the Go rule and both CHECK constraints. */
  lemma PythonEventIsText(eventType: seq<CodePoint>)
    requires PythonVerdict(eventType) == Accepted
    ensures SaysText(PythonEvent(eventType), eventType)
  {
    RulesAgree(eventType);
    DecodeEncode(eventType);
  }

  predicate SaysText(event: Event, text: seq<CodePoint>) {
    && event.Other? && Decode(event.eventType).Some? && Decode(event.eventType).value == text
    && GoVerdict(event.eventType) == Accepted && Encodable(text)
    && NonblankCheck(Scalars(text)) && MaxBytesCheck(Scalars(text))
  }

  /** A success has one row, whose event type is the caller's text; each other outcome says what Append's does. */
  method AppendEvent(l: Server, id: CallId, eventType: seq<CodePoint>) returns (outcome: Outcome)
    requires l.Valid() && id !in l.state.calls
    modifies l
    ensures l.Continued() && l.At(id, PythonClient, PythonEvent(eventType), Returned(outcome))
    ensures outcome == Invalid <==> PythonVerdict(eventType) != Accepted
    ensures !l.faulty && PythonVerdict(eventType) == Accepted ==> outcome == Succeeded && id !in l.state.misled
    ensures outcome == Invalid ==> id !in l.state.txs
    ensures Truthful(l.state, id, PythonClient, PythonEvent(eventType), outcome)
    ensures outcome != Invalid ==> SaysText(l.state.calls[id].event, eventType)
    ensures outcome == Succeeded && id !in l.state.misled ==>
              exists i :: 0 <= i < |l.state.rows| && l.state.rows[i].call == id
                          && SaysText(l.state.rows[i].event, eventType)
                          && Decode(l.state.rows[i].event.eventType).value == eventType
  {
    var valid := PythonVerdict(eventType) == Accepted;
    l.Start(id, PythonClient, PythonEvent(eventType), valid);
    outcome := Invalid;
    if valid {
      PythonEventIsText(eventType);
      outcome := PythonTransact(l, id, PythonEvent(eventType));
    }
    ReturnedTruthful(l, id, PythonClient, PythonEvent(eventType), outcome);
  }
}
