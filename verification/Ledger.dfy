/**
 Appending an event: clients drive one transaction each against a server that decides on its own when a
 COMMIT takes effect, and whose answer may be lost. The Go client and the Python client classify a failed
 COMMIT differently; both are here.
 */
module Ledger {

  datatype Client = GoClient | PythonClient

  /** What an error means to the server: a statement failed, the session ends, or the whole server does. */
  datatype Level = Error | Fatal | Panic

  /**
   What a client learns from its COMMIT. Of a server error it sees the severity as text, which the server may have
   translated, and the SQLSTATE; not the level itself.
   */
  datatype Answer =
    | CommandCommit
    | CommandRollback
    | ServerError(level: Level, severity: string, code: string)
    | Silence

  datatype Outcome = Succeeded | NotCommitted | Unknown | Invalid

  // ---- classification ----

  const CONNECTION_EXCEPTION := "08"

  predicate ShutdownCode(code: string) {
    code == "57P01" || code == "57P02" || code == "57P03"
  }

  /** classifyCommitErr. */
  function ClassifyGo(answer: Answer): Outcome
    requires !answer.CommandCommit?
  {
    match answer
    case ServerError(_, severity, code) =>
      if severity == "FATAL" || severity == "PANIC" || CONNECTION_EXCEPTION <= code || ShutdownCode(code)
      then Unknown else NotCommitted
    case CommandRollback => NotCommitted
    case Silence => Unknown
  }

  /** _commit_outcome, for a commit that raised: an error without an SQLSTATE is no evidence either. */
  function ClassifyPython(answer: Answer): Outcome
    requires !answer.CommandCommit? && !answer.CommandRollback?
  {
    match answer
    case ServerError(_, severity, code) =>
      if severity in {"FATAL", "PANIC"} || (code != "" && CONNECTION_EXCEPTION <= code)
         || code in {"57P01", "57P02", "57P03"} || code == ""
      then Unknown else NotCommitted
    case Silence => Unknown
  }

  /** A ROLLBACK tag is an error to the Go driver; to the Python client it is a commit that did not raise. */
  function Classify(client: Client, answer: Answer): Outcome {
    if answer.CommandCommit? || (client.PythonClient? && answer.CommandRollback?) then Succeeded
    else if client.GoClient? then ClassifyGo(answer) else ClassifyPython(answer)
  }

  // ---- what the server's answers are evidence of ----

  /**
   The environment rule. COMMIT is acknowledged only once it took effect; a ROLLBACK tag, or an error of a
   statement, is sent only once the transaction has aborted; the end of a session or of the server, or silence, may
   follow anything. It speaks of what the server means, not of how it words it.
   */
  predicate MayAnswer<E>(answer: Answer, tx: Tx<E>) {
    match answer
    case CommandCommit => tx.Committed?
    case CommandRollback => tx.Aborted?
    case ServerError(level, _, _) => level == Error ==> tx.Aborted?
    case Silence => true
  }

  /**
   What each client needs of the wording: the end of a session or of the server shows, by a severity that is not
   translated or by its SQLSTATE; and no ROLLBACK tag for the Python client.
   */
  predicate Plain(client: Client, answer: Answer) {
    match answer
    case ServerError(level, severity, code) =>
      level != Error ==>
        || severity == "FATAL" || severity == "PANIC"
        || (|code| >= 2 && code[0] == '0' && code[1] == '8') || code in {"57P01", "57P02", "57P03"}
        || (client.PythonClient? && code == "")
    case CommandRollback => client.GoClient?
    case _ => true
  }

  // ---- the machine ----

  type CallId = nat

  /** The next thing a call does. */
  datatype Stage = Connect | Insert | Commit | Await | Returned(outcome: Outcome) | Killed

  datatype Call<E> = Call(client: Client, event: E, stage: Stage)

  /** A transaction as the server knows it. */
  datatype Tx<E> = Open(event: E) | CommitRequested(event: E) | Committed(event: E) | Aborted

  datatype Row<E> = Row(call: CallId, event: E)

  /**
   `rows` is what the run has added to public.events, in commit order; `misled`, history, the calls whose COMMIT was
   answered in a way the client cannot read.
   */
  datatype State<E> = State(calls: map<CallId, Call<E>>, txs: map<CallId, Tx<E>>, rows: seq<Row<E>>, misled: set<CallId>)

  datatype Action<E> =
    | Begin(id: CallId, client: Client, event: E, valid: bool)
    | Connected(id: CallId, ok: bool)
    | Inserted(id: CallId, ok: bool, reached: bool)
    | SendCommit(id: CallId)
    | CommitNotSent(id: CallId, known: bool)
    | Answered(id: CallId, answer: Answer)
    | Kill(ids: set<CallId>)
    | ServerCommits(id: CallId)
    | ServerAborts(id: CallId)

  ghost predicate At<E(!new)>(s: State<E>, id: CallId, stage: Stage) {
    id in s.calls && s.calls[id].stage == stage
  }

  function Move<E>(s: State<E>, id: CallId, stage: Stage): State<E>
    requires id in s.calls
  {
    s.(calls := s.calls[id := s.calls[id].(stage := stage)])
  }

  ghost predicate Next<E(!new)>(s: State<E>, a: Action<E>, s': State<E>) {
    match a
    case Begin(id, client, event, valid) =>
      // validation runs before the database is touched
      && id !in s.calls && id !in s.txs
      && s' == s.(calls := s.calls[id := Call(client, event, if valid then Connect else Returned(Invalid))])
    case Connected(id, ok) =>
      && At(s, id, Connect)
      && s' == Move(s, id, if ok then Insert else Returned(NotCommitted))
    case Inserted(id, ok, reached) =>
      // a failing INSERT may or may not have reached the server
      && At(s, id, Insert) && id !in s.txs && (ok ==> reached)
      && s' == Move(if reached then s.(txs := s.txs[id := Open(s.calls[id].event)]) else s, id,
                    if ok then Commit else Returned(NotCommitted))
    case SendCommit(id) =>
      && At(s, id, Commit) && id in s.txs
      && s' == Move(s.(txs := s.txs[id := if s.txs[id].Open? then CommitRequested(s.txs[id].event) else s.txs[id]]),
                    id, Await)
    case CommitNotSent(id, known) =>
      // database/sql reports ErrTxDone without sending anything; any other local failure is a silence
      && At(s, id, Commit) && (known ==> s.calls[id].client.GoClient?)
      && s' == Move(s, id, Returned(if known then NotCommitted else Unknown))
    case Answered(id, answer) =>
      && At(s, id, Await) && id in s.txs && MayAnswer(answer, s.txs[id])
      && s' == Move(s.(misled := if Plain(s.calls[id].client, answer) then s.misled else s.misled + {id}),
                    id, Returned(Classify(s.calls[id].client, answer)))
    case Kill(ids) =>
      // processes die, several at once if their machine crashes
      && (forall id :: id in ids ==> id in s.calls && !s.calls[id].stage.Returned?)
      && s' == s.(calls := map id | id in s.calls :: if id in ids then s.calls[id].(stage := Killed) else s.calls[id])
    case ServerCommits(id) =>
      && id in s.txs && s.txs[id].CommitRequested?
      && s' == s.(txs := s.txs[id := Committed(s.txs[id].event)], rows := s.rows + [Row(id, s.txs[id].event)])
    case ServerAborts(id) =>
      && id in s.txs && (s.txs[id].Open? || s.txs[id].CommitRequested?)
      && s' == s.(txs := s.txs[id := Aborted])
  }

  ghost predicate Init<E(!new)>(s: State<E>) {
    s == State(map[], map[], [], {})
  }

  ghost predicate IsRun<E(!new)>(states: seq<State<E>>, actions: seq<Action<E>>) {
    && |states| == |actions| + 1
    && forall k :: 0 <= k < |actions| ==> Next(states[k], actions[k], states[k + 1])
  }

  // ---- the invariant ----

  /**
   A transaction that can still commit belongs to a call that sent COMMIT and did not learn otherwise, unless it was
   misled: then it was told of a non-commit, or it is a Python call that took a ROLLBACK tag for a success.
   */
  ghost predicate TxFits<E(!new)>(call: Call<E>, txs: map<CallId, Tx<E>>, id: CallId, misled: bool) {
    match call.stage
    case Connect => id !in txs
    case Insert => id !in txs
    case Commit => id in txs && (txs[id] == Open(call.event) || txs[id] == Aborted)
    case Await => id in txs && txs[id] in {CommitRequested(call.event), Committed(call.event), Aborted}
    case Returned(outcome) =>
      if misled then
        && id in txs
        && (match outcome
            case Succeeded => call.client.PythonClient? && txs[id] == Aborted
            case NotCommitted => txs[id] in {CommitRequested(call.event), Committed(call.event), Aborted}
            case _ => false)
      else
        (match outcome
         case Succeeded => id in txs && txs[id] == Committed(call.event)
         case NotCommitted => id in txs ==> txs[id] == Open(call.event) || txs[id] == Aborted
         case Unknown => id in txs && txs[id] in {Open(call.event), CommitRequested(call.event), Committed(call.event), Aborted}
         case Invalid => id !in txs)
    case Killed =>
      id in txs ==> txs[id] in {Open(call.event), CommitRequested(call.event), Committed(call.event), Aborted}
  }

  /** public.events holds one row for each committed transaction and nothing else. */
  ghost predicate RowsFit<E(!new)>(s: State<E>) {
    && (forall i, j :: 0 <= i < j < |s.rows| ==> s.rows[i].call != s.rows[j].call)
    && (forall i :: 0 <= i < |s.rows| ==> s.rows[i].call in s.txs && s.txs[s.rows[i].call] == Committed(s.rows[i].event))
    && (forall id :: id in s.txs && s.txs[id].Committed? ==> HasRow(s, id))
  }

  ghost predicate HasRow<E(!new)>(s: State<E>, id: CallId) {
    exists i :: 0 <= i < |s.rows| && s.rows[i].call == id
  }

  ghost predicate Inv<E(!new)>(s: State<E>) {
    && s.txs.Keys <= s.calls.Keys
    && (forall id :: id in s.misled ==> id in s.calls && s.calls[id].stage.Returned?)
    && (forall id :: id in s.calls ==> TxFits(s.calls[id], s.txs, id, id in s.misled))
    && RowsFit(s)
  }

  lemma ServerCommitKeepsRows<E(!new)>(s: State<E>, id: CallId, s': State<E>)
    requires RowsFit(s) && Next(s, ServerCommits(id), s')
    ensures RowsFit(s')
  {
    forall x | x in s'.txs && s'.txs[x].Committed?
      ensures HasRow(s', x)
    {
      if x == id {
        assert s'.rows[|s.rows|].call == id;
      } else {
        var i :| 0 <= i < |s.rows| && s.rows[i].call == x;
        assert s'.rows[i].call == x;
      }
    }
  }

  lemma OtherActionsKeepRows<E(!new)>(s: State<E>, a: Action<E>, s': State<E>)
    requires RowsFit(s) && s.txs.Keys <= s.calls.Keys && Next(s, a, s') && !a.ServerCommits?
    requires forall id :: id in s.calls ==> TxFits(s.calls[id], s.txs, id, id in s.misled)
    ensures RowsFit(s')
  {
    forall id | id in s'.txs && s'.txs[id].Committed?
      ensures HasRow(s', id)
    {
      assert HasRow(s, id);
    }
  }

  lemma KeepsFits<E(!new)>(s: State<E>, a: Action<E>, s': State<E>, id: CallId)
    requires forall x :: x in s.calls ==> TxFits(s.calls[x], s.txs, x, x in s.misled)
    requires forall x :: x in s.misled ==> x in s.calls && s.calls[x].stage.Returned?
    requires s.txs.Keys <= s.calls.Keys && Next(s, a, s') && id in s'.calls
    ensures TxFits(s'.calls[id], s'.txs, id, id in s'.misled)
  {
    if id in s.calls {
      assert TxFits(s.calls[id], s.txs, id, id in s.misled);
    }
  }

  lemma ActionKeeps<E(!new)>(s: State<E>, a: Action<E>, s': State<E>)
    requires Inv(s) && Next(s, a, s')
    ensures Inv(s')
  {
    forall id | id in s'.calls
      ensures TxFits(s'.calls[id], s'.txs, id, id in s'.misled)
    {
      KeepsFits(s, a, s', id);
    }
    if a.ServerCommits? {
      ServerCommitKeepsRows(s, a.id, s');
    } else {
      OtherActionsKeepRows(s, a, s');
    }
  }

  lemma {:induction false} RunInvariant<E(!new)>(states: seq<State<E>>, actions: seq<Action<E>>, k: nat)
    requires IsRun(states, actions) && Init(states[0]) && k <= |actions|
    ensures Inv(states[k])
  {
    if k > 0 {
      RunInvariant(states, actions, k - 1);
      ActionKeeps(states[k - 1], actions[k - 1], states[k]);
    }
  }
}
