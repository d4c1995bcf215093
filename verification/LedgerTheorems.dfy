/** What a reported append outcome means, over every run of the ledger machine. */
module LedgerTheorems {
  import opened Ledger

  // ---- classification against the wording ----

  /**
   Which server errors each client takes for a confirmed non-commit, by the characters it sees: no teardown severity, an
   SQLSTATE outside class 08 that is not 57P01 to 57P03, and for the Python client one at all. All others, and a
   silence, leave the outcome unknown.
   */
  lemma NotCommittedIff(client: Client, level: Level, severity: string, code: string)
    ensures var outcome := Classify(client, ServerError(level, severity, code));
      && (outcome == NotCommitted <==>
            && severity != "FATAL" && severity != "PANIC"
            && !(|code| >= 2 && code[0] == '0' && code[1] == '8')
            && code != "57P01" && code != "57P02" && code != "57P03"
            && (client.PythonClient? ==> code != ""))
      && (outcome == NotCommitted || outcome == Unknown)
    ensures Classify(client, Silence) == Unknown && Classify(client, CommandCommit) == Succeeded
  {
    if |code| >= 2 {
      assert code[..2] == [code[0], code[1]];
    }
  }

  /** The action that ends a call, and what the call then returns: a COMMIT is the only source of a doubt. */
  predicate Ends<E>(a: Action<E>, id: CallId, client: Client, outcome: Outcome) {
    match a
    case Begin(x, _, _, valid) => x == id && !valid && outcome == Invalid
    case Connected(x, ok) => x == id && !ok && outcome == NotCommitted
    case Inserted(x, ok, _) => x == id && !ok && outcome == NotCommitted
    case CommitNotSent(x, known) => x == id && outcome == if known then NotCommitted else Unknown
    case Answered(x, answer) => x == id && outcome == Classify(client, answer)
    case _ => false
  }

  ghost predicate HasEnded<E(!new)>(actions: seq<Action<E>>, k: nat, id: CallId, client: Client, outcome: Outcome)
    requires k <= |actions|
  {
    exists m :: 0 <= m < k && Ends(actions[m], id, client, outcome)
  }

  /** One action makes a call return an outcome exactly if it ends it so. */
  lemma EndStep<E(!new)>(s: State<E>, a: Action<E>, s': State<E>, id: CallId, outcome: Outcome)
    requires Inv(s) && Next(s, a, s') && id in s'.calls
    ensures s'.calls[id].stage == Returned(outcome) <==>
              (id in s.calls && s.calls[id].stage == Returned(outcome)) || Ends(a, id, s'.calls[id].client, outcome)
    ensures id in s.calls ==> s'.calls[id].client == s.calls[id].client
  {
  }

  lemma EndsAdded<E(!new)>(actions: seq<Action<E>>, k: nat, id: CallId, client: Client, outcome: Outcome)
    requires k < |actions|
    ensures HasEnded(actions, k + 1, id, client, outcome) <==>
              HasEnded(actions, k, id, client, outcome) || Ends(actions[k], id, client, outcome)
  {
    if HasEnded(actions, k, id, client, outcome) {
      var m :| 0 <= m < k && Ends(actions[m], id, client, outcome);
      assert Ends(actions[m], id, client, outcome) && m < k + 1;
    }
  }

  /** No action ends a call before it begins. */
  lemma {:induction false} NotEndedBefore<E(!new)>(states: seq<State<E>>, actions: seq<Action<E>>, k: nat, id: CallId, client: Client, outcome: Outcome)
    requires IsRun(states, actions) && Init(states[0]) && k <= |actions| && id !in states[k].calls
    ensures !HasEnded(actions, k, id, client, outcome)
  {
    if k > 0 {
      assert Next(states[k - 1], actions[k - 1], states[k]);
      NotEndedBefore(states, actions, k - 1, id, client, outcome);
      EndsAdded(actions, k - 1, id, client, outcome);
    }
  }

  /**
   Over any run: what an append returns is what the one action that ended it stands for. A connection or an INSERT that
   failed is a confirmed non-commit, and so is a COMMIT that was certainly not sent; otherwise the answer decides.
   */
  lemma {:induction false} ReturnedIff<E(!new)>(states: seq<State<E>>, actions: seq<Action<E>>, k: nat, id: CallId, outcome: Outcome)
    requires IsRun(states, actions) && Init(states[0]) && k <= |actions| && id in states[k].calls
    ensures states[k].calls[id].stage == Returned(outcome) <==>
              HasEnded(actions, k, id, states[k].calls[id].client, outcome)
  {
    if k > 0 {
      var client := states[k].calls[id].client;
      RunInvariant(states, actions, k - 1);
      assert Next(states[k - 1], actions[k - 1], states[k]);
      EndStep(states[k - 1], actions[k - 1], states[k], id, outcome);
      EndsAdded(actions, k - 1, id, client, outcome);
      if id in states[k - 1].calls {
        ReturnedIff(states, actions, k - 1, id, outcome);
      } else {
        NotEndedBefore(states, actions, k - 1, id, client, outcome);
      }
    }
  }

  // ---- classification against the environment ----

  /** A reported non-commit is right about every transaction the answer can come from. */
  ghost predicate Sound<E(!new)>(outcome: Outcome, answer: Answer) {
    outcome == NotCommitted ==> forall tx: Tx<E> :: MayAnswer(answer, tx) ==> tx.Aborted?
  }

  /** What the Go client makes of an answer is sound exactly if the end of a session or server shows in its wording. */
  lemma GoSoundIff<E(!new)>(answer: Answer, event: E)
    requires !answer.CommandCommit?
    ensures Sound<E>(ClassifyGo(answer), answer) <==> Plain(GoClient, answer)
  {
    if !Plain(GoClient, answer) {
      assert MayAnswer(answer, Committed(event));
    }
  }

  /**
   Where it is needlessly careful: the answers that only an aborted transaction can get, and that it still reports
   as unknown, are the failed statements with a teardown's SQLSTATE or its severity.
   */
  lemma GoCautiousIff<E>(answer: Answer, event: E)
    requires !answer.CommandCommit?
    ensures ClassifyGo(answer) == Unknown && !MayAnswer(answer, Committed(event)) <==>
              answer.ServerError? && answer.level == Error
              && (|| (|answer.code| >= 2 && answer.code[0] == '0' && answer.code[1] == '8')
                  || answer.code in {"57P01", "57P02", "57P03"} || answer.severity in {"FATAL", "PANIC"})
  {
  }

  /** The same for the Python client, where a ROLLBACK tag counts as a success. */
  lemma PythonSoundIff<E(!new)>(answer: Answer, event: E)
    ensures Plain(PythonClient, answer) <==>
              && Sound<E>(Classify(PythonClient, answer), answer)
              && (Classify(PythonClient, answer) == Succeeded ==> !MayAnswer<E>(answer, Aborted))
  {
    if answer.ServerError? && !Plain(PythonClient, answer) {
      assert MayAnswer(answer, Committed(event));
    }
  }

  /**
   The Python client differs on two kinds of answer: a ROLLBACK tag, and a server error without an SQLSTATE that does
   not announce a teardown by its severity, where it errs towards unknown.
   */
  lemma PythonDiffersIff(answer: Answer)
    ensures Classify(PythonClient, answer) != Classify(GoClient, answer) <==>
              answer.CommandRollback?
              || (answer.ServerError? && answer.code == "" && answer.severity != "FATAL" && answer.severity != "PANIC")
    ensures Classify(PythonClient, answer) != Classify(GoClient, answer) ==>
              Classify(PythonClient, answer) == if answer.CommandRollback? then Succeeded else Unknown
  {
  }

  // ---- soundness of reported outcomes ----

  function RowsOf<E>(s: State<E>, id: CallId): (n: nat) {
    CountRows(s.rows, id)
  }

  function CountRows<E>(rows: seq<Row<E>>, id: CallId): nat {
    if rows == [] then 0 else (if rows[0].call == id then 1 else 0) + CountRows(rows[1..], id)
  }

  lemma {:induction false} NoRows<E>(rows: seq<Row<E>>, id: CallId)
    requires forall i :: 0 <= i < |rows| ==> rows[i].call != id
    ensures CountRows(rows, id) == 0
  {
    if rows != [] {
      NoRows(rows[1..], id);
    }
  }

  lemma {:induction false} OneRow<E>(rows: seq<Row<E>>, id: CallId, n: nat)
    requires n < |rows| && rows[n].call == id
    requires forall i, j :: 0 <= i < j < |rows| ==> rows[i].call != rows[j].call
    ensures CountRows(rows, id) == 1
  {
    if n == 0 {
      NoRows(rows[1..], id);
    } else {
      assert rows[0].call != rows[n].call;
      OneRow(rows[1..], id, n - 1);
    }
  }

  lemma ReturnedStays<E(!new)>(s: State<E>, a: Action<E>, s': State<E>, id: CallId)
    requires Next(s, a, s') && id in s.calls && s.calls[id].stage.Returned?
    ensures id in s'.calls && s'.calls[id] == s.calls[id]
  {
  }

  lemma {:induction false} CallStays<E(!new)>(states: seq<State<E>>, actions: seq<Action<E>>, k: nat, j: nat, id: CallId)
    requires IsRun(states, actions) && k <= j <= |actions|
    requires id in states[k].calls && states[k].calls[id].stage.Returned?
    ensures id in states[j].calls && states[j].calls[id] == states[k].calls[id]
  {
    if k < j {
      CallStays(states, actions, k, j - 1, id);
      ReturnedStays(states[j - 1], actions[j - 1], states[j], id);
    }
  }

  ghost predicate HasEventRow<E(!new)>(s: State<E>, id: CallId, event: E) {
    exists i :: 0 <= i < |s.rows| && s.rows[i] == Row(id, event)
  }

  /** A success that is not one: a Python call answered with a ROLLBACK tag. */
  predicate Tagged<E>(s: State<E>, id: CallId) {
    id in s.calls && s.calls[id].stage == Returned(Succeeded) && s.calls[id].client.PythonClient? && id in s.misled
  }

  lemma OutcomeMeansRows<E(!new)>(s: State<E>, id: CallId)
    requires Inv(s) && id in s.calls
    ensures s.calls[id].stage == Returned(Succeeded) ==>
              if Tagged(s, id) then RowsOf(s, id) == 0 else RowsOf(s, id) == 1 && HasEventRow(s, id, s.calls[id].event)
    ensures id !in s.misled && s.calls[id].stage == Returned(NotCommitted) ==> RowsOf(s, id) == 0
    ensures s.calls[id].stage == Returned(Invalid) ==> RowsOf(s, id) == 0
    ensures RowsOf(s, id) <= 1
    ensures RowsOf(s, id) == 1 <==> id in s.txs && s.txs[id].Committed?
  {
    assert TxFits(s.calls[id], s.txs, id, id in s.misled);
    if HasRow(s, id) {
      var i :| 0 <= i < |s.rows| && s.rows[i].call == id;
      OneRow(s.rows, id, i);
      assert s.rows[i] == Row(id, s.txs[id].event);
    } else {
      NoRows(s.rows, id);
    }
  }

  lemma MisledStays<E(!new)>(s: State<E>, a: Action<E>, s': State<E>, id: CallId)
    requires Next(s, a, s') && id in s.calls && s.calls[id].stage.Returned?
    ensures id in s'.misled <==> id in s.misled
  {
  }

  lemma {:induction false} MisledSettled<E(!new)>(states: seq<State<E>>, actions: seq<Action<E>>, k: nat, j: nat, id: CallId)
    requires IsRun(states, actions) && k <= j <= |actions|
    requires id in states[k].calls && states[k].calls[id].stage.Returned?
    ensures id in states[j].misled <==> id in states[k].misled
  {
    if k < j {
      MisledSettled(states, actions, k, j - 1, id);
      CallStays(states, actions, k, j - 1, id);
      MisledStays(states[j - 1], actions[j - 1], states[j], id);
    }
  }

  /**
   From the moment an append returns: success means exactly one row, carrying its event, for ever; a confirmed
   non-commit or a failed validation means no row, now or ever. For the Go client a success is so without condition,
   for the Python client unless its COMMIT was answered with a ROLLBACK tag; a non-commit is so for each client unless
   the wording of the answer hid the end of the session. No append ever has more than one row.
   */
  lemma OutcomeSound<E(!new)>(states: seq<State<E>>, actions: seq<Action<E>>, k: nat, j: nat, id: CallId)
    requires IsRun(states, actions) && Init(states[0]) && k <= j <= |actions|
    requires id in states[k].calls && states[k].calls[id].stage.Returned?
    ensures var call := states[k].calls[id]; var rows := RowsOf(states[j], id);
      && (call.stage.outcome == Succeeded ==>
            if Tagged(states[k], id) then rows == 0 else rows == 1 && HasEventRow(states[j], id, call.event))
      && (call.stage.outcome == Succeeded && call.client.GoClient? ==> !Tagged(states[k], id))
      && (call.stage.outcome == NotCommitted && id !in states[k].misled ==> rows == 0)
      && (call.stage.outcome == Invalid ==> rows == 0)
      && rows <= 1
  {
    CallStays(states, actions, k, j, id);
    MisledSettled(states, actions, k, j, id);
    RunInvariant(states, actions, j);
    OutcomeMeansRows(states[j], id);
  }

  // ---- calls that were misled ----

  ghost predicate WasAnswered<E(!new)>(actions: seq<Action<E>>, k: nat, id: CallId, answer: Answer)
    requires k <= |actions|
  {
    exists m :: 0 <= m < k && actions[m] == Answered(id, answer)
  }

  /** The tagged calls are exactly the Python calls that a ROLLBACK tag has answered. */
  lemma {:induction false} TaggedIff<E(!new)>(states: seq<State<E>>, actions: seq<Action<E>>, k: nat, id: CallId)
    requires IsRun(states, actions) && Init(states[0]) && k <= |actions|
    ensures Tagged(states[k], id) <==>
              id in states[k].calls && states[k].calls[id].client.PythonClient? && WasAnswered(actions, k, id, CommandRollback)
    ensures WasAnswered(actions, k, id, CommandRollback) ==> id in states[k].calls && states[k].calls[id].stage.Returned?
  {
    if k > 0 {
      TaggedIff(states, actions, k - 1, id);
      RunInvariant(states, actions, k - 1);
      var a := actions[k - 1];
      assert Next(states[k - 1], a, states[k]);
      TagStep(states[k - 1], a, states[k], id);
      if WasAnswered(actions, k - 1, id, CommandRollback) {
        var m :| 0 <= m < k - 1 && actions[m] == Answered(id, CommandRollback);
        assert WasAnswered(actions, k, id, CommandRollback);
      }
    }
  }

  /** One action makes a call tagged exactly if it answers it with the tag. */
  lemma TagStep<E(!new)>(s: State<E>, a: Action<E>, s': State<E>, id: CallId)
    requires Inv(s) && Next(s, a, s')
    ensures Tagged(s', id) <==> Tagged(s, id) || (a == Answered(id, CommandRollback) && s'.calls[id].client.PythonClient?)
    ensures a == Answered(id, CommandRollback) ==> id in s.calls && id in s'.calls && s'.calls[id].stage.Returned?
    ensures id in s.calls ==> id in s'.calls && s'.calls[id].client == s.calls[id].client
    ensures id in s.calls && s.calls[id].stage.Returned? ==> s'.calls[id].stage.Returned?
  {
  }

  /** The severity is the untranslated name of the level. */
  predicate Worded(answer: Answer) {
    answer.ServerError? ==> answer.severity == (match answer.level case Error => "ERROR" case Fatal => "FATAL" case Panic => "PANIC")
  }

  /** The server words every severity untranslated, and no Python client gets a ROLLBACK tag. */
  ghost predicate WellWorded<E(!new)>(states: seq<State<E>>, actions: seq<Action<E>>)
    requires |states| == |actions| + 1
  {
    forall k :: 0 <= k < |actions| && actions[k].Answered? ==> ReadableBy(states[k], actions[k].id, actions[k].answer)
  }

  predicate ReadableBy<E>(s: State<E>, id: CallId, answer: Answer) {
    Worded(answer) && (id in s.calls && s.calls[id].client.PythonClient? ==> !answer.CommandRollback?)
  }

  /** With such a server nobody is ever misled. */
  lemma {:induction false} NobodyMisled<E(!new)>(states: seq<State<E>>, actions: seq<Action<E>>, k: nat)
    requires IsRun(states, actions) && Init(states[0]) && k <= |actions| && WellWorded(states, actions)
    ensures states[k].misled == {}
  {
    if k > 0 {
      NobodyMisled(states, actions, k - 1);
      assert Next(states[k - 1], actions[k - 1], states[k]);
    }
  }

  /**
   What the source promises, of such a server: success means exactly one row with its event, not_committed and a failed
   validation none, for ever, and successes <= rows <= successes + unknowns + calls pending or killed.
   */
  lemma PromisesKept<E(!new)>(states: seq<State<E>>, actions: seq<Action<E>>, k: nat, j: nat, id: CallId)
    requires IsRun(states, actions) && Init(states[0]) && k <= j <= |actions| && WellWorded(states, actions)
    ensures id in states[k].calls && states[k].calls[id].stage.Returned? ==>
              match states[k].calls[id].stage.outcome
              case Succeeded => RowsOf(states[j], id) == 1 && HasEventRow(states[j], id, states[k].calls[id].event)
              case Unknown => RowsOf(states[j], id) <= 1
              case _ => RowsOf(states[j], id) == 0
    ensures var s := states[j];
      |WithOutcome(s, Succeeded)| <= |s.rows| <= |WithOutcome(s, Succeeded)| + |WithOutcome(s, Unknown)| + |Unfinished(s)|
  {
    NobodyMisled(states, actions, k);
    NobodyMisled(states, actions, j);
    if id in states[k].calls && states[k].calls[id].stage.Returned? {
      OutcomeSound(states, actions, k, j, id);
    }
    Conservation(states, actions, j);
    assert TaggedCalls(states[j]) == {} && Misreported(states[j]) == {};
  }

  /** A call of either client up to the COMMIT, in flight. */
  function InFlight<E>(client: Client, event: E, id: CallId): State<E> {
    State(map[id := Call(client, event, Await)], map[id := CommitRequested(event)], [], {})
  }

  lemma ReachInFlight<E(!new)>(client: Client, event: E, id: CallId) returns (states: seq<State<E>>, actions: seq<Action<E>>)
    ensures IsRun(states, actions) && Init(states[0]) && states[|actions|] == InFlight(client, event, id)
  {
    var s: State<E> := State(map[], map[], [], {});
    var begun := s.(calls := map[id := Call(client, event, Connect)]);
    var connected := Move(begun, id, Insert);
    var inserted := Move(connected, id, Commit).(txs := map[id := Open(event)]);
    states, actions := [s], [];
    states, actions := Grown(states, actions, Begin(id, client, event, true), begun);
    states, actions := Grown(states, actions, Connected(id, true), connected);
    states, actions := Grown(states, actions, Inserted(id, true, true), inserted);
    states, actions := Grown(states, actions, SendCommit(id), InFlight(client, event, id));
  }

  lemma Grown<E(!new)>(states: seq<State<E>>, actions: seq<Action<E>>, a: Action<E>, s': State<E>)
    returns (more: seq<State<E>>, acts: seq<Action<E>>)
    requires IsRun(states, actions) && Next(states[|actions|], a, s')
    ensures IsRun(more, acts) && more[0] == states[0] && more[|acts|] == s' && acts == actions + [a]
  {
    more, acts := states + [s'], actions + [a];
  }

  ghost predicate EndsAnswered<E(!new)>(states: seq<State<E>>, actions: seq<Action<E>>, answer: Answer, id: CallId, call: Call<E>, rows: seq<Row<E>>) {
    && IsRun(states, actions) && Init(states[0]) && |actions| > 0 && actions[|actions| - 1] == Answered(id, answer)
    && states[|actions|].calls == map[id := call] && states[|actions|].rows == rows
  }

  /** There is a run of this one call that ends with this answer, the ledger holding these rows. */
  ghost predicate Possible<E(!new)>(client: Client, answer: Answer, event: E, id: CallId, rows: seq<Row<E>>) {
    exists states: seq<State<E>>, actions: seq<Action<E>> ::
      EndsAnswered(states, actions, answer, id, Call(client, event, Returned(Classify(client, answer))), rows)
  }

  lemma ReachAnswered<E(!new)>(client: Client, answer: Answer, event: E, id: CallId, decision: Tx<E>)
    requires decision == Committed(event) || decision == Aborted
    requires MayAnswer(answer, decision)
    ensures Possible(client, answer, event, id, if decision == Aborted then [] else [Row(id, event)])
  {
    var states, actions := ReachInFlight(client, event, id);
    var s := InFlight(client, event, id);
    if decision == Aborted {
      s := s.(txs := map[id := Aborted]);
      states, actions := Grown(states, actions, ServerAborts(id), s);
    } else {
      s := s.(txs := map[id := decision], rows := [Row(id, event)]);
      states, actions := Grown(states, actions, ServerCommits(id), s);
    }
    var last := Move(s.(misled := if Plain(client, answer) then {} else {id}), id, Returned(Classify(client, answer)));
    states, actions := Grown(states, actions, Answered(id, answer), last);
    var call := Call(client, event, Returned(Classify(client, answer)));
    assert last.calls == map[id := call];
    assert EndsAnswered(states, actions, answer, id, call, if decision == Aborted then [] else [Row(id, event)]);
  }

  /** An answer can follow a commit exactly if the environment rule lets it. */
  lemma PossibleIff<E(!new)>(client: Client, answer: Answer, event: E, id: CallId)
    ensures Possible(client, answer, event, id, [Row(id, event)]) <==> MayAnswer(answer, Committed(event))
    ensures Possible(client, answer, event, id, []) <==> MayAnswer<E>(answer, Aborted)
  {
    if MayAnswer(answer, Committed(event)) {
      ReachAnswered(client, answer, event, id, Committed(event));
    }
    if MayAnswer<E>(answer, Aborted) {
      ReachAnswered(client, answer, event, id, Aborted);
    }
    var call := Call(client, event, Returned(Classify(client, answer)));
    forall states: seq<State<E>>, actions: seq<Action<E>>, rows: seq<Row<E>> |
      EndsAnswered(states, actions, answer, id, call, rows) && (rows == [Row(id, event)] || rows == [])
      ensures MayAnswer(answer, Committed(event)) || rows == []
      ensures MayAnswer<E>(answer, Aborted) || rows != []
    {
      AnsweredFrom(states, actions, answer, id, call, rows);
    }
  }

  /** The transaction an answered call left behind is one that the answer may come from. */
  lemma AnsweredFrom<E(!new)>(states: seq<State<E>>, actions: seq<Action<E>>, answer: Answer, id: CallId, call: Call<E>, rows: seq<Row<E>>)
    requires EndsAnswered(states, actions, answer, id, call, rows)
    ensures id in states[|actions|].txs && MayAnswer(answer, states[|actions|].txs[id])
    ensures states[|actions|].txs[id] in {CommitRequested(call.event), Committed(call.event), Aborted}
    ensures rows == [Row(id, call.event)] ==> states[|actions|].txs[id].Committed?
    ensures rows == [] ==> !states[|actions|].txs[id].Committed?
  {
    var n := |actions|;
    RunInvariant(states, actions, n);
    RunInvariant(states, actions, n - 1);
    assert Next(states[n - 1], actions[n - 1], states[n]);
    assert TxFits(states[n - 1].calls[id], states[n - 1].txs, id, id in states[n - 1].misled);
    OutcomeMeansRows(states[n], id);
    if rows == [Row(id, call.event)] {
      OneRow(rows, id, 0);
    }
  }

  /**
   What a reported non-commit is worth, over runs: some run gets that report and has the row exactly if the answer's
   wording hides the end of a session or of the server.
   */
  lemma MisreportedIff<E(!new)>(answer: Answer, event: E, id: CallId)
    requires !answer.CommandCommit?
    ensures ClassifyGo(answer) == NotCommitted && Possible(GoClient, answer, event, id, [Row(id, event)]) <==>
              !Plain(GoClient, answer)
  {
    PossibleIff(GoClient, answer, event, id);
  }

  /**
   Unknown is all that can be said: an answer after which one run has the row and another has not, is reported as
   unknown if it is plain; and a plain answer is reported so only then, or where GoCautiousIff says.
   */
  lemma UnknownIsInconclusive<E(!new)>(answer: Answer, event: E, id: CallId)
    requires !answer.CommandCommit? && Plain(GoClient, answer)
    ensures var both := Possible(GoClient, answer, event, id, [Row(id, event)]) && Possible(GoClient, answer, event, id, []);
      && (both ==> ClassifyGo(answer) == Unknown)
      && (ClassifyGo(answer) == Unknown ==> both || (answer.ServerError? && answer.level == Error))
  {
    PossibleIff(GoClient, answer, event, id);
  }

  /** A ROLLBACK tag makes the Python client report a success without a row; to the Go client it is a non-commit. */
  lemma PythonTrustsRollbackTag<E(!new)>(event: E, id: CallId)
    ensures Classify(PythonClient, CommandRollback) == Succeeded && Possible(PythonClient, CommandRollback, event, id, [])
    ensures Classify(GoClient, CommandRollback) == NotCommitted
  {
    ReachAnswered(PythonClient, CommandRollback, event, id, Aborted);
  }

  /** The ledger is append-only. */
  lemma {:induction false} AppendOnly<E(!new)>(states: seq<State<E>>, actions: seq<Action<E>>, k: nat, j: nat)
    requires IsRun(states, actions) && k <= j <= |actions|
    ensures states[k].rows <= states[j].rows
  {
    if k < j {
      AppendOnly(states, actions, k, j - 1);
      assert Next(states[j - 1], actions[j - 1], states[j]);
    }
  }

  // ---- conservation ----

  function WithOutcome<E>(s: State<E>, outcome: Outcome): set<CallId> {
    set id | id in s.calls && s.calls[id].stage == Returned(outcome)
  }

  function Unfinished<E>(s: State<E>): set<CallId> {
    set id | id in s.calls && !s.calls[id].stage.Returned?
  }

  function RowIds<E>(rows: seq<Row<E>>): set<CallId> {
    set i | 0 <= i < |rows| :: rows[i].call
  }

  lemma {:induction false} RowIdsCount<E>(rows: seq<Row<E>>)
    requires forall i, j :: 0 <= i < j < |rows| ==> rows[i].call != rows[j].call
    ensures |RowIds(rows)| == |rows|
  {
    if rows != [] {
      var init := rows[..|rows| - 1];
      RowIdsCount(init);
      var last := rows[|rows| - 1].call;
      assert last !in RowIds(init);
      assert RowIds(rows) == RowIds(init) + {last} by {
        forall id | id in RowIds(rows)
          ensures id in RowIds(init) + {last}
        {
          var i :| 0 <= i < |rows| && rows[i].call == id;
          if i < |rows| - 1 {
            assert init[i].call == id;
          }
        }
      }
    }
  }

  lemma CardinalityMonotone(a: set<CallId>, b: set<CallId>)
    requires a <= b
    ensures |a| <= |b|
  {
    assert b == a + (b - a);
    assert |b| == |a| + |b - a|;
  }

  function TaggedCalls<E>(s: State<E>): set<CallId> {
    set id | id in s.calls && Tagged(s, id)
  }

  /** Told of a non-commit by an answer whose wording hid the end of the session or of the server. */
  function Misreported<E>(s: State<E>): set<CallId> {
    set id | id in s.calls && s.calls[id].stage == Returned(NotCommitted) && id in s.misled
  }

  /**
   Rows never outnumber the calls that may have committed, nor fall short of the reported successes: of these only
   Python calls answered with a ROLLBACK tag are excepted, of those only calls whose answer hid the end of a session.
   */
  lemma Conservation<E(!new)>(states: seq<State<E>>, actions: seq<Action<E>>, k: nat)
    requires IsRun(states, actions) && Init(states[0]) && k <= |actions|
    ensures var s := states[k];
      && |WithOutcome(s, Succeeded)| <= |s.rows| + |TaggedCalls(s)|
      && |s.rows| <= |WithOutcome(s, Succeeded)| + |WithOutcome(s, Unknown)| + |Unfinished(s)| + |Misreported(s)|
  {
    var s := states[k];
    RunInvariant(states, actions, k);
    RowIdsCount(s.rows);
    var successes, unknowns, unfinished := WithOutcome(s, Succeeded), WithOutcome(s, Unknown), Unfinished(s);
    SuccessesHaveRows(s);
    RowsAreAccounted(s);
    CardinalityMonotone(successes, RowIds(s.rows) + TaggedCalls(s));
    CardinalityMonotone(RowIds(s.rows), successes + unknowns + unfinished + Misreported(s));
    CardinalityOfUnion(RowIds(s.rows), TaggedCalls(s));
    CardinalityOfUnion(successes, unknowns);
    CardinalityOfUnion(successes + unknowns, unfinished);
    CardinalityOfUnion(successes + unknowns + unfinished, Misreported(s));
  }

  lemma CardinalityOfUnion(a: set<CallId>, b: set<CallId>)
    ensures |a + b| <= |a| + |b|
  {
  }

  lemma SuccessesHaveRows<E(!new)>(s: State<E>)
    requires Inv(s)
    ensures WithOutcome(s, Succeeded) <= RowIds(s.rows) + TaggedCalls(s)
  {
    forall id | id in WithOutcome(s, Succeeded)
      ensures id in RowIds(s.rows) + TaggedCalls(s)
    {
      assert TxFits(s.calls[id], s.txs, id, id in s.misled);
      if id !in s.misled {
        var i :| 0 <= i < |s.rows| && s.rows[i].call == id;
        assert s.rows[i].call in RowIds(s.rows);
      }
    }
  }

  lemma RowsAreAccounted<E(!new)>(s: State<E>)
    requires Inv(s)
    ensures RowIds(s.rows) <= WithOutcome(s, Succeeded) + WithOutcome(s, Unknown) + Unfinished(s) + Misreported(s)
  {
    forall id | id in RowIds(s.rows)
      ensures id in WithOutcome(s, Succeeded) + WithOutcome(s, Unknown) + Unfinished(s) + Misreported(s)
    {
      assert TxFits(s.calls[id], s.txs, id, id in s.misled);
    }
  }
}
