/** The store as the object it is: a connection whose tables every method changes inside one
    transaction, rolled back on an error and lost when the process dies at a fault point. */
module SqliteStore {
  import opened Wrappers
  import opened Operations
  import opened OperationLedger
  import opened RuntimeStore
  import Lifecycle

  /** The stages at which the fault injector can end the process. */
  datatype Stage = CreateAfterEvent | TransitionAfterState | TransitionAfterEvent | AfterPrepare | AfterMutation

  /** What the mutation path relies on: the run exists, and every mutation has its event. */
  lemma StoredOperation(db: Db, id: string)
    requires OperationsOk(db) && id in db.operations
    ensures db.operations[id].ledger.record.intent.runId in db.runs
    ensures db.operations[id].mutationEvents.Keys == db.operations[id].ledger.rows.Keys
  {
    var history :| OperationOk(db, id, history);
  }

  /** A replayed mutation has its event stored. */
  lemma MutateAnswers(row: OperationRow, mutationId: MutationId, call: Call)
    requires row.mutationEvents.Keys == row.ledger.rows.Keys
    ensures var outcome := Mutate(row.ledger, mutationId, call).1;
            outcome.Ok? && !outcome.value.applied ==> mutationId in row.mutationEvents
  {
  }

  /** A call without an answer is one whose process died inside the transaction. */
  function Attempts(calls: seq<StoreCall>, replies: seq<Option<Result<Reply, StoreError>>>): seq<Attempt>
    requires |replies| == |calls|
  {
    seq(|calls|, i requires 0 <= i < |calls| => Attempt(calls[i], replies[i] == None))
  }

  lemma {:induction false} RunAppend(db: Db, attempts: seq<Attempt>, last: Attempt)
    ensures RunAttempts(db, attempts + [last])
         == if last.dies then RunAttempts(db, attempts) else Exec(RunAttempts(db, attempts), last.call).0
    decreases |attempts|
  {
    var all := attempts + [last];
    if attempts == [] {
      assert all[1..] == [];
    } else {
      assert all[1..] == attempts[1..] + [last];
      RunAppend(if attempts[0].dies then db else Exec(db, attempts[0].call).0, attempts[1..], last);
    }
  }

  class SqliteRuntimeStore {
    var runs: map<string, RunRow>
    var starts: map<(string, string), StartRow>
    var transitions: map<(string, string), TransitionRow>
    var terminals: map<string, TerminalRecord>
    var operations: map<string, OperationRow>
    var events: seq<Event>
    const dieAt: Option<Stage>

    /** Open a database file; `dieAt` is the fault injector. */
    constructor (file: Db, dieAt: Option<Stage>)
      ensures View() == file && this.dieAt == dieAt
    {
      this.runs, this.starts, this.transitions := file.runs, file.starts, file.transitions;
      this.terminals, this.operations, this.events := file.terminals, file.operations, file.events;
      this.dieAt := dieAt;
    }

    function View(): Db
      reads this
    {
      Db(runs, starts, transitions, terminals, operations, events)
    }

    method Rollback(begin: Db)
      modifies this
      ensures View() == begin
    {
      runs, starts, transitions := begin.runs, begin.starts, begin.transitions;
      terminals, operations, events := begin.terminals, begin.operations, begin.events;
    }

    method AppendEvent(runId: string, key: EventKey) returns (event: Event)
      requires runId in runs
      modifies this
      ensures event == NewEvent(old(View()), runId, key)
      ensures View() == WithEvent(old(View()), event)
    {
      event := Event(runId, runs[runId].nextSequence, key);
      events := events + [event];
      runs := runs[runId := runs[runId].(nextSequence := event.sequence + 1)];
    }

    /** `None` when the process died before the commit; the file is then as it was. */
    method Create(snapshot: Lifecycle.Snapshot, start: Option<StartKey>)
      returns (reply: Option<Result<Reply, StoreError>>)
      modifies this
      ensures var (after, answer) := Exec(old(View()), CreateRun(snapshot, start));
              if Applied(answer) && dieAt == Some(CreateAfterEvent)
              then reply == None && View() == old(View())
              else reply == Some(answer) && View() == after
    {
      var begin := View();
      if start.Some? && (start.value.scope, start.value.key) in starts {
        var row := starts[(start.value.scope, start.value.key)];
        if row.digest != start.value.digest { return Some(Err(StartConflict)); }
        if row.runId !in runs { return Some(Err(RunNotFound)); }
        return Some(Ok(RunReply(runs[row.runId].snapshot, row.event, false)));
      }
      if snapshot.runId in runs { return Some(Err(RunAlreadyExists)); }
      runs := runs[snapshot.runId := RunRow(snapshot, 1)];
      var event := AppendEvent(snapshot.runId, CreatedKey(snapshot.runId));
      if dieAt == Some(CreateAfterEvent) {
        Rollback(begin);
        return None;
      }
      if start.Some? {
        starts := starts[(start.value.scope, start.value.key) :=
                           StartRow(start.value.digest, snapshot.runId, event)];
      }
      return Some(Ok(RunReply(snapshot, event, true)));
    }

    /** The state row is written before the terminal record, so a second terminal record is
        refused after a write that the rollback undoes. */
    method Transition(t: Lifecycle.Transition, expectedRevision: nat, terminal: Option<TerminalRecord>)
      returns (reply: Option<Result<Reply, StoreError>>)
      modifies this
      ensures var (after, answer) := Exec(old(View()), ApplyTransition(t, expectedRevision, terminal));
              if reply == None
              then View() == old(View()) && dieAt in {Some(TransitionAfterState), Some(TransitionAfterEvent)}
              else reply == Some(answer) && View() == after
      ensures reply == None <==>
                var answer := Exec(old(View()), ApplyTransition(t, expectedRevision, terminal)).1;
                || (Applied(answer) && dieAt in {Some(TransitionAfterState), Some(TransitionAfterEvent)})
                || (answer == Err(TerminalAlreadyRecorded) && dieAt == Some(TransitionAfterState))
    {
      var key := (t.runId, t.transitionId);
      if t.kind.WaitForApproval? { return Some(Err(ApprovalRequired)); }
      if key in transitions {
        var prior := transitions[key];
        if prior.transition != t || prior.terminal != terminal { return Some(Err(TransitionConflict)); }
        return Some(Ok(TransitionReply(prior.before, prior.after, prior.event, false)));
      }
      if t.runId !in runs { return Some(Err(RunNotFound)); }
      var run := runs[t.runId].snapshot;
      if run.revision != expectedRevision { return Some(Err(RunRevisionConflict(run.revision))); }
      if run.state.WaitingForApproval? && t.kind.Respond? { return Some(Err(ApprovalRequired)); }
      var reduced := Lifecycle.ReduceLifecycle(run, t);
      if reduced.Err? { return Some(Err(LifecycleRefused(reduced.error))); }
      var after := reduced.value;
      if terminal.Some? && terminal.value.state != after.state { return Some(Err(TerminalStateMismatch)); }
      if Lifecycle.TerminalRun(after.state) && terminal.None? { return Some(Err(TerminalRequired)); }
      if !Lifecycle.TerminalRun(after.state) && terminal.Some? { return Some(Err(TerminalForbidden)); }
      reply := WriteTransition(t, terminal, after);
    }

    /** The statements of a transition that passed its checks. */
    method WriteTransition(t: Lifecycle.Transition, terminal: Option<TerminalRecord>, after: Lifecycle.Snapshot)
      returns (reply: Option<Result<Reply, StoreError>>)
      requires t.runId in runs
      modifies this
      ensures var s := old(View());
              if dieAt == Some(TransitionAfterState) then reply == None && View() == s
              else if terminal.Some? && t.runId in s.terminals then reply == Some(Err(TerminalAlreadyRecorded)) && View() == s
              else if dieAt == Some(TransitionAfterEvent) then reply == None && View() == s
              else && View() == CommitTransition(s, t, terminal, after)
                   && reply == Some(Ok(TransitionReply(s.runs[t.runId].snapshot, after, View().events[|s.events|], true)))
    {
      var begin := View();
      var key := (t.runId, t.transitionId);
      var run := runs[t.runId].snapshot;
      runs := runs[t.runId := runs[t.runId].(snapshot := after)];
      if dieAt == Some(TransitionAfterState) {
        Rollback(begin);
        return None;
      }
      if terminal.Some? {
        if t.runId in terminals {
          Rollback(begin);
          return Some(Err(TerminalAlreadyRecorded));
        }
        terminals := terminals[t.runId := terminal.value];
      }
      var event := AppendEvent(t.runId, TransitionKey(t.runId, t.transitionId));
      transitions := transitions[key := TransitionRow(t, terminal, run, after, event)];
      if dieAt == Some(TransitionAfterEvent) {
        Rollback(begin);
        return None;
      }
      return Some(Ok(TransitionReply(run, after, event, true)));
    }

    method PrepareOp(intent: Intent) returns (reply: Option<Result<Reply, StoreError>>)
      modifies this
      ensures var (after, answer) := Exec(old(View()), PrepareOperation(intent));
              if Applied(answer) && dieAt == Some(AfterPrepare)
              then reply == None && View() == old(View())
              else reply == Some(answer) && View() == after
    {
      var begin := View();
      var id := intent.operationId;
      if id in operations {
        var row := operations[id];
        if row.ledger.record.intent != intent { return Some(Err(LedgerRefused(IdempotencyConflict))); }
        return Some(Ok(OperationReply(row.ledger.record, row.preparedEvent, false)));
      }
      if intent.runId !in runs { return Some(Err(RunNotFound)); }
      if Lifecycle.TerminalRun(runs[intent.runId].snapshot.state) { return Some(Err(OperationRunTerminal)); }
      var record := PlannedRecord(intent);
      var event := AppendEvent(intent.runId, PlannedKey(id));
      operations := operations[id := OperationRow(Ledger(record, map[]), event, map[])];
      if dieAt == Some(AfterPrepare) {
        Rollback(begin);
        return None;
      }
      return Some(Ok(OperationReply(record, event, true)));
    }

    /** The common path of begin, recover, settle and reconcile. */
    method MutateOp(id: string, mutationId: MutationId, call: Call)
      returns (reply: Option<Result<Reply, StoreError>>)
      requires OperationsOk(View())  // an invariant of every reachable store
      modifies this
      ensures var (after, answer) := Exec(old(View()), MutateOperation(id, mutationId, call));
              if Applied(answer) && dieAt == Some(AfterMutation)
              then reply == None && View() == old(View())
              else reply == Some(answer) && View() == after
    {
      if id !in operations { return Some(Err(LedgerRefused(NotFound))); }
      var row := operations[id];
      StoredOperation(View(), id);
      MutateAnswers(row, mutationId, call);
      var (ledger, outcome) := Mutate(row.ledger, mutationId, call);
      if outcome.Err? { return Some(Err(LedgerRefused(outcome.error))); }
      var decision := outcome.value;
      if !decision.applied {
        return Some(Ok(OperationReply(decision.record, row.mutationEvents[mutationId], false)));
      }
      reply := WriteMutation(id, mutationId, ledger, decision.record);
    }

    /** The statements of an applied mutation. */
    method WriteMutation(id: string, mutationId: MutationId, ledger: Ledger, record: Record)
      returns (reply: Option<Result<Reply, StoreError>>)
      requires id in operations && operations[id].ledger.record.intent.runId in runs
      modifies this
      ensures var s := old(View());
              if dieAt == Some(AfterMutation) then reply == None && View() == s
              else && View() == CommitMutation(s, id, mutationId, ledger)
                   && reply == Some(Ok(OperationReply(record, View().events[|s.events|], true)))
    {
      var begin := View();
      var row := operations[id];
      var event := AppendEvent(row.ledger.record.intent.runId, MutationKey(id, mutationId));
      operations := operations[id := OperationRow(ledger, row.preparedEvent, row.mutationEvents[mutationId := event])];
      if dieAt == Some(AfterMutation) {
        Rollback(begin);
        return None;
      }
      return Some(Ok(OperationReply(record, event, true)));
    }

    /** One call, answered, or cut short and rolled back. */
    method Perform(call: StoreCall) returns (reply: Option<Result<Reply, StoreError>>)
      requires Inv(View())
      modifies this
      ensures View() == if reply == None then old(View()) else Exec(old(View()), call).0
      ensures reply != None ==> reply == Some(Exec(old(View()), call).1)
      ensures dieAt == None ==> reply != None
    {
      match call
      case CreateRun(snapshot, start) => reply := Create(snapshot, start);
      case ApplyTransition(t, expectedRevision, terminal) => reply := Transition(t, expectedRevision, terminal);
      case PrepareOperation(intent) => reply := PrepareOp(intent);
      case MutateOperation(id, mutationId, c) => reply := MutateOp(id, mutationId, c);
    }
  }

  /** One process: it opens the file, makes one call, and may die inside its transaction. */
  method OneProcess(file: Db, call: StoreCall, death: Option<Stage>)
    returns (after: Db, reply: Option<Result<Reply, StoreError>>)
    requires Inv(file) && call.Valid()
    ensures after == (if reply == None then file else Exec(file, call).0) && Inv(after)
    ensures death == None ==> reply == Some(Exec(file, call).1)
  {
    ExecKeepsInv(file, call);
    var store := new SqliteRuntimeStore(file, death);
    reply := store.Perform(call);
    after := store.View();
  }

  lemma AttemptsAppend(
    calls: seq<StoreCall>, i: nat, replies: seq<Option<Result<Reply, StoreError>>>, reply: Option<Result<Reply, StoreError>>)
    requires i < |calls| && |replies| == i
    ensures Attempts(calls[..i + 1], replies + [reply])
         == Attempts(calls[..i], replies) + [Attempt(calls[i], reply == None)]
  {
  }

  /** Any sequence of calls, each made by its own process: the file ends as the effect of
      exactly the calls that committed, and keeps the store's invariant. */
  method Serve(file: Db, calls: seq<StoreCall>, deaths: seq<Option<Stage>>)
    returns (after: Db, replies: seq<Option<Result<Reply, StoreError>>>)
    requires Inv(file) && |deaths| == |calls| && forall c :: c in calls ==> c.Valid()
    ensures |replies| == |calls| && Inv(after)
    ensures after == Replay(file, Committed(file, Attempts(calls, replies)))
    ensures |after.events| == |file.events| + |Committed(file, Attempts(calls, replies))|
    ensures forall i :: 0 <= i < |calls| && deaths[i] == None ==> replies[i] != None
  {
    after, replies := file, [];
    for i := 0 to |calls|
      invariant |replies| == i
      invariant Inv(after) && after == RunAttempts(file, Attempts(calls[..i], replies))
      invariant forall j :: 0 <= j < i && deaths[j] == None ==> replies[j] != None
    {
      var reply;
      ghost var before := Attempts(calls[..i], replies);
      after, reply := OneProcess(after, calls[i], deaths[i]);
      RunAppend(file, before, Attempt(calls[i], reply == None));
      AttemptsAppend(calls, i, replies, reply);
      replies := replies + [reply];
    }
    assert calls[..|calls|] == calls;
    ReopenedStoreIsTheCommittedCalls(file, Attempts(calls, replies));
  }
}
