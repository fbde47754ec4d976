/** The SQLite runtime store: runs, transitions, operations, their mutation tables and the
    event log, changed only inside transactions that a process death can cut short
    (src/agnoclaw/runtime/store.py, scripts/sqlite_runtime_crash_probe.py). */
module RuntimeStore {
  import opened Wrappers
  import opened Operations
  import opened OperationLedger
  import Lifecycle

  /** What an event records; it also identifies the row the same transaction wrote. */
  datatype EventKey =
    | CreatedKey(runId: string)
    | TransitionKey(runId: string, transitionId: string)
    | PlannedKey(operationId: string)
    | MutationKey(operationId: string, mutationId: MutationId)

  datatype Event = Event(runId: string, sequence: nat, key: EventKey)

  datatype RunRow = RunRow(snapshot: Lifecycle.Snapshot, nextSequence: nat)

  datatype StartKey = StartKey(scope: string, key: string, digest: string)

  datatype StartRow = StartRow(digest: string, runId: string, event: Event)

  datatype TerminalRecord = TerminalRecord(state: Lifecycle.RunState, value: string)

  datatype TransitionRow = TransitionRow(
    transition: Lifecycle.Transition,
    terminal: Option<TerminalRecord>,
    before: Lifecycle.Snapshot,
    after: Lifecycle.Snapshot,
    event: Event)

  /** The mutation table is kept grouped by operation. */
  datatype OperationRow = OperationRow(
    ledger: Ledger,
    preparedEvent: Event,
    mutationEvents: map<MutationId, Event>)

  datatype Db = Db(
    runs: map<string, RunRow>,
    starts: map<(string, string), StartRow>,
    transitions: map<(string, string), TransitionRow>,
    terminals: map<string, TerminalRecord>,
    operations: map<string, OperationRow>,
    events: seq<Event>)

  datatype StoreCall =
    | CreateRun(snapshot: Lifecycle.Snapshot, start: Option<StartKey>)
    | ApplyTransition(transition: Lifecycle.Transition, expectedRevision: nat, terminal: Option<TerminalRecord>)
    | PrepareOperation(intent: Intent)
    | MutateOperation(operationId: string, mutationId: MutationId, call: Call)
  {
    predicate Valid() {
      match this
      case PrepareOperation(intent) => intent.Valid()
      case MutateOperation(_, _, call) => call.Valid()
      case _ => true
    }
  }

  datatype Reply =
    | RunReply(snapshot: Lifecycle.Snapshot, event: Event, applied: bool)
    | TransitionReply(before: Lifecycle.Snapshot, after: Lifecycle.Snapshot, event: Event, applied: bool)
    | OperationReply(record: Record, event: Event, applied: bool)

  datatype StoreError =
    | StartConflict
    | RunAlreadyExists
    | RunNotFound
    | TransitionConflict
    | RunRevisionConflict(actual: nat)
    | ApprovalRequired
    | LifecycleRefused(reason: Lifecycle.LifecycleError)
    | TerminalStateMismatch
    | TerminalRequired
    | TerminalForbidden
    | TerminalAlreadyRecorded
    | OperationRunTerminal
    | LedgerRefused(cause: LedgerError)

  const EMPTY := Db(map[], map[], map[], map[], map[], [])

  function NewEvent(db: Db, runId: string, key: EventKey): Event
    requires runId in db.runs
  {
    Event(runId, db.runs[runId].nextSequence, key)
  }

  /** Append one event and advance the run's sequence. */
  function WithEvent(db: Db, event: Event): Db
    requires event.runId in db.runs
  {
    db.(events := db.events + [event],
        runs := db.runs[event.runId := db.runs[event.runId].(nextSequence := event.sequence + 1)])
  }

  function ExecCreate(db: Db, snapshot: Lifecycle.Snapshot, start: Option<StartKey>): (Db, Result<Reply, StoreError>) {
    if start.Some? && (start.value.scope, start.value.key) in db.starts then
      var row := db.starts[(start.value.scope, start.value.key)];
      if row.digest != start.value.digest then (db, Err(StartConflict))
      else if row.runId !in db.runs then (db, Err(RunNotFound))
      else (db, Ok(RunReply(db.runs[row.runId].snapshot, row.event, false)))
    else if snapshot.runId in db.runs then (db, Err(RunAlreadyExists))
    else
      var inserted := db.(runs := db.runs[snapshot.runId := RunRow(snapshot, 1)]);
      var event := NewEvent(inserted, snapshot.runId, CreatedKey(snapshot.runId));
      var logged := WithEvent(inserted, event);
      var bound :=
        if start.Some? then
          logged.(starts := logged.starts[(start.value.scope, start.value.key) :=
                                             StartRow(start.value.digest, snapshot.runId, event)])
        else logged;
      (bound, Ok(RunReply(snapshot, event, true)))
  }

  /** The run after a transition that is not in the table, or why it is refused. */
  function TransitionOutcome(
    db: Db, t: Lifecycle.Transition, expectedRevision: nat, terminal: Option<TerminalRecord>)
    : Result<Lifecycle.Snapshot, StoreError>
  {
    if t.runId !in db.runs then Err(RunNotFound)
    else
      var run := db.runs[t.runId].snapshot;
      if run.revision != expectedRevision then Err(RunRevisionConflict(run.revision))
      else if run.state.WaitingForApproval? && t.kind.Respond? then Err(ApprovalRequired)
      else
        match Lifecycle.ReduceLifecycle(run, t)
        case Err(e) => Err(LifecycleRefused(e))
        case Ok(after) =>
          if terminal.Some? && terminal.value.state != after.state then Err(TerminalStateMismatch)
          else if Lifecycle.TerminalRun(after.state) && terminal.None? then Err(TerminalRequired)
          else if !Lifecycle.TerminalRun(after.state) && terminal.Some? then Err(TerminalForbidden)
          else if terminal.Some? && t.runId in db.terminals then Err(TerminalAlreadyRecorded)
          else Ok(after)
  }

  /** The run, its terminal record, one event, and the transition's own row. */
  function CommitTransition(
    db: Db, t: Lifecycle.Transition, terminal: Option<TerminalRecord>, after: Lifecycle.Snapshot): Db
    requires t.runId in db.runs
  {
    var row := db.runs[t.runId];
    var event := Event(t.runId, row.nextSequence, TransitionKey(t.runId, t.transitionId));
    Db(db.runs[t.runId := RunRow(after, row.nextSequence + 1)],
       db.starts,
       db.transitions[(t.runId, t.transitionId) := TransitionRow(t, terminal, row.snapshot, after, event)],
       if terminal.Some? then db.terminals[t.runId := terminal.value] else db.terminals,
       db.operations,
       db.events + [event])
  }

  /** Runs without approvals or children: a transition that needs an approval record is refused. */
  function ExecTransition(
    db: Db, t: Lifecycle.Transition, expectedRevision: nat, terminal: Option<TerminalRecord>)
    : (Db, Result<Reply, StoreError>)
  {
    var key := (t.runId, t.transitionId);
    if t.kind.WaitForApproval? then (db, Err(ApprovalRequired))
    else if key in db.transitions then
      var prior := db.transitions[key];
      if prior.transition != t || prior.terminal != terminal then (db, Err(TransitionConflict))
      else (db, Ok(TransitionReply(prior.before, prior.after, prior.event, false)))
    else
      match TransitionOutcome(db, t, expectedRevision, terminal)
      case Err(e) => (db, Err(e))
      case Ok(after) =>
        var committed := CommitTransition(db, t, terminal, after);
        (committed, Ok(TransitionReply(db.runs[t.runId].snapshot, after, committed.events[|db.events|], true)))
  }

  function ExecPrepare(db: Db, intent: Intent): (Db, Result<Reply, StoreError>) {
    var id := intent.operationId;
    if id in db.operations then
      var row := db.operations[id];
      match Prepare(Some(row.ledger), intent).1
      case Err(e) => (db, Err(LedgerRefused(e)))
      case Ok(decision) => (db, Ok(OperationReply(decision.record, row.preparedEvent, false)))
    else if intent.runId !in db.runs then (db, Err(RunNotFound))
    else if Lifecycle.TerminalRun(db.runs[intent.runId].snapshot.state) then (db, Err(OperationRunTerminal))
    else
      var event := NewEvent(db, intent.runId, PlannedKey(id));
      var logged := WithEvent(db, event);
      var ledger := Ledger(PlannedRecord(intent), map[]);
      (logged.(operations := logged.operations[id := OperationRow(ledger, event, map[])]),
       Ok(OperationReply(ledger.record, event, true)))
  }

  /** The operation's new ledger, one event, and the mutation's event. */
  function CommitMutation(db: Db, id: string, mutationId: MutationId, ledger: Ledger): Db
    requires id in db.operations && db.operations[id].ledger.record.intent.runId in db.runs
  {
    var row := db.operations[id];
    var runId := row.ledger.record.intent.runId;
    var event := Event(runId, db.runs[runId].nextSequence, MutationKey(id, mutationId));
    db.(runs := db.runs[runId := db.runs[runId].(nextSequence := event.sequence + 1)],
        operations := db.operations[id := OperationRow(ledger, row.preparedEvent, row.mutationEvents[mutationId := event])],
        events := db.events + [event])
  }

  function ExecMutate(db: Db, id: string, mutationId: MutationId, call: Call): (Db, Result<Reply, StoreError>) {
    if id !in db.operations || db.operations[id].ledger.record.intent.runId !in db.runs then
      (db, Err(LedgerRefused(NotFound)))
    else
      var row := db.operations[id];
      var (ledger, outcome) := Mutate(row.ledger, mutationId, call);
      match outcome
      case Err(e) => (db, Err(LedgerRefused(e)))
      case Ok(decision) =>
        if !decision.applied then
          if mutationId !in row.mutationEvents then (db, Err(LedgerRefused(NotFound)))
          else (db, Ok(OperationReply(decision.record, row.mutationEvents[mutationId], false)))
        else
          var committed := CommitMutation(db, id, mutationId, ledger);
          (committed, Ok(OperationReply(decision.record, committed.events[|db.events|], true)))
  }

  /** The database and the answer after one call that is allowed to reach its commit. */
  function Exec(db: Db, call: StoreCall): (r: (Db, Result<Reply, StoreError>)) {
    match call
    case CreateRun(snapshot, start) => ExecCreate(db, snapshot, start)
    case ApplyTransition(t, expectedRevision, terminal) => ExecTransition(db, t, expectedRevision, terminal)
    case PrepareOperation(intent) => ExecPrepare(db, intent)
    case MutateOperation(id, mutationId, c) => ExecMutate(db, id, mutationId, c)
  }

  predicate Applied(result: Result<Reply, StoreError>) {
    result.Ok? && result.value.applied
  }

  // ----- What every reachable database satisfies -----

  predicate HasRow(db: Db, key: EventKey) {
    match key
    case CreatedKey(runId) => runId in db.runs
    case TransitionKey(runId, transitionId) => (runId, transitionId) in db.transitions
    case PlannedKey(id) => id in db.operations
    case MutationKey(id, mutationId) => id in db.operations && mutationId in db.operations[id].ledger.rows
  }

  function KeyCount(events: seq<Event>, key: EventKey): nat {
    if events == [] then 0
    else KeyCount(events[..|events| - 1], key) + (if events[|events| - 1].key == key then 1 else 0)
  }

  function RunCount(events: seq<Event>, runId: string): nat {
    if events == [] then 0
    else RunCount(events[..|events| - 1], runId) + (if events[|events| - 1].runId == runId then 1 else 0)
  }

  /** Each event carries the next number of its run, starting from one. */
  predicate Numbered(events: seq<Event>) {
    events == []
    || (var front, last := events[..|events| - 1], events[|events| - 1];
        Numbered(front) && last.sequence == RunCount(front, last.runId) + 1)
  }

  predicate OperationOk(db: Db, id: string, history: seq<Entry>)
    requires id in db.operations
  {
    var row := db.operations[id];
    && IsHistory(row.ledger, history)
    && row.ledger.record.intent.operationId == id
    && row.ledger.record.intent.runId in db.runs
    && row.preparedEvent in db.events
    && row.preparedEvent.key == PlannedKey(id)
    && row.mutationEvents.Keys == row.ledger.rows.Keys
    && (forall m :: m in row.mutationEvents ==>
          row.mutationEvents[m] in db.events && row.mutationEvents[m].key == MutationKey(id, m))
  }

  ghost predicate OperationsOk(db: Db) {
    forall id :: id in db.operations ==> exists history :: OperationOk(db, id, history)
  }

  /** The log numbers the events of each run without gaps, and the run knows the next number. */
  ghost predicate LogOk(db: Db) {
    && Numbered(db.events)
    && (forall r :: r in db.runs ==> db.runs[r].nextSequence == RunCount(db.events, r) + 1)
    && (forall r :: r !in db.runs ==> RunCount(db.events, r) == 0)
  }

  /** Every stored row was written with exactly one event, and every event has its row. */
  ghost predicate KeysOk(db: Db) {
    forall key :: KeyCount(db.events, key) == if HasRow(db, key) then 1 else 0
  }

  ghost predicate ReferencesOk(db: Db) {
    && (forall k :: k in db.starts ==> db.starts[k].runId in db.runs)
    && (forall k :: k in db.transitions ==> k.0 in db.runs)
  }

  ghost predicate Inv(db: Db) {
    LogOk(db) && KeysOk(db) && ReferencesOk(db) && OperationsOk(db)
  }

  lemma AppendCounts(events: seq<Event>, event: Event)
    ensures forall key :: KeyCount(events + [event], key) == KeyCount(events, key) + (if event.key == key then 1 else 0)
    ensures forall r :: RunCount(events + [event], r) == RunCount(events, r) + (if event.runId == r then 1 else 0)
    ensures Numbered(events) && event.sequence == RunCount(events, event.runId) + 1 ==> Numbered(events + [event])
  {
    var all := events + [event];
    assert all[..|all| - 1] == events && all[|all| - 1] == event;
  }

  lemma LoggedOk(db: Db, event: Event)
    requires LogOk(db) && event.runId in db.runs
    requires event.sequence == db.runs[event.runId].nextSequence
    ensures LogOk(WithEvent(db, event))
  {
    AppendCounts(db.events, event);
  }

  /** Only the row of the appended event is new. */
  lemma KeysAfter(db: Db, db': Db, event: Event)
    requires KeysOk(db) && db'.events == db.events + [event]
    requires !HasRow(db, event.key)
    requires forall key :: HasRow(db', key) <==> HasRow(db, key) || key == event.key
    ensures KeysOk(db')
  {
    AppendCounts(db.events, event);
  }

  /** Operations that are not touched stay as they were when the log and the runs grow. */
  lemma UntouchedOperations(db: Db, db': Db, except: Option<string>)
    requires OperationsOk(db)
    requires forall e :: e in db.events ==> e in db'.events
    requires forall r :: r in db.runs ==> r in db'.runs
    requires forall id :: id in db'.operations && Some(id) != except ==>
               id in db.operations && db'.operations[id] == db.operations[id]
    ensures forall id :: id in db'.operations && Some(id) != except ==> exists history :: OperationOk(db', id, history)
  {
    forall id | id in db'.operations && Some(id) != except
      ensures exists history :: OperationOk(db', id, history)
    {
      var history :| OperationOk(db, id, history);
      assert OperationOk(db', id, history);
    }
  }

  lemma CreateKeepsLog(db: Db, snapshot: Lifecycle.Snapshot, start: Option<StartKey>)
    requires LogOk(db)
    ensures LogOk(ExecCreate(db, snapshot, start).0)
  {
    var (db', result) := ExecCreate(db, snapshot, start);
    if Applied(result) {
      LoggedOk(db.(runs := db.runs[snapshot.runId := RunRow(snapshot, 1)]), result.value.event);
    }
  }

  lemma CreateKeepsKeys(db: Db, snapshot: Lifecycle.Snapshot, start: Option<StartKey>)
    requires KeysOk(db)
    ensures KeysOk(ExecCreate(db, snapshot, start).0)
  {
    var (db', result) := ExecCreate(db, snapshot, start);
    if Applied(result) {
      KeysAfter(db, db', result.value.event);
    }
  }

  lemma CreateKeepsOperations(db: Db, snapshot: Lifecycle.Snapshot, start: Option<StartKey>)
    requires OperationsOk(db)
    ensures OperationsOk(ExecCreate(db, snapshot, start).0)
  {
    UntouchedOperations(db, ExecCreate(db, snapshot, start).0, None);
  }

  /** A transition changes nothing, or commits under a key that had no row. */
  lemma TransitionShape(
    db: Db, t: Lifecycle.Transition, expectedRevision: nat, terminal: Option<TerminalRecord>)
    ensures var (db', result) := ExecTransition(db, t, expectedRevision, terminal);
            if Applied(result)
            then && t.runId in db.runs && (t.runId, t.transitionId) !in db.transitions && result.value.TransitionReply?
                 && db' == CommitTransition(db, t, terminal, result.value.after)
            else db' == db
  {
  }

  lemma CommitTransitionKeeps(db: Db, t: Lifecycle.Transition, terminal: Option<TerminalRecord>, after: Lifecycle.Snapshot)
    requires t.runId in db.runs && (t.runId, t.transitionId) !in db.transitions
    ensures var db' := CommitTransition(db, t, terminal, after);
            && (LogOk(db) ==> LogOk(db'))
            && (KeysOk(db) ==> KeysOk(db'))
  {
    var db' := CommitTransition(db, t, terminal, after);
    var event := db'.events[|db.events|];
    AppendCounts(db.events, event);
    if KeysOk(db) { KeysAfter(db, db', event); }
  }

  lemma CommitTransitionKeepsOperations(
    db: Db, t: Lifecycle.Transition, terminal: Option<TerminalRecord>, after: Lifecycle.Snapshot)
    requires t.runId in db.runs && OperationsOk(db)
    ensures OperationsOk(CommitTransition(db, t, terminal, after))
  {
    UntouchedOperations(db, CommitTransition(db, t, terminal, after), None);
  }

  lemma TransitionKeepsLog(
    db: Db, t: Lifecycle.Transition, expectedRevision: nat, terminal: Option<TerminalRecord>)
    requires LogOk(db)
    ensures LogOk(ExecTransition(db, t, expectedRevision, terminal).0)
  {
    TransitionShape(db, t, expectedRevision, terminal);
    var result := ExecTransition(db, t, expectedRevision, terminal).1;
    if Applied(result) { CommitTransitionKeeps(db, t, terminal, result.value.after); }
  }

  lemma TransitionKeepsKeys(
    db: Db, t: Lifecycle.Transition, expectedRevision: nat, terminal: Option<TerminalRecord>)
    requires KeysOk(db)
    ensures KeysOk(ExecTransition(db, t, expectedRevision, terminal).0)
  {
    TransitionShape(db, t, expectedRevision, terminal);
    var result := ExecTransition(db, t, expectedRevision, terminal).1;
    if Applied(result) { CommitTransitionKeeps(db, t, terminal, result.value.after); }
  }

  lemma TransitionKeepsOperations(
    db: Db, t: Lifecycle.Transition, expectedRevision: nat, terminal: Option<TerminalRecord>)
    requires OperationsOk(db)
    ensures OperationsOk(ExecTransition(db, t, expectedRevision, terminal).0)
  {
    TransitionShape(db, t, expectedRevision, terminal);
    var result := ExecTransition(db, t, expectedRevision, terminal).1;
    if Applied(result) { CommitTransitionKeepsOperations(db, t, terminal, result.value.after); }
  }

  lemma PrepareKeepsLog(db: Db, intent: Intent)
    requires LogOk(db)
    ensures LogOk(ExecPrepare(db, intent).0)
  {
    var (db', result) := ExecPrepare(db, intent);
    if Applied(result) {
      LoggedOk(db, result.value.event);
    }
  }

  lemma PrepareKeepsKeys(db: Db, intent: Intent)
    requires KeysOk(db)
    ensures KeysOk(ExecPrepare(db, intent).0)
  {
    var (db', result) := ExecPrepare(db, intent);
    if Applied(result) {
      KeysAfter(db, db', result.value.event);
    }
  }

  lemma PrepareKeepsOperations(db: Db, intent: Intent)
    requires OperationsOk(db) && intent.Valid()
    ensures OperationsOk(ExecPrepare(db, intent).0)
  {
    var (db', result) := ExecPrepare(db, intent);
    if Applied(result) {
      UntouchedOperations(db, db', Some(intent.operationId));
      PreparedHistory(intent);
      assert OperationOk(db', intent.operationId, []);
    }
  }

  /** A mutation changes nothing, or commits the ledger's answer under a new mutation id. */
  lemma MutateShape(db: Db, id: string, mutationId: MutationId, call: Call)
    ensures var (db', result) := ExecMutate(db, id, mutationId, call);
            if Applied(result)
            then && id in db.operations && db.operations[id].ledger.record.intent.runId in db.runs
                 && var was, now := db.operations[id].ledger, Mutate(db.operations[id].ledger, mutationId, call).0;
                    && mutationId !in was.rows && now.rows == was.rows[mutationId := Row(call, now.record)]
                    && Mutate(was, mutationId, call).1 == Ok(Decision(now.record, true))
                    && now.record.intent == was.record.intent
                    && db' == CommitMutation(db, id, mutationId, now)
            else db' == db
  {
    if id in db.operations { }
  }

  lemma CommitMutationKeeps(db: Db, id: string, mutationId: MutationId, ledger: Ledger)
    requires id in db.operations && db.operations[id].ledger.record.intent.runId in db.runs
    requires mutationId !in db.operations[id].ledger.rows
    requires ledger.rows.Keys == db.operations[id].ledger.rows.Keys + {mutationId}
    ensures var db' := CommitMutation(db, id, mutationId, ledger);
            && (LogOk(db) ==> LogOk(db'))
            && (KeysOk(db) ==> KeysOk(db'))
  {
    var db' := CommitMutation(db, id, mutationId, ledger);
    var event := db'.events[|db.events|];
    AppendCounts(db.events, event);
    if KeysOk(db) { KeysAfter(db, db', event); }
  }

  lemma MutateKeepsLog(db: Db, id: string, mutationId: MutationId, call: Call)
    requires LogOk(db)
    ensures LogOk(ExecMutate(db, id, mutationId, call).0)
  {
    MutateShape(db, id, mutationId, call);
    if Applied(ExecMutate(db, id, mutationId, call).1) {
      CommitMutationKeeps(db, id, mutationId, Mutate(db.operations[id].ledger, mutationId, call).0);
    }
  }

  lemma MutateKeepsKeys(db: Db, id: string, mutationId: MutationId, call: Call)
    requires KeysOk(db)
    ensures KeysOk(ExecMutate(db, id, mutationId, call).0)
  {
    MutateShape(db, id, mutationId, call);
    if Applied(ExecMutate(db, id, mutationId, call).1) {
      CommitMutationKeeps(db, id, mutationId, Mutate(db.operations[id].ledger, mutationId, call).0);
    }
  }

  lemma CommitMutationKeepsOperation(
    db: Db, id: string, mutationId: MutationId, ledger: Ledger, history: seq<Entry>, history': seq<Entry>)
    requires id in db.operations && OperationOk(db, id, history)
    requires IsHistory(ledger, history') && ledger.record.intent == db.operations[id].ledger.record.intent
    requires ledger.rows.Keys == db.operations[id].ledger.rows.Keys + {mutationId}
    ensures OperationOk(CommitMutation(db, id, mutationId, ledger), id, history')
  {
  }

  /** The history of the mutated operation, with the mutation appended. */
  lemma MutateKeepsOperation(db: Db, id: string, mutationId: MutationId, call: Call, history: seq<Entry>)
    requires call.Valid() && Applied(ExecMutate(db, id, mutationId, call).1)
    requires id in db.operations && OperationOk(db, id, history)
    ensures id in ExecMutate(db, id, mutationId, call).0.operations
    ensures exists history' :: OperationOk(ExecMutate(db, id, mutationId, call).0, id, history')
  {
    MutateShape(db, id, mutationId, call);
    var was := db.operations[id].ledger;
    var now := Mutate(was, mutationId, call).0;
    MutateExtendsHistory(was, history, mutationId, call);
    CommitMutationKeepsOperation(db, id, mutationId, now, history, history + [Entry(mutationId, Row(call, now.record))]);
  }

  lemma OthersUntouched(db: Db, id: string, mutationId: MutationId, ledger: Ledger)
    requires id in db.operations && db.operations[id].ledger.record.intent.runId in db.runs && OperationsOk(db)
    ensures var db' := CommitMutation(db, id, mutationId, ledger);
            forall other :: other in db'.operations && other != id ==> exists history :: OperationOk(db', other, history)
  {
    UntouchedOperations(db, CommitMutation(db, id, mutationId, ledger), Some(id));
  }

  lemma MutateKeepsOperations(db: Db, id: string, mutationId: MutationId, call: Call)
    requires OperationsOk(db) && call.Valid()
    ensures OperationsOk(ExecMutate(db, id, mutationId, call).0)
  {
    MutateShape(db, id, mutationId, call);
    if Applied(ExecMutate(db, id, mutationId, call).1) {
      OthersUntouched(db, id, mutationId, Mutate(db.operations[id].ledger, mutationId, call).0);
      var history :| OperationOk(db, id, history);
      MutateKeepsOperation(db, id, mutationId, call, history);
    }
  }

  lemma ExecKeepsLog(db: Db, call: StoreCall)
    requires LogOk(db)
    ensures LogOk(Exec(db, call).0)
  {
    match call
    case CreateRun(snapshot, start) => CreateKeepsLog(db, snapshot, start);
    case ApplyTransition(t, expectedRevision, terminal) => TransitionKeepsLog(db, t, expectedRevision, terminal);
    case PrepareOperation(intent) => PrepareKeepsLog(db, intent);
    case MutateOperation(id, mutationId, c) => MutateKeepsLog(db, id, mutationId, c);
  }

  lemma ExecKeepsKeys(db: Db, call: StoreCall)
    requires KeysOk(db)
    ensures KeysOk(Exec(db, call).0)
  {
    match call
    case CreateRun(snapshot, start) => CreateKeepsKeys(db, snapshot, start);
    case ApplyTransition(t, expectedRevision, terminal) => TransitionKeepsKeys(db, t, expectedRevision, terminal);
    case PrepareOperation(intent) => PrepareKeepsKeys(db, intent);
    case MutateOperation(id, mutationId, c) => MutateKeepsKeys(db, id, mutationId, c);
  }

  lemma ExecKeepsOperations(db: Db, call: StoreCall)
    requires OperationsOk(db) && call.Valid()
    ensures OperationsOk(Exec(db, call).0)
  {
    match call
    case CreateRun(snapshot, start) => CreateKeepsOperations(db, snapshot, start);
    case ApplyTransition(t, expectedRevision, terminal) =>
      TransitionKeepsOperations(db, t, expectedRevision, terminal);
    case PrepareOperation(intent) => PrepareKeepsOperations(db, intent);
    case MutateOperation(id, mutationId, c) => MutateKeepsOperations(db, id, mutationId, c);
  }

  lemma ExecKeepsReferences(db: Db, call: StoreCall)
    requires ReferencesOk(db)
    ensures ReferencesOk(Exec(db, call).0)
  {
    match call
    case CreateRun(snapshot, start) =>
    case ApplyTransition(t, expectedRevision, terminal) => TransitionShape(db, t, expectedRevision, terminal);
    case PrepareOperation(intent) =>
    case MutateOperation(id, mutationId, c) => MutateShape(db, id, mutationId, c);
  }

  /** Every call, refused, answered from a table or applied, keeps the invariant. */
  lemma ExecKeepsInv(db: Db, call: StoreCall)
    requires Inv(db) && call.Valid()
    ensures Inv(Exec(db, call).0)
  {
    ExecKeepsLog(db, call);
    ExecKeepsKeys(db, call);
    ExecKeepsOperations(db, call);
    ExecKeepsReferences(db, call);
  }

  // ----- Whole runs, cut by process deaths -----

  /** One call made by some process; `dies` says that the process is killed inside the
      transaction, so that the reopened database is the one from before it. */
  datatype Attempt = Attempt(call: StoreCall, dies: bool)

  function RunAttempts(db: Db, attempts: seq<Attempt>): Db
    decreases |attempts|
  {
    if attempts == [] then db
    else RunAttempts(if attempts[0].dies then db else Exec(db, attempts[0].call).0, attempts[1..])
  }

  /** The calls of a run that committed a change, in order. */
  function Committed(db: Db, attempts: seq<Attempt>): seq<StoreCall>
    decreases |attempts|
  {
    if attempts == [] then []
    else if attempts[0].dies then Committed(db, attempts[1..])
    else
      var (db', result) := Exec(db, attempts[0].call);
      (if Applied(result) then [attempts[0].call] else []) + Committed(db', attempts[1..])
  }

  function Replay(db: Db, calls: seq<StoreCall>): Db
    decreases |calls|
  {
    if calls == [] then db else Replay(Exec(db, calls[0]).0, calls[1..])
  }

  /** A refused call and a call answered from a table change nothing. */
  lemma UnappliedChangesNothing(db: Db, call: StoreCall)
    requires !Applied(Exec(db, call).1)
    ensures Exec(db, call).0 == db
  {
    match call
    case CreateRun(snapshot, start) =>
    case ApplyTransition(t, expectedRevision, terminal) =>
    case PrepareOperation(intent) =>
    case MutateOperation(id, mutationId, c) =>
  }

  predicate AllApply(db: Db, calls: seq<StoreCall>)
    decreases |calls|
  {
    calls == [] || (Applied(Exec(db, calls[0]).1) && AllApply(Exec(db, calls[0]).0, calls[1..]))
  }

  lemma AppliedAddsOneEvent(db: Db, call: StoreCall)
    requires Applied(Exec(db, call).1)
    ensures Exec(db, call).0.events == db.events + [Exec(db, call).1.value.event]
  {
    match call
    case CreateRun(snapshot, start) =>
    case ApplyTransition(t, expectedRevision, terminal) =>
    case PrepareOperation(intent) =>
    case MutateOperation(id, mutationId, c) =>
  }

  /** The reopened store is the effect of exactly the committed calls: deaths, refusals and
      retries leave no trace, every committed call applies again when the list is replayed,
      and the event log grows by exactly one event for each of them. */
  lemma {:induction false} ReopenedStoreIsTheCommittedCalls(db: Db, attempts: seq<Attempt>)
    ensures RunAttempts(db, attempts) == Replay(db, Committed(db, attempts))
    ensures AllApply(db, Committed(db, attempts))
    ensures |RunAttempts(db, attempts).events| == |db.events| + |Committed(db, attempts)|
    decreases |attempts|
  {
    if attempts != [] {
      var rest := attempts[1..];
      if attempts[0].dies {
        ReopenedStoreIsTheCommittedCalls(db, rest);
      } else {
        var (db', result) := Exec(db, attempts[0].call);
        ReopenedStoreIsTheCommittedCalls(db', rest);
        if Applied(result) {
          AppliedAddsOneEvent(db, attempts[0].call);
          var calls := [attempts[0].call] + Committed(db', rest);
          assert calls[1..] == Committed(db', rest);
        } else {
          UnappliedChangesNothing(db, attempts[0].call);
          assert [] + Committed(db', rest) == Committed(db', rest);
        }
      }
    }
  }

  lemma {:induction false} RunKeepsInv(db: Db, attempts: seq<Attempt>)
    requires Inv(db)
    requires forall a :: a in attempts ==> a.call.Valid()
    ensures Inv(RunAttempts(db, attempts))
    decreases |attempts|
  {
    if attempts != [] {
      if !attempts[0].dies { ExecKeepsInv(db, attempts[0].call); }
      RunKeepsInv(if attempts[0].dies then db else Exec(db, attempts[0].call).0, attempts[1..]);
    }
  }

  /** In every reachable store: one event for every stored row and none without, the events
      of each run numbered from one, and each operation's revision the number of mutations
      committed for it. */
  lemma ReachableStore(attempts: seq<Attempt>)
    requires forall a :: a in attempts ==> a.call.Valid()
    ensures var db := RunAttempts(EMPTY, attempts);
            && (forall key :: KeyCount(db.events, key) == if HasRow(db, key) then 1 else 0)
            && Numbered(db.events)
            && (forall id :: id in db.operations ==>
                  db.operations[id].ledger.record.revision == |db.operations[id].ledger.rows|)
  {
    RunKeepsInv(EMPTY, attempts);
    var db := RunAttempts(EMPTY, attempts);
    forall id | id in db.operations
      ensures db.operations[id].ledger.record.revision == |db.operations[id].ledger.rows|
    {
      var history :| OperationOk(db, id, history);
      HistoryCounts(db.operations[id].ledger, history);
    }
  }

  /** Nothing that was committed is ever rewritten. */
  ghost predicate Frozen(db: Db, db': Db) {
    && (forall r :: r in db.runs ==> r in db'.runs)
    && (forall k :: k in db.starts ==> k in db'.starts && db'.starts[k] == db.starts[k])
    && (forall k :: k in db.transitions ==> k in db'.transitions && db'.transitions[k] == db.transitions[k])
    && (forall id :: id in db.operations ==> id in db'.operations && RowFrozen(db.operations[id], db'.operations[id]))
  }

  predicate RowFrozen(row: OperationRow, row': OperationRow) {
    && row'.preparedEvent == row.preparedEvent
    && row'.ledger.record.intent == row.ledger.record.intent
    && (forall m :: m in row.ledger.rows ==> m in row'.ledger.rows && row'.ledger.rows[m] == row.ledger.rows[m])
    && (forall m :: m in row.mutationEvents && m in row.ledger.rows ==>
          m in row'.mutationEvents && row'.mutationEvents[m] == row.mutationEvents[m])
  }

  lemma MutateFreezes(db: Db, id: string, mutationId: MutationId, call: Call)
    ensures Frozen(db, ExecMutate(db, id, mutationId, call).0)
  {
    MutateShape(db, id, mutationId, call);
    var (db', result) := ExecMutate(db, id, mutationId, call);
    if Applied(result) { assert RowFrozen(db.operations[id], db'.operations[id]); }
  }

  lemma CreateFreezes(db: Db, snapshot: Lifecycle.Snapshot, start: Option<StartKey>)
    ensures Frozen(db, ExecCreate(db, snapshot, start).0)
  {
  }

  lemma TransitionFreezes(
    db: Db, t: Lifecycle.Transition, expectedRevision: nat, terminal: Option<TerminalRecord>)
    ensures Frozen(db, ExecTransition(db, t, expectedRevision, terminal).0)
  {
    TransitionShape(db, t, expectedRevision, terminal);
  }

  lemma PrepareFreezes(db: Db, intent: Intent)
    ensures Frozen(db, ExecPrepare(db, intent).0)
  {
  }

  lemma ExecFreezes(db: Db, call: StoreCall)
    ensures Frozen(db, Exec(db, call).0)
  {
    match call
    case CreateRun(snapshot, start) => CreateFreezes(db, snapshot, start);
    case ApplyTransition(t, expectedRevision, terminal) => TransitionFreezes(db, t, expectedRevision, terminal);
    case PrepareOperation(intent) => PrepareFreezes(db, intent);
    case MutateOperation(id, mutationId, c) => MutateFreezes(db, id, mutationId, c);
  }

  lemma FrozenTransitive(a: Db, b: Db, c: Db)
    requires Frozen(a, b) && Frozen(b, c)
    ensures Frozen(a, c)
  {
    forall id | id in a.operations
      ensures id in c.operations && RowFrozen(a.operations[id], c.operations[id])
    {
      assert RowFrozen(a.operations[id], b.operations[id]) && RowFrozen(b.operations[id], c.operations[id]);
    }
  }

  lemma {:induction false} RunFreezes(db: Db, attempts: seq<Attempt>)
    ensures Frozen(db, RunAttempts(db, attempts))
    decreases |attempts|
  {
    if attempts != [] {
      var db' := if attempts[0].dies then db else Exec(db, attempts[0].call).0;
      ExecFreezes(db, attempts[0].call);
      RunFreezes(db', attempts[1..]);
      FrozenTransitive(db, db', RunAttempts(db', attempts[1..]));
    }
  }

  /** What a repeated call is told. A transition or an operation mutation gets its first
      decision back; a prepare gets the current record with the first event; a keyed create
      gets the current snapshot with the first event; a create without a key is refused. */
  function RetryAnswer(db: Db, call: StoreCall, first: Reply): Result<Reply, StoreError>
    requires call.PrepareOperation? ==> call.intent.operationId in db.operations
    requires call.CreateRun? ==> call.snapshot.runId in db.runs
  {
    match call
    case CreateRun(snapshot, None) => Err(RunAlreadyExists)
    case CreateRun(snapshot, Some(_)) => Ok(RunReply(db.runs[snapshot.runId].snapshot, first.event, false))
    case PrepareOperation(intent) =>
      Ok(OperationReply(db.operations[intent.operationId].ledger.record, first.event, false))
    case _ => Ok(first.(applied := false))
  }

  /** A retry with the same identity is answered from the table and changes nothing, whatever
      calls and process deaths came between it and the commit. */
  lemma RetryReturnsFirstDecision(db: Db, call: StoreCall, between: seq<Attempt>)
    requires Applied(Exec(db, call).1)
    ensures var later := RunAttempts(Exec(db, call).0, between);
            && (call.PrepareOperation? ==> call.intent.operationId in later.operations)
            && (call.CreateRun? ==> call.snapshot.runId in later.runs)
            && Exec(later, call) == (later, RetryAnswer(later, call, Exec(db, call).1.value))
  {
    RunFreezes(Exec(db, call).0, between);
    RetryAfterwards(db, call, RunAttempts(Exec(db, call).0, between));
  }

  lemma RetryAfterwards(db: Db, call: StoreCall, later: Db)
    requires Applied(Exec(db, call).1) && Frozen(Exec(db, call).0, later)
    ensures (call.PrepareOperation? ==> call.intent.operationId in later.operations)
    ensures (call.CreateRun? ==> call.snapshot.runId in later.runs)
    ensures Exec(later, call) == (later, RetryAnswer(later, call, Exec(db, call).1.value))
  {
    var committed := Exec(db, call).0;
    match call
    case CreateRun(snapshot, start) =>
    case ApplyTransition(t, expectedRevision, terminal) =>
      TransitionShape(db, t, expectedRevision, terminal);
    case PrepareOperation(intent) =>
      assert RowFrozen(committed.operations[intent.operationId], later.operations[intent.operationId]);
    case MutateOperation(id, mutationId, c) =>
      RetriedMutation(db, id, mutationId, c, later);
  }

  lemma RetriedMutation(db: Db, id: string, mutationId: MutationId, call: Call, later: Db)
    requires Applied(ExecMutate(db, id, mutationId, call).1)
    requires Frozen(ExecMutate(db, id, mutationId, call).0, later)
    ensures ExecMutate(later, id, mutationId, call)
            == (later, Ok(ExecMutate(db, id, mutationId, call).1.value.(applied := false)))
  {
    MutateShape(db, id, mutationId, call);
    var (committed, result) := ExecMutate(db, id, mutationId, call);
    assert RowFrozen(committed.operations[id], later.operations[id]);
    assert committed.operations[id].ledger.rows[mutationId] == Row(call, result.value.record);
    assert later.operations[id].ledger.rows[mutationId] == Row(call, result.value.record);
  }

  /** A call with the identity of an earlier one but other content. */
  predicate Reuses(call: StoreCall, first: StoreCall) {
    match (first, call)
    case (CreateRun(_, Some(a)), CreateRun(_, Some(b))) => a.scope == b.scope && a.key == b.key && a.digest != b.digest
    case (ApplyTransition(t, _, a), ApplyTransition(u, _, b)) =>
      t.runId == u.runId && t.transitionId == u.transitionId && (t != u || a != b)
    case (PrepareOperation(i), PrepareOperation(j)) => i.operationId == j.operationId && i != j
    case (MutateOperation(id, m, a), MutateOperation(id', m', b)) => id == id' && m == m' && a != b
    case _ => false
  }

  /** An identity that was committed is never taken over by other content: the call is refused
      and changes nothing, whatever came between. */
  lemma ReusedIdentityIsRefused(db: Db, first: StoreCall, between: seq<Attempt>, call: StoreCall)
    requires Applied(Exec(db, first).1) && Reuses(call, first)
    ensures var later := RunAttempts(Exec(db, first).0, between);
            Exec(later, call).0 == later && Exec(later, call).1.Err?
  {
    RunFreezes(Exec(db, first).0, between);
    ReuseAfterwards(db, first, RunAttempts(Exec(db, first).0, between), call);
  }

  lemma ReuseAfterwards(db: Db, first: StoreCall, later: Db, call: StoreCall)
    requires Applied(Exec(db, first).1) && Reuses(call, first) && Frozen(Exec(db, first).0, later)
    ensures Exec(later, call).0 == later && Exec(later, call).1.Err?
  {
    match first
    case CreateRun(_, _) =>
    case ApplyTransition(t, expectedRevision, terminal) => TransitionShape(db, t, expectedRevision, terminal);
    case PrepareOperation(intent) => ReusedPrepare(db, intent, later, call.intent);
    case MutateOperation(id, m, c) => ReusedMutation(db, id, m, c, later, call.call);
  }

  lemma ReusedPrepare(db: Db, first: Intent, later: Db, intent: Intent)
    requires Applied(ExecPrepare(db, first).1) && intent.operationId == first.operationId && intent != first
    requires Frozen(ExecPrepare(db, first).0, later)
    ensures ExecPrepare(later, intent).0 == later && ExecPrepare(later, intent).1.Err?
  {
    assert RowFrozen(ExecPrepare(db, first).0.operations[first.operationId], later.operations[first.operationId]);
  }

  lemma ReusedMutation(db: Db, id: string, m: MutationId, first: Call, later: Db, call: Call)
    requires Applied(ExecMutate(db, id, m, first).1) && first != call
    requires Frozen(ExecMutate(db, id, m, first).0, later)
    ensures ExecMutate(later, id, m, call).0 == later && ExecMutate(later, id, m, call).1.Err?
  {
    MutateShape(db, id, m, first);
    var committed := ExecMutate(db, id, m, first).0;
    assert RowFrozen(committed.operations[id], later.operations[id]);
    assert committed.operations[id].ledger.rows[m].call == first;
  }

  // ----- Transitions name the revision they were decided against -----

  /** A transition is only ever applied to the revision it names; a new one that names another
      is told the current revision and changes nothing. */
  lemma StaleTransitionIsRefused(
    db: Db, t: Lifecycle.Transition, expectedRevision: nat, terminal: Option<TerminalRecord>)
    ensures var (db', result) := Exec(db, ApplyTransition(t, expectedRevision, terminal));
            && (Applied(result) ==> t.runId in db.runs && db.runs[t.runId].snapshot.revision == expectedRevision)
            && (t.runId in db.runs && db.runs[t.runId].snapshot.revision != expectedRevision
                && (t.runId, t.transitionId) !in db.transitions && !t.kind.WaitForApproval? ==>
                  db' == db && result == Err(RunRevisionConflict(db.runs[t.runId].snapshot.revision)))
  {
  }

  /** The run has left the revision, or is over with its record written. */
  predicate Passed(db: Db, runId: string, revision: nat) {
    && runId in db.runs
    && var run := db.runs[runId].snapshot;
       run.revision > revision || (Lifecycle.TerminalRun(run.state) && runId in db.terminals)
  }

  lemma TransitionPasses(
    db: Db, t: Lifecycle.Transition, expectedRevision: nat, terminal: Option<TerminalRecord>, revision: nat)
    requires Applied(ExecTransition(db, t, expectedRevision, terminal).1)
    ensures Passed(ExecTransition(db, t, expectedRevision, terminal).0, t.runId, expectedRevision)
    ensures !Passed(db, t.runId, expectedRevision)
    ensures Passed(db, t.runId, revision) ==> Passed(ExecTransition(db, t, expectedRevision, terminal).0, t.runId, revision)
  {
    Lifecycle.TerminalIsFinal(db.runs[t.runId].snapshot, t);
  }

  lemma ExecKeepsPassed(db: Db, call: StoreCall, runId: string, revision: nat)
    requires Passed(db, runId, revision)
    ensures Passed(Exec(db, call).0, runId, revision)
  {
    match call
    case CreateRun(_, _) =>
    case ApplyTransition(t, expectedRevision, terminal) =>
      TransitionShape(db, t, expectedRevision, terminal);
      if Applied(Exec(db, call).1) && t.runId == runId { TransitionPasses(db, t, expectedRevision, terminal, revision); }
    case PrepareOperation(_) =>
    case MutateOperation(id, m, c) => MutateShape(db, id, m, c);
  }

  lemma {:induction false} RunKeepsPassed(db: Db, attempts: seq<Attempt>, runId: string, revision: nat)
    requires Passed(db, runId, revision)
    ensures Passed(RunAttempts(db, attempts), runId, revision)
    decreases |attempts|
  {
    if attempts != [] {
      if !attempts[0].dies { ExecKeepsPassed(db, attempts[0].call, runId, revision); }
      RunKeepsPassed(if attempts[0].dies then db else Exec(db, attempts[0].call).0, attempts[1..], runId, revision);
    }
  }

  /** Of all transitions sent against one revision of a run, only the first is applied,
      whatever calls and deaths come between. */
  lemma OneTransitionPerRevision(
    db: Db, t: Lifecycle.Transition, u: Lifecycle.Transition, revision: nat,
    terminal: Option<TerminalRecord>, terminal': Option<TerminalRecord>, between: seq<Attempt>)
    requires Applied(Exec(db, ApplyTransition(t, revision, terminal)).1) && u.runId == t.runId
    ensures var later := RunAttempts(Exec(db, ApplyTransition(t, revision, terminal)).0, between);
            && !Applied(Exec(later, ApplyTransition(u, revision, terminal')).1)
            && Exec(later, ApplyTransition(u, revision, terminal')).0 == later
  {
    TransitionPasses(db, t, revision, terminal, revision);
    var next := Exec(db, ApplyTransition(t, revision, terminal)).0;
    RunKeepsPassed(next, between, t.runId, revision);
    var later := RunAttempts(next, between);
    if Applied(Exec(later, ApplyTransition(u, revision, terminal')).1) {
      TransitionPasses(later, u, revision, terminal', revision);
    }
    UnappliedChangesNothing(later, ApplyTransition(u, revision, terminal'));
  }

  // ----- A run is over exactly when its terminal record is written -----

  /** The record of every run that is over, with the state it ended in, and no other record. */
  ghost predicate TerminalsMatch(db: Db) {
    && (forall r :: r in db.terminals ==> r in db.runs && db.terminals[r].state == db.runs[r].snapshot.state)
    && (forall r :: r in db.runs ==> (Lifecycle.TerminalRun(db.runs[r].snapshot.state) <==> r in db.terminals))
  }

  predicate StartsOpen(call: StoreCall) {
    call.CreateRun? ==> !Lifecycle.TerminalRun(call.snapshot.state)
  }

  lemma TransitionKeepsTerminals(
    db: Db, t: Lifecycle.Transition, expectedRevision: nat, terminal: Option<TerminalRecord>)
    requires TerminalsMatch(db)
    ensures TerminalsMatch(ExecTransition(db, t, expectedRevision, terminal).0)
  {
    TransitionShape(db, t, expectedRevision, terminal);
    if Applied(ExecTransition(db, t, expectedRevision, terminal).1) {
      Lifecycle.TerminalIsFinal(db.runs[t.runId].snapshot, t);
    }
  }

  lemma CreateKeepsTerminals(db: Db, snapshot: Lifecycle.Snapshot, start: Option<StartKey>)
    requires TerminalsMatch(db) && !Lifecycle.TerminalRun(snapshot.state)
    ensures TerminalsMatch(ExecCreate(db, snapshot, start).0)
  {
  }

  /** Operations leave the runs and their terminal records alone, but for the next sequence. */
  lemma MutateKeepsRuns(db: Db, id: string, mutationId: MutationId, call: Call)
    ensures var db' := ExecMutate(db, id, mutationId, call).0;
            && db'.runs.Keys == db.runs.Keys && db'.terminals == db.terminals
            && (forall r :: r in db.runs ==> db'.runs[r].snapshot == db.runs[r].snapshot)
  {
    MutateShape(db, id, mutationId, call);
  }

  lemma ExecKeepsTerminals(db: Db, call: StoreCall)
    requires TerminalsMatch(db) && StartsOpen(call)
    ensures TerminalsMatch(Exec(db, call).0)
  {
    match call
    case CreateRun(snapshot, start) => CreateKeepsTerminals(db, snapshot, start);
    case ApplyTransition(t, expectedRevision, terminal) => TransitionKeepsTerminals(db, t, expectedRevision, terminal);
    case PrepareOperation(_) =>
    case MutateOperation(id, m, c) => MutateKeepsRuns(db, id, m, c);
  }

  /** In every store whose runs are created open, a run is terminal exactly when it has a
      terminal record, and the record names the state the run is in. */
  lemma {:induction false} RunKeepsTerminals(db: Db, attempts: seq<Attempt>)
    requires TerminalsMatch(db)
    requires forall a :: a in attempts ==> StartsOpen(a.call)
    ensures TerminalsMatch(RunAttempts(db, attempts))
    decreases |attempts|
  {
    if attempts != [] {
      if !attempts[0].dies { ExecKeepsTerminals(db, attempts[0].call); }
      RunKeepsTerminals(if attempts[0].dies then db else Exec(db, attempts[0].call).0, attempts[1..]);
    }
  }

  // ----- A run that is over -----

  /** No operation of the run is there that was not there before. */
  ghost predicate NoNewOperation(db: Db, db': Db, runId: string) {
    forall id :: id in db'.operations && db'.operations[id].ledger.record.intent.runId == runId ==>
      id in db.operations && db.operations[id].ledger.record.intent.runId == runId
  }

  lemma PrepareLeavesOver(db: Db, intent: Intent, runId: string)
    requires runId in db.runs && Lifecycle.TerminalRun(db.runs[runId].snapshot.state)
    ensures var db' := ExecPrepare(db, intent).0;
            && runId in db'.runs && db'.runs[runId].snapshot == db.runs[runId].snapshot
            && NoNewOperation(db, db', runId)
  {
  }

  lemma MutateLeavesOver(db: Db, id: string, mutationId: MutationId, call: Call, runId: string)
    requires runId in db.runs
    ensures var db' := ExecMutate(db, id, mutationId, call).0;
            && runId in db'.runs && db'.runs[runId].snapshot == db.runs[runId].snapshot
            && NoNewOperation(db, db', runId)
  {
    MutateShape(db, id, mutationId, call);
    MutateKeepsRuns(db, id, mutationId, call);
  }

  lemma ExecLeavesOver(db: Db, call: StoreCall, runId: string)
    requires runId in db.runs && Lifecycle.TerminalRun(db.runs[runId].snapshot.state)
    ensures var db' := Exec(db, call).0;
            && runId in db'.runs && db'.runs[runId].snapshot == db.runs[runId].snapshot
            && NoNewOperation(db, db', runId)
  {
    match call
    case CreateRun(_, _) =>
    case ApplyTransition(t, expectedRevision, terminal) =>
      TransitionShape(db, t, expectedRevision, terminal);
      if Applied(Exec(db, call).1) { Lifecycle.TerminalIsFinal(db.runs[t.runId].snapshot, t); }
    case PrepareOperation(intent) => PrepareLeavesOver(db, intent, runId);
    case MutateOperation(id, m, c) => MutateLeavesOver(db, id, m, c, runId);
  }

  /** Once a run is over its snapshot never changes and no operation is planned for it, in any
      sequence of calls and deaths. */
  lemma {:induction false} OverRunStays(db: Db, attempts: seq<Attempt>, runId: string)
    requires runId in db.runs && Lifecycle.TerminalRun(db.runs[runId].snapshot.state)
    ensures var later := RunAttempts(db, attempts);
            && runId in later.runs && later.runs[runId].snapshot == db.runs[runId].snapshot
            && NoNewOperation(db, later, runId)
    decreases |attempts|
  {
    if attempts != [] {
      var db' := if attempts[0].dies then db else Exec(db, attempts[0].call).0;
      ExecLeavesOver(db, attempts[0].call, runId);
      OverRunStays(db', attempts[1..], runId);
    }
  }
}
