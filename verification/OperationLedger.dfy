/** One operation's durable row together with its mutation table
    (src/agnoclaw/runtime/store.py, `prepare_operation` and `_mutate_operation`). */
module OperationLedger {
  import opened Wrappers
  import opened Operations

  /** The gateway formats these identities into strings; the formats do not overlap. */
  datatype MutationId =
    | DispatchId(attempt: nat, fence: nat)
    | SettleId(fence: nat)
    | CancelId
    | CallerId(name: string)

  datatype Row = Row(call: Call, record: Record)

  datatype Ledger = Ledger(record: Record, rows: map<MutationId, Row>)

  datatype LedgerError =
    | NotFound
    | IdempotencyConflict
    | RevisionConflict(expected: nat, actual: nat)
    | Refused(reason: OpError)

  datatype Decision = Decision(record: Record, applied: bool)

  function ExpectedRevision(call: Call): nat {
    call.expectedRevision
  }

  /** A known mutation id is answered from the table; a new one must name the current
      revision and pass the reducer. Nothing changes on an error. */
  function Mutate(ledger: Ledger, id: MutationId, call: Call): (r: (Ledger, Result<Decision, LedgerError>)) {
    if id in ledger.rows then
      if ledger.rows[id].call != call then
        (ledger, Err(IdempotencyConflict))
      else
        (ledger, Ok(Decision(ledger.rows[id].record, false)))
    else if ledger.record.revision != ExpectedRevision(call) then
      (ledger, Err(RevisionConflict(ExpectedRevision(call), ledger.record.revision)))
    else
      match Reduce(ledger.record, call)
      case Err(e) => (ledger, Err(Refused(e)))
      case Ok(after) =>
        (Ledger(after, ledger.rows[id := Row(call, after)]), Ok(Decision(after, true)))
  }

  function Prepare(ledger: Option<Ledger>, intent: Intent): (r: (Option<Ledger>, Result<Decision, LedgerError>)) {
    match ledger
    case Some(l) =>
      if l.record.intent != intent then (ledger, Err(IdempotencyConflict))
      else (ledger, Ok(Decision(l.record, false)))
    case None =>
      (Some(Ledger(PlannedRecord(intent), map[])), Ok(Decision(PlannedRecord(intent), true)))
  }

  // ----- The ledger is the fold of its committed mutations -----

  datatype Entry = Entry(id: MutationId, row: Row)

  /** A row is the reducer applied to the record it was committed against. */
  predicate Follows(before: Record, row: Row) {
    && row.call.Valid()
    && ExpectedRevision(row.call) == before.revision
    && Reduce(before, row.call) == Ok(row.record)
  }

  function LastRecord(intent: Intent, history: seq<Entry>): Record {
    if history == [] then PlannedRecord(intent) else history[|history| - 1].row.record
  }

  function Table(history: seq<Entry>): map<MutationId, Row> {
    if history == [] then map[]
    else Table(history[..|history| - 1])[history[|history| - 1].id := history[|history| - 1].row]
  }

  /** Each mutation is new and follows the one before it. */
  predicate Chain(intent: Intent, history: seq<Entry>) {
    if history == [] then intent.Valid()
    else
      var front, last := history[..|history| - 1], history[|history| - 1];
      && Chain(intent, front)
      && last.id !in Table(front)
      && Follows(LastRecord(intent, front), last.row)
  }

  /** The ledger holds exactly the mutations of `history`, committed in that order. */
  predicate IsHistory(ledger: Ledger, history: seq<Entry>) {
    && Chain(ledger.record.intent, history)
    && ledger.record == LastRecord(ledger.record.intent, history)
    && ledger.rows == Table(history)
  }

  lemma FollowsKeeps(before: Record, row: Row)
    requires before.Valid() && Follows(before, row)
    ensures row.record.Valid()
    ensures row.record.intent == before.intent
    ensures row.record.revision == before.revision + 1
    ensures row.record.fence >= before.fence
    ensures row.call.BeginCall? ==> row.call.fence == row.record.fence > before.fence
  {
    ReduceKeepsRecord(before, row.call);
  }

  lemma PreparedHistory(intent: Intent)
    requires intent.Valid()
    ensures IsHistory(Ledger(PlannedRecord(intent), map[]), [])
  {
  }

  /** The revision counts the committed mutations, and every record of a history is well
      formed and keeps the intent it was planned with. */
  lemma {:induction false} ChainCounts(intent: Intent, history: seq<Entry>)
    requires Chain(intent, history)
    ensures var last := LastRecord(intent, history);
            last.Valid() && last.intent == intent && last.revision == |history|
    ensures |Table(history)| == |history|
  {
    if history == [] {
      assert !Terminal(Planned);
    } else {
      var front := history[..|history| - 1];
      ChainCounts(intent, front);
      FollowsKeeps(LastRecord(intent, front), history[|history| - 1].row);
    }
  }

  /** Whatever is asked of the ledger, it stays the fold of its committed mutations: an
      applied call is appended to the history and every other answer leaves it alone. */
  lemma MutateExtendsHistory(ledger: Ledger, history: seq<Entry>, id: MutationId, call: Call)
    requires IsHistory(ledger, history) && call.Valid()
    ensures var (after, outcome) := Mutate(ledger, id, call);
            if outcome.Ok? && outcome.value.applied
            then IsHistory(after, history + [Entry(id, Row(call, after.record))])
            else after == ledger
  {
    var (after, outcome) := Mutate(ledger, id, call);
    if outcome.Ok? && outcome.value.applied {
      var row := Row(call, after.record);
      ChainCounts(ledger.record.intent, history);
      FollowsKeeps(ledger.record, row);
      var history' := history + [Entry(id, row)];
      assert history'[..|history'| - 1] == history;
    }
  }

  /** The revision of an operation is the size of its mutation table. */
  lemma HistoryCounts(ledger: Ledger, history: seq<Entry>)
    requires IsHistory(ledger, history)
    ensures ledger.record.Valid()
    ensures ledger.record.revision == |ledger.rows| == |history|
  {
    ChainCounts(ledger.record.intent, history);
  }

  lemma {:induction false} FenceGrows(intent: Intent, history: seq<Entry>, j: nat)
    requires Chain(intent, history) && j <= |history|
    ensures LastRecord(intent, history[..j]).fence <= LastRecord(intent, history).fence
  {
    if j == |history| {
      assert history[..j] == history;
    } else {
      var front := history[..|history| - 1];
      FenceGrows(intent, front, j);
      assert front[..j] == history[..j];
      ChainCounts(intent, front);
      FollowsKeeps(LastRecord(intent, front), history[|history| - 1].row);
    }
  }

  lemma {:induction false} ChainPrefix(intent: Intent, history: seq<Entry>, j: nat)
    requires Chain(intent, history) && j <= |history|
    ensures Chain(intent, history[..j])
  {
    if j < |history| {
      var front := history[..|history| - 1];
      ChainPrefix(intent, front, j);
      assert front[..j] == history[..j];
    } else {
      assert history[..j] == history;
    }
  }

  /** Two dispatches of one operation never share a fence token: later ones are larger. */
  lemma DispatchFencesGrow(intent: Intent, history: seq<Entry>, i: nat, j: nat)
    requires Chain(intent, history) && i < j < |history|
    requires history[i].row.call.BeginCall? && history[j].row.call.BeginCall?
    ensures history[i].row.call.fence < history[j].row.call.fence
  {
    DispatchRaisesFence(intent, history, i);
    DispatchRaisesFence(intent, history, j);
    ChainPrefix(intent, history, j);
    FenceGrows(intent, history[..j], i + 1);
    assert history[..j][..i + 1] == history[..i + 1];
  }

  lemma DispatchRaisesFence(intent: Intent, history: seq<Entry>, k: nat)
    requires Chain(intent, history) && k < |history|
    requires history[k].row.call.BeginCall?
    ensures LastRecord(intent, history[..k]).fence < history[k].row.call.fence
    ensures history[k].row.call.fence == LastRecord(intent, history[..k + 1]).fence
  {
    ChainPrefix(intent, history, k + 1);
    var upTo := history[..k + 1];
    assert upTo[..k] == history[..k];
    ChainCounts(intent, upTo[..k]);
    FollowsKeeps(LastRecord(intent, upTo[..k]), upTo[k].row);
  }
}
