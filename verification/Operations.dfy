/** The pure operation domain: states, effect classes and the four reducers that move a
    durable operation record forward (src/agnoclaw/runtime/operations.py). */
module Operations {
  import opened Wrappers

  datatype EffectClass = ReadOnly | Idempotent | Compensatable | NonRepeatable

  datatype OpState = Planned | Dispatching | Succeeded | Failed | Unknown | Cancelled

  datatype RecoveryAction = Dispatch | Retry | Reconcile | DoNothing

  /** Request digests are injective, so the request itself stands for its digest. */
  datatype Intent = Intent(
    operationId: string,
    runId: string,
    attemptId: string,
    request: string,
    effect: EffectClass,
    idempotencyKey: Option<string>)
  {
    /** The constructor refuses an idempotent intent without a key. */
    predicate Valid() {
      effect.Idempotent? ==> idempotencyKey.Some? && idempotencyKey.value != ""
    }

    /** The slot is a function of the operation identity alone; the digest is injective. */
    function ResultSlot(): string {
      "operation-result:v1:" + operationId
    }
  }

  datatype Settlement = Settlement(
    state: OpState,
    resultReference: Option<string>,
    resultSlot: Option<string>)
  {
    predicate Valid() {
      && Terminal(state)
      && (!state.Succeeded? ==> resultReference.None? && resultSlot.None?)
    }
  }

  datatype Record = Record(
    intent: Intent,
    state: OpState,
    revision: nat,
    attempt: nat,
    fence: nat,
    worker: Option<string>,
    settlement: Option<Settlement>)
  {
    /** What the record constructor enforces. */
    predicate Valid() {
      && intent.Valid()
      && (Terminal(state) ==>
            && settlement.Some?
            && settlement.value.Valid()
            && settlement.value.state == state
            && (state.Succeeded? ==> settlement.value.resultSlot == Some(intent.ResultSlot())))
      && (!Terminal(state) ==> settlement.None?)
    }
  }

  datatype Verdict = VerdictSucceeded | VerdictFailed | VerdictEffectAbsent

  /** Evidence for one exact record: the record stands for its own digest. */
  datatype Reconciliation = Reconciliation(
    record: Record,
    verdict: Verdict,
    resultReference: Option<string>)
  {
    predicate Valid() {
      verdict.VerdictSucceeded? <==> resultReference.Some?
    }
  }

  datatype OpError =
    | TransitionInvalid(state: OpState)
    | FenceStale(expected: nat, actual: nat)
    | SlotMismatch(expectedSlot: string, actualSlot: string)

  predicate Terminal(state: OpState) {
    state in {Succeeded, Failed, Unknown, Cancelled}
  }

  /** The classes whose interrupted dispatch has an unknown outcome. */
  predicate Ambiguous(effect: EffectClass) {
    effect in {Compensatable, NonRepeatable}
  }

  function PlannedRecord(intent: Intent): (r: Record)
  {
    Record(intent, Planned, 0, 0, 0, None, None)
  }

  function BeginDispatch(record: Record, worker: string, fence: nat): Result<Record, OpError> {
    if Terminal(record.state) || record.state != Planned then
      Err(TransitionInvalid(record.state))
    else if fence <= record.fence then
      Err(FenceStale(record.fence + 1, fence))
    else
      Ok(record.(state := Dispatching,
                 revision := record.revision + 1,
                 attempt := record.attempt + 1,
                 fence := fence,
                 worker := Some(worker)))
  }

  function ActionFor(record: Record): RecoveryAction {
    if record.state.Unknown? then Reconcile
    else if Terminal(record.state) then DoNothing
    else if record.state.Planned? then Dispatch
    else if record.intent.effect.ReadOnly? then Retry
    else if record.intent.effect.Idempotent?
            && record.intent.idempotencyKey.Some? && record.intent.idempotencyKey.value != "" then Retry
    else Reconcile
  }

  function ResetForRecovery(record: Record, nextFence: nat): Result<Record, OpError> {
    if record.state != Dispatching then
      Err(TransitionInvalid(record.state))
    else if ActionFor(record) != Retry then
      Err(TransitionInvalid(record.state))
    else if nextFence <= record.fence then
      Err(FenceStale(record.fence + 1, nextFence))
    else
      Ok(record.(state := Planned,
                 revision := record.revision + 1,
                 fence := nextFence,
                 worker := None))
  }

  function Settle(record: Record, settlement: Settlement, fence: nat): Result<Record, OpError> {
    var preDispatchCancel := record.state.Planned? && settlement.state.Cancelled?;
    var slot := record.intent.ResultSlot();
    if Terminal(record.state) || (record.state != Dispatching && !preDispatchCancel) then
      Err(TransitionInvalid(record.state))
    else if fence != record.fence then
      Err(FenceStale(record.fence, fence))
    else if settlement.state.Succeeded? && settlement.resultSlot.Some? && settlement.resultSlot.value != slot then
      Err(SlotMismatch(slot, settlement.resultSlot.value))
    else
      var filled := if settlement.state.Succeeded? then settlement.(resultSlot := Some(slot)) else settlement;
      Ok(record.(state := filled.state,
                 revision := record.revision + 1,
                 settlement := Some(filled)))
  }

  function ReconcileRecord(record: Record, evidence: Reconciliation): Result<Record, OpError> {
    if evidence.record != record then
      Err(TransitionInvalid(record.state))
    else if ActionFor(record) != Reconcile then
      Err(TransitionInvalid(record.state))
    else
      var settlement :=
        if evidence.verdict.VerdictSucceeded? then
          Settlement(Succeeded, evidence.resultReference, Some(record.intent.ResultSlot()))
        else
          Settlement(Failed, None, None);
      Ok(record.(state := settlement.state,
                 revision := record.revision + 1,
                 fence := record.fence + 1,
                 worker := None,
                 settlement := Some(settlement)))
  }

  /** One reducer call, as the store dispatches it. The call is its own digest. */
  datatype Call =
    | BeginCall(expectedRevision: nat, worker: string, fence: nat)
    | RecoverCall(expectedRevision: nat, nextFence: nat)
    | SettleCall(expectedRevision: nat, fence: nat, settlement: Settlement)
    | ReconcileCall(expectedRevision: nat, evidence: Reconciliation)
  {
    predicate Valid() {
      match this
      case SettleCall(_, _, s) => s.Valid()
      case ReconcileCall(r, e) => e.Valid() && r == e.record.revision
      case _ => true
    }
  }

  function Reduce(record: Record, call: Call): Result<Record, OpError> {
    match call
    case BeginCall(_, worker, fence) => BeginDispatch(record, worker, fence)
    case RecoverCall(_, nextFence) => ResetForRecovery(record, nextFence)
    case SettleCall(_, fence, settlement) => Settle(record, settlement, fence)
    case ReconcileCall(_, evidence) => ReconcileRecord(record, evidence)
  }

  /** Every accepted reducer call keeps the record well formed, keeps its intent, adds one
      revision, never lowers the fence, and raises the fence on every change of ownership. */
  lemma ReduceKeepsRecord(record: Record, call: Call)
    requires record.Valid() && call.Valid()
    requires Reduce(record, call).Ok?
    ensures var after := Reduce(record, call).value;
            && after.Valid()
            && after.intent == record.intent
            && after.revision == record.revision + 1
            && after.fence >= record.fence
            && (!call.SettleCall? ==> after.fence > record.fence)
            && after.attempt == record.attempt + (if call.BeginCall? then 1 else 0)
  {
    assert !Terminal(Planned) && !Terminal(Dispatching);
  }

  /** The states an operation can move between: only a read-only or keyed idempotent
      dispatch returns to planned, and only an unknown outcome leaves a terminal state. */
  lemma ReduceMoves(record: Record, call: Call)
    requires record.Valid() && call.Valid()
    requires Reduce(record, call).Ok?
    ensures var after := Reduce(record, call).value;
            && (after.state.Planned? ==> record.state.Dispatching? && !Ambiguous(record.intent.effect))
            && (after.state.Dispatching? ==> record.state.Planned?)
            && (Terminal(record.state) ==> record.state.Unknown? && after.state in {Succeeded, Failed})
  {
    assert !Terminal(Planned) && !Terminal(Dispatching);
  }

  /** Evidence is accepted for exactly the record it names while that record is unknown or its
      interrupted dispatch is ambiguous, and its verdict decides: success carries the
      evidence's reference in the operation's own slot, anything else fails without a result. */
  lemma VerdictDecides(record: Record, call: Call)
    requires record.Valid() && call.Valid() && call.ReconcileCall?
    ensures Reduce(record, call).Ok? <==>
              && call.evidence.record == record
              && (record.state.Unknown? || (record.state.Dispatching? && Ambiguous(record.intent.effect)))
    ensures Reduce(record, call).Ok? ==>
              var after := Reduce(record, call).value;
              if call.evidence.verdict.VerdictSucceeded?
              then && after.state.Succeeded? && call.evidence.resultReference.Some?
                   && after.settlement.value.resultReference == call.evidence.resultReference
                   && after.settlement.value.resultSlot == Some(record.intent.ResultSlot())
              else after.state.Failed? && after.settlement.value.resultReference.None?
  {
    assert !Terminal(Planned) && !Terminal(Dispatching);
  }

  /** A settlement is accepted from the holder of the dispatch alone, or as a cancellation
      before any dispatch, and its outcome is the one asked for; only success has a result, and
      it is kept in the operation's own slot. */
  lemma SettlementIsTheHolders(record: Record, call: Call)
    requires record.Valid() && call.Valid() && call.SettleCall?
    ensures Reduce(record, call).Ok? <==>
              && (record.state.Dispatching? || (record.state.Planned? && call.settlement.state.Cancelled?))
              && call.fence == record.fence
              && (call.settlement.state.Succeeded? ==>
                    call.settlement.resultSlot in {None, Some(record.intent.ResultSlot())})
    ensures Reduce(record, call).Ok? ==>
              var after := Reduce(record, call).value;
              && after.state == call.settlement.state
              && after.settlement.value.resultReference == call.settlement.resultReference
              && (after.settlement.value.resultSlot.Some? <==> after.state.Succeeded?)
              && after.worker == record.worker && after.fence == record.fence
  {
    assert !Terminal(Planned) && !Terminal(Dispatching);
  }
}
