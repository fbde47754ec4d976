/** Concurrent executions of one operation through the gateway, an external provider that
    commits on its own, process deaths at every boundary, recovery and reconciliation
    (src/agnoclaw/runtime/gateway.py, scripts/operation_effect_crash_probe.py). */
module EffectGateway {
  import opened Wrappers
  import opened Operations
  import opened OperationLedger

  /** The operation under execution and the worker identity of each execution. */
  datatype Context = Context(intent: Intent, workerOf: nat -> string)

  /** Where one call of `execute` stands; the record is the one it read last. */
  datatype Phase =
    | Idle
    | Prepared(record: Record)
    | Active(record: Record)
    | Delivered(record: Record)
    | Finished(replayed: bool)

  /** The provider's two tables: deliveries, by execution, and committed effects, by key. */
  datatype Provider = Provider(deliveries: seq<nat>, effects: seq<Option<string>>)

  datatype State = State(ledger: Option<Ledger>, provider: Provider, phases: map<nat, Phase>)

  datatype Step =
    | PrepareStep(execution: nat)
    | CancelPrepared(execution: nat)
    | BeginStep(execution: nat)
    | CancelActive(execution: nat)
    | PreDispatchFails(execution: nat)
    | DeliverStep(execution: nat)
    | DispatchRaises(execution: nat)
    | CancelDuring(execution: nat)
    | DispatchDeferred(execution: nat)
    | SettleStep(execution: nat, reference: string)
    | Crash(execution: nat)
    | RecoverStep(name: string, expectedRevision: nat, nextFence: nat)
    | ReconcileStep(name: string, evidence: Reconciliation)
  {
    predicate Valid() {
      ReconcileStep? ==> evidence.Valid()
    }
  }

  const INITIAL := State(None, Provider([], []), map[])

  function PhaseOf(s: State, i: nat): Phase {
    if i in s.phases then s.phases[i] else Idle
  }

  /** One provider transaction: a delivery row always, and an effect row by effect class; the
      idempotency key is unique, a missing key is not. */
  function ProviderDispatch(p: Provider, i: nat, intent: Intent): Provider {
    Provider(
      p.deliveries + [i],
      match intent.effect
      case ReadOnly => p.effects
      case Idempotent =>
        if intent.idempotencyKey.Some? && intent.idempotencyKey in p.effects then p.effects
        else p.effects + [intent.idempotencyKey]
      case Compensatable => p.effects + [None]
      case NonRepeatable => p.effects + [None])
  }

  function Move(s: State, i: nat, phase: Phase): State {
    s.(phases := s.phases[i := phase])
  }

  function Failure(state: OpState): Settlement {
    Settlement(state, None, None)
  }

  /** A settlement by an execution that holds `held`; the execution ends either way. */
  function SettleAs(s: State, i: nat, id: MutationId, held: Record, settlement: Settlement): State {
    if s.ledger.None? then Move(s, i, Finished(false))
    else
      var (ledger, _) := Mutate(s.ledger.value, id, SettleCall(held.revision, held.fence, settlement));
      Move(s.(ledger := Some(ledger)), i, Finished(false))
  }

  function PrepareExecution(c: Context, s: State, i: nat): State {
    var (ledger, outcome) := Prepare(s.ledger, c.intent);
    var s' := s.(ledger := ledger);
    if outcome.Err? then Move(s', i, Finished(false))
    else if outcome.value.record.state.Succeeded? then Move(s', i, Finished(true))
    else if !outcome.value.record.state.Planned? then Move(s', i, Finished(false))
    else Move(s', i, Prepared(outcome.value.record))
  }

  /** The gateway does not look at whether the begin was applied or answered from the table. */
  function BeginExecution(c: Context, s: State, i: nat, seen: Record): State {
    if s.ledger.None? then Move(s, i, Finished(false))
    else
      var fence := seen.fence + 1;
      var (ledger, outcome) :=
        Mutate(s.ledger.value, DispatchId(seen.attempt + 1, fence), BeginCall(seen.revision, c.workerOf(i), fence));
      match outcome
      case Ok(decision) => Move(s.(ledger := Some(ledger)), i, Active(decision.record))
      case Err(RevisionConflict(_, _)) => Move(s, i, Finished(s.ledger.value.record.state.Succeeded?))
      case Err(_) => Move(s, i, Finished(false))
  }

  predicate InDispatch(phase: Phase) {
    phase.Active? || phase.Delivered?
  }

  function Next(c: Context, s: State, step: Step): State {
    match step
    case PrepareStep(i) =>
      if PhaseOf(s, i).Idle? then PrepareExecution(c, s, i) else s
    case CancelPrepared(i) =>
      if PhaseOf(s, i).Prepared? then SettleAs(s, i, CancelId, PhaseOf(s, i).record, Failure(Cancelled)) else s
    case BeginStep(i) =>
      if PhaseOf(s, i).Prepared? then BeginExecution(c, s, i, PhaseOf(s, i).record) else s
    case CancelActive(i) =>
      if PhaseOf(s, i).Active? then
        SettleAs(s, i, SettleId(PhaseOf(s, i).record.fence), PhaseOf(s, i).record, Failure(Cancelled))
      else s
    case PreDispatchFails(i) =>
      if PhaseOf(s, i).Active? then
        SettleAs(s, i, SettleId(PhaseOf(s, i).record.fence), PhaseOf(s, i).record, Failure(Failed))
      else s
    case DeliverStep(i) =>
      if PhaseOf(s, i).Active? then
        Move(s.(provider := ProviderDispatch(s.provider, i, c.intent)), i, Delivered(PhaseOf(s, i).record))
      else s
    case DispatchRaises(i) =>
      if InDispatch(PhaseOf(s, i)) then
        SettleAs(s, i, SettleId(PhaseOf(s, i).record.fence), PhaseOf(s, i).record,
                 Failure(if Ambiguous(c.intent.effect) then Unknown else Failed))
      else s
    case CancelDuring(i) =>
      if !InDispatch(PhaseOf(s, i)) then s
      else if Ambiguous(c.intent.effect) then
        SettleAs(s, i, SettleId(PhaseOf(s, i).record.fence), PhaseOf(s, i).record, Failure(Unknown))
      else Move(s, i, Finished(false))
    case DispatchDeferred(i) =>
      if InDispatch(PhaseOf(s, i)) then Move(s, i, Finished(false)) else s
    case SettleStep(i, reference) =>
      if PhaseOf(s, i).Delivered? then
        SettleAs(s, i, SettleId(PhaseOf(s, i).record.fence), PhaseOf(s, i).record,
                 Settlement(Succeeded, Some(reference), Some(c.intent.ResultSlot())))
      else s
    case Crash(i) => Move(s, i, Finished(false))
    case RecoverStep(name, expectedRevision, nextFence) =>
      if s.ledger.None? then s
      else s.(ledger := Some(Mutate(s.ledger.value, CallerId(name), RecoverCall(expectedRevision, nextFence)).0))
    case ReconcileStep(name, evidence) =>
      if s.ledger.None? then s
      else
        s.(ledger := Some(Mutate(s.ledger.value, CallerId(name),
                                 ReconcileCall(evidence.record.revision, evidence)).0))
  }

  function Run(c: Context, s: State, steps: seq<Step>): State
    decreases |steps|
  {
    if steps == [] then s else Run(c, Next(c, s, steps[0]), steps[1..])
  }

  // ----- Effects against deliveries -----

  /** Read-only: no effect. Idempotent: one effect as soon as there is a delivery. Otherwise
      one effect for each delivery. */
  predicate EffectsMatch(intent: Intent, p: Provider) {
    match intent.effect
    case ReadOnly => p.effects == []
    case Idempotent => p.effects == if p.deliveries == [] then [] else [intent.idempotencyKey]
    case _ => |p.effects| == |p.deliveries|
  }

  /** For every schedule of executions, crashes, recoveries and retries, however many
      deliveries occur and whatever the worker identities are. */
  lemma {:induction false} EffectsOfEverySchedule(c: Context, s: State, steps: seq<Step>)
    requires c.intent.Valid() && EffectsMatch(c.intent, s.provider)
    ensures EffectsMatch(c.intent, Run(c, s, steps).provider)
    decreases |steps|
  {
    if steps != [] {
      EffectsOfEverySchedule(c, Next(c, s, steps[0]), steps[1..]);
    }
  }

  // ----- How a step reaches the ledger -----

  /** The mutation a step asks of the ledger, if any. */
  function Request(c: Context, s: State, step: Step): Option<(MutationId, Call)> {
    match step
    case CancelPrepared(i) =>
      if PhaseOf(s, i).Prepared? then Some((CancelId, AsSettle(PhaseOf(s, i).record, Failure(Cancelled)))) else None
    case BeginStep(i) =>
      if PhaseOf(s, i).Prepared? then
        var seen := PhaseOf(s, i).record;
        Some((DispatchId(seen.attempt + 1, seen.fence + 1), BeginCall(seen.revision, c.workerOf(i), seen.fence + 1)))
      else None
    case CancelActive(i) => if PhaseOf(s, i).Active? then Held(s, i, Failure(Cancelled)) else None
    case PreDispatchFails(i) => if PhaseOf(s, i).Active? then Held(s, i, Failure(Failed)) else None
    case DispatchRaises(i) =>
      if InDispatch(PhaseOf(s, i)) then Held(s, i, Failure(if Ambiguous(c.intent.effect) then Unknown else Failed))
      else None
    case CancelDuring(i) =>
      if InDispatch(PhaseOf(s, i)) && Ambiguous(c.intent.effect) then Held(s, i, Failure(Unknown)) else None
    case SettleStep(i, reference) =>
      if PhaseOf(s, i).Delivered? then
        Held(s, i, Settlement(Succeeded, Some(reference), Some(c.intent.ResultSlot())))
      else None
    case RecoverStep(name, revision, fence) => Some((CallerId(name), RecoverCall(revision, fence)))
    case ReconcileStep(name, evidence) => Some((CallerId(name), ReconcileCall(evidence.record.revision, evidence)))
    case _ => None
  }

  function AsSettle(held: Record, settlement: Settlement): Call {
    SettleCall(held.revision, held.fence, settlement)
  }

  function Held(s: State, i: nat, settlement: Settlement): Option<(MutationId, Call)>
    requires InDispatch(PhaseOf(s, i))
  {
    var held := PhaseOf(s, i).record;
    Some((SettleId(held.fence), AsSettle(held, settlement)))
  }

  function LedgerAfter(c: Context, s: State, step: Step): Option<Ledger> {
    match s.ledger
    case None =>
      if step.PrepareStep? && PhaseOf(s, step.execution).Idle? then Some(Ledger(PlannedRecord(c.intent), map[]))
      else None
    case Some(ledger) =>
      match Request(c, s, step)
      case None => s.ledger
      case Some((id, call)) => Some(Mutate(ledger, id, call).0)
  }

  lemma NextLedger(c: Context, s: State, step: Step)
    ensures Next(c, s, step).ledger == LedgerAfter(c, s, step)
  {
  }

  lemma RequestsAreValid(c: Context, s: State, step: Step)
    requires step.Valid() && Request(c, s, step).Some?
    ensures Request(c, s, step).value.1.Valid()
  {
  }

  ghost predicate LedgerOk(c: Context, s: State) {
    s.ledger.Some? ==> s.ledger.value.record.Valid() && s.ledger.value.record.intent == c.intent
  }

  /** What one mutation can do to a well-formed ledger. */
  lemma MutateMoves(ledger: Ledger, id: MutationId, call: Call)
    requires ledger.record.Valid() && call.Valid()
    ensures var after := Mutate(ledger, id, call).0;
            && after.record.Valid()
            && after.record.intent == ledger.record.intent
            && (after != ledger ==>
                  && id !in ledger.rows
                  && after.rows == ledger.rows[id := Row(call, after.record)]
                  && (after.record.state.Planned? ==> ledger.record.state.Dispatching? && !Ambiguous(ledger.record.intent.effect))
                  && (call.BeginCall? ==> ledger.record.state.Planned?)
                  && (Terminal(ledger.record.state) ==> ledger.record.state.Unknown? && Terminal(after.record.state))
                  && after.record.revision == ledger.record.revision + 1)
  {
  }

  lemma NextKeepsLedgerOk(c: Context, s: State, step: Step)
    requires c.intent.Valid() && step.Valid() && LedgerOk(c, s)
    ensures LedgerOk(c, Next(c, s, step))
  {
    NextLedger(c, s, step);
    if s.ledger.Some? && Request(c, s, step).Some? {
      RequestsAreValid(c, s, step);
      MutateMoves(s.ledger.value, Request(c, s, step).value.0, Request(c, s, step).value.1);
    }
  }

  // ----- Success means a committed delivery, or independent evidence -----

  /** A reconciliation row whose evidence says that the effect happened. */
  ghost predicate HasEvidence(ledger: Ledger) {
    exists m :: m in ledger.rows && ledger.rows[m].call.ReconcileCall? && ledger.rows[m].call.evidence.verdict.VerdictSucceeded?
  }

  /** The row ended the operation the way its call asks: a settlement with its own outcome and
      reference, evidence with its verdict and reference. */
  predicate Explains(row: Row, record: Record) {
    && row.record == record && record.settlement.Some?
    && match row.call
       case SettleCall(_, _, settlement) =>
         record.state == settlement.state && record.settlement.value.resultReference == settlement.resultReference
       case ReconcileCall(_, evidence) =>
         && record.state == (if evidence.verdict.VerdictSucceeded? then Succeeded else Failed)
         && record.settlement.value.resultReference == evidence.resultReference
       case _ => false
  }

  /** A terminal record was put there by one of the rows. */
  ghost predicate OutcomeOk(s: State) {
    s.ledger.Some? && Terminal(s.ledger.value.record.state) ==>
      exists m :: m in s.ledger.value.rows && Explains(s.ledger.value.rows[m], s.ledger.value.record)
  }

  ghost predicate SuccessOk(s: State) {
    && (forall i :: PhaseOf(s, i).Delivered? ==> i in s.provider.deliveries)
    && (s.ledger.Some? && s.ledger.value.record.state.Succeeded? ==>
          s.provider.deliveries != [] || HasEvidence(s.ledger.value))
  }

  lemma NextPhase(c: Context, s: State, step: Step, i: nat)
    ensures var was, now := PhaseOf(s, i), PhaseOf(Next(c, s, step), i);
            && (now.Delivered? && now != was ==> step == DeliverStep(i) && was.Active?)
            && (now.Active? && now != was ==> step == BeginStep(i) && was.Prepared?)
            && (now.Prepared? && now != was ==> step == PrepareStep(i) && was.Idle?)
            && (now.Idle? ==> was.Idle?)
  {
  }

  lemma NextKeepsDelivered(c: Context, s: State, step: Step)
    requires SuccessOk(s)
    ensures forall i :: PhaseOf(Next(c, s, step), i).Delivered? ==> i in Next(c, s, step).provider.deliveries
  {
    forall i | PhaseOf(Next(c, s, step), i).Delivered?
      ensures i in Next(c, s, step).provider.deliveries
    {
      NextPhase(c, s, step, i);
    }
  }

  /** A mutation that ends the operation leaves the row that explains it. */
  lemma MutationExplains(ledger: Ledger, id: MutationId, call: Call)
    requires ledger.record.Valid() && call.Valid() && Mutate(ledger, id, call).0 != ledger
    requires Terminal(Mutate(ledger, id, call).0.record.state)
    ensures var after := Mutate(ledger, id, call).0;
            id in after.rows && after.rows[id].call == call && Explains(after.rows[id], after.record)
  {
    assert !Terminal(Planned) && !Terminal(Dispatching);
    if call.ReconcileCall? { VerdictDecides(ledger.record, call); }
    if call.SettleCall? { SettlementIsTheHolders(ledger.record, call); }
  }

  lemma NextKeepsOutcome(c: Context, s: State, step: Step)
    requires step.Valid() && LedgerOk(c, s) && OutcomeOk(s)
    ensures OutcomeOk(Next(c, s, step))
  {
    NextLedger(c, s, step);
    var s' := Next(c, s, step);
    if s.ledger.Some? && s'.ledger != s.ledger && Terminal(s'.ledger.value.record.state) {
      RequestsAreValid(c, s, step);
      var (id, call) := Request(c, s, step).value;
      MutationExplains(s.ledger.value, id, call);
      assert Explains(s'.ledger.value.rows[id], s'.ledger.value.record);
    }
  }

  lemma NextKeepsSuccess(c: Context, s: State, step: Step)
    requires step.Valid() && LedgerOk(c, s) && SuccessOk(s)
    ensures SuccessOk(Next(c, s, step))
  {
    var s' := Next(c, s, step);
    NextKeepsDelivered(c, s, step);
    if s'.ledger.Some? && s'.ledger.value.record.state.Succeeded? {
      NextLedger(c, s, step);
      if s'.ledger != s.ledger {
        var (id, call) := Request(c, s, step).value;
        RequestsAreValid(c, s, step);
        MutationExplains(s.ledger.value, id, call);
        if call.ReconcileCall? {
          assert s'.ledger.value.rows[id].call.evidence.verdict.VerdictSucceeded?;
        } else {
          assert step.SettleStep?;
        }
      } else if s.provider.deliveries == [] {
        assert HasEvidence(s'.ledger.value);
      }
    }
  }

  lemma {:induction false} RunKeepsSuccess(c: Context, s: State, steps: seq<Step>)
    requires c.intent.Valid() && (forall x :: x in steps ==> x.Valid())
    requires LedgerOk(c, s) && SuccessOk(s) && OutcomeOk(s)
    ensures LedgerOk(c, Run(c, s, steps)) && SuccessOk(Run(c, s, steps)) && OutcomeOk(Run(c, s, steps))
    decreases |steps|
  {
    if steps != [] {
      NextKeepsLedgerOk(c, s, steps[0]);
      NextKeepsSuccess(c, s, steps[0]);
      NextKeepsOutcome(c, s, steps[0]);
      RunKeepsSuccess(c, Next(c, s, steps[0]), steps[1..]);
    }
  }

  /** Some schedule leads here. */
  ghost predicate Reachable(c: Context, s: State) {
    exists steps: seq<Step> :: AllValid(steps) && s == Run(c, INITIAL, steps)
  }

  predicate AllValid(steps: seq<Step>) {
    forall x :: x in steps ==> x.Valid()
  }

  /** In every reachable state the record keeps its intent and its form, success is backed by
      a delivery or by evidence of success, and a terminal record has the outcome and the
      reference that the settlement or the evidence of one of its rows names. */
  lemma SuccessWasDelivered(c: Context, s: State)
    requires c.intent.Valid() && Reachable(c, s)
    ensures LedgerOk(c, s) && OutcomeOk(s)
    ensures s.ledger.Some? && s.ledger.value.record.state.Succeeded? ==>
              s.provider.deliveries != [] || HasEvidence(s.ledger.value)
  {
    var steps: seq<Step> :| AllValid(steps) && s == Run(c, INITIAL, steps);
    RunKeepsSuccess(c, INITIAL, steps);
  }

  /** An execution that ends as a replay has found the operation succeeded. */
  ghost predicate ReplaysOk(s: State) {
    forall i :: PhaseOf(s, i) == Finished(true) ==> s.ledger.Some? && s.ledger.value.record.state.Succeeded?
  }

  lemma SuccessStays(c: Context, s: State, step: Step)
    requires c.intent.Valid() && step.Valid() && LedgerOk(c, s)
    requires s.ledger.Some? && s.ledger.value.record.state.Succeeded?
    ensures Next(c, s, step).ledger == s.ledger
  {
    NextLedger(c, s, step);
    if Request(c, s, step).Some? {
      RequestsAreValid(c, s, step);
      MutateMoves(s.ledger.value, Request(c, s, step).value.0, Request(c, s, step).value.1);
    }
  }

  lemma NextReplay(c: Context, s: State, step: Step, i: nat)
    requires PhaseOf(Next(c, s, step), i) == Finished(true) && PhaseOf(s, i) != Finished(true)
    ensures Next(c, s, step).ledger.Some? && Next(c, s, step).ledger.value.record.state.Succeeded?
  {
  }

  lemma {:induction false} RunKeepsReplays(c: Context, s: State, steps: seq<Step>)
    requires c.intent.Valid() && AllValid(steps) && LedgerOk(c, s) && ReplaysOk(s)
    ensures ReplaysOk(Run(c, s, steps))
    decreases |steps|
  {
    if steps != [] {
      NextKeepsLedgerOk(c, s, steps[0]);
      forall i | PhaseOf(Next(c, s, steps[0]), i) == Finished(true)
        ensures Next(c, s, steps[0]).ledger.Some? && Next(c, s, steps[0]).ledger.value.record.state.Succeeded?
      {
        if PhaseOf(s, i) == Finished(true) { SuccessStays(c, s, steps[0]); } else { NextReplay(c, s, steps[0], i); }
      }
      RunKeepsReplays(c, Next(c, s, steps[0]), steps[1..]);
    }
  }

  /** The operation has moved on since this execution read it, and has no begin of its own. */
  predicate ComesLate(s: State, i: nat) {
    && s.ledger.Some? && PhaseOf(s, i).Prepared?
    && var seen := PhaseOf(s, i).record;
       seen.revision != s.ledger.value.record.revision
       && DispatchId(seen.attempt + 1, seen.fence + 1) !in s.ledger.value.rows
  }

  /** In every reachable state an execution has ended as a replay only of a succeeded
      operation, and one that starts or comes late then ends so, leaving ledger and provider
      alone. */
  lemma ReplayIffSucceeded(c: Context, s: State, i: nat)
    requires c.intent.Valid() && Reachable(c, s)
    ensures PhaseOf(s, i) == Finished(true) ==> s.ledger.Some? && s.ledger.value.record.state.Succeeded?
    ensures PhaseOf(s, i).Idle? ==>
              var s' := Next(c, s, PrepareStep(i));
              && (PhaseOf(s', i) == Finished(true) <==> s.ledger.Some? && s.ledger.value.record.state.Succeeded?)
              && (s.ledger.Some? ==> s'.ledger == s.ledger) && s'.provider == s.provider
    ensures ComesLate(s, i) ==>
              Next(c, s, BeginStep(i)) == Move(s, i, Finished(s.ledger.value.record.state.Succeeded?))
  {
    var steps: seq<Step> :| AllValid(steps) && s == Run(c, INITIAL, steps);
    RunKeepsReplays(c, INITIAL, steps);
    SuccessWasDelivered(c, s);
  }

  // ----- A settled or ambiguous operation is never dispatched again -----

  /** No later execution can begin this operation: it is terminal, or its interrupted
      dispatch is ambiguous. */
  predicate Closed(s: State) {
    && s.ledger.Some?
    && var record := s.ledger.value.record;
       Terminal(record.state) || (record.state.Dispatching? && Ambiguous(record.intent.effect))
  }

  /** The execution has not started, or is over. */
  predicate Outside(s: State, i: nat) {
    PhaseOf(s, i).Idle? || PhaseOf(s, i).Finished?
  }

  lemma NextKeepsClosed(c: Context, s: State, step: Step, i: nat)
    requires c.intent.Valid() && step.Valid()
    requires LedgerOk(c, s) && Closed(s) && Outside(s, i)
    ensures var s' := Next(c, s, step);
            && Closed(s') && Outside(s', i)
            && (i in s'.provider.deliveries ==> i in s.provider.deliveries)
            && (!s.ledger.value.record.state.Unknown? && Terminal(s.ledger.value.record.state) ==>
                  s'.ledger.value.record == s.ledger.value.record)
  {
    NextLedger(c, s, step);
    NextPhase(c, s, step, i);
    if Request(c, s, step).Some? {
      RequestsAreValid(c, s, step);
      MutateMoves(s.ledger.value, Request(c, s, step).value.0, Request(c, s, step).value.1);
    }
    if step.PrepareStep? && step.execution == i && PhaseOf(s, i).Idle? {
      assert !s.ledger.value.record.state.Planned?;
      assert Outside(PrepareExecution(c, s, i), i);
    }
  }

  lemma {:induction false} RunKeepsClosed(c: Context, s: State, steps: seq<Step>, i: nat)
    requires c.intent.Valid() && (forall x :: x in steps ==> x.Valid())
    requires LedgerOk(c, s) && Closed(s) && Outside(s, i)
    ensures var s' := Run(c, s, steps);
            && (i in s'.provider.deliveries ==> i in s.provider.deliveries)
            && s'.ledger.Some?
            && (!s.ledger.value.record.state.Unknown? && Terminal(s.ledger.value.record.state) ==>
                  s'.ledger.value.record == s.ledger.value.record)
    decreases |steps|
  {
    if steps != [] {
      NextKeepsClosed(c, s, steps[0], i);
      NextKeepsLedgerOk(c, s, steps[0]);
      RunKeepsClosed(c, Next(c, s, steps[0]), steps[1..], i);
    }
  }

  /** An execution that starts after the operation is closed delivers nothing, in any
      continuation, and a settled outcome other than unknown never changes: the terminal
      operation is replayed, not dispatched. */
  lemma ClosedOperationIsNotDispatched(c: Context, s: State, steps: seq<Step>, i: nat)
    requires c.intent.Valid() && AllValid(steps)
    requires Reachable(c, s) && Closed(s) && Outside(s, i)
    ensures var s' := Run(c, s, steps);
            && (i in s'.provider.deliveries ==> i in s.provider.deliveries)
            && s'.ledger.Some?
            && (!s.ledger.value.record.state.Unknown? && Terminal(s.ledger.value.record.state) ==>
                  s'.ledger.value.record == s.ledger.value.record)
  {
    SuccessWasDelivered(c, s);
    RunKeepsClosed(c, s, steps, i);
  }

  // ----- At most one delivery of an ambiguous effect -----

  predicate Begun(s: State, i: nat) {
    InDispatch(PhaseOf(s, i)) || i in s.provider.deliveries
  }

  /** Every execution that got past the begin carries the worker identity of the one begin
      that was committed. */
  ghost predicate OneOwner(c: Context, s: State) {
    && (s.ledger.None? || s.ledger.value.record.state.Planned? ==>
          s.provider.deliveries == [] && (forall i :: !Begun(s, i)))
    && (s.ledger.Some? && s.ledger.value.record.state.Planned? ==> s.ledger.value.rows == map[])
    && (forall i, j :: Begun(s, i) && Begun(s, j) ==> c.workerOf(i) == c.workerOf(j))
    && (s.ledger.Some? ==> BeginRowsAgree(c, s, s.ledger.value))
  }

  ghost predicate BeginRowsAgree(c: Context, s: State, ledger: Ledger) {
    && (forall m, n :: m in ledger.rows && n in ledger.rows && ledger.rows[m].call.BeginCall? && ledger.rows[n].call.BeginCall? ==>
          ledger.rows[m].call.worker == ledger.rows[n].call.worker)
    && (forall m, i :: m in ledger.rows && ledger.rows[m].call.BeginCall? && Begun(s, i) ==>
          c.workerOf(i) == ledger.rows[m].call.worker)
  }

  /** An execution in the active phase has not delivered yet, and none delivers twice. */
  ghost predicate DeliversOnce(s: State) {
    && (forall i :: PhaseOf(s, i).Active? || PhaseOf(s, i).Prepared? || PhaseOf(s, i).Idle? ==> i !in s.provider.deliveries)
    && (forall p, q :: 0 <= p < q < |s.provider.deliveries| ==> s.provider.deliveries[p] != s.provider.deliveries[q])
  }

  lemma NextKeepsDeliversOnce(c: Context, s: State, step: Step)
    requires DeliversOnce(s)
    ensures DeliversOnce(Next(c, s, step))
  {
    var s' := Next(c, s, step);
    if step.DeliverStep? && PhaseOf(s, step.execution).Active? {
      assert s'.provider.deliveries == s.provider.deliveries + [step.execution];
    } else {
      assert s'.provider == s.provider;
    }
    forall i | PhaseOf(s', i).Active? || PhaseOf(s', i).Prepared? || PhaseOf(s', i).Idle?
      ensures i !in s'.provider.deliveries
    {
      NextPhase(c, s, step, i);
    }
  }

  /** Only the committed begin, or its replay with the same worker, makes an execution active. */
  lemma NextBegun(c: Context, s: State, step: Step, i: nat)
    requires Begun(Next(c, s, step), i) && !Begun(s, i)
    ensures step == BeginStep(i) && PhaseOf(s, i).Prepared? && s.ledger.Some?
    ensures var id := DispatchId(PhaseOf(s, i).record.attempt + 1, PhaseOf(s, i).record.fence + 1);
            && Next(c, s, step).ledger.Some?
            && id in Next(c, s, step).ledger.value.rows
            && Next(c, s, step).ledger.value.rows[id].call.BeginCall?
            && Next(c, s, step).ledger.value.rows[id].call.worker == c.workerOf(i)
  {
  }

  /** The begin rows of the next ledger are the old ones, unless this step committed the
      first begin of a planned operation. */
  lemma NextBeginRows(c: Context, s: State, step: Step, m: MutationId)
    requires step.Valid() && LedgerOk(c, s)
    requires var l := Next(c, s, step).ledger; l.Some? && m in l.value.rows && l.value.rows[m].call.BeginCall?
    ensures s.ledger.Some?
    ensures || (m in s.ledger.value.rows && s.ledger.value.rows[m] == Next(c, s, step).ledger.value.rows[m])
            || (&& s.ledger.value.record.state.Planned? && step.BeginStep?
                && Next(c, s, step).ledger.value.rows[m].call.worker == c.workerOf(step.execution))
  {
    NextLedger(c, s, step);
    if s.ledger.Some? && Request(c, s, step).Some? {
      RequestsAreValid(c, s, step);
      MutateMoves(s.ledger.value, Request(c, s, step).value.0, Request(c, s, step).value.1);
    }
  }

  lemma NextPlanned(c: Context, s: State, step: Step)
    requires step.Valid() && LedgerOk(c, s) && Ambiguous(c.intent.effect) && OneOwner(c, s)
    requires var l := Next(c, s, step).ledger; l.None? || l.value.record.state.Planned?
    ensures s.ledger.None? || s.ledger.value.record.state.Planned?
    ensures Next(c, s, step).ledger.Some? ==> Next(c, s, step).ledger.value.rows == map[]
    ensures forall i :: !Begun(Next(c, s, step), i)
    ensures Next(c, s, step).provider.deliveries == []
  {
    NextLedger(c, s, step);
    if s.ledger.Some? && Request(c, s, step).Some? {
      RequestsAreValid(c, s, step);
      MutateMoves(s.ledger.value, Request(c, s, step).value.0, Request(c, s, step).value.1);
      assert s.ledger.value.record.state.Planned?;
    }
    assert !(step.DeliverStep? && PhaseOf(s, step.execution).Active?) by {
      if step.DeliverStep? { assert !Begun(s, step.execution); }
    }
    assert Next(c, s, step).provider == s.provider;
    forall i
      ensures !Begun(Next(c, s, step), i)
    {
      assert !Begun(s, i);
      if Begun(Next(c, s, step), i) { NextBegun(c, s, step, i); }
    }
  }

  /** The owner of a begun execution, seen from the next state. */
  lemma NextWorkersAgree(c: Context, s: State, step: Step, i: nat, j: nat)
    requires step.Valid() && LedgerOk(c, s) && OneOwner(c, s)
    requires Begun(Next(c, s, step), i) && Begun(Next(c, s, step), j)
    ensures c.workerOf(i) == c.workerOf(j)
  {
    if !Begun(s, i) { NextBegun(c, s, step, i); }
    if !Begun(s, j) { NextBegun(c, s, step, j); }
    if !Begun(s, i) && Begun(s, j) {
      var m := DispatchId(PhaseOf(s, i).record.attempt + 1, PhaseOf(s, i).record.fence + 1);
      NextBeginRows(c, s, step, m);
    }
    if !Begun(s, j) && Begun(s, i) {
      var m := DispatchId(PhaseOf(s, j).record.attempt + 1, PhaseOf(s, j).record.fence + 1);
      NextBeginRows(c, s, step, m);
    }
  }

  lemma NextRowsAgree(c: Context, s: State, step: Step, m: MutationId, i: nat)
    requires step.Valid() && LedgerOk(c, s) && OneOwner(c, s)
    requires var l := Next(c, s, step).ledger; l.Some? && m in l.value.rows && l.value.rows[m].call.BeginCall?
    requires Begun(Next(c, s, step), i)
    ensures c.workerOf(i) == Next(c, s, step).ledger.value.rows[m].call.worker
  {
    NextBeginRows(c, s, step, m);
    if !Begun(s, i) {
      NextBegun(c, s, step, i);
      NextBeginRows(c, s, step, DispatchId(PhaseOf(s, i).record.attempt + 1, PhaseOf(s, i).record.fence + 1));
    }
  }

  lemma NextBeginRowsAgree(c: Context, s: State, step: Step, m: MutationId, n: MutationId)
    requires step.Valid() && LedgerOk(c, s) && OneOwner(c, s)
    requires var l := Next(c, s, step).ledger;
             l.Some? && m in l.value.rows && n in l.value.rows
             && l.value.rows[m].call.BeginCall? && l.value.rows[n].call.BeginCall?
    ensures var l := Next(c, s, step).ledger.value; l.rows[m].call.worker == l.rows[n].call.worker
  {
    NextBeginRows(c, s, step, m);
    NextBeginRows(c, s, step, n);
  }

  lemma NextKeepsOneOwner(c: Context, s: State, step: Step)
    requires step.Valid() && LedgerOk(c, s) && Ambiguous(c.intent.effect) && OneOwner(c, s)
    ensures OneOwner(c, Next(c, s, step))
  {
    var s' := Next(c, s, step);
    if s'.ledger.None? || s'.ledger.value.record.state.Planned? { NextPlanned(c, s, step); }
    forall i, j | Begun(s', i) && Begun(s', j) ensures c.workerOf(i) == c.workerOf(j) {
      NextWorkersAgree(c, s, step, i, j);
    }
    if s'.ledger.Some? {
      var l := s'.ledger.value;
      forall m, n | m in l.rows && n in l.rows && l.rows[m].call.BeginCall? && l.rows[n].call.BeginCall?
        ensures l.rows[m].call.worker == l.rows[n].call.worker
      {
        NextBeginRowsAgree(c, s, step, m, n);
      }
      forall m, i | m in l.rows && l.rows[m].call.BeginCall? && Begun(s', i)
        ensures c.workerOf(i) == l.rows[m].call.worker
      {
        NextRowsAgree(c, s, step, m, i);
      }
    }
  }

  lemma {:induction false} OwnerOfEverySchedule(c: Context, s: State, steps: seq<Step>)
    requires c.intent.Valid() && Ambiguous(c.intent.effect) && (forall x :: x in steps ==> x.Valid())
    requires LedgerOk(c, s) && OneOwner(c, s) && DeliversOnce(s)
    ensures OneOwner(c, Run(c, s, steps)) && DeliversOnce(Run(c, s, steps))
    decreases |steps|
  {
    if steps != [] {
      NextKeepsLedgerOk(c, s, steps[0]);
      NextKeepsOneOwner(c, s, steps[0]);
      NextKeepsDeliversOnce(s := s, c := c, step := steps[0]);
      OwnerOfEverySchedule(c, Next(c, s, steps[0]), steps[1..]);
    }
  }

  predicate DistinctWorkers(c: Context, i: nat, j: nat) {
    c.workerOf(i) == c.workerOf(j) ==> i == j
  }

  lemma DistinctWorkersDeliverOnce(c: Context, steps: seq<Step>)
    requires c.intent.Valid() && Ambiguous(c.intent.effect) && (forall x :: x in steps ==> x.Valid())
    requires forall i, j :: DistinctWorkers(c, i, j)
    ensures |Run(c, INITIAL, steps).provider.deliveries| <= 1
  {
    OwnerOfEverySchedule(c, INITIAL, steps);
    var s := Run(c, INITIAL, steps);
    var d := s.provider.deliveries;
    if |d| > 1 {
      assert Begun(s, d[0]) && Begun(s, d[1]);
      var same := DistinctWorkers(c, d[0], d[1]);
      assert false;
    }
  }

  /** Two executions that both read the planned record and share a worker identity: the begin
      of the second is answered from the mutation table, and the gateway dispatches again. */
  function SharedWorkerSchedule(i: nat, j: nat): seq<Step> {
    BothBegin(i, j) + [DeliverStep(i), DeliverStep(j)]
  }

  /** Both executions are past the begin, with the same record in hand. */
  ghost predicate BothActive(c: Context, s: State, i: nat, j: nat) {
    && PhaseOf(s, i).Active? && PhaseOf(s, j) == PhaseOf(s, i) && s.provider.deliveries == []
    && s.ledger.Some? && s.ledger.value.record == PhaseOf(s, i).record && s.ledger.value.record.state.Dispatching?
    && (forall m :: m in s.ledger.value.rows ==> m.DispatchId? && s.ledger.value.rows[m].call.BeginCall?)
  }

  function BothBegin(i: nat, j: nat): seq<Step> {
    [PrepareStep(i), PrepareStep(j), BeginStep(i), BeginStep(j)]
  }

  lemma SharedWorkerBegins(c: Context, i: nat, j: nat)
    requires i != j && c.workerOf(i) == c.workerOf(j)
    ensures BothActive(c, Run(c, INITIAL, BothBegin(i, j)), i, j)
  {
    var planned := PlannedRecord(c.intent);
    var s1 := Next(c, INITIAL, PrepareStep(i));
    var s2 := Next(c, s1, PrepareStep(j));
    assert PhaseOf(s2, i) == Prepared(planned) && PhaseOf(s2, j) == Prepared(planned);
    var s3 := Next(c, s2, BeginStep(i));
    var active := planned.(state := Dispatching, revision := 1, attempt := 1, fence := 1, worker := Some(c.workerOf(i)));
    assert PhaseOf(s3, i) == Active(active) && PhaseOf(s3, j) == Prepared(planned);
    var s4 := Next(c, s3, BeginStep(j));
    assert PhaseOf(s4, i) == Active(active) && PhaseOf(s4, j) == Active(active);
    var steps := BothBegin(i, j);
    RunFirst(c, INITIAL, steps, 0);
    RunFirst(c, s1, steps, 1);
    RunFirst(c, s2, steps, 2);
    RunFirst(c, s3, steps, 3);
    assert steps[0..] == steps && steps[4..] == [];
  }

  lemma RunTwoMore(c: Context, s: State, first: seq<Step>, x: Step, y: Step)
    ensures Run(c, s, first + [x, y]) == Next(c, Next(c, Run(c, s, first), x), y)
    decreases |first|
  {
    if first == [] {
      assert first + [x, y] == [x, y] && [x, y][1..] == [y];
      RunFirst(c, s, [x, y], 0);
      RunFirst(c, Next(c, s, x), [x, y], 1);
      assert [x, y][0..] == [x, y] && [x, y][2..] == [];
    } else {
      assert (first + [x, y])[1..] == first[1..] + [x, y];
      RunTwoMore(c, Next(c, s, first[0]), first[1..], x, y);
    }
  }

  lemma SharedWorkerDeliversTwice(c: Context, i: nat, j: nat)
    requires i != j && c.workerOf(i) == c.workerOf(j)
    ensures Run(c, INITIAL, SharedWorkerSchedule(i, j)).provider.deliveries == [i, j]
  {
    SharedWorkerBegins(c, i, j);
    RunTwoMore(c, INITIAL, BothBegin(i, j), DeliverStep(i), DeliverStep(j));
  }

  lemma RunFirst(c: Context, s: State, steps: seq<Step>, k: nat)
    requires k < |steps|
    ensures Run(c, s, steps[k..]) == Run(c, Next(c, s, steps[k]), steps[k + 1..])
  {
  }

  /** An effect that must not be repeated is delivered at most once in every schedule if and
      only if no two executions share a worker identity. */
  lemma AtMostOneDelivery(c: Context)
    requires c.intent.Valid() && Ambiguous(c.intent.effect)
    ensures (forall steps: seq<Step> :: (forall x :: x in steps ==> x.Valid()) ==>
               |Run(c, INITIAL, steps).provider.deliveries| <= 1)
            <==> (forall i: nat, j: nat :: DistinctWorkers(c, i, j))
  {
    if forall i: nat, j: nat :: DistinctWorkers(c, i, j) {
      forall steps: seq<Step> | forall x :: x in steps ==> x.Valid()
        ensures |Run(c, INITIAL, steps).provider.deliveries| <= 1
      {
        DistinctWorkersDeliverOnce(c, steps);
      }
    } else {
      var i: nat, j: nat :| !DistinctWorkers(c, i, j);
      SharedWorkerDeliversTwice(c, i, j);
      var steps := SharedWorkerSchedule(i, j);
      assert forall x :: x in steps ==> x.Valid();
      assert |Run(c, INITIAL, steps).provider.deliveries| == 2;
    }
  }

  // ----- What a failure says about the effect -----

  predicate Reconciled(ledger: Ledger) {
    exists m :: m in ledger.rows && ledger.rows[m].call.ReconcileCall?
  }

  predicate Started(phase: Phase) {
    !phase.Idle? && !phase.Prepared?
  }

  /** The row is a begin made with this execution's worker identity. */
  predicate BegunBy(c: Context, ledger: Ledger, m: MutationId, i: nat) {
    m in ledger.rows && ledger.rows[m].call.BeginCall? && ledger.rows[m].call.worker == c.workerOf(i)
  }

  /** Executions that read the planned record hold its revision; a begun operation has a later
      one, and whoever made the begin is past it. */
  ghost predicate StartsKnown(c: Context, s: State) {
    && (s.ledger.Some? ==> (s.ledger.value.record.state.Planned? <==> s.ledger.value.record.revision == 0))
    && (forall i :: PhaseOf(s, i).Prepared? ==> PhaseOf(s, i).record.revision == 0)
    && (s.ledger.Some? ==>
          forall m, i :: BegunBy(c, s.ledger.value, m, i) ==> Started(PhaseOf(s, i)))
  }

  /** Failed or cancelled without evidence from outside: nothing left, and nothing can. */
  ghost predicate FailureOk(s: State) {
    && (forall i :: PhaseOf(s, i).Delivered? ==> i in s.provider.deliveries)
    && (s.ledger.Some? && s.ledger.value.record.state in {Failed, Cancelled} && !Reconciled(s.ledger.value) ==>
          s.provider.deliveries == [] && forall i :: !PhaseOf(s, i).Active?)
  }

  ghost predicate AllDistinct(c: Context) {
    forall i: nat, j: nat :: DistinctWorkers(c, i, j)
  }

  lemma StaysStarted(c: Context, s: State, step: Step, i: nat)
    requires Started(PhaseOf(s, i))
    ensures Started(PhaseOf(Next(c, s, step), i))
  {
    NextPhase(c, s, step, i);
  }

  lemma BeginStarts(c: Context, s: State, i: nat)
    requires PhaseOf(s, i).Prepared?
    ensures Started(PhaseOf(Next(c, s, BeginStep(i)), i))
  {
  }

  lemma NextRowsStarted(c: Context, s: State, step: Step, m: MutationId, i: nat)
    requires step.Valid() && LedgerOk(c, s) && StartsKnown(c, s) && AllDistinct(c)
    requires Next(c, s, step).ledger.Some? && BegunBy(c, Next(c, s, step).ledger.value, m, i)
    ensures Started(PhaseOf(Next(c, s, step), i))
  {
    NextBeginRows(c, s, step, m);
    if m in s.ledger.value.rows && s.ledger.value.rows[m] == Next(c, s, step).ledger.value.rows[m] {
      assert BegunBy(c, s.ledger.value, m, i);
      StaysStarted(c, s, step, i);
    } else {
      assert DistinctWorkers(c, i, step.execution);
      if PhaseOf(s, i).Prepared? { BeginStarts(c, s, i); }
    }
  }

  lemma NextRevision(c: Context, s: State, step: Step)
    requires c.intent.Valid() && step.Valid() && LedgerOk(c, s) && StartsKnown(c, s) && Ambiguous(c.intent.effect)
    ensures var l := Next(c, s, step).ledger; l.Some? ==> (l.value.record.state.Planned? <==> l.value.record.revision == 0)
    ensures forall i :: PhaseOf(Next(c, s, step), i).Prepared? ==> PhaseOf(Next(c, s, step), i).record.revision == 0
  {
    NextLedger(c, s, step);
    if s.ledger.Some? && Request(c, s, step).Some? {
      RequestsAreValid(c, s, step);
      MutateMoves(s.ledger.value, Request(c, s, step).value.0, Request(c, s, step).value.1);
    }
    forall i | PhaseOf(Next(c, s, step), i).Prepared?
      ensures PhaseOf(Next(c, s, step), i).record.revision == 0
    {
      NextPhase(c, s, step, i);
    }
  }

  lemma NextKeepsStarts(c: Context, s: State, step: Step)
    requires c.intent.Valid() && step.Valid() && LedgerOk(c, s) && Ambiguous(c.intent.effect)
    requires StartsKnown(c, s) && AllDistinct(c)
    ensures StartsKnown(c, Next(c, s, step))
  {
    NextRevision(c, s, step);
    var l := Next(c, s, step).ledger;
    if l.Some? {
      forall m, i | BegunBy(c, l.value, m, i)
        ensures Started(PhaseOf(Next(c, s, step), i))
      {
        NextRowsStarted(c, s, step, m, i);
      }
    }
  }

  /** Nobody gets into a dispatch of an operation that is over. */
  lemma NobodyStarts(c: Context, s: State, step: Step, i: nat)
    requires step.Valid() && LedgerOk(c, s) && StartsKnown(c, s)
    requires s.ledger.Some? && Terminal(s.ledger.value.record.state) && !PhaseOf(s, i).Active?
    ensures !PhaseOf(Next(c, s, step), i).Active?
  {
    NextPhase(c, s, step, i);
    if PhaseOf(s, i).Prepared? {
      var seen := PhaseOf(s, i).record;
      assert !BegunBy(c, s.ledger.value, DispatchId(seen.attempt + 1, seen.fence + 1), i);
    }
  }

  lemma FailureStays(c: Context, s: State, step: Step)
    requires c.intent.Valid() && step.Valid() && LedgerOk(c, s) && StartsKnown(c, s) && FailureOk(s)
    requires s.ledger.Some? && s.ledger.value.record.state in {Failed, Cancelled} && !Reconciled(s.ledger.value)
    ensures Next(c, s, step).provider.deliveries == [] && forall i :: !PhaseOf(Next(c, s, step), i).Active?
  {
    forall i ensures !PhaseOf(Next(c, s, step), i).Active? { NobodyStarts(c, s, step, i); }
  }

  /** Whoever holds the only dispatch and has not delivered knows that nothing was delivered. */
  lemma HolderDeliveredNothing(c: Context, s: State, i: nat)
    requires OneOwner(c, s) && DeliversOnce(s) && AllDistinct(c) && PhaseOf(s, i).Active?
    ensures s.provider.deliveries == [] && forall j :: j != i ==> !PhaseOf(s, j).Active?
  {
    assert Begun(s, i);
    forall j | Begun(s, j) ensures j == i { assert DistinctWorkers(c, i, j); }
    forall j | j != i ensures !PhaseOf(s, j).Active? { assert !Begun(s, j); }
    if s.provider.deliveries != [] { assert Begun(s, s.provider.deliveries[0]); }
  }

  /** The steps that fail or cancel an ambiguous operation without evidence are taken before
      any delivery. */
  lemma FailureStarts(c: Context, s: State, step: Step)
    requires c.intent.Valid() && step.Valid() && LedgerOk(c, s) && Ambiguous(c.intent.effect) && AllDistinct(c)
    requires OneOwner(c, s) && DeliversOnce(s) && StartsKnown(c, s)
    requires s.ledger.Some? && Next(c, s, step).ledger != s.ledger
    requires var l := Next(c, s, step).ledger.value; l.record.state in {Failed, Cancelled} && !Reconciled(l)
    ensures Next(c, s, step).provider.deliveries == [] && forall i :: !PhaseOf(Next(c, s, step), i).Active?
  {
    NextLedger(c, s, step);
    RequestsAreValid(c, s, step);
    var (id, call) := Request(c, s, step).value;
    MutationExplains(s.ledger.value, id, call);
    assert call.SettleCall?;
    SettlementIsTheHolders(s.ledger.value.record, call);
    if step.CancelPrepared? {
      assert s.ledger.value.record.state.Planned?;
      forall j ensures !PhaseOf(Next(c, s, step), j).Active? {
        assert !Begun(s, j);
        NextPhase(c, s, step, j);
      }
    } else {
      HolderDeliveredNothing(c, s, step.execution);
      forall j ensures !PhaseOf(Next(c, s, step), j).Active? { NextPhase(c, s, step, j); }
    }
  }

  lemma NextKeepsFailure(c: Context, s: State, step: Step)
    requires c.intent.Valid() && step.Valid() && LedgerOk(c, s) && Ambiguous(c.intent.effect) && AllDistinct(c)
    requires OneOwner(c, s) && DeliversOnce(s) && StartsKnown(c, s) && FailureOk(s)
    ensures FailureOk(Next(c, s, step))
  {
    var s' := Next(c, s, step);
    forall i | PhaseOf(s', i).Delivered? ensures i in s'.provider.deliveries { NextPhase(c, s, step, i); }
    NextLedger(c, s, step);
    if s'.ledger.Some? && s'.ledger.value.record.state in {Failed, Cancelled} && !Reconciled(s'.ledger.value) {
      if s'.ledger == s.ledger { FailureStays(c, s, step); } else { FailureStarts(c, s, step); }
    }
  }

  lemma {:induction false} RunKeepsFailure(c: Context, s: State, steps: seq<Step>)
    requires c.intent.Valid() && Ambiguous(c.intent.effect) && AllDistinct(c) && AllValid(steps)
    requires LedgerOk(c, s) && OneOwner(c, s) && DeliversOnce(s) && StartsKnown(c, s) && FailureOk(s)
    ensures FailureOk(Run(c, s, steps))
    decreases |steps|
  {
    if steps != [] {
      NextKeepsLedgerOk(c, s, steps[0]);
      NextKeepsOneOwner(c, s, steps[0]);
      NextKeepsDeliversOnce(c, s, steps[0]);
      NextKeepsStarts(c, s, steps[0]);
      NextKeepsFailure(c, s, steps[0]);
      RunKeepsFailure(c, Next(c, s, steps[0]), steps[1..]);
    }
  }

  /** Failed or cancelled, without evidence from outside, means not delivered. */
  predicate FailureMeansUndelivered(s: State) {
    s.ledger.Some? && s.ledger.value.record.state in {Failed, Cancelled} && !Reconciled(s.ledger.value) ==>
      s.provider.deliveries == []
  }

  /** One of two executions that share a worker identity delivers while the other fails its
      check before dispatch, which settles the operation for both. */
  function SharedWorkerFailure(i: nat, j: nat): seq<Step> {
    BothBegin(i, j) + [DeliverStep(i), PreDispatchFails(j)]
  }

  lemma SharedWorkerFailsDelivered(c: Context, i: nat, j: nat)
    requires i != j && c.workerOf(i) == c.workerOf(j)
    ensures !FailureMeansUndelivered(Run(c, INITIAL, SharedWorkerFailure(i, j)))
  {
    SharedWorkerBegins(c, i, j);
    RunTwoMore(c, INITIAL, BothBegin(i, j), DeliverStep(i), PreDispatchFails(j));
    var s := Run(c, INITIAL, BothBegin(i, j));
    var delivered := Next(c, s, DeliverStep(i));
    FailsForBoth(c, delivered, j);
  }

  /** The holder's failed check is settled although somebody else has delivered. */
  lemma FailsForBoth(c: Context, s: State, j: nat)
    requires PhaseOf(s, j).Active? && s.provider.deliveries != []
    requires s.ledger.Some? && s.ledger.value.record == PhaseOf(s, j).record && s.ledger.value.record.state.Dispatching?
    requires forall m :: m in s.ledger.value.rows ==> m.DispatchId? && s.ledger.value.rows[m].call.BeginCall?
    ensures !FailureMeansUndelivered(Next(c, s, PreDispatchFails(j)))
  {
    var after := Next(c, s, PreDispatchFails(j));
    assert after.ledger.value.record.state.Failed? && !Reconciled(after.ledger.value);
  }

  /** For an effect that must not be repeated, a record that failed or was cancelled without a
      reconciliation means in every schedule that nothing was delivered, if and only if no two
      executions share a worker identity. */
  lemma FailureIsUndelivered(c: Context)
    requires c.intent.Valid() && Ambiguous(c.intent.effect)
    ensures (forall s :: Reachable(c, s) ==> FailureMeansUndelivered(s)) <==> AllDistinct(c)
  {
    if AllDistinct(c) {
      forall s | Reachable(c, s) ensures FailureMeansUndelivered(s) {
        var steps: seq<Step> :| AllValid(steps) && s == Run(c, INITIAL, steps);
        RunKeepsFailure(c, INITIAL, steps);
      }
    } else {
      var i: nat, j: nat :| !DistinctWorkers(c, i, j);
      SharedWorkerFailsDelivered(c, i, j);
      assert AllValid(SharedWorkerFailure(i, j));
      assert Reachable(c, Run(c, INITIAL, SharedWorkerFailure(i, j)));
    }
  }

  /** A ledger never disappears. */
  function Afterwards(c: Context, s: State, step: Step): (ledger: Ledger)
    requires s.ledger.Some?
    ensures Next(c, s, step).ledger == Some(ledger)
  {
    Next(c, s, step).ledger.value
  }

  /** If the step settles the operation, it is over, and without success. */
  predicate StopsTheOperation(c: Context, s: State, step: Step)
    requires s.ledger.Some?
  {
    var after := Afterwards(c, s, step);
    after != s.ledger.value ==> !after.record.state.Succeeded? && ActionFor(after.record) == DoNothing
  }

  /** If the step settles the operation, it needs outside evidence exactly for an ambiguous
      effect, and is over otherwise; never with success. */
  predicate LeavesDoubtIffAmbiguous(c: Context, s: State, step: Step)
    requires s.ledger.Some?
  {
    var after := Afterwards(c, s, step);
    after != s.ledger.value ==>
      !after.record.state.Succeeded?
      && ActionFor(after.record) == if Ambiguous(c.intent.effect) then Reconcile else DoNothing
  }

  /** An open dispatch needs outside evidence then exactly for an ambiguous effect, and can be
      retried otherwise. */
  predicate LeavesRetryUnlessAmbiguous(c: Context, s: State, step: Step)
    requires s.ledger.Some?
  {
    s.ledger.value.record.state.Dispatching? ==>
      ActionFor(Afterwards(c, s, step).record) == if Ambiguous(c.intent.effect) then Reconcile else Retry
  }

  /** If the step settles the operation, it has succeeded with this reference. */
  predicate SucceedsWith(c: Context, s: State, step: Step, reference: string)
    requires s.ledger.Some?
  {
    var after := Afterwards(c, s, step);
    after != s.ledger.value ==>
      after.record.state.Succeeded? && after.record.settlement.Some?
      && after.record.settlement.value.resultReference == Some(reference)
  }

  /** How a dispatch can end, told by what the store needs next. If its settlement is applied,
      one stopped before the callable is over, a raised one is over or needs outside evidence,
      and a returned one succeeded with its reference; one that is cancelled on the way, deferred
      or killed leaves the claim as it is, and only an ambiguous effect then needs evidence. */
  lemma EndOfADispatch(c: Context, s: State, i: nat, reference: string)
    requires c.intent.Valid() && Reachable(c, s) && InDispatch(PhaseOf(s, i)) && s.ledger.Some?
    ensures StopsTheOperation(c, s, CancelActive(i)) && StopsTheOperation(c, s, PreDispatchFails(i))
    ensures LeavesDoubtIffAmbiguous(c, s, DispatchRaises(i))
    ensures LeavesRetryUnlessAmbiguous(c, s, CancelDuring(i))
    ensures LeavesRetryUnlessAmbiguous(c, s, DispatchDeferred(i)) && LeavesRetryUnlessAmbiguous(c, s, Crash(i))
    ensures SucceedsWith(c, s, SettleStep(i, reference), reference)
  {
    SuccessWasDelivered(c, s);
    StoppedEnds(c, s, CancelActive(i));
    StoppedEnds(c, s, PreDispatchFails(i));
    RaisedEnds(c, s, i);
    CancelledEnds(c, s, CancelDuring(i));
    CancelledEnds(c, s, DispatchDeferred(i));
    CancelledEnds(c, s, Crash(i));
    SettledSucceeds(c, s, i, reference);
  }

  lemma StoppedEnds(c: Context, s: State, step: Step)
    requires LedgerOk(c, s) && s.ledger.Some? && (step.CancelActive? || step.PreDispatchFails?)
    ensures StopsTheOperation(c, s, step)
  {
  }

  lemma RaisedEnds(c: Context, s: State, i: nat)
    requires LedgerOk(c, s) && s.ledger.Some?
    ensures LeavesDoubtIffAmbiguous(c, s, DispatchRaises(i))
  {
  }

  lemma CancelledEnds(c: Context, s: State, step: Step)
    requires LedgerOk(c, s) && s.ledger.Some? && (step.CancelDuring? || step.DispatchDeferred? || step.Crash?)
    ensures LeavesRetryUnlessAmbiguous(c, s, step)
  {
  }

  lemma SettledSucceeds(c: Context, s: State, i: nat, reference: string)
    requires LedgerOk(c, s) && s.ledger.Some?
    ensures SucceedsWith(c, s, SettleStep(i, reference), reference)
  {
  }

  /** The settlement of an execution is applied if and only if it still holds the record and
      has not settled under this fence. */
  lemma AppliedIffHeld(c: Context, s: State, i: nat, reference: string)
    requires LedgerOk(c, s) && s.ledger.Some? && PhaseOf(s, i).Delivered?
    ensures var held, ledger := PhaseOf(s, i).record, s.ledger.value;
            Next(c, s, SettleStep(i, reference)).ledger != s.ledger <==>
              && ledger.record.state.Dispatching? && held.revision == ledger.record.revision
              && held.fence == ledger.record.fence && SettleId(held.fence) !in ledger.rows
  {
  }

  // ----- Recovery -----

  /** A recovery that names the current revision and the next fence reopens an interrupted
      dispatch exactly when a repeat is harmless; otherwise the ledger is left as it is and
      the operation waits for evidence. */
  lemma RecoveryReopensExactlyReplayable(c: Context, s: State, name: string)
    requires c.intent.Valid() && Reachable(c, s)
    requires s.ledger.Some? && s.ledger.value.record.state.Dispatching?
    requires CallerId(name) !in s.ledger.value.rows
    ensures var record := s.ledger.value.record;
            var after := Next(c, s, RecoverStep(name, record.revision, record.fence + 1)).ledger;
            && after.Some?
            && (after.value.record.state.Planned? <==> !Ambiguous(c.intent.effect))
            && (Ambiguous(c.intent.effect) ==> after == s.ledger && ActionFor(record) == Reconcile)
  {
    SuccessWasDelivered(c, s);
  }
}
