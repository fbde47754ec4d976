/** The gateway object: one call of `execute` from prepare to settlement, with the ways the
    dispatched callable can end, against the store row and the provider it shares. */
module Gateway {
  import opened Wrappers
  import opened Operations
  import opened OperationLedger
  import opened EffectGateway

  /** How one call ends: cancelled at its first or second store call, refused by its
      pre-dispatch check, or by the external callable and the staging of its result, before or
      after the effect was delivered. The two deaths are the probe's crash boundaries. */
  datatype Ending =
    | Returns(reference: string)
    | CancelledAfterPrepare
    | CancelledAfterBegin
    | PreDispatchRaises
    | Raises(delivered: bool)
    | CancelledDuring(delivered: bool)
    | Deferred(delivered: bool)
    | Dies(delivered: bool)

  datatype Outcome = Value(replayed: bool) | InFlight | TerminalError | Conflict | CancelledError | DeferredError | Died

  /** What follows the begin. */
  function Tail(i: nat, ending: Ending): seq<Step> {
    match ending
    case Returns(reference) => [DeliverStep(i), SettleStep(i, reference)]
    case CancelledAfterPrepare => []
    case CancelledAfterBegin => [CancelActive(i)]
    case PreDispatchRaises => [PreDispatchFails(i)]
    case Raises(delivered) => DeliveryIf(i, delivered) + [DispatchRaises(i)]
    case CancelledDuring(delivered) => DeliveryIf(i, delivered) + [CancelDuring(i)]
    case Deferred(delivered) => DeliveryIf(i, delivered) + [DispatchDeferred(i)]
    case Dies(delivered) => DeliveryIf(i, delivered) + [Crash(i)]
  }

  function DeliveryIf(i: nat, delivered: bool): seq<Step> {
    if delivered then [DeliverStep(i)] else []
  }

  /** The schedule that one uninterrupted execution is. */
  function Schedule(i: nat, ending: Ending): seq<Step> {
    if ending.CancelledAfterPrepare? then [PrepareStep(i), CancelPrepared(i)]
    else [PrepareStep(i), BeginStep(i)] + Tail(i, ending)
  }

  lemma RunConcat(c: Context, s: State, first: seq<Step>, rest: seq<Step>)
    ensures Run(c, s, first + rest) == Run(c, Run(c, s, first), rest)
    decreases |first|
  {
    if first == [] {
      assert first + rest == rest;
    } else {
      assert (first + rest)[1..] == first[1..] + rest;
      RunConcat(c, Next(c, s, first[0]), first[1..], rest);
    }
  }

  lemma RunOne(c: Context, s: State, step: Step)
    ensures Run(c, s, [step]) == Next(c, s, step)
  {
    assert [step][1..] == [];
  }

  predicate AfterBegin(x: Step, i: nat) {
    match x
    case CancelActive(j) => j == i
    case PreDispatchFails(j) => j == i
    case DeliverStep(j) => j == i
    case DispatchRaises(j) => j == i
    case CancelDuring(j) => j == i
    case DispatchDeferred(j) => j == i
    case SettleStep(j, _) => j == i
    case Crash(j) => j == i
    case _ => false
  }

  /** A finished execution takes no further part. */
  lemma {:induction false} FinishedStays(c: Context, s: State, i: nat, steps: seq<Step>)
    requires PhaseOf(s, i).Finished?
    requires forall x :: x in steps ==> AfterBegin(x, i)
    ensures Run(c, s, steps).ledger == s.ledger && Run(c, s, steps).provider == s.provider
    decreases |steps|
  {
    if steps != [] {
      var s' := Next(c, s, steps[0]);
      assert AfterBegin(steps[0], i);
      assert s'.ledger == s.ledger && s'.provider == s.provider && PhaseOf(s', i).Finished?;
      FinishedStays(c, s', i, steps[1..]);
    }
  }

  lemma ScheduleSplits(c: Context, s: State, i: nat, ending: Ending)
    requires !ending.CancelledAfterPrepare?
    ensures Run(c, s, Schedule(i, ending))
            == Run(c, Next(c, Next(c, s, PrepareStep(i)), BeginStep(i)), Tail(i, ending))
  {
    var steps := Schedule(i, ending);
    RunFirst(c, s, steps, 0);
    RunFirst(c, Next(c, s, PrepareStep(i)), steps, 1);
    assert steps[0..] == steps && steps[2..] == Tail(i, ending);
  }

  lemma CancelledSchedule(c: Context, s: State, i: nat)
    ensures Run(c, s, Schedule(i, CancelledAfterPrepare)) == Next(c, Next(c, s, PrepareStep(i)), CancelPrepared(i))
  {
    var steps := Schedule(i, CancelledAfterPrepare);
    RunFirst(c, s, steps, 0);
    RunFirst(c, Next(c, s, PrepareStep(i)), steps, 1);
    assert steps[0..] == steps && steps[2..] == [];
  }

  /** The steps of a tail in which the effect may have been delivered first. */
  lemma DeliveredTail(c: Context, s: State, i: nat, delivered: bool, last: Step)
    ensures Run(c, s, DeliveryIf(i, delivered) + [last])
            == Next(c, if delivered then Next(c, s, DeliverStep(i)) else s, last)
  {
    if delivered {
      RunConcat(c, s, [DeliverStep(i)], [last]);
      RunOne(c, s, DeliverStep(i));
      RunOne(c, Next(c, s, DeliverStep(i)), last);
    } else {
      assert [] + [last] == [last];
      RunOne(c, s, last);
    }
  }

  // ----- What each ending leaves behind -----

  /** The state in which the operation is left by an execution that holds its dispatch. */
  function EndState(effect: EffectClass, ending: Ending): OpState {
    match ending
    case Returns(_) => Succeeded
    case CancelledAfterPrepare => Cancelled
    case CancelledAfterBegin => Cancelled
    case PreDispatchRaises => Failed
    case Raises(_) => if Ambiguous(effect) then Unknown else Failed
    case CancelledDuring(_) => if Ambiguous(effect) then Unknown else Dispatching
    case Deferred(_) => Dispatching
    case Dies(_) => Dispatching
  }

  predicate Delivers(ending: Ending) {
    match ending
    case Returns(_) => true
    case Raises(delivered) => delivered
    case CancelledDuring(delivered) => delivered
    case Deferred(delivered) => delivered
    case Dies(delivered) => delivered
    case _ => false
  }

  /** The execution holds the dispatch: the record is the one it began, and is not settled. */
  predicate Holds(c: Context, s: State, i: nat) {
    && InDispatch(PhaseOf(s, i)) && s.ledger.Some? && s.ledger.value.record == PhaseOf(s, i).record
    && s.ledger.value.record.state.Dispatching? && s.ledger.value.record.intent == c.intent
    && SettleId(s.ledger.value.record.fence) !in s.ledger.value.rows
  }

  predicate EndsIn(c: Context, s: State, before: State, i: nat, ending: Ending) {
    && s.ledger.Some? && s.ledger.value.record.state == EndState(c.intent.effect, ending)
    && (ending.Returns? ==> s.ledger.value.record.settlement
                            == Some(Settlement(Succeeded, Some(ending.reference), Some(c.intent.ResultSlot()))))
    && s.provider == (if Delivers(ending) then ProviderDispatch(before.provider, i, c.intent) else before.provider)
  }

  /** The last step of an ending. */
  function LastStep(i: nat, ending: Ending): Step {
    match ending
    case Returns(reference) => SettleStep(i, reference)
    case CancelledAfterPrepare => CancelPrepared(i)
    case CancelledAfterBegin => CancelActive(i)
    case PreDispatchRaises => PreDispatchFails(i)
    case Raises(_) => DispatchRaises(i)
    case CancelledDuring(_) => CancelDuring(i)
    case Deferred(_) => DispatchDeferred(i)
    case Dies(_) => Crash(i)
  }

  lemma HolderSettles(c: Context, s: State, i: nat, ending: Ending)
    requires Holds(c, s, i) && !ending.CancelledAfterPrepare?
    requires ending.Returns? ==> PhaseOf(s, i).Delivered?
    requires ending.CancelledAfterBegin? || ending.PreDispatchRaises? ==> PhaseOf(s, i).Active?
    ensures var s' := Next(c, s, LastStep(i, ending));
            && s'.provider == s.provider && s'.ledger.Some?
            && s'.ledger.value.record.state == EndState(c.intent.effect, ending)
            && (ending.Returns? ==> s'.ledger.value.record.settlement
                                    == Some(Settlement(Succeeded, Some(ending.reference), Some(c.intent.ResultSlot()))))
  {
    assert !Terminal(Dispatching);
  }

  /** Whoever holds the dispatch ends it as its ending says, with one delivery or none. */
  lemma HolderEnds(c: Context, s: State, i: nat, ending: Ending)
    requires Holds(c, s, i) && PhaseOf(s, i).Active? && !ending.CancelledAfterPrepare?
    ensures EndsIn(c, Run(c, s, Tail(i, ending)), s, i, ending)
    ensures PhaseOf(Run(c, s, Tail(i, ending)), i).Finished?
  {
    assert Tail(i, ending) == DeliveryIf(i, Delivers(ending)) + [LastStep(i, ending)];
    DeliveredTail(c, s, i, Delivers(ending), LastStep(i, ending));
    var called := if Delivers(ending) then Next(c, s, DeliverStep(i)) else s;
    HolderSettles(c, called, i, ending);
  }

  lemma FirstBegin(c: Context, s: State, i: nat)
    requires s.ledger.None? && PhaseOf(s, i).Idle?
    ensures PhaseOf(Next(c, s, PrepareStep(i)), i) == Prepared(PlannedRecord(c.intent))
    ensures var begun := Next(c, Next(c, s, PrepareStep(i)), BeginStep(i));
            Holds(c, begun, i) && PhaseOf(begun, i).Active? && begun.provider == s.provider
  {
    assert PhaseOf(Next(c, s, PrepareStep(i)), i) == Prepared(PlannedRecord(c.intent));
  }

  /** The first execution of an operation, however it ends, leaves it in the state of its
      ending, with its result if it returned, and with one delivery or none. */
  lemma FirstExecutionEnds(c: Context, s: State, i: nat, ending: Ending)
    requires s.ledger.None? && PhaseOf(s, i).Idle?
    ensures EndsIn(c, Run(c, s, Schedule(i, ending)), s, i, ending)
  {
    FirstBegin(c, s, i);
    if ending.CancelledAfterPrepare? {
      CancelledSchedule(c, s, i);
    } else {
      ScheduleSplits(c, s, i, ending);
      HolderEnds(c, Next(c, Next(c, s, PrepareStep(i)), BeginStep(i)), i, ending);
    }
  }

  /** What the caller of an execution that holds its dispatch is told. */
  function Answer(ending: Ending): Outcome {
    match ending
    case Returns(_) => Value(false)
    case CancelledAfterPrepare => CancelledError
    case CancelledAfterBegin => CancelledError
    case PreDispatchRaises => TerminalError
    case Raises(_) => TerminalError
    case CancelledDuring(_) => CancelledError
    case Deferred(_) => DeferredError
    case Dies(_) => Died
  }

  class OperationGateway {
    var ledger: Option<Ledger>
    var provider: Provider
    const workerId: string

    constructor (ledger: Option<Ledger>, provider: Provider, workerId: string)
      ensures this.ledger == ledger && this.provider == provider && this.workerId == workerId
    {
      this.ledger, this.provider, this.workerId := ledger, provider, workerId;
    }

    function View(): State
      reads this
    {
      State(ledger, provider, map[])
    }

    method Settle(held: Record, settlement: Settlement)
      requires ledger.Some?
      modifies this`ledger
      ensures ledger == Some(Mutate(old(ledger.value), SettleId(held.fence), AsSettle(held, settlement)).0)
    {
      var (after, _) := Mutate(ledger.value, SettleId(held.fence), AsSettle(held, settlement));
      ledger := Some(after);
    }

    method Cancel(held: Record)
      requires ledger.Some?
      modifies this`ledger
      ensures ledger == Some(Mutate(old(ledger.value), CancelId, AsSettle(held, Failure(Cancelled))).0)
    {
      var (after, _) := Mutate(ledger.value, CancelId, AsSettle(held, Failure(Cancelled)));
      ledger := Some(after);
    }

    /** The final store row and provider tables are those of the schedule, whatever state the
        operation was found in and however the call ends; only a planned operation reaches
        the provider. */
    method Execute(intent: Intent, i: nat, ending: Ending) returns (outcome: Outcome)
      modifies this
      ensures var end := Run(Context(intent, _ => workerId), old(View()), Schedule(i, ending));
              ledger == end.ledger && provider == end.provider
      ensures old(ledger).Some? && !old(ledger).value.record.state.Planned? ==>
                ledger == old(ledger) && provider == old(provider) && outcome != Died
      ensures outcome == Value(true) ==>
                old(ledger).Some? && old(ledger).value.record.state.Succeeded? && old(ledger).value.record.intent == intent
      ensures outcome == Value(false) ==> ending.Returns? && provider.deliveries == old(provider).deliveries + [i]
      ensures old(ledger).None? ==>
                outcome == Answer(ending) && EndsIn(Context(intent, _ => workerId), View(), old(View()), i, ending)
    {
      ghost var c := Context(intent, _ => workerId);
      ghost var s0 := View();
      ghost var s1 := Next(c, s0, PrepareStep(i));
      if ledger.None? {
        FirstBegin(c, s0, i);
        FirstExecutionEnds(c, s0, i, ending);
      }
      var (prepared, decision) := Prepare(ledger, intent);
      ledger := prepared;
      if ending.CancelledAfterPrepare? {
        CancelledSchedule(c, s0, i);
        if decision.Ok? && decision.value.record.state.Planned? { Cancel(decision.value.record); }
        return CancelledError;
      }
      ScheduleSplits(c, s0, i, ending);
      ghost var s2 := Next(c, s1, BeginStep(i));
      if decision.Err? || !decision.value.record.state.Planned? {
        assert s2 == s1;
        FinishedStays(c, s2, i, Tail(i, ending));
        if decision.Err? { return Conflict; }
        var state := decision.value.record.state;
        return if state.Succeeded? then Value(true) else if Terminal(state) then TerminalError else InFlight;
      }
      outcome := Begin(c, s1, intent, i, decision.value.record, ending);
    }

    /** The begin, and what follows it. */
    method Begin(ghost c: Context, ghost s: State, intent: Intent, i: nat, seen: Record, ending: Ending)
      returns (outcome: Outcome)
      requires ledger.Some? && s.ledger == ledger && s.provider == provider
      requires PhaseOf(s, i) == Prepared(seen) && c == Context(intent, _ => workerId) && !ending.CancelledAfterPrepare?
      modifies this
      ensures var end := Run(c, Next(c, s, BeginStep(i)), Tail(i, ending));
              ledger == end.ledger && provider == end.provider
      ensures outcome != Value(true)
      ensures outcome == Value(false) ==> ending.Returns? && provider.deliveries == old(provider).deliveries + [i]
      ensures Holds(c, Next(c, s, BeginStep(i)), i) ==> outcome == Answer(ending)
    {
      ghost var s2 := Next(c, s, BeginStep(i));
      var fence := seen.fence + 1;
      var (begun, answer) :=
        Mutate(ledger.value, DispatchId(seen.attempt + 1, fence), BeginCall(seen.revision, workerId, fence));
      if answer.Err? {
        FinishedStays(c, s2, i, Tail(i, ending));
        return Conflict;
      }
      ledger := Some(begun);
      var active := answer.value.record;
      assert PhaseOf(s2, i) == Active(active);
      outcome := Dispatch(c, s2, intent, i, active, ending);
    }

    /** The part after the begin: cancellation and the pre-dispatch check, the callable and
        the staging of its result, and the settlement each of them leads to. */
    method Dispatch(ghost c: Context, ghost s: State, intent: Intent, i: nat, active: Record, ending: Ending)
      returns (outcome: Outcome)
      requires ledger.Some? && s.ledger == ledger && s.provider == provider
      requires PhaseOf(s, i) == Active(active) && c.intent == intent && !ending.CancelledAfterPrepare?
      modifies this
      ensures var end := Run(c, s, Tail(i, ending));
              ledger == end.ledger && provider == end.provider
      ensures outcome == Answer(ending)
      ensures outcome == Value(false) ==> ending.Returns? && provider.deliveries == old(provider).deliveries + [i]
    {
      match ending
      case CancelledAfterBegin =>
        RunOne(c, s, CancelActive(i));
        Settle(active, Failure(Cancelled));
        return CancelledError;
      case PreDispatchRaises =>
        RunOne(c, s, PreDispatchFails(i));
        Settle(active, Failure(Failed));
        return TerminalError;
      case Returns(reference) =>
        DeliveredTail(c, s, i, true, SettleStep(i, reference));
        assert Tail(i, ending) == DeliveryIf(i, true) + [SettleStep(i, reference)];
        provider := ProviderDispatch(provider, i, intent);
        Settle(active, Settlement(Succeeded, Some(reference), Some(intent.ResultSlot())));
        return Value(false);
      case Raises(delivered) =>
        DeliveredTail(c, s, i, delivered, DispatchRaises(i));
        if delivered { provider := ProviderDispatch(provider, i, intent); }
        Settle(active, Failure(if Ambiguous(intent.effect) then Unknown else Failed));
        return TerminalError;
      case CancelledDuring(delivered) =>
        DeliveredTail(c, s, i, delivered, CancelDuring(i));
        if delivered { provider := ProviderDispatch(provider, i, intent); }
        if Ambiguous(intent.effect) { Settle(active, Failure(Unknown)); }
        return CancelledError;
      case Deferred(delivered) =>
        DeliveredTail(c, s, i, delivered, DispatchDeferred(i));
        if delivered { provider := ProviderDispatch(provider, i, intent); }
        return DeferredError;
      case Dies(delivered) =>
        DeliveredTail(c, s, i, delivered, Crash(i));
        if delivered { provider := ProviderDispatch(provider, i, intent); }
        return Died;
    }
  }
}
