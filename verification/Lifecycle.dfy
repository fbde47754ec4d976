/** The run lifecycle reducer (src/agnoclaw/runtime/lifecycle.py). */
module Lifecycle {
  import opened Wrappers

  datatype RunState =
    | Created | Queued | Running | WaitingForInput | WaitingForApproval | WaitingForReconciliation
    | Paused | Cancelling | Completed | RunFailed | FailedWithUnknownEffects | RunCancelled | Expired

  datatype TransitionKind =
    | Queue | Start | WaitForInput | WaitForApproval | WaitForReconciliation | Pause | Resume | Respond
    | Steer | CloseSteering | RequestCancel | ConfirmCancel | Complete | Fail | FailUnknownEffects | Expire

  datatype Snapshot = Snapshot(
    runId: string,
    state: RunState,
    revision: nat,
    steeringOpen: bool,
    pendingRequest: Option<string>,
    lastTransition: Option<string>)

  /** A transition is its own digest. */
  datatype Transition = Transition(
    runId: string,
    kind: TransitionKind,
    transitionId: string,
    pendingRequest: Option<string>)

  datatype LifecycleError =
    | RunTerminal(state: RunState)
    | InvalidTransition(state: RunState)
    | SteeringClosed
    | RequestMismatch
    | RequestRequired

  predicate TerminalRun(state: RunState) {
    state in {Completed, RunFailed, FailedWithUnknownEffects, RunCancelled, Expired}
  }

  predicate AllowedFrom(kind: TransitionKind, state: RunState) {
    match kind
    case Queue => state == Created
    case Start => state in {Created, Queued}
    case WaitForInput => state == Running
    case WaitForApproval => state == Running
    case WaitForReconciliation => state in {Running, Cancelling}
    case Pause => state in {Queued, Running, WaitingForInput, WaitingForApproval}
    case Resume => state in {Paused, WaitingForReconciliation}
    case Respond => state in {WaitingForInput, WaitingForApproval}
    case Steer => state in {Created, Queued, Running}
    case CloseSteering => state in {Created, Queued, Running}
    case RequestCancel => !TerminalRun(state)
    case ConfirmCancel => state == Cancelling
    case Complete => state == Running
    case Fail => !TerminalRun(state)
    case FailUnknownEffects =>
      state in {Running, WaitingForInput, WaitingForApproval, WaitingForReconciliation, Cancelling}
    case Expire => !TerminalRun(state)
  }

  function Target(kind: TransitionKind, state: RunState): RunState {
    match kind
    case Queue => Queued
    case Start => Running
    case WaitForInput => WaitingForInput
    case WaitForApproval => WaitingForApproval
    case WaitForReconciliation => WaitingForReconciliation
    case Pause => Paused
    case Resume => Running
    case Respond => Running
    case Steer => state
    case CloseSteering => state
    case RequestCancel => Cancelling
    case ConfirmCancel => RunCancelled
    case Complete => Completed
    case Fail => RunFailed
    case FailUnknownEffects => FailedWithUnknownEffects
    case Expire => Expired
  }

  predicate Missing(request: Option<string>) {
    request.None? || request.value == ""
  }

  /** The snapshot after one transition, or the error the reducer raises. */
  function ReduceLifecycle(run: Snapshot, t: Transition): Result<Snapshot, LifecycleError> {
    if TerminalRun(run.state) then
      if run.state.RunCancelled? && t.kind in {RequestCancel, ConfirmCancel} then Ok(run)
      else Err(RunTerminal(run.state))
    else if !AllowedFrom(t.kind, run.state) then Err(InvalidTransition(run.state))
    else if t.kind.Steer? && !run.steeringOpen then Err(SteeringClosed)
    else if t.kind.Respond? && Missing(run.pendingRequest) then Err(InvalidTransition(run.state))
    else if t.kind.Respond? && t.pendingRequest != run.pendingRequest then Err(RequestMismatch)
    else if t.kind in {WaitForInput, WaitForApproval} && Missing(t.pendingRequest) then Err(RequestRequired)
    else
      var pending :=
        if t.kind in {WaitForInput, WaitForApproval} then t.pendingRequest
        else if t.kind in {Respond, RequestCancel, ConfirmCancel, Complete, Fail, FailUnknownEffects, Expire} then None
        else run.pendingRequest;
      var closes := t.kind in {CloseSteering, RequestCancel, Complete, Fail, FailUnknownEffects, Expire};
      Ok(run.(state := Target(t.kind, run.state),
              revision := run.revision + 1,
              steeringOpen := run.steeringOpen && !closes,
              pendingRequest := pending,
              lastTransition := Some(t.transitionId)))
  }

  /** A terminal run is final: it accepts nothing but a repeated cancellation of a cancelled
      run, which leaves it as it is. Every other accepted transition adds exactly one revision,
      never reopens steering, and moves the run unless it only steers or repeats a request. */
  lemma TerminalIsFinal(run: Snapshot, t: Transition)
    ensures TerminalRun(run.state) && !(run.state == RunCancelled && t.kind in {RequestCancel, ConfirmCancel}) ==>
              ReduceLifecycle(run, t) == Err(RunTerminal(run.state))
    ensures run.state == RunCancelled && t.kind in {RequestCancel, ConfirmCancel} ==> ReduceLifecycle(run, t) == Ok(run)
    ensures !TerminalRun(run.state) && ReduceLifecycle(run, t).Ok? ==>
              var after := ReduceLifecycle(run, t).value;
              && after.revision == run.revision + 1
              && (after.steeringOpen ==> run.steeringOpen)
              && after.runId == run.runId && after.lastTransition == Some(t.transitionId)
              && (after.state == run.state <==>
                    t.kind in {Steer, CloseSteering} || (t.kind == RequestCancel && run.state == Cancelling))
              && (t.kind == CloseSteering ==> !after.steeringOpen)
  {
  }

  /** How each state is entered: completion from a running run alone, cancellation after a
      request for it, a wait with a named request, and back to running from a wait only by an
      answer to that request. */
  lemma EnteredFrom(run: Snapshot, t: Transition)
    requires ReduceLifecycle(run, t).Ok? && ReduceLifecycle(run, t).value.state != run.state
    ensures var after := ReduceLifecycle(run, t).value;
            match after.state
            case Created => false
            case Queued => run.state == Created
            case Running =>
              || (run.state in {Created, Queued} && t.kind == Start)
              || (run.state in {Paused, WaitingForReconciliation} && t.kind == Resume)
              || (run.state in {WaitingForInput, WaitingForApproval} && t.kind.Respond?
                  && !Missing(run.pendingRequest) && t.pendingRequest == run.pendingRequest && after.pendingRequest.None?)
            case WaitingForInput => run.state == Running && !Missing(t.pendingRequest) && after.pendingRequest == t.pendingRequest
            case WaitingForApproval => run.state == Running && !Missing(t.pendingRequest) && after.pendingRequest == t.pendingRequest
            case WaitingForReconciliation => run.state in {Running, Cancelling}
            case Paused => run.state in {Queued, Running, WaitingForInput, WaitingForApproval} && after.pendingRequest == run.pendingRequest
            case Cancelling => !TerminalRun(run.state) && !after.steeringOpen && after.pendingRequest.None?
            case Completed => run.state == Running && !after.steeringOpen && after.pendingRequest.None?
            case RunCancelled => run.state == Cancelling && after.pendingRequest.None?
            case FailedWithUnknownEffects => run.state !in {Created, Queued, Paused} && after.pendingRequest.None?
            case RunFailed => !TerminalRun(run.state) && after.pendingRequest.None?
            case Expired => !TerminalRun(run.state) && after.pendingRequest.None?
  {
  }

  // ----- Whole runs -----

  /** The run after these transitions, if every one of them is accepted. */
  function Walk(run: Snapshot, ts: seq<Transition>): Option<Snapshot>
    decreases |ts|
  {
    if ts == [] then Some(run)
    else
      match ReduceLifecycle(run, ts[0])
      case Err(_) => None
      case Ok(after) => Walk(after, ts[1..])
  }

  lemma {:induction false} WalkFront(run: Snapshot, front: seq<Transition>, last: Transition)
    requires Walk(run, front + [last]).Some?
    ensures Walk(run, front).Some? && ReduceLifecycle(Walk(run, front).value, last) == Ok(Walk(run, front + [last]).value)
    decreases |front|
  {
    var ts := front + [last];
    if front == [] {
      assert ts == [last] && ts[1..] == [];
    } else {
      assert ts[1..] == front[1..] + [last];
      WalkFront(ReduceLifecycle(run, front[0]).value, front[1..], last);
    }
  }

  /** A response is accepted exactly right after the wait that named its request: a wait that
      was paused can no longer be answered. */
  lemma AnsweredRightAfterItsWait(run: Snapshot, ts: seq<Transition>, t: Transition)
    requires run.state !in {WaitingForInput, WaitingForApproval}
    requires Walk(run, ts).Some? && t.kind.Respond?
    ensures ReduceLifecycle(Walk(run, ts).value, t).Ok? <==>
              && ts != [] && ts[|ts| - 1].kind in {WaitForInput, WaitForApproval}
              && t.pendingRequest == ts[|ts| - 1].pendingRequest
  {
    if ts != [] {
      var front, last := ts[..|ts| - 1], ts[|ts| - 1];
      assert ts == front + [last];
      WalkFront(run, front, last);
    }
  }

  lemma {:induction false} SteeringStaysClosed(run: Snapshot, ts: seq<Transition>)
    requires !run.steeringOpen
    ensures forall i :: 0 <= i < |ts| && ts[i].kind.Steer? ==> Walk(run, ts).None?
    ensures Walk(run, ts).Some? ==> !Walk(run, ts).value.steeringOpen
    decreases |ts|
  {
    if ts != [] && ReduceLifecycle(run, ts[0]).Ok? {
      var after := ReduceLifecycle(run, ts[0]).value;
      SteeringStaysClosed(after, ts[1..]);
      forall i | 0 <= i < |ts| && ts[i].kind.Steer? ensures Walk(run, ts).None? {
        if i > 0 { assert ts[1..][i - 1] == ts[i]; }
      }
    }
  }

  /** A transition of this kind, with a request where one is needed. */
  function Take(run: Snapshot, kind: TransitionKind): Transition {
    Transition(run.runId, kind, "t", Some("r"))
  }

  ghost predicate CanReach(run: Snapshot, state: RunState) {
    exists ts: seq<Transition> :: Walk(run, ts).Some? && Walk(run, ts).value.state == state
  }

  lemma ReachBy(run: Snapshot, kind: TransitionKind, state: RunState)
    requires ReduceLifecycle(run, Take(run, kind)).Ok? && CanReach(ReduceLifecycle(run, Take(run, kind)).value, state)
    ensures CanReach(run, state)
  {
    var after := ReduceLifecycle(run, Take(run, kind)).value;
    var ts: seq<Transition> :| Walk(after, ts).Some? && Walk(after, ts).value.state == state;
    var all := [Take(run, kind)] + ts;
    assert all[1..] == ts;
    assert Walk(run, all) == Walk(after, ts);
  }

  lemma ReachHere(run: Snapshot)
    ensures CanReach(run, run.state)
  {
    assert Walk(run, []).Some?;
  }

  lemma FromRunning(run: Snapshot, state: RunState)
    requires run.state == Running && state !in {Created, Queued}
    ensures CanReach(run, state)
  {
    if state == Running {
      ReachHere(run);
    } else {
      var kind :=
        match state
        case WaitingForInput => WaitForInput
        case WaitingForApproval => WaitForApproval
        case WaitingForReconciliation => WaitForReconciliation
        case Paused => Pause
        case Completed => Complete
        case RunFailed => Fail
        case FailedWithUnknownEffects => FailUnknownEffects
        case Expired => Expire
        case _ => RequestCancel;
      var after := ReduceLifecycle(run, Take(run, kind)).value;
      if state == RunCancelled {
        ReachHere(ReduceLifecycle(after, Take(after, ConfirmCancel)).value);
        ReachBy(after, ConfirmCancel, state);
      } else {
        ReachHere(after);
      }
      ReachBy(run, kind, state);
    }
  }

  /** Every open run can get back to running, also one that is being cancelled. */
  lemma ThroughRunning(run: Snapshot, state: RunState)
    requires !TerminalRun(run.state) && state !in {Created, Queued}
    ensures CanReach(run, state)
    decreases match run.state
              case Running => 0
              case WaitingForInput => 2
              case WaitingForApproval => 2
              case Cancelling => 2
              case _ => 1
  {
    if run.state == Running {
      FromRunning(run, state);
    } else {
      var kind :=
        match run.state
        case Created => Start
        case Queued => Start
        case Cancelling => WaitForReconciliation
        case WaitingForInput => Pause
        case WaitingForApproval => Pause
        case _ => Resume;
      ThroughRunning(ReduceLifecycle(run, Take(run, kind)).value, state);
      ReachBy(run, kind, state);
    }
  }

  lemma {:induction false} NeverBackToStart(run: Snapshot, ts: seq<Transition>)
    requires Walk(run, ts).Some?
    ensures Walk(run, ts).value.state == Created ==> run.state == Created
    ensures Walk(run, ts).value.state == Queued ==> run.state in {Created, Queued}
    decreases |ts|
  {
    if ts != [] { NeverBackToStart(ReduceLifecycle(run, ts[0]).value, ts[1..]); }
  }

  /** An open run can reach every state but the first two, and those only forwards. So a
      request to cancel does not settle the outcome: the run can still complete. */
  lemma CanReachIff(run: Snapshot, state: RunState)
    requires !TerminalRun(run.state)
    ensures CanReach(run, state) <==>
              state == run.state || (state != Created && (state == Queued ==> run.state == Created))
  {
    if CanReach(run, state) {
      var ts: seq<Transition> :| Walk(run, ts).Some? && Walk(run, ts).value.state == state;
      NeverBackToStart(run, ts);
    }
    if state == run.state {
      ReachHere(run);
    } else if state == Queued && run.state == Created {
      ReachHere(ReduceLifecycle(run, Take(run, Queue)).value);
      ReachBy(run, Queue, state);
    } else if state !in {Created, Queued} {
      ThroughRunning(run, state);
    }
  }
}
