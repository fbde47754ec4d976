/** A run of an agent tool loop: a sequence of non-repeatable steps, each prepared, dispatched
    and settled with a stored result, driven by one process at a time that may die at any
    boundary and be restarted from a saved checkpoint
    (scripts/agno_tool_checkpoint_restart_probe.py, scripts/agno_stack_restart_probe.py,
    src/agnoclaw/agent.py `recover_run`, src/agnoclaw/runtime/model_gateway.py). */
module ToolLoop {
  import opened Wrappers
  import opened Operations

  /** What the agent does with the results so far. The loop itself is deterministic; the
      results of the outside calls are not. */
  datatype Move = Call(request: string) | Finish(output: string)

  /** `others` are the run's operations besides the steps of this loop. */
  datatype Context = Context(next: seq<string> -> Move, specDigest: string, others: nat)

  const SCAN_LIMIT := 1000

  /** The ledger row of one step; its identity is the number of results before it. */
  datatype StepRow = StepRow(request: string, state: OpState, result: string)

  datatype Phase =
    | Thinking
    | PreparedStep(request: string)
    | DispatchingStep(request: string)
    | Holding(request: string, result: string)

  /** The volatile part: a process and the results it has in memory. */
  datatype Process = Stopped | Alive(history: seq<string>, phase: Phase)

  datatype RunStatus = Running | Waiting | Completed(output: string) | RunFailed(code: string)

  /** The durable part is everything but the process. `outside` lists the calls that reached
      the provider or the tool. */
  datatype State = State(
    rows: map<nat, StepRow>,
    saved: seq<string>,
    outer: Option<string>,
    status: RunStatus,
    outside: seq<nat>,
    process: Process)

  datatype Step =
    | PrepareStep
    | BeginStep
    | CallOut(result: string)
    | CallRaises
    | SettleStep
    | SaveCheckpoint
    | FinishLoop
    | CompleteRun
    | Crash
    | Recover(specDigest: string)
    | Reconcile(step: nat, observed: Option<string>)

  const INITIAL := State(map[], [], None, Running, [], Alive([], Thinking))

  predicate Unresolved(row: StepRow) {
    row.state.Dispatching? || row.state.Unknown?
  }

  /** The safety scan reads at most so many of the run's operations; when it is full it cannot
      tell that nothing is unresolved, and blocks. */
  predicate ScanFull(c: Context, rows: map<nat, StepRow>) {
    |rows| + c.others >= SCAN_LIMIT
  }

  /** The safety scan over the run's operations. */
  ghost predicate Blocked(c: Context, rows: map<nat, StepRow>) {
    ScanFull(c, rows) || exists k :: k in rows && Unresolved(rows[k])
  }

  function Stop(s: State, status: RunStatus): State {
    s.(process := Stopped, status := status)
  }

  ghost function PrepareNext(c: Context, s: State, history: seq<string>): State {
    var k := |history|;
    match c.next(history)
    case Finish(_) => s
    case Call(request) =>
      if Blocked(c, s.rows) then Stop(s, Waiting)
      else if k !in s.rows then
        s.(rows := s.rows[k := StepRow(request, Planned, "")], process := Alive(history, PreparedStep(request)))
      else if s.rows[k].request != request then Stop(s, RunFailed("OPERATION_IDEMPOTENCY_CONFLICT"))
      else if s.rows[k].state.Succeeded? then s.(process := Alive(history + [s.rows[k].result], Thinking))
      else if s.rows[k].state.Planned? then s.(process := Alive(history, PreparedStep(request)))
      else Stop(s, RunFailed("OPERATION_TERMINAL_FAILURE"))
  }

  /** Claim and classify a stranded run: ambiguity waits, a stored result completes, a changed
      harness specification fails, and only then does a process continue the loop. */
  ghost function RecoverRun(c: Context, s: State, digest: string): State {
    if s.process.Alive? || s.status.Completed? || s.status.RunFailed? then s
    else if Blocked(c, s.rows) then Stop(s, Waiting)
    else if s.outer.Some? then Stop(s, Completed(s.outer.value))
    else if digest != c.specDigest then Stop(s, RunFailed("RUN_RECOVERY_SPEC_MISMATCH"))
    else s.(process := Alive(s.saved, Thinking), status := Running)
  }

  ghost function Next(c: Context, s: State, step: Step): State {
    match step
    case Crash => s.(process := Stopped)
    case Recover(digest) => RecoverRun(c, s, digest)
    case Reconcile(k, observed) =>
      if k in s.rows && Unresolved(s.rows[k]) then
        s.(rows := s.rows[k := match observed
                               case Some(result) => s.rows[k].(state := Succeeded, result := result)
                               case None => s.rows[k].(state := Failed)])
      else s
    case _ => if s.process.Alive? then Act(c, s, step) else s
  }

  /** One step of the living process. */
  ghost function Act(c: Context, s: State, step: Step): State
    requires s.process.Alive?
  {
    var history := s.process.history;
    var k := |history|;
    match (step, s.process.phase)
    case (PrepareStep, Thinking) => PrepareNext(c, s, history)
    case (BeginStep, PreparedStep(request)) =>
      if k in s.rows && s.rows[k].state.Planned? then
        s.(rows := s.rows[k := s.rows[k].(state := Dispatching)],
           process := Alive(history, DispatchingStep(request)))
      else Stop(s, RunFailed("OPERATION_ALREADY_DISPATCHING"))
    case (CallOut(result), DispatchingStep(request)) =>
      s.(outside := s.outside + [k], process := Alive(history, Holding(request, result)))
    case (CallRaises, DispatchingStep(request)) => Ambiguity(s, k)
    case (CallRaises, Holding(request, result)) => Ambiguity(s, k)
    case (SettleStep, Holding(request, result)) =>
      if k in s.rows && s.rows[k].state.Dispatching? then
        s.(rows := s.rows[k := s.rows[k].(state := Succeeded, result := result)],
           process := Alive(history + [result], Thinking))
      else s.(process := Stopped)
    case (SaveCheckpoint, Thinking) => s.(saved := history)
    case (FinishLoop, Thinking) =>
      (match c.next(history)
       case Finish(output) => if Blocked(c, s.rows) then Stop(s, Waiting) else s.(outer := Some(output))
       case Call(_) => s)
    case (CompleteRun, Thinking) => if s.outer.Some? then Stop(s, Completed(s.outer.value)) else s
    case _ => s
  }

  /** The call may or may not have happened: the step is unknown and the run is parked. */
  function Ambiguity(s: State, k: nat): State {
    if k in s.rows && s.rows[k].state.Dispatching? then
      Stop(s.(rows := s.rows[k := s.rows[k].(state := Unknown)]), Waiting)
    else s.(process := Stopped)
  }

  ghost function Run(c: Context, s: State, steps: seq<Step>): State
    decreases |steps|
  {
    if steps == [] then s else Run(c, Next(c, s, steps[0]), steps[1..])
  }

  // ----- What holds in every reachable state -----

  /** The results of the first `n` steps. */
  function Results(rows: map<nat, StepRow>, n: nat): seq<string>
    requires forall i: nat :: i < n ==> i in rows
    ensures |Results(rows, n)| == n
  {
    seq(n, i requires 0 <= i < n => rows[i].result)
  }

  /** The first `n` steps are settled with results, and `history` is those results. */
  ghost predicate Remembers(rows: map<nat, StepRow>, history: seq<string>) {
    forall i: nat :: i < |history| ==> i in rows && rows[i].state.Succeeded? && rows[i].result == history[i]
  }

  /** A step is only ever added after every earlier one succeeded, and it asks what the agent
      asks after their results. */
  ghost predicate RowOk(c: Context, rows: map<nat, StepRow>, k: nat)
    requires k in rows
  {
    && (forall i: nat :: i < k ==> i in rows && rows[i].state.Succeeded?)
    && c.next(Results(rows, k)) == Call(rows[k].request)
  }

  ghost predicate ProcessOk(c: Context, s: State) {
    s.process.Alive? ==>
      var history, k := s.process.history, |s.process.history|;
      && Remembers(s.rows, history)
      && match s.process.phase
         case Thinking => true
         case PreparedStep(request) => k in s.rows && s.rows[k].request == request && s.rows[k].state.Planned?
         case DispatchingStep(request) =>
           k in s.rows && s.rows[k].request == request && !s.rows[k].state.Planned? && k !in s.outside
         case Holding(request, result) =>
           k in s.rows && s.rows[k].request == request && k in s.outside
  }

  /** No step left the building twice, and only dispatched steps did. */
  ghost predicate OutsideOk(s: State) {
    && (forall p, q :: 0 <= p < q < |s.outside| ==> s.outside[p] != s.outside[q])
    && (forall k :: k in s.outside ==> k in s.rows && !s.rows[k].state.Planned?)
  }

  /** The loop is over after exactly `n` settled steps with this output. */
  ghost predicate Ended(c: Context, rows: map<nat, StepRow>, n: nat, output: string) {
    && (forall k: nat :: k in rows <==> k < n)
    && (forall k: nat :: k < n ==> rows[k].state.Succeeded?)
    && c.next(Results(rows, n)) == Finish(output)
  }

  ghost predicate OuterOk(c: Context, s: State) {
    && (s.outer.Some? ==> !ScanFull(c, s.rows) && exists n: nat :: Ended(c, s.rows, n, s.outer.value))
    && (s.status.Completed? ==> s.outer == Some(s.status.output))
  }

  ghost predicate Inv(c: Context, s: State) {
    && (forall k :: k in s.rows ==> RowOk(c, s.rows, k))
    && Remembers(s.rows, s.saved)
    && ProcessOk(c, s)
    && OutsideOk(s)
    && OuterOk(c, s)
  }

  ghost predicate RowsOk(c: Context, rows: map<nat, StepRow>) {
    forall k :: k in rows ==> RowOk(c, rows, k)
  }

  /** An unsettled step is the last one, so settling or moving it disturbs nothing else. */
  lemma UpdateUnsettled(c: Context, rows: map<nat, StepRow>, k: nat, row: StepRow)
    requires RowsOk(c, rows)
    requires k in rows && !rows[k].state.Succeeded? && row.request == rows[k].request
    ensures RowsOk(c, rows[k := row])
  {
    var rows' := rows[k := row];
    forall j | j in rows'
      ensures RowOk(c, rows', j)
    {
      assert RowOk(c, rows, j);
      assert j <= k;
      assert Results(rows', j) == Results(rows, j);
    }
  }

  /** The next step joins the ledger with the request the agent makes at this point. */
  lemma AddStep(c: Context, rows: map<nat, StepRow>, history: seq<string>, row: StepRow)
    requires RowsOk(c, rows) && Remembers(rows, history) && |history| !in rows
    requires c.next(history) == Call(row.request)
    ensures RowsOk(c, rows[|history| := row])
  {
    var k := |history|;
    var rows' := rows[k := row];
    forall j | j in rows'
      ensures RowOk(c, rows', j)
    {
      if j == k {
        assert Results(rows', k) == history;
      } else {
        assert RowOk(c, rows, j);
        assert j < k;
        assert Results(rows', j) == Results(rows, j);
      }
    }
  }

  /** A finished loop has no unsettled step to change and no further step to add. */
  lemma EndedIsClosed(c: Context, s: State, k: nat)
    requires Inv(c, s) && s.outer.Some?
    ensures k in s.rows ==> s.rows[k].state.Succeeded?
    ensures s.process.Alive? && c.next(s.process.history).Call? ==> |s.process.history| in s.rows
  {
    var n: nat :| Ended(c, s.rows, n, s.outer.value);
    if s.process.Alive? && |s.process.history| !in s.rows {
      assert Results(s.rows, n) == s.process.history by {
        assert n !in s.rows;
      }
    }
  }

  lemma NewStepKeepsInv(c: Context, s: State, history: seq<string>, request: string)
    requires Inv(c, s) && s.process == Alive(history, Thinking) && |history| !in s.rows && c.next(history) == Call(request)
    ensures Inv(c, s.(rows := s.rows[|history| := StepRow(request, Planned, "")], process := Alive(history, PreparedStep(request))))
  {
    AddStep(c, s.rows, history, StepRow(request, Planned, ""));
    if s.outer.Some? { EndedIsClosed(c, s, |history|); }
  }

  /** Only the process and the status change. */
  lemma SameRowsKeepInv(c: Context, s: State, process: Process, status: RunStatus)
    requires Inv(c, s) && ProcessOk(c, s.(process := process)) && (status == s.status || !status.Completed?)
    ensures Inv(c, s.(process := process, status := status))
  {
  }

  /** The step is in the ledger already: continue with it, take its result, or stop. */
  lemma KnownStepKeepsInv(c: Context, s: State)
    requires Inv(c, s) && s.process.Alive? && s.process.phase.Thinking? && |s.process.history| in s.rows
    requires c.next(s.process.history).Call? && !Blocked(c, s.rows)
    ensures Inv(c, PrepareNext(c, s, s.process.history))
  {
    var s' := PrepareNext(c, s, s.process.history);
    SameRowsKeepInv(c, s, s'.process, s'.status);
  }

  lemma PrepareKeepsInv(c: Context, s: State)
    requires Inv(c, s) && s.process.Alive? && s.process.phase.Thinking?
    ensures Inv(c, PrepareNext(c, s, s.process.history))
  {
    var history := s.process.history;
    if c.next(history).Call? {
      if Blocked(c, s.rows) {
        SameRowsKeepInv(c, s, Stopped, Waiting);
      } else if |history| in s.rows {
        KnownStepKeepsInv(c, s);
      } else {
        NewStepKeepsInv(c, s, history, c.next(history).request);
      }
    }
  }

  lemma UpdateKeepsInv(c: Context, s: State, k: nat, row: StepRow, process: Process)
    requires Inv(c, s)
    requires k in s.rows && !s.rows[k].state.Succeeded? && row.request == s.rows[k].request && !row.state.Planned?
    requires ProcessOk(c, s.(rows := s.rows[k := row], process := process))
    ensures Inv(c, s.(rows := s.rows[k := row], process := process))
  {
    UpdateUnsettled(c, s.rows, k, row);
    if s.outer.Some? { EndedIsClosed(c, s, k); }
  }

  lemma BeginKeepsInv(c: Context, s: State, history: seq<string>, request: string)
    requires Inv(c, s) && s.process == Alive(history, PreparedStep(request))
    ensures Inv(c, Act(c, s, BeginStep))
  {
    var k := |history|;
    UpdateKeepsInv(c, s, k, s.rows[k].(state := Dispatching), Alive(history, DispatchingStep(request)));
  }

  lemma SettleKeepsInv(c: Context, s: State, history: seq<string>, request: string, result: string)
    requires Inv(c, s) && s.process == Alive(history, Holding(request, result))
    ensures Inv(c, Act(c, s, SettleStep))
  {
    var k := |history|;
    var row := s.rows[k].(state := Succeeded, result := result);
    HoldingSettles(c, s, history, request, result);
    if s.rows[k].state.Dispatching? {
      SettledKeepsInv(c, s, history, row);
    } else {
      SameRowsKeepInv(c, s, Stopped, s.status);
    }
  }

  lemma HoldingSettles(c: Context, s: State, history: seq<string>, request: string, result: string)
    requires s.process == Alive(history, Holding(request, result)) && |history| in s.rows
    ensures var k := |history|;
            Act(c, s, SettleStep) ==
              if s.rows[k].state.Dispatching? then
                s.(rows := s.rows[k := s.rows[k].(state := Succeeded, result := result)],
                   process := Alive(history + [result], Thinking))
              else s.(process := Stopped)
  {
  }

  lemma SettledKeepsInv(c: Context, s: State, history: seq<string>, row: StepRow)
    requires Inv(c, s) && Remembers(s.rows, history) && row.state.Succeeded?
    requires |history| in s.rows && s.rows[|history|].state.Dispatching? && row.request == s.rows[|history|].request
    ensures Inv(c, s.(rows := s.rows[|history| := row], process := Alive(history + [row.result], Thinking)))
  {
    SettledIsRemembered(s.rows, history, row);
    ThinkingIsOk(c, s.(rows := s.rows[|history| := row]), history + [row.result]);
    UpdateKeepsInv(c, s, |history|, row, Alive(history + [row.result], Thinking));
  }

  lemma ThinkingIsOk(c: Context, s: State, history: seq<string>)
    requires Remembers(s.rows, history)
    ensures ProcessOk(c, s.(process := Alive(history, Thinking)))
  {
  }

  lemma SettledIsRemembered(rows: map<nat, StepRow>, history: seq<string>, row: StepRow)
    requires Remembers(rows, history) && row.state.Succeeded?
    ensures Remembers(rows[|history| := row], history + [row.result])
  {
  }

  lemma ActKeepsInv(c: Context, s: State, step: Step)
    requires Inv(c, s) && s.process.Alive?
    ensures Inv(c, Act(c, s, step))
  {
    var history := s.process.history;
    var k := |history|;
    match (step, s.process.phase)
    case (PrepareStep, Thinking) => PrepareKeepsInv(c, s);
    case (BeginStep, PreparedStep(request)) => BeginKeepsInv(c, s, history, request);
    case (CallRaises, DispatchingStep(request)) => AmbiguityKeepsInv(c, s, k);
    case (CallRaises, Holding(request, result)) => AmbiguityKeepsInv(c, s, k);
    case (SettleStep, Holding(request, result)) => SettleKeepsInv(c, s, history, request, result);
    case (FinishLoop, Thinking) =>
      if c.next(history).Finish? && !Blocked(c, s.rows) { FinishKeepsInv(c, s); }
    case _ =>
  }

  lemma AmbiguityKeepsInv(c: Context, s: State, k: nat)
    requires Inv(c, s)
    ensures Inv(c, Ambiguity(s, k))
  {
    if k in s.rows && s.rows[k].state.Dispatching? {
      UpdateKeepsInv(c, s, k, s.rows[k].(state := Unknown), Stopped);
    }
  }

  lemma FinishKeepsInv(c: Context, s: State)
    requires Inv(c, s) && s.process.Alive? && c.next(s.process.history).Finish? && !ScanFull(c, s.rows)
    ensures Inv(c, s.(outer := Some(c.next(s.process.history).output)))
  {
    var history := s.process.history;
    var n := |history|;
    assert Results(s.rows, n) == history;
    assert n in s.rows ==> RowOk(c, s.rows, n);
    forall k: nat | k in s.rows
      ensures k < n
    {
      assert RowOk(c, s.rows, k);
    }
    assert Ended(c, s.rows, n, c.next(history).output);
    if s.outer.Some? {
      var m: nat :| Ended(c, s.rows, m, s.outer.value);
      assert m == n by {
        assert m !in s.rows && n !in s.rows;
      }
    }
  }

  lemma RecoverKeepsInv(c: Context, s: State, digest: string)
    requires Inv(c, s)
    ensures Inv(c, RecoverRun(c, s, digest))
  {
    ThinkingIsOk(c, s, s.saved);
    var s' := RecoverRun(c, s, digest);
    if s'.status.Completed? {
      assert Inv(c, s');
    } else {
      SameRowsKeepInv(c, s, s'.process, s'.status);
    }
  }

  lemma ReconcileKeepsInv(c: Context, s: State, k: nat, row: StepRow)
    requires Inv(c, s) && k in s.rows && Unresolved(s.rows[k])
    requires row.request == s.rows[k].request && !row.state.Planned?
    ensures Inv(c, s.(rows := s.rows[k := row]))
  {
    UpdateKeepsInv(c, s, k, row, s.process);
  }

  lemma NextKeepsInv(c: Context, s: State, step: Step)
    requires Inv(c, s)
    ensures Inv(c, Next(c, s, step))
  {
    match step
    case Crash =>
    case Recover(digest) => RecoverKeepsInv(c, s, digest);
    case Reconcile(k, observed) =>
      if k in s.rows && Unresolved(s.rows[k]) { ReconcileKeepsInv(c, s, k, Next(c, s, step).rows[k]); }
    case _ =>
      if s.process.Alive? { ActKeepsInv(c, s, step); }
  }

  lemma {:induction false} RunKeepsInv(c: Context, s: State, steps: seq<Step>)
    requires Inv(c, s)
    ensures Inv(c, Run(c, s, steps))
    decreases |steps|
  {
    if steps != [] {
      NextKeepsInv(c, s, steps[0]);
      RunKeepsInv(c, Next(c, s, steps[0]), steps[1..]);
    }
  }

  // ----- What a restart may do -----

  /** Every step leaves the building at most once, in any run with any number of deaths,
      restarts and reconciliations, and only after its dispatch was made durable. */
  lemma EachStepLeavesOnce(c: Context, steps: seq<Step>)
    ensures var s := Run(c, INITIAL, steps);
            && (forall p, q :: 0 <= p < q < |s.outside| ==> s.outside[p] != s.outside[q])
            && (forall k :: k in s.outside ==> k in s.rows && !s.rows[k].state.Planned?)
  {
    RunKeepsInv(c, INITIAL, steps);
  }

  /** No process is between the dispatch of step `k` and its call. */
  predicate NotCalling(s: State, k: nat) {
    !(s.process.Alive? && |s.process.history| == k && s.process.phase.DispatchingStep?)
  }

  ghost predicate Spared(before: State, after: State, k: nat) {
    && k in after.rows && !after.rows[k].state.Planned? && NotCalling(after, k)
    && (k in after.outside ==> k in before.outside)
  }

  lemma ActSparesDispatched(c: Context, s: State, step: Step, k: nat)
    requires ProcessOk(c, s) && s.process.Alive?
    requires k in s.rows && !s.rows[k].state.Planned? && NotCalling(s, k)
    ensures Spared(s, Act(c, s, step), k)
  {
    match (step, s.process.phase)
    case (PrepareStep, Thinking) =>
    case (BeginStep, PreparedStep(request)) =>
    case (CallOut(result), DispatchingStep(request)) =>
    case (CallRaises, DispatchingStep(request)) =>
    case (CallRaises, Holding(request, result)) =>
    case (SettleStep, Holding(request, result)) =>
    case _ =>
  }

  lemma NextSparesDispatched(c: Context, s: State, step: Step, k: nat)
    requires Inv(c, s) && k in s.rows && !s.rows[k].state.Planned? && NotCalling(s, k)
    ensures Spared(s, Next(c, s, step), k)
  {
    match step
    case Crash =>
    case Recover(digest) =>
    case Reconcile(j, observed) =>
    case _ =>
      if s.process.Alive? { ActSparesDispatched(c, s, step, k); }
  }

  lemma {:induction false} RunSparesDispatched(c: Context, s: State, steps: seq<Step>, k: nat)
    requires Inv(c, s) && k in s.rows && !s.rows[k].state.Planned? && NotCalling(s, k)
    ensures k in Run(c, s, steps).outside ==> k in s.outside
    decreases |steps|
  {
    if steps != [] {
      NextSparesDispatched(c, s, steps[0], k);
      NextKeepsInv(c, s, steps[0]);
      RunSparesDispatched(c, Next(c, s, steps[0]), steps[1..], k);
    }
  }

  /** Whatever led to a death, a step whose dispatch was already durable is never called
      again afterwards: restarts call only steps that were absent or still planned. */
  lemma RestartSparesDispatched(c: Context, before: seq<Step>, after: seq<Step>, k: nat)
    requires var s := Run(c, INITIAL, before); k in s.rows && !s.rows[k].state.Planned?
    ensures var dead := Next(c, Run(c, INITIAL, before), Crash);
            k in Run(c, dead, after).outside ==> k in dead.outside
  {
    RunKeepsInv(c, INITIAL, before);
    var s := Run(c, INITIAL, before);
    NextKeepsInv(c, s, Crash);
    RunSparesDispatched(c, Next(c, s, Crash), after, k);
  }

  /** A run with an unresolved step and no process makes no further call until the step is
      reconciled, and every recovery of it ends in waiting for reconciliation. */
  lemma {:induction false} UnresolvedStepStopsTheRun(c: Context, s: State, steps: seq<Step>)
    requires Blocked(c, s.rows) && s.process.Stopped? && !s.status.Completed? && !s.status.RunFailed?
    requires forall x :: x in steps ==> !x.Reconcile?
    ensures var s' := Run(c, s, steps);
            && s'.outside == s.outside && s'.rows == s.rows && s'.process.Stopped?
            && s'.status == (if exists x :: x in steps && x.Recover? then Waiting else s.status)
    decreases |steps|
  {
    if steps != [] {
      var s1 := Next(c, s, steps[0]);
      UnresolvedStepStopsTheRun(c, s1, steps[1..]);
      assert steps == [steps[0]] + steps[1..];
      if steps[0].Recover? {
        assert s1.status == Waiting;
      }
    }
  }

  /** A run with as many operations as the scan reads is stuck once its process is gone: it
      makes no further call and never completes, whatever is reconciled and however often it
      is recovered, even when every step succeeded. */
  lemma {:induction false} FullScanNeverCompletes(c: Context, s: State, steps: seq<Step>)
    requires ScanFull(c, s.rows) && s.process.Stopped? && !s.status.Completed?
    ensures var s' := Run(c, s, steps);
            && s'.outside == s.outside && s'.rows.Keys == s.rows.Keys && s'.process.Stopped?
            && !s'.status.Completed? && s'.outer == s.outer
    decreases |steps|
  {
    if steps != [] {
      var s1 := Next(c, s, steps[0]);
      FullScanStep(c, s, steps[0]);
      FullScanNeverCompletes(c, s1, steps[1..]);
    }
  }

  lemma FullScanStep(c: Context, s: State, step: Step)
    requires ScanFull(c, s.rows) && s.process.Stopped? && !s.status.Completed?
    ensures var s' := Next(c, s, step);
            && s'.outside == s.outside && s'.rows.Keys == s.rows.Keys && s'.process.Stopped?
            && !s'.status.Completed? && s'.outer == s.outer
            && |s'.rows| == |s.rows|
  {
    var s' := Next(c, s, step);
    assert s'.rows.Keys == s.rows.Keys;
    SameKeysSameSize(s.rows, s'.rows);
  }

  lemma SameKeysSameSize(a: map<nat, StepRow>, b: map<nat, StepRow>)
    requires a.Keys == b.Keys
    ensures |a| == |b|
  {
    assert |a| == |a.Keys| && |b| == |b.Keys|;
  }

  /** Harness drift after the planned boundary fails the run without a call. */
  lemma ChangedSpecificationFailsTheRun(c: Context, s: State, digest: string)
    requires s.process.Stopped? && !s.status.Completed? && !s.status.RunFailed?
    requires !Blocked(c, s.rows) && s.outer.None? && digest != c.specDigest
    ensures Next(c, s, Recover(digest)) == s.(status := RunFailed("RUN_RECOVERY_SPEC_MISMATCH"))
  {
  }

  // ----- A completed run is an uncrashed run -----

  /** The output of the loop when its calls return `results` in turn and nothing dies. */
  function Uncrashed(c: Context, history: seq<string>, results: seq<string>): Option<string>
    decreases |results|
  {
    match c.next(history)
    case Finish(output) => if results == [] then Some(output) else None
    case Call(_) => if results == [] then None else Uncrashed(c, history + [results[0]], results[1..])
  }

  lemma {:induction false} UncrashedFrom(c: Context, rows: map<nat, StepRow>, n: nat, k: nat, output: string)
    requires Ended(c, rows, n, output) && RowsOk(c, rows) && k <= n
    ensures Uncrashed(c, Results(rows, k), Results(rows, n)[k..]) == Some(output)
    decreases n - k
  {
    var rest := Results(rows, n)[k..];
    if k == n {
      assert rest == [];
    } else {
      assert RowOk(c, rows, k);
      UncrashedFrom(c, rows, n, k + 1, output);
      assert Results(rows, k) + [rest[0]] == Results(rows, k + 1);
      assert rest[1..] == Results(rows, n)[k + 1..];
    }
  }

  /** Whatever died and was restarted on the way, the output of a completed run is the output
      of an uncrashed run whose calls return the stored results. */
  lemma CompletedOutputIsUncrashed(c: Context, steps: seq<Step>)
    requires Run(c, INITIAL, steps).status.Completed?
    ensures var s := Run(c, INITIAL, steps);
            exists n: nat ::
              && Ended(c, s.rows, n, s.status.output)
              && Uncrashed(c, [], Results(s.rows, n)) == Some(s.status.output)
  {
    RunKeepsInv(c, INITIAL, steps);
    var s := Run(c, INITIAL, steps);
    var n: nat :| Ended(c, s.rows, n, s.outer.value);
    UncrashedFrom(c, s.rows, n, 0, s.outer.value);
    assert Results(s.rows, 0) == [] && Results(s.rows, n)[0..] == Results(s.rows, n);
  }

  /** The schedule of the run that never dies. */
  function CrashFree(results: seq<string>): seq<Step> {
    if results == [] then [FinishLoop, CompleteRun]
    else [PrepareStep, BeginStep, CallOut(results[0]), SettleStep] + CrashFree(results[1..])
  }

  /** A living process has all settled results in memory, and at most the next step is planned. */
  ghost predicate SettledPrefix(c: Context, s: State, history: seq<string>) {
    && s.process == Alive(history, Thinking)
    && Remembers(s.rows, history)
    && (forall k :: k in s.rows ==> k <= |history|)
    && (|history| in s.rows ==>
          s.rows[|history|].state.Planned? && c.next(history) == Call(s.rows[|history|].request))
    && s.outer.None? && s.status == Running
  }

  lemma RunStep(c: Context, s: State, step: Step, rest: seq<Step>)
    ensures Run(c, s, [step] + rest) == Run(c, Next(c, s, step), rest)
  {
  }

  ghost function OneStep(c: Context, s: State, result: string): State {
    Next(c, Next(c, Next(c, Next(c, s, PrepareStep), BeginStep), CallOut(result)), SettleStep)
  }

  lemma FourSteps(c: Context, s: State, result: string, rest: seq<Step>)
    ensures Run(c, s, [PrepareStep, BeginStep, CallOut(result), SettleStep] + rest) == Run(c, OneStep(c, s, result), rest)
  {
    var s1 := Next(c, s, PrepareStep);
    var s2 := Next(c, s1, BeginStep);
    var s3 := Next(c, s2, CallOut(result));
    RunStep(c, s, PrepareStep, [BeginStep, CallOut(result), SettleStep] + rest);
    RunStep(c, s1, BeginStep, [CallOut(result), SettleStep] + rest);
    RunStep(c, s2, CallOut(result), [SettleStep] + rest);
    RunStep(c, s3, SettleStep, rest);
    assert [PrepareStep, BeginStep, CallOut(result), SettleStep] + rest
        == [PrepareStep] + ([BeginStep, CallOut(result), SettleStep] + rest);
    assert [BeginStep, CallOut(result), SettleStep] + rest == [BeginStep] + ([CallOut(result), SettleStep] + rest);
    assert [CallOut(result), SettleStep] + rest == [CallOut(result)] + ([SettleStep] + rest);
  }

  lemma {:induction false} SettledSize(rows: map<nat, StepRow>, n: nat)
    requires forall k: nat :: k in rows ==> k < n
    ensures |rows| <= n
    decreases n
  {
    if n > 0 {
      if n - 1 in rows {
        var rest := map k: nat | k in rows && k != n - 1 :: rows[k];
        assert rest.Keys == rows.Keys - {n - 1};
        SettledSize(rest, n - 1);
      } else {
        SettledSize(rows, n - 1);
      }
    } else {
      assert rows == map[];
    }
  }

  lemma {:induction false} EndedSize(rows: map<nat, StepRow>, n: nat)
    requires forall k: nat :: k in rows <==> k < n
    ensures |rows| == n
    decreases n
  {
    if n > 0 {
      var rest := map k: nat | k in rows && k != n - 1 :: rows[k];
      assert rest.Keys == rows.Keys - {n - 1};
      EndedSize(rest, n - 1);
    } else {
      assert rows == map[];
    }
  }

  /** One undisturbed step of the loop. */
  lemma UndisturbedStep(c: Context, s: State, history: seq<string>, result: string)
    requires SettledPrefix(c, s, history) && c.next(history).Call? && |history| + 1 + c.others < SCAN_LIMIT
    ensures var s' := OneStep(c, s, result);
            && SettledPrefix(c, s', history + [result])
            && s'.rows == s.rows[|history| := StepRow(c.next(history).request, Succeeded, result)]
            && s'.outside == s.outside + [|history|]
  {
    var request := c.next(history).request;
    UndisturbedBegin(c, s, history);
    var s2 := Next(c, Next(c, s, PrepareStep), BeginStep);
    var s3 := Next(c, s2, CallOut(result));
    assert s3.process == Alive(history, Holding(request, result));
    var s4 := Next(c, s3, SettleStep);
    assert s4.rows == s.rows[|history| := StepRow(request, Succeeded, result)];
  }

  lemma UndisturbedBegin(c: Context, s: State, history: seq<string>)
    requires SettledPrefix(c, s, history) && c.next(history).Call? && |history| + 1 + c.others < SCAN_LIMIT
    ensures exists before ::
              Next(c, Next(c, s, PrepareStep), BeginStep)
              == s.(rows := s.rows[|history| := StepRow(c.next(history).request, Dispatching, before)],
                    process := Alive(history, DispatchingStep(c.next(history).request)))
  {
    var request := c.next(history).request;
    SettledSize(s.rows, |history| + 1);
    assert !Blocked(c, s.rows);
    var s1 := Next(c, s, PrepareStep);
    assert s1.process == Alive(history, PreparedStep(request));
    var s2 := Next(c, s1, BeginStep);
    assert s2.rows == s.rows[|history| := StepRow(request, Dispatching, s1.rows[|history|].result)];
  }

  lemma CrashFreeEnd(c: Context, s: State, history: seq<string>)
    requires SettledPrefix(c, s, history) && c.next(history).Finish? && |history| + c.others < SCAN_LIMIT
    ensures var s' := Run(c, s, CrashFree([]));
            s' == s.(outer := Some(c.next(history).output), status := Completed(c.next(history).output), process := Stopped)
  {
    SettledSize(s.rows, |history|);
    assert !Blocked(c, s.rows);
    var s1 := Next(c, s, FinishLoop);
    RunStep(c, s, FinishLoop, [CompleteRun]);
    RunStep(c, s1, CompleteRun, []);
    assert [FinishLoop] + [CompleteRun] == CrashFree([]) && [CompleteRun] + [] == [CompleteRun];
  }

  /** The loop has stored these results and is over with their output. */
  ghost predicate CompletedWith(c: Context, s: State, history: seq<string>, output: Option<string>) {
    && output.Some? && s.status == Completed(output.value)
    && Remembers(s.rows, history)
    && (forall k :: k in s.rows ==> k < |history|)
  }

  lemma CrashFreeLast(c: Context, s: State, history: seq<string>)
    requires SettledPrefix(c, s, history) && c.next(history).Finish? && |history| + c.others < SCAN_LIMIT
    ensures CompletedWith(c, Run(c, s, CrashFree([])), history, Some(c.next(history).output))
    ensures Run(c, s, CrashFree([])).outside == s.outside
  {
    CrashFreeEnd(c, s, history);
  }

  lemma CrashFreeFirst(c: Context, s: State, results: seq<string>)
    requires results != []
    ensures Run(c, s, CrashFree(results)) == Run(c, OneStep(c, s, results[0]), CrashFree(results[1..]))
  {
    FourSteps(c, s, results[0], CrashFree(results[1..]));
  }

  lemma UncrashedFirst(c: Context, history: seq<string>, results: seq<string>)
    requires Uncrashed(c, history, results).Some?
    ensures results == [] <==> c.next(history).Finish?
    ensures results != [] ==>
              && Uncrashed(c, history + [results[0]], results[1..]) == Uncrashed(c, history, results)
              && history + [results[0]] + results[1..] == history + results
  {
  }

  function StepsFrom(first: nat, count: nat): seq<nat> {
    seq(count, i requires 0 <= i < count => first + i)
  }

  lemma FirstOfSteps(outside: seq<nat>, first: nat, count: nat)
    requires count > 0
    ensures (outside + [first]) + StepsFrom(first + 1, count - 1) == outside + StepsFrom(first, count)
  {
  }

  lemma NoSteps(outside: seq<nat>, first: nat)
    ensures outside + StepsFrom(first, 0) == outside
  {
  }

  lemma {:induction false} CrashFreeRun(c: Context, s: State, history: seq<string>, results: seq<string>)
    requires SettledPrefix(c, s, history) && Uncrashed(c, history, results).Some?
    requires |history| + |results| + c.others < SCAN_LIMIT
    ensures CompletedWith(c, Run(c, s, CrashFree(results)), history + results, Uncrashed(c, history, results))
    decreases |results|
  {
    UncrashedFirst(c, history, results);
    if results == [] {
      CrashFreeLast(c, s, history);
      assert history + results == history;
    } else {
      UndisturbedStep(c, s, history, results[0]);
      CrashFreeFirst(c, s, results);
      CrashFreeRun(c, OneStep(c, s, results[0]), history + [results[0]], results[1..]);
    }
  }

  /** It calls the remaining steps, each once and in order. */
  lemma {:induction false} CrashFreeCalls(c: Context, s: State, history: seq<string>, results: seq<string>)
    requires SettledPrefix(c, s, history) && Uncrashed(c, history, results).Some?
    requires |history| + |results| + c.others < SCAN_LIMIT
    ensures Run(c, s, CrashFree(results)).outside == s.outside + StepsFrom(|history|, |results|)
    decreases |results|
  {
    UncrashedFirst(c, history, results);
    if results == [] {
      CrashFreeLast(c, s, history);
      NoSteps(s.outside, |history|);
    } else {
      UndisturbedStep(c, s, history, results[0]);
      CrashFreeFirst(c, s, results);
      CrashFreeCalls(c, OneStep(c, s, results[0]), history + [results[0]], results[1..]);
      FirstOfSteps(s.outside, |history|, |results|);
    }
  }

  /** Two ledgers of the same agent that store the same results are the same ledger. */
  lemma ResultsDetermineRows(c: Context, a: map<nat, StepRow>, b: map<nat, StepRow>, results: seq<string>)
    requires RowsOk(c, a) && RowsOk(c, b) && Remembers(a, results) && Remembers(b, results)
    requires forall k :: k in a || k in b ==> k < |results|
    ensures a == b
  {
    forall k: nat | k < |results|
      ensures k in a && k in b && a[k] == b[k]
    {
      assert RowOk(c, a, k) && RowOk(c, b, k);
      assert Results(a, k) == results[..k] == Results(b, k);
    }
  }

  lemma InitialInv(c: Context)
    ensures Inv(c, INITIAL) && SettledPrefix(c, INITIAL, [])
  {
  }

  /** Two ledgers ended with the same results are the same. */
  lemma SameEnd(c: Context, s: State, twin: State, n: nat)
    requires RowsOk(c, s.rows) && RowsOk(c, twin.rows) && s.status.Completed?
    requires Ended(c, s.rows, n, s.status.output)
    requires CompletedWith(c, twin, Results(s.rows, n), Some(s.status.output))
    ensures twin.status == s.status && twin.rows == s.rows
  {
    ResultsDetermineRows(c, s.rows, twin.rows, Results(s.rows, n));
  }

  /** The loop that never dies, from the start. */
  lemma CrashFreeFromStart(c: Context, results: seq<string>)
    requires Uncrashed(c, [], results).Some? && |results| + c.others < SCAN_LIMIT
    ensures CompletedWith(c, Run(c, INITIAL, CrashFree(results)), results, Uncrashed(c, [], results))
    ensures RowsOk(c, Run(c, INITIAL, CrashFree(results)).rows)
  {
    InitialInv(c);
    CrashFreeRun(c, INITIAL, [], results);
    assert [] + results == results;
    RunKeepsInv(c, INITIAL, CrashFree(results));
  }

  /** The ledger `s` ended with these results is reached by the run that never dies. */
  lemma CrashFreeReaches(c: Context, s: State, n: nat)
    requires Inv(c, s) && s.status.Completed?
    requires Ended(c, s.rows, n, s.status.output)
    requires Uncrashed(c, [], Results(s.rows, n)) == Some(s.status.output)
    ensures var twin := Run(c, INITIAL, CrashFree(Results(s.rows, n)));
            twin.status == s.status && twin.rows == s.rows
  {
    EndedSize(s.rows, n);
    CrashFreeFromStart(c, Results(s.rows, n));
    SameEnd(c, s, Run(c, INITIAL, CrashFree(Results(s.rows, n))), n);
  }

  ghost predicate IsTwin(c: Context, s: State, results: seq<string>) {
    var twin := Run(c, INITIAL, CrashFree(results));
    twin.status == s.status && twin.rows == s.rows
  }

  /** For every completed run there is a run without a single death, restart or
      reconciliation that stores the same results and completes with the same output. */
  lemma CompletedRunHasCrashFreeTwin(c: Context, steps: seq<Step>)
    requires Run(c, INITIAL, steps).status.Completed?
    ensures exists results: seq<string> :: IsTwin(c, Run(c, INITIAL, steps), results)
  {
    CompletedOutputIsUncrashed(c, steps);
    RunKeepsInv(c, INITIAL, steps);
    var s := Run(c, INITIAL, steps);
    var n: nat :| Ended(c, s.rows, n, s.status.output)
                  && Uncrashed(c, [], Results(s.rows, n)) == Some(s.status.output);
    CrashFreeReaches(c, s, n);
    assert IsTwin(c, s, Results(s.rows, n));
  }

  /** Some run ends with exactly these step results and completes. */
  ghost predicate Completable(c: Context, results: seq<string>) {
    exists steps: seq<Step> ::
      var s := Run(c, INITIAL, steps);
      s.status.Completed? && |s.rows| == |results| && Remembers(s.rows, results)
  }

  /** A loop whose calls return these results can complete, with or without deaths, if and
      only if the run's operations stay below what the safety scan reads. */
  lemma CompletesIffWithinScan(c: Context, results: seq<string>)
    requires Uncrashed(c, [], results).Some?
    ensures Completable(c, results) <==> |results| + c.others < SCAN_LIMIT
  {
    if Completable(c, results) {
      var steps: seq<Step> :|
        var s := Run(c, INITIAL, steps); s.status.Completed? && |s.rows| == |results| && Remembers(s.rows, results);
      InitialInv(c);
      RunKeepsInv(c, INITIAL, steps);
    }
    if |results| + c.others < SCAN_LIMIT {
      CrashFreeFromStart(c, results);
      var s := Run(c, INITIAL, CrashFree(results));
      assert forall k: nat :: k in s.rows <==> k < |results|;
      EndedSize(s.rows, |results|);
      assert Run(c, INITIAL, CrashFree(results)).status.Completed?;
    }
  }

  // ----- A recovered run continues -----

  /** The run is not over, waits for nothing, and has no process. */
  ghost predicate Stranded(c: Context, s: State) {
    s.process.Stopped? && !s.status.Completed? && !s.status.RunFailed? && !Blocked(c, s.rows)
  }

  /** A step that is over without a result. */
  predicate Dead(row: StepRow) {
    row.state.Failed? || row.state.Cancelled?
  }

  /** The first `n` steps are settled with results; the next one is absent, or planned and
      never dispatched. */
  ghost predicate SettledTo(rows: map<nat, StepRow>, n: nat) {
    && AllSettled(rows, n)
    && (forall k :: k in rows ==> k <= n)
    && (n in rows ==> rows[n].state.Planned?)
  }

  lemma {:induction false} SettledLength(c: Context, rows: map<nat, StepRow>, bound: nat)
    requires RowsOk(c, rows) && (forall k :: k in rows ==> !Unresolved(rows[k]) && !Dead(rows[k]) && k < bound)
    ensures exists n: nat :: SettledTo(rows, n)
    decreases bound
  {
    if bound == 0 {
      assert SettledTo(rows, 0);
    } else if bound - 1 in rows {
      assert RowOk(c, rows, bound - 1);
      assert SettledTo(rows, if rows[bound - 1].state.Succeeded? then bound else bound - 1);
    } else {
      SettledLength(c, rows, bound - 1);
    }
  }

  /** A step number is below the number of rows, because all earlier steps are there. */
  lemma StepBelowSize(c: Context, rows: map<nat, StepRow>, k: nat)
    requires RowsOk(c, rows) && k in rows
    ensures k < |rows|
  {
    assert RowOk(c, rows, k);
    var upTo := map i: nat | i in rows && i <= k :: rows[i];
    EndedSize(upTo, k + 1);
    SubsetSize(upTo.Keys, rows.Keys);
  }

  lemma SubsetSize(a: set<nat>, b: set<nat>)
    requires a <= b
    ensures |a| <= |b|
  {
    assert b == a + (b - a);
  }

  /** Without a dead step, an unblocked ledger is a settled prefix and perhaps one planned step. */
  lemma UnblockedIsSettled(c: Context, rows: map<nat, StepRow>)
    requires RowsOk(c, rows) && !Blocked(c, rows) && (forall k :: k in rows ==> !Dead(rows[k]))
    ensures exists n: nat :: SettledTo(rows, n)
  {
    forall k | k in rows ensures k < |rows| { StepBelowSize(c, rows, k); }
    SettledLength(c, rows, |rows|);
  }

  /** The steps that read the stored results again, up to the end of the ledger. */
  function Rereads(count: nat): seq<Step> {
    seq(count, i requires 0 <= i < count => PrepareStep)
  }

  lemma FirstReread(c: Context, s: State, count: nat, rest: seq<Step>)
    requires count > 0
    ensures Run(c, s, Rereads(count) + rest) == Run(c, Next(c, s, PrepareStep), Rereads(count - 1) + rest)
  {
    assert Rereads(count) + rest == [PrepareStep] + (Rereads(count - 1) + rest);
    RunStep(c, s, PrepareStep, Rereads(count - 1) + rest);
  }

  /** The state with a thinking process that remembers `history`. */
  function Recalling(s: State, history: seq<string>): State {
    s.(process := Alive(history, Thinking))
  }

  ghost predicate AllSettled(rows: map<nat, StepRow>, n: nat) {
    forall k: nat :: k < n ==> k in rows && rows[k].state.Succeeded?
  }

  lemma RereadOne(c: Context, s: State, k: nat, count: nat, rest: seq<Step>)
    requires RowsOk(c, s.rows) && !Blocked(c, s.rows) && AllSettled(s.rows, k + 1) && count > 0
    ensures Run(c, Recalling(s, Results(s.rows, k)), Rereads(count) + rest)
            == Run(c, Recalling(s, Results(s.rows, k + 1)), Rereads(count - 1) + rest)
  {
    assert RowOk(c, s.rows, k);
    assert Results(s.rows, k + 1) == Results(s.rows, k) + [s.rows[k].result];
    FirstReread(c, Recalling(s, Results(s.rows, k)), count, rest);
  }

  lemma {:induction false} RereadsResults(c: Context, s: State, k: nat, n: nat, rest: seq<Step>)
    requires RowsOk(c, s.rows) && !Blocked(c, s.rows) && AllSettled(s.rows, n) && k <= n
    ensures Run(c, Recalling(s, Results(s.rows, k)), Rereads(n - k) + rest)
            == Run(c, Recalling(s, Results(s.rows, n)), rest)
    decreases n - k
  {
    if k == n {
      assert Rereads(0) + rest == rest;
    } else {
      RereadOne(c, s, k, n - k, rest);
      RereadsResults(c, s, k + 1, n, rest);
    }
  }

  lemma {:induction false} UncrashedAfter(c: Context, rows: map<nat, StepRow>, n: nat, k: nat, results: seq<string>)
    requires RowsOk(c, rows) && SettledTo(rows, n) && k <= n
    requires forall i: nat :: i < n ==> i in rows
    ensures Uncrashed(c, Results(rows, k), Results(rows, n)[k..] + results) == Uncrashed(c, Results(rows, n), results)
    decreases n - k
  {
    var rest := Results(rows, n)[k..] + results;
    if k == n {
      assert rest == results;
    } else {
      assert RowOk(c, rows, k);
      UncrashedAfter(c, rows, n, k + 1, results);
      assert Results(rows, k) + [rest[0]] == Results(rows, k + 1);
      assert rest[1..] == Results(rows, n)[k + 1..] + results;
    }
  }

  lemma SavedIsSettled(s: State, n: nat)
    requires Remembers(s.rows, s.saved) && SettledTo(s.rows, n)
    ensures |s.saved| <= n
  {
    assert n in s.rows ==> !s.rows[n].state.Succeeded?;
  }

  /** Recovery under the unchanged specification, the stored results read again from the saved
      checkpoint on, and the rest of the loop with the results its calls return. A loop whose
      output is stored needs the recovery alone. */
  function Resumption(c: Context, s: State, n: nat, results: seq<string>): seq<Step> {
    if s.outer.Some? || |s.saved| > n then [Recover(c.specDigest)]
    else [Recover(c.specDigest)] + (Rereads(n - |s.saved|) + CrashFree(results))
  }

  /** A running process that has read every stored result. */
  ghost function Ready(s: State, n: nat): State
    requires AllSettled(s.rows, n)
  {
    s.(process := Alive(Results(s.rows, n), Thinking), status := Running)
  }

  lemma ReadyIsSettled(c: Context, s: State, n: nat)
    requires RowsOk(c, s.rows) && SettledTo(s.rows, n) && s.outer.None?
    ensures SettledPrefix(c, Ready(s, n), Results(s.rows, n))
  {
    if n in s.rows { assert RowOk(c, s.rows, n); }
  }

  lemma RecoverRereads(c: Context, s: State, n: nat, rest: seq<Step>)
    requires RowsOk(c, s.rows) && Stranded(c, s) && AllSettled(s.rows, n) && s.outer.None?
    requires |s.saved| <= n && s.saved == Results(s.rows, |s.saved|)
    ensures Run(c, s, [Recover(c.specDigest)] + (Rereads(n - |s.saved|) + rest)) == Run(c, Ready(s, n), rest)
  {
    var alive := s.(process := Alive(s.saved, Thinking), status := Running);
    RecoverIsAlive(c, s, Rereads(n - |s.saved|) + rest);
    RereadsResults(c, alive, |s.saved|, n, rest);
  }

  lemma RecoverIsAlive(c: Context, s: State, rest: seq<Step>)
    requires Stranded(c, s) && s.outer.None?
    ensures Run(c, s, [Recover(c.specDigest)] + rest)
            == Run(c, s.(process := Alive(s.saved, Thinking), status := Running), rest)
  {
    RunStep(c, s, Recover(c.specDigest), rest);
  }

  /** The process after the recovery has read every stored result. */
  lemma RecoveredReadsOn(c: Context, s: State, n: nat, results: seq<string>)
    requires Inv(c, s) && Stranded(c, s) && SettledTo(s.rows, n) && s.outer.None?
    ensures SettledPrefix(c, Ready(s, n), Results(s.rows, n))
    ensures Run(c, s, Resumption(c, s, n, results)) == Run(c, Ready(s, n), CrashFree(results))
  {
    SavedIsSettled(s, n);
    ReadyIsSettled(c, s, n);
    assert s.saved == Results(s.rows, |s.saved|);
    RecoverRereads(c, s, n, CrashFree(results));
  }

  /** A loop whose output is stored is settled, and has no result to come. */
  lemma StoredOutputIsUncrashed(c: Context, s: State, n: nat, results: seq<string>)
    requires Inv(c, s) && SettledTo(s.rows, n) && s.outer.Some?
    requires Uncrashed(c, Results(s.rows, n), results).Some?
    ensures results == [] && Uncrashed(c, Results(s.rows, n), results) == s.outer
  {
    var m: nat :| Ended(c, s.rows, m, s.outer.value);
    assert n == m by {
      assert m !in s.rows && n !in s.rows;
    }
  }

  /** The loop is over with this output, after these results, and has called these steps. */
  ghost predicate CompletesBy(c: Context, s: State, schedule: seq<Step>, results: seq<string>, output: Option<string>, calls: seq<nat>) {
    var end := Run(c, s, schedule);
    && CompletedWith(c, end, results, output)
    && end.outside == s.outside + calls
  }

  lemma ResumedRunCompletes(c: Context, s: State, n: nat, results: seq<string>)
    requires Inv(c, s) && Stranded(c, s) && SettledTo(s.rows, n) && s.outer.None?
    requires Uncrashed(c, Results(s.rows, n), results).Some? && n + |results| + c.others < SCAN_LIMIT
    ensures CompletesBy(c, s, Resumption(c, s, n, results), Results(s.rows, n) + results,
                        Uncrashed(c, Results(s.rows, n), results), StepsFrom(n, |results|))
  {
    RecoveredReadsOn(c, s, n, results);
    CrashFreeRun(c, Ready(s, n), Results(s.rows, n), results);
    CrashFreeCalls(c, Ready(s, n), Results(s.rows, n), results);
  }

  lemma StoredOutputCompletes(c: Context, s: State, n: nat, results: seq<string>)
    requires Inv(c, s) && Stranded(c, s) && SettledTo(s.rows, n) && s.outer.Some?
    requires Uncrashed(c, Results(s.rows, n), results).Some?
    ensures CompletesBy(c, s, Resumption(c, s, n, results), Results(s.rows, n) + results,
                        Uncrashed(c, Results(s.rows, n), results), StepsFrom(n, |results|))
  {
    StoredOutputIsUncrashed(c, s, n, results);
    var m: nat :| Ended(c, s.rows, m, s.outer.value);
    RunStep(c, s, Recover(c.specDigest), []);
    assert [Recover(c.specDigest)] + [] == [Recover(c.specDigest)];
    NoSteps(s.outside, n);
    assert Results(s.rows, n) + [] == Results(s.rows, n);
    assert n !in s.rows;
  }

  /** From every reachable run that was left without a process, however often it died before,
      recovery under the unchanged specification completes it: the output is that of the loop
      that never dies, the stored results are kept, and exactly the steps that were absent or
      planned are called, each once and in order. */
  lemma RecoveredRunCompletes(c: Context, before: seq<Step>, n: nat, results: seq<string>)
    requires var s := Run(c, INITIAL, before);
             && Stranded(c, s) && SettledTo(s.rows, n)
             && Uncrashed(c, [], Results(s.rows, n) + results).Some?
    requires n + |results| + c.others < SCAN_LIMIT
    ensures var s := Run(c, INITIAL, before);
            CompletesBy(c, s, Resumption(c, s, n, results), Results(s.rows, n) + results,
                        Uncrashed(c, [], Results(s.rows, n) + results), StepsFrom(n, |results|))
  {
    InitialInv(c);
    RunKeepsInv(c, INITIAL, before);
    var s := Run(c, INITIAL, before);
    UncrashedAfter(c, s.rows, n, 0, results);
    assert Results(s.rows, 0) == [] && Results(s.rows, n)[0..] == Results(s.rows, n);
    if s.outer.Some? { StoredOutputCompletes(c, s, n, results); } else { ResumedRunCompletes(c, s, n, results); }
  }

  /** What a living process saved is where its recovery starts. */
  lemma CheckpointIsResumed(c: Context, s: State, history: seq<string>)
    requires s.process == Alive(history, Thinking) && s.status == Running && s.outer.None? && !Blocked(c, s.rows)
    ensures Run(c, s, [SaveCheckpoint, Crash, Recover(c.specDigest)]) == s.(saved := history)
  {
    var saved := s.(saved := history);
    RunStep(c, s, SaveCheckpoint, [Crash, Recover(c.specDigest)]);
    RunStep(c, saved, Crash, [Recover(c.specDigest)]);
    RunStep(c, saved.(process := Stopped), Recover(c.specDigest), []);
    assert [SaveCheckpoint] + [Crash, Recover(c.specDigest)] == [SaveCheckpoint, Crash, Recover(c.specDigest)];
    assert [Crash] + [Recover(c.specDigest)] == [Crash, Recover(c.specDigest)];
    assert [Recover(c.specDigest)] + [] == [Recover(c.specDigest)];
  }

  /** Evidence about the step that stranded a run decides it: an observed result becomes the
      step's result, so that the run can be resumed after it; a step found absent is dead. */
  lemma EvidenceDecidesTheRun(c: Context, before: seq<Step>, k: nat, observed: Option<string>)
    requires var s := Run(c, INITIAL, before);
             s.process.Stopped? && !s.status.Completed? && !s.status.RunFailed? && !ScanFull(c, s.rows)
             && k in s.rows && Unresolved(s.rows[k])
    ensures var s, s' := Run(c, INITIAL, before), Next(c, Run(c, INITIAL, before), Step.Reconcile(k, observed));
            && (forall i: nat :: i < k ==> i in s.rows)
            && if observed.Some?
               then && Stranded(c, s') && SettledTo(s'.rows, k + 1)
                    && Results(s'.rows, k + 1) == Results(s.rows, k) + [observed.value]
               else k in s'.rows && Dead(s'.rows[k])
  {
    InitialInv(c);
    RunKeepsInv(c, INITIAL, before);
    var s := Run(c, INITIAL, before);
    var s' := Next(c, s, Step.Reconcile(k, observed));
    UnresolvedIsLast(c, s.rows, k);
    if observed.Some? { ObservedIsSettled(c, s.rows, k, s'.rows[k]); }
  }

  lemma UnresolvedIsLast(c: Context, rows: map<nat, StepRow>, k: nat)
    requires RowsOk(c, rows) && k in rows && !rows[k].state.Succeeded?
    ensures AllSettled(rows, k) && forall j :: j in rows ==> j <= k
  {
    assert RowOk(c, rows, k);
    forall j | j in rows ensures j <= k { assert RowOk(c, rows, j); }
  }

  lemma ObservedIsSettled(c: Context, rows: map<nat, StepRow>, k: nat, row: StepRow)
    requires AllSettled(rows, k) && (forall j :: j in rows ==> j <= k) && k in rows && row.state.Succeeded?
    requires !ScanFull(c, rows)
    ensures var rows' := rows[k := row];
            SettledTo(rows', k + 1) && !Blocked(c, rows') && Results(rows', k + 1) == Results(rows, k) + [row.result]
  {
    var rows' := rows[k := row];
    assert rows'.Keys == rows.Keys;
    SameKeysSameSize(rows, rows');
  }

  /** A call whose outcome is not known parks the run: the step is unknown, nothing runs, and
      the run waits for evidence. */
  lemma RaisedCallWaits(c: Context, before: seq<Step>)
    requires var s := Run(c, INITIAL, before);
             s.process.Alive? && (s.process.phase.DispatchingStep? || s.process.phase.Holding?)
             && |s.process.history| in s.rows && s.rows[|s.process.history|].state.Dispatching?
    ensures var s, s' := Run(c, INITIAL, before), Next(c, Run(c, INITIAL, before), CallRaises);
            && s'.process.Stopped? && s'.status == Waiting && Blocked(c, s'.rows) && s'.outside == s.outside
            && s'.rows == s.rows[|s.process.history| := s.rows[|s.process.history|].(state := Unknown)]
  {
    var s := Run(c, INITIAL, before);
    var s' := Next(c, s, CallRaises);
    assert Unresolved(s'.rows[|s.process.history|]);
  }

  // ----- A run that is over -----

  predicate Over(s: State) {
    s.status.Completed? || s.status.RunFailed?
  }

  lemma NextLeavesOver(c: Context, s: State, step: Step)
    requires s.process.Alive? ==> s.status == Running
    ensures Next(c, s, step).process.Alive? ==> Next(c, s, step).status == Running
    ensures Over(s) ==> Next(c, s, step).status == s.status && Next(c, s, step).outside == s.outside
    ensures s.process.Alive? && step.Recover? ==> Next(c, s, step) == s
  {
  }

  /** A completed or failed run keeps its status and makes no call in any continuation; only a
      running run has a process, and recovery never disturbs a living one. */
  lemma {:induction false} OverRunStays(c: Context, s: State, steps: seq<Step>)
    requires s.process.Alive? ==> s.status == Running
    ensures Run(c, s, steps).process.Alive? ==> Run(c, s, steps).status == Running
    ensures Run(c, s, steps).process.Alive? ==>
              forall digest :: Next(c, Run(c, s, steps), Recover(digest)) == Run(c, s, steps)
    ensures Over(s) ==> Run(c, s, steps).status == s.status && Run(c, s, steps).outside == s.outside
    decreases |steps|
  {
    if steps == [] {
      forall digest ensures s.process.Alive? ==> Next(c, s, Recover(digest)) == s { NextLeavesOver(c, s, Recover(digest)); }
    } else {
      NextLeavesOver(c, s, steps[0]);
      OverRunStays(c, Next(c, s, steps[0]), steps[1..]);
    }
  }

  // ----- What can make a run fail -----

  lemma NextKeepsDead(c: Context, s: State, step: Step, k: nat)
    requires k in s.rows && Dead(s.rows[k])
    ensures k in Next(c, s, step).rows && Dead(Next(c, s, step).rows[k])
  {
  }

  lemma {:induction false} RunKeepsDead(c: Context, s: State, steps: seq<Step>, k: nat)
    requires k in s.rows && Dead(s.rows[k])
    ensures k in Run(c, s, steps).rows && Dead(Run(c, s, steps).rows[k])
    decreases |steps|
  {
    if steps != [] {
      NextKeepsDead(c, s, steps[0], k);
      RunKeepsDead(c, Next(c, s, steps[0]), steps[1..], k);
    }
  }

  /** A step that evidence found not to have happened is never made up for: its run does not
      complete, whatever follows. */
  lemma DeadStepNeverCompletes(c: Context, before: seq<Step>, after: seq<Step>, k: nat)
    requires var s := Run(c, INITIAL, before); k in s.rows && Dead(s.rows[k])
    ensures !Run(c, Run(c, INITIAL, before), after).status.Completed?
  {
    InitialInv(c);
    var s := Run(c, INITIAL, before);
    RunKeepsInv(c, INITIAL, before);
    RunKeepsInv(c, s, after);
    RunKeepsDead(c, s, after, k);
  }

  /** Some of the continuations completes the run. */
  ghost predicate CanComplete(c: Context, s: State) {
    exists after: seq<Step> :: Run(c, s, after).status.Completed?
  }

  /** The loop can still end from here, within what the scan reads. */
  ghost predicate CanEnd(c: Context, rows: map<nat, StepRow>) {
    forall n: nat :: SettledTo(rows, n) ==>
      exists results: seq<string> ::
        n + |results| + c.others < SCAN_LIMIT && Uncrashed(c, [], Results(rows, n) + results).Some?
  }

  /** A stranded run whose loop can still end is completed by some continuation if and only if
      none of its steps ended without a result. */
  lemma CompletableIffNoDeadStep(c: Context, before: seq<Step>)
    requires Stranded(c, Run(c, INITIAL, before)) && CanEnd(c, Run(c, INITIAL, before).rows)
    ensures CanComplete(c, Run(c, INITIAL, before))
            <==> forall k :: k in Run(c, INITIAL, before).rows ==> !Dead(Run(c, INITIAL, before).rows[k])
  {
    var s := Run(c, INITIAL, before);
    InitialInv(c);
    RunKeepsInv(c, INITIAL, before);
    if forall k :: k in s.rows ==> !Dead(s.rows[k]) {
      UnblockedIsSettled(c, s.rows);
      var n: nat :| SettledTo(s.rows, n);
      var results: seq<string> :|
        n + |results| + c.others < SCAN_LIMIT && Uncrashed(c, [], Results(s.rows, n) + results).Some?;
      RecoveredRunCompletes(c, before, n, results);
      assert Run(c, s, Resumption(c, s, n, results)).status.Completed?;
    } else {
      var k :| k in s.rows && Dead(s.rows[k]);
      forall after: seq<Step> ensures !Run(c, s, after).status.Completed? {
        DeadStepNeverCompletes(c, before, after, k);
      }
    }
  }

  predicate Drifts(c: Context, step: Step) {
    step.Recover? && step.specDigest != c.specDigest
  }

  /** A failed run was recovered under another specification, or has a dead step. */
  ghost predicate FailureExplained(s: State, drifted: bool) {
    s.status.RunFailed? ==>
      || (s.status.code == "RUN_RECOVERY_SPEC_MISMATCH" && drifted)
      || (s.status.code == "OPERATION_TERMINAL_FAILURE" && exists k :: k in s.rows && Dead(s.rows[k]))
  }

  /** The agent asks what the ledger says, so a prepared step is refused only for being dead. */
  lemma PrepareFailure(c: Context, s: State)
    requires Inv(c, s) && s.process.Alive? && s.process.phase.Thinking?
    ensures var s' := PrepareNext(c, s, s.process.history);
            s'.status == s.status || s'.status == Waiting
            || (s'.status == RunFailed("OPERATION_TERMINAL_FAILURE") && exists k :: k in s'.rows && Dead(s'.rows[k]))
  {
    var history := s.process.history;
    var k := |history|;
    if k in s.rows {
      assert RowOk(c, s.rows, k);
      assert Results(s.rows, k) == history;
      if !Blocked(c, s.rows) && !s.rows[k].state.Succeeded? && !s.rows[k].state.Planned? {
        assert Dead(s.rows[k]);
      }
    }
  }

  lemma ActFailure(c: Context, s: State, step: Step)
    requires Inv(c, s) && s.process.Alive? && step != PrepareStep
    ensures Act(c, s, step).status.RunFailed? ==> Act(c, s, step).status == s.status
  {
  }

  /** Dead steps stay dead, so an explained failure stays explained. */
  lemma KeepsExplained(c: Context, s: State, step: Step, drifted: bool)
    requires FailureExplained(s, drifted) && Next(c, s, step).status == s.status
    ensures FailureExplained(Next(c, s, step), drifted)
  {
    if s.status.RunFailed? && exists k :: k in s.rows && Dead(s.rows[k]) {
      var k :| k in s.rows && Dead(s.rows[k]);
      NextKeepsDead(c, s, step, k);
    }
  }

  lemma NextFailure(c: Context, s: State, step: Step, drifted: bool)
    requires Inv(c, s) && FailureExplained(s, drifted)
    ensures FailureExplained(Next(c, s, step), drifted || Drifts(c, step))
  {
    if Next(c, s, step).status == s.status {
      KeepsExplained(c, s, step, drifted);
    } else if s.process.Alive? && !step.Crash? && !step.Recover? && !step.Reconcile? {
      if step != PrepareStep { ActFailure(c, s, step); }
      else if s.process.phase.Thinking? { PrepareFailure(c, s); }
    }
  }

  lemma {:induction false} RunFailure(c: Context, s: State, steps: seq<Step>, drifted: bool)
    requires Inv(c, s) && FailureExplained(s, drifted)
    ensures FailureExplained(Run(c, s, steps), drifted || exists x :: x in steps && Drifts(c, x))
    decreases |steps|
  {
    if steps != [] {
      NextFailure(c, s, steps[0], drifted);
      NextKeepsInv(c, s, steps[0]);
      RunFailure(c, Next(c, s, steps[0]), steps[1..], drifted || Drifts(c, steps[0]));
      assert steps == [steps[0]] + steps[1..];
    }
  }

  /** A run fails for two reasons only: it was recovered under a changed specification, or one
      of its steps ended without a result. The loop's own requests never conflict with the
      ledger, and a step is never begun twice. */
  lemma FailsOnlyBy(c: Context, steps: seq<Step>)
    requires Run(c, INITIAL, steps).status.RunFailed?
    ensures var s := Run(c, INITIAL, steps);
            || (s.status.code == "RUN_RECOVERY_SPEC_MISMATCH" && exists x :: x in steps && Drifts(c, x))
            || (s.status.code == "OPERATION_TERMINAL_FAILURE" && exists k :: k in s.rows && Dead(s.rows[k]))
  {
    InitialInv(c);
    RunFailure(c, INITIAL, steps, false);
  }
}
