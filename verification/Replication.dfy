/** Two database nodes that take turns as writer: replication, acknowledgement, fenced
    promotion, rewind and rejoin (scripts/postgres_role_rotation_probe.py,
    scripts/postgres_failover_probe.py, scripts/postgres_synchronous_failover_probe.py). */
module Replication {
  import opened Wrappers
  import Lsn

  datatype NodeId = A | B

  function Other(n: NodeId): NodeId {
    if n == A then B else A
  }

  /** One commit record of the log. */
  datatype Record = Record(id: nat)

  /** `durable` is the part of the log that outlives an abrupt death: what a writer flushed,
      what a standby replayed. `reported` is the replay position a writer last heard of.
      `clean` is the shut-down state in the control file. */
  datatype Node = Node(
    running: bool,
    standby: bool,
    clean: bool,
    syncWith: Option<NodeId>,
    log: seq<Record>,
    durable: nat,
    reported: nat)

  /** The position read from the writer before a cutover, with the records it covers. */
  datatype Checkpoint = Checkpoint(writer: NodeId, lsn: string, covered: seq<Record>)

  datatype Ack = Ack(position: nat, record: Record, remote: bool)

  /** `promised` are the records covered by a guarded promotion or by a remote-apply
      acknowledgement so far; nothing reads it. */
  datatype State = State(
    a: Node,
    b: Node,
    connected: bool,
    noted: Option<Checkpoint>,
    replay: Option<string>,
    promised: seq<Record>,
    acks: set<Ack>)

  datatype Step =
    | Write(node: NodeId, record: Record)
    | Advance(node: NodeId, upTo: nat)
    | Ship(node: NodeId, upTo: nat)
    | Reply(node: NodeId)
    | Disconnect
    | Reconnect
    | ConfigureRemoteApply(node: NodeId, standby: NodeId)
    | Acknowledge(node: NodeId, position: nat)
    | ReadFlushLsn(node: NodeId)
    | ReadReplayLsn(node: NodeId)
    | Kill(node: NodeId, keep: nat)
    | StopNode(node: NodeId)
    | Promote(node: NodeId)
    | Rewind(target: NodeId, source: NodeId, requireClean: bool)
    | StartRejoined(node: NodeId)

  const INITIAL := State(
    Node(true, false, false, None, [], 0, 0), Node(true, true, false, None, [], 0, 0), true, None, None, [], {})

  function At(s: State, n: NodeId): Node {
    if n == A then s.a else s.b
  }

  function With(s: State, n: NodeId, node: Node): State {
    if n == A then s.(a := node) else s.(b := node)
  }

  /** The writer that `n` streams from, when the two are connected and on one timeline. */
  predicate Streams(s: State, n: NodeId) {
    && s.connected
    && At(s, n).running && At(s, n).standby
    && At(s, Other(n)).running && !At(s, Other(n)).standby
    && At(s, n).log <= At(s, Other(n)).log
  }

  predicate Writes(s: State, n: NodeId) {
    At(s, n).running && !At(s, n).standby
  }

  predicate MayAcknowledge(s: State, n: NodeId, position: nat) {
    && Writes(s, n) && position < |At(s, n).log| && position < At(s, n).durable
    && match At(s, n).syncWith
       case None => true
       case Some(x) => x == Other(n) && position < At(s, n).reported
  }

  const SAME_NODE := "rewind source and target containers must differ"
  const TARGET_RUNS := "refusing to rewind a running target container"
  const SOURCE_STOPPED := "refusing to rewind from a stopped source container"
  const NOT_CLEAN := "target was not shut down cleanly"

  function RewindRefusal(s: State, target: NodeId, source: NodeId, requireClean: bool): Option<string> {
    if target == source then Some(SAME_NODE)
    else if At(s, target).running then Some(TARGET_RUNS)
    else if !At(s, source).running then Some(SOURCE_STOPPED)
    else if requireClean && !At(s, target).clean then Some(NOT_CLEAN)
    else None
  }

  /** The rewound target holds the source's flushed log and configuration, and a standby
      signal; it stays down. */
  function Rewound(target: Node, source: Node): Node
    requires source.durable <= |source.log|
  {
    target.(standby := true, clean := false, syncWith := source.syncWith,
            log := source.log[..source.durable], durable := source.durable, reported := 0)
  }

  /** Everything received is replayed before the standby opens for writes. */
  function Opened(node: Node): Node {
    node.(standby := false, durable := |node.log|, reported := 0)
  }

  /** None when the cutover may go on. */
  function PromotionRefusal(s: State, n: NodeId): Option<string> {
    if s.noted.None? || s.replay.None? || s.noted.value.writer == n then Some("no position was read")
    else Lsn.RequireSafePromotion(At(s, Other(n)).running, s.replay.value, s.noted.value.lsn)
  }

  function Longer(x: seq<Record>, y: seq<Record>): seq<Record> {
    if |x| < |y| then y else x
  }

  /** The promotion itself, without its guard. */
  function ForcePromote(s: State, n: NodeId): State {
    if !(At(s, n).running && At(s, n).standby) then s
    else With(s, n, Opened(At(s, n))).(noted := None, replay := None)
  }

  function GuardedPromote(s: State, n: NodeId): State {
    if !(At(s, n).running && At(s, n).standby) || PromotionRefusal(s, n).Some? then s
    else ForcePromote(s, n).(promised := Longer(s.promised, s.noted.value.covered))
  }

  predicate Sound(node: Node) {
    node.durable <= |node.log|
  }

  function Next(s: State, step: Step): State
    requires Sound(s.a) && Sound(s.b)
  {
    match step
    case Write(n, record) =>
      if Writes(s, n) then With(s, n, At(s, n).(log := At(s, n).log + [record])) else s
    case Advance(n, k) =>
      if At(s, n).running && At(s, n).durable <= k <= |At(s, n).log| then With(s, n, At(s, n).(durable := k)) else s
    case Ship(n, k) =>
      if Streams(s, n) && |At(s, n).log| <= k <= At(s, Other(n)).durable then
        With(s, n, At(s, n).(log := At(s, Other(n)).log[..k]))
      else s
    case Reply(n) =>
      if Streams(s, n) then With(s, Other(n), At(s, Other(n)).(reported := At(s, n).durable)) else s
    case Disconnect => s.(connected := false)
    case Reconnect => s.(connected := true)
    case ConfigureRemoteApply(n, x) =>
      if Writes(s, n) then With(s, n, At(s, n).(syncWith := Some(x))) else s
    case Acknowledge(n, k) =>
      if MayAcknowledge(s, n, k) then
        var remote := At(s, n).syncWith.Some?;
        s.(acks := s.acks + {Ack(k, At(s, n).log[k], remote)},
           promised := if remote then Longer(s.promised, At(s, n).log[..k + 1]) else s.promised)
      else s
    case ReadFlushLsn(n) =>
      if Writes(s, n) then
        s.(noted := Some(Checkpoint(n, Lsn.Position(At(s, n).durable), At(s, n).log[..At(s, n).durable])), replay := None)
      else s
    case ReadReplayLsn(n) =>
      if At(s, n).running && At(s, n).standby && s.noted.Some? && s.noted.value.writer == Other(n) then
        s.(replay := Some(Lsn.Position(At(s, n).durable)))
      else s
    case Kill(n, keep) =>
      if At(s, n).running && At(s, n).durable <= keep <= |At(s, n).log| then
        With(s, n, At(s, n).(running := false, clean := false, log := At(s, n).log[..keep]))
      else s
    case StopNode(n) =>
      if At(s, n).running then
        With(s, n, At(s, n).(running := false, clean := true, durable := |At(s, n).log|))
      else s
    case Promote(n) => GuardedPromote(s, n)
    case Rewind(target, source, requireClean) =>
      if RewindRefusal(s, target, source, requireClean).None? then
        With(s, target, Rewound(At(s, target), At(s, source))).(noted := None, replay := None)
      else s
    case StartRejoined(n) =>
      if !At(s, n).running && At(s, n).standby then
        With(s, n, At(s, n).(running := true, clean := false))
      else s
  }

  // ----- What holds in every reachable state -----

  predicate Keeps(node: Node, records: seq<Record>) {
    node.durable <= |node.log| && records <= node.log[..node.durable]
  }

  predicate AtMostOneWriter(s: State) {
    !(Writes(s, A) && Writes(s, B))
  }

  /** A standby never has a record its writer has not flushed. */
  predicate Follows(s: State, n: NodeId) {
    At(s, n).standby && !At(s, Other(n)).standby ==> Keeps(At(s, Other(n)), At(s, n).log)
  }

  /** The replay position a writer has heard of is replayed. */
  predicate ReportOk(s: State, n: NodeId) {
    Writes(s, n) ==>
      At(s, n).reported <= At(s, n).durable <= |At(s, n).log| && Keeps(At(s, Other(n)), At(s, n).log[..At(s, n).reported])
  }

  ghost predicate NotedOk(s: State) {
    && (s.noted.Some? ==>
          var c := s.noted.value;
          !At(s, c.writer).standby && c.lsn == Lsn.Position(|c.covered|) && Keeps(At(s, c.writer), c.covered))
    && (s.replay.Some? ==> s.noted.Some? && ReplayOk(s, At(s, Other(s.noted.value.writer)).durable))
  }

  ghost predicate ReplayOk(s: State, durable: nat)
    requires s.replay.Some?
  {
    exists r: nat :: r <= durable && s.replay.value == Lsn.Position(r)
  }

  predicate AcksOk(s: State) {
    forall ack :: ack in s.acks && ack.remote ==> ack.position < |s.promised| && s.promised[ack.position] == ack.record
  }

  ghost predicate Inv(s: State) {
    && Keeps(s.a, s.promised) && Keeps(s.b, s.promised)
    && AtMostOneWriter(s)
    && Follows(s, A) && Follows(s, B)
    && ReportOk(s, A) && ReportOk(s, B)
    && NotedOk(s)
    && AcksOk(s)
  }

  /** Both nodes keep what was promised, whichever of the two is longer. */
  lemma LongerKept(node: Node, x: seq<Record>, y: seq<Record>)
    requires Keeps(node, x) && Keeps(node, y)
    ensures Keeps(node, Longer(x, y)) && x <= Longer(x, y) && y <= Longer(x, y)
  {
  }

  /** A remote-apply acknowledgement waits until both nodes keep the commit. */
  lemma RemoteAckIsKept(s: State, n: NodeId, k: nat)
    requires Inv(s) && MayAcknowledge(s, n, k) && At(s, n).syncWith.Some?
    ensures Keeps(At(s, n), At(s, n).log[..k + 1]) && Keeps(At(s, Other(n)), At(s, n).log[..k + 1])
  {
  }

  /** An acknowledgement that extends what was promised to `promised`. */
  lemma AcknowledgeExtends(s: State, n: NodeId, k: nat, promised: seq<Record>)
    requires Inv(s) && k < |At(s, n).log|
    requires Keeps(s.a, promised) && Keeps(s.b, promised) && s.promised <= promised
    requires At(s, n).log[..k + 1] <= promised
    ensures Inv(s.(acks := s.acks + {Ack(k, At(s, n).log[k], true)}, promised := promised))
  {
  }

  lemma AcknowledgeKeepsInv(s: State, n: NodeId, k: nat)
    requires Inv(s)
    ensures Inv(Next(s, Acknowledge(n, k)))
    ensures s.promised <= Next(s, Acknowledge(n, k)).promised
  {
    if MayAcknowledge(s, n, k) && At(s, n).syncWith.Some? {
      var prefix := At(s, n).log[..k + 1];
      RemoteAckIsKept(s, n, k);
      LongerKept(At(s, n), s.promised, prefix);
      LongerKept(At(s, Other(n)), s.promised, prefix);
      AcknowledgeExtends(s, n, k, Longer(s.promised, prefix));
    }
  }

  /** What the guard compared is what the new writer holds. */
  lemma GuardCovers(s: State, n: NodeId)
    requires Inv(s) && At(s, n).standby && PromotionRefusal(s, n).None?
    ensures s.noted.Some? && s.noted.value.writer == Other(n)
    ensures !At(s, Other(n)).running && !At(s, Other(n)).standby
    ensures Keeps(At(s, n), s.noted.value.covered) && Keeps(At(s, Other(n)), s.noted.value.covered)
  {
    var c := s.noted.value;
    var r: nat :| r <= At(s, n).durable && s.replay.value == Lsn.Position(r);
    Lsn.GuardComparesPositions(At(s, Other(n)).running, r, |c.covered|);
    assert Follows(s, n);
  }

  lemma PromoteKeepsInv(s: State, n: NodeId)
    requires Inv(s)
    ensures Inv(GuardedPromote(s, n)) && s.promised <= GuardedPromote(s, n).promised
  {
    if At(s, n).running && At(s, n).standby && PromotionRefusal(s, n).None? {
      GuardCovers(s, n);
      var covered := s.noted.value.covered;
      LongerKept(At(s, n), s.promised, covered);
      LongerKept(At(s, Other(n)), s.promised, covered);
      OpenedKeepsInv(s, n, Longer(s.promised, covered));
    }
  }

  /** A standby opens for writes beside a node that is down. */
  lemma OpenedKeepsInv(s: State, n: NodeId, promised: seq<Record>)
    requires Inv(s) && At(s, n).running && At(s, n).standby && !At(s, Other(n)).running && !At(s, Other(n)).standby
    requires Keeps(s.a, promised) && Keeps(s.b, promised) && s.promised <= promised
    ensures Inv(ForcePromote(s, n).(promised := promised))
  {
  }

  /** A change of one node that keeps its role and loses nothing durable. */
  predicate Mild(s: State, n: NodeId, node': Node) {
    var node := At(s, n);
    && node.durable <= |node.log| && Keeps(node', node.log[..node.durable]) && node.durable <= node'.durable
    && node'.standby == node.standby && node'.reported == node.reported
    && (node'.running ==> node.running || node.standby)
    && (node.standby && !At(s, Other(n)).standby ==> Keeps(At(s, Other(n)), node'.log))
  }

  lemma MildReports(s: State, n: NodeId, node': Node)
    requires Inv(s) && Mild(s, n, node')
    ensures ReportOk(With(s, n, node'), n) && ReportOk(With(s, n, node'), Other(n))
  {
    var node, other := At(s, n), At(s, Other(n));
    assert ReportOk(s, n) && ReportOk(s, Other(n));
    if Writes(s, n) {
      assert node'.log[..node.reported] == node.log[..node.reported];
    }
    if Writes(s, Other(n)) { }
  }

  lemma MildKeepsInv(s: State, n: NodeId, node': Node)
    requires Inv(s) && Mild(s, n, node')
    ensures Inv(With(s, n, node'))
  {
    MildReports(s, n, node');
  }

  lemma RewindKeepsInv(s: State, target: NodeId, source: NodeId, requireClean: bool)
    requires Inv(s)
    ensures Inv(Next(s, Rewind(target, source, requireClean)))
  {
    if RewindRefusal(s, target, source, requireClean).None? {
      var s' := Next(s, Rewind(target, source, requireClean));
      var t', w := At(s', target), At(s, source);
      assert t'.log[..t'.durable] == w.log[..w.durable];
      if Writes(s, source) {
        assert ReportOk(s, source);
        assert w.log[..w.reported] <= w.log[..w.durable];
      }
    }
  }

  lemma ReplyKeepsInv(s: State, n: NodeId)
    requires Inv(s)
    ensures Inv(Next(s, Reply(n)))
  {
    if Streams(s, n) {
      var w, x := At(s, Other(n)), At(s, n);
      assert Follows(s, n);
      assert w.log[..x.durable] == x.log[..x.durable];
    }
  }

  predicate IsMild(step: Step) {
    step.Write? || step.Advance? || step.Ship? || step.ConfigureRemoteApply? || step.Kill? || step.StopNode?
    || step.StartRejoined?
  }

  function Changed(s: State, step: Step): Node
    requires Sound(s.a) && Sound(s.b) && IsMild(step)
  {
    At(Next(s, step), step.node)
  }

  lemma MildChange(s: State, step: Step)
    requires Sound(s.a) && Sound(s.b) && IsMild(step)
    ensures Next(s, step) == With(s, step.node, Changed(s, step))
  {
  }

  lemma KeepsItself(node: Node, node': Node)
    requires node.durable <= |node.log| && node.durable <= node'.durable <= |node'.log|
    requires node.log[..node.durable] == node'.log[..node.durable]
    ensures Keeps(node', node.log[..node.durable])
  {
  }

  lemma ShipIsMild(s: State, n: NodeId, k: nat)
    requires Inv(s) && Streams(s, n) && |At(s, n).log| <= k <= At(s, Other(n)).durable
    ensures Mild(s, n, At(s, n).(log := At(s, Other(n)).log[..k]))
  {
  }

  lemma CutIsMild(s: State, n: NodeId, keep: nat)
    requires Inv(s) && At(s, n).durable <= keep <= |At(s, n).log|
    ensures Mild(s, n, At(s, n).(running := false, clean := false, log := At(s, n).log[..keep]))
  {
  }

  lemma WriteIsMild(s: State, n: NodeId, record: Record)
    requires Inv(s) && Writes(s, n)
    ensures Mild(s, n, At(s, n).(log := At(s, n).log + [record]))
  {
  }

  lemma StillIsMild(s: State, step: Step)
    requires Inv(s) && (step.Advance? || step.ConfigureRemoteApply? || step.StopNode? || step.StartRejoined?)
    ensures Mild(s, step.node, Changed(s, step))
  {
    var n := step.node;
    assert Follows(s, n);
    KeepsItself(At(s, n), Changed(s, step));
  }

  lemma StepIsMild(s: State, step: Step)
    requires Inv(s) && IsMild(step)
    ensures Mild(s, step.node, Changed(s, step))
  {
    var n := step.node;
    match step
    case Write(_, record) =>
      if Writes(s, n) { WriteIsMild(s, n, record); } else { KeepsItself(At(s, n), At(s, n)); }
    case Kill(_, keep) =>
      if At(s, n).running && At(s, n).durable <= keep <= |At(s, n).log| {
        CutIsMild(s, n, keep);
      } else {
        UnchangedIsMild(s, n);
      }
    case Ship(_, k) =>
      if Streams(s, n) && |At(s, n).log| <= k <= At(s, Other(n)).durable {
        ShipIsMild(s, n, k);
      } else {
        UnchangedIsMild(s, n);
      }
    case _ => StillIsMild(s, step);
  }

  lemma UnchangedIsMild(s: State, n: NodeId)
    requires Inv(s)
    ensures Mild(s, n, At(s, n))
  {
  }

  lemma ReadFlushKeepsInv(s: State, n: NodeId)
    requires Inv(s)
    ensures Inv(Next(s, ReadFlushLsn(n)))
  {
  }

  lemma ReadReplayKeepsInv(s: State, n: NodeId)
    requires Inv(s)
    ensures Inv(Next(s, ReadReplayLsn(n)))
  {
  }

  lemma MildStepKeepsInv(s: State, step: Step)
    requires Inv(s) && IsMild(step)
    ensures Inv(Next(s, step)) && Next(s, step).promised == s.promised
  {
    StepIsMild(s, step);
    MildChange(s, step);
    MildKeepsInv(s, step.node, Changed(s, step));
  }

  lemma LinkKeepsInv(s: State, connected: bool)
    requires Inv(s)
    ensures Inv(s.(connected := connected))
  {
  }

  lemma NextKeepsInv(s: State, step: Step)
    requires Inv(s)
    ensures Inv(Next(s, step)) && s.promised <= Next(s, step).promised
  {
    if IsMild(step) {
      MildStepKeepsInv(s, step);
    } else {
      match step
      case Reply(n) => ReplyKeepsInv(s, n);
      case Disconnect => LinkKeepsInv(s, false);
      case Reconnect => LinkKeepsInv(s, true);
      case Acknowledge(n, k) => AcknowledgeKeepsInv(s, n, k);
      case ReadFlushLsn(n) => ReadFlushKeepsInv(s, n);
      case ReadReplayLsn(n) => ReadReplayKeepsInv(s, n);
      case Promote(n) => PromoteKeepsInv(s, n);
      case Rewind(target, source, requireClean) => RewindKeepsInv(s, target, source, requireClean);
    }
  }

  function Run(s: State, steps: seq<Step>): (r: State)
    requires Sound(s.a) && Sound(s.b)
    ensures Sound(r.a) && Sound(r.b)
    decreases |steps|
  {
    if steps == [] then s
    else
      SoundNext(s, steps[0]);
      Run(Next(s, steps[0]), steps[1..])
  }

  lemma SoundNext(s: State, step: Step)
    requires Sound(s.a) && Sound(s.b)
    ensures Sound(Next(s, step).a) && Sound(Next(s, step).b)
  {
  }

  lemma {:induction false} RunKeepsInv(s: State, steps: seq<Step>)
    requires Inv(s)
    ensures Inv(Run(s, steps)) && s.promised <= Run(s, steps).promised
    decreases |steps|
  {
    if steps != [] {
      SoundNext(s, steps[0]);
      NextKeepsInv(s, steps[0]);
      RunKeepsInv(Next(s, steps[0]), steps[1..]);
    }
  }

  /** Some run of the two nodes leads here. */
  ghost predicate Reachable(s: State) {
    exists steps: seq<Step> :: s == Run(INITIAL, steps)
  }

  lemma ReachableInv(s: State)
    requires Reachable(s)
    ensures Inv(s)
  {
    var steps: seq<Step> :| s == Run(INITIAL, steps);
    RunKeepsInv(INITIAL, steps);
  }

  // ----- What the protocol is for -----

  /** A record stands at its position in the part of a node's log that outlives its death. */
  predicate Holds(node: Node, position: nat, record: Record) {
    position < node.durable <= |node.log| && node.log[position] == record
  }

  /** Every record covered by the position given to a passed guard stays at its place on both
      nodes, so in every later writer's log, through any number of further rotations. */
  lemma GuardedRecordsSurviveRotations(s: State, n: NodeId, steps: seq<Step>, p: nat)
    requires Reachable(s) && At(s, n).running && At(s, n).standby && PromotionRefusal(s, n).None?
    requires s.noted.Some? && p < |s.noted.value.covered|
    ensures Sound(GuardedPromote(s, n).a) && Sound(GuardedPromote(s, n).b)
    ensures var after := Run(GuardedPromote(s, n), steps);
            Holds(after.a, p, s.noted.value.covered[p]) && Holds(after.b, p, s.noted.value.covered[p])
  {
    ReachableInv(s);
    PromoteKeepsInv(s, n);
    GuardCovers(s, n);
    LongerKept(At(s, n), s.promised, s.noted.value.covered);
    var s1 := GuardedPromote(s, n);
    RunKeepsInv(s1, steps);
    PromisedIsHeld(Run(s1, steps), p);
  }

  lemma PromisedIsHeld(s: State, p: nat)
    requires Inv(s) && p < |s.promised|
    ensures Holds(s.a, p, s.promised[p]) && Holds(s.b, p, s.promised[p])
  {
  }

  /** No commit is acknowledged under remote apply before both nodes keep it for good, and it
      stays at its position through every continuation. */
  lemma RemoteAcksSurvive(s: State, steps: seq<Step>, ack: Ack)
    requires Reachable(s) && ack in s.acks && ack.remote
    ensures Sound(s.a) && Sound(s.b)
    ensures Holds(s.a, ack.position, ack.record) && Holds(s.b, ack.position, ack.record)
    ensures var after := Run(s, steps);
            Holds(after.a, ack.position, ack.record) && Holds(after.b, ack.position, ack.record)
  {
    ReachableInv(s);
    PromisedIsHeld(s, ack.position);
    RunKeepsInv(s, steps);
    PromisedIsHeld(Run(s, steps), ack.position);
  }

  /** Killing the writer at any moment, keeping any part of what it had not flushed, and
      promoting the standby without asking any position. */
  function AbruptLoss(s: State, w: NodeId, keep: nat): State
    requires Sound(s.a) && Sound(s.b)
  {
    ForcePromote(Next(s, Kill(w, keep)), Other(w))
  }

  lemma AbruptLossKeepsRemoteAcks(s: State, w: NodeId, keep: nat, ack: Ack)
    requires Reachable(s) && Writes(s, w) && At(s, Other(w)).running && At(s, Other(w)).standby
    requires At(s, w).durable <= keep <= |At(s, w).log|
    requires ack in s.acks && ack.remote
    ensures Sound(s.a) && Sound(s.b)
    ensures Writes(AbruptLoss(s, w, keep), Other(w)) && !At(AbruptLoss(s, w, keep), w).running
    ensures Holds(At(AbruptLoss(s, w, keep), Other(w)), ack.position, ack.record)
  {
    ReachableInv(s);
    PromisedIsHeld(s, ack.position);
  }

  /** A commit acknowledged on the writer's word alone survives the same loss exactly when
      the standby had received it. */
  lemma AbruptLossKeepsExactlyWhatWasShipped(s: State, w: NodeId, keep: nat, p: nat)
    requires Reachable(s) && Writes(s, w) && At(s, Other(w)).running && At(s, Other(w)).standby
    requires At(s, w).durable <= keep <= |At(s, w).log| && p < |At(s, w).log|
    ensures Sound(s.a) && Sound(s.b)
    ensures Holds(At(AbruptLoss(s, w, keep), Other(w)), p, At(s, w).log[p]) <==> p < |At(s, Other(w)).log|
  {
    ReachableInv(s);
    assert Follows(s, Other(w));
    var shipped := At(s, Other(w)).log;
    if p < |shipped| {
      assert At(s, w).log[..At(s, w).durable][p] == shipped[p];
    }
  }

  /** In every run at most one node accepts writes. */
  lemma OneWriterInEveryRun(steps: seq<Step>)
    ensures AtMostOneWriter(Run(INITIAL, steps))
  {
    RunKeepsInv(INITIAL, steps);
  }

  /** Without its guard a promotion makes a second writer exactly when the old one is up. */
  lemma UnguardedPromotionSplits(s: State, n: NodeId)
    requires Reachable(s) && At(s, n).running && At(s, n).standby
    ensures !AtMostOneWriter(ForcePromote(s, n)) <==> Writes(s, Other(n))
    ensures Writes(s, Other(n)) ==> PromotionRefusal(s, n).Some?
  {
  }

  /** A rewind removes only what was never promised, and leaves the target, still down and a
      standby, with the flushed log of its source. */
  lemma RewindRemovesOnlyUnpromised(s: State, target: NodeId, source: NodeId, requireClean: bool, p: nat)
    requires Reachable(s) && RewindRefusal(s, target, source, requireClean).None?
    ensures Sound(s.a) && Sound(s.b)
    ensures var s' := Next(s, Rewind(target, source, requireClean));
            && At(s', target).log <= At(s', source).log
            && !At(s', target).running && At(s', target).standby
            && (p < |At(s, target).log| && !Holds(At(s', target), p, At(s, target).log[p]) ==> |s.promised| <= p)
  {
    ReachableInv(s);
    var s' := Next(s, Rewind(target, source, requireClean));
    RewindKeepsInv(s, target, source, requireClean);
    if p < |s.promised| {
      PromisedIsHeld(s, p);
      PromisedIsHeld(s', p);
    }
  }

  /** Nothing happens to the node during these steps. */
  predicate Rests(s: State, steps: seq<Step>, n: NodeId)
    requires Sound(s.a) && Sound(s.b)
    decreases |steps|
  {
    steps == [] ||
    (SoundNext(s, steps[0]);
     At(Next(s, steps[0]), n) == At(s, n) && Rests(Next(s, steps[0]), steps[1..], n))
  }

  /** The run is these steps, a stop of the running node, and steps that leave it alone. */
  predicate StopsAndRests(s: State, before: seq<Step>, after: seq<Step>, n: NodeId)
    requires Sound(s.a) && Sound(s.b)
  {
    var up := Run(s, before);
    SoundNext(up, StopNode(n));
    At(up, n).running && Rests(Next(up, StopNode(n)), after, n)
  }

  predicate CleanIsDown(s: State) {
    (s.a.clean ==> !s.a.running) && (s.b.clean ==> !s.b.running)
  }

  /** Only a stop of the node makes its shutdown a clean one, and then it rests. */
  lemma NextClean(s: State, step: Step, n: NodeId)
    requires Sound(s.a) && Sound(s.b) && CleanIsDown(s)
    ensures CleanIsDown(Next(s, step))
    ensures At(Next(s, step), n).clean ==>
              At(Next(s, step), n) == At(s, n) || (step == StopNode(n) && At(s, n).running)
  {
  }

  lemma {:induction false} CleanWasStopped(s: State, steps: seq<Step>, n: NodeId)
      returns (before: seq<Step>, after: seq<Step>)
    requires Sound(s.a) && Sound(s.b) && CleanIsDown(s) && At(Run(s, steps), n).clean
    ensures (At(s, n).clean && Rests(s, steps, n))
            || (steps == before + [StopNode(n)] + after && StopsAndRests(s, before, after, n))
    decreases |steps|
  {
    before, after := [], steps;
    if steps != [] {
      SoundNext(s, steps[0]);
      NextClean(s, steps[0], n);
      var s1, rest := Next(s, steps[0]), steps[1..];
      before, after := CleanWasStopped(s1, rest, n);
      assert steps == [steps[0]] + rest;
      if At(s1, n).clean && Rests(s1, rest, n) {
        before, after := [], rest;
      } else {
        before := [steps[0]] + before;
        assert before[1..] + [StopNode(n)] + after == rest;
      }
    }
  }

  lemma {:induction false} RestsClean(s: State, steps: seq<Step>, n: NodeId)
    requires Sound(s.a) && Sound(s.b) && Rests(s, steps, n)
    ensures At(Run(s, steps), n) == At(s, n)
    decreases |steps|
  {
    if steps != [] {
      SoundNext(s, steps[0]);
      RestsClean(Next(s, steps[0]), steps[1..], n);
    }
  }

  /** A rewind that requires a clean shutdown goes ahead if and only if the source runs, is
      the other node, and the target was stopped and nothing has happened to it since: never
      after a kill. */
  lemma CleanRewindNeedsAStop(steps: seq<Step>, target: NodeId, source: NodeId)
    ensures var s := Run(INITIAL, steps);
            RewindRefusal(s, target, source, true).None? <==>
              && target != source && At(s, source).running
              && exists before, after ::
                   steps == before + [StopNode(target)] + after && StopsAndRests(INITIAL, before, after, target)
  {
    var s := Run(INITIAL, steps);
    if RewindRefusal(s, target, source, true).None? {
      var before, after := CleanWasStopped(INITIAL, steps, target);
    }
    if exists before, after ::
         steps == before + [StopNode(target)] + after && StopsAndRests(INITIAL, before, after, target)
    {
      var before, after :|
        steps == before + [StopNode(target)] + after && StopsAndRests(INITIAL, before, after, target);
      StoppedIsClean(before, after, target);
    }
  }

  lemma StoppedIsClean(before: seq<Step>, after: seq<Step>, n: NodeId)
    requires StopsAndRests(INITIAL, before, after, n)
    ensures var node := At(Run(INITIAL, before + [StopNode(n)] + after), n); node.clean && !node.running
  {
    RunConcat(INITIAL, before + [StopNode(n)], after);
    RunConcat(INITIAL, before, [StopNode(n)]);
    RestsClean(Run(INITIAL, before + [StopNode(n)]), after, n);
  }

  /** A rejoined node stays behind its writer until the next promotion. */
  lemma StandbyIsAPrefixOfItsWriter(steps: seq<Step>, n: NodeId)
    ensures var s := Run(INITIAL, steps);
            At(s, n).standby && !At(s, Other(n)).standby ==> At(s, n).log <= At(s, Other(n)).log
  {
    RunKeepsInv(INITIAL, steps);
    assert Follows(Run(INITIAL, steps), n);
  }

  // ----- Which standby a writer waits for -----

  /** Neither configured nor rewound. */
  predicate Untouched(steps: seq<Step>, n: NodeId) {
    forall x :: x in steps ==> !(x.ConfigureRemoteApply? && x.node == n) && !(x.Rewind? && x.target == n)
  }

  /** Without a new configuration, some continuation acknowledges a commit of this writer. */
  ghost predicate CanAcknowledge(s: State, n: NodeId) {
    && Sound(s.a) && Sound(s.b)
    && exists steps: seq<Step>, k: nat :: Untouched(steps, n) && Acknowledges(Run(s, steps), n, k)
  }

  /** The writer acknowledges the commit at this position when asked to. */
  predicate Acknowledges(s: State, n: NodeId, k: nat)
    requires Sound(s.a) && Sound(s.b)
  {
    && MayAcknowledge(s, n, k)
    && Ack(k, At(s, n).log[k], At(s, n).syncWith.Some?) in Next(s, Acknowledge(n, k)).acks
  }

  lemma {:induction false} SettingStays(s: State, steps: seq<Step>, n: NodeId)
    requires Sound(s.a) && Sound(s.b) && Untouched(steps, n)
    ensures At(Run(s, steps), n).syncWith == At(s, n).syncWith
    decreases |steps|
  {
    if steps != [] {
      SoundNext(s, steps[0]);
      SettingStep(s, steps[0], n);
      assert forall x :: x in steps[1..] ==> x in steps;
      SettingStays(Next(s, steps[0]), steps[1..], n);
    }
  }

  lemma SettingStep(s: State, step: Step, n: NodeId)
    requires Sound(s.a) && Sound(s.b)
    requires !(step.ConfigureRemoteApply? && step.node == n) && !(step.Rewind? && step.target == n)
    ensures At(Next(s, step), n).syncWith == At(s, n).syncWith
  {
  }

  lemma RunFirst(s: State, step: Step, rest: seq<Step>)
    requires Sound(s.a) && Sound(s.b)
    ensures Sound(Next(s, step).a) && Sound(Next(s, step).b)
    ensures Run(s, [step] + rest) == Run(Next(s, step), rest)
  {
    SoundNext(s, step);
    assert ([step] + rest)[1..] == rest;
  }

  /** The other node is a running, connected standby with the writer's flushed log. */
  predicate Joined(s: State, n: NodeId) {
    && Sound(s.a) && Sound(s.b) && s.connected && Writes(s, n)
    && At(s, Other(n)).running && At(s, Other(n)).standby
    && At(s, Other(n)).log <= At(s, n).log && At(s, Other(n)).durable <= At(s, n).durable
  }

  /** The other node stopped, rewound from the writer, started and connected. */
  function Rejoined(s: State, n: NodeId): State
    requires Sound(At(s, n))
  {
    var w := At(s, n);
    var node := Node(true, true, false, w.syncWith, w.log[..w.durable], w.durable, 0);
    With(s, Other(n), node).(connected := true, noted := None, replay := None)
  }

  lemma RejoinedInSteps(s: State, n: NodeId)
    requires Sound(s.a) && Sound(s.b) && Writes(s, n)
    ensures var s2 := Next(Stopped(s, Other(n)), Rewind(Other(n), n, false));
            && Sound(s2.a) && Sound(s2.b)
            && Next(s2, StartRejoined(Other(n))).(connected := true) == Rejoined(s, n)
  {
  }

  function Stopped(s: State, n: NodeId): (s': State)
    requires Sound(s.a) && Sound(s.b)
    ensures Sound(s'.a) && Sound(s'.b)
  {
    SoundNext(s, StopNode(n));
    Next(s, StopNode(n))
  }

  function RejoinSteps(o: NodeId, n: NodeId): seq<Step> {
    [StopNode(o), Rewind(o, n, false), StartRejoined(o), Reconnect]
  }

  lemma RunRejoin(s: State, n: NodeId)
    requires Sound(s.a) && Sound(s.b) && Writes(s, n)
    ensures Run(s, RejoinSteps(Other(n), n)) == Rejoined(s, n)
  {
    var o := Other(n);
    RejoinedInSteps(s, n);
    var s1 := Next(s, StopNode(o));
    RunFirst(s, StopNode(o), [Rewind(o, n, false), StartRejoined(o), Reconnect]);
    var s2 := Next(s1, Rewind(o, n, false));
    RunFirst(s1, Rewind(o, n, false), [StartRejoined(o), Reconnect]);
    var s3 := Next(s2, StartRejoined(o));
    RunFirst(s2, StartRejoined(o), [Reconnect]);
    RunFirst(s3, Reconnect, []);
    FiveSteps(Disconnect, StopNode(o), Rewind(o, n, false), StartRejoined(o), Reconnect);
  }

  lemma {:induction false} RunConcat(s: State, first: seq<Step>, rest: seq<Step>)
    requires Sound(s.a) && Sound(s.b)
    ensures Sound(Run(s, first).a) && Sound(Run(s, first).b)
    ensures Run(s, first + rest) == Run(Run(s, first), rest)
    decreases |first|
  {
    if first == [] {
      assert first + rest == rest;
    } else {
      SoundNext(s, first[0]);
      assert (first + rest)[1..] == first[1..] + rest;
      RunConcat(Next(s, first[0]), first[1..], rest);
    }
  }

  /** One more record, flushed by the writer. */
  function Written(s: State, n: NodeId, record: Record): State {
    With(s, n, At(s, n).(log := At(s, n).log + [record], durable := |At(s, n).log| + 1))
  }

  lemma WrittenInSteps(s: State, n: NodeId, record: Record)
    requires Sound(s.a) && Sound(s.b) && Writes(s, n)
    ensures var s1 := Next(s, Write(n, record));
            && Sound(s1.a) && Sound(s1.b)
            && Next(s1, Advance(n, |At(s, n).log| + 1)) == Written(s, n, record)
  {
  }

  /** The standby holds, and has replayed, the whole log of its writer. */
  function Replayed(s: State, n: NodeId): State {
    With(s, Other(n), At(s, Other(n)).(log := At(s, n).log, durable := |At(s, n).log|))
  }

  lemma ReplayedInSteps(s: State, n: NodeId)
    requires Joined(s, n) && At(s, n).durable == |At(s, n).log|
    ensures var k := |At(s, n).log|;
            var s1 := Next(s, Ship(Other(n), k));
            && Sound(s1.a) && Sound(s1.b)
            && Next(s1, Advance(Other(n), k)) == Replayed(s, n)
  {
  }

  lemma ReplayedMayBeAcknowledged(s: State, n: NodeId, k: nat)
    requires Joined(s, n) && At(s, n).durable == |At(s, n).log| == k + 1 && At(s, n).syncWith != Some(n)
    ensures var s' := Replayed(s, n);
            && Sound(s'.a) && Sound(s'.b) && MayAcknowledge(Next(s', Reply(Other(n))), n, k)
  {
  }

  function AckSteps(o: NodeId, n: NodeId, k: nat, record: Record): seq<Step> {
    [Write(n, record), Advance(n, k), Ship(o, k), Advance(o, k), Reply(o)]
  }

  /** A joined standby replays one more record and reports it. */
  lemma JoinedAcknowledges(s: State, n: NodeId, record: Record)
    requires Joined(s, n) && At(s, n).syncWith != Some(n)
    ensures var k := |At(s, n).log|; MayAcknowledge(Run(s, AckSteps(Other(n), n, k + 1, record)), n, k)
  {
    var o, k := Other(n), |At(s, n).log| + 1;
    WrittenInSteps(s, n, record);
    var s1, s2 := Next(s, Write(n, record)), Written(s, n, record);
    ReplayedInSteps(s2, n);
    ReplayedMayBeAcknowledged(s2, n, k - 1);
    var s3, s4 := Next(s2, Ship(o, k)), Replayed(s2, n);
    RunFirst(s, Write(n, record), [Advance(n, k), Ship(o, k), Advance(o, k), Reply(o)]);
    RunFirst(s1, Advance(n, k), [Ship(o, k), Advance(o, k), Reply(o)]);
    RunFirst(s2, Ship(o, k), [Advance(o, k), Reply(o)]);
    RunFirst(s3, Advance(o, k), [Reply(o)]);
    RunFirst(s4, Reply(o), []);
    FiveSteps(Write(n, record), Advance(n, k), Ship(o, k), Advance(o, k), Reply(o));
  }

  lemma FiveSteps(a: Step, b: Step, c: Step, d: Step, e: Step)
    ensures [a, b, c, d, e] == [a] + [b, c, d, e] && [b, c, d, e] == [b] + [c, d, e]
    ensures [c, d, e] == [c] + [d, e] && [d, e] == [d] + [e] && [e] == [e] + []
  {
  }

  lemma SelfNamedIsStuck(s: State, n: NodeId)
    requires Sound(s.a) && Sound(s.b) && At(s, n).syncWith == Some(n)
    ensures !CanAcknowledge(s, n)
  {
    forall steps: seq<Step>, k: nat | Untouched(steps, n) ensures !MayAcknowledge(Run(s, steps), n, k) {
      SettingStays(s, steps, n);
    }
  }

  function RejoinAndAck(s: State, n: NodeId): seq<Step> {
    RejoinSteps(Other(n), n) + AckSteps(Other(n), n, |At(s, n).log| + 1, Record(0))
  }

  lemma RejoinAndAckAcknowledges(s: State, n: NodeId)
    requires Sound(s.a) && Sound(s.b) && Writes(s, n) && At(s, n).syncWith != Some(n)
    ensures MayAcknowledge(Run(s, RejoinAndAck(s, n)), n, |At(s, n).log|)
  {
    var first, rest := RejoinSteps(Other(n), n), AckSteps(Other(n), n, |At(s, n).log| + 1, Record(0));
    RunConcat(s, first, rest);
    RunRejoin(s, n);
    RejoinedAcknowledges(s, n);
  }

  lemma RejoinedAcknowledges(s: State, n: NodeId)
    requires Sound(s.a) && Sound(s.b) && Writes(s, n) && At(s, n).syncWith != Some(n)
    ensures var j := Rejoined(s, n);
            && Sound(j.a) && Sound(j.b)
            && MayAcknowledge(Run(j, AckSteps(Other(n), n, |At(s, n).log| + 1, Record(0))), n, |At(s, n).log|)
  {
    JoinedAcknowledges(Rejoined(s, n), n, Record(0));
  }

  lemma OthersAcknowledge(s: State, n: NodeId)
    requires Sound(s.a) && Sound(s.b) && Writes(s, n) && At(s, n).syncWith != Some(n)
    ensures CanAcknowledge(s, n)
  {
    RejoinAndAckAcknowledges(s, n);
    assert Untouched(RejoinAndAck(s, n), n);
    assert Acknowledges(Run(s, RejoinAndAck(s, n)), n, |At(s, n).log|);
  }

  /** In every reachable state a writer can still acknowledge a commit without being
      configured again if and only if its setting does not name itself. */
  lemma CanAcknowledgeIff(s: State, n: NodeId)
    requires Reachable(s) && Writes(s, n)
    ensures CanAcknowledge(s, n) <==> At(s, n).syncWith != Some(n)
  {
    ReachableInv(s);
    if At(s, n).syncWith == Some(n) { SelfNamedIsStuck(s, n); } else { OthersAcknowledge(s, n); }
  }

  predicate NoneNamesItself(s: State) {
    s.a.syncWith != Some(A) && s.b.syncWith != Some(B)
  }

  /** A node comes to name itself exactly by being configured so, or by being rewound from a
      source that names it. */
  lemma NamesItselfIff(s: State, step: Step)
    requires Sound(s.a) && Sound(s.b) && NoneNamesItself(s)
    ensures !NoneNamesItself(Next(s, step)) <==>
              || (step.ConfigureRemoteApply? && step.node == step.standby && Writes(s, step.node))
              || (&& step.Rewind? && RewindRefusal(s, step.target, step.source, step.requireClean).None?
                  && At(s, step.source).syncWith == Some(step.target))
  {
  }

  /** A run that never configures a node to wait for itself, and rewinds a node only before
      its source is configured to wait for it. */
  predicate ConfiguresAfterRewind(s: State, steps: seq<Step>)
    requires Sound(s.a) && Sound(s.b)
    decreases |steps|
  {
    if steps == [] then true
    else
      SoundNext(s, steps[0]);
      && (steps[0].ConfigureRemoteApply? ==> steps[0].standby == Other(steps[0].node))
      && (steps[0].Rewind? ==> At(s, steps[0].source).syncWith != Some(steps[0].target))
      && ConfiguresAfterRewind(Next(s, steps[0]), steps[1..])
  }

  lemma {:induction false} OrderedRunsNameNoneItself(s: State, steps: seq<Step>)
    requires Sound(s.a) && Sound(s.b) && NoneNamesItself(s) && ConfiguresAfterRewind(s, steps)
    ensures NoneNamesItself(Run(s, steps))
    decreases |steps|
  {
    if steps != [] {
      SoundNext(s, steps[0]);
      NamesItselfIff(s, steps[0]);
      OrderedRunsNameNoneItself(Next(s, steps[0]), steps[1..]);
    }
  }

  /** In the order of the rotation programs, configuration after the rewind, every writer can
      acknowledge in every run. */
  lemma ConfiguredInOrderNeverBlocks(steps: seq<Step>, n: NodeId)
    requires ConfiguresAfterRewind(INITIAL, steps) && Writes(Run(INITIAL, steps), n)
    ensures CanAcknowledge(Run(INITIAL, steps), n)
  {
    OrderedRunsNameNoneItself(INITIAL, steps);
    CanAcknowledgeIff(Run(INITIAL, steps), n);
  }

  /** Both positions read, the writer stopped, and the guarded promotion. */
  function CutoverSteps(w: NodeId): seq<Step> {
    [ReadFlushLsn(w), ReadReplayLsn(Other(w)), StopNode(w), Promote(Other(w))]
  }

  /** The state in which the guard is asked, with empty logs. */
  function EmptyCutover(s: State, w: NodeId): State {
    With(s, w, At(s, w).(running := false, clean := true))
      .(noted := Some(Checkpoint(w, Lsn.Position(0), [])), replay := Some(Lsn.Position(0)))
  }

  predicate EmptyLogs(s: State) {
    s.a.log == [] && s.a.durable == 0 && s.b.log == [] && s.b.durable == 0
  }

  lemma EmptyPromotion(s: State, w: NodeId)
    requires EmptyLogs(s) && Writes(s, w) && At(s, Other(w)).running && At(s, Other(w)).standby
    ensures var s' := Next(EmptyCutover(s, w), Promote(Other(w)));
            && Sound(s'.a) && Sound(s'.b) && Writes(s', Other(w))
            && At(s', Other(w)).syncWith == At(s, Other(w)).syncWith
  {
    Lsn.GuardComparesPositions(false, 0, 0);
  }

  lemma RunCutover(s: State, w: NodeId)
    requires EmptyLogs(s) && Writes(s, w) && At(s, Other(w)).running && At(s, Other(w)).standby
    ensures Run(s, CutoverSteps(w)) == Next(EmptyCutover(s, w), Promote(Other(w)))
  {
  }

  /** In the other order it does not hold: the writer is configured, its standby is rewound
      from it and rejoined, the writer is stopped, and the guarded promotion makes a writer
      that waits for itself. */
  function BlockedRun(): seq<Step> {
    [ConfigureRemoteApply(A, B)] + (RejoinSteps(B, A) + CutoverSteps(A))
  }

  lemma RewindAfterConfigureBlocks()
    ensures var s := Run(INITIAL, BlockedRun()); Writes(s, B) && !CanAcknowledge(s, B)
  {
    var s1 := INITIAL.(a := INITIAL.a.(syncWith := Some(B)));
    assert Next(INITIAL, ConfigureRemoteApply(A, B)) == s1;
    RunFirst(INITIAL, ConfigureRemoteApply(A, B), RejoinSteps(B, A) + CutoverSteps(A));
    RunRejoin(s1, A);
    RunConcat(s1, RejoinSteps(B, A), CutoverSteps(A));
    var s2 := Rejoined(s1, A);
    assert EmptyLogs(s2) && s2.b.syncWith == Some(B);
    RunCutover(s2, A);
    EmptyPromotion(s2, A);
    SelfNamedIsStuck(Next(EmptyCutover(s2, A), Promote(B)), B);
  }
}
