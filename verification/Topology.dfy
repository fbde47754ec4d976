/** The rotation program as it changes the two nodes in place
    (scripts/postgres_role_rotation_probe.py, `_rewind_target`, `_start_rejoined_standby`,
    `_promote`, `_checkpoint_lsn`, `_probe`). */
module Topology {
  import opened Wrappers
  import opened Replication
  import Lsn

  /** The writer's log is on disk and its position is noted. */
  function Noted(s: State, n: NodeId): State {
    var node := At(s, n).(durable := |At(s, n).log|);
    With(s, n, node).(noted := Some(Checkpoint(n, Lsn.Position(|node.log|), node.log)), replay := None)
  }

  /** The standby has replayed what its writer flushed, and its position is read. */
  function CaughtUp(s: State, n: NodeId): State
    requires Sound(At(s, Other(n)))
  {
    var w := At(s, Other(n));
    With(s, n, At(s, n).(log := w.log[..w.durable], durable := w.durable)).(replay := Some(Lsn.Position(w.durable)))
  }

  function Fenced(s: State, n: NodeId, abrupt: bool): State {
    With(s, n, At(s, n).(running := false, clean := !abrupt))
  }

  lemma NotedIsSteps(s: State, n: NodeId)
    requires Inv(s) && Writes(s, n)
    ensures Noted(s, n) == Next(Next(s, Advance(n, |At(s, n).log|)), ReadFlushLsn(n)) && Inv(Noted(s, n))
  {
    NextKeepsInv(s, Advance(n, |At(s, n).log|));
    NextKeepsInv(Next(s, Advance(n, |At(s, n).log|)), ReadFlushLsn(n));
    assert At(s, n).log[..|At(s, n).log|] == At(s, n).log;
  }

  lemma CaughtUpIsSteps(s: State, n: NodeId)
    requires Inv(s) && Streams(s, n) && s.noted.Some? && s.noted.value.writer == Other(n)
    ensures var k := At(s, Other(n)).durable;
            && CaughtUp(s, n) == Next(Next(Next(s, Ship(n, k)), Advance(n, k)), ReadReplayLsn(n))
            && Inv(CaughtUp(s, n))
  {
    var k := At(s, Other(n)).durable;
    assert Follows(s, n);
    var s1 := Next(s, Ship(n, k));
    NextKeepsInv(s, Ship(n, k));
    var s2 := Next(s1, Advance(n, k));
    NextKeepsInv(s1, Advance(n, k));
    NextKeepsInv(s2, ReadReplayLsn(n));
    assert At(s1, n) == At(s, n).(log := At(s, Other(n)).log[..k]);
  }

  lemma FencedIsAStep(s: State, n: NodeId, abrupt: bool)
    requires Inv(s) && At(s, n).running && At(s, n).durable == |At(s, n).log|
    ensures Fenced(s, n, abrupt) == Next(s, if abrupt then Kill(n, |At(s, n).log|) else StopNode(n))
    ensures Inv(Fenced(s, n, abrupt))
  {
    NextKeepsInv(s, if abrupt then Kill(n, |At(s, n).log|) else StopNode(n));
    assert At(s, n).log[..|At(s, n).log|] == At(s, n).log;
  }

  /** The state in which the guard is asked, in a rotation nobody disturbs. */
  function AtTheGuard(s: State, w: NodeId, abrupt: bool): State {
    Fenced(CaughtUp(Noted(s, w), Other(w)), w, abrupt)
  }

  lemma ReachesTheGuard(s: State, w: NodeId, abrupt: bool)
    requires Inv(s) && Writes(s, w) && Streams(s, Other(w))
    ensures var x, g := Other(w), AtTheGuard(s, w, abrupt);
            && Inv(g) && PromotionRefusal(g, x).None?
            && At(g, x) == At(s, x).(log := At(s, w).log, durable := |At(s, w).log|)
            && At(g, w) == At(s, w).(running := false, clean := !abrupt, durable := |At(s, w).log|)
            && g.noted == Some(Checkpoint(w, Lsn.Position(|At(s, w).log|), At(s, w).log))
            && g.promised == s.promised && g.acks == s.acks && g.connected
  {
    var x, log := Other(w), At(s, w).log;
    NotedIsSteps(s, w);
    var s1 := Noted(s, w);
    assert Streams(s1, x);
    CaughtUpIsSteps(s1, x);
    assert log[..|log|] == log;
    FencedIsAStep(CaughtUp(s1, x), w, abrupt);
    Lsn.GuardComparesPositions(false, |log|, |log|);
  }

  lemma GuardToPromotion(g: State, x: NodeId, log: seq<Record>)
    requires Sound(g.a) && Sound(g.b) && Keeps(At(g, x), g.promised) && PromotionRefusal(g, x).None?
    requires At(g, x).running && At(g, x).standby && At(g, x).log == log
    requires g.noted.Some? && g.noted.value.covered == log
    ensures Next(g, Promote(x))
            == With(g, x, Opened(At(g, x))).(noted := None, replay := None, promised := log)
  {
  }

  /** A stopped node rewound from a flushed writer and started again. */
  lemma RewindToRejoin(s: State, w: NodeId, requireClean: bool)
    requires Sound(s.a) && Sound(s.b) && s.connected
    requires Writes(s, Other(w)) && At(s, Other(w)).durable == |At(s, Other(w)).log|
    requires !At(s, w).running && (requireClean ==> At(s, w).clean)
    ensures RewindRefusal(s, w, Other(w), requireClean).None?
    ensures var s2 := Next(s, Rewind(w, Other(w), requireClean));
            && Sound(s2.a) && Sound(s2.b)
            && var s3 := Next(s2, StartRejoined(w));
               && Writes(s3, Other(w)) && Streams(s3, w)
               && At(s3, w).log == At(s3, Other(w)).log == At(s, Other(w)).log
               && s3.promised == s.promised && s3.acks == s.acks
  {
  }

  /** From the guard to the rejoined standby. */
  lemma GuardToRejoin(g: State, w: NodeId, abrupt: bool, log: seq<Record>)
    requires Inv(g) && PromotionRefusal(g, Other(w)).None? && g.connected
    requires At(g, Other(w)).running && At(g, Other(w)).standby && At(g, Other(w)).log == log
    requires g.noted == Some(Checkpoint(w, Lsn.Position(|log|), log))
    requires !At(g, w).running && At(g, w).clean == !abrupt
    ensures var s1 := Next(g, Promote(Other(w)));
            Sound(s1.a) && Sound(s1.b) && RewindRefusal(s1, w, Other(w), !abrupt).None?
    ensures var s2 := Next(Next(g, Promote(Other(w))), Rewind(w, Other(w), !abrupt));
            && Sound(s2.a) && Sound(s2.b)
            && var s3 := Next(s2, StartRejoined(w));
               && Writes(s3, Other(w)) && Streams(s3, w)
               && At(s3, w).log == At(s3, Other(w)).log == s3.promised == log && s3.acks == g.acks
  {
    GuardToPromotion(g, Other(w), log);
    var s1 := With(g, Other(w), Opened(At(g, Other(w)))).(noted := None, replay := None, promised := log);
    RewindToRejoin(s1, w, !abrupt);
  }

  class TwoNodes {
    var a: Node
    var b: Node
    var connected: bool
    var noted: Option<Checkpoint>
    var replay: Option<string>
    ghost var promised: seq<Record>
    ghost var acks: set<Ack>

    ghost function View(): State
      reads this
    {
      State(a, b, connected, noted, replay, promised, acks)
    }

    ghost predicate Valid()
      reads this
    {
      Inv(View())
    }

    constructor ()
      ensures Valid() && View() == INITIAL
    {
      a := INITIAL.a;
      b := INITIAL.b;
      connected, noted, replay, promised, acks := true, None, None, [], {};
    }

    method Node(n: NodeId) returns (node: Node)
      ensures node == At(View(), n)
    {
      node := if n == A then a else b;
    }

    method SetNode(n: NodeId, node: Node)
      modifies this
      ensures View() == With(old(View()), n, node)
    {
      if n == A { a := node; } else { b := node; }
    }

    /** Force every record to disk and note the position. */
    method CheckpointLsn(n: NodeId) returns (lsn: string)
      requires Valid() && Writes(View(), n)
      modifies this
      ensures Valid() && View() == Noted(old(View()), n)
      ensures lsn == Lsn.Position(|At(old(View()), n).log|)
    {
      NotedIsSteps(View(), n);
      var node := Node(n);
      SetNode(n, node.(durable := |node.log|));
      lsn := Lsn.Position(|node.log|);
      noted := Some(Checkpoint(n, lsn, node.log));
      replay := None;
    }

    /** The guard and the promotion. */
    method PromoteGuarded(n: NodeId) returns (refused: Option<string>)
      requires Valid()
      modifies this
      ensures Valid() && View() == Next(old(View()), Promote(n))
      ensures refused == (if !(At(old(View()), n).running && At(old(View()), n).standby) then Some("not a running standby")
                          else PromotionRefusal(old(View()), n))
      ensures refused.None? ==> Writes(View(), n) && !At(View(), Other(n)).running
    {
      NextKeepsInv(View(), Promote(n));
      var node := Node(n);
      var other := Node(Other(n));
      if !node.running || !node.standby {
        return Some("not a running standby");
      }
      if noted.None? || replay.None? || noted.value.writer == n {
        return Some("no position was read");
      }
      refused := Lsn.RequireSafePromotion(other.running, replay.value, noted.value.lsn);
      if refused.Some? {
        return;
      }
      GuardCovers(View(), n);
      promised := Longer(promised, noted.value.covered);
      SetNode(n, node.(standby := false, durable := |node.log|, reported := 0));
      noted, replay := None, None;
    }

    method RewindTarget(target: NodeId, source: NodeId, requireClean: bool) returns (refused: Option<string>)
      requires Valid()
      modifies this
      ensures Valid() && View() == Next(old(View()), Rewind(target, source, requireClean))
      ensures refused == RewindRefusal(old(View()), target, source, requireClean)
    {
      NextKeepsInv(View(), Rewind(target, source, requireClean));
      if target == source {
        return Some(SAME_NODE);
      }
      var node := Node(target);
      var from := Node(source);
      if node.running {
        return Some(TARGET_RUNS);
      }
      if !from.running {
        return Some(SOURCE_STOPPED);
      }
      if requireClean && !node.clean {
        return Some(NOT_CLEAN);
      }
      node := node.(log := from.log[..from.durable], durable := from.durable, reported := 0);
      node := node.(standby := true, clean := false, syncWith := from.syncWith);
      SetNode(target, node);
      noted, replay := None, None;
      return None;
    }

    method StartRejoinedStandby(n: NodeId)
      requires Valid()
      modifies this
      ensures Valid() && View() == Next(old(View()), StartRejoined(n))
    {
      NextKeepsInv(View(), StartRejoined(n));
      var node := Node(n);
      if !node.running && node.standby {
        SetNode(n, node.(running := true, clean := false));
      }
    }

    /** The standby streams until it has replayed everything, and its position is read. */
    method WaitReplayed(n: NodeId)
      requires Valid()
      requires Streams(View(), n) && noted.Some? && noted.value.writer == Other(n)
      modifies this
      ensures Valid() && View() == CaughtUp(old(View()), n)
    {
      CaughtUpIsSteps(View(), n);
      var node := Node(n);
      var w := Node(Other(n));
      SetNode(n, node.(log := w.log[..w.durable], durable := w.durable));
      replay := Some(Lsn.Position(w.durable));
    }

    /** Fence the writer: an abrupt kill, which loses nothing after a checkpoint, or a clean
        shutdown. */
    method Fence(n: NodeId, abrupt: bool)
      requires Valid() && At(View(), n).running && At(View(), n).durable == |At(View(), n).log|
      modifies this
      ensures Valid() && View() == Fenced(old(View()), n, abrupt)
    {
      FencedIsAStep(View(), n, abrupt);
      var node := Node(n);
      SetNode(n, node.(running := false, clean := !abrupt));
    }

    /** One rotation: the writer's log is caught up, the writer is fenced, the standby is
        promoted, and the old writer is rewound and rejoined. Nobody writes in between. */
    method Rotate(w: NodeId, abrupt: bool) returns (refused: Option<string>)
      requires Valid() && Writes(View(), w) && Streams(View(), Other(w))
      modifies this
      ensures Valid()
      ensures refused == None
      ensures Writes(View(), Other(w)) && Streams(View(), w)
      ensures At(View(), A).log == At(View(), B).log == promised == At(old(View()), w).log
      ensures acks == old(acks)
    {
      ghost var s := View();
      ReachesTheGuard(s, w, abrupt);
      NotedIsSteps(s, w);
      assert Streams(Noted(s, w), Other(w));
      var _ := CheckpointLsn(w);
      WaitReplayed(Other(w));
      Fence(w, abrupt);
      GuardToRejoin(View(), w, abrupt, At(s, w).log);
      refused := PromoteGuarded(Other(w));
      var _ := RewindTarget(w, Other(w), !abrupt);
      StartRejoinedStandby(w);
    }

    /** There and back: the first writer writes again and both nodes hold what it wrote. */
    method RotateThereAndBack(w: NodeId, abrupt: bool)
      requires Valid() && Writes(View(), w) && Streams(View(), Other(w))
      modifies this
      ensures Valid() && Writes(View(), w) && Streams(View(), Other(w))
      ensures At(View(), A).log == At(View(), B).log == promised == At(old(View()), w).log
    {
      var first := Rotate(w, abrupt);
      var second := Rotate(Other(w), !abrupt);
    }
  }
}
