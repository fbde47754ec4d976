/** The guarded transactions with a clock: leases that end, a server that cuts transactions
    short, and handovers that wait for the lease
    (src/agnoclaw/runtime/postgres_authority.py, src/agnoclaw/runtime/postgres_authority_etcd.py). */
module WriterAuthorityTiming {
  import opened Wrappers
  import opened WriterAuthority

  datatype Policy = Policy(margin: real, longest: real)

  /** The answer of the provider: when it was given and how long it said the lease lasts. */
  datatype Answer = Answer(at: real, remaining: real)

  /** The untimed state, the clock, the earliest end of each lease ever granted, the last
      reading of each transaction, and when the server cuts it short. */
  datatype Clocked = Clocked(
    s: State,
    now: real,
    ends: map<nat, real>,
    readings: map<nat, Answer>,
    deadlines: map<nat, real>)

  datatype Event =
    | Grants(lease: nat, until: real)
    | Renews(lease: nat, until: real)
    | Expires(lease: nat)
    | Names(server: string, lease: nat)
    | ReadsAgain(txn: nat, remaining: real)
    | Does(step: Step)

  datatype TimedStep = At(time: real, event: Event)

  function Start(recovering: set<string>): Clocked {
    Clocked(Initial(recovering), 0.0, map[], map[], map[])
  }

  function StepOf(e: Event): Option<Step> {
    match e
    case Grants(lease, _) => Some(GrantLease(lease))
    case Renews(_, _) => None
    case Expires(lease) => Some(EndLease(lease))
    case Names(server, lease) => Some(Put(server, lease))
    case ReadsAgain(t, _) => Some(RangeAgain(t))
    case Does(step) => Some(step)
  }

  predicate OfTransactions(step: Step) {
    !step.GrantLease? && !step.EndLease? && !step.Put? && !step.RangeAgain?
  }

  /** The step opens the transaction. */
  predicate Admits(c: Context, s: State, step: Step) {
    && step.Accept? && step.txn in s.txns
    && s.txns[step.txn].phase.Admitting? && s.txns[step.txn].phase.read.Fetched?
    && step.txn in AcceptStep(c, s, step.txn).txns && AcceptStep(c, s, step.txn).txns[step.txn].phase.Open?
  }

  /** The transaction is at its second read of the record. */
  predicate Awaits(s: State, u: nat) {
    u in s.txns && Reading(s.txns[u].phase) && s.txns[u].phase.read.Timed?
  }

  predicate Commits(s: State, step: Step) {
    step.CommitTxn? && step.txn in s.txns && s.txns[step.txn].phase.Cleared?
  }

  /** What the clock allows. A lease is new when granted, can be renewed while it lives, and
      ends no earlier than promised. The record is written only while there is none: a
      handover waits for the lease. The provider never overstates what remains. The timeout
      is set within the margin after the reading, and the server lets a transaction commit
      only before its deadline. */
  predicate Allowed(c: Context, p: Policy, t: Clocked, x: TimedStep) {
    && t.now <= x.time
    && match x.event
       case Grants(lease, until) => t.s.etcd.up && lease !in t.ends && x.time <= until
       case Renews(lease, until) => lease in t.s.etcd.leases && lease in t.ends && t.ends[lease] <= until
       case Expires(lease) => lease in t.ends && t.ends[lease] <= x.time
       case Names(_, lease) => t.s.etcd.key.None?
       case ReadsAgain(_, remaining) =>
         t.s.etcd.key.Some? && t.s.etcd.key.value.lease in t.ends ==>
           x.time + remaining <= t.ends[t.s.etcd.key.value.lease]
       case Does(step) =>
         && OfTransactions(step)
         && (Admits(c, t.s, step) ==>
               && step.txn in t.readings
               && TransactionTimeout(t.readings[step.txn].remaining, p.margin, p.longest).Ok?
               && x.time - t.readings[step.txn].at <= p.margin)
         && (Commits(t.s, step) ==> step.txn in t.deadlines && x.time < t.deadlines[step.txn])
  }

  function Deadline(c: Context, p: Policy, t: Clocked, x: TimedStep): real
    requires Allowed(c, p, t, x) && x.event.Does? && Admits(c, t.s, x.event.step)
  {
    x.time + TransactionTimeout(t.readings[x.event.step.txn].remaining, p.margin, p.longest).value as real / 1000.0
  }

  function After(c: Context, p: Policy, t: Clocked, x: TimedStep): Clocked
    requires Allowed(c, p, t, x)
  {
    var s := if StepOf(x.event).Some? then Next(c, t.s, StepOf(x.event).value) else t.s;
    Clocked(
      s,
      x.time,
      if x.event.Grants? || x.event.Renews? then t.ends[x.event.lease := x.event.until] else t.ends,
      if x.event.ReadsAgain? && Awaits(t.s, x.event.txn) then t.readings[x.event.txn := Answer(x.time, x.event.remaining)] else t.readings,
      if x.event.Does? && Admits(c, t.s, x.event.step) then t.deadlines[x.event.step.txn := Deadline(c, p, t, x)]
      else t.deadlines)
  }

  /** Every step of the run is allowed when it is taken. */
  predicate Timely(c: Context, p: Policy, t: Clocked, xs: seq<TimedStep>)
    decreases |xs|
  {
    xs == [] || (Allowed(c, p, t, xs[0]) && Timely(c, p, After(c, p, t, xs[0]), xs[1..]))
  }

  function RunTimed(c: Context, p: Policy, t: Clocked, xs: seq<TimedStep>): Clocked
    requires Timely(c, p, t, xs)
    decreases |xs|
  {
    if xs == [] then t else RunTimed(c, p, After(c, p, t, xs[0]), xs[1..])
  }

  /** The steps of the untimed model that a run takes. */
  function Untimed(xs: seq<TimedStep>): seq<Step> {
    if xs == [] then []
    else
      match StepOf(xs[0].event)
      case Some(step) => [step] + Untimed(xs[1..])
      case None => Untimed(xs[1..])
  }

  /** A timely run is a run of the untimed model with a clock: the clock only forbids. */
  lemma {:induction false} TimelyRunIsARun(c: Context, p: Policy, t: Clocked, xs: seq<TimedStep>)
    requires Timely(c, p, t, xs)
    ensures RunTimed(c, p, t, xs).s == Run(c, t.s, Untimed(xs))
    decreases |xs|
  {
    if xs != [] {
      TimelyRunIsARun(c, p, After(c, p, t, xs[0]), xs[1..]);
      if StepOf(xs[0].event).Some? {
        assert ([StepOf(xs[0].event).value] + Untimed(xs[1..]))[1..] == Untimed(xs[1..]);
      }
    }
  }

  // ----- What holds at every moment -----

  /** The record lives as long as its lease, and the lease of every earlier record is over. */
  predicate LeasesOk(t: Clocked) {
    && (forall l :: l in t.s.etcd.leases ==> l in t.ends)
    && (forall r :: r in t.s.puts ==> LeaseOk(t, r))
  }

  predicate LeaseOk(t: Clocked, r: nat)
    requires r in t.s.puts
  {
    var lease := t.s.puts[r].lease;
    && lease in t.ends
    && (InForce(t.s, r) ==> lease in t.s.etcd.leases)
    && (!InForce(t.s, r) ==> lease !in t.s.etcd.leases && t.ends[lease] <= t.now)
  }

  predicate Running(phase: Phase) {
    phase.Open? || phase.Revalidating? || phase.Cleared?
  }

  /** A reading in hand does not outlast the lease, and neither does a deadline. */
  predicate TimesOk(t: Clocked, u: nat)
    requires u in t.s.txns
  {
    var phase := t.s.txns[u].phase;
    && (phase.Admitting? && phase.read.Fetched? ==>
          u in t.readings && phase.read.key.lease in t.ends
          && t.readings[u].at + t.readings[u].remaining <= t.ends[phase.read.key.lease])
    && (Running(phase) ==>
          u in t.deadlines && phase.grant.fence in t.s.puts && t.s.puts[phase.grant.fence].lease in t.ends
          && t.deadlines[u] <= t.ends[t.s.puts[phase.grant.fence].lease])
  }

  predicate ClockedInv(c: Context, t: Clocked) {
    && Inv(c, t.s)
    && LeasesOk(t)
    && (forall u :: u in t.s.txns ==> TimesOk(t, u))
    && Ordered(t.s.commits)
  }

  /** A step of transactions leaves the record, its leases and its history alone. */
  lemma OfTransactionsFrame(c: Context, s: State, step: Step)
    requires OfTransactions(step) || step.RangeAgain?
    ensures var s' := Next(c, s, step);
            s'.etcd.key == s.etcd.key && s'.etcd.leases == s.etcd.leases && s'.puts == s.puts
  {
    if IsTxnStep(s, step) { TxnStepFrame(c, s, step.txn, step); }
  }

  lemma AfterKeepsLeases(c: Context, p: Policy, t: Clocked, x: TimedStep)
    requires ClockedInv(c, t) && Allowed(c, p, t, x)
    ensures LeasesOk(After(c, p, t, x))
  {
    var t' := After(c, p, t, x);
    if x.event.ReadsAgain? || x.event.Does? { OfTransactionsFrame(c, t.s, StepOf(x.event).value); }
    forall r | r in t'.s.puts ensures LeaseOk(t', r) {
      if r in t.s.puts { assert LeaseOk(t, r); }
    }
  }

  lemma AfterKeepsInv(c: Context, p: Policy, t: Clocked, x: TimedStep)
    requires ClockedInv(c, t) && Allowed(c, p, t, x)
    ensures Inv(c, After(c, p, t, x).s)
  {
    if StepOf(x.event).Some? { NextKeepsInv(c, t.s, StepOf(x.event).value); }
  }

  /** What a step can make of one transaction's phase. */
  lemma NextPhase(c: Context, s: State, step: Step, u: nat)
    requires Inv(c, s) && u in Next(c, s, step).txns
    ensures var phase' := Next(c, s, step).txns[u].phase;
            && (phase'.Admitting? && phase'.read.Fetched? ==>
                  && u in s.txns
                  && (s.txns[u].phase == phase' ||
                      (step == RangeAgain(u) && s.etcd.key == Some(phase'.read.key))))
            && (Running(phase') ==>
                  && u in s.txns
                  && ((Running(s.txns[u].phase) && s.txns[u].phase.grant == phase'.grant) ||
                      (step == Accept(u) && Admits(c, s, step) && phase'.grant == s.txns[u].phase.read.key.Named())))
  {
    if IsTxnStep(s, step) && step.txn == u {
      TxnStepFrame(c, s, u, step);
    } else {
      NextLeavesOthers(c, s, step, u);
    }
  }

  lemma EndsGrow(c: Context, p: Policy, t: Clocked, x: TimedStep, l: nat)
    requires Allowed(c, p, t, x) && l in t.ends
    ensures l in After(c, p, t, x).ends && t.ends[l] <= After(c, p, t, x).ends[l]
  {
  }

  lemma PutsGrow(c: Context, p: Policy, t: Clocked, x: TimedStep, r: nat)
    requires Inv(c, t.s) && Allowed(c, p, t, x) && r in t.s.puts
    ensures r in After(c, p, t, x).s.puts && After(c, p, t, x).s.puts[r] == t.s.puts[r]
  {
    if StepOf(x.event).Some? { NextGrows(c, t.s, StepOf(x.event).value); }
  }

  lemma AdmissionTimes(c: Context, p: Policy, t: Clocked, x: TimedStep, u: nat)
    requires ClockedInv(c, t) && Allowed(c, p, t, x) && x.event == Does(Accept(u)) && Admits(c, t.s, Accept(u))
    ensures var key := t.s.txns[u].phase.read.key;
            && Known(t.s, key) && key.lease in t.ends
            && u in After(c, p, t, x).deadlines && After(c, p, t, x).deadlines[u] <= t.ends[key.lease]
  {
  }

  lemma AfterKeepsTimes(c: Context, p: Policy, t: Clocked, x: TimedStep, u: nat)
    requires ClockedInv(c, t) && Allowed(c, p, t, x) && u in After(c, p, t, x).s.txns
    ensures TimesOk(After(c, p, t, x), u)
  {
    var t' := After(c, p, t, x);
    if StepOf(x.event).Some? { NextPhase(c, t.s, StepOf(x.event).value, u); }
    var phase' := t'.s.txns[u].phase;
    if phase'.Admitting? && phase'.read.Fetched? { FetchedTimes(c, p, t, x, u); }
    if Running(phase') { RunningTimes(c, p, t, x, u); }
  }

  lemma FetchedTimes(c: Context, p: Policy, t: Clocked, x: TimedStep, u: nat)
    requires ClockedInv(c, t) && Allowed(c, p, t, x) && u in After(c, p, t, x).s.txns
    requires var phase' := After(c, p, t, x).s.txns[u].phase; phase'.Admitting? && phase'.read.Fetched?
    ensures TimesOk(After(c, p, t, x), u)
  {
    var t' := After(c, p, t, x);
    var key := t'.s.txns[u].phase.read.key;
    if StepOf(x.event).Some? { NextPhase(c, t.s, StepOf(x.event).value, u); }
    if x.event.ReadsAgain? && x.event.txn == u && Awaits(t.s, u) {
      assert t.s.etcd.key.Some? ==> LeaseOk(t, t.s.etcd.key.value.revision);
    } else {
      assert TimesOk(t, u);
      EndsGrow(c, p, t, x, key.lease);
    }
  }

  lemma RunningTimes(c: Context, p: Policy, t: Clocked, x: TimedStep, u: nat)
    requires ClockedInv(c, t) && Allowed(c, p, t, x) && u in After(c, p, t, x).s.txns
    requires Running(After(c, p, t, x).s.txns[u].phase)
    ensures TimesOk(After(c, p, t, x), u)
  {
    var t' := After(c, p, t, x);
    if StepOf(x.event).Some? { NextPhase(c, t.s, StepOf(x.event).value, u); }
    var fence := t'.s.txns[u].phase.grant.fence;
    if Running(t.s.txns[u].phase) {
      assert TimesOk(t, u);
    } else {
      AdmissionTimes(c, p, t, x, u);
    }
    PutsGrow(c, p, t, x, fence);
    EndsGrow(c, p, t, x, t.s.puts[fence].lease);
  }

  /** A commit before its deadline is a commit under the record in force. */
  lemma CommitIsInForce(c: Context, p: Policy, t: Clocked, x: TimedStep)
    requires ClockedInv(c, t) && Allowed(c, p, t, x) && x.event.Does? && Commits(t.s, x.event.step)
    ensures var u := x.event.step.txn;
            && InForce(t.s, t.s.txns[u].phase.grant.fence)
            && t.s.etcd.key.value.server == c.serverOf(t.s.txns[u].guard)
  {
  }

  lemma AfterKeepsOrder(c: Context, p: Policy, t: Clocked, x: TimedStep)
    requires ClockedInv(c, t) && Allowed(c, p, t, x)
    ensures Ordered(After(c, p, t, x).s.commits)
  {
    if StepOf(x.event).Some? {
      var step := StepOf(x.event).value;
      NextCommits(c, t.s, step);
      if step.CommitTxn? && Ready(t.s, step.txn) && Commits(t.s, step) {
        CommitIsInForce(c, p, t, x);
        forall i | 0 <= i < |t.s.commits| ensures t.s.commits[i].fence <= Fence(t.s, step.txn) {
          CommitsAreBehind(c, t.s, i);
        }
      }
    }
  }

  lemma AfterKeepsClockedInv(c: Context, p: Policy, t: Clocked, x: TimedStep)
    requires ClockedInv(c, t) && Allowed(c, p, t, x)
    ensures ClockedInv(c, After(c, p, t, x))
  {
    var t' := After(c, p, t, x);
    AfterKeepsInv(c, p, t, x);
    AfterKeepsLeases(c, p, t, x);
    forall u | u in t'.s.txns ensures TimesOk(t', u) { AfterKeepsTimes(c, p, t, x, u); }
    AfterKeepsOrder(c, p, t, x);
  }

  lemma {:induction false} RunKeepsClockedInv(c: Context, p: Policy, t: Clocked, xs: seq<TimedStep>)
    requires ClockedInv(c, t) && Timely(c, p, t, xs)
    ensures ClockedInv(c, RunTimed(c, p, t, xs))
    decreases |xs|
  {
    if xs != [] {
      AfterKeepsClockedInv(c, p, t, xs[0]);
      RunKeepsClockedInv(c, p, After(c, p, t, xs[0]), xs[1..]);
    }
  }

  /** When handovers wait for the lease to end and each transaction's timeout is set within the
      margin after its reading, commits are in the order of their fences: no transaction
      outlives the record it was admitted under. */
  lemma TimelyRunsCommitInFenceOrder(c: Context, p: Policy, recovering: set<string>, xs: seq<TimedStep>)
    requires Timely(c, p, Start(recovering), xs)
    ensures Ordered(RunTimed(c, p, Start(recovering), xs).s.commits)
  {
    RunKeepsClockedInv(c, p, Start(recovering), xs);
  }

  /** And every commit of such a run is made while the record names its server, not only at
      the last read before it. */
  lemma TimelyCommitIsInForce(c: Context, p: Policy, recovering: set<string>, xs: seq<TimedStep>, x: TimedStep)
    requires Timely(c, p, Start(recovering), xs)
    requires var t := RunTimed(c, p, Start(recovering), xs);
             Allowed(c, p, t, x) && x.event.Does? && Commits(t.s, x.event.step)
    ensures var s := RunTimed(c, p, Start(recovering), xs).s;
            var u := x.event.step.txn;
            InForce(s, s.txns[u].phase.grant.fence) && s.etcd.key.value.server == c.serverOf(s.txns[u].guard)
  {
    RunKeepsClockedInv(c, p, Start(recovering), xs);
    CommitIsInForce(c, p, RunTimed(c, p, Start(recovering), xs), x);
  }

  /** The margin is what set-up may take: a timeout that is set later than that, by a
      millisecond or more, lets the transaction outlive the lease it read. */
  lemma LateTimeoutOutlivesTheLease(p: Policy, r: Answer, setAt: real)
    requires TransactionTimeout(r.remaining, p.margin, p.longest).Ok? && r.remaining - p.margin <= p.longest
    ensures var deadline := setAt + TransactionTimeout(r.remaining, p.margin, p.longest).value as real / 1000.0;
            && (setAt - r.at <= p.margin ==> deadline <= r.at + r.remaining)
            && (setAt - r.at >= p.margin + 0.001 ==> deadline > r.at + r.remaining)
  {
  }
}
