/** Two writable databases and one leased authority record: which guarded transactions may
    commit (src/agnoclaw/runtime/postgres_authority.py, postgres_authority_etcd.py,
    scripts/postgres_split_brain_authority_probe.py, scripts/etcd_writer_authority_probe.py). */
module WriterAuthority {
  import opened Wrappers

  /** One generation of the authority record; the fence is the record's modification
      revision. */
  datatype Grant = Grant(authority: string, server: string, fence: nat)

  datatype Key = Key(authority: string, server: string, lease: nat, revision: nat)
  {
    function Named(): Grant {
      Grant(authority, server, revision)
    }
  }

  // ----- The guard of one store -----

  /** A guard never goes back: the authority stays, the fence never decreases, and one fence
      names one server. The result is the generation to remember. */
  function AcceptGrant(latest: Option<Grant>, grant: Grant): Result<Grant, string> {
    if latest.None? then Ok(grant)
    else if grant.authority != latest.value.authority then Err("authority_identity_changed")
    else if grant.fence < latest.value.fence then Err("authority_generation_stale")
    else if grant.fence == latest.value.fence && grant.server != latest.value.server then
      Err("authority_generation_conflict")
    else if grant.fence > latest.value.fence then Ok(grant)
    else Ok(latest.value)
  }

  function VerifyServer(server: string, inRecovery: bool, grant: Grant): Option<string> {
    if inRecovery then Some("server_in_recovery")
    else if server == "" || server != grant.server then Some("server_identity_mismatch")
    else None
  }

  function Lesser(x: real, y: real): real {
    if x < y then x else y
  }

  /** Milliseconds the server may spend on the transaction. */
  function TransactionTimeout(remaining: real, margin: real, longest: real): Result<nat, string> {
    var ms := (Lesser(remaining - margin, longest) * 1000.0).Floor;
    if ms < 1 then Err("authority_lease_too_short") else Ok(ms)
  }

  /** A transaction is admitted exactly when at least a millisecond is left, and the server
      cuts it short before the lease can end. */
  lemma TimeoutEndsBeforeLease(remaining: real, margin: real, longest: real)
    ensures TransactionTimeout(remaining, margin, longest).Ok? <==>
              remaining - margin >= 0.001 && longest >= 0.001
    ensures TransactionTimeout(remaining, margin, longest).Ok? ==>
              var t := TransactionTimeout(remaining, margin, longest).value as real / 1000.0;
              && t + margin <= remaining && t <= longest && t > 0.0
              && (remaining - margin < t + 0.001 || longest < t + 0.001)
  {
  }

  datatype Admission = Admission(grant: Grant, timeoutMs: nat)

  class WriterAuthorityGuard {
    const margin: real
    const longest: real
    var latest: Option<Grant>

    constructor (margin: real, longest: real)
      ensures latest == None && this.margin == margin && this.longest == longest
    {
      this.margin := margin;
      this.longest := longest;
      latest := None;
    }

    /** The locked part of `_grant`. */
    method CheckGeneration(grant: Grant) returns (refused: Option<string>)
      modifies this
      ensures match AcceptGrant(old(latest), grant)
              case Ok(remembered) => refused == None && latest == Some(remembered)
              case Err(reason) => refused == Some(reason) && latest == old(latest)
    {
      if latest.Some? {
        if grant.authority != latest.value.authority {
          return Some("authority_identity_changed");
        }
        if grant.fence < latest.value.fence {
          return Some("authority_generation_stale");
        }
        if grant.fence == latest.value.fence && grant.server != latest.value.server {
          return Some("authority_generation_conflict");
        }
      }
      if latest.None? || grant.fence > latest.value.fence {
        latest := Some(grant);
      }
      return None;
    }

    /** Admission of a transaction on a connection to `server`. */
    method Admit(grant: Grant, remaining: real, server: string, inRecovery: bool)
        returns (r: Result<Admission, string>)
      modifies this
      ensures r.Ok? <==> && AcceptGrant(old(latest), grant).Ok?
                         && VerifyServer(server, inRecovery, grant).None?
                         && TransactionTimeout(remaining, margin, longest).Ok?
      ensures r.Ok? ==> r.value.grant == grant && grant.server == server && !inRecovery
                        && r.value.timeoutMs as real / 1000.0 + margin <= remaining
      ensures latest == if AcceptGrant(old(latest), grant).Ok? then Some(AcceptGrant(old(latest), grant).value) else old(latest)
    {
      var refused := CheckGeneration(grant);
      if refused.Some? {
        return Err(refused.value);
      }
      refused := VerifyServer(server, inRecovery, grant);
      if refused.Some? {
        return Err(refused.value);
      }
      var timeout := TransactionTimeout(remaining, margin, longest);
      if timeout.Err? {
        return Err(timeout.error);
      }
      TimeoutEndsBeforeLease(remaining, margin, longest);
      return Ok(Admission(grant, timeout.value));
    }

    /** Revalidation just before the commit. */
    method Revalidate(admitted: Grant, grant: Grant, remaining: real, server: string, inRecovery: bool)
        returns (refused: Option<string>)
      modifies this
      ensures refused.None? <==> && AcceptGrant(old(latest), grant).Ok?
                                 && grant == admitted
                                 && VerifyServer(server, inRecovery, grant).None?
                                 && TransactionTimeout(remaining, margin, longest).Ok?
      ensures AcceptGrant(old(latest), grant).Ok? && grant != admitted ==> refused == Some("authority_changed")
      ensures latest == if AcceptGrant(old(latest), grant).Ok? then Some(AcceptGrant(old(latest), grant).value) else old(latest)
    {
      refused := CheckGeneration(grant);
      if refused.Some? {
        return;
      }
      if grant.authority != admitted.authority || grant.server != admitted.server || grant.fence != admitted.fence {
        return Some("authority_changed");
      }
      refused := VerifyServer(server, inRecovery, grant);
      if refused.Some? {
        return;
      }
      var timeout := TransactionTimeout(remaining, margin, longest);
      if timeout.Err? {
        return Some(timeout.error);
      }
    }
  }

  /** The grants a guard accepts out of what any provider, honest or not, hands it. */
  function Accepted(latest: Option<Grant>, grants: seq<Grant>): seq<Grant>
    decreases |grants|
  {
    if grants == [] then []
    else
      match AcceptGrant(latest, grants[0])
      case Ok(remembered) => [grants[0]] + Accepted(Some(remembered), grants[1..])
      case Err(_) => Accepted(latest, grants[1..])
  }

  predicate NotBefore(a: Grant, b: Grant) {
    a.authority == b.authority && a.fence <= b.fence && (a.fence == b.fence ==> a.server == b.server)
  }

  lemma {:induction false} AcceptedFollow(latest: Grant, grants: seq<Grant>, i: nat)
    requires i < |Accepted(Some(latest), grants)|
    ensures NotBefore(latest, Accepted(Some(latest), grants)[i])
    decreases |grants|
  {
    if AcceptGrant(Some(latest), grants[0]).Err? {
      AcceptedFollow(latest, grants[1..], i);
    } else if i > 0 {
      AcceptedFollow(grants[0], grants[1..], i - 1);
    }
  }

  lemma {:induction false} AcceptedInOrder(latest: Option<Grant>, grants: seq<Grant>, i: nat, j: nat)
    requires i < j < |Accepted(latest, grants)|
    ensures NotBefore(Accepted(latest, grants)[i], Accepted(latest, grants)[j])
    decreases |grants|
  {
    if AcceptGrant(latest, grants[0]).Err? {
      AcceptedInOrder(latest, grants[1..], i, j);
    } else if i > 0 {
      AcceptedInOrder(Some(grants[0]), grants[1..], i - 1, j - 1);
    } else {
      AcceptedFollow(grants[0], grants[1..], j - 1);
    }
  }

  /** Whatever the provider answers, one guard never accepts a second authority, a smaller
      fence, or two servers under one fence. */
  lemma GuardNeverGoesBack(grants: seq<Grant>, i: nat, j: nat)
    requires i < j < |Accepted(None, grants)|
    ensures NotBefore(Accepted(None, grants)[i], Accepted(None, grants)[j])
  {
    AcceptedInOrder(None, grants, i, j);
  }

  // ----- Interleavings of authority changes and guarded transactions -----

  datatype Context = Context(authority: string, serverOf: nat -> string)

  /** A bracketed read of the record: the record, its lease, the record again. */
  datatype Read = Unread | Ranged(key: Key) | Timed(key: Key) | Fetched(key: Key)

  datatype Phase =
    | Admitting(read: Read)
    | Open(grant: Grant)
    | Revalidating(grant: Grant, read: Read)
    | Cleared(grant: Grant)
    | Committed(grant: Grant)
    | RolledBack(reason: string)

  datatype Txn = Txn(guard: nat, phase: Phase)

  datatype Etcd = Etcd(up: bool, revision: nat, leases: set<nat>, key: Option<Key>)

  datatype Commit = Commit(txn: nat, server: string, fence: nat)

  /** `puts` keeps every record ever written under its revision. */
  datatype State = State(
    etcd: Etcd,
    puts: map<nat, Key>,
    recovering: set<string>,
    latest: map<nat, Grant>,
    txns: map<nat, Txn>,
    commits: seq<Commit>)

  datatype Step =
    | GrantLease(lease: nat)
    | Put(server: string, lease: nat)
    | EndLease(lease: nat)
    | StopEtcd
    | StartEtcd
    | PromoteServer(server: string)
    | Begin(txn: nat, guard: nat)
    | Range(txn: nat)
    | CheckLease(txn: nat)
    | RangeAgain(txn: nat)
    | Accept(txn: nat)
    | Finish(txn: nat)
    | CommitTxn(txn: nat)
    | Abort(txn: nat, reason: string)

  function Initial(recovering: set<string>): State {
    State(Etcd(true, 1, {}, None), map[], recovering, map[], map[], [])
  }

  predicate CanPut(s: State, lease: nat) {
    s.etcd.up && lease in s.etcd.leases
  }

  function PutRecord(c: Context, s: State, server: string, lease: nat): State {
    var key := Key(c.authority, server, lease, s.etcd.revision + 1);
    s.(etcd := s.etcd.(revision := key.revision, key := Some(key)), puts := s.puts[key.revision := key])
  }

  /** A revoked or expired lease takes its record with it. */
  function DropLease(s: State, lease: nat): State {
    var etcd := s.etcd.(leases := s.etcd.leases - {lease});
    if s.etcd.key.Some? && s.etcd.key.value.lease == lease then
      s.(etcd := etcd.(revision := s.etcd.revision + 1, key := None))
    else s.(etcd := etcd)
  }

  function SetPhase(s: State, t: nat, phase: Phase): State
    requires t in s.txns
  {
    s.(txns := s.txns[t := s.txns[t].(phase := phase)])
  }

  function Latest(s: State, guard: nat): Option<Grant> {
    if guard in s.latest then Some(s.latest[guard]) else None
  }

  predicate Reading(phase: Phase) {
    phase.Admitting? || phase.Revalidating?
  }

  function WithRead(phase: Phase, read: Read): Phase
    requires Reading(phase)
  {
    match phase
    case Admitting(_) => Admitting(read)
    case Revalidating(grant, _) => Revalidating(grant, read)
  }

  /** A read of the record: unavailable and absent fail closed. */
  function ReadKey(s: State): Result<Key, string> {
    if !s.etcd.up then Err("etcd_unavailable")
    else if s.etcd.key.None? then Err("etcd_authority_absent")
    else Ok(s.etcd.key.value)
  }

  /** The provider call of admission or revalidation, one request at a time. */
  function ReadStep(s: State, t: nat, step: Step): State
    requires t in s.txns && Reading(s.txns[t].phase)
  {
    var phase := s.txns[t].phase;
    match (step, phase.read)
    case (Range(_), Unread) =>
      (match ReadKey(s)
       case Ok(key) => SetPhase(s, t, WithRead(phase, Ranged(key)))
       case Err(reason) => SetPhase(s, t, RolledBack(reason)))
    case (CheckLease(_), Ranged(key)) =>
      if !s.etcd.up then SetPhase(s, t, RolledBack("etcd_unavailable"))
      else if key.lease !in s.etcd.leases then SetPhase(s, t, RolledBack("etcd_lease_expired"))
      else SetPhase(s, t, WithRead(phase, Timed(key)))
    case (RangeAgain(_), Timed(key)) =>
      (match ReadKey(s)
       case Ok(again) =>
         if again != key then SetPhase(s, t, RolledBack("etcd_authority_changed"))
         else SetPhase(s, t, WithRead(phase, Fetched(key)))
       case Err(reason) => SetPhase(s, t, RolledBack(reason)))
    case _ => s
  }

  /** The guard takes its lock, compares generations, and then the admission or revalidation
      check is made. */
  function AcceptStep(c: Context, s: State, t: nat): State
    requires t in s.txns && Reading(s.txns[t].phase) && s.txns[t].phase.read.Fetched?
  {
    var guard, phase := s.txns[t].guard, s.txns[t].phase;
    var grant := phase.read.key.Named();
    match AcceptGrant(Latest(s, guard), grant)
    case Err(reason) => SetPhase(s, t, RolledBack(reason))
    case Ok(remembered) =>
      var s1 := s.(latest := s.latest[guard := remembered]);
      if phase.Revalidating? && phase.grant != grant then SetPhase(s1, t, RolledBack("authority_changed"))
      else
        match VerifyServer(c.serverOf(guard), c.serverOf(guard) in s.recovering, grant)
        case Some(reason) => SetPhase(s1, t, RolledBack(reason))
        case None => SetPhase(s1, t, if phase.Admitting? then Open(grant) else Cleared(grant))
  }

  predicate Over(phase: Phase) {
    phase.Committed? || phase.RolledBack?
  }

  function TxnStep(c: Context, s: State, t: nat, step: Step): State
    requires t in s.txns
  {
    var phase := s.txns[t].phase;
    match step
    case Finish(_) => if phase.Open? then SetPhase(s, t, Revalidating(phase.grant, Unread)) else s
    case CommitTxn(_) =>
      if phase.Cleared? then
        SetPhase(s, t, Committed(phase.grant))
        .(commits := s.commits + [Commit(t, c.serverOf(s.txns[t].guard), phase.grant.fence)])
      else s
    case Abort(_, reason) => if Over(phase) then s else SetPhase(s, t, RolledBack(reason))
    case Accept(_) => if Reading(phase) && phase.read.Fetched? then AcceptStep(c, s, t) else s
    case _ => if Reading(phase) then ReadStep(s, t, step) else s
  }

  function Next(c: Context, s: State, step: Step): State {
    match step
    case GrantLease(lease) => if s.etcd.up then s.(etcd := s.etcd.(leases := s.etcd.leases + {lease})) else s
    case Put(server, lease) => if CanPut(s, lease) then PutRecord(c, s, server, lease) else s
    case EndLease(lease) => if CanPut(s, lease) then DropLease(s, lease) else s
    case StopEtcd => s.(etcd := s.etcd.(up := false))
    case StartEtcd => s.(etcd := s.etcd.(up := true))
    case PromoteServer(server) => s.(recovering := s.recovering - {server})
    case Begin(t, guard) => if t in s.txns then s else s.(txns := s.txns[t := Txn(guard, Admitting(Unread))])
    case _ => if step.txn in s.txns then TxnStep(c, s, step.txn, step) else s
  }

  function Run(c: Context, s: State, steps: seq<Step>): State
    decreases |steps|
  {
    if steps == [] then s else Run(c, Next(c, s, steps[0]), steps[1..])
  }

  // ----- What holds in every reachable state -----

  predicate Known(s: State, key: Key) {
    key.revision in s.puts && s.puts[key.revision] == key
  }

  predicate KnownGrant(s: State, grant: Grant) {
    grant.fence in s.puts && s.puts[grant.fence].Named() == grant
  }

  predicate RecordOk(c: Context, s: State) {
    && (forall r :: r in s.puts ==> r <= s.etcd.revision && s.puts[r].revision == r && s.puts[r].authority == c.authority)
    && (s.etcd.key.Some? ==> Known(s, s.etcd.key.value))
    && (s.etcd.key.Some? ==> forall r :: r in s.puts ==> r <= s.etcd.key.value.revision)
  }

  predicate Admitted(phase: Phase) {
    phase.Open? || phase.Revalidating? || phase.Cleared? || phase.Committed?
  }

  predicate TxnOk(c: Context, s: State, txn: Txn) {
    && (Reading(txn.phase) && !txn.phase.read.Unread? ==> Known(s, txn.phase.read.key))
    && (Admitted(txn.phase) ==>
          && KnownGrant(s, txn.phase.grant)
          && txn.phase.grant.server == c.serverOf(txn.guard) != ""
          && c.serverOf(txn.guard) !in s.recovering)
  }

  predicate CommitOk(c: Context, s: State, commit: Commit) {
    && commit.txn in s.txns && s.txns[commit.txn].phase.Committed?
    && s.txns[commit.txn].phase.grant.fence == commit.fence
    && commit.server == s.txns[commit.txn].phase.grant.server
    && KnownGrant(s, s.txns[commit.txn].phase.grant)
  }

  predicate Inv(c: Context, s: State) {
    && RecordOk(c, s)
    && (forall t :: t in s.txns ==> TxnOk(c, s, s.txns[t]))
    && (forall g :: g in s.latest ==> KnownGrant(s, s.latest[g]))
    && (forall i :: 0 <= i < |s.commits| ==> CommitOk(c, s, s.commits[i]))
  }

  /** Records once written stay known. */
  predicate Grows(s: State, s': State) {
    && (forall r :: r in s.puts ==> r in s'.puts && s'.puts[r] == s.puts[r])
    && s'.recovering <= s.recovering
  }

  /** A step of a transaction touches its own entry, the memory of its guard, and at a
      commit the commit order; the authority record it only reads. */
  lemma TxnStepFrame(c: Context, s: State, t: nat, step: Step)
    requires t in s.txns
    ensures var s' := TxnStep(c, s, t, step);
            && s'.etcd == s.etcd && s'.puts == s.puts && s'.recovering == s.recovering
            && t in s'.txns && s'.txns == s.txns[t := s'.txns[t]] && s'.txns[t].guard == s.txns[t].guard
            && (s'.commits == s.commits || (s.txns[t].phase.Cleared? && step.CommitTxn?))
  {
    assert s.txns[t := s.txns[t]] == s.txns;
  }

  lemma NextGrows(c: Context, s: State, step: Step)
    requires RecordOk(c, s)
    ensures Grows(s, Next(c, s, step)) && RecordOk(c, Next(c, s, step))
  {
    match step
    case GrantLease(_) =>
    case Put(_, _) =>
    case EndLease(_) =>
    case StopEtcd =>
    case StartEtcd =>
    case PromoteServer(_) =>
    case Begin(_, _) =>
    case _ => if step.txn in s.txns { TxnStepFrame(c, s, step.txn, step); }
  }

  lemma ReadStepKeepsTxn(c: Context, s: State, t: nat, step: Step)
    requires RecordOk(c, s) && t in s.txns && TxnOk(c, s, s.txns[t]) && Reading(s.txns[t].phase)
    ensures t in ReadStep(s, t, step).txns && TxnOk(c, s, ReadStep(s, t, step).txns[t])
  {
  }

  lemma AcceptStepKeepsTxn(c: Context, s: State, t: nat)
    requires RecordOk(c, s) && t in s.txns && TxnOk(c, s, s.txns[t])
    requires Reading(s.txns[t].phase) && s.txns[t].phase.read.Fetched?
    ensures t in AcceptStep(c, s, t).txns && TxnOk(c, s, AcceptStep(c, s, t).txns[t])
    ensures forall g :: g in AcceptStep(c, s, t).latest ==>
              (g in s.latest && AcceptStep(c, s, t).latest[g] == s.latest[g])
              || AcceptStep(c, s, t).latest[g] == s.txns[t].phase.read.key.Named()
  {
  }

  lemma TxnStepKeepsTxn(c: Context, s: State, t: nat, step: Step)
    requires Inv(c, s) && t in s.txns
    ensures TxnOk(c, s, TxnStep(c, s, t, step).txns[t])
    ensures forall g :: g in TxnStep(c, s, t, step).latest ==> KnownGrant(s, TxnStep(c, s, t, step).latest[g])
  {
    var phase := s.txns[t].phase;
    match step
    case Finish(_) =>
    case CommitTxn(_) =>
    case Abort(_, _) =>
    case Accept(_) => if Reading(phase) && phase.read.Fetched? { AcceptStepKeepsTxn(c, s, t); }
    case _ => if Reading(phase) { ReadStepKeepsTxn(c, s, t, step); }
  }

  predicate IsTxnStep(s: State, step: Step) {
    && !step.GrantLease? && !step.Put? && !step.EndLease? && !step.StopEtcd? && !step.StartEtcd?
    && !step.PromoteServer? && !step.Begin?
    && step.txn in s.txns
  }

  lemma NextKeepsTxn(c: Context, s: State, step: Step, t: nat)
    requires Inv(c, s) && t in Next(c, s, step).txns
    ensures TxnOk(c, Next(c, s, step), Next(c, s, step).txns[t])
  {
    NextGrows(c, s, step);
    if IsTxnStep(s, step) && step.txn == t {
      TxnStepFrame(c, s, t, step);
      TxnStepKeepsTxn(c, s, t, step);
    } else {
      NextLeavesOthers(c, s, step, t);
      if t in s.txns { }
    }
  }

  lemma NextLeavesOthers(c: Context, s: State, step: Step, t: nat)
    requires IsTxnStep(s, step) ==> step.txn != t
    ensures t in s.txns ==> t in Next(c, s, step).txns && Next(c, s, step).txns[t] == s.txns[t]
    ensures t in Next(c, s, step).txns && t !in s.txns ==> step.Begin? && Next(c, s, step).txns[t] == Txn(step.guard, Admitting(Unread))
  {
    if IsTxnStep(s, step) { TxnStepFrame(c, s, step.txn, step); }
  }

  lemma NextKeepsCommit(c: Context, s: State, step: Step, i: nat)
    requires Inv(c, s) && i < |Next(c, s, step).commits|
    ensures CommitOk(c, Next(c, s, step), Next(c, s, step).commits[i])
  {
    NextGrows(c, s, step);
    if i < |s.commits| {
      var t := s.commits[i].txn;
      assert CommitOk(c, s, s.commits[i]);
      CommittedStays(c, s, step, t);
    } else {
      assert IsTxnStep(s, step) && TxnOk(c, s, s.txns[step.txn]);
    }
  }

  lemma CommittedStays(c: Context, s: State, step: Step, t: nat)
    requires t in s.txns && Over(s.txns[t].phase)
    ensures t in Next(c, s, step).txns && Next(c, s, step).txns[t] == s.txns[t]
    ensures |Next(c, s, step).commits| >= |s.commits| && Next(c, s, step).commits[..|s.commits|] == s.commits
  {
    if IsTxnStep(s, step) { TxnStepFrame(c, s, step.txn, step); }
  }

  lemma NextKeepsInv(c: Context, s: State, step: Step)
    requires Inv(c, s)
    ensures Inv(c, Next(c, s, step))
  {
    var s' := Next(c, s, step);
    NextGrows(c, s, step);
    forall t | t in s'.txns ensures TxnOk(c, s', s'.txns[t]) {
      NextKeepsTxn(c, s, step, t);
    }
    if IsTxnStep(s, step) { TxnStepKeepsTxn(c, s, step.txn, step); }
    forall g | g in s'.latest ensures KnownGrant(s', s'.latest[g]) {
      assert KnownGrant(s, s'.latest[g]);
    }
    forall i | 0 <= i < |s'.commits| ensures CommitOk(c, s', s'.commits[i]) {
      NextKeepsCommit(c, s, step, i);
    }
  }

  lemma {:induction false} RunKeepsInv(c: Context, s: State, steps: seq<Step>)
    requires Inv(c, s)
    ensures Inv(c, Run(c, s, steps))
    decreases |steps|
  {
    if steps != [] {
      NextKeepsInv(c, s, steps[0]);
      RunKeepsInv(c, Next(c, s, steps[0]), steps[1..]);
    }
  }

  lemma InitialInv(c: Context, recovering: set<string>)
    ensures Inv(c, Initial(recovering))
  {
  }

  /** Some interleaving leads here. */
  ghost predicate Reachable(c: Context, s: State) {
    exists recovering: set<string>, steps: seq<Step> :: s == Run(c, Initial(recovering), steps)
  }

  lemma ReachableInv(c: Context, s: State)
    requires Reachable(c, s)
    ensures Inv(c, s)
  {
    var recovering: set<string>, steps: seq<Step> :| s == Run(c, Initial(recovering), steps);
    InitialInv(c, recovering);
    RunKeepsInv(c, Initial(recovering), steps);
  }

  /** A request of a read goes on if and only if the authority answers it, the record is there
      and unchanged, and its lease is alive; otherwise the transaction is rolled back. */
  lemma ReadsFailClosed(c: Context, s: State, t: nat)
    requires t in s.txns && Reading(s.txns[t].phase)
    ensures var read := s.txns[t].phase.read;
            && (read.Unread? ==> GoesOnIff(c, s, Range(t), t, s.etcd.up && s.etcd.key.Some?))
            && (read.Ranged? ==> GoesOnIff(c, s, CheckLease(t), t, s.etcd.up && read.key.lease in s.etcd.leases))
            && (read.Timed? ==> GoesOnIff(c, s, RangeAgain(t), t, s.etcd.up && s.etcd.key == Some(read.key)))
  {
  }

  predicate GoesOnIff(c: Context, s: State, step: Step, t: nat, condition: bool)
    requires t in s.txns && Reading(s.txns[t].phase)
  {
    var after := Next(c, s, step);
    && t in after.txns
    && if condition then Reading(after.txns[t].phase) && after.txns[t].phase.read != s.txns[t].phase.read
       else after.txns[t].phase.RolledBack?
  }

  /** The transaction still needs an answer of the authority, or is rolled back. */
  predicate NeedsAuthority(phase: Phase) {
    phase.Open? || phase.RolledBack? || (Reading(phase) && !phase.read.Fetched?)
  }

  lemma DownStep(c: Context, s: State, step: Step, t: nat)
    requires !s.etcd.up && !step.StartEtcd? && t in s.txns && NeedsAuthority(s.txns[t].phase)
    ensures var s' := Next(c, s, step);
            s'.etcd == s.etcd && t in s'.txns && NeedsAuthority(s'.txns[t].phase)
  {
  }

  /** While the authority is stopped its record stays as it is, and no transaction that still
      needs its answer commits. */
  lemma OutageStopsCommits(c: Context, s: State, steps: seq<Step>, t: nat)
    requires t in s.txns && NeedsAuthority(s.txns[t].phase) && forall x :: x in steps ==> !x.StartEtcd?
    ensures var down := Next(c, s, StopEtcd);
            && !down.etcd.up && down.etcd.key == s.etcd.key && Run(c, down, steps).etcd == down.etcd
            && t in Run(c, down, steps).txns && !Run(c, down, steps).txns[t].phase.Committed?
  {
    DownStays(c, Next(c, s, StopEtcd), steps, t);
  }

  lemma {:induction false} DownStays(c: Context, s: State, steps: seq<Step>, t: nat)
    requires !s.etcd.up && t in s.txns && NeedsAuthority(s.txns[t].phase) && forall x :: x in steps ==> !x.StartEtcd?
    ensures Run(c, s, steps).etcd == s.etcd
    ensures t in Run(c, s, steps).txns && NeedsAuthority(Run(c, s, steps).txns[t].phase)
    decreases |steps|
  {
    if steps != [] {
      DownStep(c, s, steps[0], t);
      DownStays(c, Next(c, s, steps[0]), steps[1..], t);
    }
  }

  // ----- What a guard remembers -----

  /** Every transaction that a guard has admitted is under a generation not newer than the one
      it remembers. */
  predicate Remembered(s: State, t: nat)
    requires t in s.txns
  {
    Admitted(s.txns[t].phase) ==>
      s.txns[t].guard in s.latest && s.txns[t].phase.grant.fence <= s.latest[s.txns[t].guard].fence
  }

  predicate MemoryOk(s: State) {
    forall t :: t in s.txns ==> Remembered(s, t)
  }

  /** The memory of a guard never goes back, and the guard of a transaction never changes. */
  lemma MemoryGrows(c: Context, s: State, step: Step, g: nat)
    requires g in s.latest
    ensures g in Next(c, s, step).latest && s.latest[g].fence <= Next(c, s, step).latest[g].fence
  {
  }

  lemma AdmissionIsRemembered(c: Context, s: State, step: Step, t: nat)
    requires t in s.txns && Remembered(s, t)
    ensures t in Next(c, s, step).txns && Next(c, s, step).txns[t].guard == s.txns[t].guard
    ensures Remembered(Next(c, s, step), t)
  {
    if s.txns[t].guard in s.latest { MemoryGrows(c, s, step, s.txns[t].guard); }
    if step == Accept(t) && Reading(s.txns[t].phase) && s.txns[t].phase.read.Fetched? {
      AcceptIsRemembered(c, s, t);
    } else {
      AdmissionOnlyByAccept(c, s, step, t);
    }
  }

  lemma AcceptIsRemembered(c: Context, s: State, t: nat)
    requires t in s.txns && Reading(s.txns[t].phase) && s.txns[t].phase.read.Fetched?
    ensures t in AcceptStep(c, s, t).txns && AcceptStep(c, s, t).txns[t].guard == s.txns[t].guard
    ensures Remembered(AcceptStep(c, s, t), t)
  {
  }

  /** Any other step leaves the transaction admitted as it was. */
  lemma AdmissionOnlyByAccept(c: Context, s: State, step: Step, t: nat)
    requires t in s.txns && (step == Accept(t) ==> !(Reading(s.txns[t].phase) && s.txns[t].phase.read.Fetched?))
    ensures var s' := Next(c, s, step);
            && t in s'.txns && s'.txns[t].guard == s.txns[t].guard
            && (Admitted(s'.txns[t].phase) ==>
                  Admitted(s.txns[t].phase) && s'.txns[t].phase.grant == s.txns[t].phase.grant)
  {
    if IsTxnStep(s, step) && step.txn == t {
      OwnStepKeepsAdmission(c, s, step, t);
    } else {
      NextLeavesOthers(c, s, step, t);
    }
  }

  lemma OwnStepKeepsAdmission(c: Context, s: State, step: Step, t: nat)
    requires t in s.txns && IsTxnStep(s, step) && step.txn == t
    requires step == Accept(t) ==> !(Reading(s.txns[t].phase) && s.txns[t].phase.read.Fetched?)
    ensures var s' := TxnStep(c, s, t, step);
            && t in s'.txns && s'.txns[t].guard == s.txns[t].guard
            && (Admitted(s'.txns[t].phase) ==>
                  Admitted(s.txns[t].phase) && s'.txns[t].phase.grant == s.txns[t].phase.grant)
  {
  }

  lemma NextKeepsMemory(c: Context, s: State, step: Step)
    requires MemoryOk(s)
    ensures MemoryOk(Next(c, s, step))
  {
    forall t | t in Next(c, s, step).txns ensures Remembered(Next(c, s, step), t) {
      if t in s.txns { AdmissionIsRemembered(c, s, step, t); }
    }
  }

  lemma {:induction false} RunKeepsMemory(c: Context, s: State, steps: seq<Step>)
    requires MemoryOk(s)
    ensures MemoryOk(Run(c, s, steps))
    decreases |steps|
  {
    if steps != [] {
      NextKeepsMemory(c, s, steps[0]);
      RunKeepsMemory(c, Next(c, s, steps[0]), steps[1..]);
    }
  }

  /** In every interleaving, a transaction that a guard admits or clears is under a generation
      not older than that of any transaction the same guard admitted before. */
  lemma AdmissionsOfAGuardFollow(c: Context, s: State, t: nat, u: nat)
    requires Reachable(c, s) && t in s.txns && u in s.txns && t != u && s.txns[t].guard == s.txns[u].guard
    requires Admitted(s.txns[u].phase)
    requires var after := Next(c, s, Accept(t)).txns[t].phase; after != s.txns[t].phase && Admitted(after)
    ensures s.txns[u].phase.grant.fence <= Next(c, s, Accept(t)).txns[t].phase.grant.fence
  {
    var recovering: set<string>, steps: seq<Step> :| s == Run(c, Initial(recovering), steps);
    RunKeepsMemory(c, Initial(recovering), steps);
    assert Remembered(s, u);
  }

  // ----- A commit holds the authority from its admission to its revalidation -----

  /** The fence of the record in force, if there is one. */
  predicate InForce(s: State, fence: nat) {
    s.etcd.key.Some? && s.etcd.key.value.revision == fence
  }

  /** A generation that is gone never returns, not even for the same server. */
  lemma {:induction false} GoneStaysGone(c: Context, s: State, steps: seq<Step>, fence: nat)
    requires RecordOk(c, s) && fence in s.puts && !InForce(s, fence)
    ensures !InForce(Run(c, s, steps), fence)
    decreases |steps|
  {
    if steps != [] {
      NextGrows(c, s, steps[0]);
      NextStaysGone(c, s, steps[0], fence);
      GoneStaysGone(c, Next(c, s, steps[0]), steps[1..], fence);
    }
  }

  lemma NextStaysGone(c: Context, s: State, step: Step, fence: nat)
    requires RecordOk(c, s) && fence in s.puts && !InForce(s, fence)
    ensures !InForce(Next(c, s, step), fence)
  {
  }

  /** The transaction was admitted under a generation that is gone and has not read the
      record for the last time, or it read a different one. */
  predicate Doomed(s: State, txn: Txn) {
    match txn.phase
    case Open(grant) => !InForce(s, grant.fence)
    case Revalidating(grant, Fetched(key)) => key.revision != grant.fence
    case Revalidating(grant, _) => !InForce(s, grant.fence)
    case RolledBack(_) => true
    case _ => false
  }

  lemma NextStaysDoomed(c: Context, s: State, step: Step, t: nat)
    requires Inv(c, s) && t in s.txns && Doomed(s, s.txns[t])
    ensures t in Next(c, s, step).txns && Doomed(Next(c, s, step), Next(c, s, step).txns[t])
  {
    var phase := s.txns[t].phase;
    assert TxnOk(c, s, s.txns[t]);
    if Admitted(phase) && !InForce(s, phase.grant.fence) { NextStaysGone(c, s, step, phase.grant.fence); }
    if IsTxnStep(s, step) && step.txn == t {
      TxnStepFrame(c, s, t, step);
    } else {
      NextLeavesOthers(c, s, step, t);
    }
  }

  lemma {:induction false} DoomedNeverCommits(c: Context, s: State, steps: seq<Step>, t: nat)
    requires Inv(c, s) && t in s.txns && Doomed(s, s.txns[t])
    ensures t in Run(c, s, steps).txns && !Run(c, s, steps).txns[t].phase.Committed?
    decreases |steps|
  {
    if steps != [] {
      NextKeepsInv(c, s, steps[0]);
      NextStaysDoomed(c, s, steps[0], t);
      DoomedNeverCommits(c, Next(c, s, steps[0]), steps[1..], t);
    }
  }

  /** Between its admission and its last read of the record. */
  predicate AwaitsLastRead(phase: Phase) {
    phase.Open? || (phase.Revalidating? && !phase.read.Fetched?)
  }

  /** If an admitted transaction commits in the end, then at this and every other moment
      between its admission and its last read of the record, the record in force was the one
      of its admission, and it named the transaction's own server. */
  lemma CommitHeldTheAuthority(c: Context, s: State, steps: seq<Step>, t: nat)
    requires Reachable(c, s) && t in s.txns && AwaitsLastRead(s.txns[t].phase)
    requires t in Run(c, s, steps).txns && Run(c, s, steps).txns[t].phase.Committed?
    ensures s.etcd.key.Some? && s.etcd.key.value.Named() == s.txns[t].phase.grant
    ensures s.etcd.key.value.server == c.serverOf(s.txns[t].guard)
  {
    ReachableInv(c, s);
    if !InForce(s, s.txns[t].phase.grant.fence) {
      DoomedNeverCommits(c, s, steps, t);
    }
    assert TxnOk(c, s, s.txns[t]);
  }

  /** The record in force goes exactly by another put or by the end of its own lease; nothing a
      transaction or a server does touches it. */
  lemma GoesFromForceIff(c: Context, s: State, step: Step)
    requires RecordOk(c, s) && s.etcd.key.Some?
    ensures !InForce(Next(c, s, step), s.etcd.key.value.revision) <==>
              || (step.Put? && CanPut(s, step.lease))
              || (step.EndLease? && CanPut(s, step.lease) && step.lease == s.etcd.key.value.lease)
  {
    assert Known(s, s.etcd.key.value);
  }

  /** A transaction that has not made its last read when the lease of its record ends never
      commits. */
  lemma EndedLeaseNeverCommits(c: Context, s: State, t: nat, steps: seq<Step>)
    requires Reachable(c, s) && t in s.txns && AwaitsLastRead(s.txns[t].phase)
    requires s.etcd.up && s.etcd.key.Some? && s.etcd.key.value.lease in s.etcd.leases
    ensures var ended := Next(c, s, EndLease(s.etcd.key.value.lease));
            && s.etcd.key.value.lease !in ended.etcd.leases && ended.etcd.key.None?
            && t in Run(c, ended, steps).txns && !Run(c, ended, steps).txns[t].phase.Committed?
  {
    ReachableInv(c, s);
    var step := EndLease(s.etcd.key.value.lease);
    NextKeepsInv(c, s, step);
    assert TxnOk(c, s, s.txns[t]);
    DoomedNeverCommits(c, Next(c, s, step), steps, t);
  }

  /** The last read itself: revalidation is answered by the record of the admission. */
  lemma RevalidationSeesTheAdmission(c: Context, s: State, t: nat, steps: seq<Step>)
    requires Reachable(c, s) && t in s.txns && s.txns[t].phase.Revalidating? && s.txns[t].phase.read.Timed?
    requires var s1 := Next(c, s, RangeAgain(t));
             t in Run(c, s1, steps).txns && Run(c, s1, steps).txns[t].phase.Committed?
    ensures s.etcd.up && s.etcd.key.Some? && s.etcd.key.value.Named() == s.txns[t].phase.grant
    ensures s.etcd.key.value.server == c.serverOf(s.txns[t].guard)
  {
    ReachableInv(c, s);
    var s1 := Next(c, s, RangeAgain(t));
    NextKeepsInv(c, s, RangeAgain(t));
    assert TxnOk(c, s, s.txns[t]) && TxnOk(c, s1, s1.txns[t]);
    if s1.txns[t].phase.RolledBack? || s1.txns[t].phase.read.key.revision != s.txns[t].phase.grant.fence {
      DoomedNeverCommits(c, s1, steps, t);
    }
  }

  /** Guarded transactions on the two servers never overlap: of two that are open together,
      at most one can commit. */
  lemma OpenTogetherNotBothCommitted(c: Context, s: State, steps: seq<Step>, t: nat, u: nat)
    requires Reachable(c, s) && t in s.txns && u in s.txns
    requires s.txns[t].phase.Open? && s.txns[u].phase.Open?
    requires c.serverOf(s.txns[t].guard) != c.serverOf(s.txns[u].guard)
    requires t in Run(c, s, steps).txns && u in Run(c, s, steps).txns
    ensures !(Run(c, s, steps).txns[t].phase.Committed? && Run(c, s, steps).txns[u].phase.Committed?)
  {
    ReachableInv(c, s);
    if Run(c, s, steps).txns[t].phase.Committed? && Run(c, s, steps).txns[u].phase.Committed? {
      CommitHeldTheAuthority(c, s, steps, t);
      CommitHeldTheAuthority(c, s, steps, u);
    }
  }

  /** One fence, one server, in every run; and every commit is on the server that the record
      with its fence named. */
  lemma EqualFencesOneServer(c: Context, recovering: set<string>, steps: seq<Step>, i: nat, j: nat)
    requires i < |Run(c, Initial(recovering), steps).commits| && j < |Run(c, Initial(recovering), steps).commits|
    ensures var s := Run(c, Initial(recovering), steps);
            && s.commits[i].fence in s.puts && s.puts[s.commits[i].fence].server == s.commits[i].server
            && (s.commits[i].fence == s.commits[j].fence ==> s.commits[i].server == s.commits[j].server)
  {
    InitialInv(c, recovering);
    RunKeepsInv(c, Initial(recovering), steps);
    var s := Run(c, Initial(recovering), steps);
    assert CommitOk(c, s, s.commits[i]) && CommitOk(c, s, s.commits[j]);
  }

  /** Against a linearizable record the guard's memory only ever refuses a grant that was
      read before a newer one was remembered. */
  lemma GuardOnlyRefusesStaleReads(c: Context, s: State, guard: nat, key: Key)
    requires Reachable(c, s) && Known(s, key) && AcceptGrant(Latest(s, guard), key.Named()).Err?
    ensures AcceptGrant(Latest(s, guard), key.Named()).error == "authority_generation_stale"
    ensures guard in s.latest && key.revision < s.latest[guard].fence
  {
    ReachableInv(c, s);
  }

  // ----- Fences along the commit order -----

  predicate Ordered(commits: seq<Commit>) {
    forall i, j :: 0 <= i < j < |commits| ==> commits[i].fence <= commits[j].fence
  }

  /** The transaction will not read the record again and nothing but its own death or its
      deadline keeps it from committing. */
  predicate Ready(s: State, t: nat) {
    && t in s.txns
    && match s.txns[t].phase
       case Cleared(_) => true
       case Revalidating(grant, Fetched(key)) => key.Named() == grant && AcceptGrant(Latest(s, s.txns[t].guard), grant).Ok?
       case _ => false
  }

  ghost predicate SomeReady(s: State) {
    exists t :: Ready(s, t)
  }

  function Fence(s: State, t: nat): nat
    requires Ready(s, t)
  {
    s.txns[t].phase.grant.fence
  }

  predicate ReadyOk(s: State, t: nat) {
    Ready(s, t) ==>
      && (s.etcd.key.Some? ==> InForce(s, Fence(s, t)))
      && (forall i :: 0 <= i < |s.commits| ==> s.commits[i].fence <= Fence(s, t))
  }

  ghost predicate Quiet(s: State) {
    && Ordered(s.commits)
    && (forall t :: ReadyOk(s, t))
    && (forall t, u :: Ready(s, t) && Ready(s, u) ==> Fence(s, t) == Fence(s, u))
  }

  /** No authority record is written while some transaction is past its last read. */
  ghost predicate QuietHandovers(c: Context, s: State, steps: seq<Step>)
    decreases |steps|
  {
    steps == [] ||
    (&& (steps[0].Put? && CanPut(s, steps[0].lease) ==> !SomeReady(s))
     && QuietHandovers(c, Next(c, s, steps[0]), steps[1..]))
  }

  lemma LatestNeverShrinks(c: Context, s: State, step: Step, guard: nat, grant: Grant)
    requires Inv(c, s) && KnownGrant(s, grant)
    requires AcceptGrant(Latest(Next(c, s, step), guard), grant).Ok?
    ensures AcceptGrant(Latest(s, guard), grant).Ok?
  {
  }

  lemma ReadyBefore(c: Context, s: State, step: Step, t: nat)
    requires Inv(c, s) && Ready(Next(c, s, step), t)
    ensures var fence := Fence(Next(c, s, step), t);
            (Ready(s, t) && Fence(s, t) == fence) || (step == RangeAgain(t) && InForce(s, fence))
  {
    if IsTxnStep(s, step) && step.txn == t {
      TxnStepFrame(c, s, t, step);
      assert TxnOk(c, s, s.txns[t]);
    } else {
      NextLeavesOthers(c, s, step, t);
      var grant := s.txns[t].phase.grant;
      assert TxnOk(c, s, s.txns[t]);
      if s.txns[t].phase.Revalidating? { LatestNeverShrinks(c, s, step, s.txns[t].guard, grant); }
    }
  }

  /** What a step does to the commit order. */
  lemma NextCommits(c: Context, s: State, step: Step)
    requires Inv(c, s)
    ensures var s' := Next(c, s, step);
            s'.commits == s.commits ||
            (&& step.CommitTxn? && Ready(s, step.txn) && s'.etcd == s.etcd
             && s'.commits == s.commits + [Commit(step.txn, c.serverOf(s.txns[step.txn].guard), Fence(s, step.txn))])
  {
    if IsTxnStep(s, step) { TxnStepFrame(c, s, step.txn, step); }
  }

  lemma NextKey(c: Context, s: State, step: Step)
    requires !(step.Put? && CanPut(s, step.lease))
    ensures Next(c, s, step).etcd.key in {None, s.etcd.key}
    ensures step.RangeAgain? ==> Next(c, s, step).etcd == s.etcd
  {
    if IsTxnStep(s, step) { TxnStepFrame(c, s, step.txn, step); }
  }

  lemma CommitsAreBehind(c: Context, s: State, i: nat)
    requires Inv(c, s) && i < |s.commits| && s.etcd.key.Some?
    ensures s.commits[i].fence <= s.etcd.key.value.revision
  {
  }

  lemma NextKeepsReadyOk(c: Context, s: State, step: Step, t: nat)
    requires Inv(c, s) && Quiet(s)
    requires step.Put? && CanPut(s, step.lease) ==> !SomeReady(s)
    requires Ready(Next(c, s, step), t)
    ensures ReadyOk(Next(c, s, step), t)
    ensures forall u :: Ready(s, u) ==> Fence(s, u) == Fence(Next(c, s, step), t)
  {
    ReadyBefore(c, s, step, t);
    NextCommits(c, s, step);
    assert ReadyOk(s, t);
    if Ready(s, t) {
      assert SomeReady(s);
    } else {
      forall i | 0 <= i < |s.commits| ensures s.commits[i].fence <= Fence(Next(c, s, step), t) {
        CommitsAreBehind(c, s, i);
      }
      forall u | Ready(s, u) ensures Fence(s, u) == Fence(Next(c, s, step), t) {
        assert ReadyOk(s, u);
      }
    }
    NextKey(c, s, step);
  }

  lemma NextKeepsQuiet(c: Context, s: State, step: Step)
    requires Inv(c, s) && Quiet(s)
    requires step.Put? && CanPut(s, step.lease) ==> !SomeReady(s)
    ensures Quiet(Next(c, s, step))
  {
    var s' := Next(c, s, step);
    NextCommits(c, s, step);
    if step.CommitTxn? && Ready(s, step.txn) { assert ReadyOk(s, step.txn); }
    forall t ensures ReadyOk(s', t) {
      if Ready(s', t) { NextKeepsReadyOk(c, s, step, t); }
    }
    forall t, u | Ready(s', t) && Ready(s', u) ensures Fence(s', t) == Fence(s', u) {
      NextKeepsReadyOk(c, s, step, t);
      NextKeepsReadyOk(c, s, step, u);
      ReadyBefore(c, s, step, t);
      ReadyBefore(c, s, step, u);
    }
  }

  lemma {:induction false} RunKeepsQuiet(c: Context, s: State, steps: seq<Step>)
    requires Inv(c, s) && Quiet(s) && QuietHandovers(c, s, steps)
    ensures Inv(c, Run(c, s, steps)) && Quiet(Run(c, s, steps))
    decreases |steps|
  {
    if steps != [] {
      NextKeepsInv(c, s, steps[0]);
      NextKeepsQuiet(c, s, steps[0]);
      RunKeepsQuiet(c, Next(c, s, steps[0]), steps[1..]);
    }
  }

  /** Fences never decrease along the commit order, provided every handover of the record
      waits until no transaction is between its last read and its commit. */
  lemma QuietRunsCommitInFenceOrder(c: Context, recovering: set<string>, steps: seq<Step>)
    requires QuietHandovers(c, Initial(recovering), steps)
    ensures Ordered(Run(c, Initial(recovering), steps).commits)
  {
    InitialInv(c, recovering);
    RunKeepsQuiet(c, Initial(recovering), steps);
  }

  /** A schedule that writes no further authority record. */
  predicate WithoutPut(steps: seq<Step>) {
    forall x :: x in steps ==> !x.Put?
  }

  lemma {:induction false} WithoutPutIsQuiet(c: Context, s: State, steps: seq<Step>)
    requires WithoutPut(steps)
    ensures QuietHandovers(c, s, steps)
    decreases |steps|
  {
    if steps != [] {
      assert steps[0] in steps && forall x :: x in steps[1..] ==> x in steps;
      WithoutPutIsQuiet(c, Next(c, s, steps[0]), steps[1..]);
    }
  }

  lemma RunStep(c: Context, s: State, step: Step, rest: seq<Step>)
    ensures Run(c, s, [step] + rest) == Run(c, Next(c, s, step), rest)
  {
  }

  lemma {:induction false} RunConcat(c: Context, s: State, a: seq<Step>, b: seq<Step>)
    ensures Run(c, s, a + b) == Run(c, Run(c, s, a), b)
    decreases |a|
  {
    if a == [] {
      assert a + b == b;
    } else {
      assert (a + b)[1..] == a[1..] + b;
      RunConcat(c, Next(c, s, a[0]), a[1..], b);
    }
  }

  /** A bracketed read that nothing disturbs, and the guard's answer to it. */
  function ReadAndAccept(u: nat): seq<Step> {
    [Range(u), CheckLease(u), RangeAgain(u), Accept(u)]
  }

  lemma RunFour(c: Context, s: State, u: nat)
    ensures Run(c, s, ReadAndAccept(u))
            == Next(c, Next(c, Next(c, Next(c, s, Range(u)), CheckLease(u)), RangeAgain(u)), Accept(u))
  {
    var s1 := Next(c, s, Range(u));
    var s2 := Next(c, s1, CheckLease(u));
    var s3 := Next(c, s2, RangeAgain(u));
    RunStep(c, s, Range(u), [CheckLease(u), RangeAgain(u), Accept(u)]);
    RunStep(c, s1, CheckLease(u), [RangeAgain(u), Accept(u)]);
    RunStep(c, s2, RangeAgain(u), [Accept(u)]);
    RunStep(c, s3, Accept(u), []);
    assert ReadAndAccept(u) == [Range(u)] + [CheckLease(u), RangeAgain(u), Accept(u)];
    assert [CheckLease(u), RangeAgain(u), Accept(u)] == [CheckLease(u)] + [RangeAgain(u), Accept(u)];
    assert [RangeAgain(u), Accept(u)] == [RangeAgain(u)] + [Accept(u)] && [Accept(u)] == [Accept(u)] + [];
  }

  lemma UndisturbedReads(c: Context, s: State, u: nat)
    requires u in s.txns && Reading(s.txns[u].phase) && s.txns[u].phase.read.Unread?
    requires s.etcd.up && s.etcd.key.Some? && s.etcd.key.value.lease in s.etcd.leases
    ensures Next(c, Next(c, Next(c, s, Range(u)), CheckLease(u)), RangeAgain(u))
            == SetPhase(s, u, WithRead(s.txns[u].phase, Fetched(s.etcd.key.value)))
  {
    var phase := s.txns[u].phase;
    var key := s.etcd.key.value;
    var s1 := Next(c, s, Range(u));
    assert s1 == SetPhase(s, u, WithRead(phase, Ranged(key)));
    var s2 := Next(c, s1, CheckLease(u));
    assert s2 == SetPhase(s, u, WithRead(phase, Timed(key)));
  }

  lemma RunReadAndAccept(c: Context, s: State, u: nat)
    requires u in s.txns && Reading(s.txns[u].phase) && s.txns[u].phase.read.Unread?
    requires s.etcd.up && s.etcd.key.Some? && s.etcd.key.value.lease in s.etcd.leases
    ensures var key := s.etcd.key.value;
            Run(c, s, ReadAndAccept(u)) == AcceptStep(c, SetPhase(s, u, WithRead(s.txns[u].phase, Fetched(key))), u)
  {
    RunFour(c, s, u);
    UndisturbedReads(c, s, u);
  }

  /** A guard accepts a record newer than everything it has seen. */
  lemma NewestIsAccepted(c: Context, s: State, guard: nat)
    requires Inv(c, s) && s.etcd.key.Some?
    ensures AcceptGrant(Latest(s, guard), s.etcd.key.value.Named()) == Ok(s.etcd.key.value.Named())
  {
  }

  /** The read answered with the record in force passes the guard and the server check. */
  lemma UndisturbedAccept(c: Context, s: State, u: nat, phase: Phase)
    requires Inv(c, s) && s.etcd.key.Some? && u in s.txns
    requires s.etcd.up && s.etcd.key.value.lease in s.etcd.leases
    requires s.etcd.key.value.server == c.serverOf(s.txns[u].guard) != ""
    requires c.serverOf(s.txns[u].guard) !in s.recovering
    requires s.txns[u].phase == phase && Reading(phase) && phase.read.Unread?
    requires phase.Revalidating? ==> phase.grant == s.etcd.key.value.Named()
    ensures var grant := s.etcd.key.value.Named();
            Run(c, s, ReadAndAccept(u))
            == s.(latest := s.latest[s.txns[u].guard := grant],
                  txns := s.txns[u := Txn(s.txns[u].guard, if phase.Admitting? then Open(grant) else Cleared(grant))])
  {
    RunReadAndAccept(c, s, u);
    NewestIsAccepted(c, s, s.txns[u].guard);
  }

  function WholeTransaction(u: nat, guard: nat): seq<Step> {
    [Begin(u, guard)] + ReadAndAccept(u) + [Finish(u)] + ReadAndAccept(u) + [CommitTxn(u)]
  }

  lemma UndisturbedAdmission(c: Context, s: State, u: nat, guard: nat)
    requires Inv(c, s) && u !in s.txns && s.etcd.up && s.etcd.key.Some? && s.etcd.key.value.lease in s.etcd.leases
    requires s.etcd.key.value.server == c.serverOf(guard) != "" && c.serverOf(guard) !in s.recovering
    ensures var grant := s.etcd.key.value.Named();
            var s2 := Run(c, Next(c, s, Begin(u, guard)), ReadAndAccept(u));
            s2 == s.(latest := s.latest[guard := grant], txns := s.txns[u := Txn(guard, Open(grant))]) && Inv(c, s2)
  {
    var s1 := Next(c, s, Begin(u, guard));
    NextKeepsInv(c, s, Begin(u, guard));
    UndisturbedAccept(c, s1, u, Admitting(Unread));
    RunKeepsInv(c, s1, ReadAndAccept(u));
    var grant := s.etcd.key.value.Named();
    assert s1.txns[u := Txn(guard, Open(grant))] == s.txns[u := Txn(guard, Open(grant))];
  }

  /** An undisturbed transaction on the server the record names commits under its fence. */
  lemma UndisturbedCommit(c: Context, s: State, u: nat, guard: nat)
    requires Inv(c, s) && u !in s.txns && s.etcd.up && s.etcd.key.Some? && s.etcd.key.value.lease in s.etcd.leases
    requires s.etcd.key.value.server == c.serverOf(guard) != "" && c.serverOf(guard) !in s.recovering
    ensures var key := s.etcd.key.value;
            Run(c, s, WholeTransaction(u, guard))
            == s.(latest := s.latest[guard := key.Named()], txns := s.txns[u := Txn(guard, Committed(key.Named()))],
                  commits := s.commits + [Commit(u, key.server, key.revision)])
  {
    var grant := s.etcd.key.value.Named();
    UndisturbedAdmission(c, s, u, guard);
    var s2 := s.(latest := s.latest[guard := grant], txns := s.txns[u := Txn(guard, Open(grant))]);
    NextKeepsInv(c, s2, Finish(u));
    var s3 := s2.(txns := s.txns[u := Txn(guard, Revalidating(grant, Unread))]);
    assert Next(c, s2, Finish(u)) == s3;
    UndisturbedRevalidation(c, s, s3, u, guard);
    RunUndisturbed(c, s, u, guard);
    ClearedCommits(c, s, u, guard);
  }

  lemma UndisturbedRevalidation(c: Context, s: State, s3: State, u: nat, guard: nat)
    requires s.etcd.up && s.etcd.key.Some? && s.etcd.key.value.lease in s.etcd.leases
    requires s.etcd.key.value.server == c.serverOf(guard) != "" && c.serverOf(guard) !in s.recovering
    requires Inv(c, s3)
    requires var grant := s.etcd.key.value.Named();
             s3 == s.(latest := s.latest[guard := grant], txns := s.txns[u := Txn(guard, Revalidating(grant, Unread))])
    ensures var grant := s.etcd.key.value.Named();
            Run(c, s3, ReadAndAccept(u))
            == s.(latest := s.latest[guard := grant], txns := s.txns[u := Txn(guard, Cleared(grant))])
  {
    var grant := s.etcd.key.value.Named();
    UndisturbedAccept(c, s3, u, Revalidating(grant, Unread));
    assert s3.latest[guard := grant] == s3.latest;
    assert s3.txns[u := Txn(guard, Cleared(grant))] == s.txns[u := Txn(guard, Cleared(grant))];
  }

  lemma ClearedCommits(c: Context, s: State, u: nat, guard: nat)
    requires s.etcd.key.Some? && s.etcd.key.value.server == c.serverOf(guard)
    ensures var key := s.etcd.key.value;
            var s4 := s.(latest := s.latest[guard := key.Named()], txns := s.txns[u := Txn(guard, Cleared(key.Named()))]);
            Next(c, s4, CommitTxn(u)) == s4.(txns := s.txns[u := Txn(guard, Committed(key.Named()))],
                                             commits := s.commits + [Commit(u, key.server, key.revision)])
  {
  }

  lemma RunUndisturbed(c: Context, s: State, u: nat, guard: nat)
    ensures var s1 := Run(c, Next(c, s, Begin(u, guard)), ReadAndAccept(u));
            Run(c, s, WholeTransaction(u, guard))
            == Next(c, Run(c, Next(c, s1, Finish(u)), ReadAndAccept(u)), CommitTxn(u))
  {
    var a, b, d := [Begin(u, guard)] + ReadAndAccept(u), [Finish(u)] + ReadAndAccept(u), [CommitTxn(u)];
    assert a + [Finish(u)] + ReadAndAccept(u) == a + b;
    RunConcat(c, s, a + b, d);
    RunConcat(c, s, a, b);
    RunStep(c, s, Begin(u, guard), ReadAndAccept(u));
    RunStep(c, Run(c, s, a), Finish(u), ReadAndAccept(u));
    RunStep(c, Run(c, s, a + b), CommitTxn(u), []);
    assert d == d + [];
  }

  /** The transaction `t` past its last read, the new writer `u` in between. */
  function Overtake(t: nat, u: nat, guard: nat): seq<Step> {
    [Accept(t)] + WholeTransaction(u, guard) + [CommitTxn(t)]
  }

  lemma OvertakenCommitGoesBack(c: Context, s: State, t: nat, u: nat, guard: nat)
    requires Inv(c, s) && Ready(s, t) && u !in s.txns
    requires s.etcd.up && s.etcd.key.Some? && s.etcd.key.value.lease in s.etcd.leases
    requires s.etcd.key.value.server == c.serverOf(guard) != "" && c.serverOf(guard) !in s.recovering
    requires Fence(s, t) < s.etcd.key.value.revision
    ensures !Ordered(Run(c, s, Overtake(t, u, guard)).commits)
  {
    var fence := Fence(s, t);
    var middle := WholeTransaction(u, guard);
    var s1 := Next(c, s, Accept(t));
    assert TxnOk(c, s, s.txns[t]);
    NextKeepsInv(c, s, Accept(t));
    TxnStepFrame(c, s, t, Accept(t));
    assert s1.txns[t].phase.Cleared? && s1.txns[t].phase.grant.fence == fence && s1.commits == s.commits;
    UndisturbedCommit(c, s1, u, guard);
    var s2 := Run(c, s1, middle);
    RunStep(c, s, Accept(t), middle + [CommitTxn(t)]);
    RunConcat(c, s1, middle, [CommitTxn(t)]);
    RunStep(c, s2, CommitTxn(t), []);
    assert Overtake(t, u, guard) == [Accept(t)] + (middle + [CommitTxn(t)]) && [CommitTxn(t)] == [CommitTxn(t)] + [];
    var after := Run(c, s, Overtake(t, u, guard)).commits;
    var n := |s.commits|;
    assert after[n].fence == s.etcd.key.value.revision && after[n + 1].fence == fence;
  }

  ghost predicate SafeFrom(c: Context, s: State) {
    forall steps: seq<Step> :: WithoutPut(steps) ==> Ordered(Run(c, s, steps).commits)
  }

  lemma HandoverSafety(c: Context, s: State, guard: nat, lease: nat, u: nat)
    requires Inv(c, s) && Quiet(s) && CanPut(s, lease) && u !in s.txns
    requires c.serverOf(guard) != "" && c.serverOf(guard) !in s.recovering
    ensures SafeFrom(c, Next(c, s, Put(c.serverOf(guard), lease))) <==> !SomeReady(s)
  {
    var put := Put(c.serverOf(guard), lease);
    var s1 := Next(c, s, put);
    NextKeepsInv(c, s, put);
    if SomeReady(s) {
      var t :| Ready(s, t);
      assert TxnOk(c, s, s.txns[t]);
      OvertakenCommitGoesBack(c, s1, t, u, guard);
      assert WithoutPut(Overtake(t, u, guard));
    } else {
      NextKeepsQuiet(c, s, put);
      forall steps: seq<Step> | WithoutPut(steps) ensures Ordered(Run(c, s1, steps).commits) {
        WithoutPutIsQuiet(c, s1, steps);
        RunKeepsQuiet(c, s1, steps);
      }
    }
  }

  /** Naming a writer after any run whose handovers were quiet: every continuation keeps the
      commits in fence order exactly when no transaction is between its last read of the
      record and its commit. The revalidation narrows that window but does not close it. */
  lemma HandoverIsSafeExactlyWhenNoneIsReady(
    c: Context, recovering: set<string>, before: seq<Step>, guard: nat, lease: nat, u: nat)
    requires QuietHandovers(c, Initial(recovering), before)
    requires var s := Run(c, Initial(recovering), before);
             && CanPut(s, lease) && u !in s.txns
             && c.serverOf(guard) != "" && c.serverOf(guard) !in s.recovering
    ensures var s := Run(c, Initial(recovering), before);
            SafeFrom(c, Next(c, s, Put(c.serverOf(guard), lease))) <==> !SomeReady(s)
  {
    InitialInv(c, recovering);
    RunKeepsQuiet(c, Initial(recovering), before);
    HandoverSafety(c, Run(c, Initial(recovering), before), guard, lease, u);
  }

  // ----- A run that commits against the order of its fences -----

  /** A transaction on the first writer up to its last read of the record. */
  function UpToLastRead(t: nat, guard: nat): seq<Step> {
    [Begin(t, guard)] + ReadAndAccept(t) + [Finish(t)] + [Range(t), CheckLease(t), RangeAgain(t)]
  }

  /** One writer is named, reads the record for the last time, the other writer is named,
      commits, and then the first one commits. */
  function OvertakenRun(first: nat, second: nat, server: string, server': string): seq<Step> {
    [GrantLease(1), Put(server, 1)] + UpToLastRead(0, first) + [Put(server', 1)] + Overtake(0, 1, second)
  }

  lemma RunThree(c: Context, s: State, u: nat)
    ensures Run(c, s, [Range(u), CheckLease(u), RangeAgain(u)])
            == Next(c, Next(c, Next(c, s, Range(u)), CheckLease(u)), RangeAgain(u))
  {
    var s1 := Next(c, s, Range(u));
    var s2 := Next(c, s1, CheckLease(u));
    RunStep(c, s, Range(u), [CheckLease(u), RangeAgain(u)]);
    RunStep(c, s1, CheckLease(u), [RangeAgain(u)]);
    RunStep(c, s2, RangeAgain(u), []);
    assert [Range(u), CheckLease(u), RangeAgain(u)] == [Range(u)] + [CheckLease(u), RangeAgain(u)];
    assert [CheckLease(u), RangeAgain(u)] == [CheckLease(u)] + [RangeAgain(u)] && [RangeAgain(u)] == [RangeAgain(u)] + [];
  }

  /** A transaction nobody disturbs gets past its last read. */
  lemma UndisturbedLastRead(c: Context, s: State, t: nat, guard: nat)
    requires Inv(c, s) && t !in s.txns && s.etcd.up && s.etcd.key.Some? && s.etcd.key.value.lease in s.etcd.leases
    requires s.etcd.key.value.server == c.serverOf(guard) != "" && c.serverOf(guard) !in s.recovering
    ensures var key := s.etcd.key.value;
            var s' := Run(c, s, UpToLastRead(t, guard));
            && s' == s.(latest := s.latest[guard := key.Named()],
                        txns := s.txns[t := Txn(guard, Revalidating(key.Named(), Fetched(key)))])
            && Ready(s', t) && Fence(s', t) == key.revision
  {
    var key := s.etcd.key.value;
    UndisturbedAdmission(c, s, t, guard);
    var s1 := Run(c, Next(c, s, Begin(t, guard)), ReadAndAccept(t));
    var s2 := Next(c, s1, Finish(t));
    assert s2 == s1.(txns := s.txns[t := Txn(guard, Revalidating(key.Named(), Unread))]);
    UndisturbedReads(c, s2, t);
    RunUpToLastRead(c, s, t, guard);
    NewestIsAccepted(c, s1, guard);
  }

  lemma RunUpToLastRead(c: Context, s: State, t: nat, guard: nat)
    ensures Run(c, s, UpToLastRead(t, guard))
            == Next(c, Next(c, Next(c, Next(c, Run(c, Next(c, s, Begin(t, guard)), ReadAndAccept(t)), Finish(t)),
                                    Range(t)), CheckLease(t)), RangeAgain(t))
  {
    var a, b := [Begin(t, guard)] + ReadAndAccept(t), [Range(t), CheckLease(t), RangeAgain(t)];
    RunConcat(c, s, a + [Finish(t)], b);
    RunConcat(c, s, a, [Finish(t)]);
    RunStep(c, s, Begin(t, guard), ReadAndAccept(t));
    RunStep(c, Run(c, s, a), Finish(t), []);
    assert [Finish(t)] + [] == [Finish(t)];
    RunThree(c, Run(c, s, a + [Finish(t)]), t);
  }

  /** For any two guards of named servers there is a run, from the very start, whose commits
      are not in the order of their fences. */
  lemma CommitOrderCanGoBack(c: Context, first: nat, second: nat)
    requires c.serverOf(first) != "" && c.serverOf(second) != ""
    ensures !Ordered(Run(c, Initial({}), OvertakenRun(first, second, c.serverOf(first), c.serverOf(second))).commits)
  {
    var server, server' := c.serverOf(first), c.serverOf(second);
    var s0 := Initial({});
    var named := [GrantLease(1), Put(server, 1)];
    NamedWriter(c, server);
    var s1 := Run(c, s0, named);
    UndisturbedLastRead(c, s1, 0, first);
    RunKeepsInv(c, s1, UpToLastRead(0, first));
    var s2 := Run(c, s1, UpToLastRead(0, first));
    var s3 := Next(c, s2, Put(server', 1));
    NextKeepsInv(c, s2, Put(server', 1));
    OvertakenCommitGoesBack(c, s3, 0, 1, second);
    RunConcat(c, s0, named + UpToLastRead(0, first) + [Put(server', 1)], Overtake(0, 1, second));
    RunConcat(c, s0, named + UpToLastRead(0, first), [Put(server', 1)]);
    RunConcat(c, s0, named, UpToLastRead(0, first));
    RunStep(c, s2, Put(server', 1), []);
    assert [Put(server', 1)] + [] == [Put(server', 1)];
  }

  lemma NamedWriter(c: Context, server: string)
    ensures var s := Run(c, Initial({}), [GrantLease(1), Put(server, 1)]);
            && Inv(c, s) && s.txns == map[] && s.recovering == {} && s.etcd.up && 1 in s.etcd.leases
            && s.etcd.key == Some(Key(c.authority, server, 1, 2))
  {
    var s0 := Initial({});
    InitialInv(c, {});
    RunKeepsInv(c, s0, [GrantLease(1), Put(server, 1)]);
    var s1 := Next(c, s0, GrantLease(1));
    RunStep(c, s0, GrantLease(1), [Put(server, 1)]);
    RunStep(c, s1, Put(server, 1), []);
    assert [GrantLease(1), Put(server, 1)] == [GrantLease(1)] + [Put(server, 1)] && [Put(server, 1)] == [Put(server, 1)] + [];
  }
}
