# Verification of agnoclaw's recovery, failover and business-rule logic

A Dafny model of the parts of agnoclaw that carry safety arguments, with proofs for every
input, every run and every interleaving. `dafny verify dfyconfig.toml` checks the whole project.

Where the source changes things in place the model does too: a class whose methods are proved
against functions of the old state, or a method with the source's loops. Durable and volatile
state move by small steps, a death may fall between any two of them, and the theorems are about
every sequence of steps.

| module | what it models |
|---|---|
| `Operations`, `OperationLedger` | operation states, effect classes, the four reducers, and one operation's row with its mutation table |
| `Lifecycle`, `RuntimeStore`, `SqliteStore` | the run reducer, the transactional store as a function, and the store as it writes in place and rolls back |
| `EffectGateway`, `Gateway` | concurrent executions of one operation against an external provider, and the gateway's own code |
| `ToolLoop` | an agent tool loop of any length, its deaths, recoveries and reconciliations |
| `WriterAuthority`, `WriterAuthorityTiming` | two writable databases, a leased authority record, and guarded transactions in any interleaving, without and with a clock |
| `Lsn`, `Replication`, `Topology` | log positions, two nodes that take turns as writer, and the rotation program |
| `OptionalRewrite`, `SignatureSplit` | the scanner, rewriter and printer of the API reference |
| `DemoHost` | a business host with a revision check and idempotency receipts |
| `Json`, `DeepMerge`, `AttachmentOrder`, `QualityGate`, `RiskScoring`, `RiskSensitivity`, `RubricWeights`, `Rounding` | the deal-pack merge, gate, score, its dependence on each metric and weight, and the weights, in exact arithmetic |
| `OverflowSearch`, `ArchiveSeeding` | a bounded search over an exception graph, and round-robin seeding with keyset pages |

## Findings

Properties one would expect that the code does not have, each with the condition under which it
holds.

- A non-repeatable operation can be delivered twice. The gateway does not ask whether its begin
  was applied or answered from the mutation table, so two executions that share a worker identity
  both dispatch (`EffectGateway.SharedWorkerDeliversTwice`). At most one delivery holds exactly
  when worker identities differ (`EffectGateway.AtMostOneDelivery`), and under the same condition
  a failed record means that nothing was delivered (`EffectGateway.FailureIsUndelivered`).
- A request to cancel does not settle a run: through a wait for reconciliation it can run again and
  complete (`Lifecycle.CanReachIff`). A wait that is paused can no longer be answered
  (`Lifecycle.AnsweredRightAfterItsWait`).
- Fences can go back along the commit order. A transaction that has passed its last read of the
  record can commit after the record has moved on and the new writer has committed
  (`WriterAuthority.CommitOrderCanGoBack` is such a run). A handover is safe exactly when no
  transaction is in that window (`WriterAuthority.HandoverIsSafeExactlyWhenNoneIsReady`). The
  lease closes the window: when a handover waits for it to end and timeouts are set within the
  safety margin, commits stay in fence order (`WriterAuthorityTiming.TimelyRunsCommitInFenceOrder`).
- A run whose operations reach the limit of the safety scan cannot complete any more, although
  nothing in it is ambiguous (`ToolLoop.CompletesIffWithinScan`, `ToolLoop.FullScanNeverCompletes`).
- An optional type inside another one is left as it is, so normalizing is idempotent only up to
  one level (`OptionalRewrite.IdempotentUpToOneLevel`). A longer name that ends in the marker is
  rewritten as if it were the marker (`OptionalRewrite.LongerNameIsRewrittenToo`); only whole names
  are rewritten exactly when no name runs into an outermost optional type
  (`OptionalRewrite.RewrittenNamesAreWholeIff`).
- Deep merge is associative only on compatible documents (`DeepMerge.AssociativeIffCompatible`),
  and the order in which a list of attachments is merged matters by the same measure
  (`AttachmentOrder.FoldLawIff`).
- The quality gate raises, instead of failing, exactly when the transaction, its debt package or
  the metrics are a value that is neither empty nor an object, although its schema check reports
  each of these (`QualityGate.GateRaisesIff`). It also passes a pack whose flags are null or hold
  non-objects, and scoring then raises (`RiskScoring.ScoredIff`).
- With a single dimension the chosen weight is not kept unless it is zero or one
  (`RubricWeights.SingleDimension`), and setting a weight to one forgets the ratios of the others
  (`RubricWeights.TwiceIsSecondIff`).
- The overflow search is right on every graph with at most n reachable exceptions only for n up to
  twelve (`OverflowSearch.ExactUpToIffTwelve`); beyond, it finds exactly the overflows among the
  first twelve in visiting order (`OverflowSearch.FoundIffAmongFirstTwelve`).

One order of steps that the programs keep is needed: a rewind copies the source's configuration,
so a writer must not be configured before its standby is rewound from it. In the order of the
rotation programs every writer can acknowledge (`Replication.ConfiguredInOrderNeverBlocks`); in
the other order a promoted node can end up waiting for itself
(`Replication.RewindAfterConfigureBlocks`, `Replication.CanAcknowledgeIff`).

## Model

| member | source | states |
|---|---|---|
| `Operations.ReduceKeepsRecord` | src/agnoclaw/runtime/operations.py:462-644 | every accepted begin, recover, settle or reconcile adds exactly one revision, keeps the intent and the record well formed, never lowers the fence, raises it on every change of ownership, and counts an attempt only for a begin |
| `Operations.ReduceMoves` | src/agnoclaw/runtime/operations.py:462-644 | only a read-only or keyed idempotent dispatch returns to planned, only a planned operation is dispatched, and only an unknown outcome leaves a terminal state |
| `Operations.VerdictDecides` | src/agnoclaw/runtime/operations.py:595-644 | evidence is accepted exactly for the record it names while that record is unknown or its interrupted dispatch is ambiguous; the outcome is success if and only if the verdict is success, then with the evidence's reference in the operation's own slot, and otherwise failure without a result |
| `Operations.SettlementIsTheHolders` | src/agnoclaw/runtime/operations.py:529-576 | a settlement is accepted exactly from the holder of the dispatch, or as a cancellation before any dispatch, and never into a foreign slot; its outcome and reference are the ones asked for, and only success has a slot |
| `OperationLedger.MutateExtendsHistory` | src/agnoclaw/runtime/store.py:2907-3040 | whatever is asked of an operation, its row and mutation table stay the fold of its committed mutations: an applied call is appended, and a refusal or a replay leaves them alone |
| `OperationLedger.HistoryCounts` | src/agnoclaw/runtime/store.py:2907-3040 | the revision of an operation is the number of its committed mutations and the size of its mutation table |
| `OperationLedger.FenceGrows` | src/agnoclaw/runtime/operations.py:462-529 | along the committed mutations of one operation the fence never decreases |
| `OperationLedger.DispatchFencesGrow` | src/agnoclaw/runtime/operations.py:462-492 | two dispatches of one operation never share a fence: the later one is larger |
| `Lifecycle.TerminalIsFinal` | src/agnoclaw/runtime/lifecycle.py:329-422 | a terminal run accepts nothing but a repeated cancellation of a cancelled run, which leaves it as it is; every other accepted transition adds one revision, keeps the identity, never reopens steering, and moves the run unless it only steers or repeats a cancel request |
| `Lifecycle.EnteredFrom` | src/agnoclaw/runtime/lifecycle.py:62-113 | from where and with what each state is entered: completion from running alone, cancellation after a request for it, a wait with a named request, back from a wait only by an answer that names the request |
| `Lifecycle.AnsweredRightAfterItsWait` | src/agnoclaw/runtime/lifecycle.py:354-371 | after any accepted transitions a response is accepted if and only if the last one was the wait that named its request; a wait that was paused can no longer be answered |
| `Lifecycle.SteeringStaysClosed` | src/agnoclaw/runtime/lifecycle.py:352-353 | once steering is closed no later transition that steers is ever accepted |
| `Lifecycle.CanReachIff` | src/agnoclaw/runtime/lifecycle.py:62-113 | an open run can reach every state but the first two, and those only forwards; in particular a run whose cancellation was requested can still complete |
| `RuntimeStore.ExecKeepsInv` | src/agnoclaw/runtime/store.py:1746-3040 | every store call, applied, refused or answered from a table, keeps: gapless event numbers for each run, one event for each stored row and none without, and each operation the fold of its mutations |
| `RuntimeStore.ReopenedStoreIsTheCommittedCalls` | scripts/sqlite_runtime_crash_probe.py:111-262 | over any sequence of calls cut by process deaths the reopened store is the effect of exactly the committed calls, each of which applies again on replay, and the log has grown by one event for each of them |
| `RuntimeStore.ReachableStore` | scripts/sqlite_runtime_crash_probe.py:164-262 | in every reachable store each row has exactly one event, events of a run are numbered from one, and an operation's revision counts its committed mutations |
| `RuntimeStore.RunFreezes` | src/agnoclaw/runtime/store.py:1746-3040 | nothing that was committed, start bindings, transition rows, mutation rows and their events, is ever rewritten by later calls and deaths |
| `RuntimeStore.RetryReturnsFirstDecision` | scripts/sqlite_runtime_crash_probe.py:164-262 | a retry with the same identity changes nothing and is answered with the first decision and event, whatever calls and deaths came between; a prepare or keyed create gets the current record with the first event, and a create without a key is refused |
| `RuntimeStore.ReusedIdentityIsRefused` | src/agnoclaw/runtime/store.py:2288-2297 | a start key, transition id, operation id or mutation id that was committed is refused for any other content, after any calls and deaths, and nothing changes |
| `RuntimeStore.StaleTransitionIsRefused` | src/agnoclaw/runtime/store.py:2332-2338 | an applied transition names the revision that the stored run had; a new one that names another is refused with the current revision and changes nothing |
| `RuntimeStore.OneTransitionPerRevision` | src/agnoclaw/runtime/store.py:2332-2387 | of all transitions sent against one revision of a run only the first is applied, whatever calls and deaths come between, also when the run is cancelled already and keeps its revision |
| `RuntimeStore.RunKeepsTerminals` | src/agnoclaw/runtime/store.py:2346-2352 | in every store whose runs are created open, a run is terminal if and only if it has a terminal record, and the record names the state it is in |
| `RuntimeStore.OverRunStays` | src/agnoclaw/runtime/store.py:2833-2905 | once a run is over its snapshot never changes and no operation is planned for it, in any sequence of calls and deaths |
| `SqliteStore.SqliteRuntimeStore.Create` | src/agnoclaw/runtime/store.py:1746-1955 | the in-place insert statements end in the specified state and answer, or, when the process dies after its event, in the state before the transaction |
| `SqliteStore.SqliteRuntimeStore.Transition` | src/agnoclaw/runtime/store.py:2261-2503 | the same for a lifecycle transition, with two crash points and the second terminal record refused after a write that is rolled back |
| `SqliteStore.SqliteRuntimeStore.PrepareOp` | src/agnoclaw/runtime/store.py:2833-2905 | the same for preparing an operation |
| `SqliteStore.SqliteRuntimeStore.MutateOp` | src/agnoclaw/runtime/store.py:2907-3040 | the same for the common path of begin, recover, settle and reconcile |
| `SqliteStore.Serve` | scripts/sqlite_runtime_crash_probe.py:111-262 | for any sequence of calls, each made by a process that opens the file and may die at some stage, the file ends as the effect of exactly the calls that committed, with one event for each, and a call whose process lives is answered |
| `EffectGateway.EffectsOfEverySchedule` | scripts/operation_effect_crash_probe.py:136-181 | for every schedule of executions, crashes, recoveries and retries: a read-only operation commits no effect, an idempotent one exactly one as soon as it is delivered, any other one effect for each delivery |
| `EffectGateway.SuccessWasDelivered` | scripts/operation_effect_crash_probe.py:268-399 | in every reachable state a succeeded operation has a committed delivery or a reconciliation row whose evidence says success, and a terminal record has the outcome and the reference that the settlement or the verdict of one of its rows names |
| `EffectGateway.ReplayIffSucceeded` | src/agnoclaw/runtime/gateway.py:302-330 | in every reachable state an execution that ended as a replay found the operation succeeded, and one that starts, or comes to its begin late, ends as a replay exactly if it has succeeded by then, leaving ledger and provider alone |
| `EffectGateway.ClosedOperationIsNotDispatched` | src/agnoclaw/runtime/gateway.py:302-367 | once an operation is terminal, or its interrupted dispatch is ambiguous, no execution that starts later delivers anything, and a settled outcome other than unknown never changes |
| `EffectGateway.SharedWorkerDeliversTwice` | src/agnoclaw/runtime/gateway.py:331-367 | two executions that read the planned record and share a worker identity both deliver: the gateway does not look at whether its begin was applied or replayed |
| `EffectGateway.AtMostOneDelivery` | src/agnoclaw/runtime/gateway.py:302-529 | an operation that must not be repeated is delivered at most once in every schedule if and only if no two executions share a worker identity |
| `EffectGateway.FailureIsUndelivered` | src/agnoclaw/runtime/gateway.py:368-448 | for an operation that must not be repeated, a failed or cancelled record without a reconciliation means in every reachable state that nothing was delivered, if and only if no two executions share a worker identity |
| `EffectGateway.EndOfADispatch` | src/agnoclaw/runtime/gateway.py:368-529 | in every reachable state, if the settlement of a dispatch is applied: one stopped before the callable is over without success, a raised one needs reconciliation exactly when its effect is ambiguous and is over otherwise, a returned one succeeded with its reference; one cancelled on the way, deferred or killed keeps its claim or, if ambiguous, needs reconciliation |
| `EffectGateway.AppliedIffHeld` | src/agnoclaw/runtime/gateway.py:480-529 | the settlement of a delivered execution is applied if and only if it still holds the dispatch, by revision and fence, and has not settled under this fence |
| `EffectGateway.RecoveryReopensExactlyReplayable` | src/agnoclaw/runtime/gateway.py:551-583 | a recovery with the current revision and next fence reopens an interrupted dispatch exactly when a repeat is harmless; otherwise the ledger stays and the action is to reconcile |
| `Gateway.HolderEnds` | src/agnoclaw/runtime/gateway.py:368-529 | whoever holds the dispatch of an operation, in any state, leaves it as its ending says (succeeded with the result, failed, cancelled, unknown or still dispatching) and with exactly the delivery its ending says |
| `Gateway.OperationGateway.Execute` | src/agnoclaw/runtime/gateway.py:302-529 | one call of the gateway, however it ends (returned, raised, cancelled, deferred or dead, before or after the effect), ends in the ledger and provider tables of the corresponding schedule; an operation found past planned reaches neither; a replayed value means a succeeded record of this intent, a fresh one a delivery by this call; a new operation ends in the state, with the delivery and with the answer of its ending |
| `Gateway.OperationGateway.Dispatch` | src/agnoclaw/runtime/gateway.py:368-529 | the part after the begin: cancellation, pre-dispatch check, callable and staging of its result, each with the settlement it leads to |
| `ToolLoop.RunKeepsInv` | scripts/agno_tool_checkpoint_restart_probe.py:174-306 | in every run of the tool loop with deaths, restarts and reconciliations: a step is stored only after all earlier ones succeeded and with the request the agent makes after their results, saved and in-memory results are the stored ones, and the output is that of an ended loop |
| `ToolLoop.EachStepLeavesOnce` | scripts/agno_tool_checkpoint_restart_probe.py:344-460 | in any run with any number of deaths every step is called outside at most once, and only after its dispatch was durable |
| `ToolLoop.RestartSparesDispatched` | scripts/agno_stack_restart_probe.py:427-543 | after a death a step whose dispatch is durable is never called again, whatever restarts follow: a restart calls only steps that were absent or still planned |
| `ToolLoop.RecoveredRunCompletes` | scripts/agno_stack_restart_probe.py:427-470 | from every reachable run left without a process, not over and not blocked, recovery under the unchanged specification completes it: the output is that of the uncrashed loop on the stored and the remaining results, stored results are kept, and exactly the steps that were absent or planned are called, once and in order |
| `ToolLoop.CompletableIffNoDeadStep` | scripts/agno_stack_restart_probe.py:427-543 | such a run, if its loop can still end within the safety scan, is completed by some continuation if and only if none of its steps ended without a result |
| `ToolLoop.CheckpointIsResumed` | scripts/agno_tool_checkpoint_restart_probe.py:344-424 | what a living process saved is the memory its recovery starts with |
| `ToolLoop.EvidenceDecidesTheRun` | src/agnoclaw/runtime/reconciliation.py:62-115 | evidence about the step that stranded a run decides it: an observed result becomes the step's result and the run can be resumed after it; a step found absent is dead |
| `ToolLoop.RaisedCallWaits` | src/agnoclaw/runtime/reconciliation.py:86-115 | a call whose outcome is not known leaves its step unknown and its run without a process, waiting for evidence, with nothing further called |
| `ToolLoop.OverRunStays` | src/agnoclaw/agent.py:7858-7892 | a completed or failed run keeps its status and makes no call in any continuation; only a running run has a process, and recovery never disturbs a living one |
| `ToolLoop.FailsOnlyBy` | src/agnoclaw/runtime/checkpoints.py:294-301 | in every run that fails, either some recovery named another specification, or one of its steps ended without a result; requests never conflict with the ledger and no step is begun twice |
| `ToolLoop.UnresolvedStepStopsTheRun` | src/agnoclaw/runtime/reconciliation.py:62-115 | a run with a step left dispatching or unknown makes no further call and changes no row until it is reconciled, and each recovery of it ends in waiting |
| `ToolLoop.FullScanNeverCompletes` | src/agnoclaw/runtime/reconciliation.py:47-83 | a run with as many operations as the safety scan reads, once its process is gone, makes no further call and never completes, whatever is reconciled and recovered |
| `ToolLoop.CompletesIffWithinScan` | src/agnoclaw/runtime/reconciliation.py:47-83 | a loop whose calls return given results can complete, with or without deaths, if and only if the run's operations stay below what the safety scan reads |
| `ToolLoop.ChangedSpecificationFailsTheRun` | scripts/agno_stack_restart_probe.py:427-543 | a recovery under a changed harness specification fails the run and makes no call |
| `ToolLoop.CompletedOutputIsUncrashed` | scripts/agno_tool_checkpoint_restart_probe.py:344-424 | the output of a completed run is what an uncrashed loop returns when its calls give the stored results |
| `ToolLoop.ResultsDetermineRows` | scripts/agno_tool_checkpoint_restart_probe.py:344-424 | two ledgers of one agent that store the same results are the same ledger |
| `ToolLoop.CompletedRunHasCrashFreeTwin` | scripts/agno_tool_checkpoint_restart_probe.py:426-460 | for every completed run there is a run without one death, restart or reconciliation that ends with the same status and the same ledger |
| `WriterAuthority.WriterAuthorityGuard.CheckGeneration` | src/agnoclaw/runtime/postgres_authority.py:167-184 | the remembered generation moves to the grant or stays, with the reason of a refusal, as the generation rules say |
| `WriterAuthority.WriterAuthorityGuard.Admit` | src/agnoclaw/runtime/postgres_authority.py:231-247 | admission succeeds exactly when generation, server identity and remaining lease allow it, is for the named server, and ends with its margin before the lease |
| `WriterAuthority.WriterAuthorityGuard.Revalidate` | src/agnoclaw/runtime/postgres_authority.py:249-265 | revalidation succeeds exactly when the grant read now is the admitted one and still allowed; any other accepted grant is refused as changed |
| `WriterAuthority.TimeoutEndsBeforeLease` | src/agnoclaw/runtime/postgres_authority.py:223-229 | a transaction is given time exactly when at least a millisecond is left before the margin and in the configured maximum; its limit, in whole milliseconds, ends at least the safety margin before the lease, within the maximum, and less than a millisecond short of that bound |
| `WriterAuthority.GuardNeverGoesBack` | src/agnoclaw/runtime/postgres_authority.py:150-185 | out of any grants, honest or not, one guard accepts only one authority, fences that never decrease, and one server for each fence |
| `WriterAuthority.AdmissionsOfAGuardFollow` | src/agnoclaw/runtime/postgres_authority.py:150-184 | in every interleaving a transaction that a guard admits or clears is under a generation not older than that of any transaction the same guard has admitted before |
| `WriterAuthority.ReadsFailClosed` | src/agnoclaw/runtime/postgres_authority_etcd.py:245-279 | each request of a bracketed read goes on if and only if the authority answers, the record is there and unchanged, and its lease is alive; otherwise the transaction is rolled back |
| `WriterAuthority.RunKeepsInv` | scripts/postgres_split_brain_authority_probe.py:330-467 | over every interleaving of grants, puts, revocations, expiries, outages, promotions and guarded transactions: every record read or remembered was written once under its own revision, and admitted transactions run on the server it names |
| `WriterAuthority.GoneStaysGone` | scripts/etcd_writer_authority_probe.py:200-222 | a generation of the authority record that was replaced, revoked or expired never comes back into force |
| `WriterAuthority.OutageStopsCommits` | scripts/postgres_split_brain_authority_probe.py:330-467 | while the authority is stopped its record stays as it is and no transaction that still needs its answer commits, whatever else happens |
| `WriterAuthority.GoesFromForceIff` | scripts/etcd_writer_authority_probe.py:200-222 | the record in force goes exactly by another put or by the end of its own lease |
| `WriterAuthority.EndedLeaseNeverCommits` | scripts/etcd_writer_authority_probe.py:200-222 | the end of a lease takes its record with it, and a transaction that has not made its last read by then never commits |
| `WriterAuthority.CommitHeldTheAuthority` | src/agnoclaw/runtime/postgres_authority_etcd.py:245-279 | if an admitted transaction commits in the end, the record in force at every moment from admission to its last read, open or revalidating, was the one of its admission and named its own server |
| `WriterAuthority.RevalidationSeesTheAdmission` | scripts/postgres_split_brain_authority_probe.py:428-451 | the last read of a transaction that commits is answered, by an authority that is up, with the record of its admission |
| `WriterAuthority.OpenTogetherNotBothCommitted` | scripts/postgres_split_brain_authority_probe.py:330-467 | of two guarded transactions open together on the two writable servers at most one can commit |
| `WriterAuthority.EqualFencesOneServer` | scripts/postgres_split_brain_authority_probe.py:330-467 | in every run each commit is on the server named by the record with its fence, and two commits with equal fences are on one server |
| `WriterAuthority.GuardOnlyRefusesStaleReads` | src/agnoclaw/runtime/postgres_authority.py:167-184 | against a linearizable record the generation check only ever refuses a grant that was read before a newer one was remembered; a conflict or a changed authority cannot occur |
| `WriterAuthority.QuietRunsCommitInFenceOrder` | src/agnoclaw/runtime/postgres_store.py:254-264 | fences never decrease along the commit order when every write of the record waits until no transaction is between its last read and its commit |
| `WriterAuthority.CommitOrderCanGoBack` | src/agnoclaw/runtime/postgres_store.py:254-264 | for any two guards there is a run from the start, with one handover between a last read and its commit, whose commits are not in the order of their fences |
| `WriterAuthority.HandoverIsSafeExactlyWhenNoneIsReady` | src/agnoclaw/runtime/postgres_store.py:254-264 | naming a writer keeps fences in commit order in every continuation without a further handover if and only if no transaction is between its last read and its commit |
| `WriterAuthorityTiming.TimelyRunsCommitInFenceOrder` | src/agnoclaw/runtime/postgres_authority.py:223-247 | with a clock: when a handover waits for the lease to end and the transaction timeout is set within the safety margin after the reading, commits are in the order of their fences in every run |
| `WriterAuthorityTiming.TimelyRunIsARun` | src/agnoclaw/runtime/postgres_authority.py:223-247 | a timely run takes exactly the steps of a run of the untimed model, so everything proved there holds for it; the clock only forbids |
| `WriterAuthorityTiming.TimelyCommitIsInForce` | src/agnoclaw/runtime/postgres_authority.py:223-247 | and each commit of such a run is made while the record names its server |
| `WriterAuthorityTiming.LateTimeoutOutlivesTheLease` | src/agnoclaw/runtime/postgres_authority.py:223-247 | a timeout set within the margin ends with the lease at the latest; one set a millisecond or more after the margin outlives it |
| `Lsn.PrintParses` | scripts/postgres_failover_probe.py:320-325 | parsing the two hexadecimal numbers of a printed log position gives high times 2^32 plus low, for all numbers |
| `Lsn.PositionReadIff` | scripts/postgres_failover_probe.py:320-325 | any ASCII text is read as a position if and only if it is two hexadecimal numbers around its first slash, each spelled in any of the accepted ways (blanks, sign, prefix, underscores, either case), and then as high times 2^32 plus low |
| `Lsn.IntegerOrderIsPairOrder` | scripts/postgres_failover_probe.py:320-325 | the parsed integers compare like the (high, low) pairs, against every proper position, exactly when the low part is below 2^32 |
| `Lsn.GuardComparesPositions` | scripts/postgres_failover_probe.py:363-369 | on printed positions the promotion guard passes exactly when the old writer is down and the replayed position has reached the acknowledged one |
| `Replication.NextKeepsInv` | scripts/postgres_role_rotation_probe.py:477-682 | every step of writing, shipping, replaying, acknowledging, killing, stopping, promoting, rewinding and rejoining keeps the protocol invariant and never shrinks what was promised |
| `Replication.GuardedRecordsSurviveRotations` | scripts/postgres_role_rotation_probe.py:477-682 | every record covered by the position given to a passed guard stays at its place in the durable log of both nodes, through any number of further rotations |
| `Replication.RemoteAcksSurvive` | scripts/postgres_synchronous_failover_probe.py:219-325 | a commit acknowledged under remote apply is in the durable log of both nodes when acknowledged and stays at its position in every continuation |
| `Replication.AbruptLossKeepsRemoteAcks` | scripts/postgres_synchronous_failover_probe.py:482-552 | killing the writer at any moment and promoting the standby, without asking any position, keeps every remote-apply acknowledgement at its position in the new writer |
| `Replication.AbruptLossKeepsExactlyWhatWasShipped` | scripts/postgres_synchronous_failover_probe.py:482-552 | any other commit survives that loss exactly when the standby had received it |
| `Replication.OneWriterInEveryRun` | scripts/postgres_failover_probe.py:363-369 | in every run at most one running node accepts writes |
| `Replication.UnguardedPromotionSplits` | scripts/postgres_failover_probe.py:363-369 | a promotion without its guard makes two writers exactly when the old writer is still up, and the guard refuses each such promotion |
| `Replication.RewindRemovesOnlyUnpromised` | scripts/postgres_role_rotation_probe.py:145-249 | a rewind removes only records that were never promised and leaves its target down, a standby, with a prefix of the source's log |
| `Replication.CleanRewindNeedsAStop` | scripts/postgres_role_rotation_probe.py:166-199 | in every run a rewind that requires a clean shutdown goes ahead if and only if source and target differ, the source runs, and the target was stopped, not killed, and nothing has happened to it since |
| `Replication.StandbyIsAPrefixOfItsWriter` | scripts/postgres_role_rotation_probe.py:252-278 | in every run a standby's log is a prefix of its writer's |
| `Replication.CanAcknowledgeIff` | scripts/postgres_synchronous_failover_probe.py:97-110 | in every reachable state a writer can still acknowledge a commit without being configured again if and only if its required standby is not itself |
| `Replication.NamesItselfIff` | scripts/postgres_role_rotation_probe.py:215-227 | a node comes to name itself exactly by being configured so or by a rewind, which copies the configuration, from a source that names it |
| `Replication.ConfiguredInOrderNeverBlocks` | scripts/postgres_role_rotation_probe.py:512-541 | in every run that configures after the rewind, as the rotation does, each writer can acknowledge |
| `Replication.RewindAfterConfigureBlocks` | scripts/postgres_role_rotation_probe.py:145-249 | a run from the start in the other order whose guarded promotion ends with a writer that can acknowledge nothing |
| `Topology.TwoNodes.CheckpointLsn` | scripts/postgres_role_rotation_probe.py:293-303 | the writer's whole log is made durable and its position noted |
| `Topology.TwoNodes.PromoteGuarded` | scripts/postgres_role_rotation_probe.py:362-378 | the node becomes the writer exactly when the guard passes, with the guard's reason otherwise, and then the other node is down |
| `Topology.TwoNodes.RewindTarget` | scripts/postgres_role_rotation_probe.py:145-249 | the target is rewound exactly when nodes differ, it is stopped, its source runs and a required clean shutdown took place, with the reason otherwise |
| `Topology.TwoNodes.StartRejoinedStandby` | scripts/postgres_role_rotation_probe.py:252-278 | only a rewound node is started, as a standby |
| `Topology.TwoNodes.Rotate` | scripts/postgres_role_rotation_probe.py:477-600 | one undisturbed rotation, after an abrupt or a clean stop, is never refused, swaps the roles, loses no record, and leaves both logs equal and all of it promised |
| `Topology.TwoNodes.RotateThereAndBack` | scripts/postgres_role_rotation_probe.py:477-682 | after the return rotation the first writer writes again and both nodes hold everything it wrote |
| `OptionalRewrite.ScanBracket` | scripts/generate_api_reference.py:36-55 | the in-place bracket scan with quotes and escapes ends where the specification says |
| `OptionalRewrite.RewriteOne` | scripts/generate_api_reference.py:35-62 | one round of the loop keeps the final text and moves the search position nearer to the end of the text, which makes the loop end on every text |
| `OptionalRewrite.NormalizeSignatureSyntax` | scripts/generate_api_reference.py:30-63 | the in-place loop returns the specified text for every input |
| `OptionalRewrite.RewriteKeepsSurplus` | scripts/generate_api_reference.py:35-62 | on every text each rewrite shortens it by exactly three characters and keeps the surplus of opening over closing square brackets |
| `OptionalRewrite.NormalizeKeepsSurplus` | scripts/generate_api_reference.py:30-63 | normalizing any text keeps its bracket surplus |
| `OptionalRewrite.UnchangedIffNoRewrite` | scripts/generate_api_reference.py:35-62 | a text stays as it is exactly when no marker in it is closed |
| `OptionalRewrite.TypingFreeIsKept` | scripts/generate_api_reference.py:32 | dropping the module prefix leaves a text alone exactly when it does not contain it |
| `OptionalRewrite.ScanExpr` | scripts/generate_api_reference.py:36-55 | the scan passes over the printing of any well-formed type expression and is at its depth again |
| `OptionalRewrite.RewritePrintsUnions` | scripts/generate_api_reference.py:35-62 | on the printed form of any well-bracketed type expression the loop returns the printing with each outermost optional type as a union and inner ones as they were |
| `OptionalRewrite.DropTypingUndoesQualify` | scripts/generate_api_reference.py:32 | dropping the module prefix undoes writing it in front of any characters of a text that has none |
| `OptionalRewrite.NormalizePrintsUnions` | scripts/generate_api_reference.py:30-63 | on the printing of any well-bracketed type expression, with any of its names qualified by their module, the whole normalization prints outermost optional types as unions |
| `OptionalRewrite.RewrittenNamesAreWholeIff` | scripts/generate_api_reference.py:35 | every marker rewritten in a printed expression is a whole name if and only if no name character stands directly before an outermost optional type |
| `OptionalRewrite.LongerNameIsRewrittenToo` | scripts/generate_api_reference.py:35 | any longer name that ends in the marker's word is rewritten like the marker |
| `OptionalRewrite.PeelKeepsForm` | scripts/generate_api_reference.py:35-62 | the result of a rewrite is the printing of an expression again, with optional types nested one level less |
| `OptionalRewrite.FixedAfterDepth` | scripts/generate_api_reference.py:35-62 | repeating the rewrite is final after n passes if and only if optional types are nested at most n deep |
| `OptionalRewrite.IdempotentUpToOneLevel` | scripts/generate_api_reference.py:57-62 | the rewrite is idempotent on a printed expression if and only if no optional type is inside another |
| `SignatureSplit.SplitSignature` | scripts/generate_api_reference.py:66-104 | the scanner loop with bracket stack, quote and escape state returns the specified split or refusal |
| `SignatureSplit.SplitsIffSource` | scripts/generate_api_reference.py:66-104 | a text splits into these parts and suffix if and only if it is "(" and raw pieces joined by commas and ")" and the suffix, each piece closed in quotes and brackets and without a top-level comma, and the parts are the stripped pieces, a blank last one dropped |
| `SignatureSplit.PieceIffFormed` | scripts/generate_api_reference.py:77-98 | without the scanner: a text is a piece if and only if it consists of characters, quoted strings with escapes, and groups in matching brackets nested in any way, with no comma and no round closing bracket outside of them |
| `SignatureSplit.StrippedPiece` | scripts/generate_api_reference.py:96-101 | stripping keeps a piece a piece |
| `SignatureSplit.LayoutReadsBack` | scripts/generate_api_reference.py:107-117 | printing the parts one a line and splitting again gives exactly the same parts and suffix, empty parts included |
| `SignatureSplit.FormattingKeepsTheSignature` | scripts/generate_api_reference.py:107-117 | formatting at any width never changes the parameters and suffix of a text, and leaves a text alone that is no signature |
| `SignatureSplit.AddressesVanish` | scripts/generate_api_reference.py:22-27 | every address of a printed object is dropped, whatever its digits are and wherever it stands, and what is around it is treated on its own |
| `SignatureSplit.KeptIffAddressFree` | scripts/generate_api_reference.py:22-27 | dropping addresses leaves a text as it is if and only if it contains none |
| `SignatureSplit.LaidOutIff` | scripts/generate_api_reference.py:107-117 | a text is laid out if and only if, after normalizing, it is longer than the width and a bracketed list with parameters; anything else is left as normalized |
| `SignatureSplit.OneParameterALine` | scripts/generate_api_reference.py:117 | the lines of a layout are the opening bracket, each parameter indented with its comma, and the closing bracket with the suffix |
| `DemoHost.Host.Apply` | examples/domain_harness/demo.py:90-113 | the transaction, cut short after any of its statements or not, ends in the specified tables and answer or in the tables from before it |
| `DemoHost.RunIsExplained` | examples/domain_harness/demo.py:64-113 | after any run of calls, stale revisions, reused keys and deaths the tables are the fold of a list of committed changes that extends the earlier one |
| `DemoHost.ReceiptsAreTheHistory` | examples/domain_harness/demo.py:64-113 | in every reachable state the revision is one plus the number of receipts, the receipts carry the revisions 2 to current exactly once each, and the revenue is that of the receipt with the highest revision |
| `DemoHost.RetryReturnsFirstResult` | examples/domain_harness/demo.py:94-100 | a committed call repeated after any run returns its first result and changes nothing, and its key with other arguments is refused and changes nothing |
| `DemoHost.FirstSavedContentStays` | examples/domain_harness/demo.py:82-88 | the content first saved under a digest is the one found there after any later run, and saving touches neither the deal nor its receipts |
| `DemoHost.AppliedIffNewAndCurrent` | examples/domain_harness/demo.py:90-113 | a call changes the tables if and only if its key is new and it names the current revision; a known key is answered or refused by its arguments, a new one against another revision is stale |
| `DemoHost.OneChangePerRevision` | examples/domain_harness/demo.py:101-107 | of all new keys sent against one revision only the first is applied, whatever calls and deaths come between |
| `DeepMerge.MergeDict` | examples/pe_risk_platform/deal_pack_builder.py:266-273 | the loop over the entries of the second document gives the merged document |
| `DeepMerge.MergeWithItself` | examples/pe_risk_platform/deal_pack_builder.py:266-273 | merging a document with itself gives it back |
| `DeepMerge.MergeAgain` | examples/pe_risk_platform/deal_pack_builder.py:266-273 | merging the same document a second time changes nothing |
| `DeepMerge.AbsorbedIff` | examples/pe_risk_platform/deal_pack_builder.py:266-273 | a document merged under another disappears exactly when each of its paths, down to a non-object, is decided by the other |
| `DeepMerge.AssociativeIffCompatible` | examples/pe_risk_platform/deal_pack_builder.py:266-273 | merging three documents is associative if and only if, wherever the outer two have objects and the middle one something else, the last decides everything the first says |
| `DeepMerge.MergedBlocks` | examples/pe_risk_platform/deal_pack_builder.py:266-273 | a merged document hides an object only where one of its parts does |
| `DeepMerge.FoldLaw` | examples/pe_risk_platform/deal_pack_builder.py:292-365 | merging attachments one by one onto the base equals merging their fold onto it, as long as none has a non-object where the base and a later one have objects |
| `AttachmentOrder.FoldLawIff` | examples/pe_risk_platform/deal_pack_builder.py:292-365 | merging any list of attachments one by one onto the base equals merging their fold onto it if and only if, at each object of the base: the values given to it end with a non-object, or are objects compatible with it in turn, or the objects behind the last non-object decide everything the base says |
| `DeepMerge.BlockingDocumentBreaksTheLaw` | examples/pe_risk_platform/deal_pack_builder.py:292-365 | a document that breaks the condition breaks the law, unless the last one decides everything anyway |
| `DeepMerge.NullHidesTheBase` | examples/pe_risk_platform/deal_pack_builder.py:292-365 | a concrete base and two attachments on which the two orders differ |
| `DeepMerge.MergeAttachments` | examples/pe_risk_platform/deal_pack_builder.py:292-365 | the loop over the attachments merges exactly the JSON objects, in order, and their fold onto the base |
| `DeepMerge.DocumentsInOrder` | examples/pe_risk_platform/deal_pack_builder.py:292-365 | the documents merged are the objects among the payloads, in their order |
| `QualityGate.ValidateSchema` | examples/pe_risk_platform/quality_gates.py:74-111 | the schema errors in order |
| `QualityGate.ValidIff` | examples/pe_risk_platform/quality_gates.py:74-111 | a pack has no schema error if and only if every required field is there at the top, in the debt package inside the transaction and in the metrics, both objects, and the two lists are lists or absent |
| `QualityGate.ComputeCompleteness` | examples/pe_risk_platform/quality_gates.py:114-160 | the rounded coverage and the missing fields, or the exception for a truthy value that is no dictionary |
| `QualityGate.PassesIffComplete` | examples/pe_risk_platform/quality_gates.py:163-192 | at threshold 1.0, and at any above 0.978, the gate passes if and only if the schema is valid and every required debt and metric field is a number |
| `QualityGate.MissingIsNotRoundedAway` | examples/pe_risk_platform/quality_gates.py:143-157 | one missing field costs more than rounding to three places gives back |
| `QualityGate.NoCriticalMissing` | examples/pe_risk_platform/quality_gates.py:50-59 | critical fields are among the required ones, so none is missing when all required fields are numbers |
| `QualityGate.FullerStillPasses` | examples/pe_risk_platform/quality_gates.py:163-192 | a pack with more fields passes every gate that the emptier one passes |
| `QualityGate.FillingKeepsThePass` | examples/pe_risk_platform/quality_gates.py:163-192 | filling in a metric or debt field never turns a pass into a failure, at any threshold |
| `QualityGate.GateRaisesIff` | examples/pe_risk_platform/quality_gates.py:114-116 | the gate raises, instead of failing, if and only if the transaction, the debt package inside an object transaction, or the metrics are a value that is neither empty nor an object; each of these is a schema error as well |
| `QualityGate.RunGate` | examples/pe_risk_platform/quality_gates.py:163-192 | the gate raises exactly on such a misplaced part, passes only packs with a valid schema, and near threshold one passes exactly the complete packs |
| `RiskScoring.ScoreFromUpperBounds` | examples/pe_risk_platform/scoring_engine.py:32-37 | the loop returns the score of the first bucket reached, or of the last |
| `RiskScoring.ScoreFromLowerBounds` | examples/pe_risk_platform/scoring_engine.py:40-45 | the same with lower bounds |
| `RiskScoring.LookupsTakeTheFirst` | examples/pe_risk_platform/scoring_engine.py:32-45 | a lookup takes the first bucket whose bound lets the value in, bounds included, or the last, for any thresholds |
| `RiskScoring.UpperRises` | examples/pe_risk_platform/scoring_engine.py:32-37 | with rising scores a larger value never scores lower, whatever the thresholds |
| `RiskScoring.LowerRises` | examples/pe_risk_platform/scoring_engine.py:40-45 | with lower bounds and rising scores a larger value never scores higher |
| `RiskScoring.SumLegalPenalty` | examples/pe_risk_platform/scoring_engine.py:125-137 | the legal flag accumulator |
| `RiskScoring.SumPenalties` | examples/pe_risk_platform/scoring_engine.py:203-210 | the severity counts and the raw penalty |
| `RiskScoring.CountsAreOccurrences` | examples/pe_risk_platform/scoring_engine.py:203-210 | the severity counts are how often each severity occurs, whatever the order of the flags |
| `RiskScoring.PenaltyIsCounted` | examples/pe_risk_platform/scoring_engine.py:203-210 | the raw penalty is each severity's penalty as often as that severity is counted |
| `RiskScoring.LegalPenaltyIsCounted` | examples/pe_risk_platform/scoring_engine.py:124-137 | the legal points are 18, 10, 5 and 2 for each legal flag of the four severities, and nothing for any other flag |
| `RiskScoring.SeverityIff` | examples/pe_risk_platform/scoring_engine.py:127-206 | a flag counts by the word of its severity in any capitalization, and not at all for any other word or value |
| `RiskScoring.FindBand` | examples/pe_risk_platform/scoring_engine.py:215-221 | the first band that reaches the score, or the severe default |
| `RiskScoring.BandIsTheFirst` | examples/pe_risk_platform/scoring_engine.py:215-221 | the band of a score is the first that reaches it, bounds included, and the severe default when none does |
| `RiskScoring.TotalGrows` | examples/pe_risk_platform/scoring_engine.py:203-212 | a superset of flags, in any order, weighs at least as much |
| `RiskScoring.DimensionsRise` | examples/pe_risk_platform/scoring_engine.py:52-181 | higher harmful and lower protective metrics with no lighter legal flags never lower one of the seven dimension scores |
| `RiskScoring.RiskierScoresHigher` | examples/pe_risk_platform/scoring_engine.py:52-222 | under one rubric with non-negative weights and penalties a deal riskier in every metric with a superset of flags scores at least as high in each dimension and in total and lands in the same band or a later one |
| `RiskScoring.CompositeInRange` | examples/pe_risk_platform/scoring_engine.py:28-29 | whatever the rubric the composite is between 0 and 100 |
| `RiskScoring.ScoredIff` | examples/pe_risk_platform/scoring_engine.py:184-198 | a pack is scored if and only if its schema is valid, its required fields are numbers, and its flags are a list of objects; the gate does not ask for the last |
| `RiskScoring.ScoredFieldsExist` | examples/pe_risk_platform/scoring_engine.py:52-196 | every metric and debt field the scoring reads is a number in every pack that passes the gate, so no read raises |
| `RiskScoring.ScorePack` | examples/pe_risk_platform/scoring_engine.py:184-237 | the whole call scores exactly the complete packs whose flags are a list of objects, with the score that the members on dimensions and composite speak of, and the composite it returns is between 0 and 100 |
| `RiskSensitivity.CompositeOfADeal` | examples/pe_risk_platform/scoring_engine.py:198-213 | without flags, all the weight on one dimension gives exactly that dimension's score, for each of the seven, and weights that share out one whole give a composite between the smallest and the largest dimension score |
| `RiskSensitivity.WeightIsTheSlope` | examples/pe_risk_platform/scoring_engine.py:201 | with shared-out weights a change of one dimension score moves the composite by its weight times the change, up to the rounding |
| `RiskSensitivity.FlagsAddAtMost15` | examples/pe_risk_platform/scoring_engine.py:203-213 | flags never lower the composite and add at most 15, whatever the weights |
| `RiskSensitivity.FlagsOfADeal` | examples/pe_risk_platform/scoring_engine.py:203-213 | flags whose penalties sum to a whole number add exactly three fifths of it to what the same dimension scores give without flags, at most 15, up to the score of 100 |
| `RiskSensitivity.MetricMovesItsDimension` | examples/pe_risk_platform/scoring_engine.py:52-181 | without legal flags a change of one of the 22 metrics leaves six dimension scores alone and moves its own by the metric's share of the change in its bucket score, up to the rounding |
| `RiskSensitivity.FieldMovesItsMetric` | examples/pe_risk_platform/scoring_engine.py:52-196 | two packs that agree in every scored field but one differ in the metric of that field alone, for each of the 22 fields in metrics and debt package |
| `RiskSensitivity.DimensionIsAMean` | examples/pe_risk_platform/scoring_engine.py:52-181 | without legal flags each dimension score lies between the smallest and the largest bucket score of the metrics it reads |
| `RiskSensitivity.LegalFlagsAdd` | examples/pe_risk_platform/scoring_engine.py:124-140 | flags move no dimension but the legal one, never down, and by seven tenths of their points, of which 25 count at most, up to the score of 100 and the rounding |
| `Rounding.RoundEvenMonotone` | examples/pe_risk_platform/scoring_engine.py:68 | rounding never reverses an order |
| `Rounding.Round1Shifts` | examples/pe_risk_platform/scoring_engine.py:213 | an even number of tenths passes through the rounding to one place unchanged, ties included |
| `RubricWeights.SetWeightRenormalized` | examples/pe_risk_platform/rubric_tools.py:19-56 | the loops over the copied dictionary give the specified weights or error |
| `RubricWeights.SetIff` | examples/pe_risk_platform/rubric_tools.py:19-34 | a weight is set, and no dimension added or dropped, if and only if the dimension is known and the value is from zero to one |
| `RubricWeights.TotalIsOne` | examples/pe_risk_platform/rubric_tools.py:19-56 | with two or more dimensions, and any weights at all, the total is exactly one and the chosen value is kept |
| `RubricWeights.WeightsStayNonNegative` | examples/pe_risk_platform/rubric_tools.py:19-56 | non-negative weights stay non-negative |
| `RubricWeights.RatiosAreKept` | examples/pe_risk_platform/rubric_tools.py:35-38 | the other weights keep their ratios when their sum is positive |
| `RubricWeights.SingleDimension` | examples/pe_risk_platform/rubric_tools.py:46-52 | with one dimension the cleanup makes every value but zero one, so the chosen value is kept only if it is zero or one |
| `RubricWeights.TwiceIsSecondIff` | examples/pe_risk_platform/rubric_tools.py:19-56 | setting one dimension twice equals the second value alone if and only if the first was below one, or the second is one, or the others have no positive sum, or they are all equal |
| `OverflowSearch.IsContextOverflowException` | src/agnoclaw/context_overflow.py:16-38 | the worklist loop ends on every exception graph, cycles included, with the specified answer |
| `OverflowSearch.YesIsRight` | src/agnoclaw/context_overflow.py:16-38 | a positive answer means that an overflow is reachable |
| `OverflowSearch.ExactUpToTwelve` | src/agnoclaw/context_overflow.py:16-38 | with at most twelve distinct reachable exceptions the answer is positive if and only if an overflow is reachable |
| `OverflowSearch.FoundIffAmongFirstTwelve` | src/agnoclaw/context_overflow.py:16-38 | on every graph the answer is positive if and only if an overflow is among the first twelve distinct exceptions in visiting order |
| `OverflowSearch.VisitedAsInOrder` | src/agnoclaw/context_overflow.py:22-37 | which exception is visited after k others does not depend on how many are asked for |
| `OverflowSearch.ExactUpToIffTwelve` | src/agnoclaw/context_overflow.py:20 | the answer is right on every graph with at most n reachable exceptions if and only if n is at most twelve |
| `OverflowSearch.ChainFoundIffAmongTwelve` | src/agnoclaw/context_overflow.py:20 | in a row of exceptions the overflow at the end is found if and only if it is among the first twelve |
| `ArchiveSeeding.SeedCounts` | scripts/benchmark_learning_evaluation_archive.py:109-117 | the counting loop leaves counts that sum to the history size, and each candidate its own count and its own last evaluation |
| `ArchiveSeeding.LatestEvaluation` | scripts/benchmark_learning_evaluation_archive.py:109-146 | the last evaluation of candidate i is number i + (count - 1) * c, the largest index below the history size with its remainder |
| `ArchiveSeeding.EveryCandidateIsEvaluated` | scripts/benchmark_learning_evaluation_archive.py:109-117 | every candidate has at least one evaluation |
| `ArchiveSeeding.QueryPair` | scripts/benchmark_learning_evaluation_archive.py:257-296 | the two page reads succeed if and only if twice the limit is at most the number of every-fourth rows, and otherwise name the page that is short |
| `ArchiveSeeding.PairOfPages` | src/agnoclaw/learning_postgres.py:1176-1260 | the second page is the matches that follow the first, shares none with it, and the cursor is there exactly when something follows |
| `ArchiveSeeding.AllowedLimitFillsTwoPages` | scripts/benchmark_learning_evaluation_archive.py:413-426 | every page limit the arguments allow fills two disjoint pages with a cursor after the first |

Each `...Iff...` member states both directions. Functions such as `RuntimeStore.Exec`,
`WriterAuthority.Next`, `Replication.Next`, `OptionalRewrite.Rewrite` or `SignatureSplit.Split`
are the specifications these members speak of; they follow the cited code branch by branch.

## Left out

- Digests and canonical JSON: injective, so the value stands for its digest; mutation ids that the gateway formats from an operation, an attempt and a fence are a datatype.
- Identifier grammars, timestamps, event ids and payloads, owners, artifacts and outbox rows of the store: they do not decide any branch that is modelled.
- Approvals, children, leases and scheduling in the store: a transition that needs an approval record is refused in the model.
- Operations.VerdictDecides: the error code that tells an absent effect from an external failure is not modelled.
- SQL, Docker, TLS, HTTP and authentication: replaced by atomic steps on tables, logs and records.
- Elapsed time outside `WriterAuthorityTiming`: a lease ends, a limit is reached or a process dies at any moment. There the provider's answer is taken never to overstate what remains of a lease, which is what its subtraction of elapsed time and uncertainty is for, and a lease ends by expiry, not by revocation.
- SqliteStore.SqliteRuntimeStore.Create: creation of a child run under its parent is not modelled.
- SqliteStore.SqliteRuntimeStore.Transition: approval and child rows of the transaction are not modelled.
- ToolLoop: the agent is a function of the results so far; model messages and tool arguments are its request strings, and one process at a time drives a run, as the run lease requires. A stalled process beside its successor is, for each single step, the subject of `EffectGateway`, whose executions belong to any processes.
- Gateway.OperationGateway.Execute: does not interleave with other executions; interleavings are the subject of `EffectGateway`, of whose schedules it is proved to be one. Caching and loading of stored results are not modelled.
- Topology.TwoNodes.Rotate: assumes nobody writes during the rotation; runs with writes, partitions and deaths in between are the subject of `Replication`.
- Replication: a log is a sequence of commit records and a position is their number; timelines are represented by the prefix relation, and the bytes of a record and its page layout are not.
- Starting a fenced writer without rewinding it: the rotation program never does, so it is not a step.
- Lsn.PrintParses: parsing is modelled on ASCII text; other Unicode digits and blanks, which the source's integer parser also accepts, are not.
- RiskScoring, RubricWeights, QualityGate: reals with rounding half to even instead of floating point; rubrics and weights are assumed to have their documented fields and numeric values, and the three top score drivers are not modelled.
- DeepMerge.MergeDict: the order of keys in a dictionary is not modelled.
- OverflowSearch.IsContextOverflowException: whether an object is of an exception type, and what the provider's classifier answers, are fields of the modelled exception.
- ArchiveSeeding.QueryPair: one owner's history with distinct timestamps; the owner check and the other filters of the query do not exclude any seeded row.
- Text extraction from attachments, skills, prompts, models, embeddings, argument parsing and reports.
