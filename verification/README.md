# Lending an accelerator: a verified model

The repository is a control plane that lends a whole accelerator from one reinforcement-learning task to another and takes it
back (DONATE, ADD, REMOVE, RESTORE). State is split over single-writer owners, progress is driven by evidence, replies may be
lost and the same operation id may be replayed. This project models those owners and the protocol between them and proves what
keeps the lending safe. `dafny verify dfyconfig.toml` checks everything.

## Structure

One module per component, values first and the object that updates its fields beside them:

- `Contracts` holds the values that cross component boundaries.
- `LeaseLedger` and `Scheduler` are the GroupScheduler (GS); `LedgerWitness` is a run that needs its hypothesis.
- `AttemptLedger` and `RouterActor` are the request router (R); `ForceExit` is FORCE REMOVE over it.
- `ReplicaLedger` and `ManagerOwner` are the replica manager (M); `Membership` and `MembershipOwner` are checkpoint-engine
  membership (E); `Manifest` is the parameter audit of the same source file.
- `SyncGate` is the synchronisation gate (G), `Journal` the operation journal and the TaskRunner's launch logic.
- `MessageQueue` is the exactly-once ledger, `HttpServer` the sleep and admission stages.
- `Publication`, `PublicationOwners`, `PublicationWorker`, `PublicationSafety` and `PublicationWitness` compose M, E, R and G with
  the TaskRunner, Trainer and Rollouter methods of one task: a worker that moves from one remote call to the next. `Lifecycle` is
  that worker as sequential code, with the source's methods, flags and handlers; every execution of it is a run of the system.
- `Residency`, `ResidencyBook`, `ResidencyProof` and `ResidencySafety` put all tasks together with the ledger and the evidence in
  flight; `ResidencyWitness` is a lending from end to end in which their hypotheses hold.
- `OwnerRefinement` shows that the owners inside `Publication` do what the owners' own ledgers do, and `ResidencyOwners` that M and the
  journal take only steps `Residency` allows.

Classes state their whole new state as a function of the old one; the theorems are about those functions and about runs.

## Assumptions

- A remote call runs at most once. It may not run, be refused, break inside the callee, or run and lose its reply; its caller
  learns of a failure only when the call has ended or never will run. Calls of one caller to one actor keep their order.
- A replayed message may arrive at any time and any number of times; evidence is never forged. Sleep and destroy receipts are
  honest. Every native replica sits on one fixed accelerator and no two share one.
- At most one DONATE per lease, where a statement says so. The ledger itself does not enforce it.
- The native parent classes are modelled from the repository's own stand-ins: router pool and checkpoint parent in
  `tests/unit/_wiring_support.py`, queue parent in `tests/unit/test_message_queue_exactly_once.py`. They are not in the repository.
- The manifest digest is injective on canonical lists. Server addresses are unique to a replica.
- Exceptions are the value `Err` or a failing outcome; what had been written before the exception stays written.

## Where the code falls short of its promise

Each is stated as an exact condition with a run that reaches it.

- SERVICE_COMMITTED for ADD or RESTORE can be accepted although the target has no route, exactly when M is already DRAINING: the
  router's negative answer was lost and the replay reconciles through the exit branch (`CommittedMeansRouted`,
  `CommittedButUnrouted`).
- An ADD's rollback can then destroy a runtime that is still an effective member, exactly when M is DRAINING
  (`ReleaseComesLast`, `EffectiveMemberDestroyed`). It is never routed.
- A replayed RESTORE can be answered RELEASED while its native is awake, exactly when the same operation was answered before
  (`ReleaseComesLast`, `AwakeAfterRelease`). Single residency survives it.
- A second DONATE of a lease can leave it handed off without ownership (`HandoffOwnershipStep`, `SecondDonateLosesOwnership`).
- A request admitted under the empty id can never be settled, because its release names no request; its server drains but is never
  removed (`DrainProgress`, `EmptyIdIsNeverSettled`).
- The mismatch report tells lists from tuples while the digest does not (`SilentExactlyWhenCanonicalAgrees`, `ListAndTupleDiffer`).
- Sequence numbers are shared when a failed commit leaves a reservation visible (`NumbersStayUnique`, `NumberIsShared`).
- A wake with both tags, or a KV wake after a lost reply, reopens admission without the weights stage (`ReopensOnlyByBypass`,
  `BothTagsBypass`, `LostReplyBypasses`). The control plane uses neither.

## Model

| member | source | states |
|---|---|---|
| `ResidencySafety.SingleResidency` | src/multi_task_scheduler/integration/verl/experimental_fully_async/task_runner.py:253-435 | In every run of any number of tasks, with lost and repeated evidence, UNKNOWN outcomes, rollbacks and replays, no accelerator hosts an awake native and a live borrowed runtime at once, given one native per accelerator and at most one DONATE per lease. |
| `ResidencySafety.OneBorrowerPerGpu` | src/multi_task_scheduler/scheduler/group_scheduler.py:139-230 | Under the same hypotheses two live borrowed runtimes never share an accelerator, and each runs on a handed-off lease that owns every GPU and bundle it claims. |
| `ResidencyWitness.LendingHappens` | src/multi_task_scheduler/integration/verl/experimental_fully_async/task_runner.py:253-435 | A run from the start reaches a live borrowed runtime on a sleeping native's accelerator with every hypothesis of the residency theorems met. |
| `ResidencyWitness.EvidenceIsAcceptable` | src/multi_task_scheduler/scheduler/group_scheduler.py:305-463 | In that run DONATE's evidence before its delivery, and ADD's after its rollback, meet everything the acceptance lemmas require. |
| `ResidencySafety.StepSound` | src/multi_task_scheduler/scheduler/group_scheduler.py:111-463 | Every call, message delivery and task step keeps the ledger, the lease phases and the agreement between ledger and tasks. |
| `ResidencySafety.DeliverSound` | src/multi_task_scheduler/scheduler/group_scheduler.py:305-463 | Delivering any evidence ever sent, in any order and any number of times, keeps the agreement. |
| `ResidencyProof.LiveIsLent` | src/multi_task_scheduler/scheduler/group_scheduler.py:140-203 | A live borrowed runtime's lease is handed off. |
| `ResidencyProof.AddIsLent` | src/multi_task_scheduler/scheduler/group_scheduler.py:397-430 | The lease of an ADD that is still at work and unanswered is handed off, so its rollback cannot free another operation's hardware. |
| `ResidencyProof.StagedRestoreIsFree` | src/multi_task_scheduler/scheduler/group_scheduler.py:185-230 | When a staged RESTORE begins, no handed-off lease covers its native's accelerator. |
| `ResidencyProof.DonateIsNative` | src/multi_task_scheduler/scheduler/group_scheduler.py:431-463 | DONATE evidence the ledger accepts comes from a native that was put to sleep and is still asleep, never from a destroyed borrowed runtime. |
| `ResidencyProof.HasBase` | src/multi_task_scheduler/integration/verl/experimental_fully_async/llm_server_manager.py:558-600 | RELEASED evidence of an ADD or REMOVE that the ledger accepts is about a handed-off lease with the same claims, whose runtime this operation destroyed or settled. |
| `ResidencyProof.StillNotCreatable` | src/multi_task_scheduler/integration/verl/experimental_fully_async/llm_server_manager.py:374-410 | Once a lease can no longer be turned into a runtime it never can be: records and keys stay, and lease expiry is not undone. |
| `ResidencyProof.DestroyKeeps` | src/multi_task_scheduler/integration/verl/experimental_fully_async/llm_server_manager.py:558-600 | Destroying a borrowed runtime and answering for it keeps the agreement; only the first destroyer is ever answered. |
| `ResidencyProof.WakeAnswers` | src/multi_task_scheduler/integration/verl/experimental_fully_async/task_runner.py:406-412 | Waking a native for RESTORE never contradicts a DONATE answer that is still on its way, because one task runs one operation at a time. |
| `ResidencyProof.ExitIsForeign` | src/multi_task_scheduler/integration/verl/experimental_fully_async/rollouter.py:647-830 | A REMOVE that puts a native to sleep is never one whose own lease claims that native's accelerator, so its answer is never accepted. |
| `ResidencyBook.FactsHold` | src/multi_task_scheduler/scheduler/group_scheduler.py:111-463 | In every ledger run with one DONATE per lease: holders are exclusive, handed-off leases hold and have no RESTORE, one ADD per lease, REMOVE targets that ADD's replica, DONATE and RESTORE of a lease target one native. |
| `ResidencyBook.AdvanceBook` | src/multi_task_scheduler/scheduler/group_scheduler.py:341-463 | What accepted evidence does to recorded operations, handed-off leases and holders. |
| `PublicationSafety.RoutedIsEffective` | src/multi_task_scheduler/integration/verl/experimental_fully_async/trainer.py:131-582 | On every ADD, RESTORE, REMOVE, DONATE, rollback and reconciliation path, with any failures and lost replies, a server in the router pool is an effective checkpoint member, live in M, with its runtime up; every admitted request has a route. |
| `PublicationSafety.ReleaseComesLast` | src/multi_task_scheduler/integration/verl/experimental_fully_async/rollouter.py:1063-1112 | Whenever finalize_release answers, its target has no route and no admitted request. It is still an effective member if and only if an ADD rolls back a DRAINING target, and it is down unless M answers a native release from evidence the same operation had already earned. |
| `PublicationSafety.CommittedMeansRouted` | src/multi_task_scheduler/integration/verl/experimental_fully_async/rollouter.py:934-1061 | SERVICE_COMMITTED accepted for ADD or RESTORE: the target is effective, and it is routed and pooled if and only if M is not DRAINING; for DONATE and REMOVE it has left E and R. |
| `PublicationSafety.WorkKeepsInv` | src/multi_task_scheduler/integration/verl/experimental_fully_async/task_runner.py:253-461 | Every outcome of every remote call of the lifecycle worker keeps the owners' agreement, the worker's knowledge and the history. |
| `PublicationSafety.StepKeepsInv` | src/multi_task_scheduler/integration/verl/experimental_fully_async/trainer.py:64-122 | So do submissions, replays, native synchronisation, training and request traffic. |
| `PublicationSafety.ReleaseRight` | src/multi_task_scheduler/integration/verl/experimental_fully_async/rollouter.py:1063-1112 | At each of the three places that release a runtime the target is out of R with nothing admitted, and its membership in E is decided by M's state. |
| `PublicationSafety.AnswerIsRight` | src/multi_task_scheduler/integration/verl/experimental_fully_async/trainer.py:267-306 | What SERVICE_COMMITTED says about E, R and M at the moment the Trainer accepts it. |
| `PublicationOwners.CommitAgree` | src/multi_task_scheduler/rollout/load_balancer.py:165-211 | Opening a route keeps the agreement of M, E and R provided the replica is ACTIVE, effective and not draining. |
| `PublicationOwners.RemoveAgree` | src/multi_task_scheduler/checkpoint/checkpoint_engine_manager.py:155-166 | A member may leave E without breaking that agreement once it is out of the serving pool. |
| `PublicationOwners.FinishAgree` | src/multi_task_scheduler/rollout/load_balancer.py:249-274 | Removing a route keeps the agreement once nothing is admitted on it. |
| `PublicationOwners.ReleaseAgree` | src/multi_task_scheduler/integration/verl/experimental_fully_async/rollouter.py:1084-1106 | Closing M after a release keeps the agreement once the replica has no route. |
| `PublicationWorker.PrepareAddKeeps` | src/multi_task_scheduler/integration/verl/experimental_fully_async/rollouter.py:538-617 | Whatever prepare_replica's creation does, an ADD goes on only with a target it created itself. |
| `PublicationWorker.EnterGateKeeps` | src/multi_task_scheduler/integration/verl/experimental_fully_async/trainer.py:202-228 | The worker reconciles only a gate its own operation blocked and otherwise opens only a healthy one. |
| `PublicationWorker.BootstrapKeeps` | src/multi_task_scheduler/checkpoint/checkpoint_engine_manager.py:365-628 | Every outcome of target bootstrap leaves the target hidden; a failed RESTORE is asleep again or fenced. |
| `PublicationWorker.PromoteKeeps` | src/multi_task_scheduler/integration/verl/experimental_fully_async/trainer.py:254-261 | The target enters E before any route can open. |
| `PublicationWorker.CommitServiceKeeps` | src/multi_task_scheduler/integration/verl/experimental_fully_async/rollouter.py:934-1042 | Each branch of commit_service_change by M's state. |
| `PublicationWorker.PublishRouteKeeps` | src/multi_task_scheduler/integration/verl/experimental_fully_async/rollouter.py:896-932 | Publication, or doubt about it, of an effective ACTIVE target. |
| `PublicationWorker.ResolveDoubtKeeps` | src/multi_task_scheduler/integration/verl/experimental_fully_async/rollouter.py:915-932 | A publication the router denies leaves no route behind, so E can be withdrawn. |
| `PublicationWorker.WithdrawKeeps` | src/multi_task_scheduler/integration/verl/experimental_fully_async/trainer.py:267-284 | E is withdrawn only for a target without a route; RESTORE parks it again. |
| `PublicationWorker.RollBackKeeps` | src/multi_task_scheduler/integration/verl/experimental_fully_async/trainer.py:307-343 | The ADD rollback releases a hidden target or fences the gate under its own operation. |
| `PublicationWorker.QuarantineKeeps` | src/multi_task_scheduler/integration/verl/experimental_fully_async/trainer.py:567-582 | A failed RESTORE is projected to QUARANTINED where M is still DORMANT, and the gate is fenced. |
| `PublicationWorker.ReconcileExitKeeps` | src/multi_task_scheduler/integration/verl/experimental_fully_async/trainer.py:352-394 | Only an exit that has already left E reconciles its fence. |
| `PublicationWorker.BeginDrainKeeps` | src/multi_task_scheduler/integration/verl/experimental_fully_async/rollouter.py:635-645 | After begin_drain the target is routed but out of the pool. |
| `PublicationWorker.RemoveMemberKeeps` | src/multi_task_scheduler/integration/verl/experimental_fully_async/trainer.py:396-452 | remove_and_commit takes a drained target out of E, parks a native one, and goes on to the router. |
| `PublicationWorker.ReleaseExitKeeps` | src/multi_task_scheduler/integration/verl/experimental_fully_async/task_runner.py:398-404 | The last release of an exit, with its lost replies. |
| `PublicationWitness.CommittedButUnrouted` | src/multi_task_scheduler/integration/verl/experimental_fully_async/rollouter.py:1039-1061 | A run in which an ADD is answered SERVICE_COMMITTED while its replica has no route: the negative answer was lost and reconciliation took the exit branch. |
| `PublicationWitness.EffectiveMemberDestroyed` | src/multi_task_scheduler/integration/verl/experimental_fully_async/trainer.py:307-343 | The continuation in which the replay's rollback destroys a runtime that is still an effective member. |
| `PublicationWitness.AwakeAfterRelease` | src/multi_task_scheduler/integration/verl/experimental_fully_async/llm_server_manager.py:531-556 | A run in which a replayed RESTORE is answered RELEASED from old evidence while the native stays awake behind a DORMANT state. |
| `Lifecycle.TaskRunner.ExecuteOperation` | src/multi_task_scheduler/integration/verl/experimental_fully_async/task_runner.py:253-461 | Every execution of the operation body, with any fates and interleavings, is a run of the composed system; in a task that began well every routed server is then an effective member and nothing routed or busy was released. |
| `Lifecycle.TaskRunner.ExecuteAdd` | src/multi_task_scheduler/integration/verl/experimental_fully_async/task_runner.py:272-309 | The ADD branch, as a run. |
| `Lifecycle.TaskRunner.ExecuteRestore` | src/multi_task_scheduler/integration/verl/experimental_fully_async/task_runner.py:406-427 | The RESTORE branch, as a run. |
| `Lifecycle.TaskRunner.ExecuteExit` | src/multi_task_scheduler/integration/verl/experimental_fully_async/task_runner.py:311-404 | The DONATE and REMOVE branch with its replay query, reconciliation and preflight handler, as a run. |
| `Lifecycle.TaskRunner.QueryRelease` | src/multi_task_scheduler/integration/verl/experimental_fully_async/task_runner.py:312-335 | A replayed exit first asks M, and closes at once if it was released before. |
| `Lifecycle.Trainer.BootstrapAndPublish` | src/multi_task_scheduler/integration/verl/experimental_fully_async/trainer.py:202-350 | The method with its flags and handlers is a run; it returns evidence, waits for the gate, or raises with the operation UNKNOWN. |
| `Lifecycle.Trainer.RestoreAndPublish` | src/multi_task_scheduler/integration/verl/experimental_fully_async/trainer.py:454-582 | The method with its handler is a run; a failure after the first change fences the gate. |
| `Lifecycle.Trainer.RemoveAndCommit` | src/multi_task_scheduler/integration/verl/experimental_fully_async/trainer.py:396-452 | The method is a run; a failure after E was changed fences the gate, one before it does not. |
| `Lifecycle.Trainer.ReconcileExit` | src/multi_task_scheduler/integration/verl/experimental_fully_async/trainer.py:352-394 | Only an exit that has left E settles its own fence. |
| `Lifecycle.Trainer.OpenGate` | src/multi_task_scheduler/integration/verl/experimental_fully_async/trainer.py:131-228 | Reconcile a gate this operation blocked, else acquire a healthy one, else raise or wait. |
| `Lifecycle.Trainer.PublishOrWithdraw` | src/multi_task_scheduler/integration/verl/experimental_fully_async/trainer.py:258-306 | From commit_service_change on: evidence, withdrawal with release, or an exception for the caller's handler. |
| `Lifecycle.Trainer.BootstrapTarget` | src/multi_task_scheduler/checkpoint/checkpoint_engine_manager.py:365-628 | The bootstrap outcomes of ADD and RESTORE. |
| `Lifecycle.Trainer.RollBackAdd` | src/multi_task_scheduler/integration/verl/experimental_fully_async/trainer.py:307-343 | The ADD handler before E was committed: released and returned, or fenced. |
| `Lifecycle.Trainer.FenceRestore` | src/multi_task_scheduler/integration/verl/experimental_fully_async/trainer.py:567-582 | RESTORE's handler quarantines a DORMANT replica where it can and fences the gate. |
| `Lifecycle.Rollouter.CommitServiceChange` | src/multi_task_scheduler/integration/verl/experimental_fully_async/rollouter.py:934-1061 | The method is a run to one of its three answers, or leaves its caller exactly the state the handler starts from. |
| `Lifecycle.Rollouter.FinalizeRelease` | src/multi_task_scheduler/integration/verl/experimental_fully_async/rollouter.py:1063-1112 | Closes M and the binding exactly when the release is proved, quarantines when it is not, and otherwise changes nothing. |
| `Lifecycle.Rollouter.PrepareAdd` | src/multi_task_scheduler/integration/verl/experimental_fully_async/rollouter.py:538-617 | The method is a run that ends prepared, answered RELEASED, or UNKNOWN. |
| `Lifecycle.Rollouter.PrepareRestore` | src/multi_task_scheduler/integration/verl/experimental_fully_async/rollouter.py:563-582 | The method is a run that ends bound to a DORMANT native, reconciling, or UNKNOWN. |
| `Lifecycle.Rollouter.PrepareExit` | src/multi_task_scheduler/integration/verl/experimental_fully_async/rollouter.py:647-830 | prepare_exit without FORCE's abort and hand-off wait is a run that ends drained, UNKNOWN, or rejected without a binding. |
| `Scheduler.GroupScheduler.AttachTask` | src/multi_task_scheduler/scheduler/group_scheduler.py:58-66 | Attaches a task or replays the same handle; an empty task id or another handle is refused without effect. |
| `Scheduler.GroupScheduler.DetachTask` | src/multi_task_scheduler/scheduler/group_scheduler.py:68-72 | Forgets the runner and its idle report. |
| `Scheduler.GroupScheduler.SubmitIdleReport` | src/multi_task_scheduler/scheduler/group_scheduler.py:77-109 | Stores a report of an attached task whose candidates are its own and distinct, and nothing otherwise. |
| `Scheduler.GroupScheduler.OpenLease` | src/multi_task_scheduler/scheduler/group_scheduler.py:259-303 | Opens or replays a lease exactly when none of its claims is foreign; a rejected call changes nothing. |
| `Scheduler.GroupScheduler.SubmitOperation` | src/multi_task_scheduler/scheduler/group_scheduler.py:111-249 | Stages a command exactly when it is an exact replay or passes the phase checks and its task is attached; a rejected call changes nothing. |
| `Scheduler.GroupScheduler.AdvanceLease` | src/multi_task_scheduler/scheduler/group_scheduler.py:305-463 | Accepts exactly the evidence the ledger allows, with its acknowledgement; a rejected call changes nothing. |
| `Scheduler.GroupScheduler.MayStageNow` | src/multi_task_scheduler/scheduler/group_scheduler.py:139-203 | The phase checks of the four kinds, computed over the owner maps. |
| `Scheduler.GroupScheduler.MayOpen` | src/multi_task_scheduler/scheduler/group_scheduler.py:276-293 | No claim id, bundle or GPU of the lease belongs to another lease. |
| `LeaseLedger.ClaimsConserved` | src/multi_task_scheduler/scheduler/group_scheduler.py:216-230 | In every run a lease holds all of its GPUs and bundles or none, and the owned keys are exactly the disjoint union of the holders' claims. |
| `LeaseLedger.ClaimIdsNeverReassigned` | src/multi_task_scheduler/scheduler/group_scheduler.py:259-303 | A claim id belongs for ever to the lease that first used it; leases, commands and evidence only grow. |
| `LeaseLedger.AcceptedEvidenceIsFinal` | src/multi_task_scheduler/scheduler/group_scheduler.py:305-340 | Once accepted, evidence gets the same acknowledgement at every later state and changes nothing, and other evidence for the operation is always rejected. |
| `LeaseLedger.HandoffImpliesOwnership` | src/multi_task_scheduler/scheduler/group_scheduler.py:140-203 | With one DONATE per lease a handed-off lease owns all it claims and has no RESTORE staged, so every ADD is staged over exclusively reserved hardware. |
| `LeaseLedger.HandoffOwnershipStep` | src/multi_task_scheduler/scheduler/group_scheduler.py:341-457 | Without that hypothesis accepted evidence keeps ownership of handed-off leases if and only if it is not a DONATE of a lease that holds nothing nor a RESTORE compensation of a handed-off lease. |
| `LeaseLedger.HandoffKeptElsewhere` | src/multi_task_scheduler/scheduler/group_scheduler.py:58-463 | Every other call, and evidence that is rejected or merely acknowledged again, keeps ownership of handed-off leases. |
| `LeaseLedger.AdvancedConserves` | src/multi_task_scheduler/scheduler/group_scheduler.py:341-457 | Accepted evidence changes the holders by at most its own lease: DONATE keeps it, the others take it out. |
| `LeaseLedger.StageConserves` | src/multi_task_scheduler/scheduler/group_scheduler.py:216-230 | Staging RESTORE makes exactly its lease a holder; no other kind changes ownership. |
| `LeaseLedger.OpenConserves` | src/multi_task_scheduler/scheduler/group_scheduler.py:295-302 | Opening makes exactly the new lease a holder. |
| `LeaseLedger.StepKeepsPhases` | src/multi_task_scheduler/scheduler/group_scheduler.py:140-203 | Every call keeps each lease reserved before its DONATE is proved and owned, unrestored and singly borrowed while handed off. |
| `LeaseLedger.RunKeepsInv` | src/multi_task_scheduler/scheduler/group_scheduler.py:111-463 | Key and conservation facts hold in every run. |
| `LedgerWitness.SecondDonateLosesOwnership` | src/multi_task_scheduler/scheduler/group_scheduler.py:118-168 | A concrete run with two DONATEs of one lease that ends handed off and owning nothing. |
| `Contracts.NativeKeyInjective` | src/multi_task_scheduler/orchestration/contracts.py:86-96 | Session and rank can be read back from a native replica key. |
| `Contracts.MakeLease` | src/multi_task_scheduler/orchestration/contracts.py:203-299 | A lease is built exactly when every claim normalises and the result is well formed, and it has those claims in order. |
| `Contracts.RebuildLease` | src/multi_task_scheduler/scheduler/group_scheduler.py:271-274 | Rebuilding a lease from its own fields gives the same lease. |
| `AttemptLedger.LedgerAgreement` | src/multi_task_scheduler/rollout/load_balancer.py:58-151 | In every router run a request has an owner exactly when ADMITTED or TERMINATED, TERMINATED implies a proof, a proof implies TERMINATED or SETTLED, and the settled count is exact and within the retention bound. |
| `AttemptLedger.CollectKeepsInv` | src/multi_task_scheduler/rollout/load_balancer.py:58-80 | Collection restores the bound and never touches an unsettled request. |
| `AttemptLedger.EvictedFacts` | src/multi_task_scheduler/rollout/load_balancer.py:58-80 | One collection evicts exactly its target number of distinct settled requests. |
| `AttemptLedger.CollectionIsAmortised` | src/multi_task_scheduler/rollout/load_balancer.py:58-80 | Evicting scans times the batch size never exceed the settlements of the run. |
| `AttemptLedger.DrainIsStable` | src/multi_task_scheduler/rollout/load_balancer.py:224-274 | From begin_drain until the server is published again its ADMITTED set only shrinks, so an empty answer seen earlier is still true at finish_remove, which then succeeds. |
| `AttemptLedger.StepDrains` | src/multi_task_scheduler/rollout/load_balancer.py:82-151 | Each router call outside publication keeps a drained server out of the pool and admits nothing on it. |
| `AttemptLedger.DrainProgress` | src/multi_task_scheduler/rollout/load_balancer.py:98-151 | Releasing or confirming one of its requests strictly shrinks a draining server's ADMITTED set if and only if the request id is not empty. |
| `AttemptLedger.EmptyIdIsNeverSettled` | src/multi_task_scheduler/rollout/load_balancer.py:82-114 | A request admitted under the empty id stays admitted in every later run, and its server's removal is refused for ever. |
| `AttemptLedger.RunKeepsTerminated` | src/multi_task_scheduler/rollout/load_balancer.py:123-151 | A TERMINATED request's server is draining for as long as the request is TERMINATED. |
| `RouterActor.MultiTaskGlobalRequestLoadBalancer.GcSettledRequests` | src/multi_task_scheduler/rollout/load_balancer.py:58-80 | The scan-and-pop loops compute the ledger's collection. |
| `RouterActor.MultiTaskGlobalRequestLoadBalancer.AcquireServer` | src/multi_task_scheduler/rollout/load_balancer.py:82-96 | Admits a request exactly when it has no unsettled attempt and a server is available. |
| `RouterActor.MultiTaskGlobalRequestLoadBalancer.ReleaseServer` | src/multi_task_scheduler/rollout/load_balancer.py:98-114 | Settles the owned attempt; duplicates change nothing, a foreign server is refused, and a missing or empty id only lowers the native counter. |
| `RouterActor.MultiTaskGlobalRequestLoadBalancer.ConfirmContinuation` | src/multi_task_scheduler/rollout/load_balancer.py:123-151 | Records one proof per attempt under the draining operation and replays it to the same client and prefix only. |
| `RouterActor.MultiTaskGlobalRequestLoadBalancer.HasUnsettledRequests` | src/multi_task_scheduler/rollout/load_balancer.py:158-163 | Whether some request of the server is ADMITTED. |
| `RouterActor.MultiTaskGlobalRequestLoadBalancer.CommitReadyServer` | src/multi_task_scheduler/rollout/load_balancer.py:165-211 | Publishes a server once per operation, or refuses without effect. |
| `RouterActor.MultiTaskGlobalRequestLoadBalancer.BeginDrainOf` | src/multi_task_scheduler/rollout/load_balancer.py:224-247 | Closes admission and binds the drain to one operation. |
| `RouterActor.MultiTaskGlobalRequestLoadBalancer.FinishRemoveOf` | src/multi_task_scheduler/rollout/load_balancer.py:249-274 | Settles terminated requests and forgets route, drain, hand-offs and publications, or refuses while requests are admitted. |
| `ForceExit.AbortsAtMostOnce` | src/multi_task_scheduler/integration/verl/experimental_fully_async/rollouter.py:707-748 | Over any number of replays and failures one FORCE operation issues the backend abort at most once. |
| `ForceExit.ForceLosesNoRequest` | src/multi_task_scheduler/integration/verl/experimental_fully_async/rollouter.py:672-791 | At EXIT_READY every request the server owned when admission closed has left it by recorded hand-off or release; if the abort's reply was lost, every recorded admitted request has a hand-off. |
| `ForceExit.TrafficLeaves` | src/multi_task_scheduler/rollout/load_balancer.py:82-151 | While the server drains each request that leaves its ADMITTED set is accounted for by a hand-off or a release. |
| `ForceExit.DoKeepsInv` | src/multi_task_scheduler/integration/verl/experimental_fully_async/rollouter.py:672-791 | Every act of the FORCE worker, the clients and the network keeps that account. |
| `SyncGate.GuardedCallsExclude` | src/multi_task_scheduler/orchestration/replica_sync_gate.py:220-231 | In every interleaving, guarded calls of different leases that return normally never overlap. |
| `SyncGate.FencedForever` | src/multi_task_scheduler/orchestration/replica_sync_gate.py:189-197 | A lease that is not active never becomes active again. |
| `SyncGate.BlockedUntilReconciled` | src/multi_task_scheduler/orchestration/replica_sync_gate.py:97-148 | Once blocked, the latch stays and only the blocking operation can own the gate until a reconciliation returns normally. |
| `SyncGate.BlockedStep` | src/multi_task_scheduler/orchestration/replica_sync_gate.py:79-148 | While blocked, a new owner is always the blocking operation's recovery, and the latch changes if and only if that recovery returns normally. |
| `SyncGate.GateRunKeepsLock` | src/multi_task_scheduler/orchestration/replica_sync_gate.py:150-197 | Owner and lock agree and epochs only grow. |
| `SyncGate.ReplicaSyncGate.Block` | src/multi_task_scheduler/orchestration/replica_sync_gate.py:79-91 | Latches exactly for the active owner. |
| `SyncGate.ReplicaSyncGate.BeginAcquire` | src/multi_task_scheduler/orchestration/replica_sync_gate.py:150-165 | Whether a caller may wait for the lock. |
| `SyncGate.ReplicaSyncGate.FinishAcquire` | src/multi_task_scheduler/orchestration/replica_sync_gate.py:167-187 | After the wait: a fresh owner, or the lock given back if the gate was blocked meanwhile. |
| `SyncGate.ReplicaSyncGate.Release` | src/multi_task_scheduler/orchestration/replica_sync_gate.py:192-197 | Only the active owner releases. |
| `SyncGate.ReplicaSyncGate.BeginReconcile` | src/multi_task_scheduler/orchestration/replica_sync_gate.py:118-137 | Installs recovery for the blocking operation or gives the lock back. |
| `SyncGate.ReplicaSyncGate.EndReconcile` | src/multi_task_scheduler/orchestration/replica_sync_gate.py:138-148 | Clears the latch exactly on a normal return. |
| `Journal.OneUnresolvedOneWorker` | src/multi_task_scheduler/integration/verl/experimental_fully_async/task_runner.py:176-267 | In every interleaving of submissions, worker steps and launch failures a task has at most one unresolved operation, each operation at most one live worker, and an unresolved ADD its lease snapshot. |
| `Journal.ResolvedIsFinal` | src/multi_task_scheduler/orchestration/operation_journal.py:34-104 | A SUCCEEDED or FAILED record never changes. |
| `Journal.RunKeepsInv` | src/multi_task_scheduler/integration/verl/experimental_fully_async/task_runner.py:160-267 | Records, threads, workers and snapshots agree in every run. |
| `Journal.OperationJournal.BeginOperation` | src/multi_task_scheduler/orchestration/operation_journal.py:34-59 | Begins a fresh operation only when no other is unresolved; replays answer the same record; conflicts change nothing. |
| `Journal.OperationJournal.MarkRunningOf` | src/multi_task_scheduler/orchestration/operation_journal.py:67-74 | Moves an operation that is not terminal to RUNNING and writes a result if one is given. |
| `Journal.OperationJournal.ReopenUnknown` | src/multi_task_scheduler/orchestration/operation_journal.py:76-83 | Only the UNKNOWN operation is reopened. |
| `Journal.OperationJournal.FinishOperation` | src/multi_task_scheduler/orchestration/operation_journal.py:85-104 | Closes a record once; terminal records are immutable. |
| `Journal.TaskRunner.SubmitOperation` | src/multi_task_scheduler/integration/verl/experimental_fully_async/task_runner.py:176-238 | Accepts, replays or refuses a command and launches at most one worker, with the rollback of a failed launch. |
| `Journal.TaskRunner.LaunchOperation` | src/multi_task_scheduler/integration/verl/experimental_fully_async/task_runner.py:160-174 | Registers the worker before starting it and forgets it if starting fails. |
| `Journal.TaskRunner.ExecuteBegins` | src/multi_task_scheduler/integration/verl/experimental_fully_async/task_runner.py:253-267 | The worker's opening step marks or reopens its own record. |
| `Journal.TaskRunner.ExecuteFinishes` | src/multi_task_scheduler/integration/verl/experimental_fully_async/task_runner.py:437-450 | The worker closes its record. |
| `Journal.TaskRunner.ExecuteLeaves` | src/multi_task_scheduler/integration/verl/experimental_fully_async/task_runner.py:455-461 | The worker leaves and takes the lease snapshot along unless the operation is UNKNOWN. |
| `ReplicaLedger.BorrowedCreationOncePerLease` | src/multi_task_scheduler/integration/verl/experimental_fully_async/llm_server_manager.py:374-515 | Over any replays and failures a lease builds at most one runtime, every borrowed key has exactly one record, and allocated ranks are distinct and above all native ranks. |
| `ReplicaLedger.TerminalStatesAbsorb` | src/multi_task_scheduler/integration/verl/experimental_fully_async/llm_server_manager.py:26-38 | RELEASED and QUARANTINED are absorbing, no native is ever RELEASED and no borrowed replica DORMANT. |
| `ReplicaLedger.StepKeepsInv` | src/multi_task_scheduler/integration/verl/experimental_fully_async/llm_server_manager.py:106-154 | Every Manager call keeps kinds, states, ranks and records in agreement. |
| `ReplicaLedger.FirstBuild` | src/multi_task_scheduler/integration/verl/experimental_fully_async/llm_server_manager.py:426-449 | A record that has only started has never built a runtime. |
| `ReplicaLedger.RegistrationBegins` | src/multi_task_scheduler/integration/verl/experimental_fully_async/llm_server_manager.py:106-133 | Registering an ACTIVE native keeps a starting view, and conflicts exactly when the key already has another runtime. |
| `ManagerOwner.MultiTaskLLMServerManager.RegisterReplica` | src/multi_task_scheduler/integration/verl/experimental_fully_async/llm_server_manager.py:106-133 | Registers a replica with or without its runtime, replays an equal registration, binds a runtime once and refuses anything else. |
| `ManagerOwner.MultiTaskLLMServerManager.InitializeServers` | src/multi_task_scheduler/integration/verl/experimental_fully_async/llm_server_manager.py:74-90 | Afterwards every native has its key and runtime and the rank counter is above all native ranks. |
| `ManagerOwner.MultiTaskLLMServerManager.TransitionReplica` | src/multi_task_scheduler/integration/verl/experimental_fully_async/llm_server_manager.py:141-154 | Moves M along an allowed transition that fits the kind, or changes nothing. |
| `ManagerOwner.MultiTaskLLMServerManager.BeginCreate` | src/multi_task_scheduler/integration/verl/experimental_fully_async/llm_server_manager.py:387-424 | The creation fence: a new record and rank, a replayed answer, or a refusal without effect. |
| `ManagerOwner.MultiTaskLLMServerManager.FinishCreate` | src/multi_task_scheduler/integration/verl/experimental_fully_async/llm_server_manager.py:462-474 | A built record becomes ready and its runtime reachable. |
| `ManagerOwner.MultiTaskLLMServerManager.FailCreate` | src/multi_task_scheduler/integration/verl/experimental_fully_async/llm_server_manager.py:475-515 | A failed creation lands in RELEASED exactly when nothing is left to clean up. |
| `ManagerOwner.MultiTaskLLMServerManager.Sleep` | src/multi_task_scheduler/integration/verl/experimental_fully_async/llm_server_manager.py:517-556 | Answers a native release once per operation, and a replay from the first evidence. |
| `ManagerOwner.MultiTaskLLMServerManager.Destroy` | src/multi_task_scheduler/integration/verl/experimental_fully_async/llm_server_manager.py:558-600 | Answers a destruction once per record and operation. |
| `ManagerOwner.MultiTaskLLMServerManager.RecordForKey` | src/multi_task_scheduler/integration/verl/experimental_fully_async/llm_server_manager.py:360-372 | Finds the one record of a key or none. |
| `ManagerOwner.MultiTaskLLMServerManager.ActivateService` | src/multi_task_scheduler/integration/verl/experimental_fully_async/llm_server_manager.py:225-235 | Lists runtime, address and handle without duplicates and in parallel. |
| `ManagerOwner.MultiTaskLLMServerManager.DeactivateService` | src/multi_task_scheduler/integration/verl/experimental_fully_async/llm_server_manager.py:213-223 | Unlists them, keeping the lists parallel. |
| `ManagerOwner.MultiTaskLLMServerManager.PublishThenRetract` | src/multi_task_scheduler/integration/verl/experimental_fully_async/rollouter.py:876-894 | Retracting a service just published restores the native lists exactly. |
| `Membership.NativeListIsMembership` | src/multi_task_scheduler/checkpoint/checkpoint_engine_manager.py:49-172 | In every run the Trainer drives, the native list is exactly the duplicate-free union of effective members, pending and effective keys are disjoint, no runtime has two keys and no version runs ahead of training. |
| `Membership.PromotedAtConfirmedVersion` | src/multi_task_scheduler/checkpoint/checkpoint_engine_manager.py:95-129 | A key becomes effective only by its own operation's WEIGHT_READY at exactly the bootstrapped and current version. |
| `Membership.VersionNeverFalls` | src/multi_task_scheduler/checkpoint/checkpoint_engine_manager.py:135-172 | While a key stays a member its version never falls. |
| `Membership.SyncedAtCurrent` | src/multi_task_scheduler/integration/verl/experimental_fully_async/trainer.py:110-113 | After a successful synchronisation no member of any later run is older than its version, and until training moves on every member is exactly at the current version. |
| `Membership.SetupBegins` | src/multi_task_scheduler/integration/verl/experimental_fully_async/trainer.py:34-58 | Natives with distinct keys are all accepted at setup and every one starts as a member. |
| `Membership.StepKeeps` | src/multi_task_scheduler/checkpoint/checkpoint_engine_manager.py:58-172 | Every membership call keeps the union, key and version facts. |
| `MembershipOwner.MultiTaskCheckpointEngineManager.ValidateRuntimeMembership` | src/multi_task_scheduler/checkpoint/checkpoint_engine_manager.py:49-56 | The nested loops decide that no runtime is duplicated or under another key. |
| `MembershipOwner.MultiTaskCheckpointEngineManager.RegisterPending` | src/multi_task_scheduler/checkpoint/checkpoint_engine_manager.py:58-93 | Parks a runtime, replays silently, or refuses without effect. |
| `MembershipOwner.MultiTaskCheckpointEngineManager.BootstrapTarget` | src/multi_task_scheduler/checkpoint/checkpoint_engine_manager.py:365-398 | Answers an equal replay from the receipt and records a new one only for the pending operation. |
| `MembershipOwner.MultiTaskCheckpointEngineManager.CommitPending` | src/multi_task_scheduler/checkpoint/checkpoint_engine_manager.py:95-129 | Promotes exactly the confirmed target or refuses without effect. |
| `MembershipOwner.MultiTaskCheckpointEngineManager.AddEffective` | src/multi_task_scheduler/checkpoint/checkpoint_engine_manager.py:135-153 | Appends the missing runtimes in order and records the member, or refuses without effect. |
| `MembershipOwner.MultiTaskCheckpointEngineManager.RemoveEffective` | src/multi_task_scheduler/checkpoint/checkpoint_engine_manager.py:155-166 | Filters the native list and forgets member, pending entry and receipt. |
| `MembershipOwner.MultiTaskCheckpointEngineManager.DiscardPending` | src/multi_task_scheduler/checkpoint/checkpoint_engine_manager.py:131-133 | Forgets pending entry and receipt. |
| `MembershipOwner.MultiTaskCheckpointEngineManager.MarkAllLoadedVersion` | src/multi_task_scheduler/checkpoint/checkpoint_engine_manager.py:168-172 | The loop puts every member at the version. |
| `Manifest.SilentExactlyWhenCanonicalAgrees` | src/multi_task_scheduler/checkpoint/checkpoint_engine_manager.py:245-279 | For validated manifests and any limit of at least one the mismatch list is empty if and only if the canonical forms are equal and each shape is written in the same kind of container. |
| `Manifest.ListAndTupleDiffer` | src/multi_task_scheduler/checkpoint/checkpoint_engine_manager.py:263-271 | Two valid manifests with equal canonical forms that are still reported, because one writes a shape as a list and the other as a tuple. |
| `Manifest.SourceCheckSettlesDigests` | src/multi_task_scheduler/checkpoint/checkpoint_engine_manager.py:318-343 | Passing the source check already makes all receivers' canonical forms equal, so the digest comparison after it cannot fail. |
| `Manifest.OrderIsIrrelevant` | src/multi_task_scheduler/checkpoint/checkpoint_engine_manager.py:213-229 | The order of entries changes neither the canonical form nor the report. |
| `Manifest.AscendingIsUnique` | src/multi_task_scheduler/checkpoint/checkpoint_engine_manager.py:226-226 | A name-sorted list without repeated names is determined by its elements. |
| `Manifest.Mismatches` | src/multi_task_scheduler/checkpoint/checkpoint_engine_manager.py:245-279 | The loop reports the first `limit` mismatches in name order. |
| `Manifest.ValidateManifest` | src/multi_task_scheduler/checkpoint/checkpoint_engine_manager.py:174-211 | Accepts exactly complete, uniquely named manifests whose shapes, element counts and totals add up. |
| `Manifest.ValidateEntry` | src/multi_task_scheduler/checkpoint/checkpoint_engine_manager.py:189-206 | Accepts exactly entries with names, digests, nonnegative sizes and the right element count. |
| `Manifest.CanonicalForm` | src/multi_task_scheduler/checkpoint/checkpoint_engine_manager.py:213-226 | The loop computes the name-sorted canonical list. |
| `Manifest.ValidateParameterSync` | src/multi_task_scheduler/checkpoint/checkpoint_engine_manager.py:281-343 | Accepts the receivers exactly when all manifests are valid, at the version, agree with the source and with each other. |
| `MessageQueue.EnqueuedAtMostOnce` | src/multi_task_scheduler/integration/verl/experimental_fully_async/message_queue.py:122-196 | Over every run with any faults each logical sample reaches the native queue at most once, with its row's digest; recorded numbers are distinct and below the counter. |
| `MessageQueue.AnswersAreFinal` | src/multi_task_scheduler/integration/verl/experimental_fully_async/message_queue.py:92-143 | Once answered, every equal replay gets the same evidence and changes nothing, and another digest is a conflict that never enqueues. |
| `MessageQueue.UncertainIsRefused` | src/multi_task_scheduler/integration/verl/experimental_fully_async/message_queue.py:107-113 | An uncertain attempt is never repeated. |
| `MessageQueue.NumbersStayUnique` | src/multi_task_scheduler/integration/verl/experimental_fully_async/message_queue.py:139-162 | Numbers stay unique over all rows if and only if no failed commit leaves its reservation visible. |
| `MessageQueue.NumberIsShared` | src/multi_task_scheduler/integration/verl/experimental_fully_async/message_queue.py:139-162 | After such a commit the next fresh sample shares the number. |
| `MessageQueue.MultiTaskMessageQueue.LookupCompletion` | src/multi_task_scheduler/integration/verl/experimental_fully_async/message_queue.py:92-120 | Answers a recorded row and refuses a provisional one. |
| `MessageQueue.MultiTaskMessageQueue.PutSampleOnce` | src/multi_task_scheduler/integration/verl/experimental_fully_async/message_queue.py:122-196 | Reservation, native put and evidence with every fault, as the ledger step does. |
| `MessageQueue.MultiTaskMessageQueue.PutSample` | src/multi_task_scheduler/integration/verl/experimental_fully_async/message_queue.py:198-205 | Termination signals bypass the ledger; a sample is true unless it displaced the oldest entry. |
| `HttpServer.AdmissionImpliesResidency` | src/multi_task_scheduler/rollout/http_server.py:154-287 | In every run of sleep, wake_up and KV resume with failures at each engine call, admission is open only when nothing sleeps. |
| `HttpServer.ReopensThroughWeights` | src/multi_task_scheduler/rollout/http_server.py:228-287 | With full and weights-only wakes, admission open after a confirmed deep sleep was reopened by way of the weights stage. |
| `HttpServer.ReopensOnlyByBypass` | src/multi_task_scheduler/rollout/http_server.py:244-287 | From a deep sleep one call reopens admission if and only if it is a wake with other tags that name everything still asleep, and no engine call fails. |
| `HttpServer.BothTagsBypass` | src/multi_task_scheduler/rollout/http_server.py:244-287 | Waking weights and KV in one call reopens straight from level 2. |
| `HttpServer.LostReplyBypasses` | src/multi_task_scheduler/rollout/http_server.py:263-273 | So does a KV wake after a weights wake whose reply was lost. |
| `HttpServer.MultiTaskvLLMHttpServer.Sleep` | src/multi_task_scheduler/rollout/http_server.py:154-226 | Every branch and failure of sleep; pause flag and resume event stay in step. |
| `HttpServer.MultiTaskvLLMHttpServer.WakeUp` | src/multi_task_scheduler/rollout/http_server.py:228-287 | Every branch and failure of wake_up; pause flag and resume event stay in step. |
| `OwnerRefinement.CommitShows` | src/multi_task_scheduler/rollout/load_balancer.py:165-211 | commit_ready is accepted exactly when the composed router publishes, with the same routes, pool and publications. |
| `OwnerRefinement.DrainShows` | src/multi_task_scheduler/rollout/load_balancer.py:224-247 | begin_drain is accepted exactly when the composed router drains, with the same effect. |
| `OwnerRefinement.UnsettledShows` | src/multi_task_scheduler/rollout/load_balancer.py:158-163 | has_unsettled_requests is what the composed router answers. |
| `OwnerRefinement.FinishShows` | src/multi_task_scheduler/rollout/load_balancer.py:249-274 | finish_remove of a route is accepted exactly when nothing is admitted, with the composed router's effect. |
| `OwnerRefinement.AcquireShows` | src/multi_task_scheduler/rollout/load_balancer.py:82-96 | An admission is one of the composed router, of a pooled replica and a request that was not admitted. |
| `OwnerRefinement.ReleaseShows` | src/multi_task_scheduler/rollout/load_balancer.py:98-114 | A release settles in the composed router exactly the request it settles in the ledger. |
| `OwnerRefinement.ConfirmShows` | src/multi_task_scheduler/rollout/load_balancer.py:123-151 | A confirmed hand-off takes its request off the server as a settlement does. |
| `OwnerRefinement.RegisterShows` | src/multi_task_scheduler/checkpoint/checkpoint_engine_manager.py:58-93 | register_pending is accepted only where the composed membership registers, and always there over runtimes that fit. |
| `OwnerRefinement.BootstrapShows` | src/multi_task_scheduler/checkpoint/checkpoint_engine_manager.py:365-398 | A successful transfer is recorded exactly where the composed bootstrap records it. |
| `OwnerRefinement.PromoteShows` | src/multi_task_scheduler/checkpoint/checkpoint_engine_manager.py:95-129 | commit_pending succeeds only where the composed membership promotes, with the same effect. |
| `OwnerRefinement.RemoveShows` | src/multi_task_scheduler/checkpoint/checkpoint_engine_manager.py:155-166 | remove_effective has the composed effect on members, pending entries and receipts. |
| `OwnerRefinement.EnterShows` | src/multi_task_scheduler/integration/verl/experimental_fully_async/llm_server_manager.py:141-154 | An allowed transition is the composed change of state. |
| `OwnerRefinement.CreateShows` | src/multi_task_scheduler/integration/verl/experimental_fully_async/llm_server_manager.py:387-515 | Everything create_borrowed_replica does from its fence to a success, a clean failure or an unclean one is the composed creation step. |
| `OwnerRefinement.SleepShows` | src/multi_task_scheduler/integration/verl/experimental_fully_async/llm_server_manager.py:517-556 | Sleep evidence followed by DORMANT is the composed release of a native, for first answers and replays. |
| `OwnerRefinement.DestroyShows` | src/multi_task_scheduler/integration/verl/experimental_fully_async/llm_server_manager.py:558-600 | Destruction evidence followed by RELEASED is the composed release of a borrowed replica. |
| `OwnerRefinement.AcquireGateShows` | src/multi_task_scheduler/orchestration/replica_sync_gate.py:150-187 | acquire of a free, healthy gate by a caller nobody overtakes takes the composed lock. |
| `OwnerRefinement.ReconcileGateShows` | src/multi_task_scheduler/orchestration/replica_sync_gate.py:97-137 | reconcile takes the composed lock exactly for the operation that blocked the gate and otherwise changes nothing. |
| `OwnerRefinement.BlockGateShows` | src/multi_task_scheduler/orchestration/replica_sync_gate.py:79-91 | The owner's block and release leave the composed lock free and the latch on its operation. |
| `OwnerRefinement.EndReconcileShows` | src/multi_task_scheduler/orchestration/replica_sync_gate.py:138-148 | A reconciliation frees the lock and clears the latch exactly when it returns normally. |
| `ResidencyOwners.CreateIsAllowed` | src/multi_task_scheduler/integration/verl/experimental_fully_async/llm_server_manager.py:374-424 | For a fitting lease that has not expired, create_borrowed_replica's fence opens exactly when the runtime of Residency may be built. |
| `ResidencyOwners.CreateHolds` | src/multi_task_scheduler/integration/verl/experimental_fully_async/llm_server_manager.py:387-515 | A whole creation, however it ends, is one creation step of Residency and keeps its records in agreement with M's. |
| `ResidencyOwners.DestroyIsAllowed` | src/multi_task_scheduler/integration/verl/experimental_fully_async/llm_server_manager.py:558-600 | destroy answers only where Residency lets the operation destroy: a live runtime, or one this operation destroyed. |
| `ResidencyOwners.DestroyHolds` | src/multi_task_scheduler/integration/verl/experimental_fully_async/llm_server_manager.py:558-600 | That answer keeps Residency's records in agreement with M's. |
| `ResidencyOwners.BeginIsAllowed` | src/multi_task_scheduler/orchestration/operation_journal.py:34-59 | The journal's begin fence lets a command in only when Residency may begin it. |
| `ResidencyOwners.SoundHasOneAdd` | src/multi_task_scheduler/scheduler/group_scheduler.py:153-183 | In every sound world a lease has one ADD, and every creation record is of the ADD of its lease. |

## Left out

- Lifecycle executes one operation at a time; what other coroutines do during an await is an arbitrary list of their steps. A method
  that has to wait for the gate answers that it waits instead of blocking.
- A caller that gives up on a call which is still running is not modelled; actor crashes and restarts are not either.
- Publication composes one task; two or more tasks are composed in Residency only, where publication is abstracted to creating,
  destroying, waking and answering.
- Residency lets a worker create, destroy, sleep, wake and answer in any order its guards allow. ResidencyOwners proves the guards on
  creating, destroying and beginning from M and the journal; the guards on answering, sleeping and resolving are read off the source,
  and a simulation of Publication's worker by Residency's steps is not stated, since Publication carries no leases and no expiry.
- Lifecycle.Rollouter.PrepareExit: FORCE's abort and hand-off wait are left to ForceExit, which proves its account over every router
  run; Publication's requests carry no attempt state, so the theorem is not restated over composed runs.
- ADD and RESTORE report parameter versions in Publication only through the bootstrap receipt; member versions are in Membership.
- The gate's coroutine interleavings are in SyncGate; Publication uses the gate as a lock with a latch.
- Native load balancing, sticky routing and in-flight counters: the server an admission picks is any pooled one.
- Ray actors, placement groups, probes and State API polling: only success, failure and unknown outcomes.
- Weight transfer, collectives, tensor hashing, HCCL teardown: outcomes only.
- Polling intervals, timeouts and report age beyond the two clocks the phase checks read.
- KV release of a resident borrowed server during bootstrap: the parent's release method is not part of this model.
- SQLite: a table is a map; a failed commit leaves its write visible or not, and that does not change later.
- Python type checks, message wording, JSON printing, naming and resource-pool wiring, profiles, launchers and test tooling.
