/**
 * The composed protocol of one task: the TaskRunner worker, the Trainer and Rollouter methods it calls
 * (task_runner.py, trainer.py, rollouter.py) and the owners M, E, R and G, as one transition system.
 *
 * Every remote call is a step that may not run at all, may be refused, may break inside the callee or may run
 * and lose its reply.  Native synchronisation, request traffic and parameter updates interleave with every step.
 * A replica key also names the server it runs: no two replicas share a server address.
 */
module Publication {
  import opened Contracts

  datatype Fence = NoFence | ByOperation(op: string) | BySync
  datatype Holder = Free | Worker | Sync

  /** Which Trainer code is waiting for commit_service_change. */
  datatype Caller = Publish | Recover | Exit | ExitRecover
  {
    predicate Publishes() { Publish? || Recover? }
    predicate Recovers() { Recover? || ExitRecover? }
  }

  /** Where the lifecycle worker stands; each value names the next remote call or owner action. */
  datatype Pc =
    | Idle                         // no live worker
    | Launched                     // prepare_replica, or query_release_operation of a replayed exit
    | Prepared                     // bootstrap_and_publish / restore_and_publish
    | Opened                       // G held: read the target and register it as pending
    | Registered                   // bootstrap_target
    | Ready                        // commit_pending
    | Rollback                     // ADD failed before E: discard_pending
    | RollbackRelease              // ... and finalize_release
    | Commit(caller: Caller)       // commit_service_change
    | Publishing(caller: Caller)   // M is ACTIVE: commit_ready
    | Doubt(caller: Caller)        // query_ready_operation
    | Unrouting(caller: Caller)    // finish_remove
    | Absent(caller: Caller)       // commit_service_change answered None
    | Withdrawn(caller: Caller)    // E is gone again: finalize_release
    | Committed(caller: Caller)    // commit_service_change answered SERVICE_COMMITTED
    | Failing                      // RESTORE failed under G: quarantine_dormant_restore
    | Returning(released: bool)
    | Checking                     // reconcile_exit
    | Admitting                    // prepare_exit
    | Shutting                     // begin_drain
    | Draining                     // has_unsettled_requests
    | Drained                      // remove_and_commit
    | Removing                     // G held: remove_effective
    | Releasing                    // finalize_release
    | Closing(ok: bool)            // advance_lease and the journal

  /** What becomes of the next call: it never runs, runs, is refused without effect, or breaks inside. */
  datatype Act = NotRun | Runs | Refused | Breaks(clean: bool)

  // ---------------------------------------------------------------- the owners' state

  /**
   * M (state, kind, creation records, release ledger), E (effective, pending and ready maps) and R (native pool,
   * routes, publications, drains, ADMITTED requests).  `up` is physical: the runtimes that hold accelerator memory.
   */
  datatype Owners = Owners(
    m: map<ReplicaKey, ReplicaState>, kind: map<ReplicaKey, ReplicaKind>,
    made: map<ReplicaKey, string>, spoilt: set<ReplicaKey>, rel: map<string, ReplicaKey>,
    eff: set<ReplicaKey>, pend: map<ReplicaKey, string>, ready: map<ReplicaKey, (string, nat)>,
    pool: set<ReplicaKey>, route: set<ReplicaKey>, pub: map<string, ReplicaKey>,
    drain: map<ReplicaKey, string>, adm: map<string, ReplicaKey>, up: set<ReplicaKey>)
  {
    predicate In(k: ReplicaKey, x: ReplicaState) { k in m && m[k] == x }
    predicate Is(k: ReplicaKey, x: ReplicaKind) { k in kind && kind[k] == x }
    predicate Admits(k: ReplicaKey) { exists r :: r in adm && adm[r] == k }

    function Enter(k: ReplicaKey, x: ReplicaState): Owners { this.(m := m[k := x]) }

    /** A new borrowed record, in the state its creation ends in. */
    function Create(k: ReplicaKey, op: string, x: ReplicaState): Owners {
      this.(m := m[k := x], kind := kind[k := BORROWED], made := made[k := op],
            spoilt := if x == CREATING then spoilt else spoilt + {k}, up := if x == RELEASED then up else up + {k})
    }

    function Discard(k: ReplicaKey): Owners { this.(pend := pend - {k}, ready := ready - {k}) }

    function Park(k: ReplicaKey, op: string): Owners { this.(pend := pend[k := op]) }

    function Loaded(k: ReplicaKey, op: string, version: nat): Owners {
      this.(ready := ready[k := (op, version)], up := up + {k})
    }

    function Woken(k: ReplicaKey): Owners { this.(up := up + {k}) }

    function Slept(k: ReplicaKey): Owners { this.(up := up - {k}) }

    function Promote(k: ReplicaKey): Owners { this.(eff := eff + {k}, pend := pend - {k}) }

    function RemoveEffective(k: ReplicaKey): Owners { Discard(k).(eff := eff - {k}) }

    function CommitReady(k: ReplicaKey, op: string): Owners {
      this.(pool := pool + {k}, route := route + {k}, pub := pub[op := k])
    }

    function BeginDrain(k: ReplicaKey, op: string): Owners { this.(drain := drain[k := op], pool := pool - {k}) }

    function FinishRemove(k: ReplicaKey): Owners {
      this.(route := route - {k}, pool := pool - {k}, drain := drain - {k},
            pub := map o | o in pub && pub[o] != k :: pub[o])
    }

    /** M answers an operation that already has evidence without touching the runtime. */
    function Release(k: ReplicaKey, op: string): Owners {
      this.(m := m[k := if Is(k, NATIVE) then DORMANT else RELEASED], rel := rel[op := k],
            up := if op in rel then up else up - {k})
    }
  }

  /**
   * History: what was true of a replica when finalize_release answered RELEASED for it, and whether it is down after.
   */
  datatype Freed = Freed(key: ReplicaKey, rollback: bool, from: ReplicaState, effective: bool, routed: bool,
                         admitted: bool,
                         native: bool, replayed: bool, down: bool)

  /** History: what was true when the Trainer accepted SERVICE_COMMITTED. */
  datatype Answer = Answer(kind: OperationKind, key: ReplicaKey, state: ReplicaState, effective: bool, routed: bool,
                           pooled: bool)

  datatype Sys = Sys(
    busy: bool, cmd: Command, tried: bool, pc: Pc, used: set<string>, version: nat, o: Owners,
    lock: Holder, latch: Fence, bind: map<string, ReplicaKey>, freed: seq<Freed>, answers: seq<Answer>)
  {
    function Op(): string { cmd.op }
    function Key(): ReplicaKey { cmd.target }
    predicate IsExit() { cmd.kind == DONATE || cmd.kind == REMOVE }
    predicate Bound() { Op() in bind }
    predicate FencedHere() { latch == ByOperation(Op()) }
    predicate State(x: ReplicaState) { o.In(Key(), x) }
    predicate Kind(x: ReplicaKind) { o.Is(Key(), x) }
    function At(p: Pc): Sys { this.(pc := p) }
    function With(n: Owners): Sys { this.(o := n) }
    function Enter(x: ReplicaState): Sys { this.(o := o.Enter(Key(), x)) }
    /** The worker ends with the operation UNKNOWN. */
    function Unknown(): Sys { this.(pc := Idle, tried := true) }
    function Bind(): Sys { this.(bind := bind[Op() := Key()]) }
    function Unbind(): Sys { this.(bind := bind - {Op()}) }
  }

  // ---------------------------------------------------------------- shared tails

  /** The `except` and `finally` parts of the Trainer method that called commit_service_change. */
  function CallerFails(s: Sys, c: Caller): Sys {
    match c
    case Publish => if s.cmd.kind == RESTORE then s.At(Failing) else Blocked(s)
    case Exit => Blocked(s)
    case Recover => s.(lock := Free).Unknown()
    case ExitRecover => s.(lock := Free).Unknown()
  }

  function Blocked(s: Sys): Sys {
    s.(latch := ByOperation(s.Op()), lock := Free).Unknown()
  }

  /** The Trainer method returns normally; a reconciliation that does so clears the latch. */
  function CallerReturns(s: Sys, c: Caller, released: bool): Sys {
    s.(latch := if c.Recovers() then NoFence else s.latch, lock := Free, pc := Returning(released))
  }

  /** Bootstrap or promotion failed. */
  function BootFails(s: Sys): Sys {
    s.At(if s.cmd.kind == RESTORE then Failing else Rollback)
  }

  predicate MayRelease(s: Sys) {
    s.Bound() && (s.State(DRAINING) || (s.Kind(BORROWED) && s.State(CREATING)))
  }

  /** finalize_release runs to its end. */
  function Released(s: Sys): Sys
    requires MayRelease(s)
  {
    s.With(s.o.Release(s.Key(), s.Op())).Unbind().(freed := s.freed + [FreedNow(s)])
  }

  function FreedNow(s: Sys): Freed
    requires MayRelease(s)
  {
    var k := s.Key();
    Freed(k, s.pc == RollbackRelease, s.o.m[k], k in s.o.eff, k in s.o.route, s.o.Admits(k),
          s.Kind(NATIVE), s.Op() in s.o.rel, k !in s.o.Release(k, s.Op()).up)
  }

  /** finalize_release: the new state and whether it answered evidence. */
  function FinalizeRelease(s: Sys, act: Act): (Sys, bool) {
    if act == NotRun || act == Refused || !MayRelease(s) then (s, false)
    else if act.Breaks? then (s.Enter(QUARANTINED), false)
    else (Released(s), true)
  }

  // ---------------------------------------------------------------- ADD and RESTORE up to E

  /** prepare_replica with a placement spec. */
  function PrepareAdd(s: Sys, act: Act, lost: bool): Sys {
    if act == NotRun then s.Unknown()
    else if act == Refused || (s.Key() in s.o.m && !(s.Key() in s.o.made && s.o.made[s.Key()] == s.Op()))
      || s.Key() in s.o.spoilt then
      CreateRaises(s.Bind(), lost)
    else if s.Key() in s.o.m then CreateAnswers(s.Bind(), lost)
    else match act
      case Breaks(clean) =>
        CreateRaises(s.Bind().With(s.o.Create(s.Key(), s.Op(), if clean then RELEASED else QUARANTINED)), lost)
      case _ => CreateAnswers(s.Bind().With(s.o.Create(s.Key(), s.Op(), CREATING)), lost)
  }

  function CreateAnswers(b: Sys, lost: bool): Sys {
    if lost then b.Unknown() else b.At(Prepared)
  }

  /** create_borrowed_replica raised: only a proven absence of any runtime is answered with RELEASED. */
  function CreateRaises(b: Sys, lost: bool): Sys {
    if b.Key() !in b.o.m || (b.Kind(BORROWED) && b.State(RELEASED)) then
      (if lost then b.Unbind().Unknown() else b.Unbind().At(Closing(false)))
    else b.Unknown()
  }

  /** prepare_replica without a spec. */
  function PrepareRestore(s: Sys, act: Act, lost: bool): Sys {
    if act != Runs || !s.Kind(NATIVE) then s.Unknown()
    else if s.State(DORMANT) then CreateAnswers(s.Bind(), lost)
    else if s.State(ACTIVE) && s.Bound() then CreateAnswers(s, lost)
    else s.Unknown()
  }

  /** bootstrap_and_publish / restore_and_publish: reconcile a gate this operation blocked, else acquire it. */
  function EnterGate(s: Sys, act: Act): Sys {
    if act != Runs then s.Unknown()
    else if s.FencedHere() && !s.Bound() then s.Unknown()
    else if s.FencedHere() && s.Key() in s.o.eff then
      (if s.lock == Free then s.(lock := Worker).At(Commit(Recover)) else s)
    else if s.latch != NoFence then s.Unknown()
    else if s.lock != Free then s
    else s.(lock := Worker).At(Opened)
  }

  /** register_pending for this operation; an effective key is accepted only as this operation's own replay. */
  predicate MayRegister(s: Sys) {
    if s.Key() in s.o.eff then s.Key() in s.o.ready && s.o.ready[s.Key()].0 == s.Op()
    else s.Key() in s.o.pend ==> s.o.pend[s.Key()] == s.Op()
  }

  function OpenAdd(s: Sys, act: Act): Sys {
    if act != Runs || !s.Bound() || !s.Kind(BORROWED) || s.State(RELEASED) || !MayRegister(s) then s.At(RollbackRelease)
    else if s.Key() in s.o.eff then s.At(Registered)
    else s.With(s.o.Park(s.Key(), s.Op())).At(Registered)
  }

  function OpenRestore(s: Sys, act: Act): Sys {
    if act != Runs || !s.Bound() || !s.Kind(NATIVE) || s.Key() !in s.o.pend then s.(lock := Free).Unknown()
    else s.With(s.o.Discard(s.Key()).Park(s.Key(), s.Op())).At(Registered)
  }

  function Bootstrap(s: Sys, act: Act): Sys {
    var k := s.Key();
    if k in s.o.ready then (if s.o.ready[k] == (s.Op(), s.version) then s.At(Ready) else BootFails(s))
    else if act == NotRun || act == Refused || k !in s.o.pend || s.o.pend[k] != s.Op() then BootFails(s)
    else if act == Runs then s.With(s.o.Loaded(k, s.Op(), s.version)).At(Ready)
    else if s.cmd.kind != RESTORE then BootFails(s)
    else if act.clean then CallerReturns(s.With(s.o.Slept(k)), Publish, true)
    else BootFails(s.With(s.o.Woken(k)))
  }

  function Promote(s: Sys, act: Act): Sys {
    var k := s.Key();
    if act != Runs || k !in s.o.ready || s.o.ready[k].0 != s.Op() then BootFails(s)
    else if k in s.o.eff && k !in s.o.pend then s.At(Commit(Publish))
    else if k !in s.o.pend || s.o.pend[k] != s.Op() then BootFails(s)
    else s.With(s.o.Promote(k)).At(Commit(Publish))
  }

  function DropPending(s: Sys): Sys {
    s.With(s.o.Discard(s.Key())).At(RollbackRelease)
  }

  function RollBack(s: Sys, act: Act, lost: bool): Sys {
    var r := FinalizeRelease(s, act);
    if r.1 && !lost then CallerReturns(r.0, Publish, true) else Blocked(r.0)
  }

  /** RESTORE's handler: project an uncertain DORMANT replica to QUARANTINED, then fence G. */
  function Quarantine(s: Sys, act: Act): Sys {
    Blocked(if act == Runs && s.Bound() && s.State(DORMANT) then s.Enter(QUARANTINED) else s)
  }

  // ---------------------------------------------------------------- commit_service_change

  /** Waking and listing the service either succeeds, which makes M ACTIVE, or quarantines the replica. */
  function Activate(s: Sys, c: Caller, act: Act): Sys {
    if act.Breaks? then CallerFails(s.Enter(QUARANTINED), c)
    else if s.State(DORMANT) then s.With(s.o.Woken(s.Key())).Enter(ACTIVE).At(Publishing(c))
    else s.Enter(ACTIVE).At(Publishing(c))
  }

  function CommitService(s: Sys, c: Caller, act: Act): Sys {
    if act == NotRun || act == Refused || !s.Bound() then CallerFails(s, c)
    else if s.State(ACTIVE) then s.At(Doubt(c))
    else if (s.State(CREATING) && s.Kind(BORROWED)) || (s.State(DORMANT) && s.Kind(NATIVE)) then Activate(s, c, act)
    else if s.State(DRAINING) then s.At(Unrouting(c))
    else CallerFails(s, c)
  }

  /** commit_ready accepts a replay, or a key no other operation has published. */
  predicate MayPublish(o: Owners, k: ReplicaKey, op: string) {
    if op in o.pub then o.pub[op] == k && k in o.route && k in o.pool
    else forall x | x in o.pub :: o.pub[x] != k
  }

  function PublishRoute(s: Sys, c: Caller, act: Act, lost: bool): Sys {
    if act != Runs || !MayPublish(s.o, s.Key(), s.Op()) then s.At(Doubt(c))
    else if lost then s.With(s.o.CommitReady(s.Key(), s.Op())).At(Doubt(c))
    else s.With(s.o.CommitReady(s.Key(), s.Op())).Unbind().At(Committed(c))
  }

  function ResolveDoubt(s: Sys, c: Caller, act: Act): Sys {
    if act != Runs then CallerFails(s, c)
    else if s.Op() in s.o.pub then s.Unbind().At(Committed(c))
    else s.Enter(DRAINING).At(Absent(c))
  }

  function Unroute(s: Sys, c: Caller, act: Act, lost: bool): Sys {
    if act != Runs || (s.Key() in s.o.route && s.o.Admits(s.Key())) then CallerFails(s, c)
    else
      var n := if s.Key() in s.o.route then s.With(s.o.FinishRemove(s.Key())) else s;
      if lost then CallerFails(n, c) else n.At(Committed(c))
  }

  /** `None` reaches the Trainer: the route is absent, so E is removed before the runtime is released. */
  function Withdraw(s: Sys, c: Caller, act: Act): Sys {
    if act != Runs || !c.Publishes() then CallerFails(s, c)
    else if s.cmd.kind == RESTORE then s.With(s.o.RemoveEffective(s.Key()).Park(s.Key(), s.Op())).At(Withdrawn(c))
    else s.With(s.o.RemoveEffective(s.Key())).At(Withdrawn(c))
  }

  function ReleaseWithdrawn(s: Sys, c: Caller, act: Act, lost: bool): Sys {
    var r := FinalizeRelease(s, act);
    if r.1 && !lost then CallerReturns(r.0, c, true) else CallerFails(r.0, c)
  }

  /** SERVICE_COMMITTED reaches the Trainer. */
  function Accept(s: Sys, c: Caller, act: Act): Sys {
    if act != Runs || s.Key() !in s.o.m then CallerFails(s, c)
    else CallerReturns(s.(answers := s.answers + [AnswerNow(s)]), c, false)
  }

  function AnswerNow(s: Sys): Answer
    requires s.Key() in s.o.m
  {
    var k := s.Key();
    Answer(s.cmd.kind, k, s.o.m[k], k in s.o.eff, k in s.o.route, k in s.o.pool)
  }

  // ---------------------------------------------------------------- DONATE and REMOVE

  /** A replayed exit first asks M for its release evidence. */
  function QueryRelease(s: Sys, act: Act): Sys {
    if !s.tried then s.At(Admitting)
    else if act != Runs then s.Unknown()
    else if s.Op() in s.o.rel then (if s.o.rel[s.Op()] == s.Key() then s.At(Closing(true)) else s.Unknown())
    else s.At(Checking)
  }

  function ReconcileExit(s: Sys, act: Act): Sys {
    if act != Runs then s.Unknown()
    else if !s.FencedHere() then s.At(Admitting)
    else if !s.Bound() then s.Unknown()
    else if s.Key() in s.o.eff then s.At(Admitting)
    else if s.lock == Free then s.(lock := Worker).At(Commit(ExitRecover))
    else s
  }

  /** prepare_exit failed: only a missing binding proves that nothing happened. */
  function ExitFails(s: Sys, inconclusive: bool): Sys {
    if inconclusive || s.Bound() then s.Unknown() else s.At(Closing(false))
  }

  predicate MayExit(s: Sys) {
    if s.cmd.force then s.Kind(BORROWED) && (s.State(ACTIVE) || (s.State(DRAINING) && s.Bound()))
    else s.State(ACTIVE) || s.State(DRAINING)
  }

  function PrepareExit(s: Sys, act: Act, inconclusive: bool): Sys {
    if act != Runs || !MayExit(s) then ExitFails(s, inconclusive)
    else s.Enter(DRAINING).Bind().At(Shutting)
  }

  /** begin_drain with its one replay; `lost` loses both replies. */
  function BeginDrain(s: Sys, act: Act, lost: bool): Sys {
    if act != Runs || s.Key() !in s.o.route || (s.Key() in s.o.drain && s.o.drain[s.Key()] != s.Op()) then s.Unknown()
    else if lost then s.With(s.o.BeginDrain(s.Key(), s.Op())).Unknown()
    else s.With(s.o.BeginDrain(s.Key(), s.Op())).At(Draining)
  }

  /** One poll of the drain; running out of time leaves everything for the same operation's replay. */
  function PollDrain(s: Sys, act: Act, lost: bool): Sys {
    if act != Runs then s.Unknown()
    else if s.o.Admits(s.Key()) then s
    else if lost then s.Unknown()
    else s.At(Drained)
  }

  function EnterExitGate(s: Sys, act: Act): Sys {
    if act != Runs || s.latch != NoFence then s.Unknown()
    else if s.lock != Free then s
    else s.(lock := Worker).At(Removing)
  }

  function RemoveMember(s: Sys, act: Act): Sys {
    if act != Runs || !s.Bound() || s.Key() !in s.o.eff then s.(lock := Free).Unknown()
    else if s.Kind(NATIVE) then s.With(s.o.RemoveEffective(s.Key()).Park(s.Key(), s.Op())).At(Commit(Exit))
    else s.With(s.o.RemoveEffective(s.Key())).At(Commit(Exit))
  }

  function ReleaseExit(s: Sys, act: Act, lost: bool): Sys {
    var r := FinalizeRelease(s, act);
    if r.1 && !lost then r.0.At(Closing(true)) else r.0.Unknown()
  }

  // ---------------------------------------------------------------- the end of a worker

  function Return(s: Sys, released: bool, act: Act): Sys {
    if act != Runs then s.Unknown()
    else if s.IsExit() then s.At(Releasing)
    else s.At(Closing(!released))
  }

  /** ADD reports success through the journal alone, and a rejected exit owes GS nothing. */
  predicate OwesEvidence(s: Sys, ok: bool) {
    if s.cmd.kind == ADD then !ok else if s.IsExit() then ok else true
  }

  function Close(s: Sys, ok: bool, act: Act): Sys {
    if act != Runs && OwesEvidence(s, ok) then s.Unknown()
    else if act == Runs then s.Unbind().(busy := false, pc := Idle)
    else s.(busy := false, pc := Idle)
  }

  // ---------------------------------------------------------------- the whole system

  datatype Event =
    | ESubmit(cmd: Command)
    | EReplay
    | EWork(act: Act, lost: bool)
    | ESyncBegins
    | ESyncEnds(ok: bool)
    | ETrain
    | EAcquire(request: string, key: ReplicaKey)
    | ESettle(request: string)

  function Launch(s: Sys, act: Act, lost: bool): Sys {
    match s.cmd.kind
    case ADD => PrepareAdd(s, act, lost)
    case RESTORE => PrepareRestore(s, act, lost)
    case _ => QueryRelease(s, act)
  }

  // The worker's calls by part: up to E, through commit_service_change, its answers, and the exits.

  predicate Boots(pc: Pc) {
    pc.Prepared? || pc.Opened? || pc.Registered? || pc.Ready? || pc.Rollback? || pc.RollbackRelease?
  }

  predicate Commits(pc: Pc) {
    pc.Commit? || pc.Publishing? || pc.Doubt? || pc.Unrouting?
  }

  predicate Replies(pc: Pc) {
    pc.Absent? || pc.Withdrawn? || pc.Committed? || pc.Failing? || pc.Returning? || pc.Closing?
  }

  predicate Exits(pc: Pc) {
    pc.Checking? || pc.Admitting? || pc.Shutting? || pc.Draining? || pc.Drained? || pc.Removing? || pc.Releasing?
  }

  function WorkBoot(s: Sys, act: Act, lost: bool): Sys
    requires Boots(s.pc)
  {
    match s.pc
    case Prepared => EnterGate(s, act)
    case Opened => if s.cmd.kind == RESTORE then OpenRestore(s, act) else OpenAdd(s, act)
    case Registered => Bootstrap(s, act)
    case Ready => Promote(s, act)
    case Rollback => DropPending(s)
    case RollbackRelease => RollBack(s, act, lost)
  }

  function WorkCommit(s: Sys, act: Act, lost: bool): Sys
    requires Commits(s.pc)
  {
    match s.pc
    case Commit(c) => CommitService(s, c, act)
    case Publishing(c) => PublishRoute(s, c, act, lost)
    case Doubt(c) => ResolveDoubt(s, c, act)
    case Unrouting(c) => Unroute(s, c, act, lost)
  }

  function WorkReply(s: Sys, act: Act, lost: bool): Sys
    requires Replies(s.pc)
  {
    match s.pc
    case Absent(c) => Withdraw(s, c, act)
    case Withdrawn(c) => ReleaseWithdrawn(s, c, act, lost)
    case Committed(c) => Accept(s, c, act)
    case Failing => Quarantine(s, act)
    case Returning(r) => Return(s, r, act)
    case Closing(ok) => Close(s, ok, act)
  }

  function WorkExit(s: Sys, act: Act, lost: bool): Sys
    requires Exits(s.pc)
  {
    match s.pc
    case Checking => ReconcileExit(s, act)
    case Admitting => PrepareExit(s, act, lost)
    case Shutting => BeginDrain(s, act, lost)
    case Draining => PollDrain(s, act, lost)
    case Drained => EnterExitGate(s, act)
    case Removing => RemoveMember(s, act)
    case Releasing => ReleaseExit(s, act, lost)
  }

  function Work(s: Sys, act: Act, lost: bool): Sys {
    if s.pc == Idle then s
    else if s.pc == Launched then Launch(s, act, lost)
    else if Boots(s.pc) then WorkBoot(s, act, lost)
    else if Commits(s.pc) then WorkCommit(s, act, lost)
    else if Replies(s.pc) then WorkReply(s, act, lost)
    else WorkExit(s, act, lost)
  }

  function Submit(s: Sys, cmd: Command): Sys {
    if s.busy || cmd.op in s.used then s
    else s.(busy := true, cmd := cmd, tried := false, pc := Launched, used := s.used + {cmd.op})
  }

  function Acquire(o: Owners, r: string, k: ReplicaKey): Owners {
    if r !in o.adm && k in o.pool then o.(adm := o.adm[r := k]) else o
  }

  function Step(s: Sys, e: Event): Sys {
    match e
    case ESubmit(c) => Submit(s, c)
    case EReplay => if s.busy && s.pc == Idle then s.At(Launched) else s
    case EWork(a, l) => Work(s, a, l)
    case ESyncBegins => if s.lock == Free && s.latch == NoFence then s.(lock := Sync) else s
    case ESyncEnds(ok) => if s.lock != Sync then s else s.(lock := Free, latch := if ok then s.latch else BySync)
    case ETrain => s.(version := s.version + 1)
    case EAcquire(r, k) => s.With(Acquire(s.o, r, k))
    case ESettle(r) => s.With(s.o.(adm := s.o.adm - {r}))
  }

  function Run(s: Sys, es: seq<Event>): Sys {
    if es == [] then s else Step(Run(s, es[..|es| - 1]), es[|es| - 1])
  }

  /** A task after initialisation: native replicas only, all ACTIVE, effective and routed. */
  ghost predicate Begun(s: Sys) {
    && !s.busy && s.pc == Idle && s.lock == Free && s.latch == NoFence && s.bind == map[] && s.used == {}
    && s.freed == [] && s.answers == [] && OwnersBegun(s.o)
  }

  ghost predicate OwnersBegun(o: Owners) {
    && o.m.Keys == o.kind.Keys == o.eff == o.pool == o.route == o.up
    && (forall k | k in o.m :: o.m[k] == ACTIVE && o.kind[k] == NATIVE)
    && o.made == map[] && o.spoilt == {} && o.rel == map[] && o.pend == map[] && o.ready == map[]
    && o.pub == map[] && o.drain == map[] && o.adm == map[]
  }
}
