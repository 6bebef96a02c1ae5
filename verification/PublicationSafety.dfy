/** Every step of the composed system keeps the owners' agreement, and what follows for whole runs. */
module PublicationSafety {
  import opened Contracts
  import opened Publication
  import opened PublicationOwners
  import opened PublicationWorker

  ghost predicate Books(s: Sys) {
    && (forall b | b in s.bind :: b in s.used)
    && (s.busy ==> s.Op() in s.used) && (s.pc != Idle ==> s.busy)
    && (s.latch.ByOperation? ==> s.latch.op in s.used)
    && (s.lock == Sync ==> s.latch == NoFence)
  }

  /** finalize_release: never routed, nothing admitted; effective exactly in an ADD rollback of a DRAINING target. */
  predicate FreedRight(f: Freed) {
    !f.routed && !f.admitted && (f.effective <==> f.rollback && f.from == DRAINING)
      && (f.down <==> !(f.native && f.replayed))
  }

  /** SERVICE_COMMITTED: an exit's target has left E and R; a publication's is routed exactly if M is not DRAINING. */
  predicate AnswerRight(a: Answer) {
    if a.kind in {ADD, RESTORE} then a.effective && a.pooled == a.routed && (a.routed <==> a.state != DRAINING)
    else !a.effective && !a.routed && a.state == DRAINING
  }

  ghost predicate Logs(s: Sys) {
    (forall f | f in s.freed :: FreedRight(f)) && (forall a | a in s.answers :: AnswerRight(a))
  }

  ghost predicate Sound(s: Sys) {
    Agreement(s.o) && Named(s.o, s.used) && Books(s)
  }

  ghost predicate Inv(s: Sys) {
    Sound(s) && Target(s) && AtPc(s) && Logs(s)
  }

  lemma AgreesAt(o: Owners, k: ReplicaKey, op: string)
    requires Agreement(o)
    ensures AgreeAt(o, k, op)
  {
  }

  lemma Known(s: Sys)
    requires Inv(s)
    ensures Knows(s)
  {
    AgreesAt(s.o, s.Key(), s.Op());
  }

  // ---------------------------------------------------------------- owner actions of each call

  /** No call renames anything: the worker only binds its own operation and only latches its own operation. */
  predicate Stays(s: Sys, n: Sys) {
    && n.used == s.used && n.cmd == s.cmd && n.version == s.version
    && (n.busy ==> s.busy) && (n.pc != Idle ==> n.busy)
    && (n.bind == s.bind || n.bind == s.bind[s.Op() := s.Key()] || n.bind == s.bind - {s.Op()}
        || n.bind == s.bind[s.Op() := s.Key()] - {s.Op()})
    && (n.latch == s.latch || n.latch == NoFence || n.latch == ByOperation(s.Op()))
    && (s.lock == Sync ==> n.lock == Sync && n.latch == s.latch) && (n.lock == Sync ==> s.lock == Sync)
  }

  predicate Quietly(s: Sys, n: Sys) {
    n.freed == s.freed && n.answers == s.answers
  }

  /** What a call may rely on: the owners agree and the worker knows where it stands. */
  ghost predicate Guarded(s: Sys) {
    Agreement(s.o) && Named(s.o, s.used) && s.Op() in s.used && Knows(s)
  }

  /** The worker's own fields move; the owners do not. */
  predicate Same(s: Sys, n: Sys) {
    n.o == s.o && n.used == s.used
  }

  lemma EnterAgrees(s: Sys, x: ReplicaState)
    requires Agreement(s.o) && Named(s.o, s.used) && s.Key() in s.o.m
             && (s.Key() in s.o.route ==> x in {ACTIVE, DRAINING})
    requires x in {CREATING, ACTIVE, DRAINING} ==> s.Key() in s.o.up
    ensures Agreement(s.Enter(x).o) && Named(s.Enter(x).o, s.used)
  {
    EnterAgree(s.o, s.Key(), x);
  }

  lemma FinalizeAgrees(s: Sys, act: Act)
    requires Agreement(s.o) && Named(s.o, s.used) && s.Op() in s.used && s.Key() !in s.o.route
    ensures Agreement(FinalizeRelease(s, act).0.o) && Named(FinalizeRelease(s, act).0.o, s.used)
  {
    if act == NotRun || act == Refused || !MayRelease(s) {
    } else if act.Breaks? {
      EnterAgrees(s, QUARANTINED);
    } else {
      ReleaseAgree(s.o, s.Key(), s.Op());
      NamedRelease(s.o, s.used, s.Key(), s.Op());
    }
  }

  lemma WakeAgrees(s: Sys)
    requires Agreement(s.o) && Named(s.o, s.used) && s.State(DORMANT)
    ensures var n := s.With(s.o.Woken(s.Key())).Enter(ACTIVE); Agreement(n.o) && Named(n.o, s.used)
  {
    WakeAgree(s.o, s.Key());
    EnterAgrees(s.With(s.o.Woken(s.Key())), ACTIVE);
  }

  lemma CallerFailsSame(s: Sys, c: Caller)
    ensures Same(s, CallerFails(s, c)) && Quietly(s, CallerFails(s, c))
  {
  }

  lemma ActivateAgrees(s: Sys, c: Caller, act: Act)
    requires Guarded(s) && s.pc == Commit(c) && (s.State(CREATING) || s.State(DORMANT))
    ensures var n := Activate(s, c, act); Agreement(n.o) && Named(n.o, n.used) && n.used == s.used
  {
    if act.Breaks? {
      EnterAgrees(s, QUARANTINED);
      CallerFailsSame(s.Enter(QUARANTINED), c);
    } else if s.State(DORMANT) {
      WakeAgrees(s);
    } else {
      EnterAgrees(s, ACTIVE);
    }
  }

  /** prepare_replica's two ways to end, over owners it has already changed. */
  lemma CreateRaisesSame(s: Sys, b: Sys, lost: bool)
    requires b == s.Bind().With(b.o) && s.pc == Launched && s.busy
    ensures var n := CreateRaises(b, lost); n.o == b.o && Stays(s, n) && Quietly(s, n)
  {
  }

  lemma CreateAnswersSame(s: Sys, b: Sys, lost: bool)
    requires b == s.Bind().With(b.o) && s.pc == Launched && s.busy
    ensures var n := CreateAnswers(b, lost); n.o == b.o && Stays(s, n) && Quietly(s, n)
  {
  }

  lemma CreatedAgrees(s: Sys, act: Act, lost: bool, x: ReplicaState)
    requires Agreement(s.o) && Named(s.o, s.used) && s.Op() in s.used && s.pc == Launched && s.busy && s.Key() !in s.o.m
    requires x in {CREATING, RELEASED, QUARANTINED}
    ensures var b := s.Bind().With(s.o.Create(s.Key(), s.Op(), x));
      forall n | n == CreateRaises(b, lost) || n == CreateAnswers(b, lost) ::
        Agreement(n.o) && Named(n.o, n.used) && n.used == s.used
  {
    var b := s.Bind().With(s.o.Create(s.Key(), s.Op(), x));
    CreateAgree(s.o, s.Key(), s.Op(), x);
    NamedCreate(s.o, s.used, s.Key(), s.Op(), x);
    CreateRaisesSame(s, b, lost);
    CreateAnswersSame(s, b, lost);
  }

  lemma PrepareAddAgrees(s: Sys, act: Act, lost: bool)
    requires Guarded(s) && s.pc == Launched && s.cmd.kind == ADD
    ensures var n := PrepareAdd(s, act, lost); Agreement(n.o) && Named(n.o, n.used) && n.used == s.used
  {
    var k, op := s.Key(), s.Op();
    if act == NotRun {
    } else if act == Refused || (k in s.o.m && !(k in s.o.made && s.o.made[k] == op)) || k in s.o.spoilt {
      CreateRaisesSame(s, s.Bind(), lost);
    } else if k in s.o.m {
      CreateAnswersSame(s, s.Bind(), lost);
    } else {
      CreatedAgrees(s, act, lost, if act == Breaks(true) then RELEASED else if act.Breaks? then QUARANTINED
                    else CREATING);
    }
  }

  lemma PrepareRestoreAgrees(s: Sys, act: Act, lost: bool)
    requires Guarded(s) && s.pc == Launched && s.cmd.kind == RESTORE
    ensures var n := PrepareRestore(s, act, lost); Same(s, n)
  {
  }

  lemma EnterGateAgrees(s: Sys, act: Act)
    requires Guarded(s) && s.pc == Prepared
    ensures var n := EnterGate(s, act); Same(s, n)
  {
  }

  lemma OpenAddAgrees(s: Sys, act: Act)
    requires Guarded(s) && s.pc == Opened && s.cmd.kind == ADD
    ensures var n := OpenAdd(s, act); Agreement(n.o) && Named(n.o, n.used) && n.used == s.used
  {
    if s.Key() !in s.o.eff { ParkAgree(s.o, s.Key(), s.Op()); }
  }

  lemma OpenRestoreAgrees(s: Sys, act: Act)
    requires Guarded(s) && s.pc == Opened && s.cmd.kind == RESTORE
    ensures var n := OpenRestore(s, act); Agreement(n.o) && Named(n.o, n.used) && n.used == s.used
  {
    DiscardAgree(s.o, s.Key());
    if s.Key() in s.o.pend { ParkAgree(s.o.Discard(s.Key()), s.Key(), s.Op()); }
  }

  lemma BootstrapMoves(s: Sys, act: Act)
    requires s.pc == Registered && AtPc(s)
    ensures var n := Bootstrap(s, act);
      && n.used == s.used
      && (n.o == s.o || n.o == s.o.Loaded(s.Key(), s.Op(), s.version)
          || (s.State(DORMANT) && (n.o == s.o.Slept(s.Key()) || n.o == s.o.Woken(s.Key()))))
  {
  }

  lemma BootstrapAgrees(s: Sys, act: Act)
    requires Guarded(s) && s.pc == Registered
    ensures var n := Bootstrap(s, act); Agreement(n.o) && Named(n.o, n.used) && n.used == s.used
  {
    BootstrapMoves(s, act);
    LoadAgrees(s.o, s.used, s.Key(), s.Op(), s.version);
  }

  lemma LoadAgrees(o: Owners, used: set<string>, k: ReplicaKey, op: string, version: nat)
    requires Agreement(o) && Named(o, used)
    ensures Agreement(o.Loaded(k, op, version)) && Named(o.Loaded(k, op, version), used)
    ensures o.In(k, DORMANT) ==>
            Agreement(o.Slept(k)) && Named(o.Slept(k), used) && Agreement(o.Woken(k)) && Named(o.Woken(k), used)
  {
    LoadAgree(o, k, op, version);
    WakeAgree(o, k);
    if o.In(k, DORMANT) { SleepAgree(o, k); }
  }

  lemma BootFailsSame(s: Sys)
    ensures Same(s, BootFails(s))
  {
  }

  lemma PromoteMoves(s: Sys, act: Act)
    ensures var n := Promote(s, act); n.used == s.used && (n.o == s.o || n.o == s.o.Promote(s.Key()))
  {
    BootFailsSame(s);
  }

  lemma PromoteAgrees(s: Sys, act: Act)
    requires Guarded(s) && s.pc == Ready
    ensures var n := Promote(s, act); Agreement(n.o) && Named(n.o, n.used) && n.used == s.used
  {
    PromoteMoves(s, act);
    PromoteAgree(s.o, s.Key());
  }

  lemma DropPendingAgrees(s: Sys)
    requires Guarded(s) && s.pc == Rollback
    ensures var n := DropPending(s); Agreement(n.o) && Named(n.o, n.used) && n.used == s.used
  {
    DiscardAgree(s.o, s.Key());
  }

  lemma RollBackAgrees(s: Sys, act: Act, lost: bool)
    requires Guarded(s) && s.pc == RollbackRelease
    ensures var n := RollBack(s, act, lost); Agreement(n.o) && Named(n.o, n.used) && n.used == s.used
  {
    if MayRelease(s) { FinalizeAgrees(s, act); }
  }

  lemma CommitServiceAgrees(s: Sys, c: Caller, act: Act)
    requires Guarded(s) && s.pc == Commit(c)
    ensures var n := CommitService(s, c, act); Agreement(n.o) && Named(n.o, n.used) && n.used == s.used
  {
    if act == NotRun || act == Refused || !s.Bound() {
      CallerFailsSame(s, c);
    } else if (s.State(CREATING) && s.Kind(BORROWED)) || (s.State(DORMANT) && s.Kind(NATIVE)) {
      ActivateAgrees(s, c, act);
    } else if !s.State(ACTIVE) && !s.State(DRAINING) {
      CallerFailsSame(s, c);
    }
  }

  lemma PublishRouteAgrees(s: Sys, c: Caller, act: Act, lost: bool)
    requires Guarded(s) && s.pc == Publishing(c)
    ensures var n := PublishRoute(s, c, act, lost); Agreement(n.o) && Named(n.o, n.used) && n.used == s.used
  {
    CommitAgree(s.o, s.Key(), s.Op());
    NamedCommit(s.o, s.used, s.Key(), s.Op());
  }

  lemma ResolveDoubtAgrees(s: Sys, c: Caller, act: Act)
    requires Guarded(s) && s.pc == Doubt(c)
    ensures var n := ResolveDoubt(s, c, act); Agreement(n.o) && Named(n.o, n.used) && n.used == s.used
  {
    EnterAgrees(s, DRAINING);
  }

  lemma UnrouteMoves(s: Sys, c: Caller, act: Act, lost: bool)
    ensures var n := Unroute(s, c, act, lost);
      n.used == s.used && (n.o == s.o || (!s.o.Admits(s.Key()) && n.o == s.o.FinishRemove(s.Key())))
  {
    var k := s.Key();
    CallerFailsSame(s, c);
    if k in s.o.route { CallerFailsSame(s.With(s.o.FinishRemove(k)), c); }
    assert k !in s.o.route ==> Unroute(s, c, act, lost).o == s.o;
  }

  lemma UnrouteAgrees(s: Sys, c: Caller, act: Act, lost: bool)
    requires Guarded(s) && s.pc == Unrouting(c)
    ensures var n := Unroute(s, c, act, lost); Agreement(n.o) && Named(n.o, n.used) && n.used == s.used
  {
    UnrouteMoves(s, c, act, lost);
    if !s.o.Admits(s.Key()) { FinishAgree(s.o, s.Key()); NamedCommit(s.o, s.used, s.Key(), s.Op()); }
  }

  lemma WithdrawAgrees(s: Sys, c: Caller, act: Act)
    requires Guarded(s) && s.pc == Absent(c)
    ensures var n := Withdraw(s, c, act); Agreement(n.o) && Named(n.o, n.used) && n.used == s.used
  {
    RemoveAgree(s.o, s.Key());
    ParkAgree(s.o.RemoveEffective(s.Key()), s.Key(), s.Op());
  }

  lemma ReleaseWithdrawnMoves(s: Sys, c: Caller, act: Act, lost: bool)
    ensures var n := ReleaseWithdrawn(s, c, act, lost); n.used == s.used && n.o == FinalizeRelease(s, act).0.o
  {
    CallerFailsSame(FinalizeRelease(s, act).0, c);
  }

  lemma ReleaseWithdrawnAgrees(s: Sys, c: Caller, act: Act, lost: bool)
    requires Guarded(s) && s.pc == Withdrawn(c)
    ensures var n := ReleaseWithdrawn(s, c, act, lost); Agreement(n.o) && Named(n.o, n.used) && n.used == s.used
  {
    ReleaseWithdrawnMoves(s, c, act, lost);
    FinalizeAgrees(s, act);
  }

  lemma AcceptAgrees(s: Sys, c: Caller, act: Act)
    requires Guarded(s) && s.pc == Committed(c)
    ensures var n := Accept(s, c, act); Same(s, n)
  {
  }

  lemma QuarantineAgrees(s: Sys, act: Act)
    requires Guarded(s) && s.pc == Failing
    ensures var n := Quarantine(s, act); Agreement(n.o) && Named(n.o, n.used) && n.used == s.used
  {
    if s.State(DORMANT) { EnterAgrees(s, QUARANTINED); }
  }

  lemma ReturnAgrees(s: Sys, released: bool, act: Act)
    requires Guarded(s) && s.pc == Returning(released)
    ensures var n := Return(s, released, act); Same(s, n)
  {
  }

  lemma QueryReleaseAgrees(s: Sys, act: Act)
    requires Guarded(s) && s.pc == Launched && s.IsExit()
    ensures var n := QueryRelease(s, act); Same(s, n)
  {
  }

  lemma ReconcileExitAgrees(s: Sys, act: Act)
    requires Guarded(s) && s.pc == Checking
    ensures var n := ReconcileExit(s, act); Same(s, n)
  {
  }

  lemma PrepareExitAgrees(s: Sys, act: Act, inconclusive: bool)
    requires Guarded(s) && s.pc == Admitting
    ensures var n := PrepareExit(s, act, inconclusive); Agreement(n.o) && Named(n.o, n.used) && n.used == s.used
  {
    if MayExit(s) { EnterAgrees(s, DRAINING); }
  }

  lemma BeginDrainMoves(s: Sys, act: Act, lost: bool)
    ensures var n := BeginDrain(s, act, lost);
      n.used == s.used && (n.o == s.o || (s.Key() in s.o.route && n.o == s.o.BeginDrain(s.Key(), s.Op())))
  {
  }

  lemma BeginDrainAgrees(s: Sys, act: Act, lost: bool)
    requires Guarded(s) && s.pc == Shutting
    ensures var n := BeginDrain(s, act, lost); Agreement(n.o) && Named(n.o, n.used) && n.used == s.used
  {
    BeginDrainMoves(s, act, lost);
    if s.Key() in s.o.route { DrainAgree(s.o, s.Key(), s.Op()); }
  }

  lemma PollDrainAgrees(s: Sys, act: Act, lost: bool)
    requires Guarded(s) && s.pc == Draining
    ensures var n := PollDrain(s, act, lost); Same(s, n)
  {
  }

  lemma EnterExitGateAgrees(s: Sys, act: Act)
    requires Guarded(s) && s.pc == Drained
    ensures var n := EnterExitGate(s, act); Same(s, n)
  {
  }

  lemma RemoveMemberAgrees(s: Sys, act: Act)
    requires Guarded(s) && s.pc == Removing
    ensures var n := RemoveMember(s, act); Agreement(n.o) && Named(n.o, n.used) && n.used == s.used
  {
    RemoveAgree(s.o, s.Key());
    ParkAgree(s.o.RemoveEffective(s.Key()), s.Key(), s.Op());
  }

  lemma ReleaseExitAgrees(s: Sys, act: Act, lost: bool)
    requires Guarded(s) && s.pc == Releasing
    ensures var n := ReleaseExit(s, act, lost); Agreement(n.o) && Named(n.o, n.used) && n.used == s.used
  {
    FinalizeAgrees(s, act);
  }

  lemma CloseAgrees(s: Sys, ok: bool, act: Act)
    requires Guarded(s) && s.pc == Closing(ok)
    ensures var n := Close(s, ok, act); Same(s, n)
  {
  }

  // ---------------------------------------------------------------- names and history

  lemma BooksStay(s: Sys, n: Sys)
    requires Books(s) && s.busy && Stays(s, n)
    ensures Books(n)
  {
  }

  /** Every release is right when it is recorded. */
  lemma ReleaseRight(s: Sys)
    requires Knows(s) && MayRelease(s)
    requires (s.pc == RollbackRelease) || (exists c :: s.pc == Withdrawn(c)) || s.pc == Releasing
    ensures FreedRight(FreedNow(s))
  {
  }

  lemma AnswerIsRight(s: Sys, c: Caller)
    requires Knows(s) && s.pc == Committed(c) && s.Key() in s.o.m
    ensures AnswerRight(AnswerNow(s))
  {
  }

  lemma LogsGrow(s: Sys, n: Sys)
    requires Logs(s)
    requires n.freed == s.freed || (exists f :: FreedRight(f) && n.freed == s.freed + [f])
    requires n.answers == s.answers || (exists a :: AnswerRight(a) && n.answers == s.answers + [a])
    ensures Logs(n)
  {
  }

  lemma PrepareAddStays(s: Sys, act: Act, lost: bool)
    requires s.busy && s.pc == Launched
    ensures Stays(s, PrepareAdd(s, act, lost)) && Quietly(s, PrepareAdd(s, act, lost))
  {
    var k, op := s.Key(), s.Op();
    if act == NotRun {
    } else if act == Refused || (k in s.o.m && !(k in s.o.made && s.o.made[k] == op)) || k in s.o.spoilt {
      CreateRaisesSame(s, s.Bind(), lost);
    } else if k in s.o.m {
      CreateAnswersSame(s, s.Bind(), lost);
    } else if act.Breaks? {
      CreateRaisesSame(s, s.Bind().With(s.o.Create(k, op, if act.clean then RELEASED else QUARANTINED)), lost);
    } else {
      CreateAnswersSame(s, s.Bind().With(s.o.Create(k, op, CREATING)), lost);
    }
  }

  lemma LaunchStays(s: Sys, act: Act, lost: bool)
    requires AtPc(s) && s.busy && s.pc == Launched
    ensures Stays(s, Launch(s, act, lost)) && Quietly(s, Launch(s, act, lost))
  {
    match s.cmd.kind
    case ADD => PrepareAddStays(s, act, lost);
    case RESTORE => PrepareRestoreStays(s, act, lost);
    case _ =>
  }

  lemma PrepareRestoreStays(s: Sys, act: Act, lost: bool)
    requires s.busy && s.pc == Launched
    ensures Stays(s, PrepareRestore(s, act, lost)) && Quietly(s, PrepareRestore(s, act, lost))
  {
    CreateAnswersSame(s, s.Bind(), lost);
  }

  lemma EnterGateStays(s: Sys, act: Act)
    requires s.busy && s.pc == Prepared
    ensures Stays(s, EnterGate(s, act))
  {
  }

  lemma OpenAddStays(s: Sys, act: Act)
    requires s.busy && s.lock == Worker
    ensures Stays(s, OpenAdd(s, act))
  {
  }

  lemma OpenRestoreStays(s: Sys, act: Act)
    requires s.busy && s.lock == Worker
    ensures Stays(s, OpenRestore(s, act))
  {
  }

  lemma BootFailsStays(s: Sys, o: Owners)
    requires s.busy && s.lock == Worker
    ensures Stays(s, BootFails(s.With(o)))
  {
  }

  lemma BootstrapStays(s: Sys, act: Act)
    requires s.lock == Worker && s.busy && s.pc == Registered
    ensures Stays(s, Bootstrap(s, act))
  {
    BootFailsStays(s, s.o);
    BootFailsStays(s, s.o.Woken(s.Key()));
  }

  lemma PromoteStays(s: Sys, act: Act)
    requires s.lock == Worker && s.busy && s.pc == Ready
    ensures Stays(s, Promote(s, act))
  {
    BootFailsStays(s, s.o);
  }

  lemma ReleaseStays(s: Sys, act: Act)
    requires s.busy
    ensures var n := FinalizeRelease(s, act).0;
      && n.used == s.used && n.cmd == s.cmd && n.version == s.version && n.busy == s.busy && n.pc == s.pc
      && (n.bind == s.bind || n.bind == s.bind - {s.Op()}) && n.latch == s.latch && n.lock == s.lock
  {
  }

  lemma RollBackStays(s: Sys, act: Act, lost: bool)
    requires s.lock == Worker && s.busy && s.pc == RollbackRelease
    ensures Stays(s, RollBack(s, act, lost))
  {
    ReleaseStays(s, act);
  }

  lemma BootStays(s: Sys, act: Act, lost: bool)
    requires AtPc(s) && s.busy && Boots(s.pc)
    ensures Stays(s, WorkBoot(s, act, lost))
  {
    match s.pc
    case Prepared => EnterGateStays(s, act);
    case Opened => if s.cmd.kind == RESTORE { OpenRestoreStays(s, act); } else { OpenAddStays(s, act); }
    case Registered => BootstrapStays(s, act);
    case Ready => PromoteStays(s, act);
    case Rollback =>
    case RollbackRelease => RollBackStays(s, act, lost);
  }

  lemma CallerFailsStays(s: Sys, o: Owners, c: Caller)
    requires s.busy && s.lock == Worker
    ensures Stays(s, CallerFails(s.With(o), c))
  {
  }

  lemma ActivateStays(s: Sys, c: Caller, act: Act)
    requires s.busy && s.lock == Worker
    ensures Stays(s, Activate(s, c, act))
  {
    CallerFailsStays(s, s.Enter(QUARANTINED).o, c);
  }

  lemma CommitServiceStays(s: Sys, c: Caller, act: Act)
    requires s.busy && s.lock == Worker && s.pc == Commit(c)
    ensures Stays(s, CommitService(s, c, act))
  {
    CallerFailsStays(s, s.o, c);
    ActivateStays(s, c, act);
  }

  lemma PublishStays(s: Sys, c: Caller, act: Act, lost: bool)
    requires s.busy && s.lock == Worker && s.pc == Publishing(c)
    ensures Stays(s, PublishRoute(s, c, act, lost))
  {
  }

  lemma DoubtStays(s: Sys, c: Caller, act: Act)
    requires s.busy && s.lock == Worker && s.pc == Doubt(c)
    ensures Stays(s, ResolveDoubt(s, c, act))
  {
    if act != Runs { CallerFailsStays(s, s.o, c); }
  }

  lemma UnrouteStays(s: Sys, c: Caller, act: Act, lost: bool)
    requires s.busy && s.lock == Worker && s.pc == Unrouting(c)
    ensures Stays(s, Unroute(s, c, act, lost))
  {
    CallerFailsStays(s, s.o, c);
    CallerFailsStays(s, s.o.FinishRemove(s.Key()), c);
  }

  lemma CommitStays(s: Sys, act: Act, lost: bool)
    requires AtPc(s) && s.busy && Commits(s.pc)
    ensures Stays(s, WorkCommit(s, act, lost))
  {
    match s.pc
    case Commit(c) => CommitServiceStays(s, c, act);
    case Publishing(c) => PublishStays(s, c, act, lost);
    case Doubt(c) => DoubtStays(s, c, act);
    case Unrouting(c) => UnrouteStays(s, c, act, lost);
  }

  lemma WithdrawStays(s: Sys, c: Caller, act: Act)
    requires s.lock == Worker && s.busy && s.pc == Absent(c)
    ensures Stays(s, Withdraw(s, c, act))
  {
    CallerFailsStays(s, s.o, c);
  }

  lemma WithdrawnStays(s: Sys, c: Caller, act: Act, lost: bool)
    requires s.lock == Worker && s.busy && s.pc == Withdrawn(c)
    ensures Stays(s, ReleaseWithdrawn(s, c, act, lost))
  {
    ReleaseStays(s, act);
  }

  lemma AcceptStays(s: Sys, c: Caller, act: Act)
    requires s.lock == Worker && s.busy && s.pc == Committed(c)
    ensures Stays(s, Accept(s, c, act))
  {
    CallerFailsStays(s, s.o, c);
  }

  lemma ReplyStays(s: Sys, act: Act, lost: bool)
    requires AtPc(s) && s.busy && Replies(s.pc)
    ensures Stays(s, WorkReply(s, act, lost))
  {
    hide Withdraw;
    hide ReleaseWithdrawn;
    hide Accept;
    match s.pc
    case Absent(c) => WithdrawStays(s, c, act);
    case Withdrawn(c) => WithdrawnStays(s, c, act, lost);
    case Committed(c) => AcceptStays(s, c, act);
    case _ =>
  }

  lemma ReconcileExitStays(s: Sys, act: Act)
    requires s.busy && s.pc == Checking
    ensures Stays(s, ReconcileExit(s, act))
  {
  }

  lemma ExitGateStays(s: Sys, act: Act)
    requires s.busy && s.pc == Drained
    ensures Stays(s, EnterExitGate(s, act))
  {
  }

  lemma RemoveStays(s: Sys, act: Act)
    requires s.busy && s.lock == Worker
    ensures Stays(s, RemoveMember(s, act))
  {
  }

  lemma ReleaseExitStays(s: Sys, act: Act, lost: bool)
    requires s.busy && s.pc == Releasing
    ensures Stays(s, ReleaseExit(s, act, lost))
  {
    ReleaseStays(s, act);
  }

  lemma PrepareExitStays(s: Sys, act: Act, inconclusive: bool)
    requires s.busy && s.pc == Admitting
    ensures Stays(s, PrepareExit(s, act, inconclusive))
  {
  }

  lemma DrainStays(s: Sys, act: Act, lost: bool)
    requires s.busy && (s.pc == Shutting || s.pc == Draining)
    ensures Stays(s, BeginDrain(s, act, lost)) && Stays(s, PollDrain(s, act, lost))
  {
  }

  lemma ExitStays(s: Sys, act: Act, lost: bool)
    requires AtPc(s) && s.busy && Exits(s.pc)
    ensures Stays(s, WorkExit(s, act, lost))
  {
    match s.pc
    case Checking => ReconcileExitStays(s, act);
    case Admitting => PrepareExitStays(s, act, lost);
    case Shutting => DrainStays(s, act, lost);
    case Draining => DrainStays(s, act, lost);
    case Drained => ExitGateStays(s, act);
    case Removing => RemoveStays(s, act);
    case Releasing => ReleaseExitStays(s, act, lost);
  }

  lemma WorkStays(s: Sys, act: Act, lost: bool)
    requires AtPc(s) && s.busy && s.pc != Idle
    ensures Stays(s, Work(s, act, lost))
  {
    if s.pc == Launched {
      LaunchStays(s, act, lost);
    } else if Boots(s.pc) {
      BootStays(s, act, lost);
    } else if Commits(s.pc) {
      CommitStays(s, act, lost);
    } else if Replies(s.pc) {
      ReplyStays(s, act, lost);
    } else {
      ExitStays(s, act, lost);
    }
  }

  // Only the three releasing calls and the acceptance of SERVICE_COMMITTED write history.

  lemma CallerFailsQuiet(s: Sys, o: Owners, c: Caller)
    ensures Quietly(s, CallerFails(s.With(o), c))
  {
  }

  lemma QuietBoot(s: Sys, act: Act, lost: bool)
    requires Boots(s.pc) && s.pc != RollbackRelease
    ensures Quietly(s, WorkBoot(s, act, lost))
  {
  }

  lemma QuietCommit(s: Sys, act: Act, lost: bool)
    requires Commits(s.pc)
    ensures Quietly(s, WorkCommit(s, act, lost))
  {
    match s.pc
    case Commit(c) => QuietCommitService(s, c, act);
    case Publishing(c) =>
    case Doubt(c) => CallerFailsQuiet(s, s.o, c);
    case Unrouting(c) => QuietUnroute(s, c, act, lost);
  }

  lemma QuietCommitService(s: Sys, c: Caller, act: Act)
    ensures Quietly(s, CommitService(s, c, act))
  {
    CallerFailsQuiet(s, s.o, c);
    CallerFailsQuiet(s, s.Enter(QUARANTINED).o, c);
  }

  lemma QuietUnroute(s: Sys, c: Caller, act: Act, lost: bool)
    ensures Quietly(s, Unroute(s, c, act, lost))
  {
    CallerFailsQuiet(s, s.o, c);
    CallerFailsQuiet(s, s.o.FinishRemove(s.Key()), c);
  }

  lemma QuietReply(s: Sys, act: Act, lost: bool)
    requires Replies(s.pc) && !s.pc.Withdrawn? && !s.pc.Committed?
    ensures Quietly(s, WorkReply(s, act, lost))
  {
    if s.pc.Absent? { CallerFailsQuiet(s, s.o, s.pc.caller); }
  }

  lemma QuietExit(s: Sys, act: Act, lost: bool)
    requires Exits(s.pc) && s.pc != Releasing
    ensures Quietly(s, WorkExit(s, act, lost))
  {
  }

  /** finalize_release adds at most its own entry. */
  predicate Frees(s: Sys, n: Sys) {
    n.answers == s.answers && (n.freed == s.freed || (MayRelease(s) && n.freed == s.freed + [FreedNow(s)]))
  }

  lemma FinalizeFrees(s: Sys, act: Act)
    ensures Frees(s, FinalizeRelease(s, act).0)
  {
  }

  lemma RollBackFrees(s: Sys, act: Act, lost: bool)
    ensures Frees(s, RollBack(s, act, lost))
  {
    FinalizeFrees(s, act);
  }

  lemma WithdrawnFrees(s: Sys, c: Caller, act: Act, lost: bool)
    ensures Frees(s, ReleaseWithdrawn(s, c, act, lost))
  {
    var n := FinalizeRelease(s, act).0;
    FinalizeFrees(s, act);
    CallerFailsQuiet(n, n.o, c);
    assert n.With(n.o) == n;
  }

  lemma ReleaseFrees(s: Sys, act: Act, lost: bool)
    ensures Frees(s, ReleaseExit(s, act, lost))
  {
    FinalizeFrees(s, act);
  }

  lemma FreesLogs(s: Sys, n: Sys)
    requires Knows(s) && Logs(s) && Frees(s, n) && (s.pc == RollbackRelease || s.pc.Withdrawn? || s.pc == Releasing)
    ensures Logs(n)
  {
    if MayRelease(s) { ReleaseRight(s); }
    LogsGrow(s, n);
  }

  lemma AcceptLogs(s: Sys, c: Caller, act: Act)
    requires Knows(s) && Logs(s) && s.pc == Committed(c)
    ensures Logs(Accept(s, c, act))
  {
    if s.Key() in s.o.m { AnswerIsRight(s, c); }
    CallerFailsQuiet(s, s.o, c);
    LogsGrow(s, Accept(s, c, act));
  }

  lemma WorkLogs(s: Sys, act: Act, lost: bool)
    requires Knows(s) && Logs(s) && s.busy
    ensures Logs(Work(s, act, lost))
  {
    if s.pc == Idle {
    } else if s.pc == Launched {
      LaunchStays(s, act, lost);
      LogsGrow(s, Launch(s, act, lost));
    } else if s.pc == RollbackRelease {
      RollBackFrees(s, act, lost);
      FreesLogs(s, RollBack(s, act, lost));
    } else if s.pc.Withdrawn? {
      WithdrawnFrees(s, s.pc.caller, act, lost);
      FreesLogs(s, ReleaseWithdrawn(s, s.pc.caller, act, lost));
    } else if s.pc == Releasing {
      ReleaseFrees(s, act, lost);
      FreesLogs(s, ReleaseExit(s, act, lost));
    } else if s.pc.Committed? {
      AcceptLogs(s, s.pc.caller, act);
    } else {
      QuietLogs(s, act, lost);
    }
  }

  lemma QuietLogs(s: Sys, act: Act, lost: bool)
    requires Logs(s) && s.pc != Idle && s.pc != Launched
    requires s.pc != RollbackRelease && !s.pc.Withdrawn? && s.pc != Releasing && !s.pc.Committed?
    ensures Logs(Work(s, act, lost))
  {
    if Boots(s.pc) {
      QuietBoot(s, act, lost);
    } else if Commits(s.pc) {
      QuietCommit(s, act, lost);
    } else if Replies(s.pc) {
      QuietReply(s, act, lost);
    } else {
      QuietExit(s, act, lost);
    }
    LogsGrow(s, Work(s, act, lost));
  }

  // ---------------------------------------------------------------- every step

  lemma BootSound(s: Sys, act: Act, lost: bool)
    requires Guarded(s) && Boots(s.pc)
    ensures var n := WorkBoot(s, act, lost); Agreement(n.o) && Named(n.o, s.used)
  {
    match s.pc
    case Prepared => EnterGateAgrees(s, act);
    case Opened => if s.cmd.kind == RESTORE { OpenRestoreAgrees(s, act); } else { OpenAddAgrees(s, act); }
    case Registered => BootstrapAgrees(s, act);
    case Ready => PromoteAgrees(s, act);
    case Rollback => DropPendingAgrees(s);
    case RollbackRelease => RollBackAgrees(s, act, lost);
  }

  lemma CommitSound(s: Sys, act: Act, lost: bool)
    requires Guarded(s) && Commits(s.pc)
    ensures var n := WorkCommit(s, act, lost); Agreement(n.o) && Named(n.o, s.used)
  {
    match s.pc
    case Commit(c) => CommitServiceAgrees(s, c, act);
    case Publishing(c) => PublishRouteAgrees(s, c, act, lost);
    case Doubt(c) => ResolveDoubtAgrees(s, c, act);
    case Unrouting(c) => UnrouteAgrees(s, c, act, lost);
  }

  lemma ReplySound(s: Sys, act: Act, lost: bool)
    requires Guarded(s) && Replies(s.pc)
    ensures var n := WorkReply(s, act, lost); Agreement(n.o) && Named(n.o, s.used)
  {
    match s.pc
    case Absent(c) => WithdrawAgrees(s, c, act);
    case Withdrawn(c) => ReleaseWithdrawnAgrees(s, c, act, lost);
    case Committed(c) => AcceptAgrees(s, c, act);
    case Failing => QuarantineAgrees(s, act);
    case Returning(r) => ReturnAgrees(s, r, act);
    case Closing(ok) => CloseAgrees(s, ok, act);
  }

  lemma ExitSound(s: Sys, act: Act, lost: bool)
    requires Guarded(s) && Exits(s.pc)
    ensures var n := WorkExit(s, act, lost); Agreement(n.o) && Named(n.o, s.used)
  {
    match s.pc
    case Checking => ReconcileExitAgrees(s, act);
    case Admitting => PrepareExitAgrees(s, act, lost);
    case Shutting => BeginDrainAgrees(s, act, lost);
    case Draining => PollDrainAgrees(s, act, lost);
    case Drained => EnterExitGateAgrees(s, act);
    case Removing => RemoveMemberAgrees(s, act);
    case Releasing => ReleaseExitAgrees(s, act, lost);
  }

  lemma LaunchSound(s: Sys, act: Act, lost: bool)
    requires Guarded(s) && s.pc == Launched
    ensures var n := Launch(s, act, lost); Agreement(n.o) && Named(n.o, s.used)
  {
    match s.cmd.kind
    case ADD => PrepareAddAgrees(s, act, lost);
    case RESTORE => PrepareRestoreAgrees(s, act, lost);
    case _ => QueryReleaseAgrees(s, act);
  }

  lemma WorkSound(s: Sys, act: Act, lost: bool)
    requires Guarded(s)
    ensures var n := Work(s, act, lost); Agreement(n.o) && Named(n.o, s.used)
  {
    if s.pc == Idle {
    } else if s.pc == Launched {
      LaunchSound(s, act, lost);
    } else if Boots(s.pc) {
      BootSound(s, act, lost);
    } else if Commits(s.pc) {
      CommitSound(s, act, lost);
    } else if Replies(s.pc) {
      ReplySound(s, act, lost);
    } else {
      ExitSound(s, act, lost);
    }
  }

  lemma BootKnows(s: Sys, act: Act, lost: bool)
    requires Knows(s) && s.busy && Boots(s.pc)
    ensures var n := WorkBoot(s, act, lost); Target(n) && AtPc(n)
  {
    match s.pc
    case Prepared => EnterGateKeeps(s, act);
    case Opened => if s.cmd.kind == RESTORE { OpenRestoreKeeps(s, act); } else { OpenAddKeeps(s, act); }
    case Registered => BootstrapKeeps(s, act);
    case Ready => PromoteKeeps(s, act);
    case Rollback => DropPendingKeeps(s);
    case RollbackRelease => RollBackKeeps(s, act, lost);
  }

  lemma CommitKnows(s: Sys, act: Act, lost: bool)
    requires Knows(s) && s.busy && Commits(s.pc)
    ensures var n := WorkCommit(s, act, lost); Target(n) && AtPc(n)
  {
    match s.pc
    case Commit(c) => CommitServiceKeeps(s, c, act);
    case Publishing(c) => PublishRouteKeeps(s, c, act, lost);
    case Doubt(c) => ResolveDoubtKeeps(s, c, act);
    case Unrouting(c) => UnrouteKeeps(s, c, act, lost);
  }

  lemma ReplyKnows(s: Sys, act: Act, lost: bool)
    requires Knows(s) && s.busy && Replies(s.pc)
    ensures var n := WorkReply(s, act, lost); Target(n) && AtPc(n)
  {
    match s.pc
    case Absent(c) => WithdrawKeeps(s, c, act);
    case Withdrawn(c) => ReleaseWithdrawnKeeps(s, c, act, lost);
    case Committed(c) => AcceptKeeps(s, c, act);
    case Failing => QuarantineKeeps(s, act);
    case Returning(r) => ReturnKeeps(s, r, act);
    case Closing(ok) => CloseKeeps(s, ok, act);
  }

  lemma ExitKnows(s: Sys, act: Act, lost: bool)
    requires Knows(s) && s.busy && Exits(s.pc)
    ensures var n := WorkExit(s, act, lost); Target(n) && AtPc(n)
  {
    match s.pc
    case Checking => ReconcileExitKeeps(s, act);
    case Admitting => PrepareExitKeeps(s, act, lost);
    case Shutting => BeginDrainKeeps(s, act, lost);
    case Draining => PollDrainKeeps(s, act, lost);
    case Drained => EnterExitGateKeeps(s, act);
    case Removing => RemoveMemberKeeps(s, act);
    case Releasing => ReleaseExitKeeps(s, act, lost);
  }

  lemma LaunchKnows(s: Sys, act: Act, lost: bool)
    requires Knows(s) && s.busy && s.pc == Launched
    ensures var n := Launch(s, act, lost); Target(n) && AtPc(n)
  {
    match s.cmd.kind
    case ADD => PrepareAddKeeps(s, act, lost);
    case RESTORE => PrepareRestoreKeeps(s, act, lost);
    case _ => QueryReleaseKeeps(s, act);
  }

  lemma WorkKnows(s: Sys, act: Act, lost: bool)
    requires Knows(s) && s.busy
    ensures var n := Work(s, act, lost); Target(n) && AtPc(n)
  {
    if s.pc == Idle {
    } else if s.pc == Launched {
      LaunchKnows(s, act, lost);
    } else if Boots(s.pc) {
      BootKnows(s, act, lost);
    } else if Commits(s.pc) {
      CommitKnows(s, act, lost);
    } else if Replies(s.pc) {
      ReplyKnows(s, act, lost);
    } else {
      ExitKnows(s, act, lost);
    }
  }

  lemma WorkKeepsInv(s: Sys, act: Act, lost: bool)
    requires Inv(s)
    ensures Inv(Work(s, act, lost))
  {
    if s.pc != Idle {
      Known(s);
      WorkSound(s, act, lost);
      WorkKnows(s, act, lost);
      WorkStays(s, act, lost);
      BooksStay(s, Work(s, act, lost));
      WorkLogs(s, act, lost);
    }
  }

  /** A fresh operation id owns nothing. */
  lemma SubmitKeepsInv(s: Sys, cmd: Command)
    requires Inv(s)
    ensures Inv(Submit(s, cmd))
  {
    if !s.busy && cmd.op !in s.used {
      var n := Submit(s, cmd);
      assert !Claimed(n);
      assert Target(n) && AtPc(n);
    }
  }

  /** Requests come and go; none is admitted where nothing is pooled. */
  predicate TrafficMoves(s: Sys, o: Owners) {
    o == s.o.(adm := o.adm) && (s.Key() !in s.o.pool ==> o.Admits(s.Key()) ==> s.o.Admits(s.Key()))
  }

  lemma TrafficBoot(s: Sys, o: Owners)
    requires AtPc(s) && Boots(s.pc) && TrafficMoves(s, o)
    ensures AtPc(s.With(o))
  {
  }

  lemma TrafficCommit(s: Sys, o: Owners)
    requires AtPc(s) && Commits(s.pc) && TrafficMoves(s, o)
    ensures AtPc(s.With(o))
  {
  }

  lemma TrafficReply(s: Sys, o: Owners)
    requires AtPc(s) && Replies(s.pc) && TrafficMoves(s, o)
    ensures AtPc(s.With(o))
  {
  }

  lemma TrafficExit(s: Sys, o: Owners)
    requires AtPc(s) && Exits(s.pc) && TrafficMoves(s, o)
    ensures AtPc(s.With(o))
  {
  }

  lemma TrafficRest(s: Sys, o: Owners)
    requires AtPc(s) && (s.pc == Idle || s.pc == Launched) && TrafficMoves(s, o)
    ensures AtPc(s.With(o))
  {
  }

  lemma TrafficTarget(s: Sys, o: Owners)
    requires Target(s) && o == s.o.(adm := o.adm)
    ensures Target(s.With(o))
  {
  }

  lemma TrafficKnows(s: Sys, o: Owners)
    requires Target(s) && AtPc(s) && TrafficMoves(s, o)
    ensures Target(s.With(o)) && AtPc(s.With(o))
  {
    TrafficTarget(s, o);
    if Boots(s.pc) {
      TrafficBoot(s, o);
    } else if Commits(s.pc) {
      TrafficCommit(s, o);
    } else if Replies(s.pc) {
      TrafficReply(s, o);
    } else if Exits(s.pc) {
      TrafficExit(s, o);
    } else {
      TrafficRest(s, o);
    }
  }

  lemma TrafficKeepsInv(s: Sys, o: Owners)
    requires Inv(s) && Agreement(o) && o == s.o.(adm := o.adm)
    requires forall k | k !in s.o.pool :: o.Admits(k) ==> s.o.Admits(k)
    ensures Inv(s.With(o))
  {
    TrafficKnows(s, o);
  }

  lemma StepKeepsInv(s: Sys, e: Event)
    requires Inv(s)
    ensures Inv(Step(s, e))
  {
    match e
    case ESubmit(c) => SubmitKeepsInv(s, c);
    case EWork(a, l) => WorkKeepsInv(s, a, l);
    case EAcquire(r, k) => AcquireAgree(s.o, r, k); TrafficKeepsInv(s, Acquire(s.o, r, k));
    case ESettle(r) => SettleAgree(s.o, r); TrafficKeepsInv(s, s.o.(adm := s.o.adm - {r}));
    case EReplay => if s.busy && s.pc == Idle { ReplayKeepsInv(s); }
    case _ => SyncKeepsInv(s, Step(s, e));
  }

  lemma ReplayKeepsInv(s: Sys)
    requires Inv(s) && s.busy && s.pc == Idle
    ensures Inv(s.At(Launched))
  {
    assert Target(s.At(Launched)) && AtPc(s.At(Launched));
  }

  /** Native synchronisation and training touch nothing a claimed target depends on. */
  /** A lock and latch that native synchronisation may leave behind. */
  predicate SyncMoves(s: Sys, n: Sys) {
    && n == s.(lock := n.lock, latch := n.latch, version := n.version) && (n.lock == Sync ==> n.latch == NoFence)
    && ((n.lock == s.lock && n.latch == s.latch)
        || (s.lock != Worker && n.lock != Worker && s.latch == NoFence && !n.latch.ByOperation?))
  }

  lemma SyncBoot(s: Sys, n: Sys)
    requires AtPc(s) && Boots(s.pc) && SyncMoves(s, n)
    ensures AtPc(n)
  {
  }

  lemma SyncCommit(s: Sys, n: Sys)
    requires AtPc(s) && Commits(s.pc) && SyncMoves(s, n)
    ensures AtPc(n)
  {
  }

  lemma SyncReply(s: Sys, n: Sys)
    requires AtPc(s) && Replies(s.pc) && SyncMoves(s, n)
    ensures AtPc(n)
  {
  }

  lemma SyncExit(s: Sys, n: Sys)
    requires AtPc(s) && Exits(s.pc) && SyncMoves(s, n)
    ensures AtPc(n)
  {
  }

  lemma SyncRest(s: Sys, n: Sys)
    requires AtPc(s) && (s.pc == Idle || s.pc == Launched) && SyncMoves(s, n)
    ensures AtPc(n)
  {
  }

  lemma SyncTarget(s: Sys, n: Sys)
    requires Target(s) && SyncMoves(s, n)
    ensures Target(n)
  {
  }

  lemma SyncKnows(s: Sys, n: Sys)
    requires Target(s) && AtPc(s) && SyncMoves(s, n)
    ensures Target(n) && AtPc(n)
  {
    SyncTarget(s, n);
    if Boots(s.pc) {
      SyncBoot(s, n);
    } else if Commits(s.pc) {
      SyncCommit(s, n);
    } else if Replies(s.pc) {
      SyncReply(s, n);
    } else if Exits(s.pc) {
      SyncExit(s, n);
    } else {
      SyncRest(s, n);
    }
  }

  lemma SyncKeepsInv(s: Sys, n: Sys)
    requires Inv(s) && SyncMoves(s, n)
    ensures Inv(n)
  {
    SyncKnows(s, n);
  }

  lemma BeginsSound(s: Sys)
    requires Begun(s)
    ensures Inv(s)
  {
    BeginAgree(s.o);
  }

  lemma {:induction false} RunKeepsInv(s: Sys, es: seq<Event>)
    requires Inv(s)
    ensures Inv(Run(s, es))
  {
    if es != [] {
      RunKeepsInv(s, es[..|es| - 1]);
      StepKeepsInv(Run(s, es[..|es| - 1]), es[|es| - 1]);
    }
  }

  // ---------------------------------------------------------------- theorems over whole runs

  /**
   * Routed implies synchronised: on every path, with any failures, lost replies and replays, a replica that may be
   * given a request is an effective checkpoint member, is live in M and has its runtime up.
   */
  lemma {:induction false} RoutedIsEffective(s: Sys, es: seq<Event>)
    requires Begun(s)
    ensures var o := Run(s, es).o;
      && (forall k | k in o.pool :: k in o.eff && k in o.up && (o.In(k, ACTIVE) || o.In(k, DRAINING)))
      && (forall r | r in o.adm :: o.adm[r] in o.route)
  {
    BeginsSound(s);
    RunKeepsInv(s, es);
  }

  /**
   * Release comes last: a released target is never routed and has nothing admitted.  It is still an effective member
   * in exactly one case, an ADD that rolls back a DRAINING target; and it is down unless M answers a native release
   * from evidence the same operation had already earned.
   */
  lemma {:induction false} ReleaseComesLast(s: Sys, es: seq<Event>, f: Freed)
    requires Begun(s) && f in Run(s, es).freed
    ensures !f.routed && !f.admitted && (f.effective <==> f.rollback && f.from == DRAINING)
            && (f.down <==> !(f.native && f.replayed))
  {
    BeginsSound(s);
    RunKeepsInv(s, es);
  }

  /** SERVICE_COMMITTED for a publication means "routed" if and only if M had not started to drain the target. */
  lemma {:induction false} CommittedMeansRouted(s: Sys, es: seq<Event>, a: Answer)
    requires Begun(s) && a in Run(s, es).answers
    ensures a.kind in {ADD, RESTORE} ==> a.effective && (a.routed <==> a.state != DRAINING) && (a.pooled <==> a.routed)
    ensures a.kind in {DONATE, REMOVE} ==> !a.effective && !a.routed
  {
    BeginsSound(s);
    RunKeepsInv(s, es);
  }
}
