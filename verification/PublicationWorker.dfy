/** What the lifecycle worker knows at each of its calls, and that every outcome of every call keeps it. */
module PublicationWorker {
  import opened Contracts
  import opened Publication
  import opened PublicationOwners

  /** The operation is past prepare_replica and owns its target. */
  predicate Claimed(s: Sys) {
    && s.busy
    && (s.cmd.kind == ADD ==> s.Key() in s.o.made && s.o.made[s.Key()] == s.Op())
    && (s.cmd.kind == RESTORE ==> s.Bound() && s.Kind(NATIVE))
    && !s.IsExit()
  }

  /** Between attempts: a claimed target is routed only by this operation and never while it drains ... */
  predicate RoutedByUs(s: Sys) {
    && (s.Key() in s.o.route ==> s.Key() in s.o.pool && s.Op() in s.o.pub && s.o.pub[s.Op()] == s.Key())
    && (s.State(DRAINING) ==> s.Key() !in s.o.route)
  }

  /** ... an ADD target that is hidden but effective, or withdrawn but draining, is behind this operation's fence ... */
  predicate AddFenced(s: Sys) {
    && (s.State(CREATING) && s.Key() in s.o.eff ==> s.pc == Commit(Publish))
    && (s.State(DRAINING) && s.Key() !in s.o.eff ==> s.pc == Withdrawn(Publish))
  }

  /** ... so is a RESTORE target whose M is ACTIVE already, and an exit target that has left E. */
  predicate Target(s: Sys) {
    && (Claimed(s) ==> RoutedByUs(s))
    && (Claimed(s) && s.cmd.kind == ADD && !s.FencedHere() ==> AddFenced(s))
    && (Claimed(s) && s.cmd.kind == RESTORE && !s.FencedHere() && s.State(ACTIVE) ==>
        s.pc.Publishing? || s.pc.Doubt? || s.pc.Failing?)
    && (s.busy && s.IsExit() && s.FencedHere() ==> s.State(DRAINING) && s.Key() !in s.o.eff)
    && (s.busy && s.Op() in s.o.pub ==> s.o.pub[s.Op()] == s.Key())
    && (s.busy && s.Op() in s.o.rel ==> s.Key() in s.o.m && (s.Kind(BORROWED) ==> s.State(RELEASED)))
  }

  predicate Gone(s: Sys) {
    s.State(DRAINING) && s.Key() !in s.o.eff && s.Op() !in s.o.rel
  }

  /** A caller holds G: over its own latch when it reconciles, over a healthy gate otherwise. */
  predicate Holds(s: Sys, c: Caller) {
    s.lock == Worker && (if c.Recovers() then s.FencedHere() else s.latch == NoFence)
      && (c.Publishes() <==> !s.IsExit())
  }

  /** Inside commit_service_change of a publication. */
  predicate Publishes(s: Sys, c: Caller) {
    Holds(s, c) && c.Publishes() && Claimed(s)
  }

  predicate Bootstraps(s: Sys) {
    s.lock == Worker && s.latch == NoFence && Claimed(s) && (s.cmd.kind == RESTORE ==> s.State(DORMANT))
  }

  predicate Leaving(s: Sys) {
    s.busy && s.IsExit() && s.Op() !in s.o.rel && !s.FencedHere()
  }

  predicate Closed(s: Sys) {
    Leaving(s) && s.Bound() && s.State(DRAINING) && s.Key() in s.o.route && s.Key() !in s.o.pool
  }

  predicate Announced(s: Sys) {
    s.Key() in s.o.eff
      && ((s.State(ACTIVE) && s.Key() in s.o.pool && (s.cmd.kind == RESTORE ==> !s.Bound()))
          || (s.State(DRAINING) && s.Key() !in s.o.route))
  }

  /** What the worker knows at each of its calls. */
  predicate AtPc(s: Sys) {
    match s.pc
    case Idle => s.busy ==> s.tried
    case Launched => s.busy && (!s.tried ==> s.Op() !in s.o.rel && !s.FencedHere())
    case Prepared => Claimed(s) && (s.cmd.kind == RESTORE ==> s.FencedHere() || s.State(DORMANT))
    case Opened => Bootstraps(s)
    case Registered => Bootstraps(s)
    case Ready => Bootstraps(s)
    case Rollback => Bootstraps(s) && s.cmd.kind == ADD
    case RollbackRelease => Bootstraps(s) && s.cmd.kind == ADD
    case Commit(c) => Holds(s, c) && if c.Publishes() then Claimed(s) && s.Key() in s.o.eff else s.busy && Gone(s)
    case Publishing(c) => Publishes(s, c) && s.State(ACTIVE) && s.Key() in s.o.eff
    case Doubt(c) => Publishes(s, c) && s.State(ACTIVE) && s.Key() in s.o.eff
    case Unrouting(c) =>
      Holds(s, c) && s.State(DRAINING) && if c.Publishes() then Claimed(s) && s.Key() in s.o.eff else s.busy && Gone(s)
    case Absent(c) => Publishes(s, c) && s.State(DRAINING) && s.Key() in s.o.eff
    case Withdrawn(c) => Publishes(s, c) && s.State(DRAINING) && s.Key() !in s.o.eff
    case Committed(c) =>
      Holds(s, c) && s.busy && if c.Publishes() then Announced(s) else Gone(s) && s.Key() !in s.o.route
    case Failing => s.busy && s.lock == Worker && s.latch == NoFence && s.cmd.kind == RESTORE
    case Returning(_) => s.busy && (s.IsExit() ==> Leaving(s) && Gone(s) && s.Key() !in s.o.route)
    case Checking => s.busy && s.IsExit() && s.Op() !in s.o.rel
    case Admitting => Leaving(s)
    case Shutting => Leaving(s) && s.Bound() && s.State(DRAINING)
    case Draining => Closed(s)
    case Drained => Closed(s) && !s.o.Admits(s.Key())
    case Removing => Closed(s) && !s.o.Admits(s.Key()) && s.lock == Worker && s.latch == NoFence
    case Releasing => Leaving(s) && Gone(s) && s.Key() !in s.o.route
    case Closing(_) => s.busy
  }

  /** The instances of the owners' agreement at one replica. */
  predicate AgreeAt(o: Owners, k: ReplicaKey, op: string) {
    && (k in o.m <==> k in o.kind) && (k in o.eff ==> k in o.m) && (k in o.made ==> o.Is(k, BORROWED))
    && (k in o.route ==> o.In(k, ACTIVE) || o.In(k, DRAINING))
    && (o.In(k, CREATING) || o.In(k, ACTIVE) || o.In(k, DRAINING) ==> k in o.up)
    && (k in o.pool ==> k in o.route && k in o.eff)
    && (k in o.pend ==> k !in o.eff)
    && (op in o.pub && o.pub[op] == k ==> k in o.route)
    && (k !in o.route ==> !o.Admits(k))
  }

  predicate Knows(s: Sys) {
    AgreeAt(s.o, s.Key(), s.Op()) && Target(s) && AtPc(s)
  }

  // ---------------------------------------------------------------- shared tails

  /** What must hold when a caller gives up. */
  predicate Ends(s: Sys) {
    && s.busy && (Claimed(s) ==> RoutedByUs(s))
    && (s.IsExit() ==> s.State(DRAINING) && s.Key() !in s.o.eff)
    && (s.Op() in s.o.pub ==> s.o.pub[s.Op()] == s.Key())
    && (s.Op() in s.o.rel ==> s.Key() in s.o.m && (s.Kind(BORROWED) ==> s.State(RELEASED)))
  }

  /** Calls after which nothing about the target is in the air. */
  predicate Settled(pc: Pc) {
    pc != Commit(Publish) && pc != Withdrawn(Publish) && !pc.Publishing? && !pc.Doubt? && !pc.Failing?
  }

  /** Giving up before anything was changed. */
  lemma UnknownKeeps(s: Sys)
    requires Target(s) && s.busy && Settled(s.pc)
    ensures Target(s.Unknown()) && AtPc(s.Unknown())
  {
  }

  /** The end of the operation owes the target nothing. */
  lemma ClosingKeeps(s: Sys, ok: bool)
    requires Target(s) && s.busy && Settled(s.pc)
    ensures Target(s.At(Closing(ok))) && AtPc(s.At(Closing(ok)))
  {
  }

  lemma BlockedKeeps(s: Sys)
    requires Ends(s)
    ensures Target(Blocked(s)) && AtPc(Blocked(s))
  {
  }

  lemma CallerFailsKeeps(s: Sys, c: Caller)
    requires Ends(s) && Holds(s, c)
    ensures Target(CallerFails(s, c)) && AtPc(CallerFails(s, c))
  {
    BlockedKeeps(s);
  }

  /** Leaving M, E and R of the target alone, or moving it to QUARANTINED. */
  lemma QuarantinedEnds(s: Sys, c: Caller)
    requires Knows(s) && Holds(s, c) && c.Publishes() && Claimed(s) && (s.State(CREATING) || s.State(DORMANT))
    ensures Ends(s.Enter(QUARANTINED)) && Holds(s.Enter(QUARANTINED), c)
  {
  }

  lemma ActivateKeeps(s: Sys, c: Caller, act: Act)
    requires Knows(s) && s.pc == Commit(c) && c.Publishes() && (s.State(CREATING) || s.State(DORMANT))
    ensures Target(Activate(s, c, act)) && AtPc(Activate(s, c, act))
  {
    if act.Breaks? {
      QuarantinedEnds(s, c);
      CallerFailsKeeps(s.Enter(QUARANTINED), c);
    }
  }

  lemma BootFailsKeeps(s: Sys)
    requires Knows(s) && (s.pc == Registered || s.pc == Ready)
    ensures Target(BootFails(s)) && AtPc(BootFails(s))
  {
  }

  lemma BootedKeeps(s: Sys)
    requires Knows(s) && s.pc == Registered
    ensures Target(s.At(Ready)) && AtPc(s.At(Ready))
  {
  }

  lemma WokenKeeps(s: Sys)
    requires Knows(s) && s.pc == Registered
    ensures var n := BootFails(s.With(s.o.Woken(s.Key()))); Target(n) && AtPc(n)
  {
  }

  lemma LoadedKeeps(s: Sys)
    requires Knows(s) && s.pc == Registered
    ensures var n := s.With(s.o.Loaded(s.Key(), s.Op(), s.version)).At(Ready); Target(n) && AtPc(n)
  {
  }

  lemma AsleepKeeps(s: Sys)
    requires Knows(s) && s.pc == Registered && s.cmd.kind == RESTORE
    ensures var n := CallerReturns(s.With(s.o.Slept(s.Key())), Publish, true); Target(n) && AtPc(n)
  {
  }

  lemma CreatedKeeps(s: Sys, x: ReplicaState)
    requires Knows(s) && s.pc == Launched && s.cmd.kind == ADD && s.Key() !in s.o.m
             && x in {CREATING, RELEASED, QUARANTINED}
    ensures var n := s.Bind().With(s.o.Create(s.Key(), s.Op(), x)); Target(n) && Claimed(n)
  {
  }

  lemma CreateRaisesKeeps(b: Sys, lost: bool)
    requires Target(b) && b.busy && b.pc == Launched && b.cmd.kind == ADD
    ensures Target(CreateRaises(b, lost)) && AtPc(CreateRaises(b, lost))
  {
    UnboundKeeps(b);
    if b.Key() !in b.o.m || (b.Kind(BORROWED) && b.State(RELEASED)) {
      if lost { UnknownKeeps(b.Unbind()); } else { ClosingKeeps(b.Unbind(), false); }
    } else {
      UnknownKeeps(b);
    }
  }

  /** An ADD owns its target by M's record, not by the binding. */
  lemma UnboundKeeps(b: Sys)
    requires Target(b) && b.cmd.kind == ADD
    ensures Target(b.Unbind())
  {
  }

  lemma CreateAnswersKeeps(b: Sys, lost: bool)
    requires Target(b) && b.pc == Launched && Claimed(b) && b.cmd.kind == ADD
    ensures Target(CreateAnswers(b, lost)) && AtPc(CreateAnswers(b, lost))
  {
  }

  lemma RemovedKeeps(s: Sys, o: Owners)
    requires Knows(s) && s.pc == Removing
    requires o == s.o.RemoveEffective(s.Key()) || o == s.o.RemoveEffective(s.Key()).Park(s.Key(), s.Op())
    ensures Target(s.With(o).At(Commit(Exit))) && AtPc(s.With(o).At(Commit(Exit)))
  {
  }

  /**
   * finalize_release on a target that has left R: whatever it answers, the target is not routed and keeps its
   * history.
   */
  lemma ReleaseEnds(s: Sys, act: Act)
    requires Ends(s) && s.Key() !in s.o.route && !s.IsExit()
    ensures var n := FinalizeRelease(s, act).0;
      Ends(n) && n.cmd == s.cmd && n.lock == s.lock && n.latch == s.latch
  {
  }

  lemma ReleasedReturns(s: Sys, c: Caller)
    requires Ends(s) && s.Key() !in s.o.route && c.Publishes() && !s.IsExit() && MayRelease(s)
    ensures Target(CallerReturns(Released(s), c, true)) && AtPc(CallerReturns(Released(s), c, true))
  {
  }

  // ---------------------------------------------------------------- one lemma per call

  lemma PrepareAddKeeps(s: Sys, act: Act, lost: bool)
    requires Knows(s) && s.pc == Launched && s.cmd.kind == ADD
    ensures Target(PrepareAdd(s, act, lost)) && AtPc(PrepareAdd(s, act, lost))
  {
    var k := s.Key();
    if act != NotRun {
      if act == Refused || (k in s.o.m && !(k in s.o.made && s.o.made[k] == s.Op())) || k in s.o.spoilt {
        CreateRaisesKeeps(s.Bind(), lost);
      } else if k in s.o.m {
        CreateAnswersKeeps(s.Bind(), lost);
      } else if act.Breaks? {
        var x := if act.clean then RELEASED else QUARANTINED;
        CreatedKeeps(s, x);
        CreateRaisesKeeps(s.Bind().With(s.o.Create(k, s.Op(), x)), lost);
      } else {
        CreatedKeeps(s, CREATING);
        CreateAnswersKeeps(s.Bind().With(s.o.Create(k, s.Op(), CREATING)), lost);
      }
    }
  }

  lemma PrepareRestoreKeeps(s: Sys, act: Act, lost: bool)
    requires Knows(s) && s.pc == Launched && s.cmd.kind == RESTORE
    ensures Target(PrepareRestore(s, act, lost)) && AtPc(PrepareRestore(s, act, lost))
  {
    if act != Runs || !s.Kind(NATIVE) {
      UnknownKeeps(s);
    } else if s.State(DORMANT) {
      BoundDormantKeeps(s);
      RestoreAnswersKeeps(s.Bind(), lost);
    } else if s.State(ACTIVE) && s.Bound() {
      RestoreAnswersKeeps(s, lost);
    } else {
      UnknownKeeps(s);
    }
  }

  lemma BoundDormantKeeps(s: Sys)
    requires Knows(s) && s.pc == Launched && s.cmd.kind == RESTORE && s.State(DORMANT) && s.Kind(NATIVE)
    ensures Target(s.Bind()) && Claimed(s.Bind())
  {
  }

  lemma RestoreAnswersKeeps(s: Sys, lost: bool)
    requires Target(s) && s.pc == Launched && s.cmd.kind == RESTORE && Claimed(s)
             && (s.State(DORMANT) || s.State(ACTIVE))
    ensures Target(CreateAnswers(s, lost)) && AtPc(CreateAnswers(s, lost))
  {
    UnknownKeeps(s);
  }

  lemma EnterGateKeeps(s: Sys, act: Act)
    requires Knows(s) && s.pc == Prepared
    ensures Target(EnterGate(s, act)) && AtPc(EnterGate(s, act))
  {
    UnknownKeeps(s);
    if act == Runs && s.FencedHere() && s.Bound() && s.Key() in s.o.eff {
      if s.lock == Free { RecoveringKeeps(s); }
    } else if act == Runs && s.latch == NoFence && s.lock == Free {
      OpeningKeeps(s);
    }
  }

  lemma RecoveringKeeps(s: Sys)
    requires Knows(s) && s.pc == Prepared && s.FencedHere() && s.Key() in s.o.eff
    ensures var n := s.(lock := Worker).At(Commit(Recover)); Target(n) && AtPc(n)
  {
  }

  lemma OpeningKeeps(s: Sys)
    requires Knows(s) && s.pc == Prepared && s.latch == NoFence
    ensures var n := s.(lock := Worker).At(Opened); Target(n) && AtPc(n)
  {
  }

  lemma OpenAddKeeps(s: Sys, act: Act)
    requires Knows(s) && s.pc == Opened && s.cmd.kind == ADD
    ensures Target(OpenAdd(s, act)) && AtPc(OpenAdd(s, act))
  {
  }

  lemma OpenRestoreKeeps(s: Sys, act: Act)
    requires Knows(s) && s.pc == Opened && s.cmd.kind == RESTORE
    ensures Target(OpenRestore(s, act)) && AtPc(OpenRestore(s, act))
  {
  }

  lemma BootstrapKeeps(s: Sys, act: Act)
    requires Knows(s) && s.pc == Registered
    ensures Target(Bootstrap(s, act)) && AtPc(Bootstrap(s, act))
  {
    var k := s.Key();
    if k in s.o.ready {
      if s.o.ready[k] != (s.Op(), s.version) { BootFailsKeeps(s); } else { BootedKeeps(s); }
    } else if act == NotRun || act == Refused || k !in s.o.pend || s.o.pend[k] != s.Op() {
      BootFailsKeeps(s);
    } else if act == Runs {
      LoadedKeeps(s);
    } else if s.cmd.kind != RESTORE {
      BootFailsKeeps(s);
    } else if act.clean {
      AsleepKeeps(s);
    } else {
      WokenKeeps(s);
    }
  }

  lemma PromoteKeeps(s: Sys, act: Act)
    requires Knows(s) && s.pc == Ready
    ensures Target(Promote(s, act)) && AtPc(Promote(s, act))
  {
    var k := s.Key();
    if act != Runs || k !in s.o.ready || s.o.ready[k].0 != s.Op() {
      BootFailsKeeps(s);
    } else if k in s.o.eff && k !in s.o.pend {
      PromotedKeeps(s, s.o);
    } else if k !in s.o.pend || s.o.pend[k] != s.Op() {
      BootFailsKeeps(s);
    } else {
      PromotedKeeps(s, s.o.Promote(k));
    }
  }

  lemma PromotedKeeps(s: Sys, o: Owners)
    requires Knows(s) && s.pc == Ready && (o == s.o.Promote(s.Key()) || (o == s.o && s.Key() in s.o.eff))
    ensures Target(s.With(o).At(Commit(Publish))) && AtPc(s.With(o).At(Commit(Publish)))
  {
  }

  lemma DropPendingKeeps(s: Sys)
    requires Knows(s) && s.pc == Rollback
    ensures Target(DropPending(s)) && AtPc(DropPending(s))
  {
  }

  lemma RollBackKeeps(s: Sys, act: Act, lost: bool)
    requires Knows(s) && s.pc == RollbackRelease
    ensures Target(RollBack(s, act, lost)) && AtPc(RollBack(s, act, lost))
  {
    if !MayRelease(s) { BlockedKeeps(s); return; }
    ReleaseEnds(s, act);
    if FinalizeRelease(s, act).1 && !lost {
      ReleasedReturns(s, Publish);
    } else {
      BlockedKeeps(FinalizeRelease(s, act).0);
    }
  }

  lemma CommitServiceKeeps(s: Sys, c: Caller, act: Act)
    requires Knows(s) && s.pc == Commit(c)
    ensures Target(CommitService(s, c, act)) && AtPc(CommitService(s, c, act))
  {
    if act == NotRun || act == Refused || !s.Bound() {
      CommitEnds(s, c);
    } else if s.State(ACTIVE) {
      AlreadyActiveKeeps(s, c);
    } else if (s.State(CREATING) && s.Kind(BORROWED)) || (s.State(DORMANT) && s.Kind(NATIVE)) {
      HiddenPublishes(s, c);
      ActivateKeeps(s, c, act);
    } else if s.State(DRAINING) {
      AlreadyDrainingKeeps(s, c);
    } else {
      CommitEnds(s, c);
    }
  }

  lemma CommitEnds(s: Sys, c: Caller)
    requires Knows(s) && s.pc == Commit(c)
    ensures Target(CallerFails(s, c)) && AtPc(CallerFails(s, c))
  {
    CallerFailsKeeps(s, c);
  }

  lemma HiddenPublishes(s: Sys, c: Caller)
    requires Knows(s) && s.pc == Commit(c) && !s.State(DRAINING)
    ensures c.Publishes()
  {
  }

  lemma AlreadyActiveKeeps(s: Sys, c: Caller)
    requires Knows(s) && s.pc == Commit(c) && s.State(ACTIVE)
    ensures Target(s.At(Doubt(c))) && AtPc(s.At(Doubt(c)))
  {
  }

  lemma AlreadyDrainingKeeps(s: Sys, c: Caller)
    requires Knows(s) && s.pc == Commit(c) && s.State(DRAINING)
    ensures Target(s.At(Unrouting(c))) && AtPc(s.At(Unrouting(c)))
  {
  }

  lemma PublishRouteKeeps(s: Sys, c: Caller, act: Act, lost: bool)
    requires Knows(s) && s.pc == Publishing(c)
    ensures Target(PublishRoute(s, c, act, lost)) && AtPc(PublishRoute(s, c, act, lost))
  {
    if act != Runs || !MayPublish(s.o, s.Key(), s.Op()) {
      UnpublishedKeeps(s, c);
    } else if lost {
      PublishedKeeps(s, c);
    } else {
      AnnouncedKeeps(s, c);
    }
  }

  lemma UnpublishedKeeps(s: Sys, c: Caller)
    requires Knows(s) && s.pc == Publishing(c)
    ensures Target(s.At(Doubt(c))) && AtPc(s.At(Doubt(c)))
  {
  }

  /** The route is open: whether or not the answer arrives, it is this operation's. */
  /** The route is open: whether or not the answer arrives, it is this operation's. */
  lemma PublishedKeeps(s: Sys, c: Caller)
    requires Knows(s) && s.pc == Publishing(c)
    ensures var n := s.With(s.o.CommitReady(s.Key(), s.Op())).At(Doubt(c)); Target(n) && AtPc(n)
  {
  }

  lemma AnnouncedKeeps(s: Sys, c: Caller)
    requires Knows(s) && s.pc == Publishing(c)
    ensures var n := s.With(s.o.CommitReady(s.Key(), s.Op())).Unbind().At(Committed(c)); Target(n) && AtPc(n)
  {
  }

  lemma ResolveDoubtKeeps(s: Sys, c: Caller, act: Act)
    requires Knows(s) && s.pc == Doubt(c)
    ensures Target(ResolveDoubt(s, c, act)) && AtPc(ResolveDoubt(s, c, act))
  {
    if act != Runs {
      DoubtEnds(s, c);
    } else if s.Op() in s.o.pub {
      ConfirmedKeeps(s, c);
    } else {
      DeniedKeeps(s, c);
    }
  }

  lemma DoubtEnds(s: Sys, c: Caller)
    requires Knows(s) && s.pc == Doubt(c)
    ensures Target(CallerFails(s, c)) && AtPc(CallerFails(s, c))
  {
    CallerFailsKeeps(s, c);
  }

  lemma ConfirmedKeeps(s: Sys, c: Caller)
    requires Knows(s) && s.pc == Doubt(c) && s.Op() in s.o.pub
    ensures Target(s.Unbind().At(Committed(c))) && AtPc(s.Unbind().At(Committed(c)))
  {
  }

  lemma DeniedKeeps(s: Sys, c: Caller)
    requires Knows(s) && s.pc == Doubt(c) && s.Op() !in s.o.pub
    ensures Target(s.Enter(DRAINING).At(Absent(c))) && AtPc(s.Enter(DRAINING).At(Absent(c)))
  {
  }

  lemma UnrouteKeeps(s: Sys, c: Caller, act: Act, lost: bool)
    requires Knows(s) && s.pc == Unrouting(c)
    ensures Target(Unroute(s, c, act, lost)) && AtPc(Unroute(s, c, act, lost))
  {
    if act != Runs || (s.Key() in s.o.route && s.o.Admits(s.Key())) {
      CallerFailsKeeps(s, c);
    } else {
      var o := if s.Key() in s.o.route then s.o.FinishRemove(s.Key()) else s.o;
      if lost { UnroutedEnds(s, c, o); } else { UnroutedKeeps(s, c, o); }
    }
  }

  predicate Unrouted(s: Sys, o: Owners) {
    o == s.o.FinishRemove(s.Key()) || (o == s.o && s.Key() !in s.o.route)
  }

  lemma UnroutedEnds(s: Sys, c: Caller, o: Owners)
    requires Knows(s) && s.pc == Unrouting(c) && Unrouted(s, o)
    ensures Target(CallerFails(s.With(o), c)) && AtPc(CallerFails(s.With(o), c))
  {
    CallerFailsKeeps(s.With(o), c);
  }

  lemma UnroutedKeeps(s: Sys, c: Caller, o: Owners)
    requires Knows(s) && s.pc == Unrouting(c) && Unrouted(s, o)
    ensures Target(s.With(o).At(Committed(c))) && AtPc(s.With(o).At(Committed(c)))
  {
  }

  lemma WithdrawKeeps(s: Sys, c: Caller, act: Act)
    requires Knows(s) && s.pc == Absent(c)
    ensures Target(Withdraw(s, c, act)) && AtPc(Withdraw(s, c, act))
  {
    if act != Runs {
      CallerFailsKeeps(s, c);
    } else {
      WithdrawingKeeps(s, c, s.o.RemoveEffective(s.Key()));
      WithdrawingKeeps(s, c, s.o.RemoveEffective(s.Key()).Park(s.Key(), s.Op()));
    }
  }

  lemma WithdrawingKeeps(s: Sys, c: Caller, o: Owners)
    requires Knows(s) && s.pc == Absent(c)
    requires o == s.o.RemoveEffective(s.Key()) || o == s.o.RemoveEffective(s.Key()).Park(s.Key(), s.Op())
    ensures Target(s.With(o).At(Withdrawn(c))) && AtPc(s.With(o).At(Withdrawn(c)))
  {
  }

  lemma ReleaseWithdrawnKeeps(s: Sys, c: Caller, act: Act, lost: bool)
    requires Knows(s) && s.pc == Withdrawn(c)
    ensures Target(ReleaseWithdrawn(s, c, act, lost)) && AtPc(ReleaseWithdrawn(s, c, act, lost))
  {
    ReleaseEnds(s, act);
    if FinalizeRelease(s, act).1 && !lost {
      ReleasedReturns(s, c);
    } else {
      CallerFailsKeeps(FinalizeRelease(s, act).0, c);
    }
  }

  lemma AcceptKeeps(s: Sys, c: Caller, act: Act)
    requires Knows(s) && s.pc == Committed(c)
    ensures Target(Accept(s, c, act)) && AtPc(Accept(s, c, act))
  {
    if act != Runs || s.Key() !in s.o.m { CallerFailsKeeps(s, c); }
  }

  lemma QuarantineKeeps(s: Sys, act: Act)
    requires Knows(s) && s.pc == Failing
    ensures Target(Quarantine(s, act)) && AtPc(Quarantine(s, act))
  {
    BlockedKeeps(if act == Runs && s.Bound() && s.State(DORMANT) then s.Enter(QUARANTINED) else s);
  }

  lemma ReturnKeeps(s: Sys, released: bool, act: Act)
    requires Knows(s) && s.pc == Returning(released)
    ensures Target(Return(s, released, act)) && AtPc(Return(s, released, act))
  {
    UnknownKeeps(s);
    if act == Runs {
      if s.IsExit() { ReturnedExitKeeps(s, released); } else { ClosingKeeps(s, !released); }
    }
  }

  lemma ReturnedExitKeeps(s: Sys, released: bool)
    requires Knows(s) && s.pc == Returning(released) && s.IsExit()
    ensures Target(s.At(Releasing)) && AtPc(s.At(Releasing))
  {
  }

  lemma QueryReleaseKeeps(s: Sys, act: Act)
    requires Knows(s) && s.pc == Launched && s.IsExit()
    ensures Target(QueryRelease(s, act)) && AtPc(QueryRelease(s, act))
  {
  }

  lemma ReconcileExitKeeps(s: Sys, act: Act)
    requires Knows(s) && s.pc == Checking
    ensures Target(ReconcileExit(s, act)) && AtPc(ReconcileExit(s, act))
  {
  }

  lemma PrepareExitKeeps(s: Sys, act: Act, inconclusive: bool)
    requires Knows(s) && s.pc == Admitting
    ensures Target(PrepareExit(s, act, inconclusive)) && AtPc(PrepareExit(s, act, inconclusive))
  {
    if act != Runs || !MayExit(s) {
      UnknownKeeps(s);
      ClosingKeeps(s, false);
    } else {
      ShutsKeeps(s);
    }
  }

  lemma ShutsKeeps(s: Sys)
    requires Knows(s) && s.pc == Admitting && MayExit(s)
    ensures var n := s.Enter(DRAINING).Bind().At(Shutting); Target(n) && AtPc(n)
  {
  }

  lemma BeginDrainKeeps(s: Sys, act: Act, lost: bool)
    requires Knows(s) && s.pc == Shutting
    ensures Target(BeginDrain(s, act, lost)) && AtPc(BeginDrain(s, act, lost))
  {
  }

  lemma PollDrainKeeps(s: Sys, act: Act, lost: bool)
    requires Knows(s) && s.pc == Draining
    ensures Target(PollDrain(s, act, lost)) && AtPc(PollDrain(s, act, lost))
  {
  }

  lemma EnterExitGateKeeps(s: Sys, act: Act)
    requires Knows(s) && s.pc == Drained
    ensures Target(EnterExitGate(s, act)) && AtPc(EnterExitGate(s, act))
  {
  }

  lemma RemoveMemberKeeps(s: Sys, act: Act)
    requires Knows(s) && s.pc == Removing
    ensures Target(RemoveMember(s, act)) && AtPc(RemoveMember(s, act))
  {
    if act == Runs && s.Bound() && s.Key() in s.o.eff {
      RemovedKeeps(s, if s.Kind(NATIVE) then s.o.RemoveEffective(s.Key()).Park(s.Key(), s.Op())
                   else s.o.RemoveEffective(s.Key()));
    }
  }

  lemma ReleaseExitKeeps(s: Sys, act: Act, lost: bool)
    requires Knows(s) && s.pc == Releasing
    ensures Target(ReleaseExit(s, act, lost)) && AtPc(ReleaseExit(s, act, lost))
  {
    var n := FinalizeRelease(s, act).0;
    ExitReleaseKeeps(s, act);
    UnknownKeeps(n);
    ClosingKeeps(n, true);
  }

  lemma ExitReleaseKeeps(s: Sys, act: Act)
    requires Knows(s) && s.pc == Releasing
    ensures var n := FinalizeRelease(s, act).0; Target(n) && n.busy && n.pc == Releasing
  {
  }

  lemma CloseKeeps(s: Sys, ok: bool, act: Act)
    requires Knows(s) && s.pc == Closing(ok)
    ensures Target(Close(s, ok, act)) && AtPc(Close(s, ok, act))
  {
  }
}
