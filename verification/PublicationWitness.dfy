/**
 * Runs, for any replica keys and operation ids, that reach the exceptions named by the theorems of PublicationSafety.
 */
module PublicationWitness {
  import opened Contracts
  import opened Publication

  const GO := EWork(Runs, false)
  const NOT_RUN := EWork(NotRun, false)

  lemma RunTwo(s: Sys, a: Event, b: Event)
    ensures Run(s, [a, b]) == Step(Step(s, a), b)
  {
    assert [a, b][..1] == [a] && [a][..0] == [];
    assert Run(s, [a]) == Step(Run(s, []), a);
  }

  lemma RunFour(s: Sys, a: Event, b: Event, c: Event, d: Event)
    ensures Run(s, [a, b, c, d]) == Step(Step(Step(Step(s, a), b), c), d)
  {
    RunTwo(s, a, b);
    RunTwo(Step(Step(s, a), b), c, d);
    RunConcat(s, [a, b], [c, d]);
    assert [a, b, c, d] == [a, b] + [c, d];
  }

  lemma {:induction false} RunConcat(s: Sys, es: seq<Event>, fs: seq<Event>)
    ensures Run(s, es + fs) == Run(Run(s, es), fs)
  {
    if fs == [] {
      assert es + fs == es;
    } else {
      RunConcat(s, es, fs[..|fs| - 1]);
      assert (es + fs)[..|es + fs| - 1] == es + fs[..|fs| - 1];
    }
  }

  // ---------------------------------------------------------------- one call each

  lemma Opens(s: Sys)
    requires s.pc == Prepared && s.lock == Free && s.latch == NoFence
    ensures Step(s, GO) == s.(pc := Opened, lock := Worker)
  {
  }

  lemma Registers(s: Sys)
    requires s.pc == Opened && s.cmd.kind == ADD && s.Bound() && s.Kind(BORROWED) && s.State(CREATING)
    requires s.Key() !in s.o.eff && s.Key() !in s.o.pend
    ensures Step(s, GO) == s.With(s.o.Park(s.Key(), s.Op())).At(Registered)
  {
  }

  lemma RegistersAgain(s: Sys)
    requires s.pc == Opened && s.cmd.kind == ADD && s.Bound() && s.Kind(BORROWED) && s.State(DRAINING)
    requires s.Key() in s.o.eff && s.Key() in s.o.ready && s.o.ready[s.Key()].0 == s.Op()
    ensures Step(s, GO) == s.At(Registered)
  {
  }

  lemma Loads(s: Sys)
    requires s.pc == Registered && s.Key() !in s.o.ready && s.Key() in s.o.pend && s.o.pend[s.Key()] == s.Op()
    ensures Step(s, GO) == s.With(s.o.Loaded(s.Key(), s.Op(), s.version)).At(Ready)
  {
  }

  lemma FindsStale(s: Sys)
    requires s.pc == Registered && s.cmd.kind == ADD && s.Key() in s.o.ready && s.o.ready[s.Key()].1 != s.version
    ensures Step(s, GO) == s.At(Rollback)
  {
  }

  lemma Discards(s: Sys)
    requires s.pc == Rollback
    ensures Step(s, GO) == s.With(s.o.Discard(s.Key())).At(RollbackRelease)
  {
  }

  lemma JoinsEffective(s: Sys)
    requires s.pc == Ready && s.Key() in s.o.ready && s.o.ready[s.Key()].0 == s.Op()
    requires s.Key() !in s.o.eff && s.Key() in s.o.pend && s.o.pend[s.Key()] == s.Op()
    ensures Step(s, GO) == s.With(s.o.Promote(s.Key())).At(Commit(Publish))
  {
  }

  lemma ActivatesGuest(s: Sys, c: Caller)
    requires s.pc == Commit(c) && s.Bound() && s.State(CREATING) && s.Kind(BORROWED)
    ensures Step(s, GO) == s.Enter(ACTIVE).At(Publishing(c))
  {
  }

  lemma ActivatesNative(s: Sys, c: Caller)
    requires s.pc == Commit(c) && s.Bound() && s.State(DORMANT) && s.Kind(NATIVE)
    ensures Step(s, GO) == s.With(s.o.Woken(s.Key())).Enter(ACTIVE).At(Publishing(c))
  {
  }

  lemma CommitsExit(s: Sys, c: Caller)
    requires s.pc == Commit(c) && s.Bound() && s.State(DRAINING)
    ensures Step(s, GO) == s.At(Unrouting(c))
  {
  }

  lemma NeverPublishes(s: Sys, c: Caller)
    requires s.pc == Publishing(c)
    ensures Step(s, NOT_RUN) == s.At(Doubt(c))
  {
  }

  lemma ProvesAbsent(s: Sys, c: Caller)
    requires s.pc == Doubt(c) && s.Op() !in s.o.pub
    ensures Step(s, GO) == s.Enter(DRAINING).At(Absent(c))
  {
  }

  lemma LosesAbsence(s: Sys)
    requires s.pc == Absent(Publish) && s.cmd.kind == ADD
    ensures Step(s, NOT_RUN) == s.(pc := Idle, tried := true, lock := Free, latch := ByOperation(s.Op()))
  {
  }

  lemma FindsNoRoute(s: Sys, c: Caller)
    requires s.pc == Unrouting(c) && s.Key() !in s.o.route
    ensures Step(s, GO) == s.At(Committed(c))
  {
  }

  lemma ClosesRoute(s: Sys, c: Caller)
    requires s.pc == Unrouting(c) && s.Key() in s.o.route && !s.o.Admits(s.Key())
    ensures Step(s, GO) == s.With(s.o.FinishRemove(s.Key())).At(Committed(c))
  {
  }

  lemma Accepts(s: Sys, c: Caller)
    requires s.pc == Committed(c) && s.Key() in s.o.m
    ensures Step(s, GO) ==
              s.(pc := Returning(false), lock := Free, latch := if c.Recovers() then NoFence else s.latch,
                 answers := s.answers + [AnswerNow(s)])
  {
  }

  /** prepare_replica is answered from the record of its own operation. */
  lemma FindsRecord(s: Sys)
    requires s.pc == Launched && s.cmd.kind == ADD && s.Bound() && s.bind[s.Op()] == s.Key()
    requires s.Key() in s.o.m && s.Key() in s.o.made && s.o.made[s.Key()] == s.Op() && s.Key() !in s.o.spoilt
    ensures Step(s, GO) == s.At(Prepared)
  {
    assert s.bind[s.Op() := s.Key()] == s.bind;
  }

  lemma FindsFence(s: Sys)
    requires s.pc == Prepared && s.FencedHere() && s.Bound() && s.Key() in s.o.eff && s.lock == Free
    ensures Step(s, GO) == s.(lock := Worker, pc := Commit(Recover))
  {
  }

  lemma FindsDormant(s: Sys)
    requires s.pc == Launched && s.cmd.kind == RESTORE && s.Kind(NATIVE) && s.State(DORMANT)
    ensures Step(s, GO) == s.Bind().At(Prepared)
  {
  }

  lemma Rebinds(s: Sys)
    requires s.pc == Opened && s.cmd.kind == RESTORE && s.Bound() && s.Kind(NATIVE) && s.Key() in s.o.pend
    ensures Step(s, GO) == s.With(s.o.Discard(s.Key()).Park(s.Key(), s.Op())).At(Registered)
  {
  }

  lemma Withdraws(s: Sys)
    requires s.pc == Absent(Publish) && s.cmd.kind == RESTORE
    ensures Step(s, GO) == s.With(s.o.RemoveEffective(s.Key()).Park(s.Key(), s.Op())).At(Withdrawn(Publish))
  {
  }

  lemma ReleasesWithdrawn(s: Sys)
    requires s.pc == Withdrawn(Publish) && s.Bound() && s.State(DRAINING)
    ensures var n := Step(s, GO);
      && n == s.Unbind().(pc := Returning(true), lock := Free, o := n.o, freed := n.freed)
      && n.o == s.o.Release(s.Key(), s.Op())
  {
    assert MayRelease(s);
  }

  lemma Attends(s: Sys)
    requires s.pc == Launched && s.IsExit() && !s.tried
    ensures Step(s, GO) == s.At(Admitting)
  {
  }

  lemma StopsAdmission(s: Sys)
    requires s.pc == Admitting && !s.cmd.force && s.State(ACTIVE)
    ensures Step(s, GO) == s.Enter(DRAINING).Bind().At(Shutting)
  {
  }

  lemma BeginsDrain(s: Sys)
    requires s.pc == Shutting && s.Key() in s.o.route && s.Key() !in s.o.drain
    ensures Step(s, GO) == s.With(s.o.BeginDrain(s.Key(), s.Op())).At(Draining)
  {
  }

  lemma FindsDrained(s: Sys)
    requires s.pc == Draining && !s.o.Admits(s.Key())
    ensures Step(s, GO) == s.At(Drained)
  {
  }

  lemma OpensForExit(s: Sys)
    requires s.pc == Drained && s.lock == Free && s.latch == NoFence
    ensures Step(s, GO) == s.(pc := Removing, lock := Worker)
  {
  }

  lemma LeavesEffective(s: Sys)
    requires s.pc == Removing && s.Bound() && s.Key() in s.o.eff && s.Kind(NATIVE)
    ensures Step(s, GO) == s.With(s.o.RemoveEffective(s.Key()).Park(s.Key(), s.Op())).At(Commit(Exit))
  {
  }

  lemma ReturnsExit(s: Sys)
    requires s.pc == Returning(false) && s.IsExit()
    ensures Step(s, GO) == s.At(Releasing)
  {
  }

  lemma ReleasesExit(s: Sys)
    requires s.pc == Releasing && s.Bound() && s.State(DRAINING)
    ensures var n := Step(s, GO);
      n == s.Unbind().(pc := Closing(true), o := s.o.Release(s.Key(), s.Op()), freed := n.freed)
  {
    assert MayRelease(s);
  }

  lemma LosesReply(s: Sys, released: bool)
    requires s.pc == Returning(released)
    ensures Step(s, NOT_RUN) == s.(pc := Idle, tried := true)
  {
  }

  lemma Replays(s: Sys)
    requires s.busy && s.pc == Idle
    ensures Step(s, EReplay) == s.At(Launched)
  {
  }

  lemma Submits(s: Sys, cmd: Command)
    requires !s.busy && cmd.op !in s.used
    ensures Step(s, ESubmit(cmd)) == s.(busy := true, cmd := cmd, tried := false, pc := Launched,
                                        used := s.used + {cmd.op})
  {
  }

  // ---------------------------------------------------------------- the states of one ADD

  /** One native replica serves; `cmd` will add a borrowed one. */
  function Natives(home: ReplicaKey): Owners {
    Owners(map[home := ACTIVE], map[home := NATIVE], map[], {}, map[], {home}, map[], map[], {home}, {home}, map[],
           map[], map[], {home})
  }

  function Start(home: ReplicaKey, cmd: Command): Sys {
    Sys(false, cmd, false, Idle, {}, 0, Natives(home), Free, NoFence, map[], [], [])
  }

  ghost predicate Adds(home: ReplicaKey, cmd: Command) {
    cmd.kind == ADD && cmd.target != home
  }

  /** The operation's worker stands at `pc` over the owners `o`. */
  predicate Stands(s: Sys, cmd: Command, pc: Pc, o: Owners) {
    s.busy && s.cmd == cmd && s.pc == pc && s.o == o && s.answers == [] && s.freed == []
  }

  /** The guest is registered, hidden and owned by the operation. */
  predicate Hidden(o: Owners, cmd: Command) {
    && o.In(cmd.target, CREATING) && o.Is(cmd.target, BORROWED) && cmd.target in o.made && o.made[cmd.target] == cmd.op
    && cmd.target !in o.spoilt && cmd.target !in o.eff && cmd.target !in o.route && cmd.target !in o.pool
    && cmd.target !in o.pend && cmd.target !in o.ready && cmd.op !in o.pub && cmd.op !in o.rel && cmd.target in o.up
    && (forall p | p in o.pub :: o.pub[p] != cmd.target)
  }

  lemma CreatesGuest(s: Sys)
    requires s.pc == Launched && s.cmd.kind == ADD && s.Key() !in s.o.m && s.Key() !in s.o.spoilt
    ensures Step(s, GO) == s.Bind().With(s.o.Create(s.Key(), s.Op(), CREATING)).At(Prepared)
  {
  }

  lemma Creates(home: ReplicaKey, cmd: Command)
    requires Adds(home, cmd)
    ensures Hidden(Natives(home).Create(cmd.target, cmd.op, CREATING), cmd)
    ensures Step(Step(Start(home, cmd), ESubmit(cmd)), GO) ==
              Sys(true, cmd, false, Prepared, {cmd.op}, 0, Natives(home).Create(cmd.target, cmd.op, CREATING), Free,
                  NoFence,
                  map[cmd.op := cmd.target], [], [])
  {
    hide Step;
    assert cmd.target !in Natives(home).m;
    Submits(Start(home, cmd), cmd);
    CreatesGuest(Step(Start(home, cmd), ESubmit(cmd)));
  }

  /** bootstrap_and_publish up to and including commit_pending. */
  lemma Promotes(s: Sys, cmd: Command)
    requires cmd.kind == ADD && Stands(s, cmd, Prepared, s.o) && Hidden(s.o, cmd) && cmd.op in s.bind
    requires s.lock == Free && s.latch == NoFence
    ensures var n := Step(Step(Step(Step(s, GO), GO), GO), GO);
      n == s.(pc := Commit(Publish), lock := Worker, o := n.o)
      && n.o == s.o.Park(cmd.target, cmd.op).Loaded(cmd.target, cmd.op, s.version).Promote(cmd.target)
  {
    hide Step;
    Opens(s);
    var a := Step(s, GO);
    Registers(a);
    var b := Step(a, GO);
    Loads(b);
    JoinsEffective(Step(b, GO));
  }

  /** commit_ready never runs, R proves it, M drains, and that answer is lost: the operation is fenced and UNKNOWN. */
  lemma Doubts(s: Sys, cmd: Command)
    requires cmd.kind == ADD && Stands(s, cmd, Commit(Publish), s.o) && cmd.op in s.bind
    requires s.o.In(cmd.target, CREATING) && s.o.Is(cmd.target, BORROWED) && cmd.op !in s.o.pub
    ensures Step(Step(Step(Step(s, GO), NOT_RUN), GO), NOT_RUN) ==
              s.(pc := Idle, tried := true, lock := Free, latch := ByOperation(cmd.op),
                 o := s.o.Enter(cmd.target, ACTIVE).Enter(cmd.target, DRAINING))
  {
    hide Step;
    ActivatesGuest(s, Publish);
    var a := Step(s, GO);
    NeverPublishes(a, Publish);
    var b := Step(a, NOT_RUN);
    ProvesAbsent(b, Publish);
    LosesAbsence(Step(b, GO));
  }

  /** What a worker left behind: an effective, unrouted member that M already drains. */
  predicate LeftBehind(o: Owners, cmd: Command) {
    && o.In(cmd.target, DRAINING) && o.Is(cmd.target, BORROWED) && cmd.target in o.made && o.made[cmd.target] == cmd.op
    && cmd.target !in o.spoilt && cmd.target in o.eff && cmd.target !in o.route && cmd.target !in o.pool
    && cmd.op !in o.rel
    && cmd.target in o.ready && o.ready[cmd.target] == (cmd.op, 0) && cmd.target in o.up && !o.Admits(cmd.target)
  }

  function Unrouted(k: ReplicaKey): Answer { Answer(ADD, k, DRAINING, true, false, false) }

  /** The replay reconciles the fence and is answered SERVICE_COMMITTED by the exit branch of commit_service_change. */
  lemma Reconciles(s: Sys, cmd: Command)
    requires cmd.kind == ADD && Stands(s, cmd, Idle, s.o) && LeftBehind(s.o, cmd)
    requires s.bind == map[cmd.op := cmd.target] && s.lock == Free && s.latch == ByOperation(cmd.op)
    ensures Step(Step(Step(Step(Step(Step(s, EReplay), GO), GO), GO), GO), GO) ==
              s.(pc := Returning(false), latch := NoFence, answers := [Unrouted(cmd.target)])
  {
    hide Step;
    Replays(s);
    var a := Step(s, EReplay);
    FindsRecord(a);
    var b := Step(a, GO);
    FindsFence(b);
    var c := Step(b, GO);
    CommitsExit(c, Recover);
    var d := Step(c, GO);
    FindsNoRoute(d, Recover);
    Accepts(Step(d, GO), Recover);
  }

  function Destroyed(k: ReplicaKey): Freed { Freed(k, true, DRAINING, true, false, false, false, false, true) }

  /** The answer is lost and training moves on; the next replay finds its WEIGHT_READY stale and rolls back. */
  lemma GoesStale(s: Sys, cmd: Command)
    requires cmd.kind == ADD && s.busy && s.cmd == cmd && s.pc == Returning(false) && s.freed == []
             && LeftBehind(s.o, cmd)
    requires s.bind == map[cmd.op := cmd.target] && s.lock == Free && s.latch == NoFence && s.version == 0
    ensures Step(Step(Step(Step(s, NOT_RUN), ETrain), EReplay), GO) == s.(pc := Prepared, tried := true, version := 1)
  {
    LosesReply(s, false);
    var a := Step(s, NOT_RUN);
    assert Step(a, ETrain) == a.(version := 1);
    hide Step;
    var b := Step(a, ETrain);
    Replays(b);
    FindsRecord(Step(b, EReplay));
  }

  lemma RollsBack(s: Sys, cmd: Command)
    requires cmd.kind == ADD && s.busy && s.cmd == cmd && s.pc == Prepared && s.freed == [] && LeftBehind(s.o, cmd)
    requires s.bind == map[cmd.op := cmd.target] && s.lock == Free && s.latch == NoFence && s.version == 1
    ensures Step(Step(Step(Step(s, GO), GO), GO), GO) == s.(pc := RollbackRelease, lock := Worker,
                                                            o := s.o.Discard(cmd.target))
  {
    hide Step;
    Opens(s);
    var a := Step(s, GO);
    RegistersAgain(a);
    var b := Step(a, GO);
    FindsStale(b);
    Discards(Step(b, GO));
  }

  lemma Destroys(s: Sys, cmd: Command)
    requires cmd.kind == ADD && s.busy && s.cmd == cmd && s.pc == RollbackRelease && s.freed == []
    requires exists o :: LeftBehind(o, cmd) && s.o == o.Discard(cmd.target)
    requires s.bind == map[cmd.op := cmd.target]
    ensures var n := Step(s, GO); n.freed == [Destroyed(cmd.target)] && cmd.target in n.o.eff && cmd.target !in n.o.up
  {
    assert MayRelease(s);
    assert FreedNow(s) == Destroyed(cmd.target);
  }

  // ---------------------------------------------------------------- the runs

  function FirstAttempt(cmd: Command): seq<Event> { [ESubmit(cmd), GO] + [GO, GO, GO, GO] + [GO, NOT_RUN, GO, NOT_RUN] }
  const SECOND_ATTEMPT := [EReplay, GO, GO, GO] + [GO, GO]
  const THIRD_ATTEMPT := [NOT_RUN, ETrain, EReplay, GO] + [GO, GO, GO, GO] + [GO]

  function Parked(home: ReplicaKey, cmd: Command): Sys {
    var o := Natives(home).Create(cmd.target, cmd.op, CREATING).Park(cmd.target, cmd.op)
             .Loaded(cmd.target, cmd.op, 0).Promote(cmd.target)
             .Enter(cmd.target, ACTIVE).Enter(cmd.target, DRAINING);
    Sys(true, cmd, true, Idle, {cmd.op}, 0, o, Free, ByOperation(cmd.op), map[cmd.op := cmd.target], [], [])
  }

  lemma ParkedLeftBehind(home: ReplicaKey, cmd: Command)
    requires Adds(home, cmd)
    ensures LeftBehind(Parked(home, cmd).o, cmd)
  {
  }

  lemma StartBegins(home: ReplicaKey, cmd: Command)
    ensures Begun(Start(home, cmd))
  {
  }

  lemma FirstRun(home: ReplicaKey, cmd: Command)
    requires Adds(home, cmd)
    ensures Run(Start(home, cmd), FirstAttempt(cmd)) == Parked(home, cmd)
  {
    hide Step;
    hide Run;
    var s := Start(home, cmd);
    RunTwo(s, ESubmit(cmd), GO);
    Creates(home, cmd);
    var a := Run(s, [ESubmit(cmd), GO]);
    RunFour(a, GO, GO, GO, GO);
    RunConcat(s, [ESubmit(cmd), GO], [GO, GO, GO, GO]);
    Promotes(a, cmd);
    var b := Run(a, [GO, GO, GO, GO]);
    RunFour(b, GO, NOT_RUN, GO, NOT_RUN);
    RunConcat(s, [ESubmit(cmd), GO] + [GO, GO, GO, GO], [GO, NOT_RUN, GO, NOT_RUN]);
    Doubts(b, cmd);
  }

  lemma SecondRun(s: Sys, cmd: Command)
    requires cmd.kind == ADD && Stands(s, cmd, Idle, s.o) && LeftBehind(s.o, cmd)
    requires s.bind == map[cmd.op := cmd.target] && s.lock == Free && s.latch == ByOperation(cmd.op)
    ensures Run(s, SECOND_ATTEMPT) == s.(pc := Returning(false), latch := NoFence, answers := [Unrouted(cmd.target)])
  {
    hide Step;
    RunFour(s, EReplay, GO, GO, GO);
    var a := Run(s, [EReplay, GO, GO, GO]);
    RunTwo(a, GO, GO);
    RunConcat(s, [EReplay, GO, GO, GO], [GO, GO]);
    Reconciles(s, cmd);
  }

  lemma ThirdRun(s: Sys, cmd: Command)
    requires cmd.kind == ADD && s.busy && s.cmd == cmd && s.pc == Returning(false) && s.freed == []
             && LeftBehind(s.o, cmd)
    requires s.bind == map[cmd.op := cmd.target] && s.lock == Free && s.latch == NoFence && s.version == 0
    ensures var n := Run(s, THIRD_ATTEMPT);
      n.freed == [Destroyed(cmd.target)] && cmd.target in n.o.eff && cmd.target !in n.o.up
  {
    hide Step;
    RunFour(s, NOT_RUN, ETrain, EReplay, GO);
    GoesStale(s, cmd);
    var a := Run(s, [NOT_RUN, ETrain, EReplay, GO]);
    RunFour(a, GO, GO, GO, GO);
    RollsBack(a, cmd);
    var b := Run(a, [GO, GO, GO, GO]);
    RunConcat(s, [NOT_RUN, ETrain, EReplay, GO], [GO, GO, GO, GO]);
    RunConcat(s, [NOT_RUN, ETrain, EReplay, GO] + [GO, GO, GO, GO], [GO]);
    assert [GO][..0] == [];
    assert Run(b, [GO]) == Step(b, GO);
    Destroys(b, cmd);
  }

  /** SERVICE_COMMITTED is not always "routed": this ADD is answered while its replica has no route. */
  lemma {:induction false} CommittedButUnrouted(home: ReplicaKey, cmd: Command)
    requires Adds(home, cmd)
    ensures Begun(Start(home, cmd))
    ensures Unrouted(cmd.target) in Run(Start(home, cmd), FirstAttempt(cmd) + SECOND_ATTEMPT).answers
  {
    hide Run;
    StartBegins(home, cmd);
    FirstRun(home, cmd);
    ParkedLeftBehind(home, cmd);
    SecondRun(Parked(home, cmd), cmd);
    RunConcat(Start(home, cmd), FirstAttempt(cmd), SECOND_ATTEMPT);
  }

  /**
   * Release does not always come last: the same ADD's rollback destroys a runtime that is still an effective member.
   */
  lemma {:induction false} EffectiveMemberDestroyed(home: ReplicaKey, cmd: Command)
    requires Adds(home, cmd)
    ensures Begun(Start(home, cmd))
    ensures var s := Run(Start(home, cmd), FirstAttempt(cmd) + SECOND_ATTEMPT + THIRD_ATTEMPT);
      Destroyed(cmd.target) in s.freed && cmd.target in s.o.eff && cmd.target !in s.o.up
  {
    hide Run;
    StartBegins(home, cmd);
    FirstRun(home, cmd);
    ParkedLeftBehind(home, cmd);
    SecondRun(Parked(home, cmd), cmd);
    RunConcat(Start(home, cmd), FirstAttempt(cmd), SECOND_ATTEMPT);
    RunConcat(Start(home, cmd), FirstAttempt(cmd) + SECOND_ATTEMPT, THIRD_ATTEMPT);
    ThirdRun(Run(Start(home, cmd), FirstAttempt(cmd) + SECOND_ATTEMPT), cmd);
  }

  // ---------------------------------------------------------------- a second native release that does not sleep

  /** A parked native: DORMANT, waiting in E's pending map, out of R. */
  predicate ParkedNative(o: Owners, k: ReplicaKey) {
    && o.In(k, DORMANT) && o.Is(k, NATIVE) && k in o.pend && k !in o.eff && k !in o.route && k !in o.pool
    && (forall r | r in o.adm :: o.adm[r] != k)
  }

  /** RESTORE up to commit_pending. */
  lemma Wakes(s: Sys, cmd: Command)
    requires cmd.kind == RESTORE && s.busy && s.cmd == cmd && s.pc == Launched && s.lock == Free && s.latch == NoFence
    requires ParkedNative(s.o, cmd.target)
    ensures Step(Step(Step(Step(s, GO), GO), GO), GO) ==
              s.Bind().(pc := Ready, lock := Worker,
                        o := s.o.Discard(cmd.target).Park(cmd.target, cmd.op).Loaded(cmd.target, cmd.op, s.version))
  {
    hide Step;
    FindsDormant(s);
    var a := Step(s, GO);
    Opens(a);
    var b := Step(a, GO);
    Rebinds(b);
    Loads(Step(b, GO));
  }

  /** ... through activation, the failed publication and R's negative answer. */
  lemma FailsToPublish(s: Sys, cmd: Command)
    requires cmd.kind == RESTORE && s.busy && s.cmd == cmd && s.pc == Ready && s.lock == Worker && cmd.op in s.bind
    requires s.o.In(cmd.target, DORMANT) && s.o.Is(cmd.target, NATIVE) && cmd.op !in s.o.pub && cmd.target !in s.o.eff
    requires cmd.target in s.o.pend && s.o.pend[cmd.target] == cmd.op && cmd.target in s.o.ready
             && s.o.ready[cmd.target].0 == cmd.op
    ensures Step(Step(Step(Step(s, GO), GO), NOT_RUN), GO) ==
              s.(pc := Absent(Publish),
                 o := s.o.Promote(cmd.target).Woken(cmd.target).Enter(cmd.target, ACTIVE).Enter(cmd.target, DRAINING))
  {
    hide Step;
    JoinsEffective(s);
    var a := Step(s, GO);
    ActivatesNative(a, Publish);
    var b := Step(a, GO);
    NeverPublishes(b, Publish);
    ProvesAbsent(Step(b, NOT_RUN), Publish);
  }

  /** ... and the withdrawal, whose release answers from `rel` if the operation was answered before. */
  lemma Sleeps(s: Sys, cmd: Command)
    requires cmd.kind == RESTORE && s.busy && s.cmd == cmd && s.pc == Absent(Publish) && s.latch == NoFence
             && cmd.op in s.bind
    requires s.o.In(cmd.target, DRAINING) && s.o.Is(cmd.target, NATIVE) && cmd.target in s.o.up
    ensures var n := Step(Step(s, GO), GO);
      && n == s.Unbind().(pc := Returning(true), lock := Free, o := n.o, freed := n.freed)
      && n.o == s.o.RemoveEffective(cmd.target).Park(cmd.target, cmd.op).Release(cmd.target, cmd.op)
  {
    hide Step;
    Withdraws(s);
    ReleasesWithdrawn(Step(s, GO));
  }

  function WokenUp(o: Owners, k: ReplicaKey, op: string, version: nat): Owners {
    o.Discard(k).Park(k, op).Loaded(k, op, version)
  }

  function Withdrawing(o: Owners, k: ReplicaKey): Owners {
    o.Promote(k).Woken(k).Enter(k, ACTIVE).Enter(k, DRAINING)
  }

  lemma WokenUpFacts(o: Owners, k: ReplicaKey, op: string, version: nat)
    requires ParkedNative(o, k)
    ensures var n := WokenUp(o, k, op, version);
      && ParkedNative(n, k) && n.pend[k] == op && k in n.ready && n.ready[k].0 == op && n.rel == o.rel && n.pub == o.pub
  {
  }

  lemma WithdrawingFacts(o: Owners, k: ReplicaKey, op: string)
    requires ParkedNative(o, k)
    ensures var n := Withdrawing(o, k);
      && n.In(k, DRAINING) && n.Is(k, NATIVE) && k in n.up && n.pub == o.pub
    ensures var e := Withdrawing(o, k).RemoveEffective(k).Park(k, op).Release(k, op);
      && ParkedNative(e, k) && e.pub == o.pub && op in e.rel && (k in e.up <==> op in o.rel)
  {
  }

  const ATTEMPT := [GO, GO, GO, GO] + [GO, GO, NOT_RUN, GO] + [GO, GO]

  lemma Attempt(s: Sys, cmd: Command)
    requires cmd.kind == RESTORE && s.busy && s.cmd == cmd && s.pc == Launched && s.lock == Free && s.latch == NoFence
    requires ParkedNative(s.o, cmd.target) && cmd.op !in s.o.pub
    ensures var n := Run(s, ATTEMPT);
      && n.busy && n.cmd == cmd && n.pc == Returning(true) && n.lock == Free && n.latch == NoFence
      && ParkedNative(n.o, cmd.target) && cmd.op !in n.o.pub && cmd.op in n.o.rel
      && (cmd.target in n.o.up <==> cmd.op in s.o.rel)
  {
    hide Step;
    var k := cmd.target;
    RunFour(s, GO, GO, GO, GO);
    Wakes(s, cmd);
    WokenUpFacts(s.o, k, cmd.op, s.version);
    var a := Run(s, [GO, GO, GO, GO]);
    assert a.o == WokenUp(s.o, k, cmd.op, s.version);
    RunFour(a, GO, GO, NOT_RUN, GO);
    FailsToPublish(a, cmd);
    WithdrawingFacts(a.o, k, cmd.op);
    var b := Run(a, [GO, GO, NOT_RUN, GO]);
    assert b.o == Withdrawing(a.o, k);
    RunTwo(b, GO, GO);
    Sleeps(b, cmd);
    RunConcat(s, [GO, GO, GO, GO], [GO, GO, NOT_RUN, GO]);
    RunConcat(s, [GO, GO, GO, GO] + [GO, GO, NOT_RUN, GO], [GO, GO]);
  }

  /** DONATE of the only native: admission closes, ... */
  lemma Donates(home: ReplicaKey, cmd: Command)
    requires cmd.kind == DONATE && cmd.target == home && !cmd.force
    ensures var o := Natives(home).Enter(home, DRAINING).BeginDrain(home, cmd.op);
      Step(Step(Step(Step(Start(home, cmd), ESubmit(cmd)), GO), GO), GO) ==
        Start(home, cmd).(busy := true, used := {} + {cmd.op}, pc := Draining, o := o, bind := map[][cmd.op := home])
  {
    hide Step;
    var s := Start(home, cmd);
    Submits(s, cmd);
    var a := Step(s, ESubmit(cmd));
    Attends(a);
    var b := Step(a, GO);
    StopsAdmission(b);
    BeginsDrain(Step(b, GO));
  }

  /** ... the drained member leaves E, ... */
  lemma Leaves(s: Sys, cmd: Command)
    requires cmd.kind == DONATE && s.busy && s.cmd == cmd && s.pc == Draining && s.lock == Free && s.latch == NoFence
             && cmd.op in s.bind
    requires !s.o.Admits(cmd.target) && cmd.target in s.o.eff && s.o.Is(cmd.target, NATIVE)
             && s.o.In(cmd.target, DRAINING)
    ensures Step(Step(Step(Step(s, GO), GO), GO), GO) ==
              s.(pc := Unrouting(Exit), lock := Worker, o := s.o.RemoveEffective(cmd.target).Park(cmd.target, cmd.op))
  {
    hide Step;
    FindsDrained(s);
    var a := Step(s, GO);
    OpensForExit(a);
    var b := Step(a, GO);
    LeavesEffective(b);
    CommitsExit(Step(b, GO), Exit);
  }

  /** ... its route closes and it sleeps. */
  lemma SleepsDonated(s: Sys, cmd: Command)
    requires cmd.kind == DONATE && s.busy && s.cmd == cmd && s.pc == Unrouting(Exit) && s.latch == NoFence
             && cmd.op in s.bind
    requires !s.o.Admits(cmd.target) && cmd.target in s.o.route && s.o.Is(cmd.target, NATIVE)
             && s.o.In(cmd.target, DRAINING)
    requires cmd.target !in s.o.eff && cmd.target in s.o.pend && cmd.target !in s.o.pool
    ensures var n := Step(Step(Step(Step(s, GO), GO), GO), GO);
      && n.busy && n.cmd == cmd && n.pc == Closing(true)
      && n.o == s.o.FinishRemove(cmd.target).Release(cmd.target, cmd.op)
      && n.lock == Free && n.latch == NoFence && n.used == s.used
  {
    hide Step;
    ClosesRoute(s, Exit);
    var a := Step(s, GO);
    Accepts(a, Exit);
    var b := Step(a, GO);
    ReturnsExit(b);
    ReleasesExit(Step(b, GO));
  }

  /** The donation is closed and the next command submitted. */
  lemma Resubmits(s: Sys, cmd: Command)
    requires s.busy && s.pc == Closing(true) && cmd.op !in s.used
    ensures var n := Step(Step(s, GO), ESubmit(cmd));
      n.busy && n.cmd == cmd && n.pc == Launched && n.o == s.o && n.lock == s.lock && n.latch == s.latch
  {
  }

  function Donation(donate: Command, restore: Command): seq<Event> {
    [ESubmit(donate), GO, GO, GO] + [GO, GO, GO, GO] + [GO, GO, GO, GO] + [GO, ESubmit(restore)]
  }

  ghost predicate DonatesThenRestores(home: ReplicaKey, donate: Command, restore: Command) {
    && donate.kind == DONATE && donate.target == home && !donate.force
    && restore.kind == RESTORE && restore.target == home && restore.op != donate.op
  }

  lemma DonationRuns(s: Sys, donate: Command, restore: Command)
    ensures Run(s, Donation(donate, restore)) ==
              Run(Run(Run(Run(s, [ESubmit(donate), GO, GO, GO]), [GO, GO, GO, GO]), [GO, GO, GO, GO]),
                  [GO, ESubmit(restore)])
  {
    hide Run;
    RunConcat(s, [ESubmit(donate), GO, GO, GO], [GO, GO, GO, GO]);
    RunConcat(s, [ESubmit(donate), GO, GO, GO] + [GO, GO, GO, GO], [GO, GO, GO, GO]);
    RunConcat(s, [ESubmit(donate), GO, GO, GO] + [GO, GO, GO, GO] + [GO, GO, GO, GO], [GO, ESubmit(restore)]);
  }

  /** The owners while the only native drains, and once it sleeps. */
  function DrainingHome(home: ReplicaKey, op: string): Owners {
    Natives(home).Enter(home, DRAINING).BeginDrain(home, op)
  }

  function AsleepHome(home: ReplicaKey, op: string): Owners {
    DrainingHome(home, op).RemoveEffective(home).Park(home, op).FinishRemove(home).Release(home, op)
  }

  lemma AsleepHomeFacts(home: ReplicaKey, op: string, other: string)
    requires other != op
    ensures var o := AsleepHome(home, op); ParkedNative(o, home) && other !in o.pub && other !in o.rel
  {
  }

  lemma {:induction false} DonatedThenLaunched(home: ReplicaKey, donate: Command, restore: Command)
    requires DonatesThenRestores(home, donate, restore)
    ensures var n := Run(Start(home, donate), Donation(donate, restore));
      && n.busy && n.cmd == restore && n.pc == Launched && n.lock == Free && n.latch == NoFence
      && ParkedNative(n.o, home) && restore.op !in n.o.pub && restore.op !in n.o.rel
  {
    hide Step;
    hide Run;
    var s := Start(home, donate);
    DonationRuns(s, donate, restore);
    RunFour(s, ESubmit(donate), GO, GO, GO);
    Donates(home, donate);
    var a := Run(s, [ESubmit(donate), GO, GO, GO]);
    RunFour(a, GO, GO, GO, GO);
    Leaves(a, donate);
    var b := Run(a, [GO, GO, GO, GO]);
    SleepsDonated(b, donate);
    RunFour(b, GO, GO, GO, GO);
    var c := Run(b, [GO, GO, GO, GO]);
    RunTwo(c, GO, ESubmit(restore));
    Resubmits(c, restore);
    assert c.o == AsleepHome(home, donate.op);
    hide *;
    AsleepHomeFacts(home, donate.op, restore.op);
  }

  function TwoRestores(donate: Command, restore: Command): seq<Event> {
    Donation(donate, restore) + ATTEMPT + [NOT_RUN, EReplay] + ATTEMPT
  }

  /**
   * RELEASED is not always "asleep": when RESTORE's first answer is lost and its replay fails to publish again, M
   * answers from the first attempt's evidence and leaves the native awake behind a DORMANT state.
   */
  lemma {:induction false} AwakeAfterRelease(home: ReplicaKey, donate: Command, restore: Command)
    requires DonatesThenRestores(home, donate, restore)
    ensures Begun(Start(home, donate))
    ensures var n := Run(Start(home, donate), TwoRestores(donate, restore));
      n.pc == Returning(true) && n.o.In(home, DORMANT) && home in n.o.up
  {
    hide Step;
    hide Run;
    StartBegins(home, donate);
    var s := Start(home, donate);
    DonatedThenLaunched(home, donate, restore);
    var a := Run(s, Donation(donate, restore));
    Attempt(a, restore);
    var b := Run(a, ATTEMPT);
    RunTwo(b, NOT_RUN, EReplay);
    LosesReply(b, true);
    Replays(Step(b, NOT_RUN));
    Attempt(Run(b, [NOT_RUN, EReplay]), restore);
    RunConcat(s, Donation(donate, restore), ATTEMPT);
    RunConcat(s, Donation(donate, restore) + ATTEMPT, [NOT_RUN, EReplay]);
    RunConcat(s, Donation(donate, restore) + ATTEMPT + [NOT_RUN, EReplay], ATTEMPT);
  }
}
