/**
 * FORCE REMOVE as a sequence of remote calls (rollouter.py, prepare_exit with force).  Between any two of
 * them clients keep releasing, confirming and starting requests, and any call may fail or lose its reply;
 * the operation is then replayed from the start with the facts it has recorded.
 */
module ForceExit {
  import opened Contracts
  import opened AttemptLedger

  /** Where one attempt of the operation is. */
  datatype Pc =
    | Idle                                             // not running: before the first attempt, or after a failure
    | Draining                                         // preflight passed, begin_drain about to be called
    | Reading(todo: set<string>, seen: set<string>)    // asking the router about each request it listed
    | Aborting                                         // request set recorded, backend abort about to be called
    | Polling
    | Polled(handoffs: set<string>)                    // hand-offs read, unsettled requests about to be read
    | ExitReady

  datatype Recovery = Recovery(admitted: set<string>, aborted: Option<nat>)

  /** `closed` and `released` are history: what the server owned when admission closed, and what was released since. */
  datatype Force = Force(key: ReplicaKey, op: string, server: string, m: Router, recovery: Option<Recovery>, pc: Pc,
                         aborts: nat, closed: Option<set<string>>, released: set<string>)

  datatype Act =
    | Traffic(e: Event)          // a client request reaches the router
    | Preflight                  // the checks made before anything is changed
    | Drain(replied: bool)
    | Read(r: string)
    | Record                     // all read: persist the request set
    | Abort(issued: bool, count: Option<int>)   // `count` is None when the reply is lost or malformed
    | PollHandoffs
    | PollUnsettled
    | Fail                       // timeout or lost reply anywhere

  predicate IsTraffic(e: Event) {
    e.EAcquire? || e.ERelease? || e.EConfirm?
  }

  function Handoffs(f: Force): set<string> {
    if f.op in f.m.handoffs then f.m.handoffs[f.op] else {}
  }

  function OwnedBy(m: Router, server: string): set<string> {
    set r | r in m.owner && m.owner[r] == server
  }

  /** Requests that an admitted-request release takes off the drained server. */
  function ReleasedNow(f: Force, e: Event): set<string> {
    if e.ERelease? && e.r != "" && e.r in AdmittedAt(f.m, f.server) && Release(f.m, e.server, e.r).Ok? then {e.r}
    else {}
  }

  predicate HandoffComplete(rec: Recovery, handoffs: set<string>) {
    var confirmed := |handoffs * rec.admitted|;
    if rec.aborted.None? then confirmed == |rec.admitted| else confirmed >= rec.aborted.value
  }

  function AfterDrain(f: Force): Force {
    var d := BeginDrain(f.m, f.key, f.op);
    if d.Err? then f.(pc := Idle)
    else f.(m := d.value.0, closed := if f.closed.None? then Some(OwnedBy(f.m, f.server)) else f.closed)
  }

  /** One act; an act that is not enabled changes nothing. */
  function Do(f: Force, a: Act): Force {
    match a
    case Traffic(e) => if IsTraffic(e) then f.(m := Step(f.m, e), released := f.released + ReleasedNow(f, e)) else f
    case Fail => if f.pc == ExitReady then f else f.(pc := Idle)
    case Preflight =>
      if f.pc == Idle && f.key in f.m.routes && f.m.routes[f.key] == f.server
         && exists s :: s in f.m.pool && s != f.server
      then f.(pc := Draining) else f
    case Drain(replied) =>
      if f.pc != Draining then f
      else
        var d := AfterDrain(f);
        if d.pc == Idle || !replied then d.(pc := Idle)
        else if d.recovery.Some? then d.(pc := Polling)
        else d.(pc := Reading(OwnedBy(d.m, d.server), {}))
    case Read(r) =>
      if f.pc.Reading? && r in f.pc.todo then
        f.(pc := Reading(f.pc.todo - {r}, if r in f.m.attempt && f.m.attempt[r] == ADMITTED then f.pc.seen + {r}
                         else f.pc.seen))
      else f
    case Record =>
      if f.pc.Reading? && f.pc.todo == {} then f.(recovery := Some(Recovery(f.pc.seen, None)), pc := Aborting) else f
    case Abort(issued, count) =>
      if f.pc != Aborting || f.recovery.None? then f
      else
        var g := if issued then f.(aborts := f.aborts + 1) else f;
        if issued && count.Some? && 0 <= count.value <= |f.recovery.value.admitted|
        then g.(recovery := Some(f.recovery.value.(aborted := Some(count.value))), pc := Polling)
        else g.(pc := Idle)
    case PollHandoffs => if f.pc == Polling then f.(pc := Polled(Handoffs(f))) else f
    case PollUnsettled =>
      if f.pc.Polled? && f.recovery.Some? then
        (if !HasUnsettled(f.m, f.server) && HandoffComplete(f.recovery.value, f.pc.handoffs) then f.(pc := ExitReady)
         else f.(pc := Polling))
      else f
  }

  function Run(f: Force, acts: seq<Act>): Force {
    if acts == [] then f else Do(Run(f, acts[..|acts| - 1]), acts[|acts| - 1])
  }

  /** Before the operation: a routed server that is not draining. */
  ghost predicate Fresh(f: Force) {
    && Inv(f.m) && Bounded(f.m) && TerminatedDrains(f.m.owner, f.m.attempt, f.m.draining)
    && f.op != "" && f.op !in f.m.handoffs
    && f.key in f.m.routes && f.m.routes[f.key] == f.server && f.server !in f.m.draining
    && f.recovery.None? && f.pc == Idle && f.aborts == 0 && f.closed.None? && f.released == {}
  }

  // ---------------------------------------------------------------- invariant

  /** What the server owned when admission closed is still admitted there, or handed off, or released. */
  ghost predicate Accounted(f: Force) {
    f.closed.Some? ==>
      && f.server !in f.m.pool && f.server in f.m.draining && f.m.draining[f.server] == f.op
      && OwnedBy(f.m, f.server) <= f.closed.value
      && f.closed.value <= AdmittedAt(f.m, f.server) + Handoffs(f) + f.released
  }

  /** With a known abort count that many recorded requests were handed off; without it all of them were. */
  ghost predicate HandedOver(rec: Recovery, handoffs: set<string>) {
    && (rec.aborted.None? ==> rec.admitted <= handoffs)
    && (rec.aborted.Some? ==> |handoffs * rec.admitted| >= rec.aborted.value)
  }

  ghost predicate PcFacts(f: Force) {
    && (f.pc !in {Idle, Draining} ==> f.closed.Some?)
    && (f.pc.Aborting? || f.pc.Polling? || f.pc.Polled? || f.pc.ExitReady? ==> f.recovery.Some?)
    && (f.pc.Reading? ==> f.recovery.None? && f.pc.todo <= f.closed.value && f.pc.seen <= f.closed.value)
    && (f.pc.Aborting? ==> f.aborts == 0)
    && (f.pc.Polled? ==> f.pc.handoffs <= Handoffs(f))
    && (f.pc.ExitReady? ==> AdmittedAt(f.m, f.server) == {} && HandedOver(f.recovery.value, Handoffs(f)))
  }

  ghost predicate RecoveryFacts(f: Force) {
    && f.aborts <= 1 && (f.recovery.None? ==> f.aborts == 0)
    && (f.recovery.Some? ==> f.closed.Some? && f.recovery.value.admitted <= f.closed.value)
    && (f.closed.None? ==> f.recovery.None?)
  }

  ghost predicate ForceInv(f: Force) {
    && Inv(f.m) && Bounded(f.m) && f.key in f.m.routes && f.m.routes[f.key] == f.server && f.op != ""
    && TerminatedDrains(f.m.owner, f.m.attempt, f.m.draining) && (f.closed.None? ==> f.server !in f.m.draining)
    && Accounted(f) && PcFacts(f) && RecoveryFacts(f)
  }

  /** The router facts about a draining server that client requests keep. */
  ghost predicate StillDraining(m: Router, m': Router, op: string, server: string) {
    && m'.draining == m.draining && m'.routes == m.routes && server !in m'.pool
    && (forall o | o in m.handoffs :: o in m'.handoffs && m.handoffs[o] <= m'.handoffs[o])
    && AdmittedAt(m', server) <= AdmittedAt(m, server) && OwnedBy(m', server) <= OwnedBy(m, server)
  }

  lemma ReleaseLeaves(m: Router, s: string, r: string, op: string, server: string)
    requires Inv(m) && server !in m.pool && Release(m, s, r).Ok?
    ensures StillDraining(m, Release(m, s, r).value, op, server)
    ensures AdmittedAt(m, server) <= AdmittedAt(Release(m, s, r).value, server) + (if r == "" then {} else {r})
  {
    hide Release;
    hide Inv;
    ReleaseDrains(m, s, r, server);
    ReleaseKeepsRest(m, s, r);
  }

  lemma ConfirmLeaves(m: Router, r: string, c: string, d: string, t: nat, op: string, server: string)
    requires Inv(m) && server !in m.pool && Confirm(m, r, c, d, t).Ok?
    requires server in m.draining && m.draining[server] == op
    ensures var m' := Confirm(m, r, c, d, t).value.0;
      && StillDraining(m, m', op, server)
      && AdmittedAt(m, server) <= AdmittedAt(m', server) + {r}
      && (r in AdmittedAt(m, server) ==> op in m'.handoffs && r in m'.handoffs[op])
  {
    ConfirmDrains(m, r, c, d, t, server);
  }

  lemma AcquireLeaves(m: Router, r: string, c: string, op: string, server: string)
    requires Inv(m) && server !in m.pool && Acquire(m, r, c).Ok?
    ensures StillDraining(m, Acquire(m, r, c).value, op, server)
    ensures AdmittedAt(m, server) <= AdmittedAt(Acquire(m, r, c).value, server)
  {
    AcquireDrains(m, r, c, server);
  }

  /**
   * What one client request does to the drained server: requests can only leave it, by a recorded hand-off or a
   * release.
   */
  lemma TrafficLeaves(f: Force, e: Event)
    requires Inv(f.m) && IsTraffic(e) && f.server !in f.m.pool
    requires f.server in f.m.draining && f.m.draining[f.server] == f.op
    ensures var g := Do(f, Traffic(e));
      && StillDraining(f.m, g.m, f.op, f.server) && f.released <= g.released
      && AdmittedAt(f.m, f.server) <= AdmittedAt(g.m, f.server) + Handoffs(g) + g.released
  {
    match e
    case ERelease(s, r) => if Release(f.m, s, r).Ok? { ReleaseLeaves(f.m, s, r, f.op, f.server); }
    case EConfirm(r, c, d, t) => if Confirm(f.m, r, c, d, t).Ok? { ConfirmLeaves(f.m, r, c, d, t, f.op, f.server); }
    case EAcquire(r, c) => if Acquire(f.m, r, c).Ok? { AcquireLeaves(f.m, r, c, f.op, f.server); }
  }

  lemma {:induction false} LargerOverlap(a: set<string>, b: set<string>, c: set<string>)
    requires a <= b
    ensures |a * c| <= |b * c|
  {
    SubsetSize(a * c, b * c);
  }

  lemma TrafficKeepsInv(f: Force, e: Event)
    requires ForceInv(f) && IsTraffic(e)
    ensures ForceInv(Do(f, Traffic(e)))
  {
    var g := Do(f, Traffic(e));
    StepKeepsInv(f.m, e);
    StepKeepsTerminated(f.m, e);
    if f.closed.Some? {
      TrafficLeaves(f, e);
      assert Handoffs(f) <= Handoffs(g);
      if f.pc.ExitReady? { LargerOverlap(Handoffs(f), Handoffs(g), f.recovery.value.admitted); }
    } else {
      TrafficKeepsRoutes(f.m, e);
    }
  }

  lemma TrafficKeepsRoutes(m: Router, e: Event)
    requires IsTraffic(e)
    ensures Step(m, e).routes == m.routes && Step(m, e).draining == m.draining
  {
    hide Release;
    if e.ERelease? && Release(m, e.server, e.r).Ok? { ReleaseKeepsRest(m, e.server, e.r); }
  }

  /** Nothing terminated is left on a server that is not draining, so all it owns is admitted. */
  lemma OwnedIsAdmitted(m: Router, server: string)
    requires Inv(m) && TerminatedDrains(m.owner, m.attempt, m.draining) && server !in m.draining
    ensures OwnedBy(m, server) == AdmittedAt(m, server)
  {
  }

  lemma DrainKeepsInv(f: Force, replied: bool)
    requires ForceInv(f)
    ensures ForceInv(Do(f, Act.Drain(replied)))
  {
    if f.pc == Draining && BeginDrain(f.m, f.key, f.op).Ok? {
      StepKeepsInv(f.m, EDrain(f.key, f.op));
      StepKeepsTerminated(f.m, EDrain(f.key, f.op));
      SameAdmitted(f.m, BeginDrain(f.m, f.key, f.op).value.0, f.server);
      if f.closed.None? { OwnedIsAdmitted(f.m, f.server); }
    }
  }

  lemma {:induction false} FullOverlap(a: set<string>, b: set<string>)
    requires |a * b| == |b|
    ensures b <= a
  {
    if !(b <= a) {
      var x :| x in b && x !in a;
      SmallerSet(a * b, b, x);
    }
  }

  lemma CompleteIsHandedOver(rec: Recovery, seen: set<string>, handoffs: set<string>)
    requires HandoffComplete(rec, seen) && seen <= handoffs
    ensures HandedOver(rec, handoffs)
  {
    LargerOverlap(seen, handoffs, rec.admitted);
    if rec.aborted.None? { FullOverlap(seen, rec.admitted); }
  }

  lemma PollKeepsInv(f: Force)
    requires ForceInv(f) && f.pc.Polled?
    ensures ForceInv(Do(f, PollUnsettled))
  {
    hide Inv;
    hide Bounded;
    hide TerminatedDrains;
    hide AdmittedAt;
    hide OwnedBy;
    if HandoffComplete(f.recovery.value, f.pc.handoffs) {
      CompleteIsHandedOver(f.recovery.value, f.pc.handoffs, Handoffs(f));
    }
  }

  lemma DoKeepsInv(f: Force, a: Act)
    requires ForceInv(f)
    ensures ForceInv(Do(f, a))
  {
    match a
    case Traffic(e) => if IsTraffic(e) { TrafficKeepsInv(f, e); }
    case Drain(replied) => DrainKeepsInv(f, replied);
    case PollUnsettled => if f.pc.Polled? { PollKeepsInv(f); }
    case Read(r) => if f.pc.Reading? && r in f.pc.todo { ReadKeepsInv(f, r); }
    case Record => RecordKeepsInv(f);
    case Abort(issued, count) => AbortKeepsInv(f, issued, count);
    case Preflight => if Do(f, a) != f { SameFacts(f, Draining); }
    case Fail => if f.pc != ExitReady { SameFacts(f, Idle); }
    case PollHandoffs => if f.pc == Polling { SameFacts(f, Polled(Handoffs(f))); }
  }

  /** Moving to a place that assumes nothing new. */
  lemma SameFacts(f: Force, pc: Pc)
    requires ForceInv(f) && (pc == Idle || pc == Draining || (f.pc == Polling && pc == Polled(Handoffs(f))))
    ensures ForceInv(f.(pc := pc))
  {
  }

  lemma RecordKeepsInv(f: Force)
    requires ForceInv(f)
    ensures ForceInv(Do(f, Record))
  {
  }

  lemma AbortKeepsInv(f: Force, issued: bool, count: Option<int>)
    requires ForceInv(f)
    ensures ForceInv(Do(f, Abort(issued, count)))
  {
    hide Inv;
    hide Bounded;
    hide TerminatedDrains;
    hide AdmittedAt;
    hide OwnedBy;
  }

  lemma ReadKeepsInv(f: Force, r: string)
    requires ForceInv(f) && f.pc.Reading? && r in f.pc.todo
    ensures ForceInv(Do(f, Read(r)))
  {
  }

  lemma {:induction false} RunKeepsForceInv(f: Force, acts: seq<Act>)
    requires ForceInv(f)
    ensures ForceInv(Run(f, acts))
  {
    if acts != [] {
      RunKeepsForceInv(f, acts[..|acts| - 1]);
      DoKeepsInv(Run(f, acts[..|acts| - 1]), acts[|acts| - 1]);
    }
  }

  /** However often one FORCE operation fails and is replayed, the backend abort is issued at most once. */
  lemma {:induction false} AbortsAtMostOnce(f: Force, acts: seq<Act>)
    requires Fresh(f)
    ensures Run(f, acts).aborts <= 1
  {
    RunKeepsForceInv(f, acts);
  }

  /**
   * When FORCE reports EXIT_READY nobody is left behind: every request the server owned when admission closed has left
   * by a recorded hand-off or by its release.  If the abort reply was lost, every recorded request was handed off.
   */
  lemma {:induction false} ForceLosesNoRequest(f: Force, acts: seq<Act>)
    requires Fresh(f)
    ensures var g := Run(f, acts);
      g.pc == ExitReady ==>
        && g.closed.Some? && g.recovery.Some? && g.recovery.value.admitted <= g.closed.value
        && !HasUnsettled(g.m, f.server)
        && g.closed.value <= Handoffs(g) + g.released
        && (g.recovery.value.aborted.None? ==> g.recovery.value.admitted <= Handoffs(g))
        && (g.recovery.value.aborted.Some? ==>
            |Handoffs(g) * g.recovery.value.admitted| >= g.recovery.value.aborted.value)
  {
    RunKeepsForceInv(f, acts);
    RunKeepsIdentity(f, acts);
  }

  lemma {:induction false} RunKeepsIdentity(f: Force, acts: seq<Act>)
    ensures Run(f, acts).server == f.server && Run(f, acts).op == f.op && Run(f, acts).key == f.key
  {
    if acts != [] { RunKeepsIdentity(f, acts[..|acts| - 1]); }
  }
}
