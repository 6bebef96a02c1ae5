/**
 * The task-local synchronisation gate (orchestration/replica_sync_gate.py): the object itself, and every
 * interleaving of the coroutines that wait for it, own it, guard calls with it and reconcile it.
 */
module SyncGate {
  import opened Contracts

  datatype GateKind = ADD | REMOVE | RESTORE | NATIVE_SYNC | RECOVERY
  datatype Owner = Owner(op: string, kind: GateKind, epoch: nat)
  datatype Gate = Gate(locked: bool, owner: Option<Owner>, epoch: nat, blockedOp: Option<string>)

  const FREE := Gate(false, None, 0, None)

  predicate Active(g: Gate, o: Owner) {
    g.owner == Some(o) && g.locked
  }

  predicate MayWait(g: Gate, op: string) {
    op != "" && g.blockedOp.None? && !(g.owner.Some? && g.owner.value.op == op)
  }

  /** A coroutine that has just obtained the lock: it becomes the owner under a new epoch. */
  function Install(g: Gate, op: string, kind: GateKind): Gate {
    g.(epoch := g.epoch + 1, owner := Some(Owner(op, kind, g.epoch + 1)))
  }

  function Unlock(g: Gate): Gate {
    g.(locked := false, owner := None)
  }

  class ReplicaSyncGate {
    var locked: bool
    var owner: Option<Owner>
    var epoch: nat
    var blockedReason: Option<string>
    var blockedOperation: Option<string>

    ghost function View(): Gate
      reads this
    {
      Gate(locked, owner, epoch, blockedOperation)
    }

    ghost predicate Valid()
      reads this
    {
      (owner.Some? ==> locked && owner.value.epoch <= epoch) && (blockedReason.Some? <==> blockedOperation.Some?)
    }

    constructor ()
      ensures Valid() && View() == FREE
    {
      locked, owner, epoch, blockedReason, blockedOperation := false, None, 0, None, None;
    }

    /** Only the owner may latch the gate, and only with a reason. */
    method Block(o: Owner, reason: string) returns (ok: bool)
      requires Valid()
      modifies this`blockedReason, this`blockedOperation
      ensures Valid() && ok == (Active(old(View()), o) && reason != "")
      ensures View() == if ok then old(View()).(blockedOp := Some(o.op)) else old(View())
    {
      ok := owner == Some(o) && locked && reason != "";
      if ok { blockedReason, blockedOperation := Some(reason), Some(o.op); }
    }

    /** `acquire` before it waits for the lock. */
    method BeginAcquire(op: string) returns (ok: bool)
      requires Valid()
      ensures ok == MayWait(View(), op)
    {
      ok := op != "" && blockedReason.None? && !(owner.Some? && owner.value.op == op);
    }

    /** `acquire` once it has the lock: the previous owner may have blocked the gate in the meantime. */
    method FinishAcquire(op: string, kind: GateKind) returns (lease: Option<Owner>)
      requires Valid() && locked && owner.None?
      modifies this
      ensures Valid() && lease == owner
      ensures View() == if old(View()).blockedOp.Some? then Unlock(old(View())) else Install(old(View()), op, kind)
    {
      if blockedReason.Some? {
        locked := false;
        return None;
      }
      epoch := epoch + 1;
      owner := Some(Owner(op, kind, epoch));
      lease := owner;
    }

    method Release(o: Owner) returns (released: bool)
      requires Valid()
      modifies this`owner, this`locked
      ensures Valid() && released == Active(old(View()), o)
      ensures View() == if released then Unlock(old(View())) else old(View())
    {
      if owner != Some(o) || !locked { return false; }
      owner := None;
      locked := false;
      released := true;
    }

    /** `reconcile` once it has the lock: None when another reconciler was faster. */
    method BeginReconcile(op: string) returns (lease: Option<Owner>)
      requires Valid() && locked && owner.None?
      modifies this
      ensures Valid() && lease == owner
      ensures View() == if old(View()).blockedOp == Some(op) then Install(old(View()), op, RECOVERY)
              else Unlock(old(View()))
    {
      if blockedOperation != Some(op) {
        locked := false;
        return None;
      }
      epoch := epoch + 1;
      owner := Some(Owner(op, RECOVERY, epoch));
      lease := owner;
    }

    /** The callback has ended; only a normal return clears the latch. */
    method EndReconcile(normal: bool)
      requires Valid() && locked && owner.Some?
      modifies this
      ensures Valid()
      ensures View() == Unlock(old(View())).(blockedOp := if normal then None else old(View()).blockedOp)
    {
      if normal { blockedReason, blockedOperation := None, None; }
      owner := None;
      locked := false;
    }
  }

  // ---------------------------------------------------------------- coroutines

  datatype Want = Want(op: string, kind: GateKind, reconcile: bool)

  /** `taker` has the lock but has not resumed yet; `reconciling` says the owner is running its callback. */
  datatype Room = Room(g: Gate, waiting: map<nat, Want>, taker: Option<nat>, reconciling: bool)

  const QUIET := Room(FREE, map[], None, false)

  datatype Act =
    | StartAcquire(p: nat, op: string, kind: GateKind)
    | StartReconcile(p: nat, op: string)
    | TakeLock(p: nat)
    | Resume(p: nat)
    | Abandon(p: nat)              // timeout or cancellation while waiting
    | EndReconcile(normal: bool)
    | Block(o: Owner)
    | Release(o: Owner)
    | BeginGuard(c: nat, o: Owner)
    | EndGuard(c: nat)             // the guarded call has finished; does guard return or raise?

  function Resumed(r: Room, p: nat): Room
    requires p in r.waiting
  {
    var w := r.waiting[p];
    var granted := if w.reconcile then r.g.blockedOp == Some(w.op) else r.g.blockedOp.None?;
    Room(if granted then Install(r.g, w.op, if w.reconcile then RECOVERY else w.kind) else Unlock(r.g),
         r.waiting - {p}, None, granted && w.reconcile)
  }

  function Effect(r: Room, a: Act): Room {
    match a
    case StartAcquire(p, op, kind) =>
      if p !in r.waiting && MayWait(r.g, op) then r.(waiting := r.waiting[p := Want(op, kind, false)]) else r
    case StartReconcile(p, op) =>
      if p !in r.waiting && r.g.blockedOp == Some(op) then r.(waiting := r.waiting[p := Want(op, RECOVERY, true)])
      else r
    case TakeLock(p) =>
      if p in r.waiting && !r.g.locked then r.(g := r.g.(locked := true), taker := Some(p)) else r
    case Resume(p) => if r.taker == Some(p) && p in r.waiting then Resumed(r, p) else r
    case Abandon(p) =>
      if r.taker == Some(p) then r.(g := Unlock(r.g), taker := None, waiting := r.waiting - {p})
      else r.(waiting := r.waiting - {p})
    case EndReconcile(normal) =>
      if r.reconciling
      then r.(g := Unlock(r.g).(blockedOp := if normal then None else r.g.blockedOp), reconciling := false) else r
    case Block(o) => if Active(r.g, o) && !r.reconciling then r.(g := r.g.(blockedOp := Some(o.op))) else r
    case Release(o) => if Active(r.g, o) && !r.reconciling then r.(g := Unlock(r.g)) else r
    case BeginGuard(_, _) => r
    case EndGuard(_) => r
  }

  ghost predicate LockInv(r: Room) {
    && (r.g.owner.Some? ==> r.g.locked && r.taker.None? && r.g.owner.value.epoch == r.g.epoch)
    && (r.taker.Some? ==> r.g.locked && r.g.owner.None? && r.taker.value in r.waiting)
    && (r.reconciling ==> r.g.owner.Some? && r.g.owner.value.kind == RECOVERY && r.g.blockedOp.Some?)
    && (r.g.owner.Some? && r.g.blockedOp.Some? ==> r.g.owner.value.op == r.g.blockedOp.value)
  }

  /** The owner never changes hands directly, and a new owner always has a new epoch. */
  lemma EffectKeepsLock(r: Room, a: Act)
    requires LockInv(r)
    ensures LockInv(Effect(r, a)) && r.g.epoch <= Effect(r, a).g.epoch
    ensures var o := Effect(r, a).g.owner;
      o.Some? && o != r.g.owner ==> r.g.owner.None? && o.value.epoch == r.g.epoch + 1 == Effect(r, a).g.epoch
  {
  }

  /**
   * While an operation has the gate blocked, the only owner that can be installed is that operation's own
   * reconciliation, and only the normal return of that reconciliation clears the latch.
   */
  lemma BlockedStep(r: Room, a: Act, b: string)
    requires LockInv(r) && r.g.blockedOp == Some(b)
    ensures var t := Effect(r, a);
      && (t.g.owner.Some? && t.g.owner != r.g.owner ==>
          t.reconciling && t.g.owner.value.kind == RECOVERY && t.g.owner.value.op == b)
      && (t.g.blockedOp != Some(b) <==> a == EndReconcile(true) && r.reconciling)
  {
  }

  /** The gate after a sequence of acts of all coroutines. */
  function GateRun(r: Room, acts: seq<Act>): Room {
    if acts == [] then r else Effect(GateRun(r, acts[..|acts| - 1]), acts[|acts| - 1])
  }

  lemma {:induction false} GateRunKeepsLock(r: Room, acts: seq<Act>)
    requires LockInv(r)
    ensures LockInv(GateRun(r, acts)) && r.g.epoch <= GateRun(r, acts).g.epoch
  {
    if acts != [] {
      GateRunKeepsLock(r, acts[..|acts| - 1]);
      EffectKeepsLock(GateRun(r, acts[..|acts| - 1]), acts[|acts| - 1]);
    }
  }

  lemma FencedStep(r: Room, a: Act, o: Owner)
    requires LockInv(r) && o.epoch <= r.g.epoch && !Active(r.g, o)
    ensures !Active(Effect(r, a).g, o)
  {
    EffectKeepsLock(r, a);
  }

  /** An owner that was removed, or whose epoch has passed, is never active again. */
  lemma {:induction false} FencedForever(r: Room, acts: seq<Act>, o: Owner)
    requires LockInv(r) && o.epoch <= r.g.epoch && !Active(r.g, o)
    ensures !Active(GateRun(r, acts).g, o)
  {
    if acts != [] {
      FencedForever(r, acts[..|acts| - 1], o);
      GateRunKeepsLock(r, acts[..|acts| - 1]);
      FencedStep(GateRun(r, acts[..|acts| - 1]), acts[|acts| - 1], o);
    }
  }

  /**
   * Once an operation has blocked the gate it stays blocked by that operation, and nobody else owns it, until
   * a reconciliation returns normally.
   */
  lemma {:induction false} BlockedUntilReconciled(r: Room, acts: seq<Act>, b: string)
    requires LockInv(r) && r.g.blockedOp == Some(b)
    requires forall a | a in acts :: a != EndReconcile(true)
    ensures GateRun(r, acts).g.blockedOp == Some(b)
    ensures GateRun(r, acts).g.owner.Some? ==> GateRun(r, acts).g.owner.value.op == b
  {
    GateRunKeepsLock(r, acts);
    if acts != [] {
      var prefix := acts[..|acts| - 1];
      assert (forall a | a in prefix :: a in acts) && acts[|acts| - 1] in acts;
      BlockedUntilReconciled(r, prefix, b);
      GateRunKeepsLock(r, prefix);
      BlockedStep(GateRun(r, prefix), acts[|acts| - 1], b);
    }
  }

  // ---------------------------------------------------------------- history

  datatype Call = Call(owner: Owner, began: nat)
  datatype Span = Span(owner: Owner, began: nat, ended: nat)

  /** When each owner was installed and removed, the guarded calls under way, and those that returned normally. */
  datatype History = History(now: nat, from: map<Owner, nat>, until: map<Owner, nat>, calls: map<nat, Call>,
                             spans: set<Span>)

  const NO_HISTORY := History(0, map[], map[], map[], {})

  /** Note a change of owner. */
  function Track(h: History, before: Option<Owner>, after: Option<Owner>): History {
    if before == after then h
    else if after.Some? then h.(from := h.from[after.value := h.now])
    else h.(until := h.until[before.value := h.now])
  }

  /**
   * `guard` runs its call only under an active lease, and returns its result only if the lease is still active and
   * the gate healthy.
   */
  function Guard(h: History, r: Room, a: Act): History {
    match a
    case BeginGuard(c, o) => if Active(r.g, o) && c !in h.calls then h.(calls := h.calls[c := Call(o, h.now)]) else h
    case EndGuard(c) =>
      if c !in h.calls then h
      else if Active(r.g, h.calls[c].owner) && r.g.blockedOp.None?
      then h.(calls := h.calls - {c}, spans := h.spans + {Span(h.calls[c].owner, h.calls[c].began, h.now)})
      else h.(calls := h.calls - {c})
    case _ => h
  }

  datatype System = System(r: Room, h: History)

  function Do(s: System, a: Act): System {
    var r := Effect(s.r, a);
    var h := Track(Guard(s.h, s.r, a), s.r.g.owner, r.g.owner);
    System(r, h.(now := h.now + 1))
  }

  function Run(s: System, acts: seq<Act>): System {
    if acts == [] then s else Do(Run(s, acts[..|acts| - 1]), acts[|acts| - 1])
  }

  /**
   * Owners have tenures from[o]..until[o]; they follow each other in the order of their epochs, the current one being
   * last.
   */
  ghost predicate Tenures(from: map<Owner, nat>, until: map<Owner, nat>, now: nat, owner: Option<Owner>, epoch: nat) {
    && (forall o | o in from :: o.epoch <= epoch && from[o] < now && (o !in until ==> owner == Some(o)))
    && (forall o | o in until :: o in from && from[o] < until[o] < now)
    && (owner.Some? ==> owner.value in from && owner.value !in until)
    && (forall o, p | o in from && p in from :: Before(from, until, o, p) || Before(from, until, p, o) || o == p)
  }

  ghost predicate Before(from: map<Owner, nat>, until: map<Owner, nat>, o: Owner, p: Owner)
    requires o in from && p in from
  {
    o.epoch < p.epoch && o in until && until[o] < from[p]
  }

  /** Guarded calls lie inside the tenure of their owner. */
  ghost predicate CallsInside(h: History) {
    && (forall c | c in h.calls :: h.calls[c].owner in h.from && h.from[h.calls[c].owner] < h.calls[c].began < h.now)
    && (forall x | x in h.spans :: x.owner in h.from && h.from[x.owner] < x.began < x.ended < h.now
                                   && (x.owner in h.until ==> x.ended < h.until[x.owner]))
  }

  ghost predicate HistoryInv(h: History, owner: Option<Owner>, epoch: nat) {
    Tenures(h.from, h.until, h.now, owner, epoch) && CallsInside(h)
  }

  function Tick(h: History): History { h.(now := h.now + 1) }

  lemma NewTenure(from: map<Owner, nat>, until: map<Owner, nat>, now: nat, o: Owner, epoch: nat)
    requires Tenures(from, until, now, None, epoch) && o.epoch > epoch
    ensures Tenures(from[o := now], until, now + 1, Some(o), o.epoch) && o !in from && o !in until
  {
    var from' := from[o := now];
    forall p, q | p in from' && q in from' ensures Before(from', until, p, q) || Before(from', until, q, p) || p == q {
      if p != o && q != o { assert Before(from, until, p, q) || Before(from, until, q, p) || p == q; }
    }
  }

  lemma InstallTracked(h: History, o: Owner, epoch: nat)
    requires HistoryInv(h, None, epoch) && o.epoch > epoch
    ensures HistoryInv(Tick(Track(h, None, Some(o))), Some(o), o.epoch)
  {
    NewTenure(h.from, h.until, h.now, o, epoch);
  }

  lemma TenureEnds(from: map<Owner, nat>, until: map<Owner, nat>, now: nat, o: Owner, epoch: nat, epoch': nat)
    requires Tenures(from, until, now, Some(o), epoch) && epoch <= epoch'
    ensures Tenures(from, until[o := now], now + 1, None, epoch')
  {
    var until' := until[o := now];
    forall p, q | p in from && q in from ensures Before(from, until', p, q) || Before(from, until', q, p) || p == q {
      assert Before(from, until, p, q) || Before(from, until, q, p) || p == q;
    }
  }

  lemma RemoveTracked(h: History, o: Owner, epoch: nat, epoch': nat)
    requires HistoryInv(h, Some(o), epoch) && epoch <= epoch'
    ensures HistoryInv(Tick(Track(h, Some(o), None)), None, epoch')
  {
    TenureEnds(h.from, h.until, h.now, o, epoch, epoch');
  }

  lemma NothingTracked(h: History, owner: Option<Owner>, epoch: nat, epoch': nat)
    requires HistoryInv(h, owner, epoch) && epoch <= epoch'
    ensures HistoryInv(Tick(h), owner, epoch')
  {
  }

  lemma GuardTracked(h: History, r: Room, a: Act)
    requires HistoryInv(h, r.g.owner, r.g.epoch) && (a.BeginGuard? || a.EndGuard?)
    ensures HistoryInv(Tick(Guard(h, r, a)), r.g.owner, r.g.epoch)
  {
    NothingTracked(h, r.g.owner, r.g.epoch, r.g.epoch);
  }

  ghost predicate SystemInv(s: System) {
    LockInv(s.r) && HistoryInv(s.h, s.r.g.owner, s.r.g.epoch)
  }

  lemma DoKeepsInv(s: System, a: Act)
    requires SystemInv(s)
    ensures SystemInv(Do(s, a)) && s.r.g.epoch <= Do(s, a).r.g.epoch
  {
    EffectKeepsLock(s.r, a);
    var r := Effect(s.r, a);
    if a.BeginGuard? || a.EndGuard? {
      GuardTracked(s.h, s.r, a);
    } else if r.g.owner == s.r.g.owner {
      NothingTracked(s.h, s.r.g.owner, s.r.g.epoch, r.g.epoch);
    } else if r.g.owner.Some? {
      InstallTracked(s.h, r.g.owner.value, s.r.g.epoch);
    } else {
      RemoveTracked(s.h, s.r.g.owner.value, s.r.g.epoch, r.g.epoch);
    }
  }

  lemma {:induction false} RunKeepsInv(s: System, acts: seq<Act>)
    requires SystemInv(s)
    ensures SystemInv(Run(s, acts)) && s.r.g.epoch <= Run(s, acts).r.g.epoch
  {
    if acts != [] {
      RunKeepsInv(s, acts[..|acts| - 1]);
      DoKeepsInv(Run(s, acts[..|acts| - 1]), acts[|acts| - 1]);
    }
  }

  // ---------------------------------------------------------------- theorems

  /** In every interleaving, guarded calls of different leases that return normally never overlap in time. */
  lemma {:induction false} GuardedCallsExclude(acts: seq<Act>)
    ensures var spans := Run(System(QUIET, NO_HISTORY), acts).h.spans;
      forall x, y | x in spans && y in spans && x.owner != y.owner :: x.ended < y.began || y.ended < x.began
  {
    var start := System(QUIET, NO_HISTORY);
    RunKeepsInv(start, acts);
    var h := Run(start, acts).h;
    forall x, y | x in h.spans && y in h.spans && x.owner != y.owner ensures x.ended < y.began || y.ended < x.began {
      assert Before(h.from, h.until, x.owner, y.owner) || Before(h.from, h.until, y.owner, x.owner);
    }
  }
}
