/**
 * The router's request ledger as a value (rollout/load_balancer.py): admission, settlement, continuation
 * proofs, drain, publication and the bounded garbage collection of settled requests.
 */
module AttemptLedger {
  import opened Contracts

  datatype Proof = Proof(client: string, digest: string, op: string, ev: Evidence)
  datatype Published = Published(key: ReplicaKey, server: string, ev: Evidence)

  datatype Router = Router(
    pool: map<string, string>,
    inflight: map<string, int>,
    routes: map<ReplicaKey, string>,
    owner: map<string, string>,
    attempt: map<string, AttemptState>,
    order: seq<string>,
    draining: map<string, string>,
    awaiting: bool,
    ready: map<string, Published>,
    proofs: map<string, Proof>,
    handoffs: map<string, set<string>>,
    settledCount: int,
    retention: nat)

  function SettledSet(attempt: map<string, AttemptState>): set<string> {
    set r | r in attempt && attempt[r] == SETTLED
  }

  /** The requests a server still has to finish. */
  function AdmittedAt(m: Router, server: string): set<string> {
    set r | r in m.owner && m.owner[r] == server && r in m.attempt && m.attempt[r] == ADMITTED
  }

  function TerminatedAt(m: Router, server: string): set<string> {
    TerminatedOn(m.owner, m.attempt, server)
  }

  function TerminatedOn(owner: map<string, string>, attempt: map<string, AttemptState>, server: string): set<string> {
    set r | r in owner && owner[r] == server && r in attempt && attempt[r] == TERMINATED
  }

  predicate HasUnsettled(m: Router, server: string) {
    AdmittedAt(m, server) != {}
  }

  // ---------------------------------------------------------------- garbage collection

  /** The first `n` members of `s` in insertion order. */
  function FirstOf(order: seq<string>, s: set<string>, n: nat): seq<string> {
    if order == [] || n == 0 then []
    else if order[0] in s then [order[0]] + FirstOf(order[1..], s, n - 1)
    else FirstOf(order[1..], s, n)
  }

  function Without(order: seq<string>, s: set<string>): seq<string> {
    if order == [] then []
    else (if order[0] in s then [] else [order[0]]) + Without(order[1..], s)
  }

  function Evictable(m: Router): set<string> {
    SettledSet(m.attempt) - m.owner.Keys
  }

  function Max(a: int, b: int): int { if a > b then a else b }

  /** How many entries one evicting scan looks for. */
  function EvictionTarget(settledCount: int, retention: nat): int {
    Max(settledCount - retention, retention / 8)
  }

  function Evicted(m: Router): seq<string>
    requires m.settledCount > m.retention
  {
    FirstOf(m.order, Evictable(m), EvictionTarget(m.settledCount, m.retention))
  }

  function Evict(m: Router, gone: seq<string>): Router {
    var s := Elements(gone);
    m.(attempt := m.attempt - s, proofs := m.proofs - s, order := Without(m.order, s),
       settledCount := m.settledCount - |gone|)
  }

  function Collect(m: Router): Router {
    if m.settledCount > m.retention then Evict(m, Evicted(m)) else m
  }

  // ---------------------------------------------------------------- calls

  predicate Unsettled(m: Router, r: string) {
    r in m.attempt && m.attempt[r] != SETTLED
  }

  /** The native parent's decrement, which ignores servers that have left the pool. */
  function Decremented(inflight: map<string, int>, server: string): map<string, int> {
    if server in inflight then inflight[server := inflight[server] - 1] else inflight
  }

  /** `choice` is the server the native routing policy picks; it can only pick a member of the pool. */
  function Acquire(m: Router, r: string, choice: string): Result<Router> {
    if Unsettled(m, r) || choice !in m.pool then Err
    else Ok(m.(inflight := m.inflight[choice := (if choice in m.inflight then m.inflight[choice] else 0) + 1],
               owner := m.owner[r := choice],
               attempt := m.attempt[r := ADMITTED],
               order := if r in m.attempt then m.order else m.order + [r],
               proofs := if r in m.attempt then m.proofs - {r} else m.proofs,
               settledCount := if r in m.attempt then m.settledCount - 1 else m.settledCount))
  }

  function Settle(m: Router, server: string, r: string): Router {
    m.(inflight := Decremented(m.inflight, server), owner := m.owner - {r},
       attempt := m.attempt[r := SETTLED], settledCount := m.settledCount + 1)
  }

  function ReleaseAnonymous(m: Router, server: string): Router {
    m.(inflight := Decremented(m.inflight, server))
  }

  /** Does a release of `r` settle it?  A missing or empty id names no request. */
  predicate Settles(m: Router, r: string) {
    r != "" && Unsettled(m, r)
  }

  /** A duplicate release, even of a request that was garbage collected, changes nothing. */
  function Release(m: Router, server: string, r: string): Result<Router> {
    if r == "" then Ok(ReleaseAnonymous(m, server))
    else if r in m.owner && m.owner[r] != server then Err
    else if !Unsettled(m, r) then Ok(m)
    else Ok(Collect(Settle(m, server, r)))
  }

  function Confirm(m: Router, r: string, client: string, digest: string, stamp: nat): Result<(Router, Evidence)> {
    if r == "" || client == "" || digest == "" then Err
    else if r in m.proofs then
      (if m.proofs[r].client == client && m.proofs[r].digest == digest then Ok((m, m.proofs[r].ev)) else Err)
    else if !(r in m.attempt && m.attempt[r] == ADMITTED) || r !in m.owner || m.owner[r] !in m.draining then Err
    else
      var op := m.draining[m.owner[r]];
      var ev := Evidence(op, EXIT_READY, stamp, []);
      Ok((m.(proofs := m.proofs[r := Proof(client, digest, op, ev)],
             handoffs := m.handoffs[op := (if op in m.handoffs then m.handoffs[op] else {}) + {r}],
             attempt := m.attempt[r := TERMINATED]), ev))
  }

  predicate MayPublish(m: Router, key: ReplicaKey, server: string, handle: string, op: string) {
    && (key in m.routes ==> m.routes[key] == server)
    && (server in m.pool ==> m.pool[server] == handle)
    && (forall o | o in m.ready ::
        !(m.ready[o].key == key && o != op) && !(m.ready[o].server == server && m.ready[o].key != key))
  }

  function CommitReady(m: Router, key: ReplicaKey, server: string, handle: string, op: string,
                       stamp: nat): Result<(Router, Evidence)>
  {
    if server == "" || op == "" then Err
    else if op in m.ready then
      (if m.ready[op].key == key && m.ready[op].server == server && key in m.routes && m.routes[key] == server
       && server in m.pool
       then Ok((m, m.ready[op].ev)) else Err)
    else if !MayPublish(m, key, server, handle, op) then Err
    else
      var ev := Evidence(op, SERVICE_COMMITTED, stamp, []);
      Ok((m.(pool := m.pool[server := handle],
             inflight := if server in m.inflight then m.inflight else m.inflight[server := 0],
             awaiting := false, routes := m.routes[key := server], ready := m.ready[op := Published(key, server, ev)]),
               ev))
  }

  function BeginDrain(m: Router, key: ReplicaKey, op: string): Result<(Router, string)> {
    if op == "" || key !in m.routes then Err
    else
      var server := m.routes[key];
      if server in m.draining && m.draining[server] != op then Err
      else
        var pool := m.pool - {server};
        Ok((m.(draining := m.draining[server := op], pool := pool, inflight := m.inflight - {server},
               awaiting := m.awaiting || pool == map[]), server))
  }

  /** Settle every terminated request of a server that is being removed. */
  function SettleTerminated(m: Router, server: string): Router {
    var t := TerminatedAt(m, server);
    m.(attempt := m.attempt + (map r | r in t :: SETTLED), owner := m.owner - t, settledCount := m.settledCount + |t|)
  }

  /** Drop everything the router knows about a removed server except its settled requests. */
  function Forget(m: Router, key: ReplicaKey, server: string): Router {
    m.(pool := m.pool - {server}, inflight := m.inflight - {server}, draining := m.draining - {server},
       handoffs := HandoffsWithout(m.handoffs, m.draining, server),
       routes := m.routes - {key},
       ready := Unpublished(m.ready, key))
  }

  function HandoffsWithout(handoffs: map<string, set<string>>, draining: map<string, string>,
                           server: string): map<string, set<string>>
  {
    if server in draining then handoffs - {draining[server]} else handoffs
  }

  function Unpublished(ready: map<string, Published>, key: ReplicaKey): map<string, Published> {
    map o | o in ready && ready[o].key != key :: ready[o]
  }

  function FinishRemove(m: Router, key: ReplicaKey): Result<Router> {
    if key !in m.routes then Ok(m)
    else
      var server := m.routes[key];
      if HasUnsettled(m, server) then Err
      else
        Ok(Forget(Collect(SettleTerminated(m, server)), key, server))
  }

  // ---------------------------------------------------------------- runs

  datatype Event =
    | EAcquire(r: string, choice: string)
    | ERelease(server: string, r: string)
    | EConfirm(r: string, client: string, digest: string, stamp: nat)
    | ECommit(key: ReplicaKey, server: string, handle: string, op: string, stamp: nat)
    | EDrain(key: ReplicaKey, op: string)
    | EFinish(key: ReplicaKey)

  function Step(m: Router, e: Event): Router {
    match e
    case EAcquire(r, c) => (match Acquire(m, r, c) case Ok(m') => m' case Err => m)
    case ERelease(s, r) => (match Release(m, s, r) case Ok(m') => m' case Err => m)
    case EConfirm(r, c, d, t) => (match Confirm(m, r, c, d, t) case Ok(p) => p.0 case Err => m)
    case ECommit(k, s, h, o, t) => (match CommitReady(m, k, s, h, o, t) case Ok(p) => p.0 case Err => m)
    case EDrain(k, o) => (match BeginDrain(m, k, o) case Ok(p) => p.0 case Err => m)
    case EFinish(k) => (match FinishRemove(m, k) case Ok(m') => m' case Err => m)
  }

  function Run(m: Router, es: seq<Event>): Router {
    if es == [] then m else Step(Run(m, es[..|es| - 1]), es[|es| - 1])
  }

  function Start(pool: map<string, string>, routes: map<ReplicaKey, string>, retention: nat): Router {
    Router(pool, map s | s in pool :: 0, routes, map[], map[], [], map[], false, map[], map[], map[], 0, retention)
  }

  // ---------------------------------------------------------------- ledger agreement

  /** Who owns a request, what its state is, and what has been proved about it, all agree. */
  ghost predicate Agrees(owner: map<string, string>, attempt: map<string, AttemptState>, proofs: map<string, Proof>) {
    && (forall r :: r in owner <==> r in attempt && attempt[r] != SETTLED)
    && (forall r | r in attempt && attempt[r] == TERMINATED :: r in proofs)
    && (forall r | r in proofs :: r in attempt && attempt[r] != ADMITTED)
  }

  ghost predicate Ordered(order: seq<string>, attempt: map<string, AttemptState>) {
    && (forall r :: r in order <==> r in attempt)
    && Distinct(order)
  }

  ghost predicate Counted(m: Router) {
    m.settledCount == |SettledSet(m.attempt)|
  }

  ghost predicate Inv(m: Router) {
    Agrees(m.owner, m.attempt, m.proofs) && Ordered(m.order, m.attempt) && Counted(m)
  }

  ghost predicate Bounded(m: Router) {
    m.settledCount <= m.retention
  }

  lemma DistinctTail(order: seq<string>)
    requires order != [] && Distinct(order)
    ensures Distinct(order[1..]) && order[0] !in order[1..]
  {
    var rest := order[1..];
    assert forall i | 0 <= i < |rest| :: rest[i] == order[i + 1];
  }

  lemma FirstOfStep(order: seq<string>, k: nat, s: set<string>, n: nat)
    requires k < |order| && n > 0
    ensures FirstOf(order[k..], s, n) ==
              if order[k] in s then [order[k]] + FirstOf(order[k + 1..], s, n - 1) else FirstOf(order[k + 1..], s, n)
  {
    assert order[k..][1..] == order[k + 1..];
  }

  lemma {:induction false} FirstOfMembers(order: seq<string>, s: set<string>, n: nat)
    requires Distinct(order)
    ensures Distinct(FirstOf(order, s, n)) && forall r | r in FirstOf(order, s, n) :: r in s && r in order
  {
    if order != [] && n > 0 {
      DistinctTail(order);
      FirstOfMembers(order[1..], s, if order[0] in s then n - 1 else n);
      assert order == [order[0]] + order[1..];
    }
  }

  lemma {:induction false} FirstOfLength(order: seq<string>, s: set<string>, n: nat)
    requires Distinct(order) && |s| >= n && forall r | r in s :: r in order
    ensures |FirstOf(order, s, n)| == n
  {
    if order == [] {
      assert s == {};
    } else if n > 0 {
      DistinctTail(order);
      assert order == [order[0]] + order[1..];
      if order[0] in s {
        FirstOfLength(order[1..], s - {order[0]}, n - 1);
        FirstOfIgnores(order[1..], s, n - 1, order[0]);
      } else {
        FirstOfLength(order[1..], s, n);
      }
    }
  }

  lemma {:induction false} FirstOfIgnores(order: seq<string>, s: set<string>, n: nat, x: string)
    requires x !in order
    ensures FirstOf(order, s - {x}, n) == FirstOf(order, s, n)
  {
    if order != [] && n > 0 { FirstOfIgnores(order[1..], s, if order[0] in s then n - 1 else n, x); }
  }

  lemma {:induction false} DistinctSize(f: seq<string>)
    requires Distinct(f)
    ensures |Elements(f)| == |f|
  {
    if f != [] {
      DistinctTail(f);
      DistinctSize(f[1..]);
      assert f == [f[0]] + f[1..];
      assert Elements(f) == {f[0]} + Elements(f[1..]);
    }
  }

  lemma {:induction false} WithoutFacts(order: seq<string>, s: set<string>)
    requires Distinct(order)
    ensures Distinct(Without(order, s)) && forall r :: r in Without(order, s) <==> r in order && r !in s
  {
    if order != [] {
      DistinctTail(order);
      WithoutFacts(order[1..], s);
      assert order == [order[0]] + order[1..];
    }
  }

  /** An evicting scan removes only settled requests, exactly as many as it aimed for, oldest first. */
  lemma EvictedFacts(m: Router)
    requires Inv(m) && m.settledCount > m.retention
    ensures var gone := Evicted(m);
      && |gone| == EvictionTarget(m.settledCount, m.retention) && |gone| == |Elements(gone)|
      && Elements(gone) <= SettledSet(m.attempt)
  {
    var n := EvictionTarget(m.settledCount, m.retention);
    assert Evictable(m) == SettledSet(m.attempt);
    FirstOfMembers(m.order, Evictable(m), n);
    FirstOfLength(m.order, Evictable(m), n);
    DistinctSize(Evicted(m));
  }

  lemma CollectKeepsInv(m: Router)
    requires Inv(m)
    ensures Inv(Collect(m)) && Bounded(Collect(m))
    ensures forall r | r in m.attempt && m.attempt[r] != SETTLED ::
            r in Collect(m).attempt && Collect(m).attempt[r] == m.attempt[r]
  {
    if m.settledCount > m.retention {
      var gone := Elements(Evicted(m));
      EvictedFacts(m);
      WithoutFacts(m.order, gone);
      assert SettledSet(m.attempt - gone) == SettledSet(m.attempt) - gone;
    }
  }

  lemma AppendKeepsOrder(order: seq<string>, attempt: map<string, AttemptState>, r: string, a: AttemptState)
    requires Ordered(order, attempt)
    ensures Ordered(if r in attempt then order else order + [r], attempt[r := a])
  {
  }

  lemma AdmittedAgrees(owner: map<string, string>, attempt: map<string, AttemptState>, proofs: map<string, Proof>,
                       r: string, choice: string)
    requires Agrees(owner, attempt, proofs) && !(r in attempt && attempt[r] != SETTLED)
    ensures Agrees(owner[r := choice], attempt[r := ADMITTED], if r in attempt then proofs - {r} else proofs)
  {
  }

  lemma AdmittedCount(attempt: map<string, AttemptState>, r: string)
    requires !(r in attempt && attempt[r] != SETTLED)
    ensures |SettledSet(attempt[r := ADMITTED])| == |SettledSet(attempt)| - (if r in attempt then 1 else 0)
  {
    assert SettledSet(attempt[r := ADMITTED]) == SettledSet(attempt) - {r};
  }

  lemma AcquireKeepsInv(m: Router, r: string, choice: string)
    requires Inv(m) && Acquire(m, r, choice).Ok?
    ensures Inv(Acquire(m, r, choice).value) && (Bounded(m) ==> Bounded(Acquire(m, r, choice).value))
  {
    AppendKeepsOrder(m.order, m.attempt, r, ADMITTED);
    AdmittedAgrees(m.owner, m.attempt, m.proofs, r, choice);
    AdmittedCount(m.attempt, r);
  }

  lemma SettleKeepsInv(m: Router, server: string, r: string)
    requires Inv(m) && Unsettled(m, r)
    ensures Inv(Settle(m, server, r))
  {
    assert SettledSet(m.attempt[r := SETTLED]) == SettledSet(m.attempt) + {r};
  }

  lemma ConfirmedAgrees(owner: map<string, string>, attempt: map<string, AttemptState>, proofs: map<string, Proof>,
                        r: string, p: Proof)
    requires Agrees(owner, attempt, proofs) && r in attempt && attempt[r] == ADMITTED
    ensures Agrees(owner, attempt[r := TERMINATED], proofs[r := p])
    ensures SettledSet(attempt[r := TERMINATED]) == SettledSet(attempt)
  {
  }

  lemma ConfirmKeepsInv(m: Router, r: string, client: string, digest: string, stamp: nat)
    requires Inv(m) && Confirm(m, r, client, digest, stamp).Ok?
    ensures var m' := Confirm(m, r, client, digest, stamp).value.0; Inv(m') && (Bounded(m) ==> Bounded(m'))
  {
    if r !in m.proofs {
      var m' := Confirm(m, r, client, digest, stamp).value.0;
      ConfirmedAgrees(m.owner, m.attempt, m.proofs, r, m'.proofs[r]);
      AppendKeepsOrder(m.order, m.attempt, r, TERMINATED);
    }
  }

  lemma SettleTerminatedKeepsInv(m: Router, server: string)
    requires Inv(m)
    ensures Inv(SettleTerminated(m, server))
  {
    var m', t := SettleTerminated(m, server), TerminatedAt(m, server);
    assert Agrees(m'.owner, m'.attempt, m'.proofs);
    assert Ordered(m'.order, m'.attempt);
    SettledSizes(m.attempt, t);
  }

  lemma SettledSizes(attempt: map<string, AttemptState>, t: set<string>)
    requires forall r | r in t :: r in attempt && attempt[r] != SETTLED
    ensures |SettledSet(attempt + (map r | r in t :: SETTLED))| == |SettledSet(attempt)| + |t|
  {
    assert SettledSet(attempt + (map r | r in t :: SETTLED)) == SettledSet(attempt) + t;
  }

  /** Publication and drain touch no request. */
  lemma SameRequests(m: Router, m': Router)
    requires Inv(m) && Bounded(m) && m'.retention == m.retention
    requires m'.owner == m.owner && m'.attempt == m.attempt && m'.proofs == m.proofs && m'.order == m.order
    requires m'.settledCount == m.settledCount
    ensures Inv(m') && Bounded(m')
  {
  }

  lemma ReleaseKeepsInv(m: Router, s: string, r: string)
    requires Inv(m) && Bounded(m) && Release(m, s, r).Ok?
    ensures Inv(Release(m, s, r).value) && Bounded(Release(m, s, r).value)
  {
    hide Inv;
    hide Bounded;
    hide Collect;
    hide Settle;
    if r == "" {
      SameRequests(m, ReleaseAnonymous(m, s));
    } else if Unsettled(m, r) {
      SettleKeepsInv(m, s, r);
      CollectKeepsInv(Settle(m, s, r));
    }
  }

  lemma FinishKeepsInv(m: Router, k: ReplicaKey)
    requires Inv(m) && Bounded(m) && FinishRemove(m, k).Ok?
    ensures Inv(FinishRemove(m, k).value) && Bounded(FinishRemove(m, k).value)
  {
    if k in m.routes {
      SettleTerminatedKeepsInv(m, m.routes[k]);
      CollectKeepsInv(SettleTerminated(m, m.routes[k]));
    }
  }

  lemma CommitKeepsInv(m: Router, key: ReplicaKey, s: string, handle: string, op: string, stamp: nat)
    requires Inv(m) && Bounded(m) && CommitReady(m, key, s, handle, op, stamp).Ok?
    ensures var m' := CommitReady(m, key, s, handle, op, stamp).value.0; Inv(m') && Bounded(m')
  {
    hide Inv;
    SameRequests(m, CommitReady(m, key, s, handle, op, stamp).value.0);
  }

  lemma BeginDrainKeepsInv(m: Router, key: ReplicaKey, op: string)
    requires Inv(m) && Bounded(m) && BeginDrain(m, key, op).Ok?
    ensures var m' := BeginDrain(m, key, op).value.0; Inv(m') && Bounded(m')
  {
    hide Inv;
    SameRequests(m, BeginDrain(m, key, op).value.0);
  }

  lemma StepKeepsInv(m: Router, e: Event)
    requires Inv(m) && Bounded(m)
    ensures Inv(Step(m, e)) && Bounded(Step(m, e))
  {
    hide Inv;
    hide Bounded;
    hide Acquire;
    hide Release;
    hide Confirm;
    hide FinishRemove;
    hide CommitReady;
    hide BeginDrain;
    match e
    case EAcquire(r, c) => if Acquire(m, r, c).Ok? { AcquireKeepsInv(m, r, c); }
    case ERelease(s, r) => if Release(m, s, r).Ok? { ReleaseKeepsInv(m, s, r); }
    case EConfirm(r, c, d, t) => if Confirm(m, r, c, d, t).Ok? { ConfirmKeepsInv(m, r, c, d, t); }
    case EFinish(k) => if FinishRemove(m, k).Ok? { FinishKeepsInv(m, k); }
    case ECommit(k, s, h, o, t) => if CommitReady(m, k, s, h, o, t).Ok? { CommitKeepsInv(m, k, s, h, o, t); }
    case EDrain(k, o) => if BeginDrain(m, k, o).Ok? { BeginDrainKeepsInv(m, k, o); }
  }

  /** Ledger agreement and the retention bound hold after every call of every run. */
  lemma {:induction false} RunKeepsInv(m: Router, es: seq<Event>)
    requires Inv(m) && Bounded(m)
    ensures Inv(Run(m, es)) && Bounded(Run(m, es))
  {
    if es != [] {
      RunKeepsInv(m, es[..|es| - 1]);
      StepKeepsInv(Run(m, es[..|es| - 1]), es[|es| - 1]);
    }
  }

  /** The same, spelled out for a router started on any pool. */
  lemma {:induction false} LedgerAgreement(pool: map<string, string>, routes: map<ReplicaKey, string>, retention: nat,
                                           es: seq<Event>)
    ensures var m := Run(Start(pool, routes, retention), es);
      && (forall r :: r in m.owner <==> r in m.attempt && m.attempt[r] in {ADMITTED, TERMINATED})
      && (forall r | r in m.attempt && m.attempt[r] == TERMINATED :: r in m.proofs)
      && (forall r | r in m.proofs :: r in m.attempt && m.attempt[r] in {TERMINATED, SETTLED})
      && m.settledCount == |SettledSet(m.attempt)| <= m.retention
  {
    assert SettledSet(map[]) == {};
    RunKeepsInv(Start(pool, routes, retention), es);
  }

  // ---------------------------------------------------------------- amortised collection

  /** Requests settled by one call. */
  function Settlements(m: Router, e: Event): nat {
    match e
    case ERelease(s, r) => if Release(m, s, r).Ok? && Settles(m, r) then 1 else 0
    case EFinish(k) => if k in m.routes && FinishRemove(m, k).Ok? then |TerminatedAt(m, m.routes[k])| else 0
    case _ => 0
  }

  /** Does this call scan the ledger for entries to evict? */
  predicate Scans(m: Router, e: Event) {
    match e
    case ERelease(s, r) => Release(m, s, r).Ok? && Settles(m, r) && m.settledCount + 1 > m.retention
    case EFinish(k) => k in m.routes && FinishRemove(m, k).Ok?
                       && m.settledCount + |TerminatedAt(m, m.routes[k])| > m.retention
    case _ => false
  }

  function TotalSettlements(m: Router, es: seq<Event>): nat {
    if es == [] then 0
    else TotalSettlements(m, es[..|es| - 1]) + Settlements(Run(m, es[..|es| - 1]), es[|es| - 1])
  }

  function TotalScans(m: Router, es: seq<Event>): nat {
    if es == [] then 0
    else TotalScans(m, es[..|es| - 1]) + (if Scans(Run(m, es[..|es| - 1]), es[|es| - 1]) then 1 else 0)
  }

  function Batch(retention: nat): nat { if retention / 8 > 1 then retention / 8 else 1 }

  lemma CollectPays(m: Router)
    requires Inv(m)
    ensures Collect(m).retention == m.retention
    ensures Collect(m).settledCount + (if m.settledCount > m.retention then Batch(m.retention) else 0) <= m.settledCount
  {
    if m.settledCount > m.retention { EvictedFacts(m); }
  }

  lemma ReleasePays(m: Router, server: string, r: string)
    requires Inv(m) && Bounded(m)
    ensures var e := ERelease(server, r);
      && Step(m, e).retention == m.retention
      && Step(m, e).settledCount + (if Scans(m, e) then Batch(m.retention) else 0) <= m.settledCount + Settlements(m, e)
  {
    hide Inv;
    hide Collect;
    if Release(m, server, r).Ok? && Settles(m, r) {
      SettleKeepsInv(m, server, r);
      CollectPays(Settle(m, server, r));
    }
  }

  lemma FinishPays(m: Router, key: ReplicaKey)
    requires Inv(m) && Bounded(m)
    ensures var e := EFinish(key);
      && Step(m, e).retention == m.retention
      && Step(m, e).settledCount + (if Scans(m, e) then Batch(m.retention) else 0) <= m.settledCount + Settlements(m, e)
  {
    if key in m.routes && FinishRemove(m, key).Ok? {
      SettleTerminatedKeepsInv(m, m.routes[key]);
      CollectPays(SettleTerminated(m, m.routes[key]));
    }
  }

  /** The count pays for the scan: it grows by the settlements and an evicting scan takes a whole batch away. */
  lemma StepPays(m: Router, e: Event)
    requires Inv(m) && Bounded(m)
    ensures Step(m, e).retention == m.retention
    ensures Step(m, e).settledCount + (if Scans(m, e) then Batch(m.retention)
                                       else 0) <= m.settledCount + Settlements(m, e)
  {
    match e
    case ERelease(s, r) => ReleasePays(m, s, r);
    case EFinish(k) => FinishPays(m, k);
    case _ =>
  }

  function TotalPaid(m: Router, es: seq<Event>): nat {
    if es == [] then 0
    else TotalPaid(m, es[..|es| - 1]) + (if Scans(Run(m, es[..|es| - 1]), es[|es| - 1]) then Batch(m.retention) else 0)
  }

  lemma OneMore(n: nat, b: nat)
    ensures (n + 1) * b == n * b + b
  {
  }

  lemma {:induction false} PaidIsScans(m: Router, es: seq<Event>)
    ensures TotalPaid(m, es) == TotalScans(m, es) * Batch(m.retention)
  {
    if es != [] {
      var n, b := TotalScans(m, es[..|es| - 1]), Batch(m.retention);
      var scanned := Scans(Run(m, es[..|es| - 1]), es[|es| - 1]);
      PaidIsScans(m, es[..|es| - 1]);
      assert TotalPaid(m, es) == n * b + (if scanned then b else 0);
      assert TotalScans(m, es) == n + (if scanned then 1 else 0);
      if scanned { OneMore(n, b); }
    }
  }

  lemma {:induction false} PaidBySettlements(m: Router, es: seq<Event>)
    requires Inv(m) && Bounded(m) && m.settledCount == 0
    ensures TotalPaid(m, es) + Run(m, es).settledCount <= TotalSettlements(m, es)
    ensures Run(m, es).retention == m.retention
  {
    if es != [] {
      PaidBySettlements(m, es[..|es| - 1]);
      RunKeepsInv(m, es[..|es| - 1]);
      StepPays(Run(m, es[..|es| - 1]), es[|es| - 1]);
    }
  }

  /** Evicting scans times the batch size never exceed the requests settled so far. */
  lemma {:induction false} CollectionIsAmortised(pool: map<string, string>, routes: map<ReplicaKey, string>,
                                                 retention: nat, es: seq<Event>)
    ensures var m := Start(pool, routes, retention); TotalScans(m, es) * Batch(retention) <= TotalSettlements(m, es)
  {
    var m := Start(pool, routes, retention);
    assert SettledSet(map[]) == {};
    RunKeepsInv(m, es);
    PaidBySettlements(m, es);
    PaidIsScans(m, es);
  }

  // ---------------------------------------------------------------- drain

  predicate Publishes(e: Event, server: string) {
    e.ECommit? && e.server == server
  }

  ghost predicate NeverPublishes(es: seq<Event>, server: string) {
    forall e | e in es :: !Publishes(e, server)
  }

  predicate SameRest(c: Router, m: Router) {
    c.owner == m.owner && c.pool == m.pool && c.draining == m.draining && c.routes == m.routes
      && c.handoffs == m.handoffs
  }

  lemma EvictKeepsRest(m: Router, gone: seq<string>)
    ensures SameRest(Evict(m, gone), m)
  {
  }

  lemma CollectKeepsRest(m: Router)
    ensures SameRest(Collect(m), m)
  {
    if m.settledCount > m.retention { EvictKeepsRest(m, Evicted(m)); }
  }

  lemma CollectKeepsAdmitted(m: Router, server: string)
    requires Inv(m)
    ensures AdmittedAt(Collect(m), server) == AdmittedAt(m, server) && Collect(m).pool == m.pool
  {
    if m.settledCount > m.retention {
      EvictedFacts(m);
      EvictKeepsAdmitted(m, Evicted(m), server);
    }
  }

  lemma EvictKeepsAdmitted(m: Router, gone: seq<string>, server: string)
    requires Elements(gone) <= SettledSet(m.attempt)
    ensures AdmittedAt(Evict(m, gone), server) == AdmittedAt(m, server)
  {
    forall r ensures r in AdmittedAt(Evict(m, gone), server) <==> r in AdmittedAt(m, server) {
      if r in AdmittedAt(m, server) { assert r !in SettledSet(m.attempt); }
    }
  }

  lemma ReleaseDrains(m: Router, s: string, r: string, server: string)
    requires Inv(m) && Release(m, s, r).Ok?
    ensures var m' := Release(m, s, r).value;
      m'.pool == m.pool && AdmittedAt(m', server) == if Settles(m, r) then AdmittedAt(m, server) - {r}
      else AdmittedAt(m, server)
  {
    if r == "" {
      SameAdmitted(m, ReleaseAnonymous(m, s), server);
    } else if Unsettled(m, r) {
      SettleKeepsInv(m, s, r);
      assert AdmittedAt(Settle(m, s, r), server) == AdmittedAt(m, server) - {r};
      CollectKeepsAdmitted(Settle(m, s, r), server);
    }
  }

  lemma SettleTerminatedKeepsAdmitted(m: Router, removed: string, server: string)
    ensures AdmittedAt(SettleTerminated(m, removed), server) == AdmittedAt(m, server)
  {
  }

  lemma FinishDrains(m: Router, key: ReplicaKey, server: string)
    requires Inv(m) && FinishRemove(m, key).Ok?
    ensures var m' := FinishRemove(m, key).value;
      m'.pool.Keys <= m.pool.Keys && AdmittedAt(m', server) == AdmittedAt(m, server)
  {
    if key in m.routes {
      var removed := m.routes[key];
      var t := SettleTerminated(m, removed);
      SettleTerminatedKeepsInv(m, removed);
      SettleTerminatedKeepsAdmitted(m, removed, server);
      CollectKeepsAdmitted(t, server);
      assert t.pool == m.pool;
      hide SettleTerminated;
      hide Collect;
      hide AdmittedAt;
      SameAdmitted(Collect(t), Forget(Collect(t), key, removed), server);
    }
  }

  lemma ReleaseKeepsRest(m: Router, s: string, r: string)
    requires Release(m, s, r).Ok?
    ensures var m' := Release(m, s, r).value;
      && m'.pool == m.pool && m'.draining == m.draining && m'.routes == m.routes && m'.handoffs == m.handoffs
      && m'.owner == if Settles(m, r) then m.owner - {r} else m.owner
  {
    hide Collect;
    if r != "" {
      if Unsettled(m, r) { CollectKeepsRest(Settle(m, s, r)); }
    }
  }

  lemma AcquireDrains(m: Router, r: string, choice: string, server: string)
    requires server !in m.pool && Acquire(m, r, choice).Ok?
    ensures server !in Acquire(m, r, choice).value.pool
            && AdmittedAt(Acquire(m, r, choice).value, server) <= AdmittedAt(m, server)
  {
  }

  lemma ConfirmDrains(m: Router, r: string, client: string, digest: string, stamp: nat, server: string)
    requires server !in m.pool && Confirm(m, r, client, digest, stamp).Ok?
    ensures var m' := Confirm(m, r, client, digest, stamp).value.0;
      server !in m'.pool && AdmittedAt(m', server) == if r in m.proofs then AdmittedAt(m, server)
      else AdmittedAt(m, server) - {r}
  {
  }

  lemma SameAdmitted(m: Router, m': Router, server: string)
    requires m'.owner == m.owner && m'.attempt == m.attempt
    ensures AdmittedAt(m', server) == AdmittedAt(m, server)
  {
  }

  lemma CommitKeepsAdmitted(m: Router, key: ReplicaKey, s: string, handle: string, op: string, stamp: nat,
                            server: string)
    requires CommitReady(m, key, s, handle, op, stamp).Ok?
    ensures var m' := CommitReady(m, key, s, handle, op, stamp).value.0;
      AdmittedAt(m', server) == AdmittedAt(m, server) && m'.pool.Keys <= m.pool.Keys + {s}
  {
    SameAdmitted(m, CommitReady(m, key, s, handle, op, stamp).value.0, server);
  }

  lemma BeginDrainKeepsAdmitted(m: Router, key: ReplicaKey, op: string, server: string)
    requires BeginDrain(m, key, op).Ok?
    ensures var m' := BeginDrain(m, key, op).value.0;
      AdmittedAt(m', server) == AdmittedAt(m, server) && m'.pool.Keys <= m.pool.Keys
  {
    SameAdmitted(m, BeginDrain(m, key, op).value.0, server);
  }

  /** While a server is out of the pool no call gives it a request, and nothing but publication brings it back. */
  lemma StepDrains(m: Router, e: Event, server: string)
    requires Inv(m) && server !in m.pool && !Publishes(e, server)
    ensures server !in Step(m, e).pool && AdmittedAt(Step(m, e), server) <= AdmittedAt(m, server)
  {
    hide Release;
    hide FinishRemove;
    hide CommitReady;
    hide BeginDrain;
    match e
    case EAcquire(r, c) => if Acquire(m, r, c).Ok? { AcquireDrains(m, r, c, server); }
    case ERelease(s, r) => if Release(m, s, r).Ok? { ReleaseDrains(m, s, r, server); }
    case EConfirm(r, c, d, t) => if Confirm(m, r, c, d, t).Ok? { ConfirmDrains(m, r, c, d, t, server); }
    case EFinish(k) => if FinishRemove(m, k).Ok? { FinishDrains(m, k, server); }
    case ECommit(k, s, h, o, t) =>
      if CommitReady(m, k, s, h, o, t).Ok? { CommitKeepsAdmitted(m, k, s, h, o, t, server); }
    case EDrain(k, o) => if BeginDrain(m, k, o).Ok? { BeginDrainKeepsAdmitted(m, k, o, server); }
  }

  lemma {:induction false} RunDrains(m: Router, es: seq<Event>, server: string)
    requires Inv(m) && Bounded(m) && server !in m.pool && NeverPublishes(es, server)
    ensures server !in Run(m, es).pool && AdmittedAt(Run(m, es), server) <= AdmittedAt(m, server)
  {
    if es != [] {
      var prefix := es[..|es| - 1];
      assert forall e | e in prefix :: e in es;
      RunDrains(m, prefix, server);
      RunKeepsInv(m, prefix);
      StepDrains(Run(m, prefix), es[|es| - 1], server);
    }
  }

  /**
   * Drain is monotone and stable.  After `begin_drain`, and until the server is published again, the requests
   * it must still finish only shrink; so a "nothing unsettled" answer read at any point still holds at
   * `finish_remove`, which is then not refused.
   */
  lemma {:induction false} DrainIsStable(m: Router, key: ReplicaKey, op: string, before: seq<Event>, after: seq<Event>)
    requires Inv(m) && Bounded(m) && BeginDrain(m, key, op).Ok?
    requires var server := BeginDrain(m, key, op).value.1;
      NeverPublishes(before, server) && NeverPublishes(after, server)
    ensures var (d, server) := BeginDrain(m, key, op).value;
      var seen := Run(d, before);
      var late := Run(seen, after);
      && server !in late.pool
      && AdmittedAt(late, server) <= AdmittedAt(seen, server) <= AdmittedAt(m, server)
      && (!HasUnsettled(seen, server) ==> !HasUnsettled(late, server))
      && (!HasUnsettled(seen, server) && key in late.routes && late.routes[key] == server ==>
          FinishRemove(late, key).Ok?)
  {
    var (d, server) := BeginDrain(m, key, op).value;
    assert AdmittedAt(d, server) == AdmittedAt(m, server);
    RunDrains(d, before, server);
    RunKeepsInv(d, before);
    RunDrains(Run(d, before), after, server);
  }

  /**
   * Every release or confirmed hand-off of a drained request brings the drain strictly closer to its end, except
   * the release of the empty id: that request was admitted like any other, but its release names no request.
   */
  lemma DrainProgress(m: Router, e: Event, server: string, r: string)
    requires Inv(m) && server !in m.pool && r in AdmittedAt(m, server)
    requires e.ERelease? || e.EConfirm?
    requires e.r == r && (e.ERelease? ==> e.server == server)
    requires e.EConfirm? ==> Confirm(m, r, e.client, e.digest, e.stamp).Ok?
    ensures |AdmittedAt(Step(m, e), server)| < |AdmittedAt(m, server)| <==> r != ""
  {
    StepDrains(m, e, server);
    if e.ERelease? {
      ReleaseDrains(m, server, r, server);
    } else {
      ConfirmDrains(m, r, e.client, e.digest, e.stamp, server);
    }
    if r != "" {
      assert r !in AdmittedAt(Step(m, e), server);
      SmallerSet(AdmittedAt(Step(m, e), server), AdmittedAt(m, server), r);
    }
  }

  lemma EmptyIdStays(m: Router, e: Event, server: string)
    requires Inv(m) && "" in AdmittedAt(m, server)
    ensures "" in AdmittedAt(Step(m, e), server)
  {
    hide Release;
    hide FinishRemove;
    hide CommitReady;
    hide BeginDrain;
    match e
    case ERelease(s, r) => if Release(m, s, r).Ok? { ReleaseDrains(m, s, r, server); }
    case EFinish(k) => if FinishRemove(m, k).Ok? { FinishDrains(m, k, server); }
    case ECommit(k, s, h, o, t) =>
      if CommitReady(m, k, s, h, o, t).Ok? { CommitKeepsAdmitted(m, k, s, h, o, t, server); }
    case EDrain(k, o) => if BeginDrain(m, k, o).Ok? { BeginDrainKeepsAdmitted(m, k, o, server); }
    case _ =>
  }

  /** Once admitted, a request with the empty id is never settled again: its server can drain but never be removed. */
  lemma {:induction false} EmptyIdIsNeverSettled(m: Router, es: seq<Event>, key: ReplicaKey, server: string)
    requires Inv(m) && Bounded(m) && "" in AdmittedAt(m, server)
    ensures "" in AdmittedAt(Run(m, es), server)
    ensures key in Run(m, es).routes && Run(m, es).routes[key] == server ==> FinishRemove(Run(m, es), key).Err?
  {
    if es != [] {
      EmptyIdIsNeverSettled(m, es[..|es| - 1], key, server);
      RunKeepsInv(m, es[..|es| - 1]);
      EmptyIdStays(Run(m, es[..|es| - 1]), es[|es| - 1], server);
    }
  }

  lemma {:induction false} SmallerSet(a: set<string>, b: set<string>, x: string)
    requires a <= b && x in b && x !in a
    ensures |a| < |b|
  {
    SubsetSize(a, b - {x});
  }

  lemma {:induction false} SubsetSize(a: set<string>, b: set<string>)
    requires a <= b
    ensures |a| <= |b|
  {
    if a != {} {
      var x :| x in a;
      SubsetSize(a - {x}, b - {x});
    }
  }

  // ---------------------------------------------------------------- terminated requests

  /** A terminated request is still owned only by a server that is being drained. */
  ghost predicate TerminatedDrains(owner: map<string, string>, attempt: map<string, AttemptState>,
                                   draining: map<string, string>)
  {
    forall r | r in owner && r in attempt && attempt[r] == TERMINATED :: owner[r] in draining
  }

  lemma FinishKeepsTerminated(m: Router, key: ReplicaKey)
    requires Inv(m) && TerminatedDrains(m.owner, m.attempt, m.draining) && FinishRemove(m, key).Ok?
    ensures var f := FinishRemove(m, key).value; TerminatedDrains(f.owner, f.attempt, f.draining)
  {
    if key in m.routes {
      var server := m.routes[key];
      var t := SettleTerminated(m, server);
      SettleTerminatedKeepsInv(m, server);
      CollectKeepsRest(t);
      CollectKeepsInv(t);
      var f := FinishRemove(m, key).value;
      forall r | r in f.owner && r in f.attempt && f.attempt[r] == TERMINATED ensures f.owner[r] in f.draining {
        assert r in t.attempt && t.attempt[r] == TERMINATED;
        assert r !in TerminatedAt(m, server);
      }
    }
  }

  lemma ReleaseKeepsTerminated(m: Router, s: string, r: string)
    requires Inv(m) && TerminatedDrains(m.owner, m.attempt, m.draining) && Release(m, s, r).Ok?
    ensures var m' := Release(m, s, r).value; TerminatedDrains(m'.owner, m'.attempt, m'.draining)
  {
    if Settles(m, r) {
      SettleKeepsInv(m, s, r);
      CollectKeepsRest(Settle(m, s, r));
      CollectKeepsInv(Settle(m, s, r));
    }
  }

  lemma AcquireKeepsTerminated(m: Router, r: string, choice: string)
    requires TerminatedDrains(m.owner, m.attempt, m.draining) && Acquire(m, r, choice).Ok?
    ensures var m' := Acquire(m, r, choice).value; TerminatedDrains(m'.owner, m'.attempt, m'.draining)
  {
  }

  lemma ConfirmKeepsTerminated(m: Router, r: string, client: string, digest: string, stamp: nat)
    requires TerminatedDrains(m.owner, m.attempt, m.draining) && Confirm(m, r, client, digest, stamp).Ok?
    ensures var m' := Confirm(m, r, client, digest, stamp).value.0; TerminatedDrains(m'.owner, m'.attempt, m'.draining)
  {
  }

  lemma BeginDrainKeepsTerminated(m: Router, key: ReplicaKey, op: string)
    requires TerminatedDrains(m.owner, m.attempt, m.draining) && BeginDrain(m, key, op).Ok?
    ensures var m' := BeginDrain(m, key, op).value.0; TerminatedDrains(m'.owner, m'.attempt, m'.draining)
  {
  }

  lemma CommitKeepsTerminated(m: Router, key: ReplicaKey, s: string, handle: string, op: string, stamp: nat)
    requires TerminatedDrains(m.owner, m.attempt, m.draining) && CommitReady(m, key, s, handle, op, stamp).Ok?
    ensures var m' := CommitReady(m, key, s, handle, op, stamp).value.0;
      TerminatedDrains(m'.owner, m'.attempt, m'.draining)
  {
  }

  lemma StepKeepsTerminated(m: Router, e: Event)
    requires Inv(m) && Bounded(m) && TerminatedDrains(m.owner, m.attempt, m.draining)
    ensures var m' := Step(m, e); TerminatedDrains(m'.owner, m'.attempt, m'.draining)
  {
    hide Release;
    hide FinishRemove;
    hide Acquire;
    hide Confirm;
    hide BeginDrain;
    hide CommitReady;
    hide TerminatedDrains;
    match e
    case ERelease(s, r) => if Release(m, s, r).Ok? { ReleaseKeepsTerminated(m, s, r); }
    case EFinish(k) => if FinishRemove(m, k).Ok? { FinishKeepsTerminated(m, k); }
    case EAcquire(r, c) => if Acquire(m, r, c).Ok? { AcquireKeepsTerminated(m, r, c); }
    case EConfirm(r, c, d, t) => if Confirm(m, r, c, d, t).Ok? { ConfirmKeepsTerminated(m, r, c, d, t); }
    case EDrain(k, o) => if BeginDrain(m, k, o).Ok? { BeginDrainKeepsTerminated(m, k, o); }
    case ECommit(k, s, h, o, t) => if CommitReady(m, k, s, h, o, t).Ok? { CommitKeepsTerminated(m, k, s, h, o, t); }
  }

  lemma {:induction false} RunKeepsTerminated(m: Router, es: seq<Event>)
    requires Inv(m) && Bounded(m) && TerminatedDrains(m.owner, m.attempt, m.draining)
    ensures var m' := Run(m, es); TerminatedDrains(m'.owner, m'.attempt, m'.draining)
  {
    if es != [] {
      RunKeepsTerminated(m, es[..|es| - 1]);
      RunKeepsInv(m, es[..|es| - 1]);
      StepKeepsTerminated(Run(m, es[..|es| - 1]), es[|es| - 1]);
    }
  }
}
