/**
 * The owners of Publication against the owners' own ledgers: what AttemptLedger, Membership, ReplicaLedger and SyncGate
 * accept is what Publication lets R, E, M and G do, and the new state is the one Publication moves to.
 */
module OwnerRefinement {
  import opened Contracts
  import opened P = Publication
  import R = AttemptLedger
  import E = Membership
  import M = ReplicaLedger
  import G = SyncGate

  // ---------------------------------------------------------------- R

  /** `at` names the server of each replica key; no two keys share one. */
  ghost predicate Addresses(at: map<ReplicaKey, string>) {
    && (forall a, b | a in at && b in at && at[a] == at[b] :: a == b)
    && (forall k | k in at :: at[k] != "")
  }

  /** Routes, the serving pool and the drains; `servers` are the servers in R's pool. */
  ghost predicate RoutesShow(routes: map<ReplicaKey, string>, servers: set<string>, draining: map<string, string>,
                             at: map<ReplicaKey, string>,
                             route: set<ReplicaKey>, pool: set<ReplicaKey>, drain: map<ReplicaKey, string>)
  {
    && (forall k | k in routes :: k in at && routes[k] == at[k])
    && (forall k | k in at && at[k] in draining :: k in routes)
    && (forall k :: k in route <==> k in routes)
    && (forall k :: k in pool <==> k in routes && routes[k] in servers)
    && (forall k :: k in drain <==> k in routes && routes[k] in draining)
    && (forall k | k in drain :: drain[k] == draining[routes[k]])
  }

  ghost predicate PublicationsShow(ready: map<string, R.Published>, at: map<ReplicaKey, string>,
                                   pub: map<string, ReplicaKey>)
  {
    && (forall p :: p in pub <==> p in ready)
    && (forall p | p in ready :: ready[p].key == pub[p] && ready[p].key in at && ready[p].server == at[ready[p].key])
  }

  ghost predicate RequestsShow(m: R.Router, at: map<ReplicaKey, string>, adm: map<string, ReplicaKey>) {
    && (forall r | r in adm :: adm[r] in at && r in R.AdmittedAt(m, at[adm[r]]))
    && (forall k, r | k in at && r in R.AdmittedAt(m, at[k]) :: r in adm && adm[r] == k)
  }

  ghost predicate RouterShows(m: R.Router, at: map<ReplicaKey, string>, o: Owners) {
    && Addresses(at) && RoutesShow(m.routes, m.pool.Keys, m.draining, at, o.route, o.pool, o.drain)
    && PublicationsShow(m.ready, at, o.pub) && RequestsShow(m, at, o.adm)
  }

  lemma RequestsUntouched(m: R.Router, n: R.Router, at: map<ReplicaKey, string>, adm: map<string, ReplicaKey>)
    requires RequestsShow(m, at, adm) && forall s :: R.AdmittedAt(n, s) == R.AdmittedAt(m, s)
    ensures RequestsShow(n, at, adm)
  {
    hide R.AdmittedAt;
  }

  lemma SameRequests(m: R.Router, n: R.Router, at: map<ReplicaKey, string>, adm: map<string, ReplicaKey>)
    requires RequestsShow(m, at, adm) && n.owner == m.owner && n.attempt == m.attempt
    ensures RequestsShow(n, at, adm)
  {
    forall s ensures R.AdmittedAt(n, s) == R.AdmittedAt(m, s) { R.SameAdmitted(m, n, s); }
    RequestsUntouched(m, n, at, adm);
  }

  lemma RouteOpens(routes: map<ReplicaKey, string>, servers: set<string>, draining: map<string, string>,
                   at: map<ReplicaKey, string>,
                   route: set<ReplicaKey>, pool: set<ReplicaKey>, drain: map<ReplicaKey, string>, k: ReplicaKey)
    requires Addresses(at) && RoutesShow(routes, servers, draining, at, route, pool, drain) && k in at
    ensures RoutesShow(routes[k := at[k]], servers + {at[k]}, draining, at, route + {k}, pool + {k}, drain)
  {
    var wider := routes[k := at[k]];
    forall j ensures j in pool + {k} <==> j in wider && wider[j] in servers + {at[k]} {
      if j in routes && j != k { assert at[j] != at[k]; }
    }
    forall j ensures j in drain <==> j in wider && wider[j] in draining { }
  }

  lemma RouteDrains(routes: map<ReplicaKey, string>, servers: set<string>, draining: map<string, string>,
                    at: map<ReplicaKey, string>,
                    route: set<ReplicaKey>, pool: set<ReplicaKey>, drain: map<ReplicaKey, string>, k: ReplicaKey,
                      op: string)
    requires Addresses(at) && RoutesShow(routes, servers, draining, at, route, pool, drain) && k in routes
    ensures RoutesShow(routes, servers - {at[k]}, draining[at[k] := op], at, route, pool - {k}, drain[k := op])
  {
  }

  lemma RouteCloses(routes: map<ReplicaKey, string>, servers: set<string>, draining: map<string, string>,
                    at: map<ReplicaKey, string>,
                    route: set<ReplicaKey>, pool: set<ReplicaKey>, drain: map<ReplicaKey, string>, k: ReplicaKey)
    requires Addresses(at) && RoutesShow(routes, servers, draining, at, route, pool, drain) && k in routes
    ensures RoutesShow(routes - {k}, servers - {at[k]}, draining - {at[k]}, at, route - {k}, pool - {k}, drain - {k})
  {
  }

  /** commit_ready's two conditions are the same. */
  lemma MayPublishShows(m: R.Router, at: map<ReplicaKey, string>, o: Owners, k: ReplicaKey, handle: string, op: string,
                        stamp: nat)
    requires RouterShows(m, at, o) && k in at && op != "" && (at[k] in m.pool ==> m.pool[at[k]] == handle)
    ensures R.CommitReady(m, k, at[k], handle, op, stamp).Ok? <==> MayPublish(o, k, op)
  {
    hide RequestsShow;
    if op !in m.ready {
      if MayPublish(o, k, op) {
        forall p | p in m.ready
          ensures !(m.ready[p].key == k && p != op) && !(m.ready[p].server == at[k] && m.ready[p].key != k)
        {
          assert o.pub[p] != k;
        }
      } else {
        var x :| x in o.pub && o.pub[x] == k;
        assert x in m.ready && m.ready[x].key == k;
      }
    }
  }

  /** How commit_ready changes the router. */
  lemma CommittedRouter(m: R.Router, at: map<ReplicaKey, string>, k: ReplicaKey, handle: string, op: string, stamp: nat)
    requires k in at && R.CommitReady(m, k, at[k], handle, op, stamp).Ok?
    ensures var n := R.CommitReady(m, k, at[k], handle, op, stamp).value.0;
      && n.owner == m.owner && n.attempt == m.attempt && n.draining == m.draining
      && n.routes == m.routes[k := at[k]] && n.pool.Keys == m.pool.Keys + {at[k]}
      && n.ready.Keys == m.ready.Keys + {op} && n.ready[op].key == k && n.ready[op].server == at[k]
      && forall p | p in m.ready && p != op :: n.ready[p] == m.ready[p]
  {
    hide R.MayPublish;
  }

  lemma PublicationAdded(ready: map<string, R.Published>, n: map<string, R.Published>, at: map<ReplicaKey, string>,
                         pub: map<string, ReplicaKey>,
                         k: ReplicaKey, op: string)
    requires PublicationsShow(ready, at, pub) && k in at
    requires n.Keys == ready.Keys + {op} && n[op].key == k && n[op].server == at[k]
    requires forall p | p in ready && p != op :: n[p] == ready[p]
    ensures PublicationsShow(n, at, pub[op := k])
  {
  }

  /** commit_ready: accepted exactly when Publication publishes, with the same effect. */
  lemma CommitShows(m: R.Router, at: map<ReplicaKey, string>, o: Owners, k: ReplicaKey, handle: string, op: string,
                    stamp: nat)
    requires RouterShows(m, at, o) && k in at && op != "" && (at[k] in m.pool ==> m.pool[at[k]] == handle)
    ensures var c := R.CommitReady(m, k, at[k], handle, op, stamp);
      && (c.Ok? <==> MayPublish(o, k, op))
      && (c.Ok? ==> RouterShows(c.value.0, at, o.CommitReady(k, op)))
  {
    hide RequestsShow;
    hide RoutesShow;
    hide PublicationsShow;
    hide MayPublish;
    hide R.CommitReady;
    MayPublishShows(m, at, o, k, handle, op, stamp);
    var c := R.CommitReady(m, k, at[k], handle, op, stamp);
    if c.Ok? {
      var n := c.value.0;
      CommittedRouter(m, at, k, handle, op, stamp);
      SameRequests(m, n, at, o.adm);
      RouteOpens(m.routes, m.pool.Keys, m.draining, at, o.route, o.pool, o.drain, k);
      PublicationAdded(m.ready, n.ready, at, o.pub, k, op);
    }
  }

  lemma DrainedRouter(m: R.Router, k: ReplicaKey, op: string)
    requires R.BeginDrain(m, k, op).Ok?
    ensures var n, s := R.BeginDrain(m, k, op).value.0, m.routes[k];
      && n.owner == m.owner && n.attempt == m.attempt && n.ready == m.ready && n.routes == m.routes
      && n.draining == m.draining[s := op] && n.pool.Keys == m.pool.Keys - {s}
  {
  }

  lemma MayDrainShows(m: R.Router, at: map<ReplicaKey, string>, o: Owners, k: ReplicaKey, op: string)
    requires RoutesShow(m.routes, m.pool.Keys, m.draining, at, o.route, o.pool, o.drain) && op != ""
    ensures R.BeginDrain(m, k, op).Ok? <==> k in o.route && (k in o.drain ==> o.drain[k] == op)
    ensures k in o.route <==> k in m.routes
    ensures k in o.route ==> k in at && m.routes[k] == at[k]
  {
  }

  /** begin_drain. */
  lemma DrainShows(m: R.Router, at: map<ReplicaKey, string>, o: Owners, k: ReplicaKey, op: string)
    requires RouterShows(m, at, o) && op != ""
    ensures var d := R.BeginDrain(m, k, op);
      && (d.Ok? <==> k in o.route && (k in o.drain ==> o.drain[k] == op))
      && (d.Ok? ==> RouterShows(d.value.0, at, o.BeginDrain(k, op)))
  {
    hide RequestsShow;
    hide RoutesShow;
    hide PublicationsShow;
    hide R.BeginDrain;
    MayDrainShows(m, at, o, k, op);
    var d := R.BeginDrain(m, k, op);
    if d.Ok? {
      DrainedRouter(m, k, op);
      SameRequests(m, d.value.0, at, o.adm);
      RouteDrains(m.routes, m.pool.Keys, m.draining, at, o.route, o.pool, o.drain, k, op);
    }
  }

  /** has_unsettled_requests. */
  lemma UnsettledShows(m: R.Router, at: map<ReplicaKey, string>, o: Owners, k: ReplicaKey)
    requires RequestsShow(m, at, o.adm) && k in at
    ensures R.HasUnsettled(m, at[k]) <==> o.Admits(k)
  {
    hide R.AdmittedAt;
    if o.Admits(k) {
      var r :| r in o.adm && o.adm[r] == k;
      assert r in R.AdmittedAt(m, at[k]);
    }
    if R.HasUnsettled(m, at[k]) {
      var r :| r in R.AdmittedAt(m, at[k]);
      assert r in o.adm && o.adm[r] == k;
    }
  }

  lemma CollectKeepsReady(m: R.Router)
    ensures R.Collect(m).ready == m.ready
  {
  }

  lemma FinishedRouter(m: R.Router, k: ReplicaKey)
    requires k in m.routes && R.FinishRemove(m, k).Ok?
    ensures var n, s := R.FinishRemove(m, k).value, m.routes[k];
      && n.routes == m.routes - {k} && n.pool.Keys == m.pool.Keys - {s} && n.draining == m.draining - {s}
      && n.ready == R.Unpublished(m.ready, k)
  {
    var t := R.SettleTerminated(m, m.routes[k]);
    R.CollectKeepsRest(t);
    CollectKeepsReady(t);
    hide R.Collect;
    hide R.Unpublished;
  }

  lemma PublicationsDropped(ready: map<string, R.Published>, at: map<ReplicaKey, string>, o: Owners, k: ReplicaKey)
    requires PublicationsShow(ready, at, o.pub)
    ensures PublicationsShow(R.Unpublished(ready, k), at, o.FinishRemove(k).pub)
  {
  }

  lemma FinishKeepsRequests(m: R.Router, at: map<ReplicaKey, string>, adm: map<string, ReplicaKey>, k: ReplicaKey)
    requires RequestsShow(m, at, adm) && R.Inv(m) && R.FinishRemove(m, k).Ok?
    ensures RequestsShow(R.FinishRemove(m, k).value, at, adm)
  {
    hide R.Inv;
    hide R.FinishRemove;
    hide R.AdmittedAt;
    hide RequestsShow;
    forall s ensures R.AdmittedAt(R.FinishRemove(m, k).value, s) == R.AdmittedAt(m, s) { R.FinishDrains(m, k, s); }
    RequestsUntouched(m, R.FinishRemove(m, k).value, at, adm);
  }

  lemma MayFinishShows(m: R.Router, at: map<ReplicaKey, string>, o: Owners, k: ReplicaKey)
    requires RouterShows(m, at, o) && k in o.route
    ensures k in m.routes && k in at && m.routes[k] == at[k] && (R.FinishRemove(m, k).Ok? <==> !o.Admits(k))
  {
    UnsettledShows(m, at, o, k);
    hide RequestsShow;
    hide R.Collect;
  }

  /** finish_remove of a routed replica: accepted exactly when nothing is admitted. */
  lemma FinishShows(m: R.Router, at: map<ReplicaKey, string>, o: Owners, k: ReplicaKey)
    requires RouterShows(m, at, o) && R.Inv(m) && k in o.route
    ensures var f := R.FinishRemove(m, k);
      (f.Ok? <==> !o.Admits(k)) && (f.Ok? ==> RouterShows(f.value, at, o.FinishRemove(k)))
  {
    hide R.FinishRemove;
    hide R.Inv;
    hide RequestsShow;
    hide RoutesShow;
    hide PublicationsShow;
    MayFinishShows(m, at, o, k);
    var f := R.FinishRemove(m, k);
    if f.Ok? {
      FinishKeepsRequests(m, at, o.adm, k);
      FinishedRouter(m, k);
      RouteCloses(m.routes, m.pool.Keys, m.draining, at, o.route, o.pool, o.drain, k);
      PublicationsDropped(m.ready, at, o, k);
    }
  }

  lemma RequestAdmitted(m: R.Router, n: R.Router, at: map<ReplicaKey, string>, adm: map<string, ReplicaKey>, r: string,
                        k: ReplicaKey)
    requires Addresses(at) && RequestsShow(m, at, adm) && k in at && !R.Unsettled(m, r)
    requires n.owner == m.owner[r := at[k]] && n.attempt == m.attempt[r := ADMITTED]
    ensures r !in adm && RequestsShow(n, at, adm[r := k])
  {
    forall j, x | j in at && x in R.AdmittedAt(n, at[j]) ensures x in adm[r := k] && adm[r := k][x] == j {
      if x != r { assert x in R.AdmittedAt(m, at[j]); }
    }
  }

  /** acquire_server: an admission of Publication. */
  lemma AcquireShows(m: R.Router, at: map<ReplicaKey, string>, o: Owners, r: string, k: ReplicaKey)
    requires RouterShows(m, at, o) && k in o.route && R.Acquire(m, r, at[k]).Ok?
    ensures RouterShows(R.Acquire(m, r, at[k]).value, at, Acquire(o, r, k)) && k in o.pool && r !in o.adm
  {
    assert k in o.pool;
    RequestAdmitted(m, R.Acquire(m, r, at[k]).value, at, o.adm, r, k);
    hide RequestsShow;
    hide RoutesShow;
  }

  lemma RequestSettled(m: R.Router, n: R.Router, at: map<ReplicaKey, string>, adm: map<string, ReplicaKey>, r: string)
    requires RequestsShow(m, at, adm) && forall s :: R.AdmittedAt(n, s) == R.AdmittedAt(m, s) - {r}
    ensures RequestsShow(n, at, adm - {r})
  {
    hide R.AdmittedAt;
  }

  lemma ReleaseKeepsReady(m: R.Router, s: string, r: string)
    requires R.Release(m, s, r).Ok?
    ensures R.Release(m, s, r).value.ready == m.ready
  {
    if r != "" {
      if R.Unsettled(m, r) { CollectKeepsReady(R.Settle(m, s, r)); }
    }
    hide R.Collect;
  }

  /** release_server: a settlement of Publication, or nothing for the empty id. */
  lemma ReleaseShows(m: R.Router, at: map<ReplicaKey, string>, o: Owners, s: string, r: string)
    requires RouterShows(m, at, o) && R.Inv(m) && R.Release(m, s, r).Ok?
    ensures RouterShows(R.Release(m, s, r).value, at, if R.Settles(m, r) then o.(adm := o.adm - {r}) else o)
  {
    hide R.Release;
    hide R.Inv;
    hide R.AdmittedAt;
    var n := R.Release(m, s, r).value;
    R.ReleaseKeepsRest(m, s, r);
    ReleaseKeepsReady(m, s, r);
    forall t ensures R.AdmittedAt(n, t) == if R.Settles(m, r) then R.AdmittedAt(m, t) - {r} else R.AdmittedAt(m, t) {
      R.ReleaseDrains(m, s, r, t);
    }
    if R.Settles(m, r) { RequestSettled(m, n, at, o.adm, r); } else { RequestsUntouched(m, n, at, o.adm); }
    hide RequestsShow;
    hide RoutesShow;
  }

  lemma ConfirmedAdmitted(m: R.Router, r: string, client: string, digest: string, stamp: nat, s: string)
    requires R.Confirm(m, r, client, digest, stamp).Ok? && r !in m.proofs
    ensures R.AdmittedAt(R.Confirm(m, r, client, digest, stamp).value.0, s) == R.AdmittedAt(m, s) - {r}
  {
  }

  /** confirm_continuation: the request leaves its server as a settled one does. */
  lemma ConfirmShows(m: R.Router, at: map<ReplicaKey, string>, o: Owners, r: string, client: string, digest: string,
                     stamp: nat)
    requires RouterShows(m, at, o) && R.Confirm(m, r, client, digest, stamp).Ok?
    ensures RouterShows(R.Confirm(m, r, client, digest, stamp).value.0, at, if r in m.proofs then o
                        else o.(adm := o.adm - {r}))
  {
    var n := R.Confirm(m, r, client, digest, stamp).value.0;
    if r !in m.proofs {
      forall t
        ensures R.AdmittedAt(n, t) == R.AdmittedAt(m, t) - {r}
      {
        ConfirmedAdmitted(m, r, client, digest, stamp, t);
      }
      RequestSettled(m, n, at, o.adm, r);
      hide RequestsShow;
      hide RoutesShow;
    }
  }

  // ---------------------------------------------------------------- E

  ghost predicate MembersShow(e: E.View, o: Owners) {
    && (forall k :: k in o.eff <==> k in e.eff)
    && (forall k :: k in o.pend <==> k in e.pend)
    && (forall k | k in e.pend :: o.pend[k] == e.pend[k].op)
    && (forall k :: k in o.ready <==> k in e.ready)
    && (forall k | k in e.ready :: o.ready[k] == (e.ready[k].op, e.ready[k].version))
  }

  /** register_pending is accepted only where Publication registers; over runtimes that fit, always there. */
  lemma RegisterShows(e: E.View, s: Sys, rs: seq<nat>)
    requires MembersShow(e, s.o)
    ensures var p := E.RegisterPending(e, s.Key(), rs, s.Op());
      && (p.Ok? ==> MayRegister(s))
      && (p.Ok? ==> MembersShow(p.value, if s.Key() in s.o.eff then s.o else s.o.Park(s.Key(), s.Op())))
      && (MayRegister(s) && s.Op() != "" && rs != [] && E.Valid(e, s.Key(), rs) && Fits(e, s.Key(), rs) ==> p.Ok?)
  {
    hide E.Valid;
  }

  /** The runtimes are those already registered under the key, or new ones. */
  ghost predicate Fits(e: E.View, k: ReplicaKey, rs: seq<nat>) {
    if k in e.eff then e.eff[k].replicas == rs
    else if k in e.pend then e.pend[k].replicas == rs
    else E.Disjoint(rs, e.native)
  }

  /** bootstrap_target, when the transfer itself succeeds. */
  lemma BootstrapShows(e: E.View, o: Owners, k: ReplicaKey, op: string, version: nat, ev: Evidence)
    requires MembersShow(e, o) && op != "" && ev.op == op && ev.typ == WEIGHT_READY
    ensures var b := E.Bootstrap(e, k, op, version, ev);
      && (b.Ok? <==> if k in o.ready then o.ready[k] == (op, version) else k in o.pend && o.pend[k] == op)
      && (b.Ok? ==> MembersShow(b.value.0, if k in o.ready then o else o.Loaded(k, op, version)))
  {
  }

  /** commit_pending promotes only where Publication does. */
  lemma PromoteShows(e: E.View, o: Owners, k: ReplicaKey, ev: Evidence, version: nat)
    requires MembersShow(e, o) && E.CommitPending(e, k, ev, version).Ok?
    ensures k in o.ready && o.ready[k] == (ev.op, version) && (k in o.pend ==> o.pend[k] == ev.op)
            && (k in o.pend || k in o.eff)
    ensures MembersShow(E.CommitPending(e, k, ev, version).value, if k in o.pend then o.Promote(k) else o)
  {
    hide E.Valid;
    hide E.Missing;
  }

  lemma DiscardShows(e: E.View, o: Owners, k: ReplicaKey)
    requires MembersShow(e, o)
    ensures MembersShow(E.DiscardPending(e, k), o.Discard(k))
  {
  }

  lemma RemoveShows(e: E.View, o: Owners, k: ReplicaKey)
    requires MembersShow(e, o)
    ensures MembersShow(E.RemoveEffective(e, k), o.RemoveEffective(k))
  {
    hide E.Without;
    if k in e.eff {
      var d := e.(native := E.Without(e.native, e.eff[k].replicas), eff := e.eff - {k});
      assert MembersShow(d, o.(eff := o.eff - {k}));
      hide MembersShow;
      DiscardShows(d, o.(eff := o.eff - {k}), k);
    } else {
      assert o.eff - {k} == o.eff;
      DiscardShows(e, o, k);
    }
  }

  // ---------------------------------------------------------------- M

  ghost predicate Evidenced(m: M.View, op: string, k: ReplicaKey) {
    || (op in m.slept && m.slept[op].key == k)
    || (exists l :: l in m.creations && Destroyed(m.creations[l], op, k))
  }

  predicate Destroyed(c: M.Creation, op: string, k: ReplicaKey) {
    c.spec.key == k && c.destroyed.Some? && c.destroyed.value.op == op
  }

  ghost predicate RecordsShow(creations: map<string, M.Creation>, made: map<ReplicaKey, string>,
                              spoilt: set<ReplicaKey>)
  {
    && (forall l | l in creations ::
        creations[l].spec.key in made && made[creations[l].spec.key] == creations[l].spec.op)
    && (forall k | k in made :: exists l :: l in creations && creations[l].spec.key == k)
    && (forall l | l in creations :: creations[l].spec.key in spoilt <==> creations[l].progress == M.Failed)
    && (forall k | k in spoilt :: k in made)
  }

  ghost predicate ManagerShows(m: M.View, o: Owners) {
    && o.m == m.state && o.kind == m.kind && RecordsShow(m.creations, o.made, o.spoilt)
    && (forall op, k :: op in o.rel && o.rel[op] == k <==> Evidenced(m, op, k))
  }

  /** transition_replica. */
  lemma EnterShows(m: M.View, o: Owners, k: ReplicaKey, x: ReplicaState)
    requires ManagerShows(m, o) && M.Transition(m, k, x).Ok?
    ensures ManagerShows(M.Transition(m, k, x).value, o.Enter(k, x))
  {
    var n := M.Transition(m, k, x).value;
    assert o.m[k := x] == n.state;
    SameEvidence(m, n);
  }

  lemma SameEvidence(m: M.View, n: M.View)
    requires n.slept == m.slept && n.creations == m.creations
    ensures forall op, k :: Evidenced(n, op, k) <==> Evidenced(m, op, k)
  {
  }

  /** The one record of a key that has just been created ends in `c`. */
  lemma RecordMade(creations: map<string, M.Creation>, made: map<ReplicaKey, string>, spoilt: set<ReplicaKey>,
                   l: string, c: M.Creation)
    requires RecordsShow(creations, made, spoilt) && l !in creations && c.spec.key !in made
    ensures RecordsShow(creations[l := c], made[c.spec.key := c.spec.op],
                        if c.progress == M.Failed then spoilt + {c.spec.key} else spoilt)
  {
    var n, named := creations[l := c], made[c.spec.key := c.spec.op];
    forall k | k in named ensures exists j :: j in n && n[j].spec.key == k {
      if k == c.spec.key {
        assert n[l].spec.key == k;
      } else {
        var j :| j in creations && creations[j].spec.key == k;
        assert n[j].spec.key == k;
      }
    }
  }

  lemma FreshEvidence(m: M.View, n: M.View, l: string)
    requires n.slept == m.slept && l !in m.creations && l in n.creations
             && n.creations == m.creations[l := n.creations[l]]
    requires n.creations[l].destroyed.None?
    ensures forall op, k :: Evidenced(n, op, k) <==> Evidenced(m, op, k)
  {
    forall op, k | Evidenced(m, op, k) ensures Evidenced(n, op, k) {
      if !(op in m.slept && m.slept[op].key == k) {
        var j :| j in m.creations && Destroyed(m.creations[j], op, k);
        assert j in n.creations && Destroyed(n.creations[j], op, k);
      }
    }
    forall op, k | Evidenced(n, op, k) ensures Evidenced(m, op, k) {
      if !(op in m.slept && m.slept[op].key == k) {
        var j :| j in n.creations && Destroyed(n.creations[j], op, k);
        assert j in m.creations && Destroyed(m.creations[j], op, k);
      }
    }
  }

  /** How one creation ends. */
  datatype Outcome = Succeeds(runtime: nat) | FailsEarly(cleaned: bool) | FailsLate(cleaned: bool)

  function CreationEvents(s: M.Spec, e: Outcome): seq<M.Event> {
    match e
    case Succeeds(r) => [M.ECreate(s), M.EBuilt(s.lease), M.ECreated(s.lease, r)]
    case FailsEarly(c) => [M.ECreate(s), M.ECreateFailed(s.lease, c)]
    case FailsLate(c) => [M.ECreate(s), M.EBuilt(s.lease), M.ECreateFailed(s.lease, c)]
  }

  function EndState(e: Outcome): ReplicaState {
    match e
    case Succeeds(_) => CREATING
    case FailsEarly(_) => RELEASED
    case FailsLate(c) => if c then RELEASED else QUARANTINED
  }

  lemma RunOne(m: M.View, es: seq<M.Event>, e: M.Event)
    ensures M.Run(m, es + [e]) == M.Step(M.Run(m, es), e)
  {
    assert (es + [e])[..|es|] == es;
  }

  lemma BuiltThen(m: M.View, s: M.Spec, e: M.Event)
    ensures M.Run(m, [M.ECreate(s), e]) == M.Step(M.Step(m, M.ECreate(s)), e)
    ensures forall f :: M.Run(m, [M.ECreate(s), e, f]) == M.Step(M.Step(M.Step(m, M.ECreate(s)), e), f)
  {
    hide M.Step;
    RunOne(m, [], M.ECreate(s));
    assert [] + [M.ECreate(s)] == [M.ECreate(s)];
    RunOne(m, [M.ECreate(s)], e);
    assert [M.ECreate(s)] + [e] == [M.ECreate(s), e];
    forall f ensures M.Run(m, [M.ECreate(s), e, f]) == M.Step(M.Step(M.Step(m, M.ECreate(s)), e), f) {
      RunOne(m, [M.ECreate(s), e], f);
      assert [M.ECreate(s), e] + [f] == [M.ECreate(s), e, f];
    }
  }

  /** The state and the record of a creation under way or at its end. */
  ghost predicate CreationAt(m: M.View, n: M.View, s: M.Spec, x: ReplicaState, progress: M.Progress) {
    && n.state == m.state[s.key := x] && n.kind == m.kind[s.key := BORROWED] && n.slept == m.slept
    && s.lease in n.creations && n.creations[s.lease].spec == s && n.creations[s.lease].destroyed.None?
    && n.creations == m.creations[s.lease := n.creations[s.lease]] && n.creations[s.lease].progress == progress
  }

  lemma CreationBegins(m: M.View, s: M.Spec)
    requires M.CreateBegins(m, s).Ok?
    ensures CreationAt(m, M.Step(m, M.ECreate(s)), s, CREATING, M.Started)
  {
  }

  lemma CreationBuilt(m: M.View, a: M.View, s: M.Spec)
    requires CreationAt(m, a, s, CREATING, M.Started)
    ensures CreationAt(m, M.Step(a, M.EBuilt(s.lease)), s, CREATING, M.Built)
  {
  }

  lemma CreationReady(m: M.View, a: M.View, s: M.Spec, runtime: nat)
    requires CreationAt(m, a, s, CREATING, M.Built)
    ensures CreationAt(m, M.Step(a, M.ECreated(s.lease, runtime)), s, CREATING, M.Ready)
  {
  }

  lemma CreationFails(m: M.View, a: M.View, s: M.Spec, progress: M.Progress, cleaned: bool)
    requires CreationAt(m, a, s, CREATING, progress) && progress in {M.Started, M.Built}
    ensures CreationAt(m, M.Step(a, M.ECreateFailed(s.lease, cleaned)), s,
                       if cleaned || progress == M.Started then RELEASED else QUARANTINED, M.Failed)
  {
    var to := if cleaned || progress == M.Started then RELEASED else QUARANTINED;
    assert M.Landed(a, s.key, to) == M.Transition(a, s.key, to).value;
  }

  /** What the calls of one creation leave behind. */
  lemma CreationEnds(m: M.View, s: M.Spec, e: Outcome)
    requires M.CreateBegins(m, s).Ok?
    ensures CreationAt(m, M.Run(m, CreationEvents(s, e)), s, EndState(e), if e.Succeeds? then M.Ready else M.Failed)
  {
    hide M.Run;
    hide M.Step;
    hide CreationAt;
    var a := M.Step(m, M.ECreate(s));
    CreationBegins(m, s);
    if e.FailsEarly? {
      BuiltThen(m, s, M.ECreateFailed(s.lease, e.cleaned));
      CreationFails(m, a, s, M.Started, e.cleaned);
    } else {
      BuiltThen(m, s, M.EBuilt(s.lease));
      CreationBuilt(m, a, s);
      var b := M.Step(a, M.EBuilt(s.lease));
      if e.Succeeds? { CreationReady(m, b, s, e.runtime); } else { CreationFails(m, b, s, M.Built, e.cleaned); }
    }
  }

  /** create_borrowed_replica from its fence to its end is Publication's one step. */
  lemma CreateShows(m: M.View, o: Owners, s: M.Spec, e: Outcome)
    requires ManagerShows(m, o) && M.CreateBegins(m, s).Ok? && s.key !in o.made
    ensures ManagerShows(M.Run(m, CreationEvents(s, e)), o.Create(s.key, s.op, EndState(e)))
  {
    hide M.Run;
    hide M.CreateBegins;
    hide RecordsShow;
    hide Evidenced;
    var n := M.Run(m, CreationEvents(s, e));
    CreationEnds(m, s, e);
    CreateFresh(m, s);
    RecordMade(m.creations, o.made, o.spoilt, s.lease, n.creations[s.lease]);
    FreshEvidence(m, n, s.lease);
  }

  lemma CreateFresh(m: M.View, s: M.Spec)
    requires M.CreateBegins(m, s).Ok?
    ensures s.lease !in m.creations && s.key !in m.state
  {
  }

  /** The evidence of `op` for `k` is added to what is known; Publication remembers it under the operation. */
  lemma EvidenceAdded(m: M.View, n: M.View, rel: map<string, ReplicaKey>, op: string, k: ReplicaKey)
    requires forall p, j :: p in rel && rel[p] == j <==> Evidenced(m, p, j)
    requires op in rel ==> rel[op] == k
    requires forall p, j :: Evidenced(n, p, j) <==> Evidenced(m, p, j) || (p == op && j == k)
    ensures forall p, j :: p in rel[op := k] && rel[op := k][p] == j <==> Evidenced(n, p, j)
  {
    hide Evidenced;
  }

  lemma SleepEvidence(m: M.View, k: ReplicaKey, op: string, gpu: string, stamp: nat)
    requires M.SleepSucceeds(m, k, op, gpu, stamp).Ok?
    ensures var n := M.SleepSucceeds(m, k, op, gpu, stamp).value.0;
      && n == m.(slept := n.slept) && forall p, j :: Evidenced(n, p, j) <==> Evidenced(m, p, j) || (p == op && j == k)
  {
  }

  lemma DestroyEvidence(m: M.View, k: ReplicaKey, op: string, l: string, stamp: nat)
    requires M.DestroySucceeds(m, k, op, l, stamp).Ok?
    ensures var n := M.DestroySucceeds(m, k, op, l, stamp).value.0;
      && n == m.(creations := n.creations) && l in m.creations && n.creations == m.creations[l := n.creations[l]]
      && n.creations[l].spec == m.creations[l].spec && n.creations[l].progress == m.creations[l].progress
      && forall p, j :: Evidenced(n, p, j) <==> Evidenced(m, p, j) || (p == op && j == k)
  {
    assert l in M.RecordsOf(m, k);
    var n := M.DestroySucceeds(m, k, op, l, stamp).value.0;
    assert Destroyed(n.creations[l], op, k);
    forall p, j | Evidenced(m, p, j) ensures Evidenced(n, p, j) {
      if !(p in m.slept && m.slept[p].key == j) {
        var i :| i in m.creations && Destroyed(m.creations[i], p, j);
        assert i in n.creations && Destroyed(n.creations[i], p, j);
      }
    }
    forall p, j | Evidenced(n, p, j) && !(p == op && j == k) ensures Evidenced(m, p, j) {
      if !(p in m.slept && m.slept[p].key == j) {
        var i :| i in n.creations && Destroyed(n.creations[i], p, j);
        assert i in m.creations && Destroyed(m.creations[i], p, j);
      }
    }
  }

  /** finalize_release of a native: its sleep evidence and then DORMANT. */
  lemma SleepShows(m: M.View, o: Owners, k: ReplicaKey, op: string, gpu: string, stamp: nat)
    requires ManagerShows(m, o) && M.SleepSucceeds(m, k, op, gpu, stamp).Ok? && (op in o.rel ==> o.rel[op] == k)
    requires M.Transition(M.SleepSucceeds(m, k, op, gpu, stamp).value.0, k, DORMANT).Ok?
    ensures ManagerShows(M.Transition(M.SleepSucceeds(m, k, op, gpu, stamp).value.0, k, DORMANT).value,
                         o.Release(k, op))
  {
    hide Evidenced;
    hide RecordsShow;
    var a := M.SleepSucceeds(m, k, op, gpu, stamp).value.0;
    SleepEvidence(m, k, op, gpu, stamp);
    EvidenceAdded(m, a, o.rel, op, k);
    assert o.Is(k, NATIVE);
    hide M.SleepSucceeds;
    EnterShows(a, o.(rel := o.rel[op := k]), k, DORMANT);
  }

  lemma RecordChanged(creations: map<string, M.Creation>, n: map<string, M.Creation>, made: map<ReplicaKey, string>,
                      spoilt: set<ReplicaKey>,
                      l: string)
    requires RecordsShow(creations, made, spoilt) && l in creations && l in n && n == creations[l := n[l]]
    requires n[l].spec == creations[l].spec && n[l].progress == creations[l].progress
    ensures RecordsShow(n, made, spoilt)
  {
    forall k | k in made ensures exists j :: j in n && n[j].spec.key == k {
      var j :| j in creations && creations[j].spec.key == k;
      assert n[j].spec.key == k;
    }
  }

  /** finalize_release of a borrowed replica: its destruction evidence and then RELEASED. */
  lemma DestroyShows(m: M.View, o: Owners, k: ReplicaKey, op: string, l: string, stamp: nat)
    requires ManagerShows(m, o) && M.DestroySucceeds(m, k, op, l, stamp).Ok? && (op in o.rel ==> o.rel[op] == k)
    requires M.Transition(M.DestroySucceeds(m, k, op, l, stamp).value.0, k, RELEASED).Ok?
    ensures ManagerShows(M.Transition(M.DestroySucceeds(m, k, op, l, stamp).value.0, k, RELEASED).value,
                         o.Release(k, op))
  {
    hide Evidenced;
    hide RecordsShow;
    var a := M.DestroySucceeds(m, k, op, l, stamp).value.0;
    DestroyEvidence(m, k, op, l, stamp);
    EvidenceAdded(m, a, o.rel, op, k);
    RecordChanged(m.creations, a.creations, o.made, o.spoilt, l);
    assert o.Is(k, BORROWED);
    hide M.DestroySucceeds;
    EnterShows(a, o.(rel := o.rel[op := k]), k, RELEASED);
  }

  // ---------------------------------------------------------------- G

  /** Publication's lock and latch; `syncs` are the ids native synchronisation uses. */
  predicate GateShows(g: G.Gate, syncs: set<string>, lock: Holder, latch: Fence) {
    && (lock == Free <==> !g.locked)
    && (g.locked ==> g.owner.Some? && (lock == Sync <==> g.owner.value.kind == G.NATIVE_SYNC))
    && (g.owner.Some? ==> g.locked)
    && match g.blockedOp {
         case None => latch == NoFence
         case Some(op) => latch == if op in syncs then BySync else ByOperation(op)
       }
  }

  /** A coroutine nobody else overtakes: it announces itself, takes the lock and resumes. */
  function Enter(r: G.Room, start: G.Act, p: nat): G.Room {
    G.GateRun(r, [start, G.TakeLock(p), G.Resume(p)])
  }

  lemma EnterSteps(r: G.Room, start: G.Act, p: nat)
    ensures Enter(r, start, p) == G.Effect(G.Effect(G.Effect(r, start), G.TakeLock(p)), G.Resume(p))
  {
    hide G.Effect;
    var acts := [start, G.TakeLock(p), G.Resume(p)];
    assert acts[..2] == [start, G.TakeLock(p)] && [start, G.TakeLock(p)][..1] == [start] && [start][..0] == [];
    assert G.GateRun(r, [start]) == G.Effect(G.GateRun(r, []), start);
    assert G.GateRun(r, [start, G.TakeLock(p)]) == G.Effect(G.GateRun(r, [start]), G.TakeLock(p));
  }

  /** acquire of a free and healthy gate gives its caller the lock. */
  lemma AcquireGateShows(r: G.Room, syncs: set<string>, p: nat, op: string, kind: G.GateKind)
    requires GateShows(r.g, syncs, Free, NoFence) && p !in r.waiting && op != "" && !r.reconciling
    ensures var n := Enter(r, G.StartAcquire(p, op, kind), p);
      && GateShows(n.g, syncs, if kind == G.NATIVE_SYNC then Sync else Worker, NoFence)
      && n.g.owner.Some? && n.g.owner.value.op == op && n.waiting == r.waiting
  {
    EnterSteps(r, G.StartAcquire(p, op, kind), p);
    assert r.waiting[p := G.Want(op, kind, false)] - {p} == r.waiting;
  }

  /** reconcile of a gate that the caller's own operation blocked does; any other caller gets nothing. */
  lemma ReconcileGateShows(r: G.Room, syncs: set<string>, p: nat, op: string, latch: Fence)
    requires GateShows(r.g, syncs, Free, latch) && p !in r.waiting && op !in syncs
    ensures var n := Enter(r, G.StartReconcile(p, op), p);
      && n.waiting == r.waiting
      && if latch == ByOperation(op) then GateShows(n.g, syncs, Worker, latch) && n.reconciling else n.g == r.g
  {
    EnterSteps(r, G.StartReconcile(p, op), p);
    if latch == ByOperation(op) {
      assert r.g.blockedOp == Some(op);
      assert r.waiting[p := G.Want(op, G.RECOVERY, true)] - {p} == r.waiting;
      var a := G.Effect(r, G.StartReconcile(p, op));
      assert a == r.(waiting := r.waiting[p := G.Want(op, G.RECOVERY, true)]);
      var b := G.Effect(a, G.TakeLock(p));
      assert b == a.(g := a.g.(locked := true), taker := Some(p));
      var n := G.Effect(b, G.Resume(p));
      assert n.g == G.Install(b.g, op, G.RECOVERY) && n.waiting == r.waiting && n.reconciling;
    } else {
      assert r.g.blockedOp != Some(op);
      assert G.Effect(r, G.StartReconcile(p, op)) == r && G.Effect(r, G.TakeLock(p)) == r;
    }
  }

  /** The owner blocks the gate and releases it: what Publication's failing caller does. */
  lemma BlockGateShows(r: G.Room, syncs: set<string>, o: G.Owner, lock: Holder, latch: Fence)
    requires GateShows(r.g, syncs, lock, latch) && G.Active(r.g, o) && !r.reconciling
    ensures GateShows(G.Effect(G.Effect(r, G.Block(o)), G.Release(o)).g, syncs, Free, if o.op in syncs then BySync
                      else ByOperation(o.op))
  {
  }

  lemma ReleaseGateShows(r: G.Room, syncs: set<string>, o: G.Owner, lock: Holder, latch: Fence)
    requires GateShows(r.g, syncs, lock, latch) && G.Active(r.g, o) && !r.reconciling
    ensures GateShows(G.Effect(r, G.Release(o)).g, syncs, Free, latch)
  {
  }

  /** The end of a reconciliation: a normal return clears the latch. */
  lemma EndReconcileShows(r: G.Room, syncs: set<string>, normal: bool, lock: Holder, latch: Fence)
    requires GateShows(r.g, syncs, lock, latch) && r.reconciling
    ensures GateShows(G.Effect(r, G.EndReconcile(normal)).g, syncs, Free, if normal then NoFence else latch)
  {
  }
}
