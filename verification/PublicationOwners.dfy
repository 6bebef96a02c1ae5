/** What the owners of one task agree on, and the condition under which each owner action keeps it. */
module PublicationOwners {
  import opened Contracts
  import opened Publication

  /** M and the physical runtimes. */
  ghost predicate Lifecycle(m: map<ReplicaKey, ReplicaState>, kind: map<ReplicaKey, ReplicaKind>,
                            made: map<ReplicaKey, string>,
                            up: set<ReplicaKey>) {
    && m.Keys == kind.Keys
    && (forall k | k in made :: k in kind && kind[k] == BORROWED)
    && (forall k | k in m && m[k] in {CREATING, ACTIVE, DRAINING} :: k in up)
  }

  /** E against M and its own pending map. */
  ghost predicate Members(m: map<ReplicaKey, ReplicaState>, eff: set<ReplicaKey>, pend: map<ReplicaKey, string>) {
    && (forall k | k in eff :: k in m)
    && (forall k | k in pend :: k !in eff)
  }

  ghost predicate Routes(m: map<ReplicaKey, ReplicaState>, route: set<ReplicaKey>) {
    forall k | k in route :: k in m && m[k] in {ACTIVE, DRAINING}
  }

  /** R: the pool is routed and not draining; requests and publications point at routes. */
  ghost predicate Routing(pool: set<ReplicaKey>, route: set<ReplicaKey>, pub: map<string, ReplicaKey>,
                          drain: map<ReplicaKey, string>,
                          adm: map<string, ReplicaKey>) {
    && (forall k | k in pool :: k in route)
    && (forall k | k in drain :: k in route && k !in pool)
    && (forall r | r in adm :: adm[r] in route)
    && (forall p | p in pub :: pub[p] in route)
  }

  /** Routed means synchronised: the serving pool never leaves the effective members. */
  ghost predicate Synchronised(pool: set<ReplicaKey>, eff: set<ReplicaKey>) {
    forall k | k in pool :: k in eff
  }

  ghost predicate Agreement(o: Owners) {
    && Lifecycle(o.m, o.kind, o.made, o.up) && Members(o.m, o.eff, o.pend) && Routes(o.m, o.route)
    && Routing(o.pool, o.route, o.pub, o.drain, o.adm) && Synchronised(o.pool, o.eff)
  }

  /** Every fact in the owners carries an operation id that was submitted. */
  ghost predicate Named(o: Owners, used: set<string>) {
    NamedFacts(o.pub, o.rel, o.made, used)
  }

  ghost predicate NamedFacts(pub: map<string, ReplicaKey>, rel: map<string, ReplicaKey>, made: map<ReplicaKey, string>,
                             used: set<string>)
  {
    && (forall p | p in pub :: p in used)
    && (forall p | p in rel :: p in used)
    && (forall k | k in made :: made[k] in used)
  }

  lemma EnterAgree(o: Owners, k: ReplicaKey, x: ReplicaState)
    requires Agreement(o) && k in o.m && (k in o.route ==> x in {ACTIVE, DRAINING})
             && (x in {CREATING, ACTIVE, DRAINING} ==> k in o.up)
    ensures Agreement(o.Enter(k, x))
  {
    var m := o.m[k := x];
    assert Lifecycle(m, o.kind, o.made, o.up);
    assert Members(m, o.eff, o.pend);
    assert Routes(m, o.route);
  }

  lemma CreateAgree(o: Owners, k: ReplicaKey, op: string, x: ReplicaState)
    requires Agreement(o) && k !in o.m && x in {CREATING, RELEASED, QUARANTINED}
    ensures Agreement(o.Create(k, op, x))
  {
    var n := o.Create(k, op, x);
    assert Lifecycle(n.m, n.kind, n.made, n.up);
    assert Members(n.m, o.eff, o.pend);
    assert Routes(n.m, o.route);
  }

  lemma DiscardAgree(o: Owners, k: ReplicaKey)
    requires Agreement(o)
    ensures Agreement(o.Discard(k))
  {
    assert Members(o.m, o.eff, o.Discard(k).pend);
  }

  lemma ParkAgree(o: Owners, k: ReplicaKey, op: string)
    requires Agreement(o) && k !in o.eff
    ensures Agreement(o.Park(k, op))
  {
    assert Members(o.m, o.eff, o.pend[k := op]);
  }

  /** A member leaves E only after it has left the serving pool. */
  lemma RemoveAgree(o: Owners, k: ReplicaKey)
    requires Agreement(o) && k !in o.pool
    ensures Agreement(o.RemoveEffective(k))
  {
    assert Members(o.m, o.eff - {k}, o.Discard(k).pend);
    assert Synchronised(o.pool, o.eff - {k});
  }

  lemma LoadAgree(o: Owners, k: ReplicaKey, op: string, version: nat)
    requires Agreement(o)
    ensures Agreement(o.Loaded(k, op, version))
  {
    assert Lifecycle(o.m, o.kind, o.made, o.up + {k});
  }

  lemma WakeAgree(o: Owners, k: ReplicaKey)
    requires Agreement(o)
    ensures Agreement(o.Woken(k))
  {
    assert Lifecycle(o.m, o.kind, o.made, o.up + {k});
  }

  lemma SleepAgree(o: Owners, k: ReplicaKey)
    requires Agreement(o) && !o.In(k, CREATING) && !o.In(k, ACTIVE) && !o.In(k, DRAINING)
    ensures Agreement(o.Slept(k))
  {
    assert Lifecycle(o.m, o.kind, o.made, o.up - {k});
  }

  lemma PromoteAgree(o: Owners, k: ReplicaKey)
    requires Agreement(o) && k in o.m
    ensures Agreement(o.Promote(k))
  {
    assert Members(o.m, o.eff + {k}, o.pend - {k});
    assert Synchronised(o.pool, o.eff + {k});
  }

  /** A route opens only over an ACTIVE, effective replica that is not draining. */
  lemma CommitAgree(o: Owners, k: ReplicaKey, op: string)
    requires Agreement(o) && o.In(k, ACTIVE) && k in o.eff && (k in o.route ==> k in o.pool)
    ensures Agreement(o.CommitReady(k, op))
  {
    var n := o.CommitReady(k, op);
    assert Routes(o.m, n.route);
    assert Routing(n.pool, n.route, n.pub, o.drain, o.adm);
    assert Synchronised(n.pool, o.eff);
  }

  lemma DrainAgree(o: Owners, k: ReplicaKey, op: string)
    requires Agreement(o) && k in o.route
    ensures Agreement(o.BeginDrain(k, op))
  {
    var n := o.BeginDrain(k, op);
    assert Routing(n.pool, o.route, o.pub, n.drain, o.adm);
    assert Synchronised(n.pool, o.eff);
  }

  lemma FinishAgree(o: Owners, k: ReplicaKey)
    requires Agreement(o) && !o.Admits(k)
    ensures Agreement(o.FinishRemove(k))
  {
    var n := o.FinishRemove(k);
    assert Routes(o.m, n.route);
    assert Routing(n.pool, n.route, n.pub, n.drain, o.adm);
    assert Synchronised(n.pool, o.eff);
  }

  lemma ReleaseAgree(o: Owners, k: ReplicaKey, op: string)
    requires Agreement(o) && k in o.m && k !in o.route
    ensures Agreement(o.Release(k, op))
  {
    var n := o.Release(k, op);
    assert Lifecycle(n.m, o.kind, o.made, n.up);
    assert Members(n.m, o.eff, o.pend);
    assert Routes(n.m, o.route);
  }

  lemma AcquireAgree(o: Owners, r: string, k: ReplicaKey)
    requires Agreement(o)
    ensures Agreement(Acquire(o, r, k))
  {
    assert Routing(o.pool, o.route, o.pub, o.drain, Acquire(o, r, k).adm);
  }

  lemma SettleAgree(o: Owners, r: string)
    requires Agreement(o)
    ensures Agreement(o.(adm := o.adm - {r}))
  {
    assert Routing(o.pool, o.route, o.pub, o.drain, o.adm - {r});
  }

  lemma BeginAgree(o: Owners)
    requires OwnersBegun(o)
    ensures Agreement(o) && Named(o, {})
  {
  }

  // The names grow only by the acting operation's own id.

  lemma NamedCreate(o: Owners, used: set<string>, k: ReplicaKey, op: string, x: ReplicaState)
    requires Named(o, used) && op in used
    ensures Named(o.Create(k, op, x), used)
  {
  }

  lemma NamedCommit(o: Owners, used: set<string>, k: ReplicaKey, op: string)
    requires Named(o, used) && op in used
    ensures Named(o.CommitReady(k, op), used) && Named(o.FinishRemove(k), used)
  {
  }

  lemma NamedRelease(o: Owners, used: set<string>, k: ReplicaKey, op: string)
    requires Named(o, used) && op in used
    ensures Named(o.Release(k, op), used)
  {
  }
}
