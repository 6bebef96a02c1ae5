/**
 * The replica manager and the journal of one task against Residency: what they accept is a step Residency allows, and
 * it leaves Residency's records in agreement with theirs.
 */
module ResidencyOwners {
  import opened Contracts
  import J = Journal
  import L = LeaseLedger
  import M = ReplicaLedger
  import opened OwnerRefinement
  import opened R = Residency
  import ResidencyBook
  import ResidencyProof
  import ResidencySafety

  /**
   * M's records of task `session` are Residency's, its unreleased runtimes are live, and its answers are remembered.
   */
  ghost predicate RecordsHold(m: M.View, t: Tasks, session: string) {
    Known(m.creations, t.made, session) && RuntimesHold(m.creations, m.inventory, t.live, t.dead)
  }

  ghost predicate Known(creations: map<string, M.Creation>, made: map<string, Made>, session: string) {
    && (forall l | l in creations :: creations[l].spec.key.session == session
          && l in made && made[l] == Made(creations[l].spec.op, creations[l].spec.key))
    && (forall l | l in made && made[l].key.session == session :: l in creations)
  }

  ghost predicate RuntimesHold(creations: map<string, M.Creation>, inventory: map<ReplicaKey, nat>, live: set<string>,
                               dead: map<string, string>)
  {
    && (forall l | l in creations && creations[l].destroyed.Some? ::
        l in dead && dead[l] == creations[l].destroyed.value.op)
    && (forall l | l in creations && creations[l].destroyed.None? && creations[l].spec.key in inventory ::
        l in live && l !in dead)
  }

  /** M knows exactly the natives of its task and the replicas it has records of. */
  ghost predicate KeysHold(m: M.View, site: Site, session: string) {
    && (forall k | k in m.state :: k.session == session && (k in site.hosts || M.HasRecord(m.creations, k)))
    && (forall k | k in site.hosts && k.session == session :: k in m.state)
    && (forall l | l in m.creations :: m.creations[l].spec.key in m.state && m.creations[l].spec.key !in site.hosts)
  }

  /** One ADD per lease, and records only of ADDs: two facts of every sound world. */
  ghost predicate OneAdd(w: World) {
    && (forall l | l in w.t.made :: w.t.made[l].op in w.l.commands && w.l.commands[w.t.made[l].op].kind == ADD
          && w.l.commands[w.t.made[l].op].lease == l && w.l.commands[w.t.made[l].op].target == w.t.made[l].key)
    && (forall a, b | a in w.l.commands && b in w.l.commands && w.l.commands[a].kind == ADD
        && w.l.commands[b].kind == ADD
          && w.l.commands[a].lease == w.l.commands[b].lease :: a == b)
  }

  lemma RecordsNameAdds(site: Site, b: ResidencyBook.Book, t: Tasks, l: string)
    requires ResidencyProof.Records(site, b, t.begun, t.resolved, t.made, t.live, t.dead) && l in t.made
    ensures b.Is(t.made[l].op, ADD) && b.On(t.made[l].op, l) && b.commands[t.made[l].op].target == t.made[l].key
  {
  }

  lemma SoundHasOneAdd(site: Site, w: World)
    requires ResidencySafety.Sound(site, w)
    ensures OneAdd(w)
  {
    hide L.Inv;
    hide L.Phases;
    hide ResidencyProof.Records;
    hide ResidencyProof.Journal;
    hide ResidencyProof.AddAnswers;
    hide ResidencyProof.ExitAnswers;
    hide ResidencyProof.Lent;
    hide ResidencyProof.Returns;
    hide ResidencyProof.Stuck;
    hide ResidencyProof.Waking;
    hide ResidencyProof.Asleep;
    var b := ResidencyBook.BookOf(w.l);
    forall l | l in w.t.made
      ensures w.t.made[l].op in w.l.commands && w.l.commands[w.t.made[l].op].kind == ADD
              && w.l.commands[w.t.made[l].op].lease == l
              && w.l.commands[w.t.made[l].op].target == w.t.made[l].key
    {
      RecordsNameAdds(site, b, w.t, l);
    }
    forall x, y | x in w.l.commands && y in w.l.commands && w.l.commands[x].kind == ADD && w.l.commands[y].kind == ADD
                  && w.l.commands[x].lease == w.l.commands[y].lease
      ensures x == y
    {
      ResidencyBook.OneAdd(w.l, x, y);
    }
  }

  /** The spec a Manager builds for the active ADD `o`. */
  predicate SpecOf(w: World, o: string, s: M.Spec) {
    && Works(w, o, ADD) && w.l.leases[w.l.commands[o].lease].id == w.l.commands[o].lease
    && s.op == o && s.lease == w.l.commands[o].lease && s.key == w.l.commands[o].target
    && Elements(s.gpus) == w.l.leases[s.lease].Gpus()
  }

  /**
   * create_borrowed_replica's fence opens exactly when Residency's runtime may be built, for a fitting lease that has
   * not expired.
   */
  lemma CreateIsAllowed(m: M.View, site: Site, w: World, o: string, s: M.Spec)
    requires OneAdd(w) && SpecOf(w, o, s)
    requires RecordsHold(m, w.t, s.key.session) && KeysHold(m, site, s.key.session)
    requires var lease := w.l.leases[s.lease];
      s.lease !in site.unfit && (lease.expires == 0.0 || w.t.now < lease.expires)
    ensures M.CreateBegins(m, s).Ok? <==> Creatable(site, w.t.made, w.t.now, w.l.leases[s.lease], s.key)
  {
    if s.lease in w.t.made {
      assert w.t.made[s.lease].key == s.key;
      assert s.lease in m.creations;
    }
    if Registered(w.t.made, s.key) {
      var i :| i in w.t.made && w.t.made[i].key == s.key;
      assert i in m.creations && s.key in m.state;
    }
    if s.key in m.state && s.key !in site.hosts {
      var l :| l in m.creations && m.creations[l].spec.key == s.key;
      assert Registered(w.t.made, s.key) by { assert w.t.made[l].key == s.key; }
    }
  }

  lemma InventoryGrows(m: M.View, e: M.Event)
    ensures forall k | k in M.Step(m, e).inventory ::
              k in m.inventory || (e.ECreated? && e.lease in m.creations && k == m.creations[e.lease].spec.key)
  {
  }

  /** Only a creation that succeeds puts its key into the inventory. */
  lemma CreationInventory(m: M.View, s: M.Spec, e: Outcome)
    requires M.CreateBegins(m, s).Ok?
    ensures forall k | k in M.Run(m, CreationEvents(s, e)).inventory :: k in m.inventory || (e.Succeeds? && k == s.key)
  {
    hide M.Run;
    hide M.Step;
    var a := M.Step(m, M.ECreate(s));
    InventoryGrows(m, M.ECreate(s));
    if e.FailsEarly? {
      BuiltThen(m, s, M.ECreateFailed(s.lease, e.cleaned));
      InventoryGrows(a, M.ECreateFailed(s.lease, e.cleaned));
    } else {
      BuiltThen(m, s, M.EBuilt(s.lease));
      CreationBegins(m, s);
      CreationBuilt(m, a, s);
      var b := M.Step(a, M.EBuilt(s.lease));
      InventoryGrows(a, M.EBuilt(s.lease));
      InventoryGrows(b, if e.Succeeds? then M.ECreated(s.lease, e.runtime) else M.ECreateFailed(s.lease, e.cleaned));
    }
  }

  lemma RecordKnown(creations: map<string, M.Creation>, made: map<string, Made>, session: string, l: string,
                    c: M.Creation)
    requires Known(creations, made, session) && l !in creations && c.spec.key.session == session
    ensures Known(creations[l := c], made[l := Made(c.spec.op, c.spec.key)], session)
  {
  }

  /** `x` is a key no record has; it may be in the inventory afterwards. */
  lemma RuntimeAdded(creations: map<string, M.Creation>, inventory: map<ReplicaKey, nat>, after: map<ReplicaKey, nat>,
                     live: set<string>, dead: map<string, string>, l: string, c: M.Creation, up: bool)
    requires RuntimesHold(creations, inventory, live, dead) && l !in creations && l !in dead && c.destroyed.None?
    requires forall j | j in creations :: creations[j].spec.key != c.spec.key
    requires forall k | k in after && k != c.spec.key :: k in inventory
    requires c.spec.key in after ==> up
    ensures RuntimesHold(creations[l := c], after, if up then live + {l} else live, dead)
  {
  }

  /** A whole creation, however it ends, is one WCreate: with a live runtime unless M ended RELEASED. */
  lemma CreateHolds(m: M.View, site: Site, w: World, o: string, s: M.Spec, e: Outcome)
    requires SpecOf(w, o, s) && RecordsHold(m, w.t, s.key.session) && M.CreateBegins(m, s).Ok?
    requires Creatable(site, w.t.made, w.t.now, w.l.leases[s.lease], s.key)
    requires s.lease !in w.t.dead && (forall l | l in m.creations :: m.creations[l].spec.key in m.state)
    requires forall k | k in m.inventory :: k in m.state
    ensures RecordsHold(M.Run(m, CreationEvents(s, e)), Create(site, w, o, EndState(e) != RELEASED), s.key.session)
  {
    hide M.Run;
    hide M.CreateBegins;
    hide Creatable;
    hide Known;
    hide RuntimesHold;
    var n, up := M.Run(m, CreationEvents(s, e)), EndState(e) != RELEASED;
    CreationEnds(m, s, e);
    CreationInventory(m, s, e);
    CreateFresh(m, s);
    var c := n.creations[s.lease];
    RecordKnown(m.creations, w.t.made, s.key.session, s.lease, c);
    RuntimeAdded(m.creations, m.inventory, n.inventory, w.t.live, w.t.dead, s.lease, c, up);
  }

  /** destroy answers only for a runtime Residency may destroy, or repeats the answer of the one operation that did. */
  lemma DestroyIsAllowed(m: M.View, w: World, o: string, l: string, stamp: nat)
    requires o in w.l.commands && RecordsHold(m, w.t, w.l.commands[o].target.session)
    requires Works(w, o, ADD) || Works(w, o, REMOVE) || Works(w, o, DONATE)
    requires M.DestroySucceeds(m, w.l.commands[o].target, o, l, stamp).Ok?
    requires l in w.l.leases && Elements(m.creations[l].spec.gpus) == w.l.leases[l].Gpus()
    requires w.l.commands[o].kind == ADD ==> m.creations[l].spec.op == o
    ensures MayDestroy(w, o, l, m.creations[l].spec.gpus)
  {
    assert l in M.RecordsOf(m, w.l.commands[o].target);
  }

  lemma DestroyHolds(m: M.View, t: Tasks, session: string, key: ReplicaKey, o: string, l: string, stamp: nat,
                     e: Evidence)
    requires RecordsHold(m, t, session) && M.DestroySucceeds(m, key, o, l, stamp).Ok?
    ensures RecordsHold(M.DestroySucceeds(m, key, o, l, stamp).value.0, Destroy(t, o, l, e), session)
  {
    assert l in M.RecordsOf(m, key);
  }

  /** transition_replica builds and destroys nothing. */
  lemma TransitionHolds(m: M.View, t: Tasks, session: string, k: ReplicaKey, x: ReplicaState)
    requires RecordsHold(m, t, session) && M.Transition(m, k, x).Ok?
    ensures RecordsHold(M.Transition(m, k, x).value, t, session)
  {
  }

  /**
   * The journal of `session` holds every command of the task that has begun, unresolved while Residency calls it
   * active.
   */
  ghost predicate JournalHolds(b: J.Book, w: World, session: string) {
    forall o | o in w.l.commands && w.t.Active(o) && w.l.commands[o].target.session == session ::
      o in b.records && o in b.commands && b.commands[o] == w.l.commands[o] && !J.Resolved(b.records[o].status)
  }

  /** The begin fence lets a new command in only when Residency may begin it. */
  lemma BeginIsAllowed(b: J.Book, w: World, o: string)
    requires J.BookInv(b) && o in w.l.commands && o !in w.t.begun && JournalHolds(b, w, w.l.commands[o].target.session)
    requires w.l.commands[o].op == o && o !in b.records && J.Begin(b, w.l.commands[o]).Ok?
    ensures MayBegin(w, o)
  {
  }
}
