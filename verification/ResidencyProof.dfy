/** Why no accelerator is ever shared: what the tasks and the ledger agree on, step by step. */
module ResidencyProof {
  import opened Contracts
  import opened ResidencyBook
  import opened Residency

  // ---------------------------------------------------------------- invariants

  predicate HasSent(sent: set<Evidence>, o: string) {
    exists e :: e in sent && e.op == o
  }

  predicate ActiveIn(begun: set<string>, resolved: set<string>, o: string) {
    o in begun && o !in resolved
  }

  /** One unresolved operation per task; evidence comes from begun operations and outlives only its acceptance. */
  ghost predicate Journal(b: Book, begun: set<string>, resolved: set<string>, sent: set<Evidence>) {
    && (forall o | o in begun :: o in b.commands)
    && (forall o, p | ActiveIn(begun, resolved, o) && ActiveIn(begun, resolved, p)
          && b.commands[o].target.session == b.commands[p].target.session :: o == p)
    && (forall e | e in sent :: e.op in begun && (e.op in resolved ==> e.op in b.recorded))
    && (forall o | o in b.recorded :: HasSent(sent, o))
  }

  /** Creation records: one per lease and key, made by the lease's ADD; a record is destroyed once. */
  ghost predicate Records(site: Site, b: Book, begun: set<string>, resolved: set<string>, made: map<string, Made>,
                          live: set<string>,
                          dead: map<string, string>) {
    && (forall i | i in made :: made[i].op in begun && b.Is(made[i].op, ADD) && b.On(made[i].op, i)
                                && b.commands[made[i].op].target == made[i].key && made[i].key !in site.hosts)
    && (forall i, j | i in made && j in made && made[i].key == made[j].key :: i == j)
    && (forall i | i in live :: i in made && i !in dead)
    && (forall i | i in dead :: i in made && dead[i] in begun && dead[i] in b.commands
                                && (b.commands[dead[i]].kind == ADD ==> dead[i] == made[i].op)
                                && (b.commands[dead[i]].kind != ADD ==> made[i].op in resolved))
  }

  predicate FromNative(site: Site, b: Book, e: Evidence) {
    e.op in b.commands && b.commands[e.op].target in site.hosts
      && Elements(e.gpus) == {site.hosts[b.commands[e.op].target]}
  }

  predicate FromDead(b: Book, dead: map<string, string>, e: Evidence) {
    exists i :: i in dead && dead[i] == e.op && Elements(e.gpus) == b.Gpus(i)
  }

  /** ADD's answer means that its runtime is gone and will never be built again. */
  predicate Settled(site: Site, b: Book, made: map<string, Made>, live: set<string>, now: real, e: Evidence)
    requires e.op in b.commands
  {
    var c := b.commands[e.op];
    && c.lease in b.leases && c.lease !in live && c.target !in site.hosts
    && !Creatable(site, made, now, b.leases[c.lease], c.target)
    && Elements(e.gpus) == b.Gpus(c.lease)
  }

  /** DONATE and REMOVE answer for a runtime they destroyed, or for a native they put to sleep. */
  predicate Released(site: Site, b: Book, dead: map<string, string>, awake: set<ReplicaKey>, e: Evidence)
    requires e.op in b.commands
  {
    || FromDead(b, dead, e)
    || (FromNative(site, b, e) && (b.Is(e.op, DONATE) && e.op !in b.recorded ==> b.commands[e.op].target !in awake))
  }

  ghost predicate AddAnswers(site: Site, b: Book, sent: set<Evidence>, made: map<string, Made>, live: set<string>,
                             now: real)
  {
    forall e | e in sent && b.Is(e.op, ADD) :: Settled(site, b, made, live, now, e)
  }

  ghost predicate ExitAnswers(site: Site, b: Book, sent: set<Evidence>, dead: map<string, string>,
                              awake: set<ReplicaKey>)
  {
    forall e | e in sent && (b.Is(e.op, REMOVE) || b.Is(e.op, DONATE)) :: Released(site, b, dead, awake, e)
  }

  /** A lease whose ADD or destruction is still unanswered stays handed off. */
  ghost predicate Lent(site: Site, b: Book, dead: map<string, string>) {
    && (forall a | b.Is(a, ADD) && b.commands[a].target !in site.hosts ::
          b.commands[a].lease in b.handoff || a in b.recorded
          || (b.commands[a].lease in dead && dead[b.commands[a].lease] in b.recorded))
    && (forall i | i in dead && dead[i] !in b.recorded :: i in b.handoff)
  }

  /** A staged RESTORE owns its claims until it is answered; an answered DONATE names its native's accelerator. */
  ghost predicate Returns(site: Site, b: Book) {
    && (forall r | b.Is(r, RESTORE) && r !in b.recorded :: b.commands[r].lease in b.holders)
    && (forall r, q | b.Is(r, RESTORE) && b.Is(q, RESTORE) && r !in b.recorded && q !in b.recorded
          && b.commands[r].lease == b.commands[q].lease :: r == q)
    && (forall d | b.Is(d, DONATE) && d in b.recorded ::
          b.commands[d].target in site.hosts && b.Gpus(b.commands[d].lease) == {site.hosts[b.commands[d].target]})
  }

  /** A REMOVE aimed at the very native whose accelerator its lease claims is never answered. */
  ghost predicate Stuck(site: Site, b: Book, sent: set<Evidence>) {
    forall x | b.Is(x, REMOVE) && b.commands[x].target in site.hosts
               && b.Gpus(b.commands[x].lease) == {site.hosts[b.commands[x].target]} ::
      b.commands[x].lease in b.handoff && !HasSent(sent, x)
  }

  predicate Covered(b: Book, g: string) {
    exists i :: i in b.handoff && g in b.Gpus(i)
  }

  /** While a RESTORE is at work its native's accelerator is lent to nobody. */
  ghost predicate Waking(site: Site, b: Book, begun: set<string>, resolved: set<string>) {
    forall r | ActiveIn(begun, resolved, r) && b.Is(r, RESTORE) && b.commands[r].target in site.hosts ::
      !Covered(b, site.hosts[b.commands[r].target])
  }

  /** The native of a lent accelerator is asleep. */
  ghost predicate Asleep(site: Site, b: Book, awake: set<ReplicaKey>) {
    forall n | n in awake && n in site.hosts :: !Covered(b, site.hosts[n])
  }

  ghost predicate Inv(site: Site, b: Book, t: Tasks) {
    && Journal(b, t.begun, t.resolved, t.sent) && Records(site, b, t.begun, t.resolved, t.made, t.live, t.dead)
    && AddAnswers(site, b, t.sent, t.made, t.live, t.now) && ExitAnswers(site, b, t.sent, t.dead, t.awake)
    && Lent(site, b, t.dead) && Returns(site, b) && Stuck(site, b, t.sent)
    && Waking(site, b, t.begun, t.resolved) && Asleep(site, b, t.awake)
  }

  // ---------------------------------------------------------------- consequences

  lemma AnsweredAddIsGone(site: Site, b: Book, t: Tasks, a: string)
    requires Inv(site, b, t) && b.Is(a, ADD) && a in b.recorded
    ensures b.commands[a].lease !in t.live
  {
    var e :| e in t.sent && e.op == a;
    assert Settled(site, b, t.made, t.live, t.now, e);
  }

  /** A live borrowed runtime runs on a lease that is handed off. */
  lemma LiveIsLent(site: Site, b: Book, t: Tasks, i: string)
    requires Inv(site, b, t) && i in t.live
    ensures i in b.handoff
  {
    var a := t.made[i].op;
    if a in b.recorded { AnsweredAddIsGone(site, b, t, a); }
  }

  /** The lease of an active, unanswered ADD is handed off. */
  lemma AddIsLent(site: Site, b: Book, t: Tasks, a: string)
    requires Facts(b) && Inv(site, b, t) && b.Is(a, ADD) && b.commands[a].target !in site.hosts
    requires t.Active(a) && a !in b.recorded
    ensures b.commands[a].lease in b.handoff
  {
    var i := b.commands[a].lease;
    if i in t.dead { assert t.made[i].op == a; }
  }

  /** An unanswered DONATE that slept a native is still at work. */
  lemma UnansweredIsActive(b: Book, t: Tasks, e: Evidence)
    requires Journal(b, t.begun, t.resolved, t.sent) && e in t.sent && e.op !in b.recorded
    ensures t.Active(e.op)
  {
  }

  // ---------------------------------------------------------------- steps of the tasks

  /** Sending more evidence of one active operation. */
  lemma JournalSends(b: Book, t: Tasks, e: Evidence)
    requires Journal(b, t.begun, t.resolved, t.sent) && t.Active(e.op)
    ensures Journal(b, t.begun, t.resolved, t.sent + {e})
  {
    forall o | o in b.recorded ensures HasSent(t.sent + {e}, o) {
      var d :| d in t.sent && d.op == o;
      assert d in t.sent + {e};
    }
  }

  /** ... is invisible to a REMOVE that cannot be answered. */
  lemma StuckSends(site: Site, b: Book, sent: set<Evidence>, e: Evidence)
    requires Stuck(site, b, sent)
    requires b.Is(e.op, REMOVE) && b.commands[e.op].target in site.hosts ==>
               b.Gpus(b.commands[e.op].lease) != {site.hosts[b.commands[e.op].target]}
    ensures Stuck(site, b, sent + {e})
  {
    forall x | HasSent(sent + {e}, x) ensures x == e.op || HasSent(sent, x) {
      var d :| d in sent + {e} && d.op == x;
    }
  }

  /** The RESTORE that begins was staged on hardware nobody else holds. */
  lemma StagedRestoreIsFree(site: Site, b: Book, r: string)
    requires Facts(b) && Returns(site, b) && b.Is(r, RESTORE) && r !in b.recorded && b.commands[r].target in site.hosts
    ensures !Covered(b, site.hosts[b.commands[r].target])
  {
    var i := b.commands[r].lease;
    assert b.Donated(i);
    var d :| d in b.recorded && b.Is(d, DONATE) && b.On(d, i);
    assert b.commands[d].target == b.commands[r].target;
    forall j | j in b.handoff ensures site.hosts[b.commands[r].target] !in b.Gpus(j) {
      assert b.On(r, i);
    }
  }

  lemma BeginWaking(site: Site, b: Book, begun: set<string>, resolved: set<string>, o: string)
    requires Facts(b) && Waking(site, b, begun, resolved) && Returns(site, b) && o !in b.recorded
    ensures Waking(site, b, begun + {o}, resolved)
  {
    hide Facts;
    hide Returns;
    if b.Is(o, RESTORE) && b.commands[o].target in site.hosts { StagedRestoreIsFree(site, b, o); }
  }

  lemma BeginJournal(b: Book, begun: set<string>, resolved: set<string>, sent: set<Evidence>, o: string)
    requires Journal(b, begun, resolved, sent) && o in b.commands && o !in begun
    requires forall p | p in b.commands && ActiveIn(begun, resolved, p) ::
             b.commands[p].target.session != b.commands[o].target.session
    ensures Journal(b, begun + {o}, resolved, sent) && o !in b.recorded
  {
    assert !HasSent(sent, o);
  }

  lemma BeginRecords(site: Site, b: Book, t: Tasks, o: string)
    requires Records(site, b, t.begun, t.resolved, t.made, t.live, t.dead)
    ensures Records(site, b, t.begun + {o}, t.resolved, t.made, t.live, t.dead)
  {
  }

  lemma BeginKeeps(site: Site, b: Book, t: Tasks, o: string)
    requires Facts(b) && Inv(site, b, t) && o in b.commands && o !in t.begun
    requires forall p | p in b.commands && ActiveIn(t.begun, t.resolved, p) ::
             b.commands[p].target.session != b.commands[o].target.session
    ensures Inv(site, b, t.(begun := t.begun + {o}))
  {
    BeginJournal(b, t.begun, t.resolved, t.sent, o);
    BeginRecords(site, b, t, o);
    BeginWaking(site, b, t.begun, t.resolved, o);
  }

  /** The ADD of a lease creates at most one record, under a key no record has. */
  lemma CreateRecords(site: Site, b: Book, t: Tasks, o: string, i: string, up: bool)
    requires Records(site, b, t.begun, t.resolved, t.made, t.live, t.dead)
    requires o in t.begun && b.Is(o, ADD) && b.On(o, i) && i !in t.made
    requires !Registered(t.made, b.commands[o].target) && b.commands[o].target !in site.hosts
    ensures Records(site, b, t.begun, t.resolved, t.made[i := Made(o, b.commands[o].target)], if up then t.live + {i}
                    else t.live, t.dead)
  {
  }

  lemma StillNotCreatable(site: Site, made: map<string, Made>, now: real, i: string, m: Made, later: real,
                          s: LeaseData, k: ReplicaKey)
    requires !Creatable(site, made, now, s, k) && now <= later && i !in made
    ensures !Creatable(site, made[i := m], later, s, k) && !Creatable(site, made, later, s, k)
  {
    if Registered(made, k) {
      var j :| j in made && made[j].key == k;
      assert made[i := m][j].key == k;
    }
  }

  lemma CreateAnswer(site: Site, b: Book, t: Tasks, o: string, i: string, up: bool, e: Evidence)
    requires Facts(b) && b.Is(o, ADD) && b.On(o, i) && Creatable(site, t.made, t.now, b.leases[i], b.commands[o].target)
    requires b.Is(e.op, ADD) && Settled(site, b, t.made, t.live, t.now, e)
    ensures Settled(site, b, t.made[i := Made(o, b.commands[o].target)], if up then t.live + {i} else t.live, t.now, e)
  {
    var c := b.commands[e.op];
    StillNotCreatable(site, t.made, t.now, i, Made(o, b.commands[o].target), t.now, b.leases[c.lease], c.target);
  }

  lemma CreateAnswers(site: Site, b: Book, t: Tasks, o: string, i: string, up: bool)
    requires Facts(b) && AddAnswers(site, b, t.sent, t.made, t.live, t.now)
    requires b.Is(o, ADD) && b.On(o, i) && Creatable(site, t.made, t.now, b.leases[i], b.commands[o].target)
    ensures AddAnswers(site, b, t.sent, t.made[i := Made(o, b.commands[o].target)], if up then t.live + {i}
                       else t.live, t.now)
  {
    hide Facts;
    hide Creatable;
    hide Settled;
    forall e | e in t.sent && b.Is(e.op, ADD)
      ensures Settled(site, b, t.made[i := Made(o, b.commands[o].target)], if up then t.live + {i}
                      else t.live, t.now, e)
    {
      CreateAnswer(site, b, t, o, i, up, e);
    }
  }

  lemma CreateKeeps(site: Site, b: Book, t: Tasks, o: string, i: string, up: bool)
    requires Facts(b) && Inv(site, b, t) && t.Active(o) && b.Is(o, ADD) && b.On(o, i)
    requires Creatable(site, t.made, t.now, b.leases[i], b.commands[o].target)
    ensures Inv(site, b,
                t.(made := t.made[i := Made(o, b.commands[o].target)], live := if up then t.live + {i} else t.live))
  {
    CreateRecords(site, b, t, o, i, up);
    CreateAnswers(site, b, t, o, i, up);
  }

  lemma AbsentKeeps(site: Site, b: Book, t: Tasks, e: Evidence)
    requires Inv(site, b, t) && t.Active(e.op) && b.Is(e.op, ADD) && Settled(site, b, t.made, t.live, t.now, e)
    ensures Inv(site, b, t.(sent := t.sent + {e}))
  {
    JournalSends(b, t, e);
    StuckSends(site, b, t.sent, e);
  }

  lemma DestroyRecords(site: Site, b: Book, t: Tasks, o: string, i: string)
    requires Records(site, b, t.begun, t.resolved, t.made, t.live, t.dead) && Journal(b, t.begun, t.resolved, t.sent)
    requires t.Active(o) && i in t.made && t.made[i].key == b.commands[o].target
    requires b.Is(o, ADD) ==> t.made[i].op == o
    ensures Records(site, b, t.begun, t.resolved, t.made, t.live - {i}, t.dead[i := o])
  {
    var a := t.made[i].op;
    assert b.commands[a].target.session == b.commands[o].target.session;
    assert a != o ==> a in t.resolved;
  }

  lemma DestroyLent(site: Site, b: Book, t: Tasks, o: string, i: string)
    requires Inv(site, b, t) && (if i in t.dead then t.dead[i] == o else i in t.live)
    ensures Lent(site, b, t.dead[i := o])
  {
    hide Journal;
    hide Records;
    hide AddAnswers;
    hide ExitAnswers;
    hide Returns;
    hide Stuck;
    hide Waking;
    hide Asleep;
    if i !in t.dead { LiveIsLent(site, b, t, i); }
  }

  lemma FromDeadStays(b: Book, dead: map<string, string>, o: string, i: string, e: Evidence)
    requires FromDead(b, dead, e) && (i in dead ==> dead[i] == o)
    ensures FromDead(b, dead[i := o], e)
  {
    var j :| j in dead && dead[j] == e.op && Elements(e.gpus) == b.Gpus(j);
    assert dead[i := o][j] == e.op;
  }

  lemma DestroyAnswers(site: Site, b: Book, t: Tasks, o: string, i: string, e: Evidence)
    requires ExitAnswers(site, b, t.sent, t.dead, t.awake) && (i in t.dead ==> t.dead[i] == o)
    requires e.op == o && Elements(e.gpus) == b.Gpus(i)
    ensures ExitAnswers(site, b, t.sent + {e}, t.dead[i := o], t.awake)
  {
    var dead := t.dead[i := o];
    forall d | d in t.sent + {e} && (b.Is(d.op, REMOVE) || b.Is(d.op, DONATE))
      ensures Released(site, b, dead, t.awake, d)
    {
      if d == e {
        assert dead[i] == e.op;
      } else if FromDead(b, t.dead, d) {
        FromDeadStays(b, t.dead, o, i, d);
      } else {
        assert Released(site, b, t.dead, t.awake, d);
      }
    }
  }

  lemma DestroyKeeps(site: Site, b: Book, t: Tasks, o: string, i: string, e: Evidence)
    requires Facts(b) && Inv(site, b, t) && t.Active(o) && o in b.commands && i in t.made && i in b.leases
    requires t.made[i].key == b.commands[o].target && (b.Is(o, ADD) ==> t.made[i].op == o)
    requires if i in t.dead then t.dead[i] == o else i in t.live
    requires e.op == o && Elements(e.gpus) == b.Gpus(i)
    ensures Inv(site, b, Destroy(t, o, i, e))
  {
    JournalSends(b, t, e);
    DestroyRecords(site, b, t, o, i);
    DestroyLent(site, b, t, o, i);
    DestroyAnswers(site, b, t, o, i, e);
    StuckSends(site, b, t.sent, e);
    AddDestroys(site, b, t, o, i, e);
  }

  lemma AddDestroys(site: Site, b: Book, t: Tasks, o: string, i: string, e: Evidence)
    requires Facts(b) && AddAnswers(site, b, t.sent, t.made, t.live, t.now)
    requires Records(site, b, t.begun, t.resolved, t.made, t.live, t.dead)
    requires i in t.made && i in b.leases && (b.Is(o, ADD) ==> t.made[i].op == o) && e.op == o
             && Elements(e.gpus) == b.Gpus(i)
    ensures AddAnswers(site, b, t.sent + {e}, t.made, t.live - {i}, t.now)
  {
  }

  /** A REMOVE that puts a native to sleep is not the one its own lease is waiting for. */
  lemma ExitIsForeign(site: Site, b: Book, t: Tasks, o: string)
    requires Facts(b) && Inv(site, b, t) && b.Is(o, REMOVE) && b.commands[o].target in site.hosts
    requires b.commands[o].target in t.awake || HasSent(t.sent, o)
    ensures b.Gpus(b.commands[o].lease) != {site.hosts[b.commands[o].target]}
  {
    var g := site.hosts[b.commands[o].target];
    assert g in {g};
  }

  lemma ExitAnswersSleep(site: Site, b: Book, t: Tasks, e: Evidence)
    requires ExitAnswers(site, b, t.sent, t.dead, t.awake) && FromNative(site, b, e)
    ensures ExitAnswers(site, b, t.sent + {e}, t.dead, t.awake - {b.commands[e.op].target})
  {
  }

  lemma ExitKeeps(site: Site, b: Book, t: Tasks, e: Evidence)
    requires Facts(b) && Inv(site, b, t) && t.Active(e.op) && FromNative(site, b, e) && !b.Is(e.op, ADD)
    requires b.Is(e.op, REMOVE) ==> b.commands[e.op].target in t.awake || HasSent(t.sent, e.op)
    ensures Inv(site, b, t.(awake := t.awake - {b.commands[e.op].target}, sent := t.sent + {e}))
  {
    JournalSends(b, t, e);
    if b.Is(e.op, REMOVE) { ExitIsForeign(site, b, t, e.op); }
    StuckSends(site, b, t.sent, e);
    ExitAnswersSleep(site, b, t, e);
    ExitOthers(site, b, t, e);
  }

  lemma ExitOthers(site: Site, b: Book, t: Tasks, e: Evidence)
    requires AddAnswers(site, b, t.sent, t.made, t.live, t.now) && Asleep(site, b, t.awake) && e.op in b.commands
             && !b.Is(e.op, ADD)
    ensures AddAnswers(site, b, t.sent + {e}, t.made, t.live, t.now)
            && Asleep(site, b, t.awake - {b.commands[e.op].target})
  {
  }

  /** While a RESTORE is at work no DONATE of the same native has an answer outstanding. */
  lemma WakeAnswers(site: Site, b: Book, t: Tasks, r: string)
    requires ExitAnswers(site, b, t.sent, t.dead, t.awake) && Journal(b, t.begun, t.resolved, t.sent)
    requires t.Active(r) && b.Is(r, RESTORE)
    ensures ExitAnswers(site, b, t.sent, t.dead, t.awake + {b.commands[r].target})
  {
    forall e | e in t.sent && b.Is(e.op, DONATE) && e.op !in b.recorded
      ensures b.commands[e.op].target != b.commands[r].target
    {
      UnansweredIsActive(b, t, e);
    }
  }

  lemma WakeKeeps(site: Site, b: Book, t: Tasks, r: string)
    requires Inv(site, b, t) && t.Active(r) && b.Is(r, RESTORE) && b.commands[r].target in site.hosts
    ensures Inv(site, b, t.(awake := t.awake + {b.commands[r].target}))
  {
    WakeAnswers(site, b, t, r);
    assert Asleep(site, b, t.awake + {b.commands[r].target});
  }

  lemma SleepKeeps(site: Site, b: Book, t: Tasks, k: ReplicaKey)
    requires Inv(site, b, t)
    ensures Inv(site, b, t.(awake := t.awake - {k}))
  {
    assert Asleep(site, b, t.awake - {k});
    assert ExitAnswers(site, b, t.sent, t.dead, t.awake - {k});
  }

  lemma RestoredKeeps(site: Site, b: Book, t: Tasks, e: Evidence)
    requires Inv(site, b, t) && t.Active(e.op) && b.Is(e.op, RESTORE)
    ensures Inv(site, b, t.(sent := t.sent + {e}))
  {
    JournalSends(b, t, e);
    StuckSends(site, b, t.sent, e);
    assert ExitAnswers(site, b, t.sent + {e}, t.dead, t.awake);
  }

  lemma ResolveKeeps(site: Site, b: Book, t: Tasks, o: string)
    requires Inv(site, b, t) && (HasSent(t.sent, o) ==> o in b.recorded)
    ensures Inv(site, b, t.(resolved := t.resolved + {o}))
  {
    var resolved := t.resolved + {o};
    assert Journal(b, t.begun, resolved, t.sent);
    assert Records(site, b, t.begun, resolved, t.made, t.live, t.dead);
    assert Waking(site, b, t.begun, resolved);
  }

  lemma TickKeeps(site: Site, b: Book, t: Tasks, later: real)
    requires Inv(site, b, t) && t.now <= later
    ensures Inv(site, b, t.(now := later))
  {
    forall e | e in t.sent && b.Is(e.op, ADD) ensures Settled(site, b, t.made, t.live, later, e) {
      assert Settled(site, b, t.made, t.live, t.now, e);
    }
  }

  // ---------------------------------------------------------------- steps of the ledger: accepted evidence

  /** Fresh evidence in flight that the ledger accepts: RESTORE aside, it covers exactly the claims of its lease. */
  ghost predicate Acceptable(site: Site, b: Book, t: Tasks, e: Evidence) {
    && Facts(b) && Inv(site, b, t) && e in t.sent && e.op in b.commands && e.op !in b.recorded
    && (b.commands[e.op].kind != RESTORE ==> Elements(e.gpus) == b.Gpus(b.commands[e.op].lease))
  }

  /** What acceptance leaves alone. */
  lemma AcceptJournal(b: Book, t: Tasks, e: Evidence)
    requires Journal(b, t.begun, t.resolved, t.sent) && e in t.sent && e.op in b.commands && b.commands[e.op].op == e.op
    ensures Journal(Accepted(b, b.commands[e.op], e.typ), t.begun, t.resolved, t.sent)
  {
    assert HasSent(t.sent, e.op);
  }

  lemma AcceptRecords(site: Site, b: Book, n: Book, t: Tasks)
    requires Records(site, b, t.begun, t.resolved, t.made, t.live, t.dead) && n.commands == b.commands
    ensures Records(site, n, t.begun, t.resolved, t.made, t.live, t.dead)
  {
  }

  lemma AcceptAddAnswers(site: Site, b: Book, n: Book, t: Tasks)
    requires AddAnswers(site, b, t.sent, t.made, t.live, t.now) && n.commands == b.commands && n.leases == b.leases
    ensures AddAnswers(site, n, t.sent, t.made, t.live, t.now)
  {
    forall e | e in t.sent && n.Is(e.op, ADD) ensures Settled(site, n, t.made, t.live, t.now, e) {
      assert Settled(site, b, t.made, t.live, t.now, e);
    }
  }

  lemma FromDeadSame(b: Book, n: Book, dead: map<string, string>, e: Evidence)
    requires n.leases == b.leases
    ensures FromDead(n, dead, e) == FromDead(b, dead, e)
  {
    forall i ensures n.Gpus(i) == b.Gpus(i) { }
  }

  lemma AcceptExitAnswers(site: Site, b: Book, n: Book, t: Tasks)
    requires ExitAnswers(site, b, t.sent, t.dead, t.awake) && n.commands == b.commands && n.leases == b.leases
             && b.recorded <= n.recorded
    ensures ExitAnswers(site, n, t.sent, t.dead, t.awake)
  {
    forall e | e in t.sent && (n.Is(e.op, REMOVE) || n.Is(e.op, DONATE)) ensures Released(site, n, t.dead, t.awake, e) {
      assert Released(site, b, t.dead, t.awake, e);
      FromDeadSame(b, n, t.dead, e);
    }
  }

  /** Nothing new is covered when the handoff set does not grow. */
  lemma CoverShrinks(b: Book, n: Book, g: string)
    requires n.leases == b.leases && n.handoff <= b.handoff && Covered(n, g)
    ensures Covered(b, g)
  {
    var i :| i in n.handoff && g in n.Gpus(i);
    assert g in b.Gpus(i);
  }

  lemma AcceptCover(site: Site, b: Book, n: Book, t: Tasks)
    requires Waking(site, b, t.begun, t.resolved) && Asleep(site, b, t.awake)
    requires n.commands == b.commands && n.leases == b.leases && n.handoff <= b.handoff
    ensures Waking(site, n, t.begun, t.resolved) && Asleep(site, n, t.awake)
  {
    forall g | Covered(n, g) ensures Covered(b, g) { CoverShrinks(b, n, g); }
  }

  /** Two leases with the same claims, one handed off and one holding, are one lease. */
  lemma SameHolder(b: Book, i: string, j: string)
    requires Facts(b) && i in b.holders && j in b.holders && b.Gpus(i) == b.Gpus(j)
    ensures i == j
  {
    assert b.Gpus(i) != {};
    var g :| g in b.Gpus(i);
  }

  // ---------------------------------------------------------------- ... of a DONATE

  /** An accepted DONATE slept a native: a destroyed runtime's lease is handed off, the DONATE's own is not yet. */
  lemma DonateIsNative(site: Site, b: Book, t: Tasks, e: Evidence)
    requires Acceptable(site, b, t, e) && b.Is(e.op, DONATE)
    ensures FromNative(site, b, e) && b.commands[e.op].target !in t.awake
  {
    assert Released(site, b, t.dead, t.awake, e);
    forall i | i in t.dead && t.dead[i] == e.op ensures Elements(e.gpus) != b.Gpus(i) {
      assert i in b.handoff && i != b.commands[e.op].lease;
      DifferentClaims(b, i, b.commands[e.op].lease);
    }
  }

  lemma DifferentClaims(b: Book, i: string, j: string)
    requires Facts(b) && i in b.holders && j in b.holders && i != j
    ensures b.Gpus(i) != b.Gpus(j)
  {
    var g :| g in b.Gpus(i);
  }

  lemma DonateWaking(site: Site, b: Book, t: Tasks, e: Evidence)
    requires Acceptable(site, b, t, e) && b.Is(e.op, DONATE) && site.OnePerGpu()
    requires FromNative(site, b, e) && b.commands[e.op].target !in t.awake
    ensures var n := Accepted(b, b.commands[e.op], e.typ);
      Waking(site, n, t.begun, t.resolved) && Asleep(site, n, t.awake)
  {
    hide Facts;
    hide Records;
    hide AddAnswers;
    hide ExitAnswers;
    hide Lent;
    hide Returns;
    hide Stuck;
    var n, c := Accepted(b, b.commands[e.op], e.typ), b.commands[e.op];
    forall g | Covered(n, g) ensures Covered(b, g) || g == site.hosts[c.target] {
      var i :| i in n.handoff && g in n.Gpus(i);
      assert g in b.Gpus(i);
    }
    UnansweredIsActive(b, t, e);
  }

  lemma DonateKeeps(site: Site, b: Book, t: Tasks, e: Evidence)
    requires Acceptable(site, b, t, e) && b.Is(e.op, DONATE) && site.OnePerGpu()
    ensures Inv(site, Accepted(b, b.commands[e.op], e.typ), t)
  {
    var n := Accepted(b, b.commands[e.op], e.typ);
    DonateIsNative(site, b, t, e);
    DonateWaking(site, b, t, e);
    AcceptJournal(b, t, e);
    AcceptRecords(site, b, n, t);
    AcceptAddAnswers(site, b, n, t);
    AcceptExitAnswers(site, b, n, t);
    SameLent(site, b, n, t);
    SameStuck(site, b, n, t.sent);
    DonateReturns(site, b, t, e);
  }

  lemma DonateReturns(site: Site, b: Book, t: Tasks, e: Evidence)
    requires Returns(site, b) && b.Is(e.op, DONATE) && FromNative(site, b, e)
             && Elements(e.gpus) == b.Gpus(b.commands[e.op].lease)
    requires b.commands[e.op].op == e.op
    ensures Returns(site, Accepted(b, b.commands[e.op], e.typ))
  {
    var n := Accepted(b, b.commands[e.op], e.typ);
    forall d | n.Is(d, DONATE) && d in n.recorded
      ensures n.commands[d].target in site.hosts && n.Gpus(n.commands[d].lease) == {site.hosts[n.commands[d].target]}
    {
      assert b.Is(d, DONATE) && n.Gpus(n.commands[d].lease) == b.Gpus(b.commands[d].lease);
    }
  }

  // ---------------------------------------------------------------- ... of an ADD or a REMOVE

  /** `i` is the handed-off lease whose runtime the evidence is about. */
  predicate Base(b: Book, t: Tasks, e: Evidence, i: string)
    requires e.op in b.commands
  {
    && i in b.handoff && b.Gpus(i) == b.Gpus(b.commands[e.op].lease)
    && (b.Is(e.op, ADD) ==> i == b.commands[e.op].lease) && (b.Is(e.op, REMOVE) ==> i in t.dead && t.dead[i] == e.op)
  }

  lemma HasBase(site: Site, b: Book, t: Tasks, e: Evidence)
    requires Acceptable(site, b, t, e) && (b.Is(e.op, ADD) || b.Is(e.op, REMOVE))
    ensures exists i :: Base(b, t, e, i)
  {
    UnansweredIsActive(b, t, e);
    if b.Is(e.op, ADD) {
      assert Settled(site, b, t.made, t.live, t.now, e);
      AddIsLent(site, b, t, e.op);
      assert Base(b, t, e, b.commands[e.op].lease);
    } else {
      assert Released(site, b, t.dead, t.awake, e) && HasSent(t.sent, e.op);
      assert !FromNative(site, b, e);
      var i :| i in t.dead && t.dead[i] == e.op && Elements(e.gpus) == b.Gpus(i);
      assert Base(b, t, e, i);
    }
  }

  lemma BaseIsLease(site: Site, b: Book, t: Tasks, e: Evidence, i: string)
    requires Acceptable(site, b, t, e) && Base(b, t, e, i)
    ensures b.commands[e.op].lease in b.holders ==> i == b.commands[e.op].lease
  {
    if b.commands[e.op].lease in b.holders { SameHolder(b, i, b.commands[e.op].lease); }
  }

  lemma OnlyOneKiller(site: Site, b: Book, t: Tasks, e: Evidence, i: string)
    requires Acceptable(site, b, t, e) && (b.Is(e.op, ADD) || b.Is(e.op, REMOVE)) && Base(b, t, e, i)
    requires b.commands[e.op].lease in t.dead && b.commands[e.op].lease in b.handoff
    ensures t.dead[b.commands[e.op].lease] == e.op
  {
    var l := b.commands[e.op].lease;
    BaseIsLease(site, b, t, e, i);
    UnansweredIsActive(b, t, e);
    if b.Is(e.op, ADD) { assert t.made[l].op == e.op; }
  }

  /** Closing lease `l` by operation `o`, which is either its ADD or the destroyer of its runtime. */
  lemma CloseLent(site: Site, b: Book, n: Book, dead: map<string, string>, o: string, l: string)
    requires Lent(site, b, dead) && n.commands == b.commands && n.recorded == b.recorded + {o}
             && n.handoff == b.handoff - {l}
    requires l in b.handoff && l in dead ==> dead[l] == o
    requires l in b.handoff ==> (l in dead || forall a | b.Is(a, ADD) && b.On(a, l) :: a == o)
    ensures Lent(site, n, dead)
  {
    forall a | n.Is(a, ADD) && n.commands[a].target !in site.hosts
      ensures n.commands[a].lease in n.handoff || a in n.recorded
              || (n.commands[a].lease in dead && dead[n.commands[a].lease] in n.recorded)
    {
      assert b.Is(a, ADD);
      if n.commands[a].lease == l && l in b.handoff && l !in dead { assert b.On(a, l); }
    }
    forall i | i in dead && dead[i] !in n.recorded ensures i in n.handoff {
      assert i in b.handoff;
    }
  }

  lemma ReleaseLent(site: Site, b: Book, t: Tasks, e: Evidence, i: string)
    requires Acceptable(site, b, t, e) && (b.Is(e.op, ADD) || b.Is(e.op, REMOVE)) && Base(b, t, e, i)
    ensures Lent(site, Accepted(b, b.commands[e.op], e.typ), t.dead)
  {
    var n, l := Accepted(b, b.commands[e.op], e.typ), b.commands[e.op].lease;
    if l in b.handoff {
      BaseIsLease(site, b, t, e, i);
      if l in t.dead { OnlyOneKiller(site, b, t, e, i); }
    }
    CloseLent(site, b, n, t.dead, e.op, l);
  }

  /** While a runtime's release is unanswered no RESTORE of the same claims is at work. */
  lemma NoRestoreYet(site: Site, b: Book, t: Tasks, e: Evidence, i: string, r: string)
    requires Acceptable(site, b, t, e) && Base(b, t, e, i) && b.Is(r, RESTORE) && r !in b.recorded
    ensures b.commands[r].lease != b.commands[e.op].lease
  {
    BaseIsLease(site, b, t, e, i);
    assert b.On(r, b.commands[r].lease);
  }

  lemma CloseReturns(site: Site, b: Book, n: Book, o: string, l: string)
    requires Returns(site, b) && n.commands == b.commands && n.leases == b.leases
    requires n.recorded == b.recorded + {o} && n.holders == b.holders - {l} && !b.Is(o, DONATE)
    requires forall r | b.Is(r, RESTORE) && r !in b.recorded && r != o :: b.commands[r].lease != l
    ensures Returns(site, n)
  {
    forall d | n.Is(d, DONATE) && d in n.recorded
      ensures n.commands[d].target in site.hosts && n.Gpus(n.commands[d].lease) == {site.hosts[n.commands[d].target]}
    {
      assert b.Is(d, DONATE) && n.Gpus(n.commands[d].lease) == b.Gpus(b.commands[d].lease);
    }
  }

  lemma ReleaseReturns(site: Site, b: Book, t: Tasks, e: Evidence, i: string)
    requires Acceptable(site, b, t, e) && (b.Is(e.op, ADD) || b.Is(e.op, REMOVE)) && Base(b, t, e, i)
    ensures Returns(site, Accepted(b, b.commands[e.op], e.typ))
  {
    forall r | b.Is(r, RESTORE) && r !in b.recorded && r != e.op ensures b.commands[r].lease != b.commands[e.op].lease {
      NoRestoreYet(site, b, t, e, i, r);
    }
    CloseReturns(site, b, Accepted(b, b.commands[e.op], e.typ), e.op, b.commands[e.op].lease);
  }

  lemma SameLeaseSameTarget(b: Book, x: string, o: string)
    requires Facts(b) && b.Is(x, REMOVE) && (b.Is(o, ADD) || b.Is(o, REMOVE))
             && b.commands[x].lease == b.commands[o].lease
    ensures b.commands[x].target == b.commands[o].target
  {
    var a :| b.Is(a, ADD) && b.On(a, b.commands[x].lease);
  }

  /** A stuck REMOVE is stuck on another lease than the one that closes. */
  lemma StuckElsewhere(site: Site, b: Book, t: Tasks, e: Evidence, x: string)
    requires Acceptable(site, b, t, e) && (b.Is(e.op, ADD) || b.Is(e.op, REMOVE))
    requires b.Is(x, REMOVE) && b.commands[x].target in site.hosts
             && b.Gpus(b.commands[x].lease) == {site.hosts[b.commands[x].target]}
    ensures b.commands[x].lease != b.commands[e.op].lease
  {
    assert HasSent(t.sent, e.op);
    if b.Is(e.op, ADD) { assert Settled(site, b, t.made, t.live, t.now, e); }
    if b.commands[x].lease == b.commands[e.op].lease { SameLeaseSameTarget(b, x, e.op); }
  }

  lemma CloseStuck(site: Site, b: Book, n: Book, sent: set<Evidence>, l: string)
    requires Stuck(site, b, sent) && n.commands == b.commands && n.leases == b.leases && b.handoff - {l} <= n.handoff
    requires forall x | b.Is(x, REMOVE) && b.commands[x].target in site.hosts
                        && b.Gpus(b.commands[x].lease) == {site.hosts[b.commands[x].target]} :: b.commands[x].lease != l
    ensures Stuck(site, n, sent)
  {
    forall x | n.Is(x, REMOVE) && n.commands[x].target in site.hosts
               && n.Gpus(n.commands[x].lease) == {site.hosts[n.commands[x].target]}
      ensures n.commands[x].lease in n.handoff && !HasSent(sent, x)
    {
      assert b.Is(x, REMOVE) && b.Gpus(b.commands[x].lease) == n.Gpus(n.commands[x].lease);
    }
  }

  lemma ReleaseStuck(site: Site, b: Book, t: Tasks, e: Evidence)
    requires Acceptable(site, b, t, e) && (b.Is(e.op, ADD) || b.Is(e.op, REMOVE))
    ensures Stuck(site, Accepted(b, b.commands[e.op], e.typ), t.sent)
  {
    forall x | b.Is(x, REMOVE) && b.commands[x].target in site.hosts
      && b.Gpus(b.commands[x].lease) == {site.hosts[b.commands[x].target]}
      ensures b.commands[x].lease != b.commands[e.op].lease
    {
      StuckElsewhere(site, b, t, e, x);
    }
    CloseStuck(site, b, Accepted(b, b.commands[e.op], e.typ), t.sent, b.commands[e.op].lease);
  }

  lemma ReleaseKeeps(site: Site, b: Book, t: Tasks, e: Evidence)
    requires Acceptable(site, b, t, e) && (b.Is(e.op, ADD) || b.Is(e.op, REMOVE))
    ensures Inv(site, Accepted(b, b.commands[e.op], e.typ), t)
  {
    var n := Accepted(b, b.commands[e.op], e.typ);
    HasBase(site, b, t, e);
    var i :| Base(b, t, e, i);
    AcceptJournal(b, t, e);
    AcceptRecords(site, b, n, t);
    AcceptAddAnswers(site, b, n, t);
    AcceptExitAnswers(site, b, n, t);
    AcceptCover(site, b, n, t);
    ReleaseLent(site, b, t, e, i);
    ReleaseReturns(site, b, t, e, i);
    ReleaseStuck(site, b, t, e);
  }

  // ---------------------------------------------------------------- ... of a RESTORE

  lemma RestoreHandoff(b: Book, e: Evidence)
    requires Facts(b) && b.Is(e.op, RESTORE)
    ensures Accepted(b, b.commands[e.op], e.typ).handoff == b.handoff
  {
    assert b.On(e.op, b.commands[e.op].lease);
  }

  lemma RestoreReturns(site: Site, b: Book, t: Tasks, e: Evidence)
    requires Acceptable(site, b, t, e) && b.Is(e.op, RESTORE)
    ensures Returns(site, Accepted(b, b.commands[e.op], e.typ))
  {
    CloseReturns(site, b, Accepted(b, b.commands[e.op], e.typ), e.op, b.commands[e.op].lease);
  }

  /** More answers on unchanged leases. */
  lemma SameLent(site: Site, b: Book, n: Book, t: Tasks)
    requires Lent(site, b, t.dead) && n.commands == b.commands && b.recorded <= n.recorded && b.handoff <= n.handoff
    ensures Lent(site, n, t.dead)
  {
  }

  lemma SameStuck(site: Site, b: Book, n: Book, sent: set<Evidence>)
    requires Stuck(site, b, sent) && n.commands == b.commands && n.leases == b.leases && b.handoff <= n.handoff
    ensures Stuck(site, n, sent)
  {
    forall x | n.Is(x, REMOVE) && n.commands[x].target in site.hosts
               && n.Gpus(n.commands[x].lease) == {site.hosts[n.commands[x].target]}
      ensures n.commands[x].lease in n.handoff && !HasSent(sent, x)
    {
      assert b.Is(x, REMOVE) && b.Gpus(b.commands[x].lease) == n.Gpus(n.commands[x].lease);
    }
  }

  lemma RestoreKeeps(site: Site, b: Book, t: Tasks, e: Evidence)
    requires Acceptable(site, b, t, e) && b.Is(e.op, RESTORE)
    ensures Inv(site, Accepted(b, b.commands[e.op], e.typ), t)
  {
    var n := Accepted(b, b.commands[e.op], e.typ);
    RestoreHandoff(b, e);
    RestoreReturns(site, b, t, e);
    SameLent(site, b, n, t);
    SameStuck(site, b, n, t.sent);
    AcceptJournal(b, t, e);
    AcceptRecords(site, b, n, t);
    AcceptAddAnswers(site, b, n, t);
    AcceptExitAnswers(site, b, n, t);
    AcceptCover(site, b, n, t);
  }

  // ---------------------------------------------------------------- steps of the ledger: new commands and leases

  /** What a fresh command may rely on: ADD and REMOVE are staged on handed-off leases, RESTORE on free claims. */
  predicate MayJoin(b: Book, c: Command) {
    && c.op !in b.commands && c.lease in b.leases
    && (c.kind in {ADD, REMOVE} ==> c.lease in b.handoff) && (c.kind == RESTORE ==> c.lease !in b.holders)
  }

  lemma StageJournal(b: Book, t: Tasks, c: Command)
    requires Journal(b, t.begun, t.resolved, t.sent) && c.op !in b.commands
    ensures Journal(StagedBook(b, c), t.begun, t.resolved, t.sent) && !HasSent(t.sent, c.op) && c.op !in t.begun
  {
  }

  lemma StageAnswers(site: Site, b: Book, t: Tasks, c: Command)
    requires AddAnswers(site, b, t.sent, t.made, t.live, t.now) && ExitAnswers(site, b, t.sent, t.dead, t.awake)
    requires c.op !in b.commands && !HasSent(t.sent, c.op)
    ensures var n := StagedBook(b, c);
      AddAnswers(site, n, t.sent, t.made, t.live, t.now) && ExitAnswers(site, n, t.sent, t.dead, t.awake)
  {
    var n := StagedBook(b, c);
    forall e | e in t.sent && n.Is(e.op, ADD) ensures Settled(site, n, t.made, t.live, t.now, e) {
      assert e.op != c.op && Settled(site, b, t.made, t.live, t.now, e);
    }
    forall e | e in t.sent && (n.Is(e.op, REMOVE) || n.Is(e.op, DONATE)) ensures Released(site, n, t.dead, t.awake, e) {
      assert e.op != c.op && Released(site, b, t.dead, t.awake, e);
      FromDeadSame(b, n, t.dead, e);
    }
  }

  lemma StageRecords(site: Site, b: Book, t: Tasks, c: Command)
    requires Records(site, b, t.begun, t.resolved, t.made, t.live, t.dead) && c.op !in b.commands
    ensures Records(site, StagedBook(b, c), t.begun, t.resolved, t.made, t.live, t.dead)
  {
  }

  lemma StageLent(site: Site, b: Book, dead: map<string, string>, c: Command)
    requires Lent(site, b, dead) && MayJoin(b, c)
    ensures Lent(site, StagedBook(b, c), dead)
  {
  }

  lemma StageStuck(site: Site, b: Book, sent: set<Evidence>, c: Command)
    requires Stuck(site, b, sent) && MayJoin(b, c) && !HasSent(sent, c.op)
    ensures Stuck(site, StagedBook(b, c), sent)
  {
    var n := StagedBook(b, c);
    forall x | n.Is(x, REMOVE) && n.commands[x].target in site.hosts
               && n.Gpus(n.commands[x].lease) == {site.hosts[n.commands[x].target]}
      ensures n.commands[x].lease in n.handoff && !HasSent(sent, x)
    {
      assert x == c.op || (b.Is(x, REMOVE) && b.Gpus(b.commands[x].lease) == n.Gpus(n.commands[x].lease));
    }
  }

  lemma StageReturns(site: Site, b: Book, c: Command)
    requires Keyed(b) && Returns(site, b) && MayJoin(b, c)
    ensures Returns(site, StagedBook(b, c))
  {
    var n := StagedBook(b, c);
    forall d | n.Is(d, DONATE) && d in n.recorded
      ensures n.commands[d].target in site.hosts && n.Gpus(n.commands[d].lease) == {site.hosts[n.commands[d].target]}
    {
      StagedDonate(site, b, c, d);
    }
    forall r, q | n.Is(r, RESTORE) && n.Is(q, RESTORE) && r !in n.recorded && q !in n.recorded
      && n.commands[r].lease == n.commands[q].lease
      ensures r == q
    {
      StagedRestores(site, b, c, r, q);
    }
  }

  lemma StagedDonate(site: Site, b: Book, c: Command, d: string)
    requires Keyed(b) && Returns(site, b) && MayJoin(b, c) && StagedBook(b, c).Is(d, DONATE) && d in b.recorded
    ensures b.Is(d, DONATE) && b.commands[d] == StagedBook(b, c).commands[d]
    ensures StagedBook(b, c).Gpus(b.commands[d].lease) == {site.hosts[b.commands[d].target]}
  {
    assert d != c.op;
  }

  /** A second RESTORE of a lease is staged only after the first was answered and gave the claims back. */
  lemma StagedRestores(site: Site, b: Book, c: Command, r: string, q: string)
    requires Returns(site, b) && MayJoin(b, c) && StagedBook(b, c).Is(r, RESTORE) && StagedBook(b, c).Is(q, RESTORE)
    requires r !in b.recorded && q !in b.recorded
             && StagedBook(b, c).commands[r].lease == StagedBook(b, c).commands[q].lease
    ensures r == q
  {
    assert r != c.op ==> b.Is(r, RESTORE);
    assert q != c.op ==> b.Is(q, RESTORE);
  }

  lemma StageCover(site: Site, b: Book, t: Tasks, c: Command)
    requires Waking(site, b, t.begun, t.resolved) && Asleep(site, b, t.awake) && c.op !in t.begun
    ensures var n := StagedBook(b, c); Waking(site, n, t.begun, t.resolved) && Asleep(site, n, t.awake)
  {
    forall g ensures Covered(StagedBook(b, c), g) == Covered(b, g) { SameCover(b, StagedBook(b, c), g); }
  }

  lemma SameCover(b: Book, n: Book, g: string)
    requires n.leases == b.leases && n.handoff == b.handoff
    ensures Covered(n, g) == Covered(b, g)
  {
    if Covered(n, g) { CoverShrinks(b, n, g); }
    if Covered(b, g) { CoverShrinks(n, b, g); }
  }

  lemma StageKeeps(site: Site, b: Book, t: Tasks, c: Command)
    requires Facts(b) && Inv(site, b, t) && MayJoin(b, c)
    ensures Inv(site, StagedBook(b, c), t)
  {
    StageJournal(b, t, c);
    StageAnswers(site, b, t, c);
    StageRecords(site, b, t, c);
    StageLent(site, b, t.dead, c);
    StageReturns(site, b, c);
    StageStuck(site, b, t.sent, c);
    StageCover(site, b, t, c);
  }

  lemma OpenGpus(b: Book, s: LeaseData, i: string)
    requires s.id !in b.leases && i in b.leases
    ensures OpenedBook(b, s).Gpus(i) == b.Gpus(i)
  {
  }

  lemma OpenAnswers(site: Site, b: Book, t: Tasks, s: LeaseData)
    requires Facts(b) && Inv(site, b, t) && s.id !in b.leases
    ensures var n := OpenedBook(b, s);
      AddAnswers(site, n, t.sent, t.made, t.live, t.now) && ExitAnswers(site, n, t.sent, t.dead, t.awake)
  {
    var n := OpenedBook(b, s);
    forall e | e in t.sent && n.Is(e.op, ADD) ensures Settled(site, n, t.made, t.live, t.now, e) {
      assert Settled(site, b, t.made, t.live, t.now, e);
      OpenGpus(b, s, b.commands[e.op].lease);
    }
    forall e | e in t.sent && (n.Is(e.op, REMOVE) || n.Is(e.op, DONATE)) ensures Released(site, n, t.dead, t.awake, e) {
      assert Released(site, b, t.dead, t.awake, e);
      if FromDead(b, t.dead, e) { OpenFromDead(site, b, t, s, e); }
    }
  }

  lemma OpenFromDead(site: Site, b: Book, t: Tasks, s: LeaseData, e: Evidence)
    requires Keyed(b) && Records(site, b, t.begun, t.resolved, t.made, t.live, t.dead) && s.id !in b.leases
             && FromDead(b, t.dead, e)
    ensures FromDead(OpenedBook(b, s), t.dead, e)
  {
    var i :| i in t.dead && t.dead[i] == e.op && Elements(e.gpus) == b.Gpus(i);
    assert b.On(t.made[i].op, i);
    OpenGpus(b, s, i);
  }

  lemma OpenReturns(site: Site, b: Book, s: LeaseData)
    requires Keyed(b) && Returns(site, b) && s.id !in b.leases
    ensures Returns(site, OpenedBook(b, s))
  {
    var n := OpenedBook(b, s);
    forall d | n.Is(d, DONATE) && d in n.recorded
      ensures n.commands[d].target in site.hosts && n.Gpus(n.commands[d].lease) == {site.hosts[n.commands[d].target]}
    {
      assert b.Is(d, DONATE);
      OpenGpus(b, s, b.commands[d].lease);
    }
  }

  lemma OpenStuck(site: Site, b: Book, sent: set<Evidence>, s: LeaseData)
    requires Keyed(b) && Stuck(site, b, sent) && s.id !in b.leases
    ensures Stuck(site, OpenedBook(b, s), sent)
  {
    var n := OpenedBook(b, s);
    forall x | n.Is(x, REMOVE) && n.commands[x].target in site.hosts
               && n.Gpus(n.commands[x].lease) == {site.hosts[n.commands[x].target]}
      ensures n.commands[x].lease in n.handoff && !HasSent(sent, x)
    {
      assert b.Is(x, REMOVE);
      OpenGpus(b, s, b.commands[x].lease);
    }
  }

  lemma OpenCover(site: Site, b: Book, t: Tasks, s: LeaseData)
    requires Keyed(b) && Waking(site, b, t.begun, t.resolved) && Asleep(site, b, t.awake) && s.id !in b.leases
    ensures var n := OpenedBook(b, s); Waking(site, n, t.begun, t.resolved) && Asleep(site, n, t.awake)
  {
    var n := OpenedBook(b, s);
    forall g | Covered(n, g) ensures Covered(b, g) {
      var i :| i in n.handoff && g in n.Gpus(i);
      OpenGpus(b, s, i);
    }
  }

  lemma OpenKeeps(site: Site, b: Book, t: Tasks, s: LeaseData)
    requires Facts(b) && Inv(site, b, t) && s.id !in b.leases
    ensures Inv(site, OpenedBook(b, s), t)
  {
    var n := OpenedBook(b, s);
    OpenAnswers(site, b, t, s);
    OpenReturns(site, b, s);
    OpenStuck(site, b, t.sent, s);
    OpenCover(site, b, t, s);
    AcceptRecords(site, b, n, t);
    SameLent(site, b, n, t);
    assert Journal(n, t.begun, t.resolved, t.sent);
  }
}
