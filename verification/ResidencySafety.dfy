/** Single residency over every run of all tasks. */
module ResidencySafety {
  import opened Contracts
  import L = LeaseLedger
  import opened ResidencyBook
  import opened Residency
  import opened ResidencyProof

  ghost predicate Sound(site: Site, w: World) {
    L.Inv(w.l) && L.Phases(w.l) && Inv(site, BookOf(w.l), w.t)
  }

  // ---------------------------------------------------------------- tasks

  lemma BeginSound(site: Site, w: World, o: string)
    requires Sound(site, w) && Facts(BookOf(w.l)) && MayBegin(w, o)
    ensures Inv(site, BookOf(w.l), w.t.(begun := w.t.begun + {o}))
  {
    var b := BookOf(w.l);
    forall p | p in b.commands && ActiveIn(w.t.begun, w.t.resolved, p)
      ensures b.commands[p].target.session != b.commands[o].target.session
    {
      assert w.t.Active(p);
    }
    BeginKeeps(site, b, w.t, o);
  }

  lemma CreateSound(site: Site, w: World, o: string, up: bool)
    requires Sound(site, w) && Facts(BookOf(w.l))
    ensures Inv(site, BookOf(w.l), Create(site, w, o, up))
  {
    if Works(w, o, ADD) {
      var c := w.l.commands[o];
      if Creatable(site, w.t.made, w.t.now, w.l.leases[c.lease], c.target) && w.l.leases[c.lease].id == c.lease {
        CreateKeeps(site, BookOf(w.l), w.t, o, c.lease, up);
      }
    }
  }

  lemma AbsentSound(site: Site, w: World, o: string, stamp: nat, gpus: seq<string>)
    requires Sound(site, w) && MayAnswerAbsent(site, w, o, gpus)
    ensures Inv(site, BookOf(w.l), w.t.(sent := w.t.sent + {Evidence(o, RELEASE_PROVED, stamp, gpus)}))
  {
    AbsentKeeps(site, BookOf(w.l), w.t, Evidence(o, RELEASE_PROVED, stamp, gpus));
  }

  lemma DestroySound(site: Site, w: World, o: string, base: string, stamp: nat, gpus: seq<string>)
    requires Sound(site, w) && Facts(BookOf(w.l)) && MayDestroy(w, o, base, gpus)
    ensures Inv(site, BookOf(w.l), Destroy(w.t, o, base, Evidence(o, RELEASE_PROVED, stamp, gpus)))
  {
    DestroyKeeps(site, BookOf(w.l), w.t, o, base, Evidence(o, RELEASE_PROVED, stamp, gpus));
  }

  lemma ExitFacts(site: Site, w: World, o: string, e: Evidence)
    requires MaySleep(site, w, o) && e.op == o && e.gpus == [site.hosts[Target(w, o)]]
    ensures FromNative(site, BookOf(w.l), e) && w.t.Active(o) && !BookOf(w.l).Is(o, ADD)
    ensures BookOf(w.l).Is(o, REMOVE) ==> Target(w, o) in w.t.awake || HasSent(w.t.sent, o)
  {
    assert Elements(e.gpus) == {site.hosts[Target(w, o)]};
    assert w.t.Sent(o) ==> HasSent(w.t.sent, o);
  }

  lemma ExitSound(site: Site, w: World, o: string, e: Evidence)
    requires Inv(site, BookOf(w.l), w.t) && Facts(BookOf(w.l)) && MaySleep(site, w, o)
    requires e.op == o && e.gpus == [site.hosts[Target(w, o)]]
    ensures Inv(site, BookOf(w.l), w.t.(awake := w.t.awake - {Target(w, o)}, sent := w.t.sent + {e}))
  {
    ExitFacts(site, w, o, e);
    ExitKeeps(site, BookOf(w.l), w.t, e);
  }

  lemma ResolveSound(site: Site, w: World, o: string)
    requires Sound(site, w) && MayResolve(w, o)
    ensures Inv(site, BookOf(w.l), w.t.(resolved := w.t.resolved + {o}))
  {
    assert HasSent(w.t.sent, o) ==> w.t.Sent(o);
    ResolveKeeps(site, BookOf(w.l), w.t, o);
  }

  lemma WorkSound(site: Site, w: World, e: Event)
    requires Sound(site, w) && Facts(BookOf(w.l))
    ensures Inv(site, BookOf(w.l), Work(site, w, e))
  {
    hide Inv;
    hide Facts;
    hide L.Inv;
    hide L.Phases;
    hide MayBegin;
    hide MayAnswerAbsent;
    hide MayDestroy;
    hide MayResolve;
    hide Create;
    match e
    case WBegin(o) => if MayBegin(w, o) { BeginSound(site, w, o); }
    case WCreate(o, up) => CreateSound(site, w, o, up);
    case WAbsent(o, stamp, gpus) => if MayAnswerAbsent(site, w, o, gpus) { AbsentSound(site, w, o, stamp, gpus); }
    case WDestroy(o, base, stamp, gpus) =>
      if MayDestroy(w, o, base, gpus) { DestroySound(site, w, o, base, stamp, gpus); }
    case WExit(o, stamp) =>
      if MaySleep(site, w, o) { ExitSound(site, w, o, Evidence(o, RELEASE_PROVED, stamp, [site.hosts[Target(w, o)]])); }
    case WWake(o) => if Works(w, o, RESTORE) && Target(w, o) in site.hosts { WakeKeeps(site, BookOf(w.l), w.t, o); }
    case WSleep(o) => if Works(w, o, RESTORE) { SleepKeeps(site, BookOf(w.l), w.t, Target(w, o)); }
    case WRestored(ev) => if Works(w, ev.op, RESTORE) { RestoredKeeps(site, BookOf(w.l), w.t, ev); }
    case WResolve(o) => if MayResolve(w, o) { ResolveSound(site, w, o); }
    case WTick(delta) => if delta >= 0.0 { TickKeeps(site, BookOf(w.l), w.t, w.t.now + delta); }
    case _ =>
  }

  // ---------------------------------------------------------------- the ledger

  lemma Delivered(l: L.Ledger, e: Evidence)
    requires L.Inv(l) && e.op in l.commands
    ensures var n := L.Step(l, L.EAdvance(l.commands[e.op].lease, e));
      if L.Advances(l, l.commands[e.op].lease, e) then BookOf(n) == Accepted(BookOf(l), l.commands[e.op], e.typ)
      else n == l
  {
    L.AdvanceStep(l, l.commands[e.op].lease, e);
    if L.Advances(l, l.commands[e.op].lease, e) { AdvanceBook(l, l.commands[e.op], e); }
  }

  lemma FreshCovers(l: L.Ledger, e: Evidence)
    requires e.op in l.commands && L.Advances(l, l.commands[e.op].lease, e)
    ensures e.op !in BookOf(l).recorded
    ensures l.commands[e.op].kind != RESTORE ==> Elements(e.gpus) == BookOf(l).Gpus(l.commands[e.op].lease)
  {
  }

  lemma AcceptedKeeps(site: Site, b: Book, t: Tasks, e: Evidence)
    requires Acceptable(site, b, t, e) && site.OnePerGpu()
    ensures Inv(site, Accepted(b, b.commands[e.op], e.typ), t)
  {
    match b.commands[e.op].kind
    case DONATE => DonateKeeps(site, b, t, e);
    case RESTORE => RestoreKeeps(site, b, t, e);
    case _ => ReleaseKeeps(site, b, t, e);
  }

  lemma DeliverSound(site: Site, l: L.Ledger, t: Tasks, e: Evidence)
    requires L.Inv(l) && Inv(site, BookOf(l), t) && Facts(BookOf(l)) && site.OnePerGpu() && e in t.sent
             && e.op in l.commands
    ensures Inv(site, BookOf(L.Step(l, L.EAdvance(l.commands[e.op].lease, e))), t)
  {
    Delivered(l, e);
    if L.Advances(l, l.commands[e.op].lease, e) {
      FreshCovers(l, e);
      AcceptedKeeps(site, BookOf(l), t, e);
    }
  }

  lemma SubmitSound(site: Site, w: World, c: Command, now: L.Clock)
    requires Sound(site, w) && Facts(BookOf(w.l)) && L.Submit(w.l, c, now).Ok?
    ensures Inv(site, BookOf(L.Submit(w.l, c, now).value), w.t)
  {
    hide Inv;
    hide L.Phases;
    if c.op !in w.l.commands {
      if c.kind == RESTORE { L.UnownedHoldsNothing(w.l, c.lease); }
      StageBook(w.l, c, now);
      StageKeeps(site, BookOf(w.l), w.t, c);
    }
  }

  lemma OpenSound(site: Site, w: World, s: LeaseData)
    requires L.Inv(w.l) && Inv(site, BookOf(w.l), w.t) && Facts(BookOf(w.l)) && L.Open(w.l, s).Ok?
    ensures Inv(site, BookOf(L.Open(w.l, s).value), w.t)
  {
    if s.id !in w.l.leases {
      OpenBook(w.l, s);
      OpenKeeps(site, BookOf(w.l), w.t, s);
    }
  }

  lemma LedgerSound(site: Site, w: World, call: L.Event)
    requires Sound(site, w) && Facts(BookOf(w.l)) && !call.EAdvance?
    ensures Inv(site, BookOf(L.Step(w.l, call)), w.t)
  {
    match call
    case EOpen(s) => if L.Open(w.l, s).Ok? { OpenSound(site, w, s); }
    case ESubmit(c, now) => if L.Submit(w.l, c, now).Ok? { SubmitSound(site, w, c, now); }
    case _ => QuietBook(w.l, call);
  }

  lemma QuietBook(l: L.Ledger, call: L.Event)
    requires L.Conserved(l) && (call.EAttach? || call.EDetach? || call.EIdle?)
    ensures BookOf(L.Step(l, call)) == BookOf(l)
  {
    hide L.Step;
    hide L.Conserved;
    L.QuietStep(l, call);
    SameBook(l, L.Step(l, call));
  }

  lemma SameBook(l: L.Ledger, n: L.Ledger)
    requires L.Conserved(l) && n.leases == l.leases && n.commands == l.commands && n.evidence == l.evidence
             && n.handoff == l.handoff
    requires n.gpuOwner == l.gpuOwner && n.bundleOwner == l.bundleOwner
    ensures BookOf(n) == BookOf(l)
  {
    L.Untouched(l, n);
  }

  lemma LedgerRules(w: World, call: L.Event)
    requires L.Inv(w.l) && L.Phases(w.l) && L.OneDonatePerLease(w.l)
    ensures L.Inv(L.Step(w.l, call)) && L.Phases(L.Step(w.l, call))
  {
    L.StepKeepsInv(w.l, call);
    L.StepKeepsPhases(w.l, call);
  }

  lemma CallSound(site: Site, w: World, call: L.Event)
    requires Sound(site, w) && Facts(BookOf(w.l)) && L.OneDonatePerLease(w.l)
    ensures Sound(site, Call(w, call))
  {
    if !call.EAdvance? {
      LedgerSound(site, w, call);
      LedgerRules(w, call);
    }
  }

  lemma MessageSound(site: Site, w: World, e: Evidence)
    requires Sound(site, w) && Facts(BookOf(w.l)) && L.OneDonatePerLease(w.l) && site.OnePerGpu()
    ensures Sound(site, Deliver(w, e))
  {
    if e in w.t.sent && e.op in w.l.commands {
      DeliverSound(site, w.l, w.t, e);
      LedgerRules(w, L.EAdvance(w.l.commands[e.op].lease, e));
    }
  }

  lemma TaskSound(site: Site, w: World, e: Event)
    requires Sound(site, w) && Facts(BookOf(w.l))
    ensures Sound(site, w.(t := Work(site, w, e)))
  {
    WorkSound(site, w, e);
  }

  lemma StepSound(site: Site, w: World, e: Event)
    requires Sound(site, w) && site.OnePerGpu() && L.OneDonatePerLease(w.l)
    ensures Sound(site, Step(site, w, e))
  {
    FactsHold(w.l);
    if e.WLedger? {
      CallSound(site, w, e.call);
    } else if e.WDeliver? {
      MessageSound(site, w, e.ev);
    } else {
      TaskSound(site, w, e);
    }
  }

  lemma EmptyBook(site: Site, b: Book, t: Tasks)
    requires b.commands == map[] && b.handoff == {} && b.recorded == {}
    requires t.begun == {} && t.sent == {} && t.made == map[] && t.live == {} && t.dead == map[]
    ensures Inv(site, b, t)
  {
    forall g ensures !Covered(b, g) { }
  }

  lemma StartSound(site: Site)
    ensures Sound(site, Start(site))
  {
    L.RunKeepsInv(L.EMPTY, []);
    assert L.Phases(L.EMPTY);
    EmptyBook(site, BookOf(L.EMPTY), Start(site).t);
    hide Inv;
    hide L.Inv;
    hide L.Phases;
  }

  lemma LedgerGrows(site: Site, w: World, e: Event)
    ensures L.Grows(w.l, Step(site, w, e).l)
  {
    if e.WLedger? {
      L.StepGrows(w.l, e.call);
    } else if e.WDeliver? && e.ev.op in w.l.commands {
      L.StepGrows(w.l, L.EAdvance(w.l.commands[e.ev.op].lease, e.ev));
    }
  }

  lemma {:induction false} RunSound(site: Site, es: seq<Event>)
    requires site.OnePerGpu() && L.OneDonatePerLease(Run(site, Start(site), es).l)
    ensures Sound(site, Run(site, Start(site), es))
  {
    if es == [] {
      StartSound(site);
    } else {
      var w := Run(site, Start(site), es[..|es| - 1]);
      LedgerGrows(site, w, es[|es| - 1]);
      RunSound(site, es[..|es| - 1]);
      StepSound(site, w, es[|es| - 1]);
    }
  }

  // ---------------------------------------------------------------- theorems

  /**
   * Single residency: in every run of any number of tasks, with lost and repeated messages, UNKNOWN outcomes,
   * rollbacks and replays, no accelerator hosts an awake native and a live borrowed runtime at once.
   */
  lemma {:induction false} SingleResidency(site: Site, es: seq<Event>, gpu: string)
    requires site.OnePerGpu() && L.OneDonatePerLease(Run(site, Start(site), es).l)
    ensures var w := Run(site, Start(site), es); !(Borrowed(w, gpu) && NativeAwake(site, w, gpu))
  {
    RunSound(site, es);
    var w := Run(site, Start(site), es);
    forall i | i in w.t.live && i in w.l.leases && gpu in w.l.leases[i].Gpus() ensures Covered(BookOf(w.l), gpu) {
      LiveIsLent(site, BookOf(w.l), w.t, i);
    }
  }

  /** ... nor two live borrowed runtimes, and each live one runs on a handed-off lease that owns all it claims. */
  lemma {:induction false} OneBorrowerPerGpu(site: Site, es: seq<Event>, i: string, j: string, gpu: string)
    requires site.OnePerGpu() && L.OneDonatePerLease(Run(site, Start(site), es).l)
    requires var w := Run(site, Start(site), es);
      i in w.t.live && j in w.t.live && i in w.l.leases && j in w.l.leases && gpu in w.l.leases[i].Gpus()
        && gpu in w.l.leases[j].Gpus()
    ensures var w := Run(site, Start(site), es); i == j && i in w.l.handoff && w.l.Holds(i)
  {
    RunSound(site, es);
    var w := Run(site, Start(site), es);
    FactsHold(w.l);
    LiveIsLent(site, BookOf(w.l), w.t, i);
    LiveIsLent(site, BookOf(w.l), w.t, j);
  }
}
