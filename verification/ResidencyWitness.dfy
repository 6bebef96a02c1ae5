/**
 * One lending from end to end: the hypotheses of the residency theorems are met while a borrowed runtime is really
 * live.
 */
module ResidencyWitness {
  import opened Contracts
  import L = LeaseLedger
  import opened LedgerWitness
  import opened Residency
  import ResidencyBook
  import ResidencyProof
  import ResidencySafety

  const SITE := Site(map[DONOR := "g"], {})
  const NATIVE_ONLY := Tasks({}, {}, {}, map[], {}, map[], {DONOR}, 0.0)

  const OFFERED := OPENED.(commands := map["d1" := DONATE1])
  const LENT := OFFERED.(handoff := {"l"}, history := map["l" := ["d1"]],
                         evidence := map[("l", "d1") := ReleasedBy("d1")])
  const BORROWED_BY := LENT.(commands := map["d1" := DONATE1, "a" := ADD1], borrower := map["l" := BORROWER])

  const ASLEEP := NATIVE_ONLY.(begun := {"d1"}, awake := {}, sent := {ReleasedBy("d1")})
  const RUNNING := ASLEEP.(begun := {"d1", "a"}, made := map["l" := Made("a", BORROWER)], live := {"l"})
  const GONE := RUNNING.(live := {}, dead := map["l" := "a"], sent := {ReleasedBy("d1"), ReleasedBy("a")})

  /** The lease is opened; the native donates, sleeps and says so, ... */
  const OFFER := [WLedger(L.EAttach("d", "x")), WLedger(L.EAttach("b", "y")), WLedger(L.EOpen(LEASE)),
                  WLedger(L.ESubmit(DONATE1, NOW)), WBegin("d1"), WExit("d1", 0)]
  /** ... the ledger learns of it, and an ADD builds its runtime, ... */
  const BORROW := [WDeliver(ReleasedBy("d1")), WLedger(L.ESubmit(ADD1, NOW)), WBegin("a"), WCreate("a", true)]
  /** ... and destroys it again. */
  const RETURN := [WDestroy("a", "l", 0, ["g"])]

  lemma {:induction false} RunConcat(site: Site, w: World, es: seq<Event>, fs: seq<Event>)
    ensures Run(site, w, es + fs) == Run(site, Run(site, w, es), fs)
  {
    hide Step;
    if fs == [] {
      assert es + fs == es;
    } else {
      RunConcat(site, w, es, fs[..|fs| - 1]);
      assert (es + fs)[..|es + fs| - 1] == es + fs[..|fs| - 1];
    }
  }

  lemma RunOne(site: Site, w: World, e: Event)
    ensures Run(site, w, [e]) == Step(site, w, e)
  {
    assert [e][..0] == [];
  }

  lemma RunTwo(site: Site, w: World, d: Event, e: Event)
    ensures Run(site, w, [d, e]) == Step(site, Step(site, w, d), e)
  {
    hide Step;
    RunOne(site, w, d);
    RunOne(site, Step(site, w, d), e);
    RunConcat(site, w, [d], [e]);
    assert [d] + [e] == [d, e];
  }

  lemma RunFour(site: Site, w: World, c: Event, d: Event, e: Event, f: Event)
    ensures Run(site, w, [c, d, e, f]) == Step(site, Step(site, Step(site, Step(site, w, c), d), e), f)
  {
    hide Step;
    RunTwo(site, w, c, d);
    RunTwo(site, Step(site, Step(site, w, c), d), e, f);
    RunConcat(site, w, [c, d], [e, f]);
    assert [c, d] + [e, f] == [c, d, e, f];
  }

  // ---------------------------------------------------------------- the ledger's steps

  lemma Attached()
    ensures L.Step(L.Step(L.EMPTY, L.EAttach("d", "x")), L.EAttach("b", "y")) == L.EMPTY.(runners := RUNNERS)
  {
    Attaching();
    LedgerWitness.RunPair(L.EMPTY, L.EAttach("d", "x"), L.EAttach("b", "y"));
    hide L.Step;
  }

  lemma Offered()
    ensures L.Step(OPENED, L.ESubmit(DONATE1, NOW)) == OFFERED
  {
    assert L.TargetsDonor(DONOR, LEASE);
    assert L.MayStage(OPENED, DONATE1, NOW);
    L.SubmitStep(OPENED, DONATE1, NOW);
    hide L.Step;
    assert L.Stage(OPENED, DONATE1) == OFFERED;
  }

  lemma Lent()
    ensures L.Step(OFFERED, L.EAdvance("l", ReleasedBy("d1"))) == LENT
  {
    LeaseSets();
    assert L.Covers(ReleasedBy("d1"), LEASE) by { assert "g" in Elements(["g"]); }
    L.AdvanceStep(OFFERED, "l", ReleasedBy("d1"));
    hide L.Step;
    hide L.Covers;
    assert [] + ["d1"] == ["d1"];
    assert L.Advanced(OFFERED, DONATE1, ReleasedBy("d1")) == LENT;
  }

  lemma Borrowing()
    ensures L.Step(LENT, L.ESubmit(ADD1, NOW)) == BORROWED_BY
  {
    assert L.MayStage(LENT, ADD1, NOW);
    L.SubmitStep(LENT, ADD1, NOW);
    hide L.Step;
    assert L.Stage(LENT, ADD1) == BORROWED_BY;
  }

  // ---------------------------------------------------------------- the tasks' steps

  lemma Sleeps()
    ensures Step(SITE, Step(SITE, World(OFFERED, NATIVE_ONLY), WBegin("d1")), WExit("d1", 0)) == World(OFFERED, ASLEEP)
  {
    var begun := NATIVE_ONLY.(begun := {"d1"});
    assert MayBegin(World(OFFERED, NATIVE_ONLY), "d1");
    assert Step(SITE, World(OFFERED, NATIVE_ONLY), WBegin("d1")) == World(OFFERED, begun) by {
      assert NATIVE_ONLY.begun + {"d1"} == {"d1"};
    }
    assert MaySleep(SITE, World(OFFERED, begun), "d1");
    assert begun.awake - {DONOR} == {} && begun.sent + {ReleasedBy("d1")} == {ReleasedBy("d1")};
  }

  lemma Creates()
    ensures Step(SITE, Step(SITE, World(BORROWED_BY, ASLEEP), WBegin("a")), WCreate("a", true)) == World(BORROWED_BY,
        RUNNING)
  {
    var begun := ASLEEP.(begun := {"d1", "a"});
    assert MayBegin(World(BORROWED_BY, ASLEEP), "a");
    assert Step(SITE, World(BORROWED_BY, ASLEEP), WBegin("a")) == World(BORROWED_BY, begun) by {
      assert ASLEEP.begun + {"a"} == {"d1", "a"};
    }
    assert Creatable(SITE, begun.made, begun.now, LEASE, BORROWER);
    assert begun.live + {"l"} == {"l"};
  }

  lemma Destroys()
    ensures Step(SITE, World(BORROWED_BY, RUNNING), WDestroy("a", "l", 0, ["g"])) == World(BORROWED_BY, GONE)
  {
    LeaseSets();
    assert Elements(["g"]) == LEASE.Gpus() by { assert "g" in Elements(["g"]); }
    assert MayDestroy(World(BORROWED_BY, RUNNING), "a", "l", ["g"]);
    assert RUNNING.live - {"l"} == {};
    assert RUNNING.sent + {ReleasedBy("a")} == {ReleasedBy("d1"), ReleasedBy("a")};
  }

  // ---------------------------------------------------------------- the runs

  lemma Offers()
    ensures Run(SITE, Start(SITE), OFFER) == World(OFFERED, ASLEEP)
  {
    hide Run;
    hide L.Step;
    var w := Start(SITE);
    assert w == World(L.EMPTY, NATIVE_ONLY);
    RunFour(SITE, w, OFFER[0], OFFER[1], OFFER[2], OFFER[3]);
    Attached();
    OpensLease();
    Offered();
    RunTwo(SITE, World(OFFERED, NATIVE_ONLY), WBegin("d1"), WExit("d1", 0));
    Sleeps();
    RunConcat(SITE, w, [OFFER[0], OFFER[1], OFFER[2], OFFER[3]], [OFFER[4], OFFER[5]]);
    assert OFFER == [OFFER[0], OFFER[1], OFFER[2], OFFER[3]] + [OFFER[4], OFFER[5]];
  }

  lemma Borrows()
    ensures Run(SITE, World(OFFERED, ASLEEP), BORROW) == World(BORROWED_BY, RUNNING)
  {
    hide Run;
    hide L.Step;
    var w := World(OFFERED, ASLEEP);
    RunFour(SITE, w, BORROW[0], BORROW[1], BORROW[2], BORROW[3]);
    Lent();
    Borrowing();
    assert Step(SITE, w, BORROW[0]) == World(LENT, ASLEEP);
    assert Step(SITE, World(LENT, ASLEEP), BORROW[1]) == World(BORROWED_BY, ASLEEP);
    hide Step;
    Creates();
  }

  lemma OneDonate()
    ensures SITE.OnePerGpu() && L.OneDonatePerLease(OFFERED) && L.OneDonatePerLease(BORROWED_BY)
  {
    forall o | o in BORROWED_BY.commands && BORROWED_BY.commands[o].kind == DONATE ensures o == "d1" {
      assert o == "d1" || o == "a";
    }
  }

  lemma LiveOnG()
    ensures var w := World(BORROWED_BY, RUNNING);
      Residency.Borrowed(w, "g") && !NativeAwake(SITE, w, "g") && w.t.Active("a") && !Recorded(w.l, "a")
  {
    LeaseSets();
    assert "l" in RUNNING.live && "g" in BORROWED_BY.leases["l"].Gpus();
  }

  /**
   * A borrowed runtime is live on the accelerator of a sleeping native, with every hypothesis of SingleResidency met.
   */
  lemma {:induction false} LendingHappens()
    ensures var w := Run(SITE, Start(SITE), OFFER + BORROW);
      && SITE.OnePerGpu() && L.OneDonatePerLease(w.l) && ResidencySafety.Sound(SITE, w)
      && Residency.Borrowed(w, "g") && !NativeAwake(SITE, w, "g") && w.t.Active("a") && !Recorded(w.l, "a")
  {
    hide Run;
    hide L.OneDonatePerLease;
    hide ResidencySafety.Sound;
    Offers();
    Borrows();
    RunConcat(SITE, Start(SITE), OFFER, BORROW);
    OneDonate();
    ResidencySafety.RunSound(SITE, OFFER + BORROW);
    LiveOnG();
  }

  /** What a reached world needs for evidence on its way to be acceptable. */
  lemma ReachedAcceptable(site: Site, es: seq<Event>, e: Evidence)
    requires site.OnePerGpu() && L.OneDonatePerLease(Run(site, Start(site), es).l)
    requires var w := Run(site, Start(site), es);
      && e in w.t.sent && e.op in w.l.commands && !Recorded(w.l, e.op) && w.l.commands[e.op].lease in w.l.leases
      && Elements(e.gpus) == w.l.leases[w.l.commands[e.op].lease].Gpus()
    ensures var w := Run(site, Start(site), es); ResidencyProof.Acceptable(site, ResidencyBook.BookOf(w.l), w.t, e)
  {
    ResidencySafety.RunSound(site, es);
    ResidencyBook.FactsHold(Run(site, Start(site), es).l);
    hide Run;
    hide L.Inv;
    hide L.Phases;
    hide ResidencyProof.Inv;
    hide ResidencyBook.Facts;
  }

  lemma OnTheWay()
    ensures Elements(["g"]) == LEASE.Gpus() && LEASE == OFFERED.leases["l"] == BORROWED_BY.leases["l"]
    ensures !Recorded(OFFERED, "d1") && !Recorded(BORROWED_BY, "a")
  {
    LeaseSets();
    assert "g" in Elements(["g"]);
  }

  /** Evidence on its way: DONATE's before it is delivered, and ADD's once its runtime is destroyed. */
  lemma {:induction false} EvidenceIsAcceptable()
    ensures var w := Run(SITE, Start(SITE), OFFER);
      ResidencyProof.Acceptable(SITE, ResidencyBook.BookOf(w.l), w.t, ReleasedBy("d1"))
    ensures var w := Run(SITE, Start(SITE), OFFER + BORROW + RETURN);
      ResidencyProof.Acceptable(SITE, ResidencyBook.BookOf(w.l), w.t, ReleasedBy("a"))
  {
    hide Run;
    hide L.OneDonatePerLease;
    hide ResidencyProof.Acceptable;
    OneDonate();
    OnTheWay();
    Offers();
    ReachedAcceptable(SITE, OFFER, ReleasedBy("d1"));
    Borrows();
    RunConcat(SITE, Start(SITE), OFFER, BORROW);
    RunConcat(SITE, Start(SITE), OFFER + BORROW, RETURN);
    RunOne(SITE, World(BORROWED_BY, RUNNING), RETURN[0]);
    Destroys();
    ReachedAcceptable(SITE, OFFER + BORROW + RETURN, ReleasedBy("a"));
  }
}
