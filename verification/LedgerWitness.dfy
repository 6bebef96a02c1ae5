/** A concrete run showing that "at most one DONATE per lease" cannot be dropped. */
module LedgerWitness {
  import opened Contracts
  import opened LeaseLedger

  const LEASE := LeaseData("l", [Claim("c", "s", "d", 0, "p", 0, "n", "g")], 0.0)
  const DONOR := NativeKey("d", 0)
  const BORROWER := ReplicaKey("b", "borrowed", 0)
  const DONATE1 := Command("d1", DONATE, DONOR, "l", false)
  const DONATE2 := Command("d2", DONATE, DONOR, "l", false)
  const ADD1 := Command("a", ADD, BORROWER, "l", false)
  const NOW := Clock(0.0, 0.0)

  function ReleasedBy(op: string): Evidence { Evidence(op, RELEASE_PROVED, 0, ["g"]) }

  /** DONATE twice, prove the first, ADD, roll the ADD back, then prove the second DONATE. */
  const SETUP := [EAttach("d", "x"), EAttach("b", "y"), EOpen(LEASE)]
  const DONATES := [ESubmit(DONATE1, NOW), ESubmit(DONATE2, NOW)]
  const LENDING := [EAdvance("l", ReleasedBy("d1")), ESubmit(ADD1, NOW)]
  const UNDOING := [EAdvance("l", ReleasedBy("a")), EAdvance("l", ReleasedBy("d2"))]

  const RUNNERS := map["d" := "x", "b" := "y"]
  const OPENED := Ledger(RUNNERS, map[], map["l" := LEASE], map[], map[], map[], map["l" := []], {},
                         map["c" := "l"], map[("p", 0) := "l"], map["g" := "l"])
  const DONATING := OPENED.(commands := map["d1" := DONATE1, "d2" := DONATE2])
  const HANDED := DONATING.(handoff := {"l"}, history := map["l" := ["d1"]],
                            evidence := map[("l", "d1") := ReleasedBy("d1")])
  const ADDING := HANDED.(commands := map["d1" := DONATE1, "d2" := DONATE2, "a" := ADD1],
                          borrower := map["l" := BORROWER])
  const ROLLED_BACK := ADDING.(handoff := {}, borrower := map[], bundleOwner := map[], gpuOwner := map[],
                               history := map["l" := ["d1", "a"]],
                               evidence := map[("l", "d1") := ReleasedBy("d1"), ("l", "a") := ReleasedBy("a")])

  lemma LeaseSets()
    ensures LEASE.Gpus() == {"g"} && LEASE.Bundles() == {("p", 0)} && LEASE.ClaimIds() == {"c"}
  {
    var c := Claim("c", "s", "d", 0, "p", 0, "n", "g");
    assert LEASE.claims == [c] && c in LEASE.claims;
    assert c.gpu in LEASE.Gpus() && c.BundleKey() in LEASE.Bundles() && c.id in LEASE.ClaimIds();
  }

  lemma RunOne(l: Ledger, e: Event)
    ensures Run(l, [e]) == Step(l, e)
  {
    assert [e][..0] == [];
  }

  lemma RunPair(l: Ledger, d: Event, e: Event)
    ensures Run(l, [d, e]) == Step(Step(l, d), e)
  {
    assert [d, e][..1] == [d];
    RunOne(l, d);
  }

  lemma {:induction false} RunConcat(l: Ledger, es: seq<Event>, fs: seq<Event>)
    ensures Run(l, es + fs) == Run(Run(l, es), fs)
  {
    hide Step;
    if fs == [] {
      assert es + fs == es;
    } else {
      RunConcat(l, es, fs[..|fs| - 1]);
      assert (es + fs)[..|es + fs| - 1] == es + fs[..|fs| - 1];
    }
  }

  lemma Attaching()
    ensures Run(EMPTY, [EAttach("d", "x"), EAttach("b", "y")]) == EMPTY.(runners := RUNNERS)
  {
    RunPair(EMPTY, EAttach("d", "x"), EAttach("b", "y"));
  }

  lemma MayOpen(l: Ledger)
    requires l.leases == map[] && l.claimOwner == map[] && l.bundleOwner == map[] && l.gpuOwner == map[]
    ensures Open(l, LEASE).Ok?
  {
    assert LEASE.claims == [Claim("c", "s", "d", 0, "p", 0, "n", "g")];
  }

  lemma TakeFirst<K>(k: K, i: string)
    ensures Take(map[], {k}, i) == map[k := i]
  {
  }

  lemma OpensLease()
    ensures Step(EMPTY.(runners := RUNNERS), EOpen(LEASE)) == OPENED
  {
    hide Step;
    hide Take;
    hide WellFormedLease;
    var l := EMPTY.(runners := RUNNERS);
    MayOpen(l);
    LeaseSets();
    TakeFirst("c", "l");
    TakeFirst<(string, nat)>(("p", 0), "l");
    TakeFirst("g", "l");
    OpenStep(l, LEASE);
    assert l.leases["l" := LEASE] == OPENED.leases && l.history["l" := []] == OPENED.history;
  }

  lemma Opening()
    ensures Run(EMPTY, SETUP) == OPENED
  {
    assert SETUP == [EAttach("d", "x"), EAttach("b", "y")] + [EOpen(LEASE)];
    RunConcat(EMPTY, [EAttach("d", "x"), EAttach("b", "y")], [EOpen(LEASE)]);
    Attaching();
    RunOne(EMPTY.(runners := RUNNERS), EOpen(LEASE));
    OpensLease();
  }

  lemma Donating()
    ensures Run(OPENED, DONATES) == DONATING
  {
    assert TargetsDonor(DONOR, LEASE);
    assert MayStage(OPENED, DONATE1, NOW);
    assert Stage(OPENED, DONATE1) == OPENED.(commands := map["d1" := DONATE1]);
    assert MayStage(OPENED.(commands := map["d1" := DONATE1]), DONATE2, NOW);
    RunPair(OPENED, ESubmit(DONATE1, NOW), ESubmit(DONATE2, NOW));
  }

  lemma Proving()
    ensures Step(DONATING, EAdvance("l", ReleasedBy("d1"))) == HANDED
  {
    LeaseSets();
    assert Covers(ReleasedBy("d1"), LEASE) by { assert "g" in Elements(["g"]); }
    AdvanceStep(DONATING, "l", ReleasedBy("d1"));
    assert [] + ["d1"] == ["d1"];
    assert Advanced(DONATING, DONATE1, ReleasedBy("d1")) == HANDED;
  }

  lemma Adding()
    ensures Step(HANDED, ESubmit(ADD1, NOW)) == ADDING
  {
    assert MayStage(HANDED, ADD1, NOW);
    SubmitStep(HANDED, ADD1, NOW);
  }

  lemma Lending()
    ensures Run(DONATING, LENDING) == ADDING
  {
    hide Step;
    Proving();
    Adding();
    RunPair(DONATING, EAdvance("l", ReleasedBy("d1")), ESubmit(ADD1, NOW));
  }

  lemma GiveBackOnly<K(!new)>(k: K, i: string)
    ensures GiveBack(map[k := i], {k}, i) == map[]
  {
  }

  lemma AddUndone()
    ensures Step(ADDING, EAdvance("l", ReleasedBy("a"))) == ROLLED_BACK
  {
    LeaseSets();
    assert Covers(ReleasedBy("a"), LEASE) by { assert "g" in Elements(["g"]); }
    AdvanceStep(ADDING, "l", ReleasedBy("a"));
    assert ["d1"] + ["a"] == ["d1", "a"];
    GiveBackOnly("g", "l");
    GiveBackOnly<(string, nat)>(("p", 0), "l");
    hide GiveBack;
    hide Covers;
    hide Step;
    assert Advanced(ADDING, ADD1, ReleasedBy("a")) == ROLLED_BACK;
  }

  lemma LateDonate()
    ensures var l := Step(ROLLED_BACK, EAdvance("l", ReleasedBy("d2"))); "l" in l.handoff && l.gpuOwner == map[]
  {
    LeaseSets();
    assert Covers(ReleasedBy("d2"), LEASE) by { assert "g" in Elements(["g"]); }
  }

  lemma Undoing()
    ensures var l := Run(ADDING, UNDOING); "l" in l.handoff && l.gpuOwner == map[]
  {
    RunPair(ADDING, EAdvance("l", ReleasedBy("a")), EAdvance("l", ReleasedBy("d2")));
    AddUndone();
    LateDonate();
  }

  lemma RunInParts(l: Ledger, a: seq<Event>, b: seq<Event>, c: seq<Event>, d: seq<Event>)
    ensures Run(l, a + b + c + d) == Run(Run(Run(Run(l, a), b), c), d)
  {
    RunConcat(l, a + b + c, d);
    RunConcat(l, a + b, c);
    RunConcat(l, a, b);
  }

  /** The lease ends handoff-ready while no GPU at all is owned. */
  lemma SecondDonateLosesOwnership()
    ensures var l := Run(EMPTY, SETUP + DONATES + LENDING + UNDOING); "l" in l.handoff && l.gpuOwner == map[]
  {
    RunInParts(EMPTY, SETUP, DONATES, LENDING, UNDOING);
    Opening(); Donating(); Lending(); Undoing();
  }
}
