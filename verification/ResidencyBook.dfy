/** The part of the ledger that residency depends on, and how each ledger call changes it. */
module ResidencyBook {
  import opened Contracts
  import L = LeaseLedger

  datatype Book = Book(leases: map<string, LeaseData>, commands: map<string, Command>, recorded: set<string>,
                       handoff: set<string>, holders: set<string>)
  {
    predicate Is(o: string, k: OperationKind) { o in commands && commands[o].kind == k }
    predicate On(o: string, i: string) { o in commands && commands[o].lease == i }
    predicate Donated(i: string) { exists d :: d in recorded && Is(d, DONATE) && On(d, i) }
    function Gpus(i: string): set<string> { if i in leases then leases[i].Gpus() else {} }
  }

  function BookOf(l: L.Ledger): Book {
    Book(l.leases, l.commands, Recorded(l.commands, l.evidence), l.handoff, L.Holders(l))
  }

  function Recorded(commands: map<string, Command>, evidence: map<(string, string), Evidence>): set<string> {
    set o | o in commands && (commands[o].lease, o) in evidence
  }

  ghost predicate Keyed(b: Book) {
    && (forall i | i in b.leases :: b.leases[i].id == i && b.Gpus(i) != {})
    && (forall o | o in b.commands :: b.commands[o].op == o && b.commands[o].lease in b.leases)
    && (forall o | o in b.recorded :: o in b.commands)
    && (forall i | i in b.handoff :: i in b.leases)
  }

  /** Leases that hold a common accelerator are one lease. */
  ghost predicate Exclusive(b: Book) {
    && (forall i | i in b.holders :: i in b.leases)
    && (forall i, j, g | i in b.holders && j in b.holders && g in b.Gpus(i) && g in b.Gpus(j) :: i == j)
  }

  ghost predicate Lifecycles(b: Book) {
    && (forall i | i in b.handoff :: i in b.holders && b.Donated(i))
    && (forall i, r | i in b.handoff && b.On(r, i) :: b.commands[r].kind != RESTORE)
    && (forall o | o in b.commands && b.commands[o].kind != DONATE :: b.Donated(b.commands[o].lease))
    && (forall d | b.Is(d, DONATE) && d !in b.recorded ::
        b.commands[d].lease in b.holders && b.commands[d].lease !in b.handoff)
  }

  ghost predicate Borrowers(b: Book) {
    && (forall a, c | b.Is(a, ADD) && b.Is(c, ADD) && b.commands[a].lease == b.commands[c].lease :: a == c)
    && (forall x, a | b.Is(x, REMOVE) && b.Is(a, ADD) && b.commands[a].lease == b.commands[x].lease ::
        b.commands[a].target == b.commands[x].target)
    && (forall d, r | b.Is(d, DONATE) && b.Is(r, RESTORE) && b.commands[d].lease == b.commands[r].lease ::
        b.commands[d].target == b.commands[r].target)
    && (forall d, e | b.Is(d, DONATE) && b.Is(e, DONATE) && b.commands[d].lease == b.commands[e].lease :: d == e)
  }

  /** A REMOVE is staged only beside the ADD whose replica it removes. */
  ghost predicate Removals(b: Book) {
    forall x | b.Is(x, REMOVE) :: exists a :: b.Is(a, ADD) && b.On(a, b.commands[x].lease)
  }

  ghost predicate Facts(b: Book) {
    Keyed(b) && Exclusive(b) && Lifecycles(b) && Borrowers(b) && Removals(b)
  }

  // ---------------------------------------------------------------- the facts hold of every ledger run

  lemma KeyedHolds(l: L.Ledger)
    requires L.Inv(l)
    ensures Keyed(BookOf(l))
  {
    forall i | i in l.leases ensures l.leases[i].Gpus() != {} { L.GpusNonempty(l.leases[i]); }
  }

  lemma ExclusiveHolds(l: L.Ledger)
    requires L.Inv(l)
    ensures Exclusive(BookOf(l))
  {
    forall i, j, g | i in L.Holders(l) && j in L.Holders(l) && g in l.leases[i].Gpus() && g in l.leases[j].Gpus()
      ensures i == j
    {
      assert l.gpuOwner[g] == i;
    }
  }

  lemma CycleFacts(l: L.Ledger, i: string)
    requires i in l.leases
    ensures var b, v := BookOf(l), L.CycleOf(l, i);
      && (v.DonateProved() <==> b.Donated(i)) && (v.handoff <==> i in b.handoff) && (v.holds <==> i in b.holders)
      && (forall o :: o in v.cmds <==> b.On(o, i)) && (forall o | o in v.cmds :: v.cmds[o] == b.commands[o])
  {
    var b, v := BookOf(l), L.CycleOf(l, i);
    if v.DonateProved() {
      var o :| o in v.cmds && v.cmds[o].kind == DONATE && o in v.proved;
      assert o in b.recorded && b.Is(o, DONATE) && b.On(o, i);
    }
    if b.Donated(i) {
      var d :| d in b.recorded && b.Is(d, DONATE) && b.On(d, i);
      assert d in v.cmds && v.cmds[d].kind == DONATE && d in v.proved;
    }
  }

  lemma LifecycleAt(l: L.Ledger, i: string)
    requires i in l.leases && L.CycleOf(l, i).Phase() && L.CycleOf(l, i).OneDonate()
    ensures var b := BookOf(l);
      && (i in b.handoff ==> i in b.holders && b.Donated(i) && forall r | b.On(r, i) :: b.commands[r].kind != RESTORE)
      && (forall o | b.On(o, i) && b.commands[o].kind != DONATE :: b.Donated(i))
      && (forall d | b.On(d, i) && b.Is(d, DONATE) && d !in b.recorded :: i in b.holders && i !in b.handoff)
  {
    CycleFacts(l, i);
    var b, v := BookOf(l), L.CycleOf(l, i);
    forall d | b.On(d, i) && b.Is(d, DONATE) ensures v.DonateProved() ==> d in b.recorded {
      if v.DonateProved() {
        var o :| o in v.cmds && v.cmds[o].kind == DONATE && o in v.proved;
        assert d in v.cmds && o == d;
      }
    }
  }

  lemma OneDonateAt(l: L.Ledger, i: string)
    requires i in l.leases && L.OneDonatePerLease(l)
    ensures L.CycleOf(l, i).OneDonate()
  {
  }

  lemma LifecyclesHold(l: L.Ledger)
    requires L.Inv(l) && L.Phases(l) && L.OneDonatePerLease(l)
    ensures Lifecycles(BookOf(l))
  {
    forall i | i in l.leases ensures L.CycleOf(l, i).Phase() && L.CycleOf(l, i).OneDonate() { OneDonateAt(l, i); }
    var b := BookOf(l);
    forall i | i in b.handoff ensures i in b.holders && b.Donated(i) { LifecycleAt(l, i); }
    forall i, r | i in b.handoff && b.On(r, i) ensures b.commands[r].kind != RESTORE { LifecycleAt(l, i); }
    forall o | o in b.commands && b.commands[o].kind != DONATE
      ensures b.Donated(b.commands[o].lease)
    {
      LifecycleAt(l, b.commands[o].lease);
    }
    forall d | b.Is(d, DONATE) && d !in b.recorded
      ensures b.commands[d].lease in b.holders && b.commands[d].lease !in b.handoff
    {
      LifecycleAt(l, b.commands[d].lease);
    }
  }

  lemma SameDonor(k: ReplicaKey, m: ReplicaKey, s: LeaseData)
    requires L.TargetsDonor(k, s) && L.TargetsDonor(m, s)
    ensures k == m
  {
  }

  lemma BorrowerAt(l: L.Ledger, i: string)
    requires i in l.leases && L.CycleOf(l, i).Borrowing()
    ensures var b := BookOf(l);
      && (forall a, c | b.On(a, i) && b.On(c, i) && b.Is(a, ADD) && b.Is(c, ADD) :: a == c)
      && (forall x | b.On(x, i) && b.Is(x, REMOVE) :: exists a ::
          b.On(a, i) && b.Is(a, ADD) && b.commands[a].target == b.commands[x].target)
      && (forall d | b.On(d, i) && b.commands[d].kind in {DONATE, RESTORE} ::
          L.TargetsDonor(b.commands[d].target, l.leases[i]))
  {
    CycleFacts(l, i);
    var b, v := BookOf(l), L.CycleOf(l, i);
    forall x | b.On(x, i) && b.Is(x, REMOVE)
      ensures exists a :: b.On(a, i) && b.Is(a, ADD) && b.commands[a].target == b.commands[x].target
    {
      var a :| a in v.cmds && v.cmds[a].kind == ADD && v.cmds[a].target == v.cmds[x].target;
      assert b.On(a, i) && b.Is(a, ADD);
    }
  }

  lemma SameTarget(l: L.Ledger, x: string, a: string)
    requires L.Phases(l) && L.Inv(l)
    requires var b := BookOf(l); b.Is(x, REMOVE) && b.Is(a, ADD) && b.commands[a].lease == b.commands[x].lease
    ensures l.commands[a].target == l.commands[x].target
  {
    BorrowerAt(l, l.commands[a].lease);
  }

  lemma SameNative(l: L.Ledger, d: string, r: string)
    requires L.Phases(l) && L.Inv(l)
    requires var b := BookOf(l); b.Is(d, DONATE) && b.Is(r, RESTORE) && b.commands[d].lease == b.commands[r].lease
    ensures l.commands[d].target == l.commands[r].target
  {
    BorrowerAt(l, l.commands[d].lease);
    SameDonor(l.commands[d].target, l.commands[r].target, l.leases[l.commands[d].lease]);
  }

  lemma OneAdd(l: L.Ledger, a: string, c: string)
    requires L.Phases(l) && L.Inv(l)
    requires var b := BookOf(l); b.Is(a, ADD) && b.Is(c, ADD) && b.commands[a].lease == b.commands[c].lease
    ensures a == c
  {
    BorrowerAt(l, l.commands[a].lease);
  }

  lemma HasAdd(l: L.Ledger, x: string)
    requires L.Phases(l) && L.Inv(l) && BookOf(l).Is(x, REMOVE)
    ensures exists a :: BookOf(l).Is(a, ADD) && BookOf(l).On(a, l.commands[x].lease)
  {
    BorrowerAt(l, l.commands[x].lease);
  }

  lemma BorrowersHold(l: L.Ledger)
    requires L.Inv(l) && L.Phases(l) && L.OneDonatePerLease(l)
    ensures Borrowers(BookOf(l)) && Removals(BookOf(l))
  {
    var b := BookOf(l);
    forall a, c | b.Is(a, ADD) && b.Is(c, ADD) && b.commands[a].lease == b.commands[c].lease
      ensures a == c
    {
      OneAdd(l, a, c);
    }
    forall x, a | b.Is(x, REMOVE) && b.Is(a, ADD) && b.commands[a].lease == b.commands[x].lease
      ensures b.commands[a].target == b.commands[x].target { SameTarget(l, x, a); }
    forall d, r | b.Is(d, DONATE) && b.Is(r, RESTORE) && b.commands[d].lease == b.commands[r].lease
      ensures b.commands[d].target == b.commands[r].target { SameNative(l, d, r); }
    forall x | b.Is(x, REMOVE) ensures exists a :: b.Is(a, ADD) && b.On(a, b.commands[x].lease) { HasAdd(l, x); }
  }

  lemma FactsHold(l: L.Ledger)
    requires L.Inv(l) && L.Phases(l) && L.OneDonatePerLease(l)
    ensures Facts(BookOf(l))
  {
    KeyedHolds(l);
    ExclusiveHolds(l);
    LifecyclesHold(l);
    BorrowersHold(l);
  }

  // ---------------------------------------------------------------- ledger calls on the book

  function Accepted(b: Book, c: Command, typ: EvidenceType): Book {
    b.(recorded := b.recorded + {c.op},
       handoff := match c.kind
                  case DONATE => b.handoff + {c.lease}
                  case RESTORE => if typ == SERVICE_COMMITTED then b.handoff - {c.lease} else b.handoff
                  case _ => b.handoff - {c.lease},
       holders := if c.kind == DONATE then b.holders else b.holders - {c.lease})
  }

  lemma AdvanceBook(l: L.Ledger, c: Command, e: Evidence)
    requires L.Inv(l) && c.op in l.commands && l.commands[c.op] == c && e.op == c.op
    ensures BookOf(L.Advanced(l, c, e)) == Accepted(BookOf(l), c, e.typ)
  {
    L.AdvancedConserves(l, c, e);
    RecordedAfter(l, c, e);
  }

  lemma RecordedAfter(l: L.Ledger, c: Command, e: Evidence)
    requires c.op in l.commands && l.commands[c.op] == c && e.op == c.op && c.lease in l.leases
    ensures var n := L.Advanced(l, c, e); Recorded(n.commands, n.evidence) == Recorded(l.commands, l.evidence) + {c.op}
  {
  }

  function StagedBook(b: Book, c: Command): Book {
    b.(commands := b.commands[c.op := c], holders := if c.kind == RESTORE then b.holders + {c.lease} else b.holders)
  }

  lemma StageBook(l: L.Ledger, c: Command, now: L.Clock)
    requires L.Inv(l) && c.lease in l.leases && c.op !in l.commands && L.MayStage(l, c, now)
    ensures BookOf(L.Stage(l, c)) == StagedBook(BookOf(l), c)
  {
    L.StageConserves(l, c, now);
    RecordedStaged(l, c);
  }

  lemma RecordedStaged(l: L.Ledger, c: Command)
    requires L.WellKeyed(l) && c.op !in l.commands
    ensures Recorded(l.commands[c.op := c], l.evidence) == Recorded(l.commands, l.evidence)
  {
    assert (c.lease, c.op) !in l.evidence;
  }

  function OpenedBook(b: Book, s: LeaseData): Book {
    b.(leases := b.leases[s.id := s], holders := b.holders + {s.id})
  }

  lemma OpenBook(l: L.Ledger, s: LeaseData)
    requires L.Inv(l) && L.Open(l, s).Ok? && s.id !in l.leases
    ensures BookOf(L.Open(l, s).value) == OpenedBook(BookOf(l), s)
  {
    L.OpenConserves(l, s);
  }
}
