/**
 * The GroupScheduler ledger as a value: what each call does to it, and what holds of every
 * run of calls (scheduler/group_scheduler.py).
 */
module LeaseLedger {
  import opened Contracts

  datatype IdleReport = IdleReport(at: real, candidates: map<ReplicaKey, ReplicaKind>)
  datatype Clock = Clock(wall: real, mono: real)
  datatype AckKind = Released | Restored | RestoreRolledBack | AddRolledBack
  datatype Ack = Ack(lease: string, op: string, kind: AckKind)

  const IDLE_REPORT_MAX_AGE := 10.0

  datatype Ledger = Ledger(
    runners: map<string, string>,
    idle: map<string, IdleReport>,
    leases: map<string, LeaseData>,
    commands: map<string, Command>,
    borrower: map<string, ReplicaKey>,
    evidence: map<(string, string), Evidence>,
    history: map<string, seq<string>>,
    handoff: set<string>,
    claimOwner: map<string, string>,
    bundleOwner: map<(string, nat), string>,
    gpuOwner: map<string, string>)
  {
    /** Lease `i` owns every GPU and every bundle it claims. */
    predicate Holds(i: string)
      requires i in leases
    {
      OwnsAll(gpuOwner, leases[i].Gpus(), i) && OwnsAll(bundleOwner, leases[i].Bundles(), i)
    }

    predicate HoldsNothing(i: string)
      requires i in leases
    {
      OwnsNone(gpuOwner, leases[i].Gpus(), i) && OwnsNone(bundleOwner, leases[i].Bundles(), i)
    }

    predicate LastReleaseIs(i: string, k: OperationKind) {
      i in history && history[i] != [] &&
      var last := history[i][|history[i]| - 1];
      last in commands && commands[last].kind == k
    }

    /** Operation `o` of kind `k` is staged on lease `i`. */
    predicate Staged(o: string, i: string, k: OperationKind) {
      o in commands && commands[o].lease == i && commands[o].kind == k
    }
  }

  const EMPTY := Ledger(map[], map[], map[], map[], map[], map[], map[], {}, map[], map[], map[])

  // ---------------------------------------------------------------- ownership maps

  predicate OwnsAll<K>(owner: map<K, string>, keys: set<K>, i: string) {
    forall k | k in keys :: k in owner && owner[k] == i
  }

  predicate OwnsNone<K>(owner: map<K, string>, keys: set<K>, i: string) {
    forall k | k in keys :: !(k in owner && owner[k] == i)
  }

  predicate Unowned<K>(owner: map<K, string>, keys: set<K>) {
    forall k | k in keys :: k !in owner
  }

  /** No key is owned by a lease other than `i`. */
  predicate NotForeign<K>(owner: map<K, string>, keys: set<K>, i: string) {
    forall k | k in keys :: k in owner ==> owner[k] == i
  }

  function Take<K>(owner: map<K, string>, keys: set<K>, i: string): map<K, string> {
    owner + map k | k in keys :: i
  }

  /** Give back the keys that `i` owns and leave the rest alone. */
  function GiveBack<K>(owner: map<K, string>, keys: set<K>, i: string): map<K, string> {
    map k | k in owner && !(k in keys && owner[k] == i) :: owner[k]
  }

  // ---------------------------------------------------------------- calls

  /** A task keeps the TaskRunner handle it was first attached with until it is detached. */
  function Attach(l: Ledger, task: string, handle: string): Result<Ledger> {
    if task == "" || (task in l.runners && l.runners[task] != handle) then Err
    else Ok(l.(runners := l.runners[task := handle]))
  }

  function Detach(l: Ledger, task: string): Ledger {
    l.(runners := l.runners - {task}, idle := l.idle - {task})
  }

  /** An idle report is stored only for an attached task and only if every candidate is its own and listed once. */
  function ReportIdle(l: Ledger, task: string, candidates: seq<(ReplicaKey, ReplicaKind)>, now: real): Result<Ledger> {
    if task in l.runners
       && (forall c | c in candidates :: c.0.session == task)
       && (forall i, j | 0 <= i < j < |candidates| :: candidates[i].0 != candidates[j].0)
    then Ok(l.(idle := l.idle[task := IdleReport(now, CandidateMap(candidates))]))
    else Err
  }

  function CandidateMap(candidates: seq<(ReplicaKey, ReplicaKind)>): map<ReplicaKey, ReplicaKind> {
    map c | c in candidates :: c.0 := KindOf(candidates, c.0)
  }

  function KindOf(candidates: seq<(ReplicaKey, ReplicaKind)>, k: ReplicaKey): ReplicaKind {
    if candidates == [] then NATIVE
    else if candidates[0].0 == k then candidates[0].1
    else KindOf(candidates[1..], k)
  }

  /** Only a value that passed the Lease constructor is a lease at all. */
  function Open(l: Ledger, s: LeaseData): Result<Ledger> {
    if !WellFormedLease(s) then Err
    else if s.id in l.leases then (if l.leases[s.id] == s then Ok(l) else Err)
    else if NotForeign(l.claimOwner, s.ClaimIds(), s.id)
         && NotForeign(l.bundleOwner, s.Bundles(), s.id)
         && NotForeign(l.gpuOwner, s.Gpus(), s.id)
    then Ok(l.(leases := l.leases[s.id := s],
               history := if s.id in l.history then l.history else l.history[s.id := []],
               claimOwner := Take(l.claimOwner, s.ClaimIds(), s.id),
               bundleOwner := Take(l.bundleOwner, s.Bundles(), s.id),
               gpuOwner := Take(l.gpuOwner, s.Gpus(), s.id)))
    else Err
  }

  predicate TargetsDonor(t: ReplicaKey, s: LeaseData) {
    s.claims != [] && t.session == s.claims[0].donor && t == NativeKey(t.session, s.claims[0].rank)
  }

  predicate IdleAllows(l: Ledger, t: ReplicaKey, mono: real) {
    t.session in l.idle ==>
      var r := l.idle[t.session];
      mono - r.at <= IDLE_REPORT_MAX_AGE && t in r.candidates && r.candidates[t] == NATIVE
  }

  /** The phase checks made the first time an operation id is seen. */
  predicate MayStage(l: Ledger, c: Command, now: Clock)
    requires c.lease in l.leases
  {
    var s := l.leases[c.lease];
    && !l.LastReleaseIs(c.lease, RESTORE)
    && !(s.expires != 0.0 && now.wall >= s.expires && c.kind == ADD)
    && match c.kind {
         case DONATE => IdleAllows(l, c.target, now.mono) && !l.LastReleaseIs(c.lease, REMOVE)
                        && TargetsDonor(c.target, s) && c.lease !in l.handoff
         case ADD => c.lease in l.handoff && c.lease !in l.borrower
         case REMOVE => c.lease in l.handoff && c.lease in l.borrower && l.borrower[c.lease] == c.target
         case RESTORE =>
           TargetsDonor(c.target, s) && Unowned(l.gpuOwner, s.Gpus()) && Unowned(l.bundleOwner, s.Bundles())
       }
  }

  function Stage(l: Ledger, c: Command): Ledger
    requires c.lease in l.leases
  {
    var s := l.leases[c.lease];
    l.(commands := l.commands[c.op := c],
       borrower := if c.kind == ADD && c.lease !in l.borrower then l.borrower[c.lease := c.target] else l.borrower,
       bundleOwner := if c.kind == RESTORE then Take(l.bundleOwner, s.Bundles(), c.lease) else l.bundleOwner,
       gpuOwner := if c.kind == RESTORE then Take(l.gpuOwner, s.Gpus(), c.lease) else l.gpuOwner)
  }

  /** `submit_operation` up to the dispatch: an exact replay is dispatched again without any phase check. */
  function Submit(l: Ledger, c: Command, now: Clock): Result<Ledger> {
    if c.lease !in l.leases then Err
    else if c.op in l.commands then
      (if l.commands[c.op] == c && c.target.session in l.runners then Ok(l) else Err)
    else if MayStage(l, c, now) && c.target.session in l.runners then Ok(Stage(l, c))
    else Err
  }

  function AckFor(k: OperationKind, e: Evidence): AckKind {
    match k
    case RESTORE => if e.typ == SERVICE_COMMITTED then Restored else RestoreRolledBack
    case ADD => AddRolledBack
    case DONATE => Released
    case REMOVE => Released
  }

  predicate Covers(e: Evidence, s: LeaseData) {
    Elements(e.gpus) == s.Gpus()
  }

  /** Would evidence `e`, not yet recorded, be accepted for command `c` on its lease? */
  predicate MayAdvance(l: Ledger, c: Command, e: Evidence)
    requires c.lease in l.leases
  {
    var s := l.leases[c.lease];
    match c.kind
    case RESTORE => l.Holds(c.lease) && (e.typ == SERVICE_COMMITTED || (e.typ == RELEASE_PROVED && Covers(e, s)))
    case ADD => e.typ == RELEASE_PROVED && Covers(e, s) && c.lease in l.handoff
                && c.lease in l.borrower && l.borrower[c.lease] == c.target
    case DONATE => e.typ == RELEASE_PROVED && Covers(e, s)
    case REMOVE => e.typ == RELEASE_PROVED && Covers(e, s)
  }

  /** Only RESTORE compensation stays out of the release history, so that a retry is not taken for a closed lease. */
  predicate Logged(k: OperationKind, e: Evidence) {
    !(k == RESTORE && e.typ == RELEASE_PROVED)
  }

  function HandoffAfter(l: Ledger, c: Command, e: Evidence): set<string> {
    match c.kind
    case DONATE => l.handoff + {c.lease}
    case RESTORE => if e.typ == SERVICE_COMMITTED then l.handoff - {c.lease} else l.handoff
    case _ => l.handoff - {c.lease}
  }

  /** The ledger after fresh evidence has been accepted: every kind but DONATE gives the claims back. */
  function Advanced(l: Ledger, c: Command, e: Evidence): Ledger
    requires c.lease in l.leases
  {
    var i, s := c.lease, l.leases[c.lease];
    l.(evidence := l.evidence[(i, e.op) := e],
       history := if Logged(c.kind, e) then l.history[i := (if i in l.history then l.history[i] else []) + [e.op]]
       else l.history,
       handoff := HandoffAfter(l, c, e),
       borrower := if c.kind == ADD || (c.kind == RESTORE && e.typ == SERVICE_COMMITTED) then l.borrower - {i}
       else l.borrower,
       bundleOwner := if c.kind == DONATE then l.bundleOwner else GiveBack(l.bundleOwner, s.Bundles(), i),
       gpuOwner := if c.kind == DONATE then l.gpuOwner else GiveBack(l.gpuOwner, s.Gpus(), i))
  }

  function Advance(l: Ledger, i: string, e: Evidence): Result<(Ledger, Ack)> {
    if i !in l.leases || e.op !in l.commands || l.commands[e.op].lease != i then Err
    else
      var c := l.commands[e.op];
      var ack := Ack(i, e.op, AckFor(c.kind, e));
      if (i, e.op) in l.evidence then
        (if l.evidence[(i, e.op)] == e && (c.kind == RESTORE ==> e.typ in {SERVICE_COMMITTED, RELEASE_PROVED})
         then Ok((l, ack)) else Err)
      else if MayAdvance(l, c, e) then Ok((Advanced(l, c, e), ack))
      else Err
  }

  // ---------------------------------------------------------------- runs

  datatype Event =
    | EAttach(task: string, handle: string)
    | EDetach(task: string)
    | EIdle(task: string, candidates: seq<(ReplicaKey, ReplicaKind)>, at: real)
    | EOpen(lease: LeaseData)
    | ESubmit(cmd: Command, now: Clock)
    | EAdvance(id: string, ev: Evidence)

  /** One call; a rejected call leaves the ledger as it was. */
  function Step(l: Ledger, e: Event): Ledger {
    match e
    case EAttach(t, h) => (match Attach(l, t, h) case Ok(l') => l' case Err => l)
    case EDetach(t) => Detach(l, t)
    case EIdle(t, cs, at) => (match ReportIdle(l, t, cs, at) case Ok(l') => l' case Err => l)
    case EOpen(s) => (match Open(l, s) case Ok(l') => l' case Err => l)
    case ESubmit(c, now) => (match Submit(l, c, now) case Ok(l') => l' case Err => l)
    case EAdvance(i, ev) => (match Advance(l, i, ev) case Ok(p) => p.0 case Err => l)
  }

  function Run(l: Ledger, es: seq<Event>): Ledger {
    if es == [] then l else Step(Run(l, es[..|es| - 1]), es[|es| - 1])
  }

  // ---------------------------------------------------------------- conservation of claims

  /** `owner` is exactly the disjoint union of the claims of the leases in `holders`. */
  ghost predicate UnionOf<K(!new)>(claims: map<string, set<K>>, owner: map<K, string>, holders: set<string>) {
    && holders <= claims.Keys
    && (forall k | k in owner :: owner[k] in holders && k in claims[owner[k]])
    && (forall i | i in holders :: OwnsAll(owner, claims[i], i))
  }

  lemma TakeUnion<K(!new)>(claims: map<string, set<K>>, owner: map<K, string>, holders: set<string>, keys: set<K>,
                           i: string)
    requires UnionOf(claims, owner, holders)
    requires i !in holders && NotForeign(owner, keys, i)
    ensures UnionOf(claims[i := keys], Take(owner, keys, i), holders + {i})
  {
    var claims', owner' := claims[i := keys], Take(owner, keys, i);
    forall j | j in holders ensures OwnsAll(owner', claims'[j], j) {
      assert OwnsAll(owner, claims[j], j);
    }
  }

  lemma GiveBackUnion<K(!new)>(claims: map<string, set<K>>, owner: map<K, string>, holders: set<string>, i: string)
    requires UnionOf(claims, owner, holders) && i in claims
    ensures UnionOf(claims, GiveBack(owner, claims[i], i), holders - {i})
    ensures OwnsAll(owner, claims[i], i) ==> GiveBack(owner, claims[i], i) == owner - claims[i]
  {
    var owner' := GiveBack(owner, claims[i], i);
    forall j | j in holders - {i} ensures OwnsAll(owner', claims[j], j) {
      assert OwnsAll(owner, claims[j], j);
    }
  }

  function GpuClaims(l: Ledger): map<string, set<string>> {
    map i | i in l.leases :: l.leases[i].Gpus()
  }

  function BundleClaims(l: Ledger): map<string, set<(string, nat)>> {
    map i | i in l.leases :: l.leases[i].Bundles()
  }

  function Holders(l: Ledger): set<string> {
    set i | i in l.leases && l.Holds(i)
  }

  ghost predicate Conserved(l: Ledger) {
    && (forall i | i in l.leases :: l.leases[i].claims != [])
    && UnionOf(GpuClaims(l), l.gpuOwner, Holders(l)) && UnionOf(BundleClaims(l), l.bundleOwner, Holders(l))
  }

  lemma GpusNonempty(s: LeaseData)
    requires s.claims != []
    ensures s.Gpus() != {}
  {
    assert s.claims[0].gpu in s.Gpus();
  }

  /** Whatever set the owner maps are the union of, it is the set of holders. */
  lemma HoldersUnique(l: Ledger, holders: set<string>)
    requires forall i | i in l.leases :: l.leases[i].claims != []
    requires UnionOf(GpuClaims(l), l.gpuOwner, holders) && UnionOf(BundleClaims(l), l.bundleOwner, holders)
    ensures Holders(l) == holders && Conserved(l)
  {
    forall i ensures i in Holders(l) <==> i in holders {
      if i in l.leases {
        GpusNonempty(l.leases[i]);
        var g :| g in GpuClaims(l)[i];
      }
      if i in holders {
        assert OwnsAll(l.gpuOwner, GpuClaims(l)[i], i);
        assert OwnsAll(l.bundleOwner, BundleClaims(l)[i], i);
      }
    }
  }

  // ---------------------------------------------------------------- invariant of every run

  ghost predicate WellKeyed(l: Ledger) {
    && (forall i | i in l.leases :: l.leases[i].id == i)
    && (forall o | o in l.commands :: l.commands[o].op == o && l.commands[o].lease in l.leases)
    && (forall p | p in l.evidence :: p.1 in l.commands && l.commands[p.1].lease == p.0 && l.evidence[p].op == p.1
                                      && (l.commands[p.1].kind == RESTORE ==>
                                          l.evidence[p].typ in {SERVICE_COMMITTED, RELEASE_PROVED}))
    && (forall i | i in l.handoff :: i in l.leases)
  }

  ghost predicate Inv(l: Ledger) {
    WellKeyed(l) && Conserved(l)
  }

  lemma OpenKeepsKeys(l: Ledger, s: LeaseData)
    requires WellKeyed(l) && Open(l, s).Ok?
    ensures WellKeyed(Open(l, s).value)
  {
  }

  lemma StageKeepsKeys(l: Ledger, c: Command)
    requires WellKeyed(l) && c.lease in l.leases && c.op !in l.commands
    ensures WellKeyed(Stage(l, c))
  {
  }

  lemma AdvancedKeepsKeys(l: Ledger, c: Command, e: Evidence)
    requires WellKeyed(l) && c.op in l.commands && l.commands[c.op] == c && e.op == c.op && MayAdvance(l, c, e)
    ensures WellKeyed(Advanced(l, c, e))
  {
  }

  /** Events that touch neither leases nor ownership. */
  lemma Untouched(l: Ledger, l': Ledger)
    requires Conserved(l) && l'.leases == l.leases && l'.gpuOwner == l.gpuOwner && l'.bundleOwner == l.bundleOwner
    ensures Conserved(l') && Holders(l') == Holders(l)
  {
    assert GpuClaims(l') == GpuClaims(l) && BundleClaims(l') == BundleClaims(l);
    HoldersUnique(l', Holders(l));
  }

  lemma ClaimsAdded(l: Ledger, l': Ledger, s: LeaseData)
    requires l'.leases == l.leases[s.id := s]
    ensures GpuClaims(l') == GpuClaims(l)[s.id := s.Gpus()] && BundleClaims(l') == BundleClaims(l)[s.id := s.Bundles()]
  {
  }

  lemma TakeConserves(l: Ledger, l': Ledger, s: LeaseData)
    requires Conserved(l) && s.claims != []
    requires s.id !in Holders(l) && NotForeign(l.gpuOwner, s.Gpus(), s.id)
             && NotForeign(l.bundleOwner, s.Bundles(), s.id)
    requires l'.leases == l.leases[s.id := s]
    requires l'.gpuOwner == Take(l.gpuOwner, s.Gpus(), s.id) && l'.bundleOwner == Take(l.bundleOwner, s.Bundles(), s.id)
    ensures Conserved(l') && Holders(l') == Holders(l) + {s.id}
  {
    hide UnionOf;
    hide Holders;
    hide Take;
    hide NotForeign;
    hide GpuClaims;
    hide BundleClaims;
    TakeUnion(GpuClaims(l), l.gpuOwner, Holders(l), s.Gpus(), s.id);
    TakeUnion(BundleClaims(l), l.bundleOwner, Holders(l), s.Bundles(), s.id);
    ClaimsAdded(l, l', s);
    HoldersUnique(l', Holders(l) + {s.id});
  }

  lemma GiveBackConserves(l: Ledger, l': Ledger, i: string)
    requires Conserved(l) && i in l.leases && l'.leases == l.leases
    requires l'.gpuOwner == GiveBack(l.gpuOwner, l.leases[i].Gpus(), i)
    requires l'.bundleOwner == GiveBack(l.bundleOwner, l.leases[i].Bundles(), i)
    ensures Conserved(l') && Holders(l') == Holders(l) - {i}
  {
    GiveBackUnion(GpuClaims(l), l.gpuOwner, Holders(l), i);
    GiveBackUnion(BundleClaims(l), l.bundleOwner, Holders(l), i);
    assert GpuClaims(l') == GpuClaims(l) && BundleClaims(l') == BundleClaims(l);
    HoldersUnique(l', Holders(l) - {i});
  }

  lemma UnownedHoldsNothing(l: Ledger, i: string)
    requires i in l.leases && l.leases[i].claims != [] && Unowned(l.gpuOwner, l.leases[i].Gpus())
    ensures i !in Holders(l)
  {
    GpusNonempty(l.leases[i]);
    var g :| g in l.leases[i].Gpus();
  }

  /** How accepted evidence changes the set of holders. */
  function HoldersAfter(l: Ledger, c: Command, e: Evidence): set<string> {
    if c.kind == DONATE then Holders(l) else Holders(l) - {c.lease}
  }

  lemma AdvancedConserves(l: Ledger, c: Command, e: Evidence)
    requires Conserved(l) && c.lease in l.leases
    ensures Conserved(Advanced(l, c, e)) && Holders(Advanced(l, c, e)) == HoldersAfter(l, c, e)
  {
    if c.kind == DONATE {
      Untouched(l, Advanced(l, c, e));
    } else {
      GiveBackConserves(l, Advanced(l, c, e), c.lease);
    }
  }

  lemma StageConserves(l: Ledger, c: Command, now: Clock)
    requires Conserved(l) && c.lease in l.leases && l.leases[c.lease].id == c.lease && MayStage(l, c, now)
    ensures Conserved(Stage(l, c))
    ensures Holders(Stage(l, c)) == if c.kind == RESTORE then Holders(l) + {c.lease} else Holders(l)
  {
    if c.kind == RESTORE {
      UnownedHoldsNothing(l, c.lease);
      assert l.leases == l.leases[c.lease := l.leases[c.lease]];
      TakeConserves(l, Stage(l, c), l.leases[c.lease]);
    } else {
      Untouched(l, Stage(l, c));
    }
  }

  lemma OpenConserves(l: Ledger, s: LeaseData)
    requires Conserved(l) && Open(l, s).Ok?
    ensures Conserved(Open(l, s).value)
    ensures Holders(Open(l, s).value) == if s.id in l.leases then Holders(l) else Holders(l) + {s.id}
  {
    if s.id !in l.leases { TakeConserves(l, Open(l, s).value, s); }
  }

  lemma OpenKeepsInv(l: Ledger, s: LeaseData)
    requires Inv(l) && Open(l, s).Ok?
    ensures Inv(Open(l, s).value)
  {
    OpenKeepsKeys(l, s);
    OpenConserves(l, s);
  }

  lemma StageKeepsInv(l: Ledger, c: Command, now: Clock)
    requires Inv(l) && c.lease in l.leases && c.op !in l.commands && MayStage(l, c, now)
    ensures Inv(Stage(l, c))
  {
    StageKeepsKeys(l, c);
    StageConserves(l, c, now);
  }

  lemma AdvancedKeepsInv(l: Ledger, c: Command, e: Evidence)
    requires Inv(l) && c.op in l.commands && l.commands[c.op] == c && e.op == c.op && MayAdvance(l, c, e)
    ensures Inv(Advanced(l, c, e))
  {
    AdvancedKeepsKeys(l, c, e);
    AdvancedConserves(l, c, e);
  }

  /** Which calls change the ledger, and to what. */
  predicate Stages(l: Ledger, c: Command, now: Clock) {
    c.lease in l.leases && c.op !in l.commands && MayStage(l, c, now) && c.target.session in l.runners
  }

  predicate Advances(l: Ledger, i: string, e: Evidence) {
    i in l.leases && e.op in l.commands && l.commands[e.op].lease == i && (i, e.op) !in l.evidence
      && MayAdvance(l, l.commands[e.op], e)
  }

  lemma SubmitStep(l: Ledger, c: Command, now: Clock)
    ensures Step(l, ESubmit(c, now)) == if Stages(l, c, now) then Stage(l, c) else l
  {
  }

  lemma AdvanceStep(l: Ledger, i: string, e: Evidence)
    ensures Step(l, EAdvance(i, e)) == if Advances(l, i, e) then Advanced(l, l.commands[e.op], e) else l
  {
  }

  lemma QuietStep(l: Ledger, e: Event)
    requires e.EAttach? || e.EDetach? || e.EIdle?
    ensures Step(l, e) == l.(runners := Step(l, e).runners, idle := Step(l, e).idle)
  {
    hide Open;
    hide Submit;
    hide Advance;
    if e.EIdle? {
      IdleStep(l, e.task, e.candidates, e.at);
    } else if e.EAttach? {
      assert Step(l, e) == (match Attach(l, e.task, e.handle) case Ok(n) => n case Err => l);
    }
  }

  lemma IdleStep(l: Ledger, task: string, candidates: seq<(ReplicaKey, ReplicaKind)>, at: real)
    ensures var n := Step(l, EIdle(task, candidates, at)); n == l.(idle := n.idle)
  {
    hide CandidateMap;
    assert Step(l, EIdle(task, candidates, at)) ==
           (match ReportIdle(l, task, candidates, at) case Ok(n) => n case Err => l);
  }

  lemma OpenStep(l: Ledger, s: LeaseData)
    ensures Step(l, EOpen(s)) == if Open(l, s).Ok? then Open(l, s).value else l
  {
    hide Open;
  }

  lemma QuietKeepsInv(l: Ledger, n: Ledger)
    requires Inv(l) && n == l.(runners := n.runners, idle := n.idle)
    ensures Inv(n)
  {
    Untouched(l, n);
  }

  lemma StepKeepsInv(l: Ledger, e: Event)
    requires Inv(l)
    ensures Inv(Step(l, e))
  {
    match e
    case EOpen(s) => if Open(l, s).Ok? { OpenKeepsInv(l, s); }
    case ESubmit(c, now) =>
      SubmitStep(l, c, now);
      if Stages(l, c, now) { StageKeepsInv(l, c, now); }
    case EAdvance(i, ev) =>
      AdvanceStep(l, i, ev);
      if Advances(l, i, ev) { AdvancedKeepsInv(l, l.commands[ev.op], ev); }
    case _ =>
      QuietStep(l, e);
      QuietKeepsInv(l, Step(l, e));
  }

  lemma {:induction false} RunKeepsInv(l: Ledger, es: seq<Event>)
    requires Inv(l)
    ensures Inv(Run(l, es))
  {
    if es != [] {
      RunKeepsInv(l, es[..|es| - 1]);
      StepKeepsInv(Run(l, es[..|es| - 1]), es[|es| - 1]);
    }
  }

  // ---------------------------------------------------------------- what only grows

  ghost predicate Grows(l: Ledger, l': Ledger) {
    && (forall i | i in l.leases :: i in l'.leases && l'.leases[i] == l.leases[i])
    && (forall o | o in l.commands :: o in l'.commands && l'.commands[o] == l.commands[o])
    && (forall p | p in l.evidence :: p in l'.evidence && l'.evidence[p] == l.evidence[p])
    && (forall c | c in l.claimOwner :: c in l'.claimOwner && l'.claimOwner[c] == l.claimOwner[c])
  }

  lemma OpenGrows(l: Ledger, s: LeaseData)
    requires Open(l, s).Ok?
    ensures Grows(l, Open(l, s).value)
  {
  }

  lemma AdvancedGrows(l: Ledger, c: Command, e: Evidence)
    requires c.lease in l.leases && (c.lease, e.op) !in l.evidence
    ensures Grows(l, Advanced(l, c, e))
  {
  }

  lemma StageGrows(l: Ledger, c: Command)
    requires c.lease in l.leases && c.op !in l.commands
    ensures Grows(l, Stage(l, c))
  {
  }

  lemma QuietGrows(l: Ledger, n: Ledger)
    requires n == l.(runners := n.runners, idle := n.idle)
    ensures Grows(l, n)
  {
  }

  lemma StepGrows(l: Ledger, e: Event)
    ensures Grows(l, Step(l, e))
  {
    hide Step;
    hide Open;
    match e
    case EOpen(s) =>
      OpenStep(l, s);
      if Open(l, s).Ok? { OpenGrows(l, s); }
    case EAdvance(i, ev) =>
      AdvanceStep(l, i, ev);
      if Advances(l, i, ev) { AdvancedGrows(l, l.commands[ev.op], ev); }
    case ESubmit(c, now) =>
      SubmitStep(l, c, now);
      if Stages(l, c, now) { StageGrows(l, c); }
    case _ =>
      QuietStep(l, e);
      QuietGrows(l, Step(l, e));
  }

  lemma {:induction false} RunGrows(l: Ledger, es: seq<Event>)
    ensures Grows(l, Run(l, es))
  {
    if es != [] {
      RunGrows(l, es[..|es| - 1]);
      StepGrows(Run(l, es[..|es| - 1]), es[|es| - 1]);
    }
  }

  // ---------------------------------------------------------------- theorem: claims

  /** Every lease holds all of its GPUs and bundles or none, and the ledger owns nothing else. */
  lemma HoldersDisjoint(l: Ledger, i: string, j: string)
    requires i in Holders(l) && j in Holders(l) && i != j
    ensures l.leases[i].Gpus() !! l.leases[j].Gpus() && l.leases[i].Bundles() !! l.leases[j].Bundles()
  {
  }

  lemma ConservedHoldsAllOrNothing(l: Ledger, i: string)
    requires Conserved(l) && i in l.leases
    ensures l.Holds(i) || l.HoldsNothing(i)
  {
  }

  lemma {:induction false} ClaimsConserved(es: seq<Event>)
    ensures var l := Run(EMPTY, es);
      && (forall i | i in l.leases :: l.Holds(i) || l.HoldsNothing(i))
      && (forall g :: g in l.gpuOwner <==> exists i :: i in Holders(l) && g in l.leases[i].Gpus())
      && (forall b :: b in l.bundleOwner <==> exists i :: i in Holders(l) && b in l.leases[i].Bundles())
      && (forall i, j | i in Holders(l) && j in Holders(l) && i != j ::
            l.leases[i].Gpus() !! l.leases[j].Gpus() && l.leases[i].Bundles() !! l.leases[j].Bundles())
  {
    RunKeepsInv(EMPTY, es);
    var l := Run(EMPTY, es);
    hide Run;
    forall i | i in l.leases ensures l.Holds(i) || l.HoldsNothing(i) { ConservedHoldsAllOrNothing(l, i); }
    forall i, j | i in Holders(l) && j in Holders(l) && i != j
      ensures l.leases[i].Gpus() !! l.leases[j].Gpus() && l.leases[i].Bundles() !! l.leases[j].Bundles()
    {
      HoldersDisjoint(l, i, j);
    }
    forall g ensures g in l.gpuOwner <==> exists i :: i in Holders(l) && g in l.leases[i].Gpus() {
      if g in l.gpuOwner { assert l.gpuOwner[g] in Holders(l) && g in GpuClaims(l)[l.gpuOwner[g]]; }
    }
    forall b ensures b in l.bundleOwner <==> exists i :: i in Holders(l) && b in l.leases[i].Bundles() {
      if b in l.bundleOwner { assert l.bundleOwner[b] in Holders(l) && b in BundleClaims(l)[l.bundleOwner[b]]; }
    }
  }

  ghost predicate ClaimIdsOwned(l: Ledger) {
    forall i | i in l.leases :: OwnsAll(l.claimOwner, l.leases[i].ClaimIds(), i)
  }

  lemma TakeKeepsOwned<K(!new)>(owner: map<K, string>, keys: set<K>, i: string, others: set<K>, j: string)
    requires NotForeign(owner, keys, i) && i != j && OwnsAll(owner, others, j)
    ensures OwnsAll(Take(owner, keys, i), others, j)
  {
  }

  lemma OpenOwnsClaimIds(l: Ledger, s: LeaseData)
    requires ClaimIdsOwned(l) && Open(l, s).Ok?
    ensures ClaimIdsOwned(Open(l, s).value)
  {
    var l' := Open(l, s).value;
    if s.id !in l.leases {
      assert OwnsAll(Take(l.claimOwner, s.ClaimIds(), s.id), s.ClaimIds(), s.id);
      hide Take;
      hide OwnsAll;
      hide LeaseData.ClaimIds;
      forall i | i in l'.leases ensures OwnsAll(l'.claimOwner, l'.leases[i].ClaimIds(), i) {
        if i != s.id { TakeKeepsOwned(l.claimOwner, s.ClaimIds(), s.id, l.leases[i].ClaimIds(), i); }
      }
    }
  }

  lemma OnlyOpenChangesLeases(l: Ledger, e: Event)
    requires !e.EOpen?
    ensures Step(l, e).leases == l.leases && Step(l, e).claimOwner == l.claimOwner
  {
  }

  lemma {:induction false} RunOwnsClaimIds(es: seq<Event>)
    ensures ClaimIdsOwned(Run(EMPTY, es))
  {
    if es != [] {
      var l, e := Run(EMPTY, es[..|es| - 1]), es[|es| - 1];
      RunOwnsClaimIds(es[..|es| - 1]);
      if e.EOpen? {
        if Open(l, e.lease).Ok? { OpenOwnsClaimIds(l, e.lease); }
      } else {
        OnlyOpenChangesLeases(l, e);
        assert ClaimIdsOwned(Step(l, e));
      }
    }
  }

  /** A claim id belongs to the lease that first used it for the rest of the run: no two leases ever share one. */
  lemma {:induction false} ClaimIdsNeverReassigned(es: seq<Event>, more: seq<Event>)
    ensures Grows(Run(EMPTY, es), Run(Run(EMPTY, es), more))
    ensures var l := Run(EMPTY, es);
      forall i, j | i in l.leases && j in l.leases && i != j :: l.leases[i].ClaimIds() !! l.leases[j].ClaimIds()
  {
    RunGrows(Run(EMPTY, es), more);
    RunOwnsClaimIds(es);
    var l := Run(EMPTY, es);
    forall i, j | i in l.leases && j in l.leases && i != j ensures l.leases[i].ClaimIds() !! l.leases[j].ClaimIds() {
      assert OwnsAll(l.claimOwner, l.leases[i].ClaimIds(), i) && OwnsAll(l.claimOwner, l.leases[j].ClaimIds(), j);
    }
  }

  // ---------------------------------------------------------------- theorem: evidence replay

  /**
   * Once evidence is accepted it stays the answer: at any later state the same evidence gets the same
   * acknowledgement and changes nothing, and different evidence for the operation is rejected on every lease.
   */
  lemma {:induction false} AcceptedEvidenceIsFinal(l: Ledger, i: string, e: Evidence, more: seq<Event>, j: string,
                                                   other: Evidence)
    requires Inv(l) && Advance(l, i, e).Ok?
    requires other.op == e.op && other != e
    ensures var (after, ack) := Advance(l, i, e).value;
      var later := Run(after, more);
      Advance(later, i, e) == Ok((later, ack)) && Advance(later, j, other) == Err
  {
    var (after, ack) := Advance(l, i, e).value;
    AcceptedIsRecorded(l, i, e);
    RunGrows(after, more);
    RecordedIsFinal(Run(after, more), i, e, j, other);
  }

  lemma AcceptedIsRecorded(l: Ledger, i: string, e: Evidence)
    requires Advance(l, i, e).Ok?
    ensures var (after, ack) := Advance(l, i, e).value;
      && (i, e.op) in after.evidence && after.evidence[(i, e.op)] == e
      && i in after.leases && e.op in after.commands && after.commands[e.op] == l.commands[e.op]
      && l.commands[e.op].lease == i
      && ack == Ack(i, e.op, AckFor(l.commands[e.op].kind, e))
      && (l.commands[e.op].kind == RESTORE ==> e.typ in {SERVICE_COMMITTED, RELEASE_PROVED})
  {
  }

  lemma RecordedIsFinal(l: Ledger, i: string, e: Evidence, j: string, other: Evidence)
    requires (i, e.op) in l.evidence && l.evidence[(i, e.op)] == e
    requires i in l.leases && e.op in l.commands && l.commands[e.op].lease == i
    requires l.commands[e.op].kind == RESTORE ==> e.typ in {SERVICE_COMMITTED, RELEASE_PROVED}
    requires other.op == e.op && other != e
    ensures Advance(l, i, e) == Ok((l, Ack(i, e.op, AckFor(l.commands[e.op].kind, e)))) && Advance(l, j, other) == Err
  {
  }

  // ---------------------------------------------------------------- theorem: handoff implies ownership

  ghost predicate OneDonatePerLease(l: Ledger) {
    forall o, p | o in l.commands && p in l.commands && l.commands[o].kind == DONATE && l.commands[p].kind == DONATE
      && l.commands[o].lease == l.commands[p].lease :: o == p
  }

  /** All that the ledger says about one lease. */
  datatype Cycle = Cycle(lease: LeaseData, holds: bool, handoff: bool, borrower: Option<ReplicaKey>,
                         cmds: map<string, Command>, proved: set<string>)
  {
    ghost predicate DonateProved() {
      exists o :: o in cmds && cmds[o].kind == DONATE && o in proved
    }

    ghost predicate OneDonate() {
      forall o, p | o in cmds && p in cmds && cmds[o].kind == DONATE && cmds[p].kind == DONATE :: o == p
    }

    /**
     * Before its DONATE is proved a lease is reserved and untouched; while handed off it is owned and not being
     * restored.
     */
    ghost predicate Phase() {
      && (!DonateProved() ==> holds && !handoff && forall o | o in cmds :: cmds[o].kind == DONATE)
      && (handoff ==> holds && DonateProved() && forall o | o in cmds :: cmds[o].kind != RESTORE)
    }

    /** One ADD per lease; the recorded borrower is its target, and a REMOVE targets the same replica. */
    ghost predicate Borrowing() {
      && (borrower.Some? ==> exists a :: a in cmds && cmds[a].kind == ADD && cmds[a].target == borrower.value)
      && (handoff ==> forall a | a in cmds && cmds[a].kind == ADD :: borrower == Some(cmds[a].target))
      && (forall a, b | a in cmds && b in cmds && cmds[a].kind == ADD && cmds[b].kind == ADD :: a == b)
      && (forall x | x in cmds && cmds[x].kind == REMOVE :: exists a ::
          a in cmds && cmds[a].kind == ADD && cmds[a].target == cmds[x].target)
      && (forall r | r in cmds && cmds[r].kind in {RESTORE, DONATE} :: TargetsDonor(cmds[r].target, lease))
    }

    /** What `MayStage` says in terms of this one lease. */
    predicate Allows(c: Command) {
      match c.kind
      case DONATE => TargetsDonor(c.target, lease) && !handoff
      case ADD => handoff && borrower.None?
      case REMOVE => handoff && borrower == Some(c.target)
      case RESTORE => TargetsDonor(c.target, lease) && !holds
    }

    function Staged(c: Command): Cycle {
      this.(cmds := cmds[c.op := c],
            borrower := if c.kind == ADD && borrower.None? then Some(c.target) else borrower,
            holds := c.kind == RESTORE || holds)
    }

    function Proved(c: Command, e: Evidence): Cycle {
      this.(proved := proved + {e.op},
            holds := c.kind == DONATE && holds,
            handoff := c.kind == DONATE || (c.kind == RESTORE && handoff && e.typ != SERVICE_COMMITTED),
            borrower := if c.kind == ADD || (c.kind == RESTORE && e.typ == SERVICE_COMMITTED) then None else borrower)
    }

    lemma StagedKeeps(c: Command)
      requires Phase() && Borrowing() && Allows(c) && c.op !in cmds
      ensures Staged(c).Phase() && Staged(c).Borrowing()
    {
      var v := Staged(c);
      if DonateProved() {
        var o :| o in cmds && cmds[o].kind == DONATE && o in proved;
        assert o in v.cmds && v.cmds[o].kind == DONATE && o in v.proved;
      } else {
        assert c.kind == DONATE;
      }
      assert c.op in v.cmds && v.cmds[c.op] == c;
      if v.borrower.Some? && borrower.Some? {
        var a :| a in cmds && cmds[a].kind == ADD && cmds[a].target == borrower.value;
        assert a in v.cmds && v.cmds[a].kind == ADD && v.cmds[a].target == v.borrower.value;
      }
      forall x | x in v.cmds && v.cmds[x].kind == REMOVE
        ensures exists a :: a in v.cmds && v.cmds[a].kind == ADD && v.cmds[a].target == v.cmds[x].target
      {
        if x == c.op {
          var a :| a in cmds && cmds[a].kind == ADD && cmds[a].target == borrower.value;
          assert a in v.cmds && v.cmds[a].kind == ADD && v.cmds[a].target == v.cmds[x].target;
        } else {
          var a :| a in cmds && cmds[a].kind == ADD && cmds[a].target == cmds[x].target;
          assert a in v.cmds && v.cmds[a].kind == ADD && v.cmds[a].target == v.cmds[x].target;
        }
      }
    }

    lemma ProvedKeeps(c: Command, e: Evidence)
      requires Phase() && Borrowing() && OneDonate() && c.op == e.op && c.op in cmds && cmds[c.op] == c
               && e.op !in proved
      ensures Proved(c, e).Phase() && Proved(c, e).Borrowing()
    {
      var v := Proved(c, e);
      if DonateProved() {
        var o :| o in cmds && cmds[o].kind == DONATE && o in proved;
        assert o in v.cmds && v.cmds[o].kind == DONATE && o in v.proved;
      } else {
        assert c.op in v.cmds && v.cmds[c.op].kind == DONATE && c.op in v.proved;
      }
    }
  }

  function CycleOf(l: Ledger, i: string): Cycle
    requires i in l.leases
  {
    Cycle(l.leases[i], i in Holders(l), i in l.handoff, if i in l.borrower then Some(l.borrower[i]) else None,
          CommandsOn(l.commands, i), ProvedOn(l.commands, l.evidence, i))
  }

  function CommandsOn(commands: map<string, Command>, i: string): map<string, Command> {
    map o | o in commands && commands[o].lease == i :: commands[o]
  }

  function ProvedOn(commands: map<string, Command>, evidence: map<(string, string), Evidence>, i: string): set<string> {
    set o | o in commands && commands[o].lease == i && (i, o) in evidence
  }

  lemma CommandStaged(commands: map<string, Command>, evidence: map<(string, string), Evidence>, c: Command, i: string)
    requires c.op !in commands && forall p | p in evidence :: p.1 in commands
    ensures CommandsOn(commands[c.op := c], i) == if i == c.lease then CommandsOn(commands, i)[c.op := c]
            else CommandsOn(commands, i)
    ensures ProvedOn(commands[c.op := c], evidence, i) == ProvedOn(commands, evidence, i)
  {
    assert (i, c.op) !in evidence;
  }

  ghost predicate Phases(l: Ledger) {
    && (forall i | i in l.leases :: CycleOf(l, i).Phase() && CycleOf(l, i).Borrowing())
    && (forall i | i in l.borrower :: i in l.leases)
  }

  lemma NothingOn(l: Ledger, i: string)
    requires WellKeyed(l) && i !in l.leases
    ensures i !in l.handoff && CommandsOn(l.commands, i) == map[] && ProvedOn(l.commands, l.evidence, i) == {}
  {
  }

  lemma OpenedCycle(l: Ledger, s: LeaseData, i: string)
    requires Inv(l) && Open(l, s).Ok? && s.id !in l.leases && s.id !in l.borrower && i in Open(l, s).value.leases
    ensures CycleOf(Open(l, s).value, i) == if i == s.id then Cycle(s, true, false, None, map[], {}) else CycleOf(l, i)
  {
    OpenConserves(l, s);
    if i == s.id { NothingOn(l, i); }
    hide Conserved;
    hide Holders;
  }

  lemma FreshCycle(s: LeaseData)
    ensures var v := Cycle(s, true, false, None, map[], {}); v.Phase() && v.Borrowing()
  {
  }

  lemma OpenKeepsPhases(l: Ledger, s: LeaseData)
    requires Inv(l) && Phases(l) && Open(l, s).Ok?
    ensures Phases(Open(l, s).value)
  {
    var l' := Open(l, s).value;
    FreshCycle(s);
    forall i | i in l'.leases ensures CycleOf(l', i).Phase() && CycleOf(l', i).Borrowing() {
      if s.id !in l.leases { OpenedCycle(l, s, i); }
    }
  }

  lemma StagedCycle(l: Ledger, c: Command, i: string)
    requires c.lease in l.leases && c.op !in l.commands && i in l.leases
    requires forall p | p in l.evidence :: p.1 in l.commands
    requires Holders(Stage(l, c)) == if c.kind == RESTORE then Holders(l) + {c.lease} else Holders(l)
    ensures CycleOf(Stage(l, c), i) == if i == c.lease then CycleOf(l, i).Staged(c) else CycleOf(l, i)
  {
    CommandStaged(l.commands, l.evidence, c, i);
    assert c.kind == RESTORE && i == c.lease ==> i in Holders(Stage(l, c));
  }

  lemma StageAllowed(l: Ledger, c: Command, now: Clock)
    requires Conserved(l) && c.lease in l.leases && MayStage(l, c, now)
    ensures CycleOf(l, c.lease).Allows(c)
  {
    if c.kind == RESTORE { UnownedHoldsNothing(l, c.lease); }
  }

  lemma StageKeepsPhaseAt(l: Ledger, c: Command, now: Clock, i: string)
    requires Inv(l) && c.lease in l.leases && c.op !in l.commands && MayStage(l, c, now)
    requires i in l.leases && CycleOf(l, i).Phase() && CycleOf(l, i).Borrowing()
    ensures CycleOf(Stage(l, c), i).Phase() && CycleOf(Stage(l, c), i).Borrowing()
  {
    StageConserves(l, c, now);
    StagedCycle(l, c, i);
    if i == c.lease {
      StageAllowed(l, c, now);
      CycleOf(l, i).StagedKeeps(c);
    }
  }

  lemma StageKeepsPhases(l: Ledger, c: Command, now: Clock)
    requires Inv(l) && Phases(l) && c.lease in l.leases && c.op !in l.commands && MayStage(l, c, now)
    ensures Phases(Stage(l, c))
  {
    forall i | i in l.leases ensures CycleOf(Stage(l, c), i).Phase() && CycleOf(Stage(l, c), i).Borrowing() {
      StageKeepsPhaseAt(l, c, now, i);
    }
  }

  lemma ProvedCycle(l: Ledger, c: Command, e: Evidence, i: string)
    requires Inv(l) && c.op in l.commands && l.commands[c.op] == c && e.op == c.op && i in l.leases
    ensures CycleOf(Advanced(l, c, e), i) == if i == c.lease then CycleOf(l, i).Proved(c, e) else CycleOf(l, i)
  {
    AdvancedConserves(l, c, e);
  }

  lemma AdvancedKeepsPhases(l: Ledger, c: Command, e: Evidence)
    requires Inv(l) && Phases(l) && OneDonatePerLease(l) && c.op in l.commands && l.commands[c.op] == c && e.op == c.op
    requires MayAdvance(l, c, e) && (c.lease, e.op) !in l.evidence
    ensures Phases(Advanced(l, c, e))
  {
    forall i | i in l.leases
      ensures CycleOf(Advanced(l, c, e), i).Phase() && CycleOf(Advanced(l, c, e), i).Borrowing()
    {
      ProvedCycle(l, c, e, i);
      if i == c.lease { CycleOf(l, i).ProvedKeeps(c, e); }
    }
  }

  lemma SameCycle(l: Ledger, l': Ledger, i: string)
    requires l'.leases == l.leases && i in l.leases && Holders(l') == Holders(l)
    requires l'.handoff == l.handoff && l'.borrower == l.borrower && l'.commands == l.commands
             && l'.evidence == l.evidence
    ensures CycleOf(l', i) == CycleOf(l, i)
  {
    hide Holders;
    hide CommandsOn;
    hide ProvedOn;
  }

  lemma SamePhases(l: Ledger, l': Ledger)
    requires Conserved(l) && Phases(l)
    requires l'.leases == l.leases && l'.gpuOwner == l.gpuOwner && l'.bundleOwner == l.bundleOwner
    requires l'.handoff == l.handoff && l'.borrower == l.borrower && l'.commands == l.commands
             && l'.evidence == l.evidence
    ensures Phases(l')
  {
    Untouched(l, l');
    hide Conserved;
    hide CycleOf;
    hide Cycle.Phase;
    hide Cycle.Borrowing;
    forall i | i in l'.leases ensures CycleOf(l', i).Phase() && CycleOf(l', i).Borrowing() {
      SameCycle(l, l', i);
    }
  }

  lemma QuietKeepsPhases(l: Ledger, n: Ledger)
    requires Conserved(l) && Phases(l) && n == l.(runners := n.runners, idle := n.idle)
    ensures Phases(n)
  {
    SamePhases(l, n);
  }

  lemma OpenStepPhases(l: Ledger, s: LeaseData)
    requires Inv(l) && Phases(l)
    ensures Phases(Step(l, EOpen(s)))
  {
    if Open(l, s).Ok? { OpenKeepsPhases(l, s); }
  }

  lemma SubmitStepPhases(l: Ledger, c: Command, now: Clock)
    requires Inv(l) && Phases(l)
    ensures Phases(Step(l, ESubmit(c, now)))
  {
    SubmitStep(l, c, now);
    if Stages(l, c, now) { StageKeepsPhases(l, c, now); }
  }

  lemma AdvanceStepPhases(l: Ledger, i: string, e: Evidence)
    requires Inv(l) && Phases(l) && OneDonatePerLease(l)
    ensures Phases(Step(l, EAdvance(i, e)))
  {
    AdvanceStep(l, i, e);
    if Advances(l, i, e) { AdvancedKeepsPhases(l, l.commands[e.op], e); }
  }

  lemma StepKeepsPhases(l: Ledger, e: Event)
    requires Inv(l) && Phases(l) && OneDonatePerLease(l)
    ensures Phases(Step(l, e))
  {
    match e
    case EOpen(s) => OpenStepPhases(l, s);
    case ESubmit(c, now) => SubmitStepPhases(l, c, now);
    case EAdvance(i, ev) => AdvanceStepPhases(l, i, ev);
    case _ =>
      QuietStep(l, e);
      QuietKeepsPhases(l, Step(l, e));
  }

  lemma {:induction false} RunKeepsPhases(es: seq<Event>)
    requires OneDonatePerLease(Run(EMPTY, es))
    ensures Inv(Run(EMPTY, es)) && Phases(Run(EMPTY, es))
  {
    RunKeepsInv(EMPTY, es);
    if es != [] {
      var l := Run(EMPTY, es[..|es| - 1]);
      RunKeepsInv(EMPTY, es[..|es| - 1]);
      StepGrows(l, es[|es| - 1]);
      RunKeepsPhases(es[..|es| - 1]);
      StepKeepsPhases(l, es[|es| - 1]);
    }
  }

  /**
   * In a run with at most one DONATE per lease, a handoff-ready lease owns all it claims and is not being
   * restored; so an ADD is only ever staged over hardware reserved for its lease alone.
   */
  lemma {:induction false} HandoffImpliesOwnership(es: seq<Event>, c: Command, now: Clock)
    requires OneDonatePerLease(Run(EMPTY, es))
    ensures var l := Run(EMPTY, es);
      && (forall i | i in l.handoff :: i in l.leases && l.Holds(i) && forall r :: !l.Staged(r, i, RESTORE))
      && (c.kind == ADD && c.op !in l.commands && Submit(l, c, now).Ok? ==> l.Holds(c.lease))
  {
    RunKeepsPhases(es);
    var l := Run(EMPTY, es);
    forall i | i in l.handoff ensures i in l.leases && l.Holds(i) && forall r :: !l.Staged(r, i, RESTORE) {
      var v := CycleOf(l, i);
      assert v.Phase();
      assert forall r :: l.Staged(r, i, RESTORE) ==> r in v.cmds;
    }
  }

  ghost predicate HandoffOwned(l: Ledger) {
    forall i | i in l.handoff :: i in Holders(l)
  }

  /**
   * Without that hypothesis the property can be lost, and exactly here: fresh DONATE evidence for a lease that
   * no longer holds its claims, or fresh RESTORE compensation for a lease that is handoff-ready.
   */
  lemma HandoffOwnershipStep(l: Ledger, i: string, e: Evidence)
    requires Inv(l) && HandoffOwned(l) && Advance(l, i, e).Ok? && (i, e.op) !in l.evidence
    ensures HandoffOwned(Step(l, EAdvance(i, e))) <==>
      && (l.commands[e.op].kind == DONATE ==> i in Holders(l))
      && !(l.commands[e.op].kind == RESTORE && e.typ == RELEASE_PROVED && i in l.handoff)
  {
    AdvancedConserves(l, l.commands[e.op], e);
  }

  /** Nothing else loses it: no other call, and no evidence that is rejected or only acknowledged again. */
  lemma HandoffKeptElsewhere(l: Ledger, e: Event)
    requires Inv(l) && HandoffOwned(l) && (e.EAdvance? ==> !Advances(l, e.id, e.ev))
    ensures HandoffOwned(Step(l, e))
  {
    hide Step;
    match e
    case EOpen(s) =>
      OpenStep(l, s);
      if Open(l, s).Ok? { OpenConserves(l, s); }
    case ESubmit(c, now) =>
      SubmitStep(l, c, now);
      if Stages(l, c, now) { StageConserves(l, c, now); }
    case EAdvance(i, ev) => AdvanceStep(l, i, ev);
    case _ =>
      QuietStep(l, e);
      Untouched(l, Step(l, e));
  }
}
