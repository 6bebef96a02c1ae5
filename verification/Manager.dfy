/**
 * The replica view M (llm_server_manager.py): the lifecycle state machine, borrowed creation records and
 * release evidence, as a value that describes every interleaving of its calls; ManagerOwner holds the object.
 */
module ReplicaLedger {
  import opened Contracts

  /** How far the one coroutine that created a record has come. */
  datatype Progress = Started | Built | Ready | Failed

  datatype Spec = Spec(op: string, lease: string, key: ReplicaKey, gpus: seq<string>)
  datatype Creation = Creation(spec: Spec, rank: nat, progress: Progress, destroyed: Option<Evidence>)
  datatype SleepRecord = SleepRecord(key: ReplicaKey, ev: Evidence)

  /** `built` is history: how many runtimes have ever been constructed for a lease. */
  datatype View = View(
    state: map<ReplicaKey, ReplicaState>,
    kind: map<ReplicaKey, ReplicaKind>,
    inventory: map<ReplicaKey, nat>,
    nextRank: nat,
    creations: map<string, Creation>,
    slept: map<string, SleepRecord>,
    built: map<string, nat>)

  predicate Allowed(from: ReplicaState, to: ReplicaState) {
    match from
    case CREATING => to in {ACTIVE, RELEASED, QUARANTINED}
    case ACTIVE => to == DRAINING
    case DRAINING => to in {ACTIVE, DORMANT, RELEASED, QUARANTINED}
    case DORMANT => to in {ACTIVE, QUARANTINED}
    case RELEASED => false
    case QUARANTINED => false
  }

  predicate KindFits(k: ReplicaKind, s: ReplicaState) {
    !(k == BORROWED && s == DORMANT) && !(k == NATIVE && s == RELEASED)
  }

  function Transition(m: View, key: ReplicaKey, to: ReplicaState): Result<View> {
    if key !in m.state || key !in m.kind then Err
    else if m.state[key] == to then Ok(m)
    else if !Allowed(m.state[key], to) || !KindFits(m.kind[key], to) then Err
    else Ok(m.(state := m.state[key := to], inventory := if to == RELEASED then m.inventory - {key} else m.inventory))
  }

  /** Registration may come before the runtime exists; an equal repetition is silent, a known key is never rebound. */
  function Registers(m: View, key: ReplicaKey, kind: ReplicaKind, state: ReplicaState,
                     runtime: Option<nat>): Result<View>
  {
    if key in m.state then
      if key !in m.kind || m.kind[key] != kind || m.state[key] != state then Err
      else if runtime.Some? && key in m.inventory && m.inventory[key] != runtime.value then Err
      else Ok(m.(inventory := Bound(m.inventory, key, runtime)))
    else if !KindFits(kind, state) then Err
    else Ok(m.(state := m.state[key := state], kind := m.kind[key := kind],
               inventory := Bound(m.inventory, key, runtime)))
  }

  function Bound(inventory: map<ReplicaKey, nat>, key: ReplicaKey, runtime: Option<nat>): map<ReplicaKey, nat> {
    if runtime.Some? then inventory[key := runtime.value] else inventory
  }

  /** The fence at the start of create_borrowed_replica, reached once the spec has been validated. */
  function CreateBegins(m: View, s: Spec): Result<View> {
    if s.lease in m.creations || s.key in m.state then Err
    else Ok(m.(state := m.state[s.key := CREATING], kind := m.kind[s.key := BORROWED], nextRank := m.nextRank + 1,
               creations := m.creations[s.lease := Creation(s, m.nextRank, Started, None)]))
  }

  predicate Replays(m: View, s: Spec) {
    s.lease in m.creations && m.creations[s.lease].spec == s && m.creations[s.lease].progress == Ready
  }

  function RuntimeBuilt(m: View, lease: string): Result<View> {
    if lease !in m.creations || m.creations[lease].progress != Started then Err
    else Ok(m.(creations := m.creations[lease := m.creations[lease].(progress := Built)],
               built := m.built[lease := (if lease in m.built then m.built[lease] else 0) + 1]))
  }

  function CreateSucceeds(m: View, lease: string, runtime: nat): Result<View> {
    if lease !in m.creations || m.creations[lease].progress != Built then Err
    else Ok(m.(creations := m.creations[lease := m.creations[lease].(progress := Ready)],
               inventory := m.inventory[m.creations[lease].spec.key := runtime]))
  }

  /** Creation fails; without a runtime object there is nothing to clean up. */
  function CreateFails(m: View, lease: string, cleaned: bool): Result<View> {
    if lease !in m.creations || m.creations[lease].progress !in {Started, Built} then Err
    else
      var c := m.creations[lease];
      var n := Landed(m, c.spec.key, if cleaned || c.progress == Started then RELEASED else QUARANTINED);
      Ok(n.(creations := n.creations[lease := c.(progress := Failed)]))
  }

  /** A replica still CREATING lands in `to`; any other state is left alone. */
  function Landed(m: View, key: ReplicaKey, to: ReplicaState): View {
    if key in m.state && m.state[key] == CREATING then
      (match Transition(m, key, to) case Ok(n) => n case Err => m)
    else m
  }

  function SleepSucceeds(m: View, key: ReplicaKey, op: string, gpu: string, stamp: nat): Result<(View, Evidence)> {
    if op == "" || key !in m.kind || m.kind[key] != NATIVE then Err
    else if op in m.slept then (if m.slept[op].key == key then Ok((m, m.slept[op].ev)) else Err)
    else if key !in m.state || m.state[key] != DRAINING || key !in m.inventory || gpu == "" then Err
    else
      var ev := Evidence(op, RELEASE_PROVED, stamp, [gpu]);
      Ok((m.(slept := m.slept[op := SleepRecord(key, ev)]), ev))
  }

  /** The leases whose record names `key`. */
  function RecordsOf(m: View, key: ReplicaKey): set<string> {
    set l | l in m.creations && m.creations[l].spec.key == key
  }

  function DestroySucceeds(m: View, key: ReplicaKey, op: string, lease: string, stamp: nat): Result<(View, Evidence)> {
    if op == "" || key !in m.kind || m.kind[key] != BORROWED || RecordsOf(m, key) != {lease} then Err
    else
      var c := m.creations[lease];
      if c.destroyed.Some? then (if c.destroyed.value.op == op then Ok((m, c.destroyed.value)) else Err)
      else if key !in m.state || m.state[key] !in {CREATING, DRAINING} || key !in m.inventory then Err
      else
        var ev := Evidence(op, RELEASE_PROVED, stamp, c.spec.gpus);
        Ok((m.(creations := m.creations[lease := c.(destroyed := Some(ev))]), ev))
  }

  // ---------------------------------------------------------------- runs

  datatype Event =
    | ETransition(key: ReplicaKey, to: ReplicaState)
    | ECreate(spec: Spec)
    | EBuilt(lease: string)
    | ECreated(lease: string, runtime: nat)
    | ECreateFailed(lease: string, cleaned: bool)
    | ESleep(key: ReplicaKey, op: string, gpu: string, stamp: nat)
    | EDestroy(key: ReplicaKey, op: string, lease: string, stamp: nat)

  function Step(m: View, e: Event): View {
    match e
    case ETransition(k, t) => (match Transition(m, k, t) case Ok(n) => n case Err => m)
    case ECreate(s) => (match CreateBegins(m, s) case Ok(n) => n case Err => m)
    case EBuilt(l) => (match RuntimeBuilt(m, l) case Ok(n) => n case Err => m)
    case ECreated(l, r) => (match CreateSucceeds(m, l, r) case Ok(n) => n case Err => m)
    case ECreateFailed(l, c) => (match CreateFails(m, l, c) case Ok(n) => n case Err => m)
    case ESleep(k, o, g, t) => (match SleepSucceeds(m, k, o, g, t) case Ok(p) => p.0 case Err => m)
    case EDestroy(k, o, l, t) => (match DestroySucceeds(m, k, o, l, t) case Ok(p) => p.0 case Err => m)
  }

  function Run(m: View, es: seq<Event>): View {
    if es == [] then m else Step(Run(m, es[..|es| - 1]), es[|es| - 1])
  }

  /** The view a Rollouter starts with: native replicas only, all ACTIVE and reachable. */
  predicate Begun(m: View) {
    && m.state.Keys == m.kind.Keys == m.inventory.Keys
    && (forall k | k in m.state :: m.state[k] == ACTIVE && m.kind[k] == NATIVE)
    && m.creations == map[] && m.slept == map[] && m.built == map[]
  }

  /** Kinds and states fit, and the kind of a key never depends on its history. */
  ghost predicate StatesInv(m: View) {
    && m.kind.Keys == m.state.Keys
    && (forall k | k in m.state :: KindFits(m.kind[k], m.state[k]))
  }

  ghost predicate RanksInv(creations: map<string, Creation>, nextRank: nat, natives: nat) {
    && natives <= nextRank
    && (forall l | l in creations :: natives <= creations[l].rank < nextRank)
    && (forall l, k | l in creations && k in creations && l != k :: creations[l].rank != creations[k].rank)
  }

  ghost predicate HasRecord(creations: map<string, Creation>, key: ReplicaKey) {
    exists l :: l in creations && creations[l].spec.key == key
  }

  /** One record per borrowed key, one borrowed key per record. */
  ghost predicate CreationsInv(creations: map<string, Creation>, kind: map<ReplicaKey, ReplicaKind>) {
    && (forall l | l in creations ::
        creations[l].spec.lease == l && creations[l].spec.key in kind && kind[creations[l].spec.key] == BORROWED)
    && (forall l, k | l in creations && k in creations && creations[l].spec.key == creations[k].spec.key :: l == k)
    && (forall k | k in kind && kind[k] == BORROWED :: HasRecord(creations, k))
  }

  /** One runtime per record. */
  ghost predicate BuiltInv(creations: map<string, Creation>, built: map<string, nat>) {
    && (forall l | l in built :: l in creations && built[l] <= 1)
    && (forall l | l in creations && creations[l].progress == Started :: l !in built)
  }

  ghost predicate Inv(m: View, natives: nat) {
    StatesInv(m) && RanksInv(m.creations, m.nextRank, natives) && CreationsInv(m.creations, m.kind)
      && BuiltInv(m.creations, m.built)
  }

  lemma BegunHolds(m: View, natives: nat)
    requires Begun(m) && m.nextRank == natives
    ensures Inv(m, natives)
  {
  }

  /** Registering an ACTIVE native keeps a starting view and never rebinds a key to another runtime. */
  lemma RegistrationBegins(m: View, key: ReplicaKey, runtime: nat)
    requires Begun(m)
    ensures var r := Registers(m, key, NATIVE, ACTIVE, Some(runtime));
      && (r.Err? <==> key in m.inventory && m.inventory[key] != runtime)
      && (r.Ok? ==> Begun(r.value) && r.value.inventory == m.inventory[key := runtime] && r.value.nextRank == m.nextRank
                    && forall k | k in m.inventory :: r.value.inventory[k] == m.inventory[k])
  {
    if key in m.state { assert key in m.inventory; }
  }

  lemma CreationAdded(creations: map<string, Creation>, kind: map<ReplicaKey, ReplicaKind>, s: Spec, rank: nat)
    requires CreationsInv(creations, kind) && s.lease !in creations && s.key !in kind
    ensures CreationsInv(creations[s.lease := Creation(s, rank, Started, None)], kind[s.key := BORROWED])
  {
    var c := creations[s.lease := Creation(s, rank, Started, None)];
    forall k | k == s.key || (k in kind && kind[k] == BORROWED) ensures HasRecord(c, k) {
      if k == s.key {
        assert c[s.lease].spec.key == k;
      } else {
        assert HasRecord(creations, k);
        var l :| l in creations && creations[l].spec.key == k;
        assert c[l].spec.key == k;
      }
    }
  }

  lemma RankAdded(creations: map<string, Creation>, nextRank: nat, natives: nat, s: Spec)
    requires RanksInv(creations, nextRank, natives) && s.lease !in creations
    ensures RanksInv(creations[s.lease := Creation(s, nextRank, Started, None)], nextRank + 1, natives)
  {
  }

  lemma CreateKeepsInv(m: View, s: Spec, natives: nat)
    requires Inv(m, natives) && CreateBegins(m, s).Ok?
    ensures Inv(CreateBegins(m, s).value, natives)
  {
    hide CreationsInv;
    hide RanksInv;
    CreationAdded(m.creations, m.kind, s, m.nextRank);
    RankAdded(m.creations, m.nextRank, natives, s);
  }

  /** A change of one record that keeps its spec and rank. */
  predicate SameIdentity(creations: map<string, Creation>, lease: string, c: Creation) {
    lease in creations && c.spec == creations[lease].spec && c.rank == creations[lease].rank
  }

  lemma CreationMoves(creations: map<string, Creation>, kind: map<ReplicaKey, ReplicaKind>, lease: string, c: Creation)
    requires CreationsInv(creations, kind) && SameIdentity(creations, lease, c)
    ensures CreationsInv(creations[lease := c], kind)
  {
    var n := creations[lease := c];
    forall k | k in kind && kind[k] == BORROWED ensures HasRecord(n, k) {
      assert HasRecord(creations, k);
      var l :| l in creations && creations[l].spec.key == k;
      assert n[l].spec.key == k;
    }
  }

  lemma RankMoves(creations: map<string, Creation>, nextRank: nat, natives: nat, lease: string, c: Creation)
    requires RanksInv(creations, nextRank, natives) && SameIdentity(creations, lease, c)
    ensures RanksInv(creations[lease := c], nextRank, natives)
  {
  }

  lemma BuiltMoves(creations: map<string, Creation>, built: map<string, nat>, lease: string, c: Creation)
    requires BuiltInv(creations, built) && lease in creations
             && (c.progress == Started ==> creations[lease].progress == Started)
    ensures BuiltInv(creations[lease := c], built)
  {
  }

  /** Moving a record on, with its identity kept and never back to Started. */
  lemma RecordMoves(m: View, lease: string, c: Creation, natives: nat)
    requires Inv(m, natives) && SameIdentity(m.creations, lease, c)
             && (c.progress == Started ==> m.creations[lease].progress == Started)
    ensures Inv(m.(creations := m.creations[lease := c]), natives)
  {
    CreationMoves(m.creations, m.kind, lease, c);
    RankMoves(m.creations, m.nextRank, natives, lease, c);
    BuiltMoves(m.creations, m.built, lease, c);
  }

  lemma BuiltKeepsInv(m: View, lease: string, natives: nat)
    requires Inv(m, natives) && RuntimeBuilt(m, lease).Ok?
    ensures Inv(RuntimeBuilt(m, lease).value, natives)
  {
    var c := m.creations[lease].(progress := Built);
    CreationMoves(m.creations, m.kind, lease, c);
    RankMoves(m.creations, m.nextRank, natives, lease, c);
    FirstBuild(m.creations, m.built, lease, c);
  }

  /** A Started record has never built, so this build is its first. */
  lemma FirstBuild(creations: map<string, Creation>, built: map<string, nat>, lease: string, c: Creation)
    requires BuiltInv(creations, built) && lease in creations && creations[lease].progress == Started
             && c.progress == Built
    ensures lease !in built && BuiltInv(creations[lease := c], built[lease := 1])
  {
  }

  lemma CreatedKeepsInv(m: View, lease: string, runtime: nat, natives: nat)
    requires Inv(m, natives) && CreateSucceeds(m, lease, runtime).Ok?
    ensures Inv(CreateSucceeds(m, lease, runtime).value, natives)
  {
    RecordMoves(m, lease, m.creations[lease].(progress := Ready), natives);
  }

  lemma TransitionKeepsInv(m: View, key: ReplicaKey, to: ReplicaState, natives: nat)
    requires Inv(m, natives) && Transition(m, key, to).Ok?
    ensures Inv(Transition(m, key, to).value, natives)
  {
  }

  lemma LandedKeepsInv(m: View, key: ReplicaKey, to: ReplicaState, natives: nat)
    requires Inv(m, natives)
    ensures Inv(Landed(m, key, to), natives) && Landed(m, key, to).creations == m.creations
  {
    if Transition(m, key, to).Ok? { TransitionKeepsInv(m, key, to, natives); }
  }

  lemma FailsKeepsInv(m: View, lease: string, cleaned: bool, natives: nat)
    requires Inv(m, natives) && CreateFails(m, lease, cleaned).Ok?
    ensures Inv(CreateFails(m, lease, cleaned).value, natives)
  {
    var c := m.creations[lease];
    var to := if cleaned || c.progress == Started then RELEASED else QUARANTINED;
    var n := Landed(m, c.spec.key, to);
    LandedKeepsInv(m, c.spec.key, to, natives);
    RecordMoves(n, lease, c.(progress := Failed), natives);
  }

  lemma DestroyKeepsInv(m: View, key: ReplicaKey, op: string, lease: string, stamp: nat, natives: nat)
    requires Inv(m, natives) && DestroySucceeds(m, key, op, lease, stamp).Ok?
    ensures Inv(DestroySucceeds(m, key, op, lease, stamp).value.0, natives)
  {
    hide Inv;
    assert lease in RecordsOf(m, key);
    if m.creations[lease].destroyed.None? {
      RecordMoves(m, lease, DestroySucceeds(m, key, op, lease, stamp).value.0.creations[lease], natives);
    }
  }

  lemma StepKeepsInv(m: View, e: Event, natives: nat)
    requires Inv(m, natives)
    ensures Inv(Step(m, e), natives)
  {
    match e
    case ECreate(s) => if CreateBegins(m, s).Ok? { CreateKeepsInv(m, s, natives); }
    case ETransition(k, t) => if Transition(m, k, t).Ok? { TransitionKeepsInv(m, k, t, natives); }
    case EBuilt(l) => if RuntimeBuilt(m, l).Ok? { BuiltKeepsInv(m, l, natives); }
    case ECreated(l, r) => if CreateSucceeds(m, l, r).Ok? { CreatedKeepsInv(m, l, r, natives); }
    case ECreateFailed(l, c) => if CreateFails(m, l, c).Ok? { FailsKeepsInv(m, l, c, natives); }
    case ESleep(k, o, g, t) =>
    case EDestroy(k, o, l, t) => if DestroySucceeds(m, k, o, l, t).Ok? { DestroyKeepsInv(m, k, o, l, t, natives); }
  }

  lemma {:induction false} RunKeepsInv(m: View, es: seq<Event>, natives: nat)
    requires Inv(m, natives)
    ensures Inv(Run(m, es), natives)
  {
    if es != [] {
      RunKeepsInv(m, es[..|es| - 1], natives);
      StepKeepsInv(Run(m, es[..|es| - 1]), es[|es| - 1], natives);
    }
  }

  /**
   * Over any replays, failures and interleavings: a lease builds at most one runtime; every borrowed key has
   * exactly one creation record; allocated ranks are pairwise distinct and above every native rank.
   */
  lemma {:induction false} BorrowedCreationOncePerLease(start: View, es: seq<Event>)
    requires Begun(start)
    ensures var m := Run(start, es);
      && (forall l | l in m.built :: m.built[l] <= 1)
      && (forall k | k in m.kind && m.kind[k] == BORROWED ::
            exists l :: l in m.creations && m.creations[l].spec.key == k &&
                        forall j | j in m.creations && m.creations[j].spec.key == k :: j == l)
      && (forall l | l in m.creations :: start.nextRank <= m.creations[l].rank)
      && (forall l, k | l in m.creations && k in m.creations && l != k :: m.creations[l].rank != m.creations[k].rank)
  {
    BegunHolds(start, start.nextRank);
    RunKeepsInv(start, es, start.nextRank);
    var m := Run(start, es);
    forall k | k in m.kind && m.kind[k] == BORROWED
      ensures exists l :: l in m.creations && m.creations[l].spec.key == k &&
                          forall j | j in m.creations && m.creations[j].spec.key == k :: j == l
    {
      assert HasRecord(m.creations, k);
      var l :| l in m.creations && m.creations[l].spec.key == k;
    }
  }

  lemma StepAbsorbs(m: View, e: Event, k: ReplicaKey)
    requires StatesInv(m) && k in m.state && m.state[k] in {RELEASED, QUARANTINED}
    ensures k in Step(m, e).state && Step(m, e).state[k] == m.state[k] && k in Step(m, e).kind
            && Step(m, e).kind[k] == m.kind[k]
  {
    hide RecordsOf;
  }

  /** RELEASED and QUARANTINED are absorbing, a native replica is never RELEASED and a borrowed one never DORMANT. */
  lemma {:induction false} TerminalStatesAbsorb(m: View, es: seq<Event>, natives: nat, k: ReplicaKey)
    requires Inv(m, natives) && k in m.state
    ensures var n := Run(m, es);
      && k in n.state && k in n.kind && (m.state[k] in {RELEASED, QUARANTINED} ==> n.state[k] == m.state[k])
      && (n.kind[k] == NATIVE ==> n.state[k] != RELEASED) && (n.kind[k] == BORROWED ==> n.state[k] != DORMANT)
  {
    RunKeepsInv(m, es, natives);
    if es != [] {
      var p := Run(m, es[..|es| - 1]);
      TerminalStatesAbsorb(m, es[..|es| - 1], natives, k);
      RunKeepsInv(m, es[..|es| - 1], natives);
      if m.state[k] in {RELEASED, QUARANTINED} { StepAbsorbs(p, es[|es| - 1], k); }
      KeysStay(p, es[|es| - 1], k);
    }
  }

  lemma KeysStay(m: View, e: Event, k: ReplicaKey)
    requires k in m.state
    ensures k in Step(m, e).state
  {
  }
}
