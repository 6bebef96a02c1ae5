/**
 * The checkpoint-engine membership E (checkpoint/checkpoint_engine_manager.py): which runtimes take part in native
 * weight synchronisation, which are parked or being bootstrapped, and at which parameter version each was proved.
 */
module Membership {
  import opened Contracts

  datatype Member = Member(replicas: seq<nat>, version: nat)
  datatype Pending = Pending(replicas: seq<nat>, op: string)
  datatype Receipt = Receipt(op: string, version: nat, ev: Evidence)

  /** `native` is the list the native parent synchronises; runtimes are numbered. */
  datatype View = View(eff: map<ReplicaKey, Member>, pend: map<ReplicaKey, Pending>, ready: map<ReplicaKey, Receipt>,
                       native: seq<nat>)

  predicate Disjoint(a: seq<nat>, b: seq<nat>) {
    forall r | r in a :: r !in b
  }

  /** No runtime twice in `rs`, and none under another key. */
  predicate Valid(e: View, key: ReplicaKey, rs: seq<nat>) {
    && Distinct(rs)
    && (forall k | k in e.eff && k != key :: Disjoint(rs, e.eff[k].replicas))
    && (forall k | k in e.pend && k != key :: Disjoint(rs, e.pend[k].replicas))
  }

  function Missing(rs: seq<nat>, native: seq<nat>): (m: seq<nat>)
    ensures forall r :: r in m <==> r in rs && r !in native
    ensures Distinct(rs) ==> Distinct(m)
  {
    if rs == [] then []
    else
      var last := rs[|rs| - 1];
      var m := Missing(rs[..|rs| - 1], native);
      if last in native then m else m + [last]
  }

  function Without(native: seq<nat>, rs: seq<nat>): (w: seq<nat>)
    ensures forall r :: r in w <==> r in native && r !in rs
    ensures Distinct(native) ==> Distinct(w)
  {
    if native == [] then []
    else
      var last := native[|native| - 1];
      var w := Without(native[..|native| - 1], rs);
      if last in rs then w else w + [last]
  }

  // ---------------------------------------------------------------- calls

  function RegisterPending(e: View, key: ReplicaKey, rs: seq<nat>, op: string): Result<View> {
    if op == "" || rs == [] || !Valid(e, key, rs) then Err
    else if key in e.eff then
      if e.eff[key].replicas == rs && key in e.ready && e.ready[key].op == op then Ok(e) else Err
    else if key in e.pend then
      if e.pend[key] == Pending(rs, op) then Ok(e) else Err
    else if !Disjoint(rs, e.native) then Err
    else Ok(e.(pend := e.pend[key := Pending(rs, op)]))
  }

  /** bootstrap_target's outcome: `ev` is the evidence of a transfer that succeeded now. */
  function Bootstrap(e: View, key: ReplicaKey, op: string, version: nat, ev: Evidence): Result<(View, Evidence)> {
    if op == "" then Err
    else if key in e.ready then
      if e.ready[key].op == op && e.ready[key].version == version then Ok((e, e.ready[key].ev)) else Err
    else if key !in e.pend || e.pend[key].op != op || ev.op != op || ev.typ != WEIGHT_READY then Err
    else Ok((e.(ready := e.ready[key := Receipt(op, version, ev)]), ev))
  }

  function AddEffective(e: View, key: ReplicaKey, rs: seq<nat>, version: nat): Result<View> {
    if rs == [] || !Valid(e, key, rs) || (key in e.eff && e.eff[key] != Member(rs, version)) then Err
    else Ok(e.(native := e.native + Missing(rs, e.native), eff := e.eff[key := Member(rs, version)]))
  }

  function CommitPending(e: View, key: ReplicaKey, ev: Evidence, version: nat): Result<View> {
    if ev.typ != WEIGHT_READY then Err
    else if key !in e.pend && key in e.ready && key in e.eff then
      if e.ready[key] == Receipt(ev.op, version, ev) && e.eff[key].version == version then Ok(e) else Err
    else if key !in e.pend || e.pend[key].op != ev.op || key !in e.ready
      || e.ready[key] != Receipt(ev.op, version, ev) then Err
    else match AddEffective(e, key, e.pend[key].replicas, version)
      case Ok(n) => Ok(n.(pend := n.pend - {key}))
      case Err => Err
  }

  function DiscardPending(e: View, key: ReplicaKey): View {
    e.(pend := e.pend - {key}, ready := e.ready - {key})
  }

  function RemoveEffective(e: View, key: ReplicaKey): View {
    if key !in e.eff then DiscardPending(e, key)
    else DiscardPending(e.(native := Without(e.native, e.eff[key].replicas), eff := e.eff - {key}), key)
  }

  function MarkAll(e: View, version: nat): View {
    e.(eff := map k | k in e.eff :: Member(e.eff[k].replicas, version))
  }

  // ---------------------------------------------------------------- invariant

  /** `native` lists exactly the runtimes of the effective members, each once. */
  ghost predicate NativeIsUnion(eff: map<ReplicaKey, Member>, native: seq<nat>) {
    && Distinct(native)
    && (forall k, r | k in eff && r in eff[k].replicas :: r in native)
    && (forall r | r in native :: exists k :: k in eff && r in eff[k].replicas)
  }

  /** No runtime has two keys, and no key is both pending and effective. */
  ghost predicate OneKey(eff: map<ReplicaKey, Member>, pend: map<ReplicaKey, Pending>) {
    && (forall k | k in pend :: k !in eff)
    && (forall k, j | k in eff && j in eff && k != j :: Disjoint(eff[k].replicas, eff[j].replicas))
    && (forall k, j | k in pend && j in pend && k != j :: Disjoint(pend[k].replicas, pend[j].replicas))
    && (forall k, j | k in eff && j in pend :: Disjoint(eff[k].replicas, pend[j].replicas))
  }

  /** Receipts belong to known keys, never run ahead of training, and never outrank the member they promoted. */
  ghost predicate Versions(eff: map<ReplicaKey, Member>, pend: map<ReplicaKey, Pending>,
                           ready: map<ReplicaKey, Receipt>, current: nat)
  {
    && (forall k | k in ready :: (k in pend || k in eff) && ready[k].version <= current)
    && (forall k | k in ready && k in pend :: ready[k].op == pend[k].op)
    && (forall k | k in eff :: eff[k].version <= current)
    && (forall k | k in eff && k in ready :: ready[k].version <= eff[k].version)
  }

  ghost predicate Inv(e: View, current: nat) {
    NativeIsUnion(e.eff, e.native) && OneKey(e.eff, e.pend) && Versions(e.eff, e.pend, e.ready, current)
  }

  // ---------------------------------------------------------------- the Trainer's calls

  datatype Event =
    | ERegister(key: ReplicaKey, replicas: seq<nat>, op: string)
    | EBootstrap(key: ReplicaKey, op: string, ev: Evidence)
    | ECommit(key: ReplicaKey, ev: Evidence)
    | EDiscard(key: ReplicaKey)
    | ERemove(key: ReplicaKey)
    | ESynced            // a native synchronisation succeeded
    | ETrained           // the parameter version grew

  /** The Trainer passes its current parameter version; a call that raises changes nothing. */
  datatype State = State(e: View, current: nat)

  function Step(s: State, x: Event): State {
    match x
    case ERegister(k, rs, op) => (match RegisterPending(s.e, k, rs, op) case Ok(n) => s.(e := n) case Err => s)
    case EBootstrap(k, op, ev) => (match Bootstrap(s.e, k, op, s.current, ev) case Ok(p) => s.(e := p.0) case Err => s)
    case ECommit(k, ev) => (match CommitPending(s.e, k, ev, s.current) case Ok(n) => s.(e := n) case Err => s)
    case EDiscard(k) => s.(e := DiscardPending(s.e, k))
    case ERemove(k) => s.(e := RemoveEffective(s.e, k))
    case ESynced => s.(e := MarkAll(s.e, s.current))
    case ETrained => s.(current := s.current + 1)
  }

  function Run(s: State, xs: seq<Event>): State {
    if xs == [] then s else Step(Run(s, xs[..|xs| - 1]), xs[|xs| - 1])
  }

  // ---------------------------------------------------------------- every call keeps the invariant

  lemma RegisterKeeps(e: View, key: ReplicaKey, rs: seq<nat>, op: string, current: nat)
    requires Inv(e, current) && RegisterPending(e, key, rs, op).Ok?
    ensures Inv(RegisterPending(e, key, rs, op).value, current)
  {
    var n := RegisterPending(e, key, rs, op).value;
    if key !in e.eff && key !in e.pend {
      forall k | k in e.eff ensures Disjoint(e.eff[k].replicas, rs) { assert Disjoint(rs, e.eff[k].replicas); }
      assert OneKey(e.eff, n.pend);
      assert Versions(e.eff, n.pend, e.ready, current);
    }
  }

  lemma BootstrapKeeps(e: View, key: ReplicaKey, op: string, version: nat, ev: Evidence)
    requires Inv(e, version) && Bootstrap(e, key, op, version, ev).Ok?
    ensures Inv(Bootstrap(e, key, op, version, ev).value.0, version)
  {
    var n := Bootstrap(e, key, op, version, ev).value.0;
    assert Versions(e.eff, e.pend, n.ready, version);
  }

  lemma DistinctConcat(a: seq<nat>, b: seq<nat>)
    requires Distinct(a) && Distinct(b) && Disjoint(b, a)
    ensures Distinct(a + b)
  {
    forall i, j | 0 <= i < j < |a + b| ensures (a + b)[i] != (a + b)[j] {
      if i < |a| <= j { assert (a + b)[j] in b; }
    }
  }

  lemma PromoteUnion(eff: map<ReplicaKey, Member>, native: seq<nat>, key: ReplicaKey, m: Member)
    requires NativeIsUnion(eff, native) && Distinct(m.replicas) && key !in eff
    ensures NativeIsUnion(eff[key := m], native + Missing(m.replicas, native))
  {
    var all, n := eff[key := m], native + Missing(m.replicas, native);
    DistinctConcat(native, Missing(m.replicas, native));
    forall r | r in n ensures exists k :: k in all && r in all[k].replicas {
      if r in native {
        var k :| k in eff && r in eff[k].replicas;
        assert r in all[k].replicas;
      } else {
        assert r in all[key].replicas;
      }
    }
  }

  lemma CommitKeeps(e: View, key: ReplicaKey, ev: Evidence, version: nat)
    requires Inv(e, version) && CommitPending(e, key, ev, version).Ok?
    ensures Inv(CommitPending(e, key, ev, version).value, version)
  {
    if key in e.pend {
      var m := Member(e.pend[key].replicas, version);
      PromoteUnion(e.eff, e.native, key, m);
      PromoteKeys(e.eff, e.pend, key, version);
      assert Versions(e.eff[key := m], e.pend - {key}, e.ready, version);
    }
  }

  lemma PromoteKeys(eff: map<ReplicaKey, Member>, pend: map<ReplicaKey, Pending>, key: ReplicaKey, version: nat)
    requires OneKey(eff, pend) && key in pend
    ensures OneKey(eff[key := Member(pend[key].replicas, version)], pend - {key})
  {
    forall k | k in eff ensures Disjoint(pend[key].replicas, eff[k].replicas) {
      assert Disjoint(eff[k].replicas, pend[key].replicas);
    }
  }

  lemma DiscardKeeps(e: View, key: ReplicaKey, current: nat)
    requires Inv(e, current)
    ensures Inv(DiscardPending(e, key), current)
  {
    var n := DiscardPending(e, key);
    assert OneKey(e.eff, n.pend);
    assert Versions(e.eff, n.pend, n.ready, current);
  }

  lemma RemoveUnion(eff: map<ReplicaKey, Member>, pend: map<ReplicaKey, Pending>, native: seq<nat>, key: ReplicaKey)
    requires NativeIsUnion(eff, native) && OneKey(eff, pend) && key in eff
    ensures NativeIsUnion(eff - {key}, Without(native, eff[key].replicas))
  {
    var rest, n := eff - {key}, Without(native, eff[key].replicas);
    forall r | r in n ensures exists k :: k in rest && r in rest[k].replicas {
      var k :| k in eff && r in eff[k].replicas;
      assert k in rest;
    }
  }

  lemma RemoveKeeps(e: View, key: ReplicaKey, current: nat)
    requires Inv(e, current)
    ensures Inv(RemoveEffective(e, key), current)
  {
    if key in e.eff {
      RemoveUnion(e.eff, e.pend, e.native, key);
      var n := RemoveEffective(e, key);
      assert OneKey(n.eff, n.pend);
      assert Versions(n.eff, n.pend, n.ready, current);
    } else {
      DiscardKeeps(e, key, current);
    }
  }

  lemma MarkKeeps(e: View, current: nat)
    requires Inv(e, current)
    ensures Inv(MarkAll(e, current), current)
  {
    var n := MarkAll(e, current).eff;
    assert NativeIsUnion(n, e.native) by { MarkUnion(e.eff, e.native, current); }
    assert OneKey(n, e.pend);
    assert Versions(n, e.pend, e.ready, current);
  }

  lemma MarkUnion(eff: map<ReplicaKey, Member>, native: seq<nat>, version: nat)
    requires NativeIsUnion(eff, native)
    ensures NativeIsUnion(map k | k in eff :: Member(eff[k].replicas, version), native)
  {
    var n := map k | k in eff :: Member(eff[k].replicas, version);
    forall r | r in native ensures exists k :: k in n && r in n[k].replicas {
      var k :| k in eff && r in eff[k].replicas;
      assert r in n[k].replicas;
    }
  }

  lemma StepKeeps(s: State, x: Event)
    requires Inv(s.e, s.current)
    ensures Inv(Step(s, x).e, Step(s, x).current)
  {
    match x
    case ERegister(k, rs, op) => if RegisterPending(s.e, k, rs, op).Ok? { RegisterKeeps(s.e, k, rs, op, s.current); }
    case EBootstrap(k, op, ev) =>
      if Bootstrap(s.e, k, op, s.current, ev).Ok? { BootstrapKeeps(s.e, k, op, s.current, ev); }
    case ECommit(k, ev) => if CommitPending(s.e, k, ev, s.current).Ok? { CommitKeeps(s.e, k, ev, s.current); }
    case EDiscard(k) => DiscardKeeps(s.e, k, s.current);
    case ERemove(k) => RemoveKeeps(s.e, k, s.current);
    case ESynced => MarkKeeps(s.e, s.current);
    case ETrained => assert Versions(s.e.eff, s.e.pend, s.e.ready, s.current + 1);
  }

  lemma {:induction false} RunKeeps(s: State, xs: seq<Event>)
    requires Inv(s.e, s.current)
    ensures Inv(Run(s, xs).e, Run(s, xs).current)
  {
    if xs != [] {
      RunKeeps(s, xs[..|xs| - 1]);
      StepKeeps(Run(s, xs[..|xs| - 1]), xs[|xs| - 1]);
    }
  }

  // ---------------------------------------------------------------- theorems

  /** The empty manager plus any registered natives at the starting version. */
  ghost predicate Begun(s: State) {
    && Inv(s.e, s.current) && s.e.pend == map[] && s.e.ready == map[]
    && (forall k | k in s.e.eff :: s.e.eff[k].version == s.current)
  }

  /** The Trainer's setup: the parent starts with all runtimes, and each is then added under its own key. */
  function Setup(native: seq<nat>, keys: seq<ReplicaKey>, rs: seq<nat>, version: nat): Result<View>
    requires |keys| == |rs|
  {
    if keys == [] then Ok(View(map[], map[], map[], native))
    else match Setup(native, keys[..|keys| - 1], rs[..|rs| - 1], version)
      case Ok(e) => AddEffective(e, keys[|keys| - 1], [rs[|rs| - 1]], version)
      case Err => Err
  }

  /** The state after the natives in `keys` have been added. */
  ghost predicate Added(e: View, native: seq<nat>, keys: seq<ReplicaKey>, rs: seq<nat>, version: nat)
    requires |keys| == |rs|
  {
    && e.native == native && e.pend == map[] && e.ready == map[]
    && (forall i | 0 <= i < |keys| :: keys[i] in e.eff && e.eff[keys[i]] == Member([rs[i]], version))
    && (forall k | k in e.eff :: k in keys)
  }

  lemma AddNative(e: View, key: ReplicaKey, r: nat, version: nat)
    requires e.pend == map[] && key !in e.eff && r in e.native && forall k | k in e.eff :: r !in e.eff[k].replicas
    ensures AddEffective(e, key, [r], version) == Ok(e.(eff := e.eff[key := Member([r], version)]))
  {
    assert [r][..0] == [];
    assert Missing([r], e.native) == [] && e.native + [] == e.native;
    assert Valid(e, key, [r]);
  }

  lemma AddedOneMore(e: View, native: seq<nat>, keys: seq<ReplicaKey>, rs: seq<nat>, version: nat)
    requires |keys| == |rs| && keys != [] && Distinct(keys) && Distinct(rs)
    requires Added(e, native, keys[..|keys| - 1], rs[..|rs| - 1], version)
    ensures keys[|keys| - 1] !in e.eff && (forall k | k in e.eff :: rs[|rs| - 1] !in e.eff[k].replicas)
    ensures Added(e.(eff := e.eff[keys[|keys| - 1] := Member([rs[|rs| - 1]], version)]), native, keys, rs, version)
  {
    var n := |keys| - 1;
    forall k | k in e.eff ensures k != keys[n] && rs[n] !in e.eff[k].replicas {
      var i :| 0 <= i < n && keys[..n][i] == k;
      assert e.eff[keys[..n][i]] == Member([rs[..n][i]], version);
    }
    var m := e.eff[keys[n] := Member([rs[n]], version)];
    forall i | 0 <= i < |keys| ensures keys[i] in m && m[keys[i]] == Member([rs[i]], version) {
      if i < n { assert keys[i] == keys[..n][i] && rs[i] == rs[..n][i]; }
    }
  }

  lemma {:induction false} SetupAdds(native: seq<nat>, keys: seq<ReplicaKey>, rs: seq<nat>, version: nat)
    requires |keys| == |rs| && Distinct(keys) && Distinct(rs) && forall i | 0 <= i < |rs| :: rs[i] in native
    ensures Setup(native, keys, rs, version).Ok?
            && Added(Setup(native, keys, rs, version).value, native, keys, rs, version)
  {
    if keys != [] {
      var n := |keys| - 1;
      SetupAdds(native, keys[..n], rs[..n], version);
      var e := Setup(native, keys[..n], rs[..n], version).value;
      AddedOneMore(e, native, keys, rs, version);
      AddNative(e, keys[n], rs[n], version);
    }
  }

  lemma {:induction false} AddedInv(e: View, keys: seq<ReplicaKey>, rs: seq<nat>, version: nat)
    requires |keys| == |rs| && Distinct(keys) && Distinct(rs) && Added(e, rs, keys, rs, version)
    ensures Inv(e, version) && forall k | k in e.eff :: e.eff[k].version == version
  {
    forall r | r in e.native ensures exists k :: k in e.eff && r in e.eff[k].replicas {
      var i :| 0 <= i < |rs| && rs[i] == r;
      assert keys[i] in e.eff && r in e.eff[keys[i]].replicas;
    }
    forall k, j | k in e.eff && j in e.eff && k != j ensures Disjoint(e.eff[k].replicas, e.eff[j].replicas) {
      var a :| 0 <= a < |keys| && k == keys[a];
      var b :| 0 <= b < |keys| && j == keys[b];
    }
    forall k | k in e.eff ensures e.eff[k].version == version && forall r | r in e.eff[k].replicas :: r in e.native {
      var a :| 0 <= a < |keys| && k == keys[a];
    }
    assert NativeIsUnion(e.eff, e.native);
    assert Versions(e.eff, e.pend, e.ready, version);
  }

  /** Natives with distinct keys and runtimes are all accepted, and the run begins with every one a member. */
  lemma {:induction false} SetupBegins(keys: seq<ReplicaKey>, rs: seq<nat>, version: nat)
    requires |keys| == |rs| && Distinct(keys) && Distinct(rs)
    ensures Setup(rs, keys, rs, version).Ok? && Begun(State(Setup(rs, keys, rs, version).value, version))
  {
    SetupAdds(rs, keys, rs, version);
    AddedInv(Setup(rs, keys, rs, version).value, keys, rs, version);
  }

  /**
   * In every run the Trainer drives, native synchronisation covers exactly the effective members, each runtime once;
   * pending and effective keys are disjoint; no runtime has two keys; no version runs ahead of training.
   */
  lemma {:induction false} NativeListIsMembership(s: State, xs: seq<Event>)
    requires Begun(s)
    ensures var e := Run(s, xs).e;
      && Distinct(e.native) && (forall r :: r in e.native <==> exists k :: k in e.eff && r in e.eff[k].replicas)
      && e.pend.Keys !! e.eff.Keys
      && (forall k, j | k in e.eff && j in e.eff && k != j :: Disjoint(e.eff[k].replicas, e.eff[j].replicas))
      && (forall k, j | k in e.eff && j in e.pend :: Disjoint(e.eff[k].replicas, e.pend[j].replicas))
      && (forall k | k in e.eff :: e.eff[k].version <= Run(s, xs).current)
  {
    RunKeeps(s, xs);
  }

  /**
   * A key becomes effective only by its own operation's WEIGHT_READY, at exactly the version that was bootstrapped
   * and is current.
   */
  lemma PromotedAtConfirmedVersion(s: State, x: Event, k: ReplicaKey)
    requires Inv(s.e, s.current) && k !in s.e.eff && k in Step(s, x).e.eff
    ensures x.ECommit? && x.key == k && k in s.e.pend && k in s.e.ready && s.e.pend[k].op == x.ev.op
    ensures s.e.ready[k] == Receipt(x.ev.op, s.current, x.ev)
    ensures Step(s, x).e.eff[k] == Member(s.e.pend[k].replicas, s.current)
  {
  }

  /** While a key stays a member its version never falls. */
  lemma StepNeverFalls(s: State, x: Event, k: ReplicaKey)
    requires Inv(s.e, s.current) && k in s.e.eff && k in Step(s, x).e.eff
    ensures s.e.eff[k].version <= Step(s, x).e.eff[k].version && Step(s, x).e.eff[k].replicas == s.e.eff[k].replicas
  {
  }

  ghost predicate StaysMember(s: State, xs: seq<Event>, k: ReplicaKey) {
    forall i | 0 <= i <= |xs| :: k in Run(s, xs[..i]).e.eff
  }

  lemma {:induction false} VersionNeverFalls(s: State, xs: seq<Event>, k: ReplicaKey)
    requires Inv(s.e, s.current) && StaysMember(s, xs, k)
    ensures k in s.e.eff && k in Run(s, xs).e.eff && s.e.eff[k].version <= Run(s, xs).e.eff[k].version
  {
    assert xs[..0] == [] && xs[..|xs|] == xs;
    if xs != [] {
      var ys := xs[..|xs| - 1];
      forall i | 0 <= i <= |ys| ensures k in Run(s, ys[..i]).e.eff { assert ys[..i] == xs[..i]; }
      VersionNeverFalls(s, ys, k);
      RunKeeps(s, ys);
      StepNeverFalls(Run(s, ys), xs[|xs| - 1], k);
    }
  }

  /** Every member has been brought to version `v` or beyond. */
  ghost predicate AllFrom(e: View, v: nat) {
    forall k | k in e.eff :: v <= e.eff[k].version
  }

  lemma StepKeepsFrom(s: State, x: Event, v: nat)
    requires Inv(s.e, s.current) && AllFrom(s.e, v) && v <= s.current
    ensures AllFrom(Step(s, x).e, v) && v <= Step(s, x).current
    ensures x != ETrained ==> Step(s, x).current == s.current
  {
    forall k | k in Step(s, x).e.eff ensures v <= Step(s, x).e.eff[k].version {
      if k in s.e.eff { StepNeverFalls(s, x, k); } else { PromotedAtConfirmedVersion(s, x, k); }
    }
  }

  lemma {:induction false} RunKeepsFrom(s: State, ys: seq<Event>, v: nat)
    requires Inv(s.e, s.current) && AllFrom(s.e, v) && v <= s.current
    ensures AllFrom(Run(s, ys).e, v) && v <= Run(s, ys).current
    ensures ETrained !in ys ==> Run(s, ys).current == s.current
  {
    if ys != [] {
      RunKeepsFrom(s, ys[..|ys| - 1], v);
      RunKeeps(s, ys[..|ys| - 1]);
      StepKeepsFrom(Run(s, ys[..|ys| - 1]), ys[|ys| - 1], v);
    }
  }

  lemma {:induction false} RunConcat(s: State, xs: seq<Event>, ys: seq<Event>)
    ensures Run(s, xs + ys) == Run(Run(s, xs), ys)
  {
    if ys == [] {
      assert xs + ys == xs;
    } else {
      RunConcat(s, xs, ys[..|ys| - 1]);
      assert (xs + ys)[..|xs + ys| - 1] == xs + ys[..|ys| - 1];
    }
  }

  /**
   * After a successful native synchronisation at version `v`, whatever is removed, rolled back or promoted later, no
   * member is ever older than `v`; and until training moves on every member is exactly at the current version.
   */
  lemma {:induction false} SyncedAtCurrent(s: State, xs: seq<Event>, ys: seq<Event>, k: ReplicaKey)
    requires Begun(s) && k in Run(s, xs + [ESynced] + ys).e.eff
    ensures var n, v := Run(s, xs + [ESynced] + ys), Run(s, xs).current;
      && v <= n.e.eff[k].version <= n.current
      && (ETrained !in ys ==> n.e.eff[k].version == n.current == v)
  {
    var a, b := Run(s, xs), Run(s, xs + [ESynced]);
    RunConcat(s, xs + [ESynced], ys);
    RunKeeps(s, xs);
    RunKeeps(s, xs + [ESynced] + ys);
    assert (xs + [ESynced])[..|xs|] == xs;
    assert b == Step(a, ESynced);
    StepKeeps(a, ESynced);
    RunKeepsFrom(b, ys, a.current);
  }
}
