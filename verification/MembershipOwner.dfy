/** The Trainer-owned object that writes E: the calls of Membership on fields, with the source's loops. */
module MembershipOwner {
  import opened Contracts
  import opened Membership

  class MultiTaskCheckpointEngineManager {
    var effective: map<ReplicaKey, Member>
    var pending: map<ReplicaKey, Pending>
    var ready: map<ReplicaKey, Receipt>
    var replicas: seq<nat>

    ghost function State(): View
      reads this
    {
      View(effective, pending, ready, replicas)
    }

    constructor (native: seq<nat>)
      ensures State() == View(map[], map[], map[], native)
    {
      effective, pending, ready, replicas := map[], map[], map[], native;
    }

    method AnyShared(xs: seq<nat>, ys: seq<nat>) returns (shared: bool)
      ensures shared <==> !Disjoint(xs, ys)
    {
      for i := 0 to |xs|
        invariant forall j | 0 <= j < i :: xs[j] !in ys
      {
        if xs[i] in ys { return true; }
      }
      shared := false;
    }

    method HasDuplicate(xs: seq<nat>) returns (duplicate: bool)
      ensures duplicate <==> !Distinct(xs)
    {
      for i := 0 to |xs|
        invariant Distinct(xs[..i])
      {
        if xs[i] in xs[..i] {
          var j :| 0 <= j < i && xs[j] == xs[i];
          assert !Distinct(xs);
          return true;
        }
      }
      assert xs[..|xs|] == xs;
      duplicate := false;
    }

    method ValidateRuntimeMembership(key: ReplicaKey, rs: seq<nat>) returns (ok: bool)
      ensures ok <==> Valid(State(), key, rs)
    {
      var duplicate := HasDuplicate(rs);
      if duplicate { return false; }
      var todo := effective.Keys;
      while todo != {}
        invariant todo <= effective.Keys
        invariant forall k | k in effective && k !in todo && k != key :: Disjoint(rs, effective[k].replicas)
        decreases |todo|
      {
        var k :| k in todo;
        var shared := AnyShared(rs, effective[k].replicas);
        if k != key && shared { return false; }
        todo := todo - {k};
      }
      todo := pending.Keys;
      while todo != {}
        invariant todo <= pending.Keys
        invariant forall k | k in pending && k !in todo && k != key :: Disjoint(rs, pending[k].replicas)
        decreases |todo|
      {
        var k :| k in todo;
        var shared := AnyShared(rs, pending[k].replicas);
        if k != key && shared { return false; }
        todo := todo - {k};
      }
      ok := true;
    }

    method RegisterPending(key: ReplicaKey, rs: seq<nat>, op: string) returns (ok: bool)
      modifies this`pending
      ensures Membership.RegisterPending(old(State()), key, rs, op) == if ok then Ok(State()) else Err
      ensures !ok ==> State() == old(State())
    {
      if op == "" || rs == [] { return false; }
      var valid := ValidateRuntimeMembership(key, rs);
      if !valid { return false; }
      if key in effective { return effective[key].replicas == rs && key in ready && ready[key].op == op; }
      if key in pending { return pending[key] == Pending(rs, op); }
      var shared := AnyShared(rs, replicas);
      if shared { return false; }
      pending := pending[key := Pending(rs, op)];
      ok := true;
    }

    /** `ev` is the evidence of the transfer, if it succeeds; the evidence answered may be an earlier one. */
    method BootstrapTarget(key: ReplicaKey, op: string, version: nat, ev: Evidence) returns (r: Result<Evidence>)
      requires ev.op == op && ev.typ == WEIGHT_READY
      modifies this`ready
      ensures r.Ok? ==> Bootstrap(old(State()), key, op, version, ev) == Ok((State(), r.value))
      ensures r.Err? ==> Bootstrap(old(State()), key, op, version, ev).Err? && State() == old(State())
    {
      if op == "" { return Err; }
      if key in ready {
        if ready[key].op != op || ready[key].version != version { return Err; }
        return Ok(ready[key].ev);
      }
      if key !in pending || pending[key].op != op { return Err; }
      ready := ready[key := Receipt(op, version, ev)];
      r := Ok(ev);
    }

    /** The native parent's add_replicas appends what it is given, in order. */
    method AddMissing(rs: seq<nat>)
      modifies this`replicas
      ensures replicas == old(replicas) + Missing(rs, old(replicas))
    {
      var native := replicas;
      var missing: seq<nat> := [];
      for i := 0 to |rs|
        invariant missing == Missing(rs[..i], native) && replicas == native
      {
        if rs[i] !in native { missing := missing + [rs[i]]; }
        assert rs[..i + 1][..i] == rs[..i];
      }
      assert rs[..|rs|] == rs;
      replicas := native + missing;
    }

    /** The native parent's remove_replicas filters its list. */
    method RemoveReplicas(rs: seq<nat>)
      modifies this`replicas
      ensures replicas == Without(old(replicas), rs)
    {
      var native := replicas;
      var rest: seq<nat> := [];
      for i := 0 to |native|
        invariant rest == Without(native[..i], rs)
      {
        if native[i] !in rs { rest := rest + [native[i]]; }
        assert native[..i + 1][..i] == native[..i];
      }
      assert native[..|native|] == native;
      replicas := rest;
    }

    method AddEffective(key: ReplicaKey, rs: seq<nat>, version: nat) returns (ok: bool)
      modifies this`effective, this`replicas
      ensures Membership.AddEffective(old(State()), key, rs, version) == if ok then Ok(State()) else Err
      ensures !ok ==> State() == old(State())
    {
      if rs == [] { return false; }
      var valid := ValidateRuntimeMembership(key, rs);
      if !valid || (key in effective && effective[key] != Member(rs, version)) { return false; }
      AddMissing(rs);
      effective := effective[key := Member(rs, version)];
      ok := true;
    }

    method CommitPending(key: ReplicaKey, ev: Evidence, version: nat) returns (ok: bool)
      modifies this`effective, this`pending, this`replicas
      ensures Membership.CommitPending(old(State()), key, ev, version) == if ok then Ok(State()) else Err
      ensures !ok ==> State() == old(State())
    {
      if ev.typ != WEIGHT_READY { return false; }
      if key !in pending && key in ready && key in effective {
        return ready[key] == Receipt(ev.op, version, ev) && effective[key].version == version;
      }
      if key !in pending || pending[key].op != ev.op { return false; }
      if key !in ready || ready[key] != Receipt(ev.op, version, ev) { return false; }
      ok := AddEffective(key, pending[key].replicas, version);
      if ok { pending := pending - {key}; }
    }

    method DiscardPending(key: ReplicaKey)
      modifies this`pending, this`ready
      ensures State() == Membership.DiscardPending(old(State()), key)
    {
      pending, ready := pending - {key}, ready - {key};
    }

    method RemoveEffective(key: ReplicaKey)
      modifies this
      ensures State() == Membership.RemoveEffective(old(State()), key)
    {
      if key in effective {
        RemoveReplicas(effective[key].replicas);
        effective := effective - {key};
      }
      DiscardPending(key);
    }

    method MarkAllLoadedVersion(version: nat)
      modifies this`effective
      ensures State() == MarkAll(old(State()), version)
    {
      ghost var before := effective;
      var todo := effective.Keys;
      while todo != {}
        invariant todo <= before.Keys && effective.Keys == before.Keys
        invariant forall k | k in todo :: effective[k] == before[k]
        invariant forall k | k in before && k !in todo :: effective[k] == Member(before[k].replicas, version)
        decreases |todo|
      {
        var k :| k in todo;
        effective := effective[k := Member(effective[k].replicas, version)];
        todo := todo - {k};
      }
      assert effective == map k | k in before :: Member(before[k].replicas, version);
    }
  }
}
