/** The Rollouter-owned object that writes M: the same calls as ReplicaLedger, on fields. */
module ManagerOwner {
  import opened Contracts
  import opened ReplicaLedger

  /** What a runtime handle says about its server. */
  datatype Slot = Slot(runtime: nat, address: string, handle: string)

  class MultiTaskLLMServerManager {
    const taskSession: string
    var replicaState: map<ReplicaKey, ReplicaState>
    var replicaKind: map<ReplicaKey, ReplicaKind>
    var runtimeInventory: map<ReplicaKey, nat>
    var nextReplicaRank: nat
    var borrowedOperations: map<string, Creation>
    var nativeReleaseEvidence: map<string, SleepRecord>
    ghost var built: map<string, nat>
    var rolloutReplicas: seq<nat>
    var serverAddresses: seq<string>
    var serverHandles: seq<string>

    ghost function View(): ReplicaLedger.View
      reads this
    {
      ReplicaLedger.View(replicaState, replicaKind, runtimeInventory, nextReplicaRank, borrowedOperations,
                         nativeReleaseEvidence, built)
    }

    constructor (session: string)
      ensures taskSession == session && Begun(View()) && runtimeInventory == map[] && nextReplicaRank == 0
      ensures ServiceValid() && rolloutReplicas == [] && serverAddresses == []
    {
      taskSession := session;
      replicaState, replicaKind, runtimeInventory, nextReplicaRank := map[], map[], map[], 0;
      borrowedOperations, nativeReleaseEvidence, built := map[], map[], map[];
      rolloutReplicas, serverAddresses, serverHandles := [], [], [];
    }

    method RegisterReplica(key: ReplicaKey, kind: ReplicaKind, state: ReplicaState, runtime: Option<nat>)
      returns (ok: bool)
      modifies this`replicaState, this`replicaKind, this`runtimeInventory
      ensures Registers(old(View()), key, kind, state, runtime) == if ok then Ok(View()) else Err
      ensures !ok ==> View() == old(View())
    {
      if key in replicaState {
        if key !in replicaKind || replicaKind[key] != kind || replicaState[key] != state { return false; }
        if runtime.Some? {
          if key in runtimeInventory && runtimeInventory[key] != runtime.value { return false; }
          runtimeInventory := runtimeInventory[key := runtime.value];
        }
        return true;
      }
      if !KindFits(kind, state) { return false; }
      replicaKind := replicaKind[key := kind];
      replicaState := replicaState[key := state];
      if runtime.Some? { runtimeInventory := runtimeInventory[key := runtime.value]; }
      ok := true;
    }

    /** Register the i-th native runtime under its rank; afterwards the rank counter is above every native rank. */
    method InitializeServers(ranks: seq<nat>) returns (ok: bool)
      requires Begun(View())
      modifies this`replicaState, this`replicaKind, this`runtimeInventory, this`nextReplicaRank
      ensures Begun(View()) && nextReplicaRank >= old(nextReplicaRank)
      ensures ok ==> forall i | 0 <= i < |ranks| ::
                ranks[i] < nextReplicaRank && NativeKey(taskSession, ranks[i]) in runtimeInventory
                && runtimeInventory[NativeKey(taskSession, ranks[i])] == i
    {
      for i := 0 to |ranks|
        invariant Begun(View()) && nextReplicaRank >= old(nextReplicaRank)
        invariant forall j | 0 <= j < i ::
                  ranks[j] < nextReplicaRank && NativeKey(taskSession, ranks[j]) in runtimeInventory
                                           && runtimeInventory[NativeKey(taskSession, ranks[j])] == j
      {
        label before:
        ok := RegisterReplica(NativeKey(taskSession, ranks[i]), NATIVE, ACTIVE, Some(i));
        RegistrationBegins(old@before(View()), NativeKey(taskSession, ranks[i]), i);
        if !ok { return; }
        nextReplicaRank := if nextReplicaRank > ranks[i] + 1 then nextReplicaRank else ranks[i] + 1;
      }
      ok := true;
    }

    method TransitionReplica(key: ReplicaKey, to: ReplicaState) returns (ok: bool)
      requires StatesInv(View())
      modifies this`replicaState, this`runtimeInventory
      ensures StatesInv(View())
      ensures if ok then Transition(old(View()), key, to) == Ok(View())
              else Transition(old(View()), key, to).Err? && View() == old(View())
    {
      if key !in replicaState { return false; }
      var current := replicaState[key];
      if to == current { return true; }
      if !Allowed(current, to) { return false; }
      if replicaKind[key] == BORROWED && to == DORMANT { return false; }
      if replicaKind[key] == NATIVE && to == RELEASED { return false; }
      replicaState := replicaState[key := to];
      if to == RELEASED { runtimeInventory := runtimeInventory - {key}; }
      ok := true;
    }

    /**
     * The first critical section of create_borrowed_replica, after validation. `replayed` is an answer from the
     * record.
     */
    method BeginCreate(s: Spec) returns (started: bool, replayed: bool)
      modifies this
      ensures started ==> CreateBegins(old(View()), s) == Ok(View()) && !replayed
      ensures !started ==> CreateBegins(old(View()), s).Err? && View() == old(View()) && replayed == Replays(View(), s)
    {
      if s.lease in borrowedOperations {
        var existing := borrowedOperations[s.lease];
        return false, existing.spec == s && existing.progress == Ready;
      }
      if s.key in replicaState { return false, false; }
      var rank := nextReplicaRank;
      nextReplicaRank := nextReplicaRank + 1;
      replicaKind := replicaKind[s.key := BORROWED];
      replicaState := replicaState[s.key := CREATING];
      borrowedOperations := borrowedOperations[s.lease := Creation(s, rank, Started, None)];
      return true, false;
    }

    method NoteBuilt(lease: string)
      requires lease in borrowedOperations && borrowedOperations[lease].progress == Started
      modifies this`borrowedOperations, this`built
      ensures RuntimeBuilt(old(View()), lease) == Ok(View())
    {
      borrowedOperations := borrowedOperations[lease := borrowedOperations[lease].(progress := Built)];
      built := built[lease := (if lease in built then built[lease] else 0) + 1];
    }

    method FinishCreate(lease: string, runtime: nat)
      requires lease in borrowedOperations && borrowedOperations[lease].progress == Built
      modifies this`borrowedOperations, this`runtimeInventory
      ensures CreateSucceeds(old(View()), lease, runtime) == Ok(View())
    {
      var current := borrowedOperations[lease];
      borrowedOperations := borrowedOperations[lease := current.(progress := Ready)];
      runtimeInventory := runtimeInventory[current.spec.key := runtime];
    }

    method FailCreate(lease: string, cleaned: bool)
      requires StatesInv(View()) && lease in borrowedOperations
               && borrowedOperations[lease].progress in {Started, Built}
      modifies this`borrowedOperations, this`replicaState, this`runtimeInventory
      ensures CreateFails(old(View()), lease, cleaned) == Ok(View())
    {
      var current := borrowedOperations[lease];
      if current.spec.key in replicaState && replicaState[current.spec.key] == CREATING {
        var _ := TransitionReplica(current.spec.key, if cleaned || current.progress == Started then RELEASED
                                   else QUARANTINED);
      }
      borrowedOperations := borrowedOperations[lease := current.(progress := Failed)];
    }

    /** `asleep` is the backend's receipt for the deep sleep, `gpu` the placement it reports. */
    method Sleep(key: ReplicaKey, op: string, gpu: string, asleep: bool, stamp: nat) returns (r: Result<Evidence>)
      requires StatesInv(View())
      modifies this`nativeReleaseEvidence
      ensures r.Ok? ==> SleepSucceeds(old(View()), key, op, gpu, stamp) == Ok((View(), r.value))
      ensures r.Ok? ==> op in old(nativeReleaseEvidence) || asleep
      ensures r.Err? ==> View() == old(View()) && (SleepSucceeds(old(View()), key, op, gpu, stamp).Err? || !asleep)
    {
      if op == "" || key !in replicaKind || replicaKind[key] != NATIVE { return Err; }
      if op in nativeReleaseEvidence {
        var previous := nativeReleaseEvidence[op];
        return if previous.key == key then Ok(previous.ev) else Err;
      }
      if replicaState[key] != DRAINING || key !in runtimeInventory || gpu == "" || !asleep { return Err; }
      var ev := Evidence(op, RELEASE_PROVED, stamp, [gpu]);
      nativeReleaseEvidence := nativeReleaseEvidence[op := SleepRecord(key, ev)];
      r := Ok(ev);
    }

    /** `_borrowed_record_for_key`: the search over all records must find exactly one. */
    method RecordForKey(key: ReplicaKey) returns (lease: Option<string>)
      ensures lease.Some? ==> RecordsOf(View(), key) == {lease.value}
      ensures lease.None? ==> forall l :: RecordsOf(View(), key) != {l}
    {
      var todo := borrowedOperations.Keys;
      var found: set<string> := {};
      while todo != {}
        invariant todo <= borrowedOperations.Keys
        invariant found == set l | l in borrowedOperations && l !in todo && borrowedOperations[l].spec.key == key
        decreases |todo|
      {
        var l :| l in todo;
        if borrowedOperations[l].spec.key == key { found := found + {l}; }
        todo := todo - {l};
      }
      assert found == RecordsOf(View(), key);
      if |found| == 1 {
        var l :| l in found;
        Singleton(found, l);
        return Some(l);
      }
      lease := None;
    }

    /** `cleaned` is the backend's proof that every borrowed actor is dead. */
    method Destroy(key: ReplicaKey, op: string, cleaned: bool, stamp: nat) returns (r: Result<Evidence>)
      requires StatesInv(View())
      modifies this`borrowedOperations
      ensures r.Ok? ==> exists l :: DestroySucceeds(old(View()), key, op, l, stamp) == Ok((View(), r.value))
      ensures r.Err? ==> View() == old(View())
      ensures r.Err? ==> !cleaned || forall l :: DestroySucceeds(old(View()), key, op, l, stamp).Err?
    {
      if op == "" || key !in replicaKind || replicaKind[key] != BORROWED { return Err; }
      var lease := RecordForKey(key);
      if lease.None? { return Err; }
      assert lease.value in RecordsOf(View(), key);
      var record := borrowedOperations[lease.value];
      assert forall l | RecordsOf(View(), key) == {l} :: l == lease.value;
      if record.destroyed.Some? {
        r := if record.destroyed.value.op == op then Ok(record.destroyed.value) else Err;
        assert r.Ok? ==> DestroySucceeds(old(View()), key, op, lease.value, stamp) == Ok((View(), r.value));
        return;
      }
      if replicaState[key] !in {CREATING, DRAINING} || key !in runtimeInventory || !cleaned { return Err; }
      var ev := Evidence(op, RELEASE_PROVED, stamp, record.spec.gpus);
      borrowedOperations := borrowedOperations[lease.value := record.(destroyed := Some(ev))];
      r := Ok(ev);
      assert DestroySucceeds(old(View()), key, op, lease.value, stamp) == Ok((View(), ev));
    }

    // -------------------------------------------------------------- native service lists

    /** Addresses and handles stay parallel, and neither a runtime nor an address is listed twice. */
    ghost predicate ServiceValid()
      reads this
    {
      |serverAddresses| == |serverHandles| && Distinct(serverAddresses) && Distinct(rolloutReplicas)
    }

    method IndexOf<T(==)>(s: seq<T>, x: T) returns (i: nat)
      ensures i <= |s| && (i == |s| <==> x !in s) && (i < |s| ==> s[i] == x)
    {
      i := 0;
      while i < |s| && s[i] != x
        invariant i <= |s| && x !in s[..i]
      {
        i := i + 1;
      }
    }

    method ActivateService(slot: Slot) returns (ok: bool)
      requires ServiceValid()
      modifies this`rolloutReplicas, this`serverAddresses, this`serverHandles
      ensures ServiceValid()
      ensures !ok ==> unchanged(this)
      ensures ok ==> slot.runtime in rolloutReplicas && slot.address in serverAddresses
      ensures ok && slot.runtime !in old(rolloutReplicas) && slot.address !in old(serverAddresses) ==>
                rolloutReplicas == old(rolloutReplicas) + [slot.runtime]
                && serverAddresses == old(serverAddresses) + [slot.address]
                && serverHandles == old(serverHandles) + [slot.handle]
      ensures slot.address != "" && slot.handle != "" && slot.address !in old(serverAddresses) ==> ok
    {
      if slot.address == "" || slot.handle == "" { return false; }
      var i := IndexOf(serverAddresses, slot.address);
      if i < |serverAddresses| && serverHandles[i] != slot.handle { return false; }
      if slot.runtime !in rolloutReplicas { rolloutReplicas := rolloutReplicas + [slot.runtime]; }
      if i == |serverAddresses| {
        serverAddresses := serverAddresses + [slot.address];
        serverHandles := serverHandles + [slot.handle];
      }
      ok := true;
    }

    method DeactivateService(slot: Slot) returns (ok: bool)
      requires ServiceValid()
      modifies this`rolloutReplicas, this`serverAddresses, this`serverHandles
      ensures ServiceValid()
      ensures !ok ==> unchanged(this)
      ensures ok <==> forall i | 0 <= i < |old(serverAddresses)| && old(serverAddresses)[i] == slot.address ::
                        old(serverHandles)[i] == slot.handle
      ensures ok ==> slot.runtime !in rolloutReplicas && slot.address !in serverAddresses
      ensures ok ==> forall r | r != slot.runtime :: r in rolloutReplicas <==> r in old(rolloutReplicas)
      ensures ok && old(rolloutReplicas) != [] && old(serverAddresses) != []
              && old(rolloutReplicas)[|old(rolloutReplicas)| - 1] == slot.runtime
              && old(serverAddresses)[|old(serverAddresses)| - 1] == slot.address ==>
                rolloutReplicas == old(rolloutReplicas)[..|old(rolloutReplicas)| - 1]
                && serverAddresses == old(serverAddresses)[..|old(serverAddresses)| - 1]
                && serverHandles == old(serverHandles)[..|old(serverHandles)| - 1]
    {
      var i := IndexOf(serverAddresses, slot.address);
      if i < |serverAddresses| && serverHandles[i] != slot.handle { return false; }
      var j := IndexOf(rolloutReplicas, slot.runtime);
      if j < |rolloutReplicas| { rolloutReplicas := rolloutReplicas[..j] + rolloutReplicas[j + 1..]; }
      if i < |serverAddresses| {
        serverAddresses := serverAddresses[..i] + serverAddresses[i + 1..];
        serverHandles := serverHandles[..i] + serverHandles[i + 1..];
      }
      ok := true;
    }

    /** Retracting a service that was just published puts the native lists back exactly as they were. */
    method PublishThenRetract(slot: Slot) returns (ok: bool)
      requires ServiceValid() && slot.address != "" && slot.handle != ""
      requires slot.runtime !in rolloutReplicas && slot.address !in serverAddresses
      modifies this`rolloutReplicas, this`serverAddresses, this`serverHandles
      ensures ok && rolloutReplicas == old(rolloutReplicas)
      ensures serverAddresses == old(serverAddresses) && serverHandles == old(serverHandles)
    {
      var up := ActivateService(slot);
      ok := DeactivateService(slot);
    }
  }

  lemma Singleton(s: set<string>, x: string)
    requires |s| == 1 && x in s
    ensures s == {x}
  {
    assert |s - {x}| == 0;
  }
}
