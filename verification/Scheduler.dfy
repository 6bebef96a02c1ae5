/**
 * The GroupScheduler actor: its dictionaries are updated in place, and every call is the ledger step of LeaseLedger.
 */
module Scheduler {
  import opened Contracts
  import opened LeaseLedger

  function GpuUuids(l: LeaseData): (s: seq<string>)
    ensures Elements(s) == l.Gpus()
  {
    var s := seq(|l.claims|, i requires 0 <= i < |l.claims| => l.claims[i].gpu);
    assert forall g | g in l.Gpus() :: g in s by {
      forall g | g in l.Gpus() ensures g in s {
        var c :| c in l.claims && c.gpu == g;
        var i :| 0 <= i < |l.claims| && l.claims[i] == c;
        assert s[i] == g;
      }
    }
    s
  }

  function BundleKeys(l: LeaseData): (s: seq<(string, nat)>)
    ensures Elements(s) == l.Bundles()
  {
    var s := seq(|l.claims|, i requires 0 <= i < |l.claims| => l.claims[i].BundleKey());
    assert forall b | b in l.Bundles() :: b in s by {
      forall b | b in l.Bundles() ensures b in s {
        var c :| c in l.claims && c.BundleKey() == b;
        var i :| 0 <= i < |l.claims| && l.claims[i] == c;
        assert s[i] == b;
      }
    }
    s
  }

  function ClaimIdSeq(l: LeaseData): (s: seq<string>)
    ensures Elements(s) == l.ClaimIds()
  {
    var s := seq(|l.claims|, i requires 0 <= i < |l.claims| => l.claims[i].id);
    assert forall g | g in l.ClaimIds() :: g in s by {
      forall g | g in l.ClaimIds() ensures g in s {
        var c :| c in l.claims && c.id == g;
        var i :| 0 <= i < |l.claims| && l.claims[i] == c;
        assert s[i] == g;
      }
    }
    s
  }

  predicate CoversLease(e: Evidence, lease: LeaseData)
    ensures CoversLease(e, lease) == Covers(e, lease)
  {
    Elements(e.gpus) == Elements(GpuUuids(lease))
  }

  lemma ElementsSnoc<T>(s: seq<T>, k: nat)
    requires k < |s|
    ensures Elements(s[..k + 1]) == Elements(s[..k]) + {s[k]}
  {
    assert s[..k + 1] == s[..k] + [s[k]];
  }

  /** Assign every key to lease `i`. */
  method TakeEach<K(==)>(owner: map<K, string>, keys: seq<K>, i: string) returns (r: map<K, string>)
    ensures r == Take(owner, Elements(keys), i)
  {
    r := owner;
    for k := 0 to |keys|
      invariant r == Take(owner, Elements(keys[..k]), i)
    {
      ElementsSnoc(keys, k);
      r := r[keys[k] := i];
    }
    assert keys[..|keys|] == keys;
  }

  /** Pop every key that lease `i` owns. */
  method GiveBackEach<K(==)>(owner: map<K, string>, keys: seq<K>, i: string) returns (r: map<K, string>)
    ensures r == GiveBack(owner, Elements(keys), i)
  {
    r := owner;
    for k := 0 to |keys|
      invariant r == GiveBack(owner, Elements(keys[..k]), i)
    {
      ElementsSnoc(keys, k);
      if keys[k] in r && r[keys[k]] == i { r := r - {keys[k]}; }
    }
    assert keys[..|keys|] == keys;
  }

  /** Pop every key, whoever owns it; when `i` owns them all this is giving them back. */
  method PopEach<K(==)>(owner: map<K, string>, keys: seq<K>, ghost i: string) returns (r: map<K, string>)
    requires OwnsAll(owner, Elements(keys), i)
    ensures r == GiveBack(owner, Elements(keys), i)
  {
    r := owner;
    for k := 0 to |keys|
      invariant r == GiveBack(owner, Elements(keys[..k]), i)
    {
      ElementsSnoc(keys, k);
      assert keys[k] in Elements(keys);
      r := r - {keys[k]};
    }
    assert keys[..|keys|] == keys;
  }

  /** The refusal loops of open_lease. */
  method AnyForeign<K(==)>(owner: map<K, string>, keys: seq<K>, i: string) returns (found: bool)
    ensures found <==> !NotForeign(owner, Elements(keys), i)
  {
    found := false;
    for k := 0 to |keys|
      invariant !found && NotForeign(owner, Elements(keys[..k]), i)
    {
      ElementsSnoc(keys, k);
      if keys[k] in owner && owner[keys[k]] != i {
        assert keys[k] in Elements(keys);
        return true;
      }
    }
    assert keys[..|keys|] == keys;
  }

  /** The loop of submit_idle_report: every candidate belongs to the task and is listed once. */
  method NormalizeCandidates(task: string, candidates: seq<(ReplicaKey, ReplicaKind)>)
    returns (r: Result<map<ReplicaKey, ReplicaKind>>)
    ensures r.Ok? <==> (forall c | c in candidates :: c.0.session == task)
                       && (forall i, j | 0 <= i < j < |candidates| :: candidates[i].0 != candidates[j].0)
    ensures r.Ok? ==> r.value == CandidateMap(candidates)
  {
    var normalized: map<ReplicaKey, ReplicaKind> := map[];
    for k := 0 to |candidates|
      invariant forall i | 0 <= i < k :: candidates[i].0.session == task
      invariant forall i, j | 0 <= i < j < k :: candidates[i].0 != candidates[j].0
      invariant forall i | 0 <= i < k :: candidates[i].0 in normalized && normalized[candidates[i].0] == candidates[i].1
      invariant forall key | key in normalized :: exists i :: 0 <= i < k && candidates[i].0 == key
    {
      var c := candidates[k];
      if c.0.session != task || c.0 in normalized { return Err; }
      normalized := normalized[c.0 := c.1];
      assert candidates[k].0 == c.0;
    }
    forall i | 0 <= i < |candidates| ensures KindOf(candidates, candidates[i].0) == candidates[i].1 {
      KindOfAt(candidates, i);
    }
    r := Ok(normalized);
  }

  class GroupScheduler {
    var runners: map<string, string>
    var idleReports: map<string, IdleReport>
    var leases: map<string, LeaseData>
    var operationCommands: map<string, Command>
    var borrowerTargets: map<string, ReplicaKey>
    var releaseEvidence: map<(string, string), Evidence>
    var releaseHistory: map<string, seq<string>>
    var handoffReady: set<string>
    var claimIdOwner: map<string, string>
    var activeBundleOwner: map<(string, nat), string>
    var activeGpuOwner: map<string, string>

    ghost function View(): Ledger
      reads this
    {
      Ledger(runners, idleReports, leases, operationCommands, borrowerTargets, releaseEvidence, releaseHistory,
             handoffReady, claimIdOwner, activeBundleOwner, activeGpuOwner)
    }

    constructor ()
      ensures View() == EMPTY
    {
      runners, idleReports, leases, operationCommands, borrowerTargets := map[], map[], map[], map[], map[];
      releaseEvidence, releaseHistory, handoffReady := map[], map[], {};
      claimIdOwner, activeBundleOwner, activeGpuOwner := map[], map[], map[];
    }

    method AttachTask(task: string, handle: string) returns (ok: bool)
      modifies this`runners
      ensures ok ==> Attach(old(View()), task, handle) == Ok(View())
      ensures !ok ==> Attach(old(View()), task, handle).Err? && View() == old(View())
    {
      if task == "" || (task in runners && runners[task] != handle) { return false; }
      runners := runners[task := handle];
      ok := true;
    }

    method DetachTask(task: string)
      modifies this
      ensures View() == Detach(old(View()), task)
    {
      runners := runners - {task};
      idleReports := idleReports - {task};
    }

    method SubmitIdleReport(task: string, candidates: seq<(ReplicaKey, ReplicaKind)>, now: real) returns (ok: bool)
      modifies this`idleReports
      ensures ok ==> ReportIdle(old(View()), task, candidates, now) == Ok(View())
      ensures !ok ==> ReportIdle(old(View()), task, candidates, now).Err? && View() == old(View())
    {
      if task !in runners { return false; }
      var normalized := NormalizeCandidates(task, candidates);
      if normalized.Err? { return false; }
      idleReports := idleReports[task := IdleReport(now, normalized.value)];
      ok := true;
    }

    /** Reserve every bundle and GPU of lease `i`. */
    method TakeClaims(i: string)
      requires i in leases
      modifies this`activeBundleOwner, this`activeGpuOwner
      ensures activeBundleOwner == Take(old(activeBundleOwner), leases[i].Bundles(), i)
      ensures activeGpuOwner == Take(old(activeGpuOwner), leases[i].Gpus(), i)
    {
      activeBundleOwner := TakeEach(activeBundleOwner, BundleKeys(leases[i]), i);
      activeGpuOwner := TakeEach(activeGpuOwner, GpuUuids(leases[i]), i);
    }

    /** Return the bundles and GPUs that lease `i` owns to the free pool. */
    method GiveClaimsBack(i: string)
      requires i in leases
      modifies this`activeBundleOwner, this`activeGpuOwner
      ensures activeBundleOwner == GiveBack(old(activeBundleOwner), leases[i].Bundles(), i)
      ensures activeGpuOwner == GiveBack(old(activeGpuOwner), leases[i].Gpus(), i)
    {
      activeBundleOwner := GiveBackEach(activeBundleOwner, BundleKeys(leases[i]), i);
      activeGpuOwner := GiveBackEach(activeGpuOwner, GpuUuids(leases[i]), i);
    }

    /** Pop the bundles and GPUs of a lease that has just been seen to own them all. */
    method PopClaims(i: string)
      requires i in leases && View().Holds(i)
      modifies this`activeBundleOwner, this`activeGpuOwner
      ensures activeBundleOwner == GiveBack(old(activeBundleOwner), leases[i].Bundles(), i)
      ensures activeGpuOwner == GiveBack(old(activeGpuOwner), leases[i].Gpus(), i)
    {
      activeBundleOwner := PopEach(activeBundleOwner, BundleKeys(leases[i]), i);
      activeGpuOwner := PopEach(activeGpuOwner, GpuUuids(leases[i]), i);
    }

    method StillHolds(i: string) returns (b: bool)
      requires i in leases
      ensures b == View().Holds(i)
    {
      b := AllOwned(activeBundleOwner, BundleKeys(leases[i]), i);
      if b { b := AllOwned(activeGpuOwner, GpuUuids(leases[i]), i); }
    }

    method MayOpen(lease: LeaseData) returns (b: bool)
      ensures b <==> NotForeign(claimIdOwner, lease.ClaimIds(), lease.id)
                     && NotForeign(activeBundleOwner, lease.Bundles(), lease.id)
                     && NotForeign(activeGpuOwner, lease.Gpus(), lease.id)
    {
      var foreign := AnyForeign(claimIdOwner, ClaimIdSeq(lease), lease.id);
      if foreign { return false; }
      foreign := AnyForeign(activeBundleOwner, BundleKeys(lease), lease.id);
      if foreign { return false; }
      foreign := AnyForeign(activeGpuOwner, GpuUuids(lease), lease.id);
      b := !foreign;
    }

    method OpenLease(lease: LeaseData) returns (ok: bool)
      requires WellFormedLease(lease)
      modifies this
      ensures ok ==> Open(old(View()), lease) == Ok(View())
      ensures !ok ==> Open(old(View()), lease).Err? && View() == old(View())
    {
      hide Take;
      if lease.id in leases { return leases[lease.id] == lease; }
      ok := MayOpen(lease);
      if !ok { return; }
      leases := leases[lease.id := lease];
      if lease.id !in releaseHistory { releaseHistory := releaseHistory[lease.id := []]; }
      claimIdOwner := TakeEach(claimIdOwner, ClaimIdSeq(lease), lease.id);
      TakeClaims(lease.id);
    }

    /** Everything `submit_operation` does before it calls the TaskRunner. */
    method SubmitOperation(c: Command, now: Clock) returns (ok: bool)
      modifies this
      ensures ok ==> Submit(old(View()), c, now) == Ok(View())
      ensures !ok ==> Submit(old(View()), c, now).Err? && View() == old(View())
    {
      if c.lease !in leases { return false; }
      var lease := leases[c.lease];
      var unseen := c.op !in operationCommands;
      if !unseen && operationCommands[c.op] != c { return false; }
      if unseen {
        var ok' := MayStageNow(c, now);
        if !ok' { return false; }
      }
      if c.target.session !in runners { return false; }
      if unseen {
        operationCommands := operationCommands[c.op := c];
        if c.kind == ADD {
          if c.lease !in borrowerTargets { borrowerTargets := borrowerTargets[c.lease := c.target]; }
        } else if c.kind == RESTORE {
          TakeClaims(c.lease);
        }
        assert View() == Stage(old(View()), c);
      }
      ok := true;
    }

    method LastReleaseWas(i: string, k: OperationKind) returns (b: bool)
      ensures b == View().LastReleaseIs(i, k)
    {
      if i !in releaseHistory || releaseHistory[i] == [] { return false; }
      var last := releaseHistory[i][|releaseHistory[i]| - 1];
      b := last in operationCommands && operationCommands[last].kind == k;
    }

    method AllFree<K(==)>(owner: map<K, string>, keys: seq<K>) returns (free: bool)
      ensures free == Unowned(owner, Elements(keys))
    {
      for k := 0 to |keys|
        invariant Unowned(owner, Elements(keys[..k]))
      {
        ElementsSnoc(keys, k);
        if keys[k] in owner { assert keys[k] in Elements(keys); return false; }
      }
      assert keys[..|keys|] == keys;
      free := true;
    }

    method MayStageNow(c: Command, now: Clock) returns (b: bool)
      requires c.lease in leases
      ensures b == MayStage(View(), c, now)
    {
      var lease := leases[c.lease];
      var closed := LastReleaseWas(c.lease, RESTORE);
      if closed { return false; }
      if lease.expires != 0.0 && now.wall >= lease.expires && c.kind == ADD { return false; }
      match c.kind {
        case DONATE =>
          if c.target.session in idleReports {
            var report := idleReports[c.target.session];
            if now.mono - report.at > IDLE_REPORT_MAX_AGE { return false; }
            if c.target !in report.candidates || report.candidates[c.target] != NATIVE { return false; }
          }
          var awaiting := LastReleaseWas(c.lease, REMOVE);
          b := !awaiting && TargetsDonor(c.target, lease) && c.lease !in handoffReady;
        case ADD =>
          b := c.lease in handoffReady && c.lease !in borrowerTargets;
        case REMOVE =>
          b := c.lease in handoffReady && c.lease in borrowerTargets && borrowerTargets[c.lease] == c.target;
        case RESTORE =>
          if !TargetsDonor(c.target, lease) { return false; }
          var gpusFree := AllFree(activeGpuOwner, GpuUuids(lease));
          var bundlesFree := AllFree(activeBundleOwner, BundleKeys(lease));
          b := gpusFree && bundlesFree;
      }
    }

    method AdvanceLease(i: string, e: Evidence) returns (r: Result<Ack>)
      modifies this
      ensures r.Ok? ==> Advance(old(View()), i, e) == Ok((View(), r.value))
      ensures r.Err? ==> Advance(old(View()), i, e).Err? && View() == old(View())
    {
      if i !in leases || e.op !in operationCommands { return Err; }
      var c := operationCommands[e.op];
      if c.lease != i { return Err; }
      var ack := Ok(Ack(i, e.op, AckFor(c.kind, e)));
      if (i, e.op) in releaseEvidence {
        if releaseEvidence[(i, e.op)] != e { return Err; }
        if c.kind == RESTORE && e.typ !in {SERVICE_COMMITTED, RELEASE_PROVED} { return Err; }
        return ack;
      }
      var ok: bool;
      match c.kind {
        case RESTORE => ok := AdvanceRestore(c, e);
        case ADD => ok := AdvanceAdd(c, e);
        case DONATE => ok := AdvanceRelease(c, e);
        case REMOVE => ok := AdvanceRelease(c, e);
      }
      r := if ok then ack else Err;
    }

    method AdvanceRestore(c: Command, e: Evidence) returns (ok: bool)
      requires c.lease in leases && c.kind == RESTORE
      modifies this
      ensures ok == MayAdvance(old(View()), c, e)
      ensures View() == if ok then Advanced(old(View()), c, e) else old(View())
    {
      hide GiveBack;
      hide CoversLease;
      hide Covers;
      var i, lease := c.lease, leases[c.lease];
      if e.typ !in {SERVICE_COMMITTED, RELEASE_PROVED} { return false; }
      var kept := StillHolds(i);
      if !kept { return false; }
      if e.typ == RELEASE_PROVED {
        if !CoversLease(e, lease) { return false; }
        Record(c, e);
        GiveClaimsBack(i);
      } else {
        Restore(c, e);
      }
      ok := true;
    }

    /** A committed RESTORE closes the lease. */
    method Restore(c: Command, e: Evidence)
      requires c.lease in leases && c.kind == RESTORE && e.typ == SERVICE_COMMITTED && View().Holds(c.lease)
      modifies this
      ensures View() == Advanced(old(View()), c, e)
    {
      hide GiveBack;
      Record(c, e);
      handoffReady := handoffReady - {c.lease};
      borrowerTargets := borrowerTargets - {c.lease};
      PopClaims(c.lease);
    }

    method AdvanceAdd(c: Command, e: Evidence) returns (ok: bool)
      requires c.lease in leases && c.kind == ADD
      modifies this
      ensures ok == MayAdvance(old(View()), c, e)
      ensures View() == if ok then Advanced(old(View()), c, e) else old(View())
    {
      hide GiveBack;
      hide CoversLease;
      hide Covers;
      var i := c.lease;
      hide Logged;
      ok := e.typ == RELEASE_PROVED && CoversLease(e, leases[i])
            && i in handoffReady && i in borrowerTargets && borrowerTargets[i] == c.target;
      if ok {
        Record(c, e);
        borrowerTargets := borrowerTargets - {i};
        handoffReady := handoffReady - {i};
        GiveClaimsBack(i);
      }
    }

    /** DONATE hands the reserved claims over; only REMOVE returns them to the free pool. */
    method AdvanceRelease(c: Command, e: Evidence) returns (ok: bool)
      requires c.lease in leases && c.kind in {DONATE, REMOVE}
      modifies this
      ensures ok == MayAdvance(old(View()), c, e)
      ensures View() == if ok then Advanced(old(View()), c, e) else old(View())
    {
      var i, lease := c.lease, leases[c.lease];
      if e.typ != RELEASE_PROVED || !CoversLease(e, lease) { return false; }
      Record(c, e);
      if c.kind == DONATE {
        handoffReady := handoffReady + {i};
      } else {
        handoffReady := handoffReady - {i};
        GiveClaimsBack(i);
      }
      ok := true;
    }

    method AllOwned<K(==)>(owner: map<K, string>, keys: seq<K>, i: string) returns (all: bool)
      ensures all == OwnsAll(owner, Elements(keys), i)
    {
      for k := 0 to |keys|
        invariant OwnsAll(owner, Elements(keys[..k]), i)
      {
        ElementsSnoc(keys, k);
        if keys[k] !in owner || owner[keys[k]] != i { assert keys[k] in Elements(keys); return false; }
      }
      assert keys[..|keys|] == keys;
      all := true;
    }

    /** Write the evidence, and the history entry unless it is RESTORE compensation. */
    method Record(c: Command, e: Evidence)
      modifies this`releaseEvidence, this`releaseHistory
      ensures releaseEvidence == old(releaseEvidence)[(c.lease, e.op) := e]
      ensures releaseHistory == if Logged(c.kind, e)
                then old(releaseHistory)[c.lease := (if c.lease in old(releaseHistory)
                                                     then old(releaseHistory)[c.lease] else []) + [e.op]]
                else old(releaseHistory)
    {
      releaseEvidence := releaseEvidence[(c.lease, e.op) := e];
      if Logged(c.kind, e) {
        if c.lease !in releaseHistory { releaseHistory := releaseHistory[c.lease := []]; }
        releaseHistory := releaseHistory[c.lease := releaseHistory[c.lease] + [e.op]];
      }
    }
  }

  lemma {:induction false} KindOfAt(cs: seq<(ReplicaKey, ReplicaKind)>, i: nat)
    requires i < |cs| && forall a, b | 0 <= a < b < |cs| :: cs[a].0 != cs[b].0
    ensures KindOf(cs, cs[i].0) == cs[i].1
  {
    if i > 0 { KindOfAt(cs[1..], i - 1); }
  }
}
