/** The router actor: the request and route dictionaries are updated in place, call by call, as AttemptLedger says. */
module RouterActor {
  import opened Contracts
  import opened AttemptLedger

  class MultiTaskGlobalRequestLoadBalancer {
    var servers: map<string, string>
    var inflightRequests: map<string, int>
    var routes: map<ReplicaKey, string>
    var activeRequestServer: map<string, string>
    var attemptState: map<string, AttemptState>
    var ledgerOrder: seq<string>
    var drainingOperations: map<string, string>
    var awaitingServiceRestore: bool
    var readyOperations: map<string, Published>
    var continuationProofs: map<string, Proof>
    var continuationHandoffs: map<string, set<string>>
    var settledCount: int
    const settledRetention: nat

    ghost function View(): Router
      reads this
    {
      Router(servers, inflightRequests, routes, activeRequestServer, attemptState, ledgerOrder, drainingOperations,
             awaitingServiceRestore, readyOperations, continuationProofs, continuationHandoffs, settledCount,
               settledRetention)
    }

    constructor (pool: map<string, string>, initialRoutes: map<ReplicaKey, string>, retention: nat)
      requires forall k | k in initialRoutes :: initialRoutes[k] in pool
      ensures View() == Start(pool, initialRoutes, retention) && Inv(View()) && Bounded(View())
    {
      servers, inflightRequests, routes := pool, map s | s in pool :: 0, initialRoutes;
      activeRequestServer, attemptState, ledgerOrder, drainingOperations := map[], map[], [], map[];
      awaitingServiceRestore, readyOperations, continuationProofs, continuationHandoffs := false, map[], map[], map[];
      settledCount, settledRetention := 0, retention;
      new;
      assert SettledSet(map[]) == {};
    }

    /** The scan of the insertion-ordered ledger. */
    method ScanSettled(target: nat) returns (expired: seq<string>)
      ensures expired == FirstOf(ledgerOrder, Evictable(View()), target)
    {
      expired := [];
      ghost var s := Evictable(View());
      var k := 0;
      while k < |ledgerOrder| && |expired| < target
        invariant k <= |ledgerOrder| && |expired| <= target
        invariant expired + FirstOf(ledgerOrder[k..], s, target - |expired|) == FirstOf(ledgerOrder, s, target)
      {
        var r := ledgerOrder[k];
        FirstOfStep(ledgerOrder, k, s, target - |expired|);
        hide FirstOf;
        if r in attemptState && attemptState[r] == SETTLED && r !in activeRequestServer {
          assert r in s;
          expired := expired + [r];
        }
        k := k + 1;
      }
    }

    method RemoveExpired(expired: seq<string>)
      modifies this`attemptState, this`ledgerOrder, this`continuationProofs, this`settledCount
      ensures View() == Evict(old(View()), expired)
    {
      var attempts, proofs := attemptState, continuationProofs;
      for j := 0 to |expired|
        invariant attempts == attemptState - Elements(expired[..j])
                  && proofs == continuationProofs - Elements(expired[..j])
      {
        assert expired[..j + 1] == expired[..j] + [expired[j]];
        attempts := attempts - {expired[j]};
        proofs := proofs - {expired[j]};
      }
      assert expired[..|expired|] == expired;
      attemptState, continuationProofs := attempts, proofs;
      ledgerOrder := Without(ledgerOrder, Elements(expired));
      settledCount := settledCount - |expired|;
    }

    method GcSettledRequests()
      modifies this`attemptState, this`ledgerOrder, this`continuationProofs, this`settledCount
      ensures View() == Collect(old(View()))
    {
      var overflow := settledCount - settledRetention;
      if overflow <= 0 { return; }
      var target := if overflow > settledRetention / 8 then overflow else settledRetention / 8;
      var expired := ScanSettled(target);
      RemoveExpired(expired);
    }

    method AcquireServer(r: string, choice: string) returns (ok: bool)
      modifies this
      ensures ok ==> Acquire(old(View()), r, choice) == Ok(View())
      ensures !ok ==> Acquire(old(View()), r, choice).Err? && View() == old(View())
    {
      if r in attemptState && attemptState[r] in {ADMITTED, TERMINATED} { return false; }
      if choice !in servers { return false; }
      inflightRequests := inflightRequests[choice := (if choice in inflightRequests then inflightRequests[choice]
                                                      else 0) + 1];
      RecordAttempt(r, choice);
      ok := true;
    }

    /** A settled attempt's proof is given up only once the new attempt is admitted. */
    method RecordAttempt(r: string, choice: string)
      modifies this`continuationProofs, this`settledCount, this`ledgerOrder, this`activeRequestServer, this`attemptState
      ensures var m := old(View());
        View() == m.(owner := m.owner[r := choice], attempt := m.attempt[r := ADMITTED],
                     order := if r in m.attempt then m.order else m.order + [r],
                     proofs := if r in m.attempt then m.proofs - {r} else m.proofs,
                     settledCount := if r in m.attempt then m.settledCount - 1 else m.settledCount)
    {
      if r in attemptState {
        continuationProofs := continuationProofs - {r};
        settledCount := settledCount - 1;
      } else {
        ledgerOrder := ledgerOrder + [r];
      }
      activeRequestServer := activeRequestServer[r := choice];
      attemptState := attemptState[r := ADMITTED];
    }

    /** The native release, which ignores servers that have left the pool. */
    method DecrementInflight(server: string)
      modifies this`inflightRequests
      ensures inflightRequests == Decremented(old(inflightRequests), server)
    {
      if server in inflightRequests { inflightRequests := inflightRequests[server := inflightRequests[server] - 1]; }
    }

    /** A missing request id is the empty one here: neither names a request. */
    method ReleaseServer(server: string, r: string) returns (ok: bool)
      modifies this
      ensures ok ==> Release(old(View()), server, r) == Ok(View())
      ensures !ok ==> Release(old(View()), server, r).Err? && View() == old(View())
    {
      if r == "" {
        DecrementInflight(server);
        return true;
      }
      if r in activeRequestServer && activeRequestServer[r] != server { return false; }
      if r !in attemptState || attemptState[r] == SETTLED { return true; }
      DecrementInflight(server);
      attemptState := attemptState[r := SETTLED];
      activeRequestServer := activeRequestServer - {r};
      settledCount := settledCount + 1;
      assert View() == Settle(old(View()), server, r);
      GcSettledRequests();
      ok := true;
    }

    method ConfirmContinuation(r: string, client: string, digest: string, stamp: nat) returns (res: Result<Evidence>)
      modifies this
      ensures res.Ok? ==> Confirm(old(View()), r, client, digest, stamp) == Ok((View(), res.value))
      ensures res.Err? ==> Confirm(old(View()), r, client, digest, stamp).Err? && View() == old(View())
    {
      if r == "" || client == "" || digest == "" { return Err; }
      if r in continuationProofs {
        var previous := continuationProofs[r];
        return if previous.client == client && previous.digest == digest then Ok(previous.ev) else Err;
      }
      if r !in attemptState || attemptState[r] != ADMITTED { return Err; }
      if r !in activeRequestServer || activeRequestServer[r] !in drainingOperations { return Err; }
      var op := drainingOperations[activeRequestServer[r]];
      var ev := Evidence(op, EXIT_READY, stamp, []);
      continuationProofs := continuationProofs[r := Proof(client, digest, op, ev)];
      continuationHandoffs := continuationHandoffs[op := (if op in continuationHandoffs then continuationHandoffs[op]
                                                          else {}) + {r}];
      attemptState := attemptState[r := TERMINATED];
      res := Ok(ev);
    }

    method HasUnsettledRequests(server: string) returns (b: bool)
      ensures b == HasUnsettled(View(), server)
    {
      var todo := activeRequestServer.Keys;
      while todo != {}
        invariant todo <= activeRequestServer.Keys
        invariant forall r | r in activeRequestServer && r !in todo :: r !in AdmittedAt(View(), server)
        decreases |todo|
      {
        var r :| r in todo;
        if activeRequestServer[r] == server && r in attemptState && attemptState[r] == ADMITTED {
          assert r in AdmittedAt(View(), server);
          return true;
        }
        todo := todo - {r};
      }
      assert forall r | r in AdmittedAt(View(), server) :: r in activeRequestServer;
      b := false;
    }

    /** The conflict checks and the conflict loop of commit_ready. */
    method MayPublishNow(key: ReplicaKey, server: string, handle: string, op: string) returns (b: bool)
      ensures b == MayPublish(View(), key, server, handle, op)
    {
      if key in routes && routes[key] != server { return false; }
      if server in servers && servers[server] != handle { return false; }
      var ready := readyOperations;
      var todo := ready.Keys;
      while todo != {}
        invariant todo <= ready.Keys
        invariant forall o | o in ready && o !in todo ::
          !(ready[o].key == key && o != op) && !(ready[o].server == server && ready[o].key != key)
        decreases |todo|
      {
        var o :| o in todo;
        if (ready[o].key == key && o != op) || (ready[o].server == server && ready[o].key != key) { return false; }
        todo := todo - {o};
      }
      b := true;
    }

    method CommitReadyServer(key: ReplicaKey, server: string, handle: string, op: string, stamp: nat)
      returns (res: Result<Evidence>)
      modifies this
      ensures res.Ok? ==> CommitReady(old(View()), key, server, handle, op, stamp) == Ok((View(), res.value))
      ensures res.Err? ==> CommitReady(old(View()), key, server, handle, op, stamp).Err? && View() == old(View())
    {
      if server == "" || op == "" { return Err; }
      if op in readyOperations {
        var previous := readyOperations[op];
        if previous.key != key || previous.server != server { return Err; }
        if key !in routes || routes[key] != server || server !in servers { return Err; }
        return Ok(previous.ev);
      }
      var free := MayPublishNow(key, server, handle, op);
      if !free { return Err; }
      servers := servers[server := handle];
      if server !in inflightRequests { inflightRequests := inflightRequests[server := 0]; }
      awaitingServiceRestore := false;
      routes := routes[key := server];
      var ev := Evidence(op, SERVICE_COMMITTED, stamp, []);
      readyOperations := readyOperations[op := Published(key, server, ev)];
      res := Ok(ev);
    }

    method BeginDrainOf(key: ReplicaKey, op: string) returns (res: Result<string>)
      modifies this
      ensures res.Ok? ==> BeginDrain(old(View()), key, op) == Ok((View(), res.value))
      ensures res.Err? ==> BeginDrain(old(View()), key, op).Err? && View() == old(View())
    {
      if op == "" || key !in routes { return Err; }
      var server := routes[key];
      if server in drainingOperations && drainingOperations[server] != op { return Err; }
      drainingOperations := drainingOperations[server := op];
      servers := servers - {server};
      inflightRequests := inflightRequests - {server};
      if servers == map[] { awaitingServiceRestore := true; }
      res := Ok(server);
    }

    method SettleTerminatedRequests(server: string)
      modifies this`attemptState, this`activeRequestServer, this`settledCount
      ensures View() == SettleTerminated(old(View()), server)
    {
      var owner, attempt, count := SettleLoop(activeRequestServer, attemptState, server);
      activeRequestServer, attemptState, settledCount := owner, attempt, settledCount + count;
    }

    method FinishRemoveOf(key: ReplicaKey) returns (ok: bool)
      modifies this
      ensures ok ==> FinishRemove(old(View()), key) == Ok(View())
      ensures !ok ==> FinishRemove(old(View()), key).Err? && View() == old(View())
    {
      if key !in routes { return true; }
      var server := routes[key];
      var busy := HasUnsettledRequests(server);
      if busy { return false; }
      SettleTerminatedRequests(server);
      GcSettledRequests();
      ForgetServer(key, server);
      ok := true;
    }

    method ForgetServer(key: ReplicaKey, server: string)
      modifies this
      ensures View() == Forget(old(View()), key, server)
    {
      hide Unpublished;
      hide HandoffsWithout;
      servers := servers - {server};
      inflightRequests := inflightRequests - {server};
      ForgetDrain(server);
      routes := routes - {key};
      ForgetPublications(key);
    }

    method ForgetDrain(server: string)
      modifies this`drainingOperations, this`continuationHandoffs
      ensures drainingOperations == old(drainingOperations) - {server}
      ensures continuationHandoffs == HandoffsWithout(old(continuationHandoffs), old(drainingOperations), server)
    {
      if server in drainingOperations { continuationHandoffs := continuationHandoffs - {drainingOperations[server]}; }
      drainingOperations := drainingOperations - {server};
    }

    method ForgetPublications(key: ReplicaKey)
      modifies this`readyOperations
      ensures readyOperations == Unpublished(old(readyOperations), key)
    {
      var todo := readyOperations.Keys;
      var before := readyOperations;
      while todo != {}
        invariant todo <= before.Keys
        invariant readyOperations == map o | o in before && (before[o].key != key || o in todo) :: before[o]
        decreases |todo|
      {
        var o :| o in todo;
        if before[o].key == key { readyOperations := readyOperations - {o}; }
        todo := todo - {o};
      }
    }
  }

  ghost predicate SettledSoFar(owner0: map<string, string>, attempt0: map<string, AttemptState>, t: set<string>,
                               owner: map<string, string>, attempt: map<string, AttemptState>)
  {
    attempt == attempt0 + (map r | r in t :: SETTLED) && owner == owner0 - t
  }

  lemma SettleOneMore(owner0: map<string, string>, attempt0: map<string, AttemptState>, t: set<string>,
                      owner: map<string, string>, attempt: map<string, AttemptState>, r: string)
    requires SettledSoFar(owner0, attempt0, t, owner, attempt)
    ensures SettledSoFar(owner0, attempt0, t + {r}, owner - {r}, attempt[r := SETTLED])
  {
  }

  /** One more element taken off a set that is worked through. */
  lemma WorkedThrough(all: set<string>, todo: set<string>, r: string)
    requires r in todo
    ensures all - (todo - {r}) == if r in all then (all - todo) + {r} else all - todo
    ensures r in all ==> |all - (todo - {r})| == |all - todo| + 1
  {
    assert r in all ==> all - (todo - {r}) == (all - todo) + {r};
  }

  /** The settlement loop of finish_remove. */
  method SettleLoop(owner0: map<string, string>, attempt0: map<string, AttemptState>, server: string)
    returns (owner: map<string, string>, attempt: map<string, AttemptState>, count: nat)
    ensures SettledSoFar(owner0, attempt0, TerminatedOn(owner0, attempt0, server), owner, attempt)
    ensures count == |TerminatedOn(owner0, attempt0, server)|
  {
    owner, attempt, count := owner0, attempt0, 0;
    ghost var all := TerminatedOn(owner0, attempt0, server);
    var todo := owner0.Keys;
    NothingSettled(owner0, attempt0, server);
    while todo != {}
      invariant todo <= owner0.Keys
      invariant SettledSoFar(owner0, attempt0, all - todo, owner, attempt) && count == |all - todo|
      decreases |todo|
    {
      var r :| r in todo;
      WorkedThrough(all, todo, r);
      if owner0[r] == server && r in attempt0 && attempt0[r] == TERMINATED {
        SettleOneMore(owner0, attempt0, all - todo, owner, attempt, r);
        attempt, owner, count := attempt[r := SETTLED], owner - {r}, count + 1;
      }
      todo := todo - {r};
    }
    assert all - todo == all;
  }

  lemma NothingSettled(owner0: map<string, string>, attempt0: map<string, AttemptState>, server: string)
    ensures TerminatedOn(owner0, attempt0, server) - owner0.Keys == {}
            && SettledSoFar(owner0, attempt0, {}, owner0, attempt0)
  {
  }
}
