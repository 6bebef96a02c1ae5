/**
 * All tasks together: the GroupScheduler ledger, one operation at a time per TaskRunner, the runtimes they create,
 * destroy, wake and put to sleep, and the evidence on its way back (task_runner.py, llm_server_manager.py,
 * group_scheduler.py).  A message once sent may be delivered at any time, any number of times, or never.
 */
module Residency {
  import opened Contracts
  import L = LeaseLedger

  /** Fixed facts: the accelerator of each native replica, and the leases whose placement no Manager accepts. */
  datatype Site = Site(hosts: map<ReplicaKey, string>, unfit: set<string>)
  {
    /** No two natives share an accelerator. */
    ghost predicate OnePerGpu() {
      forall a, b | a in hosts && b in hosts && hosts[a] == hosts[b] :: a == b
    }
  }

  /** The creation record of a lease: the ADD that made it and the replica it made. */
  datatype Made = Made(op: string, key: ReplicaKey)

  /**
   * `begun` and `resolved` are the journals of all tasks; `sent` is every evidence handed to advance_lease so far.
   * `live` holds the leases whose borrowed runtime exists, `dead` who destroyed the others, `awake` the natives that
   * hold accelerator memory.
   */
  datatype Tasks = Tasks(
    begun: set<string>, resolved: set<string>, sent: set<Evidence>,
    made: map<string, Made>, live: set<string>, dead: map<string, string>, awake: set<ReplicaKey>, now: real)
  {
    predicate Active(o: string) { o in begun && o !in resolved }
    predicate Sent(o: string) { exists e :: e in sent && e.op == o }
  }

  datatype World = World(l: L.Ledger, t: Tasks)

  predicate Recorded(l: L.Ledger, o: string) {
    o in l.commands && (l.commands[o].lease, o) in l.evidence
  }

  /** create_borrowed_replica could still build a runtime for this lease and key. */
  predicate Creatable(site: Site, made: map<string, Made>, now: real, s: LeaseData, k: ReplicaKey) {
    s.id !in made && !Registered(made, k) && k !in site.hosts && s.id !in site.unfit
      && (s.expires == 0.0 || now < s.expires)
  }

  predicate Registered(made: map<string, Made>, k: ReplicaKey) {
    exists i :: i in made && made[i].key == k
  }

  /** Which command an active worker runs. */
  predicate Works(w: World, o: string, kind: OperationKind) {
    w.t.Active(o) && o in w.l.commands && w.l.commands[o].kind == kind && w.l.commands[o].lease in w.l.leases
  }

  datatype Event =
    | WLedger(call: L.Event)                                 // any call but advance_lease
    | WBegin(op: string)                                     // a staged command reaches its TaskRunner
    | WCreate(op: string, up: bool)                          // ADD constructs its runtime or fails on the way
    | WAbsent(op: string, stamp: nat, gpus: seq<string>)     // ADD answers RELEASED: nothing runs and nothing can
    | WDestroy(op: string, base: string, stamp: nat, gpus: seq<string>)
    | WExit(op: string, stamp: nat)                          // DONATE (or REMOVE) slept a native and answers
    | WWake(op: string)
    | WSleep(op: string)
    | WRestored(ev: Evidence)                                // RESTORE answers, whatever it answers
    | WDeliver(ev: Evidence)                                 // advance_lease
    | WResolve(op: string)
    | WTick(delta: real)

  /** A journal begins one operation at a time. */
  predicate MayBegin(w: World, o: string) {
    && o in w.l.commands && o !in w.t.begun
    && forall p | p in w.l.commands && w.t.Active(p) :: w.l.commands[p].target.session != w.l.commands[o].target.session
  }

  function Create(site: Site, w: World, o: string, up: bool): Tasks {
    if !Works(w, o, ADD) then w.t
    else
      var c := w.l.commands[o];
      if !Creatable(site, w.t.made, w.t.now, w.l.leases[c.lease], c.target)
        || w.l.leases[c.lease].id != c.lease then w.t
      else w.t.(made := w.t.made[c.lease := Made(o, c.target)], live := if up then w.t.live + {c.lease} else w.t.live)
  }

  /** prepare_replica's RELEASED answer: the key is unknown or RELEASED in M, and creation can never succeed. */
  predicate MayAnswerAbsent(site: Site, w: World, o: string, gpus: seq<string>) {
    Works(w, o, ADD) &&
    var c := w.l.commands[o];
    var s := w.l.leases[c.lease];
    s.id == c.lease && c.target !in site.hosts && c.lease !in w.t.live
      && !Creatable(site, w.t.made, w.t.now, s, c.target) && Elements(gpus) == s.Gpus()
  }

  /** destroy finds the record of the target's key; only the first operation to destroy it is ever answered. */
  predicate MayDestroy(w: World, o: string, base: string, gpus: seq<string>) {
    && (Works(w, o, ADD) || Works(w, o, REMOVE) || Works(w, o, DONATE))
    && base in w.t.made && base in w.l.leases && w.t.made[base].key == w.l.commands[o].target
    && (w.l.commands[o].kind == ADD ==> w.t.made[base].op == o)
    && (if base in w.t.dead then w.t.dead[base] == o else base in w.t.live)
    && Elements(gpus) == w.l.leases[base].Gpus()
  }

  function Destroy(t: Tasks, o: string, base: string, e: Evidence): Tasks {
    t.(live := t.live - {base}, dead := t.dead[base := o], sent := t.sent + {e})
  }

  /** An exit that finds a native puts it to sleep; a replayed DONATE or an answered REMOVE repeats its answer. */
  predicate MaySleep(site: Site, w: World, o: string) {
    && o in w.l.commands && Target(w, o) in site.hosts
    && (Works(w, o, DONATE) || (Works(w, o, REMOVE) && (Target(w, o) in w.t.awake || w.t.Sent(o))))
  }

  function Target(w: World, o: string): ReplicaKey
    requires o in w.l.commands
  {
    w.l.commands[o].target
  }

  /** An operation that handed evidence to advance_lease is resolved only by an advance_lease that returned. */
  predicate MayResolve(w: World, o: string) {
    w.t.Active(o) && (w.t.Sent(o) ==> Recorded(w.l, o))
  }

  function Work(site: Site, w: World, e: Event): Tasks {
    match e
    case WBegin(o) => if MayBegin(w, o) then w.t.(begun := w.t.begun + {o}) else w.t
    case WCreate(o, up) => Create(site, w, o, up)
    case WAbsent(o, stamp, gpus) =>
      if MayAnswerAbsent(site, w, o, gpus) then w.t.(sent := w.t.sent + {Evidence(o, RELEASE_PROVED, stamp, gpus)})
      else w.t
    case WDestroy(o, base, stamp, gpus) =>
      if MayDestroy(w, o, base, gpus) then Destroy(w.t, o, base, Evidence(o, RELEASE_PROVED, stamp, gpus)) else w.t
    case WExit(o, stamp) =>
      if MaySleep(site, w, o)
      then w.t.(awake := w.t.awake - {Target(w, o)},
                sent := w.t.sent + {Evidence(o, RELEASE_PROVED, stamp, [site.hosts[Target(w, o)]])})
      else w.t
    case WWake(o) =>
      if Works(w, o, RESTORE) && Target(w, o) in site.hosts then w.t.(awake := w.t.awake + {Target(w, o)}) else w.t
    case WSleep(o) => if Works(w, o, RESTORE) then w.t.(awake := w.t.awake - {Target(w, o)}) else w.t
    case WRestored(ev) => if Works(w, ev.op, RESTORE) then w.t.(sent := w.t.sent + {ev}) else w.t
    case WResolve(o) => if MayResolve(w, o) then w.t.(resolved := w.t.resolved + {o}) else w.t
    case WTick(delta) => if delta >= 0.0 then w.t.(now := w.t.now + delta) else w.t
    case _ => w.t
  }

  function Call(w: World, call: L.Event): World {
    if call.EAdvance? then w else w.(l := L.Step(w.l, call))
  }

  function Deliver(w: World, ev: Evidence): World {
    if ev in w.t.sent && ev.op in w.l.commands then w.(l := L.Step(w.l, L.EAdvance(w.l.commands[ev.op].lease, ev)))
    else w
  }

  function Step(site: Site, w: World, e: Event): World {
    if e.WLedger? then Call(w, e.call)
    else if e.WDeliver? then Deliver(w, e.ev)
    else w.(t := Work(site, w, e))
  }

  function Run(site: Site, w: World, es: seq<Event>): World {
    if es == [] then w else Step(site, Run(site, w, es[..|es| - 1]), es[|es| - 1])
  }

  /** Nothing leased, every native awake. */
  function Start(site: Site): World {
    World(L.EMPTY, Tasks({}, {}, {}, map[], {}, map[], site.hosts.Keys, 0.0))
  }

  /** A borrowed runtime occupies the accelerators of its lease. */
  predicate Borrowed(w: World, gpu: string) {
    exists i :: i in w.t.live && i in w.l.leases && gpu in w.l.leases[i].Gpus()
  }

  predicate NativeAwake(site: Site, w: World, gpu: string) {
    exists n :: n in w.t.awake && n in site.hosts && site.hosts[n] == gpu
  }
}
