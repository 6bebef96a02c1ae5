/**
 * The lifecycle code in its own sequential form: TaskRunner._execute_operation, the Trainer's publication and exit
 * methods and the Rollouter methods they call (task_runner.py, trainer.py, rollouter.py), statement by statement, with
 * their local flags and exception handlers.  Whatever the network and the other coroutines do at each await, an
 * execution is a run of the composed system, so everything proved of its runs holds of this code.
 */
module Lifecycle {
  import opened Contracts
  import opened Publication
  import PublicationSafety

  /** One await: what other coroutines do first, and what then becomes of the call. */
  datatype Fate = Fate(others: seq<Event>, act: Act, lost: bool)

  /** Steps that are not the worker's: native synchronisation, training and request traffic. */
  predicate Elsewhere(e: Event) {
    e.ESyncBegins? || e.ESyncEnds? || e.ETrain? || e.EAcquire? || e.ESettle?
  }

  /** What the worker can rely on across an await. */
  predicate Undisturbed(s: Sys, n: Sys) {
    && n.busy == s.busy && n.cmd == s.cmd && n.tried == s.tried && n.pc == s.pc && n.bind == s.bind
    && n.o == s.o.(adm := n.o.adm)
    && (s.lock == Worker ==> n.lock == Worker && n.latch == s.latch)
  }

  // The worker's next step by part of the protocol, so that a method sees only its own part.

  lemma BootStep(s: Sys, f: Fate)
    requires Boots(s.pc)
    ensures Step(s, EWork(f.act, f.lost)) == WorkBoot(s, f.act, f.lost)
  {
    hide WorkBoot;
  }

  lemma CommitStep(s: Sys, f: Fate)
    requires Commits(s.pc)
    ensures Step(s, EWork(f.act, f.lost)) == WorkCommit(s, f.act, f.lost)
  {
    hide WorkCommit;
  }

  lemma ReplyStep(s: Sys, f: Fate)
    requires Replies(s.pc)
    ensures Step(s, EWork(f.act, f.lost)) == WorkReply(s, f.act, f.lost)
  {
    hide WorkReply;
  }

  lemma ExitStep(s: Sys, f: Fate)
    requires Exits(s.pc)
    ensures Step(s, EWork(f.act, f.lost)) == WorkExit(s, f.act, f.lost)
  {
    hide WorkExit;
  }

  lemma LaunchStep(s: Sys, f: Fate)
    requires s.pc == Launched
    ensures Step(s, EWork(f.act, f.lost)) == Launch(s, f.act, f.lost)
  {
    hide Launch;
  }

  lemma ElsewhereLeavesWorker(s: Sys, e: Event)
    requires Elsewhere(e)
    ensures Undisturbed(s, Step(s, e))
  {
  }

  /** How a Trainer or Rollouter method ends; `Waiting` has not got the gate's lock yet and is to be called again. */
  datatype Reply = Raised | Waiting | NoRoute | Published | Evidenced(released: bool)

  /** The shared world: the owners' state and the script of fates, with the events so far as history. */
  class World {
    var s: Sys
    var at: nat
    const script: nat -> Fate
    ghost const start: Sys
    ghost var log: seq<Event>
    ghost var prior: Sys
    ghost var event: Event

    /** The present state is the state after the events so far. */
    ghost predicate Valid()
      reads this
    {
      s == Run(start, log)
    }

    /** An exception is on its way to the handler of `c`: once handled, one more event has happened. */
    ghost predicate Unwinds(c: Caller)
      reads this
    {
      prior == Run(start, log) && Step(prior, event) == CallerFails(s, c)
    }

    constructor (begin: Sys, fates: nat -> Fate)
      ensures Valid() && s == begin && start == begin && log == [] && script == fates
    {
      s, at, script, start, log, prior, event := begin, 0, fates, begin, [], begin, EReplay;
    }

    ghost method Record(before: Sys, e: Event)
      requires before == Run(start, log) && s == Step(before, e)
      modifies this`log
      ensures Valid() && log == old(log) + [e]
    {
      log := log + [e];
      assert log[..|log| - 1] == old(log);
    }

    ghost method Unwind(before: Sys, e: Event, c: Caller)
      requires before == Run(start, log) && Step(before, e) == CallerFails(s, c)
      modifies this`prior, this`event
      ensures Unwinds(c)
    {
      prior, event := before, e;
    }

    method Await() returns (f: Fate)
      requires Valid()
      modifies this`s, this`at, this`log
      ensures Valid() && Undisturbed(old(s), s)
    {
      f := script(at);
      at := at + 1;
      for i := 0 to |f.others|
        invariant Valid() && Undisturbed(old(s), s)
      {
        if Elsewhere(f.others[i]) {
          ghost var before := s;
          ElsewhereLeavesWorker(s, f.others[i]);
          s := Step(s, f.others[i]);
          Record(before, f.others[i]);
        }
      }
    }
  }

  // ---------------------------------------------------------------- rollouter.py

  class Rollouter {
    const w: World

    constructor (world: World)
      ensures w == world
    {
      w := world;
    }

    /** finalize_release: M closes only from verified evidence; an unproved release quarantines. */
    method FinalizeRelease(act: Act) returns (ok: bool)
      modifies w`s
      ensures (w.s, ok) == Publication.FinalizeRelease(old(w.s), act)
    {
      if act == NotRun || act == Refused || !w.s.Bound() { return false; }
      var key := w.s.Key();
      var addRollback := w.s.Kind(BORROWED) && w.s.State(CREATING);
      if !addRollback && !w.s.State(DRAINING) { return false; }
      if act.Breaks? {
        w.s := w.s.Enter(QUARANTINED);
        return false;
      }
      var freed := FreedNow(w.s);
      w.s := w.s.With(w.s.o.Release(key, w.s.Op()));
      w.s := w.s.Unbind().(freed := w.s.freed + [freed]);
      ok := true;
    }

    /** query_ready_operation after commit_ready raised, or for a target M already calls ACTIVE. */
    method QueryReady(c: Caller) returns (r: Reply)
      requires w.Valid() && w.s.pc == Doubt(c)
      modifies w
      ensures r in {Raised, NoRoute, Published} && w.s.cmd == old(w.s.cmd)
      ensures if r == Raised then w.Unwinds(c) else w.Valid() && w.s.pc == if r == NoRoute then Absent(c)
              else Committed(c)
    {
      hide Run;
      hide Step;
      var f := w.Await();
      ghost var before := w.s;
      CommitStep(before, f);
      if f.act != Runs {
        w.Unwind(before, EWork(f.act, f.lost), c);
        return Raised;
      }
      if w.s.Op() in w.s.o.pub {
        w.s := w.s.Unbind().At(Committed(c));
        r := Published;
      } else {
        w.s := w.s.Enter(DRAINING).At(Absent(c));
        r := NoRoute;
      }
      w.Record(before, EWork(f.act, f.lost));
    }

    /** commit_ready and, unless its answer arrives, the ledger query. */
    method CommitReady(c: Caller) returns (r: Reply)
      requires w.Valid() && w.s.pc == Publishing(c)
      modifies w
      ensures r in {Raised, NoRoute, Published} && w.s.cmd == old(w.s.cmd)
      ensures if r == Raised then w.Unwinds(c) else w.Valid() && w.s.pc == if r == NoRoute then Absent(c)
              else Committed(c)
    {
      hide Run;
      hide Step;
      var f := w.Await();
      ghost var before := w.s;
      CommitStep(before, f);
      var accepted := f.act == Runs && MayPublish(w.s.o, w.s.Key(), w.s.Op());
      if accepted { w.s := w.s.With(w.s.o.CommitReady(w.s.Key(), w.s.Op())); }
      if accepted && !f.lost {
        w.s := w.s.Unbind().At(Committed(c));
        w.Record(before, EWork(f.act, f.lost));
        return Published;
      }
      w.s := w.s.At(Doubt(c));
      w.Record(before, EWork(f.act, f.lost));
      r := QueryReady(c);
    }

    /** The exit branch: finish_remove once nothing is admitted. */
    method FinishExit(c: Caller) returns (r: Reply)
      requires w.Valid() && w.s.pc == Unrouting(c)
      modifies w
      ensures r in {Raised, Published} && w.s.cmd == old(w.s.cmd)
      ensures if r == Raised then w.Unwinds(c) else w.Valid() && w.s.pc == Committed(c)
    {
      hide Run;
      hide Step;
      var f := w.Await();
      ghost var before := w.s;
      CommitStep(before, f);
      var routed := w.s.Key() in w.s.o.route;
      if f.act != Runs || (routed && w.s.o.Admits(w.s.Key())) {
        w.Unwind(before, EWork(f.act, f.lost), c);
        return Raised;
      }
      if routed { w.s := w.s.With(w.s.o.FinishRemove(w.s.Key())); }
      if f.lost {
        w.Unwind(before, EWork(f.act, f.lost), c);
        return Raised;
      }
      w.s := w.s.At(Committed(c));
      w.Record(before, EWork(f.act, f.lost));
      r := Published;
    }

    /** activate_service: wake a sleeping native and list the replica, or quarantine it. */
    method ActivateService(c: Caller, act: Act) returns (ok: bool)
      modifies w`s
      ensures ok == !act.Breaks?
      ensures if ok then w.s == Activate(old(w.s), c, act) && w.s.pc == Publishing(c) && w.s.cmd == old(w.s.cmd)
              else w.s == old(w.s).Enter(QUARANTINED) && CallerFails(w.s, c) == Activate(old(w.s), c, act)
    {
      if act.Breaks? {
        w.s := w.s.Enter(QUARANTINED);
        return false;
      }
      if w.s.State(DORMANT) { w.s := w.s.With(w.s.o.Woken(w.s.Key())); }
      w.s := w.s.Enter(ACTIVE).At(Publishing(c));
      ok := true;
    }

    /** commit_service_change: one branch per state of M. */
    method CommitServiceChange(c: Caller) returns (r: Reply)
      requires w.Valid() && w.s.pc == Commit(c)
      modifies w
      ensures r in {Raised, NoRoute, Published} && w.s.cmd == old(w.s.cmd)
      ensures if r == Raised then w.Unwinds(c) else w.Valid() && w.s.pc == if r == NoRoute then Absent(c)
              else Committed(c)
    {
      hide Run;
      hide Step;
      var f := w.Await();
      ghost var before := w.s;
      CommitStep(before, f);
      if f.act == NotRun || f.act == Refused || !w.s.Bound() {
        w.Unwind(before, EWork(f.act, f.lost), c);
        return Raised;
      }
      if w.s.State(ACTIVE) {
        w.s := w.s.At(Doubt(c));
        w.Record(before, EWork(f.act, f.lost));
        r := QueryReady(c);
        return;
      }
      if (w.s.State(CREATING) && w.s.Kind(BORROWED)) || (w.s.State(DORMANT) && w.s.Kind(NATIVE)) {
        var activated := ActivateService(c, f.act);
        if activated {
          w.Record(before, EWork(f.act, f.lost));
          r := CommitReady(c);
        } else {
          w.Unwind(before, EWork(f.act, f.lost), c);
          r := Raised;
        }
        return;
      }
      if !w.s.State(DRAINING) {
        w.Unwind(before, EWork(f.act, f.lost), c);
        return Raised;
      }
      w.s := w.s.At(Unrouting(c));
      w.Record(before, EWork(f.act, f.lost));
      r := FinishExit(c);
    }

    /** create_borrowed_replica under its record fence; false stands for every exception. */
    method CreateBorrowed(act: Act) returns (ok: bool)
      requires w.s.cmd.kind == ADD && w.s.Bound()
      modifies w`s
      ensures w.s == old(w.s).With(w.s.o)
      ensures var k, o := old(w.s).Key(), old(w.s).o;
        if act == Refused || (k in o.m && !(k in o.made && o.made[k] == old(w.s).Op())) || k in o.spoilt then
          !ok && w.s.o == o
        else if k in o.m then ok && w.s.o == o
        else if act.Breaks? then !ok && w.s.o == o.Create(k, old(w.s).Op(), if act.clean then RELEASED else QUARANTINED)
        else ok && w.s.o == o.Create(k, old(w.s).Op(), CREATING)
    {
      var key, op := w.s.Key(), w.s.Op();
      if act == Refused { return false; }
      if key in w.s.o.m {
        return key in w.s.o.made && w.s.o.made[key] == op && key !in w.s.o.spoilt;
      }
      if key in w.s.o.spoilt { return false; }
      if act.Breaks? {
        w.s := w.s.With(w.s.o.Create(key, op, if act.clean then RELEASED else QUARANTINED));
        return false;
      }
      w.s := w.s.With(w.s.o.Create(key, op, CREATING));
      ok := true;
    }

    /** prepare_replica's two answers after the creation, and their loss on the way. */
    method AnswerCreated(lost: bool) returns (r: Reply)
      modifies w`s
      ensures w.s == CreateAnswers(old(w.s), lost) && w.s.cmd == old(w.s.cmd)
      ensures r == if lost then Raised else Published
      ensures w.s.pc == if lost then Idle else Prepared
    {
      if lost {
        w.s := w.s.Unknown();
        r := Raised;
      } else {
        w.s := w.s.At(Prepared);
        r := Published;
      }
    }

    method AnswerNotCreated(lost: bool) returns (r: Reply)
      modifies w`s
      ensures w.s == CreateRaises(old(w.s), lost) && w.s.cmd == old(w.s.cmd)
      ensures r in {Raised, Evidenced(true)} && w.s.pc == if r == Raised then Idle else Closing(false)
    {
      r := Raised;
      if w.s.Key() !in w.s.o.m || (w.s.Kind(BORROWED) && w.s.State(RELEASED)) {
        w.s := w.s.Unbind();
        if !lost {
          w.s := w.s.At(Closing(false));
          return Evidenced(true);
        }
      }
      w.s := w.s.Unknown();
    }

    /** prepare_replica with a spec: only a proven absence of any runtime turns a failure into RELEASED. */
    method PrepareAdd() returns (r: Reply)
      requires w.Valid() && w.s.pc == Launched && w.s.cmd.kind == ADD
      modifies w
      ensures w.Valid() && w.s.cmd == old(w.s.cmd)
      ensures match r {
        case Published => w.s.pc == Prepared
        case Evidenced(released) => released && w.s.pc == Closing(false)
        case Raised => w.s.pc == Idle
        case _ => false
      }
    {
      hide Run;
      hide Step;
      var f := w.Await();
      ghost var before := w.s;
      LaunchStep(before, f);
      if f.act == NotRun {
        w.s := w.s.Unknown();
        w.Record(before, EWork(f.act, f.lost));
        return Raised;
      }
      w.s := w.s.Bind();
      var created := CreateBorrowed(f.act);
      if created {
        r := AnswerCreated(f.lost);
      } else {
        r := AnswerNotCreated(f.lost);
      }
      w.Record(before, EWork(f.act, f.lost));
    }

    /** prepare_replica without a spec. */
    method PrepareRestore() returns (r: Reply)
      requires w.Valid() && w.s.pc == Launched && w.s.cmd.kind == RESTORE
      modifies w
      ensures w.Valid() && w.s.cmd == old(w.s.cmd) && r in {Raised, Published}
      ensures w.s.pc == if r == Raised then Idle else Prepared
    {
      hide Run;
      hide Step;
      var f := w.Await();
      ghost var before := w.s;
      LaunchStep(before, f);
      r := Raised;
      if f.act == Runs && w.s.Kind(NATIVE) {
        if w.s.State(DORMANT) {
          w.s := w.s.Bind();
          if !f.lost { r := Published; }
        } else if w.s.State(ACTIVE) && w.s.Bound() && !f.lost {
          r := Published;
        }
      }
      w.s := if r == Raised then w.s.Unknown() else w.s.At(Prepared);
      w.Record(before, EWork(f.act, f.lost));
    }

    /** quarantine_dormant_restore: a partly awake native is not advertised as sleeping. */
    method QuarantineDormantRestore(act: Act)
      modifies w`s
      ensures w.s == if act == Runs && old(w.s).Bound() && old(w.s).State(DORMANT) then old(w.s).Enter(QUARANTINED)
              else old(w.s)
    {
      if act == Runs && w.s.Bound() && w.s.State(DORMANT) { w.s := w.s.Enter(QUARANTINED); }
    }

    /** prepare_exit: close admission, then wait, for as long as `patience` lasts, until nothing is admitted. */
    method PrepareExit(patience: nat) returns (r: Reply)
      requires w.Valid() && w.s.pc == Admitting && w.s.IsExit()
      modifies w
      ensures w.Valid() && w.s.cmd == old(w.s.cmd)
      ensures match r {
        case Published => w.s.pc == Drained
        case Raised => w.s.pc == Idle || w.s.pc == Closing(false)
        case _ => false
      }
    {
      hide Run;
      hide Step;
      var f := w.Await();
      ghost var before := w.s;
      ExitStep(before, f);
      if f.act != Runs || !MayExit(w.s) {
        // Only a missing binding proves that prepare_exit never entered the owner path.
        w.s := if f.lost || w.s.Bound() then w.s.Unknown() else w.s.At(Closing(false));
        w.Record(before, EWork(f.act, f.lost));
        return Raised;
      }
      w.s := w.s.Enter(DRAINING).Bind().At(Shutting);
      w.Record(before, EWork(f.act, f.lost));
      r := CloseAdmission();
      if r == Published { r := AwaitDrain(patience); }
    }

    /** Ask R until nothing is admitted or the time is over, which leaves everything for the operation's replay. */
    method AwaitDrain(patience: nat) returns (r: Reply)
      requires w.Valid() && w.s.pc == Draining
      modifies w
      ensures w.Valid() && w.s.cmd == old(w.s.cmd) && r in {Raised, Published}
      ensures w.s.pc == if r == Raised then Idle else Drained
    {
      hide Run;
      hide Step;
      var polls := 0;
      while polls < patience
        invariant w.Valid() && w.s.pc == Draining && w.s.cmd == old(w.s.cmd)
      {
        var f := w.Await();
        ghost var before := w.s;
        ExitStep(before, f);
        if f.act != Runs || (f.lost && !w.s.o.Admits(w.s.Key())) {
          w.s := w.s.Unknown();
          w.Record(before, EWork(f.act, f.lost));
          return Raised;
        }
        if !w.s.o.Admits(w.s.Key()) {
          w.s := w.s.At(Drained);
          w.Record(before, EWork(f.act, f.lost));
          return Published;
        }
        polls := polls + 1;
      }
      ghost var before := w.s;
      ExitStep(before, Fate([], NotRun, false));
      w.s := w.s.Unknown();
      w.Record(before, EWork(NotRun, false));
      r := Raised;
    }

    /** _begin_drain_once. */
    method CloseAdmission() returns (r: Reply)
      requires w.Valid() && w.s.pc == Shutting
      modifies w
      ensures w.Valid() && w.s.cmd == old(w.s.cmd) && r in {Raised, Published}
      ensures w.s.pc == if r == Raised then Idle else Draining
    {
      hide Run;
      hide Step;
      var f := w.Await();
      ghost var before := w.s;
      ExitStep(before, f);
      r := Raised;
      var key, op := w.s.Key(), w.s.Op();
      if f.act == Runs && key in w.s.o.route && (key in w.s.o.drain ==> w.s.o.drain[key] == op) {
        w.s := w.s.With(w.s.o.BeginDrain(key, op));
        if !f.lost { r := Published; }
      }
      w.s := if r == Raised then w.s.Unknown() else w.s.At(Draining);
      w.Record(before, EWork(f.act, f.lost));
    }
  }

  // ---------------------------------------------------------------- trainer.py

  class Trainer {
    const w: World
    const rollouter: Rollouter

    constructor (world: World, remote: Rollouter)
      requires remote.w == world
      ensures w == world && rollouter == remote && rollouter.w == w
    {
      w, rollouter := world, remote;
    }

    /** gate.block and the release of the lease. */
    method Block(c: Caller)
      requires w.Unwinds(c) && (c == Exit || (c == Publish && w.s.cmd.kind != RESTORE))
      modifies w
      ensures w.Valid() && w.s.pc == Idle && w.s.cmd == old(w.s.cmd)
    {
      w.s := w.s.(latch := ByOperation(w.s.Op()), lock := Free);
      w.s := w.s.Unknown();
      w.Record(w.prior, w.event);
    }

    /** A reconciliation callback raised: the latch stays, the lock goes. */
    method LeaveFenced(c: Caller)
      requires w.Unwinds(c) && c.Recovers()
      modifies w
      ensures w.Valid() && w.s.pc == Idle && w.s.cmd == old(w.s.cmd)
    {
      w.s := w.s.(lock := Free);
      w.s := w.s.Unknown();
      w.Record(w.prior, w.event);
    }

    /** An exception enters RESTORE's handler. */
    method StartFencing()
      requires w.Unwinds(Publish) && w.s.cmd.kind == RESTORE
      modifies w
      ensures w.Valid() && w.s.pc == Failing && w.s.cmd == old(w.s.cmd)
    {
      w.s := w.s.At(Failing);
      w.Record(w.prior, w.event);
    }

    /** RESTORE's handler: quarantine a DORMANT replica, then fence the gate. */
    method FenceRestore()
      requires rollouter.w == w && w.Valid() && w.s.pc == Failing
      modifies w
      ensures w.Valid() && w.s.pc == Idle && w.s.cmd == old(w.s.cmd)
    {
      hide Run;
      hide Step;
      var f := w.Await();
      ghost var before := w.s;
      ReplyStep(before, f);
      rollouter.QuarantineDormantRestore(f.act);
      w.s := w.s.(latch := ByOperation(w.s.Op()), lock := Free);
      w.s := w.s.Unknown();
      w.Record(before, EWork(f.act, f.lost));
    }

    /** The end of a Trainer method that returns normally; a reconciliation that does so clears the latch. */
    method GiveBack(c: Caller, released: bool)
      modifies w`s
      ensures w.s == CallerReturns(old(w.s), c, released)
    {
      if c.Recovers() { w.s := w.s.(latch := NoFence); }
      w.s := w.s.(lock := Free, pc := Returning(released));
    }

    /** SERVICE_COMMITTED arrives and is returned. */
    method AcceptCommit(c: Caller) returns (r: Reply)
      requires w.Valid() && w.s.pc == Committed(c)
      modifies w
      ensures r in {Raised, Evidenced(false)} && w.s.cmd == old(w.s.cmd)
      ensures if r == Raised then w.Unwinds(c) else w.Valid() && w.s.pc == Returning(false)
    {
      hide Run;
      hide Step;
      var f := w.Await();
      ghost var before := w.s;
      ReplyStep(before, f);
      if f.act != Runs || w.s.Key() !in w.s.o.m {
        w.Unwind(before, EWork(f.act, f.lost), c);
        return Raised;
      }
      w.s := w.s.(answers := w.s.answers + [AnswerNow(w.s)]);
      GiveBack(c, false);
      w.Record(before, EWork(f.act, f.lost));
      r := Evidenced(false);
    }

    /** The router has no route: remove E and park a native again, ... */
    method Withdraw(c: Caller) returns (ok: bool)
      requires w.Valid() && w.s.pc == Absent(c) && c.Publishes()
      modifies w
      ensures w.s.cmd == old(w.s.cmd)
      ensures if ok then w.Valid() && w.s.pc == Withdrawn(c) else w.Unwinds(c)
    {
      hide Run;
      hide Step;
      var f := w.Await();
      ghost var before := w.s;
      ReplyStep(before, f);
      ok := f.act == Runs;
      if !ok {
        w.Unwind(before, EWork(f.act, f.lost), c);
        return;
      }
      w.s := w.s.With(w.s.o.RemoveEffective(w.s.Key()));
      if w.s.cmd.kind == RESTORE { w.s := w.s.With(w.s.o.Park(w.s.Key(), w.s.Op())); }
      w.s := w.s.At(Withdrawn(c));
      w.Record(before, EWork(f.act, f.lost));
    }

    /** ... then release the runtime. */
    method ReleaseWithdrawn(c: Caller) returns (r: Reply)
      requires rollouter.w == w && w.Valid() && w.s.pc == Withdrawn(c)
      modifies w
      ensures r in {Raised, Evidenced(true)} && w.s.cmd == old(w.s.cmd)
      ensures if r == Raised then w.Unwinds(c) else w.Valid() && w.s.pc == Returning(true)
    {
      hide Run;
      hide Step;
      var f := w.Await();
      ghost var before := w.s;
      ReplyStep(before, f);
      var released := rollouter.FinalizeRelease(f.act);
      if !released || f.lost {
        w.Unwind(before, EWork(f.act, f.lost), c);
        return Raised;
      }
      GiveBack(c, true);
      w.Record(before, EWork(f.act, f.lost));
      r := Evidenced(true);
    }

    /** What bootstrap_and_publish, restore_and_publish and their reconciliation do from commit_service_change on. */
    method PublishOrWithdraw(c: Caller) returns (r: Reply)
      requires rollouter.w == w && w.Valid() && w.s.pc == Commit(c) && c.Publishes()
      modifies w
      ensures w.s.cmd == old(w.s.cmd)
      ensures match r {
        case Raised => w.Unwinds(c)
        case Evidenced(released) => w.Valid() && w.s.pc == Returning(released)
        case _ => false
      }
    {
      r := rollouter.CommitServiceChange(c);
      if r == NoRoute {
        var withdrawn := Withdraw(c);
        r := Raised;
        if withdrawn { r := ReleaseWithdrawn(c); }
      } else if r == Published {
        r := AcceptCommit(c);
      }
    }

    /** Reconcile a gate this operation blocked, else acquire it; NoRoute means "go on" with the lease. */
    method OpenGate() returns (r: Reply)
      requires rollouter.w == w && w.Valid() && w.s.pc == Prepared
      modifies w
      ensures w.Valid() && w.s.cmd == old(w.s.cmd)
      ensures match r {
        case NoRoute => w.s.pc == Opened
        case Waiting => w.s.pc == Prepared
        case Raised => w.s.pc == Idle
        case Evidenced(released) => w.s.pc == Returning(released)
        case Published => false
      }
    {
      hide Run;
      hide Step;
      var f := w.Await();
      ghost var before := w.s;
      BootStep(before, f);
      var fenced := w.s.FencedHere();
      if f.act == Runs && fenced && w.s.Bound() && w.s.Key() in w.s.o.eff {
        if w.s.lock != Free { return Waiting; }
        w.s := w.s.(lock := Worker).At(Commit(Recover));
        w.Record(before, EWork(f.act, f.lost));
        r := PublishOrWithdraw(Recover);
        if r == Raised { LeaveFenced(Recover); }
        return;
      }
      if f.act != Runs || (fenced && !w.s.Bound()) || w.s.latch != NoFence {
        w.s := w.s.Unknown();
        w.Record(before, EWork(f.act, f.lost));
        return Raised;
      }
      if w.s.lock != Free { return Waiting; }
      w.s := w.s.(lock := Worker).At(Opened);
      w.Record(before, EWork(f.act, f.lost));
      r := NoRoute;
    }

    /** bootstrap_target of a registered target; a failed native is asleep again only if that is proved. */
    method BootstrapTarget() returns (r: Reply)
      requires w.Valid() && w.s.pc == Registered
      modifies w
      ensures w.Valid() && w.s.cmd == old(w.s.cmd)
      ensures match r {
        case Published => w.s.pc == Ready
        case Raised => w.s.pc == if w.s.cmd.kind == RESTORE then Failing else Rollback
        case Evidenced(released) => released && w.s.pc == Returning(true) && w.s.cmd.kind == RESTORE
        case _ => false
      }
    {
      hide Run;
      hide Step;
      var f := w.Await();
      ghost var before := w.s;
      BootStep(before, f);
      var key, op, restore := w.s.Key(), w.s.Op(), w.s.cmd.kind == RESTORE;
      r := Raised;
      if key in w.s.o.ready {
        if w.s.o.ready[key] == (op, w.s.version) { r := Published; }
      } else if f.act != NotRun && f.act != Refused && key in w.s.o.pend && w.s.o.pend[key] == op {
        if f.act == Runs {
          w.s := w.s.With(w.s.o.Loaded(key, op, w.s.version));
          r := Published;
        } else if restore {
          w.s := w.s.With(if f.act.clean then w.s.o.Slept(key) else w.s.o.Woken(key));
          if f.act.clean { r := Evidenced(true); }
        }
      }
      if r == Published {
        w.s := w.s.At(Ready);
      } else if r == Raised {
        w.s := w.s.At(if restore then Failing else Rollback);
      } else {
        GiveBack(Publish, true);
      }
      w.Record(before, EWork(f.act, f.lost));
    }

    /** commit_pending with this operation's WEIGHT_READY. */
    method CommitPending() returns (ok: bool)
      requires w.Valid() && w.s.pc == Ready
      modifies w
      ensures w.Valid() && w.s.cmd == old(w.s.cmd)
      ensures w.s.pc == if ok then Commit(Publish) else if w.s.cmd.kind == RESTORE then Failing else Rollback
    {
      hide Run;
      hide Step;
      var f := w.Await();
      ghost var before := w.s;
      BootStep(before, f);
      var key, op := w.s.Key(), w.s.Op();
      ok := false;
      if f.act == Runs && key in w.s.o.ready && w.s.o.ready[key].0 == op {
        if key in w.s.o.eff && key !in w.s.o.pend {
          ok := true;
        } else if key in w.s.o.pend && w.s.o.pend[key] == op {
          w.s := w.s.With(w.s.o.Promote(key));
          ok := true;
        }
      }
      w.s := w.s.At(if ok then Commit(Publish) else if w.s.cmd.kind == RESTORE then Failing else Rollback);
      w.Record(before, EWork(f.act, f.lost));
    }

    /**
     * The ADD handler before E was committed: discard what was registered, then prove the runtime released or fence.
     */
    method RollBackAdd(pendingRegistered: bool) returns (r: Reply)
      requires rollouter.w == w && w.Valid() && w.s.cmd.kind == ADD
      requires w.s.pc == if pendingRegistered then Rollback else RollbackRelease
      modifies w
      ensures w.Valid() && w.s.cmd == old(w.s.cmd) && r in {Raised, Evidenced(true)}
      ensures w.s.pc == if r == Raised then Idle else Returning(true)
    {
      hide Run;
      hide Step;
      if pendingRegistered {
        ghost var earlier := w.s;
        BootStep(earlier, Fate([], Runs, false));
        w.s := w.s.With(w.s.o.Discard(w.s.Key())).At(RollbackRelease);
        w.Record(earlier, EWork(Runs, false));
      }
      var f := w.Await();
      ghost var before := w.s;
      BootStep(before, f);
      var released := rollouter.FinalizeRelease(f.act);
      if released && !f.lost {
        GiveBack(Publish, true);
        r := Evidenced(true);
      } else {
        w.s := w.s.(latch := ByOperation(w.s.Op()), lock := Free);
        w.s := w.s.Unknown();
        r := Raised;
      }
      w.Record(before, EWork(f.act, f.lost));
    }

    /** Read the hidden target and register it as pending; an effective one only as this operation's own replay. */
    method RegisterTarget() returns (ok: bool)
      requires w.Valid() && w.s.pc == Opened && w.s.cmd.kind == ADD
      modifies w
      ensures w.Valid() && w.s.cmd == old(w.s.cmd) && w.s.pc == if ok then Registered else RollbackRelease
    {
      hide Run;
      hide Step;
      var f := w.Await();
      ghost var before := w.s;
      BootStep(before, f);
      ok := f.act == Runs && w.s.Bound() && w.s.Kind(BORROWED) && !w.s.State(RELEASED) && MayRegister(w.s);
      if ok && w.s.Key() !in w.s.o.eff { w.s := w.s.With(w.s.o.Park(w.s.Key(), w.s.Op())); }
      w.s := w.s.At(if ok then Registered else RollbackRelease);
      w.Record(before, EWork(f.act, f.lost));
    }

    method BootstrapAndPublish() returns (r: Reply)
      requires rollouter.w == w && w.Valid() && w.s.pc == Prepared && w.s.cmd.kind == ADD
      modifies w
      ensures w.Valid() && w.s.cmd == old(w.s.cmd)
      ensures match r {
        case Waiting => w.s.pc == Prepared
        case Raised => w.s.pc == Idle
        case Evidenced(released) => w.s.pc == Returning(released)
        case _ => false
      }
    {
      r := OpenGate();
      if r != NoRoute { return; }
      var committed := false;
      var pendingRegistered := RegisterTarget();
      if pendingRegistered {
        var boot := BootstrapTarget();
        if boot == Published { committed := CommitPending(); }
      }
      if !committed {
        r := RollBackAdd(pendingRegistered);
        return;
      }
      r := PublishOrWithdraw(Publish);
      if r == Raised { Block(Publish); }
    }

    /** Rebind the parked native to this RESTORE; without one nothing has been changed yet. */
    method RebindParked() returns (ok: bool)
      requires w.Valid() && w.s.pc == Opened && w.s.cmd.kind == RESTORE
      modifies w
      ensures w.Valid() && w.s.cmd == old(w.s.cmd) && w.s.pc == if ok then Registered else Idle
    {
      hide Run;
      hide Step;
      var f := w.Await();
      ghost var before := w.s;
      BootStep(before, f);
      ok := f.act == Runs && w.s.Bound() && w.s.Kind(NATIVE) && w.s.Key() in w.s.o.pend;
      if ok {
        w.s := w.s.With(w.s.o.Discard(w.s.Key()).Park(w.s.Key(), w.s.Op())).At(Registered);
      } else {
        w.s := w.s.(lock := Free);
        w.s := w.s.Unknown();
      }
      w.Record(before, EWork(f.act, f.lost));
    }

    method RestoreAndPublish() returns (r: Reply)
      requires rollouter.w == w && w.Valid() && w.s.pc == Prepared && w.s.cmd.kind == RESTORE
      modifies w
      ensures w.Valid() && w.s.cmd == old(w.s.cmd)
      ensures match r {
        case Waiting => w.s.pc == Prepared
        case Raised => w.s.pc == Idle
        case Evidenced(released) => w.s.pc == Returning(released)
        case _ => false
      }
    {
      hide Run;
      hide Step;
      r := OpenGate();
      if r != NoRoute { return; }
      var mutated := RebindParked();
      if !mutated { return Raised; }
      r := BootstrapTarget();
      if r == Published {
        var committed := CommitPending();
        r := Raised;
        if committed {
          r := PublishOrWithdraw(Publish);
          if r == Raised { StartFencing(); }
        }
      }
      if r == Raised { FenceRestore(); }
    }

    /**
     * reconcile_exit: only an exit that has left E settles its own fence; NoRoute means there is nothing to
     * reconcile.
     */
    method ReconcileExit() returns (r: Reply)
      requires rollouter.w == w && w.Valid() && w.s.pc == Checking && w.s.IsExit()
      modifies w
      ensures w.Valid() && w.s.cmd == old(w.s.cmd)
      ensures match r {
        case NoRoute => w.s.pc == Admitting
        case Waiting => w.s.pc == Checking
        case Raised => w.s.pc == Idle
        case Evidenced(released) => !released && w.s.pc == Returning(false)
        case Published => false
      }
    {
      hide Run;
      hide Step;
      var f := w.Await();
      ghost var before := w.s;
      ExitStep(before, f);
      if f.act != Runs || (w.s.FencedHere() && !w.s.Bound()) {
        w.s := w.s.Unknown();
        w.Record(before, EWork(f.act, f.lost));
        return Raised;
      }
      if !w.s.FencedHere() || w.s.Key() in w.s.o.eff {
        w.s := w.s.At(Admitting);
        w.Record(before, EWork(f.act, f.lost));
        return NoRoute;
      }
      if w.s.lock != Free { return Waiting; }
      w.s := w.s.(lock := Worker).At(Commit(ExitRecover));
      w.Record(before, EWork(f.act, f.lost));
      r := CommitExit(ExitRecover);
      if r == Raised { LeaveFenced(ExitRecover); }
    }

    /** commit_service_change of an exit: anything but SERVICE_COMMITTED is an exception. */
    method CommitExit(c: Caller) returns (r: Reply)
      requires rollouter.w == w && w.Valid() && w.s.pc == Commit(c) && !c.Publishes()
      modifies w
      ensures r in {Raised, Evidenced(false)} && w.s.cmd == old(w.s.cmd)
      ensures if r == Raised then w.Unwinds(c) else w.Valid() && w.s.pc == Returning(false)
    {
      hide Run;
      hide Step;
      r := rollouter.CommitServiceChange(c);
      if r == NoRoute {
        var f := w.Await();
        ReplyStep(w.s, f);
        w.Unwind(w.s, EWork(f.act, f.lost), c);
        r := Raised;
      } else if r == Published {
        r := AcceptCommit(c);
      }
    }

    /** Take the target out of E and park a native one; a target that is not a member changes nothing. */
    method RemoveMember() returns (ok: bool)
      requires w.Valid() && w.s.pc == Removing
      modifies w
      ensures w.Valid() && w.s.cmd == old(w.s.cmd) && w.s.pc == if ok then Commit(Exit) else Idle
    {
      hide Run;
      hide Step;
      var f := w.Await();
      ghost var before := w.s;
      ExitStep(before, f);
      ok := f.act == Runs && w.s.Bound() && w.s.Key() in w.s.o.eff;
      if !ok {
        w.s := w.s.(lock := Free);
        w.s := w.s.Unknown();
      } else {
        var removed := w.s.o.RemoveEffective(w.s.Key());
        w.s := w.s.With(if w.s.Kind(NATIVE) then removed.Park(w.s.Key(), w.s.Op()) else removed).At(Commit(Exit));
      }
      w.Record(before, EWork(f.act, f.lost));
    }

    method RemoveAndCommit() returns (r: Reply)
      requires rollouter.w == w && w.Valid() && w.s.pc == Drained && w.s.IsExit()
      modifies w
      ensures w.Valid() && w.s.cmd == old(w.s.cmd)
      ensures match r {
        case Waiting => w.s.pc == Drained
        case Raised => w.s.pc == Idle
        case Evidenced(released) => !released && w.s.pc == Returning(false)
        case _ => false
      }
    {
      hide Run;
      hide Step;
      var f := w.Await();
      ghost var before := w.s;
      ExitStep(before, f);
      if f.act != Runs || w.s.latch != NoFence {
        w.s := w.s.Unknown();
        w.Record(before, EWork(f.act, f.lost));
        return Raised;
      }
      if w.s.lock != Free { return Waiting; }
      w.s := w.s.(lock := Worker).At(Removing);
      w.Record(before, EWork(f.act, f.lost));
      var mutated := RemoveMember();
      if !mutated { return Raised; }
      r := CommitExit(Exit);
      if r == Raised { Block(Exit); }
    }
  }

  // ---------------------------------------------------------------- task_runner.py

  class TaskRunner {
    const w: World
    const trainer: Trainer
    const rollouter: Rollouter

    constructor (remoteTrainer: Trainer, remoteRollouter: Rollouter)
      requires remoteTrainer.w == remoteRollouter.w && remoteTrainer.rollouter == remoteRollouter
      ensures Connected() && trainer == remoteTrainer && rollouter == remoteRollouter
    {
      w, trainer, rollouter := remoteTrainer.w, remoteTrainer, remoteRollouter;
    }

    ghost predicate Connected() {
      trainer.w == w && rollouter.w == w && trainer.rollouter == rollouter
    }

    /** The remote call to a Trainer method returns, unless its reply is lost. */
    method TakeReply(released: bool) returns (ok: bool)
      requires w.Valid() && w.s.pc == Returning(released)
      modifies w
      ensures w.Valid() && w.s.cmd == old(w.s.cmd)
      ensures w.s.pc == if !ok then Idle else if w.s.IsExit() then Releasing else Closing(!released)
    {
      hide Run;
      hide Step;
      var f := w.Await();
      ghost var before := w.s;
      ReplyStep(before, f);
      ok := f.act == Runs;
      w.s := if !ok then w.s.Unknown() else w.s.At(if w.s.IsExit() then Releasing else Closing(!released));
      w.Record(before, EWork(f.act, f.lost));
    }

    /** advance_lease where evidence is owed, the journal entry, and clear_operation_binding. */
    method Finish(ok: bool)
      requires w.Valid() && w.s.pc == Closing(ok)
      modifies w
      ensures w.Valid() && w.s.pc == Idle && w.s.cmd == old(w.s.cmd)
    {
      hide Run;
      hide Step;
      var f := w.Await();
      ghost var before := w.s;
      ReplyStep(before, f);
      if f.act != Runs && OwesEvidence(w.s, ok) {
        w.s := w.s.Unknown();
      } else {
        if f.act == Runs { w.s := w.s.Unbind(); }
        w.s := w.s.(busy := false, pc := Idle);
      }
      w.Record(before, EWork(f.act, f.lost));
    }

    method ExecuteAdd() returns (finished: bool)
      requires Connected() && w.Valid() && w.s.pc == Launched && w.s.cmd.kind == ADD
      modifies w
      ensures w.Valid() && (finished ==> w.s.pc == Idle)
    {
      var r := rollouter.PrepareAdd();
      if r == Raised { return true; }
      if r == Evidenced(true) {
        Finish(false);
        return true;
      }
      r := trainer.BootstrapAndPublish();
      finished := Conclude(r);
    }

    method ExecuteRestore() returns (finished: bool)
      requires Connected() && w.Valid() && w.s.pc == Launched && w.s.cmd.kind == RESTORE
      modifies w
      ensures w.Valid() && (finished ==> w.s.pc == Idle)
    {
      var r := rollouter.PrepareRestore();
      if r == Raised { return true; }
      r := trainer.RestoreAndPublish();
      finished := Conclude(r);
    }

    /** SERVICE_COMMITTED closes the operation as succeeded, RELEASED as failed. */
    method Conclude(r: Reply) returns (finished: bool)
      requires w.Valid() && !w.s.IsExit()
      requires match r {
        case Waiting => true
        case Raised => w.s.pc == Idle
        case Evidenced(released) => w.s.pc == Returning(released)
        case _ => false
      }
      modifies w
      ensures w.Valid() && (finished ==> w.s.pc == Idle)
    {
      if !r.Evidenced? { return r == Raised; }
      var ok := TakeReply(r.released);
      if ok { Finish(!r.released); }
      finished := true;
    }

    /** The opening of a replayed exit: M's release ledger decides whether anything is left to do. */
    method QueryRelease() returns (r: Reply)
      requires w.Valid() && w.s.pc == Launched && w.s.IsExit()
      modifies w
      ensures w.Valid() && w.s.cmd == old(w.s.cmd)
      ensures match r {
        case NoRoute => w.s.pc == Checking
        case Published => w.s.pc == Admitting
        case Evidenced(released) => released && w.s.pc == Closing(true)
        case Raised => w.s.pc == Idle
        case Waiting => false
      }
    {
      hide Run;
      hide Step;
      var f := w.Await();
      ghost var before := w.s;
      LaunchStep(before, f);
      if !w.s.tried {
        w.s := w.s.At(Admitting);
        r := Published;
      } else if f.act != Runs {
        w.s := w.s.Unknown();
        r := Raised;
      } else if w.s.Op() in w.s.o.rel {
        if w.s.o.rel[w.s.Op()] == w.s.Key() {
          w.s := w.s.At(Closing(true));
          r := Evidenced(true);
        } else {
          w.s := w.s.Unknown();
          r := Raised;
        }
      } else {
        w.s := w.s.At(Checking);
        r := NoRoute;
      }
      w.Record(before, EWork(f.act, f.lost));
    }

    /** Release the runtime of a committed exit and close the operation. */
    method ReleaseAndFinish(released: bool)
      requires Connected() && w.Valid() && w.s.pc == Returning(released) && w.s.IsExit()
      modifies w
      ensures w.Valid() && w.s.pc == Idle
    {
      hide Run;
      hide Step;
      var ok := TakeReply(released);
      if !ok { return; }
      var f := w.Await();
      ghost var before := w.s;
      ExitStep(before, f);
      var done := rollouter.FinalizeRelease(f.act);
      w.s := if done && !f.lost then w.s.At(Closing(true)) else w.s.Unknown();
      w.Record(before, EWork(f.act, f.lost));
      if done && !f.lost { Finish(true); }
    }

    method ExecuteExit(patience: nat) returns (finished: bool)
      requires Connected() && w.Valid() && w.s.pc == Launched && w.s.IsExit()
      modifies w
      ensures w.Valid() && (finished ==> w.s.pc == Idle)
    {
      var r := QueryRelease();
      if r == Raised { return true; }
      if r.Evidenced? {
        Finish(true);
        return true;
      }
      if r == NoRoute {
        r := trainer.ReconcileExit();
        if r == Waiting || r == Raised { return r == Raised; }
      }
      if !r.Evidenced? {
        r := rollouter.PrepareExit(patience);
        if r == Raised {
          if w.s.pc == Closing(false) { Finish(false); }
          return true;
        }
        r := trainer.RemoveAndCommit();
        if r == Waiting || r == Raised { return r == Raised; }
      }
      ReleaseAndFinish(r.released);
      finished := true;
    }

    method Execute(patience: nat) returns (finished: bool)
      requires Connected() && w.Valid() && w.s.pc == Launched
      modifies w
      ensures w.Valid() && (finished ==> w.s.pc == Idle)
    {
      match w.s.cmd.kind
      case ADD => finished := ExecuteAdd();
      case RESTORE => finished := ExecuteRestore();
      case _ => finished := ExecuteExit(patience);
    }

    /**
     * The body of _execute_operation.  Every execution, with any fates and interleavings, is a run of the composed
     * system, and ends with the worker gone or still waiting for the gate.  In a task that began well every routed
     * server is then an effective member and nothing was released that was routed or busy.
     */
    method ExecuteOperation(patience: nat) returns (finished: bool)
      requires Connected() && w.Valid() && w.s.pc == Launched && Begun(w.start)
      modifies w
      ensures w.s == Run(w.start, w.log) && (finished ==> w.s.pc == Idle)
      ensures forall k | k in w.s.o.pool :: k in w.s.o.eff && k in w.s.o.up
      ensures forall f | f in w.s.freed ::
              !f.routed && !f.admitted && (f.effective <==> f.rollback && f.from == ReplicaState.DRAINING)
    {
      finished := Execute(patience);
      PublicationSafety.RoutedIsEffective(w.start, w.log);
      forall f | f in w.s.freed
        ensures !f.routed && !f.admitted && (f.effective <==> f.rollback && f.from == ReplicaState.DRAINING)
      {
        PublicationSafety.ReleaseComesLast(w.start, w.log, f);
      }
    }
  }
}
