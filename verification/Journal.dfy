/**
 * The operation journal and the TaskRunner's launch logic (orchestration/operation_journal.py,
 * task_runner.py): idempotent submission, one unresolved operation per task, one worker per operation.
 */
module Journal {
  import opened Contracts

  datatype Status = ACCEPTED | RUNNING | SUCCEEDED | FAILED | UNKNOWN
  datatype Record = Record(status: Status, result: Option<string>)

  predicate Terminal(s: Status) { s in {SUCCEEDED, FAILED, UNKNOWN} }
  predicate Resolved(s: Status) { s in {SUCCEEDED, FAILED} }

  datatype Book = Book(records: map<string, Record>, commands: map<string, Command>, active: map<string, string>)

  const BLANK := Book(map[], map[], map[])

  ghost predicate BookInv(b: Book) {
    && b.commands.Keys == b.records.Keys
    && (forall o | o in b.commands :: b.commands[o].op == o)
    && (forall o | o in b.records && !Resolved(b.records[o].status) ::
          b.commands[o].target.session in b.active && b.active[b.commands[o].target.session] == o)
    && (forall t | t in b.active :: b.active[t] in b.records)
  }

  /** A new operation is refused while another of the same task is unresolved; a replay must be identical. */
  function Begin(b: Book, c: Command): Result<Book> {
    var t := c.target.session;
    if c.op in b.records then (if c.op in b.commands && b.commands[c.op] == c then Ok(b) else Err)
    else if t in b.active && b.active[t] in b.records && !Resolved(b.records[b.active[t]].status) then Err
    else Ok(Book(b.records[c.op := Record(ACCEPTED, None)], b.commands[c.op := c], b.active[t := c.op]))
  }

  function MarkRunning(b: Book, o: string, result: Option<string>): Result<Book> {
    if o !in b.records || Terminal(b.records[o].status) then Err
    else Ok(b.(records := b.records[o := Record(RUNNING, if result.Some? then result else b.records[o].result)]))
  }

  function Reopen(b: Book, o: string): Result<Book> {
    if o !in b.records || b.records[o].status != UNKNOWN then Err
    else Ok(b.(records := b.records[o := Record(RUNNING, None)]))
  }

  /** A terminal record only accepts an identical repetition; resolving an operation frees its task. */
  function Finish(b: Book, o: string, s: Status, result: Option<string>): Result<Book> {
    if !Terminal(s) || o !in b.records || o !in b.commands then Err
    else if Terminal(b.records[o].status) then (if b.records[o] == Record(s, result) then Ok(b) else Err)
    else
      var t := b.commands[o].target.session;
      Ok(b.(records := b.records[o := Record(s, result)],
            active := if Resolved(s) && t in b.active && b.active[t] == o then b.active - {t} else b.active))
  }

  class OperationJournal {
    var records: map<string, Record>
    var commands: map<string, Command>
    var activeByTask: map<string, string>

    ghost function View(): Book
      reads this
    {
      Book(records, commands, activeByTask)
    }

    constructor ()
      ensures View() == BLANK
    {
      records, commands, activeByTask := map[], map[], map[];
    }

    method BeginOperation(c: Command) returns (r: Result<Record>)
      requires BookInv(View())
      modifies this
      ensures BookInv(View())
      ensures r.Ok? ==> Begin(old(View()), c) == Ok(View()) && c.op in records && r.value == records[c.op]
      ensures r.Err? ==> Begin(old(View()), c).Err? && View() == old(View())
    {
      if c.op in records {
        return if commands[c.op] == c then Ok(records[c.op]) else Err;
      }
      var task := c.target.session;
      if task in activeByTask && !Resolved(records[activeByTask[task]].status) { return Err; }
      commands := commands[c.op := c];
      records := records[c.op := Record(ACCEPTED, None)];
      activeByTask := activeByTask[task := c.op];
      r := Ok(records[c.op]);
    }

    method MarkRunningOf(o: string, result: Option<string>) returns (ok: bool)
      requires BookInv(View())
      modifies this`records
      ensures BookInv(View())
      ensures if ok then MarkRunning(old(View()), o, result) == Ok(View())
              else MarkRunning(old(View()), o, result).Err? && View() == old(View())
    {
      if o !in records || Terminal(records[o].status) { return false; }
      records := records[o := Record(RUNNING, if result.Some? then result else records[o].result)];
      ok := true;
    }

    method ReopenUnknown(o: string) returns (ok: bool)
      requires BookInv(View())
      modifies this`records
      ensures BookInv(View())
      ensures if ok then Reopen(old(View()), o) == Ok(View()) else Reopen(old(View()), o).Err? && View() == old(View())
    {
      if o !in records || records[o].status != UNKNOWN { return false; }
      records := records[o := Record(RUNNING, None)];
      ok := true;
    }

    method FinishOperation(o: string, s: Status, result: Option<string>) returns (ok: bool)
      requires BookInv(View())
      modifies this
      ensures BookInv(View())
      ensures if ok then Finish(old(View()), o, s, result) == Ok(View())
              else Finish(old(View()), o, s, result).Err? && View() == old(View())
    {
      if !Terminal(s) || o !in records { return false; }
      if Terminal(records[o].status) { return records[o] == Record(s, result); }
      records := records[o := Record(s, result)];
      var task := commands[o].target.session;
      if Resolved(s) && task in activeByTask && activeByTask[task] == o { activeByTask := activeByTask - {task}; }
      ok := true;
    }
  }

  // ---------------------------------------------------------------- the TaskRunner around it

  datatype Phase = Launched | Working | Done
  datatype Worker = Worker(op: string, phase: Phase)

  /** `threads` is the runner's own table of workers; `live` is the workers that really exist. */
  datatype Runner = Runner(b: Book, session: string, threads: map<string, nat>, leases: map<string, LeaseData>,
                           live: map<nat, Worker>, next: nat)

  function Idle(session: string): Runner { Runner(BLANK, session, map[], map[], map[], 0) }

  predicate MaySubmit(r: Runner, c: Command, lease: Option<LeaseData>) {
    && (lease.Some? ==> lease.value.id == c.lease) && (c.kind == OperationKind.ADD ==> lease.Some?)
    && c.target.session == r.session && Begin(r.b, c).Ok?
    && (c.kind == OperationKind.ADD && c.op in r.leases ==> lease == Some(r.leases[c.op]))
  }

  /** Launch on first sight, or when an UNKNOWN operation has no worker. */
  predicate Launches(r: Runner, c: Command) {
    c.op !in r.b.records || (r.b.records[c.op].status == UNKNOWN && c.op !in r.threads)
  }

  /** The journal entry and, for ADD, the lease snapshot. */
  function Noted(r: Runner, c: Command, lease: Option<LeaseData>): Runner
    requires MaySubmit(r, c, lease)
  {
    r.(b := Begin(r.b, c).value,
       leases := if c.kind == OperationKind.ADD && c.op !in r.leases then r.leases[c.op := lease.value] else r.leases)
  }

  function WithWorker(r: Runner, o: string): Runner {
    r.(threads := r.threads[o := r.next], live := r.live[r.next := Worker(o, Launched)], next := r.next + 1)
  }

  const LAUNCH_FAILED := Record(FAILED, Some("failed to launch lifecycle worker"))

  /** A first launch that fails resolves the operation; a failed relaunch leaves it UNKNOWN. */
  function Unlaunched(r: Runner, o: string, existed: bool): Runner {
    if existed then r.(threads := r.threads - {o})
    else
      var f := Finish(r.b, o, LAUNCH_FAILED.status, LAUNCH_FAILED.result);
      r.(b := if f.Ok? then f.value else r.b, leases := r.leases - {o}, threads := r.threads - {o})
  }

  function SubmitEffect(r: Runner, c: Command, lease: Option<LeaseData>, startOk: bool): Runner
    requires MaySubmit(r, c, lease)
  {
    var t := Noted(r, c, lease);
    if !Launches(r, c) then t
    else if startOk then WithWorker(t, c.op)
    else Unlaunched(t, c.op, c.op in r.b.records)
  }

  datatype Event =
    | Submit(c: Command, lease: Option<LeaseData>, startOk: bool)
    | WorkerBegins(w: nat)
    | WorkerFinishes(w: nat, s: Status, result: Option<string>)   // an outcome, or UNKNOWN from the exception handler
    | WorkerLeaves(w: nat)                                        // the finally block

  function Step(r: Runner, e: Event): Runner {
    match e
    case Submit(c, lease, startOk) => if MaySubmit(r, c, lease) then SubmitEffect(r, c, lease, startOk) else r
    case WorkerBegins(w) => if w in r.live && r.live[w].phase == Launched then Begun(r, w) else r
    case WorkerFinishes(w, s, result) =>
      if w in r.live && r.live[w].phase == Working then Finished(r, w, s, result) else r
    case WorkerLeaves(w) => if w in r.live && r.live[w].phase == Done then Left(r, w) else r
  }

  function Begun(r: Runner, w: nat): Runner
    requires w in r.live
  {
    var o := r.live[w].op;
    var b := if o in r.b.records && r.b.records[o].status == UNKNOWN then Reopen(r.b, o) else MarkRunning(r.b, o, None);
    if b.Ok? then r.(b := b.value, live := r.live[w := Worker(o, Working)])
    else r.(live := r.live[w := Worker(o, Done)])
  }

  function Finished(r: Runner, w: nat, s: Status, result: Option<string>): Runner
    requires w in r.live
  {
    var f := Finish(r.b, r.live[w].op, s, result);
    if f.Ok? then r.(b := f.value, live := r.live[w := Worker(r.live[w].op, Done)]) else r
  }

  function Left(r: Runner, w: nat): Runner
    requires w in r.live
  {
    var o := r.live[w].op;
    var unknown := o in r.b.records && r.b.records[o].status == UNKNOWN;
    r.(threads := r.threads - {o}, live := r.live - {w}, leases := if unknown then r.leases else r.leases - {o})
  }

  function Run(r: Runner, es: seq<Event>): Runner {
    if es == [] then r else Step(Run(r, es[..|es| - 1]), es[|es| - 1])
  }

  class TaskRunner {
    const journal: OperationJournal
    const session: string
    var operationThreads: map<string, nat>
    var operationLeases: map<string, LeaseData>
    ghost var live: map<nat, Worker>
    var nextThread: nat

    ghost function View(): Runner
      reads this, journal
    {
      Runner(journal.View(), session, operationThreads, operationLeases, live, nextThread)
    }

    constructor (session: string)
      ensures View() == Idle(session) && fresh(journal)
    {
      this.session := session;
      journal := new OperationJournal();
      operationThreads, operationLeases, live, nextThread := map[], map[], map[], 0;
    }

    /** The journal entry and the lease snapshot, unless the command is refused. */
    method Note(c: Command, lease: Option<LeaseData>) returns (ok: bool)
      requires RunnerInv(View())
      requires (lease.Some? ==> lease.value.id == c.lease) && (c.kind == OperationKind.ADD ==> lease.Some?)
      requires c.target.session == session
      modifies this, journal
      ensures BookInv(journal.View()) && ok == MaySubmit(old(View()), c, lease)
      ensures View() == if ok then Noted(old(View()), c, lease) else old(View())
    {
      hide WorkersInv;
      hide LeasesInv;
      if c.op in operationLeases { SnapshotHasRecord(journal.records, journal.commands, operationLeases, c.op); }
      var begun := journal.BeginOperation(c);
      if begun.Err? { return false; }
      if c.kind == OperationKind.ADD {
        if c.op in operationLeases && lease != Some(operationLeases[c.op]) { return false; }
        if c.op !in operationLeases { operationLeases := operationLeases[c.op := lease.value]; }
      }
      ok := true;
    }

    /** `startOk` is whether the operating system can start the worker thread. */
    method SubmitOperation(c: Command, lease: Option<LeaseData>, startOk: bool) returns (ok: bool)
      requires RunnerInv(View())
      modifies this, journal
      ensures View() == if MaySubmit(old(View()), c, lease) then SubmitEffect(old(View()), c, lease, startOk)
              else old(View())
      ensures ok == (MaySubmit(old(View()), c, lease) && (Launches(old(View()), c) ==> startOk))
    {
      if lease.Some? && lease.value.id != c.lease { return false; }
      if c.kind == OperationKind.ADD && lease.None? { return false; }
      if c.target.session != session { return false; }
      var existed := c.op in journal.records;
      var launch := !existed || (journal.records[c.op].status == UNKNOWN && c.op !in operationThreads);
      var noted := Note(c, lease);
      if !noted { return false; }
      if launch { LaunchOperation(c.op, startOk, existed); }
      ok := !launch || startOk;
    }

    method LaunchOperation(o: string, startOk: bool, existed: bool)
      requires BookInv(journal.View())
      modifies this, journal
      ensures View() == if startOk then WithWorker(old(View()), o) else Unlaunched(old(View()), o, existed)
    {
      if startOk {
        operationThreads := operationThreads[o := nextThread];
        live := live[nextThread := Worker(o, Launched)];
        nextThread := nextThread + 1;
      } else {
        operationThreads := operationThreads - {o};
        if !existed {
          operationLeases := operationLeases - {o};
          var _ := journal.FinishOperation(o, LAUNCH_FAILED.status, LAUNCH_FAILED.result);
        }
      }
    }

    /** The first step of `_execute_operation` in thread `w`. */
    method ExecuteBegins(w: nat, o: string)
      requires RunnerInv(View()) && w in live && live[w] == Worker(o, Launched)
      modifies this`live, journal
      ensures View() == Begun(old(View()), w)
    {
      var ok: bool;
      if journal.records[o].status == UNKNOWN {
        ok := journal.ReopenUnknown(o);
      } else {
        ok := journal.MarkRunningOf(o, None);
      }
      live := live[w := Worker(o, if ok then Working else Done)];
    }

    /** An outcome recorded by `_finish`, or UNKNOWN recorded by the exception handler. */
    method ExecuteFinishes(w: nat, o: string, s: Status, result: Option<string>)
      requires RunnerInv(View()) && w in live && live[w] == Worker(o, Working)
      modifies this`live, journal
      ensures View() == Finished(old(View()), w, s, result)
    {
      var ok := journal.FinishOperation(o, s, result);
      if ok { live := live[w := Worker(o, Done)]; }
    }

    /** The `finally` block: forget the thread, and the lease snapshot unless the operation is UNKNOWN. */
    method ExecuteLeaves(w: nat, o: string)
      requires RunnerInv(View()) && w in live && live[w] == Worker(o, Done)
      modifies this
      ensures View() == Left(old(View()), w)
    {
      operationThreads := operationThreads - {o};
      live := live - {w};
      if journal.records[o].status != UNKNOWN { operationLeases := operationLeases - {o}; }
    }
  }

  /** The thread table is exact, and a worker's phase tells the status of its operation. */
  ghost predicate WorkersInv(records: map<string, Record>, threads: map<string, nat>, live: map<nat, Worker>,
                             next: nat)
  {
    && (forall w | w in live :: w < next && live[w].op in threads && threads[live[w].op] == w
                                && live[w].op in records && PhaseFits(live[w].phase, records[live[w].op].status))
    && (forall o | o in threads :: threads[o] in live && live[threads[o]].op == o)
    && (forall o | o in records && !Terminal(records[o].status) :: o in threads)
  }

  predicate PhaseFits(p: Phase, s: Status) {
    match p
    case Launched => s in {ACCEPTED, UNKNOWN}
    case Working => s == RUNNING
    case Done => Terminal(s)
  }

  /** An unresolved ADD has its lease snapshot, and every snapshot is of the lease its command names. */
  ghost predicate LeasesInv(records: map<string, Record>, commands: map<string, Command>,
                            leases: map<string, LeaseData>)
  {
    && (forall o | o in records && o in commands && !Resolved(records[o].status)
        && commands[o].kind == OperationKind.ADD :: o in leases)
    && (forall o | o in leases :: o in records && o in commands && leases[o].id == commands[o].lease)
  }

  ghost predicate RunnerInv(r: Runner) {
    && BookInv(r.b) && WorkersInv(r.b.records, r.threads, r.live, r.next)
    && LeasesInv(r.b.records, r.b.commands, r.leases)
    && (forall o | o in r.b.commands :: r.b.commands[o].target.session == r.session)
  }

  /** A worker moves to another phase as its operation's record changes to match. */
  lemma PhaseMoves(records: map<string, Record>, threads: map<string, nat>, live: map<nat, Worker>, next: nat, w: nat,
                   rec: Record, phase: Phase)
    requires WorkersInv(records, threads, live, next) && w in live && PhaseFits(phase, rec.status)
    ensures WorkersInv(records[live[w].op := rec], threads, live[w := Worker(live[w].op, phase)], next)
  {
  }

  lemma WorkerStarts(records: map<string, Record>, threads: map<string, nat>, live: map<nat, Worker>, next: nat,
                     o: string)
    requires WorkersInv(records, threads, live, next) && o in records && o !in threads
             && records[o].status in {ACCEPTED, UNKNOWN}
    ensures WorkersInv(records, threads[o := next], live[next := Worker(o, Launched)], next + 1)
  {
  }

  lemma FirstWorkerStarts(records: map<string, Record>, threads: map<string, nat>, live: map<nat, Worker>, next: nat,
                          o: string)
    requires WorkersInv(records, threads, live, next) && o !in records && o !in threads
    ensures WorkersInv(records[o := Record(ACCEPTED, None)], threads[o := next], live[next := Worker(o, Launched)],
                       next + 1)
  {
  }

  lemma TerminalWithoutWorker(records: map<string, Record>, threads: map<string, nat>, live: map<nat, Worker>,
                              next: nat, o: string, rec: Record)
    requires WorkersInv(records, threads, live, next) && o !in threads && Terminal(rec.status)
    ensures WorkersInv(records[o := rec], threads, live, next)
  {
  }

  lemma WorkerGoes(records: map<string, Record>, threads: map<string, nat>, live: map<nat, Worker>, next: nat, w: nat)
    requires WorkersInv(records, threads, live, next) && w in live && live[w].phase == Done
    ensures WorkersInv(records, threads - {live[w].op}, live - {w}, next)
  {
  }

  lemma RecordMoves(b: Book, o: string, rec: Record)
    requires BookInv(b) && o in b.records && !Resolved(b.records[o].status) && !Resolved(rec.status)
    ensures BookInv(b.(records := b.records[o := rec]))
  {
  }

  lemma FinishKeepsBook(b: Book, o: string, s: Status, result: Option<string>)
    requires BookInv(b) && Finish(b, o, s, result).Ok?
    ensures BookInv(Finish(b, o, s, result).value)
  {
  }

  lemma BeginKeepsBook(b: Book, c: Command)
    requires BookInv(b) && Begin(b, c).Ok?
    ensures BookInv(Begin(b, c).value)
  {
  }

  lemma SnapshotsKept(records: map<string, Record>, commands: map<string, Command>, leases: map<string, LeaseData>,
                      o: string, rec: Record)
    requires LeasesInv(records, commands, leases) && o in records
             && (Resolved(records[o].status) ==> Resolved(rec.status))
    ensures LeasesInv(records[o := rec], commands, leases)
  {
  }

  lemma SnapshotHasRecord(records: map<string, Record>, commands: map<string, Command>, leases: map<string, LeaseData>,
                          o: string)
    requires LeasesInv(records, commands, leases) && o in leases
    ensures o in records
  {
  }

  lemma WorkerFits(records: map<string, Record>, threads: map<string, nat>, live: map<nat, Worker>, next: nat, w: nat)
    requires WorkersInv(records, threads, live, next) && w in live
    ensures live[w].op in records && PhaseFits(live[w].phase, records[live[w].op].status)
  {
  }

  lemma ThreadsHaveRecords(records: map<string, Record>, threads: map<string, nat>, live: map<nat, Worker>, next: nat,
                           o: string)
    requires WorkersInv(records, threads, live, next) && o in threads
    ensures o in records
  {
    assert threads[o] in live;
  }

  lemma FirstSnapshot(records: map<string, Record>, commands: map<string, Command>, leases: map<string, LeaseData>,
                      c: Command, lease: Option<LeaseData>)
    requires LeasesInv(records, commands, leases) && records.Keys == commands.Keys && c.op !in records
    requires (c.kind == OperationKind.ADD ==> lease.Some?) && (lease.Some? ==> lease.value.id == c.lease)
    ensures c.op !in leases
    ensures LeasesInv(records[c.op := Record(ACCEPTED, None)], commands[c.op := c],
                      if c.kind == OperationKind.ADD then leases[c.op := lease.value] else leases)
    ensures LeasesInv(records[c.op := LAUNCH_FAILED], commands[c.op := c], leases)
  {
  }

  lemma FirstLaunch(r: Runner, c: Command, lease: Option<LeaseData>)
    requires RunnerInv(r) && MaySubmit(r, c, lease) && c.op !in r.b.records
    ensures RunnerInv(WithWorker(Noted(r, c, lease), c.op))
  {
    hide WorkersInv;
    hide LeasesInv;
    BeginKeepsBook(r.b, c);
    FirstSnapshot(r.b.records, r.b.commands, r.leases, c, lease);
    if c.op in r.threads { ThreadsHaveRecords(r.b.records, r.threads, r.live, r.next, c.op); }
    FirstWorkerStarts(r.b.records, r.threads, r.live, r.next, c.op);
  }

  lemma FailedBook(b: Book, c: Command)
    requires BookInv(b) && Begin(b, c).Ok? && c.op !in b.records
    ensures var f := Finish(Begin(b, c).value, c.op, LAUNCH_FAILED.status, LAUNCH_FAILED.result);
      && f.Ok? && BookInv(f.value) && f.value.records == b.records[c.op := LAUNCH_FAILED]
      && f.value.commands == b.commands[c.op := c]
  {
    BeginKeepsBook(b, c);
    FinishKeepsBook(Begin(b, c).value, c.op, LAUNCH_FAILED.status, LAUNCH_FAILED.result);
  }

  /** A first launch that fails leaves a FAILED record and nothing else. */
  lemma FailedLaunch(r: Runner, c: Command, lease: Option<LeaseData>)
    requires RunnerInv(r) && MaySubmit(r, c, lease) && c.op !in r.b.records
    ensures RunnerInv(Unlaunched(Noted(r, c, lease), c.op, false))
    ensures Unlaunched(Noted(r, c, lease), c.op, false).threads == r.threads
            && Unlaunched(Noted(r, c, lease), c.op, false).leases == r.leases
  {
    hide WorkersInv;
    hide LeasesInv;
    FailedBook(r.b, c);
    FirstSnapshot(r.b.records, r.b.commands, r.leases, c, lease);
    if c.op in r.threads { ThreadsHaveRecords(r.b.records, r.threads, r.live, r.next, c.op); }
    TerminalWithoutWorker(r.b.records, r.threads, r.live, r.next, c.op, LAUNCH_FAILED);
    assert r.threads - {c.op} == r.threads;
    assert Noted(r, c, lease).leases - {c.op} == r.leases;
  }

  lemma Replay(r: Runner, c: Command, lease: Option<LeaseData>, startOk: bool)
    requires RunnerInv(r) && MaySubmit(r, c, lease) && c.op in r.b.records
    ensures RunnerInv(SubmitEffect(r, c, lease, startOk))
  {
    if Launches(r, c) {
      if startOk { WorkerStarts(r.b.records, r.threads, r.live, r.next, c.op); }
      assert r.threads - {c.op} == r.threads;
    }
  }

  lemma SubmitKeepsInv(r: Runner, c: Command, lease: Option<LeaseData>, startOk: bool)
    requires RunnerInv(r) && MaySubmit(r, c, lease)
    ensures RunnerInv(SubmitEffect(r, c, lease, startOk))
  {
    if c.op in r.b.records {
      Replay(r, c, lease, startOk);
    } else if startOk {
      FirstLaunch(r, c, lease);
    } else {
      FailedLaunch(r, c, lease);
    }
  }

  lemma BegunKeepsInv(r: Runner, w: nat)
    requires RunnerInv(r) && w in r.live && r.live[w].phase == Launched
    ensures RunnerInv(Begun(r, w))
  {
    hide WorkersInv;
    hide LeasesInv;
    WorkerFits(r.b.records, r.threads, r.live, r.next, w);
    var o := r.live[w].op;
    var rec := if r.b.records[o].status == UNKNOWN then Record(RUNNING, None) else r.b.records[o].(status := RUNNING);
    PhaseMoves(r.b.records, r.threads, r.live, r.next, w, rec, Working);
    RecordMoves(r.b, o, rec);
    SnapshotsKept(r.b.records, r.b.commands, r.leases, o, rec);
  }

  lemma FinishedKeepsInv(r: Runner, w: nat, s: Status, result: Option<string>)
    requires RunnerInv(r) && w in r.live && r.live[w].phase == Working
    ensures RunnerInv(Finished(r, w, s, result))
  {
    hide WorkersInv;
    hide LeasesInv;
    WorkerFits(r.b.records, r.threads, r.live, r.next, w);
    var o := r.live[w].op;
    if Finish(r.b, o, s, result).Ok? {
      PhaseMoves(r.b.records, r.threads, r.live, r.next, w, Record(s, result), Done);
      FinishKeepsBook(r.b, o, s, result);
      SnapshotsKept(r.b.records, r.b.commands, r.leases, o, Record(s, result));
    }
  }

  lemma LeftKeepsInv(r: Runner, w: nat)
    requires RunnerInv(r) && w in r.live && r.live[w].phase == Done
    ensures RunnerInv(Left(r, w))
  {
    WorkerGoes(r.b.records, r.threads, r.live, r.next, w);
  }

  lemma StepKeepsInv(r: Runner, e: Event)
    requires RunnerInv(r)
    ensures RunnerInv(Step(r, e))
  {
    match e
    case Submit(c, lease, startOk) => if MaySubmit(r, c, lease) { SubmitKeepsInv(r, c, lease, startOk); }
    case WorkerBegins(w) => if w in r.live && r.live[w].phase == Launched { BegunKeepsInv(r, w); }
    case WorkerFinishes(w, s, result) =>
      if w in r.live && r.live[w].phase == Working { FinishedKeepsInv(r, w, s, result); }
    case WorkerLeaves(w) => if w in r.live && r.live[w].phase == Done { LeftKeepsInv(r, w); }
  }

  lemma {:induction false} RunKeepsInv(r: Runner, es: seq<Event>)
    requires RunnerInv(r)
    ensures RunnerInv(Run(r, es))
  {
    if es != [] {
      RunKeepsInv(r, es[..|es| - 1]);
      StepKeepsInv(Run(r, es[..|es| - 1]), es[|es| - 1]);
    }
  }

  /**
   * In every interleaving of submissions, worker steps and launch failures: at most one operation of the task is
   * unresolved, an operation has at most one live worker, and an unresolved ADD still has the snapshot of its lease.
   */
  lemma {:induction false} OneUnresolvedOneWorker(session: string, es: seq<Event>)
    ensures var r := Run(Idle(session), es);
      && (forall o, p | o in r.b.records && p in r.b.records && !Resolved(r.b.records[o].status)
          && !Resolved(r.b.records[p].status) :: o == p)
      && (forall v, w | v in r.live && w in r.live && r.live[v].op == r.live[w].op :: v == w)
      && (forall o | o in r.b.records && o in r.b.commands && !Resolved(r.b.records[o].status)
          && r.b.commands[o].kind == OperationKind.ADD ::
            o in r.leases && r.leases[o].id == r.b.commands[o].lease)
  {
    RunKeepsInv(Idle(session), es);
  }

  ghost predicate Settled(b: Book, o: string) {
    o in b.records && Resolved(b.records[o].status) && o in b.commands
  }

  ghost predicate SameEntry(b: Book, b': Book, o: string)
    requires Settled(b, o)
  {
    Settled(b', o) && b'.records[o] == b.records[o] && b'.commands[o] == b.commands[o]
  }

  lemma SubmitKeepsSettled(r: Runner, c: Command, lease: Option<LeaseData>, startOk: bool, o: string)
    requires MaySubmit(r, c, lease) && Settled(r.b, o)
    ensures SameEntry(r.b, SubmitEffect(r, c, lease, startOk).b, o)
  {
  }

  lemma StepKeepsSettled(r: Runner, e: Event, o: string)
    requires RunnerInv(r) && Settled(r.b, o)
    ensures SameEntry(r.b, Step(r, e).b, o)
  {
    hide WorkersInv;
    hide LeasesInv;
    match e
    case Submit(c, lease, startOk) => if MaySubmit(r, c, lease) { SubmitKeepsSettled(r, c, lease, startOk, o); }
    case WorkerBegins(w) => if w in r.live { WorkerFits(r.b.records, r.threads, r.live, r.next, w); }
    case WorkerFinishes(w, s, result) => if w in r.live { WorkerFits(r.b.records, r.threads, r.live, r.next, w); }
    case WorkerLeaves(w) =>
  }

  /** A resolved record never changes again. */
  lemma {:induction false} ResolvedIsFinal(r: Runner, es: seq<Event>, o: string)
    requires RunnerInv(r) && Settled(r.b, o)
    ensures SameEntry(r.b, Run(r, es).b, o)
  {
    if es != [] {
      ResolvedIsFinal(r, es[..|es| - 1], o);
      RunKeepsInv(r, es[..|es| - 1]);
      StepKeepsSettled(Run(r, es[..|es| - 1]), es[|es| - 1], o);
    }
  }
}
