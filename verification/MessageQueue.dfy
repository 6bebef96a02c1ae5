/**
 * The exactly-once completion ledger in front of the native sample queue
 * (integration/verl/experimental_fully_async/message_queue.py).
 */
module MessageQueue {
  import opened Contracts

  /** A completed sample as the queue sees it: its logical id and the digest of its payload. */
  datatype Sample = Sample(id: string, digest: string)

  /** A ledger row; `dropped` is null until the enqueue has been recorded. */
  datatype Row = Row(digest: string, seqno: nat, dropped: Option<bool>)

  datatype Completion = Completion(id: string, digest: string, seqno: nat, dropped: bool)

  /** Why put_sample_once raised. */
  datatype Outcome = Done(evidence: Completion) | Conflict | Unresolved | Failed

  // How each database and queue operation may end; `kept` says whether a failed commit left its write visible.
  datatype Reserve = Reserved | InsertFails | InsertUncommitted(kept: bool)
  datatype Native = Returns | RaisesBefore | RaisesAfter
  datatype Finalise = Finalised | UpdateFails | UpdateUncommitted(kept: bool)
  datatype Faults = Faults(reserve: Reserve, native: Native, finalise: Finalise)

  /**
   * `queue` is the bounded native queue (None is the termination signal); `log` is every sample ever appended to it.
   */
  datatype State = State(rows: map<string, Row>, next: nat, queue: seq<Option<Sample>>, log: seq<Sample>)

  predicate Full(queue: seq<Option<Sample>>, capacity: nat) {
    |queue| >= capacity
  }

  /**
   * The native put: drop the oldest entry of a full queue, then append. An empty queue without room has nothing to
   * drop.
   */
  function NativePut(queue: seq<Option<Sample>>, capacity: nat, x: Option<Sample>): Result<seq<Option<Sample>>> {
    if !Full(queue, capacity) then Ok(queue + [x])
    else if queue == [] then Err
    else Ok(queue[1..] + [x])
  }

  function EvidenceOf(id: string, r: Row): Completion
    requires r.dropped.Some?
  {
    Completion(id, r.digest, r.seqno, r.dropped.value)
  }

  function Reserving(s: State, x: Sample, f: Reserve): State {
    if f == InsertFails || f == InsertUncommitted(false) then s
    else s.(rows := s.rows[x.id := Row(x.digest, s.next, None)], next := if f == Reserved then s.next + 1 else s.next)
  }

  function Recording(s: State, id: string, dropped: bool, f: Finalise): State
    requires id in s.rows
  {
    if f == UpdateFails || f == UpdateUncommitted(false) then s
    else s.(rows := s.rows[id := s.rows[id].(dropped := Some(dropped))])
  }

  /** Behind a committed reservation: the native put, whose effect may precede its failure, and the evidence. */
  function Enqueueing(s: State, capacity: nat, x: Sample, f: Faults): (State, Outcome)
    requires x.id in s.rows
  {
    match NativePut(s.queue, capacity, Some(x))
    case Err => (s, Failed)
    case Ok(q) =>
      if f.native == RaisesBefore then (s, Failed)
      else
        var n := s.(queue := q, log := s.log + [x]);
        if f.native == RaisesAfter then (n, Failed)
        else
          var r := Recording(n, x.id, Full(s.queue, capacity), f.finalise);
          (r, if f.finalise == Finalised then Done(EvidenceOf(x.id, r.rows[x.id])) else Failed)
  }

  /** put_sample_once, under its lock. */
  function Put(s: State, capacity: nat, x: Sample, f: Faults): (State, Outcome) {
    if x.id == "" then (s, Failed)
    else if x.id in s.rows then
      var r := s.rows[x.id];
      (s, if r.dropped.None? then Unresolved else if r.digest != x.digest then Conflict else Done(EvidenceOf(x.id, r)))
    else if f.reserve != Reserved then (Reserving(s, x, f.reserve), Failed)
    else Enqueueing(Reserving(s, x, Reserved), capacity, x, f)
  }

  datatype Event = EPut(sample: Sample, faults: Faults) | ETerminate | EGet

  function Step(s: State, capacity: nat, e: Event): State {
    match e
    case EPut(x, f) => Put(s, capacity, x, f).0
    case ETerminate => (match NativePut(s.queue, capacity, None) case Ok(q) => s.(queue := q) case Err => s)
    case EGet => if s.queue == [] then s else s.(queue := s.queue[1..])
  }

  function Run(s: State, capacity: nat, es: seq<Event>): State {
    if es == [] then s else Step(Run(s, capacity, es[..|es| - 1]), capacity, es[|es| - 1])
  }

  const EMPTY := State(map[], 0, [], [])

  // ---------------------------------------------------------------- invariant

  /** Every appended sample is the one its row was reserved for, and no id was appended twice. */
  ghost predicate Logged(rows: map<string, Row>, log: seq<Sample>) {
    && (forall i | 0 <= i < |log| :: log[i].id in rows && rows[log[i].id].digest == log[i].digest)
    && (forall i, j | 0 <= i < j < |log| :: log[i].id != log[j].id)
    && (forall k | k in rows && rows[k].dropped.Some? :: exists i :: 0 <= i < |log| && log[i].id == k)
  }

  /** Recorded rows have distinct sequence numbers below the counter. */
  ghost predicate Numbered(rows: map<string, Row>, next: nat) {
    && (forall k | k in rows && rows[k].dropped.Some? :: rows[k].seqno < next)
    && (forall k, j | k in rows && j in rows && k != j && rows[k].dropped.Some? && rows[j].dropped.Some? ::
        rows[k].seqno != rows[j].seqno)
  }

  ghost predicate Inv(s: State) {
    Logged(s.rows, s.log) && Numbered(s.rows, s.next)
  }

  lemma ReserveKeeps(s: State, x: Sample, f: Reserve)
    requires Inv(s) && x.id !in s.rows
    ensures Inv(Reserving(s, x, f)) && forall i | 0 <= i < |s.log| :: s.log[i].id != x.id
  {
    var n := Reserving(s, x, f);
    assert forall k | k in n.rows && n.rows[k].dropped.Some? :: k in s.rows;
  }

  lemma AppendKeeps(rows: map<string, Row>, log: seq<Sample>, x: Sample)
    requires Logged(rows, log) && x.id in rows && rows[x.id].digest == x.digest
             && forall i | 0 <= i < |log| :: log[i].id != x.id
    ensures Logged(rows, log + [x])
  {
    forall k | k in rows && rows[k].dropped.Some? ensures exists i :: 0 <= i < |log + [x]| && (log + [x])[i].id == k {
      var i :| 0 <= i < |log| && log[i].id == k;
      assert (log + [x])[i].id == k;
    }
  }

  lemma RecordKeeps(s: State, x: Sample, dropped: bool, f: Finalise)
    requires Inv(s) && x.id in s.rows && s.rows[x.id].seqno + 1 == s.next && s.log != [] && s.log[|s.log| - 1] == x
    requires forall k | k in s.rows && k != x.id && s.rows[k].dropped.Some? :: s.rows[k].seqno < s.rows[x.id].seqno
    ensures Inv(Recording(s, x.id, dropped, f))
  {
    assert s.log[|s.log| - 1].id == x.id;
  }

  lemma EnqueueKeeps(s: State, capacity: nat, x: Sample, f: Faults)
    requires Inv(s) && x.id !in s.rows
    ensures Inv(Enqueueing(Reserving(s, x, Reserved), capacity, x, f).0)
  {
    ReserveKeeps(s, x, Reserved);
    var n := Reserving(s, x, Reserved);
    AppendKeeps(n.rows, n.log, x);
    if NativePut(n.queue, capacity, Some(x)).Ok? {
      var q := NativePut(n.queue, capacity, Some(x)).value;
      RecordKeeps(n.(queue := q, log := n.log + [x]), x, Full(n.queue, capacity), f.finalise);
    }
  }

  lemma StepKeeps(s: State, capacity: nat, e: Event)
    requires Inv(s)
    ensures Inv(Step(s, capacity, e))
  {
    match e
    case EPut(x, f) =>
      if x.id !in s.rows {
        ReserveKeeps(s, x, f.reserve);
        EnqueueKeeps(s, capacity, x, f);
      }
    case ETerminate =>
    case EGet =>
  }

  lemma {:induction false} RunKeeps(s: State, capacity: nat, es: seq<Event>)
    requires Inv(s)
    ensures Inv(Run(s, capacity, es))
  {
    if es != [] {
      RunKeeps(s, capacity, es[..|es| - 1]);
      StepKeeps(Run(s, capacity, es[..|es| - 1]), capacity, es[|es| - 1]);
    }
  }

  // ---------------------------------------------------------------- theorems

  /**
   * Exactly once: over every run with any faults, each logical sample reaches the native queue at most once, with the
   * digest its row was reserved for; a recorded sample did reach it; recorded sequence numbers are distinct and below
   * the counter.
   */
  lemma {:induction false} EnqueuedAtMostOnce(capacity: nat, es: seq<Event>)
    ensures var s := Run(EMPTY, capacity, es);
      && (forall i, j | 0 <= i < j < |s.log| :: s.log[i].id != s.log[j].id)
      && (forall i | 0 <= i < |s.log| :: s.log[i].id in s.rows && s.rows[s.log[i].id].digest == s.log[i].digest)
      && (forall k | k in s.rows && s.rows[k].dropped.Some? ::
          s.rows[k].seqno < s.next && exists x :: x in s.log && x.id == k)
      && (forall k, j | k in s.rows && j in s.rows && k != j && s.rows[k].dropped.Some? && s.rows[j].dropped.Some? ::
            s.rows[k].seqno != s.rows[j].seqno)
  {
    RunKeeps(EMPTY, capacity, es);
    var s := Run(EMPTY, capacity, es);
    forall k | k in s.rows && s.rows[k].dropped.Some? ensures exists x :: x in s.log && x.id == k {
      var i :| 0 <= i < |s.log| && s.log[i].id == k;
      assert s.log[i] in s.log;
    }
  }

  /** A row, once written, keeps its digest and number, and a recorded row never changes at all. */
  ghost predicate Kept(s: State, n: State) {
    && s.next <= n.next
    && (forall k | k in s.rows ::
        k in n.rows && n.rows[k].digest == s.rows[k].digest && n.rows[k].seqno == s.rows[k].seqno)
    && (forall k | k in s.rows :: n.rows[k] == s.rows[k])
    && s.log <= n.log
  }

  lemma StepKeepsRows(s: State, capacity: nat, e: Event)
    ensures Kept(s, Step(s, capacity, e))
  {
  }

  lemma {:induction false} RunKeepsRows(s: State, capacity: nat, es: seq<Event>)
    ensures Kept(s, Run(s, capacity, es))
  {
    if es != [] {
      RunKeepsRows(s, capacity, es[..|es| - 1]);
      StepKeepsRows(Run(s, capacity, es[..|es| - 1]), capacity, es[|es| - 1]);
      hide Step;
    }
  }

  /**
   * Once a sample has been answered, every later equal replay gets the same evidence and changes nothing, whatever
   * faults are around; and a different digest under the same id is a conflict that never reaches the queue.
   */
  lemma {:induction false} AnswersAreFinal(s: State, capacity: nat, x: Sample, f: Faults, es: seq<Event>, g: Faults,
                                           digest: string)
    requires Put(s, capacity, x, f).1.Done? && digest != x.digest
    ensures var after, ev := Put(s, capacity, x, f).0, Put(s, capacity, x, f).1.evidence;
      var later := Run(after, capacity, es);
      && ev.id == x.id && ev.digest == x.digest
      && Put(later, capacity, x, g) == (later, Done(ev))
      && Put(later, capacity, Sample(x.id, digest), g) == (later, Conflict)
  {
    var after := Put(s, capacity, x, f).0;
    AnsweredIsRecorded(s, capacity, x, f);
    RunKeepsRows(after, capacity, es);
  }

  lemma AnsweredIsRecorded(s: State, capacity: nat, x: Sample, f: Faults)
    requires Put(s, capacity, x, f).1.Done?
    ensures var (n, o) := Put(s, capacity, x, f);
      x.id != "" && x.id in n.rows && n.rows[x.id].dropped.Some? && n.rows[x.id].digest == x.digest
        && o.evidence == EvidenceOf(x.id, n.rows[x.id])
  {
  }

  /** An uncertain attempt is never repeated: its id is refused from then on. */
  lemma {:induction false} UncertainIsRefused(s: State, capacity: nat, es: seq<Event>, x: Sample, g: Faults)
    requires x.id != "" && x.id in s.rows && s.rows[x.id].dropped.None?
    ensures var later := Run(s, capacity, es); Put(later, capacity, x, g) == (later, Unresolved)
  {
    RunKeepsRows(s, capacity, es);
  }

  /** All rows, recorded or not, have distinct numbers below the counter. */
  ghost predicate Tight(s: State) {
    && (forall k | k in s.rows :: s.rows[k].seqno < s.next)
    && (forall k, j | k in s.rows && j in s.rows && k != j :: s.rows[k].seqno != s.rows[j].seqno)
  }

  /**
   * Numbers are unique over all rows exactly as long as no reservation is left visible by a failed commit: such a row
   * keeps a number that the counter will hand out again.
   */
  lemma NumbersStayUnique(s: State, capacity: nat, x: Sample, f: Faults)
    requires Tight(s) && x.id != "" && x.id !in s.rows
    ensures Tight(Put(s, capacity, x, f).0) <==> f.reserve != InsertUncommitted(true)
  {
    var n := Put(s, capacity, x, f).0;
    if f.reserve == InsertUncommitted(true) {
      assert n.rows[x.id].seqno == n.next;
    }
  }

  /** ... and the next fresh sample then shares it. */
  lemma NumberIsShared(s: State, capacity: nat, x: Sample, f: Faults, y: Sample, g: Faults)
    requires x.id != "" && x.id !in s.rows && f.reserve == InsertUncommitted(true)
    requires y.id != "" && y.id != x.id && y.id !in s.rows && g.reserve == Reserved
    ensures var n := Put(Put(s, capacity, x, f).0, capacity, y, g).0;
      x.id in n.rows && y.id in n.rows && n.rows[x.id].seqno == n.rows[y.id].seqno
  {
  }

  // ---------------------------------------------------------------- the actor

  class MultiTaskMessageQueue {
    const maxQueueSize: nat
    var completions: map<string, Row>
    var nextCompletionSeq: nat
    var queue: seq<Option<Sample>>
    ghost var log: seq<Sample>

    ghost function View(): State
      reads this
    {
      State(completions, nextCompletionSeq, queue, log)
    }

    constructor (capacity: nat)
      ensures View() == EMPTY && maxQueueSize == capacity
    {
      maxQueueSize := capacity;
      completions, nextCompletionSeq, queue, log := map[], 0, [], [];
    }

    method LookupCompletion(id: string) returns (r: Result<Option<Completion>>)
      ensures r.Err? <==> id in completions && completions[id].dropped.None?
      ensures r.Ok? ==> if id in completions then r.value == Some(EvidenceOf(id, completions[id])) else r.value == None
    {
      if id !in completions { return Ok(None); }
      var row := completions[id];
      if row.dropped.None? { return Err; }
      r := Ok(Some(Completion(id, row.digest, row.seqno, row.dropped.value)));
    }

    /** The native parent's put_sample: false when it had to drop the oldest entry. */
    method NativePutSample(x: Option<Sample>, f: Native) returns (r: Result<bool>)
      modifies this`queue, this`log
      ensures var put := NativePut(old(queue), maxQueueSize, x);
        if put.Err? || f == RaisesBefore then r.Err? && queue == old(queue) && log == old(log)
        else queue == put.value && log == (if x.Some? then old(log) + [x.value] else old(log))
             && r == if f == RaisesAfter then Err else Ok(!Full(old(queue), maxQueueSize))
    {
      if f == RaisesBefore { return Err; }
      var dropped := false;
      if |queue| >= maxQueueSize {
        if queue == [] { return Err; }
        queue := queue[1..];
        dropped := true;
      }
      queue := queue + [x];
      log := if x.Some? then log + [x.value] else log;
      r := if f == RaisesAfter then Err else Ok(!dropped);
    }

    method PutSampleOnce(x: Sample, f: Faults) returns (r: Outcome)
      modifies this
      ensures (View(), r) == Put(old(View()), maxQueueSize, x, f)
    {
      if x.id == "" { return Failed; }
      var existing := LookupCompletion(x.id);
      if existing.Err? { return Unresolved; }
      if existing.value.Some? {
        return if existing.value.value.digest != x.digest then Conflict else Done(existing.value.value);
      }
      var seqno := nextCompletionSeq;
      if f.reserve == InsertFails || f.reserve == InsertUncommitted(false) { return Failed; }
      completions := completions[x.id := Row(x.digest, seqno, None)];
      if f.reserve != Reserved { return Failed; }
      nextCompletionSeq := nextCompletionSeq + 1;
      var put := NativePutSample(Some(x), f.native);
      if put.Err? { return Failed; }
      var dropped := !put.value;
      if f.finalise == UpdateFails || f.finalise == UpdateUncommitted(false) { return Failed; }
      completions := completions[x.id := completions[x.id].(dropped := Some(dropped))];
      if f.finalise != Finalised { return Failed; }
      r := Done(Completion(x.id, x.digest, seqno, dropped));
    }

    /** Termination signals bypass the ledger; a completed sample is true unless it displaced the oldest one. */
    method PutSample(x: Option<Sample>, f: Faults) returns (r: Result<bool>)
      modifies this
      ensures x.Some? ==> var p := Put(old(View()), maxQueueSize, x.value, f);
                View() == p.0 && r == if p.1.Done? then Ok(!p.1.evidence.dropped) else Err
      ensures x.None? ==>
                var put := NativePut(old(queue), maxQueueSize, None);
                View() == (if put.Ok? && f.native != RaisesBefore then old(View()).(queue := put.value)
                           else old(View()))
                && (r.Ok? <==> put.Ok? && f.native == Returns)
    {
      if x.None? {
        r := NativePutSample(None, f.native);
        return;
      }
      var o := PutSampleOnce(x.value, f);
      r := if o.Done? then Ok(!o.evidence.dropped) else Err;
    }
  }
}
