/**
 * The sleep, wake and admission stages of one inference server (rollout/http_server.py).  The engine is modelled by
 * the set of its allocations that are asleep; any engine call may fail before or after it took effect.
 */
module HttpServer {
  import opened Contracts

  datatype Allocation = Weights | Kv
  datatype Stage = Awake | Level1 | Level2 | WeightsOnly
  {
    predicate Deep() { Level1? || Level2? }
  }

  /** The engine calls a method makes, in order; a fault names the first one that raises and whether it took effect. */
  datatype Call = Precheck | Query | ResumeKv | ResetKv | Resolve | Barrier | SleepCall | Confirm
                | WakeCall | Requery | Reset | Health
  datatype Fault = NoFault | At(call: Call, after: bool)

  datatype Server = Server(stage: Stage, paused: bool, asleep: set<Allocation>)
  {
    predicate Sleeping() { asleep != {} }
    function Closed(): Server { this.(paused := true) }
  }

  const ALL := {Weights, Kv}
  const WEIGHTS_TAG: Option<seq<Allocation>> := Some([Weights])

  predicate Hits(f: Fault, c: Call) { f.At? && f.call == c }

  /** An engine effect under a possible fault: before the effect, after it, or without one. */
  function Effect(s: Server, f: Fault, c: Call, asleep: set<Allocation>): Server {
    if Hits(f, c) && !f.after then s else s.(asleep := asleep)
  }

  // ---------------------------------------------------------------- sleep

  function DeepSleep(s: Server, level: Stage, f: Fault): (Server, bool) {
    if Hits(f, Resolve) then (s, false)
    else if Hits(f, Barrier) then (s.Closed(), false)
    else
      var n := Effect(s.Closed(), f, SleepCall, ALL);
      if Hits(f, SleepCall) || Hits(f, Confirm) || !n.Sleeping() then (n, false) else (n.(stage := level), true)
  }

  /** `level` is the backend's deepest release: Level2 on GPU, Level1 on NPU. */
  function SleepOutcome(s: Server, level: Stage, f: Fault): (Server, bool) {
    if Hits(f, Precheck) then (s, false)
    else if s.stage.Deep() then
      if Hits(f, Query) || !s.Sleeping() then (s, false) else (s.Closed(), true)
    else if s.stage == Awake then DeepSleep(s, level, f)
    else if Hits(f, Query) then (s.Closed(), false)
    else if !s.Sleeping() then DeepSleep(s.Closed(), level, f)
    else
      var n := Effect(s.Closed(), f, ResumeKv, s.asleep - {Kv});
      if Hits(f, ResumeKv) || Hits(f, ResetKv) || n.Sleeping() then (n, false) else DeepSleep(n, level, f)
  }

  // ---------------------------------------------------------------- wake

  function Woken(asleep: set<Allocation>, tags: Option<seq<Allocation>>): set<Allocation> {
    if tags.None? then {} else asleep - Elements(tags.value)
  }

  /** The last part of wake_up: only a fully resident, healthy engine reopens admission. */
  function Reopen(s: Server, tags: Option<seq<Allocation>>, kvReset: bool, f: Fault): (Server, bool) {
    if Hits(f, Requery) || (tags == WEIGHTS_TAG && !s.Sleeping()) then (s, false)
    else if s.Sleeping() then (if tags == WEIGHTS_TAG then s.(stage := WeightsOnly) else s, true)
    else if (!kvReset && Hits(f, Reset)) || Hits(f, Health) then (s, false)
    else (s.(stage := Awake, paused := false), true)
  }

  function WakeOutcome(s: Server, tags: Option<seq<Allocation>>, f: Fault): (Server, bool) {
    var c := s.Closed();
    if Hits(f, Precheck) then (s, false)
    else if Hits(f, Query) then (c, false)
    else if tags == WEIGHTS_TAG && s.stage == WeightsOnly then (c, s.Sleeping())
    else if tags.None? && (s.stage.Deep() || (s.stage == WeightsOnly && s.Sleeping())) then (c, false)
    else if !s.Sleeping() then
      if tags.Some? || s.stage.Deep() then (c, false)
      else Reopen(c, tags, s.stage == WeightsOnly, f)
    else
      var n := Effect(c, f, WakeCall, Woken(s.asleep, tags));
      if Hits(f, WakeCall) then (n, false) else Reopen(n, tags, false, f)
  }

  /** The checkpoint engine's own KV resume, inherited from the native parent: admission is not touched. */
  function ResumeKvCache(s: Server, f: Fault): Server {
    Effect(s, f, ResumeKv, s.asleep - {Kv})
  }

  // ---------------------------------------------------------------- runs

  datatype Event = ESleep(level: Stage, f: Fault) | EWake(tags: Option<seq<Allocation>>, f: Fault) | EResumeKv(f: Fault)

  predicate Admissible(e: Event) {
    e.ESleep? ==> e.level.Deep()
  }

  function Step(s: Server, e: Event): Server {
    match e
    case ESleep(level, f) => SleepOutcome(s, level, f).0
    case EWake(tags, f) => WakeOutcome(s, tags, f).0
    case EResumeKv(f) => ResumeKvCache(s, f)
  }

  function Run(s: Server, es: seq<Event>): Server {
    if es == [] then s else Step(Run(s, es[..|es| - 1]), es[|es| - 1])
  }

  const START := Server(Awake, false, {})

  /** Admission is open only over a fully resident engine, and never in a confirmed deep sleep. */
  predicate Inv(s: Server) {
    (!s.paused ==> s.asleep == {} && s.stage == Awake)
  }

  lemma StepKeeps(s: Server, e: Event)
    requires Inv(s) && Admissible(e)
    ensures Inv(Step(s, e))
  {
  }

  lemma {:induction false} RunKeeps(s: Server, es: seq<Event>)
    requires Inv(s) && forall e | e in es :: Admissible(e)
    ensures Inv(Run(s, es))
  {
    if es != [] {
      var last := es[|es| - 1];
      assert last in es;
      RunKeeps(s, es[..|es| - 1]);
      StepKeeps(Run(s, es[..|es| - 1]), last);
    }
  }

  /** Admission implies residency, in every run of sleep, wake_up and KV resume with failures at every engine call. */
  lemma {:induction false} AdmissionImpliesResidency(es: seq<Event>)
    requires forall e | e in es :: Admissible(e)
    ensures var s := Run(START, es); !s.paused ==> s.asleep == {}
  {
    RunKeeps(START, es);
  }

  /** The one way past the weights stage: a tagged wake, other than weights-only, that names everything still asleep. */
  predicate Bypasses(s: Server, e: Event) {
    && e.EWake? && e.tags.Some? && e.tags != WEIGHTS_TAG && s.Sleeping() && s.asleep <= Elements(e.tags.value)
    && !(e.f.At? && e.f.call in {Precheck, Query, WakeCall, Requery, Reset, Health})
  }

  /** From a confirmed deep sleep a call reopens admission if and only if it bypasses the weights stage. */
  lemma ReopensOnlyByBypass(s: Server, e: Event)
    requires Inv(s) && s.stage.Deep() && Admissible(e)
    ensures !Step(s, e).paused <==> Bypasses(s, e)
  {
    if e.EWake? && e.tags.Some? {
      var named := Elements(e.tags.value);
      if s.asleep - named == {} {
        forall a | a in s.asleep ensures a in named { assert a !in s.asleep - named; }
      }
    }
  }

  /** The tags the control plane uses. */
  predicate Staged(e: Event) {
    e.EWake? ==> e.tags.None? || e.tags == WEIGHTS_TAG
  }

  lemma StagedNeverBypasses(s: Server, e: Event)
    requires Inv(s) && s.stage.Deep() && Admissible(e) && Staged(e)
    ensures var n := Step(s, e); n.paused && (n.stage.Deep() || n.stage == WeightsOnly)
  {
  }

  /**
   * With those tags, admission that is open after a confirmed deep sleep was reopened by way of the weights stage:
   * some state in between is at that stage.
   */
  lemma {:induction false} ReopensThroughWeights(s: Server, es: seq<Event>)
    requires Inv(s) && s.stage.Deep() && forall e | e in es :: Admissible(e) && Staged(e)
    ensures !Run(s, es).paused ==> exists i :: 0 < i < |es| && Run(s, es[..i]).stage == WeightsOnly
  {
    StaysDeep(s, es);
    RunKeeps(s, es);
    assert es[..|es|] == es;
  }

  lemma {:induction false} StaysDeep(s: Server, es: seq<Event>)
    requires Inv(s) && s.stage.Deep() && forall e | e in es :: Admissible(e) && Staged(e)
    ensures || (Run(s, es).stage.Deep() && Run(s, es).paused)
            || (exists i :: 0 < i <= |es| && Run(s, es[..i]).stage == WeightsOnly)
  {
    if es != [] {
      var n := |es| - 1;
      assert es[n] in es && es[..|es|] == es;
      StaysDeep(s, es[..n]);
      RunKeeps(s, es[..n]);
      if Run(s, es[..n]).stage.Deep() {
        StagedNeverBypasses(Run(s, es[..n]), es[n]);
        if !Run(s, es).stage.Deep() { assert Run(s, es[..|es|]).stage == WeightsOnly; }
      } else {
        var i :| 0 < i <= n && Run(s, es[..n][..i]).stage == WeightsOnly;
        assert es[..n][..i] == es[..i];
      }
    }
  }

  /** The tags matter: waking weights and KV in one call reopens straight from level 2. */
  lemma BothTagsBypass()
    ensures var s := Step(START, ESleep(Level2, NoFault));
      var n := Step(s, EWake(Some([Weights, Kv]), NoFault));
      s.stage == Level2 && s.paused && !n.paused
  {
    var s := Step(START, ESleep(Level2, NoFault));
    assert Elements([Weights, Kv]) == ALL;
  }

  /** So does a KV wake after a weights wake whose reply was lost, although neither call names everything. */
  lemma LostReplyBypasses()
    ensures var s := Step(START, ESleep(Level2, NoFault));
      var h := Step(s, EWake(WEIGHTS_TAG, At(WakeCall, true)));
      var n := Step(h, EWake(Some([Kv]), NoFault));
      h.stage == Level2 && h.paused && !n.paused
  {
    assert Elements([Weights]) == {Weights} && Elements([Kv]) == {Kv};
    var s := Step(START, ESleep(Level2, NoFault));
    assert s.asleep == ALL && ALL - {Weights} == {Kv};
  }

  // ---------------------------------------------------------------- the actor

  class MultiTaskvLLMHttpServer {
    var stage: Stage
    var submissionPaused: bool
    var resumeSet: bool
    var asleep: set<Allocation>

    /** The pause flag and the resume event always say the same. */
    ghost predicate Valid()
      reads this
    {
      resumeSet == !submissionPaused
    }

    ghost function View(): Server
      reads this
    {
      Server(stage, submissionPaused, asleep)
    }

    constructor ()
      ensures Valid() && View() == START
    {
      stage, submissionPaused, resumeSet, asleep := Awake, false, true, {};
    }

    method Close()
      modifies this`submissionPaused, this`resumeSet
      ensures Valid() && View() == old(View()).Closed()
    {
      submissionPaused, resumeSet := true, false;
    }

    /** One engine call that changes the sleeping allocations. */
    method Engine(to: set<Allocation>, f: Fault, c: Call) returns (ok: bool)
      modifies this`asleep
      ensures View() == Effect(old(View()), f, c, to) && ok == !Hits(f, c)
    {
      if Hits(f, c) && !f.after { return false; }
      asleep := to;
      ok := !Hits(f, c);
    }

    method SleepNow(level: Stage, f: Fault) returns (ok: bool)
      requires Valid()
      modifies this
      ensures Valid() && (View(), ok) == DeepSleep(old(View()), level, f)
    {
      if Hits(f, Resolve) { return false; }
      Close();
      if Hits(f, Barrier) { return false; }
      ok := Engine(ALL, f, SleepCall);
      if !ok { return; }
      if Hits(f, Confirm) || asleep == {} { return false; }
      stage := level;
      ok := true;
    }

    method Sleep(level: Stage, f: Fault) returns (ok: bool)
      requires Valid()
      modifies this
      ensures Valid() && (View(), ok) == SleepOutcome(old(View()), level, f)
    {
      if Hits(f, Precheck) { return false; }
      if stage == Level1 || stage == Level2 {
        if Hits(f, Query) || asleep == {} { return false; }
        Close();
        return true;
      }
      if stage == WeightsOnly {
        Close();
        if Hits(f, Query) { return false; }
        if asleep != {} {
          ok := Engine(asleep - {Kv}, f, ResumeKv);
          if !ok || Hits(f, ResetKv) || asleep != {} { return false; }
        }
      }
      ok := SleepNow(level, f);
    }

    method WakeUp(tags: Option<seq<Allocation>>, f: Fault) returns (ok: bool)
      requires Valid()
      modifies this
      ensures Valid() && (View(), ok) == WakeOutcome(old(View()), tags, f)
    {
      if Hits(f, Precheck) { return false; }
      Close();
      if Hits(f, Query) { return false; }
      var sleepingBefore := asleep != {};
      var kvAlreadyReset := tags.None? && stage == WeightsOnly && !sleepingBefore;
      if tags == WEIGHTS_TAG && stage == WeightsOnly { return sleepingBefore; }
      if tags.None? && (stage == Level1 || stage == Level2) { return false; }
      if tags.None? && stage == WeightsOnly && sleepingBefore { return false; }
      if !sleepingBefore {
        if tags.Some? || stage == Level1 || stage == Level2 { return false; }
      } else {
        ok := Engine(Woken(asleep, tags), f, WakeCall);
        if !ok { return; }
      }
      if Hits(f, Requery) || (tags == WEIGHTS_TAG && asleep == {}) { return false; }
      if asleep != {} {
        if tags == WEIGHTS_TAG { stage := WeightsOnly; }
        return true;
      }
      if (!kvAlreadyReset && Hits(f, Reset)) || Hits(f, Health) { return false; }
      stage, submissionPaused, resumeSet := Awake, false, true;
      ok := true;
    }
  }
}
