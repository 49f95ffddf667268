/**
 * What redelivered completion events do to a workflow that waits for approval, in both flows, and
 * that runs lead to such gates.
 */
module WaitingGate {
  import opened Sequences
  import opened Workflow
  import opened Finalizer
  import opened Orchestration
  import opened FixedFlow
  import opened ExactlyOnce
  import opened HumanGate
  import opened DynamicFlow

  ghost predicate Gate(plan: Plan, w: World) { FixedGate(plan, w) || DynamicGate(w) }

  ghost predicate OnlyCompletions(es: seq<Event>) { forall i :: 0 <= i < |es| ==> es[i].Complete? }

  /** What one completion does at a gate. */
  datatype Effect = Untouched | Stays | Breaks | Closes

  /**
   * A report stores the snapshot again. In fixed flow the completion of any other agent with output
   * finalizes; in dynamic flow its next agents are held back, and only a pending pause is carried out.
   * An attempt that Postgres refuses is made once more by the exception path, which finalizes.
   */
  function EffectOf(r: WorkflowState, memory: Memory, a: Agent, env: Env): Effect {
    if a !in memory then Untouched
    else if a == Reporting then (if env.dbOk then Stays else if env.retryOk then Closes else Breaks)
    else if r.flow == Fixed then (if env.dbOk || env.retryOk then Closes else Breaks)
    else if r.context.pendingPause.Some? then Stays
    else Untouched
  }

  /** w' is w with another status and other marks: same gate, memory, log and approver. */
  ghost predicate SameGate(plan: Plan, w: World, w': World) {
    && Gate(plan, w') && w'.memory == w.memory && w'.log == w.log
    && w'.record.flow == w.record.flow && w'.record.approvedBy == w.record.approvedBy && w'.record.name == w.record.name
    && w'.record.context.pendingPause == w.record.context.pendingPause
  }

  /** Completed with its memory stored and cleared, nothing dispatched, and nobody having approved it since. */
  ghost predicate Lost(w: World, w': World) {
    && w'.record.status == Completed && w'.memory == map[] && w'.row == StoredRow(w.record.name, w.memory)
    && w'.log == w.log && w'.record.approvedBy == w.record.approvedBy
  }

  ghost predicate Happens(plan: Plan, w: World, effect: Effect, w': World) {
    match effect
    case Untouched => SameGate(plan, w, w') && w'.record.status == w.record.status
    case Stays => SameGate(plan, w, w') && w'.record.status == Paused
    case Breaks => SameGate(plan, w, w') && w'.record.status == Failed
    case Closes => Lost(w, w')
  }

  /** A finalization attempt at a gate; a second one follows when the first is refused. */
  lemma AttemptAtGate(plan: Plan, w: World, dbOk: bool)
    requires Gate(plan, w)
    ensures var r := Finalized(w, dbOk);
      r.raised == !dbOk && Happens(plan, w, if dbOk then Closes else Breaks, r.world)
  {
  }

  lemma RetryAtGate(plan: Plan, w: World, retryOk: bool)
    requires Gate(plan, w)
    ensures Happens(plan, w, if retryOk then Closes else Breaks, Recovered(w, HANDLER_ERROR, retryOk))
  {
    AttemptAtGate(plan, w.(record := w.record.Fail(HANDLER_ERROR)), retryOk);
  }

  lemma ReportAtGate(plan: Plan, w: World, a: Agent, s: Surface, env: Env)
    requires Gate(plan, w) && a == Reporting && s.requiresHuman
    ensures var r := Ended(w, a, s, env.dbOk);
      r.raised == !env.dbOk && SameGate(plan, w, r.world) && (env.dbOk ==> r.world.record.status == Paused)
  {
  }

  /** What follows the plan of a completion with output at a gate: its end, or its agents held back. */
  lemma ContinuedAtGate(plan: Plan, w: World, next: seq<Agent>, a: Agent, s: Surface, env: Env)
    requires Gate(plan, w) && a in w.memory && s == w.memory[a].surface && w.record.paused
    requires next == [] <==> a == Reporting || w.record.flow == Fixed
    ensures var r := Continued(w, next, true, a, s, env);
      && (next != [] ==> r == Result(w, false))
      && (next == [] && a == Reporting ==>
            r.raised == !env.dbOk && SameGate(plan, w, r.world) && (env.dbOk ==> r.world.record.status == Paused))
      && (next == [] && a != Reporting ==>
            r.raised == !env.dbOk && Happens(plan, w, if env.dbOk then Closes else Breaks, r.world))
  {
    hide Finalized, Persist;
    if next == [] {
      if a == Reporting { ReportAtGate(plan, w, a, s, env); } else { AttemptAtGate(plan, w, env.dbOk); }
    }
  }

  /** The plan after a completion at a gate: nothing in fixed flow, the routed agents in dynamic flow. */
  lemma PlannedAtGate(plan: Plan, w: World, a: Agent, s: Surface)
    requires Gate(plan, w) && a in w.memory
    ensures var p := PlanNext(plan, Gated(w), w.record.(context := w.record.context.(pendingPause := None)), a, s);
      && !p.raised && p.world == Gated(w) && SameGate(plan, w, Gated(w))
      && (p.next == [] <==> a == Reporting || w.record.flow == Fixed)
  {
  }

  lemma MarkedAtGate(plan: Plan, w: World, a: Agent)
    requires Gate(plan, w)
    ensures var done := w.(record := w.record.WithAgent(a, Done));
      SameGate(plan, w, done) && done.record.status == w.record.status && done.record.name == w.record.name
  {
  }

  lemma HappensAfter(plan: Plan, w: World, mid: World, effect: Effect, w': World)
    requires SameGate(plan, w, mid) && Happens(plan, mid, effect, w')
    requires effect.Untouched? ==> mid.record.status == w.record.status
    ensures Happens(plan, w, effect, w')
  {
  }

  /** One completion at a gate has exactly its effect, whoever it names and whatever Postgres does. */
  lemma {:induction false} HandledAtGate(plan: Plan, w: World, a: Agent, env: Env)
    requires Gate(plan, w)
    ensures Happens(plan, w, EffectOf(w.record, w.memory, a, env), Handled(plan, w, a, env))
  {
    hide Gate, Recovered, Finalized, PlanNext, Continued;
    var done := w.(record := w.record.WithAgent(a, Done));
    MarkedAtGate(plan, w, a);
    if a in done.memory {
      var s := done.memory[a].surface;
      NothingEscalates(plan, done, a, s);
      PlannedAtGate(plan, done, a, s);
      var p := PlanNext(plan, Gated(done), done.record.(context := done.record.context.(pendingPause := None)), a, s);
      ContinuedAtGate(plan, Gated(done), p.next, a, s, env);
      var r := Continued(Gated(done), p.next, true, a, s, env);
      if r.raised { RetryAtGate(plan, r.world, env.retryOk); }
    }
  }

  /** At a gate no completion takes a fixed workflow off its plan or fails it for an unfinished scan. */
  lemma NothingEscalates(plan: Plan, w: World, a: Agent, s: Surface)
    requires Gate(plan, w) && a in w.memory
    ensures Escalated(w, s) == w && w.record.paused
    ensures w.record.FollowsPlan() && ScrRequired(w.record.name) && a == Scr ==> w.memory[Scr].scan == ScanCompleted
  {
  }

  // ---------------------------------------------------------------- any number of completions

  function EffectAt(w: World, e: Event): Effect
    requires e.Complete?
  {
    EffectOf(w.record, w.memory, e.agent, e.env)
  }

  /** Some completion of es closes the gate w. */
  ghost predicate SomeCloses(w: World, es: seq<Event>)
    requires OnlyCompletions(es)
  {
    exists i :: 0 <= i < |es| && EffectAt(w, es[i]).Closes?
  }

  /** The status the last completion with an effect leaves. */
  function LastStatus(w: World, es: seq<Event>): WorkflowStatus
    requires OnlyCompletions(es)
  {
    if es == [] then w.record.status
    else match EffectAt(w, es[|es| - 1])
      case Untouched => LastStatus(w, es[..|es| - 1])
      case Stays => Paused
      case Breaks => Failed
      case Closes => Completed
  }

  lemma {:induction false} EventAtGate(plan: Plan, w: World, e: Event)
    requires Gate(plan, w) && e.Complete?
    ensures Happens(plan, w, EffectAt(w, e), Apply(plan, w, e))
  {
    hide Gate, Handled;
    var w0 := if e.first then w.(inbox := RemoveFirst(w.inbox, e.agent)) else w;
    SameInbox(plan, w, w0.inbox);
    HandledAtGate(plan, w0, e.agent, e.env);
    HappensAfter(plan, w, w0, EffectAt(w, e), Handled(plan, w0, e.agent, e.env));
  }

  lemma SameInbox(plan: Plan, w: World, inbox: seq<Agent>)
    requires Gate(plan, w)
    ensures SameGate(plan, w, w.(inbox := inbox))
  {
  }

  lemma LostStaysLost(plan: Plan, w: World, v: World, e: Event)
    requires Lost(w, v) && e.Complete?
    ensures Lost(w, Apply(plan, v, e))
  {
  }

  ghost predicate GateAfter(plan: Plan, w: World, es: seq<Event>, w': World)
    requires OnlyCompletions(es)
  {
    if SomeCloses(w, es) then Lost(w, w') else SameGate(plan, w, w') && w'.record.status == LastStatus(w, es)
  }

  lemma {:induction false} OneMore(plan: Plan, w: World, es: seq<Event>, v: World)
    requires OnlyCompletions(es) && es != [] && GateAfter(plan, w, es[..|es| - 1], v)
    ensures GateAfter(plan, w, es, Apply(plan, v, es[|es| - 1]))
  {
    hide Gate, Apply;
    var before, e := es[..|es| - 1], es[|es| - 1];
    assert es == before + [e];
    if SomeCloses(w, before) {
      var i :| 0 <= i < |before| && EffectAt(w, before[i]).Closes?;
      assert EffectAt(w, es[i]).Closes?;
      LostStaysLost(plan, w, v, e);
    } else {
      EventAtGate(plan, v, e);
      assert EffectAt(v, e) == EffectAt(w, e);
      forall i | 0 <= i < |before| ensures !EffectAt(w, es[i]).Closes? { assert before[i] == es[i]; }
      if EffectAt(w, e).Closes? { assert EffectAt(w, es[|es| - 1]).Closes?; }
    }
  }

  /**
   * Over any completions, first deliveries or duplicates, whatever Postgres does: the workflow is
   * completed, unapproved and with its memory cleared, if and only if one of them closes the gate;
   * otherwise the gate and its memory are as they were, with the status the last one left. Nothing is
   * dispatched either way.
   */
  lemma {:induction false} GateRuns(plan: Plan, w: World, es: seq<Event>)
    requires Gate(plan, w) && OnlyCompletions(es)
    ensures GateAfter(plan, w, es, Exec(plan, w, es))
  {
    hide Gate, Apply, LastStatus;
    if es == [] {
      NoEventsAtGate(plan, w);
    } else {
      var before := es[..|es| - 1];
      assert forall i :: 0 <= i < |before| ==> before[i] == es[i];
      GateRuns(plan, w, before);
      OneMore(plan, w, es, Exec(plan, w, before));
    }
  }

  lemma NoEventsAtGate(plan: Plan, w: World)
    requires Gate(plan, w)
    ensures GateAfter(plan, w, [], w)
  {
  }

  /** The gate waits after every one of the completions of es. */
  ghost predicate WaitsThroughout(plan: Plan, w: World, es: seq<Event>) {
    forall k :: 0 <= k <= |es| ==> Exec(plan, w, es[..k]).record.status == Paused
  }

  ghost predicate AllHarmless(w: World, es: seq<Event>)
    requires OnlyCompletions(es)
  {
    forall i :: 0 <= i < |es| ==> EffectAt(w, es[i]) in {Untouched, Stays}
  }

  lemma {:induction false} HarmlessKeepsPaused(w: World, es: seq<Event>)
    requires OnlyCompletions(es) && w.record.status == Paused && AllHarmless(w, es)
    ensures LastStatus(w, es) == Paused && !SomeCloses(w, es)
  {
    if es != [] {
      var before := es[..|es| - 1];
      assert forall i :: 0 <= i < |before| ==> before[i] == es[i];
      HarmlessKeepsPaused(w, before);
    }
  }

  lemma PrefixHarmless(w: World, es: seq<Event>, k: nat)
    requires k <= |es| && OnlyCompletions(es)
    ensures OnlyCompletions(es[..k]) && (AllHarmless(w, es) ==> AllHarmless(w, es[..k]))
  {
    assert forall i :: 0 <= i < k ==> es[..k][i] == es[i];
  }

  lemma HarmBreaks(w: World, es: seq<Event>)
    requires OnlyCompletions(es) && es != [] && EffectAt(w, es[|es| - 1]) !in {Untouched, Stays}
    ensures LastStatus(w, es) != Paused
  {
  }

  /** A gate waits throughout if and only if no completion closes it or breaks on Postgres. */
  lemma WaitsExactlyWhenHarmless(plan: Plan, w: World, es: seq<Event>)
    requires Gate(plan, w) && w.record.status == Paused && OnlyCompletions(es)
    ensures WaitsThroughout(plan, w, es) <==> AllHarmless(w, es)
  {
    hide Gate, Exec, LastStatus, EffectOf;
    forall k | 0 <= k <= |es| ensures AllHarmless(w, es) ==> Exec(plan, w, es[..k]).record.status == Paused {
      PrefixHarmless(w, es, k);
      GateRuns(plan, w, es[..k]);
      if AllHarmless(w, es) { HarmlessKeepsPaused(w, es[..k]); }
    }
    forall i | 0 <= i < |es| && EffectAt(w, es[i]) !in {Untouched, Stays} ensures !WaitsThroughout(plan, w, es) {
      PrefixHarmless(w, es, i + 1);
      assert es[..i + 1][i] == es[i];
      GateRuns(plan, w, es[..i + 1]);
      HarmBreaks(w, es[..i + 1]);
    }
  }

  /**
   * The dynamic gate: it waits throughout if and only if Postgres takes the upsert of every delivered
   * report completion, and it ends COMPLETED without approval if and only if some report completion
   * meets a refused upsert and then a finalization that succeeds.
   */
  lemma {:induction false} DynamicGateHolds(plan: Plan, w: World, es: seq<Event>)
    requires GateWaits(w) && OnlyCompletions(es)
    ensures WaitsThroughout(plan, w, es) <==> forall i :: 0 <= i < |es| && es[i].agent == Reporting ==> es[i].env.dbOk
    ensures Lost(w, Exec(plan, w, es)) <==>
      exists i :: 0 <= i < |es| && es[i].agent == Reporting && !es[i].env.dbOk && es[i].env.retryOk
    ensures !Lost(w, Exec(plan, w, es)) ==> SameGate(plan, w, Exec(plan, w, es))
  {
    hide Exec, WaitsThroughout, LastStatus;
    assert Gate(plan, w);
    WaitsExactlyWhenHarmless(plan, w, es);
    GateRuns(plan, w, es);
    if !SomeCloses(w, es) { GateIsNotLost(plan, w, Exec(plan, w, es)); }
    forall i | 0 <= i < |es|
      ensures EffectAt(w, es[i]) in {Untouched, Stays} <==> (es[i].agent == Reporting ==> es[i].env.dbOk) { }
  }

  lemma GateIsNotLost(plan: Plan, w: World, w': World)
    requires SameGate(plan, w, w')
    ensures !Lost(w, w')
  {
  }

  /**
   * The fixed gate: it waits throughout if and only if every redelivered completion is that of an agent
   * without output, or the report's and Postgres takes its upsert. It ends COMPLETED without approval
   * and with its memory cleared if and only if some other agent's completion meets one successful
   * finalization, or a report completion a refused upsert and then one.
   */
  lemma {:induction false} RedeliveryAtGate(plan: Plan, w: World, es: seq<Event>)
    requires FixedGate(plan, w) && w.record.status == Paused && OnlyCompletions(es)
    ensures WaitsThroughout(plan, w, es) <==> forall i :: 0 <= i < |es| && es[i].agent in w.memory ==>
      es[i].agent == Reporting && es[i].env.dbOk
    ensures Lost(w, Exec(plan, w, es)) <==>
      (exists i :: 0 <= i < |es| && es[i].agent in w.memory
         && if es[i].agent == Reporting then !es[i].env.dbOk && es[i].env.retryOk
            else es[i].env.dbOk || es[i].env.retryOk)
    ensures !Lost(w, Exec(plan, w, es)) ==> SameGate(plan, w, Exec(plan, w, es))
  {
    hide Exec, WaitsThroughout, LastStatus;
    assert Gate(plan, w);
    WaitsExactlyWhenHarmless(plan, w, es);
    GateRuns(plan, w, es);
    if !SomeCloses(w, es) { GateIsNotLost(plan, w, Exec(plan, w, es)); }
    forall i | 0 <= i < |es|
      ensures EffectAt(w, es[i]) in {Untouched, Stays} <==>
        (es[i].agent in w.memory ==> es[i].agent == Reporting && es[i].env.dbOk) { }
  }

  // ---------------------------------------------------------------- runs lead to the gate

  lemma {:induction false} CompletionsApproveNothing(plan: Plan, w: World, es: seq<Event>)
    requires OnlyCompletions(es)
    ensures Exec(plan, w, es).record.approvedBy == w.record.approvedBy
  {
    hide Apply;
    if es != [] {
      var before, e := es[..|es| - 1], es[|es| - 1];
      assert forall i :: 0 <= i < |before| ==> before[i] == es[i];
      CompletionsApproveNothing(plan, w, before);
      ApplyMoves(plan, Exec(plan, w, before), e);
    }
  }

  /** An environment in which CMA and reporting derive their surfaces from the shared memory of w. */
  function Honest(env: Env, w: World): Env {
    var scr, cma := SurfaceIn(w.memory, Scr), SurfaceIn(w.memory, Cma);
    var derived := if scr.Some? then CmaSurface(scr.value) else DEFAULT_OUTPUT.surface;
    env.(outcomes := env.outcomes[Cma := Outcome.Wrote(Output(derived, NoStatus))]
                                 [Reporting := Outcome.Wrote(Output(ReportingSurface(scr, cma, 0), NoStatus))])
  }

  lemma HonestIsFaithful(plan: Plan, name: WorkflowName, env: Env, w: World)
    requires Succeeds(plan, name, env) && ScrRequired(name)
    ensures Succeeds(plan, name, Honest(env, w)) && Faithful(w, Honest(env, w))
  {
    hide Flatten;
    var scr, cma := SurfaceIn(w.memory, Scr), SurfaceIn(w.memory, Cma);
    assert OutputOf(Honest(env, w), Reporting).surface == ReportingSurface(scr, cma, 0);
  }

  lemma LegalScanSnoc(plan: Plan, w0: World, es: seq<Event>, e: Event)
    requires LegalScanRun(plan, w0, es) && e.Complete? && e.first && e.agent in Exec(plan, w0, es).inbox
    requires Succeeds(plan, w0.record.name, e.env) && Faithful(Exec(plan, w0, es), e.env)
    ensures LegalScanRun(plan, w0, es + [e]) && Exec(plan, w0, es + [e]) == Apply(plan, Exec(plan, w0, es), e)
  {
    hide Apply, Faithful, Succeeds;
    assert (es + [e])[..|es + [e]| - 1] == es;
    LegalSnoc(plan, w0, es, e);
  }

  /** The run that brings a scanning plan to its step k. */
  lemma {:induction false} ReachScanStep(plan: Plan, name: WorkflowName, context: Context, env: Env, k: nat)
    returns (es: seq<Event>)
    requires ScanPlan(plan) && ScrRequired(name) && k < |plan|
    requires Succeeds(plan, name, env) && CalmContext(name, context)
    ensures var w0 := Started(plan, Fresh(plan, name, Fixed, context), env);
      && w0.record.name == name && LegalScanRun(plan, w0, es)
      && AtStep(plan, Exec(plan, w0, es), k) && Exec(plan, w0, es).record.name == name
  {
    hide Started, Apply, Exec, Legal, LegalScanRun, Succeeds, Faithful;
    var w0 := Started(plan, Fresh(plan, name, Fixed, context), env);
    if k == 0 {
      es := [];
      NoScanEvents(plan, w0);
      StartReachesStepZero(plan, name, context, env);
      StartedCourse(plan, name, context, env);
    } else {
      var before := ReachScanStep(plan, name, context, env, k - 1);
      var w := Exec(plan, w0, before);
      var e := Complete(plan[k - 1][0], true, Honest(env, w));
      HonestIsFaithful(plan, name, env, w);
      LegalScanSnoc(plan, w0, before, e);
      es := before + [e];
      SerialNext(plan, w, k - 1, e.env);
    }
  }

  lemma NoScanEvents(plan: Plan, w: World)
    ensures LegalScanRun(plan, w, []) && Exec(plan, w, []) == w
  {
  }

  /** Every fixed plan that scans first and reports last has an exactly-once run to the end of its plan. */
  lemma CompleteScanRun(plan: Plan, name: WorkflowName, context: Context, env: Env) returns (es: seq<Event>)
    requires ScanPlan(plan) && ScrRequired(name) && Succeeds(plan, name, env) && CalmContext(name, context)
    ensures var w0 := Started(plan, Fresh(plan, name, Fixed, context), env);
      LegalScanRun(plan, w0, es) && Exec(plan, w0, es).inbox == []
  {
    hide Started, Apply, Exec, Legal, LegalScanRun, Succeeds, Faithful;
    var w0 := Started(plan, Fresh(plan, name, Fixed, context), env);
    var before := ReachScanStep(plan, name, context, env, |plan| - 1);
    var w := Exec(plan, w0, before);
    var e := Complete(Reporting, true, Honest(env, w));
    HonestIsFaithful(plan, name, env, w);
    assert plan[|plan| - 1] == [Reporting];
    LegalScanSnoc(plan, w0, before, e);
    es := before + [e];
    SerialLast(plan, w, |plan| - 1, e.env);
  }

  /** A run that has come to its end and must ask a human stands at a waiting gate, with nobody having approved it. */
  lemma RunEndsAtGate(
    plan: Plan, name: WorkflowName, context: Context, env: Env, es: seq<Event>, scr: Surface)
    requires ScanPlan(plan) && ScrRequired(name) && Succeeds(plan, name, env) && CalmContext(name, context)
    requires OutputOf(env, Scr).surface == scr && FromScan(scr) && AsksHuman(scr, Cma in Flatten(plan))
    requires LegalScanRun(plan, Started(plan, Fresh(plan, name, Fixed, context), env), es)
    ensures var w := Exec(plan, Started(plan, Fresh(plan, name, Fixed, context), env), es);
      w.record.approvedBy == None && (w.inbox == [] ==> FixedGate(plan, w) && w.record.status == Paused)
  {
    hide Started, Exec, Succeeds, FixedGate, Derived;
    var w0 := Started(plan, Fresh(plan, name, Fixed, context), env);
    GateRun(plan, name, context, env, es, scr);
    LegalRunCompletes(plan, w0, es);
    CompletionsApproveNothing(plan, w0, es);
    StartedCourse(plan, name, context, env);
  }

  lemma {:induction false} LegalRunCompletes(plan: Plan, w0: World, es: seq<Event>)
    requires LegalScanRun(plan, w0, es)
    ensures OnlyCompletions(es)
  {
    hide Legal, Exec;
    if es != [] {
      LegalRunCompletes(plan, w0, es[..|es| - 1]);
      assert forall i :: 0 <= i < |es| - 1 ==> es[i] == es[..|es| - 1][i];
    }
  }

  /**
   * The fixed gate can be bypassed: every scanning plan whose scan asks for approval has an exactly-once
   * run to a waiting gate where one redelivered SCR completion completes the workflow, unapproved.
   */
  lemma {:induction false} GateBypassed(
    plan: Plan, name: WorkflowName, context: Context, env: Env, scr: Surface) returns (es: seq<Event>)
    requires ScanPlan(plan) && ScrRequired(name) && Succeeds(plan, name, env) && CalmContext(name, context)
    requires OutputOf(env, Scr).surface == scr && FromScan(scr) && AsksHuman(scr, Cma in Flatten(plan))
    ensures var w0 := Started(plan, Fresh(plan, name, Fixed, context), env); var w := Exec(plan, w0, es);
      && LegalScanRun(plan, w0, es) && FixedGate(plan, w) && w.record.status == Paused
      && var w' := Apply(plan, w, Complete(Scr, false, env));
         w'.record.status == Completed && w'.record.approvedBy == None
  {
    hide Started, Exec, LegalScanRun, Apply;
    var w0 := Started(plan, Fresh(plan, name, Fixed, context), env);
    es := CompleteScanRun(plan, name, context, env);
    RunEndsAtGate(plan, name, context, env, es, scr);
    EventAtGate(plan, Exec(plan, w0, es), Complete(Scr, false, env));
  }
}
