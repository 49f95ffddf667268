/** A scan that asks for approval gates every rule-routed run, along the parallel incident route too. */
module DynamicScan {
  import opened Sequences
  import opened Workflow
  import opened Orchestration
  import opened FixedFlow
  import opened ExactlyOnce
  import opened HumanGate
  import opened DynamicFlow
  import opened WaitingGate

  /** A working exactly-once run whose CMA and reporting surfaces come from the real runners. */
  ghost predicate FaithfulRun(plan: Plan, w: World, es: seq<Event>) {
    es == [] || (
      var es', e := es[..|es| - 1], es[|es| - 1];
      FaithfulRun(plan, w, es') && e.Complete? && Faithful(Exec(plan, w, es'), e.env))
  }

  /** Everything in memory that was derived from the scan, and no way past the gate yet. */
  ghost predicate ScanGates(w: World, scr: Surface) {
    && w.record.status in {InProgress, Paused}
    && Scr in w.memory && w.memory[Scr].surface == scr
    && (Cma in w.memory ==> w.memory[Cma].surface == CmaSurface(scr))
    && (Reporting in w.memory ==> w.memory[Reporting].surface.requiresHuman)
  }

  /** A scan that asks is at least of medium risk, so the table never routes it straight to the report. */
  lemma AskingRoutes(w: WorkflowState, a: Agent, scr: Surface)
    requires w.flow == Dynamic && FromScan(scr) && AsksHuman(scr, true) && !a.Other?
    ensures Reporting in Route(w, a, scr) ==> a == Cma
    ensures Scr !in Route(w, a, scr)
  {
  }

  lemma RoutesLead(w: WorkflowState, a: Agent, s: Surface)
    requires w.flow == Dynamic && !a.Other? && a != Scr
    ensures Reporting in Route(w, a, s) ==> a == Cma
    ensures Scr !in Route(w, a, s)
  {
  }

  /** Running the next agents keeps what was derived, provided a report is only run over CMA's output. */
  lemma RanGates(w: World, w': World, next: seq<Agent>, env: Env, scr: Surface)
    requires Works(env) && (forall b :: b in next ==> !b.Other?) && Ran(w, w', next, env)
    requires ScanGates(w, scr) && FromScan(scr) && AsksHuman(scr, true) && Faithful(w, env)
    requires Scr !in next && (Reporting in next ==> Cma in w.memory)
    ensures ScanGates(w', scr)
  {
    if Cma in next { assert OutputOf(env, Cma) == env.outcomes[Cma].output; }
    if Reporting in next { assert OutputOf(env, Reporting) == env.outcomes[Reporting].output; }
  }

  lemma ContinuedGates(w: World, next: seq<Agent>, a: Agent, s: Surface, env: Env, scr: Surface)
    requires Works(env) && (forall b :: b in next ==> !b.Other?)
    requires ScanGates(w, scr) && FromScan(scr) && AsksHuman(scr, true) && Faithful(w, env)
    requires Scr !in next && (Reporting in next ==> Cma in w.memory)
    requires next == [] ==> a == Reporting && s.requiresHuman
    ensures ScanGates(Continued(w, next, w.record.paused, a, s, env).world, scr)
  {
    if next == [] {
      EndIsOver(w, a, s);
    } else if !w.record.paused {
      hide RunAll;
      RunAllSucceeds(w, next, env);
      RanGates(w, RunAll(w, next, env), next, env, scr);
    }
  }

  lemma EventGates(plan: Plan, w: World, a: Agent, env: Env, scr: Surface)
    requires HeadingToReport(w) && a in w.inbox && Works(env) && Faithful(w, env)
    requires ScanGates(w, scr) && FromScan(scr) && AsksHuman(scr, true)
    ensures ScanGates(Apply(plan, w, Complete(a, true, env)), scr)
  {
    hide Continued, Faithful, Route, Recovered;
    if a in w.memory {
      var v, s := Delivered(w, a), w.memory[a].surface;
      var next := Route(v.record, a, s);
      hide Apply;
      DynamicDelivery(plan, w, a, env);
      RouteIsLighter(v.record, a, s);
      if a == Scr { AskingRoutes(v.record, a, scr); } else { RoutesLead(v.record, a, s); }
      FaithfulKept(w, v, env);
      forall b | b in v.inbox ensures b in w.inbox { RemoveFirstMember(w.inbox, a, b); }
      WorkingContinuation(v, next, a, s, env);
      ContinuedGates(v, next, a, s, env, scr);
    }
  }

  lemma FaithfulKept(w: World, w': World, env: Env)
    requires Faithful(w, env) && w'.memory == w.memory
    ensures Faithful(w', env)
  {
  }

  lemma StartGates(plan: Plan, name: WorkflowName, context: Context, env: Env, scr: Surface)
    requires Works(env) && OutputOf(env, Scr).surface == scr
    ensures ScanGates(Started(plan, Fresh(plan, name, Dynamic, context), env), scr)
  {
    hide RunAll;
    var w := Fresh(plan, name, Dynamic, context);
    RunAllSucceeds(w, [Scr], env);
  }

  /**
   * In every exactly-once dynamic run whose agents work, a scan that asks for approval is never followed
   * by COMPLETED: the workflow is running or paused, and when no event is left it is paused, by a report
   * that asks, and nobody has approved it.
   */
  lemma {:induction false} AskingScanGates(
    plan: Plan, name: WorkflowName, context: Context, env: Env, es: seq<Event>, scr: Surface)
    requires Works(env) && context.pendingPause == None
    requires OutputOf(env, Scr).surface == scr && FromScan(scr) && AsksHuman(scr, true)
    requires WorkingRun(plan, Started(plan, Fresh(plan, name, Dynamic, context), env), es)
    requires FaithfulRun(plan, Started(plan, Fresh(plan, name, Dynamic, context), env), es)
    ensures var w := Exec(plan, Started(plan, Fresh(plan, name, Dynamic, context), env), es);
      ScanGates(w, scr) && w.record.approvedBy == None && (w.inbox == [] ==> GateWaits(w))
  {
    hide Started, Works, Apply, ScanGates, Faithful;
    var w0 := Started(plan, Fresh(plan, name, Dynamic, context), env);
    if es == [] {
      StartGates(plan, name, context, env, scr);
    } else {
      var es', e := es[..|es| - 1], es[|es| - 1];
      WorkingPrefix(plan, w0, es);
      AskingScanGates(plan, name, context, env, es', scr);
      DynamicRunEndsAtReporting(plan, name, context, env, es');
      EventGates(plan, Exec(plan, w0, es'), e.agent, e.env, scr);
    }
    DynamicRunEndsAtReporting(plan, name, context, env, es);
    CompletionsApproveNothing(plan, w0, es);
    StartIsUnapproved(plan, name, context, env);
    GatesAreOpen(Exec(plan, w0, es), scr);
  }

  /**
   * The gate such a run comes to is the one redelivery cannot pass: over any further completions it waits
   * throughout if and only if Postgres takes every upsert a report completion makes, it is completed
   * if and only if some report completion meets a refused upsert and then a finalization that succeeds,
   * and nobody has approved it in either case.
   */
  lemma {:induction false} AskingScanWaits(
    plan: Plan, name: WorkflowName, context: Context, env: Env, es: seq<Event>, scr: Surface, more: seq<Event>)
    requires Works(env) && context.pendingPause == None
    requires OutputOf(env, Scr).surface == scr && FromScan(scr) && AsksHuman(scr, true)
    requires WorkingRun(plan, Started(plan, Fresh(plan, name, Dynamic, context), env), es)
    requires FaithfulRun(plan, Started(plan, Fresh(plan, name, Dynamic, context), env), es)
    requires Exec(plan, Started(plan, Fresh(plan, name, Dynamic, context), env), es).inbox == []
    requires OnlyCompletions(more)
    ensures var w := Exec(plan, Started(plan, Fresh(plan, name, Dynamic, context), env), es);
      var w' := Exec(plan, w, more);
      && (WaitsThroughout(plan, w, more) <==>
            forall i :: 0 <= i < |more| && more[i].agent == Reporting ==> more[i].env.dbOk)
      && (Lost(w, w') <==>
            exists i :: 0 <= i < |more| && more[i].agent == Reporting && !more[i].env.dbOk && more[i].env.retryOk)
      && w'.record.approvedBy == None
  {
    hide Started, Exec, WaitsThroughout, Lost, Works, FaithfulRun, WorkingRun;
    AskingScanGates(plan, name, context, env, es, scr);
    var w := Exec(plan, Started(plan, Fresh(plan, name, Dynamic, context), env), es);
    DynamicGateHolds(plan, w, more);
    CompletionsApproveNothing(plan, w, more);
  }

  lemma StartIsUnapproved(plan: Plan, name: WorkflowName, context: Context, env: Env)
    ensures Started(plan, Fresh(plan, name, Dynamic, context), env).record.approvedBy == None
  {
    hide Dispatched, Recovered;
    var w := Fresh(plan, name, Dynamic, context);
    DispatchedCourse(w, [Scr], env);
    RecoveredCourse(Dispatched(w, [Scr], env).world, HANDLER_ERROR, env.retryOk);
  }

  lemma WorkingPrefix(plan: Plan, w: World, es: seq<Event>)
    requires es != [] && WorkingRun(plan, w, es)
    ensures WorkingRun(plan, w, es[..|es| - 1])
  {
    assert forall i :: 0 <= i < |es| - 1 ==> es[..|es| - 1][i] == es[i];
  }

  lemma GatesAreOpen(w: World, scr: Surface)
    requires ScanGates(w, scr)
    ensures w.record.status != Completed
  {
  }
}
