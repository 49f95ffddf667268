/** Runs that reach a parallel step of a fixed plan and go on from it, whatever its agents' surfaces say. */
module ParallelRun {
  import opened Sequences
  import opened Workflow
  import opened Orchestration
  import opened FixedFlow
  import opened ExactlyOnce
  import opened DynamicFlow
  import opened ParallelStep

  /** A plan of agents the orchestrator has runners for. */
  ghost predicate Runnable(plan: Plan) {
    Regular(plan) && forall i, a :: 0 <= i < |plan| && a in plan[i] ==> !a.Other?
  }

  /** A surface that takes a fixed workflow of this name and context off its plan. */
  predicate Steers(name: WorkflowName, c: Context, s: Surface) {
    && !ScrRequired(name)
    && (s.correlated || s.risk >= 80 || (s.killChain.Some? && s.killChain.value >= 3) || c.ttpsMatched)
  }

  predicate Waiting(r: WorkflowState, a: Agent) { a in r.agents && r.agents[a] != Done }

  /** No agent from step k on is done. */
  ghost predicate AllWait(plan: Plan, r: WorkflowState, k: nat) {
    forall i, a :: k <= i < |plan| && a in plan[i] ==> Waiting(r, a)
  }

  /** Step k runs on the outputs of env, with every agent up to it dispatched once. */
  ghost predicate Reached(plan: Plan, w: World, k: nat, name: WorkflowName, context: Context, env: Env) {
    && StepRuns(plan, w, k) && w.record.name == name && w.record.context == context
    && w.inbox == plan[k] && w.log == Flatten(plan[..k + 1]) && AllWait(plan, w.record, k)
    && (forall a :: a in w.memory ==> !a.Other?)
    && (forall a :: a in plan[k] ==> w.memory[a] == OutputOf(env, a))
  }

  lemma SteersExactly(plan: Plan, w: World, k: nat, s: Surface)
    requires StepRuns(plan, w, k)
    ensures Escalates(w, s) <==> Steers(w.record.name, w.record.context, s)
  {
  }

  /** What running agents that succeed leaves waiting, and the outputs it leaves. */
  lemma RanWaits(plan: Plan, w: World, w': World, agents: seq<Agent>, k: nat, env: Env)
    requires Works(env) && (forall a :: a in agents ==> !a.Other?)
    requires Ran(w, w', agents, env) && AllWait(plan, w.record, k)
    ensures AllWait(plan, w'.record, k)
    ensures forall a :: a in agents ==> w'.memory[a] == OutputOf(env, a)
  {
    forall i, a | k <= i < |plan| && a in plan[i] ensures Waiting(w'.record, a) {
      assert Waiting(w.record, a);
    }
  }

  /** Step k may be dispatched: the steps before it are over, and the scan has completed. */
  ghost predicate Due(plan: Plan, w: World, k: nat) {
    && k < |plan| && w.record.step == k && w.record.FollowsPlan() && !w.record.paused
    && w.record.status == InProgress && w.record.context.pendingPause == None
    && w.inbox == [] && w.log == Flatten(plan[..k]) && AllWait(plan, w.record, k)
    && (k > 0 ==> Scr in w.memory && w.memory[Scr].scan == ScanCompleted)
    && forall a :: a in w.memory ==> !a.Other?
  }

  lemma RanReaches(plan: Plan, w: World, w': World, k: nat, env: Env)
    requires Runnable(plan) && Due(plan, w, k) && Works(env) && Ran(w, w', plan[k], env)
    ensures Reached(plan, w', k, w.record.name, w.record.context, env)
  {
    StepDistinct(plan, k);
    assert k == 0 ==> Scr in plan[k];
    RanWaits(plan, w, w', plan[k], k, env);
    ScanLeft(w, w', plan[k], env);
    assert plan[..k + 1] == plan[..k] + [plan[k]];
    FlattenSnoc(plan[..k], plan[k]);
    assert [] + plan[k] == plan[k];
    hide Flatten, Regular, AllWait, OutputOf, Works;
  }

  /** Dispatching step k over the completed scan. */
  lemma DispatchRuns(plan: Plan, w: World, k: nat, env: Env)
    requires Runnable(plan) && Due(plan, w, k) && Works(env)
    ensures var r := Dispatched(w, plan[k], env);
      !r.raised && Reached(plan, r.world, k, w.record.name, w.record.context, env)
  {
    hide RunAll, FirstRaised, Recovered, Reached, Flatten;
    RunAllSucceeds(w, plan[k], env);
    RanReaches(plan, w, RunAll(w, plan[k], env), k, env);
  }

  lemma ScanLeft(w: World, w': World, agents: seq<Agent>, env: Env)
    requires Works(env) && (forall a :: a in agents ==> !a.Other?) && Ran(w, w', agents, env)
    requires Scr !in agents ==> Scr in w.memory && w.memory[Scr].scan == ScanCompleted
    ensures Scr in w'.memory && w'.memory[Scr].scan == ScanCompleted
  {
  }

  lemma StartRuns(plan: Plan, name: WorkflowName, context: Context, env: Env)
    requires Runnable(plan) && Works(env) && context.pendingPause == None
    ensures Reached(plan, Started(plan, Fresh(plan, name, Fixed, context), env), 0, name, context, env)
  {
    hide Recovered, Reached, Dispatched;
    var w := Fresh(plan, name, Fixed, context);
    forall i, a | 0 <= i < |plan| && a in plan[i] ensures Waiting(w.record, a) { StepAgent(plan, i, a); }
    assert plan[..0] == [];
    DispatchRuns(plan, w, 0, env);
  }

  /** The only agent of a step completes and does not steer: the next step runs, whatever its agents will say. */
  lemma NextStepRuns(plan: Plan, w: World, k: nat, name: WorkflowName, context: Context, env: Env)
    requires Runnable(plan) && Reached(plan, w, k, name, context, env) && Works(env)
    requires |plan[k]| == 1 && k + 1 < |plan| && !Steers(name, context, OutputOf(env, plan[k][0]).surface)
    ensures Reached(plan, Apply(plan, w, Complete(plan[k][0], true, env)), k + 1, name, context, env)
  {
    hide Dispatched, Recovered, ShouldEscalate, Flatten, Steers;
    var a := plan[k][0];
    assert plan[k] == [a];
    var s := w.memory[a].surface;
    SteersExactly(plan, w, k, s);
    var v := Delivered(w, a);
    SameEscalation(w.record, v.record, s);
    assert Escalated(v, s) == v && Gated(v) == v;
    assert v.record.(context := v.record.context.(pendingPause := None)) == v.record;
    var next := v.(record := v.record.(step := k + 1));
    assert StepFinished(plan, v.record);
    assert PlanNext(plan, v, v.record, a, s) == Planned(next, plan[k + 1], false);
    forall i, x | k < i < |plan| && x in plan[i] ensures Waiting(next.record, x) {
      assert Waiting(w.record, x);
      if x == a { StepsDisjoint(plan, k, i, a); }
    }
    DispatchRuns(plan, next, k + 1, env);
  }

  lemma ConsumesSnoc(plan: Plan, w0: World, es: seq<Event>, e: Event)
    requires Consumes(plan, w0, es) && e.Complete? && e.first && e.agent in Exec(plan, w0, es).inbox
    ensures Consumes(plan, w0, es + [e]) && Exec(plan, w0, es + [e]) == Apply(plan, Exec(plan, w0, es), e)
  {
    assert (es + [e])[..|es + [e]| - 1] == es;
  }

  /** Before step k, steps of one agent, none of which steers the workflow off its plan. */
  ghost predicate Unsteered(plan: Plan, k: nat, name: WorkflowName, context: Context, env: Env) {
    k < |plan| && forall i :: 0 <= i < k ==>
      |plan[i]| == 1 && !Steers(name, context, OutputOf(env, plan[i][0]).surface)
  }

  ghost predicate OneEnv(es: seq<Event>, env: Env) {
    forall i :: 0 <= i < |es| ==> es[i].Complete? && es[i].env == env
  }

  /** An exactly-once run that reaches step k. */
  lemma {:induction false} RunReaches(
    plan: Plan, name: WorkflowName, context: Context, env: Env, k: nat) returns (es: seq<Event>)
    requires Runnable(plan) && Works(env) && context.pendingPause == None
    requires Unsteered(plan, k, name, context, env)
    ensures var w0 := Started(plan, Fresh(plan, name, Fixed, context), env);
      Consumes(plan, w0, es) && |es| == k && OneEnv(es, env) && Reached(plan, Exec(plan, w0, es), k, name, context, env)
  {
    hide Started, Apply, StepRuns, Works, Flatten, Steers;
    var w0 := Started(plan, Fresh(plan, name, Fixed, context), env);
    if k == 0 {
      es := [];
      StartRuns(plan, name, context, env);
    } else {
      var before := RunReaches(plan, name, context, env, k - 1);
      var w, e := Exec(plan, w0, before), Complete(plan[k - 1][0], true, env);
      ConsumesSnoc(plan, w0, before, e);
      NextStepRuns(plan, w, k - 1, name, context, env);
      es := before + [e];
    }
  }

  // ---------------------------------------------------------------- an escalating first completion

  /**
   * Where a steering completion leads: past the report the run is over; otherwise the routed agents
   * start, in rule-routed flow, and every other agent keeps its status.
   */
  lemma SteeredStep(plan: Plan, w: World, k: nat, a: Agent, name: WorkflowName, context: Context, env: Env)
    requires Runnable(plan) && Reached(plan, w, k, name, context, env) && Works(env)
    requires a in plan[k] && Steers(name, context, w.memory[a].surface)
    ensures var w' := Apply(plan, w, Complete(a, true, env));
      HeadingToReport(w') && Leads(w, a, Route(w.record.Escalate(), a, w.memory[a].surface), w')
  {
    hide Continued, Route, Recovered, Apply, Flatten, Steers;
    var v, s := Delivered(w, a), w.memory[a].surface;
    var e := v.(record := v.record.Escalate());
    SteersExactly(plan, w, k, s);
    EscalatedDelivery(plan, w, k, a, env);
    RouteIsLighter(e.record, a, s);
    SameRoute(e.record, w.record.Escalate(), a, s);
    RouteEnds(e.record, a, s);
    forall b | b in e.inbox ensures b in w.inbox { RemoveFirstMember(w.inbox, a, b); }
    WorkingContinuation(e, Route(e.record, a, s), a, s, env);
    RoutedOn(w, e, Route(e.record, a, s), a, s, env);
  }

  /** w' is w after a has completed and next was routed to. */
  ghost predicate Leads(w: World, a: Agent, next: seq<Agent>, w': World) {
    && (next == [] <==> a == Reporting)
    && (forall b :: b != a && b !in next && b in w.record.agents ==>
          b in w'.record.agents && w'.record.agents[b] == w.record.agents[b])
    && (next == [] ==> IsOver(w'))
    && (next != [] ==>
          && w'.record.status == InProgress && w'.record.flow == Dynamic && Holding(w'.record, next, Running)
          && w'.inbox == RemoveFirst(w.inbox, a) + next && w'.log == w.log + next)
  }

  lemma RoutedOn(w: World, v: World, next: seq<Agent>, a: Agent, s: Surface, env: Env)
    requires v.log == w.log && v.inbox == RemoveFirst(w.inbox, a) && v.record.agents == w.record.agents[a := Done]
    requires Works(env) && Scr in v.memory && !v.record.paused && v.record.status == InProgress
    requires v.record.flow == Dynamic && (forall b :: b in next ==> !b.Other?) && (next == [] <==> a == Reporting)
    ensures Leads(w, a, next, Continued(v, next, false, a, s, env).world)
  {
    if next == [] {
      EndIsOver(v, a, s);
    } else {
      hide RunAll;
      RunAllSucceeds(v, next, env);
    }
  }

  /** One completion in rule-routed flow. */
  lemma RoutedStep(plan: Plan, w: World, a: Agent, env: Env)
    requires HeadingToReport(w) && w.record.status == InProgress && a in w.inbox && Works(env)
    ensures var w' := Apply(plan, w, Complete(a, true, env));
      HeadingToReport(w') && a in w.memory && !a.Other? && Leads(w, a, Route(w.record, a, w.memory[a].surface), w')
  {
    hide Continued, Route, Recovered, Apply;
    var v, s := Delivered(w, a), w.memory[a].surface;
    DynamicDelivery(plan, w, a, env);
    RouteIsLighter(v.record, a, s);
    SameRoute(v.record, w.record, a, s);
    RouteEnds(v.record, a, s);
    forall b | b in v.inbox ensures b in w.inbox { RemoveFirstMember(w.inbox, a, b); }
    WorkingContinuation(v, Route(v.record, a, s), a, s, env);
    RoutedOn(w, v, Route(v.record, a, s), a, s, env);
  }

  /**
   * In rule-routed flow some exactly-once continuation ends the workflow past an agent that still waits:
   * the chain from a completed agent to the report only passes lighter agents.
   */
  lemma {:induction false} ChainEnds(plan: Plan, w0: World, before: seq<Event>, a: Agent, x: Agent, env: Env)
    returns (es: seq<Event>)
    requires var w := Exec(plan, w0, before);
      && Consumes(plan, w0, before) && HeadingToReport(w) && w.record.status == InProgress && a in w.inbox
      && Waiting(w.record, x)
    requires Works(env) && x != a && Weight(x) >= Weight(a) && OneEnv(before, env)
    ensures Consumes(plan, w0, es) && OneEnv(es, env)
    ensures IsOver(Exec(plan, w0, es)) && Waiting(Exec(plan, w0, es).record, x)
    decreases Weight(a)
  {
    hide Consumes, Exec, Apply, Route, HeadingToReport, Weight, TotalWeight;
    var w, e := Exec(plan, w0, before), Complete(a, true, env);
    ConsumesSnoc(plan, w0, before, e);
    RoutedStep(plan, w, a, env);
    es := before + [e];
    var next := Route(w.record, a, w.memory[a].surface);
    if next != [] {
      RouteIsLighter(w.record, a, w.memory[a].surface);
      FirstIsLighter(next);
      es := ChainEnds(plan, w0, es, next[0], x, env);
    }
  }

  lemma FirstIsLighter(next: seq<Agent>)
    requires next != []
    ensures Weight(next[0]) <= TotalWeight(next)
  {
  }

  /** Every other agent of step k is running. */
  ghost predicate OthersRun(plan: Plan, w: World, k: nat, a: Agent)
    requires k < |plan|
  {
    forall b :: b in plan[k] && b != a ==> b in w.record.agents && w.record.agents[b] == Running
  }

  /**
   * Whatever plan leads to a parallel step without steering: a steering first completion of Web, ASM or
   * CloudSec has CMA dispatched, in rule-routed flow, while every other agent of the step is running.
   */
  lemma {:induction false} EscalatingRun(
    plan: Plan, name: WorkflowName, context: Context, env: Env, k: nat, a: Agent) returns (es: seq<Event>)
    requires Runnable(plan) && Works(env) && context.pendingPause == None && Unsteered(plan, k, name, context, env)
    requires a in plan[k] && a in {Web, Asm, CloudSec} && Cma !in plan[k]
    requires Steers(name, context, OutputOf(env, a).surface)
    ensures var w0 := Started(plan, Fresh(plan, name, Fixed, context), env); var w := Exec(plan, w0, es);
      && Consumes(plan, w0, es) && |es| == k + 1 && w.log == Flatten(plan[..k + 1]) + [Cma]
      && w.record.status == InProgress && w.record.flow == Dynamic && OthersRun(plan, w, k, a)
  {
    hide Started, Apply, Exec, Consumes, Works, Flatten, Steers, HeadingToReport, Route;
    var w0 := Started(plan, Fresh(plan, name, Fixed, context), env);
    var before := RunReaches(plan, name, context, env, k);
    var w, e := Exec(plan, w0, before), Complete(a, true, env);
    ConsumesSnoc(plan, w0, before, e);
    SteeredStep(plan, w, k, a, name, context, env);
    RouteEnds(w.record.Escalate(), a, w.memory[a].surface);
    es := before + [e];
  }

  /** The lighter of two agents of a parallel step, and the other. */
  lemma TwoAgents(agents: seq<Agent>) returns (a: Agent, x: Agent)
    requires Distinct(agents) && |agents| > 1
    ensures a in agents && x in agents && a != x && Weight(x) >= Weight(a)
  {
    if Weight(agents[0]) <= Weight(agents[1]) {
      a, x := agents[0], agents[1];
    } else {
      a, x := agents[1], agents[0];
    }
  }

  ghost predicate EndedEarly(plan: Plan, w: World) { IsOver(w) && !AllDone(plan, w) }

  /** A run on the outputs of env ends the workflow, paused or completed, while an agent of the plan is not done. */
  ghost predicate MayEndEarly(plan: Plan, name: WorkflowName, context: Context, env: Env) {
    exists es :: var w0 := Started(plan, Fresh(plan, name, Fixed, context), env);
      Consumes(plan, w0, es) && OneEnv(es, env) && EndedEarly(plan, Exec(plan, w0, es))
  }

  lemma EndsEarlyBy(
    plan: Plan, name: WorkflowName, context: Context, env: Env, es: seq<Event>, i: nat, x: Agent)
    requires var w0 := Started(plan, Fresh(plan, name, Fixed, context), env); var w := Exec(plan, w0, es);
      Consumes(plan, w0, es) && OneEnv(es, env) && IsOver(w) && i < |plan| && x in plan[i] && Waiting(w.record, x)
    ensures MayEndEarly(plan, name, context, env)
  {
    hide Started, Exec, Consumes;
    var w := Exec(plan, Started(plan, Fresh(plan, name, Fixed, context), env), es);
    assert !Holding(w.record, plan[i], Done);
    assert EndedEarly(plan, w);
  }

  lemma UnsteeredEnds(plan: Plan, w: World, k: nat, a: Agent, name: WorkflowName, context: Context, env: Env)
    requires Reached(plan, w, k, name, context, env) && |plan[k]| > 1 && a in plan[k] && Works(env)
    requires !Steers(name, context, w.memory[a].surface)
    ensures var w' := Apply(plan, w, Complete(a, true, env)); IsOver(w') && OneStillRuns(plan, w', k, a)
  {
    hide Apply, Flatten;
    SteersExactly(plan, w, k, w.memory[a].surface);
    UnescalatedEnds(plan, w, k, a, env);
  }

  /**
   * A plan that reaches a parallel step can end before that step is done, whatever the agents of the step
   * say: without steering at its first completion, with it at the end of the routed chain.
   */
  lemma {:induction false} ParallelEndsEarly(plan: Plan, name: WorkflowName, context: Context, env: Env, k: nat)
    requires Runnable(plan) && Works(env) && context.pendingPause == None && Unsteered(plan, k, name, context, env)
    requires |plan[k]| > 1
    ensures MayEndEarly(plan, name, context, env)
  {
    hide Started, Apply, Exec, Consumes, Works, Flatten, Steers, HeadingToReport, Route, MayEndEarly, Weight;
    var w0 := Started(plan, Fresh(plan, name, Fixed, context), env);
    StepDistinct(plan, k);
    var a, x := TwoAgents(plan[k]);
    var before := RunReaches(plan, name, context, env, k);
    var w, e := Exec(plan, w0, before), Complete(a, true, env);
    ConsumesSnoc(plan, w0, before, e);
    if Steers(name, context, w.memory[a].surface) {
      SteeredEnds(plan, name, context, env, k, k, before, a, x);
    } else {
      UnsteeredEnds(plan, w, k, a, name, context, env);
      var w' := Exec(plan, w0, before + [e]);
      var b :| b in plan[k] && b != a && b in w'.record.agents && w'.record.agents[b] == Running;
      EndsEarlyBy(plan, name, context, env, before + [e], k, b);
    }
  }

  /** A steering completion, and the chain after it, leave an agent that is no lighter than what is routed next. */
  lemma {:induction false} SteeredEnds(plan: Plan, name: WorkflowName, context: Context, env: Env,
      k: nat, i: nat, before: seq<Event>, a: Agent, x: Agent)
    requires var w0 := Started(plan, Fresh(plan, name, Fixed, context), env);
      Consumes(plan, w0, before) && OneEnv(before, env) && Reached(plan, Exec(plan, w0, before), k, name, context, env)
    requires Runnable(plan) && Works(env) && a in plan[k] && Steers(name, context, OutputOf(env, a).surface)
    requires k <= i < |plan| && x in plan[i] && x != a
    requires Weight(x) >= Weight(a) || (a == Scr && x == Asm)
    ensures MayEndEarly(plan, name, context, env)
  {
    hide Started, Apply, Exec, Consumes, Works, Flatten, Steers, HeadingToReport, Route, MayEndEarly, TotalWeight;
    var w0 := Started(plan, Fresh(plan, name, Fixed, context), env);
    var w, e := Exec(plan, w0, before), Complete(a, true, env);
    ConsumesSnoc(plan, w0, before, e);
    SteeredStep(plan, w, k, a, name, context, env);
    var es := before + [e];
    var next := Route(w.record.Escalate(), a, w.memory[a].surface);
    assert Waiting(w.record, x);
    if next != [] {
      RouteIsLighter(w.record.Escalate(), a, w.memory[a].surface);
      FirstIsLighter(next);
      if a == Scr { ScanRoutes(w.record.Escalate(), w.memory[a].surface); }
      es := ChainEnds(plan, w0, es, next[0], x, env);
    }
    EndsEarlyBy(plan, name, context, env, es, i, x);
  }

  lemma ScanRoutes(r: WorkflowState, s: Surface)
    ensures var next := Route(r, Scr, s); next != [] && next[0] in {Web, Cma, Reporting}
  {
  }

  /** Agents that work, of which none that runs alone steers the workflow off its plan. */
  ghost predicate Obliging(plan: Plan, name: WorkflowName, context: Context, env: Env) {
    Works(env) && forall i :: 0 <= i < |plan| && |plan[i]| == 1 ==>
      !Steers(name, context, OutputOf(env, plan[i][0]).surface)
  }

  lemma ObligingSucceeds(plan: Plan, name: WorkflowName, context: Context, env: Env)
    requires Runnable(plan) && Serial(plan) && Obliging(plan, name, context, env)
    ensures Succeeds(plan, name, env)
    ensures ScrRequired(name) || !context.ttpsMatched
  {
    forall a | a in Flatten(plan)
      ensures a in env.outcomes && env.outcomes[a].Wrote? && Calm(name, a, env.outcomes[a].output)
    {
      FlattenMember(plan, a);
      var i :| 0 <= i < |plan| && a in plan[i];
      assert plan[i] == [a];
    }
    assert !Steers(name, context, OutputOf(env, plan[0][0]).surface);
  }

  lemma {:induction false} ObligingIsLegal(
    plan: Plan, name: WorkflowName, context: Context, env: Env, es: seq<Event>)
    requires Runnable(plan) && Serial(plan) && Obliging(plan, name, context, env)
    requires var w0 := Started(plan, Fresh(plan, name, Fixed, context), env); Consumes(plan, w0, es) && OneEnv(es, env)
    ensures Legal(plan, Started(plan, Fresh(plan, name, Fixed, context), env), es)
  {
    hide Started, Exec, Obliging, Succeeds;
    if es != [] {
      ObligingIsLegal(plan, name, context, env, es[..|es| - 1]);
      ObligingSucceeds(plan, name, context, env);
      assert Started(plan, Fresh(plan, name, Fixed, context), env).record.name == name by {
        StartedCourse(plan, name, context, env);
      }
    }
  }

  /**
   * Where no agent that runs alone steers the workflow off its plan, an exactly-once run can end before
   * every agent is done if and only if some step has more than one agent, whatever its agents say: "step
   * still pending" and "no more steps" look the same to the caller.
   */
  lemma {:induction false} EarlyEndExactlyWhenParallel(plan: Plan, name: WorkflowName, context: Context, env: Env)
    requires Runnable(plan) && context.pendingPause == None && Obliging(plan, name, context, env)
    ensures MayEndEarly(plan, name, context, env) <==> !Serial(plan)
  {
    hide Started, Exec, Consumes, Works, Steers, Succeeds, Legal;
    if !Serial(plan) {
      var k := FirstParallel(plan);
      ParallelEndsEarly(plan, name, context, env, k);
    } else if MayEndEarly(plan, name, context, env) {
      var w0 := Started(plan, Fresh(plan, name, Fixed, context), env);
      var es :| Consumes(plan, w0, es) && OneEnv(es, env) && EndedEarly(plan, Exec(plan, w0, es));
      ObligingIsLegal(plan, name, context, env, es);
      ObligingSucceeds(plan, name, context, env);
      SerialRun(plan, name, context, env, es);
      NotEarly(plan, Exec(plan, w0, es));
    }
  }

  lemma NotEarly(plan: Plan, w: World)
    requires OnTrack(plan, w)
    ensures !EndedEarly(plan, w)
  {
  }

  lemma FirstParallel(plan: Plan) returns (k: nat)
    requires Regular(plan) && !Serial(plan)
    ensures k < |plan| && |plan[k]| > 1 && forall i :: 0 <= i < k ==> |plan[i]| == 1
  {
    k := 0;
    while |plan[k]| == 1
      invariant k < |plan| && forall i :: 0 <= i < k ==> |plan[i]| == 1
      decreases |plan| - k
    {
      if k + 1 == |plan| { assert Serial(plan); }
      k := k + 1;
    }
  }

  /**
   * The incident plan can end early whatever any of its agents says and whatever its context holds,
   * whether SCR steers, an agent of the parallel step does, or none.
   */
  lemma {:induction false} IncidentEndsEarly(context: Context, env: Env)
    requires Works(env) && context.pendingPause == None
    ensures MayEndEarly(Definition(IncidentResponse), IncidentResponse, context, env)
  {
    hide Started, Apply, Exec, Consumes, Works, Flatten, Steers, MayEndEarly;
    var plan := Definition(IncidentResponse);
    DefinitionShapes(IncidentResponse);
    assert plan[0] == [Scr] && plan[1] == [Web, Asm, CloudSec];
    assert Runnable(plan);
    if Steers(IncidentResponse, context, OutputOf(env, Scr).surface) {
      var none := RunReaches(plan, IncidentResponse, context, env, 0);
      assert Asm in plan[1];
      SteeredEnds(plan, IncidentResponse, context, env, 0, 1, none, Scr, Asm);
    } else {
      ParallelEndsEarly(plan, IncidentResponse, context, env, 1);
    }
  }

  /**
   * In the incident plan a correlated first completion, as the runners' default surfaces make it, has CMA
   * dispatched while the two other agents run, unless the scan itself has left the plan.
   */
  lemma {:induction false} IncidentEscalates(context: Context, env: Env, a: Agent) returns (es: seq<Event>)
    requires Works(env) && context.pendingPause == None && a in {Web, Asm, CloudSec}
    requires !Steers(IncidentResponse, context, OutputOf(env, Scr).surface)
    requires OutputOf(env, a).surface.correlated
    ensures var plan := Definition(IncidentResponse);
      var w0 := Started(plan, Fresh(plan, IncidentResponse, Fixed, context), env); var w := Exec(plan, w0, es);
      && Consumes(plan, w0, es) && w.log == [Scr, Web, Asm, CloudSec, Cma]
      && w.record.status == InProgress && w.record.flow == Dynamic
      && (forall b :: b in {Web, Asm, CloudSec} && b != a ==> b in w.record.agents && w.record.agents[b] == Running)
  {
    hide Started, Apply, Exec, Consumes, Works;
    var plan := Definition(IncidentResponse);
    DefinitionShapes(IncidentResponse);
    assert plan[0] == [Scr] && plan[1] == [Web, Asm, CloudSec];
    assert Runnable(plan) && a in plan[1];
    es := EscalatingRun(plan, IncidentResponse, context, env, 1, a);
    assert plan[..2] == [[Scr], [Web, Asm, CloudSec]] && plan[..2][1..] == [[Web, Asm, CloudSec]];
    assert Flatten([[Web, Asm, CloudSec]]) == [Web, Asm, CloudSec] + Flatten([]);
  }
}
