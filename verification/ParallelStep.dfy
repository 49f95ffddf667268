/** The first completion of a parallel step of a fixed plan, whatever the agents' surfaces say. */
module ParallelStep {
  import opened Sequences
  import opened Workflow
  import opened Orchestration
  import opened FixedFlow
  import opened ExactlyOnce
  import opened DynamicFlow

  /** Step k is running and all its agents have left their output, which need not be calm. */
  ghost predicate StepRuns(plan: Plan, w: World, k: nat) {
    && w.record.step == k < |plan| && w.record.FollowsPlan() && !w.record.paused
    && w.record.status == InProgress && w.record.context.pendingPause == None
    && Holding(w.record, plan[k], Running) && Distinct(plan[k])
    && (forall a :: a in plan[k] ==> a in w.memory)
    && Scr in w.memory && w.memory[Scr].scan == ScanCompleted
  }

  predicate Escalates(w: World, s: Surface) { ShouldEscalate(s, w.record) && !ScrRequired(w.record.name) }

  /** Another agent of the step is still running. */
  ghost predicate OneStillRuns(plan: Plan, w: World, k: nat, a: Agent)
    requires k < |plan|
  {
    exists b :: b in plan[k] && b != a && b in w.record.agents && w.record.agents[b] == Running
  }

  lemma Another(agents: seq<Agent>, a: Agent) returns (b: Agent)
    requires Distinct(agents) && |agents| > 1
    ensures b in agents && b != a
  {
    b := if agents[0] != a then agents[0] else agents[1];
  }

  /** Not escalating, the completion finds the step unfinished and ends the workflow. */
  lemma UnescalatedEnds(plan: Plan, w: World, k: nat, a: Agent, env: Env)
    requires StepRuns(plan, w, k) && |plan[k]| > 1 && a in plan[k] && env.dbOk && !Escalates(w, w.memory[a].surface)
    ensures var w' := Apply(plan, w, Complete(a, true, env)); IsOver(w') && OneStillRuns(plan, w', k, a)
  {
    var v, s := Delivered(w, a), w.memory[a].surface;
    var b := Another(plan[k], a);
    assert v.record.agents[b] == Running && !v.record.Finished(b);
    assert Escalated(v, s) == v && Gated(v) == v;
    assert v.record.(context := v.record.context.(pendingPause := None)) == v.record;
    assert PlanNext(plan, v, v.record, a, s) == Planned(v, [], false);
    EndIsOver(v, a, s);
  }

  /** Escalating, it hands over to the routing table. */
  lemma EscalatedDelivery(plan: Plan, w: World, k: nat, a: Agent, env: Env)
    requires StepRuns(plan, w, k) && a in plan[k] && Escalates(w, w.memory[a].surface)
    ensures var v, s := Delivered(w, a), w.memory[a].surface; var e := v.(record := v.record.Escalate());
      var r := Continued(e, Route(e.record, a, s), false, a, s, env);
      Apply(plan, w, Complete(a, true, env))
        == if r.raised then Recovered(r.world, HANDLER_ERROR, env.retryOk) else r.world
  {
    hide Continued, Route, Recovered, ShouldEscalate;
    var v, s := Delivered(w, a), w.memory[a].surface;
    var e := v.(record := v.record.Escalate());
    assert ShouldEscalate(s, v.record) == ShouldEscalate(s, w.record) by { SameEscalation(w.record, v.record, s); }
    assert Escalated(v, s) == e && Gated(e) == e;
    assert e.record.(context := e.record.context.(pendingPause := None)) == e.record;
    assert PlanNext(plan, e, e.record, a, s) == Planned(e, Route(e.record, a, s), false);
  }

  lemma EscalatedGoesOn(plan: Plan, w: World, k: nat, a: Agent, env: Env)
    requires StepRuns(plan, w, k) && |plan[k]| > 1 && a in plan[k] && Works(env) && Escalates(w, w.memory[a].surface)
    ensures var w' := Apply(plan, w, Complete(a, true, env));
      && OneStillRuns(plan, w', k, a) && w'.record.flow == Dynamic && w'.record.escalated
      && if a == Reporting || a.Other? then IsOver(w')
         else w'.record.status == InProgress && w'.log == w.log + Route(w.record.Escalate(), a, w.memory[a].surface)
  {
    hide Route, Apply;
    var v, s := Delivered(w, a), w.memory[a].surface;
    var e := v.(record := v.record.Escalate());
    var next := Route(e.record, a, s);
    var b := Another(plan[k], a);
    assert e.record.agents[b] == Running;
    EscalatedDelivery(plan, w, k, a, env);
    RouteIsLighter(e.record, a, s);
    SameRoute(e.record, w.record.Escalate(), a, s);
    RouteEnds(e.record, a, s);
    if next == [] {
      EndIsOver(e, a, s);
    } else {
      hide RunAll;
      RunAllSucceeds(e, next, env);
      assert b in e.record.agents;
    }
  }

  lemma SameRoute(r: WorkflowState, r': WorkflowState, a: Agent, s: Surface)
    requires r'.flow == r.flow && r'.context == r.context
    ensures Route(r', a, s) == Route(r, a, s)
  {
  }

  lemma RouteEnds(r: WorkflowState, a: Agent, s: Surface)
    requires r.flow == Dynamic
    ensures Route(r, a, s) == [] <==> a == Reporting || a.Other?
    ensures a in {Web, Asm, CloudSec} ==> Route(r, a, s) == [Cma]
  {
  }

  /**
   * The first completion of a parallel step ends the workflow, while another agent of the step runs, if
   * and only if its surface does not escalate it, or nothing is routed after its agent. When the agents
   * of the shipped parallel step escalate, as their default surfaces do, CMA is dispatched instead.
   */
  lemma {:induction false} FirstCompletion(plan: Plan, w: World, k: nat, a: Agent, env: Env)
    requires StepRuns(plan, w, k) && |plan[k]| > 1 && a in plan[k] && Works(env)
    ensures var w' := Apply(plan, w, Complete(a, true, env));
      && OneStillRuns(plan, w', k, a)
      && (IsOver(w') <==> !Escalates(w, w.memory[a].surface) || a == Reporting || a.Other?)
      && (Escalates(w, w.memory[a].surface) && a in {Web, Asm, CloudSec} ==>
            w'.record.status == InProgress && w'.record.flow == Dynamic && w'.log == w.log + [Cma])
  {
    hide Apply, Route, OneStillRuns;
    RouteEnds(w.record.Escalate(), a, w.memory[a].surface);
    if Escalates(w, w.memory[a].surface) {
      EscalatedGoesOn(plan, w, k, a, env);
    } else {
      UnescalatedEnds(plan, w, k, a, env);
    }
  }
}
