/** Every run is short, and rule-routed runs end at reporting. */
module DynamicFlow {
  import opened Sequences
  import opened Workflow
  import opened Finalizer
  import opened Orchestration
  import opened FixedFlow
  import opened ExactlyOnce

  /** The dispatches an agent can lead to, itself included. */
  function Weight(a: Agent): nat {
    match a
    case Reporting => 1
    case Cma => 2
    case Web => 3
    case Asm => 3
    case CloudSec => 3
    case Scr => 10
    case Other(_) => 1
  }

  function TotalWeight(agents: seq<Agent>): nat {
    if agents == [] then 0 else Weight(agents[0]) + TotalWeight(agents[1..])
  }

  lemma {:induction false} WeightAppend(s: seq<Agent>, t: seq<Agent>)
    ensures TotalWeight(s + t) == TotalWeight(s) + TotalWeight(t)
  {
    if s == [] {
      assert s + t == t;
    } else {
      assert (s + t)[1..] == s[1..] + t;
      WeightAppend(s[1..], t);
    }
  }

  lemma {:induction false} WeightRemove(s: seq<Agent>, a: Agent)
    requires a in s
    ensures TotalWeight(RemoveFirst(s, a)) == TotalWeight(s) - Weight(a)
    ensures |RemoveFirst(s, a)| == |s| - 1
  {
    if s[0] != a {
      WeightRemove(s[1..], a);
      assert RemoveFirst(s, a)[1..] == RemoveFirst(s[1..], a);
    }
  }

  lemma {:induction false} WeightAtLeast(s: seq<Agent>)
    ensures TotalWeight(s) >= |s|
  {
    if s != [] { WeightAtLeast(s[1..]); }
  }

  /** The agents a completion leads to weigh less than it does, by at least one for itself. */
  lemma RouteIsLighter(w: WorkflowState, a: Agent, s: Surface)
    ensures TotalWeight(Route(w, a, s)) + 1 <= Weight(a)
    ensures Route(w, a, s) == [] && a !in {Web, Asm, CloudSec} && !a.Other? ==> a == Reporting
    ensures w.flow == Dynamic && !a.Other? && Route(w, a, s) == [] ==> a == Reporting
    ensures forall b :: b in Route(w, a, s) ==> !b.Other?
  {
    var next := Route(w, a, s);
    if next == [Web, Asm, CloudSec] {
      assert next[1..] == [Asm, CloudSec] && next[1..][1..] == [CloudSec];
      assert TotalWeight([CloudSec]) == 3 && TotalWeight([Asm, CloudSec]) == 6;
    }
  }

  // ---------------------------------------------------------------- every run is short

  /** Only agents that were dispatched, and not all of them if some failed, get their events published. */
  lemma {:induction false} RunAllPublishes(w: World, agents: seq<Agent>, env: Env)
    ensures var w' := RunAll(w, agents, env);
      TotalWeight(w'.inbox) - |w'.inbox| <= TotalWeight(w.inbox) - |w.inbox| + TotalWeight(agents) - |agents|
        && TotalWeight(w'.inbox) <= TotalWeight(w.inbox) + TotalWeight(agents)
    decreases |agents|
  {
    if agents != [] {
      var a := agents[0];
      var w1 := RunOne(w, a, OutcomeOf(env, a));
      assert w1.inbox == w.inbox || w1.inbox == w.inbox + [a];
      WeightAppend(w.inbox, [a]);
      assert TotalWeight([a]) == Weight(a);
      RunAllPublishes(w1, agents[1..], env);
      WeightAtLeast(agents[1..]);
    }
  }

  /** The dispatches made so far plus those the waiting events can still lead to. */
  function Potential(w: World): int { |w.log| + TotalWeight(w.inbox) - |w.inbox| }

  /** Exactly-once delivery, with any outcomes. */
  ghost predicate Consumes(plan: Plan, w: World, es: seq<Event>) {
    es == [] || (
      var es', e := es[..|es| - 1], es[|es| - 1];
      Consumes(plan, w, es') && e.Complete? && e.first && e.agent in Exec(plan, w, es').inbox)
  }

  lemma RecoveredLeaves(w: World, reason: string, dbOk: bool)
    ensures var w' := Recovered(w, reason, dbOk);
      w'.log == w.log && w'.inbox == w.inbox && SameCourse(w.record, w'.record)
  {
  }

  lemma ContinuedIsLighter(w: World, next: seq<Agent>, paused: bool, a: Agent, s: Surface, env: Env)
    ensures var w' := Continued(w, next, paused, a, s, env).world;
      && TotalWeight(w'.inbox) <= TotalWeight(w.inbox) + TotalWeight(next)
      && Potential(w') <= Potential(w) + TotalWeight(next)
      && SameCourse(w.record, w'.record)
  {
    RunAllPublishes(w, next, env);
    RunAllCourse(w, next, env);
    WeightAtLeast(next);
    if next != [] && !paused {
      var ran := RunAll(w, next, env);
      match FirstRaised(next, env)
      case None =>
      case Some(b) => RecoveredLeaves(ran.(record := ran.record.WithAgent(b, Errored)), STEP_ERROR, env.dbOk);
    }
  }

  /** The weight of the plan steps that are still to come. */
  function Remaining(plan: Plan, r: WorkflowState): nat {
    if r.FollowsPlan() && r.step < |plan| then TotalWeight(Flatten(plan[r.step + 1..])) else 0
  }

  lemma RemainingDrops(plan: Plan, k: nat)
    requires k < |plan|
    ensures TotalWeight(Flatten(plan[k..])) == TotalWeight(plan[k]) + TotalWeight(Flatten(plan[k + 1..]))
  {
    assert plan[k..][1..] == plan[k + 1..];
    WeightAppend(plan[k], Flatten(plan[k + 1..]));
  }

  /** The agents planned next are paid for by the steps to come, or weigh less than the completed one. */
  lemma PlannedIsLighter(plan: Plan, w: World, local: WorkflowState, a: Agent, s: Surface)
    requires SameCourse(local, w.record)
    ensures var p := PlanNext(plan, w, local, a, s);
      && p.world == w.(record := p.world.record) && p.world.record.flow == w.record.flow
      && TotalWeight(p.next) + Remaining(plan, p.world.record) + 1 <= Remaining(plan, w.record) + Weight(a)
  {
    if local.FollowsPlan() && plan != [] && local.step < |plan| && Advances(plan, local) {
      RemainingDrops(plan, local.step + 1);
    } else if !local.FollowsPlan() {
      RouteIsLighter(local, a, s);
    }
  }

  /** What a completion can still lead to, in deliveries and in dispatches. */
  ghost predicate Lighter(plan: Plan, w: World, w': World, spent: int) {
    && TotalWeight(w'.inbox) + Remaining(plan, w'.record) + spent <= TotalWeight(w.inbox) + Remaining(plan, w.record)
    && Potential(w') + Remaining(plan, w'.record) + spent <= Potential(w) + Remaining(plan, w.record)
    && (w.record.flow == Dynamic ==> w'.record.flow == Dynamic)
  }

  lemma ProgressedIsLighter(plan: Plan, w: World, a: Agent, s: Surface, env: Env)
    ensures Lighter(plan, w, Progressed(plan, w, a, s, env).world, 1 - Weight(a))
  {
    hide Continued, PlanNext, TotalWeight, Weight;
    var local := w.record.(context := w.record.context.(pendingPause := None));
    var p := PlanNext(plan, Gated(w), local, a, s);
    assert SameCourse(w.record, Gated(w).record) && Gated(w) == w.(record := Gated(w).record);
    PlanNextCourse(plan, Gated(w), local, a, s);
    PlannedIsLighter(plan, Gated(w), local, a, s);
    ContinuedIsLighter(p.world, p.next, w.record.paused, a, s, env);
  }

  lemma HandledIsLighter(plan: Plan, w: World, a: Agent, env: Env)
    ensures Lighter(plan, w, Handled(plan, w, a, env), 1 - Weight(a))
  {
    hide Recovered, Progressed, TotalWeight, ShouldEscalate;
    var done := w.(record := w.record.WithAgent(a, Done));
    RecoveredLeaves(done, SCAN_ERROR, env.dbOk);
    WeightIsPositive(a);
    hide Weight;
    if a in done.memory {
      var s := done.memory[a].surface;
      var e := Escalated(done, s);
      ProgressedIsLighter(plan, e, a, s, env);
      RecoveredLeaves(Progressed(plan, e, a, s, env).world, HANDLER_ERROR, env.retryOk);
    }
  }

  lemma WeightIsPositive(a: Agent)
    ensures Weight(a) >= 1
  {
  }

  function Bound(plan: Plan, flow: Flow): nat { if flow == Fixed && plan != [] then TotalWeight(Flatten(plan)) else 10 }

  lemma StartIsBounded(plan: Plan, name: WorkflowName, flow: Flow, context: Context, env: Env)
    ensures var w := Started(plan, Fresh(plan, name, flow, context), env);
      && TotalWeight(w.inbox) + Remaining(plan, w.record) <= Bound(plan, flow)
      && Potential(w) + Remaining(plan, w.record) <= Bound(plan, flow) && w.record.flow == flow
  {
    hide RunAll, FirstRaised, Persist, Recovered;
    var blank, next := Fresh(plan, name, flow, context), FirstAgents(plan, flow);
    ContinuedIsLighter(blank, next, false, Scr, DEFAULT_OUTPUT.surface, env);
    RecoveredLeaves(Continued(blank, next, false, Scr, DEFAULT_OUTPUT.surface, env).world, HANDLER_ERROR, env.retryOk);
    assert TotalWeight([Scr]) == 10;
    if flow == Fixed && plan != [] {
      RemainingDrops(plan, 0);
      assert plan[0..] == plan;
    }
  }

  /**
   * Every exactly-once run terminates, whatever plan or flow, whatever fails and whether it escalates:
   * each delivery strictly lowers the weight of the waiting events and the steps to come, so a run has
   * at most as many deliveries, and dispatches at most as many agents, as its start weighs.
   */
  lemma {:induction false} RunIsShort(
    plan: Plan, name: WorkflowName, flow: Flow, context: Context, env: Env, es: seq<Event>)
    requires Consumes(plan, Started(plan, Fresh(plan, name, flow, context), env), es)
    ensures var w := Exec(plan, Started(plan, Fresh(plan, name, flow, context), env), es);
      && |es| + TotalWeight(w.inbox) + Remaining(plan, w.record) <= Bound(plan, flow)
      && Potential(w) + Remaining(plan, w.record) <= Bound(plan, flow)
      && |w.log| <= Bound(plan, flow)
      && (flow == Dynamic ==> w.record.flow == Dynamic)
  {
    var w0 := Started(plan, Fresh(plan, name, flow, context), env);
    if es == [] {
      StartIsBounded(plan, name, flow, context, env);
    } else {
      var es', e := es[..|es| - 1], es[|es| - 1];
      RunIsShort(plan, name, flow, context, env, es');
      var w := Exec(plan, w0, es');
      WeightRemove(w.inbox, e.agent);
      HandledIsLighter(plan, w.(inbox := RemoveFirst(w.inbox, e.agent)), e.agent, e.env);
    }
    WeightAtLeast(Exec(plan, w0, es).inbox);
  }

  /** A dynamic run has at most 10 deliveries and 10 dispatches; the shipped plans have at most 22. */
  lemma ShippedBounds(name: WorkflowName, flow: Flow)
    ensures Bound(Definition(name), Dynamic) == 10
    ensures Bound(Definition(name), flow) <= match name
      case CodeReviewOnly => 13
      case ComplianceReadiness => 13
      case IncrementalPrScan => 11
      case IncidentResponse => 22
      case Custom(_) => 10
  {
    var plan := Definition(name);
    assert TotalWeight([Scr]) == 10 && TotalWeight([Cma]) == 2 && TotalWeight([Reporting]) == 1;
    assert TotalWeight([CloudSec]) == 3;
    assert [Asm, CloudSec][1..] == [CloudSec] && [Web, Asm, CloudSec][1..] == [Asm, CloudSec];
    if |plan| > 0 {
      RemainingDrops(plan, 0);
      RemainingDrops(plan, 1);
      assert plan[0..] == plan;
      if |plan| > 2 { RemainingDrops(plan, 2); }
      if |plan| > 3 { RemainingDrops(plan, 3); }
      assert Flatten(plan[|plan|..]) == [];
    }
  }

  // ---------------------------------------------------------------- and ends at reporting

  /** Every agent the orchestrator has a runner for succeeds. */
  ghost predicate Works(env: Env) {
    && env.dbOk
    && forall a: Agent :: !a.Other? ==>
         a in env.outcomes && env.outcomes[a].Wrote? && (a == Scr ==> env.outcomes[a].output.scan == ScanCompleted)
  }

  ghost predicate WorkingRun(plan: Plan, w: World, es: seq<Event>) {
    Consumes(plan, w, es) && forall i :: 0 <= i < |es| ==> es[i].Complete? && Works(es[i].env)
  }

  /** A routed workflow whose report asks for approval, whatever its status says. */
  ghost predicate DynamicGate(w: World) {
    && w.record.flow == Dynamic && w.record.paused
    && Reporting in w.memory && w.memory[Reporting].surface.requiresHuman
    && (ScrRequired(w.record.name) ==> Scr in w.memory)
    && (forall a :: a in w.memory ==> !a.Other?)
  }

  /** It waits for that approval. */
  ghost predicate GateWaits(w: World) { DynamicGate(w) && w.record.status == Paused }

  ghost predicate ReportDone(r: WorkflowState) { Reporting in r.agents && r.agents[Reporting] == Done }

  /** A live run still waits for an event; an ended one has its report done. */
  ghost predicate HeadingToReport(w: World) {
    && w.record.flow == Dynamic && w.record.context.pendingPause == None
    && (forall a :: a in w.inbox ==> !a.Other?)
    && w.record.status in {InProgress, Paused, Completed}
    && (w.record.status == InProgress ==>
          !w.record.paused && w.inbox != [] && Scr in w.memory && forall a :: a in w.inbox ==> a in w.memory)
    && (w.record.status == Paused ==> ReportDone(w.record) && Scr in w.memory && GateWaits(w))
    && (forall a :: a in w.memory ==> !a.Other?)
    && (w.record.status == Completed ==> ReportDone(w.record) && w.memory == map[])
  }

  /** w' is w after the given agents ran: their events are published and their outputs in memory. */
  ghost predicate Worked(w: World, w': World, agents: seq<Agent>) {
    && w'.record == w.record.(agents := w'.record.agents) && w'.inbox == w.inbox + agents
    && (forall a :: a in w'.memory <==> a in w.memory || a in agents)
  }

  lemma RunOneWorks(w: World, a: Agent, env: Env)
    requires Works(env) && !a.Other?
    ensures Worked(w, RunOne(w, a, OutcomeOf(env, a)), [a]) && !OutcomeOf(env, a).Raised?
  {
  }

  lemma WorkedThen(w: World, w1: World, w2: World, a: Agent, rest: seq<Agent>)
    requires Worked(w, w1, [a]) && Worked(w1, w2, rest)
    ensures Worked(w, w2, [a] + rest)
  {
    assert w.inbox + [a] + rest == w.inbox + ([a] + rest);
  }

  lemma {:induction false} RunAllWorks(w: World, agents: seq<Agent>, env: Env)
    requires Works(env) && forall a :: a in agents ==> !a.Other?
    ensures FirstRaised(agents, env) == None && Worked(w, RunAll(w, agents, env), agents)
    decreases |agents|
  {
    if agents == [] {
      assert w.inbox + [] == w.inbox;
    } else {
      var a, rest := agents[0], agents[1..];
      assert agents == [a] + rest;
      var w1 := RunOne(w, a, OutcomeOf(env, a));
      RunOneWorks(w, a, env);
      RunAllWorks(w1, rest, env);
      WorkedThen(w, w1, RunAll(w1, rest, env), a, rest);
    }
  }

  /** The record and inbox right after a completion was delivered. */
  function Delivered(w: World, a: Agent): World {
    w.(inbox := RemoveFirst(w.inbox, a), record := w.record.WithAgent(a, Done))
  }

  /** A delivered completion in dynamic flow: the routed agents, and nothing else. */
  lemma DynamicDelivery(plan: Plan, w: World, a: Agent, env: Env)
    requires w.record.flow == Dynamic && w.record.context.pendingPause == None && a in w.memory
    ensures var v, s := Delivered(w, a), w.memory[a].surface;
      var r := Continued(v, Route(v.record, a, s), v.record.paused, a, s, env);
      Apply(plan, w, Complete(a, true, env))
        == if r.raised then Recovered(r.world, HANDLER_ERROR, env.retryOk) else r.world
  {
    hide Continued, Route, Recovered;
    var v, s := Delivered(w, a), w.memory[a].surface;
    assert Escalated(v, s) == v && Gated(v) == v;
    assert v.record.(context := v.record.context.(pendingPause := None)) == v.record;
    assert PlanNext(plan, v, v.record, a, s) == Planned(v, Route(v.record, a, s), false);
  }

  lemma WorkingStep(plan: Plan, w: World, a: Agent, env: Env)
    requires HeadingToReport(w) && a in w.inbox && Works(env)
    ensures HeadingToReport(Apply(plan, w, Complete(a, true, env)))
  {
    forall b | b in RemoveFirst(w.inbox, a) ensures b in w.inbox { RemoveFirstMember(w.inbox, a, b); }
    if a in w.memory {
      var v, s := Delivered(w, a), w.memory[a].surface;
      hide Continued, Route, Recovered, Apply;
      DynamicDelivery(plan, w, a, env);
      RouteIsLighter(v.record, a, s);
      WorkingContinuation(v, Route(v.record, a, s), a, s, env);
    }
  }

  /** What follows a completion: a report ends the run, and any other agent hands on to the next ones. */
  lemma WorkingContinuation(w: World, next: seq<Agent>, a: Agent, s: Surface, env: Env)
    requires w.record.flow == Dynamic && w.record.context.pendingPause == None && Works(env)
    requires w.record.status in {InProgress, Paused} && Scr in w.memory && a in w.memory && s == w.memory[a].surface
    requires forall b :: b in w.inbox || b in next || b in w.memory ==> !b.Other?
    requires w.record.status == InProgress ==> !w.record.paused && forall b :: b in w.inbox ==> b in w.memory
    requires w.record.status == Paused ==> ReportDone(w.record) && GateWaits(w)
    requires next == [] ==> a == Reporting && ReportDone(w.record)
    ensures var r := Continued(w, next, w.record.paused, a, s, env); !r.raised && HeadingToReport(r.world)
  {
    if next == [] {
      EndIsOver(w, a, s);
    } else if !w.record.paused {
      RunAllWorks(w, next, env);
    }
  }

  /**
   * In every run of a dynamic workflow that works, no event left means the report is done and the run
   * over, and a pause is always that of a report which asks for approval.
   */
  lemma {:induction false} DynamicRunEndsAtReporting(
    plan: Plan, name: WorkflowName, context: Context, env: Env, es: seq<Event>)
    requires Works(env) && context.pendingPause == None
    requires WorkingRun(plan, Started(plan, Fresh(plan, name, Dynamic, context), env), es)
    ensures var w := Exec(plan, Started(plan, Fresh(plan, name, Dynamic, context), env), es);
      && HeadingToReport(w)
      && (w.inbox == [] ==> ReportDone(w.record) && w.record.status in {Paused, Completed})
      && (w.record.status == Paused ==> GateWaits(w))
  {
    var w0 := Started(plan, Fresh(plan, name, Dynamic, context), env);
    if es == [] {
      RunAllWorks(Fresh(plan, name, Dynamic, context), [Scr], env);
    } else {
      var es', e := es[..|es| - 1], es[|es| - 1];
      assert WorkingRun(plan, w0, es') by {
        forall i | 0 <= i < |es'| ensures es'[i].Complete? && Works(es'[i].env) { assert es'[i] == es[i]; }
      }
      DynamicRunEndsAtReporting(plan, name, context, env, es');
      WorkingStep(plan, Exec(plan, w0, es'), e.agent, e.env);
    }
  }
}
