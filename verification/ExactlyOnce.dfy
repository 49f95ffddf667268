/** Fixed plans whose agents succeed and whose completion events are delivered exactly once. */
module ExactlyOnce {
  import opened Sequences
  import opened Workflow
  import opened Finalizer
  import opened Orchestration
  import opened FixedFlow

  /** As every definition is: no empty step, no agent twice, SCR in the first step. */
  ghost predicate Regular(plan: Plan) {
    && plan != [] && (forall i :: 0 <= i < |plan| ==> plan[i] != [])
    && Distinct(Flatten(plan)) && Scr in plan[0]
  }

  ghost predicate Serial(plan: Plan) { forall i :: 0 <= i < |plan| ==> |plan[i]| == 1 }

  /** A finished output that does not take a fixed workflow off its plan. */
  predicate Calm(name: WorkflowName, a: Agent, o: Output) {
    && (a == Scr ==> o.scan == ScanCompleted)
    && (ScrRequired(name) || !(o.surface.correlated || o.surface.risk >= 80
          || (o.surface.killChain.Some? && o.surface.killChain.value >= 3)))
  }

  predicate CalmContext(name: WorkflowName, c: Context) {
    c.pendingPause == None && (ScrRequired(name) || !c.ttpsMatched)
  }

  /** Every agent of the plan would succeed, and so would the database. */
  ghost predicate Succeeds(plan: Plan, name: WorkflowName, env: Env) {
    env.dbOk && forall a :: a in Flatten(plan) ==>
      a in env.outcomes && env.outcomes[a].Wrote? && Calm(name, a, env.outcomes[a].output)
  }

  /** Every event consumes a published one and meets success. */
  ghost predicate Legal(plan: Plan, w: World, es: seq<Event>) {
    es == [] || (
      var es', e := es[..|es| - 1], es[|es| - 1];
      Legal(plan, w, es') && e.Complete? && e.first
        && e.agent in Exec(plan, w, es').inbox && Succeeds(plan, w.record.name, e.env))
  }

  ghost predicate Holding(r: WorkflowState, agents: seq<Agent>, s: AgentStatus) {
    forall a :: a in agents ==> a in r.agents && r.agents[a] == s
  }

  /** Step k is running: everything before it is done, everything after it pending. */
  ghost predicate AtStep(plan: Plan, w: World, k: nat) {
    && w.record.step == k < |plan| && w.record.FollowsPlan() && !w.record.paused
    && w.record.status == InProgress && CalmContext(w.record.name, w.record.context)
    && w.inbox == plan[k] && w.log == Flatten(plan[..k + 1])
    && (forall i :: 0 <= i < k ==> Holding(w.record, plan[i], Done))
    && Holding(w.record, plan[k], Running)
    && (forall i :: k < i < |plan| ==> Holding(w.record, plan[i], Pending))
    && CalmMemory(plan, w.record.name, w.memory, k + 1)
  }

  ghost predicate IsOver(w: World) { w.record.status in {Paused, Completed} }

  ghost predicate AllDone(plan: Plan, w: World) {
    forall i :: 0 <= i < |plan| ==> Holding(w.record, plan[i], Done)
  }

  lemma {:induction false} StepsDisjoint(plan: Plan, i: nat, j: nat, a: Agent)
    requires Distinct(Flatten(plan)) && i < j < |plan| && a in plan[i]
    ensures a !in plan[j]
  {
    var f := Flatten(plan);
    assert f == plan[0] + Flatten(plan[1..]);
    if i == 0 {
      FlattenMember(plan[1..], a);
      assert plan[1..][j - 1] == plan[j];
      var p :| 0 <= p < |plan[0]| && plan[0][p] == a;
      forall q | 0 <= q < |Flatten(plan[1..])| ensures Flatten(plan[1..])[q] != a {
        assert f[p] != f[|plan[0]| + q];
      }
    } else {
      forall x, y | 0 <= x < y < |Flatten(plan[1..])| ensures Flatten(plan[1..])[x] != Flatten(plan[1..])[y] {
        assert f[|plan[0]| + x] != f[|plan[0]| + y];
      }
      StepsDisjoint(plan[1..], i - 1, j - 1, a);
    }
  }

  lemma {:induction false} StepDistinct(plan: Plan, k: nat)
    requires Distinct(Flatten(plan)) && k < |plan|
    ensures Distinct(plan[k])
  {
    var f := Flatten(plan);
    assert f == plan[0] + Flatten(plan[1..]);
    if k == 0 {
      forall x, y | 0 <= x < y < |plan[0]| ensures plan[0][x] != plan[0][y] { assert f[x] != f[y]; }
    } else {
      forall x, y | 0 <= x < y < |Flatten(plan[1..])| ensures Flatten(plan[1..])[x] != Flatten(plan[1..])[y] {
        assert f[|plan[0]| + x] != f[|plan[0]| + y];
      }
      StepDistinct(plan[1..], k - 1);
    }
  }

  /** w' is w after all the given agents ran: RUNNING, output in memory, completion published. */
  ghost predicate Ran(w: World, w': World, agents: seq<Agent>, env: Env)
    requires forall a :: a in agents ==> a in env.outcomes && env.outcomes[a].Wrote?
  {
    && w'.record == w.record.(agents := w'.record.agents) && w'.row == w.row
    && w'.log == w.log + agents && w'.inbox == w.inbox + agents
    && Holding(w'.record, agents, Running)
    && (forall a :: a in w.record.agents && a !in agents ==>
          a in w'.record.agents && w'.record.agents[a] == w.record.agents[a])
    && (forall a :: a in w'.memory <==> a in w.memory || a in agents)
    && (forall a :: a in w'.memory ==> w'.memory[a] == if a in agents then env.outcomes[a].output else w.memory[a])
  }

  lemma RunOneSucceeds(w: World, a: Agent, env: Env)
    requires a in env.outcomes && env.outcomes[a].Wrote? && (a == Scr ==> env.outcomes[a].output.scan == ScanCompleted)
    ensures Ran(w, RunOne(w, a, OutcomeOf(env, a)), [a], env) && !OutcomeOf(env, a).Raised?
  {
  }

  lemma RanThen(w: World, w1: World, w2: World, a: Agent, rest: seq<Agent>, env: Env)
    requires forall b :: b in [a] + rest ==> b in env.outcomes && env.outcomes[b].Wrote?
    requires Ran(w, w1, [a], env) && Ran(w1, w2, rest, env)
    ensures Ran(w, w2, [a] + rest, env)
  {
    assert w.log + [a] + rest == w.log + ([a] + rest);
    assert w.inbox + [a] + rest == w.inbox + ([a] + rest);
  }

  lemma {:induction false} RunAllSucceeds(w: World, agents: seq<Agent>, env: Env)
    requires forall a :: a in agents ==> a in env.outcomes && env.outcomes[a].Wrote?
    requires Scr in agents ==> env.outcomes[Scr].output.scan == ScanCompleted
    ensures FirstRaised(agents, env) == None && Ran(w, RunAll(w, agents, env), agents, env)
    decreases |agents|
  {
    if agents != [] {
      var a, rest := agents[0], agents[1..];
      assert agents == [a] + rest;
      var w1 := RunOne(w, a, OutcomeOf(env, a));
      RunOneSucceeds(w, a, env);
      RunAllSucceeds(w1, rest, env);
      RanThen(w, w1, RunAll(w1, rest, env), a, rest, env);
    } else {
      assert w.log + [] == w.log && w.inbox + [] == w.inbox;
    }
  }

  lemma HoldingKept(w: World, w': World, agents: seq<Agent>, env: Env, others: seq<Agent>, s: AgentStatus)
    requires forall a :: a in agents ==> a in env.outcomes && env.outcomes[a].Wrote?
    requires Ran(w, w', agents, env) && Holding(w.record, others, s) && forall a :: a in others ==> a !in agents
    ensures Holding(w'.record, others, s)
  {
  }

  function OutputOf(env: Env, a: Agent): Output {
    match OutcomeOf(env, a) case Wrote(o) => o case Silent => DEFAULT_OUTPUT case Raised(_) => DEFAULT_OUTPUT
  }

  lemma StepAgent(plan: Plan, k: nat, a: Agent)
    requires k < |plan| && a in plan[k]
    ensures a in Flatten(plan)
  {
    FlattenMember(plan, a);
  }

  /** The agents of the other steps are left as they were. */
  lemma {:induction false} OtherStepsKept(plan: Plan, w: World, w': World, k: nat, env: Env)
    requires Regular(plan) && k < |plan| && Succeeds(plan, w.record.name, env)
    requires (forall a :: a in plan[k] ==> a in Flatten(plan)) && Ran(w, w', plan[k], env)
    requires forall i :: 0 <= i < k ==> Holding(w.record, plan[i], Done)
    requires forall i :: k <= i < |plan| ==> Holding(w.record, plan[i], Pending)
    ensures forall i :: 0 <= i < k ==> Holding(w'.record, plan[i], Done)
    ensures forall i :: k < i < |plan| ==> Holding(w'.record, plan[i], Pending)
  {
    forall i | 0 <= i < k ensures Holding(w'.record, plan[i], Done) {
      forall a | a in plan[i] ensures a !in plan[k] { StepsDisjoint(plan, i, k, a); }
      HoldingKept(w, w', plan[k], env, plan[i], Done);
    }
    forall i | k < i < |plan| ensures Holding(w'.record, plan[i], Pending) {
      forall a | a in plan[i] ensures a !in plan[k] {
        if a in plan[k] { StepsDisjoint(plan, k, i, a); }
      }
      HoldingKept(w, w', plan[k], env, plan[i], Pending);
    }
  }

  /** The shared memory of a run up to step k: an output of each of its agents, and only calm ones. */
  ghost predicate CalmMemory(plan: Plan, name: WorkflowName, memory: Memory, k: nat)
    requires k <= |plan|
  {
    && (forall i, a :: 0 <= i < k && a in plan[i] ==> a in memory)
    && (forall a :: a in memory ==> Calm(name, a, memory[a]))
  }

  lemma MemoryStaysCalm(plan: Plan, w: World, w': World, k: nat, env: Env)
    requires k < |plan| && Succeeds(plan, w.record.name, env) && (forall a :: a in plan[k] ==> a in Flatten(plan))
    requires Ran(w, w', plan[k], env) && CalmMemory(plan, w.record.name, w.memory, k)
    ensures CalmMemory(plan, w.record.name, w'.memory, k + 1)
  {
    hide Calm, Flatten, Holding;
    forall i, a | 0 <= i <= k && a in plan[i] ensures a in w'.memory {
      if i < k { assert a in w.memory; }
    }
    forall a | a in w'.memory ensures Calm(w.record.name, a, w'.memory[a]) {
      if a in plan[k] { assert a in Flatten(plan); } else { assert Calm(w.record.name, a, w.memory[a]); }
    }
  }

  /** Dispatching step k over a record that has finished the steps before it. */
  lemma DispatchReachesStep(plan: Plan, w: World, k: nat, env: Env)
    requires Regular(plan) && k < |plan| && Succeeds(plan, w.record.name, env)
    requires w.record.step == k && w.record.FollowsPlan() && !w.record.paused
    requires w.record.status == InProgress && CalmContext(w.record.name, w.record.context)
    requires w.inbox == [] && w.log == Flatten(plan[..k]) && CalmMemory(plan, w.record.name, w.memory, k)
    requires forall i :: 0 <= i < k ==> Holding(w.record, plan[i], Done)
    requires forall i :: k <= i < |plan| ==> Holding(w.record, plan[i], Pending)
    ensures var r := Dispatched(w, plan[k], env);
      && !r.raised && AtStep(plan, r.world, k) && r.world.record.name == w.record.name
      && (|plan[k]| == 1 ==> r.world.memory == w.memory[plan[k][0] := OutputOf(env, plan[k][0])])
  {
    hide RunAll, FirstRaised, Flatten, Recovered;
    forall a | a in plan[k] ensures a in Flatten(plan) { StepAgent(plan, k, a); }
    RunAllSucceeds(w, plan[k], env);
    var w' := RunAll(w, plan[k], env);
    assert Dispatched(w, plan[k], env) == Result(w', false);
    assert plan[..k + 1] == plan[..k] + [plan[k]];
    FlattenSnoc(plan[..k], plan[k]);
    assert [] + plan[k] == plan[k];
    OtherStepsKept(plan, w, w', k, env);
    MemoryStaysCalm(plan, w, w', k, env);
    if |plan[k]| == 1 { OneOutput(w, w', plan[k], env); }
  }

  lemma OneOutput(w: World, w': World, agents: seq<Agent>, env: Env)
    requires (forall a :: a in agents ==> a in env.outcomes && env.outcomes[a].Wrote?) && |agents| == 1
    requires Ran(w, w', agents, env)
    ensures w'.memory == w.memory[agents[0] := OutputOf(env, agents[0])]
  {
    assert agents[0] in agents;
  }

  lemma StartReachesStepZero(plan: Plan, name: WorkflowName, context: Context, env: Env)
    requires Regular(plan) && Succeeds(plan, name, env) && CalmContext(name, context)
    ensures AtStep(plan, Started(plan, Fresh(plan, name, Fixed, context), env), 0)
  {
    var w := Fresh(plan, name, Fixed, context);
    forall i, a | 0 <= i < |plan| && a in plan[i] ensures a in w.record.agents { StepAgent(plan, i, a); }
    assert plan[..0] == [];
    DispatchReachesStep(plan, w, 0, env);
  }

  /** With no next agents the workflow ends: paused for a report that asks for it, completed otherwise. */
  lemma EndIsOver(w: World, a: Agent, s: Surface)
    requires Scr in w.memory
    ensures var r := Ended(w, a, s, true);
      !r.raised && IsOver(r.world) && r.world.record.agents == w.record.agents
        && r.world.inbox == w.inbox && r.world.log == w.log && r.world.record.name == w.record.name
        && r.world.row == Some(Stored(Snapshot(Some(w.record.name), w.memory)))
        && r.world.record.status == (if a == Reporting && s.requiresHuman then Paused else Completed)
        && r.world.memory == (if a == Reporting && s.requiresHuman then w.memory else map[])
        && r.world.record.paused == (w.record.paused || (a == Reporting && s.requiresHuman))
        && (r.world.record.status == Paused ==> r.world.record.pauseReason == Some(APPROVAL_REASON))
        && r.world.record.approvedBy == w.record.approvedBy
        && r.world.record.flow == w.record.flow && r.world.record.escalated == w.record.escalated
        && r.world.record.step == w.record.step && r.world.record.context == w.record.context
  {
  }

  /** The record, right after its completion event, of an agent of the running step. */
  lemma DeliveryIsPlain(plan: Plan, w: World, k: nat, a: Agent, env: Env)
    requires AtStep(plan, w, k) && a in plan[k]
    ensures var w0 := w.(inbox := RemoveFirst(w.inbox, a));
      var done := w0.(record := w0.record.WithAgent(a, Done));
      var s := w.memory[a].surface;
      var p := PlanNext(plan, done, done.record, a, s);
      !p.raised && (
        var r := Continued(p.world, p.next, false, a, s, env);
        Apply(plan, w, Complete(a, true, env))
        == if r.raised then Recovered(r.world, HANDLER_ERROR, env.retryOk) else r.world)
  {
    var w0 := w.(inbox := RemoveFirst(w.inbox, a));
    var done := w0.(record := w0.record.WithAgent(a, Done));
    assert Calm(w.record.name, a, w.memory[a]);
    assert Escalated(done, done.memory[a].surface) == done;
    assert done.record.(context := done.record.context.(pendingPause := None)) == done.record;
  }

  /** The only agent of a step that has a successor completes: the next step runs. */
  lemma SerialNext(plan: Plan, w: World, k: nat, env: Env)
    requires Regular(plan) && AtStep(plan, w, k) && |plan[k]| == 1 && Succeeds(plan, w.record.name, env)
    requires k + 1 < |plan|
    ensures var w' := Apply(plan, w, Complete(plan[k][0], true, env));
      && w'.record.name == w.record.name && AtStep(plan, w', k + 1)
      && (|plan[k + 1]| == 1 ==> w'.memory == w.memory[plan[k + 1][0] := OutputOf(env, plan[k + 1][0])])
  {
    var a := plan[k][0];
    DeliveryIsPlain(plan, w, k, a, env);
    var done := w.(inbox := [], record := w.record.WithAgent(a, Done));
    SingleDone(plan, w, k);
    var next := done.(record := done.record.(step := k + 1));
    DispatchReachesStep(plan, next, k + 1, env);
    assert PlanNext(plan, done, done.record, a, w.memory[a].surface) == Planned(next, plan[k + 1], false);
  }

  /** The only agent of the last step completes: the workflow ends with every agent done. */
  lemma SerialLast(plan: Plan, w: World, k: nat, env: Env)
    requires Regular(plan) && AtStep(plan, w, k) && |plan[k]| == 1 && Succeeds(plan, w.record.name, env)
    requires k + 1 == |plan|
    ensures var w' := Apply(plan, w, Complete(plan[k][0], true, env));
      && w'.record.name == w.record.name
      && IsOver(w') && AllDone(plan, w') && w'.inbox == [] && w'.log == Flatten(plan)
      && w' == Ended(w.(inbox := [], record := w.record.WithAgent(plan[k][0], Done)), plan[k][0],
                     w.memory[plan[k][0]].surface, true).world
  {
    var a := plan[k][0];
    DeliveryIsPlain(plan, w, k, a, env);
    var done := w.(inbox := [], record := w.record.WithAgent(a, Done));
    SingleDone(plan, w, k);
    assert Scr in w.memory;
    EndIsOver(done, a, w.memory[a].surface);
    assert plan[..k + 1] == plan;
    assert PlanNext(plan, done, done.record, a, w.memory[a].surface) == Planned(done, [], false);
  }

  lemma SingleDone(plan: Plan, w: World, k: nat)
    requires Regular(plan) && AtStep(plan, w, k) && |plan[k]| == 1
    ensures var r := w.record.WithAgent(plan[k][0], Done);
      && RemoveFirst(w.inbox, plan[k][0]) == [] && StepFinished(plan, r)
      && (forall i :: 0 <= i <= k ==> Holding(r, plan[i], Done))
      && (forall i :: k < i < |plan| ==> Holding(r, plan[i], Pending))
  {
    var a := plan[k][0];
    assert plan[k] == [a];
    forall i | 0 <= i < |plan| && i != k ensures a !in plan[i] {
      if i < k && a in plan[i] { StepsDisjoint(plan, i, k, a); }
      if k < i { StepsDisjoint(plan, k, i, a); }
    }
  }

  /** Either step k is running, or the workflow is over with every agent done. */
  ghost predicate OnTrack(plan: Plan, w: World) {
    || (exists k: nat :: k < |plan| && AtStep(plan, w, k))
    || (IsOver(w) && AllDone(plan, w) && w.inbox == [] && w.log == Flatten(plan))
  }

  /**
   * For every plan of single-agent steps, in every state of every exactly-once run: the trigger log
   * is the plan up to the running step, agents before it are DONE and those after it PENDING, and
   * the workflow is paused or completed exactly when every agent is DONE.
   */
  lemma {:induction false} SerialRun(plan: Plan, name: WorkflowName, context: Context, env: Env, es: seq<Event>)
    requires Regular(plan) && Serial(plan) && Succeeds(plan, name, env) && CalmContext(name, context)
    requires Legal(plan, Started(plan, Fresh(plan, name, Fixed, context), env), es)
    ensures var w := Exec(plan, Started(plan, Fresh(plan, name, Fixed, context), env), es);
      w.record.name == name && OnTrack(plan, w)
  {
    hide Started, Apply;
    var w0 := Started(plan, Fresh(plan, name, Fixed, context), env);
    StartReachesStepZero(plan, name, context, env);
    StartedCourse(plan, name, context, env);
    NameKept(plan, w0, es);
    if es != [] {
      var es', e := es[..|es| - 1], es[|es| - 1];
      SerialRun(plan, name, context, env, es');
      var w := Exec(plan, w0, es');
      var k: nat :| k < |plan| && AtStep(plan, w, k);
      assert e.agent == plan[k][0];
      if k + 1 < |plan| { SerialNext(plan, w, k, e.env); } else { SerialLast(plan, w, k, e.env); }
    }
  }

  lemma {:induction false} NameKept(plan: Plan, w: World, es: seq<Event>)
    ensures Exec(plan, w, es).record.name == w.record.name
  {
    if es != [] {
      NameKept(plan, w, es[..|es| - 1]);
      ApplyMoves(plan, Exec(plan, w, es[..|es| - 1]), es[|es| - 1]);
    }
  }

  /** One more legal event. */
  lemma LegalSnoc(plan: Plan, w0: World, es: seq<Event>, e: Event)
    requires Legal(plan, w0, es) && e.Complete? && e.first
    requires e.agent in Exec(plan, w0, es).inbox && Succeeds(plan, w0.record.name, e.env)
    ensures Legal(plan, w0, es + [e]) && Exec(plan, w0, es + [e]) == Apply(plan, Exec(plan, w0, es), e)
  {
    assert (es + [e])[..|es + [e]| - 1] == es;
  }

  /** The three SCR-required definitions are serial; the incident plan is not. */
  lemma DefinitionShapes(name: WorkflowName)
    ensures name.Custom? || Regular(Definition(name))
    ensures name.Custom? || (Serial(Definition(name)) <==> ScrRequired(name))
  {
    var plan := Definition(name);
    if !name.Custom? {
      assert Flatten(plan) == match name
        case CodeReviewOnly => [Scr, Cma, Reporting]
        case ComplianceReadiness => [Scr, Cma, Reporting]
        case IncrementalPrScan => [Scr, Reporting]
        case IncidentResponse => [Scr, Web, Asm, CloudSec, Cma, Reporting]
        case Custom(_) => [] by {
        assert Flatten([[Reporting]]) == [Reporting] + Flatten([]);
        assert [[Cma], [Reporting]][1..] == [[Reporting]];
        assert Flatten([[Cma], [Reporting]]) == [Cma] + [Reporting];
        assert [[Web, Asm, CloudSec], [Cma], [Reporting]][1..] == [[Cma], [Reporting]];
        if name == IncidentResponse { assert plan[1..] == [[Web, Asm, CloudSec], [Cma], [Reporting]]; }
        else if name == IncrementalPrScan { assert plan[1..] == [[Reporting]]; }
        else { assert plan[1..] == [[Cma], [Reporting]]; }
      }
      if name == IncidentResponse { assert |plan[1]| == 3; }
    }
  }
}
