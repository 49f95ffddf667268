/**
 * What dispatched agents leave, by how each of them ends: the first scan, which gates everything after
 * it, raising agents, and agents that finish without output.
 */
module Dispatching {
  import opened Sequences
  import opened Workflow
  import opened Finalizer
  import opened Orchestration
  import opened FixedFlow
  import opened ExactlyOnce
  import opened HumanGate
  import opened DynamicFlow
  import opened ParallelStep
  import opened Interleaving

  // ---------------------------------------------------------------- the first scan

  ghost predicate StartsWithScan(plan: Plan, flow: Flow) { flow == Dynamic || plan == [] || plan[0] == [Scr] }

  function StatusOf(w: World, a: Agent): Option<AgentStatus> { StatusIn(w.record, a) }

  /** How a workflow that starts with a scan stands once the scan tool has returned. */
  ghost predicate ScanReturned(w: World, o: Outcome) {
    match o
    case Wrote(out) =>
      && w.record.status == InProgress && w.row == None && w.memory == map[Scr := out]
      && w.inbox == (if out.scan == ScanCompleted then [Scr] else [])
      && StatusOf(w, Scr) == Some(if out.scan == NoStatus || out.scan == ScanRunning then Errored else Running)
    case Silent =>
      w.record.status == InProgress && w.row == None && w.memory == map[] && w.inbox == []
        && StatusOf(w, Scr) == Some(Errored)
    case Raised(_) => w.record.status in {Failed, Completed} && w.inbox == [] && StatusOf(w, Scr) == Some(Errored)
  }

  lemma ScanDecides(plan: Plan, name: WorkflowName, flow: Flow, context: Context, env: Env)
    requires StartsWithScan(plan, flow)
    ensures var w := Started(plan, Fresh(plan, name, flow, context), env); var o := OutcomeOf(env, Scr);
      && w.log == [Scr] && ScanReturned(w, o)
      && (w.inbox == [Scr] <==> o.Wrote? && o.output.scan == ScanCompleted)
  {
    var w := Fresh(plan, name, flow, context);
    var o := OutcomeOf(env, Scr);
    OneDispatched(w, Scr, env);
    ScanRuns(w, o);
    hide RunOne, Dispatched, Recovered;
    if o.Raised? {
      var ran := RunOne(w, Scr, o);
      RecoveredKeeps(ran.(record := ran.record.WithAgent(Scr, Errored)), STEP_ERROR, env.dbOk);
      RecoveredKeeps(Dispatched(w, [Scr], env).world, HANDLER_ERROR, env.retryOk);
    }
  }

  lemma OneDispatched(w: World, a: Agent, env: Env)
    ensures var o := OutcomeOf(env, a); var ran := RunOne(w, a, o);
      Dispatched(w, [a], env) == if !o.Raised? then Result(ran, false)
        else Result(Recovered(ran.(record := ran.record.WithAgent(a, Errored)), STEP_ERROR, env.dbOk), true)
  {
    hide RunOne, Recovered, OutcomeOf;
    assert [a][1..] == [];
    assert RunAll(RunOne(w, a, OutcomeOf(env, a)), [], env) == RunOne(w, a, OutcomeOf(env, a));
    assert FirstRaised([], env) == None;
    assert FirstRaised([a], env) == if OutcomeOf(env, a).Raised? then Some(a) else None;
  }

  lemma ScanRuns(w: World, o: Outcome)
    requires w.memory == map[] && w.row == None && w.record.status == InProgress && w.inbox == [] && w.log == []
    ensures RunOne(w, Scr, o).log == [Scr] && (o.Raised? ==> RunOne(w, Scr, o).inbox == [])
    ensures !o.Raised? ==> ScanReturned(RunOne(w, Scr, o), o)
  {
  }

  lemma RecoveredKeeps(w: World, reason: string, dbOk: bool)
    ensures var r := Recovered(w, reason, dbOk);
      r.record.agents == w.record.agents && r.log == w.log && r.inbox == w.inbox
        && r.record.status in {Failed, Completed}
        && r.record.context.error == Some(if r.record.status == Completed then reason else FINALIZE_ERROR)
  {
  }

  /**
   * Nothing after the scan is ever dispatched unless the scan has completed: in every exactly-once run of a
   * workflow that starts with one, a scan tool that returns without a status, still running, failed or
   * raising is the end of the run.
   */
  lemma {:induction false} ScanGatesAll(
    plan: Plan, name: WorkflowName, flow: Flow, context: Context, env: Env, es: seq<Event>)
    requires StartsWithScan(plan, flow) && Consumes(plan, Started(plan, Fresh(plan, name, flow, context), env), es)
    requires var o := OutcomeOf(env, Scr); !(o.Wrote? && o.output.scan == ScanCompleted)
    ensures es == [] && Exec(plan, Started(plan, Fresh(plan, name, flow, context), env), es).log == [Scr]
  {
    hide Started, Apply;
    var w0 := Started(plan, Fresh(plan, name, flow, context), env);
    ScanDecides(plan, name, flow, context, env);
    if es != [] {
      ScanGatesAll(plan, name, flow, context, env, es[..|es| - 1]);
    }
  }

  /**
   * A completion of SCR that arrives over an unfinished scan: a name that requires SCR dispatches nothing
   * and ends the workflow, COMPLETED with the unfinished output stored when Postgres takes it and FAILED
   * otherwise; any other name goes on to the next step of its plan.
   */
  lemma {:induction false} UnfinishedScanEvent(plan: Plan, w: World, env: Env)
    requires w.record.FollowsPlan() && !w.record.paused && w.record.context.pendingPause == None
    requires w.record.step + 1 < |plan| && plan[w.record.step] == [Scr] && plan[w.record.step + 1] != []
    requires Scr in w.memory && w.memory[Scr].scan != ScanCompleted
    requires !Escalates(w, w.memory[Scr].surface)
    ensures var w' := Handled(plan, w, Scr, env); var name := w.record.name;
      && w'.log == (if ScrRequired(name) then w.log else w.log + plan[w.record.step + 1])
      && (ScrRequired(name) && env.dbOk ==> Left(w') == (Completed, map[], StoredRow(name, w.memory)))
      && (ScrRequired(name) && !env.dbOk ==> Left(w') == (Failed, w.memory, w.row))
      && (ScrRequired(name) ==> w'.record.context.error.Some? && StatusOf(w', Scr) == Some(Done))
  {
    var done, s := w.(record := w.record.WithAgent(Scr, Done)), w.memory[Scr].surface;
    if ScrRequired(w.record.name) {
      RecoveredLeft(done, SCAN_ERROR, env.dbOk);
      RecoveredCourse(done, SCAN_ERROR, env.dbOk);
    } else {
      hide Dispatched, Recovered, ShouldEscalate, Finalized;
      SameEscalation(w.record, done.record, s);
      assert Escalated(done, s) == done && Gated(done) == done;
      assert done.record.(context := done.record.context.(pendingPause := None)) == done.record;
      var next := done.(record := done.record.(step := w.record.step + 1));
      assert PlanNext(plan, done, done.record, Scr, s) == Planned(next, plan[w.record.step + 1], false);
      DispatchedCourse(next, plan[w.record.step + 1], env);
      RecoveredCourse(Dispatched(next, plan[w.record.step + 1], env).world, HANDLER_ERROR, env.retryOk);
    }
  }

  /**
   * A completion with output that does not take a workflow off its plan moves it on exactly when every other
   * agent of the step is DONE or FAILED and there is a next step, which it then dispatches unless the
   * workflow is paused.
   */
  lemma {:induction false} AdvancesExactly(plan: Plan, w: World, a: Agent, env: Env)
    requires w.record.FollowsPlan() && w.record.step < |plan| && w.record.context.pendingPause == None
    requires a in w.memory && !Escalates(w, w.memory[a].surface)
    requires a == Scr && ScrRequired(w.record.name) ==> w.memory[Scr].scan == ScanCompleted
    requires w.record.step + 1 < |plan| ==> plan[w.record.step + 1] != []
    ensures var w' := Handled(plan, w, a, env); var k := w.record.step;
      var moves := k + 1 < |plan| && forall b :: b in plan[k] && b != a ==>
        StatusOf(w, b) == Some(Done) || StatusOf(w, b) == Some(Errored);
      && w'.record.step == (if moves then k + 1 else k)
      && w'.log == (if moves && !w.record.paused then w.log + plan[k + 1] else w.log)
  {
    hide Continued, Recovered, ShouldEscalate, SameCourse;
    var done, s := w.(record := w.record.WithAgent(a, Done)), w.memory[a].surface;
    SameEscalation(w.record, done.record, s);
    assert Escalated(done, s) == done && Gated(done) == done;
    assert done.record.(context := done.record.context.(pendingPause := None)) == done.record;
    forall b ensures done.record.Finished(b) <==>
      b == a || StatusOf(w, b) == Some(Done) || StatusOf(w, b) == Some(Errored) { }
    var p := PlanNext(plan, done, done.record, a, s);
    ContinuedLogs(p.world, p.next, w.record.paused, a, s, env);
  }

  lemma ContinuedLogs(w: World, next: seq<Agent>, paused: bool, a: Agent, s: Surface, env: Env)
    ensures var r := Continued(w, next, paused, a, s, env).world; var left := Recovered(r, HANDLER_ERROR, env.retryOk);
      && r.log == left.log == (if paused then w.log else w.log + next)
      && r.record.step == left.record.step == w.record.step
  {
    hide Dispatched, Recovered;
    DispatchedCourse(w, next, env);
    ContinuedCourse(w, next, paused, a, s, env);
    RecoveredCourse(Continued(w, next, paused, a, s, env).world, HANDLER_ERROR, env.retryOk);
    if next == [] { assert w.log + next == w.log; }
  }

  /**
   * A completion that finds the step index beyond the plan, as a shortened definition leaves it, raises: the
   * workflow is finalized by the exception path and nothing is dispatched.
   */
  lemma {:induction false} StepBeyondPlan(plan: Plan, w: World, a: Agent, env: Env)
    requires w.record.FollowsPlan() && plan != [] && w.record.step >= |plan| && a in w.memory
    requires !Escalates(w, w.memory[a].surface) && w.record.context.pendingPause == None
    requires a == Scr && ScrRequired(w.record.name) ==> w.memory[Scr].scan == ScanCompleted
    ensures var w' := Handled(plan, w, a, env); var name := w.record.name;
      && w'.log == w.log && w'.record.step == w.record.step
      && (env.retryOk && (ScrRequired(name) ==> Scr in w.memory) ==>
            Left(w') == (Completed, map[], StoredRow(name, w.memory)))
      && (!env.retryOk || (ScrRequired(name) && Scr !in w.memory) ==> Left(w') == (Failed, w.memory, w.row))
  {
    hide Recovered, ShouldEscalate;
    var done, s := w.(record := w.record.WithAgent(a, Done)), w.memory[a].surface;
    SameEscalation(w.record, done.record, s);
    assert Escalated(done, s) == done && Gated(done) == done;
    assert done.record.(context := done.record.context.(pendingPause := None)) == done.record;
    assert PlanNext(plan, done, done.record, a, s) == Planned(done, [], true);
    RecoveredLeft(done, HANDLER_ERROR, env.retryOk);
    RecoveredCourse(done, HANDLER_ERROR, env.retryOk);
  }

  // ---------------------------------------------------------------- raising and silent agents

  /** The first agent of a list that raises. */
  ghost predicate RaisesFirst(agents: seq<Agent>, env: Env, i: nat) {
    && i < |agents| && OutcomeOf(env, agents[i]).Raised?
    && forall j :: 0 <= j < i ==> !OutcomeOf(env, agents[j]).Raised?
  }

  lemma {:induction false} FirstRaisedIs(agents: seq<Agent>, env: Env, i: nat)
    requires RaisesFirst(agents, env, i)
    ensures FirstRaised(agents, env) == Some(agents[i])
  {
    if i > 0 { FirstRaisedIs(agents[1..], env, i - 1); }
  }

  lemma {:induction false} NoneRaised(agents: seq<Agent>, env: Env)
    requires forall i :: 0 <= i < |agents| ==> !OutcomeOf(env, agents[i]).Raised?
    ensures FirstRaised(agents, env) == None
  {
    if agents != [] { NoneRaised(agents[1..], env); }
  }

  /**
   * When no agent of a step raises, all of them are RUNNING and their events wait. When some do, the first
   * in the plan's order is the only one marked FAILED: the others stay RUNNING, raising ones included, and
   * the events of those that did not raise still wait in a workflow that has been failed and finalized.
   */
  lemma {:induction false} OnlyFirstIsMarked(w: World, agents: seq<Agent>, env: Env, i: nat)
    requires Scr !in agents && RaisesFirst(agents, env, i)
    ensures var r := Dispatched(w, agents, env);
      && r.raised && r.world.record.status in {Failed, Completed}
      && r.world.record.context.error
           == Some(if r.world.record.status == Completed then STEP_ERROR else FINALIZE_ERROR)
      && (forall b :: b in agents ==>
            StatusOf(r.world, b) == Some(if b == agents[i] then Errored else Running))
      && (forall b :: b !in agents ==> StatusOf(r.world, b) == StatusOf(w, b))
      && multiset(r.world.inbox) == multiset(w.inbox) + Published(agents, env)
  {
    hide RunAll, Published;
    FirstRaisedIs(agents, env, i);
    RunAllEnds(w, agents, env);
    var ran := RunAll(w, agents, env);
    RecoveredKeeps(ran.(record := ran.record.WithAgent(agents[i], Errored)), STEP_ERROR, env.dbOk);
  }

  lemma {:induction false} AllRun(w: World, agents: seq<Agent>, env: Env)
    requires Scr !in agents && forall i :: 0 <= i < |agents| ==> !OutcomeOf(env, agents[i]).Raised?
    ensures var r := Dispatched(w, agents, env);
      && !r.raised && r.world.record.status == w.record.status
      && (forall b :: b in agents ==> StatusOf(r.world, b) == Some(Running))
      && multiset(r.world.inbox) == multiset(w.inbox) + multiset(agents)
  {
    hide RunAll;
    NoneRaised(agents, env);
    RunAllEnds(w, agents, env);
    PickedAll(agents, seq(|agents|, i requires 0 <= i < |agents| => !OutcomeOf(env, agents[i]).Raised?));
  }

  /** What each agent of a step leaves in memory; one that raises may have written before. */
  lemma {:induction false} OutputsLeft(w: World, agents: seq<Agent>, env: Env, b: Agent)
    requires Scr !in agents
    ensures var left, o := At(RunAll(w, agents, env).memory, b), OutcomeOf(env, b);
      && (b !in agents ==> left == At(w.memory, b))
      && (b in agents && o.Wrote? ==> left == Some(o.output))
      && (b in agents && o.Raised? ==> left == if o.left.Some? then o.left else At(w.memory, b))
      && (b in agents && o.Silent? ==>
            left == if b in w.memory || b in {Web, Asm, CloudSec} then At(w.memory, b) else Some(DEFAULT_OUTPUT))
  {
    RunAllEnds(w, agents, env);
  }

  lemma {:induction false} RunAllRecord(w: World, agents: seq<Agent>, env: Env)
    ensures var r := RunAll(w, agents, env).record; r == w.record.(agents := r.agents)
    decreases |agents|
  {
    hide RunOne, OutcomeOf;
    if agents != [] {
      RunOneRecord(w, agents[0], OutcomeOf(env, agents[0]));
      RunAllRecord(RunOne(w, agents[0], OutcomeOf(env, agents[0])), agents[1..], env);
    }
  }

  lemma RunOneRecord(w: World, a: Agent, o: Outcome)
    ensures var r := RunOne(w, a, o).record; r == w.record.(agents := r.agents)
  {
  }

  /**
   * A pause that is pending when a completion arrives holds nothing back: the next agents are dispatched all
   * the same, because the copy loaded before it does not know of it; and where the plan moves on, saving
   * that copy undoes the pause.
   */
  lemma {:induction false} PendingPauseHoldsNothing(plan: Plan, w: World, a: Agent, next: seq<Agent>, env: Env)
    requires w.record.context.pendingPause.Some? && !w.record.paused && a in w.memory && next != []
    requires !(w.record.FollowsPlan() && Escalates(w, w.memory[a].surface))
    requires a == Scr && ScrRequired(w.record.name) && w.record.FollowsPlan() ==> w.memory[Scr].scan == ScanCompleted
    requires w.record.FollowsPlan() ==>
      Advances(plan, w.record.WithAgent(a, Done)) && next == plan[w.record.step + 1]
    requires !w.record.FollowsPlan() ==> next == Route(w.record, a, w.memory[a].surface)
    requires FirstRaised(next, env) == None
    ensures var w' := Handled(plan, w, a, env);
      && w'.log == w.log + next
      && (w.record.FollowsPlan() ==>
            !w'.record.paused && w'.record.status == w.record.status && w'.record.context.pendingPause == None)
      && (!w.record.FollowsPlan() ==>
            && w'.record.paused && w'.record.status == Paused
            && w'.record.pauseReason == w'.record.context.pendingPause == w.record.context.pendingPause)
  {
    hide RunAll, ShouldEscalate, Route, Recovered;
    var done, s := w.(record := w.record.WithAgent(a, Done)), w.memory[a].surface;
    SameEscalation(w.record, done.record, s);
    assert Escalated(done, s) == done;
    var local := done.record.(context := done.record.context.(pendingPause := None));
    PendingRoute(w.record, local, a, s);
    assert forall b :: local.Finished(b) <==> done.record.Finished(b);
    var p := PlanNext(plan, Gated(done), local, a, s);
    assert p.next == next && !p.raised;
    RunAllCourse(p.world, next, env);
    RunAllRecord(p.world, next, env);
  }

  lemma PendingRoute(r: WorkflowState, local: WorkflowState, a: Agent, s: Surface)
    requires local.flow == r.flow && local.context.incident == r.context.incident
    ensures Route(local, a, s) == Route(r, a, s)
  {
  }

  /**
   * An agent that finishes without output: Web, ASM and CloudSec leave none, so their completion is marked
   * and starts nothing; CMA and reporting get one of low risk, so a report that wrote nothing lets the
   * workflow complete without asking anyone.
   */
  lemma {:induction false} SilentAgent(plan: Plan, w: World, a: Agent, env: Env)
    requires a != Scr && !a.Other? && a !in w.memory
    ensures var r := RunOne(w, a, Silent);
      && r.inbox == w.inbox + [a] && r.log == w.log + [a]
      && (a in {Web, Asm, CloudSec} ==>
            r.memory == w.memory && Handled(plan, r, a, env) == r.(record := r.record.WithAgent(a, Done)))
      && (a in {Cma, Reporting} ==>
            && r.memory == w.memory[a := Output(Surface(10, Low, false, 0, 0, false, None), NoStatus)]
            && (Scr in w.memory && a == Reporting ==>
                  Ended(r, a, r.memory[a].surface, true).world.record.status == Completed))
  {
    if Scr in w.memory && a == Reporting {
      EndIsOver(RunOne(w, a, Silent), a, RunOne(w, a, Silent).memory[a].surface);
    }
  }
}
