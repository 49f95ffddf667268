/** What the engine guarantees over whole runs of fixed plans. */
module FixedFlow {
  import opened Sequences
  import opened Workflow
  import opened Finalizer
  import opened Orchestration

  /**
   * first marks a delivery that consumes the published event; any other completion is a duplicate
   * or a stray one.
   */
  datatype Event = Complete(agent: Agent, first: bool, env: Env) | Approve(approver: string, dbOk: bool)

  function Apply(plan: Plan, w: World, e: Event): World {
    match e
    case Complete(a, first, env) =>
      Handled(plan, if first then w.(inbox := RemoveFirst(w.inbox, a)) else w, a, env)
    case Approve(approver, dbOk) => Approved(w, approver, dbOk)
  }

  function Exec(plan: Plan, w: World, es: seq<Event>): World {
    if es == [] then w else Apply(plan, Exec(plan, w, es[..|es| - 1]), es[|es| - 1])
  }

  // ---------------------------------------------------------------- the barrier

  /** Dispatching a step leaves the course of the workflow alone, and approves nothing. */
  ghost predicate SameCourse(r: WorkflowState, r': WorkflowState) {
    && r'.name == r.name && r'.step == r.step && r'.flow == r.flow && r'.escalated == r.escalated
    && r'.approvedBy == r.approvedBy
  }

  lemma RunOneCourse(w: World, a: Agent, o: Outcome)
    ensures var w' := RunOne(w, a, o); w'.log == w.log + [a] && SameCourse(w.record, w'.record) && w'.row == w.row
  {
  }

  lemma {:induction false} RunAllCourse(w: World, agents: seq<Agent>, env: Env)
    ensures var w' := RunAll(w, agents, env);
      w'.log == w.log + agents && SameCourse(w.record, w'.record) && w'.row == w.row
    decreases |agents|
  {
    if agents != [] {
      var w1 := RunOne(w, agents[0], OutcomeOf(env, agents[0]));
      RunOneCourse(w, agents[0], OutcomeOf(env, agents[0]));
      RunAllCourse(w1, agents[1..], env);
      assert agents == [agents[0]] + agents[1..];
      assert (w.log + [agents[0]]) + agents[1..] == w.log + ([agents[0]] + agents[1..]);
    }
  }

  lemma DispatchedCourse(w: World, next: seq<Agent>, env: Env)
    ensures var w' := Dispatched(w, next, env).world; SameCourse(w.record, w'.record) && w'.log == w.log + next
  {
    RunAllCourse(w, next, env);
    var ran := RunAll(w, next, env);
    match FirstRaised(next, env)
    case None =>
    case Some(a) => RecoveredCourse(ran.(record := ran.record.WithAgent(a, Errored)), STEP_ERROR, env.dbOk);
  }

  lemma ContinuedCourse(w: World, next: seq<Agent>, paused: bool, a: Agent, s: Surface, env: Env)
    ensures var w' := Continued(w, next, paused, a, s, env).world;
      SameCourse(w.record, w'.record) && (w'.log == w.log || w'.log == w.log + next)
  {
    DispatchedCourse(w, next, env);
  }

  lemma RecoveredCourse(w: World, reason: string, dbOk: bool)
    ensures SameCourse(w.record, Recovered(w, reason, dbOk).record) && Recovered(w, reason, dbOk).log == w.log
  {
  }

  lemma PlanNextCourse(plan: Plan, w: World, local: WorkflowState, a: Agent, s: Surface)
    requires SameCourse(local, w.record)
    ensures var p := PlanNext(plan, w, local, a, s); var r := p.world.record;
      && p.world.log == w.log && r.approvedBy == w.record.approvedBy
      && r.name == w.record.name && (r.FollowsPlan() <==> w.record.FollowsPlan())
      && (r.step == w.record.step && r.FollowsPlan() ==> p.next == [])
      && (r.step != w.record.step ==>
            && r.step == w.record.step + 1 < |plan| && r.FollowsPlan()
            && StepFinished(plan, local) && p.next == plan[r.step])
  {
  }

  lemma ProgressedCourse(plan: Plan, w: World, a: Agent, s: Surface, env: Env)
    ensures var w' := Progressed(plan, w, a, s, env).world; var r := w'.record;
      && r.approvedBy == w.record.approvedBy && r.name == w.record.name && (r.FollowsPlan() <==> w.record.FollowsPlan())
      && (r.step == w.record.step && r.FollowsPlan() ==> w'.log == w.log)
      && (r.step != w.record.step ==>
            && r.step == w.record.step + 1 < |plan| && r.FollowsPlan() && StepFinished(plan, w.record)
            && (w'.log == w.log || w'.log == w.log + plan[r.step]))
  {
    var local := w.record.(context := w.record.context.(pendingPause := None));
    PlanNextCourse(plan, Gated(w), local, a, s);
    var p := PlanNext(plan, Gated(w), local, a, s);
    ContinuedCourse(p.world, p.next, w.record.paused, a, s, env);
    if p.next == [] { assert p.world.log + p.next == p.world.log; }
  }

  /**
   * What one event can do to the course of a fixed plan: nothing, leave the plan, or move on by one
   * step when the agents of the current one are finished in r, and then dispatch that step or not.
   */
  ghost predicate Moves(plan: Plan, w: World, r: WorkflowState, w': World) {
    && w'.record.name == w.record.name
    && (w'.record.FollowsPlan() ==> w.record.FollowsPlan())
    && (w'.record.step == w.record.step && w'.record.FollowsPlan() ==> w'.log == w.log)
    && (w'.record.step != w.record.step ==>
          && w'.record.step == w.record.step + 1 < |plan| && w'.record.FollowsPlan()
          && r.step == w.record.step && StepFinished(plan, r)
          && (w'.log == w.log || w'.log == w.log + plan[w'.record.step]))
  }

  /** One completion event, whatever agent it names and however its handling ends. */
  lemma HandledMoves(plan: Plan, w: World, a: Agent, env: Env)
    ensures Moves(plan, w, w.record.WithAgent(a, Done), Handled(plan, w, a, env))
    ensures Handled(plan, w, a, env).record.approvedBy == w.record.approvedBy
  {
    var done := w.(record := w.record.WithAgent(a, Done));
    if a in done.memory {
      var s := done.memory[a].surface;
      RecoveredCourse(done, SCAN_ERROR, env.dbOk);
      ProgressedCourse(plan, Escalated(done, s), a, s, env);
      RecoveredCourse(Progressed(plan, Escalated(done, s), a, s, env).world, HANDLER_ERROR, env.retryOk);
    }
  }

  ghost function SeenBy(w: World, e: Event): WorkflowState {
    match e case Complete(a, _, _) => w.record.WithAgent(a, Done) case Approve(_, _) => w.record
  }

  lemma ApplyMoves(plan: Plan, w: World, e: Event)
    ensures Moves(plan, w, SeenBy(w, e), Apply(plan, w, e))
    ensures e.Approve? ==> Apply(plan, w, e).record.step == w.record.step
    ensures e.Complete? ==> Apply(plan, w, e).record.approvedBy == w.record.approvedBy
  {
    if e.Complete? {
      HandledMoves(plan, if e.first then w.(inbox := RemoveFirst(w.inbox, e.agent)) else w, e.agent, e.env);
    }
  }

  /** The steps the events of a run dispatch, by number. */
  function Dispatches(plan: Plan, w: World, es: seq<Event>): seq<nat> {
    if es == [] then []
    else
      var before, after := Exec(plan, w, es[..|es| - 1]), Exec(plan, w, es);
      Dispatches(plan, w, es[..|es| - 1])
        + if after.record.step > before.record.step && after.log != before.log then [after.record.step] else []
  }

  function StepsOf(plan: Plan, ks: seq<nat>): seq<seq<Agent>>
    requires forall i :: 0 <= i < |ks| ==> ks[i] < |plan|
  {
    seq(|ks|, i requires 0 <= i < |ks| => plan[ks[i]])
  }

  lemma StepsOfSnoc(plan: Plan, ks: seq<nat>, k: nat)
    requires k < |plan| && forall i :: 0 <= i < |ks| ==> ks[i] < |plan|
    ensures StepsOf(plan, ks + [k]) == StepsOf(plan, ks) + [plan[k]]
  {
  }

  /** ks are the dispatched steps of w: increasing, reached, and all the trigger log consists of. */
  ghost predicate InOrder(plan: Plan, w: World, ks: seq<nat>) {
    && w.record.step < |plan|
    && (forall i :: 0 <= i < |ks| ==> ks[i] <= w.record.step)
    && (forall i, j :: 0 <= i < j < |ks| ==> ks[i] < ks[j])
    && (w.record.FollowsPlan() ==> w.log == Flatten(StepsOf(plan, ks)))
  }

  lemma MoveKeepsOrder(plan: Plan, w: World, r: WorkflowState, w': World, ks: seq<nat>)
    requires InOrder(plan, w, ks) && Moves(plan, w, r, w')
    ensures InOrder(plan, w', ks + if w'.record.step > w.record.step && w'.log != w.log then [w'.record.step] else [])
  {
    var k := w'.record.step;
    if k > w.record.step && w'.log != w.log {
      StepsOfSnoc(plan, ks, k);
      FlattenSnoc(StepsOf(plan, ks), plan[k]);
    } else {
      assert ks + [] == ks;
    }
  }

  /** What execute_workflow logs on a fresh record. */
  lemma StartedLog(plan: Plan, w: World, env: Env)
    requires plan != [] && w.record.flow == Fixed
    ensures var w' := Started(plan, w, env); SameCourse(w.record, w'.record) && w'.log == w.log + plan[0]
  {
    hide RunAll, Persist;
    DispatchedCourse(w, plan[0], env);
    if plan[0] == [] {
      assert w.log + plan[0] == w.log;
      RecoveredCourse(Finalized(w, env.dbOk).world, HANDLER_ERROR, env.retryOk);
    } else {
      RecoveredCourse(Dispatched(w, plan[0], env).world, HANDLER_ERROR, env.retryOk);
    }
  }

  lemma StartedCourse(plan: Plan, name: WorkflowName, context: Context, env: Env)
    requires plan != []
    ensures InOrder(plan, Started(plan, Fresh(plan, name, Fixed, context), env), [0])
    ensures var r := Started(plan, Fresh(plan, name, Fixed, context), env).record;
        r.name == name && r.approvedBy == None
  {
    StartedLog(plan, Fresh(plan, name, Fixed, context), env);
    StepsOfSnoc(plan, [], 0);
    FlattenSnoc([], plan[0]);
    assert StepsOf(plan, []) == [] && [] + [0] == [0];
  }

  /** Any events, in any order and number, keep the dispatches of a state in order. */
  lemma {:induction false} EventsKeepOrder(plan: Plan, w: World, ks: seq<nat>, es: seq<Event>)
    requires InOrder(plan, w, ks)
    ensures InOrder(plan, Exec(plan, w, es), ks + Dispatches(plan, w, es))
  {
    hide Apply, InOrder, Moves;
    if es == [] {
      assert ks + [] == ks;
    } else {
      var es', e := es[..|es| - 1], es[|es| - 1];
      var v, v' := Exec(plan, w, es'), Exec(plan, w, es);
      EventsKeepOrder(plan, w, ks, es');
      ApplyMoves(plan, v, e);
      MoveKeepsOrder(plan, v, SeenBy(v, e), v', ks + Dispatches(plan, w, es'));
      var more := if v'.record.step > v.record.step && v'.log != v.log then [v'.record.step] else [];
      assert ks + Dispatches(plan, w, es') + more == ks + (Dispatches(plan, w, es') + more);
    }
  }

  /**
   * In every run of a fixed plan, with any completion events in any order and number, any failures
   * and any approvals: steps are dispatched at most once and in order, the step index stays in
   * range, and while the plan is followed the trigger log is exactly the dispatched steps.
   */
  lemma {:induction false} FixedDispatchOrder(
    plan: Plan, name: WorkflowName, context: Context, env: Env, es: seq<Event>)
    requires plan != []
    ensures var w0 := Started(plan, Fresh(plan, name, Fixed, context), env);
      InOrder(plan, Exec(plan, w0, es), [0] + Dispatches(plan, w0, es))
  {
    hide InOrder, Started, Exec, Dispatches;
    StartedCourse(plan, name, context, env);
    EventsKeepOrder(plan, Started(plan, Fresh(plan, name, Fixed, context), env), [0], es);
  }

  /**
   * The barrier, in every state a run can reach and in any other: when an event moves the plan on to
   * step k + 1, every agent of step k is done or failed in the record that event has just updated.
   */
  lemma Barrier(plan: Plan, w: World, e: Event)
    ensures var w' := Apply(plan, w, e);
      w'.record.step != w.record.step ==>
        && w'.record.step == w.record.step + 1 < |plan| && e.Complete?
        && StepFinished(plan, w.record.WithAgent(e.agent, Done))
  {
    hide Apply;
    ApplyMoves(plan, w, e);
  }

  /** The step index never decreases, whatever events come. */
  lemma {:induction false} StepNeverDecreases(plan: Plan, w: World, es: seq<Event>)
    ensures Exec(plan, w, es).record.step >= w.record.step
  {
    hide Apply;
    if es != [] {
      StepNeverDecreases(plan, w, es[..|es| - 1]);
      ApplyMoves(plan, Exec(plan, w, es[..|es| - 1]), es[|es| - 1]);
    }
  }
}
