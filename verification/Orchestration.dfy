/**
 * The workflow engine driven by agent.complete events (backend/orchestrator/orchestrator.py and
 * skill_controller.py), with the scripted plan. The functions say what one handled event does to
 * the records of one workflow; the class does it field by field, as the source does.
 */
module Orchestration {
  import opened Sequences
  import opened Workflow
  import opened Finalizer

  /** Everything the engine keeps for one workflow; inbox holds completion events not yet handled. */
  datatype World = World(record: WorkflowState, memory: Memory, row: Option<Row>, log: seq<Agent>, inbox: seq<Agent>)

  /** How running an agent's tool ends; a raising agent may have left output behind. */
  datatype Outcome = Wrote(output: Output) | Silent | Raised(left: Option<Output>)

  /**
   * What the outside does during one handler: the agents it runs, and whether Postgres takes the
   * upsert; retryOk says so for the second one, which a handler makes only after an exception.
   */
  datatype Env = Env(outcomes: map<Agent, Outcome>, dbOk: bool, retryOk: bool)

  datatype Result = Result(world: World, raised: bool)

  const STEP_ERROR := "Agent step failed"
  const HANDLER_ERROR := "skill progression failed"
  const FINALIZE_ERROR := "finalization failed"
  const SCAN_ERROR := "SCR scan did not complete"
  const APPROVAL_REASON := "Requires human approval"

  /** What _notify_agent_complete writes for an agent that finished without a surface. */
  const DEFAULT_OUTPUT := Output(Surface(10, Low, false, 0, 0, false, None), NoStatus)

  function OutcomeOf(env: Env, a: Agent): Outcome {
    if a in env.outcomes then env.outcomes[a] else Raised(None)
  }

  /** Orchestrator._finalize. */
  function Finalized(w: World, dbOk: bool): Result {
    var (row, raised) := Persist(Some(w.record.name), w.memory, w.row, dbOk, None);
    if raised then Result(w.(row := row, record := w.record.Fail(FINALIZE_ERROR)), true)
    else Result(w.(row := row, memory := map[], record := w.record.Complete()), false)
  }

  /** The exception path: mark the workflow failed, then finalize it all the same. */
  function Recovered(w: World, reason: string, dbOk: bool): World {
    Finalized(w.(record := w.record.Fail(reason)), dbOk).world
  }

  function Notified(w: World, a: Agent): World {
    if a == Scr then
      if Scr !in w.memory || w.memory[Scr].scan in {NoStatus, ScanRunning} then
        w.(record := w.record.WithAgent(Scr, Errored))
      else if w.memory[Scr].scan == ScanCompleted then w.(inbox := w.inbox + [Scr])
      else w
    else if a !in w.memory && a !in {Web, Asm, CloudSec} then
      w.(memory := w.memory[a := DEFAULT_OUTPUT], inbox := w.inbox + [a])
    else w.(inbox := w.inbox + [a])
  }

  function RunOne(w: World, a: Agent, o: Outcome): World {
    var started := w.(record := w.record.WithAgent(a, Running), log := w.log + [a]);
    match o
    case Wrote(out) => Notified(started.(memory := started.memory[a := out]), a)
    case Silent => Notified(started, a)
    case Raised(left) => if left.Some? then started.(memory := started.memory[a := left.value]) else started
  }

  /** All agents of a step, gathered: a raising one does not stop the others. */
  function RunAll(w: World, agents: seq<Agent>, env: Env): World
    decreases |agents|
  {
    if agents == [] then w else RunAll(RunOne(w, agents[0], OutcomeOf(env, agents[0])), agents[1..], env)
  }

  function FirstRaised(agents: seq<Agent>, env: Env): Option<Agent> {
    if agents == [] then None
    else if OutcomeOf(env, agents[0]).Raised? then Some(agents[0])
    else FirstRaised(agents[1..], env)
  }

  function Dispatched(w: World, agents: seq<Agent>, env: Env): Result {
    var ran := RunAll(w, agents, env);
    match FirstRaised(agents, env)
    case None => Result(ran, false)
    case Some(a) => Result(Recovered(ran.(record := ran.record.WithAgent(a, Errored)), STEP_ERROR, env.dbOk), true)
  }

  predicate StepFinished(plan: Plan, r: WorkflowState)
    requires r.step < |plan|
  {
    forall a :: a in plan[r.step] ==> r.Finished(a)
  }

  predicate Advances(plan: Plan, r: WorkflowState) {
    r.step + 1 < |plan| && StepFinished(plan, r)
  }

  /** No next agents: pause after a report that asks for approval, finalize otherwise. */
  function Ended(w: World, a: Agent, s: Surface, dbOk: bool): Result {
    if a == Reporting && s.requiresHuman then
      var (row, raised) := Persist(Some(w.record.name), w.memory, w.row, dbOk, None);
      if raised then Result(w.(row := row), true)
      else Result(w.(row := row, record := w.record.Pause(APPROVAL_REASON)), false)
    else Finalized(w, dbOk)
  }

  /** next may be empty; paused is the flag of the copy loaded when the event arrived. */
  function Continued(w: World, next: seq<Agent>, paused: bool, a: Agent, s: Surface, env: Env): Result {
    if next == [] then Ended(w, a, s, env.dbOk)
    else if paused then Result(w, false)
    else Dispatched(w, next, env)
  }

  datatype Planned = Planned(world: World, next: seq<Agent>, raised: bool)

  /** The gate of a pending pause; only the store sees it, not the loaded copy. */
  function Gated(w: World): World {
    match w.record.context.pendingPause
    case None => w
    case Some(reason) => w.(record := w.record.Pause(reason))
  }

  /** The scripted plan after a completion; local is the loaded copy, and saving it undoes a pause. */
  function PlanNext(plan: Plan, w: World, local: WorkflowState, a: Agent, s: Surface): Planned {
    if !local.FollowsPlan() then Planned(w, Route(local, a, s), false)
    else if plan != [] && local.step >= |plan| then Planned(w, [], true)
    else if Advances(plan, local) then
      Planned(w.(record := local.(step := local.step + 1)), plan[local.step + 1], false)
    else Planned(w, [], false)
  }

  /** run_after_agent_complete. */
  function Progressed(plan: Plan, w: World, a: Agent, s: Surface, env: Env): Result {
    var p := PlanNext(plan, Gated(w), w.record.(context := w.record.context.(pendingPause := None)), a, s);
    if p.raised then Result(p.world, true) else Continued(p.world, p.next, w.record.paused, a, s, env)
  }

  /** The escalation of a fixed flow whose name does not require SCR. */
  function Escalated(w: World, s: Surface): World {
    if w.record.FollowsPlan() && ShouldEscalate(s, w.record) && !ScrRequired(w.record.name)
    then w.(record := w.record.Escalate()) else w
  }

  /** Orchestrator.on_agent_complete on an existing workflow. */
  function Handled(plan: Plan, w: World, a: Agent, env: Env): World {
    var done := w.(record := w.record.WithAgent(a, Done));
    if a !in done.memory then done
    else if done.record.FollowsPlan() && ScrRequired(done.record.name)
      && a == Scr && done.memory[Scr].scan != ScanCompleted then
      Recovered(done, SCAN_ERROR, env.dbOk)
    else
      var s := done.memory[a].surface;
      var p := Progressed(plan, Escalated(done, s), a, s, env);
      if p.raised then Recovered(p.world, HANDLER_ERROR, env.retryOk) else p.world
  }

  /** The record start_workflow saves. */
  function FreshRecord(plan: Plan, name: WorkflowName, flow: Flow, context: Context): WorkflowState {
    WorkflowState(name, flow, map a | a in Flatten(plan) :: Pending, 0, false, None, None, false, InProgress, context)
  }

  function Fresh(plan: Plan, name: WorkflowName, flow: Flow, context: Context): World {
    World(FreshRecord(plan, name, flow, context), map[], None, [], [])
  }

  function FirstAgents(plan: Plan, flow: Flow): seq<Agent> {
    if flow == Fixed && plan != [] then plan[0] else [Scr]
  }

  /** execute_workflow on a fresh record. */
  function Started(plan: Plan, w: World, env: Env): World {
    var next := FirstAgents(plan, w.record.flow);
    var r := if next == [] then Finalized(w, env.dbOk) else Dispatched(w, next, env);
    if r.raised then Recovered(r.world, HANDLER_ERROR, env.retryOk) else r.world
  }

  /** approve_workflow: resume and finalize, whatever the status was. */
  function Approved(w: World, approver: string, dbOk: bool): World {
    Finalized(w.(record := w.record.Resume(approver)), dbOk).world
  }

  // ---------------------------------------------------------------- the engine itself

  class Orchestrator {
    const plan: Plan
    const store: WorkflowStateStore
    const finalizer: WorkflowFinalizer
    var triggerLog: seq<Agent>
    var published: seq<Agent>

    ghost predicate Wired() { finalizer.store == store }

    ghost function Records(): World
      reads this, store, finalizer
      requires store.saved.Some?
    {
      World(store.saved.value, finalizer.memory, finalizer.row, triggerLog, published)
    }

    constructor (plan: Plan, store: WorkflowStateStore, finalizer: WorkflowFinalizer)
      requires finalizer.store == store
      ensures Wired() && this.plan == plan && this.store == store && this.finalizer == finalizer
      ensures triggerLog == [] && published == []
    {
      this.plan, this.store, this.finalizer := plan, store, finalizer;
      triggerLog, published := [], [];
    }

    method FinalizeWorkflow(dbOk: bool) returns (raised: bool)
      requires Wired() && store.saved.Some?
      modifies this, store, finalizer
      ensures store.saved.Some? && Result(Records(), raised) == Finalized(old(Records()), dbOk)
    {
      raised := finalizer.Finalize(store.saved.value.name, dbOk, None);
      if raised { store.Fail(FINALIZE_ERROR); }
    }

    method FailAndFinalize(reason: string, dbOk: bool)
      requires Wired() && store.saved.Some?
      modifies this, store, finalizer
      ensures store.saved.Some? && Records() == Recovered(old(Records()), reason, dbOk)
    {
      store.Fail(reason);
      var _ := FinalizeWorkflow(dbOk);
    }

    method NotifyAgentComplete(a: Agent)
      requires Wired() && store.saved.Some?
      modifies this, store, finalizer
      ensures store.saved.Some? && Records() == Notified(old(Records()), a)
    {
      if a == Scr {
        if Scr !in finalizer.memory || finalizer.memory[Scr].scan in {NoStatus, ScanRunning} {
          store.MarkAgent(Scr, Errored);
          return;
        }
        if finalizer.memory[Scr].scan != ScanCompleted { return; }
      } else if a !in finalizer.memory && a !in {Web, Asm, CloudSec} {
        finalizer.memory := finalizer.memory[a := DEFAULT_OUTPUT];
      }
      published := published + [a];
    }

    method RunTool(a: Agent, o: Outcome)
      requires Wired() && store.saved.Some?
      modifies this, store, finalizer
      ensures store.saved.Some? && Records() == RunOne(old(Records()), a, o)
    {
      store.MarkAgent(a, Running);
      triggerLog := triggerLog + [a];
      match o
      case Wrote(out) =>
        finalizer.memory := finalizer.memory[a := out];
        NotifyAgentComplete(a);
      case Silent =>
        NotifyAgentComplete(a);
      case Raised(left) =>
        if left.Some? { finalizer.memory := finalizer.memory[a := left.value]; }
    }

    /** execute_agent_tools inside _trigger_agents_via_skill. */
    method TriggerAgents(agents: seq<Agent>, env: Env) returns (raised: bool)
      requires Wired() && store.saved.Some?
      modifies this, store, finalizer
      ensures store.saved.Some? && Result(Records(), raised) == Dispatched(old(Records()), agents, env)
    {
      var i := 0;
      var failed: Option<Agent> := None;
      while i < |agents|
        invariant 0 <= i <= |agents|
        invariant store.saved.Some?
        invariant RunAll(Records(), agents[i..], env) == RunAll(old(Records()), agents, env)
        invariant FirstRaised(agents, env) == if failed.Some? then failed else FirstRaised(agents[i..], env)
      {
        assert agents[i..][0] == agents[i] && agents[i..][1..] == agents[i + 1..];
        RunTool(agents[i], OutcomeOf(env, agents[i]));
        if failed.None? && OutcomeOf(env, agents[i]).Raised? {
          failed := Some(agents[i]);
        }
        i := i + 1;
      }
      if failed.Some? {
        store.MarkAgent(failed.value, Errored);
        FailAndFinalize(STEP_ERROR, env.dbOk);
      }
      return failed.Some?;
    }

    method EndOrPause(a: Agent, s: Surface, dbOk: bool) returns (raised: bool)
      requires Wired() && store.saved.Some?
      modifies this, store, finalizer
      ensures store.saved.Some? && Result(Records(), raised) == Ended(old(Records()), a, s, dbOk)
    {
      if a == Reporting && s.requiresHuman {
        raised := finalizer.PersistSnapshot(store.saved.value.name, dbOk, None);
        if !raised { store.Pause(APPROVAL_REASON); }
      } else {
        raised := FinalizeWorkflow(dbOk);
      }
    }

    method Continue(next: seq<Agent>, paused: bool, a: Agent, s: Surface, env: Env) returns (raised: bool)
      requires Wired() && store.saved.Some?
      modifies this, store, finalizer
      ensures store.saved.Some? && Result(Records(), raised) == Continued(old(Records()), next, paused, a, s, env)
    {
      if next == [] {
        raised := EndOrPause(a, s, env.dbOk);
      } else if paused {
        raised := false;
      } else {
        raised := TriggerAgents(next, env);
      }
    }

    /** _scripted_plan with _get_next_fixed_step: saves the copy it was given when it advances. */
    method PlanAgents(state: WorkflowState, a: Agent, s: Surface) returns (next: seq<Agent>, raised: bool)
      requires Wired() && store.saved.Some?
      modifies store
      ensures store.saved.Some?
      ensures Planned(Records(), next, raised) == PlanNext(plan, old(Records()), state, a, s)
    {
      if !(state.flow == Fixed && !state.escalated) {
        // The copy that evaluate may have marked is dropped here: nothing saves it.
        var local;
        next, local := Evaluate(state, a, s);
        return next, false;
      }
      if plan == [] { return [], false; }
      if state.step >= |plan| { return [], true; }
      if !StepFinished(plan, state) || state.step + 1 >= |plan| { return [], false; }
      store.Save(state.(step := state.step + 1));
      return plan[state.step + 1], false;
    }

    /** run_after_agent_complete: works on the copy it was given, as the source does. */
    method RunAfterAgentComplete(loaded: WorkflowState, a: Agent, s: Surface, env: Env) returns (raised: bool)
      requires Wired() && store.saved == Some(loaded)
      modifies this, store, finalizer
      ensures store.saved.Some? && Result(Records(), raised) == Progressed(plan, old(Records()), a, s, env)
    {
      var state := loaded;
      if state.context.pendingPause.Some? {
        store.Pause(state.context.pendingPause.value);
      }
      assert Records() == Gated(old(Records()));
      state := state.(context := state.context.(pendingPause := None));
      var next;
      next, raised := PlanAgents(state, a, s);
      if !raised {
        raised := Continue(next, state.paused, a, s, env);
      }
    }

    method OnAgentComplete(a: Agent, env: Env)
      requires Wired()
      modifies this, store, finalizer
      ensures old(store.saved).None? ==>
        store.saved.None? && (triggerLog, published, finalizer.memory, finalizer.row)
          == old((triggerLog, published, finalizer.memory, finalizer.row))
      ensures old(store.saved).Some? ==> store.saved.Some? && Records() == Handled(plan, old(Records()), a, env)
    {
      hide Recovered, Progressed, ShouldEscalate;
      if store.saved.None? { return; }
      store.MarkAgent(a, Done);
      if a !in finalizer.memory { return; }
      var surface := finalizer.memory[a].surface;
      ghost var done := Records();
      var state := store.saved.value;
      if state.flow == Fixed && !state.escalated {
        if ShouldEscalate(surface, state) && !ScrRequired(state.name) {
          store.EscalateToDynamic();
          state := store.saved.value;
        }
        if ScrRequired(state.name) && a == Scr && finalizer.memory[Scr].scan != ScanCompleted {
          FailAndFinalize(SCAN_ERROR, env.dbOk);
          return;
        }
      }
      assert Records() == Escalated(done, surface);
      var raised := RunAfterAgentComplete(state, a, surface, env);
      if raised { FailAndFinalize(HANDLER_ERROR, env.retryOk); }
    }

    method ExecuteWorkflow(env: Env)
      requires Wired() && store.saved.Some?
      modifies this, store, finalizer
      ensures store.saved.Some? && Records() == Started(plan, old(Records()), env)
    {
      var agents := FirstAgents(plan, store.saved.value.flow);
      var raised;
      if agents == [] {
        raised := FinalizeWorkflow(env.dbOk);
      } else {
        raised := TriggerAgents(agents, env);
      }
      if raised { FailAndFinalize(HANDLER_ERROR, env.retryOk); }
    }

    method ApproveWorkflow(approver: string, dbOk: bool)
      requires Wired()
      modifies this, store, finalizer
      ensures old(store.saved).None? ==>
        store.saved.None? && (triggerLog, published, finalizer.memory, finalizer.row)
          == old((triggerLog, published, finalizer.memory, finalizer.row))
      ensures old(store.saved).Some? ==> store.saved.Some? && Records() == Approved(old(Records()), approver, dbOk)
    {
      store.Resume(approver);
      if store.saved.Some? {
        var _ := FinalizeWorkflow(dbOk);
      }
    }
  }
}
