/** Whole runs in which every step's agents interleave agree with those that run them in turn. */
module InterleavedRuns {
  import opened Sequences
  import opened Workflow
  import opened Finalizer
  import opened Orchestration
  import opened FixedFlow
  import opened ExactlyOnce
  import opened Interleaving

  /** How a dispatch ends that schedules its agents in some way. */
  type Dispatch = (World, seq<Agent>, Env) -> Result

  /** What execute_agent_tools does once all its agents have come to an end. */
  function Gathered(ran: World, agents: seq<Agent>, env: Env): Result {
    match FirstRaised(agents, env)
    case None => Result(ran, false)
    case Some(a) => Result(Recovered(ran.(record := ran.record.WithAgent(a, Errored)), STEP_ERROR, env.dbOk), true)
  }

  /** A dispatch by some schedule of all its agents' operations; SCR, which is always dispatched alone, runs in one. */
  ghost predicate Schedules(d: Dispatch, w: World, agents: seq<Agent>, env: Env) {
    if Scr in agents then d(w, agents, env) == Dispatched(w, agents, env)
    else exists schedule :: EndsBy(w, agents, env, schedule, d(w, agents, env))
  }

  ghost predicate EndsBy(w: World, agents: seq<Agent>, env: Env, schedule: seq<nat>, r: Result) {
    var g := Steps(Start(w, agents), agents, env, schedule);
    AllOver(g) && r == Gathered(g.world, agents, env)
  }

  ghost predicate Interleaves(d: Dispatch) { forall w, agents, env :: Schedules(d, w, agents, env) }

  /** Running the agents in turn is one of the schedules. */
  lemma InTurnInterleaves()
    ensures Interleaves((w, agents, env) => Dispatched(w, agents, env))
  {
    hide RunAll, Recovered, AllOver, Steps, Start, InTurn;
    var d: Dispatch := (w, agents, env) => Dispatched(w, agents, env);
    forall w, agents, env ensures Schedules(d, w, agents, env) {
      if Scr !in agents {
        InTurnIsRunAll(w, agents, env);
        assert EndsBy(w, agents, env, InTurn(|agents|), d(w, agents, env));
      }
    }
  }

  // ---------------------------------------------------------------- the handler with its dispatch left open

  function ContinuedBy(d: Dispatch, w: World, next: seq<Agent>, paused: bool, a: Agent, s: Surface, env: Env): Result {
    if next == [] then Ended(w, a, s, env.dbOk) else if paused then Result(w, false) else d(w, next, env)
  }

  function ProgressedBy(d: Dispatch, plan: Plan, w: World, a: Agent, s: Surface, env: Env): Result {
    var p := PlanNext(plan, Gated(w), w.record.(context := w.record.context.(pendingPause := None)), a, s);
    if p.raised then Result(p.world, true) else ContinuedBy(d, p.world, p.next, w.record.paused, a, s, env)
  }

  function HandledBy(d: Dispatch, plan: Plan, w: World, a: Agent, env: Env): World {
    var done := w.(record := w.record.WithAgent(a, Done));
    if a !in done.memory then done
    else if done.record.FollowsPlan() && ScrRequired(done.record.name)
      && a == Scr && done.memory[Scr].scan != ScanCompleted then
      Recovered(done, SCAN_ERROR, env.dbOk)
    else
      var s := done.memory[a].surface;
      var p := ProgressedBy(d, plan, Escalated(done, s), a, s, env);
      if p.raised then Recovered(p.world, HANDLER_ERROR, env.retryOk) else p.world
  }

  function ApplyBy(d: Dispatch, plan: Plan, w: World, e: Event): World {
    match e
    case Complete(a, first, env) =>
      HandledBy(d, plan, if first then w.(inbox := RemoveFirst(w.inbox, a)) else w, a, env)
    case Approve(approver, dbOk) => Approved(w, approver, dbOk)
  }

  /** A run whose dispatches are scheduled each in its own way. */
  function ExecBy(ds: seq<Dispatch>, plan: Plan, w: World, es: seq<Event>): World
    requires |ds| == |es|
  {
    if es == [] then w
    else ApplyBy(ds[|es| - 1], plan, ExecBy(ds[..|es| - 1], plan, w, es[..|es| - 1]), es[|es| - 1])
  }

  function StartedBy(d: Dispatch, plan: Plan, w: World, env: Env): World {
    var next := FirstAgents(plan, w.record.flow);
    var r := if next == [] then Finalized(w, env.dbOk) else d(w, next, env);
    if r.raised then Recovered(r.world, HANDLER_ERROR, env.retryOk) else r.world
  }

  // ---------------------------------------------------------------- worlds that go on alike

  type Statuses = map<Agent, AgentStatus>

  predicate Finishes(m: Statuses, a: Agent) { a in m && m[a] in {Done, Errored} }

  ghost predicate SameEnd(m: Statuses, m': Statuses, a: Agent) {
    (Finishes(m, a) <==> Finishes(m', a)) && (Finishes(m, a) ==> m[a] == m'[a])
  }

  ghost predicate SameEnds(m: Statuses, m': Statuses) { forall a :: SameEnd(m, m', a) }

  lemma MarkedEnds(m: Statuses, m': Statuses, a: Agent, s: AgentStatus)
    requires SameEnds(m, m')
    ensures SameEnds(m[a := s], m'[a := s])
  {
    var n, n' := m[a := s], m'[a := s];
    forall b ensures SameEnd(n, n', b) { assert SameEnd(m, m', b); }
  }

  /**
   * The same but for the order of log and events and for the statuses of agents that are not finished;
   * a rule-routed workflow reads no status at all.
   */
  ghost predicate Alike(w: World, w': World) {
    && w'.record == w.record.(agents := w'.record.agents)
    && (w.record.FollowsPlan() ==> SameEnds(w.record.agents, w'.record.agents))
    && w'.memory == w.memory && w'.row == w.row
    && multiset(w'.log) == multiset(w.log) && multiset(w'.inbox) == multiset(w.inbox)
  }

  /** Finalizing leaves alone the statuses of agents. */
  lemma FinalizedAlike(w: World, w': World, dbOk: bool)
    requires Alike(w, w')
    ensures Alike(Finalized(w, dbOk).world, Finalized(w', dbOk).world)
    ensures Finalized(w, dbOk).raised == Finalized(w', dbOk).raised
  {
    hide Persist, SameEnds;
  }

  lemma RecoveredAlike(w: World, w': World, reason: string, dbOk: bool)
    requires Alike(w, w')
    ensures Alike(Recovered(w, reason, dbOk), Recovered(w', reason, dbOk))
  {
    hide Finalized, SameEnds;
    FinalizedAlike(w.(record := w.record.Fail(reason)), w'.(record := w'.record.Fail(reason)), dbOk);
  }

  lemma EndedAlike(w: World, w': World, a: Agent, s: Surface, dbOk: bool)
    requires Alike(w, w')
    ensures Alike(Ended(w, a, s, dbOk).world, Ended(w', a, s, dbOk).world)
    ensures Ended(w, a, s, dbOk).raised == Ended(w', a, s, dbOk).raised
  {
    hide Persist, Finalized, SameEnds;
    FinalizedAlike(w, w', dbOk);
  }

  lemma MarkedAlike(w: World, w': World, a: Agent, s: AgentStatus)
    requires Alike(w, w')
    ensures Alike(w.(record := w.record.WithAgent(a, s)), w'.(record := w'.record.WithAgent(a, s)))
  {
    hide SameEnds;
    if w.record.FollowsPlan() { MarkedEnds(w.record.agents, w'.record.agents, a, s); }
  }

  lemma StoredAlike(w: World, w': World, m: Memory, more: seq<Agent>, events: seq<Agent>)
    requires Alike(w, w')
    ensures Alike(w.(memory := m, log := w.log + more, inbox := w.inbox + events),
                  w'.(memory := m, log := w'.log + more, inbox := w'.inbox + events))
  {
    hide SameEnds;
    assert multiset(w.log + more) == multiset(w'.log + more);
    assert multiset(w.inbox + events) == multiset(w'.inbox + events);
  }

  lemma NotifiedAlike(w: World, w': World, a: Agent)
    requires Alike(w, w')
    ensures Alike(Notified(w, a), Notified(w', a))
  {
    MarkedAlike(w, w', Scr, Errored);
    StoredAlike(w, w', w.memory, [], [a]);
    StoredAlike(w, w', w.memory[a := DEFAULT_OUTPUT], [], [a]);
    assert w.log + [] == w.log && w'.log + [] == w'.log && w.memory == w'.memory;
    hide Alike;
  }

  lemma RunOneAlike(w: World, w': World, a: Agent, o: Outcome)
    requires Alike(w, w')
    ensures Alike(RunOne(w, a, o), RunOne(w', a, o))
  {
    var v, v' := w.(record := w.record.WithAgent(a, Running)), w'.(record := w'.record.WithAgent(a, Running));
    var m := match o
      case Wrote(out) => w.memory[a := out]
      case Silent => w.memory
      case Raised(left) => if left.Some? then w.memory[a := left.value] else w.memory;
    MarkedAlike(w, w', a, Running);
    StoredAlike(v, v', m, [a], []);
    assert v.inbox + [] == v.inbox && v'.inbox + [] == v'.inbox && w.memory == w'.memory;
    NotifiedAlike(v.(memory := m, log := v.log + [a]), v'.(memory := m, log := v'.log + [a]), a);
    hide Alike, Notified;
  }

  lemma {:induction false} RunAllAlike(w: World, w': World, agents: seq<Agent>, env: Env)
    requires Alike(w, w')
    ensures Alike(RunAll(w, agents, env), RunAll(w', agents, env))
    decreases |agents|
  {
    hide Alike, RunOne;
    if agents != [] {
      var o := OutcomeOf(env, agents[0]);
      RunOneAlike(w, w', agents[0], o);
      RunAllAlike(RunOne(w, agents[0], o), RunOne(w', agents[0], o), agents[1..], env);
    }
  }

  lemma SameMemory(m: Memory, m': Memory)
    requires forall b :: At(m, b) == At(m', b)
    ensures m == m'
  {
    forall b ensures b in m <==> b in m' { assert At(m, b) == At(m', b); }
    forall b | b in m ensures m[b] == m'[b] { assert At(m, b) == At(m', b); }
  }

  /** Two gatherings of unfinished agents, each from its own world. */
  lemma EndsAlike(w: World, w': World, agents: seq<Agent>, env: Env, v: World, v': World)
    requires Alike(w, w') && Ends(w, agents, env, v) && Ends(w', agents, env, v')
    requires w.record.FollowsPlan() ==> forall b :: b in agents ==> !Finishes(w.record.agents, b)
    ensures Alike(v, v')
  {
    hide Published, OutputAfter, OutcomeOf;
    forall b ensures At(v.memory, b) == At(v'.memory, b) { }
    SameMemory(v.memory, v'.memory);
    if w.record.FollowsPlan() {
      forall a ensures SameEnd(v.record.agents, v'.record.agents, a) {
        assert SameEnd(w.record.agents, w'.record.agents, a);
        assert StatusIn(v.record, a) == StatusIn(w.record, a) || a in agents;
        assert StatusIn(v'.record, a) == StatusIn(w'.record, a) || a in agents;
      }
    }
  }

  lemma DispatchedAlike(d: Dispatch, w: World, w': World, next: seq<Agent>, env: Env)
    requires Interleaves(d) && Alike(w, w')
    requires w.record.FollowsPlan() ==> forall b :: b in next ==> !Finishes(w.record.agents, b)
    ensures Alike(Dispatched(w, next, env).world, d(w', next, env).world)
    ensures Dispatched(w, next, env).raised == d(w', next, env).raised
  {
    hide Alike, RunAll, Recovered, Steps, Start, AllOver;
    assert Schedules(d, w', next, env);
    var ran := RunAll(w, next, env);
    if Scr in next {
      RunAllAlike(w, w', next, env);
      GatheredAlike(ran, RunAll(w', next, env), next, env);
    } else {
      var schedule :| EndsBy(w', next, env, schedule, d(w', next, env));
      var g := Steps(Start(w', next), next, env, schedule);
      EverySchedule(w', next, env, schedule);
      GatherEnds(w', g, next, env);
      RunAllEnds(w, next, env);
      EndsAlike(w, w', next, env, ran, g.world);
      GatheredAlike(ran, g.world, next, env);
    }
  }

  lemma GatheredAlike(v: World, v': World, agents: seq<Agent>, env: Env)
    requires Alike(v, v')
    ensures Alike(Gathered(v, agents, env).world, Gathered(v', agents, env).world)
  {
    hide Alike, Recovered;
    match FirstRaised(agents, env)
    case None =>
    case Some(a) =>
      MarkedAlike(v, v', a, Errored);
      RecoveredAlike(v.(record := v.record.WithAgent(a, Errored)), v'.(record := v'.record.WithAgent(a, Errored)),
        STEP_ERROR, env.dbOk);
  }

  lemma ContinuedAlike(
    d: Dispatch, w: World, w': World, next: seq<Agent>, paused: bool, a: Agent, s: Surface, env: Env)
    requires Interleaves(d) && Alike(w, w')
    requires w.record.FollowsPlan() ==> forall b :: b in next ==> !Finishes(w.record.agents, b)
    ensures var r, r' := Continued(w, next, paused, a, s, env), ContinuedBy(d, w', next, paused, a, s, env);
      r.raised == r'.raised && Alike(r.world, r'.world)
  {
    EndedAlike(w, w', a, s, env.dbOk);
    DispatchedAlike(d, w, w', next, env);
    hide Alike, Ended, Dispatched, Interleaves;
  }

  /** The next step of the plan is not finished yet. */
  ghost predicate NextUnfinished(plan: Plan, r: WorkflowState) {
    r.FollowsPlan() && r.step + 1 < |plan| ==> forall b :: b in plan[r.step + 1] ==> !Finishes(r.agents, b)
  }

  /** The plan after a completion reads no more of the record than what is alike. */
  lemma PlanAlike(plan: Plan, w: World, w': World, local: WorkflowState, local': WorkflowState, a: Agent, s: Surface)
    requires Alike(w, w') && local == w.record.(paused := local.paused, pauseReason := local.pauseReason,
        status := local.status, context := local.context)
    requires local' == local.(agents := w'.record.agents) && NextUnfinished(plan, w.record)
    ensures var p, p' := PlanNext(plan, w, local, a, s), PlanNext(plan, w', local', a, s);
      && p.raised == p'.raised && p.next == p'.next && Alike(p.world, p'.world)
      && (p.world.record.FollowsPlan() ==> forall b :: b in p.next ==> !Finishes(p.world.record.agents, b))
  {
    if local.FollowsPlan() && local.step < |plan| {
      forall b ensures local.Finished(b) <==> local'.Finished(b) {
        assert SameEnd(w.record.agents, w'.record.agents, b);
      }
      assert StepFinished(plan, local) <==> StepFinished(plan, local');
    } else if !local.FollowsPlan() {
      assert Route(local, a, s) == Route(local', a, s);
    }
    hide SameEnds, Route;
  }

  lemma ProgressedAlike(d: Dispatch, plan: Plan, w: World, w': World, a: Agent, s: Surface, env: Env)
    requires Interleaves(d) && Alike(w, w') && NextUnfinished(plan, w.record)
    ensures var r, r' := Progressed(plan, w, a, s, env), ProgressedBy(d, plan, w', a, s, env);
      r.raised == r'.raised && Alike(r.world, r'.world)
  {
    hide SameEnds, PlanNext, Continued, ContinuedBy, Interleaves;
    var local := w.record.(context := w.record.context.(pendingPause := None));
    var local' := w'.record.(context := w'.record.context.(pendingPause := None));
    assert Alike(Gated(w), Gated(w'));
    PlanAlike(plan, Gated(w), Gated(w'), local, local', a, s);
    var p, p' := PlanNext(plan, Gated(w), local, a, s), PlanNext(plan, Gated(w'), local', a, s);
    ContinuedAlike(d, p.world, p'.world, p.next, w.record.paused, a, s, env);
  }

  /** One completion: whatever the schedule of what it dispatches, the worlds stay alike. */
  lemma HandledAlike(d: Dispatch, plan: Plan, w: World, w': World, a: Agent, env: Env)
    requires Interleaves(d) && Alike(w, w') && NextUnfinished(plan, w.record.WithAgent(a, Done))
    ensures Alike(Handled(plan, w, a, env), HandledBy(d, plan, w', a, env))
  {
    hide Progressed, ProgressedBy, Recovered, Interleaves, SameEnds, ShouldEscalate;
    var done, done' := w.(record := w.record.WithAgent(a, Done)), w'.(record := w'.record.WithAgent(a, Done));
    MarkedAlike(w, w', a, Done);
    if a in done.memory {
      RecoveredAlike(done, done', SCAN_ERROR, env.dbOk);
      var s := done.memory[a].surface;
      var e, e' := Escalated(done, s), Escalated(done', s);
      SameEscalation(done.record, done'.record, s);
      assert Alike(e, e');
      ProgressedAlike(d, plan, e, e', a, s, env);
      var r, r' := Progressed(plan, e, a, s, env), ProgressedBy(d, plan, e', a, s, env);
      RecoveredAlike(r.world, r'.world, HANDLER_ERROR, env.retryOk);
    }
  }

  lemma {:induction false} RemoveIsMinus(s: seq<Agent>, x: Agent)
    ensures multiset(RemoveFirst(s, x)) == multiset(s) - multiset{x}
  {
    if s != [] {
      assert s == [s[0]] + s[1..];
      if s[0] != x { RemoveIsMinus(s[1..], x); }
    }
  }

  lemma ApplyAlike(d: Dispatch, plan: Plan, w: World, w': World, e: Event)
    requires Interleaves(d) && Alike(w, w')
    requires e.Complete? ==> NextUnfinished(plan, w.record.WithAgent(e.agent, Done))
    ensures Alike(Apply(plan, w, e), ApplyBy(d, plan, w', e))
  {
    hide Handled, HandledBy, Finalized, SameEnds, Interleaves;
    match e
    case Complete(a, first, env) =>
      RemoveIsMinus(w.inbox, a);
      RemoveIsMinus(w'.inbox, a);
      var v, v' := w.(inbox := RemoveFirst(w.inbox, a)), w'.(inbox := RemoveFirst(w'.inbox, a));
      assert Alike(v, v');
      HandledAlike(d, plan, if first then v else w, if first then v' else w', a, env);
    case Approve(approver, dbOk) =>
      FinalizedAlike(w.(record := w.record.Resume(approver)), w'.(record := w'.record.Resume(approver)), dbOk);
  }

  // ---------------------------------------------------------------- whole runs

  /** Completions come only from agents that were dispatched, in any order and number. */
  ghost predicate Grounded(plan: Plan, w: World, es: seq<Event>) {
    es == [] || (
      var es', e := es[..|es| - 1], es[|es| - 1];
      Grounded(plan, w, es') && (e.Complete? ==> e.agent in Exec(plan, w, es').log))
  }

  ghost predicate OnlyDispatchedFinish(w: World) { forall b :: Finishes(w.record.agents, b) ==> b in w.log }

  /** m' has no finished agents but those of m and the listed ones. */
  ghost predicate Finishing(m: Statuses, m': Statuses, agents: seq<Agent>) {
    forall b :: Finishes(m', b) ==> Finishes(m, b) || b in agents
  }

  lemma RunOneFinishes(w: World, a: Agent, o: Outcome)
    ensures Finishing(w.record.agents, RunOne(w, a, o).record.agents, [a])
  {
  }

  lemma {:induction false} RunAllFinishes(w: World, agents: seq<Agent>, env: Env)
    ensures Finishing(w.record.agents, RunAll(w, agents, env).record.agents, agents)
    decreases |agents|
  {
    hide RunOne, OutcomeOf, Finishes;
    if agents != [] {
      var a := agents[0];
      RunOneFinishes(w, a, OutcomeOf(env, a));
      RunAllFinishes(RunOne(w, a, OutcomeOf(env, a)), agents[1..], env);
    }
  }

  lemma {:induction false} FirstRaisedListed(agents: seq<Agent>, env: Env)
    ensures FirstRaised(agents, env).Some? ==> FirstRaised(agents, env).value in agents
  {
    if agents != [] { FirstRaisedListed(agents[1..], env); }
  }

  lemma MarkedFinishes(w: World, a: Agent, s: AgentStatus)
    requires OnlyDispatchedFinish(w) && a in w.log
    ensures OnlyDispatchedFinish(w.(record := w.record.WithAgent(a, s)))
  {
    forall b | Finishes(w.record.agents[a := s], b) ensures b in w.log {
      assert b == a || Finishes(w.record.agents, b);
    }
  }

  /** The predicate reads the statuses and the log only. */
  lemma SameFinishes(w: World, w': World)
    requires OnlyDispatchedFinish(w) && w'.record.agents == w.record.agents && w'.log == w.log
    ensures OnlyDispatchedFinish(w')
  {
  }

  lemma RanFinishes(w: World, w': World, next: seq<Agent>)
    requires OnlyDispatchedFinish(w) && Finishing(w.record.agents, w'.record.agents, next) && w'.log == w.log + next
    ensures OnlyDispatchedFinish(w')
  {
  }

  lemma DispatchedFinishes(w: World, next: seq<Agent>, env: Env)
    requires OnlyDispatchedFinish(w)
    ensures OnlyDispatchedFinish(Dispatched(w, next, env).world)
  {
    hide RunAll, OnlyDispatchedFinish, Finalized, Finishing;
    var ran := RunAll(w, next, env);
    RunAllFinishes(w, next, env);
    RunAllCourse(w, next, env);
    RanFinishes(w, ran, next);
    FirstRaisedListed(next, env);
    match FirstRaised(next, env)
    case None =>
    case Some(a) =>
      MarkedFinishes(ran, a, Errored);
      RecoveredFinishes(ran.(record := ran.record.WithAgent(a, Errored)), STEP_ERROR, env.dbOk);
  }

  lemma RecoveredFinishes(w: World, reason: string, dbOk: bool)
    requires OnlyDispatchedFinish(w)
    ensures OnlyDispatchedFinish(Recovered(w, reason, dbOk))
  {
    SameFinishes(w, Recovered(w, reason, dbOk));
    hide OnlyDispatchedFinish;
  }

  lemma ContinuedFinishes(w: World, next: seq<Agent>, paused: bool, a: Agent, s: Surface, env: Env)
    requires OnlyDispatchedFinish(w)
    ensures OnlyDispatchedFinish(Continued(w, next, paused, a, s, env).world)
  {
    hide OnlyDispatchedFinish, Dispatched;
    DispatchedFinishes(w, next, env);
    var r := Ended(w, a, s, env.dbOk).world;
    assert r.record.agents == w.record.agents && r.log == w.log;
    SameFinishes(w, r);
  }

  lemma ProgressedFinishes(plan: Plan, w: World, a: Agent, s: Surface, env: Env)
    requires OnlyDispatchedFinish(w)
    ensures OnlyDispatchedFinish(Progressed(plan, w, a, s, env).world)
  {
    hide Continued, OnlyDispatchedFinish, Route, StepFinished;
    var p := PlanNext(plan, Gated(w), w.record.(context := w.record.context.(pendingPause := None)), a, s);
    SameFinishes(w, p.world);
    ContinuedFinishes(p.world, p.next, w.record.paused, a, s, env);
  }

  lemma HandledFinishes(plan: Plan, w: World, a: Agent, env: Env)
    requires OnlyDispatchedFinish(w) && a in w.log
    ensures OnlyDispatchedFinish(Handled(plan, w, a, env))
  {
    hide Progressed, ShouldEscalate, Recovered, OnlyDispatchedFinish;
    var done := w.(record := w.record.WithAgent(a, Done));
    MarkedFinishes(w, a, Done);
    if a in done.memory {
      RecoveredFinishes(done, SCAN_ERROR, env.dbOk);
      var s := done.memory[a].surface;
      var e := Escalated(done, s);
      SameFinishes(done, e);
      ProgressedFinishes(plan, e, a, s, env);
      RecoveredFinishes(Progressed(plan, e, a, s, env).world, HANDLER_ERROR, env.retryOk);
    }
  }

  lemma {:induction false} RunFinishes(plan: Plan, w: World, es: seq<Event>)
    requires OnlyDispatchedFinish(w) && Grounded(plan, w, es)
    ensures OnlyDispatchedFinish(Exec(plan, w, es))
  {
    hide Handled, Finalized;
    if es != [] {
      var v, e := Exec(plan, w, es[..|es| - 1]), es[|es| - 1];
      RunFinishes(plan, w, es[..|es| - 1]);
      if e.Complete? {
        HandledFinishes(plan, if e.first then v.(inbox := RemoveFirst(v.inbox, e.agent)) else v, e.agent, e.env);
      } else {
        ApprovedFinishes(v, e.approver, e.dbOk);
      }
    }
  }

  lemma ApprovedFinishes(w: World, approver: string, dbOk: bool)
    requires OnlyDispatchedFinish(w)
    ensures OnlyDispatchedFinish(Approved(w, approver, dbOk))
  {
  }

  /** While a fixed plan is followed, no agent of its next step has been dispatched. */
  lemma AheadIsFresh(plan: Plan, w: World, ks: seq<nat>, b: Agent)
    requires Distinct(Flatten(plan)) && InOrder(plan, w, ks) && w.record.FollowsPlan()
    requires w.record.step + 1 < |plan| && b in plan[w.record.step + 1]
    ensures b !in w.log
  {
    hide Flatten, Distinct;
    if b in w.log {
      FlattenMember(StepsOf(plan, ks), b);
      var k :| 0 <= k < |ks| && b in StepsOf(plan, ks)[k];
      StepsDisjoint(plan, ks[k], w.record.step + 1, b);
    }
  }

  lemma NextIsUnfinished(plan: Plan, name: WorkflowName, context: Context, env: Env, es: seq<Event>, a: Agent)
    requires plan != [] && Distinct(Flatten(plan))
    requires var w := Exec(plan, Started(plan, Fresh(plan, name, Fixed, context), env), es);
      OnlyDispatchedFinish(w) && a in w.log
    ensures var w := Exec(plan, Started(plan, Fresh(plan, name, Fixed, context), env), es);
      NextUnfinished(plan, w.record.WithAgent(a, Done))
  {
    hide Started, Exec, InOrder, Flatten, Distinct;
    var w0 := Started(plan, Fresh(plan, name, Fixed, context), env);
    var w := Exec(plan, w0, es);
    FixedDispatchOrder(plan, name, context, env, es);
    if w.record.FollowsPlan() && w.record.step + 1 < |plan| {
      forall b | b in plan[w.record.step + 1] ensures !Finishes(w.record.WithAgent(a, Done).agents, b) {
        AheadIsFresh(plan, w, [0] + Dispatches(plan, w0, es), b);
        assert !Finishes(w.record.agents, b);
      }
    }
  }

  lemma StartedAlike(d: Dispatch, plan: Plan, w: World, env: Env)
    requires Interleaves(d) && forall b :: !Finishes(w.record.agents, b)
    ensures Alike(Started(plan, w, env), StartedBy(d, plan, w, env))
  {
    var next := FirstAgents(plan, w.record.flow);
    DispatchedAlike(d, w, w, next, env);
    hide Dispatched, Finalized, Interleaves, SameEnds, FirstAgents;
    var r := if next == [] then Finalized(w, env.dbOk) else Dispatched(w, next, env);
    var r' := if next == [] then Finalized(w, env.dbOk) else d(w, next, env);
    FinalizedAlike(w, w, env.dbOk);
    RecoveredAlike(r.world, r'.world, HANDLER_ERROR, env.retryOk);
  }

  lemma StartFinishes(plan: Plan, name: WorkflowName, context: Context, env: Env)
    ensures OnlyDispatchedFinish(Started(plan, Fresh(plan, name, Fixed, context), env))
  {
    hide Dispatched;
    var w := Fresh(plan, name, Fixed, context);
    assert OnlyDispatchedFinish(w);
    DispatchedFinishes(w, FirstAgents(plan, Fixed), env);
  }

  /**
   * Every run of a fixed plan without an agent in two places, with any failures, approvals and redelivered
   * completions of dispatched agents: however the agents of each dispatch interleave, the workflow has
   * the status, step, flow, memory and row of the run that takes them one after another, the same
   * agents have been dispatched and have events waiting, and the same ones are done or failed as long as
   * it follows its plan. Lost RUNNING marks change nothing else.
   */
  lemma {:induction false} InterleavedRun(plan: Plan, name: WorkflowName, context: Context, env: Env,
      d: Dispatch, es: seq<Event>, ds: seq<Dispatch>)
    requires plan != [] && Distinct(Flatten(plan)) && Interleaves(d)
    requires |ds| == |es| && forall i :: 0 <= i < |ds| ==> Interleaves(ds[i])
    requires Grounded(plan, Started(plan, Fresh(plan, name, Fixed, context), env), es)
    ensures var w := Fresh(plan, name, Fixed, context);
      Alike(Exec(plan, Started(plan, w, env), es), ExecBy(ds, plan, StartedBy(d, plan, w, env), es))
  {
    hide Started, StartedBy, Apply, ApplyBy, Alike, Interleaves, OnlyDispatchedFinish, NextUnfinished;
    var w := Fresh(plan, name, Fixed, context);
    var w0 := Started(plan, w, env);
    if es == [] {
      StartedAlike(d, plan, w, env);
    } else {
      var es', e, ds' := es[..|es| - 1], es[|es| - 1], ds[..|es| - 1];
      InterleavedRun(plan, name, context, env, d, es', ds');
      StartFinishes(plan, name, context, env);
      RunFinishes(plan, w0, es');
      if e.Complete? { NextIsUnfinished(plan, name, context, env, es', e.agent); }
      ApplyAlike(ds[|es| - 1], plan, Exec(plan, w0, es'), ExecBy(ds', plan, StartedBy(d, plan, w, env), es'), e);
    }
  }
}
