/** Completion events delivered more than once while a fixed plan is still running. */
module Redelivery {
  import opened Sequences
  import opened Workflow
  import opened Finalizer
  import opened Orchestration
  import opened FixedFlow
  import opened ExactlyOnce
  import opened HumanGate
  import opened WaitingGate

  /** Every event consumes a published one or repeats an earlier one, and meets success. */
  ghost predicate AtLeastOnce(plan: Plan, w: World, es: seq<Event>) {
    es == [] || (
      var es', e := es[..|es| - 1], es[|es| - 1];
      && AtLeastOnce(plan, w, es') && e.Complete? && Succeeds(plan, w.record.name, e.env)
      && if e.first then e.agent in Exec(plan, w, es').inbox
         else exists j :: 0 <= j < |es'| && es'[j].Complete? && es'[j].agent == e.agent)
  }

  /** The first k events are no repetitions. */
  ghost predicate AllFirst(es: seq<Event>, k: nat) {
    k <= |es| && forall i :: 0 <= i < k ==> es[i].Complete? && es[i].first
  }

  lemma {:induction false} AllFirstIsLegal(plan: Plan, w: World, es: seq<Event>)
    requires AtLeastOnce(plan, w, es) && AllFirst(es, |es|)
    ensures Legal(plan, w, es)
  {
    hide Exec, Succeeds;
    if es != [] {
      var before := es[..|es| - 1];
      assert forall i :: 0 <= i < |before| ==> before[i] == es[i];
      AllFirstIsLegal(plan, w, before);
    }
  }

  lemma {:induction false} Prefix(plan: Plan, w: World, es: seq<Event>, k: nat)
    requires AtLeastOnce(plan, w, es) && k <= |es|
    ensures AtLeastOnce(plan, w, es[..k])
  {
    hide Exec, Succeeds;
    if k == |es| {
      assert es[..k] == es;
    } else {
      Prefix(plan, w, es[..|es| - 1], k);
      assert es[..|es| - 1][..k] == es[..k];
    }
  }

  /** A serial plan after k deliveries. */
  ghost predicate AfterSteps(plan: Plan, name: WorkflowName, w: World, k: nat) {
    && k <= |plan| && w.record.name == name
    && (k < |plan| ==> AtStep(plan, w, k))
    && (k == |plan| ==> IsOver(w) && AllDone(plan, w) && w.inbox == [] && w.log == Flatten(plan))
  }

  /** The next delivery is that of the one agent running. */
  lemma NextDelivery(plan: Plan, name: WorkflowName, w: World, k: nat, a: Agent, env: Env)
    requires Regular(plan) && Serial(plan) && AfterSteps(plan, name, w, k)
    requires a in w.inbox && Succeeds(plan, name, env)
    ensures k < |plan| && a == plan[k][0] && AfterSteps(plan, name, Apply(plan, w, Complete(a, true, env)), k + 1)
  {
    hide Apply, Succeeds, Regular, AllDone, Flatten;
    assert k < |plan| && plan[k] == [plan[k][0]];
    if k + 1 < |plan| { SerialNext(plan, w, k, env); } else { SerialLast(plan, w, k, env); }
  }

  /** Each event is the completion of its step's agent. */
  ghost predicate Delivers(plan: Plan, es: seq<Event>) {
    |es| <= |plan| && forall j :: 0 <= j < |es| ==> es[j].Complete? && plan[j] == [es[j].agent]
  }

  /** An exactly-once run of a serial plan delivers its agents in order, one step each. */
  lemma {:induction false} StepByStep(plan: Plan, name: WorkflowName, context: Context, env: Env, es: seq<Event>)
    requires Regular(plan) && Serial(plan) && Succeeds(plan, name, env) && CalmContext(name, context)
    requires Legal(plan, Started(plan, Fresh(plan, name, Fixed, context), env), es)
    ensures AfterSteps(plan, name, Exec(plan, Started(plan, Fresh(plan, name, Fixed, context), env), es), |es|)
    ensures Delivers(plan, es)
  {
    assert plan != [];
    hide Started, Apply, Succeeds, CalmContext, AfterSteps, AtStep, Regular, Serial, Flatten, Delivers;
    var w0 := Started(plan, Fresh(plan, name, Fixed, context), env);
    StartedCourse(plan, name, context, env);
    if es == [] {
      StartReachesStepZero(plan, name, context, env);
      StepsFromZero(plan, name, w0);
      assert Delivers(plan, []) by { DeliversNothing(plan); }
    } else {
      var es', e := es[..|es| - 1], es[|es| - 1];
      assert es == es' + [e];
      StepByStep(plan, name, context, env, es');
      NextDelivery(plan, name, Exec(plan, w0, es'), |es'|, e.agent, e.env);
      DeliversNext(plan, es', e);
    }
  }

  lemma DeliversNothing(plan: Plan)
    ensures Delivers(plan, [])
  {
  }

  lemma DeliversNext(plan: Plan, es: seq<Event>, e: Event)
    requires Serial(plan) && Delivers(plan, es) && |es| < |plan| && e.Complete? && e.agent == plan[|es|][0]
    ensures Delivers(plan, es + [e])
  {
  }

  lemma StepsFromZero(plan: Plan, name: WorkflowName, w: World)
    requires plan != [] && AtStep(plan, w, 0) && w.record.name == name
    ensures AfterSteps(plan, name, w, 0)
  {
  }

  /** Completed with nothing left in memory, whatever else its agents still say. */
  ghost predicate ClosedAt(plan: Plan, name: WorkflowName, w: World, k: nat, outputs: Memory) {
    && w.record.name == name && w.record.status == Completed && w.memory == map[]
    && w.row == StoredRow(name, outputs) && k < |plan| && w.record.step == k && w.log == Flatten(plan[..k + 1])
  }

  /** A repeated completion finds the running step unfinished and takes that for the end of the plan. */
  lemma RepeatCloses(plan: Plan, w: World, k: nat, j: nat, env: Env)
    requires ScanPlan(plan) && AtStep(plan, w, k) && j < k && env.dbOk
    ensures var w' := Apply(plan, w, Complete(plan[j][0], false, env));
      && ClosedAt(plan, w.record.name, w', k, w.memory) && w'.inbox == [plan[k][0]]
      && Holding(w'.record, plan[k], Running)
  {
    var a, c := plan[j][0], plan[k][0];
    assert a in plan[j] && plan[k] == [c];
    StepsDisjoint(plan, j, k, a);
    StepsDisjoint(plan, j, |plan| - 1, a);
    assert Calm(w.record.name, a, w.memory[a]) && Scr in plan[0] && Calm(w.record.name, Scr, w.memory[Scr]);
    hide Flatten, Regular;
    var done := w.(record := w.record.WithAgent(a, Done));
    var s := done.memory[a].surface;
    assert Escalated(done, s) == done;
    assert done.record.(context := done.record.context.(pendingPause := None)) == done.record;
    assert !done.record.Finished(c);
    assert PlanNext(plan, done, done.record, a, s) == Planned(done, [], false);
    EndIsOver(done, a, s);
  }

  /** A closed workflow stays so: no agent has output any more. */
  lemma ClosedStays(plan: Plan, name: WorkflowName, w: World, k: nat, outputs: Memory, e: Event)
    requires ClosedAt(plan, name, w, k, outputs) && e.Complete?
    ensures ClosedAt(plan, name, Apply(plan, w, e), k, outputs)
  {
  }

  lemma {:induction false} StaysClosed(
    plan: Plan, name: WorkflowName, w: World, k: nat, outputs: Memory, w0: World, es: seq<Event>, i: nat)
    requires AtLeastOnce(plan, w0, es) && i <= |es| && w == Exec(plan, w0, es[..i])
    requires ClosedAt(plan, name, w, k, outputs)
    ensures ClosedAt(plan, name, Exec(plan, w0, es), k, outputs)
  {
    hide Apply, Succeeds, ClosedAt;
    if i == |es| {
      assert es[..i] == es;
    } else {
      var before := es[..|es| - 1];
      assert before[..i] == es[..i];
      StaysClosed(plan, name, w, k, outputs, w0, before, i);
      ClosedStays(plan, name, Exec(plan, w0, before), k, outputs, es[|es| - 1]);
    }
  }

  /**
   * At-least-once delivery of a plan that scans first and reports last. Without a repetition the run is
   * the serial one. If the first repetition comes while step i runs, the workflow is COMPLETED from then
   * on, unapproved, with no step after i ever dispatched and only the outputs up to step i stored; the
   * agent of step i is still RUNNING when that happens.
   */
  lemma {:induction false} FirstRepeatDecides(
    plan: Plan, name: WorkflowName, context: Context, env: Env, es: seq<Event>, i: nat)
    requires ScanPlan(plan) && Succeeds(plan, name, env) && CalmContext(name, context)
    requires AtLeastOnce(plan, Started(plan, Fresh(plan, name, Fixed, context), env), es) && AllFirst(es, i)
    requires i < |es| ==> es[i].Complete? && !es[i].first
    ensures var w0 := Started(plan, Fresh(plan, name, Fixed, context), env); var w := Exec(plan, w0, es);
      && i <= |plan|
      && (i == |es| ==> OnTrack(plan, w))
      && (i < |es| && i < |plan| ==>
            && AtStep(plan, Exec(plan, w0, es[..i]), i)
            && Holding(Exec(plan, w0, es[..i + 1]).record, plan[i], Running)
            && ClosedAt(plan, name, w, i, Exec(plan, w0, es[..i]).memory) && w.record.approvedBy == None)
  {
    hide Started, Apply, Succeeds, AtStep, ClosedAt, CalmContext, Flatten, Regular;
    var w0 := Started(plan, Fresh(plan, name, Fixed, context), env);
    StartedCourse(plan, name, context, env);
    Prefix(plan, w0, es, i);
    assert forall j :: 0 <= j < i ==> es[..i][j] == es[j];
    AllFirstIsLegal(plan, w0, es[..i]);
    StepByStep(plan, name, context, env, es[..i]);
    if i == |es| {
      assert es[..i] == es;
    } else if i < |plan| {
      Prefix(plan, w0, es, i + 1);
      assert es[..i + 1][..i] == es[..i] && es[..i + 1][i] == es[i];
      var j :| 0 <= j < |es[..i]| && es[..i][j].Complete? && es[..i][j].agent == es[i].agent;
      var w := Exec(plan, w0, es[..i]);
      SucceedsStores(plan, name, es[i].env);
      RepeatCloses(plan, w, i, j, es[i].env);
      assert es[i] == Complete(plan[j][0], false, es[i].env);
      StaysClosed(plan, name, Exec(plan, w0, es[..i + 1]), i, w.memory, w0, es, i + 1);
      OnlyCompletionsCome(plan, w0, es);
      CompletionsApproveNothing(plan, w0, es);
    }
  }

  lemma SucceedsStores(plan: Plan, name: WorkflowName, env: Env)
    requires Succeeds(plan, name, env)
    ensures env.dbOk
  {
  }

  lemma {:induction false} OnlyCompletionsCome(plan: Plan, w: World, es: seq<Event>)
    requires AtLeastOnce(plan, w, es)
    ensures OnlyCompletions(es)
  {
    hide Exec, Succeeds;
    if es != [] {
      OnlyCompletionsCome(plan, w, es[..|es| - 1]);
      assert forall i :: 0 <= i < |es| - 1 ==> es[i] == es[..|es| - 1][i];
    }
  }

  lemma {:induction false} LegalIsAtLeastOnce(plan: Plan, w: World, es: seq<Event>)
    requires Legal(plan, w, es)
    ensures AtLeastOnce(plan, w, es) && AllFirst(es, |es|)
  {
    hide Exec, Succeeds;
    if es != [] {
      LegalIsAtLeastOnce(plan, w, es[..|es| - 1]);
      assert forall i :: 0 <= i < |es| - 1 ==> es[i] == es[..|es| - 1][i];
    }
  }

  /**
   * Every step after the scan can be cut short so, and with it the gate: whatever the scan asks for, one
   * repeated SCR completion while step k runs completes the workflow, unapproved.
   */
  lemma {:induction false} CutShort(plan: Plan, name: WorkflowName, context: Context, env: Env, k: nat)
    returns (before: seq<Event>)
    requires ScanPlan(plan) && ScrRequired(name) && Succeeds(plan, name, env) && CalmContext(name, context)
    requires 0 < k < |plan|
    ensures var w0 := Started(plan, Fresh(plan, name, Fixed, context), env);
      var es := before + [Complete(Scr, false, env)]; var w := Exec(plan, w0, es);
      && LegalScanRun(plan, w0, before) && |before| == k && AtLeastOnce(plan, w0, es)
      && w.record.status == Completed && w.record.approvedBy == None && w.log == Flatten(plan[..k + 1])
  {
    hide Started, Apply, Exec, Succeeds, CalmContext, Flatten;
    var w0 := Started(plan, Fresh(plan, name, Fixed, context), env);
    before := ReachScanStep(plan, name, context, env, k);
    StepByStep(plan, name, context, env, before);
    LegalIsAtLeastOnce(plan, w0, before);
    var es := before + [Complete(Scr, false, env)];
    assert before[0].agent == Scr && es[..k] == before;
    assert AtLeastOnce(plan, w0, es) by { assert es[..|es| - 1] == before; }
    FirstRepeatDecides(plan, name, context, env, es, k);
  }
}
