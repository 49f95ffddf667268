/**
 * Risk scores, the surfaces the SCR, CMA and reporting agents write, and the human gate they lead to
 * (backend/scr/stages/stage10_output.py, backend/cma/cma_runner.py, backend/reporting/reporting_runner.py).
 */
module HumanGate {
  import opened Sequences
  import opened Workflow
  import opened Finalizer
  import opened Orchestration
  import opened FixedFlow
  import opened ExactlyOnce

  /** Severity of a code finding, upper-cased; Minor stands for every label without a weight. */
  datatype Level = CriticalLevel | HighLevel | Minor

  function Occurrences(levels: seq<Level>, l: Level): nat {
    if levels == [] then 0 else (if levels[0] == l then 1 else 0) + Occurrences(levels[1..], l)
  }

  /** CVSS scores of at least 7.0. */
  function SevereCount(scores: seq<real>): nat {
    if scores == [] then 0 else (if scores[0] >= 7.0 then 1 else 0) + SevereCount(scores[1..])
  }

  function Min(a: int, b: int): int { if a <= b then a else b }

  function RiskScore(levels: seq<Level>, secrets: nat, scores: seq<real>, boost: int): int {
    Min(100, Occurrences(levels, CriticalLevel) * 30 + Occurrences(levels, HighLevel) * 15
             + secrets * 20 + SevereCount(scores) * 10 + Min(boost, 50))
  }

  function RiskLabel(risk: int): Severity {
    if risk >= 80 then Critical else if risk >= 50 then High else if risk >= 25 then Medium else Low
  }

  /** The surface a completed scan with this risk leaves. */
  function ScrSurface(risk: int, critical: nat, secrets: nat, incident: bool): Surface {
    Surface(risk, RiskLabel(risk), risk >= 80, critical, secrets, incident, None)
  }

  lemma {:induction false} OccurrencesSnoc(levels: seq<Level>, x: Level, l: Level)
    ensures Occurrences(levels + [x], l) == Occurrences(levels, l) + if x == l then 1 else 0
  {
    if levels == [] {
      assert levels + [x] == [x];
    } else {
      assert (levels + [x])[1..] == levels[1..] + [x];
      OccurrencesSnoc(levels[1..], x, l);
    }
  }

  lemma {:induction false} SevereSnoc(scores: seq<real>, x: real)
    ensures SevereCount(scores + [x]) == SevereCount(scores) + if x >= 7.0 then 1 else 0
  {
    if scores == [] {
      assert scores + [x] == [x];
    } else {
      assert (scores + [x])[1..] == scores[1..] + [x];
      SevereSnoc(scores[1..], x);
    }
  }

  /** The counts are those of the findings, by severity, and of the CVSS scores of 7 and more. */
  lemma {:induction false} LevelsCount(levels: seq<Level>, l: Level)
    ensures Occurrences(levels, l) == multiset(levels)[l]
  {
    if levels != [] {
      LevelsCount(levels[1..], l);
      assert levels == [levels[0]] + levels[1..];
    }
  }

  lemma {:induction false} SevereCounts(scores: seq<real>)
    ensures SevereCount(scores) == |Where(scores, (x: real) => x >= 7.0)|
  {
    hide Where;
    var p := (x: real) => x >= 7.0;
    if scores == [] {
      NoneWhere(scores, p);
    } else {
      var before, x := scores[..|scores| - 1], scores[|scores| - 1];
      assert scores == before + [x];
      SevereCounts(before);
      SevereSnoc(before, x);
      WhereSnoc(before, x, p);
    }
  }

  /** The counting loops of OutputStage.run. */
  method AssessScan(levels: seq<Level>, secrets: nat, scores: seq<real>, boost: int, incident: bool) returns (o: Output)
    ensures o.surface == ScrSurface(RiskScore(levels, secrets, scores, boost), Occurrences(levels, CriticalLevel),
        secrets, incident)
    ensures o.scan == ScanCompleted && o.surface.risk <= 100
    ensures o.surface.requiresHuman <==>
      30 * Occurrences(levels, CriticalLevel) + 15 * Occurrences(levels, HighLevel)
        + 20 * secrets + 10 * SevereCount(scores) + Min(boost, 50) >= 80
    ensures var points := 30 * Occurrences(levels, CriticalLevel) + 15 * Occurrences(levels, HighLevel)
        + 20 * secrets + 10 * SevereCount(scores) + Min(boost, 50);
      && (o.surface.severity == Critical <==> points >= 80) && (o.surface.severity == High <==> 50 <= points < 80)
      && (o.surface.severity == Medium <==> 25 <= points < 50) && (o.surface.severity == Low <==> points < 25)
  {
    var counts: map<Level, nat> := map[];
    var i := 0;
    while i < |levels|
      invariant 0 <= i <= |levels|
      invariant forall l :: (if l in counts then counts[l] else 0) == Occurrences(levels[..i], l)
    {
      assert levels[..i + 1] == levels[..i] + [levels[i]];
      forall l
        ensures Occurrences(levels[..i + 1], l) == Occurrences(levels[..i], l) + if levels[i] == l then 1 else 0
      {
        OccurrencesSnoc(levels[..i], levels[i], l);
      }
      counts := counts[levels[i] := (if levels[i] in counts then counts[levels[i]] else 0) + 1];
      i := i + 1;
    }
    assert levels[..i] == levels;
    var severe: nat := 0;
    var j := 0;
    while j < |scores|
      invariant 0 <= j <= |scores| && severe == SevereCount(scores[..j])
    {
      assert scores[..j + 1] == scores[..j] + [scores[j]];
      SevereSnoc(scores[..j], scores[j]);
      if scores[j] >= 7.0 { severe := severe + 1; }
      j := j + 1;
    }
    assert scores[..j] == scores;
    var critical := if CriticalLevel in counts then counts[CriticalLevel] else 0;
    var high := if HighLevel in counts then counts[HighLevel] else 0;
    var risk := Min(100, critical * 30 + high * 15 + secrets * 20 + severe * 10 + Min(boost, 50));
    o := Output(Surface(risk, RiskLabel(risk), risk >= 80, critical, secrets, incident, None), ScanCompleted);
  }

  /** CMARunner.run passes the scan's scores on and decides on approval again. */
  function CmaSurface(scr: Surface): Surface {
    scr.(requiresHuman := scr.risk >= 80 || (scr.severity in {Critical, High} && scr.secrets > 0), killChain := None)
  }

  function RiskOf(s: Option<Surface>): int { if s.Some? then s.value.risk else 0 }

  /** ReportingRunner.run; critical is its deduplicated count, None an agent without output. */
  function ReportingSurface(scr: Option<Surface>, cma: Option<Surface>, critical: int): Surface {
    var risk := if RiskOf(scr) >= RiskOf(cma) then RiskOf(scr) else RiskOf(cma);
    Surface(risk,
            if scr.Some? then scr.value.severity else if cma.Some? then cma.value.severity else Low,
            (scr.Some? && scr.value.requiresHuman) || (cma.Some? && cma.value.requiresHuman) || risk >= 80,
            critical,
            if scr.Some? then scr.value.secrets else 0,
            scr.Some? && scr.value.correlated,
            None)
  }

  /** s is x's surface, or there is none and s says so by its risk of 0. */
  predicate RisksAtMost(x: Option<Surface>, risk: int) { if x.Some? then x.value.risk <= risk else 0 <= risk }

  /**
   * What a report says of the surfaces it finds: the greater risk of the two, a missing one counting 0; the
   * scan's severity, else CMA's, else LOW; the scan's secrets and incident; and it asks for approval
   * exactly when one of them does or its risk reaches 80.
   */
  lemma ReportReads(scr: Option<Surface>, cma: Option<Surface>, critical: int)
    ensures var r := ReportingSurface(scr, cma, critical);
      && RisksAtMost(scr, r.risk) && RisksAtMost(cma, r.risk)
      && ((scr.Some? && r.risk == scr.value.risk) || (cma.Some? && r.risk == cma.value.risk)
          || (r.risk == 0 && (scr.None? || cma.None?)))
      && r.severity == (if scr.Some? then scr.value.severity else if cma.Some? then cma.value.severity else Low)
      && (r.requiresHuman <==>
            (scr.Some? && scr.value.requiresHuman) || (cma.Some? && cma.value.requiresHuman) || r.risk >= 80)
      && (scr.Some? ==> r.secrets == scr.value.secrets && r.correlated == scr.value.correlated)
      && (scr.None? ==> r.secrets == 0 && !r.correlated)
      && r.critical == critical && r.killChain == None
  {
  }

  /**
   * What CMA and a report over it say of a scan: its own risk, severity and secrets. CMA asks where the
   * scan's risk reaches 80, or 50 with secrets found, and so does the report.
   */
  lemma {:induction false} ScanCarriesOn(scr: Surface, critical: int)
    requires FromScan(scr)
    ensures var c := CmaSurface(scr); var r := ReportingSurface(Some(scr), Some(c), critical);
      && c.risk == r.risk == scr.risk && c.severity == r.severity == scr.severity
      && c.secrets == r.secrets == scr.secrets && c.critical == scr.critical
      && c.correlated == r.correlated == scr.correlated
      && (c.requiresHuman <==> scr.risk >= 80 || (scr.risk >= 50 && scr.secrets > 0))
      && (r.requiresHuman <==> c.requiresHuman) && c.killChain == r.killChain == None
  {
  }

  function SurfaceIn(memory: Memory, a: Agent): Option<Surface> {
    if a in memory then Some(memory[a].surface) else None
  }

  /** The CMA and reporting runs of one handler read the shared memory they find. */
  ghost predicate Faithful(w: World, env: Env) {
    && (Scr in w.memory ==> OutputOf(env, Cma).surface == CmaSurface(w.memory[Scr].surface))
    && (exists critical :: OutputOf(env, Reporting).surface
          == ReportingSurface(SurfaceIn(w.memory, Scr), SurfaceIn(w.memory, Cma), critical))
  }

  /** An exactly-once run whose agents are the real CMA and reporting runners. */
  ghost predicate LegalScanRun(plan: Plan, w: World, es: seq<Event>) {
    && Legal(plan, w, es)
    && (es == [] || (
          var es', e := es[..|es| - 1], es[|es| - 1];
          LegalScanRun(plan, w, es') && e.Complete? && Faithful(Exec(plan, w, es'), e.env)))
  }

  /** A plan that scans first and reports last, as the SCR-required definitions do. */
  ghost predicate ScanPlan(plan: Plan) {
    && Regular(plan) && Serial(plan) && |plan| > 1
    && plan[0] == [Scr] && plan[|plan| - 1] == [Reporting]
  }

  /** When such a plan must ask a human. */
  predicate AsksHuman(scr: Surface, withCma: bool) {
    scr.risk >= 80 || (withCma && scr.risk >= 50 && scr.secrets > 0)
  }

  /** Shared memory while the workflow runs: the scan's surface, and what was derived from it. */
  ghost predicate Derived(plan: Plan, memory: Memory, scr: Surface) {
    && Scr in memory && memory[Scr].surface == scr
    && (Cma in memory ==> memory[Cma].surface == CmaSurface(scr))
    && (forall a :: a in memory ==> a in Flatten(plan))
    && (Reporting in memory ==> memory[Reporting].surface.requiresHuman == AsksHuman(scr, Cma in Flatten(plan)))
  }

  /** A fixed workflow at the end of its plan that waits for approval, whatever its status says. */
  ghost predicate FixedGate(plan: Plan, w: World) {
    && w.record.FollowsPlan() && ScrRequired(w.record.name) && w.record.paused
    && plan != [] && w.record.step == |plan| - 1
    && Scr in w.memory && w.memory[Scr].scan == ScanCompleted
    && Reporting in w.memory && w.memory[Reporting].surface.requiresHuman
  }

  ghost predicate GateHolds(plan: Plan, w: World, scr: Surface) {
    || (w.record.status == InProgress && w.inbox != [] && Derived(plan, w.memory, scr))
    || (AsksHuman(scr, Cma in Flatten(plan)) && w.record.status == Paused && FixedGate(plan, w) && w.inbox == []
        && Derived(plan, w.memory, scr)
        && w.row == Some(Stored(Snapshot(Some(w.record.name), w.memory))))
    || (!AsksHuman(scr, Cma in Flatten(plan)) && w.record.status == Completed && w.inbox == [])
  }

  lemma {:induction false} DispatchKeepsDerived(plan: Plan, w: World, k: nat, env: Env, scr: Surface)
    requires ScanPlan(plan) && AtStep(plan, w, k) && k + 1 < |plan| && Faithful(w, env)
    requires Derived(plan, w.memory, scr) && FromScan(scr)
    ensures Derived(plan, w.memory[plan[k + 1][0] := OutputOf(env, plan[k + 1][0])], scr)
  {
    hide Flatten, Holding;
    var b := plan[k + 1][0];
    StepAgent(plan, k + 1, b);
    StepsDisjoint(plan, 0, k + 1, Scr);
    if b == Reporting {
      if Cma in Flatten(plan) {
        FlattenMember(plan, Cma);
        var i :| 0 <= i < |plan| && Cma in plan[i];
        if k + 1 < |plan| - 1 { StepsDisjoint(plan, k + 1, |plan| - 1, Reporting); }
        assert plan[|plan| - 1] == [Reporting];
        assert i <= k;
        assert Cma in w.memory;
      }
    } else if Reporting in w.memory {
    }
  }

  ghost predicate FromScan(scr: Surface) {
    scr.critical >= 0 && scr.secrets >= 0 && scr == ScrSurface(scr.risk, scr.critical, scr.secrets, scr.correlated)
  }

  lemma {:induction false} GateNext(plan: Plan, w: World, k: nat, env: Env, scr: Surface)
    requires ScanPlan(plan) && AtStep(plan, w, k) && k + 1 < |plan| && Succeeds(plan, w.record.name, env)
    requires Faithful(w, env) && FromScan(scr) && Derived(plan, w.memory, scr)
    ensures GateHolds(plan, Apply(plan, w, Complete(plan[k][0], true, env)), scr)
  {
    SerialNext(plan, w, k, env);
    DispatchKeepsDerived(plan, w, k, env, scr);
    assert |plan[k + 1]| == 1;
  }

  lemma {:induction false} GateLast(plan: Plan, w: World, env: Env, scr: Surface)
    requires ScanPlan(plan) && AtStep(plan, w, |plan| - 1) && Succeeds(plan, w.record.name, env)
    requires ScrRequired(w.record.name) && Derived(plan, w.memory, scr)
    ensures GateHolds(plan, Apply(plan, w, Complete(Reporting, true, env)), scr)
  {
    SerialLast(plan, w, |plan| - 1, env);
    assert Reporting in plan[|plan| - 1];
    EndIsOver(w.(inbox := [], record := w.record.WithAgent(Reporting, Done)), Reporting, w.memory[Reporting].surface);
    assert Calm(w.record.name, Scr, w.memory[Scr]);
  }

  lemma {:induction false} GateEvent(plan: Plan, w: World, a: Agent, env: Env, scr: Surface)
    requires ScanPlan(plan) && ScrRequired(w.record.name) && FromScan(scr)
    requires OnTrack(plan, w) && GateHolds(plan, w, scr)
    requires a in w.inbox && Succeeds(plan, w.record.name, env) && Faithful(w, env)
    ensures GateHolds(plan, Apply(plan, w, Complete(a, true, env)), scr)
  {
    var k: nat :| k < |plan| && AtStep(plan, w, k);
    assert |plan[k]| == 1 && a == plan[k][0];
    if k + 1 < |plan| { GateNext(plan, w, k, env, scr); } else { GateLast(plan, w, env, scr); }
  }

  /**
   * The human gate, for every exactly-once run of a plan that scans first and reports last: the
   * workflow is never completed without approval when the scan asks for it, ends PAUSED with its
   * whole memory stored, and otherwise runs through to COMPLETED.
   */
  lemma {:induction false} GateRun(
    plan: Plan, name: WorkflowName, context: Context, env: Env, es: seq<Event>, scr: Surface)
    requires ScanPlan(plan) && ScrRequired(name) && Succeeds(plan, name, env) && CalmContext(name, context)
    requires OutputOf(env, Scr).surface == scr
    requires FromScan(scr)
    requires LegalScanRun(plan, Started(plan, Fresh(plan, name, Fixed, context), env), es)
    ensures GateHolds(plan, Exec(plan, Started(plan, Fresh(plan, name, Fixed, context), env), es), scr)
  {
    var w0 := Started(plan, Fresh(plan, name, Fixed, context), env);
    if es == [] {
      StepAgent(plan, 0, Scr);
      StartReachesStepZero(plan, name, context, env);
      StartMemory(plan, name, context, env);
    } else {
      var es', e := es[..|es| - 1], es[|es| - 1];
      GateRun(plan, name, context, env, es', scr);
      SerialRun(plan, name, context, env, es');
      NameKept(plan, w0, es');
      GateEvent(plan, Exec(plan, w0, es'), e.agent, e.env, scr);
    }
  }

  lemma {:induction false} StartMemory(plan: Plan, name: WorkflowName, context: Context, env: Env)
    requires ScanPlan(plan) && Succeeds(plan, name, env) && CalmContext(name, context)
    ensures var w := Started(plan, Fresh(plan, name, Fixed, context), env);
      w.memory == map[Scr := OutputOf(env, Scr)]
  {
    var w := Fresh(plan, name, Fixed, context);
    StepAgent(plan, 0, Scr);
    RunAllSucceeds(w, plan[0], env);
    assert RunAll(w, plan[0], env).memory == map[Scr := OutputOf(env, Scr)];
  }

  /** The three SCR-required definitions are such plans; only the incremental one skips CMA. */
  lemma {:induction false} RequiredPlansScan(name: WorkflowName)
    requires ScrRequired(name)
    ensures ScanPlan(Definition(name)) && (Cma in Flatten(Definition(name)) <==> name != IncrementalPrScan)
  {
    DefinitionShapes(name);
    var plan := Definition(name);
    FlattenMember(plan, Cma);
    if name != IncrementalPrScan { assert Cma in plan[1]; }
  }

  /** Approval of a gated workflow completes it, with the reviewed snapshot still in the row. */
  lemma {:induction false} ApprovalCompletes(w: World, approver: string)
    requires Scr in w.memory
    ensures var w' := Approved(w, approver, true);
      && w'.record == w.record.(status := Completed, approvedBy := Some(approver), paused := false, pauseReason := None)
      && w'.row == Some(Stored(Snapshot(Some(w.record.name), w.memory))) && w'.memory == map[]
  {
  }

  function StoredRow(name: WorkflowName, outputs: Memory): Option<Row> { Some(Stored(Snapshot(Some(name), outputs))) }

  /** The status, memory and row that an attempt leaves. */
  function Left(w: World): (WorkflowStatus, Memory, Option<Row>) { (w.record.status, w.memory, w.row) }

  /** The exception path completes a workflow exactly when its snapshot can be prepared and stored. */
  lemma {:induction false} RecoveredLeft(w: World, reason: string, dbOk: bool)
    ensures var name := w.record.name; var w' := Recovered(w, reason, dbOk);
      && w'.record.name == name
      && Left(w') ==
           if dbOk && (ScrRequired(name) ==> Scr in w.memory) then (Completed, map[], StoredRow(name, w.memory))
           else (Failed, w.memory, w.row)
  {
  }

  /**
   * When an agent of a dispatched step raises, the engine finalizes twice. Where the name requires
   * SCR the second attempt is refused, and the outputs stay stored under a FAILED workflow. For any
   * other name it stores the empty snapshot over them and reports COMPLETED, exactly when Postgres
   * takes both upserts. If only the first upsert fails, the workflow is COMPLETED with its outputs.
   */
  lemma {:induction false} FailedStepSnapshot(w: World, next: seq<Agent>, env: Env)
    requires FirstRaised(next, env).Some?
    ensures var r := Dispatched(w, next, env); var left := Left(Recovered(r.world, HANDLER_ERROR, env.retryOk));
      var outputs := RunAll(w, next, env).memory; var name := w.record.name;
      && r.raised
      && (ScrRequired(name) && Scr !in outputs ==> left == (Failed, outputs, w.row))
      && (!ScrRequired(name) || Scr in outputs ==>
            left == if !env.dbOk && !env.retryOk then (Failed, outputs, w.row)
                    else if !env.dbOk then (Completed, map[], StoredRow(name, outputs))
                    else if ScrRequired(name) || !env.retryOk then (Failed, map[], StoredRow(name, outputs))
                    else (Completed, map[], StoredRow(name, map[])))
  {
    hide RunAll, Recovered;
    RunAllCourse(w, next, env);
    var ran := RunAll(w, next, env);
    var failed := ran.(record := ran.record.WithAgent(FirstRaised(next, env).value, Errored));
    RecoveredLeft(failed, STEP_ERROR, env.dbOk);
    RecoveredLeft(Recovered(failed, STEP_ERROR, env.dbOk), HANDLER_ERROR, env.retryOk);
  }
}
