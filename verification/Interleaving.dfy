/**
 * The agents of a step are gathered (backend/orchestrator/skill_controller.py): their store operations
 * interleave, and a mark saved from a stale copy undoes another. What that changes, over whole runs.
 */
module Interleaving {
  import opened Sequences
  import opened Workflow
  import opened Finalizer
  import opened Orchestration

  /** The next store operation of one gathered agent; copy is the record it has loaded. */
  datatype Phase = ToLoad | ToSave(copy: WorkflowState) | ToLog | ToRun | ToPublish | Over

  datatype Gather = Gather(world: World, phases: seq<Phase>)

  function Start(w: World, agents: seq<Agent>): Gather { Gather(w, seq(|agents|, _ => ToLoad)) }

  /** The memory after an agent other than SCR ran and was notified of; only its own key changes. */
  function OutputAfter(memory: Memory, a: Agent, o: Outcome): Memory {
    match o
    case Wrote(out) => memory[a := out]
    case Silent => if a !in memory && a !in {Web, Asm, CloudSec} then memory[a := DEFAULT_OUTPUT] else memory
    case Raised(left) => if left.Some? then memory[a := left.value] else memory
  }

  /** One operation of the i-th agent. */
  function Step(g: Gather, agents: seq<Agent>, env: Env, i: nat): Gather {
    if i >= |agents| || i >= |g.phases| then g
    else
      var a, w := agents[i], g.world;
      match g.phases[i]
      case ToLoad => g.(phases := g.phases[i := ToSave(w.record)])
      case ToSave(copy) => Gather(w.(record := copy.WithAgent(a, Running)), g.phases[i := ToLog])
      case ToLog => Gather(w.(log := w.log + [a]), g.phases[i := ToRun])
      case ToRun =>
        Gather(w.(memory := OutputAfter(w.memory, a, OutcomeOf(env, a))),
          g.phases[i := if OutcomeOf(env, a).Raised? then Over else ToPublish])
      case ToPublish => Gather(w.(inbox := w.inbox + [a]), g.phases[i := Over])
      case Over => g
  }

  function Steps(g: Gather, agents: seq<Agent>, env: Env, schedule: seq<nat>): Gather {
    if schedule == [] then g
    else Step(Steps(g, agents, env, schedule[..|schedule| - 1]), agents, env, schedule[|schedule| - 1])
  }

  predicate AllOver(g: Gather) { forall i :: 0 <= i < |g.phases| ==> g.phases[i] == Over }

  // ---------------------------------------------------------------- what every schedule leaves

  function StatusIn(r: WorkflowState, a: Agent): Option<AgentStatus> {
    if a in r.agents then Some(r.agents[a]) else None
  }

  function At(memory: Memory, a: Agent): Option<Output> { if a in memory then Some(memory[a]) else None }

  /** r' is r with some of the agents marked running. */
  ghost predicate Blurred(r: WorkflowState, r': WorkflowState, agents: seq<Agent>) {
    && r' == r.(agents := r'.agents)
    && forall b :: StatusIn(r', b) == StatusIn(r, b) || (b in agents && StatusIn(r', b) == Some(Running))
  }

  /** The agents of the list for which the flag is set. */
  function Picked(agents: seq<Agent>, on: seq<bool>): multiset<Agent>
    requires |on| == |agents|
  {
    if agents == [] then multiset{}
    else (if on[0] then multiset{agents[0]} else multiset{}) + Picked(agents[1..], on[1..])
  }

  lemma {:induction false} PickedOne(agents: seq<Agent>, on: seq<bool>, i: nat)
    requires |on| == |agents| && i < |on| && !on[i]
    ensures Picked(agents, on[i := true]) == Picked(agents, on) + multiset{agents[i]}
  {
    if i > 0 {
      PickedOne(agents[1..], on[1..], i - 1);
      assert on[i := true][1..] == on[1..][i - 1 := true];
    }
  }

  lemma {:induction false} PickedNone(agents: seq<Agent>, on: seq<bool>)
    requires |on| == |agents| && forall i :: 0 <= i < |on| ==> !on[i]
    ensures Picked(agents, on) == multiset{}
  {
    if agents != [] { PickedNone(agents[1..], on[1..]); }
  }

  lemma {:induction false} PickedAll(agents: seq<Agent>, on: seq<bool>)
    requires |on| == |agents| && forall i :: 0 <= i < |on| ==> on[i]
    ensures Picked(agents, on) == multiset(agents)
  {
    if agents != [] {
      PickedAll(agents[1..], on[1..]);
      assert agents == [agents[0]] + agents[1..];
    }
  }

  predicate PastLog(p: Phase) { p.ToRun? || p.ToPublish? || p.Over? }

  function LogFlags(g: Gather): seq<bool> { seq(|g.phases|, i requires 0 <= i < |g.phases| => PastLog(g.phases[i])) }

  function PublishFlags(g: Gather, agents: seq<Agent>, env: Env): seq<bool>
    requires |g.phases| == |agents|
  {
    seq(|agents|, i requires 0 <= i < |agents| => g.phases[i].Over? && !OutcomeOf(env, agents[i]).Raised?)
  }

  /** The output of b that w's memory holds once b has run. */
  function Target(w: World, b: Agent, env: Env): Option<Output> {
    At(OutputAfter(w.memory, b, OutcomeOf(env, b)), b)
  }

  ghost predicate RecordsBlurred(w: World, g: Gather, agents: seq<Agent>) {
    && Blurred(w.record, g.world.record, agents) && g.world.row == w.row
    && forall i :: 0 <= i < |g.phases| && g.phases[i].ToSave? ==> Blurred(w.record, g.phases[i].copy, agents)
  }

  ghost predicate LogGrows(w: World, g: Gather, agents: seq<Agent>) {
    |g.phases| == |agents| && multiset(g.world.log) == multiset(w.log) + Picked(agents, LogFlags(g))
  }

  ghost predicate InboxGrows(w: World, g: Gather, agents: seq<Agent>, env: Env) {
    && |g.phases| == |agents|
    && (forall i :: 0 <= i < |agents| && g.phases[i].ToPublish? ==> !OutcomeOf(env, agents[i]).Raised?)
    && multiset(g.world.inbox) == multiset(w.inbox) + Picked(agents, PublishFlags(g, agents, env))
  }

  ghost predicate OutputsFill(w: World, g: Gather, agents: seq<Agent>, env: Env) {
    && |g.phases| == |agents|
    && (forall b :: At(g.world.memory, b) == At(w.memory, b)
          || (b in agents && At(g.world.memory, b) == Target(w, b, env)))
    && forall i :: 0 <= i < |agents| && (g.phases[i].ToPublish? || g.phases[i].Over?) ==>
         At(g.world.memory, agents[i]) == Target(w, agents[i], env)
  }

  lemma StepBlurs(w: World, g: Gather, agents: seq<Agent>, env: Env, i: nat)
    requires RecordsBlurred(w, g, agents)
    ensures RecordsBlurred(w, Step(g, agents, env, i), agents)
  {
  }

  lemma StepLogs(w: World, g: Gather, agents: seq<Agent>, env: Env, i: nat)
    requires LogGrows(w, g, agents)
    ensures LogGrows(w, Step(g, agents, env, i), agents)
  {
    hide Picked, OutputAfter, OutcomeOf;
    var g', flags := Step(g, agents, env, i), LogFlags(g);
    if i < |agents| && g.phases[i].ToLog? {
      PickedOne(agents, flags, i);
      assert LogFlags(g') == flags[i := true];
    } else {
      assert LogFlags(g') == flags;
    }
  }

  lemma StepPublishes(w: World, g: Gather, agents: seq<Agent>, env: Env, i: nat)
    requires InboxGrows(w, g, agents, env)
    ensures InboxGrows(w, Step(g, agents, env, i), agents, env)
  {
    hide Picked, OutputAfter, OutcomeOf;
    var g', flags := Step(g, agents, env, i), PublishFlags(g, agents, env);
    if i < |agents| && g.phases[i].ToPublish? {
      PickedOne(agents, flags, i);
      assert PublishFlags(g', agents, env) == flags[i := true];
    } else {
      assert PublishFlags(g', agents, env) == flags;
    }
  }

  lemma StepFills(w: World, g: Gather, agents: seq<Agent>, env: Env, i: nat)
    requires OutputsFill(w, g, agents, env)
    ensures OutputsFill(w, Step(g, agents, env, i), agents, env)
  {
  }

  /** w' is what gathering the agents can leave of w. */
  ghost predicate Ends(w: World, agents: seq<Agent>, env: Env, w': World) {
    && Blurred(w.record, w'.record, agents) && w'.row == w.row
    && multiset(w'.log) == multiset(w.log) + multiset(agents)
    && multiset(w'.inbox) == multiset(w.inbox) + Published(agents, env)
    && forall b :: At(w'.memory, b) == if b in agents then Target(w, b, env) else At(w.memory, b)
  }

  function Published(agents: seq<Agent>, env: Env): multiset<Agent> {
    Picked(agents, seq(|agents|, i requires 0 <= i < |agents| => !OutcomeOf(env, agents[i]).Raised?))
  }

  ghost predicate Gathering(w: World, g: Gather, agents: seq<Agent>, env: Env) {
    && RecordsBlurred(w, g, agents) && OutputsFill(w, g, agents, env)
    && LogGrows(w, g, agents) && InboxGrows(w, g, agents, env)
  }

  lemma GatherStarts(w: World, agents: seq<Agent>, env: Env)
    ensures Gathering(w, Start(w, agents), agents, env)
  {
    var g := Start(w, agents);
    PickedNone(agents, LogFlags(g));
    PickedNone(agents, PublishFlags(g, agents, env));
  }

  lemma {:induction false} EverySchedule(w: World, agents: seq<Agent>, env: Env, schedule: seq<nat>)
    ensures Gathering(w, Steps(Start(w, agents), agents, env, schedule), agents, env)
  {
    hide RecordsBlurred, LogGrows, InboxGrows, OutputsFill, Step, Start;
    if schedule == [] {
      GatherStarts(w, agents, env);
    } else {
      var before, i := schedule[..|schedule| - 1], schedule[|schedule| - 1];
      EverySchedule(w, agents, env, before);
      var g := Steps(Start(w, agents), agents, env, before);
      StepBlurs(w, g, agents, env, i);
      StepLogs(w, g, agents, env, i);
      StepPublishes(w, g, agents, env, i);
      StepFills(w, g, agents, env, i);
    }
  }

  lemma GatherEnds(w: World, g: Gather, agents: seq<Agent>, env: Env)
    requires Gathering(w, g, agents, env) && AllOver(g)
    ensures Ends(w, agents, env, g.world)
  {
    hide OutputAfter, OutcomeOf, Blurred;
    PickedAll(agents, LogFlags(g));
    assert PublishFlags(g, agents, env)
        == seq(|agents|, i requires 0 <= i < |agents| => !OutcomeOf(env, agents[i]).Raised?);
    forall b ensures At(g.world.memory, b) == if b in agents then Target(w, b, env) else At(w.memory, b) {
      if b in agents {
        var i :| 0 <= i < |agents| && agents[i] == b;
        assert g.phases[i] == Over;
      }
    }
  }

  // ---------------------------------------------------------------- and what running them in turn leaves

  lemma RunOneEnds(w: World, a: Agent, env: Env)
    requires a != Scr
    ensures var o := OutcomeOf(env, a);
      RunOne(w, a, o) == w.(record := w.record.WithAgent(a, Running), log := w.log + [a],
          memory := OutputAfter(w.memory, a, o), inbox := if o.Raised? then w.inbox else w.inbox + [a])
  {
  }

  lemma {:induction false} RunAllEnds(w: World, agents: seq<Agent>, env: Env)
    requires Scr !in agents
    ensures Ends(w, agents, env, RunAll(w, agents, env))
    ensures forall b :: b in agents ==> StatusIn(RunAll(w, agents, env).record, b) == Some(Running)
    decreases |agents|
  {
    hide OutcomeOf, OutputAfter, RunOne;
    if agents != [] {
      var a, rest, o := agents[0], agents[1..], OutcomeOf(env, agents[0]);
      assert agents == [a] + rest;
      var w1 := RunOne(w, a, o);
      RunOneEnds(w, a, env);
      RunAllEnds(w1, rest, env);
      OneThenRest(w, w1, RunAll(w1, rest, env), a, rest, env);
    }
  }

  lemma OneThenRest(w: World, w1: World, w2: World, a: Agent, rest: seq<Agent>, env: Env)
    requires var o := OutcomeOf(env, a);
      w1 == w.(record := w.record.WithAgent(a, Running), log := w.log + [a],
          memory := OutputAfter(w.memory, a, o), inbox := if o.Raised? then w.inbox else w.inbox + [a])
    requires Ends(w1, rest, env, w2)
    ensures Ends(w, [a] + rest, env, w2)
  {
    PublishedFirst(a, rest, env);
    OutputsThen(w, w1, w2, a, rest, env);
    hide OutcomeOf, OutputAfter, At, Target, Published;
    MarkedThen(w.record, w2.record, a, rest);
  }

  lemma MarkedThen(r: WorkflowState, r2: WorkflowState, a: Agent, rest: seq<Agent>)
    requires Blurred(r.WithAgent(a, Running), r2, rest)
    ensures Blurred(r, r2, [a] + rest)
  {
  }

  lemma PublishedFirst(a: Agent, rest: seq<Agent>, env: Env)
    ensures Published([a] + rest, env)
         == (if OutcomeOf(env, a).Raised? then multiset{} else multiset{a}) + Published(rest, env)
  {
    hide OutcomeOf;
    var agents := [a] + rest;
    var flags := seq(|agents|, i requires 0 <= i < |agents| => !OutcomeOf(env, agents[i]).Raised?);
    assert agents[1..] == rest;
    assert flags[1..] == seq(|rest|, i requires 0 <= i < |rest| => !OutcomeOf(env, rest[i]).Raised?);
  }

  lemma OutputsThen(w: World, w1: World, w2: World, a: Agent, rest: seq<Agent>, env: Env)
    requires w1.memory == OutputAfter(w.memory, a, OutcomeOf(env, a))
    requires forall b :: At(w2.memory, b) == if b in rest then Target(w1, b, env) else At(w1.memory, b)
    ensures forall b :: At(w2.memory, b) == if b in [a] + rest then Target(w, b, env) else At(w.memory, b)
  {
    hide OutcomeOf;
    forall b ensures At(w2.memory, b) == if b in [a] + rest then Target(w, b, env) else At(w.memory, b) {
      if b in rest { TargetKept(w, w1, a, b, env); }
    }
  }

  lemma TargetKept(w: World, w1: World, a: Agent, b: Agent, env: Env)
    requires w1.memory == OutputAfter(w.memory, a, OutcomeOf(env, a))
    ensures Target(w1, b, env) == Target(w, b, env)
  {
  }

  // ---------------------------------------------------------------- lost marks

  /** Two agents that both load the record before either saves it: the first one's mark is lost. */
  lemma StaleCopyUndoes(w: World, agents: seq<Agent>, env: Env, i: nat, j: nat)
    requires i < |agents| && j < |agents| && i != j
    ensures Steps(Start(w, agents), agents, env, [i] + [j] + [i] + [j]).world.record
         == w.record.WithAgent(agents[j], Running)
  {
    var g0 := Start(w, agents);
    StepsSnoc(g0, agents, env, [], i);
    assert [] + [i] == [i];
    StepsSnoc(g0, agents, env, [i], j);
    StepsSnoc(g0, agents, env, [i] + [j], i);
    StepsSnoc(g0, agents, env, [i] + [j] + [i], j);
  }

  lemma StepsSnoc(g: Gather, agents: seq<Agent>, env: Env, schedule: seq<nat>, i: nat)
    ensures Steps(g, agents, env, schedule + [i]) == Step(Steps(g, agents, env, schedule), agents, env, i)
  {
    assert (schedule + [i])[..|schedule|] == schedule;
  }

  predicate Saved(p: Phase) { !p.ToLoad? && !p.ToSave? }

  ghost predicate SomeRuns(g: Gather, agents: seq<Agent>) {
    (exists i :: 0 <= i < |g.phases| && Saved(g.phases[i]))
      ==> exists b :: b in agents && StatusIn(g.world.record, b) == Some(Running)
  }

  /** But not all of them: whoever saves last is marked. */
  lemma {:induction false} OneMarkStays(w: World, agents: seq<Agent>, env: Env, schedule: seq<nat>)
    ensures SomeRuns(Steps(Start(w, agents), agents, env, schedule), agents)
  {
    hide OutputAfter, OutcomeOf;
    if schedule != [] {
      var before, i := schedule[..|schedule| - 1], schedule[|schedule| - 1];
      OneMarkStays(w, agents, env, before);
      StepKeepsOne(Steps(Start(w, agents), agents, env, before), agents, env, i);
    }
  }

  lemma StepKeepsOne(g: Gather, agents: seq<Agent>, env: Env, i: nat)
    requires SomeRuns(g, agents)
    ensures SomeRuns(Step(g, agents, env, i), agents)
  {
    hide OutputAfter, OutcomeOf;
    var g' := Step(g, agents, env, i);
    if i < |agents| && i < |g.phases| && g.phases[i].ToSave? {
      assert StatusIn(g'.world.record, agents[i]) == Some(Running) && agents[i] in agents;
    } else if exists k :: 0 <= k < |g'.phases| && Saved(g'.phases[k]) {
      var k :| 0 <= k < |g'.phases| && Saved(g'.phases[k]);
      assert Saved(g.phases[k]);
    }
  }

  // ---------------------------------------------------------------- running them in turn is a schedule

  /** All operations of the first n agents, one agent after another. */
  function InTurn(n: nat): seq<nat> {
    if n == 0 then [] else InTurn(n - 1) + [n - 1] + [n - 1] + [n - 1] + [n - 1] + [n - 1]
  }

  lemma {:induction false} RunAllSnoc(w: World, agents: seq<Agent>, a: Agent, env: Env)
    ensures RunAll(w, agents + [a], env) == RunOne(RunAll(w, agents, env), a, OutcomeOf(env, a))
    decreases |agents|
  {
    hide RunOne, OutcomeOf;
    if agents == [] {
      assert [] + [a] == [a];
    } else {
      assert (agents + [a])[1..] == agents[1..] + [a];
      RunAllSnoc(RunOne(w, agents[0], OutcomeOf(env, agents[0])), agents[1..], a, env);
    }
  }

  /** All operations of one agent in a row. */
  function InOne(g: Gather, agents: seq<Agent>, env: Env, i: nat): Gather {
    var saved := Step(Step(g, agents, env, i), agents, env, i);
    Step(Step(Step(saved, agents, env, i), agents, env, i), agents, env, i)
  }

  /** Five operations in a row run one agent. */
  lemma FiveSteps(g: Gather, agents: seq<Agent>, env: Env, i: nat)
    requires |g.phases| == |agents| && i < |agents| && g.phases[i] == ToLoad && agents[i] != Scr
    ensures InOne(g, agents, env, i)
         == Gather(RunOne(g.world, agents[i], OutcomeOf(env, agents[i])), g.phases[i := Over])
  {
    RunOneEnds(g.world, agents[i], env);
    hide OutputAfter, OutcomeOf, RunOne;
    var p := g.phases;
    assert p[i := ToSave(g.world.record)][i := ToLog] == p[i := ToLog];
    assert p[i := ToLog][i := ToRun] == p[i := ToRun];
    assert p[i := ToRun][i := ToPublish] == p[i := ToPublish] && p[i := ToRun][i := Over] == p[i := Over];
    assert p[i := ToPublish][i := Over] == p[i := Over];
  }

  lemma InTurnUnfolds(g0: Gather, agents: seq<Agent>, env: Env, i: nat)
    ensures var g := Steps(g0, agents, env, InTurn(i));
      Steps(g0, agents, env, InTurn(i + 1))
        == InOne(g, agents, env, i)
  {
    hide Step, Steps;
    StepsSnoc(g0, agents, env, InTurn(i), i);
    StepsSnoc(g0, agents, env, InTurn(i) + [i], i);
    StepsSnoc(g0, agents, env, InTurn(i) + [i] + [i], i);
    StepsSnoc(g0, agents, env, InTurn(i) + [i] + [i] + [i], i);
    StepsSnoc(g0, agents, env, InTurn(i) + [i] + [i] + [i] + [i], i);
  }

  lemma {:induction false} InTurnReaches(w: World, agents: seq<Agent>, env: Env, n: nat)
    requires Scr !in agents && n <= |agents|
    ensures var g := Steps(Start(w, agents), agents, env, InTurn(n));
      && g.world == RunAll(w, agents[..n], env) && |g.phases| == |agents|
      && forall i :: 0 <= i < |agents| ==> g.phases[i] == if i < n then Over else ToLoad
  {
    hide Step, RunOne, OutcomeOf;
    InTurnStarts(w, agents, env);
    if n > 0 {
      hide Steps, InTurn, RunAll, Start;
      var g0, i := Start(w, agents), n - 1;
      var g := Steps(g0, agents, env, InTurn(i));
      InTurnReaches(w, agents, env, i);
      FiveSteps(g, agents, env, i);
      InTurnUnfolds(g0, agents, env, i);
      assert agents[..n] == agents[..i] + [agents[i]];
      RunAllSnoc(w, agents[..i], agents[i], env);
    }
  }

  lemma InTurnStarts(w: World, agents: seq<Agent>, env: Env)
    ensures Steps(Start(w, agents), agents, env, InTurn(0)) == Start(w, agents) && agents[..0] == []
  {
  }

  lemma InTurnIsRunAll(w: World, agents: seq<Agent>, env: Env)
    requires Scr !in agents
    ensures var g := Steps(Start(w, agents), agents, env, InTurn(|agents|));
      AllOver(g) && g.world == RunAll(w, agents, env)
  {
    hide Steps, RunAll, InTurn;
    InTurnReaches(w, agents, env, |agents|);
    assert agents[..|agents|] == agents;
  }
}
