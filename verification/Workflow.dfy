/**
 * The workflow record, the transitions of its store, the fixed plans and the routing table
 * (backend/orchestrator/workflow_state.py, workflow_definitions.py, routing_rules.py,
 * decision_engine.py).
 */
module Workflow {
  import opened Sequences
  import opened Sorting

  /** Agents by their normalised key; Other stands for any key the orchestrator has no runner for. */
  datatype Agent = Scr | Cma | Reporting | Web | Asm | CloudSec | Other(key: string)

  /** PENDING, RUNNING, DONE and FAILED. */
  datatype AgentStatus = Pending | Running | Done | Errored

  /** RUNNING, PAUSED, COMPLETED and FAILED. */
  datatype WorkflowStatus = InProgress | Paused | Completed | Failed

  datatype Flow = Fixed | Dynamic

  datatype WorkflowName =
    | CodeReviewOnly | ComplianceReadiness | IncrementalPrScan | IncidentResponse | Custom(name: string)

  /**
   * The context keys the engine reads: a non-empty incident_id, both ttp lists non-empty, a non-empty
   * pending_pause, and error.
   */
  datatype Context = Context(incident: bool, ttpsMatched: bool, pendingPause: Option<string>, error: Option<string>)

  datatype WorkflowState = WorkflowState(
    name: WorkflowName,
    flow: Flow,
    agents: map<Agent, AgentStatus>,
    step: nat,
    paused: bool,
    pauseReason: Option<string>,
    approvedBy: Option<string>,
    escalated: bool,
    status: WorkflowStatus,
    context: Context)
  {
    function WithAgent(a: Agent, s: AgentStatus): WorkflowState { this.(agents := agents[a := s]) }

    function Pause(reason: string): WorkflowState {
      this.(paused := true, pauseReason := Some(reason), status := Paused)
    }

    function Resume(approver: string): WorkflowState {
      this.(paused := false, pauseReason := None, approvedBy := Some(approver), status := InProgress)
    }

    function Complete(): WorkflowState { this.(status := Completed) }

    function Fail(reason: string): WorkflowState {
      this.(status := Failed, context := context.(error := Some(reason)))
    }

    function Escalate(): WorkflowState { this.(escalated := true, flow := Dynamic) }

    predicate Finished(a: Agent) { a in agents && agents[a] in {Done, Errored} }

    /** The record still follows its fixed plan. */
    predicate FollowsPlan() { flow == Fixed && !escalated }
  }

  /** Redis under one workflow's key: every method loads the record, changes it and saves it back. */
  class WorkflowStateStore {
    var saved: Option<WorkflowState>

    constructor ()
      ensures saved == None
    {
      saved := None;
    }

    method Save(state: WorkflowState)
      modifies this
      ensures saved == Some(state)
    {
      saved := Some(state);
    }

    method MarkAgent(a: Agent, s: AgentStatus)
      modifies this
      ensures saved == if old(saved).None? then None else Some(old(saved).value.WithAgent(a, s))
    {
      var state := saved;
      if state.Some? {
        Save(state.value.(agents := state.value.agents[a := s]));
      }
    }

    method Pause(reason: string)
      modifies this
      ensures saved == if old(saved).None? then None else Some(old(saved).value.Pause(reason))
    {
      var state := saved;
      if state.Some? {
        Save(state.value.(paused := true, pauseReason := Some(reason), status := Paused));
      }
    }

    method Resume(approver: string)
      modifies this
      ensures saved == if old(saved).None? then None else Some(old(saved).value.Resume(approver))
    {
      var state := saved;
      if state.Some? {
        Save(state.value.(paused := false, pauseReason := None, approvedBy := Some(approver), status := InProgress));
      }
    }

    method Complete()
      modifies this
      ensures saved == if old(saved).None? then None else Some(old(saved).value.Complete())
    {
      var state := saved;
      if state.Some? {
        Save(state.value.(status := Completed));
      }
    }

    method Fail(reason: string)
      modifies this
      ensures saved == if old(saved).None? then None else Some(old(saved).value.Fail(reason))
    {
      var state := saved;
      if state.Some? {
        Save(state.value.(status := Failed, context := state.value.context.(error := Some(reason))));
      }
    }

    method EscalateToDynamic()
      modifies this
      ensures saved == if old(saved).None? then None else Some(old(saved).value.Escalate())
    {
      var state := saved;
      if state.Some? {
        Save(state.value.(escalated := true, flow := Dynamic));
      }
    }
  }

  // ---------------------------------------------------------------- plans

  type Plan = seq<seq<Agent>>

  function Definition(name: WorkflowName): Plan {
    match name
    case CodeReviewOnly => [[Scr], [Cma], [Reporting]]
    case ComplianceReadiness => [[Scr], [Cma], [Reporting]]
    case IncrementalPrScan => [[Scr], [Reporting]]
    case IncidentResponse => [[Scr], [Web, Asm, CloudSec], [Cma], [Reporting]]
    case Custom(_) => []
  }

  predicate ScrRequired(name: WorkflowName) {
    name in {CodeReviewOnly, ComplianceReadiness, IncrementalPrScan}
  }

  // ---------------------------------------------------------------- decision surfaces

  datatype Severity = Critical | High | Medium | Low

  /** The fields of an agent's decision surface that routing reads. */
  datatype Surface = Surface(
    risk: int,
    severity: Severity,
    requiresHuman: bool,
    critical: int,
    secrets: int,
    correlated: bool,
    killChain: Option<int>)

  /** scan_status as the engine distinguishes it; ScanCompleted is any status it lets pass. */
  datatype ScanStatus = NoStatus | ScanRunning | ScanCompleted | ScanFailed

  /** What an agent leaves in shared memory. */
  datatype Output = Output(surface: Surface, scan: ScanStatus)

  function ShouldEscalate(s: Surface, w: WorkflowState): bool {
    || s.correlated
    || (w.flow == Fixed && s.risk >= 80)
    || (s.killChain.Some? && s.killChain.value >= 3)
    || w.context.ttpsMatched
  }

  /** Escalation reads the flow and the context of a record only. */
  lemma SameEscalation(r: WorkflowState, r': WorkflowState, s: Surface)
    requires r'.flow == r.flow && r'.context == r.context
    ensures ShouldEscalate(s, r') == ShouldEscalate(s, r)
  {
  }

  // ---------------------------------------------------------------- routing rules

  /** The conditions of the routing table, one name per lambda. */
  datatype Condition =
    | HighRisk | MediumRisk | LowRisk | Always | NeedsApproval | NoApproval | Incident | IsDynamic

  predicate Holds(c: Condition, s: Surface, w: WorkflowState) {
    match c
    case HighRisk => s.correlated || s.risk >= 80 || s.secrets > 0
    case MediumRisk => 50 <= s.risk < 80
    case LowRisk => s.risk < 50
    case Always => true
    case NeedsApproval => s.requiresHuman
    case NoApproval => !s.requiresHuman
    case Incident => w.flow == Dynamic && w.context.incident
    case IsDynamic => w.flow == Dynamic
  }

  datatype Action = Go | Pausing | Completing | Also

  datatype Rule = Rule(after: Agent, when: Condition, next: seq<Agent>, priority: int, action: Action)

  const HIGH_SCR := Rule(Scr, HighRisk, [Cma], 1, Go)
  const MEDIUM_SCR := Rule(Scr, MediumRisk, [Cma], 2, Go)
  const LOW_SCR := Rule(Scr, LowRisk, [Reporting], 3, Go)
  const AFTER_CMA := Rule(Cma, Always, [Reporting], 1, Go)
  const PAUSE_REPORTING := Rule(Reporting, NeedsApproval, [], 1, Pausing)
  const END_REPORTING := Rule(Reporting, NoApproval, [], 2, Completing)
  const INCIDENT_SCR := Rule(Scr, Incident, [Web, Asm, CloudSec], 0, Go)
  const AFTER_WEB := Rule(Web, IsDynamic, [Cma], 1, Go)
  const AFTER_ASM := Rule(Asm, IsDynamic, [Cma], 1, Go)
  const AFTER_CLOUDSEC := Rule(CloudSec, IsDynamic, [Cma], 1, Go)

  datatype RuleList = End | Then(rule: Rule, rest: RuleList)

  const ROUTING_RULES :=
    Then(HIGH_SCR, Then(MEDIUM_SCR, Then(LOW_SCR, Then(AFTER_CMA, Then(PAUSE_REPORTING, Then(END_REPORTING,
    Then(INCIDENT_SCR, Then(AFTER_WEB, Then(AFTER_ASM, Then(AFTER_CLOUDSEC, End))))))))))

  function Applicable(rules: RuleList, a: Agent): seq<Rule> {
    match rules
    case End => []
    case Then(r, rest) => if r.after == a then [r] + Applicable(rest, a) else Applicable(rest, a)
  }

  predicate ByPriority(p: Rule, q: Rule) { p.priority <= q.priority }

  /** Appends the agents of an "also" rule that are not listed yet. */
  function AddMissing(agents: seq<Agent>, more: seq<Agent>): seq<Agent>
    decreases |more|
  {
    if more == [] then agents
    else AddMissing(if more[0] in agents then agents else agents + [more[0]], more[1..])
  }

  /** The rule loop from one rule on, with the agents chosen so far. */
  function Scan(rules: seq<Rule>, s: Surface, w: WorkflowState, chosen: seq<Agent>, matched: bool): seq<Agent> {
    if rules == [] then chosen
    else if !Holds(rules[0].when, s, w) then Scan(rules[1..], s, w, chosen, matched)
    else match rules[0].action
      case Completing => []
      case Pausing => rules[0].next
      case Also => Scan(rules[1..], s, w, AddMissing(chosen, rules[0].next), matched)
      case Go => Scan(rules[1..], s, w, if matched then chosen else rules[0].next, true)
  }

  /** Whether the rule loop stops at a pausing rule. */
  predicate Pauses(rules: seq<Rule>, s: Surface, w: WorkflowState) {
    rules != [] && (
      if !Holds(rules[0].when, s, w) then Pauses(rules[1..], s, w)
      else match rules[0].action
        case Completing => false
        case Pausing => true
        case Also => Pauses(rules[1..], s, w)
        case Go => Pauses(rules[1..], s, w))
  }

  /** The loop of DecisionEngine.evaluate over the sorted rules of the completed agent. */
  method WalkRules(rules: seq<Rule>, s: Surface, w: WorkflowState) returns (next: seq<Agent>, pauses: bool)
    ensures next == Scan(rules, s, w, [], false) && pauses == Pauses(rules, s, w)
  {
    next, pauses := [], false;
    var matched := false;
    var i := 0;
    while i < |rules|
      invariant 0 <= i <= |rules| && !pauses
      invariant Scan(rules, s, w, [], false) == Scan(rules[i..], s, w, next, matched)
      invariant Pauses(rules, s, w) == Pauses(rules[i..], s, w)
    {
      var rule := rules[i];
      assert rules[i..][1..] == rules[i + 1..];
      i := i + 1;
      if Holds(rule.when, s, w) {
        if rule.action == Completing { return [], false; }
        if rule.action == Pausing { return rule.next, true; }
        if rule.action == Also {
          next := AddMissing(next, rule.next);
        } else if !matched {
          next, matched := rule.next, true;
        }
      }
    }
  }

  const REVIEW_REASON := "CRITICAL findings — pause for human approval"

  /** The caller's copy after evaluate: a pausing rule leaves its reason in the context. */
  function Noted(w: WorkflowState, a: Agent, s: Surface): WorkflowState {
    if a == Reporting && s.requiresHuman then w.(context := w.context.(pendingPause := Some(REVIEW_REASON))) else w
  }

  /** Nothing but the reason of a pause is marked, and only for a report that asks. */
  lemma NotedMarksReason(w: WorkflowState, a: Agent, s: Surface)
    ensures var n := Noted(w, a, s);
      && n.(context := w.context) == w && n.context.(pendingPause := w.context.pendingPause) == w.context
      && (a == Reporting && s.requiresHuman ==> n.context.pendingPause.Some?)
      && (a != Reporting || !s.requiresHuman ==> n == w)
  {
  }

  /**
   * DecisionEngine.evaluate: collect the rules of the agent, sort them by priority and walk them; local
   * is the copy the caller passed in, which it may have marked with a pending pause.
   */
  method Evaluate(w: WorkflowState, a: Agent, s: Surface) returns (next: seq<Agent>, local: WorkflowState)
    ensures next == Route(w, a, s) && local == Noted(w, a, s)
  {
    hide Scan, Pauses, Route, StableSort, Applicable;
    var pauses;
    next, pauses := WalkRules(StableSort(Applicable(ROUTING_RULES, a), ByPriority), s, w);
    RouteTable(w, a, s);
    PauseTable(w, a, s);
    local := w;
    if pauses { local := w.(context := w.context.(pendingPause := Some(REVIEW_REASON))); }
  }

  /** What the routing table amounts to. */
  function Route(w: WorkflowState, a: Agent, s: Surface): seq<Agent> {
    match a
    case Scr =>
      if w.flow == Dynamic && w.context.incident then [Web, Asm, CloudSec]
      else if s.correlated || s.risk >= 50 || s.secrets > 0 then [Cma]
      else [Reporting]
    case Cma => [Reporting]
    case Web => if w.flow == Dynamic then [Cma] else []
    case Asm => if w.flow == Dynamic then [Cma] else []
    case CloudSec => if w.flow == Dynamic then [Cma] else []
    case Reporting => []
    case Other(_) => []
  }

  /** The rules of one agent, in the order the sort gives them. */
  function SortedRules(a: Agent): seq<Rule> {
    match a
    case Scr => [INCIDENT_SCR, HIGH_SCR, MEDIUM_SCR, LOW_SCR]
    case Cma => [AFTER_CMA]
    case Reporting => [PAUSE_REPORTING, END_REPORTING]
    case Web => [AFTER_WEB]
    case Asm => [AFTER_ASM]
    case CloudSec => [AFTER_CLOUDSEC]
    case Other(_) => []
  }

  lemma SortCons(r: Rule, rest: seq<Rule>)
    ensures StableSort([r] + rest, ByPriority) == Insert(r, StableSort(rest, ByPriority), ByPriority)
  {
    assert ([r] + rest)[1..] == rest;
  }

  lemma ApplicableTable(a: Agent)
    ensures Applicable(ROUTING_RULES, a)
         == if a == Scr then [HIGH_SCR] + ([MEDIUM_SCR] + ([LOW_SCR] + [INCIDENT_SCR])) else SortedRules(a)
  {
    var t8 := Then(AFTER_ASM, Then(AFTER_CLOUDSEC, End));
    var t6 := Then(INCIDENT_SCR, Then(AFTER_WEB, t8));
    var t4 := Then(PAUSE_REPORTING, Then(END_REPORTING, t6));
    var t2 := Then(LOW_SCR, Then(AFTER_CMA, t4));
    assert Applicable(t8.rest, a) == if a == CloudSec then SortedRules(a) else [];
    assert Applicable(t8, a) == if a in {Asm, CloudSec} then SortedRules(a) else [];
    assert Applicable(t6, a)
        == if a == Scr then [INCIDENT_SCR] else if a in {Web, Asm, CloudSec} then SortedRules(a) else [];
    assert Applicable(t4, a) == if a == Scr then [INCIDENT_SCR] else if a == Cma then [] else SortedRules(a);
    assert Applicable(t2, a) == if a == Scr then [LOW_SCR] + [INCIDENT_SCR] else SortedRules(a);
  }

  /** Sorting by priority moves the incident rule, listed later, in front of the other SCR rules. */
  lemma SortedTable(a: Agent)
    ensures StableSort(Applicable(ROUTING_RULES, a), ByPriority) == SortedRules(a)
  {
    ApplicableTable(a);
    if a == Scr {
      var u3, u2, u1 := [INCIDENT_SCR], [LOW_SCR, INCIDENT_SCR], [MEDIUM_SCR, LOW_SCR, INCIDENT_SCR];
      SortCons(INCIDENT_SCR, []);
      assert u3 == [INCIDENT_SCR] + [] && u2 == [LOW_SCR] + u3 && u1 == [MEDIUM_SCR] + u2;
      assert [HIGH_SCR, MEDIUM_SCR, LOW_SCR, INCIDENT_SCR] == [HIGH_SCR] + u1;
      SortCons(LOW_SCR, u3);
      SortCons(MEDIUM_SCR, u2);
      SortCons(HIGH_SCR, u1);
      assert [INCIDENT_SCR, LOW_SCR][1..] == [LOW_SCR];
      assert [INCIDENT_SCR, MEDIUM_SCR, LOW_SCR][1..] == [MEDIUM_SCR, LOW_SCR];
    } else if a == Reporting {
      SortCons(END_REPORTING, []);
      SortCons(PAUSE_REPORTING, [END_REPORTING]);
      assert [PAUSE_REPORTING, END_REPORTING] == [PAUSE_REPORTING] + [END_REPORTING];
      assert [END_REPORTING] == [END_REPORTING] + [];
    } else if SortedRules(a) != [] {
      SortCons(SortedRules(a)[0], []);
      assert SortedRules(a) == [SortedRules(a)[0]] + [];
    }
  }

  lemma ScanCons(r: Rule, rest: seq<Rule>, s: Surface, w: WorkflowState, chosen: seq<Agent>, matched: bool)
    requires r.action == Go
    ensures Scan([r] + rest, s, w, chosen, matched)
         == if Holds(r.when, s, w) then Scan(rest, s, w, if matched then chosen else r.next, true)
            else Scan(rest, s, w, chosen, matched)
  {
    assert ([r] + rest)[1..] == rest;
  }

  lemma {:induction false} ScanMatched(rules: seq<Rule>, s: Surface, w: WorkflowState, chosen: seq<Agent>)
    requires forall r :: r in rules ==> r.action == Go
    ensures Scan(rules, s, w, chosen, true) == chosen
  {
    if rules != [] { ScanMatched(rules[1..], s, w, chosen); }
  }

  /** One rule in front of a tail whose scan is known. */
  lemma ScanFirst(r: Rule, rest: seq<Rule>, s: Surface, w: WorkflowState, otherwise: seq<Agent>)
    requires r.action == Go && (forall q :: q in rest ==> q.action == Go)
    requires Scan(rest, s, w, [], false) == otherwise
    ensures Scan([r] + rest, s, w, [], false) == if Holds(r.when, s, w) then r.next else otherwise
  {
    ScanCons(r, rest, s, w, [], false);
    ScanMatched(rest, s, w, r.next);
  }

  lemma ScanScr(w: WorkflowState, s: Surface)
    ensures Scan([INCIDENT_SCR] + ([HIGH_SCR] + ([MEDIUM_SCR] + [LOW_SCR])), s, w, [], false) == Route(w, Scr, s)
  {
    var low := if Holds(LowRisk, s, w) then [Reporting] else [];
    var medium := if Holds(MediumRisk, s, w) then [Cma] else low;
    var high := if Holds(HighRisk, s, w) then [Cma] else medium;
    assert [LOW_SCR] + [] == [LOW_SCR];
    ScanFirst(LOW_SCR, [], s, w, []);
    ScanFirst(MEDIUM_SCR, [LOW_SCR], s, w, low);
    ScanFirst(HIGH_SCR, [MEDIUM_SCR] + [LOW_SCR], s, w, medium);
    ScanFirst(INCIDENT_SCR, [HIGH_SCR] + ([MEDIUM_SCR] + [LOW_SCR]), s, w, high);
  }

  /**
   * The lowest-priority, earliest matching rule decides: the sorted table, scanned, gives exactly
   * the decision list of Route.
   */
  lemma RouteTable(w: WorkflowState, a: Agent, s: Surface)
    ensures Scan(StableSort(Applicable(ROUTING_RULES, a), ByPriority), s, w, [], false) == Route(w, a, s)
  {
    hide StableSort, Applicable, ROUTING_RULES;
    SortedTable(a);
    var rules := SortedRules(a);
    if a == Scr {
      assert rules == [INCIDENT_SCR] + ([HIGH_SCR] + ([MEDIUM_SCR] + [LOW_SCR]));
      ScanScr(w, s);
    } else if a != Reporting && rules != [] {
      assert rules == [rules[0]] + [];
      ScanCons(rules[0], [], s, w, [], false);
    } else if a == Reporting {
      assert rules[1..] == [END_REPORTING];
    }
  }

  /** The first rule that holds and completes or pauses decides, whatever was chosen before it. */
  lemma {:induction false} StopRuleDecides(
    rules: seq<Rule>, s: Surface, w: WorkflowState, chosen: seq<Agent>, matched: bool, k: nat)
    requires k < |rules| && Holds(rules[k].when, s, w) && rules[k].action in {Completing, Pausing}
    requires forall j :: 0 <= j < k && Holds(rules[j].when, s, w) ==> rules[j].action in {Go, Also}
    ensures Scan(rules, s, w, chosen, matched) == if rules[k].action == Completing then [] else rules[k].next
    ensures Pauses(rules, s, w) <==> rules[k].action == Pausing
    decreases |rules|
  {
    if k > 0 {
      var r := rules[0];
      var chosen' := if !Holds(r.when, s, w) then chosen
        else if r.action == Also then AddMissing(chosen, r.next) else if matched then chosen else r.next;
      StopRuleDecides(rules[1..], s, w, chosen', matched || (Holds(r.when, s, w) && r.action == Go), k - 1);
    }
  }

  /** Without one, the first plain rule that holds chooses, and the "also" rules after it add what is missing. */
  lemma {:induction false} FirstRuleChooses(rules: seq<Rule>, s: Surface, w: WorkflowState, chosen: seq<Agent>, k: nat)
    requires forall j :: 0 <= j < |rules| && Holds(rules[j].when, s, w) ==> rules[j].action in {Go, Also}
    requires k < |rules| && Holds(rules[k].when, s, w) && rules[k].action == Go
    requires forall j :: 0 <= j < k && Holds(rules[j].when, s, w) ==> rules[j].action == Also
    ensures var next := Scan(rules, s, w, chosen, false);
      rules[k].next <= next && forall a :: a in next <==> a in rules[k].next || Adds(rules[k + 1..], s, w, a)
    decreases |rules|
  {
    if k == 0 {
      RulesAdd(rules[1..], s, w, rules[0].next);
    } else {
      var r := rules[0];
      FirstRuleChooses(rules[1..], s, w, if Holds(r.when, s, w) then AddMissing(chosen, r.next) else chosen, k - 1);
      assert rules[1..][k..] == rules[k + 1..];
    }
  }

  /** Some "also" rule that holds names the agent. */
  ghost predicate Adds(rules: seq<Rule>, s: Surface, w: WorkflowState, a: Agent) {
    exists j :: 0 <= j < |rules| && Holds(rules[j].when, s, w) && rules[j].action == Also && a in rules[j].next
  }

  lemma {:induction false} RulesAdd(rules: seq<Rule>, s: Surface, w: WorkflowState, chosen: seq<Agent>)
    requires forall j :: 0 <= j < |rules| && Holds(rules[j].when, s, w) ==> rules[j].action in {Go, Also}
    ensures var next := Scan(rules, s, w, chosen, true);
      chosen <= next && forall a :: a in next <==> a in chosen || Adds(rules, s, w, a)
    decreases |rules|
  {
    hide Holds;
    if rules != [] {
      var r, rest := rules[0], rules[1..];
      var more := if Holds(r.when, s, w) && r.action == Also then AddMissing(chosen, r.next) else chosen;
      MissingAdded(chosen, r.next);
      RulesAdd(rest, s, w, more);
      forall a ensures Adds(rules, s, w, a) <==>
        Adds(rest, s, w, a) || (Holds(r.when, s, w) && r.action == Also && a in r.next) { AddsCons(r, rest, s, w, a); }
      assert rules == [r] + rest;
    }
  }

  lemma AddsCons(r: Rule, rest: seq<Rule>, s: Surface, w: WorkflowState, a: Agent)
    ensures Adds([r] + rest, s, w, a) <==>
      Adds(rest, s, w, a) || (Holds(r.when, s, w) && r.action == Also && a in r.next)
  {
    hide Holds;
    var rules := [r] + rest;
    if Adds(rest, s, w, a) {
      var j :| 0 <= j < |rest| && Holds(rest[j].when, s, w) && rest[j].action == Also && a in rest[j].next;
      assert rules[j + 1] == rest[j];
    }
    if Holds(r.when, s, w) && r.action == Also && a in r.next { assert rules[0] == r; }
  }

  lemma {:induction false} MissingAdded(agents: seq<Agent>, more: seq<Agent>)
    ensures var all := AddMissing(agents, more);
      && agents <= all && (forall a :: a in all <==> a in agents || a in more)
      && (Distinct(agents) ==> Distinct(all))
    decreases |more|
  {
    if more != [] {
      MissingAdded(if more[0] in agents then agents else agents + [more[0]], more[1..]);
      assert more == [more[0]] + more[1..];
    }
  }

  /** Only the rule for a report that asks for approval pauses. */
  lemma PauseTable(w: WorkflowState, a: Agent, s: Surface)
    ensures Pauses(StableSort(Applicable(ROUTING_RULES, a), ByPriority), s, w) <==> a == Reporting && s.requiresHuman
  {
    hide StableSort, Applicable, ROUTING_RULES;
    SortedTable(a);
    var rules := SortedRules(a);
    if a == Reporting {
      assert rules[1..] == [END_REPORTING] && rules[1..][1..] == [];
    } else {
      NoPauses(rules, s, w);
    }
  }

  lemma {:induction false} NoPauses(rules: seq<Rule>, s: Surface, w: WorkflowState)
    requires forall r :: r in rules ==> r.action == Go
    ensures !Pauses(rules, s, w)
  {
    if rules != [] { NoPauses(rules[1..], s, w); }
  }
}
