/**
 * Approval and execution of write-scope actions (backend/orchestrator/action_gate.py and
 * action_executor.py).
 */
module ActionLedger {

  type ActionId = string

  datatype Status = PendingApproval | Approved | Rejected | Executed

  type Rows = map<ActionId, Status>

  datatype Error = ReadOnlyAction | ActionNotFound | NotApproved | Interrupted

  datatype Result = Ok | Err(error: Error)

  /** INSERT ... ON CONFLICT DO NOTHING. */
  function Proposed(rows: Rows, id: ActionId): Rows { if id in rows then rows else rows[id := PendingApproval] }

  /** UPDATE ... WHERE action_id: no row, no effect. */
  function Marked(rows: Rows, id: ActionId, s: Status): Rows { if id in rows then rows[id := s] else rows }

  function MayExecute(rows: Rows, id: ActionId): Result {
    if id !in rows then Err(ActionNotFound) else if rows[id] == Approved then Ok else Err(NotApproved)
  }

  class ActionGate {
    var rows: Rows

    constructor ()
      ensures rows == map[]
    {
      rows := map[];
    }

    method Propose(id: ActionId, readOnly: bool) returns (r: Result)
      modifies this
      ensures r == (if readOnly then Err(ReadOnlyAction) else Ok)
      ensures rows == if readOnly then old(rows) else Proposed(old(rows), id)
    {
      if readOnly { return Err(ReadOnlyAction); }
      if id !in rows { rows := rows[id := PendingApproval]; }
      r := Ok;
    }

    method Approve(id: ActionId)
      modifies this
      ensures rows == Marked(old(rows), id, Approved)
    {
      if id in rows { rows := rows[id := Approved]; }
    }

    method Reject(id: ActionId)
      modifies this
      ensures rows == Marked(old(rows), id, Rejected)
    {
      if id in rows { rows := rows[id := Rejected]; }
    }

    method MarkExecuted(id: ActionId)
      modifies this
      ensures rows == Marked(old(rows), id, Executed)
    {
      if id in rows { rows := rows[id := Executed]; }
    }
  }

  /** Where a call of execute_approved that passed its check stops: at its end, or on either side of its dispatch. */
  datatype Fate = Finishes | FailsBefore | FailsAfter

  /** The answer of one call with nothing in between its steps, whether it dispatched, and whether it marked the row. */
  function Attempt(rows: Rows, id: ActionId, fate: Fate): (Result, bool, bool) {
    if MayExecute(rows, id).Err? then (MayExecute(rows, id), false, false)
    else if fate == Finishes then (Ok, true, true)
    else (Err(Interrupted), fate == FailsAfter, false)
  }

  class ActionExecutor {
    const gate: ActionGate
    var dispatched: seq<ActionId>

    constructor (gate: ActionGate)
      ensures this.gate == gate && dispatched == []
    {
      this.gate := gate;
      dispatched := [];
    }

    /** The dispatch and the mark are two awaits; a dispatch whose mark fails leaves the row approved. */
    method ExecuteApproved(id: ActionId, fate: Fate) returns (r: Result)
      modifies this, gate
      ensures var (answer, did, marked) := Attempt(old(gate.rows), id, fate);
        && r == answer
        && dispatched == (if did then old(dispatched) + [id] else old(dispatched))
        && gate.rows == if marked then old(gate.rows)[id := Executed] else old(gate.rows)
    {
      if id !in gate.rows { return Err(ActionNotFound); }
      if gate.rows[id] != Approved { return Err(NotApproved); }
      if fate == FailsBefore { return Err(Interrupted); }
      dispatched := dispatched + [id];
      if fate == FailsAfter { return Err(Interrupted); }
      gate.MarkExecuted(id);
      r := Ok;
    }
  }

  // ---------------------------------------------------------------- the ledger over runs

  type Counts = multiset<ActionId>

  function More(c: Counts, id: ActionId): Counts { c[id := c[id] + 1] }

  function Fewer(c: Counts, id: ActionId): Counts
    requires c[id] > 0
  {
    c[id := c[id] - 1]
  }

  /**
   * The rows, and for each action how often it was approved and executed, how many executors have passed
   * the check and not dispatched yet, how many have dispatched and not marked yet, and how many failed there.
   */
  datatype Ledger = Ledger(
    rows: Rows, approvals: Counts, executions: Counts, checked: Counts, unmarked: Counts, orphans: Counts)
  {
    function UnderWay(id: ActionId): nat { checked[id] + unmarked[id] }

    /** The gate stands open for a call that is not under way yet. */
    predicate Open(id: ActionId) { UnderWay(id) == 0 && MayExecute(rows, id).Ok? }
  }

  /** execute_approved is three events; Drop and Orphan are its failures before and after its dispatch. */
  datatype Event =
    | Propose(id: ActionId)
    | Approve(id: ActionId)
    | Reject(id: ActionId)
    | Check(id: ActionId)
    | Dispatch(id: ActionId)
    | Mark(id: ActionId)
    | Drop(id: ActionId)
    | Orphan(id: ActionId)

  function Next(l: Ledger, e: Event): Ledger {
    match e
    case Propose(id) => l.(rows := Proposed(l.rows, id))
    case Approve(id) =>
      if id !in l.rows then l
      else l.(rows := l.rows[id := Approved], approvals := More(l.approvals, id))
    case Reject(id) => l.(rows := Marked(l.rows, id, Rejected))
    case Check(id) => if MayExecute(l.rows, id).Ok? then l.(checked := More(l.checked, id)) else l
    case Dispatch(id) =>
      if l.checked[id] == 0 then l
      else l.(checked := Fewer(l.checked, id), unmarked := More(l.unmarked, id),
              executions := More(l.executions, id))
    case Mark(id) =>
      if l.unmarked[id] == 0 then l
      else l.(unmarked := Fewer(l.unmarked, id), rows := Marked(l.rows, id, Executed))
    case Drop(id) => if l.checked[id] == 0 then l else l.(checked := Fewer(l.checked, id))
    case Orphan(id) =>
      if l.unmarked[id] == 0 then l
      else l.(unmarked := Fewer(l.unmarked, id), orphans := More(l.orphans, id))
  }

  function After(l: Ledger, es: seq<Event>): Ledger {
    if es == [] then l else Next(After(l, es[..|es| - 1]), es[|es| - 1])
  }

  const NO_ACTIONS := Ledger(map[], multiset{}, multiset{}, multiset{}, multiset{}, multiset{})

  /** An executor passes the check of an action while another has it under way. */
  predicate Overlapping(l: Ledger, e: Event, id: ActionId) {
    e == Check(id) && MayExecute(l.rows, id).Ok? && l.UnderWay(id) > 0
  }

  function Overlaps(l: Ledger, es: seq<Event>, id: ActionId): nat {
    if es == [] then 0
    else
      var before := es[..|es| - 1];
      Overlaps(l, before, id) + if Overlapping(After(l, before), es[|es| - 1], id) then 1 else 0
  }

  /**
   * Executions, those still to be dispatched, and one that the gate stands open for are covered by
   * approvals, overlapping checks and executors that failed between their dispatch and their mark.
   */
  ghost predicate Covered(l: Ledger, id: ActionId, overlaps: nat) {
    l.executions[id] + l.checked[id] + (if l.Open(id) then 1 else 0) <= l.approvals[id] + overlaps + l.orphans[id]
  }

  lemma EventCovered(l: Ledger, e: Event, id: ActionId, overlaps: nat)
    requires Covered(l, id, overlaps)
    ensures Covered(Next(l, e), id, overlaps + if Overlapping(l, e, id) then 1 else 0)
  {
    if e.id != id {
      OtherAction(l, e, id);
      hide Next;
    }
  }

  /** What an event of another action leaves alone. */
  lemma OtherAction(l: Ledger, e: Event, id: ActionId)
    requires e.id != id
    ensures var r := Next(l, e);
      && MayExecute(r.rows, id) == MayExecute(l.rows, id) && r.orphans[id] == l.orphans[id]
      && r.approvals[id] == l.approvals[id] && r.executions[id] == l.executions[id]
      && r.checked[id] == l.checked[id] && r.unmarked[id] == l.unmarked[id]
  {
  }

  /** In every run, whatever overlaps and wherever executors fail. */
  lemma {:induction false} ExecutionsAreCovered(es: seq<Event>, id: ActionId)
    ensures Covered(After(NO_ACTIONS, es), id, Overlaps(NO_ACTIONS, es, id))
  {
    if es != [] {
      var before := es[..|es| - 1];
      ExecutionsAreCovered(before, id);
      EventCovered(After(NO_ACTIONS, before), es[|es| - 1], id, Overlaps(NO_ACTIONS, before, id));
    }
  }

  /** No executor checks the action while another has it under way, and none fails between dispatch and mark. */
  ghost predicate Orderly(l: Ledger, es: seq<Event>, id: ActionId) {
    forall i :: 0 <= i < |es| ==>
      es[i] != Orphan(id) && (es[i] == Check(id) ==> After(l, es[..i]).UnderWay(id) == 0)
  }

  lemma {:induction false} OrderlyCountsNothing(l: Ledger, es: seq<Event>, id: ActionId)
    requires Orderly(l, es, id)
    ensures Overlaps(l, es, id) == 0 && After(l, es).orphans[id] == l.orphans[id]
  {
    hide Next, MayExecute;
    if es != [] {
      var before := es[..|es| - 1];
      forall i | 0 <= i < |before|
        ensures before[i] != Orphan(id) && (before[i] == Check(id) ==> After(l, before[..i]).UnderWay(id) == 0)
      {
        assert before[..i] == es[..i] && before[i] == es[i];
      }
      OrderlyCountsNothing(l, before, id);
      OrphansKept(After(l, before), es[|es| - 1], id);
      assert es[..|es| - 1] == before;
    }
  }

  lemma OrphansKept(l: Ledger, e: Event, id: ActionId)
    requires e != Orphan(id)
    ensures Next(l, e).orphans[id] == l.orphans[id]
  {
  }

  /** So without either nothing executes without its own approval. */
  lemma {:induction false} ExecutionsAreApproved(es: seq<Event>, id: ActionId)
    requires Orderly(NO_ACTIONS, es, id)
    ensures var l := After(NO_ACTIONS, es);
      l.executions[id] + (if l.Open(id) then 1 else 0) <= l.approvals[id]
  {
    ExecutionsAreCovered(es, id);
    OrderlyCountsNothing(NO_ACTIONS, es, id);
  }

  /** The events of one call of execute_approved. */
  function Steps(id: ActionId, fate: Fate): seq<Event> {
    match fate
    case Finishes => [Check(id)] + [Dispatch(id)] + [Mark(id)]
    case FailsBefore => [Check(id)] + [Drop(id)]
    case FailsAfter => [Check(id)] + [Dispatch(id)] + [Orphan(id)]
  }

  lemma AfterSnoc(l: Ledger, es: seq<Event>, e: Event)
    ensures After(l, es + [e]) == Next(After(l, es), e)
  {
    assert (es + [e])[..|es|] == es;
  }

  /** One call with nothing in between is the run of its events. */
  lemma AttemptIsItsSteps(l: Ledger, id: ActionId, fate: Fate)
    requires l.UnderWay(id) == 0
    ensures var r := After(l, Steps(id, fate)); var (answer, did, marked) := Attempt(l.rows, id, fate);
      && r.rows == (if marked then l.rows[id := Executed] else l.rows)
      && r.executions[id] == l.executions[id] + (if did then 1 else 0)
      && r.orphans[id] == l.orphans[id] + (if did && !marked then 1 else 0)
      && r.UnderWay(id) == 0 && r.approvals == l.approvals
  {
    StepsUnfold(l, id, fate);
    hide After;
    var checked := Next(l, Check(id));
    if MayExecute(l.rows, id).Ok? {
      assert checked.checked[id] == 1 && checked.rows == l.rows;
    } else {
      assert checked == l && l.checked[id] == 0 && l.unmarked[id] == 0;
    }
  }

  lemma StepsUnfold(l: Ledger, id: ActionId, fate: Fate)
    ensures var checked := Next(l, Check(id));
      After(l, Steps(id, fate)) == match fate
        case Finishes => Next(Next(checked, Dispatch(id)), Mark(id))
        case FailsBefore => Next(checked, Drop(id))
        case FailsAfter => Next(Next(checked, Dispatch(id)), Orphan(id))
  {
    hide Next;
    AfterSnoc(l, [], Check(id));
    assert [] + [Check(id)] == [Check(id)];
    match fate
    case FailsBefore => AfterSnoc(l, [Check(id)], Drop(id));
    case _ =>
      AfterSnoc(l, [Check(id)], Dispatch(id));
      AfterSnoc(l, [Check(id)] + [Dispatch(id)], if fate == Finishes then Mark(id) else Orphan(id));
  }

  lemma {:induction false} AfterAppend(l: Ledger, a: seq<Event>, b: seq<Event>)
    ensures After(l, a + b) == After(After(l, a), b)
  {
    if b == [] {
      assert a + b == a;
    } else {
      assert (a + b)[..|a + b| - 1] == a + b[..|b| - 1];
      AfterAppend(l, a, b[..|b| - 1]);
    }
  }

  /** n calls of execute_approved, each failing between its dispatch and its mark. */
  function Orphaned(id: ActionId, n: nat): seq<Event> {
    if n == 0 then [] else Orphaned(id, n - 1) + Steps(id, FailsAfter)
  }

  lemma OrphanedZero(l: Ledger, id: ActionId)
    ensures After(l, Orphaned(id, 0)) == l
  {
  }

  /**
   * Failing marks break it without any overlap: n calls in a row that lose theirs execute an approved
   * action n times and leave it approved, covered if and only if n is at most what was left.
   */
  lemma {:induction false} OrphansExceedApprovals(l: Ledger, id: ActionId, n: nat)
    requires l.Open(id)
    ensures var r := After(l, Orphaned(id, n));
      && r.Open(id) && r.rows == l.rows && r.approvals == l.approvals
      && r.executions[id] == l.executions[id] + n && r.orphans[id] == l.orphans[id] + n
      && (r.executions[id] <= r.approvals[id] <==> l.executions[id] + n <= l.approvals[id])
  {
    hide After, Next, Steps;
    OrphanedZero(l, id);
    if n > 0 {
      OrphansExceedApprovals(l, id, n - 1);
      AfterAppend(l, Orphaned(id, n - 1), Steps(id, FailsAfter));
      AttemptIsItsSteps(After(l, Orphaned(id, n - 1)), id, FailsAfter);
    }
  }

  function Times(e: Event, n: nat): seq<Event> { seq(n, _ => e) }

  lemma {:induction false} ChecksPile(l: Ledger, id: ActionId, n: nat)
    requires MayExecute(l.rows, id).Ok?
    ensures After(l, Times(Check(id), n)) == l.(checked := l.checked[id := l.checked[id] + n])
  {
    if n > 0 {
      assert Times(Check(id), n)[..n - 1] == Times(Check(id), n - 1);
      ChecksPile(l, id, n - 1);
    } else {
      assert Times(Check(id), 0) == [];
    }
  }

  lemma {:induction false} DispatchesPile(l: Ledger, id: ActionId, n: nat)
    requires l.checked[id] >= n
    ensures var r := After(l, Times(Dispatch(id), n));
      && r.approvals == l.approvals && r.executions[id] == l.executions[id] + n && r.checked[id] == l.checked[id] - n
      && r.orphans == l.orphans
  {
    if n > 0 {
      assert Times(Dispatch(id), n)[..n - 1] == Times(Dispatch(id), n - 1);
      DispatchesPile(l, id, n - 1);
    } else {
      assert Times(Dispatch(id), 0) == [];
    }
  }

  /**
   * Overlapping executors break it as well: n of them that all check an approved action before the first
   * marks it execute it n times, covered if and only if n is at most what was left.
   */
  lemma OverlapExceedsApprovals(l: Ledger, id: ActionId, n: nat)
    requires l.Open(id)
    ensures var r := After(l, Times(Check(id), n) + Times(Dispatch(id), n));
      && r.executions[id] == l.executions[id] + n
      && (r.executions[id] <= r.approvals[id] <==> l.executions[id] + n <= l.approvals[id])
  {
    AfterAppend(l, Times(Check(id), n), Times(Dispatch(id), n));
    ChecksPile(l, id, n);
    DispatchesPile(After(l, Times(Check(id), n)), id, n);
  }

  lemma {:induction false} OverlapsAppend(l: Ledger, a: seq<Event>, b: seq<Event>, id: ActionId)
    ensures Overlaps(l, a + b, id) == Overlaps(l, a, id) + Overlaps(After(l, a), b, id)
  {
    hide Overlapping, Next;
    if b == [] {
      assert a + b == a;
    } else {
      var before := b[..|b| - 1];
      assert (a + b)[..|a + b| - 1] == a + before;
      AfterAppend(l, a, before);
      OverlapsAppend(l, a, before, id);
    }
  }

  lemma {:induction false} ChecksOverlap(l: Ledger, id: ActionId, n: nat)
    requires l.Open(id) && n > 0
    ensures Overlaps(l, Times(Check(id), n), id) == n - 1
  {
    var before := Times(Check(id), n - 1);
    assert Times(Check(id), n)[..n - 1] == before;
    ChecksPile(l, id, n - 1);
    if n > 1 { ChecksOverlap(l, id, n - 1); } else { assert before == []; }
  }

  lemma {:induction false} OthersDoNotOverlap(l: Ledger, es: seq<Event>, id: ActionId)
    requires Check(id) !in es
    ensures Overlaps(l, es, id) == 0
  {
    if es != [] {
      assert es[|es| - 1] in es;
      OthersDoNotOverlap(l, es[..|es| - 1], id);
    }
  }

  lemma {:induction false} OrphanedDoesNotOverlap(l: Ledger, id: ActionId, n: nat)
    requires l.Open(id)
    ensures Overlaps(l, Orphaned(id, n), id) == 0
  {
    hide After, Overlaps, Steps;
    if n > 0 {
      var before := Orphaned(id, n - 1);
      OrphanedDoesNotOverlap(l, id, n - 1);
      OrphansExceedApprovals(l, id, n - 1);
      OverlapsAppend(l, before, Steps(id, FailsAfter), id);
      OneCallDoesNotOverlap(After(l, before), id);
    } else {
      OthersDoNotOverlap(l, [], id);
    }
  }

  lemma OneCallDoesNotOverlap(l: Ledger, id: ActionId)
    requires l.Open(id)
    ensures Overlaps(l, Steps(id, FailsAfter), id) == 0
  {
    hide After, Overlaps;
    var check, rest := Times(Check(id), 1), [Dispatch(id)] + [Orphan(id)];
    assert Steps(id, FailsAfter) == check + rest;
    OverlapsAppend(l, check, rest, id);
    ChecksOverlap(l, id, 1);
    OthersDoNotOverlap(After(l, check), rest, id);
  }

  /**
   * The bound is exact: for any number of overlapping checks and of failed marks, one approval suffices
   * for a run with that many executions more.
   */
  lemma {:induction false} BoundIsReached(id: ActionId, overlaps: nat, orphans: nat) returns (es: seq<Event>)
    ensures var l := After(NO_ACTIONS, es);
      && l.approvals[id] == 1 && Overlaps(NO_ACTIONS, es, id) == overlaps && l.orphans[id] == orphans
      && l.executions[id] == 1 + overlaps + orphans
  {
    hide Next, Overlapping, Steps, Orphaned, Times;
    var approve, lost := [Propose(id)] + [Approve(id)], Orphaned(id, orphans);
    var l0 := After(NO_ACTIONS, approve);
    ApprovedOnce(id);
    OrphansExceedApprovals(l0, id, orphans);
    OrphanedDoesNotOverlap(l0, id, orphans);
    AfterAppend(NO_ACTIONS, approve, lost);
    OverlapsAppend(NO_ACTIONS, approve, lost, id);
    OthersDoNotOverlap(NO_ACTIONS, approve, id);
    var l1, n := After(NO_ACTIONS, approve + lost), overlaps + 1;
    var checks, dispatches := Times(Check(id), n), Times(Dispatch(id), n);
    Burst(l1, id, n);
    es := approve + lost + (checks + dispatches);
    AfterAppend(NO_ACTIONS, approve + lost, checks + dispatches);
    OverlapsAppend(NO_ACTIONS, approve + lost, checks + dispatches, id);
  }

  lemma ApprovedOnce(id: ActionId)
    ensures var l := After(NO_ACTIONS, [Propose(id)] + [Approve(id)]);
      l.Open(id) && l.approvals[id] == 1 && l.executions[id] == 0 && l.orphans[id] == 0
  {
    AfterSnoc(NO_ACTIONS, [Propose(id)], Approve(id));
    AfterSnoc(NO_ACTIONS, [], Propose(id));
    assert [] + [Propose(id)] == [Propose(id)];
  }

  /** n overlapping executors. */
  lemma Burst(l: Ledger, id: ActionId, n: nat)
    requires l.Open(id) && n > 0
    ensures var es := Times(Check(id), n) + Times(Dispatch(id), n); var r := After(l, es);
      && Overlaps(l, es, id) == n - 1 && r.executions[id] == l.executions[id] + n
      && r.approvals == l.approvals && r.orphans == l.orphans
  {
    hide Next, Overlapping;
    var checks, dispatches := Times(Check(id), n), Times(Dispatch(id), n);
    AfterAppend(l, checks, dispatches);
    OverlapsAppend(l, checks, dispatches, id);
    ChecksOverlap(l, id, n);
    ChecksPile(l, id, n);
    DispatchesPile(After(l, checks), id, n);
    OthersDoNotOverlap(After(l, checks), dispatches, id);
  }

  // ---------------------------------------------------------------- what decides a row

  /** An event that can change the status of an action's row once it is there. */
  predicate Decides(e: Event, id: ActionId) { e in {Approve(id), Reject(id), Mark(id)} }

  /** What one event does to one row: a proposal adds it, and a decision changes it if it is there. */
  lemma RowChanges(l: Ledger, e: Event, id: ActionId)
    ensures var r := Next(l, e);
      && (id in r.rows <==> id in l.rows || e == Propose(id))
      && (id !in l.rows && e == Propose(id) ==> r.rows[id] == PendingApproval)
      && (id in l.rows && !Decides(e, id) ==> r.rows[id] == l.rows[id])
      && (id in l.rows && e == Approve(id) ==> r.rows[id] == Approved)
      && (id in l.rows && e == Reject(id) ==> r.rows[id] == Rejected)
      && (id in l.rows && e == Mark(id) ==>
            r.rows[id] == if l.unmarked[id] > 0 then Executed else l.rows[id])
  {
  }

  /** A row is there exactly when its action has been proposed. */
  lemma {:induction false} ProposedExactly(es: seq<Event>, id: ActionId)
    ensures id in After(NO_ACTIONS, es).rows <==> Propose(id) in es
  {
    hide Next;
    if es != [] {
      var before := es[..|es| - 1];
      assert es == before + [es[|es| - 1]];
      ProposedExactly(before, id);
      RowChanges(After(NO_ACTIONS, before), es[|es| - 1], id);
    }
  }

  /**
   * The last decision stands: after an approval or a rejection of a proposed action that no other decision
   * follows, whatever is proposed again, checked, dispatched or lost.
   */
  lemma {:induction false} LastDecisionStands(es: seq<Event>, id: ActionId, k: nat)
    requires k < |es| && es[k] in {Approve(id), Reject(id)} && Propose(id) in es[..k]
    requires forall j :: k < j < |es| ==> !Decides(es[j], id)
    ensures var rows := After(NO_ACTIONS, es).rows;
      id in rows && rows[id] == if es[k] == Approve(id) then Approved else Rejected
  {
    hide Next;
    var before, e := es[..|es| - 1], es[|es| - 1];
    RowChanges(After(NO_ACTIONS, before), e, id);
    if k < |before| {
      assert before[..k] == es[..k] && forall j :: 0 <= j < |before| ==> before[j] == es[j];
      LastDecisionStands(before, id, k);
    } else {
      ProposedExactly(before, id);
    }
  }

  /** No one has checked, dispatched or approved the action. */
  ghost predicate Untouched(l: Ledger, id: ActionId) {
    && l.executions[id] == 0 && l.checked[id] == 0 && l.unmarked[id] == 0
    && (id in l.rows ==> l.rows[id] in {PendingApproval, Rejected})
  }

  lemma UntouchedStays(l: Ledger, e: Event, id: ActionId)
    requires Untouched(l, id) && e != Approve(id)
    ensures Untouched(Next(l, e), id)
  {
  }

  /** An action that was never approved is never executed, whatever else happens, and no check of it passes. */
  lemma {:induction false} UnapprovedNeverRuns(es: seq<Event>, id: ActionId)
    requires Approve(id) !in es
    ensures var l := After(NO_ACTIONS, es);
      Untouched(l, id) && MayExecute(l.rows, id) == Err(if Propose(id) in es then NotApproved else ActionNotFound)
  {
    hide Next;
    ProposedExactly(es, id);
    if es != [] {
      var before := es[..|es| - 1];
      UnapprovedNeverRuns(before, id);
      UntouchedStays(After(NO_ACTIONS, before), es[|es| - 1], id);
    }
  }
}
