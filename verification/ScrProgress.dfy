/** Live stage progress of a scan (backend/scr/scr_progress.py). */
module ScrProgress {
  import opened Sequences

  datatype Status = Pending | Running | Done | Failed

  /** The ten stages in order, or a name that is none of them. */
  datatype StageRef = Known(index: nat) | Unlisted(name: string)

  const STAGE_COUNT := 10

  datatype Progress = Progress(current: StageRef, stages: seq<Status>)

  predicate Settled(s: Status) { s in {Done, Failed} }

  ghost predicate Valid(p: Progress) { |p.stages| == STAGE_COUNT }

  predicate InRange(r: StageRef) { r.Known? ==> r.index < STAGE_COUNT }

  function Blank(): Progress { Progress(Known(0), seq(STAGE_COUNT, _ => Pending)) }

  /** What the stage loop makes of stage j: the named one is set, unsettled earlier ones count as done. */
  function Marked(stages: seq<Status>, r: StageRef, s: Status, j: nat): Status
    requires j < |stages|
  {
    if r == Known(j) then s
    else if j < (if r.Known? then r.index else 0) && !Settled(stages[j]) then Done
    else stages[j]
  }

  function MarkedAll(stages: seq<Status>, r: StageRef, s: Status): seq<Status> {
    seq(|stages|, j requires 0 <= j < |stages| => Marked(stages, r, s, j))
  }

  /** set_stage on a saved record; an unlisted stage counts as the first one. */
  function Updated(p: Progress, r: StageRef, s: Status): (q: Progress)
    requires Valid(p) && InRange(r)
    ensures Valid(q)
  {
    var stages := MarkedAll(p.stages, r, s);
    var next := (if r.Known? then r.index else 0) + 1;
    if s == Done && next < STAGE_COUNT then
      Progress(Known(next), if stages[next] == Pending then stages[next := Running] else stages)
    else Progress(r, stages)
  }

  class ScrProgressTracker {
    var saved: Option<Progress>

    ghost predicate Sound()
      reads this
    {
      saved.Some? ==> Valid(saved.value)
    }

    constructor ()
      ensures saved == None
    {
      saved := None;
    }

    method Start()
      modifies this
      ensures saved == Some(Updated(Blank(), Known(0), Running))
      decreases 0, 1
    {
      saved := Some(Blank());
      SetStage(Known(0), Running);
    }

    method SetStage(r: StageRef, s: Status)
      requires Sound() && InRange(r)
      modifies this
      ensures var p := if old(saved).Some? then old(saved).value else Updated(Blank(), Known(0), Running);
        saved == Some(Updated(p, r, s))
      decreases if saved.Some? then 0 else 1, 0
    {
      if saved.None? { Start(); }
      var data := saved.value;
      var stages := data.stages;
      var currentIndex := if r.Known? then r.index else 0;
      for j := 0 to STAGE_COUNT
        invariant |stages| == STAGE_COUNT
        invariant forall k :: 0 <= k < STAGE_COUNT ==>
          stages[k] == if k < j then Marked(data.stages, r, s, k) else data.stages[k]
      {
        if r == Known(j) {
          stages := stages[j := s];
        } else if j < currentIndex && stages[j] != Done && stages[j] != Failed {
          stages := stages[j := Done];
        }
      }
      assert stages == MarkedAll(data.stages, r, s);
      if s == Done && currentIndex + 1 < STAGE_COUNT {
        if stages[currentIndex + 1] == Pending { stages := stages[currentIndex + 1 := Running]; }
        saved := Some(Progress(Known(currentIndex + 1), stages));
      } else {
        saved := Some(Progress(r, stages));
      }
    }

    method Complete()
      requires Sound()
      modifies this
      ensures old(saved).None? ==> saved == None
      ensures old(saved).Some? ==> saved == Some(Progress(Known(STAGE_COUNT - 1), seq(STAGE_COUNT, _ => Done)))
    {
      if saved.None? { return; }
      var stages := saved.value.stages;
      for j := 0 to STAGE_COUNT
        invariant |stages| == STAGE_COUNT && forall k :: 0 <= k < j ==> stages[k] == Done
      {
        stages := stages[j := Done];
      }
      assert stages == seq(STAGE_COUNT, _ => Done);
      saved := Some(Progress(Known(STAGE_COUNT - 1), stages));
    }

    /** Marks the current stage failed, starting the record first when there is none. */
    method Fail()
      requires Sound() && (saved.Some? ==> InRange(saved.value.current))
      modifies this
      ensures var p := if old(saved).Some? then old(saved).value else Updated(Blank(), Known(0), Running);
        saved == Some(Updated(p, p.current, Failed))
    {
      if saved.None? { Start(); }
      SetStage(saved.value.current, Failed);
    }
  }

  // ---------------------------------------------------------------- the shape of a record

  /**
   * What one call leaves of a record: the named stage has the given status, earlier ones are as they were if
   * settled and done otherwise, and later ones are as they were, but that a stage reported done makes the
   * next one current and starts it if it was pending.
   */
  lemma StageReads(p: Progress, i: nat, s: Status)
    requires Valid(p) && i < STAGE_COUNT
    ensures var q := Updated(p, Known(i), s);
      && q.stages[i] == s
      && (forall j :: 0 <= j < i ==> q.stages[j] == if p.stages[j] in {Done, Failed} then p.stages[j] else Done)
      && (forall j :: i + 1 < j < STAGE_COUNT ==> q.stages[j] == p.stages[j])
      && q.current == Known(if s == Done && i < 9 then i + 1 else i)
      && (i < 9 && s == Done && p.stages[i + 1] == Pending ==> q.stages[i + 1] == Running)
      && (i < 9 && !(s == Done && p.stages[i + 1] == Pending) ==> q.stages[i + 1] == p.stages[i + 1])
  {
  }

  /** A name that is no stage leaves every stage alone, but counts as the first one when it is reported done. */
  lemma UnlistedStage(p: Progress, name: string, s: Status)
    requires Valid(p)
    ensures var q := Updated(p, Unlisted(name), s);
      && (s != Done ==> q == Progress(Unlisted(name), p.stages))
      && (s == Done ==> q.current == Known(1) && forall j :: 0 <= j < STAGE_COUNT ==>
            q.stages[j] == if j == 1 && p.stages[1] == Pending then Running else p.stages[j])
  {
  }

  /** The record a scan starts with. */
  lemma StartReads()
    ensures var q := Updated(Blank(), Known(0), Running);
      |q.stages| == 10 && q.current == Known(0) && q.stages[0] == Running
        && forall j :: 0 < j < 10 ==> q.stages[j] == Pending
  {
  }

  /** Everything before the current stage is settled and everything after it pending, so at most one runs. */
  ghost predicate Shaped(p: Progress) {
    && Valid(p) && p.current.Known? && p.current.index < STAGE_COUNT
    && (forall j :: 0 <= j < p.current.index ==> Settled(p.stages[j]))
    && (forall j :: p.current.index < j < STAGE_COUNT ==> p.stages[j] == Pending)
  }

  lemma StartIsShaped()
    ensures Shaped(Updated(Blank(), Known(0), Running))
  {
  }

  /**
   * One call keeps the shape if and only if its stage is not below the current one, or it is the one
   * just before, reported done or with the current one still pending, or the one before that,
   * reported done with the current one still pending.
   */
  lemma CallKeepsShape(p: Progress, i: nat, s: Status)
    requires Shaped(p) && i < STAGE_COUNT
    ensures var c := p.current.index;
      Shaped(Updated(p, Known(i), s)) <==>
        || i >= c
        || (i + 1 == c && (s == Done || p.stages[c] == Pending))
        || (i + 2 == c && s == Done && p.stages[c] == Pending)
  {
    var c, q := p.current.index, Updated(p, Known(i), s);
    if i < c {
      var top := q.current.index;
      assert top == if s == Done then i + 1 else i;
      if top + 1 < c {
        assert Settled(p.stages[top + 1]) && q.stages[top + 1] == p.stages[top + 1];
      } else if top < c {
        assert q.stages[c] == p.stages[c];
      }
    }
  }

  datatype Call = Call(stage: nat, status: Status)

  function Played(p: Progress, calls: seq<Call>): (q: Progress)
    requires Valid(p) && forall i :: 0 <= i < |calls| ==> calls[i].stage < STAGE_COUNT
    ensures Valid(q)
  {
    if calls == [] then p
    else Updated(Played(p, calls[..|calls| - 1]), Known(calls[|calls| - 1].stage), calls[|calls| - 1].status)
  }

  /** No call names a stage below the one current at its time. */
  ghost predicate Climbs(p: Progress, calls: seq<Call>)
    requires Valid(p) && forall i :: 0 <= i < |calls| ==> calls[i].stage < STAGE_COUNT
  {
    calls == [] || (
      var before := Played(p, calls[..|calls| - 1]);
      Climbs(p, calls[..|calls| - 1]) && (before.current.Known? ==> before.current.index <= calls[|calls| - 1].stage))
  }

  ghost predicate AtMostOneRunning(p: Progress) {
    forall i, j :: 0 <= i < j < |p.stages| ==> !(p.stages[i] == Running && p.stages[j] == Running)
  }

  /**
   * Over every climbing sequence of calls, stages before the current are settled, later ones pending, one
   * at most runs.
   */
  lemma {:induction false} ClimbingKeepsShape(p: Progress, calls: seq<Call>)
    requires Shaped(p) && (forall i :: 0 <= i < |calls| ==> calls[i].stage < STAGE_COUNT) && Climbs(p, calls)
    ensures Shaped(Played(p, calls)) && AtMostOneRunning(Played(p, calls))
  {
    if calls != [] {
      ClimbingKeepsShape(p, calls[..|calls| - 1]);
      CallKeepsShape(Played(p, calls[..|calls| - 1]), calls[|calls| - 1].stage, calls[|calls| - 1].status);
    }
  }

  /** So it is with every climbing sequence of calls on the record that a scan starts with. */
  lemma StartedScanIsShaped(calls: seq<Call>)
    requires forall i :: 0 <= i < |calls| ==> calls[i].stage < STAGE_COUNT
    requires Climbs(Updated(Blank(), Known(0), Running), calls)
    ensures var q := Played(Updated(Blank(), Known(0), Running), calls); Shaped(q) && AtMostOneRunning(q)
  {
    StartIsShaped();
    ClimbingKeepsShape(Updated(Blank(), Known(0), Running), calls);
  }
}
