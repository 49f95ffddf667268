/**
 * Checkpointed batch analysis of a scan that may be stopped or die at any store write
 * (backend/scr/scr_tool_host.py, backend/scr/stages/batch_context_guard.py,
 * backend/memory/personal_memory.py).
 */
module Batches {
  import opened Sequences

  /** key is the batch loop's fingerprint of the finding, fingerprint the stored field. */
  datatype Finding = Finding(key: string, fingerprint: string)

  /** Batch ids are the numbers in "batch-{n}". */
  datatype Progress = Progress(total: nat, completed: seq<nat>, failed: seq<nat>, current: nat)

  datatype Memory = Memory(
    progress: Option<Progress>, scanned: set<string>, fingerprints: set<string>,
    log: seq<Finding>, secrets: seq<string>, heartbeat: Option<nat>)

  /** One write to the scan's private memory. */
  datatype Write =
    | Beat(id: nat)
    | AddFingerprint(key: string)
    | Push(finding: Finding)
    | PushSecret(secret: string)
    | MarkScanned(file: string)
    | SaveProgress(progress: Progress)

  /** What the analysis of a batch yields, after filtering. */
  datatype BatchResult = BatchResult(code: seq<Finding>, secrets: seq<string>)

  function Applied(m: Memory, w: Write): Memory {
    match w
    case Beat(id) => m.(heartbeat := Some(id))
    case AddFingerprint(k) => m.(fingerprints := m.fingerprints + {k})
    case Push(f) => m.(log := m.log + [f])
    case PushSecret(s) => m.(secrets := m.secrets + [s])
    case MarkScanned(f) => m.(scanned := m.scanned + {f})
    case SaveProgress(p) => m.(progress := Some(p))
  }

  function ApplyAll(m: Memory, ws: seq<Write>): Memory {
    if ws == [] then m else Applied(ApplyAll(m, ws[..|ws| - 1]), ws[|ws| - 1])
  }

  // ---------------------------------------------------------------- the writes of one batch

  function KnownAfter(known: set<string>, fs: seq<Finding>): set<string> {
    if fs == [] then known else KnownAfter(known, fs[..|fs| - 1]) + {fs[|fs| - 1].key}
  }

  /** A key seen for the first time is recorded and stamped on its finding; other findings keep their stamp. */
  function StampWrites(known: set<string>, fs: seq<Finding>): seq<Write> {
    if fs == [] then []
    else
      var f := fs[|fs| - 1];
      StampWrites(known, fs[..|fs| - 1])
        + if f.key in KnownAfter(known, fs[..|fs| - 1]) then [] else [AddFingerprint(f.key)]
  }

  function Stamped(known: set<string>, fs: seq<Finding>): seq<Finding> {
    if fs == [] then []
    else
      var f := fs[|fs| - 1];
      Stamped(known, fs[..|fs| - 1])
        + [if f.key in KnownAfter(known, fs[..|fs| - 1]) then f else f.(fingerprint := f.key)]
  }

  function Pushes(fs: seq<Finding>): seq<Write> { seq(|fs|, i requires 0 <= i < |fs| => Push(fs[i])) }

  function Marks(files: seq<string>): seq<Write> { seq(|files|, i requires 0 <= i < |files| => MarkScanned(files[i])) }

  function SecretPushes(secrets: seq<string>): seq<Write> {
    seq(|secrets|, i requires 0 <= i < |secrets| => PushSecret(secrets[i]))
  }

  function Completed(p: Option<Progress>): seq<nat> { if p.Some? then p.value.completed else [] }

  function Failed(p: Option<Progress>): seq<nat> { if p.Some? then p.value.failed else [] }

  function NextProgress(p: Option<Progress>, total: nat, id: nat): Progress {
    Progress(total, if id in Completed(p) then Completed(p) else Completed(p) + [id], Failed(p), id)
  }

  function FindingWrites(known: set<string>, fs: seq<Finding>): seq<Write> {
    StampWrites(known, fs) + Pushes(Stamped(known, fs))
  }

  /** What follows the code findings: the secret ones, then the files. */
  function TailWrites(secrets: seq<string>, files: seq<string>): seq<Write> { SecretPushes(secrets) + Marks(files) }

  function WorkWrites(known: set<string>, files: seq<string>, r: BatchResult): seq<Write> {
    FindingWrites(known, r.code) + TailWrites(r.secrets, files)
  }

  /** The heartbeat, fingerprints, findings, secrets and files of a batch, and the checkpoint last. */
  function BatchWrites(m: Memory, total: nat, id: nat, files: seq<string>, r: BatchResult): seq<Write> {
    [Beat(id)] + WorkWrites(m.fingerprints, files, r) + [SaveProgress(NextProgress(m.progress, total, id))]
  }

  // ---------------------------------------------------------------- a run

  /**
   * What one process meets: the batches before which a stop signal stands, what its reads of the pause
   * flag before each batch give, the result of each batch, and the number of writes it lives for.
   */
  datatype Env = Env(stopAt: set<nat>, pauses: map<nat, seq<bool>>, results: map<nat, BatchResult>, life: nat)

  function PausedAt(env: Env, id: nat, read: nat): bool {
    id in env.pauses && read < |env.pauses[id]| && env.pauses[id][read]
  }

  datatype End = Finished | Stopped | Died

  datatype Run = Run(memory: Memory, analysed: seq<nat>, end: End)

  function ResultsOf(env: Env, id: nat): BatchResult {
    if id in env.results then env.results[id] else BatchResult([], [])
  }

  /**
   * The loop of _run_batch_analysis from batch i on; checkpoint is the progress loaded at the start,
   * analysed the batches begun so far.
   */
  function RunFrom(
    m: Memory, checkpoint: Option<Progress>, batches: seq<seq<string>>, i: nat, env: Env, life: nat,
    analysed: seq<nat>): Run
    requires i <= |batches|
    decreases |batches| - i
  {
    if i == |batches| then Run(m, analysed, Finished)
    else if i in Completed(checkpoint) then RunFrom(m, checkpoint, batches, i + 1, env, life, analysed)
    else if i in env.stopAt then Run(m, analysed, Stopped)
    else if i in Completed(m.progress) then RunFrom(m, checkpoint, batches, i + 1, env, life, analysed)
    else
      var ws := BatchWrites(m, |batches|, i, batches[i], ResultsOf(env, i));
      if life < |ws| then Run(ApplyAll(m, ws[..life]), analysed + [i], Died)
      else RunFrom(ApplyAll(m, ws), checkpoint, batches, i + 1, env, life - |ws|, analysed + [i])
  }

  function RunOnce(m: Memory, batches: seq<seq<string>>, env: Env): Run {
    RunFrom(m, m.progress, batches, 0, env, env.life, [])
  }

  /** files[i : i + size] for i in range(0, max(len(files), 1), size). */
  function Split(files: seq<string>, size: nat): seq<seq<string>>
    requires size > 0
  {
    if |files| <= size then [files] else [files[..size]] + Split(files[size..], size)
  }

  lemma {:induction false} SplitJoins(files: seq<string>, size: nat)
    requires size > 0
    ensures Flatten(Split(files, size)) == files
    ensures forall i :: 0 <= i < |Split(files, size)| ==> |Split(files, size)[i]| <= size
  {
    if |files| <= size {
      assert Flatten([files]) == files + Flatten([]);
    } else {
      SplitJoins(files[size..], size);
      assert ([files[..size]] + Split(files[size..], size))[1..] == Split(files[size..], size);
      assert files == files[..size] + files[size..];
    }
  }

  /** Every batch but the last is full, and none is empty unless there are no files at all. */
  lemma {:induction false} SplitFills(files: seq<string>, size: nat, i: nat)
    requires size > 0 && i < |Split(files, size)|
    ensures i + 1 < |Split(files, size)| ==> |Split(files, size)[i]| == size
    ensures |Split(files, size)[i]| == 0 ==> files == []
  {
    if |files| > size {
      SplitFills(files[size..], size, if i == 0 then 0 else i - 1);
    }
  }

  // ---------------------------------------------------------------- the loop itself

  class BatchAnalysis {
    var progress: Option<Progress>
    var scanned: set<string>
    var fingerprints: set<string>
    var log: seq<Finding>
    var secrets: seq<string>
    var heartbeat: Option<nat>
    var life: nat

    ghost function Contents(): Memory
      reads this
    {
      Memory(progress, scanned, fingerprints, log, secrets, heartbeat)
    }

    constructor (m: Memory, life: nat)
      ensures Contents() == m && this.life == life
    {
      progress, scanned, fingerprints := m.progress, m.scanned, m.fingerprints;
      log, secrets, heartbeat := m.log, m.secrets, m.heartbeat;
      this.life := life;
    }

    /** One write, or death. */
    method Store(w: Write) returns (died: bool)
      modifies this
      ensures died <==> old(life) == 0
      ensures died ==> Contents() == old(Contents()) && life == 0
      ensures !died ==> Contents() == Applied(old(Contents()), w) && life == old(life) - 1
    {
      if life == 0 { return true; }
      match w {
        case Beat(id) => heartbeat := Some(id);
        case AddFingerprint(k) => fingerprints := fingerprints + {k};
        case Push(f) => log := log + [f];
        case PushSecret(s) => secrets := secrets + [s];
        case MarkScanned(f) => scanned := scanned + {f};
        case SaveProgress(p) => progress := Some(p);
      }
      life := life - 1;
      return false;
    }

    /** The same write list, stored one by one. */
    method StoreAll(ws: seq<Write>) returns (died: bool)
      modifies this
      ensures died <==> old(life) < |ws|
      ensures Contents() == ApplyAll(old(Contents()), if died then ws[..old(life)] else ws)
      ensures life == if died then 0 else old(life) - |ws|
    {
      for i := 0 to |ws|
        invariant i + life == old(life) && Contents() == ApplyAll(old(Contents()), ws[..i])
      {
        assert ws[..i + 1][..i] == ws[..i];
        died := Store(ws[i]);
        if died { return; }
      }
      assert ws[..|ws|] == ws;
      died := false;
    }

    /** The fingerprint loop over the filtered findings of a batch. */
    method StampFindings(fs: seq<Finding>) returns (stamped: seq<Finding>, died: bool)
      modifies this
      ensures var ws := StampWrites(old(fingerprints), fs);
        && (died <==> old(life) < |ws|)
        && Contents() == ApplyAll(old(Contents()), if died then ws[..old(life)] else ws)
        && life == (if died then 0 else old(life) - |ws|)
      ensures !died ==> stamped == Stamped(old(fingerprints), fs)
    {
      hide StampWrites, Stamped, KnownAfter, ApplyAll;
      ghost var m, l := Contents(), life;
      stamped := [];
      NothingStamped(m, l);
      for i := 0 to |fs|
        invariant StampedSoFar(m, l, fs[..i], Contents(), life, stamped)
      {
        assert fs[..i + 1] == fs[..i] + [fs[i]];
        if fs[i].key in fingerprints {
          StampKnown(m, l, fs[..i], Contents(), life, stamped, fs[i]);
          stamped := stamped + [fs[i]];
        } else {
          StampNew(m, l, fs[..i], Contents(), life, stamped, fs[i]);
          StampsUpTo(m.fingerprints, fs, i);
          died := Store(AddFingerprint(fs[i].key));
          if died { return; }
          stamped := stamped + [fs[i].(fingerprint := fs[i].key)];
        }
      }
      assert fs[..|fs|] == fs;
      died := false;
    }

    /** append_findings after the fingerprint loop, the code list first. */
    method StoreFindings(r: BatchResult) returns (died: bool)
      modifies this
      ensures var ws := FindingWrites(old(fingerprints), r.code) + SecretPushes(r.secrets);
        && (died <==> old(life) < |ws|)
        && Contents() == ApplyAll(old(Contents()), if died then ws[..old(life)] else ws)
        && life == (if died then 0 else old(life) - |ws|)
    {
      hide StampWrites, Stamped, Pushes, SecretPushes;
      ghost var m, l := Contents(), life;
      ghost var a, b := StampWrites(fingerprints, r.code), Pushes(Stamped(fingerprints, r.code));
      ghost var c := SecretPushes(r.secrets);
      var stamped;
      stamped, died := StampFindings(r.code);
      if died {
        assert (a + b + c)[..l] == a[..l];
        return;
      }
      died := StoreAll(Pushes(stamped));
      StoredInTwo(m, a, b, l);
      if died {
        assert (a + b + c)[..l] == (a + b)[..l];
        return;
      }
      died := StoreAll(SecretPushes(r.secrets));
      StoredInTwo(m, a + b, c, l);
    }

    /** The findings of a batch, then its files. */
    method StoreWork(files: seq<string>, r: BatchResult) returns (died: bool)
      modifies this
      ensures var ws := WorkWrites(old(fingerprints), files, r);
        && (died <==> old(life) < |ws|)
        && Contents() == ApplyAll(old(Contents()), if died then ws[..old(life)] else ws)
        && life == (if died then 0 else old(life) - |ws|)
    {
      hide FindingWrites, SecretPushes, Marks;
      ghost var m, l := Contents(), life;
      ghost var a, b, c := FindingWrites(fingerprints, r.code), SecretPushes(r.secrets), Marks(files);
      assert a + (b + c) == a + b + c;
      died := StoreFindings(r);
      if died {
        assert (a + b + c)[..l] == (a + b)[..l];
        return;
      }
      died := StoreAll(Marks(files));
      StoredInTwo(m, a + b, c, l);
    }

    /** pre_batch_check: stop signal, pause polling, an already completed batch, and the heartbeat. */
    method PreBatchCheck(id: nat, env: Env) returns (verdict: Verdict, died: bool, polls: nat)
      modifies this
      ensures polls <= 10 && (polls > 0 ==> id !in env.stopAt) && forall k :: 0 <= k < polls ==> PausedAt(env, id, k)
      ensures id !in env.stopAt ==> polls == 10 || !PausedAt(env, id, polls)
      ensures verdict ==
        if id in env.stopAt then StopSignal else if id in Completed(old(progress)) then AlreadyDone else GoOn
      ensures died <==> verdict.GoOn? && old(life) == 0
      ensures Contents() == if verdict.GoOn? && !died then Applied(old(Contents()), Beat(id)) else old(Contents())
      ensures life == if verdict.GoOn? && !died then old(life) - 1 else old(life)
    {
      polls := 0;
      if id in env.stopAt { return StopSignal, false, polls; }
      while polls < 10 && PausedAt(env, id, polls)
        invariant polls <= 10 && forall k :: 0 <= k < polls ==> PausedAt(env, id, k)
      {
        polls := polls + 1;
      }
      if id in Completed(progress) { return AlreadyDone, false, polls; }
      died := Store(Beat(id));
      verdict := GoOn;
    }

    /** What the loop stores for a batch after its heartbeat, the checkpoint last. */
    method StoreBatch(total: nat, id: nat, files: seq<string>, r: BatchResult) returns (died: bool)
      modifies this
      ensures var checkpoint := SaveProgress(NextProgress(old(progress), total, id));
        var ws := WorkWrites(old(fingerprints), files, r) + [checkpoint];
        && (died <==> old(life) < |ws|)
        && Contents() == ApplyAll(old(Contents()), if died then ws[..old(life)] else ws)
        && life == (if died then 0 else old(life) - |ws|)
    {
      hide WorkWrites;
      ghost var m, l := Contents(), life;
      ghost var work := WorkWrites(fingerprints, files, r);
      ghost var ws := work + [SaveProgress(NextProgress(progress, total, id))];
      assert ws[..|ws| - 1] == work;
      CheckpointLast(m, files, r);
      died := StoreWork(files, r);
      if died {
        assert ws[..l] == work[..l];
        return;
      }
      var done := if id in Completed(progress) then Completed(progress) else Completed(progress) + [id];
      died := Store(SaveProgress(Progress(total, done, Failed(progress), id)));
      if died { assert ws[..l] == work; }
    }

    /** _run_batch_analysis. */
    method RunBatchAnalysis(batches: seq<seq<string>>, env: Env) returns (analysed: seq<nat>, end: End)
      requires life == env.life
      modifies this
      ensures Run(Contents(), analysed, end) == RunOnce(old(Contents()), batches, env)
    {
      hide BatchWrites, WorkWrites, ApplyAll;
      var checkpoint := progress;
      analysed, end := [], Finished;
      ghost var whole := RunOnce(Contents(), batches, env);
      var i := 0;
      while i < |batches|
        invariant 0 <= i <= |batches| && end == Finished
        invariant whole == RunFrom(Contents(), checkpoint, batches, i, env, life, analysed)
      {
        if i !in Completed(checkpoint) {
          ghost var m, l := Contents(), life;
          var verdict, died, polls := PreBatchCheck(i, env);
          if verdict == StopSignal {
            end := Stopped;
            break;
          }
          if verdict == GoOn {
            if !died {
              died := StoreBatch(|batches|, i, batches[i], ResultsOf(env, i));
            }
            BeatThenWork(m, |batches|, i, batches[i], ResultsOf(env, i), l);
            analysed := analysed + [i];
            if died {
              end := Died;
              break;
            }
          }
        }
        i := i + 1;
      }
    }
  }

  /** What pre_batch_check answers. */
  datatype Verdict = GoOn | StopSignal | AlreadyDone

  /** The writes of a batch are its heartbeat, and then those that follow it, up to any point. */
  lemma BeatThenWork(m: Memory, total: nat, id: nat, files: seq<string>, r: BatchResult, life: nat)
    ensures var ws, m1 := BatchWrites(m, total, id, files, r), Applied(m, Beat(id));
      var after := WorkWrites(m1.fingerprints, files, r) + [SaveProgress(NextProgress(m1.progress, total, id))];
      && |ws| == |after| + 1
      && ApplyAll(m, ws) == ApplyAll(m1, after)
      && (0 < life < |ws| ==> ApplyAll(m, ws[..life]) == ApplyAll(m1, after[..life - 1]))
      && (life == 0 ==> ApplyAll(m, ws[..life]) == m)
  {
    hide WorkWrites, NextProgress;
    var ws, m1 := BatchWrites(m, total, id, files, r), Applied(m, Beat(id));
    var after := WorkWrites(m1.fingerprints, files, r) + [SaveProgress(NextProgress(m1.progress, total, id))];
    assert ws == [Beat(id)] + after;
    assert [Beat(id)][..0] == [];
    ApplyTwo(m, [Beat(id)], after);
    if 0 < life < |ws| {
      ApplyTwo(m, [Beat(id)], after[..life - 1]);
      assert ws[..life] == [Beat(id)] + after[..life - 1];
    }
  }

  /** A process that had l writes to live has stamped fs over memory m, and is now at memory now with life left. */
  ghost predicate StampedSoFar(m: Memory, l: nat, fs: seq<Finding>, now: Memory, life: nat, stamped: seq<Finding>) {
    && |StampWrites(m.fingerprints, fs)| + life == l && now == ApplyAll(m, StampWrites(m.fingerprints, fs))
    && now.fingerprints == KnownAfter(m.fingerprints, fs) && stamped == Stamped(m.fingerprints, fs)
  }

  lemma NothingStamped(m: Memory, l: nat)
    ensures StampedSoFar(m, l, [], m, l, [])
  {
  }

  /** A finding whose key is known keeps its stamp, and nothing is written. */
  lemma {:induction false} StampKnown(
    m: Memory, l: nat, fs: seq<Finding>, now: Memory, life: nat, stamped: seq<Finding>, f: Finding)
    requires StampedSoFar(m, l, fs, now, life, stamped) && f.key in now.fingerprints
    ensures StampedSoFar(m, l, fs + [f], now, life, stamped + [f])
  {
    assert (fs + [f])[..|fs|] == fs;
    assert now.fingerprints + {f.key} == now.fingerprints;
    assert StampWrites(m.fingerprints, fs) + [] == StampWrites(m.fingerprints, fs);
  }

  lemma {:induction false} StampNew(
    m: Memory, l: nat, fs: seq<Finding>, now: Memory, life: nat, stamped: seq<Finding>, f: Finding)
    requires StampedSoFar(m, l, fs, now, life, stamped) && f.key !in now.fingerprints
    ensures StampWrites(m.fingerprints, fs + [f]) == StampWrites(m.fingerprints, fs) + [AddFingerprint(f.key)]
    ensures life > 0 ==>
      StampedSoFar(m, l, fs + [f], Applied(now, AddFingerprint(f.key)), life - 1, stamped + [f.(fingerprint := f.key)])
  {
    var ws := StampWrites(m.fingerprints, fs);
    assert (fs + [f])[..|fs|] == fs;
    assert (ws + [AddFingerprint(f.key)])[..|ws|] == ws;
  }

  lemma {:induction false} StampsOnly(known: set<string>, fs: seq<Finding>)
    ensures forall i :: 0 <= i < |StampWrites(known, fs)| ==> StampWrites(known, fs)[i].AddFingerprint?
  {
    if fs != [] { StampsOnly(known, fs[..|fs| - 1]); }
  }

  lemma {:induction false} StampPrefix(known: set<string>, fs: seq<Finding>, i: nat)
    requires i <= |fs|
    ensures StampWrites(known, fs[..i]) <= StampWrites(known, fs)
    decreases |fs| - i
  {
    if i < |fs| {
      StampPrefix(known, fs, i + 1);
      assert fs[..i + 1][..i] == fs[..i];
    } else {
      assert fs[..i] == fs;
    }
  }

  /** The writes of a longer list begin with those of a shorter one that it adds a stamp to. */
  lemma {:induction false} StampsUpTo(known: set<string>, fs: seq<Finding>, i: nat)
    requires i < |fs| && |StampWrites(known, fs[..i + 1])| > |StampWrites(known, fs[..i])|
    ensures var n := |StampWrites(known, fs[..i])|;
      n < |StampWrites(known, fs)| && StampWrites(known, fs)[..n] == StampWrites(known, fs[..i])
  {
    hide StampWrites;
    StampPrefix(known, fs, i);
    StampPrefix(known, fs, i + 1);
  }

  lemma {:induction false} ApplyTwo(m: Memory, a: seq<Write>, b: seq<Write>)
    ensures ApplyAll(m, a + b) == ApplyAll(ApplyAll(m, a), b)
  {
    if b == [] {
      assert a + b == a;
    } else {
      assert (a + b)[..|a + b| - 1] == a + b[..|b| - 1];
      ApplyTwo(m, a, b[..|b| - 1]);
    }
  }

  lemma {:induction false} StoredInTwo(m: Memory, a: seq<Write>, b: seq<Write>, life: nat)
    requires |a| <= life
    ensures ApplyAll(m, a + b) == ApplyAll(ApplyAll(m, a), b)
    ensures life < |a + b| ==> ApplyAll(m, (a + b)[..life]) == ApplyAll(ApplyAll(m, a), b[..life - |a|])
  {
    ApplyTwo(m, a, b);
    if life < |a + b| {
      ApplyTwo(m, a, b[..life - |a|]);
      assert (a + b)[..life] == a + b[..life - |a|];
    }
  }

  lemma {:induction false} ProgressUntouched(m: Memory, ws: seq<Write>)
    requires forall i :: 0 <= i < |ws| ==> !ws[i].SaveProgress?
    ensures ApplyAll(m, ws).progress == m.progress
  {
    if ws != [] { ProgressUntouched(m, ws[..|ws| - 1]); }
  }

  /** Only the last write of a batch touches the checkpoint. */
  lemma {:induction false} CheckpointLast(m: Memory, files: seq<string>, r: BatchResult)
    ensures ApplyAll(m, WorkWrites(m.fingerprints, files, r)).progress == m.progress
  {
    StampsOnly(m.fingerprints, r.code);
    ProgressUntouched(m, WorkWrites(m.fingerprints, files, r));
  }
}
