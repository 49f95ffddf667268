/** What any number of interrupted and resumed scan runs guarantees. */
module BatchResume {
  import opened Sequences
  import opened Batches

  /**
   * Between any two writes: no batch is listed as completed twice, every file of a completed batch
   * is recorded as scanned, and no finding is in the log before its fingerprint is in the set.
   */
  ghost predicate Consistent(m: Memory, batches: seq<seq<string>>) {
    && Distinct(Completed(m.progress))
    && (forall id :: id in Completed(m.progress) ==> id < |batches| && AllScanned(m, batches[id]))
    && Fingerprinted(m)
  }

  ghost predicate AllScanned(m: Memory, files: seq<string>) { forall f :: f in files ==> f in m.scanned }

  ghost predicate Fingerprinted(m: Memory) { forall f :: f in m.log ==> f.key in m.fingerprints }

  /** Writes only add: files, fingerprints, findings and secrets are never lost. */
  ghost predicate Grows(m: Memory, m': Memory) {
    m.scanned <= m'.scanned && m.fingerprints <= m'.fingerprints && m.log <= m'.log && m.secrets <= m'.secrets
  }

  lemma {:induction false} WritesGrow(m: Memory, ws: seq<Write>)
    ensures Grows(m, ApplyAll(m, ws))
  {
    if ws != [] { WritesGrow(m, ws[..|ws| - 1]); }
  }

  lemma {:induction false} MarksScan(m: Memory, files: seq<string>)
    ensures ApplyAll(m, Marks(files)) == m.(scanned := m.scanned + (set f | f in files))
  {
    if files != [] {
      MarksScan(m, files[..|files| - 1]);
      assert Marks(files)[..|files| - 1] == Marks(files[..|files| - 1]);
    }
  }

  lemma {:induction false} StampsRecord(m: Memory, fs: seq<Finding>)
    ensures ApplyAll(m, StampWrites(m.fingerprints, fs)) == m.(fingerprints := KnownAfter(m.fingerprints, fs))
    ensures forall f :: f in fs ==> f.key in KnownAfter(m.fingerprints, fs)
  {
    if fs != [] {
      var before, f := fs[..|fs| - 1], fs[|fs| - 1];
      StampsRecord(m, before);
      assert fs == before + [f];
      var ws := StampWrites(m.fingerprints, before);
      if f.key !in KnownAfter(m.fingerprints, before) {
        assert (ws + [AddFingerprint(f.key)])[..|ws|] == ws;
      } else {
        assert ws + [] == ws;
      }
    }
  }

  lemma {:induction false} StampedKeys(known: set<string>, fs: seq<Finding>)
    ensures |Stamped(known, fs)| == |fs| && forall i :: 0 <= i < |fs| ==> Stamped(known, fs)[i].key == fs[i].key
  {
    if fs != [] { StampedKeys(known, fs[..|fs| - 1]); }
  }

  /** The fingerprint stored with the i-th finding: its key where that is new, and what it came with otherwise. */
  ghost predicate StampedAs(f: Finding, known: set<string>, fs: seq<Finding>, i: nat)
    requires i < |fs|
  {
    && f.key == fs[i].key
    && f.fingerprint == if fs[i].key in known || (exists j :: 0 <= j < i && fs[j].key == fs[i].key)
         then fs[i].fingerprint else fs[i].key
  }

  ghost predicate AllStamped(stored: seq<Finding>, known: set<string>, fs: seq<Finding>) {
    |stored| == |fs| && forall i :: 0 <= i < |fs| ==> StampedAs(stored[i], known, fs, i)
  }

  lemma {:induction false} KnownExact(known: set<string>, fs: seq<Finding>, key: string)
    ensures key in KnownAfter(known, fs) <==> key in known || exists j :: 0 <= j < |fs| && fs[j].key == key
  {
    if fs != [] {
      var before := fs[..|fs| - 1];
      KnownExact(known, before, key);
      assert forall j :: 0 <= j < |before| ==> before[j] == fs[j];
    }
  }

  lemma {:induction false} StampedExact(known: set<string>, fs: seq<Finding>, i: nat)
    requires i < |fs|
    ensures |Stamped(known, fs)| == |fs| && StampedAs(Stamped(known, fs)[i], known, fs, i)
  {
    var before := fs[..|fs| - 1];
    StampedKeys(known, before);
    assert forall j :: 0 <= j < |before| ==> before[j] == fs[j];
    if i < |before| { StampedExact(known, before, i); } else { KnownExact(known, before, fs[i].key); }
  }

  lemma {:induction false} PushesLog(m: Memory, fs: seq<Finding>)
    ensures ApplyAll(m, Pushes(fs)) == m.(log := m.log + fs)
  {
    if fs == [] {
      assert m.log + fs == m.log;
    } else {
      PushesLog(m, fs[..|fs| - 1]);
      assert Pushes(fs)[..|fs| - 1] == Pushes(fs[..|fs| - 1]);
      assert m.log + fs[..|fs| - 1] + [fs[|fs| - 1]] == m.log + fs;
    }
  }

  /** The findings of a batch, stored up to any point, are fingerprinted before they are logged. */
  lemma FindingsFingerprinted(m: Memory, fs: seq<Finding>, k: nat)
    requires Fingerprinted(m) && k <= |FindingWrites(m.fingerprints, fs)|
    ensures Fingerprinted(ApplyAll(m, FindingWrites(m.fingerprints, fs)[..k]))
  {
    hide ApplyAll, StampWrites, Stamped, KnownAfter, Pushes;
    var a, b := StampWrites(m.fingerprints, fs), Pushes(Stamped(m.fingerprints, fs));
    if k <= |a| {
      assert (a + b)[..k] == a[..k];
      StampsOnly(m.fingerprints, fs);
      StampsKeepLog(m, a[..k]);
      WritesGrow(m, a[..k]);
    } else {
      assert (a + b)[..k] == a + b[..k - |a|];
      ApplyTwo(m, a, b[..k - |a|]);
      StampsRecord(m, fs);
      WritesGrow(m, a);
      PushedFingerprinted(m, fs, k - |a|);
    }
  }

  lemma {:induction false} PushedFingerprinted(m: Memory, fs: seq<Finding>, n: nat)
    requires Fingerprinted(m) && n <= |Pushes(Stamped(m.fingerprints, fs))|
    requires m.fingerprints <= KnownAfter(m.fingerprints, fs)
    ensures var known := KnownAfter(m.fingerprints, fs);
      Fingerprinted(ApplyAll(m.(fingerprints := known), Pushes(Stamped(m.fingerprints, fs))[..n]))
  {
    hide ApplyAll, Stamped, KnownAfter;
    var stamped := Stamped(m.fingerprints, fs);
    assert Pushes(stamped)[..n] == Pushes(stamped[..n]);
    PushesLog(m.(fingerprints := KnownAfter(m.fingerprints, fs)), stamped[..n]);
    StampsRecord(m, fs);
    StampedKeys(m.fingerprints, fs);
    forall f | f in stamped[..n] ensures f.key in KnownAfter(m.fingerprints, fs) {
      var i :| 0 <= i < n && stamped[i] == f;
      assert fs[i] in fs && stamped[i].key == fs[i].key;
    }
  }

  lemma {:induction false} StampsKeepLog(m: Memory, ws: seq<Write>)
    requires forall i :: 0 <= i < |ws| ==> ws[i].AddFingerprint?
    ensures ApplyAll(m, ws).log == m.log
  {
    if ws != [] { StampsKeepLog(m, ws[..|ws| - 1]); }
  }

  /** Pushing secrets and marking files touches neither the findings nor their fingerprints. */
  lemma {:induction false} TailKeepsFindings(m: Memory, ws: seq<Write>)
    requires forall i :: 0 <= i < |ws| ==> ws[i].PushSecret? || ws[i].MarkScanned?
    ensures ApplyAll(m, ws).log == m.log && ApplyAll(m, ws).fingerprints == m.fingerprints
  {
    if ws != [] { TailKeepsFindings(m, ws[..|ws| - 1]); }
  }

  lemma {:induction false} SecretsPushed(m: Memory, secrets: seq<string>)
    ensures ApplyAll(m, SecretPushes(secrets)) == m.(secrets := m.secrets + secrets)
  {
    if secrets == [] {
      assert m.secrets + secrets == m.secrets;
    } else {
      SecretsPushed(m, secrets[..|secrets| - 1]);
      assert SecretPushes(secrets)[..|secrets| - 1] == SecretPushes(secrets[..|secrets| - 1]);
      assert m.secrets + secrets[..|secrets| - 1] + [secrets[|secrets| - 1]] == m.secrets + secrets;
    }
  }

  lemma WorkFingerprinted(m: Memory, files: seq<string>, r: BatchResult, k: nat)
    requires Fingerprinted(m) && k <= |WorkWrites(m.fingerprints, files, r)|
    ensures Fingerprinted(ApplyAll(m, WorkWrites(m.fingerprints, files, r)[..k]))
  {
    hide FindingWrites, TailWrites;
    var a, b := FindingWrites(m.fingerprints, r.code), TailWrites(r.secrets, files);
    if k <= |a| {
      assert (a + b)[..k] == a[..k];
      FindingsFingerprinted(m, r.code, k);
    } else {
      assert (a + b)[..k] == a + b[..k - |a|] && a[..|a|] == a;
      FindingsFingerprinted(m, r.code, |a|);
      ApplyTwo(m, a, b[..k - |a|]);
      TailIsTail(r.secrets, files);
      TailKeepsFindings(ApplyAll(m, a), b[..k - |a|]);
    }
  }

  lemma TailIsTail(secrets: seq<string>, files: seq<string>)
    ensures var ws := TailWrites(secrets, files); forall i :: 0 <= i < |ws| ==> ws[i].PushSecret? || ws[i].MarkScanned?
  {
  }

  lemma BeatIsHarmless(m: Memory, batches: seq<seq<string>>, id: nat)
    requires Consistent(m, batches)
    ensures var m1 := Applied(m, Beat(id)); Consistent(m1, batches) && Grows(m, m1) && m1.progress == m.progress
  {
  }

  /** A process that dies inside a batch leaves memory consistent and the checkpoint as it was. */
  lemma DyingIsSafe(m: Memory, batches: seq<seq<string>>, id: nat, r: BatchResult, k: nat)
    requires Consistent(m, batches) && id < |batches|
    requires k < |BatchWrites(m, |batches|, id, batches[id], r)|
    ensures var m' := ApplyAll(m, BatchWrites(m, |batches|, id, batches[id], r)[..k]);
      Consistent(m', batches) && Grows(m, m') && m'.progress == m.progress
  {
    hide BatchWrites, WorkWrites;
    BeatThenWork(m, |batches|, id, batches[id], r, k);
    if k > 0 {
      var m1 := Applied(m, Beat(id));
      BeatIsHarmless(m, batches, id);
      WorkIsSafe(m1, batches, id, r, k - 1);
    }
  }

  /** So far as the writes before the checkpoint go. */
  lemma WorkIsSafe(m: Memory, batches: seq<seq<string>>, id: nat, r: BatchResult, k: nat)
    requires Consistent(m, batches) && id < |batches| && k <= |WorkWrites(m.fingerprints, batches[id], r)|
    ensures var checkpoint := SaveProgress(NextProgress(m.progress, |batches|, id));
      var after := WorkWrites(m.fingerprints, batches[id], r) + [checkpoint];
      var m' := ApplyAll(m, after[..k]); Consistent(m', batches) && Grows(m, m') && m'.progress == m.progress
  {
    hide FindingWrites, TailWrites, NextProgress;
    var work := WorkWrites(m.fingerprints, batches[id], r);
    assert (work + [SaveProgress(NextProgress(m.progress, |batches|, id))])[..k] == work[..k];
    NoCheckpoint(m.fingerprints, batches[id], r);
    ProgressUntouched(m, work[..k]);
    WritesGrow(m, work[..k]);
    WorkFingerprinted(m, batches[id], r, k);
  }

  lemma NoCheckpoint(known: set<string>, files: seq<string>, r: BatchResult)
    ensures var ws := WorkWrites(known, files, r); forall i :: 0 <= i < |ws| ==> !ws[i].SaveProgress?
  {
    StampsOnly(known, r.code);
  }

  lemma FindingsStored(m: Memory, fs: seq<Finding>)
    ensures ApplyAll(m, FindingWrites(m.fingerprints, fs))
      == m.(fingerprints := KnownAfter(m.fingerprints, fs), log := m.log + Stamped(m.fingerprints, fs))
  {
    hide ApplyAll, StampWrites, Stamped, KnownAfter, Pushes;
    ApplyTwo(m, StampWrites(m.fingerprints, fs), Pushes(Stamped(m.fingerprints, fs)));
    StampsRecord(m, fs);
    PushesLog(m.(fingerprints := KnownAfter(m.fingerprints, fs)), Stamped(m.fingerprints, fs));
  }

  lemma TailStored(m: Memory, secrets: seq<string>, files: seq<string>)
    ensures ApplyAll(m, TailWrites(secrets, files))
      == m.(secrets := m.secrets + secrets, scanned := m.scanned + (set f | f in files))
  {
    hide ApplyAll, SecretPushes, Marks;
    ApplyTwo(m, SecretPushes(secrets), Marks(files));
    SecretsPushed(m, secrets);
    MarksScan(m.(secrets := m.secrets + secrets), files);
  }

  /** All the work of a batch, before its checkpoint. */
  lemma FullWork(m: Memory, files: seq<string>, r: BatchResult)
    requires Fingerprinted(m)
    ensures var m' := ApplyAll(m, WorkWrites(m.fingerprints, files, r));
      && Fingerprinted(m') && AllScanned(m', files) && Grows(m, m')
      && m' == m.(log := m.log + Stamped(m.fingerprints, r.code), secrets := m.secrets + r.secrets,
           fingerprints := KnownAfter(m.fingerprints, r.code), scanned := m.scanned + (set f | f in files))
  {
    hide ApplyAll, Stamped, KnownAfter, FindingWrites, TailWrites, Fingerprinted;
    var ws := WorkWrites(m.fingerprints, files, r);
    CheckpointLast(m, files, r);
    WritesGrow(m, ws);
    assert ws[..|ws|] == ws;
    WorkFingerprinted(m, files, r, |ws|);
    ApplyTwo(m, FindingWrites(m.fingerprints, r.code), TailWrites(r.secrets, files));
    FindingsStored(m, r.code);
    TailStored(ApplyAll(m, FindingWrites(m.fingerprints, r.code)), r.secrets, files);
  }

  /** The checkpoint lists a batch once, however often it is stored, and keeps what has failed. */
  lemma {:induction false} ListedOnce(p: Option<Progress>, total: nat, id: nat)
    requires Distinct(Completed(p))
    ensures var q := NextProgress(p, total, id);
      && Distinct(q.completed) && Completed(p) <= q.completed && q.failed == Failed(p)
      && (forall k :: k in q.completed <==> k in Completed(p) || k == id) && q.total == total && q.current == id
  {
  }

  /** What a batch stored in full adds to memory: its findings as stamped, its secrets, fingerprints, files and id. */
  ghost predicate Added(m: Memory, m': Memory, total: nat, id: nat, files: seq<string>, r: BatchResult) {
    && m'.progress == Some(Progress(total, Completed(m.progress) + [id], Failed(m.progress), id))
    && m'.heartbeat == Some(id) && m'.secrets == m.secrets + r.secrets
    && (forall f :: f in m'.scanned <==> f in m.scanned || f in files)
    && (forall k :: k in m'.fingerprints <==>
          k in m.fingerprints || exists j :: 0 <= j < |r.code| && r.code[j].key == k)
    && m.log <= m'.log && AllStamped(m'.log[|m.log|..], m.fingerprints, r.code)
  }

  /**
   * A batch that is stored in full keeps memory consistent and adds exactly its own: each finding with its
   * key as fingerprint when that is seen for the first time, the secrets, the files, and its id last.
   */
  lemma {:induction false} FullBatch(m: Memory, batches: seq<seq<string>>, id: nat, r: BatchResult)
    requires Consistent(m, batches) && id < |batches| && id !in Completed(m.progress)
    ensures var m' := ApplyAll(m, BatchWrites(m, |batches|, id, batches[id], r));
      && Consistent(m', batches) && Grows(m, m')
      && Completed(m'.progress) == Completed(m.progress) + [id]
      && Added(m, m', |batches|, id, batches[id], r)
  {
    hide WorkWrites, BatchWrites, Stamped, Added, KnownAfter;
    var m1 := Applied(m, Beat(id));
    var work := WorkWrites(m1.fingerprints, batches[id], r);
    var after := work + [SaveProgress(NextProgress(m1.progress, |batches|, id))];
    BeatThenWork(m, |batches|, id, batches[id], r, 0);
    BeatIsHarmless(m, batches, id);
    FullWork(m1, batches[id], r);
    assert after[..|after| - 1] == work;
    BatchAdds(m, ApplyAll(m, BatchWrites(m, |batches|, id, batches[id], r)), |batches|, id, batches[id], r);
  }

  lemma BatchAdds(m: Memory, m': Memory, total: nat, id: nat, files: seq<string>, r: BatchResult)
    requires m' == Memory(Some(NextProgress(m.progress, total, id)), m.scanned + (set f | f in files),
        KnownAfter(m.fingerprints, r.code), m.log + Stamped(m.fingerprints, r.code), m.secrets + r.secrets, Some(id))
    requires id !in Completed(m.progress)
    ensures Added(m, m', total, id, files, r)
  {
    hide Stamped, KnownAfter, StampedAs;
    StampedKeys(m.fingerprints, r.code);
    forall k ensures k in m'.fingerprints <==>
      k in m.fingerprints || exists j :: 0 <= j < |r.code| && r.code[j].key == k
    {
      KnownExact(m.fingerprints, r.code, k);
    }
    assert m'.log[|m.log|..] == Stamped(m.fingerprints, r.code);
    forall i | 0 <= i < |r.code| ensures StampedAs(Stamped(m.fingerprints, r.code)[i], m.fingerprints, r.code, i) {
      StampedExact(m.fingerprints, r.code, i);
    }
  }

  /** The batches a run leaves completed: all it analysed, except the one it died in. */
  function Kept(r: Run): seq<nat>
    requires r.end == Died ==> r.analysed != []
  {
    if r.end == Died then r.analysed[..|r.analysed| - 1] else r.analysed
  }

  /** The loop over a memory m0 has come to batch i and memory m. */
  ghost predicate InRun(m0: Memory, m: Memory, batches: seq<seq<string>>, i: nat, analysed: seq<nat>) {
    && Consistent(m, batches) && Grows(m0, m)
    && Completed(m.progress) == Completed(m0.progress) + analysed
    && (forall id :: id in analysed ==> id < |batches| && id !in Completed(m0.progress))
    && (forall id :: 0 <= id < i ==> id in Completed(m.progress))
  }

  /** What a run over a memory m0 leaves. */
  ghost predicate SafeRun(m0: Memory, batches: seq<seq<string>>, env: Env, r: Run) {
    && Consistent(r.memory, batches) && Grows(m0, r.memory)
    && (r.end == Died ==> r.analysed != [])
    && Completed(r.memory.progress) == Completed(m0.progress) + Kept(r)
    && (forall id :: id in r.analysed ==> id < |batches| && id !in Completed(m0.progress))
    && (r.end == Finished ==> forall id :: 0 <= id < |batches| ==> id in Completed(r.memory.progress))
    && (r.end == Stopped ==> env.stopAt != {})
  }

  /** A run that dies in batch i has analysed it, but not completed it. */
  lemma DeadIsSafe(m0: Memory, m: Memory, batches: seq<seq<string>>, i: nat, env: Env, analysed: seq<nat>, k: nat)
    requires InRun(m0, m, batches, i, analysed) && i < |batches| && i !in Completed(m.progress)
    requires k < |BatchWrites(m, |batches|, i, batches[i], ResultsOf(env, i))|
    ensures var ws := BatchWrites(m, |batches|, i, batches[i], ResultsOf(env, i));
      SafeRun(m0, batches, env, Run(ApplyAll(m, ws[..k]), analysed + [i], Died))
  {
    DyingIsSafe(m, batches, i, ResultsOf(env, i), k);
  }

  lemma {:induction false} BatchKeepsRun(
    m0: Memory, m: Memory, batches: seq<seq<string>>, i: nat, r: BatchResult, analysed: seq<nat>)
    requires InRun(m0, m, batches, i, analysed) && i < |batches| && i !in Completed(m.progress)
    ensures InRun(m0, ApplyAll(m, BatchWrites(m, |batches|, i, batches[i], r)), batches, i + 1, analysed + [i])
  {
    hide BatchWrites, ApplyAll, Consistent, Stamped;
    FullBatch(m, batches, i, r);
    assert Completed(m0.progress) + analysed + [i] == Completed(m0.progress) + (analysed + [i]);
  }

  lemma {:induction false} RunFromIsSafe(
    m0: Memory, m: Memory, batches: seq<seq<string>>, i: nat, env: Env, life: nat, analysed: seq<nat>)
    requires InRun(m0, m, batches, i, analysed) && i <= |batches|
    ensures SafeRun(m0, batches, env, RunFrom(m, m0.progress, batches, i, env, life, analysed))
    decreases |batches| - i
  {
    hide BatchWrites, ApplyAll;
    if i < |batches| {
      if i in Completed(m0.progress) {
        RunFromIsSafe(m0, m, batches, i + 1, env, life, analysed);
      } else if i in env.stopAt {
      } else if i in Completed(m.progress) {
        RunFromIsSafe(m0, m, batches, i + 1, env, life, analysed);
      } else {
        var ws := BatchWrites(m, |batches|, i, batches[i], ResultsOf(env, i));
        if life < |ws| {
          DeadIsSafe(m0, m, batches, i, env, analysed, life);
        } else {
          BatchKeepsRun(m0, m, batches, i, ResultsOf(env, i), analysed);
          RunFromIsSafe(m0, ApplyAll(m, ws), batches, i + 1, env, life - |ws|, analysed + [i]);
        }
      }
    }
  }

  lemma RunIsSafe(m: Memory, batches: seq<seq<string>>, env: Env)
    requires Consistent(m, batches)
    ensures SafeRun(m, batches, env, RunOnce(m, batches, env))
  {
    assert Completed(m.progress) + [] == Completed(m.progress);
    RunFromIsSafe(m, m, batches, 0, env, env.life, []);
  }

  /** A batch that memory does not list as completed. */
  predicate Open(m: Memory, batches: seq<seq<string>>, id: int) { 0 <= id < |batches| && id !in Completed(m.progress) }

  ghost predicate Ascending(ids: seq<nat>) { forall i, j :: 0 <= i < j < |ids| ==> ids[i] < ids[j] }

  /** ids are the open batches before n, in order, and no stop signal stands before any of them. */
  ghost predicate AllBefore(m: Memory, batches: seq<seq<string>>, env: Env, ids: seq<nat>, n: nat) {
    && Ascending(ids) && (forall id :: id in ids <==> Open(m, batches, id) && id < n)
    && forall id :: id in ids ==> id !in env.stopAt
  }

  /**
   * The batches a run over memory m has analysed: all open ones when it finishes, those before the first
   * open one with a stop signal when it is stopped, and those up to some open one when it dies.
   */
  ghost predicate AnalysesInOrder(m: Memory, batches: seq<seq<string>>, env: Env, r: Run) {
    match r.end
    case Finished => AllBefore(m, batches, env, r.analysed, |batches|)
    case Stopped =>
      exists s: nat :: Open(m, batches, s) && s in env.stopAt && AllBefore(m, batches, env, r.analysed, s)
    case Died =>
      r.analysed != [] && AllBefore(m, batches, env, r.analysed, r.analysed[|r.analysed| - 1] + 1)
  }

  lemma OneMoreBefore(m: Memory, batches: seq<seq<string>>, env: Env, ids: seq<nat>, i: nat)
    requires AllBefore(m, batches, env, ids, i) && Open(m, batches, i) && i !in env.stopAt
    ensures AllBefore(m, batches, env, ids + [i], i + 1)
  {
    hide Open;
    var more := ids + [i];
    forall a, b | 0 <= a < b < |more| ensures more[a] < more[b] { assert ids[a] in ids; }
    forall id ensures id in more <==> Open(m, batches, id) && id < i + 1 {
      assert id in more <==> id in ids || id == i;
    }
  }

  lemma NotYet(m: Memory, batches: seq<seq<string>>, env: Env, ids: seq<nat>, i: nat)
    requires AllBefore(m, batches, env, ids, i)
    ensures i !in ids
  {
  }

  lemma SkipsBefore(m: Memory, batches: seq<seq<string>>, env: Env, ids: seq<nat>, i: nat)
    requires AllBefore(m, batches, env, ids, i) && !Open(m, batches, i)
    ensures AllBefore(m, batches, env, ids, i + 1)
  {
    hide Open;
  }

  lemma {:induction false} RunFromInOrder(
    m0: Memory, m: Memory, batches: seq<seq<string>>, i: nat, env: Env, life: nat, analysed: seq<nat>)
    requires InRun(m0, m, batches, i, analysed) && i <= |batches| && AllBefore(m0, batches, env, analysed, i)
    ensures AnalysesInOrder(m0, batches, env, RunFrom(m, m0.progress, batches, i, env, life, analysed))
    decreases |batches| - i
  {
    hide BatchWrites, ApplyAll, Consistent, Grows, AllBefore;
    if i < |batches| {
      if i in Completed(m0.progress) {
        SkipsBefore(m0, batches, env, analysed, i);
        RunFromInOrder(m0, m, batches, i + 1, env, life, analysed);
      } else if i in env.stopAt {
        assert Open(m0, batches, i);
      } else {
        NotYet(m0, batches, env, analysed, i);
        assert i !in Completed(m.progress);
        OneMoreBefore(m0, batches, env, analysed, i);
        var ws := BatchWrites(m, |batches|, i, batches[i], ResultsOf(env, i));
        if life >= |ws| {
          BatchKeepsRun(m0, m, batches, i, ResultsOf(env, i), analysed);
          RunFromInOrder(m0, ApplyAll(m, ws), batches, i + 1, env, life - |ws|, analysed + [i]);
        }
      }
    }
  }

  /** A run analyses the open batches in order, each once, and leaves them only for a stop signal or death. */
  lemma {:induction false} RunInOrder(m: Memory, batches: seq<seq<string>>, env: Env)
    requires Consistent(m, batches)
    ensures AnalysesInOrder(m, batches, env, RunOnce(m, batches, env))
  {
    assert Completed(m.progress) + [] == Completed(m.progress);
    RunFromInOrder(m, m, batches, 0, env, env.life, []);
  }

  // ---------------------------------------------------------------- any number of runs

  function Resumed(m: Memory, batches: seq<seq<string>>, envs: seq<Env>): Memory {
    if envs == [] then m else RunOnce(Resumed(m, batches, envs[..|envs| - 1]), batches, envs[|envs| - 1]).memory
  }

  /** Over any number of runs, stopped or killed anywhere, completed batches only grow and stay consistent. */
  lemma {:induction false} RunsAreSafe(m: Memory, batches: seq<seq<string>>, envs: seq<Env>, k: nat)
    requires Consistent(m, batches) && k <= |envs|
    ensures var earlier, now := Resumed(m, batches, envs[..k]), Resumed(m, batches, envs);
      && Consistent(now, batches) && Grows(earlier, now)
      && Completed(earlier.progress) <= Completed(now.progress)
    decreases |envs|
  {
    hide RunOnce, Consistent;
    if k == |envs| {
      assert envs[..k] == envs;
    }
    if envs != [] {
      var before := envs[..|envs| - 1];
      RunsAreSafe(m, batches, before, if k < |envs| then k else |envs| - 1);
      var mid := Resumed(m, batches, before);
      RunIsSafe(mid, batches, envs[|envs| - 1]);
      if k < |envs| { assert before[..k] == envs[..k]; }
    }
  }

  /** A batch completed in some run is analysed in no later one. */
  lemma {:induction false} NeverAnalysedAgain(
    m: Memory, batches: seq<seq<string>>, envs: seq<Env>, k: nat, next: Env, id: nat)
    requires Consistent(m, batches) && k <= |envs|
    requires id in Completed(Resumed(m, batches, envs[..k]).progress)
    ensures id !in RunOnce(Resumed(m, batches, envs), batches, next).analysed
  {
    RunsAreSafe(m, batches, envs, k);
    var now := Resumed(m, batches, envs);
    RunIsSafe(now, batches, next);
  }

  /**
   * A run that comes to its end, after any interrupted ones, leaves every batch of the file list
   * completed and every file scanned; a stop signal or death is the only way not to get there.
   */
  lemma FinishedRunCoversFiles(m: Memory, files: seq<string>, size: nat, envs: seq<Env>, last: Env)
    requires size > 0 && Consistent(m, Split(files, size))
    ensures var batches := Split(files, size); var r := RunOnce(Resumed(m, batches, envs), batches, last);
      && (r.end == Finished ==>
            (forall id :: 0 <= id < |batches| ==> id in Completed(r.memory.progress)) && AllScanned(r.memory, files))
      && (r.end == Stopped ==> last.stopAt != {})
  {
    var batches := Split(files, size);
    RunsAreSafe(m, batches, envs, |envs|);
    var now := Resumed(m, batches, envs);
    RunIsSafe(now, batches, last);
    var r := RunOnce(now, batches, last);
    SplitJoins(files, size);
    if r.end == Finished {
      forall f | f in files ensures f in r.memory.scanned {
        FlattenMember(batches, f);
        var id :| 0 <= id < |batches| && f in batches[id];
        assert AllScanned(r.memory, batches[id]);
      }
    }
  }
}
