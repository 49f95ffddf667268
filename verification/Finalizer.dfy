/** Snapshot, verify, clear, complete (backend/orchestrator/finalizer.py). */
module Finalizer {
  import opened Sequences
  import opened Workflow

  type Memory = map<Agent, Output>

  datatype Snapshot = Snapshot(name: Option<WorkflowName>, outputs: Memory)

  /** SHA-256 of the sorted JSON, taken to be injective. */
  datatype Digest = Sha256(of: Snapshot)

  /** The database row of one workflow. */
  datatype Row = Row(snapshot: Snapshot, checksum: Digest)

  function Stored(s: Snapshot): Row { Row(s, Sha256(s)) }

  predicate NameRequiresScr(name: Option<WorkflowName>) { name.Some? && ScrRequired(name.value) }

  predicate NeedsScr(name: Option<WorkflowName>, memory: Memory) {
    || NameRequiresScr(name)
    || (name.None? && Scr !in memory && Cma in memory && Reporting in memory
        && Asm !in memory && CloudSec !in memory && Web !in memory
        && Other("insider") !in memory && Other("af") !in memory)
  }

  /** The snapshot an attempt works with; None when it raises DataIntegrityError. */
  function Prepared(name: Option<WorkflowName>, memory: Memory): Option<Snapshot> {
    if NeedsScr(name, memory) && Scr !in memory then None else Some(Snapshot(name, memory))
  }

  predicate Verified(row: Option<Row>, s: Snapshot) { row.Some? && row.value.checksum == Sha256(s) }

  function Upserted(row: Option<Row>, s: Snapshot, dbOk: bool): Option<Row> { if dbOk then Some(Stored(s)) else row }

  /**
   * A snapshot is refused exactly when it lacks SCR's output and the workflow needs it: by its name, or, of a
   * workflow without one, when CMA and reporting have left output and no agent has that only runs elsewhere.
   */
  lemma RefusedExactly(name: Option<WorkflowName>, memory: Memory)
    ensures Prepared(name, memory).Some? ==> Prepared(name, memory).value == Snapshot(name, memory)
    ensures name.Some? ==> (Prepared(name, memory).None? <==> ScrRequired(name.value) && Scr !in memory)
    ensures name.None? ==> (Prepared(name, memory).None? <==>
      {Cma, Reporting} <= memory.Keys && memory.Keys !! {Scr, Asm, CloudSec, Web, Other("insider"), Other("af")})
  {
  }

  /** What another attempt of the same workflow may store: it prepares its snapshot by the same rule. */
  predicate Preparable(name: Option<WorkflowName>, s: Snapshot) {
    s.name == name && (NameRequiresScr(name) ==> Scr in s.outputs)
  }

  /** The row when another attempt has stored its snapshot after this one's upsert, if it did. */
  function Overwritten(name: Option<WorkflowName>, row: Option<Row>, other: Option<Snapshot>): Option<Row> {
    if other.Some? && Preparable(name, other.value) then Some(Stored(other.value)) else row
  }

  /**
   * The row after persist_snapshot, and whether that call raised: the upsert did, or the checksum read
   * back differs. other is what another attempt stores between the two.
   */
  function Persist(name: Option<WorkflowName>, memory: Memory, row: Option<Row>, dbOk: bool, other: Option<Snapshot>)
    : (Option<Row>, bool)
  {
    match Prepared(name, memory)
    case None => (row, true)
    case Some(s) =>
      if !dbOk then (row, true)
      else
        var after := Overwritten(name, Upserted(row, s, true), other);
        (after, !Verified(after, s))
  }

  /** The finalizer over its stores. dbOk says whether the upsert takes effect; otherwise it raises. */
  class WorkflowFinalizer {
    const store: WorkflowStateStore
    var memory: Memory
    var row: Option<Row>

    constructor (store: WorkflowStateStore)
      ensures this.store == store && memory == map[] && row == None
    {
      this.store := store;
      memory, row := map[], None;
    }

    method PrepareSnapshot(name: Option<WorkflowName>) returns (s: Option<Snapshot>)
      ensures s == Prepared(if name.Some? || store.saved.None? then name else Some(store.saved.value.name), memory)
    {
      var resolved := name;
      if resolved.None? && store.saved.Some? {
        resolved := Some(store.saved.value.name);
      }
      if NeedsScr(resolved, memory) && Scr !in memory {
        return None;
      }
      return Some(Snapshot(resolved, memory));
    }

    method WriteSnapshot(s: Snapshot, dbOk: bool, other: Option<Snapshot>) returns (raised: bool)
      modifies this`row
      ensures row == if dbOk then Overwritten(s.name, Some(Stored(s)), other) else old(row)
      ensures raised == (!dbOk || !Verified(row, s))
    {
      if !dbOk { return true; }
      row := Some(Row(s, Sha256(s)));
      if other.Some? && Preparable(s.name, other.value) {
        row := Some(Row(other.value, Sha256(other.value)));
      }
      raised := row.None? || row.value.checksum != Sha256(s);
    }

    method PersistSnapshot(name: WorkflowName, dbOk: bool, other: Option<Snapshot>) returns (raised: bool)
      modifies this`row
      ensures (row, raised) == Persist(Some(name), memory, old(row), dbOk, other)
    {
      var s := PrepareSnapshot(Some(name));
      if s.None? { return true; }
      raised := WriteSnapshot(s.value, dbOk, other);
    }

    method Finalize(name: WorkflowName, dbOk: bool, other: Option<Snapshot>) returns (raised: bool)
      modifies this`row, this`memory, store
      ensures (row, raised) == Persist(Some(name), old(memory), old(row), dbOk, other)
      ensures memory == if raised then old(memory) else map[]
      ensures store.saved == if raised || old(store.saved).None? then old(store.saved)
                             else Some(old(store.saved).value.Complete())
    {
      var s := PrepareSnapshot(Some(name));
      if s.None? { return true; }
      raised := WriteSnapshot(s.value, dbOk, other);
      if raised { return; }
      memory := map[];
      store.Complete();
    }
  }

  // ---------------------------------------------------------------- crash safety

  /** Where an attempt stands between two store operations; finalizing is false for persist_snapshot. */
  datatype Attempt =
    | Idle
    | Read(s: Snapshot, finalizing: bool)
    | Wrote(s: Snapshot, finalizing: bool)
    | Checked(s: Snapshot)
    | Cleared(s: Snapshot)

  datatype Machine = Machine(memory: Memory, row: Option<Row>, completed: bool, at: Attempt)

  /**
   * One store operation of the attempt, a crash of its process, or what goes on meanwhile: an agent
   * writing its output, another attempt storing its snapshot or clearing shared memory.
   */
  datatype Op =
    | Begin(finalizing: bool)
    | Write(dbOk: bool)
    | Check
    | Clear
    | Finish
    | Crash
    | AgentWrites(a: Agent, o: Output)
    | OtherStores(other: Snapshot)
    | OtherClears

  function Do(name: Option<WorkflowName>, m: Machine, op: Op): Machine {
    match (op, m.at)
    case (Begin(f), Idle) =>
      (match Prepared(name, m.memory) case None => m case Some(s) => m.(at := Read(s, f)))
    case (Write(dbOk), Read(s, f)) => m.(row := Upserted(m.row, s, dbOk), at := if dbOk then Wrote(s, f) else Idle)
    case (Check, Wrote(s, f)) => m.(at := if Verified(m.row, s) && f then Checked(s) else Idle)
    case (Clear, Checked(s)) => m.(memory := map[], at := Cleared(s))
    case (Finish, Cleared(s)) => m.(completed := true, at := Idle)
    case (Crash, _) => m.(at := Idle)
    case (AgentWrites(a, o), _) => m.(memory := m.memory[a := o])
    case (OtherStores(s), _) => m.(row := Overwritten(name, m.row, Some(s)))
    case (OtherClears, _) => m.(memory := map[])
    case _ => m
  }

  function DoAll(name: Option<WorkflowName>, m: Machine, ops: seq<Op>): Machine {
    if ops == [] then m else Do(name, DoAll(name, m, ops[..|ops| - 1]), ops[|ops| - 1])
  }

  /** Whether an operation reads the snapshot that the attempt then works with. */
  predicate Begins(name: Option<WorkflowName>, m: Machine, op: Op) {
    op.Begin? && m.at.Idle? && Prepared(name, m.memory).Some?
  }

  /**
   * What the operations of a run come to for its latest attempt: the memory it read, what is left of
   * that, what agents wrote since (or since another attempt cleared memory), and what another attempt
   * stored over the row since this one wrote it and last found it unchanged.
   */
  datatype View = View(read: Memory, left: Memory, written: Memory, over: Option<Memory>)
  {
    function Present(): Memory { left + written }

    function InRow(): Memory { if over.Some? then over.value else read }
  }

  function Seen(name: Option<WorkflowName>, v: View, m: Machine, op: Op): View {
    if Begins(name, m, op) then View(m.memory, m.memory, map[], None)
    else match op
      case AgentWrites(a, o) => v.(written := v.written[a := o])
      case OtherClears => v.(left := map[], written := map[])
      case OtherStores(s) => if Preparable(name, s) then v.(over := Some(s.outputs)) else v
      case Write(_) => if m.at.Read? then v.(over := None) else v
      case Check => if m.at.Wrote? then v.(over := None) else v
      case _ => v
  }

  function Watch(name: Option<WorkflowName>, start: Machine, ops: seq<Op>): View {
    if ops == [] then View(map[], map[], map[], None)
    else
      var before, op := ops[..|ops| - 1], ops[|ops| - 1];
      Seen(name, Watch(name, start, before), DoAll(name, start, before), op)
  }

  /** What holds between any two operations, whatever crashed, retried, was written or stored before. */
  ghost predicate CrashInvariant(name: Option<WorkflowName>, m: Machine, v: View) {
    && (m.row.Some? ==> m.row.value == Stored(m.row.value.snapshot))
    && (m.row.Some? && NameRequiresScr(name) ==> Scr in m.row.value.snapshot.outputs)
    && (!m.at.Idle? ==> m.at.s == Snapshot(name, v.read) && (NameRequiresScr(name) ==> Scr in v.read))
    && (m.at.Read? || m.at.Wrote? || m.at.Checked? ==> m.memory == v.Present())
    && (m.at.Wrote? || m.at.Checked? || m.at.Cleared? ==> m.row == Some(Stored(Snapshot(name, v.InRow()))))
  }

  /** Before the first attempt: no snapshot is being worked with, and a row is a stored one. */
  ghost predicate Fit(name: Option<WorkflowName>, m: Machine) {
    && m.at.Idle?
    && (m.row.Some? ==> m.row.value == Stored(m.row.value.snapshot))
    && (m.row.Some? && NameRequiresScr(name) ==> Scr in m.row.value.snapshot.outputs)
  }

  lemma OpKeepsInvariant(name: Option<WorkflowName>, m: Machine, v: View, op: Op)
    requires CrashInvariant(name, m, v)
    ensures CrashInvariant(name, Do(name, m, op), Seen(name, v, m, op))
  {
    hide Do, Seen, CrashInvariant;
    match op
    case Begin(_) => BeginKeepsInvariant(name, m, v, op);
    case OtherStores(s) => StoreKeepsInvariant(name, m, v, s);
    case AgentWrites(_, _) => MemoryKeepsInvariant(name, m, v, op);
    case OtherClears => MemoryKeepsInvariant(name, m, v, op);
    case Check => CheckKeepsInvariant(name, m, v);
    case _ => StepKeepsInvariant(name, m, v, op);
  }

  lemma StepKeepsInvariant(name: Option<WorkflowName>, m: Machine, v: View, op: Op)
    requires CrashInvariant(name, m, v) && (op.Write? || op.Clear? || op.Finish? || op.Crash?)
    ensures CrashInvariant(name, Do(name, m, op), Seen(name, v, m, op))
  {
    hide Prepared;
  }

  /** The check passes only over the snapshot itself, so what another attempt stored until then is gone. */
  lemma CheckKeepsInvariant(name: Option<WorkflowName>, m: Machine, v: View)
    requires CrashInvariant(name, m, v)
    ensures CrashInvariant(name, Do(name, m, Check), Seen(name, v, m, Check))
  {
    hide Prepared;
  }

  lemma MemoryKeepsInvariant(name: Option<WorkflowName>, m: Machine, v: View, op: Op)
    requires CrashInvariant(name, m, v) && (op.AgentWrites? || op.OtherClears?)
    ensures CrashInvariant(name, Do(name, m, op), Seen(name, v, m, op))
  {
    hide Prepared;
  }

  lemma BeginKeepsInvariant(name: Option<WorkflowName>, m: Machine, v: View, op: Op)
    requires CrashInvariant(name, m, v) && op.Begin?
    ensures CrashInvariant(name, Do(name, m, op), Seen(name, v, m, op))
  {
    assert m.memory + map[] == m.memory;
  }

  lemma StoreKeepsInvariant(name: Option<WorkflowName>, m: Machine, v: View, s: Snapshot)
    requires CrashInvariant(name, m, v)
    ensures CrashInvariant(name, Do(name, m, OtherStores(s)), Seen(name, v, m, OtherStores(s)))
  {
    hide Prepared;
  }

  /**
   * In every run, other attempts included: from the read of a snapshot to its clear, shared memory is
   * what was read with what agents wrote since on top, or only what they wrote since another attempt
   * cleared it. The clear is reached only over a row that held the whole snapshot when its checksum was
   * read back, and that holds it still unless another attempt has stored its own since. A workflow that
   * requires SCR never has a row without it.
   */
  lemma {:induction false} CrashSafety(name: Option<WorkflowName>, start: Machine, ops: seq<Op>)
    requires Fit(name, start)
    ensures CrashInvariant(name, DoAll(name, start, ops), Watch(name, start, ops))
  {
    if ops != [] {
      var before := ops[..|ops| - 1];
      CrashSafety(name, start, before);
      OpKeepsInvariant(name, DoAll(name, start, before), Watch(name, start, before), ops[|ops| - 1]);
    }
  }

  /** The output of one agent that memory holds or the row does. */
  ghost predicate Kept(m: Machine, a: Agent, o: Output) {
    || (a in m.memory && m.memory[a] == o)
    || (m.row.Some? && a in m.row.value.snapshot.outputs && m.row.value.snapshot.outputs[a] == o)
  }

  ghost predicate AllKept(m: Machine, outputs: Memory) { forall a :: a in outputs ==> Kept(m, a, outputs[a]) }

  /** A row with the outputs held loses none of some outputs. */
  ghost predicate HoldsAll(held: Memory, outputs: Memory) {
    forall a :: a in outputs ==> a in held && held[a] == outputs[a]
  }

  /**
   * In every run the clear loses nothing if and only if the row holds all that is present: what was read,
   * or what another attempt stored since the check. Where no other attempt has cleared memory or stored
   * since the check, an output no agent wrote since the read survives, and one that was written since
   * survives exactly when it is the very output that was read.
   */
  lemma ClearKeeps(name: Option<WorkflowName>, start: Machine, ops: seq<Op>)
    requires Fit(name, start) && DoAll(name, start, ops).at.Checked?
    ensures var m, v := DoAll(name, start, ops), Watch(name, start, ops); var m' := Do(name, m, Clear);
      && m.memory == v.Present()
      && (AllKept(m', m.memory) <==> HoldsAll(v.InRow(), v.Present()))
      && (v.over.None? && v.left == v.read ==>
            && (forall a :: a in v.read && a !in v.written ==> Kept(m', a, v.read[a]))
            && (forall a :: a in v.written ==>
                  (Kept(m', a, v.written[a]) <==> a in v.read && v.read[a] == v.written[a])))
  {
    CrashSafety(name, start, ops);
    ClearedFrom(name, DoAll(name, start, ops), Watch(name, start, ops));
  }

  lemma ClearedFrom(name: Option<WorkflowName>, m: Machine, v: View)
    requires CrashInvariant(name, m, v) && m.at.Checked?
    ensures forall a, o :: Kept(Do(name, m, Clear), a, o) <==> a in v.InRow() && v.InRow()[a] == o
    ensures AllKept(Do(name, m, Clear), m.memory) <==> HoldsAll(v.InRow(), v.Present())
  {
    var m' := Do(name, m, Clear);
    forall a | a in m.memory ensures Kept(m', a, m.memory[a]) <==> a in v.InRow() && v.InRow()[a] == v.Present()[a] { }
  }

  /**
   * Overlapping attempts lose outputs even where SCR is required: one reads, an agent writes, another
   * stores and clears the fuller memory, and the first then stores what it read over the row.
   */
  lemma OverlapLoses(name: Option<WorkflowName>, outputs: Memory, a: Agent, o: Output)
    requires name.Some? && Prepared(name, outputs).Some? && a !in outputs
    ensures var fuller := OtherStores(Snapshot(name, outputs[a := o]));
      var ops := [Begin(true), AgentWrites(a, o), fuller, OtherClears, Write(true)];
      var m := DoAll(name, Machine(outputs, None, false, Idle), ops);
      Prepared(name, outputs[a := o]) == Some(Snapshot(name, outputs[a := o])) && !Kept(m, a, o)
  {
    var full := Snapshot(name, outputs[a := o]);
    var ops := [Begin(true), AgentWrites(a, o), OtherStores(full), OtherClears, Write(true)];
    var m0 := Machine(outputs, None, false, Idle);
    FullerIsPrepared(name, outputs, a, o);
    DoFive(name, m0, ops);
    hide DoAll, Prepared;
    var m1 := Do(name, m0, Begin(true));
    assert m1.at == Read(Snapshot(name, outputs), true);
    var m4 := Do(name, Do(name, Do(name, m1, AgentWrites(a, o)), OtherStores(full)), OtherClears);
    assert m4.at == m1.at && m4.memory == map[];
    assert Do(name, m4, Write(true)).row == Some(Stored(Snapshot(name, outputs)));
  }

  lemma FullerIsPrepared(name: Option<WorkflowName>, outputs: Memory, a: Agent, o: Output)
    requires name.Some? && Prepared(name, outputs).Some?
    ensures Prepared(name, outputs) == Some(Snapshot(name, outputs))
    ensures Prepared(name, outputs[a := o]) == Some(Snapshot(name, outputs[a := o]))
  {
  }

  /** Neither an agent writes nor another attempt interferes. */
  predicate Own(op: Op) { !op.AgentWrites? && !op.OtherStores? && !op.OtherClears? }

  ghost predicate Alone(ops: seq<Op>) { forall i :: 0 <= i < |ops| ==> Own(ops[i]) }

  /** Every run of attempts, crashes and retries after the agents are done keeps their outputs. */
  ghost predicate NeverLoses(name: Option<WorkflowName>, outputs: Memory, row: Option<Row>) {
    forall ops :: Alone(ops) ==> AllKept(DoAll(name, Machine(outputs, row, false, Idle), ops), outputs)
  }

  ghost predicate HeldOrStored(name: Option<WorkflowName>, m: Machine, outputs: Memory) {
    && (NameRequiresScr(name) || m.memory == outputs)
    && (!m.at.Idle? ==> Prepared(name, outputs).Some?)
    && (m.memory == outputs || (m.memory == map[] && m.row.Some? && m.row.value.snapshot.outputs == outputs))
    && (m.row.Some? ==> m.row.value == Stored(m.row.value.snapshot))
    && (!m.at.Idle? ==> m.at.s.outputs == outputs)
    && (m.at.Read? || m.at.Wrote? || m.at.Checked? ==> m.memory == outputs)
    && (m.at.Checked? ==> m.row.Some? && m.row.value.snapshot.outputs == outputs)
  }

  lemma OpHolds(name: Option<WorkflowName>, outputs: Memory, m: Machine, op: Op)
    requires NameRequiresScr(name) || outputs == map[] || Prepared(name, outputs).None?
    requires HeldOrStored(name, m, outputs) && Own(op)
    ensures HeldOrStored(name, Do(name, m, op), outputs)
  {
  }

  lemma {:induction false} RequiredNameHolds(
    name: Option<WorkflowName>, outputs: Memory, row: Option<Row>, ops: seq<Op>)
    requires NameRequiresScr(name) || outputs == map[] || Prepared(name, outputs).None?
    requires row.Some? ==> row.value == Stored(row.value.snapshot)
    requires Alone(ops)
    ensures HeldOrStored(name, DoAll(name, Machine(outputs, row, false, Idle), ops), outputs)
  {
    if ops != [] {
      RequiredNameHolds(name, outputs, row, ops[..|ops| - 1]);
      OpHolds(name, outputs, DoAll(name, Machine(outputs, row, false, Idle), ops[..|ops| - 1]), ops[|ops| - 1]);
    }
  }

  /** A finalize that is run again after its memory was cleared. */
  const FINALIZING: seq<Op> := [Begin(true), Write(true), Check, Clear, Finish]
  const RETRIED: seq<Op> := FINALIZING + [Begin(true)] + [Write(true)]

  lemma DoSnoc(name: Option<WorkflowName>, m: Machine, ops: seq<Op>, op: Op)
    ensures DoAll(name, m, ops + [op]) == Do(name, DoAll(name, m, ops), op)
  {
    assert (ops + [op])[..|ops|] == ops;
  }

  lemma RetryOverwrites(name: Option<WorkflowName>, outputs: Memory, row: Option<Row>)
    requires !NameRequiresScr(name) && outputs != map[] && Prepared(name, outputs).Some?
    ensures !AllKept(DoAll(name, Machine(outputs, row, false, Idle), RETRIED), outputs)
  {
    hide DoAll;
    var m0 := Machine(outputs, row, false, Idle);
    DoFive(name, m0, FINALIZING);
    FirstFinalize(name, outputs, row);
    DoSnoc(name, m0, FINALIZING, Begin(true));
    DoSnoc(name, m0, FINALIZING + [Begin(true)], Write(true));
    var m7 := DoAll(name, m0, RETRIED);
    assert m7.memory == map[] && m7.row.value.snapshot.outputs == map[];
    var a :| a in outputs;
    assert !Kept(m7, a, outputs[a]);
  }

  lemma FirstFinalize(name: Option<WorkflowName>, outputs: Memory, row: Option<Row>)
    requires Prepared(name, outputs).Some?
    ensures Do(name, Do(name, Do(name, Do(name, Do(name, Machine(outputs, row, false, Idle),
              Begin(true)), Write(true)), Check), Clear), Finish)
      == Machine(map[], Some(Stored(Snapshot(name, outputs))), true, Idle)
  {
  }

  lemma DoFive(name: Option<WorkflowName>, m: Machine, ops: seq<Op>)
    requires |ops| == 5
    ensures DoAll(name, m, ops)
        == Do(name, Do(name, Do(name, Do(name, Do(name, m, ops[0]), ops[1]), ops[2]), ops[3]), ops[4])
  {
    assert ops[..4][..3] == ops[..3] && ops[..3][..2] == ops[..2] && ops[..2][..1] == ops[..1] && ops[..1][..0] == [];
    assert DoAll(name, m, ops[..1]) == Do(name, m, ops[0]);
    assert DoAll(name, m, ops[..2]) == Do(name, DoAll(name, m, ops[..1]), ops[1]);
    assert DoAll(name, m, ops[..3]) == Do(name, DoAll(name, m, ops[..2]), ops[2]);
    assert DoAll(name, m, ops[..4]) == Do(name, DoAll(name, m, ops[..3]), ops[3]);
  }

  /**
   * No run of crashes and retries loses an output if and only if there is none to lose, the name
   * requires SCR, or the first attempt is refused. Every other workflow can lose all of them: a
   * retry after the clear stores the empty snapshot over the full one.
   */
  lemma RetrySafety(name: Option<WorkflowName>, outputs: Memory, row: Option<Row>)
    requires row.Some? ==> row.value == Stored(row.value.snapshot)
    ensures NeverLoses(name, outputs, row)
      <==> NameRequiresScr(name) || outputs == map[] || Prepared(name, outputs).None?
  {
    if NameRequiresScr(name) || outputs == map[] || Prepared(name, outputs).None? {
      forall ops | Alone(ops)
        ensures AllKept(DoAll(name, Machine(outputs, row, false, Idle), ops), outputs)
      {
        RequiredNameHolds(name, outputs, row, ops);
      }
    } else {
      RetryOverwrites(name, outputs, row);
      assert Alone(RETRIED);
    }
  }

  /** Finalize, taken as one step, is the run of its store operations, with what another attempt stores in between. */
  lemma FinalizeIsItsSteps(
    name: WorkflowName, memory: Memory, row: Option<Row>, dbOk: bool, other: Option<Snapshot>)
    requires other.Some? ==> dbOk && Prepared(Some(name), memory).Some?
    ensures var (row', raised) := Persist(Some(name), memory, row, dbOk, other);
      DoAll(Some(name), Machine(memory, row, false, Idle), FinalizeOps(dbOk, other))
        == Machine(if raised then memory else map[], row', !raised, Idle)
  {
    var m0 := Machine(memory, row, false, Idle);
    StepsUnfold(name, m0, dbOk, other);
    hide DoAll, Prepared;
    var m := AfterWrite(name, m0, dbOk, other);
    if Prepared(Some(name), memory).None? || !dbOk {
      assert m.at == Idle;
    } else {
      assert m.at == Wrote(Prepared(Some(name), memory).value, true);
    }
  }

  function AfterWrite(name: WorkflowName, m: Machine, dbOk: bool, other: Option<Snapshot>): Machine {
    var wrote := Do(Some(name), Do(Some(name), m, Begin(true)), Write(dbOk));
    if other.Some? then Do(Some(name), wrote, OtherStores(other.value)) else wrote
  }

  lemma StepsUnfold(name: WorkflowName, m: Machine, dbOk: bool, other: Option<Snapshot>)
    ensures DoAll(Some(name), m, FinalizeOps(dbOk, other))
        == Do(Some(name), Do(Some(name), Do(Some(name), AfterWrite(name, m, dbOk, other), Check), Clear), Finish)
  {
    hide Do;
    var first := [Begin(true), Write(dbOk)];
    assert first[..1] == [Begin(true)] && first[..1][..0] == [];
    assert DoAll(Some(name), m, first[..1]) == Do(Some(name), m, Begin(true));
    var meanwhile := if other.Some? then first + [OtherStores(other.value)] else first;
    if other.Some? { DoSnoc(Some(name), m, first, OtherStores(other.value)); }
    DoSnoc(Some(name), m, meanwhile, Check);
    DoSnoc(Some(name), m, meanwhile + [Check], Clear);
    DoSnoc(Some(name), m, meanwhile + [Check] + [Clear], Finish);
  }

  /** The store operations of one finalize, with what another attempt stores between its upsert and its check. */
  function FinalizeOps(dbOk: bool, other: Option<Snapshot>): seq<Op> {
    var first := [Begin(true), Write(dbOk)];
    (if other.Some? then first + [OtherStores(other.value)] else first) + [Check] + [Clear] + [Finish]
  }
}
