/** Typed agent outputs in untyped Redis hashes (backend/memory/shared_memory.py). */
module SharedMemory {
  import opened Sequences
  import opened JsonText

  /** Stamp is a datetime, given by its isoformat text. */
  datatype Value =
    | Null
    | Text(text: string)
    | Stamp(iso: string)
    | Number(n: int)
    | Flag(b: bool)
    | Strings(items: seq<string>)

  datatype Field =
    | AgentId | CompletedAt | RiskScore | HighestSeverity | RequiresHuman | AutoRemediation | ForwardTo
    | CriticalCount | SecretCount | Correlated | KillChain | AuditDue | OtherJson(name: string) | OtherInt(name: string)
    | OtherText(name: string)

  predicate SurfaceField(f: Field) { !f.OtherJson? && !f.OtherInt? && !f.OtherText? }

  predicate JsonField(f: Field) { f == ForwardTo || f.OtherJson? }

  predicate IntField(f: Field) { f in {RiskScore, CriticalCount, SecretCount, KillChain, AuditDue} || f.OtherInt? }

  /** _serialize_value. */
  function Serialize(v: Value): string {
    match v
    case Null => ""
    case Strings(items) => ListText(items)
    case Stamp(iso) => iso
    case Flag(b) => if b then "true" else "false"
    case Number(n) => IntText(n)
    case Text(t) => t
  }

  /** value.replace("Z", "+00:00"). */
  function WithoutZulu(t: string): string {
    if t == [] then [] else (if t[0] == 'Z' then "+00:00" else [t[0]]) + WithoutZulu(t[1..])
  }

  /** _deserialize_value; the field decides how the text is read. */
  function Deserialize(f: Field, t: string): Value {
    if t == "" || t == "None" || t == "null" then Null
    else if JsonField(f) then (match ParseList(t) case Some(items) => Strings(items) case None => Text(t))
    else if t == "true" || t == "false" then Flag(t == "true")
    else if IntField(f) then (match ParseInt(t) case Some(n) => Number(n) case None => Null)
    else if f == CompletedAt then Stamp(WithoutZulu(t))
    else Text(t)
  }

  type Hash = map<Field, string>

  /** hset of a mapping: the written fields replace the old ones, the others stay. */
  function Written(h: Hash, data: map<Field, Value>): Hash {
    h + (map f | f in data :: Serialize(data[f]))
  }

  function DefaultOf(f: Field): Value {
    if f in {KillChain, AuditDue} then Null
    else if f == ForwardTo then Strings([])
    else if f in {CriticalCount, SecretCount, RiskScore} then Number(0)
    else Flag(false)
  }

  const SURFACE_FIELDS: set<Field> := {
    AgentId, CompletedAt, RiskScore, HighestSeverity, RequiresHuman, AutoRemediation, ForwardTo,
    CriticalCount, SecretCount, Correlated, KillChain, AuditDue
  }

  /** The given fields, read with their defaults; None when none of them holds anything. */
  function FieldsIn(h: Hash, fields: set<Field>): Option<map<Field, Value>> {
    if forall f | f in fields :: f !in h || h[f] == "" then None
    else Some(map f | f in fields :: if f in h then Deserialize(f, h[f]) else DefaultOf(f))
  }

  /** read_decision_surface; None is AgentOutputNotReady. */
  function SurfaceIn(h: Hash): Option<map<Field, Value>> { FieldsIn(h, SURFACE_FIELDS) }

  /** An agent's decision surface; completedAt is the isoformat text of its time. */
  datatype Surface = Surface(
    agentId: string, completedAt: string, risk: int, severity: string, requiresHuman: bool, autoSafe: bool,
    forwardTo: seq<string>, critical: int, secrets: int, correlated: bool,
    killChain: Option<int>, auditDue: Option<int>)

  function OptionalNumber(o: Option<int>): Value { if o.Some? then Number(o.value) else Null }

  function ValueOf(s: Surface, f: Field): Value
    requires SurfaceField(f)
  {
    match f
    case AgentId => Text(s.agentId)
    case CompletedAt => Stamp(s.completedAt)
    case RiskScore => Number(s.risk)
    case HighestSeverity => Text(s.severity)
    case RequiresHuman => Flag(s.requiresHuman)
    case AutoRemediation => Flag(s.autoSafe)
    case ForwardTo => Strings(s.forwardTo)
    case CriticalCount => Number(s.critical)
    case SecretCount => Number(s.secrets)
    case Correlated => Flag(s.correlated)
    case KillChain => OptionalNumber(s.killChain)
    case AuditDue => OptionalNumber(s.auditDue)
  }

  lemma SurfaceFieldsListed(f: Field)
    ensures f in SURFACE_FIELDS <==> SurfaceField(f)
  {
  }

  function ValuesOf(s: Surface, fields: set<Field>): map<Field, Value>
    requires forall f :: f in fields ==> SurfaceField(f)
  {
    map f | f in fields :: ValueOf(s, f)
  }

  function Fields(s: Surface): map<Field, Value> { ValuesOf(s, SURFACE_FIELDS) }

  // ---------------------------------------------------------------- the client

  datatype Key = Key(workflow: string, agent: string)

  datatype Result<T> = Ok(value: T) | NotReady | WriteError

  class SharedMemoryClient {
    var hashes: map<Key, Hash>

    constructor ()
      ensures hashes == map[]
    {
      hashes := map[];
    }

    /** Redis refuses an empty mapping, which the client reports as a write error. */
    method WriteAgentOutput(k: Key, data: map<Field, Value>) returns (r: Result<()>)
      modifies this
      ensures data == map[] ==> r == WriteError && hashes == old(hashes)
      ensures data != map[] ==>
        r == Ok(()) && hashes == old(hashes)[k := Written(if k in old(hashes) then old(hashes)[k] else map[], data)]
    {
      if data == map[] { return WriteError; }
      var mapping := map f | f in data :: Serialize(data[f]);
      hashes := hashes[k := (if k in hashes then hashes[k] else map[]) + mapping];
      r := Ok(());
    }

    method ReadAgentOutput(k: Key) returns (r: Result<map<Field, Value>>)
      ensures k !in hashes || hashes[k] == map[] ==> r == NotReady
      ensures k in hashes && hashes[k] != map[] ==>
        r == Ok(map f | f in hashes[k] :: Deserialize(f, hashes[k][f]))
    {
      if k !in hashes || hashes[k] == map[] { return NotReady; }
      r := Ok(map f | f in hashes[k] :: Deserialize(f, hashes[k][f]));
    }

    method ReadDecisionSurface(k: Key) returns (r: Result<map<Field, Value>>)
      ensures var found := SurfaceIn(if k in hashes then hashes[k] else map[]);
        r == if found.None? then NotReady else Ok(found.value)
    {
      var h: Hash := if k in hashes then hashes[k] else map[];
      var found := SurfaceIn(h);
      r := if found.None? then NotReady else Ok(found.value);
    }

    method ClearWorkflow(workflow: string)
      modifies this
      ensures hashes == map k | k in old(hashes) && k.workflow != workflow :: old(hashes)[k]
    {
      hashes := map k | k in hashes && k.workflow != workflow :: hashes[k];
    }
  }

  // ---------------------------------------------------------------- round trips

  /** Text that no rule of the reader takes for something else. */
  predicate Plain(t: string) { t != "" && t != "None" && t != "null" && t != "true" && t != "false" }

  lemma {:induction false} NoZulu(t: string)
    ensures WithoutZulu(t) == t <==> 'Z' !in t
  {
    if t != [] {
      NoZulu(t[1..]);
      if t[0] == 'Z' { assert WithoutZulu(t)[0] != t[0]; }
      else { assert WithoutZulu(t)[1..] == WithoutZulu(t[1..]); }
    }
  }

  /** Text that starts like no word the reader knows. */
  lemma NoWordReads(f: Field, t: string)
    requires t != "" && t[0] !in {'N', 'n', 't', 'f'}
    ensures Deserialize(f, t) ==
        if JsonField(f) then (match ParseList(t) case Some(items) => Strings(items) case None => Text(t))
        else if IntField(f) then (match ParseInt(t) case Some(n) => Number(n) case None => Null)
        else if f == CompletedAt then Stamp(WithoutZulu(t))
        else Text(t)
  {
    hide ParseList, ParseInt, WithoutZulu;
  }

  lemma NumberReads(f: Field, n: int)
    ensures Deserialize(f, IntText(n)) == Number(n) <==> IntField(f)
  {
    hide Deserialize, IntText, ParseInt, ParseList, WithoutZulu;
    IntRoundTrip(n);
    NoWordReads(f, IntText(n));
  }

  lemma ListReads(f: Field, items: seq<string>)
    ensures Deserialize(f, ListText(items)) == Strings(items) <==> JsonField(f)
  {
    hide Deserialize, ListText, ParseInt, ParseList, WithoutZulu;
    ListRoundTrip(items);
    ListStarts(items);
    NoWordReads(f, ListText(items));
  }

  lemma ListStarts(items: seq<string>)
    ensures ListText(items) != "" && ListText(items)[0] == '['
  {
  }

  /**
   * The values whose reading is modelled: all but a text in the time's field, and in a JSON field those
   * that are neither a list of strings, nothing, nor a time.
   */
  predicate Modelled(f: Field, v: Value) {
    if JsonField(f) then v.Null? || v.Strings? || v.Stamp? else f == CompletedAt ==> !v.Text?
  }

  /** What a field can hold without being changed by the reader. */
  predicate Fits(f: Field, v: Value) {
    match v
    case Null => true
    case Strings(_) => JsonField(f)
    case Stamp(iso) => f == CompletedAt && Plain(iso) && 'Z' !in iso
    case Number(_) => IntField(f)
    case Flag(_) => true
    case Text(t) => Plain(t) && !IntField(f)
  }

  lemma {:induction false} ZuluReads(t: string)
    requires 'Z' !in t
    ensures WithoutZulu(t + "Z") == t + "+00:00"
  {
    if t == [] {
      assert "Z"[1..] == [] && WithoutZulu([]) == [];
    } else {
      assert (t + "Z")[1..] == t[1..] + "Z";
      ZuluReads(t[1..]);
    }
  }

  /**
   * What a text that does not survive reads as: the words for nothing as None and those for truth as truth
   * values, whatever was written, an integer field's other text as None, and a time in Z as one in UTC.
   */
  lemma {:induction false} ReadsOtherwise(f: Field, t: string)
    ensures t == "" || t == "None" || t == "null" ==> Deserialize(f, t) == Null
    ensures !JsonField(f) && t == "true" ==> Deserialize(f, t) == Flag(true)
    ensures !JsonField(f) && t == "false" ==> Deserialize(f, t) == Flag(false)
    ensures IntField(f) && Plain(t) && ParseInt(t).None? ==> Deserialize(f, t) == Null
    ensures f == CompletedAt && 'Z' !in t ==> Deserialize(f, t + "Z") == Stamp(t + "+00:00")
  {
    hide ParseInt, ParseList, WithoutZulu;
    if 'Z' !in t {
      ZuluReads(t);
      assert (t + "Z")[|t|] == 'Z';
    }
  }

  /** A written value reads back as itself exactly when it fits its field. */
  lemma ReadsBack(f: Field, v: Value)
    requires Modelled(f, v)
    ensures Deserialize(f, Serialize(v)) == v <==> Fits(f, v)
  {
    match v
    case Strings(items) => ListReads(f, items);
    case Number(n) => NumberReads(f, n);
    case Stamp(iso) => NoZulu(iso);
    case _ =>
  }

  ghost predicate Survives(s: Surface, f: Field) {
    SurfaceField(f) && Deserialize(f, Serialize(ValueOf(s, f))) == ValueOf(s, f)
  }

  lemma FieldSurvives(s: Surface, f: Field)
    requires SurfaceField(f)
    ensures Survives(s, f) <==> match f
      case AgentId => Plain(s.agentId)
      case HighestSeverity => Plain(s.severity)
      case CompletedAt => Plain(s.completedAt) && 'Z' !in s.completedAt
      case _ => true
  {
    hide Deserialize, Serialize;
    ReadsBack(f, ValueOf(s, f));
  }

  predicate PlainSurface(s: Surface) {
    Plain(s.agentId) && Plain(s.severity) && Plain(s.completedAt) && 'Z' !in s.completedAt
  }

  /** Every field of a written surface reads back as its own text reads. */
  lemma WrittenReads(h: Hash, s: Surface, fields: set<Field>)
    requires RiskScore in fields && forall f :: f in fields ==> SurfaceField(f)
    ensures var r := FieldsIn(Written(h, ValuesOf(s, fields)), fields);
      r.Some? && r.value.Keys == fields && forall f :: f in fields ==>
          r.value[f] == Deserialize(f, Serialize(ValueOf(s, f)))
  {
    IntRoundTrip(s.risk);
    assert Written(h, ValuesOf(s, fields))[RiskScore] != "";
  }

  lemma AllSurvive(s: Surface)
    ensures PlainSurface(s) <==> forall f :: SurfaceField(f) ==> Survives(s, f)
  {
    forall f | SurfaceField(f) ensures PlainSurface(s) ==> Survives(s, f) { FieldSurvives(s, f); }
    if forall f :: SurfaceField(f) ==> Survives(s, f) {
      assert Survives(s, AgentId) && Survives(s, HighestSeverity) && Survives(s, CompletedAt);
      FieldSurvives(s, AgentId);
      FieldSurvives(s, HighestSeverity);
      FieldSurvives(s, CompletedAt);
    }
  }

  lemma FieldsRoundTrip(h: Hash, s: Surface, fields: set<Field>)
    requires forall f :: f in fields <==> SurfaceField(f)
    ensures FieldsIn(Written(h, ValuesOf(s, fields)), fields) == Some(ValuesOf(s, fields)) <==> PlainSurface(s)
  {
    assert RiskScore in fields;
    WrittenReads(h, s, fields);
    AllSurvive(s);
    var r, values := FieldsIn(Written(h, ValuesOf(s, fields)), fields).value, ValuesOf(s, fields);
    forall f | f in fields ensures r[f] == values[f] <==> Survives(s, f) { }
    if forall f :: SurfaceField(f) ==> Survives(s, f) {
      assert r == values;
    } else {
      var f :| SurfaceField(f) && !Survives(s, f);
      assert r[f] != values[f];
    }
  }

  /**
   * Writing a decision surface over any hash and reading it back gives the same surface if and only
   * if its texts are plain: not empty, None, null, true or false, and no Z in the time.
   */
  lemma {:induction false} SurfaceRoundTrip(h: Hash, s: Surface)
    ensures SurfaceIn(Written(h, Fields(s))) == Some(Fields(s)) <==> PlainSurface(s)
  {
    forall f ensures f in SURFACE_FIELDS <==> SurfaceField(f) { SurfaceFieldsListed(f); }
    FieldsRoundTrip(h, s, SURFACE_FIELDS);
  }

  /** The surface the real agents leave: they never write the kill-chain stage or the audit deadline. */
  const PAYLOAD_FIELDS: set<Field> := SURFACE_FIELDS - {KillChain, AuditDue}

  /** What a field that no agent has written reads as. */
  ghost predicate Unwritten(f: Field, v: Value) {
    match f
    case KillChain => v == Null
    case AuditDue => v == Null
    case ForwardTo => v == Strings([])
    case RiskScore => v == Number(0)
    case CriticalCount => v == Number(0)
    case SecretCount => v == Number(0)
    case _ => v == Flag(false)
  }

  /**
   * A surface can be read exactly when some field of it holds something; then every stored field is read by
   * its name, and an absent one reads as nothing, an empty list, 0 or false.
   */
  lemma {:induction false} SurfaceReads(h: Hash)
    ensures SurfaceIn(h).Some? <==> exists f :: SurfaceField(f) && f in h && h[f] != ""
    ensures SurfaceIn(h).Some? ==>
      && (forall f :: f in SurfaceIn(h).value <==> SurfaceField(f))
      && (forall f :: SurfaceField(f) && f in h ==> SurfaceIn(h).value[f] == Deserialize(f, h[f]))
      && (forall f :: SurfaceField(f) && f !in h ==> Unwritten(f, SurfaceIn(h).value[f]))
  {
    forall f ensures f in SURFACE_FIELDS <==> SurfaceField(f) { SurfaceFieldsListed(f); }
    ListedRead(h, SURFACE_FIELDS);
  }

  lemma ListedRead(h: Hash, fields: set<Field>)
    requires forall f :: f in fields <==> SurfaceField(f)
    ensures FieldsIn(h, fields).Some? <==> exists f :: SurfaceField(f) && f in h && h[f] != ""
    ensures FieldsIn(h, fields).Some? ==> var r := FieldsIn(h, fields).value;
      && (forall f :: f in r <==> SurfaceField(f))
      && (forall f :: SurfaceField(f) && f in h ==> r[f] == Deserialize(f, h[f]))
      && (forall f :: SurfaceField(f) && f !in h ==> Unwritten(f, r[f]))
  {
    hide Deserialize, FieldsIn, DefaultOf, Unwritten, SurfaceField;
    FieldsRead(h, fields);
    forall f | SurfaceField(f) ensures Unwritten(f, DefaultOf(f)) { DefaultIsUnwritten(f); }
  }

  lemma DefaultIsUnwritten(f: Field)
    requires SurfaceField(f)
    ensures Unwritten(f, DefaultOf(f))
  {
  }

  lemma FieldsRead(h: Hash, fields: set<Field>)
    ensures FieldsIn(h, fields).Some? <==> exists f :: f in fields && f in h && h[f] != ""
    ensures FieldsIn(h, fields).Some? ==> var r := FieldsIn(h, fields).value;
      r.Keys == fields && forall f :: f in fields ==> r[f] == if f in h then Deserialize(f, h[f]) else DefaultOf(f)
  {
    hide Deserialize, DefaultOf;
  }

  /**
   * The round trip of what is really written: a surface without its last two fields, written to an empty
   * hash, reads back as itself with both of them None if and only if its texts are plain.
   */
  lemma {:induction false} PayloadRoundTrip(s: Surface)
    ensures PlainSurface(s) <==>
      SurfaceIn(Written(map[], ValuesOf(s, PAYLOAD_FIELDS))) == Some(Fields(s.(killChain := None, auditDue := None)))
  {
    var h, t := Written(map[], ValuesOf(s, PAYLOAD_FIELDS)), s.(killChain := None, auditDue := None);
    forall f ensures f in SURFACE_FIELDS <==> SurfaceField(f) { SurfaceFieldsListed(f); }
    PayloadWritten(s, h, PAYLOAD_FIELDS);
    SameFields(s, SURFACE_FIELDS, h);
  }

  lemma PayloadWritten(s: Surface, h: Hash, fields: set<Field>)
    requires forall f :: f in fields <==> SurfaceField(f) && f !in {KillChain, AuditDue}
    requires h == Written(map[], ValuesOf(s, fields))
    ensures forall f :: SurfaceField(f) && f !in {KillChain, AuditDue} ==> f in h && h[f] == Serialize(ValueOf(s, f))
    ensures KillChain !in h && AuditDue !in h && RiskScore in h && h[RiskScore] != ""
  {
    hide Serialize, ValueOf;
    RiskWritten(s);
    assert RiskScore in fields;
  }

  lemma RiskWritten(s: Surface)
    ensures Serialize(ValueOf(s, RiskScore)) != ""
  {
    IntRoundTrip(s.risk);
  }

  lemma PayloadReads(s: Surface, h: Hash)
    requires forall f :: SurfaceField(f) && f !in {KillChain, AuditDue} ==> f in h && h[f] == Serialize(ValueOf(s, f))
    requires KillChain !in h && AuditDue !in h && RiskScore in h && h[RiskScore] != ""
    ensures var t := s.(killChain := None, auditDue := None);
      && SurfaceIn(h).Some? && (forall f :: f in SurfaceIn(h).value <==> SurfaceField(f))
      && (forall f :: SurfaceField(f) ==>
            (SurfaceIn(h).value[f] == ValueOf(t, f) <==> f in {KillChain, AuditDue} || Survives(s, f)))
      && Survives(s, KillChain) && Survives(s, AuditDue)
  {
    hide SurfaceIn, Serialize, Deserialize;
    SurfaceReads(h);
    assert SurfaceField(RiskScore);
    FieldSurvives(s, KillChain);
    FieldSurvives(s, AuditDue);
    var r, t := SurfaceIn(h).value, s.(killChain := None, auditDue := None);
    assert Unwritten(KillChain, r[KillChain]) && Unwritten(AuditDue, r[AuditDue]);
    forall f | SurfaceField(f) && f !in {KillChain, AuditDue} ensures ValueOf(t, f) == ValueOf(s, f) { }
  }

  /** The whole surface survives if and only if each of its fields does. */
  lemma SameFields(s: Surface, fields: set<Field>, h: Hash)
    requires forall f :: f in fields <==> SurfaceField(f)
    requires forall f :: SurfaceField(f) && f !in {KillChain, AuditDue} ==> f in h && h[f] == Serialize(ValueOf(s, f))
    requires KillChain !in h && AuditDue !in h && RiskScore in h && h[RiskScore] != ""
    ensures PlainSurface(s) <==> SurfaceIn(h) == Some(ValuesOf(s.(killChain := None, auditDue := None), fields))
  {
    hide SurfaceIn, PlainSurface, Survives, Serialize, ValueOf, SurfaceField;
    PayloadReads(s, h);
    AllSurvive(s);
    var r, all := SurfaceIn(h).value, ValuesOf(s.(killChain := None, auditDue := None), fields);
    if forall f :: SurfaceField(f) ==> Survives(s, f) {
      forall f | f in r ensures r[f] == all[f] { }
      assert r.Keys == all.Keys;
    }
    if r == all {
      forall f | SurfaceField(f) ensures Survives(s, f) { assert r[f] == all[f]; }
    }
  }

  function WrittenAll(h: Hash, writes: seq<map<Field, Value>>): Hash {
    if writes == [] then h else Written(WrittenAll(h, writes[..|writes| - 1]), writes[|writes| - 1])
  }

  function LastWritten(writes: seq<map<Field, Value>>, f: Field): Option<Value> {
    if writes == [] then None
    else if f in writes[|writes| - 1] then Some(writes[|writes| - 1][f])
    else LastWritten(writes[..|writes| - 1], f)
  }

  /** After any sequence of writes every field holds the value written last, or what was there before. */
  lemma {:induction false} LastWriteWins(h: Hash, writes: seq<map<Field, Value>>, f: Field)
    ensures var last, w := LastWritten(writes, f), WrittenAll(h, writes);
      && (last.Some? ==> f in w && w[f] == Serialize(last.value))
      && (last.None? ==> (f in w <==> f in h) && (f in h ==> w[f] == h[f]))
  {
    if writes != [] { LastWriteWins(h, writes[..|writes| - 1], f); }
  }

  /**
   * So after any sequence of writes a field that was written reads as its last written value if and only
   * if that value fits the field; no other write has any part in it.
   */
  lemma {:induction false} LastWriteReads(h: Hash, writes: seq<map<Field, Value>>, f: Field)
    requires LastWritten(writes, f).Some? && Modelled(f, LastWritten(writes, f).value)
    ensures var last, w := LastWritten(writes, f).value, WrittenAll(h, writes);
      f in w && (Deserialize(f, w[f]) == last <==> Fits(f, last))
  {
    LastWriteWins(h, writes, f);
    ReadsBack(f, LastWritten(writes, f).value);
  }
}
