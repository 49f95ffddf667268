/** Deduplication and ranking of findings (backend/scr/stages/stage9_ranking.py). */
module Ranking {
  import opened Sequences
  import opened Sorting

  datatype Severity = Critical | High | Medium | Low | Info | Unlisted

  /** stored is the fingerprint field, empty when missing; derived the one computed from the record. */
  datatype Finding = Finding(
    stored: string, derived: string, suppressed: bool, severity: Severity, category: string,
    cvss: real, reachable: bool, crownJewel: bool, exploited: bool, riskBoost: int, falsePositive: real)

  function Fingerprint(f: Finding): string { if f.stored != "" then f.stored else f.derived }

  function SeverityRank(s: Severity): nat {
    match s case Critical => 0 case High => 1 case Medium => 2 case Low => 3 case Info => 4 case Unlisted => 5
  }

  function Cvss(f: Finding): real {
    if f.cvss != 0.0 then f.cvss
    else match f.severity
      case Critical => 9.5
      case High => 8.0
      case Medium => 5.5
      case Low => 3.0
      case Info => 4.0
      case Unlisted => 4.0
  }

  function Weighted(f: Finding): real {
    var boost := (if f.riskBoost < 25 then f.riskBoost else 25) as real / 25.0;
    Cvss(f) * 0.3 + (if f.reachable then 1.0 else 0.3) * 0.2 + (if f.crownJewel then 1.0 else 0.0) * 0.2
      + (if f.exploited then 1.0 else 0.2) * 0.15 + boost * 0.15
  }

  function Score(f: Finding): real { Weighted(f) * (1.0 - f.falsePositive * 0.5) }

  /** The sort key: severity rank, then descending score. */
  predicate RanksBefore(f: Finding, g: Finding) {
    SeverityRank(f.severity) < SeverityRank(g.severity)
    || (SeverityRank(f.severity) == SeverityRank(g.severity) && Score(f) >= Score(g))
  }

  /** Two findings count as one when their stored fingerprints agree; one without counts by what it derives. */
  lemma SameFingerprint(f: Finding, g: Finding)
    ensures f.stored != "" && g.stored != "" ==> (Fingerprint(f) == Fingerprint(g) <==> f.stored == g.stored)
    ensures f.stored != "" && g.stored == "" ==> (Fingerprint(f) == Fingerprint(g) <==> f.stored == g.derived)
    ensures f.stored == "" && g.stored == "" ==> (Fingerprint(f) == Fingerprint(g) <==> f.derived == g.derived)
  {
  }

  /** The positions the dedup loop keeps. */
  function FirstPositions(log: seq<Finding>): seq<nat> {
    if log == [] then []
    else
      var n := |log| - 1;
      FirstPositions(log[..n])
        + if log[n].suppressed || Fingerprint(log[n]) in Seen(log[..n]) then [] else [n]
  }

  function Seen(log: seq<Finding>): set<string> {
    if log == [] then {}
    else Seen(log[..|log| - 1]) + if log[|log| - 1].suppressed then {} else {Fingerprint(log[|log| - 1])}
  }

  function Pick(log: seq<Finding>, at: seq<nat>): seq<Finding>
    requires forall i :: 0 <= i < |at| ==> at[i] < |log|
  {
    seq(|at|, i requires 0 <= i < |at| => log[at[i]])
  }

  lemma {:induction false} PositionsInRange(log: seq<Finding>)
    ensures forall i :: 0 <= i < |FirstPositions(log)| ==> FirstPositions(log)[i] < |log|
  {
    if log != [] { PositionsInRange(log[..|log| - 1]); }
  }

  lemma {:induction false} SeenExact(log: seq<Finding>, fp: string)
    ensures fp in Seen(log) <==> exists j :: 0 <= j < |log| && !log[j].suppressed && Fingerprint(log[j]) == fp
  {
    if log != [] {
      var before := log[..|log| - 1];
      SeenExact(before, fp);
      assert forall j :: 0 <= j < |before| ==> before[j] == log[j];
    }
  }

  ghost predicate Increasing(at: seq<nat>) { forall i, j :: 0 <= i < j < |at| ==> at[i] < at[j] }

  lemma {:induction false} PositionsIncrease(log: seq<Finding>)
    ensures Increasing(FirstPositions(log))
  {
    hide Seen, Fingerprint;
    if log != [] {
      var before, at := FirstPositions(log[..|log| - 1]), FirstPositions(log);
      PositionsIncrease(log[..|log| - 1]);
      PositionsInRange(log[..|log| - 1]);
      forall i, j | 0 <= i < j < |at| ensures at[i] < at[j] {
        assert at[i] == before[i] && before[i] < |log| - 1;
      }
    }
  }

  /** Whether a position is a first one does not depend on what comes after it. */
  lemma FirstInPrefix(log: seq<Finding>, m: nat, n: nat)
    requires n < m <= |log|
    ensures IsFirst(log[..m], n) <==> IsFirst(log, n)
  {
    assert forall j :: 0 <= j < m ==> log[..m][j] == log[j];
  }

  lemma LastIsFirst(log: seq<Finding>)
    requires log != []
    ensures var m := |log| - 1;
      IsFirst(log, m) <==> !log[m].suppressed && Fingerprint(log[m]) !in Seen(log[..m])
  {
    var m := |log| - 1;
    SeenExact(log[..m], Fingerprint(log[m]));
    assert forall j :: 0 <= j < m ==> log[..m][j] == log[j];
  }

  /**
   * The kept positions, in increasing order, are exactly those of findings that are not suppressed
   * and whose fingerprint no earlier unsuppressed finding has.
   */
  lemma {:induction false} FirstPositionsExact(log: seq<Finding>)
    ensures Increasing(FirstPositions(log))
    ensures forall n :: n in FirstPositions(log) <==> 0 <= n < |log| && IsFirst(log, n)
  {
    hide IsFirst, Fingerprint, Seen;
    PositionsIncrease(log);
    if log != [] {
      var m := |log| - 1;
      FirstPositionsExact(log[..m]);
      LastIsFirst(log);
      forall n | 0 <= n < m ensures IsFirst(log[..m], n) <==> IsFirst(log, n) { FirstInPrefix(log, m, n); }
    }
  }

  ghost predicate IsFirst(log: seq<Finding>, n: nat)
    requires n < |log|
  {
    !log[n].suppressed && forall j :: 0 <= j < n && !log[j].suppressed ==> Fingerprint(log[j]) != Fingerprint(log[n])
  }

  function Unique(log: seq<Finding>): seq<Finding> {
    PositionsInRange(log);
    Pick(log, FirstPositions(log))
  }

  function CategoryOf(f: Finding): string { if f.category == "" then "unknown" else f.category }

  function Categories(fs: seq<Finding>): seq<string> {
    seq(|fs|, i requires 0 <= i < |fs| => CategoryOf(fs[i]))
  }

  function CountOf(counts: map<string, nat>, c: string): nat { if c in counts then counts[c] else 0 }

  function Lookup<T>(m: map<string, seq<T>>, key: string): seq<T> { if key in m then m[key] else [] }

  /** The dedup loop of RankingStage.run. */
  method Deduplicate(log: seq<Finding>) returns (unique: seq<Finding>, seen: set<string>)
    ensures unique == Unique(log) && seen == Seen(log)
  {
    seen, unique := {}, [];
    for i := 0 to |log|
      invariant seen == Seen(log[..i]) && unique == Unique(log[..i])
    {
      UniqueSnoc(log[..i], log[i]);
      assert log[..i + 1] == log[..i] + [log[i]];
      var finding := log[i];
      if !finding.suppressed && Fingerprint(finding) !in seen {
        seen := seen + {Fingerprint(finding)};
        unique := unique + [finding];
      }
    }
    assert log[..|log|] == log;
  }

  lemma UniqueSnoc(log: seq<Finding>, f: Finding)
    ensures Unique(log + [f]) == Unique(log) + if f.suppressed || Fingerprint(f) in Seen(log) then [] else [f]
    ensures Seen(log + [f]) == Seen(log) + if f.suppressed then {} else {Fingerprint(f)}
  {
    assert (log + [f])[..|log|] == log;
    PositionsInRange(log);
    PositionsInRange(log + [f]);
  }

  predicate ListedUnder(f: Finding, c: string) { (f.category == c && c != "") || (f.category == "" && c == "unknown") }

  lemma MemberCategory(f: Finding, c: string)
    ensures CategoryOf(f) == c <==> ListedUnder(f, c)
  {
  }

  /** The findings listed under a category; those without one are listed as unknown. */
  lemma {:induction false} CategoryMembers(code: seq<Finding>, c: string)
    ensures multiset(Categories(code))[c] == |Where(code, (f: Finding) => ListedUnder(f, c))|
  {
    hide ListedUnder, Where;
    var p := (f: Finding) => ListedUnder(f, c);
    if code == [] {
      assert Categories(code) == [];
      NoneWhere(code, p);
    } else {
      var before, f := code[..|code| - 1], code[|code| - 1];
      assert code == before + [f] && Categories(code) == Categories(before) + [CategoryOf(f)];
      CategoryMembers(before, c);
      MemberCategory(f, c);
      WhereSnoc(before, f, p);
    }
  }

  /** The category loop of RankingStage.run. */
  method CountCategories(code: seq<Finding>) returns (counts: map<string, nat>)
    ensures forall c :: CountOf(counts, c) == multiset(Categories(code))[c]
  {
    counts := map[];
    for i := 0 to |code|
      invariant forall c :: CountOf(counts, c) == multiset(Categories(code[..i]))[c]
    {
      var cat := CategoryOf(code[i]);
      assert Categories(code[..i + 1]) == Categories(code[..i]) + [cat];
      counts := counts[cat := CountOf(counts, cat) + 1];
    }
    assert code[..|code|] == code;
  }

  /**
   * RankingStage.run over load_all_findings, which fills the keys code, secrets and deps; the stage
   * asks for dependencies, so it never returns one.
   */
  method Rank(data: map<string, seq<Finding>>)
    returns (
      code: seq<Finding>, secrets: seq<Finding>, deps: seq<Finding>,
      counts: map<string, nat>, fingerprints: set<string>)
    requires data.Keys == {"code", "secrets", "deps"}
    ensures code == StableSort(Unique(data["code"]), RanksBefore) && secrets == data["secrets"] && deps == []
    ensures multiset(code) == multiset(Unique(data["code"]))
    ensures forall i, j :: 0 <= i < j < |code| ==> NoLessSevere(code[i].severity, code[j].severity)
    ensures forall i, j :: 0 <= i < j < |code| && code[i].severity == code[j].severity ==>
      Score(code[i]) >= Score(code[j])
    ensures forall c :: CountOf(counts, c) == multiset(Categories(code))[c]
    ensures fingerprints == Seen(data["code"])
  {
    var unique;
    unique, fingerprints := Deduplicate(data["code"]);
    code := StableSort(unique, RanksBefore);
    SeveritiesDescend(data["code"]);
    secrets := data["secrets"];
    assert "dependencies" != "code" && "dependencies" != "secrets" && "dependencies" != "deps";
    deps := Lookup(data, "dependencies");
    counts := CountCategories(code);
  }

  /** One entry per distinct fingerprint of the unsuppressed log: its first occurrence, and no other. */
  lemma UniqueExact(log: seq<Finding>)
    ensures forall i, j :: 0 <= i < j < |Unique(log)| ==> Fingerprint(Unique(log)[i]) != Fingerprint(Unique(log)[j])
    ensures forall n :: 0 <= n < |log| && !log[n].suppressed ==>
      exists i :: 0 <= i < |Unique(log)| && Fingerprint(Unique(log)[i]) == Fingerprint(log[n])
    ensures forall i :: 0 <= i < |Unique(log)| ==> !Unique(log)[i].suppressed
  {
    hide FirstPositions, Seen, Fingerprint;
    var at := FirstPositions(log);
    FirstPositionsExact(log);
    PositionsInRange(log);
    forall i | 0 <= i < |at| ensures IsFirst(log, at[i]) { assert at[i] in at; }
    forall n | 0 <= n < |log| && !log[n].suppressed
      ensures exists i :: 0 <= i < |at| && Fingerprint(log[at[i]]) == Fingerprint(log[n])
    {
      var first := FirstWith(log, n);
      assert first in at;
      var i :| 0 <= i < |at| && at[i] == first;
    }
    forall i | 0 <= i < |at| ensures Unique(log)[i] == log[at[i]] { }
    forall i, j | 0 <= i < j < |at| ensures Fingerprint(log[at[i]]) != Fingerprint(log[at[j]]) {
      assert at[i] < at[j] && IsFirst(log, at[i]) && IsFirst(log, at[j]);
    }
  }

  lemma FirstWith(log: seq<Finding>, n: nat) returns (first: nat)
    requires n < |log| && !log[n].suppressed
    ensures first <= n && IsFirst(log, first) && Fingerprint(log[first]) == Fingerprint(log[n])
  {
    first := 0;
    while log[first].suppressed || Fingerprint(log[first]) != Fingerprint(log[n])
      invariant first <= n
      invariant forall j :: 0 <= j < first ==> log[j].suppressed || Fingerprint(log[j]) != Fingerprint(log[n])
      decreases n - first
    {
      first := first + 1;
    }
  }

  /** The findings of one severity and score, in their order. */
  function AlikeIn(fs: seq<Finding>, c: Finding): seq<Finding> {
    Filter(fs, (f: Finding) => f.severity == c.severity && Score(f) == Score(c))
  }

  /** The ranked list reorders the deduplicated log, and leaves findings of equal severity and score in log order. */
  lemma {:induction false} RankedIsStable(log: seq<Finding>, c: Finding)
    ensures var ranked := StableSort(Unique(log), RanksBefore);
      multiset(ranked) == multiset(Unique(log)) && AlikeIn(ranked, c) == AlikeIn(Unique(log), c)
  {
    hide Unique, Score;
    SortKeeps(Unique(log), RanksBefore);
    SortStable(Unique(log), c, RanksBefore);
    TiesAreAlike(StableSort(Unique(log), RanksBefore), c);
    TiesAreAlike(Unique(log), c);
  }

  lemma {:induction false} TiesAreAlike(fs: seq<Finding>, c: Finding)
    ensures Ties(fs, c, RanksBefore) == AlikeIn(fs, c)
  {
    hide Score;
    if fs != [] {
      var f := fs[0];
      TiesAreAlike(fs[1..], c);
      assert RanksBefore(c, f) && RanksBefore(f, c) <==> f.severity == c.severity && Score(f) == Score(c);
      assert Ties(fs, c, RanksBefore)
          == (if RanksBefore(c, f) && RanksBefore(f, c) then [f] else []) + Ties(fs[1..], c, RanksBefore);
    }
  }

  /** s comes no later than t in CRITICAL, HIGH, MEDIUM, LOW, INFO, any other. */
  predicate NoLessSevere(s: Severity, t: Severity) {
    && (t.Critical? ==> s.Critical?)
    && (t.High? ==> s in {Critical, High})
    && (t.Medium? ==> s in {Critical, High, Medium})
    && (t.Low? ==> s in {Critical, High, Medium, Low})
    && (t.Info? ==> !s.Unlisted?)
  }

  /** The ranked list keeps the deduplicated findings, by severity and then by descending score. */
  lemma {:induction false} SeveritiesDescend(log: seq<Finding>)
    ensures var ranked := StableSort(Unique(log), RanksBefore);
      && multiset(ranked) == multiset(Unique(log))
      && (forall i, j :: 0 <= i < j < |ranked| ==> NoLessSevere(ranked[i].severity, ranked[j].severity))
      && (forall i, j :: 0 <= i < j < |ranked| && ranked[i].severity == ranked[j].severity ==>
            Score(ranked[i]) >= Score(ranked[j]))
  {
    hide Unique, Score;
    SortOrdered(Unique(log), RanksBefore);
    SortKeeps(Unique(log), RanksBefore);
    var ranked := StableSort(Unique(log), RanksBefore);
    forall i, j | 0 <= i < j < |ranked|
      ensures NoLessSevere(ranked[i].severity, ranked[j].severity)
      ensures ranked[i].severity == ranked[j].severity ==> Score(ranked[i]) >= Score(ranked[j])
    {
      assert RanksBefore(ranked[i], ranked[j]);
    }
  }

  /** A finding without a CVSS score counts as one of its severity's usual score. */
  lemma UsualCvss(f: Finding)
    ensures Score(f.(cvss := 0.0)) == Score(f.(cvss :=
        match f.severity case Critical => 9.5 case High => 8.0 case Medium => 5.5 case Low => 3.0 case _ => 4.0))
  {
  }

  /**
   * What each factor adds: 0.3 per point of CVSS, 0.14 for being reachable, 0.2 for a crown jewel, 0.12 for a
   * known exploit, 0.006 per point of threat-intelligence boost up to 25, on 0.09 for none of these; and
   * half of the likelihood of being false is taken off.
   */
  lemma ScoreAddsUp(f: Finding)
    requires f.cvss != 0.0
    ensures Score(f) == (1.0 - f.falsePositive / 2.0) * (0.09 + 0.3 * f.cvss + Bonus(f.reachable, 0.14)
        + Bonus(f.crownJewel, 0.2) + Bonus(f.exploited, 0.12) + 0.006 * Boost(f.riskBoost) as real)
  {
    var x := f.falsePositive;
    assert 1.0 - x * 0.5 == 1.0 - x / 2.0;
    assert Weighted(f) == 0.09 + 0.3 * f.cvss + Bonus(f.reachable, 0.14) + Bonus(f.crownJewel, 0.2)
      + Bonus(f.exploited, 0.12) + 0.006 * Boost(f.riskBoost) as real;
  }

  function Bonus(holds: bool, points: real): real { if holds then points else 0.0 }

  function Boost(points: int): int { if points >= 25 then 25 else points }

  /** f is no better than g on any factor of the score. */
  predicate AtLeastAsBad(f: Finding, g: Finding) {
    && f.severity == g.severity && 0.0 <= Cvss(g) <= Cvss(f)
    && (g.reachable ==> f.reachable) && (g.crownJewel ==> f.crownJewel) && (g.exploited ==> f.exploited)
    && 0 <= g.riskBoost <= f.riskBoost && 0.0 <= f.falsePositive <= g.falsePositive <= 1.0
  }

  /** The factors that move a finding up; a risk boost counts up to 25 only. */
  predicate WorseSomewhere(f: Finding, g: Finding) {
    || Cvss(g) < Cvss(f) || (f.reachable && !g.reachable) || (f.crownJewel && !g.crownJewel)
    || (f.exploited && !g.exploited) || (g.riskBoost < f.riskBoost && g.riskBoost < 25)
  }

  lemma ProductGrows(a: real, b: real, x: real, y: real)
    requires 0.0 <= b <= a && 0.0 < y <= x
    ensures a * x >= b * y && (a > b ==> a * x > b * y)
  {
    assert a * x >= b * x && b * x >= b * y;
    if a > b { assert (a - b) * x > 0.0; }
  }

  lemma WeightedGrows(f: Finding, g: Finding)
    requires AtLeastAsBad(f, g)
    ensures 0.0 <= Weighted(g) <= Weighted(f) && (WorseSomewhere(f, g) ==> Weighted(g) < Weighted(f))
  {
    hide Cvss;
  }

  /**
   * Dominance: of two findings of one severity the one that is worse on a factor and better on none ranks
   * strictly first.
   */
  lemma WorseRanksFirst(f: Finding, g: Finding)
    requires AtLeastAsBad(f, g)
    ensures RanksBefore(f, g) && (WorseSomewhere(f, g) ==> !RanksBefore(g, f))
  {
    hide Weighted, Cvss, WorseSomewhere;
    WeightedGrows(f, g);
    ProductGrows(Weighted(f), Weighted(g), 1.0 - f.falsePositive * 0.5, 1.0 - g.falsePositive * 0.5);
  }

  /** Category counts add up to the number of ranked findings. */
  lemma CategoryCountsAddUp(code: seq<Finding>, names: seq<string>)
    requires Distinct(names) && forall c :: c in Categories(code) ==> c in names
    ensures SumOver(names, multiset(Categories(code))) == |code|
  {
    forall c | c in multiset(Categories(code)) ensures c in names { assert c in Categories(code); }
    SumIsSize(names, multiset(Categories(code)));
  }
}
