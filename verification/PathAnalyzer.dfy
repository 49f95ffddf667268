/** Attack paths, their scores and their chokepoints (backend/attack_path/path_analyzer.py). */
module PathAnalyzer {
  import opened Sequences
  import opened Sorting
  import opened PathSearch
  import opened AttackGraph

  /** jewel is the name of the first crown-jewel node, empty when there is none. */
  datatype AttackPath = AttackPath(
    nodes: seq<Node>, length: int, sanitized: bool, crownJewel: bool, jewel: string, score: real)

  // ---------------------------------------------------------------- scores

  function SinkSeverity(sink: SinkClass): real {
    match sink
    case Injection => 1.0
    case CommandInjection => 1.0
    case SqlInjection => 1.0
    case CodeExecution => 1.0
    case Deserialization => 0.9
    case PathTraversal => 0.7
    case Ssrf => 0.6
    case Unrated => 0.5
  }

  function ScorePath(crownJewel: bool, sanitized: bool, length: int, sink: SinkClass): real {
    var short := 1.0 - length as real / 15.0;
    (if crownJewel then 40.0 else 0.0) + (if sanitized then 0.0 else 30.0)
      + (if short > 0.0 then short else 0.0) * 20.0 + SinkSeverity(sink) * 10.0
  }

  function FirstJewel(nodes: seq<Node>): string {
    if nodes == [] then "" else if nodes[0].crownJewel then nodes[0].name else FirstJewel(nodes[1..])
  }

  /** Every node lookup of _build_path succeeds. */
  predicate Resolves(g: Graph, ids: seq<NodeId>) { ids != [] && forall i :: 0 <= i < |ids| ==> ids[i] in g.data }

  /** _build_path followed by _score_path. */
  function BuildPath(g: Graph, ids: seq<NodeId>): AttackPath
    requires Resolves(g, ids)
  {
    var nodes := seq(|ids|, i requires 0 <= i < |ids| => g.data[ids[i]]);
    var sanitized := exists i :: 0 <= i < |nodes| && nodes[i].sanitizer;
    var crown := exists i :: 0 <= i < |nodes| && nodes[i].crownJewel;
    AttackPath(nodes, |nodes| - 1, sanitized, crown, FirstJewel(nodes),
               ScorePath(crown, sanitized, |nodes| - 1, nodes[|nodes| - 1].sink))
  }

  function Ids(p: AttackPath): seq<NodeId> {
    seq(|p.nodes|, i requires 0 <= i < |p.nodes| => p.nodes[i].id)
  }

  predicate ByScore(p: AttackPath, q: AttackPath) { p.score >= q.score }

  /**
   * Scores of real paths lie in [0, 100]; crown jewels without a sanitizer score 75 or more, paths to none
   * below 60.
   */
  lemma ScoreBounds(crownJewel: bool, sanitized: bool, length: int, sink: SinkClass)
    requires length >= 1
    ensures var s := ScorePath(crownJewel, sanitized, length, sink);
      && 0.0 <= s <= 100.0
      && (crownJewel && !sanitized ==> s >= 75.0)
      && (!crownJewel ==> s < 60.0)
  {
    var x := length as real;
    assert x >= 1.0;
    assert x / 15.0 >= 1.0 / 15.0;
  }

  // ---------------------------------------------------------------- enumeration

  function OfKind(g: Graph, order: seq<NodeId>, kind: Kind): seq<NodeId> {
    if order == [] then []
    else
      var v := order[|order| - 1];
      OfKind(g, order[..|order| - 1], kind) + if v in g.data && g.data[v].kind == kind then [v] else []
  }

  /** The paths of one entry to each sink, in the order of the source's loops. */
  function FromEntry(g: Graph, entry: NodeId, sinks: seq<NodeId>, depth: int): seq<seq<NodeId>> {
    if sinks == [] then []
    else FromEntry(g, entry, sinks[..|sinks| - 1], depth) + AllSimplePaths(g.succ, entry, sinks[|sinks| - 1], depth)
  }

  function FromEntries(g: Graph, entries: seq<NodeId>, sinks: seq<NodeId>, depth: int): seq<seq<NodeId>> {
    if entries == [] then []
    else FromEntries(g, entries[..|entries| - 1], sinks, depth) + FromEntry(g, entries[|entries| - 1], sinks, depth)
  }

  function Candidates(g: Graph, depth: int): seq<seq<NodeId>> {
    FromEntries(g, OfKind(g, g.order, EntryPoint), OfKind(g, g.order, Sink), depth)
  }

  function Capped<T>(s: seq<T>, limit: int): seq<T> {
    if limit <= 0 then [] else if |s| <= limit then s else s[..limit]
  }

  /** A path find_all_paths is to report: simple, short enough, from an entry point to a sink. */
  ghost predicate AttackRoute(g: Graph, ids: seq<NodeId>, depth: int) {
    && ids != [] && SimplePath(g.succ, ids, ids[0], ids[|ids| - 1], depth)
    && ids[0] in g.data && g.data[ids[0]].kind == EntryPoint
    && ids[|ids| - 1] in g.data && g.data[ids[|ids| - 1]].kind == Sink
  }

  lemma {:induction false} OfKindExact(g: Graph, order: seq<NodeId>, kind: Kind)
    requires Distinct(order)
    ensures Distinct(OfKind(g, order, kind))
    ensures forall v :: v in OfKind(g, order, kind) <==> v in order && v in g.data && g.data[v].kind == kind
  {
    if order != [] {
      OfKindExact(g, order[..|order| - 1], kind);
      assert order == order[..|order| - 1] + [order[|order| - 1]];
    }
  }

  lemma {:induction false} FromEntryExact(g: Graph, entry: NodeId, sinks: seq<NodeId>, depth: int)
    requires SimpleLists(g.succ) && Distinct(sinks) && entry !in sinks
    ensures Distinct(FromEntry(g, entry, sinks, depth))
    ensures forall p :: p in FromEntry(g, entry, sinks, depth) <==>
      p != [] && p[|p| - 1] in sinks && SimplePath(g.succ, p, entry, p[|p| - 1], depth)
  {
    if sinks != [] {
      var before, t := sinks[..|sinks| - 1], sinks[|sinks| - 1];
      assert sinks == before + [t];
      FromEntryExact(g, entry, before, depth);
      SearchExact(g.succ, entry, t, depth);
      var ps, qs := FromEntry(g, entry, before, depth), AllSimplePaths(g.succ, entry, t, depth);
      forall i, j | 0 <= i < |ps| && 0 <= j < |qs| ensures ps[i] != qs[j] {
        assert ps[i] in ps && qs[j] in qs;
        assert SimplePath(g.succ, qs[j], entry, t, depth);
      }
      DistinctAppend(ps, qs);
    }
  }

  lemma {:induction false} FromEntriesExact(g: Graph, entries: seq<NodeId>, sinks: seq<NodeId>, depth: int)
    requires SimpleLists(g.succ) && Distinct(sinks) && Distinct(entries) && forall e :: e in entries ==> e !in sinks
    ensures Distinct(FromEntries(g, entries, sinks, depth))
    ensures forall p :: p in FromEntries(g, entries, sinks, depth) <==>
      p != [] && p[0] in entries && p[|p| - 1] in sinks && SimplePath(g.succ, p, p[0], p[|p| - 1], depth)
  {
    if entries != [] {
      var before, e := entries[..|entries| - 1], entries[|entries| - 1];
      assert entries == before + [e];
      FromEntriesExact(g, before, sinks, depth);
      FromEntryExact(g, e, sinks, depth);
      var ps, qs := FromEntries(g, before, sinks, depth), FromEntry(g, e, sinks, depth);
      forall i, j | 0 <= i < |ps| && 0 <= j < |qs| ensures ps[i] != qs[j] {
        assert ps[i] in ps && qs[j] in qs;
      }
      DistinctAppend(ps, qs);
    }
  }

  /** The enumeration is exactly the attack routes, each once. */
  lemma CandidatesExact(g: Graph, depth: int)
    requires WellFormed(g)
    ensures Distinct(Candidates(g, depth))
    ensures forall p :: p in Candidates(g, depth) <==> AttackRoute(g, p, depth)
  {
    OfKindExact(g, g.order, EntryPoint);
    OfKindExact(g, g.order, Sink);
    FromEntriesExact(g, OfKind(g, g.order, EntryPoint), OfKind(g, g.order, Sink), depth);
  }

  lemma {:induction false} FromEntryResolves(g: Graph, entry: NodeId, sinks: seq<NodeId>, depth: int)
    requires WellFormed(g) && entry in g.data
    ensures forall p :: p in FromEntry(g, entry, sinks, depth) ==> Resolves(g, p)
  {
    if sinks != [] {
      var t := sinks[|sinks| - 1];
      FromEntryResolves(g, entry, sinks[..|sinks| - 1], depth);
      forall p | p in AllSimplePaths(g.succ, entry, t, depth) ensures Resolves(g, p) {
        SearchSound(g.succ, entry, t, {entry}, depth, p);
        forall i | 0 <= i < |p| ensures p[i] in g.data {
          if i > 0 { assert Edge(g.succ, p[i - 1], p[i]); }
        }
      }
    }
  }

  lemma {:induction false} FromEntriesResolve(g: Graph, entries: seq<NodeId>, sinks: seq<NodeId>, depth: int)
    requires WellFormed(g) && forall i :: 0 <= i < |entries| ==> entries[i] in g.data
    ensures forall p :: p in FromEntries(g, entries, sinks, depth) ==> Resolves(g, p)
  {
    if entries != [] {
      FromEntriesResolve(g, entries[..|entries| - 1], sinks, depth);
      FromEntryResolves(g, entries[|entries| - 1], sinks, depth);
    }
  }

  lemma CandidatesResolve(g: Graph, depth: int)
    requires WellFormed(g)
    ensures forall p :: p in Candidates(g, depth) ==> Resolves(g, p)
  {
    OfKindExact(g, g.order, EntryPoint);
    FromEntriesResolve(g, OfKind(g, g.order, EntryPoint), OfKind(g, g.order, Sink), depth);
  }

  ghost predicate AllResolve(g: Graph, routes: seq<seq<NodeId>>) {
    forall i :: 0 <= i < |routes| ==> Resolves(g, routes[i])
  }

  function BuildAll(g: Graph, routes: seq<seq<NodeId>>): (paths: seq<AttackPath>)
    requires AllResolve(g, routes)
    ensures |paths| == |routes|
  {
    if routes == [] then [] else BuildAll(g, routes[..|routes| - 1]) + [BuildPath(g, routes[|routes| - 1])]
  }

  /** What find_all_paths returns. */
  function RankedPaths(g: Graph, depth: int, limit: int): seq<AttackPath>
    requires WellFormed(g)
  {
    CandidatesResolve(g, depth);
    StableSort(BuildAll(g, Capped(Candidates(g, depth), limit)), ByScore)
  }

  /** Capping after each batch is capping once at the end. */
  lemma CappedStep<T>(before: seq<T>, more: seq<T>, room: int)
    ensures Capped(before + more, room) == Capped(before, room) + Capped(more, room - |Capped(before, room)|)
  {
  }

  lemma NextSink(g: Graph, entry: NodeId, sinks: seq<NodeId>, depth: int, j: nat)
    requires WellFormed(g) && entry in g.data && j < |sinks|
    ensures var found := AllSimplePaths(g.succ, entry, sinks[j], depth);
      && AllResolve(g, found)
      && FromEntry(g, entry, sinks[..j + 1], depth) == FromEntry(g, entry, sinks[..j], depth) + found
  {
    assert sinks[..j + 1][..j] == sinks[..j];
    FromEntryResolves(g, entry, sinks[..j + 1], depth);
    var found := AllSimplePaths(g.succ, entry, sinks[j], depth);
    forall i | 0 <= i < |found| ensures Resolves(g, found[i]) {
      assert found[i] in FromEntry(g, entry, sinks[..j + 1], depth);
    }
  }

  lemma BuildNext(g: Graph, found: seq<seq<NodeId>>, k: nat)
    requires AllResolve(g, found) && k < |found|
    ensures AllResolve(g, found[..k]) && AllResolve(g, found[..k + 1])
    ensures BuildAll(g, found[..k + 1]) == BuildAll(g, found[..k]) + [BuildPath(g, found[k])]
  {
    assert found[..k + 1][..k] == found[..k];
  }

  lemma {:induction false} BuildAllAppend(g: Graph, a: seq<seq<NodeId>>, b: seq<seq<NodeId>>)
    requires AllResolve(g, a) && AllResolve(g, b)
    ensures AllResolve(g, a + b) && BuildAll(g, a + b) == BuildAll(g, a) + BuildAll(g, b)
  {
    hide Resolves, BuildPath;
    if b == [] {
      assert a + b == a;
    } else {
      assert (a + b)[..|a + b| - 1] == a + b[..|b| - 1];
      BuildAllAppend(g, a, b[..|b| - 1]);
    }
  }

  /** The innermost loop: build the paths a generator yields until the limit is reached. */
  method TakePaths(g: Graph, sofar: seq<AttackPath>, found: seq<seq<NodeId>>, limit: int)
    returns (paths: seq<AttackPath>)
    requires AllResolve(g, found)
    ensures Extended(g, sofar, found, limit, paths)
  {
    paths := sofar;
    var k := 0;
    while k < |found| && |paths| < limit
      invariant 0 <= k <= |found| && (k == 0 || |sofar| + k <= limit)
      invariant AllResolve(g, found[..k]) && paths == sofar + BuildAll(g, found[..k])
    {
      BuildNext(g, found, k);
      paths := paths + [BuildPath(g, found[k])];
      k := k + 1;
    }
    CappedAt(found, k, limit - |sofar|);
  }

  lemma CappedAt<T>(found: seq<T>, k: nat, room: int)
    requires k <= |found| && (k == 0 || k <= room) && (k == |found| || k >= room)
    ensures Capped(found, room) == found[..k]
  {
  }

  /** paths are those built before and, as far as there is room, the first routes of found. */
  ghost predicate Extended(
    g: Graph, sofar: seq<AttackPath>, found: seq<seq<NodeId>>, limit: int, paths: seq<AttackPath>)
  {
    AllResolve(g, Capped(found, limit - |sofar|)) && paths == sofar + BuildAll(g, Capped(found, limit - |sofar|))
  }

  lemma ExtendedTwice(
    g: Graph, sofar: seq<AttackPath>, before: seq<seq<NodeId>>, more: seq<seq<NodeId>>, limit: int,
    mid: seq<AttackPath>, paths: seq<AttackPath>)
    requires Extended(g, sofar, before, limit, mid) && Extended(g, mid, more, limit, paths)
    ensures Extended(g, sofar, before + more, limit, paths)
  {
    hide BuildAll, Resolves, AllResolve;
    var a, b := Capped(before, limit - |sofar|), Capped(more, limit - |mid|);
    assert |mid| == |sofar| + |a|;
    CappedStep(before, more, limit - |sofar|);
    BuildAllAppend(g, a, b);
    assert sofar + BuildAll(g, a) + BuildAll(g, b) == sofar + (BuildAll(g, a) + BuildAll(g, b));
  }

  /** The loop over the sinks of one entry; it goes on after the limit, but adds nothing. */
  method SearchFrom(g: Graph, entry: NodeId, sinks: seq<NodeId>, depth: int, limit: int, sofar: seq<AttackPath>)
    returns (paths: seq<AttackPath>)
    requires WellFormed(g) && entry in g.data
    ensures Extended(g, sofar, FromEntry(g, entry, sinks, depth), limit, paths)
  {
    paths := sofar;
    var j := 0;
    while j < |sinks|
      invariant 0 <= j <= |sinks|
      invariant Extended(g, sofar, FromEntry(g, entry, sinks[..j], depth), limit, paths)
    {
      NextSink(g, entry, sinks, depth, j);
      var found := AllSimplePaths(g.succ, entry, sinks[j], depth);
      ghost var mid := paths;
      paths := TakePaths(g, paths, found, limit);
      ExtendedTwice(g, sofar, FromEntry(g, entry, sinks[..j], depth), found, limit, mid, paths);
      j := j + 1;
    }
    assert sinks[..|sinks|] == sinks;
  }

  /** The loop over the entries, which is left as soon as the limit is reached. */
  method CollectPaths(g: Graph, entries: seq<NodeId>, sinks: seq<NodeId>, depth: int, limit: int)
    returns (paths: seq<AttackPath>)
    requires WellFormed(g) && forall i :: 0 <= i < |entries| ==> entries[i] in g.data
    ensures Extended(g, [], FromEntries(g, entries, sinks, depth), limit, paths)
  {
    paths := [];
    var i := 0;
    while i < |entries|
      invariant 0 <= i <= |entries|
      invariant Extended(g, [], FromEntries(g, entries[..i], sinks, depth), limit, paths)
    {
      NextEntry(g, entries, sinks, depth, i);
      ghost var mid := paths;
      paths := SearchFrom(g, entries[i], sinks, depth, limit, paths);
      ExtendedTwice(
        g, [], FromEntries(g, entries[..i], sinks, depth), FromEntry(g, entries[i], sinks, depth), limit, mid, paths);
      i := i + 1;
      if |paths| >= limit {
        FromEntriesPrefix(g, entries, sinks, depth, i);
        LimitReached(
          g, FromEntries(g, entries[..i], sinks, depth), FromEntries(g, entries, sinks, depth), limit, paths);
        return;
      }
    }
    assert entries[..|entries|] == entries;
  }

  lemma CappedPrefix<T>(some: seq<T>, all: seq<T>, limit: int)
    requires some <= all && |Capped(some, limit)| >= limit
    ensures Capped(some, limit) == Capped(all, limit)
  {
  }

  lemma LimitReached(g: Graph, some: seq<seq<NodeId>>, all: seq<seq<NodeId>>, limit: int, paths: seq<AttackPath>)
    requires Extended(g, [], some, limit, paths) && some <= all && |paths| >= limit
    ensures Extended(g, [], all, limit, paths)
  {
    assert |[] + BuildAll(g, Capped(some, limit))| == |Capped(some, limit)|;
    CappedPrefix(some, all, limit);
  }

  lemma {:induction false} CollectedAreRanked(g: Graph, depth: int, limit: int, collected: seq<AttackPath>)
    requires WellFormed(g) && Extended(g, [], Candidates(g, depth), limit, collected)
    ensures Capped(StableSort(collected, ByScore), limit) == RankedPaths(g, depth, limit)
  {
    var routes := Capped(Candidates(g, depth), limit);
    assert [] + BuildAll(g, routes) == BuildAll(g, routes);
    SortedStaysCapped(collected, limit);
  }

  /** find_all_paths; node lookup never fails. */
  method FindAllPaths(g: Graph, maxDepth: int, limit: int) returns (paths: seq<AttackPath>)
    requires WellFormed(g)
    ensures paths == RankedPaths(g, maxDepth, limit)
  {
    OfKindExact(g, g.order, EntryPoint);
    var collected := CollectPaths(g, OfKind(g, g.order, EntryPoint), OfKind(g, g.order, Sink), maxDepth, limit);
    CollectedAreRanked(g, maxDepth, limit, collected);
    return Capped(StableSort(collected, ByScore), limit);
  }

  lemma {:induction false} SortedStaysCapped(collected: seq<AttackPath>, limit: int)
    requires |collected| == 0 || |collected| <= limit
    ensures Capped(StableSort(collected, ByScore), limit) == StableSort(collected, ByScore)
  {
    SortKeeps(collected, ByScore);
  }

  lemma NextEntry(g: Graph, entries: seq<NodeId>, sinks: seq<NodeId>, depth: int, i: nat)
    requires i < |entries|
    ensures FromEntries(g, entries[..i + 1], sinks, depth)
      == FromEntries(g, entries[..i], sinks, depth) + FromEntry(g, entries[i], sinks, depth)
  {
    assert entries[..i + 1][..i] == entries[..i];
  }

  lemma {:induction false} FromEntriesPrefix(g: Graph, entries: seq<NodeId>, sinks: seq<NodeId>, depth: int, i: nat)
    requires i <= |entries|
    ensures FromEntries(g, entries[..i], sinks, depth) <= FromEntries(g, entries, sinks, depth)
    decreases |entries| - i
  {
    if i < |entries| {
      FromEntriesPrefix(g, entries, sinks, depth, i + 1);
      assert entries[..i + 1][..i] == entries[..i];
    } else {
      assert entries[..i] == entries;
    }
  }
}
