/** What the reported attack paths are, and that findings are not lost on the way to them. */
module PathResults {
  import opened Sequences
  import opened Sorting
  import opened PathSearch
  import opened AttackGraph
  import opened PathAnalyzer

  lemma {:induction false} BuildAllAt(g: Graph, routes: seq<seq<NodeId>>, i: nat)
    requires AllResolve(g, routes) && i < |routes|
    ensures BuildAll(g, routes)[i] == BuildPath(g, routes[i])
  {
    if i < |routes| - 1 { BuildAllAt(g, routes[..|routes| - 1], i); }
  }

  lemma BuiltIds(g: Graph, ids: seq<NodeId>)
    requires WellFormed(g) && Resolves(g, ids)
    ensures Ids(BuildPath(g, ids)) == ids
  {
  }

  /** The paths before sorting. */
  ghost function Unsorted(g: Graph, depth: int, limit: int): seq<AttackPath>
    requires WellFormed(g)
  {
    CandidatesResolve(g, depth);
    BuildAll(g, Capped(Candidates(g, depth), limit))
  }

  lemma {:induction false} BuildAllMember(g: Graph, routes: seq<seq<NodeId>>, p: AttackPath)
    requires AllResolve(g, routes)
    ensures p in BuildAll(g, routes) <==> exists ids :: ids in routes && Resolves(g, ids) && p == BuildPath(g, ids)
  {
    if routes != [] {
      var before, last := routes[..|routes| - 1], routes[|routes| - 1];
      BuildAllMember(g, before, p);
      assert routes == before + [last];
    }
  }

  lemma ReportedMember(g: Graph, depth: int, limit: int, p: AttackPath)
    requires WellFormed(g)
    ensures p in RankedPaths(g, depth, limit) <==>
      exists ids :: ids in Capped(Candidates(g, depth), limit) && Resolves(g, ids) && p == BuildPath(g, ids)
  {
    CandidatesResolve(g, depth);
    SortMember(Unsorted(g, depth, limit), ByScore, p);
    BuildAllMember(g, Capped(Candidates(g, depth), limit), p);
  }

  /** Every reported path is an attack route of the graph, with the nodes the graph stores. */
  lemma ReportedAreRoutes(g: Graph, depth: int, limit: int, p: AttackPath)
    requires WellFormed(g) && p in RankedPaths(g, depth, limit)
    ensures AttackRoute(g, Ids(p), depth) && Resolves(g, Ids(p)) && p == BuildPath(g, Ids(p))
  {
    ReportedMember(g, depth, limit, p);
    var ids :| ids in Capped(Candidates(g, depth), limit) && Resolves(g, ids) && p == BuildPath(g, ids);
    BuiltIds(g, ids);
    CandidatesExact(g, depth);
  }

  /** No path is reported twice, and the highest score comes first. */
  lemma ReportedOnceInOrder(g: Graph, depth: int, limit: int)
    requires WellFormed(g)
    ensures Distinct(RankedPaths(g, depth, limit)) && Ordered(RankedPaths(g, depth, limit), ByScore)
  {
    CandidatesExact(g, depth);
    CandidatesResolve(g, depth);
    var routes, paths := Capped(Candidates(g, depth), limit), Unsorted(g, depth, limit);
    forall i, j | 0 <= i < j < |paths| ensures paths[i] != paths[j] {
      BuildAllAt(g, routes, i);
      BuildAllAt(g, routes, j);
      BuiltIds(g, routes[i]);
      BuiltIds(g, routes[j]);
    }
    SortDistinct(paths, ByScore);
    SortOrdered(paths, ByScore);
  }

  lemma {:induction false} DistinctCount<T>(s: seq<T>, all: set<T>)
    requires Distinct(s) && forall x :: x in s <==> x in all
    ensures |s| == |all|
  {
    if s != [] {
      var x := s[|s| - 1];
      assert s == s[..|s| - 1] + [x];
      DistinctCount(s[..|s| - 1], all - {x});
    }
  }

  /** The result has min(limit, number of attack routes) paths, so one shorter than the limit is complete. */
  lemma ReportedCount(g: Graph, depth: int, limit: int, all: set<seq<NodeId>>)
    requires WellFormed(g) && forall ids :: ids in all <==> AttackRoute(g, ids, depth)
    ensures |RankedPaths(g, depth, limit)| == if limit <= 0 then 0 else if |all| <= limit then |all| else limit
  {
    CandidatesExact(g, depth);
    CandidatesResolve(g, depth);
    SortKeeps(Unsorted(g, depth, limit), ByScore);
    DistinctCount(Candidates(g, depth), all);
  }

  lemma ReportedComplete(g: Graph, depth: int, limit: int, ids: seq<NodeId>)
    requires WellFormed(g) && |RankedPaths(g, depth, limit)| < limit && AttackRoute(g, ids, depth)
    ensures Resolves(g, ids) && BuildPath(g, ids) in RankedPaths(g, depth, limit)
  {
    CandidatesExact(g, depth);
    CandidatesResolve(g, depth);
    SortKeeps(Unsorted(g, depth, limit), ByScore);
    assert Capped(Candidates(g, depth), limit) == Candidates(g, depth);
    ReportedMember(g, depth, limit, BuildPath(g, ids));
  }

  // ---------------------------------------------------------------- which routes a limit keeps

  ghost predicate At(ids: seq<NodeId>, i: int, id: NodeId) { 0 <= i < |ids| && ids[i] == id }

  /** p comes no later than q in the lists: from an earlier entry, or from the same one to no later sink. */
  ghost predicate NoLater(entries: seq<NodeId>, sinks: seq<NodeId>, p: seq<NodeId>, q: seq<NodeId>) {
    exists i, j, k, l :: Placed(entries, sinks, p, i, k) && Placed(entries, sinks, q, j, l)
      && (i < j || (i == j && k <= l))
  }

  /** p goes from entry i to sink k. */
  ghost predicate Placed(entries: seq<NodeId>, sinks: seq<NodeId>, p: seq<NodeId>, i: int, k: int) {
    p != [] && At(entries, i, p[0]) && At(sinks, k, p[|p| - 1])
  }

  lemma SearchEnds(g: Graph, entry: NodeId, t: NodeId, depth: int, m: nat)
    requires SimpleLists(g.succ) && entry != t && m < |AllSimplePaths(g.succ, entry, t, depth)|
    ensures var p := AllSimplePaths(g.succ, entry, t, depth)[m]; p != [] && p[0] == entry && p[|p| - 1] == t
  {
    SearchExact(g.succ, entry, t, depth);
    assert AllSimplePaths(g.succ, entry, t, depth)[m] in AllSimplePaths(g.succ, entry, t, depth);
  }

  /** One entry's paths come in the order of the sinks. */
  lemma {:induction false} SinksInOrder(
    g: Graph, entry: NodeId, sinks: seq<NodeId>, depth: int, m: nat, n: nat) returns (k: nat, l: nat)
    requires SimpleLists(g.succ) && entry !in sinks && m <= n < |FromEntry(g, entry, sinks, depth)|
    ensures var p, q := FromEntry(g, entry, sinks, depth)[m], FromEntry(g, entry, sinks, depth)[n];
      && p != [] && q != [] && p[0] == q[0] == entry
      && At(sinks, k, p[|p| - 1]) && At(sinks, l, q[|q| - 1]) && k <= l
  {
    var before, t := sinks[..|sinks| - 1], sinks[|sinks| - 1];
    var some := |FromEntry(g, entry, before, depth)|;
    if n < some {
      k, l := SinksInOrder(g, entry, before, depth, m, n);
    } else {
      l := |before|;
      SearchEnds(g, entry, t, depth, n - some);
      if m < some {
        var other;
        k, other := SinksInOrder(g, entry, before, depth, m, m);
      } else {
        k := l;
        SearchEnds(g, entry, t, depth, m - some);
      }
    }
  }

  /** The enumeration goes through the entries in order, and through the sinks for each. */
  lemma {:induction false} RoutesInOrder(
    g: Graph, entries: seq<NodeId>, sinks: seq<NodeId>, depth: int, m: nat, n: nat)
    requires SimpleLists(g.succ) && (forall e :: e in entries ==> e !in sinks)
    requires m <= n < |FromEntries(g, entries, sinks, depth)|
    ensures NoLater(entries, sinks, FromEntries(g, entries, sinks, depth)[m], FromEntries(g, entries, sinks, depth)[n])
  {
    hide FromEntry, NoLater;
    var before, e := entries[..|entries| - 1], entries[|entries| - 1];
    var some, own := FromEntries(g, before, sinks, depth), FromEntry(g, e, sinks, depth);
    assert entries == before + [e] && FromEntries(g, entries, sinks, depth) == some + own;
    if n < |some| {
      RoutesInOrder(g, before, sinks, depth, m, n);
      LaterEntries(before, e, sinks, some[m], some[n]);
    } else {
      var k, l := SinksInOrder(g, e, sinks, depth, if m < |some| then n - |some| else m - |some|, n - |some|);
      if m < |some| {
        RoutesInOrder(g, before, sinks, depth, m, m);
        EarlierEntry(before, e, sinks, some[m], own[n - |some|], l);
      } else {
        var p, q := own[m - |some|], own[n - |some|];
        PlacedInOrder(entries, sinks, p, q, |before|, k, l);
      }
    }
  }

  lemma PlacedInOrder(
    entries: seq<NodeId>, sinks: seq<NodeId>, p: seq<NodeId>, q: seq<NodeId>, i: nat, k: nat, l: nat)
    requires Placed(entries, sinks, p, i, k) && Placed(entries, sinks, q, i, l) && k <= l
    ensures NoLater(entries, sinks, p, q)
  {
  }

  lemma LaterEntries(before: seq<NodeId>, e: NodeId, sinks: seq<NodeId>, p: seq<NodeId>, q: seq<NodeId>)
    requires NoLater(before, sinks, p, q)
    ensures NoLater(before + [e], sinks, p, q)
  {
    var i, j, k, l :| Placed(before, sinks, p, i, k) && Placed(before, sinks, q, j, l)
      && (i < j || (i == j && k <= l));
    assert Placed(before + [e], sinks, p, i, k) && Placed(before + [e], sinks, q, j, l);
  }

  lemma EarlierEntry(before: seq<NodeId>, e: NodeId, sinks: seq<NodeId>, p: seq<NodeId>, q: seq<NodeId>, l: nat)
    requires NoLater(before, sinks, p, p) && q != [] && q[0] == e && At(sinks, l, q[|q| - 1])
    ensures NoLater(before + [e], sinks, p, q)
  {
    var i, j, k, o :| Placed(before, sinks, p, i, k) && Placed(before, sinks, p, j, o)
      && (i < j || (i == j && k <= o));
    assert Placed(before + [e], sinks, p, i, k) && Placed(before + [e], sinks, q, |before|, l);
  }

  /** The entry points and the sinks are listed in the order in which the graph holds them. */
  lemma {:induction false} KindInOrder(g: Graph, order: seq<NodeId>, kind: Kind, i: nat, j: nat)
    returns (x: nat, y: nat)
    requires i < j < |OfKind(g, order, kind)|
    ensures x < y && At(order, x, OfKind(g, order, kind)[i]) && At(order, y, OfKind(g, order, kind)[j])
  {
    var before := order[..|order| - 1];
    var n := |OfKind(g, before, kind)|;
    if j < n {
      x, y := KindInOrder(g, before, kind, i, j);
    } else {
      x := KindPlaced(g, before, kind, i);
      y := |before|;
    }
  }

  lemma {:induction false} KindPlaced(g: Graph, order: seq<NodeId>, kind: Kind, i: nat) returns (x: nat)
    requires i < |OfKind(g, order, kind)|
    ensures At(order, x, OfKind(g, order, kind)[i])
  {
    var before := order[..|order| - 1];
    if i < |OfKind(g, before, kind)| { x := KindPlaced(g, before, kind, i); } else { x := |before|; }
  }

  /**
   * A limit keeps the first routes: what is reported comes no later, by entry and then by sink, than any
   * attack route that is not.
   */
  lemma {:induction false} ReportedComeFirst(g: Graph, depth: int, limit: int, p: AttackPath, ids: seq<NodeId>)
    requires WellFormed(g) && p in RankedPaths(g, depth, limit) && AttackRoute(g, ids, depth)
    requires forall q :: q in RankedPaths(g, depth, limit) ==> Ids(q) != ids
    ensures NoLater(OfKind(g, g.order, EntryPoint), OfKind(g, g.order, Sink), Ids(p), ids)
  {
    hide AttackRoute, BuildPath, OfKind, NoLater;
    var routes := Candidates(g, depth);
    CandidatesExact(g, depth);
    ReportedMember(g, depth, limit, p);
    var own :| own in Capped(routes, limit) && Resolves(g, own) && p == BuildPath(g, own);
    BuiltIds(g, own);
    var m :| 0 <= m < |Capped(routes, limit)| && Capped(routes, limit)[m] == own;
    var n :| 0 <= n < |routes| && routes[n] == ids;
    if n <= m {
      assert ids in Capped(routes, limit) by { assert Capped(routes, limit)[n] == ids; }
      CandidatesResolve(g, depth);
      BuiltIds(g, ids);
      ReportedMember(g, depth, limit, BuildPath(g, ids));
      assert false;
    }
    KindsApart(g);
    RoutesInOrder(g, OfKind(g, g.order, EntryPoint), OfKind(g, g.order, Sink), depth, m, n);
  }

  lemma KindsApart(g: Graph)
    requires WellFormed(g)
    ensures SimpleLists(g.succ)
    ensures forall e :: e in OfKind(g, g.order, EntryPoint) ==> e !in OfKind(g, g.order, Sink)
  {
    OfKindExact(g, g.order, EntryPoint);
    OfKindExact(g, g.order, Sink);
  }

  // ---------------------------------------------------------------- flags and scores, from the nodes alone

  ghost predicate SomeSanitizer(nodes: seq<Node>) { exists i :: 0 <= i < |nodes| && nodes[i].sanitizer }

  ghost predicate SomeJewel(nodes: seq<Node>) { exists i :: 0 <= i < |nodes| && nodes[i].crownJewel }

  /** Node i is the first crown jewel. */
  ghost predicate JewelAt(nodes: seq<Node>, i: int) {
    0 <= i < |nodes| && nodes[i].crownJewel && forall j :: 0 <= j < i ==> !nodes[j].crownJewel
  }

  lemma {:induction false} FirstJewelExact(nodes: seq<Node>)
    ensures !SomeJewel(nodes) ==> FirstJewel(nodes) == ""
    ensures forall i :: JewelAt(nodes, i) ==> FirstJewel(nodes) == nodes[i].name
    ensures SomeJewel(nodes) ==> exists i :: JewelAt(nodes, i)
  {
    if nodes != [] && nodes[0].crownJewel {
      assert JewelAt(nodes, 0);
    } else if nodes != [] {
      var rest := nodes[1..];
      FirstJewelExact(rest);
      forall i | JewelAt(nodes, i) ensures FirstJewel(nodes) == nodes[i].name {
        assert i > 0 && forall j :: 0 <= j < |rest| ==> rest[j] == nodes[j + 1];
        assert JewelAt(rest, i - 1);
      }
      if SomeJewel(nodes) {
        var k :| 0 <= k < |nodes| && nodes[k].crownJewel;
        assert rest[k - 1].crownJewel;
        var i :| JewelAt(rest, i);
        assert forall j :: 0 < j < |nodes| ==> nodes[j] == rest[j - 1];
        assert JewelAt(nodes, i + 1);
      }
    }
  }

  /** Ten times the listed severity of a sink. */
  function SinkPoints(sink: SinkClass): int {
    match sink
    case Injection => 10
    case CommandInjection => 10
    case CodeExecution => 10
    case SqlInjection => 10
    case Deserialization => 9
    case PathTraversal => 7
    case Ssrf => 6
    case Unrated => 5
  }

  /** Twenty points for no edge, less a fifteenth of them per edge. */
  function ShortPoints(edges: int): real { if edges >= 15 then 0.0 else 20.0 - 4.0 * edges as real / 3.0 }

  /**
   * What a reported path says, read off its nodes: it is sanitized or reaches a crown jewel exactly when one
   * of them does, it names the first crown jewel, and its score adds up 40 points for a crown jewel, 30 for
   * no sanitizer, up to 20 for being short and up to 10 for its sink.
   */
  lemma ReportedReadsItsNodes(g: Graph, depth: int, limit: int, p: AttackPath)
    requires WellFormed(g) && p in RankedPaths(g, depth, limit)
    ensures |p.nodes| >= 2 && p.length == |p.nodes| - 1
    ensures p.sanitized <==> SomeSanitizer(p.nodes)
    ensures p.crownJewel <==> SomeJewel(p.nodes)
    ensures !SomeJewel(p.nodes) ==> p.jewel == ""
    ensures forall i :: JewelAt(p.nodes, i) ==> p.jewel == p.nodes[i].name
    ensures SomeJewel(p.nodes) ==> exists i :: JewelAt(p.nodes, i)
    ensures p.score == (if SomeJewel(p.nodes) then 40.0 else 0.0) + (if SomeSanitizer(p.nodes) then 0.0 else 30.0)
        + ShortPoints(|p.nodes| - 1) + SinkPoints(p.nodes[|p.nodes| - 1].sink) as real
  {
    ReportedAreRoutes(g, depth, limit, p);
    FirstJewelExact(p.nodes);
    ScoreAddsUp(SomeJewel(p.nodes), SomeSanitizer(p.nodes), |p.nodes| - 1, p.nodes[|p.nodes| - 1].sink);
  }

  lemma ScoreAddsUp(crownJewel: bool, sanitized: bool, length: int, sink: SinkClass)
    requires length >= 0
    ensures ScorePath(crownJewel, sanitized, length, sink) == (if crownJewel then 40.0 else 0.0)
        + (if sanitized then 0.0 else 30.0) + ShortPoints(length) + SinkPoints(sink) as real
  {
    var x := length as real;
    assert (1.0 - x / 15.0) * 20.0 == 20.0 - 4.0 * x / 3.0;
    assert length >= 15 <==> x / 15.0 >= 1.0;
  }

  /** What a sink type, of a finding or of a sink call, counts. */
  lemma ListedSeverities(sinkType: string)
    ensures SinkPoints(ClassOf(sinkType)) ==
        if sinkType in {"injection", "command_injection", "code_execution", "sql_injection"} then 10
        else if sinkType == "deserialization" then 9
        else if sinkType == "path_traversal" then 7
        else if sinkType == "ssrf" then 6
        else 5
  {
  }

  /**
   * In the sorted result every path with a crown jewel and no sanitizer among its nodes comes before
   * every path without a crown jewel, and all scores lie in [0, 100].
   */
  lemma CrownJewelsFirst(g: Graph, depth: int, limit: int, i: nat, j: nat)
    requires WellFormed(g) && i < |RankedPaths(g, depth, limit)| && j < |RankedPaths(g, depth, limit)|
    requires var r := RankedPaths(g, depth, limit);
      SomeJewel(r[i].nodes) && !SomeSanitizer(r[i].nodes) && !SomeJewel(r[j].nodes)
    ensures i < j && 75.0 <= RankedPaths(g, depth, limit)[i].score <= 100.0
    ensures 0.0 <= RankedPaths(g, depth, limit)[j].score < 60.0
  {
    var r := RankedPaths(g, depth, limit);
    ReportedReadsItsNodes(g, depth, limit, r[i]);
    ReportedReadsItsNodes(g, depth, limit, r[j]);
    ScoreOfReported(g, depth, limit, r[i]);
    ScoreOfReported(g, depth, limit, r[j]);
    ReportedOnceInOrder(g, depth, limit);
    assert !ByScore(r[j], r[i]);
  }

  lemma ScoreOfReported(g: Graph, depth: int, limit: int, p: AttackPath)
    requires WellFormed(g) && p in RankedPaths(g, depth, limit)
    ensures p.length >= 1 && 0.0 <= p.score <= 100.0
    ensures p.crownJewel && !p.sanitized ==> p.score >= 75.0
    ensures !p.crownJewel ==> p.score < 60.0
  {
    ReportedAreRoutes(g, depth, limit, p);
    ScoreBounds(p.crownJewel, p.sanitized, p.length, p.nodes[|p.nodes| - 1].sink);
  }

  // ---------------------------------------------------------------- from finding to reported path

  /** A hooked sink is at most two edges from its entry. */
  lemma HookedRoute(g: Graph, links: seq<Link>, e: NodeId, s: NodeId) returns (p: seq<NodeId>)
    requires WellFormed(g) && EdgesListed(g, links)
    requires e != s && Within2(links, e, s)
    ensures SimplePath(g.succ, p, e, s, 2)
  {
    if Listed(links, e, s) {
      p := [e, s];
      assert Edge(g.succ, e, s);
    } else {
      var v :| Listed(links, e, v) && Listed(links, v, s);
      p := [e, v, s];
      assert Edge(g.succ, e, v) && Edge(g.succ, v, s);
    }
  }

  /** The paths reported for a scan. */
  ghost function ScanPaths(
    asts: seq<FileAst>, fs: seq<Finding>, jewels: seq<string>, depth: int, limit: int): seq<AttackPath>
  {
    GraphIsFaithful(asts, fs, jewels);
    RankedPaths(GraphOf(Built(asts, fs, jewels).draft), depth, limit)
  }

  /** The file's entry is still an entry point, not overwritten by another node with its id. */
  ghost predicate EntryStands(l: Linking, file: string) {
    && file in l.entries && Known(l.draft.nodes, l.entries[file].id)
    && Latest(l.draft.nodes)[l.entries[file].id].kind == EntryPoint
  }

  lemma LatestSnoc(nodes: seq<Node>, n: Node)
    ensures Latest(nodes + [n]) == Latest(nodes)[n.id := n]
  {
    assert (nodes + [n])[..|nodes|] == nodes;
  }

  /** Findings never overwrite an entry point: they add sinks only under new ids. */
  lemma FindingKeepsEntry(l: Linking, f: Finding, jewels: seq<string>, file: string)
    requires file in l.entries ==> EntryStands(l, file)
    requires file !in l.entries ==> SinkCategory(f) && file == FileOf(f)
    ensures EntryStands(AddFinding(l, f, jewels), file)
  {
    hide FindingLinks, SinkCategory, FindingSink;
    if SinkCategory(f) {
      var sink := FindingSink(f, jewels);
      LatestSnoc(l.draft.nodes, FallbackEntry(FileOf(f)));
      LatestSnoc(WithEntry(l, FileOf(f)).draft.nodes, sink);
    }
  }

  lemma {:induction false} FindingsKeepEntry(l: Linking, fs: seq<Finding>, jewels: seq<string>, file: string)
    requires file in l.entries ==> EntryStands(l, file)
    ensures file in AddFindings(l, fs, jewels).entries ==> EntryStands(AddFindings(l, fs, jewels), file)
  {
    if fs != [] {
      FindingsKeepEntry(l, fs[..|fs| - 1], jewels, file);
      var before, f := AddFindings(l, fs[..|fs| - 1], jewels), fs[|fs| - 1];
      if file in before.entries || (SinkCategory(f) && file == FileOf(f)) {
        FindingKeepsEntry(before, f, jewels, file);
      }
    }
  }

  ghost predicate JoinsTo(p: AttackPath, e: NodeId, s: NodeId) {
    && |p.nodes| > 0 && p.nodes[0].id == e && p.nodes[|p.nodes| - 1].id == s
  }

  ghost predicate JoinedBy(paths: seq<AttackPath>, e: NodeId, s: NodeId) {
    exists p :: p in paths && p.length <= 2 && JoinsTo(p, e, s)
  }

  lemma ReportedEnds(g: Graph, depth: int, limit: int, p: AttackPath)
    requires WellFormed(g) && p in RankedPaths(g, depth, limit)
    ensures p.nodes != [] && var start, end := p.nodes[0].id, p.nodes[|p.nodes| - 1].id;
      start in g.data && g.data[start].kind == EntryPoint && end in g.data && g.data[end].kind == Sink
  {
    ReportedAreRoutes(g, depth, limit, p);
    assert Ids(p)[0] == p.nodes[0].id && Ids(p)[|p.nodes| - 1] == p.nodes[|p.nodes| - 1].id;
  }

  lemma ReachedExactlyAsSink(l: Linking, g: Graph, depth: int, limit: int, f: Finding)
    requires WellFormed(g) && g.data == Latest(l.draft.nodes) && EdgesListed(g, l.draft.links)
    requires SinkCategory(f) && Hooked(l, f) && EntriesListed(l.entries, l.draft.nodes)
    requires depth >= 2 && |RankedPaths(g, depth, limit)| < limit
    ensures JoinedBy(RankedPaths(g, depth, limit), l.entries[FileOf(f)].id, FindingId(f))
      <==> EntryStands(l, FileOf(f)) && Latest(l.draft.nodes)[FindingId(f)].kind == Sink
  {
    var e, s := l.entries[FileOf(f)].id, FindingId(f);
    NodeKnown(l.draft.nodes, l.entries[FileOf(f)]);
    if EntryStands(l, FileOf(f)) && g.data[s].kind == Sink {
      var ids := HookedRoute(g, l.draft.links, e, s);
      assert AttackRoute(g, ids, depth);
      ReportedComplete(g, depth, limit, ids);
      BuiltIds(g, ids);
      assert BuildPath(g, ids).length <= 2 && JoinsTo(BuildPath(g, ids), e, s);
    } else {
      forall p | p in RankedPaths(g, depth, limit) ensures !JoinsTo(p, e, s) {
        ReportedEnds(g, depth, limit, p);
      }
    }
  }

  // ---------------------------------------------------------------- when an entry stands

  /** Entry points are stored under ids of their own file. */
  ghost predicate OwnIds(nodes: seq<Node>) {
    forall i :: 0 <= i < |nodes| && nodes[i].kind == EntryPoint ==> nodes[i].id.file == nodes[i].file
  }

  lemma FileOwnsIds(d: Draft, ast: FileAst, jewels: seq<string>, calls: seq<SinkCall>)
    requires OwnIds(d.nodes)
    ensures OwnIds(AddSinkCalls(d, ast, calls, jewels).nodes)
    decreases |calls|
  {
    if calls != [] { FileOwnsIds(d, ast, jewels, calls[..|calls| - 1]); }
  }

  lemma AstOwnsIds(nodes: seq<Node>, ast: FileAst, jewels: seq<string>)
    requires OwnIds(nodes)
    ensures OwnIds(nodes + EntryNodes(ast, jewels) + FunctionNodes(ast, jewels) + SanitizerNodes(ast))
  {
    OwnsAll(nodes, EntryNodes(ast, jewels));
    OwnsAll(nodes + EntryNodes(ast, jewels), FunctionNodes(ast, jewels));
    OwnsAll(nodes + EntryNodes(ast, jewels) + FunctionNodes(ast, jewels), SanitizerNodes(ast));
  }

  lemma OwnsAll(nodes: seq<Node>, more: seq<Node>)
    requires OwnIds(nodes) && OwnIds(more)
    ensures OwnIds(nodes + more)
  {
  }

  lemma {:induction false} FilesOwnIds(asts: seq<FileAst>, jewels: seq<string>)
    ensures OwnIds(AddFiles(asts, jewels).nodes)
  {
    hide OwnIds, AddSinkCalls;
    if asts == [] {
      NoneOwnIds();
    } else {
      var d, ast := AddFiles(asts[..|asts| - 1], jewels), asts[|asts| - 1];
      FilesOwnIds(asts[..|asts| - 1], jewels);
      AstOwnsIds(d.nodes, ast, jewels);
      var nodes := d.nodes + EntryNodes(ast, jewels) + FunctionNodes(ast, jewels) + SanitizerNodes(ast);
      var links := d.links + CallLinks(ast.file, ast.calls, nodes) + HandlerLinks(ast.file, ast.entries, nodes);
      FileOwnsIds(Draft(nodes, links), ast, jewels, ast.sinkCalls);
    }
  }

  lemma NoneOwnIds()
    ensures OwnIds([])
  {
  }

  /** What the linking of findings relies on and keeps: listed entries, each under an id of its own file. */
  ghost predicate Listing(l: Linking) { EntriesListed(l.entries, l.draft.nodes) && OwnIds(l.draft.nodes) }

  lemma MemberOwnsId(nodes: seq<Node>, n: Node)
    requires OwnIds(nodes) && n in nodes && n.kind == EntryPoint
    ensures n.id.file == n.file
  {
  }

  /** Making up an entry for one file leaves those of the others alone. */
  lemma EntryLeavesEntry(l: Linking, other: string, file: string)
    requires file in l.entries && Listing(l)
    ensures var r := WithEntry(l, other);
      && Listing(r) && file in r.entries && r.entries[file] == l.entries[file]
      && EntryStands(r, file) == EntryStands(l, file)
  {
    NodeKnown(l.draft.nodes, l.entries[file]);
    MemberOwnsId(l.draft.nodes, l.entries[file]);
    if other !in l.entries {
      LatestSnoc(l.draft.nodes, FallbackEntry(other));
      assert FallbackEntry(other).id.file == other;
      OwnsMore(l.draft.nodes, FallbackEntry(other));
    }
  }

  lemma OwnsMore(nodes: seq<Node>, n: Node)
    requires OwnIds(nodes) && (n.kind == EntryPoint ==> n.id.file == n.file)
    ensures OwnIds(nodes + [n])
  {
  }

  /** So does adding a sink, which is stored under new ids only. */
  lemma SinkLeavesEntry(l: Linking, sink: Node, links: seq<Link>, file: string)
    requires file in l.entries && Listing(l) && sink.kind == Sink
    ensures var r := Linking(Draft(WithSink(l.draft.nodes, sink), links), l.entries);
      Listing(r) && EntryStands(r, file) == EntryStands(l, file)
  {
    NodeKnown(l.draft.nodes, l.entries[file]);
    LatestSnoc(l.draft.nodes, sink);
    OwnsMore(l.draft.nodes, sink);
  }

  lemma {:induction false} FindingLeavesEntry(l: Linking, f: Finding, jewels: seq<string>, file: string)
    requires file in l.entries && Listing(l)
    ensures var r := AddFinding(l, f, jewels);
        Listing(r) && file in r.entries && EntryStands(r, file) == EntryStands(l, file)
  {
    hide SinkCategory, FindingSink, FindingLinks, Listing, EntryStands, WithSink;
    if SinkCategory(f) {
      var l1, sink := WithEntry(l, FileOf(f)), FindingSink(f, jewels);
      EntryLeavesEntry(l, FileOf(f), file);
      SinkIsNoEntry(f, jewels);
      var nodes := WithSink(l1.draft.nodes, sink);
      SinkLeavesEntry(l1, sink, l1.draft.links + FindingLinks(nodes, l1.entries[FileOf(f)].id, f), file);
    }
  }

  lemma SinkIsNoEntry(f: Finding, jewels: seq<string>)
    ensures FindingSink(f, jewels).kind == Sink
  {
  }

  lemma {:induction false} FindingsLeaveEntry(l: Linking, fs: seq<Finding>, jewels: seq<string>, file: string)
    requires file in l.entries && Listing(l)
    ensures var r := AddFindings(l, fs, jewels);
        Listing(r) && file in r.entries && EntryStands(r, file) == EntryStands(l, file)
  {
    hide Listing, EntryStands, AddFinding;
    if fs != [] {
      FindingsLeaveEntry(l, fs[..|fs| - 1], jewels, file);
      FindingLeavesEntry(AddFindings(l, fs[..|fs| - 1], jewels), fs[|fs| - 1], jewels, file);
    }
  }

  /** What the AST facts alone decide: a file without entry points, or whose last one no other node overwrites. */
  ghost predicate AstEntryStands(asts: seq<FileAst>, jewels: seq<string>, file: string) {
    var d := AddFiles(asts, jewels);
    file in EntryByFile(d.nodes) ==> EntryStands(Linking(d, EntryByFile(d.nodes)), file)
  }

  /**
   * The entry of a file with a sink-category finding stands in the built graph if and only if it does in
   * the AST facts.
   */
  lemma EntryStandsExactly(asts: seq<FileAst>, fs: seq<Finding>, jewels: seq<string>, f: Finding)
    requires f in fs && SinkCategory(f)
    ensures EntryStands(Built(asts, fs, jewels), FileOf(f)) <==> AstEntryStands(asts, jewels, FileOf(f))
  {
    hide SinkCategory;
    var d := AddFiles(asts, jewels);
    var l := Linking(d, EntryByFile(d.nodes));
    BuildIsSound(asts, fs, jewels);
    assert Hooked(Built(asts, fs, jewels), f);
    FilesOwnIds(asts, jewels);
    EntryByFileListed(d.nodes);
    if FileOf(f) in l.entries {
      FindingsLeaveEntry(l, fs, jewels, FileOf(f));
    } else {
      FindingsKeepEntry(l, fs, jewels, FileOf(f));
    }
  }

  /**
   * End to end, from finding to report, when the limit is not reached: a sink-category finding ends some
   * reported path of at most two edges from its file's entry if and only if that entry is not overwritten
   * by another AST node and the node finally stored under the finding's own id is a sink.
   */
  lemma FindingsAreReached(
    asts: seq<FileAst>, fs: seq<Finding>, jewels: seq<string>, depth: int, limit: int, f: Finding)
    requires f in fs && SinkCategory(f) && depth >= 2
    requires |ScanPaths(asts, fs, jewels, depth, limit)| < limit
    ensures var l := Built(asts, fs, jewels);
      && FileOf(f) in l.entries && Known(l.draft.nodes, FindingId(f))
      && (JoinedBy(ScanPaths(asts, fs, jewels, depth, limit), l.entries[FileOf(f)].id, FindingId(f))
          <==> AstEntryStands(asts, jewels, FileOf(f)) && Latest(l.draft.nodes)[FindingId(f)].kind == Sink)
  {
    hide SinkCategory, AstEntryStands, JoinedBy;
    BuildIsSound(asts, fs, jewels);
    GraphIsFaithful(asts, fs, jewels);
    var l := Built(asts, fs, jewels);
    EntryStandsExactly(asts, fs, jewels, f);
    assert Hooked(l, f);
    ReachedExactlyAsSink(l, GraphOf(l.draft), depth, limit, f);
  }
}
