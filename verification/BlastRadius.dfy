/** Blast radii of the entry points (compute_blast_radii in backend/attack_path/path_analyzer.py). */
module BlastRadius {
  import opened Sequences
  import opened Sorting
  import opened AttackGraph
  import opened PathAnalyzer
  import opened PathResults

  datatype Radius = Radius(entry: Node, sinks: seq<NodeId>, jewels: set<string>, total: nat, depth: int, score: real)

  predicate StartsAt(p: AttackPath, e: NodeId) { p.nodes != [] && p.nodes[0].id == e }

  predicate EndsAt(p: AttackPath, s: NodeId) { p.nodes != [] && p.nodes[|p.nodes| - 1].id == s }

  function PathsOf(paths: seq<AttackPath>, e: NodeId): seq<AttackPath> {
    if paths == [] then []
    else PathsOf(paths[..|paths| - 1], e) + if StartsAt(paths[|paths| - 1], e) then [paths[|paths| - 1]] else []
  }

  /** The keys of the dictionary from sink id to sink: first occurrences, in order. */
  function SinksOf(paths: seq<AttackPath>): seq<NodeId> {
    if paths == [] || paths[|paths| - 1].nodes == [] then []
    else
      var before, p := SinksOf(paths[..|paths| - 1]), paths[|paths| - 1];
      var s := p.nodes[|p.nodes| - 1].id;
      if s in before then before else before + [s]
  }

  function JewelsOf(paths: seq<AttackPath>): set<string> {
    set p | p in paths && p.crownJewel && p.jewel != "" :: p.jewel
  }

  function DepthOf(paths: seq<AttackPath>): int {
    if paths == [] then 0
    else if |paths| == 1 then paths[0].length
    else
      var d, p := DepthOf(paths[..|paths| - 1]), paths[|paths| - 1];
      if p.length > d then p.length else d
  }

  function BlastScore(sinks: nat, jewels: nat, depth: int): real {
    var s := (sinks * 10 + jewels * 25 + depth * 2) as real;
    if s <= 100.0 then s else 100.0
  }

  function RadiusOf(entry: Node, paths: seq<AttackPath>): Radius {
    var own := PathsOf(paths, entry.id);
    var sinks, jewels := SinksOf(own), JewelsOf(own);
    Radius(entry, sinks, jewels, |own|, DepthOf(own), BlastScore(|sinks|, |jewels|, DepthOf(own)))
  }

  /** One radius per listed entry that has paths. */
  function RadiiOf(entries: seq<Node>, paths: seq<AttackPath>): seq<Radius> {
    if entries == [] then []
    else
      var e := entries[|entries| - 1];
      RadiiOf(entries[..|entries| - 1], paths) + if PathsOf(paths, e.id) == [] then [] else [RadiusOf(e, paths)]
  }

  predicate ByBlast(a: Radius, b: Radius) { a.score >= b.score }

  method CollectOwn(paths: seq<AttackPath>, e: NodeId) returns (own: seq<AttackPath>)
    ensures own == PathsOf(paths, e)
  {
    own := [];
    for i := 0 to |paths|
      invariant own == PathsOf(paths[..i], e)
    {
      assert paths[..i + 1][..i] == paths[..i];
      if StartsAt(paths[i], e) { own := own + [paths[i]]; }
    }
    assert paths[..|paths|] == paths;
  }

  /** compute_blast_radii: the loop over the entries, and the sort. */
  method ComputeBlastRadii(entries: seq<Node>, paths: seq<AttackPath>) returns (radii: seq<Radius>)
    ensures radii == StableSort(RadiiOf(entries, paths), ByBlast)
  {
    radii := [];
    for i := 0 to |entries|
      invariant radii == RadiiOf(entries[..i], paths)
    {
      assert entries[..i + 1][..i] == entries[..i];
      var own := CollectOwn(paths, entries[i].id);
      if own != [] {
        var sinks, jewels := SinksOf(own), JewelsOf(own);
        var score := BlastScore(|sinks|, |jewels|, DepthOf(own));
        radii := radii + [Radius(entries[i], sinks, jewels, |own|, DepthOf(own), score)];
      }
    }
    assert entries[..|entries|] == entries;
    radii := StableSort(radii, ByBlast);
  }

  // ---------------------------------------------------------------- what a radius says

  lemma {:induction false} OwnExact(paths: seq<AttackPath>, e: NodeId, p: AttackPath)
    ensures p in PathsOf(paths, e) <==> p in paths && StartsAt(p, e)
  {
    if paths != [] {
      OwnExact(paths[..|paths| - 1], e, p);
      assert paths == paths[..|paths| - 1] + [paths[|paths| - 1]];
    }
  }

  ghost predicate SomeEndsAt(paths: seq<AttackPath>, s: NodeId) { exists i :: 0 <= i < |paths| && EndsAt(paths[i], s) }

  lemma SomeEndsSnoc(before: seq<AttackPath>, p: AttackPath, s: NodeId)
    ensures SomeEndsAt(before + [p], s) <==> SomeEndsAt(before, s) || EndsAt(p, s)
  {
    if SomeEndsAt(before, s) {
      var i :| 0 <= i < |before| && EndsAt(before[i], s);
      assert EndsAt((before + [p])[i], s);
    }
    if EndsAt(p, s) { assert EndsAt((before + [p])[|before|], s); }
  }

  lemma {:induction false} SinksExact(paths: seq<AttackPath>)
    requires forall i :: 0 <= i < |paths| ==> paths[i].nodes != []
    ensures Distinct(SinksOf(paths))
    ensures forall s :: s in SinksOf(paths) <==> SomeEndsAt(paths, s)
  {
    if paths != [] {
      var before, p := paths[..|paths| - 1], paths[|paths| - 1];
      SinksExact(before);
      assert paths == before + [p];
      forall s ensures s in SinksOf(paths) <==> SomeEndsAt(paths, s) { SomeEndsSnoc(before, p, s); }
    }
  }

  lemma {:induction false} DepthExact(paths: seq<AttackPath>)
    ensures forall p :: p in paths ==> p.length <= DepthOf(paths)
    ensures paths != [] ==> exists p :: p in paths && p.length == DepthOf(paths)
  {
    if |paths| > 1 {
      var before, p := paths[..|paths| - 1], paths[|paths| - 1];
      DepthExact(before);
      assert paths == before + [p];
      var q :| q in before && q.length == DepthOf(before);
      assert q in paths && p in paths;
    } else if |paths| == 1 {
      assert paths[0] in paths;
    }
  }

  /** Every path that starts at e leads to a sink of its radius, and nothing else does. */
  lemma OwnSinks(g: Graph, depth: int, limit: int, e: NodeId, s: NodeId)
    requires WellFormed(g) && s in SinksOf(PathsOf(RankedPaths(g, depth, limit), e))
    ensures Reaches(g, e, s, depth)
  {
    var paths := RankedPaths(g, depth, limit);
    var own := PathsOf(paths, e);
    OwnPathsNonEmpty(paths, e);
    SinksExact(own);
    assert SomeEndsAt(own, s);
    var i :| 0 <= i < |own| && EndsAt(own[i], s);
    OwnExact(paths, e, own[i]);
    PathLeads(g, depth, limit, own[i], e, s);
  }

  lemma PathLeads(g: Graph, depth: int, limit: int, p: AttackPath, e: NodeId, s: NodeId)
    requires WellFormed(g) && p in RankedPaths(g, depth, limit) && StartsAt(p, e) && EndsAt(p, s)
    ensures Reaches(g, e, s, depth)
  {
    ReportedAreRoutes(g, depth, limit, p);
    assert Leads(g, Ids(p), e, s, depth);
  }

  lemma OwnPathsNonEmpty(paths: seq<AttackPath>, e: NodeId)
    ensures forall i :: 0 <= i < |PathsOf(paths, e)| ==> PathsOf(paths, e)[i].nodes != []
  {
    forall i | 0 <= i < |PathsOf(paths, e)| ensures PathsOf(paths, e)[i].nodes != [] {
      OwnExact(paths, e, PathsOf(paths, e)[i]);
    }
  }

  lemma RouteInRadius(g: Graph, depth: int, limit: int, ids: seq<NodeId>)
    requires WellFormed(g) && |RankedPaths(g, depth, limit)| < limit && AttackRoute(g, ids, depth)
    ensures var own := PathsOf(RankedPaths(g, depth, limit), ids[0]);
      ids[|ids| - 1] in SinksOf(own) && |ids| - 1 <= DepthOf(own)
  {
    var paths := RankedPaths(g, depth, limit);
    var own := PathsOf(paths, ids[0]);
    ReportedComplete(g, depth, limit, ids);
    var p := BuildPath(g, ids);
    OwnExact(paths, ids[0], p);
    OwnPathsNonEmpty(paths, ids[0]);
    SinksExact(own);
    DepthExact(own);
    var i :| 0 <= i < |own| && own[i] == p;
    assert EndsAt(own[i], ids[|ids| - 1]);
  }

  /**
   * For the reported paths, when the limit was not reached: the sinks of an entry's radius are exactly
   * those some simple path of at most depth edges leads to from it, each once, and no such path is
   * longer than its depth.
   */
  lemma RadiusIsReachability(g: Graph, depth: int, limit: int, entry: Node)
    requires WellFormed(g) && |RankedPaths(g, depth, limit)| < limit
    ensures var r := RadiusOf(entry, RankedPaths(g, depth, limit));
      && Distinct(r.sinks)
      && (forall s :: s in r.sinks <==> Reaches(g, entry.id, s, depth))
      && (forall ids :: AttackRoute(g, ids, depth) && ids[0] == entry.id ==> |ids| - 1 <= r.depth)
  {
    var own := PathsOf(RankedPaths(g, depth, limit), entry.id);
    OwnPathsNonEmpty(RankedPaths(g, depth, limit), entry.id);
    SinksExact(own);
    forall s ensures s in SinksOf(own) <==> Reaches(g, entry.id, s, depth) {
      if s in SinksOf(own) { OwnSinks(g, depth, limit, entry.id, s); }
      if Reaches(g, entry.id, s, depth) {
        var ids :| Leads(g, ids, entry.id, s, depth);
        RouteInRadius(g, depth, limit, ids);
      }
    }
    forall ids | AttackRoute(g, ids, depth) && ids[0] == entry.id ensures |ids| - 1 <= DepthOf(own) {
      RouteInRadius(g, depth, limit, ids);
    }
  }

  ghost predicate Leads(g: Graph, ids: seq<NodeId>, e: NodeId, s: NodeId, depth: int) {
    AttackRoute(g, ids, depth) && ids[0] == e && ids[|ids| - 1] == s
  }

  ghost predicate Reaches(g: Graph, e: NodeId, s: NodeId, depth: int) { exists ids :: Leads(g, ids, e, s, depth) }

  /** What the score counts: ten for a sink, twenty-five for a crown jewel, two for a step of depth, up to 100. */
  lemma BlastPoints(sinks: nat, jewels: nat, depth: nat)
    ensures BlastScore(0, 0, 0) == 0.0
    ensures BlastScore(sinks + 1, jewels, depth) == Raised(BlastScore(sinks, jewels, depth), 10)
    ensures BlastScore(sinks, jewels + 1, depth) == Raised(BlastScore(sinks, jewels, depth), 25)
    ensures BlastScore(sinks, jewels, depth + 1) == Raised(BlastScore(sinks, jewels, depth), 2)
  {
    var points: int := sinks * 10 + jewels * 25 + depth * 2;
    PointsScore(sinks, jewels, depth, points);
    PointsScore(sinks + 1, jewels, depth, points + 10);
    PointsScore(sinks, jewels + 1, depth, points + 25);
    PointsScore(sinks, jewels, depth + 1, points + 2);
    PointsScore(0, 0, 0, 0);
    hide BlastScore;
    hide Raised;
    RaisedCap(points, 10);
    RaisedCap(points, 25);
    RaisedCap(points, 2);
  }

  lemma PointsScore(sinks: nat, jewels: nat, depth: nat, points: int)
    requires points == sinks * 10 + jewels * 25 + depth * 2
    ensures BlastScore(sinks, jewels, depth) == if points as real <= 100.0 then points as real else 100.0
  {
  }

  /** A score with some points more, up to 100. */
  function Raised(score: real, more: int): real {
    if score + more as real <= 100.0 then score + more as real else 100.0
  }

  lemma RaisedCap(points: int, more: nat)
    ensures var s := if points as real <= 100.0 then points as real else 100.0;
      Raised(s, more) == if (points + more) as real <= 100.0 then (points + more) as real else 100.0
  {
    assert (points + more) as real == points as real + more as real;
  }

  /** Blast scores lie in [0, 100] and, below the cap, grow with every sink, crown jewel and step of depth. */
  lemma BlastScoreGrows(sinks: nat, jewels: nat, depth: nat, sinks': nat, jewels': nat, depth': nat)
    requires sinks <= sinks' && jewels <= jewels' && depth <= depth'
    ensures 0.0 <= BlastScore(sinks, jewels, depth) <= BlastScore(sinks', jewels', depth') <= 100.0
    ensures BlastScore(sinks', jewels', depth') < 100.0 && (sinks, jewels, depth) != (sinks', jewels', depth') ==>
      BlastScore(sinks, jewels, depth) < BlastScore(sinks', jewels', depth')
  {
    assert sinks * 10 + jewels * 25 + depth * 2 <= sinks' * 10 + jewels' * 25 + depth' * 2;
  }

  lemma {:induction false} RadiiMember(entries: seq<Node>, paths: seq<AttackPath>, r: Radius)
    ensures r in RadiiOf(entries, paths) <==>
      exists i :: 0 <= i < |entries| && PathsOf(paths, entries[i].id) != [] && r == RadiusOf(entries[i], paths)
  {
    hide RadiusOf, PathsOf;
    if entries != [] {
      var before, e := entries[..|entries| - 1], entries[|entries| - 1];
      RadiiMember(before, paths, r);
      assert forall i :: 0 <= i < |before| ==> before[i] == entries[i];
    }
  }

  /** The result has the radius of every entry that starts a listed path and of no other, largest score first. */
  lemma RadiiAreRanked(entries: seq<Node>, paths: seq<AttackPath>, r: Radius)
    ensures var radii := StableSort(RadiiOf(entries, paths), ByBlast);
      && Ordered(radii, ByBlast)
      && (r in radii <==>
          exists i :: 0 <= i < |entries| && PathsOf(paths, entries[i].id) != [] && r == RadiusOf(entries[i], paths))
  {
    SortOrdered(RadiiOf(entries, paths), ByBlast);
    SortMember(RadiiOf(entries, paths), ByBlast, r);
    RadiiMember(entries, paths, r);
  }

  function Totals(entries: seq<Node>, paths: seq<AttackPath>): nat {
    if entries == [] then 0 else Totals(entries[..|entries| - 1], paths) + RadiusOf(entries[|entries| - 1], paths).total
  }

  /** How many of the entries a path starts at. */
  function StartsIn(entries: seq<Node>, p: AttackPath): nat {
    if entries == [] then 0
    else StartsIn(entries[..|entries| - 1], p) + if StartsAt(p, entries[|entries| - 1].id) then 1 else 0
  }

  lemma {:induction false} TotalsSnoc(entries: seq<Node>, paths: seq<AttackPath>, p: AttackPath)
    ensures Totals(entries, paths + [p]) == Totals(entries, paths) + StartsIn(entries, p)
  {
    if entries != [] {
      TotalsSnoc(entries[..|entries| - 1], paths, p);
      assert (paths + [p])[..|paths|] == paths;
    }
  }

  lemma {:induction false} StartsInOnce(entries: seq<Node>, p: AttackPath)
    requires forall i, j :: 0 <= i < j < |entries| ==> entries[i].id != entries[j].id
    ensures StartsIn(entries, p) == if exists i :: 0 <= i < |entries| && StartsAt(p, entries[i].id) then 1 else 0
  {
    if entries != [] {
      var before := entries[..|entries| - 1];
      StartsInOnce(before, p);
      assert forall i :: 0 <= i < |before| ==> before[i] == entries[i];
    }
  }

  /** Conservation: over entries listed once each that cover all starts, the path totals add up to the listing. */
  lemma {:induction false} TotalsAddUp(entries: seq<Node>, paths: seq<AttackPath>)
    requires forall i, j :: 0 <= i < j < |entries| ==> entries[i].id != entries[j].id
    requires forall k :: 0 <= k < |paths| ==> exists i :: 0 <= i < |entries| && StartsAt(paths[k], entries[i].id)
    ensures Totals(entries, paths) == |paths|
  {
    if paths == [] {
      NoTotals(entries);
    } else {
      var before, p := paths[..|paths| - 1], paths[|paths| - 1];
      assert paths == before + [p];
      TotalsAddUp(entries, before);
      TotalsSnoc(entries, before, p);
      StartsInOnce(entries, p);
    }
  }

  lemma {:induction false} NoTotals(entries: seq<Node>)
    ensures Totals(entries, []) == 0
  {
    if entries != [] { NoTotals(entries[..|entries| - 1]); }
  }

  /** The first crown jewel on a path from e is node i, of that name. */
  ghost predicate NamesJewel(paths: seq<AttackPath>, e: NodeId, p: AttackPath, i: int, name: string) {
    p in paths && StartsAt(p, e) && JewelAt(p.nodes, i) && p.nodes[i].name == name
  }

  /**
   * The rest of a radius, for the reported paths: it counts the paths that start at its entry, the longest of
   * them is as long as its depth, and its jewels are the names of the first crown-jewel nodes of those paths.
   */
  lemma {:induction false} RadiusReadsItsPaths(g: Graph, depth: int, limit: int, entry: Node, name: string)
    requires WellFormed(g)
    ensures var paths := RankedPaths(g, depth, limit); var r := RadiusOf(entry, paths);
      && (name in r.jewels <==> name != "" && exists p, i :: NamesJewel(paths, entry.id, p, i, name))
      && (forall p :: p in paths && StartsAt(p, entry.id) ==> |p.nodes| - 1 <= r.depth)
      && (r.total > 0 ==> exists p :: p in paths && StartsAt(p, entry.id) && |p.nodes| - 1 == r.depth)
      && r.total == |PathsOf(paths, entry.id)|
  {
    var paths := RankedPaths(g, depth, limit);
    var own := PathsOf(paths, entry.id);
    DepthExact(own);
    forall p ensures p in own <==> p in paths && StartsAt(p, entry.id) { OwnExact(paths, entry.id, p); }
    forall p | p in paths
      ensures p.length == |p.nodes| - 1 && (p.crownJewel <==> SomeJewel(p.nodes))
      ensures forall i :: JewelAt(p.nodes, i) ==> p.jewel == p.nodes[i].name
      ensures SomeJewel(p.nodes) ==> exists i :: JewelAt(p.nodes, i)
    {
      ReportedReadsItsNodes(g, depth, limit, p);
    }
    hide RankedPaths, WellFormed, JewelAt, SomeJewel, StartsAt;
    if name in JewelsOf(own) {
      var p :| p in own && p.crownJewel && p.jewel != "" && p.jewel == name;
      var i :| JewelAt(p.nodes, i);
      assert NamesJewel(paths, entry.id, p, i, name);
    }
    if name != "" && exists p, i :: NamesJewel(paths, entry.id, p, i, name) {
      var p, i :| NamesJewel(paths, entry.id, p, i, name);
      assert p.crownJewel && p.jewel == name && p in own;
    }
  }
}
