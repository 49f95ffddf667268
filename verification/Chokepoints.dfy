/** Chokepoint counting over the reported paths (find_chokepoints in backend/attack_path/path_analyzer.py). */
module Chokepoints {
  import opened Sequences
  import opened Sorting
  import opened AttackGraph
  import opened PathAnalyzer
  import opened PathResults

  datatype Chokepoint = Chokepoint(node: Node, blocked: nat, score: real)

  /** path.nodes[1:-1]. */
  function Interior(p: AttackPath): seq<Node> { if |p.nodes| <= 2 then [] else p.nodes[1..|p.nodes| - 1] }

  function AllInterior(paths: seq<AttackPath>): seq<Node> {
    if paths == [] then [] else AllInterior(paths[..|paths| - 1]) + Interior(paths[|paths| - 1])
  }

  function IdsOf(nodes: seq<Node>): seq<NodeId> {
    seq(|nodes|, i requires 0 <= i < |nodes| => nodes[i].id)
  }

  /** How often v occurs strictly inside the paths. */
  function Occurrences(paths: seq<AttackPath>, v: NodeId): nat { multiset(IdsOf(AllInterior(paths)))[v] }

  predicate StrictlyInside(p: AttackPath, v: NodeId) { v in IdsOf(Interior(p)) }

  /** The number of listed paths that v would block. */
  function PathsThrough(paths: seq<AttackPath>, v: NodeId): nat {
    if paths == [] then 0
    else PathsThrough(paths[..|paths| - 1], v) + if StrictlyInside(paths[|paths| - 1], v) then 1 else 0
  }

  function LengthsMinusOne(paths: seq<AttackPath>): int {
    if paths == [] then 0 else LengthsMinusOne(paths[..|paths| - 1]) + paths[|paths| - 1].length - 1
  }

  /** What find_all_paths returns: no node twice on a path, and at least one edge. */
  ghost predicate SimpleListing(paths: seq<AttackPath>) {
    forall i :: 0 <= i < |paths| ==>
      Distinct(Ids(paths[i])) && |paths[i].nodes| >= 2 && paths[i].length == |paths[i].nodes| - 1
  }

  function CountOf(counts: map<NodeId, nat>, v: NodeId): nat { if v in counts then counts[v] else 0 }

  function ByCount(counts: map<NodeId, nat>): (NodeId, NodeId) -> bool {
    (u, v) => CountOf(counts, u) >= CountOf(counts, v)
  }

  /** counts is the multiset of the ids, order lists its keys, and nodeMap holds a node for each. */
  ghost predicate Tallied(nodes: seq<Node>, counts: map<NodeId, nat>, nodeMap: map<NodeId, Node>, order: seq<NodeId>) {
    && (forall v :: CountOf(counts, v) == multiset(IdsOf(nodes))[v])
    && Distinct(order) && (forall v :: v in order <==> v in counts)
    && (forall v :: v in counts ==> counts[v] > 0 && v in nodeMap && nodeMap[v].id == v && nodeMap[v] in nodes)
  }

  lemma TallyOne(nodes: seq<Node>, counts: map<NodeId, nat>, nodeMap: map<NodeId, Node>, order: seq<NodeId>, n: Node)
    requires Tallied(nodes, counts, nodeMap, order)
    ensures Tallied(nodes + [n], counts[n.id := CountOf(counts, n.id) + 1], nodeMap[n.id := n],
                    if n.id in counts then order else order + [n.id])
  {
    assert IdsOf(nodes + [n]) == IdsOf(nodes) + [n.id];
  }

  /** The Counter loop; order is the counter's key order. */
  method CountNodes(nodes: seq<Node>) returns (counts: map<NodeId, nat>, nodeMap: map<NodeId, Node>, order: seq<NodeId>)
    ensures Tallied(nodes, counts, nodeMap, order)
  {
    counts, nodeMap, order := map[], map[], [];
    for i := 0 to |nodes|
      invariant Tallied(nodes[..i], counts, nodeMap, order)
    {
      var v := nodes[i].id;
      assert nodes[..i + 1] == nodes[..i] + [nodes[i]];
      TallyOne(nodes[..i], counts, nodeMap, order, nodes[i]);
      if v !in counts { order := order + [v]; }
      counts := counts[v := CountOf(counts, v) + 1];
      nodeMap := nodeMap[v := nodes[i]];
    }
    assert nodes[..|nodes|] == nodes;
  }

  method CollectInterior(paths: seq<AttackPath>) returns (nodes: seq<Node>)
    ensures nodes == AllInterior(paths)
  {
    nodes := [];
    for i := 0 to |paths|
      invariant nodes == AllInterior(paths[..i])
    {
      assert paths[..i + 1][..i] == paths[..i];
      nodes := nodes + Interior(paths[i]);
    }
    assert paths[..|paths|] == paths;
  }

  /** Counter.most_common(10). */
  method MostCommon(counts: map<NodeId, nat>, order: seq<NodeId>) returns (top: seq<NodeId>)
    requires Distinct(order) && forall v :: v in order <==> v in counts
    ensures |top| <= 10 && Distinct(top) && (forall i :: 0 <= i < |top| ==> top[i] in counts)
    ensures forall i, j :: 0 <= i < j < |top| ==> CountOf(counts, top[i]) >= CountOf(counts, top[j])
    ensures forall v :: v in counts && v !in top ==>
      |top| == 10 && forall i :: 0 <= i < 10 ==> CountOf(counts, top[i]) >= CountOf(counts, v)
  {
    var le := ByCount(counts);
    var common := StableSort(order, le);
    SortOrdered(order, le);
    SortDistinct(order, le);
    forall v ensures v in common <==> v in counts { SortMember(order, le, v); }
    top := if |common| <= 10 then common else common[..10];
    TopOfSorted(counts, common, top);
  }

  lemma TopOfSorted(counts: map<NodeId, nat>, common: seq<NodeId>, top: seq<NodeId>)
    requires Ordered(common, ByCount(counts)) && (forall v :: v in common <==> v in counts)
    requires top == if |common| <= 10 then common else common[..10]
    ensures forall i :: 0 <= i < |top| ==> top[i] in counts
    ensures forall i, j :: 0 <= i < j < |top| ==> CountOf(counts, top[i]) >= CountOf(counts, top[j])
    ensures forall v :: v in counts && v !in top ==>
      |top| == 10 && forall i :: 0 <= i < 10 ==> CountOf(counts, top[i]) >= CountOf(counts, v)
  {
    forall i, j | 0 <= i < j < |common| ensures CountOf(counts, common[i]) >= CountOf(counts, common[j]) {
      assert ByCount(counts)(common[i], common[j]);
    }
    forall i | 0 <= i < |top| ensures top[i] in counts { assert common[i] in common; }
    forall v | v in counts && v !in top
      ensures |top| == 10 && forall i :: 0 <= i < 10 ==> CountOf(counts, top[i]) >= CountOf(counts, v)
    {
      var k :| 0 <= k < |common| && common[k] == v;
      assert k >= 10;
    }
  }

  function Ratio(count: nat, total: nat): real
    requires total > 0
  {
    count as real / total as real
  }

  /** An interior node with its count and its share of the paths. */
  ghost predicate Counted(paths: seq<AttackPath>, c: Chokepoint) {
    && c.node in AllInterior(paths) && c.blocked == Occurrences(paths, c.node.id) > 0
    && paths != [] && c.score == Ratio(c.blocked, |paths|)
  }

  /** The loop that turns the top counts into chokepoints. */
  method MakeChokepoints(top: seq<NodeId>, counts: map<NodeId, nat>, nodeMap: map<NodeId, Node>, total: nat)
    returns (cs: seq<Chokepoint>)
    requires total > 0 && forall i :: 0 <= i < |top| ==> top[i] in counts && top[i] in nodeMap
    ensures |cs| == |top| && forall i :: 0 <= i < |cs| ==> Stated(cs[i], top[i], counts, nodeMap, total)
  {
    cs := [];
    for i := 0 to |top|
      invariant |cs| == i && forall k :: 0 <= k < i ==> Stated(cs[k], top[k], counts, nodeMap, total)
    {
      var v := top[i];
      cs := cs + [Chokepoint(nodeMap[v], counts[v], Ratio(counts[v], total))];
    }
  }

  /**
   * find_chokepoints: at most ten distinct interior nodes, most frequent first; no node left out is
   * more frequent than a reported one, and nodes are left out only when ten are reported.
   */
  method FindChokepoints(paths: seq<AttackPath>) returns (cs: seq<Chokepoint>)
    ensures |cs| <= 10 && forall i :: 0 <= i < |cs| ==> Counted(paths, cs[i])
    ensures forall i, j :: 0 <= i < j < |cs| ==> cs[i].node.id != cs[j].node.id && cs[i].blocked >= cs[j].blocked
    ensures forall v :: Occurrences(paths, v) > 0 ==> Covered(paths, cs, v)
  {
    var inside := CollectInterior(paths);
    var counts, nodeMap, order := CountNodes(inside);
    var top := MostCommon(counts, order);
    cs := MakeChokepoints(top, counts, nodeMap, if paths == [] then 1 else |paths|);
    forall i | 0 <= i < |cs|
      ensures Counted(paths, cs[i]) && cs[i].node.id == top[i] && cs[i].blocked == CountOf(counts, top[i])
    {
      StatedIsCounted(paths, cs[i], top[i], counts, nodeMap);
    }
    forall v | Occurrences(paths, v) > 0 ensures Covered(paths, cs, v) {
      CoveredByTop(paths, cs, v, counts, top);
    }
  }

  /** v is reported, or ten nodes are and none of them is less frequent than v. */
  ghost predicate Covered(paths: seq<AttackPath>, cs: seq<Chokepoint>, v: NodeId) {
    || (exists i :: 0 <= i < |cs| && cs[i].node.id == v)
    || (|cs| == 10 && forall i :: 0 <= i < |cs| ==> cs[i].blocked >= Occurrences(paths, v))
  }

  lemma CoveredByTop(paths: seq<AttackPath>, cs: seq<Chokepoint>, v: NodeId, counts: map<NodeId, nat>, top: seq<NodeId>)
    requires |cs| == |top| && forall i :: 0 <= i < |cs| ==>
        cs[i].node.id == top[i] && cs[i].blocked == CountOf(counts, top[i])
    requires v !in top ==> |top| == 10 && forall i :: 0 <= i < 10 ==> CountOf(counts, top[i]) >= CountOf(counts, v)
    requires CountOf(counts, v) == Occurrences(paths, v)
    ensures Covered(paths, cs, v)
  {
    if v in top {
      var k :| 0 <= k < |top| && top[k] == v;
      assert cs[k].node.id == v;
    }
  }

  ghost predicate Stated(c: Chokepoint, v: NodeId, counts: map<NodeId, nat>, nodeMap: map<NodeId, Node>, total: nat)
    requires total > 0
  {
    v in counts && v in nodeMap && c == Chokepoint(nodeMap[v], counts[v], Ratio(counts[v], total))
  }

  lemma {:induction false} StatedIsCounted(
    paths: seq<AttackPath>, c: Chokepoint, v: NodeId, counts: map<NodeId, nat>, nodeMap: map<NodeId, Node>)
    requires Stated(c, v, counts, nodeMap, if paths == [] then 1 else |paths|)
    requires CountOf(counts, v) == Occurrences(paths, v) && counts[v] > 0
    requires nodeMap[v].id == v && nodeMap[v] in AllInterior(paths)
    ensures Counted(paths, c) && c.node.id == v && c.blocked == CountOf(counts, v)
  {
  }

  // ---------------------------------------------------------------- counts are path counts

  lemma IdsOfAppend(a: seq<Node>, b: seq<Node>)
    ensures IdsOf(a + b) == IdsOf(a) + IdsOf(b)
  {
  }

  lemma InteriorOnce(p: AttackPath, v: NodeId)
    requires Distinct(Ids(p))
    ensures multiset(IdsOf(Interior(p)))[v] == if StrictlyInside(p, v) then 1 else 0
  {
    var s := IdsOf(Interior(p));
    if |p.nodes| > 2 {
      forall i, j | 0 <= i < j < |s| ensures s[i] != s[j] { assert s[i] == Ids(p)[i + 1] && s[j] == Ids(p)[j + 1]; }
    }
    DistinctCounts(s);
    if StrictlyInside(p, v) { assert v in multiset(s); }
  }

  /**
   * Because paths are simple, a node's count is the number of listed paths with that node strictly
   * inside, so it never exceeds the number of paths.
   */
  lemma {:induction false} CountsArePathCounts(paths: seq<AttackPath>, v: NodeId)
    requires SimpleListing(paths)
    ensures Occurrences(paths, v) == PathsThrough(paths, v) <= |paths|
  {
    if paths != [] {
      var before, p := paths[..|paths| - 1], paths[|paths| - 1];
      CountsArePathCounts(before, v);
      IdsOfAppend(AllInterior(before), Interior(p));
      InteriorOnce(p, v);
    }
  }

  lemma {:induction false} InteriorSize(paths: seq<AttackPath>)
    requires SimpleListing(paths)
    ensures |AllInterior(paths)| == LengthsMinusOne(paths)
  {
    if paths != [] { InteriorSize(paths[..|paths| - 1]); }
  }

  /** Conservation: the counts of all nodes add up to the sum of path length minus one. */
  lemma CountsAddUp(paths: seq<AttackPath>, vs: seq<NodeId>)
    requires SimpleListing(paths) && Distinct(vs)
    requires forall v :: v in IdsOf(AllInterior(paths)) ==> v in vs
    ensures SumOver(vs, multiset(IdsOf(AllInterior(paths)))) == LengthsMinusOne(paths)
  {
    var m := multiset(IdsOf(AllInterior(paths)));
    forall v | v in m ensures v in vs { assert v in IdsOf(AllInterior(paths)); }
    SumIsSize(vs, m);
    InteriorSize(paths);
  }

  lemma ReportedAreSimple(g: Graph, depth: int, limit: int)
    requires WellFormed(g)
    ensures SimpleListing(RankedPaths(g, depth, limit))
  {
    forall i | 0 <= i < |RankedPaths(g, depth, limit)|
      ensures var p := RankedPaths(g, depth, limit)[i];
        Distinct(Ids(p)) && |p.nodes| >= 2 && p.length == |p.nodes| - 1
    {
      ReportedAreRoutes(g, depth, limit, RankedPaths(g, depth, limit)[i]);
    }
  }

  lemma RatioBounds(count: nat, total: nat)
    requires 0 < count <= total
    ensures 0.0 < Ratio(count, total) <= 1.0 && Ratio(count, total) * total as real == count as real
  {
    var c, t := count as real, total as real;
    assert c / t * t == c;
  }

  /** Over the reported paths a chokepoint blocks as many paths as it says, and its score is their share of all. */
  lemma {:induction false} BlockedIsTrue(g: Graph, depth: int, limit: int, c: Chokepoint)
    requires WellFormed(g) && Counted(RankedPaths(g, depth, limit), c)
    ensures c.blocked == PathsThrough(RankedPaths(g, depth, limit), c.node.id) && 0.0 < c.score <= 1.0
    ensures c.score * |RankedPaths(g, depth, limit)| as real == c.blocked as real
  {
    hide RankedPaths, Occurrences, AllInterior, PathsThrough, SimpleListing, Ratio;
    var paths := RankedPaths(g, depth, limit);
    ReportedAreSimple(g, depth, limit);
    CountsArePathCounts(paths, c.node.id);
    RatioBounds(c.blocked, |paths|);
  }
}
