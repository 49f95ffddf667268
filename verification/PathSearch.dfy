/**
 * Bounded simple-path enumeration, as networkx's all_simple_paths does it: a depth-first search in
 * adjacency order that never revisits a node of the current path and never goes past its target.
 */
module PathSearch {
  import opened Sequences

  /** Adjacency lists, in insertion order. */
  type Adjacency<V> = map<V, seq<V>>

  ghost predicate SimpleLists<V(!new)>(succ: Adjacency<V>) { forall v :: v in succ ==> Distinct(succ[v]) }

  predicate Edge<V(==)>(succ: Adjacency<V>, u: V, v: V) { u in succ && v in succ[u] }

  ghost predicate Walks<V>(succ: Adjacency<V>, p: seq<V>) {
    forall i :: 0 <= i < |p| - 1 ==> Edge(succ, p[i], p[i + 1])
  }

  /** A simple path from s to t of at most cutoff edges. */
  ghost predicate SimplePath<V>(succ: Adjacency<V>, p: seq<V>, s: V, t: V, cutoff: int) {
    && p != [] && p[0] == s && p[|p| - 1] == t && |p| - 1 <= cutoff
    && Distinct(p) && Walks(succ, p)
  }

  /** A simple path from u to t of at most depth edges that avoids the nodes in seen after u. */
  ghost predicate Extension<V>(succ: Adjacency<V>, p: seq<V>, u: V, t: V, seen: set<V>, depth: nat) {
    && SimplePath(succ, p, u, t, depth)
    && forall i :: 1 <= i < |p| ==> p[i] !in seen
  }

  function Prefixed<V>(u: V, ps: seq<seq<V>>): seq<seq<V>> {
    seq(|ps|, i requires 0 <= i < |ps| => [u] + ps[i])
  }

  /** All extensions from u, whose path so far is seen (with u in it). */
  function Search<V(==)>(succ: Adjacency<V>, u: V, t: V, seen: set<V>, depth: nat): seq<seq<V>>
    decreases depth, 1, 0
  {
    if u == t then [[u]]
    else if depth == 0 || u !in succ then []
    else SearchKids(succ, u, succ[u], t, seen, depth)
  }

  function SearchKids<V(==)>(succ: Adjacency<V>, u: V, kids: seq<V>, t: V, seen: set<V>, depth: nat): seq<seq<V>>
    requires depth > 0
    decreases depth, 0, |kids|
  {
    if kids == [] then []
    else
      (if kids[0] in seen then [] else Prefixed(u, Search(succ, kids[0], t, seen + {kids[0]}, depth - 1)))
      + SearchKids(succ, u, kids[1..], t, seen, depth)
  }

  /** all_simple_paths(graph, s, t, cutoff) for s != t; a cutoff below 1 gives nothing. */
  function AllSimplePaths<V(==)>(succ: Adjacency<V>, s: V, t: V, cutoff: int): seq<seq<V>> {
    if cutoff < 1 then [] else Search(succ, s, t, {s}, cutoff)
  }

  lemma {:induction false} SearchSound<V>(succ: Adjacency<V>, u: V, t: V, seen: set<V>, depth: nat, p: seq<V>)
    requires u in seen && p in Search(succ, u, t, seen, depth)
    ensures Extension(succ, p, u, t, seen, depth)
    decreases depth, 1, 0
  {
    if u != t {
      KidsSound(succ, u, succ[u], t, seen, depth, p);
    }
  }

  lemma {:induction false} KidsSound<V>(
    succ: Adjacency<V>, u: V, kids: seq<V>, t: V, seen: set<V>, depth: nat, p: seq<V>)
    requires u in seen && u != t && depth > 0 && u in succ && (forall v :: v in kids ==> v in succ[u])
    requires p in SearchKids(succ, u, kids, t, seen, depth)
    ensures Extension(succ, p, u, t, seen, depth) && |p| > 1 && p[1] in kids
    decreases depth, 0, |kids|
  {
    var rest := SearchKids(succ, u, kids[1..], t, seen, depth);
    if p in rest {
      KidsSound(succ, u, kids[1..], t, seen, depth, p);
    } else {
      var v := kids[0];
      var ps := Search(succ, v, t, seen + {v}, depth - 1);
      var i :| 0 <= i < |ps| && p == [u] + ps[i];
      SearchSound(succ, v, t, seen + {v}, depth - 1, ps[i]);
      forall j | 1 <= j < |p| ensures p[j] !in seen { assert p[j] == ps[i][j - 1]; }
      forall j | 0 <= j < |p| - 1 ensures Edge(succ, p[j], p[j + 1]) {
        if j > 0 { assert Edge(succ, ps[i][j - 1], ps[i][j]); }
      }
    }
  }

  lemma {:induction false} SearchComplete<V>(succ: Adjacency<V>, u: V, t: V, seen: set<V>, depth: nat, p: seq<V>)
    requires u in seen && Extension(succ, p, u, t, seen, depth)
    ensures p in Search(succ, u, t, seen, depth)
    decreases depth, 1, 0
  {
    if u == t {
      assert |p| == 1;
      assert p == [u];
    } else {
      assert Edge(succ, p[0], p[1]);
      KidsComplete(succ, u, succ[u], t, seen, depth, p);
    }
  }

  lemma {:induction false} KidsComplete<V>(
    succ: Adjacency<V>, u: V, kids: seq<V>, t: V, seen: set<V>, depth: nat, p: seq<V>)
    requires u in seen && depth > 0 && Extension(succ, p, u, t, seen, depth)
    requires |p| > 1 && p[1] in kids
    ensures p in SearchKids(succ, u, kids, t, seen, depth)
    decreases depth, 0, |kids|
  {
    if p[1] == kids[0] {
      var v, q := kids[0], p[1..];
      forall j | 0 <= j < |q| - 1 ensures Edge(succ, q[j], q[j + 1]) { assert Edge(succ, p[j + 1], p[j + 2]); }
      SearchComplete(succ, v, t, seen + {v}, depth - 1, q);
      var ps := Search(succ, v, t, seen + {v}, depth - 1);
      var i :| 0 <= i < |ps| && ps[i] == q;
      assert Prefixed(u, ps)[i] == p;
    } else {
      KidsComplete(succ, u, kids[1..], t, seen, depth, p);
    }
  }

  lemma {:induction false} SearchDistinct<V(!new)>(succ: Adjacency<V>, u: V, t: V, seen: set<V>, depth: nat)
    requires SimpleLists(succ) && u in seen
    ensures Distinct(Search(succ, u, t, seen, depth))
    decreases depth, 1, 0
  {
    if u != t && depth > 0 && u in succ {
      KidsDistinct(succ, u, succ[u], t, seen, depth);
    }
  }

  lemma {:induction false} KidsDistinct<V(!new)>(
    succ: Adjacency<V>, u: V, kids: seq<V>, t: V, seen: set<V>, depth: nat)
    requires SimpleLists(succ) && u in seen && u != t && depth > 0 && u in succ
    requires Distinct(kids) && forall v :: v in kids ==> v in succ[u]
    ensures Distinct(SearchKids(succ, u, kids, t, seen, depth))
    decreases depth, 0, |kids|
  {
    hide Search, Prefixed, SimpleLists;
    if kids != [] {
      var v := kids[0];
      var rest := SearchKids(succ, u, kids[1..], t, seen, depth);
      var ps := Search(succ, v, t, seen + {v}, depth - 1);
      var first := if v in seen then [] else Prefixed(u, ps);
      KidsDistinct(succ, u, kids[1..], t, seen, depth);
      SearchDistinct(succ, v, t, seen + {v}, depth - 1);
      PrefixedDistinct(u, ps);
      forall i, j | 0 <= i < |first| && 0 <= j < |rest| ensures first[i] != rest[j] {
        KidsApart(succ, u, v, kids[1..], t, seen, depth, i, j);
      }
      DistinctAppend(first, rest);
    }
  }

  lemma PrefixedDistinct<V>(u: V, ps: seq<seq<V>>)
    requires Distinct(ps)
    ensures Distinct(Prefixed(u, ps))
  {
    forall i, j | 0 <= i < j < |ps| ensures Prefixed(u, ps)[i] != Prefixed(u, ps)[j] {
      assert Prefixed(u, ps)[i][1..] == ps[i] && Prefixed(u, ps)[j][1..] == ps[j];
    }
  }

  /** Paths through one child differ from those through the others: their second nodes do. */
  lemma KidsApart<V(!new)>(
    succ: Adjacency<V>, u: V, v: V, others: seq<V>, t: V, seen: set<V>, depth: nat, i: nat, j: nat)
    requires u in seen && u != t && depth > 0 && u in succ && v !in others
    requires forall x :: x in others ==> x in succ[u]
    requires i < |Prefixed(u, Search(succ, v, t, seen + {v}, depth - 1))|
    requires j < |SearchKids(succ, u, others, t, seen, depth)|
    ensures Prefixed(u, Search(succ, v, t, seen + {v}, depth - 1))[i] != SearchKids(succ, u, others, t, seen, depth)[j]
  {
    hide Search, SearchKids;
    var ps, rest := Search(succ, v, t, seen + {v}, depth - 1), SearchKids(succ, u, others, t, seen, depth);
    SearchSound(succ, v, t, seen + {v}, depth - 1, ps[i]);
    KidsSound(succ, u, others, t, seen, depth, rest[j]);
    assert Prefixed(u, ps)[i][1] == v;
  }

  lemma DistinctAppend<T>(a: seq<T>, b: seq<T>)
    requires Distinct(a) && Distinct(b)
    requires forall i, j :: 0 <= i < |a| && 0 <= j < |b| ==> a[i] != b[j]
    ensures Distinct(a + b)
  {
  }

  /**
   * The search is exact: it yields the simple paths from s to t of at most cutoff edges, all of
   * them, each once.
   */
  lemma SearchExact<V(!new)>(succ: Adjacency<V>, s: V, t: V, cutoff: int)
    requires SimpleLists(succ) && s != t
    ensures Distinct(AllSimplePaths(succ, s, t, cutoff))
    ensures forall p :: p in AllSimplePaths(succ, s, t, cutoff) <==> SimplePath(succ, p, s, t, cutoff)
  {
    if cutoff >= 1 {
      SearchDistinct(succ, s, t, {s}, cutoff);
      forall p ensures p in AllSimplePaths(succ, s, t, cutoff) <==> SimplePath(succ, p, s, t, cutoff) {
        if p in AllSimplePaths(succ, s, t, cutoff) { SearchSound(succ, s, t, {s}, cutoff, p); }
        if SimplePath(succ, p, s, t, cutoff) { SearchComplete(succ, s, t, {s}, cutoff, p); }
      }
    }
  }
}
