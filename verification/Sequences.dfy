/** Facts about sequences that several components share. */
module Sequences {
  datatype Option<+T> = None | Some(value: T)

  ghost predicate Distinct<T>(s: seq<T>) {
    forall i, j :: 0 <= i < j < |s| ==> s[i] != s[j]
  }

  function Flatten<T>(ss: seq<seq<T>>): seq<T> {
    if ss == [] then [] else ss[0] + Flatten(ss[1..])
  }

  lemma {:induction false} FlattenSnoc<T>(ss: seq<seq<T>>, s: seq<T>)
    ensures Flatten(ss + [s]) == Flatten(ss) + s
  {
    if ss == [] {
      assert ss + [s] == [s];
      assert Flatten([s]) == s + Flatten([]);
    } else {
      assert (ss + [s])[1..] == ss[1..] + [s];
      FlattenSnoc(ss[1..], s);
    }
  }

  lemma {:induction false} FlattenAppend<T>(a: seq<seq<T>>, b: seq<seq<T>>)
    ensures Flatten(a + b) == Flatten(a) + Flatten(b)
  {
    if a == [] {
      assert a + b == b;
    } else {
      assert (a + b)[1..] == a[1..] + b;
      FlattenAppend(a[1..], b);
    }
  }

  /** An element of a flattened list comes from one of the lists, and every such element is in it. */
  lemma {:induction false} FlattenMember<T>(ss: seq<seq<T>>, x: T)
    ensures x in Flatten(ss) <==> exists k :: 0 <= k < |ss| && x in ss[k]
  {
    if ss != [] {
      FlattenMember(ss[1..], x);
      assert ss == [ss[0]] + ss[1..];
      if x in Flatten(ss[1..]) {
        var k :| 0 <= k < |ss[1..]| && x in ss[1..][k];
        assert x in ss[k + 1];
      }
    }
  }

  /** Drops the first occurrence of x; a list without x is returned as it is. */
  function RemoveFirst<T(==)>(s: seq<T>, x: T): seq<T> {
    if s == [] then []
    else if s[0] == x then s[1..]
    else [s[0]] + RemoveFirst(s[1..], x)
  }

  lemma {:induction false} RemoveFirstMember<T>(s: seq<T>, x: T, y: T)
    requires y in RemoveFirst(s, x)
    ensures y in s
  {
    if s != [] && s[0] != x && y != s[0] {
      RemoveFirstMember(s[1..], x, y);
    }
  }

  function Filter<T>(s: seq<T>, keep: T -> bool): seq<T> {
    if s == [] then [] else (if keep(s[0]) then [s[0]] else []) + Filter(s[1..], keep)
  }

  /** The positions at which p holds. */
  function Where<T>(s: seq<T>, p: T -> bool): set<int> { set i | 0 <= i < |s| && p(s[i]) }

  lemma NoneWhere<T>(s: seq<T>, p: T -> bool)
    requires s == []
    ensures Where(s, p) == {}
  {
  }

  lemma WhereSnoc<T>(s: seq<T>, x: T, p: T -> bool)
    ensures |Where(s + [x], p)| == |Where(s, p)| + if p(x) then 1 else 0
  {
    var more := s + [x];
    assert Where(more, p) == Where(s, p) + if p(x) then {|s|} else {} by {
      assert forall i :: 0 <= i < |s| ==> more[i] == s[i];
    }
  }

  /** The multiplicities of the listed elements, added up. */
  function SumOver<T>(vs: seq<T>, m: multiset<T>): nat {
    if vs == [] then 0 else m[vs[0]] + SumOver(vs[1..], m)
  }

  /** Over a list that names every element once, the multiplicities add up to the size. */
  lemma {:induction false} SumIsSize<T>(vs: seq<T>, m: multiset<T>)
    requires Distinct(vs) && forall v :: v in m ==> v in vs
    ensures SumOver(vs, m) == |m|
  {
    if vs == [] {
      assert m == multiset{};
    } else {
      var rest := m[vs[0] := 0];
      SumIsSize(vs[1..], rest);
      SumSame(vs[1..], m, rest);
    }
  }

  lemma {:induction false} SumSame<T>(vs: seq<T>, m: multiset<T>, n: multiset<T>)
    requires forall v :: v in vs ==> m[v] == n[v]
    ensures SumOver(vs, m) == SumOver(vs, n)
  {
    if vs != [] { SumSame(vs[1..], m, n); }
  }
}
