/** Python's stable sort, as a function, and the three facts that determine its result. */
module Sorting {
  import opened Sequences

  ghost predicate TotalPreorder<T(!new)>(le: (T, T) -> bool) {
    && (forall x, y :: le(x, y) || le(y, x))
    && (forall x, y, z :: le(x, y) && le(y, z) ==> le(x, z))
  }

  ghost predicate Ordered<T>(s: seq<T>, le: (T, T) -> bool) {
    forall i, j :: 0 <= i < j < |s| ==> le(s[i], s[j])
  }

  /** The members of s that tie with x, in their order. */
  function Ties<T>(s: seq<T>, x: T, le: (T, T) -> bool): seq<T> {
    Filter(s, y => le(x, y) && le(y, x))
  }

  function Insert<T>(x: T, s: seq<T>, le: (T, T) -> bool): seq<T> {
    if s == [] || le(x, s[0]) then [x] + s else [s[0]] + Insert(x, s[1..], le)
  }

  function StableSort<T>(s: seq<T>, le: (T, T) -> bool): seq<T> {
    if s == [] then [] else Insert(s[0], StableSort(s[1..], le), le)
  }

  lemma {:induction false} InsertKeeps<T>(x: T, s: seq<T>, le: (T, T) -> bool)
    ensures multiset(Insert(x, s, le)) == multiset([x]) + multiset(s)
    ensures |Insert(x, s, le)| == |s| + 1
  {
    if s != [] && !le(x, s[0]) {
      InsertKeeps(x, s[1..], le);
      assert s == [s[0]] + s[1..];
    }
  }

  lemma {:induction false} InsertOrdered<T(!new)>(x: T, s: seq<T>, le: (T, T) -> bool)
    requires TotalPreorder(le) && Ordered(s, le)
    ensures Ordered(Insert(x, s, le), le)
  {
    if s != [] && !le(x, s[0]) {
      var r := Insert(x, s[1..], le);
      InsertOrdered(x, s[1..], le);
      InsertKeeps(x, s[1..], le);
      forall j | 0 <= j < |r| ensures le(s[0], r[j]) {
        assert r[j] in multiset(r);
        assert r[j] == x || r[j] in s[1..];
      }
    } else if s != [] {
      forall j | 0 <= j < |s| ensures le(x, s[j]) {
        assert j == 0 || le(s[0], s[j]);
      }
    }
  }

  lemma {:induction false} InsertTies<T(!new)>(x: T, s: seq<T>, c: T, le: (T, T) -> bool)
    requires TotalPreorder(le) && Ordered(s, le)
    ensures Ties(Insert(x, s, le), c, le) == Ties([x] + s, c, le)
  {
    hide Filter;
    if s != [] && !le(x, s[0]) {
      var h, r := s[0], Insert(x, s[1..], le);
      InsertTies(x, s[1..], c, le);
      TiesCons(h, r, c, le);
      TiesCons(x, s[1..], c, le);
      TiesCons(x, s, c, le);
      TiesCons(h, s[1..], c, le);
      assert s == [h] + s[1..];
      // x and h cannot both tie with c, because h comes strictly before x.
      assert !le(x, c) || !le(c, h);
    }
  }

  lemma TiesCons<T>(x: T, s: seq<T>, c: T, le: (T, T) -> bool)
    ensures Ties([x] + s, c, le) == (if le(c, x) && le(x, c) then [x] else []) + Ties(s, c, le)
  {
    assert ([x] + s)[1..] == s;
  }

  lemma {:induction false} SortKeeps<T>(s: seq<T>, le: (T, T) -> bool)
    ensures multiset(StableSort(s, le)) == multiset(s)
    ensures |StableSort(s, le)| == |s|
  {
    if s != [] {
      SortKeeps(s[1..], le);
      InsertKeeps(s[0], StableSort(s[1..], le), le);
      assert s == [s[0]] + s[1..];
    }
  }

  lemma {:induction false} SortOrdered<T(!new)>(s: seq<T>, le: (T, T) -> bool)
    requires TotalPreorder(le)
    ensures Ordered(StableSort(s, le), le)
  {
    if s != [] {
      SortOrdered(s[1..], le);
      InsertOrdered(s[0], StableSort(s[1..], le), le);
    }
  }

  lemma {:induction false} SortStable<T(!new)>(s: seq<T>, c: T, le: (T, T) -> bool)
    requires TotalPreorder(le)
    ensures Ties(StableSort(s, le), c, le) == Ties(s, c, le)
  {
    if s != [] {
      var r := StableSort(s[1..], le);
      SortStable(s[1..], c, le);
      SortOrdered(s[1..], le);
      InsertTies(s[0], r, c, le);
      assert ([s[0]] + r)[1..] == r;
    }
  }

  lemma SortMember<T>(s: seq<T>, le: (T, T) -> bool, x: T)
    ensures x in StableSort(s, le) <==> x in s
  {
    SortKeeps(s, le);
    assert x in s <==> x in multiset(s);
    assert x in StableSort(s, le) <==> x in multiset(StableSort(s, le));
  }

  /** A list without repetitions stays without repetitions. */
  lemma SortDistinct<T>(s: seq<T>, le: (T, T) -> bool)
    requires Distinct(s)
    ensures Distinct(StableSort(s, le))
  {
    SortKeeps(s, le);
    DistinctCounts(s);
    CountsDistinct(StableSort(s, le));
  }

  lemma {:induction false} DistinctCounts<T>(s: seq<T>)
    requires Distinct(s)
    ensures forall x :: x in multiset(s) ==> multiset(s)[x] == 1
  {
    if s != [] {
      assert s == [s[0]] + s[1..];
      DistinctCounts(s[1..]);
      assert s[0] !in s[1..];
    }
  }

  lemma {:induction false} CountsDistinct<T>(s: seq<T>)
    requires forall x :: x in multiset(s) ==> multiset(s)[x] == 1
    ensures Distinct(s)
  {
    if s != [] {
      assert s == [s[0]] + s[1..];
      assert multiset(s)[s[0]] == 1 + multiset(s[1..])[s[0]];
      assert s[0] !in s[1..];
      forall x | x in multiset(s[1..]) ensures multiset(s[1..])[x] == 1 {
        assert multiset(s)[x] == multiset([s[0]])[x] + multiset(s[1..])[x];
      }
      CountsDistinct(s[1..]);
      forall i, j | 0 <= i < j < |s| ensures s[i] != s[j] {
        assert s[j] == s[1..][j - 1];
        if i > 0 { assert s[i] == s[1..][i - 1]; }
      }
    }
  }
}
