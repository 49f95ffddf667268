/** Python string operations on character sequences. */
module Text {
  predicate OccursAt(s: string, t: string, i: int) {
    0 <= i <= |s| - |t| && s[i..i + |t|] == t
  }

  /** The operator in: t occurs in s. */
  predicate Contains(s: string, t: string) {
    exists i :: 0 <= i <= |s| - |t| && OccursAt(s, t, i)
  }

  /** One character in front of a text that splits into rest. */
  function Lead(x: char, rest: seq<string>, c: char): (segments: seq<string>)
    requires rest != []
    ensures segments != []
  {
    if x == c then [""] + rest else [[x] + rest[0]] + rest[1..]
  }

  /** s.split(c); the empty string splits into one empty segment. */
  function Split(s: string, c: char): (segments: seq<string>)
    ensures segments != []
  {
    if s == [] then [""] else Lead(s[0], Split(s[1..], c), c)
  }

  /** c.join(segments). */
  function Join(segments: seq<string>, c: char): string
    requires segments != []
  {
    if |segments| == 1 then segments[0] else segments[0] + [c] + Join(segments[1..], c)
  }

  /** y is a run of consecutive elements of x. */
  ghost predicate Sublist<T>(y: seq<T>, x: seq<T>) {
    exists i :: 0 <= i <= |x| - |y| && RunAt(y, x, i)
  }

  ghost predicate RunAt<T>(y: seq<T>, x: seq<T>, i: int) { 0 <= i <= |x| - |y| && x[i..i + |y|] == y }

  lemma SplitCons(x: char, s: string, c: char)
    ensures Split([x] + s, c) == Lead(x, Split(s, c), c)
  {
    assert ([x] + s)[1..] == s;
  }

  lemma LeadAppend(x: char, rest: seq<string>, more: seq<string>, c: char)
    requires rest != []
    ensures Lead(x, rest + more, c) == Lead(x, rest, c) + more
  {
    assert (rest + more)[1..] == rest[1..] + more;
  }

  /** A separator ends one list of segments and starts another. */
  lemma {:induction false} SplitAt(a: string, b: string, c: char)
    ensures Split(a + [c] + b, c) == Split(a, c) + Split(b, c)
  {
    if a == [] {
      assert a + [c] + b == [c] + b;
      SplitCons(c, b, c);
    } else {
      var x, rest := a[0], a[1..];
      assert a == [x] + rest;
      SplitAt(rest, b, c);
      SplitCons(x, rest, c);
      SplitCons(x, rest + [c] + b, c);
      LeadAppend(x, Split(rest, c), Split(b, c), c);
      assert a + [c] + b == [x] + (rest + [c] + b);
    }
  }

  lemma {:induction false} JoinSplit(s: string, c: char)
    ensures Join(Split(s, c), c) == s
  {
    if s != [] {
      JoinSplit(s[1..], c);
      var rest, all := Split(s[1..], c), Split(s, c);
      if s[0] == c {
        assert all[1..] == rest;
      } else {
        assert all[1..] == rest[1..];
        assert Join(all, c) == [s[0]] + Join(rest, c);
      }
    }
  }

  lemma {:induction false} JoinAppend(x: seq<string>, y: seq<string>, c: char)
    requires x != [] && y != []
    ensures Join(x + y, c) == Join(x, c) + [c] + Join(y, c)
  {
    if |x| == 1 {
      assert (x + y)[1..] == y;
    } else {
      assert (x + y)[1..] == x[1..] + y;
      JoinAppend(x[1..], y, c);
    }
  }

  lemma {:induction false} SplitWithout(s: string, c: char)
    requires c !in s
    ensures Split(s, c) == [s]
  {
    if s != [] {
      SplitWithout(s[1..], c);
      assert [s[0]] + s[1..] == s;
    }
  }

  lemma {:induction false} SplitFramed(s: string, c: char)
    ensures Split([c] + s + [c], c) == [""] + Split(s, c) + [""]
  {
    SplitAt("", s + [c], c);
    SplitAt(s, "", c);
    assert [c] + s + [c] == "" + [c] + (s + [c]) && s + [c] == s + [c] + "";
  }

  lemma FramedHasRun(s: string, t: string, c: char, i: nat)
    requires OccursAt([c] + s + [c], [c] + t + [c], i)
    ensures Sublist(Split(t, c), Split(s, c))
  {
    var framed, needle := [c] + s + [c], [c] + t + [c];
    var before, after := framed[..i], framed[i + |needle|..];
    assert framed == before + framed[i..i + |needle|] + after;
    assert framed == before + [c] + (t + [c] + after);
    SplitFramed(s, c);
    SplitAt(before, t + [c] + after, c);
    SplitAt(t, after, c);
    RunInside(Split(before, c), Split(t, c), Split(after, c), Split(s, c), "");
  }

  /** Cutting one element off both ends leaves a run that touches neither inside. */
  lemma RunInside<T>(x: seq<T>, y: seq<T>, z: seq<T>, inner: seq<T>, end: T)
    requires x != [] && z != [] && x + (y + z) == [end] + inner + [end]
    ensures Sublist(y, inner)
  {
    var k := |x| - 1;
    var all := x + (y + z);
    forall j | 0 <= j < |y| ensures inner[k + j] == y[j] {
      assert all[k + 1 + j] == y[j];
    }
    assert inner[k..k + |y|] == y;
    assert RunAt(y, inner, k);
  }

  lemma RunIsFramed(s: string, t: string, c: char, i: nat)
    requires RunAt(Split(t, c), Split(s, c), i)
    ensures Contains([c] + s + [c], [c] + t + [c])
  {
    var framed, parts, all := [c] + s + [c], Split(t, c), Split(s, c);
    var x, z := [""] + all[..i], all[i + |parts|..] + [""];
    SplitFramed(s, c);
    CutRun(all, parts, i, "");
    JoinSplit(framed, c);
    JoinThree(x, t, z, c);
    OccursBetween(Join(x, c), [c] + t + [c], Join(z, c));
  }

  lemma CutRun<T>(all: seq<T>, y: seq<T>, i: nat, end: T)
    requires RunAt(y, all, i)
    ensures [end] + all + [end] == ([end] + all[..i]) + (y + (all[i + |y|..] + [end]))
  {
    assert all == all[..i] + y + all[i + |y|..];
  }

  lemma JoinThree(x: seq<string>, t: string, z: seq<string>, c: char)
    requires x != [] && z != []
    ensures Join(x + (Split(t, c) + z), c) == Join(x, c) + ([c] + t + [c]) + Join(z, c)
  {
    JoinSplit(t, c);
    JoinAppend(x, Split(t, c) + z, c);
    JoinAppend(Split(t, c), z, c);
    var before, after := Join(x, c), Join(z, c);
    assert before + [c] + (t + [c] + after) == before + ([c] + t + [c]) + after;
  }

  lemma OccursBetween(before: string, t: string, after: string)
    ensures Contains(before + t + after, t)
  {
    assert OccursAt(before + t + after, t, |before|);
  }

  /**
   * Between separators, a substring is a run of segments: c + t + c occurs in c + s + c if and only
   * if the segments of t are consecutive segments of s. This holds for all s and t.
   */
  lemma FramedOccurrence(s: string, t: string, c: char)
    ensures Contains([c] + s + [c], [c] + t + [c]) <==> Sublist(Split(t, c), Split(s, c))
  {
    var framed, needle := [c] + s + [c], [c] + t + [c];
    if Contains(framed, needle) {
      var i :| 0 <= i <= |framed| - |needle| && OccursAt(framed, needle, i);
      FramedHasRun(s, t, c, i);
    }
    if Sublist(Split(t, c), Split(s, c)) {
      var i :| 0 <= i <= |Split(s, c)| - |Split(t, c)| && RunAt(Split(t, c), Split(s, c), i);
      RunIsFramed(s, t, c, i);
    }
  }

  lemma SingleSegment<T>(x: T, xs: seq<T>)
    ensures Sublist([x], xs) <==> x in xs
  {
    if x in xs {
      var i :| 0 <= i < |xs| && xs[i] == x;
      assert RunAt([x], xs, i);
    }
    if Sublist([x], xs) {
      var i :| 0 <= i <= |xs| - 1 && RunAt([x], xs, i);
      assert xs[i..i + 1][0] == x;
    }
  }

  /** s.replace(t, "") for a non-empty t. */
  function Remove(s: string, t: string): string
    requires t != []
  {
    if |s| < |t| then s
    else if s[..|t|] == t then Remove(s[|t|..], t)
    else [s[0]] + Remove(s[1..], t)
  }

  function StripLeft(s: string, c: char): string { if s != [] && s[0] == c then StripLeft(s[1..], c) else s }

  function StripRight(s: string, c: char): string
    decreases |s|
  {
    if s != [] && s[|s| - 1] == c then StripRight(s[..|s| - 1], c) else s
  }

  /** s.strip(c). */
  function Strip(s: string, c: char): string { StripRight(StripLeft(s, c), c) }

  function Replaced(s: string, from: char, to: char): string {
    seq(|s|, i requires 0 <= i < |s| => if s[i] == from then to else s[i])
  }

  /** Stripping takes away the given character at both ends and nothing else. */
  lemma {:induction false} StripReads(s: string, c: char) returns (left: nat, right: nat)
    ensures left <= right <= |s| && Strip(s, c) == s[left..right]
    ensures (forall i :: 0 <= i < left ==> s[i] == c) && (forall i :: right <= i < |s| ==> s[i] == c)
    ensures left < right ==> s[left] != c && s[right - 1] != c
  {
    left := StrippedLeft(s, c);
    var t := StripLeft(s, c);
    var n := StrippedRight(t, c);
    right := left + n;
    assert t[..n] == s[left..right];
    forall i | right <= i < |s| ensures s[i] == c { assert s[i] == t[i - left]; }
  }

  lemma {:induction false} StrippedLeft(s: string, c: char) returns (n: nat)
    ensures n <= |s| && StripLeft(s, c) == s[n..] && (forall i :: 0 <= i < n ==> s[i] == c)
    ensures n < |s| ==> s[n] != c
  {
    n := 0;
    if s != [] && s[0] == c {
      n := StrippedLeft(s[1..], c);
      assert s[1..][n..] == s[n + 1..];
      n := n + 1;
    }
  }

  lemma {:induction false} StrippedRight(s: string, c: char) returns (n: nat)
    ensures n <= |s| && StripRight(s, c) == s[..n] && (forall i :: n <= i < |s| ==> s[i] == c)
    ensures n > 0 ==> s[n - 1] != c
    decreases |s|
  {
    n := |s|;
    if s != [] && s[|s| - 1] == c {
      var before := s[..|s| - 1];
      n := StrippedRight(before, c);
      assert before[..n] == s[..n];
    }
  }

  /** Lower case of the ASCII letters. */
  function Lower(s: string): string {
    seq(|s|, i requires 0 <= i < |s| => if 'A' <= s[i] <= 'Z' then s[i] - 'A' + 'a' else s[i])
  }
}
