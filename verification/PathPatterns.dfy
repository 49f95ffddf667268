/**
 * File-path matching: include and exclude patterns (backend/scr/tools/repo_acquirer.py) and the
 * whole-segment test of the path heuristics (backend/scr/tools/sast_runner_heuristics.py).
 */
module PathPatterns {
  import opened Text

  function Normalized(pattern: string): string {
    Strip(Remove(Remove(pattern, "**/"), "/**"), '/')
  }

  /** _path_matches_pattern; glob is the answer of fnmatch. */
  predicate PathMatches(path: string, pattern: string, glob: bool) {
    glob || (
      var n := Normalized(pattern);
      n != "" && (n in Split(path, '/') || Contains("/" + path + "/", "/" + n + "/")))
  }

  /**
   * A pattern matches, beyond its glob, exactly the paths in which its segments appear as
   * consecutive components; the component test adds nothing to the substring test.
   */
  lemma MatchesRunOfComponents(path: string, pattern: string, glob: bool)
    ensures var n := Normalized(pattern);
      PathMatches(path, pattern, glob) <==> glob || (n != "" && Sublist(Split(n, '/'), Split(path, '/')))
    ensures var n := Normalized(pattern);
      '/' !in n ==> (n in Split(path, '/') <==> Contains("/" + path + "/", "/" + n + "/"))
  {
    var n := Normalized(pattern);
    FramedOccurrence(path, n, '/');
    assert "/" + path + "/" == ['/'] + path + ['/'] && "/" + n + "/" == ['/'] + n + ['/'];
    if '/' !in n {
      SplitWithout(n, '/');
      SingleSegment(n, Split(path, '/'));
    } else if n in Split(path, '/') {
      SegmentsAreFree(path, '/', n);
    }
  }

  lemma {:induction false} SegmentsAreFree(s: string, c: char, segment: string)
    requires segment in Split(s, c)
    ensures c !in segment
  {
    if s != [] {
      var rest := Split(s[1..], c);
      SegmentsAreFree(s[1..], c, rest[0]);
      if segment in rest { SegmentsAreFree(s[1..], c, segment); }
    }
  }

  predicate ShouldInclude(path: string, patterns: seq<string>, glob: (string, string) -> bool) {
    patterns == [] || patterns == ["**/*"] || exists p :: p in patterns && PathMatches(path, p, glob(path, p))
  }

  predicate ShouldExclude(path: string, patterns: seq<string>, glob: (string, string) -> bool) {
    exists p :: p in patterns && PathMatches(path, p, glob(path, p))
  }

  /** A pattern of the list matches by its glob, or by its segments standing as consecutive components. */
  ghost predicate SomeMatches(path: string, patterns: seq<string>, glob: (string, string) -> bool) {
    exists i :: 0 <= i < |patterns| && (glob(path, patterns[i]) || (
      Normalized(patterns[i]) != "" && Sublist(Split(Normalized(patterns[i]), '/'), Split(path, '/'))))
  }

  /** An exclude list matches exactly so; an include list too, unless it is empty or the double-star default. */
  lemma ListsMatchExactly(path: string, patterns: seq<string>, glob: (string, string) -> bool)
    ensures ShouldExclude(path, patterns, glob) <==> SomeMatches(path, patterns, glob)
    ensures ShouldInclude(path, patterns, glob) <==>
      patterns == [] || patterns == ["**/*"] || SomeMatches(path, patterns, glob)
  {
    forall i | 0 <= i < |patterns| ensures PathMatches(path, patterns[i], glob(path, patterns[i])) <==>
      glob(path, patterns[i])
      || (Normalized(patterns[i]) != "" && Sublist(Split(Normalized(patterns[i]), '/'), Split(path, '/')))
    {
      MatchesRunOfComponents(path, patterns[i], glob(path, patterns[i]));
    }
    hide PathMatches, Normalized, Split, Sublist;
    if p :| p in patterns && PathMatches(path, p, glob(path, p)) {
      var i :| 0 <= i < |patterns| && patterns[i] == p;
      assert SomeMatches(path, patterns, glob);
    }
  }

  /** Among other patterns the default one loses its meaning: beyond its glob it asks for a component "*". */
  lemma DefaultAmongOthers(path: string)
    ensures PathMatches(path, "**/*", false) <==> "*" in Split(path, '/')
  {
    assert "**/*"[..3] == "**/" && "**/*"[3..] == "*";
    assert Remove("*", "**/") == "*" && Remove("*", "/**") == "*";
    StripFree("*", '/');
    assert Normalized("**/*") == "*";
    MatchesRunOfComponents(path, "**/*", false);
  }

  lemma {:induction false} RemoveTail(n: string)
    requires '/' !in n
    ensures Remove(n + "/**", "/**") == n
  {
    if n == [] {
      assert (n + "/**")[..3] == "/**" && (n + "/**")[3..] == [];
    } else {
      assert (n + "/**")[1..] == n[1..] + "/**";
      assert (n + "/**")[..3][0] == n[0] != "/**"[0];
      RemoveTail(n[1..]);
    }
  }

  lemma {:induction false} NoLeadingStars(n: string)
    requires '*' !in n
    ensures Remove(n + "/**", "**/") == n + "/**"
  {
    if n == [] {
      assert n + "/**" == "/**" && "/**"[1..] == "**" && Remove("**", "**/") == "**";
      assert "/**"[..3][0] != "**/"[0];
    } else {
      assert (n + "/**")[1..] == n[1..] + "/**";
      assert (n + "/**")[..3][0] == n[0] != "**/"[0];
      NoLeadingStars(n[1..]);
    }
  }

  lemma StripFree(n: string, c: char)
    requires c !in n
    ensures Strip(n, c) == n
  {
  }

  /**
   * The usual directory pattern, a name between two double-star wildcards, excludes exactly the paths
   * with that component, where the glob does not already say so.
   */
  lemma DirectoryPattern(path: string, name: string, glob: (string, string) -> bool)
    requires name != "" && '/' !in name && '*' !in name && !glob(path, "**/" + name + "/**")
    ensures ShouldExclude(path, ["**/" + name + "/**"], glob) <==> name in Split(path, '/')
  {
    var pattern := "**/" + name + "/**";
    assert pattern[..3] == "**/" && pattern[3..] == name + "/**";
    assert Remove(pattern, "**/") == Remove(name + "/**", "**/");
    hide Remove, StripLeft, StripRight, Contains, Split;
    NoLeadingStars(name);
    RemoveTail(name);
    StripFree(name, '/');
    assert Normalized(pattern) == name;
    MatchesRunOfComponents(path, pattern, false);
    assert pattern in [pattern];
  }

  lemma {:induction false} NoStars(n: string, t: string)
    requires '*' !in n && t != [] && '*' in t
    ensures Remove(n, t) == n
  {
    if |n| >= |t| {
      var i :| 0 <= i < |t| && t[i] == '*';
      assert n[..|t|][i] == n[i] != '*' by { assert n[i] in n; }
      NoStars(n[1..], t);
    }
  }

  /** Slashes around a name do not matter: it matches the paths with that component. */
  lemma SlashedPattern(path: string, name: string)
    requires name != "" && '/' !in name && '*' !in name
    ensures PathMatches(path, "/" + name + "/", false) <==> name in Split(path, '/')
  {
    var pattern := "/" + name + "/";
    NoStars(pattern, "**/");
    NoStars(pattern, "/**");
    assert pattern[1..] == name + "/" && (name + "/")[..|name|] == name;
    assert StripLeft(pattern, '/') == name + "/" && StripRight(name + "/", '/') == StripRight(name, '/') == name;
    assert Normalized(pattern) == name;
    MatchesRunOfComponents(path, pattern, false);
  }

  // ---------------------------------------------------------------- the heuristics' segment test

  /** A match of (?:^|/)(segment)(?:/|$) at position i; $ also matches before one final newline. */
  predicate SegmentAt(p: string, segment: string, i: int) {
    && 0 <= i <= |p| - |segment| && (i == 0 || p[i - 1] == '/') && p[i..i + |segment|] == segment
    && var j := i + |segment|; j == |p| || p[j] == '/' || (p[j] == '\n' && j + 1 == |p|)
  }

  predicate RegexFinds(p: string, segment: string) {
    exists i :: 0 <= i <= |p| - |segment| && SegmentAt(p, segment, i)
  }

  function NormalizedPath(path: string): string { Strip(Lower(Replaced(path, '\\', '/')), '/') }

  /** PathHeuristicScanner.check_path. */
  predicate CheckPath(path: string, segment: string) { RegexFinds(NormalizedPath(path), Lower(segment)) }

  function Unterminated(p: string): string { if p != [] && p[|p| - 1] == '\n' then p[..|p| - 1] else p }

  lemma RegexIsFramed(p: string, segment: string)
    ensures RegexFinds(p, segment) <==>
      || Contains(['/'] + p + ['/'], ['/'] + segment + ['/'])
      || Contains(['/'] + Unterminated(p) + ['/'], ['/'] + segment + ['/'])
  {
    var q := Unterminated(p);
    var needle := ['/'] + segment + ['/'];
    if RegexFinds(p, segment) {
      var i :| 0 <= i <= |p| - |segment| && SegmentAt(p, segment, i);
      var j := i + |segment|;
      if j == |p| || p[j] == '/' {
        FramedAt(p, segment, i);
      } else {
        FramedAt(q, segment, i);
      }
    }
    if Contains(['/'] + p + ['/'], needle) {
      var i :| 0 <= i <= |p| + 2 - |needle| && OccursAt(['/'] + p + ['/'], needle, i);
      UnframedAt(p, segment, i);
      assert SegmentAt(p, segment, i);
    }
    if Contains(['/'] + q + ['/'], needle) {
      var i :| 0 <= i <= |q| + 2 - |needle| && OccursAt(['/'] + q + ['/'], needle, i);
      UnframedAt(q, segment, i);
      assert p[i..i + |segment|] == q[i..i + |segment|];
      assert SegmentAt(p, segment, i);
    }
  }

  lemma FramedAt(p: string, segment: string, i: nat)
    requires i <= |p| - |segment| && (i == 0 || p[i - 1] == '/') && p[i..i + |segment|] == segment
    requires i + |segment| == |p| || p[i + |segment|] == '/'
    ensures Contains(['/'] + p + ['/'], ['/'] + segment + ['/'])
  {
    var framed := ['/'] + p + ['/'];
    assert framed[i..i + |segment| + 2] == [framed[i]] + p[i..i + |segment|] + [framed[i + |segment| + 1]];
    assert OccursAt(framed, ['/'] + segment + ['/'], i);
  }

  lemma UnframedAt(p: string, segment: string, i: nat)
    requires i <= |p| - |segment| && OccursAt(['/'] + p + ['/'], ['/'] + segment + ['/'], i)
    ensures (i == 0 || p[i - 1] == '/') && p[i..i + |segment|] == segment
    ensures i + |segment| == |p| || p[i + |segment|] == '/'
  {
    var framed, needle := ['/'] + p + ['/'], ['/'] + segment + ['/'];
    var cut := framed[i..i + |needle|];
    assert cut[0] == framed[i] && cut[|needle| - 1] == framed[i + |segment| + 1];
    forall k | 0 <= k < |segment| ensures p[i + k] == segment[k] { assert cut[k + 1] == needle[k + 1]; }
  }

  /**
   * check_path is component membership, for every path and segment: the segment's parts are
   * consecutive components of the normalised path, taken with or without a final newline.
   */
  lemma CheckPathIsMembership(path: string, segment: string)
    ensures var p, s := NormalizedPath(path), Split(Lower(segment), '/');
      CheckPath(path, segment) <==> Sublist(s, Split(p, '/')) || Sublist(s, Split(Unterminated(p), '/'))
    ensures var p := NormalizedPath(path);
      '/' !in Lower(segment) && (p == [] || p[|p| - 1] != '\n') ==>
        (CheckPath(path, segment) <==> Lower(segment) in Split(p, '/'))
  {
    var p, s := NormalizedPath(path), Lower(segment);
    RegexIsFramed(p, s);
    FramedOccurrence(p, s, '/');
    FramedOccurrence(Unterminated(p), s, '/');
    if '/' !in s {
      SplitWithout(s, '/');
      SingleSegment(s, Split(p, '/'));
    }
  }

  /** Two characters the heuristics do not tell apart: letters up to case, and the two slashes. */
  predicate SameToHeuristics(x: char, y: char) {
    || x == y || (x in {'/', '\\'} && y in {'/', '\\'})
    || ('A' <= x <= 'Z' && y == x - 'A' + 'a') || ('A' <= y <= 'Z' && x == y - 'A' + 'a')
  }

  /** check_path does not tell such paths apart, nor segments that differ in case only. */
  lemma CaseAndSlashesDoNotMatter(p: string, q: string, segment: string)
    requires |p| == |q| && forall i :: 0 <= i < |p| ==> SameToHeuristics(p[i], q[i])
    ensures CheckPath(p, segment) == CheckPath(q, segment) == CheckPath(q, Lower(segment))
  {
    hide RegexFinds, StripLeft, StripRight;
    assert Lower(Replaced(p, '\\', '/')) == Lower(Replaced(q, '\\', '/'));
    assert Lower(Lower(segment)) == Lower(segment);
  }

  /** Nor does it matter whether a path starts or ends with a slash. */
  lemma OuterSlashesDoNotMatter(p: string, segment: string)
    ensures CheckPath("/" + p, segment) == CheckPath(p, segment) == CheckPath(p + "/", segment)
  {
    hide RegexFinds;
    var q := Lower(Replaced(p, '\\', '/'));
    assert Lower(Replaced("/" + p, '\\', '/')) == "/" + q && ("/" + q)[1..] == q;
    assert Lower(Replaced(p + "/", '\\', '/')) == q + "/";
    StripTrailing(q, '/');
  }

  lemma {:induction false} StripTrailing(s: string, c: char)
    ensures Strip(s + [c], c) == Strip(s, c)
  {
    if s == [] {
      assert s + [c] == [c] && [c][1..] == [];
    } else if s[0] == c {
      assert (s + [c])[1..] == s[1..] + [c];
      StripTrailing(s[1..], c);
    } else {
      assert (s + [c])[..|s|] == s;
    }
  }
}
