/** Where every node and edge of a built attack graph comes from, and which nodes are crown jewels. */
module GraphNodes {
  import opened Sequences
  import opened Text
  import opened PathSearch
  import opened AttackGraph
  import opened PathAnalyzer
  import opened PathResults
  import opened GraphEdges

  /** Some crown-jewel text occurs in the path of the file. */
  ghost predicate Jeweled(file: string, jewels: seq<string>) {
    exists i :: 0 <= i < |jewels| && Contains(file, jewels[i])
  }

  /** A category, in any case of letters, whose findings are sinks. */
  lemma SinkCategories(f: Finding)
    ensures f.category.Absent? || f.category.NoneValue? ==> !SinkCategory(f)
    ensures f.category.Value? ==> (SinkCategory(f) <==>
      || Lower(f.category.text) in {"injection", "command_injection", "path_traversal", "deserialization", "xxe"}
      || Lower(f.category.text) in {"code_execution", "ssrf", "open_redirect", "sql_injection"}
      || Contains(Lower(f.category.text), "inject"))
  {
    NoInject("unknown");
    NoInject("none");
  }

  lemma NoInject(t: string)
    requires 'i' !in t
    ensures !Contains(t, "inject")
  {
    forall i | 0 <= i <= |t| - |"inject"| ensures !OccursAt(t, "inject", i) {
      assert t[i..i + |"inject"|][0] == t[i] && "inject"[0] == 'i';
    }
  }

  // ---------------------------------------------------------------- nodes

  /** A node without the attributes that only its kind gives it. */
  ghost predicate Attributes(n: Node, kind: Kind, name: string, file: string, crown: bool) {
    && n.kind == kind && n.name == name && n.file == file && (n.crownJewel <==> crown)
    && (n.sanitizer <==> kind == Sanitizer)
  }

  ghost predicate IsEntry(n: Node, e: Entry, jewels: seq<string>) {
    && Attributes(n, EntryPoint, e.verb + " " + e.route, e.file, Jeweled(e.file, jewels))
    && n.id == NodeId(e.file, e.line, e.handler, e.route) && n.sink == Unrated
  }

  ghost predicate IsFunction(n: Node, file: string, f: Func, jewels: seq<string>) {
    && Attributes(n, Function, f.name, file, Jeweled(file, jewels))
    && n.id == NodeId(file, f.line, f.name, "") && n.sink == Unrated
  }

  ghost predicate IsSanitizer(n: Node, file: string, name: string) {
    Attributes(n, Sanitizer, name, file, false) && n.id == NodeId(file, 0, name, "") && n.sink == Unrated
  }

  ghost predicate IsSinkCall(n: Node, file: string, c: SinkCall, jewels: seq<string>) {
    && Attributes(n, Sink, if c.callee.Some? then c.callee.value else "sink", file, Jeweled(file, jewels))
    && n.id == NodeId(file, if c.line.Some? then c.line.value else 0, n.name, "") && n.sink == ClassOf(c.sinkType)
  }

  /** n describes a fact of the file. */
  ghost predicate FromAst(n: Node, ast: FileAst, jewels: seq<string>) {
    || (exists i :: 0 <= i < |ast.entries| && IsEntry(n, ast.entries[i], jewels))
    || (exists i :: 0 <= i < |ast.functions| && IsFunction(n, ast.file, ast.functions[i], jewels))
    || (exists i :: 0 <= i < |ast.sanitizers| && IsSanitizer(n, ast.file, ast.sanitizers[i]))
    || (exists i :: 0 <= i < |ast.sinkCalls| && IsSinkCall(n, ast.file, ast.sinkCalls[i], jewels))
  }

  /** The sink of a finding, named after its function, its category or neither. */
  ghost predicate IsFindingSink(n: Node, f: Finding, jewels: seq<string>) {
    var file := if f.file.Some? && f.file.value != "" then f.file.value else "unknown";
    && Attributes(n, Sink, n.name, file, Jeweled(file, jewels)) && n.id == FindingId(f)
    && n.name == (if f.functionName.Value? && f.functionName.text != "" then f.functionName.text
                  else if f.category.Value? && f.category.text != "" then f.category.text else "sink")
    && n.sink == ClassOf(if f.category.Value? then Lower(f.category.text) else "")
  }

  /** The id of a finding. */
  lemma FindingKey(f: Finding)
    ensures var id := FindingId(f);
      && id.file == (if f.file.Some? then f.file.value else "") && id.line == f.line && id.route == f.route
      && (f.functionName.Value? ==> id.name == f.functionName.text)
      && (f.functionName.NoneValue? ==> id.name == "None")
      && (f.functionName.Absent? && f.name.Value? ==> id.name == f.name.text)
      && (f.functionName.Absent? && f.name.Absent? ==> id.name == "")
  {
  }

  /** The entry made up for a file whose AST has none; it is no crown jewel, whatever its file. */
  ghost predicate IsFallback(n: Node, file: string) {
    Attributes(n, EntryPoint, "entry:" + file, file, false) && n.id == NodeId(file, 0, "entry", "") && n.sink == Unrated
  }

  ghost predicate FromFinding(n: Node, f: Finding, jewels: seq<string>) {
    SinkCategory(f) && (IsFallback(n, FileOf(f)) || IsFindingSink(n, f, jewels))
  }

  lemma CrownedIsJeweled(file: string, jewels: seq<string>)
    ensures Crowned(file, jewels) <==> Jeweled(file, jewels)
  {
    hide Contains;
    if Crowned(file, jewels) {
      var j :| j in jewels && Contains(file, j);
      var i :| 0 <= i < |jewels| && jewels[i] == j;
      assert Contains(file, jewels[i]);
    }
  }

  function SinkCallNodes(ast: FileAst, jewels: seq<string>): seq<Node> {
    seq(|ast.sinkCalls|, i requires 0 <= i < |ast.sinkCalls| => SinkCallNode(ast.file, ast.sinkCalls[i], jewels))
  }

  lemma {:induction false} SinkCallsAppend(d: Draft, ast: FileAst, jewels: seq<string>, n: nat)
    requires n <= |ast.sinkCalls|
    ensures AddSinkCalls(d, ast, ast.sinkCalls[..n], jewels).nodes == d.nodes + SinkCallNodes(ast, jewels)[..n]
  {
    hide SinkCallNode;
    if n > 0 {
      SinkCallsAppend(d, ast, jewels, n - 1);
      assert ast.sinkCalls[..n][..n - 1] == ast.sinkCalls[..n - 1];
    }
  }

  function FileNodes(ast: FileAst, jewels: seq<string>): seq<Node> {
    EntryNodes(ast, jewels) + FunctionNodes(ast, jewels) + SanitizerNodes(ast) + SinkCallNodes(ast, jewels)
  }

  lemma FileAppends(d: Draft, ast: FileAst, jewels: seq<string>)
    ensures AddFile(d, ast, jewels).nodes == d.nodes + FileNodes(ast, jewels)
  {
    hide EntryNodes, FunctionNodes, SanitizerNodes, AddSinkCalls;
    var nodes := d.nodes + EntryNodes(ast, jewels) + FunctionNodes(ast, jewels) + SanitizerNodes(ast);
    var links := d.links + CallLinks(ast.file, ast.calls, nodes) + HandlerLinks(ast.file, ast.entries, nodes);
    SinkCallsAppend(Draft(nodes, links), ast, jewels, |ast.sinkCalls|);
    assert ast.sinkCalls[..|ast.sinkCalls|] == ast.sinkCalls;
  }

  lemma FileNodesExact(ast: FileAst, jewels: seq<string>, n: Node)
    ensures n in FileNodes(ast, jewels) <==> FromAst(n, ast, jewels)
  {
    hide ClassOf, Crowned, Jeweled;
    CrownedIsJeweled(ast.file, jewels);
    forall i | 0 <= i < |ast.entries| ensures n == EntryNodes(ast, jewels)[i] <==> IsEntry(n, ast.entries[i], jewels) {
      CrownedIsJeweled(ast.entries[i].file, jewels);
    }
    forall i | 0 <= i < |ast.functions|
      ensures n == FunctionNodes(ast, jewels)[i] <==> IsFunction(n, ast.file, ast.functions[i], jewels) { }
    forall i | 0 <= i < |ast.sanitizers|
      ensures n == SanitizerNodes(ast)[i] <==> IsSanitizer(n, ast.file, ast.sanitizers[i]) { }
    forall i | 0 <= i < |ast.sinkCalls|
      ensures n == SinkCallNodes(ast, jewels)[i] <==> IsSinkCall(n, ast.file, ast.sinkCalls[i], jewels) { }
    hide EntryNodes, FunctionNodes, SanitizerNodes, SinkCallNodes, IsEntry, IsFunction, IsSanitizer, IsSinkCall;
    AnyOf(n, EntryNodes(ast, jewels), FunctionNodes(ast, jewels), SanitizerNodes(ast), SinkCallNodes(ast, jewels));
  }

  lemma AnyOf<T>(x: T, a: seq<T>, b: seq<T>, c: seq<T>, d: seq<T>)
    ensures x in a + b + c + d <==> x in a || x in b || x in c || x in d
  {
  }

  /** The nodes of the AST phase are exactly those that describe a fact of one of the files. */
  lemma {:induction false} AstNodesExact(asts: seq<FileAst>, jewels: seq<string>, n: Node)
    ensures n in AddFiles(asts, jewels).nodes <==> exists k :: 0 <= k < |asts| && FromAst(n, asts[k], jewels)
  {
    hide FromAst, AddFile, FileNodes;
    if asts != [] {
      var before, ast := asts[..|asts| - 1], asts[|asts| - 1];
      AstNodesExact(before, jewels, n);
      FileAppends(AddFiles(before, jewels), ast, jewels);
      FileNodesExact(ast, jewels, n);
      assert forall k :: 0 <= k < |before| ==> before[k] == asts[k];
    }
  }

  /** What one finding appends is its file's made-up entry, its sink, or nothing. */
  lemma FindingAppends(l: Linking, f: Finding, jewels: seq<string>, n: Node)
    ensures l.draft.nodes <= AddFinding(l, f, jewels).draft.nodes
    ensures n in AddFinding(l, f, jewels).draft.nodes ==> n in l.draft.nodes || FromFinding(n, f, jewels)
  {
    CrownedIsJeweled(FileOf(f), jewels);
    hide SinkCategory, FindingLinks, ClassOf, Crowned, Jeweled;
    assert IsFallback(FallbackEntry(FileOf(f)), FileOf(f));
    NoClass();
    if SinkCategory(f) { SinkIsDescribed(f, jewels); }
  }

  lemma NoClass()
    ensures ClassOf("") == ClassOf("none") == ClassOf("unknown") == Unrated
  {
  }

  lemma SinkIsDescribed(f: Finding, jewels: seq<string>)
    ensures IsFindingSink(FindingSink(f, jewels), f, jewels)
  {
    hide Crowned, Jeweled, ClassOf, Lower;
    CrownedIsJeweled(FileOf(f), jewels);
    NoClass();
  }

  lemma {:induction false} FindingsAppend(l: Linking, fs: seq<Finding>, jewels: seq<string>, n: Node)
    ensures l.draft.nodes <= AddFindings(l, fs, jewels).draft.nodes
    ensures n in AddFindings(l, fs, jewels).draft.nodes ==>
      n in l.draft.nodes || exists k :: 0 <= k < |fs| && FromFinding(n, fs[k], jewels)
  {
    hide FromFinding, AddFinding;
    if fs != [] {
      var before := fs[..|fs| - 1];
      FindingsAppend(l, before, jewels, n);
      FindingAppends(AddFindings(l, before, jewels), fs[|fs| - 1], jewels, n);
      assert forall k :: 0 <= k < |before| ==> before[k] == fs[k];
    }
  }

  /**
   * Every node of a built graph describes a fact of one of the files, or belongs to a sink-category finding;
   * and every fact of every file has its node.
   */
  lemma {:induction false} NodesAccounted(asts: seq<FileAst>, fs: seq<Finding>, jewels: seq<string>, n: Node)
    ensures var nodes := Built(asts, fs, jewels).draft.nodes;
      && (n in nodes ==>
            || (exists k :: 0 <= k < |asts| && FromAst(n, asts[k], jewels))
            || (exists k :: 0 <= k < |fs| && FromFinding(n, fs[k], jewels)))
      && ((exists k :: 0 <= k < |asts| && FromAst(n, asts[k], jewels)) ==> n in nodes)
  {
    hide FromAst, FromFinding;
    var d := AddFiles(asts, jewels);
    AstNodesExact(asts, jewels, n);
    FindingsAppend(Linking(d, EntryByFile(d.nodes)), fs, jewels, n);
  }

  // ---------------------------------------------------------------- crown jewels

  /** What a node's crown-jewel and sanitizer marks say of it. */
  ghost predicate MarkedTruly(n: Node, jewels: seq<string>) {
    && (n.sanitizer <==> n.kind == Sanitizer)
    && (n.crownJewel ==> Jeweled(n.file, jewels) && n.kind != Sanitizer)
    && (n.kind == Function || n.kind == Sink ==> (n.crownJewel <==> Jeweled(n.file, jewels)))
    && (n.kind == EntryPoint && !n.crownJewel && Jeweled(n.file, jewels) ==> IsFallback(n, n.file))
  }

  /**
   * In every built graph a function, a sink call and a finding's sink are crown jewels exactly when some
   * crown-jewel text occurs in the path of their file; so is an entry point, unless it was made up for a
   * finding; and a sanitizer never is. Only sanitizers sanitize.
   */
  lemma {:induction false} CrownJewelsExact(asts: seq<FileAst>, fs: seq<Finding>, jewels: seq<string>, n: Node)
    requires n in Built(asts, fs, jewels).draft.nodes
    ensures MarkedTruly(n, jewels)
  {
    NodesAccounted(asts, fs, jewels, n);
    hide Jeweled, ClassOf, Built, SinkCategory;
  }

  /**
   * End to end: when the node finally stored under a finding's id is a sink in a file whose path some
   * crown-jewel text occurs in, every reported path to it reaches a crown jewel and scores 40 or more.
   */
  lemma {:induction false} JewelFindings(
    asts: seq<FileAst>, fs: seq<Finding>, jewels: seq<string>, depth: int, limit: int, f: Finding, p: AttackPath)
    requires var nodes := Built(asts, fs, jewels).draft.nodes;
      Known(nodes, FindingId(f)) && Latest(nodes)[FindingId(f)].kind == Sink
        && Jeweled(Latest(nodes)[FindingId(f)].file, jewels)
    requires p in ScanPaths(asts, fs, jewels, depth, limit) && p.nodes != []
    requires p.nodes[|p.nodes| - 1].id == FindingId(f)
    ensures p.crownJewel && SomeJewel(p.nodes) && p.score >= 40.0
  {
    hide Jeweled, Built, MarkedTruly, SomeJewel, GraphOf, Latest, RankedPaths;
    var d := Built(asts, fs, jewels).draft;
    var n := Latest(d.nodes)[FindingId(f)];
    KnownMember(d.nodes, FindingId(f));
    CrownJewelsExact(asts, fs, jewels, n);
    TrulyCrowned(n, jewels);
    GraphIsFaithful(asts, fs, jewels);
    JewelEnd(GraphOf(d), depth, limit, p, n);
  }

  lemma JewelEnd(g: Graph, depth: int, limit: int, p: AttackPath, n: Node)
    requires WellFormed(g) && p in RankedPaths(g, depth, limit) && p.nodes != []
    requires p.nodes[|p.nodes| - 1].id == n.id && n.id in g.data && g.data[n.id] == n && n.crownJewel
    ensures p.crownJewel && SomeJewel(p.nodes) && p.score >= 40.0
  {
    hide WellFormed, RankedPaths, SomeJewel;
    StoredEnd(g, depth, limit, p);
    JewelReached(p.nodes, |p.nodes| - 1);
    ReportedReadsItsNodes(g, depth, limit, p);
  }

  lemma TrulyCrowned(n: Node, jewels: seq<string>)
    requires MarkedTruly(n, jewels) && n.kind == Sink && Jeweled(n.file, jewels)
    ensures n.crownJewel
  {
  }

  lemma JewelReached(nodes: seq<Node>, i: nat)
    requires i < |nodes| && nodes[i].crownJewel
    ensures SomeJewel(nodes)
  {
  }

  lemma StoredEnd(g: Graph, depth: int, limit: int, p: AttackPath)
    requires WellFormed(g) && p in RankedPaths(g, depth, limit) && p.nodes != []
    ensures var end := p.nodes[|p.nodes| - 1]; end.id in g.data && end == g.data[end.id]
  {
    ReportedAreRoutes(g, depth, limit, p);
    assert Ids(p)[|p.nodes| - 1] == p.nodes[|p.nodes| - 1].id;
  }

  // ---------------------------------------------------------------- edges

  ghost predicate CallEdge(ast: FileAst, nodes: seq<Node>, u: NodeId, v: NodeId) {
    exists i :: 0 <= i < |ast.calls| && Looked(ast.file, ast.calls[i], u, v) && Known(nodes, u) && Known(nodes, v)
  }

  /** Both ends of a call are looked up at line 0. */
  ghost predicate Looked(file: string, c: Call, u: NodeId, v: NodeId) {
    u == NodeId(file, 0, c.caller, "") && v == NodeId(file, 0, c.callee, "")
  }

  ghost predicate HandlerEdge(ast: FileAst, nodes: seq<Node>, u: NodeId, v: NodeId) {
    exists i :: 0 <= i < |ast.entries| && Handles(ast.file, ast.entries[i], u, v) && Known(nodes, u) && Known(nodes, v)
  }

  /** The i-th sink call hangs on the first function of its file, when that one has a name known at line 0. */
  ghost predicate SinkEdge(ast: FileAst, nodes: seq<Node>, jewels: seq<string>, i: int, u: NodeId, v: NodeId) {
    && 0 <= i < |ast.sinkCalls| && ast.functions != [] && ast.functions[0].name != ""
    && u == NodeId(ast.file, 0, ast.functions[0].name, "") && v == SinkCallNode(ast.file, ast.sinkCalls[i], jewels).id
    && Known(nodes + SinkCallNodes(ast, jewels)[..i + 1], u)
  }

  /** An edge the AST of one file adds to a builder that holds the given nodes. */
  ghost predicate FileEdge(before: seq<Node>, ast: FileAst, jewels: seq<string>, u: NodeId, v: NodeId) {
    var nodes := before + EntryNodes(ast, jewels) + FunctionNodes(ast, jewels) + SanitizerNodes(ast);
    CallEdge(ast, nodes, u, v) || HandlerEdge(ast, nodes, u, v) || exists i :: SinkEdge(ast, nodes, jewels, i, u, v)
  }

  /** An edge one finding adds: from its file's entry to its sink, or through the node of its function. */
  ghost predicate FindingEdge(l: Linking, f: Finding, jewels: seq<string>, u: NodeId, v: NodeId) {
    var file, name := FileOf(f), if f.functionName.Value? then f.functionName.text else "";
    var entry := if file in l.entries then l.entries[file].id else NodeId(file, 0, "entry", "");
    var via := NodeId(file, 0, name, "");
    SinkCategory(f) && (
      if name != "" && Known(AddFinding(l, f, jewels).draft.nodes, via) then
        (u == entry && v == via) || (u == via && v == FindingId(f))
      else u == entry && v == FindingId(f))
  }

  lemma {:induction false} CallLinksExact(ast: FileAst, nodes: seq<Node>, u: NodeId, v: NodeId, n: nat)
    requires n <= |ast.calls|
    ensures Listed(CallLinks(ast.file, ast.calls[..n], nodes), u, v) <==>
      exists i :: 0 <= i < n && Looked(ast.file, ast.calls[i], u, v) && Known(nodes, u) && Known(nodes, v)
  {
    hide Known;
    if n > 0 {
      var before, c := ast.calls[..n - 1], ast.calls[n - 1];
      CallLinksExact(ast, nodes, u, v, n - 1);
      assert ast.calls[..n][..n - 1] == before;
      var from, to := NodeId(ast.file, 0, c.caller, ""), NodeId(ast.file, 0, c.callee, "");
      ListedSnoc(CallLinks(ast.file, before, nodes), Link(from, to, Calls, c.tainted, false), u, v);
      assert CallLinks(ast.file, before, nodes) + [] == CallLinks(ast.file, before, nodes);
    }
  }

  lemma {:induction false} SinkLinksExact(
    d: Draft, ast: FileAst, jewels: seq<string>, u: NodeId, v: NodeId, n: nat)
    requires n <= |ast.sinkCalls|
    ensures Listed(AddSinkCalls(d, ast, ast.sinkCalls[..n], jewels).links, u, v) <==>
      Listed(d.links, u, v) || exists i :: i < n && SinkEdge(ast, d.nodes, jewels, i, u, v)
  {
    hide Listed, SinkEdge, AddSinkCall;
    SinkEdgeInRange(ast, d.nodes, jewels, u, v);
    if n > 0 {
      SinkLinksExact(d, ast, jewels, u, v, n - 1);
      SinkCallsAppend(d, ast, jewels, n - 1);
      assert ast.sinkCalls[..n][..n - 1] == ast.sinkCalls[..n - 1];
      OneSinkLink(AddSinkCalls(d, ast, ast.sinkCalls[..n - 1], jewels), d.nodes, ast, jewels, u, v, n - 1);
    }
  }

  lemma SinkEdgeInRange(ast: FileAst, nodes: seq<Node>, jewels: seq<string>, u: NodeId, v: NodeId)
    ensures forall i :: SinkEdge(ast, nodes, jewels, i, u, v) ==> 0 <= i < |ast.sinkCalls|
  {
  }

  lemma OneSinkLink(
    r: Draft, nodes: seq<Node>, ast: FileAst, jewels: seq<string>, u: NodeId, v: NodeId, i: nat)
    requires i < |ast.sinkCalls| && r.nodes == nodes + SinkCallNodes(ast, jewels)[..i]
    ensures Listed(AddSinkCall(r, ast, ast.sinkCalls[i], jewels).links, u, v) <==>
      Listed(r.links, u, v) || SinkEdge(ast, nodes, jewels, i, u, v)
  {
    hide Known, SinkCallNode, Listed;
    var sink := SinkCallNode(ast.file, ast.sinkCalls[i], jewels);
    assert SinkCallNodes(ast, jewels)[..i + 1] == SinkCallNodes(ast, jewels)[..i] + [sink];
    assert r.nodes + [sink] == nodes + SinkCallNodes(ast, jewels)[..i + 1];
    if ast.functions != [] {
      var from := NodeId(ast.file, 0, ast.functions[0].name, "");
      ListedSnoc(r.links, Link(from, sink.id, ReachesSink, true, false), u, v);
    }
    assert r.links + [] == r.links;
  }

  lemma ListedBoth(a: seq<Link>, b: seq<Link>, u: NodeId, v: NodeId)
    ensures Listed(a + b, u, v) <==> Listed(a, u, v) || Listed(b, u, v)
  {
    assert forall k :: k in a + b <==> k in a || k in b;
  }

  lemma {:induction false} FileLinksExact(d: Draft, ast: FileAst, jewels: seq<string>, u: NodeId, v: NodeId)
    ensures Listed(AddFile(d, ast, jewels).links, u, v) <==>
      Listed(d.links, u, v) || FileEdge(d.nodes, ast, jewels, u, v)
  {
    hide Known, EntryNodes, FunctionNodes, SanitizerNodes, AddSinkCalls, SinkCallNode, Listed, Handles, Looked;
    var nodes := d.nodes + EntryNodes(ast, jewels) + FunctionNodes(ast, jewels) + SanitizerNodes(ast);
    var calls, handlers := CallLinks(ast.file, ast.calls, nodes), HandlerLinks(ast.file, ast.entries, nodes);
    CallLinksExact(ast, nodes, u, v, |ast.calls|);
    assert ast.calls[..|ast.calls|] == ast.calls;
    HandlerLinksExact(ast.file, ast.entries, nodes, u, v);
    ListedBoth(d.links, calls, u, v);
    ListedBoth(d.links + calls, handlers, u, v);
    SinkLinksExact(Draft(nodes, d.links + calls + handlers), ast, jewels, u, v, |ast.sinkCalls|);
    assert ast.sinkCalls[..|ast.sinkCalls|] == ast.sinkCalls;
  }

  lemma {:induction false} AstEdgesExact(asts: seq<FileAst>, jewels: seq<string>, u: NodeId, v: NodeId, n: nat)
    requires n <= |asts|
    ensures Listed(AddFiles(asts[..n], jewels).links, u, v) <==>
      exists k :: 0 <= k < n && FileEdge(AddFiles(asts[..k], jewels).nodes, asts[k], jewels, u, v)
  {
    hide FileEdge, AddFile;
    if n > 0 {
      AstEdgesExact(asts, jewels, u, v, n - 1);
      assert asts[..n][..n - 1] == asts[..n - 1];
      FileLinksExact(AddFiles(asts[..n - 1], jewels), asts[n - 1], jewels, u, v);
    }
  }

  lemma {:induction false} FindingLinksExact(l: Linking, f: Finding, jewels: seq<string>, u: NodeId, v: NodeId)
    ensures Listed(AddFinding(l, f, jewels).draft.links, u, v) <==>
      Listed(l.draft.links, u, v) || FindingEdge(l, f, jewels, u, v)
  {
    hide SinkCategory, Known, FindingSink, FindingId;
    if SinkCategory(f) {
      var l1 := WithEntry(l, FileOf(f));
      var nodes := WithSink(l1.draft.nodes, FindingSink(f, jewels));
      var entry, via := l1.entries[FileOf(f)].id, NodeId(FileOf(f), 0, FunctionName(f), "");
      var second := Link(via, FindingId(f), ReachesSink, true, HasSanitizer(nodes, FileOf(f)));
      ListedSnoc(l.draft.links, Link(entry, via, PassesData, true, false), u, v);
      ListedSnoc(l.draft.links + [Link(entry, via, PassesData, true, false)], second, u, v);
      ListedSnoc(l.draft.links, Link(entry, FindingId(f), ReachesSink, true, false), u, v);
      assert l.draft.links + [Link(entry, via, PassesData, true, false)] + [second]
          == l.draft.links + [Link(entry, via, PassesData, true, false), second];
    }
  }

  lemma {:induction false} FindingEdgesExact(
    l: Linking, fs: seq<Finding>, jewels: seq<string>, u: NodeId, v: NodeId, n: nat)
    requires n <= |fs|
    ensures Listed(AddFindings(l, fs[..n], jewels).draft.links, u, v) <==>
      || Listed(l.draft.links, u, v)
      || exists k :: 0 <= k < n && FindingEdge(AddFindings(l, fs[..k], jewels), fs[k], jewels, u, v)
  {
    hide FindingEdge, AddFinding;
    if n > 0 {
      FindingEdgesExact(l, fs, jewels, u, v, n - 1);
      assert fs[..n][..n - 1] == fs[..n - 1];
      FindingLinksExact(AddFindings(l, fs[..n - 1], jewels), fs[n - 1], jewels, u, v);
    }
  }

  /**
   * The edges of a built graph are exactly those of the files' calls, handlers and sink calls, each looked
   * up among the nodes appended until then, and those of the sink-category findings.
   */
  lemma {:induction false} EdgesExact(asts: seq<FileAst>, fs: seq<Finding>, jewels: seq<string>, u: NodeId, v: NodeId)
    ensures var d := AddFiles(asts, jewels); var l := Linking(d, EntryByFile(d.nodes));
      Edge(GraphOf(Built(asts, fs, jewels).draft).succ, u, v) <==>
        || (exists k :: 0 <= k < |asts| && FileEdge(AddFiles(asts[..k], jewels).nodes, asts[k], jewels, u, v))
        || (exists k :: 0 <= k < |fs| && FindingEdge(AddFindings(l, fs[..k], jewels), fs[k], jewels, u, v))
  {
    hide FileEdge, FindingEdge, Edge, GraphOf, Listed;
    var d := AddFiles(asts, jewels);
    GraphIsFaithful(asts, fs, jewels);
    AstEdgesExact(asts, jewels, u, v, |asts|);
    FindingEdgesExact(Linking(d, EntryByFile(d.nodes)), fs, jewels, u, v, |fs|);
    assert asts[..|asts|] == asts && fs[..|fs|] == fs;
  }

  /** The entry a file's findings hang on is the last entry point its AST has. */
  lemma {:induction false} LastEntryOfFile(nodes: seq<Node>, i: nat)
    requires i < |nodes| && nodes[i].kind == EntryPoint
    requires forall j :: i < j < |nodes| && nodes[j].kind == EntryPoint ==> nodes[j].file != nodes[i].file
    ensures nodes[i].file in EntryByFile(nodes) && EntryByFile(nodes)[nodes[i].file] == nodes[i]
  {
    var before := nodes[..|nodes| - 1];
    if i < |before| { LastEntryOfFile(before, i); }
  }

  // ---------------------------------------------------------------- marks of the edges

  /** The file has a sanitizer node exactly when its AST lists a sanitizer. */
  lemma {:induction false} SanitizedFiles(asts: seq<FileAst>, fs: seq<Finding>, jewels: seq<string>, file: string)
    ensures HasSanitizer(Built(asts, fs, jewels).draft.nodes, file)
      <==> exists k :: 0 <= k < |asts| && asts[k].file == file && asts[k].sanitizers != []
  {
    var nodes := Built(asts, fs, jewels).draft.nodes;
    hide Built, Jeweled, ClassOf, SinkCategory;
    if HasSanitizer(nodes, file) {
      var n :| n in nodes && n.kind == Sanitizer && n.file == file && n.sanitizer;
      NodesAccounted(asts, fs, jewels, n);
      var k :| 0 <= k < |asts| && FromAst(n, asts[k], jewels);
      assert asts[k].file == file && asts[k].sanitizers != [];
    }
    if k :| 0 <= k < |asts| && asts[k].file == file && asts[k].sanitizers != [] {
      var n := SanitizerNode(file, asts[k].sanitizers[0]);
      assert IsSanitizer(n, file, asts[k].sanitizers[0]);
      assert FromAst(n, asts[k], jewels);
      NodesAccounted(asts, fs, jewels, n);
    }
  }

  /** The edge into a finding's sink through its function is marked sanitized exactly when its file has a sanitizer. */
  lemma {:induction false} SinkEdgeMarked(
    asts: seq<FileAst>, fs: seq<Finding>, jewels: seq<string>, k: nat, sanitized: bool)
    requires k < |fs| && SinkCategory(fs[k]) && fs[k].functionName.Value? && fs[k].functionName.text != ""
    requires Known(Built(asts, fs[..k + 1], jewels).draft.nodes, NodeId(FileOf(fs[k]), 0, fs[k].functionName.text, ""))
    requires sanitized <==> exists a :: 0 <= a < |asts| && asts[a].file == FileOf(fs[k]) && asts[a].sanitizers != []
    ensures var via := NodeId(FileOf(fs[k]), 0, fs[k].functionName.text, "");
      Link(via, FindingId(fs[k]), ReachesSink, true, sanitized) in Built(asts, fs, jewels).draft.links
  {
    hide SinkCategory, Known, FindingSink, FindingId, Built, HasSanitizer;
    SanitizedFiles(asts, fs[..k + 1], jewels, FileOf(fs[k]));
    ViaMarked(asts, fs, jewels, k);
  }

  lemma ViaMarked(asts: seq<FileAst>, fs: seq<Finding>, jewels: seq<string>, k: nat)
    requires k < |fs| && SinkCategory(fs[k]) && FunctionName(fs[k]) != ""
    requires Known(Built(asts, fs[..k + 1], jewels).draft.nodes, NodeId(FileOf(fs[k]), 0, FunctionName(fs[k]), ""))
    ensures Link(NodeId(FileOf(fs[k]), 0, FunctionName(fs[k]), ""), FindingId(fs[k]), ReachesSink, true,
        HasSanitizer(Built(asts, fs[..k + 1], jewels).draft.nodes, FileOf(fs[k])))
      in Built(asts, fs, jewels).draft.links
  {
    hide SinkCategory, Known, FindingSink, FindingId, HasSanitizer;
    var d := AddFiles(asts, jewels);
    var l := Linking(d, EntryByFile(d.nodes));
    assert fs[..k + 1][..k] == fs[..k];
    var r := AddFindings(l, fs[..k + 1], jewels);
    var k2 := Link(NodeId(FileOf(fs[k]), 0, FunctionName(fs[k]), ""), FindingId(fs[k]), ReachesSink, true,
      HasSanitizer(r.draft.nodes, FileOf(fs[k])));
    assert r == AddFinding(AddFindings(l, fs[..k], jewels), fs[k], jewels);
    assert k2 in r.draft.links;
    LaterFindings(l, fs, jewels, k + 1);
  }

  lemma {:induction false} LaterFindings(l: Linking, fs: seq<Finding>, jewels: seq<string>, n: nat)
    requires n <= |fs|
    ensures AddFindings(l, fs[..n], jewels).draft.links <= AddFindings(l, fs, jewels).draft.links
    decreases |fs| - n
  {
    hide AddFinding;
    if n == |fs| {
      assert fs[..n] == fs;
    } else {
      LaterFindings(l, fs, jewels, n + 1);
      assert fs[..n + 1][..n] == fs[..n];
      FindingHooksLinks(AddFindings(l, fs[..n], jewels), fs[n], jewels);
    }
  }

  lemma FindingHooksLinks(l: Linking, f: Finding, jewels: seq<string>)
    ensures l.draft.links <= AddFinding(l, f, jewels).draft.links
  {
    hide SinkCategory, FindingSink, FindingLinks;
  }

  /** A call between known functions gets an edge that is tainted exactly when its arguments are. */
  lemma {:induction false} CallMarked(asts: seq<FileAst>, fs: seq<Finding>, jewels: seq<string>, a: nat, i: nat)
    requires a < |asts| && i < |asts[a].calls|
    requires var c, file := asts[a].calls[i], asts[a].file; var nodes := AddFiles(asts[..a], jewels).nodes
        + EntryNodes(asts[a], jewels) + FunctionNodes(asts[a], jewels) + SanitizerNodes(asts[a]);
      Known(nodes, NodeId(file, 0, c.caller, "")) && Known(nodes, NodeId(file, 0, c.callee, ""))
    ensures var c, file := asts[a].calls[i], asts[a].file;
      Link(NodeId(file, 0, c.caller, ""), NodeId(file, 0, c.callee, ""), Calls, c.tainted, false)
        in Built(asts, fs, jewels).draft.links
  {
    hide Known, EntryNodes, FunctionNodes, SanitizerNodes;
    var d, ast := AddFiles(asts[..a], jewels), asts[a];
    var nodes := d.nodes + EntryNodes(ast, jewels) + FunctionNodes(ast, jewels) + SanitizerNodes(ast);
    var calls, handlers := CallLinks(ast.file, ast.calls, nodes), HandlerLinks(ast.file, ast.entries, nodes);
    CallListed(ast.file, ast.calls, nodes, i);
    SinkCallsGrow(Draft(nodes, d.links + calls + handlers), ast, ast.sinkCalls, jewels);
    assert asts[..a + 1][..a] == asts[..a];
    FilesGrow(asts, jewels, a + 1);
    var all := AddFiles(asts, jewels);
    FindingsGrow(Linking(all, EntryByFile(all.nodes)), fs, jewels);
    var c := ast.calls[i];
    var k := Link(NodeId(ast.file, 0, c.caller, ""), NodeId(ast.file, 0, c.callee, ""), Calls, c.tainted, false);
    hide CallLinks, HandlerLinks, AddSinkCalls;
    assert k in d.links + calls + handlers;
    LinkInLonger(d.links + calls + handlers, AddFiles(asts[..a + 1], jewels).links, k);
    LinkInLonger(AddFiles(asts[..a + 1], jewels).links, all.links, k);
    LinkInLonger(all.links, Built(asts, fs, jewels).draft.links, k);
  }

  lemma LinkInLonger(a: seq<Link>, b: seq<Link>, k: Link)
    requires a <= b && k in a
    ensures k in b
  {
  }

  lemma {:induction false} CallListed(file: string, calls: seq<Call>, nodes: seq<Node>, i: nat)
    requires i < |calls| && Known(nodes, NodeId(file, 0, calls[i].caller, ""))
    requires Known(nodes, NodeId(file, 0, calls[i].callee, ""))
    ensures var c := calls[i];
      Link(NodeId(file, 0, c.caller, ""), NodeId(file, 0, c.callee, ""), Calls, c.tainted, false)
        in CallLinks(file, calls, nodes)
  {
    hide Known;
    if i < |calls| - 1 { CallListed(file, calls[..|calls| - 1], nodes, i); }
  }
}
