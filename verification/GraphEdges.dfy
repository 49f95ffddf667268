/** Which edges a built attack graph has: entries reach their handlers, and function nodes lead nowhere. */
module GraphEdges {
  import opened PathSearch
  import opened AttackGraph
  import opened PathAnalyzer
  import opened PathResults

  // ---------------------------------------------------------------- entries reach their handlers

  lemma {:induction false} HandlerLinksExact(file: string, entries: seq<Entry>, nodes: seq<Node>, u: NodeId, v: NodeId)
    ensures Listed(HandlerLinks(file, entries, nodes), u, v) <==>
      exists i :: 0 <= i < |entries| && Handles(file, entries[i], u, v) && Known(nodes, u) && Known(nodes, v)
  {
    if entries != [] {
      var before, e := entries[..|entries| - 1], entries[|entries| - 1];
      HandlerLinksExact(file, before, nodes, u, v);
      var from, to := NodeId(file, e.line, e.handler, e.route), NodeId(file, e.line, e.handler, "");
      ListedSnoc(HandlerLinks(file, before, nodes), Link(from, to, Calls, true, false), u, v);
      assert HandlerLinks(file, before, nodes) + [] == HandlerLinks(file, before, nodes);
      assert forall i :: 0 <= i < |before| ==> before[i] == entries[i];
    }
  }

  /** u is the id of the entry and v that of its handler at the same line; a route tells them apart. */
  ghost predicate Handles(file: string, e: Entry, u: NodeId, v: NodeId) {
    u == NodeId(file, e.line, e.handler, e.route) && v == NodeId(file, e.line, e.handler, "") && u != v
  }

  lemma {:induction false} SinkCallsGrow(d: Draft, ast: FileAst, calls: seq<SinkCall>, jewels: seq<string>)
    ensures d.links <= AddSinkCalls(d, ast, calls, jewels).links
  {
    if calls != [] { SinkCallsGrow(d, ast, calls[..|calls| - 1], jewels); }
  }

  lemma ListedInLonger(a: seq<Link>, b: seq<Link>, u: NodeId, v: NodeId)
    requires a <= b && Listed(a, u, v)
    ensures Listed(b, u, v)
  {
    var k :| k in a && k.from == u && k.to == v;
    assert k in b;
  }

  lemma FileLinksHandler(d: Draft, ast: FileAst, jewels: seq<string>, i: nat, j: nat)
    requires i < |ast.entries| && j < |ast.functions| && ast.entries[i].file == ast.file && ast.entries[i].route != ""
    requires ast.functions[j] == Func(ast.entries[i].handler, ast.entries[i].line)
    ensures Listed(AddFile(d, ast, jewels).links, EntryNode(ast.entries[i], jewels).id,
        FunctionNode(ast.file, ast.functions[j], jewels).id)
  {
    var nodes := d.nodes + EntryNodes(ast, jewels) + FunctionNodes(ast, jewels) + SanitizerNodes(ast);
    var calls, handlers := d.links + CallLinks(ast.file, ast.calls, nodes), HandlerLinks(ast.file, ast.entries, nodes);
    var u, v := EntryNode(ast.entries[i], jewels), FunctionNode(ast.file, ast.functions[j], jewels);
    assert nodes[|d.nodes| + i] == u && nodes[|d.nodes| + |ast.entries| + j] == v;
    NodeKnown(nodes, u);
    NodeKnown(nodes, v);
    assert Handles(ast.file, ast.entries[i], u.id, v.id);
    HandlerLinksExact(ast.file, ast.entries, nodes, u.id, v.id);
    var k :| k in handlers && k.from == u.id && k.to == v.id;
    assert k in calls + handlers;
    SinkCallsGrow(Draft(nodes, calls + handlers), ast, ast.sinkCalls, jewels);
    ListedInLonger(calls + handlers, AddFile(d, ast, jewels).links, u.id, v.id);
  }

  lemma {:induction false} FilesGrow(asts: seq<FileAst>, jewels: seq<string>, n: nat)
    requires n <= |asts|
    ensures AddFiles(asts[..n], jewels).links <= AddFiles(asts, jewels).links
    decreases |asts| - n
  {
    if n < |asts| {
      FilesGrow(asts, jewels, n + 1);
      assert asts[..n + 1][..n] == asts[..n];
      var d, ast := AddFiles(asts[..n], jewels), asts[n];
      var nodes := d.nodes + EntryNodes(ast, jewels) + FunctionNodes(ast, jewels) + SanitizerNodes(ast);
      SinkCallsGrow(
        Draft(nodes, d.links + CallLinks(ast.file, ast.calls, nodes) + HandlerLinks(ast.file, ast.entries, nodes)),
        ast, ast.sinkCalls, jewels);
    } else {
      assert asts[..n] == asts;
    }
  }

  lemma {:induction false} FindingsGrow(l: Linking, fs: seq<Finding>, jewels: seq<string>)
    ensures l.draft.links <= AddFindings(l, fs, jewels).draft.links
  {
    if fs != [] { FindingsGrow(l, fs[..|fs| - 1], jewels); }
  }

  /** In every built graph an entry point with a route has an edge to its handler, found at the same line. */
  lemma EntryReachesHandler(asts: seq<FileAst>, fs: seq<Finding>, jewels: seq<string>, n: nat, i: nat, j: nat)
    requires n < |asts| && i < |asts[n].entries| && j < |asts[n].functions|
    requires asts[n].entries[i].file == asts[n].file && asts[n].entries[i].route != ""
    requires asts[n].functions[j] == Func(asts[n].entries[i].handler, asts[n].entries[i].line)
    ensures Edge(GraphOf(Built(asts, fs, jewels).draft).succ,
                 EntryNode(asts[n].entries[i], jewels).id, FunctionNode(asts[n].file, asts[n].functions[j], jewels).id)
  {
    var u, v := EntryNode(asts[n].entries[i], jewels).id, FunctionNode(asts[n].file, asts[n].functions[j], jewels).id;
    var d := AddFiles(asts, jewels);
    FileLinksHandler(AddFiles(asts[..n], jewels), asts[n], jewels, i, j);
    assert asts[..n + 1][..n] == asts[..n];
    FilesGrow(asts, jewels, n + 1);
    ListedInLonger(AddFiles(asts[..n + 1], jewels).links, d.links, u, v);
    FindingsGrow(Linking(d, EntryByFile(d.nodes)), fs, jewels);
    ListedInLonger(d.links, Built(asts, fs, jewels).draft.links, u, v);
    GraphIsFaithful(asts, fs, jewels);
  }

  // ---------------------------------------------------------------- functions lead nowhere

  ghost predicate EntryId(nodes: seq<Node>, u: NodeId) {
    exists i :: 0 <= i < |nodes| && nodes[i].kind == EntryPoint && nodes[i].id == u
  }

  /** u has a route, stands at line 0, or is the id of an entry point. */
  ghost predicate CanLead(nodes: seq<Node>, u: NodeId) { u.route != "" || u.line == 0 || EntryId(nodes, u) }

  ghost predicate SourcesLead(nodes: seq<Node>, links: seq<Link>) { forall k :: k in links ==> CanLead(nodes, k.from) }

  lemma SourcesGrow(nodes: seq<Node>, more: seq<Node>, links: seq<Link>)
    requires SourcesLead(nodes, links)
    ensures SourcesLead(nodes + more, links)
  {
    forall k | k in links ensures CanLead(nodes + more, k.from) {
      if EntryId(nodes, k.from) {
        var i :| 0 <= i < |nodes| && nodes[i].kind == EntryPoint && nodes[i].id == k.from;
        assert (nodes + more)[i] == nodes[i];
      }
    }
  }

  lemma {:induction false} AstLinksLead(file: string, calls: seq<Call>, entries: seq<Entry>, nodes: seq<Node>)
    ensures SourcesLead(nodes, CallLinks(file, calls, nodes)) && SourcesLead(nodes, HandlerLinks(file, entries, nodes))
    decreases |calls| + |entries|
  {
    if calls != [] { AstLinksLead(file, calls[..|calls| - 1], entries, nodes); }
    if entries != [] { AstLinksLead(file, calls, entries[..|entries| - 1], nodes); }
  }

  lemma {:induction false} SinkCallsLead(d: Draft, ast: FileAst, calls: seq<SinkCall>, jewels: seq<string>)
    requires SourcesLead(d.nodes, d.links)
    ensures var r := AddSinkCalls(d, ast, calls, jewels); SourcesLead(r.nodes, r.links)
  {
    if calls != [] {
      SinkCallsLead(d, ast, calls[..|calls| - 1], jewels);
      var before := AddSinkCalls(d, ast, calls[..|calls| - 1], jewels);
      SourcesGrow(before.nodes, [SinkCallNode(ast.file, calls[|calls| - 1], jewels)], before.links);
    }
  }

  lemma {:induction false} FilesLead(asts: seq<FileAst>, jewels: seq<string>)
    ensures var d := AddFiles(asts, jewels); SourcesLead(d.nodes, d.links)
  {
    if asts != [] {
      var d, ast := AddFiles(asts[..|asts| - 1], jewels), asts[|asts| - 1];
      FilesLead(asts[..|asts| - 1], jewels);
      var more := EntryNodes(ast, jewels) + FunctionNodes(ast, jewels) + SanitizerNodes(ast);
      var nodes := d.nodes + EntryNodes(ast, jewels) + FunctionNodes(ast, jewels) + SanitizerNodes(ast);
      assert nodes == d.nodes + more;
      SourcesGrow(d.nodes, more, d.links);
      AstLinksLead(ast.file, ast.calls, ast.entries, nodes);
      SinkCallsLead(
        Draft(nodes, d.links + CallLinks(ast.file, ast.calls, nodes) + HandlerLinks(ast.file, ast.entries, nodes)),
        ast, ast.sinkCalls, jewels);
    }
  }

  lemma FindingLinksLead(nodes: seq<Node>, links: seq<Link>, entry: Node, f: Finding)
    requires SourcesLead(nodes, links) && entry in nodes && entry.kind == EntryPoint
    ensures SourcesLead(nodes, links + FindingLinks(nodes, entry.id, f))
  {
    assert EntryId(nodes, entry.id);
  }

  lemma {:induction false} FindingLeads(l: Linking, f: Finding, jewels: seq<string>)
    requires Sound(l) && SourcesLead(l.draft.nodes, l.draft.links)
    ensures var r := AddFinding(l, f, jewels); Sound(r) && SourcesLead(r.draft.nodes, r.draft.links)
  {
    hide SinkCategory, FindingSink, FileOf, FindingLinks, SourcesLead, Joined;
    FindingHooks(l, f, jewels);
    if SinkCategory(f) {
      var l1, sink := WithEntry(l, FileOf(f)), FindingSink(f, jewels);
      EntrySound(l, FileOf(f));
      SourcesGrow(l.draft.nodes, [FallbackEntry(FileOf(f))], l.draft.links);
      SourcesGrow(l1.draft.nodes, [sink], l1.draft.links);
      FindingLinksLead(WithSink(l1.draft.nodes, sink), l1.draft.links, l1.entries[FileOf(f)], f);
    }
  }

  lemma {:induction false} FindingsLead(l: Linking, fs: seq<Finding>, jewels: seq<string>)
    requires Sound(l) && SourcesLead(l.draft.nodes, l.draft.links)
    ensures var r := AddFindings(l, fs, jewels); Sound(r) && SourcesLead(r.draft.nodes, r.draft.links)
  {
    if fs != [] {
      FindingsLead(l, fs[..|fs| - 1], jewels);
      FindingLeads(AddFindings(l, fs[..|fs| - 1], jewels), fs[|fs| - 1], jewels);
    }
  }

  lemma BuiltLeads(asts: seq<FileAst>, fs: seq<Finding>, jewels: seq<string>)
    ensures var d := Built(asts, fs, jewels).draft; SourcesLead(d.nodes, d.links)
  {
    var d := AddFiles(asts, jewels);
    FilesJoin(asts, jewels);
    FilesLead(asts, jewels);
    EntryByFileListed(d.nodes);
    FindingsLead(Linking(d, EntryByFile(d.nodes)), fs, jewels);
  }

  /**
   * Call edges are looked up at line 0 while functions are stored at their real line, so no reported
   * path passes through a function: whatever lies strictly inside one stands at line 0, has a route, or
   * shares its id with an entry point.
   */
  lemma FunctionsAreDeadEnds(
    asts: seq<FileAst>, fs: seq<Finding>, jewels: seq<string>, depth: int, limit: int, p: AttackPath, i: nat)
    requires p in ScanPaths(asts, fs, jewels, depth, limit) && 0 < i < |p.nodes| - 1
    ensures CanLead(Built(asts, fs, jewels).draft.nodes, p.nodes[i].id)
  {
    var d := Built(asts, fs, jewels).draft;
    GraphIsFaithful(asts, fs, jewels);
    BuiltLeads(asts, fs, jewels);
    ReportedAreRoutes(GraphOf(d), depth, limit, p);
    assert Edge(GraphOf(d).succ, Ids(p)[i], Ids(p)[i + 1]);
    assert Listed(d.links, p.nodes[i].id, p.nodes[i + 1].id);
  }
}
