/**
 * The attack graph built from AST facts and findings (backend/attack_path/graph_builder.py). The
 * functions give the node and edge lists each phase produces; the class grows them in loops.
 */
module AttackGraph {
  import opened Sequences
  import opened PathSearch
  import opened Text

  /** The hashed key of a node, taken as the injective tuple it is computed from. */
  datatype NodeId = NodeId(file: string, line: int, name: string, route: string)

  datatype Kind = EntryPoint | Function | Sanitizer | Sink

  /** The rows of SINK_SEVERITY; Unrated is any other sink type, or none. */
  datatype SinkClass =
    | Injection | CommandInjection | SqlInjection | CodeExecution | Deserialization | PathTraversal | Ssrf | Unrated

  datatype Node = Node(
    id: NodeId, kind: Kind, name: string, file: string, crownJewel: bool, sanitizer: bool, sink: SinkClass)

  datatype LinkKind = Calls | PassesData | ReachesSink

  datatype Link = Link(from: NodeId, to: NodeId, kind: LinkKind, tainted: bool, sanitized: bool)

  datatype Entry = Entry(verb: string, route: string, handler: string, file: string, line: int)
  datatype Func = Func(name: string, line: int)
  datatype Call = Call(caller: string, callee: string, tainted: bool)
  datatype SinkCall = SinkCall(callee: Option<string>, line: Option<int>, sinkType: string)

  datatype FileAst = FileAst(
    file: string, entries: seq<Entry>, functions: seq<Func>, sanitizers: seq<string>,
    calls: seq<Call>, sinkCalls: seq<SinkCall>)

  /** A key of a finding record: not there, there with the value None, or there with text. */
  datatype Attr = Absent | NoneValue | Value(text: string)

  /** The file is None when it is missing. */
  datatype Finding = Finding(
    file: Option<string>, line: int, functionName: Attr, name: Attr, route: string, category: Attr)

  const SINK_CATEGORIES: seq<string> := [
    "injection", "command_injection", "path_traversal", "deserialization", "code_execution",
    "xxe", "ssrf", "open_redirect", "sql_injection"
  ]

  function Category(f: Finding): string {
    match f.category case Absent => "unknown" case NoneValue => "none" case Value(t) => Lower(t)
  }

  predicate SinkCategory(f: Finding) { Category(f) in SINK_CATEGORIES || Contains(Category(f), "inject") }

  predicate Crowned(file: string, jewels: seq<string>) { exists j :: j in jewels && Contains(file, j) }

  // ---------------------------------------------------------------- ids and nodes

  function GetOr<T>(o: Option<T>, default: T): T { if o.Some? then o.value else default }

  function Formatted(a: Attr): string {
    match a case Absent => "" case NoneValue => "None" case Value(t) => t
  }

  function FindingId(f: Finding): NodeId {
    NodeId(GetOr(f.file, ""), f.line, Formatted(if f.functionName.Absent? then f.name else f.functionName), f.route)
  }

  function FileOf(f: Finding): string { if f.file.None? || f.file.value == "" then "unknown" else f.file.value }

  function TextOf(a: Attr): string { match a case Value(t) => t case _ => "" }

  function FunctionName(f: Finding): string { TextOf(f.functionName) }

  function ClassOf(sinkType: string): SinkClass {
    if sinkType == "injection" then Injection
    else if sinkType == "command_injection" then CommandInjection
    else if sinkType == "sql_injection" then SqlInjection
    else if sinkType == "code_execution" then CodeExecution
    else if sinkType == "deserialization" then Deserialization
    else if sinkType == "path_traversal" then PathTraversal
    else if sinkType == "ssrf" then Ssrf
    else Unrated
  }

  function EntryNode(e: Entry, jewels: seq<string>): Node {
    Node(NodeId(e.file, e.line, e.handler, e.route), EntryPoint, e.verb + " " + e.route, e.file,
         Crowned(e.file, jewels), false, Unrated)
  }

  function FunctionNode(file: string, f: Func, jewels: seq<string>): Node {
    Node(NodeId(file, f.line, f.name, ""), Function, f.name, file, Crowned(file, jewels), false, Unrated)
  }

  function SanitizerNode(file: string, name: string): Node {
    Node(NodeId(file, 0, name, ""), Sanitizer, name, file, false, true, Unrated)
  }

  function SinkCallNode(file: string, c: SinkCall, jewels: seq<string>): Node {
    Node(NodeId(file, GetOr(c.line, 0), GetOr(c.callee, "sink"), ""), Sink, GetOr(c.callee, "sink"), file,
         Crowned(file, jewels), false, ClassOf(c.sinkType))
  }

  function FallbackEntry(file: string): Node {
    Node(NodeId(file, 0, "entry", ""), EntryPoint, "entry:" + file, file, false, false, Unrated)
  }

  function FindingSink(f: Finding, jewels: seq<string>): Node {
    var name :=
      if FunctionName(f) != "" then FunctionName(f)
      else if TextOf(f.category) != "" then TextOf(f.category)
      else "sink";
    Node(FindingId(f), Sink, name, FileOf(f), Crowned(FileOf(f), jewels), false, ClassOf(Category(f)))
  }

  /** node_index: the node appended last under each id. */
  function Latest(nodes: seq<Node>): map<NodeId, Node> {
    if nodes == [] then map[]
    else Latest(nodes[..|nodes| - 1])[nodes[|nodes| - 1].id := nodes[|nodes| - 1]]
  }

  predicate Known(nodes: seq<Node>, id: NodeId) { id in Latest(nodes) }

  // ---------------------------------------------------------------- what each phase appends

  function EntryNodes(ast: FileAst, jewels: seq<string>): seq<Node> {
    seq(|ast.entries|, i requires 0 <= i < |ast.entries| => EntryNode(ast.entries[i], jewels))
  }

  function FunctionNodes(ast: FileAst, jewels: seq<string>): seq<Node> {
    seq(|ast.functions|, i requires 0 <= i < |ast.functions| => FunctionNode(ast.file, ast.functions[i], jewels))
  }

  function SanitizerNodes(ast: FileAst): seq<Node> {
    seq(|ast.sanitizers|, i requires 0 <= i < |ast.sanitizers| => SanitizerNode(ast.file, ast.sanitizers[i]))
  }

  /** Call edges look both ends up at line 0. */
  function CallLinks(file: string, calls: seq<Call>, nodes: seq<Node>): seq<Link> {
    if calls == [] then []
    else
      var c := calls[|calls| - 1];
      var from, to := NodeId(file, 0, c.caller, ""), NodeId(file, 0, c.callee, "");
      CallLinks(file, calls[..|calls| - 1], nodes)
        + if Known(nodes, from) && Known(nodes, to) then [Link(from, to, Calls, c.tainted, false)] else []
  }

  function HandlerLinks(file: string, entries: seq<Entry>, nodes: seq<Node>): seq<Link> {
    if entries == [] then []
    else
      var e := entries[|entries| - 1];
      var from, to := NodeId(file, e.line, e.handler, e.route), NodeId(file, e.line, e.handler, "");
      HandlerLinks(file, entries[..|entries| - 1], nodes)
        + if Known(nodes, from) && Known(nodes, to) && from != to then [Link(from, to, Calls, true, false)] else []
  }

  datatype Draft = Draft(nodes: seq<Node>, links: seq<Link>)

  function SinkCallLinks(ast: FileAst, nodes: seq<Node>, sink: NodeId): seq<Link> {
    if ast.functions == [] || ast.functions[0].name == "" then []
    else
      var from := NodeId(ast.file, 0, ast.functions[0].name, "");
      if Known(nodes, from) then [Link(from, sink, ReachesSink, true, false)] else []
  }

  /** A sink call appends its node, and an edge from the file's first function when that id is known. */
  function AddSinkCall(d: Draft, ast: FileAst, call: SinkCall, jewels: seq<string>): Draft {
    var sink := SinkCallNode(ast.file, call, jewels);
    Draft(d.nodes + [sink], d.links + SinkCallLinks(ast, d.nodes + [sink], sink.id))
  }

  function AddSinkCalls(d: Draft, ast: FileAst, calls: seq<SinkCall>, jewels: seq<string>): Draft
    decreases |calls|
  {
    if calls == [] then d
    else AddSinkCall(AddSinkCalls(d, ast, calls[..|calls| - 1], jewels), ast, calls[|calls| - 1], jewels)
  }

  function AddFile(d: Draft, ast: FileAst, jewels: seq<string>): Draft {
    var nodes := d.nodes + EntryNodes(ast, jewels) + FunctionNodes(ast, jewels) + SanitizerNodes(ast);
    var links := d.links + CallLinks(ast.file, ast.calls, nodes) + HandlerLinks(ast.file, ast.entries, nodes);
    AddSinkCalls(Draft(nodes, links), ast, ast.sinkCalls, jewels)
  }

  function AddFiles(asts: seq<FileAst>, jewels: seq<string>): Draft {
    if asts == [] then Draft([], []) else AddFile(AddFiles(asts[..|asts| - 1], jewels), asts[|asts| - 1], jewels)
  }

  /** entry_by_file: the last entry node of each file. */
  function EntryByFile(nodes: seq<Node>): map<string, Node> {
    if nodes == [] then map[]
    else
      var n := nodes[|nodes| - 1];
      var before := EntryByFile(nodes[..|nodes| - 1]);
      if n.kind == EntryPoint then before[n.file := n] else before
  }

  datatype Linking = Linking(draft: Draft, entries: map<string, Node>)

  predicate HasSanitizer(nodes: seq<Node>, file: string) {
    exists n :: n in nodes && n.kind == Sanitizer && n.file == file && n.sanitizer
  }

  /** The entry a finding hangs on, made up when its file has none. */
  function WithEntry(l: Linking, file: string): (r: Linking)
    ensures file in r.entries
  {
    if file in l.entries then l
    else Linking(l.draft.(nodes := l.draft.nodes + [FallbackEntry(file)]), l.entries[file := FallbackEntry(file)])
  }

  function WithSink(nodes: seq<Node>, sink: Node): seq<Node> {
    if Known(nodes, sink.id) then nodes else nodes + [sink]
  }

  function FindingLinks(nodes: seq<Node>, entry: NodeId, f: Finding): seq<Link> {
    var file, name := FileOf(f), FunctionName(f);
    var via := NodeId(file, 0, name, "");
    if name != "" && Known(nodes, via) then
      [Link(entry, via, PassesData, true, false), Link(via, FindingId(f), ReachesSink, true, HasSanitizer(nodes, file))]
    else [Link(entry, FindingId(f), ReachesSink, true, false)]
  }

  /** One finding of a fresh builder, whose graph is still empty, so every one of a sink category gets its edges. */
  function AddFinding(l: Linking, f: Finding, jewels: seq<string>): Linking {
    if !SinkCategory(f) then l
    else
      var l1 := WithEntry(l, FileOf(f));
      var nodes := WithSink(l1.draft.nodes, FindingSink(f, jewels));
      Linking(Draft(nodes, l1.draft.links + FindingLinks(nodes, l1.entries[FileOf(f)].id, f)), l1.entries)
  }

  function AddFindings(l: Linking, fs: seq<Finding>, jewels: seq<string>): Linking {
    if fs == [] then l else AddFinding(AddFindings(l, fs[..|fs| - 1], jewels), fs[|fs| - 1], jewels)
  }

  function Built(asts: seq<FileAst>, fs: seq<Finding>, jewels: seq<string>): Linking {
    var d := AddFiles(asts, jewels);
    AddFindings(Linking(d, EntryByFile(d.nodes)), fs, jewels)
  }

  // ---------------------------------------------------------------- the directed graph

  /** A networkx DiGraph: nodes in first-insertion order, the attributes written last, adjacency lists. */
  datatype Graph = Graph(order: seq<NodeId>, data: map<NodeId, Node>, succ: Adjacency<NodeId>)

  const EMPTY_GRAPH := Graph([], map[], map[])

  function AddNode(g: Graph, n: Node): Graph {
    if n.id in g.data then g.(data := g.data[n.id := n])
    else Graph(g.order + [n.id], g.data[n.id := n], g.succ[n.id := []])
  }

  /** nx.has_path: a simple path, of any length a graph can hold. */
  predicate HasPath(g: Graph, u: NodeId, v: NodeId) { u == v || AllSimplePaths(g.succ, u, v, |g.order|) != [] }

  function AddLink(g: Graph, k: Link): Graph {
    if k.from !in g.succ || k.to in g.succ[k.from] then g
    else g.(succ := g.succ[k.from := g.succ[k.from] + [k.to]])
  }

  function WithNodes(nodes: seq<Node>): Graph {
    if nodes == [] then EMPTY_GRAPH else AddNode(WithNodes(nodes[..|nodes| - 1]), nodes[|nodes| - 1])
  }

  function WithLinks(g: Graph, links: seq<Link>): Graph {
    if links == [] then g else AddLink(WithLinks(g, links[..|links| - 1]), links[|links| - 1])
  }

  function GraphOf(d: Draft): Graph { WithLinks(WithNodes(d.nodes), d.links) }

  // ---------------------------------------------------------------- the builder

  class GraphBuilder {
    var nodes: seq<Node>
    var links: seq<Link>
    var index: map<NodeId, Node>
    var entryByFile: map<string, Node>
    var graph: Graph

    ghost predicate Indexed() reads this { index == Latest(nodes) }

    constructor ()
      ensures nodes == [] && links == [] && index == map[] && entryByFile == map[] && graph == EMPTY_GRAPH
    {
      nodes, links, index, entryByFile, graph := [], [], map[], map[], EMPTY_GRAPH;
    }

    method Append(n: Node)
      requires Indexed()
      modifies this`nodes, this`index
      ensures Indexed() && nodes == old(nodes) + [n]
    {
      nodes := nodes + [n];
      index := index[n.id := n];
      assert nodes[..|nodes| - 1] == old(nodes);
    }

    method AppendEntries(ast: FileAst, jewels: seq<string>)
      requires Indexed()
      modifies this`nodes, this`index
      ensures Indexed() && nodes == old(nodes) + EntryNodes(ast, jewels)
    {
      for i := 0 to |ast.entries|
        invariant Indexed() && nodes == old(nodes) + EntryNodes(ast, jewels)[..i]
      {
        Append(EntryNode(ast.entries[i], jewels));
      }
    }

    method AppendFunctions(ast: FileAst, jewels: seq<string>)
      requires Indexed()
      modifies this`nodes, this`index
      ensures Indexed() && nodes == old(nodes) + FunctionNodes(ast, jewels)
    {
      for i := 0 to |ast.functions|
        invariant Indexed() && nodes == old(nodes) + FunctionNodes(ast, jewels)[..i]
      {
        Append(FunctionNode(ast.file, ast.functions[i], jewels));
      }
    }

    method AppendSanitizers(ast: FileAst)
      requires Indexed()
      modifies this`nodes, this`index
      ensures Indexed() && nodes == old(nodes) + SanitizerNodes(ast)
    {
      for i := 0 to |ast.sanitizers|
        invariant Indexed() && nodes == old(nodes) + SanitizerNodes(ast)[..i]
      {
        Append(SanitizerNode(ast.file, ast.sanitizers[i]));
      }
    }

    method AppendFileNodes(ast: FileAst, jewels: seq<string>)
      requires Indexed()
      modifies this`nodes, this`index
      ensures Indexed()
      ensures nodes == old(nodes) + EntryNodes(ast, jewels) + FunctionNodes(ast, jewels) + SanitizerNodes(ast)
    {
      AppendEntries(ast, jewels);
      AppendFunctions(ast, jewels);
      AppendSanitizers(ast);
    }

    method AppendCalls(ast: FileAst)
      requires Indexed()
      modifies this`links
      ensures links == old(links) + CallLinks(ast.file, ast.calls, nodes)
    {
      for i := 0 to |ast.calls|
        invariant links == old(links) + CallLinks(ast.file, ast.calls[..i], nodes)
      {
        var c := ast.calls[i];
        var from, to := NodeId(ast.file, 0, c.caller, ""), NodeId(ast.file, 0, c.callee, "");
        assert ast.calls[..i + 1][..i] == ast.calls[..i];
        if from in index && to in index {
          links := links + [Link(from, to, Calls, c.tainted, false)];
        }
      }
      assert ast.calls[..|ast.calls|] == ast.calls;
    }

    method AppendHandlers(ast: FileAst)
      requires Indexed()
      modifies this`links
      ensures links == old(links) + HandlerLinks(ast.file, ast.entries, nodes)
    {
      for i := 0 to |ast.entries|
        invariant links == old(links) + HandlerLinks(ast.file, ast.entries[..i], nodes)
      {
        var e := ast.entries[i];
        var from, to := NodeId(ast.file, e.line, e.handler, e.route), NodeId(ast.file, e.line, e.handler, "");
        assert ast.entries[..i + 1][..i] == ast.entries[..i];
        if from in index && to in index && from != to {
          links := links + [Link(from, to, Calls, true, false)];
        }
      }
      assert ast.entries[..|ast.entries|] == ast.entries;
    }

    method AppendSinkCall(ast: FileAst, call: SinkCall, jewels: seq<string>)
      requires Indexed()
      modifies this`nodes, this`index, this`links
      ensures Indexed() && Draft(nodes, links) == AddSinkCall(old(Draft(nodes, links)), ast, call, jewels)
    {
      var sink := SinkCallNode(ast.file, call, jewels);
      Append(sink);
      if ast.functions != [] && ast.functions[0].name != "" {
        var from := NodeId(ast.file, 0, ast.functions[0].name, "");
        if from in index {
          links := links + [Link(from, sink.id, ReachesSink, true, false)];
        }
      }
    }

    method AppendSinkCalls(ast: FileAst, jewels: seq<string>)
      requires Indexed()
      modifies this`nodes, this`index, this`links
      ensures Indexed() && Draft(nodes, links) == AddSinkCalls(old(Draft(nodes, links)), ast, ast.sinkCalls, jewels)
    {
      ghost var start := Draft(nodes, links);
      for i := 0 to |ast.sinkCalls|
        invariant Indexed() && Draft(nodes, links) == AddSinkCalls(start, ast, ast.sinkCalls[..i], jewels)
      {
        assert ast.sinkCalls[..i + 1][..i] == ast.sinkCalls[..i];
        AppendSinkCall(ast, ast.sinkCalls[i], jewels);
      }
      assert ast.sinkCalls[..|ast.sinkCalls|] == ast.sinkCalls;
    }

    method EnsureEntry(file: string)
      requires Indexed()
      modifies this`nodes, this`index, this`entryByFile
      ensures Indexed()
      ensures Linking(Draft(nodes, links), entryByFile)
          == WithEntry(old(Linking(Draft(nodes, links), entryByFile)), file)
    {
      if file !in entryByFile {
        entryByFile := entryByFile[file := FallbackEntry(file)];
        Append(FallbackEntry(file));
      }
    }

    method AppendFindingLinks(entry: Node, f: Finding)
      requires Indexed()
      modifies this`links
      ensures links == old(links) + FindingLinks(nodes, entry.id, f)
    {
      var via := NodeId(FileOf(f), 0, FunctionName(f), "");
      if FunctionName(f) != "" && via in index {
        links := links + [Link(entry.id, via, PassesData, true, false)];
        links := links + [Link(via, FindingId(f), ReachesSink, true, HasSanitizer(nodes, FileOf(f)))];
      } else {
        links := links + [Link(entry.id, FindingId(f), ReachesSink, true, false)];
      }
    }

    /** The path test reads a graph that nothing has been put into yet, so it never holds. */
    method LinkFinding(f: Finding, jewels: seq<string>)
      requires Indexed() && graph == EMPTY_GRAPH
      modifies this`nodes, this`index, this`links, this`entryByFile
      ensures Indexed()
      ensures Linking(Draft(nodes, links), entryByFile)
          == AddFinding(old(Linking(Draft(nodes, links), entryByFile)), f, jewels)
    {
      if !SinkCategory(f) { return; }
      EnsureEntry(FileOf(f));
      var sink := FindingSink(f, jewels);
      if sink.id !in index { Append(sink); }
      var entry := entryByFile[FileOf(f)];
      var pathExists := graph.order != [] && HasPath(graph, entry.id, sink.id);
      if !pathExists { AppendFindingLinks(entry, f); }
    }

    method AppendFiles(asts: seq<FileAst>, jewels: seq<string>)
      requires Indexed() && nodes == [] && links == []
      modifies this`nodes, this`index, this`links
      ensures Indexed() && Draft(nodes, links) == AddFiles(asts, jewels)
    {
      for i := 0 to |asts|
        invariant Indexed() && Draft(nodes, links) == AddFiles(asts[..i], jewels)
      {
        assert asts[..i + 1][..i] == asts[..i];
        AppendFileNodes(asts[i], jewels);
        AppendCalls(asts[i]);
        AppendHandlers(asts[i]);
        AppendSinkCalls(asts[i], jewels);
      }
      assert asts[..|asts|] == asts;
    }

    method IndexEntries()
      modifies this`entryByFile
      ensures entryByFile == EntryByFile(nodes)
    {
      entryByFile := map[];
      for i := 0 to |nodes|
        invariant entryByFile == EntryByFile(nodes[..i])
      {
        assert nodes[..i + 1][..i] == nodes[..i];
        if nodes[i].kind == EntryPoint { entryByFile := entryByFile[nodes[i].file := nodes[i]]; }
      }
      assert nodes[..|nodes|] == nodes;
    }

    method LinkFindings(findings: seq<Finding>, jewels: seq<string>)
      requires Indexed() && graph == EMPTY_GRAPH
      modifies this`nodes, this`index, this`links, this`entryByFile
      ensures Indexed()
      ensures Linking(Draft(nodes, links), entryByFile)
          == AddFindings(old(Linking(Draft(nodes, links), entryByFile)), findings, jewels)
    {
      ghost var start := Linking(Draft(nodes, links), entryByFile);
      for i := 0 to |findings|
        invariant Indexed() && Linking(Draft(nodes, links), entryByFile) == AddFindings(start, findings[..i], jewels)
      {
        assert findings[..i + 1][..i] == findings[..i];
        LinkFinding(findings[i], jewels);
      }
      assert findings[..|findings|] == findings;
    }

    /** build_from_scan_results of a builder that has built nothing yet. */
    method BuildFromScanResults(asts: seq<FileAst>, findings: seq<Finding>, jewels: seq<string>)
      requires Indexed() && nodes == [] && links == [] && graph == EMPTY_GRAPH
      modifies this
      ensures Linking(Draft(nodes, links), entryByFile) == Built(asts, findings, jewels)
      ensures graph == GraphOf(Draft(nodes, links))
    {
      AppendFiles(asts, jewels);
      IndexEntries();
      LinkFindings(findings, jewels);
      FillGraph();
    }

    method FillGraph()
      requires graph == EMPTY_GRAPH
      modifies this`graph
      ensures graph == GraphOf(Draft(nodes, links))
    {
      for i := 0 to |nodes|
        invariant graph == WithNodes(nodes[..i])
      {
        assert nodes[..i + 1][..i] == nodes[..i];
        graph := AddNode(graph, nodes[i]);
      }
      assert nodes[..|nodes|] == nodes;
      for i := 0 to |links|
        invariant graph == WithLinks(WithNodes(nodes), links[..i])
      {
        assert links[..i + 1][..i] == links[..i];
        graph := AddLink(graph, links[i]);
      }
      assert links[..|links|] == links;
    }
  }

  // ---------------------------------------------------------------- nothing dangles

  lemma {:induction false} KnownMember(nodes: seq<Node>, id: NodeId)
    ensures Known(nodes, id) <==> exists i :: 0 <= i < |nodes| && nodes[i].id == id
    ensures Known(nodes, id) ==> Latest(nodes)[id] in nodes && Latest(nodes)[id].id == id
  {
    if nodes != [] {
      var before, n := nodes[..|nodes| - 1], nodes[|nodes| - 1];
      KnownMember(before, id);
      assert nodes == before + [n];
      if n.id == id {
        assert nodes[|before|].id == id;
      } else if Known(before, id) {
        var i :| 0 <= i < |before| && before[i].id == id;
        assert nodes[i].id == id;
      }
    }
  }

  lemma KnownGrows(nodes: seq<Node>, more: seq<Node>, id: NodeId)
    requires Known(nodes, id)
    ensures Known(nodes + more, id)
  {
    KnownMember(nodes, id);
    KnownMember(nodes + more, id);
    var i :| 0 <= i < |nodes| && nodes[i].id == id;
    assert (nodes + more)[i].id == id;
  }

  /** Every edge joins two known nodes. */
  ghost predicate Joined(nodes: seq<Node>, links: seq<Link>) {
    forall k :: k in links ==> Known(nodes, k.from) && Known(nodes, k.to)
  }

  lemma JoinedGrows(nodes: seq<Node>, more: seq<Node>, links: seq<Link>)
    requires Joined(nodes, links)
    ensures Joined(nodes + more, links)
  {
    forall k | k in links ensures Known(nodes + more, k.from) && Known(nodes + more, k.to) {
      KnownGrows(nodes, more, k.from);
      KnownGrows(nodes, more, k.to);
    }
  }

  lemma {:induction false} LookedUpLinksJoin(file: string, calls: seq<Call>, entries: seq<Entry>, nodes: seq<Node>)
    ensures Joined(nodes, CallLinks(file, calls, nodes)) && Joined(nodes, HandlerLinks(file, entries, nodes))
    decreases |calls| + |entries|
  {
    if calls != [] { LookedUpLinksJoin(file, calls[..|calls| - 1], entries, nodes); }
    if entries != [] { LookedUpLinksJoin(file, calls, entries[..|entries| - 1], nodes); }
  }

  lemma {:induction false} SinkCallsJoin(d: Draft, ast: FileAst, calls: seq<SinkCall>, jewels: seq<string>)
    requires Joined(d.nodes, d.links)
    ensures var r := AddSinkCalls(d, ast, calls, jewels); Joined(r.nodes, r.links)
  {
    if calls != [] {
      SinkCallsJoin(d, ast, calls[..|calls| - 1], jewels);
      SinkCallJoins(AddSinkCalls(d, ast, calls[..|calls| - 1], jewels), ast, calls[|calls| - 1], jewels);
    }
  }

  lemma SinkCallJoins(d: Draft, ast: FileAst, call: SinkCall, jewels: seq<string>)
    requires Joined(d.nodes, d.links)
    ensures var r := AddSinkCall(d, ast, call, jewels); Joined(r.nodes, r.links)
  {
    var sink := SinkCallNode(ast.file, call, jewels);
    JoinedGrows(d.nodes, [sink], d.links);
    NodeKnown(d.nodes + [sink], sink);
  }

  lemma FileJoins(d: Draft, ast: FileAst, jewels: seq<string>)
    requires Joined(d.nodes, d.links)
    ensures var r := AddFile(d, ast, jewels); Joined(r.nodes, r.links)
  {
    var more := EntryNodes(ast, jewels) + FunctionNodes(ast, jewels) + SanitizerNodes(ast);
    var nodes := d.nodes + EntryNodes(ast, jewels) + FunctionNodes(ast, jewels) + SanitizerNodes(ast);
    assert nodes == d.nodes + more;
    JoinedGrows(d.nodes, more, d.links);
    LookedUpLinksJoin(ast.file, ast.calls, ast.entries, nodes);
    var links := d.links + CallLinks(ast.file, ast.calls, nodes) + HandlerLinks(ast.file, ast.entries, nodes);
    SinkCallsJoin(Draft(nodes, links), ast, ast.sinkCalls, jewels);
  }

  lemma {:induction false} FilesJoin(asts: seq<FileAst>, jewels: seq<string>)
    ensures var d := AddFiles(asts, jewels); Joined(d.nodes, d.links)
  {
    if asts != [] {
      FilesJoin(asts[..|asts| - 1], jewels);
      FileJoins(AddFiles(asts[..|asts| - 1], jewels), asts[|asts| - 1], jewels);
    }
  }

  /** Each listed entry is an entry-point node of its file, among the nodes. */
  ghost predicate EntriesListed(entries: map<string, Node>, nodes: seq<Node>) {
    forall f :: f in entries ==> entries[f] in nodes && entries[f].kind == EntryPoint && entries[f].file == f
  }

  lemma {:induction false} EntryByFileListed(nodes: seq<Node>)
    ensures EntriesListed(EntryByFile(nodes), nodes)
  {
    if nodes != [] {
      EntryByFileListed(nodes[..|nodes| - 1]);
      assert nodes == nodes[..|nodes| - 1] + [nodes[|nodes| - 1]];
    }
  }

  ghost predicate Listed(links: seq<Link>, u: NodeId, v: NodeId) {
    exists k :: k in links && k.from == u && k.to == v
  }

  /** The finding's sink hangs on its file's entry: by one edge, or by two through its function's node. */
  ghost predicate Hooked(l: Linking, f: Finding) {
    SinkCategory(f) ==>
      && FileOf(f) in l.entries && Known(l.draft.nodes, FindingId(f))
      && Within2(l.draft.links, l.entries[FileOf(f)].id, FindingId(f))
  }

  ghost predicate Sound(l: Linking) {
    Joined(l.draft.nodes, l.draft.links) && EntriesListed(l.entries, l.draft.nodes)
  }

  lemma NodeKnown(nodes: seq<Node>, n: Node)
    requires n in nodes
    ensures Known(nodes, n.id)
  {
    KnownMember(nodes, n.id);
    var i :| 0 <= i < |nodes| && nodes[i] == n;
    assert nodes[i].id == n.id;
  }

  /** l grew into r: nodes and edges were appended, entries were added. */
  ghost predicate Grew(l: Linking, r: Linking) {
    && l.draft.nodes <= r.draft.nodes && l.draft.links <= r.draft.links
    && forall file :: file in l.entries ==> file in r.entries && r.entries[file] == l.entries[file]
  }

  lemma EntrySound(l: Linking, file: string)
    requires Sound(l)
    ensures var r := WithEntry(l, file); Sound(r) && Grew(l, r) && Known(r.draft.nodes, r.entries[file].id)
  {
    JoinedGrows(l.draft.nodes, [FallbackEntry(file)], l.draft.links);
    NodeKnown(WithEntry(l, file).draft.nodes, WithEntry(l, file).entries[file]);
  }

  lemma SinkSound(nodes: seq<Node>, links: seq<Link>, sink: Node, other: NodeId)
    requires Joined(nodes, links) && Known(nodes, other)
    ensures var r := WithSink(nodes, sink); Joined(r, links) && Known(r, sink.id) && Known(r, other) && nodes <= r
  {
    JoinedGrows(nodes, [sink], links);
    KnownGrows(nodes, [sink], other);
    NodeKnown(nodes + [sink], sink);
  }

  lemma FindingHooks(l: Linking, f: Finding, jewels: seq<string>)
    requires Sound(l)
    ensures var r := AddFinding(l, f, jewels); Sound(r) && Hooked(r, f) && Grew(l, r)
  {
    if SinkCategory(f) {
      var file, sink := FileOf(f), FindingSink(f, jewels);
      var l1 := WithEntry(l, file);
      EntrySound(l, file);
      var entry := l1.entries[file].id;
      SinkSound(l1.draft.nodes, l1.draft.links, sink, entry);
      var nodes := WithSink(l1.draft.nodes, sink);
      FindingLinksJoin(nodes, l1.draft.links, entry, f);
    }
  }

  /** s is one edge from e, or two. */
  ghost predicate Within2(links: seq<Link>, e: NodeId, s: NodeId) {
    Listed(links, e, s) || exists v :: Listed(links, e, v) && Listed(links, v, s)
  }

  lemma FindingLinksJoin(nodes: seq<Node>, links: seq<Link>, entry: NodeId, f: Finding)
    requires Joined(nodes, links) && Known(nodes, entry) && Known(nodes, FindingId(f))
    ensures var all := links + FindingLinks(nodes, entry, f); Joined(nodes, all) && Within2(all, entry, FindingId(f))
  {
    var via := NodeId(FileOf(f), 0, FunctionName(f), "");
    if FunctionName(f) != "" && Known(nodes, via) {
      var first := Link(entry, via, PassesData, true, false);
      var second := Link(via, FindingId(f), ReachesSink, true, HasSanitizer(nodes, FileOf(f)));
      LinkAdded(nodes, links, first);
      LinkAdded(nodes, links + [first], second);
      assert links + [first] + [second] == links + [first, second];
    } else {
      LinkAdded(nodes, links, Link(entry, FindingId(f), ReachesSink, true, false));
    }
  }

  lemma LinkAdded(nodes: seq<Node>, links: seq<Link>, k: Link)
    requires Joined(nodes, links) && Known(nodes, k.from) && Known(nodes, k.to)
    ensures Joined(nodes, links + [k]) && Listed(links + [k], k.from, k.to)
    ensures forall u, v :: Listed(links, u, v) ==> Listed(links + [k], u, v)
  {
    assert k in links + [k];
    assert forall j :: j in links ==> j in links + [k];
  }

  lemma HookedGrows(l: Linking, r: Linking, f: Finding)
    requires Hooked(l, f) && Grew(l, r)
    ensures Hooked(r, f)
  {
    assert r.draft.nodes == l.draft.nodes + r.draft.nodes[|l.draft.nodes|..];
    if SinkCategory(f) {
      KnownGrows(l.draft.nodes, r.draft.nodes[|l.draft.nodes|..], FindingId(f));
      assert forall k :: k in l.draft.links ==> k in r.draft.links;
      assert forall u, v :: Listed(l.draft.links, u, v) ==> Listed(r.draft.links, u, v);
    }
  }

  lemma {:induction false} FindingsHook(l: Linking, fs: seq<Finding>, jewels: seq<string>)
    requires Sound(l)
    ensures var r := AddFindings(l, fs, jewels);
      Sound(r) && forall i :: 0 <= i < |fs| ==> Hooked(r, fs[i])
  {
    if fs != [] {
      FindingsHook(l, fs[..|fs| - 1], jewels);
      var before := AddFindings(l, fs[..|fs| - 1], jewels);
      FindingHooks(before, fs[|fs| - 1], jewels);
      forall i | 0 <= i < |fs| - 1 ensures Hooked(AddFindings(l, fs, jewels), fs[i]) {
        assert fs[..|fs| - 1][i] == fs[i];
        HookedGrows(before, AddFindings(l, fs, jewels), fs[i]);
      }
    }
  }

  /** In every graph built, edges join known nodes and every sink-category finding hangs on its file's entry. */
  lemma BuildIsSound(asts: seq<FileAst>, fs: seq<Finding>, jewels: seq<string>)
    ensures Sound(Built(asts, fs, jewels))
    ensures forall i :: 0 <= i < |fs| ==> Hooked(Built(asts, fs, jewels), fs[i])
  {
    FilesJoin(asts, jewels);
    EntryByFileListed(AddFiles(asts, jewels).nodes);
    FindingsHook(Linking(AddFiles(asts, jewels), EntryByFile(AddFiles(asts, jewels).nodes)), fs, jewels);
  }

  // ---------------------------------------------------------------- the graph is the two lists

  /** Node order, attributes and adjacency agree, and no adjacency list leaves the graph or repeats. */
  ghost predicate WellFormed(g: Graph) {
    && Distinct(g.order) && (forall v :: v in g.order <==> v in g.data)
    && g.succ.Keys == g.data.Keys && SimpleLists(g.succ)
    && (forall u, v :: Edge(g.succ, u, v) ==> v in g.data)
    && (forall v :: v in g.data ==> g.data[v].id == v)
  }

  /** A graph of nodes without edges. */
  ghost predicate Bare(g: Graph) {
    && Distinct(g.order) && (forall v :: v in g.order <==> v in g.data)
    && g.succ.Keys == g.data.Keys && (forall v :: v in g.data ==> g.succ[v] == [] && g.data[v].id == v)
  }

  lemma AddNodeBare(g: Graph, n: Node)
    requires Bare(g)
    ensures Bare(AddNode(g, n)) && AddNode(g, n).data == g.data[n.id := n]
  {
  }

  lemma {:induction false} NodesGraph(nodes: seq<Node>)
    ensures Bare(WithNodes(nodes)) && WithNodes(nodes).data == Latest(nodes)
  {
    if nodes != [] {
      NodesGraph(nodes[..|nodes| - 1]);
      AddNodeBare(WithNodes(nodes[..|nodes| - 1]), nodes[|nodes| - 1]);
    }
  }

  lemma BareIsWellFormed(g: Graph)
    requires Bare(g)
    ensures WellFormed(g) && forall u, v :: !Edge(g.succ, u, v)
  {
  }

  lemma AddLinkAddsOne(g: Graph, k: Link)
    requires WellFormed(g) && k.from in g.data && k.to in g.data
    ensures var r := AddLink(g, k);
      && WellFormed(r) && r.data == g.data
      && forall u, v :: Edge(r.succ, u, v) <==> Edge(g.succ, u, v) || (u == k.from && v == k.to)
  {
    forall u, v | Edge(AddLink(g, k).succ, u, v) ensures v in g.data {
      assert Edge(g.succ, u, v) || (u == k.from && v == k.to);
    }
  }

  lemma ListedSnoc(links: seq<Link>, k: Link, u: NodeId, v: NodeId)
    ensures Listed(links + [k], u, v) <==> Listed(links, u, v) || (u == k.from && v == k.to)
  {
    assert k in links + [k];
    assert forall j :: j in links ==> j in links + [k];
  }

  ghost predicate EdgesListed(g: Graph, links: seq<Link>) {
    forall u, v :: Edge(g.succ, u, v) <==> Listed(links, u, v)
  }

  lemma LinkListed(g: Graph, links: seq<Link>, k: Link)
    requires WellFormed(g) && k.from in g.data && k.to in g.data && EdgesListed(g, links)
    ensures EdgesListed(AddLink(g, k), links + [k])
  {
    AddLinkAddsOne(g, k);
    forall u, v ensures Edge(AddLink(g, k).succ, u, v) <==> Listed(links + [k], u, v) { ListedSnoc(links, k, u, v); }
  }

  lemma {:induction false} LinksGraph(nodes: seq<Node>, links: seq<Link>)
    requires Joined(nodes, links)
    ensures var g := WithLinks(WithNodes(nodes), links);
        WellFormed(g) && g.data == Latest(nodes) && EdgesListed(g, links)
  {
    if links == [] {
      NodesGraph(nodes);
      BareIsWellFormed(WithNodes(nodes));
    } else {
      var before, k := links[..|links| - 1], links[|links| - 1];
      assert links == before + [k];
      LinksGraph(nodes, before);
      AddLinkAddsOne(WithLinks(WithNodes(nodes), before), k);
      LinkListed(WithLinks(WithNodes(nodes), before), before, k);
    }
  }

  /** The graph holds the last node of every id and exactly the listed edges. */
  lemma GraphIsFaithful(asts: seq<FileAst>, fs: seq<Finding>, jewels: seq<string>)
    ensures var d := Built(asts, fs, jewels).draft; var g := GraphOf(d);
      WellFormed(g) && g.data == Latest(d.nodes) && EdgesListed(g, d.links)
  {
    BuildIsSound(asts, fs, jewels);
    LinksGraph(Built(asts, fs, jewels).draft.nodes, Built(asts, fs, jewels).draft.links);
  }
}
