/** The Graphviz DOT exporter of the tree-sitter-stack-graphs playground: a
    read-only serialiser from a stack graph to DOT text.

    The graph is modelled abstractly: its nodes in `iter_nodes` order, each
    with the kind the colour table looks at and the string that the `Debug`
    format of its handle produces, and for each node the sinks of its
    outgoing edges in `outgoing_edges` order. A handle is a node's index. */
module DotExport {

  datatype NodeKind =
    | Root | Scope | PushSymbol | PopSymbol | PushScopedSymbol | PopScopedSymbol
    | DropScopes | JumpTo
    | Other  // any kind the colour table does not list

  /** A node: its handle's `Debug` text, and its kind. */
  datatype Node = Node(id: string, kind: NodeKind)

  type Handle = nat

  datatype StackGraph = StackGraph(nodes: seq<Node>, outgoing: seq<seq<Handle>>) {
    /** Every node has a list of out-edges, and every edge ends at a node of
        this graph. */
    predicate Valid() {
      && |outgoing| == |nodes|
      && forall h, k :: 0 <= h < |outgoing| && 0 <= k < |outgoing[h]| ==> outgoing[h][k] < |nodes|
    }
  }

  // ---------------------------------------------------------------------
  // Strings and lines

  /** The concatenation of a sequence of strings. */
  function Concat(parts: seq<string>): string {
    if parts == [] then "" else Concat(parts[..|parts| - 1]) + parts[|parts| - 1]
  }

  lemma ConcatSnoc(parts: seq<string>, last: string)
    ensures Concat(parts + [last]) == Concat(parts) + last
  {
    assert (parts + [last])[..|parts|] == parts;
  }

  lemma {:induction false} ConcatAppend(a: seq<string>, b: seq<string>)
    ensures Concat(a + b) == Concat(a) + Concat(b)
    decreases |b|
  {
    if b == [] {
      assert a + b == a;
    } else {
      var n := |b| - 1;
      assert a + b == (a + b[..n]) + [b[n]];
      assert b == b[..n] + [b[n]];
      ConcatSnoc(a + b[..n], b[n]);
      ConcatAppend(a, b[..n]);
      ConcatSnoc(b[..n], b[n]);
    }
  }

  /** `items` joined with `sep` between neighbours, as `Vec::join` does. */
  function Join(items: seq<string>, sep: string): string {
    if |items| == 0 then ""
    else if |items| == 1 then items[0]
    else items[0] + sep + Join(items[1..], sep)
  }

  // ---------------------------------------------------------------------
  // Specification of the output

  /** `node_to_string`: the `Debug` text of a handle. */
  function NodeToString(g: StackGraph, h: Handle): string
    requires h < |g.nodes|
  {
    g.nodes[h].id
  }

  /** The fill colour of each node kind. */
  function Color(kind: NodeKind): string {
    match kind
    case Scope => "lightblue"
    case PushSymbol => "lightgreen"
    case PopSymbol => "lightpink"
    case PushScopedSymbol => "lightgreen"
    case PopScopedSymbol => "lightpink"
    case DropScopes => "yellow"
    case JumpTo => "orange"
    case Root => "purple"
    case _ => "white"
  }

  /** The attribute list of a node statement. */
  function Attributes(g: StackGraph, h: Handle): string
    requires h < |g.nodes|
  {
    "fillcolor=\"" + Color(g.nodes[h].kind) + "\", style=\"filled\", label=\"" + NodeToString(g, h) + "\""
  }

  function NodeLine(g: StackGraph, h: Handle): string
    requires h < |g.nodes|
  {
    "    \"" + NodeToString(g, h) + "\" [" + Attributes(g, h) + "];\n"
  }

  function EdgeLine(g: StackGraph, source: Handle, sink: Handle): string
    requires source < |g.nodes| && sink < |g.nodes|
  {
    "    \"" + NodeToString(g, source) + "\" -> \"" + NodeToString(g, sink) + "\";\n"
  }

  /** The fixed lines before the node statements. */
  const HeaderLines: seq<string> := [
    "digraph StackGraph {\n",
    "    // Graph attributes\n",
    "    graph [rankdir=LR];\n",
    "    node [shape=box, style=rounded];\n",
    "\n",
    "    // Nodes\n"
  ]

  /** The fixed lines between the node statements and the edge statements. */
  const SectionBreak: seq<string> := ["\n", "    // Edges\n"]

  const Footer := "}\n"

  /** One node statement per node, in node order. */
  function NodeLines(g: StackGraph): (lines: seq<string>)
    ensures |lines| == |g.nodes|
    ensures forall h :: 0 <= h < |g.nodes| ==> lines[h] == NodeLine(g, h)
  {
    seq(|g.nodes|, h requires 0 <= h < |g.nodes| => NodeLine(g, h))
  }

  /** One edge statement per outgoing edge of `h`, in edge order. */
  function OutEdgeLines(g: StackGraph, h: Handle): (lines: seq<string>)
    requires g.Valid() && h < |g.nodes|
    ensures |lines| == |g.outgoing[h]|
    ensures forall k :: 0 <= k < |g.outgoing[h]| ==> lines[k] == EdgeLine(g, h, g.outgoing[h][k])
  {
    seq(|g.outgoing[h]|, k requires 0 <= k < |g.outgoing[h]| => EdgeLine(g, h, g.outgoing[h][k]))
  }

  /** The edge statements of the first `n` nodes, grouped by source node. */
  function EdgeLinesUpTo(g: StackGraph, n: nat): seq<string>
    requires g.Valid() && n <= |g.nodes|
  {
    if n == 0 then [] else EdgeLinesUpTo(g, n - 1) + OutEdgeLines(g, n - 1)
  }

  /** The number of outgoing edges of the first `n` nodes. */
  function EdgeCount(g: StackGraph, n: nat): nat
    requires g.Valid() && n <= |g.nodes|
  {
    if n == 0 then 0 else EdgeCount(g, n - 1) + |g.outgoing[n - 1]|
  }

  /** The lines of the DOT text, in order. */
  function Lines(g: StackGraph): seq<string>
    requires g.Valid()
  {
    HeaderLines + NodeLines(g) + SectionBreak + EdgeLinesUpTo(g, |g.nodes|) + [Footer]
  }

  /** The DOT text of a graph. */
  function Dot(g: StackGraph): string
    requires g.Valid()
  {
    Concat(Lines(g))
  }

  /** The node kinds the colour table lists, with their colours; every
      other kind is white, and only such a kind is. */
  lemma ColorTable(kind: NodeKind)
    ensures kind == Scope ==> Color(kind) == "lightblue"
    ensures kind == PushSymbol || kind == PushScopedSymbol ==> Color(kind) == "lightgreen"
    ensures kind == PopSymbol || kind == PopScopedSymbol ==> Color(kind) == "lightpink"
    ensures kind == DropScopes ==> Color(kind) == "yellow"
    ensures kind == JumpTo ==> Color(kind) == "orange"
    ensures kind == Root ==> Color(kind) == "purple"
    ensures Color(kind) == "white" <==> kind == Other
  {
  }

  /** The number of edge statements of the first `n` nodes is their number
      of outgoing edges. */
  lemma {:induction false} EdgeLinesCount(g: StackGraph, n: nat)
    requires g.Valid() && n <= |g.nodes|
    ensures |EdgeLinesUpTo(g, n)| == EdgeCount(g, n)
  {
    if n > 0 {
      EdgeLinesCount(g, n - 1);
    }
  }

  lemma {:induction false} EdgeCountMonotone(g: StackGraph, h: nat, n: nat)
    requires g.Valid() && h < n <= |g.nodes|
    ensures EdgeCount(g, h) + |g.outgoing[h]| <= EdgeCount(g, n)
  {
    if h < n - 1 {
      EdgeCountMonotone(g, h, n - 1);
    }
  }

  /** The `k`-th out-edge of node `h` has its statement at position
      `EdgeCount(g, h) + k`: statements are grouped by source node in node
      order, and by edge order within a group. */
  lemma {:induction false} EdgeLineAt(g: StackGraph, n: nat, h: Handle, k: nat)
    requires g.Valid() && h < n <= |g.nodes| && k < |g.outgoing[h]|
    ensures EdgeCount(g, h) + k < |EdgeLinesUpTo(g, n)|
    ensures EdgeLinesUpTo(g, n)[EdgeCount(g, h) + k] == EdgeLine(g, h, g.outgoing[h][k])
  {
    EdgeLinesCount(g, n);
    EdgeCountMonotone(g, h, n);
    EdgeLinesCount(g, n - 1);
    if h < n - 1 {
      EdgeLineAt(g, n - 1, h, k);
      EdgeCountMonotone(g, h, n - 1);
    }
  }

  /** Conversely, every edge statement is the statement of one outgoing
      edge. */
  lemma {:induction false} EdgeLineSource(g: StackGraph, n: nat, i: nat)
    requires g.Valid() && n <= |g.nodes| && i < |EdgeLinesUpTo(g, n)|
    ensures exists h: Handle, k: nat ::
      && h < n && k < |g.outgoing[h]| && i == EdgeCount(g, h) + k
      && EdgeLinesUpTo(g, n)[i] == EdgeLine(g, h, g.outgoing[h][k])
  {
    EdgeLinesCount(g, n);
    EdgeLinesCount(g, n - 1);
    if i < EdgeCount(g, n - 1) {
      EdgeLineSource(g, n - 1, i);
      var h: Handle, k: nat :| h < n - 1 && k < |g.outgoing[h]| && i == EdgeCount(g, h) + k
        && EdgeLinesUpTo(g, n - 1)[i] == EdgeLine(g, h, g.outgoing[h][k]);
      assert EdgeLinesUpTo(g, n)[i] == EdgeLinesUpTo(g, n - 1)[i];
    } else {
      var k := i - EdgeCount(g, n - 1);
      assert EdgeLinesUpTo(g, n)[i] == OutEdgeLines(g, n - 1)[k];
    }
  }

  /** The layout of the output, line by line: the six header lines, one
      statement per node in node order, a blank line and the edge comment,
      the edge statements (laid out as `EdgeLineAt` and `EdgeLineSource`
      say), and the closing brace. Every node statement therefore comes
      before the edge comment and every edge statement after it. */
  lemma DotLayout(g: StackGraph)
    requires g.Valid()
    ensures |Lines(g)| == 9 + |g.nodes| + EdgeCount(g, |g.nodes|)
    ensures Lines(g)[..6] == HeaderLines
    ensures forall h :: 0 <= h < |g.nodes| ==> Lines(g)[6 + h] == NodeLine(g, h)
    ensures Lines(g)[6 + |g.nodes|] == "\n"
    ensures Lines(g)[7 + |g.nodes|] == "    // Edges\n"
    ensures Lines(g)[8 + |g.nodes|..|Lines(g)| - 1] == EdgeLinesUpTo(g, |g.nodes|)
    ensures Lines(g)[|Lines(g)| - 1] == "}\n"
  {
    var n := |g.nodes|;
    EdgeLinesCount(g, n);
    var prefix := HeaderLines + NodeLines(g) + SectionBreak;
    assert Lines(g) == prefix + EdgeLinesUpTo(g, n) + [Footer];
    assert |prefix| == 8 + n;
    Middle(prefix, EdgeLinesUpTo(g, n), [Footer]);
    Middle([], HeaderLines, NodeLines(g) + SectionBreak + EdgeLinesUpTo(g, n) + [Footer]);
    assert Lines(g) == [] + HeaderLines + (NodeLines(g) + SectionBreak + EdgeLinesUpTo(g, n) + [Footer]);
  }

  lemma Middle<T>(a: seq<T>, b: seq<T>, c: seq<T>)
    ensures (a + b + c)[|a|..|a| + |b|] == b
    ensures (a + b + c)[..|a| + |b|] == a + b
  {
  }

  /** Concatenating a list with one string in front gives that string
      followed by the concatenation of the rest. */
  lemma ConcatFront(first: string, rest: seq<string>)
    ensures Concat([first] + rest) == first + Concat(rest)
  {
    ConcatAppend([first], rest);
    ConcatSnoc([], first);
    assert [] + [first] == [first];
  }

  /** The output begins with the header text and ends with the closing
      brace. */
  lemma DotFraming(g: StackGraph)
    requires g.Valid()
    ensures Dot(g) == Preamble + Concat(NodeLines(g)) + "\n    // Edges\n"
      + Concat(EdgeLinesUpTo(g, |g.nodes|)) + "}\n"
  {
    var nodes, edges := NodeLines(g), EdgeLinesUpTo(g, |g.nodes|);
    ConcatAppend(HeaderLines + nodes + SectionBreak + edges, [Footer]);
    ConcatAppend(HeaderLines + nodes + SectionBreak, edges);
    ConcatAppend(HeaderLines + nodes, SectionBreak);
    ConcatAppend(HeaderLines, nodes);
    ConcatSnoc([], Footer);
    assert [] + [Footer] == [Footer];
    PreambleText();
    SectionBreakText();
  }

  /** The header as one piece of text. */
  const Preamble := "digraph StackGraph {\n" + "    // Graph attributes\n" + "    graph [rankdir=LR];\n"
    + "    node [shape=box, style=rounded];\n" + "\n" + "    // Nodes\n"

  lemma PreambleText()
    ensures Concat(HeaderLines) == Preamble
  {
    ConcatSix("digraph StackGraph {\n", "    // Graph attributes\n", "    graph [rankdir=LR];\n",
      "    node [shape=box, style=rounded];\n", "\n", "    // Nodes\n");
  }

  /** The concatenation of six strings, one by one. */
  lemma ConcatSix(a: string, b: string, c: string, d: string, e: string, f: string)
    ensures Concat([a, b, c, d, e, f]) == a + b + c + d + e + f
  {
    var p := [a, b, c, d, e, f];
    ConcatSnoc([], a);
    assert [] + [a] == p[..1];
    ConcatSnoc(p[..1], b);
    assert p[..1] + [b] == p[..2];
    ConcatSnoc(p[..2], c);
    assert p[..2] + [c] == p[..3];
    ConcatSnoc(p[..3], d);
    assert p[..3] + [d] == p[..4];
    ConcatSnoc(p[..4], e);
    assert p[..4] + [e] == p[..5];
    ConcatSnoc(p[..5], f);
    assert p[..5] + [f] == p;
  }

  lemma SectionBreakText()
    ensures Concat(SectionBreak) == "\n    // Edges\n"
  {
    ConcatSnoc([], "\n");
    assert [] + ["\n"] == ["\n"];
    ConcatSnoc(["\n"], "    // Edges\n");
    assert ["\n"] + ["    // Edges\n"] == SectionBreak;
  }

  /** A graph without nodes is exported as the header, the edge comment and
      the closing brace alone. */
  lemma EmptyGraphDot(g: StackGraph)
    requires g.Valid() && |g.nodes| == 0
    ensures Dot(g) == Preamble + "\n    // Edges\n" + "}\n"
  {
    DotFraming(g);
    assert NodeLines(g) == [];
    assert EdgeLinesUpTo(g, 0) == [];
  }

  // ---------------------------------------------------------------------
  // Reading the lines back

  /** A line: text ending in its only newline. */
  predicate IsLine(l: string) {
    |l| > 0 && l[|l| - 1] == '\n' && '\n' !in l[..|l| - 1]
  }

  /** The index of the first newline of `s`, or its last index. */
  function LineEnd(s: string): (i: nat)
    requires s != []
    ensures i < |s|
  {
    if s[0] == '\n' || |s| == 1 then 0 else 1 + LineEnd(s[1..])
  }

  /** `s` cut after each newline. */
  function SplitLines(s: string): seq<string>
    decreases |s|
  {
    if s == [] then [] else var i := LineEnd(s); [s[..i + 1]] + SplitLines(s[i + 1..])
  }

  lemma {:induction false} LineEndOf(l: string, rest: string)
    requires IsLine(l)
    ensures LineEnd(l + rest) == |l| - 1
    decreases |l|
  {
    if |l| > 1 {
      assert l[0] == l[..|l| - 1][0];
      assert (l + rest)[1..] == l[1..] + rest;
      assert l[1..][..|l| - 2] == l[..|l| - 1][1..];
      LineEndOf(l[1..], rest);
    }
  }

  /** Splitting the concatenation of lines gives the lines back. */
  lemma {:induction false} SplitConcat(ls: seq<string>)
    requires AllLines(ls)
    ensures SplitLines(Concat(ls)) == ls
    decreases |ls|
  {
    if ls != [] {
      assert ls == [ls[0]] + ls[1..];
      ConcatFront(ls[0], ls[1..]);
      var rest := Concat(ls[1..]);
      LineEndOf(ls[0], rest);
      assert (ls[0] + rest)[..|ls[0]|] == ls[0];
      assert (ls[0] + rest)[|ls[0]|..] == rest;
      SplitConcat(ls[1..]);
    }
  }

  /** No node's handle text holds a newline. */
  predicate PlainIds(g: StackGraph) {
    forall h :: 0 <= h < |g.nodes| ==> '\n' !in g.nodes[h].id
  }

  /** A line is still a line after text without newlines in front of it. */
  lemma LineAfter(pre: string, tail: string)
    requires '\n' !in pre && IsLine(tail)
    ensures IsLine(pre + tail)
  {
    assert (pre + tail)[..|pre + tail| - 1] == pre + tail[..|tail| - 1];
  }

  lemma ColorIsPlain(kind: NodeKind)
    ensures '\n' !in Color(kind)
  {
  }

  lemma NodeLineIsLine(g: StackGraph, h: Handle)
    requires h < |g.nodes| && PlainIds(g)
    ensures IsLine(NodeLine(g, h))
  {
    ColorIsPlain(g.nodes[h].kind);
    var attrs := Attributes(g, h);
    assert '\n' !in attrs;
    var pre := "    \"" + NodeToString(g, h) + "\" [" + attrs;
    assert '\n' !in pre;
    assert IsLine("];\n") by { assert "];\n"[..2] == "];"; }
    LineAfter(pre, "];\n");
  }

  lemma EdgeLineIsLine(g: StackGraph, source: Handle, sink: Handle)
    requires source < |g.nodes| && sink < |g.nodes| && PlainIds(g)
    ensures IsLine(EdgeLine(g, source, sink))
  {
    var pre := "    \"" + NodeToString(g, source) + "\" -> \"" + NodeToString(g, sink);
    assert '\n' !in pre;
    assert IsLine("\";\n") by { assert "\";\n"[..2] == "\";"; }
    LineAfter(pre, "\";\n");
  }

  predicate AllLines(ls: seq<string>) {
    forall i :: 0 <= i < |ls| ==> IsLine(ls[i])
  }

  lemma AllLinesAppend(a: seq<string>, b: seq<string>)
    requires AllLines(a) && AllLines(b)
    ensures AllLines(a + b)
  {
    forall i | 0 <= i < |a + b| ensures IsLine((a + b)[i]) {
      if i < |a| { assert (a + b)[i] == a[i]; } else { assert (a + b)[i] == b[i - |a|]; }
    }
  }

  lemma FixedLinesAreLines()
    ensures AllLines(HeaderLines) && AllLines(SectionBreak) && AllLines([Footer])
  {
    forall i | 0 <= i < |HeaderLines| ensures IsLine(HeaderLines[i]) {
      if i < 3 { FirstHeaderLines(); } else { LastHeaderLines(); }
    }
    ClosingLines();
  }

  lemma FirstHeaderLines()
    ensures IsLine("digraph StackGraph {\n")
    ensures IsLine("    // Graph attributes\n")
    ensures IsLine("    graph [rankdir=LR];\n")
  {
  }

  lemma LastHeaderLines()
    ensures IsLine("    node [shape=box, style=rounded];\n")
    ensures IsLine("\n")
    ensures IsLine("    // Nodes\n")
  {
  }

  lemma ClosingLines()
    ensures IsLine("    // Edges\n")
    ensures IsLine("}\n")
  {
  }

  lemma {:induction false} EdgeLinesAreLines(g: StackGraph, n: nat)
    requires g.Valid() && PlainIds(g) && n <= |g.nodes|
    ensures AllLines(EdgeLinesUpTo(g, n))
  {
    if n > 0 {
      EdgeLinesAreLines(g, n - 1);
      var out := OutEdgeLines(g, n - 1);
      forall k | 0 <= k < |out| ensures IsLine(out[k]) {
        EdgeLineIsLine(g, n - 1, g.outgoing[n - 1][k]);
      }
      AllLinesAppend(EdgeLinesUpTo(g, n - 1), out);
    }
  }

  /** When no handle text holds a newline, the lines of the output are
      exactly `Lines(g)`: one line per header line, per node and per
      outgoing edge, as `DotLayout` lays them out. */
  lemma DotLines(g: StackGraph)
    requires g.Valid() && PlainIds(g)
    ensures SplitLines(Dot(g)) == Lines(g)
  {
    var nodes := NodeLines(g);
    forall h | 0 <= h < |nodes| ensures IsLine(nodes[h]) {
      NodeLineIsLine(g, h);
    }
    FixedLinesAreLines();
    EdgeLinesAreLines(g, |g.nodes|);
    AllLinesAppend(HeaderLines, nodes);
    AllLinesAppend(HeaderLines + nodes, SectionBreak);
    AllLinesAppend(HeaderLines + nodes + SectionBreak, EdgeLinesUpTo(g, |g.nodes|));
    AllLinesAppend(HeaderLines + nodes + SectionBreak + EdgeLinesUpTo(g, |g.nodes|), [Footer]);
    SplitConcat(Lines(g));
  }

  // ---------------------------------------------------------------------
  // The exporter, as the source builds it

  /** `get_node_attributes`: pushes the three attributes onto a list and
      joins them with ", ". */
  method GetNodeAttributes(g: StackGraph, h: Handle) returns (s: string)
    requires h < |g.nodes|
    ensures s == "fillcolor=\"" + Color(g.nodes[h].kind) + "\", style=\"filled\", label=\"" + NodeToString(g, h) + "\""
  {
    var attrs: seq<string> := [];
    var color := Color(g.nodes[h].kind);
    attrs := attrs + ["fillcolor=\"" + color + "\""];
    attrs := attrs + ["style=\"filled\""];
    attrs := attrs + ["label=\"" + NodeToString(g, h) + "\""];
    s := Join(attrs, ", ");
    JoinThree(attrs[0], attrs[1], attrs[2], ", ");
    assert attrs == [attrs[0], attrs[1], attrs[2]];
  }

  lemma JoinThree(a: string, b: string, c: string, sep: string)
    ensures Join([a, b, c], sep) == a + sep + b + sep + c
  {
    assert [a, b, c][1..] == [b, c];
    assert [b, c][1..] == [c];
    assert Join([b, c], sep) == b + sep + c;
    assert a + sep + (b + sep + c) == a + sep + b + sep + c;
  }

  /** `to_dot`: appends the header, one statement per node, the edge
      comment, one statement per outgoing edge and the closing brace. The
      two `push_str` calls whose text spans two lines are written as two
      appends, one per line. */
  method ToDot(g: StackGraph) returns (dot: string)
    requires g.Valid()
    ensures dot == Dot(g)
  {
    ghost var lines: seq<string> := [];
    dot := "";
    dot := Push(dot, lines, "digraph StackGraph {\n");
    lines := lines + ["digraph StackGraph {\n"];
    dot := Push(dot, lines, "    // Graph attributes\n");
    lines := lines + ["    // Graph attributes\n"];
    dot := Push(dot, lines, "    graph [rankdir=LR];\n");
    lines := lines + ["    graph [rankdir=LR];\n"];
    dot := Push(dot, lines, "    node [shape=box, style=rounded];\n");
    lines := lines + ["    node [shape=box, style=rounded];\n"];
    dot := Push(dot, lines, "\n");
    lines := lines + ["\n"];
    dot := Push(dot, lines, "    // Nodes\n");
    lines := lines + ["    // Nodes\n"];
    assert lines == HeaderLines;

    dot := PushNodeStatements(g, dot, lines);
    lines := lines + NodeLines(g);

    dot := Push(dot, lines, "\n");
    lines := lines + ["\n"];
    dot := Push(dot, lines, "    // Edges\n");
    lines := lines + ["    // Edges\n"];
    assert lines == HeaderLines + NodeLines(g) + SectionBreak;

    dot := PushEdgeStatements(g, dot, lines);
    lines := lines + EdgeLinesUpTo(g, |g.nodes|);

    dot := Push(dot, lines, Footer);
  }

  /** The first loop of `to_dot`: one node statement per node. */
  method PushNodeStatements(g: StackGraph, dot: string, ghost lines: seq<string>) returns (dot': string)
    requires dot == Concat(lines)
    ensures dot' == Concat(lines + NodeLines(g))
  {
    dot' := dot;
    ghost var done := lines;
    for h := 0 to |g.nodes|
      invariant done == lines + NodeLines(g)[..h]
      invariant dot' == Concat(done)
    {
      var attrs := GetNodeAttributes(g, h);
      var line := "    \"" + NodeToString(g, h) + "\" [" + attrs + "];\n";
      assert line == NodeLine(g, h);
      dot' := Push(dot', done, line);
      NodeLinesStep(g, h, lines);
      done := done + [line];
    }
    assert NodeLines(g)[..|g.nodes|] == NodeLines(g);
  }

  /** One more node's statement extends the node section. */
  lemma NodeLinesStep(g: StackGraph, h: Handle, lines: seq<string>)
    requires h < |g.nodes|
    ensures lines + NodeLines(g)[..h] + [NodeLine(g, h)] == lines + NodeLines(g)[..h + 1]
  {
    TakeSnoc(NodeLines(g), h);
  }

  /** The second loop of `to_dot`: for each node in order, one statement per
      outgoing edge. */
  method PushEdgeStatements(g: StackGraph, dot: string, ghost lines: seq<string>) returns (dot': string)
    requires g.Valid()
    requires dot == Concat(lines)
    ensures dot' == Concat(lines + EdgeLinesUpTo(g, |g.nodes|))
  {
    dot' := dot;
    ghost var done := lines;
    assert lines + EdgeLinesUpTo(g, 0) == lines;
    for h := 0 to |g.nodes|
      invariant done == lines + EdgeLinesUpTo(g, h)
      invariant dot' == Concat(done)
    {
      dot' := PushOutEdges(g, h, dot', done);
      EdgeLinesStep(g, h, lines);
      done := done + OutEdgeLines(g, h);
    }
  }

  /** One more node's edge statements extend the edge section. */
  lemma EdgeLinesStep(g: StackGraph, h: Handle, lines: seq<string>)
    requires g.Valid() && h < |g.nodes|
    ensures lines + EdgeLinesUpTo(g, h) + OutEdgeLines(g, h) == lines + EdgeLinesUpTo(g, h + 1)
  {
    assert EdgeLinesUpTo(g, h + 1) == EdgeLinesUpTo(g, h) + OutEdgeLines(g, h);
  }

  /** The inner loop of `to_dot`: one statement per outgoing edge of `h`. */
  method PushOutEdges(g: StackGraph, h: Handle, dot: string, ghost lines: seq<string>) returns (dot': string)
    requires g.Valid() && h < |g.nodes|
    requires dot == Concat(lines)
    ensures dot' == Concat(lines + OutEdgeLines(g, h))
  {
    dot' := dot;
    var sinks := g.outgoing[h];
    ghost var out := OutEdgeLines(g, h);
    ghost var done := lines;
    for k := 0 to |sinks|
      invariant done == lines + out[..k]
      invariant dot' == Concat(done)
    {
      dot' := Push(dot', done, "    \"" + NodeToString(g, h) + "\" -> \"" + NodeToString(g, sinks[k]) + "\";\n");
      assert out[k] == EdgeLine(g, h, sinks[k]);
      TakeSnoc(out, k);
      done := done + [out[k]];
    }
    assert out[..|sinks|] == out;
  }

  lemma TakeSnoc<T>(s: seq<T>, k: nat)
    requires k < |s|
    ensures s[..k + 1] == s[..k] + [s[k]]
  {
  }

  /** `String::push_str`: appends one line to the text, which keeps the text
      the concatenation of its lines. */
  method Push(dot: string, ghost lines: seq<string>, line: string) returns (dot': string)
    requires dot == Concat(lines)
    ensures dot' == dot + line
    ensures dot' == Concat(lines + [line])
  {
    dot' := dot + line;
    ConcatSnoc(lines, line);
  }
}
