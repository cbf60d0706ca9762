/** A whole file split into chunks for the index: its outermost small units, the units inside large
    containers, windows over other large units, and windows over a file without units. */
module IndexChunks {
  import opened Rows
  import opened Text
  import opened Windows
  import opened ChangedChunks
  import opened ChromaStore
  import IndexTasks

  /** `unit` and `container` say what the language's node types make of the node. */
  datatype Node = Node(kind: string, name: Option<string>, span: Span, unit: bool, container: bool, children: seq<Node>)

  datatype File = File(path: string, lines: seq<string>, maxUnitLines: int)

  predicate Small(f: File, n: Node) {
    n.span.last - n.span.first + 1 <= f.maxUnitLines
  }

  /** A unit that becomes chunks itself; `walk` does not look inside it. */
  predicate Emitted(f: File, n: Node) {
    n.unit && (Small(f, n) || !n.container)
  }

  /** An f-string prints a missing name as None. */
  function InnerScope(n: Node, scope: Option<string>): Option<string> {
    var own := n.kind + " " + if n.name.Some? then n.name.value else "None";
    Some(if scope.Some? then scope.value + " > " + own else own)
  }

  function FileWindow(f: File, w: Window): Chunk
    requires 1 <= w.first
  {
    Chunk(f.path, "window", None, w, Slice(f.lines, w.first, w.last), None)
  }

  function WindowsOver(f: File, ws: seq<Window>): (chunks: seq<Chunk>)
    requires forall i | 0 <= i < |ws| :: 1 <= ws[i].first
    ensures |chunks| == |ws| && forall i | 0 <= i < |ws| :: chunks[i] == FileWindow(f, ws[i])
  {
    if ws == [] then [] else [FileWindow(f, ws[0])] + WindowsOver(f, ws[1..])
  }

  function Pieces(f: File, n: Node, scope: Option<string>): seq<Chunk> {
    if Small(f, n) then [Chunk(f.path, n.kind, n.name, n.span, Slice(f.lines, n.span.first, n.span.last), scope)]
    else WindowsOver(f, VisibleFrom(f.lines, n.span.first, n.span.last))
  }

  function Walk(f: File, nodes: seq<Node>, scope: Option<string>): seq<Chunk> {
    if nodes == [] then [] else WalkNode(f, nodes[0], scope) + Walk(f, nodes[1..], scope)
  }

  function WalkNode(f: File, n: Node, scope: Option<string>): seq<Chunk> {
    if !n.unit then Walk(f, n.children, scope)
    else if Emitted(f, n) then Pieces(f, n, scope)
    else Walk(f, n.children, InnerScope(n, scope))
  }

  /** `parse` gives the root's children, or is None when no grammar is available. */
  function Chunks(f: File, parse: Option<seq<Node>>): seq<Chunk> {
    if f.lines == [] then []
    else if parse.Some? && Walk(f, parse.value, None) != [] then Walk(f, parse.value, None)
    else WindowsOver(f, VisibleFrom(f.lines, 1, |f.lines|))
  }

  method WindowChunks(f: File, start: int, end: nat) returns (chunks: seq<Chunk>)
    requires 1 <= start
    ensures chunks == WindowsOver(f, VisibleFrom(f.lines, start, if end == 0 then |f.lines| else end))
  {
    var windows := FileWindows(f.lines, start, end);
    chunks := WindowsOver(f, windows);
  }

  lemma WalkNext(f: File, nodes: seq<Node>, i: nat, scope: Option<string>, before: seq<Chunk>)
    requires i < |nodes|
    ensures before + Walk(f, nodes[i..], scope) == before + WalkNode(f, nodes[i], scope) + Walk(f, nodes[i + 1..], scope)
  {
    assert nodes[i..][1..] == nodes[i + 1..];
    assert before + (WalkNode(f, nodes[i], scope) + Walk(f, nodes[i + 1..], scope)) ==
           before + WalkNode(f, nodes[i], scope) + Walk(f, nodes[i + 1..], scope);
  }

  method WalkChildren(f: File, nodes: seq<Node>, scope: Option<string>) returns (chunks: seq<Chunk>)
    ensures chunks == Walk(f, nodes, scope)
    decreases nodes
  {
    chunks := [];
    for i := 0 to |nodes|
      invariant Walk(f, nodes, scope) == chunks + Walk(f, nodes[i..], scope)
    {
      WalkNext(f, nodes, i, scope, chunks);
      var child := nodes[i];
      var more;
      if !child.unit {
        more := WalkChildren(f, child.children, scope);
      } else if child.span.last - child.span.first + 1 <= f.maxUnitLines {
        more := [Chunk(f.path, child.kind, child.name, child.span, Slice(f.lines, child.span.first, child.span.last), scope)];
      } else if child.container {
        more := WalkChildren(f, child.children, InnerScope(child, scope));
      } else {
        more := WindowChunks(f, child.span.first, child.span.last);
      }
      chunks := chunks + more;
    }
  }

  method ExtractIndexChunks(f: File, parse: Option<seq<Node>>) returns (chunks: seq<Chunk>)
    ensures chunks == Chunks(f, parse)
  {
    if f.lines == [] {
      return [];
    }
    if parse.Some? {
      chunks := WalkChildren(f, parse.value, None);
      if chunks != [] {
        return;
      }
    }
    chunks := WindowChunks(f, 1, 0);
  }

  // ---- what the walk finds ----

  function Flatten(nodes: seq<Node>): seq<Node> {
    if nodes == [] then [] else [nodes[0]] + Flatten(nodes[0].children) + Flatten(nodes[1..])
  }

  /** Every node lies within its parent's lines. */
  predicate Nested(nodes: seq<Node>) {
    nodes == [] ||
    (NestedIn(nodes[0].children, nodes[0].span) && Nested(nodes[0].children) && Nested(nodes[1..]))
  }

  predicate NestedIn(nodes: seq<Node>, span: Window) {
    forall i | 0 <= i < |nodes| :: Inside(nodes[i].span, span)
  }

  ghost predicate HasPieces(f: File, e: Node, scope: Option<string>, chunks: seq<Chunk>) {
    forall c | c in Pieces(f, e, scope) :: c in chunks
  }

  /** `chunks` holds all the pieces of an emitted unit around `span`. */
  ghost predicate Indexed(f: File, nodes: seq<Node>, span: Window, chunks: seq<Chunk>) {
    exists e, scope :: e in Flatten(nodes) && Emitted(f, e) && Inside(span, e.span) && HasPieces(f, e, scope, chunks)
  }

  /** A chunk is a piece of an emitted unit of the tree. */
  ghost predicate FromUnit(f: File, nodes: seq<Node>, c: Chunk) {
    exists e, scope :: e in Flatten(nodes) && Emitted(f, e) && c in Pieces(f, e, scope)
  }

  lemma {:induction false} DescendantsAreInside(nodes: seq<Node>, span: Window, d: Node)
    requires Nested(nodes) && NestedIn(nodes, span) && d in Flatten(nodes)
    ensures Inside(d.span, span)
  {
    var n := nodes[0];
    if d in Flatten(n.children) {
      DescendantsAreInside(n.children, n.span, d);
    } else if d in Flatten(nodes[1..]) {
      DescendantsAreInside(nodes[1..], span, d);
    }
  }

  lemma IndexedLonger(f: File, some: seq<Node>, nodes: seq<Node>, span: Window, chunks: seq<Chunk>, more: seq<Chunk>)
    requires Indexed(f, some, span, chunks)
    requires (forall n | n in Flatten(some) :: n in Flatten(nodes)) && (forall c | c in chunks :: c in more)
    ensures Indexed(f, nodes, span, more)
  {
    var e, scope :| e in Flatten(some) && Emitted(f, e) && Inside(span, e.span) && HasPieces(f, e, scope, chunks);
    assert e in Flatten(nodes) && HasPieces(f, e, scope, more);
  }

  /** Every unit that can be a chunk is one, or lies within the lines of a unit all of whose pieces are. */
  lemma {:induction false} UnitsAreIndexed(f: File, nodes: seq<Node>, scope: Option<string>, u: Node)
    requires Nested(nodes) && u in Flatten(nodes) && Emitted(f, u)
    ensures Indexed(f, nodes, u.span, Walk(f, nodes, scope))
  {
    var n := nodes[0];
    if Emitted(f, n) && (u == n || u in Flatten(n.children)) {
      if u != n {
        DescendantsAreInside(n.children, n.span, u);
      }
      assert n in Flatten(nodes) && HasPieces(f, n, scope, Walk(f, nodes, scope));
    } else if u in Flatten(n.children) {
      var inner := if n.unit then InnerScope(n, scope) else scope;
      assert WalkNode(f, n, scope) == Walk(f, n.children, inner);
      UnitsAreIndexed(f, n.children, inner, u);
      IndexedLonger(f, n.children, nodes, u.span, Walk(f, n.children, inner), Walk(f, nodes, scope));
    } else {
      UnitsAreIndexed(f, nodes[1..], scope, u);
      IndexedLonger(f, nodes[1..], nodes, u.span, Walk(f, nodes[1..], scope), Walk(f, nodes, scope));
    }
  }

  lemma FromUnitLonger(f: File, some: seq<Node>, nodes: seq<Node>, c: Chunk)
    requires FromUnit(f, some, c) && forall n | n in Flatten(some) :: n in Flatten(nodes)
    ensures FromUnit(f, nodes, c)
  {
    var e, scope :| e in Flatten(some) && Emitted(f, e) && c in Pieces(f, e, scope);
    assert e in Flatten(nodes);
  }

  /** Nothing else is indexed. */
  lemma {:induction false} ChunksAreFromUnits(f: File, nodes: seq<Node>, scope: Option<string>, c: Chunk)
    requires c in Walk(f, nodes, scope)
    ensures FromUnit(f, nodes, c)
  {
    var n := nodes[0];
    if c in WalkNode(f, n, scope) {
      if Emitted(f, n) {
        assert n in Flatten(nodes);
      } else {
        ChunksAreFromUnits(f, n.children, if n.unit then InnerScope(n, scope) else scope, c);
        FromUnitLonger(f, n.children, nodes, c);
      }
    } else {
      ChunksAreFromUnits(f, nodes[1..], scope, c);
      FromUnitLonger(f, nodes[1..], nodes, c);
    }
  }

  // ---- what a unit becomes ----

  /** `u` is found from one of `nodes` down through each of `above` in turn. */
  predicate Descent(nodes: seq<Node>, above: seq<Node>, u: Node)
    decreases |above|
  {
    if above == [] then u in nodes else above[0] in nodes && Descent(above[0].children, above[1..], u)
  }

  /** The units on the way, each by its kind and name. */
  function Labels(path: seq<Node>): seq<string> {
    if path == [] then []
    else
      var n := path[0];
      (if n.unit then [n.kind + " " + if n.name.Some? then n.name.value else "None"] else []) + Labels(path[1..])
  }

  /** `outer`, when there is one, and the labels, joined by arrows. */
  function Chain(outer: Option<string>, labels: seq<string>): Option<string> {
    var all := (if outer.Some? then [outer.value] else []) + labels;
    if all == [] then None else Some(Join(" > ", all))
  }

  lemma JoinCons(first: string, rest: seq<string>)
    ensures Join(" > ", [first] + rest) == if rest == [] then first else first + " > " + Join(" > ", rest)
  {
    assert ([first] + rest)[1..] == rest;
  }

  lemma JoinMerges(a: string, b: string, rest: seq<string>)
    ensures Join(" > ", [a + " > " + b] + rest) == Join(" > ", [a] + ([b] + rest))
  {
    JoinCons(a + " > " + b, rest);
    JoinCons(a, [b] + rest);
    JoinCons(b, rest);
  }

  lemma ChainOne(outer: Option<string>, name: string, labels: seq<string>)
    ensures Chain(Some(if outer.Some? then outer.value + " > " + name else name), labels) == Chain(outer, [name] + labels)
  {
    if outer.Some? {
      JoinMerges(outer.value, name, labels);
    } else {
      assert [] + ([name] + labels) == [name] + labels;
    }
  }

  lemma WalkHolds(f: File, nodes: seq<Node>, scope: Option<string>, n: Node)
    requires n in nodes
    ensures forall c | c in WalkNode(f, n, scope) :: c in Walk(f, nodes, scope)
  {
    if n != nodes[0] {
      WalkHolds(f, nodes[1..], scope, n);
    }
  }

  lemma OneLevel(f: File, n: Node, scope: Option<string>, between: seq<Node>)
    requires !Emitted(f, n)
    ensures var inner := if n.unit then InnerScope(n, scope) else scope;
            && WalkNode(f, n, scope) == Walk(f, n.children, inner)
            && Chain(inner, Labels(between)) == Chain(scope, Labels([n] + between))
  {
    assert ([n] + between)[1..] == between;
    if n.unit {
      ChainOne(scope, n.kind + " " + if n.name.Some? then n.name.value else "None", Labels(between));
    } else {
      assert [] + Labels(between) == Labels(between);
    }
  }

  /** A unit below none that becomes chunks itself is indexed by its own pieces, whose scope names
      every large container around it. */
  lemma {:induction false} UnitIsIndexed(f: File, nodes: seq<Node>, scope: Option<string>, above: seq<Node>, u: Node)
    requires Descent(nodes, above, u) && Emitted(f, u) && forall n | n in above :: !Emitted(f, n)
    ensures HasPieces(f, u, Chain(scope, Labels(above)), Walk(f, nodes, scope))
    decreases |above|
  {
    if above == [] {
      WalkHolds(f, nodes, scope, u);
      assert Chain(scope, []) == scope;
    } else {
      var n := above[0];
      WalkHolds(f, nodes, scope, n);
      OneLevel(f, n, scope, above[1..]);
      UnitIsIndexed(f, n.children, if n.unit then InnerScope(n, scope) else scope, above[1..], u);
      assert [n] + above[1..] == above;
    }
  }

  predicate IsWhole(f: File, u: Node, scope: Option<string>, c: Chunk) {
    && c.path == f.path && c.kind == u.kind && c.name == u.name && c.span == u.span
    && c.text == Slice(f.lines, u.span.first, u.span.last) && c.scope == scope
  }

  predicate IsWindow(f: File, start: int, last: int, c: Chunk)
    requires 1 <= start
  {
    && c.path == f.path && c.kind == "window" && c.name == None && c.scope == None
    && c.span in TilesOf(start, last) && HasText(f.lines, c.span)
    && c.text == Slice(f.lines, c.span.first, c.span.last)
  }

  lemma WindowsAre(f: File, start: int, last: int, c: Chunk)
    requires 1 <= start
    ensures c in WindowsOver(f, VisibleFrom(f.lines, start, last)) <==> IsWindow(f, start, last, c)
  {
    var ws := VisibleFrom(f.lines, start, last);
    var chunks := WindowsOver(f, ws);
    if c in chunks {
      var k :| 0 <= k < |ws| && c == chunks[k];
      VisibleAre(f.lines, TilesOf(start, last), ws[k]);
    }
    if IsWindow(f, start, last, c) {
      VisibleAre(f.lines, TilesOf(start, last), c.span);
      var k :| 0 <= k < |ws| && ws[k] == c.span;
      assert chunks[k] == c;
    }
  }

  /** The pieces of a unit: itself when it is small, and else a window for each tile with text. */
  lemma PiecesAre(f: File, u: Node, scope: Option<string>, c: Chunk)
    ensures c in Pieces(f, u, scope) <==>
              if u.span.last - u.span.first < f.maxUnitLines then IsWhole(f, u, scope, c) else IsWindow(f, u.span.first, u.span.last, c)
  {
    WindowsAre(f, u.span.first, u.span.last, c);
  }

  /** Without a grammar, or with no unit that becomes chunks, the file's own windows are its chunks. */
  lemma FilesWithoutUnits(f: File, parse: Option<seq<Node>>, c: Chunk)
    requires parse.Some? ==> forall n | n in Flatten(parse.value) :: !Emitted(f, n)
    ensures c in Chunks(f, parse) <==> IsWindow(f, 1, |f.lines|, c)
  {
    WindowsAre(f, 1, |f.lines|, c);
    if parse.Some? && Walk(f, parse.value, None) != [] {
      ChunksAreFromUnits(f, parse.value, None, Walk(f, parse.value, None)[0]);
    }
  }

  /** Every line of such a file is in a chunk, but for those of windows without text. */
  lemma FileLinesAreIndexed(f: File, parse: Option<seq<Node>>, line: int)
    requires parse.Some? ==> forall n | n in Flatten(parse.value) :: !Emitted(f, n)
    requires 1 <= line <= |f.lines|
    ensures InBlankTile(f.lines, 1, |f.lines|, line) || exists c | c in Chunks(f, parse) :: In(c.span, line)
  {
    WindowsCover(f, 1, |f.lines|, line);
    if c :| c in WindowsOver(f, VisibleFrom(f.lines, 1, |f.lines|)) && In(c.span, line) {
      WindowsAre(f, 1, |f.lines|, c);
      FilesWithoutUnits(f, parse, c);
    }
  }

  /** A window without text; its lines are left out of the index. */
  ghost predicate InBlankTile(lines: seq<string>, start: int, last: int, line: int)
    requires 1 <= start
  {
    exists w | w in TilesOf(start, last) && 1 <= w.first :: In(w, line) && !HasText(lines, w)
  }

  lemma WindowsCover(f: File, start: int, last: int, line: int)
    requires 1 <= start <= line <= last
    ensures InBlankTile(f.lines, start, last, line) ||
            exists c | c in WindowsOver(f, VisibleFrom(f.lines, start, last)) :: In(c.span, line)
  {
    var w := TileOver(start, last, line);
    if HasText(f.lines, w) {
      VisibleAre(f.lines, TilesOf(start, last), w);
      WindowIsOver(f, VisibleFrom(f.lines, start, last), w);
    }
  }

  lemma TileOver(start: int, last: int, line: int) returns (w: Window)
    requires 1 <= start <= line <= last
    ensures w in TilesOf(start, last) && 1 <= w.first && In(w, line)
  {
    TilesOfTile(start, last);
    TilesCover(TilesOf(start, last), start, last, line);
    var i :| 0 <= i < |TilesOf(start, last)| && In(TilesOf(start, last)[i], line);
    w := TilesOf(start, last)[i];
  }

  lemma WindowIsOver(f: File, ws: seq<Window>, w: Window)
    requires (forall i | 0 <= i < |ws| :: 1 <= ws[i].first) && w in ws
    ensures exists c | c in WindowsOver(f, ws) :: c.span == w
  {
    var k :| 0 <= k < |ws| && ws[k] == w;
    assert WindowsOver(f, ws)[k].span == w;
  }

  /** Every line of every unit that can be a chunk is indexed, but for the blank windows of a
      split unit around it. */
  lemma UnitLinesAreIndexed(f: File, nodes: seq<Node>, scope: Option<string>, u: Node, line: int)
    requires Nested(nodes) && u in Flatten(nodes) && Emitted(f, u) && In(u.span, line)
    ensures (exists c | c in Walk(f, nodes, scope) :: In(c.span, line)) ||
            exists e | e in Flatten(nodes) && Emitted(f, e) && !Small(f, e) && Inside(u.span, e.span) ::
              InBlankTile(f.lines, e.span.first, e.span.last, line)
  {
    UnitsAreIndexed(f, nodes, scope, u);
    var e, inner :| e in Flatten(nodes) && Emitted(f, e) && Inside(u.span, e.span) && HasPieces(f, e, inner, Walk(f, nodes, scope));
    if Small(f, e) {
      assert Pieces(f, e, inner)[0] in Pieces(f, e, inner);
    } else {
      WindowsCover(f, e.span.first, e.span.last, line);
    }
  }

  lemma {:induction false} TilesAreShort(start: int, last: int, w: Window)
    requires w in TilesOf(start, last)
    ensures w.last - w.first + 1 <= 60
  {
    TilesOfTile(start, last);
  }

  /** No chunk is longer than a small unit or a window, and each names its file. */
  lemma ChunksAreShort(f: File, parse: Option<seq<Node>>, c: Chunk)
    requires c in Chunks(f, parse)
    ensures c.path == f.path
    ensures c.span.last - c.span.first + 1 <= f.maxUnitLines || c.span.last - c.span.first + 1 <= 60
  {
    if parse.Some? && c in Walk(f, parse.value, None) {
      ChunksAreFromUnits(f, parse.value, None, c);
      var e, scope :| e in Flatten(parse.value) && Emitted(f, e) && c in Pieces(f, e, scope);
      if !Small(f, e) {
        WindowIsShort(f, e.span.first, e.span.last, c);
      }
    } else {
      WindowIsShort(f, 1, |f.lines|, c);
    }
  }

  lemma WindowIsShort(f: File, start: int, last: int, c: Chunk)
    requires 1 <= start && c in WindowsOver(f, VisibleFrom(f.lines, start, last))
    ensures c.path == f.path && c.span.last - c.span.first + 1 <= 60
  {
    var k :| 0 <= k < |VisibleFrom(f.lines, start, last)| && c == FileWindow(f, VisibleFrom(f.lines, start, last)[k]);
    VisibleAre(f.lines, TilesOf(start, last), c.span);
    TilesAreShort(start, last, c.span);
  }

  // ---- as the chunker of the index tasks ----

  function ChunkerOf(skip: string -> bool, split: string -> seq<string>, parse: (string, string) -> Option<seq<Node>>, maxUnitLines: int)
    : IndexTasks.Chunker
  {
    IndexTasks.Chunker(skip, (path, content) => Chunks(File(path, split(content), maxUnitLines), parse(path, content)))
  }

  /** What the index tasks ask of their chunker. */
  lemma ChunkerIsValid(skip: string -> bool, split: string -> seq<string>, parse: (string, string) -> Option<seq<Node>>, maxUnitLines: int)
    ensures ChunkerOf(skip, split, parse, maxUnitLines).Valid()
  {
    forall path: string, content: string, c | c in Chunks(File(path, split(content), maxUnitLines), parse(path, content))
      ensures c.path == path
    {
      ChunksAreShort(File(path, split(content), maxUnitLines), parse(path, content), c);
    }
  }
}
