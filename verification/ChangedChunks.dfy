/** Changed lines to code chunks: each target goes to its smallest enclosing unit, or to a window
    cut around the selected units. The parse tree is a function giving, for a line, the units
    around the node found there, innermost first. */
module ChangedChunks {
  import opened Rows
  import opened Text
  import opened Sorting
  import opened Windows
  import Diff

  type Span = w: Window | 1 <= w.first <= w.last witness Window(1, 1)

  datatype Unit = Unit(kind: string, name: Option<string>, span: Span)

  datatype Chunk = Chunk(path: string, kind: string, name: Option<string>, span: Window, text: string, scope: Option<string>)

  /** `parse` is None when no grammar is available. */
  datatype Source = Source(path: string, lines: seq<string>, parse: Option<int -> seq<Unit>>, maxUnitLines: int)
  {
    function Total(): int {
      if |lines| < 1 then 1 else |lines|
    }

    function Ancestors(line: int): seq<Unit> {
      if parse.None? then [] else parse.value(line)
    }

    /** The innermost unit over a line, when it is small enough to be sent whole. */
    function Home(line: int): Option<Unit> {
      var units := Ancestors(line);
      if units == [] || units[0].span.last - units[0].span.first + 1 > maxUnitLines then None else Some(units[0])
    }
  }

  // ---- scopes ----

  function ScopeNames(units: seq<Unit>): seq<string> {
    if units == [] then []
    else
      ScopeNames(units[1..]) +
      if units[0].name.Some? && units[0].name.value != "" then [units[0].kind + " " + units[0].name.value] else []
  }

  function Scope(units: seq<Unit>): Option<string> {
    if ScopeNames(units) == [] then None else Some(Join(" > ", ScopeNames(units)))
  }

  /** Names run from the outermost unit in, and a unit without a name leaves no trace. */
  lemma {:induction false} ScopeNamesAre(units: seq<Unit>, k: nat)
    requires forall i | 0 <= i < |units| :: units[i].name.Some? && units[i].name.value != ""
    requires k < |units|
    ensures |ScopeNames(units)| == |units|
    ensures var u := units[|units| - 1 - k]; ScopeNames(units)[k] == u.kind + " " + u.name.value
  {
    if |units| > 1 {
      ScopeNamesAre(units[1..], if k < |units| - 1 then k else 0);
    }
  }

  lemma {:induction false} NamelessUnitsAreDropped(a: seq<Unit>, u: Unit, b: seq<Unit>)
    requires u.name == None || u.name == Some("")
    ensures ScopeNames(a + [u] + b) == ScopeNames(a + b)
  {
    if a == [] {
      assert ([] + [u] + b)[1..] == b && [] + b == b;
    } else {
      assert (a + [u] + b)[1..] == a[1..] + [u] + b && (a + b)[1..] == a[1..] + b;
      NamelessUnitsAreDropped(a[1..], u, b);
    }
  }

  // ---- targets ----

  function Clamp(line: int, total: int): int {
    if line < 1 then 1 else if line < total then line else total
  }

  function TargetSet(src: Source, added: set<int>, anchors: set<int>): set<int> {
    var kept := set line | line in added && 0 < line <= |src.lines| && !Blank(src.lines[line - 1]);
    set line | line in kept + anchors :: Clamp(line, src.Total())
  }

  /** The lines to review: added lines with text, and deletion anchors, moved into the file. */
  function Targets(src: Source, patch: seq<string>): (targets: seq<int>)
    ensures Ascending(targets)
    ensures forall t :: t in targets ==> 1 <= t <= src.Total()
  {
    var scan := Diff.ScanLines(Diff.START, patch);
    SortedSet(TargetSet(src, scan.added, scan.anchors), 1, src.Total())
  }

  /** What the extraction takes from the grammar: a unit found at a line spans that line, and two
      units are nested or share no line. */
  ghost predicate WellSpanned(src: Source, targets: seq<int>) {
    && (forall t | t in targets && src.Home(t).Some? :: In(src.Home(t).value.span, t))
    && (forall t, u | t in targets && u in targets && src.Home(t).Some? && src.Home(u).Some? ::
          var (a, b) := (src.Home(t).value.span, src.Home(u).value.span);
          Inside(a, b) || Inside(b, a) || Apart(a, b))
  }

  predicate Inside(inner: Window, outer: Window) {
    outer.first <= inner.first && inner.last <= outer.last
  }

  predicate Apart(a: Window, b: Window) {
    a.last < b.first || b.last < a.first
  }

  // ---- units ----

  /** The first target to select a span gives the chunk its name and scope. */
  ghost predicate Selects(src: Source, targets: seq<int>, k: int) {
    && 0 <= k < |targets| && src.Home(targets[k]).Some?
    && forall j | 0 <= j < k && src.Home(targets[j]).Some? :: src.Home(targets[j]).value.span != src.Home(targets[k]).value.span
  }

  function UnitChunk(src: Source, line: int): Chunk
    requires src.Home(line).Some?
  {
    var unit := src.Home(line).value;
    Chunk(src.path, unit.kind, unit.name, unit.span, Slice(src.lines, unit.span.first, unit.span.last),
          Scope(src.Ancestors(line)[1..]))
  }

  ghost predicate Selected(src: Source, targets: seq<int>, c: Chunk) {
    exists k | Selects(src, targets, k) :: c == UnitChunk(src, targets[k])
  }

  /** No other selected unit contains this one. */
  ghost predicate Maximal(src: Source, targets: seq<int>, span: Window) {
    forall t | t in targets && src.Home(t).Some? ::
      src.Home(t).value.span == span || !Inside(span, src.Home(t).value.span)
  }

  ghost predicate Covered(src: Source, targets: seq<int>, line: int) {
    exists t | t in targets && src.Home(t).Some? :: Maximal(src, targets, src.Home(t).value.span) && In(src.Home(t).value.span, line)
  }

  // ---- windows ----

  function Loose(src: Source, targets: seq<int>): (loose: seq<int>)
    ensures forall t :: t in loose <==> t in targets && src.Home(t).None?
  {
    if targets == [] then []
    else
      var n := |targets| - 1;
      assert forall t :: t in targets <==> t in targets[..n] || t == targets[n];
      Loose(src, targets[..n]) + if src.Home(targets[n]).None? then [targets[n]] else []
  }

  /** The first scope known for a loose line of `first..last`. */
  function ScopeIn(src: Source, loose: seq<int>, first: int, last: int): Option<string>
    decreases last - first
  {
    if last < first then None
    else if first in loose && Scope(src.Ancestors(first)).Some? then Scope(src.Ancestors(first))
    else ScopeIn(src, loose, first + 1, last)
  }

  predicate Shown(src: Source, loose: seq<int>, segment: Window)
    requires 1 <= segment.first
  {
    (exists l | l in loose :: In(segment, l)) && HasText(src.lines, segment)
  }

  function WindowChunk(src: Source, loose: seq<int>, segment: Window): Chunk
    requires 1 <= segment.first
  {
    Chunk(src.path, "window", None, segment, Slice(src.lines, segment.first, segment.last),
          ScopeIn(src, loose, segment.first, segment.last))
  }

  /** The lines near a loose line that no selected unit covers. */
  ghost predicate Segments(src: Source, targets: seq<int>, segments: seq<Window>) {
    && Separated(segments)
    && (forall line :: InSome(segments, line) <==>
          Near(Loose(src, targets), WINDOW_CONTEXT, src.Total(), line) && !Covered(src, targets, line))
    && (forall s | s in segments :: 1 <= s.first)
  }

  const WINDOW_CONTEXT: nat := 6

  // ---- the result ----

  ghost predicate InOrder(chunks: seq<Chunk>) {
    && (forall c | c in chunks :: c.span.first <= c.span.last)
    && (forall i, j | 0 <= i < j < |chunks| :: chunks[i].span.last < chunks[j].span.first)
  }

  /** The extraction's whole result: the outermost selected units and the shown segments, in file
      order. `InOrderIsUnique` says that no other list qualifies. */
  ghost predicate Extracted(src: Source, targets: seq<int>, segments: seq<Window>, chunks: seq<Chunk>) {
    && Segments(src, targets, segments)
    && InOrder(chunks)
    && forall c :: c in chunks <==>
        || (Selected(src, targets, c) && Maximal(src, targets, c.span))
        || (exists s | s in segments && Shown(src, Loose(src, targets), s) :: c == WindowChunk(src, Loose(src, targets), s))
  }

  lemma {:induction false} InOrderIsUnique(a: seq<Chunk>, b: seq<Chunk>)
    requires InOrder(a) && InOrder(b) && (forall c :: c in a <==> c in b)
    ensures a == b
    decreases |a|
  {
    if a == [] {
      assert forall c <- b :: c in a;
    } else {
      assert a[0] in a && b != [];
      assert b[0] in b && b[0] in a && a[0] in b;
      assert a[0] == b[0];
      forall c
        ensures c in a[1..] <==> c in b[1..]
      {
        assert a == [a[0]] + a[1..] && b == [b[0]] + b[1..];
        assert c in a <==> c in b;
      }
      InOrderIsUnique(a[1..], b[1..]);
    }
  }

  /** Above every selected unit there is an outermost one, selected as well. */
  lemma {:induction false} OutermostUnit(src: Source, targets: seq<int>, t: int) returns (outer: int)
    requires WellSpanned(src, targets) && t in targets && src.Home(t).Some?
    ensures outer in targets && src.Home(outer).Some?
    ensures Inside(src.Home(t).value.span, src.Home(outer).value.span) && Maximal(src, targets, src.Home(outer).value.span)
    decreases src.maxUnitLines - (src.Home(t).value.span.last - src.Home(t).value.span.first)
  {
    outer := t;
    if !Maximal(src, targets, src.Home(t).value.span) {
      var u :| u in targets && src.Home(u).Some? && src.Home(u).value.span != src.Home(t).value.span &&
               Inside(src.Home(t).value.span, src.Home(u).value.span);
      outer := OutermostUnit(src, targets, u);
    }
  }

  lemma {:induction false} FirstSelector(src: Source, targets: seq<int>, k: int) returns (j: int)
    requires 0 <= k < |targets| && src.Home(targets[k]).Some?
    ensures Selects(src, targets, j) && src.Home(targets[j]).value.span == src.Home(targets[k]).value.span
    decreases k
  {
    j := k;
    if !Selects(src, targets, k) {
      var i :| 0 <= i < k && src.Home(targets[i]).Some? && src.Home(targets[i]).value.span == src.Home(targets[k]).value.span;
      j := FirstSelector(src, targets, i);
    }
  }

  /** The segment around `t` has no text: the one way a target is left out. */
  ghost predicate InBlankSegment(src: Source, segments: seq<Window>, t: int)
    requires forall s | s in segments :: 1 <= s.first
  {
    exists s | s in segments :: In(s, t) && !HasText(src.lines, s)
  }

  lemma CoveredIsInAUnit(src: Source, targets: seq<int>, line: int) returns (c: Chunk)
    requires Covered(src, targets, line)
    ensures Selected(src, targets, c) && Maximal(src, targets, c.span) && In(c.span, line)
  {
    var t :| t in targets && src.Home(t).Some? && Maximal(src, targets, src.Home(t).value.span) && In(src.Home(t).value.span, line);
    var k :| 0 <= k < |targets| && targets[k] == t;
    var j := FirstSelector(src, targets, k);
    c := UnitChunk(src, targets[j]);
  }

  /** Every target lies in exactly one chunk, unless its segment is blank, and then in none. */
  lemma TargetsAreCoveredOnce(src: Source, targets: seq<int>, segments: seq<Window>, chunks: seq<Chunk>, t: int)
    requires WellSpanned(src, targets) && Extracted(src, targets, segments, chunks)
    requires t in targets && 1 <= t <= src.Total()
    ensures (exists c | c in chunks :: In(c.span, t)) <==> !InBlankSegment(src, segments, t)
    ensures forall i, j | 0 <= i < |chunks| && 0 <= j < |chunks| && In(chunks[i].span, t) && In(chunks[j].span, t) :: i == j
  {
    if src.Home(t).Some? {
      var outer := OutermostUnit(src, targets, t);
      assert Covered(src, targets, t);
    }
    if Covered(src, targets, t) {
      var c := CoveredIsInAUnit(src, targets, t);
      assert c in chunks;
      assert !InSome(segments, t);
      assert !InBlankSegment(src, segments, t);
    } else {
      LooseTarget(src, targets, segments, chunks, t);
    }
  }

  lemma LooseTarget(src: Source, targets: seq<int>, segments: seq<Window>, chunks: seq<Chunk>, t: int)
    requires WellSpanned(src, targets) && Extracted(src, targets, segments, chunks)
    requires t in targets && 1 <= t <= src.Total() && src.Home(t).None? && !Covered(src, targets, t)
    ensures (exists c | c in chunks :: In(c.span, t)) <==> !InBlankSegment(src, segments, t)
  {
    var loose := Loose(src, targets);
    assert t in loose && Near(loose, WINDOW_CONTEXT, src.Total(), t);
    assert InSome(segments, t);
    var i :| 0 <= i < |segments| && In(segments[i], t);
    var s := segments[i];
    assert forall o | o in segments && In(o, t) :: o == s;
    if HasText(src.lines, s) {
      assert Shown(src, loose, s);
      assert WindowChunk(src, loose, s) in chunks;
    } else {
      BlankSegmentHidesTarget(src, targets, segments, chunks, t, s);
    }
  }

  lemma BlankSegmentHidesTarget(src: Source, targets: seq<int>, segments: seq<Window>, chunks: seq<Chunk>, t: int, s: Window)
    requires WellSpanned(src, targets) && Extracted(src, targets, segments, chunks)
    requires !Covered(src, targets, t) && s in segments && In(s, t) && !HasText(src.lines, s)
    requires forall o | o in segments && In(o, t) :: o == s
    ensures forall c | c in chunks :: !In(c.span, t)
  {
    forall c | c in chunks
      ensures !In(c.span, t)
    {
      if Selected(src, targets, c) && Maximal(src, targets, c.span) {
        UnitCovers(src, targets, c, t);
      }
    }
  }

  lemma UnitCovers(src: Source, targets: seq<int>, c: Chunk, line: int)
    requires Selected(src, targets, c) && Maximal(src, targets, c.span)
    ensures In(c.span, line) ==> Covered(src, targets, line)
  {
    var k :| Selects(src, targets, k) && c == UnitChunk(src, targets[k]);
    assert targets[k] in targets;
  }

  // ---- extract_changed_chunks ----

  predicate StartsBefore(a: Chunk, b: Chunk) {
    a.span.first <= b.span.first
  }

  ghost predicate ChunksApart(chunks: seq<Chunk>) {
    && (forall c | c in chunks :: c.span.first <= c.span.last)
    && (forall i, j | 0 <= i < j < |chunks| :: Apart(chunks[i].span, chunks[j].span))
  }

  lemma {:induction false} SortingOrders(chunks: seq<Chunk>)
    requires ChunksApart(chunks)
    ensures InOrder(SortBy(StartsBefore, chunks))
  {
    if chunks != [] {
      SortingOrders(chunks[1..]);
      var sorted := SortBy(StartsBefore, chunks[1..]);
      forall c | c in sorted
        ensures Apart(c.span, chunks[0].span)
      {
        SortByKeepsMembers(StartsBefore, chunks[1..], c);
      }
      InsertingOrders(chunks[0], sorted);
    }
  }

  lemma InOrderCons(c: Chunk, rest: seq<Chunk>)
    requires InOrder(rest) && c.span.first <= c.span.last && forall o | o in rest :: c.span.last < o.span.first
    ensures InOrder([c] + rest)
  {
  }

  lemma {:induction false} InsertingOrders(c: Chunk, chunks: seq<Chunk>)
    requires InOrder(chunks) && c.span.first <= c.span.last
    requires forall o | o in chunks :: Apart(o.span, c.span)
    ensures InOrder(Insert(StartsBefore, c, chunks))
  {
    if chunks == [] || StartsBefore(c, chunks[0]) {
      InOrderCons(c, chunks);
    } else {
      InsertingOrders(c, chunks[1..]);
      var rest := Insert(StartsBefore, c, chunks[1..]);
      forall o | o in rest
        ensures chunks[0].span.last < o.span.first
      {
        InsertKeepsMembers(StartsBefore, c, chunks[1..], o);
      }
      InOrderCons(chunks[0], rest);
    }
  }

  /** The selected units whose span no other selected unit contains. */
  function DropNested(units: seq<Chunk>, among: seq<Chunk>): (kept: seq<Chunk>)
    ensures forall c :: c in kept <==> c in units && (forall o | o in among :: o.span == c.span || !Inside(c.span, o.span))
  {
    if units == [] then []
    else
      var n := |units| - 1;
      assert forall c :: c in units <==> c in units[..n] || c == units[n];
      DropNested(units[..n], among) +
      if forall o | o in among :: o.span == units[n].span || !Inside(units[n].span, o.span) then [units[n]] else []
  }

  function CoveredLines(units: seq<Chunk>): (covered: set<int>)
    ensures forall line :: line in covered <==> exists u | u in units :: In(u.span, line)
  {
    if units == [] then {}
    else
      var n := |units| - 1;
      assert forall u :: u in units <==> u in units[..n] || u == units[n];
      CoveredLines(units[..n]) + (set line | units[n].span.first <= line <= units[n].span.last && In(units[n].span, line))
  }

  /** The selected units in the order their spans appeared. */
  function UnitsOf(src: Source, targets: seq<int>): seq<Chunk>
    decreases |targets|
  {
    if targets == [] then []
    else
      var n := |targets| - 1;
      AddUnit(src, targets[n], UnitsOf(src, targets[..n]))
  }

  function AddUnit(src: Source, line: int, units: seq<Chunk>): seq<Chunk> {
    if src.Home(line).None? || (exists u | u in units :: u.span == src.Home(line).value.span) then units
    else units + [UnitChunk(src, line)]
  }

  /** `UnitsOf` keeps, for each span selected, the chunk of its first target. */
  lemma {:induction false} UnitsAreSelected(src: Source, targets: seq<int>)
    ensures forall c | c in UnitsOf(src, targets) :: Selected(src, targets, c)
    ensures forall k | Selects(src, targets, k) :: UnitChunk(src, targets[k]) in UnitsOf(src, targets)
    ensures forall a, b | 0 <= a < b < |UnitsOf(src, targets)| :: UnitsOf(src, targets)[a].span != UnitsOf(src, targets)[b].span
    decreases |targets|
  {
    if targets != [] {
      var n := |targets| - 1;
      var before := UnitsOf(src, targets[..n]);
      UnitsAreSelected(src, targets[..n]);
      forall c | c in before
        ensures exists k | 0 <= k < n && Selects(src, targets, k) :: c == UnitChunk(src, targets[k])
      {
        var k :| Selects(src, targets[..n], k) && c == UnitChunk(src, targets[..n][k]);
        PrefixSelects(src, targets, k);
      }
      forall k | 0 <= k < n && Selects(src, targets, k)
        ensures UnitChunk(src, targets[k]) in before
      {
        PrefixSelects(src, targets, k);
        assert targets[..n][k] == targets[k];
      }
      AddUnitSelects(src, targets, n, before);
    }
  }

  lemma PrefixSelects(src: Source, targets: seq<int>, k: nat)
    requires k < |targets| - 1
    ensures Selects(src, targets[..|targets| - 1], k) <==> Selects(src, targets, k)
  {
    assert forall j | 0 <= j < k + 1 :: targets[..|targets| - 1][j] == targets[j];
  }

  lemma AddUnitSelects(src: Source, targets: seq<int>, n: nat, units: seq<Chunk>)
    requires n == |targets| - 1
    requires forall c | c in units :: exists k | 0 <= k < n && Selects(src, targets, k) :: c == UnitChunk(src, targets[k])
    requires forall k | 0 <= k < n && Selects(src, targets, k) :: UnitChunk(src, targets[k]) in units
    ensures forall c | c in AddUnit(src, targets[n], units) :: Selected(src, targets, c)
    ensures forall k | Selects(src, targets, k) :: UnitChunk(src, targets[k]) in AddUnit(src, targets[n], units)
  {
    if src.Home(targets[n]).Some? {
      SpanIsTaken(src, targets, n, units);
    }
  }

  /** The last target adds a unit exactly when none before it selected its span. */
  lemma SpanIsTaken(src: Source, targets: seq<int>, n: nat, units: seq<Chunk>)
    requires n == |targets| - 1 && src.Home(targets[n]).Some?
    requires forall c | c in units :: exists k | 0 <= k < n && Selects(src, targets, k) :: c == UnitChunk(src, targets[k])
    requires forall k | 0 <= k < n && Selects(src, targets, k) :: UnitChunk(src, targets[k]) in units
    ensures Selects(src, targets, n) <==> !exists u | u in units :: u.span == src.Home(targets[n]).value.span
  {
    var span := src.Home(targets[n]).value.span;
    if u :| u in units && u.span == span {
      var k :| 0 <= k < n && Selects(src, targets, k) && u == UnitChunk(src, targets[k]);
    } else {
      forall j | 0 <= j < n && src.Home(targets[j]).Some?
        ensures src.Home(targets[j]).value.span != span
      {
        var first := FirstSelector(src, targets, j);
      }
    }
  }

  lemma SelectNext(src: Source, targets: seq<int>, i: nat)
    requires i < |targets|
    ensures UnitsOf(src, targets[..i + 1]) == AddUnit(src, targets[i], UnitsOf(src, targets[..i]))
    ensures Loose(src, targets[..i + 1]) == Loose(src, targets[..i]) + if src.Home(targets[i]).None? then [targets[i]] else []
  {
    assert targets[..i + 1][..i] == targets[..i];
  }

  method SelectUnits(src: Source, targets: seq<int>) returns (units: seq<Chunk>, loose: seq<int>)
    ensures units == UnitsOf(src, targets) && loose == Loose(src, targets)
  {
    units, loose := [], [];
    for i := 0 to |targets|
      invariant units == UnitsOf(src, targets[..i]) && loose == Loose(src, targets[..i])
    {
      SelectNext(src, targets, i);
      var home := src.Home(targets[i]);
      if home.None? {
        loose := loose + [targets[i]];
      } else if !exists u | u in units :: u.span == home.value.span {
        units := units + [UnitChunk(src, targets[i])];
      }
    }
    assert targets[..|targets|] == targets;
  }

  function WindowChunks(src: Source, loose: seq<int>, segments: seq<Window>): seq<Chunk>
    requires forall s | s in segments :: 1 <= s.first
  {
    if segments == [] then []
    else
      var n := |segments| - 1;
      WindowChunks(src, loose, segments[..n]) + ShownChunk(src, loose, segments[n])
  }

  function ShownChunk(src: Source, loose: seq<int>, segment: Window): seq<Chunk>
    requires 1 <= segment.first
  {
    if Shown(src, loose, segment) then [WindowChunk(src, loose, segment)] else []
  }

  lemma {:induction false} ShownSegments(src: Source, loose: seq<int>, segments: seq<Window>)
    requires forall s | s in segments :: 1 <= s.first
    ensures forall c :: c in WindowChunks(src, loose, segments) <==>
                         exists s | s in segments && Shown(src, loose, s) :: c == WindowChunk(src, loose, s)
  {
    if segments != [] {
      var n := |segments| - 1;
      ShownSegments(src, loose, segments[..n]);
      assert forall s :: s in segments <==> s in segments[..n] || s == segments[n];
    }
  }

  lemma WindowChunksMore(src: Source, loose: seq<int>, segments: seq<Window>, s: Window)
    requires (forall s | s in segments :: 1 <= s.first) && 1 <= s.first
    ensures WindowChunks(src, loose, segments + [s]) == WindowChunks(src, loose, segments) + ShownChunk(src, loose, s)
  {
    assert (segments + [s])[..|segments|] == segments;
  }

  /** The uncovered lines of the first `i` windows. */
  ghost predicate ClippedUpTo(windows: seq<Window>, i: nat, covered: set<int>, segments: seq<Window>)
    requires i <= |windows|
  {
    Separated(segments) && forall line :: InSome(segments, line) <==> InSome(windows[..i], line) && line !in covered
  }

  lemma InSomeAppend(a: seq<Window>, b: seq<Window>, line: int)
    ensures InSome(a + b, line) <==> InSome(a, line) || InSome(b, line)
  {
    if InSome(a, line) {
      var i :| 0 <= i < |a| && In(a[i], line);
      assert In((a + b)[i], line);
    }
    if InSome(b, line) {
      var i :| 0 <= i < |b| && In(b[i], line);
      assert In((a + b)[|a| + i], line);
    }
  }

  lemma ClipOne(windows: seq<Window>, i: nat, covered: set<int>, segments: seq<Window>, more: seq<Window>)
    requires Separated(windows) && i < |windows| && ClippedUpTo(windows, i, covered, segments)
    requires Separated(more)
    requires forall line :: InSome(more, line) <==> windows[i].first <= line <= windows[i].last && line !in covered
    ensures ClippedUpTo(windows, i + 1, covered, segments + more)
  {
    forall a, b | 0 <= a < |segments| && 0 <= b < |more|
      ensures segments[a].last + 1 < more[b].first
    {
      assert In(segments[a], segments[a].last) && InSome(segments, segments[a].last);
      var k :| 0 <= k < |windows[..i]| && In(windows[..i][k], segments[a].last);
      assert In(more[b], more[b].first) && InSome(more, more[b].first);
      assert windows[k].last + 1 < windows[i].first;
    }
    forall line
      ensures InSome(segments + more, line) <==> InSome(windows[..i + 1], line) && line !in covered
    {
      InSomeAppend(segments, more, line);
      InSomeAppend(windows[..i], [windows[i]], line);
      assert windows[..i] + [windows[i]] == windows[..i + 1];
      assert [windows[i]][0] == windows[i];
    }
  }

  lemma {:induction false} WindowChunksAppend(src: Source, loose: seq<int>, a: seq<Window>, b: seq<Window>)
    requires (forall s | s in a :: 1 <= s.first) && (forall s | s in b :: 1 <= s.first)
    ensures WindowChunks(src, loose, a + b) == WindowChunks(src, loose, a) + WindowChunks(src, loose, b)
    decreases |b|
  {
    if b == [] {
      assert a + b == a;
    } else {
      var front, last := b[..|b| - 1], b[|b| - 1];
      assert last in b && b == front + [last];
      WindowChunksAppend(src, loose, a, front);
      AppendOneMore(src, loose, a, front, last);
    }
  }

  lemma AppendOneMore(src: Source, loose: seq<int>, a: seq<Window>, front: seq<Window>, last: Window)
    requires (forall s | s in a :: 1 <= s.first) && (forall s | s in front :: 1 <= s.first) && 1 <= last.first
    requires WindowChunks(src, loose, a + front) == WindowChunks(src, loose, a) + WindowChunks(src, loose, front)
    ensures WindowChunks(src, loose, a + (front + [last])) == WindowChunks(src, loose, a) + WindowChunks(src, loose, front + [last])
  {
    assert a + (front + [last]) == (a + front) + [last];
    WindowChunksMore(src, loose, a + front, last);
    WindowChunksMore(src, loose, front, last);
    Associate(WindowChunks(src, loose, a), WindowChunks(src, loose, front), ShownChunk(src, loose, last));
  }

  lemma Associate(a: seq<Chunk>, b: seq<Chunk>, c: seq<Chunk>)
    ensures (a + b) + c == a + (b + c)
  {
  }

  method ShowPieces(src: Source, loose: seq<int>, pieces: seq<Window>) returns (chunks: seq<Chunk>)
    requires forall s | s in pieces :: 1 <= s.first
    ensures chunks == WindowChunks(src, loose, pieces)
  {
    chunks := [];
    for j := 0 to |pieces|
      invariant chunks == WindowChunks(src, loose, pieces[..j])
    {
      assert pieces[..j + 1] == pieces[..j] + [pieces[j]];
      WindowChunksMore(src, loose, pieces[..j], pieces[j]);
      if Shown(src, loose, pieces[j]) {
        chunks := chunks + [WindowChunk(src, loose, pieces[j])];
      }
    }
    assert pieces[..|pieces|] == pieces;
  }

  method ClipWindows(src: Source, loose: seq<int>, covered: set<int>) returns (chunks: seq<Chunk>, ghost segments: seq<Window>)
    requires forall l | l in loose :: 1 <= l <= src.Total()
    ensures Separated(segments) && (forall s | s in segments :: 1 <= s.first)
    ensures forall line :: InSome(segments, line) <==> Near(loose, WINDOW_CONTEXT, src.Total(), line) && line !in covered
    ensures chunks == WindowChunks(src, loose, segments)
  {
    chunks, segments := [], [];
    var windows := MergeWindows(loose, WINDOW_CONTEXT, src.Total());
    for i := 0 to |windows|
      invariant ClippedUpTo(windows, i, covered, segments)
      invariant forall s | s in segments :: 1 <= s.first
      invariant chunks == WindowChunks(src, loose, segments)
    {
      var pieces := UncoveredSegments(windows[i].first, windows[i].last, covered);
      ClipOne(windows, i, covered, segments, pieces);
      PiecesInFile(loose, src.Total(), windows, i, pieces, covered);
      var shown := ShowPieces(src, loose, pieces);
      WindowChunksAppend(src, loose, segments, pieces);
      chunks, segments := chunks + shown, segments + pieces;
    }
    assert windows[..|windows|] == windows;
  }

  lemma PiecesInFile(loose: seq<int>, total: int, windows: seq<Window>, i: nat, pieces: seq<Window>, covered: set<int>)
    requires i < |windows| && (forall line :: InSome(windows, line) <==> Near(loose, WINDOW_CONTEXT, total, line))
    requires Separated(pieces)
    requires forall line :: InSome(pieces, line) <==> windows[i].first <= line <= windows[i].last && line !in covered
    ensures forall j | 0 <= j < |pieces| :: 1 <= pieces[j].first
  {
    forall j | 0 <= j < |pieces|
      ensures 1 <= pieces[j].first
    {
      assert In(pieces[j], pieces[j].first) && InSome(pieces, pieces[j].first);
      assert In(windows[i], pieces[j].first) && InSome(windows, pieces[j].first);
    }
  }

  lemma UnitsCover(src: Source, targets: seq<int>, units: seq<Chunk>, kept: seq<Chunk>)
    requires units == UnitsOf(src, targets) && kept == DropNested(units, units)
    ensures forall c :: c in kept <==> Selected(src, targets, c) && Maximal(src, targets, c.span)
    ensures forall line :: line in CoveredLines(kept) <==> Covered(src, targets, line)
  {
    UnitsAreSelected(src, targets);
    forall c
      ensures c in kept <==> Selected(src, targets, c) && Maximal(src, targets, c.span)
    {
      if Selected(src, targets, c) {
        MaximalAmongUnits(src, targets, units, c.span);
      }
    }
    forall line
      ensures (exists u | u in kept :: In(u.span, line)) <==> Covered(src, targets, line)
    {
      if Covered(src, targets, line) {
        var c := CoveredIsInAUnit(src, targets, line);
      }
      if u :| u in kept && In(u.span, line) {
        UnitCovers(src, targets, u, line);
      }
    }
  }

  lemma MaximalAmongUnits(src: Source, targets: seq<int>, units: seq<Chunk>, span: Window)
    requires forall c | c in units :: Selected(src, targets, c)
    requires forall k | Selects(src, targets, k) :: UnitChunk(src, targets[k]) in units
    ensures Maximal(src, targets, span) <==> forall o | o in units :: o.span == span || !Inside(span, o.span)
  {
    if Maximal(src, targets, span) {
      forall o | o in units
        ensures o.span == span || !Inside(span, o.span)
      {
        var k :| Selects(src, targets, k) && o == UnitChunk(src, targets[k]);
        assert targets[k] in targets;
      }
    } else {
      var t :| t in targets && src.Home(t).Some? && src.Home(t).value.span != span && Inside(span, src.Home(t).value.span);
      var k :| 0 <= k < |targets| && targets[k] == t;
      var j := FirstSelector(src, targets, k);
      assert UnitChunk(src, targets[j]) in units;
    }
  }

  lemma {:induction false} KeptApart(units: seq<Chunk>, among: seq<Chunk>)
    requires forall u | u in among :: u.span.first <= u.span.last
    requires forall u, v | u in among && v in among :: Inside(u.span, v.span) || Inside(v.span, u.span) || Apart(u.span, v.span)
    requires forall u | u in units :: u in among
    requires forall a, b | 0 <= a < b < |units| :: units[a].span != units[b].span
    ensures ChunksApart(DropNested(units, among))
  {
    if units != [] {
      var n := |units| - 1;
      KeptApart(units[..n], among);
      var before := DropNested(units[..n], among);
      if DropNested(units, among) != before {
        forall c | c in before
          ensures Apart(c.span, units[n].span)
        {
          assert c in units[..n];
        }
      }
    }
  }

  lemma {:induction false} WindowsApart(src: Source, loose: seq<int>, segments: seq<Window>)
    requires Separated(segments) && forall s | s in segments :: 1 <= s.first
    ensures ChunksApart(WindowChunks(src, loose, segments))
  {
    if segments != [] {
      var n := |segments| - 1;
      WindowsApart(src, loose, segments[..n]);
      ShownSegments(src, loose, segments[..n]);
      forall c | c in WindowChunks(src, loose, segments[..n])
        ensures Apart(c.span, segments[n])
      {
        var s :| s in segments[..n] && c == WindowChunk(src, loose, s);
      }
    }
  }

  lemma TogetherApart(units: seq<Chunk>, windows: seq<Chunk>)
    requires ChunksApart(units) && ChunksApart(windows)
    requires forall u, w | u in units && w in windows :: Apart(u.span, w.span)
    ensures ChunksApart(units + windows)
  {
  }

  /** Selected units are outermost and the windows are cut around them, so no two chunks meet. */
  lemma NoneMeet(src: Source, targets: seq<int>, units: seq<Chunk>, kept: seq<Chunk>, segments: seq<Window>, windows: seq<Chunk>)
    requires WellSpanned(src, targets) && units == UnitsOf(src, targets) && kept == DropNested(units, units)
    requires Segments(src, targets, segments) && windows == WindowChunks(src, Loose(src, targets), segments)
    ensures ChunksApart(kept + windows)
  {
    UnitsCover(src, targets, units, kept);
    UnitsAreSelected(src, targets);
    forall u | u in units
      ensures exists t | t in targets && src.Home(t).Some? :: src.Home(t).value.span == u.span
    {
      var k :| Selects(src, targets, k) && u == UnitChunk(src, targets[k]);
      assert targets[k] in targets;
    }
    KeptApart(units, units);
    WindowsApart(src, Loose(src, targets), segments);
    ShownSegments(src, Loose(src, targets), segments);
    forall u, w | u in kept && w in windows
      ensures Apart(u.span, w.span)
    {
      UnitMissesSegment(src, targets, segments, u, w.span);
    }
    TogetherApart(kept, windows);
  }

  lemma UnitMissesSegment(src: Source, targets: seq<int>, segments: seq<Window>, u: Chunk, s: Window)
    requires Segments(src, targets, segments) && s in segments
    requires Selected(src, targets, u) && Maximal(src, targets, u.span) && u.span.first <= u.span.last
    ensures Apart(u.span, s)
  {
    if !Apart(u.span, s) {
      var shared := if u.span.first < s.first then s.first else u.span.first;
      UnitCovers(src, targets, u, shared);
    }
  }

  method ExtractChangedChunks(src: Source, patch: seq<string>) returns (chunks: seq<Chunk>)
    requires WellSpanned(src, Targets(src, patch))
    ensures exists segments :: Extracted(src, Targets(src, patch), segments, chunks)
  {
    var added, anchors := Diff.ParsePatch(patch);
    var targets := SortedSet(TargetSet(src, added, anchors), 1, src.Total());
    assert targets == Targets(src, patch);
    var units, loose := SelectUnits(src, targets);
    var kept := DropNested(units, units);
    UnitsCover(src, targets, units, kept);
    var windows;
    ghost var segments;
    windows, segments := ClipWindows(src, loose, CoveredLines(kept));
    ShownSegments(src, loose, segments);
    NoneMeet(src, targets, units, kept, segments, windows);
    SortingOrders(kept + windows);
    chunks := SortBy(StartsBefore, kept + windows);
    forall c
      ensures c in chunks <==> c in kept || c in windows
    {
      SortByKeepsMembers(StartsBefore, kept + windows, c);
    }
    assert Extracted(src, targets, segments, chunks);
  }

  // ---- from the edit to the chunks ----

  ghost predicate HasInk(line: string) {
    exists i :: 0 <= i < |line| && !IsSpace(line[i])
  }

  /** A line of the new file the edit inserted, with text on it; or the line where a run of removed
      lines was, moved into the file. */
  ghost predicate Edited(src: Source, sections: seq<Diff.Section>, t: int) {
    || (Diff.IsInserted(Diff.Origins(sections), t) && t <= |src.lines| && HasInk(src.lines[t - 1]))
    || exists a | a in Diff.Anchors(sections, 0) :: t == if a < 1 || |src.lines| <= 1 then 1 else if a < |src.lines| then a else |src.lines|
  }

  lemma TargetsMean(src: Source, added: set<int>, anchors: set<int>, t: int)
    ensures t in SortedSet(TargetSet(src, added, anchors), 1, src.Total()) <==>
              || (t in added && 0 < t <= |src.lines| && HasInk(src.lines[t - 1]))
              || exists a | a in anchors :: t == if a < 1 || |src.lines| <= 1 then 1 else if a < |src.lines| then a else |src.lines|
  {
    var kept := set line | line in added && 0 < line <= |src.lines| && !Blank(src.lines[line - 1]);
    assert forall line | line in kept :: Clamp(line, src.Total()) == line;
    if t in added && 0 < t <= |src.lines| && HasInk(src.lines[t - 1]) {
      assert t in kept;
    }
    if a :| a in anchors && t == if a < 1 || |src.lines| <= 1 then 1 else if a < |src.lines| then a else |src.lines| {
      assert a in kept + anchors && Clamp(a, src.Total()) == t;
    }
    if t in TargetSet(src, added, anchors) {
      var line :| line in kept + anchors && Clamp(line, src.Total()) == t;
    }
  }

  /** What is reviewed, read off the edit script: nothing the edit did not touch, and no deletion missed. */
  lemma EditsAreTargets(src: Source, preface: seq<string>, sections: seq<Diff.Section>, t: int)
    requires forall i | 0 <= i < |preface| :: !("@@ -" <= preface[i])
    ensures t in Targets(src, preface + Diff.Print(sections, 0, 0)) <==> Edited(src, sections, t)
  {
    var scan := Diff.ScanLines(Diff.START, preface + Diff.Print(sections, 0, 0));
    Diff.PrintedPatchReadsBack(preface, sections);
    TargetsMean(src, scan.added, scan.anchors, t);
  }

  /** Every line the edit touched lies in exactly one chunk, unless the text around it is blank. */
  lemma EditsAreCoveredOnce(src: Source, preface: seq<string>, sections: seq<Diff.Section>, segments: seq<Window>, chunks: seq<Chunk>, t: int)
    requires forall i | 0 <= i < |preface| :: !("@@ -" <= preface[i])
    requires WellSpanned(src, Targets(src, preface + Diff.Print(sections, 0, 0)))
    requires Extracted(src, Targets(src, preface + Diff.Print(sections, 0, 0)), segments, chunks)
    requires Edited(src, sections, t)
    ensures (exists c | c in chunks :: In(c.span, t)) <==> !InBlankSegment(src, segments, t)
    ensures forall i, j | 0 <= i < |chunks| && 0 <= j < |chunks| && In(chunks[i].span, t) && In(chunks[j].span, t) :: i == j
  {
    EditsAreTargets(src, preface, sections, t);
    TargetsAreCoveredOnce(src, Targets(src, preface + Diff.Print(sections, 0, 0)), segments, chunks, t);
  }

  /** `u` is the innermost unit over line `t`, and short enough. */
  ghost predicate ShortUnitAt(src: Source, t: int, u: Unit) {
    src.parse.Some? && src.parse.value(t) != [] && src.parse.value(t)[0] == u && u.span.last - u.span.first < src.maxUnitLines
  }

  /** Every chunk is a whole short unit around a target, with its name, or a window around a target that
      has none; and no short unit around a target is cut up. */
  lemma ChunksAreUnitsOrWindows(src: Source, targets: seq<int>, segments: seq<Window>, chunks: seq<Chunk>)
    requires WellSpanned(src, targets) && Extracted(src, targets, segments, chunks)
    ensures forall c | c in chunks ::
              || (exists t | t in targets :: ShortUnitAt(src, t, Unit(c.kind, c.name, if 1 <= c.span.first <= c.span.last then c.span else Window(1, 1)))
                                             && 1 <= c.span.first <= c.span.last)
              || (c.kind == "window" && c.name == None && exists t | t in targets :: In(c.span, t) && forall u :: !ShortUnitAt(src, t, u))
    ensures forall c | c in chunks :: 1 <= c.span.first && c.path == src.path && c.text == Slice(src.lines, c.span.first, c.span.last)
    ensures forall t, u | t in targets && ShortUnitAt(src, t, u) :: exists c | c in chunks :: Inside(u.span, c.span)
  {
    forall c | c in chunks && !(Selected(src, targets, c) && Maximal(src, targets, c.span))
      ensures c.kind == "window" && c.name == None && exists t | t in targets :: In(c.span, t) && forall u :: !ShortUnitAt(src, t, u)
      ensures 1 <= c.span.first && c.path == src.path && c.text == Slice(src.lines, c.span.first, c.span.last)
    {
      var s :| s in segments && Shown(src, Loose(src, targets), s) && c == WindowChunk(src, Loose(src, targets), s);
      var l :| l in Loose(src, targets) && In(s, l);
      assert src.Home(l).None?;
    }
    forall c | c in chunks && Selected(src, targets, c)
      ensures exists t | t in targets :: 1 <= c.span.first <= c.span.last && ShortUnitAt(src, t, Unit(c.kind, c.name, c.span))
    {
      var k :| Selects(src, targets, k) && c == UnitChunk(src, targets[k]);
      assert targets[k] in targets && ShortUnitAt(src, targets[k], src.Home(targets[k]).value);
    }
    forall t, u | t in targets && ShortUnitAt(src, t, u)
      ensures exists c | c in chunks :: Inside(u.span, c.span)
    {
      WholeUnitIsSent(src, targets, segments, chunks, t);
    }
  }

  lemma WholeUnitIsSent(src: Source, targets: seq<int>, segments: seq<Window>, chunks: seq<Chunk>, t: int)
    requires WellSpanned(src, targets) && Extracted(src, targets, segments, chunks) && t in targets && src.Home(t).Some?
    ensures exists c | c in chunks :: Inside(src.Home(t).value.span, c.span)
  {
    var outer := OutermostUnit(src, targets, t);
    var k :| 0 <= k < |targets| && targets[k] == outer;
    var j := FirstSelector(src, targets, k);
    assert UnitChunk(src, targets[j]) in chunks;
  }

  /** A unit's scope names the units around it, itself left out; two targets of one unit agree on its
      name, and the first of them gives the scope. */
  lemma UnitScopeLeavesItselfOut(src: Source, targets: seq<int>, k: int)
    requires Selects(src, targets, k)
    ensures var units := src.Ancestors(targets[k]); var c := UnitChunk(src, targets[k]);
            && units != [] && c.kind == units[0].kind && c.name == units[0].name
            && (c.scope.None? <==> ScopeNames(units[1..]) == [])
            && (c.scope.Some? ==> c.scope.value == Join(" > ", ScopeNames(units[1..])))
  {
  }

  /** A window's scope is that of its first loose line that has one. */
  lemma {:induction false} WindowScopeIsTheFirst(src: Source, loose: seq<int>, first: int, last: int)
    ensures var scope := ScopeIn(src, loose, first, last);
            if scope.None? then forall l | first <= l <= last && l in loose :: Scope(src.Ancestors(l)).None?
            else exists l | first <= l <= last && l in loose ::
                   && Scope(src.Ancestors(l)) == scope
                   && forall m | first <= m < l && m in loose :: Scope(src.Ancestors(m)).None?
    decreases last - first
  {
    if first <= last && !(first in loose && Scope(src.Ancestors(first)).Some?) {
      WindowScopeIsTheFirst(src, loose, first + 1, last);
    }
  }

  // ---- how far a window reaches ----

  lemma {:induction false} SameSegment(segments: seq<Window>, s: Window, t: int, line: int)
    requires Separated(segments) && s in segments && In(s, t)
    requires forall m | t <= m <= line || line <= m <= t :: InSome(segments, m)
    ensures In(s, line)
    decreases if t < line then line - t else t - line
  {
    if t != line {
      var m := if t < line then line - 1 else line + 1;
      SameSegment(segments, s, t, m);
      assert InSome(segments, line);
      var i :| 0 <= i < |segments| && In(segments[i], line);
      var j :| 0 <= j < |segments| && segments[j] == s;
      assert i == j;
    }
  }

  /** A loose target that no unit sent holds is shown with the six lines on either side, up to where a
      unit is sent, and no window shows a line further than that from a loose target. */
  lemma WindowsReachSixLines(src: Source, targets: seq<int>, segments: seq<Window>, t: int, line: int)
    requires Segments(src, targets, segments) && t in targets && src.Home(t).None?
    requires 1 <= t <= src.Total() && 1 <= line <= src.Total() && t - 6 <= line <= t + 6
    requires forall m | t <= m <= line || line <= m <= t :: !Covered(src, targets, m)
    ensures exists s | s in segments :: In(s, t) && In(s, line)
  {
    var loose := Loose(src, targets);
    forall m | t <= m <= line || line <= m <= t
      ensures InSome(segments, m)
    {
      assert t in loose && Near(loose, WINDOW_CONTEXT, src.Total(), m);
    }
    assert InSome(segments, t);
    var i :| 0 <= i < |segments| && In(segments[i], t);
    SameSegment(segments, segments[i], t, line);
    assert segments[i] in segments;
  }

  lemma NoWindowReachesFurther(src: Source, targets: seq<int>, segments: seq<Window>, s: Window, line: int)
    requires Segments(src, targets, segments) && s in segments && In(s, line)
    ensures !Covered(src, targets, line) && exists t | t in targets && src.Home(t).None? :: t - 6 <= line <= t + 6
  {
    assert InSome(segments, line);
  }
}
