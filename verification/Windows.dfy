/** Line windows: merging, cutting around covered lines, and splitting a file. */
module Windows {
  import opened Text
  import opened Sorting

  /** Lines `first` to `last`, both included. */
  datatype Window = Window(first: int, last: int)

  predicate In(w: Window, line: int) {
    w.first <= line <= w.last
  }

  ghost predicate InSome(ws: seq<Window>, line: int) {
    exists i :: 0 <= i < |ws| && In(ws[i], line)
  }

  /** Ascending, none empty, and at least one line left out between any two. */
  predicate Separated(ws: seq<Window>) {
    && (forall i | 0 <= i < |ws| :: ws[i].first <= ws[i].last)
    && (forall i, j | 0 <= i < j < |ws| :: ws[i].last + 1 < ws[j].first)
  }

  /** A separated list is determined by the lines it covers. */
  lemma {:induction false} SeparatedIsUnique(a: seq<Window>, b: seq<Window>)
    requires Separated(a) && Separated(b)
    requires forall line :: InSome(a, line) <==> InSome(b, line)
    ensures a == b
    decreases |a|
  {
    if a == [] {
      if b != [] {
        assert In(b[0], b[0].first) && InSome(b, b[0].first);
      }
    } else {
      FirstIsShared(a, b);
      FirstIsShared(b, a);
      assert a[0] == b[0];
      forall line
        ensures InSome(a[1..], line) <==> InSome(b[1..], line)
      {
        InTail(a, line);
        InTail(b, line);
        assert InSome(a, line) <==> InSome(b, line);
      }
      SeparatedIsUnique(a[1..], b[1..]);
      assert a == [a[0]] + a[1..] && b == [b[0]] + b[1..];
    }
  }

  lemma InTail(ws: seq<Window>, line: int)
    requires Separated(ws) && ws != []
    ensures InSome(ws[1..], line) <==> InSome(ws, line) && !In(ws[0], line)
  {
    if InSome(ws, line) && !In(ws[0], line) {
      var i :| 0 <= i < |ws| && In(ws[i], line);
      assert In(ws[1..][i - 1], line);
    }
    if InSome(ws[1..], line) {
      var i :| 0 <= i < |ws[1..]| && In(ws[1..][i], line);
      assert In(ws[i + 1], line);
    }
  }

  lemma FirstIsShared(a: seq<Window>, b: seq<Window>)
    requires Separated(a) && Separated(b) && a != []
    requires forall line :: InSome(a, line) <==> InSome(b, line)
    ensures b != [] && b[0].first <= a[0].first && (b[0].first == a[0].first ==> a[0].last <= b[0].last)
  {
    assert In(a[0], a[0].first) && InSome(a, a[0].first);
    assert InSome(b, a[0].first);
    var next := b[0].last + 1;
    assert !InSome(b, next);
    assert In(a[0], next) ==> InSome(a, next);
  }

  // ---- _merge_windows ----

  ghost predicate Near(lines: seq<int>, context: nat, total: int, line: int) {
    1 <= line <= total && exists l :: l in lines && l - context <= line <= l + context
  }

  lemma NearMore(lines: seq<int>, i: nat, context: nat, total: int, line: int)
    requires i < |lines|
    ensures Near(lines[..i + 1], context, total, line) <==>
              Near(lines[..i], context, total, line) || (1 <= line <= total && lines[i] - context <= line <= lines[i] + context)
  {
    assert lines[..i + 1] == lines[..i] + [lines[i]];
    if Near(lines[..i], context, total, line) {
      var l :| l in lines[..i] && l - context <= line <= l + context;
      assert l in lines[..i + 1];
    }
    if 1 <= line <= total && lines[i] - context <= line <= lines[i] + context {
      assert lines[i] in lines[..i + 1];
    }
  }

  /** One step of the merge: what the last window's growth or a new window adds. */
  function AddWindow(ws: seq<Window>, w: Window): seq<Window> {
    if ws != [] && w.first <= ws[|ws| - 1].last + 1
    then ws[|ws| - 1 := Window(ws[|ws| - 1].first, if ws[|ws| - 1].last < w.last then w.last else ws[|ws| - 1].last)]
    else ws + [w]
  }

  lemma AddWindowAdds(ws: seq<Window>, w: Window, line: int)
    requires Separated(ws) && w.first <= w.last
    requires ws != [] ==> ws[|ws| - 1].first <= w.first
    ensures Separated(AddWindow(ws, w))
    ensures InSome(AddWindow(ws, w), line) <==> InSome(ws, line) || In(w, line)
  {
    var r := AddWindow(ws, w);
    if InSome(ws, line) {
      var i :| 0 <= i < |ws| && In(ws[i], line);
      assert In(r[i], line);
    }
    if In(w, line) {
      assert In(r[|r| - 1], line);
    }
    if InSome(r, line) {
      var i :| 0 <= i < |r| && In(r[i], line);
      if i < |ws| {
        assert In(ws[i], line) || In(w, line);
      }
    }
  }

  function Neighbourhood(line: int, context: nat, total: int): Window {
    Window(if 1 < line - context then line - context else 1, if line + context < total then line + context else total)
  }

  /** The windows merged so far cover exactly the neighbourhoods of the first `i` lines. */
  ghost predicate MergedUpTo(windows: seq<Window>, lines: seq<int>, i: nat, context: nat, total: int)
    requires i <= |lines|
  {
    && Separated(windows)
    && (windows != [] ==> i > 0 && windows[|windows| - 1].first <= Neighbourhood(lines[i - 1], context, total).first)
    && forall line :: InSome(windows, line) <==> Near(lines[..i], context, total, line)
  }

  lemma MergeOne(windows: seq<Window>, lines: seq<int>, i: nat, context: nat, total: int)
    requires Ascending(lines) && i < |lines| && 1 <= lines[i] <= total
    requires MergedUpTo(windows, lines, i, context, total)
    ensures MergedUpTo(AddWindow(windows, Neighbourhood(lines[i], context, total)), lines, i + 1, context, total)
  {
    var w := Neighbourhood(lines[i], context, total);
    var r := AddWindow(windows, w);
    assert i > 0 ==> lines[i - 1] < lines[i];
    AddWindowAdds(windows, w, 0);
    forall line
      ensures InSome(r, line) <==> Near(lines[..i + 1], context, total, line)
    {
      AddWindowAdds(windows, w, line);
      NearMore(lines, i, context, total, line);
    }
  }

  lemma NearAgrees(a: seq<int>, b: seq<int>, context: nat, total: int)
    requires forall l :: l in a <==> l in b
    ensures forall line :: Near(a, context, total, line) <==> Near(b, context, total, line)
  {
  }

  method MergeWindows(interest: seq<int>, context: nat, total: int) returns (windows: seq<Window>)
    requires forall l | l in interest :: 1 <= l <= total
    ensures Separated(windows)
    ensures forall line :: InSome(windows, line) <==> Near(interest, context, total, line)
  {
    var lines := SortedSet((set l | l in interest), 1, total);
    NearAgrees(lines, interest, context, total);
    windows := [];
    for i := 0 to |lines|
      invariant MergedUpTo(windows, lines, i, context, total)
    {
      assert lines[i] in lines;
      MergeOne(windows, lines, i, context, total);
      var start := if 1 < lines[i] - context then lines[i] - context else 1;
      var end := if lines[i] + context < total then lines[i] + context else total;
      if windows != [] && start <= windows[|windows| - 1].last + 1 {
        var last := windows[|windows| - 1];
        windows := windows[|windows| - 1 := Window(last.first, if last.last < end then end else last.last)];
      } else {
        windows := windows + [Window(start, end)];
      }
    }
    assert lines[..|lines|] == lines;
  }

  // ---- _uncovered_segments ----

  /** Exactly the maximal runs of uncovered lines: with `SeparatedIsUnique` nothing else qualifies. */
  method UncoveredSegments(start: int, end: int, covered: set<int>) returns (segments: seq<Window>)
    ensures Separated(segments)
    ensures forall line :: InSome(segments, line) <==> start <= line <= end && line !in covered
  {
    segments := [];
    var line := start;
    while line <= end
      invariant start <= line && (start <= end ==> line <= end + 1)
      invariant Separated(segments)
      invariant segments != [] ==> segments[|segments| - 1].last < line
      invariant forall x :: InSome(segments, x) <==> start <= x <= end && x < line && x !in covered
    {
      if line !in covered {
        forall x
          ensures Separated(AddWindow(segments, Window(line, line)))
          ensures InSome(AddWindow(segments, Window(line, line)), x) <==> InSome(segments, x) || x == line
        {
          AddWindowAdds(segments, Window(line, line), x);
        }
        if segments != [] && segments[|segments| - 1].last == line - 1 {
          segments := segments[|segments| - 1 := Window(segments[|segments| - 1].first, line)];
        } else {
          segments := segments + [Window(line, line)];
        }
      }
      line := line + 1;
    }
  }

  // ---- _slice and _file_windows ----

  const MAX_CHUNK_CHARS: nat := 6000
  const INDEX_WINDOW_LINES: nat := 60
  const INDEX_WINDOW_OVERLAP: nat := 10

  function Slice(lines: seq<string>, start: int, end: int): string
    requires 1 <= start
  {
    var last := if end < |lines| then end else |lines|;
    var text := if start - 1 < last then Join("\n", lines[start - 1..last]) else "";
    if |text| <= MAX_CHUNK_CHARS then text else text[..MAX_CHUNK_CHARS]
  }

  /** A chunk's text is its lines, and no more than their first 6,000 characters. */
  lemma SliceIsItsLines(lines: seq<string>, start: int, end: int)
    requires 1 <= start <= end && start <= |lines| && forall i | 0 <= i < |lines| :: '\n' !in lines[i]
    ensures exists full ::
              && Split(full) == lines[start - 1..if end < |lines| then end else |lines|]
              && Slice(lines, start, end) == if |full| <= 6000 then full else full[..6000]
  {
    var own := lines[start - 1..if end < |lines| then end else |lines|];
    SplitJoin(own);
    assert Split(Join("\n", own)) == own;
  }

  /** The windows over `start..end`, blank ones included. */
  ghost predicate Tiles(ws: seq<Window>, start: int, end: int) {
    && (forall i | 0 <= i < |ws| :: 1 <= ws[i].last - ws[i].first + 1 <= 60)
    && (forall i | 0 <= i < |ws| - 1 :: ws[i].last - ws[i].first + 1 == 60 && ws[i + 1].first == ws[i].last + 1 - 10)
    && (if end < start then ws == [] else ws != [] && ws[0].first == start && ws[|ws| - 1].last == end)
  }

  lemma {:induction false} TilesCover(ws: seq<Window>, start: int, end: int, line: int)
    requires Tiles(ws, start, end) && start <= line <= end
    ensures InSome(ws, line)
    decreases |ws|
  {
    if line <= ws[0].last {
      assert In(ws[0], line);
    } else {
      assert |ws| > 1;
      forall i | 0 <= i < |ws[1..]| - 1
        ensures ws[1..][i].last - ws[1..][i].first + 1 == 60 && ws[1..][i + 1].first == ws[1..][i].last + 1 - 10
      {
        assert ws[i + 2].first == ws[i + 1].last + 1 - INDEX_WINDOW_OVERLAP;
      }
      TilesCover(ws[1..], ws[1].first, end, line);
      var i :| 0 <= i < |ws[1..]| && In(ws[1..][i], line);
      assert In(ws[i + 1], line);
    }
  }

  predicate HasText(lines: seq<string>, w: Window)
    requires 1 <= w.first
  {
    !Blank(Slice(lines, w.first, w.last))
  }

  function TileAt(start: int, last: int): Window {
    Window(start, if last < start + INDEX_WINDOW_LINES - 1 then last else start + INDEX_WINDOW_LINES - 1)
  }

  /** Windows of 60 lines, each starting 50 lines after the one before, until one reaches `last`. */
  function TilesOf(start: int, last: int): (tiles: seq<Window>)
    ensures forall i | 0 <= i < |tiles| :: start <= tiles[i].first
    decreases last - start
  {
    if last < start then []
    else
      var tile := TileAt(start, last);
      [tile] + if tile.last >= last then [] else TilesOf(start + (INDEX_WINDOW_LINES - INDEX_WINDOW_OVERLAP), last)
  }

  /** They tile the range: at most 60 lines each, overlapping by exactly 10, from start to last. */
  lemma {:induction false} TilesOfTile(start: int, last: int)
    ensures Tiles(TilesOf(start, last), start, last)
    decreases last - start
  {
    if start <= last && TileAt(start, last).last < last {
      TilesOfTile(start + (INDEX_WINDOW_LINES - INDEX_WINDOW_OVERLAP), last);
      assert TilesOf(start, last)[1..] == TilesOf(start + (INDEX_WINDOW_LINES - INDEX_WINDOW_OVERLAP), last);
    }
  }

  function Kept(lines: seq<string>, w: Window): seq<Window>
    requires 1 <= w.first
  {
    if HasText(lines, w) then [w] else []
  }

  /** The windows of a tiling that are not blank, in order. */
  function Visible(lines: seq<string>, ws: seq<Window>): (visible: seq<Window>)
    requires forall i | 0 <= i < |ws| :: 1 <= ws[i].first
    ensures forall i | 0 <= i < |visible| :: 1 <= visible[i].first
  {
    if ws == [] then [] else Kept(lines, ws[0]) + Visible(lines, ws[1..])
  }

  lemma {:induction false} VisibleAre(lines: seq<string>, ws: seq<Window>, w: Window)
    requires forall i | 0 <= i < |ws| :: 1 <= ws[i].first
    ensures w in Visible(lines, ws) <==> w in ws && 1 <= w.first && HasText(lines, w)
  {
    if ws != [] {
      VisibleAre(lines, ws[1..], w);
      assert w in ws <==> w == ws[0] || w in ws[1..];
    }
  }

  function VisibleFrom(lines: seq<string>, start: int, last: int): (visible: seq<Window>)
    requires 1 <= start
    ensures forall i | 0 <= i < |visible| :: 1 <= visible[i].first
  {
    Visible(lines, TilesOf(start, last))
  }

  lemma VisibleNext(lines: seq<string>, before: seq<Window>, start: int, last: int, windows: seq<Window>)
    requires 1 <= start <= last
    requires windows == if HasText(lines, TileAt(start, last)) then before + [TileAt(start, last)] else before
    ensures TileAt(start, last).last >= last ==> before + VisibleFrom(lines, start, last) == windows
    ensures TileAt(start, last).last < last ==>
              before + VisibleFrom(lines, start, last) ==
              windows + VisibleFrom(lines, start + (INDEX_WINDOW_LINES - INDEX_WINDOW_OVERLAP), last)
  {
    var rest := if TileAt(start, last).last >= last then [] else TilesOf(start + (INDEX_WINDOW_LINES - INDEX_WINDOW_OVERLAP), last);
    assert TilesOf(start, last)[1..] == rest;
    Associate(before, Kept(lines, TileAt(start, last)), Visible(lines, rest));
    assert windows == before + Kept(lines, TileAt(start, last));
  }

  lemma Associate(a: seq<Window>, b: seq<Window>, c: seq<Window>)
    ensures a + (b + c) == (a + b) + c
  {
  }

  /** `end` of 0 stands for None: the whole file. */
  method FileWindows(lines: seq<string>, start: int, end: nat) returns (windows: seq<Window>)
    requires 1 <= start
    ensures windows == VisibleFrom(lines, start, if end == 0 then |lines| else end)
  {
    var last := if end == 0 then |lines| else end;
    var step := INDEX_WINDOW_LINES - INDEX_WINDOW_OVERLAP;
    windows := [];
    var windowStart := start;
    while windowStart < last + 1
      invariant start <= windowStart
      invariant VisibleFrom(lines, start, last) == windows + VisibleFrom(lines, windowStart, last)
      decreases last + 1 - windowStart
    {
      ghost var before := windows;
      var windowEnd := if last < windowStart + INDEX_WINDOW_LINES - 1 then last else windowStart + INDEX_WINDOW_LINES - 1;
      if HasText(lines, Window(windowStart, windowEnd)) {
        windows := windows + [Window(windowStart, windowEnd)];
      }
      VisibleNext(lines, before, windowStart, last, windows);
      if windowEnd >= last {
        return;
      }
      windowStart := windowStart + step;
    }
  }
}
