/** The two unified-diff scanners, and a printer of edit scripts that they invert. */
module Diff {
  import opened Rows
  import opened Text

  // ---- hunk headers: @@ -a[,b] +c[,d] @@ ----

  /** An optional ",digits". */
  function SkipCount(s: string): string {
    if s != "" && s[0] == ',' && TakeDigits(s[1..]).0 != "" then TakeDigits(s[1..]).1 else s
  }

  /** "+c[,d] @@...", the start c. */
  function NewRange(s: string): Option<nat> {
    var digits := StripPrefix(" +", s);
    if digits.None? || TakeDigits(digits.value).0 == "" then None
    else
      var (start, rest) := TakeDigits(digits.value);
      if StripPrefix(" @@", SkipCount(rest)).Some? then Some(Value(start)) else None
  }

  /** The new-file start line of a hunk header, None for any other line. */
  function HunkStart(line: string): Option<nat> {
    var digits := StripPrefix("@@ -", line);
    if digits.None? || TakeDigits(digits.value).0 == "" then None
    else NewRange(SkipCount(TakeDigits(digits.value).1))
  }

  predicate StartsWith(line: string, c: char) {
    line != "" && line[0] == c
  }

  // ---- parse_patch ----

  datatype Scan = Scan(newLine: int, inHunk: bool, afterDeletion: bool, added: set<int>, anchors: set<int>)

  function ScanLine(s: Scan, line: string): Scan {
    if HunkStart(line).Some? then s.(inHunk := true, newLine := HunkStart(line).value, afterDeletion := false)
    else if !s.inHunk || StartsWith(line, '\\') then s
    else if StartsWith(line, '+') then s.(added := s.added + {s.newLine}, newLine := s.newLine + 1, afterDeletion := false)
    else if StartsWith(line, '-') then
      s.(anchors := if s.afterDeletion then s.anchors else s.anchors + {if s.newLine < 1 then 1 else s.newLine},
         afterDeletion := true)
    else s.(newLine := s.newLine + 1, afterDeletion := false)
  }

  function ScanLines(s: Scan, lines: seq<string>): Scan
    decreases |lines|
  {
    if lines == [] then s else ScanLines(ScanLine(s, lines[0]), lines[1..])
  }

  const START := Scan(0, false, false, {}, {})

  lemma {:induction false} ScanAppend(s: Scan, lines: seq<string>, more: seq<string>)
    ensures ScanLines(s, lines + more) == ScanLines(ScanLines(s, lines), more)
    decreases |lines|
  {
    if lines == [] {
      assert lines + more == more;
    } else {
      assert (lines + more)[1..] == lines[1..] + more;
      ScanAppend(ScanLine(s, lines[0]), lines[1..], more);
    }
  }

  lemma ScanNext(s: Scan, lines: seq<string>, i: nat)
    requires i < |lines|
    ensures ScanLines(s, lines[i..]) == ScanLines(ScanLine(s, lines[i]), lines[i + 1..])
  {
    assert lines[i..][1..] == lines[i + 1..];
  }

  method ParsePatch(lines: seq<string>) returns (added: set<int>, anchors: set<int>)
    ensures (added, anchors) == (ScanLines(START, lines).added, ScanLines(START, lines).anchors)
  {
    added, anchors := {}, {};
    var newLine, inHunk, previousWasDeletion := 0, false, false;
    for i := 0 to |lines|
      invariant ScanLines(START, lines) == ScanLines(Scan(newLine, inHunk, previousWasDeletion, added, anchors), lines[i..])
    {
      var line := lines[i];
      ghost var before := Scan(newLine, inHunk, previousWasDeletion, added, anchors);
      ScanNext(before, lines, i);
      var header := HunkStart(line);
      if header.Some? {
        inHunk, newLine, previousWasDeletion := true, header.value, false;
      } else if !inHunk || StartsWith(line, '\\') {
      } else if StartsWith(line, '+') {
        added := added + {newLine};
        newLine, previousWasDeletion := newLine + 1, false;
      } else if StartsWith(line, '-') {
        if !previousWasDeletion {
          anchors := anchors + {if newLine < 1 then 1 else newLine};
        }
        previousWasDeletion := true;
      } else {
        newLine, previousWasDeletion := newLine + 1, false;
      }
      assert Scan(newLine, inHunk, previousWasDeletion, added, anchors) == ScanLine(before, line);
    }
    assert lines[|lines|..] == [];
  }

  // ---- commentable_lines ----

  datatype Side = Side(newLine: int, inHunk: bool, lines: set<int>)

  function SideLine(s: Side, line: string): Side {
    if HunkStart(line).Some? then s.(inHunk := true, newLine := HunkStart(line).value)
    else if !s.inHunk || StartsWith(line, '\\') || StartsWith(line, '-') then s
    else s.(lines := s.lines + {s.newLine}, newLine := s.newLine + 1)
  }

  function SideLines(s: Side, lines: seq<string>): Side
    decreases |lines|
  {
    if lines == [] then s else SideLines(SideLine(s, lines[0]), lines[1..])
  }

  const SIDE_START := Side(0, false, {})

  function Commentable(lines: seq<string>): set<int> {
    SideLines(SIDE_START, lines).lines
  }

  lemma SideNext(s: Side, lines: seq<string>, i: nat)
    requires i < |lines|
    ensures SideLines(s, lines[i..]) == SideLines(SideLine(s, lines[i]), lines[i + 1..])
  {
    assert lines[i..][1..] == lines[i + 1..];
  }

  method CommentableLines(lines: seq<string>) returns (commentable: set<int>)
    ensures commentable == Commentable(lines)
  {
    commentable := {};
    var newLine, inHunk := 0, false;
    for i := 0 to |lines|
      invariant Commentable(lines) == SideLines(Side(newLine, inHunk, commentable), lines[i..]).lines
    {
      ghost var before := Side(newLine, inHunk, commentable);
      SideNext(before, lines, i);
      var header := HunkStart(lines[i]);
      if header.Some? {
        inHunk, newLine := true, header.value;
      } else if inHunk && !StartsWith(lines[i], '\\') && !StartsWith(lines[i], '-') {
        commentable := commentable + {newLine};
        newLine := newLine + 1;
      }
      assert Side(newLine, inHunk, commentable) == SideLine(before, lines[i]);
    }
    assert lines[|lines|..] == [];
  }

  /** The scanners agree on where they are, so an added line can always take a comment. */
  lemma {:induction false} AddedAreCommentable(s: Scan, c: Side, lines: seq<string>)
    requires s.newLine == c.newLine && s.inHunk == c.inHunk && s.added <= c.lines
    ensures ScanLines(s, lines).added <= SideLines(c, lines).lines
    decreases |lines|
  {
    if lines != [] {
      AddedAreCommentable(ScanLine(s, lines[0]), SideLine(c, lines[0]), lines[1..]);
    }
  }

  lemma EveryAddedLineIsCommentable(lines: seq<string>)
    ensures ScanLines(START, lines).added <= Commentable(lines)
  {
    AddedAreCommentable(START, SIDE_START, lines);
  }

  // ---- printing an edit script ----

  datatype Edit = Keep(text: string) | Insert(text: string) | Remove(text: string) | NoNewline

  /** A file's edit script, cut into hunks and the unchanged stretches between them. */
  datatype Section = Gap(kept: seq<string>) | Hunk(edits: seq<Edit>, heading: string)

  predicate InNewFile(e: Edit) {
    e.Keep? || e.Insert?
  }

  predicate InOldFile(e: Edit) {
    e.Keep? || e.Remove?
  }

  function NewCount(edits: seq<Edit>): nat {
    if edits == [] then 0 else (if InNewFile(edits[0]) then 1 else 0) + NewCount(edits[1..])
  }

  function OldCount(edits: seq<Edit>): nat {
    if edits == [] then 0 else (if InOldFile(edits[0]) then 1 else 0) + OldCount(edits[1..])
  }

  /** "start,count", the count left out when it is 1; an empty range names the line before it. */
  function Range(before: nat, count: nat): string {
    if count == 1 then Decimal(before + 1)
    else Decimal(if count == 0 then before else before + 1) + "," + Decimal(count)
  }

  function Header(oldBefore: nat, newBefore: nat, edits: seq<Edit>, heading: string): string {
    "@@ -" + Range(oldBefore, OldCount(edits)) + " +" + Range(newBefore, NewCount(edits)) + " @@" + heading
  }

  function PrintEdit(e: Edit): string {
    match e
    case Keep(text) => " " + text
    case Insert(text) => "+" + text
    case Remove(text) => "-" + text
    case NoNewline => "\\ No newline at end of file"
  }

  function PrintEdits(edits: seq<Edit>): seq<string> {
    if edits == [] then [] else [PrintEdit(edits[0])] + PrintEdits(edits[1..])
  }

  function PrintHunk(oldBefore: nat, newBefore: nat, edits: seq<Edit>, heading: string): seq<string> {
    [Header(oldBefore, newBefore, edits, heading)] + PrintEdits(edits)
  }

  /** `oldBefore` and `newBefore` count the lines of each file before these sections. */
  function Print(sections: seq<Section>, oldBefore: nat, newBefore: nat): seq<string> {
    if sections == [] then []
    else match sections[0]
      case Gap(kept) => Print(sections[1..], oldBefore + |kept|, newBefore + |kept|)
      case Hunk(edits, heading) =>
        PrintHunk(oldBefore, newBefore, edits, heading)
        + Print(sections[1..], oldBefore + OldCount(edits), newBefore + NewCount(edits))
  }

  // ---- the new file, line by line ----

  datatype Origin = Unchanged | Context | Inserted

  function EditOrigins(edits: seq<Edit>): (origins: seq<Origin>)
    ensures |origins| == NewCount(edits)
  {
    if edits == [] then []
    else (match edits[0] case Keep(_) => [Context] case Insert(_) => [Inserted] case _ => []) + EditOrigins(edits[1..])
  }

  /** Where each line of the new file comes from. */
  function Origins(sections: seq<Section>): seq<Origin> {
    if sections == [] then []
    else (match sections[0]
          case Gap(kept) => seq(|kept|, _ => Unchanged)
          case Hunk(edits, _) => EditOrigins(edits)) + Origins(sections[1..])
  }

  /** A comment may stand on inserted and on context lines. */
  predicate Wanted(o: Origin, context: bool) {
    o.Inserted? || (context && o.Context?)
  }

  /** The numbers of the inserted lines, and of the context lines if wanted, counted from `before + 1`. */
  function LinesFrom(origins: seq<Origin>, context: bool, before: int): set<int> {
    if origins == [] then {}
    else (if Wanted(origins[0], context) then {before + 1} else {}) + LinesFrom(origins[1..], context, before + 1)
  }

  lemma {:induction false} LinesFromMeans(origins: seq<Origin>, context: bool, before: int, n: int)
    ensures n in LinesFrom(origins, context, before) <==>
              0 < n - before <= |origins| && Wanted(origins[n - before - 1], context)
    decreases |origins|
  {
    if origins != [] {
      LinesFromMeans(origins[1..], context, before + 1, n);
    }
  }

  /** Whether the last edit, markers aside, removed a line; `before` if there is none. */
  function EndsInRemoval(edits: seq<Edit>, before: bool): bool {
    if edits == [] then before
    else EndsInRemoval(edits[1..], if edits[0].NoNewline? then before else edits[0].Remove?)
  }

  /** Edit `i` is the first of a maximal run of removed lines. */
  predicate StartsRun(edits: seq<Edit>, i: nat, afterRemoval: bool)
    requires i < |edits|
  {
    edits[i].Remove? && !EndsInRemoval(edits[..i], afterRemoval)
  }

  /** The line of the new file that edit `i` stands before, at least 1; `line` is the first one. */
  function RunLine(edits: seq<Edit>, i: nat, line: nat): nat
    requires i < |edits|
  {
    var at := line + NewCount(edits[..i]);
    if at < 1 then 1 else at
  }

  /** One line per maximal run of removed lines. */
  function DeletionRuns(edits: seq<Edit>, line: nat, afterRemoval: bool): set<int> {
    set i | 0 <= i < |edits| && StartsRun(edits, i, afterRemoval) :: RunLine(edits, i, line)
  }

  function FirstLine(newBefore: nat, edits: seq<Edit>): nat {
    if NewCount(edits) == 0 then newBefore else newBefore + 1
  }

  function Anchors(sections: seq<Section>, newBefore: nat): set<int> {
    if sections == [] then {}
    else match sections[0]
      case Gap(kept) => Anchors(sections[1..], newBefore + |kept|)
      case Hunk(edits, _) =>
        DeletionRuns(edits, FirstLine(newBefore, edits), false) + Anchors(sections[1..], newBefore + NewCount(edits))
  }

  // ---- the scanners invert the printer ----

  lemma CountIsSkipped(count: nat, rest: string)
    requires rest != "" && !IsDigit(rest[0])
    ensures SkipCount("," + Decimal(count) + rest) == rest
  {
    assert ("," + Decimal(count) + rest)[1..] == Decimal(count) + rest;
    TakeDigitsOf(Decimal(count), rest);
  }

  lemma RangeDigits(before: nat, count: nat, rest: string)
    requires rest != "" && !IsDigit(rest[0]) && rest[0] != ','
    ensures var r := TakeDigits(Range(before, count) + rest);
            r.0 == Decimal(if count == 0 then before else before + 1) && SkipCount(r.1) == rest
  {
    var first := Decimal(if count == 0 then before else before + 1);
    if count == 1 {
      TakeDigitsOf(first, rest);
    } else {
      var tail := "," + Decimal(count) + rest;
      assert Range(before, count) + rest == first + tail;
      TakeDigitsOf(first, tail);
      CountIsSkipped(count, rest);
    }
  }

  lemma NewRangeStart(before: nat, count: nat, heading: string)
    ensures NewRange(" +" + (Range(before, count) + (" @@" + heading))) == Some(if count == 0 then before else before + 1)
  {
    var end := " @@" + heading;
    StripPrefixOf(" +", Range(before, count) + end);
    RangeDigits(before, count, end);
    StripPrefixOf(" @@", heading);
    DecimalValue(if count == 0 then before else before + 1);
  }

  lemma HeaderStart(oldBefore: nat, newBefore: nat, edits: seq<Edit>, heading: string)
    ensures HunkStart(Header(oldBefore, newBefore, edits, heading)) == Some(FirstLine(newBefore, edits))
  {
    var newPart := " +" + (Range(newBefore, NewCount(edits)) + (" @@" + heading));
    var digits := Range(oldBefore, OldCount(edits)) + newPart;
    assert Header(oldBefore, newBefore, edits, heading) == "@@ -" + digits;
    StripPrefixOf("@@ -", digits);
    RangeDigits(oldBefore, OldCount(edits), newPart);
    NewRangeStart(newBefore, NewCount(edits), heading);
  }

  lemma EditIsNoHeader(e: Edit)
    ensures HunkStart(PrintEdit(e)).None?
  {
    assert PrintEdit(e)[0] != '@';
  }

  lemma Regroup(a: set<int>, b: set<int>, c: set<int>)
    ensures (a + b) + c == a + (b + c)
  {
  }

  lemma {:induction false} LinesFromSplit(a: seq<Origin>, b: seq<Origin>, context: bool, before: int)
    ensures LinesFrom(a + b, context, before) == LinesFrom(a, context, before) + LinesFrom(b, context, before + |a|)
    decreases |a|
  {
    if a == [] {
      assert a + b == b;
    } else {
      assert (a + b)[1..] == a[1..] + b;
      LinesFromSplit(a[1..], b, context, before + 1);
      Regroup(if Wanted(a[0], context) then {before + 1} else {}, LinesFrom(a[1..], context, before + 1), LinesFrom(b, context, before + |a|));
    }
  }

  lemma {:induction false} NoneFromGap(n: nat, context: bool, before: int)
    ensures LinesFrom(seq(n, _ => Unchanged), context, before) == {}
  {
    if n > 0 {
      var gap := seq(n, _ => Unchanged);
      assert gap[1..] == seq((n - 1) as nat, _ => Unchanged);
      NoneFromGap(n - 1, context, before + 1);
    }
  }

  function AfterEdit(e: Edit, afterRemoval: bool): bool {
    if e.NoNewline? then afterRemoval else e.Remove?
  }

  function LineAfter(e: Edit, line: nat): nat {
    if InNewFile(e) then line + 1 else line
  }

  lemma RunShifts(edits: seq<Edit>, i: nat, line: nat, afterRemoval: bool)
    requires i + 1 < |edits|
    ensures StartsRun(edits, i + 1, afterRemoval) == StartsRun(edits[1..], i, AfterEdit(edits[0], afterRemoval))
    ensures RunLine(edits, i + 1, line) == RunLine(edits[1..], i, LineAfter(edits[0], line))
  {
    assert edits[..i + 1][1..] == edits[1..][..i];
  }

  lemma RunsFromFront(edits: seq<Edit>, line: nat, afterRemoval: bool)
    requires edits != []
    ensures DeletionRuns(edits, line, afterRemoval) ==
      (if edits[0].Remove? && !afterRemoval then {if line < 1 then 1 else line} else {})
      + DeletionRuns(edits[1..], LineAfter(edits[0], line), AfterEdit(edits[0], afterRemoval))
  {
    var rest, line1, after1 := edits[1..], LineAfter(edits[0], line), AfterEdit(edits[0], afterRemoval);
    var front := if edits[0].Remove? && !afterRemoval then {if line < 1 then 1 else line} else {};
    assert edits[..0] == [] && StartsRun(edits, 0, afterRemoval) == (edits[0].Remove? && !afterRemoval);
    assert RunLine(edits, 0, line) == if line < 1 then 1 else line;
    forall n | n in DeletionRuns(rest, line1, after1)
      ensures n in DeletionRuns(edits, line, afterRemoval)
    {
      var i :| 0 <= i < |rest| && StartsRun(rest, i, after1) && n == RunLine(rest, i, line1);
      RunShifts(edits, i, line, afterRemoval);
      assert StartsRun(edits, i + 1, afterRemoval);
    }
    forall n | n in DeletionRuns(edits, line, afterRemoval)
      ensures n in front + DeletionRuns(rest, line1, after1)
    {
      var i :| 0 <= i < |edits| && StartsRun(edits, i, afterRemoval) && n == RunLine(edits, i, line);
      if i > 0 {
        RunShifts(edits, i - 1, line, afterRemoval);
        assert StartsRun(rest, i - 1, after1);
      }
    }
  }

  predicate WantedEdit(e: Edit, context: bool) {
    e.Insert? || (context && e.Keep?)
  }

  lemma LinesFromFront(edits: seq<Edit>, context: bool, line: nat)
    requires edits != []
    ensures LinesFrom(EditOrigins(edits), context, line - 1) ==
      (if WantedEdit(edits[0], context) then {line} else {})
      + LinesFrom(EditOrigins(edits[1..]), context, LineAfter(edits[0], line) - 1)
  {
    var rest := EditOrigins(edits[1..]);
    if InNewFile(edits[0]) {
      var o := if edits[0].Keep? then Context else Inserted;
      assert EditOrigins(edits) == [o] + rest;
      assert ([o] + rest)[1..] == rest;
    } else {
      assert EditOrigins(edits) == [] + rest == rest;
    }
  }

  lemma ScanEdit(s: Scan, line: nat, e: Edit)
    requires s.inHunk && s.newLine == line
    ensures ScanLine(s, PrintEdit(e)) ==
      Scan(LineAfter(e, line), true, AfterEdit(e, s.afterDeletion), s.added + (if e.Insert? then {line} else {}),
           s.anchors + if e.Remove? && !s.afterDeletion then {if line < 1 then 1 else line} else {})
  {
    EditIsNoHeader(e);
  }

  /** Reading a hunk's lines with `line` as the next line of the new file. */
  lemma {:induction false} EditsAreRead(s: Scan, line: nat, edits: seq<Edit>)
    requires s.inHunk && s.newLine == line
    ensures var r := ScanLines(s, PrintEdits(edits));
            && r.added == s.added + LinesFrom(EditOrigins(edits), false, line - 1)
            && r.anchors == s.anchors + DeletionRuns(edits, line, s.afterDeletion)
    decreases |edits|
  {
    if edits != [] {
      var e, line1, after1 := edits[0], LineAfter(edits[0], line), AfterEdit(edits[0], s.afterDeletion);
      assert PrintEdits(edits)[1..] == PrintEdits(edits[1..]);
      ScanEdit(s, line, e);
      EditsAreRead(ScanLine(s, PrintEdit(e)), line1, edits[1..]);
      LinesFromFront(edits, false, line);
      Regroup(s.added, if e.Insert? then {line} else {}, LinesFrom(EditOrigins(edits[1..]), false, line1 as int - 1));
      RunsFromFront(edits, line, s.afterDeletion);
      Regroup(s.anchors, if e.Remove? && !s.afterDeletion then {if line < 1 then 1 else line} else {}, DeletionRuns(edits[1..], line1, after1));
    }
  }

  lemma SideEdit(s: Side, line: nat, e: Edit)
    requires s.inHunk && s.newLine == line
    ensures SideLine(s, PrintEdit(e)) == Side(LineAfter(e, line), true, s.lines + if InNewFile(e) then {line} else {})
  {
    EditIsNoHeader(e);
  }

  lemma {:induction false} EditsAreCommentable(s: Side, line: nat, edits: seq<Edit>)
    requires s.inHunk && s.newLine == line
    ensures SideLines(s, PrintEdits(edits)).lines == s.lines + LinesFrom(EditOrigins(edits), true, line - 1)
    decreases |edits|
  {
    if edits != [] {
      var e, line1 := edits[0], LineAfter(edits[0], line);
      assert PrintEdits(edits)[1..] == PrintEdits(edits[1..]);
      SideEdit(s, line, e);
      EditsAreCommentable(SideLine(s, PrintEdit(e)), line1, edits[1..]);
      LinesFromFront(edits, true, line);
      Regroup(s.lines, if InNewFile(e) then {line} else {}, LinesFrom(EditOrigins(edits[1..]), true, line1 as int - 1));
    }
  }

  lemma {:induction false} SideAppend(s: Side, lines: seq<string>, more: seq<string>)
    ensures SideLines(s, lines + more) == SideLines(SideLines(s, lines), more)
    decreases |lines|
  {
    if lines == [] {
      assert lines + more == more;
    } else {
      assert (lines + more)[1..] == lines[1..] + more;
      SideAppend(SideLine(s, lines[0]), lines[1..], more);
    }
  }

  lemma HunkIsRead(s: Scan, oldBefore: nat, newBefore: nat, edits: seq<Edit>, heading: string)
    ensures var r := ScanLines(s, PrintHunk(oldBefore, newBefore, edits, heading));
            && r.added == s.added + LinesFrom(EditOrigins(edits), false, newBefore)
            && r.anchors == s.anchors + DeletionRuns(edits, FirstLine(newBefore, edits), false)
  {
    var header := Header(oldBefore, newBefore, edits, heading);
    assert ([header] + PrintEdits(edits))[1..] == PrintEdits(edits);
    HeaderStart(oldBefore, newBefore, edits, heading);
    EditsAreRead(ScanLine(s, header), FirstLine(newBefore, edits), edits);
  }

  lemma HunkIsCommentable(s: Side, oldBefore: nat, newBefore: nat, edits: seq<Edit>, heading: string)
    ensures SideLines(s, PrintHunk(oldBefore, newBefore, edits, heading)).lines
              == s.lines + LinesFrom(EditOrigins(edits), true, newBefore)
  {
    var header := Header(oldBefore, newBefore, edits, heading);
    assert ([header] + PrintEdits(edits))[1..] == PrintEdits(edits);
    HeaderStart(oldBefore, newBefore, edits, heading);
    EditsAreCommentable(SideLine(s, header), FirstLine(newBefore, edits), edits);
  }

  lemma GapFromFront(kept: seq<string>, rest: seq<Section>, context: bool, before: nat)
    ensures LinesFrom(Origins([Gap(kept)] + rest), context, before) == LinesFrom(Origins(rest), context, before + |kept|)
  {
    assert ([Gap(kept)] + rest)[1..] == rest;
    var gap := seq(|kept|, _ => Unchanged);
    NoneFromGap(|kept|, context, before);
    LinesFromSplit(gap, Origins(rest), context, before);
  }

  lemma HunkFromFront(edits: seq<Edit>, heading: string, rest: seq<Section>, context: bool, before: nat)
    ensures LinesFrom(Origins([Hunk(edits, heading)] + rest), context, before) ==
              LinesFrom(EditOrigins(edits), context, before) + LinesFrom(Origins(rest), context, before + NewCount(edits))
  {
    assert ([Hunk(edits, heading)] + rest)[1..] == rest;
    LinesFromSplit(EditOrigins(edits), Origins(rest), context, before);
  }

  lemma HunkThenRest(section: Section, rest: seq<Section>, oldBefore: nat, newBefore: nat)
    requires section.Hunk?
    ensures Print([section] + rest, oldBefore, newBefore) ==
              PrintHunk(oldBefore, newBefore, section.edits, section.heading)
              + Print(rest, oldBefore + OldCount(section.edits), newBefore + NewCount(section.edits))
  {
    assert ([section] + rest)[1..] == rest;
  }

  lemma GapThenRest(kept: seq<string>, rest: seq<Section>, oldBefore: nat, newBefore: nat)
    ensures Print([Gap(kept)] + rest, oldBefore, newBefore) == Print(rest, oldBefore + |kept|, newBefore + |kept|)
    ensures Anchors([Gap(kept)] + rest, newBefore) == Anchors(rest, newBefore + |kept|)
  {
    assert ([Gap(kept)] + rest)[1..] == rest;
  }

  lemma AnchorsOfHunk(section: Section, rest: seq<Section>, newBefore: nat)
    requires section.Hunk?
    ensures Anchors([section] + rest, newBefore) ==
      DeletionRuns(section.edits, FirstLine(newBefore, section.edits), false) + Anchors(rest, newBefore + NewCount(section.edits))
  {
    assert ([section] + rest)[1..] == rest;
  }

  lemma {:induction false} SectionsAreRead(s: Scan, sections: seq<Section>, oldBefore: nat, newBefore: nat)
    ensures var r := ScanLines(s, Print(sections, oldBefore, newBefore));
            && r.added == s.added + LinesFrom(Origins(sections), false, newBefore)
            && r.anchors == s.anchors + Anchors(sections, newBefore)
    decreases |sections|, 1
  {
    if sections != [] {
      var section, rest := sections[0], sections[1..];
      assert sections == [section] + rest;
      if section.Gap? {
        GapSectionsAreRead(s, section.kept, rest, oldBefore, newBefore);
      } else {
        HunkSectionsAreRead(s, section, rest, oldBefore, newBefore);
      }
    }
  }

  /** Two stretches of lines read one after the other. */
  lemma ReadBoth(s: Scan, hunk: seq<string>, more: seq<string>, added: set<int>, anchors: set<int>, added1: set<int>, anchors1: set<int>)
    requires ScanLines(s, hunk).added == s.added + added && ScanLines(s, hunk).anchors == s.anchors + anchors
    requires var r := ScanLines(ScanLines(s, hunk), more);
             && r.added == ScanLines(s, hunk).added + added1
             && r.anchors == ScanLines(s, hunk).anchors + anchors1
    ensures var r := ScanLines(s, hunk + more);
            && r.added == s.added + (added + added1)
            && r.anchors == s.anchors + (anchors + anchors1)
  {
    ScanAppend(s, hunk, more);
    Regroup(s.added, added, added1);
    Regroup(s.anchors, anchors, anchors1);
  }

  lemma {:induction false} GapSectionsAreRead(s: Scan, kept: seq<string>, rest: seq<Section>, oldBefore: nat, newBefore: nat)
    ensures var r := ScanLines(s, Print([Gap(kept)] + rest, oldBefore, newBefore));
            && r.added == s.added + LinesFrom(Origins([Gap(kept)] + rest), false, newBefore)
            && r.anchors == s.anchors + Anchors([Gap(kept)] + rest, newBefore)
    decreases |rest| + 1, 0
  {
    GapThenRest(kept, rest, oldBefore, newBefore);
    GapFromFront(kept, rest, false, newBefore);
    SectionsAreRead(s, rest, oldBefore + |kept|, newBefore + |kept|);
  }

  lemma {:induction false} HunkSectionsAreRead(s: Scan, section: Section, rest: seq<Section>, oldBefore: nat, newBefore: nat)
    requires section.Hunk?
    ensures var r := ScanLines(s, Print([section] + rest, oldBefore, newBefore));
            && r.added == s.added + LinesFrom(Origins([section] + rest), false, newBefore)
            && r.anchors == s.anchors + Anchors([section] + rest, newBefore)
    decreases |rest| + 1, 0
  {
    var Hunk(edits, heading) := section;
    var old1, new1 := oldBefore + OldCount(edits), newBefore + NewCount(edits);
    var hunk := PrintHunk(oldBefore, newBefore, edits, heading);
    var more := Print(rest, old1, new1);
    assert Print([section] + rest, oldBefore, newBefore) == hunk + more by {
      HunkThenRest(section, rest, oldBefore, newBefore);
    }
    assert LinesFrom(Origins([section] + rest), false, newBefore) ==
           LinesFrom(EditOrigins(edits), false, newBefore) + LinesFrom(Origins(rest), false, new1) by {
      HunkFromFront(edits, heading, rest, false, newBefore);
    }
    AnchorsOfHunk(section, rest, newBefore);
    HunkIsRead(s, oldBefore, newBefore, edits, heading);
    SectionsAreRead(ScanLines(s, hunk), rest, old1, new1);
    ReadBoth(s, hunk, more, LinesFrom(EditOrigins(edits), false, newBefore), DeletionRuns(edits, FirstLine(newBefore, edits), false),
             LinesFrom(Origins(rest), false, new1), Anchors(rest, new1));
  }

  lemma ShowBoth(s: Side, hunk: seq<string>, more: seq<string>, lines: set<int>, lines1: set<int>)
    requires SideLines(s, hunk).lines == s.lines + lines
    requires SideLines(SideLines(s, hunk), more).lines == SideLines(s, hunk).lines + lines1
    ensures SideLines(s, hunk + more).lines == s.lines + (lines + lines1)
  {
    SideAppend(s, hunk, more);
    Regroup(s.lines, lines, lines1);
  }

  lemma {:induction false} SectionsAreCommentable(s: Side, sections: seq<Section>, oldBefore: nat, newBefore: nat)
    ensures SideLines(s, Print(sections, oldBefore, newBefore)).lines == s.lines + LinesFrom(Origins(sections), true, newBefore)
    decreases |sections|, 1
  {
    if sections != [] {
      var section, rest := sections[0], sections[1..];
      assert sections == [section] + rest;
      if section.Gap? {
        GapSectionsAreCommentable(s, section.kept, rest, oldBefore, newBefore);
      } else {
        HunkSectionsAreCommentable(s, section, rest, oldBefore, newBefore);
      }
    }
  }

  lemma {:induction false} GapSectionsAreCommentable(s: Side, kept: seq<string>, rest: seq<Section>, oldBefore: nat, newBefore: nat)
    ensures SideLines(s, Print([Gap(kept)] + rest, oldBefore, newBefore)).lines
              == s.lines + LinesFrom(Origins([Gap(kept)] + rest), true, newBefore)
    decreases |rest| + 1, 0
  {
    GapThenRest(kept, rest, oldBefore, newBefore);
    GapFromFront(kept, rest, true, newBefore);
    SectionsAreCommentable(s, rest, oldBefore + |kept|, newBefore + |kept|);
  }

  lemma {:induction false} HunkSectionsAreCommentable(s: Side, section: Section, rest: seq<Section>, oldBefore: nat, newBefore: nat)
    requires section.Hunk?
    ensures SideLines(s, Print([section] + rest, oldBefore, newBefore)).lines
              == s.lines + LinesFrom(Origins([section] + rest), true, newBefore)
    decreases |rest| + 1, 0
  {
    var Hunk(edits, heading) := section;
    var old1, new1 := oldBefore + OldCount(edits), newBefore + NewCount(edits);
    var hunk := PrintHunk(oldBefore, newBefore, edits, heading);
    var more := Print(rest, old1, new1);
    assert Print([section] + rest, oldBefore, newBefore) == hunk + more by {
      HunkThenRest(section, rest, oldBefore, newBefore);
    }
    assert LinesFrom(Origins([section] + rest), true, newBefore) ==
           LinesFrom(EditOrigins(edits), true, newBefore) + LinesFrom(Origins(rest), true, new1) by {
      HunkFromFront(edits, heading, rest, true, newBefore);
    }
    HunkIsCommentable(s, oldBefore, newBefore, edits, heading);
    SectionsAreCommentable(SideLines(s, hunk), rest, old1, new1);
    ShowBoth(s, hunk, more, LinesFrom(EditOrigins(edits), true, newBefore), LinesFrom(Origins(rest), true, new1));
  }

  predicate IsInserted(origins: seq<Origin>, n: int) {
    0 < n <= |origins| && origins[n - 1].Inserted?
  }

  predicate IsShown(origins: seq<Origin>, n: int) {
    0 < n <= |origins| && !origins[n - 1].Unchanged?
  }

  /** Lines before the first hunk, such as the file names, say nothing. */
  lemma {:induction false} PrefaceIsSkipped(preface: seq<string>, more: seq<string>)
    requires forall i | 0 <= i < |preface| :: !("@@ -" <= preface[i])
    ensures ScanLines(START, preface + more) == ScanLines(START, more)
    ensures SideLines(SIDE_START, preface + more) == SideLines(SIDE_START, more)
    decreases |preface|
  {
    if preface == [] {
      assert preface + more == more;
    } else {
      assert (preface + more)[1..] == preface[1..] + more;
      assert HunkStart(preface[0]) == None;
      PrefaceIsSkipped(preface[1..], more);
    }
  }

  /** Reading a printed edit script gives back exactly the inserted lines of the new file, one anchor
      per run of removed lines, and as commentable lines exactly the inserted and context lines. */
  lemma PrintedPatchReadsBack(preface: seq<string>, sections: seq<Section>)
    requires forall i | 0 <= i < |preface| :: !("@@ -" <= preface[i])
    ensures var lines, origins := preface + Print(sections, 0, 0), Origins(sections);
            && ScanLines(START, lines).added == (set n | 0 < n <= |origins| && IsInserted(origins, n))
            && ScanLines(START, lines).anchors == Anchors(sections, 0)
            && Commentable(lines) == (set n | 0 < n <= |origins| && IsShown(origins, n))
  {
    var origins := Origins(sections);
    PrefaceIsSkipped(preface, Print(sections, 0, 0));
    SectionsAreRead(START, sections, 0, 0);
    SectionsAreCommentable(SIDE_START, sections, 0, 0);
    forall n
      ensures n in LinesFrom(origins, false, 0) <==> IsInserted(origins, n)
      ensures n in LinesFrom(origins, true, 0) <==> IsShown(origins, n)
    {
      LinesFromMeans(origins, false, 0, n);
      LinesFromMeans(origins, true, 0, n);
    }
  }
}
