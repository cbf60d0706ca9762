/** Where each finding of a unit goes: inline on the diff, or into the body. The texts of titles,
    tables and sections are not modelled; `clean` stands for the sanitizer. */
module Report {
  import opened Rows
  import opened Text
  import opened Sorting
  import opened Findings
  import Diff

  const MAX_ANNOTATION_MESSAGE: nat := 60_000
  const MAX_REVIEW_BODY: nat := 60_000
  const MAX_INLINE_COMMENTS: nat := 30

  datatype FileStatus = Complete | Failed | Skipped

  /** `review` and `patch` are the lines of the review text and of the patch. */
  datatype FileReport = FileReport(path: string, status: FileStatus, review: seq<string>, patch: seq<string>)

  datatype Annotation = Annotation(path: string, first: nat, last: nat, level: string, title: string, message: string)

  datatype InlineComment = InlineComment(path: string, line: int, body: string)

  const NOTICE := "\n\n\U{2026} truncated \U{2014} see the CodeLens dashboard for the full review."

  function Truncate(text: string, limit: nat): string
    requires limit >= |NOTICE|
  {
    if |text| <= limit then text else text[..limit - |NOTICE|] + NOTICE
  }

  /** A text is cut only when it is too long, and then the cut and its notice fill the limit exactly. */
  lemma TruncateFits(text: string, limit: nat)
    requires limit >= |NOTICE|
    ensures |text| <= limit ==> Truncate(text, limit) == text
    ensures |text| > limit ==> |Truncate(text, limit)| == limit && exists kept, lost :: kept + lost == text && Truncate(text, limit) == kept + NOTICE
  {
    if |text| > limit {
      var n := limit - |NOTICE|;
      assert text[..n] + text[n..] == text;
    }
  }

  // ---- the findings of a unit ----

  /** A finding together with the file whose review states it. */
  datatype Found = Found(file: FileReport, finding: Finding)

  function Reviewed(file: FileReport): seq<Finding> {
    FindingsOf(Items(Section(file.review)))
  }

  function FoundIn(file: FileReport, findings: seq<Finding>): seq<Found> {
    seq(|findings|, k requires 0 <= k < |findings| => Found(file, findings[k]))
  }

  function FoundOf(file: FileReport): seq<Found> {
    if file.status.Complete? then FoundIn(file, Reviewed(file)) else []
  }

  function AllFound(files: seq<FileReport>): seq<Found> {
    if files == [] then []
    else
      var file := files[|files| - 1];
      AllFound(files[..|files| - 1]) + FoundOf(file)
  }

  lemma FilesOneMore(files: seq<FileReport>, i: nat)
    requires i < |files|
    ensures AllFound(files[..i + 1]) == AllFound(files[..i]) + FoundOf(files[i])
  {
    assert files[..i + 1][..i] == files[..i];
  }

  lemma {:induction false} FoundSoFar(files: seq<FileReport>, i: nat, j: nat)
    requires i <= j <= |files|
    ensures AllFound(files[..i]) <= AllFound(files[..j])
    decreases j - i
  {
    if i < j {
      FilesOneMore(files, i);
      FoundSoFar(files, i + 1, j);
    }
  }

  /** What a file adds: its review's findings in order, if it was completed. */
  lemma FileAddsItsFindings(file: FileReport, own: seq<Finding>)
    requires own == if file.status.Complete? then Reviewed(file) else []
    ensures FoundOf(file) == seq(|own|, j requires 0 <= j < |own| => Found(file, own[j]))
  {
  }

  lemma FoundBefore(files: seq<FileReport>, i: nat)
    requires i <= |files|
    ensures AllFound(files[..i]) <= AllFound(files)
  {
    FoundSoFar(files, i, |files|);
    assert files[..|files|] == files;
  }

  /** Every file's findings are among all, file after file. */
  lemma EveryFindingIsFound(files: seq<FileReport>, i: nat, before: seq<Found>, own: seq<Found>)
    requires i < |files| && before == AllFound(files[..i]) && own == FoundOf(files[i])
    ensures before + own <= AllFound(files)
  {
    FilesOneMore(files, i);
    FoundBefore(files, i + 1);
  }

  predicate PathAtMost(a: FileReport, b: FileReport) {
    AtMost(a.path, b.path)
  }

  /** `sorted(files, key=path)` is in path order and has the same files. */
  lemma FilesAreOrdered(files: seq<FileReport>)
    ensures var sorted := SortBy(PathAtMost, files); forall i, j | 0 <= i < j < |sorted| :: AtMost(sorted[i].path, sorted[j].path)
    ensures multiset(SortBy(PathAtMost, files)) == multiset(files)
  {
    forall a: FileReport, b: FileReport
      ensures PathAtMost(a, b) || PathAtMost(b, a)
    {
      AtMostIsTotal(a.path, b.path);
    }
    forall a: FileReport, b: FileReport, c: FileReport | PathAtMost(a, b) && PathAtMost(b, c)
      ensures PathAtMost(a, c)
    {
      AtMostIsTransitive(a.path, b.path, c.path);
    }
    SortBySorts(PathAtMost, files);
  }

  // ---- one finding ----

  /** Models shorten paths: the finding's path may be the end of the file's path, after a slash. */
  predicate SamePath(path: string, filePath: string) {
    path == filePath || (|path| < |filePath| && filePath[|filePath| - |path| - 1..] == "/" + path)
  }

  lemma SamePathIsATail(path: string, filePath: string)
    ensures SamePath(path, filePath) <==> path == filePath || exists directory :: filePath == directory + "/" + path
  {
    if SamePath(path, filePath) && path != filePath {
      var n := |filePath| - |path| - 1;
      assert filePath == filePath[..n] + filePath[n..];
      assert filePath == filePath[..n] + "/" + path;
    }
    if directory :| filePath == directory + "/" + path {
      assert filePath[|directory|..] == "/" + path;
    }
  }

  predicate Located(x: Found) {
    x.finding.place.Some? && SamePath(x.finding.place.value.path, x.file.path)
  }

  function Target(x: Found): Option<int>
    requires Located(x)
  {
    var lines := Diff.Commentable(x.file.patch);
    var place := x.finding.place.value;
    if place.last in lines then Some(place.last) else if place.first in lines then Some(place.first) else None
  }

  predicate Eligible(x: Found) {
    Located(x) && Target(x).Some?
  }

  /** A located finding can be a comment exactly when its first or its last line is on the diff, and the
      last is preferred. */
  lemma EligibleIsOnTheDiff(x: Found)
    requires Located(x)
    ensures var place, lines := x.finding.place.value, Diff.Commentable(x.file.patch);
            && (Eligible(x) <==> place.first in lines || place.last in lines)
            && (place.last in lines ==> Target(x) == Some(place.last))
            && (place.last !in lines && place.first in lines ==> Target(x) == Some(place.first))
  {
    var place, lines := x.finding.place.value, Diff.Commentable(x.file.patch);
    if place.last in lines {
      assert Target(x) == Some(place.last);
    }
  }

  predicate EndsWith(s: string, tail: string) {
    |tail| <= |s| && s[|s| - |tail|..] == tail
  }

  /** The text starts with the severity in bold, if there is one. */
  predicate Shows(text: string, severity: Option<string>) {
    severity.Some? && severity.value != "" ==> "**[" + severity.value + "]** " <= text
  }

  function Label(finding: Finding): string {
    if finding.severity.Some? && finding.severity.value != "" then "**[" + finding.severity.value + "]** " else ""
  }

  function Level(severity: Option<string>): string {
    if severity == Some("blocker") then "failure"
    else if severity == Some("major") then "warning"
    else "notice"
  }

  function TitleText(severity: Option<string>): string {
    var title := "CodeLens: " + if severity.Some? && severity.value != "" then severity.value else "finding";
    if |title| <= 255 then title else title[..255]
  }

  function AnnotationOf(clean: string -> string, x: Found): (a: Annotation)
    requires Located(x)
    ensures |a.title| <= 255 && |a.message| <= 60_000
    ensures a.path == x.file.path && Place(x.finding.place.value.path, a.first, a.last) == x.finding.place.value
    ensures |clean(x.finding.message)| <= 60_000 ==> a.message == clean(x.finding.message)
    ensures x.finding.severity.Some? && x.finding.severity.value != "" ==> a.title <= "CodeLens: " + x.finding.severity.value
    ensures x.finding.severity == None ==> a.title == "CodeLens: finding"
    ensures a.level == "failure" <==> x.finding.severity == Some("blocker")
    ensures a.level == "warning" <==> x.finding.severity == Some("major")
    ensures a.level in ["failure", "warning", "notice"]
  {
    var place := x.finding.place.value;
    Annotation(x.file.path, place.first, place.last, Level(x.finding.severity), TitleText(x.finding.severity),
               Truncate(clean(x.finding.message), MAX_ANNOTATION_MESSAGE))
  }

  /** On a line of its own file's diff that the finding names. */
  function CommentOf(clean: string -> string, x: Found): (c: InlineComment)
    requires Eligible(x)
    ensures c.path == x.file.path && c.line in Diff.Commentable(x.file.patch)
    ensures c.line == x.finding.place.value.first || c.line == x.finding.place.value.last
    ensures x.finding.place.value.last in Diff.Commentable(x.file.patch) ==> c.line == x.finding.place.value.last
    ensures EndsWith(c.body, clean(x.finding.message)) && Shows(c.body, x.finding.severity)
  {
    InlineComment(x.file.path, Target(x).value, Label(x.finding) + clean(x.finding.message))
  }

  /** The line in the body; a located finding carries its line number. */
  function BodyLine(clean: string -> string, x: Found): string {
    "- `" + x.file.path + (if Located(x) then ":" + Decimal(x.finding.place.value.first) else "") + "`: " +
    Label(x.finding) + clean(x.finding.message)
  }

  /** The line names the file, and the first line of a located finding, and ends with the message. */
  lemma BodyLineNames(clean: string -> string, x: Found)
    ensures var line := BodyLine(clean, x); var path := "- `" + x.file.path;
            && EndsWith(line, clean(x.finding.message))
            && (if Located(x) then path + ":" + Decimal(x.finding.place.value.first) + "`: " <= line else path + "`: " <= line)
  {
    var number := if Located(x) then ":" + Decimal(x.finding.place.value.first) else "";
    var head := "- `" + x.file.path + number + "`: ";
    assert BodyLine(clean, x) == head + (Label(x.finding) + clean(x.finding.message));
    assert BodyLine(clean, x) == (head + Label(x.finding)) + clean(x.finding.message);
    if Located(x) {
      assert head == "- `" + x.file.path + ":" + Decimal(x.finding.place.value.first) + "`: ";
    } else {
      assert "- `" + x.file.path + "" == "- `" + x.file.path;
    }
  }

  /** How a finding can be shown: as a comment, when it has a commentable line, or in the body. */
  datatype Slot = Slot(comment: Option<InlineComment>, line: string)

  function SlotOf(clean: string -> string, x: Found): Slot {
    Slot(if Eligible(x) then Some(CommentOf(clean, x)) else None, BodyLine(clean, x))
  }

  // ---- all of them ----

  function Annotations(clean: string -> string, xs: seq<Found>): seq<Annotation> {
    if xs == [] then []
    else
      var x := xs[|xs| - 1];
      Annotations(clean, xs[..|xs| - 1]) + if Located(x) then [AnnotationOf(clean, x)] else []
  }

  function Slots(clean: string -> string, xs: seq<Found>): seq<Slot> {
    seq(|xs|, k requires 0 <= k < |xs| => SlotOf(clean, xs[k]))
  }

  /** A comment for every slot that can have one. */
  function Comments(slots: seq<Slot>): seq<InlineComment> {
    if slots == [] then []
    else
      var slot := slots[|slots| - 1];
      Comments(slots[..|slots| - 1]) + if slot.comment.Some? then [slot.comment.value] else []
  }

  function FirstOf(comments: seq<InlineComment>): seq<InlineComment> {
    if |comments| <= MAX_INLINE_COMMENTS then comments else comments[..MAX_INLINE_COMMENTS]
  }

  /** The first thirty of them are posted inline. */
  function Inline(slots: seq<Slot>): seq<InlineComment> {
    FirstOf(Comments(slots))
  }

  /** The k-th slot goes inline when it can and fewer than thirty before it did. */
  predicate IsInline(slots: seq<Slot>, k: nat)
    requires k < |slots|
  {
    slots[k].comment.Some? && |Comments(slots[..k])| < MAX_INLINE_COMMENTS
  }

  function Unplaced(slots: seq<Slot>): seq<string> {
    if slots == [] then []
    else
      var n := |slots| - 1;
      Unplaced(slots[..n]) + if IsInline(slots, n) then [] else [slots[n].line]
  }

  lemma {:induction false} InlineAndUnplacedAddUp(slots: seq<Slot>)
    ensures |Inline(slots)| + |Unplaced(slots)| == |slots|
    ensures |Inline(slots)| <= 30 && (Unplaced(slots) != [] && |Inline(slots)| < 30 ==> exists k :: 0 <= k < |slots| && slots[k].comment.None?)
  {
    if slots != [] {
      InlineAndUnplacedAddUp(slots[..|slots| - 1]);
    }
  }

  lemma LastSlot(slots: seq<Slot>, n: nat)
    requires |slots| == n + 1
    ensures if IsInline(slots, n)
            then Inline(slots) == Inline(slots[..n]) + [slots[n].comment.value] && Unplaced(slots) == Unplaced(slots[..n])
            else Inline(slots) == Inline(slots[..n]) && Unplaced(slots) == Unplaced(slots[..n]) + [slots[n].line]
  {
    var before := Comments(slots[..n]);
    if slots[n].comment.Some? {
      FirstOfMore(before, slots[n].comment.value);
    } else {
      assert Comments(slots) == before;
    }
  }

  lemma FirstOfMore(comments: seq<InlineComment>, c: InlineComment)
    ensures FirstOf(comments + [c]) == if |comments| < MAX_INLINE_COMMENTS then FirstOf(comments) + [c] else FirstOf(comments)
  {
  }

  lemma MoreSlots(slots: seq<Slot>, n: nat)
    requires |slots| == n + 1
    ensures Inline(slots[..n]) <= Inline(slots) && Unplaced(slots[..n]) <= Unplaced(slots)
  {
    LastSlot(slots, n);
  }

  /** The last slot takes the next place. */
  lemma LastPlace(slots: seq<Slot>, n: nat)
    requires |slots| == n + 1
    ensures var r := |Inline(slots[..n])|;
            if IsInline(slots, n) then r < |Inline(slots)| && Inline(slots)[r] == slots[n].comment.value
            else 0 <= n - r < |Unplaced(slots)| && Unplaced(slots)[n - r] == slots[n].line
  {
    LastSlot(slots, n);
    InlineAndUnplacedAddUp(slots[..n]);
  }

  /** Findings are conserved: each has one place of its own, inline or in the body, in order. The
      place depends on the number of comments before it, so no two findings share one. */
  lemma {:induction false} EveryFindingHasItsPlace(slots: seq<Slot>, k: nat)
    requires k < |slots|
    ensures var r := |Inline(slots[..k])|;
            if IsInline(slots, k) then r < |Inline(slots)| && Inline(slots)[r] == slots[k].comment.value
            else 0 <= k - r < |Unplaced(slots)| && Unplaced(slots)[k - r] == slots[k].line
  {
    var n := |slots| - 1;
    if k < n {
      EveryFindingHasItsPlace(slots[..n], k);
      assert slots[..n][..k] == slots[..k] && slots[..n][k] == slots[k];
      MoreSlots(slots, n);
    } else {
      LastPlace(slots, n);
    }
  }

  lemma {:induction false} CommentsOfSlots(slots: seq<Slot>, c: InlineComment)
    ensures c in Comments(slots) <==> exists k :: 0 <= k < |slots| && slots[k].comment == Some(c)
  {
    if slots != [] {
      var n := |slots| - 1;
      CommentsOfSlots(slots[..n], c);
      if k :| 0 <= k < n && slots[k].comment == Some(c) {
        assert slots[..n][k].comment == Some(c);
      }
    }
  }

  /** The comments are those of the eligible findings, so each is on its file's diff. */
  lemma CommentsOfFindings(clean: string -> string, xs: seq<Found>, c: InlineComment)
    ensures c in Comments(Slots(clean, xs)) <==> exists x | x in xs && Eligible(x) :: c == CommentOf(clean, x)
  {
    CommentsOfSlots(Slots(clean, xs), c);
    if x :| x in xs && Eligible(x) && c == CommentOf(clean, x) {
      var k :| 0 <= k < |xs| && xs[k] == x;
      assert Slots(clean, xs)[k].comment == Some(c);
    }
    if k :| 0 <= k < |xs| && Slots(clean, xs)[k].comment == Some(c) {
      assert xs[k] in xs;
    }
  }

  /** The annotations are the located findings, in order, wherever in the file they point. */
  lemma {:induction false} AnnotationsOfFindings(clean: string -> string, xs: seq<Found>, k: nat)
    requires k < |xs| && Located(xs[k])
    ensures |Annotations(clean, xs[..k])| < |Annotations(clean, xs)|
    ensures Annotations(clean, xs)[|Annotations(clean, xs[..k])|] == AnnotationOf(clean, xs[k])
  {
    var n := |xs| - 1;
    if k < n {
      AnnotationsOfFindings(clean, xs[..n], k);
      assert xs[..n][..k] == xs[..k];
      assert xs[..n][k] == xs[k];
    }
  }

  function LocatedOnly(xs: seq<Found>): (located: seq<Found>)
    ensures forall k | 0 <= k < |located| :: Located(located[k])
  {
    if xs == [] then []
    else LocatedOnly(xs[..|xs| - 1]) + if Located(xs[|xs| - 1]) then [xs[|xs| - 1]] else []
  }

  lemma LastAnnotation(clean: string -> string, xs: seq<Found>)
    requires xs != []
    ensures var x, n := xs[|xs| - 1], |xs| - 1;
            && Annotations(clean, xs) == Annotations(clean, xs[..n]) + (if Located(x) then [AnnotationOf(clean, x)] else [])
            && LocatedOnly(xs) == LocatedOnly(xs[..n]) + (if Located(x) then [x] else [])
  {
  }

  /** They are nothing else: the k-th annotation is that of the k-th located finding. */
  lemma {:induction false} AnnotationsAreTheLocated(clean: string -> string, xs: seq<Found>)
    ensures |Annotations(clean, xs)| == |LocatedOnly(xs)|
    ensures forall k | 0 <= k < |LocatedOnly(xs)| :: Annotations(clean, xs)[k] == AnnotationOf(clean, LocatedOnly(xs)[k])
  {
    if xs != [] {
      AnnotationsAreTheLocated(clean, xs[..|xs| - 1]);
      LastAnnotation(clean, xs);
    }
  }

  /** The located findings are those of `xs`, each as often. */
  lemma {:induction false} LocatedAreCounted(xs: seq<Found>, x: Found)
    ensures multiset(LocatedOnly(xs))[x] == if Located(x) then multiset(xs)[x] else 0
  {
    if xs != [] {
      var n := |xs| - 1;
      LocatedAreCounted(xs[..n], x);
      assert xs == xs[..n] + [xs[n]];
    }
  }

  // ---- build_report ----

  datatype UnitReport = UnitReport(annotations: seq<Annotation>, inline: seq<InlineComment>, unplaced: seq<string>,
                                   findings: seq<Finding>)

  function FindingsIn(xs: seq<Found>): seq<Finding> {
    seq(|xs|, k requires 0 <= k < |xs| => xs[k].finding)
  }

  /** What the loop has built from the findings seen so far. */
  ghost predicate Built(clean: string -> string, xs: seq<Found>, annotations: seq<Annotation>, inline: seq<InlineComment>,
                        unplaced: seq<string>)
  {
    annotations == Annotations(clean, xs) && inline == Inline(Slots(clean, xs)) && unplaced == Unplaced(Slots(clean, xs))
  }

  lemma BuildOne(clean: string -> string, xs: seq<Found>, x: Found, annotations: seq<Annotation>, inline: seq<InlineComment>,
                 unplaced: seq<string>)
    requires Built(clean, xs, annotations, inline, unplaced)
    ensures var annotated := annotations + if Located(x) then [AnnotationOf(clean, x)] else [];
            if Eligible(x) && |inline| < MAX_INLINE_COMMENTS
            then Built(clean, xs + [x], annotated, inline + [CommentOf(clean, x)], unplaced)
            else Built(clean, xs + [x], annotated, inline, unplaced + [BodyLine(clean, x)])
  {
    assert (xs + [x])[..|xs|] == xs;
    assert Slots(clean, xs + [x])[..|xs|] == Slots(clean, xs);
    LastSlot(Slots(clean, xs + [x]), |xs|);
  }

  lemma FindingsAppend(xs: seq<Found>, file: FileReport, findings: seq<Finding>)
    ensures FindingsIn(xs + FoundIn(file, findings)) == FindingsIn(xs) + findings
  {
  }

  method BuildReport(files: seq<FileReport>, clean: string -> string) returns (report: UnitReport)
    ensures var xs := AllFound(SortBy(PathAtMost, files));
            report.findings == FindingsIn(xs) && Built(clean, xs, report.annotations, report.inline, report.unplaced)
  {
    ghost var xs := [];
    var all: seq<Finding>, annotations, inline, unplaced := [], [], [], [];
    var sorted := SortBy(PathAtMost, files);
    for i := 0 to |sorted|
      invariant xs == AllFound(sorted[..i]) && all == FindingsIn(xs)
      invariant Built(clean, xs, annotations, inline, unplaced)
    {
      FilesOneMore(sorted, i);
      var file := sorted[i];
      if !file.status.Complete? {
        continue;
      }
      var findings := ParseFindings(file.review);
      annotations, inline, unplaced := PlaceFindings(clean, file, findings, annotations, inline, unplaced, xs);
      FindingsAppend(xs, file, findings);
      xs, all := xs + FoundIn(file, findings), all + findings;
    }
    assert sorted[..|sorted|] == sorted;
    report := UnitReport(annotations, inline, unplaced, all);
  }

  method PlaceFindings(clean: string -> string, file: FileReport, findings: seq<Finding>, annotations0: seq<Annotation>,
                       inline0: seq<InlineComment>, unplaced0: seq<string>, ghost before: seq<Found>)
    returns (annotations: seq<Annotation>, inline: seq<InlineComment>, unplaced: seq<string>)
    requires Built(clean, before, annotations0, inline0, unplaced0)
    ensures Built(clean, before + FoundIn(file, findings), annotations, inline, unplaced)
  {
    annotations, inline, unplaced := annotations0, inline0, unplaced0;
    var diffLines := Diff.CommentableLines(file.patch);
    ghost var xs := before;
    for j := 0 to |findings|
      invariant xs == before + FoundIn(file, findings[..j])
      invariant Built(clean, xs, annotations, inline, unplaced)
    {
      FoundOneMore(file, findings, j);
      annotations, inline, unplaced := PlaceFinding(clean, file, findings[j], diffLines, annotations, inline, unplaced, xs);
      xs := xs + [Found(file, findings[j])];
    }
    assert findings[..|findings|] == findings;
  }

  method PlaceFinding(clean: string -> string, file: FileReport, finding: Finding, diffLines: set<int>, annotations0: seq<Annotation>,
                      inline0: seq<InlineComment>, unplaced0: seq<string>, ghost before: seq<Found>)
    returns (annotations: seq<Annotation>, inline: seq<InlineComment>, unplaced: seq<string>)
    requires Built(clean, before, annotations0, inline0, unplaced0) && diffLines == Diff.Commentable(file.patch)
    ensures Built(clean, before + [Found(file, finding)], annotations, inline, unplaced)
  {
    var x := Found(file, finding);
    BuildOne(clean, before, x, annotations0, inline0, unplaced0);
    annotations, inline, unplaced := annotations0, inline0, unplaced0;
    if finding.place.None? || !SamePath(finding.place.value.path, file.path) {
      assert annotations0 + [] == annotations0;
      unplaced := unplaced + [BodyLine(clean, x)];
      return;
    }
    var Place(_, first, last) := finding.place.value;
    annotations := annotations + [AnnotationOf(clean, x)];
    var target := if last in diffLines then Some(last) else if first in diffLines then Some(first) else None;
    if target.Some? && |inline| < MAX_INLINE_COMMENTS {
      inline := inline + [InlineComment(file.path, target.value, Label(finding) + clean(finding.message))];
    } else {
      unplaced := unplaced + [BodyLine(clean, x)];
    }
  }

  lemma FoundOneMore(file: FileReport, findings: seq<Finding>, j: nat)
    requires j < |findings|
    ensures FoundIn(file, findings[..j + 1]) == FoundIn(file, findings[..j]) + [Found(file, findings[j])]
  {
  }
}
