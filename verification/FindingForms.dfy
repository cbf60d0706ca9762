/** Whole documents: what a findings section prints, the parser reads back. */
module FindingForms {
  import opened Rows
  import opened Text
  import opened Findings
  import opened FindingPatterns
  import opened FindingPlaces

  // ---- items ----

  /** The severity in front of an item. */
  datatype Mark = Mark(opening: Opening, said: string, word: string, closing: Closing)
  {
    predicate Valid() {
      opening.Valid() && IsSeverity(word) && Reads(said, word) && closing.Valid()
    }

    function Text(): string {
      opening.Then(said + closing.Then(""))
    }
  }

  /** How the item says where: in a backtick span, loosely, or not at all. */
  datatype Front =
    | Spanned(passed: seq<Passed>, lead: string, before: string, spot: Spot, after: string,
              a: string, separator: string, b: string)
    | Loose(before: string, spot: Spot)
    | Bare
  {
    function Inside(): string
      requires Spanned?
    {
      before + spot.Then(after)
    }

    function Text(): string {
      match this
      case Spanned(passed, lead, _, _, _, a, separator, b) =>
        PassedText(passed) + lead + "`" + Inside() + "`" + (a + (separator + b))
      case Loose(before, spot) => before + spot.Then("")
      case Bare => ""
    }

    ghost predicate Valid(message: string) {
      match this
      case Spanned(passed, lead, before, spot, after, a, separator, b) =>
        && AllPassed(passed) && Doubled(lead)
        && '`' !in before && Leads(before) && spot.Valid() && '`' !in after && spot.Ends(after)
        && Blank(a) && Blank(b)
        && (if separator == "" then message == "" || !IsSeparator(message[0]) else |separator| == 1 && IsSeparator(separator[0]))
      case Loose(before, spot) =>
        '`' !in before && Leads(before) && spot.Valid() && '`' !in message && spot.Ends(message)
      case Bare => !Names(message)
    }

    function Place(): Option<Findings.Place> {
      if Bare? then None else Some(spot.Named())
    }

    /** The message: a span at the very front, and the separator after it, are not part of it. */
    function Said(message: string): string {
      if Spanned? && passed == [] && lead == "" && message != "" then message else Strip(Text() + message)
    }
  }

  /** What an item says: a finding, or that there is none. */
  datatype Item = Issue(mark: Option<Mark>, front: Front, message: string) | NoIssue(nothing: Nothing)
  {
    function Head(): string
      requires Issue?
    {
      (if mark.Some? then mark.value.Text() else "") + front.Text()
    }

    function Text(): string {
      if Issue? then Head() + message else nothing.Text()
    }

    ghost predicate Valid() {
      match this
      case Issue(mark, front, message) =>
        var rest := front.Text() + message;
        && front.Valid(message) && (message == "" || Trimmed(message)) && Trimmed(rest)
        && (match mark
            case Some(m) => m.Valid() && Clear(rest)
            case None => !SaysNone(rest) && forall word | IsSeverity(word) :: !IsRated(rest, word))
      case NoIssue(nothing) => nothing.Valid()
    }

    function Meant(): Option<Finding> {
      match this
      case Issue(mark, front, message) =>
        Some(Finding(if mark.Some? then Some(mark.value.word) else None, front.Said(message), front.Place()))
      case NoIssue(_) => None
    }
  }

  // ---- reading one item back ----

  lemma TrimmedIsKept(text: string)
    requires Trimmed(text)
    ensures LStrip(text) == text && RStrip(text) == text && Strip(text) == text
  {
  }

  lemma ClosingThen(closing: Closing, said: string, rest: string)
    ensures said + closing.Then("") + rest == said + closing.Then(rest)
  {
    var Closing(a, bracket, b, emphasis, c, separator, d) := closing;
    assert d + "" + rest == d + rest;
    assert closing.Then("") + rest == closing.Then(rest);
  }

  lemma OpeningThen(opening: Opening, a: string, b: string)
    ensures opening.Then(a) + b == opening.Then(a + b)
  {
  }

  lemma MarkIsRead(m: Mark, rest: string)
    requires m.Valid() && Clear(rest)
    ensures Severity(m.Text() + rest) == Rated(Some(m.word), rest)
  {
    ClosingThen(m.closing, m.said, rest);
    OpeningThen(m.opening, m.said + m.closing.Then(""), rest);
    SeverityIsRead(m.opening, m.said, m.word, m.closing.Then(rest));
    AfterSeverityIsRead(m.closing, rest);
  }

  lemma RatedIsNotNone(item: string)
    requires NoIssues(item)
    ensures Severity(item).severity.None?
  {
    var n := NoIssuesHasForm(item);
    NoneIsUnrated(n);
  }

  lemma SpotHasNoTicks(spot: Spot, after: string)
    requires spot.Valid() && '`' !in after
    ensures '`' !in spot.Then(after)
  {
    assert '`' !in spot.path by {
      PathForm(spot.path);
      CharsOfPath(spot.path);
    }
    assert forall n: nat :: '`' !in Decimal(n);
    if spot.range.Some? {
      var RangeText(a, dash, b, l, line) := spot.range.value;
      assert '`' !in a && '`' !in b;
      assert '`' !in spot.range.value.Text() + after;
    }
    assert '`' !in spot.Numbers(after);
  }

  lemma SpanParts(before: string, lead: string, inside: string, after: string, message: string, rest: string, i: nat, j: nat)
    requires rest == before + lead + "`" + inside + "`" + after + message
    requires i == |before| + |lead| && j == i + |inside| + 2
    ensures rest == before + lead + "`" + inside + "`" + (after + message)
    ensures before <= rest && j <= |rest| && rest[..i] == before + lead && rest[j..] == after + message
  {
  }

  lemma PlaceIsInside(before: string, spot: Spot, after: string)
    requires '`' !in before && Leads(before) && spot.Valid() && '`' !in after && spot.Ends(after)
    ensures '`' !in before + spot.Then(after) && before + spot.Then(after) != ""
    ensures FindLocation(before + spot.Then(after)) == Some(spot.Named())
  {
    SpotIsFound(before, spot, after);
    SpotHasNoTicks(spot, after);
  }

  lemma SpanIsInText(before: string, lead: string, inside: string, after: string, message: string, rest: string, i: nat, j: nat)
    requires rest == before + lead + "`" + inside + "`" + after + message
    requires i == |before| + |lead| && j == i + |inside| + 2
    requires Doubled(lead) && '`' !in inside && inside != ""
    ensures before <= rest && j <= |rest| && Ticks(rest, |before|, i, j - 1) && rest[i + 1..j - 1] == inside
  {
    SpanParts(before, lead, inside, after, message, rest, i, j);
    TicksAreThere(rest, before, lead, inside, after + message);
  }

  lemma InsideIsLocated(ps: seq<Passed>, before: string, lead: string, inside: string, after: string, message: string, rest: string, span: Span, place: Place)
    requires AllPassed(ps) && before == PassedText(ps) && rest == before + lead + "`" + inside + "`" + after + message
    requires span.start == |before| + |lead| && span.end == span.start + |inside| + 2
    requires Doubled(lead) && '`' !in inside && inside != "" && FindLocation(inside) == Some(place)
    ensures Location(rest) == Some(Located(place, Some(span)))
  {
    var j, k := span.start, span.end - 1;
    assert before <= rest && Ticks(rest, |before|, j, k) && rest[j + 1..k] == inside by {
      SpanIsInText(before, lead, inside, after, message, rest, span.start, span.end);
    }
    SpannedPlaceIsFound(rest, ps, before, j, k, inside, place);
  }

  lemma SpannedIsLocated(front: Front, message: string, rest: string, span: Span)
    requires front.Spanned? && front.Valid(message) && rest == front.Text() + message
    requires span.start == |PassedText(front.passed)| + |front.lead| && span.end == span.start + |front.Inside()| + 2
    ensures Location(rest) == Some(Located(front.spot.Named(), Some(span)))
  {
    PlaceIsInside(front.before, front.spot, front.after);
    InsideIsLocated(front.passed, PassedText(front.passed), front.lead, front.Inside(), front.a + (front.separator + front.b), message, rest, span, front.spot.Named());
  }

  lemma SpotThen(before: string, spot: Spot, message: string)
    ensures before + spot.Then("") + message == before + spot.Then(message)
  {
    assert spot.Numbers("") + message == spot.Numbers(message);
  }

  lemma LooseIsLocated(front: Front, message: string)
    requires front.Loose? && front.Valid(message)
    ensures Location(front.Text() + message) == Some(Located(front.spot.Named(), None))
  {
    SpotThen(front.before, front.spot, message);
    PlaceIsInside(front.before, front.spot, message);
    LoosePlaceIsFound(front.before + front.spot.Then(message), front.spot.Named());
  }

  lemma BareIsNotLocated(message: string)
    requires !Names(message)
    ensures Location("" + message) == None
  {
    assert "" + message == message;
    LocationForm(message);
  }

  lemma StripsTo(b: string, message: string)
    requires Blank(b) && (message == "" || Trimmed(message))
    ensures LStrip(b + message) == message && Strip(b + message) == message && Strip(message) == message
  {
    LStripOver(b, message);
  }

  lemma SeparatorIsDropped(a: string, separator: string, b: string, message: string)
    requires Blank(a) && Blank(b) && (message == "" || Trimmed(message))
    requires if separator == "" then message == "" || !IsSeparator(message[0]) else |separator| == 1 && IsSeparator(separator[0])
    ensures Strip(DropSeparator(a + (separator + b) + message)) == message
  {
    var s := a + (separator + b) + message;
    StripsTo(b, message);
    if separator == "" {
      assert s == (a + b) + message;
      StripsTo(a + b, message);
    } else {
      var t := separator + (b + message);
      assert s == a + t;
      LStripSkips(a, t);
      assert t[1..] == b + message;
    }
  }

  lemma LeadIsBlank(ps: seq<Passed>, lead: string, rest: string)
    requires Trimmed(rest) && PassedText(ps) + lead <= rest
    ensures Blank(PassedText(ps) + lead) <==> ps == [] && lead == ""
  {
    var text := PassedText(ps) + lead;
    if ps != [] {
      var p := ps[|ps| - 1];
      var i := |PassedText(ps[..|ps| - 1])| + |p.lead|;
      assert text[i] == '`';
    } else if lead != "" {
      assert text[0] == rest[0];
    }
  }

  lemma IssueIsBuilt(item: string, severity: Option<string>, rest: string, found: Option<Located>, message: string)
    requires Severity(item) == Rated(severity, rest) && Location(rest) == found
    requires message == (if found.Some? && found.value.span.Some? && Blank(rest[..found.value.span.value.start])
                         then Strip(DropSeparator(rest[found.value.span.value.end..])) else Strip(rest))
    ensures FindingOf(item) == Finding(severity, if message != "" then message else Strip(rest), if found.Some? then Some(found.value.place) else None)
  {
  }

  lemma SpannedIsRead(front: Front, message: string, rest: string, item: string, severity: Option<string>)
    requires front.Spanned? && front.Valid(message) && (message == "" || Trimmed(message))
    requires rest == front.Text() + message && Trimmed(rest) && Severity(item) == Rated(severity, rest)
    ensures FindingOf(item) == Finding(severity, front.Said(message), front.Place())
  {
    var before, after := PassedText(front.passed), front.a + (front.separator + front.b);
    var start := |before| + |front.lead|;
    var span := Span(start, start + |front.Inside()| + 2);
    SpannedIsLocated(front, message, rest, span);
    SpanParts(before, front.lead, front.Inside(), after, message, rest, span.start, span.end);
    LeadIsBlank(front.passed, front.lead, rest);
    SeparatorIsDropped(front.a, front.separator, front.b, message);
    IssueIsBuilt(item, severity, rest, Some(Located(front.spot.Named(), Some(span))),
                 if front.passed == [] && front.lead == "" then message else Strip(rest));
  }

  lemma FrontIsRead(front: Front, message: string, item: string, severity: Option<string>)
    requires front.Valid(message) && (message == "" || Trimmed(message)) && Trimmed(front.Text() + message)
    requires Severity(item) == Rated(severity, front.Text() + message)
    ensures FindingOf(item) == Finding(severity, front.Said(message), front.Place())
  {
    var rest := front.Text() + message;
    match front
    case Spanned(_, _, _, _, _, _, _, _) =>
      SpannedIsRead(front, message, rest, item, severity);
    case Loose(_, spot) =>
      LooseIsLocated(front, message);
      IssueIsBuilt(item, severity, rest, Some(Located(spot.Named(), None)), Strip(rest));
    case Bare =>
      BareIsNotLocated(message);
      IssueIsBuilt(item, severity, rest, None, Strip(rest));
  }

  lemma RatedIsRead(m: Mark, front: Front, message: string, rest: string)
    requires Issue(Some(m), front, message).Valid() && rest == front.Text() + message
    ensures !NoIssues(m.Text() + rest)
    ensures FindingOf(m.Text() + rest) == Finding(Some(m.word), front.Said(message), front.Place())
  {
    MarkIsRead(m, rest);
    if NoIssues(m.Text() + rest) {
      RatedIsNotNone(m.Text() + rest);
    }
    FrontIsRead(front, message, m.Text() + rest, Some(m.word));
  }

  lemma UnratedIsRead(front: Front, message: string, rest: string)
    requires Issue(None, front, message).Valid() && rest == front.Text() + message
    ensures !NoIssues(rest) && FindingOf(rest) == Finding(None, front.Said(message), front.Place())
  {
    UnratedIsKept(rest);
    NoIssuesForm(rest);
    FrontIsRead(front, message, rest, None);
  }

  /** Each item is dropped when it says there is nothing, and otherwise gives the finding it means. */
  lemma ItemIsRead(item: Item)
    requires item.Valid()
    ensures NoIssues(item.Text()) <==> item.Meant().None?
    ensures item.Issue? ==> Some(FindingOf(item.Text())) == item.Meant()
  {
    match item
    case NoIssue(nothing) => NoneIsRead(nothing);
    case Issue(mark, front, message) =>
      var rest := front.Text() + message;
      if mark.Some? {
        assert item.Text() == mark.value.Text() + rest;
        RatedIsRead(mark.value, front, message, rest);
      } else {
        assert item.Text() == rest;
        UnratedIsRead(front, message, rest);
      }
  }

  // ---- documents ----

  /** The message with its wrapped lines joined by single spaces. */
  function Unwrap(text: string, wraps: seq<string>): string {
    if wraps == [] then text
    else
      var n := |wraps| - 1;
      Unwrap(text, wraps[..n]) + if Blank(wraps[n]) then "" else " " + Strip(wraps[n])
  }

  /** An item as lines: a bullet, then the lines its text is wrapped over, blank ones among them. */
  datatype Entry = Entry(indent: string, marker: string, gap: string, first: Item, trail: string, wraps: seq<string>)
  {
    /** What the item says on all of its lines. */
    function Whole(): Item {
      match first
      case Issue(mark, front, message) => Issue(mark, front, Unwrap(message, wraps))
      case NoIssue(nothing) => NoIssue(nothing.(rest := Unwrap(nothing.rest, wraps)))
    }

    function Lines(): seq<string> {
      [indent + (marker + (gap + (first.Text() + trail)))] + wraps
    }

    ghost predicate Valid() {
      && Blank(indent) && IsMarker(marker) && gap != "" && Blank(gap) && Blank(trail)
      && Trimmed(first.Text()) && Whole().Valid()
      && (first.Issue? && first.message == "" ==> wraps == [])
      && forall i | 0 <= i < |wraps| :: !BulletLine(wraps[i]) && !HeadingLine(wraps[i])
    }
  }

  ghost predicate AllValid(es: seq<Entry>) {
    es == [] || (AllValid(es[..|es| - 1]) && es[|es| - 1].Valid())
  }

  function Printed(es: seq<Entry>): seq<string> {
    if es == [] then [] else Printed(es[..|es| - 1]) + es[|es| - 1].Lines()
  }

  /** The findings the entries mean; those that say there are none mean none. */
  function Meaning(es: seq<Entry>): seq<Finding> {
    if es == [] then []
    else
      var last := es[|es| - 1].Whole().Meant();
      Meaning(es[..|es| - 1]) + if last.Some? then [last.value] else []
  }

  function ItemTexts(es: seq<Entry>): seq<string> {
    if es == [] then [] else ItemTexts(es[..|es| - 1]) + [es[|es| - 1].Whole().Text()]
  }

  lemma {:induction false} UnwrapOfText(a: string, b: string, wraps: seq<string>)
    ensures Unwrap(a + b, wraps) == a + Unwrap(b, wraps)
  {
    if wraps != [] {
      var n := |wraps| - 1;
      UnwrapOfText(a, b, wraps[..n]);
      var last := if Blank(wraps[n]) then "" else " " + Strip(wraps[n]);
      assert (a + Unwrap(b, wraps[..n])) + last == a + (Unwrap(b, wraps[..n]) + last);
    }
  }

  lemma ItemIsUnwrapped(e: Entry)
    ensures Unwrap(e.first.Text(), e.wraps) == e.Whole().Text()
  {
    match e.first
    case Issue(_, _, message) => UnwrapOfText(e.first.Head(), message, e.wraps);
    case NoIssue(n) =>
      var head := n.indent + (n.emphasis + n.said);
      assert forall rest: string :: n.indent + (n.emphasis + (n.said + rest)) == head + rest;
      UnwrapOfText(head, n.rest, e.wraps);
  }

  lemma ItemsStep(section: seq<string>, line: string)
    ensures Items(section + [line]) == AddLine(Items(section), line)
  {
    assert (section + [line])[..|section|] == section;
  }

  lemma WrapIsRead(items: seq<string>, text: string, line: string)
    requires Bullet(line).None?
    ensures AddLine(items + [text], line) == items + [text + if Blank(line) then "" else " " + Strip(line)]
  {
    assert text + " " + Strip(line) == text + (" " + Strip(line));
    assert text + "" == text;
  }

  lemma SplitLast(a: seq<string>, b: seq<string>)
    requires b != []
    ensures a + b == a + b[..|b| - 1] + [b[|b| - 1]]
  {
  }

  lemma {:induction false} WrapsAreRead(section: seq<string>, items: seq<string>, text: string, wraps: seq<string>)
    requires Items(section) == items + [text]
    requires forall i | 0 <= i < |wraps| :: Bullet(wraps[i]).None?
    ensures Items(section + wraps) == items + [Unwrap(text, wraps)]
  {
    if wraps == [] {
      assert section + wraps == section;
    } else {
      var n := |wraps| - 1;
      WrapsAreRead(section, items, text, wraps[..n]);
      WrapIsRead(items, Unwrap(text, wraps[..n]), wraps[n]);
      ItemsStep(section + wraps[..n], wraps[n]);
      SplitLast(section, wraps);
    }
  }

  lemma {:induction false} TrailIsStripped(text: string, trail: string)
    requires Trimmed(text) && Blank(trail)
    ensures Strip(text + trail) == text
    decreases |trail|
  {
    assert LStrip(text + trail) == text + trail;
    if trail == "" {
      assert text + trail == text;
    } else {
      var n := |trail| - 1;
      TrailIsStripped(text, trail[..n]);
      assert (text + trail)[..|text + trail| - 1] == text + trail[..n];
    }
  }

  lemma BulletOfEntry(e: Entry)
    requires e.Valid()
    ensures Bullet(e.Lines()[0]) == Some(e.first.Text()) && !HeadingLine(e.Lines()[0])
    ensures forall i | 0 <= i < |e.wraps| :: Bullet(e.wraps[i]).None?
  {
    BulletIsRead(Bulleted(e.indent, e.marker, e.gap, e.first.Text() + e.trail));
    TrailIsStripped(e.first.Text(), e.trail);
    forall i | 0 <= i < |e.wraps|
      ensures Bullet(e.wraps[i]).None?
    {
      BulletForm(e.wraps[i]);
    }
  }

  lemma LineThenWraps(section: seq<string>, line: string, wraps: seq<string>)
    ensures section + ([line] + wraps) == section + [line] + wraps
  {
  }

  lemma BulletThenWraps(section: seq<string>, line: string, text: string, wraps: seq<string>)
    requires Bullet(line) == Some(text) && forall i | 0 <= i < |wraps| :: Bullet(wraps[i]).None?
    ensures Items(section + ([line] + wraps)) == Items(section) + [Unwrap(text, wraps)]
  {
    ItemsStep(section, line);
    var items := Items(section);
    assert AddLine(items, line) == items + [text];
    WrapsAreRead(section + [line], items, text, wraps);
    LineThenWraps(section, line, wraps);
  }

  lemma EntryIsRead(section: seq<string>, e: Entry)
    requires e.Valid()
    ensures Items(section + e.Lines()) == Items(section) + [e.Whole().Text()]
  {
    BulletOfEntry(e);
    BulletThenWraps(section, e.Lines()[0], e.first.Text(), e.wraps);
    ItemIsUnwrapped(e);
  }

  lemma {:induction false} EntriesAreRead(section: seq<string>, es: seq<Entry>)
    requires AllValid(es)
    ensures Items(section + Printed(es)) == Items(section) + ItemTexts(es)
  {
    if es == [] {
      assert section + [] == section && Items(section) + [] == Items(section);
    } else {
      var n := |es| - 1;
      EntriesAreRead(section, es[..n]);
      EntryIsRead(section + Printed(es[..n]), es[n]);
      Regrouped(section, Printed(es[..n]), es[n].Lines());
      Regrouped(Items(section), ItemTexts(es[..n]), [es[n].Whole().Text()]);
    }
  }

  lemma Regrouped(a: seq<string>, b: seq<string>, c: seq<string>)
    ensures a + (b + c) == a + b + c
  {
  }

  ghost predicate NoHeadings(lines: seq<string>) {
    forall i | 0 <= i < |lines| :: !HeadingLine(lines[i])
  }

  lemma NoHeadingsAppend(a: seq<string>, b: seq<string>)
    requires NoHeadings(a) && NoHeadings(b)
    ensures NoHeadings(a + b)
  {
  }

  lemma EntryHasNoHeading(e: Entry)
    requires e.Valid()
    ensures NoHeadings(e.Lines())
  {
    BulletOfEntry(e);
    NoHeadingsAppend([e.Lines()[0]], e.wraps);
  }

  lemma {:induction false} EntriesHaveNoHeading(es: seq<Entry>)
    requires AllValid(es)
    ensures NoHeadings(Printed(es))
  {
    if es != [] {
      var n := |es| - 1;
      EntriesHaveNoHeading(es[..n]);
      EntryHasNoHeading(es[n]);
      NoHeadingsAppend(Printed(es[..n]), es[n].Lines());
    }
  }

  lemma FindingsStep(items: seq<string>, item: string, finding: Option<Finding>)
    requires NoIssues(item) <==> finding.None?
    requires finding.Some? ==> FindingOf(item) == finding.value
    ensures FindingsOf(items + [item]) == FindingsOf(items) + if finding.Some? then [finding.value] else []
  {
    assert (items + [item])[..|items|] == items;
  }

  lemma EntryIsFinding(e: Entry, items: seq<string>)
    requires e.Valid()
    ensures var finding := e.Whole().Meant();
            FindingsOf(items + [e.Whole().Text()]) == FindingsOf(items) + if finding.Some? then [finding.value] else []
  {
    ItemIsRead(e.Whole());
    FindingsStep(items, e.Whole().Text(), e.Whole().Meant());
  }

  lemma {:induction false} ItemsAreFindings(es: seq<Entry>)
    requires AllValid(es)
    ensures FindingsOf(ItemTexts(es)) == Meaning(es)
  {
    if es != [] {
      var n := |es| - 1;
      ItemsAreFindings(es[..n]);
      EntryIsFinding(es[n], ItemTexts(es[..n]));
    }
  }

  /** Lines before the first bullet are not part of any item. */
  lemma {:induction false} ProseHasNoItems(lines: seq<string>)
    requires forall i | 0 <= i < |lines| :: !BulletLine(lines[i])
    ensures Items(lines) == []
  {
    if lines != [] {
      var n := |lines| - 1;
      ProseHasNoItems(lines[..n]);
      BulletForm(lines[n]);
    }
  }

  lemma {:induction false} BodyIsCut(body: seq<string>, after: seq<string>)
    requires forall i | 0 <= i < |body| :: !HeadingLine(body[i])
    requires after == [] || HeadingLine(after[0])
    ensures UntilHeading(body + after) == body
  {
    if body == [] {
      assert body + after == after;
      if after != [] {
        HeadingForm(after[0]);
      }
    } else {
      HeadingForm(body[0]);
      assert (body + after)[1..] == body[1..] + after;
      BodyIsCut(body[1..], after);
      assert [body[0]] + body[1..] == body;
    }
  }

  /** The section is what stands between the first findings heading and the next heading. */
  lemma {:induction false} SectionIsCut(before: seq<string>, heading: string, body: seq<string>, after: seq<string>)
    requires forall i | 0 <= i < |before| :: !FindingsLine(before[i])
    requires FindingsLine(heading)
    requires forall i | 0 <= i < |body| :: !HeadingLine(body[i])
    requires after == [] || HeadingLine(after[0])
    ensures Section(before + [heading] + body + after) == body
    decreases |before|
  {
    var lines := before + [heading] + body + after;
    FindingsHeadingForm(lines[0]);
    if before == [] {
      assert lines[1..] == body + after;
      BodyIsCut(body, after);
    } else {
      assert lines[1..] == before[1..] + [heading] + body + after;
      SectionIsCut(before[1..], heading, body, after);
    }
  }

  /** Without a findings heading there is no section. */
  lemma {:induction false} NoHeadingNoSection(lines: seq<string>)
    requires forall i | 0 <= i < |lines| :: !FindingsLine(lines[i])
    ensures Section(lines) == [] && FindingsOf(Items(Section(lines))) == []
  {
    if lines != [] {
      FindingsHeadingForm(lines[0]);
      NoHeadingNoSection(lines[1..]);
    }
  }

  /** A document: anything without a findings heading, the heading, prose, the entries, and
      whatever the next heading starts. */
  datatype Document = Document(before: seq<string>, heading: string, prose: seq<string>, entries: seq<Entry>, after: seq<string>)
  {
    ghost predicate Valid() {
      && (forall i | 0 <= i < |before| :: !FindingsLine(before[i]))
      && FindingsLine(heading)
      && (forall i | 0 <= i < |prose| :: !HeadingLine(prose[i]) && !BulletLine(prose[i]))
      && AllValid(entries)
      && (after == [] || HeadingLine(after[0]))
    }

    function Lines(): seq<string> {
      before + [heading] + (prose + Printed(entries)) + after
    }
  }

  /** The findings printed are the findings read back, one for each entry that has one. */
  lemma PrintedFindingsReadBack(d: Document)
    requires d.Valid()
    ensures FindingsOf(Items(Section(d.Lines()))) == Meaning(d.entries)
  {
    EntriesAreRead(d.prose, d.entries);
    EntriesHaveNoHeading(d.entries);
    SectionIsCut(d.before, d.heading, d.prose + Printed(d.entries), d.after);
    ProseHasNoItems(d.prose);
    assert [] + ItemTexts(d.entries) == ItemTexts(d.entries);
    ItemsAreFindings(d.entries);
  }

  lemma {:induction false} NothingMeansNothing(es: seq<Entry>)
    requires forall i | 0 <= i < |es| :: es[i].first.NoIssue?
    ensures Meaning(es) == []
  {
    if es != [] {
      NothingMeansNothing(es[..|es| - 1]);
    }
  }

  /** A section that says, in any number of bullets, that there are no issues has no findings. */
  lemma NoIssuesNoFindings(d: Document)
    requires d.Valid() && forall i | 0 <= i < |d.entries| :: d.entries[i].first.NoIssue?
    ensures FindingsOf(Items(Section(d.Lines()))) == []
  {
    PrintedFindingsReadBack(d);
    NothingMeansNothing(d.entries);
  }

  // ---- the form the prompt asks for ----

  /** `**[severity]** `path:line` — message` */
  function Asked(severity: string, path: string, line: nat, message: string): Item {
    var mark := Mark(Opening("**", "", "[", ""), severity, severity, Closing("", "]", "", "**", "", "", " "));
    Issue(Some(mark), Spanned([], "", "", Spot(path, "", line, None), "", " ", ['\U{2014}'], " "), message)
  }

  lemma AskedText(severity: string, path: string, line: nat, message: string)
    ensures Asked(severity, path, line, message).Text()
         == "**[" + severity + "]** " + ("`" + (path + (":" + Decimal(line))) + "`" + (" " + ['\U{2014}'] + " ")) + message
  {
    var item := Asked(severity, path, line, message);
    assert item.mark.value.Text() == "**[" + severity + "]** ";
    assert Spot(path, "", line, None).Then("") == path + (":" + Decimal(line));
    assert "" + "" + "`" == "`";
    assert item.front.Text() == "`" + (path + (":" + Decimal(line))) + "`" + (" " + ['\U{2014}'] + " ");
  }

  /** A finding in the form the prompt asks for gives back its severity, place and message. */
  lemma AskedIsRead(severity: string, path: string, line: nat, message: string)
    requires IsSeverity(severity) && IsFilePath(path) && Trimmed(message)
    ensures Asked(severity, path, line, message).Valid()
    ensures FindingOf(Asked(severity, path, line, message).Text()) == Finding(Some(severity), message, Some(Place(path, line, line)))
  {
    var item := Asked(severity, path, line, message);
    assert item.front.Text()[0] == '`';
    ItemIsRead(item);
  }

  lemma AskedHeading()
    ensures FindingsLine("### Findings")
  {
    var title := Title("", "###", " ", "Findings", "");
    assert title.Valid() && title.Line() == "### Findings";
  }

  lemma AskedNothing() returns (e: Entry)
    ensures e.Valid() && e.first.NoIssue? && e.Lines() == ["- No issues found."]
  {
    var nothing := Nothing("", "", "No issues", " found.");
    assert nothing.Text() == "No issues found.";
    e := Entry("", "-", " ", NoIssue(nothing), "", []);
    assert "" + ("-" + (" " + (nothing.Text() + ""))) == "- No issues found.";
  }

  lemma OnlyEntry(e: Entry)
    ensures Printed([e]) == e.Lines() && (AllValid([e]) <==> e.Valid())
  {
    assert [e][..0] == [];
    assert Printed([]) + e.Lines() == e.Lines();
  }

  /** A section that holds one line, "- No issues found.", has no findings. */
  lemma NoIssuesFound(before: seq<string>, after: seq<string>)
    requires forall i | 0 <= i < |before| :: !FindingsLine(before[i])
    requires after == [] || HeadingLine(after[0])
    ensures FindingsOf(Items(Section(before + ["### Findings"] + ["- No issues found."] + after))) == []
  {
    var e := AskedNothing();
    OnlyEntry(e);
    AskedHeading();
    var d := Document(before, "### Findings", [], [e], after);
    assert [] + ["- No issues found."] == ["- No issues found."];
    NoIssuesNoFindings(d);
  }
}
