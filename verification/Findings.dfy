/** The findings parser.

    The patterns are hand-written matchers over already split lines; word characters, digits and
    letter case are ASCII. */
module Findings {
  import opened Rows
  import opened Text

  datatype Place = Place(path: string, first: nat, last: nat)

  datatype Finding = Finding(severity: Option<string>, message: string, place: Option<Place>)

  const EN_DASH := '\U{2013}'
  const EM_DASH := '\U{2014}'

  // ---- matchers ----

  function Lower(c: char): char {
    if 'A' <= c <= 'Z' then (c as int - 'A' as int + 'a' as int) as char else c
  }

  /** `s` starts with the lower-case `word`, in any case. */
  predicate StartsWithWord(s: string, word: string) {
    |word| <= |s| && forall i | 0 <= i < |word| :: Lower(s[i]) == word[i]
  }

  function RStripHashes(s: string): string {
    if s != "" && s[|s| - 1] == '#' then RStripHashes(s[..|s| - 1]) else s
  }

  /** Up to `n` leading characters `c` removed. */
  function SkipUpTo(n: nat, c: char, s: string): string {
    if n > 0 && s != "" && s[0] == c then SkipUpTo(n - 1, c, s[1..]) else s
  }

  /** `^\s{0,3}#{1,6}\s*(.*?)\s*#*\s*$` matches. */
  predicate IsHeading(line: string) {
    var hashes := LStrip(line);
    |line| - |hashes| <= 3 && hashes != "" && hashes[0] == '#'
  }

  /** Its group. */
  function Heading(line: string): string {
    RStrip(RStripHashes(RStrip(LStrip(SkipUpTo(6, '#', LStrip(line))))))
  }

  predicate IsFindingsHeading(line: string) {
    IsHeading(line) && StartsWithWord(Heading(line), "findings")
  }

  /** What follows a list marker. */
  function AfterMarker(s: string): Option<string> {
    if s == "" then None
    else if s[0] in "-*+" then Some(s[1..])
    else
      var (digits, rest) := TakeDigits(s);
      if digits != "" && rest != "" && rest[0] in ".)" then Some(rest[1..]) else None
  }

  /** `^\s*(?:[-*+]|\d+[.)])\s+(.*)$`, the group stripped. */
  function Bullet(line: string): Option<string> {
    var rest := AfterMarker(LStrip(line));
    if rest.Some? && rest.value != "" && IsSpace(rest.value[0]) then Some(Strip(rest.value)) else None
  }

  /** `(?:\*\*|__)?` */
  function SkipEmphasis(s: string): string {
    if "**" <= s || "__" <= s then s[2..] else s
  }

  function SkipOne(chars: string, s: string): string {
    if s != "" && s[0] in chars then s[1..] else s
  }

  const SEPARATORS := [':', '-', EN_DASH, EM_DASH]

  function SeverityWord(s: string): Option<string> {
    if StartsWithWord(s, "blocker") then Some("blocker")
    else if StartsWithWord(s, "major") then Some("major")
    else if StartsWithWord(s, "minor") then Some("minor")
    else if StartsWithWord(s, "nit") then Some("nit")
    else None
  }

  function AfterSeverity(s: string): string {
    LStrip(SkipOne(SEPARATORS, LStrip(SkipEmphasis(LStrip(SkipOne("]", LStrip(s)))))))
  }

  datatype Rated = Rated(severity: Option<string>, rest: string)

  /** The severity at the front of an item, and what is left of the item. */
  function Severity(item: string): Rated {
    var s := LStrip(SkipOne("[", LStrip(SkipEmphasis(item))));
    var word := SeverityWord(s);
    if word.None? then Rated(None, item) else Rated(word, AfterSeverity(s[|word.value|..]))
  }

  predicate NoIssues(item: string) {
    var s := LStrip(item);
    var rest := if "**" <= s then s[2..] else s;
    StartsWithWord(rest, "no issues") || StartsWithWord(rest, "no findings")
  }

  // ---- locations ----

  predicate IsLetter(c: char) {
    'a' <= c <= 'z' || 'A' <= c <= 'Z'
  }

  predicate IsWord(c: char) {
    IsLetter(c) || IsDigit(c) || c == '_'
  }

  predicate IsPathChar(c: char) {
    IsWord(c) || c in "./@+-"
  }

  predicate AllPathChars(s: string) {
    forall i | 0 <= i < |s| :: IsPathChar(s[i])
  }

  predicate IsPlain(s: string) {
    forall i | 0 <= i < |s| :: IsLetter(s[i]) || IsDigit(s[i])
  }

  function TakePath(s: string): (r: (string, string))
    ensures s == r.0 + r.1
  {
    if s == "" || !IsPathChar(s[0]) then ("", s)
    else
      var (path, rest) := TakePath(s[1..]);
      ([s[0]] + path, rest)
  }

  /** `[\w./@+-]*[\w-]\.[A-Za-z0-9]+`: a name, a dot, and a plain extension. */
  predicate IsPath(s: string) {
    AllPathChars(s) && exists d :: 1 <= d < |s| - 1 && s[d] == '.' && (IsWord(s[d - 1]) || s[d - 1] == '-') && IsPlain(s[d + 1..])
  }

  datatype Number = Number(value: nat, rest: string)

  /** `L?(\d+)`, and what follows it. */
  function LineNumber(s: string): Option<Number> {
    var (digits, rest) := TakeDigits(SkipOne("L", s));
    if digits == "" then None else Some(Number(Value(digits), rest))
  }

  /** `\s*[-–]\s*L?(\d+)` */
  function RangeEnd(s: string): Option<nat> {
    var dash := LStrip(s);
    if dash == "" || dash[0] !in ['-', EN_DASH] || LineNumber(LStrip(dash[1..])).None? then None
    else Some(LineNumber(LStrip(dash[1..])).value.value)
  }

  function Ordered(path: string, a: nat, b: nat): Place {
    if a <= b then Place(path, a, b) else Place(path, b, a)
  }

  /** The lines after a path. */
  function LinesAt(path: string, s: string): Option<Place> {
    if s == "" || s[0] != ':' then None else
      var n := LineNumber(s[1..]);
      if n.None? then None else
      var e := RangeEnd(n.value.rest);
      Some(Ordered(path, n.value.value, if e.Some? then e.value else n.value.value))
  }

  /** A location at the very start of `s`. */
  function LocationAt(s: string): Option<Place> {
    var (path, rest) := TakePath(s);
    if IsPath(path) then LinesAt(path, rest) else None
  }

  /** The leftmost location in `s`. */
  function FindLocation(s: string): Option<Place> {
    if s == "" then None else var here := LocationAt(s); if here.Some? then here else FindLocation(s[1..])
  }

  /** A backtick span, its backticks included. */
  datatype Span = Span(start: nat, end: nat)

  /** The first backtick span that starts at or after `i`. */
  function SpanFrom(s: string, i: nat): (span: Option<Span>)
    ensures span.Some? ==> i <= span.value.start && span.value.start + 2 < span.value.end <= |s|
    decreases |s| - i
  {
    if i >= |s| then None
    else if s[i] != '`' then SpanFrom(s, i + 1)
    else
      var j := Tick(s, i + 1);
      if j == |s| then None else if j == i + 1 then SpanFrom(s, i + 1) else Some(Span(i, j + 1))
  }

  /** The next backtick at or after `i`, or the end. */
  function Tick(s: string, i: nat): (j: nat)
    requires i <= |s|
    ensures i <= j <= |s| && (j < |s| ==> s[j] == '`') && forall k | i <= k < j :: s[k] != '`'
    decreases |s| - i
  {
    if i == |s| || s[i] == '`' then i else Tick(s, i + 1)
  }

  function Within(s: string, span: Span): string
    requires span.start + 2 < span.end <= |s|
  {
    s[span.start + 1..span.end - 1]
  }

  datatype Located = Located(place: Place, span: Option<Span>)

  /** The first span at or after `i` that holds a location. */
  function LocationInSpans(s: string, i: nat): (found: Option<Located>)
    ensures found.Some? ==> found.value.span.Some? && found.value.span.value.start <= found.value.span.value.end <= |s|
    decreases |s| - i
  {
    var span := SpanFrom(s, i);
    if span.None? then None
    else
      var place := FindLocation(Within(s, span.value));
      if place.Some? then Some(Located(place.value, span)) else LocationInSpans(s, span.value.end)
  }

  function Location(s: string): (found: Option<Located>)
    ensures found.Some? && found.value.span.Some? ==> found.value.span.value.start <= found.value.span.value.end <= |s|
  {
    if LocationInSpans(s, 0).Some? then LocationInSpans(s, 0)
    else if FindLocation(s).Some? then Some(Located(FindLocation(s).value, None))
    else None
  }

  // ---- items ----

  /** `re.sub(r"^\s*[:\-–—]\s*", "", s)` */
  function DropSeparator(s: string): string {
    if LStrip(s) != "" && LStrip(s)[0] in SEPARATORS then LStrip(LStrip(s)[1..]) else s
  }

  function FindingOf(item: string): Finding {
    var Rated(severity, rest) := Severity(item);
    var found := Location(rest);
    var message :=
      if found.Some? && found.value.span.Some? && Blank(rest[..found.value.span.value.start])
      then DropSeparator(rest[found.value.span.value.end..]) else rest;
    Finding(severity, if Strip(message) != "" then Strip(message) else Strip(rest),
            if found.Some? then Some(found.value.place) else None)
  }

  function FindingsOf(items: seq<string>): seq<Finding> {
    if items == [] then []
    else
      var n := |items| - 1;
      FindingsOf(items[..n]) + if NoIssues(items[n]) then [] else [FindingOf(items[n])]
  }

  /** A bullet starts an item; any other line with text continues the last one. */
  function AddLine(items: seq<string>, line: string): seq<string> {
    if Bullet(line).Some? then items + [Bullet(line).value]
    else if !Blank(line) && items != [] then items[|items| - 1 := items[|items| - 1] + " " + Strip(line)]
    else items
  }

  function Items(section: seq<string>): seq<string> {
    if section == [] then [] else AddLine(Items(section[..|section| - 1]), section[|section| - 1])
  }

  function UntilHeading(lines: seq<string>): seq<string> {
    if lines == [] || IsHeading(lines[0]) then [] else [lines[0]] + UntilHeading(lines[1..])
  }

  /** The lines below the first findings heading, up to the next heading. */
  function Section(lines: seq<string>): seq<string> {
    if lines == [] then []
    else if IsFindingsHeading(lines[0]) then UntilHeading(lines[1..])
    else Section(lines[1..])
  }

  // ---- the loops ----

  lemma SectionNext(lines: seq<string>, i: nat)
    requires i < |lines|
    ensures Section(lines[i..]) == if IsFindingsHeading(lines[i]) then UntilHeading(lines[i + 1..]) else Section(lines[i + 1..])
  {
    assert lines[i..][1..] == lines[i + 1..];
  }

  lemma UntilNext(lines: seq<string>, j: nat)
    requires j < |lines|
    ensures UntilHeading(lines[j..]) == if IsHeading(lines[j]) then [] else [lines[j]] + UntilHeading(lines[j + 1..])
  {
    assert lines[j..][1..] == lines[j + 1..];
  }

  method FindingsSection(lines: seq<string>) returns (section: seq<string>)
    ensures section == Section(lines)
  {
    for i := 0 to |lines|
      invariant Section(lines) == Section(lines[i..])
    {
      SectionNext(lines, i);
      if IsFindingsHeading(lines[i]) {
        section := LinesBelow(lines, i + 1);
        return;
      }
    }
    section := [];
  }

  /** The inner loop: the lines from `start` up to the next heading. */
  method LinesBelow(lines: seq<string>, start: nat) returns (section: seq<string>)
    requires start <= |lines|
    ensures section == UntilHeading(lines[start..])
  {
    section := [];
    for j := start to |lines|
      invariant UntilHeading(lines[start..]) == section + UntilHeading(lines[j..])
    {
      UntilNext(lines, j);
      if IsHeading(lines[j]) {
        return;
      }
      section := section + [lines[j]];
    }
  }

  lemma ItemsNext(section: seq<string>, i: nat)
    requires i < |section|
    ensures Items(section[..i + 1]) == AddLine(Items(section[..i]), section[i])
  {
    assert section[..i + 1][..i] == section[..i];
  }

  method Bullets(section: seq<string>) returns (items: seq<string>)
    ensures items == Items(section)
  {
    items := [];
    for i := 0 to |section|
      invariant items == Items(section[..i])
    {
      ItemsNext(section, i);
      var bullet := Bullet(section[i]);
      if bullet.Some? {
        items := items + [bullet.value];
      } else if !Blank(section[i]) && items != [] {
        items := items[|items| - 1 := items[|items| - 1] + " " + Strip(section[i])];
      }
    }
    assert section[..|section|] == section;
  }

  method Locate(s: string) returns (found: Option<Located>)
    ensures found == Location(s)
  {
    ghost var at := 0;
    var span := SpanFrom(s, 0);
    while span.Some?
      invariant span == SpanFrom(s, at) && LocationInSpans(s, 0) == LocationInSpans(s, at)
      decreases |s| - at
    {
      var place := FindLocation(Within(s, span.value));
      if place.Some? {
        return Some(Located(place.value, span));
      }
      at := span.value.end;
      span := SpanFrom(s, span.value.end);
    }
    var place := FindLocation(s);
    found := if place.Some? then Some(Located(place.value, None)) else None;
  }

  method ParseFindings(lines: seq<string>) returns (findings: seq<Finding>)
    ensures findings == FindingsOf(Items(Section(lines)))
  {
    findings := [];
    var section := FindingsSection(lines);
    var items := Bullets(section);
    for i := 0 to |items|
      invariant findings == FindingsOf(items[..i])
    {
      assert items[..i + 1][..i] == items[..i];
      if NoIssues(items[i]) {
        continue;
      }
      var Rated(severity, item) := Severity(items[i]);
      var found := Locate(item);
      var message := item;
      if found.Some? && found.value.span.Some? && Blank(item[..found.value.span.value.start]) {
        message := DropSeparator(item[found.value.span.value.end..]);
      }
      findings := findings + [Finding(severity, if Strip(message) != "" then Strip(message) else Strip(item),
                                      if found.Some? then Some(found.value.place) else None)];
    }
    assert items[..|items|] == items;
  }
}
