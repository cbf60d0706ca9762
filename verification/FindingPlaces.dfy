/** Where a finding is: the texts that name a place, and the place that is found in a text. */
module FindingPlaces {
  import opened Rows
  import opened Text
  import opened Findings
  import opened FindingPatterns

  // ---- paths ----

  predicate IsPlainChar(c: char) {
    'a' <= c <= 'z' || 'A' <= c <= 'Z' || '0' <= c <= '9'
  }

  /** A character that may end a file's stem. */
  predicate IsNameChar(c: char) {
    IsPlainChar(c) || c == '_' || c == '-'
  }

  predicate IsFileChar(c: char) {
    IsNameChar(c) || c == '.' || c == '/' || c == '@' || c == '+'
  }

  /** A stem, a dot, and an extension of letters and digits. */
  datatype FilePath = FilePath(directories: string, last: char, extension: string)
  {
    predicate Valid() {
      && (forall i | 0 <= i < |directories| :: IsFileChar(directories[i])) && IsNameChar(last)
      && extension != "" && (forall i | 0 <= i < |extension| :: IsPlainChar(extension[i]))
    }

    function Text(): string {
      directories + [last] + "." + extension
    }
  }

  ghost predicate IsFilePath(s: string) {
    exists p: FilePath :: p.Valid() && p.Text() == s
  }

  lemma CharsAgree(c: char)
    ensures IsPathChar(c) <==> IsFileChar(c)
    ensures IsLetter(c) || IsDigit(c) <==> IsPlainChar(c)
    ensures IsWord(c) || c == '-' <==> IsNameChar(c)
    ensures IsFileChar(c) ==> c != ':' && c != '`' && !IsSpace(c)
  {
  }

  lemma FilePathIsRead(p: FilePath)
    requires p.Valid()
    ensures IsPath(p.Text())
  {
    var s := p.Text();
    var d := |p.directories| + 1;
    assert s[d] == '.' && s[d - 1] == p.last && s[d + 1..] == p.extension;
    assert AllPathChars(s) by {
      forall i | 0 <= i < |s|
        ensures IsPathChar(s[i])
      {
        CharsAgree(s[i]);
        if i < |p.directories| {
          assert s[i] == p.directories[i];
        } else if i > d {
          assert s[i] == p.extension[i - d - 1];
        }
      }
    }
    assert IsPlain(p.extension);
    CharsAgree(p.last);
  }

  lemma CharsOfPath(s: string)
    requires AllPathChars(s)
    ensures forall i | 0 <= i < |s| :: IsFileChar(s[i])
  {
    forall i | 0 <= i < |s|
      ensures IsFileChar(s[i])
    {
      CharsAgree(s[i]);
    }
  }

  lemma AroundDot(s: string, d: nat)
    requires 1 <= d < |s| && s[d] == '.'
    ensures s[..d - 1] + [s[d - 1]] + "." + s[d + 1..] == s
  {
  }

  lemma DotOf(s: string) returns (d: nat)
    requires IsPath(s)
    ensures 1 <= d < |s| - 1 && s[d] == '.' && IsNameChar(s[d - 1]) && IsPlain(s[d + 1..])
  {
    d :| 1 <= d < |s| - 1 && s[d] == '.' && (IsWord(s[d - 1]) || s[d - 1] == '-') && IsPlain(s[d + 1..]);
  }

  lemma PathHasForm(s: string) returns (p: FilePath)
    requires IsPath(s)
    ensures p.Valid() && p.Text() == s
  {
    var d := DotOf(s);
    CharsOfPath(s);
    AroundDot(s, d);
    p := FilePath(s[..d - 1], s[d - 1], s[d + 1..]);
  }

  lemma PathForm(s: string)
    ensures IsPath(s) <==> IsFilePath(s)
  {
    if IsPath(s) {
      var p := PathHasForm(s);
    }
    if IsFilePath(s) {
      var p: FilePath :| p.Valid() && p.Text() == s;
      FilePathIsRead(p);
    }
  }

  lemma {:induction false} TakePathOf(path: string, rest: string)
    requires AllPathChars(path) && (rest == "" || !IsPathChar(rest[0]))
    ensures TakePath(path + rest) == (path, rest)
  {
    if path == "" {
      assert path + rest == rest;
    } else {
      assert (path + rest)[1..] == path[1..] + rest;
      TakePathOf(path[1..], rest);
      assert [path[0]] + path[1..] == path;
    }
  }

  // ---- whether a text names a place ----

  /** A path, a colon and a digit, with at most an L between them. */
  datatype Naming = Naming(before: string, path: string, l: string, digit: char, after: string)
  {
    ghost predicate Valid() {
      IsFilePath(path) && (l == "" || l == "L") && '0' <= digit <= '9'
    }

    function Text(): string {
      before + (path + (":" + (l + ([digit] + after))))
    }
  }

  ghost predicate Names(s: string) {
    exists n: Naming :: n.Valid() && n.Text() == s
  }

  lemma NumberIsThere(l: string, digit: char, after: string)
    requires (l == "" || l == "L") && '0' <= digit <= '9'
    ensures LineNumber(l + ([digit] + after)).Some?
  {
    var s := [digit] + after;
    assert SkipOne("L", l + s) == s;
  }

  lemma PlaceIsThere(path: string, l: string, digit: char, after: string)
    requires IsFilePath(path) && (l == "" || l == "L") && '0' <= digit <= '9'
    ensures LocationAt(path + (":" + (l + ([digit] + after)))).Some?
  {
    PathForm(path);
    var number := l + ([digit] + after);
    var rest := ":" + number;
    TakePathOf(path, rest);
    assert rest[1..] == number;
    NumberIsThere(l, digit, after);
  }

  lemma {:induction false} NamedPlaceIsFound(before: string, text: string)
    requires LocationAt(text).Some?
    ensures FindLocation(before + text).Some?
  {
    if before == "" {
      assert before + text == text;
    } else {
      assert (before + text)[1..] == before[1..] + text;
      NamedPlaceIsFound(before[1..], text);
    }
  }

  lemma NumberHasForm(s: string) returns (l: string, digit: char, after: string)
    requires LineNumber(s).Some?
    ensures (l == "" || l == "L") && '0' <= digit <= '9' && l + ([digit] + after) == s
  {
    var t := SkipOne("L", s);
    l := if t == s then "" else "L";
    digit, after := t[0], t[1..];
    assert IsDigit(TakeDigits(t).0[0]);
  }

  lemma LocationHasForm(s: string) returns (n: Naming)
    requires LocationAt(s).Some?
    ensures n.Valid() && n.Text() == s
  {
    var (path, rest) := TakePath(s);
    var l, digit, after := NumberHasForm(rest[1..]);
    PathForm(path);
    n := Naming("", path, l, digit, after);
    assert ":" + rest[1..] == rest;
  }

  lemma {:induction false} FoundPlaceIsNamed(s: string) returns (n: Naming)
    requires FindLocation(s).Some?
    ensures n.Valid() && n.Text() == s
  {
    if LocationAt(s).Some? {
      n := LocationHasForm(s);
    } else {
      n := FoundPlaceIsNamed(s[1..]);
      n := n.(before := [s[0]] + n.before);
    }
  }

  lemma PlaceForm(s: string)
    ensures FindLocation(s).Some? <==> Names(s)
  {
    if FindLocation(s).Some? {
      var n := FoundPlaceIsNamed(s);
    }
    if Names(s) {
      var n: Naming :| n.Valid() && n.Text() == s;
      PlaceIsThere(n.path, n.l, n.digit, n.after);
      NamedPlaceIsFound(n.before, n.path + (":" + (n.l + ([n.digit] + n.after))));
    }
  }

  lemma PartNames(a: string, part: string, b: string)
    requires Names(part)
    ensures Names(a + part + b)
  {
    var n: Naming :| n.Valid() && n.Text() == part;
    var m := n.(before := a + n.before, after := n.after + b);
    assert m.Text() == a + part + b;
  }

  lemma SpanNames(s: string, span: Span)
    requires span.start + 2 < span.end <= |s| && Names(Within(s, span))
    ensures Names(s)
  {
    PartNames(s[..span.start + 1], Within(s, span), s[span.end - 1..]);
    assert s[..span.start + 1] + Within(s, span) + s[span.end - 1..] == s;
  }

  lemma {:induction false} SpannedPlaceIsNamed(s: string, i: nat) returns (span: Span)
    requires LocationInSpans(s, i).Some?
    ensures span.start + 2 < span.end <= |s| && FindLocation(Within(s, span)).Some?
    decreases |s| - i
  {
    span := SpanFrom(s, i).value;
    if FindLocation(Within(s, span)).None? {
      span := SpannedPlaceIsNamed(s, span.end);
    }
  }

  /** An item has a place if and only if it names one anywhere. */
  lemma LocationForm(s: string)
    ensures Location(s).Some? <==> Names(s)
  {
    PlaceForm(s);
    if LocationInSpans(s, 0).Some? {
      var span := SpannedPlaceIsNamed(s, 0);
      PlaceForm(Within(s, span));
      SpanNames(s, span);
    }
  }

  // ---- which place ----

  /** The second line of a range, with the dash before it. */
  datatype RangeText = RangeText(a: string, dash: char, b: string, l: string, line: nat)
  {
    predicate Valid() {
      Blank(a) && (dash == '-' || dash == '\U{2013}') && Blank(b) && (l == "" || l == "L")
    }

    function Text(): string {
      a + ([dash] + (b + (l + Decimal(line))))
    }
  }

  /** A place as a text: its lines in either order. */
  datatype Spot = Spot(path: string, l: string, line: nat, range: Option<RangeText>)
  {
    ghost predicate Valid() {
      IsFilePath(path) && (l == "" || l == "L") && (range.Some? ==> range.value.Valid())
    }

    function Numbers(after: string): string {
      l + (Decimal(line) + if range.None? then after else range.value.Text() + after)
    }

    function Then(after: string): string {
      path + (":" + Numbers(after))
    }

    /** The place it names. */
    function Named(): Place {
      if range.None? then Place(path, line, line)
      else if range.value.line < line then Place(path, range.value.line, line)
      else Place(path, line, range.value.line)
    }

    /** `after` does not make its numbers longer or begin a range. */
    predicate Ends(after: string) {
      && (after == "" || !IsDigit(after[0]))
      && (range.None? ==> LStrip(after) == "" || (LStrip(after)[0] != '-' && LStrip(after)[0] != '\U{2013}'))
    }
  }

  lemma LineNumberIsRead(l: string, n: nat, rest: string)
    requires (l == "" || l == "L") && (rest == "" || !IsDigit(rest[0]))
    ensures LineNumber(l + (Decimal(n) + rest)) == Some(Number(n, rest))
  {
    assert (Decimal(n) + rest)[0] == Decimal(n)[0];
    assert SkipOne("L", l + (Decimal(n) + rest)) == Decimal(n) + rest;
    TakeDigitsOf(Decimal(n), rest);
    DecimalValue(n);
  }

  lemma RangeIsRead(r: RangeText, after: string)
    requires r.Valid() && (after == "" || !IsDigit(after[0]))
    ensures RangeEnd(r.Text() + after) == Some(r.line)
    ensures r.Text() + after != "" && !IsDigit((r.Text() + after)[0])
  {
    var number := r.l + (Decimal(r.line) + after);
    assert number[0] == if r.l == "L" then 'L' else Decimal(r.line)[0];
    var dashed := [r.dash] + (r.b + number);
    assert r.Text() + after == r.a + dashed;
    LStripSkips(r.a, dashed);
    assert dashed[1..] == r.b + number;
    LStripSkips(r.b, number);
    LineNumberIsRead(r.l, r.line, after);
  }

  lemma NumbersAreRead(spot: Spot, after: string)
    requires spot.Valid() && spot.Ends(after)
    ensures LineNumber(spot.Numbers(after)).Some? && LineNumber(spot.Numbers(after)).value.value == spot.line
    ensures RangeEnd(LineNumber(spot.Numbers(after)).value.rest) == if spot.range.None? then None else Some(spot.range.value.line)
  {
    if spot.range.Some? {
      RangeIsRead(spot.range.value, after);
      LineNumberIsRead(spot.l, spot.line, spot.range.value.Text() + after);
    } else {
      LineNumberIsRead(spot.l, spot.line, after);
    }
  }

  lemma LinesAreRead(spot: Spot, after: string)
    requires spot.Valid() && spot.Ends(after)
    ensures LinesAt(spot.path, ":" + spot.Numbers(after)) == Some(spot.Named())
  {
    NumbersAreRead(spot, after);
    assert (":" + spot.Numbers(after))[1..] == spot.Numbers(after);
  }

  lemma PathIsTaken(path: string, numbers: string)
    requires IsFilePath(path)
    ensures TakePath(path + (":" + numbers)) == (path, ":" + numbers) && IsPath(path)
  {
    PathForm(path);
    TakePathOf(path, ":" + numbers);
  }

  lemma SpotIsRead(spot: Spot, after: string)
    requires spot.Valid() && spot.Ends(after)
    ensures LocationAt(spot.Then(after)) == Some(spot.Named())
  {
    PathIsTaken(spot.path, spot.Numbers(after));
    LinesAreRead(spot, after);
  }

  /** A text without colons that does not run into the path after it. */
  predicate Leads(before: string) {
    ':' !in before && (before == "" || !IsFileChar(before[|before| - 1]))
  }

  lemma {:induction false} PathStopsBefore(before: string, text: string)
    requires before != "" && !IsPathChar(before[|before| - 1])
    ensures var (path, rest) := TakePath(before + text); rest != "" && rest[0] in before
  {
    if IsPathChar(before[0]) {
      assert (before + text)[1..] == before[1..] + text;
      PathStopsBefore(before[1..], text);
    }
  }

  lemma NothingInLead(before: string, text: string)
    requires Leads(before) && before != ""
    ensures LocationAt(before + text).None?
  {
    CharsAgree(before[|before| - 1]);
    PathStopsBefore(before, text);
  }

  lemma FindStep(s: string, tail: string, found: Option<Place>)
    requires s != "" && s[1..] == tail && LocationAt(s).None? && FindLocation(tail) == found
    ensures FindLocation(s) == found
  {
  }

  lemma FindHere(s: string, found: Option<Place>)
    requires LocationAt(s) == found && found.Some?
    ensures FindLocation(s) == found
  {
  }

  lemma LeadsOn(before: string, text: string)
    requires Leads(before) && before != ""
    ensures Leads(before[1..]) && before + text != "" && (before + text)[1..] == before[1..] + text
  {
  }

  lemma {:induction false} LeadIsPassed(before: string, text: string, found: Option<Place>)
    requires Leads(before) && LocationAt(text) == found && found.Some?
    ensures FindLocation(before + text) == found
  {
    if before == "" {
      assert before + text == text;
      FindHere(text, found);
    } else {
      LeadsOn(before, text);
      NothingInLead(before, text);
      LeadIsPassed(before[1..], text, found);
      FindStep(before + text, before[1..] + text, found);
    }
  }

  lemma SpotIsFound(before: string, spot: Spot, after: string)
    requires Leads(before) && spot.Valid() && spot.Ends(after)
    ensures FindLocation(before + spot.Then(after)) == Some(spot.Named())
  {
    SpotIsRead(spot, after);
    LeadIsPassed(before, spot.Then(after), Some(spot.Named()));
  }

  // ---- backtick spans ----

  lemma {:induction false} TickIsThere(s: string, i: nat, j: nat)
    requires i <= j < |s| && s[j] == '`' && forall k | i <= k < j :: s[k] != '`'
    ensures Tick(s, i) == j
    decreases j - i
  {
    if i < j {
      TickIsThere(s, i + 1, j);
    }
  }

  lemma {:induction false} SpanIsThere(s: string, i: nat, j: nat)
    requires i <= j < |s| && s[j] == '`' && forall m | i <= m < j && s[m] == '`' :: s[m + 1] == '`'
    ensures SpanFrom(s, i) == SpanFrom(s, j)
    decreases j - i
  {
    if i < j {
      SpanIsThere(s, i + 1, j);
    }
  }

  lemma {:induction false} NoTickNoSpan(s: string, i: nat)
    requires '`' !in s
    ensures SpanFrom(s, i).None?
    decreases |s| - i
  {
    if i < |s| {
      NoTickNoSpan(s, i + 1);
    }
  }

  /** No backtick of `s`, but perhaps its last character, is without another right after it. */
  predicate Doubled(s: string) {
    forall m | 0 <= m < |s| - 1 && s[m] == '`' :: s[m + 1] == '`'
  }

  /** From `i` on, the first backticks of `s` with something between them are at `j` and `k`. */
  predicate Ticks(s: string, i: nat, j: nat, k: nat) {
    && i <= j && j + 1 < k < |s| && s[j] == s[k] == '`'
    && (forall m | i <= m < j && s[m] == '`' :: s[m + 1] == '`') && (forall m | j < m < k :: s[m] != '`')
  }

  lemma TicksAreThere(s: string, before: string, lead: string, inside: string, rest: string)
    requires s == before + lead + "`" + inside + "`" + rest
    requires Doubled(lead) && '`' !in inside && inside != ""
    ensures var j := |before| + |lead|; var k := j + 1 + |inside|;
            Ticks(s, |before|, j, k) && s[j + 1..k] == inside
  {
    var i, j := |before|, |before| + |lead|;
    assert forall m | i <= m < j :: s[m] == lead[m - i];
    assert forall m | j < m < j + 1 + |inside| :: s[m] == inside[m - j - 1];
  }

  lemma SpanAt(s: string, i: nat, j: nat, k: nat)
    requires Ticks(s, i, j, k)
    ensures SpanFrom(s, i) == Some(Span(j, k + 1)) && Within(s, Span(j, k + 1)) == s[j + 1..k]
  {
    SpanIsThere(s, i, j);
    TickIsThere(s, j + 1, k);
  }

  lemma SpanTaken(s: string, i: nat, span: Span, inside: string, place: Place)
    requires SpanFrom(s, i) == Some(span) && Within(s, span) == inside && FindLocation(inside) == Some(place)
    ensures LocationInSpans(s, i) == Some(Located(place, Some(span)))
  {
  }

  lemma SpanPassed(s: string, i: nat, span: Span, inside: string, found: Option<Located>)
    requires SpanFrom(s, i) == Some(span) && Within(s, span) == inside && FindLocation(inside).None?
    requires LocationInSpans(s, span.end) == found
    ensures LocationInSpans(s, i) == found
  {
  }

  /** A span that names a place. */
  lemma SpanIsTaken(s: string, i: nat, j: nat, k: nat, inside: string, place: Place)
    requires Ticks(s, i, j, k) && s[j + 1..k] == inside && FindLocation(inside) == Some(place)
    ensures LocationInSpans(s, i) == Some(Located(place, Some(Span(j, k + 1))))
  {
    SpanAt(s, i, j, k);
    SpanTaken(s, i, Span(j, k + 1), inside, place);
  }

  lemma NamelessIsNowhere(inside: string)
    requires !Names(inside)
    ensures FindLocation(inside) == None
  {
    PlaceForm(inside);
  }

  /** A span that names none is passed over. */
  lemma SpanIsPassed(s: string, i: nat, j: nat, k: nat, inside: string, found: Option<Located>)
    requires Ticks(s, i, j, k) && s[j + 1..k] == inside && FindLocation(inside) == None
    requires LocationInSpans(s, k + 1) == found
    ensures LocationInSpans(s, i) == found
  {
    assert SpanFrom(s, i) == Some(Span(j, k + 1)) && Within(s, Span(j, k + 1)) == inside by {
      SpanAt(s, i, j, k);
    }
    SpanPassed(s, i, Span(j, k + 1), inside, found);
  }

  /** A place outside of spans counts when there are no spans. */
  lemma LoosePlaceIsFound(s: string, place: Place)
    requires '`' !in s && FindLocation(s) == Some(place)
    ensures Location(s) == Some(Located(place, None))
  {
    NoTickNoSpan(s, 0);
  }

  // ---- a text that leads up to a span ----

  /** Text with backtick spans that name no place. */
  datatype Passed = Passed(lead: string, inside: string)
  {
    ghost predicate Valid() {
      Doubled(lead) && '`' !in inside && inside != "" && !Names(inside)
    }

    function Text(): string {
      lead + "`" + inside + "`"
    }
  }

  ghost predicate AllPassed(ps: seq<Passed>) {
    ps == [] || (AllPassed(ps[..|ps| - 1]) && ps[|ps| - 1].Valid())
  }

  function PassedText(ps: seq<Passed>): string {
    if ps == [] then "" else PassedText(ps[..|ps| - 1]) + ps[|ps| - 1].Text()
  }

  lemma PassedTicks(s: string, before: string, p: Passed)
    requires p.Valid() && before + p.Text() <= s
    ensures var i, j, k := |before|, |before| + |p.lead|, |before + p.Text()| - 1;
            before <= s && Ticks(s, i, j, k) && s[j + 1..k] == p.inside
  {
    var rest := s[|before + p.Text()|..];
    assert s == before + p.lead + "`" + p.inside + "`" + rest;
    TicksAreThere(s, before, p.lead, p.inside, rest);
  }

  lemma LastIsPassed(s: string, before: string, p: Passed, i: nat, next: nat, found: Option<Located>)
    requires p.Valid() && before + p.Text() <= s && i == |before| && next == |before + p.Text()|
    requires LocationInSpans(s, next) == found
    ensures LocationInSpans(s, i) == found
  {
    var j := i + |p.lead|;
    assert Ticks(s, i, j, next - 1) && s[j + 1..next - 1] == p.inside by {
      PassedTicks(s, before, p);
    }
    assert FindLocation(p.inside) == None by {
      NamelessIsNowhere(p.inside);
    }
    SpanIsPassed(s, i, j, next - 1, p.inside, found);
  }

  lemma {:induction false} SpansArePassed(s: string, ps: seq<Passed>, found: Option<Located>)
    requires PassedText(ps) <= s && AllPassed(ps)
    requires LocationInSpans(s, |PassedText(ps)|) == found
    ensures LocationInSpans(s, 0) == found
    decreases |ps|
  {
    if ps != [] {
      var n := |ps| - 1;
      LastIsPassed(s, PassedText(ps[..n]), ps[n], |PassedText(ps[..n])|, |PassedText(ps)|, found);
      SpansArePassed(s, ps[..n], found);
    }
  }

  lemma SpansComeFirst(s: string, ps: seq<Passed>, i: nat, found: Located)
    requires PassedText(ps) <= s && i == |PassedText(ps)| && AllPassed(ps)
    requires LocationInSpans(s, i) == Some(found)
    ensures Location(s) == Some(found)
  {
    SpansArePassed(s, ps, Some(found));
  }

  /** The place is the one in the first backtick span that names any, wherever else one is named. */
  lemma SpannedPlaceIsFound(s: string, ps: seq<Passed>, before: string, j: nat, k: nat, inside: string, place: Place)
    requires AllPassed(ps) && before == PassedText(ps) && before <= s
    requires Ticks(s, |before|, j, k) && s[j + 1..k] == inside && FindLocation(inside) == Some(place)
    ensures Location(s) == Some(Located(place, Some(Span(j, k + 1))))
  {
    SpanIsTaken(s, |before|, j, k, inside, place);
    SpansComeFirst(s, ps, |before|, Located(place, Some(Span(j, k + 1))));
  }
}
