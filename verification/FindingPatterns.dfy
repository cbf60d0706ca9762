/** The parser's patterns, each as the texts it accepts.

    The matchers of `Findings` consume a text piece by piece; here a text is put together from its
    pieces, with no reference to the matchers, and each lemma says that the two agree. */
module FindingPatterns {
  import opened Rows
  import opened Text
  import opened Findings

  // ---- words in any letter case ----

  function Capital(c: char): char {
    if 'a' <= c <= 'z' then (c as int - 32) as char else c
  }

  /** `said` is the lower-case `word` in any letter case. */
  predicate Reads(said: string, word: string) {
    |said| == |word| && forall i | 0 <= i < |word| :: said[i] == word[i] || said[i] == Capital(word[i])
  }

  lemma LetterIsRead(c: char, w: char)
    requires !('A' <= w <= 'Z')
    ensures Lower(c) == w <==> c == w || c == Capital(w)
  {
  }

  lemma WordIsRead(s: string, word: string)
    requires forall i | 0 <= i < |word| :: !('A' <= word[i] <= 'Z')
    ensures StartsWithWord(s, word) <==> |word| <= |s| && Reads(s[..|word|], word)
  {
    if |word| <= |s| {
      forall i | 0 <= i < |word|
        ensures Lower(s[i]) == word[i] <==> s[..|word|][i] == word[i] || s[..|word|][i] == Capital(word[i])
      {
        LetterIsRead(s[i], word[i]);
      }
    }
  }

  lemma SaidIsRead(said: string, word: string, rest: string)
    requires forall i | 0 <= i < |word| :: !('A' <= word[i] <= 'Z')
    requires Reads(said, word)
    ensures StartsWithWord(said + rest, word)
  {
    assert (said + rest)[..|word|] == said;
    WordIsRead(said + rest, word);
  }

  // ---- stripping ----

  /** The blanks `LStrip` takes off. */
  function Indent(s: string): string {
    if s != "" && IsSpace(s[0]) then [s[0]] + Indent(s[1..]) else ""
  }

  lemma {:induction false} IndentIsBlank(s: string)
    ensures Blank(Indent(s)) && Indent(s) + LStrip(s) == s && (LStrip(s) == "" || !IsSpace(LStrip(s)[0]))
  {
    if s != "" && IsSpace(s[0]) {
      IndentIsBlank(s[1..]);
      assert [s[0]] + (Indent(s[1..]) + LStrip(s[1..])) == s;
    }
  }

  lemma {:induction false} LStripOver(space: string, text: string)
    requires Blank(space)
    ensures LStrip(space + text) == LStrip(text)
  {
    if space == "" {
      assert space + text == text;
    } else {
      assert (space + text)[1..] == space[1..] + text;
      LStripOver(space[1..], text);
    }
  }

  lemma {:induction false} RStripIsPrefix(s: string)
    ensures RStrip(s) <= s && RStripHashes(s) <= s
    decreases |s|
  {
    if s != "" {
      RStripIsPrefix(s[..|s| - 1]);
    }
  }

  lemma {:induction false} RStripKeepsPrefix(a: string, b: string)
    requires a != "" && !IsSpace(a[|a| - 1]) && a[|a| - 1] != '#'
    ensures a <= RStrip(a + b) && a <= RStripHashes(a + b)
    decreases |b|
  {
    if b != "" {
      assert (a + b)[..|a + b| - 1] == a + b[..|b| - 1];
      RStripKeepsPrefix(a, b[..|b| - 1]);
    }
  }

  // ---- headings ----

  /** Up to three blanks, then a `#`. */
  predicate HeadingLine(line: string) {
    exists k | 0 <= k < |line| && k <= 3 :: line[k] == '#' && Blank(line[..k])
  }

  lemma IndentOf(line: string, j: nat)
    requires j < |line| && !IsSpace(line[j]) && Blank(line[..j])
    ensures LStrip(line) == line[j..]
  {
    assert line[..j] + line[j..] == line;
    LStripSkips(line[..j], line[j..]);
  }

  lemma StartOf(line: string) returns (k: nat)
    requires LStrip(line) != ""
    ensures k == |line| - |LStrip(line)| && Blank(line[..k]) && LStrip(line) == line[k..]
  {
    IndentIsBlank(line);
    k := |Indent(line)|;
    assert Indent(line) == line[..k];
  }

  lemma HeadingForm(line: string)
    ensures IsHeading(line) <==> HeadingLine(line)
  {
    if HeadingLine(line) {
      var j :| 0 <= j < |line| && j <= 3 && line[j] == '#' && Blank(line[..j]);
      IndentOf(line, j);
    }
    if IsHeading(line) {
      var k := StartOf(line);
      assert line[k] == '#';
    }
  }

  /** A heading whose title starts with "findings". */
  datatype Title = Title(indent: string, hashes: string, gap: string, said: string, rest: string)
  {
    predicate Valid() {
      && Blank(indent) && |indent| <= 3
      && 1 <= |hashes| <= 6 && (forall i | 0 <= i < |hashes| :: hashes[i] == '#')
      && Blank(gap) && Reads(said, "findings")
    }

    function Line(): string {
      indent + (hashes + (gap + (said + rest)))
    }
  }

  ghost predicate FindingsLine(line: string) {
    exists t: Title :: t.Valid() && t.Line() == line
  }

  lemma {:induction false} HashesAreSkipped(n: nat, hashes: string, rest: string)
    requires |hashes| <= n && (forall i | 0 <= i < |hashes| :: hashes[i] == '#')
    requires rest == "" || rest[0] != '#'
    ensures SkipUpTo(n, '#', hashes + rest) == rest
  {
    if hashes == "" {
      assert hashes + rest == rest;
    } else {
      assert (hashes + rest)[1..] == hashes[1..] + rest;
      HashesAreSkipped(n - 1, hashes[1..], rest);
    }
  }

  lemma {:induction false} SkippedAreHashes(n: nat, s: string) returns (hashes: string)
    ensures hashes + SkipUpTo(n, '#', s) == s && |hashes| <= n
    ensures forall i | 0 <= i < |hashes| :: hashes[i] == '#'
    ensures n > 0 && s != "" && s[0] == '#' ==> hashes != ""
  {
    if n > 0 && s != "" && s[0] == '#' {
      var more := SkippedAreHashes(n - 1, s[1..]);
      hashes := [s[0]] + more;
      assert hashes + SkipUpTo(n, '#', s) == [s[0]] + (more + SkipUpTo(n - 1, '#', s[1..]));
    } else {
      hashes := "";
      assert "" + s == s;
    }
  }

  /** What `Heading` keeps of the text after the hashes and blanks. */
  function TitleOf(text: string): string {
    RStrip(RStripHashes(RStrip(text)))
  }

  lemma TitleKeepsWord(said: string, rest: string)
    requires said != "" && !IsSpace(said[|said| - 1]) && said[|said| - 1] != '#'
    ensures said <= TitleOf(said + rest)
  {
    RStripKeepsPrefix(said, rest);
    var r1 := RStrip(said + rest);
    assert r1 == said + r1[|said|..];
    RStripKeepsPrefix(said, r1[|said|..]);
    var r2 := RStripHashes(r1);
    assert r2 == said + r2[|said|..];
    RStripKeepsPrefix(said, r2[|said|..]);
  }

  lemma TitleIsPrefix(text: string)
    ensures TitleOf(text) <= text
  {
    RStripIsPrefix(text);
    RStripIsPrefix(RStrip(text));
    RStripIsPrefix(RStripHashes(RStrip(text)));
  }

  lemma TitleIsRead(t: Title)
    requires t.Valid()
    ensures IsFindingsHeading(t.Line())
  {
    var text := t.said + t.rest;
    LStripSkips(t.indent, t.hashes + (t.gap + text));
    assert t.gap + text != "" && (t.gap + text)[0] != '#';
    HashesAreSkipped(6, t.hashes, t.gap + text);
    LStripSkips(t.gap, text);
    TitleKeepsWord(t.said, t.rest);
    var title := TitleOf(text);
    assert IsHeading(t.Line()) && Heading(t.Line()) == title;
    assert title == t.said + title[|t.said|..];
    SaidIsRead(t.said, "findings", title[|t.said|..]);
  }

  lemma TitleHasWord(text: string) returns (said: string)
    requires StartsWithWord(TitleOf(text), "findings")
    ensures Reads(said, "findings") && said <= text
  {
    TitleIsPrefix(text);
    WordIsRead(TitleOf(text), "findings");
    said := TitleOf(text)[..|"findings"|];
  }

  lemma HashesThenText(s: string) returns (t: Title)
    requires s != "" && s[0] == '#' && StartsWithWord(TitleOf(LStrip(SkipUpTo(6, '#', s))), "findings")
    ensures t.Valid() && t.indent == "" && t.hashes + (t.gap + (t.said + t.rest)) == s
  {
    var hashes := SkippedAreHashes(6, s);
    var after := SkipUpTo(6, '#', s);
    IndentIsBlank(after);
    var said := TitleHasWord(LStrip(after));
    t := Title("", hashes, Indent(after), said, LStrip(after)[|said|..]);
    assert t.said + t.rest == LStrip(after);
  }

  lemma FindingsHeadingIsTitle(line: string) returns (t: Title)
    requires IsFindingsHeading(line)
    ensures t.Valid() && t.Line() == line
  {
    IndentIsBlank(line);
    t := HashesThenText(LStrip(line));
    t := t.(indent := Indent(line));
  }

  lemma FindingsHeadingForm(line: string)
    ensures IsFindingsHeading(line) <==> FindingsLine(line)
  {
    if IsFindingsHeading(line) {
      var t := FindingsHeadingIsTitle(line);
    }
    if FindingsLine(line) {
      var t: Title :| t.Valid() && t.Line() == line;
      TitleIsRead(t);
    }
  }

  // ---- bullets ----

  /** A list item of one line. */
  datatype Bulleted = Bulleted(indent: string, marker: string, gap: string, text: string)
  {
    predicate Valid() {
      Blank(indent) && IsMarker(marker) && gap != "" && Blank(gap)
    }

    function Line(): string {
      indent + (marker + (gap + text))
    }
  }

  /** A dash, star or plus, or a number with a dot or a parenthesis. */
  predicate IsMarker(s: string) {
    || s == "-" || s == "*" || s == "+"
    || (|s| >= 2 && AllDigits(s[..|s| - 1]) && (s[|s| - 1] == '.' || s[|s| - 1] == ')'))
  }

  ghost predicate BulletLine(line: string) {
    exists b: Bulleted :: b.Valid() && b.Line() == line
  }

  lemma MarkerIsSkipped(marker: string, rest: string)
    requires IsMarker(marker)
    ensures AfterMarker(marker + rest) == Some(rest)
    ensures !IsSpace(marker[0]) && marker[0] != '#'
  {
    if marker == "-" || marker == "*" || marker == "+" {
      assert (marker + rest)[1..] == rest;
    } else {
      var n := |marker| - 1;
      assert marker == marker[..n] + [marker[n]];
      assert marker + rest == marker[..n] + ([marker[n]] + rest);
      TakeDigitsOf(marker[..n], [marker[n]] + rest);
      assert IsDigit(marker[..n][0]);
    }
  }

  lemma SkippedIsMarker(s: string)
    requires AfterMarker(s).Some?
    ensures |AfterMarker(s).value| <= |s| && IsMarker(s[..|s| - |AfterMarker(s).value|])
    ensures s == s[..|s| - |AfterMarker(s).value|] + AfterMarker(s).value
  {
    if s[0] !in "-*+" {
      var (digits, rest) := TakeDigits(s);
      var marker := digits + [rest[0]];
      assert s == marker + rest[1..];
      assert marker[..|marker| - 1] == digits;
    }
  }

  lemma BulletIsRead(b: Bulleted)
    requires b.Valid()
    ensures Bullet(b.Line()) == Some(Strip(b.text))
    ensures !HeadingLine(b.Line())
  {
    MarkerIsSkipped(b.marker, b.gap + b.text);
    LStripSkips(b.indent, b.marker + (b.gap + b.text));
    LStripOver(b.gap, b.text);
    HeadingForm(b.Line());
  }

  lemma BulletHasForm(line: string) returns (b: Bulleted)
    requires Bullet(line).Some?
    ensures b.Valid() && b.Line() == line && Bullet(line) == Some(Strip(b.text))
  {
    IndentIsBlank(line);
    var s := LStrip(line);
    SkippedIsMarker(s);
    var rest := AfterMarker(s).value;
    b := Bulleted(Indent(line), s[..|s| - |rest|], [rest[0]], rest[1..]);
    assert [rest[0]] + rest[1..] == rest;
    BulletIsRead(b);
  }

  lemma BulletForm(line: string)
    ensures Bullet(line).Some? <==> BulletLine(line)
  {
    if Bullet(line).Some? {
      var b := BulletHasForm(line);
    }
    if BulletLine(line) {
      var b: Bulleted :| b.Valid() && b.Line() == line;
      BulletIsRead(b);
    }
  }

  // ---- "no issues" ----

  /** "no issues" or "no findings", bold or not, in any letter case, with anything after it. */
  datatype Nothing = Nothing(indent: string, emphasis: string, said: string, rest: string)
  {
    predicate Valid() {
      Blank(indent) && (emphasis == "" || emphasis == "**") && (Reads(said, "no issues") || Reads(said, "no findings"))
    }

    function Text(): string {
      indent + (emphasis + (said + rest))
    }
  }

  ghost predicate SaysNone(item: string) {
    exists n: Nothing :: n.Valid() && n.Text() == item
  }

  lemma WordOfNoneIsRead(said: string, rest: string)
    requires Reads(said, "no issues") || Reads(said, "no findings")
    ensures StartsWithWord(said + rest, "no issues") || StartsWithWord(said + rest, "no findings")
    ensures said != "" && said[0] in "nN"
  {
    if Reads(said, "no issues") {
      SaidIsRead(said, "no issues", rest);
    } else {
      SaidIsRead(said, "no findings", rest);
    }
  }

  lemma NoneIsRead(n: Nothing)
    requires n.Valid()
    ensures NoIssues(n.Text())
  {
    var text := n.said + n.rest;
    WordOfNoneIsRead(n.said, n.rest);
    assert ("**" + text)[2..] == text;
    assert "" + text == text;
    LStripSkips(n.indent, n.emphasis + text);
  }

  lemma NoneHasWord(rest: string) returns (said: string)
    requires StartsWithWord(rest, "no issues") || StartsWithWord(rest, "no findings")
    ensures Reads(said, "no issues") || Reads(said, "no findings")
    ensures said <= rest
  {
    WordIsRead(rest, "no issues");
    WordIsRead(rest, "no findings");
    said := if StartsWithWord(rest, "no issues") then rest[..|"no issues"|] else rest[..|"no findings"|];
  }

  lemma NoIssuesHasForm(item: string) returns (n: Nothing)
    requires NoIssues(item)
    ensures n.Valid() && n.Text() == item
  {
    IndentIsBlank(item);
    var s := LStrip(item);
    var emphasis := if "**" <= s then s[..2] else "";
    var rest := s[|emphasis|..];
    assert emphasis + rest == s;
    var said := NoneHasWord(rest);
    n := Nothing(Indent(item), emphasis, said, rest[|said|..]);
    assert said + rest[|said|..] == rest;
  }

  lemma NoIssuesForm(item: string)
    ensures NoIssues(item) <==> SaysNone(item)
  {
    if NoIssues(item) {
      var n := NoIssuesHasForm(item);
    }
    if SaysNone(item) {
      var n: Nothing :| n.Valid() && n.Text() == item;
      NoneIsRead(n);
    }
  }

  // ---- severities ----

  predicate IsSeverity(word: string) {
    word in ["blocker", "major", "minor", "nit"]
  }

  predicate IsEmphasis(s: string) {
    s == "" || s == "**" || s == "__"
  }

  predicate IsSeparator(c: char) {
    c == ':' || c == '-' || c == '\U{2013}' || c == '\U{2014}'
  }

  /** What may stand before a severity word. */
  datatype Opening = Opening(emphasis: string, a: string, bracket: string, b: string)
  {
    predicate Valid() {
      IsEmphasis(emphasis) && Blank(a) && (bracket == "" || bracket == "[") && Blank(b)
    }

    function Then(text: string): string {
      emphasis + (a + (bracket + (b + text)))
    }
  }

  /** What may stand after it. */
  datatype Closing = Closing(a: string, bracket: string, b: string, emphasis: string, c: string, separator: string, d: string)
  {
    predicate Valid() {
      && Blank(a) && (bracket == "" || bracket == "]") && Blank(b) && IsEmphasis(emphasis)
      && Blank(c) && (separator == "" || (|separator| == 1 && IsSeparator(separator[0]))) && Blank(d)
    }

    function Then(text: string): string {
      a + (bracket + (b + (emphasis + (c + (separator + (d + text))))))
    }
  }

  /** `text` begins with nothing that would still belong to the severity. */
  predicate Clear(text: string) {
    text != "" && !IsSpace(text[0]) && !IsSeparator(text[0]) && text[0] !in "]*_"
  }

  datatype Rating = Rating(opening: Opening, said: string, rest: string)
  {
    function Text(): string {
      opening.Then(said + rest)
    }
  }

  ghost predicate IsRated(item: string, word: string) {
    exists r: Rating :: r.opening.Valid() && Reads(r.said, word) && r.Text() == item
  }

  lemma Differs(s: string, word: string, i: nat)
    requires i < |s| && i < |word| && Lower(s[i]) != word[i]
    ensures !StartsWithWord(s, word)
  {
  }

  lemma SeverityWordIsRead(said: string, word: string, rest: string)
    requires IsSeverity(word) && Reads(said, word)
    ensures SeverityWord(said + rest) == Some(word)
    ensures said != "" && said[0] in "bBmMnN"
  {
    var s := said + rest;
    SaidIsRead(said, word, rest);
    if word != "blocker" {
      Differs(s, "blocker", 0);
      if word != "major" {
        Differs(s, "major", 1);
        if word != "minor" {
          Differs(s, "minor", 0);
        }
      }
    }
  }

  lemma EmphasisIsSkipped(emphasis: string, text: string)
    requires IsEmphasis(emphasis) && (emphasis == "" ==> text == "" || text[0] !in "*_")
    ensures SkipEmphasis(emphasis + text) == text
  {
    if emphasis == "" {
      assert emphasis + text == text;
    } else {
      assert (emphasis + text)[..2] == emphasis && (emphasis + text)[2..] == text;
    }
  }

  /** An optional character between blanks is skipped with them. */
  lemma OneIsSkipped(chars: string, a: string, one: string, b: string, text: string)
    requires Blank(a) && Blank(b) && (forall i | 0 <= i < |chars| :: !IsSpace(chars[i]))
    requires if one == "" then LStrip(text) == "" || LStrip(text)[0] !in chars else |one| == 1 && one[0] in chars
    ensures LStrip(SkipOne(chars, LStrip(a + (one + (b + text))))) == LStrip(text)
  {
    LStripOver(a, one + (b + text));
    LStripOver(b, text);
    if one == "" {
      assert one + (b + text) == b + text;
      IndentIsBlank(text);
      LStripTwice(text);
    } else {
      assert (one + (b + text))[1..] == b + text;
      assert LStrip(one + (b + text)) == one + (b + text);
    }
  }

  lemma LStripTwice(text: string)
    ensures LStrip(LStrip(text)) == LStrip(text)
  {
    IndentIsBlank(text);
  }

  lemma BlankIsNoEmphasis(space: string, text: string)
    requires Blank(space) && text != "" && text[0] !in "*_"
    ensures (space + text)[0] !in "*_"
  {
    if space != "" {
      assert IsSpace(space[0]);
    }
  }

  lemma OpeningIsSkipped(opening: Opening, text: string)
    requires opening.Valid() && text != "" && !IsSpace(text[0]) && text[0] !in "[*_"
    ensures LStrip(SkipOne("[", LStrip(SkipEmphasis(opening.Then(text))))) == text
  {
    var Opening(emphasis, a, bracket, b) := opening;
    BlankIsNoEmphasis(b, text);
    assert bracket + (b + text) == if bracket == "" then b + text else "[" + (b + text);
    BlankIsNoEmphasis(a, bracket + (b + text));
    EmphasisIsSkipped(emphasis, a + (bracket + (b + text)));
    OneIsSkipped("[", a, bracket, b, text);
  }

  lemma SeverityIsRead(opening: Opening, said: string, word: string, rest: string)
    requires opening.Valid() && IsSeverity(word) && Reads(said, word)
    ensures Severity(opening.Then(said + rest)) == Rated(Some(word), AfterSeverity(rest))
  {
    SeverityWordIsRead(said, word, rest);
    OpeningIsSkipped(opening, said + rest);
    assert (said + rest)[|word|..] == rest;
  }

  lemma AfterSeverityIsRead(closing: Closing, text: string)
    requires closing.Valid() && Clear(text)
    ensures AfterSeverity(closing.Then(text)) == text
  {
    var Closing(a, bracket, b, emphasis, c, separator, d) := closing;
    var separated := c + (separator + (d + text));
    var emphasized := emphasis + separated;
    OneIsSkipped(SEPARATORS, c, separator, d, text);
    FirstSkipped(c, separator, d, text);
    EmphasizedIsSkipped(b, emphasis, separated);
    OneIsSkipped("]", a, bracket, b, emphasized);
    LStripOver(b, emphasized);
    assert LStrip(SkipOne("]", LStrip(closing.Then(text)))) == LStrip(emphasized);
  }

  lemma FirstSkipped(a: string, one: string, b: string, text: string)
    requires Blank(a) && Blank(b) && |one| <= 1 && (one != "" ==> IsSeparator(one[0])) && Clear(text)
    ensures LStrip(a + (one + (b + text))) != "" && LStrip(a + (one + (b + text)))[0] !in "]*_"
  {
    LStripOver(a, one + (b + text));
    LStripSkips(b, text);
    if one == "" {
      assert one + (b + text) == b + text;
    }
  }

  lemma EmphasizedIsSkipped(b: string, emphasis: string, text: string)
    requires Blank(b) && IsEmphasis(emphasis) && LStrip(text) != "" && LStrip(text)[0] !in "]*_"
    ensures LStrip(SkipEmphasis(LStrip(emphasis + text))) == LStrip(text)
    ensures LStrip(emphasis + text) != "" && LStrip(emphasis + text)[0] != ']'
  {
    if emphasis == "" {
      assert emphasis + text == text;
      EmphasisIsSkipped("", LStrip(text));
      assert "" + LStrip(text) == LStrip(text);
      LStripTwice(text);
    } else {
      EmphasisIsSkipped(emphasis, text);
    }
  }

  lemma SeverityWordHasForm(s: string) returns (said: string)
    requires SeverityWord(s).Some?
    ensures Reads(said, SeverityWord(s).value) && said <= s && IsSeverity(SeverityWord(s).value)
  {
    WordIsRead(s, "blocker");
    WordIsRead(s, "major");
    WordIsRead(s, "minor");
    WordIsRead(s, "nit");
    said := s[..|SeverityWord(s).value|];
  }

  lemma EmphasisHasForm(item: string) returns (emphasis: string)
    ensures IsEmphasis(emphasis) && emphasis + SkipEmphasis(item) == item
  {
    emphasis := if SkipEmphasis(item) == item then "" else item[..2];
  }

  lemma OneHasForm(s: string) returns (bracket: string)
    ensures (bracket == "" || bracket == "[") && bracket + SkipOne("[", s) == s
  {
    bracket := if SkipOne("[", s) == s then "" else "[";
  }

  lemma OpeningHasForm(item: string) returns (opening: Opening)
    ensures opening.Valid()
    ensures opening.Then(LStrip(SkipOne("[", LStrip(SkipEmphasis(item))))) == item
  {
    var emphasis := EmphasisHasForm(item);
    var s1 := SkipEmphasis(item);
    IndentIsBlank(s1);
    var bracket := OneHasForm(LStrip(s1));
    var s3 := SkipOne("[", LStrip(s1));
    IndentIsBlank(s3);
    opening := Opening(emphasis, Indent(s1), bracket, Indent(s3));
  }

  lemma RatingHasForm(item: string) returns (r: Rating)
    requires Severity(item).severity.Some?
    ensures r.opening.Valid() && Reads(r.said, Severity(item).severity.value) && r.Text() == item
    ensures IsSeverity(Severity(item).severity.value)
  {
    var opening := OpeningHasForm(item);
    var s := LStrip(SkipOne("[", LStrip(SkipEmphasis(item))));
    var said := SeverityWordHasForm(s);
    r := Rating(opening, said, s[|said|..]);
    assert said + s[|said|..] == s;
  }

  lemma SeverityForm(item: string, word: string)
    requires IsSeverity(word)
    ensures Severity(item).severity == Some(word) <==> IsRated(item, word)
  {
    if Severity(item).severity == Some(word) {
      var r := RatingHasForm(item);
    }
    if IsRated(item, word) {
      var r: Rating :| r.opening.Valid() && Reads(r.said, word) && r.Text() == item;
      SeverityIsRead(r.opening, r.said, word, r.rest);
    }
  }

  lemma UnratedIsKept(item: string)
    ensures Severity(item).severity.None? ==> Severity(item).rest == item
    ensures Severity(item).severity.None? <==> !exists word :: IsSeverity(word) && IsRated(item, word)
  {
    if Severity(item).severity.Some? {
      var r := RatingHasForm(item);
      assert IsRated(item, Severity(item).severity.value);
    }
    forall word | IsSeverity(word)
      ensures Severity(item).severity == Some(word) <==> IsRated(item, word)
    {
      SeverityForm(item, word);
    }
  }

  lemma NoWordNoSeverity(item: string, s1: string, s2: string)
    requires SkipEmphasis(item) == s1 && LStrip(s1) == s2 && s2 != "" && s2[0] != '[' && SeverityWord(s2).None?
    ensures Severity(item).severity.None?
  {
    IndentIsBlank(s1);
    assert LStrip(s2) == s2;
  }

  lemma EmphasisIsNoWord(text: string)
    ensures SeverityWord("**" + text).None?
  {
    var marked := "**" + text;
    Differs(marked, "blocker", 0);
    Differs(marked, "major", 0);
    Differs(marked, "minor", 0);
    Differs(marked, "nit", 0);
  }

  lemma BareNoneIsUnrated(n: Nothing, text: string)
    requires n.Valid() && n.indent == "" && text == n.said + n.rest
    ensures Severity(n.emphasis + text).severity.None?
  {
    WordOfNoneIsRead(n.said, n.rest);
    WordsDiffer(n.said, n.rest);
    EmphasisIsSkipped(n.emphasis, text);
    NoWordNoSeverity(n.emphasis + text, text, text);
  }

  lemma MarkedIsNoWord(emphasis: string, said: string, rest: string)
    requires emphasis == "" || emphasis == "**"
    requires Reads(said, "no issues") || Reads(said, "no findings")
    ensures var marked := emphasis + (said + rest);
            marked != "" && !IsSpace(marked[0]) && marked[0] != '[' && SeverityWord(marked).None?
  {
    if emphasis == "" {
      WordOfNoneIsRead(said, rest);
      WordsDiffer(said, rest);
      assert emphasis + (said + rest) == said + rest;
    } else {
      EmphasisIsNoWord(said + rest);
    }
  }

  lemma IndentedNoneIsUnrated(n: Nothing, marked: string)
    requires n.Valid() && n.indent != "" && marked == n.emphasis + (n.said + n.rest)
    ensures Severity(n.indent + marked).severity.None?
  {
    var s := n.indent + marked;
    MarkedIsNoWord(n.emphasis, n.said, n.rest);
    LStripSkips(n.indent, marked);
    assert IsSpace(s[0]);
    EmphasisIsSkipped("", s);
    assert "" + s == s;
    NoWordNoSeverity(s, s, marked);
  }

  /** An item that says there is nothing has no severity. */
  lemma NoneIsUnrated(n: Nothing)
    requires n.Valid()
    ensures Severity(n.Text()).severity.None?
  {
    if n.indent == "" {
      BareNoneIsUnrated(n, n.said + n.rest);
      assert n.Text() == n.emphasis + (n.said + n.rest);
    } else {
      IndentedNoneIsUnrated(n, n.emphasis + (n.said + n.rest));
    }
  }

  lemma WordsDiffer(said: string, rest: string)
    requires Reads(said, "no issues") || Reads(said, "no findings")
    ensures SeverityWord(said + rest).None?
  {
    var text := said + rest;
    assert said[0] in "nN" && said[1] in "oO";
    assert text[0] == said[0] && text[1] == said[1];
    Differs(text, "blocker", 0);
    Differs(text, "major", 0);
    Differs(text, "minor", 0);
    Differs(text, "nit", 1);
  }
}
