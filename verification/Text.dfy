/** Python's string operations the modules share. */
module Text {
  import opened Rows

  /** The characters Python's `str.strip` removes. */
  predicate IsSpace(c: char) {
    var n := c as int;
    || 9 <= n <= 13 || 28 <= n <= 32 || n == 0x85 || n == 0xA0 || n == 0x1680
    || 0x2000 <= n <= 0x200A || n == 0x2028 || n == 0x2029 || n == 0x202F || n == 0x205F || n == 0x3000
  }

  /** `not text.strip()` */
  predicate Blank(text: string) {
    forall i | 0 <= i < |text| :: IsSpace(text[i])
  }

  /** `text.lstrip()` */
  function LStrip(text: string): string {
    if text != "" && IsSpace(text[0]) then LStrip(text[1..]) else text
  }

  /** `text.rstrip()` */
  function RStrip(text: string): string {
    if text != "" && IsSpace(text[|text| - 1]) then RStrip(text[..|text| - 1]) else text
  }

  /** `text.strip()` */
  function Strip(text: string): string {
    RStrip(LStrip(text))
  }

  /** Not empty, with no space at either end: what `strip` leaves alone. */
  predicate Trimmed(text: string) {
    text != "" && !IsSpace(text[0]) && !IsSpace(text[|text| - 1])
  }

  lemma {:induction false} LStripSkips(space: string, text: string)
    requires Blank(space) && (text == "" || !IsSpace(text[0]))
    ensures LStrip(space + text) == text
  {
    if space == "" {
      assert space + text == text;
    } else {
      assert (space + text)[1..] == space[1..] + text;
      LStripSkips(space[1..], text);
    }
  }

  lemma {:induction false} LStripIsBlank(text: string)
    ensures LStrip(text) == "" <==> Blank(text)
    ensures LStrip(text) != "" ==> !IsSpace(LStrip(text)[0])
  {
    if text != "" && IsSpace(text[0]) {
      LStripIsBlank(text[1..]);
      assert Blank(text) <==> Blank(text[1..]);
    }
  }

  lemma {:induction false} RStripKeepsFront(text: string)
    requires text != "" && !IsSpace(text[0])
    ensures RStrip(text) != "" && RStrip(text)[0] == text[0] && !IsSpace(RStrip(text)[|RStrip(text)| - 1])
  {
    if IsSpace(text[|text| - 1]) {
      RStripKeepsFront(text[..|text| - 1]);
    }
  }

  lemma StripTrims(text: string)
    ensures if Blank(text) then Strip(text) == "" else Trimmed(Strip(text))
  {
    LStripIsBlank(text);
    if !Blank(text) {
      RStripKeepsFront(LStrip(text));
    }
  }

  /** `"".join(parts)` */
  function Concat(parts: seq<string>): string {
    if parts == [] then "" else Concat(parts[..|parts| - 1]) + parts[|parts| - 1]
  }

  /** `sep.join(parts)` */
  function Join(sep: string, parts: seq<string>): string
    decreases |parts|
  {
    if parts == [] then ""
    else if |parts| == 1 then parts[0]
    else parts[0] + sep + Join(sep, parts[1..])
  }

  /** `text.split("\n")` */
  function Split(text: string): (lines: seq<string>)
    ensures lines != []
  {
    if text == "" then [""]
    else if text[0] == '\n' then [""] + Split(text[1..])
    else
      var rest := Split(text[1..]);
      [[text[0]] + rest[0]] + rest[1..]
  }

  lemma {:induction false} SplitLine(line: string, rest: string)
    requires '\n' !in line
    ensures Split(line + "\n" + rest) == [line] + Split(rest)
    ensures Split(line) == [line]
  {
    if line == "" {
      assert ("" + "\n" + rest)[1..] == rest;
    } else {
      SplitLine(line[1..], rest);
      assert (line + "\n" + rest)[1..] == line[1..] + "\n" + rest;
      assert [line[0]] + line[1..] == line;
    }
  }

  lemma {:induction false} SplitJoin(lines: seq<string>)
    requires lines != [] && forall i | 0 <= i < |lines| :: '\n' !in lines[i]
    ensures Split(Join("\n", lines)) == lines
    decreases |lines|
  {
    if |lines| == 1 {
      SplitLine(lines[0], "");
    } else {
      SplitLine(lines[0], Join("\n", lines[1..]));
      SplitJoin(lines[1..]);
      assert [lines[0]] + lines[1..] == lines;
    }
  }

  predicate IsDigit(c: char) {
    '0' <= c <= '9'
  }

  predicate AllDigits(s: string) {
    forall i | 0 <= i < |s| :: IsDigit(s[i])
  }

  /** The longest run of digits at the front, and what follows it. */
  function TakeDigits(s: string): (r: (string, string))
    ensures s == r.0 + r.1 && AllDigits(r.0) && (r.1 == "" || !IsDigit(r.1[0]))
  {
    if s == "" || !IsDigit(s[0]) then ("", s)
    else
      var (digits, rest) := TakeDigits(s[1..]);
      assert s == [s[0]] + s[1..];
      ([s[0]] + digits, rest)
  }

  lemma {:induction false} TakeDigitsOf(digits: string, rest: string)
    requires AllDigits(digits) && (rest == "" || !IsDigit(rest[0]))
    ensures TakeDigits(digits + rest) == (digits, rest)
  {
    if digits == "" {
      assert digits + rest == rest;
    } else {
      assert (digits + rest)[1..] == digits[1..] + rest;
      TakeDigitsOf(digits[1..], rest);
      assert [digits[0]] + digits[1..] == digits;
    }
  }

  /** `int(digits)` */
  function Value(digits: string): nat
    requires AllDigits(digits)
  {
    if digits == "" then 0
    else Value(digits[..|digits| - 1]) * 10 + (digits[|digits| - 1] as int - '0' as int)
  }

  /** `str(n)` */
  function Decimal(n: nat): (digits: string)
    ensures digits != "" && AllDigits(digits)
  {
    if n < 10 then [('0' as int + n) as char] else Decimal(n / 10) + [('0' as int + n % 10) as char]
  }

  lemma {:induction false} DecimalValue(n: nat)
    ensures Value(Decimal(n)) == n
  {
    if n >= 10 {
      DecimalValue(n / 10);
      assert Decimal(n)[..|Decimal(n)| - 1] == Decimal(n / 10);
    } else {
      assert Decimal(n)[..0] == "";
    }
  }

  /** What follows `prefix`, when `s` starts with it. */
  function StripPrefix(prefix: string, s: string): Option<string> {
    if prefix <= s then Some(s[|prefix|..]) else None
  }

  lemma StripPrefixOf(prefix: string, s: string)
    ensures StripPrefix(prefix, prefix + s) == Some(s)
  {
  }

  predicate PartAt(part: string, s: string, i: int) {
    0 <= i <= |s| - |part| && s[i..i + |part|] == part
  }

  /** `part in s` */
  predicate Occurs(part: string, s: string) {
    exists i :: 0 <= i <= |s| - |part| && PartAt(part, s, i)
  }

  lemma OccursBetween(before: string, part: string, after: string)
    ensures Occurs(part, before + part + after)
  {
    assert PartAt(part, before + part + after, |before|);
  }

  lemma NeedsItsFirst(part: string, s: string)
    ensures Occurs(part, s) && part != "" ==> part[0] in s
  {
    if Occurs(part, s) && part != "" {
      var i :| 0 <= i <= |s| - |part| && PartAt(part, s, i);
      assert s[i] == s[i..i + |part|][0];
    }
  }

  lemma PartBeforeOrAcross(part: string, a: string, b: string, i: int)
    requires part != "" && b != "" && PartAt(part, a + b, i)
    ensures PartAt(part, a, i) || b[0] in part || part[0] in b
  {
    var s := a + b;
    assert s[i..i + |part|] == part;
    if i >= |a| {
      assert b[i - |a|] == part[0];
    } else if i + |part| > |a| {
      assert s[|a|] == s[i..i + |part|][|a| - i] == b[0];
    }
  }

  /** A part that cannot reach into `b` occurs in `a + b` only where it occurs in `a`. */
  lemma OccursBefore(part: string, a: string, b: string)
    requires part != "" && b != "" && b[0] !in part && part[0] !in b
    ensures Occurs(part, a + b) <==> Occurs(part, a)
  {
    if i :| 0 <= i <= |a + b| - |part| && PartAt(part, a + b, i) {
      PartBeforeOrAcross(part, a, b, i);
    }
    if Occurs(part, a) {
      OccursBetween("", a, b);
      assert "" + a + b == a + b;
      OccursThrough(part, a, a + b);
    }
  }

  lemma OccursThrough(part: string, middle: string, s: string)
    requires Occurs(part, middle) && Occurs(middle, s)
    ensures Occurs(part, s)
  {
    var i :| 0 <= i <= |middle| - |part| && PartAt(part, middle, i);
    var j :| 0 <= j <= |s| - |middle| && PartAt(middle, s, j);
    forall k | 0 <= k < |part|
      ensures s[j + i + k] == part[k]
    {
      assert middle[i + k] == s[j..j + |middle|][i + k];
      assert part[k] == middle[i..i + |part|][k];
    }
    assert PartAt(part, s, j + i);
  }

  lemma {:induction false} PartOccursInJoin(sep: string, parts: seq<string>, k: nat)
    requires k < |parts|
    ensures Occurs(parts[k], Join(sep, parts))
    decreases |parts|
  {
    if |parts| == 1 {
      OccursBetween("", parts[0], "");
      assert "" + parts[0] + "" == parts[0];
    } else if k == 0 {
      OccursBetween("", parts[0], sep + Join(sep, parts[1..]));
      assert "" + parts[0] + (sep + Join(sep, parts[1..])) == Join(sep, parts);
    } else {
      PartOccursInJoin(sep, parts[1..], k - 1);
      OccursBetween(parts[0] + sep, Join(sep, parts[1..]), "");
      assert parts[0] + sep + Join(sep, parts[1..]) + "" == Join(sep, parts);
      OccursThrough(parts[k], Join(sep, parts[1..]), Join(sep, parts));
    }
  }

  /** `s.replace(part, fill)` */
  function Replace(s: string, part: string, fill: string): string
    requires part != ""
    decreases |s|
  {
    if |s| < |part| then s
    else if s[..|part|] == part then fill + Replace(s[|part|..], part, fill)
    else [s[0]] + Replace(s[1..], part, fill)
  }

  lemma {:induction false} ReplaceFills(s: string, part: string, fill: string)
    requires part != "" && Occurs(part, s)
    ensures Occurs(fill, Replace(s, part, fill))
    decreases |s|
  {
    var r := Replace(s, part, fill);
    if s[..|part|] == part {
      OccursBetween("", fill, Replace(s[|part|..], part, fill));
      assert "" + fill + Replace(s[|part|..], part, fill) == r;
    } else {
      OccursOneOn(part, s);
      ReplaceFills(s[1..], part, fill);
      OccursBetween([s[0]], Replace(s[1..], part, fill), "");
      assert [s[0]] + Replace(s[1..], part, fill) + "" == r;
      OccursThrough(fill, Replace(s[1..], part, fill), r);
    }
  }

  lemma {:induction false} ReplaceKeeps(s: string, part: string, fill: string)
    requires part != "" && !Occurs(part, s)
    ensures Replace(s, part, fill) == s
    decreases |s|
  {
    if |s| >= |part| {
      assert s[..|part|] == part ==> PartAt(part, s, 0);
      OccursOneOn(part, s);
      ReplaceKeeps(s[1..], part, fill);
      assert [s[0]] + s[1..] == s;
    }
  }

  lemma {:induction false} ReplaceGrows(s: string, part: string, fill: string)
    requires part != "" && |fill| >= |part|
    ensures |Replace(s, part, fill)| >= |s|
    ensures Occurs(part, s) && |fill| > |part| ==> |Replace(s, part, fill)| > |s|
    decreases |s|
  {
    if |s| < |part| {
      assert forall i :: !PartAt(part, s, i);
    } else if s[..|part|] == part {
      ReplaceGrows(s[|part|..], part, fill);
    } else {
      ReplaceGrows(s[1..], part, fill);
      OccursOneOn(part, s);
    }
  }

  lemma OccursOneOn(part: string, s: string)
    requires |part| <= |s| && s[..|part|] != part
    ensures s != "" && (Occurs(part, s) <==> Occurs(part, s[1..]))
  {
    if Occurs(part, s) {
      var i :| 0 <= i <= |s| - |part| && PartAt(part, s, i);
      assert i > 0 && PartAt(part, s[1..], i - 1);
    }
    if Occurs(part, s[1..]) {
      var i :| 0 <= i <= |s[1..]| - |part| && PartAt(part, s[1..], i);
      assert PartAt(part, s, i + 1);
    }
  }

  /** `a <= b` for strings. */
  predicate AtMost(a: string, b: string) {
    a == "" || (b != "" && (a[0] < b[0] || (a[0] == b[0] && AtMost(a[1..], b[1..]))))
  }

  /** The first character that differs decides, and a prefix comes first. */
  lemma {:induction false} AtMostIsLexicographic(a: string, b: string)
    ensures AtMost(a, b) <==> a <= b || exists k :: 0 <= k < |a| && k < |b| && a[..k] == b[..k] && a[k] < b[k]
  {
    if a != "" && b != "" && a[0] == b[0] {
      AtMostIsLexicographic(a[1..], b[1..]);
      if k :| 0 <= k < |a[1..]| && k < |b[1..]| && a[1..][..k] == b[1..][..k] && a[1..][k] < b[1..][k] {
        assert a[..k + 1] == [a[0]] + a[1..][..k] && b[..k + 1] == [b[0]] + b[1..][..k];
        assert a[k + 1] < b[k + 1];
      }
      if k :| 0 <= k < |a| && k < |b| && a[..k] == b[..k] && a[k] < b[k] {
        assert a[1..][..k - 1] == a[..k][1..] && b[1..][..k - 1] == b[..k][1..];
        assert a[1..][k - 1] < b[1..][k - 1];
      }
      assert a <= b <==> a[1..] <= b[1..] by {
        assert a == [a[0]] + a[1..] && b == [b[0]] + b[1..];
      }
    } else if a != "" && b != "" && a[0] < b[0] {
      assert a[..0] == b[..0] && a[0] < b[0];
    }
  }

  lemma {:induction false} AtMostIsTotal(a: string, b: string)
    ensures AtMost(a, b) || AtMost(b, a)
  {
    if a != "" && b != "" && a[0] == b[0] {
      AtMostIsTotal(a[1..], b[1..]);
    }
  }

  lemma {:induction false} AtMostIsTransitive(a: string, b: string, c: string)
    requires AtMost(a, b) && AtMost(b, c)
    ensures AtMost(a, c)
  {
    if a != "" && a[0] == b[0] == c[0] {
      AtMostIsTransitive(a[1..], b[1..], c[1..]);
    }
  }
}
