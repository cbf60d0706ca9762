/** Packing a prompt under a character budget. `clean` stands for the redaction of secrets, and the
    boundary token for sixteen characters of a hash. */
module Prompt {
  import opened Rows
  import opened Text

  const CUT_NOTICE := "\n\U{2026} [truncated to fit prompt budget]"
  const CHUNKS_HEADER := "### Changed units (full context, parsed with tree-sitter)"
  const SIMILAR_HEADER := "### Similar code from this repository (retrieved, for convention context)"
  const PATCH_SHARE: real := 0.35
  const CHUNKS_SHARE: real := 0.40

  function Share(total: nat, share: real): nat
    requires share >= 0.0
  {
    (total as real * share).Floor
  }

  /** A share is rounded down. */
  lemma SharesAreFloors(total: nat)
    ensures 100 * Share(total, PATCH_SHARE) <= 35 * total < 100 * (Share(total, PATCH_SHARE) + 1)
    ensures 100 * Share(total, CHUNKS_SHARE) <= 40 * total < 100 * (Share(total, CHUNKS_SHARE) + 1)
  {
  }

  function Cut(text: string, limit: nat): (r: string)
    ensures |r| <= (if limit < |CUT_NOTICE| then |CUT_NOTICE| else limit)
    ensures |text| <= limit ==> r == text
    ensures |text| > limit ==> |CUT_NOTICE| <= |r| && r[..|r| - |CUT_NOTICE|] <= text && (limit >= |CUT_NOTICE| ==> |r| < |text|)
  {
    assert |CUT_NOTICE| == 35;
    if |text| <= limit then text else text[..if limit > 40 then limit - 40 else 0] + CUT_NOTICE
  }

  function Fence(body: string, boundary: string): string {
    "BEGIN-UNTRUSTED-" + boundary + "\n" + body + "\nEND-UNTRUSTED-" + boundary
  }

  /** A changed unit or a retrieved snippet: its title and its code. */
  datatype Piece = Piece(title: string, text: string)

  datatype Request = Request(path: string, language: Option<string>, commitMessage: string, patch: string,
                             changed: seq<Piece>, similar: seq<Piece>, total: nat, boundary: string)

  function LanguageName(language: Option<string>): string {
    if language.Some? && language.value != "" then language.value else "unknown"
  }

  function PatchText(clean: string -> string, r: Request): string {
    Cut(clean(r.patch), Share(r.total, PATCH_SHARE))
  }

  function Head(clean: string -> string, r: Request): seq<string> {
    ["File: " + r.path, "Language: " + LanguageName(r.language), "Commit message: " + Cut(Strip(r.commitMessage), 500), "",
     "### Diff", Fence(PatchText(clean, r), r.boundary)]
  }

  function Block(clean: string -> string, kind: string, piece: Piece, boundary: string): string {
    "#### " + kind + ": " + piece.title + "\n" + Fence(clean(piece.text), boundary)
  }

  function Blocks(clean: string -> string, kind: string, pieces: seq<Piece>, boundary: string): seq<string> {
    seq(|pieces|, k requires 0 <= k < |pieces| => Block(clean, kind, pieces[k], boundary))
  }

  // ---- lengths ----

  function TotalLength(parts: seq<string>): nat {
    if parts == [] then 0 else TotalLength(parts[..|parts| - 1]) + |parts[|parts| - 1]|
  }

  lemma {:induction false} TotalLengthAppend(a: seq<string>, b: seq<string>)
    ensures TotalLength(a + b) == TotalLength(a) + TotalLength(b)
    decreases |b|
  {
    if b == [] {
      assert a + b == a;
    } else {
      assert (a + b)[..|a + b| - 1] == a + b[..|b| - 1];
      TotalLengthAppend(a, b[..|b| - 1]);
    }
  }

  lemma {:induction false} JoinLength(sep: string, parts: seq<string>)
    requires parts != []
    ensures |Join(sep, parts)| == TotalLength(parts) + |sep| * (|parts| - 1)
    decreases |parts|
  {
    TotalLengthAppend([parts[0]], parts[1..]);
    assert [parts[0]] + parts[1..] == parts;
    assert TotalLength([parts[0]]) == |parts[0]| by {
      assert [parts[0]][..0] == [];
    }
    if |parts| > 1 {
      JoinLength(sep, parts[1..]);
      assert |sep| * (|parts| - 1) == |sep| * (|parts| - 2) + |sep|;
    }
  }

  // ---- greedy packing ----

  /** The number of leading blocks the loop takes. */
  function Fit(blocks: seq<string>, room: int): (k: nat)
    ensures k <= |blocks|
    decreases |blocks|
  {
    if blocks == [] || |blocks[0]| > room then 0 else 1 + Fit(blocks[1..], room - |blocks[0]|)
  }

  /** The blocks taken are the longest prefix that fits. */
  lemma {:induction false} FitIsLongestPrefix(blocks: seq<string>, room: int)
    ensures Fit(blocks, room) > 0 ==> TotalLength(blocks[..Fit(blocks, room)]) <= room
    ensures forall k | Fit(blocks, room) < k <= |blocks| :: TotalLength(blocks[..k]) > room
    decreases |blocks|
  {
    if blocks != [] {
      forall k | 1 <= k <= |blocks|
        ensures TotalLength(blocks[..k]) == |blocks[0]| + TotalLength(blocks[1..][..k - 1])
      {
        assert blocks[..k] == [blocks[0]] + blocks[1..][..k - 1];
        TotalLengthAppend([blocks[0]], blocks[1..][..k - 1]);
        assert [blocks[0]][..0] == [];
      }
      if |blocks[0]| <= room {
        FitIsLongestPrefix(blocks[1..], room - |blocks[0]|);
      }
    }
  }

  method Pack(clean: string -> string, kind: string, pieces: seq<Piece>, boundary: string, budget: int) returns (included: seq<string>)
    ensures var blocks := Blocks(clean, kind, pieces, boundary); included == blocks[..Fit(blocks, budget)]
  {
    included := [];
    var remaining := budget;
    ghost var blocks := Blocks(clean, kind, pieces, boundary);
    for i := 0 to |pieces|
      invariant included == blocks[..i]
      invariant Fit(blocks, budget) == i + Fit(blocks[i..], remaining)
    {
      var block := Block(clean, kind, pieces[i], boundary);
      assert blocks[i..][0] == block && blocks[i..][1..] == blocks[i + 1..];
      if |block| > remaining {
        return;
      }
      included := included + [block];
      remaining := remaining - |block|;
    }
  }

  // ---- build_prompt ----

  function WithSection(sections: seq<string>, header: string, blocks: seq<string>): seq<string> {
    sections + if blocks == [] then [] else ["", header] + blocks
  }

  /** Every section with its line break. */
  function Used(sections: seq<string>): nat {
    TotalLength(sections) + |sections|
  }

  datatype Packed = Packed(sections: seq<string>, chunks: seq<string>, similar: seq<string>)

  /** The changed units take up to `chunksRoom`, the similar code what is then left of `total`. */
  function Assemble(head: seq<string>, changed: seq<string>, retrieved: seq<string>, chunksRoom: nat, total: nat): Packed {
    var chunks := changed[..Fit(changed, chunksRoom)];
    var sections := WithSection(head, CHUNKS_HEADER, chunks);
    Packed(sections, chunks, retrieved[..Fit(retrieved, total - Used(sections))])
  }

  function Packing(clean: string -> string, r: Request): Packed {
    Assemble(Head(clean, r), Blocks(clean, "Changed unit", r.changed, r.boundary),
             Blocks(clean, "Similar code", r.similar, r.boundary), Share(r.total, CHUNKS_SHARE), r.total)
  }

  function User(p: Packed): string {
    Join("\n", WithSection(p.sections, SIMILAR_HEADER, p.similar))
  }

  /** `sum(len(s) + 1 for s in sections)` */
  method Measure(sections: seq<string>) returns (used: nat)
    ensures used == Used(sections)
  {
    used := 0;
    for i := 0 to |sections|
      invariant used == Used(sections[..i])
    {
      assert sections[..i + 1][..i] == sections[..i];
      used := used + |sections[i]| + 1;
    }
    assert sections[..|sections|] == sections;
  }

  method AddSection(sections: seq<string>, header: string, blocks: seq<string>) returns (more: seq<string>)
    ensures more == WithSection(sections, header, blocks)
  {
    more := sections;
    if blocks != [] {
      more := more + (["", header] + blocks);
    }
    assert sections + [] == sections;
  }

  method BuildPrompt(clean: string -> string, r: Request) returns (user: string, patchTruncated: bool)
    ensures user == User(Packing(clean, r))
    ensures patchTruncated <==> |PatchText(clean, r)| < |r.patch|
  {
    var head := Head(clean, r);
    var chunks := Pack(clean, "Changed unit", r.changed, r.boundary, Share(r.total, CHUNKS_SHARE));
    var sections := AddSection(head, CHUNKS_HEADER, chunks);
    var used := Measure(sections);
    var similar := Pack(clean, "Similar code", r.similar, r.boundary, r.total - used);
    assert Packing(clean, r) == Packed(sections, chunks, similar);
    sections := AddSection(sections, SIMILAR_HEADER, similar);
    user := Join("\n", sections);
    patchTruncated := |PatchText(clean, r)| < |r.patch|;
  }

  // ---- the budget ----

  lemma UsedAppend(a: seq<string>, b: seq<string>)
    ensures Used(a + b) == Used(a) + Used(b)
  {
    TotalLengthAppend(a, b);
  }

  lemma UsedOne(s: string)
    ensures Used([s]) == |s| + 1
  {
    assert [s][..0] == [];
    assert TotalLength([s]) == TotalLength([s][..0]) + |s|;
  }

  lemma SectionLength(sections: seq<string>, header: string, blocks: seq<string>)
    ensures Used(WithSection(sections, header, blocks)) ==
              Used(sections) + if blocks == [] then 0 else |header| + 2 + Used(blocks)
  {
    if blocks != [] {
      UsedAppend(sections, ["", header] + blocks);
      UsedAppend(["", header], blocks);
      UsedAppend([""], [header]);
      UsedOne("");
      UsedOne(header);
      assert ["", header] == [""] + [header];
    } else {
      assert sections + [] == sections;
    }
  }

  lemma SixSections(a: string, b: string, c: string, d: string, e: string, f: string)
    ensures Used([a, b, c, d, e, f]) == |a| + |b| + |c| + |d| + |e| + |f| + 6
  {
    UsedOne(a); UsedOne(b); UsedOne(c); UsedOne(d); UsedOne(e); UsedOne(f);
    UsedAppend([a], [b]);
    UsedAppend([a, b], [c]);
    UsedAppend([a, b, c], [d]);
    UsedAppend([a, b, c, d], [e]);
    UsedAppend([a, b, c, d, e], [f]);
    assert [a] + [b] == [a, b] && [a, b] + [c] == [a, b, c] && [a, b, c] + [d] == [a, b, c, d];
    assert [a, b, c, d] + [e] == [a, b, c, d, e] && [a, b, c, d, e] + [f] == [a, b, c, d, e, f];
  }

  lemma HeadLength(clean: string -> string, r: Request)
    requires |r.boundary| == 16
    ensures Used(Head(clean, r)) <= 645 + |r.path| + |LanguageName(r.language)| + Share(r.total, PATCH_SHARE)
    ensures r.total >= 100 ==> Used(Head(clean, r)) <= 610 + |r.path| + |LanguageName(r.language)| + Share(r.total, PATCH_SHARE)
  {
    assert |CUT_NOTICE| == 35;
    SixSections("File: " + r.path, "Language: " + LanguageName(r.language), "Commit message: " + Cut(Strip(r.commitMessage), 500), "",
                "### Diff", Fence(PatchText(clean, r), r.boundary));
  }

  const OVERHEAD: nat := 703

  lemma TakenFits(blocks: seq<string>, room: int, taken: seq<string>)
    requires taken == blocks[..Fit(blocks, room)]
    ensures taken == [] || TotalLength(taken) <= room
    ensures room >= 0 ==> TotalLength(taken) <= room
  {
    FitIsLongestPrefix(blocks, room);
  }

  /** Similar code only gets what the other sections leave. */
  lemma SectionsStayInTheirShares(head: seq<string>, changed: seq<string>, retrieved: seq<string>, chunksRoom: nat, total: nat)
    ensures var p := Assemble(head, changed, retrieved, chunksRoom, total);
            && TotalLength(p.chunks) <= chunksRoom
            && (p.similar != [] ==> Used(p.sections) + TotalLength(p.similar) <= total)
  {
    var p := Assemble(head, changed, retrieved, chunksRoom, total);
    TakenFits(changed, chunksRoom, p.chunks);
    TakenFits(retrieved, total - Used(p.sections), p.similar);
  }

  /** `taken` is as many of the blocks, in order, as there is room for. */
  ghost predicate LongestThatFits(taken: seq<string>, blocks: seq<string>, room: int) {
    && taken <= blocks && (taken != [] ==> TotalLength(taken) <= room)
    && forall k | |taken| < k <= |blocks| :: TotalLength(blocks[..k]) > room
  }

  /** Changed units are packed up to their share, and similar code up to what every section with its
      line break leaves of the budget. */
  lemma AssembledAreLongest(head: seq<string>, changed: seq<string>, retrieved: seq<string>, chunksRoom: nat, total: nat)
    ensures var p := Assemble(head, changed, retrieved, chunksRoom, total);
            && LongestThatFits(p.chunks, changed, chunksRoom)
            && LongestThatFits(p.similar, retrieved, total - TotalLength(p.sections) - |p.sections|)
  {
    var p := Assemble(head, changed, retrieved, chunksRoom, total);
    FitIsLongestPrefix(changed, chunksRoom);
    FitIsLongestPrefix(retrieved, total - Used(p.sections));
  }

  // ---- what the prompt shows ----

  function Fenced(text: string, boundary: string): string {
    "BEGIN-UNTRUSTED-" + boundary + "\n" + text + "\nEND-UNTRUSTED-" + boundary
  }

  lemma SectionIsShown(p: Packed, section: string)
    requires section in p.sections || section in p.similar
    ensures Occurs(section, User(p))
  {
    var parts := WithSection(p.sections, SIMILAR_HEADER, p.similar);
    assert section in parts;
    var k :| 0 <= k < |parts| && parts[k] == section;
    PartOccursInJoin("\n", parts, k);
  }

  lemma PieceIsShown(clean: string -> string, kind: string, piece: Piece, boundary: string)
    ensures Occurs(Fenced(clean(piece.text), boundary), Block(clean, kind, piece, boundary))
    ensures "#### " + kind + ": " + piece.title + "\n" <= Block(clean, kind, piece, boundary)
  {
    var title := "#### " + kind + ": " + piece.title + "\n";
    OccursBetween(title, Fenced(clean(piece.text), boundary), "");
    assert title + Fenced(clean(piece.text), boundary) + "" == Block(clean, kind, piece, boundary);
  }

  /** The prompt names the file and shows the patch, cut to its share, between the boundary lines. */
  lemma PatchIsShown(clean: string -> string, r: Request)
    ensures var user := User(Packing(clean, r));
            && Occurs("File: " + r.path, user)
            && (r.language in {None, Some("")} ==> Occurs("Language: unknown", user))
            && (r.language.Some? ==> Occurs("Language: " + r.language.value, user))
            && Occurs(Fenced(Cut(clean(r.patch), Share(r.total, PATCH_SHARE)), r.boundary), user)
            && Occurs("Commit message: " + Cut(Strip(r.commitMessage), 500), user)
  {
    var p, head := Packing(clean, r), Head(clean, r);
    forall k | 0 <= k < |head|
      ensures Occurs(head[k], User(p))
    {
      assert head[k] in p.sections;
      SectionIsShown(p, head[k]);
    }
    assert head[0] == "File: " + r.path;
    assert head[1] == "Language: " + LanguageName(r.language);
    if r.language in {None, Some("")} {
      assert head[1] == "Language: unknown";
      OccursBetween("", "Language: ", "unknown");
      assert "" + "Language: " + "unknown" == head[1];
      OccursThrough("Language: ", head[1], User(p));
      assert r.language.Some? ==> "Language: " + r.language.value == "Language: ";
    }
    assert head[2] == "Commit message: " + Cut(Strip(r.commitMessage), 500);
    assert head[5] == Fenced(Cut(clean(r.patch), Share(r.total, PATCH_SHARE)), r.boundary);
  }

  lemma BlockIsShown(clean: string -> string, kind: string, piece: Piece, boundary: string, p: Packed)
    requires var block := Block(clean, kind, piece, boundary); block in p.sections || block in p.similar
    ensures Occurs(Fenced(clean(piece.text), boundary), User(p))
  {
    var block := Block(clean, kind, piece, boundary);
    SectionIsShown(p, block);
    PieceIsShown(clean, kind, piece, boundary);
    OccursThrough(Fenced(clean(piece.text), boundary), block, User(p));
  }

  lemma PackedBlocks(clean: string -> string, r: Request)
    ensures var p := Packing(clean, r);
            && |p.chunks| <= |r.changed| && |p.similar| <= |r.similar|
            && (forall k | 0 <= k < |p.chunks| :: p.chunks[k] == Block(clean, "Changed unit", r.changed[k], r.boundary))
            && (forall k | 0 <= k < |p.similar| :: p.similar[k] == Block(clean, "Similar code", r.similar[k], r.boundary))
            && (forall block | block in p.chunks :: block in p.sections)
  {
  }

  /** The code of every unit that was packed is in the prompt, redacted and between the boundary lines. */
  lemma UnitsAreShown(clean: string -> string, r: Request, k: nat)
    requires k < |Packing(clean, r).chunks|
    ensures k < |r.changed| && Occurs(Fenced(clean(r.changed[k].text), r.boundary), User(Packing(clean, r)))
  {
    PackedBlocks(clean, r);
    BlockIsShown(clean, "Changed unit", r.changed[k], r.boundary, Packing(clean, r));
  }

  lemma SimilarCodeIsShown(clean: string -> string, r: Request, k: nat)
    requires k < |Packing(clean, r).similar|
    ensures k < |r.similar| && Occurs(Fenced(clean(r.similar[k].text), r.boundary), User(Packing(clean, r)))
  {
    PackedBlocks(clean, r);
    BlockIsShown(clean, "Similar code", r.similar[k], r.boundary, Packing(clean, r));
  }

  lemma UserLength(p: Packed)
    requires p.sections != []
    ensures |User(p)| + 1 == Used(p.sections) + if p.similar == [] then 0 else 75 + Used(p.similar)
  {
    SectionLength(p.sections, SIMILAR_HEADER, p.similar);
    assert |SIMILAR_HEADER| == 73;
    JoinLength("\n", WithSection(p.sections, SIMILAR_HEADER, p.similar));
  }

  /** The prompt stays within its budget, up to the path, the language, a constant and one separator
      for each block. */
  lemma PromptFitsBudget(clean: string -> string, r: Request)
    requires |r.boundary| == 16
    ensures var p := Packing(clean, r);
            |User(p)| <= r.total + |r.path| + |LanguageName(r.language)| + |p.chunks| + |p.similar| + OVERHEAD
  {
    HeadLength(clean, r);
    SharesFit(r.total);
    AssembledLength(Head(clean, r), Blocks(clean, "Changed unit", r.changed, r.boundary),
                    Blocks(clean, "Similar code", r.similar, r.boundary), Share(r.total, CHUNKS_SHARE), r.total);
  }

  lemma AssembledLength(head: seq<string>, changed: seq<string>, retrieved: seq<string>, chunksRoom: nat, total: nat)
    requires head != []
    ensures var p := Assemble(head, changed, retrieved, chunksRoom, total);
            |User(p)| <= if p.similar == [] then Used(head) + 58 + chunksRoom + |p.chunks| else total + 74 + |p.similar|
  {
    var p := Assemble(head, changed, retrieved, chunksRoom, total);
    SectionsStayInTheirShares(head, changed, retrieved, chunksRoom, total);
    SectionLength(head, CHUNKS_HEADER, p.chunks);
    assert |CHUNKS_HEADER| == 57;
    UserLength(p);
  }

  /** The report compares with the patch before redaction. It is right exactly when, for a cut patch,
      what the prompt shows is shorter than the original, and otherwise redaction did not shorten it. */
  lemma CutPatchIsReported(clean: string -> string, r: Request)
    ensures var share := Share(r.total, PATCH_SHARE);
            var cut := |clean(r.patch)| > share;
            (|PatchText(clean, r)| < |r.patch| <==> cut) <==>
              if cut then (if share > 40 then share - 5 else 35) < |r.patch| else |r.patch| <= |clean(r.patch)|
  {
    assert |CUT_NOTICE| == 35;
  }

  /** A new file of one line. */
  const HUNK := "@@ -0,0 +1 @@\n+"
  const TOKEN := "ghp_" + seq(36, _ => 'a')
  const REDACTED := "[REDACTED GITHUB TOKEN]"

  /** A patch that adds one GitHub token fits whole once it is redacted, and is reported cut. */
  lemma AWholePatchIsReportedCut(r: Request)
    requires r.patch == HUNK + TOKEN && r.total >= 1000
    ensures var clean: string -> string := text => if text == HUNK + TOKEN then HUNK + REDACTED else text;
            && |clean(r.patch)| <= Share(r.total, PATCH_SHARE) && PatchText(clean, r) == HUNK + REDACTED
            && |PatchText(clean, r)| < |r.patch|
  {
    assert |HUNK| == 15 && |REDACTED| == 23 && |TOKEN| == 40;
    SharesFit(r.total);
  }

  lemma SharesFit(total: nat)
    ensures Share(total, PATCH_SHARE) + Share(total, CHUNKS_SHARE) <= total
    ensures total >= 100 ==> Share(total, PATCH_SHARE) >= 35
  {
    var t := total as real;
    assert t * PATCH_SHARE + t * CHUNKS_SHARE == t * 0.75;
  }
}
