/** Posting a unit's report: annotations in batches on the check run, and the pull-request review
    with its fallback. A request that raises may have been carried out all the same, and a `finish`
    that raises a retryable error is tried again from its beginning. */
module Publisher {
  import opened Rows
  import opened Text
  import opened Report

  const ANNOTATIONS_PER_REQUEST: nat := 50
  const REVIEWS_PER_PAGE: nat := 100

  // ---- the review body and its marker ----

  function Marker(unit: nat): string {
    "<!-- codelens:unit:" + Decimal(unit) + " -->"
  }

  const OUTSIDE := "**Findings outside the changed lines**"

  function FullBody(summary: string, unplaced: seq<string>, unit: nat): string {
    Join("\n", [summary] + (if unplaced == [] then [] else ["", OUTSIDE] + unplaced) + ["", Marker(unit)])
  }

  function ReviewBody(summary: string, unplaced: seq<string>, unit: nat): string {
    Truncate(FullBody(summary, unplaced, unit), MAX_REVIEW_BODY)
  }

  /** Each line behind a line break. */
  function OwnLines(lines: seq<string>): string {
    if lines == [] then "" else "\n" + lines[0] + OwnLines(lines[1..])
  }

  lemma {:induction false} OwnLinesAppend(a: seq<string>, b: seq<string>)
    ensures OwnLines(a + b) == OwnLines(a) + OwnLines(b)
  {
    if a == [] {
      assert a + b == b;
    } else {
      assert (a + b)[1..] == a[1..] + b;
      OwnLinesAppend(a[1..], b);
    }
  }

  lemma {:induction false} JoinIsLines(first: string, rest: seq<string>)
    ensures Join("\n", [first] + rest) == first + OwnLines(rest)
    decreases |rest|
  {
    assert ([first] + rest)[1..] == rest;
    if rest != [] {
      assert [rest[0]] + rest[1..] == rest;
      JoinIsLines(rest[0], rest[1..]);
    }
  }

  lemma LinesOfTwo(a: string, b: string)
    ensures OwnLines([a, b]) == "\n" + a + "\n" + b
  {
    assert [a, b][1..] == [b] && [b][1..] == [];
    assert OwnLines([b]) == "\n" + b;
  }

  /** The summary comes first, then every unplaced finding on a line of its own, in order, and the
      marker is at the very end. */
  lemma BodyIsInOrder(summary: string, unplaced: seq<string>, unit: nat)
    ensures FullBody(summary, unplaced, unit) ==
              summary + (if unplaced == [] then "" else "\n\n" + OUTSIDE + OwnLines(unplaced)) + ("\n\n" + Marker(unit))
  {
    var outside := if unplaced == [] then [] else ["", OUTSIDE] + unplaced;
    BodyIsLines(summary, outside, ["", Marker(unit)]);
    OwnLinesAppend(["", OUTSIDE], unplaced);
    LinesOfTwo("", OUTSIDE);
    LinesOfTwo("", Marker(unit));
  }

  lemma BodyIsLines(summary: string, middle: seq<string>, end: seq<string>)
    ensures Join("\n", [summary] + middle + end) == summary + OwnLines(middle) + OwnLines(end)
  {
    assert [summary] + middle + end == [summary] + (middle + end);
    JoinIsLines(summary, middle + end);
    OwnLinesAppend(middle, end);
  }

  /** No unit's marker is found in another's. */
  lemma MarkersDiffer(u: nat, v: nat)
    ensures Occurs(Marker(u), Marker(v)) <==> u == v
  {
    if u == v {
      OccursBetween("", Marker(u), "");
      assert "" + Marker(u) + "" == Marker(u);
    }
    if Occurs(Marker(u), Marker(v)) {
      var i :| 0 <= i <= |Marker(v)| - |Marker(u)| && PartAt(Marker(u), Marker(v), i);
      MarkerStarts(v);
      assert Marker(v)[i] == Marker(v)[i..i + |Marker(u)|][0];
      assert Marker(u)[0] == '<';
      MarkerNumber(u, v);
    }
  }

  lemma MarkerStarts(v: nat)
    ensures forall i | 0 < i < |Marker(v)| :: Marker(v)[i] != '<'
  {
    var head, digits := "<!-- codelens:unit:", Decimal(v);
    assert '<' !in head[1..] && '<' !in " -->";
    forall i | 0 < i < |Marker(v)|
      ensures Marker(v)[i] != '<'
    {
      if i < |head| {
        assert Marker(v)[i] == head[1..][i - 1];
      } else if i < |head| + |digits| {
        assert Marker(v)[i] == digits[i - |head|] && IsDigit(digits[i - |head|]);
      } else {
        assert Marker(v)[i] == " -->"[i - |head| - |digits|];
      }
    }
  }

  lemma MarkerNumber(u: nat, v: nat)
    requires Marker(u) <= Marker(v)
    ensures u == v
  {
    var head := "<!-- codelens:unit:";
    var a, b := Marker(u)[|head|..], Marker(v)[|head|..];
    assert a == Decimal(u) + " -->" && b == Decimal(v) + " -->" && a <= b;
    assert b == Decimal(u) + (" -->" + b[|a|..]);
    TakeDigitsOf(Decimal(u), " -->" + b[|a|..]);
    TakeDigitsOf(Decimal(v), " -->");
    DecimalValue(u);
    DecimalValue(v);
  }

  lemma MarkerIsOneLine(unit: nat)
    ensures Marker(unit) != "" && Marker(unit)[0] == '<' && '\n' !in Marker(unit)
  {
    assert forall i | 0 <= i < |Decimal(unit)| :: IsDigit(Decimal(unit)[i]);
    assert '\n' !in Decimal(unit);
    assert '\n' !in "<!-- codelens:unit:" && '\n' !in " -->";
  }

  predicate StartsAParagraph(s: string) {
    s != "" && s[0] == '\n' && forall i | 0 <= i < |s| :: s[i] != '<'
  }

  /** Read off the notice piece by piece. */
  lemma NoticeHasNoMarker()
    ensures NOTICE[0] == '\n' && '<' !in NOTICE
  {
    assert StartsAParagraph("\n\n\U{2026} truncated \U{2014} ");
    assert StartsAParagraph("\n\n\U{2026} truncated \U{2014} see the CodeLens ");
    assert StartsAParagraph("\n\n\U{2026} truncated \U{2014} see the CodeLens dashboard for ");
    assert StartsAParagraph(NOTICE);
  }

  /** The body carries its marker exactly when it was not cut, or an earlier copy survived the cut. */
  lemma MarkerSurvives(summary: string, unplaced: seq<string>, unit: nat)
    ensures var full := FullBody(summary, unplaced, unit);
            Occurs(Marker(unit), ReviewBody(summary, unplaced, unit)) <==>
              |full| <= 60_000 || Occurs(Marker(unit), full[..60_000 - |NOTICE|])
  {
    var full := FullBody(summary, unplaced, unit);
    MarkerIsOneLine(unit);
    if |full| <= MAX_REVIEW_BODY {
      var parts := [summary] + (if unplaced == [] then [] else ["", OUTSIDE] + unplaced) + ["", Marker(unit)];
      assert parts[|parts| - 1] == Marker(unit);
      PartOccursInJoin("\n", parts, |parts| - 1);
    } else {
      NoticeHasNoMarker();
      OccursBefore(Marker(unit), full[..MAX_REVIEW_BODY - |NOTICE|], NOTICE);
    }
  }

  // ---- the fallback ----

  function CommentLine(c: InlineComment): string {
    "- `" + c.path + ":" + LineText(c.line) + "`: " + c.body
  }

  function LineText(line: int): string {
    if line < 0 then "-" + Decimal(-line) else Decimal(line)
  }

  function CommentLines(comments: seq<InlineComment>): seq<string> {
    seq(|comments|, k requires 0 <= k < |comments| => CommentLine(comments[k]))
  }

  function MovedSection(comments: seq<InlineComment>): string {
    "**Findings on changed lines**\n" + Join("\n", CommentLines(comments)) + "\n\n"
  }

  /** The body with the comments moved in front of every marker. */
  function FallbackBody(body: string, unit: nat, comments: seq<InlineComment>): string {
    MarkerIsOneLine(unit);
    Replace(body, Marker(unit), MovedSection(comments) + Marker(unit))
  }

  /** The fallback keeps every comment, and the marker, exactly when the body carries its marker;
      otherwise it changes nothing. */
  lemma FallbackKeepsComments(body: string, unit: nat, comments: seq<InlineComment>)
    ensures FallbackBody(body, unit, comments) != body <==> Occurs(Marker(unit), body)
    ensures Occurs(Marker(unit), body) ==>
              && Occurs(Marker(unit), FallbackBody(body, unit, comments))
              && forall k | 0 <= k < |comments| :: Occurs(CommentLine(comments[k]), FallbackBody(body, unit, comments))
  {
    var marker := Marker(unit);
    var fill := MovedSection(comments) + marker;
    MarkerIsOneLine(unit);
    ReplaceGrows(body, marker, fill);
    if !Occurs(marker, body) {
      ReplaceKeeps(body, marker, fill);
    } else {
      ReplaceFills(body, marker, fill);
      OccursBetween(MovedSection(comments), marker, "");
      assert MovedSection(comments) + marker + "" == fill;
      OccursThrough(marker, fill, FallbackBody(body, unit, comments));
      forall k | 0 <= k < |comments|
        ensures Occurs(CommentLine(comments[k]), FallbackBody(body, unit, comments))
      {
        CommentIsMoved(comments, k, marker);
        OccursThrough(CommentLine(comments[k]), fill, FallbackBody(body, unit, comments));
      }
    }
  }

  lemma CommentIsMoved(comments: seq<InlineComment>, k: nat, marker: string)
    requires k < |comments|
    ensures Occurs(CommentLine(comments[k]), MovedSection(comments) + marker)
  {
    var lines := Join("\n", CommentLines(comments));
    PartOccursInJoin("\n", CommentLines(comments), k);
    OccursBetween("**Findings on changed lines**\n", lines, "\n\n" + marker);
    assert "**Findings on changed lines**\n" + lines + ("\n\n" + marker) == MovedSection(comments) + marker;
    OccursThrough(CommentLine(comments[k]), lines, MovedSection(comments) + marker);
  }

  // ---- requests ----

  /** How a call to GitHub ends: with a status, or with an exception. A lost connection, a
      5xx and a rate limit raise retryable errors; GitHub may have carried the request out before. */
  datatype Reply = Returned(status: int) | Raised(carriedOut: bool, retryable: bool)
  {
    predicate IsError() {
      Returned? && 400 <= status <= 599
    }

    predicate CarriedOut() {
      if Returned? then !IsError() else carriedOut
    }

    predicate Raises() {
      Raised? || IsError()
    }

    /** The error of a call that raises: an error status is not worth a retry. */
    function Exception(): Option<bool> {
      if Raised? then Some(retryable) else if IsError() then Some(false) else None
    }
  }

  const OK := Returned(200)

  // ---- the pull-request review ----

  datatype Review = Review(body: string, comments: seq<InlineComment>)

  datatype Pull = Pull(open: bool, head: string, reviews: seq<Review>)

  /** Only the first page of reviews is looked at. */
  predicate AlreadyPosted(pull: Pull, unit: nat) {
    exists k | 0 <= k < |pull.reviews| && k < REVIEWS_PER_PAGE :: Occurs(Marker(unit), pull.reviews[k].body)
  }

  /** The pull request, its reviews, the review, the fallback. */
  datatype Replies = Replies(pull: Reply, listing: Reply, first: Reply, second: Reply)

  /** `raise` is the exception, if there is one: whether it can be retried. */
  datatype Outcome = Outcome(reviews: seq<Review>, raise: Option<bool>)

  predicate FallsBack(review: Review, r: Replies) {
    r.first == Returned(422) && review.comments != []
  }

  /** The request that decides, and the review it carries. */
  function Deciding(review: Review, r: Replies): Reply {
    if FallsBack(review, r) then r.second else r.first
  }

  function Submitted(unit: nat, review: Review, r: Replies): Review {
    if FallsBack(review, r) then Review(FallbackBody(review.body, unit, review.comments), []) else review
  }

  /** What posting leaves on the pull request, and whether it raises. */
  function Posting(pull: Pull, unit: nat, sha: string, review: Review, r: Replies): Outcome {
    if r.pull.Raises() then Outcome(pull.reviews, r.pull.Exception())
    else if !pull.open || pull.head != sha then Outcome(pull.reviews, None)
    else if r.listing.Raises() then Outcome(pull.reviews, r.listing.Exception())
    else if AlreadyPosted(pull, unit) then Outcome(pull.reviews, None)
    else
      var reply := Deciding(review, r);
      Outcome(pull.reviews + (if reply.CarriedOut() then [Submitted(unit, review, r)] else []), reply.Exception())
  }

  /** The review is submitted at all. */
  predicate Submits(pull: Pull, unit: nat, sha: string, r: Replies) {
    !r.pull.Raises() && pull.open && pull.head == sha && !r.listing.Raises() && !AlreadyPosted(pull, unit)
  }

  /** A review goes up exactly when it is submitted and GitHub carries the request out, raise or not;
      it carries the marker exactly when the report's body does, fallback or not. */
  lemma PostingPosts(pull: Pull, unit: nat, sha: string, review: Review, r: Replies)
    ensures var o := Posting(pull, unit, sha, review, r);
            && (o.reviews != pull.reviews <==> Submits(pull, unit, sha, r) && Deciding(review, r).CarriedOut())
            && (o.reviews != pull.reviews ==>
                  && |o.reviews| == |pull.reviews| + 1 && o.reviews[..|pull.reviews|] == pull.reviews
                  && (Occurs(Marker(unit), o.reviews[|pull.reviews|].body) <==> Occurs(Marker(unit), review.body)))
  {
    FallbackKeepsComments(review.body, unit, review.comments);
    assert forall more :: |pull.reviews + [more]| == |pull.reviews| + 1;
  }

  /** What goes up is the report's review itself; or, when GitHub rejects its comments with a 422, a review
      without comments whose body keeps them all if it carries the marker. A rejected review without
      comments is not tried again. */
  lemma PostedIsTheReport(pull: Pull, unit: nat, sha: string, review: Review, r: Replies)
    requires Posting(pull, unit, sha, review, r).reviews != pull.reviews
    ensures var posted := Posting(pull, unit, sha, review, r).reviews[|pull.reviews|];
            if r.first != Returned(422) then posted == review
            else
              && review.comments != [] && posted.comments == []
              && (if Occurs(Marker(unit), review.body) then forall k | 0 <= k < |review.comments| :: Occurs(CommentLine(review.comments[k]), posted.body)
                  else posted.body == review.body)
  {
    PostingPosts(pull, unit, sha, review, r);
    FallbackKeepsComments(review.body, unit, review.comments);
  }

  /** The call did not do what was asked: it raised, or GitHub answered with an error status. */
  predicate Refused(reply: Reply) {
    match reply
    case Returned(status) => 400 <= status < 600
    case Raised(_, _) => true
  }

  predicate Retryable(reply: Reply) {
    reply.Raised? && reply.retryable
  }

  /** Posting raises exactly when the pull request cannot be read, or, if it still is at the unit's
      commit, its reviews cannot be listed or the missing review is refused; an error status is never
      worth a retry. */
  lemma PostingRaises(pull: Pull, unit: nat, sha: string, review: Review, r: Replies)
    ensures var o := Posting(pull, unit, sha, review, r); var current := pull.open && pull.head == sha;
            var refused := Refused(r.listing) || (!AlreadyPosted(pull, unit) && Refused(Deciding(review, r)));
            var retryable := Retryable(r.listing) ||
                             (!Refused(r.listing) && !AlreadyPosted(pull, unit) && Retryable(Deciding(review, r)));
            && (o.raise.Some? <==> (Refused(r.pull) || (current && refused)))
            && (o.raise == Some(true) <==> (Retryable(r.pull) || (!Refused(r.pull) && current && retryable)))
  {
    assert forall reply: Reply :: reply.Raises() <==> Refused(reply);
    assert forall reply: Reply :: reply.Exception() == Some(true) <==> Retryable(reply);
  }

  /** The review went up and the answer was lost: the publish is tried again. */
  predicate LosesAnswer(pull: Pull, unit: nat, sha: string, review: Review, r: Replies) {
    Submits(pull, unit, sha, r) && Deciding(review, r) == Raised(true, true)
  }

  /** The reviews after posting once for each of `tries`. */
  function PostingAll(pull: Pull, unit: nat, sha: string, review: Review, tries: seq<Replies>): seq<Review> {
    if tries == [] then pull.reviews
    else
      var before := PostingAll(pull, unit, sha, review, tries[..|tries| - 1]);
      Posting(pull.(reviews := before), unit, sha, review, tries[|tries| - 1]).reviews
  }

  lemma {:induction false} NothingMoreIsPosted(pull: Pull, unit: nat, sha: string, review: Review, tries: seq<Replies>)
    requires AlreadyPosted(pull, unit)
    ensures PostingAll(pull, unit, sha, review, tries) == pull.reviews
  {
    if tries != [] {
      NothingMoreIsPosted(pull, unit, sha, review, tries[..|tries| - 1]);
    }
  }

  /** Once a review went up and the answer was lost, the retries post nothing more, whatever the
      replies, exactly when the report's body carries the marker and fewer than a page of reviews came
      before. */
  lemma RetriesPostOnce(pull: Pull, unit: nat, sha: string, review: Review, r: Replies)
    requires LosesAnswer(pull, unit, sha, review, r)
    ensures var o := Posting(pull, unit, sha, review, r);
            && o.raise == Some(true) && |o.reviews| == |pull.reviews| + 1
            && ((forall tries :: PostingAll(pull.(reviews := o.reviews), unit, sha, review, tries) == o.reviews) <==>
                  |pull.reviews| < 100 && Occurs(Marker(unit), review.body))
  {
    var posted := Posting(pull, unit, sha, review, r).reviews;
    var after := pull.(reviews := posted);
    PostingPosts(pull, unit, sha, review, r);
    assert forall k | 0 <= k < |pull.reviews| :: posted[k] == posted[..|pull.reviews|][k];
    if AlreadyPosted(after, unit) {
      forall tries
        ensures PostingAll(after, unit, sha, review, tries) == posted
      {
        NothingMoreIsPosted(after, unit, sha, review, tries);
      }
    } else {
      var ok := [Replies(OK, OK, OK, OK)];
      assert ok[..0] == [];
      assert PostingAll(after, unit, sha, review, ok) == posted + [review];
    }
  }

  /** For the body of a report: exactly when it was not cut or an earlier copy of the marker is kept. */
  lemma RetriedReportPostsOnce(pull: Pull, unit: nat, sha: string, summary: string, unplaced: seq<string>,
                               comments: seq<InlineComment>, r: Replies)
    requires LosesAnswer(pull, unit, sha, Review(ReviewBody(summary, unplaced, unit), comments), r)
    ensures var review := Review(ReviewBody(summary, unplaced, unit), comments);
            var posted := Posting(pull, unit, sha, review, r).reviews;
            var full := FullBody(summary, unplaced, unit);
            (forall tries :: PostingAll(pull.(reviews := posted), unit, sha, review, tries) == posted) <==>
              && |pull.reviews| < 100
              && (|full| <= 60_000 || Occurs(Marker(unit), full[..60_000 - |NOTICE|]))
  {
    RetriesPostOnce(pull, unit, sha, Review(ReviewBody(summary, unplaced, unit), comments), r);
    MarkerSurvives(summary, unplaced, unit);
  }

  // ---- a report that is too long ----

  const LONG_LINE := seq(60_000, _ => 'x')

  lemma LongBody(summary: string, unit: nat)
    ensures FullBody(summary, [LONG_LINE], unit) == (summary + ("\n\n" + OUTSIDE + "\n") + LONG_LINE) + ("\n\n" + Marker(unit))
  {
    BodyIsInOrder(summary, [LONG_LINE], unit);
    assert [LONG_LINE][1..] == [];
    assert OwnLines([LONG_LINE]) == "\n" + LONG_LINE;
  }

  /** One finding of 60,000 characters outside the changed lines pushes the marker out of the body. */
  lemma ALongReportLosesItsMarker(summary: string, unit: nat)
    requires '<' !in summary
    ensures !Occurs(Marker(unit), ReviewBody(summary, [LONG_LINE], unit))
  {
    var full := FullBody(summary, [LONG_LINE], unit);
    LongBody(summary, unit);
    var kept := full[..MAX_REVIEW_BODY - |NOTICE|];
    var front := summary + ("\n\n" + OUTSIDE + "\n") + LONG_LINE;
    assert '<' !in OUTSIDE;
    assert kept == front[..MAX_REVIEW_BODY - |NOTICE|];
    forall i | 0 <= i < |kept|
      ensures kept[i] != '<'
    {
      assert kept[i] == front[i] && front[i] in front;
    }
    MarkerSurvives(summary, [LONG_LINE], unit);
    MarkerIsOneLine(unit);
    NeedsItsFirst(Marker(unit), kept);
  }

  // ---- the check run ----

  function BatchCount(annotations: seq<Annotation>): nat {
    (|annotations| + ANNOTATIONS_PER_REQUEST - 1) / ANNOTATIONS_PER_REQUEST
  }

  /** Where the first `k` batches end. */
  function BatchEnd(annotations: seq<Annotation>, k: nat): nat {
    if ANNOTATIONS_PER_REQUEST * k < |annotations| then ANNOTATIONS_PER_REQUEST * k else |annotations|
  }

  function Batches(annotations: seq<Annotation>): (batches: seq<seq<Annotation>>)
    ensures forall k | 0 <= k < |batches| :: 1 <= |batches[k]| <= 50
    ensures forall k | 0 <= k < |batches| - 1 :: |batches[k]| == 50
  {
    assert forall k | 0 <= k < BatchCount(annotations) :: BatchEnd(annotations, k) == ANNOTATIONS_PER_REQUEST * k < |annotations|;
    seq(BatchCount(annotations), k requires 0 <= k < BatchCount(annotations) =>
      annotations[BatchEnd(annotations, k)..BatchEnd(annotations, k + 1)])
  }

  function Flatten(batches: seq<seq<Annotation>>): seq<Annotation> {
    if batches == [] then [] else Flatten(batches[..|batches| - 1]) + batches[|batches| - 1]
  }

  lemma {:induction false} FirstBatchesFlatten(annotations: seq<Annotation>, k: nat)
    requires k <= BatchCount(annotations)
    ensures Flatten(Batches(annotations)[..k]) == annotations[..BatchEnd(annotations, k)]
  {
    if k > 0 {
      FirstBatchesFlatten(annotations, k - 1);
      assert Batches(annotations)[..k][..k - 1] == Batches(annotations)[..k - 1];
    }
  }

  /** Nothing is lost or reordered by batching. */
  lemma BatchesFlatten(annotations: seq<Annotation>)
    ensures Flatten(Batches(annotations)) == annotations
  {
    FirstBatchesFlatten(annotations, BatchCount(annotations));
    assert Batches(annotations)[..BatchCount(annotations)] == Batches(annotations);
  }

  datatype CheckRun = CheckRun(completed: bool, annotations: seq<Annotation>)

  /** The check run once `carried` requests have been carried out. */
  function Sent(run: CheckRun, annotations: seq<Annotation>, carried: nat): CheckRun {
    if carried == 0 then run else CheckRun(true, run.annotations + annotations[..BatchEnd(annotations, carried)])
  }

  lemma AllSent(run: CheckRun, annotations: seq<Annotation>)
    ensures Sent(run, annotations, Requests(annotations)) == CheckRun(true, run.annotations + annotations)
  {
    assert annotations[..BatchEnd(annotations, Requests(annotations))] == annotations;
  }

  lemma AppendBatch(run: CheckRun, annotations: seq<Annotation>, k: nat)
    requires 1 <= k < BatchCount(annotations)
    ensures Sent(run, annotations, k + 1) == CheckRun(true, Sent(run, annotations, k).annotations + Batches(annotations)[k])
  {
    var before := annotations[..BatchEnd(annotations, k)];
    assert before + Batches(annotations)[k] == annotations[..BatchEnd(annotations, k + 1)];
    assert run.annotations + before + Batches(annotations)[k] == run.annotations + (before + Batches(annotations)[k]);
  }

  /** The repository's check runs; ids are handed out in order. */
  datatype Runs = Runs(byId: map<nat, CheckRun>, next: nat)
  {
    ghost predicate Valid() {
      forall id | id in byId :: id < next
    }
  }

  function Requests(annotations: seq<Annotation>): nat {
    if annotations == [] then 1 else BatchCount(annotations)
  }

  /** A run id of 0 counts as none. */
  predicate Known(runId: Option<nat>) {
    runId.Some? && runId.value != 0
  }

  datatype Progress = Progress(carried: nat, raise: Option<bool>)

  /** Requests `k..n`, one after the other until one raises: how many of all `n` are carried out. */
  function Requesting(replies: nat -> Reply, k: nat, n: nat): (p: Progress)
    requires k <= n
    ensures k <= p.carried <= n && (p.raise.None? ==> p.carried == n)
    decreases n - k
  {
    if k == n then Progress(n, None)
    else if replies(k).Raises() then Progress(if replies(k).CarriedOut() then k + 1 else k, replies(k).Exception())
    else Requesting(replies, k + 1, n)
  }

  /** The requests go on to the first that is refused; that one counts if it was carried out. */
  lemma {:induction false} RequestsStopAtTheFirst(replies: nat -> Reply, k: nat, n: nat)
    requires k <= n
    ensures var p := Requesting(replies, k, n);
            if p.raise.None? then p.carried == n && forall j | k <= j < n :: !Refused(replies(j))
            else exists j | k <= j < n ::
                   && Refused(replies(j)) && (forall i | k <= i < j :: !Refused(replies(i)))
                   && p.raise == Some(Retryable(replies(j)))
                   && p.carried == if replies(j).Raised? && replies(j).carriedOut then j + 1 else j
    decreases n - k
  {
    if k < n && !Refused(replies(k)) {
      RequestsStopAtTheFirst(replies, k + 1, n);
    }
  }

  datatype Completion = Completion(runs: Runs, id: nat, raise: Option<bool>)

  /** What completing a check run does. Updating an unknown run is an error; a run created here is
      known to nobody else. */
  function Completing(runs: Runs, runId: Option<nat>, annotations: seq<Annotation>, replies: nat -> Reply): Completion {
    var id := if Known(runId) then runId.value else runs.next;
    if Known(runId) && id !in runs.byId then Completion(runs, id, Some(replies(0).Raised? && replies(0).retryable))
    else
      var p := Requesting(replies, 0, Requests(annotations));
      if p.carried == 0 then Completion(runs, id, p.raise)
      else
        var run := if Known(runId) then runs.byId[id] else CheckRun(false, []);
        Completion(Runs(runs.byId[id := Sent(run, annotations, p.carried)], if Known(runId) then runs.next else runs.next + 1), id, p.raise)
  }

  // ---- finish, and finish again ----

  /** `pullRequest`: the unit is a pull request with a number. */
  datatype Target = Target(unit: nat, sha: string, pullRequest: bool, runId: Option<nat>)

  datatype World = World(pull: Pull, runs: Runs)

  /** The replies of one `finish`: to the check run's requests, then to the review's. */
  datatype Attempt = Attempt(checks: nat -> Reply, posts: Replies)

  datatype Finished = Finished(world: World, raise: Option<bool>)

  function Finishing(w: World, t: Target, annotations: seq<Annotation>, review: Review, a: Attempt): Finished {
    var c := Completing(w.runs, t.runId, annotations, a.checks);
    if c.raise.Some? || !t.pullRequest then Finished(World(w.pull, c.runs), c.raise)
    else
      var o := Posting(w.pull, t.unit, t.sha, review, a.posts);
      Finished(World(w.pull.(reviews := o.reviews), c.runs), o.raise)
  }

  /** The review is only posted once the check run is completed: it goes up exactly when every request
      of the check run went through, and then for a pull request as `PostingPosts` says. */
  lemma ReviewComesAfterTheChecks(w: World, t: Target, annotations: seq<Annotation>, review: Review, a: Attempt)
    ensures var f := Finishing(w, t, annotations, review, a);
            var known := Known(t.runId) ==> t.runId.value in w.runs.byId;
            && (f.world.pull.reviews != w.pull.reviews <==>
                  && t.pullRequest && known && ChecksGoThrough(annotations, a)
                  && Submits(w.pull, t.unit, t.sha, a.posts) && Deciding(review, a.posts).CarriedOut())
            && f.world.pull == w.pull.(reviews := f.world.pull.reviews)
            && (f.raise.None? <==>
                  && known && ChecksGoThrough(annotations, a)
                  && (t.pullRequest ==> Posting(w.pull, t.unit, t.sha, review, a.posts).raise.None?))
  {
    PostingPosts(w.pull, t.unit, t.sha, review, a.posts);
  }

  /** What a publish leaves when `finish` was called once for each of `attempts`. */
  function FinishingAll(w: World, t: Target, annotations: seq<Annotation>, review: Review, attempts: seq<Attempt>): World {
    if attempts == [] then w
    else
      var n := |attempts| - 1;
      Finishing(FinishingAll(w, t, annotations, review, attempts[..n]), t, annotations, review, attempts[n]).world
  }

  function CarriedBy(annotations: seq<Annotation>, a: Attempt): nat {
    Requesting(a.checks, 0, Requests(annotations)).carried
  }

  predicate ChecksGoThrough(annotations: seq<Annotation>, a: Attempt) {
    Requesting(a.checks, 0, Requests(annotations)).raise.None?
  }

  /** The annotations one attempt sends. */
  function SentBy(annotations: seq<Annotation>, a: Attempt): seq<Annotation> {
    if CarriedBy(annotations, a) == 0 then [] else annotations[..BatchEnd(annotations, CarriedBy(annotations, a))]
  }

  function SentByAll(annotations: seq<Annotation>, attempts: seq<Attempt>): seq<Annotation> {
    if attempts == [] then [] else SentByAll(annotations, attempts[..|attempts| - 1]) + SentBy(annotations, attempts[|attempts| - 1])
  }

  /** A recorded run collects what every attempt sends, and no other run changes. */
  lemma {:induction false} KnownRunCollects(w: World, t: Target, annotations: seq<Annotation>, review: Review, attempts: seq<Attempt>)
    requires t.runId.Some? && t.runId.value != 0 && t.runId.value in w.runs.byId
    ensures var id, after := t.runId.value, FinishingAll(w, t, annotations, review, attempts).runs;
            && id in after.byId && after == w.runs.(byId := w.runs.byId[id := after.byId[id]])
            && after.byId[id].annotations == w.runs.byId[id].annotations + SentByAll(annotations, attempts)
  {
    var id := t.runId.value;
    if attempts == [] {
      assert w.runs.byId[id].annotations + [] == w.runs.byId[id].annotations;
    } else {
      var n := |attempts| - 1;
      KnownRunCollects(w, t, annotations, review, attempts[..n]);
      var before := FinishingAll(w, t, annotations, review, attempts[..n]).runs.byId[id];
      var sent := SentBy(annotations, attempts[n]);
      assert w.runs.byId[id].annotations + SentByAll(annotations, attempts[..n]) + sent ==
             w.runs.byId[id].annotations + (SentByAll(annotations, attempts[..n]) + sent);
      assert before.annotations + [] == before.annotations;
    }
  }

  lemma {:induction false} NothingSent(annotations: seq<Annotation>, attempts: seq<Attempt>)
    ensures SentByAll(annotations, attempts) == [] <==>
              forall i | 0 <= i < |attempts| :: CarriedBy(annotations, attempts[i]) == 0 || annotations == []
  {
    if attempts != [] {
      var n := |attempts| - 1;
      NothingSent(annotations, attempts[..n]);
      assert forall i | 0 <= i < n :: attempts[..n][i] == attempts[i];
      SentSomething(annotations, attempts[n]);
    }
  }

  lemma SentSomething(annotations: seq<Annotation>, a: Attempt)
    ensures SentBy(annotations, a) == [] <==> CarriedBy(annotations, a) == 0 || annotations == []
    ensures ChecksGoThrough(annotations, a) ==> SentBy(annotations, a) == annotations
  {
    if ChecksGoThrough(annotations, a) {
      assert annotations[..BatchEnd(annotations, Requests(annotations))] == annotations;
    }
  }

  lemma OnceIfNothingBefore(own: seq<Annotation>, sent: seq<Annotation>, annotations: seq<Annotation>)
    ensures own + (sent + annotations) == own + annotations <==> sent == []
  {
    assert |own + (sent + annotations)| == |own + annotations| + |sent|;
    if sent == [] {
      assert sent + annotations == annotations;
    }
  }

  lemma LastSendsAll(annotations: seq<Annotation>, failed: seq<Attempt>, last: Attempt)
    requires ChecksGoThrough(annotations, last)
    ensures SentByAll(annotations, failed + [last]) == SentByAll(annotations, failed) + annotations
  {
    assert (failed + [last])[..|failed|] == failed;
    SentSomething(annotations, last);
  }

  lemma LastCompletes(w: World, t: Target, annotations: seq<Annotation>, review: Review, failed: seq<Attempt>, last: Attempt)
    requires t.runId.Some? && t.runId.value != 0 && t.runId.value in w.runs.byId && ChecksGoThrough(annotations, last)
    ensures var after := FinishingAll(w, t, annotations, review, failed + [last]).runs;
            t.runId.value in after.byId && after.byId[t.runId.value].completed
  {
    assert (failed + [last])[..|failed|] == failed;
    KnownRunCollects(w, t, annotations, review, failed);
  }

  /** Once the check run's requests go through, a recorded run has every annotation once exactly when
      no attempt before sent one, wherever those attempts raised, at the review's requests too. */
  lemma RetryRepeatsAnnotations(w: World, t: Target, annotations: seq<Annotation>, review: Review, failed: seq<Attempt>, last: Attempt)
    requires t.runId.Some? && t.runId.value != 0 && t.runId.value in w.runs.byId && ChecksGoThrough(annotations, last)
    ensures var id, after := t.runId.value, FinishingAll(w, t, annotations, review, failed + [last]).runs;
            && id in after.byId && after.byId[id].completed
            && (after.byId[id].annotations == w.runs.byId[id].annotations + annotations <==>
                  forall i | 0 <= i < |failed| :: CarriedBy(annotations, failed[i]) == 0 || annotations == [])
  {
    LastCompletes(w, t, annotations, review, failed, last);
    KnownRunCollects(w, t, annotations, review, failed + [last]);
    LastSendsAll(annotations, failed, last);
    NothingSent(annotations, failed);
    OnceIfNothingBefore(w.runs.byId[t.runId.value].annotations, SentByAll(annotations, failed), annotations);
  }

  /** The runs the attempts create when none is recorded: one for each that gets a request through. */
  function MadeByAll(annotations: seq<Annotation>, attempts: seq<Attempt>): seq<CheckRun> {
    if attempts == [] then []
    else
      var a := attempts[|attempts| - 1];
      MadeByAll(annotations, attempts[..|attempts| - 1]) +
      if CarriedBy(annotations, a) == 0 then [] else [CheckRun(true, SentBy(annotations, a))]
  }

  ghost predicate Added(before: Runs, made: seq<CheckRun>, after: Runs) {
    && after.next == before.next + |made|
    && (forall j | 0 <= j < |made| :: before.next + j in after.byId && after.byId[before.next + j] == made[j])
    && (forall id :: id in after.byId <==> id in before.byId || before.next <= id < after.next)
    && (forall id | id in before.byId :: after.byId[id] == before.byId[id])
  }

  lemma AddedOneMore(before: Runs, made: seq<CheckRun>, after: Runs, run: CheckRun)
    requires before.Valid() && Added(before, made, after)
    ensures Added(before, made + [run], Runs(after.byId[after.next := run], after.next + 1))
  {
  }

  lemma {:induction false} UnknownRunsAreMade(w: World, t: Target, annotations: seq<Annotation>, review: Review, attempts: seq<Attempt>)
    requires (t.runId == None || t.runId == Some(0)) && w.runs.Valid()
    ensures Added(w.runs, MadeByAll(annotations, attempts), FinishingAll(w, t, annotations, review, attempts).runs)
  {
    if attempts != [] {
      var n := |attempts| - 1;
      UnknownRunsAreMade(w, t, annotations, review, attempts[..n]);
      var before := FinishingAll(w, t, annotations, review, attempts[..n]).runs;
      var made := MadeByAll(annotations, attempts[..n]);
      var sent := SentBy(annotations, attempts[n]);
      assert [] + sent == sent;
      if CarriedBy(annotations, attempts[n]) == 0 {
        assert made + [] == made;
      } else {
        AddedOneMore(w.runs, made, before, CheckRun(true, sent));
      }
    }
  }

  lemma {:induction false} NothingMade(annotations: seq<Annotation>, attempts: seq<Attempt>)
    ensures MadeByAll(annotations, attempts) == [] <==> forall i | 0 <= i < |attempts| :: CarriedBy(annotations, attempts[i]) == 0
  {
    if attempts != [] {
      var n := |attempts| - 1;
      NothingMade(annotations, attempts[..n]);
      assert forall i | 0 <= i < n :: attempts[..n][i] == attempts[i];
    }
  }

  /** Without a recorded run every attempt that gets a request through makes a run of its own: the last
      has all annotations, and it is the only one exactly when no request before was carried out. */
  lemma RetryMakesASecondRun(w: World, t: Target, annotations: seq<Annotation>, review: Review, failed: seq<Attempt>, last: Attempt)
    requires (t.runId == None || t.runId == Some(0)) && w.runs.Valid() && ChecksGoThrough(annotations, last)
    ensures var made, after := MadeByAll(annotations, failed), FinishingAll(w, t, annotations, review, failed + [last]).runs;
            && Added(w.runs, made + [CheckRun(true, annotations)], after)
            && (after.next == w.runs.next + 1 <==> forall i | 0 <= i < |failed| :: CarriedBy(annotations, failed[i]) == 0)
  {
    assert (failed + [last])[..|failed|] == failed;
    UnknownRunsAreMade(w, t, annotations, review, failed + [last]);
    SentSomething(annotations, last);
    NothingMade(annotations, failed);
  }

  /** One annotation, every check-run request answered, and the review's answer a server error: the
      retry annotates the finding again. */
  lemma OneAnnotationIsRepeated(w: World, t: Target, a: Annotation, review: Review)
    requires Known(t.runId) && t.runId.value in w.runs.byId && w.runs.byId[t.runId.value].annotations == []
    requires t.pullRequest && Submits(w.pull, t.unit, t.sha, Replies(OK, OK, OK, OK))
    ensures var first := Finishing(w, t, [a], review, Attempt(_ => OK, Replies(OK, OK, Raised(false, true), OK)));
            var second := Finishing(first.world, t, [a], review, Attempt(_ => OK, Replies(OK, OK, OK, OK)));
            && first.raise == Some(true) && second.raise == None
            && t.runId.value in second.world.runs.byId && second.world.runs.byId[t.runId.value] == CheckRun(true, [a, a])
  {
    var id := t.runId.value;
    assert Requesting(_ => OK, 0, Requests([a])) == Progress(1, None);
    assert [a][..BatchEnd([a], 1)] == [a];
    assert [] + [a] == [a] && [a] + [a] == [a, a];
    assert w.pull.reviews + [] == w.pull.reviews;
  }

  /** Fifty-one annotations, the second request failing: the retry sends the first fifty again. */
  lemma FiftyAnnotationsAreRepeated(runs: Runs, id: nat, a: Annotation)
    requires id != 0 && id in runs.byId && runs.byId[id].annotations == []
    ensures var annotations := seq(51, _ => a);
            var first := Completing(runs, Some(id), annotations, k => if k == 0 then OK else Raised(false, true));
            && first.raise == Some(true)
            && Completing(first.runs, Some(id), annotations, _ => OK).runs.byId[id] == CheckRun(true, seq(50, _ => a) + annotations)
  {
    var annotations := seq(51, _ => a);
    var replies: nat -> Reply := k => if k == 0 then OK else Raised(false, true);
    assert Requests(annotations) == 2 && BatchEnd(annotations, 1) == 50;
    assert Requesting(replies, 0, 2) == Requesting(replies, 1, 2) == Progress(1, Some(true));
    assert Requesting(_ => OK, 0, 2) == Requesting(_ => OK, 1, 2) == Requesting(_ => OK, 2, 2) == Progress(2, None);
    assert [] + annotations[..50] == seq(50, _ => a);
    AllSent(CheckRun(true, seq(50, _ => a)), annotations);
  }

  /** Such a report, whose answer is lost, is posted again by the retry. */
  lemma ALongReportIsPostedTwice(summary: string, t: Target, runs: Runs, comments: seq<InlineComment>)
    requires '<' !in summary && t.pullRequest && !Known(t.runId)
    ensures var review := Review(ReviewBody(summary, [LONG_LINE], t.unit), comments);
            var first := Finishing(World(Pull(true, t.sha, []), runs), t, [], review, Attempt(_ => OK, Replies(OK, OK, Raised(true, true), OK)));
            var second := Finishing(first.world, t, [], review, Attempt(_ => OK, Replies(OK, OK, OK, OK)));
            && first.raise == Some(true) && first.world.pull.reviews == [review]
            && second.raise == None && second.world.pull.reviews == [review, review]
  {
    ALongReportLosesItsMarker(summary, t.unit);
    assert Marker(t.unit) != "" by {
      MarkerIsOneLine(t.unit);
    }
  }

  /** And when GitHub rejects its inline comments, the fallback posts the body without them. */
  lemma ALongReportLosesItsComments(summary: string, t: Target, runs: Runs, comments: seq<InlineComment>)
    requires '<' !in summary && t.pullRequest && !Known(t.runId) && comments != []
    ensures var body := ReviewBody(summary, [LONG_LINE], t.unit);
            Finishing(World(Pull(true, t.sha, []), runs), t, [], Review(body, comments), Attempt(_ => OK, Replies(OK, OK, Returned(422), OK)))
              .world.pull.reviews == [Review(body, [])]
  {
    ALongReportLosesItsMarker(summary, t.unit);
    FallbackKeepsComments(ReviewBody(summary, [LONG_LINE], t.unit), t.unit, comments);
  }

  /** What the publisher sees of GitHub: one pull request and the repository's check runs. */
  class GitHub {
    var pull: Pull
    var runs: Runs

    method CompleteCheckRun(runId: Option<nat>, annotations: seq<Annotation>, replies: nat -> Reply) returns (raise: Option<bool>, id: nat)
      modifies this`runs
      ensures Completion(runs, id, raise) == Completing(old(runs), runId, annotations, replies)
    {
      id := if Known(runId) then runId.value else runs.next;
      var batches := if annotations == [] then [[]] else Batches(annotations);
      if Known(runId) && id !in runs.byId {
        return Some(replies(0).Raised? && replies(0).retryable), id;
      }
      var run := CheckRun(false, []);
      if Known(runId) {
        run := runs.byId[id];
      }
      if replies(0).CarriedOut() {
        runs := Runs(runs.byId[id := CheckRun(true, run.annotations + batches[0])], if Known(runId) then runs.next else runs.next + 1);
      }
      if replies(0).Raises() {
        return replies(0).Exception(), id;
      }
      for k := 1 to |batches|
        invariant Requesting(replies, 0, |batches|) == Requesting(replies, k, |batches|)
        invariant runs == Runs(old(runs).byId[id := Sent(run, annotations, k)], if Known(runId) then old(runs).next else old(runs).next + 1)
      {
        AppendBatch(run, annotations, k);
        if replies(k).CarriedOut() {
          runs := runs.(byId := runs.byId[id := CheckRun(runs.byId[id].completed, runs.byId[id].annotations + batches[k])]);
        }
        if replies(k).Raises() {
          return replies(k).Exception(), id;
        }
      }
      raise := None;
    }

    method PostPullRequestReview(unit: nat, sha: string, review: Review, r: Replies) returns (raise: Option<bool>)
      modifies this`pull
      ensures Outcome(pull.reviews, raise) == Posting(old(pull), unit, sha, review, r)
      ensures pull == old(pull).(reviews := pull.reviews)
    {
      if r.pull.Raises() {
        return r.pull.Exception();
      }
      if !pull.open || pull.head != sha {
        return None;
      }
      if r.listing.Raises() {
        return r.listing.Exception();
      }
      if AlreadyPosted(pull, unit) {
        return None;
      }
      var reply, posted := r.first, review;
      if reply == Returned(422) && review.comments != [] {
        reply, posted := r.second, Review(FallbackBody(review.body, unit, review.comments), []);
      }
      if reply.CarriedOut() {
        pull := pull.(reviews := pull.reviews + [posted]);
      }
      raise := reply.Exception();
    }

    method Finish(t: Target, annotations: seq<Annotation>, review: Review, a: Attempt) returns (raise: Option<bool>)
      modifies this
      ensures Finished(World(pull, runs), raise) == Finishing(old(World(pull, runs)), t, annotations, review, a)
    {
      var id;
      raise, id := CompleteCheckRun(t.runId, annotations, a.checks);
      if raise.None? && t.pullRequest {
        raise := PostPullRequestReview(t.unit, t.sha, review, a.posts);
      }
    }
  }
}
