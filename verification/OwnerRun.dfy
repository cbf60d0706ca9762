/** A run in which an owner claims, attaches and streams one delta while a second review of the same
    key waits in the queue. */
module OwnerRun {
  import opened Rows
  import opened Text
  import opened CacheService
  import opened Protocol

  const A := ReviewId(0, 0)
  const B := ReviewId(0, 1)

  /** Both reviews have the same key; nothing else about the settings matters but the lock. */
  function Setting(locking: bool): Config {
    Config(r => 0, 300, 3, 30, true, locking)
  }

  function At(cache: Cache, tasks: map<TaskId, Task>, nextId: TaskId, claims: seq<(Key, nat)>, streamed: map<(Key, nat), seq<string>>): State {
    State(cache, map[0 := PublishStatus.Pending], tasks, nextId, 0, claims, streamed, multiset{})
  }

  /** Both reviews are being worked on, `A` by task 1 and `B` by task 2. */
  function Both(cache: Cache, pcA: FilePc, pcB: FilePc, claims: seq<(Key, nat)>, streamed: map<(Key, nat), seq<string>>): State {
    At(cache, map[0 := CommitTask(0, 0, Fanning({})), 1 := FileTask(A, 0, pcA), 2 := FileTask(B, 0, pcB)], 3, claims, streamed)
  }

  function Row(status: ResultStatus, text: string): map<Key, ResultRow> {
    map[0 := ResultRow(status, text, 1, 0)]
  }

  function Reviews(a: ReviewRow, b: ReviewRow): map<ReviewId, ReviewRow> {
    map[A := a, B := b]
  }

  predicate SameKey(c: Config) {
    c.keyOf(A) == 0 && c.keyOf(B) == 0
  }

  predicate IsTick(a: Action) {
    a.Outside? && a.oa.Tick?
  }

  /** Some run ends in `s` without any time passing. */
  ghost predicate Reachable(c: Config, s: State) {
    exists states, actions :: Reaches(c, s, states, actions)
  }

  ghost predicate Reaches(c: Config, s: State, states: seq<State>, actions: seq<Action>) {
    Run(c, states, actions) && states[|states| - 1] == s && forall i | 0 <= i < |actions| :: !IsTick(actions[i])
  }

  lemma Step(c: Config, s: State, a: Action, s': State)
    requires Reachable(c, s) && Next(c, s, a, s') && !IsTick(a)
    ensures Reachable(c, s')
  {
    var states, actions :| Reaches(c, s, states, actions);
    assert Reaches(c, s', states + [s'], actions + [a]);
  }

  const New := ReviewRow(ReviewStatus.Pending, None, false)
  const Owned := ReviewRow(ReviewStatus.Streaming, Some(0), false)
  const Done := ReviewRow(ReviewStatus.Complete, Some(0), false)

  const Files := map[A := false, B := false]

  lemma Inserts(c: Config)
    requires SameKey(c)
    ensures Reachable(c, At(Cache(map[], Reviews(New, New)), map[0 := CommitTask(0, 0, Inserted)], 1, [], map[]))
  {
    var empty := Cache(map[], map[]);
    var s0 := State(empty, map[], map[], 0, 0, [], map[], multiset{});
    var s1 := At(empty, map[0 := CommitTask(0, 0, CommitPc.Queued)], 1, [], map[]);
    var s2 := At(empty, map[0 := CommitTask(0, 0, Listing)], 1, [], map[]);
    var s3 := At(Cache(map[], Reviews(New, New)), map[0 := CommitTask(0, 0, Inserted)], 1, [], map[]);
    assert Reaches(c, s0, [s0], []);
    Step(c, s0, Outside(Webhook(0)), s1);
    Step(c, s1, Outside(Deliver(0)), s2);
    assert InsertedRows(empty.reviews, Files) == Reviews(New, New);
    Step(c, s2, OfCommit(0, InsertReviews(Files)), s3);
  }

  lemma FansOut(c: Config)
    requires SameKey(c)
    ensures Reachable(c, Both(Cache(map[], Reviews(New, New)), FilePc.Queued, FilePc.Queued, [], map[]))
  {
    Inserts(c);
    var rows := Cache(map[], Reviews(New, New));
    var s3 := At(rows, map[0 := CommitTask(0, 0, Inserted)], 1, [], map[]);
    var s4 := At(rows, map[0 := CommitTask(0, 0, Fanning({A, B}))], 1, [], map[]);
    var s5 := At(rows, map[0 := CommitTask(0, 0, Fanning({B})), 1 := FileTask(A, 0, FilePc.Queued)], 2, [], map[]);
    var s6 := Both(rows, FilePc.Queued, FilePc.Queued, [], map[]);
    assert PendingReviews(rows, 0) == {A, B};
    Step(c, s3, OfCommit(0, SelectPending), s4);
    assert {A, B} - {A} == {B} && {B} - {B} == {};
    Step(c, s4, OfCommit(0, EnqueueReview(A)), s5);
    Step(c, s5, OfCommit(0, EnqueueReview(B)), s6);
  }

  lemma OwnerClaims(c: Config)
    requires SameKey(c)
    ensures Reachable(c, Both(Cache(Row(ResultStatus.Pending, ""), Reviews(New, New)),
                           Claimed(Claim(0, true, ResultStatus.Pending, 1), 0), FilePc.Queued, [(0, 1)], map[]))
  {
    FansOut(c);
    var q := FilePc.Queued;
    var rows := Cache(map[], Reviews(New, New));
    var s0, s1, s2 := Both(rows, q, q, [], map[]), Both(rows, Started, q, [], map[]), Both(rows, Setup, q, [], map[]);
    var s3 := Both(Cache(Row(ResultStatus.Pending, ""), Reviews(New, New)), Claimed(Claim(0, true, ResultStatus.Pending, 1), 0), q, [(0, 1)], map[]);
    Step(c, s0, Outside(Deliver(1)), s1);
    Step(c, s1, OfFile(1, LoadReview), s2);
    assert ClaimResultStep(c, s2, 1, s3);
    Step(c, s2, OfFile(1, FileAction.ClaimResult), s3);
  }

  lemma OwnerAttaches(c: Config)
    requires SameKey(c)
    ensures Reachable(c, Both(Cache(Row(ResultStatus.Pending, ""), Reviews(Owned, New)), Owning(1, 0), FilePc.Queued, [(0, 1)], map[]))
  {
    OwnerClaims(c);
    var q := FilePc.Queued;
    var claim := Claim(0, true, ResultStatus.Pending, 1);
    var cache := Cache(Row(ResultStatus.Pending, ""), Reviews(New, New));
    var s0, s1 := Both(cache, Claimed(claim, 0), q, [(0, 1)], map[]), Both(cache, Attaching(claim, 0, ResultStatus.Pending), q, [(0, 1)], map[]);
    var s2 := Both(Cache(Row(ResultStatus.Pending, ""), Reviews(Owned, New)), Owning(1, 0), q, [(0, 1)], map[]);
    Step(c, s0, OfFile(1, AttachRead), s1);
    Step(c, s1, OfFile(1, AttachWrite), s2);
  }

  const StreamingCache := Cache(Row(ResultStatus.Streaming, ""), Reviews(Owned, New))
  const Streamed: map<(Key, nat), seq<string>> := map[(0, 1) := ["x"]]

  lemma OwnerMarksStreaming(c: Config)
    requires SameKey(c)
    ensures Reachable(c, Both(StreamingCache, Preparing(1, 0), FilePc.Queued, [(0, 1)], map[]))
  {
    OwnerAttaches(c);
    var cache := Cache(Row(ResultStatus.Pending, ""), Reviews(Owned, New));
    var s0, s1 := Both(cache, Owning(1, 0), FilePc.Queued, [(0, 1)], map[]), Both(StreamingCache, Preparing(1, 0), FilePc.Queued, [(0, 1)], map[]);
    assert MarkStreamingTx(cache, 0, 0).reviews == StreamingCache.reviews;
    Step(c, s0, OfFile(1, FileAction.MarkStreaming), s1);
  }

  lemma OwnerStreams(c: Config)
    requires SameKey(c)
    ensures Reachable(c, Both(StreamingCache, Generating(1, ["x"], 0, 0), FilePc.Queued, [(0, 1)], Streamed))
  {
    OwnerMarksStreaming(c);
    var q := FilePc.Queued;
    var s1, s2 := Both(StreamingCache, Preparing(1, 0), q, [(0, 1)], map[]), Both(StreamingCache, Generating(1, [], 0, 0), q, [(0, 1)], map[(0, 1) := []]);
    var s3 := Both(StreamingCache, Generating(1, ["x"], 0, 0), q, [(0, 1)], Streamed);
    Step(c, s1, OfFile(1, EnterLoop), s2);
    assert [] + ["x"] == ["x"];
    Step(c, s2, OfFile(1, Delta("x")), s3);
  }

  const CompleteCache := Cache(Row(ResultStatus.Complete, "x"), Reviews(Done, New))

  lemma OneDelta()
    ensures Concat(["x"]) == "x" && !Blank("x")
  {
    assert ["x"][..0] == [] && Concat(["x"]) == Concat([]) + "x" == "x";
    assert !IsSpace("x"[0]);
  }
}
