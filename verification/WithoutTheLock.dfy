/** The same protocol without `FOR SHARE`: a follower reads "streaming", the owner completes and
    moves every attached review, and the follower then attaches as streaming for good. */
module WithoutTheLock {
  import opened Rows
  import opened Text
  import opened CacheService
  import opened Protocol
  import opened FollowerCoherence
  import opened OwnerRun

  const Follow := Claim(0, false, ResultStatus.Streaming, 1)

  lemma FollowerClaims()
    ensures Reachable(Setting(false), Both(StreamingCache, Generating(1, ["x"], 0, 0), Claimed(Follow, 0), [(0, 1)], Streamed))
  {
    OwnerStreams(Setting(false));
    var g := Generating(1, ["x"], 0, 0);
    var s0, s1 := Both(StreamingCache, g, FilePc.Queued, [(0, 1)], Streamed), Both(StreamingCache, g, Started, [(0, 1)], Streamed);
    var s2, s3 := Both(StreamingCache, g, Setup, [(0, 1)], Streamed), Both(StreamingCache, g, Claimed(Follow, 0), [(0, 1)], Streamed);
    Step(Setting(false), s0, Outside(Deliver(2)), s1);
    Step(Setting(false), s1, OfFile(2, LoadReview), s2);
    assert ClaimResultStep(Setting(false), s2, 2, s3);
    Step(Setting(false), s2, OfFile(2, FileAction.ClaimResult), s3);
  }

  const LeftBehind := ReviewRow(ReviewStatus.Streaming, Some(0), true)
  const Incoherent := Cache(Row(ResultStatus.Complete, "x"), Reviews(Done, LeftBehind))

  lemma FollowerReads()
    ensures Reachable(Setting(false), Both(StreamingCache, Generating(1, ["x"], 0, 0), Attaching(Follow, 0, ResultStatus.Streaming), [(0, 1)], Streamed))
  {
    FollowerClaims();
    var g := Generating(1, ["x"], 0, 0);
    var s0, s1 := Both(StreamingCache, g, Claimed(Follow, 0), [(0, 1)], Streamed), Both(StreamingCache, g, Attaching(Follow, 0, ResultStatus.Streaming), [(0, 1)], Streamed);
    Step(Setting(false), s0, OfFile(2, AttachRead), s1);
  }

  lemma OwnerCompletes()
    ensures Reachable(Setting(false), Both(CompleteCache, Announcing(1), Attaching(Follow, 0, ResultStatus.Streaming), [(0, 1)], Streamed))
  {
    FollowerReads();
    var f := Attaching(Follow, 0, ResultStatus.Streaming);
    var s1 := Both(StreamingCache, Generating(1, ["x"], 0, 0), f, [(0, 1)], Streamed);
    var s2 := Both(CompleteCache, Announcing(1), f, [(0, 1)], Streamed);
    OneDelta();
    assert CompleteTx(StreamingCache, 0, "x").reviews == CompleteCache.reviews;
    Step(Setting(false), s1, OfFile(1, FileAction.CompleteResult), s2);
  }

  /** A reachable state in which an attached review is not complete although its result is. */
  lemma FollowersCanBeLeftBehind()
    ensures exists s :: Reachable(Setting(false), s) && !ReviewsFollow(s.cache)
  {
    OwnerCompletes();
    var s0 := Both(CompleteCache, Announcing(1), Attaching(Follow, 0, ResultStatus.Streaming), [(0, 1)], Streamed);
    var s1 := Both(Incoherent, Announcing(1), Scheduling, [(0, 1)], Streamed);
    Step(Setting(false), s0, OfFile(2, AttachWrite), s1);
    assert B in s1.cache.reviews && s1.cache.results[0].status.Complete?;
  }
}
