/** With the lock held and every owner in time, a finished result still fails: announcing it raises
    after `complete` has committed, and `fail` then runs on it. */
module FailedAnnouncement {
  import opened Rows
  import opened Text
  import opened CacheService
  import opened Protocol
  import opened LiveLeases
  import opened NeverPartial
  import opened OwnerRun

  /** FAILED with its text, under a review that is complete. */
  const FailedCache := Cache(Row(ResultStatus.Failed, "x"), Reviews(Done, New))

  lemma OwnerAnnounces(c: Config)
    requires SameKey(c)
    ensures Reachable(c, Both(CompleteCache, Announcing(1), FilePc.Queued, [(0, 1)], Streamed))
  {
    OwnerStreams(c);
    var s1 := Both(StreamingCache, Generating(1, ["x"], 0, 0), FilePc.Queued, [(0, 1)], Streamed);
    var s2 := Both(CompleteCache, Announcing(1), FilePc.Queued, [(0, 1)], Streamed);
    OneDelta();
    assert CompleteTx(StreamingCache, 0, "x").reviews == CompleteCache.reviews;
    Step(c, s1, OfFile(1, FileAction.CompleteResult), s2);
  }

  lemma AFinishedResultCanFail(b: Bounds) returns (states: seq<State>, actions: seq<Action>)
    ensures Run(Setting(true), states, actions) && Setting(true).locking
    ensures forall j | 0 <= j < |actions| :: Timely(b, states[j], actions[j])
    ensures var last := states[|states| - 1];
            last.cache == FailedCache && !Whole(Setting(true), last)
  {
    var c := Setting(true);
    OwnerAnnounces(c);
    var s1 := Both(CompleteCache, Announcing(1), FilePc.Queued, [(0, 1)], Streamed);
    var s2 := Both(FailedCache, Raised(Other), FilePc.Queued, [(0, 1)], Streamed);
    assert FailTx(CompleteCache, 0, true).reviews == FailedCache.reviews;
    Step(c, s1, OfFile(1, GenerationFails(Other)), s2);
    states, actions :| Reaches(c, s2, states, actions);
    assert 0 in s2.cache.results && !ResultWhole(s2.cache, s2.streamed, 0);
  }
}
