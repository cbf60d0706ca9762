/** With the share lock held across `attach_review`, every review attached to a complete result is
    complete or skipped, whatever stale owners and takeovers do. Without it that is false. */
module FollowerCoherence {
  import opened Rows
  import opened CacheService
  import opened Protocol
  import opened Structure

  ghost predicate ReviewsFollow(cache: Cache) {
    forall r | r in cache.reviews && cache.reviews[r].result.Some? ::
      var k := cache.reviews[r].result.value;
      k in cache.results && cache.results[k].status.Complete? ==>
        cache.reviews[r].status.Complete? || cache.reviews[r].status.Skipped?
  }

  /** What a task read under the share lock is still true. */
  ghost predicate ReadHolds(cache: Cache, task: Task) {
    task.FileTask? && task.pc.Attaching? ==>
      task.pc.claim.key in cache.results && cache.results[task.pc.claim.key].status == task.pc.current
  }

  ghost predicate Coherent(s: State) {
    && ReviewsFollow(s.cache)
    && forall t | t in s.tasks :: ReadHolds(s.cache, s.tasks[t])
  }

  /** An UPDATE of `key`'s row, which the lock delays until nobody is attaching to it. */
  lemma UpdateKeeps(c: Config, s: State, key: Key, s': State)
    requires c.locking && Coherent(s) && Unlocked(c, s, key)
    requires ReviewsFollow(s'.cache)
    requires forall k | k in s.cache.results && k != key :: k in s'.cache.results && s'.cache.results[k].status == s.cache.results[k].status
    requires forall t | t in s'.tasks ::
      (t in s.tasks && s'.tasks[t] == s.tasks[t]) || ReadHolds(s'.cache, s'.tasks[t])
    ensures Coherent(s')
  {
    forall t | t in s'.tasks
      ensures ReadHolds(s'.cache, s'.tasks[t])
    {
      if t in s.tasks && s'.tasks[t] == s.tasks[t] {
        assert !HoldsShareLock(s.tasks[t], key);
        assert ReadHolds(s.cache, s.tasks[t]);
      }
    }
  }

  /** A step that changes no result's status. */
  lemma QuietKeeps(s: State, s': State)
    requires Coherent(s)
    requires ReviewsFollow(s'.cache)
    requires forall k | k in s.cache.results :: k in s'.cache.results && s'.cache.results[k].status == s.cache.results[k].status
    requires forall t | t in s'.tasks ::
      (t in s.tasks && s'.tasks[t] == s.tasks[t]) || ReadHolds(s'.cache, s'.tasks[t])
    ensures Coherent(s')
  {
    forall t | t in s'.tasks
      ensures ReadHolds(s'.cache, s'.tasks[t])
    {
      if t in s.tasks && s'.tasks[t] == s.tasks[t] {
        assert ReadHolds(s.cache, s.tasks[t]);
      }
    }
  }

  lemma OutsideKeepsCoherent(s: State, a: OutsideAction, s': State)
    requires Coherent(s) && OutsideNext(s, a, s')
    ensures Coherent(s')
  {
    QuietKeeps(s, s');
  }

  lemma CommitKeepsCoherent(s: State, t: TaskId, a: CommitAction, s': State)
    requires Coherent(s) && CommitNext(s, t, a, s')
    ensures Coherent(s')
  {
    QuietKeeps(s, s');
  }

  lemma PublishKeepsCoherent(c: Config, s: State, t: TaskId, a: PublishAction, s': State)
    requires Coherent(s) && PublishNext(c, s, t, a, s')
    ensures Coherent(s')
  {
    QuietKeeps(s, s');
  }

  lemma ClaimKeepsCoherent(c: Config, s: State, t: TaskId, s': State)
    requires c.locking && Structured(c, s) && Coherent(s) && ClaimResultStep(c, s, t, s')
    ensures Coherent(s')
  {
    var k := c.keyOf(s.tasks[t].review);
    if k in s.cache.results && s'.tasks[t].pc.claim.owner {
      UpdateKeeps(c, s, k, s');
    } else {
      QuietKeeps(s, s');
    }
  }

  lemma AttachWriteKeepsCoherent(c: Config, s: State, t: TaskId, s': State)
    requires Structured(c, s) && Coherent(s) && AttachWriteStep(s, t, s')
    ensures Coherent(s')
  {
    assert ReadHolds(s.cache, s.tasks[t]);
    QuietKeeps(s, s');
  }

  lemma MarkStreamingKeepsCoherent(c: Config, s: State, t: TaskId, s': State)
    requires c.locking && Structured(c, s) && Coherent(s) && MarkStreamingStep(c, s, t, s')
    ensures Coherent(s')
  {
    UpdateKeeps(c, s, c.keyOf(s.tasks[t].review), s');
  }

  lemma RefreshKeepsCoherent(c: Config, s: State, t: TaskId, s': State)
    requires Structured(c, s) && Coherent(s) && RefreshStep(c, s, t, s')
    ensures Coherent(s')
  {
    QuietKeeps(s, s');
  }

  lemma CompleteKeepsCoherent(c: Config, s: State, t: TaskId, s': State)
    requires c.locking && Structured(c, s) && Coherent(s) && CompleteResultStep(c, s, t, s')
    ensures Coherent(s')
  {
    UpdateKeeps(c, s, c.keyOf(s.tasks[t].review), s');
  }

  lemma FailKeepsCoherent(c: Config, s: State, t: TaskId, e: Error, s': State)
    requires c.locking && Structured(c, s) && Coherent(s) && GenerationFailsStep(c, s, t, e, s')
    ensures Coherent(s')
  {
    UpdateKeeps(c, s, c.keyOf(s.tasks[t].review), s');
  }

  lemma HandleErrorKeepsCoherent(c: Config, s: State, t: TaskId, s': State)
    requires Structured(c, s) && Coherent(s) && HandleErrorStep(c, s, t, s')
    ensures Coherent(s')
  {
    QuietKeeps(s, s');
  }

  lemma QuietFileKeepsCoherent(c: Config, s: State, t: TaskId, a: FileAction, s': State)
    requires Coherent(s) && FileNext(c, s, t, a, s')
    requires a.LoadReview? || a.SkipReview? || a.SourceFails? || a.AttachRead? || a.EnterLoop?
    ensures Coherent(s')
  {
    QuietKeeps(s, s');
  }

  lemma LateFileKeepsCoherent(c: Config, s: State, t: TaskId, a: FileAction, s': State)
    requires Coherent(s) && FileNext(c, s, t, a, s')
    requires a.Delta? || a.Announce? || a.ReadUnits? || a.TriggerUnit? || a.FileDone?
    ensures Coherent(s')
  {
    QuietKeeps(s, s');
  }

  lemma NextKeepsCoherent(c: Config, s: State, a: Action, s': State)
    requires c.locking && Structured(c, s) && Coherent(s) && Next(c, s, a, s')
    ensures Coherent(s')
  {
    match a
    case Outside(oa) => OutsideKeepsCoherent(s, oa, s');
    case OfCommit(t, ca) => CommitKeepsCoherent(s, t, ca, s');
    case OfPublish(t, pa) => PublishKeepsCoherent(c, s, t, pa, s');
    case OfFile(t, fa) =>
      match fa {
        case ClaimResult => ClaimKeepsCoherent(c, s, t, s');
        case AttachWrite => AttachWriteKeepsCoherent(c, s, t, s');
        case MarkStreaming => MarkStreamingKeepsCoherent(c, s, t, s');
        case Refresh => RefreshKeepsCoherent(c, s, t, s');
        case CompleteResult => CompleteKeepsCoherent(c, s, t, s');
        case GenerationFails(e) => FailKeepsCoherent(c, s, t, e, s');
        case HandleError => HandleErrorKeepsCoherent(c, s, t, s');
        case _ =>
          if fa.LoadReview? || fa.SkipReview? || fa.SourceFails? || fa.AttachRead? || fa.EnterLoop? {
            QuietFileKeepsCoherent(c, s, t, fa, s');
          } else {
            LateFileKeepsCoherent(c, s, t, fa, s');
          }
      }
  }

  lemma {:induction false} RunIsCoherent(c: Config, states: seq<State>, actions: seq<Action>, i: nat)
    requires Run(c, states, actions) && c.locking && i < |states|
    ensures Coherent(states[i])
  {
    if i > 0 {
      RunIsCoherent(c, states, actions, i - 1);
      RunIsStructured(c, states, actions, i - 1);
      assert Next(c, states[i - 1], actions[i - 1], states[i]);
      NextKeepsCoherent(c, states[i - 1], actions[i - 1], states[i]);
    }
  }
}
