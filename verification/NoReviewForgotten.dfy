/** A review that has not been started always has somebody bound to start it: a `review_file` for it,
    queued or under way, or a `review_commit` of its unit that will still enqueue one. */
module NoReviewForgotten {
  import opened Rows
  import opened CacheService
  import opened Protocol
  import opened Structure

  /** Pending, and attached to no result. */
  ghost predicate NotStarted(cache: Cache, r: ReviewId) {
    r in cache.reviews && cache.reviews[r].status == ReviewStatus.Pending && cache.reviews[r].result == None
  }

  ghost predicate WillStart(task: Task, r: ReviewId) {
    match task
    case CommitTask(u, _, cpc) => u == r.unit && !cpc.AllSkipped? && (cpc.Fanning? ==> r in cpc.pending)
    case FileTask(q, _, pc) =>
      q == r && !pc.Scheduling? && !pc.Triggering? && !pc.Owning? && !pc.Preparing? && !pc.Generating? && !pc.Refreshing? && !pc.Announcing?
    case PublishTask(_, _, _) => false
  }

  ghost predicate StartedBy(s: State, r: ReviewId) {
    exists t :: t in s.tasks && WillStart(s.tasks[t], r)
  }

  ghost predicate NoneForgotten(s: State) {
    forall r | NotStarted(s.cache, r) :: StartedBy(s, r)
  }

  /** Every task but `t` stays, and what `t` would have started is started or still bound to be. */
  lemma StepForgetsNone(s: State, t: TaskId, s': State)
    requires NoneForgotten(s)
    requires forall v | v in s.tasks && v != t :: v in s'.tasks && s'.tasks[v] == s.tasks[v]
    requires forall r | NotStarted(s'.cache, r) && !(NotStarted(s.cache, r)) :: StartedBy(s', r)
    requires forall r | NotStarted(s'.cache, r) && t in s.tasks && WillStart(s.tasks[t], r) :: StartedBy(s', r)
    ensures NoneForgotten(s')
  {
    forall r | NotStarted(s'.cache, r)
      ensures StartedBy(s', r)
    {
      if NotStarted(s.cache, r) {
        var v :| v in s.tasks && WillStart(s.tasks[v], r);
        if v != t {
          assert v in s'.tasks && WillStart(s'.tasks[v], r);
        }
      }
    }
  }

  lemma Bound(s: State, t: TaskId, r: ReviewId)
    requires t in s.tasks && WillStart(s.tasks[t], r)
    ensures StartedBy(s, r)
  {
  }

  /** A task that ends before its work is done: a listing given up, or an exception nobody catches. */
  ghost predicate Quits(s: State, a: Action) {
    || (a.Outside? && a.oa.Escape?)
    || (a.OfCommit? && a.ca.ListingFails? && IsCommit(s, a.t) && !(a.ca.retryable && s.tasks[a.t].retries < COMMIT_MAX_RETRIES))
  }

  lemma OutsideForgetsNone(s: State, a: OutsideAction, s': State)
    requires NoneForgotten(s) && (forall t | t in s.tasks :: t < s.nextId) && OutsideNext(s, a, s') && !a.Escape?
    ensures NoneForgotten(s')
  {
    var t := if a.Deliver? || a.Crash? then a.t else s.nextId;
    if a.Deliver? || a.Crash? {
      forall r | WillStart(s.tasks[t], r)
        ensures StartedBy(s', r)
      {
        Bound(s', t, r);
      }
    }
    StepForgetsNone(s, t, s');
  }

  lemma CommitForgetsNone(s: State, t: TaskId, a: CommitAction, s': State)
    requires NoneForgotten(s) && (forall v | v in s.tasks :: v < s.nextId) && CommitNext(s, t, a, s') && !Quits(s, OfCommit(t, a))
    ensures NoneForgotten(s')
  {
    forall r | NotStarted(s'.cache, r) && (WillStart(s.tasks[t], r) || !NotStarted(s.cache, r))
      ensures StartedBy(s', r)
    {
      if a.EnqueueReview? && r == a.r {
        Bound(s', s.nextId, r);
      } else {
        if a.SelectPending? {
          assert r in PendingReviews(s.cache, s.tasks[t].unit);
        }
        Bound(s', t, r);
      }
    }
    StepForgetsNone(s, t, s');
  }

  lemma PublishForgetsNone(c: Config, s: State, t: TaskId, a: PublishAction, s': State)
    requires NoneForgotten(s) && PublishNext(c, s, t, a, s')
    ensures NoneForgotten(s')
  {
    StepForgetsNone(s, t, s');
  }

  /** The steps that start a review, end it, or change no review. */
  lemma StartingForgetsNone(c: Config, s: State, t: TaskId, a: FileAction, s': State)
    requires Structured(c, s) && NoneForgotten(s) && FileNext(c, s, t, a, s')
    requires a.LoadReview? || a.SkipReview? || a.SourceFails? || a.ClaimResult? || a.AttachRead? || a.AttachWrite? || a.HandleError?
    ensures NoneForgotten(s')
  {
    assert TaskOk(c, s.cache, s.tasks[t]);
    forall r | NotStarted(s'.cache, r) && WillStart(s.tasks[t], r)
      ensures StartedBy(s', r)
    {
      Bound(s', t, r);
    }
    StepForgetsNone(s, t, s');
  }

  /** The steps of an owner, and those after a review is done: they touch started reviews only. */
  lemma LaterForgetsNone(c: Config, s: State, t: TaskId, a: FileAction, s': State)
    requires Structured(c, s) && NoneForgotten(s) && FileNext(c, s, t, a, s')
    requires a.MarkStreaming? || a.EnterLoop? || a.Delta? || a.Refresh? || a.CompleteResult? || a.Announce?
             || a.ReadUnits? || a.TriggerUnit? || a.FileDone?
    ensures NoneForgotten(s')
  {
    StepForgetsNone(s, t, s');
  }

  lemma FailingForgetsNone(c: Config, s: State, t: TaskId, e: Error, s': State)
    requires Structured(c, s) && NoneForgotten(s) && GenerationFailsStep(c, s, t, e, s')
    ensures NoneForgotten(s')
  {
    StepForgetsNone(s, t, s');
  }

  lemma NextForgetsNone(c: Config, s: State, a: Action, s': State)
    requires Structured(c, s) && NoneForgotten(s) && Next(c, s, a, s') && !Quits(s, a)
    ensures NoneForgotten(s')
  {
    match a
    case Outside(oa) => OutsideForgetsNone(s, oa, s');
    case OfCommit(t, ca) => CommitForgetsNone(s, t, ca, s');
    case OfPublish(t, pa) => PublishForgetsNone(c, s, t, pa, s');
    case OfFile(t, fa) =>
      if fa.GenerationFails? {
        FailingForgetsNone(c, s, t, fa.e, s');
      } else if fa.LoadReview? || fa.SkipReview? || fa.SourceFails? || fa.ClaimResult? || fa.AttachRead? || fa.AttachWrite? || fa.HandleError? {
        StartingForgetsNone(c, s, t, fa, s');
      } else {
        LaterForgetsNone(c, s, t, fa, s');
      }
  }

  /** In every run in which no task quits, crashes and redeliveries included. */
  lemma {:induction false} RunForgetsNone(c: Config, states: seq<State>, actions: seq<Action>, i: nat)
    requires Run(c, states, actions) && i < |states|
    requires forall j | 0 <= j < i :: !Quits(states[j], actions[j])
    ensures NoneForgotten(states[i])
  {
    if i > 0 {
      RunForgetsNone(c, states, actions, i - 1);
      RunIsStructured(c, states, actions, i - 1);
      assert Next(c, states[i - 1], actions[i - 1], states[i]);
      NextForgetsNone(c, states[i - 1], actions[i - 1], states[i]);
    }
  }
}
