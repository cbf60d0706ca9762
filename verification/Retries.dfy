/** The pipeline and the task decide about a retry separately; they agree, and retries run out. */
module Retries {
  import opened Rows
  import opened CacheService
  import opened Protocol
  import opened Structure

  predicate Requeued(before: Task, after: Task) {
    before.FileTask? && after == FileTask(before.review, before.retries + 1, FilePc.Queued)
  }

  /** From `cache.fail` in the pipeline to the task's own handler, other tasks running in between:
      the failure was not final exactly when the task requeues itself, and then it made no review
      terminal; a final failure leaves no attached review unfinished. */
  lemma FailureMatchesRequeue(c: Config, s: State, t: TaskId, e: Error, failed: State, later: State, handled: State)
    requires Structured(c, s) && GenerationFailsStep(c, s, t, e, failed)
    requires t in later.tasks && later.tasks[t] == failed.tasks[t]
    requires HandleErrorStep(c, later, t, handled)
    ensures Requeued(later.tasks[t], handled.tasks[t]) <==> WillRetry(c, e, s.tasks[t].retries)
    ensures Requeued(later.tasks[t], handled.tasks[t]) ==>
      forall r | r in failed.cache.reviews && failed.cache.reviews[r].status.Terminal() ::
        r in s.cache.reviews && failed.cache.reviews[r] == s.cache.reviews[r]
    ensures !Requeued(later.tasks[t], handled.tasks[t]) ==>
      forall r | r in failed.cache.reviews && failed.cache.reviews[r].result == Some(c.keyOf(s.tasks[t].review)) ::
        failed.cache.reviews[r].status.Terminal()
  {
  }

  /** Which failure of which task is tried again: an LLM or source error that says so, while the runs
      before this one stay below the budget of its kind; nothing else. The pipeline's own `fail` is told
      the same. */
  lemma RequeuedWithinBudget(c: Config, s: State, t: TaskId, s': State)
    requires HandleErrorStep(c, s, t, s')
    ensures var e, used := s.tasks[t].pc.error, s.tasks[t].retries;
            && (Requeued(s.tasks[t], s'.tasks[t]) <==>
                  || (e.LLM? && e.retryable && used < (if e.rateLimited then c.rateLimitMaxRetries else c.taskMaxRetries))
                  || (e.Source? && e.retryable && used < (if e.rateLimited then c.rateLimitMaxRetries else c.taskMaxRetries)))
            && (!Requeued(s.tasks[t], s'.tasks[t]) ==>
                  && s'.tasks[t].pc.Scheduling?
                  && (s.tasks[t].review in s'.cache.reviews ==>
                        s'.cache.reviews[s.tasks[t].review].status in {ReviewStatus.Complete, ReviewStatus.Failed, ReviewStatus.Skipped}))
  {
  }

  predicate HasRetriesLeft(c: Config, e: Error, used: nat) {
    (e.LLM? || e.Source?) && e.retryable && used < if e.rateLimited then c.rateLimitMaxRetries else c.taskMaxRetries
  }

  /** No step goes on to publishing with a failed review, the task's own or one it follows, before its
      error has used up the retries. Announcing comes after the result was completed. */
  lemma FailedReviewsAreTriedAgain(c: Config, s: State, t: TaskId, a: FileAction, s': State)
    requires FileNext(c, s, t, a, s') && !a.Announce?
    requires t in s'.tasks && s'.tasks[t].FileTask? && s'.tasks[t].pc.Scheduling? && !s.tasks[t].pc.Scheduling?
    requires var r := s.tasks[t].review; r in s'.cache.reviews && s'.cache.reviews[r].status == ReviewStatus.Failed
    ensures s.tasks[t].pc.Raised? && !HasRetriesLeft(c, s.tasks[t].pc.error, s.tasks[t].retries)
  {
  }

  /** A message is only dropped unworked when its review is complete, skipped or gone. */
  lemma DeliveredReviewsAreWorked(s: State, t: TaskId, s': State)
    requires LoadReviewStep(s, t, s')
    ensures s'.tasks[t].pc.Setup? <==>
              && s.tasks[t].review in s.cache.reviews
              && s.cache.reviews[s.tasks[t].review].status in {ReviewStatus.Pending, ReviewStatus.Streaming, ReviewStatus.Failed}
  {
  }

  /** A publish or a listing that fails is tried again at most five times, and only if the error says so. */
  lemma PublishRequeuedWithinBudget(s: State, t: TaskId, retryable: bool, s': State)
    requires FinishFailsStep(s, t, retryable, s') && s.tasks[t].unit in s.units
    ensures var u := s.tasks[t].unit;
            if retryable && s.tasks[t].retries < 5 then t in s'.tasks && s'.tasks[t].ppc.Requeueing? && s'.units[u] == PublishStatus.Pending
            else t !in s'.tasks && s'.units[u] == PublishStatus.Failed
  {
  }

  lemma ListingRequeuedWithinBudget(s: State, t: TaskId, retryable: bool, s': State)
    requires ListingFailsStep(s, t, retryable, s')
    ensures if retryable && s.tasks[t].retries < 5
            then t in s'.tasks && s'.tasks[t] == CommitTask(s.tasks[t].unit, s.tasks[t].retries + 1, CommitPc.Queued)
            else t !in s'.tasks
    ensures s'.cache == s.cache && s'.units == s.units
  {
  }

  ghost predicate WithinFive(s: State) {
    && (forall t | t in s.tasks && !s.tasks[t].FileTask? :: s.tasks[t].retries <= 5)
    && (forall t | t in s.tasks && s.tasks[t].PublishTask? && s.tasks[t].ppc.Requeueing? :: s.tasks[t].retries < 5)
  }

  lemma FileKeepsWithinFive(c: Config, s: State, t: TaskId, a: FileAction, s': State)
    requires WithinFive(s) && FileNext(c, s, t, a, s')
    ensures WithinFive(s')
  {
  }

  lemma OutsideKeepsWithinFive(s: State, a: OutsideAction, s': State)
    requires WithinFive(s) && OutsideNext(s, a, s')
    ensures WithinFive(s')
  {
  }

  lemma CommitKeepsWithinFive(s: State, t: TaskId, a: CommitAction, s': State)
    requires WithinFive(s) && CommitNext(s, t, a, s')
    ensures WithinFive(s')
  {
  }

  lemma PublishKeepsWithinFive(c: Config, s: State, t: TaskId, a: PublishAction, s': State)
    requires WithinFive(s) && PublishNext(c, s, t, a, s')
    ensures WithinFive(s')
  {
  }

  lemma NextKeepsWithinFive(c: Config, s: State, a: Action, s': State)
    requires WithinFive(s) && Next(c, s, a, s')
    ensures WithinFive(s')
  {
    match a
    case Outside(oa) => OutsideKeepsWithinFive(s, oa, s');
    case OfCommit(t, ca) => CommitKeepsWithinFive(s, t, ca, s');
    case OfFile(t, fa) => FileKeepsWithinFive(c, s, t, fa, s');
    case OfPublish(t, pa) => PublishKeepsWithinFive(c, s, t, pa, s');
  }

  /** In every run no `publish_unit` or `review_commit` message carries more than five retries. */
  lemma {:induction false} FiveRetriesRunOut(c: Config, states: seq<State>, actions: seq<Action>, i: nat)
    requires Run(c, states, actions) && i < |states|
    ensures WithinFive(states[i])
  {
    if i > 0 {
      FiveRetriesRunOut(c, states, actions, i - 1);
      assert Next(c, states[i - 1], actions[i - 1], states[i]);
      NextKeepsWithinFive(c, states[i - 1], actions[i - 1], states[i]);
    }
  }

  /** The requeue count of one task over the errors its runs meet, until one of them is final. */
  function RunsOf(c: Config, errors: seq<Error>, retries: nat): nat {
    if errors == [] || !WillRetry(c, errors[0], retries) then 1
    else 1 + RunsOf(c, errors[1..], retries + 1)
  }

  lemma {:induction false} RunsAreBounded(c: Config, errors: seq<Error>, retries: nat)
    requires retries <= MaxRetries(c)
    ensures RunsOf(c, errors, retries) <= 1 + MaxRetries(c) - retries
  {
    if errors != [] && WillRetry(c, errors[0], retries) {
      RunsAreBounded(c, errors[1..], retries + 1);
    }
  }

  /** The bound is met: rate limits can use up the larger budget even after other errors. */
  lemma {:induction false} RunsReachTheBound(c: Config, retries: nat)
    requires c.taskMaxRetries <= c.rateLimitMaxRetries && retries <= c.rateLimitMaxRetries
    ensures exists errors :: RunsOf(c, errors, retries) == 1 + MaxRetries(c) - retries
    decreases c.rateLimitMaxRetries - retries
  {
    if retries == c.rateLimitMaxRetries {
      assert RunsOf(c, [], retries) == 1;
    } else {
      RunsReachTheBound(c, retries + 1);
      var rest :| RunsOf(c, rest, retries + 1) == 1 + MaxRetries(c) - (retries + 1);
      assert ([LLM(true, true)] + rest)[1..] == rest;
      assert RunsOf(c, [LLM(true, true)] + rest, retries) == 1 + MaxRetries(c) - retries;
    }
  }

  /** In every run no `review_file` message carries more retries than the larger budget. */
  lemma RetriesRunOut(c: Config, states: seq<State>, actions: seq<Action>, i: nat, t: TaskId)
    requires Run(c, states, actions) && i < |states|
    requires t in states[i].tasks && states[i].tasks[t].FileTask?
    ensures states[i].tasks[t].retries <= MaxRetries(c)
  {
    RunIsStructured(c, states, actions, i);
    assert TaskOk(c, states[i].cache, states[i].tasks[t]);
  }
}
