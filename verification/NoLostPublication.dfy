/** A unit that waits to be published always has a trigger outstanding: a queued `publish_unit`, or
    an unfinished task bound to enqueue one. */
module NoLostPublication {
  import opened Rows
  import opened Text
  import opened CacheService
  import opened Protocol
  import opened Structure

  ghost predicate HasReviews(cache: Cache, u: UnitId) {
    exists r :: r in cache.reviews && r.unit == u
  }

  /** Still pending, at least one review, every review terminal. */
  ghost predicate Waiting(s: State, u: UnitId) {
    Ready(s, u) && HasReviews(s.cache, u)
  }

  /** The task will publish `u`, or enqueue a task that does. */
  ghost predicate Covers(cache: Cache, task: Task, u: UnitId) {
    match task
    case CommitTask(v, _, cpc) => v == u && !cpc.Fanning?
    case FileTask(r, _, pc) => if pc.Triggering? then u in pc.units else u in UnitsToTrigger(cache, r)
    case PublishTask(v, _, ppc) => v == u && (ppc.Queued? || ppc.Checking? || ppc.Requeueing?)
  }

  ghost predicate CoveredAt(s: State, u: UnitId) {
    exists t :: t in s.tasks && Covers(s.cache, s.tasks[t], u)
  }

  /** The units a task has read are still linked to its review, so a redelivery finds them again. */
  ghost predicate ReadUnitsLinked(cache: Cache, task: Task) {
    task.FileTask? && task.pc.Triggering? ==> task.pc.units <= UnitsToTrigger(cache, task.review)
  }

  ghost predicate NoneLost(s: State) {
    && (forall u | Waiting(s, u) :: CoveredAt(s, u))
    && (forall t | t in s.tasks :: ReadUnitsLinked(s.cache, s.tasks[t]))
  }

  /** `a` ends the task `t` before its work is done: a `review_commit` that gives up listing, or an
      exception nobody catches. */
  ghost predicate Drops(s: State, a: Action, t: TaskId) {
    || a == Outside(Escape(t))
    || (a.OfCommit? && a.t == t && a.ca.ListingFails? && IsCommit(s, t)
        && !(a.ca.retryable && s.tasks[t].retries < COMMIT_MAX_RETRIES))
  }

  /** No task but `t` would publish `u`. */
  ghost predicate LastTrigger(s: State, t: TaskId, u: UnitId) {
    t in s.tasks && Covers(s.cache, s.tasks[t], u) && forall v | v in s.tasks && v != t :: !Covers(s.cache, s.tasks[v], u)
  }

  /** `a` drops the last trigger of a unit that waits. */
  ghost predicate Strands(s: State, a: Action) {
    exists t, u :: Drops(s, a, t) && LastTrigger(s, t, u) && Waiting(s, u)
  }

  lemma LinksGrow(before: Cache, after: Cache, r: ReviewId)
    requires Grows(before, after)
    ensures UnitsToTrigger(before, r) <= UnitsToTrigger(after, r)
  {
    forall u | u in UnitsToTrigger(before, r)
      ensures u in UnitsToTrigger(after, r)
    {
      var q :| q in before.reviews && q.unit == u
               && (q == r || (before.reviews[r].result.Some? && before.reviews[q].result == before.reviews[r].result));
      assert q in after.reviews;
    }
  }

  lemma OwnUnitIsLinked(cache: Cache, r: ReviewId)
    requires r in cache.reviews
    ensures r.unit in UnitsToTrigger(cache, r)
  {
  }

  lemma SharedUnitIsLinked(c: Config, cache: Cache, r: ReviewId, q: ReviewId)
    requires Attached(c, cache, r) && q in cache.reviews && cache.reviews[q].result == Some(c.keyOf(r))
    ensures q.unit in UnitsToTrigger(cache, r)
  {
  }

  lemma TaskCoversStill(before: Cache, after: Cache, task: Task, u: UnitId)
    requires Grows(before, after) && Covers(before, task, u)
    ensures Covers(after, task, u)
  {
    if task.FileTask? {
      LinksGrow(before, after, task.review);
    }
  }

  /** Every task but `t` stays; units that `t` covered, and units that only now wait, are covered. */
  lemma StepLosesNone(s: State, t: TaskId, s': State)
    requires NoneLost(s)
    requires Grows(s.cache, s'.cache)
    requires forall v | v in s.tasks && v != t :: v in s'.tasks && s'.tasks[v] == s.tasks[v]
    requires forall u | Waiting(s', u) && Waiting(s, u) && t in s.tasks && Covers(s.cache, s.tasks[t], u) :: CoveredAt(s', u)
    requires forall u | Waiting(s', u) && !Waiting(s, u) :: CoveredAt(s', u)
    requires forall v | v in s'.tasks && !(v in s.tasks && s'.tasks[v] == s.tasks[v]) :: ReadUnitsLinked(s'.cache, s'.tasks[v])
    ensures NoneLost(s')
  {
    forall u | Waiting(s', u)
      ensures CoveredAt(s', u)
    {
      if Waiting(s, u) {
        assert CoveredAt(s, u);
        var v :| v in s.tasks && Covers(s.cache, s.tasks[v], u);
        if v != t {
          TaskCoversStill(s.cache, s'.cache, s.tasks[v], u);
          assert v in s'.tasks && Covers(s'.cache, s'.tasks[v], u);
        }
      }
    }
    forall v | v in s'.tasks && v in s.tasks && s'.tasks[v] == s.tasks[v]
      ensures ReadUnitsLinked(s'.cache, s'.tasks[v])
    {
      if s.tasks[v].FileTask? {
        LinksGrow(s.cache, s'.cache, s.tasks[v].review);
        assert ReadUnitsLinked(s.cache, s.tasks[v]);
      }
    }
  }

  lemma CoveredBy(s: State, t: TaskId, u: UnitId)
    requires t in s.tasks && Covers(s.cache, s.tasks[t], u)
    ensures CoveredAt(s, u)
  {
  }

  lemma OutsideLosesNone(s: State, a: OutsideAction, s': State)
    requires NoneLost(s) && TasksBelow(s) && OutsideNext(s, a, s') && !Strands(s, Outside(a))
    ensures NoneLost(s')
  {
    match a
    case Webhook(u) =>
      CoveredBy(s', s.nextId, u);
      StepLosesNone(s, s.nextId, s');
    case Tick(_) =>
      assert forall u :: Waiting(s', u) ==> Waiting(s, u);
      StepLosesNone(s, s.nextId, s');
    case Deliver(t) =>
      assert forall u :: Covers(s.cache, s.tasks[t], u) ==> Covers(s'.cache, s'.tasks[t], u);
      StepLosesNone(s, t, s');
    case Crash(t) =>
      assert ReadUnitsLinked(s.cache, s.tasks[t]);
      forall u | Covers(s.cache, s.tasks[t], u)
        ensures CoveredAt(s', u)
      {
        CoveredBy(s', t, u);
      }
      StepLosesNone(s, t, s');
    case Redeliver(t) =>
      StepLosesNone(s, s.nextId, s');
    case Escape(t) =>
      DropLosesNone(s, Outside(a), t, s');
  }

  /** Dropping a task that is nobody's last trigger. */
  lemma DropLosesNone(s: State, a: Action, t: TaskId, s': State)
    requires NoneLost(s) && Drops(s, a, t) && !Strands(s, a) && t in s.tasks && s' == End(s, t)
    ensures NoneLost(s')
  {
    forall u | Waiting(s', u) && Waiting(s, u) && Covers(s.cache, s.tasks[t], u)
      ensures CoveredAt(s', u)
    {
      assert !LastTrigger(s, t, u);
      var v :| v in s.tasks && v != t && Covers(s.cache, s.tasks[v], u);
      CoveredBy(s', v, u);
    }
    assert forall u :: Waiting(s', u) ==> Waiting(s, u);
    StepLosesNone(s, t, s');
  }

  ghost predicate TasksBelow(s: State) {
    forall t | t in s.tasks :: t < s.nextId
  }

  lemma CommitLosesNone(s: State, t: TaskId, a: CommitAction, s': State)
    requires NoneLost(s) && TasksBelow(s) && CommitNext(s, t, a, s')
    requires !Strands(s, OfCommit(t, a))
    ensures NoneLost(s')
  {
    var v := s.tasks[t].unit;
    match a
    case InsertReviews(files) =>
      CoveredBy(s', t, v);
      InsertWaitsOnlyHere(s, t, files, s');
      StepLosesNone(s, t, s');
    case ListingFails(retryable) =>
      if t in s'.tasks {
        CoveredBy(s', t, v);
        StepLosesNone(s, t, s');
      } else {
        DropLosesNone(s, OfCommit(t, a), t, s');
      }
    case SelectPending =>
      var pending := PendingReviews(s.cache, v);
      if pending == {} {
        CoveredBy(s', t, v);
      } else {
        var r :| r in pending;
        assert !s.cache.reviews[r].status.Terminal();
      }
      StepLosesNone(s, t, s');
    case EnqueueReview(r) =>
      StepLosesNone(s, t, s');
    case EnqueueUnit =>
      CoveredBy(s', s.nextId, v);
      StepLosesNone(s, t, s');
    case CommitDone =>
      StepLosesNone(s, t, s');
  }

  lemma InsertWaitsOnlyHere(s: State, t: TaskId, files: map<ReviewId, bool>, s': State)
    requires InsertReviewsStep(s, t, files, s')
    ensures Grows(s.cache, s'.cache)
    ensures forall u | Waiting(s', u) && !Waiting(s, u) :: u == s.tasks[t].unit
  {
    forall u | Waiting(s', u) && u != s.tasks[t].unit
      ensures Waiting(s, u)
    {
      var r :| r in s'.cache.reviews && r.unit == u;
      assert r in s.cache.reviews;
      forall q | q in s.cache.reviews && q.unit == u
        ensures s.cache.reviews[q].status.Terminal()
      {
        assert s'.cache.reviews[q] == s.cache.reviews[q];
      }
    }
  }

  lemma PublishLosesNone(c: Config, s: State, t: TaskId, a: PublishAction, s': State)
    requires NoneLost(s) && PublishNext(c, s, t, a, s')
    ensures NoneLost(s')
  {
    var v := s.tasks[t].unit;
    if t in s'.tasks && (s'.tasks[t].ppc.Queued? || s'.tasks[t].ppc.Requeueing?) {
      CoveredBy(s', t, v);
    }
    assert forall u :: u != v && Waiting(s', u) ==> Waiting(s, u);
    StepLosesNone(s, t, s');
  }

  /** A step of a file task that leaves its review linked and stays bound to publish. */
  lemma BoundFileLosesNone(s: State, t: TaskId, s': State)
    requires NoneLost(s) && IsFile(s, t) && Grows(s.cache, s'.cache)
    requires forall v | v in s.tasks && v != t :: v in s'.tasks && s'.tasks[v] == s.tasks[v]
    requires forall v | v in s'.tasks && v != t :: v in s.tasks
    requires !s.tasks[t].pc.Triggering?
    requires t in s'.tasks && s'.tasks[t].FileTask? && s'.tasks[t].review == s.tasks[t].review && !s'.tasks[t].pc.Triggering?
    requires forall u | Waiting(s', u) && !Waiting(s, u) :: u in UnitsToTrigger(s'.cache, s.tasks[t].review)
    ensures NoneLost(s')
  {
    forall u | u in UnitsToTrigger(s'.cache, s.tasks[t].review)
      ensures CoveredAt(s', u)
    {
      CoveredBy(s', t, u);
    }
    LinksGrow(s.cache, s'.cache, s.tasks[t].review);
    StepLosesNone(s, t, s');
  }

  /** Only reviews in `changed` got a new status, so only their units can start to wait. */
  lemma OnlyChangedWait(s: State, s': State, changed: set<ReviewId>, u: UnitId)
    requires s'.units == s.units
    requires s'.cache.reviews.Keys == s.cache.reviews.Keys
    requires forall r | r in s.cache.reviews && r !in changed :: s'.cache.reviews[r].status == s.cache.reviews[r].status
    requires Waiting(s', u) && !Waiting(s, u)
    ensures exists r :: r in changed && r in s.cache.reviews && r.unit == u
  {
    var q :| q in s'.cache.reviews && q.unit == u;
    assert HasReviews(s.cache, u);
    var r :| r in s.cache.reviews && r.unit == u && !s.cache.reviews[r].status.Terminal();
    assert s'.cache.reviews[r].status.Terminal();
  }

  /** Only the task's own review got a new status. */
  lemma OwnReviewLosesNone(s: State, t: TaskId, s': State)
    requires NoneLost(s) && IsFile(s, t) && Grows(s.cache, s'.cache)
    requires forall v | v in s.tasks && v != t :: v in s'.tasks && s'.tasks[v] == s.tasks[v]
    requires forall v | v in s'.tasks && v != t :: v in s.tasks
    requires !s.tasks[t].pc.Triggering?
    requires t in s'.tasks && s'.tasks[t].FileTask? && s'.tasks[t].review == s.tasks[t].review && !s'.tasks[t].pc.Triggering?
    requires s'.units == s.units && s'.cache.reviews.Keys == s.cache.reviews.Keys
    requires forall r | r in s.cache.reviews && r != s.tasks[t].review :: s'.cache.reviews[r].status == s.cache.reviews[r].status
    ensures NoneLost(s')
  {
    forall u | Waiting(s', u) && !Waiting(s, u)
      ensures u in UnitsToTrigger(s'.cache, s.tasks[t].review)
    {
      OnlyChangedWait(s, s', {s.tasks[t].review}, u);
      OwnUnitIsLinked(s'.cache, s.tasks[t].review);
    }
    BoundFileLosesNone(s, t, s');
  }

  /** Only reviews attached to the task's own result got a new status. */
  lemma SharedResultLosesNone(c: Config, s: State, t: TaskId, s': State)
    requires NoneLost(s) && IsFile(s, t) && Grows(s.cache, s'.cache)
    requires t in s'.tasks && s'.tasks == s.tasks[t := s'.tasks[t]]
    requires !s.tasks[t].pc.Triggering? && Attached(c, s.cache, s.tasks[t].review)
    requires s'.tasks[t].FileTask? && s'.tasks[t].review == s.tasks[t].review && !s'.tasks[t].pc.Triggering?
    requires s'.units == s.units && s'.cache.reviews.Keys == s.cache.reviews.Keys
    requires forall r | r in s.cache.reviews && s.cache.reviews[r].result != Some(c.keyOf(s.tasks[t].review)) ::
      s'.cache.reviews[r].status == s.cache.reviews[r].status
    ensures NoneLost(s')
  {
    var k := c.keyOf(s.tasks[t].review);
    var attached := set r | r in s.cache.reviews && s.cache.reviews[r].result == Some(k);
    forall u | Waiting(s', u) && !Waiting(s, u)
      ensures u in UnitsToTrigger(s'.cache, s.tasks[t].review)
    {
      OnlyChangedWait(s, s', attached, u);
      var r :| r in attached && r.unit == u;
      SharedUnitIsLinked(c, s.cache, s.tasks[t].review, r);
      LinksGrow(s.cache, s'.cache, s.tasks[t].review);
    }
    BoundFileLosesNone(s, t, s');
  }

  lemma OwnReviewStepLosesNone(c: Config, s: State, t: TaskId, a: FileAction, s': State)
    requires NoneLost(s) && FileNext(c, s, t, a, s')
    requires a.LoadReview? || a.SkipReview? || a.SourceFails? || a.AttachRead? || a.EnterLoop? || a.Delta? || a.Announce?
    ensures NoneLost(s')
  {
    OwnReviewLosesNone(s, t, s');
  }

  lemma ClaimLosesNone(c: Config, s: State, t: TaskId, s': State)
    requires Structured(c, s) && NoneLost(s) && ClaimResultStep(c, s, t, s')
    ensures NoneLost(s')
  {
    ClaimGrows(c, s.cache, c.keyOf(s.tasks[t].review), s.now);
    OwnReviewLosesNone(s, t, s');
  }

  lemma AttachLosesNone(c: Config, s: State, t: TaskId, s': State)
    requires Structured(c, s) && NoneLost(s) && AttachWriteStep(s, t, s')
    ensures NoneLost(s')
  {
    OwnReviewLosesNone(s, t, s');
  }

  lemma RefreshLosesNone(c: Config, s: State, t: TaskId, s': State)
    requires Structured(c, s) && NoneLost(s) && RefreshStep(c, s, t, s')
    ensures NoneLost(s')
  {
    OwnReviewLosesNone(s, t, s');
  }

  lemma HandleErrorLosesNone(c: Config, s: State, t: TaskId, s': State)
    requires NoneLost(s) && HandleErrorStep(c, s, t, s')
    ensures NoneLost(s')
  {
    OwnReviewLosesNone(s, t, s');
  }

  lemma MarkStreamingLosesNone(c: Config, s: State, t: TaskId, s': State)
    requires Structured(c, s) && NoneLost(s) && MarkStreamingStep(c, s, t, s')
    ensures NoneLost(s')
  {
    MarkStreamingGrows(c, s.cache, c.keyOf(s.tasks[t].review), s.now);
    SharedResultLosesNone(c, s, t, s');
  }

  lemma CompleteLosesNone(c: Config, s: State, t: TaskId, s': State)
    requires Structured(c, s) && NoneLost(s) && CompleteResultStep(c, s, t, s')
    ensures NoneLost(s')
  {
    CompleteGrows(c, s.cache, c.keyOf(s.tasks[t].review), Concat(s.tasks[t].pc.parts));
    SharedResultLosesNone(c, s, t, s');
  }

  lemma GenerationFailsLosesNone(c: Config, s: State, t: TaskId, e: Error, s': State)
    requires Structured(c, s) && NoneLost(s) && GenerationFailsStep(c, s, t, e, s')
    ensures NoneLost(s')
  {
    FailGrows(c, s.cache, c.keyOf(s.tasks[t].review), !WillRetry(c, e, s.tasks[t].retries));
    SharedResultLosesNone(c, s, t, s');
  }

  lemma TriggeringLosesNone(c: Config, s: State, t: TaskId, a: FileAction, s': State)
    requires NoneLost(s) && TasksBelow(s) && FileNext(c, s, t, a, s')
    requires a.ReadUnits? || a.TriggerUnit? || a.FileDone?
    ensures NoneLost(s')
  {
    assert forall u :: Waiting(s', u) ==> Waiting(s, u);
    assert ReadUnitsLinked(s.cache, s.tasks[t]);
    forall u | Covers(s.cache, s.tasks[t], u)
      ensures CoveredAt(s', u)
    {
      if a.TriggerUnit? && u == a.u {
        CoveredBy(s', s.nextId, u);
      } else {
        CoveredBy(s', t, u);
      }
    }
    StepLosesNone(s, t, s');
  }

  lemma FileLosesNone(c: Config, s: State, t: TaskId, a: FileAction, s': State)
    requires Structured(c, s) && NoneLost(s) && FileNext(c, s, t, a, s')
    ensures NoneLost(s')
  {
    match a
    case ClaimResult => ClaimLosesNone(c, s, t, s');
    case AttachWrite => AttachLosesNone(c, s, t, s');
    case MarkStreaming => MarkStreamingLosesNone(c, s, t, s');
    case Refresh => RefreshLosesNone(c, s, t, s');
    case CompleteResult => CompleteLosesNone(c, s, t, s');
    case GenerationFails(e) => GenerationFailsLosesNone(c, s, t, e, s');
    case HandleError => HandleErrorLosesNone(c, s, t, s');
    case ReadUnits => TriggeringLosesNone(c, s, t, a, s');
    case TriggerUnit(_) => TriggeringLosesNone(c, s, t, a, s');
    case FileDone => TriggeringLosesNone(c, s, t, a, s');
    case _ => OwnReviewStepLosesNone(c, s, t, a, s');
  }

  /** A dropped task loses a unit that waits if it was the unit's last trigger. */
  lemma DroppingTheLastTriggerLoses(s: State, a: Action, t: TaskId, u: UnitId, s': State)
    requires Drops(s, a, t) && LastTrigger(s, t, u) && Waiting(s, u) && s' == End(s, t)
    ensures !NoneLost(s')
  {
    assert Waiting(s', u);
  }

  lemma DropsEnd(c: Config, s: State, a: Action, t: TaskId, s': State)
    requires Next(c, s, a, s') && Drops(s, a, t)
    ensures t in s.tasks && s' == End(s, t)
  {
  }

  /** A step keeps every waiting unit's trigger exactly when it does not drop the last one. */
  lemma NextLosesNone(c: Config, s: State, a: Action, s': State)
    requires Structured(c, s) && NoneLost(s) && Next(c, s, a, s')
    ensures NoneLost(s') <==> !Strands(s, a)
  {
    if Strands(s, a) {
      var t, u :| Drops(s, a, t) && LastTrigger(s, t, u) && Waiting(s, u);
      DropsEnd(c, s, a, t, s');
      DroppingTheLastTriggerLoses(s, a, t, u, s');
    } else {
      match a
      case Outside(oa) => OutsideLosesNone(s, oa, s');
      case OfCommit(t, ca) => CommitLosesNone(s, t, ca, s');
      case OfFile(t, fa) => FileLosesNone(c, s, t, fa, s');
      case OfPublish(t, pa) => PublishLosesNone(c, s, t, pa, s');
    }
  }

  lemma {:induction false} RunLosesNone(c: Config, states: seq<State>, actions: seq<Action>, i: nat)
    requires Run(c, states, actions) && i < |states|
    requires forall j | 0 <= j < i :: !Strands(states[j], actions[j])
    ensures NoneLost(states[i])
  {
    if i > 0 {
      RunLosesNone(c, states, actions, i - 1);
      RunIsStructured(c, states, actions, i - 1);
      assert Next(c, states[i - 1], actions[i - 1], states[i]);
      NextLosesNone(c, states[i - 1], actions[i - 1], states[i]);
    }
  }

  // ---- giving up ----

  /** Dropping a task, by giving a listing up or by an exception, loses nothing exactly when every
      waiting unit it would have published has another task bound to publish it. */
  lemma AbandoningLosesTheLastTrigger(c: Config, s: State, a: Action, t: TaskId, s': State)
    requires Structured(c, s) && NoneLost(s) && Next(c, s, a, s') && Drops(s, a, t)
    ensures t in s.tasks
    ensures NoneLost(s') <==>
            forall u | Waiting(s, u) && Covers(s.cache, s.tasks[t], u) ::
              exists v :: v in s.tasks && v != t && Covers(s.cache, s.tasks[v], u)
  {
    NextLosesNone(c, s, a, s');
    DropsEnd(c, s, a, t, s');
    if Strands(s, a) {
      var v, u :| Drops(s, a, v) && LastTrigger(s, v, u) && Waiting(s, u);
      assert v == t;
    } else {
      forall u | Waiting(s, u) && Covers(s.cache, s.tasks[t], u)
        ensures exists v :: v in s.tasks && v != t && Covers(s.cache, s.tasks[v], u)
      {
        assert !LastTrigger(s, t, u);
      }
    }
  }

  // ---- two runs that lose unit 0 ----

  const Only := ReviewId(0, 0)
  const OneSkipped := Cache(map[], map[Only := ReviewRow(ReviewStatus.Skipped, None, false)])

  function Loss(cache: Cache, cpc: CommitPc): State {
    State(cache, map[0 := PublishStatus.Pending], map[0 := CommitTask(0, 0, cpc)], 1, 0, [], map[], multiset{})
  }

  const Lost := State(OneSkipped, map[0 := PublishStatus.Pending], map[], 1, 0, [], map[], multiset{})

  lemma LostIsLost()
    ensures Waiting(Lost, 0) && !CoveredAt(Lost, 0)
  {
    assert Only in Lost.cache.reviews && Only.unit == 0;
  }

  lemma RunMore(c: Config, states: seq<State>, actions: seq<Action>, a: Action, s': State)
    requires Run(c, states, actions) && Next(c, states[|states| - 1], a, s')
    ensures Run(c, states + [s'], actions + [a])
  {
  }

  /** The only file of unit 0 is skipped. */
  lemma SkippedFileIsInserted(c: Config) returns (states: seq<State>, actions: seq<Action>)
    ensures Run(c, states, actions) && states[|states| - 1] == Loss(OneSkipped, Inserted)
    ensures forall a | a in actions :: !(a.Outside? && a.oa.Crash?) && !(a.OfCommit? && a.ca.ListingFails?)
  {
    var empty := Cache(map[], map[]);
    var s0 := State(empty, map[], map[], 0, 0, [], map[], multiset{});
    var files := map[Only := true];
    states, actions := [s0], [];
    assert WebhookStep(s0, 0, Loss(empty, CommitPc.Queued));
    RunMore(c, states, actions, Outside(Webhook(0)), Loss(empty, CommitPc.Queued));
    states, actions := states + [Loss(empty, CommitPc.Queued)], actions + [Outside(Webhook(0))];
    RunMore(c, states, actions, Outside(Deliver(0)), Loss(empty, Listing));
    states, actions := states + [Loss(empty, Listing)], actions + [Outside(Deliver(0))];
    assert InsertedRows(map[], files) == OneSkipped.reviews;
    RunMore(c, states, actions, OfCommit(0, InsertReviews(files)), Loss(OneSkipped, Inserted));
    states, actions := states + [Loss(OneSkipped, Inserted)], actions + [OfCommit(0, InsertReviews(files))];
  }

  /** Inserted, crashed before enqueueing, redelivered, and the listing then fails for good. */
  lemma AUnitCanBeLost(c: Config) returns (states: seq<State>, actions: seq<Action>)
    ensures Run(c, states, actions)
    ensures var last := states[|states| - 1]; Waiting(last, 0) && !CoveredAt(last, 0)
  {
    states, actions := SkippedFileIsInserted(c);
    RunMore(c, states, actions, Outside(Crash(0)), Loss(OneSkipped, CommitPc.Queued));
    states, actions := states + [Loss(OneSkipped, CommitPc.Queued)], actions + [Outside(Crash(0))];
    RunMore(c, states, actions, Outside(Deliver(0)), Loss(OneSkipped, Listing));
    states, actions := states + [Loss(OneSkipped, Listing)], actions + [Outside(Deliver(0))];
    assert Loss(OneSkipped, Listing).tasks - {0} == map[];
    RunMore(c, states, actions, OfCommit(0, ListingFails(false)), Lost);
    states, actions := states + [Lost], actions + [OfCommit(0, ListingFails(false))];
    LostIsLost();
  }

  /** No crash and no listing given up: creating the check run raises once every file was skipped. */
  lemma ASkippedUnitCanBeLost(c: Config) returns (states: seq<State>, actions: seq<Action>)
    ensures Run(c, states, actions)
    ensures forall a | a in actions :: !(a.Outside? && a.oa.Crash?) && !(a.OfCommit? && a.ca.ListingFails?)
    ensures var last := states[|states| - 1]; Waiting(last, 0) && !CoveredAt(last, 0)
  {
    states, actions := SkippedFileIsInserted(c);
    assert PendingReviews(OneSkipped, 0) == {};
    RunMore(c, states, actions, OfCommit(0, SelectPending), Loss(OneSkipped, AllSkipped));
    states, actions := states + [Loss(OneSkipped, AllSkipped)], actions + [OfCommit(0, SelectPending)];
    assert Loss(OneSkipped, AllSkipped).tasks - {0} == map[];
    RunMore(c, states, actions, Outside(Escape(0)), Lost);
    states, actions := states + [Lost], actions + [Outside(Escape(0))];
    LostIsLost();
  }
}
