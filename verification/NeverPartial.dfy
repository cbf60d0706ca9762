/** If only the owner of the current attempt writes by id and announcing a finished result does not
    fail, then a complete result is never changed again, it holds exactly the text its attempt
    streamed, and no other result holds any text. */
module NeverPartial {
  import opened Rows
  import opened Text
  import opened CacheService
  import opened Protocol
  import opened Structure
  import opened FollowerCoherence
  import opened LiveLeases

  ghost predicate Disciplined(c: Config, s: State, a: Action) {
    a.OfFile? && IsFile(s, a.t) && (a.fa.MarkStreaming? || a.fa.Refresh? || a.fa.CompleteResult? || a.fa.GenerationFails?) ==>
      var task := s.tasks[a.t];
      var k := c.keyOf(task.review);
      && (k in s.cache.results ==> OwnedAttempt(task.pc) == Some(s.cache.results[k].attempts))
      && !(a.fa.GenerationFails? && task.pc.Announcing?)
  }

  ghost predicate ResultWhole(cache: Cache, streamed: map<(Key, nat), seq<string>>, k: Key)
    requires k in cache.results
  {
    var row := cache.results[k];
    if row.status.Complete? then
      !Blank(row.text) && (k, row.attempts) in streamed && row.text == Concat(streamed[(k, row.attempts)])
    else row.text == ""
  }

  ghost predicate ReviewWhole(cache: Cache, r: ReviewId)
    requires r in cache.reviews
  {
    cache.reviews[r].status.Complete? ==>
      && cache.reviews[r].result.Some? && cache.reviews[r].result.value in cache.results
      && cache.results[cache.reviews[r].result.value].status.Complete?
  }

  ghost predicate TaskWhole(c: Config, s: State, task: Task) {
    task.FileTask? ==>
      var k := c.keyOf(task.review);
      && (LiveOwner(task) && k in s.cache.results && s.cache.results[k].attempts == OwnedAttempt(task.pc).value ==>
            s.cache.results[k].status.Pending? || s.cache.results[k].status.Streaming?)
      && (task.pc.Generating? || task.pc.Refreshing? ==>
            (k, task.pc.attempt) in s.streamed && s.streamed[(k, task.pc.attempt)] == task.pc.parts)
  }

  ghost predicate Whole(c: Config, s: State) {
    && (forall k | k in s.cache.results :: ResultWhole(s.cache, s.streamed, k))
    && (forall r | r in s.cache.reviews :: ReviewWhole(s.cache, r))
    && (forall t | t in s.tasks :: TaskWhole(c, s, s.tasks[t]))
  }

  /** Nothing about results, reviews' completeness or the streamed text changes. */
  lemma QuietKeepsWhole(c: Config, s: State, s': State)
    requires Whole(c, s)
    requires s'.cache.results == s.cache.results && s'.streamed == s.streamed
    requires forall r | r in s'.cache.reviews ::
      (r in s.cache.reviews && s'.cache.reviews[r] == s.cache.reviews[r]) || ReviewWhole(s'.cache, r)
    requires forall t | t in s'.tasks ::
      (t in s.tasks && s'.tasks[t] == s.tasks[t]) || TaskWhole(c, s', s'.tasks[t])
    ensures Whole(c, s')
  {
    forall k | k in s'.cache.results
      ensures ResultWhole(s'.cache, s'.streamed, k)
    {
      assert ResultWhole(s.cache, s.streamed, k);
    }
    forall r | r in s'.cache.reviews
      ensures ReviewWhole(s'.cache, r)
    {
      if r in s.cache.reviews && s'.cache.reviews[r] == s.cache.reviews[r] {
        assert ReviewWhole(s.cache, r);
      }
    }
    forall t | t in s'.tasks
      ensures TaskWhole(c, s', s'.tasks[t])
    {
      if t in s.tasks && s'.tasks[t] == s.tasks[t] {
        assert TaskWhole(c, s, s.tasks[t]);
      }
    }
  }

  lemma OutsideKeepsWhole(c: Config, s: State, a: OutsideAction, s': State)
    requires Whole(c, s) && OutsideNext(s, a, s')
    ensures Whole(c, s')
  {
    QuietKeepsWhole(c, s, s');
  }

  lemma CommitKeepsWhole(c: Config, s: State, t: TaskId, a: CommitAction, s': State)
    requires Whole(c, s) && CommitNext(s, t, a, s')
    ensures Whole(c, s')
  {
    QuietKeepsWhole(c, s, s');
  }

  lemma PublishKeepsWhole(c: Config, s: State, t: TaskId, a: PublishAction, s': State)
    requires Whole(c, s) && PublishNext(c, s, t, a, s')
    ensures Whole(c, s')
  {
    QuietKeepsWhole(c, s, s');
  }

  lemma EarlyFileKeepsWhole(c: Config, s: State, t: TaskId, a: FileAction, s': State)
    requires Whole(c, s) && FileNext(c, s, t, a, s')
    requires a.LoadReview? || a.SkipReview? || a.SourceFails? || a.AttachRead? || a.Announce?
    ensures Whole(c, s')
  {
    assert TaskWhole(c, s, s.tasks[t]);
    QuietKeepsWhole(c, s, s');
  }

  lemma HandleErrorKeepsWhole(c: Config, s: State, t: TaskId, s': State)
    requires Whole(c, s) && HandleErrorStep(c, s, t, s')
    ensures Whole(c, s')
  {
    QuietKeepsWhole(c, s, s');
  }

  lemma LateFileKeepsWhole(c: Config, s: State, t: TaskId, a: FileAction, s': State)
    requires Whole(c, s) && FileNext(c, s, t, a, s')
    requires a.ReadUnits? || a.TriggerUnit? || a.FileDone?
    ensures Whole(c, s')
  {
    QuietKeepsWhole(c, s, s');
  }

  lemma AttachWriteKeepsWhole(c: Config, s: State, t: TaskId, s': State)
    requires Structured(c, s) && Coherent(s) && Whole(c, s) && AttachWriteStep(s, t, s')
    ensures Whole(c, s')
  {
    assert TaskWhole(c, s, s.tasks[t]) && ReadHolds(s.cache, s.tasks[t]);
    QuietKeepsWhole(c, s, s');
  }

  /** The row of `key` changes, and it was not complete before. */
  lemma WriteKeepsWhole(c: Config, s: State, t: TaskId, key: Key, s': State)
    requires Whole(c, s) && IsFile(s, t) && c.keyOf(s.tasks[t].review) == key && s'.streamed == s.streamed
    requires key in s'.cache.results && ResultWhole(s'.cache, s'.streamed, key)
    requires key in s.cache.results ==> !s.cache.results[key].status.Complete?
    requires s'.cache.results.Keys == s.cache.results.Keys + {key}
    requires forall k | k in s.cache.results && k != key :: s'.cache.results[k] == s.cache.results[k]
    requires s'.cache.reviews.Keys == s.cache.reviews.Keys
    requires forall r | r in s.cache.reviews :: s'.cache.reviews[r] == s.cache.reviews[r] || ReviewWhole(s'.cache, r)
    requires forall v | v in s'.tasks && v != t :: v in s.tasks && s'.tasks[v] == s.tasks[v]
    requires forall v | v in s'.tasks && v != t && LiveOwner(s'.tasks[v]) && c.keyOf(s'.tasks[v].review) == key ::
      OwnedAttempt(s'.tasks[v].pc).value != s'.cache.results[key].attempts
    requires t in s'.tasks ==> TaskWhole(c, s', s'.tasks[t])
    ensures Whole(c, s')
  {
    forall k | k in s'.cache.results
      ensures ResultWhole(s'.cache, s'.streamed, k)
    {
      if k != key {
        assert ResultWhole(s.cache, s.streamed, k);
      }
    }
    forall r | r in s'.cache.reviews
      ensures ReviewWhole(s'.cache, r)
    {
      assert ReviewWhole(s.cache, r);
    }
    forall v | v in s'.tasks && v != t
      ensures TaskWhole(c, s', s'.tasks[v])
    {
      assert TaskWhole(c, s, s.tasks[v]);
    }
  }

  lemma ClaimKeepsWhole(c: Config, s: State, t: TaskId, s': State)
    requires Structured(c, s) && Whole(c, s) && ClaimResultStep(c, s, t, s')
    ensures Whole(c, s')
  {
    var k := c.keyOf(s.tasks[t].review);
    if s'.tasks[t].pc.claim.owner {
      forall v | v in s.tasks && v != t && LiveOwner(s.tasks[v]) && c.keyOf(s.tasks[v].review) == k
        ensures OwnedAttempt(s.tasks[v].pc).value != s'.cache.results[k].attempts
      {
        assert TaskOk(c, s.cache, s.tasks[v]);
      }
      WriteKeepsWhole(c, s, t, k, s');
    } else {
      QuietKeepsWhole(c, s, s');
    }
  }

  /** The current owner of `key` is the only live task with the current attempt. */
  lemma NoOtherCurrentOwner(c: Config, s: State, t: TaskId, v: TaskId)
    requires Structured(c, s) && t in s.tasks && v in s.tasks && t != v
    requires s.tasks[t].FileTask? && s.tasks[v].FileTask? && c.keyOf(s.tasks[v].review) == c.keyOf(s.tasks[t].review)
    requires OwnedAttempt(s.tasks[t].pc).Some?
    ensures OwnedAttempt(s.tasks[v].pc) != OwnedAttempt(s.tasks[t].pc)
  {
    if OwnedAttempt(s.tasks[v].pc) == OwnedAttempt(s.tasks[t].pc) {
      var k, n := c.keyOf(s.tasks[t].review), OwnedAttempt(s.tasks[t].pc).value;
      assert Owns(c, s.tasks[v], k, n) && Owns(c, s.tasks[t], k, n);
    }
  }

  /** The current owner writes its own row, leaving a row and reviews that are whole. */
  lemma OwnerWriteKeepsWhole(c: Config, s: State, t: TaskId, task: Task, row: ResultRow, reviews: map<ReviewId, ReviewRow>, s': State)
    requires Structured(c, s) && Whole(c, s) && t in s.tasks && LiveOwner(s.tasks[t])
    requires var k := c.keyOf(s.tasks[t].review);
             && k in s.cache.results && OwnedAttempt(s.tasks[t].pc) == Some(s.cache.results[k].attempts)
             && row.attempts == s.cache.results[k].attempts
             && s' == Goto(s, t, task).(cache := Cache(s.cache.results[k := row], reviews))
             && ResultWhole(s'.cache, s'.streamed, k)
    requires TaskWhole(c, s', task)
    requires reviews.Keys == s.cache.reviews.Keys
    requires forall r | r in reviews :: reviews[r] == s.cache.reviews[r] || ReviewWhole(s'.cache, r)
    ensures Whole(c, s')
  {
    var k := c.keyOf(s.tasks[t].review);
    assert TaskWhole(c, s, s.tasks[t]);
    forall v | v in s.tasks && v != t && LiveOwner(s.tasks[v]) && c.keyOf(s.tasks[v].review) == k
      ensures OwnedAttempt(s.tasks[v].pc).value != row.attempts
    {
      NoOtherCurrentOwner(c, s, t, v);
    }
    WriteKeepsWhole(c, s, t, k, s');
  }

  lemma MarkStreamingKeepsWhole(c: Config, s: State, t: TaskId, s': State)
    requires Structured(c, s) && Whole(c, s) && MarkStreamingStep(c, s, t, s') && Disciplined(c, s, OfFile(t, FileAction.MarkStreaming))
    ensures Whole(c, s')
  {
    var k := c.keyOf(s.tasks[t].review);
    assert TaskOk(c, s.cache, s.tasks[t]) && TaskWhole(c, s, s.tasks[t]) && ResultWhole(s.cache, s.streamed, k);
    OwnerWriteKeepsWhole(c, s, t, s'.tasks[t], s'.cache.results[k], s'.cache.reviews, s');
  }

  lemma RefreshKeepsWhole(c: Config, s: State, t: TaskId, s': State)
    requires Structured(c, s) && Whole(c, s) && RefreshStep(c, s, t, s') && Disciplined(c, s, OfFile(t, FileAction.Refresh))
    ensures Whole(c, s')
  {
    var k := c.keyOf(s.tasks[t].review);
    assert TaskOk(c, s.cache, s.tasks[t]) && TaskWhole(c, s, s.tasks[t]) && ResultWhole(s.cache, s.streamed, k);
    OwnerWriteKeepsWhole(c, s, t, s'.tasks[t], s'.cache.results[k], s'.cache.reviews, s');
  }

  lemma CompleteKeepsWhole(c: Config, s: State, t: TaskId, s': State)
    requires Structured(c, s) && Whole(c, s) && CompleteResultStep(c, s, t, s') && Disciplined(c, s, OfFile(t, FileAction.CompleteResult))
    ensures Whole(c, s')
  {
    var k := c.keyOf(s.tasks[t].review);
    assert TaskOk(c, s.cache, s.tasks[t]) && TaskWhole(c, s, s.tasks[t]);
    OwnerWriteKeepsWhole(c, s, t, s'.tasks[t], s'.cache.results[k], s'.cache.reviews, s');
  }

  lemma FailKeepsWhole(c: Config, s: State, t: TaskId, e: Error, s': State)
    requires Structured(c, s) && Whole(c, s) && GenerationFailsStep(c, s, t, e, s') && Disciplined(c, s, OfFile(t, FileAction.GenerationFails(e)))
    ensures Whole(c, s')
  {
    var k := c.keyOf(s.tasks[t].review);
    assert TaskOk(c, s.cache, s.tasks[t]) && TaskWhole(c, s, s.tasks[t]) && ResultWhole(s.cache, s.streamed, k);
    OwnerWriteKeepsWhole(c, s, t, s'.tasks[t], s'.cache.results[k], s'.cache.reviews, s');
  }

  lemma LoopKeepsWhole(c: Config, s: State, t: TaskId, a: FileAction, s': State)
    requires Structured(c, s) && Whole(c, s) && FileNext(c, s, t, a, s')
    requires a.EnterLoop? || a.Delta?
    ensures Whole(c, s')
  {
    var k := c.keyOf(s.tasks[t].review);
    var n := OwnedAttempt(s.tasks[t].pc).value;
    assert TaskOk(c, s.cache, s.tasks[t]) && TaskWhole(c, s, s.tasks[t]);
    forall j | j in s'.cache.results
      ensures ResultWhole(s'.cache, s'.streamed, j)
    {
      assert ResultWhole(s.cache, s.streamed, j);
    }
    forall r | r in s'.cache.reviews
      ensures ReviewWhole(s'.cache, r)
    {
      assert ReviewWhole(s.cache, r);
    }
    forall v | v in s'.tasks && v != t
      ensures TaskWhole(c, s', s'.tasks[v])
    {
      assert TaskWhole(c, s, s.tasks[v]);
      if s.tasks[v].FileTask? && (s.tasks[v].pc.Generating? || s.tasks[v].pc.Refreshing?)
         && c.keyOf(s.tasks[v].review) == k && s.tasks[v].pc.attempt == n {
        assert Owns(c, s.tasks[v], k, n) && Owns(c, s.tasks[t], k, n);
      }
    }
  }

  lemma FileKeepsWhole(c: Config, s: State, t: TaskId, a: FileAction, s': State)
    requires Structured(c, s) && Coherent(s) && Whole(c, s) && FileNext(c, s, t, a, s') && Disciplined(c, s, OfFile(t, a))
    ensures Whole(c, s')
  {
    if a.ClaimResult? {
      ClaimKeepsWhole(c, s, t, s');
    } else if a.AttachWrite? {
      AttachWriteKeepsWhole(c, s, t, s');
    } else if a.MarkStreaming? {
      MarkStreamingKeepsWhole(c, s, t, s');
    } else if a.Refresh? {
      RefreshKeepsWhole(c, s, t, s');
    } else if a.CompleteResult? {
      CompleteKeepsWhole(c, s, t, s');
    } else if a.GenerationFails? {
      FailKeepsWhole(c, s, t, a.e, s');
    } else if a.EnterLoop? || a.Delta? {
      LoopKeepsWhole(c, s, t, a, s');
    } else if a.LoadReview? || a.SkipReview? || a.SourceFails? || a.AttachRead? || a.Announce? {
      EarlyFileKeepsWhole(c, s, t, a, s');
    } else if a.HandleError? {
      HandleErrorKeepsWhole(c, s, t, s');
    } else {
      LateFileKeepsWhole(c, s, t, a, s');
    }
  }

  lemma NextKeepsWhole(c: Config, s: State, a: Action, s': State)
    requires Structured(c, s) && Coherent(s) && Whole(c, s) && Next(c, s, a, s') && Disciplined(c, s, a)
    ensures Whole(c, s')
  {
    match a
    case Outside(oa) => OutsideKeepsWhole(c, s, oa, s');
    case OfCommit(t, ca) => CommitKeepsWhole(c, s, t, ca, s');
    case OfFile(t, fa) => FileKeepsWhole(c, s, t, fa, s');
    case OfPublish(t, pa) => PublishKeepsWhole(c, s, t, pa, s');
  }

  lemma {:induction false} RunIsWhole(c: Config, states: seq<State>, actions: seq<Action>, i: nat)
    requires Run(c, states, actions) && c.locking && i < |states|
    requires forall j | 0 <= j < i :: Disciplined(c, states[j], actions[j])
    ensures Whole(c, states[i])
  {
    if i > 0 {
      RunIsWhole(c, states, actions, i - 1);
      RunIsStructured(c, states, actions, i - 1);
      RunIsCoherent(c, states, actions, i - 1);
      assert Next(c, states[i - 1], actions[i - 1], states[i]);
      NextKeepsWhole(c, states[i - 1], actions[i - 1], states[i]);
    }
  }

  /** A complete result stays exactly as it is. */
  lemma CompleteIsAbsorbing(c: Config, s: State, a: Action, s': State, k: Key)
    requires Structured(c, s) && Whole(c, s) && Next(c, s, a, s') && Disciplined(c, s, a)
    requires k in s.cache.results && s.cache.results[k].status.Complete?
    ensures k in s'.cache.results && s'.cache.results[k] == s.cache.results[k]
  {
    match a
    case Outside(_) =>
    case OfCommit(_, _) =>
    case OfPublish(_, _) =>
    case OfFile(t, fa) => FileLeavesComplete(c, s, t, fa, s', k);
  }

  lemma FileLeavesComplete(c: Config, s: State, t: TaskId, a: FileAction, s': State, k: Key)
    requires Structured(c, s) && Whole(c, s) && FileNext(c, s, t, a, s') && Disciplined(c, s, OfFile(t, a))
    requires k in s.cache.results && s.cache.results[k].status.Complete?
    ensures k in s'.cache.results && s'.cache.results[k] == s.cache.results[k]
  {
    assert TaskOk(c, s.cache, s.tasks[t]) && TaskWhole(c, s, s.tasks[t]);
  }

  lemma CompleteStaysAfter(c: Config, states: seq<State>, actions: seq<Action>, i: nat, k: Key)
    requires Run(c, states, actions) && c.locking && i < |actions|
    requires forall m | 0 <= m <= i :: Disciplined(c, states[m], actions[m])
    requires k in states[i].cache.results && states[i].cache.results[k].status.Complete?
    ensures k in states[i + 1].cache.results && states[i + 1].cache.results[k] == states[i].cache.results[k]
  {
    RunIsStructured(c, states, actions, i);
    RunIsWhole(c, states, actions, i);
    var s, a, s' := states[i], actions[i], states[i + 1];
    assert Next(c, s, a, s') && Disciplined(c, s, a);
    CompleteIsAbsorbing(c, s, a, s', k);
  }

  lemma {:induction false} CompleteStays(c: Config, states: seq<State>, actions: seq<Action>, i: nat, j: nat, k: Key)
    requires Run(c, states, actions) && c.locking && i <= j < |states|
    requires forall m | 0 <= m < j :: Disciplined(c, states[m], actions[m])
    requires k in states[i].cache.results && states[i].cache.results[k].status.Complete?
    ensures k in states[j].cache.results && states[j].cache.results[k] == states[i].cache.results[k]
  {
    if i < j {
      CompleteStays(c, states, actions, i, j - 1, k);
      CompleteStaysAfter(c, states, actions, j - 1, k);
    }
  }

  /** `publisher.done` raises after `complete` has committed. */
  ghost predicate AnnouncingFails(s: State, a: Action) {
    a.OfFile? && a.fa.GenerationFails? && IsFile(s, a.t) && s.tasks[a.t].pc.Announcing?
  }

  lemma TimelyIsDisciplined(c: Config, b: Bounds, s: State, a: Action, s': State)
    requires InPlace(c, b, s) && Next(c, s, a, s') && !AnnouncingFails(s, a)
    ensures Disciplined(c, s, a)
  {
    if a.OfFile? && IsFile(s, a.t) {
      assert OwnerInPlace(c, b, s.cache, s.now, s.tasks[a.t]);
    }
  }

  /** One step of timely owners keeps results whole exactly when announcing does not fail. */
  lemma WholeUnlessAnnouncingFails(c: Config, b: Bounds, s: State, a: Action, s': State)
    requires Structured(c, s) && Coherent(s) && InPlace(c, b, s) && Whole(c, s) && Next(c, s, a, s')
    ensures Whole(c, s') <==> !AnnouncingFails(s, a)
  {
    if AnnouncingFails(s, a) {
      var k := c.keyOf(s.tasks[a.t].review);
      assert OwnerInPlace(c, b, s.cache, s.now, s.tasks[a.t]) && ResultWhole(s.cache, s.streamed, k);
      assert k in s'.cache.results && !ResultWhole(s'.cache, s'.streamed, k);
    } else {
      TimelyIsDisciplined(c, b, s, a, s');
      NextKeepsWhole(c, s, a, s');
    }
  }

  /** Timely owners meet the discipline the results above assume. */
  lemma TimelyRunIsWhole(c: Config, b: Bounds, states: seq<State>, actions: seq<Action>, i: nat)
    requires Fits(c, b) && Run(c, states, actions) && c.locking && i < |states|
    requires forall j | 0 <= j < i :: Timely(b, states[j], actions[j]) && !AnnouncingFails(states[j], actions[j])
    ensures Whole(c, states[i])
  {
    forall j | 0 <= j < i
      ensures Disciplined(c, states[j], actions[j])
    {
      RunKeepsOwnersInPlace(c, b, states, actions, j);
      assert Next(c, states[j], actions[j], states[j + 1]);
      TimelyIsDisciplined(c, b, states[j], actions[j], states[j + 1]);
    }
    RunIsWhole(c, states, actions, i);
  }
}
