/** The Celery tasks over the cache and the units, as one state machine.

    Each committed transaction is one step, except `attach_review`, which is a read under a share
    lock and then a write. Messages are acknowledged late: a task keeps its message until it ends, a
    crash puts it back on the queue, and a broker may deliver it a second time while it is running.
    `claims`, `streamed` and `posted` record what happened and steer nothing. */
module Protocol {
  import opened Rows
  import opened Text
  import opened CacheService

  type TaskId = nat

  /** Settings that do not change during a run. Each review's cache key is fixed. */
  datatype Config = Config(
    keyOf: ReviewId -> Key,
    lease: nat,
    taskMaxRetries: nat,
    rateLimitMaxRetries: nat,
    publisherEnabled: bool,
    locking: bool)

  /** An exception: only LLM and source errors carry `retryable` and `rate_limited`. */
  datatype Error = LLM(retryable: bool, rateLimited: bool) | Source(retryable: bool, rateLimited: bool) | Other {
    predicate Retryable() {
      (LLM? || Source?) && retryable
    }
    predicate RateLimited() {
      (LLM? || Source?) && rateLimited
    }
  }

  datatype CommitPc = Queued | Listing | Inserted | Fanning(pending: set<ReviewId>) | AllSkipped

  datatype FilePc =
    | Queued
    | Started                                                    // delivered, row not read yet
    | Setup                                                      // row read: fetch content, build the key
    | Claimed(claim: Claim, since: int)
    | Attaching(claim: Claim, since: int, current: ResultStatus) // holds the share lock
    | Owning(attempt: nat, since: int)                           // attached; about to mark_streaming
    | Preparing(attempt: nat, since: int)                        // chunks, retrieval, prompt
    | Generating(attempt: nat, parts: seq<string>, lastLease: int, since: int)
    | Refreshing(attempt: nat, parts: seq<string>, since: int)
    | Announcing(attempt: nat)                                   // complete committed, done not published
    | Raised(error: Error)
    | Scheduling
    | Triggering(units: set<UnitId>)

  datatype PublishPc = Queued | Checking | Publishing | Posted | Requeueing

  datatype Task =
    | CommitTask(unit: UnitId, retries: nat, cpc: CommitPc)
    | FileTask(review: ReviewId, retries: nat, pc: FilePc)
    | PublishTask(unit: UnitId, retries: nat, ppc: PublishPc)
  {
    predicate IsQueued() {
      match this
      case CommitTask(_, _, cpc) => cpc.Queued?
      case FileTask(_, _, pc) => pc.Queued?
      case PublishTask(_, _, ppc) => ppc.Queued?
    }

    /** The message this task was delivered from. */
    function Message(): Task {
      match this
      case CommitTask(u, n, _) => CommitTask(u, n, CommitPc.Queued)
      case FileTask(r, n, _) => FileTask(r, n, FilePc.Queued)
      case PublishTask(u, n, _) => PublishTask(u, n, PublishPc.Queued)
    }
  }

  datatype State = State(
    cache: Cache,
    units: map<UnitId, PublishStatus>,
    tasks: map<TaskId, Task>,
    nextId: TaskId,
    now: int,
    claims: seq<(Key, nat)>,                   // owner claims, in commit order
    streamed: map<(Key, nat), seq<string>>,    // deltas produced by each attempt
    posted: multiset<UnitId>)                  // successful `finish` calls

  ghost predicate Init(s: State) {
    s == State(Cache(map[], map[]), map[], map[], 0, s.now, [], map[], multiset{})
  }

  function WillRetry(c: Config, e: Error, retries: nat): bool {
    if !e.Retryable() then false
    else retries < (if e.RateLimited() then c.rateLimitMaxRetries else c.taskMaxRetries)
  }

  const PUBLISH_MAX_RETRIES: nat := 5
  const COMMIT_MAX_RETRIES: nat := 5
  const LEASE_REFRESH_SECONDS: nat := 30

  // ---- steps ----

  function Goto(s: State, t: TaskId, task: Task): State {
    s.(tasks := s.tasks[t := task])
  }

  function Spawn(s: State, task: Task): State {
    s.(tasks := s.tasks[s.nextId := task], nextId := s.nextId + 1)
  }

  function End(s: State, t: TaskId): State {
    s.(tasks := s.tasks - {t})
  }

  predicate IsFile(s: State, t: TaskId) {
    t in s.tasks && s.tasks[t].FileTask?
  }

  predicate IsCommit(s: State, t: TaskId) {
    t in s.tasks && s.tasks[t].CommitTask?
  }

  predicate IsPublish(s: State, t: TaskId) {
    t in s.tasks && s.tasks[t].PublishTask?
  }

  predicate HoldsShareLock(task: Task, key: Key) {
    task.FileTask? && task.pc.Attaching? && task.pc.claim.key == key
  }

  /** No transaction holds the result row FOR SHARE, so an UPDATE of it can go ahead. */
  ghost predicate Unlocked(c: Config, s: State, key: Key) {
    c.locking ==> forall t | t in s.tasks :: !HoldsShareLock(s.tasks[t], key)
  }

  predicate AllTerminal(cache: Cache, u: UnitId) {
    forall r | r in cache.reviews && r.unit == u :: cache.reviews[r].status.Terminal()
  }

  /** The WHERE clause of the publish claim. */
  predicate Ready(s: State, u: UnitId) {
    u in s.units && s.units[u].Pending? && AllTerminal(s.cache, u)
  }

  datatype OutsideAction =
    | Webhook(u: UnitId)
    | Tick(d: nat)
    | Deliver(t: TaskId)
    | Crash(t: TaskId)
    | Redeliver(t: TaskId)
    | Escape(t: TaskId)

  datatype CommitAction =
    | InsertReviews(files: map<ReviewId, bool>)
    | ListingFails(retryable: bool)
    | SelectPending
    | EnqueueReview(r: ReviewId)
    | EnqueueUnit
    | CommitDone

  datatype FileAction =
    | LoadReview
    | SkipReview
    | SourceFails(e: Error)
    | ClaimResult
    | AttachRead
    | AttachWrite
    | MarkStreaming
    | EnterLoop
    | Delta(text: string)
    | Refresh
    | CompleteResult
    | Announce
    | GenerationFails(e: Error)
    | HandleError
    | ReadUnits
    | TriggerUnit(u: UnitId)
    | FileDone

  datatype PublishAction =
    | ClaimUnit
    | Finish
    | FinishFails(retryable: bool)
    | FinishRaises
    | MarkPublished
    | RequeuePublish

  datatype Action =
    | Outside(oa: OutsideAction)
    | OfCommit(t: TaskId, ca: CommitAction)
    | OfFile(t: TaskId, fa: FileAction)
    | OfPublish(t: TaskId, pa: PublishAction)

  ghost predicate Next(c: Config, s: State, a: Action, s': State) {
    match a
    case Outside(oa) => OutsideNext(s, oa, s')
    case OfCommit(t, ca) => CommitNext(s, t, ca, s')
    case OfFile(t, fa) => FileNext(c, s, t, fa, s')
    case OfPublish(t, pa) => PublishNext(c, s, t, pa, s')
  }

  ghost predicate OutsideNext(s: State, a: OutsideAction, s': State) {
    match a
    case Webhook(u) => WebhookStep(s, u, s')
    case Tick(d) => s' == s.(now := s.now + d)
    case Deliver(t) => DeliverStep(s, t, s')
    case Crash(t) => CrashStep(s, t, s')
    case Redeliver(t) => RedeliverStep(s, t, s')
    case Escape(t) => EscapeStep(s, t, s')
  }

  ghost predicate CommitNext(s: State, t: TaskId, a: CommitAction, s': State) {
    match a
    case InsertReviews(files) => InsertReviewsStep(s, t, files, s')
    case ListingFails(retryable) => ListingFailsStep(s, t, retryable, s')
    case SelectPending => SelectPendingStep(s, t, s')
    case EnqueueReview(r) => EnqueueReviewStep(s, t, r, s')
    case EnqueueUnit => EnqueueUnitStep(s, t, s')
    case CommitDone => CommitDoneStep(s, t, s')
  }

  ghost predicate FileNext(c: Config, s: State, t: TaskId, a: FileAction, s': State) {
    match a
    case LoadReview => LoadReviewStep(s, t, s')
    case SkipReview => SkipReviewStep(s, t, s')
    case SourceFails(e) => SourceFailsStep(s, t, e, s')
    case ClaimResult => ClaimResultStep(c, s, t, s')
    case AttachRead => AttachReadStep(s, t, s')
    case AttachWrite => AttachWriteStep(s, t, s')
    case MarkStreaming => MarkStreamingStep(c, s, t, s')
    case EnterLoop => EnterLoopStep(c, s, t, s')
    case Delta(text) => DeltaStep(c, s, t, text, s')
    case Refresh => RefreshStep(c, s, t, s')
    case CompleteResult => CompleteResultStep(c, s, t, s')
    case Announce => AnnounceStep(s, t, s')
    case GenerationFails(e) => GenerationFailsStep(c, s, t, e, s')
    case HandleError => HandleErrorStep(c, s, t, s')
    case ReadUnits => ReadUnitsStep(s, t, s')
    case TriggerUnit(u) => TriggerUnitStep(s, t, u, s')
    case FileDone => FileDoneStep(s, t, s')
  }

  ghost predicate PublishNext(c: Config, s: State, t: TaskId, a: PublishAction, s': State) {
    match a
    case ClaimUnit => ClaimUnitStep(c, s, t, s')
    case Finish => FinishStep(s, t, s')
    case FinishFails(retryable) => FinishFailsStep(s, t, retryable, s')
    case FinishRaises => FinishRaisesStep(s, t, s')
    case MarkPublished => MarkPublishedStep(s, t, s')
    case RequeuePublish => RequeuePublishStep(s, t, s')
  }

  /** `process_push` / `process_pull_request`: insert the unit, then enqueue its review. */
  ghost predicate WebhookStep(s: State, u: UnitId, s': State) {
    s' == Spawn(s, CommitTask(u, 0, CommitPc.Queued))
          .(units := if u in s.units then s.units else s.units[u := PublishStatus.Pending])
  }

  ghost predicate DeliverStep(s: State, t: TaskId, s': State) {
    && t in s.tasks && s.tasks[t].IsQueued()
    && s' == Goto(s, t, match s.tasks[t]
                        case CommitTask(u, n, _) => CommitTask(u, n, Listing)
                        case FileTask(r, n, _) => FileTask(r, n, Started)
                        case PublishTask(u, n, _) => PublishTask(u, n, Checking))
  }

  ghost predicate CrashStep(s: State, t: TaskId, s': State) {
    t in s.tasks && s' == Goto(s, t, s.tasks[t].Message())
  }

  ghost predicate RedeliverStep(s: State, t: TaskId, s': State) {
    t in s.tasks && s' == Spawn(s, s.tasks[t].Message())
  }

  /** Where an exception is caught by nobody: anywhere in `review_commit` but for SourceErrors of the
      listing; in the handlers of `review_file` and the publishing that follows them; around
      `finish` in `publish_unit`. `FinishRaises` is the same for `finish` itself. */
  predicate Unguarded(task: Task) {
    match task
    case CommitTask(_, _, cpc) => !cpc.Queued?
    case FileTask(_, _, pc) => pc.Raised? || pc.Scheduling? || pc.Triggering?
    case PublishTask(_, _, ppc) => ppc.Checking? || ppc.Posted? || ppc.Requeueing?
  }

  /** The exception ends the task, and its message is acknowledged all the same. */
  ghost predicate EscapeStep(s: State, t: TaskId, s': State) {
    t in s.tasks && Unguarded(s.tasks[t]) && s' == End(s, t)
  }

  // ---- review_commit ----

  /** INSERT ... ON CONFLICT (commit, file) DO NOTHING, one row per changed file; `files` maps a file
      to whether it is skipped. */
  function InsertedRows(reviews: map<ReviewId, ReviewRow>, files: map<ReviewId, bool>): map<ReviewId, ReviewRow> {
    map r | r in reviews.Keys + files.Keys ::
      if r in reviews then reviews[r]
      else ReviewRow(if files[r] then ReviewStatus.Skipped else ReviewStatus.Pending, None, false)
  }

  ghost predicate InsertReviewsStep(s: State, t: TaskId, files: map<ReviewId, bool>, s': State) {
    && IsCommit(s, t) && s.tasks[t].cpc.Listing?
    && (forall r | r in files :: r.unit == s.tasks[t].unit)
    && s' == Goto(s, t, s.tasks[t].(cpc := Inserted))
             .(cache := s.cache.(reviews := InsertedRows(s.cache.reviews, files)))
  }

  /** A SourceError while listing the files: retry, or give the unit up. */
  ghost predicate ListingFailsStep(s: State, t: TaskId, retryable: bool, s': State) {
    && IsCommit(s, t) && s.tasks[t].cpc.Listing?
    && s' == if retryable && s.tasks[t].retries < COMMIT_MAX_RETRIES
             then Goto(s, t, CommitTask(s.tasks[t].unit, s.tasks[t].retries + 1, CommitPc.Queued))
             else End(s, t)
  }

  function PendingReviews(cache: Cache, u: UnitId): set<ReviewId> {
    set r | r in cache.reviews && r.unit == u && cache.reviews[r].status.Pending?
  }

  ghost predicate SelectPendingStep(s: State, t: TaskId, s': State) {
    && IsCommit(s, t) && s.tasks[t].cpc.Inserted?
    && var pending := PendingReviews(s.cache, s.tasks[t].unit);
       s' == Goto(s, t, s.tasks[t].(cpc := if pending == {} then AllSkipped else Fanning(pending)))
  }

  ghost predicate EnqueueReviewStep(s: State, t: TaskId, r: ReviewId, s': State) {
    && IsCommit(s, t) && s.tasks[t].cpc.Fanning? && r in s.tasks[t].cpc.pending
    && s' == Spawn(Goto(s, t, s.tasks[t].(cpc := Fanning(s.tasks[t].cpc.pending - {r}))),
                   FileTask(r, 0, FilePc.Queued))
  }

  ghost predicate EnqueueUnitStep(s: State, t: TaskId, s': State) {
    && IsCommit(s, t) && s.tasks[t].cpc.AllSkipped?
    && s' == Spawn(Goto(s, t, s.tasks[t].(cpc := Fanning({}))),
                   PublishTask(s.tasks[t].unit, 0, PublishPc.Queued))
  }

  ghost predicate CommitDoneStep(s: State, t: TaskId, s': State) {
    && IsCommit(s, t) && s.tasks[t].cpc == Fanning({})
    && s' == End(s, t)
  }

  // ---- review_file ----

  ghost predicate LoadReviewStep(s: State, t: TaskId, s': State) {
    && IsFile(s, t) && s.tasks[t].pc.Started?
    && var r := s.tasks[t].review;
       var done := r !in s.cache.reviews || s.cache.reviews[r].status.Complete? || s.cache.reviews[r].status.Skipped?;
       s' == Goto(s, t, s.tasks[t].(pc := if done then Scheduling else Setup))
  }

  ghost predicate SkipReviewStep(s: State, t: TaskId, s': State) {
    && IsFile(s, t) && s.tasks[t].pc.Setup?
    && s' == Goto(s, t, s.tasks[t].(pc := Scheduling)).(cache := SkipTx(s.cache, s.tasks[t].review))
  }

  ghost predicate SourceFailsStep(s: State, t: TaskId, e: Error, s': State) {
    && IsFile(s, t) && s.tasks[t].pc.Setup?
    && s' == Goto(s, t, s.tasks[t].(pc := Raised(e)))
  }

  ghost predicate ClaimResultStep(c: Config, s: State, t: TaskId, s': State) {
    && IsFile(s, t) && s.tasks[t].pc.Setup?
    && var k := c.keyOf(s.tasks[t].review);
       var (cache, claim) := ClaimTx(s.cache, k, s.now, c.lease);
       && (k in s.cache.results && claim.owner ==> Unlocked(c, s, k))
       && s' == Goto(s, t, s.tasks[t].(pc := Claimed(claim, s.now)))
                .(cache := cache, claims := if claim.owner then s.claims + [(k, claim.attempt)] else s.claims)
  }

  ghost predicate AttachReadStep(s: State, t: TaskId, s': State) {
    && IsFile(s, t) && s.tasks[t].pc.Claimed?
    && var Claimed(claim, since) := s.tasks[t].pc;
       && claim.key in s.cache.results
       && s' == Goto(s, t, s.tasks[t].(pc := Attaching(claim, since, s.cache.results[claim.key].status)))
  }

  ghost predicate AttachWriteStep(s: State, t: TaskId, s': State) {
    && IsFile(s, t) && s.tasks[t].pc.Attaching?
    && var Attaching(claim, since, current) := s.tasks[t].pc;
       var pc := if claim.owner then Owning(claim.attempt, since)
                 else if current.Failed? then Raised(LLM(true, false))
                 else Scheduling;
       s' == Goto(s, t, s.tasks[t].(pc := pc)).(cache := AttachTx(s.cache, s.tasks[t].review, claim, current))
  }

  ghost predicate MarkStreamingStep(c: Config, s: State, t: TaskId, s': State) {
    && IsFile(s, t) && s.tasks[t].pc.Owning?
    && var k := c.keyOf(s.tasks[t].review);
       && Unlocked(c, s, k)
       && s' == Goto(s, t, s.tasks[t].(pc := Preparing(s.tasks[t].pc.attempt, s.now)))
                .(cache := MarkStreamingTx(s.cache, k, s.now))
  }

  ghost predicate EnterLoopStep(c: Config, s: State, t: TaskId, s': State) {
    && IsFile(s, t) && s.tasks[t].pc.Preparing?
    && var n := s.tasks[t].pc.attempt;
       s' == Goto(s, t, s.tasks[t].(pc := Generating(n, [], s.now, s.now)))
             .(streamed := s.streamed[(c.keyOf(s.tasks[t].review), n) := []])
  }

  /** One text delta; when the lease is old enough its refresh is part of handling the delta, so
      `since`, the time of the last finished owner event, moves only once that has committed. */
  ghost predicate DeltaStep(c: Config, s: State, t: TaskId, text: string, s': State) {
    && IsFile(s, t) && s.tasks[t].pc.Generating?
    && var Generating(n, parts, lastLease, since) := s.tasks[t].pc;
       var pc := if s.now - lastLease > LEASE_REFRESH_SECONDS
                 then Refreshing(n, parts + [text], since)
                 else Generating(n, parts + [text], lastLease, s.now);
       s' == Goto(s, t, s.tasks[t].(pc := pc))
             .(streamed := s.streamed[(c.keyOf(s.tasks[t].review), n) := parts + [text]])
  }

  ghost predicate RefreshStep(c: Config, s: State, t: TaskId, s': State) {
    && IsFile(s, t) && s.tasks[t].pc.Refreshing?
    && var Refreshing(n, parts, since) := s.tasks[t].pc;
       var k := c.keyOf(s.tasks[t].review);
       && Unlocked(c, s, k)
       && s' == Goto(s, t, s.tasks[t].(pc := Generating(n, parts, s.now, s.now)))
                .(cache := RefreshTx(s.cache, k, s.now))
  }

  ghost predicate CompleteResultStep(c: Config, s: State, t: TaskId, s': State) {
    && IsFile(s, t) && s.tasks[t].pc.Generating?
    && var k := c.keyOf(s.tasks[t].review);
       var text := Concat(s.tasks[t].pc.parts);
       && !Blank(text)
       && Unlocked(c, s, k)
       && s' == Goto(s, t, s.tasks[t].(pc := Announcing(s.tasks[t].pc.attempt)))
                .(cache := CompleteTx(s.cache, k, text))
  }

  ghost predicate AnnounceStep(s: State, t: TaskId, s': State) {
    && IsFile(s, t) && s.tasks[t].pc.Announcing?
    && s' == Goto(s, t, s.tasks[t].(pc := Scheduling))
  }

  /** Any exception inside `_generate`, `publisher.done` included: fail the result, then raise. */
  ghost predicate GenerationFailsStep(c: Config, s: State, t: TaskId, e: Error, s': State) {
    && IsFile(s, t)
    && var pc := s.tasks[t].pc;
       && (pc.Owning? || pc.Preparing? || pc.Generating? || pc.Announcing?)
       && var k := c.keyOf(s.tasks[t].review);
          && Unlocked(c, s, k)
          && s' == Goto(s, t, s.tasks[t].(pc := Raised(e)))
                   .(cache := FailTx(s.cache, k, !WillRetry(c, e, s.tasks[t].retries)))
  }

  /** The task's own handlers: requeue, or mark the review failed and go on to publishing. */
  ghost predicate HandleErrorStep(c: Config, s: State, t: TaskId, s': State) {
    && IsFile(s, t) && s.tasks[t].pc.Raised?
    && var FileTask(r, n, pc) := s.tasks[t];
       s' == if !pc.error.Other? && WillRetry(c, pc.error, n)
             then Goto(s, t, FileTask(r, n + 1, FilePc.Queued))
             else Goto(s, t, FileTask(r, n, Scheduling)).(cache := MarkFailedTx(s.cache, r))
  }

  /** The units of the review and of every review that shares its result. */
  function UnitsToTrigger(cache: Cache, review: ReviewId): set<UnitId> {
    if review !in cache.reviews then {}
    else set r | r in cache.reviews
                 && (r == review || (cache.reviews[review].result.Some? && cache.reviews[r].result == cache.reviews[review].result))
               :: r.unit
  }

  ghost predicate ReadUnitsStep(s: State, t: TaskId, s': State) {
    && IsFile(s, t) && s.tasks[t].pc.Scheduling?
    && s' == Goto(s, t, s.tasks[t].(pc := Triggering(UnitsToTrigger(s.cache, s.tasks[t].review))))
  }

  ghost predicate TriggerUnitStep(s: State, t: TaskId, u: UnitId, s': State) {
    && IsFile(s, t) && s.tasks[t].pc.Triggering? && u in s.tasks[t].pc.units
    && s' == Spawn(Goto(s, t, s.tasks[t].(pc := Triggering(s.tasks[t].pc.units - {u}))),
                   PublishTask(u, 0, PublishPc.Queued))
  }

  ghost predicate FileDoneStep(s: State, t: TaskId, s': State) {
    && IsFile(s, t) && s.tasks[t].pc == Triggering({})
    && s' == End(s, t)
  }

  // ---- publish_unit ----

  ghost predicate ClaimUnitStep(c: Config, s: State, t: TaskId, s': State) {
    && IsPublish(s, t) && s.tasks[t].ppc.Checking?
    && var u := s.tasks[t].unit;
       if !c.publisherEnabled then
         s' == End(s, t).(units := if Ready(s, u) then s.units[u := PublishStatus.Skipped] else s.units)
       else if Ready(s, u) then
         s' == Goto(s, t, s.tasks[t].(ppc := PublishPc.Publishing)).(units := s.units[u := PublishStatus.Publishing])
       else
         s' == End(s, t)
  }

  ghost predicate FinishStep(s: State, t: TaskId, s': State) {
    && IsPublish(s, t) && s.tasks[t].ppc.Publishing?
    && s' == Goto(s, t, s.tasks[t].(ppc := Posted)).(posted := s.posted + multiset{s.tasks[t].unit})
  }

  ghost predicate FinishFailsStep(s: State, t: TaskId, retryable: bool, s': State) {
    && IsPublish(s, t) && s.tasks[t].ppc.Publishing?
    && var u := s.tasks[t].unit;
       s' == if retryable && s.tasks[t].retries < PUBLISH_MAX_RETRIES
             then Goto(s, t, s.tasks[t].(ppc := Requeueing)).(units := s.units[u := PublishStatus.Pending])
             else End(s, t).(units := s.units[u := PublishStatus.Failed])
  }

  /** Anything but a SourceError escapes the task: its message is acknowledged all the same. */
  ghost predicate FinishRaisesStep(s: State, t: TaskId, s': State) {
    && IsPublish(s, t) && s.tasks[t].ppc.Publishing?
    && s' == End(s, t)
  }

  ghost predicate MarkPublishedStep(s: State, t: TaskId, s': State) {
    && IsPublish(s, t) && s.tasks[t].ppc.Posted?
    && s' == End(s, t).(units := s.units[s.tasks[t].unit := PublishStatus.Published])
  }

  ghost predicate RequeuePublishStep(s: State, t: TaskId, s': State) {
    && IsPublish(s, t) && s.tasks[t].ppc.Requeueing?
    && s' == Goto(s, t, PublishTask(s.tasks[t].unit, s.tasks[t].retries + 1, PublishPc.Queued))
  }

  // ---- runs ----

  ghost predicate Run(c: Config, states: seq<State>, actions: seq<Action>) {
    && |states| == |actions| + 1
    && Init(states[0])
    && forall i | 0 <= i < |actions| :: Next(c, states[i], actions[i], states[i + 1])
  }
}
