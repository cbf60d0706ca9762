/** What every step keeps: reviews stay attached to their own key, tasks know rows that exist, and
    the owner claims of a key are numbered 1, 2, 3, ... without gap or repeat. */
module Structure {
  import opened Rows
  import opened Text
  import opened CacheService
  import opened Protocol

  // ---- the cache only grows ----

  ghost predicate OwnKeys(c: Config, cache: Cache) {
    forall r | r in cache.reviews && cache.reviews[r].result.Some? ::
      cache.reviews[r].result.value == c.keyOf(r) && c.keyOf(r) in cache.results
  }

  ghost predicate Attached(c: Config, cache: Cache, r: ReviewId) {
    r in cache.reviews && cache.reviews[r].result == Some(c.keyOf(r)) && c.keyOf(r) in cache.results
  }

  lemma ClaimGrows(c: Config, cache: Cache, key: Key, now: int)
    requires OwnKeys(c, cache)
    ensures Grows(cache, ClaimTx(cache, key, now, c.lease).0)
    ensures OwnKeys(c, ClaimTx(cache, key, now, c.lease).0)
  {
  }

  lemma MarkStreamingGrows(c: Config, cache: Cache, key: Key, now: int)
    requires OwnKeys(c, cache)
    ensures Grows(cache, MarkStreamingTx(cache, key, now)) && OwnKeys(c, MarkStreamingTx(cache, key, now))
  {
  }

  lemma CompleteGrows(c: Config, cache: Cache, key: Key, text: string)
    requires OwnKeys(c, cache)
    ensures Grows(cache, CompleteTx(cache, key, text)) && OwnKeys(c, CompleteTx(cache, key, text))
  {
  }

  lemma FailGrows(c: Config, cache: Cache, key: Key, final: bool)
    requires OwnKeys(c, cache)
    ensures Grows(cache, FailTx(cache, key, final)) && OwnKeys(c, FailTx(cache, key, final))
  {
  }

  // ---- tasks ----

  /** The attempt a task owns, from its claim until its result is finished and announced. */
  function OwnedAttempt(pc: FilePc): Option<nat> {
    match pc
    case Claimed(claim, _) => if claim.owner then Some(claim.attempt) else None
    case Attaching(claim, _, _) => if claim.owner then Some(claim.attempt) else None
    case Owning(n, _) => Some(n)
    case Preparing(n, _) => Some(n)
    case Generating(n, _, _, _) => Some(n)
    case Refreshing(n, _, _) => Some(n)
    case Announcing(n) => Some(n)
    case _ => None
  }

  ghost predicate Owns(c: Config, task: Task, key: Key, attempt: nat) {
    task.FileTask? && c.keyOf(task.review) == key && OwnedAttempt(task.pc) == Some(attempt)
  }

  function MaxRetries(c: Config): nat {
    if c.taskMaxRetries < c.rateLimitMaxRetries then c.rateLimitMaxRetries else c.taskMaxRetries
  }

  ghost predicate TaskOk(c: Config, cache: Cache, task: Task) {
    task.FileTask? ==>
      var k := c.keyOf(task.review);
      && task.retries <= MaxRetries(c)
      && (task.pc.Setup? || task.pc.Raised? ==> task.review in cache.reviews)
      && (task.pc.Claimed? || task.pc.Attaching? ==>
            task.review in cache.reviews && task.pc.claim.key == k && k in cache.results)
      && (task.pc.Owning? || task.pc.Preparing? || task.pc.Generating? || task.pc.Refreshing? || task.pc.Announcing? ==>
            Attached(c, cache, task.review))
      && (OwnedAttempt(task.pc).Some? ==>
            k in cache.results && 1 <= OwnedAttempt(task.pc).value <= cache.results[k].attempts)
  }

  ghost predicate TasksOk(c: Config, s: State) {
    && (forall t | t in s.tasks :: t < s.nextId)
    && (forall t | t in s.tasks :: TaskOk(c, s.cache, s.tasks[t]))
  }

  ghost predicate OwnersDistinct(c: Config, s: State) {
    forall t, u, k, n | t in s.tasks && u in s.tasks && Owns(c, s.tasks[t], k, n) && Owns(c, s.tasks[u], k, n) :: t == u
  }

  // ---- numbering ----

  function AttemptsOf(claims: seq<(Key, nat)>, key: Key): seq<nat> {
    if claims == [] then []
    else
      var last := claims[|claims| - 1];
      AttemptsOf(claims[..|claims| - 1], key) + if last.0 == key then [last.1] else []
  }

  function UpTo(n: nat): (r: seq<nat>)
    ensures |r| == n && forall i | 0 <= i < n :: r[i] == i + 1
  {
    if n == 0 then [] else UpTo(n - 1) + [n]
  }

  function AttemptsMade(cache: Cache, key: Key): nat {
    if key in cache.results then cache.results[key].attempts else 0
  }

  ghost predicate Numbered(s: State) {
    forall k :: AttemptsOf(s.claims, k) == UpTo(AttemptsMade(s.cache, k))
  }

  ghost predicate Structured(c: Config, s: State) {
    OwnKeys(c, s.cache) && TasksOk(c, s) && OwnersDistinct(c, s) && Numbered(s)
  }

  // ---- steps ----

  /** A step that leaves claims and attempts alone, and whose new or changed tasks are in order and
      own nothing the same task did not own before. */
  lemma StepKeeps(c: Config, s: State, s': State)
    requires Structured(c, s)
    requires Grows(s.cache, s'.cache) && OwnKeys(c, s'.cache)
    requires s'.claims == s.claims
    requires forall k :: AttemptsMade(s'.cache, k) == AttemptsMade(s.cache, k)
    requires forall t | t in s'.tasks :: t < s'.nextId
    requires forall t | t in s'.tasks ::
      || (t in s.tasks && s'.tasks[t] == s.tasks[t])
      || (TaskOk(c, s'.cache, s'.tasks[t]) && Inherits(s, s', t))
    ensures Structured(c, s')
  {
    forall t | t in s'.tasks
      ensures TaskOk(c, s'.cache, s'.tasks[t])
    {
      if t in s.tasks && s'.tasks[t] == s.tasks[t] {
        TaskOkGrows(c, s.cache, s'.cache, s.tasks[t]);
      }
    }
    forall t, u, k, n | t in s'.tasks && u in s'.tasks && Owns(c, s'.tasks[t], k, n) && Owns(c, s'.tasks[u], k, n)
      ensures t == u
    {
      assert t in s.tasks && Owns(c, s.tasks[t], k, n);
      assert u in s.tasks && Owns(c, s.tasks[u], k, n);
    }
  }

  ghost predicate Inherits(s: State, s': State, t: TaskId)
    requires t in s'.tasks
  {
    s'.tasks[t].FileTask? && OwnedAttempt(s'.tasks[t].pc).Some? ==>
      && t in s.tasks && s.tasks[t].FileTask? && s.tasks[t].review == s'.tasks[t].review
      && OwnedAttempt(s.tasks[t].pc) == OwnedAttempt(s'.tasks[t].pc)
  }

  lemma TaskOkGrows(c: Config, before: Cache, after: Cache, task: Task)
    requires Grows(before, after) && TaskOk(c, before, task)
    ensures TaskOk(c, after, task)
  {
  }

  lemma ClaimResultKeeps(c: Config, s: State, t: TaskId, s': State)
    requires Structured(c, s) && ClaimResultStep(c, s, t, s')
    ensures Structured(c, s')
  {
    var k := c.keyOf(s.tasks[t].review);
    var (cache, claim) := ClaimTx(s.cache, k, s.now, c.lease);
    ClaimGrows(c, s.cache, k, s.now);
    if !claim.owner {
      StepKeeps(c, s, s');
    } else {
      ClaimKeepsTasks(c, s, t, s');
      ClaimKeepsNumbers(c, s, t, s');
    }
  }

  lemma ClaimKeepsTasks(c: Config, s: State, t: TaskId, s': State)
    requires Structured(c, s) && ClaimResultStep(c, s, t, s') && s'.tasks[t].pc.claim.owner
    ensures OwnKeys(c, s'.cache) && TasksOk(c, s') && OwnersDistinct(c, s')
  {
    var k := c.keyOf(s.tasks[t].review);
    ClaimGrows(c, s.cache, k, s.now);
    forall u | u in s'.tasks && u != t
      ensures TaskOk(c, s'.cache, s'.tasks[u])
    {
      TaskOkGrows(c, s.cache, s'.cache, s.tasks[u]);
    }
    forall u, v, j, n | u in s'.tasks && v in s'.tasks && Owns(c, s'.tasks[u], j, n) && Owns(c, s'.tasks[v], j, n)
      ensures u == v
    {
      if u != t && v != t {
        assert Owns(c, s.tasks[u], j, n) && Owns(c, s.tasks[v], j, n);
      }
    }
  }

  lemma ClaimKeepsNumbers(c: Config, s: State, t: TaskId, s': State)
    requires Structured(c, s) && ClaimResultStep(c, s, t, s') && s'.tasks[t].pc.claim.owner
    ensures Numbered(s')
  {
    var claim := s'.tasks[t].pc.claim;
    assert s'.claims[..|s'.claims| - 1] == s.claims;
    forall k
      ensures AttemptsOf(s'.claims, k) == UpTo(AttemptsMade(s'.cache, k))
    {
      assert AttemptsOf(s'.claims, k) == AttemptsOf(s.claims, k) + if claim.key == k then [claim.attempt] else [];
    }
  }

  lemma OutsideKeeps(c: Config, s: State, a: OutsideAction, s': State)
    requires Structured(c, s) && OutsideNext(s, a, s')
    ensures Structured(c, s')
  {
    StepKeeps(c, s, s');
  }

  lemma CommitKeeps(c: Config, s: State, t: TaskId, a: CommitAction, s': State)
    requires Structured(c, s) && CommitNext(s, t, a, s')
    ensures Structured(c, s')
  {
    StepKeeps(c, s, s');
  }

  lemma PublishKeeps(c: Config, s: State, t: TaskId, a: PublishAction, s': State)
    requires Structured(c, s) && PublishNext(c, s, t, a, s')
    ensures Structured(c, s')
  {
    StepKeeps(c, s, s');
  }

  lemma BeforeAttachingKeeps(c: Config, s: State, t: TaskId, a: FileAction, s': State)
    requires Structured(c, s) && FileNext(c, s, t, a, s')
    requires a.LoadReview? || a.SkipReview? || a.SourceFails? || a.AttachRead?
    ensures Structured(c, s')
  {
    StepKeeps(c, s, s');
  }

  lemma SchedulingKeeps(c: Config, s: State, t: TaskId, a: FileAction, s': State)
    requires Structured(c, s) && FileNext(c, s, t, a, s')
    requires a.EnterLoop? || a.Announce? || a.ReadUnits? || a.TriggerUnit? || a.FileDone?
    ensures Structured(c, s')
  {
    StepKeeps(c, s, s');
  }

  lemma AttachWriteKeeps(c: Config, s: State, t: TaskId, s': State)
    requires Structured(c, s) && AttachWriteStep(s, t, s')
    ensures Structured(c, s')
  {
    StepKeeps(c, s, s');
  }

  lemma MarkStreamingKeeps(c: Config, s: State, t: TaskId, s': State)
    requires Structured(c, s) && MarkStreamingStep(c, s, t, s')
    ensures Structured(c, s')
  {
    MarkStreamingGrows(c, s.cache, c.keyOf(s.tasks[t].review), s.now);
    StepKeeps(c, s, s');
  }

  lemma DeltaKeeps(c: Config, s: State, t: TaskId, text: string, s': State)
    requires Structured(c, s) && DeltaStep(c, s, t, text, s')
    ensures Structured(c, s')
  {
    StepKeeps(c, s, s');
  }

  lemma RefreshKeeps(c: Config, s: State, t: TaskId, s': State)
    requires Structured(c, s) && RefreshStep(c, s, t, s')
    ensures Structured(c, s')
  {
    StepKeeps(c, s, s');
  }

  lemma CompleteResultKeeps(c: Config, s: State, t: TaskId, s': State)
    requires Structured(c, s) && CompleteResultStep(c, s, t, s')
    ensures Structured(c, s')
  {
    CompleteGrows(c, s.cache, c.keyOf(s.tasks[t].review), Concat(s.tasks[t].pc.parts));
    StepKeeps(c, s, s');
  }

  lemma GenerationFailsKeeps(c: Config, s: State, t: TaskId, e: Error, s': State)
    requires Structured(c, s) && GenerationFailsStep(c, s, t, e, s')
    ensures Structured(c, s')
  {
    FailGrows(c, s.cache, c.keyOf(s.tasks[t].review), !WillRetry(c, e, s.tasks[t].retries));
    StepKeeps(c, s, s');
  }

  lemma HandleErrorKeeps(c: Config, s: State, t: TaskId, s': State)
    requires Structured(c, s) && HandleErrorStep(c, s, t, s')
    ensures Structured(c, s')
  {
    StepKeeps(c, s, s');
  }

  lemma FileKeeps(c: Config, s: State, t: TaskId, a: FileAction, s': State)
    requires Structured(c, s) && FileNext(c, s, t, a, s')
    ensures Structured(c, s')
  {
    match a
    case ClaimResult => ClaimResultKeeps(c, s, t, s');
    case AttachWrite => AttachWriteKeeps(c, s, t, s');
    case MarkStreaming => MarkStreamingKeeps(c, s, t, s');
    case Delta(text) => DeltaKeeps(c, s, t, text, s');
    case Refresh => RefreshKeeps(c, s, t, s');
    case CompleteResult => CompleteResultKeeps(c, s, t, s');
    case GenerationFails(e) => GenerationFailsKeeps(c, s, t, e, s');
    case HandleError => HandleErrorKeeps(c, s, t, s');
    case LoadReview => BeforeAttachingKeeps(c, s, t, a, s');
    case SkipReview => BeforeAttachingKeeps(c, s, t, a, s');
    case SourceFails(_) => BeforeAttachingKeeps(c, s, t, a, s');
    case AttachRead => BeforeAttachingKeeps(c, s, t, a, s');
    case _ => SchedulingKeeps(c, s, t, a, s');
  }

  lemma NextKeepsStructure(c: Config, s: State, a: Action, s': State)
    requires Structured(c, s) && Next(c, s, a, s')
    ensures Structured(c, s')
  {
    match a
    case Outside(oa) => OutsideKeeps(c, s, oa, s');
    case OfCommit(t, ca) => CommitKeeps(c, s, t, ca, s');
    case OfFile(t, fa) => FileKeeps(c, s, t, fa, s');
    case OfPublish(t, pa) => PublishKeeps(c, s, t, pa, s');
  }

  lemma {:induction false} RunIsStructured(c: Config, states: seq<State>, actions: seq<Action>, i: nat)
    requires Run(c, states, actions) && i < |states|
    ensures Structured(c, states[i])
  {
    if i > 0 {
      RunIsStructured(c, states, actions, i - 1);
      assert Next(c, states[i - 1], actions[i - 1], states[i]);
      NextKeepsStructure(c, states[i - 1], actions[i - 1], states[i]);
    }
  }

  // ---- what that says about runs ----

  /** The owner claims of every key carry the attempts 1..n, each once and in order. */
  lemma OwnerClaimsAreNumbered(c: Config, states: seq<State>, actions: seq<Action>, i: nat, k: Key)
    requires Run(c, states, actions) && i < |states|
    ensures var made := AttemptsOf(states[i].claims, k);
            && |made| == (if k in states[i].cache.results then states[i].cache.results[k].attempts else 0)
            && forall j | 0 <= j < |made| :: made[j] == j + 1
  {
    RunIsStructured(c, states, actions, i);
  }

  /** What a claim does, read off the result's row: a missing row, a failed one, and an unfinished one
      past its lease go to the claimer, with the next attempt and no text; any other row is followed
      and stays as it is. In particular the retry of a failed generation generates again. */
  lemma ClaimIsDecidedByTheRow(c: Config, s: State, t: TaskId, s': State)
    requires ClaimResultStep(c, s, t, s')
    ensures var k := c.keyOf(s.tasks[t].review);
            && t in s'.tasks && s'.tasks[t].FileTask? && s'.tasks[t].pc.Claimed? && k in s'.cache.results
            && var claim := s'.tasks[t].pc.claim;
            && (claim.owner <==>
                  || k !in s.cache.results
                  || s.cache.results[k].status == ResultStatus.Failed
                  || (s.cache.results[k].status in {ResultStatus.Pending, ResultStatus.Streaming}
                      && s.now - s.cache.results[k].claimedAt > c.lease))
            && (claim.owner ==>
                  && s'.cache.results[k] == ResultRow(ResultStatus.Pending, "", claim.attempt, s.now)
                  && claim.attempt == (if k in s.cache.results then s.cache.results[k].attempts + 1 else 1)
                  && s'.claims == s.claims + [(k, claim.attempt)])
            && (!claim.owner ==> s'.cache.results == s.cache.results && claim.status == s.cache.results[k].status && s'.claims == s.claims)
            && s'.cache.reviews == s.cache.reviews
            && forall j | j in s.cache.results && j != k :: j in s'.cache.results && s'.cache.results[j] == s.cache.results[j]
  {
  }

  /** Neither a failure nor an expired lease lets `a` take a result over. */
  ghost predicate Undisturbed(c: Config, s: State, a: Action) {
    && !(a.OfFile? && a.fa.GenerationFails?)
    && (a.OfFile? && a.fa.ClaimResult? && IsFile(s, a.t) ==>
          var k := c.keyOf(s.tasks[a.t].review);
          k in s.cache.results ==> s.now - s.cache.results[k].claimedAt <= c.lease)
  }

  ghost predicate NeverFailed(s: State) {
    && (forall k | k in s.cache.results :: s.cache.results[k].attempts == 1 && !s.cache.results[k].status.Failed?)
  }

  lemma FileKeepsNeverFailed(c: Config, s: State, t: TaskId, a: FileAction, s': State)
    requires NeverFailed(s) && FileNext(c, s, t, a, s') && Undisturbed(c, s, OfFile(t, a))
    ensures NeverFailed(s')
  {
  }

  /** Any number of concurrent claims of a key then yields exactly one owner. */
  lemma {:induction false} OneOwnerClaimPerKey(c: Config, states: seq<State>, actions: seq<Action>, i: nat, k: Key)
    requires Run(c, states, actions) && i < |states|
    requires forall j | 0 <= j < i :: Undisturbed(c, states[j], actions[j])
    ensures NeverFailed(states[i])
    ensures AttemptsOf(states[i].claims, k) == (if k in states[i].cache.results then [1] else [])
  {
    if i > 0 {
      OneOwnerClaimPerKey(c, states, actions, i - 1, k);
      var s, a := states[i - 1], actions[i - 1];
      assert Next(c, s, a, states[i]) && Undisturbed(c, s, a);
      if a.OfFile? {
        FileKeepsNeverFailed(c, s, a.t, a.fa, states[i]);
      }
    }
    OwnerClaimsAreNumbered(c, states, actions, i, k);
  }
}
