/** With bounds on how long an owner may be silent, its lease never runs out while it is alive, so
    nobody takes a result over from a running owner and every write by id is the current owner's. */
module LiveLeases {
  import opened Rows
  import opened CacheService
  import opened Protocol
  import opened Structure

  /** `startup`: from the claim to `mark_streaming`; `setup`: from there to the token loop; `gap`:
      between two consecutive owner events in the loop. */
  datatype Bounds = Bounds(startup: nat, setup: nat, gap: nat)

  predicate Fits(c: Config, b: Bounds) {
    b.startup <= c.lease && b.setup + LEASE_REFRESH_SECONDS + b.gap <= c.lease
  }

  /** The latest time at which an owner may still be where it is. */
  function Deadline(b: Bounds, pc: FilePc): Option<int> {
    match pc
    case Claimed(claim, since) => if claim.owner then Some(since + b.startup) else None
    case Attaching(claim, since, _) => if claim.owner then Some(since + b.startup) else None
    case Owning(_, since) => Some(since + b.startup)
    case Preparing(_, since) => Some(since + b.setup)
    case Generating(_, _, _, since) => Some(since + b.gap)
    case Refreshing(_, _, since) => Some(since + b.gap)
    case _ => None
  }

  predicate InTime(b: Bounds, task: Task, now: int) {
    task.FileTask? && Deadline(b, task.pc).Some? ==> now <= Deadline(b, task.pc).value
  }

  ghost predicate Timely(b: Bounds, s: State, a: Action) {
    a.Outside? && a.oa.Tick? ==> forall t | t in s.tasks :: InTime(b, s.tasks[t], s.now + a.oa.d)
  }

  /** What the owner's own clock says about the row's `claimed_at`. */
  predicate LeaseKnown(b: Bounds, pc: FilePc, claimedAt: int, now: int) {
    match pc
    case Claimed(claim, since) => claim.owner ==> claimedAt == since
    case Attaching(claim, since, _) => claim.owner ==> claimedAt == since
    case Owning(_, since) => claimedAt == since
    case Preparing(_, since) => claimedAt == since
    case Generating(_, _, lastLease, since) => since - lastLease <= LEASE_REFRESH_SECONDS && lastLease - b.setup <= claimedAt
    case Refreshing(_, _, since) => since - LEASE_REFRESH_SECONDS - b.setup <= claimedAt
    case _ => true
  }

  ghost predicate OwnerInPlace(c: Config, b: Bounds, cache: Cache, now: int, task: Task) {
    task.FileTask? && OwnedAttempt(task.pc).Some? ==>
      var k := c.keyOf(task.review);
      && k in cache.results && cache.results[k].attempts == OwnedAttempt(task.pc).value
      && (if task.pc.Announcing? then cache.results[k].status.Complete?
          else cache.results[k].status.Pending? || cache.results[k].status.Streaming?)
      && InTime(b, task, now)
      && LeaseKnown(b, task.pc, cache.results[k].claimedAt, now)
  }

  ghost predicate InPlace(c: Config, b: Bounds, s: State) {
    forall t | t in s.tasks :: OwnerInPlace(c, b, s.cache, s.now, s.tasks[t])
  }

  predicate LiveOwner(task: Task) {
    task.FileTask? && OwnedAttempt(task.pc).Some? && !task.pc.Announcing?
  }

  /** The age of `claimed_at` never exceeds the lease while its owner is alive. */
  lemma LiveLeaseHolds(c: Config, b: Bounds, cache: Cache, now: int, task: Task)
    requires Fits(c, b) && LiveOwner(task) && OwnerInPlace(c, b, cache, now, task)
    ensures now - cache.results[c.keyOf(task.review)].claimedAt <= c.lease
    ensures !MayTakeOver(cache.results[c.keyOf(task.review)], now, c.lease)
  {
  }

  /** A key has at most one owner. */
  lemma OneOwner(c: Config, b: Bounds, s: State, t: TaskId, v: TaskId)
    requires Structured(c, s) && InPlace(c, b, s)
    requires t in s.tasks && v in s.tasks && s.tasks[t].FileTask? && s.tasks[v].FileTask?
    requires OwnedAttempt(s.tasks[t].pc).Some? && OwnedAttempt(s.tasks[v].pc).Some?
    requires c.keyOf(s.tasks[t].review) == c.keyOf(s.tasks[v].review)
    ensures t == v
  {
    var k := c.keyOf(s.tasks[t].review);
    var n := OwnedAttempt(s.tasks[t].pc).value;
    assert OwnerInPlace(c, b, s.cache, s.now, s.tasks[t]) && OwnerInPlace(c, b, s.cache, s.now, s.tasks[v]);
    assert Owns(c, s.tasks[t], k, n) && Owns(c, s.tasks[v], k, n);
  }

  /** A step of `t` that touches at most the row of a key nobody else owns. */
  lemma StepKeepsInPlace(c: Config, b: Bounds, s: State, t: TaskId, key: Key, s': State)
    requires InPlace(c, b, s) && s'.now == s.now
    requires forall k | k in s.cache.results && k != key :: k in s'.cache.results && s'.cache.results[k] == s.cache.results[k]
    requires forall v | v in s'.tasks && v != t ::
      || (v in s.tasks && s'.tasks[v] == s.tasks[v] && !(s.tasks[v].FileTask? && OwnedAttempt(s.tasks[v].pc).Some? && c.keyOf(s.tasks[v].review) == key))
      || !(s'.tasks[v].FileTask? && OwnedAttempt(s'.tasks[v].pc).Some?)
    requires t in s'.tasks ==> OwnerInPlace(c, b, s'.cache, s'.now, s'.tasks[t])
    ensures InPlace(c, b, s')
  {
    forall v | v in s'.tasks
      ensures OwnerInPlace(c, b, s'.cache, s'.now, s'.tasks[v])
    {
      if v != t && v in s.tasks && s'.tasks[v] == s.tasks[v] {
        assert OwnerInPlace(c, b, s.cache, s.now, s.tasks[v]);
      }
    }
  }

  /** A step that changes no result row, and no task but those that then own nothing new. */
  lemma QuietKeepsInPlace(c: Config, b: Bounds, s: State, s': State)
    requires InPlace(c, b, s) && s'.now == s.now && s'.cache.results == s.cache.results
    requires forall v | v in s'.tasks ::
      (v in s.tasks && s'.tasks[v] == s.tasks[v]) || OwnerInPlace(c, b, s'.cache, s'.now, s'.tasks[v])
    ensures InPlace(c, b, s')
  {
    forall v | v in s'.tasks
      ensures OwnerInPlace(c, b, s'.cache, s'.now, s'.tasks[v])
    {
      if v in s.tasks && s'.tasks[v] == s.tasks[v] {
        assert OwnerInPlace(c, b, s.cache, s.now, s.tasks[v]);
      }
    }
  }

  lemma OutsideKeepsInPlace(c: Config, b: Bounds, s: State, a: OutsideAction, s': State)
    requires InPlace(c, b, s) && OutsideNext(s, a, s') && Timely(b, s, Outside(a))
    ensures InPlace(c, b, s')
  {
    if a.Tick? {
      forall v | v in s'.tasks
        ensures OwnerInPlace(c, b, s'.cache, s'.now, s'.tasks[v])
      {
        assert OwnerInPlace(c, b, s.cache, s.now, s.tasks[v]);
        assert InTime(b, s.tasks[v], s.now + a.d);
      }
    } else {
      QuietKeepsInPlace(c, b, s, s');
    }
  }

  lemma CommitKeepsInPlace(c: Config, b: Bounds, s: State, t: TaskId, a: CommitAction, s': State)
    requires InPlace(c, b, s) && CommitNext(s, t, a, s')
    ensures InPlace(c, b, s')
  {
    QuietKeepsInPlace(c, b, s, s');
  }

  lemma PublishKeepsInPlace(c: Config, b: Bounds, s: State, t: TaskId, a: PublishAction, s': State)
    requires InPlace(c, b, s) && PublishNext(c, s, t, a, s')
    ensures InPlace(c, b, s')
  {
    QuietKeepsInPlace(c, b, s, s');
  }

  lemma ClaimKeepsInPlace(c: Config, b: Bounds, s: State, t: TaskId, s': State)
    requires Fits(c, b) && Structured(c, s) && InPlace(c, b, s) && ClaimResultStep(c, s, t, s')
    ensures InPlace(c, b, s')
  {
    var k := c.keyOf(s.tasks[t].review);
    if s'.tasks[t].pc.claim.owner {
      forall v | v in s.tasks && s.tasks[v].FileTask? && OwnedAttempt(s.tasks[v].pc).Some?
        ensures c.keyOf(s.tasks[v].review) != k
      {
        assert OwnerInPlace(c, b, s.cache, s.now, s.tasks[v]);
        if c.keyOf(s.tasks[v].review) == k && !s.tasks[v].pc.Announcing? {
          LiveLeaseHolds(c, b, s.cache, s.now, s.tasks[v]);
        }
      }
      StepKeepsInPlace(c, b, s, t, k, s');
    } else {
      QuietKeepsInPlace(c, b, s, s');
    }
  }

  /** A write by id: the writer is the key's only owner. */
  lemma OwnerWriteKeepsInPlace(c: Config, b: Bounds, s: State, t: TaskId, a: FileAction, s': State)
    requires Structured(c, s) && InPlace(c, b, s) && FileNext(c, s, t, a, s')
    requires a.MarkStreaming? || a.Refresh? || a.CompleteResult? || a.GenerationFails?
    ensures InPlace(c, b, s')
  {
    var k := c.keyOf(s.tasks[t].review);
    assert OwnerInPlace(c, b, s.cache, s.now, s.tasks[t]);
    forall v | v in s.tasks && v != t && s.tasks[v].FileTask? && OwnedAttempt(s.tasks[v].pc).Some?
      ensures c.keyOf(s.tasks[v].review) != k
    {
      if c.keyOf(s.tasks[v].review) == k {
        OneOwner(c, b, s, t, v);
      }
    }
    StepKeepsInPlace(c, b, s, t, k, s');
  }

  lemma EarlyFileKeepsInPlace(c: Config, b: Bounds, s: State, t: TaskId, a: FileAction, s': State)
    requires InPlace(c, b, s) && FileNext(c, s, t, a, s')
    requires a.LoadReview? || a.SkipReview? || a.SourceFails? || a.AttachRead? || a.AttachWrite?
    ensures InPlace(c, b, s')
  {
    assert OwnerInPlace(c, b, s.cache, s.now, s.tasks[t]);
    QuietKeepsInPlace(c, b, s, s');
  }

  lemma LoopKeepsInPlace(c: Config, b: Bounds, s: State, t: TaskId, a: FileAction, s': State)
    requires InPlace(c, b, s) && FileNext(c, s, t, a, s')
    requires a.EnterLoop? || a.Delta?
    ensures InPlace(c, b, s')
  {
    assert OwnerInPlace(c, b, s.cache, s.now, s.tasks[t]);
    QuietKeepsInPlace(c, b, s, s');
  }

  lemma HandleErrorKeepsInPlace(c: Config, b: Bounds, s: State, t: TaskId, s': State)
    requires InPlace(c, b, s) && HandleErrorStep(c, s, t, s')
    ensures InPlace(c, b, s')
  {
    QuietKeepsInPlace(c, b, s, s');
  }

  lemma LateFileKeepsInPlace(c: Config, b: Bounds, s: State, t: TaskId, a: FileAction, s': State)
    requires InPlace(c, b, s) && FileNext(c, s, t, a, s')
    requires a.Announce? || a.ReadUnits? || a.TriggerUnit? || a.FileDone?
    ensures InPlace(c, b, s')
  {
    QuietKeepsInPlace(c, b, s, s');
  }

  lemma NextKeepsInPlace(c: Config, b: Bounds, s: State, a: Action, s': State)
    requires Fits(c, b) && Structured(c, s) && InPlace(c, b, s) && Next(c, s, a, s') && Timely(b, s, a)
    ensures InPlace(c, b, s')
  {
    match a
    case Outside(oa) => OutsideKeepsInPlace(c, b, s, oa, s');
    case OfCommit(t, ca) => CommitKeepsInPlace(c, b, s, t, ca, s');
    case OfPublish(t, pa) => PublishKeepsInPlace(c, b, s, t, pa, s');
    case OfFile(t, fa) =>
      if fa.ClaimResult? {
        ClaimKeepsInPlace(c, b, s, t, s');
      } else if fa.MarkStreaming? || fa.Refresh? || fa.CompleteResult? || fa.GenerationFails? {
        OwnerWriteKeepsInPlace(c, b, s, t, fa, s');
      } else if fa.EnterLoop? || fa.Delta? {
        LoopKeepsInPlace(c, b, s, t, fa, s');
      } else if fa.LoadReview? || fa.SkipReview? || fa.SourceFails? || fa.AttachRead? || fa.AttachWrite? {
        EarlyFileKeepsInPlace(c, b, s, t, fa, s');
      } else if fa.HandleError? {
        HandleErrorKeepsInPlace(c, b, s, t, s');
      } else {
        LateFileKeepsInPlace(c, b, s, t, fa, s');
      }
  }

  lemma {:induction false} RunKeepsOwnersInPlace(c: Config, b: Bounds, states: seq<State>, actions: seq<Action>, i: nat)
    requires Fits(c, b) && Run(c, states, actions) && i < |states|
    requires forall j | 0 <= j < i :: Timely(b, states[j], actions[j])
    ensures InPlace(c, b, states[i])
  {
    if i > 0 {
      RunKeepsOwnersInPlace(c, b, states, actions, i - 1);
      RunIsStructured(c, states, actions, i - 1);
      assert Next(c, states[i - 1], actions[i - 1], states[i]);
      NextKeepsInPlace(c, b, states[i - 1], actions[i - 1], states[i]);
    }
  }

  /** In a timely run a live owner's lease has not expired, and a claim of its key only follows. */
  lemma LiveOwnerIsNotDispossessed(c: Config, b: Bounds, states: seq<State>, actions: seq<Action>, i: nat, t: TaskId)
    requires Fits(c, b) && Run(c, states, actions) && i < |states|
    requires forall j | 0 <= j < i :: Timely(b, states[j], actions[j])
    requires t in states[i].tasks && LiveOwner(states[i].tasks[t])
    ensures var s := states[i];
            var k := c.keyOf(s.tasks[t].review);
            && k in s.cache.results
            && s.now - s.cache.results[k].claimedAt <= c.lease
            && ClaimTx(s.cache, k, s.now, c.lease) == (s.cache, Claim(k, false, s.cache.results[k].status, 1))
  {
    RunKeepsOwnersInPlace(c, b, states, actions, i);
    assert OwnerInPlace(c, b, states[i].cache, states[i].now, states[i].tasks[t]);
    LiveLeaseHolds(c, b, states[i].cache, states[i].now, states[i].tasks[t]);
  }
}
