/** The language model is called once for each owner claim that reaches the token loop, and so at most
    once for a key that neither fails nor expires. */
module OneCall {
  import opened Rows
  import Text
  import opened CacheService
  import opened Protocol
  import opened Structure

  /** `a` starts the token loop of attempt `n` of `k`. */
  ghost predicate Calls(c: Config, s: State, a: Action, k: Key, n: nat) {
    && a.OfFile? && a.fa.EnterLoop? && IsFile(s, a.t)
    && c.keyOf(s.tasks[a.t].review) == k && s.tasks[a.t].pc.Preparing? && s.tasks[a.t].pc.attempt == n
  }

  /** The owner has not reached the loop yet. */
  predicate BeforeLoop(pc: FilePc) {
    OwnedAttempt(pc).Some? && (pc.Claimed? || pc.Attaching? || pc.Owning? || pc.Preparing?)
  }

  ghost predicate CallKnown(c: Config, s: State, task: Task) {
    task.FileTask? && OwnedAttempt(task.pc).Some? ==>
      ((c.keyOf(task.review), OwnedAttempt(task.pc).value) in s.streamed <==> !BeforeLoop(task.pc))
  }

  /** An attempt is in `streamed` from its call on. */
  ghost predicate CallsKnown(c: Config, s: State) {
    && (forall t | t in s.tasks :: CallKnown(c, s, s.tasks[t]))
    && (forall k, n | (k, n) in s.streamed :: k in s.cache.results && n <= s.cache.results[k].attempts)
  }

  /** A step that calls nothing, and whose changed tasks own nothing or stay on their side of the loop. */
  lemma QuietKeepsCalls(c: Config, s: State, s': State)
    requires CallsKnown(c, s) && s'.streamed.Keys == s.streamed.Keys && Grows(s.cache, s'.cache)
    requires forall t | t in s'.tasks :: (t in s.tasks && s'.tasks[t] == s.tasks[t]) || CallKnown(c, s', s'.tasks[t])
    ensures CallsKnown(c, s')
  {
    forall t | t in s'.tasks
      ensures CallKnown(c, s', s'.tasks[t])
    {
      if t in s.tasks && s'.tasks[t] == s.tasks[t] {
        assert CallKnown(c, s, s.tasks[t]);
      }
    }
  }

  lemma OutsideKeepsCalls(c: Config, s: State, a: OutsideAction, s': State)
    requires CallsKnown(c, s) && OutsideNext(s, a, s')
    ensures CallsKnown(c, s')
  {
    QuietKeepsCalls(c, s, s');
  }

  lemma CommitKeepsCalls(c: Config, s: State, t: TaskId, a: CommitAction, s': State)
    requires CallsKnown(c, s) && CommitNext(s, t, a, s')
    ensures CallsKnown(c, s')
  {
    QuietKeepsCalls(c, s, s');
  }

  lemma PublishKeepsCalls(c: Config, s: State, t: TaskId, a: PublishAction, s': State)
    requires CallsKnown(c, s) && PublishNext(c, s, t, a, s')
    ensures CallsKnown(c, s')
  {
    QuietKeepsCalls(c, s, s');
  }

  lemma ClaimKeepsCalls(c: Config, s: State, t: TaskId, s': State)
    requires Structured(c, s) && CallsKnown(c, s) && ClaimResultStep(c, s, t, s')
    ensures CallsKnown(c, s')
  {
    ClaimGrows(c, s.cache, c.keyOf(s.tasks[t].review), s.now);
    QuietKeepsCalls(c, s, s');
  }

  lemma EnterKeepsCalls(c: Config, s: State, t: TaskId, s': State)
    requires Structured(c, s) && CallsKnown(c, s) && EnterLoopStep(c, s, t, s')
    ensures CallsKnown(c, s')
  {
    var k, n := c.keyOf(s.tasks[t].review), s.tasks[t].pc.attempt;
    assert TaskOk(c, s.cache, s.tasks[t]);
    forall v | v in s'.tasks
      ensures CallKnown(c, s', s'.tasks[v])
    {
      assert CallKnown(c, s, s.tasks[v]);
      if v != t && Owns(c, s.tasks[v], k, n) {
        assert Owns(c, s.tasks[t], k, n);
      }
    }
  }

  lemma EarlyKeepsCalls(c: Config, s: State, t: TaskId, a: FileAction, s': State)
    requires Structured(c, s) && CallsKnown(c, s) && FileNext(c, s, t, a, s')
    requires a.LoadReview? || a.SkipReview? || a.SourceFails? || a.AttachRead? || a.AttachWrite? || a.MarkStreaming?
    ensures CallsKnown(c, s')
  {
    assert CallKnown(c, s, s.tasks[t]);
    if a.MarkStreaming? {
      MarkStreamingGrows(c, s.cache, c.keyOf(s.tasks[t].review), s.now);
    }
    QuietKeepsCalls(c, s, s');
  }

  lemma LoopKeepsCalls(c: Config, s: State, t: TaskId, a: FileAction, s': State)
    requires Structured(c, s) && CallsKnown(c, s) && FileNext(c, s, t, a, s')
    requires a.Delta? || a.Refresh? || a.CompleteResult?
    ensures CallsKnown(c, s')
  {
    assert CallKnown(c, s, s.tasks[t]);
    if a.CompleteResult? {
      CompleteGrows(c, s.cache, c.keyOf(s.tasks[t].review), Text.Concat(s.tasks[t].pc.parts));
    }
    QuietKeepsCalls(c, s, s');
  }

  lemma FailKeepsCalls(c: Config, s: State, t: TaskId, e: Error, s': State)
    requires Structured(c, s) && CallsKnown(c, s) && GenerationFailsStep(c, s, t, e, s')
    ensures CallsKnown(c, s')
  {
    FailGrows(c, s.cache, c.keyOf(s.tasks[t].review), !WillRetry(c, e, s.tasks[t].retries));
    QuietKeepsCalls(c, s, s');
  }

  lemma LateKeepsCalls(c: Config, s: State, t: TaskId, a: FileAction, s': State)
    requires CallsKnown(c, s) && FileNext(c, s, t, a, s')
    requires a.Announce? || a.HandleError? || a.ReadUnits? || a.TriggerUnit? || a.FileDone?
    ensures CallsKnown(c, s')
  {
    QuietKeepsCalls(c, s, s');
  }

  lemma NextKeepsCalls(c: Config, s: State, a: Action, s': State)
    requires Structured(c, s) && CallsKnown(c, s) && Next(c, s, a, s')
    ensures CallsKnown(c, s') && s.streamed.Keys <= s'.streamed.Keys
  {
    match a
    case Outside(oa) => OutsideKeepsCalls(c, s, oa, s');
    case OfCommit(t, ca) => CommitKeepsCalls(c, s, t, ca, s');
    case OfPublish(t, pa) => PublishKeepsCalls(c, s, t, pa, s');
    case OfFile(t, fa) =>
      if fa.ClaimResult? {
        ClaimKeepsCalls(c, s, t, s');
      } else if fa.EnterLoop? {
        EnterKeepsCalls(c, s, t, s');
      } else if fa.Delta? || fa.Refresh? || fa.CompleteResult? {
        LoopKeepsCalls(c, s, t, fa, s');
      } else if fa.GenerationFails? {
        FailKeepsCalls(c, s, t, fa.e, s');
      } else if fa.LoadReview? || fa.SkipReview? || fa.SourceFails? || fa.AttachRead? || fa.AttachWrite? || fa.MarkStreaming? {
        EarlyKeepsCalls(c, s, t, fa, s');
      } else {
        LateKeepsCalls(c, s, t, fa, s');
      }
  }

  lemma {:induction false} RunKnowsCalls(c: Config, states: seq<State>, actions: seq<Action>, i: nat)
    requires Run(c, states, actions) && i < |states|
    ensures CallsKnown(c, states[i])
  {
    if i > 0 {
      RunKnowsCalls(c, states, actions, i - 1);
      RunIsStructured(c, states, actions, i - 1);
      assert Next(c, states[i - 1], actions[i - 1], states[i]);
      NextKeepsCalls(c, states[i - 1], actions[i - 1], states[i]);
    }
  }

  lemma {:induction false} CalledStaysKnown(c: Config, states: seq<State>, actions: seq<Action>, i: nat, j: nat, k: Key, n: nat)
    requires Run(c, states, actions) && i < j < |states| && Calls(c, states[i], actions[i], k, n)
    ensures (k, n) in states[j].streamed
  {
    RunKnowsCalls(c, states, actions, j - 1);
    RunIsStructured(c, states, actions, j - 1);
    assert Next(c, states[j - 1], actions[j - 1], states[j]);
    NextKeepsCalls(c, states[j - 1], actions[j - 1], states[j]);
    if i < j - 1 {
      CalledStaysKnown(c, states, actions, i, j - 1, k, n);
    }
  }

  /** Once attached, every owner goes on to call the model and nobody else does: a follower is finished,
      or, when the result it follows has failed, raises an error worth a retry. */
  lemma OnlyOwnersGenerate(s: State, t: TaskId, s': State)
    requires AttachWriteStep(s, t, s')
    ensures var Attaching(claim, _, current), pc := s.tasks[t].pc, s'.tasks[t].pc;
            && (pc.Owning? <==> claim.owner)
            && (pc.Owning? ==> pc.attempt == claim.attempt)
            && (pc.Raised? <==> !claim.owner && current == ResultStatus.Failed)
            && (pc.Raised? ==> pc.error.Retryable())
            && (pc.Scheduling? <==> !claim.owner && current != ResultStatus.Failed)
  {
  }

  /** In every run each attempt calls the model at most once, whatever crashes and redeliveries do. */
  lemma OneCallPerAttempt(c: Config, states: seq<State>, actions: seq<Action>, i: nat, j: nat, k: Key, n: nat)
    requires Run(c, states, actions) && i < |actions| && j < |actions|
    requires Calls(c, states[i], actions[i], k, n) && Calls(c, states[j], actions[j], k, n)
    ensures i == j
  {
    if i != j {
      var (x, y) := if i < j then (i, j) else (j, i);
      CallIsNew(c, states, actions, y, k, n);
      CalledStaysKnown(c, states, actions, x, y, k, n);
    }
  }

  lemma CallIsNew(c: Config, states: seq<State>, actions: seq<Action>, i: nat, k: Key, n: nat)
    requires Run(c, states, actions) && i < |actions| && Calls(c, states[i], actions[i], k, n)
    ensures (k, n) !in states[i].streamed
  {
    RunKnowsCalls(c, states, actions, i);
    assert CallKnown(c, states[i], states[i].tasks[actions[i].t]);
  }

  /** With no failure and no expired lease, a key's model is called at most once in the whole run. */
  lemma OneCallPerKey(c: Config, states: seq<State>, actions: seq<Action>, i: nat, j: nat, k: Key, m: nat, n: nat)
    requires Run(c, states, actions) && i < |actions| && j < |actions|
    requires forall x | 0 <= x < |actions| :: Undisturbed(c, states[x], actions[x])
    requires Calls(c, states[i], actions[i], k, m) && Calls(c, states[j], actions[j], k, n)
    ensures i == j && m == n == 1
  {
    FirstAttemptCalls(c, states, actions, i, k, m);
    FirstAttemptCalls(c, states, actions, j, k, n);
    OneCallPerAttempt(c, states, actions, i, j, k, 1);
  }

  lemma FirstAttemptCalls(c: Config, states: seq<State>, actions: seq<Action>, i: nat, k: Key, n: nat)
    requires Run(c, states, actions) && i < |actions|
    requires forall x | 0 <= x < |actions| :: Undisturbed(c, states[x], actions[x])
    requires Calls(c, states[i], actions[i], k, n)
    ensures n == 1
  {
    RunIsStructured(c, states, actions, i);
    OneOwnerClaimPerKey(c, states, actions, i, k);
    assert TaskOk(c, states[i].cache, states[i].tasks[actions[i].t]);
  }
}
