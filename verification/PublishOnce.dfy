/** At most one task per unit is between its publish claim and the outcome, and `finish` succeeds at
    most once per unit, whatever crashes, retries and concurrent triggers do. */
module PublishOnce {
  import opened Rows
  import opened Protocol

  ghost predicate InFlight(task: Task, u: UnitId) {
    task.PublishTask? && task.unit == u && (task.ppc.Publishing? || task.ppc.Posted?)
  }

  ghost predicate OneInFlight(s: State) {
    forall t, v, u | t in s.tasks && v in s.tasks && InFlight(s.tasks[t], u) && InFlight(s.tasks[v], u) :: t == v
  }

  ghost predicate FlightOk(s: State, task: Task) {
    task.PublishTask? && (task.ppc.Publishing? || task.ppc.Posted?) ==>
      && task.unit in s.units && s.units[task.unit].Publishing?
      && s.posted[task.unit] == (if task.ppc.Posted? then 1 else 0)
  }

  ghost predicate PostedOk(s: State, u: UnitId) {
    && s.posted[u] <= 1
    && (s.posted[u] == 1 ==> u in s.units && (s.units[u].Publishing? || s.units[u].Published?))
  }

  ghost predicate PublishedOnce(s: State) {
    && OneInFlight(s)
    && (forall t | t in s.tasks :: FlightOk(s, s.tasks[t]))
    && (forall u :: PostedOk(s, u))
  }

  /** A step that starts no flight and leaves every unit that has one alone. */
  lemma NoFlightKeeps(s: State, s': State)
    requires PublishedOnce(s)
    requires s'.posted == s.posted
    requires forall u | u in s.units :: u in s'.units && s'.units[u] == s.units[u]
    requires forall t | t in s'.tasks ::
      (t in s.tasks && s'.tasks[t] == s.tasks[t]) || !(s'.tasks[t].PublishTask? && (s'.tasks[t].ppc.Publishing? || s'.tasks[t].ppc.Posted?))
    ensures PublishedOnce(s')
  {
    forall u
      ensures PostedOk(s', u)
    {
      assert PostedOk(s, u);
    }
    forall t | t in s'.tasks
      ensures FlightOk(s', s'.tasks[t])
    {
      if t in s.tasks && s'.tasks[t] == s.tasks[t] {
        assert FlightOk(s, s.tasks[t]);
      }
    }
  }

  lemma OutsideKeepsOnce(s: State, a: OutsideAction, s': State)
    requires PublishedOnce(s) && OutsideNext(s, a, s')
    ensures PublishedOnce(s')
  {
    NoFlightKeeps(s, s');
  }

  lemma CommitKeepsOnce(s: State, t: TaskId, a: CommitAction, s': State)
    requires PublishedOnce(s) && CommitNext(s, t, a, s')
    ensures PublishedOnce(s')
  {
    NoFlightKeeps(s, s');
  }

  lemma FileKeepsOnce(c: Config, s: State, t: TaskId, a: FileAction, s': State)
    requires PublishedOnce(s) && FileNext(c, s, t, a, s')
    ensures PublishedOnce(s')
  {
    assert s'.posted == s.posted && s'.units == s.units;
    NoFlightKeeps(s, s');
  }

  /** A step of the task `t`, which may change its own unit's row. */
  lemma OwnUnitKeeps(s: State, t: TaskId, s': State)
    requires PublishedOnce(s) && IsPublish(s, t)
    requires forall v | v in s'.tasks && v != t :: v in s.tasks && s'.tasks[v] == s.tasks[v]
    requires forall v | v in s.tasks && v != t :: !InFlight(s.tasks[v], s.tasks[t].unit)
    requires t in s'.tasks ==> s'.tasks[t].PublishTask? && s'.tasks[t].unit == s.tasks[t].unit && FlightOk(s', s'.tasks[t])
    requires forall u | u != s.tasks[t].unit :: s'.posted[u] == s.posted[u]
    requires forall u | u in s.units && u != s.tasks[t].unit :: u in s'.units && s'.units[u] == s.units[u]
    requires PostedOk(s', s.tasks[t].unit)
    ensures PublishedOnce(s')
  {
    forall u
      ensures PostedOk(s', u)
    {
      assert PostedOk(s, u);
    }
    forall v | v in s'.tasks && v != t
      ensures FlightOk(s', s'.tasks[v])
    {
      assert FlightOk(s, s.tasks[v]) && !InFlight(s.tasks[v], s.tasks[t].unit);
    }
  }

  lemma ClaimUnitKeepsOnce(c: Config, s: State, t: TaskId, s': State)
    requires PublishedOnce(s) && ClaimUnitStep(c, s, t, s')
    ensures PublishedOnce(s')
  {
    var u := s.tasks[t].unit;
    assert PostedOk(s, u);
    if Ready(s, u) {
      forall v | v in s.tasks && v != t
        ensures !InFlight(s.tasks[v], u)
      {
        assert FlightOk(s, s.tasks[v]);
      }
      OwnUnitKeeps(s, t, s');
    } else {
      NoFlightKeeps(s, s');
    }
  }

  lemma FlightStepKeepsOnce(c: Config, s: State, t: TaskId, a: PublishAction, s': State)
    requires PublishedOnce(s) && PublishNext(c, s, t, a, s')
    requires a.Finish? || a.FinishFails? || a.FinishRaises? || a.MarkPublished?
    ensures PublishedOnce(s')
  {
    var u := s.tasks[t].unit;
    assert InFlight(s.tasks[t], u) && FlightOk(s, s.tasks[t]) && PostedOk(s, u);
    OwnUnitKeeps(s, t, s');
  }

  lemma NextKeepsOnce(c: Config, s: State, a: Action, s': State)
    requires PublishedOnce(s) && Next(c, s, a, s')
    ensures PublishedOnce(s')
  {
    match a
    case Outside(oa) => OutsideKeepsOnce(s, oa, s');
    case OfCommit(t, ca) => CommitKeepsOnce(s, t, ca, s');
    case OfFile(t, fa) => FileKeepsOnce(c, s, t, fa, s');
    case OfPublish(t, pa) =>
      match pa {
        case ClaimUnit => ClaimUnitKeepsOnce(c, s, t, s');
        case RequeuePublish => NoFlightKeeps(s, s');
        case _ => FlightStepKeepsOnce(c, s, t, pa, s');
      }
  }

  lemma {:induction false} RunPublishesOnce(c: Config, states: seq<State>, actions: seq<Action>, i: nat)
    requires Run(c, states, actions) && i < |states|
    ensures PublishedOnce(states[i])
  {
    if i > 0 {
      RunPublishesOnce(c, states, actions, i - 1);
      assert Next(c, states[i - 1], actions[i - 1], states[i]);
      NextKeepsOnce(c, states[i - 1], actions[i - 1], states[i]);
    }
  }

  lemma FileStartsNoFlight(c: Config, s: State, v: TaskId, a: FileAction, s': State, t: TaskId, u: UnitId)
    requires FileNext(c, s, v, a, s')
    requires t in s'.tasks && InFlight(s'.tasks[t], u)
    ensures t in s.tasks && InFlight(s.tasks[t], u)
  {
  }

  lemma OutsideStartsNoFlight(s: State, a: OutsideAction, s': State, t: TaskId, u: UnitId)
    requires OutsideNext(s, a, s')
    requires t in s'.tasks && InFlight(s'.tasks[t], u)
    ensures t in s.tasks && InFlight(s.tasks[t], u)
  {
  }

  lemma CommitStartsNoFlight(s: State, v: TaskId, a: CommitAction, s': State, t: TaskId, u: UnitId)
    requires CommitNext(s, v, a, s')
    requires t in s'.tasks && InFlight(s'.tasks[t], u)
    ensures t in s.tasks && InFlight(s.tasks[t], u)
  {
  }

  lemma PublishStartsWithClaim(c: Config, s: State, v: TaskId, a: PublishAction, s': State, t: TaskId, u: UnitId)
    requires PublishNext(c, s, v, a, s')
    requires t in s'.tasks && InFlight(s'.tasks[t], u)
    ensures (t in s.tasks && InFlight(s.tasks[t], u)) || (v == t && a == ClaimUnit && Ready(s, u))
  {
  }

  /** The unit waits to be published and none of its reviews is unfinished, in the rows' own terms. */
  ghost predicate ReadyRows(s: State, u: UnitId) {
    && u in s.units && s.units[u] == PublishStatus.Pending
    && forall r | r in s.cache.reviews && r.unit == u :: s.cache.reviews[r].status !in {ReviewStatus.Pending, ReviewStatus.Streaming}
  }

  lemma FlightStartsWithClaim(c: Config, s: State, a: Action, s': State, t: TaskId, u: UnitId)
    requires Next(c, s, a, s')
    requires t in s'.tasks && InFlight(s'.tasks[t], u)
    requires !(t in s.tasks && InFlight(s.tasks[t], u))
    ensures a == OfPublish(t, ClaimUnit) && ReadyRows(s, u)
  {
    match a
    case Outside(oa) => OutsideStartsNoFlight(s, oa, s', t, u);
    case OfCommit(v, ca) => CommitStartsNoFlight(s, v, ca, s', t, u);
    case OfFile(v, fa) => FileStartsNoFlight(c, s, v, fa, s', t, u);
    case OfPublish(v, pa) => PublishStartsWithClaim(c, s, v, pa, s', t, u);
  }

  /** And a claim on a ready unit always takes it: to publish it, or to skip it where nothing is published. */
  lemma ClaimTakesReadyUnits(c: Config, s: State, t: TaskId, s': State)
    requires ClaimUnitStep(c, s, t, s')
    ensures var u := s.tasks[t].unit;
            if ReadyRows(s, u) then
              if c.publisherEnabled then t in s'.tasks && InFlight(s'.tasks[t], u) && s'.units == s.units[u := PublishStatus.Publishing]
              else t !in s'.tasks && s'.units == s.units[u := PublishStatus.Skipped]
            else t !in s'.tasks && s'.units == s.units
  {
  }

  /** Whoever is publishing a unit claimed it while all its reviews were terminal, and has held the
      claim ever since. */
  lemma {:induction false} FlightBeganReady(c: Config, states: seq<State>, actions: seq<Action>, i: nat, t: TaskId, u: UnitId)
    returns (j: nat)
    requires Run(c, states, actions) && i < |states|
    requires t in states[i].tasks && InFlight(states[i].tasks[t], u)
    ensures j < i && actions[j] == OfPublish(t, ClaimUnit) && ReadyRows(states[j], u)
    ensures forall k | j < k <= i :: t in states[k].tasks && InFlight(states[k].tasks[t], u)
  {
    assert i > 0;
    assert Next(c, states[i - 1], actions[i - 1], states[i]);
    if t in states[i - 1].tasks && InFlight(states[i - 1].tasks[t], u) {
      j := FlightBeganReady(c, states, actions, i - 1, t, u);
    } else {
      FlightStartsWithClaim(c, states[i - 1], actions[i - 1], states[i], t, u);
      j := i - 1;
    }
  }
}
