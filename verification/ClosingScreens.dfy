/** How a review ends on screen: which answer each state of the rows gets, and what the browser may
    show as skipped, failed or complete. */
module ClosingScreens {
  import opened Rows
  import opened StreamLog
  import opened StreamClient
  import opened LiveStream

  ghost predicate HasFailed(log: seq<Event>) {
    exists i :: 0 <= i < |log| && log[i].Failed?
  }

  /** What the server has read from the rows up to now. */
  datatype Seen = Seen(skipped: bool, failed: bool, complete: bool)

  predicate Includes(seen: Seen, review: Review) {
    && (review.status == ReviewStatus.Skipped ==> seen.skipped)
    && (review.status == ReviewStatus.Failed && review.result == ResultStatus.Failed ==> seen.failed)
    && (review.result == ResultStatus.Complete ==> seen.complete)
  }

  ghost predicate WireFounded(log: seq<Event>, seen: Seen, wire: Wire) {
    match wire
    case Entry(i, e) => i < |log| && log[i] == e
    case FollowingNote => true
    case Snapshot(_) => seen.complete
    case SkippedNote => seen.skipped
    case TerminalDone(skipped) => if skipped then seen.skipped else seen.complete
    case TerminalFailed => seen.failed
  }

  /** Whatever the screen ends with has a row or an entry behind it, and once closed it has ended. */
  ghost predicate Founded(s: Live, seen: Seen) {
    && (s.connection.Some? ==> forall w | w in s.connection.value.inFlight :: WireFounded(s.log, seen, w))
    && (s.screen.phase.Skipped? ==> seen.skipped)
    && (s.screen.phase.Failed? ==> seen.failed || HasFailed(s.log))
    && (s.screen.phase.Complete? ==> seen.complete || HasDone(s.log))
    && (s.closed ==> s.connection.None? && s.screen.deltas == 0 && (s.screen.phase.Complete? || s.screen.phase.Skipped? || s.screen.phase.Failed?))
  }

  /** The log only grows. */
  lemma LogOnlyGrows(s: Live, a: Action, s': Live)
    requires Next(s, a, s')
    ensures |s.log| <= |s'.log| && forall i | 0 <= i < |s.log| :: s'.log[i] == s.log[i]
  {
  }

  lemma EntriesStay(s: Live, seen: Seen, s': Live)
    requires |s.log| <= |s'.log| && forall i | 0 <= i < |s.log| :: s'.log[i] == s.log[i]
    ensures HasFailed(s.log) ==> HasFailed(s'.log)
    ensures HasDone(s.log) ==> HasDone(s'.log)
    ensures forall w | WireFounded(s.log, seen, w) :: WireFounded(s'.log, seen, w)
  {
    if HasFailed(s.log) {
      var i :| 0 <= i < |s.log| && s.log[i].Failed?;
      assert s'.log[i].Failed?;
    }
    if HasDone(s.log) {
      var i :| 0 <= i < |s.log| && s.log[i].Done?;
      assert s'.log[i].Done?;
    }
  }

  lemma {:induction false} ForwardedIsFounded(log: seq<Event>, seen: Seen, from: nat, upto: nat)
    requires from <= upto <= |log|
    ensures forall w | w in Forwarded(log, from, upto) :: WireFounded(log, seen, w)
    decreases upto - from
  {
    if from < upto && !EndsStream(log[from]) {
      ForwardedIsFounded(log, seen, from + 1, upto);
    }
  }

  lemma ReceiveIsFounded(s: Live, seen: Seen, s': Live)
    requires Founded(s, seen) && ReceiveStep(s, s')
    ensures Founded(s', seen)
  {
    var wires := s.connection.value.inFlight;
    assert wires[0] in wires && WireFounded(s.log, seen, wires[0]);
    assert forall w | w in wires[1..] :: w in wires;
  }

  lemma ServerIsFounded(s: Live, a: Action, seen: Seen, s': Live)
    requires Founded(s, seen) && Includes(seen, s.review) && Next(s, a, s') && (a.Connect? || a.Read? || a.Recheck?)
    ensures Founded(s', seen)
  {
    if a.Read? {
      var cursor := s.connection.value.cursor;
      ForwardedIsFounded(s.log, seen, if cursor < s.base then s.base else cursor, a.upto);
    }
  }

  lemma NextIsFounded(s: Live, a: Action, seen: Seen, s': Live)
    requires Founded(s, seen) && Includes(seen, s.review) && Next(s, a, s')
    ensures Founded(s', seen)
  {
    if a.Receive? {
      ReceiveIsFounded(s, seen, s');
    } else if a.Connect? || a.Read? || a.Recheck? {
      ServerIsFounded(s, a, seen, s');
    } else {
      LogOnlyGrows(s, a, s');
      EntriesStay(s, seen, s');
    }
  }

  /** The rows before state `i`. */
  ghost function SeenBefore(states: seq<Live>, i: nat): Seen
    requires i <= |states|
  {
    Seen(exists j :: 0 <= j < i && states[j].review.status == ReviewStatus.Skipped,
         exists j :: 0 <= j < i && states[j].review.status == ReviewStatus.Failed && states[j].review.result == ResultStatus.Failed,
         exists j :: 0 <= j < i && states[j].review.result == ResultStatus.Complete)
  }

  lemma MoreSeen(s: Live, before: Seen, after: Seen)
    requires Founded(s, before)
    requires (before.skipped ==> after.skipped) && (before.failed ==> after.failed) && (before.complete ==> after.complete)
    ensures Founded(s, after)
  {
  }

  /** In every run: a screen that shows a review as skipped was told so by a row that was SKIPPED; one
      that shows it as failed by rows that had FAILED or by a failed entry; one that shows it as complete
      by a COMPLETE result or by a done entry. A closed screen shows one of the three. */
  lemma {:induction false} EndingsAreFounded(states: seq<Live>, actions: seq<Action>, i: nat)
    requires Run(states, actions) && i < |states|
    ensures Founded(states[i], SeenBefore(states, i))
  {
    if i > 0 {
      EndingsAreFounded(states, actions, i - 1);
      assert Next(states[i - 1], actions[i - 1], states[i]);
      MoreSeen(states[i - 1], SeenBefore(states, i - 1), SeenBefore(states, i));
      NextIsFounded(states[i - 1], actions[i - 1], SeenBefore(states, i), states[i]);
    }
  }

  // ---- the answer to each row ----

  /** A row that is final answers at once and for good; any other leaves the browser on the log. */
  predicate Final(review: Review) {
    || review.status == ReviewStatus.Skipped
    || review.result == ResultStatus.Complete
    || (review.status == ReviewStatus.Failed && review.result == ResultStatus.Failed)
  }

  /** A browser that connects to a final row and receives what is sent ends as the row did. */
  lemma FinalRowsAreShown(s: Live, following: bool, s1: Live, s2: Live)
    requires ConnectStep(s, following, s1) && Final(s.review) && ReceiveStep(s1, s2)
    ensures s.review.status != ReviewStatus.Skipped && s.review.result != ResultStatus.Complete ==> s2.closed && s2.screen.phase.Failed?
    ensures s.review.status == ReviewStatus.Skipped || s.review.result == ResultStatus.Complete ==>
              !s2.closed && forall s3 | ReceiveStep(s2, s3) ::
                && s3.closed
                && (s3.screen.phase.Skipped? <==> s.review.status == ReviewStatus.Skipped)
                && (s3.screen.phase.Complete? <==> s.review.status != ReviewStatus.Skipped)
                && (s3.screen.phase.Complete? ==> s3.screen.text == s.review.text)
  {
    if s.review.status == ReviewStatus.Skipped {
      assert s1.connection.value.inFlight[1..] == [TerminalDone(true)];
    } else if s.review.result == ResultStatus.Complete {
      assert s1.connection.value.inFlight[1..] == [TerminalDone(false)];
      assert s.review.text + "" == s.review.text;
    }
  }

  /** A row that is not final leaves the server reading the log from the browser's last event on; when
      the log is silent it looks at the rows again and ends the response exactly when they are final. */
  lemma OtherRowsAreTailed(s: Live, following: bool, s': Live)
    requires ConnectStep(s, following, s')
    ensures s'.connection.Some? && (s'.connection.value.ended <==> Final(s.review))
    ensures !Final(s.review) ==>
              s'.connection.value.cursor == s.lastId && s'.connection.value.inFlight == if following then [FollowingNote] else []
  {
  }

  lemma SilenceIsRechecked(s: Live)
    requires s.connection.Some? && !s.connection.value.ended
    ensures (exists s' :: Next(s, Recheck, s')) <==> Final(s.review)
    ensures forall s' | Next(s, Recheck, s') :: s'.connection.Some? && s'.connection.value.ended && s.connection.value.inFlight <= s'.connection.value.inFlight
  {
    if Final(s.review) {
      var Connection(cursor, inFlight, _) := s.connection.value;
      assert Next(s, Recheck, s.(connection := Some(Connection(cursor, inFlight + TerminalEvents(s.review).value, true))));
    }
  }

  // ---- the entries ----

  /** A done or failed entry closes the browser, with everything pending on screen; no other entry does. */
  lemma EndingEntriesClose(s: Live, s': Live)
    requires ReceiveStep(s, s') && !s.closed && s.connection.value.inFlight[0].Entry?
    ensures var e := s.connection.value.inFlight[0].event;
            && (s'.closed <==> e.Done? || e.Failed?)
            && (s'.closed ==> s'.connection.None? && s'.screen.deltas == 0)
            && (e.Done? ==> s'.screen.phase == Phase.Complete)
            && (e.Failed? ==> s'.screen.phase == Phase.Failed)
            && (e.Retrying? ==> s'.screen.phase == RetryingText && s'.screen.Shown() == s.screen.Shown())
            && (e.Status? ==> s'.screen.phase == StreamingText && s'.screen.Shown() == s.screen.Shown())
            && (e.Reset? || e.Delta? ==> s'.screen.phase == s.screen.phase)
  {
  }

  /** Only a failure without a retry ends the stream; one with a retry leaves the browser waiting for the
      next attempt. */
  lemma OnlyFinalFailuresEnd(s: Live, retrying: bool, s': Live)
    requires Next(s, AppendFailure(retrying), s')
    ensures s'.log == s.log + [if retrying then Retrying else Event.Failed]
    ensures EndsStream(s'.log[|s.log|]) <==> !retrying
  {
  }

  /** The server sends nothing after a done or failed entry, and every entry up to it. */
  lemma {:induction false} ForwardingEndsThere(log: seq<Event>, from: nat, upto: nat)
    requires from <= upto <= |log|
    ensures var sent := Forwarded(log, from, upto);
            && (forall i | 0 <= i < |sent| :: sent[i] == Entry(from + i, log[from + i]))
            && (forall n | from <= n < from + |sent| - 1 :: !log[n].Done? && !log[n].Failed?)
            && (|sent| < upto - from ==> sent != [] && (log[from + |sent| - 1].Done? || log[from + |sent| - 1].Failed?))
    decreases upto - from
  {
    if from < upto && !EndsStream(log[from]) {
      ForwardingEndsThere(log, from + 1, upto);
    }
  }
}
