/** One result's live stream from the worker's log to one browser tab, over connections that may drop
    at any time. Log entries are named by their position in the history of everything ever appended;
    entry ids grow with it, across attempts, and the log stays below its size cap. One owner writes at
    a time. Every call of the publisher may raise, with its entry delivered or not. */
module LiveStream {
  import opened Rows
  import opened Text
  import opened StreamLog
  import opened StreamClient

  datatype Worker =
    | Away
    | Deleted(attempt: nat)                                   // start: DEL sent
    | Opened                                                  // reset appended
    | Writing(parts: seq<string>, buffer: seq<string>, lastFlush: int)
    | Failing(buffer: seq<string>)                            // an exception: about to call `failed`
    | Closing                                                 // failed: buffer flushed
    | Finishing(buffer: seq<string>)                          // complete committed
    | Flushed                                                 // done: buffer flushed

  /** The columns `load_review_state` reads. */
  datatype Review = Review(status: ReviewStatus, result: ResultStatus, text: string)

  datatype Wire =
    | Entry(index: nat, event: Event)
    | FollowingNote
    | Snapshot(text: string)
    | SkippedNote
    | TerminalDone(skipped: bool)
    | TerminalFailed

  /** `cursor` is the next position the server asks for; `inFlight` was sent and not yet received. */
  datatype Connection = Connection(cursor: nat, inFlight: seq<Wire>, ended: bool)

  datatype Live = Live(
    log: seq<Event>,            // everything ever appended
    base: nat,                  // entries before it were deleted
    worker: Worker,
    review: Review,
    connection: Option<Connection>,
    screen: Screen,
    closed: bool,               // the browser closed its EventSource
    lastId: nat,                // position after the last event id the browser saw
    at: nat,                    // the screen shows the log up to here
    snapped: bool)              // the screen holds a snapshot

  ghost predicate Init(s: Live) {
    && s == Live([], 0, Away, s.review, None, INITIAL, false, 0, 0, false)
    && !s.review.result.Complete?
  }

  /** `_terminal_events`, for a review that has a result. */
  function TerminalEvents(review: Review): Option<seq<Wire>> {
    if review.status.Skipped? then Some([SkippedNote, TerminalDone(true)])
    else if review.result.Complete? then Some([Snapshot(review.text), TerminalDone(false)])
    else if review.status.Failed? && review.result.Failed? then Some([TerminalFailed])
    else None
  }

  predicate EndsStream(e: Event) {
    e.Done? || e.Failed?
  }

  /** What the server forwards of the entries `from..upto`: it returns after a done or failed entry. */
  function Forwarded(log: seq<Event>, from: nat, upto: nat): (wires: seq<Wire>)
    requires from <= upto <= |log|
    ensures |wires| <= upto - from
    decreases upto - from
  {
    if from == upto then []
    else [Entry(from, log[from])] + if EndsStream(log[from]) then [] else Forwarded(log, from + 1, upto)
  }

  /** The last of them was a done or failed entry. */
  predicate Ended(wires: seq<Wire>) {
    wires != [] && var last := wires[|wires| - 1]; last.Entry? && EndsStream(last.event)
  }

  lemma ForwardOne(sent: seq<Wire>, log: seq<Event>, cursor: nat, upto: nat)
    requires cursor < upto <= |log|
    ensures sent + Forwarded(log, cursor, upto) ==
              sent + [Entry(cursor, log[cursor])] + if EndsStream(log[cursor]) then [] else Forwarded(log, cursor + 1, upto)
  {
  }

  /** The inner loop of `review_events` over one XREAD response. */
  method ForwardEntries(log: seq<Event>, from: nat, upto: nat) returns (sent: seq<Wire>, cursor: nat, ended: bool)
    requires from <= upto <= |log|
    ensures sent == Forwarded(log, from, upto)
    ensures cursor == from + |sent|
    ensures ended == Ended(sent)
  {
    sent, cursor, ended := [], from, false;
    while cursor < upto
      invariant from <= cursor <= upto && cursor == from + |sent|
      invariant Forwarded(log, from, upto) == sent + Forwarded(log, cursor, upto)
      invariant !Ended(sent)
    {
      var event := log[cursor];
      ForwardOne(sent, log, cursor, upto);
      sent := sent + [Entry(cursor, event)];
      cursor := cursor + 1;
      if EndsStream(event) {
        ended := true;
        return;
      }
    }
  }

  datatype Action =
    | StartAttempt(attempt: nat)
    | StartFails(deleted: bool)
    | AppendReset
    | ResetFails(delivered: bool)
    | AppendStatus(now: int)
    | StatusFails(delivered: bool)
    | Write(text: string, now: int, after: int, interval: int)
    | WriteFails(text: string, delivered: bool)
    | Stop
    | CompleteText
    | FlushLast
    | AppendDone
    | AnnounceFails(delivered: bool)
    | FailFlush
    | AppendFailure(retrying: bool)
    | Die
    | ReviewMoves(status: ReviewStatus)
    | ResultMoves(result: ResultStatus)
    | Connect(following: bool)
    | Read(upto: nat)
    | Recheck
    | Receive
    | Drop
    | Frame

  /** A call that raises may have reached Redis all the same. */
  function Delivered(delivered: bool, entries: seq<Event>): seq<Event> {
    if delivered then entries else []
  }

  ghost predicate Next(s: Live, a: Action, s': Live) {
    match a
    case StartAttempt(n) =>
      && s.worker.Away? && !s.review.result.Complete?
      && s' == s.(worker := Deleted(n), base := |s.log|)
    case StartFails(deleted) =>
      && s.worker.Away? && !s.review.result.Complete?
      && s' == s.(worker := Failing([]), base := if deleted then |s.log| else s.base)
    case AppendReset =>
      && s.worker.Deleted?
      && s' == s.(worker := Opened, log := s.log + [Event.Reset(s.worker.attempt)])
    case ResetFails(delivered) =>
      && s.worker.Deleted?
      && s' == s.(worker := Failing([]), log := s.log + Delivered(delivered, [Event.Reset(s.worker.attempt)]))
    case AppendStatus(now) =>
      && s.worker.Opened?
      && s' == s.(worker := Writing([], [], now), log := s.log + [Status])
    case StatusFails(delivered) =>
      && s.worker.Opened?
      && s' == s.(worker := Failing([]), log := s.log + Delivered(delivered, [Status]))
    case WriteFails(text, delivered) =>
      && s.worker.Writing?
      && var buffer := s.worker.buffer + [text];
         s' == s.(worker := Failing(buffer), log := s.log + Delivered(delivered, FlushEntries(buffer)))
    case Stop =>
      && s.worker.Writing?
      && s' == s.(worker := Failing(s.worker.buffer))
    case Write(text, now, after, interval) => WriteStep(s, text, now, after, interval, s')
    case CompleteText =>
      && s.worker.Writing? && !Blank(Concat(s.worker.parts))
      && s' == s.(worker := Finishing(s.worker.buffer),
                  review := s.review.(result := ResultStatus.Complete, text := Concat(s.worker.parts)))
    case FlushLast =>
      && s.worker.Finishing?
      && s' == s.(worker := Flushed, log := s.log + FlushEntries(s.worker.buffer))
    case AppendDone =>
      && s.worker.Flushed?
      && s' == s.(worker := Away, log := s.log + [Event.Done])
    case AnnounceFails(delivered) =>
      && (s.worker.Finishing? || s.worker.Flushed?)
      && var buffer := if s.worker.Finishing? then s.worker.buffer else [];
         s' == s.(worker := Failing(buffer), review := s.review.(result := ResultStatus.Failed),
                  log := s.log + Delivered(delivered, if s.worker.Finishing? then FlushEntries(buffer) else [Event.Done]))
    case FailFlush =>
      && s.worker.Failing?
      && s' == s.(worker := Closing, log := s.log + FlushEntries(s.worker.buffer))
    case AppendFailure(retrying) =>
      && s.worker.Closing?
      && s' == s.(worker := Away, log := s.log + [if retrying then Retrying else Event.Failed])
    case Die => s' == s.(worker := Away)
    case ReviewMoves(status) => s' == s.(review := s.review.(status := status))
    case ResultMoves(result) =>
      && !s.review.result.Complete? && !result.Complete?
      && s' == s.(review := s.review.(result := result))
    case Connect(following) => ConnectStep(s, following, s')
    case Read(upto) => ReadStep(s, upto, s')
    case Recheck =>
      && s.connection.Some? && !s.connection.value.ended && TerminalEvents(s.review).Some?
      && var Connection(cursor, inFlight, _) := s.connection.value;
         s' == s.(connection := Some(Connection(cursor, inFlight + TerminalEvents(s.review).value, true)))
    case Receive => ReceiveStep(s, s')
    case Drop =>
      && s.connection.Some?
      && s' == s.(connection := None, screen := s.screen.(phase := Reconnecting))
    case Frame => s.screen.frame && s' == s.(screen := Flush(s.screen))
  }

  ghost predicate WriteStep(s: Live, text: string, now: int, after: int, interval: int, s': Live) {
    && s.worker.Writing?
    && var Writing(parts, buffer, lastFlush) := s.worker;
       s' == if now - lastFlush >= interval
             then s.(worker := Writing(parts + [text], [], after), log := s.log + FlushEntries(buffer + [text]))
             else s.(worker := Writing(parts + [text], buffer + [text], lastFlush))
  }

  /** (Re)connecting sends the last event id; the server answers from the database or tails the log. */
  ghost predicate ConnectStep(s: Live, following: bool, s': Live) {
    && s.connection.None? && !s.closed
    && var terminal := TerminalEvents(s.review);
       s' == s.(connection := Some(
                  if terminal.Some? then Connection(s.lastId, terminal.value, true)
                  else Connection(s.lastId, if following then [FollowingNote] else [], false)))
  }

  /** XREAD returns a run of the entries after the cursor that still exist. */
  ghost predicate ReadStep(s: Live, upto: nat, s': Live) {
    && s.connection.Some? && !s.connection.value.ended
    && var Connection(cursor, inFlight, _) := s.connection.value;
       var from := if cursor < s.base then s.base else cursor;
       && from < upto <= |s.log|
       && var sent := Forwarded(s.log, from, upto);
          s' == s.(connection := Some(Connection(from + |sent|, inFlight + sent, Ended(sent))))
  }

  function Handle(screen: Screen, wire: Wire): Screen {
    match wire
    case Entry(_, Reset(_)) => OnReset(screen)
    case Entry(_, Status) => screen.(phase := StreamingText)
    case Entry(_, Delta(text)) => OnDelta(screen, text)
    case Entry(_, Done) => OnDone(screen, false)
    case Entry(_, Retrying) => screen.(phase := RetryingText)
    case Entry(_, Failed) => OnFailed(screen)
    case FollowingNote => screen.(phase := Following)
    case Snapshot(text) => OnSnapshot(screen, text)
    case SkippedNote => screen.(phase := Phase.Skipped)
    case TerminalDone(skipped) => OnDone(screen, skipped)
    case TerminalFailed => OnFailed(screen)
  }

  function IdAfter(id: nat, wire: Wire): nat {
    if wire.Entry? then wire.index + 1 else id
  }

  /** The next entry, or a reset, moves the text on screen; an entry further on does not. */
  function TextAfter(at: nat, wire: Wire): nat {
    if wire.Entry? && (wire.index == at || wire.event.Reset?) then wire.index + 1 else at
  }

  ghost predicate ReceiveStep(s: Live, s': Live) {
    && s.connection.Some? && s.connection.value.inFlight != []
    && var wire := s.connection.value.inFlight[0];
       var screen := Handle(s.screen, wire);
       var closed := wire.TerminalDone? || wire.TerminalFailed? || (wire.Entry? && EndsStream(wire.event));
       s' == s.(screen := screen,
                closed := s.closed || closed,
                lastId := IdAfter(s.lastId, wire), at := TextAfter(s.at, wire),
                snapped := s.snapped || wire.Snapshot?,
                connection := if closed then None
                              else Some(s.connection.value.(inFlight := s.connection.value.inFlight[1..])))
  }

  // ---- the invariant ----

  predicate Quiet(e: Event) {
    e.Retrying? || e.Failed?
  }

  /** Nothing but failures since the last deletion: an attempt failed before its reset. */
  ghost predicate Mute(s: Live) {
    forall i | s.base <= i < |s.log| :: Quiet(s.log[i])
  }

  ghost predicate HeadedByReset(s: Live) {
    s.base < |s.log| && s.log[s.base].Reset?
  }

  ghost predicate LogOk(s: Live) {
    && s.base <= |s.log|
    && (HeadedByReset(s) || Mute(s))
    && (s.worker.Deleted? ==> s.base == |s.log|)
    && (s.worker.Opened? || s.worker.Writing? || s.worker.Finishing? || s.worker.Flushed? ==> HeadedByReset(s))
    && (s.worker.Failing? && s.worker.buffer != [] ==> HeadedByReset(s))
    && (forall i | 0 <= i < |s.log| && s.log[i].Done? ::
          s.review.result.Complete? && View(s.log[..i]) == s.review.text && s.worker.Away?)
  }

  ghost predicate WorkerOk(s: Live) {
    match s.worker
    case Away => true
    case Deleted(_) => !s.review.result.Complete?
    case Opened => !s.review.result.Complete? && View(s.log) == ""
    case Writing(parts, buffer, _) => !s.review.result.Complete? && View(s.log) + Concat(buffer) == Concat(parts)
    case Failing(_) => !s.review.result.Complete?
    case Closing => !s.review.result.Complete?
    case Finishing(buffer) => s.review.result.Complete? && View(s.log) + Concat(buffer) == s.review.text
    case Flushed => s.review.result.Complete? && View(s.log) == s.review.text
  }

  /** The entry was left behind by a deletion, or will be by the next one. */
  ghost predicate Stale(s: Live, i: nat) {
    i < s.base || Mute(s)
  }

  /** What is in flight continues the log from `at`: nothing is left out unless a reset follows. A
      browser that missed entries, `at` behind `id`, is only told of failures before that reset. */
  ghost predicate Follows(s: Live, at: nat, id: nat, snapped: bool, wires: seq<Wire>)
    decreases |wires|
  {
    wires == [] ||
    match wires[0]
    case Entry(i, e) =>
      && !snapped && id <= i < |s.log| && s.log[i] == e && (i == at || e.Reset? || (Quiet(e) && Stale(s, i)))
      && Follows(s, TextAfter(at, wires[0]), i + 1, false, wires[1..])
    case FollowingNote => Follows(s, at, id, snapped, wires[1..])
    case Snapshot(text) => s.review.result.Complete? && text == s.review.text && Follows(s, at, id, true, wires[1..])
    case SkippedNote => wires[1..] == [TerminalDone(true)]
    case TerminalDone(skipped) => wires[1..] == [] && (skipped || (snapped && s.review.result.Complete?))
    case TerminalFailed => wires[1..] == []
  }

  /** Wires the server sends before it ends the response for good. */
  predicate Tailing(wire: Wire) {
    wire.FollowingNote? || wire.Entry?
  }

  predicate AllTailing(wires: seq<Wire>) {
    forall i | 0 <= i < |wires| :: Tailing(wires[i])
  }

  function IdAt(id: nat, wires: seq<Wire>): nat
    decreases |wires|
  {
    if wires == [] then id else IdAt(IdAfter(id, wires[0]), wires[1..])
  }

  function TextAt(at: nat, wires: seq<Wire>): nat
    decreases |wires|
  {
    if wires == [] then at else TextAt(TextAfter(at, wires[0]), wires[1..])
  }

  /** Text lags behind the event id only where the log starts over. */
  ghost predicate Lags(s: Live, at: nat, id: nat) {
    at <= id <= |s.log| && (at == id || id <= s.base || Mute(s))
  }

  ghost predicate ConnectionOk(s: Live) {
    s.connection.Some? ==>
      var Connection(cursor, inFlight, ended) := s.connection.value;
      && Follows(s, s.at, s.lastId, s.snapped, inFlight)
      && (!ended ==> !s.snapped && IdAt(s.lastId, inFlight) == cursor && AllTailing(inFlight))
  }

  ghost predicate HasDone(log: seq<Event>) {
    exists i :: 0 <= i < |log| && log[i].Done?
  }

  ghost predicate ScreenOk(s: Live) {
    && Lags(s, s.at, s.lastId)
    && s.screen.Valid()
    && (if s.snapped then s.review.result.Complete? && s.screen.Shown() == s.review.text
        else s.screen.Shown() == View(s.log[..s.at]))
    && (s.closed ==> s.connection.None? && s.screen.deltas == 0)
    && (s.screen.phase.Complete? ==>
          s.closed && s.review.result.Complete? && s.screen.Shown() == s.review.text && (s.snapped || HasDone(s.log)))
  }

  ghost predicate Shows(s: Live) {
    LogOk(s) && WorkerOk(s) && ConnectionOk(s) && ScreenOk(s)
  }

  /** The browser has been sent the stored text, or will receive it. */
  ghost predicate Told(s: Live) {
    s.snapped || (s.connection.Some? && exists i :: 0 <= i < |s.connection.value.inFlight| && s.connection.value.inFlight[i].Snapshot?)
  }

  /** Announcing a finished result raises although its text or its `done` is already out. */
  ghost predicate Betrays(s: Live, a: Action) {
    a.AnnounceFails? && (Told(s) || (a.delivered && s.worker.Flushed?))
  }

  // ---- logs that grow ----

  ghost predicate Longer(s: Live, s': Live) {
    && |s.log| <= |s'.log| && s'.log[..|s.log|] == s.log
    && s.base <= s'.base <= |s'.log|
    && (Mute(s) ==> Mute(s') || |s.log| <= s'.base)
  }

  ghost predicate RowKept(s: Live, s': Live) {
    s.review.result.Complete? ==> s'.review.result.Complete? && s'.review.text == s.review.text
  }

  ghost predicate NoSnapshot(wires: seq<Wire>) {
    forall i | 0 <= i < |wires| :: !wires[i].Snapshot?
  }

  lemma {:induction false} FollowsLonger(s: Live, s': Live, at: nat, id: nat, snapped: bool, wires: seq<Wire>)
    requires Follows(s, at, id, snapped, wires) && Longer(s, s')
    requires RowKept(s, s') || (!snapped && NoSnapshot(wires))
    ensures Follows(s', at, id, snapped, wires)
    decreases |wires|
  {
    if wires != [] {
      match wires[0]
      case Entry(i, e) =>
        assert s'.log[i] == s'.log[..|s.log|][i];
        FollowsLonger(s, s', TextAfter(at, wires[0]), i + 1, false, wires[1..]);
      case FollowingNote => FollowsLonger(s, s', at, id, snapped, wires[1..]);
      case Snapshot(_) => FollowsLonger(s, s', at, id, true, wires[1..]);
      case _ =>
    }
  }

  lemma PrefixView(s: Live, s': Live, at: nat)
    requires Longer(s, s') && at <= |s.log|
    ensures s'.log[..at] == s.log[..at]
  {
    assert s'.log[..|s.log|][..at] == s'.log[..at];
  }

  lemma DoneStays(s: Live, s': Live)
    requires Longer(s, s') && HasDone(s.log)
    ensures HasDone(s'.log)
  {
    var i :| 0 <= i < |s.log| && s.log[i].Done?;
    assert s'.log[i] == s'.log[..|s.log|][i];
  }

  /** A step of the worker or of the database; connection and browser stay. */
  lemma WorkerStepShows(s: Live, s': Live)
    requires Shows(s) && s' == s.(log := s'.log, base := s'.base, worker := s'.worker, review := s'.review)
    requires Longer(s, s') && LogOk(s') && WorkerOk(s')
    requires RowKept(s, s') || (!Told(s) && !HasDone(s.log))
    ensures Shows(s')
  {
    PrefixView(s, s', s.at);
    if HasDone(s.log) {
      DoneStays(s, s');
    }
    if s.connection.Some? {
      FollowsLonger(s, s', s.at, s.lastId, s.snapped, s.connection.value.inFlight);
    }
  }

  /** Appending keeps what every earlier prefix shows, as long as the row and the worker allow it. */
  lemma AppendKeepsLog(s: Live, more: seq<Event>, s': Live)
    requires LogOk(s) && s'.log == s.log + more && s'.base == s.base
    requires HeadedByReset(s) || (forall i | 0 <= i < |more| :: Quiet(more[i]))
    ensures Longer(s, s') && (HeadedByReset(s) ==> HeadedByReset(s')) && (HeadedByReset(s') || Mute(s'))
    ensures forall i | 0 <= i < |s.log| :: s'.log[i] == s.log[i] && s'.log[..i] == s.log[..i]
  {
    assert s'.log[..|s.log|] == s.log;
  }

  lemma AwayOnly(s: Live)
    requires LogOk(s) && !s.worker.Away?
    ensures !HasDone(s.log)
  {
  }

  lemma FlushHasNoDone(log: seq<Event>, buffer: seq<string>)
    requires !HasDone(log)
    ensures !HasDone(log + FlushEntries(buffer))
  {
  }

  // ---- the worker ----

  lemma StartShows(s: Live, a: Action, s': Live)
    requires Shows(s) && Next(s, a, s') && (a.StartAttempt? || a.StartFails?)
    ensures Shows(s')
  {
    assert !HasDone(s.log);
    WorkerStepShows(s, s');
  }

  lemma ResetShows(s: Live, a: Action, s': Live)
    requires Shows(s) && Next(s, a, s') && (a.AppendReset? || a.ResetFails?)
    ensures Shows(s')
  {
    AwayOnly(s);
    ViewAppend(s.log, Event.Reset(s.worker.attempt));
    assert s'.log[..|s.log|] == s.log;
    WorkerStepShows(s, s');
  }

  lemma StatusShows(s: Live, a: Action, s': Live)
    requires Shows(s) && Next(s, a, s') && (a.AppendStatus? || a.StatusFails?)
    ensures Shows(s')
  {
    AwayOnly(s);
    ViewAppend(s.log, Status);
    AppendKeepsLog(s, if a.StatusFails? then Delivered(a.delivered, [Status]) else [Status], s');
    WorkerStepShows(s, s');
  }

  lemma WrittenSoFar(s: Live, text: string)
    requires WorkerOk(s) && s.worker.Writing?
    ensures View(s.log) + Concat(s.worker.buffer + [text]) == Concat(s.worker.parts + [text])
  {
    ConcatAppend(s.worker.parts, text);
    ConcatAppend(s.worker.buffer, text);
    assert View(s.log) + (Concat(s.worker.buffer) + text) == (View(s.log) + Concat(s.worker.buffer)) + text;
  }

  lemma WriteShows(s: Live, text: string, now: int, after: int, interval: int, s': Live)
    requires Shows(s) && WriteStep(s, text, now, after, interval, s')
    ensures Shows(s')
  {
    var Writing(parts, buffer, lastFlush) := s.worker;
    AwayOnly(s);
    WrittenSoFar(s, text);
    if now - lastFlush < interval {
      assert s.log + [] == s.log;
      AppendKeepsLog(s, [], s');
    } else {
      FlushShowsBuffer(s.log, buffer + [text]);
      FlushHasNoDone(s.log, buffer + [text]);
      AppendKeepsLog(s, FlushEntries(buffer + [text]), s');
      assert View(s'.log) + Concat([]) == View(s'.log);
    }
    WorkerStepShows(s, s');
  }

  /** The attempt is over: its text no longer matters. */
  lemma EndedShows(s: Live, more: seq<Event>, s': Live)
    requires Shows(s) && s' == s.(worker := s'.worker, log := s.log + more) && (s.worker.Writing? || s.worker.Failing?)
    requires s'.worker.Failing? || s'.worker.Closing?
    requires HeadedByReset(s) || (more == [] && (s'.worker.Failing? ==> s'.worker.buffer == []))
    requires !HasDone(s.log + more)
    ensures Shows(s')
  {
    AwayOnly(s);
    AppendKeepsLog(s, more, s');
    WorkerStepShows(s, s');
  }

  lemma StopShows(s: Live, a: Action, s': Live)
    requires Shows(s) && Next(s, a, s') && (a.Stop? || a.WriteFails?)
    ensures Shows(s')
  {
    AwayOnly(s);
    assert s.log + [] == s.log;
    if a.WriteFails? {
      FlushHasNoDone(s.log, s.worker.buffer + [a.text]);
      EndedShows(s, Delivered(a.delivered, FlushEntries(s.worker.buffer + [a.text])), s');
    } else {
      EndedShows(s, [], s');
    }
  }

  lemma FailFlushShows(s: Live, s': Live)
    requires Shows(s) && Next(s, FailFlush, s')
    ensures Shows(s')
  {
    AwayOnly(s);
    FlushHasNoDone(s.log, s.worker.buffer);
    EndedShows(s, FlushEntries(s.worker.buffer), s');
  }

  lemma FlushLastShows(s: Live, s': Live)
    requires Shows(s) && Next(s, FlushLast, s')
    ensures Shows(s')
  {
    AwayOnly(s);
    FlushShowsBuffer(s.log, s.worker.buffer);
    FlushHasNoDone(s.log, s.worker.buffer);
    AppendKeepsLog(s, FlushEntries(s.worker.buffer), s');
    WorkerStepShows(s, s');
  }

  lemma LastEntryShows(s: Live, a: Action, s': Live)
    requires Shows(s) && Next(s, a, s') && (a.AppendDone? || a.AppendFailure?)
    ensures Shows(s')
  {
    AwayOnly(s);
    AppendKeepsLog(s, [s'.log[|s.log|]], s');
    WorkerStepShows(s, s');
  }

  lemma RowShows(s: Live, a: Action, s': Live)
    requires Shows(s) && Next(s, a, s') && (a.CompleteText? || a.ReviewMoves? || a.ResultMoves? || a.Die?)
    ensures Shows(s')
  {
    if a.CompleteText? {
      AwayOnly(s);
    }
    WorkerStepShows(s, s');
  }

  // ---- announcing ----

  lemma {:induction false} SnapshotNeedsComplete(s: Live, at: nat, id: nat, snapped: bool, wires: seq<Wire>)
    requires Follows(s, at, id, snapped, wires) && !NoSnapshot(wires)
    ensures s.review.result.Complete?
    decreases |wires|
  {
    if !wires[0].Snapshot? {
      var i :| 0 <= i < |wires| && wires[i].Snapshot?;
      assert wires[1..][i - 1].Snapshot?;
      match wires[0]
      case Entry(j, e) => SnapshotNeedsComplete(s, TextAfter(at, wires[0]), j + 1, false, wires[1..]);
      case FollowingNote => SnapshotNeedsComplete(s, at, id, snapped, wires[1..]);
      case _ =>
    }
  }

  lemma AnnounceFailureShows(s: Live, a: Action, s': Live)
    requires Shows(s) && Next(s, a, s') && a.AnnounceFails? && !Betrays(s, a)
    ensures Shows(s')
  {
    AwayOnly(s);
    var more := Delivered(a.delivered, if s.worker.Finishing? then FlushEntries(s.worker.buffer) else [Event.Done]);
    AppendKeepsLog(s, more, s');
    if s.worker.Finishing? {
      FlushHasNoDone(s.log, s.worker.buffer);
    }
    assert s.log + [] == s.log;
    assert !HasDone(s'.log);
    WorkerStepShows(s, s');
  }

  /** A browser that was told of the finished result no longer agrees with the database. */
  lemma BetrayalShows(s: Live, a: Action, s': Live)
    requires Shows(s) && Next(s, a, s') && Betrays(s, a)
    ensures !Shows(s')
  {
    if a.delivered && s.worker.Flushed? {
      assert s'.log[|s.log|].Done?;
    } else if !s.snapped && ConnectionOk(s') {
      SnapshotNeedsComplete(s', s'.at, s'.lastId, s'.snapped, s'.connection.value.inFlight);
    }
  }

  // ---- the server ----

  lemma {:induction false} FollowsAppend(s: Live, at: nat, id: nat, wires: seq<Wire>, more: seq<Wire>)
    requires Follows(s, at, id, false, wires) && AllTailing(wires)
    requires Follows(s, TextAt(at, wires), IdAt(id, wires), false, more)
    ensures Follows(s, at, id, false, wires + more)
    decreases |wires|
  {
    if wires == [] {
      assert wires + more == more;
    } else {
      assert (wires + more)[1..] == wires[1..] + more;
      FollowsAppend(s, TextAfter(at, wires[0]), IdAfter(id, wires[0]), wires[1..], more);
    }
  }

  lemma {:induction false} IdAppend(id: nat, wires: seq<Wire>, more: seq<Wire>)
    ensures IdAt(id, wires + more) == IdAt(IdAt(id, wires), more)
    decreases |wires|
  {
    if wires == [] {
      assert wires + more == more;
    } else {
      assert (wires + more)[1..] == wires[1..] + more;
      IdAppend(IdAfter(id, wires[0]), wires[1..], more);
    }
  }

  lemma {:induction false} LagsOn(s: Live, at: nat, id: nat, wires: seq<Wire>)
    requires Lags(s, at, id) && Follows(s, at, id, false, wires) && AllTailing(wires)
    ensures Lags(s, TextAt(at, wires), IdAt(id, wires))
    decreases |wires|
  {
    if wires != [] {
      LagsOn(s, TextAfter(at, wires[0]), IdAfter(id, wires[0]), wires[1..]);
    }
  }

  /** What is forwarded continues the log, and ends where the server's cursor stands. */
  lemma {:induction false} ForwardedFollows(s: Live, at: nat, id: nat, from: nat, upto: nat)
    requires id <= from < upto <= |s.log| && s.base <= from && (from == at || s.log[from].Reset? || Mute(s))
    ensures var sent := Forwarded(s.log, from, upto);
            Follows(s, at, id, false, sent) && IdAt(id, sent) == from + |sent| && AllTailing(sent)
    decreases upto - from
  {
    var wire := Entry(from, s.log[from]);
    var rest := if EndsStream(s.log[from]) then [] else Forwarded(s.log, from + 1, upto);
    if rest != [] {
      ForwardedFollows(s, TextAfter(at, wire), from + 1, from + 1, upto);
    }
    assert ([wire] + rest)[1..] == rest;
  }

  lemma ReadFollows(s: Live, from: nat, upto: nat)
    requires LogOk(s) && ConnectionOk(s) && Lags(s, s.at, s.lastId) && s.connection.Some? && !s.connection.value.ended
    requires from == (if s.connection.value.cursor < s.base then s.base else s.connection.value.cursor) && from < upto <= |s.log|
    ensures var sent := s.connection.value.inFlight + Forwarded(s.log, from, upto);
            && Follows(s, s.at, s.lastId, false, sent) && AllTailing(sent)
            && IdAt(s.lastId, sent) == from + |Forwarded(s.log, from, upto)|
  {
    var Connection(cursor, inFlight, _) := s.connection.value;
    var sent := Forwarded(s.log, from, upto);
    LagsOn(s, s.at, s.lastId, inFlight);
    ForwardedFollows(s, TextAt(s.at, inFlight), cursor, from, upto);
    FollowsAppend(s, s.at, s.lastId, inFlight, sent);
    IdAppend(s.lastId, inFlight, sent);
  }

  lemma ReadShows(s: Live, upto: nat, s': Live)
    requires Shows(s) && Next(s, Read(upto), s')
    ensures Shows(s')
  {
    var Connection(cursor, inFlight, _) := s.connection.value;
    var from := if cursor < s.base then s.base else cursor;
    ReadFollows(s, from, upto);
    FollowsLonger(s, s', s.at, s.lastId, false, inFlight + Forwarded(s.log, from, upto));
  }

  lemma TerminalFollows(s: Live, at: nat, id: nat)
    requires TerminalEvents(s.review).Some?
    ensures Follows(s, at, id, s.snapped, TerminalEvents(s.review).value)
  {
    var wires := TerminalEvents(s.review).value;
    if wires[0].Snapshot? {
      assert wires[1..] == [TerminalDone(false)] && wires[1..][1..] == [];
    }
  }

  lemma AnswerShows(s: Live, a: Action, s': Live)
    requires Shows(s) && Next(s, a, s') && (a.Connect? || a.Recheck?)
    ensures Shows(s')
  {
    var sent := s'.connection.value.inFlight;
    if TerminalEvents(s.review).Some? {
      if a.Connect? {
        TerminalFollows(s, s.at, s.lastId);
      } else {
        var Connection(cursor, inFlight, _) := s.connection.value;
        TerminalFollows(s, TextAt(s.at, inFlight), cursor);
        FollowsAppend(s, s.at, s.lastId, inFlight, TerminalEvents(s.review).value);
      }
    } else {
      assert sent != [] ==> sent[1..] == [];
    }
    FollowsLonger(s, s', s.at, s.lastId, s.snapped, sent);
  }

  // ---- the browser ----

  lemma EntryHandled(screen: Screen, i: nat, e: Event)
    requires screen.Valid()
    ensures var after := Handle(screen, Entry(i, e));
            && after.Valid()
            && after.Shown() == (if e.Reset? then "" else if e.Delta? then screen.Shown() + e.text else screen.Shown())
            && (EndsStream(e) ==> after.deltas == 0)
            && (after.phase.Complete? ==> e.Done? || screen.phase.Complete?)
  {
    FlushShows(screen);
    if e.Delta? {
      assert screen.text + (screen.pending + e.text) == screen.Shown() + e.text;
    }
  }

  /** The next event of the log, or a reset: the screen moves from one prefix of the log to another.
      A failure further on leaves it where it is. */
  lemma EntryMovesScreen(s: Live, i: nat, e: Event)
    requires ScreenOk(s) && !s.snapped && !s.closed && s.lastId <= i < |s.log| && s.log[i] == e
    requires i == s.at || e.Reset? || Quiet(e)
    ensures var screen := Handle(s.screen, Entry(i, e));
            && screen.Valid()
            && screen.Shown() == View(s.log[..TextAfter(s.at, Entry(i, e))])
            && (EndsStream(e) ==> screen.deltas == 0)
            && (screen.phase.Complete? ==> e.Done?)
  {
    EntryHandled(s.screen, i, e);
    assert s.log[..i + 1] == s.log[..i] + [e];
    ViewAppend(s.log[..i], e);
  }

  lemma ReceiveKeepsConnection(s: Live, s': Live)
    requires ConnectionOk(s) && LogOk(s) && ReceiveStep(s, s')
    ensures ConnectionOk(s')
  {
    var inFlight := s.connection.value.inFlight;
    if s'.connection.Some? {
      FollowsLonger(s, s', s'.at, s'.lastId, s'.snapped, inFlight[1..]);
    }
  }

  lemma ReceiveEntryKeepsScreen(s: Live, s': Live)
    requires LogOk(s) && ConnectionOk(s) && ScreenOk(s) && ReceiveStep(s, s') && s.connection.value.inFlight[0].Entry?
    ensures ScreenOk(s')
  {
    var Entry(i, e) := s.connection.value.inFlight[0];
    assert Follows(s, s.at, s.lastId, s.snapped, s.connection.value.inFlight);
    EntryMovesScreen(s, i, e);
    if e.Done? {
      assert View(s.log[..i]) == s.review.text;
      assert s.log[..i + 1] == s.log[..i] + [e];
      ViewAppend(s.log[..i], e);
    }
  }

  lemma ReceiveOtherKeepsScreen(s: Live, s': Live)
    requires ConnectionOk(s) && ScreenOk(s) && ReceiveStep(s, s') && !s.connection.value.inFlight[0].Entry?
    ensures ScreenOk(s')
  {
    FlushShows(s.screen);
  }

  lemma ReceiveShows(s: Live, s': Live)
    requires Shows(s) && ReceiveStep(s, s')
    ensures Shows(s')
  {
    ReceiveKeepsConnection(s, s');
    if s.connection.value.inFlight[0].Entry? {
      ReceiveEntryKeepsScreen(s, s');
    } else {
      ReceiveOtherKeepsScreen(s, s');
    }
  }

  lemma QuietShows(s: Live, a: Action, s': Live)
    requires Shows(s) && Next(s, a, s') && (a.Drop? || a.Frame?)
    ensures Shows(s')
  {
    FlushShows(s.screen);
    if s'.connection.Some? {
      FollowsLonger(s, s', s'.at, s'.lastId, s'.snapped, s'.connection.value.inFlight);
    }
  }

  // ---- runs ----

  lemma WorkerShows(s: Live, a: Action, s': Live)
    requires Shows(s) && Next(s, a, s') && !Betrays(s, a)
    requires !(a.Connect? || a.Recheck? || a.Read? || a.Receive? || a.Drop? || a.Frame?)
    ensures Shows(s')
  {
    match a
    case StartAttempt(_) => StartShows(s, a, s');
    case StartFails(_) => StartShows(s, a, s');
    case AppendReset => ResetShows(s, a, s');
    case ResetFails(_) => ResetShows(s, a, s');
    case AppendStatus(_) => StatusShows(s, a, s');
    case StatusFails(_) => StatusShows(s, a, s');
    case Write(text, now, after, interval) => WriteShows(s, text, now, after, interval, s');
    case WriteFails(_, _) => StopShows(s, a, s');
    case Stop => StopShows(s, a, s');
    case FailFlush => FailFlushShows(s, s');
    case FlushLast => FlushLastShows(s, s');
    case AppendDone => LastEntryShows(s, a, s');
    case AppendFailure(_) => LastEntryShows(s, a, s');
    case AnnounceFails(_) => AnnounceFailureShows(s, a, s');
    case _ => RowShows(s, a, s');
  }

  /** Every step keeps the browser in agreement exactly when it does not betray what was sent. */
  lemma NextShows(s: Live, a: Action, s': Live)
    requires Shows(s) && Next(s, a, s')
    ensures Shows(s') <==> !Betrays(s, a)
  {
    if Betrays(s, a) {
      BetrayalShows(s, a, s');
    } else {
      match a
      case Connect(_) => AnswerShows(s, a, s');
      case Recheck => AnswerShows(s, a, s');
      case Read(upto) => ReadShows(s, upto, s');
      case Receive => ReceiveShows(s, s');
      case Drop => QuietShows(s, a, s');
      case Frame => QuietShows(s, a, s');
      case _ => WorkerShows(s, a, s');
    }
  }

  ghost predicate Run(states: seq<Live>, actions: seq<Action>) {
    && |states| == |actions| + 1
    && Init(states[0])
    && forall i | 0 <= i < |actions| :: Next(states[i], actions[i], states[i + 1])
  }

  ghost predicate Honest(states: seq<Live>, actions: seq<Action>, i: nat)
    requires Run(states, actions) && i < |states|
  {
    forall j | 0 <= j < i :: !Betrays(states[j], actions[j])
  }

  lemma {:induction false} RunShows(states: seq<Live>, actions: seq<Action>, i: nat)
    requires Run(states, actions) && i < |states| && Honest(states, actions, i)
    ensures Shows(states[i])
  {
    if i > 0 {
      RunShows(states, actions, i - 1);
      assert Next(states[i - 1], actions[i - 1], states[i]);
      NextShows(states[i - 1], actions[i - 1], states[i]);
    }
  }

  /** Once the browser has processed done(complete), it shows exactly the stored text. */
  lemma CompleteScreenShowsStoredText(states: seq<Live>, actions: seq<Action>, i: nat)
    requires Run(states, actions) && i < |states| && Honest(states, actions, i)
    requires states[i].screen.phase.Complete?
    ensures states[i].review.result.Complete? && states[i].screen.text == states[i].review.text
  {
    RunShows(states, actions, i);
    assert states[i].screen.text + "" == states[i].screen.text;
  }

  /** Until then it shows, pending deltas included, what the log said up to the last event it saw, or,
      where an attempt failed before its reset, up to some event before. */
  lemma ScreenShowsAPrefixOfTheLog(states: seq<Live>, actions: seq<Action>, i: nat)
    requires Run(states, actions) && i < |states| && Honest(states, actions, i)
    requires !states[i].snapped
    ensures var s := states[i];
            && s.at <= s.lastId <= |s.log|
            && s.screen.Shown() == View(s.log[..s.at])
            && (s.at == s.lastId || s.lastId <= s.base || Mute(s))
  {
    RunShows(states, actions, i);
  }

  // ---- a run that betrays ----

  lemma RunMore(states: seq<Live>, actions: seq<Action>, a: Action, s': Live)
    requires Run(states, actions) && Next(states[|states| - 1], a, s')
    ensures Run(states + [s'], actions + [a])
  {
  }

  const Row := Review(ReviewStatus.Streaming, ResultStatus.Streaming, "")
  const Finished := Review(ReviewStatus.Complete, ResultStatus.Complete, "x")
  const Begun := [Event.Reset(1), Status]
  const Fresh := Live([], 0, Away, Row, None, INITIAL, false, 0, 0, false)

  lemma AFinishedReviewIsFetched() returns (states: seq<Live>, actions: seq<Action>)
    ensures Run(states, actions)
    ensures states[|states| - 1] == Fresh.(log := Begun, worker := Finishing(["x"]), review := Finished,
                                           connection := Some(Connection(0, [Snapshot("x"), TerminalDone(false)], true)))
  {
    states, actions := [Fresh], [];
    var s := Fresh.(worker := Deleted(1));
    RunMore(states, actions, StartAttempt(1), s);
    states, actions := states + [s], actions + [StartAttempt(1)];
    s := s.(worker := Opened, log := [Event.Reset(1)]);
    RunMore(states, actions, AppendReset, s);
    states, actions := states + [s], actions + [AppendReset];
    s := s.(worker := Writing([], [], 0), log := Begun);
    assert [Event.Reset(1)] + [Status] == Begun;
    RunMore(states, actions, AppendStatus(0), s);
    states, actions := states + [s], actions + [AppendStatus(0)];
    s := s.(worker := Writing(["x"], ["x"], 0));
    assert [] + ["x"] == ["x"];
    RunMore(states, actions, Write("x", 0, 0, 1), s);
    states, actions := states + [s], actions + [Write("x", 0, 0, 1)];
    states, actions := CompletesAndConnects(states, actions, s);
  }

  lemma CompletesAndConnects(states0: seq<Live>, actions0: seq<Action>, s: Live) returns (states: seq<Live>, actions: seq<Action>)
    requires Run(states0, actions0) && states0[|states0| - 1] == s
    requires s == Fresh.(log := Begun, worker := Writing(["x"], ["x"], 0))
    ensures Run(states, actions)
    ensures states[|states| - 1] == s.(worker := Finishing(["x"]), review := Finished,
                                       connection := Some(Connection(0, [Snapshot("x"), TerminalDone(false)], true)))
  {
    assert ["x"][..0] == [] && Concat(["x"]) == Concat([]) + "x" == "x";
    assert !IsSpace("x"[0]);
    var s1 := s.(worker := Finishing(["x"]), review := Finished.(status := ReviewStatus.Streaming));
    RunMore(states0, actions0, CompleteText, s1);
    states, actions := states0 + [s1], actions0 + [CompleteText];
    var s2 := s1.(review := Finished);
    RunMore(states, actions, ReviewMoves(ReviewStatus.Complete), s2);
    states, actions := states + [s2], actions + [ReviewMoves(ReviewStatus.Complete)];
    var s3 := s2.(connection := Some(Connection(0, [Snapshot("x"), TerminalDone(false)], true)));
    RunMore(states, actions, Connect(false), s3);
    states, actions := states + [s3], actions + [Connect(false)];
  }

  /** The browser connects once the text is committed and shows the review as complete; flushing the
      last delta then raises, and the result is failed. */
  lemma ACompleteScreenCanBeWrong() returns (states: seq<Live>, actions: seq<Action>)
    ensures Run(states, actions)
    ensures var last := states[|states| - 1]; last.screen.phase.Complete? && last.review.result.Failed?
  {
    states, actions := AFinishedReviewIsFetched();
    var s := states[|states| - 1];
    var s1 := s.(screen := OnSnapshot(INITIAL, "x"), snapped := true, connection := Some(Connection(0, [TerminalDone(false)], true)));
    assert [Snapshot("x"), TerminalDone(false)][1..] == [TerminalDone(false)];
    RunMore(states, actions, Receive, s1);
    states, actions := states + [s1], actions + [Receive];
    var s2 := s1.(screen := OnDone(s1.screen, false), closed := true, connection := None);
    RunMore(states, actions, Receive, s2);
    states, actions := states + [s2], actions + [Receive];
    var s3 := s2.(worker := Failing(["x"]), review := Finished.(result := ResultStatus.Failed));
    assert s2.log + [] == s2.log;
    RunMore(states, actions, AnnounceFails(false), s3);
    states, actions := states + [s3], actions + [AnnounceFails(false)];
  }
}
