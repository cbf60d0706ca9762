/** The worker's side of the live stream: an append-only log that each attempt restarts with a reset. */
module StreamLog {
  import opened Text

  datatype Event =
    | Reset(attempt: nat)
    | Status
    | Delta(text: string)
    | Done
    | Retrying
    | Failed

  /** What a reader that applies every entry in order shows: the deltas since the last reset. */
  function View(log: seq<Event>): string {
    if log == [] then ""
    else
      var last := log[|log| - 1];
      if last.Reset? then ""
      else View(log[..|log| - 1]) + if last.Delta? then last.text else ""
  }

  lemma ViewAppend(log: seq<Event>, e: Event)
    ensures View(log + [e]) == if e.Reset? then "" else if e.Delta? then View(log) + e.text else View(log)
  {
    assert (log + [e])[..|log|] == log;
  }

  lemma ConcatAppend(parts: seq<string>, text: string)
    ensures Concat(parts + [text]) == Concat(parts) + text
  {
    assert (parts + [text])[..|parts|] == parts;
  }

  /** The entries `flush` adds: none, or one delta holding the whole buffer. */
  function FlushEntries(buffer: seq<string>): seq<Event> {
    if buffer == [] then [] else [Delta(Concat(buffer))]
  }

  lemma FlushShowsBuffer(log: seq<Event>, buffer: seq<string>)
    ensures View(log + FlushEntries(buffer)) == View(log) + Concat(buffer)
  {
    if buffer != [] {
      ViewAppend(log, Delta(Concat(buffer)));
    } else {
      assert log + [] == log;
    }
  }

  /** `StreamPublisher` of one attempt. `entries` is the Redis stream under the result's key. */
  class StreamPublisher {
    var entries: seq<Event>
    var buffer: seq<string>
    var lastFlush: int
    const interval: int

    constructor (existing: seq<Event>, interval: int, now: int)
      ensures entries == existing && buffer == [] && lastFlush == now && this.interval == interval
    {
      entries := existing;
      buffer := [];
      lastFlush := now;
      this.interval := interval;
    }

    /** Everything written so far in this attempt, shown or still buffered. */
    function Written(): string
      reads this
    {
      View(entries) + Concat(buffer)
    }

    method Emit(e: Event)
      modifies this`entries
      ensures entries == old(entries) + [e]
    {
      entries := entries + [e];
    }

    method Start(attempt: nat, now: int)
      modifies this
      ensures entries == [Reset(attempt), Status]
      ensures buffer == old(buffer) && Written() == Concat(buffer) && lastFlush == now
    {
      entries := [];
      Emit(Reset(attempt));
      Emit(Status);
      ViewAppend([Reset(attempt)], Status);
      ViewAppend([], Reset(attempt));
      assert [Reset(attempt)] + [Status] == [Reset(attempt), Status];
      lastFlush := now;
    }

    /** `now` and `after` are the clock readings of the test and of the flush it may cause. */
    method Write(text: string, now: int, after: int)
      modifies this
      ensures Written() == old(Written()) + text
      ensures if now - old(lastFlush) >= interval
              then buffer == [] && entries == old(entries) + [Delta(Concat(old(buffer)) + text)] && lastFlush == after
              else buffer == old(buffer) + [text] && entries == old(entries) && lastFlush == old(lastFlush)
    {
      ConcatAppend(buffer, text);
      buffer := buffer + [text];
      if now - lastFlush >= interval {
        Flush(after);
      }
    }

    method Flush(now: int)
      modifies this
      ensures entries == old(entries) + FlushEntries(old(buffer))
      ensures buffer == [] && lastFlush == now
      ensures View(entries) == old(Written()) == Written()
    {
      FlushShowsBuffer(entries, buffer);
      if buffer != [] {
        Emit(Delta(Concat(buffer)));
        buffer := [];
      } else {
        assert entries + [] == entries;
      }
      lastFlush := now;
    }

    /** `done` shows everything that was written before it says so. */
    method Finish(now: int)
      modifies this
      ensures entries == old(entries) + FlushEntries(old(buffer)) + [Done]
      ensures buffer == [] && View(entries) == old(Written())
    {
      Flush(now);
      ViewAppend(entries, Done);
      Emit(Done);
    }

    method Fail(retrying: bool, now: int)
      modifies this
      ensures entries == old(entries) + FlushEntries(old(buffer)) + [if retrying then Retrying else Failed]
      ensures buffer == [] && View(entries) == old(Written())
    {
      Flush(now);
      ViewAppend(entries, if retrying then Retrying else Failed);
      Emit(if retrying then Retrying else Failed);
    }
  }
}
