/** The browser's side: deltas collect in `pending` and reach the screen once per animation frame. */
module StreamClient {
  datatype Phase = Connecting | Following | StreamingText | RetryingText | Reconnecting | Complete | Skipped | Failed

  datatype Screen = Screen(text: string, phase: Phase, pending: string, deltas: nat, frame: bool) {
    /** What is on screen once the pending deltas are committed. */
    function Shown(): string {
      text + pending
    }

    /** Pending text without a counted delta would never be committed. */
    predicate Valid() {
      && (deltas == 0 ==> pending == "")
      && (deltas > 0 ==> frame)
    }
  }

  const INITIAL := Screen("", Connecting, "", 0, false)

  function Flush(s: Screen): Screen {
    if s.deltas == 0 then s.(frame := false)
    else s.(frame := false, text := s.text + s.pending, pending := "", deltas := 0,
            phase := if s.phase.Following? then Following else StreamingText)
  }

  function DiscardPending(s: Screen): Screen {
    s.(frame := false, pending := "", deltas := 0)
  }

  function OnReset(s: Screen): Screen {
    DiscardPending(s).(text := "")
  }

  function OnDelta(s: Screen, text: string): Screen {
    s.(pending := s.pending + text, deltas := s.deltas + 1, frame := true)
  }

  function OnSnapshot(s: Screen, text: string): Screen {
    DiscardPending(s).(text := text)
  }

  function OnDone(s: Screen, skipped: bool): Screen {
    Flush(s).(phase := if skipped then Skipped else Complete)
  }

  function OnFailed(s: Screen): Screen {
    Flush(s).(phase := Failed)
  }

  lemma FlushShows(s: Screen)
    requires s.Valid()
    ensures Flush(s).Valid() && Flush(s).Shown() == s.Shown() && Flush(s).pending == ""
  {
  }

  /** The hook's state and refs, changed by its event handlers. */
  class ReviewStream {
    var text: string
    var phase: Phase
    var pending: string
    var deltas: nat
    var frame: bool   // an animation frame is requested

    function Contents(): Screen
      reads this
    {
      Screen(text, phase, pending, deltas, frame)
    }

    constructor ()
      ensures Contents() == INITIAL && Contents().Valid()
    {
      text, phase, pending, deltas, frame := "", Connecting, "", 0, false;
    }

    /** The animation frame callback: what is pending reaches the screen, and a browser that follows
        another review's result goes on saying so. */
    method FlushPending()
      modifies this
      ensures Contents() == Flush(old(Contents()))
      ensures old(Contents().Valid()) ==> text == old(text + pending) && pending == "" && !frame
      ensures phase == if old(deltas) == 0 || old(phase) == Following then old(phase) else StreamingText
    {
      frame := false;
      if deltas == 0 {
        return;
      }
      var batch := pending;
      pending, deltas := "", 0;
      text := text + batch;
      phase := if phase.Following? then Following else StreamingText;
    }

    method Discard()
      modifies this
      ensures Contents() == DiscardPending(old(Contents()))
    {
      frame := false;
      pending, deltas := "", 0;
    }

    method Reset()
      modifies this
      ensures Contents() == OnReset(old(Contents())) && Contents().Shown() == ""
    {
      Discard();
      text := "";
    }

    method Delta(part: string)
      modifies this
      ensures Contents() == OnDelta(old(Contents()), part) && Contents().Shown() == old(Contents().Shown()) + part
      ensures old(Contents().Valid()) ==> Contents().Valid()
    {
      pending := pending + part;
      deltas := deltas + 1;
      if !frame {
        frame := true;
      }
      assert old(text + pending) + part == text + pending;
    }

    method Snapshot(whole: string)
      modifies this
      ensures Contents() == OnSnapshot(old(Contents()), whole) && Contents().Shown() == whole
    {
      Discard();
      text := whole;
    }

    /** Closing leaves nothing pending: what was shown or pending is now on screen. */
    method Done(skipped: bool)
      requires Contents().Valid()
      modifies this
      ensures Contents() == OnDone(old(Contents()), skipped)
      ensures text == old(Contents().Shown()) && pending == ""
    {
      FlushShows(Contents());
      FlushPending();
      phase := if skipped then Skipped else Complete;
    }

    method Fail()
      requires Contents().Valid()
      modifies this
      ensures Contents() == OnFailed(old(Contents()))
      ensures text == old(Contents().Shown()) && pending == ""
    {
      FlushShows(Contents());
      FlushPending();
      phase := Failed;
    }
  }
}
