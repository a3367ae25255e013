/**
 * Whether the Connect worker's run loop ends after the close sequence has reached CLOSED: exactly when it
 * does, how it gets stuck, and runs that reach the stuck states.
 */
module RunLoop {
  import opened Values
  import opened Requests
  import opened Shutdown
  import opened Closed

  // ----- Stuck -----

  /** The run loop waits for `conn_init` to change, and nobody is left to change it. */
  predicate WaitsInVain(s: Worker) {
    s.conn.ClosedForGood? && !s.connInit && !s.start.Requesting? && s.runner == Connected(false)
  }

  lemma {:induction false} WaitsForever(s: Worker, es: seq<Event>)
    requires WaitsInVain(s) && RunFrom(s, es).Some?
    ensures WaitsInVain(RunFrom(s, es).value)
  {
    if es != [] {
      var front := es[..|es| - 1];
      WaitsForever(s, front);
      hide RunFrom;
      VainStep(RunFrom(s, front).value, es[|es| - 1]);
    }
  }

  lemma CloseWsSettled(s: Worker)
    requires s.conn.ClosedForGood? && !s.connInit
    ensures CloseWs(s) == s.(ws := false)
  {
  }

  /** Once `conn_init` is gone for good, reader and senders change nothing that the run loop looks at. */
  lemma SettledQuiet(s: Worker, e: Event)
    requires s.conn.ClosedForGood? && !s.connInit && (FromSender(e) || FromReader(e)) && Step(s, e).Some?
    ensures var s1 := Step(s, e).value;
            s1.conn == s.conn && !s1.connInit && s1.start == s.start && s1.runner == s.runner
  {
    if FromSender(e) {
      SenderSteps(s, e);
      hide Step;
      SendsQuiet(s, e);
    } else {
      ReaderSteps(s, e);
      hide Step;
      CloseWsSettled(s.(reader := false));
      hide CloseWs;
    }
  }

  lemma SendsQuiet(s: Worker, e: Event)
    requires s.conn.ClosedForGood? && !s.connInit && FromSender(e) && StepSend(s, e).Some?
    ensures var s1 := StepSend(s, e).value;
            s1.conn == s.conn && !s1.connInit && s1.start == s.start && s1.runner == s.runner
  {
    hide CloseWs;
    match e
    case SyncFails(_) => CloseWsSettled(s.(shake := s.shake.(sync := NoSync)));
    case SendEnds(_) => CloseWsSettled(s.(sends := s.sends - 1));
    case _ =>
  }

  lemma VainStep(s: Worker, e: Event)
    requires WaitsInVain(s) && Step(s, e).Some?
    ensures WaitsInVain(Step(s, e).value)
  {
    if FromSender(e) || FromReader(e) {
      SettledQuiet(s, e);
      hide Step;
    } else {
      hide Finish, AllShut, NoteCount, StepRead, StepSend, CloseHandler;
      if e.TaskEnds? { NoteCountIs(s.(work := Finish(s.work, e.task))); }
    }
  }

  // ----- When the loop ends -----

  /** CLOSED by the close sequence, without a timeout: everything but the run loop and its reader is over. */
  predicate WorkerOver(s: Worker) {
    s.conn.ClosedForGood? && AllShut(s) && !s.connInit && s.start.Over?
  }

  lemma UntimedIsOver(es: seq<Event>, s: Worker)
    requires RunFrom(START, es) == Some(s) && s.conn.ClosedForGood? && !s.timedOut
    ensures WorkerOver(s)
  {
    StartInv();
    ReachableInv(START, es);
    hide RunFrom, Accounted;
    assert s.handlers[CONN_INIT].Shut?;
  }

  function StopReading(s: Worker): seq<Event> {
    if s.reader then [ReaderStops] else []
  }

  /** How the run loop ends from here, unless it waits for `conn_init` to change. */
  function WayToEnd(s: Worker): seq<Event> {
    match s.runner
    case Ended => []
    case Finishing => [RunnerDone(false)]
    case Idle(_) => [RunnerQuits, RunnerDone(false)]
    case Settling => StopReading(s) + [RunnerLoops, RunnerDone(false)]
    case Opening => [RunnerRefused] + (StopReading(s) + [RunnerLoops, RunnerDone(false)])
    case Connected(_) => [RunnerWakes] + (StopReading(s) + [RunnerLoops, RunnerDone(false)])
  }

  ghost predicate Ends(s: Worker, es: seq<Event>) {
    RunFrom(s, es).Some? && RunFrom(s, es).value.runner.Ended?
  }

  lemma NothingToClose(s: Worker)
    requires AllShut(s)
    ensures CloseAll(s) == s
  {
    assert CloseAll(s).handlers == s.handlers;
  }

  lemma EndsFrom(s: Worker, es: seq<Event>, s1: Worker, more: seq<Event>)
    requires RunFrom(s, es) == Some(s1) && Ends(s1, more)
    ensures Ends(s, es + more)
  {
    hide RunFrom;
    RunConcat(s, es, more);
  }

  lemma FinishingEnds(s: Worker)
    requires WorkerOver(s) && s.runner.Finishing?
    ensures Ends(s, [RunnerDone(false)])
  {
    OneStep(s, RunnerDone(false));
    hide RunFrom;
  }

  lemma IdleEnds(s: Worker)
    requires WorkerOver(s) && s.runner.Idle?
    ensures Ends(s, [RunnerQuits] + [RunnerDone(false)])
  {
    NothingToClose(s);
    OneStep(s, RunnerQuits);
    hide RunFrom, CloseAll;
    FinishingEnds(s.(runner := Finishing));
    EndsFrom(s, [RunnerQuits], s.(runner := Finishing), [RunnerDone(false)]);
  }

  lemma LoopingEnds(s: Worker)
    requires WorkerOver(s) && s.runner.Settling? && !s.reader
    ensures Ends(s, [RunnerLoops] + [RunnerDone(false)])
  {
    NothingToClose(s);
    OneStep(s, RunnerLoops);
    hide RunFrom, CloseAll;
    FinishingEnds(s.(runner := Finishing));
    EndsFrom(s, [RunnerLoops], s.(runner := Finishing), [RunnerDone(false)]);
  }

  lemma SettlingEnds(s: Worker)
    requires WorkerOver(s) && s.runner.Settling?
    ensures Ends(s, StopReading(s) + [RunnerLoops, RunnerDone(false)])
  {
    assert [RunnerLoops] + [RunnerDone(false)] == [RunnerLoops, RunnerDone(false)];
    if s.reader {
      OneStep(s, ReaderStops);
      hide RunFrom;
      LoopingEnds(s.(reader := false));
      EndsFrom(s, [ReaderStops], s.(reader := false), [RunnerLoops, RunnerDone(false)]);
    } else {
      LoopingEnds(s);
      assert [] + [RunnerLoops, RunnerDone(false)] == [RunnerLoops, RunnerDone(false)];
    }
  }

  lemma RoundEnds(s: Worker, e: Event, s1: Worker)
    requires WorkerOver(s) && Step(s, e) == Some(s1) && WorkerOver(s1) && s1.runner.Settling? && s1.reader == s.reader
    ensures Ends(s, [e] + (StopReading(s) + [RunnerLoops, RunnerDone(false)]))
  {
    hide RunFrom, Step, WorkerOver;
    OneStep(s, e);
    SettlingEnds(s1);
    EndsFrom(s, [e], s1, StopReading(s) + [RunnerLoops, RunnerDone(false)]);
  }

  lemma {:induction false} WayToEndWorks(s: Worker)
    requires WorkerOver(s) && s.runner != Connected(false)
    ensures Ends(s, WayToEnd(s))
  {
    match s.runner
    case Ended =>
    case Finishing => FinishingEnds(s);
    case Idle(_) =>
      IdleEnds(s);
      assert [RunnerQuits] + [RunnerDone(false)] == [RunnerQuits, RunnerDone(false)];
    case Settling => SettlingEnds(s);
    case Opening =>
      CloseWsFacts(s);
      RoundEnds(s, RunnerRefused, CloseWs(s).(runner := Settling));
    case Connected(_) => RoundEnds(s, RunnerWakes, s.(runner := Settling));
  }

  /**
   * Does the run loop end? Exactly: once CLOSED is reached without a timeout, no continuation ends the run
   * loop if and only if it waits for `conn_init` to change.
   */
  lemma {:induction false} NeverEndsIff(es: seq<Event>, s: Worker)
    requires RunFrom(START, es) == Some(s) && s.conn.ClosedForGood? && !s.timedOut
    ensures (forall more :: RunFrom(s, more).Some? ==> !RunFrom(s, more).value.runner.Ended?) <==> s.runner == Connected(false)
  {
    UntimedIsOver(es, s);
    if s.runner == Connected(false) {
      forall more | RunFrom(s, more).Some? ensures !RunFrom(s, more).value.runner.Ended? {
        WaitsForever(s, more);
      }
    } else {
      WayToEndWorks(s);
      assert RunFrom(s, WayToEnd(s)).Some?;
    }
  }

  /** The loop may still come to wait for `conn_init`: it is about to open a connection, or is opening one. */
  predicate MayGetStuck(s: Worker) {
    s.runner == Idle(true) || s.runner.Opening? || s.runner == Connected(false)
  }

  predicate Safe(s: Worker) {
    s.conn.ClosedForGood? && !s.connInit && !s.start.Requesting? && !MayGetStuck(s)
  }

  lemma SafeStep(s: Worker, e: Event)
    requires Safe(s) && Step(s, e).Some?
    ensures Safe(Step(s, e).value)
  {
    if FromSender(e) || FromReader(e) {
      SettledQuiet(s, e);
      hide Step;
    } else {
      hide Finish, AllShut, NoteCount, StepRead, StepSend, CloseHandler;
      if e.TaskEnds? { NoteCountIs(s.(work := Finish(s.work, e.task))); }
    }
  }

  lemma {:induction false} SafeStays(s: Worker, es: seq<Event>)
    requires Safe(s) && RunFrom(s, es).Some?
    ensures Safe(RunFrom(s, es).value)
  {
    if es != [] {
      var front := es[..|es| - 1];
      SafeStays(s, front);
      hide Step, Safe;
      SafeStep(RunFrom(s, front).value, es[|es| - 1]);
    }
  }

  ghost predicate Waits(s: Worker, es: seq<Event>) {
    RunFrom(s, es).Some? && RunFrom(s, es).value.runner == Connected(false)
  }

  lemma WayToWait(s: Worker) returns (more: seq<Event>)
    requires MayGetStuck(s)
    ensures Waits(s, more)
  {
    var isOpen := s.(runner := Connected(false), reader := true, ws := true);
    match s.runner
    case Connected(_) => more := [];
    case Opening =>
      more := [RunnerOpened];
      OneStep(s, RunnerOpened);
    case Idle(_) =>
      more := [RunnerTakesEndpoint, RunnerOpened];
      hide RunFrom;
      Two(s, RunnerTakesEndpoint, s.(runner := Opening), RunnerOpened, isOpen);
  }

  /** Once CLOSED is reached without a timeout, some continuation gets stuck for ever if and only if `MayGetStuck`. */
  lemma {:induction false} GetsStuckIff(es: seq<Event>, s: Worker)
    requires RunFrom(START, es) == Some(s) && s.conn.ClosedForGood? && !s.timedOut
    ensures (exists more :: Waits(s, more)) <==> MayGetStuck(s)
  {
    UntimedIsOver(es, s);
    if MayGetStuck(s) {
      var more := WayToWait(s);
    } else {
      forall more ensures !Waits(s, more) {
        if RunFrom(s, more).Some? { SafeStays(s, more); }
      }
    }
  }

  // ----- When a close leads there -----

  /** The change that the loop waits for has already happened. */
  predicate MissedChange(s: Worker) {
    s.runner == Connected(false) && !s.connInit
  }

  /**
   * The end of the close sequence stops the run loop for good if and only if the loop waits with `conn_init`
   * already cleared; and it may still do so if and only if the loop is opening, or about to open, a connection.
   */
  lemma {:induction false} CloseHangsIff(es: seq<Event>, s: Worker, timeout: bool, s1: Worker)
    requires RunFrom(START, es) == Some(s) && Step(s, CloserDone(timeout)) == Some(s1) && !s1.timedOut
    ensures (forall more :: RunFrom(s1, more).Some? ==> !RunFrom(s1, more).value.runner.Ended?) <==> MissedChange(s)
    ensures (exists more :: Waits(s1, more)) <==> (s.runner == Idle(true) || s.runner.Opening? || MissedChange(s))
  {
    RunSnoc(START, es, CloserDone(timeout));
    hide RunFrom;
    NeverEndsIff(es + [CloserDone(timeout)], s1);
    GetsStuckIff(es + [CloserDone(timeout)], s1);
  }

  predicate RunnerActs(e: Event) {
    || e.RunnerTakesEndpoint? || e.RunnerOpened? || e.RunnerRefused? || e.RunnerWakes? || e.RunnerLoops?
    || e.RunnerQuits? || e.RunnerDone?
  }

  /** A wait for a change that has already happened begins only when a connection opens after `conn_init` was cleared. */
  lemma MissedOnlyByOpening(s: Worker, e: Event)
    requires Step(s, e).Some? && MissedChange(Step(s, e).value)
    ensures MissedChange(s) || (e.RunnerOpened? && s.runner.Opening? && !s.connInit)
  {
    if RunnerActs(e) {
      hide AllShut, CloseWs;
    } else {
      OthersMissNothing(s, e);
    }
  }

  lemma OthersMissNothing(s: Worker, e: Event)
    requires Step(s, e).Some? && !RunnerActs(e) && MissedChange(Step(s, e).value)
    ensures MissedChange(s)
  {
    if FromSender(e) {
      SenderSteps(s, e);
      hide Step, MissedChange;
      SendsMissNothing(s, e);
    } else if FromReader(e) {
      ReaderSteps(s, e);
      hide Step, MissedChange;
      ReadsMissNothing(s, e);
    } else {
      hide Finish, AllShut, NoteCount, StepRead, StepSend, CloseWs;
      if e.TaskEnds? { NoteCountIs(s.(work := Finish(s.work, e.task))); }
    }
  }

  lemma SendsMissNothing(s: Worker, e: Event)
    requires FromSender(e) && StepSend(s, e).Some? && MissedChange(StepSend(s, e).value)
    ensures MissedChange(s)
  {
    hide CloseWs;
    match e
    case SyncFails(_) => MissedCloseWs(s.(shake := s.shake.(sync := NoSync)));
    case SendEnds(_) => MissedCloseWs(s.(sends := s.sends - 1));
    case _ =>
  }

  lemma ReadsMissNothing(s: Worker, e: Event)
    requires FromReader(e) && StepRead(s, e).Some? && MissedChange(StepRead(s, e).value)
    ensures MissedChange(s)
  {
    MissedCloseWs(Hears(s, false));
    MissedCloseWs(s.(reader := false));
    hide CloseWs, Heard, OnRequest, ExecutionCloses;
  }

  lemma MissedCloseWs(s: Worker)
    ensures MissedChange(CloseWs(s)) ==> MissedChange(s)
  {
  }

  lemma MissedStays(s: Worker, e: Event)
    requires Step(s, e).Some? && MissedChange(s) && MissedChange(Step(s, e).value)
    ensures !RunnerActs(e) && !e.StartResponds?
  {
    hide Finish, OnRequest, AllShut, NoteCount, Heard;
  }

  /**
   * In every run that got there: a connection was opened after `conn_init` was cleared, and since then the run
   * loop did nothing and the start request set nothing.
   */
  lemma {:induction false} MissedChangeHistory(es: seq<Event>) returns (before: seq<Event>, since: seq<Event>)
    requires RunFrom(START, es).Some? && MissedChange(RunFrom(START, es).value)
    ensures es == before + [RunnerOpened] + since
    ensures var r := RunFrom(START, before); r.Some? && r.value.runner.Opening? && !r.value.connInit
    ensures forall e :: e in since ==> !RunnerActs(e) && !e.StartResponds?
  {
    var front, e := es[..|es| - 1], es[|es| - 1];
    var s := RunFrom(START, front).value;
    MissedOnlyByOpening(s, e);
    assert es == front + [e];
    if MissedChange(s) {
      MissedStays(s, e);
      hide RunFrom, Step, MissedChange, RunnerActs;
      before, since := MissedChangeHistory(front);
      since := since + [e];
    } else {
      before, since := front, [];
    }
  }

  // ----- Only a late failure clears `conn_init` so -----

  /** While the run loop is about to wait for a change, or waits, there is something to change, or CLOSED is reached. */
  predicate LoopSound(s: Worker) {
    && (s.reader ==> s.runner.Connected? || s.runner.Settling?)
    && (MayGetStuck(s) ==> s.connInit || s.conn.ClosedForGood?)
  }

  /** A send fails that outlived its connection: the run loop waits for, or opens, the next one. */
  predicate FailsLate(s: Worker, e: Event) {
    (e.SyncFails? || e.SendEnds?) && e.lost && (s.runner.Idle? || s.runner.Opening?)
  }

  ghost predicate FailedLate(es: seq<Event>) {
    && es != []
    && var r := RunFrom(START, es[..|es| - 1]);
       r.Some? && (FailsLate(r.value, es[|es| - 1]) || FailedLate(es[..|es| - 1]))
  }

  lemma SoundCloseWs(s: Worker)
    requires LoopSound(s) && !s.runner.Idle? && !s.runner.Opening?
    ensures LoopSound(CloseWs(s))
  {
  }

  lemma SoundSend(s: Worker, e: Event)
    requires LoopSound(s) && FromSender(e) && StepSend(s, e).Some? && !FailsLate(s, e)
    ensures LoopSound(StepSend(s, e).value)
  {
    hide CloseWs;
    match e
    case SyncFails(lost) => if lost { SoundCloseWs(s.(shake := s.shake.(sync := NoSync))); }
    case SendEnds(lost) => if lost { SoundCloseWs(s.(sends := s.sends - 1)); }
    case _ =>
  }

  lemma SoundRead(s: Worker, e: Event)
    requires LoopSound(s) && FromReader(e) && StepRead(s, e).Some?
    ensures LoopSound(StepRead(s, e).value)
  {
    if s.reader {
      SoundCloseWs(Hears(s, false));
      SoundCloseWs(s.(reader := false));
    }
    hide CloseWs, Heard, OnRequest, ExecutionCloses;
  }

  lemma SoundStep(s: Worker, e: Event)
    requires LoopSound(s) && Step(s, e).Some? && !FailsLate(s, e)
    ensures LoopSound(Step(s, e).value)
  {
    if FromSender(e) {
      SenderSteps(s, e);
      hide Step, LoopSound;
      SoundSend(s, e);
    } else if FromReader(e) {
      ReaderSteps(s, e);
      hide Step, LoopSound;
      SoundRead(s, e);
    } else {
      hide Step, LoopSound;
      SoundOther(s, e);
    }
  }

  lemma SoundOther(s: Worker, e: Event)
    requires LoopSound(s) && !FromSender(e) && !FromReader(e) && Step(s, e).Some?
    ensures LoopSound(Step(s, e).value)
  {
    hide Finish, AllShut, NoteCount, StepRead, StepSend, CloseHandler;
    if e.TaskEnds? { NoteCountIs(s.(work := Finish(s.work, e.task))); }
  }

  /**
   * The loop waits with `conn_init` already cleared only once CLOSED is reached, in every run in which no send
   * fails that outlived its connection.
   */
  lemma {:induction false} OnlyLateFailuresMiss(es: seq<Event>)
    requires RunFrom(START, es).Some? && !FailedLate(es)
    ensures LoopSound(RunFrom(START, es).value)
    ensures MissedChange(RunFrom(START, es).value) ==> RunFrom(START, es).value.conn.ClosedForGood?
  {
    if es != [] {
      var front := es[..|es| - 1];
      OnlyLateFailuresMiss(front);
      hide Step, LoopSound, FailsLate;
      SoundStep(RunFrom(START, front).value, es[|es| - 1]);
    }
    SoundMisses(RunFrom(START, es).value);
  }

  lemma SoundMisses(s: Worker)
    ensures LoopSound(s) && MissedChange(s) ==> s.conn.ClosedForGood?
  {
  }

  /**
   * When the close sequence finishes while the run loop is still opening its connection, and the connection
   * opens, the loop never ends: it waits for a change that has already happened.
   */
  lemma {:induction false} CloseDuringOpenHangs(es: seq<Event>, s: Worker, more: seq<Event>)
    requires RunFrom(START, es) == Some(s) && s.conn.ClosedForGood? && !s.timedOut && s.runner.Opening?
    ensures var r := RunFrom(s, [RunnerOpened] + more); r.Some? ==> r.value.runner == Connected(false)
  {
    UntimedIsOver(es, s);
    OneStep(s, RunnerOpened);
    hide RunFrom;
    RunConcat(s, [RunnerOpened], more);
    var s1 := s.(runner := Connected(false), reader := true, ws := true);
    if RunFrom(s1, more).Some? { WaitsForever(s1, more); }
  }

  // ----- Runs that get there -----

  const FIVE_DRAINING: seq<Handler> := [Draining(true), Draining(true), Draining(true), Draining(true), Draining(true)]

  /** `_close` closes the handlers: without requests every close sequence sees a zero count. */
  lemma CloseBegins(s: Worker)
    requires s.conn.Connecting? && s.closers == Closers(0, 0, 0) && s.work == IDLE
    requires s.handlers == [Open, Open, Open, Open, Open]
    ensures RunFrom(s, [MainClose, CloserStarts, CloserPaused]) ==
            Some(s.(conn := Closing, closing := true, closers := Closers(0, 0, 1), handlers := FIVE_DRAINING))
  {
    var s1 := s.(conn := Closing, closers := Closers(1, 0, 0));
    var s2 := s1.(closers := Closers(0, 1, 0));
    var s3 := s1.(closing := true, closers := Closers(0, 0, 1), handlers := FIVE_DRAINING);
    assert CloseAll(s2.(closing := true, closers := Closers(0, 0, 1))).handlers == FIVE_DRAINING;
    Chain([s, s1, s2, s3], [MainClose, CloserStarts, CloserPaused]);
  }

  /** The close sequence of one handler. */
  function Sequence(h: nat): seq<Event> {
    if h == CONN_INIT then [HandlerDrained(h), StartCancelled, HandlerCleaned(h)]
    else if h == HANDSHAKE then [HandlerDrained(h), WatcherCancelled, HandlerCleaned(h)]
    else [HandlerDrained(h), HandlerCleaned(h)]
  }

  /** The close sequences of handlers `h` and later, one after the other. */
  function ShutFrom(h: nat): seq<Event>
    decreases HANDLERS - h
  {
    if h >= HANDLERS then [] else Sequence(h) + ShutFrom(h + 1)
  }

  /** The handshake handler without its tasks. */
  function Unwatched(k: Shake): Shake {
    k.(sync := NoSync, watching := false, resetDue := false)
  }

  /** The worker when handler `h` is shut. */
  function AfterShut(s: Worker, h: nat): Worker
    requires h < |s.handlers|
  {
    s.(handlers := s.handlers[h := Shut],
       start := if h == CONN_INIT then Over else s.start,
       shake := if h == HANDSHAKE then Unwatched(s.shake) else s.shake)
  }

  lemma StartSequence(s: Worker)
    requires |s.handlers| == HANDLERS && s.handlers[CONN_INIT] == Draining(true)
    ensures RunFrom(s, Sequence(CONN_INIT)) == Some(AfterShut(s, CONN_INIT))
  {
    hide RunFrom;
    var s1 := s.(handlers := s.handlers[CONN_INIT := Cleaning]);
    assert s1.handlers[CONN_INIT := Shut] == s.handlers[CONN_INIT := Shut];
    Three(s, HandlerDrained(CONN_INIT), s1, StartCancelled, s1.(start := Over), HandlerCleaned(CONN_INIT), AfterShut(s, CONN_INIT));
  }

  lemma HandshakeSequence(s: Worker)
    requires |s.handlers| == HANDLERS && s.handlers[HANDSHAKE] == Draining(true)
    ensures RunFrom(s, Sequence(HANDSHAKE)) == Some(AfterShut(s, HANDSHAKE))
  {
    hide RunFrom;
    var s1 := s.(handlers := s.handlers[HANDSHAKE := Cleaning], shake := s.shake.(sync := NoSync));
    assert s1.handlers[HANDSHAKE := Shut] == s.handlers[HANDSHAKE := Shut];
    Three(s, HandlerDrained(HANDSHAKE), s1, WatcherCancelled, s1.(shake := Unwatched(s.shake)),
          HandlerCleaned(HANDSHAKE), AfterShut(s, HANDSHAKE));
  }

  lemma OneSequenceRuns(s: Worker, h: nat)
    requires |s.handlers| == HANDLERS && h < HANDLERS && s.handlers[h] == Draining(true)
    ensures RunFrom(s, Sequence(h)) == Some(AfterShut(s, h))
  {
    if h == CONN_INIT {
      StartSequence(s);
    } else if h == HANDSHAKE {
      HandshakeSequence(s);
    } else {
      hide RunFrom;
      var s1 := s.(handlers := s.handlers[h := Cleaning]);
      assert s1.handlers[h := Shut] == s.handlers[h := Shut];
      Two(s, HandlerDrained(h), s1, HandlerCleaned(h), AfterShut(s, h));
    }
  }

  predicate DrainingFrom(hs: seq<Handler>, h: nat) {
    |hs| == HANDLERS && forall i :: 0 <= i < HANDLERS ==> hs[i] == if i < h then Shut else Draining(true)
  }

  lemma OneMoreShut(hs: seq<Handler>, h: nat)
    requires DrainingFrom(hs, h) && h < HANDLERS
    ensures hs[h] == Draining(true) && DrainingFrom(hs[h := Shut], h + 1)
  {
  }

  const FIVE_SHUT: seq<Handler> := [Shut, Shut, Shut, Shut, Shut]

  lemma AllAreShut(hs: seq<Handler>)
    requires DrainingFrom(hs, HANDLERS)
    ensures hs == FIVE_SHUT
  {
  }

  lemma SequencesJoin(s: Worker, h: nat, s1: Worker)
    requires h < HANDLERS && RunFrom(s, Sequence(h)) == Some(s1)
    ensures RunFrom(s, ShutFrom(h)) == RunFrom(s1, ShutFrom(h + 1))
  {
    hide RunFrom, Sequence;
    RunConcat(s, Sequence(h), ShutFrom(h + 1));
  }

  /** The worker when handlers `h` and later are shut, too. */
  function AllAfterShut(s: Worker, h: nat): Worker {
    s.(handlers := FIVE_SHUT,
       start := if h <= CONN_INIT then Over else s.start,
       shake := if h <= HANDSHAKE then Unwatched(s.shake) else s.shake)
  }

  lemma {:induction false} AllSequencesRun(s: Worker, h: nat)
    requires DrainingFrom(s.handlers, h) && h <= HANDLERS
    ensures RunFrom(s, ShutFrom(h)) == Some(AllAfterShut(s, h))
    decreases HANDLERS - h
  {
    hide Step, Sequence;
    if h == HANDLERS {
      AllAreShut(s.handlers);
      assert ShutFrom(h) == [];
    } else {
      hide RunFrom, DrainingFrom, ShutFrom;
      OneMoreShut(s.handlers, h);
      OneSequenceRuns(s, h);
      AllSequencesRun(AfterShut(s, h), h + 1);
      SequencesJoin(s, h, AfterShut(s, h));
    }
  }

  /** A close of a worker without requests, from the main thread's call to CLOSED. */
  function CloseRun(): seq<Event> {
    [MainClose, CloserStarts, CloserPaused] + ShutFrom(0) + [CloserDone(false)]
  }

  lemma {:induction false} CloseRuns(s: Worker)
    requires s.conn.Connecting? && s.closers == Closers(0, 0, 0) && s.work == IDLE && !s.timedOut
    requires s.handlers == [Open, Open, Open, Open, Open]
    ensures var r := RunFrom(s, CloseRun());
            r.Some? && r.value.conn.ClosedForGood? && !r.value.timedOut
            && (s.runner.Opening? || MissedChange(s) ==> r.value.runner == s.runner)
  {
    var a := [MainClose, CloserStarts, CloserPaused];
    CloseBegins(s);
    hide RunFrom, ShutFrom;
    var s1 := s.(conn := Closing, closing := true, closers := Closers(0, 0, 1), handlers := FIVE_DRAINING);
    AllSequencesRun(s1, 0);
    RunConcat(s, a, ShutFrom(0));
    RunSnoc(s, a + ShutFrom(0), CloserDone(false));
  }

  /** A close can overtake the opening of the connection: this run reaches CLOSED while the loop is opening. */
  lemma {:induction false} HangIsReachable()
    ensures var r := RunFrom(START, TO_OPENING + CloseRun());
            r.Some? && r.value.conn.ClosedForGood? && !r.value.timedOut && r.value.runner.Opening?
  {
    OpeningIsReachable();
    CloseRuns(OPENING);
    hide RunFrom, CloseRun;
    RunConcat(START, TO_OPENING, CloseRun());
  }

  /** A heartbeat is sent. */
  const BEATS := CONNECTS + [SendStarts]

  const BEATING := CONNECTED.(sends := 1)

  lemma Beats()
    ensures RunFrom(OPENING, BEATS) == Some(BEATING)
  {
    Connects();
    OneStep(CONNECTED, SendStarts);
    hide RunFrom;
    Then(OPENING, CONNECTS, CONNECTED, [SendStarts], BEATING);
  }

  /** The gateway drains, and the run loop is about to open the next connection. */
  const MOVES_ON := DRAINS + RESTARTS + LEAVES

  const NEXT := BEATING.(conn := Connecting, ws := false, runner := Idle(true), reader := false,
                         shake := Shake(H.AwaitingHello, NoSync, true, false))

  lemma MovesOn()
    ensures RunFrom(BEATING, MOVES_ON) == Some(NEXT)
  {
    var s1 := Drained(BEATING);
    var s2 := s1.(conn := Connecting, connInit := true, runner := Settling);
    Drains(BEATING);
    Restarts(s1);
    Leaves(s2);
    hide RunFrom;
    Then(BEATING, DRAINS, s1, RESTARTS, s2);
    Then(BEATING, DRAINS + RESTARTS, s2, LEAVES, NEXT);
  }

  /** The heartbeat fails while the next connection opens. */
  const LATE_FAILURE := [RunnerTakesEndpoint, SendEnds(true)]

  const LOSES_INIT := LATE_FAILURE + [RunnerOpened, StartSends]

  const FAILED := NEXT.(conn := Reconnecting, runner := Opening, connInit := false, sends := 0,
                        shake := Shake(H.AwaitingHello, NoSync, true, true))

  const LOST := FAILED.(conn := Connecting, runner := Connected(false), start := Requesting, reader := true, ws := true)

  lemma FailsLately()
    ensures RunFrom(NEXT, LATE_FAILURE) == Some(FAILED)
  {
    hide RunFrom;
    Two(NEXT, RunnerTakesEndpoint, NEXT.(runner := Opening), SendEnds(true), FAILED);
  }

  lemma LosesInit()
    ensures RunFrom(NEXT, LOSES_INIT) == Some(LOST)
  {
    FailsLately();
    hide RunFrom;
    Two(FAILED, RunnerOpened, FAILED.(runner := Connected(false), reader := true, ws := true), StartSends, LOST);
    Then(NEXT, LATE_FAILURE, FAILED, [RunnerOpened, StartSends], LOST);
  }

  /**
   * And the loop can be stuck already when the close finishes, if a send can outlive its connection: here the
   * failure of a heartbeat clears `conn_init` while the next connection opens, and the close follows.
   */
  lemma {:induction false} StuckIsReachable()
    ensures var r := RunFrom(START, TO_OPENING + BEATS + MOVES_ON + LOSES_INIT + CloseRun());
            r.Some? && r.value.conn.ClosedForGood? && !r.value.timedOut && r.value.runner == Connected(false)
  {
    hide RunFrom, CloseRun;
    OpeningIsReachable();
    Beats();
    MovesOn();
    LosesInit();
    CloseRuns(LOST);
    Then(START, TO_OPENING, OPENING, BEATS, BEATING);
    Then(START, TO_OPENING + BEATS, BEATING, MOVES_ON, NEXT);
    Then(START, TO_OPENING + BEATS + MOVES_ON, NEXT, LOSES_INIT, LOST);
    RunConcat(START, TO_OPENING + BEATS + MOVES_ON + LOSES_INIT, CloseRun());
  }
}
