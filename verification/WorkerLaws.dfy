/** Which events write the connection state, `conn_init` and the run loop's position, exactly, and to what. */
module WorkerLaws {
  import opened Values
  import opened Requests
  import opened Shutdown
  import H = Handshakes

  /** The event runs `close_ws`: the socket is lost or given up, or opening it failed. */
  predicate GivesUpSocket(s: Worker, e: Event) {
    || e.ReceiveClosing?
    || (e.ConnectionLost? && s.ws)
    || (e.SyncFails? && e.lost)
    || (e.SendEnds? && e.lost)
    || e.RunnerRefused?
  }

  /** A READY that the handshake waits for. */
  predicate CompletesHandshake(s: Worker, e: Event) {
    e.ReceiveReady? && e.valid && s.shake.phase.AwaitingReady?
  }

  ghost predicate ConnectionFact(s: Worker, e: Event, s1: Worker) {
    if CompletesHandshake(s, e) then s1.conn.Active?
    else if e.StartSends? && !s.conn.ClosedForGood? then s1.conn.Connecting?
    else if e.MainClose? && !s.conn.Closing? && !s.conn.ClosedForGood? then s1.conn.Closing?
    else if e.CloserDone? || e.RunnerDone? then s1.conn.ClosedForGood?
    else if GivesUpSocket(s, e) && !s.conn.ClosedForGood? then s1.conn.Reconnecting?
    else s1.conn == s.conn
  }

  ghost predicate InitFact(s: Worker, e: Event, s1: Worker) {
    && (s1.connInit <==> e.StartResponds? || (s.connInit && !GivesUpSocket(s, e) && !e.CloserDone? && !e.RunnerDone?))
    && (s1.ws <==> e.RunnerOpened? || (s.ws && !GivesUpSocket(s, e) && !e.RunnerDone?))
  }

  /** A change of `conn_init` moves the run loop like this. */
  function Moved(runner: Runner, present: bool, closed: bool): Runner {
    match runner
    case Connected(_) => Connected(true)
    case Idle(seen) => Idle(seen || (present && !closed))
    case _ => runner
  }

  ghost predicate RunFact(s: Worker, e: Event, s1: Worker) {
    match e
    case RunnerTakesEndpoint => s.runner == Idle(true) && s1.runner.Opening?
    case RunnerOpened => s.runner.Opening? && s1.runner == Connected(false) && s1.reader
    case RunnerRefused => s.runner.Opening? && s1.runner.Settling?
    case RunnerWakes => s.runner == Connected(true) && s1.runner.Settling?
    case RunnerLoops =>
      s.runner.Settling? && !s.reader && s1.runner == if s.conn.ClosedForGood? then Finishing else Idle(s.connInit)
    case RunnerQuits => s.runner.Idle? && (s.conn.ClosedForGood? || s.fatal) && s1.runner.Finishing?
    case RunnerDone(timeout) =>
      s.runner.Finishing? && s1.runner.Ended? && (timeout || forall h :: 0 <= h < |s.handlers| ==> s.handlers[h].Shut?)
    case _ => s1.runner == if s1.connInit == s.connInit then s.runner else Moved(s.runner, s1.connInit, s1.conn.ClosedForGood?)
  }

  ghost predicate StartFact(s: Worker, e: Event, s1: Worker) {
    && (s1.fatal <==> s.fatal || e == StartFails(true))
    && match e
       case StartSends =>
         s.start.AwaitingNone? && !s.connInit && s1.start == if s.conn.ClosedForGood? then Over else Requesting
       case StartResponds => s.start.Requesting? && s1.start.AwaitingNone?
       case StartFails(gaveUp) => s.start.Requesting? && s1.start == (if gaveUp then Over else AwaitingNone)
       case StartCancelled => |s.handlers| > CONN_INIT && s.handlers[CONN_INIT].Cleaning? && s1.start.Over?
       case _ => s1.start == s.start
  }

  ghost predicate Facts(s: Worker, e: Event, s1: Worker) {
    ConnectionFact(s, e, s1) && InitFact(s, e, s1) && RunFact(s, e, s1) && StartFact(s, e, s1)
  }

  /** `close_ws`, field by field. */
  lemma GivenUp(s: Worker)
    ensures var s1 := CloseWs(s);
            && s1 == s.(conn := if s.conn.ClosedForGood? then ClosedForGood else Reconnecting, connInit := false, ws := false,
                        runner := if s.connInit then Moved(s.runner, false, false) else s.runner,
                        shake := if s.connInit then s.shake.(resetDue := s.shake.watching) else s.shake)
  {
  }

  lemma ClosingAll(s: Worker)
    ensures CloseAll(s) == s.(handlers := CloseAll(s).handlers)
  {
  }

  lemma MessageFacts(s: Worker, e: Event)
    requires e.ReceiveRequest? || e.ReceiveHello? || e.ReceiveOther? || e.ReaderStops?
    requires StepRead(s, e).Some?
    ensures Facts(s, e, StepRead(s, e).value)
  {
    hide Heard, OnRequest, ExecutionCloses, CloseWs;
  }

  lemma ReadyFacts(s: Worker, e: Event)
    requires e.ReceiveReady?
    requires StepRead(s, e).Some?
    ensures Facts(s, e, StepRead(s, e).value)
  {
    hide Heard, CloseWs;
  }

  lemma LossFacts(s: Worker, e: Event)
    requires e.ReceiveClosing? || e.ConnectionLost?
    requires StepRead(s, e).Some?
    ensures Facts(s, e, StepRead(s, e).value)
  {
    GivenUp(Hears(s, false));
    GivenUp(s.(reader := false));
    hide CloseWs, Heard;
  }

  lemma SyncFacts(s: Worker, e: Event)
    requires e.SyncStarts? || e.SyncSent? || e.SyncFails?
    requires StepSend(s, e).Some?
    ensures Facts(s, e, StepSend(s, e).value)
  {
    GivenUp(s.(shake := s.shake.(sync := NoSync)));
    hide CloseWs;
  }

  lemma QuietSendFacts(s: Worker, e: Event)
    requires e.ResetHandshake? || e.SendStarts?
    requires StepSend(s, e).Some?
    ensures Facts(s, e, StepSend(s, e).value)
  {
    hide CloseWs;
  }

  lemma SendFacts(s: Worker, e: Event)
    requires e.SendEnds?
    requires StepSend(s, e).Some?
    ensures Facts(s, e, StepSend(s, e).value)
  {
    if s.sends > 0 { GivenUp(s.(sends := s.sends - 1)); }
    hide CloseWs;
  }

  lemma ConnectFacts(s: Worker, e: Event)
    requires e.RunnerTakesEndpoint? || e.RunnerOpened? || e.RunnerWakes?
    requires Step(s, e).Some?
    ensures Facts(s, e, Step(s, e).value)
  {
    hide CloseWs, CloseAll, SetInit, StepRead, StepSend, NoteCount, Finish, AllShut;
  }

  lemma RefusedFacts(s: Worker, e: Event)
    requires e.RunnerRefused?
    requires Step(s, e).Some?
    ensures Facts(s, e, Step(s, e).value)
  {
    GivenUp(s);
    hide CloseWs, CloseAll, SetInit, StepRead, StepSend, NoteCount, Finish, AllShut;
  }

  lemma LeaveFacts(s: Worker, e: Event)
    requires e.RunnerLoops? || e.RunnerQuits?
    requires Step(s, e).Some?
    ensures Facts(s, e, Step(s, e).value)
  {
    ClosingAll(s);
    hide CloseWs, CloseAll, SetInit, StepRead, StepSend, NoteCount, Finish, AllShut;
  }

  lemma DoneFacts(s: Worker, e: Event)
    requires e.RunnerDone?
    requires Step(s, e).Some?
    ensures Facts(s, e, Step(s, e).value)
  {
    GivenUp(s.(conn := ClosedForGood, timedOut := s.timedOut || !AllShut(s)));
    hide CloseWs, CloseAll, SetInit, StepRead, StepSend, NoteCount, Finish;
  }

  lemma CloseFacts(s: Worker, e: Event)
    requires e.MainClose? || e.CloserStarts? || e.CloserPaused?
    requires Step(s, e).Some?
    ensures Facts(s, e, Step(s, e).value)
  {
    if s.closers.pausing > 0 {
      ClosingAll(s.(closing := true, closers := s.closers.(pausing := s.closers.pausing - 1, waiting := s.closers.waiting + 1)));
    }
    hide CloseWs, CloseAll, SetInit, StepRead, StepSend, NoteCount, Finish, AllShut;
  }

  lemma ClosedFacts(s: Worker, e: Event)
    requires e.CloserDone?
    requires Step(s, e).Some?
    ensures Facts(s, e, Step(s, e).value)
  {
    hide CloseWs, CloseAll, StepRead, StepSend, NoteCount, Finish, AllShut;
  }

  lemma HandlerFacts(s: Worker, e: Event)
    requires e.HandlerDrained? || e.StartCancelled? || e.WatcherCancelled? || e.HandlerCleaned?
    requires Step(s, e).Some?
    ensures Facts(s, e, Step(s, e).value)
  {
    hide CloseWs, CloseAll, SetInit, StepRead, StepSend, NoteCount, Finish, AllShut;
  }

  lemma StartFacts(s: Worker, e: Event)
    requires e.StartSends? || e.StartResponds? || e.StartFails?
    requires Step(s, e).Some?
    ensures Facts(s, e, Step(s, e).value)
  {
    hide CloseWs, CloseAll, StepRead, StepSend, NoteCount, Finish, AllShut;
  }

  lemma TaskFacts(s: Worker, e: Event)
    requires e.TaskEnds?
    requires Step(s, e).Some?
    ensures Facts(s, e, Step(s, e).value)
  {
    NoteCountIs(s.(work := Finish(s.work, e.task)));
    hide CloseWs, CloseAll, SetInit, StepRead, StepSend, NoteCount, Finish, AllShut;
  }

  lemma StepFacts(s: Worker, e: Event)
    requires Step(s, e).Some?
    ensures Facts(s, e, Step(s, e).value)
  {
    hide Facts, StepRead, StepSend;
    if FromReader(e) {
      ReaderFacts(s, e);
    } else if FromSender(e) {
      if e.SendEnds? {
        SendFacts(s, e);
      } else if e.ResetHandshake? || e.SendStarts? {
        QuietSendFacts(s, e);
      } else {
        SyncFacts(s, e);
      }
    } else {
      hide Step;
      match e
      case TaskEnds(_) => TaskFacts(s, e);
      case MainClose | CloserStarts | CloserPaused => CloseFacts(s, e);
      case CloserDone(_) => ClosedFacts(s, e);
      case StartSends | StartResponds | StartFails(_) => StartFacts(s, e);
      case RunnerTakesEndpoint | RunnerOpened | RunnerWakes => ConnectFacts(s, e);
      case RunnerRefused => RefusedFacts(s, e);
      case RunnerLoops | RunnerQuits => LeaveFacts(s, e);
      case RunnerDone(_) => DoneFacts(s, e);
      case _ => HandlerFacts(s, e);
    }
  }

  lemma ReaderFacts(s: Worker, e: Event)
    requires FromReader(e) && StepRead(s, e).Some?
    ensures Facts(s, e, StepRead(s, e).value)
  {
    hide Facts, StepRead;
    match e
    case ReceiveReady(_) => ReadyFacts(s, e);
    case ReceiveClosing | ConnectionLost => LossFacts(s, e);
    case _ => MessageFacts(s, e);
  }

  /**
   * Every change of the connection state: ACTIVE for a READY, CONNECTING for a start request, CLOSING from the
   * main thread, CLOSED at the end of a close sequence or of the run loop, RECONNECTING when the socket is
   * given up before CLOSED; and nothing else writes it. `conn_init` is set by the answer to a start request,
   * and cleared with the socket and at both ends.
   */
  lemma {:induction false} ConnectionStateIs(s: Worker, e: Event)
    requires Step(s, e).Some?
    ensures ConnectionFact(s, e, Step(s, e).value) && InitFact(s, e, Step(s, e).value)
  {
    hide Step;
    StepFacts(s, e);
  }

  /**
   * The run loop: it takes an endpoint, opens a connection or fails to, notices that `conn_init` changed, settles
   * until the reader is done, goes round again unless CLOSED, or quits if CLOSED or given up; the only other
   * thing that moves it is a change of `conn_init`.
   */
  lemma {:induction false} RunLoopIs(s: Worker, e: Event)
    requires Step(s, e).Some?
    ensures RunFact(s, e, Step(s, e).value)
  {
    hide Step;
    StepFacts(s, e);
  }

  /** The start request begins only without `conn_init`, and ends for good after CLOSED, on giving up or when cancelled. */
  lemma {:induction false} StartRequestIs(s: Worker, e: Event)
    requires Step(s, e).Some?
    ensures StartFact(s, e, Step(s, e).value)
  {
    hide Step;
    StepFacts(s, e);
  }

  /** In every run, the worker has a fatal error if and only if a start request has given up. */
  lemma {:induction false} FatalIff(es: seq<Event>)
    requires RunFrom(START, es).Some?
    ensures RunFrom(START, es).value.fatal <==> StartFails(true) in es
  {
    if es != [] {
      var front, e := es[..|es| - 1], es[|es| - 1];
      FatalIff(front);
      hide Step;
      StartRequestIs(RunFrom(START, front).value, e);
      assert es == front + [e];
    }
  }
}
