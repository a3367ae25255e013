/** When the CLOSED state of a Connect worker is final, exactly, and a run that leaves it. */
module Closed {
  import opened Values
  import opened Requests
  import opened Shutdown
  import H = Handshakes

  // ----- What it takes to leave CLOSED -----

  /** The run loop is about to open a connection, or is opening one. */
  predicate CanOpen(s: Worker) {
    s.runner == Idle(true) || s.runner.Opening?
  }

  /** Messages can still be read: there is or will be a connection, and `conn_init` is set or will be. */
  predicate CanRead(s: Worker) {
    (s.reader || CanOpen(s)) && (s.connInit || s.start.Requesting?)
  }

  /**
   * The handshake waits for a READY or can still get there: a send of the sync task is under way, or there is
   * or will be a socket in `ws` to send on and the handshake is not complete, or a reset of it is due.
   */
  predicate CanAwaitReady(s: Worker) {
    || s.shake.phase.AwaitingReady?
    || s.shake.sync.Sending?
    || ((s.ws || CanOpen(s)) && (s.shake.sync.AwaitsWs? || !s.shake.phase.Complete? || s.shake.resetDue))
  }

  predicate CanLeave(s: Worker) {
    CanRead(s) && CanAwaitReady(s)
  }

  /** A start request is only under way while `conn_init` is not set. */
  predicate OneSource(s: Worker) {
    s.start.Requesting? ==> !s.connInit
  }

  predicate Final(s: Worker) {
    s.conn.ClosedForGood? && OneSource(s) && !CanLeave(s)
  }

  // ----- CLOSED is final without a way out -----

  lemma FinalCloseWs(s: Worker)
    requires Final(s)
    ensures Final(CloseWs(s))
  {
  }

  lemma FinalHears(s: Worker, hello: bool)
    requires Final(s) && Reading(s)
    ensures Final(Hears(s, hello))
  {
  }

  lemma FinalSend(s: Worker, e: Event)
    requires Final(s) && FromSender(e) && StepSend(s, e).Some?
    ensures Final(StepSend(s, e).value)
  {
    hide CloseWs;
    match e
    case SyncFails(_) => FinalCloseWs(s.(shake := s.shake.(sync := NoSync)));
    case SendEnds(_) => FinalCloseWs(s.(sends := s.sends - 1));
    case _ =>
  }

  lemma FinalRead(s: Worker, e: Event)
    requires Final(s) && FromReader(e) && StepRead(s, e).Some?
    ensures Final(StepRead(s, e).value)
  {
    if Reading(s) {
      FinalHears(s, false);
      FinalHears(s, true);
      FinalCloseWs(Hears(s, false));
    }
    FinalCloseWs(s.(reader := false));
    hide CloseWs, Heard, OnRequest, ExecutionCloses;
  }

  lemma FinalStep(s: Worker, e: Event)
    requires Final(s) && Step(s, e).Some?
    ensures Final(Step(s, e).value)
  {
    if FromSender(e) {
      SenderSteps(s, e);
      hide Step, Final;
      FinalSend(s, e);
    } else if FromReader(e) {
      ReaderSteps(s, e);
      hide Step, Final;
      FinalRead(s, e);
    } else {
      FinalOther(s, e);
    }
  }

  lemma FinalOther(s: Worker, e: Event)
    requires Final(s) && !FromSender(e) && !FromReader(e) && Step(s, e).Some?
    ensures Final(Step(s, e).value)
  {
    hide Finish, AllShut, NoteCount, StepSend, StepRead;
    if e.TaskEnds? { NoteCountIs(s.(work := Finish(s.work, e.task))); }
  }

  lemma {:induction false} FinalStays(s: Worker, es: seq<Event>)
    requires Final(s) && RunFrom(s, es).Some?
    ensures Final(RunFrom(s, es).value)
  {
    if es != [] {
      var front := es[..|es| - 1];
      FinalStays(s, front);
      hide Step, Final;
      FinalStep(RunFrom(s, front).value, es[|es| - 1]);
    }
  }

  /**
   * CLOSED is absorbing. In every run in which no wait for the handlers timed out, once the state is CLOSED
   * it stays CLOSED, whatever any task or the main thread does next.
   */
  lemma {:induction false} ClosedIsAbsorbing(es: seq<Event>, s: Worker, more: seq<Event>, s1: Worker)
    requires RunFrom(START, es) == Some(s) && s.conn.ClosedForGood? && !s.timedOut
    requires RunFrom(s, more) == Some(s1)
    ensures s1.conn.ClosedForGood?
  {
    StartInv();
    ReachableInv(START, es);
    hide RunFrom, Accounted;
    assert s.handlers[CONN_INIT].Shut?;
    FinalStays(s, more);
  }

  // ----- The way out -----

  /** The start request answers. */
  function GetsInit(s: Worker): seq<Event> {
    if s.connInit then [] else [StartResponds]
  }

  /** The connection opens. */
  function Opens(s: Worker): seq<Event> {
    if s.runner.Opening? then [RunnerOpened]
    else if s.runner == Idle(true) then [RunnerTakesEndpoint, RunnerOpened]
    else []
  }

  /** The handshake gets to wait for a READY. */
  function Shakes(k: Shake): seq<Event> {
    if k.phase.AwaitingReady? then []
    else if k.sync.Sending? then [SyncSent]
    else if k.sync.AwaitsWs? then [SyncStarts, SyncSent]
    else if k.phase.Complete? then [ResetHandshake, ReceiveHello, SyncStarts, SyncSent]
    else [ReceiveHello, SyncStarts, SyncSent]
  }

  function WayOut(s: Worker): seq<Event> {
    GetsInit(s) + (Opens(s) + (Shakes(s.shake) + [ReceiveReady(true)]))
  }

  /** After `before`, the way `rest` leads to ACTIVE. */
  ghost predicate Leads(s: Worker, way: seq<Event>) {
    RunFrom(s, way).Some? && RunFrom(s, way).value.conn.Active?
  }

  lemma LeadsFrom(s: Worker, es: seq<Event>, s1: Worker, rest: seq<Event>)
    requires RunFrom(s, es) == Some(s1) && Leads(s1, rest)
    ensures Leads(s, es + rest)
  {
    hide RunFrom;
    RunConcat(s, es, rest);
  }

  lemma Nothing(s: Worker)
    ensures RunFrom(s, []) == Some(s)
  {
  }

  /** The handshake's part of the way, on an open connection. */
  lemma ShakesWorks(s: Worker) returns (s1: Worker)
    requires Reading(s) && CanAwaitReady(s) && !CanOpen(s)
    ensures RunFrom(s, Shakes(s.shake)) == Some(s1) && Reading(s1) && s1.shake.phase.AwaitingReady?
  {
    hide RunFrom;
    var k := s.shake;
    s1 := s.(shake := k.(phase := H.AwaitingReady, sync := NoSync));
    if k.phase.AwaitingReady? {
      Nothing(s);
      s1 := s;
    } else if k.sync.Sending? {
      OneStep(s, SyncSent);
    } else {
      var sending := s.(shake := k.(sync := Sending));
      if k.sync.AwaitsWs? {
        Two(s, SyncStarts, sending, SyncSent, s1);
      } else if k.phase.Complete? {
        s1 := ResetWorks(s);
      } else {
        s1 := HelloWorks(s);
      }
    }
  }

  lemma HelloWorks(s: Worker) returns (s1: Worker)
    requires Reading(s) && s.ws && (s.shake.phase.AwaitingHello? || s.shake.phase.AwaitingSyncComplete?)
    ensures RunFrom(s, [ReceiveHello, SyncStarts, SyncSent]) == Some(s1) && Reading(s1) && s1.shake.phase.AwaitingReady?
  {
    var k := s.shake;
    var waiting := s.(shake := k.(phase := H.AwaitingSyncComplete, sync := AwaitsWs));
    var sending := s.(shake := k.(phase := H.AwaitingSyncComplete, sync := Sending));
    s1 := s.(shake := k.(phase := H.AwaitingReady, sync := NoSync));
    hide RunFrom;
    Three(s, ReceiveHello, waiting, SyncStarts, sending, SyncSent, s1);
  }

  lemma ResetWorks(s: Worker) returns (s1: Worker)
    requires Reading(s) && s.ws && s.shake.resetDue
    ensures RunFrom(s, [ResetHandshake, ReceiveHello, SyncStarts, SyncSent]) == Some(s1)
    ensures Reading(s1) && s1.shake.phase.AwaitingReady?
  {
    var reset := s.(shake := s.shake.(phase := H.AwaitingHello, resetDue := false));
    OneStep(s, ResetHandshake);
    hide RunFrom;
    s1 := HelloWorks(reset);
    RunConcat(s, [ResetHandshake], [ReceiveHello, SyncStarts, SyncSent]);
    assert [ResetHandshake] + [ReceiveHello, SyncStarts, SyncSent] == [ResetHandshake, ReceiveHello, SyncStarts, SyncSent];
  }

  lemma ReadyWorks(s: Worker)
    requires Reading(s) && s.shake.phase.AwaitingReady?
    ensures Leads(s, [ReceiveReady(true)])
  {
    OneStep(s, ReceiveReady(true));
    hide RunFrom;
  }

  lemma ShakesLeads(s: Worker)
    requires Reading(s) && CanAwaitReady(s) && !CanOpen(s)
    ensures Leads(s, Shakes(s.shake) + [ReceiveReady(true)])
  {
    var s1 := ShakesWorks(s);
    hide RunFrom, Shakes, Leads;
    ReadyWorks(s1);
    LeadsFrom(s, Shakes(s.shake), s1, [ReceiveReady(true)]);
  }

  lemma OpensLeads(s: Worker)
    requires s.connInit && CanLeave(s)
    ensures Leads(s, Opens(s) + (Shakes(s.shake) + [ReceiveReady(true)]))
  {
    var rest := Shakes(s.shake) + [ReceiveReady(true)];
    var open := s.(runner := Connected(false), reader := true, ws := true);
    if s.runner.Opening? {
      OneStep(s, RunnerOpened);
      ShakesLeads(open);
      LeadsFrom(s, [RunnerOpened], open, rest);
    } else if s.runner == Idle(true) {
      hide RunFrom;
      Two(s, RunnerTakesEndpoint, s.(runner := Opening), RunnerOpened, open);
      ShakesLeads(open);
      LeadsFrom(s, [RunnerTakesEndpoint, RunnerOpened], open, rest);
    } else {
      ShakesLeads(s);
      assert [] + rest == rest;
    }
  }

  lemma Answers(s: Worker)
    requires CanLeave(s) && !s.connInit && s.conn.ClosedForGood?
    ensures var s1 := Step(s, StartResponds);
            s1.Some? && s1.value.connInit && CanLeave(s1.value) && s1.value.shake == s.shake && Opens(s1.value) == Opens(s)
  {
  }

  lemma WayOutWorks(s: Worker)
    requires s.conn.ClosedForGood? && CanLeave(s)
    ensures Leads(s, WayOut(s))
  {
    var rest := Opens(s) + (Shakes(s.shake) + [ReceiveReady(true)]);
    if s.connInit {
      hide Leads, Opens, Shakes, CanLeave;
      OpensLeads(s);
      assert [] + rest == rest;
    } else {
      Answers(s);
      var s1 := Step(s, StartResponds).value;
      hide Leads, Opens, Shakes, CanLeave, Step, RunFrom;
      OneStep(s, StartResponds);
      OpensLeads(s1);
      LeadsFrom(s, [StartResponds], s1, rest);
    }
  }

  lemma OneSourceCloseWs(s: Worker)
    ensures OneSource(CloseWs(s))
  {
    hide Woken;
  }

  lemma OneSourceRead(s: Worker, e: Event)
    requires OneSource(s) && FromReader(e) && StepRead(s, e).Some?
    ensures OneSource(StepRead(s, e).value)
  {
    OneSourceCloseWs(s.(reader := false));
    OneSourceCloseWs(Hears(s, false));
    hide CloseWs, Heard, OnRequest, ExecutionCloses;
  }

  lemma OneSourceStep(s: Worker, e: Event)
    requires OneSource(s) && Step(s, e).Some?
    ensures OneSource(Step(s, e).value)
  {
    hide Step, OneSource;
    if FromSender(e) {
      SenderSteps(s, e);
      OneSourceSend(s, e);
    } else if FromReader(e) {
      ReaderSteps(s, e);
      OneSourceRead(s, e);
    } else {
      OneSourceOther(s, e);
    }
  }

  lemma OneSourceOther(s: Worker, e: Event)
    requires OneSource(s) && !FromSender(e) && !FromReader(e) && Step(s, e).Some?
    ensures OneSource(Step(s, e).value)
  {
    hide Finish, AllShut, NoteCount, StepSend, StepRead, Woken, CloseHandler;
    if e.TaskEnds? { NoteCountIs(s.(work := Finish(s.work, e.task))); }
  }

  lemma OneSourceSend(s: Worker, e: Event)
    requires OneSource(s) && FromSender(e) && StepSend(s, e).Some?
    ensures OneSource(StepSend(s, e).value)
  {
    hide CloseWs;
    match e
    case SyncFails(_) => OneSourceCloseWs(s.(shake := s.shake.(sync := NoSync)));
    case SendEnds(_) => OneSourceCloseWs(s.(sends := s.sends - 1));
    case _ =>
  }

  lemma {:induction false} OneSourceAlways(es: seq<Event>)
    requires RunFrom(START, es).Some?
    ensures OneSource(RunFrom(START, es).value)
  {
    if es != [] {
      OneSourceAlways(es[..|es| - 1]);
      hide Step, OneSource;
      OneSourceStep(RunFrom(START, es[..|es| - 1]).value, es[|es| - 1]);
    }
  }

  ghost predicate StaysClosed(s: Worker) {
    forall more :: RunFrom(s, more).Some? ==> RunFrom(s, more).value.conn.ClosedForGood?
  }

  lemma FinalIsForGood(s: Worker)
    requires Final(s)
    ensures StaysClosed(s)
  {
    hide RunFrom, CanLeave, OneSource;
    forall more | RunFrom(s, more).Some? ensures RunFrom(s, more).value.conn.ClosedForGood? {
      FinalStays(s, more);
    }
  }

  lemma LeadsOut(s: Worker, way: seq<Event>)
    requires Leads(s, way)
    ensures !StaysClosed(s)
  {
    hide RunFrom;
    assert RunFrom(s, way).Some?;
  }

  /**
   * When CLOSED is final, exactly. In every run that reached it, timed out or not: no continuation leaves
   * CLOSED if and only if no more messages can be read, or the handshake can no longer get to wait for READY.
   */
  lemma {:induction false} ClosedIsFinalIff(es: seq<Event>, s: Worker)
    requires RunFrom(START, es) == Some(s) && s.conn.ClosedForGood?
    ensures StaysClosed(s) <==> !CanLeave(s)
  {
    OneSourceAlways(es);
    hide CanLeave, OneSource, RunFrom, WayOut, StaysClosed, Leads;
    if CanLeave(s) {
      WayOutWorks(s);
      LeadsOut(s, WayOut(s));
    } else {
      FinalIsForGood(s);
    }
  }

  // ----- A run that leaves CLOSED -----

  /** Up to the moment when the endpoint is known and the run loop opens the connection. */
  const OPENING := START.(connInit := true, runner := Opening)

  const TO_OPENING := [StartSends, StartResponds, RunnerTakesEndpoint]

  lemma OpeningIsReachable()
    ensures RunFrom(START, TO_OPENING) == Some(OPENING)
  {
    var sending := START.(start := Requesting);
    Chain([START, sending, START.(connInit := true, runner := Idle(true)), OPENING], TO_OPENING);
  }

  lemma Then(s: Worker, a: seq<Event>, s1: Worker, b: seq<Event>, s2: Worker)
    requires RunFrom(s, a) == Some(s1) && RunFrom(s1, b) == Some(s2)
    ensures RunFrom(s, a + b) == Some(s2)
  {
    hide RunFrom;
    RunConcat(s, a, b);
  }

  const ANSWERS_HELLO := [RunnerOpened, ReceiveHello, SyncStarts]

  const GETS_READY := [SyncSent, ReceiveReady(true)]

  /** The connection opens and the handshake completes. */
  const CONNECTS := ANSWERS_HELLO + GETS_READY

  const OPENED := OPENING.(runner := Connected(false), reader := true, ws := true)

  const ANSWERING := OPENED.(shake := Shake(H.AwaitingSyncComplete, Sending, true, false))

  const CONNECTED := OPENED.(conn := Active, shake := Shake(H.Complete, NoSync, true, false))

  const WORKING := CONNECTED.(work := Accept(IDLE, "r"))

  lemma AnswersHello()
    ensures RunFrom(OPENING, ANSWERS_HELLO) == Some(ANSWERING)
  {
    hide RunFrom;
    Three(OPENING, RunnerOpened, OPENED, ReceiveHello, OPENED.(shake := Shake(H.AwaitingSyncComplete, AwaitsWs, true, false)),
          SyncStarts, ANSWERING);
  }

  lemma Connects()
    ensures RunFrom(OPENING, CONNECTS) == Some(CONNECTED)
  {
    AnswersHello();
    hide RunFrom;
    Two(ANSWERING, SyncSent, OPENED.(shake := Shake(H.AwaitingReady, NoSync, true, false)), ReceiveReady(true), CONNECTED);
    Then(OPENING, ANSWERS_HELLO, ANSWERING, GETS_READY, CONNECTED);
  }

  /** And a request starts. */
  const WORKS := CONNECTS + [ReceiveRequest(Some("r"), true)]

  lemma Works()
    ensures RunFrom(OPENING, WORKS) == Some(WORKING)
  {
    Connects();
    OneStep(CONNECTED, ReceiveRequest(Some("r"), true));
    hide RunFrom;
    Then(OPENING, CONNECTS, CONNECTED, [ReceiveRequest(Some("r"), true)], WORKING);
  }

  const STUCK: seq<Handler> := [Draining(false), Draining(false), Draining(false), Draining(false), Draining(false)]

  const CLOSES := [MainClose, CloserStarts, CloserPaused]

  const CLOSING := WORKING.(conn := Closing, closing := true, closers := Closers(0, 0, 1), handlers := STUCK)

  lemma Closes()
    ensures RunFrom(WORKING, CLOSES) == Some(CLOSING)
  {
    var s1 := WORKING.(conn := Closing, closers := Closers(1, 0, 0));
    var s2 := s1.(closers := Closers(0, 1, 0));
    assert CloseAll(s2.(closing := true, closers := Closers(0, 0, 1))).handlers == STUCK;
    hide RunFrom;
    Three(WORKING, MainClose, s1, CloserStarts, s2, CloserPaused, CLOSING);
  }

  /** The gateway drains, and the handshake is reset. */
  const DRAINS := [ReceiveClosing, ResetHandshake]

  function Drained(s: Worker): Worker {
    s.(conn := Reconnecting, connInit := false, ws := false, runner := Connected(true),
       shake := Shake(H.AwaitingHello, Heard(s.shake, false).sync, true, false))
  }

  lemma Drains(s: Worker)
    requires Reading(s) && s.runner == Connected(false) && s.shake.watching && !s.conn.ClosedForGood?
    ensures RunFrom(s, DRAINS) == Some(Drained(s))
  {
    var s1 := CloseWs(Hears(s, false));
    hide RunFrom;
    Two(s, ReceiveClosing, s1, ResetHandshake, Drained(s));
  }

  const RESTARTS := [StartSends, StartResponds, RunnerWakes]

  const LEAVES := [ConnectionLost, RunnerLoops]

  /** The start request answers, and the run loop opens another connection. */
  const REOPENS := RESTARTS + LEAVES + [RunnerTakesEndpoint, RunnerOpened]

  lemma Restarts(s: Worker)
    requires s.conn.Reconnecting? && !s.connInit && s.runner == Connected(true) && s.start.AwaitingNone?
    ensures RunFrom(s, RESTARTS) == Some(s.(conn := Connecting, connInit := true, runner := Settling))
  {
    var s1 := s.(conn := Connecting, start := Requesting);
    var s2 := s.(conn := Connecting, connInit := true);
    hide RunFrom;
    Three(s, StartSends, s1, StartResponds, s2, RunnerWakes, s2.(runner := Settling));
  }

  lemma Leaves(s: Worker)
    requires s.conn.Connecting? && s.connInit && !s.ws && s.runner.Settling? && s.reader
    ensures RunFrom(s, LEAVES) == Some(s.(reader := false, runner := Idle(true)))
  {
    hide RunFrom;
    Two(s, ConnectionLost, s.(reader := false), RunnerLoops, s.(reader := false, runner := Idle(true)));
  }

  lemma OpensAgain(s: Worker)
    requires s.runner == Idle(true)
    ensures RunFrom(s, [RunnerTakesEndpoint, RunnerOpened]) == Some(s.(runner := Connected(false), reader := true, ws := true))
  {
    hide RunFrom;
    Two(s, RunnerTakesEndpoint, s.(runner := Opening), RunnerOpened, s.(runner := Connected(false), reader := true, ws := true));
  }

  lemma Reopens(s: Worker)
    requires s.conn.Reconnecting? && !s.connInit && !s.ws && s.runner == Connected(true) && s.reader && s.start.AwaitingNone?
    ensures RunFrom(s, REOPENS) ==
            Some(s.(conn := Connecting, connInit := true, ws := true, runner := Connected(false)))
  {
    var s1 := s.(conn := Connecting, connInit := true, runner := Settling);
    var s2 := s1.(reader := false, runner := Idle(true));
    var s3 := s.(conn := Connecting, connInit := true, ws := true, runner := Connected(false));
    Restarts(s);
    Leaves(s1);
    OpensAgain(s2);
    hide RunFrom;
    Then(s, RESTARTS, s1, LEAVES, s2);
    Then(s, RESTARTS + LEAVES, s2, [RunnerTakesEndpoint, RunnerOpened], s3);
  }

  /** The sync task sends late, and the wait for the stuck request times out. */
  const TIMES_OUT := [StartSends, SyncSent, CloserDone(true)]

  lemma TimesOut(s: Worker)
    requires !s.connInit && s.start.AwaitingNone? && s.conn.Reconnecting? && s.shake.sync.Sending?
    requires s.closers == Closers(0, 0, 1) && s.handlers == STUCK && s.reader
    ensures var r := RunFrom(s, TIMES_OUT); r.Some? && r.value.conn.ClosedForGood? && CanLeave(r.value)
  {
    var s1 := s.(conn := Connecting, start := Requesting);
    var s2 := s1.(shake := s.shake.(phase := H.AwaitingReady, sync := NoSync));
    var s3 := s2.(conn := ClosedForGood, timedOut := true, closers := Closers(0, 0, 0));
    assert !s2.handlers[0].Shut? && !AllShut(s2);
    hide RunFrom;
    Three(s, StartSends, s1, SyncSent, s2, CloserDone(true), s3);
  }

  /**
   * A connection works on a request when a close begins. Its gateway drains; the next one drains while its
   * HELLO is being answered, so the answer waits for a socket; and the one after that drains while the answer
   * is under way. The answer arrives when the next start request is under way, just before the timeout.
   */
  function TimeoutRun(): seq<Event> {
    TO_OPENING + WORKS + CLOSES + DRAINS + REOPENS + [ReceiveHello] + DRAINS + REOPENS + [SyncStarts] + DRAINS + TIMES_OUT
  }

  lemma {:induction false} TimeoutRuns()
    ensures var r := RunFrom(START, TimeoutRun()); r.Some? && r.value.conn.ClosedForGood? && CanLeave(r.value)
  {
    hide RunFrom;
    OpeningIsReachable();
    Works();
    Closes();
    Then(START, TO_OPENING, OPENING, WORKS, WORKING);
    Then(START, TO_OPENING + WORKS, WORKING, CLOSES, CLOSING);
    var s := SyncWaits(TO_OPENING + WORKS + CLOSES);
    SyncIsLate(TO_OPENING + WORKS + CLOSES + DRAINS + REOPENS + [ReceiveHello] + DRAINS, s);
  }

  /** The worker as it is while it closes, on some connection. */
  ghost predicate StillClosing(s: Worker) {
    s.start.AwaitingNone? && s.closers == Closers(0, 0, 1) && s.handlers == STUCK && s.shake.watching && s.reader
  }

  lemma SyncWaits(es: seq<Event>) returns (s: Worker)
    requires RunFrom(START, es) == Some(CLOSING)
    ensures RunFrom(START, es + DRAINS + REOPENS + [ReceiveHello] + DRAINS) == Some(s)
    ensures StillClosing(s) && s.conn.Reconnecting? && !s.connInit && !s.ws && s.runner == Connected(true)
    ensures s.shake.phase.AwaitingHello? && s.shake.sync.AwaitsWs?
  {
    hide RunFrom;
    var s1 := Drained(CLOSING);
    Drains(CLOSING);
    Reopens(s1);
    var s2 := s1.(conn := Connecting, connInit := true, ws := true, runner := Connected(false));
    var s3 := s2.(shake := Shake(H.AwaitingSyncComplete, AwaitsWs, true, false));
    OneStep(s2, ReceiveHello);
    Drains(s3);
    s := Drained(s3);
    Then(START, es, CLOSING, DRAINS, s1);
    Then(START, es + DRAINS, s1, REOPENS, s2);
    Then(START, es + DRAINS + REOPENS, s2, [ReceiveHello], s3);
    Then(START, es + DRAINS + REOPENS + [ReceiveHello], s3, DRAINS, s);
  }

  lemma SyncIsLate(es: seq<Event>, s: Worker)
    requires RunFrom(START, es) == Some(s)
    requires StillClosing(s) && s.conn.Reconnecting? && !s.connInit && !s.ws && s.runner == Connected(true)
    requires s.shake.phase.AwaitingHello? && s.shake.sync.AwaitsWs?
    ensures var r := RunFrom(START, es + REOPENS + [SyncStarts] + DRAINS + TIMES_OUT);
            r.Some? && r.value.conn.ClosedForGood? && CanLeave(r.value)
  {
    hide RunFrom;
    Reopens(s);
    var s1 := s.(conn := Connecting, connInit := true, ws := true, runner := Connected(false));
    var s2 := s1.(shake := s.shake.(sync := Sending));
    OneStep(s1, SyncStarts);
    Drains(s2);
    TimesOut(Drained(s2));
    Then(START, es, s, REOPENS, s1);
    Then(START, es + REOPENS, s1, [SyncStarts], s2);
    Then(START, es + REOPENS + [SyncStarts], s2, DRAINS, Drained(s2));
    RunConcat(START, es + REOPENS + [SyncStarts] + DRAINS, TIMES_OUT);
  }

  /**
   * With the timeout CLOSED can be left: a gateway drain restarts the connection just before the wait for a
   * stuck request times out, an answer to an earlier HELLO is still under way, and the READY for it arrives
   * after the start request has answered.
   */
  lemma {:induction false} TimeoutLeavesClosed()
    ensures exists es, more :: RunFrom(START, es).Some? && RunFrom(START, es).value.conn.ClosedForGood?
              && RunFrom(RunFrom(START, es).value, more).Some? && RunFrom(RunFrom(START, es).value, more).value.conn.Active?
  {
    TimeoutRuns();
    var s := RunFrom(START, TimeoutRun()).value;
    hide RunFrom, WayOut, CanLeave, TimeoutRun;
    WayOutWorks(s);
    assert RunFrom(s, WayOut(s)).Some?;
  }
}
