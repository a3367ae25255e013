/**
 * The Connect worker's connection state: the run loop, the start request, the message reader with the
 * handshake, the handlers' close sequences and the main thread, with the drain of pending requests. One event
 * is the code between two awaits on the worker loop, or a step of the main thread.
 */
module Shutdown {
  import opened Values
  import opened Requests
  import H = Handshakes

  datatype ConnectionState = Active | ClosedForGood | Closing | Connecting | Paused | Reconnecting

  /** `_send_start_request`: waiting for `conn_init` to be None, in its HTTP request, or over. */
  datatype StartTask = AwaitingNone | Requesting | Over

  /** A handler and its close sequence; `sawZero` says that the count was zero since `close`. */
  datatype Handler = Open | Draining(sawZero: bool) | Cleaning | Shut

  /**
   * The run loop: waiting for an endpoint (`seen` once it is there), connecting, connected and waiting for
   * `conn_init` to change (`changed` once it did), settling before the next round, waiting for the handlers
   * at the end, or over.
   */
  datatype Runner = Idle(seen: bool) | Opening | Connected(changed: bool) | Settling | Finishing | Ended

  /** How many `_close` tasks are scheduled, sending WORKER_PAUSE, and waiting for the handlers. */
  datatype Closers = Closers(scheduled: nat, pausing: nat, waiting: nat)

  /** The sync task of the handshake: none alive, waiting for `ws`, or with its WORKER_CONNECT under way. */
  datatype Sync = NoSync | AwaitsWs | Sending

  /**
   * The handshake handler. While its reconnect watcher is `watching`, a change of `conn_init` to None makes a
   * reset due.
   */
  datatype Shake = Shake(phase: H.Phase, sync: Sync, watching: bool, resetDue: bool)

  /** `sends` counts the sends under way, apart from the sync task's, that have taken a socket from `ws`. */
  datatype Worker = Worker(
    conn: ConnectionState,
    connInit: bool,
    ws: bool,
    start: StartTask,
    handlers: seq<Handler>,
    runner: Runner,
    reader: bool,
    closing: bool,
    closers: Closers,
    fatal: bool,
    work: Work,
    timedOut: bool,
    shake: Shake,
    sends: nat)

  /** The handlers in order: connection start, heartbeat, handshake, execution, drain. */
  const HANDLERS := 5
  const CONN_INIT := 0
  const HANDSHAKE := 2
  const EXECUTION := 3

  const START :=
    Worker(Connecting, false, false, AwaitingNone, [Open, Open, Open, Open, Open], Idle(false), false, false,
           Closers(0, 0, 0), false, IDLE, false, Shake(H.AwaitingHello, NoSync, true, false), 0)

  datatype Event =
    | MainClose
    | CloserStarts
    | CloserPaused
    | CloserDone(timeout: bool)
    | HandlerDrained(h: nat)
    | StartCancelled
    | WatcherCancelled
    | HandlerCleaned(h: nat)
    | StartSends
    | StartResponds
    | StartFails(gaveUp: bool)
    | RunnerTakesEndpoint
    | RunnerOpened
    | RunnerRefused
    | RunnerWakes
    | RunnerLoops
    | RunnerQuits
    | RunnerDone(timeout: bool)
    | ReceiveRequest(request: Option<string>, known: bool)
    | ReceiveHello
    | ReceiveReady(valid: bool)
    | ReceiveClosing
    | ReceiveOther
    | ReaderStops
    | ConnectionLost
    | SyncStarts
    | SyncSent
    | SyncFails(lost: bool)
    | ResetHandshake
    | SendStarts
    | SendEnds(lost: bool)
    | TaskEnds(task: TaskId)

  // ----- Writers of the shared state -----

  /** Writing `conn_init` wakes the run loop when the value changes, and the handshake's watcher when it goes. */
  function SetInit(s: Worker, present: bool): Worker {
    if s.connInit == present then s
    else
      s.(connInit := present, runner := Woken(s.runner, present && !s.conn.ClosedForGood?),
         shake := if present then s.shake else s.shake.(resetDue := s.shake.watching))
  }

  /** The run loop after a change of `conn_init`; `endpoint` says that there is one to connect to. */
  function Woken(runner: Runner, endpoint: bool): Runner {
    match runner
    case Connected(_) => Connected(true)
    case Idle(seen) => Idle(seen || endpoint)
    case _ => runner
  }

  predicate AllowReconnect(s: Worker) {
    !s.conn.ClosedForGood?
  }

  /** `State.close_ws`. */
  function CloseWs(s: Worker): Worker {
    var s1 := if AllowReconnect(s) then s.(conn := Reconnecting) else s;
    SetInit(s1, false).(ws := false)
  }

  function CloseHandler(h: Handler, count: int): Handler {
    if h.Open? then Draining(count == 0) else h
  }

  /** `close` on every handler, in one go. */
  function CloseAll(s: Worker): Worker {
    s.(handlers := seq(|s.handlers|, i requires 0 <= i < |s.handlers| => CloseHandler(s.handlers[i], s.work.pending.count)))
  }

  /** The count reached a new value: a close sequence that waits for zero notices it. */
  function NoteCount(s: Worker): Worker {
    if s.work.pending.count != 0 then s
    else
      s.(handlers := seq(|s.handlers|, i requires 0 <= i < |s.handlers| =>
                           if s.handlers[i].Draining? then Draining(true) else s.handlers[i]))
  }

  predicate AllShut(s: Worker) {
    forall i :: 0 <= i < |s.handlers| ==> s.handlers[i].Shut?
  }

  predicate ExecutionCloses(s: Worker) {
    EXECUTION < |s.handlers| && !s.handlers[EXECUTION].Open?
  }

  predicate Reading(s: Worker) {
    s.reader && s.connInit
  }

  /**
   * What the handshake makes of a message other than the READY that it waits for: a HELLO starts the sync if
   * one is awaited, and while a sync is awaited any message starts it anew.
   */
  function Heard(k: Shake, hello: bool): Shake {
    match k.phase
    case AwaitingHello => if hello then k.(phase := H.AwaitingSyncComplete, sync := AwaitsWs) else k
    case AwaitingSyncComplete => k.(sync := AwaitsWs)
    case _ => k
  }

  function Hears(s: Worker, hello: bool): Worker {
    s.(shake := Heard(s.shake, hello))
  }

  predicate FromReader(e: Event) {
    || e.ReceiveRequest? || e.ReceiveHello? || e.ReceiveReady? || e.ReceiveClosing? || e.ReceiveOther?
    || e.ReaderStops? || e.ConnectionLost?
  }

  predicate FromSender(e: Event) {
    e.SyncStarts? || e.SyncSent? || e.SyncFails? || e.ResetHandshake? || e.SendStarts? || e.SendEnds?
  }

  /** The events of the reader: a message goes to all handlers, the handshake before the execution and drain handlers. */
  function StepRead(s: Worker, e: Event): Option<Worker>
    requires FromReader(e)
  {
    match e
    case ReceiveRequest(request, known) =>
      if !Reading(s) then None
      else Some(Hears(s, false).(work := OnRequest(s.work, ExecutionCloses(s), request, known)))
    case ReceiveHello =>
      if !Reading(s) then None else Some(Hears(s, true))
    case ReceiveReady(valid) =>
      if !Reading(s) then None
      else if s.shake.phase.AwaitingReady? && valid then Some(s.(conn := Active, shake := s.shake.(phase := H.Complete)))
      else Some(Hears(s, false))
    case ReceiveClosing =>
      if !Reading(s) then None else Some(CloseWs(Hears(s, false)))
    case ReceiveOther =>
      if !Reading(s) then None else Some(Hears(s, false))
    case ReaderStops =>
      if !s.reader || s.connInit then None else Some(s.(reader := false))
    case ConnectionLost =>
      if !s.reader then None
      else
        var s1 := s.(reader := false);
        Some(if s.ws then CloseWs(s1) else s1)
  }

  /** The events of the handshake's own tasks, and of other sends. */
  function StepSend(s: Worker, e: Event): Option<Worker>
    requires FromSender(e)
  {
    match e
    case SyncStarts =>
      if !s.shake.sync.AwaitsWs? || !s.ws then None else Some(s.(shake := s.shake.(sync := Sending)))
    case SyncSent =>
      if !s.shake.sync.Sending? then None else Some(s.(shake := s.shake.(phase := H.AwaitingReady, sync := NoSync)))
    case SyncFails(lost) =>
      if s.shake.sync.NoSync? || (lost && !s.shake.sync.Sending?) then None
      else
        var s1 := s.(shake := s.shake.(sync := NoSync));
        Some(if lost then CloseWs(s1) else s1)
    case ResetHandshake =>
      if !s.shake.resetDue then None
      else Some(s.(shake := s.shake.(phase := H.AwaitingHello, resetDue := false)))
    case SendStarts => if !s.ws then None else Some(s.(sends := s.sends + 1))
    case SendEnds(lost) =>
      if s.sends == 0 then None
      else
        var s1 := s.(sends := s.sends - 1);
        Some(if lost then CloseWs(s1) else s1)
  }

  /** `None` when the event cannot happen in this state. */
  function Step(s: Worker, e: Event): Option<Worker> {
    match e
    case MainClose =>
      if s.conn.Closing? || s.conn.ClosedForGood? then Some(s)
      else Some(s.(conn := Closing, closers := s.closers.(scheduled := s.closers.scheduled + 1)))
    case CloserStarts =>
      if s.closers.scheduled == 0 then None
      else Some(s.(closers := s.closers.(scheduled := s.closers.scheduled - 1, pausing := s.closers.pausing + 1)))
    case CloserPaused =>
      if s.closers.pausing == 0 then None
      else
        Some(CloseAll(s.(closing := true,
                         closers := s.closers.(pausing := s.closers.pausing - 1, waiting := s.closers.waiting + 1))))
    case CloserDone(timeout) =>
      if s.closers.waiting == 0 || !(AllShut(s) || timeout) then None
      else
        Some(SetInit(s.(conn := ClosedForGood, timedOut := s.timedOut || !AllShut(s),
                        closers := s.closers.(waiting := s.closers.waiting - 1)), false))
    case HandlerDrained(h) =>
      if h >= |s.handlers| || s.handlers[h] != Draining(true) then None
      else
        Some(s.(handlers := s.handlers[h := Cleaning],
                shake := if h == HANDSHAKE then s.shake.(sync := NoSync) else s.shake))
    case StartCancelled =>
      if |s.handlers| <= CONN_INIT || !s.handlers[CONN_INIT].Cleaning? then None else Some(s.(start := Over))
    case WatcherCancelled =>
      if |s.handlers| <= HANDSHAKE || !s.handlers[HANDSHAKE].Cleaning? then None
      else Some(s.(shake := s.shake.(watching := false, resetDue := false)))
    case HandlerCleaned(h) =>
      if h >= |s.handlers| || !s.handlers[h].Cleaning? then None
      else if (h == CONN_INIT && !s.start.Over?) || (h == HANDSHAKE && s.shake.watching) then None
      else Some(s.(handlers := s.handlers[h := Shut]))
    case StartSends =>
      if !s.start.AwaitingNone? || s.connInit then None
      else if s.conn.ClosedForGood? then Some(s.(start := Over))
      else Some(s.(start := Requesting, conn := Connecting))
    case StartResponds =>
      if !s.start.Requesting? then None else Some(SetInit(s.(start := AwaitingNone), true))
    case StartFails(gaveUp) =>
      if !s.start.Requesting? then None
      else Some(s.(start := if gaveUp then Over else AwaitingNone, fatal := s.fatal || gaveUp))
    case RunnerTakesEndpoint =>
      if s.runner != Idle(true) then None else Some(s.(runner := Opening))
    case RunnerOpened =>
      if !s.runner.Opening? then None else Some(s.(runner := Connected(false), reader := true, ws := true))
    case RunnerRefused =>
      if !s.runner.Opening? then None else Some(CloseWs(s).(runner := Settling))
    case RunnerWakes =>
      if s.runner != Connected(true) then None else Some(s.(runner := Settling))
    case RunnerLoops =>
      if !s.runner.Settling? || s.reader then None
      else if AllowReconnect(s) then Some(s.(runner := Idle(s.connInit)))
      else Some((if s.closing then s else CloseAll(s)).(runner := Finishing))
    case RunnerQuits =>
      if !s.runner.Idle? || !(s.conn.ClosedForGood? || s.fatal) then None
      else Some((if s.closing then s else CloseAll(s)).(runner := Finishing))
    case RunnerDone(timeout) =>
      if !s.runner.Finishing? || !(AllShut(s) || timeout) then None
      else Some(CloseWs(s.(conn := ClosedForGood, timedOut := s.timedOut || !AllShut(s))).(runner := Ended))
    case TaskEnds(task) =>
      if task !in s.work.running then None else Some(NoteCount(s.(work := Finish(s.work, task))))
    case _ =>
      if FromReader(e) then StepRead(s, e)
      else if FromSender(e) then StepSend(s, e)
      else None
  }

  function RunFrom(s: Worker, es: seq<Event>): Option<Worker> {
    if es == [] then Some(s)
    else
      var before := RunFrom(s, es[..|es| - 1]);
      if before.None? then None else Step(before.value, es[|es| - 1])
  }

  // ----- Draining -----

  /** A close sequence that got past its wait has seen the count at zero, and it has stayed there. */
  ghost predicate PastWait(s: Worker) {
    forall i :: 0 <= i < |s.handlers| && !s.handlers[i].Open? && s.handlers[i] != Draining(false) ==> s.work.pending.count == 0
  }

  /** The handlers are closed together. */
  ghost predicate ClosedTogether(s: Worker) {
    |s.handlers| == HANDLERS && forall i :: 0 <= i < |s.handlers| ==> (s.handlers[i].Open? <==> s.handlers[EXECUTION].Open?)
  }

  ghost predicate Inv(s: Worker) {
    && Accounted(s.work)
    && ClosedTogether(s) && PastWait(s)
    && (s.handlers[CONN_INIT].Shut? ==> s.start.Over?)
    && (s.conn.ClosedForGood? && !s.timedOut ==> AllShut(s) && !s.connInit)
  }

  lemma CloseAllKeeps(s: Worker)
    requires Inv(s)
    ensures Inv(CloseAll(s)) && ExecutionCloses(CloseAll(s))
    ensures AllShut(s) ==> CloseAll(s) == s
  {
    hide Accounted;
    var s1 := CloseAll(s);
    forall i | 0 <= i < |s.handlers| ensures s1.handlers[i] == CloseHandler(s.handlers[i], s.work.pending.count) {}
    if AllShut(s) { assert s1.handlers == s.handlers; }
  }

  /** What `NoteCount` does to one handler. */
  function Notice(h: Handler, count: int): Handler {
    if count == 0 && h.Draining? then Draining(true) else h
  }

  lemma NoteCountIs(s: Worker)
    ensures var s1 := NoteCount(s);
            && s1 == s.(handlers := s1.handlers)
            && |s1.handlers| == |s.handlers|
            && forall i :: 0 <= i < |s.handlers| ==> s1.handlers[i] == Notice(s.handlers[i], s.work.pending.count)
  {
  }

  lemma NoticeKeeps(s: Worker, s1: Worker)
    requires Inv(s) && Accounted(s1.work) && s1.work.pending.count <= s.work.pending.count && s.work.pending.count > 0
    requires s1 == s.(work := s1.work, handlers := s1.handlers) && |s1.handlers| == |s.handlers|
    requires forall i :: 0 <= i < |s.handlers| ==> s1.handlers[i] == Notice(s.handlers[i], s1.work.pending.count)
    ensures Inv(s1)
  {
    hide Accounted;
    forall i | 0 <= i < |s.handlers| ensures s.handlers[i].Open? || s.handlers[i] == Draining(false) {}
    assert !AllShut(s) by { assert !s.handlers[0].Shut?; }
  }

  /** A task may end in any state; the count may reach zero and wake the close sequences. */
  lemma TaskEndKeeps(s: Worker, task: TaskId)
    requires Inv(s) && task in s.work.running
    ensures Inv(NoteCount(s.(work := Finish(s.work, task))))
  {
    FinishAccounted(s.work, task);
    FinishLowers(s.work, task);
    hide Accounted, Finish, NoteCount, Inv;
    var s1 := s.(work := Finish(s.work, task));
    NoteCountIs(s1);
    assert s.work.pending.count > 0 && Accounted(s1.work);
    NoticeKeeps(s, NoteCount(s1));
  }

  lemma FinishLowers(w: Work, task: TaskId)
    requires Accounted(w) && task in w.running
    ensures Finish(w, task).pending.count <= w.pending.count && Finish(w, task).overwrites == w.overwrites
    ensures w.pending.count > 0
  {
    assert w.running.Keys != {};
    assert |w.running| > 0;
  }

  lemma RequestKeeps(s: Worker, request: Option<string>, known: bool)
    requires Inv(s)
    ensures Inv(Hears(s, false).(work := OnRequest(s.work, ExecutionCloses(s), request, known)))
  {
    InvLength(s);
    if request.Some? { AcceptAccounted(s.work, request.value); }
    hide Accounted, Accept, Heard, Inv;
    if ExecutionCloses(s) {
      SameButShake(s, Hears(s, false));
    } else {
      AcceptKeeps(s, Hears(s, false).(work := OnRequest(s.work, false, request, known)));
    }
  }

  lemma AcceptKeeps(s: Worker, s1: Worker)
    requires Inv(s) && !ExecutionCloses(s) && Accounted(s1.work) && s1 == s.(work := s1.work, shake := s1.shake)
    ensures Inv(s1)
  {
    hide Accounted;
    assert forall i :: 0 <= i < |s.handlers| ==> s.handlers[i].Open?;
    assert !AllShut(s) by { assert !s.handlers[0].Shut?; }
  }

  lemma SameButShake(s: Worker, s1: Worker)
    requires Inv(s) && s1 == s.(shake := s1.shake)
    ensures Inv(s1)
  {
    hide Accounted;
  }

  /** Every event but these only concerns the connection. */
  predicate Special(e: Event) {
    e.ReceiveRequest? || e.TaskEnds? || e.CloserPaused? || e.HandlerDrained? || e.HandlerCleaned? || e.RunnerLoops? || e.RunnerQuits?
  }

  /** What such an event may change, as far as the invariant is concerned. */
  ghost predicate Modest(s: Worker, s1: Worker) {
    && s1.handlers == s.handlers && s1.work == s.work && (s.start.Over? ==> s1.start.Over?)
    && (s1.conn.ClosedForGood? && !s1.timedOut ==> AllShut(s) && !s1.connInit)
  }

  ghost predicate Sound(s: Worker) {
    && (s.conn.ClosedForGood? && !s.timedOut ==> AllShut(s) && !s.connInit)
    && (AllShut(s) ==> s.start.Over?)
  }

  lemma ModestKeeps(s: Worker, s1: Worker)
    requires Inv(s) && Modest(s, s1)
    ensures Inv(s1)
  {
    hide Accounted;
  }

  lemma InvSound(s: Worker)
    requires Inv(s)
    ensures Sound(s)
  {
    hide Accounted;
  }

  lemma CloserStep(s: Worker, e: Event)
    requires Sound(s) && (e.MainClose? || e.CloserStarts? || e.CloserDone?) && Step(s, e).Some?
    ensures Modest(s, Step(s, e).value)
  {
    hide AllShut;
  }

  lemma StartStep(s: Worker, e: Event)
    requires Sound(s) && (e.StartCancelled? || e.WatcherCancelled? || e.StartSends? || e.StartResponds? || e.StartFails?)
    requires Step(s, e).Some?
    ensures Modest(s, Step(s, e).value)
  {
    hide AllShut;
  }

  lemma RunnerStep(s: Worker, e: Event)
    requires Sound(s) && (e.RunnerTakesEndpoint? || e.RunnerOpened? || e.RunnerRefused? || e.RunnerWakes? || e.RunnerDone?)
    requires Step(s, e).Some?
    ensures Modest(s, Step(s, e).value)
  {
    CloseWsFacts(s);
    CloseWsFacts(s.(conn := ClosedForGood, timedOut := s.timedOut || !AllShut(s)));
    hide AllShut, CloseWs;
  }

  lemma ReaderStep(s: Worker, e: Event)
    requires Sound(s) && FromReader(e) && !e.ReceiveRequest? && StepRead(s, e).Some?
    ensures Modest(s, StepRead(s, e).value)
  {
    CloseWsFacts(Hears(s, false));
    CloseWsFacts(s.(reader := false));
    hide AllShut, CloseWs, Heard;
  }

  lemma ReaderSteps(s: Worker, e: Event)
    requires FromReader(e)
    ensures Step(s, e) == StepRead(s, e)
  {
    hide StepRead, StepSend;
  }

  lemma SenderStep(s: Worker, e: Event)
    requires Sound(s) && FromSender(e) && StepSend(s, e).Some?
    ensures Modest(s, StepSend(s, e).value)
  {
    hide AllShut, CloseWs;
    match e
    case SyncFails(_) => CloseWsFacts(s.(shake := s.shake.(sync := NoSync)));
    case SendEnds(_) => CloseWsFacts(s.(sends := s.sends - 1));
    case _ =>
  }

  lemma SenderSteps(s: Worker, e: Event)
    requires FromSender(e)
    ensures Step(s, e) == StepSend(s, e)
  {
    hide StepRead, StepSend;
  }

  lemma OtherStep(s: Worker, e: Event)
    requires !Special(e) && Sound(s) && Step(s, e).Some?
    ensures Modest(s, Step(s, e).value)
  {
    hide Step, Modest, Sound;
    match e
    case MainClose => CloserStep(s, e);
    case CloserStarts => CloserStep(s, e);
    case CloserDone(_) => CloserStep(s, e);
    case StartCancelled => StartStep(s, e);
    case WatcherCancelled => StartStep(s, e);
    case StartSends => StartStep(s, e);
    case StartResponds => StartStep(s, e);
    case StartFails(_) => StartStep(s, e);
    case RunnerTakesEndpoint => RunnerStep(s, e);
    case RunnerOpened => RunnerStep(s, e);
    case RunnerRefused => RunnerStep(s, e);
    case RunnerWakes => RunnerStep(s, e);
    case RunnerDone(_) => RunnerStep(s, e);
    case _ =>
      if FromReader(e) {
        ReaderSteps(s, e);
        ReaderStep(s, e);
      } else {
        SenderSteps(s, e);
        SenderStep(s, e);
      }
  }

  lemma CloseWsFacts(s: Worker)
    ensures var s1 := CloseWs(s);
            && s1.handlers == s.handlers && s1.work == s.work && s1.start == s.start && s1.timedOut == s.timedOut
            && s1.closing == s.closing && s1.closers == s.closers && s1.reader == s.reader
            && !s1.connInit && (s1.conn.ClosedForGood? <==> s.conn.ClosedForGood?)
  {
    hide Woken;
  }

  lemma AllShutOne(s: Worker)
    requires |s.handlers| == HANDLERS
    ensures AllShut(s) ==> s.handlers[CONN_INIT].Shut?
  {
  }

  lemma HandlerStep(s: Worker, e: Event)
    requires Inv(s) && (e.HandlerDrained? || e.HandlerCleaned?) && Step(s, e).Some?
    ensures Inv(Step(s, e).value)
  {
    hide Accounted;
    var s1 := Step(s, e).value;
    assert forall i :: 0 <= i < |s.handlers| && i != e.h ==> s1.handlers[i] == s.handlers[i];
    assert !AllShut(s);
  }

  lemma ClosingStep(s: Worker, e: Event)
    requires Inv(s) && (e.CloserPaused? || e.RunnerLoops? || e.RunnerQuits?) && Step(s, e).Some?
    ensures Inv(Step(s, e).value)
  {
    hide Inv, CloseAll;
    if e.CloserPaused? {
      var s1 := s.(closing := true, closers := s.closers.(pausing := s.closers.pausing - 1, waiting := s.closers.waiting + 1));
      SameConnection(s, s1);
      CloseAllKeeps(s1);
    } else {
      CloseAllKeeps(s);
      SameConnection(s, s.(runner := Idle(s.connInit)));
      SameConnection(s, s.(runner := Finishing));
      SameConnection(CloseAll(s), CloseAll(s).(runner := Finishing));
    }
  }

  lemma SameConnection(s: Worker, s1: Worker)
    requires Inv(s) && s1 == s.(runner := s1.runner, closing := s1.closing, closers := s1.closers)
    ensures Inv(s1)
  {
    hide Accounted;
  }

  lemma StepKeeps(s: Worker, e: Event)
    requires Inv(s) && Step(s, e).Some?
    ensures Inv(Step(s, e).value)
  {
    hide Inv;
    if !Special(e) {
      hide Step, Modest, Sound;
      InvSound(s);
      OtherStep(s, e);
      ModestKeeps(s, Step(s, e).value);
    } else {
      match e
      case ReceiveRequest(request, known) => RequestKeeps(s, request, known);
      case TaskEnds(task) => TaskEndKeeps(s, task);
      case HandlerDrained(_) => HandlerStep(s, e);
      case HandlerCleaned(_) => HandlerStep(s, e);
      case _ => ClosingStep(s, e);
    }
  }

  lemma {:induction false} ReachableInv(s: Worker, es: seq<Event>)
    requires Inv(s) && RunFrom(s, es).Some?
    ensures Inv(RunFrom(s, es).value)
  {
    if es != [] {
      ReachableInv(s, es[..|es| - 1]);
      hide Inv, Step;
      StepKeeps(RunFrom(s, es[..|es| - 1]).value, es[|es| - 1]);
    }
  }

  lemma StartInv()
    ensures Inv(START)
  {
    assert |IDLE.running| == 0;
  }

  lemma NoneRunning(w: Work)
    requires Accounted(w) && w.pending.count == 0
    ensures w.running == map[] && w.overwrites == 0
  {
    assert |w.running| == 0;
  }

  /**
   * Graceful shutdown drains. In every run: no close sequence gets past its wait while a request runs; and
   * CLOSED is reached with a request running only if the two-hour wait timed out.
   */
  lemma {:induction false} GracefulShutdown(es: seq<Event>)
    requires RunFrom(START, es).Some?
    ensures var s := RunFrom(START, es).value;
            && (forall h :: 0 <= h < |s.handlers| && (s.handlers[h].Cleaning? || s.handlers[h].Shut?) ==> s.work.running == map[])
            && (s.conn.ClosedForGood? && !s.timedOut ==> s.work.running == map[])
  {
    StartInv();
    ReachableInv(START, es);
    hide RunFrom, Accounted;
    var s := RunFrom(START, es).value;
    if s.work.pending.count == 0 { NoneRunning(s.work); }
    AllShutOne(s);
  }

  /** If a live request ID was ever used again, no close sequence gets past its wait, so only the timeout ends the shutdown. */
  lemma {:induction false} ReuseBlocksShutdown(es: seq<Event>)
    requires RunFrom(START, es).Some? && RunFrom(START, es).value.work.overwrites > 0
    ensures var s := RunFrom(START, es).value;
            && (forall h :: 0 <= h < |s.handlers| ==> s.handlers[h].Open? || s.handlers[h] == Draining(false))
            && (s.conn.ClosedForGood? ==> s.timedOut)
  {
    StartInv();
    ReachableInv(START, es);
    hide RunFrom, Accounted;
    var s := RunFrom(START, es).value;
    if s.work.pending.count == 0 { NoneRunning(s.work); }
    AllShutOne(s);
  }

  ghost predicate ClosedFrom(s: Worker, s1: Worker) {
    ExecutionCloses(s1) && s1.work.pending.count <= s.work.pending.count && s1.work.created == s.work.created
  }

  lemma WorkStep(s: Worker, e: Event)
    requires Inv(s) && ExecutionCloses(s) && Step(s, e).Some?
    ensures ClosedFrom(s, Step(s, e).value)
  {
    hide Inv, Modest, Sound;
    if !Special(e) {
      InvSound(s);
      assert |s.handlers| == HANDLERS by { InvLength(s); }
      OtherStep(s, e);
      hide Step;
      ModestWork(s, Step(s, e).value);
    } else {
      hide Accounted;
      SpecialWork(s, e);
    }
  }

  lemma ModestWork(s: Worker, s1: Worker)
    requires Modest(s, s1) && ExecutionCloses(s)
    ensures ClosedFrom(s, s1)
  {
  }

  lemma InvLength(s: Worker)
    requires Inv(s)
    ensures |s.handlers| == HANDLERS && Accounted(s.work)
  {
    hide Accounted;
  }

  lemma SpecialWork(s: Worker, e: Event)
    requires Inv(s) && ExecutionCloses(s) && Special(e) && Step(s, e).Some?
    ensures ClosedFrom(s, Step(s, e).value)
  {
    match e
    case TaskEnds(task) =>
      FinishLowers(s.work, task);
      NoteCountIs(s.(work := Finish(s.work, task)));
    case ReceiveRequest(_, _) =>
    case HandlerDrained(_) =>
    case HandlerCleaned(_) =>
    case CloserPaused => hide Accounted;
    case RunnerLoops => hide Accounted;
    case RunnerQuits => hide Accounted;
  }

  /** Once the execution handler is closing no request is accepted any more, and the count never rises. */
  lemma {:induction false} CountNeverRises(s: Worker, es: seq<Event>)
    requires Inv(s) && ExecutionCloses(s) && RunFrom(s, es).Some?
    ensures ClosedFrom(s, RunFrom(s, es).value)
  {
    if es != [] {
      var front := es[..|es| - 1];
      CountNeverRises(s, front);
      ReachableInv(s, front);
      hide Inv, Step;
      WorkStep(RunFrom(s, front).value, es[|es| - 1]);
    }
  }

  // ----- Runs -----

  lemma RunSnoc(s: Worker, es: seq<Event>, e: Event)
    ensures RunFrom(s, es + [e]) == if RunFrom(s, es).None? then None else Step(RunFrom(s, es).value, e)
  {
    assert (es + [e])[..|es|] == es;
  }

  lemma {:induction false} RunConcat(s: Worker, a: seq<Event>, b: seq<Event>)
    requires RunFrom(s, a).Some?
    ensures RunFrom(s, a + b) == RunFrom(RunFrom(s, a).value, b)
  {
    hide Step;
    if b == [] {
      assert a + b == a;
    } else {
      var front, last := b[..|b| - 1], b[|b| - 1];
      assert a + b == (a + front) + [last] && b == front + [last];
      RunConcat(s, a, front);
      RunSnoc(s, a + front, last);
    }
  }

  /** A run through known states. */
  lemma {:induction false} Chain(states: seq<Worker>, es: seq<Event>)
    requires |states| == |es| + 1
    requires forall i :: 0 <= i < |es| ==> Step(states[i], es[i]) == Some(states[i + 1])
    ensures RunFrom(states[0], es) == Some(states[|es|])
  {
    hide Step;
    if es != [] {
      Chain(states[..|es|], es[..|es| - 1]);
      assert states[..|es|][|es| - 1] == states[|es| - 1];
    }
  }

  lemma OneStep(s: Worker, e: Event)
    ensures RunFrom(s, [e]) == Step(s, e)
  {
    hide Step;
    assert [e][..0] == [];
  }

  lemma Two(s0: Worker, e0: Event, s1: Worker, e1: Event, s2: Worker)
    requires Step(s0, e0) == Some(s1) && Step(s1, e1) == Some(s2)
    ensures RunFrom(s0, [e0, e1]) == Some(s2)
  {
    hide Step;
    Chain([s0, s1, s2], [e0, e1]);
  }

  lemma Three(s0: Worker, e0: Event, s1: Worker, e1: Event, s2: Worker, e2: Event, s3: Worker)
    requires Step(s0, e0) == Some(s1) && Step(s1, e1) == Some(s2) && Step(s2, e2) == Some(s3)
    ensures RunFrom(s0, [e0, e1, e2]) == Some(s3)
  {
    hide Step;
    Chain([s0, s1, s2, s3], [e0, e1, e2]);
  }
}
