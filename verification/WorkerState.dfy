/** The code sections that write the Connect worker's state, as methods on the object that holds it. */
module WorkerState {
  import opened Values
  import opened Requests
  import opened Shutdown
  import H = Handshakes

  /** A message as the reader passes it to all handlers. */
  datatype Message =
    | ExecutorRequest(request: Option<string>, known: bool)
    | GatewayHello
    | ConnectionReady(valid: bool)
    | GatewayClosing
    | OtherMessage

  function EventOf(msg: Message): Event {
    match msg
    case ExecutorRequest(request, known) => ReceiveRequest(request, known)
    case GatewayHello => ReceiveHello
    case ConnectionReady(valid) => ReceiveReady(valid)
    case GatewayClosing => ReceiveClosing
    case OtherMessage => ReceiveOther
  }

  /** What the handshake handler makes of a message: the READY that it waits for makes the worker ACTIVE. */
  function Shaken(s: Worker, msg: Message): Worker {
    if msg.ConnectionReady? && msg.valid && s.shake.phase.AwaitingReady? then
      s.(conn := Active, shake := s.shake.(phase := H.Complete))
    else Hears(s, msg.GatewayHello?)
  }

  lemma MessageStep(s: Worker, msg: Message)
    requires Reading(s)
    ensures StepRead(s, EventOf(msg)) ==
            Some(var s1 := Shaken(s, msg);
                 match msg
                 case ExecutorRequest(request, known) => s1.(work := OnRequest(s.work, ExecutionCloses(s), request, known))
                 case GatewayClosing => CloseWs(s1)
                 case _ => s1)
  {
    hide CloseWs, OnRequest, ExecutionCloses, Heard;
  }

  class IsolatedWorker {
    var connState: ConnectionState
    var connInit: bool
    var ws: bool
    var start: StartTask
    var handlers: seq<Handler>
    var runner: Runner
    var reader: bool
    var closing: bool
    var closers: Closers
    var fatal: bool
    var work: Work
    var timedOut: bool
    var shake: Shake
    var sends: nat

    ghost function State(): Worker
      reads this
    {
      Worker(connState, connInit, ws, start, handlers, runner, reader, closing, closers, fatal, work, timedOut,
             shake, sends)
    }

    constructor ()
      ensures State() == START
    {
      connState, connInit, ws := Connecting, false, false;
      start, runner, reader := AwaitingNone, Idle(false), false;
      handlers := [Open, Open, Open, Open, Open];
      closing, closers, fatal := false, Closers(0, 0, 0), false;
      work, timedOut := IDLE, false;
      shake, sends := Shake(H.AwaitingHello, NoSync, true, false), 0;
    }

    /** The `conn_init` setter, with the wake-up of whoever waits for a change. */
    method SetConnInit(present: bool)
      modifies `connInit, `runner, `shake
      ensures State() == SetInit(old(State()), present)
      ensures connInit == present
      ensures old(connInit) == present ==> runner == old(runner)
      ensures old(connInit) != present ==>
                runner == match old(runner)
                          case Connected(_) => Connected(true)
                          case Idle(seen) => Idle(seen || (present && !connState.ClosedForGood?))
                          case other => other
      ensures shake == if old(connInit) && !present then old(shake).(resetDue := old(shake).watching) else old(shake)
    {
      if connInit == present {
        return;
      }
      connInit := present;
      if runner.Connected? {
        runner := Connected(true);
      } else if runner.Idle? && present && connState != ClosedForGood {
        runner := Idle(true);
      }
      if !present {
        shake := shake.(resetDue := shake.watching);
      }
    }

    /** `State.close_ws`. */
    method CloseSocket()
      modifies `connState, `connInit, `ws, `runner, `shake
      ensures State() == CloseWs(old(State()))
      ensures !connInit && !ws && connState == if old(connState).ClosedForGood? then ClosedForGood else Reconnecting
      ensures runner == if old(runner).Connected? && old(connInit) then Connected(true) else old(runner)
      ensures shake == if old(connInit) then old(shake).(resetDue := old(shake).watching) else old(shake)
    {
      if connState != ClosedForGood {
        connState := Reconnecting;
      }
      SetConnInit(false);
      ws := false;
    }

    /** `WorkerConnectionImpl._close`, on the main thread: the compare-and-set decides who schedules. */
    method Close()
      modifies `connState, `closers
      ensures Step(old(State()), MainClose) == Some(State())
      ensures connState.Closing? || connState.ClosedForGood?
      ensures old(connState).ClosedForGood? ==> connState.ClosedForGood?
      ensures if old(connState).Closing? || old(connState).ClosedForGood? then connState == old(connState) && closers == old(closers)
              else connState.Closing? && closers == old(closers).(scheduled := old(closers).scheduled + 1)
    {
      var didSet := connState != Closing && connState != ClosedForGood;
      if !didSet {
        return;
      }
      connState := Closing;
      closers := closers.(scheduled := closers.scheduled + 1);
    }

    /** `h.close()` for every handler; closing twice does nothing. */
    method CloseHandlers()
      modifies `handlers
      ensures State() == CloseAll(old(State()))
      ensures |handlers| == |old(handlers)|
      ensures forall h :: 0 <= h < |handlers| ==> !handlers[h].Open? && (!old(handlers)[h].Open? ==> handlers[h] == old(handlers)[h])
      ensures forall h :: 0 <= h < |handlers| && old(handlers)[h].Open? ==> handlers[h] == Draining(work.pending.count == 0)
    {
      var i := 0;
      while i < |handlers|
        invariant i <= |handlers| == |old(handlers)|
        invariant forall j :: 0 <= j < i ==> handlers[j] == CloseHandler(old(handlers)[j], work.pending.count)
        invariant forall j :: i <= j < |handlers| ==> handlers[j] == old(handlers)[j]
      {
        if handlers[i].Open? {
          handlers := handlers[i := Draining(work.pending.count == 0)];
        }
        i := i + 1;
      }
      assert handlers == CloseAll(old(State())).handlers;
    }

    /** `_close` after WORKER_PAUSE was sent. */
    method BeginClose()
      requires closers.pausing > 0
      modifies `closing, `closers, `handlers
      ensures Step(old(State()), CloserPaused) == Some(State())
      ensures closing && closers == old(closers).(pausing := old(closers).pausing - 1, waiting := old(closers).waiting + 1)
      ensures forall h :: 0 <= h < |handlers| ==> !handlers[h].Open?
    {
      closing := true;
      closers := closers.(pausing := closers.pausing - 1, waiting := closers.waiting + 1);
      CloseHandlers();
    }

    /** Whether the wait for the handlers is over without a timeout. */
    method HandlersShut() returns (allShut: bool)
      ensures allShut <==> AllShut(State())
      ensures allShut <==> forall h :: 0 <= h < |handlers| ==> handlers[h].Shut?
    {
      allShut := true;
      for i := 0 to |handlers|
        invariant allShut <==> forall j :: 0 <= j < i ==> handlers[j].Shut?
      {
        allShut := allShut && handlers[i].Shut?;
      }
    }

    /** `_close` after the wait for the handlers; `timeout` says that the wait gave up. */
    method EndClose(timeout: bool)
      requires closers.waiting > 0 && (AllShut(State()) || timeout)
      modifies `timedOut, `closers, `connState, `connInit, `runner, `shake
      ensures Step(old(State()), CloserDone(timeout)) == Some(State())
      ensures connState.ClosedForGood? && !connInit && closers == old(closers).(waiting := old(closers).waiting - 1)
      ensures timedOut <==> old(timedOut) || exists h :: 0 <= h < |handlers| && !handlers[h].Shut?
      ensures runner == if old(runner).Connected? && old(connInit) then Connected(true) else old(runner)
    {
      var allShut := HandlersShut();
      timedOut := timedOut || !allShut;
      closers := closers.(waiting := closers.waiting - 1);
      connState := ClosedForGood;
      SetConnInit(false);
    }

    /** The end of `run`: the handlers are closed unless `_close` has done so. */
    method LeaveLoop()
      requires runner.Settling? && !reader && connState == ClosedForGood
      modifies `handlers, `runner
      ensures Step(old(State()), RunnerLoops) == Some(State())
      ensures runner.Finishing? && if closing then handlers == old(handlers) else forall h :: 0 <= h < |handlers| ==> !handlers[h].Open?
    {
      if !closing {
        CloseHandlers();
      }
      runner := Finishing;
    }

    static lemma RunEndIs(s: Worker, timeout: bool)
      requires s.runner.Finishing? && (AllShut(s) || timeout)
      ensures Step(s, RunnerDone(timeout)) == Some(CloseWs(ClosedNow(s, AllShut(s))).(runner := Ended))
    {
      hide AllShut, CloseWs;
    }

    static function ClosedNow(s: Worker, allShut: bool): Worker {
      s.(conn := ClosedForGood, timedOut := s.timedOut || !allShut)
    }

    method MarkClosed(allShut: bool)
      modifies `connState, `timedOut
      ensures State() == ClosedNow(old(State()), allShut) && connState.ClosedForGood?
      ensures timedOut == (old(timedOut) || !allShut)
    {
      timedOut := timedOut || !allShut;
      connState := ClosedForGood;
    }

    /** The end of `run` after the wait for the handlers. */
    method EndLoop(timeout: bool)
      requires runner.Finishing? && (AllShut(State()) || timeout)
      modifies `timedOut, `connState, `connInit, `ws, `runner, `shake
      ensures Step(old(State()), RunnerDone(timeout)) == Some(State())
      ensures connState.ClosedForGood? && !connInit && !ws && runner.Ended?
      ensures timedOut <==> old(timedOut) || exists h :: 0 <= h < |handlers| && !handlers[h].Shut?
    {
      hide Step, AllShut, CloseWs, ClosedNow;
      RunEndIs(State(), timeout);
      var allShut := HandlersShut();
      assert allShut ==> !exists h :: 0 <= h < |handlers| && !handlers[h].Shut?;
      MarkClosed(allShut);
      CloseSocket();
      runner := Ended;
    }

    /** The execution handler's part of a message: a closing handler, a bad payload or an unknown app adds nothing. */
    method HandleRequest(request: Option<string>, known: bool)
      requires reader && connInit && |handlers| == HANDLERS
      modifies `work
      ensures State() == old(State()).(work := OnRequest(old(work), ExecutionCloses(old(State())), request, known))
      ensures !handlers[EXECUTION].Open? || request.None? || !known ==> work == old(work)
      ensures handlers[EXECUTION].Open? && request.Some? && known ==>
                var id, task := request.value, old(work).created;
                && work.running == old(work).running[task := id] && work.created == task + 1
                && work.pending.entries == old(work).pending.entries[id := task]
                && work.pending.count == old(work).pending.count + 1
                && work.overwrites == old(work).overwrites + if id in old(work).pending.entries then 1 else 0
    {
      if !handlers[EXECUTION].Open? || request.None? || !known {
        return;
      }
      work := Accept(work, request.value);
    }

    /** The handshake handler's part of a message. */
    method HandleHandshake(msg: Message)
      modifies `connState, `shake
      ensures State() == Shaken(old(State()), msg)
      ensures old(shake).phase.AwaitingHello? && !msg.GatewayHello? ==> shake == old(shake) && connState == old(connState)
      ensures old(shake).phase.AwaitingSyncComplete? || (old(shake).phase.AwaitingHello? && msg.GatewayHello?) ==>
                shake == old(shake).(phase := H.AwaitingSyncComplete, sync := AwaitsWs) && connState == old(connState)
      ensures old(shake).phase.AwaitingReady? && msg.ConnectionReady? && msg.valid ==>
                shake == old(shake).(phase := H.Complete) && connState.Active?
      ensures old(shake).phase.Complete? || (old(shake).phase.AwaitingReady? && !(msg.ConnectionReady? && msg.valid)) ==>
                shake == old(shake) && connState == old(connState)
      ensures connState.Active? && !old(connState).Active? ==> old(shake).phase.AwaitingReady? && shake.phase.Complete?
      ensures shake.phase.AwaitingSyncComplete? ==> shake.sync.AwaitsWs?
    {
      if shake.phase.AwaitingHello? {
        if !msg.GatewayHello? {
          return;
        }
        shake := shake.(phase := H.AwaitingSyncComplete);
      }
      if shake.phase.AwaitingSyncComplete? {
        shake := shake.(sync := AwaitsWs);
        return;
      }
      if shake.phase.AwaitingReady? {
        if !msg.ConnectionReady? || !msg.valid {
          return;
        }
        shake := shake.(phase := H.Complete);
        connState := Active;
      }
    }

    /** One message from the socket, given to all handlers; without `conn_init` the reader ends. */
    method Dispatch(msg: Message)
      requires reader && |handlers| == HANDLERS
      modifies `reader, `connState, `connInit, `ws, `runner, `shake, `work
      ensures StepRead(old(State()), if old(connInit) then EventOf(msg) else ReaderStops) == Some(State())
      ensures !old(connInit) ==> !reader && connState == old(connState) && shake == old(shake)
      ensures old(connInit) ==> reader && (if msg.GatewayClosing? then !connInit && !ws else connInit && ws == old(ws))
      ensures !msg.ExecutorRequest? ==> work == old(work)
      ensures !old(connInit) || !old(handlers)[EXECUTION].Open? ==> work == old(work)
    {
      hide CloseAll, NoteCount, Finish, AllShut, CloseWs, Accept, Heard, Hears;
      if !connInit {
        reader := false;
        return;
      }
      MessageStep(State(), msg);
      hide StepRead, Shaken;
      HandleHandshake(msg);
      if msg.ExecutorRequest? {
        HandleRequest(msg.request, msg.known);
      } else if msg.GatewayClosing? {
        CloseWsFacts(State());
        CloseSocket();
      }
    }
  }
}
