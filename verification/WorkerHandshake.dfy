/** The handshake inside of the worker is the handshake of the handler: every run of the one is a run of the other. */
module WorkerHandshake {
  import opened Values
  import opened Requests
  import opened Shutdown
  import H = Handshakes

  /** The same phase, and a sync task alive in both or in neither. */
  ghost predicate Agrees(k: Shake, h: H.Handshake) {
    k.phase == h.phase && (k.sync.NoSync? <==> H.NoLive(h))
  }

  ghost predicate Follows(k: Shake, p: H.Progress) {
    H.Inv(p) && Agrees(k, p.h)
  }

  lemma LiveTask(p: H.Progress) returns (i: nat)
    requires H.Inv(p) && !H.NoLive(p.h)
    ensures i < |p.h.tasks| && p.h.tasks[i].Live?
    ensures forall j :: 0 <= j < |p.h.tasks| && p.h.tasks[j].Live? ==> j == i
  {
    i :| 0 <= i < |p.h.tasks| && p.h.tasks[i].Live?;
  }

  lemma SyncStarted(h: H.Handshake)
    requires H.Fits(h)
    ensures !H.NoLive(H.StartSync(h))
  {
    var h1 := H.StartSync(h);
    assert h1.tasks[|h1.tasks| - 1].Live?;
  }

  /** A message that the handshake hears is one that the handler receives. */
  lemma HeardFollows(overridden: Option<nat>, k: Shake, p: H.Progress, msg: H.Msg) returns (p1: H.Progress)
    requires Follows(k, p) && !H.Activates(p.h, msg)
    ensures H.Step(overridden, p, H.Receive(msg)) == Some(p1) && Follows(Heard(k, msg.Hello?), p1)
  {
    p1 := H.Step(overridden, p, H.Receive(msg)).value;
    H.StepKeeps(overridden, p, H.Receive(msg));
    SyncStarted(p.h);
    SyncStarted(p.h.(phase := H.AwaitingSyncComplete, handshakeComplete := false));
    hide H.Inv, H.NoLive, H.StartSync, H.NewLease;
  }

  lemma ReadyFollows(overridden: Option<nat>, k: Shake, p: H.Progress) returns (p1: H.Progress)
    requires Follows(k, p) && k.phase.AwaitingReady?
    ensures H.Step(overridden, p, H.Receive(H.Ready(Some("")))) == Some(p1) && Follows(k.(phase := H.Complete), p1)
  {
    p1 := H.Step(overridden, p, H.Receive(H.Ready(Some("")))).value;
    H.StepKeeps(overridden, p, H.Receive(H.Ready(Some(""))));
    hide H.Inv, H.NewLease;
  }

  lemma EndFollows(overridden: Option<nat>, k: Shake, p: H.Progress, sent: bool) returns (e: H.Event, p1: H.Progress)
    requires Follows(k, p) && !k.sync.NoSync?
    ensures H.Step(overridden, p, e) == Some(p1)
    ensures Follows(k.(phase := if sent then H.AwaitingReady else k.phase, sync := NoSync), p1)
  {
    var i := LiveTask(p);
    e := H.SyncEnds(i, sent);
    p1 := H.Step(overridden, p, e).value;
    H.StepKeeps(overridden, p, e);
    hide H.Inv;
  }

  lemma ResetFollows(overridden: Option<nat>, k: Shake, p: H.Progress) returns (p1: H.Progress)
    requires Follows(k, p)
    ensures H.Step(overridden, p, H.ResetHandshake) == Some(p1) && Follows(k.(phase := H.AwaitingHello), p1)
  {
    p1 := H.Step(overridden, p, H.ResetHandshake).value;
    H.StepKeeps(overridden, p, H.ResetHandshake);
  }

  lemma DrainedFollows(overridden: Option<nat>, k: Shake, p: H.Progress) returns (p1: H.Progress)
    requires Follows(k, p)
    ensures H.Step(overridden, p, H.CloseDrained) == Some(p1) && Follows(k.(sync := NoSync), p1)
  {
    p1 := H.Step(overridden, p, H.CloseDrained).value;
    H.StepKeeps(overridden, p, H.CloseDrained);
  }

  predicate SameShake(k: Shake, k1: Shake) {
    k1.phase == k.phase && k1.sync == k.sync
  }

  lemma CloseWsShake(s: Worker)
    ensures SameShake(s.shake, CloseWs(s).shake)
  {
    hide Woken;
  }

  /** All other events leave phase and sync task alone. */
  lemma OthersKeepShake(s: Worker, e: Event)
    requires Step(s, e).Some? && !FromReader(e) && !FromSender(e) && e != HandlerDrained(HANDSHAKE)
    ensures SameShake(s.shake, Step(s, e).value.shake)
  {
    if e.RunnerDone? {
      CloseWsShake(s.(conn := ClosedForGood, timedOut := s.timedOut || !AllShut(s)));
      hide AllShut, CloseWs, StepRead, StepSend;
    } else if e.RunnerRefused? {
      CloseWsShake(s);
      hide CloseWs, StepRead, StepSend;
    } else if e.TaskEnds? {
      NoteCountIs(s.(work := Finish(s.work, e.task)));
      hide Finish, NoteCount, StepRead, StepSend;
    } else {
      hide AllShut, StepRead, StepSend, Woken, CloseHandler;
    }
  }

  lemma SameFollows(k: Shake, k1: Shake, p: H.Progress)
    requires Follows(k, p) && SameShake(k, k1)
    ensures Follows(k1, p)
  {
    hide H.Inv, H.NoLive;
  }

  lemma ReadFollows(overridden: Option<nat>, s: Worker, e: Event, p: H.Progress) returns (hs: seq<H.Event>,
                    p1: H.Progress)
    requires FromReader(e) && StepRead(s, e).Some? && Follows(s.shake, p)
    ensures |hs| <= 1 && (if hs == [] then p1 == p else H.Step(overridden, p, hs[0]) == Some(p1))
    ensures Follows(StepRead(s, e).value.shake, p1)
  {
    CloseWsShake(s.(reader := false));
    CloseWsShake(Hears(s, false));
    hide CloseWs, H.Step, Follows, OnRequest, ExecutionCloses, Heard;
    hs, p1 := [], p;
    if e.ReaderStops? {
    } else if e.ConnectionLost? {
      SameFollows(s.shake, StepRead(s, e).value.shake, p);
    } else if e.ReceiveReady? && e.valid && s.shake.phase.AwaitingReady? {
      p1 := ReadyFollows(overridden, s.shake, p);
      hs := [H.Receive(H.Ready(Some("")))];
    } else {
      var msg := if e.ReceiveHello? then H.Hello else H.Other;
      p1 := HeardFollows(overridden, s.shake, p, msg);
      hs := [H.Receive(msg)];
      if e.ReceiveClosing? { SameFollows(Hears(s, false).shake, StepRead(s, e).value.shake, p1); }
    }
  }

  lemma SendFollows(overridden: Option<nat>, s: Worker, e: Event, p: H.Progress) returns (hs: seq<H.Event>,
                    p1: H.Progress)
    requires FromSender(e) && StepSend(s, e).Some? && Follows(s.shake, p)
    ensures |hs| <= 1 && (if hs == [] then p1 == p else H.Step(overridden, p, hs[0]) == Some(p1))
    ensures Follows(StepSend(s, e).value.shake, p1)
  {
    hide CloseWs, H.Step, H.Inv, H.NoLive, Follows;
    hs, p1 := [], p;
    match e
    case SyncSent =>
      var he;
      he, p1 := EndFollows(overridden, s.shake, p, true);
      hs := [he];
    case SyncFails(lost) =>
      var he;
      he, p1 := EndFollows(overridden, s.shake, p, false);
      hs := [he];
      var s1 := s.(shake := s.shake.(sync := NoSync));
      CloseWsShake(s1);
      SameFollows(s1.shake, StepSend(s, e).value.shake, p1);
    case ResetHandshake =>
      p1 := ResetFollows(overridden, s.shake, p);
      hs := [H.ResetHandshake];
      SameFollows(s.shake.(phase := H.AwaitingHello), StepSend(s, e).value.shake, p1);
    case SyncStarts => StartFollows(s.shake, p);
    case SendStarts =>
    case SendEnds(_) =>
      CloseWsShake(s.(sends := s.sends - 1));
      SameFollows(s.shake, StepSend(s, e).value.shake, p);
  }

  lemma StartFollows(k: Shake, p: H.Progress)
    requires Follows(k, p) && k.sync.AwaitsWs?
    ensures Follows(k.(sync := Sending), p)
  {
    hide H.Inv, H.NoLive;
  }

  lemma StepFollows(overridden: Option<nat>, s: Worker, e: Event, p: H.Progress) returns (hs: seq<H.Event>,
                    p1: H.Progress)
    requires Step(s, e).Some? && Follows(s.shake, p)
    ensures |hs| <= 1 && (if hs == [] then p1 == p else H.Step(overridden, p, hs[0]) == Some(p1))
    ensures Follows(Step(s, e).value.shake, p1)
  {
    if FromReader(e) {
      ReaderSteps(s, e);
      hide Step, Follows;
      hs, p1 := ReadFollows(overridden, s, e, p);
    } else if FromSender(e) {
      SenderSteps(s, e);
      hide Step, Follows;
      hs, p1 := SendFollows(overridden, s, e, p);
    } else if e == HandlerDrained(HANDSHAKE) {
      hide Follows;
      p1 := DrainedFollows(overridden, s.shake, p);
      hs := [H.CloseDrained];
    } else {
      hide Step, Follows;
      OthersKeepShake(s, e);
      SameFollows(s.shake, Step(s, e).value.shake, p);
      hs, p1 := [], p;
    }
  }

  /**
   * In every run of the worker the handshake is where some run of the handshake handler takes it, with its sync
   * task alive or not: what is proved of the handler's runs holds inside of the worker.
   */
  lemma {:induction false} WorkerFollowsHandler(overridden: Option<nat>, es: seq<Event>)
      returns (hs: seq<H.Event>, p: H.Progress)
    requires RunFrom(START, es).Some?
    ensures H.Run(overridden, hs) == Some(p) && Follows(RunFrom(START, es).value.shake, p)
  {
    if es == [] {
      hs, p := [], H.Progress(H.START, 0, 0, 0);
    } else {
      var front := es[..|es| - 1];
      var before, q := WorkerFollowsHandler(overridden, front);
      var more;
      hide Step, H.Step;
      more, p := StepFollows(overridden, RunFrom(START, front).value, es[|es| - 1], q);
      hs := before + more;
      if more == [] {
        assert hs == before;
      } else {
        assert more == [more[0]];
        H.RunSnoc(overridden, H.Progress(H.START, 0, 0, 0), before, more[0]);
      }
    }
  }
}
