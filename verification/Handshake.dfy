/** The handshake after a connection opens: HELLO, sync task, READY, with resets and replaced sync tasks. */
module Handshakes {
  import opened Values
  import opened StepIds

  datatype Phase = AwaitingHello | AwaitingSyncComplete | AwaitingReady | Complete

  /** A sync task; a cancelled one does nothing more, but is not done until it has run its last step. */
  datatype TaskStatus = Live | Cancelling | Done

  /** Incoming messages. The interval of a READY whose payload does not parse is `None`. */
  datatype Msg = Hello | Ready(interval: Option<string>) | Other

  /** The handler with all its sync tasks; `current` is the one it remembers. */
  datatype Handshake = Handshake(
    phase: Phase,
    tasks: seq<TaskStatus>,
    current: Option<nat>,
    handshakeComplete: bool,
    lease: Option<nat>)

  const START := Handshake(AwaitingHello, [], None, false, None)

  predicate Fits(h: Handshake) {
    h.current.Some? ==> h.current.value < |h.tasks|
  }

  // ----- Durations -----

  function DigitValue(c: char): Option<nat> {
    if '0' <= c <= '9' then Some((c as int) - ('0' as int)) else None
  }

  /** The number that a text of digits denotes. */
  function ParseDigits(text: string): Option<nat> {
    if text == [] then None
    else
      var last := DigitValue(text[|text| - 1]);
      if |text| == 1 then last
      else
        var front := ParseDigits(text[..|text| - 1]);
        if last.None? || front.None? then None else Some(10 * front.value + last.value)
  }

  /** `^(\d+)s$`: digits and an `s`; the end of the pattern also matches before a final line break. */
  function ParseDuration(text: string): Option<nat> {
    var line := if text != [] && text[|text| - 1] == '\n' then text[..|text| - 1] else text;
    if line == [] || line[|line| - 1] != 's' then None else ParseDigits(line[..|line| - 1])
  }

  lemma {:induction false} DecimalParses(n: nat)
    ensures ParseDigits(Decimal(n)) == Some(n)
  {
    var text := Decimal(n);
    DigitParses(n % 10);
    if n >= 10 {
      DecimalNonEmpty(n / 10);
      assert text[..|text| - 1] == Decimal(n / 10);
      DecimalParses(n / 10);
    }
  }

  lemma DigitParses(d: nat)
    requires d < 10
    ensures DigitValue(Digit(d)) == Some(d)
  {
    assert "0123456789"[d] as int == d + ('0' as int);
  }

  /** The server's durations are read back exactly. */
  lemma {:induction false} DurationRoundTrip(n: nat)
    ensures ParseDuration(Decimal(n) + "s") == Some(n)
  {
    var text := Decimal(n) + "s";
    DecimalParses(n);
    assert text[|text| - 1] == 's' && text[..|text| - 1] == Decimal(n);
  }

  // ----- What the events do -----

  /** A new sync task replaces the one that is not done. */
  function StartSync(h: Handshake): Handshake
    requires Fits(h)
  {
    var tasks := if h.current.Some? && h.tasks[h.current.value].Live? then h.tasks[h.current.value := Cancelling] else h.tasks;
    h.(tasks := tasks + [Live], current := Some(|tasks|))
  }

  /** The interval to use: the override if there is one, else the parsed interval, else the one from before. */
  function NewLease(h: Handshake, interval: string, overridden: Option<nat>): Option<nat> {
    if overridden.Some? then overridden
    else if ParseDuration(interval).Some? then ParseDuration(interval)
    else h.lease
  }

  function OnMsg(h: Handshake, msg: Msg, overridden: Option<nat>): Handshake
    requires Fits(h)
  {
    match h.phase
    case AwaitingHello =>
      if msg != Hello then h
      else StartSync(h.(phase := AwaitingSyncComplete, handshakeComplete := false))
    case AwaitingSyncComplete => StartSync(h)
    case AwaitingReady =>
      if !msg.Ready? || msg.interval.None? then h
      else h.(phase := Complete, lease := NewLease(h, msg.interval.value, overridden), handshakeComplete := true)
    case Complete => h
  }

  /** A live sync task ends; `sent` says that its WORKER_CONNECT went out. */
  function OnSyncEnd(h: Handshake, i: nat, sent: bool): Handshake
    requires i < |h.tasks|
  {
    var h1 := h.(tasks := h.tasks[i := Done]);
    if sent then h1.(phase := AwaitingReady) else h1
  }

  // ----- The implementation -----

  class InitHandshakeHandler {
    var handshakeState: Phase
    var sendDataTask: Option<nat>
    /** The event loop's view of the tasks this handler created. */
    var tasks: seq<TaskStatus>
    /** The fields of the shared state that this handler writes; `activations` counts its moves to ACTIVE. */
    var initHandshakeComplete: bool
    var extendLeaseInterval: Option<nat>
    var activations: nat
    const leaseOverride: Option<nat>

    ghost function State(): Handshake
      reads this
    {
      Handshake(handshakeState, tasks, sendDataTask, initHandshakeComplete, extendLeaseInterval)
    }

    constructor (leaseOverride: Option<nat>)
      ensures State() == START && activations == 0 && this.leaseOverride == leaseOverride
    {
      handshakeState := AwaitingHello;
      sendDataTask := None;
      tasks := [];
      initHandshakeComplete := false;
      extendLeaseInterval := None;
      activations := 0;
      this.leaseOverride := leaseOverride;
    }

    method HandleMsg(msg: Msg)
      requires Fits(State())
      modifies this
      ensures State() == OnMsg(old(State()), msg, leaseOverride) && Fits(State())
      ensures activations == old(activations) + (if Activates(old(State()), msg) then 1 else 0)
      ensures old(handshakeState).AwaitingHello? && msg != Hello ==> State() == old(State())
      ensures old(handshakeState).AwaitingSyncComplete? || (old(handshakeState).AwaitingHello? && msg == Hello) ==>
                && handshakeState.AwaitingSyncComplete? && sendDataTask == Some(|old(tasks)|)
                && |tasks| == |old(tasks)| + 1 && tasks[|old(tasks)|].Live?
                && (forall i :: 0 <= i < |old(tasks)| ==>
                      tasks[i] == if old(sendDataTask) == Some(i) && old(tasks)[i].Live? then Cancelling else old(tasks)[i])
                && initHandshakeComplete == (old(handshakeState).AwaitingSyncComplete? && old(initHandshakeComplete))
                && extendLeaseInterval == old(extendLeaseInterval)
      ensures old(handshakeState).AwaitingReady? && msg.Ready? && msg.interval.Some? ==>
                && handshakeState.Complete? && initHandshakeComplete && activations == old(activations) + 1
                && tasks == old(tasks) && sendDataTask == old(sendDataTask)
                && extendLeaseInterval ==
                     (if leaseOverride.Some? then leaseOverride
                      else if ParseDuration(msg.interval.value).Some? then ParseDuration(msg.interval.value)
                      else old(extendLeaseInterval))
      ensures old(handshakeState).AwaitingReady? && !(msg.Ready? && msg.interval.Some?) ==> State() == old(State())
      ensures old(handshakeState).Complete? ==> State() == old(State())
    {
      if handshakeState == AwaitingHello {
        if msg != Hello {
          return;
        }
        handshakeState := AwaitingSyncComplete;
        initHandshakeComplete := false;
      }
      if handshakeState == AwaitingSyncComplete {
        if sendDataTask.Some? && tasks[sendDataTask.value] != Done {
          tasks := tasks[sendDataTask.value := Cancelling];
        }
        sendDataTask := Some(|tasks|);
        tasks := tasks + [Live];
        return;
      }
      if handshakeState == AwaitingReady {
        if !msg.Ready? || msg.interval.None? {
          return;
        }
        if leaseOverride.Some? {
          extendLeaseInterval := leaseOverride;
        } else {
          var interval := ParseDuration(msg.interval.value);
          if interval.Some? {
            extendLeaseInterval := interval;
          }
        }
        handshakeState := Complete;
        activations := activations + 1;
        initHandshakeComplete := true;
      }
    }

    /** The last step of `_send_response`. */
    method EndSync(i: nat, sent: bool)
      requires i < |tasks| && tasks[i] == Live
      modifies this
      ensures State() == OnSyncEnd(old(State()), i, sent) && activations == old(activations)
    {
      tasks := tasks[i := Done];
      if sent {
        handshakeState := AwaitingReady;
      }
    }

    /** `_reconnect_watcher` saw `conn_init` change to `None`. */
    method Reset()
      modifies `handshakeState
      ensures State() == old(State()).(phase := AwaitingHello)
    {
      handshakeState := AwaitingHello;
    }
  }

  /** This message moves the connection to ACTIVE. */
  predicate Activates(h: Handshake, msg: Msg) {
    h.phase.AwaitingReady? && msg.Ready? && msg.interval.Some?
  }

  // ----- Whole runs -----

  datatype Event =
    | Receive(msg: Msg)
    | SyncEnds(task: nat, sent: bool)
    | CancelLands(task: nat)
    | ResetHandshake
    | CloseDrained

  /** The handshake with counts of accepted HELLOs, completed WORKER_CONNECT sends and moves to ACTIVE. */
  datatype Progress = Progress(h: Handshake, hellos: nat, sends: nat, activations: nat)

  function Step(overridden: Option<nat>, p: Progress, e: Event): Option<Progress>
    requires Fits(p.h)
  {
    match e
    case Receive(msg) =>
      Some(Progress(OnMsg(p.h, msg, overridden),
                    p.hellos + (if p.h.phase.AwaitingHello? && msg == Hello then 1 else 0),
                    p.sends,
                    p.activations + (if Activates(p.h, msg) then 1 else 0)))
    case SyncEnds(i, sent) =>
      if i >= |p.h.tasks| || !p.h.tasks[i].Live? then None
      else Some(p.(h := OnSyncEnd(p.h, i, sent), sends := p.sends + (if sent then 1 else 0)))
    case CancelLands(i) =>
      if i >= |p.h.tasks| || !p.h.tasks[i].Cancelling? then None
      else Some(p.(h := p.h.(tasks := p.h.tasks[i := Done])))
    case ResetHandshake => Some(p.(h := p.h.(phase := AwaitingHello)))
    case CloseDrained =>
      if p.h.current.Some? && p.h.tasks[p.h.current.value].Live? then
        Some(p.(h := p.h.(tasks := p.h.tasks[p.h.current.value := Cancelling])))
      else Some(p)
  }

  ghost predicate Inv(p: Progress) {
    && Fits(p.h)
    && (forall i :: 0 <= i < |p.h.tasks| && p.h.tasks[i].Live? ==> p.h.current == Some(i) && p.sends + 1 <= p.hellos)
    && p.activations <= p.sends <= p.hellos
    && (p.h.phase.AwaitingSyncComplete? ==> p.sends + 1 <= p.hellos)
    && (p.h.phase.AwaitingReady? ==> p.activations + 1 <= p.sends)
  }

  lemma StepKeeps(overridden: Option<nat>, p: Progress, e: Event)
    requires Inv(p) && Step(overridden, p, e).Some?
    ensures Inv(Step(overridden, p, e).value)
  {
    hide ParseDuration, NewLease;
  }

  /** The progress after a run from `p`; `None` if the run is not possible. */
  function RunFrom(overridden: Option<nat>, p: Progress, es: seq<Event>): Option<Progress> {
    if es == [] then Some(p)
    else
      var before := RunFrom(overridden, p, es[..|es| - 1]);
      if before.None? || !Fits(before.value.h) then None else Step(overridden, before.value, es[|es| - 1])
  }

  function Run(overridden: Option<nat>, es: seq<Event>): Option<Progress> {
    RunFrom(overridden, Progress(START, 0, 0, 0), es)
  }

  lemma {:induction false} ReachableInv(overridden: Option<nat>, p: Progress, es: seq<Event>)
    requires Inv(p) && RunFrom(overridden, p, es).Some?
    ensures Inv(RunFrom(overridden, p, es).value)
  {
    if es != [] {
      ReachableInv(overridden, p, es[..|es| - 1]);
      StepKeeps(overridden, RunFrom(overridden, p, es[..|es| - 1]).value, es[|es| - 1]);
    }
  }

  /**
   * In every run, with any resets and however late a task ends: at most one sync task is live, and moves to
   * ACTIVE, completed sends and accepted HELLOs come in that order.
   */
  lemma {:induction false} HandshakeOrder(overridden: Option<nat>, es: seq<Event>)
    requires Run(overridden, es).Some?
    ensures var p := Run(overridden, es).value;
            && p.activations <= p.sends <= p.hellos
            && (forall i, j :: 0 <= i < |p.h.tasks| && 0 <= j < |p.h.tasks| && p.h.tasks[i].Live? && p.h.tasks[j].Live? ==> i == j)
  {
    ReachableInv(overridden, Progress(START, 0, 0, 0), es);
  }

  // ----- A sync task that ends after the reset -----

  /** No new connection has said HELLO and no further reset has happened. */
  predicate Quiet(es: seq<Event>) {
    forall i :: 0 <= i < |es| ==> es[i] != Receive(Hello) && es[i] != ResetHandshake
  }

  /**
   * After a reset the next HELLO starts a sync if and only if no task from before the reset has completed
   * its send in the meantime; and at most one can.
   */
  lemma {:induction false} HelloHonouredIff(overridden: Option<nat>, p: Progress, es: seq<Event>)
    requires Inv(p) && p.h.phase.AwaitingHello? && Quiet(es) && RunFrom(overridden, p, es).Some?
    ensures var q := RunFrom(overridden, p, es).value;
            && Fits(q.h) && q.hellos == p.hellos && q.sends <= p.sends + 1
            && (Step(overridden, q, Receive(Hello)).value.hellos == q.hellos + 1 <==> q.sends == p.sends)
  {
    ReachableInv(overridden, p, es);
    AfterReset(overridden, p, es);
  }

  /** The phases a handshake can be in after a reset, and what is left of the sync task from before it. */
  lemma {:induction false} AfterReset(overridden: Option<nat>, p: Progress, es: seq<Event>)
    requires Inv(p) && p.h.phase.AwaitingHello? && Quiet(es) && RunFrom(overridden, p, es).Some?
    ensures var q := RunFrom(overridden, p, es).value;
            && q.hellos == p.hellos && p.sends <= q.sends <= p.sends + 1
            && (q.h.phase.AwaitingHello? <==> q.sends == p.sends)
            && (q.sends > p.sends ==> (q.h.phase.AwaitingReady? || q.h.phase.Complete?) && NoLive(q.h))
  {
    if es != [] {
      var front := es[..|es| - 1];
      assert forall i :: 0 <= i < |front| ==> front[i] == es[i];
      AfterReset(overridden, p, front);
      ReachableInv(overridden, p, front);
      hide ParseDuration, NewLease, ParseDigits;
    }
  }

  predicate NoLive(h: Handshake) {
    forall i :: 0 <= i < |h.tasks| ==> !h.tasks[i].Live?
  }

  /** Such a late task makes the handler drop the HELLO of the new connection: it waits for READY instead. */
  lemma {:induction false} LateTaskDropsHello(overridden: Option<nat>)
    ensures var r := Run(overridden, [Receive(Hello), ResetHandshake, SyncEnds(0, true), Receive(Hello)]);
            r.Some? && r.value.hellos == 1 && r.value.h.phase.AwaitingReady? && NoLive(r.value.h)
  {
    hide RunFrom;
    var p0 := Progress(START, 0, 0, 0);
    var e0, e1, e2, e3 := Receive(Hello), ResetHandshake, SyncEnds(0, true), Receive(Hello);
    var p1, p2, p3 := LateSteps(overridden);
    RunOfFour(overridden, p0, [e0, e1, e2, e3], p1, p2, p3);
  }

  lemma LateSteps(overridden: Option<nat>) returns (p1: Progress, p2: Progress, p3: Progress)
    ensures Step(overridden, Progress(START, 0, 0, 0), Receive(Hello)) == Some(p1) && Fits(p1.h)
    ensures Step(overridden, p1, ResetHandshake) == Some(p2) && Fits(p2.h)
    ensures Step(overridden, p2, SyncEnds(0, true)) == Some(p3) && Fits(p3.h)
    ensures Step(overridden, p3, Receive(Hello)) == Some(p3)
    ensures p3.hellos == 1 && p3.h.phase.AwaitingReady? && NoLive(p3.h)
  {
    p1 := Step(overridden, Progress(START, 0, 0, 0), Receive(Hello)).value;
    assert p1.h.tasks == [Live] && p1.h.current == Some(0);
    p2 := Step(overridden, p1, ResetHandshake).value;
    p3 := Step(overridden, p2, SyncEnds(0, true)).value;
    assert p3.h.tasks == [Done];
  }

  lemma RunOfFour(overridden: Option<nat>, p: Progress, es: seq<Event>, p1: Progress, p2: Progress, p3: Progress)
    requires |es| == 4 && Fits(p.h) && Fits(p1.h) && Fits(p2.h) && Fits(p3.h)
    requires Step(overridden, p, es[0]) == Some(p1) && Step(overridden, p1, es[1]) == Some(p2)
    requires Step(overridden, p2, es[2]) == Some(p3)
    ensures RunFrom(overridden, p, es) == Step(overridden, p3, es[3])
  {
    hide Step;
    assert es == es[..3] + [es[3]] && es[..3] == es[..2] + [es[2]] && es[..2] == es[..1] + [es[1]] && es[..1] == [] + [es[0]];
    RunSnoc(overridden, p, [], es[0]);
    RunSnoc(overridden, p, es[..1], es[1]);
    RunSnoc(overridden, p, es[..2], es[2]);
    RunSnoc(overridden, p, es[..3], es[3]);
  }

  lemma RunSnoc(overridden: Option<nat>, p: Progress, es: seq<Event>, e: Event)
    ensures RunFrom(overridden, p, es + [e]) ==
            var before := RunFrom(overridden, p, es);
            if before.None? || !Fits(before.value.h) then None else Step(overridden, before.value, e)
  {
    assert (es + [e])[..|es|] == es;
  }

  /** From there every message but a READY is ignored, and no task is left that could send: only a reset helps. */
  lemma {:induction false} IgnoresAllButReady(overridden: Option<nat>, p: Progress, es: seq<Event>)
    requires Inv(p) && p.h.phase.AwaitingReady? && NoLive(p.h)
    requires forall i :: 0 <= i < |es| ==> es[i] != ResetHandshake && !(es[i].Receive? && es[i].msg.Ready?)
    requires RunFrom(overridden, p, es).Some?
    ensures var q := RunFrom(overridden, p, es).value;
            q.h.phase.AwaitingReady? && NoLive(q.h) && q.sends == p.sends && q.hellos == p.hellos
  {
    if es != [] {
      var front := es[..|es| - 1];
      assert forall i :: 0 <= i < |front| ==> front[i] == es[i];
      IgnoresAllButReady(overridden, p, front);
      hide ParseDuration;
    }
  }
}
