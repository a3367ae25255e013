/** A value shared by threads: lock sections, notifications outside of the lock, and waiters. */
module ValueWatchers {
  import opened Values

  datatype Change<T> = Change(before: T, after: T)

  type QueueId = nat

  type CallbackId = nat

  /** What the lock protects: the value, the watch queues and the callbacks. */
  datatype Core<T> = Core(value: T, queues: seq<QueueId>, callbacks: seq<CallbackId>)

  /** What a setter has to announce after it released the lock. */
  datatype Notice<T> = Notice(change: Change<T>, queues: seq<QueueId>, callbacks: seq<CallbackId>)

  /** The lock section of the setter. Equal writes change and announce nothing. */
  function Assign<T(==)>(c: Core<T>, v: T): (Core<T>, Option<Notice<T>>) {
    if v == c.value then (c, None)
    else (c.(value := v), Some(Notice(Change(c.value, v), c.queues, c.callbacks)))
  }

  /** The lock section of `set_if`; the third part is its result. */
  function AssignIf<T(==)>(c: Core<T>, v: T, condition: T -> bool): (Core<T>, Option<Notice<T>>, bool) {
    if !condition(c.value) then (c, None, false)
    else
      var (c1, notice) := Assign(c, v);
      (c1, notice, true)
  }

  function Drop(queues: seq<QueueId>, q: QueueId): seq<QueueId> {
    if queues == [] then []
    else Drop(queues[..|queues| - 1], q) + (if queues[|queues| - 1] == q then [] else [queues[|queues| - 1]])
  }

  /** All occurrences of the queue go, and every other queue stays as often as it was there. */
  lemma {:induction false} DropTakesOne(queues: seq<QueueId>, q: QueueId)
    ensures multiset(Drop(queues, q)) == multiset(queues)[q := 0]
  {
    if queues != [] {
      var front, last := queues[..|queues| - 1], queues[|queues| - 1];
      DropTakesOne(front, q);
      assert queues == front + [last];
    }
  }

  /** The queues that stay keep their order. */
  lemma {:induction false} DropKeepsOrder(queues: seq<QueueId>, q: QueueId) returns (at: seq<nat>)
    ensures |at| == |Drop(queues, q)|
    ensures forall i :: 0 <= i < |at| ==> at[i] < |queues| && Drop(queues, q)[i] == queues[at[i]]
    ensures forall i, j :: 0 <= i < j < |at| ==> at[i] < at[j]
  {
    if queues == [] {
      at := [];
    } else {
      var n := |queues| - 1;
      at := DropKeepsOrder(queues[..n], q);
      if queues[n] != q { at := at + [n]; }
    }
  }

  /** The object itself. Every method is one lock section; notifying happens after it. */
  class ValueWatcher<T(==)> {
    var value: T
    var watchQueues: seq<QueueId>
    var onChanges: seq<CallbackId>

    ghost function State(): Core<T>
      reads this
    {
      Core(value, watchQueues, onChanges)
    }

    constructor (initial: T, onChange: Option<CallbackId>)
      ensures State() == Core(initial, [], if onChange.Some? then [onChange.value] else [])
    {
      value := initial;
      watchQueues := [];
      onChanges := if onChange.Some? then [onChange.value] else [];
    }

    method Get() returns (v: T)
      ensures v == State().value
    {
      v := value;
    }

    method Set(v: T) returns (notice: Option<Notice<T>>)
      modifies this
      ensures (State(), notice) == Assign(old(State()), v)
      ensures value == v && watchQueues == old(watchQueues) && onChanges == old(onChanges)
      ensures notice.Some? <==> v != old(value)
      ensures notice.Some? ==> notice.value == Notice(Change(old(value), v), watchQueues, onChanges)
    {
      if v == value {
        return None;
      }
      var before := value;
      value := v;
      notice := Some(Notice(Change(before, v), watchQueues, onChanges));
    }

    /**
     * Compare and set: the answer says whether the old value met the condition, and then the value is `v`. There
     * is something to announce exactly if that changed it, to the queues and callbacks registered by then.
     */
    method SetIf(v: T, condition: T -> bool) returns (ok: bool, notice: Option<Notice<T>>)
      modifies this
      ensures ok <==> condition(old(value))
      ensures value == (if ok then v else old(value)) && watchQueues == old(watchQueues) && onChanges == old(onChanges)
      ensures notice.Some? <==> ok && v != old(value)
      ensures notice.Some? ==> notice.value == Notice(Change(old(value), v), watchQueues, onChanges)
      ensures (State(), notice, ok) == AssignIf(old(State()), v, condition)
    {
      if !condition(value) {
        return false, None;
      }
      if v == value {
        return true, None;
      }
      var before := value;
      value := v;
      ok, notice := true, Some(Notice(Change(before, v), watchQueues, onChanges));
    }

    method OnChange(callback: CallbackId)
      modifies this
      ensures State() == old(State()).(callbacks := old(State()).callbacks + [callback])
    {
      onChanges := onChanges + [callback];
    }

    method Watch(q: QueueId)
      modifies this
      ensures State() == old(State()).(queues := old(State()).queues + [q])
    {
      watchQueues := watchQueues + [q];
    }

    method RemoveQueue(q: QueueId)
      modifies this
      ensures State() == old(State()).(queues := Drop(old(State()).queues, q))
      ensures multiset(watchQueues) == multiset(old(watchQueues))[q := 0]
    {
      DropTakesOne(watchQueues, q);
      var kept: seq<QueueId> := [];
      var i := 0;
      while i < |watchQueues|
        invariant i <= |watchQueues| && kept == Drop(watchQueues[..i], q)
        invariant State() == old(State())
      {
        assert watchQueues[..i + 1][..i] == watchQueues[..i];
        if watchQueues[i] != q {
          kept := kept + [watchQueues[i]];
        }
        i := i + 1;
      }
      assert watchQueues[..i] == watchQueues;
      watchQueues := kept;
    }
  }
}

/**
 * Setters, event loops and waiters around one value, as a transition system. Lock sections are atomic; each
 * `call_soon_threadsafe`, each callback the loop runs and each step of a waiter is an event of its own.
 */
module WatcherProtocol {
  import opened Values
  import opened ValueWatchers

  /** A setter after its lock section, with the queues it still has to post to. */
  datatype Setter<T> = Setter(change: Change<T>, left: seq<QueueId>)

  /** `Waiting(k)`: the queue is live, and the value after `k` changes was checked (if `immediate`). */
  datatype Phase<T> = Entered | Registered | Waiting(checkedAt: nat) | Returned(v: T) | Cancelled

  /**
   * One call that waits, with its queue. `start`, `from` and `until` count the changes committed when the
   * call began and when its queue was registered and removed. A change goes through `callbacks` (scheduled
   * on the loop) and `queue` (put there by the loop) to `got`.
   */
  datatype Waiter<!T> = Waiter(
    condition: T -> bool,
    immediate: bool,
    loopOpen: bool,
    phase: Phase<T>,
    start: nat,
    from: Option<nat>,
    until: Option<nat>,
    callbacks: seq<Change<T>>,
    queue: seq<Change<T>>,
    got: seq<Change<T>>)

  /** `history` lists the committed changes; setters and waiters are never forgotten. */
  datatype State<!T> = State(
    core: Core<T>,
    initial: T,
    history: seq<Change<T>>,
    setters: seq<Setter<T>>,
    waiters: seq<Waiter<T>>)

  /** `Call` with `immediate` is `wait_for`; without it the value is not checked (as in `wait_for_change`). */
  datatype Event<!T> =
    | Set(v: T)
    | SetIf(v: T, guard: T -> bool)
    | Post(setter: nat)
    | Call(condition: T -> bool, immediate: bool)
    | Register(w: nat)
    | Recheck(w: nat)
    | LoopStep(w: nat)
    | GetChange(w: nat)
    | Cancel(w: nat)
    | Remove(w: nat)
    | CloseLoop(w: nat)

  function Initially<T>(v: T): State<T> {
    State(Core(v, [], []), v, [], [], [])
  }

  /** The value after the first `k` changes. */
  function ValueAt<T>(s: State<T>, k: nat): T
    requires k <= |s.history|
  {
    if k == 0 then s.initial else s.history[k - 1].after
  }

  /** A setter leaves the lock. */
  function Announce<T>(s: State<T>, core: Core<T>, notice: Option<Notice<T>>): State<T> {
    match notice
    case None => s.(core := core)
    case Some(n) =>
      s.(core := core, history := s.history + [n.change], setters := s.setters + [Setter(n.change, n.queues)])
  }

  function Live<T>(s: State<T>, w: nat): bool {
    w < |s.waiters|
  }

  function Put<T>(s: State<T>, w: nat, waiter: Waiter<T>): State<T>
    requires w < |s.waiters|
  {
    s.(waiters := s.waiters[w := waiter])
  }

  /** Posting to a loop that is closed raises and is suppressed. */
  function PostTo<T>(waiter: Waiter<T>, change: Change<T>): Waiter<T> {
    if waiter.loopOpen then waiter.(callbacks := waiter.callbacks + [change]) else waiter
  }

  function Posted<T>(s: State<T>, i: nat): State<T>
    requires i < |s.setters| && s.setters[i].left != [] && s.setters[i].left[0] < |s.waiters|
  {
    var setter := s.setters[i];
    var w := setter.left[0];
    s.(setters := s.setters[i := setter.(left := setter.left[1..])],
       waiters := s.waiters[w := PostTo(s.waiters[w], setter.change)])
  }

  function Begin<T>(s: State<T>, condition: T -> bool, immediate: bool): Waiter<T> {
    var phase := if immediate && condition(s.core.value) then Returned(s.core.value) else Entered;
    Waiter(condition, immediate, true, phase, |s.history|, None, None, [], [], [])
  }

  function Checked<T>(s: State<T>, waiter: Waiter<T>): Phase<T> {
    if waiter.immediate && waiter.condition(s.core.value) then Returned(s.core.value) else Waiting(|s.history|)
  }

  function Took<T>(waiter: Waiter<T>): Waiter<T>
    requires waiter.queue != []
  {
    var change := waiter.queue[0];
    waiter.(queue := waiter.queue[1..], got := waiter.got + [change],
            phase := if waiter.condition(change.after) then Returned(change.after) else waiter.phase)
  }

  /** `None` when the event cannot happen in this state. */
  function Step<T(==)>(s: State<T>, e: Event<T>): Option<State<T>> {
    match e
    case Set(v) =>
      var (core, notice) := Assign(s.core, v);
      Some(Announce(s, core, notice))
    case SetIf(v, guard) =>
      var (core, notice, _) := AssignIf(s.core, v, guard);
      Some(Announce(s, core, notice))
    case Post(i) =>
      if i >= |s.setters| || s.setters[i].left == [] || s.setters[i].left[0] >= |s.waiters| then None
      else
        Some(Posted(s, i))
    case Call(condition, immediate) => Some(s.(waiters := s.waiters + [Begin(s, condition, immediate)]))
    case Register(w) =>
      if !Live(s, w) || !s.waiters[w].loopOpen || !s.waiters[w].phase.Entered? then None
      else
        Some(Put(s, w, s.waiters[w].(phase := Registered, from := Some(|s.history|))).(core := s.core.(queues := s.core.queues + [w])))
    case Recheck(w) =>
      if !Live(s, w) || !s.waiters[w].loopOpen || !s.waiters[w].phase.Registered? then None
      else Some(Put(s, w, s.waiters[w].(phase := Checked(s, s.waiters[w]))))
    case LoopStep(w) =>
      if !Live(s, w) || !s.waiters[w].loopOpen || s.waiters[w].callbacks == [] then None
      else
        var waiter := s.waiters[w];
        Some(Put(s, w, waiter.(callbacks := waiter.callbacks[1..], queue := waiter.queue + [waiter.callbacks[0]])))
    case GetChange(w) =>
      if !Live(s, w) || !s.waiters[w].loopOpen || !s.waiters[w].phase.Waiting? || s.waiters[w].queue == [] then None
      else Some(Put(s, w, Took(s.waiters[w])))
    case Cancel(w) =>
      if !Live(s, w) || s.waiters[w].phase.Returned? then None
      else Some(Put(s, w, s.waiters[w].(phase := Cancelled)))
    case Remove(w) =>
      if !Live(s, w) || !(s.waiters[w].phase.Returned? || s.waiters[w].phase.Cancelled?)
         || s.waiters[w].from.None? || s.waiters[w].until.Some? then None
      else
        Some(Put(s, w, s.waiters[w].(until := Some(|s.history|))).(core := s.core.(queues := Drop(s.core.queues, w))))
    case CloseLoop(w) =>
      if !Live(s, w) then None else Some(Put(s, w, s.waiters[w].(loopOpen := false)))
  }

  function Run<T(==)>(initial: T, es: seq<Event<T>>): Option<State<T>> {
    if es == [] then Some(Initially(initial))
    else
      var before := Run(initial, es[..|es| - 1]);
      if before.None? then None else Step(before.value, es[|es| - 1])
  }

  // ----- What the events of a call answer -----

  /** A call that checks at once returns at once exactly if the current value meets its condition; else it goes on. */
  lemma CallAnswers<T(!new)>(s: State<T>, condition: T -> bool, immediate: bool)
    ensures var r := Step(s, Call(condition, immediate));
            && r.Some? && |r.value.waiters| == |s.waiters| + 1 && r.value.waiters[..|s.waiters|] == s.waiters
            && var waiter := r.value.waiters[|s.waiters|];
               && waiter.condition == condition && waiter.from.None? && waiter.got == [] && waiter.queue == []
               && (if immediate && condition(s.core.value) then waiter.phase == Returned(s.core.value) else waiter.phase.Entered?)
  {
  }

  /** The check after the queue is registered answers in the same way; without it the call waits. */
  lemma RecheckAnswers<T(!new)>(s: State<T>, w: nat)
    requires Step(s, Recheck(w)).Some?
    ensures w < |s.waiters| && s.waiters[w].phase.Registered?
    ensures var waiter, s1 := s.waiters[w], Step(s, Recheck(w)).value;
            && s1.waiters[w].phase == (if waiter.immediate && waiter.condition(s.core.value) then Returned(s.core.value)
                                       else Waiting(|s.history|))
            && forall v :: 0 <= v < |s.waiters| && v != w ==> s1.waiters[v] == s.waiters[v]
  {
  }

  /** A change that reaches a waiting call is taken in order; the call returns its value exactly if that matches. */
  lemma ChangeAnswers<T(!new)>(s: State<T>, w: nat)
    requires Step(s, GetChange(w)).Some?
    ensures w < |s.waiters| && s.waiters[w].phase.Waiting? && s.waiters[w].queue != []
    ensures var before, after := s.waiters[w], Step(s, GetChange(w)).value.waiters[w];
            var change := before.queue[0];
            && after.queue == before.queue[1..] && after.got == before.got + [change]
            && after.phase == (if before.condition(change.after) then Returned(change.after) else before.phase)
  {
  }

  /**
   * A setter commits exactly if its guard, if it has one, holds of the old value and it writes another one; then
   * it goes on to post the change to every queue that is registered.
   */
  lemma CommitIs<T(!new)>(s: State<T>, v: T, guard: T -> bool)
    ensures var s1 := Step(s, SetIf(v, guard));
            && s1.Some? && s1.value.waiters == s.waiters && s1.value.core.queues == s.core.queues
            && (if guard(s.core.value) && v != s.core.value then
                  && s1.value.core.value == v && s1.value.history == s.history + [Change(s.core.value, v)]
                  && s1.value.setters == s.setters + [Setter(Change(s.core.value, v), s.core.queues)]
                else s1.value == s)
    ensures Step(s, Set(v)) == Step(s, SetIf(v, _ => true))
  {
  }

  // ----- What every reachable state satisfies -----

  /** Each change starts from the value the one before it left, and no change is an equal write. */
  ghost predicate Chained<T(!new)>(s: State<T>) {
    && (forall k :: 0 <= k < |s.history| ==> s.history[k].before == ValueAt(s, k) && s.history[k].before != s.history[k].after)
    && s.core.value == ValueAt(s, |s.history|)
  }

  /** The lock's list holds exactly the queues that are registered and not removed, each once. */
  ghost predicate QueuesFit<T(!new)>(s: State<T>) {
    && NoDuplicates(s.core.queues)
    && (forall w: nat :: w in s.core.queues <==> w < |s.waiters| && s.waiters[w].from.Some? && s.waiters[w].until.None?)
    && (forall i :: 0 <= i < |s.setters| ==>
          && NoDuplicates(s.setters[i].left)
          && forall w: nat :: w in s.setters[i].left ==> w < |s.waiters| && s.waiters[w].from.Some?)
  }

  /** How many changes the queue of this waiter could see. */
  function Until<T>(s: State<T>, w: nat): nat
    requires w < |s.waiters|
  {
    if s.waiters[w].until.Some? then s.waiters[w].until.value else |s.history|
  }

  ghost predicate TimesFit<T(!new)>(s: State<T>, w: nat)
    requires w < |s.waiters|
  {
    var waiter := s.waiters[w];
    && waiter.start <= |s.history|
    && (waiter.from.Some? ==> waiter.start <= waiter.from.value <= Until(s, w) <= |s.history|)
    && (waiter.from.None? ==> waiter.until.None? && !waiter.phase.Registered? && !waiter.phase.Waiting?)
    && (waiter.until.Some? ==> waiter.phase.Returned? || waiter.phase.Cancelled?)
    && (waiter.phase.Entered? ==> waiter.from.None?)
  }

  ghost function Share<T(!new)>(setter: Setter<T>, w: nat): multiset<Change<T>> {
    if w in setter.left then multiset{setter.change} else multiset{}
  }

  /** The changes that setters still have to post to this queue. */
  ghost function Unposted<T(!new)>(setters: seq<Setter<T>>, w: nat): multiset<Change<T>> {
    if setters == [] then multiset{}
    else Unposted(setters[..|setters| - 1], w) + Share(setters[|setters| - 1], w)
  }

  /** The changes committed while this queue was registered. */
  function Due<T>(s: State<T>, w: nat): seq<Change<T>>
    requires w < |s.waiters|
  {
    var waiter := s.waiters[w];
    if waiter.from.Some? && waiter.from.value <= Until(s, w) <= |s.history| then s.history[waiter.from.value..Until(s, w)] else []
  }

  ghost function Arrived<T(!new)>(waiter: Waiter<T>): multiset<Change<T>> {
    multiset(waiter.got) + multiset(waiter.queue) + multiset(waiter.callbacks)
  }

  /** Change conservation for one queue: taken, queued, scheduled and unposted changes are those committed meanwhile. */
  ghost predicate Conserved<T(!new)>(s: State<T>, w: nat)
    requires w < |s.waiters|
  {
    s.waiters[w].loopOpen ==> Arrived(s.waiters[w]) + Unposted(s.setters, w) == multiset(Due(s, w))
  }

  /** A waiting call checked the value when its queue was live, and has only seen changes that do not match. */
  ghost predicate PhaseFits<T(!new)>(s: State<T>, w: nat)
    requires w < |s.waiters|
  {
    var waiter := s.waiters[w];
    match waiter.phase
    case Entered => waiter.got == []
    case Registered => waiter.got == []
    case Waiting(k) =>
      && (forall c :: c in waiter.got ==> !waiter.condition(c.after))
      && waiter.from.Some? && waiter.from.value <= k <= |s.history|
      && (waiter.immediate ==> !waiter.condition(ValueAt(s, k)))
    case Returned(v) => waiter.condition(v) && exists k :: waiter.start <= k <= |s.history| && v == ValueAt(s, k)
    case Cancelled => true
  }

  ghost predicate WaiterFits<T(!new)>(s: State<T>, w: nat)
    requires w < |s.waiters|
  {
    TimesFit(s, w) && Conserved(s, w) && PhaseFits(s, w)
  }

  ghost predicate Inv<T(!new)>(s: State<T>) {
    Chained(s) && QueuesFit(s) && forall w :: 0 <= w < |s.waiters| ==> WaiterFits(s, w)
  }

  // ----- Preservation -----

  lemma ValueAtKept<T(!new)>(s: State<T>, s': State<T>, k: nat)
    requires k <= |s.history| && s'.initial == s.initial && s.history <= s'.history
    ensures ValueAt(s', k) == ValueAt(s, k)
  {
  }

  /** A waiter that an event leaves alone, together with the history and the setters, stays right. */
  lemma Untouched<T(!new)>(s: State<T>, s': State<T>, w: nat)
    requires w < |s.waiters| && w < |s'.waiters| && s'.waiters[w] == s.waiters[w]
    requires s'.history == s.history && s'.initial == s.initial
    requires Unposted(s'.setters, w) == Unposted(s.setters, w)
    requires WaiterFits(s, w)
    ensures WaiterFits(s', w)
  {
    hide Arrived, Unposted;
    if s.waiters[w].phase.Returned? {
      var k :| s.waiters[w].start <= k <= |s.history| && s.waiters[w].phase.v == ValueAt(s, k);
      assert s'.waiters[w].phase.v == ValueAt(s', k);
    }
  }

  lemma UnpostedSnoc<T(!new)>(setters: seq<Setter<T>>, setter: Setter<T>, w: nat)
    ensures Unposted(setters + [setter], w) == Unposted(setters, w) + Share(setter, w)
  {
    assert (setters + [setter])[..|setters|] == setters;
  }

  lemma SumsMore<X>(a: multiset<X>, b: multiset<X>, x: multiset<X>, y: multiset<X>, more: multiset<X>)
    requires a + x == b + y
    ensures (a + more) + x == (b + more) + y
  {
    assert (a + more) + x == (a + x) + more;
    assert (b + more) + y == (b + y) + more;
  }

  lemma SumsCancel<X>(a: multiset<X>, b: multiset<X>, x: multiset<X>)
    requires a + x == b + x
    ensures a == b
  {
    assert a == (a + x) - x;
    assert b == (b + x) - x;
  }

  lemma {:induction false} UnpostedUpdate<T(!new)>(setters: seq<Setter<T>>, i: nat, setter: Setter<T>, w: nat)
    requires i < |setters|
    ensures Unposted(setters[i := setter], w) + Share(setters[i], w) == Unposted(setters, w) + Share(setter, w)
  {
    hide Share;
    var front, last := setters[..|setters| - 1], setters[|setters| - 1];
    var after := setters[i := setter];
    if i == |setters| - 1 {
      assert after[..|after| - 1] == front;
    } else {
      assert after[..|after| - 1] == front[i := setter] && front[i] == setters[i] && after[|after| - 1] == last;
      UnpostedUpdate(front, i, setter, w);
      SumsMore(Unposted(front[i := setter], w), Unposted(front, w), Share(setters[i], w), Share(setter, w), Share(last, w));
    }
  }

  /** A commit: the change is due to, and left to be posted to, exactly the registered queues. */
  lemma CommitKeepsWaiter<T(!new)>(s: State<T>, s': State<T>, change: Change<T>, w: nat)
    requires QueuesFit(s) && w < |s.waiters| && WaiterFits(s, w)
    requires s'.waiters == s.waiters && s'.initial == s.initial && s'.history == s.history + [change]
    requires s'.setters == s.setters + [Setter(change, s.core.queues)]
    ensures WaiterFits(s', w)
  {
    UnpostedSnoc(s.setters, Setter(change, s.core.queues), w);
    CommitDue(s, s', change, w);
    PhaseKept(s, s', w);
    assert w in s.core.queues <==> s.waiters[w].from.Some? && s.waiters[w].until.None?;
    hide Unposted, Arrived, PhaseFits, NoDuplicates, Due;
  }

  lemma CommitDue<T(!new)>(s: State<T>, s': State<T>, change: Change<T>, w: nat)
    requires w < |s.waiters| && TimesFit(s, w) && s'.waiters == s.waiters && s'.history == s.history + [change]
    ensures var live := s.waiters[w].from.Some? && s.waiters[w].until.None?;
            Due(s', w) == Due(s, w) + (if live then [change] else [])
  {
    var waiter := s.waiters[w];
    if waiter.from.Some? && waiter.until.Some? {
      assert s'.history[waiter.from.value..Until(s, w)] == s.history[waiter.from.value..Until(s, w)];
    }
  }

  lemma PhaseKept<T(!new)>(s: State<T>, s': State<T>, w: nat)
    requires w < |s.waiters| && PhaseFits(s, w) && s'.waiters == s.waiters && s'.initial == s.initial && s.history <= s'.history
    ensures PhaseFits(s', w)
  {
    var waiter := s.waiters[w];
    if waiter.phase.Returned? {
      var k :| waiter.start <= k <= |s.history| && waiter.phase.v == ValueAt(s, k);
      ValueAtKept(s, s', k);
    } else if waiter.phase.Waiting? {
      ValueAtKept(s, s', waiter.phase.checkedAt);
    }
  }

  lemma CommitKeeps<T(!new)>(s: State<T>, v: T)
    requires Inv(s) && v != s.core.value
    ensures Inv(Announce(s, s.core.(value := v), Some(Notice(Change(s.core.value, v), s.core.queues, s.core.callbacks))))
  {
    var change := Change(s.core.value, v);
    var s' := Announce(s, s.core.(value := v), Some(Notice(change, s.core.queues, s.core.callbacks)));
    forall w | 0 <= w < |s.waiters| ensures WaiterFits(s', w) {
      CommitKeepsWaiter(s, s', change, w);
    }
    hide WaiterFits;
    forall k | 0 <= k < |s'.history|
      ensures s'.history[k].before == ValueAt(s', k) && s'.history[k].before != s'.history[k].after
    {
      if k < |s.history| {
        assert s'.history[k] == s.history[k];
        ValueAtKept(s, s', k);
      }
    }
  }

  lemma ChainKept<T(!new)>(s: State<T>, s': State<T>)
    requires Chained(s) && s'.initial == s.initial && s'.history == s.history && s'.core.value == s.core.value
    ensures Chained(s')
  {
    assert forall k :: 0 <= k <= |s.history| ==> ValueAt(s', k) == ValueAt(s, k);
  }

  ghost predicate SameTimes<T(!new)>(a: seq<Waiter<T>>, b: seq<Waiter<T>>) {
    |a| == |b| && forall w :: 0 <= w < |a| ==> a[w].from == b[w].from && a[w].until == b[w].until
  }

  lemma QueuesKept<T(!new)>(s: State<T>, s': State<T>)
    requires QueuesFit(s) && s'.core.queues == s.core.queues && SameTimes(s.waiters, s'.waiters)
    requires |s'.setters| == |s.setters|
    requires forall i :: 0 <= i < |s.setters| ==>
               s'.setters[i].left == s.setters[i].left || (s.setters[i].left != [] && s'.setters[i].left == s.setters[i].left[1..])
    ensures QueuesFit(s')
  {
    hide SameTimes;
    forall w: nat ensures w in s'.core.queues <==> w < |s'.waiters| && s'.waiters[w].from.Some? && s'.waiters[w].until.None? {
      TimesAt(s.waiters, s'.waiters, w);
    }
    forall i | 0 <= i < |s'.setters|
      ensures NoDuplicates(s'.setters[i].left)
      ensures forall w: nat :: w in s'.setters[i].left ==> w < |s'.waiters| && s'.waiters[w].from.Some?
    {
      forall w: nat | w in s'.setters[i].left ensures w < |s'.waiters| && s'.waiters[w].from.Some? {
        assert w in s.setters[i].left;
        TimesAt(s.waiters, s'.waiters, w);
      }
    }
  }

  lemma TimesAt<T(!new)>(a: seq<Waiter<T>>, b: seq<Waiter<T>>, w: nat)
    requires SameTimes(a, b)
    ensures |a| == |b| && (w < |a| ==> a[w].from == b[w].from && a[w].until == b[w].until)
  {
  }

  lemma PostKeepsWaiter<T(!new)>(s: State<T>, i: nat, x: nat)
    requires i < |s.setters| && s.setters[i].left != [] && s.setters[i].left[0] < |s.waiters|
    requires NoDuplicates(s.setters[i].left) && x < |s.waiters| && WaiterFits(s, x)
    ensures WaiterFits(Posted(s, i), x)
  {
    var setter := s.setters[i];
    var w, setter' := setter.left[0], setter.(left := setter.left[1..]);
    UnpostedUpdate(s.setters, i, setter', x);
    hide Unposted, WaiterFits;
    assert setter.left == [w] + setter'.left;
    if x != w {
      assert Share(setter', x) == Share(setter, x);
      SumsCancel(Unposted(Posted(s, i).setters, x), Unposted(s.setters, x), Share(setter, x));
      Untouched(s, Posted(s, i), x);
    } else {
      assert Share(setter', w) == multiset{} && Share(setter, w) == multiset{setter.change};
      PostedFits(s, Posted(s, i), w, setter.change);
    }
  }

  lemma PostKeeps<T(!new)>(s: State<T>, i: nat)
    requires Inv(s) && i < |s.setters| && s.setters[i].left != []
    ensures s.setters[i].left[0] < |s.waiters| && Inv(Posted(s, i))
  {
    hide WaiterFits;
    assert s.setters[i].left[0] in s.setters[i].left;
    forall x | 0 <= x < |s.waiters| ensures WaiterFits(Posted(s, i), x) {
      PostKeepsWaiter(s, i, x);
    }
    ChainKept(s, Posted(s, i));
    QueuesKept(s, Posted(s, i));
  }

  lemma PostedFits<T(!new)>(s: State<T>, s': State<T>, w: nat, change: Change<T>)
    requires w < |s.waiters| && WaiterFits(s, w) && |s'.waiters| == |s.waiters|
    requires s'.waiters[w] == PostTo(s.waiters[w], change)
    requires s'.history == s.history && s'.initial == s.initial
    requires Unposted(s'.setters, w) + multiset{change} == Unposted(s.setters, w)
    ensures WaiterFits(s', w)
  {
    hide Unposted;
    if s.waiters[w].phase.Returned? {
      var k :| s.waiters[w].start <= k <= |s.history| && s.waiters[w].phase.v == ValueAt(s, k);
      assert s'.waiters[w].phase.v == ValueAt(s', k);
    }
  }

  /** An event that only concerns waiter `w` keeps everything else. */
  lemma LocalKeeps<T(!new)>(s: State<T>, w: nat, waiter: Waiter<T>)
    requires Inv(s) && w < |s.waiters|
    requires waiter.from == s.waiters[w].from && waiter.until == s.waiters[w].until
    requires WaiterFits(Put(s, w, waiter), w)
    ensures Inv(Put(s, w, waiter))
  {
    var s' := Put(s, w, waiter);
    forall x | 0 <= x < |s.waiters| && x != w ensures WaiterFits(s', x) {
      Untouched(s, s', x);
    }
    hide WaiterFits;
    ChainKept(s, s');
    QueuesKept(s, s');
  }

  lemma {:induction false} NothingUnposted<T(!new)>(setters: seq<Setter<T>>, w: nat)
    requires forall i :: 0 <= i < |setters| ==> w !in setters[i].left
    ensures Unposted(setters, w) == multiset{}
  {
    if setters != [] {
      var front := setters[..|setters| - 1];
      assert forall i :: 0 <= i < |front| ==> front[i] == setters[i];
      NothingUnposted(front, w);
    }
  }

  lemma BeginFits<T(!new)>(s: State<T>, s': State<T>, condition: T -> bool, immediate: bool)
    requires Chained(s) && QueuesFit(s)
    requires s' == s.(waiters := s.waiters + [Begin(s, condition, immediate)])
    ensures WaiterFits(s', |s.waiters|)
  {
    var w := |s.waiters|;
    forall i | 0 <= i < |s.setters| ensures w !in s.setters[i].left {}
    NothingUnposted(s.setters, w);
    assert s'.waiters[w] == Begin(s, condition, immediate);
    assert ValueAt(s', |s.history|) == s.core.value;
  }

  lemma CallKeeps<T(!new)>(s: State<T>, condition: T -> bool, immediate: bool)
    requires Inv(s)
    ensures Inv(s.(waiters := s.waiters + [Begin(s, condition, immediate)]))
  {
    var s' := s.(waiters := s.waiters + [Begin(s, condition, immediate)]);
    BeginFits(s, s', condition, immediate);
    forall w | 0 <= w < |s.waiters| ensures WaiterFits(s', w) {
      Untouched(s, s', w);
    }
    ChainKept(s, s');
    hide WaiterFits;
    assert s'.waiters[|s.waiters|].from.None?;
    assert forall w :: 0 <= w < |s.waiters| ==> s'.waiters[w] == s.waiters[w];
    assert QueuesFit(s');
  }

  /** Entering or leaving the lock's list. */
  lemma ListKeeps<T(!new)>(s: State<T>, w: nat, waiter: Waiter<T>, queues: seq<QueueId>)
    requires Inv(s) && w < |s.waiters|
    requires WaiterFits(Put(s, w, waiter).(core := s.core.(queues := queues)), w)
    requires NoDuplicates(queues) && waiter.from.Some?
    requires forall x: nat :: x in queues <==> if x == w then waiter.until.None? else x in s.core.queues
    ensures Inv(Put(s, w, waiter).(core := s.core.(queues := queues)))
  {
    var s' := Put(s, w, waiter).(core := s.core.(queues := queues));
    forall x | 0 <= x < |s.waiters| && x != w ensures WaiterFits(s', x) {
      Untouched(s, s', x);
    }
    hide WaiterFits;
    ChainKept(s, s');
    assert QueuesFit(s');
  }

  lemma RegisterKeeps<T(!new)>(s: State<T>, w: nat)
    requires Inv(s) && Step(s, Register(w)).Some?
    ensures Inv(Step(s, Register(w)).value)
  {
    var waiter := s.waiters[w].(phase := Registered, from := Some(|s.history|));
    assert WaiterFits(s, w);
    hide Unposted, Arrived;
    var s' := Put(s, w, waiter).(core := s.core.(queues := s.core.queues + [w]));
    assert Due(s', w) == [] && Due(s, w) == [];
    ArrivedSame(s.waiters[w], waiter);
    ListKeeps(s, w, waiter, s.core.queues + [w]);
  }

  lemma ArrivedSame<T(!new)>(a: Waiter<T>, b: Waiter<T>)
    requires multiset(a.got) + multiset(a.queue) + multiset(a.callbacks) == multiset(b.got) + multiset(b.queue) + multiset(b.callbacks)
    ensures Arrived(a) == Arrived(b)
  {
  }

  lemma {:induction false} DropFacts(queues: seq<QueueId>, q: QueueId)
    requires NoDuplicates(queues)
    ensures NoDuplicates(Drop(queues, q)) && forall x :: x in Drop(queues, q) <==> x in queues && x != q
  {
    if queues != [] {
      var front, last := queues[..|queues| - 1], queues[|queues| - 1];
      assert queues == front + [last];
      assert last !in front;
      DropFacts(front, q);
    }
  }

  lemma RemoveKeeps<T(!new)>(s: State<T>, w: nat)
    requires Inv(s) && Step(s, Remove(w)).Some?
    ensures Inv(Step(s, Remove(w)).value)
  {
    var waiter := s.waiters[w].(until := Some(|s.history|));
    assert WaiterFits(s, w);
    hide Unposted, Arrived, Drop;
    DropFacts(s.core.queues, w);
    var s' := Put(s, w, waiter).(core := s.core.(queues := Drop(s.core.queues, w)));
    ArrivedSame(s.waiters[w], waiter);
    PhaseMoved(s, s', w);
    ListKeeps(s, w, waiter, Drop(s.core.queues, w));
  }

  lemma PhaseMoved<T(!new)>(s: State<T>, s': State<T>, w: nat)
    requires w < |s.waiters| && w < |s'.waiters| && PhaseFits(s, w)
    requires s'.history == s.history && s'.initial == s.initial
    requires var a, b := s.waiters[w], s'.waiters[w];
             a.phase == b.phase && a.condition == b.condition && a.immediate == b.immediate && a.got == b.got
             && a.from == b.from && a.start == b.start
    ensures PhaseFits(s', w)
  {
    if s.waiters[w].phase.Returned? {
      var k :| s.waiters[w].start <= k <= |s.history| && s.waiters[w].phase.v == ValueAt(s, k);
      assert s'.waiters[w].phase.v == ValueAt(s', k);
    }
  }

  lemma RecheckKeeps<T(!new)>(s: State<T>, w: nat)
    requires Inv(s) && Step(s, Recheck(w)).Some?
    ensures Inv(Step(s, Recheck(w)).value)
  {
    var waiter := s.waiters[w].(phase := Checked(s, s.waiters[w]));
    assert WaiterFits(s, w);
    hide Unposted, Arrived;
    ArrivedSame(s.waiters[w], waiter);
    assert ValueAt(Put(s, w, waiter), |s.history|) == s.core.value;
    LocalKeeps(s, w, waiter);
  }

  /** The head of one list goes to the end of another. */
  lemma Shift<X>(to: seq<X>, from: seq<X>)
    requires from != []
    ensures multiset(to + [from[0]]) + multiset(from[1..]) == multiset(to) + multiset(from)
  {
    assert from == [from[0]] + from[1..];
  }

  lemma Regroup<X>(g: multiset<X>, q: multiset<X>, c: multiset<X>, q': multiset<X>, c': multiset<X>)
    requires q + c == q' + c'
    ensures g + q + c == g + q' + c'
  {
    assert g + q + c == g + (q + c) && g + q' + c' == g + (q' + c');
  }

  lemma ArrivedLoopStep<T(!new)>(waiter: Waiter<T>)
    requires waiter.callbacks != []
    ensures Arrived(waiter.(callbacks := waiter.callbacks[1..], queue := waiter.queue + [waiter.callbacks[0]])) == Arrived(waiter)
  {
    Shift(waiter.queue, waiter.callbacks);
    Regroup(multiset(waiter.got), multiset(waiter.queue), multiset(waiter.callbacks),
            multiset(waiter.queue + [waiter.callbacks[0]]), multiset(waiter.callbacks[1..]));
  }

  lemma ArrivedTook<T(!new)>(waiter: Waiter<T>)
    requires waiter.queue != []
    ensures Arrived(Took(waiter)) == Arrived(waiter)
  {
    Shift(waiter.got, waiter.queue);
  }

  /** A step in which changes only move along, and the phase stays right. */
  lemma MoveKeeps<T(!new)>(s: State<T>, w: nat, waiter: Waiter<T>)
    requires Inv(s) && w < |s.waiters|
    requires waiter.from == s.waiters[w].from && waiter.until == s.waiters[w].until && waiter.start == s.waiters[w].start
    requires waiter.loopOpen == s.waiters[w].loopOpen && Arrived(waiter) == Arrived(s.waiters[w])
    requires TimesFit(Put(s, w, waiter), w) && PhaseFits(Put(s, w, waiter), w)
    ensures Inv(Put(s, w, waiter))
  {
    assert WaiterFits(s, w);
    hide Arrived, Unposted, PhaseFits, TimesFit;
    assert Due(Put(s, w, waiter), w) == Due(s, w);
    LocalKeeps(s, w, waiter);
  }

  lemma LoopStepKeeps<T(!new)>(s: State<T>, w: nat)
    requires Inv(s) && Step(s, LoopStep(w)).Some?
    ensures Inv(Step(s, LoopStep(w)).value)
  {
    var old_ := s.waiters[w];
    var waiter := old_.(callbacks := old_.callbacks[1..], queue := old_.queue + [old_.callbacks[0]]);
    assert WaiterFits(s, w);
    hide Inv, WaiterFits, Conserved, Arrived;
    ArrivedLoopStep(old_);
    PhaseMoved(s, Put(s, w, waiter), w);
    MoveKeeps(s, w, waiter);
  }

  lemma GetChangeKeeps<T(!new)>(s: State<T>, w: nat)
    requires Inv(s) && Step(s, GetChange(w)).Some?
    ensures Inv(Step(s, GetChange(w)).value)
  {
    var old_ := s.waiters[w];
    var waiter := Took(old_);
    assert WaiterFits(s, w);
    hide Inv, WaiterFits, Conserved, Arrived;
    TookPhase(s, w);
    ArrivedTook(old_);
    MoveKeeps(s, w, waiter);
  }

  lemma TookPhase<T(!new)>(s: State<T>, w: nat)
    requires w < |s.waiters| && WaiterFits(s, w) && s.waiters[w].loopOpen
    requires s.waiters[w].phase.Waiting? && s.waiters[w].queue != []
    ensures var s' := Put(s, w, Took(s.waiters[w])); PhaseFits(s', w) && TimesFit(s', w)
  {
    var old_ := s.waiters[w];
    var change, s' := old_.queue[0], Put(s, w, Took(old_));
    QueuedIsDue(s, w, change);
    hide Conserved;
    var j :| old_.start <= j < |s.history| && s.history[j] == change;
    assert ValueAt(s', j + 1) == change.after;
    if old_.condition(change.after) {
      assert s'.waiters[w].phase.v == ValueAt(s', j + 1);
    } else {
      ValueAtKept(s, s', old_.phase.checkedAt);
    }
  }

  lemma QueuedIsDue<T(!new)>(s: State<T>, w: nat, change: Change<T>)
    requires w < |s.waiters| && WaiterFits(s, w) && s.waiters[w].loopOpen && change in s.waiters[w].queue
    ensures exists j :: s.waiters[w].start <= j < |s.history| && s.history[j] == change
  {
    assert change in multiset(s.waiters[w].queue) && change in Arrived(s.waiters[w]);
    assert change in multiset(Due(s, w));
    assert change in Due(s, w);
    var i :| 0 <= i < |Due(s, w)| && Due(s, w)[i] == change;
    assert s.history[s.waiters[w].from.value + i] == change;
  }

  lemma CancelKeeps<T(!new)>(s: State<T>, w: nat)
    requires Inv(s) && Step(s, Cancel(w)).Some?
    ensures Inv(Step(s, Cancel(w)).value)
  {
    var waiter := s.waiters[w].(phase := Cancelled);
    assert WaiterFits(s, w);
    hide Unposted, Arrived;
    ArrivedSame(s.waiters[w], waiter);
    LocalKeeps(s, w, waiter);
  }

  lemma CloseLoopKeeps<T(!new)>(s: State<T>, w: nat)
    requires Inv(s) && w < |s.waiters|
    ensures Inv(Put(s, w, s.waiters[w].(loopOpen := false)))
  {
    assert WaiterFits(s, w);
    PhaseMoved(s, Put(s, w, s.waiters[w].(loopOpen := false)), w);
    LocalKeeps(s, w, s.waiters[w].(loopOpen := false));
  }

  lemma StepKeeps<T(!new)>(s: State<T>, e: Event<T>)
    requires Inv(s) && Step(s, e).Some?
    ensures Inv(Step(s, e).value)
  {
    match e
    case Set(v) => if v != s.core.value { CommitKeeps(s, v); }
    case SetIf(v, guard) => if guard(s.core.value) && v != s.core.value { CommitKeeps(s, v); }
    case Post(i) => PostKeeps(s, i);
    case Call(condition, immediate) => CallKeeps(s, condition, immediate);
    case Register(w) => RegisterKeeps(s, w);
    case Recheck(w) => RecheckKeeps(s, w);
    case LoopStep(w) => LoopStepKeeps(s, w);
    case GetChange(w) => GetChangeKeeps(s, w);
    case Cancel(w) => CancelKeeps(s, w);
    case Remove(w) => RemoveKeeps(s, w);
    case CloseLoop(w) => CloseLoopKeeps(s, w);
  }

  lemma {:induction false} ReachableInv<T(!new)>(initial: T, es: seq<Event<T>>)
    requires Run(initial, es).Some?
    ensures Inv(Run(initial, es).value)
  {
    hide Inv, Step;
    if es == [] {
      InitialInv(initial);
    } else {
      ReachableInv(initial, es[..|es| - 1]);
      StepKeeps(Run(initial, es[..|es| - 1]).value, es[|es| - 1]);
    }
  }

  lemma InitialInv<T(!new)>(initial: T)
    ensures Inv(Initially(initial))
  {
  }

  // ----- Main results -----

  /**
   * Change conservation. In every run the committed changes form a chain without equal writes, and for every
   * queue whose loop is open the changes taken, queued, scheduled and still to be posted are, as a multiset,
   * exactly those committed while the queue was registered.
   */
  lemma {:induction false} ChangesConserved<T(!new)>(initial: T, es: seq<Event<T>>, s: State<T>, w: nat)
    requires Run(initial, es) == Some(s) && w < |s.waiters|
    ensures Chained(s) && Conserved(s, w)
  {
    hide Run, Chained;
    ReachableInv(initial, es);
    assert WaiterFits(s, w);
  }

  ghost function UnderWay<T(!new)>(s: State<T>, w: nat): multiset<Change<T>>
    requires w < |s.waiters|
  {
    multiset(s.waiters[w].queue) + multiset(s.waiters[w].callbacks) + Unposted(s.setters, w)
  }

  /** A change that makes the waiter return is queued, scheduled, or about to be posted by a setter. */
  ghost predicate MatchUnderWay<T(!new)>(s: State<T>, w: nat)
    requires w < |s.waiters|
  {
    exists c: Change<T> :: c in UnderWay(s, w) && s.waiters[w].condition(c.after)
  }

  /**
   * No waiter is stranded. In every run, if a call that has made its second check is still waiting while the
   * current value meets its condition, then a matching change is on its way to it.
   */
  lemma {:induction false} NeverStranded<T(!new)>(initial: T, es: seq<Event<T>>, w: nat)
    requires Run(initial, es).Some? && w < |Run(initial, es).value.waiters|
    requires var s := Run(initial, es).value;
             var waiter := s.waiters[w];
             waiter.phase.Waiting? && waiter.immediate && waiter.loopOpen && waiter.condition(s.core.value)
    ensures MatchUnderWay(Run(initial, es).value, w)
  {
    hide Run;
    ReachableInv(initial, es);
    LastChangeUnderWay(Run(initial, es).value, w);
  }

  lemma LastChangeUnderWay<T(!new)>(s: State<T>, w: nat)
    requires Inv(s) && w < |s.waiters|
    requires var waiter := s.waiters[w];
             waiter.phase.Waiting? && waiter.immediate && waiter.loopOpen && waiter.condition(s.core.value)
    ensures MatchUnderWay(s, w)
  {
    var waiter, n := s.waiters[w], |s.history|;
    assert WaiterFits(s, w);
    hide Unposted, Arrived, QueuesFit;
    assert waiter.phase.checkedAt < n;
    var last := s.history[n - 1];
    assert s.core.value == ValueAt(s, n) == last.after;
    LastIsDue(s, w);
    assert last !in waiter.got && last !in multiset(waiter.got);
    hide Due;
    Remains(s, w, last);
  }

  lemma LastIsDue<T(!new)>(s: State<T>, w: nat)
    requires w < |s.waiters| && s.waiters[w].from.Some? && s.waiters[w].until.None?
    requires s.waiters[w].from.value < |s.history|
    ensures s.history[|s.history| - 1] in multiset(Due(s, w))
  {
    var due := Due(s, w);
    assert due[|due| - 1] == s.history[|s.history| - 1];
  }

  lemma Remains<T(!new)>(s: State<T>, w: nat, c: Change<T>)
    requires w < |s.waiters| && Arrived(s.waiters[w]) + Unposted(s.setters, w) == multiset(Due(s, w))
    requires c in multiset(Due(s, w)) && c !in multiset(s.waiters[w].got)
    ensures c in UnderWay(s, w)
  {
    hide Unposted, Due;
    assert multiset(s.waiters[w].got) + UnderWay(s, w) == multiset(Due(s, w));
  }

  /** A returned value meets the condition and was the current value at some moment after the call began. */
  lemma {:induction false} ReturnedWasCurrent<T(!new)>(initial: T, es: seq<Event<T>>, w: nat)
    requires Run(initial, es).Some? && w < |Run(initial, es).value.waiters|
    requires Run(initial, es).value.waiters[w].phase.Returned?
    ensures var s := Run(initial, es).value;
            var v := s.waiters[w].phase.v;
            s.waiters[w].condition(v) && exists k :: s.waiters[w].start <= k <= |s.history| && v == ValueAt(s, k)
  {
    hide Run;
    ReachableInv(initial, es);
    assert WaiterFits(Run(initial, es).value, w);
  }

  // ----- Where the claims stop -----

  function Outcome<T(==)>(initial: T, es: seq<Event<T>>, e: Event<T>): Option<State<T>> {
    var before := Run(initial, es);
    if before.None? then None else Step(before.value, e)
  }

  lemma RunSnoc<T(!new)>(initial: T, es: seq<Event<T>>, e: Event<T>)
    ensures Run(initial, es + [e]) == Outcome(initial, es, e)
  {
    assert (es + [e])[..|es|] == es;
  }

  /** Without the second check, a call that begins when the value already matches waits for a change that need not come. */
  lemma {:induction false} UncheckedIsStranded(v: int)
    ensures var es := [Call(x => x == v, false), Register(0), Recheck(0)];
            var r := Run(v, es);
            && r.Some? && |r.value.waiters| == 1
            && r.value.waiters[0].phase.Waiting? && r.value.waiters[0].condition(r.value.core.value)
            && !MatchUnderWay(r.value, 0)
  {
    var s := Joins(v, x => x == v, false);
    assert UnderWay(s, 0) == multiset{};
  }

  /** A call, its registration and its second check, from the initial state. */
  lemma Joins(v: int, condition: int -> bool, immediate: bool) returns (s: State<int>)
    requires !immediate || !condition(v)
    ensures Run(v, [Call(condition, immediate), Register(0), Recheck(0)]) == Some(s)
    ensures s.core == Core(v, [0], []) && s.history == [] && s.setters == [] && s.initial == v
    ensures s.waiters == [Waiter(condition, immediate, true, Waiting(0), 0, Some(0), None, [], [], [])]
  {
    var e0, e1, e2 := Event<int>.Call(condition, immediate), Event<int>.Register(0), Event<int>.Recheck(0);
    RunSnoc(v, [], e0);
    RunSnoc(v, [e0], e1);
    RunSnoc(v, [e0, e1], e2);
    assert [] + [e0] == [e0] && [e0] + [e1] == [e0, e1] && [e0, e1] + [e2] == [e0, e1, e2];
    hide Run;
    var s0 := Initially(v);
    var s1 := Step(s0, e0).value;
    assert s1.waiters == [Begin(s0, condition, immediate)];
    var s2 := Step(s1, e1).value;
    s := Step(s2, e2).value;
  }

  /**
   * Two setters may post in the other order than they committed, as posting happens outside of the lock: the
   * waiter then sees the newer change first.
   */
  lemma {:induction false} LateSetterOvertaken(v: int, first: int, second: int)
    requires v != first && first != second
    ensures var es := [Call(_ => false, true), Register(0), Recheck(0)] + [Set(first)] + [Set(second)] + [Post(1)] + [Post(0)];
            var r := Run(v, es);
            && r.Some? && |r.value.waiters| == 1 && r.value.core.value == second
            && r.value.waiters[0].callbacks == [Change(first, second), Change(v, first)]
  {
    var s := Joins(v, _ => false, true);
    var es := [Event<int>.Call(_ => false, true), Event<int>.Register(0), Event<int>.Recheck(0)];
    var e3, e4, e5, e6 := Event<int>.Set(first), Event<int>.Set(second), Event<int>.Post(1), Event<int>.Post(0);
    RunSnoc(v, es, e3);
    RunSnoc(v, es + [e3], e4);
    RunSnoc(v, es + [e3] + [e4], e5);
    RunSnoc(v, es + [e3] + [e4] + [e5], e6);
    hide Run;
    var s3 := Step(s, e3).value;
    var s4 := Step(s3, e4).value;
    assert s4.setters == [Setter(Change(v, first), [0]), Setter(Change(first, second), [0])];
    var s5 := Step(s4, e5).value;
    assert s5.setters[0] == s4.setters[0] && s5.waiters[0].callbacks == [Change(first, second)];
    var s6 := Step(s5, e6).value;
  }
}
