/** Pending execution requests: the table of tasks, the shared count, and what a reused request ID does. */
module Requests {
  import opened Values

  type TaskId = nat

  /** The table and the count that the handlers watch. */
  datatype Pending = Pending(entries: map<string, TaskId>, count: int)

  const NO_REQUESTS := Pending(map[], 0)

  function AddRequest(p: Pending, id: string, task: TaskId): Pending {
    Pending(p.entries[id := task], p.count + 1)
  }

  function PopRequest(p: Pending, id: string): Pending {
    if id in p.entries then Pending(p.entries - {id}, p.count - 1) else p
  }

  class PendingRequestManager {
    var pendingRequests: map<string, TaskId>
    var pendingRequestCount: int

    ghost function State(): Pending
      reads this
    {
      Pending(pendingRequests, pendingRequestCount)
    }

    constructor ()
      ensures State() == NO_REQUESTS
    {
      pendingRequests := map[];
      pendingRequestCount := 0;
    }

    method Add(id: string, task: TaskId)
      modifies this
      ensures State() == AddRequest(old(State()), id, task)
      ensures pendingRequests == old(pendingRequests)[id := task] && pendingRequestCount == old(pendingRequestCount) + 1
    {
      pendingRequests := pendingRequests[id := task];
      pendingRequestCount := pendingRequestCount + 1;
    }

    method Clear()
      modifies this
      ensures State() == NO_REQUESTS
    {
      pendingRequests := map[];
      pendingRequestCount := 0;
    }

    function Count(): nat
      reads this
    {
      |pendingRequests|
    }

    method Get(id: string) returns (task: Option<TaskId>)
      ensures task == if id in State().entries then Some(State().entries[id]) else None
    {
      task := if id in pendingRequests then Some(pendingRequests[id]) else None;
    }

    /** The done callback of a task: whatever task the entry now holds, it goes. */
    method Pop(id: string) returns (task: Option<TaskId>)
      modifies this
      ensures State() == PopRequest(old(State()), id)
      ensures pendingRequests == old(pendingRequests) - {id}
      ensures pendingRequestCount == old(pendingRequestCount) - if id in old(pendingRequests) then 1 else 0
      ensures task == if id in old(pendingRequests) then Some(old(pendingRequests)[id]) else None
    {
      task := None;
      if id in pendingRequests {
        task := Some(pendingRequests[id]);
        pendingRequests := map k | k in pendingRequests && k != id :: pendingRequests[k];
        pendingRequestCount := pendingRequestCount - 1;
      }
    }
  }

  // ----- Requests and their tasks -----

  /** `running` holds the tasks that have not ended, with their request IDs; `overwrites` counts adds on a live ID. */
  datatype Work = Work(pending: Pending, running: map<TaskId, string>, created: nat, overwrites: nat)

  const IDLE := Work(NO_REQUESTS, map[], 0, 0)

  function Accept(w: Work, id: string): Work {
    Work(AddRequest(w.pending, id, w.created), w.running[w.created := id], w.created + 1,
         w.overwrites + (if id in w.pending.entries then 1 else 0))
  }

  /** A task ends, by itself or cancelled; its done callback pops its request ID. */
  function Finish(w: Work, task: TaskId): Work
    requires task in w.running
  {
    w.(pending := PopRequest(w.pending, w.running[task]), running := w.running - {task})
  }

  /** The handler's answer to an executor request: a closing handler, a bad payload or an unknown app adds nothing. */
  function OnRequest(w: Work, closing: bool, request: Option<string>, known: bool): Work {
    if closing || request.None? || !known then w else Accept(w, request.value)
  }

  /** The exact account: overwritten entries stay in the count forever. */
  ghost predicate Accounted(w: Work) {
    && w.pending.count == |w.pending.entries| + w.overwrites
    && |w.running| <= w.pending.count
    && (forall t :: t in w.running ==> t < w.created)
    && (forall id :: id in w.pending.entries ==>
          w.pending.entries[id] in w.running && w.running[w.pending.entries[id]] == id)
  }

  lemma AcceptAccounted(w: Work, id: string)
    requires Accounted(w)
    ensures Accounted(Accept(w, id))
  {
    var w1, p := Accept(w, id), w.pending;
    assert w1.running.Keys == w.running.Keys + {w.created} && w.created !in w.running.Keys;
    MapGrows(w.running, w.created, id);
    MapGrows(p.entries, id, w.created);
  }

  lemma MapGrows<K, V>(m: map<K, V>, k: K, v: V)
    ensures |m[k := v]| == |m| + (if k in m then 0 else 1)
  {
    var m1 := m[k := v];
    assert m1.Keys == m.Keys + {k};
    assert |m1| == |m1.Keys| && |m| == |m.Keys|;
  }

  lemma MapShrinks<K, V>(m: map<K, V>, k: K)
    ensures |m - {k}| == |m| - (if k in m then 1 else 0)
  {
    var m1 := m - {k};
    assert m1.Keys == m.Keys - {k};
    assert |m1| == |m1.Keys| && |m| == |m.Keys|;
  }

  lemma FinishAccounted(w: Work, task: TaskId)
    requires Accounted(w) && task in w.running
    ensures Accounted(Finish(w, task))
  {
    MapShrinks(w.running, task);
    MapShrinks(w.pending.entries, w.running[task]);
  }

  datatype WorkEvent = Request(request: Option<string>, known: bool) | TaskEnds(task: TaskId) | CloseStarts

  /** A run of the execution handler alone; the second part tells whether it is closing. */
  function RunWork(es: seq<WorkEvent>): Option<(Work, bool)> {
    if es == [] then Some((IDLE, false))
    else
      var before := RunWork(es[..|es| - 1]);
      if before.None? then None
      else
        var (w, closing) := before.value;
        match es[|es| - 1]
        case Request(request, known) => Some((OnRequest(w, closing, request, known), closing))
        case TaskEnds(task) => if task in w.running then Some((Finish(w, task), closing)) else None
        case CloseStarts => Some((w, true))
  }

  lemma {:induction false} WorkAccounted(es: seq<WorkEvent>)
    requires RunWork(es).Some?
    ensures Accounted(RunWork(es).value.0)
  {
    if es != [] {
      WorkAccounted(es[..|es| - 1]);
      hide Accounted, Accept, Finish;
      var (w, closing) := RunWork(es[..|es| - 1]).value;
      match es[|es| - 1]
      case Request(request, known) => if request.Some? { AcceptAccounted(w, request.value); }
      case TaskEnds(task) => FinishAccounted(w, task);
      case CloseStarts =>
    } else {
      assert |IDLE.running| == 0;
    }
  }

  /** Every request ID that was accepted was fresh: no live entry was ever overwritten. */
  ghost predicate FreshSoFar(w: Work) {
    w.overwrites == 0
  }

  /**
   * The count is the number of pending entries plus the number of overwrites, in every run. So it equals the
   * number of entries if and only if no live ID was used again; and once all tasks have ended it is back at
   * zero, which is what shutdown waits for, under the same condition.
   */
  lemma {:induction false} CountIsExact(es: seq<WorkEvent>)
    requires RunWork(es).Some?
    ensures var w := RunWork(es).value.0;
            && w.pending.count == |w.pending.entries| + w.overwrites
            && |w.running| <= w.pending.count
            && (w.pending.count == |w.pending.entries| <==> FreshSoFar(w))
            && (w.running == map[] ==> (w.pending.count == 0 <==> FreshSoFar(w)))
  {
    WorkAccounted(es);
    var w := RunWork(es).value.0;
    if w.running == map[] {
      assert w.pending.entries == map[];
    }
  }

  /** With fresh IDs the entries are exactly the running tasks. */
  lemma {:induction false} FreshEntriesAreRunning(es: seq<WorkEvent>)
    requires RunWork(es).Some? && FreshSoFar(RunWork(es).value.0)
    ensures var w := RunWork(es).value.0;
            && w.pending.count == |w.running|
            && forall t :: t in w.running ==> w.running[t] in w.pending.entries && w.pending.entries[w.running[t]] == t
  {
    if es != [] {
      var front := es[..|es| - 1];
      WorkAccounted(front);
      var w := RunWork(front).value.0;
      OverwritesGrow(es);
      FreshEntriesAreRunning(front);
      match es[|es| - 1]
      case Request(request, known) =>
        if request.Some? {
          MapGrows(w.running, w.created, request.value);
        }
      case TaskEnds(task) =>
        MapShrinks(w.running, task);
      case CloseStarts =>
    }
  }

  lemma OverwritesGrow(es: seq<WorkEvent>)
    requires es != [] && RunWork(es).Some?
    ensures RunWork(es[..|es| - 1]).Some? && RunWork(es[..|es| - 1]).value.0.overwrites <= RunWork(es).value.0.overwrites
  {
  }

  /** A reused live ID: both tasks end, and the count stays at one. */
  lemma {:induction false} ReusedIdNeverDrains(id: string)
    ensures var r := RunWork([Request(Some(id), true)] + [Request(Some(id), true)] + [TaskEnds(0)] + [TaskEnds(1)]);
            r.Some? && r.value.0.running == map[] && r.value.0.pending == Pending(map[], 1)
  {
    var e := Request(Some(id), true);
    WorkSnoc([], e);
    WorkSnoc([e], e);
    WorkSnoc([e] + [e], TaskEnds(0));
    WorkSnoc([e] + [e] + [TaskEnds(0)], TaskEnds(1));
    assert [] + [e] == [e];
    assert RunWork([]) == Some((IDLE, false));
    hide RunWork;
    var w1 := Accept(IDLE, id);
    var w2 := Accept(w1, id);
    assert w2.pending == Pending(map[id := 1], 2) && w2.running == map[0 := id, 1 := id];
    var w3 := Finish(w2, 0);
    assert w3.pending == Pending(map[], 1) && w3.running == map[1 := id];
    var w4 := Finish(w3, 1);
    assert w4.running == map[];
  }

  lemma WorkSnoc(es: seq<WorkEvent>, e: WorkEvent)
    ensures RunWork(es + [e]) ==
            var before := RunWork(es);
            if before.None? then None
            else
              match e {
                case Request(request, known) => Some((OnRequest(before.value.0, before.value.1, request, known), before.value.1))
                case TaskEnds(task) => if task in before.value.0.running then Some((Finish(before.value.0, task), before.value.1)) else None
                case CloseStarts => Some((before.value.0, true))
              }
  {
    assert (es + [e])[..|es|] == es;
  }
}
