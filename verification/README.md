# Dafny model of the Inngest Python SDK's execution core

The Inngest SDK runs a user's function *durably*: the function is called again from the top for every request,
steps that already have a memo return at once, and a new step either runs its handler or is planned, after which
an interrupt unwinds the function. This project models that machinery together with the Connect worker that
receives requests over a WebSocket and the middleware that transforms what is stored, and proves what they are for.

## What is modelled

**Durable steps.** A user function is a tree of the calls it makes (`Programs.Prog`): return, raise, a point where
the environment may raise, a step call with its handler, and a parallel group, each with the code after it as a
function of what the call gave back. User code may therefore branch on results and catch exceptions.

- `StepIds`, `Memos`, `Values`: ID counting and hashing, memo decoding, JSON values.
- `Engine`: one invocation as a specification (report, memo, skip, plan, run, unwind, group discovery).
- `Trigger`: the executor loop of the mock `trigger`. `World` is everything it does not control: in which
  invocation the environment raises where, and which planned step `set.pop()` takes.
- `Machine`: the same, as classes and loops that change their fields, proved equal to the specification.
- `MemoLaws`, `StepLaws`, `LoopLaws`: what single answers are, over the JSON and the constructors themselves: how a
  stored memo reaches the code after its step, what `step.run` makes of each way its handler can end, and what the
  executor does with each kind of answer.
- `Plan`, `Replay`, `TriggerLaws`: the steps of a straight run, what one invocation does given correct memos of
  any part of it, and the theorems about whole runs.
- `PlanIds`, `Sequential`: which hashed ID each step gets, when progress cannot change it, and what clashing IDs
  do to code without groups.
- `EngineLaws`, `Discovery`: laws that hold for every program, group discovery, and when hooks fire.
- `Retries`, `FanOut`: how many disturbed invocations the retries make up for, and the usual fan-out over a list.
- `Counterexamples`, `CaughtErrors`: for each condition of the replay theorem that a program with a direct run can
  break, a program that breaks it, and what the loop does with it.

**Connect worker.** `ValueWatcher` (the shared observable value, and a transition system of setters, loops and
waiters), `Buffer` and `Replies` (the bounded reply buffer, and senders, acknowledgements and the flush poller around
it), `Handshake` and `HandshakeLaws` (the handshake, and what it leaves in the shared state), `Requests` (pending
requests and their count), `Shutdown` (a transition system of the run loop, start request, message reader, handshake,
sends, close sequences and main thread), `Closed` (when CLOSED is final), `RunLoop` (whether its run loop ends),
`WorkerHandshake` (the worker's handshake is the one of `Handshake`), `WorkerState` (the code sections that write its
state) and `WorkerLaws` (which events write what). Wherever several asyncio tasks or threads are involved, one event
is the code between two awaits, or one lock section, and theorems quantify over every sequence of events.

**Middleware.** `Middleware` (the manager's passes), `Stores` (encryption with key rotation, and the in-memory store),
`StackLaws` (stacks of them), `ManagerLaws` (stacks through the manager), `StackReplay` and `ManagerReplay` (the
executor loop through a stack, and that it uses the manager's passes) and `EventData` (the encrypted event field).

## Main results

1. *Replay equals direct run.* For every program whose straight run is planned (see `Plans.PlanOf`), with distinct
   hashed IDs and no memo that looks like nested output, the executor loop ends within `2 * steps + 2 * (max_attempt +
   1)` invocations, whichever planned step is picked each time, and completes with the value that a run without any
   memoization computes if and only if at most as many invocations answered an error as may be retried. A group may
   fail by a callback that always raises, with user code that catches the error, if the first callback to raise does
   so before its first step, or it is the only one to raise and no other callback makes steps or the code after the
   group makes none; `RaisingDependsOnPick`, `FailedGroupLosesTarget` and `LaterErrorWins` show what happens
   otherwise. IDs are distinct exactly if the step IDs do not clash, and callbacks of a group may share IDs exactly as
   far as the hashed IDs do not depend on progress (`DistinctIffNoClash`, `GroupIdsStableIff`). For sequential code
   with a fixed list of steps the condition on IDs is an if and only if (`SequentialReplaysIff`), and the number of
   disturbed invocations that retries make up for is exact (`RetriesAreExact`).
2. *Exactly once.* No memoized step runs again. A completed run has memoized every step once, except for steps that a
   callback which raised has left behind; and each handler has returned exactly once for each memo, plus once for each
   of its results that was lost because the invocation answered something else. None is lost if the environment
   cannot raise between the steps of a group's callbacks and no callback raises after its steps beside others that
   make steps. `HandlerSucceedsTwice` shows a lost one.
3. *Conservation and safety of the Connect worker*, over every interleaving: change conservation and no stranded
   waiter; reply conservation, and exactly when the poller deletes a reply that it never sent; at most one live sync
   task and READY after send after HELLO; an exact account of the pending count; a drain that loses no request; and
   exactly when CLOSED is final and when the run loop still ends.
4. *Inverse middleware.* The forward input pass undoes the reversed output pass for every stack whose members undo
   themselves; encryption (also across a key rotation) and the in-memory store do, through storage and memo decoding.
   Replay through such a stack is replay without it, for every program, so it equals the direct run as well.

## Where the code falls short of its descriptions

- `step_lib/base.py:117-120`: the second use of `foo` is hashed like a first use of `foo:1`. A function without
  groups whose step IDs clash like this on every path never completes (`ClashingNeverCompletes`), and with the IDs
  `foo`, `foo`, `foo:1` the loop never even ends (`ClashingNeverEnds`). `TextsDistinctIffNoClash` says exactly when
  texts are distinct.
- `step_lib/group.py:83-91`: a group without the target returns the outputs of its finished callbacks only, so a
  group nested in a callback can hand on a tuple that is too short (`GroupWithoutTarget`, `NestedGroupFails`).
- `connect/_internal/init_handshake_handler.py:20-21` says that a reconnect resets the handshake. A sync task from
  before the reset that finishes late undoes the reset, and the next HELLO is dropped (`HelloHonouredIff`,
  `LateTaskDropsHello`).
- `connect/_internal/isolated_worker.py:255` says that `_close` exits the run loop. After `_close` without a timeout no
  continuation ends the run loop if and only if the loop waits for a change of `conn_init` (`NeverEndsIff`), and some
  continuation gets it stuck for ever if and only if it waits, opens a connection, or has an endpoint to open one
  (`GetsStuckIff`). The end of `_close` leaves the loop waiting exactly if it waited with `conn_init` already cleared
  (`CloseHangsIff`), which happens only when a connection opens after `conn_init` was cleared (`MissedChangeHistory`).
  `_close` can finish while the connection is being opened (`HangIsReachable`). The loop can also wait in vain before
  CLOSED, but only after a send failed that had outlived its connection (`OnlyLateFailuresMiss`, `StuckIsReachable`).
- `connect/_internal/models.py:43-54` lets no task leave CLOSED by way of `close_ws`, but a READY does leave it when the
  wait in `_close` has timed out, the start request still answers and the handshake can still get to wait for a READY
  (`ClosedIsFinalIff`, `TimeoutLeavesClosed`).
- `step_lib/group.py:77-84`: a callback that raises ends its group although a step of another callback is planned; the
  invocation for that step then reaches other code and answers an error, or not, depending on the order in which the
  executor takes the planned steps (`RaisingDependsOnPick`).
- `connect/_internal/execution_handler.py:33-34`: an `add` on a live request ID overwrites the entry but raises the
  count for good, so shutdown can only time out (`CountIsExact`, `ReuseBlocksShutdown`).
- `connect/_internal/execution_handler.py:495-497` assumes that the reply it deletes is the one it flushed, which
  fails when the same request ID replies again during the flush (`OvertakenReplyIsLost`; `TakesUnsentIff` says
  exactly when).

## Model

| member | source | states |
|---|---|---|
| StepIds.StepIDCounter.Increment | pkg/inngest/inngest/_internal/step_lib/base.py:152-158 | returns how often the ID has been used in this invocation, counting this use |
| StepIds.StepIDCounter.ParseStepID | pkg/inngest/inngest/_internal/step_lib/base.py:111-126 | the hashed text is the one the whole history of uses assigns to this use; ID and index are reported |
| StepIds.DecimalInjective | pkg/inngest/inngest/_internal/step_lib/base.py:119-120 | printing an occurrence index in decimal is injective |
| StepIds.PreHashInjective | pkg/inngest/inngest/_internal/step_lib/base.py:117-120 | two uses have the same text only if they are the same use of the same ID or one ID is written like a numbered repeat of the other |
| StepIds.TextsDistinctIffNoClash | pkg/inngest/inngest/_internal/step_lib/base.py:111-126 | over any sequence of uses the texts are pairwise distinct if and only if no used ID is another used ID followed by `:n` for an index n that ID reaches |
| Memos.BareMemoSurvivesIff | pkg/inngest/inngest/_internal/step_lib/base.py:68-80 | a bare memo is read back as itself if and only if it does not look like nested output |
| Memos.EmptyObjectReadsAsNull | pkg/inngest/inngest/_internal/step_lib/base.py:32-38 | the empty object is read as nested output without data |
| MemoLaws.StoredFormsDecode | pkg/inngest/inngest/_internal/step_lib/base.py:68-80 | `{"data": v}`, with or without a null error, is read as v, and an error object as exactly that error with message, name and stack; JSON text of them likewise |
| MemoLaws.DecodedIff | pkg/inngest/inngest/_internal/step_lib/base.py:68-80 | a memo is read as o if and only if it nests o, itself or as text; one that nests nothing is read as bare data |
| MemoLaws.ShapedIff | pkg/inngest/inngest/_internal/step_lib/base.py:32-38 | what looks like nested output is exactly an object with no keys but `data` and `error` whose error is absent, null, or an object with text message and name and a stack that is absent, null or text |
| MemoLaws.StoredDataReachesCode | pkg/inngest/inngest/_internal/execution_lib/v0.py:206-228 | at any point of any invocation, a step whose stored memo nests v hands v to the code after it, and exactly its memo is gone |
| MemoLaws.StoredErrorReachesCode | pkg/inngest/inngest/_internal/execution_lib/v0.py:217-224 | and one whose memo nests an error raises a step error with this message, name and stack into that code |
| MemoLaws.BareMemoReachesCode | pkg/inngest/inngest/_internal/step_lib/base.py:71-79 | a memo that nests nothing reaches it as it was stored |
| MemoLaws.StoredRunIsReplayed | pkg/inngest/inngest/_internal/execution_lib/v0.py:261-316 | an invocation given the nested outputs of any number of steps returns them all, in order |
| MemoLaws.StoredErrorIsAnswered | pkg/inngest/inngest/_internal/execution_lib/v0.py:261-316 | an invocation given a nested error that is not caught answers that error |
| Memos.StepMemos.Pop | pkg/inngest/inngest/_internal/step_lib/base.py:54-65 | gives the memo and removes it and no other, or says that there is none |
| Machine.Execution.BeforeExecution | pkg/inngest/inngest/_internal/execution_lib/v0.py:277-281 | starts the hooks unless they were started before in this invocation, and gives an error exactly if it starts them and one is asynchronous or raises |
| Machine.Execution.Report | pkg/inngest/inngest/_internal/execution_lib/v0.py:206-259 | pops the memo, fires hooks when none is left and drops their error, then decides memo, skip, plan, run or report as specified |
| Machine.Execution.CallStep | pkg/inngest/inngest/_internal/step_lib/step_sync.py:172-233 | a step call and the code after it, by memo, interrupt or handler, as specified; context flags are restored on every way out |
| Machine.Execution.CallHandler | pkg/inngest/inngest/_internal/step_lib/step_sync.py:190-233 | runs the handler inside the nesting flag; its output is answered, `NonRetriableError` and `RetryAfterError` are raised, other errors are answered, as failed in the last attempt; all as specified |
| StepLaws.HandlerAnswers | pkg/inngest/inngest/_internal/step_lib/step_sync.py:190-233 | for every handler, state and context: its output is answered for this step; the two bubbling errors go on into the code after it; any other error is answered with null output, as failed if and only if the last attempt is known and reached; a nested step is answered as the error about that |
| StepLaws.BubblingErrorIsRaised | pkg/inngest/inngest/_internal/step_lib/step_sync.py:201-203 | `NonRetriableError` and `RetryAfterError` reach the code after the step, and answered as the function's error if it does not catch them |
| StepLaws.OtherErrorIsAnswered | pkg/inngest/inngest/_internal/step_lib/step_sync.py:204-221 | any other error is exactly one response with this step, null output and this error; `StepFailed` if and only if `max_attempts` is given and reached, else `StepError` |
| StepLaws.UnrunAnswers | pkg/inngest/inngest/_internal/execution_lib/v0.py:229-259 | a step that neither has a memo nor may run is skipped for another target, planned if it is a run, and else reported as it is |
| StepLaws.InnerStepIsNested | pkg/inngest/inngest/_internal/execution_lib/models.py:153-157 | in a handler, a step that has a memo or may run ends the handler as a nested step |
| StepLaws.NoNestedOutside | pkg/inngest/inngest/_internal/execution_lib/models.py:153-162 | outside of handlers no program ends as a nested step, so no invocation crashes that way |
| StepLaws.RaceMarksAll | pkg/inngest/inngest/_internal/step_lib/base.py:232-239 | a group answers the responses of its callbacks in order; race mode marks each of them and wait mode changes none |
| Machine.Execution.CallParallel | pkg/inngest/inngest/_internal/step_lib/group.py:55-94 | the discovery loop gathers outputs and responses in callback order and restores the parallel flag on every way out |
| Machine.Execution.RunCode | pkg/inngest/inngest/_internal/execution_lib/v0.py:283-287 | imperative execution of any program has the outcome, state and context that the specification gives |
| Machine.Execution.Run | pkg/inngest/inngest/_internal/execution_lib/v0.py:261-316 | one invocation answers what the specification of an invocation says, error classes included; hooks that fail end it before the function if and only if there are no memos |
| Machine.ApplyResponses | pkg/inngest/inngest/experimental/mocked/trigger.py:162-199 | the loop over responses updates memos, stack, plans and attempts as specified, and stops early as specified |
| Machine.HandleResult | pkg/inngest/inngest/experimental/mocked/trigger.py:151-205 | one answer retries, fails, memoizes, plans or completes as specified |
| Machine.Invoke | pkg/inngest/inngest/experimental/mocked/trigger.py:83-149 | fresh memos, counter and middleware per request make the answer depend on the request and the stored steps only |
| Machine.Trigger | pkg/inngest/inngest/experimental/mocked/trigger.py:50-205 | the `while` loop over `steps`, `planned`, `stack` and `attempt` computes the specified run |
| LoopLaws.RequestIs | pkg/inngest/inngest/experimental/mocked/trigger.py:59-79 | a request targets a planned step exactly if there is one, forbids immediate execution, and carries the attempt but no maximum |
| LoopLaws.RaisingIsRetried | pkg/inngest/inngest/experimental/mocked/trigger.py:55-57 | a function that always raises is called five times by default, else once more than its retries, and then fails with its error |
| LoopLaws.UnstubbedStops | pkg/inngest/inngest/experimental/mocked/trigger.py:183-192 | an unstubbed step that only the server resolves stops the loop in the first invocation, with its display name |
| LoopLaws.TimeoutGivesNull | pkg/inngest/inngest/experimental/mocked/trigger.py:175-181 | a step of any kind stubbed with a timeout gives null, in two invocations and without its handler |
| LoopLaws.StubGivesValue | pkg/inngest/inngest/experimental/mocked/trigger.py:175-181 | with any other stub it gives the stub's value, or the data that the stub nests |
| LoopLaws.SleepGivesNull | pkg/inngest/inngest/experimental/mocked/trigger.py:185-187 | a sleep is over at once and gives null |
| EngineLaws.ExecDisciplined | pkg/inngest/inngest/_internal/execution_lib/models.py:153-162 | the nesting flag is set exactly while a handler runs, through any program, return, raise or interrupt |
| EngineLaws.InvocationDiscipline | pkg/inngest/inngest/_internal/execution_lib/models.py:153-162 | in every invocation of every program handlers run one at a time, and `before_execution` fires at most once |
| EngineLaws.TargetedInvocation | pkg/inngest/inngest/_internal/execution_lib/v0.py:191-259 | with a target no other handler runs at any nesting of groups; if hashed IDs are distinct and responses come back, there is exactly one, for the target |
| EngineLaws.UntargetedInvocation | pkg/inngest/inngest/_internal/execution_lib/v0.py:232-254 | with immediate execution disabled and no target, no handler starts at all, in any program |
| Plans.PlanIsDirect | pkg/inngest/inngest/_internal/step_lib/step_sync.py:183-195 | reading every step's value back through memo decoding gives the result of a run without memoization, in which a group gives its outputs or the error of the first callback that raises, when no value looks like nested output |
| PlanIds.DistinctIffNoClash | pkg/inngest/inngest/_internal/step_lib/base.py:111-126 | the hashed IDs of a planned run are distinct if and only if no step ID it uses is another one followed by `:n` for an occurrence that the other one reaches |
| PlanIds.GroupIdsStableIff | pkg/inngest/inngest/_internal/step_lib/group.py:69-84 | each step of a group has the same hashed ID in every invocation, however far each callback got, if and only if no ID that a callback uses after its first step is used in a later callback |
| PlanIds.TailsUnusedIff | pkg/inngest/inngest/_internal/step_lib/group.py:69-84 | the test by which a group is planned is this condition |
| PlanIds.GroupIdsAreFixed | pkg/inngest/inngest/_internal/step_lib/base.py:111-126 | a step of a planned group has its planned hashed ID however far the callbacks before it got |
| Replay.ExecPlan | pkg/inngest/inngest/_internal/execution_lib/v0.py:206-259 | given correct memos of any part of the plan, an invocation answers exactly the frontier, the target's result, or the final result, and counts and pops nothing else; groups with callbacks that raise included |
| Replay.ExecPlanGroup | pkg/inngest/inngest/_internal/step_lib/group.py:69-94 | the same for a group: planned steps of all callbacks in order, or the target's response only, or all outputs, or the error of the callback that raises once its own steps have memos |
| Replay.ExecPlanHeads | pkg/inngest/inngest/_internal/step_lib/group.py:69-94 | the same for a group that a callback fails before its first step: no step of it is ever answered, run or memoized, and the code after it gets the error |
| TriggerLaws.TurnMakesProgress | pkg/inngest/inngest/experimental/mocked/trigger.py:59-205 | every turn keeps the invariant and either ends the loop properly or lowers the measure of what is left |
| TriggerLaws.TriggerEnds | pkg/inngest/inngest/experimental/mocked/trigger.py:55-62 | the loop ends within two invocations per step and two per attempt, with the planned result if and only if at most as many invocations answered an error as may be retried; what is memoized then are planned steps with their values, all of them unless a callback that raised has left some behind |
| TriggerLaws.ReplayEqualsDirect | pkg/inngest/inngest/experimental/mocked/trigger.py:59-205 | the loop completes with the value of a direct run, for every choice of planned steps, if and only if at most as many invocations answered an error as may be retried; only a disturbed invocation answers one |
| TriggerLaws.HandlersSucceedOnce | pkg/inngest/inngest/experimental/mocked/trigger.py:162-199 | a completed run has memoized each step at most once, and every step once unless a callback that raised has left some behind; the handler calls that returned are one per memoized handler step and those lost with an invocation that answered something else, of which there are none if no group callback can be made to raise or raises by itself beside others with steps |
| TriggerLaws.ReachableInv | pkg/inngest/inngest/experimental/mocked/trigger.py:59-199 | in every reachable loop state memos hold the values of planned steps, plans have no memo and are next in line unless nothing is, the attempt is the number of answered errors, and handler results are accounted for |
| TriggerLaws.MemoizedNeverRerun | pkg/inngest/inngest/experimental/mocked/trigger.py:60-62 | in every reachable state plans and memos are disjoint, no handler of a memoized step starts, and targeted invocations plan nothing |
| Retries.FewFaultsComplete | pkg/inngest/inngest/experimental/mocked/trigger.py:151-180 | in every environment that disturbs at most as many invocations as may be retried, the loop completes with the value of a direct run |
| Retries.RetriesAreExact | pkg/inngest/inngest/experimental/mocked/trigger.py:151-180 | a function that is disturbed before its first step in exactly its first k invocations completes with that value if and only if k errors may be retried |
| FanOut.FanOutCompletes | tests/test_inngest/test_types.py:243-268 | a fan-out over any list in which every callback uses the same step ID completes with the results in order, whatever is picked |
| Sequential.FinishedReportsOnce | pkg/inngest/inngest/_internal/execution_lib/v0.py:206-225 | an invocation of code without groups that finishes has reported each hashed ID at most once, as each report took away the memo that let it return |
| Sequential.FinishedUsesDoNotClash | pkg/inngest/inngest/_internal/step_lib/base.py:117-120 | so the step IDs that a finishing invocation uses do not clash |
| Sequential.ClashingNeverCompletes | pkg/inngest/inngest/experimental/mocked/trigger.py:59-205 | if every returning path of code without groups uses clashing IDs and no handler raises an error that bubbles, the loop never completes, from any state and in any environment |
| Sequential.SequentialReplaysIff | pkg/inngest/inngest/experimental/mocked/trigger.py:59-205 | in a quiet environment sequential code with a fixed list of steps completes with the value of a direct run if and only if its step IDs do not clash |
| Discovery.GroupDiscovery | pkg/inngest/inngest/_internal/step_lib/group.py:69-94 | without a target a group reports the first un-memoized step of each callback in order, runs as plans, and returns only when all are memoized, with one output each |
| Discovery.GroupWithoutTarget | pkg/inngest/inngest/_internal/step_lib/group.py:83-91 | a group without the target returns the outputs of its finished callbacks; one per callback if and only if none waits for a step |
| Discovery.FailedGroupLosesTarget | pkg/inngest/inngest/_internal/step_lib/group.py:69-94 | a callback that raises fails its group once its own steps have memos, whatever the others wait for; a target among them is not reached, and the answer is that the next step of the code after the group is unexpected |
| Discovery.HooksFireFirst | pkg/inngest/inngest/_internal/execution_lib/v0.py:212-216 | a sequential function with the memos of its first n steps fires the hooks exactly once, before the only handler that may start |
| Discovery.HooksFireAtLastPop | pkg/inngest/inngest/_internal/execution_lib/v0.py:212-216 | such an invocation goes through the states after k pops, and the hooks have fired there if and only if the k-th pop was the last memo |
| Counterexamples.ClashingNeverEnds | pkg/inngest/inngest/_internal/step_lib/base.py:117-120 | with IDs `foo`, `foo`, `foo:1` the direct run ends and the loop does not, for any number of invocations |
| Counterexamples.SharedIdDependsOnPick | pkg/inngest/inngest/experimental/mocked/trigger.py:61-62 | with one ID in two callbacks the result depends on which step `planned.pop()` takes first |
| Counterexamples.NestedGroupFails | pkg/inngest/inngest/_internal/step_lib/group.py:83-91 | a group in a callback gets too few outputs when another step is targeted, and the function fails |
| Counterexamples.StepInHandlerFails | pkg/inngest/inngest/_internal/execution_lib/v0.py:191-230 | a handler that contains a step fails in every attempt, for every environment, although the direct run ends |
| CaughtErrors.RaisingDependsOnPick | pkg/inngest/inngest/_internal/step_lib/group.py:77-84 | with a callback that raises after a step, beside another one with a step, and a step after the caught error: without retries the loop completes with the direct value if and only if the other step is picked first; with retries it always does |
| CaughtErrors.LaterErrorWins | pkg/inngest/inngest/_internal/step_lib/group.py:77-84 | of two callbacks that raise, the later one decides the error of the group as long as the first has a step to make, so that code which tells the errors apart completes with another value than the direct run |
| CaughtErrors.CaughtFaultIsKept | pkg/inngest/inngest/_internal/step_lib/group.py:77-84 | when user code catches the error of a group that the environment disturbs once, the loop completes with another value than the direct run, without an error |
| Counterexamples.HooksFireLate | pkg/inngest/inngest/_internal/execution_lib/v0.py:214-216 | in a group the hooks can fire after a handler, when a later callback's memo is popped last |
| Counterexamples.HandlerSucceedsTwice | pkg/inngest/inngest/_internal/step_lib/group.py:77-84 | a sibling callback that raises loses the answer of a handler that has returned, and the handler runs again |
| Counterexamples.EmptyObjectIsLost | pkg/inngest/inngest/_internal/step_lib/base.py:68-80 | a handler that returns `{}` is replayed as if it had returned null |
| Middleware.StackInversion | pkg/inngest/inngest/_internal/middleware_lib/manager.py:295-338 | the forward input pass undoes the reversed output pass for every stack whose members undo themselves on what reaches them |
| Middleware.MiddlewareManager.BeforeExecutionSync | pkg/inngest/inngest/_internal/middleware_lib/manager.py:158-174 | the hooks run on the first call only, up to the first that is asynchronous or raises, which decides the error; later calls succeed |
| Middleware.MiddlewareManager.TransformInputSync | pkg/inngest/inngest/_internal/middleware_lib/manager.py:235-250 | succeeds exactly if no middleware is asynchronous and no hook raises on any memo, and then every memo went through all hooks in order |
| Middleware.MiddlewareManager.TransformOutputSync | pkg/inngest/inngest/_internal/middleware_lib/manager.py:295-338 | on success a single result has error and output of the reversed output pass and its own opcode, the world is the pass's, and no layer was asynchronous; several results and empty ones are left alone; an error names the first layer from the end that is asynchronous or raises, and leaves the result as it was |
| Stores.TryBoxes | pkg/inngest_encryption/inngest_encryption/main.py:149-160 | the first key that opens the text decides; none means failure |
| Stores.EncryptRoundTripIff | pkg/inngest_encryption/inngest_encryption/main.py:121-160 | across a key rotation, encryption followed by decryption gives a value back if and only if it does not itself look sealed |
| Stores.InMemoryDriver.SaveStep | pkg/inngest/inngest/experimental/remote_state_middleware/in_memory_driver.py:57-75 | the placeholder loads the saved value, and no other placeholder loads anything else than before if the key is new |
| Stores.InMemoryDriver.LoadSteps | pkg/inngest/inngest/experimental/remote_state_middleware/in_memory_driver.py:38-55 | succeeds exactly if every placeholder is known, and then replaces each one's data and nothing else |
| StackLaws.StackRoundTrip | pkg/inngest/inngest/_internal/middleware_lib/manager.py:235-250 | every stack of remote-state and plain middleware with at most one encryption or decryption layer gives output back, whatever is saved later, if the value does not itself look like what a layer writes |
| StackLaws.StackMemoRoundTrip | pkg/inngest/inngest/_internal/function.py:234-241 | step output survives output hooks, storage, memo decoding and input hooks; even output that looks like nested output does, if a layer wraps it |
| ManagerLaws.Journey | pkg/inngest/inngest/_internal/middleware_lib/manager.py:235-250 | through the manager's own passes: what the output pass returns for a step is sealed or a reference if a layer wraps it, and the plain value if none does; the input pass gives the value back whatever was stored since |
| ManagerLaws.StackHides | pkg/inngest/inngest/_internal/middleware_lib/manager.py:325-334 | a stack with a wrapping layer sends a step's output as sealed data or a reference, never plain |
| ManagerLaws.EncryptionSeals | pkg/inngest_encryption/inngest_encryption/main.py:246-257 | encryption sends an unmarked value as the object with both markers and the sealed text, under a new nonce |
| ManagerLaws.RemoteStateRefers | pkg/inngest/inngest/experimental/remote_state_middleware/middleware.py:108-129 | remote state stores the output of `step.run` under a new key and sends a reference to it, and leaves other output alone |
| ManagerLaws.DecryptIs | pkg/inngest_encryption/inngest_encryption/main.py:140-160 | sealed data is opened with the first key that can and refused if none can; every other value passes as it is |
| ManagerLaws.LoadIs | pkg/inngest/inngest/experimental/remote_state_middleware/in_memory_driver.py:38-55 | a reference is loaded exactly if the store knows its key, and other values pass as they are |
| StackReplay.StackIsTransparent | pkg/inngest/inngest/_internal/function.py:224-241 | for every program the executor loop with a stack makes the same invocations with the same logs and ends like the loop without, and what it completes with is read back as the plain output |
| StackReplay.StackReplayEqualsDirect | pkg/inngest/inngest/experimental/mocked/trigger.py:59-205 | so for planned programs replay through a stack completes with the value of a run without memoization and middleware, if and only if not too many invocations answered an error |
| ManagerReplay.SendThroughManager | pkg/inngest/inngest/_internal/function.py:234-236 | the manager's output pass on an answer is what the loop of these theorems sends, for every kind of answer, stores included |
| ManagerReplay.ReceiveThroughManager | pkg/inngest/inngest/_internal/execution_lib/v0.py:269-275 | the manager's input pass on the decoded memos is what that loop gives the function, and fails exactly where it does |
| StackLaws.WrappedIsBare | pkg/inngest/inngest/_internal/step_lib/base.py:32-38 | sealed output and placeholders are never taken for nested output |
| StackLaws.EncryptedMemoRoundTrip | pkg/inngest_encryption/inngest_encryption/main.py:121-160 | under encryption every unmarked output survives storage, memo decoding and decryption, even one that would be misread without it |
| StackLaws.TwoEncryptions | pkg/inngest_encryption/inngest_encryption/main.py:122-127 | two encryptions seal once, with the inner key; input works if the outer keyring can open that and raises if it cannot |
| EventData.EventRoundTrip | pkg/inngest_encryption/inngest_encryption/main.py:162-226 | event data in which nothing looks encrypted arrives as it was sent, also across a key rotation, whatever the order of its keys |
| EventData.SentIsSealed | pkg/inngest_encryption/inngest_encryption/main.py:212-226 | exactly the configured field is sealed, with markers and text; the event is sent as it is exactly if the key only decrypts, the field is empty or it is marked already |
| EventData.WholeIsOpened | pkg/inngest_encryption/inngest_encryption/main.py:175-194 | data sealed as a whole arrives as the sealed fields over those beside them, and is refused if no key opens it or it is no object |
| EventData.OnlyFirstIsOpened | pkg/inngest_encryption/inngest_encryption/main.py:196-208 | of several sealed fields only the first in order is opened, and the event is refused if that fails |
| EventData.FieldGoesFirst | pkg/inngest_encryption/inngest_encryption/main.py:166-171 | the configured field is looked at first and the others in their order |
| EventData.SealedFieldIsOpened | pkg/inngest_encryption/inngest_encryption/main.py:197-208 | a field that is already sealed is sent as it is and arrives opened |
| ValueWatchers.ValueWatcher.Set | pkg/inngest/inngest/connect/_internal/value_watcher.py:60-71 | the lock section of the setter: equal writes change nothing; others commit, with old and new value and the registered queues and callbacks to notify |
| ValueWatchers.ValueWatcher.SetIf | pkg/inngest/inngest/connect/_internal/value_watcher.py:108-121 | compare and set: the answer is whether the old value met the condition; then the value is the new one, else nothing changed; a notice is given if and only if that changed the value, with old and new value and the registered queues and callbacks |
| ValueWatchers.ValueWatcher.RemoveQueue | pkg/inngest/inngest/connect/_internal/value_watcher.py:310-318 | the loop drops every entry of this queue and no entry of another, and keeps the order of the others |
| WatcherProtocol.ChangesConserved | pkg/inngest/inngest/connect/_internal/value_watcher.py:60-88 | in every run the changes form an old/new chain without equal writes, and each queue's taken, queued, scheduled and unposted changes are those committed while it was registered |
| WatcherProtocol.CallAnswers | pkg/inngest/inngest/connect/_internal/value_watcher.py:248-263 | `wait_for` returns at once exactly if it checks at once and the current value matches |
| WatcherProtocol.ChangeAnswers | pkg/inngest/inngest/connect/_internal/value_watcher.py:264-270 | a waiting call takes changes in order and returns the new value of one exactly if it matches |
| WatcherProtocol.CommitIs | pkg/inngest/inngest/connect/_internal/value_watcher.py:108-135 | a setter commits exactly if its guard holds of the old value and it writes another; then it goes on to post to every registered queue |
| WatcherProtocol.NeverStranded | pkg/inngest/inngest/connect/_internal/value_watcher.py:248-270 | in every run, if a call past its second check still waits while the current value matches, a matching change is on its way |
| WatcherProtocol.ReturnedWasCurrent | pkg/inngest/inngest/connect/_internal/value_watcher.py:248-270 | in every run a returned value meets the condition and was current after the call began |
| WatcherProtocol.UncheckedIsStranded | pkg/inngest/inngest/connect/_internal/value_watcher.py:284-289 | without the second check a matching value can be waited for in vain |
| WatcherProtocol.LateSetterOvertaken | pkg/inngest/inngest/connect/_internal/value_watcher.py:73-88 | two setters can post in the other order than they committed |
| Buffers.AddRefines | pkg/inngest/inngest/connect/_internal/buffer.py:56-96 | an accepted add puts the item last, evicts the shortest oldest part that makes room, keeps the others in order, and restores the limit |
| Buffers.EvictionsLeast | pkg/inngest/inngest/connect/_internal/buffer.py:76-86 | what is evicted makes room, and no shorter oldest part would |
| Buffers.ReAddMoves | pkg/inngest/inngest/connect/_internal/buffer.py:71-74 | adding an ID again with data that is no longer moves it to the newest place and evicts nothing |
| Buffers.SizeConstrainedBuffer.Create | pkg/inngest/inngest/connect/_internal/buffer.py:45-54 | a limit that is not positive is refused, any other gives an empty buffer |
| Buffers.SizeConstrainedBuffer.Add | pkg/inngest/inngest/connect/_internal/buffer.py:56-96 | the ordered dictionary and its size field follow the list specification, the eviction calls are the evicted IDs in order, an oversized add changes nothing |
| Buffers.SizeConstrainedBuffer.MakeRoom | pkg/inngest/inngest/connect/_internal/buffer.py:78-86 | the eviction loop removes exactly the least oldest part that makes room |
| Buffers.SizeConstrainedBuffer.Get | pkg/inngest/inngest/connect/_internal/buffer.py:98-106 | finds the data of an item with this ID, and nothing exactly if there is none; changes nothing |
| Buffers.SizeConstrainedBuffer.Delete | pkg/inngest/inngest/connect/_internal/buffer.py:108-119 | removes exactly the item with this ID, keeps the others in order, and says whether there was one |
| Buffers.SizeConstrainedBuffer.GetOlderThan | pkg/inngest/inngest/connect/_internal/buffer.py:121-133 | a pair is listed if and only if some item has this ID and data and was added at or before now minus `seconds`; each once, in the order of the buffer |
| Replies.RepliesConserved | pkg/inngest/inngest/connect/_internal/execution_handler.py:476-499 | in every run, every accepted reply is in exactly one place: buffered, acknowledged, evicted, replaced or removed by the poller |
| Replies.SnapshotIsBuffered | pkg/inngest/inngest/connect/_internal/execution_handler.py:487 | a poller snapshot lists buffered replies, each once, with their own data |
| Replies.PollTakesOldIff | pkg/inngest/inngest/connect/_internal/execution_handler.py:486-487 | in every run, a poll takes in exactly the buffered replies whose last accepted add was at least the lease interval before |
| Replies.PollKeepsOrder | pkg/inngest/inngest/connect/_internal/buffer.py:126-133 | and in the order of the buffer |
| Replies.PollerRemovesOnlyFlushed | pkg/inngest/inngest/connect/_internal/execution_handler.py:486-497 | what the poller removes it has tried to send, if no ID it is working through is added again |
| Replies.TakesUnsentIff | pkg/inngest/inngest/connect/_internal/execution_handler.py:486-497 | in every run, the end of a flush takes out a reply that was never sent if and only if one was added under the flushed ID since the poll, nothing took it out or replaced it since, and that very reply was not sent |
| Replies.AlwaysSentIff | pkg/inngest/inngest/connect/_internal/execution_handler.py:486-497 | throughout a run the poller takes out only what it has sent if and only if no flush ended with its reply overtaken like that |
| Replies.FreshRepliesOnce | pkg/inngest/inngest/connect/_internal/execution_handler.py:476-499 | with fresh IDs each reply is buffered or was removed once by acknowledgement, eviction or poller, is sent to the flush endpoint at most once, and removed by the poller only after that |
| Replies.OvertakenReplyIsLost | pkg/inngest/inngest/connect/_internal/execution_handler.py:494-497 | a second reply for an ID that is being flushed is deleted without ever being sent there |
| Handshakes.DurationRoundTrip | pkg/inngest/inngest/connect/_internal/init_handshake_handler.py:282-300 | a printed number of seconds is read back exactly |
| HandshakeLaws.DurationIff | pkg/inngest/inngest/connect/_internal/init_handshake_handler.py:282-300 | a text is read as n seconds if and only if it is n in decimal, perhaps behind zeros, and an `s`; a final line break is allowed |
| HandshakeLaws.InitialisedIff | pkg/inngest/inngest/connect/_internal/init_handshake_handler.py:89-170 | in every run the handshake counts as complete if and only if a READY was accepted and no HELLO since; a reset alone does not take it back |
| HandshakeLaws.LeaseIff | pkg/inngest/inngest/connect/_internal/init_handshake_handler.py:140-166 | in every run the lease interval is n if and only if n is the worker's own setting and a READY was accepted, or the last accepted READY with a readable interval named it |
| Handshakes.InitHandshakeHandler.HandleMsg | pkg/inngest/inngest/connect/_internal/init_handshake_handler.py:89-170 | the state machine step, branch by branch: a HELLO or any message before the sync is sent replaces an unfinished sync task by a new one, a valid READY that is waited for completes the handshake and sets the lease interval, and every other message changes nothing |
| Handshakes.InitHandshakeHandler.EndSync | pkg/inngest/inngest/connect/_internal/init_handshake_handler.py:194-210 | a completed send moves to waiting for READY from whatever state the handshake is in, a failed one does not |
| Handshakes.InitHandshakeHandler.Reset | pkg/inngest/inngest/connect/_internal/init_handshake_handler.py:82-87 | the reset touches the state only, so a sync task goes on |
| Handshakes.HandshakeOrder | pkg/inngest/inngest/connect/_internal/init_handshake_handler.py:89-210 | in every run at most one sync task is live, and moves to ACTIVE, completed sends and accepted HELLOs are ordered |
| Handshakes.HelloHonouredIff | pkg/inngest/inngest/connect/_internal/init_handshake_handler.py:82-106 | after a reset the next HELLO starts a sync if and only if no earlier task completed its send in between, and at most one can |
| Handshakes.LateTaskDropsHello | pkg/inngest/inngest/connect/_internal/init_handshake_handler.py:194-210 | a run in which a late task makes the handler drop the HELLO of the new connection |
| Handshakes.IgnoresAllButReady | pkg/inngest/inngest/connect/_internal/init_handshake_handler.py:126-132 | from there only a READY or another reset changes anything |
| Requests.PendingRequestManager.Add | pkg/inngest/inngest/connect/_internal/execution_handler.py:27-34 | raises the count by one also when the ID is live and the entry is only replaced: the overwrite that `CountIsExact` counts and that blocks shutdown |
| Requests.PendingRequestManager.Get | pkg/inngest/inngest/connect/_internal/execution_handler.py:43-44 | the entry of an ID, if there is one |
| Requests.PendingRequestManager.Pop | pkg/inngest/inngest/connect/_internal/execution_handler.py:51-55 | removes the entry and lowers the count by one exactly if there was one |
| Requests.CountIsExact | pkg/inngest/inngest/connect/_internal/execution_handler.py:22-55 | in every run count = entries + overwrites; it equals the entries, and is zero when nothing runs, if and only if no live ID was used again |
| Requests.FreshEntriesAreRunning | pkg/inngest/inngest/connect/_internal/execution_handler.py:196-205 | with fresh IDs the entries are exactly the running tasks and the count is their number |
| Requests.ReusedIdNeverDrains | pkg/inngest/inngest/connect/_internal/execution_handler.py:196-205 | two tasks with one ID end and the count stays at one |
| Shutdown.GracefulShutdown | pkg/inngest/inngest/connect/_internal/base_handler.py:69-85 | in every run no close sequence passes its wait while a request runs, and CLOSED is reached with one running only by the timeout |
| Shutdown.ReuseBlocksShutdown | pkg/inngest/inngest/connect/_internal/execution_handler.py:27-55 | once a live request ID was reused, no close sequence passes its wait, so CLOSED needs the timeout |
| Shutdown.CountNeverRises | pkg/inngest/inngest/connect/_internal/execution_handler.py:140-174 | once the execution handler is closing no request is accepted and the count never rises, whatever happens |
| WorkerLaws.ConnectionStateIs | pkg/inngest/inngest/connect/_internal/models.py:43-68 | every event's effect on the connection state, `conn_init` and `ws`: which event leads to which state, from where, and that no other writes them |
| WorkerLaws.RunLoopIs | pkg/inngest/inngest/connect/_internal/isolated_worker.py:75-124 | every event's effect on the run loop: when it opens, wakes, goes round, quits or ends, and that otherwise only a change of `conn_init` moves it |
| WorkerLaws.StartRequestIs | pkg/inngest/inngest/connect/_internal/conn_init_starter.py:89-210 | the start request begins only without `conn_init`, and is over for good after CLOSED, on giving up or when cancelled |
| WorkerLaws.FatalIff | pkg/inngest/inngest/connect/_internal/conn_init_starter.py:89-210 | in every run there is a fatal error if and only if a start request has given up |
| Closed.ClosedIsAbsorbing | pkg/inngest/inngest/connect/_internal/isolated_worker.py:247-257 | in every run without a timeout CLOSED is never left by any task or the main thread |
| Closed.ClosedIsFinalIff | pkg/inngest/inngest/connect/_internal/init_handshake_handler.py:89-170 | with timeouts: in every run that reached CLOSED no continuation leaves it if and only if no more messages can be read (no connection is read or about to be opened, or `conn_init` is not set and no start request is under way), or the handshake can no longer get to wait for a READY (it does not wait for one, no sync request is being sent, and none can be: no socket is or will be there, or the handshake is complete with neither a sync task nor a reset due) |
| Closed.TimeoutLeavesClosed | pkg/inngest/inngest/connect/_internal/isolated_worker.py:259-277 | a run in which the wait times out and CLOSED is left for ACTIVE: an earlier sync request is still being sent when a drain restarts the connection, and its READY is read after the start request has answered |
| WorkerHandshake.WorkerFollowsHandler | pkg/inngest/inngest/connect/_internal/init_handshake_handler.py:89-210 | in every run of the worker its handshake is where some run of the handshake handler takes it, sync task included, so what is proved of the handler's runs holds in the worker |
| RunLoop.NeverEndsIff | pkg/inngest/inngest/connect/_internal/isolated_worker.py:90-124 | in every run that reached CLOSED without a timeout: no continuation ends the run loop if and only if it waits for a change of `conn_init` |
| RunLoop.GetsStuckIff | pkg/inngest/inngest/connect/_internal/isolated_worker.py:75-102 | and some continuation makes it wait for ever if and only if it waits, opens a connection, or has an endpoint to open one |
| RunLoop.CloseHangsIff | pkg/inngest/inngest/connect/_internal/isolated_worker.py:247-257 | the end of the close sequence stops the run loop for good if and only if the loop waits with `conn_init` already cleared |
| RunLoop.MissedOnlyByOpening | pkg/inngest/inngest/connect/_internal/isolated_worker.py:90-102 | such a wait begins only with a connection that opens after `conn_init` was cleared |
| RunLoop.MissedChangeHistory | pkg/inngest/inngest/connect/_internal/isolated_worker.py:90-102 | in every run that got there such an opening took place, and since then the loop did nothing and `conn_init` was not set |
| RunLoop.OnlyLateFailuresMiss | pkg/inngest/inngest/connect/_internal/ws_utils.py:14-33 | in every run in which no send fails that outlived its connection, the loop waits with `conn_init` already cleared only once CLOSED is reached |
| RunLoop.CloseDuringOpenHangs | pkg/inngest/inngest/connect/_internal/isolated_worker.py:90-102 | if the close sequence finishes while the connection is being opened and it then opens, the run loop waits for ever |
| RunLoop.HangIsReachable | pkg/inngest/inngest/connect/_internal/isolated_worker.py:90-102 | a run that reaches CLOSED while the connection is being opened |
| RunLoop.StuckIsReachable | pkg/inngest/inngest/connect/_internal/isolated_worker.py:90-102 | a run in which a heartbeat fails only while the next connection opens, and the loop is stuck already when `_close` reaches CLOSED |
| WorkerState.IsolatedWorker.CloseSocket | pkg/inngest/inngest/connect/_internal/models.py:43-54 | `close_ws` leaves RECONNECTING, or CLOSED if it was that, clears `conn_init` and `ws`, wakes a run loop that waits if `conn_init` was set, and makes the handshake's reset due |
| WorkerState.IsolatedWorker.SetConnInit | pkg/inngest/inngest/connect/_internal/value_watcher.py:60-88 | a write to `conn_init` wakes a waiting run loop if and only if it changes the value |
| WorkerState.IsolatedWorker.Close | pkg/inngest/inngest/connect/_internal/connection.py:318-339 | the main thread's compare and set leaves CLOSING and schedules one close, exactly if it was in neither CLOSING nor CLOSED |
| WorkerState.IsolatedWorker.CloseHandlers | pkg/inngest/inngest/connect/_internal/base_handler.py:69-85 | the loop leaves no handler open and the close sequences that had started as they were |
| WorkerState.IsolatedWorker.BeginClose | pkg/inngest/inngest/connect/_internal/isolated_worker.py:247-253 | `_close` after the pause message is the specified event, after which no handler is open |
| WorkerState.IsolatedWorker.EndClose | pkg/inngest/inngest/connect/_internal/isolated_worker.py:255-257 | `_close` after its wait reaches CLOSED without `conn_init`, timed out exactly if a handler is not shut, and wakes a waiting run loop only if `conn_init` was set |
| WorkerState.IsolatedWorker.LeaveLoop | pkg/inngest/inngest/connect/_internal/isolated_worker.py:118-121 | the end of `run` closes the handlers unless `_close` did, so that none is left open |
| WorkerState.IsolatedWorker.EndLoop | pkg/inngest/inngest/connect/_internal/isolated_worker.py:122-124 | after its wait `run` ends in CLOSED with `conn_init` and `ws` cleared |
| WorkerState.IsolatedWorker.HandleRequest | pkg/inngest/inngest/connect/_internal/execution_handler.py:166-205 | a request with a payload for a known app starts one task under its ID and raises the count by one while the execution handler is open, and nothing else does |
| WorkerState.IsolatedWorker.HandleHandshake | pkg/inngest/inngest/connect/_internal/init_handshake_handler.py:89-170 | the handshake's part of a message as specified: ACTIVE only for a valid READY that the handshake waits for, and every message before the sync request is sent starts the sync task again |
| WorkerState.IsolatedWorker.Dispatch | pkg/inngest/inngest/connect/_internal/isolated_worker.py:137-186 | a message is handled only while `conn_init` is set, and then changes the handshake, the requests and the handlers as the specified event does; without it the reader ends, and without it or with a closing execution handler no request is accepted |

## Left out

- Replay.ExecPlan: no plan exists for programs that nest a group in a callback, use an ID of a callback's later steps
  in a later callback, catch errors around a group whose callbacks the environment can make raise, have a callback
  that raises after steps beside another one that raises, or beside one with steps and before code with steps, let a
  handler contain steps or always raise, or reach an unstubbed invoke, wait or AI step. Those with a direct run are
  in `Counterexamples`, `CaughtErrors` and `Discovery`; `EngineLaws` and `StackReplay` cover all of them.
- TriggerLaws.ReplayEqualsDirect: an if and only if for the answered errors, and for the step IDs of sequential code;
  the other conditions are sufficient, and for each there is a program that breaks it and has another result, but no
  single condition is proved necessary for all programs.
- Machine.Execution.BeforeExecution: the hooks themselves are functions that raise or not; what else they do is not
  modelled.
- Machine.Execution.Run: input hooks and `after_execution` are not in the class; input hooks are in `StackReplay`.
- Machine.Invoke: output hooks and `before_response` are not in the class; output hooks are in `StackReplay`.
- StackReplay.StackReplayEqualsDirect: excludes values that look like placeholders even where remote state would wrap
  them; `StackMemoRoundTrip` covers those for a single step.
- StackLaws.StackRoundTrip: stacks with two encryptions are in `TwoEncryptions` only.
- Machine.Trigger: the number of calls per invocation and of invocations is bounded by parameters, since Dafny cannot
  see that user code ends; the theorems hold for every number of calls that lets the direct run end, and for every
  number of invocations from the proved bound on.
- WatcherProtocol.CommitIs: the `on_change` callbacks are in the notice of `Set` and `SetIf`; the transition system has
  no event for calling them, since nothing else depends on it.
- Handshakes.DurationRoundTrip: digits other than ASCII, which the pattern also accepts, are not modelled.
- WorkerState.IsolatedWorker.Dispatch: the branch for a missing connection ID, which the code calls unreachable, is
  not modelled.
- RunLoop.OnlyLateFailuresMiss: heartbeats, replies and lease extensions are one number of sends under way; which of
  them fails does not matter to the worker's state.
- Asynchronous twins of the execution, step and middleware classes: same branches as the synchronous ones.
- SHA-1 is represented by the hashed text itself, that is, as injective; secret boxes and the JSON codec are functions
  with a stated round trip.
- Middleware other than encryption, remote state and plain layers during replay, and hooks that raise there.
- User code that catches `BaseException`, pydantic serializers, `invoke` payload encryption, and mutation of a value
  through an alias.
- `send_event`, `wait_for_event`, `sleep` argument parsing and the AI adapters: they report one step each.
- Heartbeats, leases, protobuf, WebSocket frames, HTTP, signing keys, clocks and retry intervals: messages are
  datatypes, times are numbers, and waiting is an event that may or may not come.
- Event loops shared by several waiters: each waiter has its own, which allows more interleavings.
- Failures of `handler.start` before the run loop, cancellation of the whole worker, and tasks that are cancelled when
  the loop shuts down.
- Framework adapters, registration, the S3 driver, Sentry, realtime, the dev server, timings and logging.
