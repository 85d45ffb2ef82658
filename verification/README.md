# A verified model of trio-asyncio

trio-asyncio is an asyncio event loop that runs on Trio. This project models its hard core in
Dafny and proves properties of it over every run and every interleaving:

- `Exceptions.dfy`: traceback concatenation, `collapse_exception_group` and
  `collapse_aware_exception_split`, on exception trees.
- `TaskFutures.dfy`: the protocol between an asyncio future, the Trio task that computes its
  result (`AsyncHandle`) and a Trio task that waits for it (`run_aio_future`).
- `Scheduler.dfy`, `SchedulerTheorems.dfy`, `SchedulerProgress.dfy`, `SchedulerReach.dfy`,
  `SchedulerCalls.dfy`, `EventLoop.dfy`: the main loop, its channel, timers, stop protocol and exit.
- `OpenLoop.dfy`, `OpenLoopEnds.dfy`: the teardown of `open_loop`, composed with the scheduler, and
  when its waits end.
- `IoRegistry.dfy`: reader and writer handles and their I/O tasks.
- `AsyncGenDispatcher.dfy`: the reference-counted async generator hooks.
- `SyncLoop.dfy`, `SyncTheorems.dfy`, `Greenlets.dfy`: the restartable loop and its greenlet switches.
- `Bridges.dfy`: the `allow_asyncio` trampoline, the reads of an asyncio iterator by a Trio task,
  and iterators bridged there and back.

Each part is first a state machine over values: a run is a sequence of events, an event that
cannot happen changes nothing, and so a statement about all sequences is a statement about all
interleavings. Where the source updates an object in place there is also a class whose methods
are proved to make exactly the transitions of the state machine, so that what is proved of the
transitions holds of the class. Callbacks are finite lists of what they ask of the loop, each
scheduled callback with a list of its own. Time is a monotone integer clock that may advance
between any two steps.

What is assumed of the environment: a Trio task that is started takes its first step; Trio
aborts a wait at most once; a cancel scope, on exit, removes Cancelled exceptions only if its
own cancellation is in force; `heapq` pops an element with a minimal deadline, any one of
several; `BaseExceptionGroup.split` and `derive` behave as in PEP 654, section
"ExceptionGroup and BaseExceptionGroup".

## Where the obvious claim is not what the code does

- The documentation of `run_aio_future` says that `trio.Cancelled` is raised when the future
  was cancelled and the waiting task was, too. It is also raised, in place of the exception,
  when the wait was aborted and the Trio callback leaked a bare `asyncio.CancelledError`:
  `DocumentedRuleCanFail` gives a run and `DocumentedRuleHoldsIff` the exact condition.
- The comment at `trio_asyncio/_handles.py:202-206` ends by saying that BaseExceptions other
  than Cancelled keep propagating. The code gives them all to the future; `LeavesAreRouted`
  states what it does.
- `stop()` on a loop that has not started yet disarms later calls: `StopIsPostedIff` gives the
  exact condition, `WhatStopsAnOrphan` says what can still stop such a loop, and
  `StopBeforeStartHangs` when nothing does. `open_loop` starts the loop before anyone can stop it.
- `open_loop` promises that callbacks queued in the body get their turn before the shutdown. A
  nursery task that raises, or an earlier stop, breaks that: `BodyCallbacksComeFirst` gives the
  exact condition, `CutBeforeCallbacks` a run. After such a failure no asyncio task is waited
  for: `FailureLeavesTasksPending`.
- A Trio task can be lost although it was queued while the nursery was open:
  `QueuedInTimeAndLost`; `LateTasksAreLost` says exactly which tasks are lost, and
  `ExitFailsIff` what that does to the exit.
- The exit can wait for ever, for the tasks or for the async generators, if a stop() or a late
  Trio task ends the loop before the callback that they need: `ClosingEndsIff` and
  `FinalizingEndsIff` say exactly when, `AwaitingTaskHangs` and `FinalizingCanHang` give runs.
- An exit whose drain fails closes the loop without giving its reference to the async generator
  dispatcher back: `SharedDispatcher` counts it, `FailedExitLeavesHooks` and `ExitCanFail` give
  runs, and `HooksBackIff` says when the hooks come back.
- In a synchronous loop, a stop can outlive the `run_until_complete` that it ended and stop the
  next one: `StopOutlivesItsRun`; `StopLeftIff` says exactly when, `StopEndsTheNextRun` what
  comes of it.
- A surviving exception group in which something was collapsed is a new group and has lost
  its traceback: `DerivedGroupLosesItsTraceback`, `SurvivorKeepsTracebackIff`.
- `run_aio_generator` can be left waiting for ever, and cannot be cancelled then: `HangsIff`.

## Model

| member | source | states |
|---|---|---|
| Tracebacks.ConcatTb | trio_asyncio/_handles.py:59-73 | the two loops append the tail's frames to the head's |
| Tracebacks.AppendConcatenates | trio_asyncio/_handles.py:59-73 | appending tracebacks concatenates their frames |
| ExceptionTrees.CollapseExceptionGroup | trio_asyncio/_handles.py:77-102 | the in-place list loop computes the collapsed tree, and returns the very argument exactly when nothing collapses |
| ExceptionTrees.CollapseUnchangedIff | trio_asyncio/_handles.py:94-102 | the result equals the argument iff no flagged single-exception group occurs at any depth |
| ExceptionTrees.CollapseMeaning | trio_asyncio/_handles.py:77-102 | the bottom-up code agrees with an outside-in description of every surviving node, its traceback and flag included |
| ExceptionTrees.CollapseKeepsLeaves | trio_asyncio/_handles.py:77-102 | the leaves and their order are kept |
| ExceptionTrees.CollapseIsComplete | trio_asyncio/_handles.py:77-102 | no flagged single-exception group is left at any depth; collapsing twice changes nothing more |
| ExceptionTrees.CollapseKeepsValid | trio_asyncio/_handles.py:94-102 | groups stay nonempty, and an ExceptionGroup still holds only Exceptions |
| ExceptionTrees.ChainTraceback | trio_asyncio/_handles.py:94-98 | along a chain that collapses completely the tracebacks concatenate, outermost first |
| ExceptionTrees.SurvivorKeepsTracebackIff | trio_asyncio/_handles.py:99-102 | a surviving group keeps its own traceback iff that is empty or nothing inside the group is dropped |
| ExceptionTrees.DerivedGroupLosesItsTraceback | trio_asyncio/_handles.py:99-100 | a concrete surviving group whose frames are lost |
| ExceptionTrees.SplitPartitions | trio_asyncio/_handles.py:112 | split is an order-preserving partition of the leaves by type, the whole-group shortcut for Exception included |
| ExceptionTrees.SplitKeepsPaths | trio_asyncio/_handles.py:112 | on either side every leaf keeps its frames and has above it the flags and frames of the groups it had |
| ExceptionTrees.CollapseAwareSplitPartitions | trio_asyncio/_handles.py:105-117 | match and rest partition the leaves by type in order; a side is None iff it has no leaf |
| ExceptionTrees.CollapseAwareSplitMeaning | trio_asyncio/_handles.py:105-117 | each side is what survives, told from the outside in, of the tree pruned to the leaves of that side; tracebacks and flags included |
| ExceptionTrees.CollapseAwareSplitCollapses | trio_asyncio/_handles.py:113-116 | neither side holds a group that could still be collapsed |
| ExceptionTrees.SplitTwice | trio_asyncio/_handles.py:105-117 | splitting Cancelled off twice changes nothing the second time |
| ExceptionTrees.RestIsUnchangedIff | trio_asyncio/_handles.py:105-117 | exactly which exceptions pass the split unchanged |
| TaskProtocol.FutureLifecycle | trio_asyncio/_handles.py:140-214 | over all interleavings the future is pending until the run exits, is resolved once, never twice, and holds what the callback's end and the last cancel message determine |
| TaskProtocol.FutureIsFinal | trio_asyncio/_handles.py:143-158 | a done future never changes again |
| TaskProtocol.CallbackRunsUnlessCancelled | trio_asyncio/_handles.py:162-178 | with or without a future, the first step gets into the callback iff the handle has not been cancelled by then; a task that is over without having been there had been cancelled |
| TaskProtocol.HistoryIsTrue | trio_asyncio/_handles.py:133-178 | over all interleavings, who has cancelled, with which messages, how the callback ended and whether the wait was aborted are as the events say |
| TaskProtocol.CancelledBeforeStart | trio_asyncio/_handles.py:165-171 | a handle cancelled before its first step never runs its callback and its future ends cancelled |
| TaskProtocol.LeavesAreRouted | trio_asyncio/_handles.py:173-214 | every leaf that leaves the scope goes to exactly one place: future or re-raise, handler or re-raise |
| TaskProtocol.PartsAreRouted | trio_asyncio/_handles.py:188-214 | and these are the very parts of the exception that the split makes, tracebacks and all |
| TaskProtocol.LeaveIsRight | trio_asyncio/_handles.py:173-214 | the outcome does not depend on whether the scope has absorbed the Cancelled leaves |
| TaskProtocol.AbortReachesTheTask | trio_asyncio/_util.py:33-40 | aborting the wait of a pending future cancels the Trio task behind it |
| TaskProtocol.WaiterOutcome | trio_asyncio/_util.py:25-54 | what the waiting task sees, both directions, and that it is rescheduled once and only while waiting |
| TaskProtocol.DocumentedRuleHoldsIff | trio_asyncio/_util.py:14-20 | the documented rule holds iff not (aborted and a bare asyncio.CancelledError was leaked) |
| TaskProtocol.DocumentedRuleCanFail | trio_asyncio/_util.py:42-54 | a run in which it fails |
| TaskProtocol.ExceptionArrivesUnchangedIff | trio_asyncio/_base.py:293-326 | exactly when the callback's exception reaches the waiting task as it was |
| TaskProtocol.WaiterComesBack | trio_asyncio/_util.py:28-44 | a waiter whose future is done is always brought back |
| TaskFutures.Future.SetOutcome | trio_asyncio/_handles.py:181-186 | a result is only ever set on a pending future |
| TaskFutures.Future.OrigCancel | trio_asyncio/_handles.py:141-151 | the future's own cancel resolves a pending future and reports so |
| TaskFutures.AsyncHandle.constructor | trio_asyncio/_handles.py:133-160 | a new handle is queued and unresolved |
| TaskFutures.AsyncHandle.Cancel | trio_asyncio/_handles.py:32-34 | cancelling the handle cancels its scope |
| TaskFutures.AsyncHandle.WrappedCancel | trio_asyncio/_handles.py:143-158 | cancelling the future is one step of the protocol; accepted iff the future was pending |
| TaskFutures.AsyncHandle.CancelFuture | trio_asyncio/_handles.py:143-158 | the same in the middle of the run, with the message rules |
| TaskFutures.AsyncHandle.Enter | trio_asyncio/_handles.py:162-171 | the first step of the run is one step of the protocol |
| TaskFutures.AsyncHandle.Leave | trio_asyncio/_handles.py:173-214 | the rest of the run is one step of the protocol and leaves the future done |
| TaskFutures.AsyncHandle.HandleEscaped | trio_asyncio/_handles.py:188-214 | the except clause routes what has escaped |
| TaskFutures.FutureWait.constructor | trio_asyncio/_util.py:25-31 | starting to wait, on a pending or a done future |
| TaskFutures.FutureWait.AbortCb | trio_asyncio/_util.py:33-40 | the abort is one step of the protocol and never succeeds |
| TaskFutures.FutureWait.DoneCb | trio_asyncio/_util.py:28-29 | the done-callback reschedules the task, once |
| TaskFutures.FutureWait.Resume | trio_asyncio/_util.py:42-54 | the except clause yields what the protocol says |
| Scheduler.InvStep | trio_asyncio/_base.py:703-805 | every step of the loop and of its surroundings keeps the scheduler's invariant |
| Scheduler.InvRun | trio_asyncio/_base.py:703-805 | hence every run does |
| Scheduler.PickMin | trio_asyncio/_base.py:738-742 | what the heap yields has a minimal deadline |
| SchedulerTheorems.EachHandleInOnePlace | trio_asyncio/_base.py:736-778 | at every moment each handle ever queued is in exactly one place |
| SchedulerTheorems.ExitAccounting | trio_asyncio/_base.py:780-813 | after the exit each timer has fired once, been skipped or been swept, each other handle has run once, been skipped or, a late task, been lost; skipped and swept ones are cancelled |
| SchedulerTheorems.RunInOrder | trio_asyncio/_base.py:768-778 | callbacks run and tasks take their first step in submission order, at most once, and nothing later is consumed while a task starts |
| SchedulerTheorems.RunIsABarrier | trio_asyncio/_base.py:494-507 | once a callback has run everything queued before it is settled, as synchronize() promises |
| SchedulerTheorems.StopSettlesWhatCameBefore | trio_asyncio/_base.py:716-731 | everything queued before the effective stop is settled when the loop stops |
| SchedulerTheorems.NeverRunsOnceCancelled | trio_asyncio/_base.py:773-776 | a handle cancelled before it runs never runs |
| SchedulerTheorems.CancelPreventsRunning | trio_asyncio/_base.py:773-776 | cancelling a handle that has not run keeps it from running |
| SchedulerTheorems.TimersFireInTime | trio_asyncio/_base.py:738-742 | no timer fires before its deadline or twice |
| SchedulerTheorems.FiresTheEarliest | trio_asyncio/_base.py:738-742 | a timer that fires is due and minimal among those in the heap, also when the loop receives something late |
| SchedulerTheorems.CallLaterWaits | trio_asyncio/_base.py:357-370 | a call_later callback never fires before its delay is over |
| SchedulerCalls.RunIsLater | trio_asyncio/_base.py:703-805 | the results below, about any later state, hold of every continuation of a run |
| SchedulerCalls.CallSoonRuns | trio_asyncio/_base.py:384-388 | the very callback runs or, cancelled by somebody, is skipped, and is never kept for later |
| SchedulerCalls.CallAtWaits | trio_asyncio/_base.py:373-382 | the very callback fires at the deadline asked for or after it, and the exit sweeps it only before that |
| SchedulerCalls.CallLaterIsCallAt | trio_asyncio/_base.py:357-371 | the same for call_later, counted from the clock at the call |
| SchedulerCalls.SynchronizeRuns | trio_asyncio/_base.py:494-507 | synchronize()'s callback has run when the loop is closed |
| SchedulerCalls.RunTaskStarts | trio_asyncio/_base.py:768-772 | the task starts, unless it was cancelled before or came after the nursery was closed |
| SchedulerCalls.ClosedLoopRefuses | trio_asyncio/_async.py:12-15 | a closed loop queues nothing and refuses each such call |
| SchedulerCalls.RunsItsScript | trio_asyncio/_base.py:773-778 | a callback that runs or fires makes the calls it consists of, in order, and nothing else happens |
| SchedulerCalls.OnlyAskedIsCancelled | trio_asyncio/_base.py:402-405 | nothing is cancelled but what somebody has cancelled by its number or the exit has swept |
| SchedulerCalls.RunIsHeard | trio_asyncio/_base.py:703-734 | clock, nursery and start are as the run says |
| SchedulerTheorems.EveryCallIsAccountedFor | trio_asyncio/_base.py:357-388 | the handles queued and the calls refused are together as many as callbacks that ran and other code have asked for |
| SchedulerProgress.StopIsReachable | trio_asyncio/_base.py:726-772 | from every reachable state with a stop_me in the channel, StopRank turns of first steps and iterations alone stop the loop: waiting for a task to start never holds up a stop |
| SchedulerProgress.StopComes | trio_asyncio/_base.py:727-734 | with a stop_me in the channel the loop stops within a bound that later work does not raise |
| SchedulerProgress.ExitNeverDeadlocks | trio_asyncio/_async.py:59-86 | stop() and wait_stopped() complete after any number of earlier stops, if the loop was not stopped before it started |
| SchedulerProgress.StopIsPostedIff | trio_asyncio/_async.py:70-86 | stop() on the running loop has its stop_me in the channel iff nobody called stop() before the main loop started |
| SchedulerProgress.WhatStopsAnOrphan | trio_asyncio/_async.py:70-83 | otherwise no stop() ever stops the loop, in any continuation: only a stop(waiter) or a task that comes after the nursery was closed does |
| SchedulerProgress.StopBeforeStartHangs | trio_asyncio/_async.py:70-83 | so with the nursery open and no stop(waiter) pending or to come it runs for ever |
| SchedulerProgress.StopBeforeStartDisarms | trio_asyncio/_async.py:70-83 | a run that meets all these conditions |
| SchedulerProgress.DrainEnds | trio_asyncio/_base.py:799-805 | the drain makes no more iterations than there is work |
| SchedulerProgress.IterateWork | trio_asyncio/_base.py:736-778 | an iteration that finds something to do leaves less work |
| SchedulerProgress.DrainEndsEmpty | trio_asyncio/_base.py:799-813 | it ends exactly with an empty channel and no timer due, cancels the rest, and swallows stops |
| SchedulerProgress.StopsAreAnswered | trio_asyncio/_async.py:78-86 | when the loop is closed the event of every stop_me ever queued is set |
| SchedulerCalls.StopsAreAnsweredIff | trio_asyncio/_async.py:59-86 | the event of a stop is set, or its stop_me queued, iff a callback that ran or other code has asked for that stop; in a closed loop it is set |
| SchedulerCalls.StopAnsweredAtOnce | trio_asyncio/_async.py:82-83 | a stop of a loop that is not running has its event set at once |
| SchedulerReach.StepKeepsCutOff | trio_asyncio/_base.py:726-734 | once a handle that ends the loop is queued before a given place, or the loop has stopped before it, nothing but the drain ever gets there |
| SchedulerReach.SkipAdvances | trio_asyncio/_base.py:736-778 | a running loop can get past any other handle, and runs a callback that nobody can cancel |
| EventLoops.EventLoop.constructor | trio_asyncio/_base.py:207-234 | a new loop is empty and not started |
| EventLoops.EventLoop.QueueHandle | trio_asyncio/_async.py:12-15 | queueing appends to the channel; a closed loop refuses |
| EventLoops.EventLoop.StopLoop | trio_asyncio/_async.py:59-86 | stop() with and without an event is one action of the model |
| EventLoops.EventLoop.Cancel | trio_asyncio/_base.py:357-388 | cancelling a handle that was given out |
| EventLoops.EventLoop.RunCallback | trio_asyncio/_base.py:773-778 | a callback runs, or is skipped when cancelled |
| EventLoops.EventLoop.Receive | trio_asyncio/_base.py:746-772 | timers go to the heap, tasks are started, others run |
| EventLoops.EventLoop.MainLoopOne | trio_asyncio/_base.py:736-778 | one iteration is one transition of the model, a receive after a deadline has passed included |
| EventLoops.EventLoop.TaskStarts | trio_asyncio/_base.py:771-772 | the first step of the task being started |
| EventLoops.EventLoop.Turn | trio_asyncio/_base.py:726-734 | one turn of the main loop, with what happens at its await, is a run of the model |
| EventLoops.EventLoop.MainLoop | trio_asyncio/_base.py:703-734 | the main loop does a run of the model until stopped; with a stop_me in the channel StopRank iterations are enough |
| EventLoops.EventLoop.CancelTimers | trio_asyncio/_base.py:402-405 | every timer in the heap is cancelled and removed |
| EventLoops.EventLoop.DrainOne | trio_asyncio/_base.py:799-805 | one turn of the drain is one transition of the model |
| EventLoops.EventLoop.DrainAndClose | trio_asyncio/_base.py:793-818 | the drain, with whatever other code does at its awaits, is a run of the model and terminates if that asks for finite work; on success nothing is left and only timers that were not due have been swept |
| OpenLoop.InvStep | trio_asyncio/_loop.py:468-624 | every event of the body, the tasks, the loop and the teardown keeps the invariant, a failing nursery task included |
| OpenLoop.TeardownIsSafe | trio_asyncio/_loop.py:463-624 | the inner nursery closes only after all its Trio tasks and, unless a failing task has cut that short, all pending asyncio tasks are done; the closed loop has processed every callback; no task completion ever finds it closed |
| OpenLoop.TasksLiveInAnOpenLoop | trio_asyncio/_loop.py:463-467 | a nursery task is alive only while the loop is open |
| OpenLoop.ExitingTaskCallsBack | trio_asyncio/_loop.py:463-467 | a task that exits leaves the nursery and queues its callback, which has run at the close unless cancelled |
| OpenLoop.WhoIsInside | trio_asyncio/_loop.py:474-481 | each Trio task is in the nursery from where it enters to where it leaves |
| OpenLoop.WhoWaits | trio_asyncio/_util.py:25-54 | a task in run_aio_future stays there, cancelled or not, until its callback has run |
| OpenLoop.WhatIsPending | trio_asyncio/_loop.py:542-555 | each asyncio task is pending from its start until it is done |
| OpenLoop.FailureCancels | trio_asyncio/_async.py:54-57 | only a task that fails while it is inside cancels the nursery |
| OpenLoop.FinalizerTakesItsSteps | trio_asyncio/_loop.py:588-599 | the async generators are finalized with the last step of the finalizer that has run, and not before |
| OpenLoop.BodyCallbacksComeFirst | trio_asyncio/_loop.py:527-555 | when the shutdown of the tasks starts, everything up to synchronize()'s callback is settled iff neither had the loop been ended by something queued before nor had a failing task cut the wait before the loop came to it |
| OpenLoop.CutBeforeCallbacks | trio_asyncio/_loop.py:531-541 | a run in which a failing nursery task makes it start too early |
| OpenLoop.FailureLeavesTasksPending | trio_asyncio/_loop.py:552-555 | if the last nursery task fails, the nursery can close over all pending asyncio tasks |
| OpenLoop.ExitWaitEnds | trio_asyncio/_base.py:785-791 | the wait for the main loop at exit ends within a bound |
| OpenLoopEnds.ClosingEndsIff | trio_asyncio/_loop.py:542-557 | the wait for the tasks can end iff every run_aio_future in the nursery, the teardown's or a Trio task's, has its result or the loop still runs with no stop_me queued before it |
| OpenLoopEnds.AwaitingTaskHangs | trio_asyncio/_loop.py:546-551 | a Trio task that awaits asyncio code in a stopped loop never leaves the nursery |
| OpenLoopEnds.FinalizingEndsIff | trio_asyncio/_loop.py:564-620 | the shielded wait for the async generators can end iff they are finalized, or the loop still runs with no stop_me and no Trio task queued before the finalizer's last step |
| OpenLoopEnds.FinalizingCanHang | trio_asyncio/_loop.py:596-620 | two runs, by a Trio task and by a stop(), after which the loop still runs but the wait never ends |
| OpenLoop.ExitFailsIff | trio_asyncio/_base.py:768-772 | the main loop or the exit ends by an error iff a Trio task is lost, which happens only after the inner nursery was closed |
| OpenLoop.LateTasksAreLost | trio_asyncio/_loop.py:552-557 | of the Trio tasks the loop takes from the channel exactly those are lost that it had not taken when the inner nursery closed |
| OpenLoop.QueuedInTimeAndLost | trio_asyncio/_loop.py:552-557 | a run that loses a task queued while the nursery was open |
| OpenLoop.ExitCanFail | trio_asyncio/_base.py:799-805 | a run whose drain fails of a task queued behind the stop_me |
| OpenLoops.HooksBackIff | trio_asyncio/_base.py:799-809 | the exit of the last loop brings Trio's hooks back iff neither its drain nor an earlier one has failed |
| OpenLoops.Context.constructor | trio_asyncio/_loop.py:468-495 | the body starts with the main loop running |
| OpenLoops.Context.TaskExits | trio_asyncio/_loop.py:463-467 | a task's exit finds the loop open |
| OpenLoops.Context.TaskFails | trio_asyncio/_async.py:54-57 | a task that raises cancels the inner nursery |
| OpenLoops.Context.TaskAwaits | trio_asyncio/_util.py:22-40 | a task in run_aio_future, which being cancelled does not end |
| OpenLoops.Context.AwaitedDone | trio_asyncio/_util.py:28-31 | the future's callback is queued |
| OpenLoops.Context.BodyExits | trio_asyncio/_loop.py:527-537 | synchronize() queues its callback |
| OpenLoops.Context.SyncOver | trio_asyncio/_loop.py:531-555 | the wait ends by synchronize(), by the loop's end or by cancellation; the first two go on to wait for the pending asyncio tasks |
| OpenLoops.Context.NurseryExits | trio_asyncio/_loop.py:552-570 | the inner nursery closes without children |
| OpenLoops.Context.FinalizerQueued | trio_asyncio/_loop.py:578-599 | a step of the finalizing coroutine is queued behind what is in the channel |
| OpenLoops.Context.CallStop | trio_asyncio/_loop.py:619-621 | stop() after the async generators are finalized |
| OpenLoops.Context.ExitLoop | trio_asyncio/_loop.py:618-624 | the exit is a run of the model and closes the loop on both paths; on the normal one nothing is left |
| OpenLoops.Context.ExitAndRelease | trio_asyncio/_base.py:799-809 | with the interpreter's hooks: uninstall() after a drain that succeeds, and none after one that fails |
| IoProtocol.RegistryInvariant | trio_asyncio/_base.py:561-690 | mask bits match the slots, so the assertion cannot fail; at most one uncancelled handle per descriptor and direction, the registered one |
| IoProtocol.CallsTheRegisteredHandle | trio_asyncio/_base.py:573-593 | a callback is called only for a handle that is registered and not cancelled |
| IoProtocol.NoCallOnceCancelled | trio_asyncio/_base.py:577-590 | a cancelled or replaced handle's callback is never called again |
| IoProtocol.ReplacingCancels | trio_asyncio/_base.py:563-567 | replacing and removing a handle cancel it |
| IoProtocol.OnlyItsPlace | trio_asyncio/_base.py:561-643 | adding or removing a handler concerns its own descriptor and direction only |
| IoProtocol.OnlyThat | trio_asyncio/_handles.py:32-34 | cancelling a handle or queueing a callback does nothing else |
| IoProtocol.LoopGoesOn | trio_asyncio/_base.py:568-569 | nor do the loop's own events |
| IoProtocol.CancelledTaskEnds | trio_asyncio/_base.py:573-593 | a cancelled handle's task ends without another call, and an OSError ends any |
| IoProtocol.RunningUntilEnd | trio_asyncio/_base.py:568-569 | handlers get a task exactly until the loop has ended |
| IoProtocol.CancelFdsReachesAll | trio_asyncio/_base.py:679-690 | exactly the scopes of the handles registered for the descriptors shown are cancelled |
| IoProtocol.AddedHandleIsServed | trio_asyncio/_base.py:561-593 | for any interleaving and any callback: while its scope is not cancelled and its descriptor causes no error, an added handle stays registered, is called when ready, and comes to wait again |
| IoProtocol.CallsAreSynchronized | trio_asyncio/_base.py:590-591 | between two calls of one handle everything queued before the first one's synchronize has been consumed |
| IoRegistries.IoRegistry.Cancel | trio_asyncio/_handles.py:32-34 | cancelling a handle cancels its scope |
| IoRegistries.IoRegistry.SetHandle | trio_asyncio/_base.py:600-643 | registers or modifies the key and returns the handle replaced |
| IoRegistries.IoRegistry.AddIoHandler | trio_asyncio/_base.py:561-571 | one transition of the model; the new handle is registered and not cancelled |
| IoRegistries.IoRegistry.RemoveIoHandler | trio_asyncio/_base.py:628 | asyncio's removal is one transition of the model: the slot is empty, the key dropped with its last handle, the handle cancelled |
| IoRegistries.IoRegistry.AfterWait | trio_asyncio/_base.py:576-591 | the I/O task from its wake-up to its next wait |
| IoRegistries.IoRegistry.CancelFds | trio_asyncio/_base.py:679-690 | every registered handle's scope is cancelled, and the assertion holds |
| DispatcherProtocol.SharedDispatcher | trio_asyncio/_base.py:104-138 | for any order of opening and closing within one Trio run, the exits failing or not: one shared dispatcher, whose count is the open loops and those whose exit failed, and the original hooks iff there is none of either |
| DispatcherProtocol.FailedExitKeepsHooks | trio_asyncio/_base.py:799-809 | after a failed exit the dispatcher stays installed, whatever is opened and closed later |
| DispatcherProtocol.FailedExitLeavesHooks | trio_asyncio/_base.py:799-809 | a run of one loop that leaves the hooks behind |
| DispatcherProtocol.FinalizedWhereFirstIterated | trio_asyncio/_base.py:140-156 | a generator is finalized where it was first iterated |
| Dispatchers.Interpreter.Install | trio_asyncio/_base.py:104-132 | one transition of the model: a new dispatcher, or one more reference to the installed one |
| Dispatchers.Interpreter.Uninstall | trio_asyncio/_base.py:134-138 | one transition of the model: the last reference restores the hooks, and the assertion holds |
| Dispatchers.Interpreter.Abandon | trio_asyncio/_base.py:799-809 | an exit that never comes to uninstall() |
| Dispatchers.Interpreter.FirstIter | trio_asyncio/_base.py:140-146 | the loop is noted in the generator |
| Dispatchers.Interpreter.Finalizer | trio_asyncio/_base.py:148-156 | the noted loop finalizes, otherwise Trio |
| SyncProtocol.OneStopAtMost | trio_asyncio/_sync.py:64-78 | over repeated runs a stop is pending iff one do_stop is in the channel, never two |
| SyncProtocol.RunReturnsTheOutcome | trio_asyncio/_sync.py:127-184 | run_until_complete returns or raises the future's own outcome, or RuntimeError exactly if the future is not done when nothing is left to run; a nested run is refused |
| SyncProtocol.StopLeftIff | trio_asyncio/_sync.py:138-162 | a run leaves a stop behind iff a do_stop ended its main loop before is_done had captured the outcome and the catch-up loop then captured it, no exit |
| SyncProtocol.StopEndsTheNextRun | trio_asyncio/_sync.py:152-168 | such a stop ends the next run's main loop within a bound, before anything queued behind it; that run is stopped too early or leaves a stop in turn |
| SyncProtocol.StopEndsRunForever | trio_asyncio/_sync.py:88-89 | and likewise a run_forever |
| SyncProtocol.IterateWork | trio_asyncio/_sync.py:155-162 | every iteration reduces the work, so the catch-up loop terminates |
| SyncProtocol.StopOutlivesItsRun | trio_asyncio/_sync.py:138-162 | a run from a fresh loop that leaves a stop for the next |
| SyncTheorems.RunsInOrder | trio_asyncio/_base.py:736-778 | over repeated runs: what is not a timer runs once and in the order queued; a timer taken waits in the heap or has fired once, not before its deadline |
| SyncTheorems.FiresTheEarliest | trio_asyncio/_base.py:738-742 | a timer leaves the heap only to fire, due and with no earlier one beside it |
| SyncTheorems.CallAtWaits | trio_asyncio/_base.py:373-382 | call_at's very callback never fires before the deadline asked for |
| SyncTheorems.CallSoonRuns | trio_asyncio/_base.py:384-388 | call_soon's very callback has run iff it has been taken from the channel |
| SyncTheorems.RunsItsScript | trio_asyncio/_base.py:773-778 | what runs or fires makes the calls it consists of, and nothing else happens |
| SyncTheorems.IterationsHappen | trio_asyncio/_base.py:736-778 | a running loop always gets further if there is anything to do, and one that is not running does nothing |
| SyncTheorems.ResolveOnce | trio_asyncio/_sync.py:138-152 | a future is done by its first resolution only, and the run that waits for it is told |
| SyncTheorems.IsDoneCaptures | trio_asyncio/_sync.py:138-150 | is_done captures the outcome for its own run and stops the loop, an exit excepted |
| SyncTheorems.DoStopStops | trio_asyncio/_sync.py:72-74 | do_stop ends the main loop and settles the stop, and does nothing else |
| SyncTheorems.StopAsks | trio_asyncio/_sync.py:76-78 | stop() queues a do_stop during a run and is in vain otherwise |
| SyncTheorems.RunsBegin | trio_asyncio/_sync.py:152-164 | how runs begin and end |
| SyncTheorems.SuspendIsHeard | trio_asyncio/_base.py:750-751 | while the loop waits other code makes its calls and time passes |
| SyncLoops.SyncTrioEventLoop.StopIt | trio_asyncio/_sync.py:64-78 | stop() queues at most one do_stop |
| SyncLoops.SyncTrioEventLoop.RunTaken | trio_asyncio/_sync.py:72-78 | do_stop and is_done do what the model says |
| SyncLoops.SyncTrioEventLoop.MainLoopOne | trio_asyncio/_base.py:736-778 | one iteration, on the synchronous loop |
| SyncLoops.SyncTrioEventLoop.MainLoop | trio_asyncio/_base.py:703-734 | the main loop makes exactly the iterations of the model and ends only by a do_stop |
| SyncLoops.SyncTrioEventLoop.CatchUp | trio_asyncio/_sync.py:155-162 | it ends in the state the model says, the clock running on: the outcome captured or the channel empty |
| SyncLoops.SyncTrioEventLoop.RunUntilComplete | trio_asyncio/_sync.py:127-174 | result and final state are those of the model's run, of which RunReturnsTheOutcome and StopLeftIff speak |
| Greenlets.SwitchesAreClean | trio_asyncio/_sync.py:22-38 | for any nesting, every switch target is entered with an empty context and everyone finds their own again; requests are answered once, to their caller; a loop runs exactly while it executes one |
| Greenlets.RequestsAreAnswered | trio_asyncio/_sync.py:186-224 | every request ever made has been answered or is being executed, and not both |
| Greenlets.CreatingComesBack | trio_asyncio/_sync.py:55-62 | creating a loop starts its greenlet in its own run and comes back with the creator's world unchanged |
| Greenlets.RequestIsExecutedIff | trio_asyncio/_sync.py:170-190 | a request is executed iff user code makes it of a waiting loop while no loop is running; otherwise nothing happens |
| Greenlets.RequestComesBack | trio_asyncio/_sync.py:186-224 | it comes back with its answer and with everything else as it was |
| Greenlets.ClosingComesBack | trio_asyncio/_sync.py:238-249 | closing a waiting loop ends its run and comes back |
| Greenlets.RootRunComesBack | trio_asyncio/_sync.py:22-38 | the root greenlet can have a Trio run of its own |
| Greenlets.HappensIff | trio_asyncio/_sync.py:55-250 | each switch happens exactly where the greenlet that runs can make it |
| Greenlets.InvStep | trio_asyncio/_sync.py:170-250 | every switch keeps the invariant |
| Trampoline.AllowAsyncio | trio_asyncio/_adapter.py:234-258 | the loop gives a performance of the coroutine, in which each future is answered by its outcome and each trap by Trio, hands on the traps only, and ends as the coroutine ends |
| Trampoline.OnePerformance | trio_asyncio/_adapter.py:234-258 | there is only one performance of a coroutine in a world |
| Iterators.AioAnext | trio_asyncio/_util.py:127-136 | one turn of the asyncio-flavored iterator over a Trio task's future |
| ReadProtocol.WokenOnce | trio_asyncio/_util.py:70-111 | each read wakes its waiting task at most once; a task is rescheduled without waiting iff a read swallows its cancellation |
| ReadProtocol.WakesAreTrue | trio_asyncio/_util.py:70-111 | the task is woken with what the reads have brought, in order, and with Cancelled for an abort in time |
| ReadProtocol.HangsIff | trio_asyncio/_util.py:70-109 | a waiting task hangs for ever, immune to cancellation, iff its read ended by something that is no Exception |
| ReadProtocol.Reader.NextItem | trio_asyncio/_util.py:105-109 | a read is started and waited for |
| ReadProtocol.Reader.ReadEnds | trio_asyncio/_util.py:70-82 | the end of consume_next, with or without a reschedule |
| ReadProtocol.Reader.AbortCb | trio_asyncio/_util.py:84-102 | the abort succeeds iff the read is still under way |
| Iterators.RoundTrip | trio_asyncio/_util.py:60-136 | the same items in order and the expected end, there and back, each read waking the waiting task once unless the iteration hangs |
| Iterators.SameEndIff | trio_asyncio/_util.py:70-82 | exactly when the end comes through unchanged |

## Left out

- Trio's scheduler, cancel scopes and channels, `heapq`, and asyncio's own Handle, Future and Task appear only through the contracts listed above.
- Cancelled, as a leaf, carries no owner: whether an enclosing cancellation is in force when a scope exits is a choice of the environment.
- Exceptions are values: that `collapse_exception_group` sets the traceback of a shared exception object in place, and so also in the group it was found in, is not captured; `same` stands for object identity.
- Causes, contexts, messages and notes of exceptions, apart from the note or attribute that marks a group as collapsible.
- Bounded queues (`queue_len`), callbacks that raise SystemExit or KeyboardInterrupt, and `stop(waiter)` with an event that was used before.
- `call_soon_threadsafe` and signal delivery: a handle in Trio's own entry queue has not reached the channel.
- A future that is resolved by somebody other than its AsyncHandle, and several waiters on one future.
- `open_loop`: how long the tasks take to finish and how many steps the finalizer takes is up to them; the results about these waits say when they can end. What the finalizer waits for between two steps is not modelled. Exceptions raised out of the body and forwarded cancellation do not change the order of the teardown and are not modelled; that a nursery task raises is, but not which exception comes out in the end. User code that closes the loop itself is left out.
- DispatcherProtocol.SharedDispatcher: holds for the loops inside one Trio run. Each SyncTrioEventLoop starts a Trio run of its own (trio_asyncio/_sync.py:59-61), whose hooks go in between, so that two live synchronous loops have two dispatchers; nested Trio runs are not modelled.
- `IoProtocol`: the channel is seen only as the numbers of queued and consumed callbacks; that a callback's turn comes only after all earlier ones is RunIsABarrier. Autoclosing of file descriptors, real sockets and selectors are not part of the model.
- `SyncLoops`: Trio tasks on a synchronous loop, and handle cancellation there, which are as in the asynchronous loop; an `Exits` outcome is captured without the exception that has then ended the main loop.
- `Greenlets`: greenlet switches are control transfers that Dafny methods cannot make, so they are modelled on values; the signal wakeup descriptor, and closing a loop that is itself suspended further down, are left out.
- Trampoline.AllowAsyncio: covers coroutines that finish; the context variable that marks nested calls and the shortcut for a function that returns a future are left out.
- Iterators.RoundTrip: nothing is cancelled during the iteration, which ReadProtocol covers for the reading side alone; the Trio side may end by an exception of any tree that leaves something besides Cancelled.
- Child processes, executors, the event loop policy, deprecation helpers, logging and sniffio markers.
