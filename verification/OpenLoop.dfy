/** The life of `open_loop`, from the moment its body runs to the closing of the loop, on
    top of the scheduler: the two nurseries, the tasks in them and the order of the
    teardown. Events come in any order. */
module OpenLoop {
  import opened Options
  import S = Scheduler
  import T = SchedulerTheorems
  import G = SchedulerProgress
  import C = SchedulerCalls

  datatype Phase =
    | InBody
    | Syncing                // the body has exited; waiting for synchronize() or the loop's end
    | ClosingTasks           // everything in tasks_nursery is cancelled and waited for
    | Finalizing             // tasks_nursery is closed; async generators are finalized
    | Stopping               // stop() has been called; waiting for the main loop
    | Exiting                // the rest of _main_loop_exit, then close()

  /** run_aio_future, as long as it has not come back: the future is pending, or it is done
      and the callback that wakes the caller is queued. Aborting it does not end it. */
  datatype Wait = Pending | CallbackQueued(callback: nat)

  /** Who waits in run_aio_future: the teardown, for an asyncio task that was pending when
      the body had exited, or a Trio task of the inner nursery. */
  datatype Caller = Teardown(aio: nat) | TrioTask(id: nat)

  /** The coroutine that finalizes the async generators: its next step is still to be queued,
      or is queued as a handle; `left` more will follow, each when the one before has run. */
  datatype Finalizer = Idle | Due(left: nat) | Queued(step: nat, left: nat)

  datatype State = State(
    loop: S.State,
    phase: Phase,
    trioTasks: set<nat>,     // running in tasks_nursery
    aioTasks: set<nat>,      // asyncio tasks not yet done
    waits: map<nat, Wait>,   // the teardown's run_aio_future calls in tasks_nursery
    awaiting: map<nat, Wait>,  // those of the Trio tasks
    tasksCancelled: bool,    // a task in tasks_nursery has raised
    finalizer: Finalizer,
    asyncgensDone: bool,
    // history
    barrier: nat,            // the handle synchronize() has queued
    cutShort: bool,          // the wait for it ended because a task had raised
    loopAtSync: Option<S.State>,  // the loop when that wait ended
    aioAtSync: set<nat>,     // the asyncio tasks that were pending then
    rejectedExits: nat)      // task completions that found the loop closed

  datatype Event =
    | InLoop(l: S.Label)                   // the clock, the loop, or a request by anybody
    | TaskStarts(id: nat)                  // somebody starts a task in tasks_nursery
    | TaskExits(id: nat, callback: seq<S.Action>)  // its future resolves and schedules a callback
    | TaskFails(id: nat)                   // it raises, which cancels tasks_nursery
    | TaskAwaits(id: nat)                  // it calls run_aio_future
    | AwaitedDone(id: nat)                 // the future that it waits for is done
    | TaskResumes(id: nat)
    | AioStarts(id: nat)
    | AioDone(id: nat)
    | WaitOver(id: nat)                    // a run_aio_future call gets its result
    | BodyExits
    | SyncOver(cut: bool)                  // `cut`: by the cancellation of tasks_nursery
    | NurseryExits(steps: nat)             // that it takes to finalize the async generators left
    | FinalizerQueued                      // the next of these is queued
    | FinalizerRuns                        // what follows when it has run
    | CallStop
    | StopSeen

  function Start(now: int): State {
    State(S.Step(S.Initial(now), S.Begin), InBody, {}, {}, map[], map[], false, Idle, false, 0, false, None, {}, 0)
  }

  predicate NurseryOpen(s: State) {
    s.phase.InBody? || s.phase.Syncing? || s.phase.ClosingTasks?
  }

  /** Before the shutdown of the tasks. */
  predicate InFront(s: State) {
    s.phase.InBody? || s.phase.Syncing?
  }

  function CallSoon(s: State, callback: seq<S.Action>): State {
    s.(loop := S.Do(s.loop, S.CallSoon(callback)))
  }

  /** A future's done-callback is queued; nobody holds its handle. */
  function WakeUp(s: State): State {
    s.(loop := S.Do(s.loop, S.Synchronize))
  }

  /** The labels of the loop that open_loop leaves to others. */
  predicate Free(l: S.Label) {
    l.Tick? || l.Request? || l.Loop? || l.FirstStep?
  }

  /** The task whose first step this label is, if any, is now in the nursery. */
  function InLoopStep(s: State, l: S.Label): State {
    var started := if l.FirstStep? && s.loop.starting.Some? then {s.loop.starting.value.id} else {};
    s.(loop := S.Step(s.loop, l), trioTasks := s.trioTasks + started)
  }

  predicate HasRun(loop: S.State, n: nat) {
    exists h <- loop.ran :: h.id == n
  }

  /** What ends the wait for synchronize(): its callback has run, or the loop has stopped.
      Once tasks_nursery is cancelled its cancellation can end the wait, too. */
  predicate CanLeaveSync(s: State, cut: bool) {
    s.phase.Syncing? && if cut then s.tasksCancelled else HasRun(s.loop, s.barrier) || G.Over(s.loop.mode)
  }

  function LeaveSync(s: State, cut: bool): State {
    s.(phase := ClosingTasks, cutShort := cut, loopAtSync := Some(s.loop), aioAtSync := s.aioTasks,
       waits := if cut then map[] else map id | id in s.aioTasks :: Pending)
  }

  predicate NurseryIsEmpty(s: State) {
    s.phase.ClosingTasks? && s.trioTasks == {} && s.waits == map[] && s.loop.starting.None?
  }

  function CloseNursery(s: State, steps: nat): State {
    var nothingToDo := steps == 0 || !s.loop.mode.Running?;
    s.(phase := Finalizing, loop := S.Step(s.loop, S.CloseNursery),
       finalizer := if nothingToDo then s.finalizer else Due(steps - 1),
       asyncgensDone := s.asyncgensDone || nothingToDo)
  }

  function Step(s: State, e: Event): State {
    match e
    case InLoop(l) => if Free(l) then InLoopStep(s, l) else s
    case TaskStarts(id) => if NurseryOpen(s) then s.(trioTasks := s.trioTasks + {id}) else s
    case TaskExits(id, callback) =>
      if id !in s.trioTasks || id in s.awaiting then s
      else
        var s1 := s.(trioTasks := s.trioTasks - {id});
        if S.IsClosed(s.loop.mode) then s1.(rejectedExits := s.rejectedExits + 1) else CallSoon(s1, callback)
    case TaskFails(id) =>
      if id !in s.trioTasks || id in s.awaiting then s
      else s.(trioTasks := s.trioTasks - {id}, tasksCancelled := true)
    case TaskAwaits(id) =>
      if id !in s.trioTasks || id in s.awaiting then s else s.(awaiting := s.awaiting[id := Pending])
    case AwaitedDone(id) =>
      if id !in s.awaiting || !s.awaiting[id].Pending? then s
      else WakeUp(s.(awaiting := s.awaiting[id := CallbackQueued(|s.loop.enqueued|)]))
    case TaskResumes(id) =>
      if id in s.awaiting && s.awaiting[id].CallbackQueued? && HasRun(s.loop, s.awaiting[id].callback)
      then s.(awaiting := s.awaiting - {id}) else s
    case AioStarts(id) =>
      if S.IsClosed(s.loop.mode) || id in s.aioAtSync then s else s.(aioTasks := s.aioTasks + {id})
    case AioDone(id) =>
      if id !in s.aioTasks || S.IsClosed(s.loop.mode) then s
      else
        var s1 := s.(aioTasks := s.aioTasks - {id});
        if id in s.waits && s.waits[id].Pending? then
          WakeUp(s1.(waits := s.waits[id := CallbackQueued(|s.loop.enqueued|)]))
        else s1
    case WaitOver(id) =>
      if id in s.waits && s.waits[id].CallbackQueued? && HasRun(s.loop, s.waits[id].callback)
      then s.(waits := s.waits - {id}) else s
    case BodyExits =>
      if s.phase.InBody? then
        s.(phase := Syncing, barrier := |s.loop.enqueued|, loop := S.Do(s.loop, S.Synchronize))
      else s
    case SyncOver(cut) => if CanLeaveSync(s, cut) then LeaveSync(s, cut) else s
    case NurseryExits(steps) => if NurseryIsEmpty(s) then CloseNursery(s, steps) else s
    case FinalizerQueued =>
      if s.phase.Finalizing? && s.finalizer.Due? then
        WakeUp(s.(finalizer := Queued(|s.loop.enqueued|, s.finalizer.left)))
      else s
    case FinalizerRuns =>
      if s.phase.Finalizing? && s.finalizer.Queued? && HasRun(s.loop, s.finalizer.step) then
        if s.finalizer.left == 0 then s.(finalizer := Idle, asyncgensDone := true)
        else s.(finalizer := Due(s.finalizer.left - 1))
      else s
    case CallStop =>
      if s.phase.Finalizing? && s.asyncgensDone then s.(phase := Stopping, loop := S.Do(s.loop, S.Stop)) else s
    case StopSeen =>
      if s.phase.Stopping? && s.loop.mode.Stopped? then
        s.(phase := Exiting, loop := S.Step(s.loop, S.BeginDrain))
      else s
  }

  function Run(s: State, events: seq<Event>): State
    decreases |events|
  {
    if events == [] then s else Run(Step(s, events[0]), events[1..])
  }

  lemma RunCons(s: State, e: Event, rest: seq<Event>)
    ensures Run(s, [e] + rest) == Run(Step(s, e), rest)
  {
    assert ([e] + rest)[1..] == rest;
  }

  lemma {:induction false} RunAppend(s: State, a: seq<Event>, b: seq<Event>)
    ensures Run(s, a + b) == Run(Run(s, a), b)
    decreases |a|
  {
    if a == [] {
      assert a + b == b;
    } else {
      assert (a + b)[1..] == a[1..] + b;
      RunAppend(Step(s, a[0]), a[1..], b);
    }
  }

  lemma RunTwo(s: State, a: Event, b: Event)
    ensures Run(s, [a, b]) == Step(Step(s, a), b)
  {
    hide Step;
    RunCons(s, a, [b]);
    RunCons(Step(s, a), b, []);
  }

  lemma RunThree(s: State, a: Event, b: Event, c: Event)
    ensures Run(s, [a, b, c]) == Step(Step(Step(s, a), b), c)
  {
    hide Step;
    RunCons(s, a, [b, c]);
    RunTwo(Step(s, a), b, c);
  }

  lemma RunFour(s: State, a: Event, b: Event, c: Event, d: Event)
    ensures Run(s, [a, b, c, d]) == Step(Step(Step(Step(s, a), b), c), d)
  {
    hide Step;
    RunCons(s, a, [b, c, d]);
    RunThree(Step(s, a), b, c, d);
  }

  lemma RunFive(s: State, a: Event, b: Event, c: Event, d: Event, e: Event)
    ensures Run(s, [a, b, c, d, e]) == Step(Step(Step(Step(Step(s, a), b), c), d), e)
  {
    hide Step;
    RunCons(s, a, [b, c, d, e]);
    RunFour(Step(s, a), b, c, d, e);
  }

  // The invariant

  /** What is always true of the loop by itself. */
  ghost predicate LoopOk(loop: S.State) {
    && S.Inv(loop)
    && G.StopPending(loop)
    && G.LossOk(loop)
    && G.EndsThere(loop)
    && !loop.mode.NotStarted?
  }

  /** The n-th handle is a callback that nobody can cancel. */
  predicate BarrierQueued(loop: S.State, n: nat) {
    n < |loop.enqueued| && loop.enqueued[n].kind.Sync?
  }

  predicate Queues(loop: S.State, w: Wait) {
    w.CallbackQueued? ==> BarrierQueued(loop, w.callback)
  }

  ghost predicate FinalizerOk(s: State) {
    && (NurseryOpen(s) ==> s.finalizer.Idle? && !s.asyncgensDone)
    && (s.phase.Finalizing? && !s.asyncgensDone ==> !s.finalizer.Idle?)
    && (s.finalizer.Queued? ==> BarrierQueued(s.loop, s.finalizer.step))
  }

  ghost predicate SyncOk(s: State) {
    && (s.phase.Syncing? ==> BarrierQueued(s.loop, s.barrier))
    && (InFront(s) <==> s.loopAtSync.None?)
    && (InFront(s) ==> s.aioAtSync == {} && s.waits == map[] && !s.cutShort)
    && (s.loopAtSync.Some? ==>
          var loop := s.loopAtSync.value;
          && LoopOk(loop) && BarrierQueued(loop, s.barrier)
          && (loop.mode.Running? || loop.mode.Stopped?)
          && (if s.cutShort then s.tasksCancelled else HasRun(loop, s.barrier) || loop.mode.Stopped?)
          && (HasRun(loop, s.barrier) ==> HasRun(s.loop, s.barrier)))
  }

  ghost predicate TasksOk(s: State) {
    && (NurseryOpen(s) <==> s.loop.nurseryOpen)
    && (!NurseryOpen(s) ==> s.trioTasks == {} && s.waits == map[] && s.loop.starting.None?)
    && s.awaiting.Keys <= s.trioTasks
    && (forall id <- s.awaiting :: Queues(s.loop, s.awaiting[id]))
    && s.waits.Keys <= s.aioAtSync
    && (forall id <- s.waits :: Queues(s.loop, s.waits[id]) && (s.waits[id].Pending? ==> id in s.aioTasks))
    && (s.cutShort ==> s.waits == map[])
    && (forall id <- s.waits :: s.waits[id].CallbackQueued? ==> id !in s.aioTasks)
    && (!s.cutShort ==> forall id <- s.aioAtSync :: id !in s.waits ==> id !in s.aioTasks)
    && s.rejectedExits == 0
  }

  ghost predicate Inv(s: State) {
    && LoopOk(s.loop)
    && SyncOk(s)
    && TasksOk(s)
    && FinalizerOk(s)
    && (s.loop.mode.Running? || s.loop.mode.Stopped? || s.phase.Exiting?)
    && (s.phase.Exiting? ==> s.loop.mode.Draining? || s.loop.mode.Closed? || s.loop.mode.Failed?)
    && (s.phase.Stopping? && s.loop.mode.Running? ==> s.loop.stopWait)
  }

  /** What a step of the loop, or a request to it, does to what the invariant mentions. */
  ghost predicate LoopMoves(s: S.State, t: S.State) {
    && t.nurseryOpen == s.nurseryOpen
    && (s.stopWait ==> t.stopWait)
    && (!s.nurseryOpen && s.starting.None? ==> t.starting.None?)
    && (s.mode.Running? ==> t.mode.Running? || t.mode.Stopped?)
    && (s.mode.Stopped? ==> t.mode.Stopped?)
    && (s.mode.Draining? ==> t.mode.Draining? || t.mode.Closed? || t.mode.Failed?)
    && (S.IsClosed(s.mode) ==> t.mode == s.mode)
    && (forall n :: HasRun(s, n) ==> HasRun(t, n))
    && s.enqueued <= t.enqueued
  }

  lemma LoopFrame(s: S.State, l: S.Label)
    requires Free(l)
    ensures LoopMoves(s, S.Step(s, l))
  {
    T.StepGrowsQueue(s, l);
    hide S.Do, S.LoopStep;
    match l
    case Request(a) => S.DoGrows(s, a);
    case Loop(pick, late) => if S.LoopEnabled(s) { LoopStepFrame(s, pick, late); }
    case _ =>
  }

  lemma LoopStays(s: S.State, l: S.Label)
    requires LoopOk(s)
    ensures var t := S.Step(s, l);
            LoopOk(t)
  {
    hide S.Inv, G.StopPending, G.LossOk, G.EndsThere, S.Step;
    HasStarted(s, l);
    S.InvStep(s, l);
    G.StepKeepsStopPending(s, l);
    G.LossStep(s, l);
    G.EndStep(s, l);
  }

  lemma HasStarted(s: S.State, l: S.Label)
    requires !s.mode.NotStarted?
    ensures !S.Step(s, l).mode.NotStarted?
  {
    hide S.Do, S.Iterate;
    match l
    case Request(a) => S.DoGrows(s, a);
    case Loop(pick, late) => G.IterateKeepsMode(s, pick, late);
    case _ =>
  }

  lemma LoopStepFrame(s: S.State, pick: nat, late: bool)
    requires S.LoopEnabled(s)
    ensures var t := S.LoopStep(s, pick, late);
            && t.nurseryOpen == s.nurseryOpen && (s.stopWait ==> t.stopWait)
            && (!s.nurseryOpen ==> t.starting == s.starting)
            && (s.mode.Running? ==> t.mode.Running? || t.mode.Stopped?)
            && (s.mode.Draining? ==> t.mode.Draining? || t.mode.Closed? || t.mode.Failed?)
            && (forall n :: HasRun(s, n) ==> HasRun(t, n))
  {
    hide S.Iterate;
    IterateFrame(s, pick, late);
  }

  lemma IterateFrame(s: S.State, pick: nat, late: bool)
    ensures var t := S.Iterate(s, pick, late).0;
            && t.mode == s.mode && t.nurseryOpen == s.nurseryOpen && (s.stopWait ==> t.stopWait)
            && (!s.nurseryOpen ==> t.starting == s.starting)
            && (forall h <- s.ran :: h in t.ran)
  {
    hide S.RunHandle;
    if S.FiresNow(s, late) {
      var i := S.PickMin(s.heap, pick);
      RunHandleFrame(s.(heap := S.Remove(s.heap, i)), s.heap[i]);
    } else if s.channel != [] {
      RunHandleFrame(s.(channel := s.channel[1..]), s.channel[0]);
    }
  }

  lemma RunHandleFrame(s: S.State, h: S.Handle)
    ensures var t := S.RunHandle(s, h).0;
            && t.mode == s.mode && t.nurseryOpen == s.nurseryOpen && t.starting == s.starting
            && (s.stopWait ==> t.stopWait) && (forall x <- s.ran :: x in t.ran)
  {
    S.DoAllGrows(s.(fired := s.fired + [h], firedAt := s.firedAt + [s.now]), h.script);
    S.DoAllGrows(s.(ran := s.ran + [h]), h.script);
  }

  lemma DoFrame(s: S.State, a: S.Action)
    requires LoopOk(s)
    ensures var t := S.Do(s, a);
            LoopOk(t) && LoopMoves(s, t) && t.mode == s.mode && t.starting == s.starting && (a.Stop? ==> t.stopWait)
  {
    hide LoopOk, LoopMoves;
    LoopFrame(s, S.Request(a));
    LoopStays(s, S.Request(a));
    S.DoGrows(s, a);
  }

  /** An event that changes the loop only, and moves it along. */
  lemma InvMoved(s: State, t: State)
    requires Inv(s) && LoopOk(t.loop) && LoopMoves(s.loop, t.loop) && t == s.(loop := t.loop)
    ensures Inv(t)
  {
    hide LoopOk;
  }

  lemma InvInLoop(s: State, l: S.Label)
    requires Inv(s) && Free(l)
    ensures Inv(InLoopStep(s, l))
  {
    hide S.Step, Inv;
    var t := s.(loop := S.Step(s.loop, l));
    InvStepped(s, l);
    StartingIsInside(s);
    if l.FirstStep? && s.loop.starting.Some? {
      InvTaskAdded(t, s.loop.starting.value.id);
    } else {
      assert s.trioTasks + {} == s.trioTasks;
    }
  }

  lemma InvStepped(s: State, l: S.Label)
    requires Inv(s) && Free(l)
    ensures Inv(s.(loop := S.Step(s.loop, l)))
  {
    hide LoopMoves, S.Step, LoopOk;
    LoopFrame(s.loop, l);
    LoopStays(s.loop, l);
    InvMoved(s, s.(loop := S.Step(s.loop, l)));
  }

  lemma StartingIsInside(s: State)
    requires Inv(s)
    ensures s.loop.starting.Some? ==> NurseryOpen(s)
  {
    hide LoopOk, SyncOk;
  }

  lemma InvTaskAdded(s: State, id: nat)
    requires Inv(s) && NurseryOpen(s)
    ensures Inv(s.(trioTasks := s.trioTasks + {id}))
  {
    hide LoopOk;
  }

  lemma InvStep(s: State, e: Event)
    requires Inv(s)
    ensures Inv(Step(s, e))
  {
    match e
    case InLoop(l) => if Free(l) { InvInLoop(s, l); }
    case TaskExits(id, callback) => InvTaskExits(s, id, callback);
    case AioDone(id) => InvAioDone(s, id);
    case AwaitedDone(id) => InvAwaitedDone(s, id);
    case BodyExits => if s.phase.InBody? { InvBodyExits(s); }
    case SyncOver(cut) => InvSyncOver(s, cut);
    case FinalizerQueued => InvFinalizerQueued(s);
    case CallStop => InvCallStop(s);
    case NurseryExits(steps) => InvNurseryExits(s, steps);
    case StopSeen => InvStopSeen(s);
    case _ => InvOther(s, e);
  }

  /** The loop has nothing to do with the other events. */
  lemma InvOther(s: State, e: Event)
    requires Inv(s)
    requires e.TaskStarts? || e.TaskFails? || e.TaskAwaits? || e.TaskResumes? || e.AioStarts? || e.WaitOver?
             || e.FinalizerRuns?
    ensures Inv(Step(s, e))
  {
    hide LoopOk;
  }

  lemma InvTaskExits(s: State, id: nat, callback: seq<S.Action>)
    requires Inv(s)
    ensures Inv(Step(s, TaskExits(id, callback)))
  {
    hide LoopOk, LoopMoves, S.Do;
    DoFrame(s.loop, S.CallSoon(callback));
    InvMoved(s, CallSoon(s, callback));
  }

  lemma InvCallStop(s: State)
    requires Inv(s)
    ensures Inv(Step(s, CallStop))
  {
    hide LoopOk, LoopMoves, S.Do;
    DoFrame(s.loop, S.Stop);
    InvMoved(s, s.(loop := S.Do(s.loop, S.Stop)));
  }

  lemma InvNurseryExits(s: State, steps: nat)
    requires Inv(s)
    ensures Inv(Step(s, NurseryExits(steps)))
  {
    hide LoopOk, LoopMoves, S.Step;
    CloseFrame(s.loop);
  }

  lemma InvStopSeen(s: State)
    requires Inv(s)
    ensures Inv(Step(s, StopSeen))
  {
    hide LoopOk, LoopMoves, S.Step;
    if s.loop.mode.Stopped? { DrainFrame(s.loop); }
  }

  /** Somebody's wake-up is queued. */
  lemma InvWakeUp(s: State)
    requires Inv(s) && NotClosed(s)
    ensures Inv(WakeUp(s)) && BarrierQueued(WakeUp(s).loop, |s.loop.enqueued|)
    ensures s.loop.enqueued <= WakeUp(s).loop.enqueued
  {
    DoFrame(s.loop, S.Synchronize);
    SyncIsQueued(s.loop);
    hide LoopOk, S.Do;
    InvMoved(s, WakeUp(s));
  }

  predicate NotClosed(s: State) {
    !S.IsClosed(s.loop.mode)
  }

  lemma InvAioDone(s: State, id: nat)
    requires Inv(s)
    ensures Inv(Step(s, AioDone(id)))
  {
    hide LoopOk, LoopMoves, S.Do, BarrierQueued;
    if id in s.aioTasks && NotClosed(s) {
      InvWakeUp(s);
      InvAioGone(WakeUp(s), id, |s.loop.enqueued|);
      if id !in s.waits { InvAioGone(s, id, 0); }
    }
  }

  lemma InvAioGone(s: State, id: nat, callback: nat)
    requires Inv(s) && (id in s.waits ==> BarrierQueued(s.loop, callback))
    ensures var t := s.(aioTasks := s.aioTasks - {id});
            if id in s.waits then Inv(t.(waits := s.waits[id := CallbackQueued(callback)])) else Inv(t)
  {
    hide LoopOk;
  }

  lemma InvAwaitedDone(s: State, id: nat)
    requires Inv(s)
    ensures Inv(Step(s, AwaitedDone(id)))
  {
    hide LoopOk, LoopMoves, S.Do, BarrierQueued;
    if id in s.awaiting && s.awaiting[id].Pending? {
      assert NotClosed(s);
      InvWakeUp(s);
      InvAwaitEnds(WakeUp(s), id, |s.loop.enqueued|);
    }
  }

  lemma InvAwaitEnds(s: State, id: nat, callback: nat)
    requires Inv(s) && id in s.awaiting && BarrierQueued(s.loop, callback)
    ensures Inv(s.(awaiting := s.awaiting[id := CallbackQueued(callback)]))
  {
    hide LoopOk;
  }

  lemma InvFinalizerQueued(s: State)
    requires Inv(s)
    ensures Inv(Step(s, FinalizerQueued))
  {
    hide LoopOk, LoopMoves, S.Do, BarrierQueued;
    if s.phase.Finalizing? && s.finalizer.Due? {
      InvWakeUp(s);
      InvStepQueued(WakeUp(s), |s.loop.enqueued|, s.finalizer.left);
    }
  }

  lemma InvStepQueued(s: State, step: nat, left: nat)
    requires Inv(s) && BarrierQueued(s.loop, step) && !NurseryOpen(s)
    ensures Inv(s.(finalizer := Queued(step, left)))
  {
    hide LoopOk;
  }

  lemma InvBodyExits(s: State)
    requires Inv(s) && s.phase.InBody?
    ensures Inv(Step(s, BodyExits))
  {
    hide LoopOk, LoopMoves, S.Do;
    DoFrame(s.loop, S.Synchronize);
    InvMoved(s, s.(loop := S.Do(s.loop, S.Synchronize)));
    SyncIsQueued(s.loop);
  }

  lemma SyncIsQueued(s: S.State)
    requires !S.IsClosed(s.mode)
    ensures BarrierQueued(S.Do(s, S.Synchronize), |s.enqueued|)
  {
  }

  lemma InvSyncOver(s: State, cut: bool)
    requires Inv(s)
    ensures Inv(Step(s, SyncOver(cut)))
  {
    hide LoopOk;
  }

  lemma CloseFrame(s: S.State)
    requires LoopOk(s)
    ensures var t := S.Step(s, S.CloseNursery); LoopOk(t) && t == s.(nurseryOpen := false)
  {
    LoopStays(s, S.CloseNursery);
  }

  lemma DrainFrame(s: S.State)
    requires LoopOk(s) && s.mode.Stopped?
    ensures var t := S.Step(s, S.BeginDrain); LoopOk(t) && t == s.(mode := S.Draining)
  {
    StoppedIsIdle(s);
    LoopStays(s, S.BeginDrain);
  }

  lemma StoppedIsIdle(s: S.State)
    requires S.Inv(s) && s.mode.Stopped?
    ensures s.starting.None?
  {
    hide S.Placed;
  }

  lemma {:induction false} InvRun(s: State, events: seq<Event>)
    requires Inv(s)
    ensures Inv(Run(s, events))
    decreases |events|
  {
    hide Inv, Step;
    if events == [] {
    } else {
      InvStep(s, events[0]);
      InvRun(Step(s, events[0]), events[1..]);
    }
  }

  lemma InvStart(now: int)
    ensures Inv(Start(now))
  {
    S.InvInitial(now);
    S.InvStep(S.Initial(now), S.Begin);
    hide S.Inv;
  }

  lemma StepLeaves(s: State, cut: bool)
    requires Inv(s) && CanLeaveSync(s, cut)
    ensures Step(s, SyncOver(cut)) == LeaveSync(s, cut) && Inv(LeaveSync(s, cut))
  {
    hide Inv;
    InvStep(s, SyncOver(cut));
  }

  lemma StepCloses(s: State, steps: nat)
    requires Inv(s) && NurseryIsEmpty(s)
    ensures Step(s, NurseryExits(steps)) == CloseNursery(s, steps) && Inv(CloseNursery(s, steps))
  {
    hide S.Step, Inv;
    InvStep(s, NurseryExits(steps));
  }

  lemma LoopIsValid(s: State)
    requires Inv(s)
    ensures S.Inv(s.loop)
  {
  }

  lemma Reachable(now: int, events: seq<Event>)
    ensures Inv(Run(Start(now), events))
  {
    InvStart(now);
    InvRun(Start(now), events);
  }

  // The theorems

  /** When the inner nursery has closed, every Trio task in it is done, and so is every
      asyncio task that was pending when the body had exited, unless a failing task has cut
      the wait for synchronize() short: then none is waited for. When the loop has been
      closed, too, nothing is left in the channel, in the heap or half started, and each
      synchronous callback ever queued has run or was cancelled. No task completion has
      found the loop closed, nor ever will. */
  lemma TeardownIsSafe(now: int, events: seq<Event>)
    ensures var s := Run(Start(now), events);
            && s.rejectedExits == 0
            && (!NurseryOpen(s) ==>
                  s.trioTasks == {} && s.waits == map[] && (!s.cutShort ==> s.aioTasks * s.aioAtSync == {}))
            && (s.cutShort ==> s.waits == map[])
            && (s.loop.mode.Closed? ==>
                  && s.phase.Exiting? && !NurseryOpen(s)
                  && s.loop.channel == [] && s.loop.heap == [] && s.loop.starting.None?
                  && (forall h <- s.loop.enqueued :: !h.kind.Timer? && !h.kind.Task? ==>
                        h in s.loop.ran || h in s.loop.skipped)
                  && (forall h <- s.loop.enqueued :: h.kind.StopMe? ==> h.kind.event in s.loop.signalled))
  {
    Reachable(now, events);
    var s := Run(Start(now), events);
    if s.loop.mode.Closed? { ClosedLoopIsSettled(s.loop); }
  }

  lemma ClosedLoopIsSettled(s: S.State)
    requires S.Inv(s) && s.mode.Closed?
    ensures s.channel == [] && s.heap == [] && s.starting.None?
    ensures forall h <- s.enqueued :: !h.kind.Timer? && !h.kind.Task? ==> h in s.ran || h in s.skipped
    ensures forall h <- s.enqueued :: h.kind.StopMe? ==> h.kind.event in s.signalled
  {
    hide S.Placed;
    forall h | h in s.enqueued
      ensures !h.kind.Timer? && !h.kind.Task? ==> h in s.ran || h in s.skipped
      ensures h.kind.StopMe? ==> h.kind.event in s.signalled
    {
      G.TakenIsPlaced(s, h);
      if h.kind.StopMe? { G.StopMeHasRun(s, h); }
    }
  }

  /** A task of the inner nursery is only ever alive while the loop is open and nobody has
      begun to close the nursery behind it. */
  lemma TasksLiveInAnOpenLoop(now: int, events: seq<Event>)
    ensures var s := Run(Start(now), events);
            s.trioTasks != {} || s.waits != map[] ==>
              NurseryOpen(s) && s.loop.nurseryOpen && !S.IsClosed(s.loop.mode)
  {
    Reachable(now, events);
  }

  // Who is inside

  /** The task enters the nursery: somebody starts it while the nursery is open, or the loop
      has started it and it takes its first step. */
  predicate Enters(s: State, e: Event, id: nat) {
    || (e == TaskStarts(id) && NurseryOpen(s))
    || (e == InLoop(S.FirstStep) && s.loop.starting.Some? && s.loop.starting.value.id == id)
  }

  /** It leaves, which it cannot while it is in run_aio_future. */
  predicate Leaves(s: State, e: Event, id: nat) {
    ((e.TaskExits? && e.id == id) || e == TaskFails(id)) && id !in s.awaiting
  }

  predicate BeginsToWait(s: State, e: Event, id: nat) {
    e == TaskAwaits(id) && id in s.trioTasks
  }

  predicate ComesBack(s: State, e: Event, id: nat) {
    && e == TaskResumes(id) && id in s.awaiting
    && s.awaiting[id].CallbackQueued? && HasRun(s.loop, s.awaiting[id].callback)
  }

  /** Each Trio task is in the nursery from the event by which it enters to the one by which
      it leaves. */
  lemma WhoIsInside(s: State, e: Event, id: nat)
    requires Inv(s)
    ensures id in Step(s, e).trioTasks <==> (id in s.trioTasks && !Leaves(s, e, id)) || Enters(s, e, id)
  {
    hide Inv, S.Step, S.Do, HasRun, CanLeaveSync, NurseryIsEmpty, CloseNursery, LeaveSync;
    match e
    case InLoop(_) =>
    case TaskStarts(_) =>
    case TaskExits(_, _) =>
    case TaskFails(_) =>
    case NurseryExits(_) => CloseKeepsTasks(s, e);
    case SyncOver(_) => CloseKeepsTasks(s, e);
    case _ => TasksStay(s, e);
  }

  lemma CloseKeepsTasks(s: State, e: Event)
    requires e.NurseryExits? || e.SyncOver?
    ensures Step(s, e).trioTasks == s.trioTasks
  {
    hide S.Step;
  }

  lemma TasksStay(s: State, e: Event)
    requires !e.InLoop? && !e.TaskStarts? && !e.TaskExits? && !e.TaskFails? && !e.NurseryExits? && !e.SyncOver?
    ensures Step(s, e).trioTasks == s.trioTasks
  {
    hide S.Step, S.Do, HasRun;
  }

  /** Only a task that fails while it is inside cancels the nursery. */
  lemma FailureCancels(s: State, e: Event)
    ensures Step(s, e).tasksCancelled <==>
              s.tasksCancelled || (e.TaskFails? && e.id in s.trioTasks && e.id !in s.awaiting)
  {
    match e
    case TaskFails(_) =>
    case _ => OthersDoNotFail(s, e);
  }

  lemma OthersDoNotFail(s: State, e: Event)
    requires !e.TaskFails?
    ensures Step(s, e).tasksCancelled == s.tasksCancelled
  {
    hide S.Step, S.Do, HasRun, CanLeaveSync, NurseryIsEmpty;
  }

  /** Each of them is in run_aio_future from the call until it comes back. */
  lemma WhoWaits(s: State, e: Event, id: nat)
    requires Inv(s)
    ensures id in Step(s, e).awaiting <==> (id in s.awaiting && !ComesBack(s, e, id)) || BeginsToWait(s, e, id)
  {
    AwaitersAreInside(s);
    hide Inv, S.Step, S.Do, HasRun, CanLeaveSync, NurseryIsEmpty, CloseNursery, LeaveSync;
    match e
    case TaskAwaits(_) =>
    case AwaitedDone(_) =>
    case TaskResumes(_) =>
    case TaskExits(_, _) =>
    case TaskFails(_) =>
    case _ => WaitersStay(s, e);
  }

  lemma WaitersStay(s: State, e: Event)
    requires !e.TaskAwaits? && !e.AwaitedDone? && !e.TaskResumes? && !e.TaskExits? && !e.TaskFails?
    ensures Step(s, e).awaiting == s.awaiting
  {
    hide S.Step, S.Do, HasRun, CanLeaveSync, NurseryIsEmpty;
  }

  /** Each asyncio task is pending from its start until it is done; a closed loop starts and
      finishes none. */
  lemma WhatIsPending(s: State, e: Event, id: nat)
    requires Inv(s)
    ensures var t := Step(s, e);
            id in t.aioTasks <==>
              if S.IsClosed(s.loop.mode) then id in s.aioTasks
              else (id in s.aioTasks && e != AioDone(id)) || (e == AioStarts(id) && id !in s.aioAtSync)
  {
    hide Inv, S.Step, S.Do, HasRun, CanLeaveSync, NurseryIsEmpty;
  }

  lemma AwaitersAreInside(s: State)
    requires Inv(s)
    ensures s.awaiting.Keys <= s.trioTasks
  {
    hide LoopOk, SyncOk;
  }

  /** How many steps the finalizer still has to make. */
  function StepsLeft(s: State): nat {
    match s.finalizer
    case Idle => 0
    case Due(left) => left + 1
    case Queued(_, left) => left + 1
  }

  /** The finalizer takes as many steps as it needs, each noted when it has run, and is done
      with the last. */
  lemma FinalizerTakesItsSteps(s: State, e: Event)
    requires Inv(s)
    ensures var t := Step(s, e);
            var ran := s.phase.Finalizing? && e.FinalizerRuns?
                       && s.finalizer.Queued? && HasRun(s.loop, s.finalizer.step);
            && (s.phase.Finalizing? ==> StepsLeft(t) == StepsLeft(s) - (if ran then 1 else 0))
            && (s.phase.Finalizing? ==> (t.asyncgensDone <==> s.asyncgensDone || (ran && StepsLeft(s) == 1)))
            && (e.NurseryExits? && s.phase.ClosingTasks? && t.phase.Finalizing? ==>
                  if s.loop.mode.Running? && e.steps > 0 then t.finalizer == Due(e.steps - 1) && StepsLeft(t) == e.steps
                  else t.asyncgensDone)
  {
    hide Inv, S.Step, S.Do, HasRun;
  }

  /** A Trio task that exits is gone from the nursery, and calls back: what its future has
      scheduled is queued at once and, when the loop has been closed, has run, unless
      somebody has cancelled it. */
  lemma ExitingTaskCallsBack(now: int, before: seq<Event>, id: nat, callback: seq<S.Action>, after: seq<Event>)
    requires var s := Run(Start(now), before); id in s.trioTasks && id !in s.awaiting
    ensures var s := Run(Start(now), before);
            var t := Step(s, TaskExits(id, callback));
            var u := Run(t, after);
            var n := |s.loop.enqueued|;
            && t.trioTasks == s.trioTasks - {id}
            && n < |u.loop.enqueued| && u.loop.enqueued[n].script == callback
            && (u.loop.mode.Closed? ==> var h := u.loop.enqueued[n];
                                        h in u.loop.ran || (h in u.loop.skipped && h.id in u.loop.cancelled))
  {
    hide Inv, Run;
    var s := Run(Start(now), before);
    Reachable(now, before);
    InvStep(s, TaskExits(id, callback));
    var t := Step(s, TaskExits(id, callback));
    InvRun(t, after);
    QueueGrows(t, after);
    LoopIsValid(Run(t, after));
    TaskOpensLoop(s, id);
    C.CallSoonRuns(s.loop, callback, Run(t, after).loop);
    S.DoGrows(s.loop, S.CallSoon(callback));
    assert |t.loop.enqueued| > |s.loop.enqueued|;
  }

  lemma TaskOpensLoop(s: State, id: nat)
    requires Inv(s) && id in s.trioTasks
    ensures !S.IsClosed(s.loop.mode)
  {
    hide LoopOk, SyncOk;
  }

  lemma {:induction false} QueueGrows(s: State, events: seq<Event>)
    ensures s.loop.enqueued <= Run(s, events).loop.enqueued
    decreases |events|
  {
    hide Step;
    if events == [] {
    } else {
      StepGrowsQueue(s, events[0]);
      QueueGrows(Step(s, events[0]), events[1..]);
    }
  }

  lemma StepGrowsQueue(s: State, e: Event)
    ensures s.loop.enqueued <= Step(s, e).loop.enqueued
  {
    hide S.Step, S.Do;
    match e
    case InLoop(l) => T.StepGrowsQueue(s.loop, l);
    case TaskExits(_, callback) => S.DoGrows(s.loop, S.CallSoon(callback));
    case AioDone(_) => S.DoGrows(s.loop, S.Synchronize);
    case AwaitedDone(_) => S.DoGrows(s.loop, S.Synchronize);
    case BodyExits => S.DoGrows(s.loop, S.Synchronize);
    case FinalizerQueued => S.DoGrows(s.loop, S.Synchronize);
    case CallStop => S.DoGrows(s.loop, S.Stop);
    case NurseryExits(_) => T.StepGrowsQueue(s.loop, S.CloseNursery);
    case StopSeen => T.StepGrowsQueue(s.loop, S.BeginDrain);
    case _ =>
  }

  /** The wait for synchronize() ended because the loop had stopped, and what had ended the
      loop was queued before the body exited. */
  predicate StoppedEarly(s: State) {
    && s.loopAtSync.Some? && !s.cutShort
    && var loop := s.loopAtSync.value;
       loop.mode.Stopped? && G.Ender(loop).Some? && G.Ender(loop).value.id < s.barrier
  }

  /** The wait was cut short by a failing task before the loop had come to the callback. */
  predicate CutEarly(s: State) {
    s.loopAtSync.Some? && s.cutShort && S.Consumed(s.loopAtSync.value) <= s.barrier
  }

  /** Everything queued up to synchronize()'s own callback is settled. */
  ghost predicate SettledUpTo(loop: S.State, barrier: nat) {
    forall h <- loop.enqueued :: h.id <= barrier ==> T.Settled(loop, h)
  }

  /** When the shutdown of the tasks begins, every callback queued before the body exited
      is settled exactly if nobody had stopped the loop by then and no failing task has cut
      the wait short; and if so they stay settled. */
  lemma BodyCallbacksComeFirst(now: int, events: seq<Event>)
    ensures var s := Run(Start(now), events);
            && (s.loopAtSync.Some? <==> !InFront(s))
            && (s.loopAtSync.Some? ==>
                  && (SettledUpTo(s.loopAtSync.value, s.barrier) <==> !StoppedEarly(s) && !CutEarly(s))
                  && (SettledUpTo(s.loopAtSync.value, s.barrier) ==> SettledUpTo(s.loop, s.barrier)))
            && (s.cutShort ==> s.tasksCancelled)
  {
    Reachable(now, events);
    var s := Run(Start(now), events);
    if s.loopAtSync.Some? {
      var loop := s.loopAtSync.value;
      SettledIffRun(loop, s.barrier);
      if HasRun(loop, s.barrier) { RunSettles(s.loop, s.barrier); }
      hide S.Inv, SettledUpTo, G.StopPending, G.LossOk, HasRun;
      assert G.EndsThere(loop);
    }
  }

  lemma SettledIffRun(loop: S.State, barrier: nat)
    requires S.Inv(loop) && BarrierQueued(loop, barrier)
    ensures SettledUpTo(loop, barrier) <==> HasRun(loop, barrier)
    ensures HasRun(loop, barrier) <==> barrier < S.Consumed(loop)
  {
    var h := loop.enqueued[barrier];
    if barrier < S.Consumed(loop) {
      SyncHandleRan(loop, barrier);
      RunSettles(loop, barrier);
    } else {
      NotReachedYet(loop, barrier);
    }
  }

  lemma SyncHandleRan(loop: S.State, barrier: nat)
    requires S.Inv(loop) && BarrierQueued(loop, barrier) && barrier < S.Consumed(loop)
    ensures HasRun(loop, barrier)
  {
    var h := loop.enqueued[barrier];
    assert h == S.Taken(loop)[barrier];
    assert h in multiset(S.Taken(loop));
    assert h.id == barrier;
    assert h in loop.ran;
  }

  lemma NotReachedYet(loop: S.State, barrier: nat)
    requires S.Inv(loop) && BarrierQueued(loop, barrier) && S.Consumed(loop) <= barrier
    ensures !HasRun(loop, barrier) && !SettledUpTo(loop, barrier)
  {
    hide S.Placed;
    var h := loop.enqueued[barrier];
    assert h.id == barrier && h in loop.enqueued;
    assert h == loop.channel[barrier - S.Consumed(loop)];
    assert !T.Settled(loop, h);
  }

  lemma RunSettles(loop: S.State, barrier: nat)
    requires S.Inv(loop) && HasRun(loop, barrier)
    ensures SettledUpTo(loop, barrier)
  {
    var b :| b in loop.ran && b.id == barrier;
    T.RunIsABarrier(loop, b);
    T.PlacedIsTaken(loop, b);
    RanIsSettled(loop, b);
    hide S.Inv, T.Settled;
    forall h | h in loop.enqueued && h.id <= barrier ensures T.Settled(loop, h) {
      if h.id == barrier { SameId(loop, h, b); }
    }
  }

  lemma SameId(loop: S.State, g: S.Handle, h: S.Handle)
    requires S.Inv(loop) && g in loop.enqueued && h in loop.enqueued && g.id == h.id
    ensures g == h
  {
    hide S.Placed;
  }

  lemma RanIsSettled(loop: S.State, h: S.Handle)
    requires S.Inv(loop) && h in loop.ran
    ensures T.Settled(loop, h)
  {
    hide S.Placed;
    forall k | 0 <= k < |loop.channel| ensures loop.channel[k] != h {
      assert loop.channel[k] == loop.enqueued[S.Consumed(loop) + k];
    }
  }

  /** A failing task does cut the wait short: here a callback queued in the body is still
      in the channel when the shutdown of the tasks begins. */
  lemma CutBeforeCallbacks(now: int)
    ensures var s := Run(Start(now), [InLoop(S.Request(S.CallSoon([]))), TaskStarts(1), TaskFails(1), BodyExits,
                                      SyncOver(true)]);
            s.phase.ClosingTasks? && CutEarly(s) && s.loop.channel[..s.barrier] == [S.Handle(0, S.Soon, [])]
  {
    hide Run, Step;
    RunFive(Start(now), InLoop(S.Request(S.CallSoon([]))), TaskStarts(1), TaskFails(1), BodyExits, SyncOver(true));
    FailureCuts(Start(now));
  }

  lemma FailureCuts(s: State)
    requires s.phase.InBody? && s.trioTasks == {} && s.awaiting == map[] && s.loop.mode.Running?
    requires s.loop.channel == [] && s.loop.enqueued == []
    ensures var t := Step(Step(Step(Step(Step(s, InLoop(S.Request(S.CallSoon([])))), TaskStarts(1)), TaskFails(1)),
                               BodyExits), SyncOver(true));
            && t.phase.ClosingTasks? && CutEarly(t) && t.barrier == 1
            && t.loop.channel == [S.Handle(0, S.Soon, []), S.Handle(1, S.Sync, [])]
  {
    var s1 := Step(s, InLoop(S.Request(S.CallSoon([]))));
    var s2 := Step(Step(s1, TaskStarts(1)), TaskFails(1));
    assert s2.tasksCancelled && s2.loop == s1.loop && s2.phase.InBody?;
    var s3 := Step(s2, BodyExits);
    assert s3.loop.channel == [S.Handle(0, S.Soon, []), S.Handle(1, S.Sync, [])] && s3.barrier == 1;
  }

  /** And whenever the last task of the inner nursery fails, the nursery can close over all
      the asyncio tasks that are pending. */
  lemma FailureLeavesTasksPending(s: State, id: nat)
    requires s.phase.InBody? && s.trioTasks == {id} && s.waits == map[] && s.loop.starting.None?
    requires id !in s.awaiting
    ensures var t := Run(s, [TaskFails(id), BodyExits, SyncOver(true), NurseryExits(0)]);
            t.phase.Finalizing? && t.aioTasks == t.aioAtSync == s.aioTasks
  {
    hide S.Do, Run;
    RunFour(s, TaskFails(id), BodyExits, SyncOver(true), NurseryExits(0));
    S.DoGrows(s.loop, S.Synchronize);
  }

  /** The wait for the main loop in the exit cannot hang: a stop_me is in the channel, so
      the loop stops within StopRank iterations, whatever happens meanwhile. */
  lemma ExitWaitEnds(now: int, events: seq<Event>, after: seq<S.Label>)
    requires Run(Start(now), events).phase.Stopping?
    ensures var loop := Run(Start(now), events).loop;
            loop.mode.Stopped? ||
            (loop.mode.Running? && G.AnyStop(loop.channel)
             && (G.Iterations(loop, after) >= G.StopRank(loop) ==> G.Over(S.Run(loop, after).mode)))
  {
    Reachable(now, events);
    var loop := Run(Start(now), events).loop;
    if loop.mode.Running? {
      hide S.Inv;
      assert G.AnyStop(loop.channel);
      G.StopComes(loop, after);
    }
  }

  // Tasks that come too late

  /** The main loop, or the exit, fails exactly when a handle is lost, and what is lost is
      an AsyncHandle that the loop reached after the inner nursery was closed. */
  lemma ExitFailsIff(now: int, events: seq<Event>)
    ensures var s := Run(Start(now), events);
            && (s.loop.lost != [] <==> s.loop.mode.Failed? || (G.Over(s.loop.mode) && s.loop.stopper.None?))
            && (s.loop.lost != [] ==> !NurseryOpen(s) && forall h <- s.loop.lost :: h.kind.Task?)
  {
    Reachable(now, events);
    LostAreTasks(Run(Start(now), events).loop);
    hide S.Inv;
  }

  lemma LostAreTasks(loop: S.State)
    requires S.Inv(loop)
    ensures (forall h <- loop.lost :: h.kind.Task?) && (loop.lost != [] ==> !loop.nurseryOpen)
  {
    hide S.Placed;
  }

  lemma {:induction false} TasksStaySplit(s: State, events: seq<Event>, c: nat)
    requires Inv(s) && !NurseryOpen(s) && G.TasksSplitAt(s.loop, c)
    ensures G.TasksSplitAt(Run(s, events).loop, c)
    decreases |events|
  {
    hide Inv, G.TasksSplitAt, Step;
    if events == [] {
    } else {
      InvStep(s, events[0]);
      EventKeepsSplit(s, events[0], c);
      TasksStaySplit(Step(s, events[0]), events[1..], c);
    }
  }

  lemma EventKeepsSplit(s: State, e: Event, c: nat)
    requires Inv(s) && !NurseryOpen(s) && G.TasksSplitAt(s.loop, c)
    ensures G.TasksSplitAt(Step(s, e).loop, c) && !NurseryOpen(Step(s, e))
  {
    hide S.Inv, S.Step, S.Do, G.TasksSplitAt;
    match e
    case InLoop(l) => G.StepKeepsSplit(s.loop, l, c);
    case CallStop => DoKeepsSplit(s.loop, S.Stop, c);
    case FinalizerQueued => DoKeepsSplit(s.loop, S.Synchronize, c);
    case StopSeen => G.StepKeepsSplit(s.loop, S.BeginDrain, c);
    case _ =>
  }

  lemma DoKeepsSplit(s: S.State, a: S.Action, c: nat)
    requires S.Inv(s) && G.TasksSplitAt(s, c)
    ensures G.TasksSplitAt(S.Do(s, a), c)
  {
    hide S.Inv, G.TasksSplitAt;
    G.StepKeepsSplit(s, S.Request(a), c);
  }

  /** Which Trio tasks are lost: of those that the loop ever takes from the channel, exactly
      the ones that it had not yet taken when the inner nursery was closed, whenever they
      were queued. */
  lemma LateTasksAreLost(now: int, before: seq<Event>, steps: nat, after: seq<Event>, h: S.Handle)
    requires var s := Run(Start(now), before);
             s.phase.ClosingTasks? && Step(s, NurseryExits(steps)).phase.Finalizing?
    requires var t := Run(Step(Run(Start(now), before), NurseryExits(steps)), after);
             h in t.loop.enqueued && h !in t.loop.channel && h.kind.Task?
    ensures var s := Run(Start(now), before);
            var t := Run(Step(s, NurseryExits(steps)), after);
            h in t.loop.lost <==> h.id >= S.Consumed(s.loop)
  {
    hide Inv, G.TasksSplitAt, Step;
    var s := Run(Start(now), before);
    var t0 := Step(s, NurseryExits(steps));
    Reachable(now, before);
    InvStep(s, NurseryExits(steps));
    ClosingSplits(s, steps);
    InvRun(t0, after);
    TasksStaySplit(t0, after, S.Consumed(s.loop));
    SplitDecides(Run(t0, after), S.Consumed(s.loop), h);
  }

  lemma ClosingSplits(s: State, steps: nat)
    requires Inv(s) && s.phase.ClosingTasks? && Step(s, NurseryExits(steps)).phase.Finalizing?
    ensures G.TasksSplitAt(Step(s, NurseryExits(steps)).loop, S.Consumed(s.loop)) && S.Consumed(s.loop) >= 0
  {
    hide S.Inv, S.Step, G.TasksSplitAt, SyncOk;
    G.ClosingSplitsTasks(s.loop);
    ConsumedIsNat(s.loop);
  }

  lemma ConsumedIsNat(s: S.State)
    requires S.Inv(s)
    ensures S.Consumed(s) >= 0
  {
  }

  lemma SplitDecides(t: State, c: nat, h: S.Handle)
    requires Inv(t) && G.TasksSplitAt(t.loop, c) && h in t.loop.enqueued && h !in t.loop.channel && h.kind.Task?
    ensures h in t.loop.lost <==> h.id >= c
  {
    hide G.TasksSplitAt, S.Inv;
    G.LostIff(t.loop, c, h);
  }

  /** A body that has queued nothing, up to the shutdown of the tasks. */
  function Quiet(now: int): State {
    Run(Start(now), [BodyExits, InLoop(S.Loop(0, false)), SyncOver(false)])
  }

  /** A running loop with nothing to do. */
  predicate IdleLoop(loop: S.State) {
    && loop.mode.Running? && loop.starting.None? && loop.nurseryOpen && !loop.stopWait
    && loop.heap == [] && loop.channel == [] && |loop.enqueued| == 1
    && loop.lost == [] && loop.stopper.None? && loop.cancelled == {}
  }

  predicate IsQuiet(s: State) {
    && s.phase.ClosingTasks? && s.trioTasks == {} && s.waits == map[] && s.awaiting == map[]
    && !s.asyncgensDone && s.finalizer.Idle? && IdleLoop(s.loop)
  }

  lemma QuietIsQuiet(now: int)
    ensures Inv(Quiet(now)) && IsQuiet(Quiet(now))
  {
    hide Inv, Run, Step, IsQuiet;
    Reachable(now, [BodyExits, InLoop(S.Loop(0, false)), SyncOver(false)]);
    RunThree(Start(now), BodyExits, InLoop(S.Loop(0, false)), SyncOver(false));
    BarrierRuns(now);
    SyncedIsQuiet(Step(Step(Start(now), BodyExits), InLoop(S.Loop(0, false))));
  }

  lemma SyncedIsQuiet(s: State)
    requires s.phase.Syncing? && HasRun(s.loop, s.barrier) && IdleLoop(s.loop)
    requires s.trioTasks == {} && s.aioTasks == {} && s.awaiting == map[] && !s.asyncgensDone && s.finalizer.Idle?
    ensures IsQuiet(Step(s, SyncOver(false)))
  {
  }

  lemma BarrierRuns(now: int)
    ensures var s := Step(Step(Start(now), BodyExits), InLoop(S.Loop(0, false)));
            && IdleLoop(s.loop) && HasRun(s.loop, 0) && s.phase.Syncing? && s.barrier == 0
            && s == Start(now).(loop := s.loop, phase := Syncing, barrier := 0)
  {
    var s1 := Step(Start(now), BodyExits);
    assert s1.loop.channel == [S.Handle(0, S.Sync, [])];
    var s2 := Step(s1, InLoop(S.Loop(0, false)));
    assert s2.loop.ran == [S.Handle(0, S.Sync, [])] && s2.loop.ran[0].id == 0;
  }

  /** So a task can be queued in time and still be lost. Here it is queued while the
      nursery is open, but the loop comes to it only after the nursery has been closed. */
  lemma QueuedInTimeAndLost(now: int)
    ensures var s := Step(Quiet(now), InLoop(S.Request(S.RunTask)));
            var t := Run(s, [NurseryExits(0), InLoop(S.Loop(0, false))]);
            var h := S.Handle(1, S.Task, []);
            && s.loop.nurseryOpen && s.loop.channel == [h]
            && t.loop.lost == [h] && t.loop.mode.Stopped? && t.loop.stopper.None?
  {
    hide Inv, Run, Step, Quiet;
    QuietIsQuiet(now);
    RunTwo(Step(Quiet(now), InLoop(S.Request(S.RunTask))), NurseryExits(0), InLoop(S.Loop(0, false)));
    LateTaskIsLost(Quiet(now).loop);
    LateTaskEvents(Quiet(now));
  }

  lemma LateTaskEvents(s: State)
    requires IsQuiet(s) && S.Do(s.loop, S.RunTask).starting.None?
    ensures var s1 := Step(s, InLoop(S.Request(S.RunTask)));
            && s1.loop == S.Do(s.loop, S.RunTask)
            && Step(Step(s1, NurseryExits(0)), InLoop(S.Loop(0, false))).loop
               == S.Step(S.Step(s1.loop, S.CloseNursery), S.Loop(0, false))
  {
    hide S.Do;
  }

  lemma LateTaskIsLost(s: S.State)
    requires IdleLoop(s)
    ensures var h := S.Handle(1, S.Task, []);
            var s1 := S.Do(s, S.RunTask);
            var t := S.Step(S.Step(s1, S.CloseNursery), S.Loop(0, false));
            && s1.channel == [h] && s1.nurseryOpen && s1.mode.Running? && s1.starting.None?
            && t.lost == [h] && t.mode.Stopped? && t.stopper.None?
  {
    var s2 := S.Step(S.Do(s, S.RunTask), S.CloseNursery);
    assert S.LoopEnabled(s2) && !S.FiresNow(s2, false);
    assert S.Iterate(s2, 0, false) == S.Consume(s2);
  }

  /** And the exit itself fails of a task that is queued behind its stop_me. */
  lemma ExitCanFail(now: int)
    ensures var loop := InLoop(S.Loop(0, false));
            var s := Run(Quiet(now), [NurseryExits(0), CallStop, InLoop(S.Request(S.RunTask)), loop, StopSeen]);
            var t := Step(s, loop);
            s.loop.mode.Draining? && s.loop.stopper.Some? && t.loop.mode.Failed?
  {
    hide Inv, Run, Step, Quiet;
    QuietIsQuiet(now);
    RunFive(Quiet(now), NurseryExits(0), CallStop, InLoop(S.Request(S.RunTask)), InLoop(S.Loop(0, false)), StopSeen);
    TaskBehindStop(Quiet(now).loop);
    ExitEvents(Quiet(now));
    LoopOnly(Run(Quiet(now), [NurseryExits(0), CallStop, InLoop(S.Request(S.RunTask)), InLoop(S.Loop(0, false)),
                              StopSeen]), S.Loop(0, false));
  }

  lemma LoopOnly(s: State, l: S.Label)
    requires Free(l)
    ensures Step(s, InLoop(l)).loop == S.Step(s.loop, l)
  {
    hide S.Step;
  }

  lemma ExitEvents(s: State)
    requires IsQuiet(s)
    requires S.Step(S.Do(S.Do(S.Step(s.loop, S.CloseNursery), S.Stop), S.RunTask), S.Loop(0, false)).mode.Stopped?
    ensures var loop := InLoop(S.Loop(0, false));
            var s1 := Step(Step(Step(s, NurseryExits(0)), CallStop), InLoop(S.Request(S.RunTask)));
            && s1.loop == S.Do(S.Do(S.Step(s.loop, S.CloseNursery), S.Stop), S.RunTask)
            && Step(Step(s1, loop), StopSeen).loop == S.Step(S.Step(s1.loop, S.Loop(0, false)), S.BeginDrain)
  {
    hide S.Do, S.LoopStep;
    var s1 := Step(Step(Step(s, NurseryExits(0)), CallStop), InLoop(S.Request(S.RunTask)));
    assert s1.phase.Stopping?;
  }

  lemma TaskBehindStop(s: S.State)
    requires IdleLoop(s)
    ensures var s1 := S.Do(S.Do(S.Step(s, S.CloseNursery), S.Stop), S.RunTask);
            var s2 := S.Step(s1, S.Loop(0, false));
            var s3 := S.Step(s2, S.BeginDrain);
            && s2.mode.Stopped? && s3.mode.Draining? && s3.stopper.Some?
            && S.Step(s3, S.Loop(0, false)).mode.Failed?
  {
    var s1 := S.Do(S.Do(S.Step(s, S.CloseNursery), S.Stop), S.RunTask);
    assert s1.channel == [S.Handle(1, S.StopMe(S.Own), []), S.Handle(2, S.Task, [])];
    var s2 := S.Step(s1, S.Loop(0, false));
    assert s2.channel == [S.Handle(2, S.Task, [])];
  }
}

/** The same teardown as open_loop's own steps, on a loop object. */
module OpenLoops {
  import opened Options
  import opened EventLoops
  import O = OpenLoop
  import S = Scheduler
  import G = SchedulerProgress
  import D = DispatcherProtocol
  import Dispatchers

  /** What becomes of the loop's reference to the dispatcher of the async generator hooks:
      uninstall() comes after the drain, and a drain that fails never gets there. */
  function Release(m: S.Mode, loop: nat): D.Event {
    if m.Failed? then D.FailingClose(loop) else D.Close(loop)
  }

  /** So the exit of the last loop brings Trio's hooks back exactly if its drain has not
      failed, and no earlier one has. */
  lemma HooksBackIff(now: int, events: seq<O.Event>, before: seq<D.Event>, id: nat)
    requires var m := O.Run(O.Start(now), events).loop.mode; S.IsClosed(m)
    requires id in D.Run(D.Initial(), before).loops
    ensures var d := D.Run(D.Initial(), before);
            var s := O.Run(O.Start(now), events);
            D.Step(d, Release(s.loop.mode, id)).hooks == D.Trio
            <==> d.loops.Keys == {id} && d.failed == [] && s.loop.mode.Closed?
  {
    var d := D.Run(D.Initial(), before);
    var m := O.Run(O.Start(now), events).loop.mode;
    D.InvInitial();
    D.InvRun(D.Initial(), before);
    D.InvStep(d, Release(m, id));
    var t := D.Step(d, Release(m, id));
    D.TrioIff(t);
    assert t.loops == d.loops - {id};
    assert t.loops == map[] <==> d.loops.Keys == {id};
  }

  class Context {
    const loop: EventLoop
    var phase: O.Phase
    var trioTasks: set<nat>
    var aioTasks: set<nat>
    var waits: map<nat, O.Wait>
    var awaiting: map<nat, O.Wait>
    var tasksCancelled: bool
    var finalizer: O.Finalizer
    var asyncgensDone: bool
    ghost var barrier: nat
    ghost var cutShort: bool
    ghost var loopAtSync: Option<S.State>
    ghost var aioAtSync: set<nat>

    ghost function Model(): O.State
      reads this, loop
    {
      O.State(loop.Model(), phase, trioTasks, aioTasks, waits, awaiting, tasksCancelled, finalizer, asyncgensDone,
              barrier, cutShort, loopAtSync, aioAtSync, 0)
    }

    ghost predicate Valid()
      reads this, loop
    {
      O.Inv(Model())
    }

    constructor (l: EventLoop)
      requires l.Valid() && exists now :: l.Model() == S.Step(S.Initial(now), S.Begin)
      ensures Valid() && loop == l && exists now :: Model() == O.Start(now)
    {
      loop := l;
      phase, trioTasks, aioTasks, waits, awaiting := O.InBody, {}, {}, map[], map[];
      tasksCancelled, finalizer, asyncgensDone := false, O.Idle, false;
      barrier, cutShort, loopAtSync, aioAtSync := 0, false, None, {};
      new;
      ghost var now :| l.Model() == S.Step(S.Initial(now), S.Begin);
      O.InvStart(now);
      assert Model() == O.Start(now);
    }

    /** A Trio task of the inner nursery exits: its future schedules a callback. By the
        invariant the loop is open then. */
    method TaskExits(id: nat, callback: seq<S.Action>)
      requires Valid() && id in trioTasks && id !in awaiting
      modifies this`trioTasks, loop
      ensures Valid() && Model() == O.Step(old(Model()), O.TaskExits(id, callback)) && !S.IsClosed(loop.mode)
    {
      hide S.Inv, S.Do, S.Step, O.SyncOk;
      O.InvStep(Model(), O.TaskExits(id, callback));
      trioTasks := trioTasks - {id};
      loop.Perform(S.CallSoon(callback));
    }

    /** A Trio task of the inner nursery raises, and so cancels the nursery. */
    method TaskFails(id: nat)
      requires Valid() && id in trioTasks && id !in awaiting
      modifies this`trioTasks, this`tasksCancelled
      ensures Valid() && Model() == O.Step(old(Model()), O.TaskFails(id))
    {
      hide O.LoopOk;
      O.InvStep(Model(), O.TaskFails(id));
      trioTasks := trioTasks - {id};
      tasksCancelled := true;
    }

    /** The body is left: synchronize() queues its callback. */
    method BodyExits()
      requires Valid() && phase.InBody?
      modifies this, loop
      ensures Valid() && Model() == O.Step(old(Model()), O.BodyExits)
    {
      hide S.Inv, S.Do, S.Step, O.Inv;
      O.InvStep(Model(), O.BodyExits);
      O.LoopIsValid(Model());
      barrier := |loop.handles|;
      phase := O.Syncing;
      loop.Perform(S.Synchronize);
    }

    /** The wait in sync_nursery is over. Normally one waits next for each pending asyncio
        task in the inner nursery, and cancels that nursery; if it has been cancelled
        already, that may have ended the wait, and nothing of the kind is done. */
    method SyncOver(cut: bool)
      requires Valid() && O.CanLeaveSync(Model(), cut)
      modifies this
      ensures Valid() && Model() == O.Step(old(Model()), O.SyncOver(cut))
    {
      hide O.Inv, O.Step, O.CanLeaveSync;
      O.StepLeaves(Model(), cut);
      cutShort, loopAtSync, aioAtSync := cut, Some(loop.Model()), aioTasks;
      if cut {
        waits := map[];
      } else {
        waits := map id | id in aioTasks :: O.Pending;
      }
      phase := O.ClosingTasks;
    }

    /** It calls run_aio_future. */
    method TaskAwaits(id: nat)
      requires Valid() && id in trioTasks && id !in awaiting
      modifies this`awaiting
      ensures Valid() && Model() == O.Step(old(Model()), O.TaskAwaits(id))
    {
      hide O.LoopOk;
      O.InvStep(Model(), O.TaskAwaits(id));
      awaiting := awaiting[id := O.Pending];
    }

    /** The future that the task waits for is done, and queues its callback. */
    method AwaitedDone(id: nat)
      requires Valid() && id in awaiting && awaiting[id].Pending?
      modifies this`awaiting, loop
      ensures Valid() && Model() == O.Step(old(Model()), O.AwaitedDone(id))
    {
      hide S.Inv, S.Do, S.Step, O.Inv;
      O.InvStep(Model(), O.AwaitedDone(id));
      O.LoopIsValid(Model());
      awaiting := awaiting[id := O.CallbackQueued(|loop.handles|)];
      loop.Perform(S.Synchronize);
    }

    /** The inner nursery has no children left and closes. */
    method NurseryExits(steps: nat)
      requires Valid() && O.NurseryIsEmpty(Model())
      modifies this, loop
      ensures Valid() && Model() == O.Step(old(Model()), O.NurseryExits(steps))
    {
      hide S.Inv, S.Do, S.Step, O.Inv, O.Step, O.NurseryIsEmpty;
      O.StepCloses(Model(), steps);
      O.LoopIsValid(Model());
      var nothingToDo := steps == 0 || !loop.mode.Running?;
      loop.Elsewhere(S.CloseNursery);
      phase := O.Finalizing;
      finalizer := if nothingToDo then finalizer else O.Due(steps - 1);
      asyncgensDone := asyncgensDone || nothingToDo;
    }

    /** The next step of the coroutine that finalizes the async generators is queued. */
    method FinalizerQueued()
      requires Valid() && phase.Finalizing? && finalizer.Due?
      modifies this`finalizer, loop
      ensures Valid() && Model() == O.Step(old(Model()), O.FinalizerQueued)
    {
      hide S.Inv, S.Do, S.Step, O.Inv;
      O.InvStep(Model(), O.FinalizerQueued);
      O.LoopIsValid(Model());
      finalizer := O.Queued(|loop.handles|, finalizer.left);
      loop.Perform(S.Synchronize);
    }

    method CallStop()
      requires Valid() && phase.Finalizing? && asyncgensDone
      modifies this, loop
      ensures Valid() && Model() == O.Step(old(Model()), O.CallStop)
    {
      hide S.Inv, S.Do, S.Step, O.Inv;
      O.InvStep(Model(), O.CallStop);
      O.LoopIsValid(Model());
      phase := O.Stopping;
      loop.Perform(S.Stop);
    }

    /** wait_stopped() has returned: drain, cancel the rest, close. `ok` is the normal exit;
        either way the loop ends up closed. `events` is what the exit does, as a run of the
        teardown. */
    method ExitLoop(rounds: nat -> Round, ghost budget: nat) returns (ok: bool, ghost events: seq<O.Event>)
      requires Valid() && phase.Stopping? && loop.mode.Stopped?
      requires forall n: nat :: forall l <- rounds(n).meanwhile :: O.Free(l) && !l.Loop?
      requires forall n: nat :: G.RequestedWork(EventLoop.DrainLabels(rounds, n)) <= budget
      modifies this, loop
      ensures Valid() && Model() == O.Run(old(Model()), events)
      ensures S.IsClosed(loop.mode) && (ok <==> loop.mode.Closed?)
      ensures ok ==> loop.channel == [] && loop.timers == []
      ensures trioTasks == {} && waits == map[] && (!cutShort ==> aioTasks * aioAtSync == {})
      ensures !ok ==> loop.lost != []
    {
      hide S.Inv, S.Step, G.RequestedWork;
      ghost var s := Model();
      O.InvStep(s, O.StopSeen);
      O.DrainFrame(loop.Model());
      phase := O.Exiting;
      loop.Elsewhere(S.BeginDrain);
      ghost var t := Model();
      assert t == O.Step(s, O.StopSeen);
      var used;
      ok, used := loop.DrainAndClose(rounds, budget);
      ghost var labels := EventLoop.DrainLabels(rounds, used);
      DrainIsFree(rounds, used);
      events := [O.StopSeen] + InLoops(labels);
      ExitIsARun(s, t, labels);
    }

    static lemma {:induction false} DrainIsFree(rounds: nat -> Round, n: nat)
      requires forall k: nat :: forall l <- rounds(k).meanwhile :: O.Free(l)
      ensures forall l <- EventLoop.DrainLabels(rounds, n) :: O.Free(l)
    {
      if n > 0 { DrainIsFree(rounds, n - 1); }
    }

    /** The end of _main_loop_exit, with the interpreter's hooks. */
    method ExitAndRelease(rounds: nat -> Round, ghost budget: nat,
                          interpreter: Dispatchers.Interpreter, id: nat, d: Dispatchers.AsyncGeneratorDispatcher)
      returns (ok: bool, ghost events: seq<O.Event>)
      requires Valid() && phase.Stopping? && loop.mode.Stopped?
      requires forall n: nat :: forall l <- rounds(n).meanwhile :: O.Free(l) && !l.Loop?
      requires forall n: nat :: G.RequestedWork(EventLoop.DrainLabels(rounds, n)) <= budget
      requires interpreter.Valid() && d in interpreter.all
      requires id in interpreter.loops && interpreter.loops[id] == d.number
      modifies this, loop, interpreter, interpreter.all
      ensures Valid() && Model() == O.Run(old(Model()), events) && S.IsClosed(loop.mode)
      ensures interpreter.Valid()
              && interpreter.Model() == D.Step(old(interpreter.Model()), Release(loop.mode, id))
    {
      hide O.Inv, D.Inv, D.Step, O.Run;
      ok, events := ExitLoop(rounds, budget);
      if ok {
        interpreter.Uninstall(id, d);
      } else {
        interpreter.Abandon(id);
      }
    }

    static function InLoops(labels: seq<S.Label>): seq<O.Event> {
      if labels == [] then [] else [O.InLoop(labels[0])] + InLoops(labels[1..])
    }

    static lemma ExitIsARun(s: O.State, t: O.State, labels: seq<S.Label>)
      requires O.Inv(t) && t.phase.Exiting? && t == O.Step(s, O.StopSeen)
      requires forall l <- labels :: O.Free(l)
      ensures var u := O.Run(s, [O.StopSeen] + InLoops(labels));
              u == t.(loop := S.Run(t.loop, labels)) && O.Inv(u)
    {
      hide O.Inv, O.Step;
      O.RunCons(s, O.StopSeen, InLoops(labels));
      ExitRun(t, labels);
      O.InvRun(t, InLoops(labels));
    }

    static lemma {:induction false} ExitRun(s: O.State, labels: seq<S.Label>)
      requires O.Inv(s) && s.phase.Exiting?
      requires forall l <- labels :: O.Free(l)
      ensures O.Run(s, InLoops(labels)) == s.(loop := S.Run(s.loop, labels))
      decreases |labels|
    {
      hide O.LoopOk, S.Step, O.SyncOk;
      if labels == [] {
      } else {
        var t := O.Step(s, O.InLoop(labels[0]));
        O.InvStep(s, O.InLoop(labels[0]));
        assert s.trioTasks + {} == s.trioTasks;
        assert t == s.(loop := S.Step(s.loop, labels[0]));
        O.RunCons(s, O.InLoop(labels[0]), InLoops(labels[1..]));
        ExitRun(t, labels[1..]);
      }
    }
  }
}
