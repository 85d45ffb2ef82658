/** The protocol that ties together an asyncio future, the Trio task that computes its
    result (`AsyncHandle`) and a Trio task waiting for it (`run_aio_future`), as a
    transition system whose events may come in any order. */
module TaskProtocol {
  import opened Options
  import opened ExceptionTrees

  type Message = Option<string>

  datatype Outcome = Value(v: int) | Failed(e: Exc) | WasCancelled(msg: Message)

  /** `Absent`: the handle was created without a result future. */
  datatype Fut = Absent | Pending | Done(outcome: Outcome)

  /** How the awaited callback ended. */
  datatype BodyEnd = Returned(v: int) | Raised(e: Exc)

  /** Queued in the loop, taken from the queue and spawned, in its callback, over. */
  datatype Stage = Queued | Spawned | InBody | Exited

  datatype Handle = Handle(
    fut: Fut,
    cancelled: bool,           // asyncio.Handle._cancelled
    scopeCancelled: bool,      // the handle's Trio cancel scope
    finished: bool,
    cancelMessage: Message,
    stage: Stage,
    escaped: Option<Exc>,      // raised out of _run, into the nursery
    reported: Option<Exc>,     // given to the loop's exception handler
    invalidState: bool,        // a result was set on a future that already had one
    // history
    requests: seq<Message>,    // cancel() calls accepted while the task was unfinished
    bodyEnd: Option<BodyEnd>,
    absorbed: bool,            // the scope swallowed the Cancelled exceptions
    resolutions: nat)

  function NewHandle(withFuture: bool): Handle {
    Handle(if withFuture then Pending else Absent, false, false, false, None, Queued,
           None, None, false, [], None, false, 0)
  }

  function Resolve(h: Handle, o: Outcome): Handle {
    h.(fut := Done(o), resolutions := h.resolutions + 1)
  }

  /** Future.set_result and Future.set_exception. */
  function SetOutcome(h: Handle, o: Outcome): Handle {
    if h.fut.Pending? then Resolve(h, o) else h.(invalidState := true)
  }

  /** The future's own cancel(). */
  function OrigCancel(h: Handle, msg: Message): Handle {
    if h.fut.Pending? then Resolve(h, WasCancelled(msg)) else h
  }

  /** Future.cancelled(). */
  predicate IsCancelled(f: Fut) {
    f.Done? && f.outcome.WasCancelled?
  }

  /** ScopedHandle.cancel. */
  function CancelHandle(h: Handle): Handle {
    h.(cancelled := true, scopeCancelled := true)
  }

  /** The future's cancel() once a handle has wrapped it. */
  function WrappedCancel(h: Handle, msg: Message): Handle {
    if h.fut.Absent? then h
    else if h.finished then
      OrigCancel(h, if msg.Some? then msg else h.cancelMessage)
    else if h.fut.Done? then h
    else CancelHandle(h).(cancelMessage := msg, requests := h.requests + [msg])
  }

  /** The task's first step: a handle cancelled by then has lost its callback. */
  function Enter(h: Handle): Handle {
    if h.cancelled then
      var h1 := h.(finished := true, stage := Exited);
      if h1.fut.Pending? then WrappedCancel(h1, None) else h1
    else h.(stage := InBody)
  }

  /** Trio's contract for leaving the scope: when its own cancellation is in force and no
      enclosing one is, the Cancelled leaves are swallowed. */
  function ScopeExit(e: Exc, absorbs: bool): Option<Exc> {
    if absorbs then CollapseAwareSplit(e, AnyTrioCancelled).1 else Some(e)
  }

  /** The rest of the task's run, from the end of the callback. */
  function Leave(h: Handle, end: BodyEnd, absorbs: bool): Handle {
    var h1 := h.(finished := true, bodyEnd := Some(end), absorbed := absorbs, stage := Exited);
    match end
    case Returned(v) =>
      if h1.fut.Absent? || IsCancelled(h1.fut) then h1
      else SetOutcome(h1, Value(v))
    case Raised(e) =>
      var out := ScopeExit(e, absorbs);
      if out.None? then WrappedCancel(h1, None)
      else RunExcept(h1, out.value)
  }

  /** The except clause of the run: `exc` has escaped from the scope. */
  function RunExcept(h: Handle, exc: Exc): Handle {
    if h.fut.Absent? then
      var (rest, base) := CollapseAwareSplit(exc, AnyException);
      h.(reported := rest, escaped := base)
    else
      var (cancelled, rest) := CollapseAwareSplit(exc, AnyTrioCancelled);
      var h1 :=
        if IsCancelled(h.fut) then h
        else if rest.Some? then SetOutcome(h, Failed(rest.value))
        else WrappedCancel(h, None);
      h1.(escaped := cancelled)
  }

  // The waiting task

  datatype Callback = Unregistered | Registered | Scheduled | Called

  datatype Seen = Got(v: int) | SawTrioCancelled | SawAioCancelled | SawError(e: Exc)

  datatype Phase = Away | Waiting | Rescheduled(o: Outcome) | Resumed(seen: Seen)

  datatype Waiter = Waiter(
    phase: Phase,
    callback: Callback,
    raiseCancel: bool,         // abort_cb has been called
    reschedules: nat,
    misscheduled: bool)        // a task that was not waiting has been rescheduled

  function NewWaiter(): Waiter {
    Waiter(Away, Unregistered, false, 0, false)
  }

  /** add_done_callback, then wait. */
  function BeginWait(w: Waiter, f: Fut): Waiter {
    w.(phase := Waiting, callback := if f.Done? then Scheduled else Registered)
  }

  /** A future schedules its callbacks with call_soon at the moment it resolves. */
  function Notify(w: Waiter, f: Fut): Waiter {
    if w.callback.Registered? && f.Done? then w.(callback := Scheduled) else w
  }

  function DoneCallback(w: Waiter, o: Outcome): Waiter {
    if w.phase.Waiting? then
      w.(phase := Rescheduled(o), callback := Called, reschedules := w.reschedules + 1)
    else w.(misscheduled := true, callback := Called, reschedules := w.reschedules + 1)
  }

  /** future.result() raises asyncio.CancelledError: the future was cancelled, or its
      exception is a bare CancelledError. */
  predicate RaisesAioCancelled(o: Outcome) {
    o.WasCancelled? || (o.Failed? && o.e.Leaf? && o.e.kind.AioCancelled?)
  }

  function Resume(o: Outcome, raiseCancel: bool): Seen {
    if RaisesAioCancelled(o) && raiseCancel then SawTrioCancelled
    else
      match o
      case Value(v) => Got(v)
      case Failed(e) => SawError(e)
      case WasCancelled(_) => SawAioCancelled
  }

  // The whole system

  datatype System = System(h: Handle, w: Waiter)

  datatype Event =
    | Dequeue                                 // the loop takes the handle and spawns its task
    | FirstStep
    | FinishBody(end: BodyEnd, absorbs: bool)
    | FutureCancel(msg: Message)              // anybody calls future.cancel()
    | HandleCancel                            // anybody calls handle.cancel()
    | StartWaiting                            // a Trio task calls run_aio_future
    | Abort                                   // Trio cancels the waiting task
    | RunDoneCallback                         // the loop gets to the scheduled callback
    | ResumeWaiter

  function Start(withFuture: bool): System {
    System(NewHandle(withFuture), NewWaiter())
  }

  /** An event that cannot happen in a state leaves it as it is. */
  function Step(s: System, e: Event): System {
    match e
    case Dequeue => if s.h.stage.Queued? then s.(h := s.h.(stage := Spawned)) else s
    case FirstStep => if s.h.stage.Spawned? then After(s, Enter(s.h)) else s
    case FinishBody(end, absorbs) =>
      if s.h.stage.InBody? && (end.Raised? ==> Valid(end.e)) then
        After(s, Leave(s.h, end, absorbs && s.h.scopeCancelled))
      else s
    case FutureCancel(msg) => After(s, WrappedCancel(s.h, msg))
    case HandleCancel => s.(h := CancelHandle(s.h))
    case StartWaiting =>
      if s.w.phase.Away? && !s.h.fut.Absent? then s.(w := BeginWait(s.w, s.h.fut)) else s
    case Abort =>
      if s.w.phase.Waiting? && !s.w.raiseCancel then
        After(s.(w := s.w.(raiseCancel := true)), WrappedCancel(s.h, None))
      else s
    case RunDoneCallback =>
      if s.w.callback.Scheduled? && s.h.fut.Done? then
        s.(w := DoneCallback(s.w, s.h.fut.outcome))
      else s
    case ResumeWaiter =>
      if s.w.phase.Rescheduled? then
        s.(w := s.w.(phase := Resumed(Resume(s.w.phase.o, s.w.raiseCancel))))
      else s
  }

  function After(s: System, h: Handle): System {
    System(h, Notify(s.w, h.fut))
  }

  function Run(s: System, events: seq<Event>): System
    decreases |events|
  {
    if events == [] then s else Run(Step(s, events[0]), events[1..])
  }

  // What every interleaving keeps

  function LastMessage(ms: seq<Message>): Message {
    if ms == [] then None else ms[|ms| - 1]
  }

  /** What the future must hold, told from how the callback ended and from the
      cancellation requests alone. */
  ghost predicate RightOutcome(o: Outcome, end: Option<BodyEnd>, requests: seq<Message>) {
    if end.None? then o == WasCancelled(LastMessage(requests))
    else
      match end.value
      case Returned(v) => o == Value(v)
      case Raised(e) =>
        var rest := CollapseAwareSplit(e, AnyTrioCancelled).1;
        o == if rest.Some? then Failed(rest.value) else WasCancelled(LastMessage(requests))
  }

  /** What leaves the cancel scope of the callback's exception. */
  function OutOfScope(e: Exc, absorbed: bool): Option<Exc> {
    if absorbed then CollapseAwareSplit(e, AnyTrioCancelled).1 else Some(e)
  }

  /** Where the callback's exception went, as parts of it, told without the future. */
  ghost predicate RightParts(h: Handle) {
    if h.bodyEnd.None? || h.bodyEnd.value.Returned? then h.escaped.None? && h.reported.None?
    else
      var e := h.bodyEnd.value.e;
      if h.fut.Absent? then
        var out := OutOfScope(e, h.absorbed);
        (h.reported, h.escaped) == if out.Some? then CollapseAwareSplit(out.value, AnyException) else (None, None)
      else
        && h.reported.None?
        && h.escaped == if h.absorbed then None else CollapseAwareSplit(e, AnyTrioCancelled).0
  }

  /** Where the leaves of the callback's exception went. */
  ghost predicate RightRouting(h: Handle) {
    if h.bodyEnd.None? || h.bodyEnd.value.Returned? then h.escaped.None? && h.reported.None?
    else
      var all := Leaves(h.bodyEnd.value.e);
      var out := if h.absorbed then Select(all, AnyTrioCancelled, false) else all;
      if h.fut.Absent? then
        && LeavesOf(h.reported) == Select(out, AnyException, true)
        && LeavesOf(h.escaped) == Select(out, AnyException, false)
      else
        && h.reported.None?
        && LeavesOf(h.escaped) == (if h.absorbed then [] else Select(all, AnyTrioCancelled, true))
  }

  ghost predicate Inv(s: System) {
    var h, w := s.h, s.w;
    && !h.invalidState && !w.misscheduled
    && (h.finished <==> h.stage.Exited?)
    && (h.fut.Pending? ==> !h.finished)
    && (h.fut.Done? ==> h.finished)
    && h.resolutions == (if h.fut.Done? then 1 else 0)
    && h.cancelMessage == LastMessage(h.requests)
    && (h.requests != [] ==> h.cancelled)
    && (h.cancelled <==> h.scopeCancelled)
    && (h.bodyEnd.Some? ==> h.finished)
    && (h.stage.Exited? && h.bodyEnd.None? ==> h.cancelled)
    && (h.fut.Done? ==> RightOutcome(h.fut.outcome, h.bodyEnd, h.requests))
    && RightRouting(h)
    && RightParts(h)
    && (w.raiseCancel && h.fut.Pending? ==> h.cancelled)
    && (w.phase.Away? <==> w.callback.Unregistered?)
    && (w.phase.Away? ==> !w.raiseCancel)
    && (w.phase.Waiting? <==> w.callback.Registered? || w.callback.Scheduled?)
    && (!w.phase.Away? ==> !h.fut.Absent?)
    && (w.callback.Registered? ==> h.fut.Pending?)
    && (w.callback.Scheduled? || w.callback.Called? ==> h.fut.Done?)
    && w.reschedules == (if w.callback.Called? then 1 else 0)
    && (w.phase.Rescheduled? ==> w.phase.o == h.fut.outcome)
    && (w.phase.Resumed? ==> w.phase.seen == Resume(h.fut.outcome, w.raiseCancel))
  }

  lemma ScopeExitRoutes(e: Exc, absorbs: bool)
    requires Valid(e)
    ensures var out := ScopeExit(e, absorbs);
            && LeavesOf(out) == (if absorbs then Select(Leaves(e), AnyTrioCancelled, false) else Leaves(e))
            && (out.Some? ==> Valid(out.value))
            && (out.None? ==> CollapseAwareSplit(e, AnyTrioCancelled).1.None?)
            && (out.Some? ==> CollapseAwareSplit(out.value, AnyTrioCancelled).1
                              == CollapseAwareSplit(e, AnyTrioCancelled).1)
            && (out.Some? ==> CollapseAwareSplit(out.value, AnyTrioCancelled).0
                              == if absorbs then None else CollapseAwareSplit(e, AnyTrioCancelled).0)
            && out == OutOfScope(e, absorbs)
  {
    if absorbs { CollapseAwareSplitPartitions(e, AnyTrioCancelled); SplitTwice(e); }
  }

  lemma RunExceptRoutes(h: Handle, exc: Exc)
    requires Valid(exc) && h.finished && !h.fut.Done?
    ensures var r := RunExcept(h, exc);
            var rest := CollapseAwareSplit(exc, AnyTrioCancelled).1;
            if h.fut.Absent? then
              && r == h.(reported := r.reported, escaped := r.escaped)
              && LeavesOf(r.reported) == Select(Leaves(exc), AnyException, true)
              && LeavesOf(r.escaped) == Select(Leaves(exc), AnyException, false)
              && (r.reported, r.escaped) == CollapseAwareSplit(exc, AnyException)
            else
              && r == Resolve(h, r.fut.outcome).(escaped := r.escaped)
              && r.escaped == CollapseAwareSplit(exc, AnyTrioCancelled).0
              && LeavesOf(r.escaped) == Select(Leaves(exc), AnyTrioCancelled, true)
              && r.fut.outcome == (if rest.Some? then Failed(rest.value) else WasCancelled(h.cancelMessage))
  {
    if h.fut.Absent? {
      CollapseAwareSplitPartitions(exc, AnyException);
    } else {
      CollapseAwareSplitPartitions(exc, AnyTrioCancelled);
    }
  }

  lemma LeaveIsRight(h: Handle, end: BodyEnd, absorbs: bool)
    requires !h.fut.Done? && !h.invalidState && h.resolutions == 0
    requires h.cancelMessage == LastMessage(h.requests)
    requires h.escaped.None? && h.reported.None?
    requires end.Raised? ==> Valid(end.e)
    ensures var r := Leave(h, end, absorbs);
            && (h.fut.Absent? ==> r.fut.Absent? && r.resolutions == 0)
            && (h.fut.Pending? ==> r.fut.Done? && r.resolutions == 1
                                   && RightOutcome(r.fut.outcome, r.bodyEnd, r.requests))
            && RightRouting(r) && RightParts(r) && !r.invalidState
            && r.finished && r.stage.Exited? && r.bodyEnd == Some(end) && r.absorbed == absorbs
            && r.cancelled == h.cancelled && r.scopeCancelled == h.scopeCancelled
            && r.cancelMessage == h.cancelMessage && r.requests == h.requests
  {
    hide CollapseAwareSplit;
    if end.Raised? {
      ScopeExitRoutes(end.e, absorbs);
      SelectTwice(Leaves(end.e), AnyTrioCancelled, false);
      var h1 := h.(finished := true, bodyEnd := Some(end), absorbed := absorbs, stage := Exited);
      var out := ScopeExit(end.e, absorbs);
      if out.Some? {
        RunExceptRoutes(h1, out.value);
      }
    }
  }

  lemma InvStep(s: System, e: Event)
    requires Inv(s)
    ensures Inv(Step(s, e))
    ensures Step(s, e).h.fut.Absent? <==> s.h.fut.Absent?
  {
    hide CollapseAwareSplit, Valid, Select, Leaves;
    if e.FinishBody? {
      InvFinishBody(s, e.end, e.absorbs);
    } else {
      InvOtherStep(s, e);
    }
  }

  lemma InvFinishBody(s: System, end: BodyEnd, absorbs: bool)
    requires Inv(s)
    ensures Inv(Step(s, FinishBody(end, absorbs)))
    ensures Step(s, FinishBody(end, absorbs)).h.fut.Absent? <==> s.h.fut.Absent?
  {
    hide Leave, RightRouting, RightParts, RightOutcome;
    if s.h.stage.InBody? && (end.Raised? ==> Valid(end.e)) {
      NothingRoutedInBody(s);
      LeaveIsRight(s.h, end, absorbs && s.h.scopeCancelled);
    }
  }

  lemma NothingRoutedInBody(s: System)
    requires Inv(s) && s.h.stage.InBody?
    ensures s.h.escaped.None? && s.h.reported.None? && !s.h.fut.Done?
  {
  }

  lemma InvOtherStep(s: System, e: Event)
    requires Inv(s) && !e.FinishBody?
    ensures Inv(Step(s, e))
    ensures Step(s, e).h.fut.Absent? <==> s.h.fut.Absent?
  {
    hide CollapseAwareSplit, Leave, Select, Leaves;
  }

  lemma {:induction false} InvRun(s: System, events: seq<Event>)
    requires Inv(s)
    ensures Inv(Run(s, events))
    ensures Run(s, events).h.fut.Absent? <==> s.h.fut.Absent?
    decreases |events|
  {
    if events == [] {
    } else {
      InvStep(s, events[0]);
      InvRun(Step(s, events[0]), events[1..]);
    }
  }

  // The theorems, over every sequence of events

  /** The future of a handle is pending until the task's run exits and done from then on;
      it is resolved once, nobody ever sets a result on a resolved future, and what it
      holds follows from the end of the callback and the last cancellation message. */
  lemma FutureLifecycle(events: seq<Event>)
    ensures var h := Run(Start(true), events).h;
            && (h.fut.Pending? <==> !h.stage.Exited?)
            && (h.fut.Done? <==> h.stage.Exited?)
            && h.resolutions == (if h.stage.Exited? then 1 else 0)
            && !h.invalidState
            && (h.fut.Done? ==> RightOutcome(h.fut.outcome, h.bodyEnd, h.requests))
  {
    InvRun(Start(true), events);
  }

  /** Once done, a future never changes again, whoever cancels it. */
  lemma {:induction false} FutureIsFinal(s: System, events: seq<Event>)
    requires Inv(s) && s.h.fut.Done?
    ensures Run(s, events).h.fut == s.h.fut
    decreases |events|
  {
    if events == [] {
    } else {
      InvStep(s, events[0]);
      FutureIsFinal(Step(s, events[0]), events[1..]);
    }
  }

  /** With a future or without one, a task's first step gets into the callback exactly if
      the handle has not been cancelled by then, and a task that is over without having
      been in its callback had been cancelled. */
  lemma CallbackRunsUnlessCancelled(withFuture: bool, events: seq<Event>)
    ensures var s := Run(Start(withFuture), events);
            && (s.h.stage.Exited? && s.h.bodyEnd.None? ==> s.h.cancelled)
            && (s.h.stage.Spawned? ==>
                  var t := Step(s, FirstStep);
                  && (t.h.stage.InBody? <==> !s.h.cancelled) && (t.h.stage.Exited? <==> s.h.cancelled)
                  && t.h.bodyEnd.None?)
            && (s.h.stage.Queued? <==> Dequeue !in events)
  {
    InvRun(Start(withFuture), events);
    QueuedUntilDequeued(Start(withFuture), events);
  }

  lemma {:induction false} QueuedUntilDequeued(s: System, events: seq<Event>)
    ensures Run(s, events).h.stage.Queued? <==> s.h.stage.Queued? && Dequeue !in events
    decreases |events|
  {
    hide CollapseAwareSplit, Valid, Leave;
    if events == [] {
    } else {
      assert events == [events[0]] + events[1..];
      StepDequeues(s, events[0]);
      QueuedUntilDequeued(Step(s, events[0]), events[1..]);
    }
  }

  lemma StepDequeues(s: System, e: Event)
    ensures Step(s, e).h.stage.Queued? <==> s.h.stage.Queued? && !e.Dequeue?
  {
    hide CollapseAwareSplit, Valid, Leave;
    if e.FinishBody? { LeaveSetsEnd(s.h, e.end, e.absorbs && s.h.scopeCancelled); }
  }

  // What the events say about a handle, told without its fields

  /** Somebody asks for the future to be cancelled, in this state, with this message. */
  function Asked(s: System, e: Event): seq<Message> {
    if s.h.fut.Absent? || s.h.stage.Exited? then []
    else if e.FutureCancel? then [e.msg]
    else if e.Abort? && s.w.phase.Waiting? && !s.w.raiseCancel then [None]
    else []
  }

  /** The messages that reach the future before its task is over, in order. */
  function AllAsked(s: System, events: seq<Event>): seq<Message>
    decreases |events|
  {
    if events == [] then [] else Asked(s, events[0]) + AllAsked(Step(s, events[0]), events[1..])
  }

  /** How the callback ends: as the first FinishBody event says that finds the task in it;
      and whether the scope, being cancelled then, takes the Cancelled leaves. */
  function EndOf(s: System, events: seq<Event>): Option<(BodyEnd, bool)>
    decreases |events|
  {
    if events == [] then None
    else if s.h.stage.InBody? && events[0].FinishBody? && (events[0].end.Raised? ==> Valid(events[0].end.e))
    then Some((events[0].end, events[0].absorbs && s.h.cancelled))
    else EndOf(Step(s, events[0]), events[1..])
  }

  predicate EndIs(h: Handle, end: Option<(BodyEnd, bool)>) {
    if end.None? then h.bodyEnd.None? else h.bodyEnd == Some(end.value.0) && h.absorbed == end.value.1
  }

  predicate SameEnd(h: Handle, g: Handle) {
    g.bodyEnd == h.bodyEnd && g.absorbed == h.absorbed
  }

  /** The waiting task has been aborted while it was waiting. */
  predicate Aborted(s: System, events: seq<Event>)
    decreases |events|
  {
    events != [] && ((events[0].Abort? && s.w.phase.Waiting?) || Aborted(Step(s, events[0]), events[1..]))
  }

  /** A handle is cancelled exactly if somebody has cancelled it, or its future, or has
      aborted the wait for the future, before the task was over; the requests recorded are
      those made, in order; the callback's end is the one it came to; a task has begun to
      wait, or has been aborted, exactly if it was told to. */
  lemma HistoryIsTrue(withFuture: bool, events: seq<Event>)
    ensures var s := Run(Start(withFuture), events);
            && s.h.requests == AllAsked(Start(withFuture), events)
            && s.h.cancelMessage == LastMessage(AllAsked(Start(withFuture), events))
            && (s.h.cancelled <==> HandleCancel in events || AllAsked(Start(withFuture), events) != [])
            && EndIs(s.h, EndOf(Start(withFuture), events))
            && (s.w.phase.Away? <==> !withFuture || StartWaiting !in events)
            && (s.w.raiseCancel <==> Aborted(Start(withFuture), events))
  {
    InvRun(Start(withFuture), events);
    HistoryFrom(Start(withFuture), events);
  }

  lemma {:induction false} HistoryFrom(s: System, events: seq<Event>)
    requires Inv(s)
    ensures var t := Run(s, events);
            && t.h.requests == s.h.requests + AllAsked(s, events)
            && (t.h.cancelled <==> s.h.cancelled || HandleCancel in events || AllAsked(s, events) != [])
            && (if s.h.stage.Exited? then SameEnd(s.h, t.h) else EndIs(t.h, EndOf(s, events)))
            && (t.w.phase.Away? <==> s.w.phase.Away? && (s.h.fut.Absent? || StartWaiting !in events))
            && (t.w.raiseCancel <==> s.w.raiseCancel || Aborted(s, events))
            && (s.h.stage.Exited? ==> EndOf(s, events).None?)
    decreases |events|
  {
    hide CollapseAwareSplit, Valid, Leave, Inv, Select, Leaves;
    if events == [] {
      FreshBody(s);
    } else {
      assert events == [events[0]] + events[1..];
      InvStep(s, events[0]);
      StepHistory(s, events[0]);
      HistoryFrom(Step(s, events[0]), events[1..]);
    }
  }

  lemma FreshBody(s: System)
    requires Inv(s)
    ensures !s.h.stage.Exited? ==> s.h.bodyEnd.None?
  {
    hide CollapseAwareSplit, Valid, Select, Leaves;
  }

  lemma StepHistory(s: System, e: Event)
    requires Inv(s)
    ensures var t := Step(s, e);
            && t.h.requests == s.h.requests + Asked(s, e)
            && (t.h.cancelled <==> s.h.cancelled || e.HandleCancel? || Asked(s, e) != [])
            && (s.h.stage.Exited? ==> t.h.stage.Exited? && SameEnd(s.h, t.h))
            && (!s.h.stage.Exited? && t.h.stage.Exited? ==>
                  EndIs(t.h, if s.h.stage.InBody? then Some((e.end, e.absorbs && s.h.cancelled)) else None))
            && (s.h.stage.InBody? && !t.h.stage.InBody? ==> t.h.stage.Exited?)
            && (s.h.stage.InBody? && !t.h.stage.InBody? <==>
                  s.h.stage.InBody? && e.FinishBody? && (e.end.Raised? ==> Valid(e.end.e)))
            && (t.w.phase.Away? <==> s.w.phase.Away? && (s.h.fut.Absent? || !e.StartWaiting?))
            && (t.w.raiseCancel <==> s.w.raiseCancel || (e.Abort? && s.w.phase.Waiting?))
  {
    hide CollapseAwareSplit, Valid, Select, Leaves, RightOutcome, RightRouting, RightParts, Leave;
    if e.FinishBody? && s.h.stage.InBody? && (e.end.Raised? ==> Valid(e.end.e)) {
      NothingRoutedInBody(s);
      LeaveIsRight(s.h, e.end, e.absorbs && s.h.scopeCancelled);
    }
  }

  /** A handle cancelled before its task's first step never runs its callback, and its
      future, if any, ends cancelled. */
  lemma {:induction false} CancelledBeforeStart(s: System, events: seq<Event>)
    requires Inv(s) && s.h.cancelled && s.h.bodyEnd.None? && !s.h.stage.InBody?
    ensures var h := Run(s, events).h;
            && h.bodyEnd.None? && !h.stage.InBody? && h.escaped.None? && h.reported.None?
            && (h.fut.Done? ==> h.fut.outcome == WasCancelled(LastMessage(h.requests)))
    decreases |events|
  {
    if events == [] {
    } else {
      InvStep(s, events[0]);
      CancelledBeforeStart(Step(s, events[0]), events[1..]);
    }
  }

  /** No exception is lost or duplicated. Of the leaves that leave the cancel scope
      (`out`), in order: with a future the Cancelled ones are raised on and the future
      gets the others; without one the exception handler gets the Exceptions and the
      others are raised on. */
  lemma LeavesAreRouted(withFuture: bool, events: seq<Event>)
    ensures var h := Run(Start(withFuture), events).h;
            h.bodyEnd.Some? && h.bodyEnd.value.Raised? ==>
              var all := Leaves(h.bodyEnd.value.e);
              var out := if h.absorbed then Select(all, AnyTrioCancelled, false) else all;
              if withFuture then
                && h.fut.Done?
                && LeavesOf(h.escaped) == Select(out, AnyTrioCancelled, true)
                && FutureLeaves(h.fut.outcome) == Select(out, AnyTrioCancelled, false)
                && (h.fut.outcome.WasCancelled? <==> Select(all, AnyTrioCancelled, false) == [])
                && h.reported.None?
              else
                && LeavesOf(h.reported) == Select(out, AnyException, true)
                && LeavesOf(h.escaped) == Select(out, AnyException, false)
  {
    RunKeepsBodyValid(Start(withFuture), events);
    InvRun(Start(withFuture), events);
    var h := Run(Start(withFuture), events).h;
    if h.bodyEnd.Some? && h.bodyEnd.value.Raised? {
      var all := Leaves(h.bodyEnd.value.e);
      SelectTwice(all, AnyTrioCancelled, false);
      CollapseAwareSplitPartitions(h.bodyEnd.value.e, AnyTrioCancelled);
    }
  }

  /** And these are the very parts that the split makes of it, tracebacks and all: of the
      exception itself or, if the scope has taken the Cancelled leaves, of the rest. */
  lemma PartsAreRouted(withFuture: bool, events: seq<Event>)
    ensures var h := Run(Start(withFuture), events).h;
            h.bodyEnd.Some? && h.bodyEnd.value.Raised? ==>
              var e := h.bodyEnd.value.e;
              if withFuture then
                && h.reported.None?
                && h.escaped == (if h.absorbed then None else CollapseAwareSplit(e, AnyTrioCancelled).0)
                && (h.fut == Done(match CollapseAwareSplit(e, AnyTrioCancelled).1
                                  case Some(rest) => Failed(rest)
                                  case None => WasCancelled(LastMessage(h.requests))))
              else
                var out := OutOfScope(e, h.absorbed);
                (h.reported, h.escaped)
                == if out.Some? then CollapseAwareSplit(out.value, AnyException) else (None, None)
  {
    InvRun(Start(withFuture), events);
    FutureDoneAtEnd(withFuture, events);
  }

  lemma FutureDoneAtEnd(withFuture: bool, events: seq<Event>)
    ensures var h := Run(Start(withFuture), events).h;
            h.bodyEnd.Some? && withFuture ==> h.fut.Done?
  {
    InvRun(Start(withFuture), events);
    hide CollapseAwareSplit, Leaves, Select;
  }

  function FutureLeaves(o: Outcome): seq<LeafId> {
    if o.Failed? then Leaves(o.e) else []
  }

  ghost predicate BodyValid(h: Handle) {
    h.bodyEnd.Some? && h.bodyEnd.value.Raised? ==> Valid(h.bodyEnd.value.e)
  }

  lemma {:induction false} RunKeepsBodyValid(s: System, events: seq<Event>)
    requires BodyValid(s.h)
    ensures BodyValid(Run(s, events).h)
    decreases |events|
  {
    if events == [] {
    } else {
      StepKeepsBodyValid(s, events[0]);
      RunKeepsBodyValid(Step(s, events[0]), events[1..]);
    }
  }

  lemma StepKeepsBodyValid(s: System, e: Event)
    requires BodyValid(s.h)
    ensures BodyValid(Step(s, e).h)
  {
    hide CollapseAwareSplit, Valid, RunExcept, ScopeExit;
    if e.FinishBody? { LeaveSetsEnd(s.h, e.end, e.absorbs && s.h.scopeCancelled); }
  }

  lemma LeaveSetsEnd(h: Handle, end: BodyEnd, absorbs: bool)
    ensures Leave(h, end, absorbs).bodyEnd == Some(end) && Leave(h, end, absorbs).stage.Exited?
  {
    hide CollapseAwareSplit;
  }

  /** Aborting the wait while the future is pending cancels the Trio task behind it. */
  lemma AbortReachesTheTask(events: seq<Event>)
    ensures var s := Run(Start(true), events);
            s.w.raiseCancel && s.h.fut.Pending? ==> s.h.cancelled && s.h.scopeCancelled
  {
    InvRun(Start(true), events);
  }

  /** What the waiting task finally sees, for every interleaving of its abortion, the
      cancellation of the future, the end of the task and the late callback. */
  lemma WaiterOutcome(events: seq<Event>)
    ensures var s := Run(Start(true), events);
            && !s.w.misscheduled
            && (s.w.phase.Resumed? ==>
                  && s.h.stage.Exited? && s.h.fut.Done? && s.w.reschedules == 1
                  && var seen, o := s.w.phase.seen, s.h.fut.outcome;
                     && (seen.SawTrioCancelled? <==> s.w.raiseCancel && RaisesAioCancelled(o))
                     && (seen.SawAioCancelled? <==> !s.w.raiseCancel && o.WasCancelled?)
                     && (seen.Got? <==> o.Value?) && (seen.Got? ==> seen.v == o.v)
                     && (seen.SawError? <==> o.Failed? && !(s.w.raiseCancel && RaisesAioCancelled(o)))
                     && (seen.SawError? ==> seen.e == o.e))
  {
    InvRun(Start(true), events);
  }

  /** The documented rule: trio.Cancelled is raised exactly when the future was cancelled
      and the waiting task was, too. */
  ghost predicate DocumentedRule(s: System)
    requires s.w.phase.Resumed? && s.h.fut.Done?
  {
    s.w.phase.seen.SawTrioCancelled? <==> s.h.fut.outcome.WasCancelled? && s.w.raiseCancel
  }

  /** The Trio callback raised, once Trio's own Cancelled leaves are split off, just one
      asyncio.CancelledError. */
  predicate LeaksAioCancelled(end: Option<BodyEnd>) {
    && end.Some? && end.value.Raised?
    && var rest := CollapseAwareSplit(end.value.e, AnyTrioCancelled).1;
       rest.Some? && rest.value.Leaf? && rest.value.kind.AioCancelled?
  }

  /** The rule holds of a finished wait unless the wait was aborted and the callback
      leaked a bare asyncio.CancelledError. */
  lemma DocumentedRuleHoldsIff(events: seq<Event>)
    requires Run(Start(true), events).w.phase.Resumed?
    ensures var s := Run(Start(true), events);
            s.h.fut.Done? && (DocumentedRule(s) <==> !(s.w.raiseCancel && LeaksAioCancelled(s.h.bodyEnd)))
  {
    InvRun(Start(true), events);
  }

  /** A run in which the rule fails: the future was not cancelled, yet the waiting task
      sees trio.Cancelled in place of the exception. */
  lemma DocumentedRuleCanFail()
    ensures var x := Leaf(0, AioCancelled, Tracebacks.End);
            var s := Run(Start(true), [StartWaiting, Dequeue, FirstStep, Abort,
                                       FinishBody(Raised(x), false), RunDoneCallback, ResumeWaiter]);
            && s.w.phase == Resumed(SawTrioCancelled) && s.h.fut == Done(Failed(x))
            && !DocumentedRule(s)
  {
    var x := Leaf(0, AioCancelled, Tracebacks.End);
    var s0 := Start(true);
    var s1 := Step(Step(s0, StartWaiting), Dequeue);
    var s2 := Step(Step(s1, FirstStep), Abort);
    var s3 := Step(s2, FinishBody(Raised(x), false));
    assert s3.h.fut == Done(Failed(x));
    var s5 := Step(Step(s3, RunDoneCallback), ResumeWaiter);
    assert s5.w.phase == Resumed(SawTrioCancelled);
    Run7(s0, StartWaiting, Dequeue, FirstStep, Abort, FinishBody(Raised(x), false), RunDoneCallback, ResumeWaiter);
  }

  lemma {:induction false} Run7(s: System, a: Event, b: Event, c: Event, d: Event, e: Event, f: Event, g: Event)
    ensures Run(s, [a, b, c, d, e, f, g])
            == Step(Step(Step(Step(Step(Step(Step(s, a), b), c), d), e), f), g)
  {
    RunCons(s, a, [b, c, d, e, f, g]);
    RunCons(Step(s, a), b, [c, d, e, f, g]);
    var s2 := Step(Step(s, a), b);
    RunCons(s2, c, [d, e, f, g]);
    RunCons(Step(s2, c), d, [e, f, g]);
    var s4 := Step(Step(s2, c), d);
    RunCons(s4, e, [f, g]);
    RunCons(Step(s4, e), f, [g]);
  }

  lemma RunCons(s: System, e: Event, rest: seq<Event>)
    ensures Run(s, [e] + rest) == Run(Step(s, e), rest)
  {
    assert ([e] + rest)[1..] == rest;
  }

  /** The waiting task sees the very exception that the callback raised exactly when the
      exception has no Cancelled leaf, is canonical and has nothing to collapse, and is
      not a bare asyncio.CancelledError met by an aborted wait. */
  lemma ExceptionArrivesUnchangedIff(events: seq<Event>)
    requires var s := Run(Start(true), events);
             s.w.phase.Resumed? && s.h.bodyEnd.Some? && s.h.bodyEnd.value.Raised?
    ensures var s := Run(Start(true), events);
            var e := s.h.bodyEnd.value.e;
            s.w.phase.seen == SawError(e) <==>
              && Select(Leaves(e), AnyTrioCancelled, true) == [] && Canonical(e) && !HasFlaggedSingle(e)
              && !(s.w.raiseCancel && e.Leaf? && e.kind.AioCancelled?)
  {
    InvRun(Start(true), events);
    RunKeepsBodyValid(Start(true), events);
    RestIsUnchangedIff(Run(Start(true), events).h.bodyEnd.value.e);
  }

  /** A waiting task whose future is done is always brought back by two more events. */
  lemma WaiterComesBack(events: seq<Event>)
    ensures var s := Run(Start(true), events);
            s.w.phase.Waiting? && s.h.stage.Exited? ==>
              Step(Step(s, RunDoneCallback), ResumeWaiter).w.phase.Resumed?
  {
    InvRun(Start(true), events);
  }
}

/** The same protocol as objects updated in place; every method is one event of the
    transition system above. */
module TaskFutures {
  import opened Options
  import opened ExceptionTrees
  import P = TaskProtocol

  /** An asyncio future, as far as the protocol uses it. */
  class Future {
    var state: P.Fut
    ghost var resolutions: nat

    constructor ()
      ensures state == P.Pending && resolutions == 0
    {
      state := P.Pending;
      resolutions := 0;
    }

    /** set_result and set_exception; asyncio raises InvalidStateError on a future that
        is not pending, so showing the precondition shows that it never does. */
    method SetOutcome(o: P.Outcome)
      requires state.Pending?
      modifies this
      ensures state == P.Done(o) && resolutions == old(resolutions) + 1
    {
      state := P.Done(o);
      resolutions := resolutions + 1;
    }

    /** The future's own cancel. */
    method OrigCancel(msg: P.Message) returns (accepted: bool)
      modifies this
      ensures accepted <==> old(state).Pending?
      ensures accepted ==> state == P.Done(P.WasCancelled(msg)) && resolutions == old(resolutions) + 1
      ensures !accepted ==> state == old(state) && resolutions == old(resolutions)
    {
      accepted := state.Pending?;
      if accepted { SetOutcome(P.WasCancelled(msg)); }
    }
  }

  class AsyncHandle {
    const fut: Future?
    var cancelled: bool
    var scopeCancelled: bool
    var finished: bool
    var cancelMessage: P.Message
    var stage: P.Stage
    var escaped: Option<Exc>
    var reported: Option<Exc>
    ghost var requests: seq<P.Message>
    ghost var bodyEnd: Option<P.BodyEnd>
    ghost var absorbed: bool

    ghost function Model(): P.Handle
      reads this, fut
    {
      P.Handle(if fut == null then P.Absent else fut.state, cancelled, scopeCancelled, finished,
               cancelMessage, stage, escaped, reported, false, requests, bodyEnd, absorbed,
               if fut == null then 0 else fut.resolutions)
    }

    ghost predicate Valid()
      reads this, fut
    {
      P.Inv(P.System(Model(), P.NewWaiter())) && (fut != null ==> !fut.state.Absent?)
    }

    constructor (f: Future?)
      requires f != null ==> f.state.Pending? && f.resolutions == 0
      ensures Valid() && fut == f && Model() == P.NewHandle(f != null)
    {
      fut := f;
      cancelled, scopeCancelled, finished, cancelMessage := false, false, false, None;
      stage, escaped, reported := P.Queued, None, None;
      requests, bodyEnd, absorbed := [], None, false;
    }

    /** ScopedHandle.cancel. */
    method Cancel()
      requires Valid()
      modifies this`cancelled, this`scopeCancelled
      ensures Valid() && Model() == P.CancelHandle(old(Model()))
    {
      cancelled := true;
      scopeCancelled := true;
    }

    /** What future.cancel() has been replaced with. */
    method WrappedCancel(msg: P.Message) returns (accepted: bool)
      requires Valid() && fut != null
      modifies this`cancelled, this`scopeCancelled, this`cancelMessage, this`requests, fut
      ensures Valid() && Model() == P.WrappedCancel(old(Model()), msg)
      ensures accepted <==> old(fut.state).Pending?
    {
      P.InvStep(P.System(Model(), P.NewWaiter()), P.FutureCancel(msg));
      accepted := CancelFuture(msg);
    }

    /** The same, callable in the middle of the task's run. */
    method CancelFuture(msg: P.Message) returns (accepted: bool)
      requires fut != null && !fut.state.Absent?
      modifies this`cancelled, this`scopeCancelled, this`cancelMessage, this`requests, fut
      ensures Model() == P.WrappedCancel(old(Model()), msg)
      ensures accepted <==> old(fut.state).Pending?
      ensures !fut.state.Absent?
    {
      if finished {
        if msg.Some? {
          accepted := fut.OrigCancel(msg);
        } else if cancelMessage.Some? {
          accepted := fut.OrigCancel(cancelMessage);
        } else {
          accepted := fut.OrigCancel(None);
        }
        return;
      }
      if fut.state.Done? {
        return false;
      }
      cancelMessage := msg;
      requests := requests + [msg];
      cancelled := true;
      scopeCancelled := true;
      return true;
    }

    /** _run up to its await. */
    method Enter()
      requires Valid() && stage.Spawned?
      modifies this, fut
      ensures Valid() && Model() == P.Enter(old(Model()))
    {
      P.InvStep(P.System(Model(), P.NewWaiter()), P.FirstStep);
      if cancelled {
        finished := true;
        stage := P.Exited;
        if fut != null && fut.state.Pending? {
          var _ := CancelFuture(None);
        }
        return;
      }
      stage := P.InBody;
    }

    /** _run from the end of the awaited callback on. */
    method Leave(end: P.BodyEnd, absorbs: bool)
      requires Valid() && stage.InBody?
      requires end.Raised? ==> ExceptionTrees.Valid(end.e)
      requires absorbs ==> scopeCancelled
      modifies this, fut
      ensures Valid() && Model() == P.Leave(old(Model()), end, absorbs)
      ensures fut != null ==> fut.state.Done?
    {
      P.InvStep(P.System(Model(), P.NewWaiter()), P.FinishBody(end, absorbs));
      hide CollapseAwareSplit, P.Inv, P.RightRouting, P.RightParts, P.RightOutcome, P.RunExcept;
      finished := true;
      stage := P.Exited;
      bodyEnd := Some(end);
      absorbed := absorbs;
      var raised: Option<Exc> := None;
      match end {
        case Returned(v) =>
          if fut != null && !P.IsCancelled(fut.state) {
            fut.SetOutcome(P.Value(v));
          }
        case Raised(e) =>
          raised := P.ScopeExit(e, absorbs);
          if raised.None? && fut != null {
            // nothing is left, so the scope has caught its own cancellation
            var _ := CancelFuture(None);
          }
      }
      if raised.Some? {
        HandleEscaped(raised.value);
      }
    }

    /** The except clause of _run. */
    method HandleEscaped(exc: Exc)
      requires finished && (fut != null ==> !fut.state.Absent? && !fut.state.Done?)
      modifies this, fut
      ensures Model() == P.RunExcept(old(Model()), exc)
    {
      hide CollapseAwareSplit;
      if fut == null {
        var (rest, base) := CollapseAwareSplit(exc, AnyException);
        reported := rest;
        escaped := base;
      } else {
        var (cancelledPart, rest) := CollapseAwareSplit(exc, AnyTrioCancelled);
        if !P.IsCancelled(fut.state) {
          if rest.Some? {
            fut.SetOutcome(P.Failed(rest.value));
          } else {
            var _ := CancelFuture(None);
          }
        }
        escaped := cancelledPart;
      }
    }
  }

  /** One call of run_aio_future on the future of a handle. */
  class FutureWait {
    const handle: AsyncHandle
    var phase: P.Phase
    var callback: P.Callback
    var raiseCancel: bool
    ghost var reschedules: nat

    ghost function Model(): P.System
      reads this, handle, handle.fut
    {
      P.System(handle.Model(), P.Waiter(phase, callback, raiseCancel, reschedules, false))
    }

    ghost predicate Valid()
      reads this, handle, handle.fut
    {
      handle.Valid() && handle.fut != null && P.Inv(Model())
    }

    constructor (h: AsyncHandle)
      requires h.Valid() && h.fut != null
      ensures Valid() && handle == h && Model() == P.Step(P.System(h.Model(), P.NewWaiter()), P.StartWaiting)
    {
      handle := h;
      phase, raiseCancel, reschedules := P.Waiting, false, 0;
      callback := if h.fut.state.Done? then P.Scheduled else P.Registered;
    }

    /** Called by Trio when the waiting task is cancelled; reports that the wait goes on. */
    method AbortCb() returns (aborted: bool)
      requires Valid() && phase.Waiting? && !raiseCancel
      modifies this, handle, handle.fut
      ensures Valid() && Model() == P.Step(old(Model()), P.Abort) && !aborted
    {
      P.InvStep(Model(), P.Abort);
      raiseCancel := true;
      var _ := handle.WrappedCancel(None);
      aborted := false;
    }

    /** The future has scheduled its callbacks, and the loop runs this one. */
    method DoneCb()
      requires Valid() && callback.Scheduled?
      modifies this
      ensures Valid() && Model() == P.Step(old(Model()), P.RunDoneCallback)
      ensures phase.Rescheduled? && reschedules == 1
    {
      P.InvStep(Model(), P.RunDoneCallback);
      phase := P.Rescheduled(handle.fut.state.outcome);
      callback := P.Called;
      reschedules := reschedules + 1;
    }

    /** The task runs again: the value, or the except clause. */
    method Resume() returns (seen: P.Seen)
      requires Valid() && phase.Rescheduled?
      modifies this
      ensures Valid() && Model() == P.Step(old(Model()), P.ResumeWaiter) && phase == P.Resumed(seen)
    {
      P.InvStep(Model(), P.ResumeWaiter);
      match phase.o {
        case Value(v) =>
          seen := P.Got(v);
        case WasCancelled(_) =>
          seen := if raiseCancel then P.SawTrioCancelled else P.SawAioCancelled;
        case Failed(e) =>
          if e.Leaf? && e.kind.AioCancelled? && raiseCancel {
            seen := P.SawTrioCancelled;
          } else {
            seen := P.SawError(e);
          }
      }
      phase := P.Resumed(seen);
    }
  }
}
