/** The two waits of the teardown that can last for ever: for the tasks, and for the async
    generators. When each can still end. */
module OpenLoopEnds {
  import opened Options
  import opened OpenLoop
  import S = Scheduler
  import T = SchedulerTheorems
  import X = SchedulerReach

  // The wait for the tasks

  function WaitOf(s: State, k: Caller): Option<Wait> {
    match k
    case Teardown(id) => if id in s.waits then Some(s.waits[id]) else None
    case TrioTask(id) => if id in s.awaiting then Some(s.awaiting[id]) else None
  }

  /** The callback that ends this run_aio_future has run. */
  predicate Ready(loop: S.State, w: Wait) {
    w.CallbackQueued? && HasRun(loop, w.callback)
  }

  /** Where in the order of handles its callback is, or will be at the earliest. */
  function Deadline(loop: S.State, w: Wait): nat {
    if w.Pending? then |loop.enqueued| else w.callback
  }

  /** The callback has run, or the loop still runs and nothing that ends it is queued before
      the callback. */
  predicate Servable(loop: S.State, w: Wait) {
    || Ready(loop, w)
    || (loop.mode.Running? && forall h <- loop.channel :: X.EndsLoop(loop, h) ==> h.id >= Deadline(loop, w))
  }

  ghost predicate AllServable(s: State) {
    forall k: Caller :: WaitOf(s, k).Some? ==> Servable(s.loop, WaitOf(s, k).value)
  }

  /** This wait never ends. */
  ghost predicate Hopeless(s: State, k: Caller, c: nat) {
    && s.phase.ClosingTasks?
    && X.CutOff(s.loop, c)
    && WaitOf(s, k).Some? && c <= Deadline(s.loop, WaitOf(s, k).value)
  }

  lemma RanIsTaken(loop: S.State, n: nat)
    requires S.Inv(loop) && BarrierQueued(loop, n) && !HasRun(loop, n)
    ensures S.Consumed(loop) <= n
  {
    SettledIffRun(loop, n);
  }

  lemma UnservableIsHopeless(s: State, k: Caller)
    requires Inv(s) && s.phase.ClosingTasks? && WaitOf(s, k).Some? && !Servable(s.loop, WaitOf(s, k).value)
    ensures Hopeless(s, k, Deadline(s.loop, WaitOf(s, k).value))
  {
    var w := WaitOf(s, k).value;
    assert Queues(s.loop, w);
    LoopIsValid(s);
    X.RanWasTaken(s.loop);
    TakenIsQueued(s.loop);
    if w.CallbackQueued? { RanIsTaken(s.loop, w.callback); }
    hide LoopOk, SyncOk, TasksOk, FinalizerOk;
  }

  lemma TakenIsQueued(loop: S.State)
    requires S.Inv(loop)
    ensures 0 <= S.Consumed(loop) <= |loop.enqueued|
  {
  }

  lemma MovesKeepCutOff(loop: S.State, l: S.Label, c: nat)
    requires S.Inv(loop) && X.CutOff(loop, c) && Free(l)
    ensures X.CutOff(S.Step(loop, l), c) && loop.enqueued <= S.Step(loop, l).enqueued
  {
    hide S.Inv, S.Step, X.CutOff;
    X.StepKeepsCutOff(loop, l, c);
    T.StepGrowsQueue(loop, l);
  }

  lemma DoKeepsCutOff(loop: S.State, a: S.Action, c: nat)
    requires S.Inv(loop) && X.CutOff(loop, c)
    ensures X.CutOff(S.Do(loop, a), c) && loop.enqueued <= S.Do(loop, a).enqueued
  {
    hide S.Inv, S.Do, X.CutOff;
    MovesKeepCutOff(loop, S.Request(a), c);
  }

  lemma NotRunYet(loop: S.State, c: nat, n: nat)
    requires S.Inv(loop) && X.CutOff(loop, c) && c <= n
    ensures !HasRun(loop, n)
  {
    hide S.Inv, X.CutOff;
    X.CutOffHasNotRun(loop, c);
  }

  lemma AwaitingTasksLive(s: State, k: Caller)
    requires Inv(s) && WaitOf(s, k).Some?
    ensures s.awaiting.Keys <= s.trioTasks && !NurseryIsEmpty(s)
  {
    hide LoopOk, SyncOk, FinalizerOk;
  }

  lemma StepStaysHopeless(s: State, e: Event, k: Caller, c: nat)
    requires Inv(s) && Hopeless(s, k, c)
    ensures Hopeless(Step(s, e), k, c)
  {
    hide Inv, S.Inv, Step, HasRun;
    LoopIsValid(s);
    match e
    case InLoop(l) => HopelessInLoop(s, l, k, c);
    case TaskExits(id, callback) => HopelessExit(s, id, callback, k, c);
    case AioDone(id) => HopelessAioDone(s, id, k, c);
    case AwaitedDone(id) => HopelessAwaitedDone(s, id, k, c);
    case WaitOver(_) => HopelessWait(s, e, k, c);
    case TaskResumes(_) => HopelessWait(s, e, k, c);
    case _ =>
      AwaitingTasksLive(s, k);
      HopelessOther(s, e, k, c);
  }

  lemma HopelessInLoop(s: State, l: S.Label, k: Caller, c: nat)
    requires S.Inv(s.loop) && Hopeless(s, k, c)
    ensures Hopeless(Step(s, InLoop(l)), k, c)
  {
    hide S.Inv, S.Step, X.CutOff;
    if Free(l) { MovesKeepCutOff(s.loop, l, c); }
  }

  lemma HopelessExit(s: State, id: nat, callback: seq<S.Action>, k: Caller, c: nat)
    requires S.Inv(s.loop) && Hopeless(s, k, c)
    ensures Hopeless(Step(s, TaskExits(id, callback)), k, c)
  {
    hide S.Inv, S.Do, X.CutOff;
    DoKeepsCutOff(s.loop, S.CallSoon(callback), c);
  }

  lemma HopelessAioDone(s: State, id: nat, k: Caller, c: nat)
    requires S.Inv(s.loop) && Hopeless(s, k, c)
    ensures Hopeless(Step(s, AioDone(id)), k, c)
  {
    hide S.Inv, S.Do, X.CutOff;
    DoKeepsCutOff(s.loop, S.Synchronize, c);
  }

  lemma HopelessAwaitedDone(s: State, id: nat, k: Caller, c: nat)
    requires S.Inv(s.loop) && Hopeless(s, k, c)
    ensures Hopeless(Step(s, AwaitedDone(id)), k, c)
  {
    hide S.Inv, S.Do, X.CutOff;
    DoKeepsCutOff(s.loop, S.Synchronize, c);
  }

  lemma HopelessWait(s: State, e: Event, k: Caller, c: nat)
    requires S.Inv(s.loop) && Hopeless(s, k, c) && (e.WaitOver? || e.TaskResumes?)
    ensures Hopeless(Step(s, e), k, c)
  {
    hide S.Inv, X.CutOff, HasRun;
    var w := WaitOf(s, k).value;
    if w.CallbackQueued? { NotRunYet(s.loop, c, w.callback); }
  }

  lemma HopelessOther(s: State, e: Event, k: Caller, c: nat)
    requires Hopeless(s, k, c) && !NurseryIsEmpty(s)
    requires !e.InLoop? && !e.TaskExits? && !e.AioDone? && !e.AwaitedDone? && !e.WaitOver? && !e.TaskResumes?
    ensures Hopeless(Step(s, e), k, c)
  {
    hide X.CutOff, HasRun;
  }

  lemma {:induction false} HopelessForEver(s: State, events: seq<Event>, k: Caller, c: nat)
    requires Inv(s) && Hopeless(s, k, c)
    ensures Hopeless(Run(s, events), k, c)
    decreases |events|
  {
    hide Inv, Hopeless, Step;
    if events == [] {
    } else {
      InvStep(s, events[0]);
      StepStaysHopeless(s, events[0], k, c);
      HopelessForEver(Step(s, events[0]), events[1..], k, c);
    }
  }

  /** The wait for the tasks can end exactly if each run_aio_future in the nursery, the
      teardown's and those of the Trio tasks, has its result already, or the loop still
      runs and no stop_me is queued before the callback that brings it. Otherwise the exit
      waits for ever, whatever happens. */
  lemma ClosingEndsIff(s: State)
    requires Inv(s) && s.phase.ClosingTasks?
    ensures (exists events :: Run(s, events).phase.Finalizing?) <==> AllServable(s)
  {
    hide Inv, Servable;
    if k: Caller :| WaitOf(s, k).Some? && !Servable(s.loop, WaitOf(s, k).value) {
      UnservableIsHopeless(s, k);
      var c := Deadline(s.loop, WaitOf(s, k).value);
      forall events ensures !Run(s, events).phase.Finalizing? {
        HopelessForEver(s, events, k, c);
      }
    } else {
      assert AllServable(s);
      var events := ClosingCanEnd(s);
    }
  }

  // How it ends, if it can: a task being started takes its first step; what is still
  // pending gets done; the loop works its way to the last callback; everybody leaves

  function PendingIn(m: map<nat, Wait>): set<nat> {
    set id | id in m && m[id].Pending?
  }

  lemma OnePendingLess(m: map<nat, Wait>, id: nat, callback: nat)
    requires id in m && m[id].Pending?
    ensures |PendingIn(m[id := CallbackQueued(callback)])| < |PendingIn(m)|
  {
    assert PendingIn(m) == PendingIn(m[id := CallbackQueued(callback)]) + {id};
  }

  /** Still to do before everybody can leave. */
  function ToServe(s: State): nat {
    |PendingIn(s.waits)| + |PendingIn(s.awaiting)|
  }

  ghost predicate AllReady(s: State) {
    forall k: Caller :: WaitOf(s, k).Some? ==> Ready(s.loop, WaitOf(s, k).value)
  }

  lemma {:induction false} ClosingCanEnd(s: State) returns (events: seq<Event>)
    requires Inv(s) && s.phase.ClosingTasks? && AllServable(s)
    ensures Run(s, events).phase.Finalizing?
    decreases ToServe(s), |s.loop.channel|, if s.loop.starting.Some? then 1 else 0
  {
    hide Inv, Run, Step, Servable, Ready, AllServable, ToServe;
    var first, t;
    if s.loop.starting.Some? {
      first := [InLoop(S.FirstStep)];
      t := StartTask(s);
    } else if AllReady(s) {
      events := LeaveAll(s);
      return;
    } else {
      var k: Caller :| WaitOf(s, k).Some? && !Ready(s.loop, WaitOf(s, k).value);
      if WaitOf(s, k).value.Pending? {
        first := [Served(k)];
        t := ServeOne(s, k);
      } else {
        first := SkipEvents(s.loop);
        t := SkipOne(s, k);
      }
    }
    InvRun(s, first);
    var rest := ClosingCanEnd(t);
    RunAppend(s, first, rest);
    events := first + rest;
  }

  lemma StartTask(s: State) returns (t: State)
    requires Inv(s) && s.phase.ClosingTasks? && AllServable(s) && s.loop.starting.Some?
    ensures t == Run(s, [InLoop(S.FirstStep)])
    ensures t.phase.ClosingTasks? && AllServable(t) && ToServe(t) == ToServe(s)
    ensures t.loop.channel == s.loop.channel && t.loop.starting.None?
  {
    hide Inv, Run, Servable;
    RunOne(s, InLoop(S.FirstStep));
    FirstStepOnly(s);
    t := Step(s, InLoop(S.FirstStep));
    hide Step;
    forall k: Caller | WaitOf(t, k).Some? ensures Servable(t.loop, WaitOf(t, k).value) {
      assert WaitOf(s, k) == WaitOf(t, k);
      FirstStepServes(s.loop, t.loop, WaitOf(s, k).value);
    }
  }

  lemma FirstStepOnly(s: State)
    ensures var t := Step(s, InLoop(S.FirstStep));
            && t.phase == s.phase && t.waits == s.waits && t.awaiting == s.awaiting
            && t.loop == S.TakeFirstStep(s.loop)
  {
    hide S.TakeFirstStep;
  }

  lemma FirstStepServes(loop: S.State, t: S.State, w: Wait)
    requires Servable(loop, w) && t == S.TakeFirstStep(loop)
    ensures Servable(t, w)
  {
    if Ready(loop, w) {
      var h :| h in loop.ran && h.id == w.callback;
      assert h in t.ran;
    }
  }

  lemma RunOne(s: State, e: Event)
    ensures Run(s, [e]) == Step(s, e)
  {
    hide Step;
    RunCons(s, e, []);
  }

  /** What resolves the future that `k` waits for. */
  function Served(k: Caller): Event {
    match k
    case Teardown(id) => AioDone(id)
    case TrioTask(id) => AwaitedDone(id)
  }

  lemma ServeOne(s: State, k: Caller) returns (t: State)
    requires Inv(s) && s.phase.ClosingTasks? && AllServable(s)
    requires WaitOf(s, k).Some? && WaitOf(s, k).value.Pending?
    ensures t == Run(s, [Served(k)])
    ensures t.phase.ClosingTasks? && AllServable(t) && ToServe(t) < ToServe(s)
  {
    hide Inv, Run, S.Do;
    assert Servable(s.loop, WaitOf(s, k).value);
    PendingIsAlive(s, k);
    RunOne(s, Served(k));
    SyncQueued(s.loop);
    t := ServedState(s, k);
    forall j: Caller | WaitOf(t, j).Some? ensures Servable(t.loop, WaitOf(t, j).value) {
      if j != k {
        assert WaitOf(t, j) == WaitOf(s, j);
        assert Servable(s.loop, WaitOf(s, j).value);
      }
    }
  }

  lemma ServedState(s: State, k: Caller) returns (t: State)
    requires s.phase.ClosingTasks? && WaitOf(s, k).Some? && WaitOf(s, k).value.Pending?
    requires (k.Teardown? ==> k.aio in s.aioTasks) && NotClosed(s)
    ensures t == Step(s, Served(k)) && t.phase == s.phase && t.loop == S.Do(s.loop, S.Synchronize)
    ensures WaitOf(t, k) == Some(CallbackQueued(|s.loop.enqueued|))
    ensures forall j: Caller :: j != k ==> WaitOf(t, j) == WaitOf(s, j)
    ensures ToServe(t) < ToServe(s)
  {
    hide S.Do;
    t := Step(s, Served(k));
    match k {
      case Teardown(id) => OnePendingLess(s.waits, id, |s.loop.enqueued|);
      case TrioTask(id) => OnePendingLess(s.awaiting, id, |s.loop.enqueued|);
    }
  }

  lemma PendingIsAlive(s: State, k: Caller)
    requires Inv(s) && WaitOf(s, k).Some? && WaitOf(s, k).value.Pending?
    ensures k.Teardown? ==> k.aio in s.aioTasks
    ensures forall h <- s.loop.channel :: h.id < |s.loop.enqueued|
  {
    hide LoopOk, SyncOk, FinalizerOk;
    LoopIsValid(s);
    ChannelBelow(s.loop);
  }

  lemma ChannelBelow(loop: S.State)
    requires S.Inv(loop)
    ensures forall h <- loop.channel :: S.Consumed(loop) <= h.id < |loop.enqueued|
  {
    X.InvIsHistory(loop);
    hide S.Inv;
    forall h | h in loop.channel ensures S.Consumed(loop) <= h.id < |loop.enqueued| {
      X.ChannelIds(loop, h);
    }
  }

  lemma SyncQueued(loop: S.State)
    requires !S.IsClosed(loop.mode)
    ensures var t := S.Do(loop, S.Synchronize);
            && t.channel == loop.channel + [S.Handle(|loop.enqueued|, S.Sync, [])]
            && |t.enqueued| == |loop.enqueued| + 1 && t.ran == loop.ran
            && t.mode == loop.mode && t.nurseryOpen == loop.nurseryOpen && t.starting == loop.starting
  {
  }

  /** The head of the channel is skipped, or run if it is somebody's wake-up. */
  function SkipEvents(loop: S.State): seq<Event> {
    if loop.channel == [] then []
    else
      [InLoop(S.Request(S.CancelHandle(loop.channel[0].id))), InLoop(S.Loop(0, true)), InLoop(S.FirstStep)]
  }

  /** What skipping changes. */
  ghost predicate Skipped(s: State, t: State) {
    && s.loop.channel != [] && t.loop.channel == s.loop.channel[1..] && t.loop.enqueued == s.loop.enqueued
    && t.loop.mode.Running? && t.loop.starting.None? && t.loop.nurseryOpen == s.loop.nurseryOpen
    && t.loop.ran == (if s.loop.channel[0].kind.Sync? then s.loop.ran + [s.loop.channel[0]] else s.loop.ran)
    && t.phase == s.phase && t.waits == s.waits && t.awaiting == s.awaiting
    && t.finalizer == s.finalizer && t.asyncgensDone == s.asyncgensDone
  }

  lemma SkipRuns(s: State) returns (t: State)
    requires S.Inv(s.loop) && s.loop.mode.Running? && s.loop.starting.None?
    requires s.loop.channel != [] && !X.EndsLoop(s.loop, s.loop.channel[0])
    ensures t == Run(s, SkipEvents(s.loop)) && Skipped(s, t)
  {
    hide Run, S.Inv, S.Step;
    var events := SkipEvents(s.loop);
    RunThree(s, events[0], events[1], events[2]);
    X.SkipAdvances(s.loop);
    t := Step(Step(Step(s, events[0]), events[1]), events[2]);
    assert t.loop == X.AfterSkip(s.loop);
  }

  /** A handle that is not the n-th and has the n-th behind it does not end the loop. */
  lemma HeadIsHarmless(loop: S.State, n: nat)
    requires S.Inv(loop) && BarrierQueued(loop, n) && !HasRun(loop, n)
    requires forall h <- loop.channel :: X.EndsLoop(loop, h) ==> h.id >= n
    ensures loop.channel != [] && !X.EndsLoop(loop, loop.channel[0])
  {
    RanIsTaken(loop, n);
    X.InvIsHistory(loop);
    hide S.Inv;
    assert loop.channel[n - S.Consumed(loop)] == loop.enqueued[n];
    X.ChannelIds(loop, loop.channel[0]);
    assert loop.channel[0].id == S.Consumed(loop);
  }

  lemma SkipOne(s: State, k: Caller) returns (t: State)
    requires Inv(s) && s.phase.ClosingTasks? && AllServable(s) && s.loop.starting.None?
    requires WaitOf(s, k).Some? && WaitOf(s, k).value.CallbackQueued? && !Ready(s.loop, WaitOf(s, k).value)
    ensures t == Run(s, SkipEvents(s.loop))
    ensures t.phase.ClosingTasks? && AllServable(t) && ToServe(t) == ToServe(s)
    ensures |t.loop.channel| < |s.loop.channel|
  {
    hide Inv, S.Inv, Run, Servable;
    var w := WaitOf(s, k).value;
    CallbackIsQueued(s, k);
    LoopIsValid(s);
    HeadIsServable(s.loop, w);
    t := SkipRuns(s);
    forall j: Caller | WaitOf(t, j).Some? ensures Servable(t.loop, WaitOf(t, j).value) {
      assert WaitOf(t, j) == WaitOf(s, j);
      SkipKeepsServable(s, t, WaitOf(s, j).value);
    }
  }

  lemma CallbackIsQueued(s: State, k: Caller)
    requires Inv(s) && WaitOf(s, k).Some?
    ensures Queues(s.loop, WaitOf(s, k).value)
  {
    hide LoopOk, SyncOk, FinalizerOk;
  }

  lemma HeadIsServable(loop: S.State, w: Wait)
    requires S.Inv(loop) && Queues(loop, w) && w.CallbackQueued? && Servable(loop, w) && !Ready(loop, w)
    ensures loop.mode.Running? && loop.channel != [] && !X.EndsLoop(loop, loop.channel[0])
  {
    hide S.Inv;
    HeadIsHarmless(loop, w.callback);
  }

  lemma SkipKeepsServable(s: State, t: State, w: Wait)
    requires Skipped(s, t) && Servable(s.loop, w)
    ensures Servable(t.loop, w)
  {
    if Ready(s.loop, w) {
      var h :| h in s.loop.ran && h.id == w.callback;
      assert h in t.loop.ran;
    }
  }

  lemma {:induction false} LeaveAll(s: State) returns (events: seq<Event>)
    requires s.phase.ClosingTasks? && s.loop.starting.None? && AllReady(s)
    ensures Run(s, events).phase.Finalizing?
    decreases |s.trioTasks| + |s.waits| + |s.awaiting|
  {
    hide AllReady, Step, Run;
    var e, rest;
    if id :| id in s.waits {
      e := WaitOver(id);
      OneWaitLess(s, id);
      rest := LeaveAll(Step(s, e));
    } else if id :| id in s.awaiting {
      e := TaskResumes(id);
      OneAwaitLess(s, id);
      rest := LeaveAll(Step(s, e));
    } else if id :| id in s.trioTasks {
      e := TaskFails(id);
      OneTaskLess(s, id);
      rest := LeaveAll(Step(s, e));
    } else {
      e, rest := NurseryExits(0), [];
      NothingLeft(s);
    }
    events := [e] + rest;
    RunCons(s, e, rest);
  }

  lemma OneTaskLess(s: State, id: nat)
    requires s.phase.ClosingTasks? && AllReady(s) && id in s.trioTasks && s.awaiting == map[]
    ensures var t := Step(s, TaskFails(id));
            && t.phase == s.phase && t.loop == s.loop && AllReady(t)
            && t.waits == s.waits && t.awaiting == s.awaiting && |t.trioTasks| < |s.trioTasks|
  {
    var t := Step(s, TaskFails(id));
    assert forall k: Caller :: WaitOf(t, k) == WaitOf(s, k);
  }

  lemma OneLess(m: map<nat, Wait>, id: nat)
    requires id in m
    ensures |m - {id}| < |m|
  {
    assert m.Keys == (m - {id}).Keys + {id};
    assert |m| == |m.Keys| && |m - {id}| == |(m - {id}).Keys|;
  }

  lemma OneWaitLess(s: State, id: nat)
    requires s.phase.ClosingTasks? && AllReady(s) && id in s.waits
    ensures var t := Step(s, WaitOver(id));
            && t.phase == s.phase && t.loop == s.loop && AllReady(t)
            && t.trioTasks == s.trioTasks && t.awaiting == s.awaiting && |t.waits| < |s.waits|
  {
    assert WaitOf(s, Teardown(id)).Some?;
    OneLess(s.waits, id);
    var t := Step(s, WaitOver(id));
    assert forall k: Caller :: WaitOf(t, k).Some? ==> WaitOf(t, k) == WaitOf(s, k);
  }

  lemma OneAwaitLess(s: State, id: nat)
    requires s.phase.ClosingTasks? && AllReady(s) && id in s.awaiting
    ensures var t := Step(s, TaskResumes(id));
            && t.phase == s.phase && t.loop == s.loop && AllReady(t)
            && t.trioTasks == s.trioTasks && t.waits == s.waits && |t.awaiting| < |s.awaiting|
  {
    assert WaitOf(s, TrioTask(id)).Some?;
    OneLess(s.awaiting, id);
    var t := Step(s, TaskResumes(id));
    assert forall k: Caller :: WaitOf(t, k).Some? ==> WaitOf(t, k) == WaitOf(s, k);
  }

  lemma NothingLeft(s: State)
    requires s.phase.ClosingTasks? && s.loop.starting.None? && s.trioTasks == {} && s.waits == map[]
    ensures Run(Step(s, NurseryExits(0)), []).phase.Finalizing?
  {
  }

  // The wait for the async generators

  /** The last step of the finalizer has run. */
  predicate LastStepRan(s: State) {
    s.finalizer.Queued? && s.finalizer.left == 0 && HasRun(s.loop, s.finalizer.step)
  }

  /** Where the last step is in the order of handles, or will be at the earliest. */
  function Horizon(s: State): nat {
    if s.finalizer.Queued? && s.finalizer.left == 0 then s.finalizer.step else |s.loop.enqueued|
  }

  /** The last step has run, or the loop still runs and nothing that ends it, a stop_me or
      a Trio task, is queued before the last step; if there are more steps to come after
      the one that is queued, nothing may be queued at all. */
  predicate CanFinalize(s: State) {
    || LastStepRan(s)
    || (s.loop.mode.Running? && forall h <- s.loop.channel :: X.EndsLoop(s.loop, h) ==> h.id >= Horizon(s))
  }

  ghost predicate NeverFinalized(s: State, c: nat) {
    s.phase.Finalizing? && !s.asyncgensDone && X.CutOff(s.loop, c) && c <= Horizon(s)
  }

  lemma StepStaysUnfinalized(s: State, e: Event, c: nat)
    requires Inv(s) && NeverFinalized(s, c)
    ensures NeverFinalized(Step(s, e), c)
  {
    hide Inv, S.Inv, Step, HasRun;
    LoopIsValid(s);
    match e
    case InLoop(l) => UnfinalizedInLoop(s, l, c);
    case FinalizerQueued => UnfinalizedQueued(s, c);
    case FinalizerRuns => UnfinalizedRuns(s, c);
    case _ =>
      NothingInNursery(s);
      UnfinalizedOther(s, e, c);
  }

  lemma UnfinalizedInLoop(s: State, l: S.Label, c: nat)
    requires S.Inv(s.loop) && NeverFinalized(s, c)
    ensures NeverFinalized(Step(s, InLoop(l)), c)
  {
    hide S.Inv, S.Step, X.CutOff;
    if Free(l) { MovesKeepCutOff(s.loop, l, c); }
  }

  lemma UnfinalizedQueued(s: State, c: nat)
    requires S.Inv(s.loop) && NeverFinalized(s, c)
    ensures NeverFinalized(Step(s, FinalizerQueued), c)
  {
    hide S.Inv, S.Do, X.CutOff;
    DoKeepsCutOff(s.loop, S.Synchronize, c);
  }

  lemma UnfinalizedRuns(s: State, c: nat)
    requires S.Inv(s.loop) && NeverFinalized(s, c)
    ensures NeverFinalized(Step(s, FinalizerRuns), c)
  {
    hide S.Inv, X.CutOff, HasRun;
    if s.finalizer.Queued? && s.finalizer.left == 0 { NotRunYet(s.loop, c, s.finalizer.step); }
  }

  lemma UnfinalizedOther(s: State, e: Event, c: nat)
    requires NeverFinalized(s, c) && s.trioTasks == {} && s.waits == map[] && s.awaiting == map[]
    requires !e.InLoop? && !e.FinalizerQueued? && !e.FinalizerRuns?
    ensures NeverFinalized(Step(s, e), c)
  {
    hide X.CutOff, HasRun;
  }

  lemma NothingInNursery(s: State)
    requires Inv(s) && s.phase.Finalizing?
    ensures s.trioTasks == {} && s.waits == map[] && s.awaiting == map[] && s.loop.starting.None?
    ensures s.loop.mode.Running? || s.loop.mode.Stopped?
    ensures !s.asyncgensDone ==> !s.finalizer.Idle?
    ensures s.finalizer.Queued? ==> BarrierQueued(s.loop, s.finalizer.step)
  {
    hide LoopOk, SyncOk;
  }

  lemma {:induction false} NeverFinalizedForEver(s: State, events: seq<Event>, c: nat)
    requires Inv(s) && NeverFinalized(s, c)
    ensures NeverFinalized(Run(s, events), c)
    decreases |events|
  {
    hide Inv, NeverFinalized, Step;
    if events == [] {
    } else {
      InvStep(s, events[0]);
      StepStaysUnfinalized(s, events[0], c);
      NeverFinalizedForEver(Step(s, events[0]), events[1..], c);
    }
  }

  lemma UnfinalizableIsNever(s: State)
    requires Inv(s) && s.phase.Finalizing? && !s.asyncgensDone && !CanFinalize(s)
    ensures NeverFinalized(s, Horizon(s))
  {
    NothingInNursery(s);
    LoopIsValid(s);
    X.RanWasTaken(s.loop);
    TakenIsQueued(s.loop);
    if s.finalizer.Queued? && s.finalizer.left == 0 { RanIsTaken(s.loop, s.finalizer.step); }
    hide Inv, S.Inv;
  }

  /** The shielded wait for the async generators can end exactly if they are finalized, or
      the finalizer can still come to its last step. Otherwise the exit waits for ever. */
  lemma FinalizingEndsIff(s: State)
    requires Inv(s) && s.phase.Finalizing?
    ensures (exists events :: Run(s, events).phase.Stopping?) <==> s.asyncgensDone || CanFinalize(s)
  {
    hide Inv;
    if !s.asyncgensDone && !CanFinalize(s) {
      UnfinalizableIsNever(s);
      forall events ensures !Run(s, events).phase.Stopping? {
        NeverFinalizedForEver(s, events, Horizon(s));
      }
    } else {
      var events := FinalizingCanEnd(s);
    }
  }

  function Ahead(s: State): nat {
    match s.finalizer
    case Idle => 0
    case Due(left) => 3 * left + 2
    case Queued(step, left) => 3 * left + (if HasRun(s.loop, step) then 0 else 1)
  }

  lemma {:induction false} FinalizingCanEnd(s: State) returns (events: seq<Event>)
    requires Inv(s) && s.phase.Finalizing? && (s.asyncgensDone || CanFinalize(s))
    ensures Run(s, events).phase.Stopping?
    decreases if s.asyncgensDone then 0 else 1, Ahead(s), |s.loop.channel|
  {
    hide Inv, Run, Step, CanFinalize, Ahead;
    NothingInNursery(s);
    var first, t;
    if s.asyncgensDone {
      events := [CallStop];
      StopFollows(s);
      return;
    } else if s.finalizer.Due? {
      first := [FinalizerQueued];
      t := QueueStep(s);
    } else if HasRun(s.loop, s.finalizer.step) {
      first := [FinalizerRuns];
      t := StepHasRun(s);
    } else {
      first := SkipEvents(s.loop);
      t := SkipToStep(s);
    }
    InvRun(s, first);
    var rest := FinalizingCanEnd(t);
    RunAppend(s, first, rest);
    events := first + rest;
  }

  lemma StopFollows(s: State)
    requires s.phase.Finalizing? && s.asyncgensDone
    ensures Run(s, [CallStop]).phase.Stopping?
  {
    hide Run, S.Do;
    RunOne(s, CallStop);
  }

  lemma QueueStep(s: State) returns (t: State)
    requires Inv(s) && s.phase.Finalizing? && !s.asyncgensDone && CanFinalize(s) && s.finalizer.Due?
    ensures t == Run(s, [FinalizerQueued])
    ensures t.phase.Finalizing? && !t.asyncgensDone && CanFinalize(t) && Ahead(t) < Ahead(s)
  {
    LoopIsValid(s);
    ChannelBelow(s.loop);
    hide Inv, S.Inv, Run;
    RunOne(s, FinalizerQueued);
    t := Step(s, FinalizerQueued);
    SyncQueued(s.loop);
    hide S.Do;
  }

  lemma StepHasRun(s: State) returns (t: State)
    requires Inv(s) && s.phase.Finalizing? && !s.asyncgensDone && CanFinalize(s)
    requires s.finalizer.Queued? && HasRun(s.loop, s.finalizer.step)
    ensures t == Run(s, [FinalizerRuns])
    ensures t.phase.Finalizing? && (t.asyncgensDone || (CanFinalize(t) && Ahead(t) < Ahead(s)))
  {
    hide Inv, Run;
    RunOne(s, FinalizerRuns);
    t := Step(s, FinalizerRuns);
  }

  lemma SkipToStep(s: State) returns (t: State)
    requires Inv(s) && s.phase.Finalizing? && !s.asyncgensDone && CanFinalize(s)
    requires s.finalizer.Queued? && !HasRun(s.loop, s.finalizer.step)
    ensures t == Run(s, SkipEvents(s.loop))
    ensures t.phase.Finalizing? && !t.asyncgensDone && CanFinalize(t)
    ensures Ahead(t) < Ahead(s) || (Ahead(t) == Ahead(s) && |t.loop.channel| < |s.loop.channel|)
  {
    hide Inv, S.Inv, Run, HasRun;
    NothingInNursery(s);
    LoopIsValid(s);
    HeadIsHarmless(s.loop, s.finalizer.step);
    t := SkipRuns(s);
  }

  // Three runs in which the exit waits for ever

  /** A Trio task waits for asyncio code when somebody has stopped the loop: it never comes
      back, although the teardown itself has nothing to wait for. */
  lemma AwaitingTaskHangs(s: State, id: nat, after: seq<Event>)
    requires Inv(s) && s.phase.ClosingTasks? && s.waits == map[] && s.loop.mode.Stopped?
    requires id in s.awaiting && s.awaiting[id].Pending?
    ensures Run(s, after).phase.ClosingTasks?
  {
    assert WaitOf(s, TrioTask(id)) == Some(Pending);
    UnservableIsHopeless(s, TrioTask(id));
    HopelessForEver(s, after, TrioTask(id), Deadline(s.loop, Pending));
  }

  /** A Trio task, or a stop(), is queued before the inner nursery closes. The loop still
      runs, but it will end before the first step of the finalizer. */
  lemma FinalizingCanHang(now: int, a: S.Action, steps: nat, after: seq<Event>)
    requires (a.RunTask? || a.Stop?) && steps > 0
    ensures var s := Run(Quiet(now), [InLoop(S.Request(a)), NurseryExits(steps)]);
            s.phase.Finalizing? && s.loop.mode.Running? && Run(s, after).phase.Finalizing?
  {
    hide Inv, Run, Step, Quiet;
    QuietIsQuiet(now);
    RunTwo(Quiet(now), InLoop(S.Request(a)), NurseryExits(steps));
    var s1 := Step(Quiet(now), InLoop(S.Request(a)));
    var s := Step(s1, NurseryExits(steps));
    InvStep(Quiet(now), InLoop(S.Request(a)));
    InvStep(s1, NurseryExits(steps));
    RequestOnly(Quiet(now), a);
    EnderQueued(Quiet(now).loop, a);
    FinalizerDue(s1, steps);
    UnfinalizableIsNever(s);
    NeverFinalizedForEver(s, after, Horizon(s));
  }

  lemma RequestOnly(s: State, a: S.Action)
    ensures Step(s, InLoop(S.Request(a))) == s.(loop := S.Do(s.loop, a))
  {
    hide S.Do;
    assert s.trioTasks + {} == s.trioTasks;
  }

  lemma EnderQueued(loop: S.State, a: S.Action)
    requires IdleLoop(loop) && (a.RunTask? || a.Stop?)
    ensures var t := S.Do(loop, a);
            && t.channel == [S.Handle(1, if a.Stop? then S.StopMe(S.Own) else S.Task, [])]
            && |t.enqueued| == 2 && t.mode.Running? && t.starting.None?
  {
  }

  lemma FinalizerDue(s: State, steps: nat)
    requires s.phase.ClosingTasks? && s.trioTasks == {} && s.waits == map[] && s.loop.starting.None? && steps > 0
    requires s.loop.mode.Running? && !s.asyncgensDone && |s.loop.enqueued| == 2
    requires |s.loop.channel| == 1 && s.loop.channel[0].id == 1
             && (s.loop.channel[0].kind.StopMe? || s.loop.channel[0].kind.Task?)
    ensures var t := Step(s, NurseryExits(steps));
            t.phase.Finalizing? && t.loop.mode.Running? && !t.asyncgensDone && !CanFinalize(t)
  {
    var t := Step(s, NurseryExits(steps));
    assert X.EndsLoop(t.loop, t.loop.channel[0]);
  }
}
