/** The scheduler as the loop object itself, updated in place. Each method does one
    transition of the state machine, and the two loops do runs of it. */
module EventLoops {
  import opened Options
  import opened Scheduler
  import opened SchedulerProgress

  /** What the rest of the program does while the loop is suspended at an await, which of
      several equally early timers the heap yields next, and whether the loop receives
      something although a timer has become due since it read the clock. */
  datatype Round = Round(meanwhile: seq<Label>, pick: nat, late: bool)

  class EventLoop {
    var now: int
    var mode: Mode
    var nurseryOpen: bool
    var channel: seq<Handle>
    var timers: seq<Handle>
    var starting: Option<Handle>
    var cancelled: set<nat>
    var stopWait: bool
    var signalled: set<StopEvent>
    var handles: seq<Handle>          // every handle given out so far
    var rejected: nat
    ghost var ran: seq<Handle>
    ghost var fired: seq<Handle>
    ghost var firedAt: seq<int>
    ghost var skipped: seq<Handle>
    ghost var swept: seq<Handle>
    ghost var lost: seq<Handle>
    ghost var stopper: Option<Handle>

    ghost function Model(): State
      reads this
    {
      State(now, mode, nurseryOpen, channel, timers, starting, cancelled, stopWait, signalled, handles,
            ran, fired, firedAt, skipped, swept, lost, stopper, rejected)
    }

    ghost predicate Valid()
      reads this
    {
      Inv(Model())
    }

    constructor (time: int)
      ensures Valid() && Model() == Initial(time)
    {
      now, mode, nurseryOpen := time, NotStarted, true;
      channel, timers, starting, cancelled := [], [], None, {};
      stopWait, signalled, handles, rejected := false, {}, [], 0;
      ran, fired, firedAt, skipped, swept, lost, stopper := [], [], [], [], [], [], None;
      new;
      InvInitial(time);
    }

    /** _queue_handle; a closed loop raises. */
    method QueueHandle(kind: Kind, script: seq<Action>)
      modifies this`channel, this`handles, this`rejected
      ensures Model() == Enqueue(old(Model()), kind, script)
    {
      if IsClosed(mode) {
        rejected := rejected + 1;
        return;
      }
      var h := Handle(|handles|, kind, script);
      channel := channel + [h];
      handles := handles + [h];
    }

    /** stop(); `waiter` is the optional argument. */
    method StopLoop(waiter: Option<nat>)
      modifies this`channel, this`handles, this`rejected, this`stopWait, this`signalled
      ensures Model() == Do(old(Model()), if waiter.None? then Stop else StopWith(waiter.value))
    {
      var event: StopEvent;
      if waiter.None? {
        if stopWait {
          return;
        }
        stopWait := true;
        event := Own;
      } else {
        event := Given(waiter.value);
      }
      if !mode.Running? {
        signalled := signalled + {event};
      } else {
        QueueHandle(StopMe(event), []);
      }
    }

    method Cancel(n: nat)
      modifies this`cancelled
      ensures Model() == Do(old(Model()), CancelHandle(n))
    {
      if n < |handles| && !Private(handles[n].kind) {
        cancelled := cancelled + {n};
      }
    }

    method Perform(a: Action)
      requires Valid()
      modifies this`channel, this`handles, this`rejected, this`stopWait, this`signalled, this`cancelled
      ensures Valid() && Model() == Do(old(Model()), a)
    {
      hide Inv, Enqueue, PostStop;
      InvDo(Model(), a);
      match a {
        case CallSoon(script) => QueueHandle(Soon, script);
        case CallAt(when, script) => QueueHandle(Timer(when), script);
        case CallLater(delay, script) => QueueHandle(Timer(now + delay), script);
        case RunTask => QueueHandle(Task, []);
        case CancelHandle(n) => Cancel(n);
        case Stop => StopLoop(None);
        case StopWith(w) => StopLoop(Some(w));
        case Synchronize => QueueHandle(Sync, []);
      }
    }

    method RunScript(script: seq<Action>)
      requires Valid()
      modifies this`channel, this`handles, this`rejected, this`stopWait, this`signalled, this`cancelled
      ensures Valid() && Model() == DoAll(old(Model()), script)
    {
      hide Inv, Do;
      for i := 0 to |script|
        invariant Valid() && DoAll(Model(), script[i..]) == DoAll(old(Model()), script)
      {
        assert script[i..][1..] == script[i + 1..];
        Perform(script[i]);
      }
    }

    /** The end of an iteration: run `h` unless it has been cancelled. */
    method RunCallback(h: Handle) returns (r: Result)
      requires InHand(Model(), h)
      requires if h.kind.Timer? then When(h) <= now else Newest(Model(), h)
      requires h.id in cancelled ==> !h.kind.StopMe?
      modifies this
      ensures (Model(), r) == RunHandle(old(Model()), h) && Valid()
    {
      hide Inv, Do, DoAll, InHand, Newest;
      InvRunHandle(Model(), h);
      if h.id in cancelled {
        skipped := skipped + [h];
        return Continue;
      }
      match h.kind {
        case StopMe(e) =>
          ran := ran + [h];
          signalled := signalled + {e};
          return ExitRaised;
        case Timer(_) =>
          InvFire(Model(), h);
          fired := fired + [h];
          firedAt := firedAt + [now];
        case _ =>
          InvRan(Model(), h, {});
          assert signalled + {} == signalled;
          ran := ran + [h];
      }
      RunScript(h.script);
      r := Continue;
    }

    /** The part of an iteration that takes a handle from the channel. */
    method Receive() returns (r: Result)
      requires Valid() && LoopEnabled(Model()) && channel != []
      modifies this
      ensures Valid() && (Model(), r) == Consume(old(Model()))
    {
      hide Inv, Do, DoAll, InHand, Newest, RunHandle;
      InHandConsumed(Model());
      var h := channel[0];
      channel := channel[1..];
      match h.kind {
        case Timer(_) =>
          InvToHeap(Model(), h);
          timers := timers + [h];
          r := Continue;
        case Task =>
          if nurseryOpen {
            InvStarting(Model(), h);
            starting := Some(h);
            r := Continue;
          } else {
            InvLost(Model(), h);
            lost := lost + [h];
            r := NurseryClosed;
          }
        case _ =>
          r := RunCallback(h);
      }
    }

    /** _main_loop_one. With nothing to do it reports so: the blocking form goes on
        waiting, the other raises WouldBlock. The blocking form has read the clock before
        it waits; when it is `late`, timers may have become due since. */
    method MainLoopOne(pick: nat, late: bool) returns (r: Result)
      requires Valid() && LoopEnabled(Model())
      modifies this
      ensures Valid() && (Model(), r) == Iterate(old(Model()), pick, late)
    {
      hide Inv, Do, DoAll, InHand, Newest, RunHandle, Consume;
      if timers != [] {
        var i := PickMin(timers, pick);
        FirstIsMin(timers, i);
        if When(timers[i]) - now <= 0 && !(late && mode.Running?) {
          var h := timers[i];
          InHandFired(Model(), i);
          timers := Remove(timers, i);
          r := RunCallback(h);
          return;
        }
      }
      if channel == [] {
        return NothingToDo;
      }
      r := Receive();
    }

    lemma FirstIsMin(heap: seq<Handle>, i: nat)
      requires IsMin(heap, i)
      ensures When(heap[i]) == When(heap[FirstMin(heap)])
    {
      assert heap[i] in heap && heap[FirstMin(heap)] in heap;
    }

    /** The first step of the task that the loop is starting. */
    method TaskStarts()
      requires Valid()
      modifies this
      ensures Valid() && Model() == TakeFirstStep(old(Model()))
    {
      hide Inv;
      InvFirstStep(Model());
      if starting.Some? {
        var h := starting.value;
        starting := None;
        if h.id in cancelled { skipped := skipped + [h]; } else { ran := ran + [h]; }
      }
    }

    /** Something the rest of the program does. */
    method Elsewhere(l: Label)
      requires Valid() && !l.Loop?
      modifies this
      ensures Valid() && Model() == Step(old(Model()), l)
    {
      hide Inv, Do, LoopStep, TakeFirstStep;
      InvStep(Model(), l);
      match l {
        case Tick(d) => now := now + d;
        case Request(a) => Perform(a);
        case FirstStep => TaskStarts();
        case CloseNursery => nurseryOpen := false;
        case Begin => if mode.NotStarted? { mode := Running; }
        case BeginDrain => if mode.Stopped? && starting.None? { mode := Draining; }
      }
    }

    static function Labels(r: Round): seq<Label> {
      r.meanwhile + [Loop(r.pick, r.late)]
    }

    static function AllLabels(rounds: seq<Round>): seq<Label> {
      if rounds == [] then [] else Labels(rounds[0]) + AllLabels(rounds[1..])
    }

    static lemma {:induction false} RunAppend(s: State, a: seq<Label>, b: seq<Label>)
      ensures Run(s, a + b) == Run(Run(s, a), b)
      decreases |a|
    {
      if a == [] {
        assert a + b == b;
      } else {
        assert (a + b)[1..] == a[1..] + b;
        RunAppend(Step(s, a[0]), a[1..], b);
      }
    }

    static lemma RunCons(s: State, l: Label, rest: seq<Label>)
      ensures Run(s, [l] + rest) == Run(Step(s, l), rest)
      ensures Run(s, [l]) == Step(s, l)
    {
      hide Step;
      assert ([l] + rest)[1..] == rest;
      assert [l][1..] == [];
    }

    /** What the rest of the program does while the loop is suspended. */
    method Meanwhile(labels: seq<Label>)
      requires Valid() && forall l <- labels :: !l.Loop?
      modifies this
      ensures Valid() && Model() == Run(old(Model()), labels)
    {
      hide Inv, Step;
      for i := 0 to |labels|
        invariant Valid() && Run(Model(), labels[i..]) == Run(old(Model()), labels)
      {
        assert labels[i..] == [labels[i]] + labels[i + 1..];
        RunCons(Model(), labels[i], labels[i + 1..]);
        Elsewhere(labels[i]);
      }
    }

    /** One turn of the main loop with what happens while it is suspended. */
    method Turn(round: Round)
      requires Valid() && mode.Running?
      requires forall l <- round.meanwhile :: !l.Loop?
      modifies this
      ensures Valid() && Model() == Run(old(Model()), Labels(round))
      ensures mode.Running? || mode.Stopped?
    {
      hide Inv, Step, Iterate, Run;
      RunAppend(old(Model()), round.meanwhile, [Loop(round.pick, round.late)]);
      RunStaysRunning(Model(), round.meanwhile);
      Meanwhile(round.meanwhile);
      ghost var s := Model();
      InvStep(s, Loop(round.pick, round.late));
      RunCons(s, Loop(round.pick, round.late), []);
      LoopLabel(s, round.pick, round.late);
      if starting.None? {
        IterateKeepsMode(s, round.pick, round.late);
        InvIterate(s, round.pick, round.late);
        var r := MainLoopOne(round.pick, round.late);
        match r {
          case Continue =>
          case NothingToDo =>
          case ExitRaised =>
            mode := Stopped;
            stopper := Some(ran[|ran| - 1]);
          case NurseryClosed =>
            mode := Stopped;
        }
      }
    }

    static lemma {:induction false} RunStaysRunning(s: State, labels: seq<Label>)
      requires s.mode.Running? && forall l <- labels :: !l.Loop?
      ensures Run(s, labels).mode.Running?
      decreases |labels|
    {
      hide Step;
      if labels != [] {
        StepStaysRunning(s, labels[0]);
        RunStaysRunning(Step(s, labels[0]), labels[1..]);
      }
    }

    static lemma LoopLabel(s: State, pick: nat, late: bool)
      requires s.mode.Running? || s.mode.Draining?
      ensures Step(s, Loop(pick, late)) == if s.starting.None? then LoopStep(s, pick, late) else s
    {
    }

    static lemma StepStaysRunning(s: State, l: Label)
      requires s.mode.Running? && !l.Loop?
      ensures Step(s, l).mode.Running?
    {
      if l.Request? { DoGrows(s, l.a); }
    }

    /** _main_loop: iterate until stopped. Each element of `rounds` is one iteration and
        what happens around it; the loop leaves the rest alone once it has stopped. With a
        stop_me in the channel, StopRank iterations are enough. */
    method MainLoop(rounds: seq<Round>) returns (used: nat)
      requires Valid() && mode.Running?
      requires forall r <- rounds :: forall l <- r.meanwhile :: !l.Loop?
      modifies this
      ensures Valid() && used <= |rounds|
      ensures Model() == Run(old(Model()), AllLabels(rounds[..used]))
      ensures mode.Stopped? || (mode.Running? && used == |rounds|)
      ensures AnyStop(old(channel)) && Iterations(old(Model()), AllLabels(rounds)) >= StopRank(old(Model())) ==>
                mode.Stopped?
    {
      hide Inv, Step, Iterations, StopRank;
      used := 0;
      while used < |rounds| && mode.Running?
        invariant Valid() && used <= |rounds| && (mode.Running? || mode.Stopped?)
        invariant Model() == Run(old(Model()), AllLabels(rounds[..used]))
      {
        AllLabelsAppend(rounds[..used], rounds[used]);
        assert rounds[..used] + [rounds[used]] == rounds[..used + 1];
        RunAppend(old(Model()), AllLabels(rounds[..used]), Labels(rounds[used]));
        Turn(rounds[used]);
        used := used + 1;
      }
      assert rounds[..|rounds|] == rounds;
      if AnyStop(old(channel)) {
        StopComes(old(Model()), AllLabels(rounds));
      }
    }

    static lemma {:induction false} AllLabelsAppend(rounds: seq<Round>, r: Round)
      ensures AllLabels(rounds + [r]) == AllLabels(rounds) + Labels(r)
    {
      if rounds == [] {
        assert rounds + [r] == [r];
        assert AllLabels([r]) == Labels(r) + AllLabels([]);
      } else {
        assert (rounds + [r])[1..] == rounds[1..] + [r];
        AllLabelsAppend(rounds[1..], r);
      }
    }

    /** _cancel_timers. */
    method CancelTimers()
      modifies this`cancelled, this`timers, this`swept
      ensures timers == [] && swept == old(swept) + old(timers)
      ensures cancelled == old(cancelled) + set h <- old(timers) :: h.id
    {
      for i := 0 to |timers|
        invariant timers == old(timers) && swept == old(swept)
        invariant cancelled == old(cancelled) + set h <- timers[..i] :: h.id
      {
        assert timers[..i + 1] == timers[..i] + [timers[i]];
        cancelled := cancelled + {timers[i].id};
      }
      assert old(timers)[..|timers|] == old(timers);
      swept := swept + timers;
      timers := [];
    }

    /** One turn of the drain: a stop_me is swallowed, and with nothing left to do the
        remaining timers are cancelled and the loop is over. */
    method DrainOne(pick: nat)
      requires Valid() && mode.Draining? && starting.None?
      modifies this
      ensures Valid() && Model() == LoopStep(old(Model()), pick, false)
    {
      hide Inv, Iterate;
      InvLoopStep(Model(), pick, false);
      IterateKeepsMode(Model(), pick, false);
      InvIterate(Model(), pick, false);
      var r := MainLoopOne(pick, false);
      match r {
        case NothingToDo =>
          CancelTimers();
          mode := Closed;
        case NurseryClosed =>
          mode := Failed;
        case ExitRaised =>
        case Continue =>
      }
    }

    /** The second half of _main_loop_exit: drain, then cancel what is left. Each round is
        what the rest of the program does before an iteration, be it only the passing of
        time; a task that is being started then takes its first step. The work that this
        asks of the loop is bounded by `budget`, or the drain could go on for ever. A task
        that comes after the nursery was closed makes the exit fail. */
    method DrainAndClose(rounds: nat -> Round, ghost budget: nat) returns (ok: bool, used: nat)
      requires Valid() && mode.Draining?
      requires forall n: nat :: forall l <- rounds(n).meanwhile :: !l.Loop?
      requires forall n: nat :: RequestedWork(DrainLabels(rounds, n)) <= budget
      modifies this
      ensures Valid() && Model() == Run(old(Model()), DrainLabels(rounds, used))
      ensures ok ==> mode.Closed? && channel == [] && timers == [] && lost == old(lost)
      ensures !ok ==> mode.Failed? && !nurseryOpen && lost != []
      ensures ok ==> exists left: seq<Handle> :: swept == old(swept) + left && forall h <- left :: now < When(h)
    {
      hide Inv, LoopStep, Work, Run, RequestedWork;
      ghost var s0 := Model();
      used := 0;
      RunNothing(s0);
      while mode.Draining?
        invariant Valid()
        invariant Model() == Run(s0, DrainLabels(rounds, used))
        invariant mode.Draining? ==> lost == s0.lost && swept == s0.swept
        invariant !mode.Draining? ==> mode.Closed? || (mode.Failed? && !nurseryOpen && lost != [])
        invariant mode.Closed? ==> channel == [] && timers == [] && lost == s0.lost
        invariant mode.Closed? ==>
                    exists left: seq<Handle> :: swept == s0.swept + left && forall h <- left :: now < When(h)
        decreases if mode.Draining? then 1 + Work(Model()) + budget - RequestedWork(DrainLabels(rounds, used)) else 0
      {
        ghost var s := Model();
        var round := rounds(used);
        DrainGrows(s0, rounds, used);
        DrainTurn(s, round);
        RunDrains(s, round.meanwhile);
        Meanwhile(round.meanwhile);
        FirstStepDrains(Model());
        TaskStarts();
        LoopLabel(Model(), round.pick, false);
        DrainStep(Model(), round.pick, false);
        DrainOne(round.pick);
        used := used + 1;
      }
      ok := mode.Closed?;
    }

    static function DrainRound(r: Round): seq<Label> {
      r.meanwhile + [FirstStep, Loop(r.pick, false)]
    }

    static function DrainLabels(rounds: nat -> Round, n: nat): seq<Label> {
      if n == 0 then [] else DrainLabels(rounds, n - 1) + DrainRound(rounds(n - 1))
    }

    static lemma RunNothing(s: State)
      ensures Run(s, []) == s
    {
    }

    static lemma DrainGrows(s: State, rounds: nat -> Round, n: nat)
      ensures Run(s, DrainLabels(rounds, n + 1)) == Run(Run(s, DrainLabels(rounds, n)), DrainRound(rounds(n)))
      ensures RequestedWork(DrainLabels(rounds, n + 1))
              == RequestedWork(DrainLabels(rounds, n)) + RequestedWork(DrainRound(rounds(n)))
    {
      hide Run, RequestedWork;
      RunAppend(s, DrainLabels(rounds, n), DrainRound(rounds(n)));
      RequestedWorkAppend(DrainLabels(rounds, n), DrainRound(rounds(n)));
    }

    static lemma {:induction false} RequestedWorkAppend(a: seq<Label>, b: seq<Label>)
      ensures RequestedWork(a + b) == RequestedWork(a) + RequestedWork(b)
    {
      if a == [] {
        assert a + b == b;
      } else {
        assert (a + b)[1..] == a[1..] + b;
        RequestedWorkAppend(a[1..], b);
      }
    }

    /** A round of the drain step by step, and the work it leaves. */
    static lemma DrainTurn(s: State, r: Round)
      requires Inv(s) && s.mode.Draining? && forall l <- r.meanwhile :: !l.Loop?
      ensures var t := Run(s, DrainRound(r));
              && t == Step(TakeFirstStep(Run(s, r.meanwhile)), Loop(r.pick, false))
              && (t.mode.Draining? ==> Work(t) < Work(s) + RequestedWork(DrainRound(r)))
    {
      hide Inv, Step, Work, RequestedWork, TakeFirstStep;
      var s1 := Run(s, r.meanwhile);
      RunAppend(s, r.meanwhile, [FirstStep, Loop(r.pick, false)]);
      IterationsAppend(s, r.meanwhile, [FirstStep, Loop(r.pick, false)]);
      RunDrains(s, r.meanwhile);
      FirstStepDrains(s1);
      assert Step(s1, FirstStep) == TakeFirstStep(s1) by { StepIsFirst(s1); }
      hide Run, Iterations;
      RunCons(s1, FirstStep, [Loop(r.pick, false)]);
      RunCons(TakeFirstStep(s1), Loop(r.pick, false), []);
      assert [FirstStep, Loop(r.pick, false)] == [FirstStep] + [Loop(r.pick, false)];
      OneIteration(s1, r.pick);
      DrainEnds(s, DrainRound(r));
    }

    static lemma StepIsFirst(s: State)
      ensures Step(s, FirstStep) == TakeFirstStep(s)
    {
    }

    static lemma OneIteration(s: State, pick: nat)
      requires s.mode.Draining? && TakeFirstStep(s).starting.None? && TakeFirstStep(s).mode.Draining?
      ensures Iterations(s, [FirstStep, Loop(pick, false)]) == 1
    {
      hide LoopStep, TakeFirstStep;
      var labels := [FirstStep, Loop(pick, false)];
      assert labels[1..] == [Loop(pick, false)] && labels[1..][1..] == [];
      assert Iterations(s, labels) == Iterations(TakeFirstStep(s), labels[1..]);
    }

    static lemma {:induction false} IterationsAppend(s: State, a: seq<Label>, b: seq<Label>)
      ensures Iterations(s, a + b) == Iterations(s, a) + Iterations(Run(s, a), b)
      decreases |a|
    {
      hide Step, LoopEnabled;
      if a == [] {
        assert a + b == b;
      } else {
        assert (a + b)[1..] == a[1..] + b;
        IterationsAppend(Step(s, a[0]), a[1..], b);
      }
    }

    /** Nothing but an iteration ends the drain, or sweeps or loses a handle. */
    static lemma {:induction false} RunDrains(s: State, labels: seq<Label>)
      requires Inv(s) && s.mode.Draining? && forall l <- labels :: !l.Loop?
      ensures var t := Run(s, labels); Inv(t) && t.mode.Draining? && t.swept == s.swept && t.lost == s.lost
      decreases |labels|
    {
      hide Inv, Step;
      if labels != [] {
        InvStep(s, labels[0]);
        StepDrains(s, labels[0]);
        RunDrains(Step(s, labels[0]), labels[1..]);
      }
    }

    static lemma StepDrains(s: State, l: Label)
      requires s.mode.Draining? && !l.Loop?
      ensures var t := Step(s, l); t.mode.Draining? && t.swept == s.swept && t.lost == s.lost
    {
      hide Do;
      if l.Request? { DoGrows(s, l.a); }
    }

    static lemma FirstStepDrains(s: State)
      requires Inv(s) && s.mode.Draining?
      ensures var t := TakeFirstStep(s);
              Inv(t) && t.mode.Draining? && t.swept == s.swept && t.lost == s.lost && t.starting.None?
    {
      InvFirstStep(s);
      hide Inv;
    }

    static lemma DrainStep(s: State, pick: nat, late: bool)
      requires Inv(s) && s.mode.Draining? && s.starting.None?
      ensures var t := LoopStep(s, pick, late);
              && t.now == s.now
              && (t.mode.Draining? ==> t.swept == s.swept && t.lost == s.lost)
              && (!t.mode.Draining? ==> t.mode.Closed? || (t.mode.Failed? && !t.nurseryOpen && t.lost != []))
              && (t.mode.Closed? ==> t.channel == [] && t.heap == [] && t.lost == s.lost
                                     && t.swept == s.swept + s.heap && forall h <- s.heap :: s.now < When(h))
    {
      hide Inv, Iterate;
      InvLoopStep(s, pick, late);
      DrainEndsEmpty(s, pick, late);
      IterateKeepsMode(s, pick, late);
      IterateKeepsLogs(s, pick, late);
      if LoopStep(s, pick, late).lost != [] { ClosedNurseryIsShut(LoopStep(s, pick, late)); }
    }

    static lemma ClosedNurseryIsShut(s: State)
      requires Inv(s) && s.lost != []
      ensures !s.nurseryOpen
    {
    }
  }
}
