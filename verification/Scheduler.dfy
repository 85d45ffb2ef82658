/** The event loop's scheduler as a state machine: the channel of handles, the heap of
    timers, the clock, the stop protocol and the drain at exit. A run is any sequence of
    labels, so a statement about all runs covers every interleaving of the loop with
    the rest of the program. */
module Scheduler {
  import opened Options

  /** What a callback, or any other code, can ask of the loop. A callback is a finite
      list of actions, and each handle it schedules carries its own list. */
  datatype Action =
    | CallSoon(script: seq<Action>)
    | CallAt(when: int, script: seq<Action>)
    | CallLater(delay: nat, script: seq<Action>)
    | RunTask                          // queue an AsyncHandle
    | CancelHandle(target: nat)        // the target-th handle ever queued
    | Stop                             // stop()
    | StopWith(waiter: nat)            // stop(waiter), with an event of the caller's
    | Synchronize                      // queue a callback that nobody can cancel, as synchronize() does

  datatype StopEvent = Own | Given(waiter: nat)

  datatype Kind = Soon | Timer(when: int) | Task | StopMe(event: StopEvent) | Sync

  /** `id` counts the handles in the order in which they were queued. */
  datatype Handle = Handle(id: nat, kind: Kind, script: seq<Action>)

  datatype Mode = NotStarted | Running | Stopped | Draining | Failed | Closed

  datatype State = State(
    now: int,
    mode: Mode,
    nurseryOpen: bool,
    channel: seq<Handle>,
    heap: seq<Handle>,               // in no particular order
    starting: Option<Handle>,        // the loop waits for this task's first step
    cancelled: set<nat>,
    stopWait: bool,                  // _stop_wait is not None
    signalled: set<StopEvent>,
    // history
    enqueued: seq<Handle>,
    ran: seq<Handle>,                // callbacks run and tasks started, timers excepted
    fired: seq<Handle>,
    firedAt: seq<int>,
    skipped: seq<Handle>,            // found cancelled
    swept: seq<Handle>,              // cancelled by _cancel_timers
    lost: seq<Handle>,               // tasks that came after the nursery was closed
    stopper: Option<Handle>,         // the callback that stopped the main loop
    rejected: nat)                   // calls that found the loop closed

  function Initial(now: int): State {
    State(now, NotStarted, true, [], [], None, {}, false, {}, [], [], [], [], [], [], [], None, 0)
  }

  /** close() has been called; a failed exit calls it, too. */
  predicate IsClosed(m: Mode) {
    m.Closed? || m.Failed?
  }

  function Enqueue(s: State, kind: Kind, script: seq<Action>): State {
    if IsClosed(s.mode) then s.(rejected := s.rejected + 1)
    else
      var h := Handle(|s.enqueued|, kind, script);
      s.(channel := s.channel + [h], enqueued := s.enqueued + [h])
  }

  /** The callbacks of stop() and synchronize() stay inside these: nobody holds a handle to
      cancel them. */
  predicate Private(k: Kind) {
    k.StopMe? || k.Sync?
  }

  predicate Cancellable(s: State, n: nat) {
    n < |s.enqueued| && !Private(s.enqueued[n].kind)
  }

  function Do(s: State, a: Action): State {
    match a
    case CallSoon(script) => Enqueue(s, Soon, script)
    case CallAt(when, script) => Enqueue(s, Timer(when), script)
    case CallLater(delay, script) => Enqueue(s, Timer(s.now + delay), script)
    case RunTask => Enqueue(s, Task, [])
    case CancelHandle(n) => if Cancellable(s, n) then s.(cancelled := s.cancelled + {n}) else s
    case Stop => if s.stopWait then s else PostStop(s.(stopWait := true), Own)
    case StopWith(w) => PostStop(s, Given(w))
    case Synchronize => Enqueue(s, Sync, [])
  }

  function PostStop(s: State, e: StopEvent): State {
    if s.mode.Running? then Enqueue(s, StopMe(e), []) else s.(signalled := s.signalled + {e})
  }

  function DoAll(s: State, script: seq<Action>): State
    decreases |script|
  {
    if script == [] then s else DoAll(Do(s, script[0]), script[1..])
  }

  // The heap, by the contract of heapq: what is popped has minimal `when`

  predicate IsMin(heap: seq<Handle>, i: nat) {
    i < |heap| && forall h <- heap :: When(heap[i]) <= When(h)
  }

  function When(h: Handle): int {
    if h.kind.Timer? then h.kind.when else 0
  }

  function FirstMin(heap: seq<Handle>): (i: nat)
    requires heap != []
    ensures IsMin(heap, i)
  {
    if |heap| == 1 then 0
    else
      var j := FirstMin(heap[1..]);
      assert heap == [heap[0]] + heap[1..];
      if When(heap[0]) <= When(heap[1 + j]) then 0 else 1 + j
  }

  /** Which of several minimal timers comes first is not specified: `pick` decides. */
  function PickMin(heap: seq<Handle>, pick: nat): (i: nat)
    requires heap != []
    ensures IsMin(heap, i)
  {
    if IsMin(heap, pick) then pick else FirstMin(heap)
  }

  function Remove(heap: seq<Handle>, i: nat): seq<Handle>
    requires i < |heap|
  {
    heap[..i] + heap[i + 1..]
  }

  predicate TimerDue(s: State) {
    s.heap != [] && When(s.heap[FirstMin(s.heap)]) <= s.now
  }

  // One iteration of the main loop

  datatype Result = Continue | ExitRaised | NothingToDo | NurseryClosed

  function RunHandle(s: State, h: Handle): (State, Result) {
    if h.id in s.cancelled then (s.(skipped := s.skipped + [h]), Continue)
    else
      match h.kind
      case StopMe(e) =>
        (s.(ran := s.ran + [h], signalled := s.signalled + {e}), ExitRaised)
      case Timer(_) =>
        (DoAll(s.(fired := s.fired + [h], firedAt := s.firedAt + [s.now]), h.script), Continue)
      case _ =>
        (DoAll(s.(ran := s.ran + [h]), h.script), Continue)
  }

  function FireTimer(s: State, pick: nat): (State, Result)
    requires s.heap != []
  {
    var i := PickMin(s.heap, pick);
    RunHandle(s.(heap := Remove(s.heap, i)), s.heap[i])
  }

  function Consume(s: State): (State, Result)
    requires s.channel != []
  {
    var h := s.channel[0];
    var s1 := s.(channel := s.channel[1..]);
    match h.kind
    case Timer(_) => (s1.(heap := s1.heap + [h]), Continue)
    case Task =>
      if s1.nurseryOpen then (s1.(starting := Some(h)), Continue)
      else (s1.(lost := s1.lost + [h]), NurseryClosed)
    case _ => RunHandle(s1, h)
  }

  /** A running loop may read the clock, find no timer due, and wait: what it then receives
      comes before a timer that has become due in the meantime. `late` says that it does. */
  predicate FiresNow(s: State, late: bool) {
    TimerDue(s) && !(late && s.mode.Running?)
  }

  function Iterate(s: State, pick: nat, late: bool): (State, Result) {
    if FiresNow(s, late) then FireTimer(s, pick)
    else if s.channel == [] then (s, NothingToDo)
    else Consume(s)
  }

  /** _cancel_timers, and the end of the loop. */
  function Finish(s: State): State {
    s.(mode := Closed, heap := [], swept := s.swept + s.heap,
       cancelled := s.cancelled + set h <- s.heap :: h.id)
  }

  /** What the caller of an iteration makes of its result. */
  function LoopStep(s: State, pick: nat, late: bool): State {
    var (s1, r) := Iterate(s, pick, late);
    if s.mode.Running? then
      match r
      case Continue => s1
      case ExitRaised => s1.(mode := Stopped, stopper := Some(s1.ran[|s1.ran| - 1]))
      case NothingToDo => s            // it goes on waiting, or its timeout has passed
      case NurseryClosed => s1.(mode := Stopped)
    else
      match r
      case Continue => s1
      case ExitRaised => s1            // swallowed by the drain
      case NothingToDo => Finish(s)
      case NurseryClosed => s1.(mode := Failed)
  }

  datatype Label =
    | Tick(d: nat)
    | Request(a: Action)               // code outside the loop's callbacks
    | Begin                            // _main_loop starts
    | Loop(pick: nat, late: bool)
    | FirstStep                        // of the task being started
    | CloseNursery
    | BeginDrain

  predicate LoopEnabled(s: State) {
    s.starting.None? && (s.mode.Running? || s.mode.Draining?)
  }

  function TakeFirstStep(s: State): State {
    if s.starting.None? then s
    else
      var h, s1 := s.starting.value, s.(starting := None);
      if h.id in s.cancelled then s1.(skipped := s.skipped + [h]) else s1.(ran := s.ran + [h])
  }

  function Step(s: State, l: Label): State {
    match l
    case Tick(d) => s.(now := s.now + d)
    case Request(a) => Do(s, a)
    case Begin => if s.mode.NotStarted? then s.(mode := Running) else s
    case Loop(pick, late) => if LoopEnabled(s) then LoopStep(s, pick, late) else s
    case FirstStep => TakeFirstStep(s)
    case CloseNursery => s.(nurseryOpen := false)
    case BeginDrain => if s.mode.Stopped? && s.starting.None? then s.(mode := Draining) else s
  }

  function Run(s: State, labels: seq<Label>): State
    decreases |labels|
  {
    if labels == [] then s else Run(Step(s, labels[0]), labels[1..])
  }

  // The invariant

  /** How many handles have been taken from the channel. */
  function Consumed(s: State): int {
    |s.enqueued| - |s.channel|
  }

  function Pending(o: Option<Handle>): multiset<Handle> {
    if o.Some? then multiset{o.value} else multiset{}
  }

  ghost predicate History(s: State) {
    && (forall i | 0 <= i < |s.enqueued| :: s.enqueued[i].id == i)
    && 0 <= Consumed(s)
    && s.channel == s.enqueued[Consumed(s)..]
  }

  function Taken(s: State): seq<Handle>
    requires 0 <= Consumed(s)
  {
    s.enqueued[..Consumed(s)]
  }

  /** Every handle taken from the channel is in exactly one of these places. */
  ghost predicate Placed(taken: seq<Handle>, heap: seq<Handle>, ran: seq<Handle>, fired: seq<Handle>,
                         skipped: seq<Handle>, swept: seq<Handle>, lost: seq<Handle>, hand: multiset<Handle>) {
    multiset(taken) == multiset(heap) + multiset(ran) + multiset(fired) + multiset(skipped)
                       + multiset(swept) + multiset(lost) + hand
  }

  ghost predicate Conserved(s: State)
    requires 0 <= Consumed(s)
  {
    Placed(Taken(s), s.heap, s.ran, s.fired, s.skipped, s.swept, s.lost, Pending(s.starting))
  }

  ghost predicate InOrder(s: State) {
    && (forall i, j | 0 <= i < j < |s.ran| :: s.ran[i].id < s.ran[j].id)
    && (forall h <- s.ran :: h.id < Consumed(s))
    && (s.starting.Some? ==> s.starting.value.id == Consumed(s) - 1
                             && forall h <- s.ran :: h.id < s.starting.value.id)
  }

  ghost predicate TimersOk(s: State) {
    && (forall h <- s.heap :: h.kind.Timer?)
    && (forall h <- s.ran :: !h.kind.Timer?)
    && |s.fired| == |s.firedAt|
    && (forall i | 0 <= i < |s.fired| :: s.fired[i].kind.Timer? && When(s.fired[i]) <= s.firedAt[i] <= s.now)
    && (forall h <- s.swept :: h.kind.Timer? && h.id in s.cancelled)
    && (forall h <- s.skipped :: h.id in s.cancelled)
    && (s.starting.Some? ==> s.starting.value.kind.Task?)
    && (forall h <- s.lost :: h.kind.Task?)
  }

  predicate HasStop(channel: seq<Handle>, e: StopEvent) {
    exists h <- channel :: h.kind == StopMe(e)
  }

  ghost predicate StopOk(s: State) {
    && (forall n <- s.cancelled :: n < |s.enqueued| && !Private(s.enqueued[n].kind))
    && (forall h <- s.enqueued :: Private(h.kind) || h.kind.Task? ==> h.script == [])
    && (forall h <- s.ran :: h.kind.StopMe? ==> h.kind.event in s.signalled)
    && (s.stopper.Some? ==> s.stopper.value in s.ran && s.stopper.value.kind.StopMe?)
    && (s.mode.NotStarted? || s.mode.Running? ==> s.stopper.None?)
    && (s.mode.Closed? ==> s.channel == [] && s.heap == [] && s.starting.None?)
    && (s.mode.NotStarted? || s.mode.Stopped? ==> s.starting.None?)
    && (s.mode.Stopped? ==> s.stopper.Some? || s.lost != [])
    && (s.lost != [] ==> !s.nurseryOpen)
  }

  ghost predicate Inv(s: State) {
    History(s) && Conserved(s) && InOrder(s) && TimersOk(s) && StopOk(s)
  }

  /** What no action changes. */
  ghost predicate SameElsewhere(s: State, t: State) {
    && t.now == s.now && t.mode == s.mode && t.nurseryOpen == s.nurseryOpen && t.heap == s.heap
    && t.starting == s.starting && t.ran == s.ran && t.fired == s.fired && t.firedAt == s.firedAt
    && t.skipped == s.skipped && t.swept == s.swept && t.lost == s.lost && t.stopper == s.stopper
  }

  /** What an action may change: it only adds to the channel, to the cancelled handles
      and to the events set. */
  ghost predicate Grows(s: State, t: State) {
    && SameElsewhere(s, t)
    && (exists more :: t.enqueued == s.enqueued + more && t.channel == s.channel + more)
    && s.cancelled <= t.cancelled
    && s.signalled <= t.signalled
    && (s.stopWait ==> t.stopWait)
  }

  lemma EnqueueGrows(s: State, kind: Kind, script: seq<Action>)
    ensures Grows(s, Enqueue(s, kind, script))
  {
    assert s.enqueued == s.enqueued + [] && s.channel == s.channel + [];
  }

  lemma PostStopGrows(s: State, e: StopEvent)
    ensures Grows(s, PostStop(s, e))
  {
    if s.mode.Running? {
      EnqueueGrows(s, StopMe(e), []);
    } else {
      assert s.enqueued == s.enqueued + [] && s.channel == s.channel + [];
    }
  }

  lemma DoGrows(s: State, a: Action)
    ensures Grows(s, Do(s, a))
  {
    hide Enqueue, PostStop;
    match a
    case CallSoon(script) => EnqueueGrows(s, Soon, script);
    case CallAt(when, script) => EnqueueGrows(s, Timer(when), script);
    case CallLater(delay, script) => EnqueueGrows(s, Timer(s.now + delay), script);
    case RunTask => EnqueueGrows(s, Task, []);
    case CancelHandle(n) => assert s.enqueued == s.enqueued + [] && s.channel == s.channel + [];
    case Stop =>
      assert s.enqueued == s.enqueued + [] && s.channel == s.channel + [];
      if !s.stopWait {
        PostStopGrows(s.(stopWait := true), Own);
        GrowsTransitive(s, s.(stopWait := true), Do(s, a));
      }
    case StopWith(w) => PostStopGrows(s, Given(w));
    case Synchronize => EnqueueGrows(s, Sync, []);
  }

  lemma GrowsTransitive(a: State, b: State, c: State)
    requires Grows(a, b) && Grows(b, c)
    ensures Grows(a, c)
  {
    var m :| b.enqueued == a.enqueued + m && b.channel == a.channel + m;
    var n :| c.enqueued == b.enqueued + n && c.channel == b.channel + n;
    assert c.enqueued == a.enqueued + (m + n) && c.channel == a.channel + (m + n);
  }

  lemma {:induction false} DoAllGrows(s: State, script: seq<Action>)
    ensures Grows(s, DoAll(s, script))
    decreases |script|
  {
    if script == [] {
      assert s.enqueued == s.enqueued + [] && s.channel == s.channel + [];
    } else {
      var s1 := Do(s, script[0]);
      DoGrows(s, script[0]);
      DoAllGrows(s1, script[1..]);
      GrowsTransitive(s, s1, DoAll(s, script));
    }
  }

  lemma PlacedTake(taken: seq<Handle>, heap: seq<Handle>, ran: seq<Handle>, fired: seq<Handle>,
                   skipped: seq<Handle>, swept: seq<Handle>, lost: seq<Handle>, h: Handle)
    requires Placed(taken, heap, ran, fired, skipped, swept, lost, multiset{})
    ensures Placed(taken + [h], heap, ran, fired, skipped, swept, lost, multiset{h})
  {
  }

  lemma PlacedPut(taken: seq<Handle>, heap: seq<Handle>, ran: seq<Handle>, fired: seq<Handle>,
                  skipped: seq<Handle>, swept: seq<Handle>, lost: seq<Handle>, h: Handle)
    requires Placed(taken, heap, ran, fired, skipped, swept, lost, multiset{h})
    ensures Placed(taken, heap + [h], ran, fired, skipped, swept, lost, multiset{})
    ensures Placed(taken, heap, ran + [h], fired, skipped, swept, lost, multiset{})
    ensures Placed(taken, heap, ran, fired + [h], skipped, swept, lost, multiset{})
    ensures Placed(taken, heap, ran, fired, skipped + [h], swept, lost, multiset{})
    ensures Placed(taken, heap, ran, fired, skipped, swept, lost + [h], multiset{})
    ensures h in taken
  {
    assert h in multiset(taken);
  }

  lemma PlacedPop(taken: seq<Handle>, heap: seq<Handle>, ran: seq<Handle>, fired: seq<Handle>,
                  skipped: seq<Handle>, swept: seq<Handle>, lost: seq<Handle>, i: nat)
    requires i < |heap| && Placed(taken, heap, ran, fired, skipped, swept, lost, multiset{})
    ensures Placed(taken, Remove(heap, i), ran, fired, skipped, swept, lost, multiset{heap[i]})
  {
    RemoveFromBag(heap, i);
  }

  lemma PlacedSweep(taken: seq<Handle>, heap: seq<Handle>, ran: seq<Handle>, fired: seq<Handle>,
                    skipped: seq<Handle>, swept: seq<Handle>, lost: seq<Handle>)
    requires Placed(taken, heap, ran, fired, skipped, swept, lost, multiset{})
    ensures Placed(taken, [], ran, fired, skipped, swept + heap, lost, multiset{})
    ensures forall h <- heap :: h in taken
  {
    forall h | h in heap ensures h in taken {
      assert h in multiset(taken);
    }
  }

  lemma RemoveFromBag(heap: seq<Handle>, i: nat)
    requires i < |heap|
    ensures multiset(heap) == multiset(Remove(heap, i)) + multiset{heap[i]}
    ensures forall h <- Remove(heap, i) :: h in heap
  {
    assert heap == heap[..i] + [heap[i]] + heap[i + 1..];
  }

  lemma InvEnqueue(s: State, kind: Kind, script: seq<Action>)
    requires Inv(s) && (Private(kind) || kind.Task? ==> script == [])
    ensures Inv(Enqueue(s, kind, script))
  {
    hide Placed;
    if !IsClosed(s.mode) {
      var t := Enqueue(s, kind, script);
      assert Taken(t) == Taken(s);
      assert t.channel == t.enqueued[Consumed(t)..];
    }
  }

  lemma InvDo(s: State, a: Action)
    requires Inv(s)
    ensures Inv(Do(s, a))
  {
    hide Inv;
    match a
    case CallSoon(script) => InvEnqueue(s, Soon, script);
    case CallAt(when, script) => InvEnqueue(s, Timer(when), script);
    case CallLater(delay, script) => InvEnqueue(s, Timer(s.now + delay), script);
    case RunTask => InvEnqueue(s, Task, []);
    case CancelHandle(n) => if Cancellable(s, n) { InvCancel(s, n); }
    case Stop =>
      if !s.stopWait {
        InvStopWait(s);
        InvPostStop(s.(stopWait := true), Own);
      }
    case StopWith(w) => InvPostStop(s, Given(w));
    case Synchronize => InvEnqueue(s, Sync, []);
  }

  lemma InvStopWait(s: State)
    requires Inv(s)
    ensures Inv(s.(stopWait := true))
  {
    hide Placed;
  }

  lemma InvCancel(s: State, n: nat)
    requires Inv(s) && Cancellable(s, n)
    ensures Inv(s.(cancelled := s.cancelled + {n}))
  {
    hide Placed;
    var t := s.(cancelled := s.cancelled + {n});
    assert History(t) && InOrder(t) && Conserved(t) by { hide TimersOk, StopOk; }
    assert TimersOk(t) by { hide History, InOrder, StopOk; }
    assert StopOk(t) by { hide TimersOk, InOrder; }
  }

  lemma InvPostStop(s: State, e: StopEvent)
    requires Inv(s)
    ensures Inv(PostStop(s, e))
  {
    hide Inv;
    if s.mode.Running? { InvEnqueue(s, StopMe(e), []); } else { InvSignal(s, e); }
  }

  lemma InvSignal(s: State, e: StopEvent)
    requires Inv(s)
    ensures Inv(s.(signalled := s.signalled + {e}))
  {
    hide Placed;
  }

  lemma {:induction false} InvDoAll(s: State, script: seq<Action>)
    requires Inv(s)
    ensures Inv(DoAll(s, script))
    decreases |script|
  {
    if script == [] {
    } else {
      InvDo(s, script[0]);
      InvDoAll(Do(s, script[0]), script[1..]);
    }
  }

  /** The invariant while `h` is in hand: taken from its place, not yet in another. */
  ghost predicate InHand(s: State, h: Handle) {
    && History(s) && InOrder(s) && TimersOk(s) && StopOk(s)
    && s.starting.None?
    && Placed(Taken(s), s.heap, s.ran, s.fired, s.skipped, s.swept, s.lost, multiset{h})
  }

  /** `h` has just been taken from the channel. */
  ghost predicate Newest(s: State, h: Handle) {
    h.id == Consumed(s) - 1 && forall x <- s.ran :: x.id < h.id
  }

  lemma InHandConsumed(s: State)
    requires Inv(s) && s.starting.None? && s.channel != []
    ensures var h := s.channel[0];
            var s1 := s.(channel := s.channel[1..]);
            InHand(s1, h) && Newest(s1, h) && (h.id in s.cancelled ==> !h.kind.StopMe?)
  {
    hide Placed;
    var c, h := Consumed(s), s.channel[0];
    var s1 := s.(channel := s.channel[1..]);
    assert h == s.enqueued[c];
    assert Taken(s1) == Taken(s) + [h];
    assert s1.channel == s1.enqueued[Consumed(s1)..];
    PlacedTake(Taken(s), s.heap, s.ran, s.fired, s.skipped, s.swept, s.lost, h);
  }

  lemma InHandFired(s: State, i: nat)
    requires Inv(s) && s.starting.None? && i < |s.heap|
    ensures InHand(s.(heap := Remove(s.heap, i)), s.heap[i])
    ensures s.heap[i].kind.Timer?
  {
    hide Placed, Remove, History, InOrder, TimersOk, StopOk;
    RemoveKeeps(s, i);
    PlacedPop(Taken(s), s.heap, s.ran, s.fired, s.skipped, s.swept, s.lost, i);
  }

  lemma RemoveKeeps(s: State, i: nat)
    requires History(s) && InOrder(s) && TimersOk(s) && StopOk(s) && i < |s.heap|
    ensures var t := s.(heap := Remove(s.heap, i));
            && History(t) && InOrder(t) && TimersOk(t) && StopOk(t)
            && 0 <= Consumed(s) == Consumed(t) && Taken(t) == Taken(s)
            && s.heap[i].kind.Timer?
  {
    hide Remove;
    RemoveFromBag(s.heap, i);
    var t := s.(heap := Remove(s.heap, i));
    assert TimersOk(t) by { hide History, InOrder, StopOk; }
    assert History(t) by { hide TimersOk, InOrder, StopOk; }
    assert InOrder(t) by { hide History, TimersOk, StopOk; }
    assert StopOk(t) by { hide History, TimersOk, InOrder; }
    assert s.heap[i].kind.Timer? by { hide History, InOrder, StopOk; }
    hide TimersOk, InOrder, StopOk;
  }

  lemma PutInHand(s: State, h: Handle)
    requires InHand(s, h)
    ensures Placed(Taken(s), s.heap + [h], s.ran, s.fired, s.skipped, s.swept, s.lost, multiset{})
    ensures Placed(Taken(s), s.heap, s.ran + [h], s.fired, s.skipped, s.swept, s.lost, multiset{})
    ensures Placed(Taken(s), s.heap, s.ran, s.fired + [h], s.skipped, s.swept, s.lost, multiset{})
    ensures Placed(Taken(s), s.heap, s.ran, s.fired, s.skipped + [h], s.swept, s.lost, multiset{})
    ensures Placed(Taken(s), s.heap, s.ran, s.fired, s.skipped, s.swept, s.lost + [h], multiset{})
  {
    PlacedPut(Taken(s), s.heap, s.ran, s.fired, s.skipped, s.swept, s.lost, h);
  }

  lemma InvSkip(s: State, h: Handle)
    requires InHand(s, h) && h.id in s.cancelled
    ensures Inv(s.(skipped := s.skipped + [h]))
  {
    hide Placed;
    PutInHand(s, h);
  }

  lemma InvFire(s: State, h: Handle)
    requires InHand(s, h) && h.kind.Timer? && When(h) <= s.now
    ensures Inv(s.(fired := s.fired + [h], firedAt := s.firedAt + [s.now]))
  {
    hide Placed;
    PutInHand(s, h);
  }

  lemma InvRan(s: State, h: Handle, more: set<StopEvent>)
    requires InHand(s, h) && !h.kind.Timer? && Newest(s, h)
    requires h.kind.StopMe? ==> h.kind.event in more
    ensures Inv(s.(ran := s.ran + [h], signalled := s.signalled + more))
  {
    hide Placed;
    PutInHand(s, h);
  }

  lemma InvRunHandle(s: State, h: Handle)
    requires InHand(s, h)
    requires if h.kind.Timer? then When(h) <= s.now else Newest(s, h)
    requires h.id in s.cancelled ==> !h.kind.StopMe?
    ensures var (t, r) := RunHandle(s, h);
            && Inv(t) && t.mode == s.mode && t.stopper == s.stopper && t.starting == s.starting && t.lost == s.lost
            && (r == Continue || (r == ExitRaised && t.ran != [] && t.ran[|t.ran| - 1] == h && h.kind.StopMe?))
  {
    hide Inv, InHand, Newest;
    if h.id in s.cancelled {
      InvSkip(s, h);
    } else {
      match h.kind
      case StopMe(e) => InvRan(s, h, {e});
      case Timer(_) =>
        InvFire(s, h);
        InvDoAll(s.(fired := s.fired + [h], firedAt := s.firedAt + [s.now]), h.script);
        DoAllGrows(s.(fired := s.fired + [h], firedAt := s.firedAt + [s.now]), h.script);
      case _ =>
        InvRan(s, h, {});
        assert s.signalled + {} == s.signalled;
        InvDoAll(s.(ran := s.ran + [h]), h.script);
        DoAllGrows(s.(ran := s.ran + [h]), h.script);
    }
  }

  lemma InvToHeap(s: State, h: Handle)
    requires InHand(s, h) && h.kind.Timer? && !s.mode.Closed?
    ensures Inv(s.(heap := s.heap + [h]))
  {
    hide Placed;
    PutInHand(s, h);
  }

  lemma InvStarting(s: State, h: Handle)
    requires InHand(s, h) && h.kind.Task? && Newest(s, h) && (s.mode.Running? || s.mode.Draining?)
    ensures Inv(s.(starting := Some(h)))
  {
    hide Placed;
  }

  lemma InvLost(s: State, h: Handle)
    requires InHand(s, h) && h.kind.Task? && !s.nurseryOpen
    ensures Inv(s.(lost := s.lost + [h]))
  {
    hide Placed;
    PutInHand(s, h);
  }

  lemma InvIterate(s: State, pick: nat, late: bool)
    requires Inv(s) && LoopEnabled(s)
    ensures var (t, r) := Iterate(s, pick, late);
            && Inv(t) && t.mode == s.mode && t.stopper == s.stopper
            && (r == ExitRaised ==> t.ran != [] && t.ran[|t.ran| - 1].kind.StopMe?)
            && (r == ExitRaised || r == NurseryClosed ==> t.starting.None?)
            && (r == NurseryClosed ==> t.lost != [])
            && (r == NothingToDo ==> t == s && s.channel == [])
  {
    hide Inv, InHand, Newest;
    if FiresNow(s, late) {
      var i := PickMin(s.heap, pick);
      InHandFired(s, i);
      InvRunHandle(s.(heap := Remove(s.heap, i)), s.heap[i]);
    } else if s.channel != [] {
      var h, s1 := s.channel[0], s.(channel := s.channel[1..]);
      InHandConsumed(s);
      match h.kind
      case Timer(_) => InvToHeap(s1, h);
      case Task =>
        if s1.nurseryOpen { InvStarting(s1, h); } else { InvLost(s1, h); }
      case _ => InvRunHandle(s1, h);
    }
  }

  lemma InvFinish(s: State)
    requires Inv(s) && s.mode.Draining? && s.channel == [] && s.starting.None?
    ensures Inv(Finish(s))
  {
    hide Placed, History, InOrder, TimersOk, StopOk;
    FinishKeepsOrder(s);
    PlacedSweep(Taken(s), s.heap, s.ran, s.fired, s.skipped, s.swept, s.lost);
    FinishStops(s);
    FinishTimers(s);
  }

  lemma FinishKeepsOrder(s: State)
    requires History(s) && InOrder(s)
    ensures var t := Finish(s); History(t) && InOrder(t) && 0 <= Consumed(s) == Consumed(t) && Taken(t) == Taken(s)
  {
  }

  lemma FinishTimers(s: State)
    requires TimersOk(s)
    ensures TimersOk(Finish(s))
  {
  }

  /** Only timers are swept, and so no stop_me is cancelled. */
  lemma FinishStops(s: State)
    requires History(s) && TimersOk(s) && StopOk(s) && s.mode.Draining? && s.channel == [] && s.starting.None?
    requires forall h <- s.heap :: h in Taken(s)
    ensures StopOk(Finish(s))
  {
    forall h | h in s.heap ensures h.id < |s.enqueued| && s.enqueued[h.id] == h {
      TakenById(s, h);
    }
  }

  lemma TakenById(s: State, h: Handle)
    requires History(s) && h in Taken(s)
    ensures h.id < |s.enqueued| && s.enqueued[h.id] == h
  {
  }

  lemma InvStop(s: State)
    requires Inv(s) && s.starting.None? && s.ran != [] && s.ran[|s.ran| - 1].kind.StopMe?
    ensures Inv(s.(mode := Stopped, stopper := Some(s.ran[|s.ran| - 1])))
  {
    hide Placed;
  }

  lemma InvFailed(s: State)
    requires Inv(s) && s.starting.None? && s.lost != []
    ensures Inv(s.(mode := Stopped)) && Inv(s.(mode := Failed))
  {
    hide Placed;
  }

  lemma InvLoopStep(s: State, pick: nat, late: bool)
    requires Inv(s) && LoopEnabled(s)
    ensures Inv(LoopStep(s, pick, late))
  {
    hide Inv, Iterate;
    InvIterate(s, pick, late);
    var (t, r) := Iterate(s, pick, late);
    match r
    case Continue =>
    case ExitRaised => if s.mode.Running? { InvStop(t); }
    case NothingToDo => if s.mode.Draining? { InvFinish(s); }
    case NurseryClosed => InvFailed(t);
  }

  lemma InvFirstStep(s: State)
    requires Inv(s)
    ensures Inv(TakeFirstStep(s))
  {
    if s.starting.Some? {
      var h, s1 := s.starting.value, s.(starting := None);
      hide Inv, InHand, Newest;
      FirstStepInHand(s);
      if h.id in s.cancelled {
        InvSkip(s1, h);
      } else {
        InvRan(s1, h, {});
        assert s1.signalled + {} == s1.signalled;
      }
    }
  }

  lemma FirstStepInHand(s: State)
    requires Inv(s) && s.starting.Some?
    ensures var h, s1 := s.starting.value, s.(starting := None);
            InHand(s1, h) && Newest(s1, h) && !h.kind.Timer? && !h.kind.StopMe?
  {
    hide Placed;
  }

  lemma InvSimpleStep(s: State, l: Label)
    requires Inv(s) && (l.Tick? || l.Begin? || l.CloseNursery? || l.BeginDrain?)
    ensures Inv(Step(s, l))
  {
    hide Placed;
  }

  lemma InvStep(s: State, l: Label)
    requires Inv(s)
    ensures Inv(Step(s, l))
  {
    hide Inv;
    match l
    case Request(a) => InvDo(s, a);
    case Loop(pick, late) => if LoopEnabled(s) { InvLoopStep(s, pick, late); }
    case FirstStep => InvFirstStep(s);
    case _ => InvSimpleStep(s, l);
  }

  lemma {:induction false} InvRun(s: State, labels: seq<Label>)
    requires Inv(s)
    ensures Inv(Run(s, labels))
    decreases |labels|
  {
    hide Inv;
    if labels == [] {
    } else {
      InvStep(s, labels[0]);
      InvRun(Step(s, labels[0]), labels[1..]);
    }
  }

  lemma InvInitial(now: int)
    ensures Inv(Initial(now))
  {
  }
}
