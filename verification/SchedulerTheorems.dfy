/** What holds of every run of the scheduler. */
module SchedulerTheorems {
  import opened Options
  import opened Scheduler

  lemma Reachable(now: int, labels: seq<Label>)
    ensures Inv(Run(Initial(now), labels))
  {
    InvInitial(now);
    InvRun(Initial(now), labels);
  }

  // Conservation

  /** In how many places a handle is. */
  function Places(s: State, h: Handle): nat {
    multiset(s.channel)[h] + multiset(s.heap)[h] + multiset(s.ran)[h] + multiset(s.fired)[h]
    + multiset(s.skipped)[h] + multiset(s.swept)[h] + multiset(s.lost)[h] + Pending(s.starting)[h]
  }

  lemma CountById(hs: seq<Handle>, k: nat)
    requires forall i | 0 <= i < |hs| :: hs[i].id == i
    requires k < |hs|
    ensures multiset(hs)[hs[k]] == 1
  {
    assert hs == hs[..k] + [hs[k]] + hs[k + 1..];
    assert hs[k] !in hs[..k] && hs[k] !in hs[k + 1..];
  }

  lemma PlacesCount(s: State, h: Handle)
    requires History(s) && Conserved(s)
    ensures Places(s, h) == multiset(s.enqueued)[h]
  {
    assert s.enqueued == Taken(s) + s.channel;
  }

  /** At every moment of every run, each handle ever queued is in exactly one place: the
      channel, the heap, the start of its task, or the record of what became of it. */
  lemma EachHandleInOnePlace(now: int, labels: seq<Label>)
    ensures var s := Run(Initial(now), labels);
            forall h <- s.enqueued :: Places(s, h) == 1
  {
    Reachable(now, labels);
    var s := Run(Initial(now), labels);
    forall h | h in s.enqueued ensures Places(s, h) == 1 {
      var k :| 0 <= k < |s.enqueued| && s.enqueued[k] == h;
      CountById(s.enqueued, k);
      PlacesCount(s, h);
    }
  }

  /** After the exit, a timer has fired once, has been skipped as cancelled, or has been
      cancelled by the sweep; any other handle has run once or has been skipped, tasks
      that came after the nursery was closed excepted. */
  lemma ExitAccounting(now: int, labels: seq<Label>)
    requires Run(Initial(now), labels).mode.Closed?
    ensures var s := Run(Initial(now), labels);
            forall h <- s.enqueued ::
              (if h.kind.Timer? then multiset(s.fired)[h] + multiset(s.skipped)[h] + multiset(s.swept)[h]
               else multiset(s.ran)[h] + multiset(s.skipped)[h] + multiset(s.lost)[h]) == 1
    ensures var s := Run(Initial(now), labels);
            forall h :: h in s.skipped || h in s.swept ==> h.id in s.cancelled
  {
    Reachable(now, labels);
    EachHandleInOnePlace(now, labels);
    var s := Run(Initial(now), labels);
    hide Placed;
    forall h | h in s.enqueued
      ensures (if h.kind.Timer? then multiset(s.fired)[h] + multiset(s.skipped)[h] + multiset(s.swept)[h]
               else multiset(s.ran)[h] + multiset(s.skipped)[h] + multiset(s.lost)[h]) == 1
    {
      assert Places(s, h) == 1;
      assert h in multiset(s.ran) ==> h in s.ran;
      assert h in multiset(s.lost) ==> h in s.lost;
      assert h in multiset(s.fired) ==> h in s.fired;
      assert h in multiset(s.swept) ==> h in s.swept;
    }
  }

  // Order

  /** Callbacks queued with call_soon run, and tasks take their first step, in the order
      in which they were queued, each at most once; while a task is being started,
      nothing queued after it has been taken. */
  lemma RunInOrder(now: int, labels: seq<Label>)
    ensures var s := Run(Initial(now), labels);
            && (forall i, j | 0 <= i < j < |s.ran| :: s.ran[i].id < s.ran[j].id)
            && (forall h <- s.ran :: h.id < |s.enqueued| && s.enqueued[h.id] == h)
            && (s.starting.Some? ==>
                  && (forall h <- s.ran :: h.id < s.starting.value.id)
                  && (forall h <- s.enqueued :: h.id > s.starting.value.id ==> h in s.channel))
  {
    hide Placed;
    Reachable(now, labels);
    var s := Run(Initial(now), labels);
    forall h | h in s.ran ensures h.id < |s.enqueued| && s.enqueued[h.id] == h {
      PlacedIsTaken(s, h);
    }
    if s.starting.Some? {
      forall h | h in s.enqueued && h.id > s.starting.value.id ensures h in s.channel {
        assert h == s.channel[h.id - Consumed(s)];
      }
    }
  }

  lemma PlacedIsTaken(s: State, h: Handle)
    requires History(s) && Conserved(s)
    requires h in s.ran || h in s.fired || h in s.skipped || h in s.swept || h in s.lost || h in s.heap
    ensures h.id < |s.enqueued| && s.enqueued[h.id] == h && h in s.enqueued && Places(s, h) == 1
  {
    assert h in multiset(Taken(s));
    TakenById(s, h);
    CountById(s.enqueued, h.id);
    PlacesCount(s, h);
  }

  /** Taken from the channel and dealt with, except that a timer may still be in the heap. */
  predicate Settled(s: State, h: Handle) {
    && h !in s.channel && s.starting != Some(h)
    && (h in s.heap || h in s.ran || h in s.fired || h in s.skipped || h in s.swept || h in s.lost)
  }

  /** The barrier that synchronize() relies on: once a callback has run, everything
      queued before it is settled. */
  lemma RunIsABarrier(s: State, h: Handle)
    requires Inv(s) && h in s.ran
    ensures forall g <- s.enqueued :: g.id < h.id ==> Settled(s, g)
  {
    forall g | g in s.enqueued && g.id < h.id ensures Settled(s, g) {
      CountById(s.enqueued, g.id);
      PlacesCount(s, g);
      BarrierPlaces(s, h, g);
    }
  }

  lemma BarrierPlaces(s: State, h: Handle, g: Handle)
    requires Inv(s) && h in s.ran && g in s.enqueued && g.id < h.id && Places(s, g) == 1
    ensures Settled(s, g)
  {
    hide Placed;
    assert g !in s.channel by {
      forall k | 0 <= k < |s.channel| ensures s.channel[k] != g {
        assert s.channel[k] == s.enqueued[Consumed(s) + k];
      }
    }
  }

  /** Everything queued before the stop that took effect had been dealt with when the
      loop stopped: it had run, been skipped, been started, or is a timer in the heap. */
  lemma StopSettlesWhatCameBefore(now: int, labels: seq<Label>)
    requires Run(Initial(now), labels).stopper.Some?
    ensures var s := Run(Initial(now), labels);
            var stop := s.stopper.value;
            && stop in s.ran && stop.kind.StopMe?
            && forall g <- s.enqueued :: g.id < stop.id ==> Settled(s, g)
  {
    Reachable(now, labels);
    RunIsABarrier(Run(Initial(now), labels), Run(Initial(now), labels).stopper.value);
  }

  // Cancellation

  ghost predicate HasRun(s: State, n: nat) {
    (exists h <- s.ran :: h.id == n) || (exists h <- s.fired :: h.id == n)
  }

  lemma RunHandleRuns(s: State, h: Handle, n: nat)
    ensures var t := RunHandle(s, h).0;
            s.cancelled <= t.cancelled && (HasRun(t, n) ==> HasRun(s, n) || (n == h.id && n !in s.cancelled))
  {
    if h.id !in s.cancelled {
      match h.kind
      case StopMe(_) =>
      case Timer(_) => DoAllGrows(s.(fired := s.fired + [h], firedAt := s.firedAt + [s.now]), h.script);
      case _ => DoAllGrows(s.(ran := s.ran + [h]), h.script);
    }
  }

  lemma StepRuns(s: State, l: Label, n: nat)
    ensures s.cancelled <= Step(s, l).cancelled
    ensures HasRun(Step(s, l), n) ==> HasRun(s, n) || n !in s.cancelled
  {
    hide Iterate, Do;
    match l
    case Request(a) => DoGrows(s, a);
    case Loop(pick, late) => if LoopEnabled(s) { IterateRuns(s, pick, late, n); }
    case _ =>
  }

  lemma IterateRuns(s: State, pick: nat, late: bool, n: nat)
    ensures var t := Iterate(s, pick, late).0;
            s.cancelled <= t.cancelled && (HasRun(t, n) ==> HasRun(s, n) || n !in s.cancelled)
  {
    hide RunHandle;
    if FiresNow(s, late) {
      var i := PickMin(s.heap, pick);
      RunHandleRuns(s.(heap := Remove(s.heap, i)), s.heap[i], n);
    } else if s.channel != [] {
      RunHandleRuns(s.(channel := s.channel[1..]), s.channel[0], n);
    }
  }

  /** A handle that is cancelled before it runs never runs. */
  lemma {:induction false} NeverRunsOnceCancelled(s: State, labels: seq<Label>, n: nat)
    requires n in s.cancelled && !HasRun(s, n)
    ensures !HasRun(Run(s, labels), n)
    decreases |labels|
  {
    if labels == [] {
    } else {
      StepRuns(s, labels[0], n);
      NeverRunsOnceCancelled(Step(s, labels[0]), labels[1..], n);
    }
  }

  /** So cancelling a handle that has not run yet, by its number, keeps it from running. */
  lemma CancelPreventsRunning(now: int, before: seq<Label>, n: nat, after: seq<Label>)
    requires Cancellable(Run(Initial(now), before), n) && !HasRun(Run(Initial(now), before), n)
    ensures !HasRun(Run(Do(Run(Initial(now), before), CancelHandle(n)), after), n)
  {
    var s := Run(Initial(now), before);
    NeverRunsOnceCancelled(Do(s, CancelHandle(n)), after, n);
  }

  // Timers

  /** No timer fires before its deadline, and none fires twice. */
  lemma TimersFireInTime(now: int, labels: seq<Label>)
    ensures var s := Run(Initial(now), labels);
            && |s.fired| == |s.firedAt|
            && (forall i | 0 <= i < |s.fired| ::
                  s.fired[i].kind.Timer? && s.fired[i].kind.when <= s.firedAt[i] <= s.now)
            && (forall h <- s.fired :: multiset(s.fired)[h] == 1)
  {
    Reachable(now, labels);
    var s := Run(Initial(now), labels);
    forall h | h in s.fired ensures multiset(s.fired)[h] == 1 {
      assert h in multiset(s.fired);
      PlacedIsTaken(s, h);
    }
  }

  /** Due, and no timer in the heap has an earlier deadline. */
  ghost predicate IsEarliest(s: State, h: Handle) {
    h in s.heap && When(h) <= s.now && forall g <- s.heap :: When(h) <= When(g)
  }

  /** A timer that fires has a minimal deadline among the timers in the heap, and is due. */
  lemma FiresTheEarliest(s: State, l: Label)
    requires Inv(s)
    ensures Step(s, l).fired == s.fired || exists h :: IsEarliest(s, h) && Step(s, l).fired == s.fired + [h]
  {
    hide Inv, IsEarliest, Iterate, LoopStep, Do, TakeFirstStep;
    match l
    case Request(a) => DoGrows(s, a);
    case Loop(pick, late) =>
      if LoopEnabled(s) {
        LoopStepFired(s, pick, late);
        IterateFires(s, pick, late);
      }
    case FirstStep => FirstStepFired(s);
    case _ =>
  }

  lemma FirstStepFired(s: State)
    ensures TakeFirstStep(s).fired == s.fired
  {
  }

  lemma LoopStepFired(s: State, pick: nat, late: bool)
    requires Inv(s) && LoopEnabled(s)
    ensures LoopStep(s, pick, late).fired == Iterate(s, pick, late).0.fired
  {
    hide Inv, Iterate;
    InvIterate(s, pick, late);
  }

  lemma IterateFires(s: State, pick: nat, late: bool)
    ensures var t := Iterate(s, pick, late).0;
            t.fired == s.fired || exists h :: IsEarliest(s, h) && t.fired == s.fired + [h]
  {
    hide RunHandle, IsEarliest;
    if FiresNow(s, late) {
      var i := PickMin(s.heap, pick);
      PickedIsEarliest(s, pick);
      FiredByRunHandle(s.(heap := Remove(s.heap, i)), s.heap[i]);
    } else if s.channel != [] && !s.channel[0].kind.Timer? {
      FiredByRunHandle(s.(channel := s.channel[1..]), s.channel[0]);
    }
  }

  lemma PickedIsEarliest(s: State, pick: nat)
    requires TimerDue(s)
    ensures IsEarliest(s, s.heap[PickMin(s.heap, pick)])
  {
    assert s.heap[FirstMin(s.heap)] in s.heap;
  }

  lemma FiredByRunHandle(s: State, h: Handle)
    ensures var t := RunHandle(s, h).0;
            t.fired == s.fired || (h.kind.Timer? && t.fired == s.fired + [h])
  {
    match h.kind
    case StopMe(_) =>
    case Timer(_) => DoAllGrows(s.(fired := s.fired + [h], firedAt := s.firedAt + [s.now]), h.script);
    case _ => DoAllGrows(s.(ran := s.ran + [h]), h.script);
  }

  lemma {:induction false} QueueOnlyGrows(s: State, labels: seq<Label>)
    ensures s.enqueued <= Run(s, labels).enqueued
    decreases |labels|
  {
    hide Step;
    if labels == [] {
    } else {
      StepGrowsQueue(s, labels[0]);
      QueueOnlyGrows(Step(s, labels[0]), labels[1..]);
    }
  }

  lemma StepGrowsQueue(s: State, l: Label)
    ensures s.enqueued <= Step(s, l).enqueued
  {
    hide Iterate, Do;
    match l
    case Request(a) => DoGrows(s, a);
    case Loop(pick, late) => IterateGrowsQueue(s, pick, late);
    case _ =>
  }

  lemma IterateGrowsQueue(s: State, pick: nat, late: bool)
    ensures s.enqueued <= Iterate(s, pick, late).0.enqueued
  {
    hide RunHandle;
    if FiresNow(s, late) {
      var i := PickMin(s.heap, pick);
      RunHandleGrowsQueue(s.(heap := Remove(s.heap, i)), s.heap[i]);
    } else if s.channel != [] {
      RunHandleGrowsQueue(s.(channel := s.channel[1..]), s.channel[0]);
    }
  }

  lemma RunHandleGrowsQueue(s: State, h: Handle)
    ensures s.enqueued <= RunHandle(s, h).0.enqueued
  {
    DoAllGrows(s.(fired := s.fired + [h], firedAt := s.firedAt + [s.now]), h.script);
    DoAllGrows(s.(ran := s.ran + [h]), h.script);
  }

  /** call_later(delay) never calls back before the delay is over. */
  lemma CallLaterWaits(now: int, before: seq<Label>, delay: nat, script: seq<Action>, after: seq<Label>, i: nat)
    requires !IsClosed(Run(Initial(now), before).mode)
    requires var s := Run(Initial(now), before);
             var t := Run(Do(s, CallLater(delay, script)), after);
             i < |t.fired| && t.fired[i].id == |s.enqueued|
    ensures var s := Run(Initial(now), before);
            var t := Run(Do(s, CallLater(delay, script)), after);
            i < |t.firedAt| && s.now + delay <= t.firedAt[i]
  {
    var s := Run(Initial(now), before);
    var s1 := Do(s, CallLater(delay, script));
    var t := Run(s1, after);
    Reachable(now, before);
    InvDo(s, CallLater(delay, script));
    InvRun(s1, after);
    QueueOnlyGrows(s1, after);
    assert t.fired[i] in t.fired;
    PlacedIsTaken(t, t.fired[i]);
    assert t.enqueued[|s.enqueued|] == s1.enqueued[|s.enqueued|];
  }

  // What callbacks schedule

  predicate Schedules(a: Action) {
    a.CallSoon? || a.CallAt? || a.CallLater? || a.RunTask? || a.Synchronize?
  }

  function Asked(script: seq<Action>): nat {
    if script == [] then 0 else (if Schedules(script[0]) then 1 else 0) + Asked(script[1..])
  }

  function AskedBy(hs: seq<Handle>): nat {
    if hs == [] then 0 else AskedBy(hs[..|hs| - 1]) + Asked(hs[|hs| - 1].script)
  }

  function AskedOutside(labels: seq<Label>): nat {
    if labels == [] then 0
    else (if labels[0].Request? && Schedules(labels[0].a) then 1 else 0) + AskedOutside(labels[1..])
  }

  function Ordinary(hs: seq<Handle>): nat {
    if hs == [] then 0 else Ordinary(hs[..|hs| - 1]) + (if hs[|hs| - 1].kind.StopMe? then 0 else 1)
  }

  /** The calls the loop has accepted or rejected, less those its own callbacks made. */
  function Balance(s: State): int {
    Ordinary(s.enqueued) + s.rejected - AskedBy(s.ran) - AskedBy(s.fired)
  }

  lemma EnqueueBalance(s: State, kind: Kind, script: seq<Action>)
    ensures var t := Enqueue(s, kind, script);
            && Balance(t) == Balance(s) + (if kind.StopMe? && !IsClosed(s.mode) then 0 else 1)
            && t.ran == s.ran && t.fired == s.fired
  {
    hide AskedBy;
    var h := Handle(|s.enqueued|, kind, script);
    assert (s.enqueued + [h])[..|s.enqueued|] == s.enqueued;
  }

  lemma DoBalance(s: State, a: Action)
    ensures Balance(Do(s, a)) == Balance(s) + (if Schedules(a) then 1 else 0)
    ensures Do(s, a).ran == s.ran && Do(s, a).fired == s.fired
  {
    hide Enqueue, AskedBy, Ordinary;
    match a
    case CallSoon(script) => EnqueueBalance(s, Soon, script);
    case CallAt(when, script) => EnqueueBalance(s, Timer(when), script);
    case CallLater(delay, script) => EnqueueBalance(s, Timer(s.now + delay), script);
    case RunTask => EnqueueBalance(s, Task, []);
    case CancelHandle(_) =>
    case Stop => EnqueueBalance(s.(stopWait := true), StopMe(Own), []);
    case StopWith(w) => EnqueueBalance(s, StopMe(Given(w)), []);
    case Synchronize => EnqueueBalance(s, Sync, []);
  }

  lemma {:induction false} DoAllBalance(s: State, script: seq<Action>)
    ensures Balance(DoAll(s, script)) == Balance(s) + Asked(script)
    decreases |script|
  {
    hide Balance, Do;
    if script == [] {
    } else {
      DoBalance(s, script[0]);
      DoAllBalance(Do(s, script[0]), script[1..]);
    }
  }

  lemma RunHandleBalance(s: State, h: Handle)
    requires h.kind.StopMe? || h.kind.Task? ==> h.script == []
    ensures Balance(RunHandle(s, h).0) == Balance(s)
  {
    assert (s.ran + [h])[..|s.ran|] == s.ran && (s.fired + [h])[..|s.fired|] == s.fired;
    DoAllBalance(s.(fired := s.fired + [h], firedAt := s.firedAt + [s.now]), h.script);
    DoAllBalance(s.(ran := s.ran + [h]), h.script);
  }

  ghost predicate PlainScripts(s: State) {
    && (forall h <- s.channel :: h.kind.StopMe? || h.kind.Task? ==> h.script == [])
    && (forall h <- s.heap :: h.kind.Timer?)
    && (s.starting.Some? ==> s.starting.value.script == [])
  }

  lemma DoKeepsPlain(s: State, a: Action)
    requires PlainScripts(s)
    ensures PlainScripts(Do(s, a))
  {
  }

  lemma {:induction false} DoAllKeepsPlain(s: State, script: seq<Action>)
    requires PlainScripts(s)
    ensures PlainScripts(DoAll(s, script))
    decreases |script|
  {
    if script == [] {
    } else {
      DoKeepsPlain(s, script[0]);
      DoAllKeepsPlain(Do(s, script[0]), script[1..]);
    }
  }

  lemma RunHandleKeepsPlain(s: State, h: Handle)
    requires PlainScripts(s)
    ensures PlainScripts(RunHandle(s, h).0)
  {
    hide DoAll;
    DoAllKeepsPlain(s.(fired := s.fired + [h], firedAt := s.firedAt + [s.now]), h.script);
    DoAllKeepsPlain(s.(ran := s.ran + [h]), h.script);
  }

  lemma IterateBalance(s: State, pick: nat, late: bool)
    requires PlainScripts(s)
    ensures var t := Iterate(s, pick, late).0; PlainScripts(t) && Balance(t) == Balance(s)
  {
    hide RunHandle;
    if FiresNow(s, late) {
      var i := PickMin(s.heap, pick);
      RemoveFromBag(s.heap, i);
      RunHandleKeepsPlain(s.(heap := Remove(s.heap, i)), s.heap[i]);
      RunHandleBalance(s.(heap := Remove(s.heap, i)), s.heap[i]);
    } else if s.channel != [] {
      RunHandleKeepsPlain(s.(channel := s.channel[1..]), s.channel[0]);
      RunHandleBalance(s.(channel := s.channel[1..]), s.channel[0]);
    }
  }

  lemma LoopBalance(s: State, pick: nat, late: bool)
    requires PlainScripts(s)
    ensures PlainScripts(LoopStep(s, pick, late)) && Balance(LoopStep(s, pick, late)) == Balance(s)
  {
    hide Iterate, Ordinary, AskedBy;
    IterateBalance(s, pick, late);
  }

  lemma FirstStepBalance(s: State)
    requires PlainScripts(s)
    ensures PlainScripts(TakeFirstStep(s)) && Balance(TakeFirstStep(s)) == Balance(s)
  {
    if s.starting.Some? { assert (s.ran + [s.starting.value])[..|s.ran|] == s.ran; }
  }

  lemma StepBalance(s: State, l: Label)
    requires PlainScripts(s)
    ensures PlainScripts(Step(s, l)) && Balance(Step(s, l)) == Balance(s) + AskedOutside([l])
  {
    hide Do, LoopStep, TakeFirstStep, Ordinary, AskedBy;
    match l
    case Request(a) => DoKeepsPlain(s, a); DoBalance(s, a);
    case Loop(pick, late) => LoopBalance(s, pick, late);
    case FirstStep => FirstStepBalance(s);
    case _ =>
  }

  lemma {:induction false} RunBalance(s: State, labels: seq<Label>)
    requires PlainScripts(s)
    ensures Balance(Run(s, labels)) == Balance(s) + AskedOutside(labels)
    decreases |labels|
  {
    hide Balance, Step;
    if labels == [] {
    } else {
      StepBalance(s, labels[0]);
      RunBalance(Step(s, labels[0]), labels[1..]);
    }
  }

  /** Nothing is scheduled out of nothing, and nothing is forgotten: the handles queued,
      stop_me apart, and the calls that found the loop closed are together as many as the
      scheduling calls made by the callbacks that ran and by code outside. A skipped
      callback has scheduled nothing. */
  lemma EveryCallIsAccountedFor(now: int, labels: seq<Label>)
    ensures var s := Run(Initial(now), labels);
            Ordinary(s.enqueued) + s.rejected == AskedBy(s.ran) + AskedBy(s.fired) + AskedOutside(labels)
  {
    hide Run;
    RunBalance(Initial(now), labels);
  }
}
