/** What holds of every sequence of events of a synchronous loop: the order of what runs,
    the timers, the calls that callbacks make, and the futures. */
module SyncTheorems {
  import opened Options
  import opened SyncProtocol

  // History

  function Others(items: seq<Item>): seq<Item> {
    if items == [] then []
    else
      var last := items[|items| - 1];
      Others(items[..|items| - 1]) + (if last.Timer? then [] else [last])
  }

  function Timers(items: seq<Item>): multiset<Item> {
    if items == [] then multiset{}
    else
      var last := items[|items| - 1];
      Timers(items[..|items| - 1]) + (if last.Timer? then multiset{last} else multiset{})
  }

  /** How much has been taken from the channel. */
  function Taken(s: State): int {
    |s.queued| - |s.channel|
  }

  predicate Numbered(item: Item, n: nat) {
    item.Callback? || item.Timer? ==> item.id == n
  }

  /** The callback or timer that was queued as the n-th item. */
  predicate Is(item: Item, n: nat) {
    (item.Callback? || item.Timer?) && item.id == n
  }

  ghost predicate QueueOk(s: State) {
    && 0 <= Taken(s)
    && s.channel == s.queued[Taken(s)..]
    && (forall n | 0 <= n < |s.queued| :: Numbered(s.queued[n], n))
  }

  /** What was taken has run, in order, or is a timer, which waits in the heap or has
      fired, in time. */
  ghost predicate Hist(s: State) {
    && QueueOk(s)
    && s.ran == Others(s.queued[..Taken(s)])
    && Timers(s.queued[..Taken(s)]) == multiset(s.heap) + multiset(s.fired)
    && |s.fired| == |s.firedAt|
    && (forall i | 0 <= i < |s.fired| :: s.fired[i].Timer? && s.fired[i].when <= s.firedAt[i] <= s.now)
    && (forall x <- s.heap :: x.Timer?)
  }

  /** What actions do to the history: they only queue. */
  ghost predicate Queues(s: State, t: State) {
    && t.now == s.now && t.heap == s.heap && t.ran == s.ran && t.fired == s.fired && t.firedAt == s.firedAt
    && |s.queued| <= |t.queued| && t.queued[..|s.queued|] == s.queued
    && t.channel == s.channel + t.queued[|s.queued|..]
    && (forall n | |s.queued| <= n < |t.queued| :: Numbered(t.queued[n], n))
  }

  lemma PushQueues(s: State, item: Item)
    requires Numbered(item, |s.queued|)
    ensures Queues(s, Push(s, item))
  {
  }

  lemma DoQueues(s: State, a: Action)
    ensures Queues(s, Do(s, a))
  {
    assert s.channel + [] == s.channel;
    match a
    case CallSoon(script) => PushQueues(s, Callback(|s.queued|, script));
    case CallAt(when, script) => PushQueues(s, Timer(|s.queued|, when, script));
    case Stop => PushQueues(s.(stopPending := true), DoStop);
    case Resolve(k, _) => PushQueues(s, IsDone(k, s.run));
  }

  lemma QueuesTransitive(a: State, b: State, c: State)
    requires Queues(a, b) && Queues(b, c)
    ensures Queues(a, c)
  {
    assert c.queued[..|a.queued|] == c.queued[..|b.queued|][..|a.queued|];
    assert c.queued[|a.queued|..] == b.queued[|a.queued|..] + c.queued[|b.queued|..];
    forall n | |a.queued| <= n < |c.queued| ensures Numbered(c.queued[n], n) {
      if n < |b.queued| { assert c.queued[n] == b.queued[n]; }
    }
  }

  lemma {:induction false} DoAllQueues(s: State, script: seq<Action>)
    ensures Queues(s, DoAll(s, script))
    decreases |script|
  {
    if script == [] {
      assert s.channel + [] == s.channel;
    } else {
      var s1 := Do(s, script[0]);
      DoQueues(s, script[0]);
      DoAllQueues(s1, script[1..]);
      hide Do, Queues;
      QueuesTransitive(s, s1, DoAll(s, script));
    }
  }

  lemma QueuesKeepHist(s: State, t: State)
    requires Hist(s) && Queues(s, t)
    ensures Hist(t)
  {
    hide Others, Timers;
    assert Taken(t) == Taken(s);
    assert t.queued[..Taken(t)] == s.queued[..Taken(s)];
    assert t.queued == s.queued + t.queued[|s.queued|..];
    assert t.queued[Taken(t)..] == s.queued[Taken(s)..] + t.queued[|s.queued|..];
    forall n | 0 <= n < |t.queued| ensures Numbered(t.queued[n], n) {
      if n < |s.queued| { assert t.queued[n] == s.queued[n]; }
    }
  }

  lemma CaptureQueues(s: State, k: nat, run: nat)
    ensures Queues(s, Capture(s, k, run))
  {
    assert s.channel + [] == s.channel;
    PushQueues(s, DoStop);
  }

  /** The head of the channel is taken: what is queued stays as it is. */
  lemma TakeHead(s: State)
    requires QueueOk(s) && s.channel != []
    ensures var t := s.(channel := s.channel[1..]);
            var item := s.channel[0];
            && QueueOk(t) && t.queued[..Taken(t)] == s.queued[..Taken(s)] + [item]
            && Others(t.queued[..Taken(t)]) == Others(s.queued[..Taken(s)]) + (if item.Timer? then [] else [item])
            && Timers(t.queued[..Taken(t)])
               == Timers(s.queued[..Taken(s)]) + (if item.Timer? then multiset{item} else multiset{})
  {
    var t, item := s.(channel := s.channel[1..]), s.channel[0];
    assert item == s.queued[Taken(s)];
    assert t.queued[..Taken(t)] == s.queued[..Taken(s)] + [item];
    assert t.queued[..Taken(t)][..Taken(t) - 1] == s.queued[..Taken(s)];
  }

  lemma ConsumeHist(s: State)
    requires Hist(s) && s.channel != []
    ensures var item, s1 := s.channel[0], s.(channel := s.channel[1..]);
            if item.Timer? then Hist(s1.(heap := s1.heap + [item])) else Hist(Ran(s1, item))
  {
    hide Others, Timers, QueueOk;
    TakeHead(s);
    var item, s1 := s.channel[0], s.(channel := s.channel[1..]);
    QueueOnly(s1, Ran(s1, item));
    QueueOnly(s1, s1.(heap := s1.heap + [item]));
  }

  lemma QueueOnly(s: State, t: State)
    requires QueueOk(s) && t.channel == s.channel && t.queued == s.queued
    ensures QueueOk(t) && Taken(t) == Taken(s) && 0 <= Taken(s)
  {
  }

  lemma HeapRemove(heap: seq<Item>, i: nat)
    requires i < |heap|
    ensures multiset(heap) == multiset(heap[..i] + heap[i + 1..]) + multiset{heap[i]}
    ensures forall x <- heap[..i] + heap[i + 1..] :: x in heap
  {
    assert heap == heap[..i] + [heap[i]] + heap[i + 1..];
  }

  lemma FireHist(s: State, i: nat)
    requires Hist(s) && i < |s.heap| && When(s.heap[i]) <= s.now
    ensures Hist(Fired(s.(heap := s.heap[..i] + s.heap[i + 1..]), s.heap[i])) && s.heap[i].Timer?
  {
    hide Others, Timers;
    HeapRemove(s.heap, i);
    var t := Fired(s.(heap := s.heap[..i] + s.heap[i + 1..]), s.heap[i]);
    assert multiset(t.fired) == multiset(s.fired) + multiset{s.heap[i]};
  }

  lemma IterateHist(s: State, pick: nat, late: bool)
    requires Hist(s)
    ensures Hist(Iterate(s, pick, late).0)
  {
    hide Hist, DoAll, Capture;
    if TimerDue(s) && !late {
      var i := PickMin(s.heap, pick);
      PickedIsEarliest(s, pick);
      FireHist(s, i);
      var s1 := Fired(s.(heap := s.heap[..i] + s.heap[i + 1..]), s.heap[i]);
      DoAllQueues(s1, s.heap[i].script);
      QueuesKeepHist(s1, DoAll(s1, s.heap[i].script));
    } else if s.channel != [] {
      ConsumeHist(s);
      var item, s1 := s.channel[0], s.(channel := s.channel[1..]);
      match item
      case Timer(_, _, _) =>
      case Callback(_, script) =>
        DoAllQueues(Ran(s1, item), script);
        QueuesKeepHist(Ran(s1, item), DoAll(Ran(s1, item), script));
      case DoStop => StopIsHistory(Ran(s1, item));
      case IsDone(k, run) =>
        CaptureQueues(Ran(s1, item), k, run);
        QueuesKeepHist(Ran(s1, item), Capture(Ran(s1, item), k, run));
    }
  }

  lemma StopIsHistory(s: State)
    requires Hist(s)
    ensures Hist(s.(stopPending := false))
  {
  }

  lemma StepHist(s: State, e: Event)
    requires Hist(s)
    ensures Hist(Step(s, e))
  {
    match e
    case Act(a) =>
      DoQueues(s, a);
      QueuesKeepHist(s, Do(s, a));
    case Iteration(pick, late) => IterateHist(s, pick, late);
    case BeginRun(k) => BeginHist(s, k);
    case _ =>
  }

  lemma BeginHist(s: State, k: nat)
    requires Hist(s)
    ensures Hist(Step(s, BeginRun(k)))
  {
    hide Others, Timers;
    var s1 := s.(loopRunning := true, run := s.run + 1, waited := Some(k), result := None);
    assert Hist(s1);
    hide Hist;
    PushQueues(s1, IsDone(k, s1.run));
    QueuesKeepHist(s1, Push(s1, IsDone(k, s1.run)));
  }

  lemma {:induction false} RunHist(s: State, events: seq<Event>)
    requires Hist(s)
    ensures Hist(Run(s, events))
    decreases |events|
  {
    hide Hist, Step;
    if events == [] {
    } else {
      StepHist(s, events[0]);
      RunHist(Step(s, events[0]), events[1..]);
    }
  }

  lemma Reachable(now: int, events: seq<Event>)
    ensures Inv(Run(Fresh(now), events)) && Hist(Run(Fresh(now), events))
  {
    OneStopAtMost(Fresh(now), events);
    RunHist(Fresh(now), events);
  }

  // The theorems

  /** Over any number of runs: what is not a timer runs in the order in which it was queued,
      each exactly once when it is taken from the channel; a timer taken is in the heap or
      has fired, once, and never before its deadline. */
  lemma RunsInOrder(now: int, events: seq<Event>)
    ensures var s := Run(Fresh(now), events);
            && 0 <= Taken(s) && s.channel == s.queued[Taken(s)..]
            && s.ran == Others(s.queued[..Taken(s)])
            && Timers(s.queued[..Taken(s)]) == multiset(s.heap) + multiset(s.fired)
            && |s.fired| == |s.firedAt|
            && (forall i | 0 <= i < |s.fired| :: s.fired[i].Timer? && s.fired[i].when <= s.firedAt[i] <= s.now)
  {
    Reachable(now, events);
  }

  lemma PickedIsEarliest(s: State, pick: nat)
    requires TimerDue(s)
    ensures var h := s.heap[PickMin(s.heap, pick)];
            h in s.heap && When(h) <= s.now && forall x <- s.heap :: When(h) <= When(x)
  {
    assert s.heap[FirstMin(s.heap)] in s.heap;
  }

  /** A timer leaves the heap only to fire, and only one that is due and has no earlier
      deadline beside it. */
  lemma FiresTheEarliest(s: State, e: Event)
    requires Hist(s)
    ensures var t := Step(s, e);
            || (t.fired == s.fired && s.heap <= t.heap)
            || exists h <- s.heap ::
                 && t.fired == s.fired + [h] && multiset(s.heap) == multiset(t.heap) + multiset{h}
                 && When(h) <= s.now && forall x <- s.heap :: When(h) <= When(x)
  {
    hide Hist, DoAll, Capture;
    match e
    case Act(a) => DoQueues(s, a);
    case Iteration(pick, late) => if s.loopRunning { IterateFires(s, pick, late); }
    case _ =>
  }

  lemma IterateFires(s: State, pick: nat, late: bool)
    requires Hist(s)
    ensures var t := Iterate(s, pick, late).0;
            || (t.fired == s.fired && s.heap <= t.heap)
            || exists h <- s.heap ::
                 && t.fired == s.fired + [h] && multiset(s.heap) == multiset(t.heap) + multiset{h}
                 && When(h) <= s.now && forall x <- s.heap :: When(h) <= When(x)
  {
    hide DoAll, Capture, IsMin, Hist;
    if TimerDue(s) && !late {
      var i := PickMin(s.heap, pick);
      MinIsInside(s.heap, i);
      TimersOnly(s, i);
      PickedIsEarliest(s, pick);
      HeapRemove(s.heap, i);
      var s1 := Fired(s.(heap := s.heap[..i] + s.heap[i + 1..]), s.heap[i]);
      DoAllQueues(s1, s.heap[i].script);
    } else if s.channel != [] {
      var item, s1 := s.channel[0], s.(channel := s.channel[1..]);
      match item
      case Callback(_, script) => DoAllQueues(Ran(s1, item), script);
      case IsDone(k, run) => CaptureQueues(Ran(s1, item), k, run);
      case _ =>
    }
  }

  lemma MinIsInside(heap: seq<Item>, i: nat)
    requires IsMin(heap, i)
    ensures i < |heap|
  {
  }

  lemma TimersOnly(s: State, i: nat)
    requires Hist(s) && i < |s.heap|
    ensures s.heap[i].Timer?
  {
  }

  lemma {:induction false} QueueOnlyGrows(s: State, events: seq<Event>)
    requires Hist(s)
    ensures |s.queued| <= |Run(s, events).queued| && Run(s, events).queued[..|s.queued|] == s.queued
    decreases |events|
  {
    hide Hist, Step;
    if events == [] {
    } else {
      var t := Step(s, events[0]);
      StepHist(s, events[0]);
      StepGrowsQueue(s, events[0]);
      QueueOnlyGrows(t, events[1..]);
      assert Run(t, events[1..]).queued[..|s.queued|] == Run(t, events[1..]).queued[..|t.queued|][..|s.queued|];
    }
  }

  lemma StepGrowsQueue(s: State, e: Event)
    requires Hist(s)
    ensures |s.queued| <= |Step(s, e).queued| && Step(s, e).queued[..|s.queued|] == s.queued
  {
    hide DoAll, Capture, Queues;
    match e
    case Act(a) =>
      DoQueues(s, a);
      QueuesGrow(s, Do(s, a));
    case Iteration(pick, late) => if s.loopRunning { IterateGrowsQueue(s, pick, late); }
    case _ =>
  }

  lemma QueuesGrow(s: State, t: State)
    requires Queues(s, t)
    ensures |s.queued| <= |t.queued| && t.queued[..|s.queued|] == s.queued
  {
  }

  lemma IterateGrowsQueue(s: State, pick: nat, late: bool)
    requires Hist(s)
    ensures var t := Iterate(s, pick, late).0; |s.queued| <= |t.queued| && t.queued[..|s.queued|] == s.queued
  {
    hide DoAll, Capture;
    if TimerDue(s) && !late {
      var i := PickMin(s.heap, pick);
      assert s.heap[i].Timer?;
      DoAllQueues(Fired(s.(heap := s.heap[..i] + s.heap[i + 1..]), s.heap[i]), s.heap[i].script);
    } else if s.channel != [] {
      var item, s1 := s.channel[0], s.(channel := s.channel[1..]);
      match item
      case Callback(_, script) => DoAllQueues(Ran(s1, item), script);
      case IsDone(k, run) => CaptureQueues(Ran(s1, item), k, run);
      case _ =>
    }
  }

  lemma OfQueue(s: State, items: seq<Item>, x: Item)
    requires QueueOk(s) && items <= s.queued && (x in Others(items) || x in Timers(items))
    ensures x in items && (x.Callback? || x.Timer? ==> x.id < |s.queued| && s.queued[x.id] == x)
    decreases |items|
  {
    var last := items[|items| - 1];
    if x != last { OfQueue(s, items[..|items| - 1], x); }
  }

  /** call_at(when) calls the very callback it was given, never before the deadline, and a
      timer that is still there is waiting for that deadline. */
  lemma CallAtWaits(now: int, before: seq<Event>, when: int, script: seq<Action>, after: seq<Event>)
    ensures var s := Run(Fresh(now), before);
            var t := Run(Do(s, CallAt(when, script)), after);
            && |t.fired| == |t.firedAt|
            && (forall i | 0 <= i < |t.fired| && Is(t.fired[i], |s.queued|) ::
                  t.fired[i].script == script && when <= t.firedAt[i])
            && (forall x <- t.heap :: Is(x, |s.queued|) ==> x.script == script && When(x) == when)
            && (forall x <- t.ran :: !Is(x, |s.queued|))
  {
    hide Hist, Run, Others, Timers;
    var s := Run(Fresh(now), before);
    QueuedForGood(now, before, CallAt(when, script), after);
    var t := Run(Do(s, CallAt(when, script)), after);
    QueuedIs(t, |s.queued|);
    TimersInTime(t);
  }

  lemma TimersInTime(s: State)
    requires Hist(s)
    ensures |s.fired| == |s.firedAt|
    ensures forall i | 0 <= i < |s.fired| :: s.fired[i].Timer? && s.fired[i].when <= s.firedAt[i]
    ensures forall x <- s.heap :: x.Timer?
  {
  }

  /** What an action queues stays queued under its number. */
  lemma QueuedForGood(now: int, before: seq<Event>, a: Action, after: seq<Event>)
    ensures var s := Run(Fresh(now), before);
            var s1, t := Do(s, a), Run(Do(s, a), after);
            && Hist(s) && Hist(t) && |s.queued| <= |s1.queued| <= |t.queued|
            && t.queued[..|s1.queued|] == s1.queued
  {
    hide Hist, Others, Timers;
    var s := Run(Fresh(now), before);
    Reachable(now, before);
    StepHist(s, Act(a));
    RunHist(Do(s, a), after);
    QueueOnlyGrows(Do(s, a), after);
    DoQueues(s, a);
  }

  /** Whatever carries a number is what was queued under it. */
  lemma QueuedIs(t: State, n: nat)
    requires Hist(t) && n < |t.queued|
    ensures forall i | 0 <= i < |t.fired| && Is(t.fired[i], n) :: t.fired[i] == t.queued[n]
    ensures forall x <- t.heap :: Is(x, n) ==> x == t.queued[n]
    ensures forall x <- t.ran :: !x.Timer? && (Is(x, n) ==> x == t.queued[n])
  {
    hide Others, Timers;
    var taken := t.queued[..Taken(t)];
    forall i | 0 <= i < |t.fired| && Is(t.fired[i], n) ensures t.fired[i] == t.queued[n] {
      assert t.fired[i] in Timers(taken);
      OfQueue(t, taken, t.fired[i]);
    }
    forall x | x in t.heap && Is(x, n) ensures x == t.queued[n] {
      assert x in Timers(taken);
      OfQueue(t, taken, x);
    }
    forall x | x in t.ran ensures !x.Timer? && (Is(x, n) ==> x == t.queued[n]) {
      NotTimers(taken, x);
      if Is(x, n) { OfQueue(t, taken, x); }
    }
  }

  lemma NotTimers(items: seq<Item>, x: Item)
    requires x in Others(items)
    ensures !x.Timer?
  {
  }

  /** call_soon runs the very callback it was given as soon as it is taken from the channel. */
  lemma CallSoonRuns(now: int, before: seq<Event>, script: seq<Action>, after: seq<Event>)
    ensures var s := Run(Fresh(now), before);
            var t := Run(Do(s, CallSoon(script)), after);
            && (Callback(|s.queued|, script) in t.ran <==> |s.queued| < Taken(t))
            && (forall x <- t.ran :: Is(x, |s.queued|) ==> x.script == script)
            && (forall x <- t.fired + t.heap :: !Is(x, |s.queued|))
  {
    hide Hist, Run, Others, Timers;
    var s := Run(Fresh(now), before);
    QueuedForGood(now, before, CallSoon(script), after);
    var t := Run(Do(s, CallSoon(script)), after);
    QueuedIs(t, |s.queued|);
    RanIfTaken(t, |s.queued|);
    TimersInTime(t);
    forall x | x in t.fired + t.heap ensures !Is(x, |s.queued|) {
      if x in t.fired { var i :| 0 <= i < |t.fired| && t.fired[i] == x; }
    }
  }

  lemma RanIfTaken(t: State, n: nat)
    requires Hist(t) && n < |t.queued| && t.queued[n].Callback?
    ensures t.queued[n] in t.ran <==> n < Taken(t)
  {
    var taken := t.queued[..Taken(t)];
    if n < Taken(t) {
      assert taken[n] == t.queued[n];
      InOthers(taken, n);
    } else if t.queued[n] in t.ran {
      hide Others, Timers;
      OfQueue(t, taken, t.queued[n]);
      assert false;
    }
  }

  lemma InOthers(items: seq<Item>, n: nat)
    requires n < |items| && !items[n].Timer?
    ensures items[n] in Others(items)
  {
    if n < |items| - 1 { InOthers(items[..|items| - 1], n); }
  }

  /** A callback, or a timer, that runs makes the calls it consists of, in order, and
      nothing else happens with them. */
  lemma RunsItsScript(s: State, pick: nat, late: bool)
    requires Hist(s)
    ensures var t := Iterate(s, pick, late).0;
            && (|t.ran| > |s.ran| ==> s.channel != [])
            && (|t.ran| > |s.ran| && t.ran[|s.ran|].Callback? ==>
                  t == DoAll(s.(channel := s.channel[1..], ran := s.ran + [t.ran[|s.ran|]]), t.ran[|s.ran|].script))
            && (|t.fired| > |s.fired| && t.fired[|s.fired|].Timer? ==>
                  t == DoAll(s.(heap := t.heap, fired := s.fired + [t.fired[|s.fired|]],
                                firedAt := s.firedAt + [s.now]), t.fired[|s.fired|].script))
  {
    hide DoAll, Capture;
    if TimerDue(s) && !late {
      var i := PickMin(s.heap, pick);
      assert s.heap[i].Timer?;
      DoAllQueues(Fired(s.(heap := s.heap[..i] + s.heap[i + 1..]), s.heap[i]), s.heap[i].script);
    } else if s.channel != [] {
      var item, s1 := s.channel[0], s.(channel := s.channel[1..]);
      match item
      case Callback(_, script) => DoAllQueues(Ran(s1, item), script);
      case IsDone(k, run) => CaptureQueues(Ran(s1, item), k, run);
      case _ =>
    }
  }

  lemma {:induction false} DoAllAppend(s: State, a: seq<Action>, b: seq<Action>)
    ensures DoAll(s, a + b) == DoAll(DoAll(s, a), b)
    ensures a != [] ==> DoAll(s, [a[0]]) == Do(s, a[0])
    decreases |a|
  {
    hide Do;
    if a == [] {
      assert a + b == b;
    } else {
      assert [a[0]][1..] == [];
      assert (a + b)[1..] == a[1..] + b;
      DoAllAppend(Do(s, a[0]), a[1..], b);
    }
  }

  // Futures and stops

  /** Resolving a future that is not done makes it done with that outcome, and tells the
      run that waits for it, if any; nothing else makes a future done, and no outcome is
      ever replaced. */
  lemma ResolveOnce(s: State, a: Action)
    ensures var t := Do(s, a);
            && (forall k :: k in t.done <==> k in s.done || (a.Resolve? && a.future == k))
            && (forall k <- s.done :: t.done[k] == s.done[k])
            && (a.Resolve? && a.future !in s.done ==> t.done[a.future] == a.o)
            && (a.Resolve? ==> t.channel == s.channel + (if TellsRun(s, a) then [IsDone(a.future, s.run)] else []))
  {
    DoQueues(s, a);
  }

  /** The current run waits for the future, which has not been done so far. */
  predicate TellsRun(s: State, a: Action) {
    a.Resolve? && a.future !in s.done && s.waited == Some(a.future)
  }

  /** stop() asks for the end of a run, and is in vain when there is none. */
  lemma StopAsks(s: State)
    requires Inv(s)
    ensures var t := Do(s, Stop);
            && (s.loopRunning ==> t.stopPending && Stops(t.channel) == 1)
            && (!s.loopRunning ==> t == s)
  {
    StopsAppend(s.channel, [DoStop]);
  }

  /** A do_stop ends the main loop and settles the stop, and does nothing else. */
  lemma DoStopStops(s: State, pick: nat, late: bool)
    requires s.channel != [] && s.channel[0].DoStop? && (late || !TimerDue(s))
    ensures Iterate(s, pick, late)
            == (s.(channel := s.channel[1..], stopPending := false, ran := s.ran + [DoStop]), ExitRaised)
  {
  }

  /** An is_done captures the outcome for its own run and stops the loop, unless the future
      has ended by an exit; that of an earlier run captures nothing. */
  lemma IsDoneCaptures(s: State, pick: nat, late: bool)
    requires Inv(s) && s.channel != [] && s.channel[0].IsDone? && (late || !TimerDue(s))
    ensures var (t, r) := Iterate(s, pick, late);
            var k := s.channel[0].future;
            var taken := s.(channel := s.channel[1..], ran := s.ran + [s.channel[0]]);
            var captured := if s.waited.Some? && s.channel[0].run == s.run
                            then taken.(result := Some(s.done[k])) else taken;
            && r == Continue
            && k in s.done
            && t == if s.done[k].Exits? then captured else Do(captured, Stop)
  {
    assert s.channel[0] in s.channel;
  }

  /** A run begins with its future only, and hears of it at once if it is done; it can begin
      whenever no other is going on, and its end leaves the loop as it is, as does the passing of time. */
  lemma RunsBegin(s: State, k: nat)
    ensures var t := Step(s, BeginRun(k));
            if s.loopRunning then t == s
            else
              && t.loopRunning && t.waited == Some(k) && t.result.None? && t.run == s.run + 1
              && t.channel == s.channel + (if k in s.done then [IsDone(k, t.run)] else [])
              && t.heap == s.heap && t.stopPending == s.stopPending && t.done == s.done && t.now == s.now
    ensures var t := Step(s, BeginForever);
            t == if s.loopRunning then s
                 else s.(loopRunning := true, run := s.run + 1, waited := None, result := None)
    ensures Step(s, EndRun) == s.(loopRunning := false, waited := None, result := None)
    ensures forall d: nat :: Step(s, Later(d)) == s.(now := s.now + d)
  {
  }

  function Ticks(events: seq<Event>): nat {
    if events == [] then 0 else (if events[0].Later? then events[0].elapsed else 0) + Ticks(events[1..])
  }

  lemma {:induction false} ClockIsHeard(s: State, events: seq<Event>)
    ensures Run(s, events).now == s.now + Ticks(events)
    decreases |events|
  {
    hide Iterate, Do;
    if events == [] {
    } else {
      match events[0]
      case Act(a) => DoSteady(s, a);
      case Iteration(pick, late) => IterateKeepsClock(s, pick, late);
      case _ =>
    }
    if events != [] { ClockIsHeard(Step(s, events[0]), events[1..]); }
  }

  lemma IterateKeepsClock(s: State, pick: nat, late: bool)
    ensures Iterate(s, pick, late).0.now == s.now
  {
    hide DoAll;
    if TimerDue(s) && !late {
      var i := PickMin(s.heap, pick);
      var h, s1 := s.heap[i], s.(heap := s.heap[..i] + s.heap[i + 1..]);
      match h
      case Callback(_, script) => DoAllQueues(Ran(s1, h), script);
      case Timer(_, _, script) => DoAllQueues(Fired(s1, h), script);
      case _ =>
    } else if s.channel != [] {
      var item, s1 := s.channel[0], s.(channel := s.channel[1..]);
      match item
      case Callback(_, script) => DoAllQueues(Ran(s1, item), script);
      case _ =>
    }
  }

  /** A running loop always makes an iteration, which gets further if there is anything to
      do; one that is not running makes none. */
  lemma IterationsHappen(s: State, pick: nat, late: bool)
    requires Inv(s)
    ensures var t := Step(s, Iteration(pick, late));
            && (!s.loopRunning ==> t == s)
            && (s.loopRunning && (s.channel != [] || (!late && exists x <- s.heap :: When(x) <= s.now)) ==>
                  Work(t) < Work(s))
  {
    hide Inv, Work;
    IterateWork(s, pick, late);
    NoneDue(s);
    InvIterate(s, pick, late);
    if Iterate(s, pick, late).1 == NothingToDo { NothingMeansNothing(s, pick, late); }
  }

  lemma NothingMeansNothing(s: State, pick: nat, late: bool)
    requires Iterate(s, pick, late).1 == NothingToDo
    ensures s.channel == [] && (late || !TimerDue(s))
  {
  }

  /** While the main loop is suspended, other code makes its calls and time passes. */
  lemma SuspendIsHeard(s: State, round: Round)
    ensures Suspend(s, round).now == s.now + round.elapsed
    ensures Suspend(s, round).(now := s.now) == DoAll(s, round.meanwhile)
  {
    DoAllQueues(s, round.meanwhile);
  }
}
