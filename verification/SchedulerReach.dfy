/** What a loop will still run, and what it never will. */
module SchedulerReach {
  import opened Scheduler
  import opened SchedulerProgress

  /** Handles that end the main loop when it comes to them, and that nobody can cancel. */
  predicate EndsLoop(s: State, h: Handle) {
    h.kind.StopMe? || (h.kind.Task? && !s.nurseryOpen)
  }

  /** The main loop is over before it has come to the c-th handle, or will be. */
  ghost predicate CutOff(s: State, c: nat) {
    || (s.mode.Running? && exists h <- s.channel :: EndsLoop(s, h) && h.id < c)
    || (s.mode.Stopped? && forall h <- s.ran :: h.id < c)
  }

  lemma ChannelIds(s: State, h: Handle)
    requires History(s) && h in s.channel
    ensures Consumed(s) <= h.id < |s.enqueued| && s.enqueued[h.id] == h
  {
    var k :| 0 <= k < |s.channel| && s.channel[k] == h;
    assert h == s.enqueued[Consumed(s) + k];
  }

  /** So none of the handles from the c-th on has run. */
  lemma CutOffHasNotRun(s: State, c: nat)
    requires Inv(s) && CutOff(s, c)
    ensures forall h <- s.ran :: h.id < c
  {
    hide Placed;
    if s.mode.Running? {
      var x :| x in s.channel && EndsLoop(s, x) && x.id < c;
      ChannelIds(s, x);
    }
  }

  lemma HeadEndsLoop(s: State, pick: nat, late: bool)
    requires Inv(s) && s.mode.Running? && s.starting.None? && !FiresNow(s, late)
    requires s.channel != [] && EndsLoop(s, s.channel[0])
    ensures LoopStep(s, pick, late).mode.Stopped?
  {
    hide Inv, RunHandle;
    if s.channel[0].kind.StopMe? { HeadStopExits(s); }
  }

  /** An iteration takes at most one handle from the channel, and leaves the others there. */
  lemma IterateTakesOne(s: State, pick: nat, late: bool)
    ensures var t := Iterate(s, pick, late).0;
            && Consumed(s) <= Consumed(t) <= Consumed(s) + 1
            && t.nurseryOpen == s.nurseryOpen
            && (FiresNow(s, late) ==> forall h <- s.channel :: h in t.channel)
            && (!FiresNow(s, late) && s.channel != [] ==> forall h <- s.channel[1..] :: h in t.channel)
  {
    hide RunHandle;
    if FiresNow(s, late) {
      var i := PickMin(s.heap, pick);
      RunHandleTakesNone(s.(heap := Remove(s.heap, i)), s.heap[i]);
    } else if s.channel != [] {
      RunHandleTakesNone(s.(channel := s.channel[1..]), s.channel[0]);
    }
  }

  lemma RunHandleTakesNone(s: State, h: Handle)
    ensures var t := RunHandle(s, h).0;
            Consumed(t) == Consumed(s) && t.nurseryOpen == s.nurseryOpen && forall x <- s.channel :: x in t.channel
  {
    DoAllGrows(s.(fired := s.fired + [h], firedAt := s.firedAt + [s.now]), h.script);
    DoAllGrows(s.(ran := s.ran + [h]), h.script);
  }

  lemma LoopKeepsCutOff(s: State, pick: nat, late: bool, c: nat)
    requires Inv(s) && s.mode.Running? && s.starting.None? && CutOff(s, c)
    ensures CutOff(LoopStep(s, pick, late), c)
  {
    hide Inv, Iterate, EndsLoop;
    var x :| x in s.channel && EndsLoop(s, x) && x.id < c;
    var t := LoopStep(s, pick, late);
    InvIsHistory(s);
    ChannelIds(s, x);
    InvLoopStep(s, pick, late);
    IterateTakesOne(s, pick, late);
    IterateKeepsMode(s, pick, late);
    if t.mode.Running? {
      if !FiresNow(s, late) && x == s.channel[0] { HeadEndsLoop(s, pick, late); }
      assert x in t.channel;
      assert EndsLoop(t, x) by { SameNursery(s, t, x); }
    } else {
      RanWasTaken(t);
    }
  }

  lemma SameNursery(s: State, t: State, h: Handle)
    requires t.nurseryOpen == s.nurseryOpen
    ensures EndsLoop(t, h) == EndsLoop(s, h)
  {
  }

  lemma InvIsHistory(s: State)
    requires Inv(s)
    ensures History(s)
  {
  }

  lemma RanWasTaken(s: State)
    requires Inv(s)
    ensures forall h <- s.ran :: h.id < Consumed(s)
  {
    hide Placed;
  }

  /** Nothing that happens gets the loop any further, except for the drain. */
  lemma StepKeepsCutOff(s: State, l: Label, c: nat)
    requires Inv(s) && CutOff(s, c) && !l.BeginDrain?
    ensures CutOff(Step(s, l), c)
  {
    hide Inv, LoopStep, Do;
    match l
    case Request(a) => DoGrows(s, a);
    case Loop(pick, late) => if LoopEnabled(s) { LoopKeepsCutOff(s, pick, late, c); }
    case FirstStep =>
      if s.starting.Some? {
        StartsWhileRunning(s);
        InvStep(s, FirstStep);
        CutOffStart(s, c);
      }
    case _ =>
  }

  lemma StartsWhileRunning(s: State)
    requires Inv(s) && s.starting.Some?
    ensures !s.mode.Stopped?
  {
    hide Placed;
  }

  lemma CutOffStart(s: State, c: nat)
    requires CutOff(s, c) && !s.mode.Stopped?
    ensures CutOff(TakeFirstStep(s), c)
  {
    var x :| x in s.channel && EndsLoop(s, x) && x.id < c;
    assert x in TakeFirstStep(s).channel && EndsLoop(TakeFirstStep(s), x);
  }

  // Getting ahead

  /** The handle at the head of the channel is cancelled, if that is possible, and taken;
      if it is a task's, the task takes its first step. */
  function AfterSkip(s: State): State
    requires s.channel != []
  {
    Step(Step(Step(s, Request(CancelHandle(s.channel[0].id))), Loop(0, true)), FirstStep)
  }

  /** A running loop can always get past a handle that does not end it; a callback that
      nobody can cancel has then run. */
  lemma SkipAdvances(s: State)
    requires Inv(s) && s.mode.Running? && s.starting.None? && s.channel != [] && !EndsLoop(s, s.channel[0])
    ensures var t := AfterSkip(s);
            && t.mode.Running? && t.starting.None? && t.nurseryOpen == s.nurseryOpen
            && t.channel == s.channel[1..] && t.enqueued == s.enqueued
            && t.ran == (if s.channel[0].kind.Sync? then s.ran + [s.channel[0]] else s.ran)
  {
    hide Placed;
    var h := s.channel[0];
    HeadIsKnown(s);
    var s1 := Step(s, Request(CancelHandle(h.id)));
    assert h.kind.Sync? ==> h.id !in s1.cancelled && h.script == [];
    assert !h.kind.Sync? ==> h.id in s1.cancelled;
    hide Inv;
    TakeCancelled(s1);
  }

  lemma HeadIsKnown(s: State)
    requires Inv(s) && s.channel != []
    ensures var h := s.channel[0];
            && h.id < |s.enqueued| && s.enqueued[h.id] == h
            && (Private(h.kind) ==> h.id !in s.cancelled && h.script == [])
  {
    hide Placed;
    assert s.channel[0] in s.channel;
    ChannelIds(s, s.channel[0]);
  }

  lemma TakeCancelled(s: State)
    requires s.mode.Running? && s.starting.None? && s.channel != [] && !EndsLoop(s, s.channel[0])
    requires var h := s.channel[0];
             if h.kind.Sync? then h.id !in s.cancelled && h.script == [] else h.id in s.cancelled
    ensures var t := Step(Step(s, Loop(0, true)), FirstStep);
            && t.mode.Running? && t.starting.None? && t.nurseryOpen == s.nurseryOpen
            && t.channel == s.channel[1..] && t.enqueued == s.enqueued
            && t.ran == (if s.channel[0].kind.Sync? then s.ran + [s.channel[0]] else s.ran)
  {
    assert !FiresNow(s, true);
    assert Iterate(s, 0, true) == Consume(s);
  }
}
