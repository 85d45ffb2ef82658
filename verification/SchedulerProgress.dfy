/** Stopping and draining: both come to an end, and where they can fail to. */
module SchedulerProgress {
  import opened Options
  import opened Scheduler

  /** The iterations the loop makes along a run; it makes none while it waits for a
      task's first step. */
  function Iterations(s: State, labels: seq<Label>): nat
    decreases |labels|
  {
    if labels == [] then 0
    else (if labels[0].Loop? && LoopEnabled(s) then 1 else 0) + Iterations(Step(s, labels[0]), labels[1..])
  }

  // Stopping

  /** Iterations until the first stop_me in the channel has run. A timer counts twice, for
      it goes through the heap; what is queued behind the stop_me does not count. */
  function ChannelRank(channel: seq<Handle>): nat {
    if channel == [] then 0
    else if channel[0].kind.StopMe? then 1
    else (if channel[0].kind.Timer? then 2 else 1) + ChannelRank(channel[1..])
  }

  function StopRank(s: State): nat {
    |s.heap| + ChannelRank(s.channel)
  }

  predicate AnyStop(channel: seq<Handle>) {
    exists h <- channel :: h.kind.StopMe?
  }

  lemma {:induction false} RankIgnoresLater(channel: seq<Handle>, more: seq<Handle>)
    requires AnyStop(channel)
    ensures AnyStop(channel + more) && ChannelRank(channel + more) == ChannelRank(channel)
  {
    var h :| h in channel && h.kind.StopMe?;
    assert h in channel + more;
    if !channel[0].kind.StopMe? {
      RankIgnoresLater(channel[1..], more);
      assert (channel + more)[1..] == channel[1..] + more;
    }
  }

  /** `t` is still running towards the stop_me, no further from it than `bound`. */
  ghost predicate Approaches(t: State, bound: int) {
    t.mode.Running? ==> AnyStop(t.channel) && StopRank(t) <= bound
  }

  lemma GrowthKeepsRank(s: State, t: State)
    requires Grows(s, t) && AnyStop(s.channel)
    ensures AnyStop(t.channel) && StopRank(t) == StopRank(s)
  {
    var more :| t.enqueued == s.enqueued + more && t.channel == s.channel + more;
    RankIgnoresLater(s.channel, more);
  }

  lemma RunHandleApproaches(s: State, h: Handle)
    requires AnyStop(s.channel)
    ensures var (t, r) := RunHandle(s, h);
            AnyStop(t.channel) && StopRank(t) == StopRank(s) && (r == Continue || r == ExitRaised)
  {
    if h.id !in s.cancelled {
      match h.kind
      case StopMe(_) =>
      case Timer(_) =>
        var s1 := s.(fired := s.fired + [h], firedAt := s.firedAt + [s.now]);
        DoAllGrows(s1, h.script);
        GrowthKeepsRank(s1, DoAll(s1, h.script));
      case _ =>
        var s1 := s.(ran := s.ran + [h]);
        DoAllGrows(s1, h.script);
        GrowthKeepsRank(s1, DoAll(s1, h.script));
    }
  }

  lemma IterationApproaches(s: State, pick: nat, late: bool)
    requires Inv(s) && s.mode.Running? && s.starting.None? && AnyStop(s.channel)
    ensures Approaches(LoopStep(s, pick, late), StopRank(s) - 1)
  {
    hide Inv, RunHandle;
    if FiresNow(s, late) {
      var i := PickMin(s.heap, pick);
      RunHandleApproaches(s.(heap := Remove(s.heap, i)), s.heap[i]);
    } else {
      var h, s1 := s.channel[0], s.(channel := s.channel[1..]);
      if h.kind.StopMe? {
        HeadStopExits(s);
      } else {
        var x :| x in s.channel && x.kind.StopMe?;
        assert x in s.channel[1..];
        RunHandleApproaches(s1, h);
      }
    }
  }

  lemma HeadStopExits(s: State)
    requires Inv(s) && s.starting.None? && s.channel != [] && s.channel[0].kind.StopMe?
    ensures RunHandle(s.(channel := s.channel[1..]), s.channel[0]).1 == ExitRaised
  {
    hide Placed;
    assert s.channel[0] == s.enqueued[Consumed(s)];
  }

  /** Once a stop_me is in the channel every further label keeps the loop as near to it
      as it was, and every iteration brings it nearer, whatever else is queued. */
  lemma StepApproaches(s: State, l: Label)
    requires Inv(s) && s.mode.Running? && AnyStop(s.channel)
    ensures Approaches(Step(s, l), if l.Loop? && LoopEnabled(s) then StopRank(s) - 1 else StopRank(s))
  {
    hide Inv, LoopStep, Do;
    match l
    case Request(a) =>
      DoGrows(s, a);
      GrowthKeepsRank(s, Do(s, a));
    case Loop(pick, late) => if s.starting.None? { IterationApproaches(s, pick, late); }
    case _ =>
  }

  predicate Over(m: Mode) {
    m.Stopped? || m.Draining? || m.Failed? || m.Closed?
  }

  lemma StepNeverRestarts(s: State, l: Label)
    requires Over(s.mode)
    ensures Over(Step(s, l).mode)
    ensures s.mode.Failed? || s.mode.Closed? ==> Step(s, l).mode == s.mode
    ensures s.mode.Draining? ==> !Step(s, l).mode.Stopped?
  {
    match l
    case Request(a) => DoGrows(s, a);
    case Loop(pick, late) =>
      if LoopEnabled(s) {
        IterateKeepsMode(s, pick, late);
      }
    case _ =>
  }

  lemma IterateKeepsMode(s: State, pick: nat, late: bool)
    ensures Iterate(s, pick, late).0.mode == s.mode
  {
    if FiresNow(s, late) {
      var i := PickMin(s.heap, pick);
      RunHandleKeepsMode(s.(heap := Remove(s.heap, i)), s.heap[i]);
    } else if s.channel != [] {
      RunHandleKeepsMode(s.(channel := s.channel[1..]), s.channel[0]);
    }
  }

  lemma RunHandleKeepsMode(s: State, h: Handle)
    ensures RunHandle(s, h).0.mode == s.mode
  {
    DoAllGrows(s.(fired := s.fired + [h], firedAt := s.firedAt + [s.now]), h.script);
    DoAllGrows(s.(ran := s.ran + [h]), h.script);
  }

  lemma {:induction false} RunNeverRestarts(s: State, labels: seq<Label>)
    requires Over(s.mode)
    ensures Over(Run(s, labels).mode)
    decreases |labels|
  {
    if labels == [] {
    } else {
      StepNeverRestarts(s, labels[0]);
      RunNeverRestarts(Step(s, labels[0]), labels[1..]);
    }
  }

  /** With a stop_me in the channel the main loop stops after at most StopRank iterations,
      whatever the callbacks and the rest of the program do meanwhile. */
  lemma {:induction false} StopComes(s: State, labels: seq<Label>)
    requires Inv(s) && s.mode.Running? && AnyStop(s.channel)
    ensures Run(s, labels).mode.Running? ==> Iterations(s, labels) < StopRank(s)
    ensures !Run(s, labels).mode.Running? ==> Over(Run(s, labels).mode)
    decreases |labels|
  {
    hide Inv, Step, StopRank;
    if labels == [] {
      assert StopRank(s) > 0 by { RankPositive(s); }
    } else {
      var t := Step(s, labels[0]);
      InvStep(s, labels[0]);
      StepApproaches(s, labels[0]);
      StepLeavesRunning(s, labels[0]);
      if t.mode.Running? {
        StopComes(t, labels[1..]);
      } else {
        RunNeverRestarts(t, labels[1..]);
      }
    }
  }

  /** `n` turns of a loop that nobody disturbs: a task being started takes its first step,
      then the loop makes an iteration. */
  function Turns(n: nat): (labels: seq<Label>)
    ensures forall l <- labels :: l == FirstStep || l == Loop(0, false)
  {
    if n == 0 then [] else [FirstStep, Loop(0, false)] + Turns(n - 1)
  }

  lemma {:induction false} TurnsIterate(s: State, n: nat)
    requires s.mode.Running? || Over(s.mode)
    ensures Run(s, Turns(n)).mode.Running? ==> Iterations(s, Turns(n)) == n
    decreases n
  {
    hide LoopStep, TakeFirstStep;
    if n > 0 {
      var s1 := Step(s, FirstStep);
      var s2 := Step(s1, Loop(0, false));
      var rest := Turns(n - 1);
      var tail := Turns(n)[1..];
      assert tail == [Loop(0, false)] + rest && tail[1..] == rest;
      assert Iterations(s, Turns(n)) == Iterations(s1, tail) && Run(s, Turns(n)) == Run(s1, tail);
      FirstStepIsOver(s);
      if s.mode.Running? { StepLeavesRunning(s1, Loop(0, false)); }
      else { StepNeverRestarts(s1, Loop(0, false)); }
      TurnsIterate(s2, n - 1);
      if Over(s2.mode) { RunNeverRestarts(s2, rest); }
    }
  }

  lemma FirstStepIsOver(s: State)
    ensures TakeFirstStep(s).starting.None? && TakeFirstStep(s).mode == s.mode
  {
  }

  /** The wait for a first step never holds up a stop: from every state with a stop_me in
      the channel, StopRank turns of first steps and iterations, and nothing else, stop
      the loop. */
  lemma StopIsReachable(s: State)
    requires Inv(s) && s.mode.Running? && AnyStop(s.channel)
    ensures Over(Run(s, Turns(StopRank(s))).mode)
  {
    hide Inv, StopRank;
    StopComes(s, Turns(StopRank(s)));
    TurnsIterate(s, StopRank(s));
  }

  lemma RankPositive(s: State)
    requires AnyStop(s.channel)
    ensures StopRank(s) > 0
  {
  }

  lemma StepLeavesRunning(s: State, l: Label)
    requires s.mode.Running?
    ensures Step(s, l).mode.Running? || Step(s, l).mode.Stopped?
  {
    match l
    case Request(a) => DoGrows(s, a);
    case Loop(pick, late) => if LoopEnabled(s) { IterateKeepsMode(s, pick, late); }
    case _ =>
  }

  /** Whoever has called stop() on a running loop has a stop_me in the channel. */
  ghost predicate StopPending(s: State) {
    && (s.mode.Running? && s.stopWait ==> HasStop(s.channel, Own))
    && (s.mode.NotStarted? ==> !s.stopWait)
  }

  lemma StopPendingGrows(s: State, t: State)
    requires StopPending(s) && Grows(s, t) && (s.stopWait == t.stopWait)
    ensures StopPending(t)
  {
    var more :| t.enqueued == s.enqueued + more && t.channel == s.channel + more;
    if s.mode.Running? && s.stopWait {
      var h :| h in s.channel && h.kind == StopMe(Own);
      assert h in t.channel;
    }
  }

  lemma DoKeepsStopPending(s: State, a: Action)
    requires StopPending(s) && (s.mode.NotStarted? ==> !a.Stop?)
    ensures StopPending(Do(s, a))
  {
    DoGrows(s, a);
    if a.Stop? && !s.stopWait {
      if s.mode.Running? {
        assert Do(s, a).channel[|s.channel|].kind == StopMe(Own);
      }
    } else {
      assert Do(s, a).stopWait == s.stopWait;
      StopPendingGrows(s, Do(s, a));
    }
  }

  lemma {:induction false} DoAllKeepsStopPending(s: State, script: seq<Action>)
    requires StopPending(s) && !s.mode.NotStarted?
    ensures StopPending(DoAll(s, script))
    decreases |script|
  {
    if script == [] {
    } else {
      DoKeepsStopPending(s, script[0]);
      DoGrows(s, script[0]);
      DoAllKeepsStopPending(Do(s, script[0]), script[1..]);
    }
  }

  lemma RunHandleKeepsStopPending(s: State, h: Handle)
    requires StopPending(s) && !s.mode.NotStarted?
    ensures StopPending(RunHandle(s, h).0)
  {
    hide DoAll;
    DoAllKeepsStopPending(s.(fired := s.fired + [h], firedAt := s.firedAt + [s.now]), h.script);
    DoAllKeepsStopPending(s.(ran := s.ran + [h]), h.script);
  }

  lemma LoopKeepsStopPending(s: State, pick: nat, late: bool)
    requires Inv(s) && LoopEnabled(s) && StopPending(s)
    ensures StopPending(LoopStep(s, pick, late))
  {
    hide Inv, RunHandle;
    if s.mode.Draining? {
      IterateKeepsMode(s, pick, late);
    } else if FiresNow(s, late) {
      var i := PickMin(s.heap, pick);
      RunHandleKeepsMode(s.(heap := Remove(s.heap, i)), s.heap[i]);
      RunHandleKeepsStopPending(s.(heap := Remove(s.heap, i)), s.heap[i]);
    } else if s.channel != [] {
      var h, s1 := s.channel[0], s.(channel := s.channel[1..]);
      RunHandleKeepsMode(s1, h);
      if h.kind.StopMe? {
        HeadStopExits(s);
      } else {
        assert StopPending(s1) by {
          if s.stopWait {
            var x :| x in s.channel && x.kind == StopMe(Own);
            assert x in s1.channel;
          }
        }
        RunHandleKeepsStopPending(s1, h);
      }
    }
  }

  lemma StepKeepsStopPending(s: State, l: Label)
    requires Inv(s) && StopPending(s) && (s.mode.NotStarted? ==> l != Request(Stop))
    ensures StopPending(Step(s, l))
  {
    hide Inv, LoopStep, Do;
    match l
    case Request(a) => DoKeepsStopPending(s, a);
    case Loop(pick, late) => if LoopEnabled(s) { LoopKeepsStopPending(s, pick, late); }
    case _ =>
  }

  /** stop() has not been called before the main loop started. */
  predicate StartedUnstopped(s: State, labels: seq<Label>)
    decreases |labels|
  {
    labels == []
    || ((s.mode.NotStarted? ==> labels[0] != Request(Stop)) && StartedUnstopped(Step(s, labels[0]), labels[1..]))
  }

  lemma {:induction false} RunKeepsStopPending(s: State, labels: seq<Label>)
    requires Inv(s) && StopPending(s) && StartedUnstopped(s, labels)
    ensures StopPending(Run(s, labels))
    decreases |labels|
  {
    if labels == [] {
    } else {
      InvStep(s, labels[0]);
      StepKeepsStopPending(s, labels[0]);
      RunKeepsStopPending(Step(s, labels[0]), labels[1..]);
    }
  }

  lemma StopIsPosted(s: State)
    requires Inv(s) && StopPending(s) && s.mode.Running?
    ensures var t := Do(s, Stop); Inv(t) && t.mode.Running? && HasStop(t.channel, Own) && AnyStop(t.channel)
  {
    hide Inv;
    InvDo(s, Stop);
    DoKeepsStopPending(s, Stop);
    DoGrows(s, Stop);
  }

  /** Exit is free of deadlocks. In a run in which nobody called stop() too early, and
      however often it was called since, calling it (again) on the running loop makes
      the loop stop within StopRank iterations. */
  lemma ExitNeverDeadlocks(now: int, before: seq<Label>, after: seq<Label>)
    requires StartedUnstopped(Initial(now), before)
    requires Run(Initial(now), before).mode.Running?
    ensures var s := Do(Run(Initial(now), before), Stop);
            && HasStop(s.channel, Own)
            && (Iterations(s, after) >= StopRank(s) ==> Over(Run(s, after).mode))
  {
    InvInitial(now);
    InvRun(Initial(now), before);
    RunKeepsStopPending(Initial(now), before);
    StopIsPosted(Run(Initial(now), before));
    StopComes(Do(Run(Initial(now), before), Stop), after);
  }

  // Called too early, stop() disarms itself: `_stop_wait` is set and no stop_me is queued

  /** The event stop() has made of its own belongs to no stop_me, and never will. */
  ghost predicate Orphaned(s: State) {
    s.stopWait && forall h <- s.enqueued :: h.kind != StopMe(Own)
  }

  /** Before the main loop starts, no stop_me is queued at all. */
  ghost predicate NoStopYet(s: State) {
    s.mode.NotStarted? ==> forall h <- s.enqueued :: !h.kind.StopMe?
  }

  lemma DoKeepsOrphaned(s: State, a: Action)
    ensures Orphaned(s) ==> Orphaned(Do(s, a))
    ensures NoStopYet(s) ==> NoStopYet(Do(s, a))
  {
  }

  lemma {:induction false} DoAllKeepsOrphaned(s: State, script: seq<Action>)
    requires Orphaned(s)
    ensures Orphaned(DoAll(s, script))
    decreases |script|
  {
    hide Orphaned, NoStopYet, Do;
    if script == [] {
    } else {
      DoKeepsOrphaned(s, script[0]);
      DoAllKeepsOrphaned(Do(s, script[0]), script[1..]);
    }
  }

  lemma RunHandleKeepsOrphaned(s: State, h: Handle)
    requires Orphaned(s)
    ensures Orphaned(RunHandle(s, h).0)
  {
    hide DoAll;
    DoAllKeepsOrphaned(s.(fired := s.fired + [h], firedAt := s.firedAt + [s.now]), h.script);
    DoAllKeepsOrphaned(s.(ran := s.ran + [h]), h.script);
  }

  lemma IterateKeepsOrphaned(s: State, pick: nat, late: bool)
    requires Orphaned(s)
    ensures Orphaned(Iterate(s, pick, late).0)
  {
    hide RunHandle;
    if FiresNow(s, late) {
      var i := PickMin(s.heap, pick);
      RunHandleKeepsOrphaned(s.(heap := Remove(s.heap, i)), s.heap[i]);
    } else if s.channel != [] {
      RunHandleKeepsOrphaned(s.(channel := s.channel[1..]), s.channel[0]);
    }
  }

  lemma StepKeepsOrphaned(s: State, l: Label)
    ensures Orphaned(s) ==> Orphaned(Step(s, l))
    ensures NoStopYet(s) ==> NoStopYet(Step(s, l))
  {
    hide Iterate, Do;
    match l
    case Request(a) => DoKeepsOrphaned(s, a);
    case Loop(pick, late) =>
      if LoopEnabled(s) {
        IterateKeepsMode(s, pick, late);
        if Orphaned(s) { IterateKeepsOrphaned(s, pick, late); }
      }
    case _ =>
  }

  lemma {:induction false} OrphanedForEver(s: State, labels: seq<Label>)
    requires Orphaned(s)
    ensures Orphaned(Run(s, labels))
    decreases |labels|
  {
    hide Orphaned, NoStopYet, Step;
    if labels == [] {
    } else {
      StepKeepsOrphaned(s, labels[0]);
      OrphanedForEver(Step(s, labels[0]), labels[1..]);
    }
  }

  lemma {:induction false} StoppedTooEarly(s: State, labels: seq<Label>)
    requires NoStopYet(s) && !StartedUnstopped(s, labels)
    ensures Orphaned(Run(s, labels))
    decreases |labels|
  {
    hide Step;
    var l := labels[0];
    if s.mode.NotStarted? && l == Request(Stop) {
      EarlyStopOrphans(s);
      OrphanedForEver(Step(s, l), labels[1..]);
    } else {
      StepKeepsOrphaned(s, l);
      StoppedTooEarly(Step(s, l), labels[1..]);
    }
  }

  lemma EarlyStopOrphans(s: State)
    requires NoStopYet(s) && s.mode.NotStarted?
    ensures Orphaned(Step(s, Request(Stop)))
  {
  }

  /** The exact condition under which stop() on the running loop has its stop_me in the
      channel, and so stops it: nobody called stop() before the main loop started. */
  lemma StopIsPostedIff(now: int, before: seq<Label>)
    requires Run(Initial(now), before).mode.Running?
    ensures HasStop(Do(Run(Initial(now), before), Stop).channel, Own) <==> StartedUnstopped(Initial(now), before)
  {
    var s := Run(Initial(now), before);
    InvInitial(now);
    InvRun(Initial(now), before);
    if StartedUnstopped(Initial(now), before) {
      RunKeepsStopPending(Initial(now), before);
      StopIsPosted(s);
    } else {
      StoppedTooEarly(Initial(now), before);
      OrphanHasNoStop(s);
    }
  }

  lemma OrphanHasNoStop(s: State)
    requires Orphaned(s) && History(s)
    ensures !HasStop(s.channel, Own) && Do(s, Stop) == s
  {
    assert forall h <- s.channel :: h in s.enqueued;
  }

  /** Otherwise stop() never stops the loop, in no continuation: what stops it is a
      stop(waiter), or a task that comes after the nursery was closed. */
  lemma WhatStopsAnOrphan(now: int, before: seq<Label>, after: seq<Label>)
    requires !StartedUnstopped(Initial(now), before)
    requires Over(Run(Run(Initial(now), before), after).mode)
    ensures var t := Run(Run(Initial(now), before), after);
            if t.stopper.Some? then t.stopper.value.kind.StopMe? && t.stopper.value.kind.event.Given? else t.lost != []
  {
    InvInitial(now);
    InvRun(Initial(now), before);
    InvRun(Run(Initial(now), before), after);
    StoppedTooEarly(Initial(now), before);
    OrphanedForEver(Run(Initial(now), before), after);
    LossInitial(now);
    LossRun(Initial(now), before);
    LossRun(Run(Initial(now), before), after);
    hide Inv, Orphaned, LossOk, Run, StartedUnstopped;
    OrphanStopper(Run(Run(Initial(now), before), after));
  }

  lemma OrphanStopper(s: State)
    requires Inv(s) && Orphaned(s) && LossOk(s) && Over(s.mode)
    ensures if s.stopper.Some? then s.stopper.value.kind.StopMe? && s.stopper.value.kind.event.Given? else s.lost != []
  {
    hide Inv;
    if s.stopper.Some? { StopperWasQueued(s); }
  }

  lemma StopperWasQueued(s: State)
    requires Inv(s) && s.stopper.Some?
    ensures s.stopper.value in s.enqueued && s.stopper.value.kind.StopMe?
  {
    assert s.stopper.value in multiset(Taken(s));
  }

  // A task that comes after the nursery was closed ends the loop, and the exit fails

  /** A handle is lost exactly where the main loop, or the exit, ends by an error. */
  ghost predicate LossOk(s: State) {
    s.lost != [] <==> s.mode.Failed? || (Over(s.mode) && s.stopper.None?)
  }

  lemma LossInitial(now: int)
    ensures LossOk(Initial(now))
  {
  }

  lemma LossStep(s: State, l: Label)
    requires Inv(s) && LossOk(s)
    ensures LossOk(Step(s, l))
  {
    hide Inv, Iterate, Do;
    match l
    case Request(a) => DoGrows(s, a);
    case Loop(pick, late) =>
      if LoopEnabled(s) {
        InvIterate(s, pick, late);
        IterateKeepsLogs(s, pick, late);
        RunningHasNoStopper(s);
      }
    case _ => RunningHasNoStopper(s);
  }

  lemma RunningHasNoStopper(s: State)
    requires Inv(s)
    ensures s.mode.NotStarted? || s.mode.Running? ==> s.stopper.None?
  {
  }

  lemma {:induction false} LossRun(s: State, labels: seq<Label>)
    requires Inv(s) && LossOk(s)
    ensures LossOk(Run(s, labels))
    decreases |labels|
  {
    hide Inv, LossOk, Step;
    if labels == [] {
    } else {
      InvStep(s, labels[0]);
      LossStep(s, labels[0]);
      LossRun(Step(s, labels[0]), labels[1..]);
    }
  }

  /** What ended the main loop: the effective stop_me, or the task that came too late. */
  function Ender(s: State): Option<Handle> {
    if s.stopper.Some? then s.stopper else if s.lost != [] then Some(s.lost[|s.lost| - 1]) else None
  }

  /** A stopped loop has taken nothing from the channel after what ended it. */
  ghost predicate EndsThere(s: State) {
    s.mode.Stopped? ==> Ender(s).Some? && Ender(s).value.id == Consumed(s) - 1
  }

  lemma EndStep(s: State, l: Label)
    requires Inv(s) && LossOk(s) && EndsThere(s)
    ensures EndsThere(Step(s, l))
  {
    hide Inv, Iterate, Do;
    match l
    case Request(a) => DoGrows(s, a);
    case Loop(pick, late) =>
      if LoopEnabled(s) {
        IterateKeepsMode(s, pick, late);
        InvIterate(s, pick, late);
        RunningHasNoStopper(s);
        IterateEnds(s, pick, late);
      }
    case _ =>
  }

  lemma IterateEnds(s: State, pick: nat, late: bool)
    requires Inv(s) && LoopEnabled(s)
    ensures var (t, r) := Iterate(s, pick, late);
            && (r == ExitRaised ==> t.ran != [] && t.ran[|t.ran| - 1].id == Consumed(t) - 1)
            && (r == NurseryClosed ==> t.lost != [] && t.lost[|t.lost| - 1].id == Consumed(t) - 1)
  {
    hide Inv, InHand, RunHandle;
    if FiresNow(s, late) {
      var i := PickMin(s.heap, pick);
      InHandFired(s, i);
      TimerContinues(s.(heap := Remove(s.heap, i)), s.heap[i]);
    } else if s.channel != [] {
      var h, s1 := s.channel[0], s.(channel := s.channel[1..]);
      InHandConsumed(s);
      ExitEnds(s1, h);
    }
  }

  lemma TimerContinues(s: State, h: Handle)
    requires h.kind.Timer?
    ensures RunHandle(s, h).1 == Continue
  {
  }

  lemma ExitEnds(s: State, h: Handle)
    ensures var (t, r) := RunHandle(s, h);
            && r != NurseryClosed
            && (r == ExitRaised ==> Consumed(t) == Consumed(s) && t.ran == s.ran + [h])
  {
  }

  // Which tasks are lost

  /** The nursery is closed and no task is being started; of the tasks taken so far, those
      before the c-th handle have been started or skipped, those after it are lost. */
  ghost predicate TasksSplitAt(s: State, c: nat) {
    && !s.nurseryOpen && s.starting.None? && c <= Consumed(s)
    && (forall h <- s.ran :: h.kind.Task? ==> h.id < c)
    && (forall h <- s.skipped :: h.kind.Task? ==> h.id < c)
    && (forall h <- s.lost :: h.id >= c)
  }

  lemma ClosingSplitsTasks(s: State)
    requires Inv(s) && s.nurseryOpen && s.starting.None?
    ensures TasksSplitAt(Step(s, CloseNursery), Consumed(s))
  {
    hide Placed;
    forall h | h in s.skipped ensures h.id < Consumed(s) { SkippedWasTaken(s, h); }
  }

  lemma SkippedWasTaken(s: State, h: Handle)
    requires Inv(s) && h in s.skipped
    ensures h.id < Consumed(s)
  {
    assert h in multiset(Taken(s));
  }

  lemma GrowthKeepsSplit(s: State, t: State, c: nat)
    requires TasksSplitAt(s, c) && Grows(s, t)
    ensures TasksSplitAt(t, c)
  {
  }

  lemma RunHandleKeepsSplit(s: State, h: Handle, c: nat)
    requires TasksSplitAt(s, c) && !h.kind.Task?
    ensures TasksSplitAt(RunHandle(s, h).0, c)
  {
    hide DoAll, Grows;
    var s1, s2 := s.(fired := s.fired + [h], firedAt := s.firedAt + [s.now]), s.(ran := s.ran + [h]);
    DoAllGrows(s1, h.script);
    DoAllGrows(s2, h.script);
    GrowthKeepsSplit(s1, DoAll(s1, h.script), c);
    GrowthKeepsSplit(s2, DoAll(s2, h.script), c);
  }

  lemma IterateKeepsSplit(s: State, pick: nat, late: bool, c: nat)
    requires Inv(s) && LoopEnabled(s) && TasksSplitAt(s, c)
    ensures TasksSplitAt(Iterate(s, pick, late).0, c)
  {
    hide Inv, InHand, RunHandle;
    if FiresNow(s, late) {
      var i := PickMin(s.heap, pick);
      InHandFired(s, i);
      RunHandleKeepsSplit(s.(heap := Remove(s.heap, i)), s.heap[i], c);
    } else if s.channel != [] {
      var h, s1 := s.channel[0], s.(channel := s.channel[1..]);
      InHandConsumed(s);
      if !h.kind.Task? { RunHandleKeepsSplit(s1, h, c); }
    }
  }

  lemma StepKeepsSplit(s: State, l: Label, c: nat)
    requires Inv(s) && TasksSplitAt(s, c)
    ensures TasksSplitAt(Step(s, l), c)
  {
    hide Inv, Iterate, Do, Grows;
    match l
    case Request(a) =>
      DoGrows(s, a);
      GrowthKeepsSplit(s, Do(s, a), c);
    case Loop(pick, late) => if LoopEnabled(s) { IterateKeepsSplit(s, pick, late, c); }
    case _ =>
  }

  lemma LostIff(s: State, c: nat, h: Handle)
    requires Inv(s) && TasksSplitAt(s, c) && h in s.enqueued && h !in s.channel && h.kind.Task?
    ensures h in s.lost <==> h.id >= c
  {
    TakenIsPlaced(s, h);
    hide Placed;
  }

  lemma TakenIsPlaced(s: State, h: Handle)
    requires Inv(s) && s.starting.None? && h in s.enqueued && h !in s.channel
    ensures h in s.heap || h in s.ran || h in s.fired || h in s.skipped || h in s.swept || h in s.lost
  {
    assert s.enqueued == Taken(s) + s.channel;
    assert h in multiset(Taken(s));
  }

  lemma IterateKeepsLogs(s: State, pick: nat, late: bool)
    ensures var (t, r) := Iterate(s, pick, late);
            && t.swept == s.swept && t.now == s.now && (r != NurseryClosed ==> t.lost == s.lost)
            && (r == NurseryClosed ==> t.lost != [])
  {
    if FiresNow(s, late) {
      var i := PickMin(s.heap, pick);
      RunHandleKeepsLogs(s.(heap := Remove(s.heap, i)), s.heap[i]);
    } else if s.channel != [] {
      RunHandleKeepsLogs(s.(channel := s.channel[1..]), s.channel[0]);
    }
  }

  lemma RunHandleKeepsLogs(s: State, h: Handle)
    ensures var (t, r) := RunHandle(s, h);
            t.swept == s.swept && t.lost == s.lost && t.now == s.now && r != NurseryClosed
  {
    DoAllGrows(s.(fired := s.fired + [h], firedAt := s.firedAt + [s.now]), h.script);
    DoAllGrows(s.(ran := s.ran + [h]), h.script);
  }

  predicate NeverStops(a: Action) {
    match a
    case CallSoon(script) => NoneStops(script)
    case CallAt(_, script) => NoneStops(script)
    case CallLater(_, script) => NoneStops(script)
    case StopWith(_) => false
    case _ => true
  }

  /** No stop(waiter) anywhere in the script; plain stop() may be called freely. */
  predicate NoneStops(script: seq<Action>) {
    forall a <- script :: NeverStops(a)
  }

  ghost predicate Disarmed(s: State) {
    && s.stopWait && s.nurseryOpen
    && (forall h <- s.channel :: !h.kind.StopMe? && NoneStops(h.script))
    && (forall h <- s.heap :: !h.kind.StopMe? && NoneStops(h.script))
  }

  lemma DoKeepsDisarmed(s: State, a: Action)
    requires Disarmed(s) && NeverStops(a)
    ensures Disarmed(Do(s, a)) && Do(s, a).mode == s.mode
  {
  }

  lemma {:induction false} DoAllKeepsDisarmed(s: State, script: seq<Action>)
    requires Disarmed(s) && NoneStops(script)
    ensures Disarmed(DoAll(s, script)) && DoAll(s, script).mode == s.mode
    decreases |script|
  {
    if script == [] {
    } else {
      DoKeepsDisarmed(s, script[0]);
      DoAllKeepsDisarmed(Do(s, script[0]), script[1..]);
    }
  }

  lemma RunHandleKeepsDisarmed(s: State, h: Handle)
    requires Disarmed(s) && !h.kind.StopMe? && NoneStops(h.script)
    ensures var (t, r) := RunHandle(s, h); Disarmed(t) && t.mode == s.mode && r == Continue
  {
    hide DoAll;
    DoAllKeepsDisarmed(s.(fired := s.fired + [h], firedAt := s.firedAt + [s.now]), h.script);
    DoAllKeepsDisarmed(s.(ran := s.ran + [h]), h.script);
  }

  predicate Harmless(l: Label) {
    !l.CloseNursery? && (l.Request? ==> NeverStops(l.a))
  }

  lemma StepKeepsDisarmed(s: State, l: Label)
    requires Disarmed(s) && s.mode.Running? && Harmless(l)
    ensures Disarmed(Step(s, l)) && Step(s, l).mode.Running?
  {
    hide RunHandle, Do;
    match l
    case Request(a) => DoKeepsDisarmed(s, a);
    case Loop(pick, late) =>
      if LoopEnabled(s) {
        if FiresNow(s, late) {
          var i := PickMin(s.heap, pick);
          RemoveFromBag(s.heap, i);
          RunHandleKeepsDisarmed(s.(heap := Remove(s.heap, i)), s.heap[i]);
        } else if s.channel != [] {
          RunHandleKeepsDisarmed(s.(channel := s.channel[1..]), s.channel[0]);
        }
      }
    case _ =>
  }

  lemma {:induction false} DisarmedRuns(s: State, after: seq<Label>)
    requires Disarmed(s) && s.mode.Running?
    requires forall l <- after :: Harmless(l)
    ensures Run(s, after).mode.Running?
    decreases |after|
  {
    if after == [] {
    } else {
      StepKeepsDisarmed(s, after[0]);
      DisarmedRuns(Step(s, after[0]), after[1..]);
    }
  }

  /** No stop(waiter) is waiting in the loop, nor hidden in what a callback in it will ask. */
  ghost predicate NoForeignStop(s: State) {
    forall h :: h in s.channel || h in s.heap ==> (h.kind.StopMe? ==> h.kind.event.Own?) && NoneStops(h.script)
  }

  /** So with the nursery open, and as long as nobody passes an event of their own, such a
      loop runs for ever, however often stop() is called. */
  lemma StopBeforeStartHangs(now: int, before: seq<Label>, after: seq<Label>)
    requires !StartedUnstopped(Initial(now), before)
    requires var s := Run(Initial(now), before); s.mode.Running? && s.nurseryOpen && NoForeignStop(s)
    requires forall l <- after :: Harmless(l)
    ensures Run(Run(Initial(now), before), after).mode.Running?
  {
    InvInitial(now);
    InvRun(Initial(now), before);
    StoppedTooEarly(Initial(now), before);
    OrphanIsDisarmed(Run(Initial(now), before));
    DisarmedRuns(Run(Initial(now), before), after);
  }

  lemma OrphanIsDisarmed(s: State)
    requires Inv(s) && Orphaned(s) && s.nurseryOpen && NoForeignStop(s)
    ensures Disarmed(s)
  {
    hide Placed;
    assert forall h <- s.channel :: h in s.enqueued;
  }

  /** A run that gets there: stop(), then the start of the main loop. */
  lemma StopBeforeStartDisarms(now: int)
    ensures var before := [Request(Stop), Begin];
            var s := Run(Initial(now), before);
            !StartedUnstopped(Initial(now), before) && s.mode.Running? && s.nurseryOpen && NoForeignStop(s)
  {
    var before := [Request(Stop), Begin];
    assert before[1..] == [Begin] && before[1..][1..] == [];
    assert Run(Initial(now), before) == Step(Step(Initial(now), Request(Stop)), Begin);
  }

  // Draining

  /** The work an action, or a handle in the channel, can still cause: one iteration, one
      more for a timer, and all that the callback schedules. */
  function ActionWork(a: Action): nat {
    match a
    case CallSoon(script) => 1 + ScriptWork(script)
    case CallAt(_, script) => 2 + ScriptWork(script)
    case CallLater(_, script) => 2 + ScriptWork(script)
    case RunTask => 1
    case CancelHandle(_) => 0
    case Stop => 1
    case StopWith(_) => 1
    case Synchronize => 1
  }

  function ScriptWork(script: seq<Action>): nat {
    if script == [] then 0 else ActionWork(script[0]) + ScriptWork(script[1..])
  }

  function ChannelWork(channel: seq<Handle>): nat {
    if channel == [] then 0
    else (if channel[0].kind.Timer? then 2 else 1) + ScriptWork(channel[0].script) + ChannelWork(channel[1..])
  }

  function HeapWork(heap: seq<Handle>): nat {
    if heap == [] then 0 else 1 + ScriptWork(heap[0].script) + HeapWork(heap[1..])
  }

  function Work(s: State): nat {
    ChannelWork(s.channel) + HeapWork(s.heap)
  }

  /** The work that code outside the loop adds along a run. */
  function RequestedWork(labels: seq<Label>): nat {
    if labels == [] then 0
    else (if labels[0].Request? then ActionWork(labels[0].a) else 0) + RequestedWork(labels[1..])
  }

  lemma {:induction false} ChannelWorkAppend(a: seq<Handle>, b: seq<Handle>)
    ensures ChannelWork(a + b) == ChannelWork(a) + ChannelWork(b)
  {
    if a == [] {
      assert a + b == b;
    } else {
      ChannelWorkAppend(a[1..], b);
      assert (a + b)[1..] == a[1..] + b;
    }
  }

  lemma {:induction false} HeapWorkAppend(a: seq<Handle>, b: seq<Handle>)
    ensures HeapWork(a + b) == HeapWork(a) + HeapWork(b)
  {
    if a == [] {
      assert a + b == b;
    } else {
      HeapWorkAppend(a[1..], b);
      assert (a + b)[1..] == a[1..] + b;
    }
  }

  lemma HeapWorkRemove(heap: seq<Handle>, i: nat)
    requires i < |heap|
    ensures HeapWork(heap) == HeapWork(Remove(heap, i)) + 1 + ScriptWork(heap[i].script)
  {
    hide ScriptWork;
    var before, h, after := heap[..i], heap[i], heap[i + 1..];
    assert heap == before + ([h] + after);
    assert ([h] + after)[0] == h && ([h] + after)[1..] == after;
    HeapWorkAppend(before, [h] + after);
    HeapWorkAppend(before, after);
  }

  lemma EnqueueWork(s: State, kind: Kind, script: seq<Action>)
    ensures Work(Enqueue(s, kind, script)) <= Work(s) + (if kind.Timer? then 2 else 1) + ScriptWork(script)
  {
    var h := Handle(|s.enqueued|, kind, script);
    ChannelWorkAppend(s.channel, [h]);
  }

  lemma DoWork(s: State, a: Action)
    ensures Work(Do(s, a)) <= Work(s) + ActionWork(a)
  {
    hide Enqueue;
    match a
    case CallSoon(script) => EnqueueWork(s, Soon, script);
    case CallAt(when, script) => EnqueueWork(s, Timer(when), script);
    case CallLater(delay, script) => EnqueueWork(s, Timer(s.now + delay), script);
    case RunTask => EnqueueWork(s, Task, []);
    case CancelHandle(_) =>
    case Stop => EnqueueWork(s.(stopWait := true), StopMe(Own), []);
    case StopWith(w) => EnqueueWork(s, StopMe(Given(w)), []);
    case Synchronize => EnqueueWork(s, Sync, []);
  }

  lemma {:induction false} DoAllWork(s: State, script: seq<Action>)
    ensures Work(DoAll(s, script)) <= Work(s) + ScriptWork(script)
    decreases |script|
  {
    if script == [] {
    } else {
      DoWork(s, script[0]);
      DoAllWork(Do(s, script[0]), script[1..]);
    }
  }

  lemma RunHandleWork(s: State, h: Handle)
    ensures Work(RunHandle(s, h).0) <= Work(s) + ScriptWork(h.script)
  {
    hide DoAll;
    DoAllWork(s.(fired := s.fired + [h], firedAt := s.firedAt + [s.now]), h.script);
    DoAllWork(s.(ran := s.ran + [h]), h.script);
  }

  /** An iteration that finds something to do leaves less work than there was. */
  lemma IterateWork(s: State, pick: nat, late: bool)
    ensures var (t, r) := Iterate(s, pick, late); r == NothingToDo || Work(t) < Work(s)
  {
    hide RunHandle;
    if FiresNow(s, late) {
      var i := PickMin(s.heap, pick);
      HeapWorkRemove(s.heap, i);
      RunHandleWork(s.(heap := Remove(s.heap, i)), s.heap[i]);
    } else if s.channel != [] {
      HeapWorkAppend(s.heap, [s.channel[0]]);
      RunHandleWork(s.(channel := s.channel[1..]), s.channel[0]);
    }
  }

  lemma StepWork(s: State, l: Label)
    requires s.mode.Draining? && Step(s, l).mode.Draining?
    ensures Work(Step(s, l)) + (if l.Loop? && LoopEnabled(s) then 1 else 0) <= Work(s) + RequestedWork([l])
  {
    hide Do, Iterate;
    match l
    case Request(a) => DoWork(s, a);
    case Loop(pick, late) => if LoopEnabled(s) { IterateWork(s, pick, late); }
    case _ =>
  }

  /** The drain comes to an end: it makes no more iterations than there is work in the
      channel, in the heap, and in what code outside the loop adds meanwhile. */
  lemma {:induction false} DrainEnds(s: State, labels: seq<Label>)
    requires s.mode.Draining?
    ensures Run(s, labels).mode.Draining? ==>
              Iterations(s, labels) + Work(Run(s, labels)) <= Work(s) + RequestedWork(labels)
    ensures !Run(s, labels).mode.Draining? ==> IsClosed(Run(s, labels).mode)
    decreases |labels|
  {
    hide Step, Work;
    if labels == [] {
    } else {
      var t := Step(s, labels[0]);
      StepNeverRestarts(s, labels[0]);
      if t.mode.Draining? {
        StepWork(s, labels[0]);
        DrainEnds(t, labels[1..]);
      } else {
        RunKeepsEnd(t, labels[1..]);
      }
    }
  }

  lemma {:induction false} RunKeepsEnd(s: State, labels: seq<Label>)
    requires IsClosed(s.mode)
    ensures Run(s, labels).mode == s.mode
    decreases |labels|
  {
    if labels == [] {
    } else {
      StepNeverRestarts(s, labels[0]);
      RunKeepsEnd(Step(s, labels[0]), labels[1..]);
    }
  }

  /** The step that ends the drain finds the channel empty and no timer due at the clock
      it has read; what is left in the heap it cancels. A stop_me taken by the drain
      does not end it. */
  lemma DrainEndsEmpty(s: State, pick: nat, late: bool)
    requires Inv(s) && s.mode.Draining? && s.starting.None?
    ensures var t := LoopStep(s, pick, late);
            && (t.mode.Closed? <==> s.channel == [] && forall h <- s.heap :: s.now < When(h))
            && (t.mode.Closed? ==> t.channel == [] && t.heap == [] && t.swept == s.swept + s.heap
                                   && (forall h <- s.heap :: h.id in t.cancelled))
            && (t.mode.Failed? <==> !TimerDue(s) && s.channel != [] && s.channel[0].kind.Task? && !s.nurseryOpen)
            && (!t.mode.Closed? && !t.mode.Failed? ==> t.mode.Draining?)
  {
    hide Inv;
    IterateKeepsMode(s, pick, late);
    if s.heap != [] {
      var i := FirstMin(s.heap);
      assert s.heap[i] in s.heap;
    }
    if FiresNow(s, late) {
      var i := PickMin(s.heap, pick);
      InHandFired(s, i);
      RunHandleContinues(s.(heap := Remove(s.heap, i)), s.heap[i]);
    } else if s.channel != [] {
      RunHandleContinues(s.(channel := s.channel[1..]), s.channel[0]);
    }
  }

  lemma RunHandleContinues(s: State, h: Handle)
    ensures RunHandle(s, h).1 == Continue || RunHandle(s, h).1 == ExitRaised
  {
  }

  /** Every stop() and stop(waiter) is answered: when the loop has been closed, the event
      of each stop_me ever queued is set. */
  lemma StopsAreAnswered(now: int, labels: seq<Label>)
    requires Run(Initial(now), labels).mode.Closed?
    ensures var s := Run(Initial(now), labels);
            forall h <- s.enqueued :: h.kind.StopMe? ==> h.kind.event in s.signalled
  {
    InvInitial(now);
    InvRun(Initial(now), labels);
    var s := Run(Initial(now), labels);
    forall h | h in s.enqueued && h.kind.StopMe? ensures h.kind.event in s.signalled {
      StopMeHasRun(s, h);
    }
  }

  lemma StopMeHasRun(s: State, h: Handle)
    requires Inv(s) && s.mode.Closed? && h in s.enqueued && h.kind.StopMe?
    ensures h in s.ran
  {
    assert Taken(s) == s.enqueued;
    assert h in multiset(Taken(s));
    assert h in s.heap || h in s.ran || h in s.fired || h in s.skipped || h in s.swept || h in s.lost;
    assert s.enqueued[h.id] == h;
  }
}
