/** What the loop makes of what it is asked: every call has the effect that its caller may
    expect, whoever makes it, and nothing happens that nobody has asked for. */
module SchedulerCalls {
  import opened Options
  import opened Scheduler
  import opened SchedulerTheorems
  import opened SchedulerProgress

  // A call and what becomes of it

  /** `t` is a state at some time after the call `a` in `s`. */
  ghost predicate Later(s: State, a: Action, t: State) {
    Inv(t) && Do(s, a).enqueued <= t.enqueued
  }

  /** Every later state of a run is one. */
  lemma RunIsLater(s: State, a: Action, after: seq<Label>)
    requires Inv(s)
    ensures Later(s, a, Run(Do(s, a), after))
  {
    hide Inv, Do, Run;
    InvDo(s, a);
    InvRun(Do(s, a), after);
    QueueOnlyGrows(Do(s, a), after);
  }

  /** The handle that a call is given, while the loop is open. */
  lemma CallIsQueued(s: State, a: Action, t: State)
    requires !IsClosed(s.mode) && Schedules(a) && Later(s, a, t)
    ensures var n := |s.enqueued|;
            && n < |t.enqueued| && t.enqueued[n].id == n
            && t.enqueued[n] == Do(s, a).enqueued[n]
  {
    hide Placed;
  }

  /** A handle that has gone somewhere is known by its number. */
  lemma PlaceOf(t: State, n: nat, h: Handle)
    requires Inv(t) && n < |t.enqueued| && h.id == n
    requires h in t.heap || h in t.ran || h in t.fired || h in t.skipped || h in t.swept || h in t.lost
    ensures h == t.enqueued[n]
  {
    PlacedIsTaken(t, h);
  }

  lemma KindsInPlace(t: State)
    requires Inv(t)
    ensures forall h <- t.fired :: h.kind.Timer?
    ensures forall h <- t.swept :: h.kind.Timer? && h.id in t.cancelled
    ensures forall h <- t.skipped :: h.id in t.cancelled
    ensures forall h <- t.heap :: h.kind.Timer?
    ensures forall h <- t.lost :: h.kind.Task?
    ensures forall h <- t.ran :: !h.kind.Timer?
    ensures |t.fired| == |t.firedAt|
    ensures forall i | 0 <= i < |t.fired| :: When(t.fired[i]) <= t.firedAt[i]
    ensures forall n <- t.cancelled :: n < |t.enqueued| && !Private(t.enqueued[n].kind)
  {
    hide Placed;
  }

  lemma SettledWhenClosed(t: State, n: nat)
    requires Inv(t) && t.mode.Closed? && n < |t.enqueued|
    ensures var h := t.enqueued[n];
            h in t.ran || h in t.fired || h in t.skipped || h in t.swept || h in t.lost
  {
    hide Placed;
    var h := t.enqueued[n];
    assert h in t.enqueued;
    TakenIsPlaced(t, h);
  }

  /** call_soon(): the very callback runs or, if somebody has cancelled it, is skipped; it
      is never kept for later. */
  lemma CallSoonRuns(s: State, script: seq<Action>, t: State)
    requires !IsClosed(s.mode) && Later(s, CallSoon(script), t)
    ensures var h := t.enqueued[|s.enqueued|];
            && h.id == |s.enqueued| && h.script == script
            && h !in t.heap && h !in t.fired && h !in t.swept && h !in t.lost
            && (t.mode.Closed? ==> h in t.ran || (h in t.skipped && h.id in t.cancelled))
  {
    CallIsQueued(s, CallSoon(script), t);
    KindsInPlace(t);
    var h := t.enqueued[|s.enqueued|];
    assert h.kind == Soon && h.script == script;
    if t.mode.Closed? { SettledWhenClosed(t, |s.enqueued|); }
    hide Inv;
  }

  /** call_at(): the very callback runs at the deadline or after it; at the exit it has run,
      unless somebody has cancelled it or the exit has. */
  lemma CallAtWaits(s: State, when: int, script: seq<Action>, t: State)
    requires !IsClosed(s.mode) && Later(s, CallAt(when, script), t)
    ensures TimerIsRight(t, |s.enqueued|, when, script)
  {
    CallIsQueued(s, CallAt(when, script), t);
    var n := |s.enqueued|;
    assert t.enqueued[n] == Handle(n, Timer(when), script);
    RightTimer(t, n, when, script);
  }

  /** And call_later() counts from the clock at the call. */
  lemma CallLaterIsCallAt(s: State, delay: nat, script: seq<Action>, t: State)
    requires !IsClosed(s.mode) && Later(s, CallLater(delay, script), t)
    ensures TimerIsRight(t, |s.enqueued|, s.now + delay, script)
  {
    CallIsQueued(s, CallLater(delay, script), t);
    var n := |s.enqueued|;
    assert t.enqueued[n] == Handle(n, Timer(s.now + delay), script);
    RightTimer(t, n, s.now + delay, script);
  }

  /** The n-th handle behaves as a timer for that deadline, now and at the next step: it
      fires then or later, and the exit sweeps it only before. */
  ghost predicate TimerIsRight(t: State, n: nat, when: int, script: seq<Action>) {
    && |t.fired| == |t.firedAt|
    && (forall i | 0 <= i < |t.fired| && t.fired[i].id == n :: t.fired[i].script == script && when <= t.firedAt[i])
    && (forall h <- t.ran + t.lost :: h.id != n)
    && (forall l: Label ::
          (exists h <- Step(t, l).swept :: h.id == n) ==> (exists h <- t.swept :: h.id == n) || t.now < when)
    && (t.mode.Closed? ==> exists h <- t.fired + t.skipped + t.swept :: h.id == n)
  }

  lemma RightTimer(t: State, n: nat, when: int, script: seq<Action>)
    requires Inv(t) && n < |t.enqueued| && t.enqueued[n] == Handle(n, Timer(when), script)
    ensures TimerIsRight(t, n, when, script)
  {
    KindsInPlace(t);
    hide Inv;
    forall i | 0 <= i < |t.fired| && t.fired[i].id == n ensures t.fired[i] == t.enqueued[n] {
      PlaceOf(t, n, t.fired[i]);
    }
    forall h | h in t.ran + t.lost ensures h.id != n {
      if h.id == n { PlaceOf(t, n, h); }
    }
    forall l: Label | exists h <- Step(t, l).swept :: h.id == n
      ensures (exists h <- t.swept :: h.id == n) || t.now < when
    {
      SweptInTime(t, l, n);
    }
    if t.mode.Closed? {
      SettledWhenClosed(t, n);
      assert t.enqueued[n] in t.fired + t.skipped + t.swept;
    }
  }

  /** A step that sweeps a timer finds it not due. */
  lemma SweptInTime(t: State, l: Label, n: nat)
    requires Inv(t) && n < |t.enqueued|
    requires exists h <- Step(t, l).swept :: h.id == n
    ensures (exists h <- t.swept :: h.id == n) || t.now < When(t.enqueued[n])
  {
    var x :| x in Step(t, l).swept && x.id == n;
    hide Inv;
    StepSweeps(t, l);
    if x !in t.swept { PlaceOf(t, n, x); }
  }

  lemma StepSweeps(s: State, l: Label)
    requires Inv(s)
    ensures var t := Step(s, l);
            && (forall h <- t.swept :: h in s.swept || (h in s.heap && s.now < When(h)))
            && (t.swept != s.swept ==> t.mode.Closed? && t.swept == s.swept + s.heap)
  {
    hide Inv, Iterate, Do;
    match l
    case Request(a) => DoGrows(s, a);
    case Loop(pick, late) =>
      if LoopEnabled(s) {
        IterateKeepsLogs(s, pick, late);
        if s.mode.Draining? { DrainEndsEmpty(s, pick, late); }
      }
    case _ =>
  }

  /** synchronize(): its callback runs, whatever else happens. */
  lemma SynchronizeRuns(s: State, t: State)
    requires !IsClosed(s.mode) && Later(s, Synchronize, t) && t.mode.Closed?
    ensures t.enqueued[|s.enqueued|] in t.ran
  {
    CallIsQueued(s, Synchronize, t);
    KindsInPlace(t);
    SettledWhenClosed(t, |s.enqueued|);
    assert t.enqueued[|s.enqueued|].kind == Sync;
    hide Inv;
  }

  /** run_trio(): the task starts, or was cancelled before that, or came too late. */
  lemma RunTaskStarts(s: State, t: State)
    requires !IsClosed(s.mode) && Later(s, RunTask, t)
    ensures var h := t.enqueued[|s.enqueued|];
            && h.id == |s.enqueued| && h !in t.heap && h !in t.fired && h !in t.swept
            && (t.mode.Closed? ==> h in t.ran || (h in t.skipped && h.id in t.cancelled) || h in t.lost)
            && (h in t.lost ==> !t.nurseryOpen)
  {
    CallIsQueued(s, RunTask, t);
    KindsInPlace(t);
    LossNeedsClosedNursery(t);
    var h := t.enqueued[|s.enqueued|];
    assert h.kind == Task;
    if t.mode.Closed? { SettledWhenClosed(t, |s.enqueued|); }
    hide Inv;
  }

  lemma LossNeedsClosedNursery(t: State)
    requires Inv(t)
    ensures t.lost != [] ==> !t.nurseryOpen
  {
  }

  /** A closed loop refuses every call that would queue something. */
  lemma ClosedLoopRefuses(s: State, a: Action)
    requires IsClosed(s.mode)
    ensures var t := Do(s, a);
            && t.enqueued == s.enqueued && t.channel == s.channel
            && t.rejected == s.rejected + (if Schedules(a) then 1 else 0)
  {
  }

  // Callbacks make their calls

  /** A callback that runs, or a timer that fires, makes the calls it consists of, in their
      order, from the state in which it was taken. */
  lemma RunsItsScript(s: State, pick: nat, late: bool)
    requires Inv(s) && LoopEnabled(s)
    ensures var t := Iterate(s, pick, late).0;
            && (|t.ran| > |s.ran| ==> s.channel != [])
            && (|t.ran| > |s.ran| && !t.ran[|s.ran|].kind.StopMe? ==>
                  t == DoAll(s.(channel := s.channel[1..], ran := s.ran + [t.ran[|s.ran|]]), t.ran[|s.ran|].script))
            && (|t.fired| > |s.fired| ==>
                  t == DoAll(s.(heap := t.heap, fired := s.fired + [t.fired[|s.fired|]],
                                firedAt := s.firedAt + [s.now]), t.fired[|s.fired|].script))
  {
    hide RunHandle, Inv;
    if FiresNow(s, late) {
      var i := PickMin(s.heap, pick);
      InHandFired(s, i);
      HandleMakesCalls(s.(heap := Remove(s.heap, i)), s.heap[i]);
    } else if s.channel != [] {
      HandleMakesCalls(s.(channel := s.channel[1..]), s.channel[0]);
    }
  }

  lemma HandleMakesCalls(s: State, h: Handle)
    ensures var t := RunHandle(s, h).0;
            if h.id in s.cancelled then t.ran == s.ran && t.fired == s.fired
            else if h.kind.Timer? then
              && t.ran == s.ran && t.fired == s.fired + [h] && t.heap == s.heap
              && t == DoAll(s.(fired := s.fired + [h], firedAt := s.firedAt + [s.now]), h.script)
            else
              && t.ran == s.ran + [h] && t.fired == s.fired
              && (!h.kind.StopMe? ==> t == DoAll(s.(ran := s.ran + [h]), h.script))
  {
    hide DoAll;
    DoAllGrows(s.(fired := s.fired + [h], firedAt := s.firedAt + [s.now]), h.script);
    DoAllGrows(s.(ran := s.ran + [h]), h.script);
  }

  lemma {:induction false} DoAllAppend(s: State, a: seq<Action>, b: seq<Action>)
    ensures DoAll(s, a + b) == DoAll(DoAll(s, a), b)
    ensures a != [] ==> DoAll(s, [a[0]]) == Do(s, a[0])
    decreases |a|
  {
    hide Do;
    if a == [] {
      assert a + b == b;
    } else {
      assert [a[0]][1..] == [];
      assert (a + b)[1..] == a[1..] + b;
      DoAllAppend(Do(s, a[0]), a[1..], b);
    }
  }

  // Who has asked for what

  predicate AsksForStop(a: Action, e: StopEvent) {
    match e
    case Own => a.Stop?
    case Given(w) => a == StopWith(w)
  }

  /** A callback that has run or fired makes this call, or somebody else has made it. */
  ghost predicate StopAsked(s: State, requests: set<Action>, e: StopEvent) {
    || (exists a <- requests :: AsksForStop(a, e))
    || (exists h <- s.ran, a <- h.script :: AsksForStop(a, e))
    || (exists h <- s.fired, a <- h.script :: AsksForStop(a, e))
  }

  /** The event is set, or a stop_me is there to set it. */
  predicate StopKnown(s: State, e: StopEvent) {
    e in s.signalled || HasStop(s.enqueued, e)
  }

  ghost predicate StopsTracked(s: State, requests: set<Action>) {
    && (forall e: StopEvent :: StopAsked(s, requests, e) <==> StopKnown(s, e))
    && (s.stopWait <==> StopKnown(s, Own))
  }

  /** The actions that code outside the callbacks has asked for. */
  function Requests(labels: seq<Label>): set<Action> {
    if labels == [] then {}
    else (if labels[0].Request? then {labels[0].a} else {}) + Requests(labels[1..])
  }

  /** What a call adds to the stops known. */
  lemma DoKnows(s: State, a: Action)
    requires s.stopWait <==> StopKnown(s, Own)
    ensures forall e: StopEvent :: StopKnown(Do(s, a), e) <==> StopKnown(s, e) || AsksForStop(a, e)
    ensures Do(s, a).stopWait <==> StopKnown(Do(s, a), Own)
  {
    match a
    case Stop => if !s.stopWait { PostKnows(s.(stopWait := true), Own); }
    case StopWith(w) => PostKnows(s, Given(w));
    case CallSoon(script) => EnqueueKnows(s, Soon, script);
    case CallAt(when, script) => EnqueueKnows(s, Timer(when), script);
    case CallLater(delay, script) => EnqueueKnows(s, Timer(s.now + delay), script);
    case RunTask => EnqueueKnows(s, Task, []);
    case Synchronize => EnqueueKnows(s, Sync, []);
    case CancelHandle(_) =>
  }

  lemma EnqueueKnows(s: State, kind: Kind, script: seq<Action>)
    ensures var t := Enqueue(s, kind, script);
            forall e: StopEvent :: StopKnown(t, e) <==> StopKnown(s, e) || (!IsClosed(s.mode) && kind == StopMe(e))
  {
    var t := Enqueue(s, kind, script);
    if !IsClosed(s.mode) {
      forall e: StopEvent ensures HasStop(t.enqueued, e) <==> HasStop(s.enqueued, e) || kind == StopMe(e) {
        assert t.enqueued[|s.enqueued|].kind == kind;
        if HasStop(s.enqueued, e) {
          var h :| h in s.enqueued && h.kind == StopMe(e);
          assert h in t.enqueued;
        }
      }
    }
  }

  lemma PostKnows(s: State, e: StopEvent)
    ensures forall x: StopEvent :: StopKnown(PostStop(s, e), x) <==> StopKnown(s, x) || x == e
  {
    if s.mode.Running? { EnqueueKnows(s, StopMe(e), []); }
  }

  lemma {:induction false} DoAllKnows(s: State, script: seq<Action>)
    requires s.stopWait <==> StopKnown(s, Own)
    ensures forall e: StopEvent ::
              StopKnown(DoAll(s, script), e) <==> StopKnown(s, e) || exists a <- script :: AsksForStop(a, e)
    ensures DoAll(s, script).stopWait <==> StopKnown(DoAll(s, script), Own)
    decreases |script|
  {
    hide Do, StopKnown, AsksForStop;
    if script == [] {
    } else {
      DoKnows(s, script[0]);
      DoAllKnows(Do(s, script[0]), script[1..]);
      assert script == [script[0]] + script[1..];
    }
  }

  lemma RunHandleTracks(s: State, h: Handle, requests: set<Action>)
    requires StopsTracked(s, requests) && (h.kind.StopMe? ==> h.script == [] && HasStop(s.enqueued, h.kind.event))
    ensures StopsTracked(RunHandle(s, h).0, requests)
  {
    hide DoAll, AsksForStop;
    if h.id !in s.cancelled {
      match h.kind
      case StopMe(e) => SameStops(s, s.(ran := s.ran + [h], signalled := s.signalled + {e}), h, requests);
      case Timer(_) =>
        var s1 := s.(fired := s.fired + [h], firedAt := s.firedAt + [s.now]);
        DoAllKnows(s1, h.script);
        DoAllGrows(s1, h.script);
        ScriptTracked(s, s1, DoAll(s1, h.script), h, requests);
      case _ =>
        var s1 := s.(ran := s.ran + [h]);
        DoAllKnows(s1, h.script);
        DoAllGrows(s1, h.script);
        ScriptTracked(s, s1, DoAll(s1, h.script), h, requests);
    } else {
      hide StopsTracked, RunHandle;
      SkipLogs(s, h, requests);
    }
  }

  lemma SkipLogs(s: State, h: Handle, requests: set<Action>)
    requires StopsTracked(s, requests) && h.id in s.cancelled
    ensures StopsTracked(RunHandle(s, h).0, requests)
  {
    hide StopsTracked;
    SameLogs(s, RunHandle(s, h).0, requests);
  }

  lemma SameStops(s: State, t: State, h: Handle, requests: set<Action>)
    requires StopsTracked(s, requests) && h.script == [] && h.kind.StopMe? && HasStop(s.enqueued, h.kind.event)
    requires t == s.(ran := s.ran + [h], signalled := s.signalled + {h.kind.event})
    ensures StopsTracked(t, requests)
  {
    hide AsksForStop;
    forall e: StopEvent ensures StopAsked(t, requests, e) <==> StopAsked(s, requests, e) {
      OneMoreRan(s, t, h, requests, e);
    }
  }

  lemma OneMoreRan(s: State, t: State, h: Handle, requests: set<Action>, e: StopEvent)
    requires (t.ran == s.ran + [h] && t.fired == s.fired) || (t.ran == s.ran && t.fired == s.fired + [h])
    ensures StopAsked(t, requests, e) <==> StopAsked(s, requests, e) || exists a <- h.script :: AsksForStop(a, e)
  {
    hide AsksForStop;
    if StopAsked(s, requests, e) && !exists a <- requests :: AsksForStop(a, e) {
      if exists x <- s.ran, a <- x.script :: AsksForStop(a, e) {
        var x, a :| x in s.ran && a in x.script && AsksForStop(a, e);
        assert x in t.ran;
      } else {
        var x, a :| x in s.fired && a in x.script && AsksForStop(a, e);
        assert x in t.fired;
      }
    }
    if exists a <- h.script :: AsksForStop(a, e) {
      var a :| a in h.script && AsksForStop(a, e);
      assert h in t.ran || h in t.fired;
    }
  }

  lemma ScriptTracked(s: State, s1: State, t: State, h: Handle, requests: set<Action>)
    requires StopsTracked(s, requests)
    requires (s1.ran == s.ran + [h] && s1.fired == s.fired) || (s1.ran == s.ran && s1.fired == s.fired + [h])
    requires s1.signalled == s.signalled && s1.enqueued == s.enqueued && t.ran == s1.ran && t.fired == s1.fired
    requires forall e: StopEvent :: StopKnown(t, e) <==> StopKnown(s1, e) || exists a <- h.script :: AsksForStop(a, e)
    requires t.stopWait <==> StopKnown(t, Own)
    ensures StopsTracked(t, requests)
  {
    hide AsksForStop;
    forall e: StopEvent ensures StopAsked(t, requests, e) <==> StopKnown(t, e) {
      OneMoreRan(s, t, h, requests, e);
      assert StopKnown(s1, e) == StopKnown(s, e);
    }
  }

  lemma IterateTracks(s: State, pick: nat, late: bool, requests: set<Action>)
    requires Inv(s) && StopsTracked(s, requests)
    ensures StopsTracked(Iterate(s, pick, late).0, requests)
  {
    hide RunHandle, StopAsked;
    if FiresNow(s, late) {
      var i := PickMin(s.heap, pick);
      KindsInPlace(s);
      hide Inv;
      var s1 := s.(heap := Remove(s.heap, i));
      SameLogs(s, s1, requests);
      RunHandleTracks(s1, s.heap[i], requests);
    } else if s.channel != [] {
      HeadIsQueued(s);
      hide Inv;
      var h, s1 := s.channel[0], s.(channel := s.channel[1..]);
      SameLogs(s, s1, requests);
      SameLogs(s, s1.(heap := s1.heap + [h]), requests);
      SameLogs(s, s1.(starting := Some(h)), requests);
      SameLogs(s, s1.(lost := s1.lost + [h]), requests);
      RunHandleTracks(s1, h, requests);
    }
  }

  lemma HeadIsQueued(s: State)
    requires Inv(s) && s.channel != []
    ensures s.channel[0] in s.enqueued && (s.channel[0].kind.StopMe? ==> s.channel[0].script == [])
    ensures s.channel[0].kind.StopMe? ==> HasStop(s.enqueued, s.channel[0].kind.event)
  {
    hide Placed;
    assert s.channel[0] == s.enqueued[Consumed(s)];
  }

  /** Nothing that counts here is changed. */
  lemma SameLogs(s: State, t: State, requests: set<Action>)
    requires StopsTracked(s, requests)
    requires t.ran == s.ran && t.fired == s.fired && t.signalled == s.signalled
    requires t.enqueued == s.enqueued && t.stopWait == s.stopWait
    ensures StopsTracked(t, requests)
  {
    hide AsksForStop;
    forall e: StopEvent
      ensures StopAsked(t, requests, e) == StopAsked(s, requests, e) && StopKnown(t, e) == StopKnown(s, e)
    {
    }
  }

  lemma StepTracks(s: State, l: Label, requests: set<Action>)
    requires Inv(s) && StopsTracked(s, requests)
    ensures StopsTracked(Step(s, l), requests + Requests([l]))
  {
    hide StopAsked, Iterate, Do;
    assert !l.Request? ==> requests + Requests([l]) == requests;
    match l
    case Request(a) =>
      DoKnows(s, a);
      DoGrows(s, a);
      RequestTracked(s, Do(s, a), a, requests);
    case Loop(pick, late) =>
      if LoopEnabled(s) {
        IterateTracks(s, pick, late, requests);
        LoopOnlyModes(s, pick, late);
        hide Inv;
        SameLogs(Iterate(s, pick, late).0, LoopStep(s, pick, late), requests);
      }
    case FirstStep => FirstStepTracks(s, requests);
    case _ => SameLogs(s, Step(s, l), requests);
  }

  lemma LoopOnlyModes(s: State, pick: nat, late: bool)
    requires Inv(s) && LoopEnabled(s)
    ensures var u, t := Iterate(s, pick, late).0, LoopStep(s, pick, late);
            && t.ran == u.ran && t.fired == u.fired && t.signalled == u.signalled
            && t.enqueued == u.enqueued && t.stopWait == u.stopWait
  {
    hide Inv, Iterate;
    InvIterate(s, pick, late);
  }

  lemma RequestTracked(s: State, t: State, a: Action, requests: set<Action>)
    requires StopsTracked(s, requests) && t.ran == s.ran && t.fired == s.fired
    requires forall e: StopEvent :: StopKnown(t, e) <==> StopKnown(s, e) || AsksForStop(a, e)
    requires t.stopWait <==> StopKnown(t, Own)
    ensures StopsTracked(t, requests + Requests([Request(a)]))
  {
    hide AsksForStop;
    assert Requests([Request(a)]) == {a};
    forall e: StopEvent
      ensures StopAsked(t, requests + {a}, e) <==> StopAsked(s, requests, e) || AsksForStop(a, e)
    {
    }
  }

  lemma FirstStepTracks(s: State, requests: set<Action>)
    requires Inv(s) && StopsTracked(s, requests)
    ensures StopsTracked(TakeFirstStep(s), requests)
  {
    if s.starting.Some? {
      StartingIsPlain(s);
      hide Inv;
      var h, t := s.starting.value, TakeFirstStep(s);
      if h.id in s.cancelled {
        SameLogs(s, t, requests);
      } else {
        forall e: StopEvent ensures StopAsked(t, requests, e) <==> StopAsked(s, requests, e) {
          OneMoreRan(s, t, h, requests, e);
        }
        assert forall e: StopEvent :: StopKnown(t, e) == StopKnown(s, e);
      }
    }
  }

  lemma StartingIsPlain(s: State)
    requires Inv(s) && s.starting.Some?
    ensures s.starting.value.script == []
  {
    assert s.starting.value in multiset(Taken(s));
  }

  lemma {:induction false} RunTracks(s: State, labels: seq<Label>, requests: set<Action>)
    requires Inv(s) && StopsTracked(s, requests)
    ensures StopsTracked(Run(s, labels), requests + Requests(labels))
    decreases |labels|
  {
    hide Inv, StopsTracked, Step;
    if labels == [] {
      assert requests + Requests(labels) == requests;
    } else {
      InvStep(s, labels[0]);
      StepTracks(s, labels[0], requests);
      RunTracks(Step(s, labels[0]), labels[1..], requests + Requests([labels[0]]));
      RequestsCons(labels);
      assert requests + Requests([labels[0]]) + Requests(labels[1..]) == requests + Requests(labels);
    }
  }

  lemma RequestsCons(labels: seq<Label>)
    requires labels != []
    ensures Requests(labels) == Requests([labels[0]]) + Requests(labels[1..])
  {
    assert [labels[0]][1..] == [];
  }

  /** Over every run: the event of a stop is set, or has its stop_me queued, exactly if
      somebody has asked for that stop, a callback that ran or code outside; and in a
      loop that has been closed it is set. */
  lemma StopsAreAnsweredIff(now: int, labels: seq<Label>, e: StopEvent)
    ensures var s := Run(Initial(now), labels);
            && (StopAsked(s, Requests(labels), e) <==> e in s.signalled || HasStop(s.enqueued, e))
            && (s.mode.Closed? ==> (StopAsked(s, Requests(labels), e) <==> e in s.signalled))
  {
    InvInitial(now);
    InvRun(Initial(now), labels);
    NobodyAskedYet(now);
    RunTracks(Initial(now), labels, {});
    assert {} + Requests(labels) == Requests(labels);
    var s := Run(Initial(now), labels);
    hide Inv, Run;
    if s.mode.Closed? && HasStop(s.enqueued, e) {
      var h :| h in s.enqueued && h.kind == StopMe(e);
      StopMeHasRun(s, h);
      StopMeSignals(s, h);
    }
  }

  lemma NobodyAskedYet(now: int)
    ensures StopsTracked(Initial(now), {})
  {
  }

  lemma StopMeSignals(s: State, h: Handle)
    requires Inv(s) && h in s.ran && h.kind.StopMe?
    ensures h.kind.event in s.signalled
  {
  }

  /** A stop of a loop that is not running, or not any more, is answered at once. */
  lemma StopAnsweredAtOnce(s: State, a: Action, e: StopEvent)
    requires !s.mode.Running? && AsksForStop(a, e) && (a.Stop? ==> !s.stopWait)
    ensures e in Do(s, a).signalled && Do(s, a).enqueued == s.enqueued
  {
  }

  // Cancelling

  /** Somebody has cancelled the n-th handle. */
  ghost predicate CancelAsked(s: State, requests: set<Action>, n: nat) {
    || CancelHandle(n) in requests
    || (exists h <- s.ran :: CancelHandle(n) in h.script)
    || (exists h <- s.fired :: CancelHandle(n) in h.script)
  }

  ghost predicate CancelsTracked(s: State, requests: set<Action>) {
    forall n <- s.cancelled :: CancelAsked(s, requests, n) || exists h <- s.swept :: h.id == n
  }

  lemma {:induction false} DoAllCancels(s: State, script: seq<Action>)
    ensures forall n <- DoAll(s, script).cancelled :: n in s.cancelled || CancelHandle(n) in script
    decreases |script|
  {
    if script == [] {
    } else {
      DoCancels(s, script[0]);
      DoAllCancels(Do(s, script[0]), script[1..]);
      assert script == [script[0]] + script[1..];
    }
  }

  lemma DoCancels(s: State, a: Action)
    ensures forall n <- Do(s, a).cancelled :: n in s.cancelled || a == CancelHandle(n)
  {
  }

  lemma RunHandleCancels(s: State, h: Handle, requests: set<Action>)
    requires CancelsTracked(s, requests)
    ensures CancelsTracked(RunHandle(s, h).0, requests)
  {
    hide DoAll;
    var s1, s2 := s.(fired := s.fired + [h], firedAt := s.firedAt + [s.now]), s.(ran := s.ran + [h]);
    DoAllCancels(s1, h.script);
    DoAllCancels(s2, h.script);
    DoAllGrows(s1, h.script);
    DoAllGrows(s2, h.script);
    var t := RunHandle(s, h).0;
    forall n | n in t.cancelled ensures CancelAsked(t, requests, n) || exists x <- t.swept :: x.id == n {
      if n in s.cancelled {
        CancelStaysAsked(s, t, requests, n);
      } else {
        assert CancelHandle(n) in h.script && (h in t.ran || h in t.fired);
      }
    }
  }

  lemma CancelStaysAsked(s: State, t: State, requests: set<Action>, n: nat)
    requires CancelAsked(s, requests, n) || exists h <- s.swept :: h.id == n
    requires s.ran <= t.ran && s.fired <= t.fired && s.swept <= t.swept
    ensures CancelAsked(t, requests, n) || exists h <- t.swept :: h.id == n
  {
    if exists h <- s.ran :: CancelHandle(n) in h.script {
      var h :| h in s.ran && CancelHandle(n) in h.script;
      assert h in t.ran;
    } else if exists h <- s.fired :: CancelHandle(n) in h.script {
      var h :| h in s.fired && CancelHandle(n) in h.script;
      assert h in t.fired;
    } else if exists h <- s.swept :: h.id == n {
      var h :| h in s.swept && h.id == n;
      assert h in t.swept;
    }
  }

  lemma LogsCancel(s: State, t: State, requests: set<Action>)
    requires CancelsTracked(s, requests) && s.ran <= t.ran && s.fired <= t.fired && s.swept <= t.swept
    requires t.cancelled == s.cancelled
    ensures CancelsTracked(t, requests)
  {
    hide CancelAsked;
    forall n | n in t.cancelled ensures CancelAsked(t, requests, n) || exists x <- t.swept :: x.id == n {
      CancelStaysAsked(s, t, requests, n);
    }
  }

  lemma IterateCancels(s: State, pick: nat, late: bool, requests: set<Action>)
    requires CancelsTracked(s, requests)
    ensures CancelsTracked(Iterate(s, pick, late).0, requests)
  {
    hide RunHandle, CancelsTracked;
    if FiresNow(s, late) {
      var i := PickMin(s.heap, pick);
      LogsCancel(s, s.(heap := Remove(s.heap, i)), requests);
      RunHandleCancels(s.(heap := Remove(s.heap, i)), s.heap[i], requests);
    } else if s.channel != [] {
      var h, s1 := s.channel[0], s.(channel := s.channel[1..]);
      LogsCancel(s, s1, requests);
      LogsCancel(s, s1.(heap := s1.heap + [h]), requests);
      LogsCancel(s, s1.(starting := Some(h)), requests);
      LogsCancel(s, s1.(lost := s1.lost + [h]), requests);
      RunHandleCancels(s1, h, requests);
    }
  }

  lemma LoopCancels(s: State, pick: nat, late: bool, requests: set<Action>)
    requires CancelsTracked(s, requests)
    ensures CancelsTracked(LoopStep(s, pick, late), requests)
  {
    hide Iterate;
    IterateCancels(s, pick, late, requests);
    if LoopStep(s, pick, late) == Finish(s) { FinishCancels(s, requests); }
  }

  lemma FinishCancels(s: State, requests: set<Action>)
    requires CancelsTracked(s, requests)
    ensures CancelsTracked(Finish(s), requests)
  {
    hide CancelAsked;
    var t := Finish(s);
    forall n | n in t.cancelled ensures CancelAsked(t, requests, n) || exists x <- t.swept :: x.id == n {
      if n in s.cancelled {
        CancelStaysAsked(s, t, requests, n);
      } else {
        var x :| x in s.heap && x.id == n;
        assert x in t.swept;
      }
    }
  }

  lemma StepCancels(s: State, l: Label, requests: set<Action>)
    requires CancelsTracked(s, requests)
    ensures CancelsTracked(Step(s, l), requests + Requests([l]))
  {
    hide LoopStep, Do;
    assert !l.Request? ==> requests + Requests([l]) == requests;
    match l
    case Request(a) =>
      DoCancels(s, a);
      DoGrows(s, a);
      assert Requests([l]) == {a};
    case Loop(pick, late) => if LoopEnabled(s) { LoopCancels(s, pick, late, requests); }
    case _ => LogsCancel(s, Step(s, l), requests);
  }

  lemma {:induction false} RunCancels(s: State, labels: seq<Label>, requests: set<Action>)
    requires CancelsTracked(s, requests)
    ensures CancelsTracked(Run(s, labels), requests + Requests(labels))
    decreases |labels|
  {
    hide CancelsTracked, Step;
    if labels == [] {
      assert requests + Requests(labels) == requests;
    } else {
      StepCancels(s, labels[0], requests);
      RunCancels(Step(s, labels[0]), labels[1..], requests + Requests([labels[0]]));
      RequestsCons(labels);
      assert requests + Requests([labels[0]]) + Requests(labels[1..]) == requests + Requests(labels);
    }
  }

  /** Nothing is cancelled but what somebody has cancelled, by its own number, or the exit
      has swept. */
  lemma OnlyAskedIsCancelled(now: int, labels: seq<Label>)
    ensures var s := Run(Initial(now), labels);
            forall n <- s.cancelled :: CancelAsked(s, Requests(labels), n) || exists h <- s.swept :: h.id == n
  {
    RunCancels(Initial(now), labels, {});
    assert {} + Requests(labels) == Requests(labels);
  }

  // The surroundings of the loop

  function Ticks(labels: seq<Label>): nat {
    if labels == [] then 0 else (if labels[0].Tick? then labels[0].d else 0) + Ticks(labels[1..])
  }

  /** The clock, the nursery and the start are as the run says. */
  lemma {:induction false} RunIsHeard(s: State, labels: seq<Label>)
    ensures var t := Run(s, labels);
            && t.now == s.now + Ticks(labels)
            && (t.nurseryOpen <==> s.nurseryOpen && CloseNursery !in labels)
            && (t.mode.NotStarted? <==> s.mode.NotStarted? && Begin !in labels)
    decreases |labels|
  {
    hide Step;
    if labels == [] {
    } else {
      assert labels == [labels[0]] + labels[1..];
      StepIsHeard(s, labels[0]);
      RunIsHeard(Step(s, labels[0]), labels[1..]);
    }
  }

  lemma StepIsHeard(s: State, l: Label)
    ensures var t := Step(s, l);
            && t.now == s.now + (if l.Tick? then l.d else 0)
            && (t.nurseryOpen <==> s.nurseryOpen && !l.CloseNursery?)
            && (t.mode.NotStarted? <==> s.mode.NotStarted? && !l.Begin?)
            && (l.Begin? && s.mode.NotStarted? ==> t.mode.Running?)
            && (l.BeginDrain? && s.mode.Stopped? && s.starting.None? ==> t.mode.Draining?)
  {
    hide Iterate, Do;
    match l
    case Request(a) => DoGrows(s, a);
    case Loop(pick, late) => IterateIsQuiet(s, pick, late);
    case _ =>
  }

  lemma IterateIsQuiet(s: State, pick: nat, late: bool)
    ensures var t := Iterate(s, pick, late).0;
            t.now == s.now && t.nurseryOpen == s.nurseryOpen && t.mode == s.mode
  {
    hide DoAll;
    if FiresNow(s, late) {
      var i := PickMin(s.heap, pick);
      var h, s1 := s.heap[i], s.(heap := Remove(s.heap, i));
      DoAllGrows(s1.(fired := s1.fired + [h], firedAt := s1.firedAt + [s.now]), h.script);
      DoAllGrows(s1.(ran := s1.ran + [h]), h.script);
    } else if s.channel != [] {
      var h, s1 := s.channel[0], s.(channel := s.channel[1..]);
      DoAllGrows(s1.(ran := s1.ran + [h]), h.script);
      DoAllGrows(s1.(fired := s1.fired + [h], firedAt := s1.firedAt + [s.now]), h.script);
    }
  }
}
