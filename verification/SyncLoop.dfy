/** The restartable loop: stop(), repeated runs, and run_until_complete with its catch-up
    loop. A run is driven by the loop's own iterations and by what other code does at its
    awaits. */
module SyncProtocol {
  import opened Options

  /** How a future ends; `Exits` is a SystemExit or KeyboardInterrupt. */
  datatype Outcome = Value(v: int) | Raises(e: int) | Exits

  datatype Action =
    | CallSoon(script: seq<Action>)
    | CallAt(when: int, script: seq<Action>)
    | Stop
    | Resolve(future: nat, o: Outcome)

  /** `id` counts what is put into the channel. */
  datatype Item =
    | Callback(id: nat, script: seq<Action>)
    | Timer(id: nat, when: int, script: seq<Action>)
    | DoStop
    | IsDone(future: nat, run: nat)   // the done-callback of that run_until_complete

  datatype State = State(
    now: int,
    channel: seq<Item>,
    heap: seq<Item>,
    loopRunning: bool,
    stopPending: bool,
    done: map<nat, Outcome>,     // the futures that are done
    run: nat,                    // the number of the current, or the last, run
    waited: Option<nat>,         // the future of a run_until_complete
    result: Option<Outcome>,     // its captured outcome
    // history
    queued: seq<Item>,           // what was ever put into the channel
    ran: seq<Item>,              // timers excepted
    fired: seq<Item>,
    firedAt: seq<int>)

  function Fresh(now: int): State {
    State(now, [], [], false, false, map[], 0, None, None, [], [], [], [])
  }

  function Push(s: State, item: Item): State {
    s.(channel := s.channel + [item], queued := s.queued + [item])
  }

  function StopLoop(s: State): State {
    if s.loopRunning && !s.stopPending then Push(s.(stopPending := true), DoStop) else s
  }

  function Do(s: State, a: Action): State {
    match a
    case CallSoon(script) => Push(s, Callback(|s.queued|, script))
    case CallAt(when, script) => Push(s, Timer(|s.queued|, when, script))
    case Stop => StopLoop(s)
    case Resolve(k, o) =>
      if k in s.done then s
      else
        var s1 := s.(done := s.done[k := o]);
        if s.waited == Some(k) then Push(s1, IsDone(k, s.run)) else s1
  }

  function DoAll(s: State, script: seq<Action>): State
    decreases |script|
  {
    if script == [] then s else DoAll(Do(s, script[0]), script[1..])
  }

  /** The body of is_done: capture; then stop, except for an exit, which has propagated out
      of the loop already. A run that is over has no use for the outcome, but stop() is
      called all the same. */
  function Capture(s: State, k: nat, run: nat): State {
    if k !in s.done then s
    else
      var s1 := if s.waited.Some? && s.run == run then s.(result := Some(s.done[k])) else s;
      if s.done[k].Exits? then s1 else StopLoop(s1)
  }

  datatype Result = Continue | ExitRaised | NothingToDo

  function Ran(s: State, item: Item): State {
    s.(ran := s.ran + [item])
  }

  function Fired(s: State, item: Item): State {
    s.(fired := s.fired + [item], firedAt := s.firedAt + [s.now])
  }

  function RunItem(s: State, item: Item): (State, Result) {
    match item
    case Callback(_, script) => (DoAll(Ran(s, item), script), Continue)
    case Timer(_, _, script) => (DoAll(Fired(s, item), script), Continue)
    case DoStop => (Ran(s, item).(stopPending := false), ExitRaised)
    case IsDone(k, run) => (Capture(Ran(s, item), k, run), Continue)
  }

  // The heap: what is popped has a minimal deadline

  function When(item: Item): int {
    if item.Timer? then item.when else 0
  }

  predicate IsMin(heap: seq<Item>, i: nat) {
    i < |heap| && forall x <- heap :: When(heap[i]) <= When(x)
  }

  function FirstMin(heap: seq<Item>): (i: nat)
    requires heap != []
    ensures IsMin(heap, i)
  {
    if |heap| == 1 then 0
    else
      var j := FirstMin(heap[1..]);
      assert heap == [heap[0]] + heap[1..];
      if When(heap[0]) <= When(heap[1 + j]) then 0 else 1 + j
  }

  function PickMin(heap: seq<Item>, pick: nat): (i: nat)
    requires heap != []
    ensures IsMin(heap, i)
  {
    if IsMin(heap, pick) then pick else FirstMin(heap)
  }

  predicate TimerDue(s: State) {
    s.heap != [] && When(s.heap[FirstMin(s.heap)]) <= s.now
  }

  /** One iteration; of several equally early timers, `pick` says which comes first. `late`:
      no timer was due when the clock was read, before the wait. */
  function Iterate(s: State, pick: nat, late: bool): (State, Result) {
    if TimerDue(s) && !late then
      var i := PickMin(s.heap, pick);
      RunItem(s.(heap := s.heap[..i] + s.heap[i + 1..]), s.heap[i])
    else if s.channel == [] then (s, NothingToDo)
    else
      var item, s1 := s.channel[0], s.(channel := s.channel[1..]);
      if item.Timer? then (s1.(heap := s1.heap + [item]), Continue) else RunItem(s1, item)
  }

  // Invariants

  function Stops(channel: seq<Item>): nat {
    if channel == [] then 0 else (if channel[0].DoStop? then 1 else 0) + Stops(channel[1..])
  }

  predicate Current(item: Item, run: nat) {
    item.IsDone? && item.run == run
  }

  function Dones(channel: seq<Item>, run: nat): nat {
    if channel == [] then 0 else (if Current(channel[0], run) then 1 else 0) + Dones(channel[1..], run)
  }

  /** A stop is pending exactly when one do_stop, and never more, is in the channel. The one
      is_done of the current run is on its way from when the future is done until it has
      captured the outcome; those of earlier runs can linger. */
  ghost predicate Inv(s: State) {
    && Stops(s.channel) == (if s.stopPending then 1 else 0)
    && (forall item <- s.heap :: item.Timer?)
    && (forall item <- s.channel :: item.IsDone? ==> item.future in s.done && item.run <= s.run)
    && (s.waited.None? ==> s.result.None?)
    && (s.waited.Some? ==>
          var k := s.waited.value;
          && (forall item <- s.channel :: Current(item, s.run) ==> item.future == k)
          && (s.result.Some? ==> k in s.done && s.result == Some(s.done[k]))
          && Dones(s.channel, s.run) == (if k in s.done && s.result.None? then 1 else 0))
  }

  lemma {:induction false} StopsAppend(a: seq<Item>, b: seq<Item>)
    ensures Stops(a + b) == Stops(a) + Stops(b)
  {
    if a == [] {
      assert a + b == b;
    } else {
      StopsAppend(a[1..], b);
      assert (a + b)[1..] == a[1..] + b;
    }
  }

  lemma {:induction false} DonesAppend(a: seq<Item>, b: seq<Item>, run: nat)
    ensures Dones(a + b, run) == Dones(a, run) + Dones(b, run)
  {
    if a == [] {
      assert a + b == b;
    } else {
      DonesAppend(a[1..], b, run);
      assert (a + b)[1..] == a[1..] + b;
    }
  }

  lemma InvPush(s: State, item: Item)
    requires Inv(s) && !item.DoStop? && !item.IsDone?
    ensures Inv(Push(s, item))
  {
    StopsAppend(s.channel, [item]);
    DonesAppend(s.channel, [item], s.run);
  }

  lemma InvStopLoop(s: State)
    requires Inv(s)
    ensures Inv(StopLoop(s))
  {
    StopsAppend(s.channel, [DoStop]);
    DonesAppend(s.channel, [DoStop], s.run);
  }

  lemma InvResolve(s: State, k: nat, o: Outcome)
    requires Inv(s)
    ensures Inv(Do(s, Resolve(k, o)))
  {
    StopsAppend(s.channel, [IsDone(k, s.run)]);
    DonesAppend(s.channel, [IsDone(k, s.run)], s.run);
  }

  lemma InvDo(s: State, a: Action)
    requires Inv(s)
    ensures Inv(Do(s, a))
  {
    match a
    case CallSoon(script) => InvPush(s, Callback(|s.queued|, script));
    case CallAt(when, script) => InvPush(s, Timer(|s.queued|, when, script));
    case Stop => InvStopLoop(s);
    case Resolve(k, o) => InvResolve(s, k, o);
  }

  /** What actions and callbacks leave alone. */
  ghost predicate Steady(s: State, t: State) {
    && t.waited == s.waited && t.run == s.run && t.loopRunning == s.loopRunning && t.now == s.now && t.heap == s.heap
    && (forall k <- s.done :: k in t.done && t.done[k] == s.done[k])
  }

  lemma DoSteady(s: State, a: Action)
    ensures Steady(s, Do(s, a)) && Do(s, a).result == s.result && (s.stopPending ==> Do(s, a).stopPending)
  {
  }

  lemma {:induction false} InvDoAll(s: State, script: seq<Action>)
    requires Inv(s)
    ensures var t := DoAll(s, script);
            Inv(t) && Steady(s, t) && t.result == s.result && (s.stopPending ==> t.stopPending)
    decreases |script|
  {
    hide Inv, Do;
    if script == [] {
    } else {
      InvDo(s, script[0]);
      DoSteady(s, script[0]);
      InvDoAll(Do(s, script[0]), script[1..]);
    }
  }

  lemma InvPop(s: State)
    requires Inv(s) && s.channel != [] && !s.channel[0].DoStop? && !s.channel[0].IsDone?
    ensures Inv(s.(channel := s.channel[1..]))
  {
    var item := s.channel[0];
    assert s.channel == [item] + s.channel[1..];
  }

  lemma InvLog(s: State, item: Item)
    requires Inv(s)
    ensures Inv(Ran(s, item)) && Inv(Fired(s, item))
  {
  }

  lemma InvDoStop(s: State)
    requires Inv(s) && s.channel != [] && s.channel[0].DoStop?
    ensures s.stopPending && Inv(Ran(s.(channel := s.channel[1..]), DoStop).(stopPending := false))
  {
    assert s.channel == [DoStop] + s.channel[1..];
  }

  lemma InvCapture(s: State)
    requires Inv(s) && s.channel != [] && s.channel[0].IsDone?
    ensures var item, s1 := s.channel[0], s.(channel := s.channel[1..]);
            var t := Capture(Ran(s1, item), item.future, item.run);
            && Inv(t) && Steady(s, t)
            && (s.result.Some? ==> t.result == s.result)
            && (s.stopPending ==> t.stopPending)
            && (s.result.None? && t.result.Some? ==>
                  Current(item, s.run)
                  && (t.stopPending <==> s.stopPending || (s.loopRunning && !t.result.value.Exits?)))
  {
    var item, s1 := s.channel[0], s.(channel := s.channel[1..]);
    assert s.channel == [item] + s1.channel;
    var s2 := if s.waited.Some? && s.run == item.run then s1.(result := Some(s.done[item.future])) else s1;
    assert Inv(s2);
    InvLog(s2, item);
    InvStopLoop(Ran(s2, item));
  }

  lemma InvFire(s: State, i: nat)
    requires Inv(s) && i < |s.heap|
    ensures Inv(s.(heap := s.heap[..i] + s.heap[i + 1..])) && s.heap[i].Timer?
  {
  }

  lemma InvToHeap(s: State, item: Item)
    requires Inv(s) && item.Timer?
    ensures Inv(s.(heap := s.heap + [item]))
  {
  }

  lemma NoneDue(s: State)
    ensures TimerDue(s) <==> exists x <- s.heap :: When(x) <= s.now
  {
    if s.heap != [] { assert s.heap[FirstMin(s.heap)] in s.heap; }
  }

  lemma InvIterate(s: State, pick: nat, late: bool)
    requires Inv(s)
    ensures var (t, r) := Iterate(s, pick, late);
            && Inv(t) && t.waited == s.waited && t.run == s.run && t.loopRunning == s.loopRunning
            && (r == NothingToDo ==> t == s && s.channel == [] && (late || forall x <- s.heap :: s.now < When(x)))
            && (r == ExitRaised ==> s.stopPending && !t.stopPending && t.result == s.result)
            && (s.result.Some? ==> t.result == s.result)
            && (s.result.None? && t.result.Some? ==>
                  (t.stopPending <==> s.stopPending || (s.loopRunning && !t.result.value.Exits?)))
            && (s.stopPending && r != ExitRaised ==> t.stopPending)
  {
    hide Inv;
    NoneDue(s);
    if TimerDue(s) && !late {
      var i := PickMin(s.heap, pick);
      var s1 := s.(heap := s.heap[..i] + s.heap[i + 1..]);
      InvFire(s, i);
      InvLog(s1, s.heap[i]);
      InvDoAll(Fired(s1, s.heap[i]), s.heap[i].script);
    } else if s.channel != [] {
      var item, s1 := s.channel[0], s.(channel := s.channel[1..]);
      match item
      case Timer(_, _, _) =>
        InvPop(s);
        InvToHeap(s1, item);
      case Callback(_, script) =>
        InvPop(s);
        InvLog(s1, item);
        InvDoAll(Ran(s1, item), script);
      case DoStop => InvDoStop(s);
      case IsDone(_, _) => InvCapture(s);
    }
  }

  // The work left, which bounds the catch-up loop

  function ActionWork(a: Action): nat {
    match a
    case CallSoon(script) => 1 + ScriptWork(script)
    case CallAt(_, script) => 2 + ScriptWork(script)
    case Stop => 1
    case Resolve(_, _) => 2
  }

  function ScriptWork(script: seq<Action>): nat {
    if script == [] then 0 else ActionWork(script[0]) + ScriptWork(script[1..])
  }

  function ItemWork(item: Item): nat {
    match item
    case Callback(_, script) => 1 + ScriptWork(script)
    case Timer(_, _, script) => 2 + ScriptWork(script)
    case DoStop => 1
    case IsDone(_, _) => 2
  }

  function ChannelWork(channel: seq<Item>): nat {
    if channel == [] then 0 else ItemWork(channel[0]) + ChannelWork(channel[1..])
  }

  function HeapWork(heap: seq<Item>): nat {
    if heap == [] then 0 else ItemWork(heap[0]) - 1 + HeapWork(heap[1..])
  }

  function Work(s: State): nat {
    ChannelWork(s.channel) + HeapWork(s.heap)
  }

  lemma {:induction false} ChannelWorkAppend(a: seq<Item>, b: seq<Item>)
    ensures ChannelWork(a + b) == ChannelWork(a) + ChannelWork(b)
  {
    if a == [] {
      assert a + b == b;
    } else {
      ChannelWorkAppend(a[1..], b);
      assert (a + b)[1..] == a[1..] + b;
    }
  }

  lemma {:induction false} HeapWorkAppend(a: seq<Item>, b: seq<Item>)
    ensures HeapWork(a + b) == HeapWork(a) + HeapWork(b)
  {
    if a == [] {
      assert a + b == b;
    } else {
      HeapWorkAppend(a[1..], b);
      assert (a + b)[1..] == a[1..] + b;
    }
  }

  lemma HeapWorkRemove(heap: seq<Item>, i: nat)
    requires i < |heap|
    ensures HeapWork(heap) == HeapWork(heap[..i] + heap[i + 1..]) + ItemWork(heap[i]) - 1
  {
    hide ItemWork;
    var before, h, after := heap[..i], heap[i], heap[i + 1..];
    assert heap == before + ([h] + after);
    assert ([h] + after)[0] == h && ([h] + after)[1..] == after;
    HeapWorkAppend(before, [h] + after);
    HeapWorkAppend(before, after);
  }

  lemma DoWork(s: State, a: Action)
    ensures Work(Do(s, a)) <= Work(s) + ActionWork(a)
  {
    match a
    case CallSoon(script) => ChannelWorkAppend(s.channel, [Callback(|s.queued|, script)]);
    case CallAt(when, script) => ChannelWorkAppend(s.channel, [Timer(|s.queued|, when, script)]);
    case Stop => ChannelWorkAppend(s.channel, [DoStop]);
    case Resolve(k, _) => ChannelWorkAppend(s.channel, [IsDone(k, s.run)]);
  }

  lemma {:induction false} DoAllWork(s: State, script: seq<Action>)
    ensures Work(DoAll(s, script)) <= Work(s) + ScriptWork(script)
    decreases |script|
  {
    if script == [] {
    } else {
      DoWork(s, script[0]);
      DoAllWork(Do(s, script[0]), script[1..]);
    }
  }

  lemma IterateWork(s: State, pick: nat, late: bool)
    requires Inv(s)
    ensures var (t, r) := Iterate(s, pick, late); r == NothingToDo || Work(t) < Work(s)
  {
    hide Inv;
    if TimerDue(s) && !late {
      var i := PickMin(s.heap, pick);
      InvFire(s, i);
      HeapWorkRemove(s.heap, i);
      DoAllWork(Fired(s.(heap := s.heap[..i] + s.heap[i + 1..]), s.heap[i]), s.heap[i].script);
    } else if s.channel != [] {
      var item, s1 := s.channel[0], s.(channel := s.channel[1..]);
      match item
      case Timer(_, _, _) => HeapWorkAppend(s.heap, [item]);
      case Callback(_, script) => DoAllWork(Ran(s1, item), script);
      case DoStop =>
      case IsDone(_, _) => ChannelWorkAppend(s1.channel, [DoStop]);
    }
  }

  // Repeated runs

  datatype Event =
    | Act(a: Action)              // a callback queued from outside, or other code at an await
    | Later(elapsed: nat)
    | Iteration(pick: nat, late: bool)   // of the main loop or of the catch-up loop
    | BeginRun(future: nat)       // run_until_complete
    | BeginForever                // run_forever
    | EndRun                      // of either, also by an exception

  function Step(s: State, e: Event): State {
    match e
    case Act(a) => Do(s, a)
    case Later(d) => s.(now := s.now + d)
    case Iteration(pick, late) => if s.loopRunning then Iterate(s, pick, late).0 else s
    case BeginRun(k) =>
      if s.loopRunning then s
      else
        var s1 := s.(loopRunning := true, run := s.run + 1, waited := Some(k), result := None);
        if k in s.done then Push(s1, IsDone(k, s1.run)) else s1
    case BeginForever =>
      if s.loopRunning then s else s.(loopRunning := true, run := s.run + 1, waited := None, result := None)
    case EndRun => s.(loopRunning := false, waited := None, result := None)
  }

  function Run(s: State, events: seq<Event>): State
    decreases |events|
  {
    if events == [] then s else Run(Step(s, events[0]), events[1..])
  }

  lemma InvStep(s: State, e: Event)
    requires Inv(s)
    ensures Inv(Step(s, e))
  {
    match e
    case Act(a) => InvDo(s, a);
    case Iteration(pick, late) => InvIterate(s, pick, late);
    case BeginRun(k) => InvBeginRun(s, k);
    case _ =>
  }

  lemma InvBeginRun(s: State, k: nat)
    requires Inv(s)
    ensures Inv(Step(s, BeginRun(k)))
  {
    NoneCurrent(s.channel, s.run + 1);
    StopsAppend(s.channel, [IsDone(k, s.run + 1)]);
    DonesAppend(s.channel, [IsDone(k, s.run + 1)], s.run + 1);
  }

  lemma {:induction false} NoneCurrent(channel: seq<Item>, run: nat)
    requires forall item <- channel :: !Current(item, run)
    ensures Dones(channel, run) == 0
  {
    if channel != [] { NoneCurrent(channel[1..], run); }
  }

  /** Over any number of runs, whatever is queued, stopped or resolved and whenever: a stop
      is pending exactly when one do_stop is in the channel, and there is never a second. */
  lemma {:induction false} OneStopAtMost(s: State, events: seq<Event>)
    requires Inv(s)
    ensures var t := Run(s, events); Inv(t) && Stops(t.channel) == (if t.stopPending then 1 else 0)
    decreases |events|
  {
    if events == [] {
    } else {
      InvStep(s, events[0]);
      OneStopAtMost(Step(s, events[0]), events[1..]);
    }
  }

  // One run of the loop, from the request to the reply

  /** What other code does while the main loop is suspended, and then one iteration. */
  datatype Round = Round(meanwhile: seq<Action>, elapsed: nat, pick: nat, late: bool)

  function Suspend(s: State, round: Round): State {
    var t := DoAll(s, round.meanwhile);
    t.(now := t.now + round.elapsed)
  }

  function Turn(s: State, round: Round): (State, Result) {
    Iterate(Suspend(s, round), round.pick, round.late)
  }

  /** _main_loop: until a do_stop ends it, or for as long as `rounds` says. */
  function MainRun(s: State, rounds: seq<Round>): (State, bool)
    decreases |rounds|
  {
    if rounds == [] then (s, false)
    else
      var (t, r) := Turn(s, rounds[0]);
      if r == ExitRaised then (t, true) else MainRun(t, rounds[1..])
  }

  /** The loop after it: iterate until the outcome is captured or nothing is left to do; the
      clock advances by `clock(i)` before the i-th iteration. The first state is that before
      the last iteration. */
  ghost function CatchRun(s: State, picks: nat -> nat, clock: nat -> nat, i: nat): (State, State)
    requires Inv(s)
    decreases if s.result.None? then 1 + Work(s) else 0
  {
    if s.result.Some? then (s, s)
    else
      var s1 := s.(now := s.now + clock(i));
      LaterKeepsInv(s, clock(i));
      InvIterate(s1, picks(i), false);
      IterateWork(s1, picks(i), false);
      var (t, r) := Iterate(s1, picks(i), false);
      if r == NothingToDo then (s1, s1) else if t.result.Some? then (s1, t) else CatchRun(t, picks, clock, i + 1)
  }

  /** How a run_until_complete ends; `Refused`: runs cannot be nested; `StillRunning`: it has
      not ended, so far. */
  datatype RunResult = Finished(o: Outcome) | StoppedTooEarly | StillRunning | Refused

  /** The states of a run_until_complete whose main loop has been stopped: at the do_stop
      that ended the main loop, before the last iteration, and after it. */
  datatype Stages = Stages(stopped: State, before: State, last: State)

  /** run_until_complete. */
  ghost function RunOf(s: State, k: nat, rounds: seq<Round>, picks: nat -> nat, clock: nat -> nat): (State, RunResult)
    requires Inv(s)
  {
    var (m, stopped) := MainRun(Step(s, BeginRun(k)), rounds);
    if s.loopRunning then (s, Refused)
    else if !stopped then (m, StillRunning)
    else
      var last := StagesOf(s, k, rounds, picks, clock).last;
      (Step(last, EndRun), if last.result.Some? then Finished(last.result.value) else StoppedTooEarly)
  }

  ghost function StagesOf(s: State, k: nat, rounds: seq<Round>, picks: nat -> nat, clock: nat -> nat): Stages
    requires Inv(s) && !s.loopRunning && MainRun(Step(s, BeginRun(k)), rounds).1
  {
    InvBeginRun(s, k);
    MainRunKeeps(Step(s, BeginRun(k)), rounds);
    var m := MainRun(Step(s, BeginRun(k)), rounds).0;
    Stages(m, CatchRun(m, picks, clock, 0).0, CatchRun(m, picks, clock, 0).1)
  }

  lemma InvSuspend(s: State, round: Round)
    requires Inv(s)
    ensures var t := Suspend(s, round);
            && Inv(t) && t.waited == s.waited && t.run == s.run && t.loopRunning == s.loopRunning
            && t.result == s.result && (s.stopPending ==> t.stopPending)
  {
    InvDoAll(s, round.meanwhile);
    LaterKeepsInv(DoAll(s, round.meanwhile), round.elapsed);
  }

  lemma LaterKeepsWork(s: State, elapsed: nat)
    ensures Work(s.(now := s.now + elapsed)) == Work(s)
  {
  }

  lemma LaterKeepsInv(s: State, elapsed: nat)
    requires Inv(s)
    ensures Inv(s.(now := s.now + elapsed))
  {
  }

  lemma {:induction false} MainRunKeeps(s: State, rounds: seq<Round>)
    requires Inv(s)
    ensures var (m, stopped) := MainRun(s, rounds);
            && Inv(m) && m.waited == s.waited && m.run == s.run && m.loopRunning == s.loopRunning
            && (stopped ==> !m.stopPending)
    decreases |rounds|
  {
    hide Inv, Iterate, Suspend;
    if rounds != [] {
      InvSuspend(s, rounds[0]);
      InvIterate(Suspend(s, rounds[0]), rounds[0].pick, rounds[0].late);
      var (t, r) := Turn(s, rounds[0]);
      if r != ExitRaised { MainRunKeeps(t, rounds[1..]); }
    }
  }

  lemma {:induction false} CatchRunKeeps(s: State, picks: nat -> nat, clock: nat -> nat, i: nat)
    requires Inv(s) && s.loopRunning
    ensures var (before, last) := CatchRun(s, picks, clock, i);
            && Inv(last) && last.waited == s.waited && last.run == s.run && last.loopRunning
            && (s.result.Some? ==> last == s)
            && (last.result.None? ==> last.channel == [] && forall x <- last.heap :: last.now < When(x))
            && (s.result.None? && last.result.Some? ==>
                  (last.stopPending <==> before.stopPending || !last.result.value.Exits?))
    decreases if s.result.None? then 1 + Work(s) else 0
  {
    hide Inv, Iterate, Work;
    if s.result.None? {
      var s1 := s.(now := s.now + clock(i));
      LaterKeepsInv(s, clock(i));
      InvIterate(s1, picks(i), false);
      IterateWork(s1, picks(i), false);
      assert Work(s1) == Work(s) by { LaterKeepsWork(s, clock(i)); }
      var (t, r) := Iterate(s1, picks(i), false);
      if r != NothingToDo && t.result.None? { CatchRunKeeps(t, picks, clock, i + 1); }
    }
  }

  /** run_until_complete returns or raises the future's own outcome, if the future is done by
      the time nothing is left to run; otherwise it says that the loop was stopped too
      early. It leaves nothing of itself behind but, perhaps, a stop. */
  lemma RunReturnsTheOutcome(s: State, k: nat, rounds: seq<Round>, picks: nat -> nat, clock: nat -> nat)
    requires Inv(s)
    ensures var (t, r) := RunOf(s, k, rounds, picks, clock);
            && Inv(t)
            && (r.Refused? <==> s.loopRunning) && (r.Refused? ==> t == s)
            && (r.StillRunning? <==> !s.loopRunning && t.loopRunning)
            && (r.Finished? || r.StoppedTooEarly? ==> t.waited.None? && t.result.None?)
            && (r.Finished? ==> k in t.done && r.o == t.done[k])
            && (r.StoppedTooEarly? ==> k !in t.done && t.channel == [] && !t.stopPending
                                       && forall x <- t.heap :: t.now < When(x))
  {
    hide Inv, MainRun, CatchRun;
    var b := Step(s, BeginRun(k));
    InvBeginRun(s, k);
    MainRunKeeps(b, rounds);
    var (m, stopped) := MainRun(b, rounds);
    if stopped && !s.loopRunning {
      CatchRunKeeps(m, picks, clock, 0);
      EndOfRun(CatchRun(m, picks, clock, 0).1, k);
    }
  }

  lemma EndOfRun(s: State, k: nat)
    requires Inv(s) && s.waited == Some(k)
    ensures Inv(Step(s, EndRun))
    ensures s.result.Some? ==> k in s.done && s.result == Some(s.done[k])
    ensures s.result.None? && s.channel == [] ==> k !in s.done && !s.stopPending
  {
  }

  /** When a stop outlives its run: exactly if the main loop was ended by a do_stop before
      is_done had captured the outcome (one that stop() or an earlier run had queued, then),
      the catch-up loop captured it, and it was no exit. After an exit a stop is left
      exactly if one was pending before the capture. */
  lemma StopLeftIff(s: State, k: nat, rounds: seq<Round>, picks: nat -> nat, clock: nat -> nat)
    requires Inv(s) && !s.loopRunning && MainRun(Step(s, BeginRun(k)), rounds).1
    ensures var (t, r) := RunOf(s, k, rounds, picks, clock);
            var stages := StagesOf(s, k, rounds, picks, clock);
            t.stopPending <==>
              stages.stopped.result.None? && r.Finished? && (r.o.Exits? ==> stages.before.stopPending)
  {
    hide Inv, MainRun, CatchRun;
    var b := Step(s, BeginRun(k));
    InvBeginRun(s, k);
    MainRunKeeps(b, rounds);
    var m := MainRun(b, rounds).0;
    CatchRunKeeps(m, picks, clock, 0);
    EndOfRun(CatchRun(m, picks, clock, 0).1, k);
  }

  // The run after one that has left a stop

  /** What is taken from the channel before the first do_stop. */
  function Ahead(channel: seq<Item>): seq<Item> {
    if channel == [] || channel[0].DoStop? then [] else [channel[0]] + Ahead(channel[1..])
  }

  function Behind(channel: seq<Item>): seq<Item> {
    if channel == [] then [] else if channel[0].DoStop? then channel[1..] else Behind(channel[1..])
  }

  /** Iterations until that do_stop; a timer counts twice. */
  function StopRank(s: State): nat {
    1 + 2 * |Ahead(s.channel)| + |s.heap|
  }

  lemma {:induction false} AheadAppend(a: seq<Item>, b: seq<Item>)
    ensures Stops(a) > 0 ==> Ahead(a + b) == Ahead(a) && Behind(a + b) == Behind(a) + b
    ensures forall item <- Ahead(a) :: item in a
  {
    if a != [] {
      AheadAppend(a[1..], b);
      assert (a + b)[1..] == a[1..] + b;
    }
  }

  /** A do_stop is in the channel, and the is_done of this run is not before it. */
  ghost predicate StopFirst(s: State) {
    && s.stopPending && Stops(s.channel) == 1
    && (forall item <- Ahead(s.channel) :: !Current(item, s.run))
    && s.result.None?
    && (forall item <- s.heap :: item.Timer?)
  }

  lemma DoKeepsFirst(s: State, a: Action)
    requires StopFirst(s)
    ensures var t := Do(s, a);
            StopFirst(t) && Ahead(t.channel) == Ahead(s.channel) && Behind(s.channel) <= Behind(t.channel)
  {
    match a
    case CallSoon(script) => AppendKeepsFirst(s, [Callback(|s.queued|, script)]);
    case CallAt(when, script) => AppendKeepsFirst(s, [Timer(|s.queued|, when, script)]);
    case Stop =>
    case Resolve(k, _) => AppendKeepsFirst(s, [IsDone(k, s.run)]);
  }

  lemma AppendKeepsFirst(s: State, more: seq<Item>)
    requires StopFirst(s) && forall item <- more :: !item.DoStop?
    ensures StopFirst(s.(channel := s.channel + more)) && Ahead(s.channel + more) == Ahead(s.channel)
    ensures Behind(s.channel) <= Behind(s.channel + more)
  {
    StopsAppend(s.channel, more);
    AheadAppend(s.channel, more);
    NoStops(more);
  }

  lemma {:induction false} NoStops(items: seq<Item>)
    requires forall item <- items :: !item.DoStop?
    ensures Stops(items) == 0
  {
    if items != [] { NoStops(items[1..]); }
  }

  lemma {:induction false} DoAllKeepsFirst(s: State, script: seq<Action>)
    requires StopFirst(s)
    ensures var t := DoAll(s, script);
            && StopFirst(t) && Ahead(t.channel) == Ahead(s.channel) && Behind(s.channel) <= Behind(t.channel)
            && t.heap == s.heap && t.run == s.run
    decreases |script|
  {
    hide StopFirst, Do;
    if script != [] {
      DoKeepsFirst(s, script[0]);
      DoSteady(s, script[0]);
      DoAllKeepsFirst(Do(s, script[0]), script[1..]);
    }
  }

  lemma PopKeepsFirst(s: State)
    requires StopFirst(s) && s.channel != [] && !s.channel[0].DoStop?
    ensures var t := s.(channel := s.channel[1..]);
            && StopFirst(t) && Ahead(s.channel) == [s.channel[0]] + Ahead(t.channel) && !Current(s.channel[0], s.run)
            && Behind(s.channel) == Behind(t.channel)
  {
    assert s.channel[0] in Ahead(s.channel);
  }

  lemma IterateKeepsFirst(s: State, pick: nat, late: bool)
    requires StopFirst(s)
    ensures var (t, r) := Iterate(s, pick, late);
            && t.result.None?
            && (if r == ExitRaised then Behind(s.channel) <= t.channel
                else StopFirst(t) && StopRank(t) < StopRank(s) && Behind(s.channel) <= Behind(t.channel))
  {
    if TimerDue(s) && !late {
      var i := PickMin(s.heap, pick);
      var s1 := s.(heap := s.heap[..i] + s.heap[i + 1..]);
      assert s.heap[i].Timer? && StopFirst(Fired(s1, s.heap[i]));
      DoAllKeepsFirst(Fired(s1, s.heap[i]), s.heap[i].script);
    } else {
      var item, s1 := s.channel[0], s.(channel := s.channel[1..]);
      if !item.DoStop? {
        PopKeepsFirst(s);
        match item
        case Timer(_, _, _) => assert StopFirst(s1.(heap := s1.heap + [item]));
        case Callback(_, script) => DoAllKeepsFirst(Ran(s1, item), script);
        case IsDone(_, _) =>
      }
    }
  }

  /** A main loop with a do_stop ahead of its is_done is ended by that do_stop, with the
      outcome not yet captured and all that was behind the do_stop still in the channel,
      after StopRank iterations at most, whatever other code does. */
  lemma {:induction false} StopFirstEndsRun(s: State, rounds: seq<Round>)
    requires StopFirst(s)
    ensures var (m, stopped) := MainRun(s, rounds);
            && m.result.None? && (stopped ==> Behind(s.channel) <= m.channel)
            && (|rounds| >= StopRank(s) ==> stopped)
    decreases |rounds|
  {
    hide StopFirst, Iterate, StopRank;
    FirstIsUncaptured(s);
    if rounds != [] {
      var round := rounds[0];
      SuspendKeepsFirst(s, round);
      IterateKeepsFirst(Suspend(s, round), round.pick, round.late);
      var (t, r) := Turn(s, round);
      if r != ExitRaised { StopFirstEndsRun(t, rounds[1..]); }
    }
  }

  lemma FirstIsUncaptured(s: State)
    requires StopFirst(s)
    ensures s.result.None? && StopRank(s) > 0
  {
  }

  lemma SuspendKeepsFirst(s: State, round: Round)
    requires StopFirst(s)
    ensures var t := Suspend(s, round);
            StopFirst(t) && StopRank(t) == StopRank(s) && Behind(s.channel) <= Behind(t.channel)
  {
    DoAllKeepsFirst(s, round.meanwhile);
  }

  lemma BeginsBehindStop(s: State, k: nat)
    requires Inv(s) && s.stopPending && !s.loopRunning
    ensures var t := Step(s, BeginRun(k));
            StopFirst(t) && StopRank(t) == StopRank(s) && Behind(s.channel) <= Behind(t.channel)
  {
    StopsAppend(s.channel, [IsDone(k, s.run + 1)]);
    AheadAppend(s.channel, [IsDone(k, s.run + 1)]);
  }

  /** A stop that has outlived its run ends the next one's main loop within StopRank
      iterations, before anything that was queued behind it. That run then either is
      stopped too early, or leaves a stop behind in its turn, unless its future ends by an
      exit. */
  lemma StopEndsTheNextRun(s: State, k: nat, rounds: seq<Round>, picks: nat -> nat, clock: nat -> nat)
    requires Inv(s) && s.stopPending && !s.loopRunning && |rounds| >= StopRank(s)
    ensures var (m, stopped) := MainRun(Step(s, BeginRun(k)), rounds); stopped && Behind(s.channel) <= m.channel
    ensures var (t, r) := RunOf(s, k, rounds, picks, clock);
            r.StoppedTooEarly? || (r.Finished? && (r.o.Exits? || t.stopPending))
  {
    hide Inv, StopFirst, StopRank, MainRun, CatchRun, Behind;
    BeginsBehindStop(s, k);
    StopFirstEndsRun(Step(s, BeginRun(k)), rounds);
    StopLeftIff(s, k, rounds, picks, clock);
    RunReturnsTheOutcome(s, k, rounds, picks, clock);
  }

  /** It ends a run_forever, too. */
  lemma StopEndsRunForever(s: State, rounds: seq<Round>)
    requires Inv(s) && s.stopPending && !s.loopRunning && |rounds| >= StopRank(s)
    ensures var (m, stopped) := MainRun(Step(s, BeginForever), rounds); stopped && Behind(s.channel) <= m.channel
  {
    hide StopFirst, MainRun;
    ForeverBehindStop(s);
    StopFirstEndsRun(Step(s, BeginForever), rounds);
  }

  lemma ForeverBehindStop(s: State)
    requires Inv(s) && s.stopPending && !s.loopRunning
    ensures StopFirst(Step(s, BeginForever))
  {
    AheadAppend(s.channel, []);
  }

  /** It does happen. Here stop() is called in the first run before the future gets done:
      the main loop ends on the do_stop, the catch-up loop captures the outcome, and
      is_done calls stop() again with nobody left to obey it. */
  lemma StopOutlivesItsRun(now: int, picks: nat -> nat, clock: nat -> nat)
    ensures var rounds := [Round([Stop, Resolve(0, Value(1))], 0, 0, false)];
            var (t, r) := RunOf(Fresh(now), 0, rounds, picks, clock);
            r == Finished(Value(1)) && t.stopPending && t.channel == [DoStop]
  {
    var round := Round([Stop, Resolve(0, Value(1))], 0, 0, false);
    var b := Step(Fresh(now), BeginRun(0));
    var s1 := Do(Do(b, Stop), Resolve(0, Value(1)));
    assert round.meanwhile[1..] == [Resolve(0, Value(1))];
    assert Suspend(b, round) == s1 && s1.channel == [DoStop, IsDone(0, 1)];
    var m := Ran(s1.(channel := [IsDone(0, 1)]), DoStop).(stopPending := false);
    assert s1.channel[1..] == [IsDone(0, 1)];
    assert Turn(b, round) == (m, ExitRaised);
    assert MainRun(b, [round]) == (m, true);
  }
}

/** The loop object. */
module SyncLoops {
  import opened Options
  import opened SyncProtocol

  class SyncTrioEventLoop {
    var now: int
    var channel: seq<Item>
    var timers: seq<Item>
    var loopRunning: bool
    var stopPending: bool
    var done: map<nat, Outcome>
    var run: nat
    var waited: Option<nat>
    var result: Option<Outcome>
    var queued: seq<Item>
    ghost var ran: seq<Item>
    ghost var fired: seq<Item>
    ghost var firedAt: seq<int>

    ghost function Model(): State
      reads this
    {
      State(now, channel, timers, loopRunning, stopPending, done, run, waited, result, queued, ran, fired, firedAt)
    }

    ghost predicate Valid()
      reads this
    {
      Inv(Model())
    }

    constructor (time: int)
      ensures Valid() && Model() == Fresh(time)
    {
      now, channel, timers, loopRunning, stopPending := time, [], [], false, false;
      done, run, waited, result := map[], 0, None, None;
      queued, ran, fired, firedAt := [], [], [], [];
    }

    /** _queue_handle. */
    method QueueItem(item: Item)
      modifies this`channel, this`queued
      ensures Model() == Push(old(Model()), item)
    {
      channel := channel + [item];
      queued := queued + [item];
    }

    method StopIt()
      requires Valid()
      modifies this`stopPending, this`channel, this`queued
      ensures Valid() && Model() == StopLoop(old(Model()))
    {
      InvStopLoop(Model());
      if loopRunning && !stopPending {
        stopPending := true;
        QueueItem(DoStop);
      }
    }

    method Perform(a: Action)
      requires Valid()
      modifies this`stopPending, this`channel, this`queued, this`done
      ensures Valid() && Model() == Do(old(Model()), a)
    {
      InvDo(Model(), a);
      match a {
        case CallSoon(script) => QueueItem(Callback(|queued|, script));
        case CallAt(when, script) => QueueItem(Timer(|queued|, when, script));
        case Stop => StopIt();
        case Resolve(k, o) =>
          if k !in done {
            done := done[k := o];
            if waited == Some(k) { QueueItem(IsDone(k, run)); }
          }
      }
    }

    method RunScript(script: seq<Action>)
      requires Valid()
      modifies this`stopPending, this`channel, this`queued, this`done
      ensures Valid() && Model() == DoAll(old(Model()), script)
    {
      hide Inv, Do;
      for i := 0 to |script|
        invariant Valid() && DoAll(Model(), script[i..]) == DoAll(old(Model()), script)
      {
        assert script[i..][1..] == script[i + 1..];
        Perform(script[i]);
      }
    }

    /** is_done, for the run `of`. */
    method CaptureOutcome(k: nat, of: nat)
      modifies this
      ensures Model() == Capture(old(Model()), k, of)
    {
      if k in done {
        if waited.Some? && run == of { result := Some(done[k]); }
        if !done[k].Exits? && loopRunning && !stopPending {
          stopPending := true;
          QueueItem(DoStop);
        }
      }
    }

    /** Runs one item that has been taken from its place, in the heap for a timer, at the
        head of the channel for the rest. */
    method RunTaken(item: Item) returns (r: Result)
      requires if item.Timer? then Valid() else Inv(Model().(channel := [item] + channel))
      modifies this
      ensures Valid() && (Model(), r) == RunItem(old(Model()), item)
    {
      hide Inv, Do, Capture;
      ghost var s := Model().(channel := [item] + channel);
      assert s.channel[1..] == channel && s.(channel := s.channel[1..]) == Model();
      match item {
        case DoStop =>
          InvDoStop(s);
          ran := ran + [item];
          stopPending := false;
          return ExitRaised;
        case IsDone(k, of) =>
          InvCapture(s);
          ran := ran + [item];
          CaptureOutcome(k, of);
          return Continue;
        case Callback(_, script) =>
          InvPop(s);
          InvLog(Model(), item);
          ran := ran + [item];
          RunScript(script);
          return Continue;
        case Timer(_, _, script) =>
          InvLog(Model(), item);
          fired, firedAt := fired + [item], firedAt + [now];
          RunScript(script);
          return Continue;
      }
    }

    /** _main_loop_one. */
    method MainLoopOne(pick: nat, late: bool) returns (r: Result)
      requires Valid()
      modifies this
      ensures Valid() && (Model(), r) == Iterate(old(Model()), pick, late)
    {
      hide Inv, RunItem;
      if timers != [] && !late {
        var i := PickMin(timers, pick);
        FirstIsMin(timers, i);
        if When(timers[i]) - now <= 0 {
          var item := timers[i];
          InvFire(Model(), i);
          timers := timers[..i] + timers[i + 1..];
          r := RunTaken(item);
          return;
        }
      }
      if channel == [] {
        return NothingToDo;
      }
      var item := channel[0];
      if item.Timer? {
        InvPop(Model());
        channel := channel[1..];
        InvToHeap(Model(), item);
        timers := timers + [item];
        return Continue;
      }
      assert channel == [item] + channel[1..];
      channel := channel[1..];
      r := RunTaken(item);
    }

    static lemma FirstIsMin(heap: seq<Item>, i: nat)
      requires IsMin(heap, i)
      ensures When(heap[i]) == When(heap[FirstMin(heap)])
    {
      assert heap[i] in heap && heap[FirstMin(heap)] in heap;
    }

    /** What happens while the loop is suspended at an await. */
    method Suspended(round: Round)
      requires Valid()
      modifies this
      ensures Valid() && Model() == Suspend(old(Model()), round)
    {
      hide Inv;
      InvSuspend(Model(), round);
      RunScript(round.meanwhile);
      now := now + round.elapsed;
    }

    /** _main_loop. It ends only by a do_stop; each round is one iteration. */
    method MainLoop(rounds: seq<Round>) returns (stopped: bool)
      requires Valid()
      modifies this
      ensures Valid() && (Model(), stopped) == MainRun(old(Model()), rounds)
    {
      hide Inv, Iterate, Suspend;
      for i := 0 to |rounds|
        invariant Valid() && MainRun(Model(), rounds[i..]) == MainRun(old(Model()), rounds)
      {
        assert rounds[i..][1..] == rounds[i + 1..];
        Suspended(rounds[i]);
        var r := MainLoopOne(rounds[i].pick, rounds[i].late);
        if r == ExitRaised {
          return true;
        }
      }
      return false;
    }

    /** The loop after the main loop of a run_until_complete: it runs what is left until the
        outcome has been captured or nothing is left to do. */
    method CatchUp(picks: nat -> nat, clock: nat -> nat)
      requires Valid()
      modifies this
      ensures Valid() && Model() == CatchRun(old(Model()), picks, clock, 0).1
    {
      hide Inv, Iterate, Work;
      var i := 0;
      while result.None?
        invariant Valid() && CatchRun(Model(), picks, clock, i).1 == CatchRun(old(Model()), picks, clock, 0).1
        decreases if result.None? then 1 + Work(Model()) else 0
      {
        LaterKeepsInv(Model(), clock(i));
        LaterKeepsWork(Model(), clock(i));
        now := now + clock(i);
        InvIterate(Model(), picks(i), false);
        IterateWork(Model(), picks(i), false);
        var r := MainLoopOne(picks(i), false);
        if r == NothingToDo {
          return;
        }
        i := i + 1;
      }
    }

    /** The run has been requested, and is_done is registered with the future. */
    method Begin(future: nat)
      requires Valid() && !loopRunning
      modifies this
      ensures Valid() && Model() == Step(old(Model()), BeginRun(future))
    {
      hide Inv;
      InvBeginRun(Model(), future);
      loopRunning := true;
      run := run + 1;
      waited := Some(future);
      result := None;
      if future in done {
        QueueItem(IsDone(future, run));
      }
    }

    /** run_until_complete, from the request to the reply. */
    method RunUntilComplete(future: nat, rounds: seq<Round>, picks: nat -> nat, clock: nat -> nat)
      returns (r: RunResult)
      requires Valid()
      modifies this
      ensures Valid() && (Model(), r) == RunOf(old(Model()), future, rounds, picks, clock)
    {
      hide Inv, MainRun, CatchRun;
      RunReturnsTheOutcome(Model(), future, rounds, picks, clock);
      if loopRunning {
        return Refused;
      }
      Begin(future);
      var stopped := MainLoop(rounds);
      if !stopped {
        return StillRunning;
      }
      CatchUp(picks, clock);
      r := if result.Some? then Finished(result.value) else StoppedTooEarly;
      waited := None;
      result := None;
      loopRunning := false;
    }
  }
}
