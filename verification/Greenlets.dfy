/** The greenlet switches of the synchronous loops. Each loop has a greenlet of its own in
    which a Trio run lives; the run's context is a variable of the whole thread, so every
    switch has to put it away and bring back the other side's. */
module Greenlets {
  import opened Options

  /** The contents of Trio's global run context. */
  datatype Context = Empty | Of(run: nat)

  /** Why a greenlet is suspended in a switch: a loop that waits for its next request, or
      code that waits for a loop to start, to answer or to end. */
  datatype Reason = NextRequest | StartOf(loop: nat) | AnswerOf(loop: nat, request: nat) | EndOf(loop: nat)

  /** A greenlet suspended inside clean_trio_state, with what that has saved. */
  datatype Suspended = Suspended(saved: Context, reason: Reason)

  datatype Phase =
    | Starting(parent: nat)
    | Parked                              // waiting for a request
    | Executing(caller: nat, request: nat)
    | Closing(parent: nat)
    | Dead

  datatype Answer = Answer(request: nat, to: nat)

  const ROOT: nat := 0

  datatype State = State(
    context: Context,
    current: nat,                  // the greenlet that runs
    suspended: map<nat, Suspended>,
    loops: map<nat, Phase>,        // by the loop's greenlet
    runningLoop: Option<nat>,      // asyncio's running loop
    loopRunning: set<nat>,         // the loops with _loop_running set
    // history
    rootContext: Context,          // what the root greenlet itself has entered
    entered: seq<Context>,         // the context found by each greenlet that was switched to
    asked: seq<nat>,               // the caller of each request
    answers: seq<Answer>,
    badSwitch: bool)               // a switch to a greenlet that waits for something else

  datatype Event =
    | Create(loop: nat)     // SyncTrioEventLoop(), by whoever runs
    | Started               // __trio_main says so to its parent
    | Request(loop: nat)    // __run_in_greenlet
    | Reply                 // the loop hands the result to the caller
    | Close(loop: nat)
    | Ended                 // the loop's Trio run is over and its greenlet dies
    | TrioBegins            // the root greenlet enters a Trio run of its own
    | TrioEnds

  function Initial(): State {
    State(Empty, ROOT, map[], map[], None, {}, Empty, [], [], [], false)
  }

  /** `with clean_trio_state(): other.switch()`, up to the switch. */
  function Leave(s: State, reason: Reason): State {
    s.(suspended := s.suspended[s.current := Suspended(s.context, reason)], context := Empty)
  }

  /** A greenlet runs for the first time: it finds what the switching side has left. */
  function EnterNew(s: State, g: nat): State {
    s.(current := g, entered := s.entered + [s.context])
  }

  /** The rest of clean_trio_state, in the greenlet that is switched to. */
  function Resume(s: State, g: nat, expected: Reason): State {
    if g !in s.suspended || s.suspended[g].reason != expected then s.(badSwitch := true)
    else
      s.(current := g, entered := s.entered + [s.context],
         context := s.suspended[g].saved, suspended := s.suspended - {g})
  }

  /** Whether user code, rather than a loop's own start, is running. */
  predicate UserCode(s: State) {
    s.current == ROOT || (s.current in s.loops && (s.loops[s.current].Executing? || s.loops[s.current].Closing?))
  }

  function Step(s: State, e: Event): State {
    match e
    case Create(l) =>
      if !UserCode(s) || l in s.loops || l == ROOT then s
      else
        var s1 := EnterNew(Leave(s, StartOf(l)), l);
        s1.(context := Of(l), loops := s.loops[l := Starting(s.current)])
    case Started =>
      if s.current !in s.loops || !s.loops[s.current].Starting? then s
      else
        var l, parent := s.current, s.loops[s.current].parent;
        Resume(Leave(s.(loops := s.loops[l := Parked]), NextRequest), parent, StartOf(l))
    case Request(l) =>
      if !UserCode(s) || l !in s.loops || !s.loops[l].Parked? || s.runningLoop.Some? || l in s.loopRunning then s
      else
        var n := |s.asked|;
        var s1 := Resume(Leave(s, AnswerOf(l, n)), l, NextRequest);
        s1.(loops := s.loops[l := Executing(s.current, n)], asked := s.asked + [s.current],
            runningLoop := Some(l), loopRunning := s.loopRunning + {l})
    case Reply =>
      if s.current !in s.loops || !s.loops[s.current].Executing? then s
      else
        var l, phase := s.current, s.loops[s.current];
        var s1 := s.(runningLoop := None, loopRunning := s.loopRunning - {l}, loops := s.loops[l := Parked],
                     answers := s.answers + [Answer(phase.request, phase.caller)]);
        Resume(Leave(s1, NextRequest), phase.caller, AnswerOf(l, phase.request))
    case Close(l) =>
      if !UserCode(s) || l !in s.loops || !s.loops[l].Parked? then s
      else
        var s1 := Resume(Leave(s, EndOf(l)), l, NextRequest);
        s1.(loops := s.loops[l := Closing(s.current)])
    case Ended =>
      if s.current !in s.loops || !s.loops[s.current].Closing? then s
      else
        // the Trio run has cleared its context, and the dead greenlet's parent goes on
        var l, parent := s.current, s.loops[s.current].parent;
        Resume(s.(context := Empty, loops := s.loops[l := Dead]), parent, EndOf(l))
    case TrioBegins =>
      if s.current == ROOT && s.context == Empty then s.(context := Of(ROOT), rootContext := Of(ROOT)) else s
    case TrioEnds =>
      if s.current == ROOT then s.(context := Empty, rootContext := Empty) else s
  }

  function Run(s: State, events: seq<Event>): State
    decreases |events|
  {
    if events == [] then s else Run(Step(s, events[0]), events[1..])
  }

  /** The context a greenlet lives in: a loop's own Trio run, and for the root whatever it
      has entered itself. */
  function Own(s: State, g: nat): Context {
    if g == ROOT then s.rootContext else Of(g)
  }

  /** What the phase of a loop says about who waits for it. */
  ghost predicate PhaseOk(s: State, l: nat)
    requires l in s.loops
  {
    match s.loops[l]
    case Parked => l in s.suspended && s.suspended[l].reason == NextRequest && l != s.current
    case Starting(p) => l == s.current && p in s.suspended && s.suspended[p].reason == StartOf(l) && p != l
    case Executing(c, n) =>
      && n < |s.asked| && s.asked[n] == c && c != l
      && c in s.suspended && s.suspended[c].reason == AnswerOf(l, n)
      && (forall a <- s.answers :: a.request != n)
      && (l == s.current || (l in s.suspended && (s.suspended[l].reason.StartOf? || s.suspended[l].reason.EndOf?)))
    case Closing(p) =>
      && p in s.suspended && s.suspended[p].reason == EndOf(l) && p != l
      && (l == s.current
          || (l in s.suspended && !s.suspended[l].reason.NextRequest?))
    case Dead => l != s.current && l !in s.suspended
  }

  ghost predicate Shape(s: State) {
    && ROOT !in s.loops
    && (s.current == ROOT || (s.current in s.loops && !s.loops[s.current].Dead? && !s.loops[s.current].Parked?))
    && s.current !in s.suspended
    && (forall l <- s.loops :: PhaseOk(s, l))
    && (forall g <- s.suspended :: g == ROOT || g in s.loops)
  }

  ghost predicate Clean(s: State) {
    && !s.badSwitch
    && s.context == Own(s, s.current)
    && (forall g <- s.suspended :: s.suspended[g].saved == Own(s, g))
    && (forall c <- s.entered :: c == Empty)
  }

  ghost predicate Counted(s: State) {
    && (forall l :: l in s.loopRunning <==> l in s.loops && s.loops[l].Executing?)
    && (forall l <- s.loops :: s.loops[l].Executing? <==> s.runningLoop == Some(l))
    && (s.runningLoop.Some? ==> s.runningLoop.value in s.loops)
    && (forall a <- s.answers :: a.request < |s.asked| && a.to == s.asked[a.request])
    && (forall i, j | 0 <= i < j < |s.answers| :: s.answers[i].request != s.answers[j].request)
  }

  ghost predicate Inv(s: State) {
    Shape(s) && Clean(s) && Counted(s)
  }

  lemma StepClean(s: State, e: Event)
    requires Shape(s) && Clean(s)
    ensures Clean(Step(s, e))
  {
    if e.Started? || e.Reply? || e.Ended? { BackClean(s, e); } else { AwayClean(s, e); }
  }

  /** A loop hands over to whoever waits for it. */
  lemma BackClean(s: State, e: Event)
    requires Shape(s) && Clean(s) && (e.Started? || e.Reply? || e.Ended?)
    ensures Clean(Step(s, e))
  {
    if s.current in s.loops { assert PhaseOk(s, s.current); }
  }

  lemma AwayClean(s: State, e: Event)
    requires Shape(s) && Clean(s) && !e.Started? && !e.Reply? && !e.Ended?
    ensures Clean(Step(s, e))
  {
  }

  lemma StepCounted(s: State, e: Event)
    requires Shape(s) && Counted(s)
    ensures Counted(Step(s, e))
  {
    hide Clean;
    match e
    case Reply => ReplyCounted(s);
    case Request(l) => RequestCounted(s, l);
    case _ => OtherCounted(s, e);
  }

  lemma ReplyCounted(s: State)
    requires Shape(s) && Counted(s)
    ensures Counted(Step(s, Reply))
  {
    if s.current in s.loops { assert PhaseOk(s, s.current); }
  }

  lemma RequestCounted(s: State, l: nat)
    requires Counted(s)
    ensures Counted(Step(s, Request(l)))
  {
  }

  lemma OtherCounted(s: State, e: Event)
    requires Counted(s) && !e.Reply? && !e.Request?
    ensures Counted(Step(s, e))
  {
  }

  lemma CreateShape(s: State, l: nat)
    requires Shape(s)
    ensures Shape(Step(s, Create(l)))
  {
    var t := Step(s, Create(l));
    forall k | k in t.loops ensures PhaseOk(t, k) {
      if k in s.loops { assert PhaseOk(s, k); }
    }
  }

  lemma StartedShape(s: State)
    requires Shape(s)
    ensures Shape(Step(s, Started))
  {
    if s.current in s.loops && s.loops[s.current].Starting? {
      var t := Step(s, Started);
      assert PhaseOk(s, s.current);
      forall l | l in t.loops ensures PhaseOk(t, l) {
        assert PhaseOk(s, l);
      }
    }
  }

  lemma RequestShape(s: State, l: nat)
    requires Shape(s) && Counted(s)
    ensures Shape(Step(s, Request(l)))
  {
    var t := Step(s, Request(l));
    forall k | k in t.loops ensures PhaseOk(t, k) {
      if k in s.loops { assert PhaseOk(s, k); }
    }
  }

  lemma ReplyShape(s: State)
    requires Shape(s)
    ensures Shape(Step(s, Reply))
  {
    if s.current in s.loops && s.loops[s.current].Executing? {
      var t := Step(s, Reply);
      assert PhaseOk(s, s.current);
      forall l | l in t.loops ensures PhaseOk(t, l) {
        assert PhaseOk(s, l);
      }
    }
  }

  lemma CloseShape(s: State, l: nat)
    requires Shape(s)
    ensures Shape(Step(s, Close(l)))
  {
    var t := Step(s, Close(l));
    forall k | k in t.loops ensures PhaseOk(t, k) {
      assert PhaseOk(s, k);
    }
  }

  lemma EndedShape(s: State)
    requires Shape(s)
    ensures Shape(Step(s, Ended))
  {
    var t := Step(s, Ended);
    forall k | k in t.loops ensures PhaseOk(t, k) {
      assert PhaseOk(s, k);
    }
  }

  lemma InvStep(s: State, e: Event)
    requires Inv(s)
    ensures Inv(Step(s, e))
  {
    StepClean(s, e);
    StepCounted(s, e);
    hide Clean, Counted, Leave, Resume, EnterNew;
    match e
    case Create(l) => CreateShape(s, l);
    case Started => StartedShape(s);
    case Request(l) => RequestShape(s, l);
    case Reply => ReplyShape(s);
    case Close(l) => CloseShape(s, l);
    case Ended => EndedShape(s);
    case _ =>
  }

  lemma {:induction false} InvRun(s: State, events: seq<Event>)
    requires Inv(s)
    ensures Inv(Run(s, events))
    decreases |events|
  {
    if events == [] {
    } else {
      InvStep(s, events[0]);
      InvRun(Step(s, events[0]), events[1..]);
    }
  }

  /** For any nesting of loops: no switch reaches a greenlet that waits for anything else;
      every greenlet is entered with an empty context; the greenlet that runs has its own
      context back, and the others' are put away; each request is answered at most once,
      to its own caller; and a loop counts as running exactly while it executes one. */
  lemma SwitchesAreClean(events: seq<Event>)
    ensures var s := Run(Initial(), events);
            && !s.badSwitch
            && (forall c <- s.entered :: c == Empty)
            && s.context == Own(s, s.current)
            && (forall g <- s.suspended :: s.suspended[g].saved == Own(s, g))
            && (forall a <- s.answers :: a.request < |s.asked| && a.to == s.asked[a.request])
            && (forall i, j | 0 <= i < j < |s.answers| :: s.answers[i].request != s.answers[j].request)
            && (forall l :: l in s.loopRunning <==> l in s.loops && s.loops[l].Executing?)
            && (forall l <- s.loops :: s.loops[l].Executing? <==> s.runningLoop == Some(l))
  {
    InvRun(Initial(), events);
  }

  ghost predicate Answered(s: State, n: nat) {
    exists a <- s.answers :: a.request == n
  }

  /** Some loop is executing the request. */
  ghost predicate Open(s: State, n: nat) {
    exists l <- s.loops :: s.loops[l].Executing? && s.loops[l].request == n
  }

  /** Every request ever made has either been answered or is still being executed, and not
      both; by SwitchesAreClean it is answered once, and to its own caller. */
  lemma RequestsAreAnswered(events: seq<Event>, n: nat)
    requires n < |Run(Initial(), events).asked|
    ensures Answered(Run(Initial(), events), n) <==> !Open(Run(Initial(), events), n)
  {
    var s := Run(Initial(), events);
    RunKeepsAnswered(Initial(), events);
    assert AnsweredOrOpen(s, n);
    InvRun(Initial(), events);
    if Open(s, n) {
      var l :| l in s.loops && s.loops[l].Executing? && s.loops[l].request == n;
      assert PhaseOk(s, l);
    }
  }

  ghost predicate AllAnsweredOrOpen(s: State) {
    forall n: nat | n < |s.asked| :: AnsweredOrOpen(s, n)
  }

  lemma {:induction false} RunKeepsAnswered(s: State, events: seq<Event>)
    requires AllAnsweredOrOpen(s)
    ensures AllAnsweredOrOpen(Run(s, events))
    decreases |events|
  {
    hide AllAnsweredOrOpen, Step;
    if events == [] {
    } else {
      StepKeepsAllAnswered(s, events[0]);
      RunKeepsAnswered(Step(s, events[0]), events[1..]);
    }
  }

  lemma StepKeepsAllAnswered(s: State, e: Event)
    requires AllAnsweredOrOpen(s)
    ensures AllAnsweredOrOpen(Step(s, e))
  {
    var t := Step(s, e);
    forall n: nat | n < |t.asked| ensures AnsweredOrOpen(t, n) {
      if n < |s.asked| {
        StepKeepsAnswered(s, e, n);
      } else {
        assert e.Request? && t.loops[e.loop] == Executing(s.current, n);
      }
    }
  }

  ghost predicate AnsweredOrOpen(s: State, n: nat) {
    Answered(s, n) || Open(s, n)
  }

  lemma StepKeepsAnswered(s: State, e: Event, n: nat)
    requires AnsweredOrOpen(s, n)
    ensures AnsweredOrOpen(Step(s, e), n)
  {
    var t := Step(s, e);
    if Answered(s, n) {
      var a :| a in s.answers && a.request == n;
      assert a in t.answers;
    } else {
      var l :| l in s.loops && s.loops[l].Executing? && s.loops[l].request == n;
      if e.Reply? && l == s.current {
        assert t.answers[|s.answers|].request == n;
      } else {
        assert l in t.loops && t.loops[l] == s.loops[l];
      }
    }
  }

  // What each switch is for: calls that come back

  /** A loop is created: its greenlet starts in its own Trio run, with the creator put away,
      and comes back when the loop waits for requests; the creator finds everything as it
      was. It can be done whenever user code runs. */
  lemma CreatingComesBack(s: State, l: nat)
    requires Inv(s) && UserCode(s) && l !in s.loops && l != ROOT
    ensures var m := Step(s, Create(l));
            var t := Step(m, Started);
            && m.current == l && m.context == Of(l) && s.current in m.suspended
            && t == s.(loops := s.loops[l := Parked], suspended := s.suspended[l := Suspended(Of(l), NextRequest)],
                       entered := s.entered + [Empty, Empty])
  {
    hide Counted;
    var m := Step(s, Create(l));
    var t := Step(m, Started);
    assert t.entered == s.entered + [Empty, Empty];
    assert t.loops == s.loops[l := Parked];
    assert t.suspended == s.suspended[l := Suspended(Of(l), NextRequest)];
  }

  /** A request is executed exactly if user code makes it, of a loop that waits for one,
      while no loop is running; otherwise it is refused and nothing happens. */
  lemma RequestIsExecutedIff(s: State, l: nat)
    requires Inv(s)
    ensures var t := Step(s, Request(l));
            if UserCode(s) && l in s.loops && s.loops[l].Parked? && s.runningLoop.None? then
              && t.current == l && t.context == Of(l) && t.runningLoop == Some(l)
              && t.loops == s.loops[l := Executing(s.current, |s.asked|)] && t.asked == s.asked + [s.current]
            else t == s
  {
    hide Clean;
    if l in s.loops && s.loops[l].Parked? {
      assert PhaseOk(s, l);
      LoopContext(s, l);
    }
  }

  lemma LoopContext(s: State, l: nat)
    requires Inv(s) && l in s.suspended && l != ROOT
    ensures s.suspended[l].saved == Of(l)
  {
  }

  /** The caller gets its answer and finds everything as it was. */
  lemma RequestComesBack(s: State, l: nat)
    requires Inv(s) && UserCode(s) && l in s.loops && s.loops[l].Parked? && s.runningLoop.None?
    ensures Step(Step(s, Request(l)), Reply)
            == s.(asked := s.asked + [s.current], answers := s.answers + [Answer(|s.asked|, s.current)],
                  entered := s.entered + [Empty, Empty])
  {
    assert PhaseOk(s, l);
    LoopContext(s, l);
    NotRunning(s, l);
    ContextKept(s);
    hide Inv, Shape, Clean, Counted;
    var m := Step(s, Request(l));
    var t := Step(m, Reply);
    assert t.entered == s.entered + [Empty, Empty];
    assert t.loops == s.loops;
    assert t.suspended == s.suspended;
    assert t.loopRunning == s.loopRunning;
  }

  lemma NotRunning(s: State, l: nat)
    requires Inv(s) && l in s.loops && s.loops[l].Parked?
    ensures l !in s.loopRunning && l != s.current && l in s.suspended && s.current !in s.suspended
    ensures s.suspended[l].reason == NextRequest
  {
    assert PhaseOk(s, l);
  }

  lemma ContextKept(s: State)
    requires Inv(s)
    ensures s.context == Own(s, s.current)
  {
  }

  /** Closing a loop that waits ends its run, and comes back. */
  lemma ClosingComesBack(s: State, l: nat)
    requires Inv(s) && UserCode(s) && l in s.loops && s.loops[l].Parked?
    ensures var m := Step(s, Close(l));
            && m.current == l && m.context == Of(l) && UserCode(m)
            && Step(m, Ended) == s.(loops := s.loops[l := Dead], suspended := s.suspended - {l},
                                    entered := s.entered + [Empty, Empty])
  {
    hide Counted;
    assert PhaseOk(s, l);
    var m := Step(s, Close(l));
    var t := Step(m, Ended);
    assert t.entered == s.entered + [Empty, Empty];
    assert t.loops == s.loops[l := Dead];
    assert t.suspended == s.suspended - {l};
  }

  /** The root greenlet can have a Trio run of its own around all that. */
  lemma RootRunComesBack(s: State)
    requires Inv(s) && s.current == ROOT && s.context == Empty
    ensures Step(s, TrioBegins).context == Of(ROOT) && Step(Step(s, TrioBegins), TrioEnds) == s
  {
  }

  /** What may happen in a state: what the greenlet that runs can do there. */
  predicate Possible(s: State, e: Event) {
    match e
    case Create(l) => UserCode(s) && l !in s.loops && l != ROOT
    case Started => s.current in s.loops && s.loops[s.current].Starting?
    case Request(l) => UserCode(s) && l in s.loops && s.loops[l].Parked? && s.runningLoop.None?
    case Reply => s.current in s.loops && s.loops[s.current].Executing?
    case Close(l) => UserCode(s) && l in s.loops && s.loops[l].Parked?
    case Ended => s.current in s.loops && s.loops[s.current].Closing?
    case TrioBegins => s.current == ROOT && s.context == Empty
    case TrioEnds => s.current == ROOT && s.context != Empty
  }

  /** It happens exactly then; otherwise nothing changes. */
  lemma HappensIff(s: State, e: Event)
    requires Inv(s)
    ensures Step(s, e) != s <==> Possible(s, e)
  {
    match e
    case Request(l) => RequestIsExecutedIff(s, l);
    case Close(l) => if Possible(s, e) { ClosingComesBack(s, l); }
    case Create(l) => if Possible(s, e) { CreatingComesBack(s, l); }
    case _ => LoopSwitchesAway(s, e);
  }

  lemma LoopSwitchesAway(s: State, e: Event)
    requires Inv(s) && !e.Request? && !e.Close? && !e.Create?
    ensures Step(s, e) != s <==> Possible(s, e)
  {
    if s.current in s.loops {
      assert PhaseOk(s, s.current);
      if Possible(s, e) && !e.TrioBegins? && !e.TrioEnds? { assert Step(s, e).current != s.current; }
    }
  }
}
