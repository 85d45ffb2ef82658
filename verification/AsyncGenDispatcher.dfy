/** The async generator hooks shared, with a reference count, by all open loops. */
module DispatcherProtocol {
  import opened Options

  /** What is installed in the interpreter: Trio's own hooks, or the bound methods of the
      n-th dispatcher ever made. */
  datatype Hooks = Trio | Dispatcher(n: nat)

  datatype Record = Record(refcnt: int, prevHooks: Hooks)

  /** Who finalizes a generator. */
  datatype Finalizer = ByTrio | ByLoop(loop: nat)

  /** A generator that has been iterated: the finalizer hook the interpreter stored for it
      then, and the loop noted in its frame. `firstUnder` is history. */
  datatype Agen = Agen(hook: Hooks, noted: Option<nat>, firstUnder: Option<nat>)

  datatype State = State(
    hooks: Hooks,
    dispatchers: seq<Record>,
    loops: map<nat, nat>,        // the dispatcher of each open loop
    agens: map<nat, Agen>,
    assertionFailed: bool,
    failed: seq<nat>)            // history: the dispatchers of the loops whose exit has failed

  datatype Event =
    | Open(loop: nat)
    | Close(loop: nat)
    | FailingClose(loop: nat)    // the drain raises, and the exit never comes to uninstall()
    | FirstIteration(agen: nat, under: Option<nat>)   // the asyncio loop running then, if any

  function Initial(): State {
    State(Trio, [], map[], map[], false, [])
  }

  /** AsyncGeneratorDispatcher.install. */
  function Install(s: State, loop: nat): State {
    match s.hooks
    case Trio =>
      var n := |s.dispatchers|;
      s.(hooks := Dispatcher(n), dispatchers := s.dispatchers + [Record(1, Trio)], loops := s.loops[loop := n])
    case Dispatcher(n) =>
      if n < |s.dispatchers| then
        var r := s.dispatchers[n];
        s.(dispatchers := s.dispatchers[n := r.(refcnt := r.refcnt + 1)], loops := s.loops[loop := n])
      else s.(assertionFailed := true)
  }

  /** uninstall, on the dispatcher of the loop. */
  function Uninstall(s: State, loop: nat): State
    requires loop in s.loops
  {
    var n := s.loops[loop];
    if n >= |s.dispatchers| then s.(assertionFailed := true)
    else
      var r := s.dispatchers[n].(refcnt := s.dispatchers[n].refcnt - 1);
      var s1 := s.(dispatchers := s.dispatchers[n := r], loops := s.loops - {loop});
      if r.refcnt <= 0 then
        s1.(hooks := r.prevHooks, assertionFailed := s.assertionFailed || r.refcnt != 0)
      else s1
  }

  /** firstiter, through the installed hooks. */
  function FirstIter(s: State, under: Option<nat>): Agen {
    match s.hooks
    case Trio => Agen(Trio, None, under)
    case Dispatcher(n) => Agen(Dispatcher(n), under, under)
  }

  /** finalizer, through the hook the generator was given. */
  function Finalize(s: State, g: Agen): Finalizer {
    match g.hook
    case Trio => ByTrio
    case Dispatcher(_) => if g.noted.Some? then ByLoop(g.noted.value) else ByTrio
  }

  function Step(s: State, e: Event): State {
    match e
    case Open(l) => if l in s.loops then s else Install(s, l)
    case Close(l) => if l in s.loops then Uninstall(s, l) else s
    case FailingClose(l) =>
      if l in s.loops then s.(loops := s.loops - {l}, failed := s.failed + [s.loops[l]]) else s
    case FirstIteration(g, under) =>
      // only an open loop can be the running one
      if g in s.agens || (under.Some? && under.value !in s.loops) then s
      else s.(agens := s.agens[g := FirstIter(s, under)])
  }

  function Run(s: State, events: seq<Event>): State
    decreases |events|
  {
    if events == [] then s else Run(Step(s, events[0]), events[1..])
  }

  /** The references held: by the open loops, and by those that never gave theirs back. */
  function References(s: State): nat {
    |s.loops| + |s.failed|
  }

  ghost predicate HooksOk(s: State) {
    && !s.assertionFailed
    && (s.hooks == Trio <==> References(s) == 0)
    && (s.hooks.Dispatcher? ==>
          s.hooks.n < |s.dispatchers| && s.dispatchers[s.hooks.n].refcnt == References(s))
    && (forall l <- s.loops :: s.hooks == Dispatcher(s.loops[l]))
    && (forall n <- s.failed :: s.hooks == Dispatcher(n))
    && (forall r <- s.dispatchers :: r.prevHooks == Trio)
  }

  ghost predicate AgensOk(s: State) {
    forall g <- s.agens :: Finalize(s, s.agens[g]) ==
      if s.agens[g].firstUnder.Some? then ByLoop(s.agens[g].firstUnder.value) else ByTrio
  }

  ghost predicate Inv(s: State) {
    HooksOk(s) && AgensOk(s)
  }

  lemma OneMore(loops: map<nat, nat>, l: nat, n: nat)
    requires l !in loops
    ensures |loops[l := n]| == |loops| + 1
  {
    assert loops[l := n].Keys == loops.Keys + {l};
    assert |loops[l := n]| == |loops[l := n].Keys| && |loops| == |loops.Keys|;
  }

  lemma OneLess(loops: map<nat, nat>, l: nat)
    requires l in loops
    ensures |loops - {l}| == |loops| - 1
  {
    assert loops.Keys == (loops - {l}).Keys + {l};
    assert |loops - {l}| == |(loops - {l}).Keys| && |loops| == |loops.Keys|;
  }

  lemma InvOpen(s: State, l: nat)
    requires Inv(s) && l !in s.loops
    ensures Inv(Install(s, l))
  {
    FinalizersKept(s, Install(s, l));
    hide AgensOk;
    OneMore(s.loops, l, |s.dispatchers|);
    OneMore(s.loops, l, if s.hooks.Dispatcher? then s.hooks.n else 0);
    if s.hooks.Trio? { assert s.loops == map[] && s.failed == []; }
  }

  lemma FinalizersKept(s: State, t: State)
    requires AgensOk(s) && t.agens == s.agens
    ensures AgensOk(t)
  {
  }

  lemma InvClose(s: State, l: nat)
    requires Inv(s) && l in s.loops
    ensures Inv(Uninstall(s, l)) && Inv(Step(s, FailingClose(l)))
  {
    FinalizersKept(s, Uninstall(s, l));
    FinalizersKept(s, Step(s, FailingClose(l)));
    hide AgensOk;
    OneLess(s.loops, l);
  }

  lemma InvStep(s: State, e: Event)
    requires Inv(s)
    ensures Inv(Step(s, e))
  {
    match e
    case Open(l) => if l !in s.loops { InvOpen(s, l); }
    case Close(l) => if l in s.loops { InvClose(s, l); }
    case FailingClose(l) => if l in s.loops { InvClose(s, l); }
    case FirstIteration(_, under) =>
  }

  lemma InvInitial()
    ensures Inv(Initial())
  {
  }

  lemma TrioIff(s: State)
    requires Inv(s)
    ensures s.hooks == Trio <==> s.loops == map[] && s.failed == []
  {
  }

  lemma AssertionHolds(s: State)
    requires Inv(s)
    ensures !s.assertionFailed
  {
  }

  lemma {:induction false} InvRun(s: State, events: seq<Event>)
    requires Inv(s)
    ensures Inv(Run(s, events))
    decreases |events|
  {
    if events == [] {
    } else {
      InvStep(s, events[0]);
      InvRun(Step(s, events[0]), events[1..]);
    }
  }

  /** For any number of loops opened and closed in any order, whether their exits fail or
      not: no assertion has failed, all open loops share the installed dispatcher, its
      count is the number of open loops and of those whose exit has failed, and Trio's
      hooks are back exactly when no loop is open and no exit has ever failed. */
  lemma SharedDispatcher(events: seq<Event>)
    ensures var s := Run(Initial(), events);
            && !s.assertionFailed
            && (s.hooks == Trio <==> s.loops == map[] && s.failed == [])
            && (forall n :: (exists l <- s.loops :: s.loops[l] == n) || n in s.failed ==>
                  n < |s.dispatchers| && s.hooks == Dispatcher(n)
                  && s.dispatchers[n].refcnt == |s.loops| + |s.failed|)
  {
    InvRun(Initial(), events);
  }

  /** A failed exit is never made good: the dispatcher it has left behind stays installed,
      and later loops share it. */
  lemma {:induction false} FailedExitKeepsHooks(s: State, events: seq<Event>)
    requires Inv(s) && s.failed != []
    ensures Run(s, events).hooks == s.hooks && s.hooks.Dispatcher?
    decreases |events|
  {
    assert s.hooks == Dispatcher(s.failed[0]);
    if events == [] {
    } else {
      var t := Step(s, events[0]);
      InvStep(s, events[0]);
      assert s.failed <= t.failed;
      assert t.hooks == Dispatcher(t.failed[0]);
      FailedExitKeepsHooks(t, events[1..]);
    }
  }

  /** The shortest run that leaves the hooks behind: one loop, whose exit fails. */
  lemma FailedExitLeavesHooks(after: seq<Event>)
    ensures var s := Run(Initial(), [Open(0), FailingClose(0)]);
            s.loops == map[] && s.hooks == Dispatcher(0) && Run(s, after).hooks == Dispatcher(0)
  {
    var s1 := Step(Initial(), Open(0));
    var s2 := Step(s1, FailingClose(0));
    assert [Open(0), FailingClose(0)][1..] == [FailingClose(0)];
    assert Run(Initial(), [Open(0), FailingClose(0)]) == s2;
    InvStep(Initial(), Open(0));
    InvStep(s1, FailingClose(0));
    FailedExitKeepsHooks(s2, after);
  }

  lemma {:induction false} AgensAreKept(s: State, events: seq<Event>, g: nat)
    requires g in s.agens
    ensures g in Run(s, events).agens && Run(s, events).agens[g] == s.agens[g]
    decreases |events|
  {
    if events == [] {
    } else {
      AgensAreKept(Step(s, events[0]), events[1..], g);
    }
  }

  /** A generator first iterated under a loop is finalized through that loop, any other by
      Trio, whatever loops are opened or closed in between, that loop included. */
  lemma FinalizedWhereFirstIterated(before: seq<Event>, g: nat, under: Option<nat>, after: seq<Event>)
    requires var s := Run(Initial(), before);
             g !in s.agens && (under.Some? ==> under.value in s.loops)
    ensures var t := Run(Step(Run(Initial(), before), FirstIteration(g, under)), after);
            && g in t.agens
            && Finalize(t, t.agens[g]) == if under.Some? then ByLoop(under.value) else ByTrio
  {
    var s := Run(Initial(), before);
    InvRun(Initial(), before);
    var s1 := Step(s, FirstIteration(g, under));
    InvStep(s, FirstIteration(g, under));
    AgensAreKept(s1, after, g);
    InvRun(s1, after);
    assert s1.agens[g].firstUnder == under;
  }
}

/** The dispatcher as an object: `refcnt` is updated in place, and the interpreter's hooks
    are a variable that install and uninstall set. */
module Dispatchers {
  import opened Options
  import P = DispatcherProtocol

  class AsyncGeneratorDispatcher {
    const prevHooks: AsyncGeneratorDispatcher?     // null: Trio's own hooks
    var refcnt: int
    const number: nat                              // tells it from the others

    constructor (prev: AsyncGeneratorDispatcher?, n: nat)
      ensures prevHooks == prev && refcnt == 1 && number == n
    {
      prevHooks := prev;
      refcnt := 1;
      number := n;
    }
  }

  /** The interpreter's pair of hooks, both bound to one dispatcher or both Trio's, and the
      generators that have been iterated. */
  class Interpreter {
    var hooks: AsyncGeneratorDispatcher?
    var agens: map<nat, P.Agen>
    var all: seq<AsyncGeneratorDispatcher>     // every dispatcher ever made
    ghost var loops: map<nat, nat>
    ghost var failed: seq<nat>

    static function HooksOf(d: AsyncGeneratorDispatcher?): P.Hooks {
      if d == null then P.Trio else P.Dispatcher(d.number)
    }

    ghost function Records(): seq<P.Record>
      reads this, all
    {
      seq(|all|, i requires 0 <= i < |all| reads this, all => P.Record(all[i].refcnt, HooksOf(all[i].prevHooks)))
    }

    ghost function Model(): P.State
      reads this, all
    {
      P.State(HooksOf(hooks), Records(), loops, agens, false, failed)
    }

    ghost predicate Valid()
      reads this, all
    {
      && (forall i | 0 <= i < |all| :: all[i].number == i && all[i].prevHooks == null)
      && (hooks != null ==> hooks in all)
      && P.Inv(Model())
    }

    constructor ()
      ensures Valid() && Model() == P.Initial() && all == []
    {
      hooks, agens, all, loops, failed := null, map[], [], map[], [];
    }

    method Install(loop: nat) returns (d: AsyncGeneratorDispatcher)
      requires Valid() && loop !in loops
      modifies this, all
      ensures Valid() && Model() == P.Step(old(Model()), P.Open(loop))
      ensures d in all && loop in loops && loops[loop] == d.number
      ensures forall x <- all :: x in old(all) || fresh(x)
    {
      hide P.Inv;
      P.InvStep(Model(), P.Open(loop));
      if hooks == null {
        d := InstallNew(loop);
      } else {
        d := hooks;
        d.refcnt := d.refcnt + 1;
        loops := loops[loop := d.number];
        assert Records() == old(Records())[d.number := P.Record(d.refcnt, P.Trio)];
      }
    }

    method InstallNew(loop: nat) returns (d: AsyncGeneratorDispatcher)
      requires Valid() && loop !in loops && hooks == null
      modifies this
      ensures Valid() && Model() == P.Step(old(Model()), P.Open(loop))
      ensures d in all && loop in loops && loops[loop] == d.number
      ensures fresh(d) && all == old(all) + [d]
    {
      hide P.Inv;
      P.InvStep(Model(), P.Open(loop));
      d := new AsyncGeneratorDispatcher(hooks, |all|);
      hooks := d;
      all := all + [d];
      loops := loops[loop := d.number];
      assert Records() == old(Records()) + [P.Record(1, P.Trio)];
    }

    /** uninstall, on the dispatcher `d` that the loop has got from Install. */
    method Uninstall(loop: nat, d: AsyncGeneratorDispatcher)
      requires Valid() && d in all && loop in loops && loops[loop] == d.number
      modifies this, all
      ensures Valid() && Model() == P.Step(old(Model()), P.Close(loop)) && all == old(all)
    {
      hide P.Inv;
      P.InvStep(Model(), P.Close(loop));
      P.AssertionHolds(P.Step(Model(), P.Close(loop)));
      d.refcnt := d.refcnt - 1;
      if d.refcnt <= 0 {
        hooks := d.prevHooks;
        assert d.refcnt == 0;
      }
      loops := loops - {loop};
      assert Model().dispatchers == P.Step(old(Model()), P.Close(loop)).dispatchers;
    }

    /** The loop is closed without uninstall(). */
    method Abandon(loop: nat)
      requires Valid() && loop in loops
      modifies this`loops, this`failed
      ensures Valid() && Model() == P.Step(old(Model()), P.FailingClose(loop))
    {
      hide P.Inv;
      P.InvStep(Model(), P.FailingClose(loop));
      loops, failed := loops - {loop}, failed + [loops[loop]];
      assert Records() == old(Records());
    }

    /** The firstiter hook, for a generator iterated under the given loop, if any. */
    method FirstIter(g: nat, under: Option<nat>)
      requires Valid() && g !in agens && (under.Some? ==> under.value in loops)
      modifies this`agens
      ensures Valid() && Model() == P.Step(old(Model()), P.FirstIteration(g, under))
    {
      hide P.Inv;
      P.InvStep(Model(), P.FirstIteration(g, under));
      agens := agens[g := P.Agen(HooksOf(hooks), if hooks == null then None else under, under)];
      assert Records() == old(Records());
    }

    /** The finalizer hook that the generator was given. */
    method Finalizer(g: nat) returns (f: P.Finalizer)
      requires Valid() && g in agens
      ensures f == P.Finalize(Model(), agens[g])
      ensures f == if agens[g].firstUnder.Some? then P.ByLoop(agens[g].firstUnder.value) else P.ByTrio
    {
      var agen := agens[g];
      f := if agen.hook.Dispatcher? && agen.noted.Some? then P.ByLoop(agen.noted.value) else P.ByTrio;
    }
  }
}
