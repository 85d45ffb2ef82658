/** allow_asyncio: a coroutine driven so that Trio only ever sees Trio's own traps. */
module Trampoline {
  import opened Options

  /** What a coroutine yields: an asyncio future, or a trap for Trio. */
  datatype Yielded = Future(f: nat) | Trap(x: nat)

  datatype Reply = Send(v: int) | Throw(e: int)

  datatype Move = Return(v: int) | Raise(e: int) | Await(what: Yielded)

  /** A coroutine: what it does next, given all the answers it has had. */
  type Program = seq<Reply> -> Move

  datatype Result = Returned(v: int) | Raised(e: int)

  /** The world the coroutine is driven in: how the wait for a future ends (run_aio_future),
      and what Trio answers to a trap, the n-th time that anything is awaited. */
  datatype World = World(waitFor: (nat, nat) -> Reply, trio: (nat, nat) -> Reply)

  function Answer(w: World, n: nat, y: Yielded): Reply {
    match y
    case Future(f) => w.waitFor(n, f)
    case Trap(x) => w.trio(n, x)
  }

  /** In this world the coroutine is over after at most `limit` awaits. */
  predicate EndsWithin(p: Program, w: World, had: seq<Reply>, limit: nat)
    decreases limit
  {
    !p(had).Await? || (limit > 0 && EndsWithin(p, w, had + [Answer(w, |had|, p(had).what)], limit - 1))
  }

  /** The meaning: each future is answered with its outcome, each trap by Trio. The result,
      and the traps that the coroutine itself has set, in order. */
  function Drive(p: Program, w: World, had: seq<Reply>, limit: nat): (Result, seq<Yielded>)
    requires EndsWithin(p, w, had, limit)
    decreases limit
  {
    match p(had)
    case Return(v) => (Returned(v), [])
    case Raise(e) => (Raised(e), [])
    case Await(y) =>
      var (r, traps) := Drive(p, w, had + [Answer(w, |had|, y)], limit - 1);
      (r, (if y.Trap? then [y] else []) + traps)
  }

  /** `all` are the answers of a whole performance: each is what run_aio_future makes of the
      future, or what Trio says to the trap, that the coroutine awaits having had those
      before; after the last one it is over. */
  ghost predicate Performs(p: Program, w: World, all: seq<Reply>) {
    AllRight(p, w, all) && !p(all).Await?
  }

  ghost predicate AllRight(p: Program, w: World, all: seq<Reply>) {
    forall i | 0 <= i < |all| :: AnsweredRightly(p, w, all, i)
  }

  lemma OneMoreRight(p: Program, w: World, had: seq<Reply>)
    requires AllRight(p, w, had) && p(had).Await?
    ensures AllRight(p, w, had + [Answer(w, |had|, p(had).what)])
  {
    var all := had + [Answer(w, |had|, p(had).what)];
    forall i | 0 <= i < |all| ensures AnsweredRightly(p, w, all, i) {
      assert all[..i] == had[..i];
      assert i < |had| ==> AnsweredRightly(p, w, had, i);
      assert had[..|had|] == had;
    }
  }

  lemma NothingHadYet(p: Program, w: World)
    ensures AllRight(p, w, []) && TrapsIn(p, [], 0) == []
  {
  }

  lemma OneMoreTrap(p: Program, had: seq<Reply>, reply: Reply)
    requires p(had).Await?
    ensures TrapsIn(p, had + [reply], |had| + 1)
            == TrapsIn(p, had, |had|) + (if p(had).what.Trap? then [p(had).what] else [])
  {
    TrapsInPrefix(p, had, had + [reply], |had|);
    assert (had + [reply])[..|had|] == had;
  }

  predicate AnsweredRightly(p: Program, w: World, all: seq<Reply>, i: nat)
    requires i < |all|
  {
    && p(all[..i]).Await?
    && match p(all[..i]).what
       case Future(f) => all[i] == w.waitFor(i, f)
       case Trap(x) => all[i] == w.trio(i, x)
  }

  /** The traps that the coroutine has set by then. */
  function TrapsIn(p: Program, all: seq<Reply>, n: nat): seq<Yielded>
    requires n <= |all|
  {
    if n == 0 then []
    else
      TrapsIn(p, all, n - 1)
      + (if p(all[..n - 1]).Await? && p(all[..n - 1]).what.Trap? then [p(all[..n - 1]).what] else [])
  }

  lemma {:induction false} TrapsInPrefix(p: Program, a: seq<Reply>, b: seq<Reply>, n: nat)
    requires n <= |a| <= |b| && a == b[..|a|]
    ensures TrapsIn(p, a, n) == TrapsIn(p, b, n)
  {
    if n > 0 {
      TrapsInPrefix(p, a, b, n - 1);
      assert a[..n - 1] == b[..n - 1];
    }
  }

  /** There is only one performance. */
  lemma OnePerformance(p: Program, w: World, a: seq<Reply>, b: seq<Reply>)
    requires Performs(p, w, a) && Performs(p, w, b)
    ensures a == b
  {
    if |a| <= |b| { SameLength(p, w, a, b); } else { SameLength(p, w, b, a); }
    SameAnswers(p, w, a, b, |a|);
    assert a[..|a|] == a && b[..|a|] == b;
  }

  lemma SameLength(p: Program, w: World, a: seq<Reply>, b: seq<Reply>)
    requires Performs(p, w, a) && Performs(p, w, b) && |a| <= |b|
    ensures |a| == |b|
  {
    SameAnswers(p, w, a, b, |a|);
    assert a[..|a|] == a;
    assert |a| < |b| ==> AnsweredRightly(p, w, b, |a|);
  }

  lemma {:induction false} SameAnswers(p: Program, w: World, a: seq<Reply>, b: seq<Reply>, n: nat)
    requires Performs(p, w, a) && Performs(p, w, b) && n <= |a| && n <= |b|
    ensures a[..n] == b[..n]
  {
    if n > 0 {
      SameAnswers(p, w, a, b, n - 1);
      assert AnsweredRightly(p, w, a, n - 1) && AnsweredRightly(p, w, b, n - 1);
      assert a[..n] == a[..n - 1] + [a[n - 1]] && b[..n] == b[..n - 1] + [b[n - 1]];
    }
  }

  /** The running coroutine object: send and throw advance it to its next suspension. */
  class Coroutine {
    const program: Program
    var had: seq<Reply>

    constructor (p: Program)
      ensures program == p && had == []
    {
      program, had := p, [];
    }

    /** p(a), for p either send or throw. The first call only starts the coroutine. */
    method Advance(reply: Option<Reply>) returns (move: Move)
      modifies this
      ensures had == old(had) + (if reply.Some? then [reply.value] else [])
      ensures move == program(had)
    {
      if reply.Some? {
        had := had + [reply.value];
      }
      move := program(had);
    }
  }

  /** The loop of _allow_asyncio. `passed` is all that it hands on to Trio itself; waiting
      for a future is run_aio_future's business. */
  method AllowAsyncio(coro: Coroutine, w: World, ghost limit: nat) returns (r: Result, passed: seq<Yielded>)
    requires coro.had == [] && EndsWithin(coro.program, w, [], limit)
    modifies coro
    ensures (r, passed) == Drive(coro.program, w, [], limit)
    ensures forall y <- passed :: y.Trap?
    ensures Performs(coro.program, w, coro.had) && passed == TrapsIn(coro.program, coro.had, |coro.had|)
    ensures match coro.program(coro.had) case Return(v) => r == Returned(v) case Raise(e) => r == Raised(e)
  {
    hide AllRight;
    NothingHadYet(coro.program, w);
    passed := [];
    var move := coro.Advance(None);
    ghost var left := limit;
    while move.Await?
      invariant move == coro.program(coro.had)
      invariant EndsWithin(coro.program, w, coro.had, left)
      invariant forall y <- passed :: y.Trap?
      invariant AllRight(coro.program, w, coro.had)
      invariant passed == TrapsIn(coro.program, coro.had, |coro.had|)
      invariant Drive(coro.program, w, coro.had, left).0 == Drive(coro.program, w, [], limit).0
      invariant passed + Drive(coro.program, w, coro.had, left).1 == Drive(coro.program, w, [], limit).1
      decreases left
    {
      ghost var traps := Drive(coro.program, w, coro.had, left).1;
      ghost var before := passed;
      var reply: Reply;
      match move.what {
        case Future(f) =>
          reply := w.waitFor(|coro.had|, f);
        case Trap(x) =>
          reply := w.trio(|coro.had|, x);
          passed := passed + [move.what];
      }
      left := left - 1;
      ghost var later := Drive(coro.program, w, coro.had + [reply], left).1;
      assert before + traps == passed + later by {
        if move.what.Trap? { assert before + ([move.what] + later) == (before + [move.what]) + later; }
        else { assert traps == later; }
      }
      OneMoreRight(coro.program, w, coro.had);
      OneMoreTrap(coro.program, coro.had, reply);
      move := coro.Advance(Some(reply));
    }
    assert passed + [] == passed;
    r := if move.Return? then Returned(move.v) else Raised(move.e);
  }
}

/** run_aio_generator: a Trio task that waits, and the asyncio task, consume_next, that reads
    the next item and wakes it. */
module ReadProtocol {
  import opened ExceptionTrees

  /** How one read ends. */
  datatype ReadEnd = Yields(v: int) | Stops | Raises(e: Exc)

  /** What the waiting task is woken with. */
  datatype Wake = Item(v: int) | Finish | Throw(e: Exc) | Cancelled

  /** `asked`: its task has been asked to cancel. */
  datatype Read = NoRead | Reading(asked: bool) | Over

  datatype State = State(
    waiting: bool,        // in wait_task_rescheduled
    finished: bool,       // the iteration is over for the one who iterates
    read: Read,
    wakes: seq<Wake>,
    // history
    started: nat,         // the reads
    stray: bool)          // reschedule() was called on a task that was not waiting

  datatype Event =
    | NextItem            // somebody asks for the next item
    | ReadEnds(end: ReadEnd)
    | Abort               // Trio wants to cancel the waiting task

  function Initial(): State {
    State(false, false, NoRead, [], 0, false)
  }

  /** An exception that is not an Exception, asyncio.CancelledError among them, ends
      consume_next without a reschedule(). */
  predicate Reschedules(end: ReadEnd) {
    end.Raises? ==> IsOrdinary(end.e)
  }

  function WakeOf(end: ReadEnd): Wake {
    match end
    case Yields(v) => Item(v)
    case Stops => Finish
    case Raises(e) => Throw(e)
  }

  /** trio.lowlevel.reschedule. */
  function Reschedule(s: State, w: Wake): State {
    if !s.waiting then s.(stray := true)
    else s.(waiting := false, wakes := s.wakes + [w], finished := !w.Item?)
  }

  function Step(s: State, e: Event): State {
    match e
    case NextItem =>
      if s.waiting || s.finished then s else s.(waiting := true, read := Reading(false), started := s.started + 1)
    case ReadEnds(end) =>
      if !s.read.Reading? then s
      else if Reschedules(end) then Reschedule(s.(read := Over), WakeOf(end))
      else s.(read := Over)
    case Abort =>
      // current_read.cancel() says whether there was still something to cancel
      if !s.waiting || !s.read.Reading? then s
      else Reschedule(s.(read := Reading(true)), Cancelled)
  }

  function Run(s: State, events: seq<Event>): State
    decreases |events|
  {
    if events == [] then s else Run(Step(s, events[0]), events[1..])
  }

  ghost predicate Inv(s: State) {
    && (s.waiting ==> !s.finished && !s.read.NoRead?)
    && (s.read.Reading? ==> (s.read.asked <==> !s.waiting) && (s.read.asked ==> s.finished))
    && |s.wakes| + (if s.waiting then 1 else 0) == s.started
    && (forall i | 0 <= i < |s.wakes| :: s.wakes[i].Item? || i == |s.wakes| - 1)
    && (s.wakes != [] ==> (s.finished <==> !s.wakes[|s.wakes| - 1].Item?))
    && (s.finished ==> s.wakes != [])
  }

  lemma InvStep(s: State, e: Event)
    requires Inv(s)
    ensures Inv(Step(s, e))
  {
  }

  lemma {:induction false} InvRun(s: State, events: seq<Event>)
    requires Inv(s)
    ensures Inv(Run(s, events))
    decreases |events|
  {
    if events == [] {
    } else {
      InvStep(s, events[0]);
      InvRun(Step(s, events[0]), events[1..]);
    }
  }

  /** A read that was asked to cancel ends as if it had not been. */
  predicate Swallows(s: State, e: Event) {
    s.read == Reading(true) && e.ReadEnds? && Reschedules(e.end)
  }

  predicate EverSwallows(s: State, events: seq<Event>)
    decreases |events|
  {
    events != [] && (Swallows(s, events[0]) || EverSwallows(Step(s, events[0]), events[1..]))
  }

  /** What an event wakes the waiting task with, if anything. */
  function Wakes(s: State, e: Event): seq<Wake> {
    if !s.waiting || !s.read.Reading? then []
    else
      match e
      case NextItem => []
      case Abort => [Cancelled]
      case ReadEnds(end) =>
        match end
        case Yields(v) => [Item(v)]
        case Stops => [Finish]
        case Raises(e) => if IsOrdinary(e) then [Throw(e)] else []
  }

  function AllWakes(s: State, events: seq<Event>): seq<Wake>
    decreases |events|
  {
    if events == [] then [] else Wakes(s, events[0]) + AllWakes(Step(s, events[0]), events[1..])
  }

  /** A step wakes the task with what has happened, and only then; a read is under way from
      when it is asked for until it ends, and only a task that does not wait, and whose
      iteration is not over, asks for one. */
  lemma StepWakes(s: State, e: Event)
    requires Inv(s)
    ensures var t := Step(s, e);
            && t.wakes == s.wakes + Wakes(s, e)
            && (t.waiting <==> (s.waiting && Wakes(s, e) == []) || (e.NextItem? && !s.finished))
            && (t.finished <==> s.finished || (Wakes(s, e) != [] && !Wakes(s, e)[0].Item?))
            && (t.started == s.started + (if e.NextItem? && !s.waiting && !s.finished then 1 else 0))
            && (t.read == if e.NextItem? && !s.waiting && !s.finished then Reading(false)
                          else if s.read.Reading? && e.ReadEnds? then Over
                          else if s.read.Reading? && e.Abort? && s.waiting then Reading(true)
                          else s.read)
  {
  }

  /** The task is woken with what the reads have brought, in order, and with Cancelled for
      an abort in time. */
  lemma {:induction false} WakesAreTrue(s: State, events: seq<Event>)
    requires Inv(s)
    ensures Run(s, events).wakes == s.wakes + AllWakes(s, events)
    decreases |events|
  {
    hide Inv, Step, Wakes;
    if events == [] {
    } else {
      InvStep(s, events[0]);
      StepWakes(s, events[0]);
      WakesAreTrue(Step(s, events[0]), events[1..]);
    }
  }

  /** Each read wakes its waiting task at most once, and a task is rescheduled without
      waiting exactly if a read swallows its cancellation. */
  lemma WokenOnce(events: seq<Event>)
    ensures var s := Run(Initial(), events);
            && |s.wakes| + (if s.waiting then 1 else 0) == s.started
            && (s.stray <==> EverSwallows(Initial(), events))
  {
    InvRun(Initial(), events);
    StrayIff(Initial(), events);
  }

  lemma {:induction false} StrayIff(s: State, events: seq<Event>)
    requires Inv(s)
    ensures Run(s, events).stray <==> s.stray || EverSwallows(s, events)
    decreases |events|
  {
    if events == [] {
    } else {
      InvStep(s, events[0]);
      StrayIff(Step(s, events[0]), events[1..]);
    }
  }

  /** The task waits for a read that is over. */
  predicate Hung(s: State) {
    s.waiting && s.read.Over?
  }

  /** A waiting task hangs for ever, and cannot be cancelled either, exactly if its read has
      ended without a reschedule(); until then either event wakes it. */
  lemma HangsIff(before: seq<Event>, after: seq<Event>)
    requires Run(Initial(), before).waiting
    ensures var s := Run(Initial(), before);
            if Hung(s) then Run(s, after) == s
            else !Step(s, Abort).waiting && forall end :: Step(s, ReadEnds(end)).waiting <==> !Reschedules(end)
  {
    var s := Run(Initial(), before);
    InvRun(Initial(), before);
    if Hung(s) { HungForEver(s, after); }
  }

  lemma {:induction false} HungForEver(s: State, events: seq<Event>)
    requires Hung(s)
    ensures Run(s, events) == s
    decreases |events|
  {
    if events == [] {
    } else {
      HungForEver(s, events[1..]);
    }
  }

  /** The generator with its waiting task. */
  class Reader {
    var waiting: bool
    var finished: bool
    var read: Read
    var wakes: seq<Wake>
    ghost var started: nat
    ghost var stray: bool

    ghost function Model(): State
      reads this
    {
      State(waiting, finished, read, wakes, started, stray)
    }

    constructor ()
      ensures Model() == Initial()
    {
      waiting, finished, read, wakes, started, stray := false, false, NoRead, [], 0, false;
    }

    method RescheduleTask(w: Wake)
      modifies this
      ensures Model() == Reschedule(old(Model()), w)
    {
      if waiting {
        waiting, wakes, finished := false, wakes + [w], !w.Item?;
      } else {
        stray := true;
      }
    }

    /** The generator is asked for an item: it starts consume_next, and waits. */
    method NextItem()
      requires !waiting && !finished
      modifies this
      ensures Model() == Step(old(Model()), Event.NextItem)
    {
      read, waiting, started := Reading(false), true, started + 1;
    }

    /** The rest of consume_next, when __anext__ has come back. */
    method ReadEnds(end: ReadEnd)
      requires read.Reading?
      modifies this
      ensures Model() == Step(old(Model()), Event.ReadEnds(end))
    {
      read := Over;
      match end {
        case Yields(v) => RescheduleTask(Item(v));
        case Stops => RescheduleTask(Finish);
        case Raises(e) => if IsOrdinary(e) { RescheduleTask(Throw(e)); }
      }
    }

    /** abort_cb; Trio itself reschedules the task if the abort has succeeded. */
    method AbortCb() returns (succeeded: bool)
      requires waiting
      modifies this
      ensures Model() == Step(old(Model()), Abort) && (succeeded <==> old(read).Reading?)
    {
      succeeded := read.Reading?;
      if succeeded {
        read := Reading(true);
        RescheduleTask(Cancelled);
      }
    }
  }
}

/** Async iterators handed from one world to the other and back. */
module Iterators {
  import opened Options
  import opened ExceptionTrees
  import P = TaskProtocol
  import R = ReadProtocol

  datatype End = Stops | Fails(e: Exc)

  /** One call of __anext__. */
  datatype Next = Item(v: int) | Stop | Error(e: Exc)

  /** How a whole iteration ends for the one who iterates: `Hangs` if the exception is not
      an Exception, for then nobody wakes the iterating task. */
  datatype Outcome = Finished | Failed(e: Exc) | Hangs

  /** What an exception raised in a Trio task becomes on its way through the future of
      trio_as_future, when nothing is cancelled. */
  function Delivered(e: Exc): Option<Exc> {
    CollapseAwareSplit(e, AnyTrioCancelled).1
  }

  function Expected(end: End): Outcome {
    match end
    case Stops => Finished
    case Fails(e) =>
      if Delivered(e).Some? && IsOrdinary(Delivered(e).value) then Failed(Delivered(e).value) else Hangs
  }

  /** A Trio-flavored iterator: it yields its items, then ends. */
  class TrioIterator {
    const items: seq<int>
    const end: End
    var pos: nat

    constructor (xs: seq<int>, e: End)
      ensures items == xs && end == e && pos == 0
    {
      items, end, pos := xs, e, 0;
    }

    method Anext() returns (r: Next)
      requires pos <= |items|
      modifies this
      ensures if old(pos) < |items| then r == Item(items[old(pos)]) && pos == old(pos) + 1
              else pos == old(pos) && r == match end case Stops => Stop case Fails(e) => Error(e)
    {
      if pos < |items| {
        r := Item(items[pos]);
        pos := pos + 1;
      } else {
        r := match end case Stops => Stop case Fails(e) => Error(e);
      }
    }
  }

  /** One turn of run_trio_generator: the asyncio side awaits the future of a Trio task that
      calls __anext__. StopAsyncIteration ends the generator; another exception is raised. */
  method AioAnext(inner: TrioIterator) returns (r: Next)
    requires inner.pos <= |inner.items|
    requires inner.end.Fails? ==> Valid(inner.end.e) && Delivered(inner.end.e).Some?
    modifies inner
    ensures if old(inner.pos) < |inner.items| then
              r == Item(inner.items[old(inner.pos)]) && inner.pos == old(inner.pos) + 1
            else
              inner.pos == old(inner.pos)
              && r == match inner.end case Stops => Stop case Fails(e) => Error(Delivered(e).value)
  {
    r := inner.Anext();
    match r {
      case Item(v) =>
        var h := P.Leave(P.NewHandle(true).(stage := P.InBody), P.Returned(v), false);
        assert h.fut == P.Done(P.Value(v));
      case Stop =>
      case Error(e) =>
        var h := P.Leave(P.NewHandle(true).(stage := P.InBody), P.Raised(e), false);
        P.LeaveIsRight(P.NewHandle(true).(stage := P.InBody), P.Raised(e), false);
        r := Error(h.fut.outcome.e);
    }
  }

  function ReadEndOf(next: Next): R.ReadEnd {
    match next
    case Item(v) => R.Yields(v)
    case Stop => R.Stops
    case Error(e) => R.Raises(e)
  }

  /** run_aio_generator over run_trio_generator, with nothing cancelled: the same items in
      the same order, and an end that differs only as the future has changed it. Every read
      wakes the waiting task once, the last one excepted if the iteration hangs. */
  method RoundTrip(inner: TrioIterator, reader: R.Reader) returns (items: seq<int>, end: Outcome)
    requires inner.pos == 0 && reader.Model() == R.Initial()
    requires inner.end.Fails? ==> Valid(inner.end.e) && Delivered(inner.end.e).Some?
    modifies inner, reader
    ensures items == inner.items
    ensures end == Expected(inner.end)
    ensures !reader.stray && (R.Hung(reader.Model()) <==> end.Hangs?)
    ensures reader.started == |items| + 1 && |reader.wakes| == |items| + (if end.Hangs? then 0 else 1)
  {
    items := [];
    while true
      invariant inner.pos <= |inner.items| && items == inner.items[..inner.pos]
      invariant !reader.waiting && !reader.finished && !reader.stray
      invariant |reader.wakes| == reader.started == |items|
      decreases |inner.items| - inner.pos
    {
      reader.NextItem();
      var next := AioAnext(inner);
      reader.ReadEnds(ReadEndOf(next));
      if reader.waiting {
        return items, Hangs;
      }
      match reader.wakes[|reader.wakes| - 1] {
        case Item(v) =>
          items := items + [v];
        case Finish =>
          return items, Finished;
        case Throw(e) =>
          return items, Failed(e);
      }
    }
  }

  /** The end comes through as it was exactly when it is a plain stop, or an Exception
      without Cancelled leaves that is canonical and holds nothing to collapse. */
  lemma SameEndIff(end: End)
    requires end.Fails? ==> Valid(end.e)
    ensures Expected(end) == (match end case Stops => Finished case Fails(e) => Failed(e))
            <==> end.Stops? || (IsOrdinary(end.e) && Canonical(end.e) && !HasFlaggedSingle(end.e)
                                && Select(Leaves(end.e), AnyTrioCancelled, true) == [])
  {
    if end.Fails? {
      RestIsUnchangedIff(end.e);
    }
  }
}
