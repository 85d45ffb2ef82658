/** The registry of reader and writer callbacks and the Trio tasks that wait for their
    file descriptors. */
module IoProtocol {
  import opened Options

  datatype Direction = Read | Write

  /** A selector key: the event mask, and the two handles. */
  datatype Key = Key(readBit: bool, writeBit: bool, reader: Option<nat>, writer: Option<nat>)

  /** Where the I/O task of a handle is suspended. A task waiting in synchronize() waits
      for the `ticket`-th callback ever queued. */
  datatype Wait = ForReady | ForSync(ticket: nat)

  /** A call of a handle's callback: how many callbacks had been queued at the synchronize()
      that follows it, and how many had been consumed when the callback was called. */
  datatype Call = Call(handle: nat, ticket: nat, consumed: nat)

  datatype Place = Place(fd: int, dir: Direction)

  datatype State = State(
    keys: map<int, Key>,
    handles: seq<Place>,             // what each handle was added for
    cancelled: set<nat>,
    scopes: set<nat>,                // handles whose cancel scope is cancelled
    tasks: map<nat, Wait>,           // the I/O tasks that are alive
    running: bool,                   // the loop has a Trio token
    queued: nat,
    consumed: nat,
    assertionFailed: bool,
    calls: seq<Call>)

  function Initial(): State {
    State(map[], [], {}, {}, map[], true, 0, 0, false, [])
  }

  function Slot(keys: map<int, Key>, p: Place): Option<nat> {
    if p.fd !in keys then None
    else
      match p.dir
      case Read => keys[p.fd].reader
      case Write => keys[p.fd].writer
  }

  /** _set_read_handle and _set_write_handle: register or modify the key. */
  function SetHandle(keys: map<int, Key>, p: Place, h: nat): map<int, Key> {
    var key := if p.fd in keys then keys[p.fd] else Key(false, false, None, None);
    keys[p.fd := match p.dir
                 case Read => key.(readBit := true, reader := Some(h))
                 case Write => key.(writeBit := true, writer := Some(h))]
  }

  /** The selector's side of remove_reader and remove_writer (asyncio's own). */
  function ClearHandle(keys: map<int, Key>, p: Place): map<int, Key> {
    if p.fd !in keys then keys
    else
      var key := match p.dir
                 case Read => keys[p.fd].(readBit := false, reader := None)
                 case Write => keys[p.fd].(writeBit := false, writer := None);
      if key.readBit || key.writeBit then keys[p.fd := key] else keys - {p.fd}
  }

  /** ScopedHandle.cancel. */
  function CancelHandle(s: State, h: nat): State {
    s.(cancelled := s.cancelled + {h}, scopes := s.scopes + {h})
  }

  function CancelSome(s: State, h: Option<nat>): State {
    if h.None? then s else CancelHandle(s, h.value)
  }

  /** _add_io_handler. */
  function Add(s: State, p: Place): State {
    var h, previous := |s.handles|, Slot(s.keys, p);
    var s1 := CancelSome(s.(handles := s.handles + [p], keys := SetHandle(s.keys, p, h)), previous);
    if s.running then s1.(tasks := s1.tasks[h := ForReady]) else s1
  }

  function RemoveIo(s: State, p: Place): State {
    CancelSome(s.(keys := ClearHandle(s.keys, p)), Slot(s.keys, p))
  }

  /** One key in _cancel_fds: the scopes of its handles are cancelled; a bit without a
      handle fails the assertion. */
  function CancelKey(s: State, key: Key): State {
    CancelBit(CancelBit(s, key.readBit, key.reader), key.writeBit, key.writer)
  }

  function CancelBit(s: State, bit: bool, h: Option<nat>): State {
    if !bit then s
    else if h.None? then s.(assertionFailed := true)
    else if h.value in s.cancelled then s
    else s.(scopes := s.scopes + {h.value})
  }

  function CancelKeys(s: State, keys: seq<Key>): State
    decreases |keys|
  {
    if keys == [] then s else CancelKeys(CancelKey(s, keys[0]), keys[1..])
  }

  /** What a callback, or any other code, may do with the registry. */
  datatype Action =
    | AddHandler(p: Place)
    | RemoveHandler(p: Place)
    | Cancel(handle: nat)
    | CallSoon

  function Do(s: State, a: Action): State {
    match a
    case AddHandler(p) => Add(s, p)
    case RemoveHandler(p) => RemoveIo(s, p)
    case Cancel(h) => if h < |s.handles| then CancelHandle(s, h) else s
    case CallSoon => s.(queued := s.queued + 1)
  }

  function DoAll(s: State, script: seq<Action>): State
    decreases |script|
  {
    if script == [] then s else DoAll(Do(s, script[0]), script[1..])
  }

  datatype Event =
    | Elsewhere(a: Action)
    | Ready(h: nat, script: seq<Action>)   // the wait returns; `script` is what the callback does
    | OsError(h: nat)                      // the wait fails
    | Consume                              // the loop takes a callback from its queue
    | Synced(h: nat)                       // synchronize() returns
    | Interrupted(h: nat)                  // the task's scope has been cancelled
    | CancelFds(order: seq<int>)           // _cancel_fds, in the selector's order
    | LoopEnds

  function Ends(s: State, h: nat): State {
    s.(tasks := s.tasks - {h})
  }

  /** The task of `h` after its wait has returned. */
  function AfterWait(s: State, h: nat, script: seq<Action>): State {
    if h in s.cancelled then Ends(s, h)
    else
      var s1 := DoAll(s, script);
      var s2 := s1.(calls := s1.calls + [Call(h, s1.queued, s.consumed)], queued := s1.queued + 1);
      s2.(tasks := s2.tasks[h := ForSync(s1.queued)])
  }

  function KeysIn(keys: map<int, Key>, order: seq<int>): seq<Key> {
    if order == [] then []
    else (if order[0] in keys then [keys[order[0]]] else []) + KeysIn(keys, order[1..])
  }

  function Step(s: State, e: Event): State {
    match e
    case Elsewhere(a) => Do(s, a)
    case Ready(h, script) => if h in s.tasks && s.tasks[h].ForReady? then AfterWait(s, h, script) else s
    case OsError(h) => if h in s.tasks && s.tasks[h].ForReady? then Ends(s, h) else s
    case Consume => if s.consumed < s.queued then s.(consumed := s.consumed + 1) else s
    case Synced(h) =>
      if h in s.tasks && s.tasks[h].ForSync? && s.consumed > s.tasks[h].ticket then
        if h in s.cancelled then Ends(s, h) else s.(tasks := s.tasks[h := ForReady])
      else s
    case Interrupted(h) => if h in s.tasks && h in s.scopes then Ends(s, h) else s
    case CancelFds(order) => CancelKeys(s, KeysIn(s.keys, order))
    case LoopEnds => s.(running := false)
  }

  function Run(s: State, events: seq<Event>): State
    decreases |events|
  {
    if events == [] then s else Run(Step(s, events[0]), events[1..])
  }

  // The invariant

  /** A bit of the mask is set exactly when its slot holds a handle, and a key without
      handles is not kept. */
  predicate KeyOk(key: Key) {
    && (key.readBit <==> key.reader.Some?)
    && (key.writeBit <==> key.writer.Some?)
    && (key.readBit || key.writeBit)
  }

  ghost predicate RegistryOk(s: State) {
    && (forall fd <- s.keys :: KeyOk(s.keys[fd]))
    && (forall p: Place :: Slot(s.keys, p).Some? ==>
          Slot(s.keys, p).value < |s.handles| && s.handles[Slot(s.keys, p).value] == p)
    && (forall h: nat :: h < |s.handles| && h !in s.cancelled ==> Slot(s.keys, s.handles[h]) == Some(h))
    && (forall h <- s.cancelled :: h < |s.handles| && h in s.scopes)
    && (forall h <- s.tasks :: h < |s.handles|)
    && !s.assertionFailed
  }

  ghost predicate CallsOk(s: State) {
    && s.consumed <= s.queued
    && (forall h <- s.tasks :: s.tasks[h].ForSync? ==> s.tasks[h].ticket < s.queued)
    && (forall c <- s.calls :: c.handle < |s.handles|)
    && (forall c <- s.calls :: c.handle in s.tasks ==>
          if s.tasks[c.handle].ForReady? then c.ticket < s.consumed else c.ticket <= s.tasks[c.handle].ticket)
    && (forall i, j :: 0 <= i < j < |s.calls| && s.calls[i].handle == s.calls[j].handle ==>
          s.calls[i].ticket < s.calls[j].consumed)
  }

  ghost predicate Inv(s: State) {
    RegistryOk(s) && CallsOk(s)
  }

  lemma KeyIsOk(s: State, fd: int)
    requires Inv(s) && fd in s.keys
    ensures KeyOk(s.keys[fd])
  {
  }

  lemma SlotAfterSet(keys: map<int, Key>, p: Place, h: nat, q: Place)
    ensures Slot(SetHandle(keys, p, h), q) == if q == p then Some(h) else Slot(keys, q)
  {
  }

  lemma SlotAfterClear(keys: map<int, Key>, p: Place, q: Place)
    requires forall fd <- keys :: KeyOk(keys[fd])
    ensures Slot(ClearHandle(keys, p), q) == if q == p then None else Slot(keys, q)
    ensures forall fd <- ClearHandle(keys, p) :: KeyOk(ClearHandle(keys, p)[fd])
  {
  }

  lemma InvAdd(s: State, p: Place)
    requires Inv(s)
    ensures Inv(Add(s, p))
  {
    var t := Add(s, p);
    forall q: Place
      ensures Slot(t.keys, q) == if q == p then Some(|s.handles|) else Slot(s.keys, q)
    {
      SlotAfterSet(s.keys, p, |s.handles|, q);
    }
    assert RegistryOk(t) by { hide CallsOk; }
    assert CallsOk(t) by { hide RegistryOk; }
  }

  lemma InvRemove(s: State, p: Place)
    requires Inv(s)
    ensures Inv(RemoveIo(s, p))
  {
    forall q: Place ensures Slot(ClearHandle(s.keys, p), q) == if q == p then None else Slot(s.keys, q) {
      SlotAfterClear(s.keys, p, q);
    }
    SlotAfterClear(s.keys, p, p);
  }

  lemma InvDo(s: State, a: Action)
    requires Inv(s)
    ensures Inv(Do(s, a))
  {
    match a
    case AddHandler(p) => InvAdd(s, p);
    case RemoveHandler(p) => InvRemove(s, p);
    case _ =>
  }

  /** What no action takes back. */
  ghost predicate Grows(s: State, t: State) {
    && s.cancelled <= t.cancelled && s.scopes <= t.scopes
    && |s.handles| <= |t.handles| && t.handles[..|s.handles|] == s.handles
    && t.calls == s.calls && t.consumed == s.consumed && s.queued <= t.queued
    && (forall h <- s.tasks :: h in t.tasks && (h < |s.handles| ==> t.tasks[h] == s.tasks[h]))
  }

  lemma DoGrows(s: State, a: Action)
    requires Inv(s)
    ensures Grows(s, Do(s, a))
  {
  }

  lemma GrowsTransitive(a: State, b: State, c: State)
    requires Grows(a, b) && Grows(b, c)
    ensures Grows(a, c)
  {
    assert c.handles[..|a.handles|] == c.handles[..|b.handles|][..|a.handles|];
  }

  lemma {:induction false} InvDoAll(s: State, script: seq<Action>)
    requires Inv(s)
    ensures Inv(DoAll(s, script)) && Grows(s, DoAll(s, script))
    decreases |script|
  {
    hide Inv, Do;
    if script == [] {
    } else {
      var s1 := Do(s, script[0]);
      InvDo(s, script[0]);
      DoGrows(s, script[0]);
      InvDoAll(s1, script[1..]);
      GrowsTransitive(s, s1, DoAll(s, script));
    }
  }

  lemma InvAfterWait(s: State, h: nat, script: seq<Action>)
    requires Inv(s) && h in s.tasks && s.tasks[h].ForReady?
    ensures Inv(AfterWait(s, h, script))
  {
    if h !in s.cancelled {
      InvDoAll(s, script);
      var s1 := DoAll(s, script);
      var t := AfterWait(s, h, script);
      assert RegistryOk(t);
      forall i, j | 0 <= i < j < |t.calls| && t.calls[i].handle == t.calls[j].handle
        ensures t.calls[i].ticket < t.calls[j].consumed
      {
        if j == |s1.calls| { assert t.calls[i] in s.calls; }
      }
      forall c | c in t.calls
        ensures c.handle < |t.handles|
        ensures c.handle in t.tasks ==>
          if t.tasks[c.handle].ForReady? then c.ticket < t.consumed else c.ticket <= t.tasks[c.handle].ticket
      {
        if c in s1.calls && c.handle == h { assert s1.tasks[h].ForReady?; }
      }
    }
  }

  lemma {:induction false} InvCancelKeys(s: State, keys: seq<Key>)
    requires Inv(s) && forall key <- keys :: KeyOk(key)
    ensures Inv(CancelKeys(s, keys)) && CancelKeys(s, keys).calls == s.calls
    ensures CancelKeys(s, keys).cancelled == s.cancelled
    decreases |keys|
  {
    hide Inv;
    if keys == [] {
    } else {
      InvCancelKey(s, keys[0]);
      InvCancelKeys(CancelKey(s, keys[0]), keys[1..]);
    }
  }

  lemma InvCancelKey(s: State, key: Key)
    requires Inv(s) && KeyOk(key)
    ensures Inv(CancelKey(s, key))
    ensures CancelKey(s, key).calls == s.calls && CancelKey(s, key).cancelled == s.cancelled
  {
    InvCancelBit(s, key.readBit, key.reader);
    InvCancelBit(CancelBit(s, key.readBit, key.reader), key.writeBit, key.writer);
  }

  lemma InvCancelBit(s: State, bit: bool, h: Option<nat>)
    requires Inv(s) && (bit ==> h.Some?)
    ensures Inv(CancelBit(s, bit, h))
    ensures CancelBit(s, bit, h).calls == s.calls && CancelBit(s, bit, h).cancelled == s.cancelled
  {
  }

  lemma {:induction false} KeysInAreOk(keys: map<int, Key>, order: seq<int>)
    requires forall fd <- keys :: KeyOk(keys[fd])
    ensures forall key <- KeysIn(keys, order) :: KeyOk(key)
  {
    if order == [] {
    } else {
      KeysInAreOk(keys, order[1..]);
    }
  }

  lemma InvStep(s: State, e: Event)
    requires Inv(s)
    ensures Inv(Step(s, e))
  {
    match e
    case Elsewhere(a) => InvDo(s, a);
    case Ready(h, script) => if h in s.tasks && s.tasks[h].ForReady? { InvAfterWait(s, h, script); }
    case CancelFds(order) =>
      KeysInAreOk(s.keys, order);
      InvCancelKeys(s, KeysIn(s.keys, order));
    case _ => InvTaskStep(s, e);
  }

  lemma InvTaskStep(s: State, e: Event)
    requires Inv(s) && !e.Elsewhere? && !e.Ready? && !e.CancelFds?
    ensures Inv(Step(s, e))
  {
  }

  lemma {:induction false} InvRun(s: State, events: seq<Event>)
    requires Inv(s)
    ensures Inv(Run(s, events))
    decreases |events|
  {
    if events == [] {
    } else {
      InvStep(s, events[0]);
      InvRun(Step(s, events[0]), events[1..]);
    }
  }

  // The theorems

  /** In every reachable state each bit of a key's mask says whether its slot holds a
      handle, so the assertion of _cancel_fds has never failed; and a handle that is not
      cancelled is the one registered for its descriptor and direction, so no two such
      handles share them. */
  lemma RegistryInvariant(events: seq<Event>)
    ensures var s := Run(Initial(), events);
            && !s.assertionFailed
            && (forall fd <- s.keys :: KeyOk(s.keys[fd]))
            && (forall h: nat :: h < |s.handles| && h !in s.cancelled ==> Slot(s.keys, s.handles[h]) == Some(h))
            && (forall g: nat, h: nat |
                  g < |s.handles| && h < |s.handles| && g !in s.cancelled && h !in s.cancelled ::
                  s.handles[g] == s.handles[h] ==> g == h)
  {
    InvRun(Initial(), events);
    var s := Run(Initial(), events);
    forall g: nat, h: nat | g < |s.handles| && h < |s.handles| && g !in s.cancelled && h !in s.cancelled
                            && s.handles[g] == s.handles[h]
      ensures g == h
    {
      assert Slot(s.keys, s.handles[g]) == Some(g);
    }
  }

  /** A callback is called only for a handle that is registered and not cancelled then. */
  lemma CallsTheRegisteredHandle(s: State, e: Event)
    requires Inv(s)
    ensures s.calls <= Step(s, e).calls
    ensures Step(s, e).calls != s.calls ==>
              e.Ready? && e.h < |s.handles| && e.h !in s.cancelled && Slot(s.keys, s.handles[e.h]) == Some(e.h)
              && |Step(s, e).calls| == |s.calls| + 1 && Step(s, e).calls[|s.calls|].handle == e.h
  {
    match e
    case Elsewhere(a) => DoGrows(s, a);
    case Ready(h, script) => InvDoAll(s, script);
    case CancelFds(order) =>
      KeysInAreOk(s.keys, order);
      InvCancelKeys(s, KeysIn(s.keys, order));
    case _ =>
  }

  lemma StepKeepsCancelled(s: State, e: Event)
    requires Inv(s)
    ensures s.cancelled <= Step(s, e).cancelled
  {
    match e
    case Elsewhere(a) => DoGrows(s, a);
    case Ready(h, script) => InvDoAll(s, script);
    case CancelFds(order) =>
      KeysInAreOk(s.keys, order);
      InvCancelKeys(s, KeysIn(s.keys, order));
    case _ =>
  }

  function CallsOf(calls: seq<Call>, h: nat): nat {
    if calls == [] then 0
    else (if calls[|calls| - 1].handle == h then 1 else 0) + CallsOf(calls[..|calls| - 1], h)
  }

  /** Once a handle is cancelled, which replacing it also does, its callback is never
      called again. */
  lemma {:induction false} NoCallOnceCancelled(s: State, events: seq<Event>, h: nat)
    requires Inv(s) && h in s.cancelled
    ensures CallsOf(Run(s, events).calls, h) == CallsOf(s.calls, h)
    decreases |events|
  {
    hide Inv;
    if events == [] {
    } else {
      var t := Step(s, events[0]);
      InvStep(s, events[0]);
      StepKeepsCancelled(s, events[0]);
      CallsTheRegisteredHandle(s, events[0]);
      assert t.calls[..|s.calls|] == s.calls;
      NoCallOnceCancelled(t, events[1..], h);
    }
  }

  lemma ReplacingCancels(s: State, p: Place, h: nat)
    requires Inv(s) && Slot(s.keys, p) == Some(h)
    ensures h in Do(s, AddHandler(p)).cancelled && h in Do(s, RemoveHandler(p)).cancelled
    ensures Slot(Do(s, AddHandler(p)).keys, p) == Some(|s.handles|) && Slot(Do(s, RemoveHandler(p)).keys, p) == None
  {
    SlotAfterSet(s.keys, p, |s.handles|, p);
    SlotAfterClear(s.keys, p, p);
  }

  function Named(h: Option<nat>): set<nat> {
    if h.Some? then {h.value} else {}
  }

  /** Adding or removing a handler concerns its own descriptor and direction only: the
      writer beside a reader, and every other handler, stays registered and uncancelled,
      and no task but the new handle's is started or ended. */
  lemma OnlyItsPlace(s: State, a: Action)
    requires Inv(s) && (a.AddHandler? || a.RemoveHandler?)
    ensures var t := Do(s, a);
            && (forall q: Place | q != a.p :: Slot(t.keys, q) == Slot(s.keys, q))
            && Slot(t.keys, a.p) == (if a.AddHandler? then Some(|s.handles|) else None)
            && t.cancelled == s.cancelled + Named(Slot(s.keys, a.p))
            && t.scopes == s.scopes + Named(Slot(s.keys, a.p))
            && t.handles == s.handles + (if a.AddHandler? then [a.p] else [])
            && t.tasks.Keys == s.tasks.Keys + (if a.AddHandler? && s.running then {|s.handles|} else {})
            && (forall h <- t.tasks :: t.tasks[h] == if h in s.tasks then s.tasks[h] else ForReady)
            && t.queued == s.queued && t.consumed == s.consumed && t.calls == s.calls && t.running == s.running
  {
    forall q: Place
      ensures Slot(SetHandle(s.keys, a.p, |s.handles|), q) == if q == a.p then Some(|s.handles|) else Slot(s.keys, q)
      ensures Slot(ClearHandle(s.keys, a.p), q) == if q == a.p then None else Slot(s.keys, q)
    {
      SlotAfterSet(s.keys, a.p, |s.handles|, q);
      SlotAfterClear(s.keys, a.p, q);
    }
    FreshHandle(s);
    hide Inv, SetHandle, ClearHandle;
  }

  lemma FreshHandle(s: State)
    requires Inv(s)
    ensures |s.handles| !in s.tasks
  {
  }

  /** Cancelling a handle, or queueing a callback, does nothing else. */
  lemma OnlyThat(s: State, a: Action)
    requires a.Cancel? || a.CallSoon?
    ensures var t := Do(s, a);
            var hit := if a.Cancel? && a.handle < |s.handles| then {a.handle} else {};
            t == s.(cancelled := s.cancelled + hit, scopes := s.scopes + hit,
                    queued := s.queued + (if a.CallSoon? then 1 else 0))
  {
    assert s.cancelled + {} == s.cancelled && s.scopes + {} == s.scopes;
  }

  /** The loop's own events touch neither the registry nor the tasks. */
  lemma LoopGoesOn(s: State)
    ensures Step(s, Consume) == if s.consumed < s.queued then s.(consumed := s.consumed + 1) else s
    ensures Step(s, LoopEnds) == s.(running := false)
  {
  }

  /** Handlers added get a task as long as the loop has not ended, and none afterwards. */
  lemma {:induction false} RunningUntilEnd(s: State, events: seq<Event>)
    ensures Run(s, events).running <==> s.running && LoopEnds !in events
    decreases |events|
  {
    if events == [] {
    } else {
      assert events == [events[0]] + events[1..];
      StepRunning(s, events[0]);
      RunningUntilEnd(Step(s, events[0]), events[1..]);
    }
  }

  lemma StepRunning(s: State, e: Event)
    ensures Step(s, e).running <==> s.running && !e.LoopEnds?
  {
    match e
    case Ready(h, script) => DoAllRunning(s, script);
    case CancelFds(order) => CancelKeysRunning(s, KeysIn(s.keys, order));
    case _ =>
  }

  lemma {:induction false} DoAllRunning(s: State, script: seq<Action>)
    ensures DoAll(s, script).running == s.running
    decreases |script|
  {
    if script != [] { DoAllRunning(Do(s, script[0]), script[1..]); }
  }

  lemma {:induction false} CancelKeysRunning(s: State, keys: seq<Key>)
    ensures CancelKeys(s, keys).running == s.running
    decreases |keys|
  {
    if keys != [] { CancelKeysRunning(CancelKey(s, keys[0]), keys[1..]); }
  }

  /** A task whose handle has been cancelled ends without another call: when its descriptor
      becomes ready or fails, when its synchronize() is over, or when it notices that its
      scope is cancelled; an error of the descriptor ends any task. */
  lemma CancelledTaskEnds(s: State, h: nat, script: seq<Action>)
    requires Inv(s) && h in s.tasks
    ensures h in s.scopes ==> Step(s, Interrupted(h)) == s.(tasks := s.tasks - {h})
    ensures h !in s.scopes ==> Step(s, Interrupted(h)) == s
    ensures s.tasks[h].ForReady? && h in s.cancelled ==> Step(s, Ready(h, script)) == s.(tasks := s.tasks - {h})
    ensures s.tasks[h].ForReady? ==> Step(s, OsError(h)) == s.(tasks := s.tasks - {h})
    ensures s.tasks[h].ForSync? && s.consumed > s.tasks[h].ticket ==>
              Step(s, Synced(h)) == if h in s.cancelled then s.(tasks := s.tasks - {h})
                                    else s.(tasks := s.tasks[h := ForReady])
    ensures s.tasks[h].ForSync? ==> Step(s, Ready(h, script)) == s && Step(s, OsError(h)) == s
    ensures s.tasks[h].ForReady? || s.consumed <= s.tasks[h].ticket ==> Step(s, Synced(h)) == s
  {
  }

  /** _cancel_fds cancels the scopes of exactly the handles registered for the descriptors
      it is shown, all of them, and nothing else. */
  lemma CancelFdsReachesAll(s: State, order: seq<int>)
    requires Inv(s)
    ensures var t := Step(s, CancelFds(order));
            && t == s.(scopes := t.scopes)
            && (forall h: nat :: h in t.scopes <==>
                  h in s.scopes || exists p: Place :: p.fd in order && Slot(s.keys, p) == Some(h))
  {
    KeysInAreOk(s.keys, order);
    CancelKeysReaches(s, KeysIn(s.keys, order));
    forall h: nat
      ensures (exists key <- KeysIn(s.keys, order) :: key.reader == Some(h) || key.writer == Some(h)) <==>
                exists p: Place :: p.fd in order && Slot(s.keys, p) == Some(h)
    {
      InOrder(s.keys, order, h);
    }
  }

  lemma {:induction false} InOrder(keys: map<int, Key>, order: seq<int>, h: nat)
    ensures (exists key <- KeysIn(keys, order) :: key.reader == Some(h) || key.writer == Some(h)) <==>
              exists p: Place :: p.fd in order && Slot(keys, p) == Some(h)
  {
    if order != [] {
      InOrder(keys, order[1..], h);
      var fd := order[0];
      assert order == [fd] + order[1..];
      if fd in keys {
        assert KeysIn(keys, order) == [keys[fd]] + KeysIn(keys, order[1..]);
        assert keys[fd] in KeysIn(keys, order);
        assert Slot(keys, Place(fd, Read)) == keys[fd].reader && Slot(keys, Place(fd, Write)) == keys[fd].writer;
      } else {
        assert KeysIn(keys, order) == KeysIn(keys, order[1..]);
      }
    }
  }

  lemma {:induction false} CancelKeysReaches(s: State, keys: seq<Key>)
    requires Inv(s) && forall key <- keys :: KeyOk(key)
    ensures var t := CancelKeys(s, keys);
            && t == s.(scopes := t.scopes)
            && (forall h: nat :: h in t.scopes <==>
                  h in s.scopes || exists key <- keys :: key.reader == Some(h) || key.writer == Some(h))
    decreases |keys|
  {
    if keys != [] {
      assert keys == [keys[0]] + keys[1..];
      InvCancelKey(s, keys[0]);
      CancelKeyReaches(s, keys[0]);
      CancelKeysReaches(CancelKey(s, keys[0]), keys[1..]);
    }
  }

  lemma CancelKeyReaches(s: State, key: Key)
    requires Inv(s) && KeyOk(key)
    ensures var t := CancelKey(s, key);
            && t == s.(scopes := t.scopes)
            && (forall h: nat :: h in t.scopes <==>
                  h in s.scopes || key.reader == Some(h) || key.writer == Some(h))
  {
  }

  /** The n-th handle's task is alive, unless its scope has been cancelled. */
  ghost predicate Alive(s: State, h: nat, p: Place) {
    h < |s.handles| && s.handles[h] == p && (h in s.tasks || h in s.scopes)
  }

  lemma {:induction false} CancelKeysKeepsTasks(s: State, keys: seq<Key>)
    ensures var t := CancelKeys(s, keys); t.tasks == s.tasks && t.handles == s.handles && s.scopes <= t.scopes
    decreases |keys|
  {
    if keys != [] { CancelKeysKeepsTasks(CancelKey(s, keys[0]), keys[1..]); }
  }

  lemma StepKeepsAlive(s: State, e: Event, h: nat, p: Place)
    requires Inv(s) && Alive(s, h, p) && e != OsError(h)
    ensures Alive(Step(s, e), h, p)
  {
    match e
    case Elsewhere(a) =>
      DoGrows(s, a);
      hide Inv, Do;
    case Ready(_, script) =>
      InvDoAll(s, script);
      hide DoAll;
    case CancelFds(order) => CancelKeysKeepsTasks(s, KeysIn(s.keys, order));
    case _ =>
  }

  lemma {:induction false} RunKeepsAlive(s: State, events: seq<Event>, h: nat, p: Place)
    requires Inv(s) && Alive(s, h, p) && OsError(h) !in events
    ensures Inv(Run(s, events)) && Alive(Run(s, events), h, p)
    decreases |events|
  {
    hide Inv, Alive, Step;
    if events == [] {
    } else {
      InvStep(s, events[0]);
      StepKeepsAlive(s, events[0], h, p);
      RunKeepsAlive(Step(s, events[0]), events[1..], h, p);
    }
  }

  /** As often as the loop takes a callback from its queue. */
  function Consumes(n: nat): seq<Event> {
    if n == 0 then [] else [Consume] + Consumes(n - 1)
  }

  /** How many callbacks the loop has yet to take until it has taken the ticket's. */
  function Behind(s: State, ticket: nat): nat {
    if s.consumed > ticket then 0 else ticket + 1 - s.consumed
  }

  lemma {:induction false} ConsumingCatchesUp(s: State, h: nat, n: nat)
    requires h in s.tasks && s.tasks[h].ForSync? && h !in s.cancelled
    requires s.tasks[h].ticket < s.consumed + n <= s.queued
    ensures var t := Run(s, Consumes(n) + [Synced(h)]); h in t.tasks && t.tasks[h].ForReady?
    decreases n
  {
    var events := Consumes(n) + [Synced(h)];
    if n == 0 {
      assert events == [Synced(h)];
    } else {
      assert events[0] == Consume && events[1..] == Consumes(n - 1) + [Synced(h)];
      ConsumingCatchesUp(Step(s, Consume), h, n - 1);
    }
  }

  /** A handle added while the loop runs is served for as long as its scope is not
      cancelled, by cancelling or replacing it or at the exit, and its descriptor causes no
      error, whatever else happens: it stays registered and its task alive. Whenever the
      descriptor is ready its callback is called, whatever it does, and waits for all that
      is queued by then; when that has been consumed the task waits for the descriptor
      again. */
  lemma AddedHandleIsServed(s: State, p: Place, events: seq<Event>, script: seq<Action>)
    requires Inv(s) && s.running && OsError(|s.handles|) !in events
    requires |s.handles| !in Run(Do(s, AddHandler(p)), events).scopes
    ensures var h, t := |s.handles|, Run(Do(s, AddHandler(p)), events);
            && Slot(t.keys, p) == Some(h)
            && h in t.tasks
            && match t.tasks[h]
               case ForReady =>
                 var u, queued := Step(t, Ready(h, script)), DoAll(t, script).queued;
                 && u.calls == t.calls + [Call(h, queued, t.consumed)]
                 && h in u.tasks && u.tasks[h] == ForSync(queued)
               case ForSync(ticket) =>
                 var u := Run(t, Consumes(Behind(t, ticket)) + [Synced(h)]);
                 h in u.tasks && u.tasks[h].ForReady?
  {
    var h, s1 := |s.handles|, Do(s, AddHandler(p));
    InvDo(s, AddHandler(p));
    RunKeepsAlive(s1, events, h, p);
    var t := Run(s1, events);
    RegisteredUnlessCancelled(t, h);
    match t.tasks[h]
    case ForReady => ReadyCalls(t, h, script);
    case ForSync(ticket) =>
      ConsumingCatchesUp(t, h, Behind(t, ticket));
  }

  lemma RegisteredUnlessCancelled(s: State, h: nat)
    requires Inv(s) && h < |s.handles| && h !in s.scopes
    ensures h !in s.cancelled && Slot(s.keys, s.handles[h]) == Some(h)
    ensures s.consumed <= s.queued
    ensures h in s.tasks && s.tasks[h].ForSync? ==> s.tasks[h].ticket < s.queued
  {
  }

  /** What a callback consists of is done in order. */
  lemma {:induction false} DoAllAppend(s: State, a: seq<Action>, b: seq<Action>)
    ensures DoAll(s, a + b) == DoAll(DoAll(s, a), b)
    ensures a != [] ==> DoAll(s, [a[0]]) == Do(s, a[0])
    decreases |a|
  {
    hide Do;
    if a == [] {
      assert a + b == b;
    } else {
      assert [a[0]][1..] == [];
      assert (a + b)[1..] == a[1..] + b;
      DoAllAppend(Do(s, a[0]), a[1..], b);
    }
  }

  /** The callback is called once, and does what it does, before synchronize(). */
  lemma ReadyCalls(s: State, h: nat, script: seq<Action>)
    requires Inv(s) && h in s.tasks && s.tasks[h].ForReady? && h !in s.cancelled
    ensures var u, queued := Step(s, Ready(h, script)), DoAll(s, script).queued;
            && u.calls == s.calls + [Call(h, queued, s.consumed)]
            && h in u.tasks && u.tasks[h] == ForSync(queued)
            && u == DoAll(s, script).(calls := u.calls, queued := queued + 1,
                                      tasks := DoAll(s, script).tasks[h := ForSync(queued)])
  {
    InvDoAll(s, script);
    hide Inv;
  }

  /** Between two calls of one handle's callback, every callback that was queued when the
      first one had finished has been taken from the queue, the callback of its
      synchronize() included. */
  lemma CallsAreSynchronized(events: seq<Event>, i: nat, j: nat)
    requires var s := Run(Initial(), events);
             i < j < |s.calls| && s.calls[i].handle == s.calls[j].handle
    ensures var s := Run(Initial(), events);
            s.calls[i].ticket < s.calls[j].consumed
  {
    InvRun(Initial(), events);
  }
}

/** The registry as part of the loop object: the selector's map and the sets of cancelled
    handles and scopes are updated in place. */
module IoRegistries {
  import opened Options
  import P = IoProtocol

  class IoRegistry {
    var keys: map<int, P.Key>
    var handles: seq<P.Place>
    var cancelled: set<nat>
    var scopes: set<nat>
    var tasks: map<nat, P.Wait>
    var running: bool
    var queued: nat
    ghost var consumed: nat
    ghost var calls: seq<P.Call>

    ghost function Model(): P.State
      reads this
    {
      P.State(keys, handles, cancelled, scopes, tasks, running, queued, consumed, false, calls)
    }

    ghost predicate Valid()
      reads this
    {
      P.Inv(Model())
    }

    constructor ()
      ensures Valid() && Model() == P.Initial()
    {
      keys, handles, cancelled, scopes, tasks := map[], [], {}, {}, map[];
      running, queued, consumed, calls := true, 0, 0, [];
    }

    /** ScopedHandle.cancel. */
    method Cancel(h: nat)
      requires h < |handles|
      modifies this`cancelled, this`scopes
      ensures Model() == P.CancelHandle(old(Model()), h)
    {
      cancelled := cancelled + {h};
      scopes := scopes + {h};
    }

    /** _set_read_handle and _set_write_handle; returns the handle that was replaced. */
    method SetHandle(p: P.Place, h: nat) returns (previous: Option<nat>)
      modifies this`keys
      ensures keys == P.SetHandle(old(keys), p, h) && previous == P.Slot(old(keys), p)
    {
      if p.fd !in keys {
        keys := keys[p.fd := if p.dir.Read? then P.Key(true, false, Some(h), None)
                             else P.Key(false, true, None, Some(h))];
        return None;
      }
      var key := keys[p.fd];
      if p.dir.Read? {
        keys := keys[p.fd := P.Key(true, key.writeBit, Some(h), key.writer)];
        return key.reader;
      } else {
        keys := keys[p.fd := P.Key(key.readBit, true, key.reader, Some(h))];
        return key.writer;
      }
    }

    /** _add_io_handler: register, cancel what was there, start the I/O task. */
    method AddIoHandler(p: P.Place) returns (h: nat)
      requires Valid()
      modifies this
      ensures Valid() && Model() == P.Do(old(Model()), P.AddHandler(p)) && h == |old(handles)|
      ensures P.Slot(keys, p) == Some(h) && h !in cancelled
    {
      P.InvDo(Model(), P.AddHandler(p));
      P.SlotAfterSet(keys, p, |handles|, p);
      assert |handles| !in cancelled;
      h := |handles|;
      handles := handles + [p];
      var previous := SetHandle(p, h);
      if previous.Some? {
        Cancel(previous.value);
      }
      if running {
        tasks := tasks[h := P.ForReady];
      }
    }

    /** The I/O task of `h`, from the return of its wait to its own next wait. `script` is
        what the callback does to the registry. */
    method AfterWait(h: nat, script: seq<P.Action>)
      requires Valid() && h in tasks && tasks[h].ForReady?
      modifies this
      ensures Valid() && Model() == P.Step(old(Model()), P.Ready(h, script))
    {
      P.InvStep(Model(), P.Ready(h, script));
      if h in cancelled {
        tasks := tasks - {h};
        return;
      }
      ghost var before := consumed;
      RunScript(script);
      P.InvDoAll(old(Model()), script);
      calls := calls + [P.Call(h, queued, before)];
      tasks := tasks[h := P.ForSync(queued)];
      queued := queued + 1;
    }

    method RunScript(script: seq<P.Action>)
      requires Valid()
      modifies this
      ensures Valid() && Model() == P.DoAll(old(Model()), script)
    {
      hide P.Inv;
      for i := 0 to |script|
        invariant Valid() && P.DoAll(Model(), script[i..]) == P.DoAll(old(Model()), script)
      {
        assert script[i..][1..] == script[i + 1..];
        P.InvDo(Model(), script[i]);
        match script[i] {
          case AddHandler(p) => var _ := AddIoHandler(p);
          case RemoveHandler(p) => RemoveIoHandler(p);
          case Cancel(h) => if h < |handles| { Cancel(h); }
          case CallSoon => queued := queued + 1;
        }
      }
    }

    /** remove_reader and remove_writer. */
    method RemoveIoHandler(p: P.Place)
      requires Valid()
      modifies this
      ensures Valid() && Model() == P.Do(old(Model()), P.RemoveHandler(p))
      ensures P.Slot(keys, p) == None
    {
      P.InvDo(Model(), P.RemoveHandler(p));
      P.SlotAfterClear(keys, p, p);
      var previous := P.Slot(keys, p);
      if p.fd in keys {
        var key := if p.dir.Read? then keys[p.fd].(readBit := false, reader := None)
                   else keys[p.fd].(writeBit := false, writer := None);
        if !key.readBit && !key.writeBit {
          keys := keys - {p.fd};
        } else {
          keys := keys[p.fd := key];
        }
      }
      if previous.Some? {
        Cancel(previous.value);
      }
    }

    /** _cancel_fds; the assertion in its inner loop is the one in CancelBit. */
    method CancelFds(order: seq<int>)
      requires Valid() && forall i | 0 <= i < |order| :: order[i] in keys
      modifies this`scopes
      ensures Valid() && old(scopes) <= scopes
      ensures forall i | 0 <= i < |order| :: ScopesCancelled(keys[order[i]])
    {
      for i := 0 to |order|
        invariant Valid() && old(scopes) <= scopes && keys == old(keys)
        invariant forall k | 0 <= k < i :: ScopesCancelled(keys[order[k]])
      {
        var key := keys[order[i]];
        P.KeyIsOk(Model(), order[i]);
        CancelBit(key.readBit, key.reader);
        CancelBit(key.writeBit, key.writer);
      }
    }

    ghost predicate ScopesCancelled(key: P.Key)
      reads this
    {
      && (key.readBit ==> key.reader.Some? && key.reader.value in scopes)
      && (key.writeBit ==> key.writer.Some? && key.writer.value in scopes)
    }

    method CancelBit(bit: bool, h: Option<nat>)
      requires Valid() && (bit ==> h.Some?)
      modifies this`scopes
      ensures Valid() && old(scopes) <= scopes
      ensures bit ==> h.Some? && h.value in scopes
    {
      if bit {
        assert h != None;
        if h.value !in cancelled {
          scopes := scopes + {h.value};
        }
      }
    }
  }
}
