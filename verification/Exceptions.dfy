/** Tracebacks are singly linked lists of frames, outermost frame first. */
module Tracebacks {
  datatype Traceback = End | Entry(frame: nat, next: Traceback)

  function Frames(tb: Traceback): seq<nat> {
    match tb
    case End => []
    case Entry(f, next) => [f] + Frames(next)
  }

  function Append(head: Traceback, tail: Traceback): Traceback {
    match head
    case End => tail
    case Entry(f, next) => Entry(f, Append(next, tail))
  }

  /** Rebuilds a list of entries, innermost first, in front of `tail`. */
  function Restack(entries: seq<Traceback>, tail: Traceback): Traceback
    requires forall e <- entries :: e.Entry?
    decreases |entries|
  {
    if entries == [] then tail
    else
      var last := |entries| - 1;
      Restack(entries[..last], Entry(entries[last].frame, tail))
  }

  lemma {:induction false} AppendConcatenates(head: Traceback, tail: Traceback)
    ensures Frames(Append(head, tail)) == Frames(head) + Frames(tail)
  {
    match head
    case End =>
    case Entry(f, next) =>
      AppendConcatenates(next, tail);
  }

  lemma {:induction false} AppendAssociates(a: Traceback, b: Traceback, c: Traceback)
    ensures Append(Append(a, b), c) == Append(a, Append(b, c))
    ensures Append(a, End) == a
  {
    match a
    case End =>
    case Entry(f, next) =>
      AppendAssociates(next, b, c);
  }

  /** The two loops of the iterative version: walk `head` collecting its entries, then
      put them in front of `tail` from the last to the first. */
  method ConcatTb(head: Traceback, tail: Traceback) returns (r: Traceback)
    ensures r == Append(head, tail)
    ensures Frames(r) == Frames(head) + Frames(tail)
  {
    var entries: seq<Traceback> := [];
    var pointer := head;
    while pointer.Entry?
      invariant forall e <- entries :: e.Entry?
      invariant forall t :: Restack(entries, Append(pointer, t)) == Append(head, t)
      decreases pointer
    {
      assert forall t :: Restack(entries + [pointer], Append(pointer.next, t)) == Append(head, t) by {
        assert (entries + [pointer])[..|entries|] == entries;
      }
      entries := entries + [pointer];
      pointer := pointer.next;
    }
    assert Restack(entries, Append(pointer, tail)) == Append(head, tail);
    r := tail;
    var i := |entries|;
    assert entries[..i] == entries;
    while i > 0
      invariant 0 <= i <= |entries|
      invariant Restack(entries[..i], r) == Append(head, tail)
    {
      i := i - 1;
      assert entries[..i + 1][..i] == entries[..i];
      r := Entry(entries[i].frame, r);
    }
    AppendConcatenates(head, tail);
  }
}

/** Exceptions and exception groups, as values: `collapse_exception_group` and
    `collapse_aware_exception_split`. */
module ExceptionTrees {
  import opened Options
  import opened Tracebacks

  /** Where an exception class sits: Ordinary classes derive from Exception, the other
      three only from BaseException. */
  datatype Kind = TrioCancelled | AioCancelled | Ordinary | BaseOnly

  datatype Exc =
    | Leaf(id: nat, kind: Kind, tb: Traceback)
    | Group(ordinary: bool, flagged: bool, tb: Traceback, excs: seq<Exc>)

  /** The identity and class of a leaf, which no transformation may change. */
  datatype LeafId = LeafId(id: nat, kind: Kind)

  /** The two types the callers split by. */
  datatype ExcType = AnyException | AnyTrioCancelled

  /** isinstance(e, Exception); a group is an Exception when it is an ExceptionGroup. */
  predicate IsOrdinary(e: Exc) {
    match e
    case Leaf(_, k, _) => k.Ordinary?
    case Group(o, _, _, _) => o
  }

  predicate Matches(e: Exc, t: ExcType) {
    match t
    case AnyException => IsOrdinary(e)
    case AnyTrioCancelled => e.Leaf? && e.kind.TrioCancelled?
  }

  predicate LeafMatches(l: LeafId, t: ExcType) {
    match t
    case AnyException => l.kind.Ordinary?
    case AnyTrioCancelled => l.kind.TrioCancelled?
  }

  /** What Python guarantees of every group: it is not empty, and an ExceptionGroup
      holds only Exceptions. A BaseExceptionGroup may hold nothing but Exceptions. */
  predicate Valid(e: Exc) {
    match e
    case Leaf(_, _, _) => true
    case Group(o, _, _, xs) =>
      |xs| > 0 && (forall x <- xs :: Valid(x)) && (o ==> AllOrdinary(xs))
  }

  predicate AllOrdinary(xs: seq<Exc>) {
    forall x <- xs :: IsOrdinary(x)
  }

  function Leaves(e: Exc): seq<LeafId> {
    match e
    case Leaf(i, k, _) => [LeafId(i, k)]
    case Group(_, _, _, xs) => LeavesAll(xs)
  }

  function LeavesAll(xs: seq<Exc>): seq<LeafId> {
    if xs == [] then [] else Leaves(xs[0]) + LeavesAll(xs[1..])
  }

  function LeavesOf(o: Option<Exc>): seq<LeafId> {
    match o
    case None => []
    case Some(e) => Leaves(e)
  }

  // Collapsing

  function WithTb(e: Exc, head: Traceback): Exc {
    e.(tb := Append(head, e.tb))
  }

  /** BaseExceptionGroup.derive: a new group, without traceback and without notes. */
  function Derive(xs: seq<Exc>): Exc {
    Group(AllOrdinary(xs), false, End, xs)
  }

  function Collapse(e: Exc): Exc {
    match e
    case Leaf(_, _, _) => e
    case Group(_, flagged, tb, xs) =>
      var kids := CollapseAll(xs);
      if |kids| == 1 && flagged then WithTb(kids[0], tb)
      else if kids != xs then Derive(kids)
      else e
  }

  function CollapseAll(xs: seq<Exc>): (r: seq<Exc>)
    ensures |r| == |xs|
    ensures forall i | 0 <= i < |xs| :: r[i] == Collapse(xs[i])
  {
    if xs == [] then [] else [Collapse(xs[0])] + CollapseAll(xs[1..])
  }

  /** Some node, at any depth, is a flagged group around a single exception. */
  predicate HasFlaggedSingle(e: Exc) {
    match e
    case Leaf(_, _, _) => false
    case Group(_, flagged, _, xs) => (flagged && |xs| == 1) || SomeFlaggedSingle(xs)
  }

  predicate SomeFlaggedSingle(xs: seq<Exc>) {
    exists x <- xs :: HasFlaggedSingle(x)
  }

  /** What collapsing means, told from the outside in: `outer` is the traceback gathered
      from the flagged groups dropped directly around `e`. A surviving node keeps its
      own traceback behind `outer`, except that a surviving group in which something
      was dropped is new, so its own traceback and flag are lost. */
  function Survivor(e: Exc, outer: Traceback): Exc {
    match e
    case Leaf(_, _, _) => WithTb(e, outer)
    case Group(_, flagged, tb, xs) =>
      if flagged && |xs| == 1 then Survivor(xs[0], Append(outer, tb))
      else if SomeFlaggedSingle(xs) then
        var kids := seq(|xs|, i requires 0 <= i < |xs| => Survivor(xs[i], End));
        Group(AllOrdinary(kids), false, outer, kids)
      else WithTb(e, outer)
  }

  lemma {:induction false} CollapseUnchangedIff(e: Exc)
    ensures Collapse(e) == e <==> !HasFlaggedSingle(e)
    ensures Size(Collapse(e)) <= Size(e)
  {
    match e
    case Leaf(_, _, _) =>
    case Group(_, flagged, tb, xs) =>
      var kids := CollapseAll(xs);
      CollapseAllUnchangedIff(xs);
      if |xs| == 1 && flagged {
        assert Size(WithTb(kids[0], tb)) == Size(kids[0]);
      }
  }

  lemma {:induction false} CollapseAllUnchangedIff(xs: seq<Exc>)
    ensures CollapseAll(xs) == xs <==> !SomeFlaggedSingle(xs)
    ensures SizeAll(CollapseAll(xs)) <= SizeAll(xs)
  {
    if xs == [] {
    } else {
      CollapseUnchangedIff(xs[0]);
      CollapseAllUnchangedIff(xs[1..]);
      var kids := CollapseAll(xs);
      assert kids[1..] == CollapseAll(xs[1..]);
      assert kids == [kids[0]] + kids[1..] && xs == [xs[0]] + xs[1..];
    }
  }

  function Size(e: Exc): nat {
    match e
    case Leaf(_, _, _) => 1
    case Group(_, _, _, xs) => 1 + SizeAll(xs)
  }

  function SizeAll(xs: seq<Exc>): nat {
    if xs == [] then 0 else Size(xs[0]) + SizeAll(xs[1..])
  }

  /** The bottom-up code computes the outside-in meaning. */
  lemma {:induction false} CollapseMeaning(e: Exc, outer: Traceback)
    ensures WithTb(Collapse(e), outer) == Survivor(e, outer)
  {
    match e
    case Leaf(_, _, _) =>
    case Group(_, flagged, tb, xs) =>
      CollapseAllUnchangedIff(xs);
      var kids := CollapseAll(xs);
      if flagged && |xs| == 1 {
        CollapseMeaning(xs[0], Append(outer, tb));
        AppendAssociates(outer, tb, kids[0].tb);
      } else if SomeFlaggedSingle(xs) {
        AppendAssociates(outer, End, End);
        forall i | 0 <= i < |xs| ensures kids[i] == Survivor(xs[i], End) {
          CollapseMeaning(xs[i], End);
          NoOuter(kids[i]);
        }
        hide Survivor;
        assert kids == seq(|xs|, i requires 0 <= i < |xs| => Survivor(xs[i], End));
      }
  }

  lemma NoOuter(e: Exc)
    ensures WithTb(e, End) == e
  {
  }

  lemma {:induction false} CollapseKeepsLeaves(e: Exc)
    ensures Leaves(Collapse(e)) == Leaves(e)
  {
    match e
    case Leaf(_, _, _) =>
    case Group(_, flagged, tb, xs) =>
      CollapseAllKeepsLeaves(xs);
      if |xs| == 1 && flagged {
        var kid := Collapse(xs[0]);
        assert LeavesAll(CollapseAll(xs)) == Leaves(kid) + LeavesAll([]);
        assert Leaves(WithTb(kid, tb)) == Leaves(kid);
      }
  }

  lemma {:induction false} CollapseAllKeepsLeaves(xs: seq<Exc>)
    ensures LeavesAll(CollapseAll(xs)) == LeavesAll(xs)
  {
    if xs == [] {
    } else {
      CollapseKeepsLeaves(xs[0]);
      CollapseAllKeepsLeaves(xs[1..]);
      assert CollapseAll(xs)[1..] == CollapseAll(xs[1..]);
    }
  }

  /** No flagged single-exception group is left at any depth; hence idempotence. */
  lemma {:induction false} CollapseIsComplete(e: Exc)
    ensures !HasFlaggedSingle(Collapse(e))
    ensures Collapse(Collapse(e)) == Collapse(e)
  {
    CollapseUnchangedIff(Collapse(e));
    CollapseUnchangedIff(e);
    match e
    case Leaf(_, _, _) =>
    case Group(_, flagged, tb, xs) =>
      var kids := CollapseAll(xs);
      forall i | 0 <= i < |xs| ensures !HasFlaggedSingle(kids[i]) {
        CollapseIsComplete(xs[i]);
      }
      if |xs| == 1 && flagged {
        assert HasFlaggedSingle(WithTb(kids[0], tb)) == HasFlaggedSingle(kids[0]);
      }
  }

  lemma {:induction false} CollapseKeepsValid(e: Exc)
    requires Valid(e)
    ensures Valid(Collapse(e))
    ensures IsOrdinary(e) ==> IsOrdinary(Collapse(e))
  {
    match e
    case Leaf(_, _, _) =>
    case Group(o, _, _, xs) =>
      forall i | 0 <= i < |xs|
        ensures Valid(Collapse(xs[i])) && (IsOrdinary(xs[i]) ==> IsOrdinary(Collapse(xs[i])))
      {
        CollapseKeepsValid(xs[i]);
      }
  }

  /** A chain of flagged groups around `core`, outermost first. */
  function Wrap(tbs: seq<Traceback>, core: Exc): Exc {
    if tbs == [] then core
    else var inner := Wrap(tbs[1..], core); Group(IsOrdinary(inner), true, tbs[0], [inner])
  }

  function ChainTb(tbs: seq<Traceback>): Traceback {
    if tbs == [] then End else Append(tbs[0], ChainTb(tbs[1..]))
  }

  /** Along a chain that collapses completely the survivor's traceback is the
      outermost-first concatenation, and nothing else of it changes. */
  lemma {:induction false} ChainTraceback(tbs: seq<Traceback>, core: Exc)
    requires !HasFlaggedSingle(core)
    ensures Collapse(Wrap(tbs, core)) == WithTb(core, ChainTb(tbs))
    ensures Frames(WithTb(core, ChainTb(tbs)).tb) == Frames(ChainTb(tbs)) + Frames(core.tb)
  {
    CollapseUnchangedIff(core);
    AppendConcatenates(ChainTb(tbs), core.tb);
    if tbs == [] {
      AppendAssociates(core.tb, End, End);
    } else {
      ChainTraceback(tbs[1..], core);
      var w := Wrap(tbs[1..], core);
      CollapseSingle(Group(IsOrdinary(w), true, tbs[0], [w]));
      AppendAssociates(tbs[0], ChainTb(tbs[1..]), core.tb);
    }
  }

  lemma CollapseSingle(e: Exc)
    requires e.Group? && e.flagged && |e.excs| == 1
    ensures Collapse(e) == WithTb(Collapse(e.excs[0]), e.tb)
  {
  }

  /** A group that survives, behind the traceback gathered around it, keeps its own exactly
      if that is empty or nothing inside the group is dropped. */
  lemma SurvivorKeepsTracebackIff(e: Exc, outer: Traceback)
    requires e.Group? && !(e.flagged && |e.excs| == 1)
    ensures Survivor(e, outer).tb == Append(outer, e.tb) <==> e.tb.End? || !SomeFlaggedSingle(e.excs)
    ensures Collapse(e).tb == e.tb <==> e.tb.End? || !SomeFlaggedSingle(e.excs)
  {
    AppendConcatenates(outer, e.tb);
    AppendAssociates(outer, End, End);
    CollapseMeaning(e, End);
    CollapseAllUnchangedIff(e.excs);
  }

  /** So one step away from a complete chain the claim fails: a group that survives around
      a dropped one loses its own frames, here frame 7. */
  lemma DerivedGroupLosesItsTraceback()
    ensures var x := Leaf(0, Ordinary, End);
            var e := Group(true, false, Entry(7, End), [Group(true, true, End, [x])]);
            Collapse(e).Group? && Frames(e.tb) == [7] && Frames(Collapse(e).tb) == []
  {
    var x := Leaf(0, Ordinary, End);
    var inner := Group(true, true, End, [x]);
    assert CollapseAll([x]) == [x];
    assert Collapse(inner) == x;
    assert CollapseAll([inner]) == [x];
    assert [x][0] != [inner][0];
  }

  /** The code's own shape: a loop over a list edited in place, and object identity
      tracked as `same`, which is what `is not` tests. */
  method CollapseExceptionGroup(group: Exc) returns (r: Exc, same: bool)
    requires group.Group?
    ensures r == Collapse(group)
    ensures same <==> r == group
    decreases group
  {
    CollapseUnchangedIff(group);
    var exceptions := group.excs;
    var modified := false;
    for i := 0 to |group.excs|
      invariant |exceptions| == |group.excs|
      invariant forall k | 0 <= k < i :: exceptions[k] == Collapse(group.excs[k])
      invariant forall k | i <= k < |exceptions| :: exceptions[k] == group.excs[k]
      invariant modified <==> exceptions != group.excs
    {
      if exceptions[i].Group? {
        var newExc, kept := CollapseExceptionGroup(exceptions[i]);
        if !kept {
          modified := true;
          exceptions := exceptions[i := newExc];
          assert exceptions[i] != group.excs[i];
        }
      }
    }
    assert exceptions == CollapseAll(group.excs);
    if |exceptions| == 1 && group.flagged {
      var tb := ConcatTb(group.tb, exceptions[0].tb);
      return exceptions[0].(tb := tb), false;
    } else if modified {
      return Derive(exceptions), false;
    } else {
      return group, true;
    }
  }

  // Splitting

  /** The part of `e` holding `xs`: PEP 654 gives it the metadata of `e`. */
  function Part(e: Exc, xs: seq<Exc>): Option<Exc>
    requires e.Group?
  {
    if xs == [] then None else Some(Group(AllOrdinary(xs), e.flagged, e.tb, xs))
  }

  /** BaseExceptionGroup.split (PEP 654): a group that is itself of the type matches as
      a whole; otherwise each child is split. */
  function Split(e: Exc, t: ExcType): (Option<Exc>, Option<Exc>) {
    if Matches(e, t) then (Some(e), None)
    else
      match e
      case Leaf(_, _, _) => (None, Some(e))
      case Group(_, _, _, xs) =>
        var (ms, rs) := SplitAll(xs, t);
        (Part(e, ms), Part(e, rs))
  }

  function SplitAll(xs: seq<Exc>, t: ExcType): (seq<Exc>, seq<Exc>) {
    if xs == [] then ([], [])
    else
      var (m, r) := Split(xs[0], t);
      var (ms, rs) := SplitAll(xs[1..], t);
      (Listed(m) + ms, Listed(r) + rs)
  }

  function Listed(o: Option<Exc>): seq<Exc> {
    if o.Some? then [o.value] else []
  }

  function CollapseSome(o: Option<Exc>): Option<Exc> {
    if o.Some? && o.value.Group? then Some(Collapse(o.value)) else o
  }

  function CollapseAwareSplit(e: Exc, t: ExcType): (Option<Exc>, Option<Exc>) {
    if e.Leaf? then
      if Matches(e, t) then (Some(e), None) else (None, Some(e))
    else
      var (m, r) := Split(e, t);
      (CollapseSome(m), CollapseSome(r))
  }

  /** The leaves that are (`want`), or are not, of the type, in order. */
  function Select(ls: seq<LeafId>, t: ExcType, want: bool): seq<LeafId> {
    if ls == [] then []
    else (if LeafMatches(ls[0], t) == want then [ls[0]] else []) + Select(ls[1..], t, want)
  }

  lemma {:induction false} SelectAppend(a: seq<LeafId>, b: seq<LeafId>, t: ExcType, want: bool)
    ensures Select(a + b, t, want) == Select(a, t, want) + Select(b, t, want)
  {
    if a == [] {
      assert a + b == b;
    } else {
      SelectAppend(a[1..], b, t, want);
      assert (a + b)[0] == a[0] && (a + b)[1..] == a[1..] + b;
      var head := if LeafMatches(a[0], t) == want then [a[0]] else [];
      assert head + (Select(a[1..], t, want) + Select(b, t, want))
          == (head + Select(a[1..], t, want)) + Select(b, t, want);
    }
  }

  lemma {:induction false} LeavesAllAppend(a: seq<Exc>, b: seq<Exc>)
    ensures LeavesAll(a + b) == LeavesAll(a) + LeavesAll(b)
  {
    hide Leaves;
    if a == [] {
      assert a + b == b;
    } else {
      LeavesAllAppend(a[1..], b);
      assert (a + b)[0] == a[0] && (a + b)[1..] == a[1..] + b;
      Associates(Leaves(a[0]), LeavesAll(a[1..]), LeavesAll(b));
    }
  }

  lemma Associates(a: seq<LeafId>, b: seq<LeafId>, c: seq<LeafId>)
    ensures a + (b + c) == (a + b) + c
  {
  }

  /** All leaves of an Exception are Exceptions, and no valid tree is without leaves. */
  lemma {:induction false} OrdinaryLeaves(e: Exc)
    requires Valid(e)
    ensures Leaves(e) != []
    ensures IsOrdinary(e) ==>
              Select(Leaves(e), AnyException, true) == Leaves(e) && Select(Leaves(e), AnyException, false) == []
  {
    match e
    case Leaf(_, _, _) =>
    case Group(o, _, _, xs) =>
      OrdinaryLeaves(xs[0]);
      if o {
        OrdinaryLeavesAll(xs);
      }
  }

  lemma {:induction false} OrdinaryLeavesAll(xs: seq<Exc>)
    requires forall x <- xs :: Valid(x) && IsOrdinary(x)
    ensures Select(LeavesAll(xs), AnyException, true) == LeavesAll(xs)
    ensures Select(LeavesAll(xs), AnyException, false) == []
  {
    if xs == [] {
    } else {
      OrdinaryLeaves(xs[0]);
      OrdinaryLeavesAll(xs[1..]);
      SelectAppend(Leaves(xs[0]), LeavesAll(xs[1..]), AnyException, true);
      SelectAppend(Leaves(xs[0]), LeavesAll(xs[1..]), AnyException, false);
    }
  }

  ghost predicate IsPartition(ls: seq<LeafId>, t: ExcType, m: Option<Exc>, r: Option<Exc>) {
    && LeavesOf(m) == Select(ls, t, true)
    && LeavesOf(r) == Select(ls, t, false)
    && (m.None? <==> Select(ls, t, true) == [])
    && (r.None? <==> Select(ls, t, false) == [])
    && (m.Some? ==> Valid(m.value))
    && (r.Some? ==> Valid(r.value))
  }

  lemma {:induction false} SplitPartitions(e: Exc, t: ExcType)
    requires Valid(e)
    ensures IsPartition(Leaves(e), t, Split(e, t).0, Split(e, t).1)
  {
    OrdinaryLeaves(e);
    if e.Group? && !Matches(e, t) {
      SplitAllPartitions(e.excs, t);
      var (ms, rs) := SplitAll(e.excs, t);
      if ms != [] { OrdinaryLeaves(ms[0]); }
      if rs != [] { OrdinaryLeaves(rs[0]); }
    }
  }

  lemma {:induction false} SplitAllPartitions(xs: seq<Exc>, t: ExcType)
    requires forall x <- xs :: Valid(x)
    ensures var (ms, rs) := SplitAll(xs, t);
            && LeavesAll(ms) == Select(LeavesAll(xs), t, true)
            && LeavesAll(rs) == Select(LeavesAll(xs), t, false)
            && (forall x <- ms :: Valid(x)) && (forall x <- rs :: Valid(x))
  {
    if xs == [] {
    } else {
      var (m, r) := Split(xs[0], t);
      var (ms, rs) := SplitAll(xs[1..], t);
      SplitPartitions(xs[0], t);
      SplitAllPartitions(xs[1..], t);
      SelectAppend(Leaves(xs[0]), LeavesAll(xs[1..]), t, true);
      SelectAppend(Leaves(xs[0]), LeavesAll(xs[1..]), t, false);
      LeavesAllAppend(Listed(m), ms);
      LeavesAllAppend(Listed(r), rs);
      assert LeavesAll(Listed(m)) == LeavesOf(m) && LeavesAll(Listed(r)) == LeavesOf(r);
    }
  }

  // What becomes of everything above the leaves

  /** The tree without the leaves that are not (`want`), or are, of the type: a group left
      without any goes, too, and one that stays keeps its traceback and its flag. */
  function Prune(e: Exc, t: ExcType, want: bool): Option<Exc> {
    match e
    case Leaf(i, k, _) => if LeafMatches(LeafId(i, k), t) == want then Some(e) else None
    case Group(_, flagged, tb, xs) =>
      var kids := PruneAll(xs, t, want);
      if kids == [] then None else Some(Group(AllOrdinary(kids), flagged, tb, kids))
  }

  function PruneAll(xs: seq<Exc>, t: ExcType, want: bool): seq<Exc> {
    if xs == [] then []
    else
      var head := Prune(xs[0], t, want);
      if head.Some? then [head.value] + PruneAll(xs[1..], t, want) else PruneAll(xs[1..], t, want)
  }

  /** What lies above a leaf, from the root: the flags and the frames of the groups. */
  datatype Mark = Mark(flagged: bool, frames: seq<nat>)

  datatype Path = Path(above: seq<Mark>, leaf: LeafId, frames: seq<nat>)

  function Below(m: Mark, paths: seq<Path>): (r: seq<Path>)
    ensures |r| == |paths|
    ensures forall i | 0 <= i < |paths| :: r[i] == paths[i].(above := [m] + paths[i].above)
  {
    if paths == [] then [] else [paths[0].(above := [m] + paths[0].above)] + Below(m, paths[1..])
  }

  /** All leaves in order, each with what lies above it. */
  function Paths(e: Exc): seq<Path> {
    match e
    case Leaf(i, k, tb) => [Path([], LeafId(i, k), Frames(tb))]
    case Group(_, flagged, tb, xs) => Below(Mark(flagged, Frames(tb)), PathsAll(xs))
  }

  function PathsAll(xs: seq<Exc>): seq<Path> {
    if xs == [] then [] else Paths(xs[0]) + PathsAll(xs[1..])
  }

  function PathsOf(o: Option<Exc>): seq<Path> {
    if o.Some? then Paths(o.value) else []
  }

  function SelectPaths(ps: seq<Path>, t: ExcType, want: bool): seq<Path> {
    if ps == [] then []
    else if LeafMatches(ps[0].leaf, t) == want then [ps[0]] + SelectPaths(ps[1..], t, want)
    else SelectPaths(ps[1..], t, want)
  }

  lemma PathsAssociate(a: seq<Path>, b: seq<Path>, c: seq<Path>)
    ensures a + (b + c) == (a + b) + c
  {
  }

  lemma {:induction false} SelectPathsAppend(a: seq<Path>, b: seq<Path>, t: ExcType, want: bool)
    ensures SelectPaths(a + b, t, want) == SelectPaths(a, t, want) + SelectPaths(b, t, want)
  {
    hide LeafMatches;
    if a == [] {
      assert a + b == b;
    } else {
      SelectPathsAppend(a[1..], b, t, want);
      assert (a + b)[0] == a[0] && (a + b)[1..] == a[1..] + b;
      PathsAssociate([a[0]], SelectPaths(a[1..], t, want), SelectPaths(b, t, want));
    }
  }

  lemma {:induction false} SelectPathsBelow(m: Mark, ps: seq<Path>, t: ExcType, want: bool)
    ensures SelectPaths(Below(m, ps), t, want) == Below(m, SelectPaths(ps, t, want))
  {
    if ps != [] {
      SelectPathsBelow(m, ps[1..], t, want);
      assert Below(m, ps)[1..] == Below(m, ps[1..]);
    }
  }

  lemma {:induction false} PruneKeepsPaths(e: Exc, t: ExcType, want: bool)
    ensures PathsOf(Prune(e, t, want)) == SelectPaths(Paths(e), t, want)
  {
    match e
    case Leaf(_, _, _) =>
    case Group(_, flagged, tb, xs) =>
      PruneAllKeepsPaths(xs, t, want);
      SelectPathsBelow(Mark(flagged, Frames(tb)), PathsAll(xs), t, want);
  }

  lemma {:induction false} PruneAllKeepsPaths(xs: seq<Exc>, t: ExcType, want: bool)
    ensures PathsAll(PruneAll(xs, t, want)) == SelectPaths(PathsAll(xs), t, want)
  {
    if xs != [] {
      PruneKeepsPaths(xs[0], t, want);
      PruneAllKeepsPaths(xs[1..], t, want);
      SelectPathsAppend(Paths(xs[0]), PathsAll(xs[1..]), t, want);
    }
  }

  lemma {:induction false} PruneOrdinary(e: Exc)
    requires Valid(e) && IsOrdinary(e)
    ensures Prune(e, AnyException, true) == Some(e) && Prune(e, AnyException, false) == None
  {
    if e.Group? { PruneAllOrdinary(e.excs); }
  }

  lemma {:induction false} PruneAllOrdinary(xs: seq<Exc>)
    requires forall x <- xs :: Valid(x) && IsOrdinary(x)
    ensures PruneAll(xs, AnyException, true) == xs && PruneAll(xs, AnyException, false) == []
  {
    if xs != [] {
      PruneOrdinary(xs[0]);
      PruneAllOrdinary(xs[1..]);
      assert xs == [xs[0]] + xs[1..];
    }
  }

  lemma {:induction false} SplitIsPrune(e: Exc, t: ExcType)
    requires Valid(e)
    ensures Split(e, t) == (Prune(e, t, true), Prune(e, t, false))
  {
    if e.Group? {
      if t.AnyException? && IsOrdinary(e) { PruneOrdinary(e); } else { SplitAllIsPrune(e.excs, t); }
    }
  }

  lemma {:induction false} SplitAllIsPrune(xs: seq<Exc>, t: ExcType)
    requires forall x <- xs :: Valid(x)
    ensures SplitAll(xs, t) == (PruneAll(xs, t, true), PruneAll(xs, t, false))
  {
    if xs != [] {
      SplitIsPrune(xs[0], t);
      SplitAllIsPrune(xs[1..], t);
      var (ms, rs) := SplitAll(xs[1..], t);
      assert [] + ms == ms && [] + rs == rs;
    }
  }

  /** split takes nothing away from above a leaf: on either side, the leaves of that side
      have above them the flags and the frames that they had, and keep their own frames. */
  lemma {:induction false} SplitKeepsPaths(e: Exc, t: ExcType)
    requires Valid(e)
    ensures PathsOf(Split(e, t).0) == SelectPaths(Paths(e), t, true)
    ensures PathsOf(Split(e, t).1) == SelectPaths(Paths(e), t, false)
  {
    SplitIsPrune(e, t);
    PruneKeepsPaths(e, t, true);
    PruneKeepsPaths(e, t, false);
  }

  function SurvivorOf(o: Option<Exc>): Option<Exc> {
    if o.Some? then Some(Survivor(o.value, End)) else None
  }

  /** What the two sides are: the tree pruned to the leaves of that side, and of that what
      survives the collapse, told from the outside in. */
  lemma {:induction false} CollapseAwareSplitMeaning(e: Exc, t: ExcType)
    requires Valid(e)
    ensures CollapseAwareSplit(e, t) == (SurvivorOf(Prune(e, t, true)), SurvivorOf(Prune(e, t, false)))
  {
    SplitIsPrune(e, t);
    SidesMeaning(Prune(e, t, true));
    SidesMeaning(Prune(e, t, false));
  }

  lemma SidesMeaning(side: Option<Exc>)
    ensures CollapseSome(side) == SurvivorOf(side)
  {
    if side.Some? {
      CollapseMeaning(side.value, End);
      if side.value.Leaf? { assert Collapse(side.value) == side.value; }
      assert WithTb(Collapse(side.value), End) == Collapse(side.value);
    }
  }

  /** The split used by `AsyncHandle._run` is an order-preserving partition of the
      leaves: each leaf goes to exactly one side, and a side without leaves is None. */
  lemma {:induction false} CollapseAwareSplitPartitions(e: Exc, t: ExcType)
    requires Valid(e)
    ensures var (m, r) := CollapseAwareSplit(e, t); IsPartition(Leaves(e), t, m, r)
  {
    SplitPartitions(e, t);
    var (m, r) := Split(e, t);
    if m.Some? { CollapseKeepsLeaves(m.value); CollapseKeepsValid(m.value); }
    if r.Some? { CollapseKeepsLeaves(r.value); CollapseKeepsValid(r.value); }
  }

  /** Neither side keeps a group that could still be collapsed. */
  lemma {:induction false} CollapseAwareSplitCollapses(e: Exc, t: ExcType)
    ensures var (m, r) := CollapseAwareSplit(e, t);
            && (m.Some? ==> !HasFlaggedSingle(m.value)) && (r.Some? ==> !HasFlaggedSingle(r.value))
  {
    var (m, r) := Split(e, t);
    if m.Some? { CollapseIsComplete(m.value); }
    if r.Some? { CollapseIsComplete(r.value); }
  }

  /** Every group is an ExceptionGroup exactly when it could be, as in all groups built
      by split and derive. */
  predicate Canonical(e: Exc) {
    match e
    case Leaf(_, _, _) => true
    case Group(o, _, _, xs) => |xs| > 0 && o == AllOrdinary(xs) && forall x <- xs :: Canonical(x)
  }

  lemma {:induction false} SplitIsCanonical(e: Exc)
    ensures var r := Split(e, AnyTrioCancelled).1; r.Some? ==> Canonical(r.value)
    ensures var r := CollapseAwareSplit(e, AnyTrioCancelled).1; r.Some? ==> Canonical(r.value)
  {
    if e.Group? {
      SplitAllIsCanonical(e.excs);
      var r := Split(e, AnyTrioCancelled).1;
      if r.Some? { CollapseIsCanonical(r.value); }
    }
  }

  lemma {:induction false} SplitAllIsCanonical(xs: seq<Exc>)
    ensures forall x <- SplitAll(xs, AnyTrioCancelled).1 :: Canonical(x)
  {
    if xs == [] {
    } else {
      SplitIsCanonical(xs[0]);
      SplitAllIsCanonical(xs[1..]);
    }
  }

  lemma {:induction false} CollapseIsCanonical(e: Exc)
    requires Canonical(e)
    ensures Canonical(Collapse(e))
  {
    match e
    case Leaf(_, _, _) =>
    case Group(_, flagged, tb, xs) =>
      var kids := CollapseAll(xs);
      forall i | 0 <= i < |xs| ensures Canonical(kids[i]) {
        CollapseIsCanonical(xs[i]);
      }
  }

  lemma {:induction false} SplitOfRest(e: Exc)
    requires Canonical(e) && Select(Leaves(e), AnyTrioCancelled, true) == []
    ensures Split(e, AnyTrioCancelled) == (None, Some(e))
  {
    if e.Group? {
      SplitAllOfRest(e.excs);
    }
  }

  lemma {:induction false} SplitAllOfRest(xs: seq<Exc>)
    requires forall x <- xs :: Canonical(x)
    requires Select(LeavesAll(xs), AnyTrioCancelled, true) == []
    ensures SplitAll(xs, AnyTrioCancelled) == ([], xs)
  {
    if xs == [] {
    } else {
      SelectAppend(Leaves(xs[0]), LeavesAll(xs[1..]), AnyTrioCancelled, true);
      SplitOfRest(xs[0]);
      SplitAllOfRest(xs[1..]);
      assert [xs[0]] + xs[1..] == xs;
    }
  }

  lemma {:induction false} SelectTwice(ls: seq<LeafId>, t: ExcType, want: bool)
    ensures Select(Select(ls, t, want), t, want) == Select(ls, t, want)
    ensures Select(Select(ls, t, want), t, !want) == []
  {
    if ls == [] {
    } else {
      SelectTwice(ls[1..], t, want);
      var head := if LeafMatches(ls[0], t) == want then [ls[0]] else [];
      SelectAppend(head, Select(ls[1..], t, want), t, want);
      SelectAppend(head, Select(ls[1..], t, want), t, !want);
    }
  }

  /** Splitting the Cancelled leaves off twice changes nothing the second time, so it
      does not matter whether the cancel scope has already removed them. */
  lemma {:induction false} SplitTwice(e: Exc)
    requires Valid(e)
    ensures var r := CollapseAwareSplit(e, AnyTrioCancelled).1;
            r.Some? ==> CollapseAwareSplit(r.value, AnyTrioCancelled) == (None, r)
  {
    var r := CollapseAwareSplit(e, AnyTrioCancelled).1;
    if r.Some? {
      CollapseAwareSplitPartitions(e, AnyTrioCancelled);
      SelectTwice(Leaves(e), AnyTrioCancelled, false);
      SplitIsCanonical(e);
      SplitOfRest(r.value);
      CollapseAwareSplitCollapses(e, AnyTrioCancelled);
      CollapseUnchangedIff(r.value);
    }
  }

  /** What is left after splitting the Cancelled leaves off is the exception itself exactly
      when it has none, is canonical, and holds nothing that could be collapsed. A single
      exception that is not Cancelled always passes. */
  lemma RestIsUnchangedIff(e: Exc)
    requires Valid(e)
    ensures CollapseAwareSplit(e, AnyTrioCancelled).1 == Some(e)
            <==> Select(Leaves(e), AnyTrioCancelled, true) == [] && Canonical(e) && !HasFlaggedSingle(e)
  {
    CollapseAwareSplitPartitions(e, AnyTrioCancelled);
    SelectTwice(Leaves(e), AnyTrioCancelled, false);
    SplitIsCanonical(e);
    CollapseAwareSplitCollapses(e, AnyTrioCancelled);
    CollapseUnchangedIff(e);
    if Select(Leaves(e), AnyTrioCancelled, true) == [] && Canonical(e) {
      SplitOfRest(e);
    }
  }
}
