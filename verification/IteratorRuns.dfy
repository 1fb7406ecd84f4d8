/** Whole runs of calls on a program's containers and iterators. */
module IteratorRuns {
  import opened Chains
  import opened IteratorRegistry
  import opened Options
  import LiveIterators

  /** Iterators are numbered as they come to life, containers are those of `regs`. */
  datatype Op =
    | Create(owner: Option<nat>, element: nat)
    | Copy(i: nat)
    | Destroy(i: nat)
    | Assign(i: nat, j: nat)
    | Invalidate(r: nat, i: nat)
    | InvalidateExcept(r: nat, i: nat)
    | InvalidateAll(r: nat)

  /** What an iterator says: its container, null once it is invalid, and its cell. */
  datatype View = View(registry: Registry?, element: nat)

  predicate Allowed(containers: nat, n: nat, op: Op) {
    match op
    case Create(owner, _) => owner.Some? ==> owner.value < containers
    case Copy(i) => i < n
    case Destroy(i) => i < n
    case Assign(i, j) => i < n && j < n
    case Invalidate(r, i) => r < containers && i < n
    case InvalidateExcept(r, i) => r < containers && i < n
    case InvalidateAll(r) => r < containers
  }

  /** Those of `r` that `which` selects become invalid. */
  ghost function Cleared(v: seq<View>, r: Registry, which: nat -> bool): (w: seq<View>)
    ensures |w| == |v|
  {
    seq(|v|, k requires 0 <= k < |v| =>
      if v[k].registry == r && which(v[k].element) then v[k].(registry := null) else v[k])
  }

  ghost function Perform(regs: seq<Registry>, v: seq<View>, op: Op): seq<View>
    requires Allowed(|regs|, |v|, op)
  {
    match op
    case Create(owner, element) => v + [View(if owner.Some? then regs[owner.value] else null, element)]
    case Copy(i) => v + [v[i]]
    case Destroy(i) => v[..i] + v[i + 1..]
    case Assign(i, j) => v[i := v[j]]
    case Invalidate(r, i) => Cleared(v, regs[r], x => x == v[i].element)
    case InvalidateExcept(r, i) => Cleared(v, regs[r], x => x != v[i].element)
    case InvalidateAll(r) => Cleared(v, regs[r], _ => true)
  }

  /** How many iterators are alive after the call. */
  function Count(n: nat, op: Op): nat {
    if op.Create? || op.Copy? then n + 1 else if op.Destroy? && n > 0 then n - 1 else n
  }

  ghost predicate AllAllowed(containers: nat, n: nat, ops: seq<Op>)
    decreases |ops|
  {
    ops == [] || (Allowed(containers, n, ops[0]) && AllAllowed(containers, Count(n, ops[0]), ops[1..]))
  }

  ghost function PerformAll(regs: seq<Registry>, v: seq<View>, ops: seq<Op>): seq<View>
    requires AllAllowed(|regs|, |v|, ops)
    decreases |ops|
  {
    if ops == [] then v else PerformAll(regs, Perform(regs, v, ops[0]), ops[1..])
  }

  // ----- one iterator through a sequence of calls -----

  /** The call neither destroys iterator `k` nor assigns to it. */
  predicate Spares(op: Op, k: nat) {
    op != Destroy(k) && !(op.Assign? && op.i == k)
  }

  /** The number that iterator `k` has after the call. */
  function Moved(op: Op, k: nat): nat {
    if op.Destroy? && op.i < k then k - 1 else k
  }

  predicate AllSpare(ops: seq<Op>, k: nat)
    decreases |ops|
  {
    ops == [] || (Spares(ops[0], k) && AllSpare(ops[1..], Moved(ops[0], k)))
  }

  function Place(ops: seq<Op>, k: nat): nat
    decreases |ops|
  {
    if ops == [] then k else Place(ops[1..], Moved(ops[0], k))
  }

  /** The call invalidates some iterators of `r`. */
  predicate Invalidates(op: Op, r: Registry?, regs: seq<Registry>) {
    (op.Invalidate? || op.InvalidateExcept? || op.InvalidateAll?) && op.r < |regs| && regs[op.r] == r
  }

  lemma SparedStep(regs: seq<Registry>, v: seq<View>, op: Op, k: nat)
    requires Allowed(|regs|, |v|, op) && k < |v| && Spares(op, k)
    ensures |Perform(regs, v, op)| == Count(|v|, op) && Moved(op, k) < Count(|v|, op)
    ensures var w := Perform(regs, v, op)[Moved(op, k)];
            && w.element == v[k].element && (w.registry == v[k].registry || w.registry == null)
            && (!Invalidates(op, v[k].registry, regs) ==> w.registry == v[k].registry)
            && (op.InvalidateAll? && Invalidates(op, v[k].registry, regs) ==> w.registry == null)
  {
  }

  lemma PerformAt(regs: seq<Registry>, v: seq<View>, op: Op, k: nat)
    requires Allowed(|regs|, |v|, op) && k < |v| && Spares(op, k)
    ensures |Perform(regs, v, op)| == Count(|v|, op) && Moved(op, k) < Count(|v|, op)
    ensures !Clears(op) ==> Perform(regs, v, op)[Moved(op, k)] == v[k]
    ensures Clears(op) ==> Perform(regs, v, op)[k] == if Strikes(regs, v, op, v[k]) then v[k].(registry := null) else v[k]
  {
  }

  predicate Clears(op: Op) {
    op.Invalidate? || op.InvalidateExcept? || op.InvalidateAll?
  }

  /** An iterator that says `w` becomes invalid. */
  predicate Strikes(regs: seq<Registry>, v: seq<View>, op: Op, w: View)
    requires Allowed(|regs|, |v|, op) && Clears(op)
  {
    && w.registry == regs[op.r]
    && (op.Invalidate? ==> w.element == v[op.i].element)
    && (op.InvalidateExcept? ==> w.element != v[op.i].element)
  }

  lemma AlikeStep(regs: seq<Registry>, v: seq<View>, op: Op, j: nat, k: nat)
    requires Allowed(|regs|, |v|, op) && j < |v| && k < |v| && Spares(op, j) && Spares(op, k) && v[j] == v[k]
    ensures Moved(op, j) < |Perform(regs, v, op)| && Moved(op, k) < |Perform(regs, v, op)|
    ensures Perform(regs, v, op)[Moved(op, j)] == Perform(regs, v, op)[Moved(op, k)]
  {
    hide Perform, Strikes;
    PerformAt(regs, v, op, j);
    PerformAt(regs, v, op, k);
  }

  lemma {:induction false} AlikeRun(regs: seq<Registry>, v: seq<View>, ops: seq<Op>, j: nat, k: nat)
    requires AllAllowed(|regs|, |v|, ops) && j < |v| && k < |v| && v[j] == v[k]
    requires AllSpare(ops, j) && AllSpare(ops, k)
    ensures var w := PerformAll(regs, v, ops);
            Place(ops, j) < |w| && Place(ops, k) < |w| && w[Place(ops, j)] == w[Place(ops, k)]
    decreases |ops|
  {
    hide Perform;
    if ops != [] {
      AlikeStep(regs, v, ops[0], j, k);
      SparedStep(regs, v, ops[0], j);
      AlikeRun(regs, Perform(regs, v, ops[0]), ops[1..], Moved(ops[0], j), Moved(ops[0], k));
    }
  }

  lemma {:induction false} SparedRun(regs: seq<Registry>, v: seq<View>, ops: seq<Op>, k: nat)
    requires AllAllowed(|regs|, |v|, ops) && k < |v| && AllSpare(ops, k)
    ensures Place(ops, k) < |PerformAll(regs, v, ops)|
    ensures var w := PerformAll(regs, v, ops)[Place(ops, k)];
            && w.element == v[k].element && (w.registry == v[k].registry || w.registry == null)
            && ((forall op | op in ops :: !Invalidates(op, v[k].registry, regs)) ==> w.registry == v[k].registry)
            && ((exists op | op in ops :: op.InvalidateAll? && Invalidates(op, v[k].registry, regs)) ==> w.registry == null)
    decreases |ops|
  {
    hide Perform;
    if ops != [] {
      SparedStep(regs, v, ops[0], k);
      SparedRun(regs, Perform(regs, v, ops[0]), ops[1..], Moved(ops[0], k));
      assert forall op | op in ops[1..] :: op in ops;
      assert forall op | op in ops && op != ops[0] :: op in ops[1..] by { assert ops == [ops[0]] + ops[1..]; }
    }
  }

  // ----- the iterators themselves -----

  ghost function Views(live: seq<DebugIterator>): (v: seq<View>)
    reads live
    ensures |v| == |live|
    ensures forall k | 0 <= k < |live| :: v[k] == View(live[k].registry, live[k].element)
  {
    if live == [] then [] else [View(live[0].registry, live[0].element)] + Views(live[1..])
  }

  ghost function Elems<T>(q: seq<T>): set<T> {
    set x | x in q
  }

  /** The registries of the containers and the live iterators, each once. */
  ghost predicate Tidy(regs: seq<Registry>, live: seq<DebugIterator>)
    reads regs, live
  {
    Distinct(live) && LiveIterators.Consistent(Elems(regs), Elems(live))
  }

  lemma SameViews(live: seq<DebugIterator>, v: seq<View>)
    requires |v| == |live|
    requires forall k | 0 <= k < |live| :: v[k] == View(live[k].registry, live[k].element)
    ensures Views(live) == v
  {
  }

  lemma ViewsWithout(live: seq<DebugIterator>, i: nat)
    requires i < |live|
    ensures Views(live[..i] + live[i + 1..]) == Views(live)[..i] + Views(live)[i + 1..]
  {
    hide Views;
    var now, v := live[..i] + live[i + 1..], Views(live)[..i] + Views(live)[i + 1..];
    forall k | 0 <= k < |now| ensures v[k] == View(now[k].registry, now[k].element) {
      if k < i {
        assert now[k] == live[k] && v[k] == Views(live)[k];
      } else {
        assert now[k] == live[k + 1] && v[k] == Views(live)[k + 1];
      }
    }
    SameViews(now, v);
  }

  lemma InElems<T>(q: seq<T>)
    ensures forall x :: x in Elems(q) <==> x in q
  {
  }

  lemma OneLess<T>(q: seq<T>, i: nat)
    requires i < |q| && Distinct(q)
    ensures Distinct(q[..i] + q[i + 1..]) && Elems(q[..i] + q[i + 1..]) == Elems(q) - {q[i]}
  {
    var r := q[..i] + q[i + 1..];
    forall k | 0 <= k < |r| ensures r[k] == q[if k < i then k else k + 1] {}
    forall x | x in q && x != q[i] ensures x in r {
      var k :| 0 <= k < |q| && q[k] == x;
      assert r[if k < i then k else k - 1] == x;
    }
  }

  lemma OneMore<T>(q: seq<T>, x: T)
    requires x !in q && Distinct(q)
    ensures Distinct(q + [x]) && Elems(q + [x]) == Elems(q) + {x}
  {
  }

  // ----- one call -----

  method DoCreate(regs: seq<Registry>, live: seq<DebugIterator>, registry: Registry?, element: nat)
    returns (now: seq<DebugIterator>)
    requires Tidy(regs, live) && (registry == null || registry in regs)
    modifies regs
    ensures Tidy(regs, now) && (forall it | it in now :: it in live || fresh(it))
    ensures |now| == |live| + 1 && now[..|live|] == live
    ensures Views(now) == old(Views(live)) + [View(registry, element)]
  {
    InElems(regs);
    InElems(live);
    hide LiveIterators.Consistent, Distinct, Elems;
    ghost var was := Views(live);
    var it := LiveIterators.Create(Elems(regs), Elems(live), registry, element);
    now := live + [it];
    OneMore(live, it);
    SameViews(now, was + [View(registry, element)]);
  }

  method DoCopy(regs: seq<Registry>, live: seq<DebugIterator>, i: nat) returns (now: seq<DebugIterator>)
    requires Tidy(regs, live) && i < |live|
    modifies regs
    ensures Tidy(regs, now) && (forall it | it in now :: it in live || fresh(it))
    ensures |now| == |live| + 1 && now[..|live|] == live && fresh(now[|live|])
    ensures Views(now) == Perform(regs, old(Views(live)), Copy(i))
  {
    ghost var was := Views(live);
    RegistryOf(regs, live, i);
    InElems(live);
    hide LiveIterators.Consistent, Distinct, Elems;
    var it := LiveIterators.Copy(Elems(regs), Elems(live), live[i]);
    now := live + [it];
    OneMore(live, it);
    SameViews(now, was + [was[i]]);
  }

  /** The fields of the iterators stay as they were. */
  method DestroyOne(regs: seq<Registry>, live: seq<DebugIterator>, i: nat)
    requires Tidy(regs, live) && i < |live|
    modifies regs, live
    ensures LiveIterators.Consistent(Elems(regs), Elems(live) - {live[i]})
    ensures Views(live) == old(Views(live))
  {
    ghost var was := Views(live);
    RegistryOf(regs, live, i);
    InElems(live);
    hide LiveIterators.Consistent, Distinct, Elems;
    LiveIterators.Destroy(Elems(regs), Elems(live), live[i]);
    SameViews(live, was);
  }

  method DoDestroy(regs: seq<Registry>, live: seq<DebugIterator>, i: nat) returns (now: seq<DebugIterator>)
    requires Tidy(regs, live) && i < |live|
    modifies regs, live
    ensures Tidy(regs, now) && now == live[..i] + live[i + 1..] && forall it | it in now :: it in live
    ensures Views(now) == Perform(regs, old(Views(live)), Destroy(i))
  {
    OneLess(live, i);
    DestroyOne(regs, live, i);
    hide LiveIterators.Consistent, Distinct, Elems, Views;
    now := live[..i] + live[i + 1..];
    ViewsWithout(live, i);
  }

  lemma RegistryOf(regs: seq<Registry>, live: seq<DebugIterator>, i: nat)
    requires Tidy(regs, live) && i < |live|
    ensures live[i].registry == null || live[i].registry in regs
  {
    assert live[i] in Elems(live);
  }

  method AssignOne(regs: seq<Registry>, live: seq<DebugIterator>, i: nat, j: nat)
    requires Tidy(regs, live) && i < |live| && j < |live|
    modifies regs, live
    ensures Tidy(regs, live)
    ensures live[i].registry == old(live[j].registry) && live[i].element == old(live[j].element)
    ensures forall k | 0 <= k < |live| && k != i ::
              live[k].registry == old(live[k].registry) && live[k].element == old(live[k].element)
  {
    RegistryOf(regs, live, i);
    RegistryOf(regs, live, j);
    InElems(live);
    hide LiveIterators.Consistent, Elems;
    LiveIterators.Assign(Elems(regs), Elems(live), live[i], live[j]);
  }

  method DoAssign(regs: seq<Registry>, live: seq<DebugIterator>, i: nat, j: nat)
    requires Tidy(regs, live) && i < |live| && j < |live|
    modifies regs, live
    ensures Tidy(regs, live)
    ensures Views(live) == Perform(regs, old(Views(live)), Assign(i, j))
  {
    hide Tidy;
    ghost var was := Views(live);
    AssignOne(regs, live, i, j);
    SameViews(live, was[i := was[j]]);
  }

  method DoInvalidate(regs: seq<Registry>, live: seq<DebugIterator>, r: nat, i: nat)
    requires Tidy(regs, live) && r < |regs| && i < |live|
    modifies regs, live
    ensures Tidy(regs, live)
    ensures Views(live) == Perform(regs, old(Views(live)), Invalidate(r, i))
  {
    InElems(regs);
    InElems(live);
    hide LiveIterators.Consistent, Distinct, Elems;
    ghost var was := Views(live);
    LiveIterators.InvalidateIterators(Elems(regs), Elems(live), regs[r], live[i]);
    SameViews(live, Perform(regs, was, Invalidate(r, i)));
  }

  method DoInvalidateExcept(regs: seq<Registry>, live: seq<DebugIterator>, r: nat, i: nat)
    requires Tidy(regs, live) && r < |regs| && i < |live|
    modifies regs, live
    ensures Tidy(regs, live)
    ensures Views(live) == Perform(regs, old(Views(live)), InvalidateExcept(r, i))
  {
    InElems(regs);
    InElems(live);
    hide LiveIterators.Consistent, Distinct, Elems;
    ghost var was := Views(live);
    LiveIterators.InvalidateIteratorsExcept(Elems(regs), Elems(live), regs[r], live[i]);
    SameViews(live, Perform(regs, was, InvalidateExcept(r, i)));
  }

  method DoInvalidateAll(regs: seq<Registry>, live: seq<DebugIterator>, r: nat)
    requires Tidy(regs, live) && r < |regs|
    modifies regs, live
    ensures Tidy(regs, live)
    ensures Views(live) == Perform(regs, old(Views(live)), InvalidateAll(r))
  {
    InElems(regs);
    InElems(live);
    hide LiveIterators.Consistent, Distinct, Elems;
    ghost var was := Views(live);
    LiveIterators.InvalidateAllIterators(Elems(regs), Elems(live), regs[r]);
    SameViews(live, Perform(regs, was, InvalidateAll(r)));
  }

  method Step(regs: seq<Registry>, live: seq<DebugIterator>, op: Op) returns (now: seq<DebugIterator>)
    requires Tidy(regs, live) && Allowed(|regs|, |live|, op)
    modifies regs, live
    ensures Tidy(regs, now) && forall it | it in now :: it in live || fresh(it)
    ensures Views(now) == Perform(regs, old(Views(live)), op)
    ensures |now| == Count(|live|, op)
    ensures forall k | 0 <= k < |live| && op != Destroy(k) :: now[Moved(op, k)] == live[k]
  {
    hide Tidy, Views;
    now := live;
    match op
    case Create(owner, element) =>
      now := DoCreate(regs, live, if owner.Some? then regs[owner.value] else null, element);
    case Copy(i) => now := DoCopy(regs, live, i);
    case Destroy(i) => now := DoDestroy(regs, live, i);
    case Assign(i, j) => DoAssign(regs, live, i, j);
    case Invalidate(r, i) => DoInvalidate(regs, live, r, i);
    case InvalidateExcept(r, i) => DoInvalidateExcept(regs, live, r, i);
    case InvalidateAll(r) => DoInvalidateAll(regs, live, r);
  }

  /** Containers begin without iterators. */
  lemma StartsTidy(regs: seq<Registry>)
    requires forall r | r in regs :: r.Linked() && r.chain == []
    ensures Tidy(regs, [])
  {
  }

  /**
    Over any sequence of calls every chain holds exactly the live iterators of
    its container, and each iterator is valid, for its container and cell,
    exactly as the sequence of calls says.
   */
  method Run(regs: seq<Registry>, live: seq<DebugIterator>, ops: seq<Op>) returns (now: seq<DebugIterator>)
    requires Tidy(regs, live) && AllAllowed(|regs|, |live|, ops)
    modifies regs, live
    ensures Tidy(regs, now) && Views(now) == PerformAll(regs, old(Views(live)), ops)
    ensures forall k | 0 <= k < |live| && AllSpare(ops, k) :: Place(ops, k) < |now| && now[Place(ops, k)] == live[k]
    decreases |ops|
  {
    hide Tidy, Perform, Views;
    if ops == [] { return live; }
    var next := Step(regs, live, ops[0]);
    assert forall k | 0 <= k < |next| :: next[k] in live || fresh(next[k]);
    now := Run(regs, next, ops[1..]);
    forall k | 0 <= k < |live| && AllSpare(ops, k) ensures Place(ops, k) < |now| && now[Place(ops, k)] == live[k] {
      assert next[Moved(ops[0], k)] == live[k];
    }
  }

  /**
    An iterator that is neither assigned to nor destroyed keeps its cell.  It
    stays valid for its container unless it is invalidated, and it does not get
    over that; all iterators of a container are invalid after `InvalidateAll`.
   */
  method RunSparing(regs: seq<Registry>, live: seq<DebugIterator>, ops: seq<Op>, ghost k: nat)
    returns (now: seq<DebugIterator>)
    requires Tidy(regs, live) && AllAllowed(|regs|, |live|, ops) && k < |live| && AllSpare(ops, k)
    modifies regs, live
    ensures Tidy(regs, now) && live[k] in now && live[k].element == old(live[k].element)
    ensures live[k].registry == old(live[k].registry) || live[k].registry == null
    ensures (forall op | op in ops :: !Invalidates(op, old(live[k].registry), regs)) ==>
              live[k].registry == old(live[k].registry)
    ensures (exists op | op in ops :: op.InvalidateAll? && Invalidates(op, old(live[k].registry), regs)) ==>
              live[k].registry == null
  {
    ghost var was := Views(live);
    SparedRun(regs, was, ops, k);
    hide Tidy, Perform, Views;
    now := Run(regs, live, ops);
    assert Views(now)[Place(ops, k)] == View(live[k].registry, live[k].element);
  }

  /**
    A copy and its original, if neither is assigned to or destroyed, are valid
    for the same container or both invalid, and point to the same cell, whatever
    calls follow.
   */
  method CopyThenRun(regs: seq<Registry>, live: seq<DebugIterator>, i: nat, ops: seq<Op>)
    returns (now: seq<DebugIterator>, copy: DebugIterator)
    requires Tidy(regs, live) && i < |live| && AllAllowed(|regs|, |live| + 1, ops)
    requires AllSpare(ops, i) && AllSpare(ops, |live|)
    modifies regs, live
    ensures Tidy(regs, now) && fresh(copy) && copy in now && live[i] in now
    ensures copy.registry == live[i].registry && copy.element == live[i].element == old(live[i].element)
    ensures (forall op | op in ops :: !Invalidates(op, old(live[i].registry), regs)) ==>
              copy.registry == old(live[i].registry)
  {
    hide Tidy, Perform, Views, PerformAll;
    CopiedAlike(regs, Views(live), i);
    var both := DoCopy(regs, live, i);
    copy := both[|live|];
    assert both[i] == both[..|live|][i] == live[i];
    AlikeRun(regs, Views(both), ops, i, |live|);
    SparedRun(regs, Views(both), ops, i);
    now := Run(regs, both, ops);
    assert Views(now)[Place(ops, i)] == View(live[i].registry, live[i].element);
    assert Views(now)[Place(ops, |live|)] == View(copy.registry, copy.element);
  }

  lemma CopiedAlike(regs: seq<Registry>, v: seq<View>, i: nat)
    requires i < |v|
    ensures var w := Perform(regs, v, Copy(i)); |w| == |v| + 1 && w[i] == w[|v|] == v[i]
  {
  }

  lemma AssignedAlike(regs: seq<Registry>, v: seq<View>, i: nat, j: nat)
    requires i < |v| && j < |v|
    ensures var w := Perform(regs, v, Assign(i, j)); |w| == |v| && w[i] == w[j] == v[j]
  {
  }

  /** The same for an iterator and the one it is assigned from. */
  method AssignThenRun(regs: seq<Registry>, live: seq<DebugIterator>, i: nat, j: nat, ops: seq<Op>)
    returns (now: seq<DebugIterator>)
    requires Tidy(regs, live) && i < |live| && j < |live| && AllAllowed(|regs|, |live|, ops)
    requires AllSpare(ops, i) && AllSpare(ops, j)
    modifies regs, live
    ensures Tidy(regs, now) && live[i] in now && live[j] in now
    ensures live[i].registry == live[j].registry && live[i].element == live[j].element == old(live[j].element)
    ensures (forall op | op in ops :: !Invalidates(op, old(live[j].registry), regs)) ==>
              live[i].registry == old(live[j].registry)
  {
    hide Tidy, Perform, Views, PerformAll;
    AssignedAlike(regs, Views(live), i, j);
    DoAssign(regs, live, i, j);
    AlikeRun(regs, Views(live), ops, i, j);
    SparedRun(regs, Views(live), ops, j);
    now := Run(regs, live, ops);
    assert Views(now)[Place(ops, i)] == View(live[i].registry, live[i].element);
    assert Views(now)[Place(ops, j)] == View(live[j].registry, live[j].element);
  }
}
