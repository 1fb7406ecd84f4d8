/** Every node is somewhere, nowhere twice, and given back exactly once. */
module ReclamationAccounting {
  import opened Chains
  import opened Reclamation
  import opened ReclamationInvariant
  import opened ReclamationSteps
  import opened ReclamationTheorems

  datatype Location =
    | InStack               // linked from the top
    | InHand(t: Tid)        // allocated by t, not pushed yet
    | BeingCleaned(t: Tid)  // popped by t, inside its call of clean
    | InDirty(t: Tid)
    | InClean(t: Tid)

  ghost predicate IsAt(s: State, n: Addr, loc: Location) {
    match loc
    case InStack => Met(s, n)
    case InHand(t) => t in s.threads && HandOf(s.threads[t].pc) == n
    case BeingCleaned(t) =>
      t in s.threads && (s.threads[t].pc == CleanFetch(n) || PendingOf(s.threads[t].pc) == n)
    case InDirty(t) => t in s.threads && n in s.threads[t].dirty
    case InClean(t) => t in s.threads && n in s.threads[t].clean
  }

  function LocationOf(s: State, n: Addr): Location
    requires n in s.mem
  {
    match s.mem[n].place
    case OnStack => InStack
    case Hand(t) => InHand(t)
    case Popped(t) => BeingCleaned(t)
    case Sealed(t, _) => if t in s.threads && PendingOf(s.threads[t].pc) == n then BeingCleaned(t) else InDirty(t)
    case Clean(t) => InClean(t)
  }

  /** A pending node is not in the dirty list yet. */
  lemma PendingApart(s: State, t: Tid)
    requires t in s.threads && ThreadOk(s, t) && PendingOf(s.threads[t].pc) != NULL
    ensures PendingOf(s.threads[t].pc) !in s.threads[t].dirty
  {
  }

  lemma AtMostThere(s: State, n: Addr, loc: Location)
    requires Inv(s) && n != NULL && IsAt(s, n, loc)
    ensures n in s.mem && loc == LocationOf(s, n)
  {
    if loc.InStack? {
      StackIsMet(s, n);
    } else {
      assert ThreadOk(s, loc.t);
      if PendingOf(s.threads[loc.t].pc) != NULL { PendingApart(s, loc.t); }
    }
  }

  /** A node is live exactly when it is somewhere, and then it is in one place only. */
  lemma EveryNodeInOnePlace(s: State, n: Addr)
    requires Inv(s) && n != NULL
    ensures n in s.mem <==> exists loc :: IsAt(s, n, loc)
    ensures forall l1, l2 | IsAt(s, n, l1) && IsAt(s, n, l2) :: l1 == l2
    ensures Distinct(s.stack)
    ensures forall t | t in s.threads :: Distinct(s.threads[t].dirty) && Distinct(s.threads[t].clean)
  {
    if n in s.mem {
      assert PlaceOk(s, n);
      StackIsMet(s, n);
      assert IsAt(s, n, LocationOf(s, n));
    }
    forall loc | IsAt(s, n, loc) ensures n in s.mem && loc == LocationOf(s, n) { AtMostThere(s, n, loc); }
    forall t | t in s.threads ensures Distinct(s.threads[t].dirty) && Distinct(s.threads[t].clean) {
      assert ThreadOk(s, t);
    }
  }

  // ----- counting -----

  /** Nodes allocated by worker `t` that `dereg` has not added to the total yet. */
  function Uncounted(threads: map<Tid, Thread>, t: Tid): nat {
    if t in threads && !threads[t].pc.Destroy? && !threads[t].pc.Done? then threads[t].allocs else 0
  }

  function SumUncounted(threads: map<Tid, Thread>, k: nat): nat {
    if k == 0 then 0 else SumUncounted(threads, k - 1) + Uncounted(threads, k - 1)
  }

  lemma {:induction false} SumUpdate(threads: map<Tid, Thread>, k: nat, t: Tid, th: Thread)
    requires t in threads
    ensures SumUncounted(threads[t := th], k) + (if t < k then Uncounted(threads, t) else 0)
         == SumUncounted(threads, k) + (if t < k then Uncounted(threads[t := th], t) else 0)
  {
    if k > 0 { SumUpdate(threads, k - 1, t, th); }
  }

  /** Allocations known to the collector or still to be counted = live nodes + deleted nodes. */
  ghost predicate Balanced(s: State, workers: nat) {
    && (forall t | t in s.threads :: t < workers)
    && SumUncounted(s.threads, workers) + s.totalAllocs == |s.mem| + s.deleted
  }

  lemma MapSizes(m: map<Addr, Node>, n: Addr, node: Node)
    ensures n in m ==> |m[n := node]| == |m| && |m - {n}| == |m| - 1
    ensures n !in m ==> |m[n := node]| == |m| + 1
  {
    assert m[n := node].Keys == m.Keys + {n};
    assert (m - {n}).Keys == m.Keys - {n};
    assert |m| == |m.Keys| && |m[n := node]| == |m[n := node].Keys| && |m - {n}| == |(m - {n}).Keys|;
  }

  /** What a step of `t` changes, as far as counting goes. */
  ghost predicate CountMove(s: State, s': State, t: Tid) {
    && t in s.threads && t in s'.threads
    && s'.threads == s.threads[t := s'.threads[t]]
    && Uncounted(s'.threads, t) + s'.totalAllocs + |s.mem| + s.deleted
    == Uncounted(s.threads, t) + s.totalAllocs + |s'.mem| + s'.deleted
  }

  lemma CountMoveKeeps(s: State, s': State, t: Tid, workers: nat)
    requires Balanced(s, workers) && CountMove(s, s', t)
    ensures Balanced(s', workers)
  {
    SumUpdate(s.threads, workers, t, s'.threads[t]);
  }

  /** Steps of registration and of the stack that neither push nor pop. */
  predicate StackPc(pc: PC) {
    || pc.Outside? || pc.RegAppend? || pc.PushRead? || pc.PushLink? || pc.Pushed?
    || pc.PopTest? || pc.PopRead? || pc.PopNext?
  }

  lemma StackCountsQuietly(s: State, t: Tid)
    requires CanGo(s, t) && StackPc(s.threads[t].pc)
    ensures CountMove(s, GoStep(s, t), t)
  {
    hide GoClean, GoSweep, GoScan, GoDereg;
    if s.threads[t].pc.PushLink? {
      var n := s.threads[t].pc.n;
      MapSizes(s.mem, n, s.mem[n].(next := s.threads[t].pc.seen));
    }
  }

  lemma ListsCountQuietly(s: State, t: Tid)
    requires CanGo(s, t)
    requires var pc := s.threads[t].pc;
             || pc.ScanLock? || pc.Scan? || pc.ScanAssign? || pc.CleanStore? || pc.Enlist?
             || pc.SweepFetch? || pc.SweepStore? || pc.DeregTest?
    ensures CountMove(s, GoStep(s, t), t)
  {
    hide GoRegister, GoPush, GoPop;
  }

  lemma PutKeepsSize(s: State, n: Addr, place: Place)
    ensures |Put(s, n, place).mem| == |s.mem|
  {
    if n in s.mem { MapSizes(s.mem, n, s.mem[n].(place := place)); }
  }

  lemma PushCasCounts(s: State, t: Tid)
    requires CanGo(s, t) && s.threads[t].pc.PushCas?
    ensures CountMove(s, GoPush(s, t), t)
  {
    PutKeepsSize(s, s.threads[t].pc.n, OnStack);
  }

  lemma PopCasCounts(s: State, t: Tid)
    requires CanGo(s, t) && s.threads[t].pc.PopCas?
    ensures CountMove(s, GoPop(s, t), t)
  {
    PutKeepsSize(s, s.threads[t].pc.n, Popped(t));
  }

  lemma CleanFetchCounts(s: State, t: Tid)
    requires CanGo(s, t) && s.threads[t].pc.CleanFetch?
    ensures CountMove(s, GoClean(s, t), t)
  {
    PutKeepsSize(s, s.threads[t].pc.n, Sealed(t, s.clock));
  }

  lemma DecideCounts(s: State, t: Tid)
    requires CanGo(s, t) && s.threads[t].pc.Decide?
    ensures CountMove(s, GoClean(s, t), t)
  {
    var n := s.threads[t].pc.n;
    MapSizes(s.mem, n, s.mem[n].(clock := s.threads[t].clock));
  }

  lemma SweepCounts(s: State, t: Tid)
    requires CanGo(s, t) && s.threads[t].pc.Sweep?
    ensures CountMove(s, GoSweep(s, t), t)
  {
    if s.threads[t].dirty != [] {
      var n := s.threads[t].dirty[0];
      MapSizes(s.mem, n, s.mem[n].(place := Clean(t)));
    }
  }

  lemma DestroyCounts(s: State, t: Tid)
    requires CanGo(s, t) && (s.threads[t].pc.Destroy? || s.threads[t].pc.DeregLeave?)
    ensures CountMove(s, GoDereg(s, t), t)
  {
    if s.threads[t].clean != [] {
      var n := s.threads[t].clean[0];
      if n in s.mem { MapSizes(s.mem, n, s.mem[n]); }
    }
  }

  lemma GoCounts(s: State, t: Tid)
    requires CanGo(s, t)
    ensures CountMove(s, GoStep(s, t), t)
  {
    match s.threads[t].pc
    case PushCas(_, _) => PushCasCounts(s, t);
    case PopCas(_, _) => PopCasCounts(s, t);
    case CleanFetch(_) => CleanFetchCounts(s, t);
    case Decide(_, _) => DecideCounts(s, t);
    case Sweep(_, _) => SweepCounts(s, t);
    case DeregLeave => DestroyCounts(s, t);
    case Destroy => DestroyCounts(s, t);
    case Idle =>
    case Done =>
    case _ => if StackPc(s.threads[t].pc) { StackCountsQuietly(s, t); } else { ListsCountQuietly(s, t); }
  }

  lemma RecycleCounts(s: State, t: Tid, data: int)
    requires Enabled(s, Recycle(t, data))
    ensures CountMove(s, DoRecycle(s, t, data), t)
  {
    var n := s.threads[t].clean[0];
    MapSizes(s.mem, n, s.mem[n].(data := data, next := NULL, place := Hand(t)));
  }

  lemma FreshCounts(s: State, t: Tid, data: int, n: Addr)
    requires Enabled(s, Fresh(t, data, n))
    ensures CountMove(s, DoFresh(s, t, data, n), t)
  {
    MapSizes(s.mem, n, Node(data, NULL, 0, Hand(t)));
  }

  lemma StepKeepsBalance(s: State, a: Action, workers: nat)
    requires Enabled(s, a) && Balanced(s, workers)
    ensures Balanced(Apply(s, a), workers)
  {
    match a
    case Go(t) =>
      GoCounts(s, t);
      CountMoveKeeps(s, GoStep(s, t), t, workers);
    case Recycle(t, data) =>
      RecycleCounts(s, t, data);
      CountMoveKeeps(s, DoRecycle(s, t, data), t, workers);
    case Fresh(t, data, n) =>
      FreshCounts(s, t, data, n);
      CountMoveKeeps(s, DoFresh(s, t, data, n), t, workers);
    case StartPop(t) => CountMoveKeeps(s, At(s, t, PopTest), t, workers);
    case Leave(t) => CountMoveKeeps(s, At(s, t, DeregTest), t, workers);
    case Drain => MapSizes(s.mem, s.top, s.mem[s.top]);
  }

  lemma {:induction false} RunKeepsBalance(s: State, run: seq<Action>, workers: nat)
    requires Legal(s, run) && Balanced(s, workers)
    ensures Balanced(Exec(s, run), workers)
    decreases |run|
  {
    if run != [] {
      StepKeepsBalance(s, run[0], workers);
      RunKeepsBalance(Apply(s, run[0]), run[1..], workers);
    }
  }

  lemma {:induction false} SumZero(threads: map<Tid, Thread>, k: nat)
    requires forall t | t in threads :: Uncounted(threads, t) == 0
    ensures SumUncounted(threads, k) == 0
  {
    if k > 0 { SumZero(threads, k - 1); }
  }

  lemma InitBalanced(workers: nat)
    ensures Balanced(Init(workers), workers)
  {
    SumZero(Init(workers).threads, workers);
  }

  lemma NothingLeft(s: State)
    requires Inv(s) && AllDone(s) && s.top == NULL
    ensures s.mem == map[]
  {
    assert s.stack == [];
    forall t | t in s.threads
      ensures s.threads[t].pc.Done? && s.threads[t].dirty == [] && s.threads[t].clean == []
    {
      assert ThreadOk(s, t);
    }
    forall n | n in s.mem ensures n in s.stack { assert PlaceOk(s, n); }
    assert s.mem.Keys == {};
  }

  /** When all workers have left and main has emptied the stack, every allocation has been deleted once. */
  lemma AllNodesGivenBack(workers: nat, run: seq<Action>)
    requires Legal(Init(workers), run) && Calm(Init(workers), run)
    requires AllDone(Exec(Init(workers), run)) && Exec(Init(workers), run).top == NULL
    ensures Exec(Init(workers), run).mem == map[]
    ensures Exec(Init(workers), run).deleted == Exec(Init(workers), run).totalAllocs
  {
    var s := Exec(Init(workers), run);
    InitOk(workers);
    CalmRunKeeps(Init(workers), run);
    InitBalanced(workers);
    RunKeepsBalance(Init(workers), run, workers);
    NothingLeft(s);
    SumZero(s.threads, workers);
  }

  /** After any calm run each node is in one place exactly if it is live, and none is in two. */
  lemma NothingLostOrShared(workers: nat, run: seq<Action>, n: Addr)
    requires Legal(Init(workers), run) && Calm(Init(workers), run) && n != NULL
    ensures var s := Exec(Init(workers), run);
            && (n in s.mem <==> exists loc :: IsAt(s, n, loc))
            && (forall l1, l2 | IsAt(s, n, l1) && IsAt(s, n, l2) :: l1 == l2)
  {
    InitOk(workers);
    CalmRunKeeps(Init(workers), run);
    EveryNodeInOnePlace(Exec(Init(workers), run), n);
  }
}
