/**
  What else three workers break: a node can be lost, so that it is neither met
  from the top nor given back when all is over, and a node can be pending twice,
  so that a dirty list is not in stamp order.
 */
module ReclamationLoss {
  import opened Reclamation
  import opened ReclamationInvariant
  import opened ReclamationTheorems
  import opened ReclamationAlone
  import opened ReclamationAccounting
  import opened ReclamationDrain
  import opened ReclamationRace
  import opened ThreadIds

  // ----- accounting -----

  /** The node is live exactly if it is somewhere, and then in one place only. */
  ghost predicate OnePlace(s: State, n: Addr) {
    && (n in s.mem <==> exists loc :: IsAt(s, n, loc))
    && forall l1, l2 | IsAt(s, n, l1) && IsAt(s, n, l2) :: l1 == l2
  }

  ghost predicate OnePlaceEach(s: State) {
    forall n: Addr | n != NULL :: OnePlace(s, n)
  }

  ghost predicate AccountingFor(workers: nat) {
    forall run | Legal(Init(workers), run) :: OnePlaceEach(Exec(Init(workers), run))
  }

  /** Node 3 is live, but the top is null and nobody holds it. */
  lemma LostNowhere(workers: nat, loc: Location)
    requires workers >= 3
    ensures !IsAt(LostState(workers), 3, loc)
  {
    var s := LostState(workers);
    forall q | Linked(s.mem, s.top, q) ensures 3 !in q { LinkedUnique(s.mem, NULL, q, []); }
  }

  /** The accounts of the nodes are right in every run exactly for at most two workers. */
  lemma AccountingExactly(workers: nat)
    ensures AccountingFor(workers) <==> workers <= 2
  {
    if workers <= 2 {
      forall run | Legal(Init(workers), run) ensures OnePlaceEach(Exec(Init(workers), run)) {
        TwoWorkersAlwaysCalm(workers, run);
        forall n: Addr | n != NULL ensures OnePlace(Exec(Init(workers), run), n) {
          NothingLostOrShared(workers, run, n);
        }
      }
    } else {
      NodeLost(workers);
      forall loc ensures !IsAt(LostState(workers), 3, loc) { LostNowhere(workers, loc); }
      assert 3 in LostState(workers).mem;
      assert !OnePlace(LostState(workers), 3);
    }
  }

  // ----- giving back -----

  /** Whenever all workers have left and main has emptied the stack, every allocation has been deleted. */
  ghost predicate GivenBackFor(workers: nat) {
    forall run | Legal(Init(workers), run) && AllDone(Exec(Init(workers), run)) && Exec(Init(workers), run).top == NULL ::
      && Exec(Init(workers), run).mem == map[]
      && Exec(Init(workers), run).deleted == Exec(Init(workers), run).totalAllocs
  }

  /** `t` leaves with empty lists. */
  function LeaveDone(s: State, t: Tid): State
    requires t in s.threads
  {
    At(s, t, Done).(clocks := Without(s.clocks, t), totalAllocs := s.totalAllocs + s.threads[t].allocs)
  }

  lemma ReachLeave(workers: nat, s: State, t: Tid)
    requires Reach(workers, s) && IsIdle(s, t) && Unlocked(s)
    requires s.threads[t].dirty == [] && s.threads[t].clean == []
    ensures Reach(workers, LeaveDone(s, t))
  {
    hide Reach, Init, GoRegister, GoPush, GoPop, GoScan, GoClean, GoSweep, Without;
    ReachDeregLeave(workers, s, t);
    var s1 := At(s, t, DeregLeave);
    var s2 := At(s, t, Destroy).(clocks := Without(s.clocks, t), totalAllocs := s.totalAllocs + s.threads[t].allocs);
    assert At(s1, t, Destroy).threads == s2.threads;
    ReachGo(workers, s1, t, s2);
    assert At(s2, t, Done).threads == LeaveDone(s, t).threads;
    ReachGo(workers, s2, t, LeaveDone(s, t));
  }

  lemma ReachDeregLeave(workers: nat, s: State, t: Tid)
    requires Reach(workers, s) && IsIdle(s, t) && s.threads[t].dirty == []
    ensures Reach(workers, At(s, t, DeregLeave))
  {
    hide Reach, Init, GoRegister, GoPush, GoPop, GoScan, GoClean, GoSweep;
    var s1 := At(s, t, DeregTest);
    ReachStep(workers, s, Leave(t));
    assert At(s1, t, DeregLeave).threads == At(s, t, DeregLeave).threads;
    ReachGo(workers, s1, t, At(s, t, DeregLeave));
  }

  /** `t` scans undisturbed, finds its own clock to be the minimum and deletes the node it has popped. */
  lemma ReachReturn(workers: nat, s: State, t: Tid, n: Addr)
    requires Reach(workers, s) && t in s.threads && s.threads[t].pc == ScanLock(n) && n != NULL && n in s.mem
    requires Least(s, s.clocks, UINT64_MAX) == s.threads[t].clock
    ensures Reach(workers, Delete(At(s, t, Idle), n))
  {
    hide Reach, Least, Init;
    var k := ReturnAlone(s, t, n);
    ReachRun(workers, s, Times(t, k));
  }

  /** Worker 0 has fetched its clock. */
  function FetchedState(workers: nat): State {
    Three(workers, 7, [0, 1, 2], NULL,
      map[1 := Node(0, 3, 0, Sealed(0, 6)), 2 := Node(0, 1, 0, Sealed(1, 5)), 3 := Node(0, NULL, 0, OnStack)], [3],
      NoNodes(ScanLock(1), 6), NoNodes(ScanLock(2), 5), Thread(Idle, 4, [], [], 4))
    .(deleted := 1)
  }

  /** Worker 2 has left. */
  function LosingState(workers: nat): State {
    Three(workers, 7, [0, 1], NULL,
      map[1 := Node(0, 3, 0, Sealed(0, 6)), 2 := Node(0, 1, 0, Sealed(1, 5)), 3 := Node(0, NULL, 0, OnStack)], [3],
      NoNodes(ScanLock(1), 6), NoNodes(ScanLock(2), 5), Thread(Done, 4, [], [], 4))
    .(deleted := 1, totalAllocs := 4)
  }

  lemma LostFetches(workers: nat)
    requires workers >= 3
    ensures Reach(workers, FetchedState(workers))
  {
    hide Reach, Init;
    NodeLost(workers);
    var s0 := LostState(workers);
    ReachFetch(workers, s0, 0, 1);
    assert FetchDone(s0, 0, 1) == FetchedState(workers);
  }

  lemma LosingReached(workers: nat)
    requires workers >= 3
    ensures Reach(workers, LosingState(workers))
  {
    hide Reach, Init;
    LostFetches(workers);
    var s := FetchedState(workers);
    NobodyScans(workers, s, NoNodes(ScanLock(1), 6), NoNodes(ScanLock(2), 5), Thread(Idle, 4, [], [], 4));
    ReachLeave(workers, s, 2);
    WithoutTwo();
    assert LeaveDone(s, 2) == LosingState(workers);
  }

  lemma WithoutTwo()
    ensures Without([0, 1, 2], 2) == [0, 1]
  {
    assert [0, 1, 2][1..] == [1, 2] && [1, 2][1..] == [2] && [2][1..] == [];
    assert Without([2], 2) == [];
    assert Without([1, 2], 2) == [1];
  }

  /** Worker 1 has deleted node 2. */
  function TwoLeftState(workers: nat): State {
    Three(workers, 7, [0, 1], NULL, map[1 := Node(0, 3, 0, Sealed(0, 6)), 3 := Node(0, NULL, 0, OnStack)], [3],
      NoNodes(ScanLock(1), 6), NoNodes(Idle, 5), Thread(Done, 4, [], [], 4))
    .(deleted := 2, totalAllocs := 4)
  }

  /** Worker 1 has left. */
  function OneLeftState(workers: nat): State {
    Three(workers, 7, [0], NULL, map[1 := Node(0, 3, 0, Sealed(0, 6)), 3 := Node(0, NULL, 0, OnStack)], [3],
      NoNodes(ScanLock(1), 6), NoNodes(Done, 5), Thread(Done, 4, [], [], 4))
    .(deleted := 2, totalAllocs := 4)
  }

  /** Worker 0 has deleted node 1. */
  function OnlyZeroState(workers: nat): State {
    Three(workers, 7, [0], NULL, map[3 := Node(0, NULL, 0, OnStack)], [3],
      NoNodes(Idle, 6), NoNodes(Done, 5), Thread(Done, 4, [], [], 4))
    .(deleted := 3, totalAllocs := 4)
  }

  /** Workers 0, 1 and 2 have left, and node 3 is all that is left. */
  function LeftState(workers: nat): State {
    Three(workers, 7, [], NULL, map[3 := Node(0, NULL, 0, OnStack)], [3],
      NoNodes(Done, 6), NoNodes(Done, 5), Thread(Done, 4, [], [], 4))
    .(deleted := 3, totalAllocs := 4)
  }

  lemma LeastOfTwo(s: State)
    requires s.clocks == [0, 1] && ClockOf(s, 0) == 6 && ClockOf(s, 1) == 5
    ensures Least(s, s.clocks, UINT64_MAX) == 5
  {
    assert [0, 1][1..] == [1];
    assert Least(s, [1], 6) == 5;
  }

  lemma WithoutOne()
    ensures Without([0, 1], 1) == [0] && Without([0], 0) == []
  {
    assert [0, 1][1..] == [1] && [1][1..] == [];
    assert Without([1], 1) == [];
  }

  lemma OneReturns(workers: nat)
    requires workers >= 3
    ensures Reach(workers, TwoLeftState(workers))
  {
    hide Reach, Init;
    LosingReached(workers);
    var s := LosingState(workers);
    LeastOfTwo(s);
    ReachReturn(workers, s, 1, 2);
    assert Delete(At(s, 1, Idle), 2) == TwoLeftState(workers);
  }

  lemma OneLeaves(workers: nat)
    requires workers >= 3
    ensures Reach(workers, OneLeftState(workers))
  {
    hide Reach, Init;
    OneReturns(workers);
    NobodyScans(workers, TwoLeftState(workers), NoNodes(ScanLock(1), 6), NoNodes(Idle, 5), Thread(Done, 4, [], [], 4));
    ReachLeave(workers, TwoLeftState(workers), 1);
    WithoutOne();
    assert LeaveDone(TwoLeftState(workers), 1) == OneLeftState(workers);
  }

  lemma ZeroReturns(workers: nat)
    requires workers >= 3
    ensures Reach(workers, OnlyZeroState(workers))
  {
    hide Reach, Init;
    OneLeaves(workers);
    var s := OneLeftState(workers);
    assert Least(s, [0], UINT64_MAX) == 6;
    ReachReturn(workers, s, 0, 1);
    assert Delete(At(s, 0, Idle), 1) == OnlyZeroState(workers);
  }

  lemma ThreeLeave(workers: nat)
    requires workers >= 3
    ensures Reach(workers, LeftState(workers))
  {
    hide Reach, Init;
    ZeroReturns(workers);
    NobodyScans(workers, OnlyZeroState(workers), NoNodes(Idle, 6), NoNodes(Done, 5), Thread(Done, 4, [], [], 4));
    ReachLeave(workers, OnlyZeroState(workers), 0);
    WithoutOne();
    assert LeaveDone(OnlyZeroState(workers), 0) == LeftState(workers);
  }

  /** Workers from `k` on have not started, the others have left. */
  predicate OnlyOutside(s: State, workers: nat, k: nat) {
    && s.threads.Keys == Ids(workers)
    && forall t | t in s.threads :: if t < k then s.threads[t].pc == Done else s.threads[t] == NoNodes(Outside, 0)
  }

  lemma RegistersAndLeaves(workers: nat, s: State, k: nat) returns (s': State)
    requires Reach(workers, s) && k in s.threads && s.threads[k] == NoNodes(Outside, 0) && Unlocked(s) && s.clock < UINT64_MAX
    ensures Reach(workers, s') && k in s'.threads && s'.threads[k].pc == Done
    ensures s' == s.(clock := s.clock + 1, clocks := s'.clocks, threads := s.threads[k := s'.threads[k]])
  {
    hide Reach, Init, GoStep;
    var th := s.threads[k];
    var s1 := s.(clock := s.clock + 1, threads := s.threads[k := th.(pc := RegAppend, clock := s.clock)]);
    FetchFirst(workers, s, k, s1);
    var s2 := s1.(clocks := s.clocks + [k], threads := s1.threads[k := s1.threads[k].(pc := Idle)]);
    AppendOne(workers, s1, k, s2);
    ReachLeave(workers, s2, k);
    s' := LeaveDone(s2, k);
    assert s'.threads == s.threads[k := s'.threads[k]];
  }

  lemma OnePassesThrough(workers: nat, s: State, k: nat) returns (s': State)
    requires k < workers && Reach(workers, s) && OnlyOutside(s, workers, k) && s.clock < UINT64_MAX
    ensures Reach(workers, s') && OnlyOutside(s', workers, k + 1)
    ensures s' == s.(clock := s.clock + 1, clocks := s'.clocks, threads := s'.threads)
  {
    hide Reach, Init;
    s' := RegistersAndLeaves(workers, s, k);
  }

  /** The workers that have not started yet register and leave, one after the other. */
  lemma {:induction false} RestPassesThrough(workers: nat, s: State, k: nat) returns (e: State)
    requires k <= workers && Reach(workers, s) && OnlyOutside(s, workers, k)
    requires s.clock + (workers - k) <= UINT64_MAX
    ensures Reach(workers, e) && AllDone(e) && e.mem == s.mem && e.top == s.top
    decreases workers - k
  {
    if k == workers {
      e := s;
    } else {
      var s' := OnePassesThrough(workers, s, k);
      e := RestPassesThrough(workers, s', k + 1);
    }
  }

  lemma NodeLeft(workers: nat) returns (e: State)
    requires 3 <= workers < 0x1_0000_0000
    ensures Reach(workers, e) && AllDone(e) && e.top == NULL && 3 in e.mem
  {
    hide Reach, Init, OnlyOutside;
    ThreeLeave(workers);
    OthersOutside(workers);
    e := RestPassesThrough(workers, LeftState(workers), 3);
  }

  lemma OthersAsInit(workers: nat, a: Thread, b: Thread, u: Thread)
    requires workers >= 3
    ensures var m := Init(workers).threads[0 := a][1 := b][2 := u];
            && m.Keys == Ids(workers)
            && m[0] == a && m[1] == b && m[2] == u
            && forall t | t in m && t >= 3 :: m[t] == NoNodes(Outside, 0)
  {
    hide Ids;
  }

  lemma OthersOutside(workers: nat)
    requires workers >= 3
    ensures OnlyOutside(LeftState(workers), workers, 3)
  {
    hide Init, Ids;
    OthersAsInit(workers, NoNodes(Done, 6), NoNodes(Done, 5), Thread(Done, 4, [], [], 4));
  }

  /**
    All nodes are given back in every run exactly for at most two workers.
    The number of workers is a `uint32_t`; they could not all fetch a clock
    if there were more of them than clocks.
   */
  lemma GivenBackExactly(workers: nat)
    requires workers < 0x1_0000_0000
    ensures GivenBackFor(workers) <==> workers <= 2
  {
    if workers <= 2 {
      forall run | Legal(Init(workers), run) && AllDone(Exec(Init(workers), run)) && Exec(Init(workers), run).top == NULL
        ensures Exec(Init(workers), run).mem == map[]
        ensures Exec(Init(workers), run).deleted == Exec(Init(workers), run).totalAllocs
      {
        TwoWorkersAlwaysCalm(workers, run);
        AllNodesGivenBack(workers, run);
      }
    } else {
      var e := NodeLeft(workers);
      var run :| Legal(Init(workers), run) && Exec(Init(workers), run) == e;
      assert 3 in Exec(Init(workers), run).mem;
    }
  }

  // ----- dirty lists -----

  ghost predicate StampsIncrease(mem: map<Addr, Node>, q: seq<Addr>) {
    && (forall i | 0 <= i < |q| :: q[i] in mem)
    && (forall i, j | 0 <= i < j < |q| :: mem[q[i]].clock < mem[q[j]].clock)
  }

  ghost predicate DirtyIncreasing(s: State) {
    forall t | t in s.threads :: StampsIncrease(s.mem, s.threads[t].dirty)
  }

  ghost predicate IncreasingFor(workers: nat) {
    forall run | Legal(Init(workers), run) :: DirtyIncreasing(Exec(Init(workers), run))
  }

  /** `t` scans undisturbed, finds an older clock and appends the node it has popped to its dirty list. */
  function EnlistDone(s: State, t: Tid, n: Addr): State
    requires t in s.threads && n in s.mem
  {
    var th := s.threads[t];
    s.(mem := s.mem[n := s.mem[n].(clock := th.clock)],
       threads := s.threads[t := th.(pc := Idle, dirty := th.dirty + [n])])
  }

  lemma ReachEnlist(workers: nat, s: State, t: Tid, n: Addr)
    requires Reach(workers, s) && t in s.threads && s.threads[t].pc == ScanLock(n) && n != NULL && n in s.mem
    requires Least(s, s.clocks, UINT64_MAX) != s.threads[t].clock && |s.threads[t].dirty| <= DIRTY_THRESHOLD
    ensures Reach(workers, EnlistDone(s, t, n))
  {
    hide Reach, Init, Least, GoRegister, GoPush, GoPop, GoScan, GoSweep, GoDereg;
    ReachDecide(workers, s, t, n);
    var s1 := At(s, t, Decide(n, Least(s, s.clocks, UINT64_MAX)));
    var s2 := At(s, t, Enlist(n)).(mem := s.mem[n := s.mem[n].(clock := s.threads[t].clock)]);
    assert At(s1, t, Enlist(n)).threads == s2.threads;
    ReachGo(workers, s1, t, s2);
    assert EnlistDone(s, t, n).threads == GoStep(s2, t).threads;
    ReachGo(workers, s2, t, EnlistDone(s, t, n));
  }

  lemma ReachDecide(workers: nat, s: State, t: Tid, n: Addr)
    requires Reach(workers, s) && t in s.threads && s.threads[t].pc == ScanLock(n) && n != NULL
    ensures Reach(workers, At(s, t, Decide(n, Least(s, s.clocks, UINT64_MAX))))
  {
    hide Reach, Init, Least;
    assert At(s, t, ScanLock(n)).threads == s.threads;
    ReachScanStep(workers, s, t, ScanLock(n), Scan(n, 0, UINT64_MAX));
    ReachScan(workers, s, t, n, 0, UINT64_MAX);
    assert s.clocks[0..] == s.clocks;
  }

  /** Worker 2 has pushed a new node at the address of the deleted one. */
  function PushedAgainState(workers: nat): State {
    Three(workers, 6, [0, 1, 2], 1,
      map[1 := Node(0, NULL, 0, OnStack), 2 := Node(0, NULL, 0, Sealed(1, 5))], [1],
      NoNodes(PopCas(1, 2), 2), NoNodes(ScanLock(2), 5), Thread(Idle, 4, [], [], 3))
    .(deleted := 1)
  }

  lemma PushedAgain(workers: nat)
    requires workers >= 3
    ensures Reach(workers, PushedAgainState(workers))
  {
    hide Reach, Init;
    PoppedAboveRead(workers);
    RaceDeletes(workers, ABOVE_READ);
    var s := DeletedState(workers, ABOVE_READ);
    ReachPush(workers, s, 2, 0, 1);
    assert PushDone(s, 2, 0, 1) == PushedAgainState(workers);
  }

  /**
    Worker 0 has popped a new node 1 with the successor 2 it had read from the deleted one,
    which has put node 2 on top while worker 1 is about to scan for it.
   */
  function TwiceState(workers: nat): State {
    Three(workers, 6, [0, 1, 2], 2,
      map[1 := Node(0, NULL, 0, Popped(0)), 2 := Node(0, NULL, 0, Sealed(1, 5))], [],
      NoNodes(CleanFetch(1), 2), NoNodes(ScanLock(2), 5), Thread(Idle, 4, [], [], 3))
    .(deleted := 1)
  }

  lemma TwiceReached(workers: nat)
    requires workers >= 3
    ensures Reach(workers, TwiceState(workers))
  {
    hide Reach, Init, GoRegister, GoPush, GoScan, GoClean, GoSweep, GoDereg;
    PushedAgain(workers);
    var s := PushedAgainState(workers);
    assert GoPop(s, 0).threads == TwiceState(workers).threads;
    ReachGo(workers, s, 0, TwiceState(workers));
  }

  lemma LeastOfThree(s: State)
    requires s.clocks == [0, 1, 2] && ClockOf(s, 0) == 2 && ClockOf(s, 1) > 2 && ClockOf(s, 2) > 2
    ensures Least(s, s.clocks, UINT64_MAX) == 2
  {
    assert [0, 1, 2][1..] == [1, 2] && [1, 2][1..] == [2];
    assert Least(s, [2], 2) == 2;
    assert Least(s, [1, 2], 2) == 2;
  }

  /** Worker 1 puts node 2 into its dirty list, pops it again and is about to scan for it again. */
  function AgainState(workers: nat): State {
    Three(workers, 7, [0, 1, 2], NULL,
      map[1 := Node(0, NULL, 0, Popped(0)), 2 := Node(0, NULL, 5, Sealed(1, 6))], [],
      NoNodes(CleanFetch(1), 2), Thread(ScanLock(2), 6, [2], [], 0), Thread(Idle, 4, [], [], 3))
    .(deleted := 1)
  }

  lemma AgainReached(workers: nat)
    requires workers >= 3
    ensures Reach(workers, AgainState(workers))
  {
    hide Reach, Init;
    TwiceReached(workers);
    var s0 := TwiceState(workers);
    LeastOfThree(s0);
    ReachEnlist(workers, s0, 1, 2);
    var s1 := EnlistDone(s0, 1, 2);
    ReachPop(workers, s1, 1);
    var s2 := PopDone(s1, 1);
    ReachFetch(workers, s2, 1, 2);
    var e, f := FetchDone(s2, 1, 2), AgainState(workers);
    assert s2.threads[1].dirty == [2];
    assert s1.mem[2] == Node(0, NULL, 5, Sealed(1, 5));
    assert s2.mem[2] == Node(0, NULL, 5, Popped(1));
    assert e.mem == f.mem;
    assert e.threads == f.threads;
    assert e == f;
  }

  lemma ListedTwice(workers: nat)
    requires workers >= 3
    ensures exists s :: Reach(workers, s) && !DirtyIncreasing(s)
  {
    hide Reach, Init;
    AgainReached(workers);
    var s := AgainState(workers);
    LeastOfThree(s);
    ReachEnlist(workers, s, 1, 2);
    var e := EnlistDone(s, 1, 2);
    var q := e.threads[1].dirty;
    assert q == [2, 2];
    assert !(e.mem[q[0]].clock < e.mem[q[1]].clock);
  }

  /** The dirty lists are in stamp order in every run exactly for at most two workers. */
  lemma DirtyIncreasingExactly(workers: nat)
    ensures IncreasingFor(workers) <==> workers <= 2
  {
    if workers <= 2 {
      forall run | Legal(Init(workers), run) ensures DirtyIncreasing(Exec(Init(workers), run)) {
        TwoWorkersAlwaysCalm(workers, run);
        forall t | t in Exec(Init(workers), run).threads
          ensures StampsIncrease(Exec(Init(workers), run).mem, Exec(Init(workers), run).threads[t].dirty)
        {
          DirtyListsIncrease(workers, run, t);
        }
      }
    } else {
      ListedTwice(workers);
    }
  }
}
