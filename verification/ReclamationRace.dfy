/**
  Three workers are enough to break the grace period.  The scan of worker 2
  passes worker 0, sees that the clock of worker 1 is older still, and then
  reads that clock a second time after worker 1 has moved it on.  The minimum
  rises above the clock of worker 0, which is inside a pop.
 */
module ReclamationRace {
  import opened Chains
  import opened Reclamation
  import opened ReclamationInvariant
  import opened ReclamationSteps
  import opened ReclamationTheorems
  import opened ReclamationAlone
  import opened ReclamationHistory
  import opened Options
  import opened SequentialStack
  import opened ThreadIds

  // ----- three workers -----

  ghost predicate Reach(workers: nat, s: State) {
    exists run :: Legal(Init(workers), run) && Exec(Init(workers), run) == s
  }

  lemma {:induction false} ExecAppend(s: State, run: seq<Action>, a: Action)
    requires Legal(s, run) && Enabled(Exec(s, run), a)
    ensures Legal(s, run + [a]) && Exec(s, run + [a]) == Apply(Exec(s, run), a)
    decreases |run|
  {
    if run == [] {
      assert Legal(Apply(s, a), []);
      assert (run + [a])[1..] == [];
    } else {
      ExecAppend(Apply(s, run[0]), run[1..], a);
      assert (run + [a])[1..] == run[1..] + [a];
    }
  }

  lemma ReachStep(workers: nat, s: State, a: Action)
    requires Reach(workers, s) && Enabled(s, a)
    ensures Reach(workers, Apply(s, a))
  {
    var run :| Legal(Init(workers), run) && Exec(Init(workers), run) == s;
    ExecAppend(Init(workers), run, a);
  }

  lemma ReachGo(workers: nat, s: State, t: Tid, s': State)
    requires Reach(workers, s) && CanGo(s, t) && s' == GoStep(s, t)
    ensures Reach(workers, s')
  {
    ReachStep(workers, s, Go(t));
  }

  /** `t` allocates node `a` and pushes it undisturbed. */
  function PushDone(s: State, t: Tid, data: int, a: Addr): State
    requires t in s.threads
  {
    s.(mem := s.mem[a := Node(data, s.top, 0, OnStack)], top := a, stack := [a] + s.stack,
       threads := s.threads[t := s.threads[t].(pc := Idle, allocs := s.threads[t].allocs + 1)])
  }

  lemma ReachAlloc(workers: nat, s: State, t: Tid, data: int, a: Addr)
    requires Reach(workers, s) && Enabled(s, Fresh(t, data, a))
    ensures Reach(workers, s.(mem := s.mem[a := Node(data, s.top, 0, Hand(t))],
                   threads := s.threads[t := s.threads[t].(pc := PushCas(a, s.top),
                                                           allocs := s.threads[t].allocs + 1)]))
  {
    hide Reach, Init, GoRegister, GoPop, GoScan, GoClean, GoSweep, GoDereg;
    var s1 := DoFresh(s, t, data, a);
    ReachStep(workers, s, Fresh(t, data, a));
    var s2 := At(s1, t, PushLink(a, s.top));
    ReachGo(workers, s1, t, s2);
    var s3 := GoStep(s2, t);
    ReachGo(workers, s2, t, s3);
    assert s3.mem == s.mem[a := Node(data, s.top, 0, Hand(t))];
    assert s3.threads ==
      s.threads[t := s.threads[t].(pc := PushCas(a, s.top), allocs := s.threads[t].allocs + 1)];
  }

  lemma ReachLink(workers: nat, s: State, t: Tid, n: Addr)
    requires Reach(workers, s) && t in s.threads && s.threads[t].pc == PushCas(n, s.top) && n in s.mem
    ensures Reach(workers, s.(mem := s.mem[n := s.mem[n].(place := OnStack)], top := n, stack := [n] + s.stack,
                   threads := s.threads[t := s.threads[t].(pc := Idle)]))
  {
    hide Reach, Init, GoRegister, GoPop, GoScan, GoClean, GoSweep, GoDereg;
    var s1 := GoPush(s, t);
    ReachGo(workers, s, t, s1);
    ReachGo(workers, s1, t, At(s1, t, Idle));
    assert At(s1, t, Idle).threads == s.threads[t := s.threads[t].(pc := Idle)];
  }

  lemma ReachPush(workers: nat, s: State, t: Tid, data: int, a: Addr)
    requires Reach(workers, s) && Enabled(s, Fresh(t, data, a))
    ensures Reach(workers, PushDone(s, t, data, a))
  {
    hide Reach, Init, DoFresh;
    ReachAlloc(workers, s, t, data, a);
    var th := s.threads[t].(pc := PushCas(a, s.top), allocs := s.threads[t].allocs + 1);
    var s3 := s.(mem := s.mem[a := Node(data, s.top, 0, Hand(t))], threads := s.threads[t := th]);
    ReachLink(workers, s3, t, a);
    assert s3.mem[a := s3.mem[a].(place := OnStack)] == PushDone(s, t, data, a).mem;
    assert s3.threads[t := th.(pc := Idle)] == PushDone(s, t, data, a).threads;
  }

  /** `t` starts a pop and reads a non-null head. */
  lemma ReachPopRead(workers: nat, s: State, t: Tid)
    requires Reach(workers, s) && IsIdle(s, t) && s.top != NULL
    ensures Reach(workers, At(s, t, PopNext(s.top)))
  {
    var s1 := At(s, t, PopTest);
    ReachStep(workers, s, StartPop(t));
    var s2 := At(s1, t, PopRead);
    ReachGo(workers, s1, t, s2);
    ReachGo(workers, s2, t, At(s2, t, PopNext(s.top)));
    assert At(s2, t, PopNext(s.top)).threads == At(s, t, PopNext(s.top)).threads;
  }

  function PopDone(s: State, t: Tid): State
    requires t in s.threads && s.top in s.mem
  {
    s.(mem := s.mem[s.top := s.mem[s.top].(place := Popped(t))],
       top := s.mem[s.top].next, stack := Tail(s.stack),
       threads := s.threads[t := s.threads[t].(pc := CleanFetch(s.top))])
  }

  lemma ReachPop(workers: nat, s: State, t: Tid)
    requires Reach(workers, s) && IsIdle(s, t) && s.top != NULL && s.top in s.mem
    ensures Reach(workers, PopDone(s, t))
  {
    hide Reach, Init, GoRegister, GoPush, GoScan, GoClean, GoSweep, GoDereg;
    ReachPopRead(workers, s, t);
    var s1 := At(s, t, PopNext(s.top));
    var s2 := GoStep(s1, t);
    ReachGo(workers, s1, t, s2);
    var s3 := GoStep(s2, t);
    ReachGo(workers, s2, t, s3);
    assert s3.threads == PopDone(s, t).threads;
    assert s3.mem == PopDone(s, t).mem;
  }

  /** `t`, having popped `n`, fetches and stores its new clock. */
  function FetchDone(s: State, t: Tid, n: Addr): State
    requires t in s.threads && n in s.mem
  {
    s.(clock := s.clock + 1, mem := s.mem[n := s.mem[n].(place := Sealed(t, s.clock))],
       threads := s.threads[t := s.threads[t].(pc := ScanLock(n), clock := s.clock)])
  }

  lemma ReachFetch(workers: nat, s: State, t: Tid, n: Addr)
    requires Reach(workers, s) && t in s.threads && n in s.mem && s.clock < UINT64_MAX
    requires s.threads[t].pc == CleanFetch(n)
    ensures Reach(workers, FetchDone(s, t, n))
  {
    hide Reach, Init, GoRegister, GoPush, GoPop, GoScan, GoSweep, GoDereg;
    var s1 := GoStep(s, t);
    ReachGo(workers, s, t, s1);
    var s2 := GoStep(s1, t);
    ReachGo(workers, s1, t, s2);
    assert s2.threads == FetchDone(s, t, n).threads;
  }

  /** `t` moves on in its scan. */
  lemma ReachScanStep(workers: nat, s: State, t: Tid, pc: PC, pc': PC)
    requires t in s.threads && Reach(workers, At(s, t, pc))
    requires pc.ScanLock? || pc.Scan? || pc.ScanAssign?
    requires CanGo(At(s, t, pc), t) && GoScan(At(s, t, pc), t).threads[t].pc == pc'
    ensures Reach(workers, At(s, t, pc'))
  {
    hide Reach, Init;
    assert At(At(s, t, pc), t, pc').threads == At(s, t, pc').threads;
    ReachGo(workers, At(s, t, pc), t, At(s, t, pc'));
  }

  /** The clock read by the test is below the minimum. */
  lemma ReachSees(workers: nat, s: State, t: Tid, n: Addr, i: nat, min: nat)
    requires t in s.threads && i < |s.clocks| && ClockOf(s, s.clocks[i]) < min
    requires Reach(workers, At(s, t, Scan(n, i, min)))
    ensures Reach(workers, At(s, t, ScanAssign(n, i, min)))
  {
    hide Reach, Init;
    assert ClockOf(At(s, t, Scan(n, i, min)), s.clocks[i]) == ClockOf(s, s.clocks[i]);
    ReachScanStep(workers, s, t, Scan(n, i, min), ScanAssign(n, i, min));
  }

  /** The clock read by the assignment becomes the minimum. */
  lemma ReachTakes(workers: nat, s: State, t: Tid, n: Addr, i: nat, min: nat)
    requires t in s.threads && i < |s.clocks|
    requires Reach(workers, At(s, t, ScanAssign(n, i, min)))
    ensures Reach(workers, At(s, t, Scan(n, i + 1, ClockOf(s, s.clocks[i]))))
  {
    hide Reach, Init;
    assert ClockOf(At(s, t, ScanAssign(n, i, min)), s.clocks[i]) == ClockOf(s, s.clocks[i]);
    ReachScanStep(workers, s, t, ScanAssign(n, i, min), Scan(n, i + 1, ClockOf(s, s.clocks[i])));
  }

  lemma {:induction false} ReachRun(workers: nat, s: State, run: seq<Action>)
    requires Reach(workers, s) && Legal(s, run)
    ensures Reach(workers, Exec(s, run))
    decreases |run|
  {
    hide Reach, Enabled, Apply;
    if run != [] {
      ReachStep(workers, s, run[0]);
      ReachRun(workers, Apply(s, run[0]), run[1..]);
    }
  }

  lemma ReachScan(workers: nat, s: State, t: Tid, n: Addr, i: nat, min: nat)
    requires t in s.threads && n != NULL && i <= |s.clocks|
    requires Reach(workers, At(s, t, Scan(n, i, min)))
    ensures Reach(workers, At(s, t, Decide(n, Least(s, s.clocks[i..], min))))
  {
    hide Reach, Least;
    var k := ScanAlone(s, t, n, i, min);
    ReachRun(workers, At(s, t, Scan(n, i, min)), Times(t, k));
  }

  /** `t` deletes the node it cleans if its own clock is the minimum. */
  lemma ReachDelete(workers: nat, s: State, t: Tid, n: Addr)
    requires t in s.threads && n in s.mem && Reach(workers, At(s, t, Decide(n, s.threads[t].clock)))
    ensures Reach(workers, Delete(At(s, t, Idle), n))
  {
    hide Reach, Init, GoRegister, GoPush, GoPop, GoScan, GoSweep, GoDereg;
    var s1 := At(s, t, Decide(n, s.threads[t].clock));
    assert At(s1, t, Idle).threads == At(s, t, Idle).threads;
    ReachGo(workers, s1, t, Delete(At(s, t, Idle), n));
  }

  // ----- the race -----

  /** A state in which only workers 0, 1 and 2 have started. */
  function Three(workers: nat, clock: nat, clocks: seq<Tid>, top: Addr, mem: map<Addr, Node>, stack: seq<Addr>,
                 a: Thread, b: Thread, u: Thread): State
  {
    State(clock, clocks, top, mem, Init(workers).threads[0 := a][1 := b][2 := u], 0, stack, 0)
  }

  /** A worker that has allocated nothing and whose lists are empty. */
  function NoNodes(pc: PC, clock: nat): Thread {
    Thread(pc, clock, [], [], 0)
  }

  lemma NobodyScans(workers: nat, s: State, a: Thread, b: Thread, u: Thread)
    requires s.threads == Init(workers).threads[0 := a][1 := b][2 := u]
    requires !Scanning(a.pc) && !Scanning(b.pc) && !Scanning(u.pc)
    ensures Unlocked(s)
  {
    hide Ids;
  }

  /** Worker 1 fetches its clock first, but worker 0 is first in the list. */
  lemma ThreeFetch(workers: nat)
    requires workers >= 3
    ensures Reach(workers, Three(workers, 4, [], NULL, map[], [],
                   NoNodes(RegAppend, 2), NoNodes(RegAppend, 1), NoNodes(RegAppend, 3)))
  {
    var o := NoNodes(Outside, 0);
    var a1, b1 := NoNodes(RegAppend, 2), NoNodes(RegAppend, 1);
    var s0 := Init(workers);
    assert Legal(s0, []) && Exec(s0, []) == s0;
    hide Reach;
    assert s0.threads == s0.threads[0 := o][1 := o][2 := o];
    var s1 := Three(workers, 2, [], NULL, map[], [], o, b1, o);
    FetchFirst(workers, s0, 1, s1);
    var s2 := Three(workers, 3, [], NULL, map[], [], a1, b1, o);
    FetchFirst(workers, s1, 0, s2);
    FetchFirst(workers, s2, 2, Three(workers, 4, [], NULL, map[], [], a1, b1, NoNodes(RegAppend, 3)));
  }

  lemma FetchFirst(workers: nat, s: State, t: Tid, s': State)
    requires Reach(workers, s) && t in s.threads && s.threads[t].pc == Outside && s.clock < UINT64_MAX
    requires s' == s.(clock := s.clock + 1, threads := s.threads[t := s.threads[t].(pc := RegAppend, clock := s.clock)])
    ensures Reach(workers, s')
  {
    hide Reach, Init, GoPush, GoPop, GoScan, GoClean, GoSweep, GoDereg;
    ReachGo(workers, s, t, s');
  }

  lemma AppendOne(workers: nat, s: State, t: Tid, s': State)
    requires Reach(workers, s) && t in s.threads && s.threads[t].pc == RegAppend && Unlocked(s)
    requires s' == s.(clocks := s.clocks + [t], threads := s.threads[t := s.threads[t].(pc := Idle)])
    ensures Reach(workers, s')
  {
    hide Reach, Init, GoPush, GoPop, GoScan, GoClean, GoSweep, GoDereg;
    ReachGo(workers, s, t, s');
  }

  lemma ThreeRegister(workers: nat)
    requires workers >= 3
    ensures Reach(workers, Three(workers, 4, [0, 1, 2], NULL, map[], [],
                   NoNodes(Idle, 2), NoNodes(Idle, 1), NoNodes(Idle, 3)))
  {
    hide Reach, Init;
    var a1, b1, u1 := NoNodes(RegAppend, 2), NoNodes(RegAppend, 1), NoNodes(RegAppend, 3);
    var a2, b2, u2 := a1.(pc := Idle), b1.(pc := Idle), u1.(pc := Idle);
    ThreeFetch(workers);
    var s0 := Three(workers, 4, [], NULL, map[], [], a1, b1, u1);
    var s1 := Three(workers, 4, [0], NULL, map[], [], a2, b1, u1);
    NobodyScans(workers, s0, a1, b1, u1);
    AppendOne(workers, s0, 0, s1);
    var s2 := Three(workers, 4, [0, 1], NULL, map[], [], a2, b2, u1);
    NobodyScans(workers, s1, a2, b1, u1);
    AppendOne(workers, s1, 1, s2);
    NobodyScans(workers, s2, a2, b2, u1);
    AppendOne(workers, s2, 2, Three(workers, 4, [0, 1, 2], NULL, map[], [], a2, b2, u2));
  }

  /** Worker 2 has pushed `p` and then `q`. */
  function Pushes(workers: nat, p: Addr, q: Addr): State {
    Three(workers, 4, [0, 1, 2], q, map[p := Node(0, NULL, 0, OnStack), q := Node(0, p, 0, OnStack)], [q, p],
          NoNodes(Idle, 2), NoNodes(Idle, 1), Thread(Idle, 3, [], [], 2))
  }

  lemma ThreePush(workers: nat, p: Addr, q: Addr)
    requires workers >= 3 && p != NULL && q != NULL && p != q
    ensures Reach(workers, Pushes(workers, p, q))
  {
    hide Reach, Init;
    var a, b, u := NoNodes(Idle, 2), NoNodes(Idle, 1), NoNodes(Idle, 3);
    ThreeRegister(workers);
    var s0 := Three(workers, 4, [0, 1, 2], NULL, map[], [], a, b, u);
    ReachPush(workers, s0, 2, 0, p);
    var s1 := Three(workers, 4, [0, 1, 2], p, map[p := Node(0, NULL, 0, OnStack)], [p], a, b, u.(allocs := 1));
    assert PushDone(s0, 2, 0, p) == s1;
    ReachPush(workers, s1, 2, 0, q);
    assert PushDone(s1, 2, 0, q) == Pushes(workers, p, q);
  }

  /** The links of nodes 1 and 2, and where worker 0 is inside its pop of node 1. */
  datatype Setting = Setting(first: Addr, second: Addr, hold: PC)

  /** Worker 1 has popped 2, worker 2 has popped 1. */
  function PoppedState(workers: nat, g: Setting): State {
    Three(workers, 4, [0, 1, 2], NULL,
      map[1 := Node(0, g.first, 0, Popped(2)), 2 := Node(0, g.second, 0, Popped(1))], [],
      NoNodes(g.hold, 2), NoNodes(CleanFetch(2), 1), Thread(CleanFetch(1), 3, [], [], 2))
  }

  /** Worker 2 has taken its clock (4) and is about to scan. */
  function RaceState(workers: nat, g: Setting): State {
    Three(workers, 5, [0, 1, 2], NULL,
      map[1 := Node(0, g.first, 0, Sealed(2, 4)), 2 := Node(0, g.second, 0, Popped(1))], [],
      NoNodes(g.hold, 2), NoNodes(CleanFetch(2), 1), Thread(ScanLock(1), 4, [], [], 2))
  }

  /** Worker 1 has taken its clock (5) as well. */
  function LateState(workers: nat, g: Setting): State {
    Three(workers, 6, [0, 1, 2], NULL,
      map[1 := Node(0, g.first, 0, Sealed(2, 4)), 2 := Node(0, g.second, 0, Sealed(1, 5))], [],
      NoNodes(g.hold, 2), NoNodes(ScanLock(2), 5), Thread(ScanLock(1), 4, [], [], 2))
  }

  /** Worker 2 has deleted node 1. */
  function DeletedState(workers: nat, g: Setting): State {
    Three(workers, 6, [0, 1, 2], NULL, map[2 := Node(0, g.second, 0, Sealed(1, 5))], [],
      NoNodes(g.hold, 2), NoNodes(ScanLock(2), 5), Thread(Idle, 4, [], [], 2))
    .(deleted := 1)
  }

  /** The stack held node 1 below node 2; worker 0 is about to read 1.next. */
  const BELOW := Setting(NULL, 1, PopNext(1))

  /** Worker 0 has read 1.next, which is null, and is about to try its CAS. */
  const BELOW_READ := Setting(NULL, 1, PopCas(1, NULL))

  /** The stack held node 1 above node 2, and worker 0 has read 1.next. */
  const ABOVE_READ := Setting(2, NULL, PopCas(1, 2))

  lemma PoppedBelow(workers: nat)
    requires workers >= 3
    ensures Reach(workers, PoppedState(workers, BELOW))
  {
    hide Reach, Init;
    var a, b, u := NoNodes(Idle, 2), NoNodes(Idle, 1), Thread(Idle, 3, [], [], 2);
    var n1, n2 := Node(0, NULL, 0, OnStack), Node(0, 1, 0, OnStack);
    ThreePush(workers, 1, 2);
    ReachPop(workers, Pushes(workers, 1, 2), 1);
    var b' := b.(pc := CleanFetch(2));
    var s3 := Three(workers, 4, [0, 1, 2], 1, map[1 := n1, 2 := n2.(place := Popped(1))], [1], a, b', u);
    assert PopDone(Pushes(workers, 1, 2), 1) == s3;
    ReachPopRead(workers, s3, 0);
    var a' := a.(pc := PopNext(1));
    var s4 := Three(workers, 4, [0, 1, 2], 1, map[1 := n1, 2 := n2.(place := Popped(1))], [1], a', b', u);
    assert At(s3, 0, PopNext(1)) == s4;
    LastPopBelow(workers, s4);
  }

  lemma LastPopBelow(workers: nat, s: State)
    requires workers >= 3 && Reach(workers, s)
    requires s == Three(workers, 4, [0, 1, 2], 1,
                    map[1 := Node(0, NULL, 0, OnStack), 2 := Node(0, 1, 0, Popped(1))], [1],
                    NoNodes(PopNext(1), 2), NoNodes(CleanFetch(2), 1), Thread(Idle, 3, [], [], 2))
    ensures Reach(workers, PoppedState(workers, BELOW))
  {
    hide Reach, Init;
    ReachPop(workers, s, 2);
    assert PopDone(s, 2) == PoppedState(workers, BELOW);
  }

  /** `t` reads the link of the node it is popping. */
  lemma ReachReadNext(workers: nat, s: State, t: Tid, n: Addr)
    requires Reach(workers, s) && t in s.threads && s.threads[t].pc == PopNext(n) && n in s.mem
    ensures Reach(workers, At(s, t, PopCas(n, s.mem[n].next)))
  {
    hide Reach, Init, GoRegister, GoPush, GoScan, GoClean, GoSweep, GoDereg;
    ReachGo(workers, s, t, At(s, t, PopCas(n, s.mem[n].next)));
  }

  lemma PoppedBelowRead(workers: nat)
    requires workers >= 3
    ensures Reach(workers, PoppedState(workers, BELOW_READ))
  {
    hide Reach, Init;
    PoppedBelow(workers);
    var s := PoppedState(workers, BELOW);
    ReachReadNext(workers, s, 0, 1);
    assert At(s, 0, PopCas(1, NULL)) == PoppedState(workers, BELOW_READ);
  }

  lemma HeldAbove(workers: nat, s: State)
    requires workers >= 3
    requires s == Pushes(workers, 2, 1).(threads := Init(workers).threads
                    [0 := NoNodes(PopCas(1, 2), 2)][1 := NoNodes(Idle, 1)][2 := Thread(Idle, 3, [], [], 2)])
    ensures Reach(workers, s)
  {
    hide Reach, Init;
    ThreePush(workers, 2, 1);
    var s0 := Pushes(workers, 2, 1);
    ReachPopRead(workers, s0, 0);
    var s1 := At(s0, 0, PopNext(1));
    ReachReadNext(workers, s1, 0, 1);
    assert At(s1, 0, PopCas(1, 2)).threads == s.threads;
  }

  lemma PoppedAboveRead(workers: nat)
    requires workers >= 3
    ensures Reach(workers, PoppedState(workers, ABOVE_READ))
  {
    hide Reach, Init;
    var a, b, u := NoNodes(PopCas(1, 2), 2), NoNodes(Idle, 1), Thread(Idle, 3, [], [], 2);
    var n1, n2 := Node(0, 2, 0, OnStack), Node(0, NULL, 0, OnStack);
    var s0 := Three(workers, 4, [0, 1, 2], 1, map[2 := n2, 1 := n1], [1, 2], a, b, u);
    HeldAbove(workers, s0);
    ReachPop(workers, s0, 2);
    var s1 := Three(workers, 4, [0, 1, 2], 2, map[1 := n1.(place := Popped(2)), 2 := n2], [2],
                    a, b, u.(pc := CleanFetch(1)));
    assert PopDone(s0, 2) == s1;
    ReachPop(workers, s1, 1);
    assert PopDone(s1, 1) == PoppedState(workers, ABOVE_READ);
  }

  lemma RaceStart(workers: nat, g: Setting)
    requires workers >= 3 && Reach(workers, PoppedState(workers, g))
    ensures Reach(workers, RaceState(workers, g))
  {
    hide Reach, Init;
    ReachFetch(workers, PoppedState(workers, g), 2, 1);
    assert FetchDone(PoppedState(workers, g), 2, 1) == RaceState(workers, g);
  }

  /** The scan has passed worker 0 and is about to read the clock of worker 1 for the second time. */
  lemma RaceHalf(workers: nat, g: Setting)
    requires workers >= 3 && Reach(workers, RaceState(workers, g))
    ensures Reach(workers, At(RaceState(workers, g), 2, ScanAssign(1, 1, 2)))
  {
    hide Reach, Init;
    var s := RaceState(workers, g);
    assert At(s, 2, ScanLock(1)).threads == s.threads;
    assert ClockOf(s, 0) == 2 && ClockOf(s, 1) == 1;
    hide Three;
    ReachScanStep(workers, s, 2, ScanLock(1), Scan(1, 0, UINT64_MAX));
    ReachSees(workers, s, 2, 1, 0, UINT64_MAX);
    ReachTakes(workers, s, 2, 1, 0, UINT64_MAX);
    ReachSees(workers, s, 2, 1, 1, 2);
  }

  /** Between the two reads worker 1 stores the clock 5, which becomes the minimum. */
  lemma RaceRaises(workers: nat, g: Setting)
    requires workers >= 3 && Reach(workers, RaceState(workers, g))
    ensures Reach(workers, At(LateState(workers, g), 2, Scan(1, 2, 5)))
  {
    hide Reach, Init;
    RaceHalf(workers, g);
    var s := At(RaceState(workers, g), 2, ScanAssign(1, 1, 2));
    ReachFetch(workers, s, 1, 2);
    assert FetchDone(s, 1, 2) == At(LateState(workers, g), 2, ScanAssign(1, 1, 2));
    ReachTakes(workers, LateState(workers, g), 2, 1, 1, 2);
  }

  /**
    The scan ends with the minimum 4, the clock of worker 2 itself, while the clock of worker 0 is 2:
    worker 2 deletes node 1 although worker 0 is inside a pop of it.
   */
  lemma RaceDeletes(workers: nat, g: Setting)
    requires workers >= 3 && Reach(workers, PoppedState(workers, g))
    ensures Reach(workers, DeletedState(workers, g))
  {
    hide Reach, Init;
    RaceStart(workers, g);
    RaceRaises(workers, g);
    var s := LateState(workers, g);
    ReachScan(workers, s, 2, 1, 2, 5);
    assert s.clocks[2..] == [2] && Least(s, [2], 5) == 4;
    LateDeletes(workers, g);
  }

  lemma LateDeletes(workers: nat, g: Setting)
    requires workers >= 3 && Reach(workers, At(LateState(workers, g), 2, Decide(1, 4)))
    ensures Reach(workers, DeletedState(workers, g))
  {
    hide Reach, Init;
    var s := LateState(workers, g);
    ReachDelete(workers, s, 2, 1);
    assert Delete(At(s, 2, Idle), 1) == DeletedState(workers, g);
  }

  // ----- what follows -----

  /** Every run of `workers` threads respects the grace period. */
  ghost predicate SafeFor(workers: nat) {
    forall run | Legal(Init(workers), run) :: GraceHolds(Exec(Init(workers), run))
  }

  lemma GraceBroken(workers: nat)
    requires workers >= 3
    ensures exists s :: Reach(workers, s) && !GraceHolds(s)
  {
    PoppedBelow(workers);
    RaceDeletes(workers, BELOW);
    var s := DeletedState(workers, BELOW);
    assert s.threads[0].pc == PopNext(1) && 1 !in s.mem;
    assert 1 in Touches(s, 0);
  }

  /** The collector is sound for exactly those programs that start at most two workers. */
  lemma GracePeriodExactly(workers: nat)
    ensures SafeFor(workers) <==> workers <= 2
  {
    if workers <= 2 {
      forall run | Legal(Init(workers), run) ensures GraceHolds(Exec(Init(workers), run)) {
        TwoWorkersSafe(workers, run);
      }
    } else {
      GraceBroken(workers);
    }
  }

  /** A pop whose CAS is about to succeed would install the second node of the stack. */
  predicate NoAba(s: State) {
    forall t | t in s.threads && s.threads[t].pc.PopCas? && s.threads[t].pc.n == s.top ::
      s.stack != [] && s.stack[0] == s.top && s.threads[t].pc.succ == EntryAt(s.stack, 1)
  }

  ghost predicate NoAbaFor(workers: nat) {
    forall run | Legal(Init(workers), run) :: NoAba(Exec(Init(workers), run))
  }

  /** Worker 2 has pushed a node at address 3, then one at the address of the deleted node. */
  function AbaState(workers: nat): State {
    Three(workers, 6, [0, 1, 2], 1,
      map[1 := Node(0, 3, 0, OnStack), 2 := Node(0, 1, 0, Sealed(1, 5)), 3 := Node(0, NULL, 0, OnStack)], [1, 3],
      NoNodes(PopCas(1, NULL), 2), NoNodes(ScanLock(2), 5), Thread(Idle, 4, [], [], 4))
    .(deleted := 1)
  }

  lemma AbaReached(workers: nat)
    requires workers >= 3
    ensures Reach(workers, AbaState(workers))
  {
    hide Reach, Init;
    PoppedBelowRead(workers);
    RaceDeletes(workers, BELOW_READ);
    var s := DeletedState(workers, BELOW_READ);
    ReachPush(workers, s, 2, 0, 3);
    var s1 := PushDone(s, 2, 0, 3);
    ReachPush(workers, s1, 2, 0, 1);
    assert PushDone(s1, 2, 0, 1) == AbaState(workers);
  }

  lemma AbaHappens(workers: nat)
    requires workers >= 3
    ensures exists s :: Reach(workers, s) && !NoAba(s)
  {
    AbaReached(workers);
    var s := AbaState(workers);
    assert s.threads[0].pc == PopCas(1, NULL) && EntryAt(s.stack, 1) == 3;
  }

  /** Successful pops install the true successor in every run exactly for at most two workers. */
  lemma NoAbaExactly(workers: nat)
    ensures NoAbaFor(workers) <==> workers <= 2
  {
    if workers <= 2 {
      forall run | Legal(Init(workers), run) ensures NoAba(Exec(Init(workers), run)) {
        InitOk(workers);
        TwoWorkersAlwaysCalm(workers, run);
        CalmRunKeeps(Init(workers), run);
        InvGivesNoAba(Exec(Init(workers), run));
      }
    } else {
      AbaHappens(workers);
    }
  }

  lemma InvGivesNoAba(s: State)
    requires Inv(s)
    ensures NoAba(s)
  {
    forall t | t in s.threads && s.threads[t].pc.PopCas? && s.threads[t].pc.n == s.top
      ensures s.stack != [] && s.stack[0] == s.top && s.threads[t].pc.succ == EntryAt(s.stack, 1)
    {
      PopInstallsSuccessor(s, t);
    }
  }

  // ----- last in, first out -----

  lemma {:induction false} HistoryAppend(s: State, run: seq<Action>, a: Action)
    requires Legal(s, run) && Enabled(Exec(s, run), a)
    ensures Legal(s, run + [a]) && History(s, run + [a]) == History(s, run) + Effect(Exec(s, run), a)
    decreases |run|
  {
    ExecAppend(s, run, a);
    if run == [] {
      assert (run + [a])[1..] == [];
      assert History(Apply(s, a), []) == [];
    } else {
      assert (run + [a])[0] == run[0] && (run + [a])[1..] == run[1..] + [a];
      HistoryAppend(Apply(s, run[0]), run[1..], a);
    }
  }

  lemma StepSizes(s: State, a: Action, c: seq<int>)
    requires Enabled(s, a) && |c| == |s.stack| && Replay(c, Effect(s, a)).Some?
    ensures |Replay(c, Effect(s, a)).value| == |Apply(s, a).stack|
  {
    if !MovesStack(s, a) { OtherStepsKeepStack(s, a); }
    if |Effect(s, a)| == 1 { assert Effect(s, a)[1..] == []; }
  }

  /** As long as the history makes sense the sequential stack is as large as the real one. */
  lemma {:induction false} SizesAgree(s: State, run: seq<Action>, c: seq<int>)
    requires Legal(s, run) && |c| == |s.stack| && Replay(c, History(s, run)).Some?
    ensures |Replay(c, History(s, run)).value| == |Exec(s, run).stack|
    decreases |run|
  {
    if run != [] {
      var rest := History(Apply(s, run[0]), run[1..]);
      ReplayPrefix(c, Effect(s, run[0]), rest);
      ReplayAppend(c, Effect(s, run[0]), rest);
      StepSizes(s, run[0], c);
      SizesAgree(Apply(s, run[0]), run[1..], Replay(c, Effect(s, run[0])).value);
    }
  }

  /** A pop that reports an empty stack while a node should be on it makes no sense on a sequential stack. */
  lemma WrongEmpty(workers: nat, run: seq<Action>, a: Action)
    requires Legal(Init(workers), run) && Enabled(Exec(Init(workers), run), a)
    requires Exec(Init(workers), run).stack != [] && Effect(Exec(Init(workers), run), a) == [PopEmpty]
    ensures Legal(Init(workers), run + [a]) && Replay([], History(Init(workers), run + [a])).None?
  {
    HistoryAppend(Init(workers), run, a);
    var h := History(Init(workers), run);
    if Replay([], h + [PopEmpty]).Some? {
      ReplayPrefix([], h, [PopEmpty]);
      ReplayAppend([], h, [PopEmpty]);
      SizesAgree(Init(workers), run, []);
    }
  }

  /** Every run of `workers` threads is a history of a sequential stack. */
  ghost predicate LifoFor(workers: nat) {
    forall run | Legal(Init(workers), run) :: Replay([], History(Init(workers), run)).Some?
  }

  /** The CAS of worker 0 has installed null, so that node 3 is not linked from the top any more. */
  function LostState(workers: nat): State {
    Three(workers, 6, [0, 1, 2], NULL,
      map[1 := Node(0, 3, 0, Popped(0)), 2 := Node(0, 1, 0, Sealed(1, 5)), 3 := Node(0, NULL, 0, OnStack)], [3],
      NoNodes(CleanFetch(1), 2), NoNodes(ScanLock(2), 5), Thread(Idle, 4, [], [], 4))
    .(deleted := 1)
  }

  lemma NodeLost(workers: nat)
    requires workers >= 3
    ensures Reach(workers, LostState(workers))
  {
    hide Reach, Init, GoRegister, GoPush, GoScan, GoClean, GoSweep, GoDereg;
    AbaReached(workers);
    var s, s' := AbaState(workers), LostState(workers);
    assert GoPop(s, 0).threads == s'.threads;
    ReachGo(workers, s, 0, s');
  }

  /** Worker 2 is about to be told that the stack is empty. */
  lemma LifoBroken(workers: nat)
    requires workers >= 3
    ensures !LifoFor(workers)
  {
    NodeLost(workers);
    var e := At(LostState(workers), 2, PopTest);
    ReachStep(workers, LostState(workers), StartPop(2));
    var run :| Legal(Init(workers), run) && Exec(Init(workers), run) == e;
    assert Effect(e, Go(2)) == [PopEmpty];
    WrongEmpty(workers, run, Go(2));
  }

  /** The stack with its collector is last in, first out in every run exactly for at most two workers. */
  lemma LifoExactly(workers: nat)
    ensures LifoFor(workers) <==> workers <= 2
  {
    if workers <= 2 {
      forall run | Legal(Init(workers), run) ensures Replay([], History(Init(workers), run)).Some? {
        TwoWorkersLifo(workers, run);
      }
    } else {
      LifoBroken(workers);
    }
  }
}
