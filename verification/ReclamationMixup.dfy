/**
  With three workers a node can come to two of them at once, and a push with
  other data than it was called with: the node in its hand is given back by
  another worker and allocated again.
 */
module ReclamationMixup {
  import opened Reclamation
  import opened ReclamationInvariant
  import opened ReclamationTheorems
  import opened ReclamationAlone
  import opened ReclamationCalls
  import opened ReclamationRace
  import opened ReclamationLoss
  import opened Options

  /** The operations of each thread answer its calls. */
  ghost predicate CallsAnswered(workers: nat, run: seq<Action>)
    requires Legal(Init(workers), run)
  {
    forall t: Tid :: CallsBy(run, t) == Answers(OpsOf(Log(Init(workers), run), t)) + Pending(Exec(Init(workers), run), t)
  }

  ghost predicate CallsFor(workers: nat) {
    forall run | Legal(Init(workers), run) :: CallsAnswered(workers, run)
  }

  // ----- the run -----

  /** Worker 2 has popped node 2 as well, and worker 0 has fetched its clock. */
  function SharedState(workers: nat): State {
    Three(workers, 8, [0, 1, 2], NULL,
      map[1 := Node(0, NULL, 0, Sealed(0, 7)), 2 := Node(0, NULL, 0, Sealed(2, 6))], [],
      NoNodes(ScanLock(1), 7), NoNodes(ScanLock(2), 5), Thread(ScanLock(2), 6, [], [], 3))
    .(deleted := 1)
  }

  lemma PoppedByTwo(workers: nat, s: State)
    requires workers >= 3
    requires s == Three(workers, 7, [0, 1, 2], NULL,
                    map[1 := Node(0, NULL, 0, Popped(0)), 2 := Node(0, NULL, 0, Sealed(2, 6))], [],
                    NoNodes(CleanFetch(1), 2), NoNodes(ScanLock(2), 5), Thread(ScanLock(2), 6, [], [], 3))
                  .(deleted := 1)
    ensures Reach(workers, s)
  {
    hide Reach, Init;
    TwiceReached(workers);
    var s0 := TwiceState(workers);
    ReachPop(workers, s0, 2);
    var s1 := PopDone(s0, 2);
    ReachFetch(workers, s1, 2, 2);
    assert FetchDone(s1, 2, 2).mem == s.mem;
    assert FetchDone(s1, 2, 2).threads == s.threads;
  }

  lemma SharedReached(workers: nat)
    requires workers >= 3
    ensures Reach(workers, SharedState(workers))
  {
    hide Reach, Init;
    var s := Three(workers, 7, [0, 1, 2], NULL,
               map[1 := Node(0, NULL, 0, Popped(0)), 2 := Node(0, NULL, 0, Sealed(2, 6))], [],
               NoNodes(CleanFetch(1), 2), NoNodes(ScanLock(2), 5), Thread(ScanLock(2), 6, [], [], 3))
             .(deleted := 1);
    PoppedByTwo(workers, s);
    ReachFetch(workers, s, 0, 1);
    assert FetchDone(s, 0, 1) == SharedState(workers);
  }

  /** Worker 1 has given node 2 back. */
  function GoneState(workers: nat): State {
    Three(workers, 8, [0, 1, 2], NULL, map[1 := Node(0, NULL, 0, Sealed(0, 7))], [],
      NoNodes(ScanLock(1), 7), NoNodes(Idle, 5), Thread(ScanLock(2), 6, [], [], 3))
    .(deleted := 2)
  }

  lemma GoneReached(workers: nat)
    requires workers >= 3
    ensures Reach(workers, GoneState(workers))
  {
    hide Reach, Init;
    SharedReached(workers);
    var s := SharedState(workers);
    assert Least(s, s.clocks, UINT64_MAX) == 5 by {
      assert [0, 1, 2][1..] == [1, 2] && [1, 2][1..] == [2];
      assert Least(s, [2], 5) == 5;
      assert Least(s, [1, 2], 7) == 5;
    }
    ReachReturn(workers, s, 1, 2);
    assert Delete(At(s, 1, Idle), 2) == GoneState(workers);
  }

  /** Worker 1 has left. */
  function TwoState(workers: nat): State {
    Three(workers, 8, [0, 2], NULL, map[1 := Node(0, NULL, 0, Sealed(0, 7))], [],
      NoNodes(ScanLock(1), 7), NoNodes(Done, 5), Thread(ScanLock(2), 6, [], [], 3))
    .(deleted := 2)
  }

  lemma TwoReached(workers: nat)
    requires workers >= 3
    ensures Reach(workers, TwoState(workers))
  {
    hide Reach, Init;
    GoneReached(workers);
    var s := GoneState(workers);
    NobodyScans(workers, s, NoNodes(ScanLock(1), 7), NoNodes(Idle, 5), Thread(ScanLock(2), 6, [], [], 3));
    ReachLeave(workers, s, 1);
    assert [0, 1, 2][1..] == [1, 2] && [1, 2][1..] == [2] && [2][1..] == [];
    assert Without([2], 1) == [2] && Without([1, 2], 1) == [2] && Without([0, 1, 2], 1) == [0, 2];
    assert LeaveDone(s, 1) == TwoState(workers);
  }

  lemma LeastOfZeroAndTwo(s: State)
    requires s.clocks == [0, 2] && ClockOf(s, 0) == 7 && ClockOf(s, 2) == 6
    ensures Least(s, s.clocks, UINT64_MAX) == 6
  {
    assert [0, 2][1..] == [2];
    assert Least(s, [2], 7) == 6;
  }

  /** Worker 0 has listed node 1 and has allocated node 2 for the data 7. */
  function HandState(workers: nat): State {
    Three(workers, 8, [0, 2], NULL, map[1 := Node(0, NULL, 7, Sealed(0, 7)), 2 := Node(7, NULL, 0, Hand(0))], [],
      Thread(PushRead(2), 7, [1], [], 1), NoNodes(Done, 5), Thread(ScanLock(2), 6, [], [], 3))
    .(deleted := 2)
  }

  lemma HandReached(workers: nat)
    requires workers >= 3
    ensures Reach(workers, HandState(workers))
  {
    hide Reach, Init;
    TwoReached(workers);
    var s := TwoState(workers);
    LeastOfZeroAndTwo(s);
    ReachEnlist(workers, s, 0, 1);
    var s1 := EnlistDone(s, 0, 1);
    ReachStep(workers, s1, Fresh(0, 7, 2));
    assert s1.threads[0].dirty == [1];
    assert Apply(s1, Fresh(0, 7, 2)).threads == HandState(workers).threads;
    assert Apply(s1, Fresh(0, 7, 2)).mem == HandState(workers).mem;
  }

  /** Worker 2 gives back what worker 0 has in hand, and allocates it for the data 9. */
  function TakenState(workers: nat): State {
    HandState(workers).(mem := map[1 := Node(0, NULL, 7, Sealed(0, 7)), 2 := Node(9, NULL, 0, Hand(2))], deleted := 3,
      threads := HandState(workers).threads[2 := Thread(PushRead(2), 6, [], [], 4)])
  }

  lemma TakesAway(workers: nat) returns (k: nat)
    requires workers >= 3
    ensures Legal(HandState(workers), Times(2, k) + [Fresh(2, 9, 2)])
    ensures Exec(HandState(workers), Times(2, k) + [Fresh(2, 9, 2)]) == TakenState(workers)
  {
    hide Alone, Init;
    var s := HandState(workers);
    LeastOfZeroAndTwo(s);
    k := ReturnAlone(s, 2, 2);
    var s1 := Delete(At(s, 2, Idle), 2);
    assert Apply(s1, Fresh(2, 9, 2)).threads == TakenState(workers).threads;
    assert Apply(s1, Fresh(2, 9, 2)).mem == TakenState(workers).mem;
    AloneIsRun(s, 2, k, s1);
    ExecAppend(s, Times(2, k), Fresh(2, 9, 2));
  }

  lemma AloneIsRun(s: State, t: Tid, k: nat, e: State)
    requires Alone(s, t, k, e)
    ensures Legal(s, Times(t, k)) && Exec(s, Times(t, k)) == e
  {
  }

  // ----- the calls of worker 0 -----

  /** A run of steps of others. */
  ghost predicate OnlyOthers(run: seq<Action>, t: Tid) {
    forall a | a in run :: a.Drain? || a.t != t
  }

  lemma {:induction false} NothingOfHis(s: State, run: seq<Action>, t: Tid)
    requires Legal(s, run) && OnlyOthers(run, t)
    ensures CallsBy(run, t) == [] && OpsOf(Log(s, run), t) == []
    decreases |run|
  {
    if run != [] {
      assert run[0] in run;
      assert forall a | a in run[1..] :: a in run;
      NothingOfHis(Apply(s, run[0]), run[1..], t);
      OpsOfAppend(Entries(s, run[0]), Log(Apply(s, run[0]), run[1..]), t);
      EntriesAre(s, run[0], t);
    }
  }

  lemma {:induction false} CallsByAppend(p: seq<Action>, q: seq<Action>, t: Tid)
    ensures CallsBy(p + q, t) == CallsBy(p, t) + CallsBy(q, t)
  {
    if p == [] {
      assert p + q == q;
    } else {
      assert (p + q)[0] == p[0] && (p + q)[1..] == p[1..] + q;
      CallsByAppend(p[1..], q, t);
      assert CallsBy(p + q, t) == CallOf(p[0], t) + (CallsBy(p[1..], t) + CallsBy(q, t));
    }
  }

  lemma {:induction false} LogAppend(s: State, p: seq<Action>, q: seq<Action>)
    requires Legal(s, p) && Legal(Exec(s, p), q)
    ensures Legal(s, p + q) && Exec(s, p + q) == Exec(Exec(s, p), q)
    ensures Log(s, p + q) == Log(s, p) + Log(Exec(s, p), q)
    decreases |p|
  {
    hide Enabled, Apply, Entries;
    if p == [] {
      assert p + q == q;
    } else {
      assert (p + q)[0] == p[0] && (p + q)[1..] == p[1..] + q;
      LogAppend(Apply(s, p[0]), p[1..], q);
    }
  }

  lemma {:induction false} TimesAre(t: Tid, k: nat)
    ensures forall a | a in Times(t, k) :: a == Go(t)
  {
    if k > 0 { TimesAre(t, k - 1); }
  }

  /** If both runs were answered, worker 0 would have the same call pending after them. */
  lemma SamePending(workers: nat, p: seq<Action>, q: seq<Action>, t: Tid)
    requires Legal(Init(workers), p) && Legal(Exec(Init(workers), p), q) && OnlyOthers(q, t)
    ensures Legal(Init(workers), p + q) && Exec(Init(workers), p + q) == Exec(Exec(Init(workers), p), q)
    ensures CallsAnswered(workers, p) && CallsAnswered(workers, p + q) ==>
              Pending(Exec(Init(workers), p), t) == Pending(Exec(Init(workers), p + q), t)
  {
    hide Init, Legal, Exec, Log, OpsOf, CallsBy, Pending, Answers;
    var s := Exec(Init(workers), p);
    LogAppend(Init(workers), p, q);
    NothingOfHis(s, q, t);
    CallsByAppend(p, q, t);
    OpsOfAppend(Log(Init(workers), p), Log(s, q), t);
    assert CallsBy(p + q, t) == CallsBy(p, t);
    assert OpsOf(Log(Init(workers), p + q), t) == OpsOf(Log(Init(workers), p), t);
    if CallsAnswered(workers, p) && CallsAnswered(workers, p + q) {
      SameSuffix(Answers(OpsOf(Log(Init(workers), p), t)), Pending(s, t), Pending(Exec(Init(workers), p + q), t));
    }
  }

  lemma OneUnanswered(workers: nat, p: seq<Action>) returns (run: seq<Action>)
    requires workers >= 3 && Legal(Init(workers), p) && Exec(Init(workers), p) == HandState(workers)
    ensures Legal(Init(workers), run) && !CallsAnswered(workers, run)
  {
    hide Init, HandState, TakenState, Three, Pending, Legal, Exec, CallsAnswered, Times;
    var k := TakesAway(workers);
    var q := Times(2, k) + [Fresh(2, 9, 2)];
    TimesAre(2, k);
    assert OnlyOthers(q, 0);
    SamePending(workers, p, q, 0);
    PendingChanged(workers);
    run := if CallsAnswered(workers, p) then p + q else p;
  }

  lemma CallsMixedUp(workers: nat)
    requires workers >= 3
    ensures !CallsFor(workers)
  {
    HandReached(workers);
    var p :| Legal(Init(workers), p) && Exec(Init(workers), p) == HandState(workers);
    var run := OneUnanswered(workers, p);
  }

  lemma SameSuffix(p: seq<Call>, x: seq<Call>, y: seq<Call>)
    requires p + x == p + y
    ensures x == y
  {
    assert (p + x)[|p|..] == x && (p + y)[|p|..] == y;
  }

  lemma PendingChanged(workers: nat)
    requires workers >= 3
    ensures Pending(HandState(workers), 0) == [PushCall(7)] && Pending(TakenState(workers), 0) == [PushCall(9)]
  {
    hide Init;
  }

  /** All calls are answered as they were made, in every run, exactly for at most two workers. */
  lemma CallsExactly(workers: nat)
    ensures CallsFor(workers) <==> workers <= 2
  {
    if workers <= 2 {
      forall run | Legal(Init(workers), run) ensures CallsAnswered(workers, run) {
        forall t: Tid
          ensures CallsBy(run, t)
                  == Answers(OpsOf(Log(Init(workers), run), t)) + Pending(Exec(Init(workers), run), t)
        {
          TwoWorkersCalls(workers, run, t);
        }
      }
    } else {
      CallsMixedUp(workers);
    }
  }
}
