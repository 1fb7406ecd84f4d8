/** A worker that is left alone: its pushes, pops and scans end, and with what they are for. */
module ReclamationAlone {
  import opened Chains
  import opened Reclamation
  import opened ReclamationInvariant
  import opened ReclamationSteps
  import opened ReclamationTheorems

  function Times(t: Tid, k: nat): seq<Action> {
    if k == 0 then [] else [Go(t)] + Times(t, k - 1)
  }

  /** `k` steps of `t` alone lead from `s` to `e`. */
  predicate Alone(s: State, t: Tid, k: nat, e: State) {
    Legal(s, Times(t, k)) && Calm(s, Times(t, k)) && Exec(s, Times(t, k)) == e
  }

  lemma NoStep(s: State, t: Tid)
    ensures Alone(s, t, 0, s)
  {
  }

  lemma FirstStep(s: State, t: Tid, k: nat, e: State)
    requires CanGo(s, t) && Harmless(s, Go(t)) && Alone(GoStep(s, t), t, k, e)
    ensures Alone(s, t, k + 1, e)
  {
    hide GoStep;
    assert Times(t, k + 1)[0] == Go(t) && Times(t, k + 1)[1..] == Times(t, k);
  }

  lemma OneStep(s: State, t: Tid)
    requires CanGo(s, t) && Harmless(s, Go(t))
    ensures Alone(s, t, 1, GoStep(s, t))
  {
    hide Alone;
    NoStep(GoStep(s, t), t);
    FirstStep(s, t, 0, GoStep(s, t));
  }

  lemma {:induction false} Then(s: State, t: Tid, j: nat, m: State, k: nat, e: State)
    requires Alone(s, t, j, m) && Alone(m, t, k, e)
    ensures Alone(s, t, j + k, e)
    decreases j
  {
    hide GoStep, CanGo, Harmless;
    if j > 0 {
      assert Times(t, j)[0] == Go(t) && Times(t, j)[1..] == Times(t, j - 1);
      Then(GoStep(s, t), t, j - 1, m, k, e);
      FirstStep(s, t, j - 1 + k, e);
    }
  }

  lemma AloneKeeps(s: State, t: Tid, k: nat, e: State)
    requires Inv(s) && Alone(s, t, k, e)
    ensures Inv(e)
  {
    CalmRunKeeps(s, Times(t, k));
  }

  // ----- push -----

  /** The node in the hand of `t` is on top of the stack. */
  function Landed(s: State, t: Tid, n: Addr): State
    requires t in s.threads && n in s.mem
  {
    At(s, t, Idle).(top := n, stack := [n] + s.stack, mem := s.mem[n := s.mem[n].(next := s.top, place := OnStack)])
  }

  /** The CAS finds the head that was linked. */
  lemma PushCasLands(s: State, t: Tid, n: Addr)
    requires t in s.threads && n in s.mem && s.threads[t].pc == PushCas(n, s.top) && s.mem[n].next == s.top
    ensures Alone(s, t, 2, Landed(s, t, n))
  {
    hide Alone, GoRegister, GoPop, GoScan, GoClean, GoSweep, GoDereg;
    var s1 := GoStep(s, t);
    OneStep(s, t);
    OneStep(s1, t);
    assert GoStep(s1, t).threads == Landed(s, t, n).threads;
    assert GoStep(s1, t).mem == Landed(s, t, n).mem;
    Then(s, t, 1, s1, 1, Landed(s, t, n));
  }

  lemma PushReadLands(s: State, t: Tid, n: Addr)
    requires t in s.threads && n in s.mem && s.threads[t].pc == PushRead(n)
    ensures Alone(s, t, 4, Landed(s, t, n))
  {
    hide Alone, GoRegister, GoPop, GoScan, GoClean, GoSweep, GoDereg;
    var s1 := GoStep(s, t);
    var s2 := GoStep(s1, t);
    OneStep(s, t);
    OneStep(s1, t);
    PushCasLands(s2, t, n);
    assert Landed(s2, t, n).threads == Landed(s, t, n).threads;
    assert Landed(s2, t, n).mem == Landed(s, t, n).mem;
    Then(s, t, 1, s1, 1, s2);
    Then(s, t, 2, s2, 2, Landed(s, t, n));
  }

  /** Whatever others have done meanwhile, a push that is left alone ends within six steps. */
  lemma PushFinishes(s: State, t: Tid) returns (k: nat)
    requires Inv(s) && t in s.threads && HandOf(s.threads[t].pc) != NULL
    ensures k <= 6 && HandOf(s.threads[t].pc) in s.mem
    ensures Alone(s, t, k, Landed(s, t, HandOf(s.threads[t].pc)))
  {
    hide Alone, GoRegister, GoPop, GoScan, GoClean, GoSweep, GoDereg, Landed;
    var n := HandOf(s.threads[t].pc);
    InHand(s, t);
    match s.threads[t].pc
    case PushRead(_) =>
      PushReadLands(s, t, n);
      k := 4;
    case PushCas(_, seen) => k := CasFinishes(s, t, n, seen);
    case PushLink(_, seen) =>
      var s1 := GoStep(s, t);
      OneStep(s, t);
      k := CasFinishes(s1, t, n, seen);
      SameLanding(s, s1, t, n);
      Then(s, t, 1, s1, k, Landed(s, t, n));
      k := k + 1;
    case _ =>
  }

  lemma InHand(s: State, t: Tid)
    requires Inv(s) && t in s.threads && HandOf(s.threads[t].pc) != NULL
    ensures HandOf(s.threads[t].pc) in s.mem
    ensures s.threads[t].pc.PushCas? ==> s.mem[HandOf(s.threads[t].pc)].next == s.threads[t].pc.seen
  {
    assert PcOk(s, t);
  }

  lemma SameLanding(s: State, s1: State, t: Tid, n: Addr)
    requires t in s.threads && n in s.mem && t in s1.threads && n in s1.mem
    requires s1 == s.(threads := s.threads[t := s.threads[t].(pc := s1.threads[t].pc)],
                      mem := s.mem[n := s.mem[n].(next := s1.mem[n].next)])
    ensures Landed(s1, t, n) == Landed(s, t, n)
  {
    assert Landed(s1, t, n).threads == Landed(s, t, n).threads;
    assert Landed(s1, t, n).mem == Landed(s, t, n).mem;
  }

  lemma CasFinishes(s: State, t: Tid, n: Addr, seen: Addr) returns (k: nat)
    requires t in s.threads && n in s.mem && s.threads[t].pc == PushCas(n, seen) && s.mem[n].next == seen
    ensures k <= 5 && Alone(s, t, k, Landed(s, t, n))
  {
    hide Alone, GoRegister, GoPop, GoScan, GoClean, GoSweep, GoDereg, Landed;
    if s.top == seen {
      PushCasLands(s, t, n);
      k := 2;
    } else {
      var s1 := At(s, t, PushRead(n));
      OneStep(s, t);
      assert GoStep(s, t) == s1;
      PushReadLands(s1, t, n);
      assert s1.mem == s.mem[n := s.mem[n].(next := s1.mem[n].next)];
      SameLanding(s, s1, t, n);
      Then(s, t, 1, s1, 4, Landed(s, t, n));
      k := 5;
    }
  }

  // ----- pop -----

  /** `t` has taken the top node off the stack and is about to hand it to the collector. */
  function Unlinked(s: State, t: Tid): State
    requires t in s.threads && s.top in s.mem
  {
    At(s, t, CleanFetch(s.top)).(mem := s.mem[s.top := s.mem[s.top].(place := Popped(t))],
                                 top := s.mem[s.top].next, stack := Tail(s.stack))
  }

  lemma PopCasUnlinks(s: State, t: Tid)
    requires t in s.threads && s.top in s.mem && s.threads[t].pc == PopCas(s.top, s.mem[s.top].next)
    ensures Alone(s, t, 1, Unlinked(s, t))
  {
    hide Alone, GoRegister, GoPush, GoScan, GoClean, GoSweep, GoDereg;
    OneStep(s, t);
    assert GoStep(s, t) == Unlinked(s, t);
  }

  lemma PopReadUnlinks(s: State, t: Tid)
    requires t in s.threads && s.top in s.mem && s.top != NULL && s.threads[t].pc == PopRead
    ensures Alone(s, t, 3, Unlinked(s, t))
  {
    hide Alone, GoRegister, GoPush, GoScan, GoClean, GoSweep, GoDereg;
    var s1 := GoStep(s, t);
    var s2 := GoStep(s1, t);
    OneStep(s, t);
    OneStep(s1, t);
    PopCasUnlinks(s2, t);
    assert Unlinked(s2, t).threads == Unlinked(s, t).threads;
    Then(s, t, 1, s1, 1, s2);
    Then(s, t, 2, s2, 1, Unlinked(s, t));
  }

  /** Where a pop that is left alone ends. */
  function PopEnd(s: State, t: Tid): State
    requires t in s.threads && (s.top != NULL ==> s.top in s.mem)
  {
    if s.top == NULL then At(s, t, Idle) else Unlinked(s, t)
  }

  lemma SameEnd(s: State, t: Tid, pc: PC)
    requires t in s.threads && (s.top != NULL ==> s.top in s.mem)
    ensures PopEnd(At(s, t, pc), t) == PopEnd(s, t)
  {
    assert PopEnd(At(s, t, pc), t).threads == PopEnd(s, t).threads;
  }

  lemma ReadFinishes(s: State, t: Tid) returns (k: nat)
    requires t in s.threads && (s.top != NULL ==> s.top in s.mem) && s.threads[t].pc == PopRead
    ensures k <= 3 && Alone(s, t, k, PopEnd(s, t))
  {
    hide Alone, GoRegister, GoPush, GoScan, GoClean, GoSweep, GoDereg;
    if s.top == NULL {
      var s1 := At(s, t, PopTest);
      OneStep(s, t);
      assert GoStep(s, t) == s1;
      OneStep(s1, t);
      assert GoStep(s1, t).threads == At(s, t, Idle).threads;
      Then(s, t, 1, s1, 1, PopEnd(s, t));
      k := 2;
    } else {
      PopReadUnlinks(s, t);
      k := 3;
    }
  }

  lemma ThenRead(s: State, t: Tid) returns (k: nat)
    requires CanGo(s, t) && Harmless(s, Go(t)) && GoStep(s, t) == At(s, t, PopRead)
    requires s.top != NULL ==> s.top in s.mem
    ensures k <= 4 && Alone(s, t, k, PopEnd(s, t))
  {
    hide Alone, GoStep, PopEnd;
    OneStep(s, t);
    k := ReadFinishes(At(s, t, PopRead), t);
    SameEnd(s, t, PopRead);
    Then(s, t, 1, At(s, t, PopRead), k, PopEnd(s, t));
    k := k + 1;
  }

  lemma CasEnds(s: State, t: Tid) returns (k: nat)
    requires Inv(s) && t in s.threads && s.threads[t].pc.PopCas? && (s.top != NULL ==> s.top in s.mem)
    ensures k <= 4 && Alone(s, t, k, PopEnd(s, t))
  {
    hide Alone, GoRegister, GoPush, GoScan, GoClean, GoSweep, GoDereg;
    assert HeldOk(s, t) && PcOk(s, t);
    if s.threads[t].pc.n == s.top {
      PopCasUnlinks(s, t);
      k := 1;
    } else {
      k := ThenRead(s, t);
    }
  }

  lemma TopLives(s: State)
    requires Inv(s)
    ensures s.top == NULL <==> s.stack == []
    ensures s.top != NULL ==> s.top in s.mem
  {
  }

  /**
    Whatever others have done meanwhile, a pop that is left alone ends within
    five steps: it takes the top node off, or finds the stack empty and returns.
   */
  lemma PopFinishes(s: State, t: Tid) returns (k: nat)
    requires Inv(s) && t in s.threads
    requires var pc := s.threads[t].pc; pc.PopTest? || pc.PopRead? || pc.PopNext? || pc.PopCas?
    ensures k <= 5 && (s.top == NULL <==> s.stack == []) && (s.top != NULL ==> s.top in s.mem)
    ensures Alone(s, t, k, PopEnd(s, t))
  {
    hide Alone, GoRegister, GoPush, GoScan, GoClean, GoSweep, GoDereg, PopEnd, Inv;
    TopLives(s);
    match s.threads[t].pc
    case PopTest =>
      if s.top == NULL {
        OneStep(s, t);
        EmptyEnd(s, t);
        k := 1;
      } else {
        k := ThenRead(s, t);
      }
    case PopRead => k := ReadFinishes(s, t);
    case PopCas(_, _) => k := CasEnds(s, t);
    case PopNext(n) =>
      Readable(s, t);
      var s1 := GoStep(s, t);
      OneStep(s, t);
      StepKeeps(s, Go(t));
      k := CasEnds(s1, t);
      SameEnd(s, t, PopCas(n, s.mem[n].next));
      Then(s, t, 1, s1, k, PopEnd(s, t));
      k := k + 1;
    case _ =>
  }

  lemma EmptyEnd(s: State, t: Tid)
    requires t in s.threads && s.top == NULL
    ensures PopEnd(s, t) == At(s, t, Idle)
  {
  }

  lemma Readable(s: State, t: Tid)
    requires Inv(s) && t in s.threads && s.threads[t].pc.PopNext?
    ensures s.threads[t].pc.n in s.mem && CanGo(s, t)
  {
    assert HeldOk(s, t) && PcOk(s, t);
  }

  // ----- scan -----

  /** What a scan that nobody disturbs finds. */
  function Least(s: State, clocks: seq<Tid>, min: nat): nat
    decreases |clocks|
  {
    if clocks == [] then min
    else Least(s, clocks[1..], if ClockOf(s, clocks[0]) < min then ClockOf(s, clocks[0]) else min)
  }

  /** It is the least of the clocks and the number it starts with. */
  lemma {:induction false} LeastIs(s: State, clocks: seq<Tid>, min: nat)
    ensures Least(s, clocks, min) <= min && forall u | u in clocks :: Least(s, clocks, min) <= ClockOf(s, u)
    ensures Least(s, clocks, min) == min || exists u :: u in clocks && ClockOf(s, u) == Least(s, clocks, min)
    decreases |clocks|
  {
    if clocks != [] {
      LeastIs(s, clocks[1..], if ClockOf(s, clocks[0]) < min then ClockOf(s, clocks[0]) else min);
      assert clocks == [clocks[0]] + clocks[1..];
    }
  }

  lemma ScanStep(s: State, t: Tid, pc: PC, pc': PC)
    requires t in s.threads && (pc.ScanLock? || pc.Scan? || pc.ScanAssign?)
    requires CanGo(At(s, t, pc), t) && Harmless(At(s, t, pc), Go(t)) && GoScan(At(s, t, pc), t).threads[t].pc == pc'
    ensures Alone(At(s, t, pc), t, 1, At(s, t, pc'))
  {
    hide Alone;
    assert At(At(s, t, pc), t, pc').threads == At(s, t, pc').threads;
    OneStep(At(s, t, pc), t);
  }

  lemma LowerClock(s: State, t: Tid, n: Addr, i: nat, min: nat)
    requires t in s.threads && i < |s.clocks| && ClockOf(s, s.clocks[i]) < min
    ensures Alone(At(s, t, Scan(n, i, min)), t, 2, At(s, t, Scan(n, i + 1, ClockOf(s, s.clocks[i]))))
  {
    hide Alone;
    var c := ClockOf(s, s.clocks[i]);
    assert ClockOf(At(s, t, Scan(n, i, min)), s.clocks[i]) == c;
    assert ClockOf(At(s, t, ScanAssign(n, i, min)), s.clocks[i]) == c;
    ScanStep(s, t, Scan(n, i, min), ScanAssign(n, i, min));
    ScanStep(s, t, ScanAssign(n, i, min), Scan(n, i + 1, c));
    Then(At(s, t, Scan(n, i, min)), t, 1, At(s, t, ScanAssign(n, i, min)), 1, At(s, t, Scan(n, i + 1, c)));
  }

  lemma {:induction false} ScanAlone(s: State, t: Tid, n: Addr, i: nat, min: nat) returns (k: nat)
    requires t in s.threads && n != NULL && i <= |s.clocks|
    ensures Alone(At(s, t, Scan(n, i, min)), t, k, At(s, t, Decide(n, Least(s, s.clocks[i..], min))))
    decreases |s.clocks| - i
  {
    hide Alone;
    if i == |s.clocks| {
      ScanStep(s, t, Scan(n, i, min), Decide(n, min));
      k := 1;
    } else {
      var c := ClockOf(s, s.clocks[i]);
      assert s.clocks[i..][0] == s.clocks[i] && s.clocks[i..][1..] == s.clocks[i + 1..];
      var e := At(s, t, Decide(n, Least(s, s.clocks[i..], min)));
      if c < min {
        LowerClock(s, t, n, i, min);
        k := ScanAlone(s, t, n, i + 1, c);
        Then(At(s, t, Scan(n, i, min)), t, 2, At(s, t, Scan(n, i + 1, c)), k, e);
        k := k + 2;
      } else {
        assert ClockOf(At(s, t, Scan(n, i, min)), s.clocks[i]) == c;
        ScanStep(s, t, Scan(n, i, min), Scan(n, i + 1, min));
        k := ScanAlone(s, t, n, i + 1, min);
        Then(At(s, t, Scan(n, i, min)), t, 1, At(s, t, Scan(n, i + 1, min)), k, e);
        k := k + 1;
      }
    }
  }

  /** A worker that scans alone and finds its own clock to be the least gives its node back. */
  lemma ReturnAlone(s: State, t: Tid, n: Addr) returns (k: nat)
    requires t in s.threads && s.threads[t].pc == ScanLock(n) && n != NULL && n in s.mem
    requires Least(s, s.clocks, UINT64_MAX) == s.threads[t].clock
    ensures Alone(s, t, k, Delete(At(s, t, Idle), n))
  {
    hide Alone, Least;
    assert At(s, t, ScanLock(n)).threads == s.threads;
    ScanStep(s, t, ScanLock(n), Scan(n, 0, UINT64_MAX));
    var j := ScanAlone(s, t, n, 0, UINT64_MAX);
    assert s.clocks[0..] == s.clocks;
    var d := At(s, t, Decide(n, s.threads[t].clock));
    Then(s, t, 1, At(s, t, Scan(n, 0, UINT64_MAX)), j, d);
    GiveBackStep(s, t, n);
    Then(s, t, 1 + j, d, 1, Delete(At(s, t, Idle), n));
    k := 1 + j + 1;
  }

  lemma GiveBackStep(s: State, t: Tid, n: Addr)
    requires t in s.threads && n in s.mem
    ensures Alone(At(s, t, Decide(n, s.threads[t].clock)), t, 1, Delete(At(s, t, Idle), n))
  {
    hide Alone, GoRegister, GoPush, GoPop, GoScan, GoSweep, GoDereg;
    var d := At(s, t, Decide(n, s.threads[t].clock));
    assert At(d, t, Idle).threads == At(s, t, Idle).threads;
    OneStep(d, t);
  }
}
