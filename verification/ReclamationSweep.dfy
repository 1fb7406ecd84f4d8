/** What `clean` and its sweep do step by step is what they do to the lists in one go. */
module ReclamationSweep {
  import opened Reclamation
  import opened ReclamationInvariant
  import opened ReclamationSteps
  import opened ReclamationTheorems
  import opened ReclamationAlone
  import CollectorLists
  import RingSpec

  type Lists = CollectorLists.Lists<Addr>

  function ListsOf(s: State, t: Tid): Lists
    requires t in s.threads
  {
    CollectorLists.Lists(s.threads[t].dirty, s.threads[t].clean, [])
  }

  function StampsOf(s: State, t: Tid): (r: seq<nat>)
    requires t in s.threads
    ensures |r| == |s.threads[t].dirty|
  {
    var q := s.threads[t].dirty;
    seq(|q|, i requires 0 <= i < |q| => if q[i] in s.mem then s.mem[q[i]].clock else 0)
  }

  /** Nothing has changed but that the lists of `t` are `l` and the nodes in `l.deleted` have been given back. */
  ghost predicate Became(s: State, e: State, t: Tid, l: Lists) {
    && t in s.threads
    && e == s.(mem := e.mem, deleted := s.deleted + |l.deleted|,
               threads := s.threads[t := s.threads[t].(dirty := l.dirty, clean := l.clean)])
    && (forall n :: n in e.mem <==> n in s.mem && n !in l.deleted)
    && (forall n | n in e.mem :: e.mem[n] == s.mem[n].(place := e.mem[n].place))
    && (forall n | n in e.mem && n !in s.threads[t].dirty :: e.mem[n] == s.mem[n])
  }

  lemma InvThread(s: State, t: Tid)
    requires Inv(s) && t in s.threads
    ensures ThreadOk(s, t)
  {
  }

  // ----- the sweep -----

  lemma SweepMoves(s: State, t: Tid)
    requires CanGo(s, t) && s.threads[t].pc.Sweep? && s.threads[t].dirty != []
    requires s.mem[s.threads[t].dirty[0]].clock < s.threads[t].pc.min
    ensures Became(s, GoStep(s, t), t, CollectorLists.MoveOne(ListsOf(s, t), LISTSIZE))
  {
    hide GoRegister, GoPush, GoPop, GoScan, GoClean, GoDereg;
  }

  lemma SweepStep(s: State, t: Tid)
    requires t in s.threads && DirtyOk(s, t) && s.threads[t].pc.Sweep? && s.threads[t].dirty != []
    requires StampsOf(s, t)[0] < s.threads[t].pc.min
    ensures CanGo(s, t) && Became(s, GoStep(s, t), t, CollectorLists.MoveOne(ListsOf(s, t), LISTSIZE))
    ensures StampsOf(GoStep(s, t), t) == StampsOf(s, t)[1..]
  {
    hide GoStep;
    SweepMoves(s, t);
    var q, s' := s.threads[t].dirty, GoStep(s, t);
    forall i | 0 < i < |q| ensures q[i] in s'.mem && s'.mem[q[i]].clock == s.mem[q[i]].clock {
      assert s.mem[q[0]].clock < s.mem[q[i]].clock;
    }
    assert s'.threads[t].dirty == q[1..];
  }

  lemma SweepStops(s: State, t: Tid)
    requires Inv(s) && t in s.threads && s.threads[t].pc.Sweep?
    requires s.threads[t].dirty != [] ==> StampsOf(s, t)[0] >= s.threads[t].pc.min
    ensures CanGo(s, t) && GoStep(s, t) == At(s, t, SweepFetch(s.threads[t].pc.n))
  {
    assert DirtyOk(s, t);
  }

  /** Sweeping on from where one node has been moved. */
  lemma SweptFirst(l: Lists, m: Lists, k: nat, cap: nat)
    requires 0 < k <= |l.dirty| && |l.clean| <= cap && l.deleted == []
    requires m == CollectorLists.MoveOne(l, cap).(deleted := [])
    ensures |m.clean| <= cap && k - 1 <= |m.dirty|
    ensures var r, f := CollectorLists.Swept(m, k - 1, cap), CollectorLists.Swept(l, k, cap);
            r == f.(deleted := r.deleted) && f.deleted == CollectorLists.MoveOne(l, cap).deleted + r.deleted
  {
    assert l.dirty[1..][k - 1..] == l.dirty[k..];
    if |l.clean| < cap { SweptFirstClean(l, m, k, cap); } else { SweptFirstGone(l, m, k, cap); }
  }

  lemma SweptFirstClean(l: Lists, m: Lists, k: nat, cap: nat)
    requires 0 < k <= |l.dirty| && |l.clean| < cap && l.deleted == []
    requires m == CollectorLists.Lists(l.dirty[1..], [l.dirty[0]] + l.clean, [])
    ensures CollectorLists.Swept(m, k - 1, cap) == CollectorLists.Swept(l, k, cap)
  {
    var j := if k <= cap - |l.clean| then k else cap - |l.clean|;
    assert l.dirty[1..][k - 1..] == l.dirty[k..];
    assert l.dirty[1..][j - 1..k - 1] == l.dirty[j..k];
    ReversedFirst(l.dirty, j, l.clean);
  }

  lemma ReversedFirst(q: seq<Addr>, j: nat, c: seq<Addr>)
    requires 0 < j <= |q|
    ensures RingSpec.Reversed(q[1..][..j - 1]) + ([q[0]] + c) == RingSpec.Reversed(q[..j]) + c
  {
    var r, r' := RingSpec.Reversed(q[..j]), RingSpec.Reversed(q[1..][..j - 1]);
    forall i | 0 <= i < j - 1 ensures r[i] == r'[i] { assert q[..j][j - 1 - i] == q[1..][..j - 1][j - 2 - i]; }
    assert r[j - 1] == q[0];
    assert r == r' + [q[0]];
  }

  lemma SweptFirstGone(l: Lists, m: Lists, k: nat, cap: nat)
    requires 0 < k <= |l.dirty| && |l.clean| == cap && l.deleted == []
    requires m == CollectorLists.Lists(l.dirty[1..], l.clean, [])
    ensures var r, f := CollectorLists.Swept(m, k - 1, cap), CollectorLists.Swept(l, k, cap);
            r == f.(deleted := r.deleted) && f.deleted == [l.dirty[0]] + r.deleted
  {
    assert l.dirty[1..][k - 1..] == l.dirty[k..];
    assert l.dirty[0..k] == [l.dirty[0]] + l.dirty[1..][0..k - 1];
  }

  lemma BecameThen(s: State, m: State, e: State, t: Tid, l1: Lists, l2: Lists, l: Lists)
    requires Became(s, m, t, l1) && Became(m, e, t, l2)
    requires forall n | n in l1.dirty :: n in s.threads[t].dirty
    requires l == l2.(deleted := l1.deleted + l2.deleted)
    ensures Became(s, e, t, l)
  {
    assert e.threads == s.threads[t := s.threads[t].(dirty := l.dirty, clean := l.clean)];
  }

  lemma BecameSame(s: State, t: Tid)
    requires t in s.threads
    ensures Became(s, s, t, ListsOf(s, t))
  {
  }

  /**
    Left alone, a thread that enters the loop of `cleanup` goes round as often
    as its dirty list starts with stamps below the minimum, ends with the lists
    that `CollectorLists.GCNode.Cleanup` leaves, and goes on to fetch its clock.
   */
  lemma {:induction false} SweepRun(s: State, t: Tid) returns (e: State)
    requires Inv(s) && t in s.threads && s.threads[t].pc.Sweep? && |s.threads[t].clean| <= LISTSIZE
    ensures var k := CollectorLists.Below(StampsOf(s, t), s.threads[t].pc.min);
            && Alone(s, t, k, e)
            && Became(s, e, t, CollectorLists.Swept(ListsOf(s, t), k, LISTSIZE))
            && CanGo(e, t) && GoStep(e, t) == At(e, t, SweepFetch(s.threads[t].pc.n))
    decreases |s.threads[t].dirty|
  {
    hide Inv, ThreadOk, CollectorLists.MoveOne, CollectorLists.Swept, GoStep, CanGo, Alone, Became;
    var l, stamps, min := ListsOf(s, t), StampsOf(s, t), s.threads[t].pc.min;
    var k := CollectorLists.Below(stamps, min);
    if k == 0 {
      CollectorLists.SweptNone(l, LISTSIZE);
      SweepStops(s, t);
      NoStep(s, t);
      BecameSame(s, t);
      e := s;
    } else {
      assert DirtyOk(s, t) by { InvThread(s, t); }
      SweepStep(s, t);
      StepKeeps(s, Go(t));
      var s' := GoStep(s, t);
      MovedLists(s, s', t);
      CollectorLists.BelowIs(stamps[1..], min, k - 1);
      SweptFirst(l, ListsOf(s', t), k, LISTSIZE);
      e := SweepRun(s', t);
      FirstStep(s, t, k - 1, e);
      BecameThen(s, s', e, t, CollectorLists.MoveOne(l, LISTSIZE),
                 CollectorLists.Swept(ListsOf(s', t), k - 1, LISTSIZE), CollectorLists.Swept(l, k, LISTSIZE));
    }
  }

  lemma MovedLists(s: State, s': State, t: Tid)
    requires t in s.threads && s.threads[t].dirty != []
    requires Became(s, s', t, CollectorLists.MoveOne(ListsOf(s, t), LISTSIZE))
    ensures t in s'.threads && s'.threads[t].pc == s.threads[t].pc
    ensures ListsOf(s', t) == CollectorLists.MoveOne(ListsOf(s, t), LISTSIZE).(deleted := [])
    ensures |s'.threads[t].dirty| == |s.threads[t].dirty| - 1
    ensures |s.threads[t].clean| <= LISTSIZE ==> |s'.threads[t].clean| <= LISTSIZE
    ensures forall n | n in CollectorLists.MoveOne(ListsOf(s, t), LISTSIZE).dirty :: n in s.threads[t].dirty
  {
  }

  // ----- clean -----

  /** `t` has fetched and stored the clock for the popped node `n`, and scans from the first clock on. */
  function ScanStarted(s: State, t: Tid, n: Addr): (r: State)
    requires t in s.threads && n in s.mem
    ensures t in r.threads
  {
    s.(clock := s.clock + 1, mem := s.mem[n := s.mem[n].(place := Sealed(t, s.clock))],
       threads := s.threads[t := s.threads[t].(pc := Scan(n, 0, UINT64_MAX), clock := s.clock)])
  }

  lemma FetchAndStore(s: State, t: Tid, n: Addr)
    requires t in s.threads && s.threads[t].pc == CleanFetch(n) && n in s.mem && s.clock < UINT64_MAX
    ensures Alone(s, t, 3, ScanStarted(s, t, n))
  {
    hide Alone, GoRegister, GoPush, GoPop, GoSweep, GoDereg;
    var s1 := GoStep(s, t);
    var s2 := GoStep(s1, t);
    var s3 := GoStep(s2, t);
    OneStep(s, t);
    OneStep(s1, t);
    OneStep(s2, t);
    assert s3.threads == ScanStarted(s, t, n).threads;
    Then(s, t, 1, s1, 1, s2);
    Then(s, t, 2, s2, 1, s3);
  }

  /** The clock of `u` as the scan of `t` reads it. */
  function ClockSeen(s: State, t: Tid, u: Tid): nat {
    if u == t then s.clock else ClockOf(s, u)
  }

  /** `min` is the least registered clock. */
  ghost predicate IsMinimum(s: State, t: Tid, min: nat) {
    && (forall u | u in s.clocks :: min <= ClockSeen(s, t, u))
    && exists u :: u in s.clocks && ClockSeen(s, t, u) == min
  }

  lemma LeastIsMinimum(s: State, t: Tid, n: Addr)
    requires t in s.threads && n in s.mem && t in s.clocks && s.clock < UINT64_MAX
    ensures IsMinimum(s, t, Least(ScanStarted(s, t, n), s.clocks, UINT64_MAX))
  {
    hide Least;
    var b := ScanStarted(s, t, n);
    LeastIs(b, s.clocks, UINT64_MAX);
    assert forall u | u in s.clocks :: ClockOf(b, u) == ClockSeen(s, t, u);
  }

  lemma ScanFromStart(b: State, t: Tid, n: Addr) returns (k: nat)
    requires t in b.threads && n != NULL && b.threads[t].pc == Scan(n, 0, UINT64_MAX)
    ensures Alone(b, t, k, At(b, t, Decide(n, Least(b, b.clocks, UINT64_MAX))))
  {
    hide Alone, Least;
    assert At(b, t, Scan(n, 0, UINT64_MAX)).threads == b.threads;
    k := ScanAlone(b, t, n, 0, UINT64_MAX);
    assert b.clocks[0..] == b.clocks;
  }

  lemma ScanFindsMinimum(s: State, t: Tid, n: Addr) returns (k: nat, min: nat)
    requires Inv(s) && t in s.threads && s.threads[t].pc == CleanFetch(n) && s.clock < UINT64_MAX
    ensures n in s.mem && n != NULL && IsMinimum(s, t, min)
    ensures Alone(s, t, k, At(ScanStarted(s, t, n), t, Decide(n, min)))
  {
    hide Alone, Inv, Least, IsMinimum;
    PoppedNode(s, t);
    FetchAndStore(s, t, n);
    var b := ScanStarted(s, t, n);
    min := Least(b, b.clocks, UINT64_MAX);
    LeastIsMinimum(s, t, n);
    k := ScanFromStart(b, t, n);
    Then(s, t, 3, b, k, At(b, t, Decide(n, min)));
    k := k + 3;
  }

  lemma PoppedNode(s: State, t: Tid)
    requires Inv(s) && t in s.threads && s.threads[t].pc.CleanFetch?
    ensures s.threads[t].pc.n in s.mem && s.threads[t].pc.n != NULL && t in s.clocks
    ensures s.threads[t].pc.n !in s.threads[t].dirty
    ensures forall i | 0 <= i < |s.threads[t].dirty| :: s.threads[t].dirty[i] in s.mem
  {
    assert ThreadOk(s, t);
  }

  /** The node is stamped and is to be listed next. */
  function Stamped(s: State, t: Tid, n: Addr, pc: PC): State
    requires t in s.threads && n in s.mem
  {
    At(ScanStarted(s, t, n), t, pc).(mem := s.mem[n := s.mem[n].(clock := s.clock, place := Sealed(t, s.clock))])
  }

  lemma Decides(s: State, t: Tid, n: Addr, min: nat)
    requires t in s.threads && n in s.mem && n != NULL
    ensures var d := At(ScanStarted(s, t, n), t, Decide(n, min));
            && CanGo(d, t) && Harmless(d, Go(t))
            && (min == s.clock ==> GoStep(d, t) == Delete(At(d, t, Idle), n))
            && (min != s.clock ==>
                  GoStep(d, t) == Stamped(s, t, n,
                    if |s.threads[t].dirty| > DIRTY_THRESHOLD then Sweep(n, min) else Enlist(n)))
  {
    hide GoRegister, GoPush, GoPop, GoScan, GoSweep, GoDereg;
    var d := At(ScanStarted(s, t, n), t, Decide(n, min));
    var pc := if |s.threads[t].dirty| > DIRTY_THRESHOLD then Sweep(n, min) else Enlist(n);
    assert At(d, t, pc).threads == Stamped(s, t, n, pc).threads;
    assert d.mem[n := d.mem[n].(clock := s.clock)] == Stamped(s, t, n, pc).mem;
  }

  /** From the end of the sweep, or at once if there is none, to the listed node. */
  function Listed(s: State, t: Tid, n: Addr): State
    requires t in s.threads
  {
    s.(threads := s.threads[t := s.threads[t].(pc := Idle, dirty := s.threads[t].dirty + [n])])
  }

  lemma Enlists(s: State, t: Tid, n: Addr)
    requires t in s.threads && s.threads[t].pc == Enlist(n) && |s.threads[t].dirty| < LISTSIZE
    ensures Alone(s, t, 1, Listed(s, t, n))
  {
    hide Alone, GoRegister, GoPush, GoPop, GoScan, GoSweep, GoDereg;
    OneStep(s, t);
  }

  /** `cleanup` has ended with a new clock, and the node is to be listed. */
  function Refetched(s: State, t: Tid, n: Addr): State
    requires t in s.threads
  {
    s.(clock := s.clock + 1, threads := s.threads[t := s.threads[t].(pc := Enlist(n), clock := s.clock)])
  }

  lemma FetchAgain(s: State, t: Tid, n: Addr)
    requires t in s.threads && s.threads[t].pc == SweepFetch(n) && n != NULL && s.clock < UINT64_MAX
    ensures Alone(s, t, 2, Refetched(s, t, n))
  {
    hide Alone, GoRegister, GoPush, GoPop, GoScan, GoClean, GoDereg;
    var s1 := GoStep(s, t);
    OneStep(s, t);
    OneStep(s1, t);
    assert GoStep(s1, t).threads == Refetched(s, t, n).threads;
    Then(s, t, 1, s1, 1, Refetched(s, t, n));
  }

  /** What `clean` leaves of the lists when the node is not given back at once. */
  function TidyLists(s: State, t: Tid, min: nat): Lists
    requires t in s.threads && |s.threads[t].clean| <= LISTSIZE
  {
    CollectorLists.Tidied(ListsOf(s, t), StampsOf(s, t), min, LISTSIZE)
  }

  /**
    `e` is what `CollectorLists.GCNode.Discard` makes of `s` if it finds the
    minimum `min`: the node is given back if the clock just fetched is the
    minimum, else it is stamped with that clock and listed last, after a sweep
    and with a still newer clock if there were more than ten nodes in the list.
   */
  ghost predicate Discarded(s: State, e: State, t: Tid, n: Addr, min: nat)
    requires t in s.threads && |s.threads[t].clean| <= LISTSIZE
  {
    var th := s.threads[t];
    if s.clock == min then
      e == s.(clock := s.clock + 1, mem := s.mem - {n}, deleted := s.deleted + 1,
              threads := s.threads[t := th.(pc := Idle, clock := s.clock)])
    else
      var l := TidyLists(s, t, min);
      var more := if |th.dirty| > DIRTY_THRESHOLD then 1 else 0;
      && e == s.(clock := s.clock + 1 + more, mem := e.mem, deleted := s.deleted + |l.deleted|,
                 threads := s.threads[t := th.(pc := Idle, clock := s.clock + more,
                                               dirty := l.dirty + [n], clean := l.clean)])
      && (forall m :: m in e.mem <==> m in s.mem && m !in l.deleted)
      && (forall m | m in e.mem && m != n :: e.mem[m] == s.mem[m].(place := e.mem[m].place))
      && n in e.mem && e.mem[n] == s.mem[n].(clock := s.clock, place := Sealed(t, s.clock))
  }

  /** Everything is done but the listing, for which there may be no room. */
  ghost predicate Ready(s: State, f: State, t: Tid, n: Addr, min: nat)
    requires t in s.threads && |s.threads[t].clean| <= LISTSIZE
  {
    && t in f.threads && f.threads[t].pc == Enlist(n) && f.threads[t].dirty == TidyLists(s, t, min).dirty
    && Discarded(s, Listed(f, t, n), t, n, min)
  }

  lemma NotSwept(s: State, t: Tid, n: Addr, min: nat)
    requires t in s.threads && n in s.mem && n !in s.threads[t].dirty
    requires s.clock != min && |s.threads[t].dirty| <= DIRTY_THRESHOLD && |s.threads[t].clean| <= LISTSIZE
    ensures Ready(s, Stamped(s, t, n, Enlist(n)), t, n, min)
  {
    var e := Listed(Stamped(s, t, n, Enlist(n)), t, n);
    assert e.threads == s.threads[t := s.threads[t].(pc := Idle, clock := s.clock, dirty := s.threads[t].dirty + [n])];
  }

  lemma GivenBack(s: State, t: Tid, n: Addr)
    requires t in s.threads && n in s.mem && |s.threads[t].clean| <= LISTSIZE
    ensures Discarded(s, Delete(At(At(ScanStarted(s, t, n), t, Decide(n, s.clock)), t, Idle), n), t, n, s.clock)
  {
    var e := Delete(At(At(ScanStarted(s, t, n), t, Decide(n, s.clock)), t, Idle), n);
    assert e.threads == s.threads[t := s.threads[t].(pc := Idle, clock := s.clock)];
    assert e.mem == s.mem - {n};
  }

  /** Stamping the popped node changes nothing for the nodes in the list. */
  lemma SameStamps(s: State, t: Tid, n: Addr, min: nat)
    requires t in s.threads && n in s.mem && n !in s.threads[t].dirty
    ensures var d := Stamped(s, t, n, Sweep(n, min));
            && t in d.threads && ListsOf(d, t) == ListsOf(s, t) && StampsOf(d, t) == StampsOf(s, t)
  {
  }

  lemma SweptIsDiscarded(s: State, e: State, t: Tid, n: Addr, min: nat, l: Lists)
    requires t in s.threads && n in s.mem && n !in s.threads[t].dirty
    requires s.clock != min && |s.threads[t].dirty| > DIRTY_THRESHOLD && |s.threads[t].clean| <= LISTSIZE
    requires l == TidyLists(s, t, min) && Became(Stamped(s, t, n, Sweep(n, min)), e, t, l)
    requires forall m | m in l.deleted :: m in s.threads[t].dirty
    ensures t in e.threads
    ensures var f := Refetched(At(e, t, SweepFetch(n)), t, n);
            f.threads[t].dirty == l.dirty && Discarded(s, Listed(f, t, n), t, n, min)
  {
    hide CollectorLists.Swept, CollectorLists.Below;
    var f := Listed(Refetched(At(e, t, SweepFetch(n)), t, n), t, n);
    assert f.threads == s.threads[t := s.threads[t].(pc := Idle, clock := s.clock + 1, dirty := l.dirty + [n], clean := l.clean)];
  }

  lemma SweptWereListed(s: State, t: Tid, min: nat, m: Addr)
    requires t in s.threads && |s.threads[t].clean| <= LISTSIZE && m in TidyLists(s, t, min).deleted
    ensures m in s.threads[t].dirty
  {
  }

  /** From the decision to the listing, with a sweep. */
  lemma SweepPrepares(s: State, t: Tid, n: Addr, min: nat) returns (k: nat, f: State)
    requires t in s.threads && n in s.mem && n != NULL && n !in s.threads[t].dirty && s.clock != min
    requires |s.threads[t].dirty| > DIRTY_THRESHOLD && |s.threads[t].clean| <= LISTSIZE && s.clock + 1 < UINT64_MAX
    requires Inv(Stamped(s, t, n, Sweep(n, min)))
    ensures Alone(Stamped(s, t, n, Sweep(n, min)), t, k, f) && Ready(s, f, t, n, min)
  {
    hide Inv, Alone, Became, Discarded, CollectorLists.Swept, CollectorLists.Below, GoStep, CanGo;
    var d := Stamped(s, t, n, Sweep(n, min));
    SameStamps(s, t, n, min);
    var m := SweepRun(d, t);
    var j := CollectorLists.Below(StampsOf(d, t), min);
    var l := TidyLists(s, t, min);
    SweptThreads(d, m, t, l);
    StopIsHarmless(m, t);
    OneStep(m, t);
    var m' := At(m, t, SweepFetch(n));
    FetchAgain(m', t, n);
    f := Refetched(m', t, n);
    forall x | x in l.deleted ensures x in s.threads[t].dirty { SweptWereListed(s, t, min, x); }
    SweptIsDiscarded(s, m, t, n, min, l);
    Then(d, t, j, m, 1, m');
    Then(d, t, j + 1, m', 2, f);
    k := j + 1 + 2;
  }

  lemma SweptThreads(d: State, m: State, t: Tid, l: Lists)
    requires Became(d, m, t, l)
    ensures t in m.threads && m.threads[t] == d.threads[t].(dirty := l.dirty, clean := l.clean) && m.clock == d.clock
  {
  }

  lemma StopIsHarmless(m: State, t: Tid)
    requires t in m.threads && m.threads[t].pc.Sweep?
    ensures Harmless(m, Go(t))
  {
  }

  /** From the decision to the listing. */
  lemma Prepares(s: State, t: Tid, n: Addr, min: nat, pc: PC) returns (k: nat, f: State)
    requires t in s.threads && n in s.mem && n != NULL && n !in s.threads[t].dirty && s.clock != min
    requires |s.threads[t].clean| <= LISTSIZE && s.clock + 1 < UINT64_MAX
    requires pc == if |s.threads[t].dirty| > DIRTY_THRESHOLD then Sweep(n, min) else Enlist(n)
    requires Inv(Stamped(s, t, n, pc))
    ensures Alone(Stamped(s, t, n, pc), t, k, f) && Ready(s, f, t, n, min)
  {
    hide Inv, Alone, Ready, Stamped;
    if |s.threads[t].dirty| > DIRTY_THRESHOLD {
      k, f := SweepPrepares(s, t, n, min);
    } else {
      NotSwept(s, t, n, min);
      NoStep(Stamped(s, t, n, pc), t);
      k, f := 0, Stamped(s, t, n, pc);
    }
  }

  /** Up to the decision and through it. */
  lemma DecisionRun(s: State, t: Tid, n: Addr) returns (k: nat, min: nat, d: State)
    requires Inv(s) && t in s.threads && s.threads[t].pc == CleanFetch(n) && s.clock < UINT64_MAX
    ensures n in s.mem && IsMinimum(s, t, min) && Alone(s, t, k, d) && Inv(d)
    ensures min == s.clock ==> d == Delete(At(At(ScanStarted(s, t, n), t, Decide(n, min)), t, Idle), n)
    ensures min != s.clock ==>
              d == Stamped(s, t, n, if |s.threads[t].dirty| > DIRTY_THRESHOLD then Sweep(n, min) else Enlist(n))
  {
    hide Alone, GoStep, CanGo, Inv, ScanStarted, Stamped, IsMinimum, Harmless, Delete;
    k, min := ScanFindsMinimum(s, t, n);
    var m := At(ScanStarted(s, t, n), t, Decide(n, min));
    Decides(s, t, n, min);
    AloneKeeps(s, t, k, m);
    StepKeeps(m, Go(t));
    OneStep(m, t);
    d := GoStep(m, t);
    Then(s, t, k, m, 1, d);
    k := k + 1;
  }

  /** How `clean` ends: with everything done, or before the listing because there is no room. */
  ghost predicate CleanEnds(s: State, e: State, t: Tid, n: Addr, min: nat)
    requires t in s.threads && |s.threads[t].clean| <= LISTSIZE
  {
    if s.clock == min || |TidyLists(s, t, min).dirty| < LISTSIZE then Discarded(s, e, t, n, min)
    else t in e.threads && e.threads[t].pc == Enlist(n) && !CanGo(e, t) && Discarded(s, Listed(e, t, n), t, n, min)
  }

  lemma ReadyEnds(s: State, f: State, t: Tid, n: Addr, min: nat) returns (k: nat, e: State)
    requires t in s.threads && |s.threads[t].clean| <= LISTSIZE && s.clock != min && Ready(s, f, t, n, min)
    ensures Alone(f, t, k, e) && CleanEnds(s, e, t, n, min)
  {
    hide Alone, Discarded, TidyLists;
    if |TidyLists(s, t, min).dirty| < LISTSIZE {
      Enlists(f, t, n);
      k, e := 1, Listed(f, t, n);
    } else {
      NoStep(f, t);
      k, e := 0, f;
    }
  }

  /**
    Left alone, a worker that has popped `n` comes back from `clean` with the
    lists, the stamp and the clocks that `CollectorLists.GCNode.Discard` leaves
    for the least registered clock, unless the collector's clock runs out; with
    no room in its list it stops before the listing.
   */
  lemma CleanRun(s: State, t: Tid, n: Addr) returns (k: nat, min: nat, e: State)
    requires Inv(s) && t in s.threads && s.threads[t].pc == CleanFetch(n) && |s.threads[t].clean| <= LISTSIZE
    requires s.clock + 1 < UINT64_MAX
    ensures IsMinimum(s, t, min) && Alone(s, t, k, e) && CleanEnds(s, e, t, n, min)
  {
    hide Alone, GoStep, Inv, ScanStarted, Stamped, IsMinimum, CleanEnds, Delete, At;
    PoppedNode(s, t);
    var d;
    k, min, d := DecisionRun(s, t, n);
    if min == s.clock {
      GivenBackEnds(s, t, n);
      e := d;
    } else {
      var j;
      j, e := KeptEnds(s, t, n, min, d);
      Then(s, t, k, d, j, e);
      k := k + j;
    }
  }

  lemma GivenBackEnds(s: State, t: Tid, n: Addr)
    requires t in s.threads && n in s.mem && |s.threads[t].clean| <= LISTSIZE
    ensures CleanEnds(s, Delete(At(At(ScanStarted(s, t, n), t, Decide(n, s.clock)), t, Idle), n), t, n, s.clock)
  {
    hide Discarded;
    GivenBack(s, t, n);
  }

  /** The decision was to keep the node. */
  lemma KeptEnds(s: State, t: Tid, n: Addr, min: nat, d: State) returns (k: nat, e: State)
    requires t in s.threads && n in s.mem && n != NULL && n !in s.threads[t].dirty && s.clock != min
    requires |s.threads[t].clean| <= LISTSIZE && s.clock + 1 < UINT64_MAX && Inv(d)
    requires d == Stamped(s, t, n, if |s.threads[t].dirty| > DIRTY_THRESHOLD then Sweep(n, min) else Enlist(n))
    ensures Alone(d, t, k, e) && CleanEnds(s, e, t, n, min)
  {
    hide Alone, Inv, Stamped, Ready, CleanEnds;
    var j, f := Prepares(s, t, n, min, if |s.threads[t].dirty| > DIRTY_THRESHOLD then Sweep(n, min) else Enlist(n));
    var i;
    i, e := ReadyEnds(s, f, t, n, min);
    Then(d, t, j, f, i, e);
    k := j + i;
  }
}
