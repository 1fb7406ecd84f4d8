/** The loop of `dereg` ends. */
module ReclamationLeaving {
  import opened Chains
  import opened Reclamation
  import opened ReclamationInvariant
  import opened ReclamationSteps
  import opened ReclamationTheorems
  import opened ReclamationDrain

  // ----- one whole cleanup -----

  /** Some step of the run is the store at the end of a `cleanup` by `t`. */
  predicate Stores(s: State, run: seq<Action>, t: Tid)
    requires Legal(s, run)
    decreases |run|
  {
    run != [] && ((run[0] == Go(t) && s.threads[t].pc.SweepStore?) || Stores(Apply(s, run[0]), run[1..], t))
  }

  /** In the run `t` ends the sweep of a `cleanup`, fetches its new clock and, later on, stores it. */
  predicate CleansUp(s: State, run: seq<Action>, t: Tid)
    requires Legal(s, run)
    decreases |run|
  {
    run != [] &&
    ((run[0] == Go(t) && s.threads[t].pc.SweepFetch? && Stores(Apply(s, run[0]), run[1..], t))
     || CleansUp(Apply(s, run[0]), run[1..], t))
  }

  /** `t` has stored, or is about to store, a clock above `limit`. */
  predicate Refreshed(s: State, t: Tid, limit: nat) {
    && t in s.threads
    && (limit < s.threads[t].clock || (s.threads[t].pc.SweepStore? && limit < s.threads[t].pc.c))
  }

  lemma StepKeepsClock(s: State, a: Action)
    requires Inv(s) && Enabled(s, a)
    ensures s.clock <= Apply(s, a).clock
    ensures forall t | t in s.threads :: t in Apply(s, a).threads && s.threads[t].clock <= Apply(s, a).threads[t].clock
  {
    if a.Go? {
      assert ThreadOk(s, a.t);
      GoKeepsClocks(s, a.t);
    }
  }

  lemma StepKeepsRefreshed(s: State, a: Action, t: Tid, limit: nat)
    requires Inv(s) && Enabled(s, a) && Refreshed(s, t, limit)
    ensures Refreshed(Apply(s, a), t, limit)
    ensures a == Go(t) && s.threads[t].pc.SweepStore? ==> limit < Apply(s, a).threads[t].clock
  {
    StepKeepsClock(s, a);
    assert ThreadOk(s, t);
    if a.Drain? || a.t != t {
      assert forall u | u in s.threads :: ThreadOk(s, u);
      StepKeepsOthers(s, a, t);
    }
  }

  lemma {:induction false} RunKeepsClock(s: State, run: seq<Action>, t: Tid)
    requires Inv(s) && Legal(s, run) && Calm(s, run) && t in s.threads
    ensures s.clock <= Exec(s, run).clock
    ensures t in Exec(s, run).threads && s.threads[t].clock <= Exec(s, run).threads[t].clock
    decreases |run|
  {
    if run != [] {
      StepKeepsClock(s, run[0]);
      StepKeeps(s, run[0]);
      RunKeepsClock(Apply(s, run[0]), run[1..], t);
    }
  }

  lemma {:induction false} StoreRefreshes(s: State, run: seq<Action>, t: Tid, limit: nat)
    requires Inv(s) && Legal(s, run) && Calm(s, run) && Refreshed(s, t, limit) && Stores(s, run, t)
    ensures t in Exec(s, run).threads && limit < Exec(s, run).threads[t].clock
    decreases |run|
  {
    var s' := Apply(s, run[0]);
    StepKeepsRefreshed(s, run[0], t, limit);
    StepKeeps(s, run[0]);
    if run[0] == Go(t) && s.threads[t].pc.SweepStore? {
      RunKeepsClock(s', run[1..], t);
    } else {
      StoreRefreshes(s', run[1..], t, limit);
    }
  }

  /** A thread that goes through the end of a `cleanup` has a clock at least as new as the start of the run. */
  lemma {:induction false} CleanupRefreshes(s: State, run: seq<Action>, t: Tid)
    requires Inv(s) && Legal(s, run) && Calm(s, run) && t in s.threads && CleansUp(s, run, t)
    ensures t in Exec(s, run).threads && s.clock <= Exec(s, run).threads[t].clock
    decreases |run|
  {
    var s' := Apply(s, run[0]);
    StepKeepsClock(s, run[0]);
    StepKeeps(s, run[0]);
    if run[0] == Go(t) && s.threads[t].pc.SweepFetch? && Stores(s', run[1..], t) {
      assert ThreadOk(s, t);
      StoreRefreshes(s', run[1..], t, s.clock - 1);
    } else {
      CleanupRefreshes(s', run[1..], t);
    }
  }

  // ----- threads that register later -----

  /** A thread that has not started at `s` has, once it is registered, a clock fetched after `s`. */
  predicate LateComer(s: State, t: Tid, limit: nat) {
    t in s.threads && (s.threads[t].pc.Outside? || limit <= s.threads[t].clock)
  }

  lemma {:induction false} LateComersAreNew(s: State, run: seq<Action>, t: Tid, limit: nat)
    requires Inv(s) && Legal(s, run) && Calm(s, run) && limit <= s.clock && LateComer(s, t, limit)
    ensures LateComer(Exec(s, run), t, limit)
    decreases |run|
  {
    if run != [] {
      StepKeepsClock(s, run[0]);
      StepKeeps(s, run[0]);
      StepKeepsLate(s, run[0], t, limit);
      LateComersAreNew(Apply(s, run[0]), run[1..], t, limit);
    }
  }

  lemma StepKeepsLate(s: State, a: Action, t: Tid, limit: nat)
    requires Inv(s) && Enabled(s, a) && limit <= s.clock && LateComer(s, t, limit)
    ensures LateComer(Apply(s, a), t, limit)
  {
    StepKeepsClock(s, a);
    if a.Drain? || a.t != t {
      assert forall u | u in s.threads :: ThreadOk(s, u);
      StepKeepsOthers(s, a, t);
    }
  }

  // ----- the last round -----

  /** The steps that `u` still has to take, from its last scan in `dereg` until it is gone. */
  function StepsLeft(s: State, u: Tid): int
    requires u in s.threads
  {
    var th, workers := s.threads[u], |s.threads|;
    var d, c := |th.dirty|, |th.clean|;
    match th.pc
    case ScanLock(_) => 2 * d + c + 8 + 2 * workers
    case Scan(_, i, _) => 2 * d + c + 7 + 2 * (workers - i)
    case ScanAssign(_, i, _) => 2 * d + c + 6 + 2 * (workers - i)
    case Sweep(_, _) => 2 * d + c + 6
    case SweepFetch(_) => c + 5
    case SweepStore(_, _) => c + 4
    case DeregTest => c + 3
    case DeregLeave => c + 2
    case Destroy => c + 1
    case _ => 0
  }

  lemma {:induction false} DistinctFits(q: seq<Tid>, ids: set<Tid>)
    requires Distinct(q) && forall t | t in q :: t in ids
    ensures |q| <= |ids|
  {
    if q != [] {
      DistinctTail(q);
      DistinctFits(q[1..], ids - {q[0]});
    }
  }

  lemma ClocksFit(s: State)
    requires ClocksOk(s)
    ensures |s.clocks| <= |s.threads|
  {
    DistinctFits(s.clocks, s.threads.Keys);
    assert |s.threads.Keys| == |s.threads|;
  }

  lemma SameWorkers(s: State, a: Action)
    requires Enabled(s, a)
    ensures |Apply(s, a).threads| == |s.threads|
  {
    StepKeepsIds(s, a);
    assert |Apply(s, a).threads.Keys| == |Apply(s, a).threads| && |s.threads.Keys| == |s.threads|;
  }

  /** The sweep of the last round stops only at an empty list. */
  lemma OwnStepCounts(s: State, u: Tid, limit: nat)
    requires CanGo(s, u) && LastRound(s, u, limit) && PcOk(s, u)
    requires |s.clocks| <= |s.threads| == |GoStep(s, u).threads|
    ensures u in GoStep(s, u).threads && 0 <= StepsLeft(GoStep(s, u), u) < StepsLeft(s, u)
    ensures !GoStep(s, u).threads[u].pc.ScanLock?
  {
  }

  lemma StepCounts(s: State, a: Action, u: Tid, limit: nat)
    requires Inv(s) && Enabled(s, a) && LastRound(s, u, limit)
    ensures u in Apply(s, a).threads
    ensures StepsLeft(Apply(s, a), u) + (if a == Go(u) then 1 else 0) <= StepsLeft(s, u)
    ensures a == Go(u) ==> !Apply(s, a).threads[u].pc.ScanLock?
  {
    assert ThreadOk(s, u);
    SameWorkers(s, a);
    if a == Go(u) {
      ClocksFit(s);
      OwnStepCounts(s, u, limit);
    } else {
      assert a.Drain? || a.t != u;
      assert forall t | t in s.threads :: ThreadOk(s, t);
      StepKeepsOthers(s, a, u);
    }
  }

  function StepsOf(run: seq<Action>, u: Tid): nat {
    if run == [] then 0 else (if run[0] == Go(u) then 1 else 0) + StepsOf(run[1..], u)
  }

  /** `u` does not come back to the start of a scan. */
  predicate ScansNoMore(s: State, run: seq<Action>, u: Tid)
    requires Legal(s, run)
    decreases |run|
  {
    run == [] ||
    (var s' := Apply(s, run[0]);
     && (run[0] == Go(u) ==> u in s'.threads && !s'.threads[u].pc.ScanLock?)
     && ScansNoMore(s', run[1..], u))
  }

  /** From the last round on `u` takes a bounded number of steps, none of which starts another scan. */
  lemma {:induction false} LastRoundEnds(s: State, run: seq<Action>, u: Tid, limit: nat)
    requires Inv(s) && Legal(s, run) && Calm(s, run) && LastRound(s, u, limit) && limit < UINT64_MAX
    ensures var e := Exec(s, run);
            && LastRound(e, u, limit) && 0 <= StepsLeft(e, u)
            && StepsOf(run, u) + StepsLeft(e, u) <= StepsLeft(s, u)
    ensures ScansNoMore(s, run, u)
    decreases |run|
  {
    if run == [] {
      assert ThreadOk(s, u);
      ClocksFit(s);
    } else {
      StepCounts(s, run[0], u, limit);
      StepKeeps(s, run[0]);
      StepKeepsLastRound(s, run[0], u, limit);
      LastRoundEnds(Apply(s, run[0]), run[1..], u, limit);
    }
  }

  /** No steps are left exactly when the worker is gone; till then only a scan or the end of the clock can hold it up. */
  lemma LeaverGoesOn(s: State, u: Tid, limit: nat)
    requires Inv(s) && LastRound(s, u, limit)
    ensures StepsLeft(s, u) == 0 <==> s.threads[u].pc.Done?
    ensures !s.threads[u].pc.Done? ==>
              || CanGo(s, u)
              || (s.threads[u].pc.DeregLeave? && !Unlocked(s))
              || (s.threads[u].pc.SweepFetch? && s.clock >= UINT64_MAX)
  {
    assert ThreadOk(s, u);
    ClocksFit(s);
  }

  /** Every worker that is registered, or about to be, at the end of the run has gone through a `cleanup` or came later. */
  predicate AllCleanedUp(s: State, run: seq<Action>)
    requires Legal(s, run)
  {
    forall t | t in Exec(s, run).threads && Active(Exec(s, run).threads[t].pc) ::
      t in s.threads && (s.threads[t].pc.Outside? || CleansUp(s, run, t))
  }

  /**
    `u` is inside `dereg` at `s`.  Once all registered workers have gone through
    a `cleanup` and `u` starts another scan, that is its last: it takes no more
    than the given number of steps after it, however the others are scheduled,
    and with the last of them it is gone.
   */
  lemma DeregLoopEnds(s: State, run1: seq<Action>, run2: seq<Action>, u: Tid)
    requires Inv(s) && s.clock <= UINT64_MAX && Leaving(s, u)
    requires Legal(s, run1) && Calm(s, run1) && AllCleanedUp(s, run1)
    requires u in Exec(s, run1).threads && Exec(s, run1).threads[u].pc == ScanLock(NULL)
    requires Legal(Exec(s, run1), run2) && Calm(Exec(s, run1), run2)
    ensures ScansNoMore(Exec(s, run1), run2, u)
    ensures var m, e := Exec(s, run1), Exec(Exec(s, run1), run2);
            var bound := 2 * |m.threads| + 2 * |m.threads[u].dirty| + |m.threads[u].clean| + 8;
            && u in e.threads && StepsOf(run2, u) <= bound
            && (StepsOf(run2, u) == bound ==> e.threads[u].pc.Done?)
            && (e.threads[u].pc.Done? || CanGo(e, u)
                || (e.threads[u].pc.DeregLeave? && !Unlocked(e))
                || (e.threads[u].pc.SweepFetch? && e.clock >= UINT64_MAX))
  {
    var m := Exec(s, run1);
    LastScanStarts(s, run1, u);
    LastRoundEnds(m, run2, u, s.clock - 1);
    CalmRunKeeps(m, run2);
    LeaverGoesOn(Exec(m, run2), u, s.clock - 1);
  }

  lemma LastScanStarts(s: State, run: seq<Action>, u: Tid)
    requires Inv(s) && s.clock <= UINT64_MAX && Leaving(s, u)
    requires Legal(s, run) && Calm(s, run) && AllCleanedUp(s, run)
    requires u in Exec(s, run).threads && Exec(s, run).threads[u].pc == ScanLock(NULL)
    ensures 0 < s.clock && Inv(Exec(s, run)) && LastRound(Exec(s, run), u, s.clock - 1)
  {
    var m := Exec(s, run);
    assert ThreadOk(s, u);
    RunKeepsLeaving(s, run, u, s.clock - 1);
    CalmRunKeeps(s, run);
    forall t | t in m.threads && Active(m.threads[t].pc) ensures s.clock <= m.threads[t].clock {
      if s.threads[t].pc.Outside? {
        LateComersAreNew(s, run, t, s.clock);
      } else {
        CleanupRefreshes(s, run, t);
      }
    }
    RunKeepsClock(s, run, u);
  }
}
