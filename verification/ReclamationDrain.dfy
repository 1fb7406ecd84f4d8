/** The dirty lists: in stamp order, and emptied in the last round of `dereg`. */
module ReclamationDrain {
  import opened Reclamation
  import opened ReclamationInvariant
  import opened ReclamationSteps
  import opened ReclamationTheorems

  /** In every calm run each dirty list is strictly increasing in stamp. */
  lemma DirtyListsIncrease(workers: nat, run: seq<Action>, t: Tid)
    requires Legal(Init(workers), run) && Calm(Init(workers), run)
    requires t in Exec(Init(workers), run).threads
    ensures var s := Exec(Init(workers), run);
            var q := s.threads[t].dirty;
            && (forall i | 0 <= i < |q| :: q[i] in s.mem)
            && (forall i, j | 0 <= i < j < |q| :: s.mem[q[i]].clock < s.mem[q[j]].clock)
  {
    InitOk(workers);
    CalmRunKeeps(Init(workers), run);
    assert ThreadOk(Exec(Init(workers), run), t);
  }

  /** When the sweep of `t` stops, what is left in its dirty list is exactly what is not below the minimum. */
  lemma SweepStopsRight(s: State, t: Tid)
    requires Inv(s) && CanGo(s, t) && s.threads[t].pc.Sweep? && GoStep(s, t).threads[t].pc.SweepFetch?
    ensures forall n | n in s.threads[t].dirty :: s.mem[n].clock >= s.threads[t].pc.min
    ensures GoStep(s, t).threads[t].dirty == s.threads[t].dirty
  {
    assert ThreadOk(s, t);
  }

  // ----- leaving -----

  /** `u` is inside `dereg`. */
  predicate Leaving(s: State, u: Tid) {
    u in s.threads &&
    match s.threads[u].pc
    case ScanLock(n) => n == NULL
    case Scan(n, _, _) => n == NULL
    case ScanAssign(n, _, _) => n == NULL
    case Sweep(n, _) => n == NULL
    case SweepFetch(n) => n == NULL
    case SweepStore(n, _) => n == NULL
    case DeregTest | DeregLeave | Destroy | Done => true
    case _ => false
  }

  predicate Active(pc: PC) {
    pc.RegAppend? || Registered(pc)
  }

  /** Whoever is registered, or about to be, has a clock above `limit`. */
  predicate AllPast(s: State, limit: nat) {
    && limit < s.clock
    && forall t | t in s.threads && Active(s.threads[t].pc) :: limit < s.threads[t].clock
  }

  ghost predicate StampsUpTo(s: State, u: Tid, limit: nat) {
    && u in s.threads
    && var q := s.threads[u].dirty;
       forall i | 0 <= i < |q| :: q[i] in s.mem && s.mem[q[i]].clock <= limit
  }

  /** `u` is in its last round of `dereg`: the current scan ends above `limit`, or the list is empty. */
  ghost predicate LastRound(s: State, u: Tid, limit: nat) {
    && Leaving(s, u) && StampsUpTo(s, u, limit)
    && match s.threads[u].pc
       case ScanLock(_) => AllPast(s, limit)
       case Scan(_, _, min) => limit < min && AllPast(s, limit)
       case ScanAssign(_, _, min) => limit < min && AllPast(s, limit)
       case Sweep(_, min) => limit < min
       case _ => s.threads[u].dirty == []
  }

  // What one step does to these.

  lemma GoKeepsClocks(s: State, t: Tid)
    requires CanGo(s, t) && PcOk(s, t)
    ensures s.clock <= GoStep(s, t).clock
    ensures t in GoStep(s, t).threads && s.threads[t].clock <= GoStep(s, t).threads[t].clock
    ensures forall u | u in s.threads && u != t ::
              u in GoStep(s, t).threads && GoStep(s, t).threads[u] == s.threads[u]
    ensures GoStep(s, t).threads.Keys == s.threads.Keys
  {
    GoKeepsIds(s, t);
  }

  lemma GoKeepsActive(s: State, t: Tid)
    requires CanGo(s, t) && t in GoStep(s, t).threads && Active(GoStep(s, t).threads[t].pc)
    ensures Active(s.threads[t].pc) || s.threads[t].pc.Outside?
    ensures s.threads[t].pc.Outside? ==> GoStep(s, t).threads[t].clock == s.clock
  {
  }

  lemma StepKeepsOthers(s: State, a: Action, u: Tid)
    requires Enabled(s, a) && u in s.threads && (a.Drain? || a.t != u)
    requires forall t | t in s.threads :: PcOk(s, t)
    ensures u in Apply(s, a).threads && Apply(s, a).threads[u] == s.threads[u]
  {
    if a.Go? { GoKeepsClocks(s, a.t); }
  }

  lemma GoKeepsPast(s: State, t: Tid, limit: nat)
    requires CanGo(s, t) && PcOk(s, t) && AllPast(s, limit)
    ensures AllPast(GoStep(s, t), limit)
  {
    var s' := GoStep(s, t);
    GoKeepsClocks(s, t);
    if Active(s'.threads[t].pc) { GoKeepsActive(s, t); }
    forall u | u in s'.threads && Active(s'.threads[u].pc) ensures limit < s'.threads[u].clock {
      if u != t { assert s'.threads[u] == s.threads[u]; }
    }
  }

  lemma StepKeepsPast(s: State, a: Action, limit: nat)
    requires Inv(s) && Enabled(s, a) && AllPast(s, limit)
    ensures AllPast(Apply(s, a), limit)
  {
    if a.Go? {
      assert ThreadOk(s, a.t);
      GoKeepsPast(s, a.t, limit);
    }
  }

  /** A node sealed by `u` stays put, with its stamp, while another thread takes a step. */
  lemma OthersKeepSealed(s: State, a: Action, u: Tid, n: Addr)
    requires Inv(s) && Enabled(s, a) && (a.Drain? || a.t != u)
    requires n in s.mem && s.mem[n].place.Sealed? && s.mem[n].place.owner == u
    ensures n in Apply(s, a).mem && Apply(s, a).mem[n].clock == s.mem[n].clock
  {
    match a
    case Go(t) => assert ThreadOk(s, t); GoKeepsSealed(s, t, u, n);
    case Recycle(t, _) => assert CleanOk(s, t);
    case Fresh(_, _, _) =>
    case StartPop(_) =>
    case Leave(_) =>
    case Drain => DrainStack(s);
  }

  lemma GoKeepsSealed(s: State, t: Tid, u: Tid, n: Addr)
    requires CanGo(s, t) && ThreadOk(s, t) && t != u
    requires n in s.mem && s.mem[n].place.Sealed? && s.mem[n].place.owner == u
    ensures n in GoStep(s, t).mem && GoStep(s, t).mem[n].clock == s.mem[n].clock
  {
  }

  lemma OthersKeepStamps(s: State, a: Action, u: Tid, limit: nat)
    requires Inv(s) && Enabled(s, a) && (a.Drain? || a.t != u)
    requires StampsUpTo(s, u, limit)
    ensures StampsUpTo(Apply(s, a), u, limit)
  {
    StepKeepsOthers(s, a, u);
    assert DirtyOk(s, u);
    var q := s.threads[u].dirty;
    forall i | 0 <= i < |q|
      ensures q[i] in Apply(s, a).mem && Apply(s, a).mem[q[i]].clock <= limit
    {
      OthersKeepSealed(s, a, u, q[i]);
    }
  }

  /** Inside `dereg` the thread never lists another node. */
  lemma LeavingKeepsStamps(s: State, u: Tid, limit: nat)
    requires CanGo(s, u) && Leaving(s, u) && StampsUpTo(s, u, limit) && ThreadOk(s, u)
    ensures Leaving(GoStep(s, u), u) && StampsUpTo(GoStep(s, u), u, limit)
  {
    var q := s.threads[u].dirty;
    if s.threads[u].pc.Sweep? && q != [] {
      forall i | 0 <= i < |q[1..]| ensures q[1..][i] == q[i + 1] && q[i + 1] != q[0] {}
    }
    if s.threads[u].pc.Destroy? && s.threads[u].clean != [] {
      assert s.mem[s.threads[u].clean[0]].place == Clean(u);
    }
  }

  lemma StepKeepsLeaving(s: State, a: Action, u: Tid, limit: nat)
    requires Inv(s) && Enabled(s, a) && Leaving(s, u) && StampsUpTo(s, u, limit)
    ensures Leaving(Apply(s, a), u) && StampsUpTo(Apply(s, a), u, limit)
  {
    if a.Drain? || a.t != u {
      StepKeepsOthers(s, a, u);
      OthersKeepStamps(s, a, u, limit);
    } else {
      assert ThreadOk(s, u);
      LeavingKeepsStamps(s, u, limit);
    }
  }

  lemma LastRoundPc(s: State, u: Tid, limit: nat)
    requires CanGo(s, u) && LastRound(s, u, limit) && limit < UINT64_MAX
    requires ClocksOk(s)
    requires var s' := GoStep(s, u);
             Leaving(s', u) && StampsUpTo(s', u, limit) && (AllPast(s, limit) ==> AllPast(s', limit))
    ensures LastRound(GoStep(s, u), u, limit)
  {
    if s.threads[u].pc.ScanAssign? {
      assert s.clocks[s.threads[u].pc.i] in s.clocks;
    }
  }

  lemma LastRoundGoes(s: State, u: Tid, limit: nat)
    requires Inv(s) && CanGo(s, u) && LastRound(s, u, limit) && limit < UINT64_MAX
    ensures LastRound(GoStep(s, u), u, limit)
  {
    assert ThreadOk(s, u);
    LeavingKeepsStamps(s, u, limit);
    if AllPast(s, limit) { GoKeepsPast(s, u, limit); }
    LastRoundPc(s, u, limit);
  }

  lemma StepKeepsLastRound(s: State, a: Action, u: Tid, limit: nat)
    requires Inv(s) && Enabled(s, a) && LastRound(s, u, limit) && limit < UINT64_MAX
    ensures LastRound(Apply(s, a), u, limit)
  {
    if a.Drain? || a.t != u {
      StepKeepsLeaving(s, a, u, limit);
      StepKeepsOthers(s, a, u);
      if AllPast(s, limit) { StepKeepsPast(s, a, limit); }
    } else {
      LastRoundGoes(s, u, limit);
    }
  }

  lemma {:induction false} RunKeepsLastRound(s: State, run: seq<Action>, u: Tid, limit: nat)
    requires Inv(s) && Legal(s, run) && Calm(s, run) && LastRound(s, u, limit) && limit < UINT64_MAX
    ensures LastRound(Exec(s, run), u, limit)
    decreases |run|
  {
    if run != [] {
      StepKeeps(s, run[0]);
      StepKeepsLastRound(s, run[0], u, limit);
      RunKeepsLastRound(Apply(s, run[0]), run[1..], u, limit);
    }
  }

  lemma {:induction false} RunKeepsLeaving(s: State, run: seq<Action>, u: Tid, limit: nat)
    requires Inv(s) && Legal(s, run) && Calm(s, run) && Leaving(s, u) && StampsUpTo(s, u, limit)
    ensures Leaving(Exec(s, run), u) && StampsUpTo(Exec(s, run), u, limit)
    decreases |run|
  {
    if run != [] {
      StepKeeps(s, run[0]);
      StepKeepsLeaving(s, run[0], u, limit);
      RunKeepsLeaving(Apply(s, run[0]), run[1..], u, limit);
    }
  }
}
