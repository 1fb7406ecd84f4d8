/** What holds of whole runs of the stack and its collector. */
module ReclamationTheorems {
  import opened Reclamation
  import opened ReclamationInvariant
  import opened ReclamationSteps

  // ----- the nodes linked from the top -----

  /** Only one sequence of nodes can be met following `next`. */
  lemma {:induction false} LinkedUnique(mem: map<Addr, Node>, top: Addr, p: seq<Addr>, q: seq<Addr>)
    requires Linked(mem, top, p) && Linked(mem, top, q)
    ensures p == q
    decreases |p|
  {
    if p != [] {
      assert p[0] == q[0] == top;
      LinkedTail(mem, top, p);
      LinkedTail(mem, top, q);
      LinkedUnique(mem, mem[top].next, p[1..], q[1..]);
      assert p == [p[0]] + p[1..] && q == [q[0]] + q[1..];
    }
  }

  /** `n` is met on the way from `top` along `next` to null. */
  ghost predicate Met(s: State, n: Addr) {
    exists q :: Linked(s.mem, s.top, q) && n in q
  }

  /** Where the invariant holds `stack` is that way. */
  lemma StackIsMet(s: State, n: Addr)
    requires StackOk(s)
    ensures Met(s, n) <==> n in s.stack
  {
    if q :| Linked(s.mem, s.top, q) && n in q {
      LinkedUnique(s.mem, s.top, q, s.stack);
    }
  }

  // ----- runs -----

  /** No scan of the run is misled by its second read of a clock. */
  predicate Calm(s: State, run: seq<Action>)
    requires Legal(s, run)
    decreases |run|
  {
    run == [] || (Harmless(s, run[0]) && Calm(Apply(s, run[0]), run[1..]))
  }

  lemma {:induction false} CalmRunKeeps(s: State, run: seq<Action>)
    requires Inv(s) && Legal(s, run) && Calm(s, run)
    ensures Inv(Exec(s, run))
    decreases |run|
  {
    if run != [] {
      StepKeeps(s, run[0]);
      CalmRunKeeps(Apply(s, run[0]), run[1..]);
    }
  }

  // ----- grace period -----

  /** Nobody is about to use a node that was given back, and no readable node is up for reuse. */
  ghost predicate GraceHolds(s: State) {
    && (forall t | t in s.threads :: Touches(s, t) <= s.mem.Keys)
    && (forall t, u | t in s.threads && u in s.threads && HeldBy(s.threads[t].pc) != NULL ::
          HeldBy(s.threads[t].pc) in s.mem && HeldBy(s.threads[t].pc) !in s.threads[u].clean)
  }

  lemma InvGivesGrace(s: State)
    requires Inv(s)
    ensures GraceHolds(s)
  {
    forall t | t in s.threads ensures Touches(s, t) <= s.mem.Keys {
      assert ThreadOk(s, t) && HeldOk(s, t);
    }
    forall t, u | t in s.threads && u in s.threads && HeldBy(s.threads[t].pc) != NULL
      ensures HeldBy(s.threads[t].pc) in s.mem && HeldBy(s.threads[t].pc) !in s.threads[u].clean
    {
      assert HeldOk(s, t) && ThreadOk(s, u);
      assert !s.mem[HeldBy(s.threads[t].pc)].place.Clean?;
    }
  }

  /** Any number of workers: calm runs respect the grace period. */
  lemma GracePeriod(workers: nat, run: seq<Action>)
    requires Legal(Init(workers), run) && Calm(Init(workers), run)
    ensures GraceHolds(Exec(Init(workers), run))
  {
    InitOk(workers);
    CalmRunKeeps(Init(workers), run);
    InvGivesGrace(Exec(Init(workers), run));
  }

  lemma GoKeepsIds(s: State, t: Tid)
    requires CanGo(s, t)
    ensures GoRegister(s, t).threads.Keys == GoPush(s, t).threads.Keys == s.threads.Keys
    ensures GoPop(s, t).threads.Keys == GoScan(s, t).threads.Keys == s.threads.Keys
    ensures GoClean(s, t).threads.Keys == GoSweep(s, t).threads.Keys == s.threads.Keys
    ensures GoDereg(s, t).threads.Keys == s.threads.Keys
  {
  }

  lemma StepKeepsIds(s: State, a: Action)
    requires Enabled(s, a)
    ensures Apply(s, a).threads.Keys == s.threads.Keys
  {
    if a.Go? { GoKeepsIds(s, a.t); }
  }

  lemma TwoWorkersHarmless(s: State, a: Action)
    requires ClocksOk(s) && Enabled(s, a)
    requires forall t | t in s.threads :: t < 2
    requires forall t | t in s.threads :: ScanOk(s, t)
    ensures Harmless(s, a)
  {
    if a.Go? && s.threads[a.t].pc.ScanAssign? {
      var pc := s.threads[a.t].pc;
      if s.clocks[pc.i] != a.t {
        forall j | 0 <= j < pc.i ensures s.clocks[j] == a.t {
          assert s.clocks[j] in s.clocks && s.clocks[pc.i] in s.clocks;
          assert s.clocks[j] != s.clocks[pc.i];
        }
      }
    }
  }

  lemma {:induction false} TwoWorkersCalm(s: State, run: seq<Action>)
    requires Inv(s) && Legal(s, run)
    requires forall t | t in s.threads :: t < 2
    ensures Calm(s, run)
    decreases |run|
  {
    if run != [] {
      TwoWorkersHarmless(s, run[0]);
      StepKeeps(s, run[0]);
      StepKeepsIds(s, run[0]);
      TwoWorkersCalm(Apply(s, run[0]), run[1..]);
    }
  }

  /** With at most two workers all runs are calm, so what is proved of calm runs holds of every run. */
  lemma TwoWorkersAlwaysCalm(workers: nat, run: seq<Action>)
    requires workers <= 2 && Legal(Init(workers), run)
    ensures Calm(Init(workers), run)
  {
    InitOk(workers);
    TwoWorkersCalm(Init(workers), run);
  }

  /** With at most two workers every run respects the grace period, whatever the scans read. */
  lemma TwoWorkersSafe(workers: nat, run: seq<Action>)
    requires workers <= 2 && Legal(Init(workers), run)
    ensures GraceHolds(Exec(Init(workers), run))
  {
    TwoWorkersAlwaysCalm(workers, run);
    GracePeriod(workers, run);
  }
}
