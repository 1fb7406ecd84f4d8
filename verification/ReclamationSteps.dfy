/** Every step of the stack and its collector keeps the invariant, one proof per step. */
module ReclamationSteps {
  import opened Chains
  import opened Reclamation
  import opened ReclamationInvariant

  /** Some thread other than `t` is responsible for the node. */
  predicate Foreign(place: Place, t: Tid) {
    !place.OnStack? && place.owner != t
  }

  /** A step of `t` leaves the other threads, and the nodes they are responsible for, alone. */
  ghost predicate Frame(s: State, s': State, t: Tid) {
    && t in s.threads && s'.threads.Keys == s.threads.Keys
    && (forall u | u in s.threads && u != t :: s'.threads[u] == s.threads[u])
    && s.clock <= s'.clock
    && s.threads[t].clock <= s'.threads[t].clock
    && (s'.clocks == s.clocks || Unlocked(s))
    && (forall n | n in s.mem && Foreign(s.mem[n].place, t) :: n in s'.mem && s'.mem[n] == s.mem[n])
    && (forall n | n in s'.mem && Foreign(s'.mem[n].place, t) :: n in s.mem && s'.mem[n] == s.mem[n])
  }

  lemma OtherLists(s: State, s': State, t: Tid, u: Tid)
    requires Frame(s, s', t) && u in s.threads && u != t
    requires DirtyOk(s, u) && CleanOk(s, u)
    ensures DirtyOk(s', u) && CleanOk(s', u)
  {
    assert s'.threads[u] == s.threads[u];
    forall n, place | IsPlaced(s, n, place) && Foreign(place, t) ensures IsPlaced(s', n, place) {}
  }

  lemma OtherPc(s: State, s': State, t: Tid, u: Tid)
    requires Frame(s, s', t) && u in s.threads && u != t
    requires DirtyOk(s, u) && PcOk(s, u)
    ensures PcOk(s', u)
  {
    assert s'.threads[u] == s.threads[u];
    forall bound | DirtyBelow(s, u, bound) ensures DirtyBelow(s', u, bound) {}
    forall n, place | IsPlaced(s, n, place) && Foreign(place, t)
      ensures IsPlaced(s', n, place) && s'.mem[n] == s.mem[n] {}
  }

  lemma OtherScan(s: State, s': State, t: Tid, u: Tid)
    requires Frame(s, s', t) && u in s.threads && u != t
    requires ScanOk(s, u)
    requires HeldBy(s'.threads[t].pc) in {NULL, HeldBy(s.threads[t].pc), s.top}
    requires s.top in s.mem ==> s.mem[s.top].place == OnStack
    ensures ScanOk(s', u)
  {
    assert s'.threads[u] == s.threads[u];
    if Scanning(s.threads[u].pc) {
      assert s'.clocks == s.clocks;
      var pc := s.threads[u].pc;
      forall j | 0 <= j < pc.i && j < |s.clocks| && s.clocks[j] != u
        ensures pc.min <= ClockOf(s', s.clocks[j])
      {
        assert ClockOf(s, s.clocks[j]) <= ClockOf(s', s.clocks[j]);
      }
    } else if s.threads[u].pc.Decide? || s.threads[u].pc.Sweep? {
      assert HoldersAtLeast(s', u, s.threads[u].pc.min);
    }
  }

  lemma OtherPlace(s: State, s': State, t: Tid, n: Addr)
    requires Frame(s, s', t)
    requires n in s'.mem && Foreign(s'.mem[n].place, t)
    requires n in s.mem ==> PlaceOk(s, n)
    ensures PlaceOk(s', n)
  {
    assert s'.mem[n] == s.mem[n];
    var u := s.mem[n].place.owner;
    assert s'.threads[u] == s.threads[u];
  }

  /** `t` moves on without touching the heap, the stack or the list of clocks. */
  ghost predicate QuietMove(s: State, s': State, t: Tid) {
    && t in s.threads && t in s'.threads
    && s' == s.(clock := s'.clock, threads := s.threads[t := s'.threads[t]])
    && s.clock <= s'.clock
    && var th := s.threads[t];
       var th' := s'.threads[t];
       && th.clock <= th'.clock
       && Registered(th.pc) == Registered(th'.pc)
       && HandOf(th.pc) == HandOf(th'.pc)
       && !th.pc.CleanFetch?
       && th'.clean == th.clean
       && (|| (th'.dirty == th.dirty && PendingOf(th.pc) == PendingOf(th'.pc))
           || (th.pc.Enlist? && th'.dirty == th.dirty + [th.pc.n] && PendingOf(th'.pc) == NULL))
       && HeldBy(th'.pc) in {NULL, HeldBy(th.pc), s.top}
  }

  lemma QuietKeeps(s: State, s': State, t: Tid)
    requires Inv(s) && QuietMove(s, s', t)
    requires ThreadOk(s', t) && HeldOk(s', t) && ScanOk(s', t)
    ensures Inv(s')
  {
    assert Frame(s, s', t);
    forall u | u in s.threads && u != t
      ensures ThreadOk(s', u) && HeldOk(s', u) && ScanOk(s', u)
    {
      OtherLists(s, s', t, u);
      OtherPc(s, s', t, u);
      OtherScan(s, s', t, u);
      assert HeldOk(s, u);
    }
    forall n | n in s.mem ensures PlaceOk(s', n) {
      QuietPlace(s, s', t, n);
    }
  }

  lemma QuietPlace(s: State, s': State, t: Tid, n: Addr)
    requires QuietMove(s, s', t) && n in s.mem && n != NULL && PlaceOk(s, n)
    ensures PlaceOk(s', n)
  {
    var th, th' := s.threads[t], s'.threads[t];
    if th.pc.Enlist? && th'.dirty != th.dirty {
      assert th'.dirty[|th.dirty|] == th.pc.n;
    }
  }

  /** The common case: the lists of `t` do not change either. */
  lemma QuietPcKeeps(s: State, t: Tid, clock: nat, th: Thread)
    requires Inv(s) && t in s.threads && th.dirty == s.threads[t].dirty
    requires var s' := s.(clock := clock, threads := s.threads[t := th]);
             QuietMove(s, s', t) && PcOk(s', t) && HeldOk(s', t) && ScanOk(s', t)
    ensures Inv(s.(clock := clock, threads := s.threads[t := th]))
  {
    var s' := s.(clock := clock, threads := s.threads[t := th]);
    assert DirtyOk(s, t) && CleanOk(s, t);
    assert DirtyOk(s', t) && CleanOk(s', t);
    QuietKeeps(s, s', t);
  }

  // ----- steps that leave the heap alone -----

  lemma PushReadKeeps(s: State, t: Tid)
    requires Inv(s) && CanGo(s, t) && s.threads[t].pc.PushRead?
    ensures Inv(GoPush(s, t))
  {
    QuietPcKeeps(s, t, GoPush(s, t).clock, GoPush(s, t).threads[t]);
  }

  lemma PushRetryKeeps(s: State, t: Tid)
    requires Inv(s) && CanGo(s, t) && s.threads[t].pc.PushCas? && s.threads[t].pc.seen != s.top
    ensures Inv(GoPush(s, t))
  {
    QuietPcKeeps(s, t, GoPush(s, t).clock, GoPush(s, t).threads[t]);
  }

  lemma PushedKeeps(s: State, t: Tid)
    requires Inv(s) && CanGo(s, t) && s.threads[t].pc.Pushed?
    ensures Inv(GoPush(s, t))
  {
    QuietPcKeeps(s, t, GoPush(s, t).clock, GoPush(s, t).threads[t]);
  }

  lemma PopReadKeeps(s: State, t: Tid)
    requires Inv(s) && CanGo(s, t) && (s.threads[t].pc.PopTest? || s.threads[t].pc.PopRead?)
    ensures Inv(GoPop(s, t))
  {
    QuietPcKeeps(s, t, GoPop(s, t).clock, GoPop(s, t).threads[t]);
  }

  lemma PopNextKeeps(s: State, t: Tid)
    requires Inv(s) && CanGo(s, t) && s.threads[t].pc.PopNext?
    ensures Inv(GoPop(s, t))
  {
    QuietPcKeeps(s, t, GoPop(s, t).clock, GoPop(s, t).threads[t]);
  }

  lemma PopRetryKeeps(s: State, t: Tid)
    requires Inv(s) && CanGo(s, t) && s.threads[t].pc.PopCas? && s.threads[t].pc.n != s.top
    ensures Inv(GoPop(s, t))
  {
    QuietPcKeeps(s, t, GoPop(s, t).clock, GoPop(s, t).threads[t]);
  }

  lemma CleanStoreKeeps(s: State, t: Tid)
    requires Inv(s) && CanGo(s, t) && s.threads[t].pc.CleanStore?
    ensures Inv(GoClean(s, t))
  {
    QuietPcKeeps(s, t, GoClean(s, t).clock, GoClean(s, t).threads[t]);
  }

  lemma EnlistLists(s: State, t: Tid)
    requires CanGo(s, t) && s.threads[t].pc.Enlist? && ThreadOk(s, t)
    ensures ThreadOk(GoClean(s, t), t)
  {
    var s' := GoClean(s, t);
    var q, q' := s.threads[t].dirty, s'.threads[t].dirty;
    forall i | 0 <= i < |q| ensures q'[i] == q[i] {}
    assert DirtyOk(s', t);
  }

  lemma EnlistKeeps(s: State, t: Tid)
    requires Inv(s) && CanGo(s, t) && s.threads[t].pc.Enlist?
    ensures Inv(GoClean(s, t))
  {
    EnlistLists(s, t);
    QuietKeeps(s, GoClean(s, t), t);
  }

  lemma ScanStepPasses(s: State, t: Tid)
    requires CanGo(s, t) && s.threads[t].pc.Scan? && s.threads[t].pc.i < |s.clocks|
    requires ScanOk(s, t)
    ensures ScanOk(GoScan(s, t), t)
  {
    var s' := GoScan(s, t);
    forall u ensures ClockOf(s', u) == ClockOf(s, u) {}
  }

  lemma ScanStepKeeps(s: State, t: Tid)
    requires Inv(s) && CanGo(s, t) && s.threads[t].pc.Scan? && s.threads[t].pc.i < |s.clocks|
    ensures Inv(GoScan(s, t))
  {
    ScanStepPasses(s, t);
    QuietPcKeeps(s, t, s.clock, GoScan(s, t).threads[t]);
  }

  lemma ScanLockKeeps(s: State, t: Tid)
    requires Inv(s) && CanGo(s, t) && s.threads[t].pc.ScanLock?
    ensures Inv(GoScan(s, t))
  {
    QuietPcKeeps(s, t, GoScan(s, t).clock, GoScan(s, t).threads[t]);
  }

  lemma ScanEndPasses(s: State, t: Tid)
    requires CanGo(s, t) && s.threads[t].pc.Scan? && s.threads[t].pc.i >= |s.clocks|
    requires ClocksOk(s) && ScanOk(s, t)
    requires forall u | u in s.threads :: HeldOk(s, u)
    ensures ScanOk(GoScan(s, t), t)
  {
    var s' := GoScan(s, t);
    var min := s.threads[t].pc.min;
    forall u | u in s'.threads && HeldBy(s'.threads[u].pc) != NULL ensures min <= s'.threads[u].clock {
      assert u in s.clocks;
    }
  }

  lemma ScanEndKeeps(s: State, t: Tid)
    requires Inv(s) && CanGo(s, t) && s.threads[t].pc.Scan? && s.threads[t].pc.i >= |s.clocks|
    ensures Inv(GoScan(s, t))
  {
    ScanEndPasses(s, t);
    QuietPcKeeps(s, t, s.clock, GoScan(s, t).threads[t]);
  }

  /** The only place where the proof needs the second read of a clock to be harmless. */
  lemma ScanAssignPasses(s: State, t: Tid)
    requires CanGo(s, t) && s.threads[t].pc.ScanAssign?
    requires ScanOk(s, t) && Harmless(s, Go(t))
    requires Distinct(s.clocks)
    ensures ScanOk(GoScan(s, t), t)
  {
    var s' := GoScan(s, t);
    var pc := s.threads[t].pc;
    forall u ensures ClockOf(s', u) == ClockOf(s, u) {}
    if ClockOf(s, s.clocks[pc.i]) > pc.min {
      assert s.clocks[pc.i] != t;
    }
  }

  lemma ScanAssignKeeps(s: State, t: Tid)
    requires Inv(s) && CanGo(s, t) && s.threads[t].pc.ScanAssign?
    requires Harmless(s, Go(t))
    ensures Inv(GoScan(s, t))
  {
    ScanAssignPasses(s, t);
    QuietPcKeeps(s, t, s.clock, GoScan(s, t).threads[t]);
  }

  lemma SweepFetchKeeps(s: State, t: Tid)
    requires Inv(s) && CanGo(s, t) && s.threads[t].pc.SweepFetch?
    ensures Inv(GoSweep(s, t))
  {
    QuietPcKeeps(s, t, GoSweep(s, t).clock, GoSweep(s, t).threads[t]);
  }

  lemma SweepStoreKeeps(s: State, t: Tid)
    requires Inv(s) && CanGo(s, t) && s.threads[t].pc.SweepStore?
    ensures Inv(GoSweep(s, t))
  {
    QuietPcKeeps(s, t, s.clock, GoSweep(s, t).threads[t]);
  }

  lemma SweepEndKeeps(s: State, t: Tid)
    requires Inv(s) && CanGo(s, t) && s.threads[t].pc.Sweep?
    requires s.threads[t].dirty == [] || s.mem[s.threads[t].dirty[0]].clock >= s.threads[t].pc.min
    ensures Inv(GoSweep(s, t))
  {
    QuietPcKeeps(s, t, GoSweep(s, t).clock, GoSweep(s, t).threads[t]);
  }

  lemma DeregTestKeeps(s: State, t: Tid)
    requires Inv(s) && CanGo(s, t) && s.threads[t].pc.DeregTest?
    ensures Inv(GoDereg(s, t))
  {
    QuietPcKeeps(s, t, GoDereg(s, t).clock, GoDereg(s, t).threads[t]);
  }

  lemma DestroyEndKeeps(s: State, t: Tid)
    requires Inv(s) && CanGo(s, t) && s.threads[t].pc.Destroy? && s.threads[t].clean == []
    ensures Inv(GoDereg(s, t))
  {
    QuietPcKeeps(s, t, GoDereg(s, t).clock, GoDereg(s, t).threads[t]);
  }

  lemma OutsideKeeps(s: State, t: Tid)
    requires Inv(s) && CanGo(s, t) && s.threads[t].pc.Outside?
    ensures Inv(GoRegister(s, t))
  {
    QuietPcKeeps(s, t, GoRegister(s, t).clock, GoRegister(s, t).threads[t]);
  }

  lemma StartPopKeeps(s: State, t: Tid)
    requires Inv(s) && IsIdle(s, t)
    ensures Inv(At(s, t, PopTest))
  {
    QuietPcKeeps(s, t, s.clock, At(s, t, PopTest).threads[t]);
  }

  lemma LeaveKeeps(s: State, t: Tid)
    requires Inv(s) && IsIdle(s, t)
    ensures Inv(At(s, t, DeregTest))
  {
    QuietPcKeeps(s, t, s.clock, At(s, t, DeregTest).threads[t]);
  }

  // ----- steps that write one node -----

  /** `t` moves on; in the heap at most `n` changes, and `t` is responsible for `n` before and after. */
  ghost predicate NodeMove(s: State, s': State, t: Tid, n: Addr) {
    && t in s.threads && t in s'.threads
    && s'.threads == s.threads[t := s'.threads[t]]
    && s.clock <= s'.clock
    && s'.clocks == s.clocks
    && s.threads[t].clock == s'.threads[t].clock
    && Registered(s.threads[t].pc) == Registered(s'.threads[t].pc)
    && (forall m | m != n :: m in s.mem <==> m in s'.mem)
    && (forall m | m in s.mem && m != n :: s'.mem[m] == s.mem[m])
    && (n in s.mem ==> !Foreign(s.mem[n].place, t))
    && (n in s'.mem ==> !Foreign(s'.mem[n].place, t))
    && (n in s.stack ==> HeldBy(s'.threads[t].pc) == NULL)
    && HeldBy(s'.threads[t].pc) in {NULL, n}
  }

  /** No other thread may read `n`. */
  predicate Unheld(s: State, t: Tid, n: Addr) {
    forall u | u in s.threads && u != t :: HeldBy(s.threads[u].pc) != n
  }

  lemma NodeKeeps(s: State, s': State, t: Tid, n: Addr)
    requires Inv(s) && NodeMove(s, s', t, n)
    requires NULL !in s'.mem && StackOk(s')
    requires ThreadOk(s', t) && HeldOk(s', t) && ScanOk(s', t)
    requires HeldBy(s'.threads[t].pc) == NULL || (n in s'.mem && s'.mem[n].place == OnStack)
    requires Unheld(s, t, n) || forall u | u in s.threads && u != t :: HeldOk(s', u)
    requires forall m | m in s'.mem && !Foreign(s'.mem[m].place, t) :: PlaceOk(s', m)
    ensures Inv(s')
  {
    assert Frame(s, s', t);
    forall u | u in s.threads && u != t
      ensures ThreadOk(s', u) && HeldOk(s', u) && ScanOk(s', u)
    {
      OtherLists(s, s', t, u);
      OtherPc(s, s', t, u);
      NodeScan(s, s', t, n, u);
      assert HeldOk(s, u);
    }
    forall m | m in s'.mem ensures PlaceOk(s', m) {
      if Foreign(s'.mem[m].place, t) { OtherPlace(s, s', t, m); }
    }
  }

  lemma NodeScan(s: State, s': State, t: Tid, n: Addr, u: Tid)
    requires NodeMove(s, s', t, n) && u in s.threads && u != t
    requires ScanOk(s, u)
    requires HeldBy(s'.threads[t].pc) == NULL || (n in s'.mem && s'.mem[n].place == OnStack)
    ensures ScanOk(s', u)
  {
    assert s'.threads[u] == s.threads[u];
    forall v ensures ClockOf(s', v) == ClockOf(s, v) {}
  }

  /** The part of the heap other than `n`, and the stack, are as before. */
  ghost predicate OnlyNode(s: State, s': State, n: Addr) {
    && (forall m | m != n :: m in s.mem <==> m in s'.mem)
    && (forall m | m in s.mem && m != n :: s'.mem[m] == s.mem[m])
  }

  lemma StackKept(s: State, s': State, n: Addr)
    requires StackOk(s) && OnlyNode(s, s', n) && n !in s.stack
    requires s'.stack == s.stack && s'.top == s.top
    ensures StackOk(s')
  {
  }

  lemma ListsKept(s: State, s': State, t: Tid, n: Addr)
    requires t in s.threads && t in s'.threads && OnlyNode(s, s', n)
    requires DirtyOk(s, t) && CleanOk(s, t)
    requires s'.threads[t].dirty == s.threads[t].dirty && s'.threads[t].clean == s.threads[t].clean
    requires s'.threads[t].clock == s.threads[t].clock
    requires n !in s.threads[t].dirty && n !in s.threads[t].clean
    ensures DirtyOk(s', t) && CleanOk(s', t)
  {
  }

  lemma NotListed(s: State, t: Tid, n: Addr)
    requires t in s.threads && DirtyOk(s, t) && CleanOk(s, t)
    requires n in s.mem ==> !s.mem[n].place.Clean? && !s.mem[n].place.Sealed?
    ensures n !in s.threads[t].dirty && n !in s.threads[t].clean
  {
  }

  lemma PlacesKept(s: State, s': State, t: Tid, n: Addr, m: Addr)
    requires t in s.threads && t in s'.threads && OnlyNode(s, s', n)
    requires m in s.mem && m != n && m != NULL && !Foreign(s.mem[m].place, t) && PlaceOk(s, m)
    requires HandOf(s.threads[t].pc) in {NULL, n}
    requires s.threads[t].pc.CleanFetch? ==> s.threads[t].pc.n == n
    requires PendingOf(s.threads[t].pc) in {NULL, n, PendingOf(s'.threads[t].pc)}
    requires m in s.threads[t].dirty ==> m in s'.threads[t].dirty
    requires m in s.threads[t].clean ==> m in s'.threads[t].clean
    requires m in s.stack ==> m in s'.stack
    ensures PlaceOk(s', m)
  {
  }

  /** `t` itself and the node it writes are in order after the step. */
  ghost predicate LocalMove(s: State, s': State, t: Tid, n: Addr) {
    && NodeMove(s, s', t, n) && n != NULL
    && DirtyOk(s', t) && CleanOk(s', t) && PcOk(s', t) && HeldOk(s', t) && ScanOk(s', t)
    && (n in s'.mem && !s'.mem[n].place.OnStack? ==> PlaceOk(s', n))
    && HandOf(s.threads[t].pc) in {NULL, n}
    && (s.threads[t].pc.CleanFetch? ==> s.threads[t].pc.n == n)
    && PendingOf(s.threads[t].pc) in {NULL, n, PendingOf(s'.threads[t].pc)}
    && (forall m | m in s.threads[t].dirty && m != n :: m in s'.threads[t].dirty)
    && (forall m | m in s.threads[t].clean && m != n :: m in s'.threads[t].clean)
  }

  lemma LocalKeeps(s: State, s': State, t: Tid, n: Addr)
    requires Inv(s) && LocalMove(s, s', t, n)
    requires StackOk(s')
    requires HeldBy(s'.threads[t].pc) == NULL || (n in s'.mem && s'.mem[n].place == OnStack)
    requires Unheld(s, t, n) || forall u | u in s.threads && u != t :: HeldOk(s', u)
    requires n in s'.mem && s'.mem[n].place.OnStack? ==> n in s'.stack
    requires forall m | m in s.stack && m != n :: m in s'.stack
    ensures Inv(s')
  {
    forall m | m in s'.mem && !Foreign(s'.mem[m].place, t) ensures PlaceOk(s', m) {
      if m != n { PlacesKept(s, s', t, n, m); }
    }
    NodeKeeps(s, s', t, n);
  }

  lemma UnheldPlace(s: State, t: Tid, n: Addr)
    requires Inv(s)
    requires n in s.mem ==> s.mem[n].place.Hand? || s.mem[n].place.Clean?
    requires n != NULL
    ensures Unheld(s, t, n)
  {
    forall u | u in s.threads ensures HeldBy(s.threads[u].pc) != n { assert HeldOk(s, u); }
  }

  lemma PushLinkLocal(s: State, t: Tid)
    requires CanGo(s, t) && s.threads[t].pc.PushLink? && ThreadOk(s, t) && s.threads[t].pc.n != NULL
    ensures LocalMove(s, GoPush(s, t), t, s.threads[t].pc.n)
  {
    var s', n := GoPush(s, t), s.threads[t].pc.n;
    NotListed(s, t, n);
    ListsKept(s, s', t, n);
  }

  lemma PushLinkKeeps(s: State, t: Tid)
    requires Inv(s) && CanGo(s, t) && s.threads[t].pc.PushLink?
    ensures Inv(GoPush(s, t))
  {
    var s', n := GoPush(s, t), s.threads[t].pc.n;
    PushLinkLocal(s, t);
    UnheldPlace(s, t, n);
    StackKept(s, s', n);
    LocalKeeps(s, s', t, n);
  }

  lemma PushCasLocal(s: State, t: Tid)
    requires CanGo(s, t) && s.threads[t].pc.PushCas? && s.threads[t].pc.seen == s.top
    requires ThreadOk(s, t) && s.threads[t].pc.n != NULL && s.threads[t].pc.n !in s.stack
    ensures LocalMove(s, GoPush(s, t), t, s.threads[t].pc.n)
  {
    var s', n := GoPush(s, t), s.threads[t].pc.n;
    NotListed(s, t, n);
    ListsKept(s, s', t, n);
  }

  lemma PushCasStack(s: State, t: Tid)
    requires CanGo(s, t) && s.threads[t].pc.PushCas? && s.threads[t].pc.seen == s.top
    requires StackOk(s) && PcOk(s, t) && s.threads[t].pc.n != NULL
    ensures s.threads[t].pc.n !in s.stack
    ensures StackOk(GoPush(s, t))
  {
    hide GoRegister, GoPop, GoScan, GoClean, GoSweep, GoDereg, GoStep;
    var s', n := GoPush(s, t), s.threads[t].pc.n;
    assert n !in s.stack;
    forall i | 0 <= i < |s.stack| ensures s'.stack[i + 1] == s.stack[i] {}
    assert Linked(s'.mem, s'.top, s'.stack);
  }

  lemma PushCasKeeps(s: State, t: Tid)
    requires Inv(s) && CanGo(s, t) && s.threads[t].pc.PushCas? && s.threads[t].pc.seen == s.top
    ensures Inv(GoPush(s, t))
  {
    var s', n := GoPush(s, t), s.threads[t].pc.n;
    PushCasStack(s, t);
    PushCasLocal(s, t);
    UnheldPlace(s, t, n);
    LocalKeeps(s, s', t, n);
  }

  lemma LinkedTail(mem: map<Addr, Node>, top: Addr, stack: seq<Addr>)
    requires stack != [] && Linked(mem, top, stack)
    ensures top in mem && Linked(mem, mem[top].next, stack[1..])
  {
    var rest := stack[1..];
    assert mem[stack[0]].next == EntryAt(stack, 1);
    forall i | 0 <= i < |rest|
      ensures rest[i] != NULL && rest[i] in mem && mem[rest[i]].next == EntryAt(rest, i + 1)
    {
      assert rest[i] == stack[i + 1];
    }
  }

  lemma PopCasStack(s: State, t: Tid)
    requires CanGo(s, t) && s.threads[t].pc.PopCas? && s.threads[t].pc.n == s.top
    requires StackOk(s) && HeldOk(s, t) && s.top != NULL
    ensures s.top in s.mem && s.mem[s.top].place == OnStack && s.top in s.stack
    ensures StackOk(GoPop(s, t))
  {
    var s', n := GoPop(s, t), s.threads[t].pc.n;
    assert s.stack[0] == n && s.mem[n].next == s.threads[t].pc.succ;
    LinkedTail(s.mem, s.top, s.stack);
    assert Linked(s'.mem, s'.top, s'.stack);
  }

  lemma PopCasLocal(s: State, t: Tid)
    requires CanGo(s, t) && s.threads[t].pc.PopCas? && s.threads[t].pc.n == s.top
    requires s.top in s.mem && s.mem[s.top].place == OnStack
    requires ThreadOk(s, t) && s.threads[t].pc.n != NULL
    ensures LocalMove(s, GoPop(s, t), t, s.threads[t].pc.n)
  {
    var s', n := GoPop(s, t), s.threads[t].pc.n;
    NotListed(s, t, n);
    ListsKept(s, s', t, n);
  }

  lemma PopCasHeld(s: State, t: Tid, u: Tid)
    requires CanGo(s, t) && s.threads[t].pc.PopCas? && s.threads[t].pc.n == s.top
    requires u in s.threads && u != t && HeldOk(s, u)
    ensures HeldOk(GoPop(s, t), u)
  {
  }

  lemma PopCasKeeps(s: State, t: Tid)
    requires Inv(s) && CanGo(s, t) && s.threads[t].pc.PopCas? && s.threads[t].pc.n == s.top
    ensures Inv(GoPop(s, t))
  {
    var s', n := GoPop(s, t), s.threads[t].pc.n;
    PopCasStack(s, t);
    PopCasLocal(s, t);
    forall u | u in s.threads && u != t ensures HeldOk(s', u) { PopCasHeld(s, t, u); }
    LocalKeeps(s, s', t, n);
  }

  lemma CleanFetchLocal(s: State, t: Tid)
    requires CanGo(s, t) && s.threads[t].pc.CleanFetch?
    requires ThreadOk(s, t) && s.threads[t].pc.n != NULL && s.threads[t].pc.n !in s.stack
    ensures LocalMove(s, GoClean(s, t), t, s.threads[t].pc.n)
  {
    var s', n := GoClean(s, t), s.threads[t].pc.n;
    NotListed(s, t, n);
    ListsKept(s, s', t, n);
  }

  lemma CleanFetchHeld(s: State, t: Tid, u: Tid)
    requires CanGo(s, t) && s.threads[t].pc.CleanFetch?
    requires u in s.threads && u != t && HeldOk(s, u) && PcOk(s, u)
    ensures HeldOk(GoClean(s, t), u)
  {
  }

  lemma CleanFetchKeeps(s: State, t: Tid)
    requires Inv(s) && CanGo(s, t) && s.threads[t].pc.CleanFetch?
    ensures Inv(GoClean(s, t))
  {
    var s', n := GoClean(s, t), s.threads[t].pc.n;
    StackKept(s, s', n);
    CleanFetchLocal(s, t);
    forall u | u in s.threads && u != t ensures HeldOk(s', u) { CleanFetchHeld(s, t, u); }
    LocalKeeps(s, s', t, n);
  }

  lemma DecideStampLocal(s: State, t: Tid)
    requires CanGo(s, t) && s.threads[t].pc.Decide? && s.threads[t].clock != s.threads[t].pc.min
    requires ThreadOk(s, t) && ScanOk(s, t) && s.threads[t].pc.n !in s.stack
    ensures LocalMove(s, GoClean(s, t), t, s.threads[t].pc.n)
  {
    var s', n := GoClean(s, t), s.threads[t].pc.n;
    assert n !in s.threads[t].dirty && n !in s.threads[t].clean;
    ListsKept(s, s', t, n);
    assert DirtyBelow(s', t, s.threads[t].clock);
  }

  lemma DecideStampKeeps(s: State, t: Tid)
    requires Inv(s) && CanGo(s, t) && s.threads[t].pc.Decide? && s.threads[t].clock != s.threads[t].pc.min
    ensures Inv(GoClean(s, t))
  {
    var s', n := GoClean(s, t), s.threads[t].pc.n;
    StackKept(s, s', n);
    DecideStampLocal(s, t);
    forall u | u in s.threads && u != t ensures HeldOk(s', u) { assert HeldOk(s, u); }
    LocalKeeps(s, s', t, n);
  }

  lemma DecideDeleteLocal(s: State, t: Tid)
    requires CanGo(s, t) && s.threads[t].pc.Decide? && s.threads[t].clock == s.threads[t].pc.min
    requires ThreadOk(s, t) && s.threads[t].pc.n !in s.stack
    ensures LocalMove(s, GoClean(s, t), t, s.threads[t].pc.n)
  {
    var s', n := GoClean(s, t), s.threads[t].pc.n;
    assert n !in s.threads[t].dirty && n !in s.threads[t].clean;
    ListsKept(s, s', t, n);
  }

  /** A scan that ended at `min` lets `t` give back what it sealed below `min`. */
  lemma NobodyHolds(s: State, t: Tid, n: Addr, min: nat)
    requires t in s.threads && HoldersAtLeast(s, t, min)
    requires n in s.mem && s.mem[n].place.Sealed? && s.mem[n].place.owner == t && s.mem[n].place.stamp <= min
    requires forall u | u in s.threads :: HeldOk(s, u)
    requires n != NULL
    ensures Unheld(s, t, n)
  {
    forall u | u in s.threads && u != t ensures HeldBy(s.threads[u].pc) != n { assert HeldOk(s, u); }
  }

  lemma DecideDeleteKeeps(s: State, t: Tid)
    requires Inv(s) && CanGo(s, t) && s.threads[t].pc.Decide? && s.threads[t].clock == s.threads[t].pc.min
    ensures Inv(GoClean(s, t))
  {
    var s', n := GoClean(s, t), s.threads[t].pc.n;
    StackKept(s, s', n);
    DecideDeleteLocal(s, t);
    NobodyHolds(s, t, n, s.threads[t].pc.min);
    LocalKeeps(s, s', t, n);
  }

  lemma SweepMoveLists(s: State, t: Tid)
    requires CanGo(s, t) && s.threads[t].pc.Sweep? && ThreadOk(s, t)
    requires s.threads[t].dirty != [] && s.mem[s.threads[t].dirty[0]].clock < s.threads[t].pc.min
    ensures ThreadOk(GoSweep(s, t), t)
  {
    var s' := GoSweep(s, t);
    var q, q' := s.threads[t].dirty, s'.threads[t].dirty;
    forall i | 0 <= i < |q'| ensures q'[i] == q[i + 1] && q'[i] != q[0] {}
    assert DirtyOk(s', t);
    assert q[0] !in s.threads[t].clean;
    assert CleanOk(s', t);
  }

  lemma SweepMoveLocal(s: State, t: Tid)
    requires CanGo(s, t) && s.threads[t].pc.Sweep? && ThreadOk(s, t) && ScanOk(s, t)
    requires s.threads[t].dirty != [] && s.mem[s.threads[t].dirty[0]].clock < s.threads[t].pc.min
    requires s.threads[t].dirty[0] !in s.stack && s.threads[t].dirty[0] != NULL
    ensures LocalMove(s, GoSweep(s, t), t, s.threads[t].dirty[0])
  {
    SweepMoveLists(s, t);
    var q := s.threads[t].dirty;
    assert q == [q[0]] + q[1..];
  }

  lemma SweepMoveKeeps(s: State, t: Tid)
    requires Inv(s) && CanGo(s, t) && s.threads[t].pc.Sweep?
    requires s.threads[t].dirty != [] && s.mem[s.threads[t].dirty[0]].clock < s.threads[t].pc.min
    ensures Inv(GoSweep(s, t))
  {
    var s', n := GoSweep(s, t), s.threads[t].dirty[0];
    StackKept(s, s', n);
    SweepMoveLocal(s, t);
    NobodyHolds(s, t, n, s.threads[t].pc.min);
    LocalKeeps(s, s', t, n);
  }

  lemma DestroyLocal(s: State, t: Tid)
    requires CanGo(s, t) && s.threads[t].pc.Destroy? && s.threads[t].clean != []
    requires ThreadOk(s, t)
    requires s.threads[t].clean[0] !in s.stack && s.threads[t].clean[0] != NULL
    ensures LocalMove(s, GoDereg(s, t), t, s.threads[t].clean[0])
  {
  }

  lemma DestroyKeeps(s: State, t: Tid)
    requires Inv(s) && CanGo(s, t) && s.threads[t].pc.Destroy? && s.threads[t].clean != []
    ensures Inv(GoDereg(s, t))
  {
    var s', n := GoDereg(s, t), s.threads[t].clean[0];
    StackKept(s, s', n);
    DestroyLocal(s, t);
    UnheldPlace(s, t, n);
    LocalKeeps(s, s', t, n);
  }

  lemma RecycleLocal(s: State, t: Tid, data: int)
    requires Enabled(s, Recycle(t, data)) && ThreadOk(s, t)
    requires s.threads[t].clean[0] !in s.stack && s.threads[t].clean[0] != NULL
    ensures LocalMove(s, DoRecycle(s, t, data), t, s.threads[t].clean[0])
  {
  }

  lemma RecycleKeeps(s: State, t: Tid, data: int)
    requires Inv(s) && Enabled(s, Recycle(t, data))
    ensures Inv(DoRecycle(s, t, data))
  {
    var s', n := DoRecycle(s, t, data), s.threads[t].clean[0];
    StackKept(s, s', n);
    RecycleLocal(s, t, data);
    UnheldPlace(s, t, n);
    LocalKeeps(s, s', t, n);
  }

  lemma FreshLocal(s: State, t: Tid, data: int, a: Addr)
    requires Enabled(s, Fresh(t, data, a)) && ThreadOk(s, t) && a !in s.stack
    ensures LocalMove(s, DoFresh(s, t, data, a), t, a)
  {
  }

  lemma FreshKeeps(s: State, t: Tid, data: int, a: Addr)
    requires Inv(s) && Enabled(s, Fresh(t, data, a))
    ensures Inv(DoFresh(s, t, data, a))
  {
    var s' := DoFresh(s, t, data, a);
    StackKept(s, s', a);
    FreshLocal(s, t, data, a);
    UnheldPlace(s, t, a);
    LocalKeeps(s, s', t, a);
  }

  lemma DrainStack(s: State)
    requires Enabled(s, Drain) && StackOk(s)
    ensures StackOk(DoDrain(s)) && s.stack == [s.top] + DoDrain(s).stack
    ensures s.mem[s.top].place == OnStack
  {
    var s', n := DoDrain(s), s.top;
    LinkedTail(s.mem, s.top, s.stack);
    assert s.stack == [n] + s'.stack;
    assert Linked(s'.mem, s'.top, s'.stack);
  }

  lemma DrainThread(s: State, t: Tid)
    requires Enabled(s, Drain) && t in s.threads && ThreadOk(s, t)
    requires s.mem[s.top].place == OnStack
    ensures ThreadOk(DoDrain(s), t) && HeldOk(DoDrain(s), t) && ScanOk(DoDrain(s), t)
  {
    assert s.threads[t].pc.Done?;
  }

  lemma DrainKeeps(s: State)
    requires Inv(s) && Enabled(s, Drain)
    ensures Inv(DoDrain(s))
  {
    var s' := DoDrain(s);
    DrainStack(s);
    forall t | t in s.threads ensures ThreadOk(s', t) && HeldOk(s', t) && ScanOk(s', t) { DrainThread(s, t); }
    forall n | n in s'.mem ensures PlaceOk(s', n) { assert PlaceOk(s, n); }
  }

  // ----- steps that change the list of clocks -----

  /** `t` enters or leaves the list of clocks while nobody scans it. */
  ghost predicate RollMove(s: State, s': State, t: Tid) {
    && t in s.threads && t in s'.threads && Unlocked(s)
    && s'.threads == s.threads[t := s.threads[t].(pc := s'.threads[t].pc)]
    && s'.mem == s.mem && s'.stack == s.stack && s'.top == s.top && s'.clock == s.clock
    && HandOf(s.threads[t].pc) == HeldBy(s.threads[t].pc) == PendingOf(s.threads[t].pc) == NULL
    && HeldBy(s'.threads[t].pc) == NULL && !s.threads[t].pc.CleanFetch?
    && !Scanning(s'.threads[t].pc) && !s'.threads[t].pc.Decide? && !s'.threads[t].pc.Sweep?
  }

  lemma RollThread(s: State, s': State, t: Tid, u: Tid)
    requires RollMove(s, s', t) && u in s.threads
    requires ThreadOk(s, u) && HeldOk(s, u) && ScanOk(s, u)
    requires u == t ==> PcOk(s', t)
    ensures ThreadOk(s', u) && HeldOk(s', u) && ScanOk(s', u)
  {
    assert Frame(s, s', t);
    if u != t {
      OtherLists(s, s', t, u);
      OtherPc(s, s', t, u);
      assert s'.threads[u] == s.threads[u];
    }
  }

  lemma RollKeeps(s: State, s': State, t: Tid)
    requires Inv(s) && RollMove(s, s', t)
    requires ClocksOk(s') && PcOk(s', t)
    ensures Inv(s')
  {
    forall u | u in s.threads ensures ThreadOk(s', u) && HeldOk(s', u) && ScanOk(s', u) {
      RollThread(s, s', t, u);
    }
    forall n | n in s.mem ensures PlaceOk(s', n) { assert PlaceOk(s, n); }
  }

  lemma RegAppendClocks(s: State, t: Tid)
    requires CanGo(s, t) && s.threads[t].pc.RegAppend? && ClocksOk(s)
    ensures ClocksOk(GoRegister(s, t))
  {
    assert GoRegister(s, t).clocks[|s.clocks|] == t;
  }

  lemma RegAppendKeeps(s: State, t: Tid)
    requires Inv(s) && CanGo(s, t) && s.threads[t].pc.RegAppend?
    ensures Inv(GoRegister(s, t))
  {
    RegAppendClocks(s, t);
    RollKeeps(s, GoRegister(s, t), t);
  }

  lemma {:induction false} WithoutDistinct(clocks: seq<Tid>, t: Tid)
    requires Distinct(clocks)
    ensures Distinct(Without(clocks, t))
  {
    if clocks != [] {
      var rest := clocks[1..];
      WithoutDistinct(rest, t);
      if clocks[0] != t {
        forall j | 0 <= j < |Without(rest, t)| ensures Without(rest, t)[j] != clocks[0] {
          assert Without(rest, t)[j] in Without(rest, t);
        }
        var r := Without(clocks, t);
        assert r == [clocks[0]] + Without(rest, t);
        forall i, j | 0 <= i < j < |r| ensures r[i] != r[j] {
          assert r[j] == Without(rest, t)[j - 1];
        }
      }
    }
  }

  lemma DeregLeaveClocks(s: State, t: Tid)
    requires CanGo(s, t) && s.threads[t].pc.DeregLeave? && ClocksOk(s)
    ensures ClocksOk(GoDereg(s, t))
  {
    WithoutDistinct(s.clocks, t);
  }

  lemma DeregLeaveKeeps(s: State, t: Tid)
    requires Inv(s) && CanGo(s, t) && s.threads[t].pc.DeregLeave?
    ensures Inv(GoDereg(s, t))
  {
    DeregLeaveClocks(s, t);
    RollKeeps(s, GoDereg(s, t), t);
  }

  // ----- all steps -----

  lemma GoKeeps(s: State, t: Tid)
    requires Inv(s) && CanGo(s, t) && Harmless(s, Go(t))
    ensures Inv(GoStep(s, t))
  {
    var th := s.threads[t];
    match th.pc
    case Outside => OutsideKeeps(s, t);
    case RegAppend => RegAppendKeeps(s, t);
    case PushRead(_) => PushReadKeeps(s, t);
    case PushLink(_, _) => PushLinkKeeps(s, t);
    case PushCas(_, seen) => if s.top == seen { PushCasKeeps(s, t); } else { PushRetryKeeps(s, t); }
    case Pushed(_) => PushedKeeps(s, t);
    case PopTest => PopReadKeeps(s, t);
    case PopRead => PopReadKeeps(s, t);
    case PopNext(_) => PopNextKeeps(s, t);
    case PopCas(n, _) => if s.top == n { PopCasKeeps(s, t); } else { PopRetryKeeps(s, t); }
    case CleanFetch(_) => CleanFetchKeeps(s, t);
    case CleanStore(_, _) => CleanStoreKeeps(s, t);
    case ScanLock(_) => ScanLockKeeps(s, t);
    case Scan(_, i, _) => if i < |s.clocks| { ScanStepKeeps(s, t); } else { ScanEndKeeps(s, t); }
    case ScanAssign(_, _, _) => ScanAssignKeeps(s, t);
    case Decide(_, min) => if th.clock == min { DecideDeleteKeeps(s, t); } else { DecideStampKeeps(s, t); }
    case Sweep(_, min) =>
      if th.dirty != [] && s.mem[th.dirty[0]].clock < min { SweepMoveKeeps(s, t); } else { SweepEndKeeps(s, t); }
    case SweepFetch(_) => SweepFetchKeeps(s, t);
    case SweepStore(_, _) => SweepStoreKeeps(s, t);
    case Enlist(_) => EnlistKeeps(s, t);
    case DeregTest => DeregTestKeeps(s, t);
    case DeregLeave => DeregLeaveKeeps(s, t);
    case Destroy => if th.clean != [] { DestroyKeeps(s, t); } else { DestroyEndKeeps(s, t); }
    case Idle =>
    case Done =>
  }

  lemma StepKeeps(s: State, a: Action)
    requires Inv(s) && Enabled(s, a) && Harmless(s, a)
    ensures Inv(Apply(s, a))
  {
    match a
    case Go(t) => GoKeeps(s, t);
    case Recycle(t, data) => RecycleKeeps(s, t, data);
    case Fresh(t, data, n) => FreshKeeps(s, t, data, n);
    case StartPop(t) => StartPopKeeps(s, t);
    case Leave(t) => LeaveKeeps(s, t);
    case Drain => DrainKeeps(s);
  }

  lemma InitOk(workers: nat)
    ensures Inv(Init(workers))
  {
  }
}
