/** What every step of the stack and its collector keeps. */
module ReclamationInvariant {
  import opened Chains
  import opened Reclamation

  /** The node a pusher has allocated and not yet linked. */
  function HandOf(pc: PC): Addr {
    match pc
    case PushRead(n) => n
    case PushLink(n, _) => n
    case PushCas(n, _) => n
    case _ => NULL
  }

  /** The node a thread may still read although it does not own it. */
  function HeldBy(pc: PC): Addr {
    match pc
    case Pushed(n) => n
    case PopNext(n) => n
    case PopCas(n, _) => n
    case _ => NULL
  }

  /** The node a thread is handing to the collector, once its clock is fetched. */
  function PendingOf(pc: PC): Addr {
    match pc
    case CleanStore(n, _) => n
    case ScanLock(n) => n
    case Scan(n, _, _) => n
    case ScanAssign(n, _, _) => n
    case Decide(n, _) => n
    case Sweep(n, _) => n
    case SweepFetch(n) => n
    case SweepStore(n, _) => n
    case Enlist(n) => n
    case _ => NULL
  }

  predicate Registered(pc: PC) {
    !pc.Outside? && !pc.RegAppend? && !pc.Destroy? && !pc.Done?
  }

  /** `stack` is what one meets following `next` from `top`. */
  ghost predicate Linked(mem: map<Addr, Node>, top: Addr, stack: seq<Addr>) {
    && top == EntryAt(stack, 0)
    && forall i | 0 <= i < |stack| ::
         stack[i] != NULL && stack[i] in mem && mem[stack[i]].next == EntryAt(stack, i + 1)
  }

  ghost predicate StackOk(s: State) {
    && Linked(s.mem, s.top, s.stack)
    && Distinct(s.stack)
    && forall n | n in s.stack :: n in s.mem && s.mem[n].place == OnStack
  }

  ghost predicate ClocksOk(s: State) {
    && (forall t | t in s.clocks :: t in s.threads && Registered(s.threads[t].pc))
    && (forall t | t in s.threads && Registered(s.threads[t].pc) :: t in s.clocks)
    && Distinct(s.clocks)
  }

  /** The dirty list of `t`: sealed by `t`, strictly increasing in stamp, none stamped after its clock. */
  ghost predicate DirtyOk(s: State, t: Tid)
    requires t in s.threads
  {
    var q := s.threads[t].dirty;
    && (forall i | 0 <= i < |q| ::
          q[i] in s.mem && s.mem[q[i]].place == Sealed(t, s.mem[q[i]].clock)
          && s.mem[q[i]].clock <= s.threads[t].clock)
    && (forall i, j | 0 <= i < j < |q| :: s.mem[q[i]].clock < s.mem[q[j]].clock)
  }

  ghost predicate CleanOk(s: State, t: Tid)
    requires t in s.threads
  {
    var q := s.threads[t].clean;
    && Distinct(q)
    && forall i | 0 <= i < |q| :: q[i] in s.mem && s.mem[q[i]].place == Clean(t)
  }

  /** Every stamp in the dirty list of `t` is below `bound`. */
  ghost predicate DirtyBelow(s: State, t: Tid, bound: nat)
    requires t in s.threads
  {
    var q := s.threads[t].dirty;
    forall i | 0 <= i < |q| :: q[i] in s.mem && s.mem[q[i]].clock < bound
  }

  ghost predicate IsPlaced(s: State, n: Addr, place: Place) {
    n in s.mem && s.mem[n].place == place
  }

  ghost predicate PcOk(s: State, t: Tid)
    requires t in s.threads
  {
    var th := s.threads[t];
    && (!th.pc.Outside? ==> th.clock < s.clock)
    && match th.pc
       case Outside => th == Thread(Outside, 0, [], [], 0)
       case RegAppend => th.dirty == [] && th.clean == [] && th.allocs == 0
       case PushRead(n) => IsPlaced(s, n, Hand(t))
       case PushLink(n, _) => IsPlaced(s, n, Hand(t))
       case PushCas(n, seen) => IsPlaced(s, n, Hand(t)) && s.mem[n].next == seen
       case Pushed(n) => n != NULL
       case PopNext(n) => n != NULL
       case PopCas(n, _) => n != NULL
       case CleanFetch(n) => IsPlaced(s, n, Popped(t))
       case CleanStore(n, c) => IsPlaced(s, n, Sealed(t, c)) && th.clock < c < s.clock
       case ScanLock(n) => PendingFresh(s, t, n)
       case Scan(n, i, _) => PendingFresh(s, t, n) && i <= |s.clocks|
       case ScanAssign(n, i, _) => PendingFresh(s, t, n) && i < |s.clocks|
       case Decide(n, _) => n != NULL && PendingFresh(s, t, n)
       case Sweep(n, _) => PendingStamped(s, t, n)
       case SweepFetch(n) => PendingStamped(s, t, n)
       case SweepStore(n, c) => PendingStamped(s, t, n) && th.clock < c < s.clock
       case Enlist(n) => n != NULL && PendingStamped(s, t, n)
       case DeregLeave => th.dirty == []
       case Destroy => th.dirty == []
       case Done => th.dirty == [] && th.clean == []
       case _ => true
  }

  /** `clean` has stored its clock and not yet stamped its node. */
  ghost predicate PendingFresh(s: State, t: Tid, n: Addr)
    requires t in s.threads
  {
    n != NULL ==> IsPlaced(s, n, Sealed(t, s.threads[t].clock)) && DirtyBelow(s, t, s.threads[t].clock)
  }

  /** `clean` has stamped its node and not yet listed it. */
  ghost predicate PendingStamped(s: State, t: Tid, n: Addr)
    requires t in s.threads
  {
    n != NULL ==>
      && n in s.mem && s.mem[n].place == Sealed(t, s.mem[n].clock)
      && s.mem[n].clock <= s.threads[t].clock
      && DirtyBelow(s, t, s.mem[n].clock)
  }

  ghost predicate ThreadOk(s: State, t: Tid)
    requires t in s.threads
  {
    DirtyOk(s, t) && CleanOk(s, t) && PcOk(s, t)
  }

  /** A thread may read a node it does not own as long as the node was not unlinked before `since`. */
  predicate Protected(place: Place, since: nat) {
    match place
    case OnStack => true
    case Popped(_) => true
    case Sealed(_, stamp) => since < stamp
    case _ => false
  }

  ghost predicate HeldOk(s: State, t: Tid)
    requires t in s.threads
  {
    var th := s.threads[t];
    var n := HeldBy(th.pc);
    n != NULL ==>
      && n in s.mem
      && Protected(s.mem[n].place, th.clock)
      && (th.pc.PopCas? ==> s.mem[n].next == th.pc.succ)
  }

  /** The minimum a scan has found so far is no larger than any clock it has passed, except its own. */
  ghost predicate ScanOk(s: State, u: Tid)
    requires u in s.threads
  {
    match s.threads[u].pc
    case Scan(_, i, min) => PassedAtLeast(s, u, i, min)
    case ScanAssign(_, i, min) =>
      PassedAtLeast(s, u, i, min) && (i < |s.clocks| && s.clocks[i] == u ==> ClockOf(s, u) < min)
    case Decide(_, min) => HoldersAtLeast(s, u, min)
    case Sweep(_, min) => HoldersAtLeast(s, u, min)
    case _ => true
  }

  ghost predicate PassedAtLeast(s: State, u: Tid, i: nat, min: nat) {
    forall j | 0 <= j < i && j < |s.clocks| && s.clocks[j] != u :: min <= ClockOf(s, s.clocks[j])
  }

  /** Whoever may still read a node sealed by `u` has a clock of at least `min`. */
  ghost predicate HoldersAtLeast(s: State, u: Tid, min: nat) {
    forall t | t in s.threads ::
      var n := HeldBy(s.threads[t].pc);
      n != NULL && n in s.mem && s.mem[n].place.Sealed? && s.mem[n].place.owner == u ==>
        min <= s.threads[t].clock
  }

  /** Every live node is where its place says. */
  ghost predicate PlaceOk(s: State, n: Addr)
    requires n in s.mem
  {
    match s.mem[n].place
    case OnStack => n in s.stack
    case Hand(t) => t in s.threads && HandOf(s.threads[t].pc) == n
    case Popped(t) => t in s.threads && s.threads[t].pc == CleanFetch(n)
    case Sealed(t, _) => t in s.threads && (PendingOf(s.threads[t].pc) == n || n in s.threads[t].dirty)
    case Clean(t) => t in s.threads && n in s.threads[t].clean
  }

  ghost predicate Inv(s: State) {
    && NULL !in s.mem
    && StackOk(s)
    && ClocksOk(s)
    && (forall t | t in s.threads :: ThreadOk(s, t))
    && (forall t | t in s.threads :: HeldOk(s, t))
    && (forall t | t in s.threads :: ScanOk(s, t))
    && (forall n | n in s.mem :: PlaceOk(s, n))
  }

  /**
    `if(*(*it) < min) min = *(*it);` reads the clock twice.  The second read is
    harmless when it does not raise the minimum, or when the scan has passed no
    third thread.
   */
  predicate Harmless(s: State, a: Action) {
    a.Go? && a.t in s.threads && s.threads[a.t].pc.ScanAssign? && s.threads[a.t].pc.i < |s.clocks| ==>
      var pc := s.threads[a.t].pc;
      || ClockOf(s, s.clocks[pc.i]) <= pc.min
      || forall j | 0 <= j < pc.i :: s.clocks[j] == a.t
  }
}
