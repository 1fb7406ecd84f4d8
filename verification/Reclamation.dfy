/**
  The lock-free stack and its epoch garbage collector, run by any number of
  worker threads.  Every read or write of a shared variable is one step, so a
  run is a sequence of `Action`s that interleaves the threads arbitrarily.
  Memory is sequentially consistent.

  Shared: the collector's clock and list of registered clocks, the first node
  of the stack (`top`, the `next` field of the dummy head), and the heap.
  The fields `stack`, `place` and `deleted` are history: no step reads them to
  decide what to do.
 */
module Reclamation {
  import opened ThreadIds

  type Addr = nat
  type Tid = nat

  const NULL: Addr := 0
  const UINT64_MAX: nat := 0xFFFF_FFFF_FFFF_FFFF
  const LISTSIZE: nat := 1024 * 1024
  const DIRTY_THRESHOLD: nat := 10

  /** Who is responsible for a live node. */
  datatype Place =
    | OnStack
    | Hand(owner: Tid)                // allocated, not pushed yet
    | Popped(owner: Tid)              // popped, clock not fetched yet
    | Sealed(owner: Tid, stamp: nat)  // popped, and the clock has passed `stamp`
    | Clean(owner: Tid)               // ready for reuse

  datatype Node = Node(data: int, next: Addr, clock: nat, place: Place)

  /** The next step of a thread.  `n` is NULL in the steps that `dereg` shares with `clean`. */
  datatype PC =
    | Outside
    | RegAppend
    | Idle
    | PushRead(n: Addr)
    | PushLink(n: Addr, seen: Addr)
    | PushCas(n: Addr, seen: Addr)
    | Pushed(n: Addr)
    | PopTest
    | PopRead
    | PopNext(n: Addr)
    | PopCas(n: Addr, succ: Addr)
    | CleanFetch(n: Addr)
    | CleanStore(n: Addr, c: nat)
    | ScanLock(n: Addr)
    | Scan(n: Addr, i: nat, min: nat)
    | ScanAssign(n: Addr, i: nat, min: nat)
    | Decide(n: Addr, min: nat)
    | Sweep(n: Addr, min: nat)
    | SweepFetch(n: Addr)
    | SweepStore(n: Addr, c: nat)
    | Enlist(n: Addr)
    | DeregTest
    | DeregLeave
    | Destroy
    | Done

  datatype Thread = Thread(pc: PC, clock: nat, dirty: seq<Addr>, clean: seq<Addr>, allocs: nat)

  datatype State = State(
    clock: nat,
    clocks: seq<Tid>,
    top: Addr,
    mem: map<Addr, Node>,
    threads: map<Tid, Thread>,
    totalAllocs: nat,
    stack: seq<Addr>,
    deleted: nat)

  function Init(workers: nat): State {
    State(1, [], NULL, map[], map t | t in Ids(workers) :: Thread(Outside, 0, [], [], 0), 0, [], 0)
  }

  datatype Action =
    | Go(t: Tid)                         // the only thing thread `t` can do next
    | Recycle(t: Tid, data: int)         // push, reusing a clean node
    | Fresh(t: Tid, data: int, a: Addr)  // push, with a node from the heap
    | StartPop(t: Tid)
    | Leave(t: Tid)                      // the stop time has passed
    | Drain                              // one pop-and-delete by main after the joins

  // ----- helpers -----

  predicate Scanning(pc: PC) {
    pc.Scan? || pc.ScanAssign?
  }

  /** The writer side of the collector's lock is free to take. */
  predicate Unlocked(s: State) {
    forall u | u in s.threads :: !Scanning(s.threads[u].pc)
  }

  function ClockOf(s: State, t: Tid): nat {
    if t in s.threads then s.threads[t].clock else 0
  }

  function Without(clocks: seq<Tid>, t: Tid): (r: seq<Tid>)
    ensures forall u :: u in r <==> u in clocks && u != t
  {
    if clocks == [] then []
    else if clocks[0] == t then Without(clocks[1..], t)
    else [clocks[0]] + Without(clocks[1..], t)
  }

  function At(s: State, t: Tid, pc: PC): State
    requires t in s.threads
  {
    s.(threads := s.threads[t := s.threads[t].(pc := pc)])
  }

  function Put(s: State, a: Addr, place: Place): State {
    if a in s.mem then s.(mem := s.mem[a := s.mem[a].(place := place)]) else s
  }

  function Delete(s: State, a: Addr): State {
    s.(mem := s.mem - {a}, deleted := s.deleted + 1)
  }

  function Tail(q: seq<Addr>): seq<Addr> {
    if q == [] then [] else q[1..]
  }

  /** The nodes whose fields the next step of `t` reads, writes or gives back to the heap. */
  function Touches(s: State, t: Tid): set<Addr>
    requires t in s.threads
  {
    var th := s.threads[t];
    match th.pc
    case PushLink(n, _) => {n}
    case Pushed(n) => {n}
    case PopNext(n) => {n}
    case Decide(n, _) => {n}
    case Sweep(_, _) => if th.dirty != [] then {th.dirty[0]} else {}
    case Destroy => if th.clean != [] then {th.clean[0]} else {}
    case _ => {}
  }

  predicate CanGo(s: State, t: Tid) {
    && t in s.threads
    && Touches(s, t) <= s.mem.Keys
    && match s.threads[t].pc
       case Outside | CleanFetch(_) | SweepFetch(_) => s.clock < UINT64_MAX
       case RegAppend | DeregLeave => Unlocked(s)
       case ScanAssign(_, i, _) => i < |s.clocks|
       case Enlist(_) => |s.threads[t].dirty| < LISTSIZE
       case Idle | Done => false
       case _ => true
  }

  // ----- the steps -----

  function GoRegister(s: State, t: Tid): State
    requires CanGo(s, t)
  {
    var th := s.threads[t];
    match th.pc
    case Outside =>
      s.(clock := s.clock + 1, threads := s.threads[t := th.(pc := RegAppend, clock := s.clock)])
    case RegAppend =>
      At(s, t, Idle).(clocks := s.clocks + [t])
    case _ => s
  }

  function GoPush(s: State, t: Tid): State
    requires CanGo(s, t)
  {
    match s.threads[t].pc
    case PushRead(n) => At(s, t, PushLink(n, s.top))
    case PushLink(n, seen) =>
      At(s, t, PushCas(n, seen)).(mem := s.mem[n := s.mem[n].(next := seen)])
    case PushCas(n, seen) =>
      if s.top == seen
      then Put(At(s, t, Pushed(n)).(top := n, stack := [n] + s.stack), n, OnStack)
      else At(s, t, PushRead(n))
    case Pushed(n) => At(s, t, Idle)
    case _ => s
  }

  function GoPop(s: State, t: Tid): State
    requires CanGo(s, t)
  {
    match s.threads[t].pc
    case PopTest => At(s, t, if s.top == NULL then Idle else PopRead)
    case PopRead => At(s, t, if s.top == NULL then PopTest else PopNext(s.top))
    case PopNext(n) => At(s, t, PopCas(n, s.mem[n].next))
    case PopCas(n, succ) =>
      if s.top == n
      then Put(At(s, t, CleanFetch(n)).(top := succ, stack := Tail(s.stack)), n, Popped(t))
      else At(s, t, PopRead)
    case _ => s
  }

  function GoScan(s: State, t: Tid): State
    requires CanGo(s, t)
  {
    match s.threads[t].pc
    case ScanLock(n) => At(s, t, Scan(n, 0, UINT64_MAX))
    case Scan(n, i, min) =>
      if i < |s.clocks| then
        At(s, t, if ClockOf(s, s.clocks[i]) < min then ScanAssign(n, i, min) else Scan(n, i + 1, min))
      else
        At(s, t, if n == NULL then Sweep(n, min) else Decide(n, min))
    case ScanAssign(n, i, min) => At(s, t, Scan(n, i + 1, ClockOf(s, s.clocks[i])))
    case _ => s
  }

  function GoClean(s: State, t: Tid): State
    requires CanGo(s, t)
  {
    var th := s.threads[t];
    match th.pc
    case CleanFetch(n) =>
      Put(At(s, t, CleanStore(n, s.clock)).(clock := s.clock + 1), n, Sealed(t, s.clock))
    case CleanStore(n, c) =>
      s.(threads := s.threads[t := th.(pc := ScanLock(n), clock := c)])
    case Decide(n, min) =>
      if th.clock == min then Delete(At(s, t, Idle), n)
      else
        At(s, t, if |th.dirty| > DIRTY_THRESHOLD then Sweep(n, min) else Enlist(n))
        .(mem := s.mem[n := s.mem[n].(clock := th.clock)])
    case Enlist(n) =>
      s.(threads := s.threads[t := th.(pc := Idle, dirty := th.dirty + [n])])
    case _ => s
  }

  function GoSweep(s: State, t: Tid): State
    requires CanGo(s, t)
  {
    var th := s.threads[t];
    match th.pc
    case Sweep(n, min) =>
      if th.dirty != [] && s.mem[th.dirty[0]].clock < min then
        var d := th.dirty[0];
        if |th.clean| == LISTSIZE then
          Delete(s.(threads := s.threads[t := th.(dirty := th.dirty[1..])]), d)
        else
          Put(s.(threads := s.threads[t := th.(dirty := th.dirty[1..], clean := [d] + th.clean)]), d, Clean(t))
      else At(s, t, SweepFetch(n))
    case SweepFetch(n) => At(s, t, SweepStore(n, s.clock)).(clock := s.clock + 1)
    case SweepStore(n, c) =>
      s.(threads := s.threads[t := th.(pc := if n == NULL then DeregTest else Enlist(n), clock := c)])
    case _ => s
  }

  function GoDereg(s: State, t: Tid): State
    requires CanGo(s, t)
  {
    var th := s.threads[t];
    match th.pc
    case DeregTest => At(s, t, if th.dirty == [] then DeregLeave else ScanLock(NULL))
    case DeregLeave =>
      At(s, t, Destroy).(clocks := Without(s.clocks, t), totalAllocs := s.totalAllocs + th.allocs)
    case Destroy =>
      if th.clean != [] then
        Delete(s.(threads := s.threads[t := th.(clean := th.clean[1..])]), th.clean[0])
      else At(s, t, Done)
    case _ => s
  }

  function GoStep(s: State, t: Tid): State
    requires CanGo(s, t)
  {
    match s.threads[t].pc
    case Outside | RegAppend => GoRegister(s, t)
    case PushRead(_) | PushLink(_, _) | PushCas(_, _) | Pushed(_) => GoPush(s, t)
    case PopTest | PopRead | PopNext(_) | PopCas(_, _) => GoPop(s, t)
    case ScanLock(_) | Scan(_, _, _) | ScanAssign(_, _, _) => GoScan(s, t)
    case CleanFetch(_) | CleanStore(_, _) | Decide(_, _) | Enlist(_) => GoClean(s, t)
    case Sweep(_, _) | SweepFetch(_) | SweepStore(_, _) => GoSweep(s, t)
    case DeregTest | DeregLeave | Destroy => GoDereg(s, t)
    case Idle | Done => s
  }

  predicate IsIdle(s: State, t: Tid) {
    t in s.threads && s.threads[t].pc.Idle?
  }

  predicate AllDone(s: State) {
    forall t | t in s.threads :: s.threads[t].pc.Done?
  }

  predicate Enabled(s: State, a: Action) {
    match a
    case Go(t) => CanGo(s, t)
    case Recycle(t, _) => IsIdle(s, t) && s.threads[t].clean != [] && s.threads[t].clean[0] in s.mem
    case Fresh(t, _, a) => IsIdle(s, t) && s.threads[t].clean == [] && a != NULL && a !in s.mem
    case StartPop(t) => IsIdle(s, t)
    case Leave(t) => IsIdle(s, t)
    case Drain => AllDone(s) && s.top != NULL && s.top in s.mem
  }

  function DoRecycle(s: State, t: Tid, data: int): State
    requires Enabled(s, Recycle(t, data))
  {
    var th := s.threads[t];
    var n := th.clean[0];
    s.(mem := s.mem[n := s.mem[n].(data := data, next := NULL, place := Hand(t))],
       threads := s.threads[t := th.(pc := PushRead(n), clean := th.clean[1..])])
  }

  function DoFresh(s: State, t: Tid, data: int, a: Addr): State
    requires Enabled(s, Fresh(t, data, a))
  {
    var th := s.threads[t];
    s.(mem := s.mem[a := Node(data, NULL, 0, Hand(t))],
       threads := s.threads[t := th.(pc := PushRead(a), allocs := th.allocs + 1)])
  }

  function DoDrain(s: State): State
    requires Enabled(s, Drain)
  {
    Delete(s.(top := s.mem[s.top].next, stack := Tail(s.stack)), s.top)
  }

  function Apply(s: State, a: Action): State
    requires Enabled(s, a)
  {
    match a
    case Go(t) => GoStep(s, t)
    case Recycle(t, data) => DoRecycle(s, t, data)
    case Fresh(t, data, a) => DoFresh(s, t, data, a)
    case StartPop(t) => At(s, t, PopTest)
    case Leave(t) => At(s, t, DeregTest)
    case Drain => DoDrain(s)
  }

  // ----- runs -----

  predicate Legal(s: State, run: seq<Action>)
    decreases |run|
  {
    run == [] || (Enabled(s, run[0]) && Legal(Apply(s, run[0]), run[1..]))
  }

  function Exec(s: State, run: seq<Action>): State
    requires Legal(s, run)
    decreases |run|
  {
    if run == [] then s else Exec(Apply(s, run[0]), run[1..])
  }
}
