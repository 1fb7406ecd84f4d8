/**
  The elimination stack: a lock-free stack whose unlucky pushes and pops try to
  meet in an exchanger slot.  Any number of threads; each read, write and CAS of
  the stack or of a slot is a step.  Nodes are fresh for each push and are not
  reused after a pop.  The fields `stack`, `out` and `place` are history.
 */
module Elimination {
  import opened ThreadIds
  import Ex = Exchanger

  type Addr = nat
  type Tid = nat

  const NULL: Addr := 0

  datatype Place = OnStack | InHand(t: Tid) | Out

  datatype Node = Node(next: Addr, place: Place)

  datatype PC =
    | Idle
    | PushRead
    | PushLink(seen: Addr)
    | PushCas(seen: Addr)
    | PopFirst
    | PopRead
    | PopNext(n: Addr)
    | PopCas(n: Addr, succ: Addr)
    | Visit
    | Visiting(slot: nat, id: Ex.CallId)

  /** `n` is the node in hand; a pop has none. */
  datatype Thread = Thread(pc: PC, popping: bool, n: Addr)

  datatype State = State(
    top: Addr,
    mem: map<Addr, Node>,
    slots: seq<Ex.State>,
    threads: map<Tid, Thread>,
    stack: seq<Addr>,
    out: set<Addr>)

  function Init(workers: nat, maxrange: nat): State {
    State(NULL, map[], seq(maxrange, _ => Ex.Init()),
          map t | t in Ids(workers) :: Thread(Idle, false, NULL), [], {})
  }

  datatype Action =
    | StartPush(t: Tid, a: Addr)
    | StartPop(t: Tid)
    | Go(t: Tid)
    | Draw(t: Tid, slot: nat, id: Ex.CallId)  // visit a random slot
    | GiveUp(t: Tid)                          // the exchange looks at the clock and times out

  predicate Knows(s: State, t: Tid, pc: PC) {
    pc.Visiting? ==> pc.slot < |s.slots| && pc.id in s.slots[pc.slot].calls
  }

  predicate CanGo(s: State, t: Tid) {
    && t in s.threads
    && Knows(s, t, s.threads[t].pc)
    && match s.threads[t].pc
       case Idle | Visit => false
       case PushLink(_) => s.threads[t].n in s.mem
       case PopNext(n) => n in s.mem
       case _ => true
  }

  predicate Enabled(s: State, a: Action) {
    && a.t in s.threads
    && match a
       case StartPush(t, n) => s.threads[t].pc.Idle? && n != NULL && n !in s.mem
       case StartPop(t) => s.threads[t].pc.Idle?
       case Go(t) => CanGo(s, t)
       case Draw(t, slot, id) => s.threads[t].pc.Visit? && slot < |s.slots| && id !in s.slots[slot].calls
       case GiveUp(t) =>
         && s.threads[t].pc.Visiting? && Knows(s, t, s.threads[t].pc)
         && Ex.Enabled(s.slots[s.threads[t].pc.slot], Ex.GiveUp(s.threads[t].pc.id))
  }

  function At(s: State, t: Tid, pc: PC): State
    requires t in s.threads
  {
    s.(threads := s.threads[t := s.threads[t].(pc := pc)])
  }

  function Put(s: State, a: Addr, place: Place): State {
    if a in s.mem then s.(mem := s.mem[a := s.mem[a].(place := place)]) else s
  }

  function Finish(s: State, t: Tid): State
    requires t in s.threads
  {
    s.(threads := s.threads[t := Thread(Idle, false, NULL)])
  }

  /** A pop returns `n` to its caller. */
  function Take(s: State, t: Tid, n: Addr): State
    requires t in s.threads
  {
    Put(Finish(s, t), n, Out).(out := s.out + {n})
  }

  /** What is in the hand of `t`: inside an exchange, what the exchange will leave it with. */
  function HandOf(s: State, t: Tid): Addr
    requires t in s.threads
  {
    var th := s.threads[t];
    if th.pc.Visiting? && Knows(s, t, th.pc) then Ex.Holding(s.slots[th.pc.slot], th.pc.id) else th.n
  }

  predicate Trades(s: State, t: Tid) {
    && t in s.threads && s.threads[t].pc.Visiting? && Knows(s, t, s.threads[t].pc)
    && Ex.IsTrade(s.slots[s.threads[t].pc.slot], Ex.Go(s.threads[t].pc.id))
  }

  /** The thread whose item is waiting in the slot that `t` visits. */
  function PartnerOf(s: State, t: Tid): Tid
    requires Trades(s, t)
  {
    var e := s.slots[s.threads[t].pc.slot];
    e.calls[e.owner.value].client
  }

  function PutBoth(s: State, t: Tid, u: Tid, s': State): State
    requires t in s.threads && u in s.threads
  {
    Put(Put(s', HandOf(s, t), InHand(u)), HandOf(s, u), InHand(t))
  }

  function GoVisit(s: State, t: Tid): State
    requires CanGo(s, t) && s.threads[t].pc.Visiting?
  {
    var th := s.threads[t];
    var e := s.slots[th.pc.slot];
    var call := e.calls[th.pc.id];
    if call.pc.Returned? then AfterVisit(s, t, call.pc.other)
    else if call.pc.TimedOut? then AfterVisit(s, t, th.n)
    else
      var s' := s.(slots := s.slots[th.pc.slot := Ex.Apply(e, Ex.Go(th.pc.id))]);
      if Trades(s, t) && PartnerOf(s, t) in s.threads
      then PutBoth(s, t, PartnerOf(s, t), s')
      else s'
  }

  function AfterVisit(s: State, t: Tid, r: Addr): State
    requires t in s.threads
  {
    if s.threads[t].popping then
      if r != NULL then Take(s, t, r) else At(s, t, PopRead)
    else
      if r == NULL then Finish(s, t) else s.(threads := s.threads[t := Thread(PushRead, false, r)])
  }

  function GoStep(s: State, t: Tid): State
    requires CanGo(s, t)
  {
    var th := s.threads[t];
    match th.pc
    case PushRead => At(s, t, PushLink(s.top))
    case PushLink(seen) => At(s, t, PushCas(seen)).(mem := s.mem[th.n := s.mem[th.n].(next := seen)])
    case PushCas(seen) =>
      if s.top == seen
      then Put(Finish(s, t), th.n, OnStack).(top := th.n, stack := [th.n] + s.stack)
      else At(s, t, Visit)
    case PopFirst => if s.top == NULL then Finish(s, t) else At(s, t, PopRead)
    case PopRead => At(s, t, if s.top == NULL then Visit else PopNext(s.top))
    case PopNext(n) => At(s, t, PopCas(n, s.mem[n].next))
    case PopCas(n, succ) =>
      if s.top == n
      then Take(s, t, n).(top := succ, stack := if s.stack == [] then [] else s.stack[1..])
      else At(s, t, PopRead)
    case Visiting(_, _) => GoVisit(s, t)
    case Idle => s
    case Visit => s
  }

  function Apply(s: State, a: Action): State
    requires Enabled(s, a)
  {
    match a
    case StartPush(t, n) =>
      s.(threads := s.threads[t := Thread(PushRead, false, n)], mem := s.mem[n := Node(NULL, InHand(t))])
    case StartPop(t) => s.(threads := s.threads[t := Thread(PopFirst, true, NULL)])
    case Go(t) => GoStep(s, t)
    case Draw(t, slot, id) =>
      At(s, t, Visiting(slot, id))
      .(slots := s.slots[slot := Ex.Apply(s.slots[slot], Ex.Begin(id, t, s.threads[t].n))])
    case GiveUp(t) =>
      var pc := s.threads[t].pc;
      s.(slots := s.slots[pc.slot := Ex.Apply(s.slots[pc.slot], Ex.GiveUp(pc.id))])
  }
}
