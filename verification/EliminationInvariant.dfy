/** What every step of the elimination stack keeps. */
module EliminationInvariant {
  import opened Chains
  import opened Elimination
  import opened Options
  import Ex = Exchanger

  ghost predicate Linked(mem: map<Addr, Node>, top: Addr, stack: seq<Addr>) {
    && top == EntryAt(stack, 0)
    && forall i | 0 <= i < |stack| ::
         stack[i] != NULL && stack[i] in mem && mem[stack[i]].next == EntryAt(stack, i + 1)
  }

  /** The exchanger calls and the threads that make them agree. */
  ghost predicate CallerOk(s: State, t: Tid)
    requires t in s.threads
  {
    var th := s.threads[t];
    th.pc.Visiting? ==>
      && th.pc.slot < |s.slots| && th.pc.id in s.slots[th.pc.slot].calls
      && s.slots[th.pc.slot].calls[th.pc.id].client == t
      && s.slots[th.pc.slot].calls[th.pc.id].item == th.n
  }

  ghost predicate SlotOk(s: State, k: nat)
    requires k < |s.slots|
  {
    && Ex.Inv(s.slots[k])
    && forall id | id in s.slots[k].calls && !Ex.Finished(s.slots[k].calls[id].pc) ::
         var t := s.slots[k].calls[id].client;
         t in s.threads && s.threads[t].pc == Visiting(k, id)
  }

  ghost predicate PcOk(s: State, t: Tid)
    requires t in s.threads
  {
    var th := s.threads[t];
    && (th.popping ==> th.n == NULL)
    && match th.pc
       case Idle => !th.popping && th.n == NULL
       case PushRead | PushLink(_) => !th.popping && th.n != NULL
       case PushCas(seen) => !th.popping && th.n != NULL && (th.n in s.mem ==> s.mem[th.n].next == seen)
       case PopFirst | PopRead => th.popping
       case PopNext(n) => th.popping && n != NULL && HeldOk(s, n)
       case PopCas(n, succ) => th.popping && n != NULL && HeldOk(s, n) && s.mem[n].next == succ
       case Visit => th.popping || th.n != NULL
       case Visiting(_, _) => th.popping || th.n != NULL
  }

  /** A node that a pop has read off the stack is on the stack still, or has left it for good. */
  predicate HeldOk(s: State, n: Addr) {
    n in s.mem && (s.mem[n].place.OnStack? || s.mem[n].place.Out?)
  }

  ghost predicate StackOk(s: State) {
    && Linked(s.mem, s.top, s.stack)
    && Distinct(s.stack)
    && (forall n | n in s.stack :: n in s.mem && s.mem[n].place == OnStack)
    && (forall n | n in s.out :: n in s.mem && s.mem[n].place == Out)
  }

  ghost predicate HandOk(s: State, t: Tid)
    requires t in s.threads
  {
    var h := HandOf(s, t);
    h != NULL ==> h in s.mem && s.mem[h].place == InHand(t)
  }

  ghost predicate PlaceOk(s: State, n: Addr)
    requires n in s.mem
  {
    match s.mem[n].place
    case OnStack => n in s.stack
    case InHand(t) => t in s.threads && HandOf(s, t) == n
    case Out => n in s.out
  }

  ghost predicate Inv(s: State) {
    && NULL !in s.mem
    && StackOk(s)
    && (forall k | 0 <= k < |s.slots| :: SlotOk(s, k))
    && (forall t | t in s.threads :: CallerOk(s, t))
    && (forall t | t in s.threads :: PcOk(s, t))
    && (forall t | t in s.threads :: HandOk(s, t))
    && (forall n | n in s.mem :: PlaceOk(s, n))
  }

  lemma InitOk(workers: nat, maxrange: nat)
    ensures Inv(Init(workers, maxrange))
  {
    Ex.InitOk();
  }

  // ----- frames -----

  /** `t` moves on; the exchanger and the other threads are as before. */
  ghost predicate SameSlots(s: State, s': State, t: Tid) {
    && t in s.threads && t in s'.threads
    && s'.threads == s.threads[t := s'.threads[t]]
    && s'.slots == s.slots
  }

  lemma OtherHands(s: State, s': State, t: Tid, u: Tid)
    requires SameSlots(s, s', t) && u in s.threads && u != t
    ensures s'.threads[u] == s.threads[u] && HandOf(s', u) == HandOf(s, u)
  {
  }

  /** Only finished calls and calls of threads inside an exchange may be left behind. */
  lemma SlotsKept(s: State, s': State, t: Tid)
    requires SameSlots(s, s', t)
    requires forall k | 0 <= k < |s.slots| :: SlotOk(s, k)
    requires forall u | u in s.threads :: CallerOk(s, u)
    requires !s'.threads[t].pc.Visiting?
    requires s.threads[t].pc.Visiting? ==>
               && CallerOk(s, t)
               && Ex.Finished(s.slots[s.threads[t].pc.slot].calls[s.threads[t].pc.id].pc)
    ensures forall k | 0 <= k < |s'.slots| :: SlotOk(s', k)
    ensures forall u | u in s'.threads :: CallerOk(s', u)
  {
    forall u | u in s'.threads ensures CallerOk(s', u) {
      if u != t { assert s'.threads[u] == s.threads[u]; assert CallerOk(s, u); }
    }
    forall k | 0 <= k < |s'.slots| ensures SlotOk(s', k) { assert SlotOk(s, k); }
  }

  /** The step of `t` changes neither the heap nor anybody's hand. */
  lemma QuietKeeps(s: State, s': State, t: Tid)
    requires Inv(s) && SameSlots(s, s', t)
    requires s' == s.(threads := s'.threads)
    requires !s'.threads[t].pc.Visiting?
    requires s.threads[t].pc.Visiting? ==>
               Ex.Finished(s.slots[s.threads[t].pc.slot].calls[s.threads[t].pc.id].pc)
    requires HandOf(s', t) == HandOf(s, t) && PcOk(s', t)
    ensures Inv(s')
  {
    SlotsKept(s, s', t);
    forall u | u in s'.threads ensures PcOk(s', u) && HandOk(s', u) && HandOf(s', u) == HandOf(s, u) {
      if u != t { OtherHands(s, s', t, u); }
      assert PcOk(s, u) && HandOk(s, u);
    }
    forall n | n in s'.mem ensures PlaceOk(s', n) { assert PlaceOk(s, n); }
  }

  /** The step of `t` changes node `n` only, which nobody else has in hand. */
  ghost predicate NodeMove(s: State, s': State, t: Tid, n: Addr) {
    && SameSlots(s, s', t) && n != NULL
    && !s'.threads[t].pc.Visiting?
    && (s.threads[t].pc.Visiting? ==>
          Knows(s, t, s.threads[t].pc)
          && Ex.Finished(s.slots[s.threads[t].pc.slot].calls[s.threads[t].pc.id].pc))
    && (forall m | m != n :: m in s.mem <==> m in s'.mem)
    && (forall m | m in s.mem && m != n :: s'.mem[m] == s.mem[m])
    && (n in s.mem ==> s.mem[n].place == OnStack || s.mem[n].place == InHand(t))
    && n in s'.mem
    && HandOf(s, t) in {NULL, n}
  }

  lemma NodeKeeps(s: State, s': State, t: Tid, n: Addr)
    requires Inv(s) && NodeMove(s, s', t, n)
    requires StackOk(s') && PcOk(s', t) && HandOk(s', t) && PlaceOk(s', n)
    requires forall m | m in s.stack && m != n :: m in s'.stack
    requires forall m | m in s.out :: m in s'.out
    requires n in s.mem ==> HeldOk(s', n) || s.mem[n].place == InHand(t)
    requires n in s.mem && s.mem[n].place == OnStack ==> s'.mem[n].next == s.mem[n].next
    ensures Inv(s')
  {
    SlotsKept(s, s', t);
    forall u | u in s'.threads && u != t
      ensures PcOk(s', u) && HandOk(s', u)
    {
      OtherHands(s, s', t, u);
      assert PcOk(s, u) && HandOk(s, u);
      OtherPc(s, s', t, n, u);
    }
    forall m | m in s'.mem && m != n ensures PlaceOk(s', m) {
      assert PlaceOk(s, m);
      if s.mem[m].place.InHand? && s.mem[m].place.t != t { OtherHands(s, s', t, s.mem[m].place.t); }
    }
  }

  lemma OtherPc(s: State, s': State, t: Tid, n: Addr, u: Tid)
    requires NodeMove(s, s', t, n) && u in s.threads && u != t
    requires PcOk(s, u) && HandOk(s, u)
    requires n in s.mem ==> HeldOk(s', n) || s.mem[n].place == InHand(t)
    requires n in s.mem && s.mem[n].place == OnStack ==> s'.mem[n].next == s.mem[n].next
    requires n !in s.mem ==> HandOf(s, u) != n
    ensures PcOk(s', u)
  {
    OtherHands(s, s', t, u);
  }

  // ----- the stack steps -----

  lemma PushLinkKeeps(s: State, t: Tid)
    requires Inv(s) && CanGo(s, t) && s.threads[t].pc.PushLink?
    ensures Inv(GoStep(s, t))
  {
    var s', n := GoStep(s, t), s.threads[t].n;
    assert PcOk(s, t) && HandOk(s, t);
    assert n !in s.stack && n !in s.out;
    NodeKeeps(s, s', t, n);
  }

  lemma PushCasStack(s: State, t: Tid)
    requires CanGo(s, t) && s.threads[t].pc.PushCas? && s.threads[t].pc.seen == s.top
    requires StackOk(s) && PcOk(s, t) && HandOk(s, t)
    ensures s.threads[t].n != NULL && s.threads[t].n in s.mem && s.threads[t].n !in s.stack
    ensures StackOk(GoStep(s, t))
  {
    var s', n := GoStep(s, t), s.threads[t].n;
    assert HandOf(s, t) == n;
    assert n !in s.stack && n !in s.out;
    forall i | 0 <= i < |s.stack| ensures s'.stack[i + 1] == s.stack[i] {}
    assert Linked(s'.mem, s'.top, s'.stack);
  }

  lemma PushCasKeeps(s: State, t: Tid)
    requires Inv(s) && CanGo(s, t) && s.threads[t].pc.PushCas? && s.threads[t].pc.seen == s.top
    ensures Inv(GoStep(s, t))
  {
    var s', n := GoStep(s, t), s.threads[t].n;
    assert PcOk(s, t) && HandOk(s, t);
    PushCasStack(s, t);
    NodeKeeps(s, s', t, n);
  }

  lemma LinkedTail(mem: map<Addr, Node>, top: Addr, stack: seq<Addr>)
    requires stack != [] && Linked(mem, top, stack)
    ensures top in mem && Linked(mem, mem[top].next, stack[1..])
  {
    var rest := stack[1..];
    assert mem[stack[0]].next == EntryAt(stack, 1);
    forall i | 0 <= i < |rest|
      ensures rest[i] != NULL && rest[i] in mem && mem[rest[i]].next == EntryAt(rest, i + 1)
    {
      assert rest[i] == stack[i + 1];
    }
  }

  lemma PopCasStack(s: State, t: Tid)
    requires CanGo(s, t) && s.threads[t].pc.PopCas? && s.threads[t].pc.n == s.top
    requires StackOk(s) && PcOk(s, t)
    ensures s.stack != [] && s.stack[0] == s.top && s.top in s.mem && s.mem[s.top].place == OnStack
    ensures s.threads[t].pc.succ == EntryAt(s.stack, 1)
    ensures StackOk(GoStep(s, t))
  {
    var s', n := GoStep(s, t), s.threads[t].pc.n;
    assert s.stack[0] == n;
    DistinctTail(s.stack);
    hide Distinct;
    LinkedTail(s.mem, s.top, s.stack);
    assert s.mem[s.stack[0]].next == EntryAt(s.stack, 1);
    assert Linked(s'.mem, s'.top, s'.stack);
  }

  lemma PopCasKeeps(s: State, t: Tid)
    requires Inv(s) && CanGo(s, t) && s.threads[t].pc.PopCas? && s.threads[t].pc.n == s.top
    ensures Inv(GoStep(s, t))
  {
    var s', n := GoStep(s, t), s.threads[t].pc.n;
    assert PcOk(s, t) && HandOk(s, t);
    PopCasStack(s, t);
    NodeKeeps(s, s', t, n);
  }

  lemma StartPushKeeps(s: State, t: Tid, n: Addr)
    requires Inv(s) && Enabled(s, StartPush(t, n))
    ensures Inv(Apply(s, StartPush(t, n)))
  {
    var s' := Apply(s, StartPush(t, n));
    assert PcOk(s, t);
    assert n !in s.stack && n !in s.out;
    NodeKeeps(s, s', t, n);
  }

  lemma QuietGoKeeps(s: State, t: Tid)
    requires Inv(s) && CanGo(s, t)
    requires var pc := s.threads[t].pc;
             || pc.PushRead? || pc.PopFirst? || pc.PopRead? || pc.PopNext?
             || (pc.PushCas? && pc.seen != s.top) || (pc.PopCas? && pc.n != s.top)
    ensures Inv(GoStep(s, t))
  {
    assert PcOk(s, t);
    QuietKeeps(s, GoStep(s, t), t);
  }

  lemma StartPopKeeps(s: State, t: Tid)
    requires Inv(s) && Enabled(s, StartPop(t))
    ensures Inv(Apply(s, StartPop(t)))
  {
    assert PcOk(s, t);
    QuietKeeps(s, Apply(s, StartPop(t)), t);
  }

  // ----- leaving an exchange -----

  lemma AfterVisitKeeps(s: State, t: Tid)
    requires Inv(s) && CanGo(s, t) && s.threads[t].pc.Visiting?
    requires Ex.Finished(s.slots[s.threads[t].pc.slot].calls[s.threads[t].pc.id].pc)
    ensures Inv(GoStep(s, t))
  {
    var s' := GoStep(s, t);
    var r := HandOf(s, t);
    assert PcOk(s, t) && HandOk(s, t) && CallerOk(s, t) && SlotOk(s, s.threads[t].pc.slot);
    if s.threads[t].popping && r != NULL {
      NodeKeeps(s, s', t, r);
    } else {
      QuietKeeps(s, s', t);
    }
  }

  // ----- steps of the exchanger -----

  /** The exchanger call of `t` takes one step in slot `k`; the threads stay where they are. */
  ghost predicate SlotMove(s: State, s': State, t: Tid, a: Ex.Action) {
    && t in s.threads && s.threads[t].pc.Visiting?
    && var k := s.threads[t].pc.slot;
       && k < |s.slots| && a.id == s.threads[t].pc.id && !a.Begin?
       && Ex.Enabled(s.slots[k], a)
       && s'.threads == s.threads
       && s'.slots == s.slots[k := Ex.Apply(s.slots[k], a)]
       && s'.top == s.top && s'.stack == s.stack && s'.out == s.out
  }

  lemma SlotMoveCallers(s: State, s': State, t: Tid, a: Ex.Action)
    requires SlotMove(s, s', t, a)
    requires forall k | 0 <= k < |s.slots| :: SlotOk(s, k)
    requires forall u | u in s.threads :: CallerOk(s, u)
    ensures forall k | 0 <= k < |s'.slots| :: SlotOk(s', k)
    ensures forall u | u in s'.threads :: CallerOk(s', u)
  {
    var k0 := s.threads[t].pc.slot;
    var e, e' := s.slots[k0], s'.slots[k0];
    assert SlotOk(s, k0);
    Ex.StepKeeps(e, a);
    forall u | u in s'.threads ensures CallerOk(s', u) {
      assert CallerOk(s, u);
      if s.threads[u].pc.Visiting? && s.threads[u].pc.slot == k0 {
        Ex.StepKeepsOthers(e, a, s.threads[u].pc.id);
      }
    }
    forall k | 0 <= k < |s'.slots| ensures SlotOk(s', k) {
      assert SlotOk(s, k);
      if k == k0 {
        forall id | id in e'.calls && !Ex.Finished(e'.calls[id].pc)
          ensures e'.calls[id].client in s'.threads && s'.threads[e'.calls[id].client].pc == Visiting(k, id)
        {
          Ex.StepKeepsOthers(e, a, a.id);
          Ex.StepKeepsOthers(e, a, id);
        }
      }
    }
  }

  /** Without a trade nobody's hand changes. */
  lemma QuietSlotHands(s: State, s': State, t: Tid, a: Ex.Action, u: Tid)
    requires SlotMove(s, s', t, a) && u in s.threads
    requires SlotOk(s, s.threads[t].pc.slot) && CallerOk(s, u)
    requires !Ex.IsTrade(s.slots[s.threads[t].pc.slot], a)
    ensures HandOf(s', u) == HandOf(s, u)
  {
    if s.threads[u].pc.Visiting? && s.threads[u].pc.slot == s.threads[t].pc.slot {
      Ex.StepTrades(s.slots[s.threads[t].pc.slot], a, s.threads[u].pc.id);
      Ex.StepKeepsOthers(s.slots[s.threads[t].pc.slot], a, s.threads[u].pc.id);
    }
  }

  lemma QuietSlotKeeps(s: State, s': State, t: Tid, a: Ex.Action)
    requires Inv(s) && SlotMove(s, s', t, a) && s'.mem == s.mem
    requires !Ex.IsTrade(s.slots[s.threads[t].pc.slot], a)
    ensures Inv(s')
  {
    SlotMoveCallers(s, s', t, a);
    forall u | u in s'.threads
      ensures PcOk(s', u) && HandOk(s', u) && HandOf(s', u) == HandOf(s, u)
    {
      QuietSlotHands(s, s', t, a, u);
      assert PcOk(s, u) && HandOk(s, u);
    }
    forall n | n in s'.mem ensures PlaceOk(s', n) { assert PlaceOk(s, n); }
  }

  /** In a trade the partner is another thread, inside the same slot. */
  lemma PartnerVisits(s: State, t: Tid)
    requires Inv(s) && CanGo(s, t) && Trades(s, t)
    ensures var u := PartnerOf(s, t);
            && u in s.threads && u != t && s.threads[u].pc.Visiting?
            && s.threads[u].pc.slot == s.threads[t].pc.slot
            && s.slots[s.threads[t].pc.slot].owner == Some(s.threads[u].pc.id)
            && s.threads[u].pc.id != s.threads[t].pc.id
  {
    var k := s.threads[t].pc.slot;
    var e := s.slots[k];
    assert SlotOk(s, k) && CallerOk(s, t);
    Ex.StepTrades(e, Ex.Go(s.threads[t].pc.id), s.threads[t].pc.id);
    var w := e.owner.value;
    assert e.calls[w].client in s.threads && s.threads[e.calls[w].client].pc == Visiting(k, w);
  }

  /** The slot step of a trade, before the places are put right. */
  function TradeStep(s: State, t: Tid): State
    requires CanGo(s, t) && Trades(s, t)
  {
    var pc := s.threads[t].pc;
    s.(slots := s.slots[pc.slot := Ex.Apply(s.slots[pc.slot], Ex.Go(pc.id))])
  }

  /** A trade swaps two hands and leaves the others. */
  lemma TradeHands(s: State, t: Tid, v: Tid)
    requires Inv(s) && CanGo(s, t) && Trades(s, t) && v in s.threads
    ensures PartnerOf(s, t) in s.threads && PartnerOf(s, t) != t
    ensures HandOf(TradeStep(s, t), v) ==
            if v == t then HandOf(s, PartnerOf(s, t))
            else if v == PartnerOf(s, t) then HandOf(s, t)
            else HandOf(s, v)
  {
    PartnerVisits(s, t);
    var k := s.threads[t].pc.slot;
    assert SlotOk(s, k) && CallerOk(s, t) && CallerOk(s, v);
    if s.threads[v].pc.Visiting? && s.threads[v].pc.slot == k {
      Ex.StepTrades(s.slots[k], Ex.Go(s.threads[t].pc.id), s.threads[v].pc.id);
    }
  }

  /** Putting the places right after a trade changes no hand. */
  lemma TradeStepHands(s: State, t: Tid, v: Tid)
    requires CanGo(s, t) && Trades(s, t) && PartnerOf(s, t) in s.threads && v in s.threads
    ensures GoStep(s, t) == PutBoth(s, t, PartnerOf(s, t), TradeStep(s, t))
    ensures GoStep(s, t).threads == s.threads && GoStep(s, t).slots == TradeStep(s, t).slots
    ensures HandOf(GoStep(s, t), v) == HandOf(TradeStep(s, t), v)
  {
  }

  /** What `PutBoth` does to the heap. */
  lemma TradePlaces(s: State, t: Tid, u: Tid, s': State, n: Addr)
    requires t in s.threads && u in s.threads && t != u && s'.mem == s.mem
    requires HandOk(s, t) && HandOk(s, u) && NULL !in s.mem
    ensures PutBoth(s, t, u, s').mem.Keys == s.mem.Keys
    ensures n in s.mem ==> PutBoth(s, t, u, s').mem[n].next == s.mem[n].next
    ensures n in s.mem ==>
              PutBoth(s, t, u, s').mem[n].place
              == (if n == HandOf(s, t) then InHand(u) else if n == HandOf(s, u) then InHand(t) else s.mem[n].place)
  {
  }

  lemma TradeNode(s: State, t: Tid, n: Addr)
    requires Inv(s) && CanGo(s, t) && Trades(s, t) && n in s.mem
    ensures n in GoStep(s, t).mem && GoStep(s, t).mem.Keys == s.mem.Keys
    ensures GoStep(s, t).mem[n].next == s.mem[n].next
    ensures GoStep(s, t).mem[n].place ==
            if n == HandOf(s, t) then InHand(PartnerOf(s, t))
            else if PartnerOf(s, t) in s.threads && n == HandOf(s, PartnerOf(s, t)) then InHand(t)
            else s.mem[n].place
    ensures s.mem[n].place.InHand? <==> GoStep(s, t).mem[n].place.InHand?
  {
    TradeHands(s, t, t);
    var u := PartnerOf(s, t);
    assert HandOk(s, t) && HandOk(s, u);
    TradePlaces(s, t, u, TradeStep(s, t), n);
    TradeStepHands(s, t, t);
  }

  lemma TradeStack(s: State, t: Tid)
    requires Inv(s) && CanGo(s, t) && Trades(s, t)
    ensures StackOk(GoStep(s, t))
  {
    var s' := GoStep(s, t);
    TradeHands(s, t, t);
    TradeStepHands(s, t, t);
    forall n | n in s.mem
      ensures n in s'.mem && s'.mem[n].next == s.mem[n].next
      ensures !s.mem[n].place.InHand? ==> s'.mem[n].place == s.mem[n].place
    {
      TradeNode(s, t, n);
      assert HandOk(s, t) && HandOk(s, PartnerOf(s, t));
    }
    assert Linked(s'.mem, s'.top, s'.stack);
  }

  lemma TradeThread(s: State, t: Tid, v: Tid)
    requires Inv(s) && CanGo(s, t) && Trades(s, t) && v in s.threads
    ensures GoStep(s, t).threads == s.threads
    ensures PcOk(GoStep(s, t), v) && HandOk(GoStep(s, t), v)
  {
    var s' := GoStep(s, t);
    TradeHands(s, t, v);
    TradeStepHands(s, t, v);
    var u := PartnerOf(s, t);
    assert HandOk(s, v) && HandOk(s, t) && HandOk(s, u) && PcOk(s, v);
    if HandOf(s', v) in s.mem { TradeNode(s, t, HandOf(s', v)); }
    if s.threads[v].n in s.mem { TradeNode(s, t, s.threads[v].n); }
    if s.threads[v].pc.PopNext? || s.threads[v].pc.PopCas? { TradeNode(s, t, s.threads[v].pc.n); }
  }

  lemma TradeKeeps(s: State, t: Tid)
    requires Inv(s) && CanGo(s, t) && Trades(s, t)
    ensures Inv(GoStep(s, t))
  {
    var s' := GoStep(s, t);
    TradeHands(s, t, t);
    TradeStepHands(s, t, t);
    var u := PartnerOf(s, t);
    TradeStack(s, t);
    SlotMoveCallers(s, s', t, Ex.Go(s.threads[t].pc.id));
    forall v | v in s'.threads ensures PcOk(s', v) && HandOk(s', v) { TradeThread(s, t, v); }
    forall n | n in s'.mem ensures PlaceOk(s', n) { TradePlaceOk(s, t, n); }
    assert NULL !in s'.mem by { if NULL in s'.mem { TradePlaces(s, t, u, TradeStep(s, t), NULL); } }
  }

  lemma TradePlaceOk(s: State, t: Tid, n: Addr)
    requires Inv(s) && CanGo(s, t) && Trades(s, t) && n in GoStep(s, t).mem
    ensures PlaceOk(GoStep(s, t), n)
  {
    TradeHands(s, t, t);
    TradeStepHands(s, t, t);
    var u := PartnerOf(s, t);
    TradePlaces(s, t, u, TradeStep(s, t), n);
    TradeNode(s, t, n);
    assert PlaceOk(s, n);
    var p := GoStep(s, t).mem[n].place;
    if p.InHand? {
      TradeHands(s, t, p.t);
      TradeStepHands(s, t, p.t);
    }
  }

  lemma DrawHands(s: State, t: Tid, slot: nat, id: Ex.CallId, u: Tid)
    requires Enabled(s, Draw(t, slot, id)) && u in s.threads
    requires SlotOk(s, slot) && CallerOk(s, u)
    ensures HandOf(Apply(s, Draw(t, slot, id)), u) == HandOf(s, u)
  {
    var s' := Apply(s, Draw(t, slot, id));
    if u != t { assert s'.threads[u] == s.threads[u]; }
  }

  lemma DrawCallers(s: State, t: Tid, slot: nat, id: Ex.CallId)
    requires Enabled(s, Draw(t, slot, id))
    requires forall k | 0 <= k < |s.slots| :: SlotOk(s, k)
    requires forall u | u in s.threads :: CallerOk(s, u)
    ensures forall k | 0 <= k < |s.slots| :: SlotOk(Apply(s, Draw(t, slot, id)), k)
    ensures forall u | u in s.threads :: CallerOk(Apply(s, Draw(t, slot, id)), u)
  {
    var s' := Apply(s, Draw(t, slot, id));
    assert SlotOk(s, slot);
    Ex.StepKeeps(s.slots[slot], Ex.Begin(id, t, s.threads[t].n));
    forall k | 0 <= k < |s.slots| ensures SlotOk(s', k) { assert SlotOk(s, k); }
    forall u | u in s.threads ensures CallerOk(s', u) { assert CallerOk(s, u); }
  }

  lemma DrawKeeps(s: State, t: Tid, slot: nat, id: Ex.CallId)
    requires Inv(s) && Enabled(s, Draw(t, slot, id))
    ensures Inv(Apply(s, Draw(t, slot, id)))
  {
    var s' := Apply(s, Draw(t, slot, id));
    DrawCallers(s, t, slot, id);
    forall u | u in s'.threads
      ensures PcOk(s', u) && HandOk(s', u) && HandOf(s', u) == HandOf(s, u)
    {
      assert SlotOk(s, slot);
      DrawHands(s, t, slot, id, u);
      assert PcOk(s, u) && HandOk(s, u);
    }
    forall n | n in s'.mem ensures PlaceOk(s', n) { assert PlaceOk(s, n); }
  }

  lemma VisitKeeps(s: State, t: Tid)
    requires Inv(s) && CanGo(s, t) && s.threads[t].pc.Visiting?
    ensures Inv(GoStep(s, t))
  {
    var pc := s.threads[t].pc;
    if Ex.Finished(s.slots[pc.slot].calls[pc.id].pc) {
      AfterVisitKeeps(s, t);
    } else if Trades(s, t) {
      TradeKeeps(s, t);
    } else {
      QuietSlotKeeps(s, GoStep(s, t), t, Ex.Go(pc.id));
    }
  }

  lemma StepKeeps(s: State, a: Action)
    requires Inv(s) && Enabled(s, a)
    ensures Inv(Apply(s, a))
  {
    match a
    case StartPush(t, n) => StartPushKeeps(s, t, n);
    case StartPop(t) => StartPopKeeps(s, t);
    case Draw(t, slot, id) => DrawKeeps(s, t, slot, id);
    case GiveUp(t) => QuietSlotKeeps(s, Apply(s, a), t, Ex.GiveUp(s.threads[t].pc.id));
    case Go(t) =>
      var pc := s.threads[t].pc;
      if pc.PushLink? { PushLinkKeeps(s, t); }
      else if pc.PushCas? && pc.seen == s.top { PushCasKeeps(s, t); }
      else if pc.PopCas? && pc.n == s.top { PopCasKeeps(s, t); }
      else if pc.Visiting? { VisitKeeps(s, t); }
      else { QuietGoKeeps(s, t); }
  }
}
