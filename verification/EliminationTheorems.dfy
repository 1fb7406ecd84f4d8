/** Every run of the elimination stack is a run of the trading stack. */
module EliminationTheorems {
  import opened CellNumbers
  import opened Options
  import opened SequentialStack
  import opened ThreadIds
  import TradingStack
  import opened Elimination
  import opened EliminationInvariant
  import Ex = Exchanger

  type Abs = TradingStack.Abs
  type Event = TradingStack.Event

  // ----- refinement -----

  function View(s: State): Abs {
    TradingStack.Abs(
      s.stack,
      map t | t in s.threads :: HandOf(s, t),
      (set t | t in s.threads && s.threads[t].popping),
      s.out)
  }

  function Effect(s: State, a: Action): Event
    requires Enabled(s, a)
  {
    match a
    case StartPush(t, n) => TradingStack.Alloc(t, n)
    case StartPop(t) => TradingStack.BeginPop(t)
    case Go(t) =>
      var th := s.threads[t];
      (match th.pc
       case PushCas(seen) => if s.top == seen then TradingStack.PushHand(t) else TradingStack.Silent
       case PopFirst => if s.top == NULL then TradingStack.PopNull(t) else TradingStack.Silent
       case PopCas(n, _) => if s.top == n then TradingStack.PopTop(t) else TradingStack.Silent
       case Visiting(slot, id) =>
         if Ex.Finished(s.slots[slot].calls[id].pc) then
           if th.popping && HandOf(s, t) != NULL then TradingStack.Deliver(t) else TradingStack.Silent
         else if Trades(s, t) then TradingStack.Swap(t, PartnerOf(s, t))
         else TradingStack.Silent
       case _ => TradingStack.Silent)
    case _ => TradingStack.Silent
  }

  /** The step of the implementation is the event of the abstract machine. */
  ghost predicate Refines(s: State, a: Action)
    requires Enabled(s, a)
  {
    TradingStack.Allowed(View(s), Effect(s, a)) && TradingStack.Happen(View(s), Effect(s, a)) == View(Apply(s, a))
  }

  /** Steps that leave every hand, the stack and the returned nodes as they were. */
  lemma SilentView(s: State, s': State)
    requires s'.stack == s.stack && s'.out == s.out && s'.threads.Keys == s.threads.Keys
    requires forall t | t in s.threads :: HandOf(s', t) == HandOf(s, t) && s'.threads[t].popping == s.threads[t].popping
    ensures View(s') == View(s)
  {
  }

  /** Steps of `t` outside the exchanger change at most its own hand and whether it is popping. */
  lemma OwnView(s: State, s': State, t: Tid)
    requires SameSlots(s, s', t)
    ensures View(s') == TradingStack.Abs(
                          s'.stack,
                          View(s).hands[t := HandOf(s', t)],
                          if s'.threads[t].popping then View(s).poppers + {t} else View(s).poppers - {t},
                          s'.out)
  {
    forall u | u in s.threads && u != t ensures HandOf(s', u) == HandOf(s, u) { OtherHands(s, s', t, u); }
    assert View(s').hands == View(s).hands[t := HandOf(s', t)];
  }

  lemma QuietRefines(s: State, s': State, t: Tid)
    requires SameSlots(s, s', t) && s'.stack == s.stack && s'.out == s.out
    requires HandOf(s', t) == HandOf(s, t) && s'.threads[t].popping == s.threads[t].popping
    ensures View(s') == View(s)
  {
    forall u | u in s.threads && u != t ensures HandOf(s', u) == HandOf(s, u) { OtherHands(s, s', t, u); }
    SilentView(s, s');
  }

  lemma PushRefines(s: State, t: Tid)
    requires Inv(s) && CanGo(s, t) && s.threads[t].pc.PushCas? && s.threads[t].pc.seen == s.top
    ensures Refines(s, Go(t))
  {
    assert PcOk(s, t);
    OwnView(s, GoStep(s, t), t);
  }

  lemma PopRefines(s: State, t: Tid)
    requires Inv(s) && CanGo(s, t) && s.threads[t].pc.PopCas? && s.threads[t].pc.n == s.top
    ensures Refines(s, Go(t))
  {
    assert PcOk(s, t);
    PopCasStack(s, t);
    PopStep(s, t);
  }

  lemma PopStep(s: State, t: Tid)
    requires CanGo(s, t) && s.threads[t].pc.PopCas? && s.threads[t].pc.n == s.top
    requires s.stack != [] && s.stack[0] == s.top && s.threads[t].popping && s.threads[t].n == NULL
    ensures Refines(s, Go(t))
  {
    OwnView(s, GoStep(s, t), t);
    assert View(s).hands[t := HandOf(s, t)] == View(s).hands;
  }

  lemma PopNullRefines(s: State, t: Tid)
    requires Inv(s) && CanGo(s, t) && s.threads[t].pc.PopFirst? && s.top == NULL
    ensures Refines(s, Go(t))
  {
    assert PcOk(s, t);
    assert s.stack == [];
    PopNullStep(s, t);
  }

  lemma PopNullStep(s: State, t: Tid)
    requires CanGo(s, t) && s.threads[t].pc.PopFirst? && s.top == NULL
    requires s.stack == [] && s.threads[t].popping && s.threads[t].n == NULL
    ensures Refines(s, Go(t))
  {
    OwnView(s, GoStep(s, t), t);
    assert View(s).hands[t := HandOf(s, t)] == View(s).hands;
  }

  lemma StackStepRefines(s: State, t: Tid)
    requires Inv(s) && CanGo(s, t) && !s.threads[t].pc.Visiting?
    ensures Refines(s, Go(t))
  {
    var pc := s.threads[t].pc;
    if pc.PushCas? && pc.seen == s.top { PushRefines(s, t); }
    else if pc.PopCas? && pc.n == s.top { PopRefines(s, t); }
    else if pc.PopFirst? && s.top == NULL { PopNullRefines(s, t); }
    else {
      assert PcOk(s, t);
      QuietRefines(s, GoStep(s, t), t);
    }
  }

  /** What a finished exchange does to the thread. */
  lemma AfterVisitStep(s: State, t: Tid)
    requires CanGo(s, t) && s.threads[t].pc.Visiting?
    requires Ex.Finished(s.slots[s.threads[t].pc.slot].calls[s.threads[t].pc.id].pc)
    requires CallerOk(s, t) && SlotOk(s, s.threads[t].pc.slot) && PcOk(s, t)
    ensures var s', h := GoStep(s, t), HandOf(s, t);
            && SameSlots(s, s', t) && s'.stack == s.stack
            && (if s.threads[t].popping && h != NULL
                then HandOf(s', t) == NULL && s'.out == s.out + {h} && !s'.threads[t].popping
                else HandOf(s', t) == h && s'.out == s.out && s'.threads[t].popping == s.threads[t].popping)
  {
  }

  lemma AfterVisitRefines(s: State, t: Tid)
    requires Inv(s) && CanGo(s, t) && s.threads[t].pc.Visiting?
    requires Ex.Finished(s.slots[s.threads[t].pc.slot].calls[s.threads[t].pc.id].pc)
    ensures Refines(s, Go(t))
  {
    assert CallerOk(s, t) && SlotOk(s, s.threads[t].pc.slot) && PcOk(s, t);
    AfterVisitStep(s, t);
    if s.threads[t].popping && HandOf(s, t) != NULL {
      DeliverRefines(s, t);
    } else {
      QuietRefines(s, GoStep(s, t), t);
    }
  }

  lemma DeliverRefines(s: State, t: Tid)
    requires CanGo(s, t) && s.threads[t].pc.Visiting?
    requires Ex.Finished(s.slots[s.threads[t].pc.slot].calls[s.threads[t].pc.id].pc)
    requires s.threads[t].popping && HandOf(s, t) != NULL
    requires var s' := GoStep(s, t);
             && SameSlots(s, s', t) && s'.stack == s.stack
             && HandOf(s', t) == NULL && s'.out == s.out + {HandOf(s, t)} && !s'.threads[t].popping
    ensures Refines(s, Go(t))
  {
    OwnView(s, GoStep(s, t), t);
  }

  lemma TradeView(s: State, t: Tid)
    requires Inv(s) && CanGo(s, t) && Trades(s, t)
    ensures PartnerOf(s, t) in s.threads && PartnerOf(s, t) != t
    ensures var u := PartnerOf(s, t);
            View(GoStep(s, t)) == View(s).(hands := View(s).hands[t := HandOf(s, u)][u := HandOf(s, t)])
  {
    var s' := GoStep(s, t);
    TradeHands(s, t, t);
    var u := PartnerOf(s, t);
    TradeStepHands(s, t, t);
    var hands := View(s).hands[t := HandOf(s, u)][u := HandOf(s, t)];
    forall v | v in s.threads ensures HandOf(s', v) == hands[v] {
      TradeHands(s, t, v);
      TradeStepHands(s, t, v);
    }
    assert View(s').hands == hands;
  }

  /** Nobody enters an exchange twice: both parties to a trade still hold what they brought. */
  lemma TradersComeFresh(s: State, t: Tid)
    requires Inv(s) && CanGo(s, t) && Trades(s, t)
    ensures PartnerOf(s, t) in s.threads && PartnerOf(s, t) != t
    ensures TradingStack.MayTrade(View(s), t) && TradingStack.MayTrade(View(s), PartnerOf(s, t))
  {
    PartnerVisits(s, t);
    var u := PartnerOf(s, t);
    assert PcOk(s, t) && PcOk(s, u) && CallerOk(s, t) && CallerOk(s, u) && SlotOk(s, s.threads[t].pc.slot);
    OwnItem(s.slots[s.threads[t].pc.slot], Ex.Go(s.threads[t].pc.id));
    assert HandOf(s, t) == s.threads[t].n && HandOf(s, u) == s.threads[u].n;
  }

  lemma OwnItem(e: Ex.State, a: Ex.Action)
    requires Ex.Inv(e) && Ex.IsTrade(e, a)
    ensures Ex.Holding(e, a.id) == e.calls[a.id].item
    ensures Ex.Holding(e, e.owner.value) == e.calls[e.owner.value].item
  {
    assert Ex.CallOk(e, a.id);
  }

  lemma TradeRefines(s: State, t: Tid)
    requires Inv(s) && CanGo(s, t) && Trades(s, t)
    ensures Refines(s, Go(t))
  {
    TradeView(s, t);
    TradersComeFresh(s, t);
    SwapRefines(s, t);
  }

  lemma SwapRefines(s: State, t: Tid)
    requires CanGo(s, t) && Trades(s, t)
    requires PartnerOf(s, t) in s.threads && PartnerOf(s, t) != t
    requires TradingStack.MayTrade(View(s), t) && TradingStack.MayTrade(View(s), PartnerOf(s, t))
    requires var u := PartnerOf(s, t);
             View(GoStep(s, t)) == View(s).(hands := View(s).hands[t := HandOf(s, u)][u := HandOf(s, t)])
    ensures Refines(s, Go(t))
  {
  }

  lemma QuietVisitRefines(s: State, s': State, t: Tid, a: Ex.Action)
    requires Inv(s) && SlotMove(s, s', t, a)
    requires !Ex.IsTrade(s.slots[s.threads[t].pc.slot], a)
    ensures View(s') == View(s)
  {
    forall u | u in s.threads ensures HandOf(s', u) == HandOf(s, u) {
      assert SlotOk(s, s.threads[t].pc.slot) && CallerOk(s, u);
      QuietSlotHands(s, s', t, a, u);
    }
    SilentView(s, s');
  }

  lemma NewNodeUnknown(s: State, n: Addr)
    requires Inv(s) && n != NULL && n !in s.mem
    ensures !TradingStack.Known(View(s), n)
  {
    forall t | t in s.threads ensures HandOf(s, t) != n { assert HandOk(s, t); }
  }

  lemma StartPushRefines(s: State, t: Tid, n: Addr)
    requires Inv(s) && Enabled(s, StartPush(t, n))
    ensures Refines(s, StartPush(t, n))
  {
    assert PcOk(s, t);
    NewNodeUnknown(s, n);
    OwnView(s, Apply(s, StartPush(t, n)), t);
  }

  lemma StartPopRefines(s: State, t: Tid)
    requires Inv(s) && Enabled(s, StartPop(t))
    ensures Refines(s, StartPop(t))
  {
    assert PcOk(s, t);
    OwnView(s, Apply(s, StartPop(t)), t);
    assert View(s).hands[t := HandOf(s, t)] == View(s).hands;
  }

  /** Each step is one event of the abstract machine. */
  lemma StepRefines(s: State, a: Action)
    requires Inv(s) && Enabled(s, a)
    ensures Refines(s, a)
  {
    match a
    case StartPush(t, n) => StartPushRefines(s, t, n);
    case StartPop(t) => StartPopRefines(s, t);
    case Draw(t, slot, id) =>
      forall u | u in s.threads ensures HandOf(Apply(s, a), u) == HandOf(s, u) {
        assert SlotOk(s, slot) && CallerOk(s, u);
        DrawHands(s, t, slot, id, u);
      }
      SilentView(s, Apply(s, a));
    case GiveUp(t) => QuietVisitRefines(s, Apply(s, a), t, Ex.GiveUp(s.threads[t].pc.id));
    case Go(t) =>
      if !s.threads[t].pc.Visiting? { StackStepRefines(s, t); }
      else { VisitRefines(s, t); }
  }

  lemma VisitRefines(s: State, t: Tid)
    requires Inv(s) && CanGo(s, t) && s.threads[t].pc.Visiting?
    ensures Refines(s, Go(t))
  {
    var pc := s.threads[t].pc;
    if Ex.Finished(s.slots[pc.slot].calls[pc.id].pc) { AfterVisitRefines(s, t); }
    else if Trades(s, t) { TradeRefines(s, t); }
    else { QuietVisitRefines(s, GoStep(s, t), t, Ex.Go(pc.id)); }
  }

  // ----- runs -----

  predicate Legal(s: State, run: seq<Action>)
    decreases |run|
  {
    run == [] || (Enabled(s, run[0]) && Legal(Apply(s, run[0]), run[1..]))
  }

  function Exec(s: State, run: seq<Action>): State
    requires Legal(s, run)
    decreases |run|
  {
    if run == [] then s else Exec(Apply(s, run[0]), run[1..])
  }

  function Events(s: State, run: seq<Action>): seq<Event>
    requires Legal(s, run)
    decreases |run|
  {
    if run == [] then [] else [Effect(s, run[0])] + Events(Apply(s, run[0]), run[1..])
  }

  lemma {:induction false} RunRefines(s: State, run: seq<Action>)
    requires Inv(s) && Legal(s, run)
    ensures TradingStack.Legal(View(s), Events(s, run))
    ensures TradingStack.Run(View(s), Events(s, run)) == View(Exec(s, run))
    decreases |run|
  {
    if run != [] {
      StepRefines(s, run[0]);
      StepKeeps(s, run[0]);
      RunRefines(Apply(s, run[0]), run[1..]);
      assert Events(s, run)[1..] == Events(Apply(s, run[0]), run[1..]);
    }
  }

  function Empty(workers: nat): Abs {
    TradingStack.Abs([], map t | t in Ids(workers) :: NULL, {}, {})
  }

  lemma StartsEmpty(workers: nat, maxrange: nat)
    ensures Inv(Init(workers, maxrange)) && View(Init(workers, maxrange)) == Empty(workers)
    ensures TradingStack.Disjoint(Empty(workers))
  {
    InitOk(workers, maxrange);
  }

  /** Any run of the elimination stack is a run of the trading stack, event by event. */
  lemma RefinesTradingStack(workers: nat, maxrange: nat, run: seq<Action>)
    requires Legal(Init(workers, maxrange), run)
    ensures TradingStack.Legal(Empty(workers), Events(Init(workers, maxrange), run))
    ensures TradingStack.Run(Empty(workers), Events(Init(workers, maxrange), run))
            == View(Exec(Init(workers, maxrange), run))
  {
    StartsEmpty(workers, maxrange);
    RunRefines(Init(workers, maxrange), run);
  }

  lemma {:induction false} RunKeeps(s: State, run: seq<Action>)
    requires Inv(s) && Legal(s, run)
    ensures Inv(Exec(s, run))
    decreases |run|
  {
    if run != [] {
      StepKeeps(s, run[0]);
      RunKeeps(Apply(s, run[0]), run[1..]);
    }
  }

  /** After any run every node ever allocated is on the stack, in exactly one hand, or returned. */
  lemma NoNodeLost(workers: nat, maxrange: nat, run: seq<Action>)
    requires Legal(Init(workers, maxrange), run)
    ensures var s := Exec(Init(workers, maxrange), run);
            && TradingStack.Disjoint(View(s))
            && Linked(s.mem, s.top, s.stack)
            && forall n :: n in s.mem <==> n != NULL && TradingStack.Known(View(s), n)
  {
    var s := Exec(Init(workers, maxrange), run);
    InitOk(workers, maxrange);
    RunKeeps(Init(workers, maxrange), run);
    forall t | t in s.threads ensures HandOk(s, t) {}
    forall n ensures n in s.mem <==> n != NULL && TradingStack.Known(View(s), n) { NodeKnown(s, n); }
  }

  lemma NodeKnown(s: State, n: Addr)
    requires Inv(s)
    ensures n in s.mem <==> n != NULL && TradingStack.Known(View(s), n)
  {
    forall t | t in s.threads ensures HandOk(s, t) {}
    if n in s.mem {
      assert PlaceOk(s, n);
      if s.mem[n].place.InHand? { assert View(s).hands[s.mem[n].place.t] == n; }
    }
  }

  /** The pushes and pops of any run, meetings included, are a history of a sequential stack without repetitions. */
  lemma StackIsLifo(workers: nat, maxrange: nat, run: seq<Action>)
    requires Legal(Init(workers, maxrange), run)
    ensures TradingStack.Legal(Empty(workers), Events(Init(workers, maxrange), run))
    ensures var s := Exec(Init(workers, maxrange), run);
            var h := TradingStack.History(Empty(workers), Events(Init(workers, maxrange), run));
            && Replay([], h) == Some(s.stack) && Linked(s.mem, s.top, s.stack)
            && forall i, j | 0 <= i < j < |h| && !h[i].PopEmpty? :: h[i] != h[j]
  {
    InitOk(workers, maxrange);
    RunKeeps(Init(workers, maxrange), run);
    RefinesTradingStack(workers, maxrange, run);
    var events := Events(Init(workers, maxrange), run);
    TradingStack.RunIsLifo(Empty(workers), events);
    StartsEmpty(workers, maxrange);
    var h := TradingStack.History(Empty(workers), events);
    forall i, j | 0 <= i < j < |h| && !h[i].PopEmpty? ensures h[i] != h[j] {
      TradingStack.OnceOnly(Empty(workers), events, i, j);
    }
  }

  // ----- the slots that `visit` draws -----

  /** The bound that the `k`-th visit of a push or pop passes on; each visit doubles it, in 32 bits. */
  function RangeAt(k: nat): nat {
    if k == 0 then 2 else 2 * RangeAt(k - 1) % 0x1_0000_0000
  }

  /** `visit` draws from 0 to the smaller of the two bounds, both ends included. */
  predicate MayDraw(range: nat, maxrange: nat, slot: nat) {
    slot <= if range <= maxrange then range else maxrange
  }

  /** The draws of a visit all hit the array of `maxrange` exchangers exactly while its bound is below `maxrange`. */
  lemma VisitStaysInside(k: nat, maxrange: nat)
    ensures (forall slot: nat | MayDraw(RangeAt(k), maxrange, slot) :: slot < maxrange) <==> RangeAt(k) < maxrange
  {
    if RangeAt(k) >= maxrange { assert MayDraw(RangeAt(k), maxrange, maxrange); }
  }

  lemma PowersOfInterest()
    ensures Power(6) == 64 && Power(7) == 128 && Power(31) == 0x8000_0000
  {
    assert Power(8) == 256;
    assert Power(16) == 0x1_0000;
    assert Power(24) == 0x100_0000;
  }

  lemma Doubling(k: nat)
    ensures RangeAt(0) == Power(1) == 2
    ensures RangeAt(k + 1) == 2 * RangeAt(k) % 0x1_0000_0000
    ensures Power(k + 2) == 2 * Power(k + 1)
  {
  }

  lemma {:induction false} RangeFrom(k: nat)
    ensures RangeAt(k) == if k <= 30 then Power(k + 1) else 0
    decreases k
  {
    hide RangeAt, Power;
    if k == 0 {
      Doubling(0);
    } else {
      RangeFrom(k - 1);
      Doubling(k - 1);
      PowersOfInterest();
      if k <= 30 { PowerUpTo(k + 1, 31); }
    }
  }

  lemma {:induction false} PowerUpTo(k: nat, n: nat)
    requires k <= n
    ensures Power(k) <= Power(n)
  {
    if k < n { PowerUpTo(k, n - 1); }
  }

  /**
    With the 100 exchangers of the program the first six visits of a call hit
    the array, and those after the bound has wrapped to 0; all others may draw slot 100.
   */
  lemma VisitsOfTheProgram(k: nat)
    ensures (forall slot: nat | MayDraw(RangeAt(k), 100, slot) :: slot < 100) <==> k <= 5 || k >= 31
    ensures 6 <= k <= 30 ==> MayDraw(RangeAt(k), 100, 100)
  {
    RangeFrom(k);
    VisitStaysInside(k, 100);
    PowersOfInterest();
    if k <= 5 { PowerUpTo(k + 1, 6); } else if k <= 30 { PowerUpTo(7, k + 1); }
  }
}
