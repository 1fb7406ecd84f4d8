/**
  Pushes and pops of the elimination stack that are left alone, that lose a
  race, or that meet in a slot: what they come to, and in how many steps.
 */
module EliminationMeetings {
  import opened Chains
  import opened Elimination
  import opened EliminationInvariant
  import opened EliminationTheorems
  import opened Options
  import Ex = Exchanger
  import ExM = ExchangerMeetings
  import TradingStack

  function Times(t: Tid, k: nat): seq<Action> {
    if k == 0 then [] else [Go(t)] + Times(t, k - 1)
  }

  lemma OneMore(s: State, t: Tid, k: nat)
    requires 0 < k && CanGo(s, t) && Legal(GoStep(s, t), Times(t, k - 1))
    ensures Legal(s, Times(t, k)) && Exec(s, Times(t, k)) == Exec(GoStep(s, t), Times(t, k - 1))
  {
    assert Times(t, k)[0] == Go(t) && Times(t, k)[1..] == Times(t, k - 1);
  }

  lemma {:induction false} RunOn(s: State, p: seq<Action>, q: seq<Action>)
    requires Legal(s, p) && Legal(Exec(s, p), q)
    ensures Legal(s, p + q) && Exec(s, p + q) == Exec(Exec(s, p), q)
    decreases |p|
  {
    hide Enabled, Apply;
    if p == [] {
      assert p + q == q;
    } else {
      assert (p + q)[0] == p[0] && (p + q)[1..] == p[1..] + q;
      RunOn(Apply(s, p[0]), p[1..], q);
    }
  }

  // ----- left alone -----

  /** A push that is not disturbed puts its node on top of the stack in three steps. */
  lemma PushAlone(s: State, t: Tid)
    requires t in s.threads && s.threads[t].pc.PushRead? && s.threads[t].n in s.mem
    ensures Legal(s, Times(t, 3))
    ensures var n := s.threads[t].n;
            Exec(s, Times(t, 3)) == s.(top := n, stack := [n] + s.stack, mem := s.mem[n := Node(s.top, OnStack)],
                                       threads := s.threads[t := Thread(Idle, false, NULL)])
  {
    hide GoVisit, Take;
    var n := s.threads[t].n;
    var s1 := GoStep(s, t);
    var s2 := GoStep(s1, t);
    var s3 := GoStep(s2, t);
    assert s3.mem == s.mem[n := Node(s.top, OnStack)];
    assert s3.threads == s.threads[t := Thread(Idle, false, NULL)];
    assert Times(t, 0) == [] && Legal(s3, []) && Exec(s3, []) == s3;
    OneMore(s2, t, 1);
    OneMore(s1, t, 2);
    OneMore(s, t, 3);
  }

  /** The top node has been returned to the caller. */
  function TopTaken(s: State, t: Tid): State
    requires t in s.threads && s.top in s.mem
  {
    s.(top := s.mem[s.top].next, stack := if s.stack == [] then [] else s.stack[1..],
       mem := s.mem[s.top := s.mem[s.top].(place := Out)], out := s.out + {s.top},
       threads := s.threads[t := Thread(Idle, false, NULL)])
  }

  /** A pop that is not disturbed takes the top node off, in three steps from the read of the head. */
  lemma PopAlone(s: State, t: Tid)
    requires t in s.threads && s.threads[t].pc.PopRead? && s.top != NULL && s.top in s.mem
    ensures Legal(s, Times(t, 3)) && Exec(s, Times(t, 3)) == TopTaken(s, t)
  {
    hide GoVisit;
    var s1 := GoStep(s, t);
    var s2 := GoStep(s1, t);
    var s3 := GoStep(s2, t);
    assert s3.threads == TopTaken(s, t).threads;
    assert Times(t, 0) == [] && Legal(s3, []) && Exec(s3, []) == s3;
    OneMore(s2, t, 1);
    OneMore(s1, t, 2);
    OneMore(s, t, 3);
  }

  /** How a pop begins: an empty stack is reported at once. */
  lemma PopBegins(s: State, t: Tid)
    requires t in s.threads && s.threads[t].pc.PopFirst?
    ensures CanGo(s, t)
    ensures GoStep(s, t) == if s.top == NULL then Finish(s, t) else At(s, t, PopRead)
  {
  }

  // ----- losing a race -----

  /** A push whose CAS fails goes to the slots with its node; a pop reads the head again, and goes there if it is null. */
  lemma RaceLost(s: State, t: Tid)
    requires t in s.threads
    requires match s.threads[t].pc
             case PushCas(seen) => s.top != seen
             case PopCas(n, _) => s.top != n
             case PopRead => s.top == NULL
             case _ => false
    ensures CanGo(s, t) && GoStep(s, t) == At(s, t, if s.threads[t].pc.PopCas? then PopRead else Visit)
  {
  }

  // ----- in a slot -----

  /** The steps of a call that is not over and does not trade are those of the exchanger. */
  lemma {:induction false} InSlot(s: State, t: Tid, k: nat, id: Ex.CallId, j: nat)
    requires t in s.threads && s.threads[t].pc == Visiting(k, id) && k < |s.slots|
    requires Ex.Legal(s.slots[k], ExM.Times(id, j)) && ExM.Quiet(s.slots[k], id, j)
    ensures Legal(s, Times(t, j))
    ensures Exec(s, Times(t, j)) == s.(slots := s.slots[k := Ex.Exec(s.slots[k], ExM.Times(id, j))])
    decreases j
  {
    if j == 0 {
      assert s.slots[k := s.slots[k]] == s.slots;
    } else {
      assert ExM.Times(id, j)[0] == Ex.Go(id) && ExM.Times(id, j)[1..] == ExM.Times(id, j - 1);
      var s' := s.(slots := s.slots[k := Ex.GoStep(s.slots[k], id)]);
      assert CanGo(s, t) && GoStep(s, t) == s';
      InSlot(s', t, k, id, j - 1);
      OneMore(s, t, j);
      assert s'.slots[k := Ex.Exec(s'.slots[k], ExM.Times(id, j - 1))]
          == s.slots[k := Ex.Exec(s'.slots[k], ExM.Times(id, j - 1))];
    }
  }

  /** Where a visit that comes back with `r` leaves a push or a pop. */
  ghost predicate Outcome(e: State, t: Tid, popping: bool, r: Addr) {
    && t in e.threads
    && if popping && r != NULL then e.threads[t] == Thread(Idle, false, NULL) && r in e.out
       else if popping then e.threads[t].pc == PopRead && e.threads[t].popping
       else e.threads[t] == if r == NULL then Thread(Idle, false, NULL) else Thread(PushRead, false, r)
  }

  /** Two threads are in the calls `x` and `y` of slot `k`. */
  predicate BothVisit(s: State, t: Tid, u: Tid, k: nat, x: Ex.CallId, y: Ex.CallId) {
    && t in s.threads && u in s.threads && t != u && x != y && k < |s.slots|
    && s.threads[t].pc == Visiting(k, x) && s.threads[u].pc == Visiting(k, y)
    && x in s.slots[k].calls && y in s.slots[k].calls
    && s.slots[k].calls[x].client == t && s.slots[k].calls[x].item == s.threads[t].n
    && s.slots[k].calls[y].client == u && s.slots[k].calls[y].item == s.threads[u].n
  }

  /** Both draw the slot. */
  lemma BothDraw(s: State, t: Tid, u: Tid, k: nat, x: Ex.CallId, y: Ex.CallId) returns (s': State)
    requires t in s.threads && u in s.threads && t != u && s.threads[t].pc.Visit? && s.threads[u].pc.Visit?
    requires k < |s.slots| && s.slots[k].slot.tag == Ex.EMPTY
    requires x !in s.slots[k].calls && y !in s.slots[k].calls && x != y
    ensures Legal(s, [Draw(t, k, x), Draw(u, k, y)]) && s' == Exec(s, [Draw(t, k, x), Draw(u, k, y)])
    ensures BothVisit(s', t, u, k, x, y) && s'.slots[k].slot.tag == Ex.EMPTY
    ensures s'.slots[k].calls[x].pc.Loop? && s'.slots[k].calls[y].pc.Loop?
    ensures s' == s.(threads := s'.threads, slots := s'.slots)
    ensures s'.threads[t].(pc := Visit) == s.threads[t] && s'.threads[u].(pc := Visit) == s.threads[u]
  {
    var s1 := Apply(s, Draw(t, k, x));
    s' := Apply(s1, Draw(u, k, y));
    assert [Draw(t, k, x), Draw(u, k, y)][1..] == [Draw(u, k, y)] && [Draw(u, k, y)][1..] == [];
    assert Legal(s', []) && Exec(s', []) == s';
    assert Legal(s1, [Draw(u, k, y)]) && Exec(s1, [Draw(u, k, y)]) == s';
  }

  /** The first one offers its node, the second one is about to take it. */
  lemma UpToTheTrade(s: State, t: Tid, u: Tid, k: nat, x: Ex.CallId, y: Ex.CallId) returns (m: State)
    requires BothVisit(s, t, u, k, x, y) && s.slots[k].slot.tag == Ex.EMPTY
    requires s.slots[k].calls[x].pc.Loop? && s.slots[k].calls[y].pc.Loop?
    ensures Legal(s, Times(t, 3) + Times(u, 2)) && m == Exec(s, Times(t, 3) + Times(u, 2))
    ensures m == s.(slots := m.slots) && BothVisit(m, t, u, k, x, y)
    ensures Ex.IsTrade(m.slots[k], Ex.Go(y)) && m.slots[k].owner == Some(x)
    ensures Ex.GoStep(m.slots[k], y) == ExM.Claimed(ExM.Offered(s.slots[k], x), x, y)
  {
    hide Legal, Exec, Ex.Legal, Ex.Exec, ExM.Times, ExM.Quiet, Ex.GoStep;
    var e := s.slots[k];
    ExM.OfferAlone(e, x);
    InSlot(s, t, k, x, 3);
    var o := ExM.Offered(e, x);
    var s1 := s.(slots := s.slots[k := o]);
    ExM.ClaimAlone(o, x, y);
    InSlot(s1, u, k, y, 2);
    ClaimStep(o, x, y);
    RunOn(s, Times(t, 3), Times(u, 2));
    m := Exec(s, Times(t, 3) + Times(u, 2));
    assert m.slots[k] == Ex.At(o, y, Ex.GotBoth(Ex.WAITING, o.slot.item));
    assert m == s.(slots := m.slots);
  }

  lemma ClaimStep(o: Ex.State, x: Ex.CallId, y: Ex.CallId)
    requires y in o.calls && o.slot.tag == Ex.WAITING && o.owner == Some(x) && x in o.calls && x != y
    requires o.calls[y].pc.Loop?
    ensures var g := Ex.At(o, y, Ex.GotBoth(Ex.WAITING, o.slot.item));
            Ex.Enabled(g, Ex.Go(y)) && Ex.GoStep(g, y) == ExM.Claimed(o, x, y)
  {
    var g := Ex.At(o, y, Ex.GotBoth(Ex.WAITING, o.slot.item));
    assert Ex.GoStep(g, y).calls == ExM.Claimed(o, x, y).calls;
  }

  /** The trade itself. */
  lemma TheTrade(m: State, t: Tid, u: Tid, k: nat, x: Ex.CallId, y: Ex.CallId)
    requires BothVisit(m, t, u, k, x, y) && Ex.IsTrade(m.slots[k], Ex.Go(y)) && m.slots[k].owner == Some(x)
    ensures CanGo(m, u) && Effect(m, Go(u)) == TradingStack.Swap(u, t)
    ensures var m' := GoStep(m, u);
            && m'.threads == m.threads && m'.top == m.top && m'.stack == m.stack && m'.out == m.out
            && m'.slots == m.slots[k := Ex.GoStep(m.slots[k], y)]
  {
  }

  /** The second one comes back from its visit, the first one finds the other node, empties the slot and comes back. */
  lemma AfterTheTrade(m: State, t: Tid, u: Tid, k: nat, x: Ex.CallId, y: Ex.CallId, o: Ex.State) returns (e: State)
    requires t in m.threads && u in m.threads && t != u && k < |m.slots|
    requires m.threads[t].pc == Visiting(k, x) && m.threads[u].pc == Visiting(k, y)
    requires x in o.calls && y in o.calls && x != y && m.slots[k] == ExM.Claimed(o, x, y)
    requires o.calls[x].pc.Waiting? && o.slot.item == m.threads[t].n && o.calls[y].item == m.threads[u].n
    ensures Legal(m, Times(u, 1) + Times(t, 5)) && e == Exec(m, Times(u, 1) + Times(t, 5))
    ensures e.top == m.top && e.stack == m.stack && |e.slots| == |m.slots| && e.slots[k].slot == Ex.Word(Ex.NULL, Ex.EMPTY)
    ensures Outcome(e, t, m.threads[t].popping, m.threads[u].n)
    ensures Outcome(e, u, m.threads[u].popping, m.threads[t].n)
  {
    var nt, nu := m.threads[t].n, m.threads[u].n;
    var m1 := AfterVisit(m, u, nt);
    assert CanGo(m, u) && GoStep(m, u) == m1;
    ComesBack(m, u, nt);
    var c := ExM.Claimed(o, x, y);
    ExM.CollectAlone(c, x);
    InSlot(m1, t, k, x, 4);
    var m2 := m1.(slots := m1.slots[k := ExM.Collected(c, x)]);
    e := AfterVisit(m2, t, nu);
    assert CanGo(m2, t) && GoStep(m2, t) == e;
    ComesBack(m2, t, nu);
    OneByOne(m, u);
    OneByOne(m2, t);
    RunOn(m1, Times(t, 4), Times(t, 1));
    FourAndOne(t);
    RunOn(m, Times(u, 1), Times(t, 5));
  }

  lemma FourAndOne(t: Tid)
    ensures Times(t, 4) + Times(t, 1) == Times(t, 5)
  {
    assert Times(t, 1) == [Go(t)];
    assert Times(t, 2) == [Go(t), Go(t)];
    assert Times(t, 3) == [Go(t), Go(t), Go(t)];
    assert Times(t, 4) == [Go(t), Go(t), Go(t), Go(t)];
  }

  lemma OneByOne(s: State, t: Tid)
    requires CanGo(s, t)
    ensures Legal(s, Times(t, 1)) && Exec(s, Times(t, 1)) == GoStep(s, t)
  {
    assert Times(t, 0) == [] && Legal(GoStep(s, t), []) && Exec(GoStep(s, t), []) == GoStep(s, t);
    OneMore(s, t, 1);
  }

  lemma ComesBack(s: State, t: Tid, r: Addr)
    requires t in s.threads
    ensures var e := AfterVisit(s, t, r);
            && Outcome(e, t, s.threads[t].popping, r)
            && e.top == s.top && e.stack == s.stack && e.slots == s.slots && s.out <= e.out
            && e.threads == s.threads[t := e.threads[t]]
  {
  }

  /** The run up to the trade. */
  function Approach(t: Tid, u: Tid, k: nat, x: Ex.CallId, y: Ex.CallId): seq<Action> {
    [Draw(t, k, x), Draw(u, k, y)] + (Times(t, 3) + Times(u, 2))
  }

  /** The trade and what follows. */
  function Departure(t: Tid, u: Tid): seq<Action> {
    [Go(u)] + (Times(u, 1) + Times(t, 5))
  }

  /**
    Two threads that draw the same empty slot can always meet in it.  Their
    hands trade; a pop that gets a node returns it, a push that gets none is
    done, one that gets another push's node tries to push that, and the slot is
    empty again.
   */
  lemma TwoMeet(s: State, t: Tid, u: Tid, k: nat, x: Ex.CallId, y: Ex.CallId) returns (m: State, e: State)
    requires t in s.threads && u in s.threads && t != u && s.threads[t].pc.Visit? && s.threads[u].pc.Visit?
    requires k < |s.slots| && s.slots[k].slot.tag == Ex.EMPTY
    requires x !in s.slots[k].calls && y !in s.slots[k].calls && x != y
    ensures Legal(s, Approach(t, u, k, x, y)) && m == Exec(s, Approach(t, u, k, x, y))
    ensures Enabled(m, Go(u)) && Effect(m, Go(u)) == TradingStack.Swap(u, t)
    ensures Legal(s, Approach(t, u, k, x, y) + Departure(t, u))
    ensures e == Exec(s, Approach(t, u, k, x, y) + Departure(t, u))
    ensures e.top == s.top && e.stack == s.stack && k < |e.slots| && e.slots[k].slot == Ex.Word(Ex.NULL, Ex.EMPTY)
    ensures Outcome(e, t, s.threads[t].popping, s.threads[u].n) && Outcome(e, u, s.threads[u].popping, s.threads[t].n)
  {
    hide Legal, Exec, Ex.Legal, Ex.Exec, Times, GoStep, Outcome;
    var s1 := BothDraw(s, t, u, k, x, y);
    m := UpToTheTrade(s1, t, u, k, x, y);
    RunOn(s, [Draw(t, k, x), Draw(u, k, y)], Times(t, 3) + Times(u, 2));
    TheTrade(m, t, u, k, x, y);
    var m1 := GoStep(m, u);
    e := AfterTheTrade(m1, t, u, k, x, y, ExM.Offered(s1.slots[k], x));
    SingleStep(m, Go(u));
    RunOn(m, [Go(u)], Times(u, 1) + Times(t, 5));
    RunOn(s, Approach(t, u, k, x, y), Departure(t, u));
  }

  lemma SingleStep(s: State, a: Action)
    requires Enabled(s, a)
    ensures Legal(s, [a]) && Exec(s, [a]) == Apply(s, a)
  {
    assert [a][1..] == [];
    assert Legal(Apply(s, a), []);
  }

  // ----- nobody comes -----

  /** The thread waits in slot `k`, in call `x`, with its node in the slot. */
  predicate Waits(s: State, t: Tid, k: nat, x: Ex.CallId) {
    && t in s.threads && k < |s.slots| && s.threads[t].pc == Visiting(k, x) && x in s.slots[k].calls
    && s.slots[k].calls[x].pc.Waiting? && s.slots[k].slot == Ex.Word(s.slots[k].calls[x].item, Ex.WAITING)
  }

  /**
    A visit in which nobody comes and the time runs out empties the slot and
    leaves a push with its own node and a pop with none; both try the stack again.
   */
  lemma WaitsInVain(s: State, t: Tid, k: nat, x: Ex.CallId)
    requires Waits(s, t, k, x)
    ensures Legal(s, [GiveUp(t), Go(t), Go(t)])
    ensures var e := Exec(s, [GiveUp(t), Go(t), Go(t)]);
            && e.top == s.top && e.stack == s.stack && k < |e.slots| && e.slots[k].slot == Ex.Word(Ex.NULL, Ex.EMPTY)
            && Outcome(e, t, s.threads[t].popping, s.threads[t].n)
  {
    var e := s.slots[k];
    var s1 := Apply(s, GiveUp(t));
    var s2 := GoStep(s1, t);
    assert s2.slots[k] == Ex.At(Ex.At(e, x, Ex.Expire), x, Ex.TimedOut).(slot := Ex.Word(Ex.NULL, Ex.EMPTY), owner := None);
    ComesBack(s2, t, s.threads[t].n);
    SingleStep(s2, Go(t));
    hide GoVisit, AfterVisit;
    TwoMore(s, s1, s2, t);
  }

  lemma TwoMore(s: State, s1: State, s2: State, t: Tid)
    requires Enabled(s, GiveUp(t)) && s1 == Apply(s, GiveUp(t)) && CanGo(s1, t) && s2 == GoStep(s1, t)
    requires CanGo(s2, t)
    ensures Legal(s, [GiveUp(t), Go(t), Go(t)]) && Exec(s, [GiveUp(t), Go(t), Go(t)]) == GoStep(s2, t)
  {
    SingleStep(s2, Go(t));
    assert [Go(t), Go(t)][1..] == [Go(t)] && [GiveUp(t), Go(t), Go(t)][1..] == [Go(t), Go(t)];
    assert Legal(s1, [Go(t), Go(t)]) && Exec(s1, [Go(t), Go(t)]) == GoStep(s2, t);
  }

  /** A visit that times out before it has found the slot empty or someone waiting. */
  lemma TimesOutAtOnce(s: State, t: Tid, k: nat, x: Ex.CallId)
    requires t in s.threads && k < |s.slots| && s.threads[t].pc == Visiting(k, x)
    requires x in s.slots[k].calls && s.slots[k].calls[x].pc.Loop?
    ensures Legal(s, [GiveUp(t), Go(t)])
    ensures var e := Exec(s, [GiveUp(t), Go(t)]);
            && e.top == s.top && e.stack == s.stack && k < |e.slots| && e.slots[k].slot == s.slots[k].slot
            && Outcome(e, t, s.threads[t].popping, s.threads[t].n)
  {
    var s1 := Apply(s, GiveUp(t));
    ComesBack(s1, t, s.threads[t].n);
    SingleStep(s1, Go(t));
    assert [GiveUp(t), Go(t)][1..] == [Go(t)];
  }

  /** Left alone in an empty slot, a visit comes to wait there. */
  lemma ComesToWait(s: State, t: Tid, k: nat, x: Ex.CallId)
    requires t in s.threads && k < |s.slots| && s.threads[t].pc == Visiting(k, x)
    requires x in s.slots[k].calls && s.slots[k].calls[x].pc.Loop? && s.slots[k].slot.tag == Ex.EMPTY
    ensures Legal(s, Times(t, 3)) && Waits(Exec(s, Times(t, 3)), t, k, x)
    ensures Exec(s, Times(t, 3)) == s.(slots := s.slots[k := ExM.Offered(s.slots[k], x)])
  {
    ExM.OfferAlone(s.slots[k], x);
    InSlot(s, t, k, x, 3);
  }
}
