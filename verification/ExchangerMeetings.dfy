/** Calls of `exchange` that nobody else interferes with: what they come to, and in how many steps. */
module ExchangerMeetings {
  import opened Exchanger
  import opened Options

  function Times(id: CallId, k: nat): seq<Action> {
    if k == 0 then [] else [Go(id)] + Times(id, k - 1)
  }

  lemma OneMore(s: State, id: CallId, k: nat)
    requires 0 < k && Enabled(s, Go(id)) && Legal(GoStep(s, id), Times(id, k - 1))
    ensures Legal(s, Times(id, k)) && Exec(s, Times(id, k)) == Exec(GoStep(s, id), Times(id, k - 1))
  {
    assert Times(id, k)[0] == Go(id) && Times(id, k)[1..] == Times(id, k - 1);
  }

  lemma {:induction false} RunOn(s: State, p: seq<Action>, q: seq<Action>)
    requires Legal(s, p) && Legal(Exec(s, p), q)
    ensures Legal(s, p + q) && Exec(s, p + q) == Exec(Exec(s, p), q)
    decreases |p|
  {
    hide Enabled, Apply;
    if p == [] {
      assert p + q == q;
    } else {
      assert (p + q)[0] == p[0] && (p + q)[1..] == p[1..] + q;
      RunOn(Apply(s, p[0]), p[1..], q);
    }
  }

  /** None of these steps of `id` is a trade. */
  predicate Quiet(s: State, id: CallId, k: nat)
    requires Legal(s, Times(id, k))
    decreases k
  {
    k == 0 || (assert Times(id, k)[0] == Go(id) && Times(id, k)[1..] == Times(id, k - 1);
               !IsTrade(s, Go(id)) && Quiet(GoStep(s, id), id, k - 1))
  }

  // ----- an empty slot -----

  /** The item of `x` is in the slot. */
  function Offered(s: State, x: CallId): State
    requires x in s.calls
  {
    At(s, x, Waiting).(slot := Word(s.calls[x].item, WAITING), owner := Some(x))
  }

  lemma OfferAlone(s: State, x: CallId)
    requires x in s.calls && s.calls[x].pc.Loop? && s.slot.tag == EMPTY
    ensures Legal(s, Times(x, 3)) && Exec(s, Times(x, 3)) == Offered(s, x) && Quiet(s, x, 3)
  {
    var s1 := GoStep(s, x);
    var s2 := GoStep(s1, x);
    var s3 := GoStep(s2, x);
    assert s3.calls == Offered(s, x).calls;
    assert Times(x, 0) == [] && Legal(s3, []) && Exec(s3, []) == s3;
    OneMore(s2, x, 1);
    OneMore(s1, x, 2);
    OneMore(s, x, 3);
    assert Quiet(s2, x, 1) && Quiet(s1, x, 2);
  }

  // ----- an item waiting -----

  /** `y` has taken the item of `x` and has left its own. */
  function Claimed(s: State, x: CallId, y: CallId): State
    requires x in s.calls && y in s.calls && x != y
  {
    s.(slot := Word(s.calls[y].item, BUSY),
       calls := s.calls[y := s.calls[y].(pc := Returned(s.slot.item), mate := Some(x))]
                       [x := s.calls[x].(mate := Some(y))])
  }

  /** Two steps bring `y` to its CAS, the third is the trade. */
  lemma ClaimAlone(s: State, x: CallId, y: CallId)
    requires y in s.calls && s.calls[y].pc.Loop? && s.slot.tag == WAITING
    requires s.owner == Some(x) && x in s.calls && x != y
    ensures Legal(s, Times(y, 2)) && Quiet(s, y, 2)
    ensures Exec(s, Times(y, 2)) == At(s, y, GotBoth(WAITING, s.slot.item))
    ensures IsTrade(Exec(s, Times(y, 2)), Go(y))
    ensures Legal(s, Times(y, 3)) && Exec(s, Times(y, 3)) == Claimed(s, x, y)
  {
    var s1 := GoStep(s, y);
    var s2 := GoStep(s1, y);
    assert s2.calls == At(s, y, GotBoth(WAITING, s.slot.item)).calls;
    var s3 := GoStep(s2, y);
    assert s3.calls == Claimed(s, x, y).calls;
    assert Times(y, 0) == [] && Legal(s3, []) && Exec(s3, []) == s3 && Legal(s2, []) && Exec(s2, []) == s2;
    OneMore(s1, y, 1);
    OneMore(s, y, 2);
    assert Quiet(s1, y, 1);
    OneMore(s2, y, 1);
    OneMore(s1, y, 2);
    OneMore(s, y, 3);
  }

  // ----- an item taken -----

  /** `x` has found that its item is gone, and has emptied the slot. */
  function Collected(s: State, x: CallId): State
    requires x in s.calls
  {
    At(s, x, Returned(s.slot.item)).(slot := Word(NULL, EMPTY), owner := None)
  }

  lemma CollectAlone(s: State, x: CallId)
    requires x in s.calls && s.calls[x].pc.Waiting? && s.slot.tag == BUSY
    ensures Legal(s, Times(x, 4)) && Exec(s, Times(x, 4)) == Collected(s, x) && Quiet(s, x, 4)
  {
    var s1 := GoStep(s, x);
    var s2 := GoStep(s1, x);
    var s3 := GoStep(s2, x);
    var s4 := GoStep(s3, x);
    assert s4.calls == Collected(s, x).calls;
    assert Times(x, 0) == [] && Legal(s4, []) && Exec(s4, []) == s4;
    OneMore(s3, x, 1);
    OneMore(s2, x, 2);
    OneMore(s1, x, 3);
    OneMore(s, x, 4);
    assert Quiet(s3, x, 1) && Quiet(s2, x, 2) && Quiet(s1, x, 3);
  }

  // ----- a meeting -----

  /**
    In an empty slot a call puts its item, a second one takes it and leaves its
    own, the first one takes that and empties the slot: both return with each
    other's items after seven steps and three.
   */
  lemma TwoMeet(s: State, x: CallId, y: CallId)
    requires Inv(s) && s.slot.tag == EMPTY && x != y
    requires x in s.calls && s.calls[x].pc.Loop? && y in s.calls && s.calls[y].pc.Loop?
    ensures Legal(s, Times(x, 3)) && Exec(s, Times(x, 3)).slot == Word(s.calls[x].item, WAITING)
    ensures Legal(s, Times(x, 3) + Times(y, 3))
    ensures var m := Exec(s, Times(x, 3) + Times(y, 3));
            y in m.calls && m.calls[y].pc == Returned(s.calls[x].item) && m.slot == Word(s.calls[y].item, BUSY)
    ensures Legal(s, Times(x, 3) + Times(y, 3) + Times(x, 4))
    ensures var e := Exec(s, Times(x, 3) + Times(y, 3) + Times(x, 4));
            && e.slot == Word(NULL, EMPTY) && Traded(e, x, y)
            && e.calls[x].pc == Returned(s.calls[y].item) && e.calls[y].pc == Returned(s.calls[x].item)
            && forall k | k in s.calls && k != x && k != y :: k in e.calls && e.calls[k] == s.calls[k]
  {
    hide Legal, Exec, Inv;
    OfferAlone(s, x);
    var s1 := Offered(s, x);
    ClaimAlone(s1, x, y);
    var s2 := Claimed(s1, x, y);
    CollectAlone(s2, x);
    RunOn(s, Times(x, 3), Times(y, 3));
    RunOn(s, Times(x, 3) + Times(y, 3), Times(x, 4));
  }

  // ----- nobody comes -----

  /** A waiter left alone that runs out of time takes its item back. */
  lemma WithdrawAlone(s: State, x: CallId)
    requires x in s.calls && s.calls[x].pc.Waiting? && s.slot == Word(s.calls[x].item, WAITING)
    ensures Legal(s, [GiveUp(x), Go(x)])
    ensures Exec(s, [GiveUp(x), Go(x)]) == At(s, x, TimedOut).(slot := Word(NULL, EMPTY), owner := None)
  {
    var s1 := At(s, x, Expire);
    var s2 := GoStep(s1, x);
    assert s2.calls == At(s, x, TimedOut).calls;
    assert [GiveUp(x), Go(x)][1..] == [Go(x)] && [Go(x)][1..] == [];
    assert Legal(s2, []) && Exec(s2, []) == s2;
    assert Legal(s1, [Go(x)]) && Exec(s1, [Go(x)]) == s2;
  }

  /** One that runs out of time after its item has been taken returns with the other one's item all the same. */
  lemma LateCollect(s: State, x: CallId)
    requires x in s.calls && s.calls[x].pc.Expire? && s.slot.tag == BUSY
    ensures Legal(s, Times(x, 4)) && Exec(s, Times(x, 4)) == Collected(s, x)
  {
    var s1 := GoStep(s, x);
    var s2 := GoStep(s1, x);
    var s3 := GoStep(s2, x);
    var s4 := GoStep(s3, x);
    assert s4.calls == Collected(s, x).calls;
    assert Times(x, 0) == [] && Legal(s4, []) && Exec(s4, []) == s4;
    OneMore(s3, x, 1);
    OneMore(s2, x, 2);
    OneMore(s1, x, 3);
    OneMore(s, x, 4);
  }

  /** A waiter whose item is still there goes on waiting. */
  lemma WaitsOn(s: State, x: CallId)
    requires x in s.calls && s.calls[x].pc.Waiting? && s.slot.tag == WAITING
    ensures Legal(s, Times(x, 3)) && Exec(s, Times(x, 3)) == s
  {
    var s1 := GoStep(s, x);
    var s2 := GoStep(s1, x);
    var s3 := GoStep(s2, x);
    assert s3.calls == s.calls;
    assert Times(x, 0) == [] && Legal(s3, []) && Exec(s3, []) == s3;
    OneMore(s2, x, 1);
    OneMore(s1, x, 2);
    OneMore(s, x, 3);
  }

  /** A call that finds two others trading starts over. */
  lemma BusyStartsOver(s: State, x: CallId)
    requires x in s.calls && s.calls[x].pc.Loop? && s.slot.tag == BUSY
    ensures Legal(s, Times(x, 3)) && Exec(s, Times(x, 3)) == s
  {
    var s1 := GoStep(s, x);
    var s2 := GoStep(s1, x);
    var s3 := GoStep(s2, x);
    assert s3.calls == s.calls;
    assert Times(x, 0) == [] && Legal(s3, []) && Exec(s3, []) == s3;
    OneMore(s2, x, 1);
    OneMore(s1, x, 2);
    OneMore(s, x, 3);
  }

  /** A CAS of a call that was overtaken fails, and the call starts over. */
  lemma OvertakenStartsOver(s: State, x: CallId)
    requires x in s.calls && s.calls[x].pc.GotBoth? && s.slot != Word(s.calls[x].pc.other, s.calls[x].pc.tag)
    ensures Enabled(s, Go(x)) && GoStep(s, x) == At(s, x, Loop)
  {
  }
}
