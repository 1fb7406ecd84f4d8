/**
  One exchanger slot, used by any number of calls of `exchange`.  Every read and
  write of the slot word is a step; `Slot::get` reads the word twice, once for
  the tag and once for the item.  Timeouts may strike whenever the code looks at
  the time.  `owner` and `mate` are history.
 */
module Exchanger {
  import opened Options

  type Item = nat
  type CallId = nat

  const NULL: Item := 0

  datatype Tag = EMPTY | WAITING | BUSY

  /** The slot word.  `Slots` shows that packing tag and item in 64 bits loses nothing. */
  datatype Word = Word(item: Item, tag: Tag)

  datatype PC =
    | Loop                            // about to read the tag
    | GotTag(tag: Tag)                // about to read the item
    | GotBoth(tag: Tag, other: Item)  // about to CAS, or to start over
    | Waiting                         // put its item in the slot
    | WaitTag(tag: Tag)
    | WaitBoth(tag: Tag, other: Item)
    | Expire                          // about to withdraw its item
    | LateTag                         // could not withdraw: someone came
    | LateItem
    | Clear(other: Item)              // about to store EMPTY and return `other`
    | Returned(other: Item)
    | TimedOut

  datatype Call = Call(client: nat, item: Item, pc: PC, mate: Option<CallId>)

  datatype State = State(slot: Word, calls: map<CallId, Call>, owner: Option<CallId>)

  function Init(): State {
    State(Word(NULL, EMPTY), map[], None)
  }

  datatype Action =
    | Begin(id: CallId, client: nat, item: Item)
    | Go(id: CallId)
    | GiveUp(id: CallId)  // the clock says the time is up

  predicate Finished(pc: PC) {
    pc.Returned? || pc.TimedOut?
  }

  predicate Enabled(s: State, a: Action) {
    match a
    case Begin(id, _, _) => id !in s.calls
    case Go(id) => id in s.calls && !Finished(s.calls[id].pc)
    case GiveUp(id) => id in s.calls && (s.calls[id].pc.Loop? || s.calls[id].pc.Waiting?)
  }

  function At(s: State, id: CallId, pc: PC): State
    requires id in s.calls
  {
    s.(calls := s.calls[id := s.calls[id].(pc := pc)])
  }

  /** CAS from EMPTY to WAITING. */
  function Offer(s: State, id: CallId, seen: Item): State
    requires id in s.calls
  {
    if s.slot == Word(seen, EMPTY)
    then At(s, id, Waiting).(slot := Word(s.calls[id].item, WAITING), owner := Some(id))
    else At(s, id, Loop)
  }

  function SetMate(calls: map<CallId, Call>, id: CallId, mate: CallId): map<CallId, Call> {
    if id in calls then calls[id := calls[id].(mate := Some(mate))] else calls
  }

  /** CAS from WAITING to BUSY. */
  function Claim(s: State, id: CallId, seen: Item): State
    requires id in s.calls
  {
    if s.slot == Word(seen, WAITING) then
      var s' := At(s, id, Returned(seen)).(slot := Word(s.calls[id].item, BUSY));
      if s.owner.Some?
      then s'.(calls := SetMate(SetMate(s'.calls, id, s.owner.value), s.owner.value, id))
      else s'
    else At(s, id, Loop)
  }

  /** CAS from WAITING back to EMPTY. */
  function Withdraw(s: State, id: CallId): State
    requires id in s.calls
  {
    if s.slot == Word(s.calls[id].item, WAITING)
    then At(s, id, TimedOut).(slot := Word(NULL, EMPTY), owner := None)
    else At(s, id, LateTag)
  }

  function GoStep(s: State, id: CallId): State
    requires Enabled(s, Go(id))
  {
    match s.calls[id].pc
    case Loop => At(s, id, GotTag(s.slot.tag))
    case GotTag(tag) => At(s, id, GotBoth(tag, s.slot.item))
    case GotBoth(tag, other) =>
      (match tag
       case EMPTY => Offer(s, id, other)
       case WAITING => Claim(s, id, other)
       case BUSY => At(s, id, Loop))
    case Waiting => At(s, id, WaitTag(s.slot.tag))
    case WaitTag(tag) => At(s, id, WaitBoth(tag, s.slot.item))
    case WaitBoth(tag, other) => At(s, id, if tag == BUSY then Clear(other) else Waiting)
    case Expire => Withdraw(s, id)
    case LateTag => At(s, id, LateItem)
    case LateItem => At(s, id, Clear(s.slot.item))
    case Clear(other) => At(s, id, Returned(other)).(slot := Word(NULL, EMPTY), owner := None)
    case Returned(_) => s
    case TimedOut => s
  }

  function Apply(s: State, a: Action): State
    requires Enabled(s, a)
  {
    match a
    case Begin(id, client, item) => s.(calls := s.calls[id := Call(client, item, Loop, None)])
    case Go(id) => GoStep(s, id)
    case GiveUp(id) => At(s, id, if s.calls[id].pc.Loop? then TimedOut else Expire)
  }

  // ----- what every step keeps -----

  /** The item is in the slot and nobody but this call will take the slot back to EMPTY. */
  predicate InSlot(pc: PC) {
    pc.Waiting? || pc.WaitTag? || pc.WaitBoth? || pc.Expire? || pc.LateTag? || pc.LateItem? || pc.Clear?
  }

  predicate SlotOk(s: State) {
    match s.slot.tag
    case EMPTY => s.slot.item == NULL && s.owner.None?
    case WAITING =>
      && s.owner.Some? && s.owner.value in s.calls && InSlot(s.calls[s.owner.value].pc)
      && s.slot.item == s.calls[s.owner.value].item && s.calls[s.owner.value].mate.None?
    case BUSY =>
      && s.owner.Some? && s.owner.value in s.calls && InSlot(s.calls[s.owner.value].pc)
      && var w := s.calls[s.owner.value];
         && w.mate.Some? && w.mate.value in s.calls && w.mate.value != s.owner.value
         && s.calls[w.mate.value].pc == Returned(w.item)
         && s.slot.item == s.calls[w.mate.value].item
  }

  predicate CallOk(s: State, id: CallId)
    requires id in s.calls
  {
    var call := s.calls[id];
    && (InSlot(call.pc) ==> s.owner == Some(id))
    && (call.mate.Some? ==>
          && call.mate.value in s.calls && call.mate.value != id
          && s.calls[call.mate.value].mate == Some(id)
          && (call.pc.Returned? || (s.owner == Some(id) && s.slot.tag == BUSY)))
    && match call.pc
       case WaitTag(tag) => tag == BUSY ==> s.slot.tag == BUSY
       case WaitBoth(tag, other) => tag == BUSY ==> s.slot == Word(other, BUSY)
       case LateTag => s.slot.tag == BUSY
       case LateItem => s.slot.tag == BUSY
       case Clear(other) => s.slot == Word(other, BUSY)
       case Returned(other) => call.mate.Some? && call.mate.value in s.calls && other == s.calls[call.mate.value].item
       case _ => true
  }

  ghost predicate Inv(s: State) {
    SlotOk(s) && forall id | id in s.calls :: CallOk(s, id)
  }

  lemma InitOk()
    ensures Inv(Init())
  {
  }

  lemma ClaimKeeps(s: State, id: CallId)
    requires Inv(s) && Enabled(s, Go(id)) && s.calls[id].pc.GotBoth? && s.calls[id].pc.tag == WAITING
    ensures Inv(GoStep(s, id))
  {
    var s' := GoStep(s, id);
    if s.slot == Word(s.calls[id].pc.other, WAITING) {
      var w := s.owner.value;
      assert w != id;
      forall k | k in s'.calls ensures CallOk(s', k) { assert CallOk(s, k); }
    }
  }

  /** Steps that store EMPTY. */
  lemma ReleaseKeeps(s: State, id: CallId)
    requires Inv(s) && Enabled(s, Go(id)) && (s.calls[id].pc.Expire? || s.calls[id].pc.Clear?)
    ensures Inv(GoStep(s, id))
  {
    var s' := GoStep(s, id);
    assert CallOk(s, id);
    forall k | k in s'.calls ensures CallOk(s', k) { assert CallOk(s, k); }
  }

  lemma OfferKeeps(s: State, id: CallId)
    requires Inv(s) && Enabled(s, Go(id)) && s.calls[id].pc.GotBoth? && s.calls[id].pc.tag == EMPTY
    ensures Inv(GoStep(s, id))
  {
    var s' := GoStep(s, id);
    assert CallOk(s, id);
    forall k | k in s'.calls ensures CallOk(s', k) { assert CallOk(s, k); }
  }

  /** Steps that only move the call on. */
  lemma MoveKeeps(s: State, id: CallId, pc: PC)
    requires Inv(s) && id in s.calls && InSlot(pc) == InSlot(s.calls[id].pc)
    requires !pc.Returned? && !s.calls[id].pc.Returned?
    requires CallOk(At(s, id, pc), id)
    ensures Inv(At(s, id, pc))
  {
    var s' := At(s, id, pc);
    forall k | k in s'.calls ensures CallOk(s', k) { assert CallOk(s, k); }
  }

  lemma QuietKeeps(s: State, id: CallId)
    requires Inv(s) && Enabled(s, Go(id)) && !s.calls[id].pc.Expire? && !s.calls[id].pc.Clear?
    requires s.calls[id].pc.GotBoth? ==> s.calls[id].pc.tag == BUSY
    ensures Inv(GoStep(s, id))
  {
    assert CallOk(s, id);
    MoveKeeps(s, id, GoStep(s, id).calls[id].pc);
  }

  lemma GoKeeps(s: State, id: CallId)
    requires Inv(s) && Enabled(s, Go(id))
    ensures Inv(GoStep(s, id))
  {
    var pc := s.calls[id].pc;
    if pc.GotBoth? && pc.tag == WAITING {
      ClaimKeeps(s, id);
    } else if pc.Expire? || pc.Clear? {
      ReleaseKeeps(s, id);
    } else if pc.GotBoth? && pc.tag == EMPTY {
      OfferKeeps(s, id);
    } else {
      QuietKeeps(s, id);
    }
  }

  lemma StepKeeps(s: State, a: Action)
    requires Inv(s) && Enabled(s, a)
    ensures Inv(Apply(s, a))
  {
    var s' := Apply(s, a);
    match a
    case Go(id) => GoKeeps(s, id);
    case Begin(id, _, _) => forall k | k in s'.calls ensures CallOk(s', k) { if k != id { assert CallOk(s, k); } }
    case GiveUp(id) => forall k | k in s'.calls ensures CallOk(s', k) { assert CallOk(s, k); }
  }

  // ----- runs -----

  predicate Legal(s: State, run: seq<Action>)
    decreases |run|
  {
    run == [] || (Enabled(s, run[0]) && Legal(Apply(s, run[0]), run[1..]))
  }

  function Exec(s: State, run: seq<Action>): State
    requires Legal(s, run)
    decreases |run|
  {
    if run == [] then s else Exec(Apply(s, run[0]), run[1..])
  }

  lemma {:induction false} RunKeeps(s: State, run: seq<Action>)
    requires Inv(s) && Legal(s, run)
    ensures Inv(Exec(s, run))
    decreases |run|
  {
    if run != [] {
      StepKeeps(s, run[0]);
      RunKeeps(Apply(s, run[0]), run[1..]);
    }
  }

  // ----- pairing -----

  /** `x` and `y` got each other's items. */
  predicate Traded(s: State, x: CallId, y: CallId) {
    && x in s.calls && y in s.calls && x != y
    && s.calls[x].mate == Some(y) && s.calls[y].mate == Some(x)
  }

  /**
    After any run: a call that returned did so with the item of exactly one
    other call, which returns, or is bound to return, with this one's item; a
    call that timed out, or is still looking, has traded with nobody.
   */
  lemma Pairing(run: seq<Action>, x: CallId)
    requires Legal(Init(), run) && x in Exec(Init(), run).calls
    ensures var s := Exec(Init(), run);
            var call := s.calls[x];
            && (call.pc.Returned? ==>
                  && (exists y :: Traded(s, x, y))
                  && forall y | Traded(s, x, y) ::
                       && call.pc.other == s.calls[y].item
                       && (s.calls[y].pc == Returned(call.item)
                           || (s.owner == Some(y) && s.slot == Word(call.item, BUSY))))
            && (!call.pc.Returned? && !InSlot(call.pc) ==> forall y :: !Traded(s, x, y))
            && (forall y, z | Traded(s, x, y) && Traded(s, x, z) :: y == z)
  {
    InitOk();
    RunKeeps(Init(), run);
    var s := Exec(Init(), run);
    assert CallOk(s, x);
    if s.calls[x].pc.Returned? {
      assert CallOk(s, s.calls[x].mate.value);
      assert Traded(s, x, s.calls[x].mate.value);
    }
  }

  /** Only the call whose item went into the slot can take the slot out of BUSY, by storing EMPTY. */
  lemma OnlyWaiterLeavesBusy(s: State, a: Action)
    requires Inv(s) && Enabled(s, a) && s.slot.tag == BUSY && Apply(s, a).slot != s.slot
    ensures a == Go(s.owner.value) && Apply(s, a).slot == Word(NULL, EMPTY)
    ensures s.calls[s.owner.value].pc == Clear(s.slot.item)
    ensures Apply(s, a).calls[s.owner.value].pc == Returned(s.slot.item)
  {
    match a
    case Go(id) => assert CallOk(s, id);
    case Begin(_, _, _) =>
    case GiveUp(_) =>
  }

  // ----- exchanging as trading hands -----

  /** The item that is with a call: its own until the trade, then its partner's. */
  function Holding(s: State, id: CallId): Item
    requires id in s.calls
  {
    var call := s.calls[id];
    if call.pc.Returned? then call.pc.other
    else if s.owner == Some(id) && s.slot.tag == BUSY then s.slot.item
    else call.item
  }

  /** The step is a CAS from WAITING to BUSY that succeeds. */
  predicate IsTrade(s: State, a: Action) {
    && a.Go? && a.id in s.calls
    && s.calls[a.id].pc.GotBoth? && s.calls[a.id].pc.tag == WAITING
    && s.slot == Word(s.calls[a.id].pc.other, WAITING)
    && s.owner.Some? && s.owner.value in s.calls
  }

  /** A step moves on no other call than its own, and changes nobody's item. */
  lemma StepKeepsOthers(s: State, a: Action, k: CallId)
    requires Enabled(s, a) && k in s.calls
    ensures k in Apply(s, a).calls
    ensures Apply(s, a).calls[k].client == s.calls[k].client && Apply(s, a).calls[k].item == s.calls[k].item
    ensures k != a.id ==> Apply(s, a).calls[k].pc == s.calls[k].pc
    ensures forall j | j in Apply(s, a).calls :: j in s.calls || j == a.id
  {
  }

  /** A successful CAS from WAITING to BUSY swaps two calls' items; no other step moves any item. */
  lemma StepTrades(s: State, a: Action, k: CallId)
    requires Inv(s) && Enabled(s, a) && k in s.calls
    ensures k in Apply(s, a).calls
    ensures IsTrade(s, a) ==> s.owner != Some(a.id)
    ensures Holding(Apply(s, a), k) ==
            if IsTrade(s, a) && k == a.id then Holding(s, s.owner.value)
            else if IsTrade(s, a) && Some(k) == s.owner then Holding(s, a.id)
            else Holding(s, k)
  {
    assert CallOk(s, k);
    match a
    case Go(id) => assert CallOk(s, id);
    case Begin(_, _, _) =>
    case GiveUp(_) =>
  }
}
