/** The slot of an exchanger: an item and a state packed in one 64-bit word. */
module Slots {

  const EMPTY: bv64 := 0
  const WAITING: bv64 := 1
  const BUSY: bv64 := 2

  function Pack(n: bv64, state: bv64): bv64 {
    n | (state & 3)
  }

  function StateOf(data: bv64): bv64 {
    data & 3
  }

  function ItemOf(data: bv64): bv64 {
    data & 0xFFFF_FFFF_FFFF_FFFC
  }

  lemma ItemPart(n: bv64, state: bv64)
    ensures (n | (state & 3)) & 0xFFFF_FFFF_FFFF_FFFC == n & 0xFFFF_FFFF_FFFF_FFFC
  {
  }

  lemma Aligned(n: bv64)
    ensures n & 0xFFFF_FFFF_FFFF_FFFC == n <==> n & 3 == 0
  {
  }

  lemma StatePart(n: bv64, state: bv64)
    requires n & 3 == 0
    ensures (n | (state & 3)) & 3 == state & 3
  {
  }

  lemma SmallState(state: bv64)
    requires state <= 3
    ensures state & 3 == state
  {
  }

  /** `Slot::get` gives back what `Slot::set` packed exactly for pointers aligned to four bytes. */
  lemma PackReadsBack(n: bv64, state: bv64)
    requires state <= 3
    ensures ItemOf(Pack(n, state)) == n <==> n & 3 == 0
    ensures n & 3 == 0 ==> StateOf(Pack(n, state)) == state
  {
    ItemPart(n, state);
    Aligned(n);
    SmallState(state);
    if n & 3 == 0 { StatePart(n, state); }
  }

  /** Comparing packed words is comparing items and states. */
  lemma PackInjective(n: bv64, m: bv64, a: bv64, b: bv64)
    requires n & 3 == 0 && m & 3 == 0 && a <= 3 && b <= 3
    ensures Pack(n, a) == Pack(m, b) <==> n == m && a == b
  {
    PackReadsBack(n, a);
    PackReadsBack(m, b);
  }

  class Slot {
    var data: bv64
    ghost var item: bv64
    ghost var state: bv64

    ghost predicate Valid()
      reads this
    {
      item & 3 == 0 && state <= 3 && data == Pack(item, state)
    }

    constructor ()
      ensures Valid() && item == 0 && state == EMPTY
    {
      data := 0;
      item, state := 0, EMPTY;
    }

    method Set(n: bv64, st: bv64)
      requires n & 3 == 0 && st <= 3
      modifies this
      ensures Valid() && item == n && state == st
    {
      data := Pack(n, st);
      item, state := n, st;
    }

    /** Without interference the two reads of `get` see the same word. */
    method Get() returns (st: bv64, n: bv64)
      requires Valid()
      ensures st == state && n == item
    {
      PackReadsBack(item, state);
      st := StateOf(data);
      n := ItemOf(data);
    }

    method CompareAndSet(oldN: bv64, newN: bv64, oldState: bv64, newState: bv64) returns (done: bool)
      requires Valid() && oldN & 3 == 0 && newN & 3 == 0 && oldState <= 3 && newState <= 3
      modifies this
      ensures Valid()
      ensures done <==> old(item) == oldN && old(state) == oldState
      ensures item == (if done then newN else old(item)) && state == (if done then newState else old(state))
    {
      PackInjective(item, oldN, state, oldState);
      var oldData, newData := Pack(oldN, oldState), Pack(newN, newState);
      done := data == oldData;
      if done {
        data := newData;
        item, state := newN, newState;
      }
    }
  }
}
