/** What happens to the slots of the array lock when the ticket counter wraps. */
module Rollover {
  import opened CellNumbers

  /** The slot that `lock` computes for the `k`-th ticket from a counter that wraps at `modulus`. */
  function SlotOf(k: nat, modulus: nat, size: nat): nat
    requires 0 < modulus && 0 < size
  {
    (k % modulus) % size
  }

  /** `unlock` passes the lock from slot to slot; this reaches the next ticket if the slots follow the tickets. */
  ghost predicate SlotsFollowTickets(modulus: nat, size: nat)
    requires 0 < modulus && 0 < size
  {
    forall k: nat :: SlotOf(k + 1, modulus, size) == (SlotOf(k, modulus, size) + 1) % size
  }

  /** A counter of `bits` bits is good for exactly those sizes that divide its range. */
  lemma RolloverSafe(bits: nat, size: nat)
    requires 0 < size
    ensures SlotsFollowTickets(Power(bits), size) <==> Power(bits) % size == 0
  {
    hide SlotOf;
    var m := Power(bits);
    if m % size == 0 {
      forall k: nat ensures SlotOf(k + 1, m, size) == (SlotOf(k, m, size) + 1) % size { AcrossTheWrap(k, m, size); }
    }
    if SlotsFollowTickets(m, size) {
      assert SlotOf(m - 1 + 1, m, size) == (SlotOf(m - 1, m, size) + 1) % size;
      AtTheWrap(m, size);
    }
  }

  lemma AtTheWrap(m: nat, size: nat)
    requires 0 < size && 0 < m
    ensures SlotOf(m, m, size) == 0
    ensures (SlotOf(m - 1, m, size) + 1) % size == m % size
  {
    CellOf(1, 0, m);
    CellOf(0, 0, size);
    CellOf(0, m - 1, m);
    NextCell(m - 1, size);
  }

  lemma AcrossTheWrap(k: nat, m: nat, size: nat)
    requires 0 < size && 0 < m && m % size == 0
    ensures SlotOf(k + 1, m, size) == (SlotOf(k, m, size) + 1) % size
  {
    NextCell(k, m);
    NextCell(k % m, size);
    if k % m + 1 < m {
      CellOf(0, k % m + 1, m);
    } else {
      CellOf(1, 0, m);
    }
  }
}
