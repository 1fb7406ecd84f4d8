/** How large the array of a space-optimized buffer becomes, in numbers. */
module ArraySizes {
  import opened RingSpec

  function Greatest(x: nat, y: nat): nat {
    if x >= y then x else y
  }

  /** 2^j * c */
  function Doubled(c: nat, j: nat): nat {
    if j == 0 then c else 2 * Doubled(c, j - 1)
  }

  /** c / 2^j */
  function Halving(c: nat, j: nat): nat {
    if j == 0 then c else Halving(c, j - 1) / 2
  }

  /** `c` cells, or twice as many if not more than a fifth of them would be free, but not more than `cap`. */
  function WithReserve(c: nat, used: nat, cap: nat): nat {
    Least(cap, if used + c / 5 >= c then 2 * c else c)
  }

  /**
    Room for `need` elements: an array that is too small is doubled, one of no
    cells counting as one, just until it is large enough.
   */
  ghost predicate Grown(was: nat, need: nat, cap: nat, now: nat) {
    if need <= was then now == was
    else exists j: nat ::
      && need <= Doubled(Greatest(was, 1), j) && (j > 0 ==> Doubled(Greatest(was, 1), j - 1) < need)
      && now == WithReserve(Doubled(Greatest(was, 1), j), need, cap)
  }

  /** After `j` halvings, none in vain: less than a third was in use before each, and only the last may pass the minimum. */
  ghost predicate HalvedTimes(was: nat, size: nat, min: nat, j: nat) {
    forall i | 0 <= i < j :: Halving(was, i) / 3 >= size && (i > 0 ==> Halving(was, i) > min)
  }

  /** The array is halved until a third of it is in use or it is at the minimum. */
  ghost predicate Shrunk(was: nat, size: nat, min: nat, cap: nat, now: nat) {
    exists j: nat ::
      && HalvedTimes(was, size, min, j)
      && if j > 0 && Halving(was, j) <= min then now == WithReserve(min, size, cap)
         else Halving(was, j) / 3 < size && now == WithReserve(Halving(was, j), size, cap)
  }

  lemma {:induction false} DoublingGrows(c: nat, i: nat, j: nat)
    requires i <= j
    ensures Doubled(c, i) <= Doubled(c, j)
  {
    if i < j { DoublingGrows(c, i, j - 1); }
  }

  /** `Grown` names one number. */
  lemma GrownOnce(was: nat, need: nat, cap: nat, x: nat, y: nat)
    requires Grown(was, need, cap, x) && Grown(was, need, cap, y)
    ensures x == y
  {
    if need > was {
      var c := Greatest(was, 1);
      var i: nat :| need <= Doubled(c, i) && (i > 0 ==> Doubled(c, i - 1) < need) && x == WithReserve(Doubled(c, i), need, cap);
      var j: nat :| need <= Doubled(c, j) && (j > 0 ==> Doubled(c, j - 1) < need) && y == WithReserve(Doubled(c, j), need, cap);
      hide Doubled, WithReserve;
      if i < j { DoublingGrows(c, i, j - 1); } else if j < i { DoublingGrows(c, j, i - 1); }
    }
  }

  /** `Shrunk` names one number. */
  lemma ShrunkOnce(was: nat, size: nat, min: nat, cap: nat, x: nat, y: nat)
    requires Shrunk(was, size, min, cap, x) && Shrunk(was, size, min, cap, y)
    ensures x == y
  {
    var i: nat :| HalvedTimes(was, size, min, i)
      && if i > 0 && Halving(was, i) <= min then x == WithReserve(min, size, cap)
         else Halving(was, i) / 3 < size && x == WithReserve(Halving(was, i), size, cap);
    var j: nat :| HalvedTimes(was, size, min, j)
      && if j > 0 && Halving(was, j) <= min then y == WithReserve(min, size, cap)
         else Halving(was, j) / 3 < size && y == WithReserve(Halving(was, j), size, cap);
  }

  /** Growing never takes more than five halves of what is needed, and makes the array twice as large unless it is capped. */
  lemma GrownBound(was: nat, need: nat, cap: nat, now: nat)
    requires Grown(was, need, cap, now) && was <= cap
    ensures 2 * now <= Greatest(2 * was, 5 * need)
    ensures now == cap || need <= now
    ensures need > was ==> now == cap || now >= 2 * was
  {
    if need > was {
      var c := Greatest(was, 1);
      var j: nat :| need <= Doubled(c, j) && (j > 0 ==> Doubled(c, j - 1) < need) && now == WithReserve(Doubled(c, j), need, cap);
      if j > 0 { DoublingGrows(c, 1, j); }
    }
  }

  /** After shrinking at least a third of the array is in use, unless it is at its minimum. */
  lemma ShrunkBound(was: nat, size: nat, min: nat, cap: nat, now: nat)
    requires Shrunk(was, size, min, cap, now)
    ensures now <= Greatest(min, 3 * size)
  {
  }

  /** An array of this size has a third of its cells in use or is at its minimum. */
  predicate Tight(length: nat, size: nat, min: nat) {
    length <= Greatest(min, 3 * size)
  }

  lemma GrowingKeepsTight(was: nat, size: nat, min: nat, cap: nat, n: nat, now: nat)
    requires Grown(was, size + n, cap, now) && Tight(was, size, min) && was <= cap
    ensures Tight(now, Least(cap, size + n), min)
  {
    GrownBound(was, size + n, cap, now);
  }

  /** Exactly when shrinking makes the array larger. */
  lemma ShrunkLarger(was: nat, size: nat, min: nat, cap: nat, now: nat)
    requires Shrunk(was, size, min, cap, now) && size <= was && min <= was <= cap
    ensures now > was <==> was / 3 < size && size + was / 5 >= was && was < cap
  {
    var j: nat :| HalvedTimes(was, size, min, j)
      && if j > 0 && Halving(was, j) <= min then now == WithReserve(min, size, cap)
         else Halving(was, j) / 3 < size && now == WithReserve(Halving(was, j), size, cap);
    assert Halving(was, 0) == was;
    if j > 0 { HalvingShrinks(was, 1, j); }
  }

  lemma {:induction false} HalvingShrinks(c: nat, i: nat, j: nat)
    requires i <= j
    ensures Halving(c, j) <= Halving(c, i)
  {
    if i < j { HalvingShrinks(c, i, j - 1); }
  }
}
