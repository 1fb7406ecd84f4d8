/** How the operations of a bounded buffer relate to each other. */
module RingLaws {
  import opened RingSpec

  // ----- many pushes -----

  function PushAll<T>(c: seq<T>, cap: nat, xs: seq<T>): (r: seq<T>)
    requires |c| <= cap
    ensures |r| <= cap
    decreases |xs|
  {
    if xs == [] then c else PushAll(Inserted(c, cap, |c|, [xs[0]]), cap, xs[1..])
  }

  /** A run of `push_back` leaves the last elements of all that were ever there. */
  lemma {:induction false} PushesKeepTheLast<T>(c: seq<T>, cap: nat, xs: seq<T>)
    requires |c| <= cap
    ensures PushAll(c, cap, xs) == LastN(c + xs, cap)
    decreases |xs|
  {
    if xs == [] {
      assert c + xs == c;
    } else {
      var c' := Inserted(c, cap, |c|, [xs[0]]);
      PushesKeepTheLast(c', cap, xs[1..]);
      LastOfLast(c, cap, xs);
    }
  }

  lemma LastOfLast<T>(c: seq<T>, cap: nat, xs: seq<T>)
    requires |c| <= cap && xs != []
    ensures LastN(Inserted(c, cap, |c|, [xs[0]]) + xs[1..], cap) == LastN(c + xs, cap)
  {
    hide Spliced;
    SpliceAtEnd(c, xs[0]);
    var d := c + [xs[0]];
    assert c + xs == d + xs[1..];
    assert |d| > cap ==> d[|d| - cap..] + xs[1..] == (d + xs[1..])[|d| - cap..];
  }

  lemma SpliceAtEnd<T>(c: seq<T>, x: T)
    ensures Spliced(c, |c|, [x]) == c + [x]
  {
  }

  function PushAllFront<T>(c: seq<T>, cap: nat, xs: seq<T>): (r: seq<T>)
    requires |c| <= cap
    ensures |r| <= cap
    decreases |xs|
  {
    if xs == [] then c else PushAllFront(Rinserted(c, cap, 0, [xs[|xs| - 1]]), cap, xs[..|xs| - 1])
  }

  lemma {:induction false} FrontPushesKeepTheFirst<T>(c: seq<T>, cap: nat, xs: seq<T>)
    requires |c| <= cap
    ensures PushAllFront(c, cap, xs) == FirstN(xs + c, cap)
    decreases |xs|
  {
    if xs == [] {
      assert xs + c == c;
    } else {
      var x, rest := xs[|xs| - 1], xs[..|xs| - 1];
      FrontPushesKeepTheFirst(Rinserted(c, cap, 0, [x]), cap, rest);
      assert Spliced(c, 0, [x]) == [x] + c;
      assert xs + c == rest + ([x] + c);
    }
  }

  /** A range goes in at the end as if its elements were pushed one by one. */
  lemma RangeIsPushes<T>(c: seq<T>, cap: nat, xs: seq<T>)
    requires |c| <= cap
    ensures Inserted(c, cap, |c|, xs) == PushAll(c, cap, xs)
    ensures Rinserted(c, cap, 0, xs) == PushAllFront(c, cap, xs)
  {
    hide PushAll, PushAllFront;
    PushesKeepTheLast(c, cap, xs);
    FrontPushesKeepTheFirst(c, cap, xs);
    assert Spliced(c, |c|, xs) == c + xs && Spliced(c, 0, xs) == xs + c;
  }

  // ----- insertion and erasure -----

  /** With room for all items, erasing them gives the old contents back, and both insertions agree. */
  lemma EraseUndoesInsert<T>(c: seq<T>, cap: nat, i: nat, items: seq<T>)
    requires i <= |c| && |c| + |items| <= cap
    ensures Inserted(c, cap, i, items) == Rinserted(c, cap, i, items)
    ensures Erased(Inserted(c, cap, i, items), i, i + |items|) == c
  {
  }

  /** What is lost for want of room: forward insertion loses at the front, reverse insertion at the back. */
  lemma InsertKeepsOneSide<T>(c: seq<T>, cap: nat, i: nat, items: seq<T>)
    requires i <= |c| <= cap
    ensures var k := |c| - i; LastN(Inserted(c, cap, i, items), k) == c[i..]
    ensures FirstN(Rinserted(c, cap, i, items), i) == c[..i]
  {
  }

  // ----- the mirror -----

  lemma MirrorSplice<T>(c: seq<T>, i: nat, items: seq<T>)
    requires i <= |c|
    ensures Reversed(Spliced(c, i, items)) == Spliced(Reversed(c), |c| - i, Reversed(items))
  {
    hide Reversed;
    var s, r := Spliced(c, i, items), Spliced(Reversed(c), |c| - i, Reversed(items));
    forall k | 0 <= k < |s| ensures Reversed(s)[k] == r[k] {
      assert Reversed(s)[k] == s[|s| - 1 - k];
    }
  }

  lemma MirrorFirst<T>(s: seq<T>, n: nat)
    ensures Reversed(FirstN(s, n)) == LastN(Reversed(s), n)
  {
  }

  /** Reverse insertion is forward insertion seen in a mirror. */
  lemma RinsertMirrorsInsert<T>(c: seq<T>, cap: nat, i: nat, items: seq<T>)
    requires i <= |c| <= cap
    ensures Reversed(Rinserted(c, cap, i, items)) == Inserted(Reversed(c), cap, |c| - i, Reversed(items))
  {
    MirrorSplice(c, i, items);
    MirrorFirst(Spliced(c, i, items), cap);
  }

  // ----- rotation -----

  lemma RotateBackAgain<T>(c: seq<T>, k: nat)
    requires k <= |c|
    ensures Rotated(Rotated(c, k), |c| - k) == c
    ensures multiset(Rotated(c, k)) == multiset(c)
  {
    assert c == c[..k] + c[k..];
  }
}
