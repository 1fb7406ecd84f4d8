/** Chains of nodes, given by their addresses from the first one on; 0 is the null pointer. */
module Chains {

  function EntryAt(chain: seq<nat>, i: nat): nat {
    if i < |chain| then chain[i] else 0
  }

  ghost predicate Distinct<T>(q: seq<T>) {
    forall i, j | 0 <= i < j < |q| :: q[i] != q[j]
  }

  lemma DistinctTail<T>(q: seq<T>)
    requires q != [] && Distinct(q)
    ensures Distinct(q[1..]) && q[0] !in q[1..]
    ensures forall x | x in q[1..] :: x in q
    ensures forall x | x in q && x != q[0] :: x in q[1..]
  {
    assert q == [q[0]] + q[1..];
  }
}
