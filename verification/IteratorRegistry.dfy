/**
  The debug support's registry of valid iterators: each container heads a
  chain of its iterators, linked through the iterators themselves.  `chain`
  is that list as a sequence.
 */
module IteratorRegistry {
  import opened Chains

  class DebugIterator {
    var registry: Registry?
    var next: DebugIterator?
    var element: nat  // the cell pointed to

    constructor (registry: Registry?, element: nat)
      ensures this.registry == registry && next == null && this.element == element
    {
      this.registry, next, this.element := registry, null, element;
    }
  }

  ghost function Without(q: seq<DebugIterator>, drop: set<DebugIterator>): (r: seq<DebugIterator>)
    ensures forall it | it in q :: it in r <==> it !in drop
    ensures forall it | it in r :: it in q
  {
    if q == [] then []
    else Without(q[..|q| - 1], drop) + if q[|q| - 1] in drop then [] else [q[|q| - 1]]
  }

  lemma WithoutOneMore(q: seq<DebugIterator>, drop: set<DebugIterator>, k: nat)
    requires k < |q|
    ensures Without(q[..k + 1], drop) == Without(q[..k], drop) + (if q[k] in drop then [] else [q[k]])
  {
    assert q[..k + 1][..k] == q[..k];
  }

  lemma {:induction false} WithoutOne(q: seq<DebugIterator>, k: nat)
    requires k < |q| && Distinct(q)
    ensures Without(q, {q[k]}) == q[..k] + q[k + 1..]
  {
    var n := |q| - 1;
    if k == n {
      WithoutNone(q[..n], {q[k]});
    } else {
      WithoutOne(q[..n], k);
      JoinLast(q, k);
    }
  }

  lemma JoinLast(q: seq<DebugIterator>, k: nat)
    requires k < |q| - 1
    ensures var n := |q| - 1; q[..n][..k] + q[..n][k + 1..] + [q[n]] == q[..k] + q[k + 1..]
  {
    assert q[k + 1..] == q[k + 1..|q| - 1] + [q[|q| - 1]];
  }

  lemma StillThere(all: seq<DebugIterator>, drop: set<DebugIterator>, k: nat, it: DebugIterator)
    requires k <= |all| && it in Without(all[..k], drop)
    ensures it in all
  {
    assert it in all[..k];
  }

  lemma CutOut(kept: seq<DebugIterator>, it: DebugIterator, rest: seq<DebugIterator>, c: seq<DebugIterator>)
    requires c == kept + ([it] + rest)
    ensures var m := |kept|;
            && m < |c| && c[m] == it && c[..m] == kept && c[m + 1..] == rest
            && c == (kept + [it]) + rest
  {
  }

  /** The sweep over `all` at number `k`, when the chain is `c`. */
  lemma SweepStep(all: seq<DebugIterator>, drop: set<DebugIterator>, k: nat, c: seq<DebugIterator>)
    requires k < |all| && c == Without(all[..k], drop) + all[k..]
    ensures var m := |Without(all[..k], drop)|;
            && m < |c| && c[m] == all[k]
            && c[..m] == Without(all[..k], drop)
            && (if all[k] in drop
                then Without(all[..k + 1], drop) == Without(all[..k], drop)
                     && c[..m] + c[m + 1..] == Without(all[..k + 1], drop) + all[k + 1..]
                else Without(all[..k + 1], drop) == Without(all[..k], drop) + [all[k]]
                     && c == Without(all[..k + 1], drop) + all[k + 1..])
  {
    WithoutOneMore(all, drop, k);
    hide Without;
    assert all[k..] == [all[k]] + all[k + 1..];
    CutOut(Without(all[..k], drop), all[k], all[k + 1..], c);
  }

  lemma {:induction false} WithoutNone(q: seq<DebugIterator>, drop: set<DebugIterator>)
    requires forall it | it in q :: it !in drop
    ensures Without(q, drop) == q
  {
    if q != [] {
      WithoutNone(q[..|q| - 1], drop);
      assert q == q[..|q| - 1] + [q[|q| - 1]];
    }
  }

  /** The iterators that point to cell `x`, or those that do not. */
  ghost function Pointing(q: seq<DebugIterator>, x: nat, same: bool): set<DebugIterator>
    reads q
  {
    set it | it in q && ((it.element == x) == same)
  }

  ghost function LinkAt(q: seq<DebugIterator>, i: nat): DebugIterator? {
    if i < |q| then q[i] else null
  }

  /** What is next in the chain once number `k` is taken out of it. */
  lemma TakenOut(q: seq<DebugIterator>, k: nat)
    requires k < |q| && Distinct(q)
    ensures var r := q[..k] + q[k + 1..];
            && Distinct(r)
            && (forall i | 0 <= i < |r| :: r[i] == q[if i < k then i else i + 1])
            && (forall i | 0 <= i <= |r| :: LinkAt(r, i) == LinkAt(q, if i < k then i else i + 1))
  {
    var r := q[..k] + q[k + 1..];
    forall i | 0 <= i < |r| ensures r[i] == q[if i < k then i else i + 1] {}
  }

  ghost function Registries(q: seq<DebugIterator>): (r: seq<Registry?>)
    reads q
    ensures |r| == |q| && forall i | 0 <= i < |q| :: r[i] == q[i].registry
  {
    if q == [] then [] else [q[0].registry] + Registries(q[1..])
  }

  /** The first `k` that are to go have lost their registry; the others have the one they had. */
  ghost predicate Marked(all: seq<DebugIterator>, drop: set<DebugIterator>, k: nat, was: seq<Registry?>)
    reads all
  {
    && |was| == |all|
    && forall i | 0 <= i < |all| :: all[i].registry == if i < k && all[i] in drop then null else was[i]
  }

  class Registry {
    var iterators: DebugIterator?
    ghost var chain: seq<DebugIterator>

    /** The links run through `chain` and end there: no cycle. */
    ghost predicate Linked()
      reads this, chain`next
    {
      && iterators == LinkAt(chain, 0)
      && Distinct(chain)
      && forall i | 0 <= i < |chain| :: chain[i].next == LinkAt(chain, i + 1)
    }

    constructor ()
      ensures Linked() && chain == []
    {
      iterators := null;
      chain := [];
    }

    method RegisterIterator(it: DebugIterator)
      requires Linked() && it !in chain
      modifies this, it`next
      ensures Linked() && chain == [it] + old(chain)
    {
      it.next := iterators;
      iterators := it;
      chain := [it] + chain;
      assert forall i | 0 < i < |chain| :: chain[i] == old(chain)[i - 1];
    }

    /** `previous` is the one before `current` in the chain, null at its head. */
    method Remove(current: DebugIterator, previous: DebugIterator?, ghost k: nat)
      requires Linked() && k < |chain| && chain[k] == current
      requires previous == if k == 0 then null else chain[k - 1]
      modifies this, (if previous == null then {} else {previous})`next
      ensures Linked() && chain == old(chain[..k] + chain[k + 1..])
    {
      TakenOut(chain, k);
      hide LinkAt;
      ghost var was := chain;
      if previous == null {
        iterators := iterators.next;
      } else {
        previous.next := current.next;
      }
      chain := chain[..k] + chain[k + 1..];
      forall i | 0 <= i < |chain| ensures chain[i].next == LinkAt(chain, i + 1) {
        assert chain[i] == was[if i < k then i else i + 1];
      }
    }

    method UnregisterIterator(it: DebugIterator)
      requires Linked() && it in chain
      modifies this, chain`next
      ensures Linked() && chain == Without(old(chain), {it})
    {
      var previous: DebugIterator? := null;
      var p := iterators;
      ghost var k: nat := 0;
      while p != it
        invariant k < |chain| && p == chain[k] && it in chain[k..]
        invariant previous == if k == 0 then null else chain[k - 1]
        decreases |chain| - k
      {
        previous := p;
        p := p.next;
        k := k + 1;
      }
      WithoutOne(chain, k);
      Remove(it, previous, k);
    }

    /** The first `k` of `all` have been looked at, and those among them that are in `drop` are out of the chain. */
    ghost predicate Swept(all: seq<DebugIterator>, drop: set<DebugIterator>, k: nat,
                          p: DebugIterator?, previous: DebugIterator?)
      reads this, chain
    {
      && Linked() && Distinct(all) && k <= |all| && p == LinkAt(all, k)
      && chain == Without(all[..k], drop) + all[k..]
      && var kept := Without(all[..k], drop); previous == if kept == [] then null else kept[|kept| - 1]
    }

    /** Takes `p` out of the chain and makes it invalid. */
    method Drop(p: DebugIterator, previous: DebugIterator?,
                ghost all: seq<DebugIterator>, ghost drop: set<DebugIterator>, ghost k: nat)
      requires Swept(all, drop, k, p, previous) && p in drop
      modifies this, p`registry, (if previous == null then {} else {previous})`next
      ensures Swept(all, drop, k + 1, old(p.next), previous) && p.registry == null
    {
      hide Without;
      SweepStep(all, drop, k, chain);
      ghost var m := |Without(all[..k], drop)|;
      assert p.next == LinkAt(chain, m + 1);
      p.registry := null;
      Remove(p, previous, m);
    }

    lemma Keep(p: DebugIterator, previous: DebugIterator?, all: seq<DebugIterator>, drop: set<DebugIterator>, k: nat)
      requires Swept(all, drop, k, p, previous) && p !in drop
      ensures Swept(all, drop, k + 1, p.next, p)
    {
      hide Without;
      SweepStep(all, drop, k, chain);
      assert p.next == LinkAt(chain, |Without(all[..k], drop)| + 1);
    }

    lemma SweepStarts(drop: set<DebugIterator>)
      requires Linked()
      ensures Swept(chain, drop, 0, iterators, null)
    {
      WithoutNone([], drop);
      assert chain[..0] == [];
    }

    lemma SweepEnds(all: seq<DebugIterator>, drop: set<DebugIterator>, previous: DebugIterator?)
      requires Swept(all, drop, |all|, null, previous)
      ensures Linked() && chain == Without(all, drop)
    {
      assert all[..|all|] == all && all[|all|..] == [];
    }

    /** One round of the loop of `invalidate_iterators`. */
    method Visit(p: DebugIterator, previous: DebugIterator?, x: nat, same: bool,
                 ghost all: seq<DebugIterator>, ghost k: nat, ghost was: seq<Registry?>)
      returns (next: DebugIterator?, newPrevious: DebugIterator?)
      requires Swept(all, Pointing(all, x, same), k, p, previous) && Marked(all, Pointing(all, x, same), k, was)
      modifies this, all`next, all`registry
      ensures Pointing(all, x, same) == old(Pointing(all, x, same))
      ensures Swept(all, Pointing(all, x, same), k + 1, next, newPrevious)
      ensures Marked(all, Pointing(all, x, same), k + 1, was)
    {
      ghost var drop := Pointing(all, x, same);
      if previous != null { StillThere(all, drop, k, previous); }
      next, newPrevious := p.next, previous;
      if (p.element == x) == same {
        assert p in drop;
        Drop(p, previous, all, drop, k);
      } else {
        assert p !in drop;
        Keep(p, previous, all, drop, k);
        newPrevious := p;
      }
    }

    /** The loop of `invalidate_iterators`, and of `invalidate_iterators_except` if not `same`. */
    method Invalidate(x: nat, same: bool)
      requires Linked()
      modifies this, chain`next, chain`registry
      ensures Linked() && chain == Without(old(chain), Pointing(old(chain), x, same))
      ensures forall it | it in old(chain) ::
                it.registry == if it in Pointing(old(chain), x, same) then null else old(it.registry)
    {
      hide Without, Registries, Linked, Distinct;
      ghost var all := chain;
      ghost var was := Registries(all);
      SweepStarts(Pointing(all, x, same));
      var previous: DebugIterator? := null;
      var p := iterators;
      ghost var k: nat := 0;
      while p != null
        invariant Swept(all, Pointing(all, x, same), k, p, previous)
        invariant Marked(all, Pointing(all, x, same), k, was)
        decreases |all| - k
      {
        p, previous := Visit(p, previous, x, same, all, k, was);
        k := k + 1;
      }
      SweepEnds(all, Pointing(all, x, same), previous);
    }

    method InvalidateAll()
      requires Linked()
      modifies this, chain`registry
      ensures Linked() && chain == []
      ensures forall it | it in old(chain) :: it.registry == null
    {
      ghost var all := chain;
      var p := iterators;
      ghost var k: nat := 0;
      while p != null
        invariant k <= |all| && p == LinkAt(all, k)
        invariant forall i | 0 <= i < |all| :: all[i].next == LinkAt(all, i + 1)
        invariant forall i | 0 <= i < k :: all[i].registry == null
        decreases |all| - k
      {
        p.registry := null;
        p := p.next;
        k := k + 1;
      }
      iterators := null;
      chain := [];
    }
  }
}
