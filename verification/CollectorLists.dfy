/**
  The loops of the garbage collector on the circular buffers that hold its
  lists, as one thread runs them: the scan for the least clock, the sweep of
  `cleanup`, reuse and destruction.
 */
module CollectorLists {
  import opened RingSpec
  import opened CircularBuffers
  import Reclamation

  type Addr = Reclamation.Addr

  // ----- lists as sequences -----

  /** How many of the first stamps are below `min`. */
  function Below(stamps: seq<nat>, min: nat): (k: nat)
    ensures k <= |stamps|
    ensures forall i | 0 <= i < k :: stamps[i] < min
    ensures k < |stamps| ==> stamps[k] >= min
  {
    if stamps != [] && stamps[0] < min then 1 + Below(stamps[1..], min) else 0
  }

  lemma {:induction false} BelowIs(stamps: seq<nat>, min: nat, k: nat)
    requires k <= |stamps| && (forall i | 0 <= i < k :: stamps[i] < min)
    requires k < |stamps| ==> stamps[k] >= min
    ensures Below(stamps, min) == k
  {
    if k > 0 { BelowIs(stamps[1..], min, k - 1); }
  }

  /** In a list in stamp order the sweep finds all stamps below the minimum. */
  lemma SweepFindsAll(stamps: seq<nat>, min: nat, i: nat)
    requires (forall j, k | 0 <= j < k < |stamps| :: stamps[j] < stamps[k]) && i < |stamps|
    ensures stamps[i] < min <==> i < Below(stamps, min)
  {
  }

  lemma SweptNone<T>(l: Lists<T>, cap: nat)
    requires |l.clean| <= cap
    ensures Swept(l, 0, cap) == l
  {
  }

  lemma GiveBackOneMore<T>(d: seq<T>, q: seq<T>, k: nat)
    requires k < |q|
    ensures (d + q[..k]) + [q[k]] == d + q[..k + 1] && q[k..][1..] == q[k + 1..] && q[k..][0] == q[k]
  {
  }

  lemma PushBackRoom<T>(c: seq<T>, cap: nat, x: T)
    requires |c| < cap
    ensures Inserted(c, cap, |c|, [x]) == c + [x]
  {
    assert Spliced(c, |c|, [x]) == c + [x];
  }

  lemma PushFrontRoom<T>(c: seq<T>, cap: nat, x: T)
    requires |c| < cap
    ensures Rinserted(c, cap, 0, [x]) == [x] + c
  {
    assert Spliced(c, 0, [x]) == [x] + c;
  }

  /** The lists of one thread, and the nodes it has given back to the heap. */
  datatype Lists<T> = Lists(dirty: seq<T>, clean: seq<T>, deleted: seq<T>)

  /** One node goes from the front of the dirty list to the front of the clean list, or back to the heap. */
  function MoveOne<T>(l: Lists<T>, cap: nat): Lists<T>
    requires l.dirty != []
  {
    if |l.clean| == cap
    then l.(dirty := l.dirty[1..], deleted := l.deleted + [l.dirty[0]])
    else l.(dirty := l.dirty[1..], clean := [l.dirty[0]] + l.clean)
  }

  /** `k` nodes have left the dirty list; as many as there was room for are clean, the last one first. */
  function Swept<T>(l: Lists<T>, k: nat, cap: nat): (r: Lists<T>)
    requires k <= |l.dirty| && |l.clean| <= cap
    ensures r.dirty == l.dirty[k..] && |r.clean| <= cap
  {
    var m := Least(k, cap - |l.clean|);
    Lists(l.dirty[k..], Reversed(l.dirty[..m]) + l.clean, l.deleted + l.dirty[m..k])
  }

  /** `clean` sweeps only a list of more than ten nodes. */
  function Tidied<T>(l: Lists<T>, stamps: seq<nat>, min: nat, cap: nat): Lists<T>
    requires |stamps| == |l.dirty| && |l.clean| <= cap
  {
    if |l.dirty| > Reclamation.DIRTY_THRESHOLD then Swept(l, Below(stamps, min), cap) else l
  }

  ghost predicate Increasing(stamps: seq<nat>) {
    forall i, j | 0 <= i < j < |stamps| :: stamps[i] < stamps[j]
  }

  /** A node stamped with a newer clock goes to the end of a list in stamp order, swept or not. */
  lemma StaysIncreasing(stamps: seq<nat>, k: nat, clock: nat)
    requires Increasing(stamps) && k <= |stamps|
    requires forall i | 0 <= i < |stamps| :: stamps[i] < clock
    ensures Increasing(stamps[k..] + [clock])
  {
  }

  function All<T>(l: Lists<T>): multiset<T> {
    multiset(l.dirty) + multiset(l.clean) + multiset(l.deleted)
  }

  /** No node is lost or duplicated by the sweep. */
  lemma SweptKeepsNodes<T>(l: Lists<T>, k: nat, cap: nat)
    requires k <= |l.dirty| && |l.clean| <= cap
    ensures All(Swept(l, k, cap)) == All(l)
  {
    var m := Least(k, cap - |l.clean|);
    ReversedKeeps(l.dirty[..m]);
    assert l.dirty == l.dirty[..m] + l.dirty[m..k] + l.dirty[k..];
  }

  lemma {:induction false} ReversedKeeps<T>(q: seq<T>)
    ensures multiset(Reversed(q)) == multiset(q)
  {
    if q != [] {
      var n := |q| - 1;
      ReversedKeeps(q[..n]);
      assert Reversed(q) == [q[n]] + Reversed(q[..n]);
      assert q == q[..n] + [q[n]];
    }
  }

  lemma SweptOneMore<T>(l: Lists<T>, k: nat, cap: nat)
    requires k < |l.dirty| && |l.clean| <= cap
    ensures MoveOne(Swept(l, k, cap), cap) == Swept(l, k + 1, cap)
  {
    var d := l.dirty;
    assert d[k..][1..] == d[k + 1..];
    if |l.clean| + k < cap {
      ReversedOneMore(d, k, l.clean);
    } else {
      var m := cap - |l.clean|;
      assert d[m..k] + [d[k]] == d[m..k + 1];
      assert l.deleted + d[m..k] + [d[k]] == l.deleted + (d[m..k] + [d[k]]);
    }
  }

  lemma ReversedOneMore<T>(q: seq<T>, k: nat, c: seq<T>)
    requires k < |q|
    ensures [q[k]] + (Reversed(q[..k]) + c) == Reversed(q[..k + 1]) + c
  {
  }

  // ----- the classes -----

  /** The fields of the nodes, by address. */
  class Heap {
    var clock: map<Addr, nat>
    var data: map<Addr, int>
    var next: map<Addr, Addr>

    constructor ()
    {
      clock, data, next := map[], map[], map[];
    }
  }

  class Collector {
    var clock: nat
    var clocks: seq<GCNode>
    var totalAllocs: nat

    constructor ()
      ensures clock == 1 && clocks == [] && totalAllocs == 0
    {
      clock, clocks, totalAllocs := 1, [], 0;
    }

    method GetClock() returns (r: nat)
      modifies this`clock
      ensures r == old(clock) && clock == r + 1
    {
      r := clock;
      clock := clock + 1;
    }

    /** The least of the registered clocks. */
    method GetMinClock() returns (min: nat)
      requires forall i | 0 <= i < |clocks| :: clocks[i].clock <= Reclamation.UINT64_MAX
      ensures forall i | 0 <= i < |clocks| :: min <= clocks[i].clock
      ensures if clocks == [] then min == Reclamation.UINT64_MAX
              else exists i :: 0 <= i < |clocks| && clocks[i].clock == min
    {
      min := Reclamation.UINT64_MAX;
      var it := 0;
      while it < |clocks|
        invariant 0 <= it <= |clocks| && min <= Reclamation.UINT64_MAX
        invariant forall i | 0 <= i < it :: min <= clocks[i].clock
        invariant min == Reclamation.UINT64_MAX || exists i :: 0 <= i < it && clocks[i].clock == min
      {
        if clocks[it].clock < min { min := clocks[it].clock; }
        it := it + 1;
      }
      if clocks != [] && min == Reclamation.UINT64_MAX { assert clocks[0].clock == min; }
    }
  }

  function ClockOf(clock: map<Addr, nat>, n: Addr): nat {
    if n in clock then clock[n] else 0
  }

  function Stamps(clock: map<Addr, nat>, q: seq<Addr>): (r: seq<nat>)
    ensures |r| == |q|
  {
    seq(|q|, i requires 0 <= i < |q| => ClockOf(clock, q[i]))
  }

  /** `deleted` lists the nodes given back to the heap. */
  class GCNode {
    const parent: Collector
    const heap: Heap
    const dirty: CircularBuffer<Addr>
    const clean: CircularBuffer<Addr>
    var clock: nat
    var allocs: nat
    ghost var deleted: seq<Addr>

    ghost predicate Valid()
      reads dirty, clean
    {
      dirty.Valid() && clean.Valid() && dirty != clean && dirty.buff != clean.buff
    }

    constructor (parent: Collector, heap: Heap, listSize: nat)
      ensures Valid() && this.parent == parent && this.heap == heap
      ensures View() == Lists([], [], []) && allocs == 0
      ensures fresh(dirty) && fresh(clean) && fresh(dirty.buff) && fresh(clean.buff)
    {
      this.parent, this.heap := parent, heap;
      dirty := new CircularBuffer<Addr>(listSize);
      clean := new CircularBuffer<Addr>(listSize);
      clock, allocs, deleted := 0, 0, [];
    }

    ghost function View(): (l: Lists<Addr>)
      requires Valid()
      reads this`deleted, dirty, clean, dirty.buff, clean.buff
      ensures |l.dirty| == dirty.size && |l.clean| == clean.size <= clean.buff.Length
    {
      Lists(dirty.Contents(), clean.Contents(), deleted)
    }

    method SweepOne()
      requires Valid() && dirty.size > 0
      modifies this`deleted, dirty, clean, clean.buff
      ensures Valid() && dirty.buff == old(dirty.buff) && clean.buff == old(clean.buff)
      ensures View() == MoveOne(old(View()), clean.buff.Length)
    {
      hide Ring;
      var n := dirty.Front();
      dirty.PopFront();
      if clean.Full() {
        deleted := deleted + [n];
      } else {
        PushFrontRoom(clean.Contents(), clean.buff.Length, n);
        clean.PushFront(n);
      }
    }

    /** The loop of `cleanup`. */
    method Sweep(min: nat)
      requires Valid()
      modifies this`deleted, dirty, clean, clean.buff
      ensures Valid() && dirty.buff == old(dirty.buff) && clean.buff == old(clean.buff)
      ensures View() == Swept(old(View()), Below(Stamps(heap.clock, old(View()).dirty), min), clean.buff.Length)
    {
      hide MoveOne, Swept, Below, Ring;
      ghost var l, k: nat := View(), 0;
      SweptNone(l, clean.buff.Length);
      while dirty.size > 0
        invariant Valid() && dirty.buff == old(dirty.buff) && clean.buff == old(clean.buff)
        invariant k <= |l.dirty| && View() == Swept(l, k, clean.buff.Length)
        invariant forall i | 0 <= i < k :: ClockOf(heap.clock, l.dirty[i]) < min
        decreases dirty.size
      {
        var n := dirty.Front();
        assert n == l.dirty[k];
        if ClockOf(heap.clock, n) >= min { break; }
        SweptOneMore(l, k, clean.buff.Length);
        SweepOne();
        k := k + 1;
      }
      BelowIs(Stamps(heap.clock, l.dirty), min, k);
    }

    /** `cleanup`: the nodes at the front with stamps below `min` become clean, as far as there is room. */
    method Cleanup(min: nat)
      requires Valid()
      modifies this, parent`clock, dirty, clean, clean.buff
      ensures Valid() && dirty.buff == old(dirty.buff) && clean.buff == old(clean.buff)
      ensures clock == old(parent.clock) && parent.clock == clock + 1 && allocs == old(allocs)
      ensures View() == Swept(old(View()), Below(Stamps(heap.clock, old(View()).dirty), min), clean.buff.Length)
    {
      hide Swept, Below, Ring;
      ghost var k := Below(Stamps(heap.clock, View().dirty), min);
      Sweep(min);
      assert View() == Swept(old(View()), k, clean.buff.Length);
      clock := parent.GetClock();
    }

    /** The last part of `clean`; the program ends, and `ok` is false, when the dirty list is full. */
    method Enlist(n: Addr) returns (ok: bool)
      requires Valid()
      modifies dirty, dirty.buff
      ensures Valid() && dirty.buff == old(dirty.buff) && clean.buff == old(clean.buff)
      ensures ok == (|old(View()).dirty| < dirty.buff.Length)
      ensures View() == if ok then old(View()).(dirty := old(View()).dirty + [n]) else old(View())
    {
      hide Ring;
      if dirty.Full() { return false; }
      PushBackRoom(dirty.Contents(), dirty.buff.Length, n);
      dirty.PushBack(n);
      ok := true;
    }

    /** The node is stamped and listed, after a sweep of a list that has grown long. */
    method StampAndEnlist(n: Addr, min: nat) returns (ok: bool)
      requires Valid()
      modifies this, parent`clock, heap`clock, dirty, dirty.buff, clean, clean.buff
      ensures Valid() && dirty.buff == old(dirty.buff) && clean.buff == old(clean.buff)
      ensures allocs == old(allocs) && heap.clock == old(heap.clock)[n := old(clock)]
      ensures if |old(View()).dirty| > Reclamation.DIRTY_THRESHOLD
              then clock == old(parent.clock) && parent.clock == old(parent.clock) + 1
              else clock == old(clock) && parent.clock == old(parent.clock)
      ensures var l := Tidied(old(View()), Stamps(heap.clock, old(View()).dirty), min, clean.buff.Length);
              && ok == (|l.dirty| < dirty.buff.Length)
              && View() == if ok then l.(dirty := l.dirty + [n]) else l
    {
      hide Swept, Below, Ring, Stamps;
      heap.clock := heap.clock[n := clock];
      if dirty.size > Reclamation.DIRTY_THRESHOLD { Cleanup(min); }
      ok := Enlist(n);
    }

    /**
      `clean`: a popped node is given back at once if every registered clock is
      at least the one just fetched, which is then the least; otherwise it is
      stamped and listed, after a sweep of a list that has grown long.
     */
    method Discard(n: Addr) returns (ok: bool, ghost min: nat)
      requires Valid() && parent.clock <= Reclamation.UINT64_MAX
      requires forall i | 0 <= i < |parent.clocks| :: parent.clocks[i].clock <= Reclamation.UINT64_MAX
      modifies this, parent`clock, heap`clock, dirty, dirty.buff, clean, clean.buff
      ensures Valid() && dirty.buff == old(dirty.buff) && clean.buff == old(clean.buff)
      ensures forall i | 0 <= i < |parent.clocks| ::
                min <= if parent.clocks[i] == this then old(parent.clock) else parent.clocks[i].clock
      ensures if parent.clocks == [] then min == Reclamation.UINT64_MAX
              else exists i | 0 <= i < |parent.clocks| ::
                min == if parent.clocks[i] == this then old(parent.clock) else parent.clocks[i].clock
      ensures allocs == old(allocs)
      ensures if old(parent.clock) != min && |old(View()).dirty| > Reclamation.DIRTY_THRESHOLD
              then clock == old(parent.clock) + 1 && parent.clock == old(parent.clock) + 2
              else clock == old(parent.clock) && parent.clock == old(parent.clock) + 1
      ensures old(parent.clock) == min ==>
                ok && heap.clock == old(heap.clock) && View() == old(View()).(deleted := old(View()).deleted + [n])
      ensures old(parent.clock) != min ==>
                && heap.clock == old(heap.clock)[n := old(parent.clock)]
                && var l := Tidied(old(View()), Stamps(heap.clock, old(View()).dirty), min, clean.buff.Length);
                   && ok == (|l.dirty| < dirty.buff.Length)
                   && View() == if ok then l.(dirty := l.dirty + [n]) else l
    {
      hide Swept, Below, Ring, Stamps, Tidied;
      clock := parent.GetClock();
      var least := parent.GetMinClock();
      min := least;
      if parent.clocks != [] {
        ghost var i :| 0 <= i < |parent.clocks| && parent.clocks[i].clock == least;
        assert least == if parent.clocks[i] == this then old(parent.clock) else parent.clocks[i].clock;
      }
      if clock == least {
        deleted := deleted + [n];
        return true, min;
      }
      ok := StampAndEnlist(n, least);
    }

    /** `alloc`: a clean node is used again, else `a` is a new one. */
    method Alloc(data: int, a: Addr) returns (n: Addr)
      requires Valid()
      modifies this`allocs, clean, heap`data, heap`next
      ensures Valid() && dirty.buff == old(dirty.buff) && clean.buff == old(clean.buff)
      ensures if old(View()).clean == []
              then n == a && View() == old(View()) && allocs == old(allocs) + 1
              else
                && n == old(View()).clean[0] && allocs == old(allocs)
                && View() == old(View()).(clean := old(View()).clean[1..])
      ensures heap.data == old(heap.data)[n := data] && heap.next == old(heap.next)[n := 0]
    {
      hide Ring;
      if clean.size > 0 {
        n := clean.Front();
        clean.PopFront();
      } else {
        allocs := allocs + 1;
        n := a;
      }
      heap.data := heap.data[n := data];
      heap.next := heap.next[n := 0];
    }

    /** The destructor gives back all clean nodes, and no dirty one. */
    method Destroy()
      requires Valid()
      modifies this`deleted, clean
      ensures Valid() && View() == Lists(old(View()).dirty, [], old(View()).deleted + old(View()).clean)
    {
      hide Ring;
      ghost var l, k: nat := View(), 0;
      assert l.deleted + l.clean[..0] == l.deleted && l.clean[0..] == l.clean;
      while clean.size > 0
        invariant Valid() && dirty.buff == old(dirty.buff) && clean.buff == old(clean.buff)
        invariant k <= |l.clean| && View() == Lists(l.dirty, l.clean[k..], l.deleted + l.clean[..k])
        decreases clean.size
      {
        var n := clean.Front();
        GiveBackOneMore(l.deleted, l.clean, k);
        clean.PopFront();
        deleted := deleted + [n];
        k := k + 1;
      }
      assert l.clean[..k] == l.clean;
    }
  }
}
