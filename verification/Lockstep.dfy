/** Runs of buffer operations, on a plain buffer and on a space-optimized one. */
module Lockstep {
  import opened ArraySizes
  import opened RingSpec
  import opened CircularBuffers
  import opened SpaceOptimizedBuffers

  datatype Op<T> =
    | PushBack(x: T)
    | PushFront(x: T)
    | PopBack
    | PopFront
    | Insert(i: nat, items: seq<T>)
    | Rinsert(i: nat, items: seq<T>)
    | Erase(i: nat, j: nat)
    | Rerase(i: nat, j: nat)
    | SetCapacity(n: nat, least: nat)
    | RsetCapacity(n: nat, least: nat)
    | Resize(n: nat, x: T)
    | Rresize(n: nat, x: T)
    | Clear

  /** What the source asks of a call on a buffer that holds `size` elements. */
  predicate Allowed<T>(size: nat, op: Op<T>) {
    match op
    case PopBack | PopFront => size > 0
    case Insert(i, _) => i <= size
    case Rinsert(i, _) => i <= size
    case Erase(i, j) => i <= j <= size
    case Rerase(i, j) => i <= j <= size
    case SetCapacity(n, least) => least <= n
    case RsetCapacity(n, least) => least <= n
    case _ => true
  }

  /** Contents and capacity. */
  datatype Bounded<T> = Bounded(c: seq<T>, cap: nat)

  ghost function Perform<T>(b: Bounded<T>, op: Op<T>): (r: Bounded<T>)
    requires |b.c| <= b.cap && Allowed(|b.c|, op)
    ensures |r.c| <= r.cap
  {
    match op
    case PushBack(x) => b.(c := Inserted(b.c, b.cap, |b.c|, [x]))
    case PushFront(x) => b.(c := Rinserted(b.c, b.cap, 0, [x]))
    case PopBack => b.(c := Erased(b.c, |b.c| - 1, |b.c|))
    case PopFront => b.(c := Erased(b.c, 0, 1))
    case Insert(i, items) => b.(c := Inserted(b.c, b.cap, i, items))
    case Rinsert(i, items) => b.(c := Rinserted(b.c, b.cap, i, items))
    case Erase(i, j) => b.(c := Erased(b.c, i, j))
    case Rerase(i, j) => b.(c := Erased(b.c, i, j))
    case SetCapacity(n, _) => Bounded(FirstN(b.c, n), n)
    case RsetCapacity(n, _) => Bounded(LastN(b.c, n), n)
    case Resize(n, x) => Bounded(Resized(b.c, n, x), if n > b.cap then n else b.cap)
    case Rresize(n, x) => Bounded(Rresized(b.c, n, x), if n > b.cap then n else b.cap)
    case Clear => b.(c := [])
  }

  ghost predicate AllAllowed<T>(b: Bounded<T>, ops: seq<Op<T>>)
    requires |b.c| <= b.cap
    decreases |ops|
  {
    ops == [] || (Allowed(|b.c|, ops[0]) && AllAllowed(Perform(b, ops[0]), ops[1..]))
  }

  ghost function PerformAll<T>(b: Bounded<T>, ops: seq<Op<T>>): (r: Bounded<T>)
    requires |b.c| <= b.cap && AllAllowed(b, ops)
    ensures |r.c| <= r.cap
    decreases |ops|
  {
    if ops == [] then b else PerformAll(Perform(b, ops[0]), ops[1..])
  }

  predicate SetsSize<T>(op: Op<T>) {
    op.SetCapacity? || op.RsetCapacity? || op.Resize? || op.Rresize? || op.Clear?
  }

  method OnPlain<T(0)>(b: CircularBuffer<T>, op: Op<T>)
    requires b.Valid() && Allowed(b.size, op)
    modifies b, b.buff
    ensures b.Valid() && (b.buff == old(b.buff) || fresh(b.buff))
    ensures Bounded(b.Contents(), b.buff.Length) == Perform(old(Bounded(b.Contents(), b.buff.Length)), op)
  {
    hide Ring, Inserted, Rinserted, Erased, Resized, Rresized, FirstN, LastN;
    match op
    case PushBack(x) => b.PushBack(x);
    case PushFront(x) => b.PushFront(x);
    case PopBack => b.PopBack();
    case PopFront => b.PopFront();
    case Insert(_, _) => RangeOfPlain(b, op);
    case Rinsert(_, _) => RangeOfPlain(b, op);
    case Erase(_, _) => RangeOfPlain(b, op);
    case Rerase(_, _) => RangeOfPlain(b, op);
    case _ => SizeOfPlain(b, op);
  }

  method RangeOfPlain<T(0)>(b: CircularBuffer<T>, op: Op<T>)
    requires b.Valid() && Allowed(b.size, op) && (op.Insert? || op.Rinsert? || op.Erase? || op.Rerase?)
    modifies b, b.buff
    ensures b.Valid() && (b.buff == old(b.buff) || fresh(b.buff))
    ensures Bounded(b.Contents(), b.buff.Length) == Perform(old(Bounded(b.Contents(), b.buff.Length)), op)
  {
    hide Ring, Inserted, Rinserted, Erased, Resized, Rresized, FirstN, LastN;
    match op
    case Insert(i, items) => b.InsertRange(b.Plus(b.Begin(), i), items);
    case Rinsert(i, items) => b.RinsertN(b.Plus(b.Begin(), i), items);
    case Erase(i, j) => var _ := b.EraseRange(b.Plus(b.Begin(), i), b.Plus(b.Begin(), j));
    case Rerase(i, j) => var _ := b.ReraseRange(b.Plus(b.Begin(), i), b.Plus(b.Begin(), j));
  }

  method SizeOfPlain<T(0)>(b: CircularBuffer<T>, op: Op<T>)
    requires b.Valid() && Allowed(b.size, op) && SetsSize(op)
    modifies b, b.buff
    ensures b.Valid() && (b.buff == old(b.buff) || fresh(b.buff))
    ensures Bounded(b.Contents(), b.buff.Length) == Perform(old(Bounded(b.Contents(), b.buff.Length)), op)
  {
    hide Ring, Inserted, Rinserted, Erased, Resized, Rresized, FirstN, LastN;
    match op
    case SetCapacity(n, _) => b.SetCapacity(n);
    case RsetCapacity(n, _) => b.RsetCapacity(n);
    case Resize(n, x) => b.Resize(n, x);
    case Rresize(n, x) => b.Rresize(n, x);
    case Clear => b.Clear();
  }

  method OnOptimized<T(0)>(b: SpaceOptimized<T>, op: Op<T>)
    requires b.Valid() && Allowed(b.ring.size, op)
    modifies b, b.ring, b.ring.buff
    ensures b.Valid() && (b.ring.buff == old(b.ring.buff) || fresh(b.ring.buff))
    ensures Bounded(b.Contents(), b.capacity) == Perform(old(Bounded(b.Contents(), b.capacity)), op)
    ensures old(b.Saving()) ==> b.Saving()
  {
    hide Ring, Inserted, Rinserted, Erased, Resized, Rresized, FirstN, LastN, Grown, Shrunk, Tight;
    match op
    case PushBack(x) => b.PushBack(x);
    case PushFront(x) => b.PushFront(x);
    case PopBack => b.PopBack();
    case PopFront => b.PopFront();
    case Insert(_, _) => RangeOfOptimized(b, op);
    case Rinsert(_, _) => RangeOfOptimized(b, op);
    case Erase(_, _) => RangeOfOptimized(b, op);
    case Rerase(_, _) => RangeOfOptimized(b, op);
    case _ => SizeOfOptimized(b, op);
  }

  method RangeOfOptimized<T(0)>(b: SpaceOptimized<T>, op: Op<T>)
    requires b.Valid() && Allowed(b.ring.size, op) && (op.Insert? || op.Rinsert? || op.Erase? || op.Rerase?)
    modifies b, b.ring, b.ring.buff
    ensures b.Valid() && (b.ring.buff == old(b.ring.buff) || fresh(b.ring.buff))
    ensures Bounded(b.Contents(), b.capacity) == Perform(old(Bounded(b.Contents(), b.capacity)), op)
    ensures old(b.Saving()) ==> b.Saving()
  {
    hide Ring, Inserted, Rinserted, Erased, Resized, Rresized, FirstN, LastN, Grown, Shrunk, Tight;
    var r := b.ring;
    match op
    case Insert(i, items) => b.InsertRange(r.Plus(r.Begin(), i), items);
    case Rinsert(i, items) => b.RinsertRange(r.Plus(r.Begin(), i), items);
    case Erase(i, j) => var _ := b.EraseRange(r.Plus(r.Begin(), i), r.Plus(r.Begin(), j));
    case Rerase(i, j) => var _ := b.ReraseRange(r.Plus(r.Begin(), i), r.Plus(r.Begin(), j));
  }

  method SizeOfOptimized<T(0)>(b: SpaceOptimized<T>, op: Op<T>)
    requires b.Valid() && Allowed(b.ring.size, op) && SetsSize(op)
    modifies b, b.ring, b.ring.buff
    ensures b.Valid() && (b.ring.buff == old(b.ring.buff) || fresh(b.ring.buff))
    ensures Bounded(b.Contents(), b.capacity) == Perform(old(Bounded(b.Contents(), b.capacity)), op)
    ensures old(b.Saving()) ==> b.Saving()
  {
    hide Ring, Inserted, Rinserted, Erased, Resized, Rresized, FirstN, LastN, Grown, Shrunk, Tight;
    match op
    case SetCapacity(n, least) => b.SetCapacity(n, least);
    case RsetCapacity(n, least) => b.RsetCapacity(n, least);
    case Resize(n, x) => b.Resize(n, x);
    case Rresize(n, x) => b.Rresize(n, x);
    case Clear => b.Clear();
  }

  /**
    Any run of calls leaves a space-optimized buffer with the contents and the
    capacity of a plain buffer, whatever the minimum capacities; its array is
    never smaller than the minimum nor larger than the capacity, and at least a
    third of it is in use unless it is at its minimum.
   */
  method Run<T(0)>(plain: CircularBuffer<T>, optimized: SpaceOptimized<T>, ops: seq<Op<T>>)
    requires plain.Valid() && optimized.Valid()
    requires {plain, plain.buff} !! {optimized, optimized.ring, optimized.ring.buff}
    requires plain.Contents() == optimized.Contents() && plain.buff.Length == optimized.capacity
    requires AllAllowed(Bounded(plain.Contents(), plain.buff.Length), ops)
    modifies plain, plain.buff, optimized, optimized.ring, optimized.ring.buff
    ensures plain.Valid() && optimized.Valid()
    ensures plain.Contents() == optimized.Contents() && plain.buff.Length == optimized.capacity
    ensures Bounded(plain.Contents(), plain.buff.Length)
            == old(PerformAll(Bounded(plain.Contents(), plain.buff.Length), ops))
    ensures optimized.minCapacity <= optimized.ring.buff.Length <= optimized.capacity
    ensures old(optimized.Saving()) ==> optimized.Saving()
    decreases |ops|
  {
    if ops == [] { return; }
    OnPlain(plain, ops[0]);
    OnOptimized(optimized, ops[0]);
    Run(plain, optimized, ops[1..]);
  }

  /** The same from the capacity constructors on. */
  method RunFromEmpty<T(0)>(capacity: nat, least: nat, ops: seq<Op<T>>)
    returns (plain: CircularBuffer<T>, optimized: SpaceOptimized<T>)
    requires least <= capacity && AllAllowed(Bounded([], capacity), ops)
    ensures plain.Valid() && optimized.Valid()
    ensures Bounded(plain.Contents(), plain.buff.Length) == PerformAll(Bounded([], capacity), ops)
    ensures Bounded(optimized.Contents(), optimized.capacity) == PerformAll(Bounded([], capacity), ops)
    ensures var k := optimized.ring.buff.Length;
            optimized.minCapacity <= k <= optimized.capacity && k <= Greatest(optimized.minCapacity, 3 * optimized.ring.size)
  {
    plain := new CircularBuffer<T>(capacity);
    optimized := new SpaceOptimized<T>(capacity, least);
    Run(plain, optimized, ops);
  }
}
