/**
  The space-optimized circular buffer: a circular buffer whose array grows and
  shrinks with its contents, between a minimum and the capacity it promises.
 */
module SpaceOptimizedBuffers {
  import opened ArraySizes
  import opened RingSpec
  import opened CircularBuffers

  /** With an array that has room for all items, or is as large as it may get, clipping is that of the full capacity. */
  lemma SameClipping<T>(c: seq<T>, internal: nat, cap: nat, i: nat, items: seq<T>)
    requires i <= |c| <= internal <= cap
    requires internal == cap || |c| + |items| <= internal
    ensures Inserted(c, internal, i, items) == Inserted(c, cap, i, items)
    ensures Rinserted(c, internal, i, items) == Rinserted(c, cap, i, items)
  {
  }

  class SpaceOptimized<T(0)> {
    const ring: CircularBuffer<T>
    var capacity: nat
    var minCapacity: nat

    ghost predicate Valid()
      reads this, ring
    {
      ring.Valid() && minCapacity <= ring.buff.Length <= capacity
    }

    ghost function Contents(): (c: seq<T>)
      requires Valid()
      reads this, ring, ring.buff
      ensures |c| == ring.size
    {
      ring.Contents()
    }

    /** At least a third of the array is in use, or it is at its minimum. */
    ghost predicate Saving()
      reads this, ring
    {
      Tight(ring.buff.Length, ring.size, minCapacity)
    }

    constructor (capacity: nat, minCapacity: nat)
      requires minCapacity <= capacity
      ensures Valid() && fresh(ring) && fresh(ring.buff) && Contents() == []
      ensures this.capacity == capacity && this.minCapacity == minCapacity && ring.buff.Length == minCapacity
    {
      ring := new CircularBuffer<T>(minCapacity);
      this.capacity := capacity;
      this.minCapacity := minCapacity;
    }

    // ----- the size of the array -----

    /** At least a fifth of the array is left free, within the capacity. */
    function EnsureReserve(newCapacity: nat, bufferSize: nat): (r: nat)
      reads this
      ensures r == WithReserve(newCapacity, bufferSize, capacity)
      ensures r <= capacity
      ensures r == capacity || newCapacity <= r
      ensures r < capacity && bufferSize <= newCapacity ==> bufferSize + r / 5 <= r
    {
      var c := if bufferSize + newCapacity / 5 >= newCapacity then newCapacity * 2 else newCapacity;
      if c > capacity then capacity else c
    }

    /** Makes room for `n` more elements, as far as the capacity allows. */
    method CheckLowCapacity(n: nat)
      requires Valid()
      modifies ring
      ensures Valid() && Contents() == old(Contents())
      ensures ring.buff.Length == capacity || ring.size + n <= ring.buff.Length
      ensures ring.buff == old(ring.buff) || fresh(ring.buff)
      ensures old(ring.size) + n <= old(ring.buff.Length) ==> ring.buff == old(ring.buff)
      ensures Grown(old(ring.buff.Length), old(ring.size) + n, capacity, ring.buff.Length)
    {
      var newSize := ring.size + n;
      var newCapacity := ring.buff.Length;
      if newSize > newCapacity {
        if newCapacity == 0 { newCapacity := 1; }
        ghost var j: nat := 0;
        while newSize > newCapacity
          invariant 0 < newCapacity && ring.buff.Length <= newCapacity
          invariant newCapacity == Doubled(Greatest(ring.buff.Length, 1), j)
          invariant j > 0 ==> Doubled(Greatest(ring.buff.Length, 1), j - 1) < newSize
        {
          newCapacity := newCapacity * 2;
          j := j + 1;
        }
        ring.SetCapacity(EnsureReserve(newCapacity, newSize));
      }
    }

    /** Where the loop of `check_high_capacity` stops: the array is halved while less than a third of it is in use. */
    method Halved() returns (newCapacity: nat, ghost j: nat)
      requires ring.Valid() && minCapacity <= ring.buff.Length
      ensures minCapacity <= newCapacity <= ring.buff.Length && ring.size <= newCapacity
      ensures HalvedTimes(ring.buff.Length, ring.size, minCapacity, j)
      ensures if j > 0 && Halving(ring.buff.Length, j) <= minCapacity then newCapacity == minCapacity
              else newCapacity == Halving(ring.buff.Length, j) && newCapacity / 3 < ring.size
    {
      newCapacity, j := ring.buff.Length, 0;
      while newCapacity / 3 >= ring.size
        invariant minCapacity <= newCapacity <= ring.buff.Length && ring.size <= newCapacity
        invariant newCapacity == Halving(ring.buff.Length, j) && (j > 0 ==> newCapacity > minCapacity)
        invariant HalvedTimes(ring.buff.Length, ring.size, minCapacity, j)
        decreases newCapacity
      {
        newCapacity, j := newCapacity / 2, j + 1;
        if newCapacity <= minCapacity {
          newCapacity := minCapacity;
          break;
        }
      }
    }

    /** Meant to make the array smaller, it makes it larger when no more than a fifth of it is free. */
    method CheckHighCapacity()
      requires ring.Valid() && minCapacity <= ring.buff.Length && minCapacity <= capacity && ring.size <= capacity
      modifies ring
      ensures Valid() && Contents() == old(ring.Contents())
      ensures ring.buff == old(ring.buff) || fresh(ring.buff)
      ensures Shrunk(old(ring.buff.Length), ring.size, minCapacity, capacity, ring.buff.Length) && Saving()
      ensures var was := old(ring.buff.Length);
              ring.buff.Length > was <==> was / 3 < ring.size && ring.size + was / 5 >= was && was < capacity
    {
      ghost var was := ring.buff.Length;
      var newCapacity, j := Halved();
      ring.SetCapacity(EnsureReserve(newCapacity, ring.size));
      ShrunkBound(was, ring.size, minCapacity, capacity, ring.buff.Length);
      if was <= capacity { ShrunkLarger(was, ring.size, minCapacity, capacity, ring.buff.Length); }
    }

    // ----- push, pop, insert, erase -----

    /** Makes room for `n` elements; an iterator of the same index replaces `pos`. */
    method MakeRoom(pos: Iter, n: nat) returns (r: Iter)
      requires Valid() && ring.IsIter(pos)
      modifies ring
      ensures Valid() && Contents() == old(Contents())
      ensures ring.buff.Length == capacity || ring.size + n <= ring.buff.Length
      ensures ring.buff == old(ring.buff) || fresh(ring.buff)
      ensures Grown(old(ring.buff.Length), old(ring.size) + n, capacity, ring.buff.Length)
      ensures old(ring.size) + n <= old(ring.buff.Length) ==> ring.buff == old(ring.buff)
      ensures ring.IsIter(r) && ring.IndexOf(r) == old(ring.IndexOf(pos)) && (r.End? <==> pos.End?)
    {
      hide Ring, Grown, Shrunk, Tight;
      var index := ring.Difference(pos, ring.Begin());
      CheckLowCapacity(n);
      r := ring.Plus(ring.Begin(), index);
    }

    method PushBack(item: T)
      requires Valid()
      modifies ring, ring.buff
      ensures Valid() && capacity == old(capacity) && minCapacity == old(minCapacity)
      ensures ring.buff == old(ring.buff) || fresh(ring.buff)
      ensures Grown(old(ring.buff.Length), old(ring.size) + 1, capacity, ring.buff.Length)
      ensures old(ring.size) + 1 <= old(ring.buff.Length) ==> ring.buff == old(ring.buff)
      ensures old(Saving()) ==> Saving()
      ensures Contents() == Inserted(old(Contents()), capacity, old(ring.size), [item])
    {
      hide Inserted, Ring, Grown, Shrunk, Tight;
      CheckLowCapacity(1);
      if old(Saving()) {
        GrowingKeepsTight(old(ring.buff.Length), ring.size, minCapacity, capacity, 1, ring.buff.Length);
      }
      SameClipping(Contents(), ring.buff.Length, capacity, ring.size, [item]);
      ring.PushBack(item);
    }

    method PushFront(item: T)
      requires Valid()
      modifies ring, ring.buff
      ensures Valid() && capacity == old(capacity) && minCapacity == old(minCapacity)
      ensures ring.buff == old(ring.buff) || fresh(ring.buff)
      ensures Grown(old(ring.buff.Length), old(ring.size) + 1, capacity, ring.buff.Length)
      ensures old(ring.size) + 1 <= old(ring.buff.Length) ==> ring.buff == old(ring.buff)
      ensures old(Saving()) ==> Saving()
      ensures Contents() == Rinserted(old(Contents()), capacity, 0, [item])
    {
      hide Rinserted, Ring, Grown, Shrunk, Tight;
      CheckLowCapacity(1);
      if old(Saving()) {
        GrowingKeepsTight(old(ring.buff.Length), ring.size, minCapacity, capacity, 1, ring.buff.Length);
      }
      SameClipping(Contents(), ring.buff.Length, capacity, 0, [item]);
      ring.PushFront(item);
    }

    method PopBack()
      requires Valid() && ring.size > 0
      modifies ring, ring.buff
      ensures Valid() && capacity == old(capacity) && minCapacity == old(minCapacity)
      ensures ring.buff == old(ring.buff) || fresh(ring.buff)
      ensures Shrunk(old(ring.buff.Length), ring.size, minCapacity, capacity, ring.buff.Length) && Saving()
      ensures Contents() == Erased(old(Contents()), old(ring.size) - 1, old(ring.size))
    {
      hide Erased, Ring, Grown, Shrunk, Tight;
      ring.PopBack();
      CheckHighCapacity();
    }

    method PopFront()
      requires Valid() && ring.size > 0
      modifies ring, ring.buff
      ensures Valid() && capacity == old(capacity) && minCapacity == old(minCapacity)
      ensures ring.buff == old(ring.buff) || fresh(ring.buff)
      ensures Shrunk(old(ring.buff.Length), ring.size, minCapacity, capacity, ring.buff.Length) && Saving()
      ensures Contents() == Erased(old(Contents()), 0, 1)
    {
      hide Erased, Ring, Grown, Shrunk, Tight;
      ring.PopFront();
      CheckHighCapacity();
    }

    method Insert(pos: Iter, item: T) returns (r: Iter)
      requires Valid() && ring.IsIter(pos)
      modifies ring, ring.buff
      ensures Valid() && capacity == old(capacity) && minCapacity == old(minCapacity)
      ensures ring.buff == old(ring.buff) || fresh(ring.buff)
      ensures Grown(old(ring.buff.Length), old(ring.size) + 1, capacity, ring.buff.Length)
      ensures old(ring.size) + 1 <= old(ring.buff.Length) ==> ring.buff == old(ring.buff)
      ensures old(Saving()) ==> Saving()
      ensures Contents() == Inserted(old(Contents()), capacity, old(ring.IndexOf(pos)), [item])
      ensures if old(ring.size) == capacity && old(ring.IndexOf(pos)) == 0 then r == ring.Begin()
              else ring.IsIter(r) && r.At?
                   && ring.IndexOf(r) == old(ring.IndexOf(pos)) - (if old(ring.size) == capacity then 1 else 0)
                   && Contents()[ring.IndexOf(r)] == item
    {
      hide Inserted, Ring, Add, Sub, Ahead, Grown, Shrunk, Tight;
      var at := MakeRoom(pos, 1);
      if old(Saving()) {
        GrowingKeepsTight(old(ring.buff.Length), ring.size, minCapacity, capacity, 1, ring.buff.Length);
      }
      SameClipping(Contents(), ring.buff.Length, capacity, ring.IndexOf(at), [item]);
      r := ring.Insert(at, item);
    }

    method InsertRange(pos: Iter, items: seq<T>)
      requires Valid() && ring.IsIter(pos)
      modifies ring, ring.buff
      ensures Valid() && capacity == old(capacity) && minCapacity == old(minCapacity)
      ensures ring.buff == old(ring.buff) || fresh(ring.buff)
      ensures Grown(old(ring.buff.Length), old(ring.size) + |items|, capacity, ring.buff.Length)
      ensures old(ring.size) + |items| <= old(ring.buff.Length) ==> ring.buff == old(ring.buff)
      ensures old(Saving()) ==> Saving()
      ensures Contents() == Inserted(old(Contents()), capacity, old(ring.IndexOf(pos)), items)
    {
      hide Inserted, Ring, Grown, Shrunk, Tight;
      var at := MakeRoom(pos, |items|);
      if old(Saving()) {
        GrowingKeepsTight(old(ring.buff.Length), ring.size, minCapacity, capacity, |items|, ring.buff.Length);
      }
      SameClipping(Contents(), ring.buff.Length, capacity, ring.IndexOf(at), items);
      ring.InsertRange(at, items);
    }

    method Rinsert(pos: Iter, item: T) returns (r: Iter)
      requires Valid() && ring.IsIter(pos)
      modifies ring, ring.buff
      ensures Valid() && capacity == old(capacity) && minCapacity == old(minCapacity)
      ensures ring.buff == old(ring.buff) || fresh(ring.buff)
      ensures Grown(old(ring.buff.Length), old(ring.size) + 1, capacity, ring.buff.Length)
      ensures old(ring.size) + 1 <= old(ring.buff.Length) ==> ring.buff == old(ring.buff)
      ensures old(Saving()) ==> Saving()
      ensures Contents() == Rinserted(old(Contents()), capacity, old(ring.IndexOf(pos)), [item])
      ensures if old(ring.size) == capacity && pos.End? then r == End
              else ring.IsIter(r) && r.At? && ring.IndexOf(r) == old(ring.IndexOf(pos))
                   && Contents()[ring.IndexOf(r)] == item
    {
      hide Rinserted, Ring, Add, Sub, Ahead, Grown, Shrunk, Tight;
      var at := MakeRoom(pos, 1);
      if old(Saving()) {
        GrowingKeepsTight(old(ring.buff.Length), ring.size, minCapacity, capacity, 1, ring.buff.Length);
      }
      SameClipping(Contents(), ring.buff.Length, capacity, ring.IndexOf(at), [item]);
      r := ring.Rinsert(at, item);
    }

    method RinsertRange(pos: Iter, items: seq<T>)
      requires Valid() && ring.IsIter(pos)
      modifies ring, ring.buff
      ensures Valid() && capacity == old(capacity) && minCapacity == old(minCapacity)
      ensures ring.buff == old(ring.buff) || fresh(ring.buff)
      ensures Grown(old(ring.buff.Length), old(ring.size) + |items|, capacity, ring.buff.Length)
      ensures old(ring.size) + |items| <= old(ring.buff.Length) ==> ring.buff == old(ring.buff)
      ensures old(Saving()) ==> Saving()
      ensures Contents() == Rinserted(old(Contents()), capacity, old(ring.IndexOf(pos)), items)
    {
      hide Rinserted, Ring, Grown, Shrunk, Tight;
      var at := MakeRoom(pos, |items|);
      if old(Saving()) {
        GrowingKeepsTight(old(ring.buff.Length), ring.size, minCapacity, capacity, |items|, ring.buff.Length);
      }
      SameClipping(Contents(), ring.buff.Length, capacity, ring.IndexOf(at), items);
      ring.RinsertN(at, items);
    }

    method EraseRange(f: Iter, l: Iter) returns (r: Iter)
      requires Valid() && ring.IsIter(f) && ring.IsIter(l) && ring.IndexOf(f) <= ring.IndexOf(l)
      modifies ring, ring.buff
      ensures Valid() && capacity == old(capacity) && minCapacity == old(minCapacity)
      ensures ring.buff == old(ring.buff) || fresh(ring.buff)
      ensures Shrunk(old(ring.buff.Length), ring.size, minCapacity, capacity, ring.buff.Length) && Saving()
      ensures Contents() == Erased(old(Contents()), old(ring.IndexOf(f)), old(ring.IndexOf(l)))
      ensures ring.IsIter(r) && ring.IndexOf(r) == old(ring.IndexOf(f))
    {
      hide Erased, Ring, Grown, Shrunk, Tight;
      var it := ring.EraseRange(f, l);
      var index := ring.Difference(it, ring.Begin());
      CheckHighCapacity();
      r := ring.Plus(ring.Begin(), index);
    }

    method ReraseRange(f: Iter, l: Iter) returns (r: Iter)
      requires Valid() && ring.IsIter(f) && ring.IsIter(l) && ring.IndexOf(f) <= ring.IndexOf(l)
      modifies ring, ring.buff
      ensures Valid() && capacity == old(capacity) && minCapacity == old(minCapacity)
      ensures ring.buff == old(ring.buff) || fresh(ring.buff)
      ensures Shrunk(old(ring.buff.Length), ring.size, minCapacity, capacity, ring.buff.Length) && Saving()
      ensures Contents() == Erased(old(Contents()), old(ring.IndexOf(f)), old(ring.IndexOf(l)))
      ensures ring.IsIter(r)
      ensures var i := old(ring.IndexOf(f)); ring.IndexOf(r) == if i == 0 || f == l then i else i - 1
    {
      hide Erased, Ring, Grown, Shrunk, Tight;
      var it := ring.ReraseRange(f, l);
      var index := ring.Difference(it, ring.Begin());
      CheckHighCapacity();
      r := ring.Plus(ring.Begin(), index);
    }

    method Clear()
      requires Valid()
      modifies ring, ring.buff
      ensures Valid() && capacity == old(capacity) && minCapacity == old(minCapacity)
      ensures ring.buff == old(ring.buff) || fresh(ring.buff)
      ensures Shrunk(old(ring.buff.Length), ring.size, minCapacity, capacity, ring.buff.Length) && Saving()
      ensures Contents() == []
    {
      var _ := EraseRange(ring.Begin(), End);
    }

    // ----- capacity -----

    method AdjustMinCapacity()
      requires ring.Valid() && minCapacity <= capacity && ring.size <= capacity
      modifies ring
      ensures Valid() && Contents() == old(ring.Contents())
      ensures ring.buff == old(ring.buff) || fresh(ring.buff)
      ensures Saving()
    {
      if minCapacity > ring.buff.Length {
        ring.SetCapacity(minCapacity);
      } else {
        CheckHighCapacity();
      }
    }

    method SetCapacity(capacity: nat, minCapacity: nat)
      requires Valid() && minCapacity <= capacity
      modifies this, ring, ring.buff
      ensures Valid() && this.capacity == capacity && this.minCapacity == minCapacity
      ensures ring.buff == old(ring.buff) || fresh(ring.buff)
      ensures Saving()
      ensures Contents() == FirstN(old(Contents()), capacity)
    {
      this.capacity, this.minCapacity := capacity, minCapacity;
      if capacity < ring.size {
        var _ := ring.EraseRange(ring.Minus(End, ring.size - capacity), End);
      }
      AdjustMinCapacity();
    }

    method RsetCapacity(capacity: nat, minCapacity: nat)
      requires Valid() && minCapacity <= capacity
      modifies this, ring, ring.buff
      ensures Valid() && this.capacity == capacity && this.minCapacity == minCapacity
      ensures ring.buff == old(ring.buff) || fresh(ring.buff)
      ensures Saving()
      ensures Contents() == LastN(old(Contents()), capacity)
    {
      hide Ring, Shrunk, Tight, Grown;
      this.capacity, this.minCapacity := capacity, minCapacity;
      if capacity < ring.size {
        var b := ring.Begin();
        var _ := ring.ReraseRange(b, ring.Plus(b, ring.size - capacity));
      }
      AdjustMinCapacity();
    }

    method Resize(newSize: nat, item: T)
      requires Valid()
      modifies this, ring, ring.buff
      ensures Valid() && minCapacity == old(minCapacity)
      ensures capacity == if newSize > old(capacity) then newSize else old(capacity)
      ensures ring.buff == old(ring.buff) || fresh(ring.buff)
      ensures old(Saving()) ==> Saving()
      ensures Contents() == Resized(old(Contents()), newSize, item)
    {
      hide Ring, Inserted, Erased, Resized, Grown, Shrunk, Tight;
      if newSize > ring.size {
        if newSize > capacity { capacity := newSize; }
        ResizedByInserting(Contents(), capacity, newSize, item);
        InsertRange(End, Copies(newSize - ring.size, item));
      } else {
        ResizedByErasing(Contents(), newSize, item);
        var _ := EraseRange(ring.Minus(End, ring.size - newSize), End);
      }
    }

    method Rresize(newSize: nat, item: T)
      requires Valid()
      modifies this, ring, ring.buff
      ensures Valid() && minCapacity == old(minCapacity)
      ensures capacity == if newSize > old(capacity) then newSize else old(capacity)
      ensures ring.buff == old(ring.buff) || fresh(ring.buff)
      ensures old(Saving()) ==> Saving()
      ensures Contents() == Rresized(old(Contents()), newSize, item)
    {
      hide Ring, Rinserted, Erased, Rresized, Grown, Shrunk, Tight;
      if newSize > ring.size {
        if newSize > capacity { capacity := newSize; }
        ResizedByInserting(Contents(), capacity, newSize, item);
        RinsertRange(ring.Begin(), Copies(newSize - ring.size, item));
      } else {
        ResizedByErasing(Contents(), newSize, item);
        var _ := ReraseRange(ring.Begin(), ring.Minus(End, newSize));
      }
    }
  }
}
