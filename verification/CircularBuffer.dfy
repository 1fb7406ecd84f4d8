/**
  The circular buffer, on its array of cells.  An element that the source
  constructs and one that it assigns are written alike.
 */
module CircularBuffers {
  import opened Linearizing
  import opened RingSpec

  /** An iterator is a cell, or the end, which the source writes as a null pointer. */
  datatype Iter = End | At(cell: nat)

  class CircularBuffer<T(0)> {
    var buff: array<T>
    var first: nat
    var last: nat
    var size: nat

    ghost predicate Valid()
      reads this
    {
      && IsCell(buff.Length, first) && size <= buff.Length
      && last == Add(buff.Length, first, size)
    }

    ghost function Contents(): (c: seq<T>)
      requires Valid()
      reads this, buff
      ensures |c| == size
    {
      Ring(buff[..], first, size)
    }

    constructor (capacity: nat)
      ensures Valid() && fresh(buff) && buff.Length == capacity && Contents() == []
    {
      buff := new T[capacity];
      first, last, size := 0, 0, 0;
    }

    predicate Full()
      reads this
    {
      size == buff.Length
    }

    // ----- pointers and iterators -----

    function Inc(p: nat): nat
      requires p < buff.Length
      reads this
    {
      if p + 1 == buff.Length then 0 else p + 1
    }

    function Dec(p: nat): nat
      requires p < buff.Length
      reads this
    {
      (if p == 0 then buff.Length else p) - 1
    }

    function Begin(): Iter
      reads this
    {
      if size == 0 then End else At(first)
    }

    ghost predicate IsIter(it: Iter)
      requires Valid()
      reads this
    {
      it.At? ==> it.cell < buff.Length && Ahead(buff.Length, first, it.cell) < size
    }

    /** Where an iterator is once the buffer is linearized. */
    function IndexOf(it: Iter): nat
      requires Valid() && IsIter(it)
      reads this
    {
      if it.End? then size else Ahead(buff.Length, first, it.cell)
    }

    function MapPointer(it: Iter): (p: nat)
      requires Valid() && IsIter(it)
      reads this
      ensures IsCell(buff.Length, p) && p == Add(buff.Length, first, IndexOf(it))
    {
      if it.End? then last else it.cell
    }

    /** `*it` is the element of that index. */
    method Get(it: Iter) returns (x: T)
      requires Valid() && IsIter(it) && it.At?
      ensures x == Contents()[IndexOf(it)]
    {
      x := buff[it.cell];
    }

    function Next(it: Iter): (r: Iter)
      requires Valid() && IsIter(it) && it.At?
      reads this
      ensures IsIter(r) && IndexOf(r) == IndexOf(it) + 1
    {
      var p := Inc(it.cell);
      if p == last then End else At(p)
    }

    function Prev(it: Iter): (r: Iter)
      requires Valid() && IsIter(it) && it != Begin()
      reads this
      ensures IsIter(r) && r.At? && IndexOf(r) == IndexOf(it) - 1
    {
      At(Dec(if it.End? then last else it.cell))
    }

    /** `it += n`, which for a negative `n` is `it -= -n`. */
    function Plus(it: Iter, n: int): (r: Iter)
      requires Valid() && IsIter(it) && 0 <= IndexOf(it) + n <= size
      reads this
      ensures IsIter(r) && IndexOf(r) == IndexOf(it) + n
      decreases if n < 0 then 1 else 0
    {
      if n > 0 then
        var p := Add(buff.Length, MapPointer(it), n);
        if p == last then End else At(p)
      else if n < 0 then Minus(it, -n)
      else it
    }

    /** `it -= n` */
    function Minus(it: Iter, n: int): (r: Iter)
      requires Valid() && IsIter(it) && 0 <= IndexOf(it) - n <= size
      reads this
      ensures IsIter(r) && IndexOf(r) == IndexOf(it) - n
      decreases if n < 0 then 1 else 0
    {
      if n > 0 then At(Sub(buff.Length, MapPointer(it), n))
      else if n < 0 then Plus(it, -n)
      else it
    }

    function Difference(x: Iter, y: Iter): int
      requires Valid() && IsIter(x) && IsIter(y)
      reads this
    {
      IndexOf(x) - IndexOf(y)
    }

    lemma SameIndexSameIter(x: Iter, y: Iter)
      requires Valid() && IsIter(x) && IsIter(y)
      ensures x == y <==> IndexOf(x) == IndexOf(y)
    {
    }

    /** Iterator difference undoes iterator addition, and the other way round. */
    lemma DifferenceUndoesPlus(x: Iter, y: Iter, n: int)
      requires Valid() && IsIter(x) && IsIter(y) && 0 <= IndexOf(y) + n <= size
      ensures Difference(x, y) == n <==> x == Plus(y, n)
    {
      SameIndexSameIter(x, Plus(y, n));
    }

    method Front() returns (x: T)
      requires Valid() && size > 0
      ensures x == Contents()[0]
    {
      x := buff[first];
    }

    method Back() returns (x: T)
      requires Valid() && size > 0
      ensures x == Contents()[size - 1]
    {
      x := buff[(if last == 0 then buff.Length else last) - 1];
    }

    // ----- push and pop -----

    /** `replace`, and `construct` where the cell holds no element. */
    method Put(p: nat, x: T)
      requires p < buff.Length
      modifies buff
      ensures buff[..] == old(buff[..])[p := x]
    {
      buff[p] := x;
    }

    method PushBack(item: T)
      requires Valid()
      modifies this, buff
      ensures Valid() && buff == old(buff)
      ensures Contents() == Inserted(old(Contents()), buff.Length, old(size), [item])
    {
      if Full() {
        if size == 0 {
          NoRoom(Contents(), item);
          assert buff.Length == 0 && Contents() == old(Contents());
          return;
        }
        Put(last, item);
        last := Inc(last);
        first := last;
      } else {
        Put(last, item);
        last := Inc(last);
        size := size + 1;
      }
    }

    method PushFront(item: T)
      requires Valid()
      modifies this, buff
      ensures Valid() && buff == old(buff)
      ensures Contents() == Rinserted(old(Contents()), buff.Length, 0, [item])
    {
      if Full() {
        if size == 0 {
          NoRoom(Contents(), item);
          assert buff.Length == 0 && Contents() == old(Contents());
          return;
        }
        first := Dec(first);
        Put(first, item);
        last := first;
      } else {
        first := Dec(first);
        Put(first, item);
        size := size + 1;
      }
    }

    method PopBack()
      requires Valid() && size > 0
      modifies this
      ensures Valid() && buff == old(buff)
      ensures Contents() == Erased(old(Contents()), old(size) - 1, old(size))
    {
      last := Dec(last);
      size := size - 1;
    }

    method PopFront()
      requires Valid() && size > 0
      modifies this
      ensures Valid() && buff == old(buff)
      ensures Contents() == Erased(old(Contents()), 0, 1)
    {
      first := Inc(first);
      size := size - 1;
    }

    // ----- loops over cells -----

    /** Writes the items to the cells from `start` on. */
    method Fill(start: nat, items: seq<T>)
      requires start < buff.Length && |items| <= buff.Length
      modifies buff
      ensures Ring(buff[..], start, buff.Length) == items + old(Ring(buff[..], start, buff.Length))[|items|..]
    {
      var p, ii := start, 0;
      ghost var a := buff[..];
      while ii < |items|
        invariant ii <= |items| && p == Add(buff.Length, start, ii)
        invariant buff[..] == Written(a, start, items, ii)
      {
        Put(p, items[ii]);
        p := Inc(p);
        ii := ii + 1;
      }
      WrittenInOrder(a, start, items, ii);
    }

    /** Moves the `k` cells before `end`, which start at `stop`, up by `n` cells, the last one first. */
    method MoveUp(end: nat, stop: nat, ghost k: nat, n: nat)
      requires stop < buff.Length && 0 < n && k + n <= buff.Length
      requires end == Add(buff.Length, stop, k)
      modifies buff
      ensures var v := old(Ring(buff[..], stop, buff.Length));
              Ring(buff[..], stop, buff.Length) == v[..n] + v[..k] + v[n + k..]
    {
      var src, dest := end, Add(buff.Length, end, n - 1);
      ghost var a, j: nat := buff[..], k;
      while src != stop
        invariant j <= k && src == Add(buff.Length, stop, j)
        invariant dest == Dec(Add(buff.Length, stop, n + j))
        invariant buff[..] == Up(a, stop, n, k, j)
        decreases j
      {
        src := Dec(src);
        Put(dest, buff[src]);
        dest := Dec(dest);
        j := j - 1;
      }
      UpMoves(a, stop, n, k, 0);
    }

    /** Moves the `k` cells from `start` up to `stop` down by `n` cells, to `dest`, the first one first. */
    method MoveDown(start: nat, stop: nat, base: nat, ghost k: nat, ghost n: nat) returns (dest: nat)
      requires base < buff.Length && 0 < n && k + n <= buff.Length
      requires start == Add(buff.Length, base, n) && stop == Add(buff.Length, base, n + k)
      modifies buff
      ensures buff[..] == Down(old(buff[..]), base, n, k)
      ensures dest == Add(buff.Length, base, k)
    {
      var src := start;
      dest := base;
      ghost var a, j: nat := buff[..], 0;
      while src != stop
        invariant j <= k && src == Add(buff.Length, base, n + j) && dest == Add(buff.Length, base, j)
        invariant buff[..] == Down(a, base, n, j)
        decreases k - j
      {
        Put(dest, buff[src]);
        src := Inc(src);
        dest := Inc(dest);
        j := j + 1;
      }
    }

    // ----- insert -----

    /** The loops of `insert_n`: what follows `pos` moves up and the items take its place. */
    method WriteAt(pos: Iter, items: seq<T>)
      requires Valid() && IsIter(pos) && 0 < |items| <= buff.Length - (size - IndexOf(pos))
      modifies buff
      ensures var p, k, n := MapPointer(pos), size - IndexOf(pos), |items|;
              var v := old(Ring(buff[..], p, buff.Length));
              Ring(buff[..], p, buff.Length) == items + v[..k] + v[n + k..]
    {
      hide Ring, Up;
      if pos.At? {
        ghost var k := size - IndexOf(pos);
        AddAdd(buff.Length, first, IndexOf(pos), k);
        MoveUp(last, pos.cell, k, |items|);
        Fill(pos.cell, items);
      } else {
        Fill(last, items);
      }
    }

    /** Inserts at `pos` items for which there is room without touching what follows `pos`. */
    method InsertN(pos: Iter, items: seq<T>)
      requires Valid() && IsIter(pos) && 0 < |items| <= buff.Length - (size - IndexOf(pos))
      modifies this, buff
      ensures Valid() && buff == old(buff)
      ensures Contents() == Inserted(old(Contents()), buff.Length, old(IndexOf(pos)), items)
      ensures old(size) + |items| <= buff.Length ==> first == old(first)
    {
      hide Ring, Inserted;
      var n := |items|;
      var construct := Least(buff.Length - size, n);
      ghost var a := buff[..];
      WriteAt(pos, items);
      InsertedInPlace(a, buff[..], first, size, IndexOf(pos), items);
      InsertMoves(buff.Length, first, size, n, construct);
      last := Add(buff.Length, last, n);
      first := Add(buff.Length, first, n - construct);
      size := size + construct;
    }

    method InsertRange(pos: Iter, items: seq<T>)
      requires Valid() && IsIter(pos)
      modifies this, buff
      ensures Valid() && buff == old(buff)
      ensures Contents() == Inserted(old(Contents()), buff.Length, old(IndexOf(pos)), items)
      ensures old(size) + |items| <= buff.Length ==> first == old(first)
    {
      hide Ring, Inserted;
      var n := |items|;
      var copy := buff.Length - Difference(End, pos);
      InsertedClipped(Contents(), buff.Length, IndexOf(pos), items);
      InsertedNothing(Contents(), buff.Length, IndexOf(pos));
      if n == 0 {
        assert items == [];
        return;
      }
      if copy == 0 {
        assert LastN(items, copy) == [];
        return;
      }
      var kept := items[if n > copy then n - copy else 0..];
      assert kept == LastN(items, copy);
      InsertN(pos, kept);
    }

    method InsertCopies(pos: Iter, n: nat, item: T)
      requires Valid() && IsIter(pos)
      modifies this, buff
      ensures Valid() && buff == old(buff)
      ensures Contents() == Inserted(old(Contents()), buff.Length, old(IndexOf(pos)), Copies(n, item))
      ensures old(size) + n <= buff.Length ==> first == old(first)
    {
      hide Ring, Inserted;
      var copy := buff.Length - Difference(End, pos);
      InsertedClipped(Contents(), buff.Length, IndexOf(pos), Copies(n, item));
      InsertedNothing(Contents(), buff.Length, IndexOf(pos));
      assert LastN(Copies(n, item), copy) == Copies(Least(n, copy), item);
      if n == 0 { return; }
      if copy == 0 { return; }
      InsertN(pos, Copies(if n > copy then copy else n, item));
    }

    /** Stores one item; the cell at `last` is then in use, and a full buffer gives up its first one. */
    method StoreItem(pos: Iter, item: T)
      requires Valid() && IsIter(pos) && !(Full() && IndexOf(pos) == 0)
      modifies this, buff
      ensures Valid() && buff == old(buff)
      ensures Contents() == Inserted(old(Contents()), buff.Length, old(IndexOf(pos)), [item])
      ensures first == Add(buff.Length, old(first), if old(Full()) then 1 else 0)
    {
      hide Ring, Inserted;
      ghost var a := buff[..];
      WriteAt(pos, [item]);
      ghost var b := buff[..];
      InsertedInPlace(a, b, first, size, IndexOf(pos), [item]);
      last := Inc(last);
      if Full() { first := last; } else { size := size + 1; }
      assert buff[..] == b;
    }

    method InsertItem(pos: Iter, item: T) returns (r: Iter)
      requires Valid() && IsIter(pos) && !(Full() && IndexOf(pos) == 0)
      modifies this, buff
      ensures Valid() && buff == old(buff)
      ensures Contents() == Inserted(old(Contents()), buff.Length, old(IndexOf(pos)), [item])
      ensures IsIter(r) && r.At? && IndexOf(r) == old(IndexOf(pos)) - (if old(Full()) then 1 else 0)
      ensures Contents()[IndexOf(r)] == item
    {
      hide Ring, Inserted;
      ItemPlace(Contents(), buff.Length, IndexOf(pos), item);
      var p := MapPointer(pos);
      CellOf(buff.Length, first, size, IndexOf(pos));
      StoreItem(pos, item);
      r := At(p);
    }

    /** A full buffer takes nothing at its beginning. */
    method Insert(pos: Iter, item: T) returns (r: Iter)
      requires Valid() && IsIter(pos)
      modifies this, buff
      ensures Valid() && buff == old(buff)
      ensures Contents() == Inserted(old(Contents()), buff.Length, old(IndexOf(pos)), [item])
      ensures if old(Full()) && old(IndexOf(pos)) == 0 then r == Begin()
              else IsIter(r) && r.At? && IndexOf(r) == old(IndexOf(pos)) - (if old(Full()) then 1 else 0)
                   && Contents()[IndexOf(r)] == item
    {
      hide Ring, Inserted;
      if Full() && pos == Begin() {
        InsertedClipped(Contents(), buff.Length, IndexOf(pos), [item]);
        InsertedNothing(Contents(), buff.Length, IndexOf(pos));
        assert LastN([item], 0) == [];
        return Begin();
      }
      r := InsertItem(pos, item);
    }

    // ----- reverse insert -----

    method FillFrom(start: nat, items: seq<T>, ghost base: nat, ghost i: nat)
      requires base < buff.Length && i + |items| <= buff.Length && start == Add(buff.Length, base, i)
      modifies buff
      ensures var v := old(Ring(buff[..], base, buff.Length));
              Ring(buff[..], base, buff.Length) == v[..i] + items + v[i + |items|..]
    {
      ghost var a := buff[..];
      Fill(start, items);
      FilledAt(a, buff[..], base, i, items);
    }

    /** The loops of `rinsert_n`: what precedes `pos` moves down and the items follow it. */
    method WriteBefore(pos: Iter, items: seq<T>)
      requires Valid() && IsIter(pos) && 0 < |items| <= buff.Length - IndexOf(pos)
      modifies buff
      ensures var base, i, n := Sub(buff.Length, first, |items|), IndexOf(pos), |items|;
              var v := old(Ring(buff[..], base, buff.Length));
              Ring(buff[..], base, buff.Length) == v[n..n + i] + items + v[n + i..]
    {
      hide Ring, Down;
      var base := Sub(buff.Length, first, |items|);
      if pos == Begin() {
        FillFrom(base, items, base, 0);
        AtTheFront(old(Ring(buff[..], base, buff.Length)), items);
      } else {
        ghost var i, n := IndexOf(pos), |items|;
        AddAdd(buff.Length, base, n, i);
        DownMoves(buff[..], base, n, i);
        var dest := MoveDown(first, MapPointer(pos), base, i, n);
        FillFrom(dest, items, base, i);
        BehindTheMoved(old(Ring(buff[..], base, buff.Length)), i, items);
      }
    }

    /** Inserts before `pos` as many items as there is room for without touching what precedes `pos`. */
    method RinsertN(pos: Iter, items: seq<T>)
      requires Valid() && IsIter(pos)
      modifies this, buff
      ensures Valid() && buff == old(buff)
      ensures Contents() == Rinserted(old(Contents()), buff.Length, old(IndexOf(pos)), items)
      ensures old(size) + |items| <= buff.Length ==> last == old(last)
    {
      hide Ring, Rinserted;
      var n := |items|;
      RinsertedClipped(Contents(), buff.Length, IndexOf(pos), items);
      InsertedNothing(Contents(), buff.Length, IndexOf(pos));
      if n == 0 {
        assert items == [];
        return;
      }
      var copy := buff.Length - Difference(pos, Begin());
      if copy == 0 {
        assert FirstN(items, copy) == [];
        return;
      }
      if n > copy { n := copy; }
      assert items[..n] == FirstN(items, copy);
      RinsertSome(pos, items[..n]);
    }

    method RinsertSome(pos: Iter, items: seq<T>)
      requires Valid() && IsIter(pos) && 0 < |items| <= buff.Length - IndexOf(pos)
      modifies this, buff
      ensures Valid() && buff == old(buff)
      ensures Contents() == Rinserted(old(Contents()), buff.Length, old(IndexOf(pos)), items)
      ensures old(size) + |items| <= buff.Length ==> last == old(last)
    {
      hide Ring, Rinserted;
      var n := |items|;
      var construct := Least(buff.Length - size, n);
      ghost var a := buff[..];
      WriteBefore(pos, items);
      RinsertedInPlace(a, buff[..], first, Sub(buff.Length, first, n), size, IndexOf(pos), items);
      RinsertMoves(buff.Length, first, size, n, construct);
      first := Sub(buff.Length, first, n);
      last := Sub(buff.Length, last, n - construct);
      size := size + construct;
    }

    /** Stores one item; the cell before `first` is then in use, and a full buffer gives up its last one. */
    method StoreItemBefore(pos: Iter, item: T)
      requires Valid() && IsIter(pos) && !(Full() && pos.End?)
      modifies this, buff
      ensures Valid() && buff == old(buff)
      ensures Contents() == Rinserted(old(Contents()), buff.Length, old(IndexOf(pos)), [item])
      ensures first == old(Dec(first))
    {
      hide Ring, Rinserted;
      ghost var a := buff[..];
      WriteBefore(pos, [item]);
      RinsertedInPlace(a, buff[..], first, Sub(buff.Length, first, 1), size, IndexOf(pos), [item]);
      first := Dec(first);
      assert first == Sub(buff.Length, old(first), 1);
      if Full() { last := first; } else { size := size + 1; }
    }

    /** A full buffer takes nothing at its end. */
    method Rinsert(pos: Iter, item: T) returns (r: Iter)
      requires Valid() && IsIter(pos)
      modifies this, buff
      ensures Valid() && buff == old(buff)
      ensures Contents() == Rinserted(old(Contents()), buff.Length, old(IndexOf(pos)), [item])
      ensures if old(Full()) && pos.End? then r == End
              else IsIter(r) && r.At? && IndexOf(r) == old(IndexOf(pos)) && Contents()[IndexOf(r)] == item
    {
      hide Ring, Rinserted;
      if Full() && pos.End? {
        RinsertedClipped(Contents(), buff.Length, size, [item]);
        InsertedNothing(Contents(), buff.Length, size);
        assert FirstN([item], 0) == [];
        return End;
      }
      r := RinsertItem(pos, item);
    }

    method RinsertItem(pos: Iter, item: T) returns (r: Iter)
      requires Valid() && IsIter(pos) && !(Full() && pos.End?)
      modifies this, buff
      ensures Valid() && buff == old(buff)
      ensures Contents() == Rinserted(old(Contents()), buff.Length, old(IndexOf(pos)), [item])
      ensures IsIter(r) && r.At? && IndexOf(r) == old(IndexOf(pos)) && Contents()[IndexOf(r)] == item
    {
      hide Ring, Rinserted, Add, Sub, Ahead;
      ItemPlace(Contents(), buff.Length, IndexOf(pos), item);
      var p := if pos == Begin() then first else MapPointer(pos);
      CellBefore(buff.Length, first, IndexOf(pos));
      StoreItemBefore(pos, item);
      r := At(Dec(p));
    }

    // ----- erase -----

    method Erase(pos: Iter) returns (r: Iter)
      requires Valid() && IsIter(pos) && pos.At?
      modifies this, buff
      ensures Valid() && buff == old(buff)
      ensures Contents() == Erased(old(Contents()), old(IndexOf(pos)), old(IndexOf(pos)) + 1)
      ensures IsIter(r) && IndexOf(r) == old(IndexOf(pos))
      ensures first == old(first)
    {
      hide Ring, Down, Erased;
      ghost var i := IndexOf(pos);
      AddAdd(buff.Length, first, i, 1);
      AddAdd(buff.Length, first, i, size - i);
      ErasedInPlace(buff[..], first, size, i, i + 1);
      var _ := MoveDown(Inc(pos.cell), last, pos.cell, size - i - 1, 1);
      last := Dec(last);
      size := size - 1;
      r := if last == pos.cell then End else pos;
    }

    /** Destroys elements from the back until `last` is at `stop`, at least one. */
    method DropBack(stop: nat, ghost n: nat)
      requires Valid() && 0 < n <= size && stop == Add(buff.Length, first, size - n)
      modifies this`last, this`size
      ensures Valid() && size == old(size) - n && last == stop
    {
      ghost var m := size;
      while true
        invariant Valid() && m - n < size <= m
        decreases size
      {
        last := Dec(last);
        size := size - 1;
        if last == stop { break; }
      }
    }

    /** The iterators run until the second one is at the end, which is when its cell is `last`. */
    method CloseGap(f: Iter, l: Iter) returns (stop: nat)
      requires Valid() && IsIter(f) && IsIter(l) && IndexOf(f) < IndexOf(l)
      modifies buff
      ensures buff[..] == Down(old(buff[..]), f.cell, IndexOf(l) - IndexOf(f), size - IndexOf(l))
      ensures stop == Add(buff.Length, first, size - (IndexOf(l) - IndexOf(f)))
    {
      stop := f.cell;
      if l.At? {
        ghost var i, j := IndexOf(f), IndexOf(l);
        AddAdd(buff.Length, first, i, j - i);
        AddAdd(buff.Length, first, i, size - i);
        AddAdd(buff.Length, first, i, size - j);
        stop := MoveDown(l.cell, last, f.cell, size - j, j - i);
      }
    }

    method EraseRange(f: Iter, l: Iter) returns (r: Iter)
      requires Valid() && IsIter(f) && IsIter(l) && IndexOf(f) <= IndexOf(l)
      modifies this, buff
      ensures Valid() && buff == old(buff)
      ensures Contents() == Erased(old(Contents()), old(IndexOf(f)), old(IndexOf(l)))
      ensures IsIter(r) && IndexOf(r) == old(IndexOf(f))
      ensures first == old(first)
    {
      hide Ring, Down, Erased;
      SameIndexSameIter(f, l);
      ErasedNothing(Contents(), IndexOf(f));
      if f == l { return f; }
      ghost var n := IndexOf(l) - IndexOf(f);
      ErasedInPlace(buff[..], first, size, IndexOf(f), IndexOf(l));
      var stop := CloseGap(f, l);
      DropBack(stop, n);
      r := if last == f.cell then End else At(f.cell);
    }

    // ----- reverse erase -----

    /** The elements before `end` move up to end at `p`; returns where the first of them is then. */
    method MoveBefore(end: nat, top: nat, ghost k: nat, ghost n: nat) returns (p: nat)
      requires first < buff.Length && 0 < n && k + n <= buff.Length
      requires end == Add(buff.Length, first, k) && top == Add(buff.Length, first, n + k)
      modifies buff
      ensures buff[..] == Up(old(buff[..]), first, n, k, 0)
      ensures p == Add(buff.Length, first, n)
    {
      var src := end;
      p := top;
      ghost var a, j: nat := buff[..], k;
      while src != first
        invariant j <= k && src == Add(buff.Length, first, j) && p == Add(buff.Length, first, n + j)
        invariant buff[..] == Up(a, first, n, k, j)
        decreases j
      {
        src := Dec(src);
        p := Dec(p);
        Put(p, buff[src]);
        j := j - 1;
      }
    }

    method Rerase(pos: Iter) returns (r: Iter)
      requires Valid() && IsIter(pos) && pos.At?
      modifies this, buff
      ensures Valid() && buff == old(buff)
      ensures Contents() == Erased(old(Contents()), old(IndexOf(pos)), old(IndexOf(pos)) + 1)
      ensures IsIter(r) && IndexOf(r) == if old(IndexOf(pos)) == 0 then 0 else old(IndexOf(pos)) - 1
      ensures last == old(last)
    {
      hide Ring, Up, Erased;
      ghost var i := IndexOf(pos);
      RerasedInPlace(buff[..], first, size, i, i + 1);
      AddAdd(buff.Length, first, 1, i);
      var p := MoveBefore(pos.cell, Inc(pos.cell), i, 1);
      first := Inc(first);
      size := size - 1;
      r := if p == Inc(pos.cell) then Begin() else pos;
    }

    /** Destroys elements from the front until `first` is at `stop`, at least one. */
    method DropFront(stop: nat, ghost n: nat)
      requires Valid() && 0 < n <= size && stop == Add(buff.Length, first, n)
      modifies this`first, this`size
      ensures Valid() && size == old(size) - n && first == stop
    {
      ghost var m := size;
      while true
        invariant Valid() && m - n < size <= m && stop == Add(buff.Length, first, size - (m - n))
        decreases size
      {
        first := Inc(first);
        size := size - 1;
        if first == stop { break; }
      }
    }

    /** The loops of the range `rerase`. */
    method CutFront(f: Iter, l: Iter)
      requires Valid() && IsIter(f) && IsIter(l) && IndexOf(f) < IndexOf(l)
      modifies this, buff
      ensures Valid() && buff == old(buff)
      ensures Contents() == Erased(old(Contents()), old(IndexOf(f)), old(IndexOf(l)))
      ensures first == Add(buff.Length, old(first), old(IndexOf(l) - IndexOf(f)))
      ensures last == old(last)
    {
      hide Ring, Up, Erased;
      ghost var n := IndexOf(l) - IndexOf(f);
      RerasedInPlace(buff[..], first, size, IndexOf(f), IndexOf(l));
      var p := MoveBefore(f.cell, MapPointer(l), IndexOf(f), n);
      DropFront(p, n);
    }

    method ReraseRange(f: Iter, l: Iter) returns (r: Iter)
      requires Valid() && IsIter(f) && IsIter(l) && IndexOf(f) <= IndexOf(l)
      modifies this, buff
      ensures Valid() && buff == old(buff)
      ensures Contents() == Erased(old(Contents()), old(IndexOf(f)), old(IndexOf(l)))
      ensures var i := old(IndexOf(f));
              IsIter(r) && IndexOf(r) == if i == 0 || f == l then i else i - 1
      ensures last == old(last)
    {
      hide Ring, Erased;
      SameIndexSameIter(f, l);
      ErasedNothing(Contents(), IndexOf(f));
      if f == l { return f; }
      var top := MapPointer(l);
      InFront(buff.Length, first, IndexOf(f), IndexOf(l) - IndexOf(f), top, Dec(top));
      CutFront(f, l);
      r := if first == top then Begin() else At(Dec(top));
    }

    method Clear()
      requires Valid()
      modifies this
      ensures Valid() && buff == old(buff) && Contents() == []
    {
      first := Add(buff.Length, first, size);
      size := 0;
    }

    /** `erase_begin` for elements that need no destruction. */
    method EraseBeginScalar(n: nat)
      requires Valid() && n <= size
      modifies this
      ensures Valid() && buff == old(buff) && Contents() == Erased(old(Contents()), 0, n)
    {
      if buff.Length > 0 { AddAdd(buff.Length, first, n, size - n); }
      first := Add(buff.Length, first, n);
      size := size - n;
    }

    method EraseBegin(n: nat)
      requires Valid() && n <= size
      modifies this, buff
      ensures Valid() && buff == old(buff) && Contents() == Erased(old(Contents()), 0, n)
    {
      var b := Begin();
      var _ := ReraseRange(b, Plus(b, n));
    }

    /** `erase_end` for elements that need no destruction. */
    method EraseEndScalar(n: nat)
      requires Valid() && n <= size
      modifies this
      ensures Valid() && buff == old(buff) && Contents() == Erased(old(Contents()), old(size) - n, old(size))
    {
      last := Sub(buff.Length, last, n);
      size := size - n;
    }

    method EraseEnd(n: nat)
      requires Valid() && n <= size
      modifies this, buff
      ensures Valid() && buff == old(buff) && Contents() == Erased(old(Contents()), old(size) - n, old(size))
    {
      var _ := EraseRange(Minus(End, n), End);
    }

    // ----- capacity -----

    /** `uninitialized_copy` of the elements from `start` on into new cells, and `reset`. */
    method MoveTo(capacity: nat, start: Iter, n: nat)
      requires Valid() && IsIter(start) && n <= capacity && IndexOf(start) + n <= size
      modifies this
      ensures Valid() && fresh(buff) && buff.Length == capacity
      ensures Contents() == old(Contents()[IndexOf(start)..IndexOf(start) + n])
    {
      var cells := CopyOut(capacity, start, n);
      buff, first, size := cells, 0, n;
      last := if n == capacity then 0 else n;
      assert Contents() == buff[..n];
    }

    method CopyOut(capacity: nat, start: Iter, n: nat) returns (cells: array<T>)
      requires Valid() && IsIter(start) && n <= capacity && IndexOf(start) + n <= size
      ensures fresh(cells) && cells.Length == capacity
      ensures cells[..n] == Contents()[IndexOf(start)..IndexOf(start) + n]
    {
      cells := new T[capacity];
      var it, k := start, 0;
      while k < n
        invariant k <= n && IsIter(it) && IndexOf(it) == IndexOf(start) + k
        invariant forall x | 0 <= x < k :: cells[x] == Contents()[IndexOf(start) + x]
        modifies cells
      {
        cells[k] := Get(it);
        it := Next(it);
        k := k + 1;
      }
    }

    method SetCapacity(capacity: nat)
      requires Valid()
      modifies this
      ensures Valid() && buff.Length == capacity && (buff == old(buff) || fresh(buff))
      ensures Contents() == FirstN(old(Contents()), capacity)
    {
      if capacity == buff.Length { return; }
      MoveTo(capacity, Begin(), Least(capacity, size));
    }

    method RsetCapacity(capacity: nat)
      requires Valid()
      modifies this
      ensures Valid() && buff.Length == capacity && (buff == old(buff) || fresh(buff))
      ensures Contents() == LastN(old(Contents()), capacity)
    {
      if capacity == buff.Length { return; }
      MoveTo(capacity, Minus(End, Least(capacity, size)), Least(capacity, size));
    }

    /** A new size keeps the front of the contents, or adds copies of `item` at the back. */
    method Resize(newSize: nat, item: T)
      requires Valid()
      modifies this, buff
      ensures Valid() && (buff == old(buff) || fresh(buff))
      ensures buff.Length == if newSize > old(buff.Length) then newSize else old(buff.Length)
      ensures Contents() == Resized(old(Contents()), newSize, item)
    {
      hide Ring, Rinserted, Inserted, Erased, Rresized, Resized;
      if newSize > size {
        if newSize > buff.Length { SetCapacity(newSize); }
        ResizedByInserting(Contents(), buff.Length, newSize, item);
        InsertCopies(End, newSize - size, item);
      } else {
        ResizedByErasing(Contents(), newSize, item);
        var _ := EraseRange(Minus(End, size - newSize), End);
      }
    }

    /** The same with the front and the back exchanged. */
    method Rresize(newSize: nat, item: T)
      requires Valid()
      modifies this, buff
      ensures Valid() && (buff == old(buff) || fresh(buff))
      ensures buff.Length == if newSize > old(buff.Length) then newSize else old(buff.Length)
      ensures Contents() == Rresized(old(Contents()), newSize, item)
    {
      hide Ring, Rinserted, Inserted, Erased, Rresized, Resized;
      if newSize > size {
        if newSize > buff.Length { SetCapacity(newSize); }
        ResizedByInserting(Contents(), buff.Length, newSize, item);
        RinsertN(Begin(), Copies(newSize - size, item));
      } else {
        ResizedByErasing(Contents(), newSize, item);
        var _ := ReraseRange(Begin(), Minus(End, newSize));
      }
    }

    // ----- rotate -----

    method Rotate(newBegin: Iter)
      requires Valid() && IsIter(newBegin) && newBegin.At?
      modifies this, buff
      ensures Valid() && buff == old(buff)
      ensures Contents() == Rotated(old(Contents()), old(IndexOf(newBegin)))
    {
      hide Ring, Rotated;
      if Full() {
        FullRotated(buff[..], first, IndexOf(newBegin));
        first, last := newBegin.cell, newBegin.cell;
      } else {
        var m, n := Difference(End, newBegin), Difference(newBegin, Begin());
        BackwardRotates(Contents(), buff.Length, m);
        ForwardRotates(Contents(), buff.Length, n);
        if m < n { RotateBack(m); } else { RotateForward(n); }
      }
    }

    method MoveBackToFront()
      requires Valid() && 0 < size < buff.Length
      modifies this, buff
      ensures Valid() && buff == old(buff)
      ensures Contents() == BackToFront(old(Contents()), buff.Length)
    {
      var x := Back();
      PushFront(x);
      PopBack();
    }

    method MoveFrontToBack()
      requires Valid() && 0 < size < buff.Length
      modifies this, buff
      ensures Valid() && buff == old(buff)
      ensures Contents() == FrontToBack(old(Contents()), buff.Length)
    {
      var x := Front();
      PushBack(x);
      PopFront();
    }

    method RotateBack(count: nat)
      requires Valid() && 0 < size < buff.Length
      modifies this, buff
      ensures Valid() && buff == old(buff)
      ensures Contents() == Backward(old(Contents()), buff.Length, count)
    {
      hide BackToFront;
      ghost var c := Contents();
      var m: nat := count;
      while m > 0
        invariant m <= count && Valid() && buff == old(buff)
        invariant Contents() == Backward(c, buff.Length, count - m)
      {
        MoveBackToFront();
        m := m - 1;
      }
    }

    method RotateForward(count: nat)
      requires Valid() && 0 < size < buff.Length
      modifies this, buff
      ensures Valid() && buff == old(buff)
      ensures Contents() == Forward(old(Contents()), buff.Length, count)
    {
      hide FrontToBack;
      ghost var c := Contents();
      var n: nat := count;
      while n > 0
        invariant n <= count && Valid() && buff == old(buff)
        invariant Contents() == Forward(c, buff.Length, count - n)
      {
        MoveFrontToBack();
        n := n - 1;
      }
    }

    // ----- linearize -----

    predicate IsUninitialized(p: nat)
      reads this
    {
      p >= last && (first < last || p < first)
    }

    /**
      `is_uninitialized` tells the free cells exactly when the buffer is full,
      or is not empty and wraps, reaches the end of the array or starts at its
      beginning.  Otherwise it overlooks free cells before `first`.
     */
    lemma UninitializedExactly()
      requires Valid()
      ensures (forall p: nat | p < buff.Length :: IsUninitialized(p) <==> p !in InUse())
              <==> Full() || (size > 0 && (last <= first || first == 0))
    {
      if !Full() && !(size > 0 && (last <= first || first == 0)) {
        assert !IsUninitialized(0) && 0 !in InUse();
      }
    }

    /** The cells that hold an element. */
    ghost function InUse(): set<nat>
      requires Valid()
      reads this
    {
      Used(buff.Length, first, size)
    }

    /**
      How far `linearize` is when it has moved `d` elements and goes on reading
      at `s`; `built` are the cells that it has constructed an element in.
     */
    ghost predicate Linearizing(t: seq<T>, s: nat, d: nat, f: nat, moved: nat, constructed: nat, built: set<nat>)
      requires Valid()
      reads this, buff
    {
      && |t| == size && last <= first < buff.Length < first + size
      && moved == d <= size && constructed == (if d <= last then 0 else Least(d, first) - last)
      && built == Cells(last, last + constructed)
      && Placed(buff[..], t, s, d, f)
      && (f == first || first <= d || (d == size && s == d))
    }

    /** Moves one element into place: into a free cell by copying, else by swapping. */
    method MoveOne(src: nat, dest: nat, ghost f: nat, made: nat, ghost t: seq<T>, ghost had: set<nat>)
      returns (constructed: nat, ghost built: set<nat>)
      requires Valid() && Linearizing(t, src, dest, f, dest, made, had)
      requires dest < size && dest < f && src < buff.Length
      modifies buff
      ensures Linearizing(t, src + 1, dest + 1, f, dest + 1, constructed, built)
    {
      hide Ring;
      constructed, built := made, had;
      if IsUninitialized(dest) {
        PlacedCopy(buff[..], t, src, dest, f);
        Put(dest, buff[src]);
        constructed, built := constructed + 1, built + {dest};
      } else {
        PlacedSwap(buff[..], t, src, dest, f);
        var tmp := buff[src];
        Put(src, buff[dest]);
        Put(dest, tmp);
      }
    }

    /** The inner loop of `linearize`: one run over the elements from `start` on. */
    method Pass(start: nat, to: nat, done: nat, made: nat, ghost t: seq<T>, ghost had: set<nat>)
      returns (f: nat, dest: nat, moved: nat, constructed: nat, ghost built: set<nat>)
      requires Valid() && Linearizing(t, start, to, start, done, made, had) && to < start < buff.Length
      modifies buff
      ensures Linearizing(t, f, dest, f, moved, constructed, built)
      ensures to <= dest && (dest < f ==> to < dest && f < buff.Length)
    {
      hide Ring;
      f, dest, moved, constructed, built := start, to, done, made, had;
      var src, ii := start, 0;
      while src < buff.Length
        invariant f == start && src == start + ii <= buff.Length && ii == dest - to
        invariant Linearizing(t, src, dest, f, moved, constructed, built)
      {
        if moved == size {
          PlacedDone(buff[..], t, src, dest, f);
          f := dest;
          return;
        }
        if dest == f {
          PlacedAgain(buff[..], t, src, dest, f);
          f := f + ii;
          return;
        }
        constructed, built := MoveOne(src, dest, f, constructed, t, built);
        src, dest, moved, ii := src + 1, dest + 1, moved + 1, ii + 1;
      }
      PlacedAgain(buff[..], t, src, dest, f);
    }

    /** The loops of `linearize` on a wrapped buffer. */
    method MoveIntoPlace() returns (constructed: nat, ghost built: set<nat>)
      requires Valid() && last <= first < buff.Length < first + size
      modifies buff
      ensures buff[..size] == old(Contents())
      ensures constructed == Least(size, first) - last && built == Cells(last, last + constructed)
    {
      hide Ring;
      ghost var t := Contents();
      PlacedFirst(buff[..], first, size);
      var src: nat, dest: nat, moved: nat := first, 0, 0;
      constructed, built := 0, {};
      while dest < src
        invariant Linearizing(t, src, dest, src, moved, constructed, built)
        invariant dest < src ==> src < buff.Length
        decreases buff.Length - dest, if dest < src then 1 else 0
      {
        src, dest, moved, constructed, built := Pass(src, dest, moved, constructed, t, built);
      }
      PlacedAll(buff[..], t, src, dest, src);
    }

    method DestroyFrom(start: nat) returns (ghost destroyed: set<nat>)
      requires start <= buff.Length
      ensures destroyed == Cells(start, buff.Length)
    {
      destroyed := {};
      var src := start;
      while src < buff.Length
        invariant start <= src <= buff.Length && destroyed == Cells(start, src)
      {
        destroyed := destroyed + {src};
        src := src + 1;
      }
    }

    /**
      After `linearize` the contents are in one piece, from cell 0 on if they
      were wrapped.  Elements are constructed in free cells only, none is
      destroyed where there is none, and in the end exactly the cells of the
      result hold one.
     */
    method Linearize() returns (r: Iter, ghost built: set<nat>, ghost destroyed: set<nat>)
      requires Valid()
      modifies this, buff
      ensures Valid() && buff == old(buff) && Contents() == old(Contents())
      ensures size == 0 ==> r == End
      ensures size > 0 ==> r == At(first) && first + size <= buff.Length && buff[first..first + size] == Contents()
      ensures old(first + size) > buff.Length ==> first == 0
      ensures built !! old(InUse()) && destroyed <= old(InUse()) + built
      ensures InUse() == old(InUse()) + built - destroyed
    {
      built, destroyed := {}, {};
      if size == 0 { return End, built, destroyed; }
      if first < last || last == 0 { return At(first), built, destroyed; }
      var constructed;
      constructed, built := MoveIntoPlace();
      CellsLeft(buff.Length, first, size, constructed);
      destroyed := DestroyFrom(buff.Length - constructed);
      first := 0;
      last := Add(buff.Length, 0, size);
      r := At(0);
    }
  }
}
