/**
  A ring of cells and the sequences it holds: pointer arithmetic that wraps at
  the end of the array, and what each operation of a bounded buffer means.
 */
module RingSpec {

  // ----- pointers -----

  predicate IsCell(cap: nat, p: nat) {
    p < cap || (cap == 0 && p == 0)
  }

  /** `add`: `n` cells further on, wrapping at the end of the array. */
  function Add(cap: nat, p: nat, n: nat): (q: nat)
    requires IsCell(cap, p) && n <= cap
    ensures IsCell(cap, q) && (q == p + n || q == p + n - cap)
  {
    if n < cap - p then p + n else p + n - cap
  }

  lemma AddAdd(cap: nat, p: nat, n: nat, k: nat)
    requires p < cap && n <= cap && k <= cap
    ensures Add(cap, Add(cap, p, n), k) == if n + k <= cap then Add(cap, p, n + k) else Add(cap, p, n + k - cap)
  {
  }

  /** `sub`: `n` cells back. */
  function Sub(cap: nat, p: nat, n: nat): (q: nat)
    requires IsCell(cap, p) && n <= cap
    ensures IsCell(cap, q) && Add(cap, q, n) == p
  {
    if n > p then p + cap - n else p - n
  }

  /** `linearize_pointer`: how many cells `p` is ahead of `first`. */
  function Ahead(cap: nat, first: nat, p: nat): (n: nat)
    requires IsCell(cap, first) && IsCell(cap, p)
    ensures n <= cap && Add(cap, first, n) == p && (0 < cap ==> n < cap)
  {
    if p < first then p + (cap - first) else p - first
  }

  // ----- views -----

  /** The `n` values from cell `first` on. */
  ghost function Ring<T>(a: seq<T>, first: nat, n: nat): (r: seq<T>)
    requires IsCell(|a|, first) && n <= |a|
    ensures |r| == n
  {
    seq(n, i requires 0 <= i < n => a[Add(|a|, first, i)])
  }

  /** Writing a cell changes one element of the view. */
  lemma RingSet<T>(a: seq<T>, base: nat, x: nat, v: T)
    requires base < |a| && x < |a|
    ensures Ring(a[Add(|a|, base, x) := v], base, |a|) == Ring(a, base, |a|)[x := v]
  {
  }

  lemma CellIs<T>(a: seq<T>, base: nat, x: nat)
    requires base < |a| && x < |a|
    ensures a[Add(|a|, base, x)] == Ring(a, base, |a|)[x]
  {
  }

  /** The contents seen from another cell of the ring. */
  lemma Rebase<T>(a: seq<T>, first: nat, n: nat, i: nat, x: nat)
    requires first < |a| && x < n <= |a| && i <= |a|
    ensures var y := if x < i then |a| - i + x else x - i;
            y < |a| && Ring(a, first, n)[x] == Ring(a, Add(|a|, first, i), |a|)[y]
  {
  }

  /** The first `k` items have been written to the cells from `base` on. */
  ghost function Written<T>(a: seq<T>, base: nat, items: seq<T>, k: nat): (r: seq<T>)
    requires base < |a| && k <= |items| <= |a|
    ensures |r| == |a|
  {
    if k == 0 then a else Written(a, base, items, k - 1)[Add(|a|, base, k - 1) := items[k - 1]]
  }

  lemma {:induction false} WrittenInOrder<T>(a: seq<T>, base: nat, items: seq<T>, k: nat)
    requires base < |a| && k <= |items| <= |a|
    ensures Ring(Written(a, base, items, k), base, |a|) == items[..k] + Ring(a, base, |a|)[k..]
  {
    hide Ring;
    if k > 0 {
      WrittenInOrder(a, base, items, k - 1);
      RingSet(Written(a, base, items, k - 1), base, k - 1, items[k - 1]);
      OneMore(Ring(a, base, |a|), items, k - 1);
    }
  }

  lemma OneMore<T>(v: seq<T>, items: seq<T>, k: nat)
    requires k < |items| <= |v|
    ensures (items[..k] + v[k..])[k := items[k]] == items[..k + 1] + v[k + 1..]
  {
  }

  /** Of the `k` cells from `base` on, those from number `j` on have been moved up by `n`, the last one first. */
  ghost function Up<T>(a: seq<T>, base: nat, n: nat, k: nat, j: nat): (r: seq<T>)
    requires base < |a| && 0 < n && j <= k && k + n <= |a|
    ensures |r| == |a|
    decreases k - j
  {
    if j == k then a
    else
      var b := Up(a, base, n, k, j + 1);
      b[Add(|a|, base, n + j) := b[Add(|a|, base, j)]]
  }

  /** No cell is overwritten before it has been moved. */
  lemma {:induction false} UpMoves<T>(a: seq<T>, base: nat, n: nat, k: nat, j: nat)
    requires base < |a| && 0 < n && j <= k && k + n <= |a|
    ensures var v := Ring(a, base, |a|);
            Ring(Up(a, base, n, k, j), base, |a|) == v[..n + j] + v[j..k] + v[n + k..]
    decreases k - j
  {
    hide Ring;
    var v := Ring(a, base, |a|);
    if j == k {
      assert v == v[..n + j] + v[j..k] + v[n + k..];
    } else {
      UpMoves(a, base, n, k, j + 1);
      var b := Up(a, base, n, k, j + 1);
      CellIs(b, base, j);
      RingSet(b, base, n + j, b[Add(|a|, base, j)]);
      UpMovesOne(v, Ring(b, base, |a|), n, k, j);
    }
  }

  lemma UpMovesOne<T>(v: seq<T>, w: seq<T>, n: nat, k: nat, j: nat)
    requires 0 < n && j < k && k + n <= |v|
    requires w == v[..n + j + 1] + v[j + 1..k] + v[n + k..]
    ensures w[j] == v[j] && w[n + j := w[j]] == v[..n + j] + v[j..k] + v[n + k..]
  {
  }

  /** `j` cells from number `n` on have been moved down by `n`, the first one first. */
  ghost function Down<T>(a: seq<T>, base: nat, n: nat, j: nat): (r: seq<T>)
    requires base < |a| && n + j <= |a|
    ensures |r| == |a|
  {
    if j == 0 then a
    else
      var b := Down(a, base, n, j - 1);
      b[Add(|a|, base, j - 1) := b[Add(|a|, base, n + j - 1)]]
  }

  lemma {:induction false} DownMoves<T>(a: seq<T>, base: nat, n: nat, j: nat)
    requires base < |a| && n + j <= |a|
    ensures var v := Ring(a, base, |a|); Ring(Down(a, base, n, j), base, |a|) == v[n..n + j] + v[j..]
  {
    hide Ring;
    var v := Ring(a, base, |a|);
    if j == 0 {
      assert v == v[n..n + j] + v[j..];
    } else {
      DownMoves(a, base, n, j - 1);
      var b := Down(a, base, n, j - 1);
      CellIs(b, base, n + j - 1);
      RingSet(b, base, j - 1, b[Add(|a|, base, n + j - 1)]);
      DownMovesOne(v, Ring(b, base, |a|), n, j - 1);
    }
  }

  lemma DownMovesOne<T>(v: seq<T>, w: seq<T>, n: nat, j: nat)
    requires n + j < |v| && w == v[n..n + j] + v[j..]
    ensures w[n + j] == v[n + j] && w[j := w[n + j]] == v[n..n + j + 1] + v[j + 1..]
  {
  }

  // ----- meanings -----

  function Least(x: nat, y: nat): nat {
    if x <= y then x else y
  }

  function FirstN<T>(s: seq<T>, n: nat): (r: seq<T>)
    ensures |r| == Least(|s|, n)
  {
    if |s| <= n then s else s[..n]
  }

  function LastN<T>(s: seq<T>, n: nat): (r: seq<T>)
    ensures |r| == Least(|s|, n)
  {
    if |s| <= n then s else s[|s| - n..]
  }

  function Spliced<T>(c: seq<T>, i: nat, items: seq<T>): seq<T>
    requires i <= |c|
  {
    c[..i] + items + c[i..]
  }

  /** Forward insertion into a bounded buffer: the front gives way. */
  function Inserted<T>(c: seq<T>, cap: nat, i: nat, items: seq<T>): (r: seq<T>)
    requires i <= |c| <= cap
    ensures |r| == Least(|c| + |items|, cap)
  {
    LastN(Spliced(c, i, items), cap)
  }

  /** Reverse insertion into a bounded buffer: the back gives way. */
  function Rinserted<T>(c: seq<T>, cap: nat, i: nat, items: seq<T>): (r: seq<T>)
    requires i <= |c| <= cap
    ensures |r| == Least(|c| + |items|, cap)
  {
    FirstN(Spliced(c, i, items), cap)
  }

  function Erased<T>(c: seq<T>, i: nat, j: nat): (r: seq<T>)
    requires i <= j <= |c|
    ensures |r| == |c| - (j - i)
  {
    c[..i] + c[j..]
  }

  function Rotated<T>(c: seq<T>, k: nat): seq<T>
    requires k <= |c|
  {
    c[k..] + c[..k]
  }

  function Resized<T>(c: seq<T>, n: nat, x: T): (r: seq<T>)
    ensures |r| == n
  {
    if n > |c| then c + Copies(n - |c|, x) else c[..n]
  }

  function Rresized<T>(c: seq<T>, n: nat, x: T): (r: seq<T>)
    ensures |r| == n
  {
    if n > |c| then Copies(n - |c|, x) + c else c[|c| - n..]
  }

  function Reversed<T>(q: seq<T>): (r: seq<T>)
    ensures |r| == |q| && forall i | 0 <= i < |q| :: r[i] == q[|q| - 1 - i]
  {
    seq(|q|, i requires 0 <= i < |q| => q[|q| - 1 - i])
  }

  function Copies<T>(n: nat, x: T): (r: seq<T>)
    ensures |r| == n && forall i | 0 <= i < n :: r[i] == x
  {
    seq(n, _ => x)
  }

  // ----- insertion in place -----

  /** The elements from number `i` on, and the ring as it is seen from there. */
  lemma FromPosition<T>(a: seq<T>, first: nat, m: nat, i: nat)
    requires first < |a| && i <= m <= |a|
    ensures var c, v := Ring(a, first, m), Ring(a, Add(|a|, first, i), |a|);
            c[i..] == v[..m - i] && c[..i] == v[|a| - i..]
  {
    var c, v := Ring(a, first, m), Ring(a, Add(|a|, first, i), |a|);
    forall x | 0 <= x < m ensures c[x] == v[if x < i then |a| - i + x else x - i] { Rebase(a, first, m, i, x); }
  }

  /** Making room behind the insertion point and filling it: the elements that get overwritten are the first ones. */
  lemma InsertedInPlace<T>(a: seq<T>, b: seq<T>, first: nat, m: nat, i: nat, items: seq<T>)
    requires first < |a| == |b| && i <= m <= |a|
    requires 0 < |items| <= |a| - (m - i)
    requires var v := Ring(a, Add(|a|, first, i), |a|);
             Ring(b, Add(|a|, first, i), |a|) == items + v[..m - i] + v[|items| + (m - i)..]
    ensures var grow := Least(|a| - m, |items|);
            Ring(b, Add(|a|, first, |items| - grow), m + grow) == Inserted(Ring(a, first, m), |a|, i, items)
  {
    var grow := Least(|a| - m, |items|);
    InsertedFrom(a, b, first, Add(|a|, first, |items| - grow), m, i, items, |items| - grow);
  }

  lemma InsertedFrom<T>(a: seq<T>, b: seq<T>, first: nat, first': nat, m: nat, i: nat, items: seq<T>, lost: nat)
    requires first < |a| == |b| && first' < |a| && lost <= i <= m <= |a| && lost <= |items|
    requires 0 < |items| <= |a| - (m - i) && lost == |items| - Least(|a| - m, |items|)
    requires Add(|a|, first, i) == Add(|a|, first', i - lost)
    requires var v := Ring(a, Add(|a|, first, i), |a|);
             Ring(b, Add(|a|, first, i), |a|) == items + v[..m - i] + v[|items| + (m - i)..]
    ensures Ring(b, first', m + |items| - lost) == Inserted(Ring(a, first, m), |a|, i, items)
  {
    hide Ring, Inserted;
    var v, c, d := Ring(a, Add(|a|, first, i), |a|), Ring(a, first, m), Ring(b, first', m + |items| - lost);
    FromPosition(a, first, m, i);
    FromPosition(b, first', m + |items| - lost, i - lost);
    AroundInsertion(v, m, i, items, lost, d);
    SplicedTail(c, |a|, i, items, lost);
  }

  lemma AroundInsertion<T>(v: seq<T>, m: nat, i: nat, items: seq<T>, lost: nat, d: seq<T>)
    requires lost <= i <= m <= |v| && 0 < |items| <= |v| - (m - i) && |items| - lost <= |v| - m && lost <= |items|
    requires |d| == m + |items| - lost
    requires var w := items + v[..m - i] + v[|items| + (m - i)..];
             d[i - lost..] == w[..|d| - (i - lost)] && d[..i - lost] == w[|v| - (i - lost)..]
    ensures d == v[|v| - i..][lost..] + items + v[..m - i]
  {
    assert d == d[..i - lost] + d[i - lost..];
  }

  lemma SplicedTail<T>(c: seq<T>, cap: nat, i: nat, items: seq<T>, lost: nat)
    requires lost <= i <= |c| <= cap && lost == |items| - Least(cap - |c|, |items|)
    ensures Inserted(c, cap, i, items) == c[..i][lost..] + items + c[i..]
  {
  }

  /** `m_first` and `m_last` after an insertion. */
  lemma InsertMoves(cap: nat, first: nat, m: nat, n: nat, construct: nat)
    requires first < cap && m <= cap && n <= cap && construct == Least(cap - m, n)
    ensures Add(cap, Add(cap, first, m), n) == Add(cap, Add(cap, first, n - construct), m + construct)
  {
    AddAdd(cap, first, m, n);
    AddAdd(cap, first, n - construct, m + construct);
  }

  lemma Shifted<T>(a: seq<T>, base: nat, i: nat)
    requires base < |a| && i <= |a|
    ensures var v := Ring(a, base, |a|); Ring(a, Add(|a|, base, i), |a|) == v[i..] + v[..i]
  {
    var v, w := Ring(a, base, |a|), Ring(a, Add(|a|, base, i), |a|);
    forall x | 0 <= x < |a| ensures w[x] == (v[i..] + v[..i])[x] { AddAdd(|a|, base, i, x); }
  }

  /** Writing items from number `i` on, seen from `base`. */
  lemma FilledAt<T>(a: seq<T>, b: seq<T>, base: nat, i: nat, items: seq<T>)
    requires base < |a| == |b| && i + |items| <= |a|
    requires Ring(b, Add(|a|, base, i), |b|) == items + Ring(a, Add(|a|, base, i), |a|)[|items|..]
    ensures var v := Ring(a, base, |a|); Ring(b, base, |b|) == v[..i] + items + v[i + |items|..]
  {
    Shifted(a, base, i);
    Shifted(b, base, i);
    Unshifted(Ring(a, base, |a|), Ring(b, base, |b|), i, items);
  }

  lemma Unshifted<T>(v: seq<T>, w: seq<T>, i: nat, items: seq<T>)
    requires |v| == |w| && i + |items| <= |v|
    requires w[i..] + w[..i] == items + (v[i..] + v[..i])[|items|..]
    ensures w == v[..i] + items + v[i + |items|..]
  {
    var u := w[i..] + w[..i];
    assert w[i..] == u[..|v| - i] && w[..i] == u[|v| - i..];
    assert w == w[..i] + w[i..];
  }

  /** Making room before the insertion point and filling it: the elements that get overwritten are the last ones. */
  lemma RinsertedInPlace<T>(a: seq<T>, b: seq<T>, first: nat, base: nat, m: nat, i: nat, items: seq<T>)
    requires first < |a| == |b| && i <= m <= |a|
    requires 0 < |items| <= |a| - i && base == Sub(|a|, first, |items|)
    requires var v := Ring(a, base, |a|);
             Ring(b, base, |b|) == v[|items|..|items| + i] + items + v[|items| + i..]
    ensures Ring(b, base, m + Least(|a| - m, |items|)) == Rinserted(Ring(a, first, m), |a|, i, items)
  {
    var n, size := |items|, m + Least(|a| - m, |items|);
    var v, c := Ring(a, base, |a|), Ring(a, first, m);
    forall x | 0 <= x < m && n + x < |a| ensures c[x] == v[n + x] { AddAdd(|a|, base, n, x); }
    assert Ring(b, base, size) == Ring(b, base, |b|)[..size];
    SplicedHead(c, v, size, i, items);
  }

  lemma SplicedHead<T>(c: seq<T>, v: seq<T>, size: nat, i: nat, items: seq<T>)
    requires i <= |c| <= |v| && 0 < |items| <= |v| - i && size == |c| + Least(|v| - |c|, |items|)
    requires forall x | 0 <= x < |c| && |items| + x < |v| :: c[x] == v[|items| + x]
    ensures (v[|items|..|items| + i] + items + v[|items| + i..])[..size] == Rinserted(c, |v|, i, items)
  {
    assert c[..i] == v[|items|..|items| + i];
  }

  /** `m_first` and `m_last` after a reverse insertion. */
  lemma RinsertMoves(cap: nat, first: nat, m: nat, n: nat, construct: nat)
    requires first < cap && m <= cap && n <= cap && construct == Least(cap - m, n)
    ensures Sub(cap, Add(cap, first, m), n - construct) == Add(cap, Sub(cap, first, n), m + construct)
  {
  }

  /** The cell of an inserted item, numbered from where `m_first` is then. */
  lemma CellOf(cap: nat, first: nat, m: nat, i: nat)
    requires first < cap && i <= m <= cap && (i == 0 ==> m < cap)
    ensures var lost := if m == cap then 1 else 0;
            Ahead(cap, Add(cap, first, lost), Add(cap, first, i)) == i - lost
  {
  }

  lemma CellBefore(cap: nat, first: nat, i: nat)
    requires first < cap && i < cap
    ensures Ahead(cap, Sub(cap, first, 1), Sub(cap, Add(cap, first, i), 1)) == i
  {
  }

  /** An item inserted where there is room for it is found at its place. */
  lemma ItemPlace<T>(c: seq<T>, cap: nat, i: nat, item: T)
    requires i <= |c| <= cap
    ensures (0 < i || |c| < cap) ==> Inserted(c, cap, i, [item])[if |c| == cap then i - 1 else i] == item
    ensures (i < |c| || |c| < cap) ==> Rinserted(c, cap, i, [item])[i] == item
  {
  }

  lemma AtTheFront<T>(v: seq<T>, items: seq<T>)
    requires |items| <= |v|
    ensures v[..0] + items + v[|items|..] == v[|items|..|items| + 0] + items + v[|items| + 0..]
  {
  }

  lemma BehindTheMoved<T>(v: seq<T>, i: nat, items: seq<T>)
    requires |items| + i <= |v|
    ensures var n := |items|;
            var w := v[n..n + i] + v[i..];
            w[..i] + items + w[i + n..] == v[n..n + i] + items + v[n + i..]
  {
    var n := |items|;
    var w := v[n..n + i] + v[i..];
    assert w[..i] == v[n..n + i] && w[i + n..] == v[n + i..];
  }

  // ----- items for which there is no room -----

  lemma NoRoom<T>(c: seq<T>, item: T)
    requires |c| == 0
    ensures Inserted(c, 0, 0, [item]) == c && Rinserted(c, 0, 0, [item]) == c
  {
  }

  lemma InsertedClipped<T>(c: seq<T>, cap: nat, i: nat, items: seq<T>)
    requires i <= |c| <= cap
    ensures Inserted(c, cap, i, LastN(items, cap - (|c| - i))) == Inserted(c, cap, i, items)
  {
    var room := cap - (|c| - i);
    if |items| > room {
      var d := |items| - room;
      assert Spliced(c, i, items)[i + d..] == items[d..] + c[i..];
      assert Spliced(c, i, items[d..])[i..] == items[d..] + c[i..];
    }
  }

  lemma RinsertedClipped<T>(c: seq<T>, cap: nat, i: nat, items: seq<T>)
    requires i <= |c| <= cap
    ensures Rinserted(c, cap, i, FirstN(items, cap - i)) == Rinserted(c, cap, i, items)
  {
    var room := cap - i;
    if |items| > room {
      assert Spliced(c, i, items)[..cap] == c[..i] + items[..room];
      assert Spliced(c, i, items[..room])[..cap] == c[..i] + items[..room];
    }
  }

  lemma InsertedNothing<T>(c: seq<T>, cap: nat, i: nat)
    requires i <= |c| <= cap
    ensures Inserted(c, cap, i, []) == c && Rinserted(c, cap, i, []) == c
  {
    assert Spliced(c, i, []) == c;
  }

  // ----- erasure in place -----

  /** What follows number `j` has been moved down to number `i`. */
  lemma ErasedInPlace<T>(a: seq<T>, first: nat, m: nat, i: nat, j: nat)
    requires first < |a| && i <= j <= m <= |a|
    ensures Ring(Down(a, Add(|a|, first, i), j - i, m - j), first, m - (j - i)) == Erased(Ring(a, first, m), i, j)
  {
    hide Ring, Down, Erased;
    var p, n, k := Add(|a|, first, i), j - i, m - j;
    var b := Down(a, p, n, k);
    DownMoves(a, p, n, k);
    FromPosition(a, first, m, i);
    FromPosition(b, first, m - n, i);
    AroundErasure(Ring(a, p, |a|), m, i, j, Ring(a, first, m), Ring(b, first, m - n));
  }

  lemma AroundErasure<T>(v: seq<T>, m: nat, i: nat, j: nat, c: seq<T>, d: seq<T>)
    requires i <= j <= m <= |v| && |c| == m && |d| == m - (j - i)
    requires c[i..] == v[..m - i] && c[..i] == v[|v| - i..]
    requires var w := v[j - i..m - i] + v[m - j..]; d[i..] == w[..|d| - i] && d[..i] == w[|v| - i..]
    ensures d == Erased(c, i, j)
  {
    assert d == d[..i] + d[i..];
    assert c[j..] == c[i..][j - i..];
  }

  /** What precedes number `i` has been moved up to number `j`. */
  lemma RerasedInPlace<T>(a: seq<T>, first: nat, m: nat, i: nat, j: nat)
    requires first < |a| && i < j <= m <= |a|
    ensures Ring(Up(a, first, j - i, i, 0), Add(|a|, first, j - i), m - (j - i)) == Erased(Ring(a, first, m), i, j)
  {
    var b, n := Up(a, first, j - i, i, 0), j - i;
    UpMoves(a, first, n, i, 0);
    Shifted(b, first, n);
    var v, w := Ring(a, first, |a|), Ring(b, first, |a|);
    assert Ring(a, first, m) == v[..m];
    assert Ring(b, Add(|a|, first, n), m - n) == (w[n..] + w[..n])[..m - n];
    AroundReverseErasure(v, w, m, i, n);
  }

  lemma AroundReverseErasure<T>(v: seq<T>, w: seq<T>, m: nat, i: nat, n: nat)
    requires i + n <= m <= |v| && w == v[..n] + v[..i] + v[n + i..]
    ensures (w[n..] + w[..n])[..m - n] == Erased(v[..m], i, i + n)
  {
    assert w[n..] == v[..i] + v[n + i..];
  }

  lemma ErasedNothing<T>(c: seq<T>, i: nat)
    requires i <= |c|
    ensures Erased(c, i, i) == c
  {
  }

  /** The cell in front of the erased range's end, seen from the new first cell. */
  lemma InFront(cap: nat, first: nat, i: nat, n: nat, top: nat, p: nat)
    requires first < cap && 0 < n && i + n <= cap
    requires top == Add(cap, first, n + i) && p == (if top == 0 then cap else top) - 1
    ensures Add(cap, first, n) == top <==> i == 0
    ensures 0 < i ==> Ahead(cap, Add(cap, first, n), p) == i - 1
  {
  }

  // ----- resizing -----

  lemma ResizedByInserting<T>(c: seq<T>, cap: nat, n: nat, x: T)
    requires |c| < n <= cap
    ensures Inserted(c, cap, |c|, Copies(n - |c|, x)) == Resized(c, n, x)
    ensures Rinserted(c, cap, 0, Copies(n - |c|, x)) == Rresized(c, n, x)
  {
    assert Spliced(c, |c|, Copies(n - |c|, x)) == Resized(c, n, x);
    assert Spliced(c, 0, Copies(n - |c|, x)) == Rresized(c, n, x);
  }

  lemma ResizedByErasing<T>(c: seq<T>, n: nat, x: T)
    requires n <= |c|
    ensures Erased(c, n, |c|) == Resized(c, n, x)
    ensures Erased(c, 0, |c| - n) == Rresized(c, n, x)
  {
  }

  // ----- rotating -----

  lemma FullRotated<T>(a: seq<T>, first: nat, i: nat)
    requires first < |a| && i < |a|
    ensures Ring(a, Add(|a|, first, i), |a|) == Rotated(Ring(a, first, |a|), i)
  {
    Shifted(a, first, i);
  }

  /** `push_back(front()); pop_front();` */
  function FrontToBack<T>(c: seq<T>, cap: nat): seq<T>
    requires 0 < |c| < cap
  {
    Erased(Inserted(c, cap, |c|, [c[0]]), 0, 1)
  }

  /** `push_front(back()); pop_back();` */
  function BackToFront<T>(c: seq<T>, cap: nat): seq<T>
    requires 0 < |c| < cap
  {
    Erased(Rinserted(c, cap, 0, [c[|c| - 1]]), |c|, |c| + 1)
  }

  function Forward<T>(c: seq<T>, cap: nat, n: nat): (r: seq<T>)
    requires 0 < |c| < cap
    ensures |r| == |c|
  {
    if n == 0 then c else FrontToBack(Forward(c, cap, n - 1), cap)
  }

  function Backward<T>(c: seq<T>, cap: nat, n: nat): (r: seq<T>)
    requires 0 < |c| < cap
    ensures |r| == |c|
  {
    if n == 0 then c else BackToFront(Backward(c, cap, n - 1), cap)
  }

  lemma FrontToBackRotates<T>(c: seq<T>, cap: nat)
    requires 0 < |c| < cap
    ensures FrontToBack(c, cap) == c[1..] + [c[0]]
  {
    assert Spliced(c, |c|, [c[0]]) == c + [c[0]];
  }

  lemma BackToFrontRotates<T>(c: seq<T>, cap: nat)
    requires 0 < |c| < cap
    ensures BackToFront(c, cap) == [c[|c| - 1]] + c[..|c| - 1]
  {
    assert Spliced(c, 0, [c[|c| - 1]]) == [c[|c| - 1]] + c;
  }

  lemma {:induction false} ForwardRotates<T>(c: seq<T>, cap: nat, n: nat)
    requires 0 < |c| < cap && n <= |c|
    ensures Forward(c, cap, n) == Rotated(c, n)
  {
    hide FrontToBack;
    if n == 0 {
      assert Rotated(c, 0) == c;
    } else {
      ForwardRotates(c, cap, n - 1);
      FrontToBackRotates(Rotated(c, n - 1), cap);
    }
  }

  lemma {:induction false} BackwardRotates<T>(c: seq<T>, cap: nat, n: nat)
    requires 0 < |c| < cap && n <= |c|
    ensures Backward(c, cap, n) == Rotated(c, |c| - n)
  {
    hide BackToFront;
    if n == 0 {
      assert Rotated(c, |c|) == c;
    } else {
      BackwardRotates(c, cap, n - 1);
      BackToFrontRotates(Rotated(c, |c| - (n - 1)), cap);
    }
  }

  // ----- cells in use -----

  predicate Between(from: nat, p: nat, to: nat) {
    from <= p < to
  }

  function Cells(from: nat, to: nat): set<nat> {
    set p: nat | p < to && Between(from, p, to)
  }

  function Used(cap: nat, first: nat, size: nat): set<nat>
    requires IsCell(cap, first)
  {
    set p: nat | p < cap && Ahead(cap, first, p) < size
  }

  /**
    A wrapped layout: the elements that `linearize` constructs, from `m_last`
    on, and those it destroys, up to `m_end`, turn it into cells 0 to `size`.
   */
  lemma CellsLeft(cap: nat, first: nat, size: nat, constructed: nat)
    requires size <= cap < first + size && first < cap
    requires constructed == Least(size, first) - (first + size - cap)
    ensures var before, built := Used(cap, first, size), Cells(first + size - cap, first + size - cap + constructed);
            var destroyed := Cells(cap - constructed, cap);
            && built !! before && destroyed <= before + built
            && Used(cap, 0, size) == before + built - destroyed
  {
  }
}
