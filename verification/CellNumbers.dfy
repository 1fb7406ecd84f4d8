/** Numbers and the cells of a ring that they fall into. */
module CellNumbers {

  /** The items 0, 1, ..., n - 1. */
  function Numbers(n: nat): (r: seq<int>)
    ensures |r| == n && forall k | 0 <= k < n :: r[k] == k
  {
    seq(n, k => k)
  }

  /** Numbers less than `capacity` apart fall into different cells. */
  lemma CellsDiffer(a: nat, b: nat, capacity: nat)
    requires a < b < a + capacity
    ensures a % capacity != b % capacity
  {
    var q := b / capacity - a / capacity;
    assert b - a == q * capacity + (b % capacity - a % capacity);
    if q >= 1 {
      assert q * capacity >= capacity;
    }
  }

  lemma MulGrows(d: int, size: nat)
    requires 0 < size
    ensures d >= 1 ==> d * size >= size
    ensures d <= -1 ==> d * size + size <= 0
  {
    if d >= 1 {
      assert (d - 1) * size >= 0;
    } else if d <= -1 {
      assert (-d - 1) * size >= 0;
    }
  }

  lemma CellOf(q: nat, r: nat, size: nat)
    requires r < size
    ensures (q * size + r) % size == r
  {
    var k := q * size + r;
    assert k == (k / size) * size + k % size;
    var d := k / size - q;
    assert d * size == r - k % size;
    MulGrows(d, size);
  }

  lemma NextCell(k: nat, size: nat)
    requires 0 < size
    ensures (k % size + 1) % size == (k + 1) % size
  {
    var q, r := k / size, k % size;
    assert k == q * size + r;
    if r + 1 < size {
      CellOf(q, r + 1, size);
      CellOf(0, r + 1, size);
    } else {
      assert k + 1 == (q + 1) * size + 0;
      CellOf(q + 1, 0, size);
      CellOf(1, 0, size);
    }
  }

  /** The number of values of `bits` bits. */
  function Power(bits: nat): (r: nat)
    ensures r > 0
  {
    if bits == 0 then 1 else 2 * Power(bits - 1)
  }
}
