/**
  The lock-free bounded queue, used by one producer of the items 0, 1, ...,
  n - 1 and one consumer.  Every read and every write of `head`, `tail` and a
  cell is a step of its own; `tail++` is a read and a write.
 */
module LockFreeQueue {
  import opened CellNumbers

  datatype Side = Producer | Consumer

  /** `own` is the thread's own index, which only it writes. */
  datatype PC =
    | ReadTail             // for the test
    | ReadHead(tail: int)
    | Index                // about to read the own index, for the cell
    | Access(own: int)     // about to write or read the cell
    | Bump                 // about to read the own index, for the increment
    | Store(own: int)      // about to write it back

  datatype State = State(
    n: nat, capacity: nat,
    head: int, tail: int, items: seq<int>,
    p: PC, sent: nat,
    c: PC, x: int, got: seq<int>)

  function Init(n: nat, capacity: nat, items: seq<int>): State {
    State(n, capacity, 0, 0, items, ReadTail, 0, ReadTail, 0, [])
  }

  /** The cells that steps may touch exist; `%` truncates in the source, which agrees where indices are not negative. */
  predicate IndexOk(s: State, pc: PC) {
    0 < s.capacity == |s.items| && (pc.Access? ==> 0 <= pc.own)
  }

  predicate Enabled(s: State, who: Side) {
    if who.Producer? then s.sent < s.n && IndexOk(s, s.p) else |s.got| < s.n && IndexOk(s, s.c)
  }

  function ProducerStep(s: State): State
    requires Enabled(s, Producer)
  {
    match s.p
    case ReadTail => s.(p := ReadHead(s.tail))
    case ReadHead(tail) => s.(p := if tail - s.head == s.capacity then ReadTail else Index)
    case Index => s.(p := Access(s.tail))
    case Access(own) => s.(p := Bump, items := s.items[own % s.capacity := s.sent])
    case Bump => s.(p := Store(s.tail))
    case Store(own) => s.(p := ReadTail, tail := own + 1, sent := s.sent + 1)
  }

  function ConsumerStep(s: State): State
    requires Enabled(s, Consumer)
  {
    match s.c
    case ReadTail => s.(c := ReadHead(s.tail))
    case ReadHead(tail) => s.(c := if tail == s.head then ReadTail else Index)
    case Index => s.(c := Access(s.head))
    case Access(own) => s.(c := Bump, x := s.items[own % s.capacity])
    case Bump => s.(c := Store(s.head))
    case Store(own) => s.(c := ReadTail, head := own + 1, got := s.got + [s.x])
  }

  function Apply(s: State, who: Side): State
    requires Enabled(s, who)
  {
    if who.Producer? then ProducerStep(s) else ConsumerStep(s)
  }

  // ----- what every step keeps -----

  /** The test has succeeded and the index has not been advanced yet. */
  predicate Passed(pc: PC) {
    pc.Index? || pc.Access? || pc.Bump? || pc.Store?
  }

  predicate IndicesOk(s: State) {
    && 0 < s.capacity == |s.items|
    && 0 <= s.head <= s.tail <= s.head + s.capacity
    && s.tail == s.sent <= s.n && s.head == |s.got|
  }

  predicate ProducerOk(s: State) {
    && (s.p.ReadHead? ==> s.p.tail == s.tail)
    && (s.p.Access? || s.p.Store? ==> s.p.own == s.tail)
    && (Passed(s.p) ==> s.tail - s.head < s.capacity)
  }

  predicate ConsumerOk(s: State) {
    && (s.c.ReadHead? ==> s.head <= s.c.tail <= s.tail)
    && (s.c.Access? || s.c.Store? ==> s.c.own == s.head)
    && (Passed(s.c) ==> s.head < s.tail)
  }

  ghost predicate ItemsOk(s: State)
    requires IndicesOk(s)
  {
    && (forall k | s.head <= k < s.tail :: s.items[k % s.capacity] == k)
    && ((s.p.Bump? || s.p.Store?) ==> s.items[s.tail % s.capacity] == s.tail)
    && ((s.c.Bump? || s.c.Store?) ==> s.x == s.head)
    && (forall k | 0 <= k < |s.got| :: s.got[k] == k)
  }

  ghost predicate Inv(s: State) {
    IndicesOk(s) && ProducerOk(s) && ConsumerOk(s) && ItemsOk(s)
  }

  lemma InitOk(n: nat, capacity: nat, items: seq<int>)
    requires 0 < capacity == |items|
    ensures Inv(Init(n, capacity, items))
  {
  }

  /** The producer is about to write a cell that holds no item still to be read. */
  lemma NoOverwrite(s: State, k: nat)
    requires Inv(s) && s.p.Access? && s.head <= k < s.tail
    ensures s.p.own % s.capacity != k % s.capacity
  {
    CellsDiffer(k, s.tail, s.capacity);
  }

  lemma ProducerKeeps(s: State)
    requires Inv(s) && Enabled(s, Producer)
    ensures Inv(ProducerStep(s))
  {
    if s.p.Access? {
      forall k | s.head <= k < s.tail ensures s.p.own % s.capacity != k % s.capacity { NoOverwrite(s, k); }
    }
  }

  lemma ConsumerKeeps(s: State)
    requires Inv(s) && Enabled(s, Consumer)
    ensures Inv(ConsumerStep(s))
  {
  }

  lemma StepKeeps(s: State, who: Side)
    requires Inv(s) && Enabled(s, who)
    ensures Inv(Apply(s, who))
  {
    if who.Producer? { ProducerKeeps(s); } else { ConsumerKeeps(s); }
  }

  // ----- runs -----

  predicate Legal(s: State, run: seq<Side>)
    decreases |run|
  {
    run == [] || (Enabled(s, run[0]) && Legal(Apply(s, run[0]), run[1..]))
  }

  function Exec(s: State, run: seq<Side>): State
    requires Legal(s, run)
    decreases |run|
  {
    if run == [] then s else Exec(Apply(s, run[0]), run[1..])
  }

  lemma {:induction false} RunKeeps(s: State, run: seq<Side>)
    requires Inv(s) && Legal(s, run)
    ensures Inv(Exec(s, run)) && Exec(s, run).n == s.n && Exec(s, run).capacity == s.capacity
    decreases |run|
  {
    hide Inv;
    if run != [] {
      StepKeeps(s, run[0]);
      RunKeeps(Apply(s, run[0]), run[1..]);
    }
  }

  /**
    After any run what has been dequeued is a prefix of what has been enqueued,
    which are the items in order; the queue is within its capacity and the
    indices within n; and the next cell to be written holds no unread item.
   */
  lemma DeliversInOrder(n: nat, capacity: nat, items: seq<int>, run: seq<Side>)
    requires 0 < capacity == |items| && Legal(Init(n, capacity, items), run)
    ensures var s := Exec(Init(n, capacity, items), run);
            && s.got <= Numbers(s.sent) <= Numbers(n)
            && 0 <= s.tail - s.head <= capacity && s.tail <= n
            && (s.p.Access? ==> forall k: nat | s.head <= k < s.tail :: s.p.own % capacity != k % capacity)
  {
    InitOk(n, capacity, items);
    RunKeeps(Init(n, capacity, items), run);
    var s := Exec(Init(n, capacity, items), run);
    if s.p.Access? {
      forall k: nat | s.head <= k < s.tail ensures s.p.own % capacity != k % capacity { NoOverwrite(s, k); }
    }
  }

  // ----- progress -----

  /** `ReadTail` and `ReadHead` of `who`, with nobody in between, end the spinning unless the queue is in its way. */
  predicate TestPasses(s: State, who: Side) {
    if who.Producer? then s.tail - s.head < s.capacity else s.head < s.tail
  }

  /** Until all is delivered one of the two threads is not done and would get through its test, or is past it. */
  lemma SomeoneGetsThrough(s: State)
    requires Inv(s) && |s.got| < s.n
    ensures || (s.sent < s.n && (TestPasses(s, Producer) || Passed(s.p)))
            || TestPasses(s, Consumer) || Passed(s.c)
  {
  }

  lemma TestEndsSpinning(s: State, who: Side)
    requires Inv(s) && Enabled(s, who) && TestPasses(s, who)
    requires if who.Producer? then s.p.ReadTail? else s.c.ReadTail?
    ensures Enabled(Apply(s, who), who)
    ensures var s' := Apply(Apply(s, who), who); Passed(if who.Producer? then s'.p else s'.c)
  {
  }

  // ----- one side alone -----

  function Stored(items: seq<int>, tail: int, x: int): seq<int> {
    if items == [] then [] else items[tail % |items| := x]
  }

  function Found(items: seq<int>, head: int): int {
    if items == [] then 0 else items[head % |items|]
  }

  function Times(who: Side, k: nat): seq<Side> {
    if k == 0 then [] else [who] + Times(who, k - 1)
  }

  lemma OneMore(s: State, who: Side, k: nat)
    requires 0 < k && Enabled(s, who) && Legal(Apply(s, who), Times(who, k - 1))
    ensures Legal(s, Times(who, k)) && Exec(s, Times(who, k)) == Exec(Apply(s, who), Times(who, k - 1))
  {
    assert Times(who, k)[0] == who && Times(who, k)[1..] == Times(who, k - 1);
  }

  lemma {:induction false} RunOn(s: State, who: Side, j: nat, k: nat)
    requires Legal(s, Times(who, j)) && Legal(Exec(s, Times(who, j)), Times(who, k))
    ensures Legal(s, Times(who, j + k)) && Exec(s, Times(who, j + k)) == Exec(Exec(s, Times(who, j)), Times(who, k))
    decreases j
  {
    hide Enabled, Apply;
    if j > 0 {
      assert Times(who, j)[0] == who && Times(who, j)[1..] == Times(who, j - 1);
      RunOn(Apply(s, who), who, j - 1, k);
      OneMore(s, who, j + k);
    }
  }

  /** The steps of `enqueue` after its test and the read of its index. */
  lemma StoreAlone(s: State)
    requires 0 < s.capacity == |s.items| && s.sent < s.n && 0 <= s.tail && s.p == Access(s.tail)
    ensures Legal(s, Times(Producer, 3))
    ensures Exec(s, Times(Producer, 3))
            == s.(items := Stored(s.items, s.tail, s.sent), tail := s.tail + 1, sent := s.sent + 1, p := ReadTail)
  {
    var s1 := Apply(s, Producer);
    var s2 := Apply(s1, Producer);
    var s3 := Apply(s2, Producer);
    assert Times(Producer, 0) == [] && Legal(s3, []) && Exec(s3, []) == s3;
    OneMore(s2, Producer, 1);
    OneMore(s1, Producer, 2);
    OneMore(s, Producer, 3);
  }

  /** An undisturbed `enqueue` into a queue that is not full takes six steps. */
  lemma EnqueueAlone(s: State)
    requires 0 < s.capacity == |s.items| && s.sent < s.n && 0 <= s.tail && s.tail - s.head < s.capacity && s.p.ReadTail?
    ensures Legal(s, Times(Producer, 6))
    ensures Exec(s, Times(Producer, 6))
            == s.(items := Stored(s.items, s.tail, s.sent), tail := s.tail + 1, sent := s.sent + 1)
  {
    hide Times, Legal, Exec, Stored, Found;
    var s1 := Apply(s, Producer);
    var s2 := Apply(s1, Producer);
    var s3 := Apply(s2, Producer);
    assert s3 == s.(p := Access(s.tail));
    StoreAlone(s3);
    OneMore(s2, Producer, 4);
    OneMore(s1, Producer, 5);
    OneMore(s, Producer, 6);
  }

  /** The steps of `dequeue` after its test and the read of its index. */
  lemma TakeAlone(s: State)
    requires 0 < s.capacity == |s.items| && |s.got| < s.n && 0 <= s.head && s.c == Access(s.head)
    ensures Legal(s, Times(Consumer, 3))
    ensures var x := Found(s.items, s.head);
            Exec(s, Times(Consumer, 3)) == s.(head := s.head + 1, x := x, got := s.got + [x], c := ReadTail)
  {
    var s1 := Apply(s, Consumer);
    var s2 := Apply(s1, Consumer);
    var s3 := Apply(s2, Consumer);
    assert Times(Consumer, 0) == [] && Legal(s3, []) && Exec(s3, []) == s3;
    OneMore(s2, Consumer, 1);
    OneMore(s1, Consumer, 2);
    OneMore(s, Consumer, 3);
  }

  /** An undisturbed `dequeue` from a queue that is not empty takes six steps. */
  lemma DequeueAlone(s: State)
    requires 0 < s.capacity == |s.items| && |s.got| < s.n && 0 <= s.head < s.tail && s.c.ReadTail?
    ensures Legal(s, Times(Consumer, 6))
    ensures var x := Found(s.items, s.head);
            Exec(s, Times(Consumer, 6)) == s.(head := s.head + 1, x := x, got := s.got + [x])
  {
    hide Times, Legal, Exec, Stored, Found;
    var s1 := Apply(s, Consumer);
    var s2 := Apply(s1, Consumer);
    var s3 := Apply(s2, Consumer);
    assert s3 == s.(c := Access(s.head));
    TakeAlone(s3);
    OneMore(s2, Consumer, 4);
    OneMore(s1, Consumer, 5);
    OneMore(s, Consumer, 6);
  }

  lemma InvFacts(s: State)
    requires Inv(s)
    ensures 0 < s.capacity == |s.items| && 0 <= s.head <= s.tail == s.sent <= s.n && s.head == |s.got|
    ensures s.head < s.tail ==> s.items[s.head % s.capacity] == s.head
    ensures s.got == Numbers(|s.got|)
  {
  }

  /** A producer left alone fills the queue, or delivers all it has. */
  lemma {:induction false} FillsUp(s: State, k: nat)
    requires Inv(s) && s.p.ReadTail? && s.sent + k <= s.n && s.tail + k <= s.head + s.capacity
    ensures Legal(s, Times(Producer, 6 * k))
    ensures var e := Exec(s, Times(Producer, 6 * k));
            Inv(e) && e == s.(tail := s.tail + k, sent := s.sent + k, items := e.items)
    decreases k
  {
    hide Inv, Apply;
    if k > 0 {
      InvFacts(s);
      EnqueueAlone(s);
      RunKeeps(s, Times(Producer, 6));
      FillsUp(Exec(s, Times(Producer, 6)), k - 1);
      RunOn(s, Producer, 6, 6 * (k - 1));
    }
  }

  lemma InOwnCells(s: State, k: nat)
    requires Inv(s) && s.head == 0 && k == s.tail
    ensures k <= |s.items| && forall i | 0 <= i < k :: s.items[i] == i
  {
    forall i | 0 <= i < k ensures s.items[i] == i { assert i % s.capacity == i; }
  }

  /** From the start it enqueues as many items as there are or as fit; if more are left it then spins. */
  lemma SpinsOnlyWhenFull(n: nat, capacity: nat, items: seq<int>)
    requires 0 < capacity == |items|
    ensures var k := if n <= capacity then n else capacity;
            && Legal(Init(n, capacity, items), Times(Producer, 6 * k))
            && var e := Exec(Init(n, capacity, items), Times(Producer, 6 * k));
               && e.sent == e.tail == k <= |e.items| && e.p.ReadTail? && (forall i | 0 <= i < k :: e.items[i] == i)
               && (n > capacity ==>
                     && Enabled(e, Producer) && Enabled(Apply(e, Producer), Producer)
                     && Apply(Apply(e, Producer), Producer) == e)
  {
    var k := if n <= capacity then n else capacity;
    InitOk(n, capacity, items);
    hide Inv;
    FillsUp(Init(n, capacity, items), k);
    var e := Exec(Init(n, capacity, items), Times(Producer, 6 * k));
    InOwnCells(e, k);
  }

  /** A consumer left alone takes out all the items that are there, in order. */
  lemma {:induction false} EmptiesOut(s: State, k: nat)
    requires Inv(s) && s.c.ReadTail? && s.head + k == s.tail
    ensures Legal(s, Times(Consumer, 6 * k))
    ensures var e := Exec(s, Times(Consumer, 6 * k)); e.head == e.tail == s.tail && e.got == Numbers(s.sent)
    decreases k
  {
    hide Inv, Apply;
    InvFacts(s);
    if k > 0 {
      DequeueAlone(s);
      RunKeeps(s, Times(Consumer, 6));
      EmptiesOut(Exec(s, Times(Consumer, 6)), k - 1);
      RunOn(s, Consumer, 6, 6 * (k - 1));
    }
  }
}
