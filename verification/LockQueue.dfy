/**
  The bounded queue with one mutex and one condition variable, used by one
  producer of the items 0, 1, ..., n - 1 and one consumer.  `wait` is tested
  with `if`, so the model lets a sleeper go on only after a signal.
 */
module LockQueue {
  import opened Options
  import opened CellNumbers

  datatype Side = Producer | Consumer

  /** Where a thread is in `enqueue` or `dequeue`; at `Start` it is about to take the mutex. */
  datatype PC =
    | Start
    | Check   // must it wait?
    | Asleep
    | Woken   // signalled, about to take the mutex again
    | Wake    // does the other one have to be woken?
    | Move    // about to write or read the cell
    | Count   // about to advance `tail` or `head`
    | Unlock

  /** `sent` and `got` count and collect finished calls; `x` is what `dequeue` has read. */
  datatype State = State(
    n: nat, capacity: nat,
    owner: Option<Side>,
    head: nat, tail: nat, items: seq<int>,
    p: PC, sent: nat,
    c: PC, x: int, got: seq<int>)

  function Init(n: nat, capacity: nat, items: seq<int>): State {
    State(n, capacity, None, 0, 0, items, Start, 0, Start, 0, [])
  }

  function PcOf(s: State, who: Side): PC {
    if who.Producer? then s.p else s.c
  }

  predicate Finished(s: State, who: Side) {
    if who.Producer? then s.sent == s.n else |s.got| == s.n
  }

  /** The mutex is needed to go on. */
  predicate AtMutex(pc: PC) {
    pc.Start? || pc.Woken?
  }

  predicate Enabled(s: State, who: Side) {
    && 0 < s.capacity == |s.items|
    && !Finished(s, who) && !PcOf(s, who).Asleep?
    && (AtMutex(PcOf(s, who)) ==> s.owner == None)
  }

  function At(s: State, who: Side, pc: PC): State {
    if who.Producer? then s.(p := pc) else s.(c := pc)
  }

  function Other(who: Side): Side {
    if who.Producer? then Consumer else Producer
  }

  /** `pthread_cond_signal`: without a sleeper it is lost. */
  function Signal(s: State, who: Side): State {
    if PcOf(s, Other(who)).Asleep? then At(s, Other(who), Woken) else s
  }

  predicate Full(s: State) {
    s.tail - s.head == s.capacity
  }

  predicate Empty(s: State) {
    s.tail == s.head
  }

  predicate MustWait(s: State, who: Side) {
    if who.Producer? then Full(s) else Empty(s)
  }

  /** The other thread may be asleep only in this case. */
  predicate MustSignal(s: State, who: Side) {
    if who.Producer? then Empty(s) else Full(s)
  }

  function Apply(s: State, who: Side): State
    requires Enabled(s, who)
  {
    match PcOf(s, who)
    case Start => At(s, who, Check).(owner := Some(who))
    case Check => if MustWait(s, who) then At(s, who, Asleep).(owner := None) else At(s, who, Wake)
    case Woken => At(s, who, Wake).(owner := Some(who))
    case Wake => At(if MustSignal(s, who) then Signal(s, who) else s, who, Move)
    case Move =>
      if who.Producer?
      then At(s, who, Count).(items := s.items[s.tail % s.capacity := s.sent])
      else At(s, who, Count).(x := s.items[s.head % s.capacity])
    case Count =>
      if who.Producer? then At(s, who, Unlock).(tail := s.tail + 1) else At(s, who, Unlock).(head := s.head + 1)
    case Unlock =>
      if who.Producer?
      then At(s, who, Start).(owner := None, sent := s.sent + 1)
      else At(s, who, Start).(owner := None, got := s.got + [s.x])
    case Asleep => s
  }

  // ----- what every step keeps -----

  predicate Holding(pc: PC) {
    !AtMutex(pc) && !pc.Asleep?
  }

  /** Between the decision to signal and the advance of the index. */
  predicate Moving(pc: PC) {
    pc.Move? || pc.Count?
  }

  predicate OwnerOk(s: State) {
    && (Holding(s.p) <==> s.owner == Some(Producer))
    && (Holding(s.c) <==> s.owner == Some(Consumer))
  }

  predicate IndicesOk(s: State) {
    && 0 < s.capacity == |s.items|
    && s.head <= s.tail <= s.head + s.capacity
    && s.tail == (if s.p.Unlock? then s.sent + 1 else s.sent) && s.tail <= s.n
    && s.head == (if s.c.Unlock? then |s.got| + 1 else |s.got|)
    && (!s.p.Start? ==> s.sent < s.n)
    && (!s.c.Start? ==> |s.got| < s.n)
  }

  predicate ProducerOk(s: State) {
    && (s.p.Asleep? ==> Full(s) && !Moving(s.c))
    && (s.p.Woken? ==> !Full(s) || Moving(s.c))
    && (s.p.Wake? || Moving(s.p) ==> !Full(s))
  }

  predicate ConsumerOk(s: State) {
    && (s.c.Asleep? ==> Empty(s) && !Moving(s.p))
    && (s.c.Woken? ==> !Empty(s) || Moving(s.p))
    && (s.c.Wake? || Moving(s.c) ==> !Empty(s))
  }

  /** The cells between the indices hold the items of those numbers, and so does what has been read. */
  ghost predicate ItemsOk(s: State)
    requires IndicesOk(s)
  {
    && (forall k | s.head <= k < s.tail :: s.items[k % s.capacity] == k)
    && (s.p.Count? ==> s.items[s.tail % s.capacity] == s.tail)
    && (s.c.Count? ==> s.x == s.head)
    && (s.c.Unlock? ==> s.x == s.head - 1)
    && (forall k | 0 <= k < |s.got| :: s.got[k] == k)
  }

  ghost predicate Inv(s: State) {
    OwnerOk(s) && IndicesOk(s) && ProducerOk(s) && ConsumerOk(s) && ItemsOk(s)
  }

  lemma InitOk(n: nat, capacity: nat, items: seq<int>)
    requires 0 < capacity == |items|
    ensures Inv(Init(n, capacity, items))
  {
  }

  lemma WriteKeeps(s: State)
    requires Inv(s) && Enabled(s, Producer) && s.p.Move?
    ensures Inv(Apply(s, Producer))
  {
    forall k | s.head <= k < s.tail ensures k % s.capacity != s.tail % s.capacity {
      CellsDiffer(k, s.tail, s.capacity);
    }
  }

  lemma ProducerKeeps(s: State)
    requires Inv(s) && Enabled(s, Producer)
    ensures Inv(Apply(s, Producer))
  {
    if s.p.Move? { WriteKeeps(s); }
  }

  lemma ConsumerKeeps(s: State)
    requires Inv(s) && Enabled(s, Consumer)
    ensures Inv(Apply(s, Consumer))
  {
    var s' := Apply(s, Consumer);
    assert OwnerOk(s') && IndicesOk(s') && ProducerOk(s') && ConsumerOk(s') by { hide ItemsOk; }
  }

  lemma StepKeeps(s: State, who: Side)
    requires Inv(s) && Enabled(s, who)
    ensures Inv(Apply(s, who))
  {
    if who.Producer? { ProducerKeeps(s); } else { ConsumerKeeps(s); }
  }

  // ----- progress -----

  /** The two are never asleep together, and someone can go on until both are done. */
  lemma NeverStuck(s: State)
    requires Inv(s)
    ensures !(s.p.Asleep? && s.c.Asleep?)
    ensures !Finished(s, Producer) || !Finished(s, Consumer) ==> Enabled(s, Producer) || Enabled(s, Consumer)
  {
    assert s.owner.Some? ==> s.owner.value.Producer? || s.owner.value.Consumer?;
  }

  function Rank(pc: PC): nat {
    match pc
    case Start => 8
    case Check => 7
    case Asleep => 6
    case Woken => 5
    case Wake => 4
    case Move => 3
    case Count => 2
    case Unlock => 1
  }

  /** Bounds the steps that are still to come. */
  function Measure(s: State): int {
    8 * (s.n - s.sent) + Rank(s.p) + 8 * (s.n - |s.got|) + Rank(s.c)
  }

  lemma StepsCount(s: State, who: Side)
    requires Enabled(s, who)
    ensures Measure(Apply(s, who)) < Measure(s)
  {
  }

  // ----- runs -----

  predicate Legal(s: State, run: seq<Side>)
    decreases |run|
  {
    run == [] || (Enabled(s, run[0]) && Legal(Apply(s, run[0]), run[1..]))
  }

  function Exec(s: State, run: seq<Side>): State
    requires Legal(s, run)
    decreases |run|
  {
    if run == [] then s else Exec(Apply(s, run[0]), run[1..])
  }

  lemma {:induction false} RunKeeps(s: State, run: seq<Side>)
    requires Inv(s) && Legal(s, run)
    ensures Inv(Exec(s, run)) && Exec(s, run).n == s.n && Exec(s, run).capacity == s.capacity
    ensures Measure(Exec(s, run)) + |run| <= Measure(s)
    decreases |run|
  {
    hide Inv;
    if run != [] {
      StepKeeps(s, run[0]);
      StepsCount(s, run[0]);
      RunKeeps(Apply(s, run[0]), run[1..]);
    }
  }

  /**
    Every run hands over the items in order; it has at most 16 n steps, and it
    cannot stop before all n have been delivered.
   */
  lemma DeliversAll(n: nat, capacity: nat, items: seq<int>, run: seq<Side>)
    requires 0 < capacity == |items| && Legal(Init(n, capacity, items), run)
    ensures var s := Exec(Init(n, capacity, items), run);
            && s.got <= Numbers(n)
            && |run| <= 16 * n
            && !(s.p.Asleep? && s.c.Asleep?)
            && (!Enabled(s, Producer) && !Enabled(s, Consumer) ==> s.got == Numbers(n))
  {
    InitOk(n, capacity, items);
    RunKeeps(Init(n, capacity, items), run);
    var s := Exec(Init(n, capacity, items), run);
    NeverStuck(s);
    assert Rank(s.p) >= 1 && Rank(s.c) >= 1;
    StartsAtRest(s);
  }

  lemma StartsAtRest(s: State)
    requires Inv(s)
    ensures Measure(s) >= 16
    ensures |s.got| == s.n ==> s.got == Numbers(s.n)
  {
  }

  // ----- one side alone -----

  function Stored(items: seq<int>, tail: int, x: int): seq<int> {
    if items == [] then [] else items[tail % |items| := x]
  }

  function Found(items: seq<int>, head: int): int {
    if items == [] then 0 else items[head % |items|]
  }

  function Times(who: Side, k: nat): seq<Side> {
    if k == 0 then [] else [who] + Times(who, k - 1)
  }

  lemma OneMore(s: State, who: Side, k: nat)
    requires 0 < k && Enabled(s, who) && Legal(Apply(s, who), Times(who, k - 1))
    ensures Legal(s, Times(who, k)) && Exec(s, Times(who, k)) == Exec(Apply(s, who), Times(who, k - 1))
  {
    assert Times(who, k)[0] == who && Times(who, k)[1..] == Times(who, k - 1);
  }

  lemma {:induction false} RunOn(s: State, who: Side, j: nat, k: nat)
    requires Legal(s, Times(who, j)) && Legal(Exec(s, Times(who, j)), Times(who, k))
    ensures Legal(s, Times(who, j + k)) && Exec(s, Times(who, j + k)) == Exec(Exec(s, Times(who, j)), Times(who, k))
    decreases j
  {
    hide Enabled, Apply;
    if j > 0 {
      assert Times(who, j)[0] == who && Times(who, j)[1..] == Times(who, j - 1);
      RunOn(Apply(s, who), who, j - 1, k);
      OneMore(s, who, j + k);
    }
  }

  /** The second half of `enqueue`, with the mutex in hand. */
  lemma StoreAlone(s: State)
    requires 0 < s.capacity == |s.items| && s.sent < s.n && s.p.Move?
    ensures Legal(s, Times(Producer, 3))
    ensures Exec(s, Times(Producer, 3))
            == s.(items := Stored(s.items, s.tail, s.sent), tail := s.tail + 1, sent := s.sent + 1,
                  p := Start, owner := None)
  {
    var s1 := Apply(s, Producer);
    var s2 := Apply(s1, Producer);
    var s3 := Apply(s2, Producer);
    assert Times(Producer, 0) == [] && Legal(s3, []) && Exec(s3, []) == s3;
    OneMore(s2, Producer, 1);
    OneMore(s1, Producer, 2);
    OneMore(s, Producer, 3);
  }

  /** An undisturbed `enqueue` into a queue that is not full takes six steps. */
  lemma EnqueueAlone(s: State)
    requires 0 < s.capacity == |s.items| && s.sent < s.n && !Full(s)
    requires s.p.Start? && s.owner == None && s.c.Start?
    ensures Legal(s, Times(Producer, 6))
    ensures Exec(s, Times(Producer, 6))
            == s.(items := Stored(s.items, s.tail, s.sent), tail := s.tail + 1, sent := s.sent + 1)
  {
    hide Times, Legal, Exec, Stored, Found;
    var s1 := Apply(s, Producer);
    var s2 := Apply(s1, Producer);
    var s3 := Apply(s2, Producer);
    assert s3 == s.(p := Move, owner := Some(Producer));
    StoreAlone(s3);
    OneMore(s2, Producer, 4);
    OneMore(s1, Producer, 5);
    OneMore(s, Producer, 6);
  }

  lemma InvFacts(s: State)
    requires Inv(s)
    ensures 0 < s.capacity == |s.items| && s.head <= s.tail <= s.head + s.capacity
    ensures s.c.Start? && s.head < s.tail ==> |s.got| < s.n && s.items[s.head % s.capacity] == s.head
    ensures s.c.Start? && s.head == s.tail ==> s.got == Numbers(s.tail)
    ensures forall i: nat | s.head <= i < s.tail :: s.items[i % s.capacity] == i
  {
  }

  /** A producer left alone fills the queue, or delivers all it has, without sleeping. */
  lemma {:induction false} FillsUp(s: State, k: nat)
    requires Inv(s) && s.p.Start? && s.owner == None && s.c.Start?
    requires s.sent + k <= s.n && s.tail + k <= s.head + s.capacity
    ensures Legal(s, Times(Producer, 6 * k))
    ensures var e := Exec(s, Times(Producer, 6 * k));
            Inv(e) && e == s.(tail := s.tail + k, sent := s.sent + k, items := e.items)
    decreases k
  {
    hide Inv, Apply;
    if k > 0 {
      InvFacts(s);
      EnqueueAlone(s);
      RunKeeps(s, Times(Producer, 6));
      FillsUp(Exec(s, Times(Producer, 6)), k - 1);
      RunOn(s, Producer, 6, 6 * (k - 1));
    }
  }

  lemma InOwnCells(s: State, k: nat)
    requires Inv(s) && s.head == 0 && k == s.tail
    ensures k <= |s.items| && forall i | 0 <= i < k :: s.items[i] == i
  {
    forall i | 0 <= i < k ensures s.items[i] == i { assert i % s.capacity == i; }
  }

  /** From the start it enqueues as many items as there are or as fit; if more are left it then falls asleep. */
  lemma SleepsOnlyWhenFull(n: nat, capacity: nat, items: seq<int>)
    requires 0 < capacity == |items|
    ensures var k := if n <= capacity then n else capacity;
            && Legal(Init(n, capacity, items), Times(Producer, 6 * k))
            && var e := Exec(Init(n, capacity, items), Times(Producer, 6 * k));
               && e.sent == e.tail == k <= |e.items| && e.p.Start? && (forall i | 0 <= i < k :: e.items[i] == i)
               && (n <= capacity ==> Finished(e, Producer))
               && (n > capacity ==>
                     && Enabled(e, Producer) && Enabled(Apply(e, Producer), Producer)
                     && Apply(Apply(e, Producer), Producer).p.Asleep?)
  {
    var k := if n <= capacity then n else capacity;
    InitOk(n, capacity, items);
    hide Inv;
    FillsUp(Init(n, capacity, items), k);
    var e := Exec(Init(n, capacity, items), Times(Producer, 6 * k));
    InOwnCells(e, k);
  }

  /** The second half of `dequeue`, with the mutex in hand. */
  lemma TakeAlone(s: State)
    requires 0 < s.capacity == |s.items| && |s.got| < s.n && s.c.Move?
    ensures Legal(s, Times(Consumer, 3))
    ensures var x := Found(s.items, s.head);
            Exec(s, Times(Consumer, 3)) == s.(head := s.head + 1, x := x, got := s.got + [x], c := Start, owner := None)
  {
    var s1 := Apply(s, Consumer);
    var s2 := Apply(s1, Consumer);
    var s3 := Apply(s2, Consumer);
    assert Times(Consumer, 0) == [] && Legal(s3, []) && Exec(s3, []) == s3;
    OneMore(s2, Consumer, 1);
    OneMore(s1, Consumer, 2);
    OneMore(s, Consumer, 3);
  }

  /** An undisturbed `dequeue` from a queue that is not empty takes six steps. */
  lemma DequeueAlone(s: State)
    requires 0 < s.capacity == |s.items| && |s.got| < s.n && !Empty(s)
    requires s.c.Start? && s.owner == None && s.p.Start?
    ensures Legal(s, Times(Consumer, 6))
    ensures var x := Found(s.items, s.head);
            Exec(s, Times(Consumer, 6)) == s.(head := s.head + 1, x := x, got := s.got + [x])
  {
    hide Times, Legal, Exec, Stored, Found;
    var s1 := Apply(s, Consumer);
    var s2 := Apply(s1, Consumer);
    var s3 := Apply(s2, Consumer);
    assert s3 == s.(c := Move, owner := Some(Consumer));
    TakeAlone(s3);
    OneMore(s2, Consumer, 4);
    OneMore(s1, Consumer, 5);
    OneMore(s, Consumer, 6);
  }

  /** A consumer left alone takes out all the items that are there, in order. */
  lemma {:induction false} EmptiesOut(s: State, k: nat)
    requires Inv(s) && s.c.Start? && s.owner == None && s.p.Start? && s.head + k == s.tail
    ensures Legal(s, Times(Consumer, 6 * k))
    ensures var e := Exec(s, Times(Consumer, 6 * k)); e.head == e.tail == s.tail && e.got == Numbers(s.tail)
    decreases k
  {
    hide Inv, Apply;
    InvFacts(s);
    if k > 0 {
      DequeueAlone(s);
      RunKeeps(s, Times(Consumer, 6));
      EmptiesOut(Exec(s, Times(Consumer, 6)), k - 1);
      RunOn(s, Consumer, 6, 6 * (k - 1));
    }
  }

  // ----- without the assumption -----

  /** A wakeup that nobody has signalled. */
  function SpuriousWakeup(s: State): State {
    if s.c.Asleep? then s.(c := Woken) else s
  }

  /** One such wakeup of the consumer of an empty queue makes it take an item that was never enqueued. */
  lemma SpuriousWakeupBreaks(n: nat, capacity: nat, items: seq<int>)
    requires 0 < n && 0 < capacity == |items|
    ensures var s := Init(n, capacity, items);
            && Legal(s, [Consumer, Consumer])
            && var w := SpuriousWakeup(Exec(s, [Consumer, Consumer]));
               && Legal(w, [Consumer, Consumer, Consumer, Consumer])
               && var e := Exec(w, [Consumer, Consumer, Consumer, Consumer]);
                  e.head > e.tail && e.x == items[0]
  {
    var s := Init(n, capacity, items);
    var s1 := Apply(s, Consumer);
    var s2 := Apply(s1, Consumer);
    assert [Consumer, Consumer][1..] == [Consumer];
    assert Legal(s1, [Consumer]) && Exec(s1, [Consumer]) == s2;
    var w := SpuriousWakeup(s2);
    var w1 := Apply(w, Consumer);
    var w2 := Apply(w1, Consumer);
    var w3 := Apply(w2, Consumer);
    var w4 := Apply(w3, Consumer);
    assert [Consumer, Consumer, Consumer, Consumer][1..] == [Consumer, Consumer, Consumer];
    assert [Consumer, Consumer, Consumer][1..] == [Consumer, Consumer];
    assert Legal(w3, [Consumer]) && Exec(w3, [Consumer]) == w4;
    assert Legal(w2, [Consumer, Consumer]) && Exec(w2, [Consumer, Consumer]) == w4;
    assert Legal(w1, [Consumer, Consumer, Consumer]) && Exec(w1, [Consumer, Consumer, Consumer]) == w4;
  }
}
