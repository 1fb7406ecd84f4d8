/**
  Threads that increment a shared counter without a lock: each round reads the
  counter, adds one to the copy and writes it back.  The counter is a natural
  number here; 32 bits are enough for fewer than 2^32 rounds in all.
 */
module RacyCounter {
  import opened Options

  /** The rounds a thread has finished, and what it has read in the one it is in. */
  datatype Thread = Thread(done: nat, local: Option<nat>)

  datatype State = State(counter: nat, threads: seq<Thread>)

  function Init(threads: nat): State {
    State(0, seq(threads, _ => Thread(0, None)))
  }

  predicate Enabled(s: State, rounds: nat, t: nat) {
    t < |s.threads| && s.threads[t].done < rounds
  }

  function Apply(s: State, rounds: nat, t: nat): State
    requires Enabled(s, rounds, t)
  {
    var th := s.threads[t];
    match th.local
    case None => s.(threads := s.threads[t := th.(local := Some(s.counter))])
    case Some(v) => State(v + 1, s.threads[t := Thread(th.done + 1, None)])
  }

  predicate Legal(s: State, rounds: nat, run: seq<nat>)
    decreases |run|
  {
    run == [] || (Enabled(s, rounds, run[0]) && Legal(Apply(s, rounds, run[0]), rounds, run[1..]))
  }

  function Exec(s: State, rounds: nat, run: seq<nat>): State
    requires Legal(s, rounds, run)
    decreases |run|
  {
    if run == [] then s else Exec(Apply(s, rounds, run[0]), rounds, run[1..])
  }

  predicate Complete(s: State, rounds: nat) {
    forall t | 0 <= t < |s.threads| :: s.threads[t].done == rounds
  }

  // ----- what every step keeps -----

  function Writes(q: seq<Thread>): nat {
    if q == [] then 0 else q[0].done + Writes(q[1..])
  }

  lemma {:induction false} WritesUpdate(q: seq<Thread>, t: nat, th: Thread)
    requires t < |q|
    ensures Writes(q[t := th]) == Writes(q) - q[t].done + th.done
  {
    if t > 0 {
      WritesUpdate(q[1..], t - 1, th);
      assert q[t := th][1..] == q[1..][t - 1 := th];
    } else {
      assert q[t := th][1..] == q[1..];
    }
  }

  lemma {:induction false} WritesBounds(q: seq<Thread>, rounds: nat)
    ensures (forall t | 0 <= t < |q| :: q[t].done == rounds) ==> Writes(q) == |q| * rounds
    ensures Writes(q) == 0 <==> forall t | 0 <= t < |q| :: q[t].done == 0
  {
    if q != [] {
      WritesBounds(q[1..], rounds);
      assert q == [q[0]] + q[1..];
      if forall t | 0 <= t < |q| :: q[t].done == rounds {
        assert forall t | 0 <= t < |q[1..]| :: q[1..][t].done == rounds;
        assert |q| * rounds == |q[1..]| * rounds + rounds;
      }
    }
  }

  /** The counter never runs ahead of the writes, and a read of 0 is a thread's first. */
  ghost predicate Inv(s: State) {
    && s.counter <= Writes(s.threads)
    && (s.counter == 0 ==> Writes(s.threads) == 0)
    && (s.counter == 1 ==> exists t :: 0 <= t < |s.threads| && s.threads[t].done <= 1)
    && (forall t | 0 <= t < |s.threads| && s.threads[t].local.Some? ::
          s.threads[t].local.value <= Writes(s.threads)
          && (s.threads[t].local.value == 0 ==> s.threads[t].done == 0))
  }

  lemma StepKeeps(s: State, rounds: nat, t: nat)
    requires Inv(s) && Enabled(s, rounds, t)
    ensures Inv(Apply(s, rounds, t)) && |Apply(s, rounds, t).threads| == |s.threads|
  {
    var s' := Apply(s, rounds, t);
    WritesUpdate(s.threads, t, s'.threads[t]);
    WritesBounds(s.threads, rounds);
    if s.threads[t].local.Some? {
      assert s'.threads[t].done == s.threads[t].done + 1;
    } else if s.counter == 1 {
      var u :| 0 <= u < |s.threads| && s.threads[u].done <= 1;
      assert s'.threads[u].done <= 1;
    }
  }

  lemma {:induction false} RunKeeps(s: State, rounds: nat, run: seq<nat>)
    requires Inv(s) && Legal(s, rounds, run)
    ensures Inv(Exec(s, rounds, run)) && |Exec(s, rounds, run).threads| == |s.threads|
    decreases |run|
  {
    hide Inv;
    if run != [] {
      StepKeeps(s, rounds, run[0]);
      RunKeeps(Apply(s, rounds, run[0]), rounds, run[1..]);
    }
  }

  /** With two rounds or more, no interleaving leaves less than 2 or more than one count per round. */
  lemma CounterBounds(threads: nat, rounds: nat, run: seq<nat>)
    requires threads >= 1 && rounds >= 2 && Legal(Init(threads), rounds, run)
    requires Complete(Exec(Init(threads), rounds, run), rounds)
    ensures 2 <= Exec(Init(threads), rounds, run).counter <= threads * rounds
  {
    var s := Exec(Init(threads), rounds, run);
    WritesBounds(Init(threads).threads, 0);
    RunKeeps(Init(threads), rounds, run);
    WritesBounds(s.threads, rounds);
    assert s.threads[0].done == rounds;
  }

  // ----- the bounds are reached -----

  lemma {:induction false} ExecAppend(s: State, rounds: nat, p: seq<nat>, q: seq<nat>)
    requires Legal(s, rounds, p) && Legal(Exec(s, rounds, p), rounds, q)
    ensures Legal(s, rounds, p + q) && Exec(s, rounds, p + q) == Exec(Exec(s, rounds, p), rounds, q)
    decreases |p|
  {
    if p == [] {
      assert p + q == q;
    } else {
      assert (p + q)[1..] == p[1..] + q;
      ExecAppend(Apply(s, rounds, p[0]), rounds, p[1..], q);
    }
  }

  /** Thread `t` alone runs `n` rounds. */
  function Solo(t: nat, n: nat): seq<nat> {
    if n == 0 then [] else [t, t] + Solo(t, n - 1)
  }

  function After(s: State, t: nat, n: nat): State
    requires t < |s.threads|
  {
    State(s.counter + n, s.threads[t := Thread(s.threads[t].done + n, None)])
  }

  lemma {:induction false} SoloRun(s: State, rounds: nat, t: nat, n: nat)
    requires t < |s.threads| && s.threads[t].local.None? && s.threads[t].done + n <= rounds
    ensures Legal(s, rounds, Solo(t, n)) && Exec(s, rounds, Solo(t, n)) == After(s, t, n)
    decreases n
  {
    if n == 0 {
      assert s.threads[t := s.threads[t]] == s.threads;
    } else {
      var s1 := Apply(s, rounds, t);
      var s2 := Apply(s1, rounds, t);
      assert s2 == After(s, t, 1);
      SoloRun(s2, rounds, t, n - 1);
      assert ([t, t] + Solo(t, n - 1))[1..] == [t] + Solo(t, n - 1);
      assert ([t] + Solo(t, n - 1))[1..] == Solo(t, n - 1);
    }
  }

  /** The threads from `i` on run one after the other. */
  function OneByOne(i: nat, threads: nat, rounds: nat): seq<nat>
    decreases threads - i
  {
    if i >= threads then [] else Solo(i, rounds) + OneByOne(i + 1, threads, rounds)
  }

  lemma {:induction false} OneByOneRun(s: State, rounds: nat, i: nat)
    requires i <= |s.threads| && forall t | i <= t < |s.threads| :: s.threads[t] == Thread(0, None)
    ensures Legal(s, rounds, OneByOne(i, |s.threads|, rounds))
    ensures var e := Exec(s, rounds, OneByOne(i, |s.threads|, rounds));
            && e.counter == s.counter + (|s.threads| - i) * rounds && |e.threads| == |s.threads|
            && forall t | 0 <= t < |s.threads| :: e.threads[t] == if t < i then s.threads[t] else Thread(rounds, None)
    decreases |s.threads| - i
  {
    if i < |s.threads| {
      SoloRun(s, rounds, i, rounds);
      var s' := After(s, i, rounds);
      OneByOneRun(s', rounds, i + 1);
      ExecAppend(s, rounds, Solo(i, rounds), OneByOne(i + 1, |s.threads|, rounds));
      assert (|s.threads| - i) * rounds == (|s.threads| - (i + 1)) * rounds + rounds;
    }
  }

  /** Running the threads one after the other loses nothing. */
  lemma MostReached(threads: nat, rounds: nat)
    ensures exists run ::
              && Legal(Init(threads), rounds, run) && Complete(Exec(Init(threads), rounds, run), rounds)
              && Exec(Init(threads), rounds, run).counter == threads * rounds
  {
    OneByOneRun(Init(threads), rounds, 0);
    var run := OneByOne(0, threads, rounds);
    assert Legal(Init(threads), rounds, run) && Complete(Exec(Init(threads), rounds, run), rounds);
  }

  /**
    Thread 0 reads 0; the others run, but for the last round of thread 1;
    thread 0 writes 1; thread 1 reads that; thread 0 runs; thread 1 writes 2.
   */
  function Worst(threads: nat, rounds: nat): seq<nat>
    requires rounds >= 1
  {
    [0] + (Solo(1, rounds - 1) + (OneByOne(2, threads, rounds) + ([0, 1] + (Solo(0, rounds - 1) + [1]))))
  }

  lemma WorstEnd(s: State, rounds: nat)
    requires rounds >= 1 && |s.threads| >= 2
    requires s.threads[0] == Thread(0, Some(0)) && s.threads[1] == Thread(rounds - 1, None)
    ensures var run := [0, 1] + (Solo(0, rounds - 1) + [1]);
            && Legal(s, rounds, run)
            && Exec(s, rounds, run) == State(2, s.threads[0 := Thread(rounds, None)][1 := Thread(rounds, None)])
  {
    var s1 := Apply(s, rounds, 0);
    var s2 := Apply(s1, rounds, 1);
    SoloRun(s2, rounds, 0, rounds - 1);
    var s3 := After(s2, 0, rounds - 1);
    var s4 := Apply(s3, rounds, 1);
    OneStep(s3, rounds, 1);
    ExecAppend(s2, rounds, Solo(0, rounds - 1), [1]);
    OneStep(s, rounds, 0);
    OneStep(s1, rounds, 1);
    ExecAppend(s, rounds, [0], [1]);
    assert [0] + [1] == [0, 1];
    ExecAppend(s, rounds, [0, 1], Solo(0, rounds - 1) + [1]);
    assert s4.threads == s.threads[0 := Thread(rounds, None)][1 := Thread(rounds, None)];
  }

  lemma OneStep(s: State, rounds: nat, t: nat)
    requires Enabled(s, rounds, t)
    ensures Legal(s, rounds, [t]) && Exec(s, rounds, [t]) == Apply(s, rounds, t)
  {
    assert [t][1..] == [];
    assert Legal(Apply(s, rounds, t), rounds, []);
  }

  /** Two threads can lose all but two counts. */
  lemma LeastReached(threads: nat, rounds: nat)
    requires threads >= 2 && rounds >= 1
    ensures Legal(Init(threads), rounds, Worst(threads, rounds))
    ensures Complete(Exec(Init(threads), rounds, Worst(threads, rounds)), rounds)
    ensures Exec(Init(threads), rounds, Worst(threads, rounds)).counter == 2
  {
    var s := Init(threads);
    OneStep(s, rounds, 0);
    var s1 := Apply(s, rounds, 0);
    SoloRun(s1, rounds, 1, rounds - 1);
    var s2 := After(s1, 1, rounds - 1);
    OneByOneRun(s2, rounds, 2);
    var s3 := Exec(s2, rounds, OneByOne(2, threads, rounds));
    WorstEnd(s3, rounds);
    var tail := [0, 1] + (Solo(0, rounds - 1) + [1]);
    ExecAppend(s2, rounds, OneByOne(2, threads, rounds), tail);
    ExecAppend(s1, rounds, Solo(1, rounds - 1), OneByOne(2, threads, rounds) + tail);
    ExecAppend(s, rounds, [0], Solo(1, rounds - 1) + (OneByOne(2, threads, rounds) + tail));
  }
}
