/** Runs of the lock-free stack, seen as operations of a plain sequential stack. */
module ReclamationHistory {
  import opened Chains
  import opened Reclamation
  import opened ReclamationInvariant
  import opened ReclamationSteps
  import opened ReclamationTheorems
  import opened Options
  import opened SequentialStack

  function DataOf(s: State, n: Addr): int {
    if n in s.mem then s.mem[n].data else 0
  }

  /** The data on the stack, from the top; `StackIsLifo` says that `stack` is what is linked from there. */
  function Contents(s: State): seq<int> {
    seq(|s.stack|, i requires 0 <= i < |s.stack| => DataOf(s, s.stack[i]))
  }

  /** The operation that takes effect in a step: at a successful CAS, and where `pop` reads a null head. */
  function Effect(s: State, a: Action): seq<Op<int>>
    requires Enabled(s, a)
  {
    match a
    case Go(t) =>
      (match s.threads[t].pc
       case PushCas(n, seen) => if s.top == seen then [Push(DataOf(s, n))] else []
       case PopCas(n, _) => if s.top == n then [Pop(DataOf(s, n))] else []
       case PopTest => if s.top == NULL then [PopEmpty] else []
       case _ => [])
    case Drain => [Pop(DataOf(s, s.top))]
    case _ => []
  }

  function History(s: State, run: seq<Action>): seq<Op<int>>
    requires Legal(s, run)
    decreases |run|
  {
    if run == [] then [] else Effect(s, run[0]) + History(Apply(s, run[0]), run[1..])
  }

  // ----- no ABA -----

  /**
    A pop whose CAS succeeds removes the node that is on top now, and installs
    the node that is second now, although both were read earlier.
   */
  lemma PopInstallsSuccessor(s: State, t: Tid)
    requires Inv(s) && t in s.threads
    requires s.threads[t].pc.PopCas? && s.threads[t].pc.n == s.top
    ensures s.stack != [] && s.stack[0] == s.threads[t].pc.n
    ensures s.threads[t].pc.succ == EntryAt(s.stack, 1)
  {
    assert HeldOk(s, t) && PcOk(s, t);
    assert s.mem[s.stack[0]].next == EntryAt(s.stack, 1);
  }

  // ----- refinement -----

  /** Steps that leave the stack alone leave the data on it alone. */
  lemma ContentsSame(s: State, s': State)
    requires s'.stack == s.stack
    requires forall n | n in s.stack :: n in s.mem && n in s'.mem && s'.mem[n].data == s.mem[n].data
    ensures Contents(s') == Contents(s)
  {
  }

  lemma DataKept(s: State, a: Action, n: Addr)
    requires Enabled(s, a)
    requires n in s.mem && n in Apply(s, a).mem
    requires a.Recycle? ==> s.threads[a.t].clean[0] != n
    ensures Apply(s, a).mem[n].data == s.mem[n].data
  {
  }

  predicate MovesStack(s: State, a: Action) {
    || a.Drain?
    || (a.Go? && a.t in s.threads
        && var pc := s.threads[a.t].pc;
           (pc.PushCas? && pc.seen == s.top) || (pc.PopCas? && pc.n == s.top))
  }

  lemma OtherStepsKeepStack(s: State, a: Action)
    requires Enabled(s, a) && !MovesStack(s, a)
    ensures Apply(s, a).stack == s.stack
  {
  }

  lemma QuietContents(s: State, a: Action)
    requires Inv(s) && Enabled(s, a) && Harmless(s, a) && !MovesStack(s, a)
    ensures Contents(Apply(s, a)) == Contents(s)
  {
    var s' := Apply(s, a);
    StepKeeps(s, a);
    OtherStepsKeepStack(s, a);
    forall n | n in s.stack ensures n in s.mem && n in s'.mem && s'.mem[n].data == s.mem[n].data {
      assert n in s'.stack;
      if a.Recycle? { assert CleanOk(s, a.t); }
      DataKept(s, a, n);
    }
    ContentsSame(s, s');
  }

  lemma ContentsCons(s: State, s': State, n: Addr)
    requires s'.stack == [n] + s.stack
    requires forall m | m in s.stack :: DataOf(s', m) == DataOf(s, m)
    ensures Contents(s') == [DataOf(s', n)] + Contents(s)
  {
    forall i | 0 <= i < |s.stack| ensures DataOf(s', s'.stack[i + 1]) == DataOf(s, s.stack[i]) {
      assert s.stack[i] in s.stack;
    }
  }

  lemma PushContents(s: State, t: Tid)
    requires StackOk(s) && CanGo(s, t) && s.threads[t].pc.PushCas? && s.threads[t].pc.seen == s.top
    requires PcOk(s, t)
    ensures Contents(GoPush(s, t)) == [DataOf(s, s.threads[t].pc.n)] + Contents(s)
  {
    hide Contents;
    ContentsCons(s, GoPush(s, t), s.threads[t].pc.n);
  }

  lemma PopContents(s: State, t: Tid)
    requires StackOk(s) && CanGo(s, t) && s.threads[t].pc.PopCas? && s.threads[t].pc.n == s.top
    requires s.stack != []
    ensures Contents(s)[0] == DataOf(s, s.top) && Contents(GoPop(s, t)) == Contents(s)[1..]
  {
  }

  lemma DrainContents(s: State)
    requires StackOk(s) && Enabled(s, Drain)
    ensures Contents(s) != [] && Contents(s)[0] == DataOf(s, s.top) && Contents(DoDrain(s)) == Contents(s)[1..]
  {
    DrainStack(s);
  }

  /** Each step either does nothing to the sequential stack or performs exactly one legal operation on it. */
  lemma StepRefines(s: State, a: Action)
    requires Inv(s) && Enabled(s, a) && Harmless(s, a)
    ensures Replay(Contents(s), Effect(s, a)) == Some(Contents(Apply(s, a)))
  {
    if a.Drain? {
      DrainContents(s);
    } else if MovesStack(s, a) {
      if s.threads[a.t].pc.PushCas? {
        PushContents(s, a.t);
      } else {
        PopInstallsSuccessor(s, a.t);
        PopContents(s, a.t);
      }
    } else {
      QuietContents(s, a);
    }
  }

  lemma {:induction false} RunRefines(s: State, run: seq<Action>)
    requires Inv(s) && Legal(s, run) && Calm(s, run)
    ensures Replay(Contents(s), History(s, run)) == Some(Contents(Exec(s, run)))
    decreases |run|
  {
    if run != [] {
      StepRefines(s, run[0]);
      StepKeeps(s, run[0]);
      RunRefines(Apply(s, run[0]), run[1..]);
      ReplayAppend(Contents(s), Effect(s, run[0]), History(Apply(s, run[0]), run[1..]));
    }
  }

  /** The pushes and pops of a calm run, in the order they take effect, are a history of a sequential stack. */
  lemma StackIsLifo(workers: nat, run: seq<Action>)
    requires Legal(Init(workers), run) && Calm(Init(workers), run)
    ensures var s := Exec(Init(workers), run);
            && Replay([], History(Init(workers), run)) == Some(Contents(s))
            && Linked(s.mem, s.top, s.stack) && forall q | Linked(s.mem, s.top, q) :: q == s.stack
  {
    InitOk(workers);
    RunRefines(Init(workers), run);
    CalmRunKeeps(Init(workers), run);
    var s := Exec(Init(workers), run);
    forall q | Linked(s.mem, s.top, q) ensures q == s.stack { LinkedUnique(s.mem, s.top, q, s.stack); }
  }

  /** With at most two workers this holds of every run. */
  lemma TwoWorkersLifo(workers: nat, run: seq<Action>)
    requires workers <= 2 && Legal(Init(workers), run)
    ensures var s := Exec(Init(workers), run);
            && Replay([], History(Init(workers), run)) == Some(Contents(s))
            && Linked(s.mem, s.top, s.stack) && forall q | Linked(s.mem, s.top, q) :: q == s.stack
  {
    TwoWorkersAlwaysCalm(workers, run);
    StackIsLifo(workers, run);
  }

  // ----- data -----

  /** Throughout the run `t` has node `n` in hand and has not linked it. */
  predicate StillPushing(s: State, run: seq<Action>, t: Tid, n: Addr)
    requires Legal(s, run)
    decreases |run|
  {
    && t in s.threads && HandOf(s.threads[t].pc) == n
    && (run == [] || StillPushing(Apply(s, run[0]), run[1..], t, n))
  }

  /** What `push` links is what `alloc` put in the node, however long the push is retried. */
  lemma {:induction false} PushKeepsItsData(s: State, run: seq<Action>, t: Tid, n: Addr)
    requires Inv(s) && Legal(s, run) && Calm(s, run) && n != NULL
    requires StillPushing(s, run, t, n)
    ensures n in s.mem && n in Exec(s, run).mem
    ensures DataOf(Exec(s, run), n) == DataOf(s, n)
    decreases |run|
  {
    assert PcOk(s, t);
    if run != [] {
      var s' := Apply(s, run[0]);
      StepKeeps(s, run[0]);
      assert PcOk(s', t);
      if run[0].Recycle? { assert CleanOk(s, run[0].t); }
      DataKept(s, run[0], n);
      PushKeepsItsData(s', run[1..], t, n);
    }
  }
}
