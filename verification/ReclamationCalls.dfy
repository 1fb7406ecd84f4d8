/** Each call of `push` or `pop` takes effect once, in order, and a push with the data it was called with. */
module ReclamationCalls {
  import opened Reclamation
  import opened ReclamationInvariant
  import opened ReclamationSteps
  import opened ReclamationTheorems
  import opened ReclamationHistory
  import opened Options
  import opened SequentialStack

  datatype Call = PushCall(data: int) | PopCall

  /** The calls that `t` makes in the run. */
  function CallsBy(run: seq<Action>, t: Tid): seq<Call> {
    if run == [] then [] else CallOf(run[0], t) + CallsBy(run[1..], t)
  }

  function CallOf(a: Action, t: Tid): seq<Call> {
    match a
    case Recycle(u, data) => if u == t then [PushCall(data)] else []
    case Fresh(u, data, _) => if u == t then [PushCall(data)] else []
    case StartPop(u) => if u == t then [PopCall] else []
    case _ => []
  }

  /** An operation of the history and who performed it; the drain is nobody's. */
  datatype Entry = Entry(who: Option<Tid>, op: Op<int>)

  function Entries(s: State, a: Action): seq<Entry>
    requires Enabled(s, a)
  {
    seq(|Effect(s, a)|, i requires 0 <= i < |Effect(s, a)| => Entry(if a.Go? then Some(a.t) else None, Effect(s, a)[i]))
  }

  function Log(s: State, run: seq<Action>): seq<Entry>
    requires Legal(s, run)
    decreases |run|
  {
    if run == [] then [] else Entries(s, run[0]) + Log(Apply(s, run[0]), run[1..])
  }

  function OpsIn(log: seq<Entry>): seq<Op<int>> {
    if log == [] then [] else [log[0].op] + OpsIn(log[1..])
  }

  /** The operations of `t`, in order. */
  function OpsOf(log: seq<Entry>, t: Tid): seq<Op<int>> {
    if log == [] then [] else (if log[0].who == Some(t) then [log[0].op] else []) + OpsOf(log[1..], t)
  }

  lemma {:induction false} OpsInAppend(p: seq<Entry>, q: seq<Entry>)
    ensures OpsIn(p + q) == OpsIn(p) + OpsIn(q)
  {
    if p == [] {
      assert p + q == q;
    } else {
      assert (p + q)[0] == p[0] && (p + q)[1..] == p[1..] + q;
      OpsInAppend(p[1..], q);
    }
  }

  lemma {:induction false} OpsOfAppend(p: seq<Entry>, q: seq<Entry>, t: Tid)
    ensures OpsOf(p + q, t) == OpsOf(p, t) + OpsOf(q, t)
  {
    if p == [] {
      assert p + q == q;
    } else {
      assert (p + q)[0] == p[0] && (p + q)[1..] == p[1..] + q;
      OpsOfAppend(p[1..], q, t);
      var own := if p[0].who == Some(t) then [p[0].op] else [];
      assert OpsOf(p + q, t) == own + (OpsOf(p[1..], t) + OpsOf(q, t));
      assert OpsOf(p, t) == own + OpsOf(p[1..], t);
    }
  }

  /** What `t` itself does in a step. */
  function OwnEffect(s: State, a: Action, t: Tid): seq<Op<int>>
    requires Enabled(s, a)
  {
    if a == Go(t) then Effect(s, a) else []
  }

  lemma EntriesAre(s: State, a: Action, t: Tid)
    requires Enabled(s, a)
    ensures OpsIn(Entries(s, a)) == Effect(s, a) && OpsOf(Entries(s, a), t) == OwnEffect(s, a, t)
  {
    if Effect(s, a) != [] {
      assert |Effect(s, a)| == 1;
      assert Entries(s, a)[1..] == [];
    }
  }

  /** Without the names the log is the history. */
  lemma {:induction false} LogIsHistory(s: State, run: seq<Action>)
    requires Legal(s, run)
    ensures OpsIn(Log(s, run)) == History(s, run)
    decreases |run|
  {
    if run != [] {
      LogIsHistory(Apply(s, run[0]), run[1..]);
      OpsInAppend(Entries(s, run[0]), Log(Apply(s, run[0]), run[1..]));
      EntriesAre(s, run[0], 0);
    }
  }

  /** The call that an operation answers. */
  function Answer(op: Op<int>): Call {
    match op
    case Push(x) => PushCall(x)
    case Pop(_) => PopCall
    case PopEmpty => PopCall
  }

  function Answers(ops: seq<Op<int>>): (r: seq<Call>)
    ensures |r| == |ops|
  {
    seq(|ops|, i requires 0 <= i < |ops| => Answer(ops[i]))
  }

  /** The call of `t` that has not taken effect yet. */
  function Pending(s: State, t: Tid): seq<Call> {
    if t !in s.threads then []
    else match s.threads[t].pc
         case PushRead(n) => [PushCall(DataOf(s, n))]
         case PushLink(n, _) => [PushCall(DataOf(s, n))]
         case PushCas(n, _) => [PushCall(DataOf(s, n))]
         case PopTest => [PopCall]
         case PopRead => [PopCall]
         case PopNext(_) => [PopCall]
         case PopCas(_, _) => [PopCall]
         case _ => []
  }

  lemma OthersPending(s: State, a: Action, t: Tid)
    requires Inv(s) && Enabled(s, a) && Harmless(s, a) && t in s.threads && (a.Drain? || a.t != t)
    ensures Pending(Apply(s, a), t) == Pending(s, t)
  {
    var n := HandOf(s.threads[t].pc);
    StepKeepsOthers(s, a, t);
    if n != NULL {
      StepKeeps(s, a);
      assert PcOk(s, t) && PcOk(Apply(s, a), t);
      if a.Recycle? { assert CleanOk(s, a.t); }
      DataKept(s, a, n);
    }
  }

  lemma StackKeepsOthers(s: State, u: Tid, t: Tid)
    requires CanGo(s, u) && t in s.threads && u != t
    ensures t in GoRegister(s, u).threads && GoRegister(s, u).threads[t] == s.threads[t]
    ensures t in GoPush(s, u).threads && GoPush(s, u).threads[t] == s.threads[t]
    ensures t in GoPop(s, u).threads && GoPop(s, u).threads[t] == s.threads[t]
  {
  }

  lemma ListsKeepOthers(s: State, u: Tid, t: Tid)
    requires CanGo(s, u) && t in s.threads && u != t
    ensures t in GoScan(s, u).threads && GoScan(s, u).threads[t] == s.threads[t]
    ensures t in GoClean(s, u).threads && GoClean(s, u).threads[t] == s.threads[t]
    ensures t in GoSweep(s, u).threads && GoSweep(s, u).threads[t] == s.threads[t]
    ensures t in GoDereg(s, u).threads && GoDereg(s, u).threads[t] == s.threads[t]
  {
  }

  lemma StepKeepsOthers(s: State, a: Action, t: Tid)
    requires Enabled(s, a) && t in s.threads && (a.Drain? || a.t != t)
    ensures t in Apply(s, a).threads && Apply(s, a).threads[t] == s.threads[t]
  {
    if a.Go? {
      StackKeepsOthers(s, a.t, t);
      ListsKeepOthers(s, a.t, t);
      hide GoRegister, GoPush, GoPop, GoScan, GoClean, GoSweep, GoDereg;
    }
  }

  lemma PushPending(s: State, t: Tid)
    requires CanGo(s, t) && (s.threads[t].pc.PushRead? || s.threads[t].pc.PushLink? || s.threads[t].pc.PushCas?)
    ensures Pending(s, t) == Answers(Effect(s, Go(t))) + Pending(GoPush(s, t), t)
  {
  }

  lemma PopPending(s: State, t: Tid)
    requires CanGo(s, t)
    requires var pc := s.threads[t].pc; pc.PopTest? || pc.PopRead? || pc.PopNext? || pc.PopCas?
    ensures Pending(s, t) == Answers(Effect(s, Go(t))) + Pending(GoPop(s, t), t)
  {
  }

  /** Outside its calls a worker has nothing pending and does nothing to the stack. */
  predicate Outside(pc: PC) {
    || pc.Outside? || pc.RegAppend? || pc.Idle? || pc.Pushed? || pc.CleanFetch? || pc.CleanStore? || pc.ScanLock?
    || pc.Scan? || pc.ScanAssign? || pc.Decide? || pc.Sweep? || pc.SweepFetch? || pc.SweepStore? || pc.Enlist?
    || pc.DeregTest? || pc.DeregLeave? || pc.Destroy? || pc.Done?
  }

  lemma StaysOutside(s: State, t: Tid)
    requires CanGo(s, t) && Outside(s.threads[t].pc)
    ensures t in GoStep(s, t).threads && Outside(GoStep(s, t).threads[t].pc) && Effect(s, Go(t)) == []
  {
  }

  lemma OwnPending(s: State, t: Tid)
    requires CanGo(s, t)
    ensures Pending(s, t) == Answers(Effect(s, Go(t))) + Pending(GoStep(s, t), t)
  {
    if Outside(s.threads[t].pc) {
      StaysOutside(s, t);
    } else if s.threads[t].pc.PushRead? || s.threads[t].pc.PushLink? || s.threads[t].pc.PushCas? {
      PushPending(s, t);
    } else {
      PopPending(s, t);
    }
    hide GoRegister, GoPush, GoPop, GoScan, GoClean, GoSweep, GoDereg;
  }

  /** A step answers a call exactly when it takes effect. */
  lemma StepAnswers(s: State, a: Action, t: Tid)
    requires Inv(s) && Enabled(s, a) && Harmless(s, a)
    ensures Pending(s, t) + CallOf(a, t) == Answers(OwnEffect(s, a, t)) + Pending(Apply(s, a), t)
  {
    hide Inv, Harmless, GoStep;
    if t !in s.threads {
      StepKeepsIds(s, a);
    } else if a.Drain? || a.t != t {
      OthersPending(s, a, t);
    } else if a.Go? {
      OwnPending(s, t);
    }
  }

  lemma {:induction false} RunAnswers(s: State, run: seq<Action>, t: Tid)
    requires Inv(s) && Legal(s, run) && Calm(s, run)
    ensures Pending(s, t) + CallsBy(run, t) == Answers(OpsOf(Log(s, run), t)) + Pending(Exec(s, run), t)
    decreases |run|
  {
    if run != [] {
      var a, s' := run[0], Apply(s, run[0]);
      StepAnswers(s, a, t);
      StepKeeps(s, a);
      RunAnswers(s', run[1..], t);
      OpsOfAppend(Entries(s, a), Log(s', run[1..]), t);
      EntriesAre(s, a, t);
      Rearranged(Pending(s, t), CallOf(a, t), CallsBy(run[1..], t), OwnEffect(s, a, t), Pending(s', t),
                 OpsOf(Log(s', run[1..]), t), Pending(Exec(s, run), t));
    }
  }

  lemma Rearranged(p: seq<Call>, c: seq<Call>, cs: seq<Call>, o: seq<Op<int>>, p': seq<Call>, os: seq<Op<int>>, e: seq<Call>)
    requires p + c == Answers(o) + p' && p' + cs == Answers(os) + e
    ensures p + (c + cs) == Answers(o + os) + e
  {
    assert p + (c + cs) == (p + c) + cs;
    assert (Answers(o) + p') + cs == Answers(o) + (p' + cs);
    assert Answers(o + os) == Answers(o) + Answers(os);
  }

  /**
    In a calm run the operations of a thread in the history answer its calls one
    by one, in order: a push takes effect once, with the data it was called
    with, and a pop once, as a pop.  At most the last call is still to be answered.
   */
  lemma CallsTakeEffect(workers: nat, run: seq<Action>, t: Tid)
    requires Legal(Init(workers), run) && Calm(Init(workers), run)
    ensures OpsIn(Log(Init(workers), run)) == History(Init(workers), run)
    ensures CallsBy(run, t) == Answers(OpsOf(Log(Init(workers), run), t)) + Pending(Exec(Init(workers), run), t)
    ensures |Pending(Exec(Init(workers), run), t)| <= 1
  {
    InitOk(workers);
    LogIsHistory(Init(workers), run);
    RunAnswers(Init(workers), run, t);
  }

  /** With at most two workers this holds of every run. */
  lemma TwoWorkersCalls(workers: nat, run: seq<Action>, t: Tid)
    requires workers <= 2 && Legal(Init(workers), run)
    ensures CallsBy(run, t) == Answers(OpsOf(Log(Init(workers), run), t)) + Pending(Exec(Init(workers), run), t)
  {
    TwoWorkersAlwaysCalm(workers, run);
    CallsTakeEffect(workers, run, t);
  }

  /** A push reuses the first node of the clean list, and takes one from the heap, counting it, exactly if that list is empty. */
  lemma ReusesFirst(s: State, t: Tid, data: int)
    requires Inv(s) && IsIdle(s, t)
    ensures Enabled(s, Recycle(t, data)) <==> s.threads[t].clean != []
    ensures (exists a :: Enabled(s, Fresh(t, data, a))) ==> s.threads[t].clean == []
    ensures forall a | Enabled(s, Fresh(t, data, a)) ::
              var e := Apply(s, Fresh(t, data, a));
              && HandOf(e.threads[t].pc) == a && a !in s.mem && a in e.mem && e.mem[a].data == data
              && e.threads[t].allocs == s.threads[t].allocs + 1 && e.threads[t].clean == []
    ensures s.threads[t].clean != [] ==>
              var n, e := s.threads[t].clean[0], Apply(s, Recycle(t, data));
              && HandOf(e.threads[t].pc) == n && n in e.mem && e.mem[n].data == data && e.mem[n].next == NULL
              && e.threads[t].allocs == s.threads[t].allocs && [n] + e.threads[t].clean == s.threads[t].clean
  {
    assert ThreadOk(s, t);
  }
}
