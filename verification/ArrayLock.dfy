/**
  Anderson's array lock, and threads that count under it.  Every read and write
  of a shared variable is a step.  The 64-bit ticket counter is a natural
  number here; `Rollover` treats its wrap.  `line` and `entered` are history:
  the threads that hold tickets, in order, and the tickets that have got the lock.
 */
module ArrayLock {
  import opened CellNumbers

  type Tid = nat

  datatype PC =
    | Idle              // at the head of the worker loop
    | Spin(ticket: nat) // about to read its flag
    | Clear(ticket: nat)
    | Enter(ticket: nat)// about to set `curslot`
    | Read              // about to read `counter`
    | Write(seen: nat)
    | Leave             // about to read `curslot`
    | Pass(slot: nat)   // about to set the next flag
    | Tally             // about to count for itself
    | Done

  datatype State = State(
    size: nat, flag: seq<bool>, tail: nat, curslot: nat, counter: nat,
    pcs: seq<PC>, tcounters: seq<nat>,
    line: seq<Tid>, entered: seq<nat>)

  /** `test_common` makes the lock with as many slots as there are threads; more would do. */
  function Init(size: nat, threads: nat): State
    requires 0 < size
  {
    State(size, seq(size, i => i == 0), 0, 0, 0, seq(threads, _ => Idle), seq(threads, _ => 0), [], [])
  }

  datatype Action = Go(t: Tid) | Stop(t: Tid)

  predicate Enabled(s: State, a: Action) {
    && a.t < |s.pcs| == |s.tcounters| && 0 < s.size == |s.flag|
    && if a.Stop? then s.pcs[a.t].Idle? else !s.pcs[a.t].Done?
  }

  function At(s: State, t: Tid, pc: PC): State
    requires t < |s.pcs|
  {
    s.(pcs := s.pcs[t := pc])
  }

  function Apply(s: State, a: Action): State
    requires Enabled(s, a)
  {
    match a
    case Stop(t) => At(s, t, Done)
    case Go(t) =>
      match s.pcs[t]
      case Idle => At(s, t, Spin(s.tail)).(tail := s.tail + 1, line := s.line + [t])
      case Spin(ticket) => At(s, t, if s.flag[ticket % s.size] then Clear(ticket) else Spin(ticket))
      case Clear(ticket) => At(s, t, Enter(ticket)).(flag := s.flag[ticket % s.size := false])
      case Enter(ticket) => At(s, t, Read).(curslot := ticket % s.size, entered := s.entered + [ticket])
      case Read => At(s, t, Write(s.counter))
      case Write(seen) => At(s, t, Leave).(counter := seen + 1)
      case Leave => At(s, t, Pass(s.curslot))
      case Pass(slot) =>
        At(s, t, Tally).(flag := s.flag[(slot + 1) % s.size := true], line := if s.line == [] then [] else s.line[1..])
      case Tally => At(s, t, Idle).(tcounters := s.tcounters[t := s.tcounters[t] + 1])
      case Done => s
  }

  // ----- what every step keeps -----

  /** `lock` has returned and `unlock` has not yet passed the lock on. */
  predicate InSection(pc: PC) {
    pc.Read? || pc.Write? || pc.Leave? || pc.Pass?
  }

  /** The thread has added its one to `counter` and still has the lock. */
  predicate HasCounted(pc: PC) {
    pc.Leave? || pc.Pass?
  }

  /** The thread has found its flag set and has cleared it. */
  predicate PastFlag(pc: PC) {
    pc.Enter? || InSection(pc)
  }

  predicate HasTicket(pc: PC) {
    pc.Spin? || pc.Clear? || PastFlag(pc)
  }

  /** The ticket that is being served, or will be next. */
  function Serving(s: State): int {
    s.tail - |s.line|
  }

  ghost predicate LineOk(s: State) {
    && |s.line| <= s.tail
    && (forall i | 0 <= i < |s.line| :: s.line[i] < |s.pcs| && HasTicket(s.pcs[s.line[i]]))
    && (forall i, j | 0 <= i < j < |s.line| :: s.line[i] != s.line[j])
    && (forall t | 0 <= t < |s.pcs| && HasTicket(s.pcs[t]) :: t in s.line)
    && (forall i | 0 < i < |s.line| :: s.pcs[s.line[i]] == Spin(Serving(s) + i))
  }

  /** What the first in line is doing. */
  predicate FirstOk(s: State)
    requires 0 < s.size && |s.line| <= s.tail && s.line != [] && s.line[0] < |s.pcs|
  {
    var pc, slot := s.pcs[s.line[0]], Serving(s) % s.size;
    && (pc.Spin? || pc.Clear? || pc.Enter? ==> pc.ticket == Serving(s))
    && (InSection(pc) ==> s.curslot == slot)
    && (pc.Pass? ==> pc.slot == slot)
    && (pc.Write? ==> pc.seen == s.counter)
  }

  /** The one thread, if any, that has the lock. */
  predicate Locked(s: State) {
    s.line != [] && s.line[0] < |s.pcs| && PastFlag(s.pcs[s.line[0]])
  }

  /** One flag is set, for the next ticket, except while the lock is taken. */
  ghost predicate FlagsOk(s: State)
    requires 0 < s.size == |s.flag| && |s.line| <= s.tail
  {
    forall i | 0 <= i < s.size :: s.flag[i] <==> !Locked(s) && i == Serving(s) % s.size
  }

  function Sum(q: seq<nat>): nat {
    if q == [] then 0 else q[0] + Sum(q[1..])
  }

  /** What each thread has contributed to `counter`. */
  function Counted(s: State): (r: seq<nat>)
    requires |s.pcs| == |s.tcounters|
    ensures |r| == |s.pcs|
  {
    seq(|s.pcs|, t requires 0 <= t < |s.pcs| =>
      s.tcounters[t] + if s.pcs[t].Leave? || s.pcs[t].Pass? || s.pcs[t].Tally? then 1 else 0)
  }

  ghost predicate Inv(s: State) {
    && |s.pcs| == |s.tcounters| <= s.size == |s.flag| && 0 < s.size
    && LineOk(s)
    && (s.line != [] ==> FirstOk(s))
    && FlagsOk(s)
    && s.counter == Sum(Counted(s))
    && s.counter == Serving(s) + (if s.line != [] && HasCounted(s.pcs[s.line[0]]) then 1 else 0)
    && |s.entered| == Serving(s) + (if s.line != [] && InSection(s.pcs[s.line[0]]) then 1 else 0)
    && (forall k | 0 <= k < |s.entered| :: s.entered[k] == k)
  }

  // ----- arithmetic -----

  lemma {:induction false} SumUpdate(q: seq<nat>, i: nat, v: nat)
    requires i < |q|
    ensures Sum(q[i := v]) == Sum(q) - q[i] + v
  {
    if i > 0 {
      SumUpdate(q[1..], i - 1, v);
      assert q[i := v][1..] == q[1..][i - 1 := v];
    } else {
      assert q[i := v][1..] == q[1..];
    }
  }

  lemma {:induction false} SumZero(n: nat)
    ensures Sum(seq(n, _ => 0)) == 0
  {
    if n > 0 {
      assert seq(n, _ => 0)[1..] == seq(n - 1, _ => 0);
      SumZero(n - 1);
    }
  }

  /** Threads stand in line at most once each. */
  lemma LineFits(s: State)
    requires LineOk(s)
    ensures |s.line| <= |s.pcs|
  {
    DistinctFits(s.line, |s.pcs|);
  }

  lemma {:induction false} DistinctFits(q: seq<Tid>, n: nat)
    requires forall i | 0 <= i < |q| :: q[i] < n
    requires forall i, j | 0 <= i < j < |q| :: q[i] != q[j]
    ensures |q| <= n
  {
    if q != [] {
      assert q[0] < n;
      var k := n - 1;
      if k in q {
        var i :| 0 <= i < |q| && q[i] == k;
        DistinctFits(q[..i] + q[i + 1..], k);
      } else {
        DistinctFits(q, k);
      }
    }
  }

  // ----- the steps keep it -----

  lemma InitOk(size: nat, threads: nat)
    requires 0 < size && threads <= size
    ensures Inv(Init(size, threads))
  {
    SumZero(threads);
    assert Counted(Init(size, threads)) == seq(threads, _ => 0);
  }

  /** The step of `t` changes its own place only and leaves the line, the flags and the counts. */
  lemma QuietKeeps(s: State, s': State, t: Tid)
    requires Inv(s) && t < |s.pcs|
    requires s' == s.(pcs := s'.pcs) && |s'.pcs| == |s.pcs| && s'.pcs == s.pcs[t := s'.pcs[t]]
    requires HasTicket(s.pcs[t]) <==> HasTicket(s'.pcs[t])
    requires PastFlag(s.pcs[t]) <==> PastFlag(s'.pcs[t])
    requires InSection(s.pcs[t]) <==> InSection(s'.pcs[t])
    requires HasCounted(s.pcs[t]) <==> HasCounted(s'.pcs[t])
    requires HasTicket(s.pcs[t]) ==> s.line != [] && s.line[0] == t && FirstOk(s')
    requires Counted(s')[t] == Counted(s)[t]
    ensures Inv(s')
  {
    assert Counted(s') == Counted(s);
  }

  lemma FirstInLine(s: State, t: Tid)
    requires Inv(s) && t < |s.pcs| && (s.pcs[t].Clear? || PastFlag(s.pcs[t]))
    ensures s.line != [] && s.line[0] == t
  {
    var i :| 0 <= i < |s.line| && s.line[i] == t;
  }

  /** Only the next ticket finds its flag set: no two of the tickets that are out share a slot. */
  lemma FlagIsMine(s: State, t: Tid)
    requires Inv(s) && t < |s.pcs| && s.pcs[t].Spin? && s.flag[s.pcs[t].ticket % s.size]
    ensures s.line[0] == t && s.pcs[t].ticket == Serving(s) && !Locked(s)
  {
    LineFits(s);
    var i :| 0 <= i < |s.line| && s.line[i] == t;
    if i > 0 { CellsDiffer(Serving(s), Serving(s) + i, s.size); }
  }

  lemma TakeLine(s: State, t: Tid)
    requires Inv(s) && Enabled(s, Go(t)) && s.pcs[t].Idle?
    ensures t !in s.line && LineOk(Apply(s, Go(t)))
    ensures s.line != [] ==> Apply(s, Go(t)).line[0] == s.line[0]
  {
    hide Counted, FlagsOk;
    var s' := Apply(s, Go(t));
    assert t !in s.line;
    assert forall i | 0 <= i < |s.line| :: s'.line[i] == s.line[i];
    assert s'.line[|s.line|] == t;
  }

  lemma TakeKeeps(s: State, t: Tid)
    requires Inv(s) && Enabled(s, Go(t)) && s.pcs[t].Idle?
    ensures Inv(Apply(s, Go(t)))
  {
    TakeLine(s, t);
    assert Counted(Apply(s, Go(t))) == Counted(s);
    hide LineOk, Counted;
  }

  lemma ClearKeeps(s: State, t: Tid)
    requires Inv(s) && Enabled(s, Go(t)) && s.pcs[t].Clear?
    ensures Inv(Apply(s, Go(t)))
  {
    var s' := Apply(s, Go(t));
    FirstInLine(s, t);
    assert Counted(s') == Counted(s);
  }

  lemma EnterKeeps(s: State, t: Tid)
    requires Inv(s) && Enabled(s, Go(t)) && s.pcs[t].Enter?
    ensures Inv(Apply(s, Go(t)))
  {
    var s' := Apply(s, Go(t));
    FirstInLine(s, t);
    assert Counted(s') == Counted(s);
  }

  lemma WriteKeeps(s: State, t: Tid)
    requires Inv(s) && Enabled(s, Go(t)) && s.pcs[t].Write?
    ensures Inv(Apply(s, Go(t)))
  {
    var s' := Apply(s, Go(t));
    FirstInLine(s, t);
    assert Counted(s') == Counted(s)[t := Counted(s)[t] + 1];
    SumUpdate(Counted(s), t, Counted(s)[t] + 1);
  }

  lemma PassLine(s: State, t: Tid)
    requires Inv(s) && Enabled(s, Go(t)) && s.pcs[t].Pass?
    ensures s.line != [] && s.line[0] == t && LineOk(Apply(s, Go(t)))
    ensures |s.line| > 1 ==> Apply(s, Go(t)).pcs[s.line[1]] == Spin(Serving(s) + 1)
  {
    hide Counted, FlagsOk;
    var s' := Apply(s, Go(t));
    FirstInLine(s, t);
    forall i | 0 <= i < |s'.line| ensures s'.line[i] == s.line[i + 1] && s'.pcs[s'.line[i]] == Spin(Serving(s') + i) {
      assert s.line[0] != s.line[i + 1];
    }
    forall u | 0 <= u < |s'.pcs| && HasTicket(s'.pcs[u]) ensures u in s'.line {
      assert u in s.line;
    }
  }

  lemma PassKeeps(s: State, t: Tid)
    requires Inv(s) && Enabled(s, Go(t)) && s.pcs[t].Pass?
    ensures Inv(Apply(s, Go(t)))
  {
    PassLine(s, t);
    assert Counted(Apply(s, Go(t))) == Counted(s);
    hide LineOk, Counted;
    NextCell(Serving(s), s.size);
  }

  lemma TallyKeeps(s: State, t: Tid)
    requires Inv(s) && Enabled(s, Go(t)) && s.pcs[t].Tally?
    ensures Inv(Apply(s, Go(t)))
  {
    var s' := Apply(s, Go(t));
    assert t !in s.line;
    assert Counted(s') == Counted(s);
  }

  lemma StepKeeps(s: State, a: Action)
    requires Inv(s) && Enabled(s, a)
    ensures Inv(Apply(s, a))
  {
    var t, pc := a.t, s.pcs[a.t];
    if a.Stop? { QuietKeeps(s, Apply(s, a), t); }
    else if pc.Idle? { TakeKeeps(s, t); }
    else if pc.Spin? {
      if s.flag[pc.ticket % s.size] {
        FlagIsMine(s, t);
        QuietKeeps(s, Apply(s, a), t);
      } else {
        assert Apply(s, a) == s;
      }
    }
    else if pc.Clear? { ClearKeeps(s, t); }
    else if pc.Enter? { EnterKeeps(s, t); }
    else if pc.Write? { WriteKeeps(s, t); }
    else if pc.Pass? { PassKeeps(s, t); }
    else if pc.Tally? { TallyKeeps(s, t); }
    else {
      FirstInLine(s, t);
      QuietKeeps(s, Apply(s, a), t);
    }
  }

  // ----- runs -----

  predicate Legal(s: State, run: seq<Action>)
    decreases |run|
  {
    run == [] || (Enabled(s, run[0]) && Legal(Apply(s, run[0]), run[1..]))
  }

  function Exec(s: State, run: seq<Action>): State
    requires Legal(s, run)
    decreases |run|
  {
    if run == [] then s else Exec(Apply(s, run[0]), run[1..])
  }

  lemma {:induction false} RunKeeps(s: State, run: seq<Action>)
    requires Inv(s) && Legal(s, run)
    ensures Inv(Exec(s, run)) && Exec(s, run).size == s.size
    decreases |run|
  {
    hide Inv;
    if run != [] {
      StepKeeps(s, run[0]);
      RunKeeps(Apply(s, run[0]), run[1..]);
    }
  }

  /** At most one thread has the lock. */
  ghost predicate Exclusive(s: State) {
    forall t, u | 0 <= t < |s.pcs| && 0 <= u < |s.pcs| && PastFlag(s.pcs[t]) && PastFlag(s.pcs[u]) :: t == u
  }

  /**
    With no more threads than slots: after any run at most one thread has the
    lock, the lock has been got in ticket order, and either no flag is set,
    while someone has the lock, or just the flag of the first ticket that has
    not got it yet.
   */
  lemma MutualExclusion(size: nat, threads: nat, run: seq<Action>)
    requires 0 < size && threads <= size && Legal(Init(size, threads), run)
    ensures var s := Exec(Init(size, threads), run);
            && Exclusive(s)
            && s.entered == Numbers(|s.entered|)
            && (forall i | 0 <= i < |s.flag| ::
                  s.flag[i] <==> i == |s.entered| % size && forall t | 0 <= t < |s.pcs| :: !PastFlag(s.pcs[t]))
  {
    InitOk(size, threads);
    RunKeeps(Init(size, threads), run);
    var s := Exec(Init(size, threads), run);
    forall t | 0 <= t < |s.pcs| && PastFlag(s.pcs[t]) ensures s.line != [] && s.line[0] == t { FirstInLine(s, t); }
    assert s.entered == Numbers(|s.entered|);
  }

  /** When every thread is done, `counter` is the sum of what they have counted: one for each time the lock was got. */
  lemma NothingMiscounted(size: nat, threads: nat, run: seq<Action>)
    requires 0 < size && threads <= size && Legal(Init(size, threads), run)
    requires forall t | 0 <= t < |Exec(Init(size, threads), run).pcs| :: Exec(Init(size, threads), run).pcs[t].Done?
    ensures var s := Exec(Init(size, threads), run);
            s.counter == Sum(s.tcounters) == |s.entered| == s.tail
  {
    InitOk(size, threads);
    RunKeeps(Init(size, threads), run);
    var s := Exec(Init(size, threads), run);
    assert Counted(s) == s.tcounters;
  }

  /** A thread that reads a flag that is not set gets nowhere; all others get on with their next step. */
  predicate Blocked(s: State, t: Tid)
    requires t < |s.pcs|
  {
    s.pcs[t].Spin? && 0 < s.size == |s.flag| && !s.flag[s.pcs[t].ticket % s.size]
  }

  /** After any run some thread gets on, unless all are done: the first in line is never blocked. */
  lemma NeverStuck(size: nat, threads: nat, run: seq<Action>)
    requires 0 < size && threads <= size && Legal(Init(size, threads), run)
    ensures var s := Exec(Init(size, threads), run);
            (exists t :: 0 <= t < |s.pcs| && !s.pcs[t].Done?) ==>
              exists t :: 0 <= t < |s.pcs| && !s.pcs[t].Done? && Enabled(s, Go(t)) && !Blocked(s, t)
  {
    InitOk(size, threads);
    RunKeeps(Init(size, threads), run);
    var s := Exec(Init(size, threads), run);
    if u :| 0 <= u < |s.pcs| && !s.pcs[u].Done? {
      var t := if s.line == [] then u else s.line[0];
      assert HasTicket(s.pcs[u]) ==> u in s.line;
      assert Enabled(s, Go(t)) && !Blocked(s, t);
    }
  }

  function Rounds(t: Tid, k: nat): seq<Action> {
    if k == 0 then [] else [Go(t)] + Rounds(t, k - 1)
  }

  lemma OneMore(s: State, t: Tid, k: nat)
    requires 0 < k && Enabled(s, Go(t)) && Legal(Apply(s, Go(t)), Rounds(t, k - 1))
    ensures Legal(s, Rounds(t, k)) && Exec(s, Rounds(t, k)) == Exec(Apply(s, Go(t)), Rounds(t, k - 1))
  {
    assert Rounds(t, k)[0] == Go(t) && Rounds(t, k)[1..] == Rounds(t, k - 1);
  }

  /** A thread that has the lock and stands in line alone counts and passes the lock on. */
  lemma CountAlone(s: State, t: Tid)
    requires t < |s.pcs| == |s.tcounters| && 0 < s.size == |s.flag| && s.pcs[t].Read? && s.line == [t]
    ensures Legal(s, Rounds(t, 5))
    ensures var e := Exec(s, Rounds(t, 5));
            && e.pcs == s.pcs[t := Idle] && e.line == [] && e.tail == s.tail
            && e.counter == s.counter + 1 && e.tcounters == s.tcounters[t := s.tcounters[t] + 1]
  {
    var s1 := Apply(s, Go(t));
    var s2 := Apply(s1, Go(t));
    var s3 := Apply(s2, Go(t));
    var s4 := Apply(s3, Go(t));
    var s5 := Apply(s4, Go(t));
    assert Rounds(t, 0) == [] && Legal(s5, []) && Exec(s5, []) == s5;
    assert s5.pcs == s.pcs[t := Idle];
    OneMore(s4, t, 1);
    OneMore(s3, t, 2);
    OneMore(s2, t, 3);
    OneMore(s1, t, 4);
    OneMore(s, t, 5);
  }

  /** When nobody else wants the lock, a round takes nine steps and counts one. */
  lemma RoundAlone(s: State, t: Tid)
    requires Inv(s) && t < |s.pcs| && s.pcs[t].Idle? && s.line == []
    ensures Legal(s, Rounds(t, 9))
    ensures var e := Exec(s, Rounds(t, 9));
            && e.pcs == s.pcs && e.line == [] && e.tail == s.tail + 1
            && e.counter == s.counter + 1 && e.tcounters == s.tcounters[t := s.tcounters[t] + 1]
  {
    hide Inv;
    FreeFlag(s);
    var s1 := Apply(s, Go(t));
    var s2 := Apply(s1, Go(t));
    var s3 := Apply(s2, Go(t));
    var s4 := Apply(s3, Go(t));
    CountAlone(s4, t);
    assert s4.pcs[t := Idle] == s.pcs;
    OneMore(s3, t, 6);
    OneMore(s2, t, 7);
    OneMore(s1, t, 8);
    OneMore(s, t, 9);
  }

  lemma FreeFlag(s: State)
    requires Inv(s) && s.line == []
    ensures s.flag[s.tail % s.size] && |s.pcs| == |s.tcounters| && 0 < s.size == |s.flag|
  {
  }

  // ----- too many threads -----

  lemma {:induction false} ExecAppend(s: State, p: seq<Action>, q: seq<Action>)
    requires Legal(s, p) && Legal(Exec(s, p), q)
    ensures Legal(s, p + q) && Exec(s, p + q) == Exec(Exec(s, p), q)
    decreases |p|
  {
    if p == [] {
      assert p + q == q;
    } else {
      assert (p + q)[1..] == p[1..] + q;
      ExecAppend(Apply(s, p[0]), p[1..], q);
    }
  }

  lemma OneStep(s: State, a: Action)
    requires Enabled(s, a)
    ensures Legal(s, [a]) && Exec(s, [a]) == Apply(s, a)
  {
    assert [a][1..] == [];
    assert Legal(Apply(s, a), []);
  }

  /** Threads 0 to `k` - 1 take the tickets of their numbers. */
  function Takes(k: nat): seq<Action> {
    if k == 0 then [] else Takes(k - 1) + [Go(k - 1)]
  }

  ghost predicate Taken(s: State, size: nat, threads: nat, k: nat) {
    && k <= threads && |s.pcs| == |s.tcounters| == threads && s.tail == k
    && s.size == size == |s.flag| && (forall i | 0 <= i < size :: s.flag[i] <==> i == 0)
    && forall t | 0 <= t < threads :: s.pcs[t] == if t < k then Spin(t) else Idle
  }

  lemma {:induction false} TakesRun(size: nat, threads: nat, k: nat)
    requires 0 < size && k <= threads
    ensures Legal(Init(size, threads), Takes(k)) && Taken(Exec(Init(size, threads), Takes(k)), size, threads, k)
  {
    if k > 0 {
      TakesRun(size, threads, k - 1);
      var s := Exec(Init(size, threads), Takes(k - 1));
      OneStep(s, Go(k - 1));
      ExecAppend(Init(size, threads), Takes(k - 1), [Go(k - 1)]);
    }
  }

  /** Ticket `size` reads the flag of ticket 0 before that one has cleared it. */
  lemma TwoGetIn(s: State, size: nat, threads: nat)
    requires 0 < size < threads && Taken(s, size, threads, size + 1)
    ensures var run := [Go(0), Go(size), Go(0), Go(size)];
            && Legal(s, run) && var e := Exec(s, run);
               0 < size < |e.pcs| && PastFlag(e.pcs[0]) && PastFlag(e.pcs[size])
  {
    CellOf(1, 0, size);
    CellOf(0, 0, size);
    var s1 := Apply(s, Go(0));
    var s2 := Apply(s1, Go(size));
    var s3 := Apply(s2, Go(0));
    var s4 := Apply(s3, Go(size));
    OneStep(s, Go(0));
    OneStep(s1, Go(size));
    OneStep(s2, Go(0));
    OneStep(s3, Go(size));
    ExecAppend(s, [Go(0)], [Go(size)]);
    ExecAppend(s, [Go(0), Go(size)], [Go(0)]);
    ExecAppend(s, [Go(0), Go(size), Go(0)], [Go(size)]);
    assert [Go(0)] + [Go(size)] == [Go(0), Go(size)];
    assert [Go(0), Go(size)] + [Go(0)] == [Go(0), Go(size), Go(0)];
    assert [Go(0), Go(size), Go(0)] + [Go(size)] == [Go(0), Go(size), Go(0), Go(size)];
  }

  /** The lock excludes in every run exactly when it has a slot for every thread. */
  lemma SlotsNeeded(size: nat, threads: nat)
    requires 0 < size
    ensures (forall run | Legal(Init(size, threads), run) :: Exclusive(Exec(Init(size, threads), run)))
            <==> threads <= size
  {
    if threads <= size {
      forall run | Legal(Init(size, threads), run) ensures Exclusive(Exec(Init(size, threads), run)) {
        MutualExclusion(size, threads, run);
      }
    } else {
      TakesRun(size, threads, size + 1);
      var s, run := Exec(Init(size, threads), Takes(size + 1)), [Go(0), Go(size), Go(0), Go(size)];
      TwoGetIn(s, size, threads);
      ExecAppend(Init(size, threads), Takes(size + 1), run);
      assert Legal(Init(size, threads), Takes(size + 1) + run);
      assert !Exclusive(Exec(Init(size, threads), Takes(size + 1) + run));
    }
  }
}
