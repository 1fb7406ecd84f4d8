/**
  What the elimination stack is to its callers: a stack of nodes, a hand for
  each thread, and trades between hands.  Two pushes that meet swap their nodes,
  so a push may end with another push's node on the stack; a push and a pop that
  meet hand the node over.
 */
module TradingStack {
  import opened Chains
  import opened Options
  import opened SequentialStack

  type Addr = nat
  type Tid = nat

  const NULL: Addr := 0

  /** `poppers` are the threads inside a pop, `out` the nodes that pops have returned. */
  datatype Abs = Abs(stack: seq<Addr>, hands: map<Tid, Addr>, poppers: set<Tid>, out: set<Addr>)

  datatype Event =
    | Silent
    | Alloc(t: Tid, n: Addr)  // a push starts with a new node in hand
    | BeginPop(t: Tid)
    | PushHand(t: Tid)        // the node in hand goes on top
    | PopTop(t: Tid)          // the top node goes to the caller
    | PopNull(t: Tid)         // the caller is told that the stack is empty
    | Swap(t: Tid, u: Tid)    // two hands trade
    | Deliver(t: Tid)         // the node in hand goes to the caller

  predicate Known(a: Abs, n: Addr) {
    n in a.stack || n in a.out || n in a.hands.Values
  }

  /** A push has a node in hand until it lands, a pop has none until it gets one. */
  predicate MayTrade(a: Abs, t: Tid) {
    t in a.hands && (a.hands[t] == NULL <==> t in a.poppers)
  }

  predicate Allowed(a: Abs, e: Event) {
    match e
    case Silent => true
    case Alloc(t, n) => t in a.hands && t !in a.poppers && a.hands[t] == NULL && n != NULL && !Known(a, n)
    case BeginPop(t) => t in a.hands && t !in a.poppers && a.hands[t] == NULL
    case PushHand(t) => t in a.hands && t !in a.poppers && a.hands[t] != NULL
    case PopTop(t) => t in a.poppers && MayTrade(a, t) && a.stack != []
    case PopNull(t) => t in a.poppers && MayTrade(a, t) && a.stack == []
    case Swap(t, u) => t != u && MayTrade(a, t) && MayTrade(a, u)
    case Deliver(t) => t in a.poppers && t in a.hands && a.hands[t] != NULL
  }

  function Happen(a: Abs, e: Event): Abs
    requires Allowed(a, e)
  {
    match e
    case Silent => a
    case Alloc(t, n) => a.(hands := a.hands[t := n])
    case BeginPop(t) => a.(poppers := a.poppers + {t})
    case PushHand(t) => a.(stack := [a.hands[t]] + a.stack, hands := a.hands[t := NULL])
    case PopTop(t) => a.(stack := a.stack[1..], out := a.out + {a.stack[0]}, poppers := a.poppers - {t})
    case PopNull(t) => a.(poppers := a.poppers - {t})
    case Swap(t, u) => a.(hands := a.hands[t := a.hands[u]][u := a.hands[t]])
    case Deliver(t) =>
      a.(hands := a.hands[t := NULL], out := a.out + {a.hands[t]}, poppers := a.poppers - {t})
  }

  predicate Legal(a: Abs, events: seq<Event>)
    decreases |events|
  {
    events == [] || (Allowed(a, events[0]) && Legal(Happen(a, events[0]), events[1..]))
  }

  function Run(a: Abs, events: seq<Event>): Abs
    requires Legal(a, events)
    decreases |events|
  {
    if events == [] then a else Run(Happen(a, events[0]), events[1..])
  }

  // ----- no node is lost or duplicated -----

  /** Every node is in one place: once on the stack, or in one hand, or out for good. */
  ghost predicate Disjoint(a: Abs) {
    && Distinct(a.stack) && NULL !in a.stack && NULL !in a.out
    && (forall n | n in a.stack :: n !in a.out)
    && (forall t | t in a.hands && a.hands[t] != NULL :: a.hands[t] !in a.stack && a.hands[t] !in a.out)
    && (forall t, u | t in a.hands && u in a.hands && t != u && a.hands[t] != NULL :: a.hands[t] != a.hands[u])
  }

  lemma HappenKeepsDisjoint(a: Abs, e: Event)
    requires Disjoint(a) && Allowed(a, e)
    ensures Disjoint(Happen(a, e))
  {
  }

  lemma KnownKept(a: Abs, e: Event, n: Addr)
    requires n != NULL && Known(a, n) && Allowed(a, e)
    ensures Known(Happen(a, e), n)
  {
    var a' := Happen(a, e);
    if n in a.hands.Values {
      var v :| v in a.hands && a.hands[v] == n;
      match e
      case Alloc(t, _) => assert a'.hands[v] == n;
      case PushHand(t) => if v != t { assert a'.hands[v] == n; } else { assert a'.stack[0] == n; }
      case Swap(t, u) => assert a'.hands[if v == t then u else if v == u then t else v] == n;
      case Deliver(t) => if v != t { assert a'.hands[v] == n; }
      case _ =>
    } else if n in a.stack {
      match e
      case PushHand(_) => assert a'.stack == [a'.stack[0]] + a.stack;
      case PopTop(_) => assert a.stack == [a.stack[0]] + a'.stack;
      case _ =>
    }
  }

  // ----- last in, first out -----

  /** What an event means on a sequential stack.  A push that meets a pop is followed at once by that pop. */
  function Ops(a: Abs, e: Event): seq<Op<Addr>>
    requires Allowed(a, e)
  {
    match e
    case PushHand(t) => [Push(a.hands[t])]
    case PopTop(_) => [Pop(a.stack[0])]
    case PopNull(_) => [PopEmpty]
    case Swap(t, u) => Meeting(a.hands[t], a.hands[u])
    case _ => []
  }

  function Meeting(x: Addr, y: Addr): seq<Op<Addr>> {
    if x != NULL && y == NULL then [Push(x), Pop(x)]
    else if x == NULL && y != NULL then [Push(y), Pop(y)]
    else []
  }

  function History(a: Abs, events: seq<Event>): seq<Op<Addr>>
    requires Legal(a, events)
    decreases |events|
  {
    if events == [] then [] else Ops(a, events[0]) + History(Happen(a, events[0]), events[1..])
  }

  lemma MeetingLeavesStack(c: seq<Addr>, x: Addr, y: Addr)
    ensures Replay(c, Meeting(x, y)) == Some(c)
  {
    var z: Addr := if x != NULL then x else y;
    var ops: seq<Op<Addr>> := [Push(z), Pop(z)];
    assert ops[1..] == [Pop(z)] && ([z] + c)[1..] == c;
    assert Replay([z] + c, [Pop(z)]) == Some(c);
    assert Replay(c, ops) == Some(c);
  }

  lemma HappenIsLifo(a: Abs, e: Event)
    requires Allowed(a, e)
    ensures Replay(a.stack, Ops(a, e)) == Some(Happen(a, e).stack)
  {
    if e.Swap? { MeetingLeavesStack(a.stack, a.hands[e.t], a.hands[e.u]); }
  }

  lemma {:induction false} RunIsLifo(a: Abs, events: seq<Event>)
    requires Legal(a, events)
    ensures Replay(a.stack, History(a, events)) == Some(Run(a, events).stack)
    decreases |events|
  {
    if events != [] {
      HappenIsLifo(a, events[0]);
      RunIsLifo(Happen(a, events[0]), events[1..]);
      ReplayAppend(a.stack, Ops(a, events[0]), History(Happen(a, events[0]), events[1..]));
    }
  }

  // ----- once only -----

  /** The node has left the stack for good: it was returned, or a pop has it in hand. */
  predicate Left(a: Abs, n: Addr) {
    n in a.out || exists t :: t in a.poppers && t in a.hands && a.hands[t] == n
  }

  predicate Landed(a: Abs, n: Addr) {
    n in a.stack || Left(a, n)
  }

  lemma HappenLeaves(a: Abs, e: Event, n: Addr)
    requires Disjoint(a) && Allowed(a, e) && n != NULL
    ensures Left(a, n) ==> Left(Happen(a, e), n)
    ensures Pop(n) in Ops(a, e) ==> !Left(a, n) && Left(Happen(a, e), n)
  {
    var a' := Happen(a, e);
    if Left(a, n) && n !in a.out {
      var t :| t in a.poppers && t in a.hands && a.hands[t] == n;
      if e != Deliver(t) { assert t in a'.poppers && a'.hands[t] == n; }
    }
    if Pop(n) in Ops(a, e) && e.Swap? {
      var u := if a.hands[e.t] == NULL then e.t else e.u;
      assert u in a'.poppers && a'.hands[u] == n;
    }
  }

  lemma HappenLands(a: Abs, e: Event, n: Addr)
    requires Disjoint(a) && Allowed(a, e) && n != NULL
    ensures Landed(a, n) ==> Landed(Happen(a, e), n)
    ensures Push(n) in Ops(a, e) ==> !Landed(a, n) && Landed(Happen(a, e), n)
  {
    HappenLeaves(a, e, n);
    var a' := Happen(a, e);
    if n in a.stack {
      if e.PopTop? { assert a.stack == [a.stack[0]] + a'.stack; }
      if e.PushHand? { assert a'.stack == [a'.stack[0]] + a.stack; }
    }
    if Push(n) in Ops(a, e) && e.PushHand? { assert a'.stack[0] == n; }
    if Push(n) in Ops(a, e) && e.Swap? { assert Pop(n) in Ops(a, e); }
  }

  /** A node that has left is not popped again, and one that has landed is not pushed again. */
  lemma {:induction false} NeverAgain(a: Abs, events: seq<Event>, n: Addr)
    requires Disjoint(a) && Legal(a, events) && n != NULL
    ensures Left(a, n) ==> Pop(n) !in History(a, events)
    ensures Landed(a, n) ==> Push(n) !in History(a, events)
    decreases |events|
  {
    if events != [] {
      HappenLeaves(a, events[0], n);
      HappenLands(a, events[0], n);
      HappenKeepsDisjoint(a, events[0]);
      NeverAgain(Happen(a, events[0]), events[1..], n);
    }
  }

  /** No push and no pop of the same node happens twice. */
  lemma {:induction false} OnceOnly(a: Abs, events: seq<Event>, i: nat, j: nat)
    requires Disjoint(a) && Legal(a, events)
    requires i < j < |History(a, events)| && !History(a, events)[i].PopEmpty?
    ensures History(a, events)[i] != History(a, events)[j]
    decreases |events|
  {
    var h := History(a, events);
    var ops, a' := Ops(a, events[0]), Happen(a, events[0]);
    var rest := History(a', events[1..]);
    assert h == ops + rest;
    HappenKeepsDisjoint(a, events[0]);
    if i >= |ops| {
      OnceOnly(a', events[1..], i - |ops|, j - |ops|);
    } else if j >= |ops| {
      var n := h[i].x;
      assert h[i] in ops && h[j] in rest;
      OpsNotNull(a, events[0], h[i]);
      HappenLeaves(a, events[0], n);
      HappenLands(a, events[0], n);
      NeverAgain(a', events[1..], n);
    }
  }

  lemma OpsNotNull(a: Abs, e: Event, op: Op<Addr>)
    requires Disjoint(a) && Allowed(a, e) && op in Ops(a, e) && !op.PopEmpty?
    ensures op.x != NULL
  {
  }
}
