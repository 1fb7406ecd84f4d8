/** A plain sequential stack, as the meaning of histories of pushes and pops. */
module SequentialStack {
  import opened Options

  datatype Op<T> =
    | Push(x: T)
    | Pop(x: T)
    | PopEmpty

  /** What an operation does to the contents, if it may happen at all. */
  function Perform<T(==)>(c: seq<T>, op: Op<T>): Option<seq<T>> {
    match op
    case Push(x) => Some([x] + c)
    case Pop(x) => if c != [] && c[0] == x then Some(c[1..]) else None
    case PopEmpty => if c == [] then Some(c) else None
  }

  function Replay<T(==)>(c: seq<T>, ops: seq<Op<T>>): Option<seq<T>>
    decreases |ops|
  {
    if ops == [] then Some(c)
    else match Perform(c, ops[0])
         case None => None
         case Some(c') => Replay(c', ops[1..])
  }

  lemma {:induction false} ReplayAppend<T>(c: seq<T>, p: seq<Op<T>>, q: seq<Op<T>>)
    requires Replay(c, p).Some?
    ensures Replay(c, p + q) == Replay(Replay(c, p).value, q)
    decreases |p|
  {
    if p == [] {
      assert p + q == q;
    } else {
      assert (p + q)[1..] == p[1..] + q;
      ReplayAppend(Perform(c, p[0]).value, p[1..], q);
    }
  }

  lemma {:induction false} ReplayPrefix<T>(c: seq<T>, p: seq<Op<T>>, q: seq<Op<T>>)
    requires Replay(c, p + q).Some?
    ensures Replay(c, p).Some?
    decreases |p|
  {
    if p != [] {
      assert (p + q)[0] == p[0] && (p + q)[1..] == p[1..] + q;
      ReplayPrefix(Perform(c, p[0]).value, p[1..], q);
    }
  }
}
