/** The rearrangement that `linearize` performs, as steps on a sequence of cells. */
module Linearizing {
  import opened RingSpec

  /**
    Where element `k` is while the first `d` are in place, the next ones are
    read from `s` on, and the run being read starts over at `f`.
   */
  function Where(cap: nat, s: nat, d: nat, f: nat, k: nat): nat
    requires d <= f <= s <= cap && k < cap
  {
    if k < d then k
    else if k - d < cap - s then s + (k - d)
    else if k - d < cap - f then f + (k - d - (cap - s))
    else k - (cap - f)
  }

  /** Every element of `t` is where it should be. */
  ghost predicate Placed<T>(a: seq<T>, t: seq<T>, s: nat, d: nat, f: nat) {
    && d <= f <= s <= |a| && |t| <= |a|
    && forall k | 0 <= k < |t| :: a[Where(|a|, s, d, f, k)] == t[k]
  }

  lemma PlacedFirst<T>(a: seq<T>, first: nat, m: nat)
    requires first < |a| < first + m && m <= |a|
    ensures Placed(a, Ring(a, first, m), first, 0, first)
  {
  }

  /** Swapping the next element into its place moves the displaced one behind the others. */
  lemma PlacedSwap<T>(a: seq<T>, t: seq<T>, s: nat, d: nat, f: nat)
    requires Placed(a, t, s, d, f) && s < |a| && d < f
    ensures Placed(a[s := a[d]][d := a[s]], t, s + 1, d + 1, f)
  {
  }

  /** Copying it is enough when the cell it goes to holds none of the elements. */
  lemma PlacedCopy<T>(a: seq<T>, t: seq<T>, s: nat, d: nat, f: nat)
    requires Placed(a, t, s, d, f) && s < |a| && d < f && |t| <= d + (|a| - f)
    ensures Placed(a[d := a[s]], t, s + 1, d + 1, f)
  {
  }

  /** The elements displaced so far come next. */
  lemma PlacedAgain<T>(a: seq<T>, t: seq<T>, s: nat, d: nat, f: nat)
    requires Placed(a, t, s, d, f) && (s == |a| || d == f)
    ensures d == f ==> Placed(a, t, s, d, s)
    ensures s == |a| ==> Placed(a, t, f, d, f)
  {
  }

  lemma PlacedDone<T>(a: seq<T>, t: seq<T>, s: nat, d: nat, f: nat)
    requires Placed(a, t, s, d, f) && d == |t|
    ensures Placed(a, t, d, d, d)
  {
  }

  lemma PlacedAll<T>(a: seq<T>, t: seq<T>, s: nat, d: nat, f: nat)
    requires Placed(a, t, s, d, f) && (d == |t| || d == s)
    ensures a[..|t|] == t
  {
  }
}
