/** Threads are numbered from 0 on. */
module ThreadIds {

  function Ids(workers: nat): (r: set<nat>)
    ensures forall t :: t in r <==> 0 <= t < workers
    ensures |r| == workers
  {
    if workers == 0 then {} else Ids(workers - 1) + {workers - 1}
  }
}
