# Verified models of the concurrency projects

Dafny models of the repository's concurrent algorithms, as interleaved steps
of any number of threads, and of the circular buffer that one of them rests
on, as code on an array.  `dafny verify dfyconfig.toml` checks the whole
project.

## The lock-free stack and its garbage collector

`Reclamation` is the state machine of `project3`'s worker loop: registration,
`alloc`, `push`, `pop`, `clean`, `cleanup`, `dereg` and the final drain by
`main`.  Each clock update, each read in the scan for the least clock, each
read of the head or of a link, and each CAS is a step of its own, and a run is
any interleaving.  Addresses that were given back to the heap may be handed
out again.  `ReclamationInvariant` and `ReclamationSteps` hold the invariant
and its proof; the results are in `ReclamationTheorems`, `ReclamationHistory`,
`ReclamationCalls`, `ReclamationAccounting`, `ReclamationDrain`,
`ReclamationLeaving`, `ReclamationRace`, `ReclamationLoss` and `ReclamationMixup`;
`ReclamationAlone` shows that what a worker has begun it ends when it is left
alone.

The collector does not do all it is for.  `getminclock` compares `*(*it)` with the
minimum and then assigns `min = *(*it)`; the clocks are volatile, so these are two
reads, and the second may give a larger value than the minimum found before
(project3/GarbageCollector.cpp:55-57).  `ReclamationRace` builds a run of
three workers in which a node is given back while another worker is about to
read its link, and one in which a pop then installs a stale successor and
loses a node; `ReclamationLoss` goes on from there to a node that is in no
place and is never given back, and to one that is in a dirty list twice, and
`ReclamationMixup` to a push that pushes other data than it was called with.
So the grace period, the absence of ABA, the order of the stack, the accounts of
the nodes, the order of the dirty lists and the match of calls and operations
hold for all runs exactly for at most two workers (`GracePeriodExactly`,
`NoAbaExactly`, `LifoExactly`, `AccountingExactly`, `GivenBackExactly`,
`DirtyIncreasingExactly`, `CallsExactly`).  For any
number of workers they hold in every run that is `Calm`: no second read raises the
minimum after a third thread has been passed, which a scan that reads each
clock once would guarantee.

`CollectorLists` is the sequential side: the loops of `getminclock`, `clean`,
`cleanup`, `alloc` and the destructor on two circular buffers;
`ReclamationSweep` ties its sweep and the whole of `clean` to the steps of the
state machine.

## Exchanger and elimination stack

`Exchanger` is the slot protocol, with `get` as two reads and a timeout
possible at every look at the clock; `Slots` shows that packing item and state
in one word loses nothing.  `Elimination` combines the slots with the shared
list.  Two pushes that meet swap their nodes (project3/Elimination.cpp:68-71),
so a push may return while its node is in another push's hand; the
specification is therefore `TradingStack`, a stack whose callers have hands
that may trade.  Every run of the elimination stack is a run of it, and its
history is that of a sequential stack without repetitions.
`ExchangerMeetings` and `EliminationMeetings` show that calls do meet: what two
threads come to in one slot, what one comes to that waits in vain, and what a
push or a pop does that is left alone or loses a race.

## Circular buffer

`RingSpec` has the pointer arithmetic and the meaning of each operation on
sequences, `CircularBuffers` the operations on the array, `Linearizing` the
rearrangement by `linearize`, `RingLaws` how the operations relate.
`SpaceOptimizedBuffers` is the variant that adapts its array, by the rules of
`ArraySizes`, and `Lockstep` runs both side by side.  `IteratorRegistry` and
`LiveIterators` are the debug support's chains of valid iterators, and
`IteratorRuns` takes any sequence of calls on them.

`is_uninitialized` does not report free cells in front of the first element
when the layout is linear, nor any cell of an empty buffer
(`UninitializedExactly`).  It is exact in the wrapped layout, where
`linearize` relies on it.  The insertions use it in all layouts to choose
between constructing and assigning, which the model writes alike.  The
comment at `check_high_capacity` says that the capacity is decreased if it is
high; the code also increases it, to keep a fifth free
(project3/boost/circular_buffer/space_optimized.hpp:1268-1282), and
`CheckHighCapacity` states exactly when.

## Queues, lock and counter

`LockQueue` and `LockFreeQueue` are the two bounded queues of `project1`, with
one producer and one consumer; `ArrayLock` is Anderson's lock of `project2`
with the threads that count under it, and `Rollover` its ticket counter across
a wrap; `RacyCounter` is the unsynchronized counter of `project1`.

## Model

| member | source | states |
|---|---|---|
| ReclamationSteps.StepKeeps | project3/GarbageCollector.cpp:21-137 | Every step of any worker keeps the invariant that ties the stack, the clocks, the lists and the scans together, except a second clock read that raises the minimum past a third thread. |
| ReclamationTheorems.GracePeriod | project3/GarbageCollector.cpp:63-108 | Any number of workers: after any run whose scans are not misled by their second read, no thread is about to use a node that was given back, and no node that a thread may still read is in a clean list. |
| ReclamationTheorems.TwoWorkersAlwaysCalm | project3/GarbageCollector.cpp:50-61 | With at most two workers no scan of any run is misled, so all that holds of calm runs holds of every run. |
| ReclamationTheorems.TwoWorkersSafe | project3/GarbageCollector.cpp:50-61 | With at most two workers every run respects the grace period. |
| ReclamationRace.GracePeriodExactly | project3/GarbageCollector.cpp:50-61 | The grace period holds in all runs exactly for at most two workers: the minimum is assigned from a second read of a volatile clock, and three workers suffice to raise it above the clock of a thread inside a pop. |
| ReclamationRace.NoAbaExactly | project3/LockFreeStack.cpp:34-44 | Every pop CAS that is about to succeed installs the true successor of the top node, in all runs, exactly for at most two workers. |
| ReclamationRace.LifoExactly | project3/LockFreeStack.cpp:27-77 | The pushes and pops of every run make a legal history of a sequential stack exactly for at most two workers; with three, a node can be lost and a pop told that the stack is empty. |
| ReclamationRace.WrongEmpty | project3/LockFreeStack.cpp:72-77 | A pop that reports an empty stack while the pushes and pops so far leave a node makes the history illegal. |
| ReclamationHistory.PopInstallsSuccessor | project3/LockFreeStack.cpp:34-44 | A pop CAS that finds its node on top removes the node that is on top now and installs the one that is second now, although both were read earlier and nodes are reused. |
| ReclamationHistory.StackIsLifo | project3/LockFreeStack.cpp:27-77 | The pushes and pops of a calm run, taken at their successful CAS or at the read of a null head, are a history of a sequential stack that ends with the data on the nodes linked from the top. |
| ReclamationHistory.TwoWorkersLifo | project3/LockFreeStack.cpp:27-77 | The same for every run of at most two workers. |
| ReclamationHistory.PushKeepsItsData | project3/GarbageCollector.cpp:121-137 | In a calm run a node that is being pushed keeps the data that `alloc` gave it, however often the push is retried and whatever the others do. |
| ReclamationCalls.CallsTakeEffect | project3/LockFreeStack.cpp:59-77 | In a calm run the operations of each thread in the history answer its calls one by one, in order: each push once with the data of its call, each pop once; at most the last call is still unanswered. |
| ReclamationCalls.TwoWorkersCalls | project3/LockFreeStack.cpp:59-77 | The same for every run of at most two workers. |
| ReclamationCalls.LogIsHistory | project3/LockFreeStack.cpp:27-77 | The log that names the thread of each operation is the history of the stack. |
| ReclamationCalls.ReusesFirst | project3/GarbageCollector.cpp:121-137 | A push reuses the first node of the clean list, with the data of the call and a null link; it takes a node from the heap, and counts it, exactly if that list is empty. |
| ReclamationAlone.PushFinishes | project3/LockFreeStack.cpp:27-32 | Whatever others have done before, a push that is left alone ends within six steps with its node on top, linked to the old top. |
| ReclamationAlone.PopFinishes | project3/LockFreeStack.cpp:34-44 | Whatever others have done before, a pop that is left alone ends within five steps: with the top node in hand, or at once if the stack is empty. |
| ReclamationAlone.ScanAlone | project3/GarbageCollector.cpp:50-61 | A scan that is left alone ends with the least of the clocks from its place on and the minimum it had. |
| ReclamationAlone.LeastIs | project3/GarbageCollector.cpp:50-61 | What such a scan finds is a lower bound of the clocks and one of them, or the minimum it started with. |
| ReclamationAccounting.NothingLostOrShared | project3/testtwo.cpp:63-98 | After any calm run a node is live exactly if it is met on the way from the top along `next`, in one hand, in one dirty or in one clean list, and it is in only one of these. |
| ReclamationAccounting.EveryNodeInOnePlace | project3/GarbageCollector.cpp:63-137 | In every state that satisfies the invariant live nodes are somewhere, on the way from the top or with a worker, no node is in two places, and no list or stack holds a node twice. |
| ReclamationAccounting.StepKeepsBalance | project3/GarbageCollector.cpp:121-137 | Every step keeps: allocations counted so far, by the collector or still by a worker, are the live nodes plus the deleted ones. |
| ReclamationAccounting.AllNodesGivenBack | project3/testtwo.cpp:122-128 | After a calm run in which all workers have left and the drain has emptied the stack, nothing is live and the number of deletions is `total_allocs`. |
| ReclamationLoss.AccountingExactly | project3/testtwo.cpp:63-98 | In every run each node is live exactly if it is met from the top, in one hand, in one dirty or in one clean list, and in one place only: exactly for at most two workers; with three a live node can be in none of these places. |
| ReclamationLoss.GivenBackExactly | project3/testtwo.cpp:122-128 | Whenever all workers have left and the stack is drained nothing is live and the deletions are `total_allocs`, in all runs, exactly for at most two workers, for any number of them that a `uint32_t` holds. |
| ReclamationLoss.DirtyIncreasingExactly | project3/GarbageCollector.cpp:72-82 | The dirty lists are in stamp order in all runs exactly for at most two workers; with three the same node can be listed twice. |
| ReclamationMixup.CallsExactly | project3/GarbageCollector.cpp:121-137 | The operations of every thread answer its calls, pushes with the data of the call, in all runs, exactly for at most two workers; with three a node in the hand of one can be given back by another and allocated for other data. |
| ReclamationDrain.DirtyListsIncrease | project3/GarbageCollector.cpp:72-82 | In every calm run each dirty list is strictly increasing in stamp. |
| ReclamationDrain.SweepStopsRight | project3/GarbageCollector.cpp:91-105 | When a sweep stops, all that is left in the dirty list is stamped at or above the minimum, not just its first node. |
| ReclamationLeaving.CleanupRefreshes | project3/GarbageCollector.cpp:85-108 | A thread that, in a calm run, ends the sweep of a `cleanup`, fetches its new clock and later stores it has, from then on, a clock at least as new as the collector's at the start of the run. |
| ReclamationLeaving.LastRoundEnds | project3/GarbageCollector.cpp:31-42 | From its last round in `dereg` on a worker takes, in any calm run, at most as many steps as the measure `StepsLeft` says, and none of them starts another scan. |
| ReclamationLeaving.LeaverGoesOn | project3/GarbageCollector.cpp:31-42 | No steps are left exactly when the worker has gone, and until then it can take its next one unless it waits for another scan or the 64-bit clock is used up. |
| ReclamationLeaving.DeregLoopEnds | project3/GarbageCollector.cpp:31-42 | When each registered thread has gone through one `cleanup` since a thread entered `dereg`, or has registered since, the next scan of that thread is its last one: its list is emptied, and it is gone after a number of its own steps bounded by the threads and the lengths of its lists, whatever the others do. |
| ReclamationSweep.SweepRun | project3/GarbageCollector.cpp:91-105 | A worker that takes the steps of the sweep undisturbed leaves exactly the lists that the sequential `cleanup` leaves, gives back exactly the nodes that find no room, and changes nothing else. |
| ReclamationSweep.CleanRun | project3/GarbageCollector.cpp:63-83 | A worker that has popped a node and is left alone comes back from `clean` with the node given back, if the clock it fetched is the least one, or else with it stamped and listed, after a sweep if its list had more than ten nodes, and with the clocks and lists of the sequential `clean`; it stops only where its list has no room. |
| CollectorLists.Collector.GetMinClock | project3/GarbageCollector.cpp:50-61 | The scan returns the least of the registered clocks, or the largest number if there are none. |
| CollectorLists.GCNode.Sweep | project3/GarbageCollector.cpp:91-105 | The loop moves exactly the leading nodes stamped below the minimum: to the front of the clean list while there is room, the last one first, and back to the heap after that. |
| CollectorLists.GCNode.Cleanup | project3/GarbageCollector.cpp:85-108 | The same, and the thread ends with a clock fetched after the sweep. |
| CollectorLists.GCNode.Discard | project3/GarbageCollector.cpp:63-83 | A popped node is given back at once exactly if the clock just fetched is the least registered one; otherwise it is stamped with it and listed last, after a sweep if the list had more than ten nodes; it is not listed exactly if the list is full. The thread ends with the clock it fetched, or with a newer one after a sweep. |
| CollectorLists.GCNode.Alloc | project3/GarbageCollector.cpp:121-137 | The front of the clean list is reused with new data and a null link; only without one is an allocation counted. |
| CollectorLists.GCNode.Destroy | project3/GarbageCollector.cpp:110-119 | The destructor gives back every clean node once and no dirty one. |
| CollectorLists.SweepFindsAll | project3/GarbageCollector.cpp:91-105 | In a list in stamp order the leading nodes below the minimum are all the nodes below it. |
| CollectorLists.SweptKeepsNodes | project3/GarbageCollector.cpp:91-105 | The sweep neither loses nor duplicates a node. |
| CollectorLists.StaysIncreasing | project3/GarbageCollector.cpp:72-82 | Listing a node with a newer stamp last keeps the stamp order, also after a sweep. |
| CollectorLists.Collector.GetClock | project3/GarbageCollector.cpp:44-49 | A fetch gives the current number and moves the clock on by one. |
| CollectorLists.GCNode.SweepOne | project3/GarbageCollector.cpp:93-102 | One node leaves the front of the dirty list, for the front of the clean list if there is room and for the heap if not. |
| CollectorLists.GCNode.Enlist | project3/GarbageCollector.cpp:77-82 | The node is listed last, unless the list is full. |
| Exchanger.StepKeeps | project3/Exchanger.cpp:27-79 | Every step of any number of calls keeps the slot protocol, with the two reads of `get` as separate steps and timeouts at any look at the clock. |
| Exchanger.Pairing | project3/Exchanger.cpp:27-79 | After any run, a call that returned did so with the item of exactly one other call, which has returned or will return with this one's item; a call that timed out traded with nobody. |
| Exchanger.OnlyWaiterLeavesBusy | project3/Exchanger.cpp:45-64 | The only step that takes the slot out of BUSY is the store of EMPTY by the call that was waiting, which then returns the item it found. |
| Exchanger.StepTrades | project3/Exchanger.cpp:67-72 | A successful CAS from WAITING to BUSY swaps the items of two different calls, and no other step moves an item. |
| ExchangerMeetings.TwoMeet | project3/Exchanger.cpp:27-79 | In an empty slot the first of two calls puts its item there in three steps, three steps of the second one return that item and leave its own, and four more of the first return that one and empty the slot. |
| ExchangerMeetings.WithdrawAlone | project3/Exchanger.cpp:55-64 | A waiter whose time runs out before anyone comes takes its item back, empties the slot and times out. |
| ExchangerMeetings.LateCollect | project3/Exchanger.cpp:55-64 | A waiter whose time runs out after its item has been taken returns with the item left for it and empties the slot. |
| ExchangerMeetings.WaitsOn | project3/Exchanger.cpp:45-54 | A waiter that finds its item still there goes on waiting and changes nothing. |
| ExchangerMeetings.BusyStartsOver | project3/Exchanger.cpp:73-76 | A call that finds two others trading starts over and changes nothing. |
| Slots.PackReadsBack | project3/Exchanger.h:54-63 | `get` gives back the item that `set` packed exactly if it is aligned to four bytes, and then the state too. |
| Slots.PackInjective | project3/Exchanger.h:65-70 | For aligned items the CAS on packed words succeeds exactly if item and state are both as expected. |
| Slots.Slot.Set | project3/Exchanger.h:54-57 | The word then stands for that item and state. |
| Slots.Slot.Get | project3/Exchanger.h:59-63 | Without interference the two reads give the item and the state the word stands for. |
| Slots.Slot.CompareAndSet | project3/Exchanger.h:65-70 | The item and the state are replaced exactly if both matched. |
| EliminationInvariant.StepKeeps | project3/Elimination.cpp:27-109 | Every step of the elimination stack keeps: the list is linked without repetition, and each node is on it, in one hand, or returned. |
| EliminationTheorems.StepRefines | project3/Elimination.cpp:27-109 | Each step of the list or of a slot is one event of the trading stack: push from hand, pop, pop of an empty stack, trade of two hands, delivery, or nothing. |
| EliminationTheorems.RefinesTradingStack | project3/Elimination.cpp:27-109 | Every run of the elimination stack is, event by event, a run of the trading stack that ends in its view. |
| EliminationTheorems.NoNodeLost | project3/Elimination.cpp:46-109 | After any run every node ever allocated is on the stack linked from the head, in exactly one hand, or returned, and in one of these only. |
| EliminationTheorems.StackIsLifo | project3/Elimination.cpp:27-109 | The pushes and pops of any run, meetings included, are a history of a sequential stack that ends with the nodes linked from the head and pushes and pops no node twice. |
| EliminationTheorems.TradersComeFresh | project3/Exchanger.cpp:81-96 | Both parties to a trade hold what they brought into the exchange: a push its node, a pop none. |
| EliminationTheorems.VisitStaysInside | project3/Exchanger.cpp:81-85 | All slots that the k-th visit may draw exist exactly if its bound, doubled at each visit from 2 on and wrapped at 32 bits, is below the number of exchangers. |
| EliminationTheorems.VisitsOfTheProgram | project3/Elimination.cpp:48-63 | With the 100 exchangers of the program all draws of a call's k-th visit hit the array exactly for the first six visits and for those from the 32nd on; each visit between may draw slot 100. |
| EliminationMeetings.PushAlone | project3/Elimination.cpp:27-32 | A push that is left alone is on top of the stack, linked to the old top, after three steps. |
| EliminationMeetings.PopAlone | project3/Elimination.cpp:34-44 | A pop that is left alone returns the top node after three steps. |
| EliminationMeetings.RaceLost | project3/Elimination.cpp:46-109 | A push whose CAS fails goes to the slots with its node; a pop whose CAS fails reads the head again, and goes to the slots if it is null. |
| EliminationMeetings.TwoMeet | project3/Elimination.cpp:56-109 | Two threads that draw the same empty slot can meet there: their hands trade, a pop that gets a node returns it, a push that gets none is done, a push that gets another push's node goes on with that, and the slot is empty again. |
| EliminationMeetings.WaitsInVain | project3/Exchanger.cpp:81-96 | A visit in which nobody comes until the time is up empties the slot and sends a push back to the stack with its own node and a pop with none. |
| EliminationMeetings.TimesOutAtOnce | project3/Exchanger.cpp:81-96 | The same for a visit that times out before it has found the slot empty. |
| TradingStack.HappenKeepsDisjoint | project3/Elimination.cpp:46-109 | No event puts a node in two places. |
| TradingStack.KnownKept | project3/Elimination.cpp:46-109 | No event loses a node. |
| TradingStack.RunIsLifo | project3/Elimination.cpp:46-109 | Any run of the trading stack is a history of a sequential stack, where a push and a pop that meet count as a push followed at once by that pop. |
| TradingStack.OnceOnly | project3/Elimination.cpp:77-109 | No node is pushed twice or returned by two pops in one run. |
| RingSpec.UpMoves | project3/boost/circular_buffer/base.hpp:2549-2553 | Moving cells up from the last to the first, wrapping anywhere, overwrites no cell before it has been read. |
| RingSpec.DownMoves | project3/boost/circular_buffer/base.hpp:2640-2644 | Moving cells down from the first to the last, wrapping anywhere, overwrites no cell before it has been read. |
| RingSpec.InsertedInPlace | project3/boost/circular_buffer/base.hpp:2524-2568 | With the suffix moved up and the items written, the new first and last cells delimit the last `capacity` elements of prefix, items, suffix. |
| RingSpec.RinsertedInPlace | project3/boost/circular_buffer/base.hpp:2608-2657 | With the prefix moved down and the items written, the new first and last cells delimit the first `capacity` elements of prefix, items, suffix. |
| RingSpec.ErasedInPlace | project3/boost/circular_buffer/base.hpp:1858-1873 | Moving the suffix down over the range leaves the contents without the range, in any layout. |
| RingSpec.RerasedInPlace | project3/boost/circular_buffer/base.hpp:1938-1960 | Moving the prefix up over the range leaves the contents without the range, in any layout. |
| RingSpec.CellsLeft | project3/boost/circular_buffer/base.hpp:632-676 | In a wrapped layout the cells constructed, from the last element on, and those destroyed, up to the end of the array, leave exactly cells 0 to `size` in use. |
| RingSpec.Sub | project3/boost/circular_buffer/base.hpp:2077-2080 | Going back n cells and forward again ends where it started. |
| RingSpec.Ahead | project3/boost/circular_buffer/details.hpp:395-400 | The linearized distance is the number of cells forward from the first to the given one. |
| RingSpec.WrittenInOrder | project3/boost/circular_buffer/base.hpp:2554-2555 | Writing items cell by cell, wrapping anywhere, puts them there in order and touches no other cell. |
| Linearizing.PlacedSwap | project3/boost/circular_buffer/base.hpp:655-659 | Swapping the next element into place keeps every other element where the algorithm will look for it. |
| Linearizing.PlacedCopy | project3/boost/circular_buffer/base.hpp:652-654 | Copying it is enough when the target cell held no element. |
| CircularBuffers.CircularBuffer.constructor | project3/boost/circular_buffer/base.hpp:1017-1021 | A new buffer is empty and has the capacity asked for. |
| CircularBuffers.CircularBuffer.Next | project3/boost/circular_buffer/details.hpp:286-293 | `++` moves the logical index up by one, onto the end after the last element. |
| CircularBuffers.CircularBuffer.Prev | project3/boost/circular_buffer/details.hpp:303-310 | `--` moves the logical index down by one, also from the end. |
| CircularBuffers.CircularBuffer.Plus | project3/boost/circular_buffer/details.hpp:320-331 | `+=` adds to the logical index, for positive and negative amounts. |
| CircularBuffers.CircularBuffer.Minus | project3/boost/circular_buffer/details.hpp:337-346 | `-=` subtracts from the logical index, for positive and negative amounts. |
| CircularBuffers.CircularBuffer.DifferenceUndoesPlus | project3/boost/circular_buffer/details.hpp:279-401 | The difference of two iterators is n exactly if adding n to one gives the other. |
| CircularBuffers.CircularBuffer.Get | project3/boost/circular_buffer/details.hpp:268-272 | Dereferencing gives the element of the logical index. |
| CircularBuffers.CircularBuffer.PushBack | project3/boost/circular_buffer/base.hpp:1403-1414 | The item goes to the back; a full buffer loses its first element, one of capacity 0 stays empty. |
| CircularBuffers.CircularBuffer.PushFront | project3/boost/circular_buffer/base.hpp:1434-1453 | The item goes to the front; a full buffer loses its last element. |
| CircularBuffers.CircularBuffer.PopBack | project3/boost/circular_buffer/base.hpp:1468-1473 | The last element goes. |
| CircularBuffers.CircularBuffer.PopFront | project3/boost/circular_buffer/base.hpp:1489-1494 | The first element goes. |
| CircularBuffers.CircularBuffer.InsertN | project3/boost/circular_buffer/base.hpp:2524-2568 | For every layout and position the contents become the last `capacity` elements of prefix, items, suffix; with room for all items the front is not moved. |
| CircularBuffers.CircularBuffer.InsertRange | project3/boost/circular_buffer/base.hpp:2507-2521 | The same for a range of any length, of which the last items are kept; with room for all items the front is not moved. |
| CircularBuffers.CircularBuffer.InsertCopies | project3/boost/circular_buffer/base.hpp:1573-1583 | The same for any number of copies of one item; with room for all items the front is not moved. |
| CircularBuffers.CircularBuffer.InsertItem | project3/boost/circular_buffer/base.hpp:2445-2477 | The same for one item, and the iterator returned is at the cell that holds the item. |
| CircularBuffers.CircularBuffer.Insert | project3/boost/circular_buffer/base.hpp:1528-1534 | The same, where a full buffer takes nothing at its beginning and returns `begin()`; otherwise the iterator points to the item. |
| CircularBuffers.CircularBuffer.RinsertN | project3/boost/circular_buffer/base.hpp:2608-2657 | For every layout and position the contents become the first `capacity` elements of prefix, items, suffix; with room for all items the back is not moved. |
| CircularBuffers.CircularBuffer.Rinsert | project3/boost/circular_buffer/base.hpp:1663-1708 | The same for one item, with the iterator at the item; a full buffer takes nothing at its end and returns `end()`. |
| CircularBuffers.CircularBuffer.Erase | project3/boost/circular_buffer/base.hpp:1821-1835 | Exactly the element at the position goes; the iterator returned is at the next one, or the end; the front of the buffer is not moved. |
| CircularBuffers.CircularBuffer.EraseRange | project3/boost/circular_buffer/base.hpp:1858-1873 | Exactly the range goes, also when it is all of a full ring; the iterator returned has the index of the range's start; the front of the buffer is not moved. |
| CircularBuffers.CircularBuffer.Rerase | project3/boost/circular_buffer/base.hpp:1898-1913 | Exactly the element at the position goes; the iterator returned is at the one in front, or the beginning; the back of the buffer is not moved. |
| CircularBuffers.CircularBuffer.ReraseRange | project3/boost/circular_buffer/base.hpp:1938-1960 | Exactly the range goes, also when it is all of a full ring; the iterator returned is in front of it, or at the beginning; the back of the buffer is not moved. |
| CircularBuffers.CircularBuffer.EraseBegin | project3/boost/circular_buffer/base.hpp:2666-2669 | The first n elements go. |
| CircularBuffers.CircularBuffer.EraseBeginScalar | project3/boost/circular_buffer/base.hpp:2660-2663 | The constant-time form for scalars does the same. |
| CircularBuffers.CircularBuffer.EraseEnd | project3/boost/circular_buffer/base.hpp:2678-2681 | The last n elements go. |
| CircularBuffers.CircularBuffer.EraseEndScalar | project3/boost/circular_buffer/base.hpp:2672-2675 | The constant-time form for scalars does the same. |
| CircularBuffers.CircularBuffer.Clear | project3/boost/circular_buffer/base.hpp:2041-2044 | Everything goes, and the array stays. |
| CircularBuffers.CircularBuffer.SetCapacity | project3/boost/circular_buffer/base.hpp:857-871 | The front of the contents is kept, as far as the new capacity goes. |
| CircularBuffers.CircularBuffer.RsetCapacity | project3/boost/circular_buffer/base.hpp:931-945 | The back of the contents is kept, as far as the new capacity goes. |
| CircularBuffers.CircularBuffer.Resize | project3/boost/circular_buffer/base.hpp:900-909 | The contents are cut at the back, or filled up there, to the new size; the capacity grows if it must. |
| CircularBuffers.CircularBuffer.Rresize | project3/boost/circular_buffer/base.hpp:973-981 | The same with back and front exchanged. |
| CircularBuffers.CircularBuffer.Rotate | project3/boost/circular_buffer/base.hpp:723-743 | The contents become s[k..] followed by s[..k] in the full, the short-tail and the short-head branch. |
| CircularBuffers.CircularBuffer.Linearize | project3/boost/circular_buffer/base.hpp:632-676 | It ends, keeps the contents and leaves them in one piece, from cell 0 on if they were wrapped; elements are constructed in free cells only and destroyed where there is one, and exactly the cells of the result are in use afterwards. |
| CircularBuffers.CircularBuffer.UninitializedExactly | project3/boost/circular_buffer/base.hpp:2105-2107 | `is_uninitialized` tells the free cells exactly if the buffer is full, or is not empty and wraps, reaches the end of the array or starts at its beginning. |
| CircularBuffers.CircularBuffer.Front | project3/boost/circular_buffer/base.hpp:443-446 | The first element of the contents. |
| CircularBuffers.CircularBuffer.Back | project3/boost/circular_buffer/base.hpp:461-464 | The last element of the contents, wherever `m_last` is. |
| CircularBuffers.CircularBuffer.WriteAt | project3/boost/circular_buffer/base.hpp:2528-2564 | Seen from the position, the cells hold the items, then the elements that followed, then all the rest as before. |
| CircularBuffers.CircularBuffer.WriteBefore | project3/boost/circular_buffer/base.hpp:2620-2653 | Seen from the new first cell, the cells hold the elements that preceded the position, then the items, then all the rest as before. |
| CircularBuffers.CircularBuffer.MoveBefore | project3/boost/circular_buffer/base.hpp:1946-1950 | The loop moves exactly the elements before the range, the last one first, and ends n cells after the first cell. |
| CircularBuffers.CircularBuffer.CloseGap | project3/boost/circular_buffer/base.hpp:1865-1866 | The loop moves exactly the elements behind the range, the first one first, and ends where the contents will. |
| CircularBuffers.CircularBuffer.DropBack | project3/boost/circular_buffer/base.hpp:1867-1871 | The loop that runs at least once drops exactly n elements, also when it starts at the cell where it stops. |
| CircularBuffers.CircularBuffer.DropFront | project3/boost/circular_buffer/base.hpp:1951-1955 | The same at the front. |
| CircularBuffers.CircularBuffer.CopyOut | project3/boost/circular_buffer/details.hpp:433-447 | New cells receive exactly the n elements from the iterator on. |
| CircularBuffers.CircularBuffer.MoveTo | project3/boost/circular_buffer/base.hpp:2311-2317 | The buffer then has a new array with just those elements. |
| CircularBuffers.CircularBuffer.MoveIntoPlace | project3/boost/circular_buffer/base.hpp:637-664 | The loops end with the contents in cells 0 to `size`, having constructed elements exactly in the cells from the old end on that the result needs, up to the old first cell. |
| RingLaws.PushesKeepTheLast | project3/boost/circular_buffer/base.hpp:1403-1414 | A run of `push_back` leaves the last `capacity` elements of all that were ever there. |
| RingLaws.FrontPushesKeepTheFirst | project3/boost/circular_buffer/base.hpp:1434-1453 | A run of `push_front` leaves the first `capacity` elements. |
| RingLaws.RangeIsPushes | project3/boost/circular_buffer/base.hpp:2507-2568 | Inserting a range at the end, or in reverse at the beginning, is pushing its items one by one. |
| RingLaws.EraseUndoesInsert | project3/boost/circular_buffer/base.hpp:1858-1873 | With room for all items both insertions agree, and erasing the items gives the old contents back. |
| RingLaws.InsertKeepsOneSide | project3/boost/circular_buffer/base.hpp:1536-1583 | Forward insertion never touches what follows the position, reverse insertion never what precedes it. |
| RingLaws.RinsertMirrorsInsert | project3/boost/circular_buffer/base.hpp:2608-2657 | Reverse insertion is forward insertion of the mirrored items into the mirrored contents. |
| RingLaws.RotateBackAgain | project3/boost/circular_buffer/base.hpp:723-743 | Rotating on to the old beginning gives the old contents back. |
| ArraySizes.GrownOnce | project3/boost/circular_buffer/space_optimized.hpp:1253-1262 | The rule for growing gives one size only. |
| ArraySizes.ShrunkOnce | project3/boost/circular_buffer/space_optimized.hpp:1272-1282 | The rule for shrinking gives one size only. |
| ArraySizes.GrownBound | project3/boost/circular_buffer/space_optimized.hpp:1253-1262 | Growing never takes more than two and a half times the cells that are needed, and at least doubles the array unless the capacity stops it. |
| ArraySizes.ShrunkBound | project3/boost/circular_buffer/space_optimized.hpp:1272-1282 | After shrinking the array is no larger than three times its contents, or is at its minimum. |
| ArraySizes.GrowingKeepsTight | project3/boost/circular_buffer/space_optimized.hpp:1253-1262 | Growing for new elements keeps a third of the array in use, unless it is at its minimum. |
| SpaceOptimizedBuffers.SpaceOptimized.EnsureReserve | project3/boost/circular_buffer/space_optimized.hpp:1241-1247 | The result is within the capacity, not below the wish unless it is the capacity, and otherwise leaves a fifth of the array free. |
| SpaceOptimizedBuffers.SpaceOptimized.CheckLowCapacity | project3/boost/circular_buffer/space_optimized.hpp:1253-1266 | The contents stay. An array with room is not touched; a smaller one is doubled, one of no cells counting as one, just until the elements fit, doubled once more if no more than a fifth would be free, and cut at the capacity. |
| SpaceOptimizedBuffers.SpaceOptimized.Halved | project3/boost/circular_buffer/space_optimized.hpp:1272-1280 | The array is halved just until a third of it is in use, or set to the minimum when a halving passes that. |
| SpaceOptimizedBuffers.SpaceOptimized.CheckHighCapacity | project3/boost/circular_buffer/space_optimized.hpp:1272-1286 | The contents stay, the array gets the size where the halving stops, doubled if no more than a fifth would be free and cut at the capacity; after it at least a third of the array is in use or it is at its minimum. It grows exactly if it was below the capacity, more than a third full and no more than a fifth of it free. |
| SpaceOptimizedBuffers.SpaceOptimized.PushBack | project3/boost/circular_buffer/space_optimized.hpp:740-743 | As on a plain buffer of the control capacity; the array stays between the minimum and the capacity. |
| SpaceOptimizedBuffers.SpaceOptimized.PushFront | project3/boost/circular_buffer/space_optimized.hpp:765-768 | As on a plain buffer of the control capacity. |
| SpaceOptimizedBuffers.SpaceOptimized.PopBack | project3/boost/circular_buffer/space_optimized.hpp:787-790 | As on a plain buffer, and the array may shrink. |
| SpaceOptimizedBuffers.SpaceOptimized.PopFront | project3/boost/circular_buffer/space_optimized.hpp:809-812 | As on a plain buffer, and the array may shrink. |
| SpaceOptimizedBuffers.SpaceOptimized.Insert | project3/boost/circular_buffer/space_optimized.hpp:847-851 | As on a plain buffer of the control capacity, with the iterator at the item even if the array was replaced. |
| SpaceOptimizedBuffers.SpaceOptimized.InsertRange | project3/boost/circular_buffer/space_optimized.hpp:1346-1350 | As on a plain buffer of the control capacity, although the inner buffer clips at its own capacity. |
| SpaceOptimizedBuffers.SpaceOptimized.Rinsert | project3/boost/circular_buffer/space_optimized.hpp:983-987 | As on a plain buffer of the control capacity, with the iterator at the item even if the array was replaced. |
| SpaceOptimizedBuffers.SpaceOptimized.RinsertRange | project3/boost/circular_buffer/space_optimized.hpp:1360-1364 | As on a plain buffer of the control capacity. |
| SpaceOptimizedBuffers.SpaceOptimized.EraseRange | project3/boost/circular_buffer/space_optimized.hpp:1139-1144 | As on a plain buffer, with the iterator's index kept when the array is replaced. |
| SpaceOptimizedBuffers.SpaceOptimized.ReraseRange | project3/boost/circular_buffer/space_optimized.hpp:1203-1208 | As on a plain buffer, with the iterator's index kept when the array is replaced. |
| SpaceOptimizedBuffers.SpaceOptimized.Clear | project3/boost/circular_buffer/space_optimized.hpp:1227 | Everything goes; the capacity and the minimum stay. |
| SpaceOptimizedBuffers.SpaceOptimized.SetCapacity | project3/boost/circular_buffer/space_optimized.hpp:201-208 | The front of the contents is kept, and the array obeys the new bounds. |
| SpaceOptimizedBuffers.SpaceOptimized.RsetCapacity | project3/boost/circular_buffer/space_optimized.hpp:272-279 | The back of the contents is kept, and the array obeys the new bounds. |
| SpaceOptimizedBuffers.SpaceOptimized.Resize | project3/boost/circular_buffer/space_optimized.hpp:237-246 | As on a plain buffer; the capacity grows if it must and the minimum stays. |
| SpaceOptimizedBuffers.SpaceOptimized.Rresize | project3/boost/circular_buffer/space_optimized.hpp:308-316 | As on a plain buffer; the capacity grows if it must and the minimum stays. |
| SpaceOptimizedBuffers.SameClipping | project3/boost/circular_buffer/space_optimized.hpp:893-897 | With room for all items, or an array as large as it may get, clipping at the array is clipping at the capacity. |
| Lockstep.Run | project3/boost/circular_buffer/space_optimized.hpp:740-1227 | Over any run of calls a plain and a space-optimized buffer that start alike have the same contents and capacity at the end, and the array of the latter is between its minimum and the capacity; at least a third of the array of the space-optimized one stays in use, unless it is at its minimum. |
| Lockstep.RunFromEmpty | project3/boost/circular_buffer/space_optimized.hpp:345-348 | The same from the capacity constructors on, where the array is never larger than its minimum or three times the contents. |
| IteratorRegistry.Registry.RegisterIterator | project3/boost/circular_buffer/debug.hpp:114-117 | The iterator becomes the head of the chain, which stays free of cycles. |
| IteratorRegistry.Registry.UnregisterIterator | project3/boost/circular_buffer/debug.hpp:123-127 | The loop ends at the iterator, and exactly that one leaves the chain. |
| IteratorRegistry.Registry.Invalidate | project3/boost/circular_buffer/debug.hpp:130-155 | Exactly the iterators that point to the cell, or exactly the others, lose their registry and leave the chain, in one pass; the order of the rest is kept. |
| IteratorRegistry.Registry.InvalidateAll | project3/boost/circular_buffer/debug.hpp:158-162 | All lose their registry, and the chain is empty. |
| IteratorRegistry.Registry.Remove | project3/boost/circular_buffer/debug.hpp:168-174 | Exactly the given iterator leaves the chain, at its head or behind the previous one. |
| LiveIterators.Create | project3/boost/circular_buffer/debug.hpp:181-189 | A new or copied iterator joins the chain of its container, and every chain still holds exactly the live iterators that name its container. |
| LiveIterators.Destroy | project3/boost/circular_buffer/debug.hpp:191 | A destroyed iterator leaves its chain, and the chains of all containers stay right. |
| LiveIterators.Assign | project3/boost/circular_buffer/debug.hpp:193-200 | Assignment moves an iterator between the chains of two containers, and the chains of all containers stay right. |
| LiveIterators.InvalidateIterators | project3/boost/circular_buffer/debug.hpp:131-141 | Exactly the container's iterators to the same cell become invalid, and all chains stay right. |
| LiveIterators.InvalidateIteratorsExcept | project3/boost/circular_buffer/debug.hpp:145-155 | Exactly the container's other iterators become invalid, and all chains stay right. |
| LiveIterators.InvalidateAllIterators | project3/boost/circular_buffer/debug.hpp:158-162 | Exactly the container's iterators become invalid, and all chains stay right. |
| LiveIterators.Attach | project3/boost/circular_buffer/debug.hpp:212-215 | An iterator that is in no chain joins that of its registry, if it has one, and all chains stay right. |
| LiveIterators.Detach | project3/boost/circular_buffer/debug.hpp:217-220 | An iterator leaves the chain of its registry, if it has one, and all chains stay right. |
| LiveIterators.Copy | project3/boost/circular_buffer/debug.hpp:186-189 | A copy is in the chain of the container of its original, points to the same cell, and all chains stay right. |
| IteratorRuns.Run | project3/boost/circular_buffer/debug.hpp:113-220 | Over any sequence of creations, copies, assignments, destructions and invalidations every chain holds exactly the live iterators of its container, and each iterator is valid, for its container and cell, exactly as the sequence of calls says. |
| IteratorRuns.RunSparing | project3/boost/circular_buffer/debug.hpp:113-220 | Over any sequence of calls an iterator that is neither assigned to nor destroyed keeps its cell, stays valid unless its container invalidates it, stays invalid once it is, and is invalid after its container has invalidated all. |
| IteratorRuns.CopyThenRun | project3/boost/circular_buffer/debug.hpp:186-189 | A copy and its original, neither assigned to nor destroyed, are valid for the same container or both invalid, at the same cell, after any further calls. |
| IteratorRuns.AssignThenRun | project3/boost/circular_buffer/debug.hpp:193-200 | The same for an iterator and the one it was assigned from. |
| LockQueue.StepKeeps | project1/part3.cpp:66-98 | Every step keeps: one holder of the mutex, a sleeper only while the queue is full or empty for it and the other one has not passed its decision to signal, and the items of the right numbers in the cells. |
| LockQueue.NeverStuck | project1/part3.cpp:66-98 | The producer and the consumer are never both asleep, and until both are done one of them can go on. |
| LockQueue.StepsCount | project1/part3.cpp:66-98 | A natural measure falls at every step. |
| LockQueue.DeliversAll | project1/part3.cpp:130-154 | Any run hands over a prefix of 0, 1, ..., n - 1 in order, has at most 16 n steps, and when nobody can go on all n items have been delivered. |
| LockQueue.SpuriousWakeupBreaks | project1/part3.cpp:86-89 | One wakeup without a signal makes the consumer take an item that was never enqueued. |
| LockQueue.SleepsOnlyWhenFull | project1/part3.cpp:66-80 | A producer left alone from the start enqueues the first min(n, capacity) items, in six steps each, and goes to sleep only then, if it has more. |
| LockQueue.EmptiesOut | project1/part3.cpp:82-97 | A consumer left alone takes out all that is in the queue, in order, in six steps each. |
| LockFreeQueue.StepKeeps | project1/part3.cpp:101-121 | Every read or write step of either side keeps the bounds of the indices, the truth of passed tests and the items in the cells. |
| LockFreeQueue.NoOverwrite | project1/part3.cpp:106-111 | The cell the producer is about to write holds no item still to be read. |
| LockFreeQueue.DeliversInOrder | project1/part3.cpp:127-154 | After any run the dequeued items are a prefix of the enqueued ones, which are 0, 1, ... in order; the length is within the capacity and the indices within n. |
| LockFreeQueue.TestEndsSpinning | project1/part3.cpp:106-116 | Two steps in a row of a side whose way is free take it out of its spin loop. |
| LockFreeQueue.SomeoneGetsThrough | project1/part3.cpp:106-116 | Until everything is delivered, one side is past its spin loop or would get through it. |
| LockFreeQueue.SpinsOnlyWhenFull | project1/part3.cpp:106-111 | A producer left alone from the start enqueues the first min(n, capacity) items, in six steps each, and spins only then, if it has more. |
| LockFreeQueue.EmptiesOut | project1/part3.cpp:113-120 | A consumer left alone takes out all that is in the queue, in order, in six steps each. |
| ArrayLock.StepKeeps | project2/ALock.cpp:49-77 | Every step of any number of threads keeps the line of tickets, the flags, the saved slot and the counts in agreement. |
| ArrayLock.FlagIsMine | project2/ALock.cpp:55-65 | Only the thread with the next ticket finds its flag set: no two outstanding tickets share a slot. |
| ArrayLock.MutualExclusion | project2/ALock.cpp:49-77 | With a slot for every thread, after any run at most one thread has the lock, it has been got in ticket order, and the only flag that may be set is that of the first ticket that has not got it yet, exactly while nobody has the lock. |
| ArrayLock.SlotsNeeded | project2/test_common.cpp:103-105 | The lock excludes in all runs exactly if it has at least as many slots as there are threads. |
| ArrayLock.NothingMiscounted | project2/second_test.cpp:155-162 | When all threads are done the unsynchronized `counter++` under the lock has counted the sum of the threads' own counters, which is one for each ticket and each time the lock was got. |
| ArrayLock.NeverStuck | project2/second_test.cpp:103-119 | In every reachable state in which not all threads are done, one of them is not waiting at an unset flag. |
| ArrayLock.RoundAlone | project2/second_test.cpp:103-119 | A thread that nobody is in line with gets the lock, counts one in both counters and passes the lock on in nine steps. |
| Rollover.RolloverSafe | project2/ALock.cpp:51-56 | Slots follow the tickets across the wrap of a ticket counter of W bits exactly if the size divides 2^W. |
| RacyCounter.CounterBounds | project1/part1.cpp:65-80 | With at least two rounds per thread, every complete interleaving leaves at least 2 and at most one count per round. |
| RacyCounter.MostReached | project1/part1.cpp:65-80 | Some complete interleaving reaches the upper bound. |
| RacyCounter.LeastReached | project1/part1.cpp:65-80 | For two or more threads some complete interleaving leaves exactly 2. |

## Left out

- Weak memory, compiler reordering and torn accesses: every read and write is atomic and takes effect in program order.
- Clocks, sleeps, random draws, back-off delays and timeouts are nondeterministic choices; that waits end is proved only where said (`LockQueue.DeliversAll`, `ReclamationLeaving.DeregLoopEnds`), and nothing is assumed about fairness.
- The collector's 64-bit clock: a fetch is possible only below 2^64 - 1, so it does not wrap.
- A full dirty list, on which the program prints a message and ends (project3/GarbageCollector.cpp:77-81): the step is not enabled in `Reclamation`, and `CollectorLists.GCNode.Discard` reports it.
- ReclamationTheorems.GracePeriod: for three or more workers only for runs whose second clock reads do not mislead the scan, because the code does not keep it in the others (`ReclamationRace.GracePeriodExactly`).
- ReclamationCalls.CallsTakeEffect: for three or more workers only for the same runs, because the code does not keep it in the others (`ReclamationMixup.CallsExactly`).
- ReclamationSweep.CleanRun: for a worker that is left alone; interleaved calls of `clean` are covered by the invariant and the theorems on runs.
- ReclamationHistory.StackIsLifo: for three or more workers only for the same runs, because the code does not keep it in the others (`ReclamationRace.LifoExactly`).
- ReclamationAccounting.NothingLostOrShared: for three or more workers only for the same runs, because the code does not keep it in the others (`ReclamationLoss.AccountingExactly`).
- ReclamationAccounting.AllNodesGivenBack: likewise (`ReclamationLoss.GivenBackExactly`); that the drain comes to an end is not part of it.
- ReclamationDrain.DirtyListsIncrease: likewise (`ReclamationLoss.DirtyIncreasingExactly`).
- ReclamationLoss.GivenBackExactly: for fewer than 2^32 workers, as the program's `uint32_t numthreads` has it (project3/Common.h:52); all of them must be able to fetch a clock.
- ReclamationLeaving.DeregLoopEnds: for calm runs, and from the time on when the other threads have gone through a `cleanup`; that they will, and that the leaving thread gets its turns, is up to the scheduler.
- `reg` and `dereg` are steps of `Reclamation` only and not methods of `CollectorLists`: the loop of `dereg` ends only with the help of other threads.
- The elimination stack together with the garbage collector: in `Elimination`, as without the collector, each push has a new node and popped nodes are not reused.
- A draw of the slot just behind the exchanger array: `Elimination` lets `visit` draw existing slots only; `EliminationTheorems.VisitStaysInside` and `EliminationTheorems.VisitsOfTheProgram` say when the code does. The signed `int range` is taken to wrap when it is doubled past 2^31.
- Slots.Slot.Get: `get` by itself, without interference; the two reads under interference are steps of `Exchanger`.
- LockQueue.DeliversAll: one producer, one consumer and no wakeup without a signal, since the code waits with `if`; `LockQueue.SpuriousWakeupBreaks` shows why.
- LockFreeQueue.DeliversInOrder: one producer and one consumer, for which the queue is meant.
- The width of `int`, `uint32_t` and `uint64_t` counters, except in `Rollover` and for the bound of `EliminationTheorems.VisitStaysInside`; `LockFreeQueue.DeliversInOrder` bounds the queue indices by n.
- `TASLock`, `TTASLock`, `BackoffLock`, `PThreadLock`, `LockStack`, project1/part2.cpp and project1/part2a.cpp: one-line exclusion or atomic increments, only easy members.
- Whether an element is constructed or assigned, except in `linearize`; exceptions from copying elements and the clean-up after them; allocators and `max_size`.
- CircularBuffers.CircularBuffer.PushBack: a new element is passed by value, so that an argument that refers into the buffer itself is not modelled; the same holds for the other insertions.
- Constructors, assignment and insertion from ranges, input iterators, `swap`, comparison operators and `array_one`, `array_two` of the circular buffers.
- Copy and assignment of the space-optimized buffer, which reset its array without regard to the minimum.
- SpaceOptimizedBuffers.SpaceOptimized.CheckLowCapacity: the doubling is on natural numbers, so its overflow for sizes above 2^63 is not modelled.
- `erase` and `rerase` of a single element on the space-optimized buffer are the range forms with a range of one.
- LiveIterators.Destroy: iterators die one at a time while their container lives; the end of a container is not part of this model.
- Parsing of arguments, printing, thread creation and timing statistics.
