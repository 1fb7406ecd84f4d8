/** All containers and all live iterators of a program, and what the debug support does to them. */
module LiveIterators {
  import opened IteratorRegistry

  /**
    Every chain is well linked and holds exactly the live iterators that name
    its container as their registry.
   */
  ghost predicate Consistent(regs: set<Registry>, live: set<DebugIterator>)
    reads regs, live`next, live`registry
  {
    && (forall r, it | r in regs && it in r.chain :: it in live)
    && (forall r | r in regs :: r.Linked())
    && (forall r, it | r in regs && it in live :: it in r.chain <==> it.registry == r)
    && (forall it | it in live :: it.registry == null || it.registry in regs)
  }

  /** An iterator of a container, or of none, comes to life. */
  method Create(ghost regs: set<Registry>, ghost live: set<DebugIterator>, registry: Registry?, element: nat)
    returns (it: DebugIterator)
    requires Consistent(regs, live) && (registry == null || registry in regs)
    modifies if registry == null then {} else {registry}
    ensures fresh(it) && it.registry == registry && it.element == element
    ensures Consistent(regs, live + {it})
  {
    it := new DebugIterator(registry, element);
    Attach(regs, live, it);
  }

  /** The copy constructor: the copy joins the chain that its original is in, for the same cell. */
  method Copy(ghost regs: set<Registry>, ghost live: set<DebugIterator>, rhs: DebugIterator) returns (it: DebugIterator)
    requires Consistent(regs, live) && rhs in live
    modifies if rhs.registry == null then {} else {rhs.registry}
    ensures fresh(it) && it.registry == rhs.registry && it.element == rhs.element
    ensures Consistent(regs, live + {it})
  {
    it := new DebugIterator(rhs.registry, rhs.element);
    Attach(regs, live, it);
  }

  /** `register_self` */
  method Attach(ghost regs: set<Registry>, ghost live: set<DebugIterator>, it: DebugIterator)
    requires Consistent(regs, live) && (it.registry == null || it.registry in regs)
    requires it !in live
    modifies if it.registry == null then {} else {it.registry}, it`next
    ensures Consistent(regs, live + {it})
  {
    if it.registry != null { it.registry.RegisterIterator(it); }
  }

  /** `unregister_self`, after which the iterator is in no chain. */
  method Detach(ghost regs: set<Registry>, ghost live: set<DebugIterator>, it: DebugIterator)
    requires Consistent(regs, live) && it in live
    modifies if it.registry == null then {} else {it.registry}, live`next
    ensures Consistent(regs, live - {it})
  {
    if it.registry != null {
      var r := it.registry;
      r.UnregisterIterator(it);
      forall q | q in regs && q != r ensures q.Linked() {
        forall i | 0 <= i < |q.chain| ensures q.chain[i].next == old(q.chain[i].next) {
          assert old(q.chain[i].registry) == q;
        }
      }
    }
  }

  /** The destructor. */
  method Destroy(ghost regs: set<Registry>, ghost live: set<DebugIterator>, it: DebugIterator)
    requires Consistent(regs, live) && it in live
    modifies if it.registry == null then {} else {it.registry}, live`next
    ensures Consistent(regs, live - {it})
  {
    Detach(regs, live, it);
  }

  lemma OwnerKnown(regs: set<Registry>, live: set<DebugIterator>, it: DebugIterator)
    requires Consistent(regs, live) && it in live
    ensures it.registry == null || it.registry in regs
  {
  }

  /** Assignment moves an iterator from one chain to another, if they differ. */
  method Assign(ghost regs: set<Registry>, ghost live: set<DebugIterator>, it: DebugIterator, rhs: DebugIterator)
    requires Consistent(regs, live) && it in live && rhs in live
    modifies if it.registry == null then {} else {it.registry}, if rhs.registry == null then {} else {rhs.registry}
    modifies live`next, it`registry, it`element
    ensures Consistent(regs, live)
    ensures it.registry == old(rhs.registry) && it.element == old(rhs.element)
  {
    OwnerKnown(regs, live, it);
    OwnerKnown(regs, live, rhs);
    hide Consistent;
    if it.registry != rhs.registry { MoveOver(regs, live, it, rhs.registry); }
    it.element := rhs.element;
  }

  /** From one chain to another. */
  method MoveOver(ghost regs: set<Registry>, ghost live: set<DebugIterator>, it: DebugIterator, registry: Registry?)
    requires Consistent(regs, live) && it in live && (registry == null || registry in regs)
    requires it.registry == null || it.registry in regs
    modifies if it.registry == null then {} else {it.registry}, if registry == null then {} else {registry}
    modifies live`next, it`registry
    ensures Consistent(regs, live) && it.registry == registry
  {
    hide Consistent;
    Detach(regs, live, it);
    MoveTo(regs, live - {it}, it, registry);
    assert live - {it} + {it} == live;
  }

  method MoveTo(ghost regs: set<Registry>, ghost live: set<DebugIterator>, it: DebugIterator, registry: Registry?)
    requires Consistent(regs, live) && (registry == null || registry in regs)
    requires it !in live
    modifies it`registry, it`next, if registry == null then {} else {registry}
    ensures Consistent(regs, live + {it}) && it.registry == registry
  {
    it.registry := registry;
    Attach(regs, live, it);
  }

  /** Iterators of `r` that point to the same cell as `it` become invalid, the others stay as they are. */
  method InvalidateIterators(ghost regs: set<Registry>, ghost live: set<DebugIterator>, r: Registry, it: DebugIterator)
    requires Consistent(regs, live) && r in regs
    modifies r, live`next, live`registry
    ensures Consistent(regs, live)
    ensures forall i | i in live ::
              i.registry == if old(i.registry) == r && i.element == it.element then null else old(i.registry)
  {
    InvalidateWhere(regs, live, r, it.element, true);
  }

  method InvalidateIteratorsExcept(ghost regs: set<Registry>, ghost live: set<DebugIterator>,
                                   r: Registry, it: DebugIterator)
    requires Consistent(regs, live) && r in regs
    modifies r, live`next, live`registry
    ensures Consistent(regs, live)
    ensures forall i | i in live ::
              i.registry == if old(i.registry) == r && i.element != it.element then null else old(i.registry)
  {
    InvalidateWhere(regs, live, r, it.element, false);
  }

  method InvalidateWhere(ghost regs: set<Registry>, ghost live: set<DebugIterator>, r: Registry, x: nat, same: bool)
    requires Consistent(regs, live) && r in regs
    modifies r, live`next, live`registry
    ensures Consistent(regs, live)
    ensures forall i | i in live ::
              i.registry == if old(i.registry) == r && ((i.element == x) == same) then null else old(i.registry)
  {
    r.Invalidate(x, same);
    forall q | q in regs && q != r ensures q.Linked() {
      forall i | 0 <= i < |q.chain| ensures q.chain[i].next == old(q.chain[i].next) {
        assert old(q.chain[i].registry) == q;
      }
    }
  }

  method InvalidateAllIterators(ghost regs: set<Registry>, ghost live: set<DebugIterator>, r: Registry)
    requires Consistent(regs, live) && r in regs
    modifies r, live`registry
    ensures Consistent(regs, live)
    ensures forall i | i in live :: i.registry == if old(i.registry) == r then null else old(i.registry)
  {
    r.InvalidateAll();
    forall q | q in regs && q != r ensures q.Linked() {
      forall i | 0 <= i < |q.chain| ensures q.chain[i].next == old(q.chain[i].next) {
        assert old(q.chain[i].registry) == q;
      }
    }
  }
}
