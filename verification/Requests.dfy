/** Requests, the heap items that carry them, and the two dispatch orders of
    the repository's queues. */
module Requests {

  /** Request ids are uuid strings, compared for equality only. */
  datatype Id = Id(uuid: string)

  /** The fixed part of a scheduled request.  Its mutable `priority` attribute
      is kept by the scheduler, in a table keyed by id. */
  datatype Request = Request(id: Id, maxTokens: int, created: real)

  datatype Item = Item(priority: real, time: real, id: Id, payload: Request)

  /** Python and C++ order by (priority, enqueue time); Go by priority alone. */
  datatype Order = PriorityThenTime | PriorityOnly

  /** May `a` be popped while `b` is in the heap? */
  predicate Before(ord: Order, a: Item, b: Item) {
    match ord
    case PriorityThenTime => a.priority < b.priority || (a.priority == b.priority && a.time <= b.time)
    case PriorityOnly => a.priority <= b.priority
  }

  ghost predicate IsFirst(ord: Order, x: Item, heap: multiset<Item>) {
    x in heap && forall y :: y in heap ==> Before(ord, x, y)
  }

  /** A non-empty heap has an item that may be popped. */
  lemma {:induction false} FirstExists(ord: Order, heap: multiset<Item>) returns (x: Item)
    requires heap != multiset{}
    ensures IsFirst(ord, x, heap)
    decreases |heap|
  {
    x :| x in heap;
    var rest := heap - multiset{x};
    if rest != multiset{} {
      var y := FirstExists(ord, rest);
      assert forall z :: z in heap ==> z == x || z in rest;
      x := if Before(ord, x, y) then x else y;
    } else {
      assert forall z :: z in heap ==> z == x || z in rest;
    }
  }

  /** The number of items of `heap` that belong to request `id`. */
  ghost function Copies(heap: multiset<Item>, id: Id): nat
    decreases |heap|
  {
    if heap == multiset{} then 0 else
      var x :| x in heap;
      (if x.id == id then 1 else 0) + Copies(heap - multiset{x}, id)
  }

  lemma {:induction false} CopiesRemove(heap: multiset<Item>, x: Item, id: Id)
    requires x in heap
    ensures Copies(heap, id) == (if x.id == id then 1 else 0) + Copies(heap - multiset{x}, id)
    decreases |heap|
  {
    var y :| y in heap && Copies(heap, id) == (if y.id == id then 1 else 0) + Copies(heap - multiset{y}, id);
    if y != x {
      CopiesRemove(heap - multiset{y}, x, id);
      CopiesRemove(heap - multiset{x}, y, id);
      assert heap - multiset{y} - multiset{x} == heap - multiset{x} - multiset{y};
    }
  }

  lemma CopiesAdd(heap: multiset<Item>, x: Item, id: Id)
    ensures Copies(heap + multiset{x}, id) == Copies(heap, id) + if x.id == id then 1 else 0
  {
    CopiesRemove(heap + multiset{x}, x, id);
    assert heap + multiset{x} - multiset{x} == heap;
  }

  /** A request has no copy exactly when no item of the heap is its. */
  lemma {:induction false} CopiesZero(heap: multiset<Item>, id: Id)
    ensures Copies(heap, id) == 0 <==> forall x :: x in heap ==> x.id != id
    decreases |heap|
  {
    if heap != multiset{} {
      var y :| y in heap && Copies(heap, id) == (if y.id == id then 1 else 0) + Copies(heap - multiset{y}, id);
      var rest := heap - multiset{y};
      CopiesZero(rest, id);
      assert forall z :: z in heap <==> z == y || z in rest;
      if Copies(heap, id) != 0 && y.id != id {
        var z :| z in rest && z.id == id;
        assert z in heap;
      }
    }
  }
}
