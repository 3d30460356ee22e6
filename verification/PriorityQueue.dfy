/** The Python priority queue: the object whose methods, each one atomic under
    the queue's lock, take the steps of the lazy-deletion state machine. */
module PythonQueue {
  import opened Wrappers
  import opened Requests
  import opened LazyQueue
  import opened QueueLaws
  import opened HeapArray
  import opened WaitWindow

  /** How many milliseconds the item has waited. */
  function WaitMs(item: Item, now: real): (ms: real)
    ensures item.time + ms / 1000.0 == now
  {
    (now - item.time) * 1000.0
  }

  class PriorityQueue {
    var heap: seq<Item>
    var pending: map<Id, Item>
    var cancelled: set<Id>
    var totalEnqueued: nat
    var totalDequeued: nat
    var totalCancelled: nat
    var waitTimes: seq<real>
    ghost var updates: nat
    ghost var history: seq<real>

    ghost function Abs(): State
      reads this
    {
      State(multiset(heap), pending, cancelled, totalEnqueued, totalDequeued, totalCancelled, updates)
    }

    /** The window holds the latest waits: all of them for as long as there are at
        most 10000; then it is cut to 5000 each time it would exceed 10000. */
    ghost predicate WindowOk()
      reads this
    {
      && IsLatest(waitTimes, history)
      && |waitTimes| == WindowSize(|history|)
    }

    /** The heap and the tables agree. */
    ghost predicate TablesOk()
      reads this
    {
      && IsHeap(PriorityThenTime, heap)
      && Sound(Abs()) && PendingInHeap(Abs()) && Balanced(Abs())
    }

    ghost predicate Valid()
      reads this
    {
      TablesOk() && WindowOk() && |history| == totalDequeued
    }

    constructor ()
      ensures Valid() && Abs() == EMPTY
    {
      heap, pending, cancelled := [], map[], {};
      totalEnqueued, totalDequeued, totalCancelled, updates := 0, 0, 0, 0;
      waitTimes, history := [], [];
    }

    /** Every step keeps the object consistent. */
    twostate lemma StepKeepsValid(e: Event)
      requires old(TablesOk()) && Enabled(PriorityThenTime, old(Abs()), e) && !e.Age?
      requires IsHeap(PriorityThenTime, heap) && Abs() == Apply(old(Abs()), e)
      ensures TablesOk()
    {
      StepKeepsSound(PriorityThenTime, old(Abs()), e);
      StepKeepsPendingInHeap(PriorityThenTime, old(Abs()), e);
    }

    method Enqueue(id: Id, priority: real, payload: Request, now: real)
      requires Valid()
      modifies this
      ensures Valid() && history == old(history)
      ensures Abs() == Apply(old(Abs()), Event.Enqueue(Item(priority, now, id, payload)))
    {
      var item := Item(priority, now, id, payload);
      heap := HeapPush(PriorityThenTime, heap, item);
      pending := pending[id := item];
      totalEnqueued := totalEnqueued + 1;
      StepKeepsValid(Event.Enqueue(item));
    }

    method Cancel(id: Id) returns (ok: bool)
      requires Valid()
      modifies this`cancelled
      ensures Valid() && ok == (id in old(pending))
      ensures Abs() == Apply(old(Abs()), Event.Cancel(id, ok))
    {
      ok := id in pending;
      if ok {
        cancelled := cancelled + {id};
      }
      StepKeepsValid(Event.Cancel(id, ok));
    }

    method UpdatePriority(id: Id, priority: real) returns (ok: bool)
      requires Valid()
      modifies this
      ensures Valid() && ok == (id in old(pending)) && history == old(history)
      ensures Abs() == Apply(old(Abs()), Event.Update(id, priority, ok))
    {
      ok := id in pending;
      if ok {
        Reenter(Item(priority, pending[id].time, id, pending[id].payload));
      }
      StepKeepsValid(Event.Update(id, priority, ok));
    }

    /** The mark set first is taken away again at the end. */
    method Reenter(item: Item)
      requires IsHeap(PriorityThenTime, heap)
      modifies this`heap, this`pending, this`cancelled, this`updates
      ensures IsHeap(PriorityThenTime, heap) && multiset(heap) == old(multiset(heap)) + multiset{item}
      ensures pending == old(pending)[item.id := item] && cancelled == old(cancelled) - {item.id}
      ensures updates == old(updates) + 1
    {
      cancelled := cancelled + {item.id};
      heap := HeapPush(PriorityThenTime, heap, item);
      pending := pending[item.id := item];
      cancelled := cancelled - {item.id};
      updates := updates + 1;
    }

    method RecordWait(ms: real)
      requires WindowOk()
      modifies this`waitTimes, this`history
      ensures WindowOk() && history == old(history) + [ms] && Abs() == old(Abs())
    {
      LatestOneMore(waitTimes, history, ms, |waitTimes| + 1);
      if |waitTimes| == 10000 {
        LatestOneMore(waitTimes, history, ms, 5000);
      }
      waitTimes, history := waitTimes + [ms], history + [ms];
      if |waitTimes| > 10000 {
        waitTimes := waitTimes[|waitTimes| - 5000..];
      }
    }

    /** Pops the root and disposes of it: `dropped` tells which way. */
    method PopOne() returns (item: Item, dropped: bool)
      requires TablesOk() && heap != []
      modifies this`heap, this`pending, this`cancelled, this`totalDequeued, this`totalCancelled
      ensures TablesOk() && |heap| < |old(heap)|
      ensures dropped == (item.id in old(cancelled))
      ensures var e := if dropped then Event.Discard(item) else Event.Deliver(item);
              Enabled(PriorityThenTime, old(Abs()), e) && Abs() == Apply(old(Abs()), e)
    {
      item, heap := HeapPop(PriorityThenTime, heap);
      dropped := item.id in cancelled;
      pending := pending - {item.id};
      if dropped {
        cancelled := cancelled - {item.id};
        totalCancelled := totalCancelled + 1;
        StepKeepsValid(Event.Discard(item));
      } else {
        totalDequeued := totalDequeued + 1;
        StepKeepsValid(Event.Deliver(item));
      }
      assert |multiset(heap)| < |multiset(old(heap))|;
    }

    /** Pops until an item is not cancelled. */
    method PopLive() returns (got: Option<Item>, ghost discards: seq<Item>)
      requires TablesOk()
      modifies this`heap, this`pending, this`cancelled, this`totalDequeued, this`totalCancelled
      ensures TablesOk() && Dequeues(PriorityThenTime, old(Abs()), discards, got)
      ensures Abs() == After(old(Abs()), Pops(discards, got))
      ensures totalDequeued == old(totalDequeued) + if got.Some? then 1 else 0
      ensures got.None? ==> heap == [] && pending == map[] && cancelled == {}
    {
      discards := [];
      while heap != []
        invariant TablesOk() && totalDequeued == old(totalDequeued)
        invariant Legal(PriorityThenTime, old(Abs()), Discards(discards))
        invariant Abs() == After(old(Abs()), Discards(discards))
        decreases |heap|
      {
        var item, dropped := PopOne();
        if dropped {
          DiscardOneMore(PriorityThenTime, old(Abs()), discards, item);
          discards := discards + [item];
        } else {
          PassDelivers(PriorityThenTime, old(Abs()), discards, item);
          got := Some(item);
          return;
        }
      }
      got := None;
      PassDrains(PriorityThenTime, old(Abs()), discards);
      EmptyLeavesNothing(Abs());
    }

    /** One pass of the dequeue loop.  The result is `None` exactly when the
        caller has to wait or to report a timeout, and then nothing is pending. */
    method Dequeue(now: real) returns (got: Option<Item>, ghost discards: seq<Item>)
      requires Valid()
      modifies this
      ensures Valid() && Dequeues(PriorityThenTime, old(Abs()), discards, got)
      ensures Abs() == After(old(Abs()), Pops(discards, got))
      ensures history == if got.Some? then old(history) + [WaitMs(got.value, now)] else old(history)
      ensures totalEnqueued == old(totalEnqueued)
      ensures got.None? ==> heap == [] && pending == map[] && cancelled == {}
    {
      got, discards := PopLive();
      if got.Some? {
        RecordWait(WaitMs(got.value, now));
      }
    }
  }
}
