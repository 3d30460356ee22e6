/** The Go twin: a slice of item pointers kept as a heap, each item knowing its
    own slot, and the engine around it. */
module GoHeap {
  import opened Requests
  import H = HeapArray

  class HeapItem {
    const item: Item
    var index: int

    constructor (item: Item)
      ensures this.item == item && index == 0
    {
      this.item := item;
      index := 0;
    }
  }

  function ItemsOf(slots: seq<HeapItem>): (items: seq<Item>)
    ensures |items| == |slots|
  {
    seq(|slots|, i requires 0 <= i < |slots| => slots[i].item)
  }

  /** The same item objects, in another order. */
  ghost predicate Shuffled(a: seq<HeapItem>, b: seq<HeapItem>) {
    && |a| == |b| && (forall i :: 0 <= i < |b| ==> b[i] in a) && (forall i :: 0 <= i < |a| ==> a[i] in b)
    && multiset(ItemsOf(a)) == multiset(ItemsOf(b))
  }

  lemma ShuffledTrans(a: seq<HeapItem>, b: seq<HeapItem>, c: seq<HeapItem>)
    requires Shuffled(a, b) && Shuffled(b, c)
    ensures Shuffled(a, c)
  {
  }

  class PriorityHeap {
    var slots: seq<HeapItem>

    /** Slot i holds an item whose index is i; so no item is in two slots. */
    ghost predicate Indexed()
      reads this, slots
    {
      forall i :: 0 <= i < |slots| ==> slots[i].index == i
    }

    ghost predicate Valid()
      reads this, slots
    {
      Indexed() && H.IsHeap(PriorityOnly, ItemsOf(slots))
    }

    constructor ()
      ensures Valid() && slots == []
    {
      slots := [];
    }

    predicate Less(i: nat, j: nat)
      reads this
      requires i < |slots| && j < |slots|
    {
      slots[i].item.priority < slots[j].item.priority
    }

    method Swap(i: nat, j: nat)
      requires Indexed() && i < |slots| && j < |slots|
      modifies this, slots
      ensures Indexed() && slots == H.Swap(old(slots), i, j)
      ensures ItemsOf(slots) == H.Swap(old(ItemsOf(slots)), i, j)
      ensures Shuffled(old(slots), slots)
    {
      slots := slots[i := slots[j]][j := slots[i]];
      slots[i].index := i;
      slots[j].index := j;
    }

    /** `heap.Interface.Push`: append. */
    method Append(x: HeapItem)
      requires Indexed() && x !in slots
      modifies this, x
      ensures Indexed() && slots == old(slots) + [x]
    {
      x.index := |slots|;
      slots := slots + [x];
    }

    /** `heap.Interface.Pop`: remove the last slot and unlink its item. */
    method RemoveLast() returns (x: HeapItem)
      requires Indexed() && slots != []
      modifies this, slots
      ensures Indexed() && old(slots) == slots + [x] && x.index == -1
    {
      x := slots[|slots|-1];
      x.index := -1;
      slots := slots[..|slots|-1];
    }

    /** Swaps slot `j` with its parent, as one round of `up`. */
    method UpOne(j: nat)
      requires 0 < j < |slots| && Indexed() && H.HeapUpTo(PriorityOnly, ItemsOf(slots), j)
      requires Less(j, H.Parent(j))
      modifies this, slots
      ensures Indexed() && Shuffled(old(slots), slots)
      ensures H.HeapUpTo(PriorityOnly, ItemsOf(slots), H.Parent(j))
    {
      H.SiftUpStep(PriorityOnly, ItemsOf(slots), j);
      Swap(H.Parent(j), j);
    }

    method Up(start: nat)
      requires Indexed() && start < |slots| && H.HeapUpTo(PriorityOnly, ItemsOf(slots), start)
      modifies this, slots
      ensures Valid() && Shuffled(old(slots), slots)
    {
      var j := start;
      while j > 0 && Less(j, H.Parent(j))
        invariant 0 <= j < |slots| && Indexed() && Shuffled(old(slots), slots)
        invariant H.HeapUpTo(PriorityOnly, ItemsOf(slots), j)
        decreases j
      {
        UpOne(j);
        j := H.Parent(j);
      }
      H.SiftUpDone(PriorityOnly, ItemsOf(slots), j);
    }

    /** The child of slot `j` that `down` compares with, among the first `n`. */
    method ChooseChild(j: nat, n: nat) returns (c: nat)
      requires 2 * j + 1 < n <= |slots|
      ensures H.FirstChild(PriorityOnly, ItemsOf(slots)[..n], j, c) && c > j
    {
      c := 2 * j + 1;
      if c + 1 < n && Less(c + 1, c) {
        c := c + 1;
      }
    }

    method DownOne(j: nat, c: nat, n: nat)
      requires n <= |slots| && Indexed() && H.FirstChild(PriorityOnly, ItemsOf(slots)[..n], j, c)
      requires H.HeapBelow(PriorityOnly, ItemsOf(slots)[..n], j) && Less(c, j)
      modifies this, slots
      ensures Indexed() && Shuffled(old(slots), slots) && slots[n..] == old(slots[n..])
      ensures H.HeapBelow(PriorityOnly, ItemsOf(slots)[..n], c)
    {
      ghost var items := ItemsOf(slots);
      H.SiftDownStep(PriorityOnly, items[..n], j, c);
      Swap(j, c);
      assert ItemsOf(slots)[..n] == H.Swap(items[..n], j, c);
    }

    method Down(n: nat)
      requires 0 < n <= |slots| && Indexed() && H.HeapBelow(PriorityOnly, ItemsOf(slots)[..n], 0)
      modifies this, slots
      ensures Indexed() && Shuffled(old(slots), slots) && slots[n..] == old(slots[n..])
      ensures H.IsHeap(PriorityOnly, ItemsOf(slots)[..n])
    {
      var j := 0;
      while 2 * j + 1 < n
        invariant 0 <= j < n <= |slots| && Indexed() && Shuffled(old(slots), slots) && slots[n..] == old(slots[n..])
        invariant H.HeapBelow(PriorityOnly, ItemsOf(slots)[..n], j)
        decreases n - j
      {
        var c := ChooseChild(j, n);
        if !Less(c, j) {
          break;
        }
        DownOne(j, c, n);
        j := c;
      }
      H.SiftDownDone(PriorityOnly, ItemsOf(slots)[..n], j);
    }

    /** `heap.Push`. */
    method Push(x: HeapItem)
      requires Valid() && x !in slots
      modifies this, slots, x
      ensures Valid() && Shuffled(old(slots) + [x], slots)
    {
      Append(x);
      Up(|slots| - 1);
    }

    method SwapRootOut(n: nat)
      requires Valid() && n == |slots| - 1
      modifies this, slots
      ensures Indexed() && Shuffled(old(slots), slots) && slots[n] == old(slots[0])
      ensures H.HeapBelow(PriorityOnly, ItemsOf(slots)[..n], 0)
    {
      Swap(0, n);
    }

    /** Brings the root to the last slot and makes the others a heap. */
    method Sink(n: nat)
      requires Valid() && n == |slots| - 1
      modifies this, slots
      ensures Indexed() && Shuffled(old(slots), slots) && slots[n] == old(slots[0])
      ensures H.IsHeap(PriorityOnly, ItemsOf(slots)[..n])
    {
      SwapRootOut(n);
      if n > 0 {
        ghost var mid := slots;
        Down(n);
        ShuffledTrans(old(slots), mid, slots);
        assert slots[n] == slots[n..][0];
      }
    }

    /** `heap.Pop`: a first item leaves, with index -1; the rest stay a heap. */
    method Pop() returns (x: HeapItem)
      requires Valid() && slots != []
      modifies this, slots
      ensures Valid() && Shuffled(old(slots), slots + [x]) && x.index == -1
      ensures IsFirst(PriorityOnly, x.item, multiset(ItemsOf(old(slots))))
    {
      ghost var items := ItemsOf(slots);
      H.RootIsFirst(PriorityOnly, items);
      ghost var root := slots[0];
      assert items[0] == root.item;
      Sink(|slots| - 1);
      x := RemoveLast();
      assert ItemsOf(slots) == ItemsOf(slots + [x])[..|slots|];
    }
  }
}

module GoEngine {
  import opened Wrappers
  import opened Requests
  import opened LazyQueue
  import opened QueueLaws
  import opened GoHeap

  /** A request as the pending table points to it; aging rewrites `priority`. */
  datatype Entry = Entry(req: Request, predicted: real, priority: real, enqueuedAt: real)

  const AGING_FACTOR := 0.001

  function AgedPriority(entry: Entry, now: real): real {
    var boost := AGING_FACTOR * (now - entry.enqueuedAt) * 1000.0;
    entry.predicted - if boost > 500.0 then 500.0 else boost
  }

  /** What a tick may do to an entry: its priority is the prediction lowered by one
      per second since submission, by at most 500. */
  predicate Aged(old': Entry, new': Entry, now: real) {
    var wait := now - old'.enqueuedAt;
    && new' == old'.(priority := new'.priority)
    && (wait <= 500.0 ==> new'.priority == old'.predicted - wait)
    && (wait >= 500.0 ==> new'.priority == old'.predicted - 500.0)
  }

  lemma AgedPriorityAges(entry: Entry, now: real)
    ensures Aged(entry, entry.(priority := AgedPriority(entry, now)), now)
  {
  }

  predicate Within(a: map<Id, Entry>, b: map<Id, Entry>) {
    forall id :: id in a ==> id in b && a[id] == b[id]
  }

  function AgedPriorities(pending: map<Id, Entry>, now: real): map<Id, real> {
    map id | id in pending :: AgedPriority(pending[id], now)
  }

  function View(pending: map<Id, Entry>): map<Id, Item> {
    map id | id in pending :: Item(pending[id].priority, pending[id].enqueuedAt, id, pending[id].req)
  }

  lemma ViewRemove(pending: map<Id, Entry>, id: Id)
    ensures View(pending - {id}) == View(pending) - {id}
  {
  }

  lemma ViewAged(s: State, before: map<Id, Entry>, after: map<Id, Entry>, now: real)
    requires s.pending == View(before)
    requires after == map id | id in before :: before[id].(priority := AgedPriority(before[id], now))
    ensures View(after) == Apply(s, Age(AgedPriorities(before, now))).pending
  {
  }

  lemma ViewEmpty(pending: map<Id, Entry>)
    requires View(pending) == map[]
    ensures pending == map[]
  {
    assert View(pending).Keys == pending.Keys;
  }

  class Engine {
    const heap: PriorityHeap
    var pending: map<Id, Entry>
    var cancelled: set<Id>
    var scheduled: nat
    ghost var dequeued: nat
    ghost var discarded: nat

    ghost function Abs(): State
      reads this, heap
    {
      State(multiset(ItemsOf(heap.slots)), View(pending), cancelled, scheduled, dequeued, discarded, 0)
    }

    ghost predicate Valid()
      reads this, heap, heap.slots
    {
      heap.Valid() && Sound(Abs()) && Balanced(Abs())
    }

    constructor ()
      ensures Valid() && Abs() == EMPTY && fresh(heap)
    {
      heap := new PriorityHeap();
      pending, cancelled, scheduled, dequeued, discarded := map[], {}, 0, 0, 0;
    }

    twostate lemma StepKeepsValid(e: Event)
      requires old(Valid()) && Enabled(PriorityOnly, old(Abs()), e)
      requires heap.Valid() && Abs() == Apply(old(Abs()), e)
      ensures Valid()
    {
      StepKeepsSound(PriorityOnly, old(Abs()), e);
    }

    method Submit(req: Request, predictedTokens: real, now: real)
      requires Valid()
      modifies this, heap, heap.slots
      ensures Valid()
      ensures var priority := if predictedTokens <= 0.0 then req.maxTokens as real else predictedTokens;
              && Abs() == Apply(old(Abs()), Enqueue(Item(priority, now, req.id, req)))
              && pending == old(pending)[req.id := Entry(req, priority, priority, now)]
    {
      var priority := if predictedTokens <= 0.0 then req.maxTokens as real else predictedTokens;
      pending := pending[req.id := Entry(req, priority, priority, now)];
      var x := new HeapItem(Item(priority, now, req.id, req));
      ghost var items := ItemsOf(heap.slots);
      assert ItemsOf(heap.slots + [x]) == items + [x.item];
      heap.Push(x);
      scheduled := scheduled + 1;
      assert Abs() == Apply(old(Abs()), Enqueue(x.item));
      StepKeepsValid(Enqueue(x.item));
    }

    method Cancel(id: Id) returns (ok: bool)
      requires Valid()
      modifies this`cancelled
      ensures Valid() && ok == (id in old(pending))
      ensures Abs() == Apply(old(Abs()), Event.Cancel(id, ok))
    {
      ok := id in pending;
      if ok {
        cancelled := cancelled + {id};
      }
      StepKeepsValid(Event.Cancel(id, ok));
    }

    method RewritePending(now: real)
      modifies this`pending
      ensures pending == map id | id in old(pending) ::
                old(pending)[id].(priority := AgedPriority(old(pending)[id], now))
      ensures forall id :: id in pending ==> Aged(old(pending)[id], pending[id], now)
    {
      var todo := pending.Keys;
      while todo != {}
        invariant todo <= pending.Keys == old(pending).Keys
        invariant forall id :: id in todo ==> pending[id] == old(pending)[id]
        invariant forall id :: id in pending && id !in todo ==>
                    pending[id] == old(pending)[id].(priority := AgedPriority(old(pending)[id], now))
        decreases |todo|
      {
        var id :| id in todo;
        pending := pending[id := pending[id].(priority := AgedPriority(pending[id], now))];
        todo := todo - {id};
      }
      forall id | id in pending ensures Aged(old(pending)[id], pending[id], now) {
        AgedPriorityAges(old(pending)[id], now);
      }
    }

    /** One tick of the aging loop. */
    method AgingTick(now: real)
      requires Valid()
      modifies this`pending
      ensures Valid()
      ensures Abs() == Apply(old(Abs()), Age(AgedPriorities(old(pending), now)))
      ensures pending.Keys == old(pending).Keys
      ensures forall id :: id in pending ==> Aged(old(pending)[id], pending[id], now)
    {
      RewritePending(now);
      ViewAged(old(Abs()), old(pending), pending, now);
      StepKeepsValid(Age(AgedPriorities(old(pending), now)));
    }

    method TakeRoot() returns (item: Item)
      requires heap.Valid() && heap.slots != []
      modifies heap, heap.slots
      ensures heap.Valid() && |heap.slots| == |old(heap.slots)| - 1
      ensures forall i :: 0 <= i < |heap.slots| ==> heap.slots[i] in old(heap.slots)
      ensures IsFirst(PriorityOnly, item, old(multiset(ItemsOf(heap.slots))))
      ensures multiset(ItemsOf(heap.slots)) == old(multiset(ItemsOf(heap.slots))) - multiset{item}
    {
      var x := heap.Pop();
      item := x.item;
      assert ItemsOf(heap.slots + [x]) == ItemsOf(heap.slots) + [item];
      forall i | 0 <= i < |heap.slots|
        ensures heap.slots[i] in old(heap.slots)
      {
        assert heap.slots[i] == (heap.slots + [x])[i];
      }
    }

    /** Takes a popped request off the books; a cancelled one loses its mark. */
    method Settle(id: Id) returns (dropped: bool)
      modifies this
      ensures dropped == (id in old(cancelled)) && pending == old(pending) - {id} && scheduled == old(scheduled)
      ensures dropped ==>
                cancelled == old(cancelled) - {id} && discarded == old(discarded) + 1 && dequeued == old(dequeued)
      ensures !dropped ==> cancelled == old(cancelled) && discarded == old(discarded) && dequeued == old(dequeued) + 1
    {
      dropped := id in cancelled;
      pending := pending - {id};
      if dropped {
        cancelled := cancelled - {id};
        discarded := discarded + 1;
      } else {
        dequeued := dequeued + 1;
      }
    }

    method PopOne() returns (item: Item, dropped: bool)
      requires Valid() && heap.slots != []
      modifies this, heap, heap.slots
      ensures Valid() && |heap.slots| < |old(heap.slots)|
      ensures forall i :: 0 <= i < |heap.slots| ==> heap.slots[i] in old(heap.slots)
      ensures dropped == (item.id in old(cancelled)) && pending == old(pending) - {item.id}
      ensures var e := if dropped then Discard(item) else Deliver(item);
              Enabled(PriorityOnly, old(Abs()), e) && Abs() == Apply(old(Abs()), e)
    {
      item := TakeRoot();
      dropped := Settle(item.id);
      ViewRemove(old(pending), item.id);
      StepKeepsValid(if dropped then Discard(item) else Deliver(item));
    }

    /** One pass of the acquire loop under the mutex; `None` means: wait. */
    method Acquire() returns (got: Option<Item>, ghost discards: seq<Item>)
      requires Valid()
      modifies this, heap, heap.slots
      ensures Valid() && Dequeues(PriorityOnly, old(Abs()), discards, got)
      ensures Abs() == After(old(Abs()), Pops(discards, got))
      ensures Within(pending, old(pending))
      ensures got.None? ==> heap.slots == [] && pending == map[] && cancelled == {}
    {
      discards := [];
      while heap.slots != []
        invariant Valid()
        invariant forall i :: 0 <= i < |heap.slots| ==> heap.slots[i] in old(heap.slots)
        invariant Within(pending, old(pending))
        invariant Legal(PriorityOnly, old(Abs()), Discards(discards))
        invariant Abs() == After(old(Abs()), Discards(discards))
        decreases |heap.slots|
      {
        var item, dropped := PopOne();
        if dropped {
          DiscardOneMore(PriorityOnly, old(Abs()), discards, item);
          discards := discards + [item];
        } else {
          PassDelivers(PriorityOnly, old(Abs()), discards, item);
          got := Some(item);
          return;
        }
      }
      got := None;
      PassDrains(PriorityOnly, old(Abs()), discards);
      EmptyLeavesNothing(Abs());
      ViewEmpty(pending);
    }
  }
}
