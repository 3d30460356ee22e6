/** The priority queue with lazy deletion, as a state machine over its atomic
    steps.  The heap is a bag of which any first item may be popped; the array
    heaps of the three implementations refine it. */
module LazyQueue {
  import opened Wrappers
  import opened Requests

  /** `updated` counts the successful re-prioritisations; the other counters
      are the queue's own statistics. */
  datatype State = State(
    heap: multiset<Item>,
    pending: map<Id, Item>,
    cancelled: set<Id>,
    enqueued: nat,
    dequeued: nat,
    discarded: nat,
    updated: nat)

  const EMPTY := State(multiset{}, map[], {}, 0, 0, 0, 0)

  /** `Discard` and `Deliver` are the two ways a dequeue disposes of a popped
      item.  `Age` is what the C++ and Go aging passes do: they rewrite
      priorities in the pending table and leave the heap alone. */
  datatype Event =
    | Enqueue(item: Item)
    | Cancel(id: Id, ok: bool)
    | Update(id: Id, priority: real, ok: bool)
    | Discard(item: Item)
    | Deliver(item: Item)
    | Age(priorities: map<Id, real>)

  ghost predicate Enabled(ord: Order, s: State, e: Event) {
    match e
    case Enqueue(_) => true
    case Cancel(id, ok) => ok == (id in s.pending)
    case Update(id, _, ok) => ok == (id in s.pending)
    case Discard(x) => IsFirst(ord, x, s.heap) && x.id in s.cancelled
    case Deliver(x) => IsFirst(ord, x, s.heap) && x.id !in s.cancelled
    case Age(_) => true
  }

  function Apply(s: State, e: Event): State {
    match e
    case Enqueue(x) =>
      s.(heap := s.heap + multiset{x}, pending := s.pending[x.id := x], enqueued := s.enqueued + 1)
    case Cancel(id, ok) =>
      if ok then s.(cancelled := s.cancelled + {id}) else s
    case Update(id, p, ok) =>
      if ok && id in s.pending then
        var x := Item(p, s.pending[id].time, id, s.pending[id].payload);
        s.(heap := s.heap + multiset{x}, pending := s.pending[id := x],
           cancelled := s.cancelled - {id}, updated := s.updated + 1)
      else s
    case Discard(x) =>
      s.(heap := s.heap - multiset{x}, pending := s.pending - {x.id},
         cancelled := s.cancelled - {x.id}, discarded := s.discarded + 1)
    case Deliver(x) =>
      s.(heap := s.heap - multiset{x}, pending := s.pending - {x.id}, dequeued := s.dequeued + 1)
    case Age(ps) =>
      s.(pending := map id | id in s.pending ::
           if id in ps then s.pending[id].(priority := ps[id]) else s.pending[id])
  }

  /** The state reached from `s` by a run, and the runs that can happen. */
  ghost function After(s: State, run: seq<Event>): State {
    if run == [] then s else Apply(After(s, run[..|run|-1]), run[|run|-1])
  }

  ghost predicate Legal(ord: Order, s: State, run: seq<Event>) {
    run == [] ||
    (Legal(ord, s, run[..|run|-1]) && Enabled(ord, After(s, run[..|run|-1]), run[|run|-1]))
  }

  lemma {:induction false} RunConcat(ord: Order, s: State, a: seq<Event>, b: seq<Event>)
    ensures After(s, a + b) == After(After(s, a), b)
    ensures Legal(ord, s, a + b) <==> Legal(ord, s, a) && Legal(ord, After(s, a), b)
    decreases |b|
  {
    if b == [] {
      assert a + b == a;
    } else {
      assert (a + b)[..|a + b|-1] == a + b[..|b|-1];
      RunConcat(ord, s, a, b[..|b|-1]);
    }
  }

  lemma RunOne(ord: Order, s: State, e: Event)
    ensures After(s, [e]) == Apply(s, e)
    ensures Legal(ord, s, [e]) <==> Enabled(ord, s, e)
  {
    assert [e][..0] == [];
    assert Legal(ord, s, [e][..0]) && After(s, [e][..0]) == s;
  }

  lemma RunSnoc(ord: Order, s: State, run: seq<Event>, e: Event)
    ensures After(s, run + [e]) == Apply(After(s, run), e)
    ensures Legal(ord, s, run + [e]) <==> Legal(ord, s, run) && Enabled(ord, After(s, run), e)
  {
    assert (run + [e])[..|run + [e]|-1] == run;
  }

  /** What can happen to a request: enqueued, cancelled, re-prioritised
      (the last two successfully), discarded or delivered. */
  datatype Kind = Enq | Can | Upd | Dis | Del

  predicate Is(e: Event, k: Kind, id: Id) {
    match k
    case Enq => e.Enqueue? && e.item.id == id
    case Can => e.Cancel? && e.ok && e.id == id
    case Upd => e.Update? && e.ok && e.id == id
    case Dis => e.Discard? && e.item.id == id
    case Del => e.Deliver? && e.item.id == id
  }

  function Count(run: seq<Event>, k: Kind, id: Id): nat {
    if run == [] then 0 else
      Count(run[..|run|-1], k, id) + if Is(run[|run|-1], k, id) then 1 else 0
  }

  lemma {:induction false} CountConcat(a: seq<Event>, b: seq<Event>, k: Kind, id: Id)
    ensures Count(a + b, k, id) == Count(a, k, id) + Count(b, k, id)
    decreases |b|
  {
    if b == [] {
      assert a + b == a;
    } else {
      assert (a + b)[..|a + b|-1] == a + b[..|b|-1];
      CountConcat(a, b[..|b|-1], k, id);
    }
  }

  /** One pass of a dequeue under the lock: cancelled items are popped and
      dropped until an item can be delivered or the heap is empty. */
  function Discards(items: seq<Item>): seq<Event> {
    if items == [] then [] else Discards(items[..|items|-1]) + [Discard(items[|items|-1])]
  }

  function Pops(discards: seq<Item>, got: Option<Item>): seq<Event> {
    Discards(discards) + if got.Some? then [Deliver(got.value)] else []
  }

  ghost predicate Dequeues(ord: Order, s: State, discards: seq<Item>, got: Option<Item>) {
    && Legal(ord, s, Pops(discards, got))
    && (got.None? ==> After(s, Pops(discards, got)).heap == multiset{})
  }

  lemma DiscardOneMore(ord: Order, s: State, items: seq<Item>, x: Item)
    ensures After(s, Discards(items + [x])) == Apply(After(s, Discards(items)), Discard(x))
    ensures Legal(ord, s, Discards(items + [x])) <==>
              Legal(ord, s, Discards(items)) && Enabled(ord, After(s, Discards(items)), Discard(x))
  {
    assert (items + [x])[..|items + [x]|-1] == items;
    RunSnoc(ord, s, Discards(items), Discard(x));
  }

  /** A pass that ends with a delivery, and one that drains the heap. */
  lemma PassDelivers(ord: Order, s: State, items: seq<Item>, x: Item)
    requires Legal(ord, s, Discards(items)) && Enabled(ord, After(s, Discards(items)), Deliver(x))
    ensures Dequeues(ord, s, items, Some(x))
    ensures After(s, Pops(items, Some(x))) == Apply(After(s, Discards(items)), Deliver(x))
  {
    RunSnoc(ord, s, Discards(items), Deliver(x));
  }

  lemma PassDrains(ord: Order, s: State, items: seq<Item>)
    requires Legal(ord, s, Discards(items)) && After(s, Discards(items)).heap == multiset{}
    ensures Dequeues(ord, s, items, None) && After(s, Pops(items, None)) == After(s, Discards(items))
  {
    assert Pops(items, None) == Discards(items);
  }
}
