/** Laws of every run of the lazy-deletion queue. */
module QueueLaws {
  import opened Requests
  import opened LazyQueue

  /** Cancel marks are on pending requests only, and every pending request has
      a copy in the heap. */
  ghost predicate Sound(s: State) {
    && s.cancelled <= s.pending.Keys
    && (forall id :: id in s.pending ==> s.pending[id].id == id && HasCopy(s.heap, id))
  }

  ghost predicate HasCopy(heap: multiset<Item>, id: Id) {
    exists x :: x in heap && x.id == id
  }

  /** As long as no aging pass has rewritten the pending table, each of its
      entries is itself in the heap. */
  ghost predicate PendingInHeap(s: State) {
    forall id :: id in s.pending ==> s.pending[id].id == id && s.pending[id] in s.heap
  }

  lemma StepKeepsCopy(ord: Order, s: State, e: Event, id: Id)
    requires Sound(s) && Enabled(ord, s, e) && id in Apply(s, e).pending
    ensures Apply(s, e).pending[id].id == id && HasCopy(Apply(s, e).heap, id)
  {
    if (e.Enqueue? && e.item.id == id) || (e.Update? && e.ok && e.id == id) {
      assert Apply(s, e).pending[id] in Apply(s, e).heap;
    } else {
      OthersKeepCopy(s, e, id);
    }
  }

  lemma OthersKeepCopy(s: State, e: Event, id: Id)
    requires Sound(s) && id in Apply(s, e).pending
    requires !(e.Enqueue? && e.item.id == id) && !(e.Update? && e.ok && e.id == id)
    ensures id in s.pending && Apply(s, e).pending[id].id == id && HasCopy(Apply(s, e).heap, id)
  {
    var x :| x in s.heap && x.id == id;
    if e.Discard? || e.Deliver? {
      assert e.item != x;
    }
    assert x in Apply(s, e).heap;
  }

  lemma StepKeepsSound(ord: Order, s: State, e: Event)
    requires Sound(s) && Enabled(ord, s, e)
    ensures Sound(Apply(s, e))
  {
    forall id | id in Apply(s, e).pending {
      StepKeepsCopy(ord, s, e, id);
    }
  }

  lemma StepKeepsPendingInHeap(ord: Order, s: State, e: Event)
    requires PendingInHeap(s) && Enabled(ord, s, e) && !e.Age?
    ensures PendingInHeap(Apply(s, e))
  {
  }

  /** The structural invariant of every run.  In particular a dequeue that
      finds the heap empty leaves no pending request and no cancel mark. */
  /** An empty heap leaves nothing pending and no mark. */
  lemma EmptyLeavesNothing(s: State)
    requires Sound(s) && s.heap == multiset{}
    ensures s.pending == map[] && s.cancelled == {}
  {
    assert forall id :: id in s.pending ==> HasCopy(s.heap, id);
    assert s.pending.Keys == {};
  }

  lemma {:induction false} RunKeepsSound(ord: Order, s: State, run: seq<Event>)
    requires Sound(s) && Legal(ord, s, run)
    ensures Sound(After(s, run))
    ensures PendingInHeap(s) && (forall i :: 0 <= i < |run| ==> !run[i].Age?) ==> PendingInHeap(After(s, run))
    ensures After(s, run).heap == multiset{} ==>
              After(s, run).pending == map[] && After(s, run).cancelled == {}
    decreases |run|
  {
    if run != [] {
      RunKeepsSound(ord, s, run[..|run|-1]);
      StepKeepsSound(ord, After(s, run[..|run|-1]), run[|run|-1]);
      if PendingInHeap(After(s, run[..|run|-1])) && !run[|run|-1].Age? {
        StepKeepsPendingInHeap(ord, After(s, run[..|run|-1]), run[|run|-1]);
      }
    }
    if After(s, run).heap == multiset{} {
      EmptyLeavesNothing(After(s, run));
    }
  }

  /** The queue's statistics balance: whatever was pushed is still in the heap,
      was delivered or was discarded. */
  ghost predicate Balanced(s: State) {
    |s.heap| + s.dequeued + s.discarded == s.enqueued + s.updated
  }

  lemma StepKeepsBalance(ord: Order, s: State, e: Event)
    requires Balanced(s) && Enabled(ord, s, e)
    ensures Balanced(Apply(s, e))
  {
  }

  lemma {:induction false} RunKeepsBalance(ord: Order, s: State, run: seq<Event>)
    requires Balanced(s) && Legal(ord, s, run)
    ensures Balanced(After(s, run))
    decreases |run|
  {
    if run != [] {
      RunKeepsBalance(ord, s, run[..|run|-1]);
      StepKeepsBalance(ord, After(s, run[..|run|-1]), run[|run|-1]);
    }
  }

  function One(b: bool): nat {
    if b then 1 else 0
  }

  lemma CopiesStep(ord: Order, s: State, e: Event, id: Id)
    requires Enabled(ord, s, e)
    ensures Copies(Apply(s, e).heap, id) + One(Is(e, Del, id)) + One(Is(e, Dis, id))
         == Copies(s.heap, id) + One(Is(e, Enq, id)) + One(Is(e, Upd, id))
  {
    match e {
      case Enqueue(x) => CopiesAdd(s.heap, x, id);
      case Update(i, p, ok) =>
        if ok { CopiesAdd(s.heap, Item(p, s.pending[i].time, i, s.pending[i].payload), id); }
      case Discard(x) => CopiesRemove(s.heap, x, id);
      case Deliver(x) => CopiesRemove(s.heap, x, id);
      case Cancel(_, _) =>
      case Age(_) =>
    }
  }

  /** Exact per-request count, for every run and without assuming fresh ids:
      each enqueue and each successful re-prioritisation adds one copy, and each
      copy is delivered once, discarded once, or still in the heap. */
  lemma {:induction false} CopiesLaw(ord: Order, s: State, run: seq<Event>, id: Id)
    requires Legal(ord, s, run)
    ensures Copies(After(s, run).heap, id) + Count(run, Del, id) + Count(run, Dis, id)
         == Copies(s.heap, id) + Count(run, Enq, id) + Count(run, Upd, id)
    decreases |run|
  {
    if run != [] {
      CopiesLaw(ord, s, run[..|run|-1], id);
      CopiesStep(ord, After(s, run[..|run|-1]), run[|run|-1], id);
    }
  }

  /** Where a request stands, given how often each kind of event befell it. */
  ghost predicate Stands(s: State, id: Id, enq: nat, can: nat, upd: nat, dis: nat, del: nat) {
    && (id in s.pending <==> enq == 1 && del == 0 && dis == 0)
    && dis <= 1
    && (enq == 0 ==> upd == 0)
    && (can == 0 ==> dis == 0 && id !in s.cancelled)
  }

  lemma StandsStep(ord: Order, s: State, e: Event, id: Id, enq: nat, can: nat, upd: nat, dis: nat, del: nat)
    requires Sound(s) && Enabled(ord, s, e) && Stands(s, id, enq, can, upd, dis, del)
    requires enq + One(Is(e, Enq, id)) <= 1
    requires enq == 0 ==> dis == del == 0 && Copies(s.heap, id) == 0
    ensures Stands(Apply(s, e), id, enq + One(Is(e, Enq, id)), can + One(Is(e, Can, id)),
                   upd + One(Is(e, Upd, id)), dis + One(Is(e, Dis, id)), del + One(Is(e, Del, id)))
  {
    CopiesZero(s.heap, id);
  }

  /** The life of a request whose id is enqueued at most once: it is pending
      exactly from its enqueue to the first time one of its copies is popped, and
      at most one of its copies is ever discarded. */
  lemma {:induction false} LifeCycle(ord: Order, run: seq<Event>, id: Id)
    requires Legal(ord, EMPTY, run) && Count(run, Enq, id) <= 1
    ensures id in After(EMPTY, run).pending <==>
              Count(run, Enq, id) == 1 && Count(run, Del, id) == 0 && Count(run, Dis, id) == 0
    ensures Count(run, Dis, id) <= 1
    ensures Count(run, Enq, id) == 0 ==> Count(run, Upd, id) == 0
    ensures Count(run, Can, id) == 0 ==> Count(run, Dis, id) == 0 && id !in After(EMPTY, run).cancelled
    decreases |run|
  {
    if run != [] {
      var front := run[..|run|-1];
      LifeCycle(ord, front, id);
      RunKeepsSound(ord, EMPTY, front);
      CopiesLaw(ord, EMPTY, front, id);
      CopiesZero(EMPTY.heap, id);
      StandsStep(ord, After(EMPTY, front), run[|run|-1], id, Count(front, Enq, id), Count(front, Can, id),
                 Count(front, Upd, id), Count(front, Dis, id), Count(front, Del, id));
    }
  }

  lemma MarkStep(ord: Order, s: State, e: Event, id: Id)
    requires Sound(s) && Enabled(ord, s, e) && !Is(e, Enq, id) && !Is(e, Upd, id)
    ensures id in s.cancelled && !Is(e, Dis, id) ==> id in Apply(s, e).cancelled && !Is(e, Del, id)
    ensures id !in s.pending ==> id !in Apply(s, e).pending && !Is(e, Dis, id)
    ensures Is(e, Dis, id) ==> id !in Apply(s, e).pending
  {
  }

  /** From a state in which `id` is marked cancelled, until the request is
      re-prioritised: the mark stays until it swallows exactly one copy. */
  lemma {:induction false} MarkSwallowsOne(ord: Order, s: State, run: seq<Event>, id: Id)
    requires Sound(s) && Legal(ord, s, run) && id in s.cancelled
    requires Count(run, Enq, id) == 0 && Count(run, Upd, id) == 0
    ensures Count(run, Dis, id) == 0 ==> Count(run, Del, id) == 0 && id in After(s, run).cancelled
    ensures Count(run, Dis, id) != 0 ==> Count(run, Dis, id) == 1 && id !in After(s, run).pending
    decreases |run|
  {
    if run != [] {
      MarkSwallowsOne(ord, s, run[..|run|-1], id);
      RunKeepsSound(ord, s, run[..|run|-1]);
      MarkStep(ord, After(s, run[..|run|-1]), run[|run|-1], id);
    }
  }

  /** What a successful cancel is worth.  It discards at most one copy, and exactly
      one unless the request is re-prioritised afterwards; a drain delivers all the
      others.  So it prevents delivery if and only if the request is re-prioritised
      neither before nor after. */
  lemma CancelLaw(ord: Order, before: seq<Event>, id: Id, after: seq<Event>)
    requires Legal(ord, EMPTY, before + [Cancel(id, true)] + after)
    requires Count(before + [Cancel(id, true)] + after, Enq, id) <= 1
    ensures Count(before, Del, id) == 0 && Count(before, Dis, id) == 0 && Count(after, Dis, id) <= 1
    ensures Count(after, Upd, id) == 0 ==> Count(after, Del, id) <= Count(before, Upd, id)
    ensures Copies(After(EMPTY, before + [Cancel(id, true)] + after).heap, id) == 0 ==>
              && Count(after, Del, id) == 1 + Count(before, Upd, id) + Count(after, Upd, id) - Count(after, Dis, id)
              && (Count(after, Upd, id) == 0 ==> Count(after, Dis, id) == 1)
              && (Count(after, Del, id) == 0 <==> Count(before, Upd, id) == 0 && Count(after, Upd, id) == 0)
  {
    var mark := [Cancel(id, true)];
    var s := After(EMPTY, before + mark);
    RunConcat(ord, EMPTY, before + mark, after);
    RunSnoc(ord, EMPTY, before, mark[0]);
    CancelCounts(before, id, after, Enq);
    CancelCounts(before, id, after, Dis);
    LifeCycle(ord, before, id);
    LifeCycle(ord, before + mark + after, id);
    RunKeepsSound(ord, EMPTY, before + mark);
    if Count(after, Upd, id) == 0 {
      MarkSwallowsOne(ord, s, after, id);
    }
    CopiesLaw(ord, EMPTY, before, id);
    CopiesLaw(ord, s, after, id);
    CopiesZero(EMPTY.heap, id);
  }

  lemma CancelCounts(before: seq<Event>, id: Id, after: seq<Event>, k: Kind)
    ensures Count(before + [Cancel(id, true)] + after, k, id)
         == Count(before, k, id) + One(k.Can?) + Count(after, k, id)
  {
    CountConcat(before + [Cancel(id, true)], after, k, id);
    CountConcat(before, [Cancel(id, true)], k, id);
  }

  /** A request never cancelled and re-prioritised k times is delivered exactly
      k + 1 times by a drain; in general one delivery is lost if and only if a
      cancel mark caught one of its copies. */
  lemma DrainLaw(ord: Order, run: seq<Event>, id: Id)
    requires Legal(ord, EMPTY, run) && Count(run, Enq, id) == 1
    ensures Count(run, Del, id) <= 1 + Count(run, Upd, id)
    ensures Copies(After(EMPTY, run).heap, id) == 0 ==>
              Count(run, Del, id) + Count(run, Dis, id) == 1 + Count(run, Upd, id) && Count(run, Dis, id) <= 1
    ensures Copies(After(EMPTY, run).heap, id) == 0 && Count(run, Can, id) == 0 ==>
              Count(run, Del, id) == 1 + Count(run, Upd, id)
  {
    CopiesLaw(ord, EMPTY, run, id);
    CopiesZero(EMPTY.heap, id);
    LifeCycle(ord, run, id);
  }

  lemma PairRun(ord: Order, s: State, d: Event, e: Event)
    ensures After(s, [d] + [e]) == Apply(Apply(s, d), e)
    ensures Legal(ord, s, [d] + [e]) <==> Enabled(ord, s, d) && Enabled(ord, Apply(s, d), e)
  {
    RunOne(ord, s, d);
    RunSnoc(ord, s, [d], e);
  }

  lemma PairCount(d: Event, e: Event, k: Kind, id: Id)
    ensures Count([d] + [e], k, id) == One(Is(d, k, id)) + One(Is(e, k, id))
  {
    CountConcat([d], [e], k, id);
  }

  /** A drain after the cancel of `x`, re-prioritised once to `p`. */
  lemma CancelledRun(ord: Order, s: State, x: Item, y: Item)
    requires x.id == y.id && y.priority < x.priority
    requires s.heap == multiset{x, y} && s.pending == map[y.id := y] && s.cancelled == {}
    ensures Legal(ord, s, [Cancel(y.id, true)] + ([Discard(y)] + [Deliver(x)]))
  {
    var t := Apply(s, Cancel(y.id, true));
    assert Enabled(ord, t, Discard(y)) && Apply(t, Discard(y)).heap == multiset{x};
    PairRun(ord, t, Discard(y), Deliver(x));
    RunOne(ord, s, Cancel(y.id, true));
    RunConcat(ord, s, [Cancel(y.id, true)], [Discard(y)] + [Deliver(x)]);
  }

  lemma CancelledCounts(x: Item, y: Item)
    requires x.id == y.id
    ensures Count([Enqueue(x)] + [Update(x.id, y.priority, true)], Enq, x.id) == 1
    ensures var after := [Discard(y)] + [Deliver(x)];
            Count(after, Enq, x.id) == Count(after, Upd, x.id) == 0 && Count(after, Del, x.id) == 1
  {
    PairCount(Enqueue(x), Update(x.id, y.priority, true), Enq, x.id);
    PairCount(Discard(y), Deliver(x), Enq, x.id);
    PairCount(Discard(y), Deliver(x), Upd, x.id);
    PairCount(Discard(y), Deliver(x), Del, x.id);
  }

  lemma UpdatedRun(ord: Order, x: Item, p: real)
    ensures Legal(ord, EMPTY, [Enqueue(x)] + [Update(x.id, p, true)])
    ensures var s := After(EMPTY, [Enqueue(x)] + [Update(x.id, p, true)]);
            var y := x.(priority := p);
            s.heap == multiset{x, y} && s.pending == map[y.id := y] && s.cancelled == {}
  {
    PairRun(ord, EMPTY, Enqueue(x), Update(x.id, p, true));
    assert Apply(EMPTY, Enqueue(x)) == State(multiset{x}, map[x.id := x], {}, 1, 0, 0, 0);
  }

  /** The promise "a cancelled request is not dispatched" fails: any request,
      re-prioritised once and then successfully cancelled, can still be delivered. */
  lemma CancelledYetDelivered(ord: Order, x: Item, p: real)
    returns (before: seq<Event>, after: seq<Event>)
    requires p < x.priority
    ensures Legal(ord, EMPTY, before + ([Cancel(x.id, true)] + after))
    ensures Count(before, Enq, x.id) == 1 && Count(after, Enq, x.id) == Count(after, Upd, x.id) == 0
    ensures Count(after, Del, x.id) == 1
  {
    var y := x.(priority := p);
    before, after := [Enqueue(x)] + [Update(x.id, p, true)], [Discard(y)] + [Deliver(x)];
    CancelledCounts(x, y);
    UpdatedRun(ord, x, p);
    CancelledRun(ord, After(EMPTY, before), x, y);
    RunConcat(ord, EMPTY, before, [Cancel(x.id, true)] + after);
  }

  /** The other way it fails: any request, never re-prioritised before, that is
      cancelled with success and re-prioritised afterwards, can still be delivered. */
  lemma RevivedYetDelivered(ord: Order, x: Item, p: real)
    returns (after: seq<Event>)
    requires p < x.priority
    ensures Legal(ord, EMPTY, [Enqueue(x)] + ([Cancel(x.id, true)] + after))
    ensures Count(after, Enq, x.id) == 0 && Count(after, Upd, x.id) == 1 && Count(after, Del, x.id) == 1
  {
    var y := x.(priority := p);
    after := [Update(x.id, p, true)] + [Deliver(y)];
    PairCount(Update(x.id, p, true), Deliver(y), Enq, x.id);
    PairCount(Update(x.id, p, true), Deliver(y), Upd, x.id);
    PairCount(Update(x.id, p, true), Deliver(y), Del, x.id);
    var s := Apply(EMPTY, Enqueue(x));
    RunOne(ord, EMPTY, Enqueue(x));
    ReviveRun(ord, s, x, y);
    RunConcat(ord, EMPTY, [Enqueue(x)], [Cancel(x.id, true)] + after);
  }

  lemma ReviveRun(ord: Order, s: State, x: Item, y: Item)
    requires x == y.(priority := x.priority) && y.priority < x.priority
    requires s.heap == multiset{x} && s.pending == map[x.id := x] && s.cancelled == {}
    ensures Legal(ord, s, [Cancel(x.id, true)] + ([Update(x.id, y.priority, true)] + [Deliver(y)]))
  {
    var t := Apply(s, Cancel(x.id, true));
    assert Apply(t, Update(x.id, y.priority, true)).heap == multiset{x, y};
    assert Enabled(ord, Apply(t, Update(x.id, y.priority, true)), Deliver(y));
    PairRun(ord, t, Update(x.id, y.priority, true), Deliver(y));
    RunOne(ord, s, Cancel(x.id, true));
    RunConcat(ord, s, [Cancel(x.id, true)], [Update(x.id, y.priority, true)] + [Deliver(y)]);
  }
}
