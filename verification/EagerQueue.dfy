/** The eager reference queue, in which a cancel removes at once, an update
    replaces at once and a delivery takes a first item; and the proof that the
    lazy queue and the eager queue have the same observable runs. */
module EagerQueue {
  import opened Wrappers
  import opened Requests
  import L = LazyQueue
  import opened QueueLaws
  import opened NewestCopies

  type State = map<Id, Item>

  datatype Event =
    | Enqueue(item: Item)
    | Cancel(id: Id)
    | Update(id: Id, priority: real)
    | Deliver(item: Item)

  ghost predicate Enabled(ord: Order, s: State, e: Event) {
    e.Deliver? ==>
      e.item.id in s && s[e.item.id] == e.item && forall id :: id in s ==> Before(ord, e.item, s[id])
  }

  function Apply(s: State, e: Event): State {
    match e
    case Enqueue(x) => s[x.id := x]
    case Cancel(id) => s - {id}
    case Update(id, p) => if id in s then s[id := Item(p, s[id].time, id, s[id].payload)] else s
    case Deliver(x) => s - {x.id}
  }

  ghost function After(s: State, run: seq<Event>): State {
    if run == [] then s else Apply(After(s, run[..|run|-1]), run[|run|-1])
  }

  ghost predicate Legal(ord: Order, s: State, run: seq<Event>) {
    run == [] ||
    (Legal(ord, s, run[..|run|-1]) && Enabled(ord, After(s, run[..|run|-1]), run[|run|-1]))
  }

  lemma RunSnoc(ord: Order, s: State, run: seq<Event>, e: Event)
    ensures After(s, run + [e]) == Apply(After(s, run), e)
    ensures Legal(ord, s, run + [e]) <==> Legal(ord, s, run) && Enabled(ord, After(s, run), e)
  {
    assert (run + [e])[..|run + [e]|-1] == run;
  }

  /** The requests a lazy queue still has to serve. */
  ghost function Live(s: L.State): State {
    map id | id in s.pending && id !in s.cancelled :: s.pending[id]
  }

  /** What a client sees of a lazy step.  Discards are internal, and so is the
      repeated delivery of a request one of whose copies was popped before.  The
      update of a request marked cancelled brings it back: a client sees it enqueued
      again, with its old time. */
  function Observe(s: L.State, e: L.Event): Option<Event> {
    match e
    case Enqueue(x) => Some(Enqueue(x))
    case Cancel(id, _) => Some(Cancel(id))
    case Update(id, p, _) =>
      if id in s.pending && id in s.cancelled
      then Some(Enqueue(Item(p, s.pending[id].time, id, s.pending[id].payload)))
      else Some(Update(id, p))
    case Discard(_) => None
    case Deliver(x) => if x.id in s.pending then Some(Deliver(x)) else None
    case Age(_) => None
  }

  function Extend(seen: seq<Event>, o: Option<Event>): seq<Event> {
    if o.Some? then seen + [o.value] else seen
  }

  ghost function Observed(s: L.State, run: seq<L.Event>): seq<Event> {
    if run == [] then [] else
      Extend(Observed(s, run[..|run|-1]), Observe(L.After(s, run[..|run|-1]), run[|run|-1]))
  }

  lemma {:induction false} ObservedConcat(s: L.State, a: seq<L.Event>, b: seq<L.Event>)
    ensures Observed(s, a + b) == Observed(s, a) + Observed(L.After(s, a), b)
    decreases |b|
  {
    if b == [] {
      assert a + b == a;
    } else {
      var front := b[..|b|-1];
      assert (a + b)[..|a + b|-1] == a + front;
      ObservedConcat(s, a, front);
      L.RunConcat(PriorityOnly, s, a, front);
    }
  }

  /** The eager queue can follow the lazy step `e`. */
  ghost predicate Follows(ord: Order, s: L.State, e: L.Event) {
    match Observe(s, e)
    case None => Live(L.Apply(s, e)) == Live(s)
    case Some(o) => Enabled(ord, Live(s), o) && Live(L.Apply(s, e)) == Apply(Live(s), o)
  }

  lemma DiscardRefines(ord: Order, s: L.State, x: Item)
    requires NewestFirst(s) && L.Enabled(ord, s, L.Discard(x))
    ensures Follows(ord, s, L.Discard(x))
  {
  }

  lemma DeliverRefines(ord: Order, s: L.State, x: Item)
    requires NewestFirst(s) && L.Enabled(ord, s, L.Deliver(x))
    ensures Follows(ord, s, L.Deliver(x))
  {
    if x.id in s.pending {
      FirstPopIsNewest(ord, s, x);
    }
  }

  lemma CancelRefines(ord: Order, s: L.State, id: Id)
    ensures Follows(ord, s, L.Cancel(id, id in s.pending))
  {
  }

  lemma EnqueueRefines(ord: Order, s: L.State, x: Item)
    requires NewestFirst(s) && Tidy(s, L.Enqueue(x))
    ensures Follows(ord, s, L.Enqueue(x))
  {
    assert x.id !in s.pending;
  }

  lemma UpdateRefines(ord: Order, s: L.State, id: Id, p: real)
    requires NewestFirst(s) && Tidy(s, L.Update(id, p, id in s.pending))
    ensures Follows(ord, s, L.Update(id, p, id in s.pending))
  {
  }

  lemma StepRefines(ord: Order, s: L.State, e: L.Event)
    requires NewestFirst(s) && L.Enabled(ord, s, e) && Tidy(s, e)
    ensures Follows(ord, s, e)
  {
    match e {
      case Enqueue(x) => EnqueueRefines(ord, s, x);
      case Update(id, p, _) => UpdateRefines(ord, s, id, p);
      case Cancel(id, _) => CancelRefines(ord, s, id);
      case Discard(x) => DiscardRefines(ord, s, x);
      case Deliver(x) => DeliverRefines(ord, s, x);
    }
  }

  /** Lazy deletion refines eager deletion: whatever a client observes of a run
      with fresh ids and updates that raise no priority is a run of the eager queue,
      and the two end with the same requests to serve. */
  lemma {:induction false} LazyRefinesEager(ord: Order, run: seq<L.Event>)
    requires L.Legal(ord, L.EMPTY, run) && TidyRun(L.EMPTY, run)
    ensures Legal(ord, map[], Observed(L.EMPTY, run))
    ensures After(map[], Observed(L.EMPTY, run)) == Live(L.After(L.EMPTY, run))
    ensures NewestFirst(L.After(L.EMPTY, run))
    decreases |run|
  {
    if run != [] {
      var front, e := run[..|run|-1], run[|run|-1];
      var s := L.After(L.EMPTY, front);
      LazyRefinesEager(ord, front);
      StepKeepsNewestFirst(ord, s, e);
      StepRefines(ord, s, e);
      if Observe(s, e).Some? {
        RunSnoc(ord, map[], Observed(L.EMPTY, front), Observe(s, e).value);
      }
    }
  }

  /** Eager runs that use the queue as the scheduler does. */
  ghost predicate Tame(run: seq<Event>) {
    run == [] ||
    var front, e := run[..|run|-1], run[|run|-1];
    && Tame(front)
    && (e.Enqueue? ==> !WasEnqueued(front, e.item.id))
    && (e.Update? ==> e.id in After(map[], front) && e.priority <= After(map[], front)[e.id].priority)
  }

  /** Every item of the heap belongs to a request enqueued in the run. */
  ghost predicate OnlyEnqueued(heap: multiset<Item>, run: seq<Event>) {
    forall x :: x in heap ==> WasEnqueued(run, x.id)
  }

  ghost predicate WasEnqueued(run: seq<Event>, id: Id) {
    exists i :: 0 <= i < |run| && run[i].Enqueue? && run[i].item.id == id
  }

  /** Popping a first item that is not live is invisible. */
  lemma HiddenPop(ord: Order, s: L.State, x: Item) returns (e: L.Event)
    requires NewestFirst(s) && Enabled(ord, Live(s), Deliver(x)) && !IsFirst(ord, x, s.heap)
    ensures L.Enabled(ord, s, e) && Tidy(s, e) && Observe(s, e).None?
    ensures var t := L.Apply(s, e);
            NewestFirst(t) && Live(t) == Live(s) && t.heap <= s.heap && |t.heap| < |s.heap|
  {
    assert Live(s)[x.id] in s.heap;
    var y := FirstExists(ord, s.heap);
    if y.id in Live(s) {
      FirstPopIsNewest(ord, s, y);
      assert false;
    }
    e := if y.id in s.cancelled then L.Discard(y) else L.Deliver(y);
    StepKeepsNewestFirst(ord, s, e);
    StepRefines(ord, s, e);
  }

  lemma SingletonRun(ord: Order, s: L.State, e: L.Event, rest: seq<L.Event>)
    requires L.Enabled(ord, s, e) && Tidy(s, e)
    requires L.Legal(ord, L.Apply(s, e), rest) && TidyRun(L.Apply(s, e), rest)
    ensures L.Legal(ord, s, [e] + rest) && TidyRun(s, [e] + rest)
    ensures L.After(s, [e] + rest) == L.After(L.Apply(s, e), rest)
    ensures Observed(s, [e] + rest) == Extend([], Observe(s, e)) + Observed(L.Apply(s, e), rest)
  {
    L.RunOne(ord, s, e);
    L.RunConcat(ord, s, [e], rest);
    assert [e][..0] == [];
    assert TidyRun(s, [e][..0]) && Observed(s, [e][..0]) == [] && L.After(s, [e][..0]) == s;
    TidyConcat(s, [e], rest);
    ObservedConcat(s, [e], rest);
  }

  /** `run` is invisible, keeps what is live, and leaves `x` ready to pop. */
  ghost predicate Clears(ord: Order, s: L.State, run: seq<L.Event>, x: Item) {
    && L.Legal(ord, s, run) && TidyRun(s, run) && Observed(s, run) == []
    && Ready(ord, s, L.After(s, run), x)
  }

  ghost predicate Ready(ord: Order, s: L.State, t: L.State, x: Item) {
    && NewestFirst(t) && Live(t) == Live(s) && IsFirst(ord, x, t.heap)
    && (forall y :: y in t.heap ==> y in s.heap)
  }

  lemma ClearsAfterPop(ord: Order, s: L.State, e: L.Event, rest: seq<L.Event>, x: Item)
    requires L.Enabled(ord, s, e) && Tidy(s, e) && Observe(s, e).None?
    requires Live(L.Apply(s, e)) == Live(s) && L.Apply(s, e).heap <= s.heap
    requires Clears(ord, L.Apply(s, e), rest, x)
    ensures Clears(ord, s, [e] + rest, x)
  {
    SingletonRun(ord, s, e, rest);
  }

  /** Pops that a client cannot observe bring any eager candidate to the top. */
  lemma {:induction false} ClearTheWay(ord: Order, s: L.State, x: Item) returns (run: seq<L.Event>)
    requires NewestFirst(s) && Enabled(ord, Live(s), Deliver(x))
    ensures Clears(ord, s, run, x)
    decreases |s.heap|
  {
    run := [];
    if !IsFirst(ord, x, s.heap) {
      var e := HiddenPop(ord, s, x);
      run := ClearTheWay(ord, L.Apply(s, e), x);
      ClearsAfterPop(ord, s, e, run, x);
      run := [e] + run;
    }
  }

  /** The lazy step that does what an eager step does, once the way is clear. */
  function Mimic(s: L.State, e: Event): L.Event {
    match e
    case Enqueue(x) => L.Enqueue(x)
    case Cancel(id) => L.Cancel(id, id in s.pending)
    case Update(id, p) => L.Update(id, p, id in s.pending)
    case Deliver(x) => L.Deliver(x)
  }

  /** The eager step `e`, after `front`, can be made by the lazy queue in `s`. */
  ghost predicate Mimicable(ord: Order, s: L.State, front: seq<Event>, e: Event) {
    && NewestFirst(s) && OnlyEnqueued(s.heap, front) && Enabled(ord, Live(s), e)
    && (e.Enqueue? ==> !WasEnqueued(front, e.item.id))
    && (e.Update? ==> e.id in Live(s) && e.priority <= Live(s)[e.id].priority)
  }

  lemma MimicStep(ord: Order, s: L.State, front: seq<Event>, e: Event)
    requires Mimicable(ord, s, front, e) && (e.Deliver? ==> IsFirst(ord, e.item, s.heap))
    ensures L.Enabled(ord, s, Mimic(s, e)) && Tidy(s, Mimic(s, e)) && Observe(s, Mimic(s, e)) == Some(e)
  {
  }

  lemma OnlyEnqueuedStep(s: L.State, front: seq<Event>, e: Event)
    requires OnlyEnqueued(s.heap, front) && (e.Update? ==> e.id in s.pending && HasCopy(s.heap, e.id))
    ensures OnlyEnqueued(L.Apply(s, Mimic(s, e)).heap, front + [e])
  {
    var t := L.Apply(s, Mimic(s, e));
    forall x | x in t.heap
      ensures WasEnqueued(front + [e], x.id)
    {
      if e.Enqueue? && x == e.item {
        assert (front + [e])[|front|] == e;
      } else {
        var y :| y in s.heap && y.id == x.id;
        var i :| 0 <= i < |front| && front[i].Enqueue? && front[i].item.id == x.id;
        assert (front + [e])[i] == front[i];
      }
    }
  }

  lemma ObservedSnoc(s: L.State, run: seq<L.Event>, e: L.Event)
    ensures Observed(s, run + [e]) == Extend(Observed(s, run), Observe(L.After(s, run), e))
    ensures TidyRun(s, run + [e]) <==> TidyRun(s, run) && Tidy(L.After(s, run), e)
  {
    assert (run + [e])[..|run + [e]|-1] == run;
  }

  /** A lazy run that realises an eager one. */
  ghost predicate Realises(ord: Order, lazy: seq<L.Event>, run: seq<Event>) {
    && L.Legal(ord, L.EMPTY, lazy) && TidyRun(L.EMPTY, lazy) && Observed(L.EMPTY, lazy) == run
    && OnlyEnqueued(L.After(L.EMPTY, lazy).heap, run)
  }

  lemma RealisesSnoc(ord: Order, lazy: seq<L.Event>, s: L.State, run: seq<Event>, e: Event)
    requires Realises(ord, lazy, run) && s == L.After(L.EMPTY, lazy)
    requires Mimicable(ord, s, run, e) && (e.Deliver? ==> IsFirst(ord, e.item, s.heap))
    ensures Realises(ord, lazy + [Mimic(s, e)], run + [e])
  {
    MimicStep(ord, s, run, e);
    OnlyEnqueuedStep(s, run, e);
    L.RunSnoc(ord, L.EMPTY, lazy, Mimic(s, e));
    ObservedSnoc(L.EMPTY, lazy, Mimic(s, e));
  }

  lemma RealisesCleared(ord: Order, lazy: seq<L.Event>, run: seq<Event>, clear: seq<L.Event>, x: Item)
    requires Realises(ord, lazy, run) && Clears(ord, L.After(L.EMPTY, lazy), clear, x)
    ensures Realises(ord, lazy + clear, run)
    ensures L.After(L.EMPTY, lazy + clear) == L.After(L.After(L.EMPTY, lazy), clear)
  {
    L.RunConcat(ord, L.EMPTY, lazy, clear);
    TidyConcat(L.EMPTY, lazy, clear);
    ObservedConcat(L.EMPTY, lazy, clear);
  }

  lemma RealiseStep(ord: Order, lazy: seq<L.Event>, s: L.State, front: seq<Event>, e: Event)
    returns (more: seq<L.Event>)
    requires Realises(ord, lazy, front) && s == L.After(L.EMPTY, lazy) && Mimicable(ord, s, front, e)
    ensures Realises(ord, more, front + [e])
  {
    if e.Deliver? {
      var clear := ClearTheWay(ord, s, e.item);
      RealisesCleared(ord, lazy, front, clear, e.item);
      var t := L.After(s, clear);
      RealisesSnoc(ord, lazy + clear, t, front, e);
      more := lazy + clear + [Mimic(t, e)];
    } else {
      RealisesSnoc(ord, lazy, s, front, e);
      more := lazy + [Mimic(s, e)];
    }
  }

  /** Conversely, every run of the eager queue with fresh ids whose updates are of
      requests it holds and raise no priority is what a client observes of some run
      of the lazy queue: lazy deletion loses no behaviour either. */
  lemma {:induction false} EagerIsRealised(ord: Order, run: seq<Event>) returns (lazy: seq<L.Event>)
    requires Legal(ord, map[], run) && Tame(run)
    ensures Realises(ord, lazy, run)
    decreases |run|
  {
    lazy := [];
    if run != [] {
      var front, e := run[..|run|-1], run[|run|-1];
      assert front + [e] == run;
      lazy := EagerIsRealised(ord, front);
      var s := L.After(L.EMPTY, lazy);
      assert Mimicable(ord, s, front, e) by {
        LazyRefinesEager(ord, lazy);
        assert Live(s) == After(map[], front);
      }
      lazy := RealiseStep(ord, lazy, s, front, e);
    }
  }

  /** Both conditions on the lazy run are needed.  Raising a priority leaves the old
      copy in front, so the request is delivered with a priority it no longer has. */
  lemma RaisingBreaksRefinement(ord: Order, x: Item, p: real)
    requires p > x.priority
    ensures var run := [L.Enqueue(x)] + [L.Update(x.id, p, true)] + [L.Deliver(x)];
            L.Legal(ord, L.EMPTY, run) && !Legal(ord, map[], Observed(L.EMPTY, run))
  {
    var front := [L.Enqueue(x)] + [L.Update(x.id, p, true)];
    var y := x.(priority := p);
    UpdatedRun(ord, x, p);
    L.RunSnoc(ord, L.EMPTY, front, L.Deliver(x));
    ObservedSnoc(L.EMPTY, front, L.Deliver(x));
    ObservedPair(L.Enqueue(x), L.Update(x.id, p, true));
    EagerPair(ord, Enqueue(x), Update(x.id, p));
    RunSnoc(ord, map[], [Enqueue(x)] + [Update(x.id, p)], Deliver(x));
    assert After(map[], [Enqueue(x)] + [Update(x.id, p)])[x.id] == y;
  }

  /** Reusing the id of a cancelled request puts the new one under the old mark. */
  lemma ReuseBreaksRefinement(ord: Order, x: Item, y: Item)
    requires x.id == y.id
    ensures var run := [L.Enqueue(x)] + [L.Cancel(x.id, true)] + [L.Enqueue(y)];
            && L.Legal(ord, L.EMPTY, run)
            && x.id !in Live(L.After(L.EMPTY, run)) && x.id in After(map[], Observed(L.EMPTY, run))
  {
    var front := [L.Enqueue(x)] + [L.Cancel(x.id, true)];
    PairRun(ord, L.EMPTY, L.Enqueue(x), L.Cancel(x.id, true));
    L.RunSnoc(ord, L.EMPTY, front, L.Enqueue(y));
    ObservedSnoc(L.EMPTY, front, L.Enqueue(y));
    ObservedPair(L.Enqueue(x), L.Cancel(x.id, true));
    RunSnoc(ord, map[], [Enqueue(x)] + [Cancel(x.id)], Enqueue(y));
  }

  lemma ObservedPair(d: L.Event, e: L.Event)
    ensures Observed(L.EMPTY, [d] + [e])
         == Extend(Extend([], Observe(L.EMPTY, d)), Observe(L.Apply(L.EMPTY, d), e))
  {
    L.RunOne(PriorityOnly, L.EMPTY, d);
    assert [] + [d] == [d];
    ObservedSnoc(L.EMPTY, [], d);
    ObservedSnoc(L.EMPTY, [d], e);
  }

  lemma EagerPair(ord: Order, d: Event, e: Event)
    ensures After(map[], [d] + [e]) == Apply(Apply(map[], d), e)
  {
    assert [] + [d] == [d];
    RunSnoc(ord, map[], [], d);
    RunSnoc(ord, map[], [d], e);
  }
}
