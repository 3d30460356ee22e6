/** Which copy of a re-prioritised request is popped first. */
module NewestCopies {
  import opened Requests
  import opened LazyQueue
  import opened QueueLaws

  /** How the scheduler uses the queue: ids are not reused while a copy remains,
      and updates never raise a priority. */
  ghost predicate Tidy(s: State, e: Event) {
    match e
    case Enqueue(x) => forall y :: y in s.heap ==> y.id != x.id
    case Update(id, p, _) => id in s.pending ==> p <= s.pending[id].priority
    case Age(_) => false
    case _ => true
  }

  ghost predicate TidyRun(s: State, run: seq<Event>) {
    run == [] || (TidyRun(s, run[..|run|-1]) && Tidy(After(s, run[..|run|-1]), run[|run|-1]))
  }

  lemma {:induction false} TidyConcat(s: State, a: seq<Event>, b: seq<Event>)
    ensures TidyRun(s, a + b) <==> TidyRun(s, a) && TidyRun(After(s, a), b)
    decreases |b|
  {
    if b == [] {
      assert a + b == a;
    } else {
      assert (a + b)[..|a + b|-1] == a + b[..|b|-1];
      TidyConcat(s, a, b[..|b|-1]);
      RunConcat(PriorityOnly, s, a, b[..|b|-1]);
    }
  }

  lemma TidyOne(s: State, e: Event)
    ensures TidyRun(s, [e]) <==> Tidy(s, e)
  {
    assert [e][..0] == [];
    assert TidyRun(s, [e][..0]) && After(s, [e][..0]) == s;
  }

  /** `x` is a copy of the request of `entry`, not smaller than it. */
  predicate IsCopy(entry: Item, x: Item) {
    entry.priority <= x.priority && entry.time == x.time && entry.payload == x.payload
  }

  /** The entry of a pending request is in the heap and is the smallest of its
      copies, all of which carry the original enqueue time and payload. */
  ghost predicate NewestFirst(s: State) {
    && Sound(s) && PendingInHeap(s)
    && (forall x :: x in s.heap && x.id in s.pending ==> IsCopy(s.pending[x.id], x))
  }

  lemma StepKeepsCopies(ord: Order, s: State, e: Event, x: Item)
    requires NewestFirst(s) && Enabled(ord, s, e) && Tidy(s, e)
    requires x in Apply(s, e).heap && x.id in Apply(s, e).pending
    ensures IsCopy(Apply(s, e).pending[x.id], x)
  {
    var t := Apply(s, e);
    if x != t.pending[x.id] {
      assert x in s.heap;
    }
  }

  lemma StepKeepsNewestFirst(ord: Order, s: State, e: Event)
    requires NewestFirst(s) && Enabled(ord, s, e) && Tidy(s, e)
    ensures NewestFirst(Apply(s, e))
  {
    StepKeepsSound(ord, s, e);
    StepKeepsPendingInHeap(ord, s, e);
    forall x | x in Apply(s, e).heap && x.id in Apply(s, e).pending
      ensures IsCopy(Apply(s, e).pending[x.id], x)
    {
      StepKeepsCopies(ord, s, e, x);
    }
  }

  lemma {:induction false} RunKeepsNewestFirst(ord: Order, s: State, run: seq<Event>)
    requires NewestFirst(s) && Legal(ord, s, run) && TidyRun(s, run)
    ensures NewestFirst(After(s, run))
    decreases |run|
  {
    if run != [] {
      RunKeepsNewestFirst(ord, s, run[..|run|-1]);
      StepKeepsNewestFirst(ord, After(s, run[..|run|-1]), run[|run|-1]);
    }
  }

  lemma FirstPopIsNewest(ord: Order, s: State, x: Item)
    requires NewestFirst(s) && IsFirst(ord, x, s.heap) && x.id in s.pending
    ensures x == s.pending[x.id]
  {
    var y := s.pending[x.id];
    assert y in s.heap && Before(ord, x, y);
    assert y.priority == x.priority;
  }

  /** The aged copy goes first.  In every run with fresh ids whose updates raise no
      priority, whatever is cancelled and even if a marked request is updated, the
      first copy popped of a pending request, be it delivered or discarded, is its
      latest entry, with the latest priority and the original time. */
  lemma AgedCopyFirst(ord: Order, run: seq<Event>, pop: Event)
    requires Legal(ord, EMPTY, run + [pop]) && TidyRun(EMPTY, run) && (pop.Discard? || pop.Deliver?)
    ensures pop.item.id in After(EMPTY, run).pending ==> pop.item == After(EMPTY, run).pending[pop.item.id]
  {
    RunSnoc(ord, EMPTY, run, pop);
    RunKeepsNewestFirst(ord, EMPTY, run);
    if pop.item.id in After(EMPTY, run).pending {
      FirstPopIsNewest(ord, After(EMPTY, run), pop.item);
    }
  }
}
