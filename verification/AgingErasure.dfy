/** Aging passes that rewrite only the pending table, as those of the C++ and
    Go queues do, have no effect on dispatch. */
module AgingErasure {
  import opened Requests
  import opened LazyQueue
  import opened QueueLaws
  import opened NewestCopies
  import E = EagerQueue

  function Erase(run: seq<Event>): seq<Event> {
    if run == [] then [] else
      Erase(run[..|run|-1]) + if run[|run|-1].Age? then [] else [run[|run|-1]]
  }

  /** Equal but for the priorities shown in the pending table. */
  ghost predicate Same(s: State, t: State) {
    s.(pending := map[]) == t.(pending := map[]) && s.pending.Keys == t.pending.Keys
  }

  lemma SameStep(ord: Order, s: State, t: State, e: Event)
    requires Same(s, t) && !e.Update?
    ensures Enabled(ord, s, e) <==> Enabled(ord, t, e)
    ensures Same(Apply(s, e), Apply(t, e))
    ensures e.Age? ==> Same(Apply(s, e), t)
  {
    match e
    case Discard(x) => assert Apply(s, e).pending.Keys == s.pending.Keys - {x.id};
    case Deliver(x) => assert Apply(s, e).pending.Keys == s.pending.Keys - {x.id};
    case _ =>
  }

  /** A run without re-prioritisation can happen if and only if it can happen
      with all its aging passes erased, wherever they stood and whatever they
      wrote; it then makes the same discards and deliveries in the same order. */
  lemma {:induction false} AgingIsInert(ord: Order, s: State, run: seq<Event>)
    requires forall i :: 0 <= i < |run| ==> !run[i].Update?
    ensures Legal(ord, s, run) <==> Legal(ord, s, Erase(run))
    ensures Same(After(s, run), After(s, Erase(run)))
    ensures forall k, id :: Count(run, k, id) == Count(Erase(run), k, id)
    decreases |run|
  {
    if run != [] {
      var front, e := run[..|run|-1], run[|run|-1];
      AgingIsInert(ord, s, front);
      SameStep(ord, After(s, front), After(s, Erase(front)), e);
      if e.Age? {
        assert Erase(run) == Erase(front);
      } else {
        RunSnoc(ord, s, Erase(front), e);
        forall k, id ensures Count(run, k, id) == Count(Erase(run), k, id) {
          assert Erase(run)[..|Erase(run)|-1] == Erase(front);
        }
      }
    }
  }

  /** Rounds in which an aging pass runs, a newcomer arrives and is served. */
  function Rounds(ages: seq<map<Id, real>>, newcomers: seq<Item>): seq<Event>
    requires |ages| == |newcomers|
  {
    if ages == [] then [] else
      var n := |ages| - 1;
      Rounds(ages[..n], newcomers[..n]) + ([Age(ages[n])] + ([Enqueue(newcomers[n])] + [Deliver(newcomers[n])]))
  }

  lemma ServeNewcomer(ord: Order, s: State, victim: Item, x: Item)
    requires s.heap == multiset{victim} && s.cancelled == {} && x.priority < victim.priority
    ensures Enabled(ord, Apply(s, Enqueue(x)), Deliver(x))
    ensures var t := Apply(Apply(s, Enqueue(x)), Deliver(x));
            t.heap == multiset{victim} && t.cancelled == {} && t.dequeued == s.dequeued + 1
  {
    assert Apply(s, Enqueue(x)).heap == multiset{victim, x};
  }

  lemma OneRound(ord: Order, s: State, victim: Item, age: map<Id, real>, x: Item)
    requires s.heap == multiset{victim} && s.cancelled == {} && x.priority < victim.priority
    ensures var t := After(s, [Age(age)] + ([Enqueue(x)] + [Deliver(x)]));
            t.heap == multiset{victim} && t.cancelled == {} && t.dequeued == s.dequeued + 1
    ensures Legal(ord, s, [Age(age)] + ([Enqueue(x)] + [Deliver(x)]))
  {
    var t, serve := Apply(s, Age(age)), [Enqueue(x)] + [Deliver(x)];
    RunOne(ord, s, Age(age));
    ServeNewcomer(ord, t, victim, x);
    PairRun(ord, t, Enqueue(x), Deliver(x));
    RunConcat(ord, s, [Age(age)], serve);
  }

  /** So the promise that aging prevents starvation is not kept by these two
      queues: whatever the aging passes write and however long it waits, a request
      can be overtaken by any number of later, shorter ones. */
  lemma {:induction false} AgingDoesNotPreventStarvation(
    ord: Order, s: State, victim: Item, ages: seq<map<Id, real>>, newcomers: seq<Item>)
    requires s.heap == multiset{victim} && s.cancelled == {} && |ages| == |newcomers|
    requires forall i :: 0 <= i < |newcomers| ==> newcomers[i].priority < victim.priority
    ensures Legal(ord, s, Rounds(ages, newcomers))
    ensures var t := After(s, Rounds(ages, newcomers));
            t.heap == multiset{victim} && t.cancelled == {} && t.dequeued == s.dequeued + |newcomers|
    decreases |ages|
  {
    if ages != [] {
      var n := |ages| - 1;
      var front := Rounds(ages[..n], newcomers[..n]);
      AgingDoesNotPreventStarvation(ord, s, victim, ages[..n], newcomers[..n]);
      OneRound(ord, After(s, front), victim, ages[n], newcomers[n]);
      RunConcat(ord, s, front, [Age(ages[n])] + ([Enqueue(newcomers[n])] + [Deliver(newcomers[n])]));
    }
  }

  /** What a client of a queue without re-prioritisation sees of a run. */
  function Visible(run: seq<Event>): seq<E.Event> {
    if run == [] then [] else
      Visible(run[..|run|-1]) +
      match run[|run|-1]
      case Enqueue(x) => [E.Enqueue(x)]
      case Cancel(id, _) => [E.Cancel(id)]
      case Deliver(x) => [E.Deliver(x)]
      case _ => []
  }

  ghost predicate FreshIds(run: seq<Event>) {
    forall id :: Count(run, Enq, id) <= 1
  }

  lemma {:induction false} NoUpdates(run: seq<Event>, id: Id)
    requires forall i :: 0 <= i < |run| ==> !run[i].Update?
    ensures Count(run, Upd, id) == 0
    decreases |run|
  {
    if run != [] {
      NoUpdates(run[..|run|-1], id);
    }
  }

  /** With fresh ids and no re-prioritisation no request has a second copy: an
      enqueued id is not in the heap, and a delivered request was pending. */
  lemma SingleCopies(ord: Order, run: seq<Event>, e: Event)
    requires Legal(ord, EMPTY, run) && Enabled(ord, After(EMPTY, run), e)
    requires FreshIds(run) && (forall i :: 0 <= i < |run| ==> !run[i].Update?)
    requires e.Enqueue? ==> Count(run, Enq, e.item.id) == 0
    ensures e.Enqueue? ==> Tidy(After(EMPTY, run), e)
    ensures e.Deliver? ==> e.item.id in After(EMPTY, run).pending
  {
    if e.Enqueue? || e.Deliver? {
      var id := e.item.id;
      NoUpdates(run, id);
      CopiesLaw(ord, EMPTY, run, id);
      CopiesZero(EMPTY.heap, id);
      CopiesZero(After(EMPTY, run).heap, id);
      LifeCycle(ord, run, id);
    }
  }

  lemma {:induction false} VisibleIsObserved(ord: Order, run: seq<Event>)
    requires Legal(ord, EMPTY, run) && FreshIds(run)
    requires forall i :: 0 <= i < |run| ==> !run[i].Update? && !run[i].Age?
    ensures TidyRun(EMPTY, run) && E.Observed(EMPTY, run) == Visible(run)
    decreases |run|
  {
    if run != [] {
      var front, e := run[..|run|-1], run[|run|-1];
      assert forall id :: Count(front, Enq, id) <= Count(run, Enq, id);
      VisibleIsObserved(ord, front);
      assert e.Enqueue? ==> Count(run, Enq, e.item.id) == Count(front, Enq, e.item.id) + 1;
      SingleCopies(ord, front, e);
    }
  }

  lemma {:induction false} EraseKeepsVisible(run: seq<Event>)
    requires forall i :: 0 <= i < |run| ==> !run[i].Update?
    ensures Visible(Erase(run)) == Visible(run)
    ensures forall i :: 0 <= i < |Erase(run)| ==> !Erase(run)[i].Update? && !Erase(run)[i].Age?
    decreases |run|
  {
    if run != [] {
      var front, e := run[..|run|-1], run[|run|-1];
      EraseKeepsVisible(front);
      if e.Age? {
        assert Erase(run) == Erase(front);
      } else {
        assert Erase(run)[..|Erase(run)|-1] == Erase(front);
      }
    }
  }

  /** For all three queues: with fresh ids and no re-prioritisation, and whatever
      C++ or Go aging passes are interleaved, a run's enqueues, cancels and
      deliveries form a run of the eager queue. */
  lemma DispatchIsEager(ord: Order, run: seq<Event>)
    requires Legal(ord, EMPTY, run) && FreshIds(run)
    requires forall i :: 0 <= i < |run| ==> !run[i].Update?
    ensures E.Legal(ord, map[], Visible(run))
    ensures E.After(map[], Visible(run)).Keys == After(EMPTY, run).pending.Keys - After(EMPTY, run).cancelled
  {
    var erased := Erase(run);
    AgingIsInert(ord, EMPTY, run);
    EraseKeepsVisible(run);
    assert FreshIds(erased);
    ErasedIsEager(ord, erased);
  }

  lemma ErasedIsEager(ord: Order, run: seq<Event>)
    requires Legal(ord, EMPTY, run) && FreshIds(run)
    requires forall i :: 0 <= i < |run| ==> !run[i].Update? && !run[i].Age?
    ensures E.Legal(ord, map[], Visible(run))
    ensures E.After(map[], Visible(run)).Keys == After(EMPTY, run).pending.Keys - After(EMPTY, run).cancelled
  {
    VisibleIsObserved(ord, run);
    E.LazyRefinesEager(ord, run);
  }
}
