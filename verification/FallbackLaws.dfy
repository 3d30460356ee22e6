/** The one-way latch from shortest-job-first to first-come-first-served. */
module FallbackLaws {
  import opened Wrappers
  import opened Requests
  import opened Scheduler
  import opened Gateway
  import opened GatewayLaws
  import opened QueueInGateway
  import ClientLaws
  import Aging
  import Q = LazyQueue

  /** What a step adds to the fallback's queue, and what it takes from it. */
  function Adds(s: Sys, e: Event): seq<Request> {
    if e.Submit? && ToFallback(s.sched, e.prediction) then [e.request] else []
  }

  function Takes(s: Sys, e: Event): seq<Request> {
    if e.TakeFallback? && FallbackQueue(s.sched) != [] then [FallbackQueue(s.sched)[0]] else []
  }

  /** The requests a run sends to the fallback, and those it takes from it. */
  ghost function Submitted(env: Env, s: Sys, run: seq<Event>): seq<Request> {
    if run == [] then [] else
      Submitted(env, s, run[..|run|-1]) + Adds(After(env, s, run[..|run|-1]), run[|run|-1])
  }

  ghost function Taken(env: Env, s: Sys, run: seq<Event>): seq<Request> {
    if run == [] then [] else
      Taken(env, s, run[..|run|-1]) + Takes(After(env, s, run[..|run|-1]), run[|run|-1])
  }

  lemma FifoVisit(env: Env, s: Sys)
    requires Enabled(s, VisitNext)
    ensures FallbackQueue(Apply(env, s, VisitNext).sched) == FallbackQueue(s.sched)
    ensures Latched(s.sched) ==> Latched(Apply(env, s, VisitNext).sched)
  {
    var p := VisitCases(env, s.aging, s.sched, s.tick.value.todo[0], s.tick.value.now);
  }

  lemma FifoQuiet(env: Env, s: Sys, e: Event)
    requires Enabled(s, e) && !e.Submit? && !e.TakeFallback? && !e.VisitNext?
    ensures FallbackQueue(Apply(env, s, e).sched) == FallbackQueue(s.sched)
    ensures Latched(s.sched) ==> Latched(Apply(env, s, e).sched)
  {
  }

  lemma FifoStep(env: Env, s: Sys, e: Event)
    requires Enabled(s, e)
    ensures FallbackQueue(s.sched) + Adds(s, e) == Takes(s, e) + FallbackQueue(Apply(env, s, e).sched)
    ensures Latched(s.sched) ==> Latched(Apply(env, s, e).sched)
  {
    match e {
      case Submit(_, _) =>
      case TakeFallback =>
      case VisitNext => FifoVisit(env, s);
      case _ => FifoQuiet(env, s, e);
    }
  }

  lemma FifoAlgebra(q0: seq<Request>, submitted: seq<Request>, taken: seq<Request>, q: seq<Request>,
                    adds: seq<Request>, takes: seq<Request>, q': seq<Request>)
    requires q0 + submitted == taken + q && q + adds == takes + q'
    ensures q0 + (submitted + adds) == (taken + takes) + q'
  {
    calc {
      q0 + (submitted + adds);
      (q0 + submitted) + adds;
      (taken + q) + adds;
      taken + (q + adds);
      taken + (takes + q');
    }
  }

  lemma FallbackStep(env: Env, s: Sys, e: Event)
    requires Enabled(s, e)
    ensures Apply(env, s, e).sched.fcfs.Some? <==> s.sched.fcfs.Some?
  {
    if e.VisitNext? {
      var p := VisitCases(env, s.aging, s.sched, s.tick.value.todo[0], s.tick.value.now);
    }
  }

  /** There is a fallback at all times or never. */
  lemma {:induction false} FallbackStays(env: Env, s: Sys, run: seq<Event>)
    requires Legal(env, s, run)
    ensures After(env, s, run).sched.fcfs.Some? <==> s.sched.fcfs.Some?
    decreases |run|
  {
    if run != [] {
      FallbackStays(env, s, run[..|run|-1]);
      FallbackStep(env, After(env, s, run[..|run|-1]), run[|run|-1]);
    }
  }

  /** The latch is never reset, and the fallback is exactly first in, first out:
      what was queued and submitted is what was taken followed by what is still
      queued, whatever is cancelled meanwhile. */
  lemma {:induction false} FallbackIsFifo(env: Env, s: Sys, run: seq<Event>)
    requires Legal(env, s, run)
    ensures FallbackQueue(s.sched) + Submitted(env, s, run)
         == Taken(env, s, run) + FallbackQueue(After(env, s, run).sched)
    ensures Latched(s.sched) ==> Latched(After(env, s, run).sched)
    decreases |run|
  {
    if run != [] {
      var front, e := run[..|run|-1], run[|run|-1];
      var m := After(env, s, front);
      FallbackIsFifo(env, s, front);
      FifoStep(env, m, e);
      FifoAlgebra(FallbackQueue(s.sched), Submitted(env, s, front), Taken(env, s, front), FallbackQueue(m.sched),
                  Adds(m, e), Takes(m, e), FallbackQueue(Apply(env, m, e).sched));
    }
  }

  /** How often a request is in a list of requests. */
  function Occurrences(list: seq<Request>, id: Id): nat {
    if list == [] then 0 else
      Occurrences(list[..|list|-1], id) + if list[|list|-1].id == id then 1 else 0
  }

  lemma OccurrencesAdd(list: seq<Request>, more: seq<Request>, id: Id)
    requires |more| <= 1
    ensures Occurrences(list + more, id) == Occurrences(list, id) + Occurrences(more, id)
  {
    if more == [] {
      assert list + more == list;
    } else {
      assert (list + more)[..|list + more|-1] == list;
      assert more[..0] == [];
    }
  }

  lemma StepRoutes(env: Env, s: Sys, e: Event, id: Id)
    requires Enabled(s, e)
    ensures Q.Count(QueueSteps(env, s, e), Q.Enq, id) + Occurrences(Adds(s, e), id)
         == (if id !in s.clients && id in Apply(env, s, e).clients then 1 else 0)
    ensures id in s.clients ==> id in Apply(env, s, e).clients
  {
    StepEnqueues(env, s, e, id);
    if e.Submit? {
      assert Adds(s, e) == [] || Adds(s, e) == [e.request];
      assert [e.request][..0] == [];
    } else {
      OnlySubmitsAdd(env, s, e);
    }
  }

  lemma OnlySubmitsAdd(env: Env, s: Sys, e: Event)
    requires Enabled(s, e) && !e.Submit?
    ensures Apply(env, s, e).clients.Keys == s.clients.Keys
  {
    if !ClientLaws.TouchesClients(e) {
      if e.Begin? || e.Resume? || e.VisitNext? {
        ClientLaws.DequeuesKeepClients(env, s, e);
      } else {
        ClientLaws.OthersKeepClients(env, s, e);
      }
    }
  }

  /** Each request enters exactly one of the two queues, exactly once: over any run
      its enqueues in the heap and its submissions to the fallback add up to 1 if it
      became a client in the run, and to 0 if it did not. */
  lemma {:induction false} EachRoutedOnce(env: Env, s: Sys, run: seq<Event>, id: Id)
    requires Legal(env, s, run)
    ensures Q.Count(QueueRun(env, s, run), Q.Enq, id) + Occurrences(Submitted(env, s, run), id)
         == (if id !in s.clients && id in After(env, s, run).clients then 1 else 0)
    ensures id in s.clients ==> id in After(env, s, run).clients
    decreases |run|
  {
    if run != [] {
      var front, e := run[..|run|-1], run[|run|-1];
      var m := After(env, s, front);
      EachRoutedOnce(env, s, front, id);
      StepRoutes(env, m, e, id);
      Q.CountConcat(QueueRun(env, s, front), QueueSteps(env, m, e), Q.Enq, id);
      OccurrencesAdd(Submitted(env, s, front), Adds(m, e), id);
    }
  }

  /** What waits in the fallback belongs to a client. */
  ghost predicate FallbackKnown(s: Sys) {
    forall r :: r in FallbackQueue(s.sched) ==> r.id in s.clients
  }

  lemma FallbackContents(env: Env, s: Sys, e: Event, r: Request)
    requires Enabled(s, e) && r in FallbackQueue(Apply(env, s, e).sched)
    ensures r in FallbackQueue(s.sched) || (e.Submit? && e.request == r)
  {
    FifoStep(env, s, e);
    assert r in Takes(s, e) + FallbackQueue(Apply(env, s, e).sched);
    assert r in FallbackQueue(s.sched) + Adds(s, e);
  }

  lemma {:induction false} RunKeepsFallbackKnown(env: Env, s: Sys, run: seq<Event>)
    requires FallbackKnown(s) && Legal(env, s, run)
    ensures FallbackKnown(After(env, s, run))
    decreases |run|
  {
    if run != [] {
      var m, e := After(env, s, run[..|run|-1]), run[|run|-1];
      RunKeepsFallbackKnown(env, s, run[..|run|-1]);
      forall r | r in FallbackQueue(After(env, s, run).sched) ensures r.id in After(env, s, run).clients {
        FallbackContents(env, m, e, r);
        StepRoutes(env, m, e, r.id);
      }
    }
  }

  /** A request that is not in the fallback does not get there later. */
  lemma {:induction false} StaysOutOfFallback(env: Env, s: Sys, run: seq<Event>, id: Id)
    requires Legal(env, s, run) && id in s.clients
    requires forall r :: r in FallbackQueue(s.sched) ==> r.id != id
    ensures id in After(env, s, run).clients
    ensures forall r :: r in FallbackQueue(After(env, s, run).sched) ==> r.id != id
    decreases |run|
  {
    if run != [] {
      var m, e := After(env, s, run[..|run|-1]), run[|run|-1];
      StaysOutOfFallback(env, s, run[..|run|-1], id);
      StepRoutes(env, m, e, id);
      forall r | r in FallbackQueue(After(env, s, run).sched) ensures r.id != id {
        FallbackContents(env, m, e, r);
      }
    }
  }

  /** The latch is set and no dequeuer is left from before it. */
  predicate Abandoned(s: Sys) {
    Latched(s.sched) && s.idle == 0 && s.woken == 0
  }

  lemma AbandonedStep(env: Env, s: Sys, e: Event)
    requires Abandoned(s) && Enabled(s, e)
    ensures var t := Apply(env, s, e);
            && Abandoned(t) && s.sched.queue.heap <= t.sched.queue.heap
            && t.sched.queue.dequeued == s.sched.queue.dequeued
            && t.sched.queue.discarded == s.sched.queue.discarded
  {
    if e.VisitNext? {
      var p := VisitCases(env, s.aging, s.sched, s.tick.value.todo[0], s.tick.value.now);
    }
  }

  /** Requests still in the heap when the latch is set and the last dequeuer has
      given up are stranded: no later step ever pops the heap, which aging can
      only make larger. */
  lemma {:induction false} StrandedByLatch(env: Env, s: Sys, run: seq<Event>)
    requires Abandoned(s) && Legal(env, s, run)
    ensures var t := After(env, s, run);
            && Abandoned(t) && s.sched.queue.heap <= t.sched.queue.heap
            && t.sched.queue.dequeued == s.sched.queue.dequeued
            && t.sched.queue.discarded == s.sched.queue.discarded
    decreases |run|
  {
    if run != [] {
      StrandedByLatch(env, s, run[..|run|-1]);
      AbandonedStep(env, After(env, s, run[..|run|-1]), run[|run|-1]);
    }
  }

  /** How often the heap was popped. */
  function PopsOf(s: Sys): nat {
    s.sched.queue.dequeued + s.sched.queue.discarded
  }

  /** From `s` the run can happen, and it pops the heap. */
  ghost predicate PopsHeap(env: Env, s: Sys, run: seq<Event>) {
    Legal(env, s, run) && PopsOf(After(env, s, run)) > PopsOf(s)
  }

  lemma OneDequeue(env: Env, s: Sys) returns (run: seq<Event>)
    requires s.sched.queue.heap != multiset{} && (!Latched(s.sched) || s.woken > 0)
    ensures PopsHeap(env, s, run)
  {
    var ds, got := DequeueExists(PriorityThenTime, s.sched.queue);
    DequeueCount(PriorityThenTime, s.sched.queue, ds, got);
    var e := if Latched(s.sched) then Resume(ds, got) else Begin(ds, got);
    run := [] + [e];
    Steps(env, s, [], e);
  }

  /** The exact condition: what is in the heap can still be served if and only if
      the scheduler has not been abandoned. */
  lemma ServedIffNotAbandoned(env: Env, s: Sys)
    requires Wakeful(s) && s.sched.queue.heap != multiset{}
    ensures (exists run :: PopsHeap(env, s, run)) <==> !Abandoned(s)
  {
    if Abandoned(s) {
      forall run | Legal(env, s, run) ensures !PopsHeap(env, s, run) {
        StrandedByLatch(env, s, run);
      }
    } else {
      var run := OneDequeue(env, s);
    }
  }

  /** And it does happen: a request waits in the heap when the predictor fails for
      the next one; no dequeuer is there, and it is never served. */
  lemma StrandingHappens(env: Env, aging: Aging.Config, r: Request, q: Request, p: real) returns (run: seq<Event>)
    requires r.created <= q.created && r.id != q.id
    ensures var s := Start(true, aging, q.created);
            && run == [] + [Submit(r, Some(p))] + [Submit(q, None)] && Legal(env, s, run)
            && Abandoned(After(env, s, run))
            && After(env, s, run).sched.queue.heap == multiset{Item(p, q.created, r.id, r)}
            && r in After(env, s, run).sched.pending && r.id in After(env, s, run).sched.queue.pending
            && FallbackQueue(After(env, s, run).sched) == [q]
  {
    var s := Start(true, aging, q.created);
    Steps(env, s, [], Submit(r, Some(p)));
    run := [] + [Submit(r, Some(p))];
    assert After(env, s, run).sched.pending == [r];
    Steps(env, s, run, Submit(q, None));
    run := run + [Submit(q, None)];
  }
}
