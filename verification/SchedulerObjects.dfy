/** The FCFS and SJF schedulers as objects whose methods update their fields. */
module SchedulerObjects {
  import opened Wrappers
  import opened Requests
  import opened Aging
  import opened CallBook
  import opened Tables
  import S = Scheduler
  import Q = LazyQueue
  import PythonQueue
  import TickLaws

  /** The ghost fields record every effective call and what was handed out. */
  class FCFSScheduler {
    var queue: seq<Request>
    var pending: set<Id>
    var totalScheduled: nat
    var totalCompleted: nat
    var totalErrors: nat
    var totalCancelled: nat
    ghost var calls: seq<Call>
    ghost var taken: seq<Request>

    ghost function Abs(): S.Fcfs
      reads this
    {
      S.Fcfs(queue, pending, totalScheduled, totalCompleted, totalErrors, totalCancelled)
    }

    /** What was submitted is what was taken and then what is queued, in that order. */
    ghost predicate IsFifo()
      reads this
    {
      Submissions(calls) == taken + queue
    }

    /** The books hold the open ids and the counters count the calls. */
    ghost predicate BooksOk()
      reads this
    {
      && pending == OpenIds(calls)
      && totalScheduled == |Submissions(calls)| && totalCancelled == Cancellations(calls)
      && totalCompleted == Completions(calls, true) && totalErrors == Completions(calls, false)
    }

    ghost predicate Valid()
      reads this
    {
      IsFifo() && BooksOk()
    }

    constructor ()
      ensures Valid() && Abs() == S.FCFS_EMPTY && calls == [] && taken == []
    {
      queue, pending := [], {};
      totalScheduled, totalCompleted, totalErrors, totalCancelled := 0, 0, 0, 0;
      calls, taken := [], [];
    }

    /** One more call keeps the books if the fields follow it. */
    twostate lemma CallKeepsBooks(c: Call)
      requires old(BooksOk()) && calls == old(calls) + [c]
      requires pending == if c.Submitted? then old(pending) + {c.request.id} else old(pending) - {c.id}
      requires totalScheduled == old(totalScheduled) + if c.Submitted? then 1 else 0
      requires totalCancelled == old(totalCancelled) + if c.Cancelled? then 1 else 0
      requires totalCompleted == old(totalCompleted) + if c.Completed? && c.success then 1 else 0
      requires totalErrors == old(totalErrors) + if c.Completed? && !c.success then 1 else 0
      ensures BooksOk()
      ensures Submissions(calls) == old(Submissions(calls)) + if c.Submitted? then [c.request] else []
    {
      OneMore(old(calls), c);
    }

    method Submit(r: Request)
      requires Valid()
      modifies this
      ensures Valid() && calls == old(calls) + [Submitted(r)] && taken == old(taken)
      ensures Abs() == S.FcfsSubmit(old(Abs()), r)
    {
      pending := pending + {r.id};
      queue := queue + [r];
      totalScheduled := totalScheduled + 1;
      calls := calls + [Submitted(r)];
      CallKeepsBooks(Submitted(r));
    }

    /** Hands out the earliest submission not handed out before; `None` means: wait
        for a submission. */
    method Acquire() returns (got: Option<Request>)
      requires Valid()
      modifies this
      ensures Valid() && calls == old(calls)
      ensures got.None? <==> Submissions(calls) == old(taken)
      ensures got.None? ==> Abs() == old(Abs()) && taken == old(taken)
      ensures got.Some? ==>
                && |old(taken)| < |Submissions(calls)| && got.value == Submissions(calls)[|old(taken)|]
                && taken == old(taken) + [got.value]
                && old(queue) != [] && Abs() == S.FcfsAcquire(old(Abs()))
    {
      got := None;
      if queue != [] {
        got := Some(queue[0]);
        taken := taken + [queue[0]];
        queue := queue[1..];
      }
    }

    method Complete(id: Id, success: bool)
      requires Valid()
      modifies this
      ensures Valid() && calls == old(calls) + [Completed(id, success)] && taken == old(taken)
      ensures OpenIds(calls) == OpenIds(old(calls)) - {id}
      ensures Abs() == S.FcfsComplete(old(Abs()), id, success)
    {
      pending := pending - {id};
      if success {
        totalCompleted := totalCompleted + 1;
      } else {
        totalErrors := totalErrors + 1;
      }
      calls := calls + [Completed(id, success)];
      CallKeepsBooks(Completed(id, success));
    }

    /** Succeeds exactly on an open id, closes it, and still leaves its request to
        be handed out. */
    method Cancel(id: Id) returns (ok: bool)
      requires Valid()
      modifies this
      ensures Valid() && ok == (id in OpenIds(old(calls))) && taken == old(taken)
      ensures calls == if ok then old(calls) + [Cancelled(id)] else old(calls)
      ensures OpenIds(calls) == OpenIds(old(calls)) - {id}
      ensures Submissions(calls) == Submissions(old(calls))
      ensures Abs() == S.FcfsCancel(old(Abs()), id)
    {
      ok := id in pending;
      if ok {
        pending := pending - {id};
        totalCancelled := totalCancelled + 1;
        calls := calls + [Cancelled(id)];
        CallKeepsBooks(Cancelled(id));
      }
    }
  }

  /** The queue took exactly the item `x`. */
  ghost predicate EnqueuedOne(q: Q.State, t: Q.State, x: Item) {
    && t.heap == q.heap + multiset{x} && t.pending == q.pending[x.id := x]
    && t.cancelled == q.cancelled && t.enqueued == q.enqueued + 1 && t.dequeued == q.dequeued
  }

  class SJFScheduler {
    const queue: PythonQueue.PriorityQueue
    const fallback: FCFSScheduler?
    var pending: seq<Request>
    var priority: map<Id, real>
    var useFallback: bool
    var totalScheduled: nat
    var totalCompleted: nat
    var totalErrors: nat

    ghost function Abs(): S.Sched
      reads this, queue, fallback
    {
      S.Sched(queue.Abs(), pending, priority, if fallback == null then None else Some(fallback.Abs()),
              useFallback, totalScheduled, totalCompleted, totalErrors)
    }

    /** The fallback is told of every completion and the latch needs a fallback. */
    ghost predicate FallbackOk()
      reads this, fallback
    {
      && (useFallback ==> fallback != null)
      && (fallback != null ==>
            && fallback.Valid()
            && fallback.totalCompleted == totalCompleted && fallback.totalErrors == totalErrors)
    }

    /** Every submission went to one of the two queues; an id is listed once. */
    ghost predicate Valid()
      reads this, queue, fallback
    {
      && queue.Valid() && FallbackOk() && UniqueIds(pending)
      && totalScheduled == queue.totalEnqueued + if fallback == null then 0 else fallback.totalScheduled
    }

    constructor (fallbackToFcfs: bool)
      ensures Valid() && Abs() == S.Initial(fallbackToFcfs)
      ensures fresh(queue) && (fallback != null ==> fresh(fallback))
    {
      queue := new PythonQueue.PriorityQueue();
      if fallbackToFcfs {
        fallback := new FCFSScheduler();
      } else {
        fallback := null;
      }
      pending, priority, useFallback := [], map[], false;
      totalScheduled, totalCompleted, totalErrors := 0, 0, 0;
    }

    /** The priority is the prediction, or `max_tokens` if there is none.  A failed
        prediction sets the latch if there is a fallback; with the latch set the
        fallback takes the request, otherwise the heap does. */
    method Submit(r: Request, prediction: Option<real>, now: real)
      requires Valid()
      modifies this, queue, fallback
      ensures Valid() && Abs() == S.Submit(old(Abs()), r, prediction, now)
      ensures prediction.Some? ==> priority == old(priority)[r.id := prediction.value]
      ensures prediction.None? ==> priority == old(priority)[r.id := r.maxTokens as real]
      ensures useFallback <==> old(useFallback) || (prediction.None? && fallback != null)
      ensures useFallback ==>
                && fallback.queue == old(fallback.queue) + [r]
                && queue.Abs() == old(queue.Abs()) && pending == old(pending)
      ensures !useFallback ==>
                && EnqueuedOne(old(queue.Abs()), queue.Abs(), Item(priority[r.id], now, r.id, r)) && r in pending
                && (fallback != null ==> fallback.Abs() == old(fallback.Abs()))
    {
      var p := if prediction.Some? then prediction.value else r.maxTokens as real;
      if prediction.None? && fallback != null {
        useFallback := true;
      }
      priority := priority[r.id := p];
      assert useFallback && fallback != null <==> S.ToFallback(old(Abs()), prediction);
      PutKeeps(pending, r);
      Route(r, p, now);
    }

    /** The end of a submission: exactly one of the two queues takes the request. */
    method Route(r: Request, p: real, now: real)
      requires Valid()
      modifies this, queue, fallback
      ensures Valid()
      ensures useFallback && fallback != null ==>
                Abs() == old(Abs()).(fcfs := Some(S.FcfsSubmit(old(fallback.Abs()), r)),
                                     scheduled := old(totalScheduled) + 1)
      ensures !(useFallback && fallback != null) ==>
                Abs() == old(Abs()).(pending := S.Put(old(pending), r),
                                     queue := Q.Apply(old(queue.Abs()), Q.Enqueue(Item(p, now, r.id, r))),
                                     scheduled := old(totalScheduled) + 1)
      ensures useFallback == old(useFallback)
    {
      if useFallback && fallback != null {
        fallback.Submit(r);
        totalScheduled := totalScheduled + 1;
      } else {
        RouteToHeap(r, p, now);
      }
    }

    method RouteToHeap(r: Request, p: real, now: real)
      requires Valid()
      modifies this`pending, this`totalScheduled, queue
      ensures Valid()
      ensures Abs() == old(Abs()).(pending := S.Put(old(pending), r),
                                   queue := Q.Apply(old(queue.Abs()), Q.Enqueue(Item(p, now, r.id, r))),
                                   scheduled := old(totalScheduled) + 1)
    {
      PutKeeps(pending, r);
      pending := S.Put(pending, r);
      queue.Enqueue(r.id, p, r, now);
      totalScheduled := totalScheduled + 1;
    }

    /** One attempt to acquire; the route is chosen by the latch. */
    method Acquire(now: real) returns (got: Option<Request>, ghost discards: seq<Item>)
      requires Valid()
      modifies this, queue, fallback
      ensures Valid()
      ensures old(useFallback) && fallback != null ==>
                var f := old(fallback.Abs());
                && (got.None? <==> f.queue == [])
                && (got.Some? ==> got.value == f.queue[0])
                && Abs() == old(Abs()).(fcfs := Some(if got.Some? then S.FcfsAcquire(f) else f))
      ensures !(old(useFallback) && fallback != null) ==>
                exists item: Option<Item> ::
                  && Q.Dequeues(PriorityThenTime, old(queue.Abs()), discards, item)
                  && Abs() == old(Abs()).(queue := Q.After(old(queue.Abs()), Q.Pops(discards, item)))
                  && got == if item.Some? then Some(item.value.payload) else None
    {
      discards := [];
      if useFallback && fallback != null {
        got := fallback.Acquire();
      } else {
        var item;
        item, discards := queue.Dequeue(now);
        got := if item.Some? then Some(item.value.payload) else None;
      }
    }

    method Complete(id: Id, success: bool)
      requires Valid()
      modifies this, fallback
      ensures Valid() && OnlyUnlists(old(pending), pending, id)
      ensures totalCompleted == old(totalCompleted) + if success then 1 else 0
      ensures totalErrors == old(totalErrors) + if success then 0 else 1
      ensures fallback != null ==>
                && OpenIds(fallback.calls) == OpenIds(old(fallback.calls)) - {id}
                && fallback.taken == old(fallback.taken)
      ensures Abs() == S.Complete(old(Abs()), id, success)
    {
      RemoveKeeps(pending, id);
      pending := S.Remove(pending, id);
      if fallback != null {
        fallback.Complete(id, success);
      }
      if success {
        totalCompleted := totalCompleted + 1;
      } else {
        totalErrors := totalErrors + 1;
      }
    }

    method Cancel(id: Id) returns (ok: bool)
      requires Valid()
      modifies this, queue, fallback
      ensures Valid() && ok == (id in old(queue.pending)) && OnlyUnlists(old(pending), pending, id)
      ensures fallback != null ==>
                && OpenIds(fallback.calls) == OpenIds(old(fallback.calls)) - {id}
                && fallback.taken == old(fallback.taken)
      ensures Abs() == S.Cancel(old(Abs()), id)
    {
      RemoveKeeps(pending, id);
      pending := S.Remove(pending, id);
      if fallback != null {
        var _ := fallback.Cancel(id);
      }
      ok := queue.Cancel(id);
    }

    method Reprioritise(id: Id, aged: real)
      requires Valid()
      modifies this, queue
      ensures Valid()
      ensures Abs() == old(Abs()).(queue := Q.Apply(old(queue.Abs()), Q.Update(id, aged, id in old(queue.pending))),
                                   priority := old(priority)[id := aged])
    {
      var _ := queue.UpdatePriority(id, aged);
      priority := priority[id := aged];
    }

    method VisitOne(env: S.Env, cfg: Config, r: Request, now: real)
      requires Valid()
      modifies this, queue, fallback
      ensures Valid() && Abs() == S.Visit(env, cfg, old(Abs()), r, now)
    {
      var wait := now - r.created;
      if wait > env.timeout {
        var _ := Cancel(r.id);
      } else {
        var p := if r.id in priority then priority[r.id] else 0.0;
        var aged := Boost(env.curves, cfg, wait, p);
        if aged < p - 0.01 {
          Reprioritise(r.id, aged);
        }
      }
    }

    /** One round of the aging loop, over a snapshot of the waiting requests: each of
        them, and no other, is cancelled, lowered by what the policy says, or left. */
    method AgingTick(env: S.Env, cfg: Config, now: real)
      requires Valid()
      modifies this, queue, fallback
      ensures Valid() && Abs() == S.VisitAll(env, cfg, old(Abs()), old(pending), now)
      ensures forall r :: r in old(pending) ==> TickLaws.Ticked(env, cfg, old(Abs()), Abs(), r, now)
      ensures forall id :: !HasId(old(pending), id) ==> TickLaws.SameOf(old(Abs()), Abs(), id)
    {
      var todo := pending;
      for i := 0 to |todo|
        invariant Valid() && Abs() == S.VisitAll(env, cfg, old(Abs()), todo[..i], now)
      {
        S.VisitOneMore(env, cfg, old(Abs()), todo, i, now);
        VisitOne(env, cfg, todo[i], now);
      }
      assert todo[..|todo|] == todo;
      TickLaws.TickEffect(env, cfg, old(Abs()), todo, now);
    }
  }
}
