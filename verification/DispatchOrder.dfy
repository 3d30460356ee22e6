/** Which of two requests the queue dispatches first, and that no step of the
    gateway changes which of them was enqueued first. */
module DispatchOrder {
  import opened Wrappers
  import opened Requests
  import opened Scheduler
  import opened Gateway
  import opened GatewayLaws
  import opened GatewayInvariants
  import Q = LazyQueue

  /** `r`, if it is in the queue, was enqueued before every copy of `q`. */
  ghost predicate EnqueuedFirst(queue: Q.State, r: Request, q: Request) {
    r.id in queue.pending ==> forall y :: y in queue.heap && y.id == q.id ==> queue.pending[r.id].time < y.time
  }

  /** Smaller, or equal and first. */
  predicate Less(first: bool, p: real, p': real) {
    p < p' || (first && p == p')
  }

  /** At priorities p and p' the queue dispatches `r` before `q`, whatever the heap
      looks like: by priority, and by enqueue time among equals. */
  ghost predicate Precedes(queue: Q.State, r: Request, p: real, q: Request, p': real) {
    Less(EnqueuedFirst(queue, r, q), p, p')
  }

  /** For two requests in the queue this is the order of their entries. */
  lemma EntriesDecide(queue: Q.State, priority: map<Id, real>, r: Request, q: Request)
    requires QueueOk(queue, priority) && r.id in queue.pending && q.id in queue.pending
    ensures r.id in priority && q.id in priority
    ensures Precedes(queue, r, priority[r.id], q, priority[q.id])
       <==> !Before(PriorityThenTime, queue.pending[q.id], queue.pending[r.id])
  {
    assert queue.pending[q.id] in queue.heap && queue.pending[q.id].id == q.id;
  }

  lemma PopKeepsOrder(queue: Q.State, e: Q.Event, r: Request, q: Request)
    requires EnqueuedFirst(queue, r, q) && (e.Discard? || e.Deliver?)
    ensures EnqueuedFirst(Q.Apply(queue, e), r, q)
  {
    assert Q.Apply(queue, e).heap <= queue.heap;
  }

  lemma {:induction false} DiscardsKeepOrder(queue: Q.State, ds: seq<Item>, r: Request, q: Request)
    requires EnqueuedFirst(queue, r, q) && Q.Legal(PriorityThenTime, queue, Q.Discards(ds))
    ensures EnqueuedFirst(Q.After(queue, Q.Discards(ds)), r, q)
    decreases |ds|
  {
    if ds != [] {
      var front, x := ds[..|ds|-1], ds[|ds|-1];
      assert ds == front + [x];
      Q.DiscardOneMore(PriorityThenTime, queue, front, x);
      DiscardsKeepOrder(queue, front, r, q);
      PopKeepsOrder(Q.After(queue, Q.Discards(front)), Q.Discard(x), r, q);
    }
  }

  lemma DequeueKeepsOrder(queue: Q.State, ds: seq<Item>, got: Option<Item>, r: Request, q: Request)
    requires EnqueuedFirst(queue, r, q) && Q.Dequeues(PriorityThenTime, queue, ds, got)
    ensures EnqueuedFirst(Q.After(queue, Q.Pops(ds, got)), r, q)
  {
    PopsSplit(PriorityThenTime, queue, ds, got);
    DiscardsKeepOrder(queue, ds, r, q);
    if got.Some? {
      PopKeepsOrder(Q.After(queue, Q.Discards(ds)), Q.Deliver(got.value), r, q);
    }
  }

  lemma UpdateKeepsOrder(queue: Q.State, priority: map<Id, real>, id: Id, p: real, r: Request, q: Request)
    requires EnqueuedFirst(queue, r, q) && QueueOk(queue, priority)
    ensures EnqueuedFirst(Q.Apply(queue, Q.Update(id, p, id in queue.pending)), r, q)
  {
    if id in queue.pending {
      assert queue.pending[id] in queue.heap;
    }
  }

  lemma CancelKeepsOrder(queue: Q.State, id: Id, r: Request, q: Request)
    requires EnqueuedFirst(queue, r, q)
    ensures EnqueuedFirst(Q.Apply(queue, Q.Cancel(id, id in queue.pending)), r, q)
  {
  }

  lemma VisitKeepsOrder(env: Env, s: Sys, r: Request, q: Request)
    requires Ok(s) && EnqueuedFirst(s.sched.queue, r, q) && Enabled(s, VisitNext)
    ensures EnqueuedFirst(Apply(env, s, VisitNext).sched.queue, r, q)
  {
    var o := s.tick.value.todo[0];
    var p := VisitCases(env, s.aging, s.sched, o, s.tick.value.now);
    VisitStepSched(env, s);
    UpdateKeepsOrder(s.sched.queue, s.sched.priority, o.id, p, r, q);
    CancelKeepsOrder(s.sched.queue, o.id, r, q);
  }

  lemma OthersKeepOrder(env: Env, s: Sys, e: Event, r: Request, q: Request)
    requires Enabled(s, e) && !e.VisitNext? && !e.Begin? && !e.Resume?
    requires EnqueuedFirst(s.sched.queue, r, q) && r.id in s.clients && q.id in s.clients
    ensures EnqueuedFirst(Apply(env, s, e).sched.queue, r, q)
  {
  }

  /** Which of two submitted requests was enqueued first does not change. */
  lemma StepKeepsOrder(env: Env, s: Sys, e: Event, r: Request, q: Request)
    requires Ok(s) && Enabled(s, e) && Known(s, r) && Known(s, q)
    ensures EnqueuedFirst(s.sched.queue, r, q) ==> EnqueuedFirst(Apply(env, s, e).sched.queue, r, q)
  {
    if EnqueuedFirst(s.sched.queue, r, q) {
      match e {
        case Begin(ds, got) => DequeueKeepsOrder(s.sched.queue, ds, got, r, q);
        case Resume(ds, got) => DequeueKeepsOrder(s.sched.queue, ds, got, r, q);
        case VisitNext => VisitKeepsOrder(env, s, r, q);
        case _ => OthersKeepOrder(env, s, e, r, q);
      }
    }
  }
}
