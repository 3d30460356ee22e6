/** The queue inside the gateway: what a gateway run does to it is a run of the
    lazy-deletion queue, so every queue law holds of it. */
module QueueInGateway {
  import opened Requests
  import opened Scheduler
  import opened Gateway
  import Aging
  import Q = LazyQueue
  import QueueLaws

  ghost function VisitQueue(env: Env, cfg: Aging.Config, s: Sched, r: Request, now: real): seq<Q.Event> {
    if now - r.created > env.timeout then [Q.Cancel(r.id, r.id in s.queue.pending)] else
      var p := PriorityOf(s, r.id);
      var aged := Aging.Boost(env.curves, cfg, now - r.created, p);
      if aged < p - 0.01 then [Q.Update(r.id, aged, r.id in s.queue.pending)] else []
  }

  /** The queue steps made by a step of the gateway. */
  ghost function QueueSteps(env: Env, s: Sys, e: Event): seq<Q.Event> {
    match e
    case Submit(r, p) =>
      if ToFallback(s.sched, p) then [] else [Q.Enqueue(Item(InitialPriority(r, p), s.clock, r.id, r))]
    case Begin(ds, got) => Q.Pops(ds, got)
    case Resume(ds, got) => Q.Pops(ds, got)
    case ClientCancel(id) => [Q.Cancel(id, id in s.sched.queue.pending)]
    case VisitNext =>
      if s.tick.Some? && s.tick.value.todo != []
      then VisitQueue(env, s.aging, s.sched, s.tick.value.todo[0], s.tick.value.now) else []
    case _ => []
  }

  lemma VisitIsQueueRun(env: Env, cfg: Aging.Config, s: Sched, r: Request, now: real)
    ensures var q := VisitQueue(env, cfg, s, r, now);
            Q.Legal(PriorityThenTime, s.queue, q) && Visit(env, cfg, s, r, now).queue == Q.After(s.queue, q)
  {
    var q := VisitQueue(env, cfg, s, r, now);
    if q != [] {
      assert q == [q[0]];
      Q.RunOne(PriorityThenTime, s.queue, q[0]);
    }
  }

  lemma StepIsQueueRun(env: Env, s: Sys, e: Event)
    requires Enabled(s, e)
    ensures Q.Legal(PriorityThenTime, s.sched.queue, QueueSteps(env, s, e))
    ensures Apply(env, s, e).sched.queue == Q.After(s.sched.queue, QueueSteps(env, s, e))
  {
    match e {
      case Submit(r, p) =>
        Q.RunOne(PriorityThenTime, s.sched.queue, Q.Enqueue(Item(InitialPriority(r, p), s.clock, r.id, r)));
      case ClientCancel(id) =>
        Q.RunOne(PriorityThenTime, s.sched.queue, Q.Cancel(id, id in s.sched.queue.pending));
      case VisitNext =>
        VisitIsQueueRun(env, s.aging, s.sched, s.tick.value.todo[0], s.tick.value.now);
      case _ =>
    }
  }

  ghost function QueueRun(env: Env, s: Sys, run: seq<Event>): seq<Q.Event> {
    if run == [] then [] else
      QueueRun(env, s, run[..|run|-1]) + QueueSteps(env, After(env, s, run[..|run|-1]), run[|run|-1])
  }

  /** Every run of the gateway is, on its queue, a run of the lazy queue. */
  lemma {:induction false} GatewayRunsQueue(env: Env, s: Sys, run: seq<Event>)
    requires Legal(env, s, run)
    ensures Q.Legal(PriorityThenTime, s.sched.queue, QueueRun(env, s, run))
    ensures After(env, s, run).sched.queue == Q.After(s.sched.queue, QueueRun(env, s, run))
    decreases |run|
  {
    if run != [] {
      var front, e := run[..|run|-1], run[|run|-1];
      var m := After(env, s, front);
      GatewayRunsQueue(env, s, front);
      StepIsQueueRun(env, m, e);
      Q.RunConcat(PriorityThenTime, s.sched.queue, QueueRun(env, s, front), QueueSteps(env, m, e));
    }
  }

  lemma {:induction false} DiscardsEnqueueNothing(ds: seq<Item>, id: Id)
    ensures Q.Count(Q.Discards(ds), Q.Enq, id) == 0
    decreases |ds|
  {
    if ds != [] {
      DiscardsEnqueueNothing(ds[..|ds|-1], id);
      Q.CountConcat(Q.Discards(ds[..|ds|-1]), [Q.Discard(ds[|ds|-1])], Q.Enq, id);
    }
  }

  lemma StepEnqueues(env: Env, s: Sys, e: Event, id: Id)
    ensures Q.Count(QueueSteps(env, s, e), Q.Enq, id)
         == if e.Submit? && !ToFallback(s.sched, e.prediction) && e.request.id == id then 1 else 0
  {
    if e.Begin? || e.Resume? {
      DiscardsEnqueueNothing(e.discards, id);
      if e.got.Some? {
        Q.CountConcat(Q.Discards(e.discards), [Q.Deliver(e.got.value)], Q.Enq, id);
      } else {
        assert Q.Pops(e.discards, e.got) == Q.Discards(e.discards);
      }
    }
  }

  /** The gateway gives each request a fresh id, so it enqueues it at most once. */
  lemma {:induction false} EnqueuedOnce(env: Env, s: Sys, run: seq<Event>, id: Id)
    requires Legal(env, s, run)
    ensures Q.Count(QueueRun(env, s, run), Q.Enq, id)
            <= if id !in s.clients && id in After(env, s, run).clients then 1 else 0
    ensures id in s.clients ==> id in After(env, s, run).clients
    decreases |run|
  {
    if run != [] {
      var front, e := run[..|run|-1], run[|run|-1];
      var m := After(env, s, front);
      EnqueuedOnce(env, s, front, id);
      StepEnqueues(env, m, e, id);
      Q.CountConcat(QueueRun(env, s, front), QueueSteps(env, m, e), Q.Enq, id);
      ClientsGrow(env, m, e);
    }
  }

  lemma ClientsGrow(env: Env, s: Sys, e: Event)
    requires Enabled(s, e)
    ensures s.clients.Keys <= Apply(env, s, e).clients.Keys
    ensures e.Submit? ==> e.request.id !in s.clients && e.request.id in Apply(env, s, e).clients
  {
  }

  /** Per client: its heap copies and their deliveries and discards add up to its
      enqueue and its successful re-prioritisations, and at most one is discarded. */
  lemma ClientCopies(env: Env, fallback: bool, aging: Aging.Config, clock: real, run: seq<Event>, id: Id)
    requires Legal(env, Start(fallback, aging, clock), run)
    ensures var s := Start(fallback, aging, clock);
            var q := QueueRun(env, s, run);
            && Copies(After(env, s, run).sched.queue.heap, id) + Q.Count(q, Q.Del, id) + Q.Count(q, Q.Dis, id)
               == Q.Count(q, Q.Enq, id) + Q.Count(q, Q.Upd, id)
            && Q.Count(q, Q.Dis, id) <= 1 && Q.Count(q, Q.Enq, id) <= 1
  {
    var s := Start(fallback, aging, clock);
    GatewayRunsQueue(env, s, run);
    EnqueuedOnce(env, s, run, id);
    QueueLaws.CopiesLaw(PriorityThenTime, Q.EMPTY, QueueRun(env, s, run), id);
    QueueLaws.LifeCycle(PriorityThenTime, QueueRun(env, s, run), id);
    CopiesZero(Q.EMPTY.heap, id);
  }
}
