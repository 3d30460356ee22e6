/** Re-prioritised copies in whole runs of the gateway. */
module GatewayCopies {
  import opened Wrappers
  import opened Requests
  import opened Scheduler
  import opened Gateway
  import opened GatewayLaws
  import opened GatewayInvariants
  import opened QueueInGateway
  import opened NewestCopies
  import Aging
  import E = EagerQueue
  import Q = LazyQueue

  lemma {:induction false} DiscardsAreTidy(s: Q.State, ds: seq<Item>)
    ensures TidyRun(s, Q.Discards(ds))
    decreases |ds|
  {
    if ds != [] {
      var front, x := Q.Discards(ds[..|ds|-1]), ds[|ds|-1];
      DiscardsAreTidy(s, ds[..|ds|-1]);
      TidyOne(Q.After(s, front), Q.Discard(x));
      TidyConcat(s, front, [Q.Discard(x)]);
    }
  }

  lemma PopsAreTidy(s: Q.State, ds: seq<Item>, got: Option<Item>)
    ensures TidyRun(s, Q.Pops(ds, got))
  {
    DiscardsAreTidy(s, ds);
    if got.Some? {
      TidyOne(Q.After(s, Q.Discards(ds)), Q.Deliver(got.value));
      TidyConcat(s, Q.Discards(ds), [Q.Deliver(got.value)]);
    } else {
      assert Q.Pops(ds, got) == Q.Discards(ds);
    }
  }

  lemma VisitIsTidy(env: Env, cfg: Aging.Config, s: Sched, r: Request, now: real)
    requires QueueOk(s.queue, s.priority) && r.id in s.priority
    ensures TidyRun(s.queue, VisitQueue(env, cfg, s, r, now))
  {
    var steps := VisitQueue(env, cfg, s, r, now);
    if steps != [] {
      assert steps == [steps[0]];
      TidyOne(s.queue, steps[0]);
    }
  }

  lemma SubmitIsTidy(env: Env, s: Sys, e: Event)
    requires Ok(s) && Enabled(s, e) && e.Submit?
    ensures TidyRun(s.sched.queue, QueueSteps(env, s, e))
  {
    var steps := QueueSteps(env, s, e);
    if steps != [] {
      TidyOne(s.sched.queue, steps[0]);
      assert steps == [steps[0]];
    }
  }

  /** The gateway reuses no id and its visits raise no priority. */
  lemma StepIsTidy(env: Env, s: Sys, e: Event)
    requires Ok(s) && Enabled(s, e)
    ensures TidyRun(s.sched.queue, QueueSteps(env, s, e))
  {
    match e {
      case Submit(_, _) => SubmitIsTidy(env, s, e);
      case Begin(ds, got) => PopsAreTidy(s.sched.queue, ds, got);
      case Resume(ds, got) => PopsAreTidy(s.sched.queue, ds, got);
      case ClientCancel(id) => TidyOne(s.sched.queue, Q.Cancel(id, id in s.sched.queue.pending));
      case VisitNext => VisitIsTidy(env, s.aging, s.sched, s.tick.value.todo[0], s.tick.value.now);
      case _ =>
    }
  }

  lemma {:induction false} RunIsTidy(env: Env, s: Sys, run: seq<Event>)
    requires Ok(s) && Legal(env, s, run)
    ensures TidyRun(s.sched.queue, QueueRun(env, s, run))
    decreases |run|
  {
    if run != [] {
      var front, e := run[..|run|-1], run[|run|-1];
      RunIsTidy(env, s, front);
      RunKeepsOk(env, s, front);
      GatewayRunsQueue(env, s, front);
      StepIsTidy(env, After(env, s, front), e);
      TidyConcat(s.sched.queue, QueueRun(env, s, front), QueueSteps(env, After(env, s, front), e));
    }
  }

  /** In every gateway run, ticks that update marked requests included, the queue is
      observed as an eager queue and ends with the same requests to serve. */
  lemma GatewayRefinesEager(env: Env, fallback: bool, aging: Aging.Config, clock: real, run: seq<Event>)
    requires Legal(env, Start(fallback, aging, clock), run)
    ensures var s := Start(fallback, aging, clock);
            var seen := E.Observed(Q.EMPTY, QueueRun(env, s, run));
            && E.Legal(PriorityThenTime, map[], seen)
            && E.After(map[], seen) == E.Live(After(env, s, run).sched.queue)
  {
    var s := Start(fallback, aging, clock);
    RunIsTidy(env, s, run);
    GatewayRunsQueue(env, s, run);
    E.LazyRefinesEager(PriorityThenTime, QueueRun(env, s, run));
  }

  lemma {:induction false} DiscardsKeepUnmarked(s: Q.State, ds: seq<Item>, id: Id)
    requires NewestFirst(s) && Q.Legal(PriorityThenTime, s, Q.Discards(ds))
    requires id in s.pending && id !in s.cancelled
    ensures var t := Q.After(s, Q.Discards(ds));
            NewestFirst(t) && id in t.pending && t.pending[id] == s.pending[id] && id !in t.cancelled
    decreases |ds|
  {
    if ds != [] {
      var front, x := ds[..|ds|-1], ds[|ds|-1];
      assert ds == front + [x];
      Q.DiscardOneMore(PriorityThenTime, s, front, x);
      DiscardsKeepUnmarked(s, front, id);
      StepKeepsNewestFirst(PriorityThenTime, Q.After(s, Q.Discards(front)), Q.Discard(x));
    }
  }

  /** In every reachable state, a dequeue that serves a pending request not marked
      cancelled serves its latest entry: with its current priority and the time at
      which it was first enqueued, which every copy carries. */
  lemma FirstForwardIsNewest(env: Env, fallback: bool, aging: Aging.Config, clock: real, run: seq<Event>,
                             ds: seq<Item>, x: Item)
    requires Legal(env, Start(fallback, aging, clock), run)
    requires var queue := After(env, Start(fallback, aging, clock), run).sched.queue;
             && Q.Dequeues(PriorityThenTime, queue, ds, Some(x))
             && x.id in queue.pending && x.id !in queue.cancelled
    ensures var sched := After(env, Start(fallback, aging, clock), run).sched;
            && NewestFirst(sched.queue) && x == sched.queue.pending[x.id]
            && x.id in sched.priority && x.priority == sched.priority[x.id]
  {
    var s := Start(fallback, aging, clock);
    RunKeepsOk(env, s, run);
    assert NewestFirst(After(env, s, run).sched.queue) by {
      RunIsTidy(env, s, run);
      GatewayRunsQueue(env, s, run);
      RunKeepsNewestFirst(PriorityThenTime, Q.EMPTY, QueueRun(env, s, run));
    }
    DequeueServesNewest(After(env, s, run).sched.queue, ds, x);
  }

  lemma DequeueServesNewest(queue: Q.State, ds: seq<Item>, x: Item)
    requires NewestFirst(queue) && Q.Dequeues(PriorityThenTime, queue, ds, Some(x))
    requires x.id in queue.pending && x.id !in queue.cancelled
    ensures x == queue.pending[x.id]
  {
    PopsSplit(PriorityThenTime, queue, ds, Some(x));
    DiscardsKeepUnmarked(queue, ds, x.id);
    FirstPopIsNewest(PriorityThenTime, Q.After(queue, Q.Discards(ds)), x);
  }
}
