/** A client's cancel in the middle of an aging tick. */
module CancelRuns {
  import opened Requests
  import opened Scheduler
  import opened Gateway
  import opened GatewayInvariants
  import opened Overtaking
  import opened QueueInGateway
  import opened Tables
  import Aging
  import Q = LazyQueue
  import QueueLaws

  lemma VisitKeepsUnlisted(env: Env, s: Sys, r: Request)
    requires Ok(s) && Enabled(s, VisitNext) && r !in s.sched.pending
    ensures r !in Apply(env, s, VisitNext).sched.pending
  {
    VisitPriorities(env, s, Apply(env, s, VisitNext));
    RemoveKeeps(s.sched.pending, s.tick.value.todo[0].id);
  }

  lemma SubmitKeepsUnlisted(env: Env, s: Sys, e: Event, r: Request)
    requires Ok(s) && Enabled(s, e) && e.Submit? && Known(s, r) && r !in s.sched.pending
    ensures r !in Apply(env, s, e).sched.pending
  {
    if !ToFallback(s.sched, e.prediction) {
      SubmitTables(env, s, e);
    }
  }

  lemma RemoveKeepsUnlisted(env: Env, s: Sys, e: Event, r: Request)
    requires Ok(s) && Enabled(s, e) && (e.FinishOk? || e.Crash? || e.ClientCancel?) && r !in s.sched.pending
    ensures r !in Apply(env, s, e).sched.pending
  {
    RemoveKeeps(s.sched.pending, e.id);
  }

  lemma OthersKeepUnlisted(env: Env, s: Sys, e: Event, r: Request)
    requires Enabled(s, e) && r !in s.sched.pending
    requires !e.Submit? && !e.FinishOk? && !e.Crash? && !e.ClientCancel? && !e.VisitNext?
    ensures r !in Apply(env, s, e).sched.pending
  {
  }

  /** A request once taken off the scheduler's list is not listed again. */
  lemma UnlistedStep(env: Env, s: Sys, e: Event, r: Request)
    requires Ok(s) && Enabled(s, e) && Known(s, r) && r !in s.sched.pending
    ensures r !in Apply(env, s, e).sched.pending
  {
    match e {
      case Submit(_, _) => SubmitKeepsUnlisted(env, s, e, r);
      case VisitNext => VisitKeepsUnlisted(env, s, r);
      case FinishOk(_) => RemoveKeepsUnlisted(env, s, e, r);
      case Crash(_) => RemoveKeepsUnlisted(env, s, e, r);
      case ClientCancel(_) => RemoveKeepsUnlisted(env, s, e, r);
      case _ => OthersKeepUnlisted(env, s, e, r);
    }
  }

  lemma {:induction false} DiscardsUpdateNothing(ds: seq<Item>, id: Id)
    ensures Q.Count(Q.Discards(ds), Q.Upd, id) == 0
    decreases |ds|
  {
    if ds != [] {
      DiscardsUpdateNothing(ds[..|ds|-1], id);
      Q.CountConcat(Q.Discards(ds[..|ds|-1]), [Q.Discard(ds[|ds|-1])], Q.Upd, id);
    }
  }

  /** Only a visit of the request updates it. */
  lemma StepUpdates(env: Env, s: Sys, e: Event, id: Id)
    requires Enabled(s, e) && (e.VisitNext? ==> s.tick.value.todo[0].id != id)
    ensures Q.Count(QueueSteps(env, s, e), Q.Upd, id) == 0
  {
    if e.Begin? || e.Resume? {
      DiscardsUpdateNothing(e.discards, id);
      if e.got.Some? {
        Q.CountConcat(Q.Discards(e.discards), [Q.Deliver(e.got.value)], Q.Upd, id);
      } else {
        assert Q.Pops(e.discards, e.got) == Q.Discards(e.discards);
      }
    }
  }

  predicate ToVisit(s: Sys, r: Request) {
    s.tick.Some? && r in s.tick.value.todo
  }

  lemma VisitOfOther(env: Env, s: Sys, r: Request)
    requires Ok(s) && Enabled(s, VisitNext) && Known(s, r) && ToVisit(Apply(env, s, VisitNext), r)
    ensures ToVisit(s, r) && s.tick.value.todo[0].id != r.id
  {
    VisitTick(env, s, Apply(env, s, VisitNext));
    Uncons(s.tick.value.todo);
    assert Known(s, s.tick.value.todo[0]);
  }

  /** If an unlisted request is still to be visited after a step, it was before it,
      and the step did not visit it. */
  lemma ToVisitStep(env: Env, s: Sys, e: Event, r: Request)
    requires Ok(s) && Enabled(s, e) && Known(s, r) && r !in s.sched.pending && ToVisit(Apply(env, s, e), r)
    ensures ToVisit(s, r) && (e.VisitNext? ==> s.tick.value.todo[0].id != r.id)
  {
    if e.VisitNext? {
      VisitOfOther(env, s, r);
    } else if !e.TickStart? && !e.TickEnd? {
      OthersKeepTick(env, s, e);
    }
  }

  lemma {:induction false} NotUpdatedUntilVisited(env: Env, s: Sys, run: seq<Event>, r: Request)
    requires Ok(s) && Known(s, r) && r !in s.sched.pending && Legal(env, s, run)
    ensures Known(After(env, s, run), r) && r !in After(env, s, run).sched.pending
    ensures ToVisit(After(env, s, run), r) ==> Q.Count(QueueRun(env, s, run), Q.Upd, r.id) == 0
    decreases |run|
  {
    if run != [] {
      var front, e := run[..|run|-1], run[|run|-1];
      var m := After(env, s, front);
      NotUpdatedUntilVisited(env, s, front, r);
      RunKeepsOk(env, s, front);
      KnownStep(env, m, e, r);
      UnlistedStep(env, m, e, r);
      if ToVisit(After(env, s, run), r) {
        ToVisitStep(env, m, e, r);
        StepUpdates(env, m, e, r.id);
        Q.CountConcat(QueueRun(env, s, front), QueueSteps(env, m, e), Q.Upd, r.id);
      }
    }
  }

  /** What a visit does to a request that is in the queue under a mark, or is not in
      the queue any more. */
  lemma VisitMarked(env: Env, cfg: Aging.Config, s: Sched, r: Request, now: real)
    requires r.id in s.priority && (r.id in s.queue.pending <==> r.id in s.queue.cancelled)
    ensures var t := Visit(env, cfg, s, r, now);
            r.id in t.queue.pending && r.id !in t.queue.cancelled <==>
              && r.id in s.queue.pending && now - r.created <= env.timeout
              && Aging.Drop(env.curves, cfg, now - r.created) > 0.0
  {
    VisitEffect(env, cfg, s, r, now);
  }

  lemma VisitOfMarked(env: Env, t: Sys, r: Request)
    requires Ok(t) && Known(t, r) && r !in t.sched.pending
    requires r.id in t.sched.queue.pending <==> r.id in t.sched.queue.cancelled
    requires t.tick.Some? && t.tick.value.todo != [] && t.tick.value.todo[0] == r
    ensures var u := Apply(env, t, VisitNext);
            && r !in u.sched.pending
            && (r.id in u.sched.queue.pending && r.id !in u.sched.queue.cancelled <==>
                  && r.id in t.sched.queue.pending
                  && t.tick.value.now - r.created <= env.timeout && DropOf(env, t, r) > 0.0)
  {
    VisitKeepsUnlisted(env, t, r);
    VisitStepSched(env, t);
    VisitMarked(env, t.aging, t.sched, r, t.tick.value.now);
  }

  /** How often a gateway run pops a copy of `id`. */
  ghost function Popped(env: Env, s: Sys, run: seq<Event>, id: Id): nat {
    Q.Count(QueueRun(env, s, run), Q.Dis, id) + Q.Count(QueueRun(env, s, run), Q.Del, id)
  }

  /** The queue between a cancel of `r` during a tick and the visit of `r`: the
      mark stays exactly as long as no copy of `r` is popped. */
  lemma MarkBetween(env: Env, s: Sys, r: Request, between: seq<Event>)
    requires Ok(s) && Known(s, r) && Enabled(s, ClientCancel(r.id)) && r.id in s.sched.queue.pending
    requires Legal(env, Apply(env, s, ClientCancel(r.id)), between)
    requires ToVisit(After(env, Apply(env, s, ClientCancel(r.id)), between), r)
    ensures var m := Apply(env, s, ClientCancel(r.id));
            var t := After(env, m, between);
            var popped := Popped(env, m, between, r.id);
            && Ok(t) && Known(t, r) && r !in t.sched.pending
            && (r.id in t.sched.queue.pending <==> popped == 0)
            && (r.id in t.sched.queue.cancelled <==> popped == 0)
  {
    var m := Apply(env, s, ClientCancel(r.id));
    OkStep(env, s, ClientCancel(r.id));
    KeysStep(env, s, ClientCancel(r.id));
    KnownStep(env, s, ClientCancel(r.id), r);
    CancelUnlists(s.sched, r.id);
    NotUpdatedUntilVisited(env, m, between, r);
    RunKeepsOk(env, m, between);
    GatewayRunsQueue(env, m, between);
    EnqueuedOnce(env, m, between, r.id);
    QueueLaws.MarkSwallowsOne(PriorityThenTime, m.sched.queue, QueueRun(env, m, between), r.id);
  }

  /** A client's cancel that falls between the snapshot of a tick and the visit of
      the request, with any steps in between, is undone if and only if no copy of the
      request is popped meanwhile and the visit lowers its priority: the request, no
      longer listed, then waits in the queue without its mark. */
  lemma TickUndoesCancel(env: Env, s: Sys, r: Request, between: seq<Event>)
    requires Ok(s) && Known(s, r) && Enabled(s, ClientCancel(r.id)) && r.id in s.sched.queue.pending
    requires Legal(env, Apply(env, s, ClientCancel(r.id)), between)
    requires var t := After(env, Apply(env, s, ClientCancel(r.id)), between);
             t.tick.Some? && t.tick.value.todo != [] && t.tick.value.todo[0] == r
    ensures var m := Apply(env, s, ClientCancel(r.id));
            var t := After(env, m, between);
            var u := Apply(env, t, VisitNext);
            && r !in u.sched.pending
            && (r.id in u.sched.queue.pending && r.id !in u.sched.queue.cancelled <==>
                  && Popped(env, m, between, r.id) == 0
                  && t.tick.value.now - r.created <= env.timeout && DropOf(env, t, r) > 0.0)
  {
    MarkBetween(env, s, r, between);
    VisitOfMarked(env, After(env, Apply(env, s, ClientCancel(r.id)), between), r);
  }
}
