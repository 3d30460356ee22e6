/** What every run of the gateway keeps: the scheduler's table, the tick in
    progress and the queue agree. */
module GatewayInvariants {
  import opened Wrappers
  import opened Requests
  import opened Scheduler
  import opened Gateway
  import opened GatewayLaws
  import opened QueueLaws
  import opened Tables
  import ClientLaws
  import Aging
  import Q = LazyQueue

  // ------------------------------------------------ invariants of every run

  /** The gateway knows the request, and created it in the past. */
  predicate Known(s: Sys, r: Request) {
    && r.id in s.clients && s.clients[r.id].request == r
    && r.id in s.sched.priority && r.created <= s.clock
  }

  /** The scheduler's table and the current tick list known requests, once each. */
  ghost predicate TablesOk(s: Sys) {
    && UniqueIds(s.sched.pending)
    && (forall r :: r in s.sched.pending ==> Known(s, r) && r.id !in s.sched.queue.cancelled)
    && (s.tick.Some? ==>
          && UniqueIds(s.tick.value.todo)
          && forall r :: r in s.tick.value.todo ==> Known(s, r) && r.created <= s.tick.value.now)
  }

  /** All copies of a pending request have its enqueue time. */
  ghost predicate OneTime(q: Q.State) {
    forall x :: x in q.heap && x.id in q.pending ==> x.time == q.pending[x.id].time
  }

  /** The entry of a pending request carries its current priority, and no copy of a
      request has a smaller one. */
  ghost predicate Priced(q: Q.State, priority: map<Id, real>) {
    && (forall x :: x in q.heap ==> x.id in priority && priority[x.id] <= x.priority && x.payload.id == x.id)
    && (forall id :: id in q.pending ==> id in priority && q.pending[id].priority == priority[id])
  }

  /** The queue is consistent and agrees with the requests' priorities. */
  ghost predicate QueueOk(q: Q.State, priority: map<Id, real>) {
    Sound(q) && PendingInHeap(q) && Priced(q, priority) && OneTime(q)
  }

  ghost predicate Ok(s: Sys) {
    && TablesOk(s) && QueueOk(s.sched.queue, s.sched.priority)
    && s.sched.priority.Keys <= s.clients.Keys
  }

  lemma EnqueueKeepsPriced(q: Q.State, priority: map<Id, real>, x: Item)
    requires Priced(q, priority) && OneTime(q) && x.id !in priority && x.payload.id == x.id
    ensures Priced(Q.Apply(q, Q.Enqueue(x)), priority[x.id := x.priority])
    ensures OneTime(Q.Apply(q, Q.Enqueue(x)))
  {
    var t, table := Q.Apply(q, Q.Enqueue(x)), priority[x.id := x.priority];
    forall y | y in t.heap
      ensures y.id in table && table[y.id] <= y.priority && y.payload.id == y.id
      ensures y.id in t.pending ==> y.time == t.pending[y.id].time
    {
      assert y == x || y in q.heap;
    }
  }

  lemma EnqueueKeepsQueueOk(q: Q.State, priority: map<Id, real>, x: Item)
    requires QueueOk(q, priority) && x.id !in priority && x.payload.id == x.id
    ensures QueueOk(Q.Apply(q, Q.Enqueue(x)), priority[x.id := x.priority])
    ensures x.id !in q.cancelled
  {
    EnqueueKeepsPriced(q, priority, x);
    StepKeepsSound(PriorityThenTime, q, Q.Enqueue(x));
    StepKeepsPendingInHeap(PriorityThenTime, q, Q.Enqueue(x));
  }

  lemma UpdateKeepsPriced(q: Q.State, priority: map<Id, real>, id: Id, p: real)
    requires Priced(q, priority) && OneTime(q) && PendingInHeap(q) && id in q.pending && p <= priority[id]
    ensures Priced(Q.Apply(q, Q.Update(id, p, true)), priority[id := p])
    ensures OneTime(Q.Apply(q, Q.Update(id, p, true)))
  {
    var t, table := Q.Apply(q, Q.Update(id, p, true)), priority[id := p];
    assert q.pending[id] in q.heap;
    forall y | y in t.heap
      ensures y.id in table && table[y.id] <= y.priority && y.payload.id == y.id
      ensures y.id in t.pending ==> y.time == t.pending[y.id].time
    {
      assert y in q.heap || y == t.pending[id];
    }
  }

  lemma UpdateKeepsQueueOk(q: Q.State, priority: map<Id, real>, id: Id, p: real)
    requires QueueOk(q, priority) && id in priority && p <= priority[id]
    ensures QueueOk(Q.Apply(q, Q.Update(id, p, id in q.pending)), priority[id := p])
  {
    var e := Q.Update(id, p, id in q.pending);
    if id in q.pending {
      UpdateKeepsPriced(q, priority, id, p);
      StepKeepsSound(PriorityThenTime, q, e);
      StepKeepsPendingInHeap(PriorityThenTime, q, e);
    } else {
      assert Q.Apply(q, e) == q;
      assert Priced(q, priority[id := p]);
    }
  }

  lemma CancelKeepsQueueOk(q: Q.State, priority: map<Id, real>, id: Id)
    requires QueueOk(q, priority)
    ensures QueueOk(Q.Apply(q, Q.Cancel(id, id in q.pending)), priority)
  {
    StepKeepsSound(PriorityThenTime, q, Q.Cancel(id, id in q.pending));
  }

  lemma PopKeepsQueueOk(q: Q.State, priority: map<Id, real>, e: Q.Event)
    requires QueueOk(q, priority) && Q.Enabled(PriorityThenTime, q, e) && (e.Discard? || e.Deliver?)
    ensures QueueOk(Q.Apply(q, e), priority) && Q.Apply(q, e).cancelled <= q.cancelled
  {
    StepKeepsSound(PriorityThenTime, q, e);
    StepKeepsPendingInHeap(PriorityThenTime, q, e);
  }

  lemma {:induction false} DiscardsKeepQueueOk(q: Q.State, priority: map<Id, real>, ds: seq<Item>)
    requires QueueOk(q, priority) && Q.Legal(PriorityThenTime, q, Q.Discards(ds))
    ensures QueueOk(Q.After(q, Q.Discards(ds)), priority) && Q.After(q, Q.Discards(ds)).cancelled <= q.cancelled
    ensures forall id :: id in q.pending && id !in q.cancelled ==>
              id in Q.After(q, Q.Discards(ds)).pending && Q.After(q, Q.Discards(ds)).pending[id] == q.pending[id]
    decreases |ds|
  {
    if ds != [] {
      var front, x := ds[..|ds|-1], ds[|ds|-1];
      assert ds == front + [x];
      Q.DiscardOneMore(PriorityThenTime, q, front, x);
      DiscardsKeepQueueOk(q, priority, front);
      PopKeepsQueueOk(Q.After(q, Q.Discards(front)), priority, Q.Discard(x));
    }
  }

  lemma DequeueKeepsQueueOk(q: Q.State, priority: map<Id, real>, ds: seq<Item>, got: Option<Item>)
    requires QueueOk(q, priority) && Q.Dequeues(PriorityThenTime, q, ds, got)
    ensures var t := Q.After(q, Q.Pops(ds, got));
            QueueOk(t, priority) && t.cancelled <= q.cancelled
  {
    PopsSplit(PriorityThenTime, q, ds, got);
    DiscardsKeepQueueOk(q, priority, ds);
    if got.Some? {
      PopKeepsQueueOk(Q.After(q, Q.Discards(ds)), priority, Q.Deliver(got.value));
    }
  }

  // ------------------------------------------------------ the steps keep `Ok`

  lemma VisitKeepsKeys(env: Env, s: Sys)
    requires Enabled(s, VisitNext)
    ensures s.sched.priority.Keys <= Apply(env, s, VisitNext).sched.priority.Keys
    ensures Apply(env, s, VisitNext).clock == s.clock
  {
    var p := VisitCases(env, s.aging, s.sched, s.tick.value.todo[0], s.tick.value.now);
  }

  lemma OthersKeepKeys(env: Env, s: Sys, e: Event)
    requires Enabled(s, e) && !e.VisitNext?
    ensures s.sched.priority.Keys <= Apply(env, s, e).sched.priority.Keys && s.clock <= Apply(env, s, e).clock
  {
  }

  lemma KnownStep(env: Env, s: Sys, e: Event, r: Request)
    requires Enabled(s, e) && Known(s, r)
    ensures Known(Apply(env, s, e), r)
  {
    ClientLaws.SettledStep(env, s, e, r.id);
    if e.VisitNext? {
      VisitKeepsKeys(env, s);
    } else {
      OthersKeepKeys(env, s, e);
    }
  }

  /** A step that adds no request to the tables keeps them in order. */
  lemma TablesShrink(env: Env, s: Sys, e: Event, t: Sys)
    requires TablesOk(s) && Enabled(s, e) && t == Apply(env, s, e)
    requires UniqueIds(t.sched.pending)
    requires forall r :: r in t.sched.pending ==> r in s.sched.pending && r.id !in t.sched.queue.cancelled
    requires t.tick.Some? ==>
               && s.tick.Some? && t.tick.value.now == s.tick.value.now
               && (t.tick.value.todo == s.tick.value.todo
                   || (s.tick.value.todo != [] && t.tick.value.todo == s.tick.value.todo[1..]))
    ensures TablesOk(t)
  {
    forall r | r in t.sched.pending ensures Known(t, r) {
      KnownStep(env, s, e, r);
    }
    if t.tick.Some? {
      forall r | r in t.tick.value.todo ensures Known(t, r) && r.created <= t.tick.value.now {
        KnownStep(env, s, e, r);
      }
    }
  }

  lemma SubmitTables(env: Env, s: Sys, e: Event)
    requires Ok(s) && Enabled(s, e) && e.Submit? && !ToFallback(s.sched, e.prediction)
    ensures Apply(env, s, e).sched.pending == s.sched.pending + [e.request]
  {
    assert !HasId(s.sched.pending, e.request.id);
    PutNew(s.sched.pending, e.request);
  }

  lemma OkSubmitHeap(env: Env, s: Sys, e: Event, t: Sys)
    requires Ok(s) && Enabled(s, e) && e.Submit? && !ToFallback(s.sched, e.prediction) && t == Apply(env, s, e)
    ensures TablesOk(t) && QueueOk(t.sched.queue, t.sched.priority)
  {
    var r := e.request;
    SubmitTables(env, s, e);
    EnqueueKeepsQueueOk(s.sched.queue, s.sched.priority, Item(InitialPriority(r, e.prediction), s.clock, r.id, r));
    assert Known(t, r);
    forall q | q in t.sched.pending ensures Known(t, q) && q.id !in t.sched.queue.cancelled {
      if q != r { KnownStep(env, s, e, q); }
    }
    if t.tick.Some? {
      forall q | q in t.tick.value.todo ensures Known(t, q) && q.created <= t.tick.value.now {
        KnownStep(env, s, e, q);
      }
    }
  }

  lemma OkSubmitFallback(env: Env, s: Sys, e: Event, t: Sys)
    requires Ok(s) && Enabled(s, e) && e.Submit? && ToFallback(s.sched, e.prediction) && t == Apply(env, s, e)
    ensures TablesOk(t) && QueueOk(t.sched.queue, t.sched.priority)
  {
    TablesShrink(env, s, e, t);
  }

  lemma OkDequeue(env: Env, s: Sys, e: Event, t: Sys)
    requires Ok(s) && Enabled(s, e) && (e.Begin? || e.Resume?) && t == Apply(env, s, e)
    ensures TablesOk(t) && QueueOk(t.sched.queue, t.sched.priority)
  {
    DequeueKeepsQueueOk(s.sched.queue, s.sched.priority, e.discards, e.got);
    TablesShrink(env, s, e, t);
  }

  lemma OkComplete(env: Env, s: Sys, e: Event, t: Sys)
    requires Ok(s) && Enabled(s, e) && (e.FinishOk? || e.Crash?) && t == Apply(env, s, e)
    ensures TablesOk(t) && QueueOk(t.sched.queue, t.sched.priority)
  {
    RemoveKeeps(s.sched.pending, e.id);
    TablesShrink(env, s, e, t);
  }

  /** A scheduler cancel unlists the request it marks. */
  lemma CancelUnlists(s: Sched, id: Id)
    requires UniqueIds(s.pending) && QueueOk(s.queue, s.priority)
    requires forall r :: r in s.pending ==> r.id !in s.queue.cancelled
    ensures var t := Cancel(s, id);
            && UniqueIds(t.pending) && QueueOk(t.queue, t.priority) && t.priority == s.priority
            && (forall r :: r in t.pending ==> r in s.pending && r.id != id && r.id !in t.queue.cancelled)
  {
    RemoveKeeps(s.pending, id);
    CancelKeepsQueueOk(s.queue, s.priority, id);
    forall r | r in Remove(s.pending, id) ensures r.id != id {
      assert !HasId(Remove(s.pending, id), id);
    }
  }

  lemma OkCancel(env: Env, s: Sys, e: Event, t: Sys)
    requires Ok(s) && Enabled(s, e) && e.ClientCancel? && t == Apply(env, s, e)
    ensures TablesOk(t) && QueueOk(t.sched.queue, t.sched.priority)
  {
    CancelUnlists(s.sched, e.id);
    TablesShrink(env, s, e, t);
  }

  /** A visit cancels, or lowers the priority in the table and in the queue, by
      the drop of the policy. */
  lemma VisitEffect(env: Env, cfg: Aging.Config, s: Sched, r: Request, now: real)
    requires r.id in s.priority
    ensures var t := Visit(env, cfg, s, r, now);
            var p := s.priority[r.id] - Aging.Drop(env.curves, cfg, now - r.created);
            && p <= s.priority[r.id]
            && t == (if now - r.created > env.timeout then Cancel(s, r.id)
                     else if p == s.priority[r.id] then s
                     else s.(queue := Q.Apply(s.queue, Q.Update(r.id, p, r.id in s.queue.pending)),
                             priority := s.priority[r.id := p]))
  {
    Aging.VisitDrops(env.curves, cfg, now - r.created, s.priority[r.id]);
  }

  /** A visit changes the scheduler and the tick, and may notify a dequeuer. */
  lemma VisitStepSched(env: Env, s: Sys)
    requires Enabled(s, VisitNext)
    ensures var t := Apply(env, s, VisitNext);
            && t.sched == Visit(env, s.aging, s.sched, s.tick.value.todo[0], s.tick.value.now)
            && t == s.(sched := t.sched, tick := Some(Tick(s.tick.value.now, s.tick.value.todo[1..])),
                       idle := t.idle, woken := t.woken)
  {
  }

  lemma OthersKeepTick(env: Env, s: Sys, e: Event)
    requires Enabled(s, e) && !e.VisitNext? && !e.TickStart? && !e.TickEnd?
    ensures Apply(env, s, e).tick == s.tick
  {
  }

  ghost predicate SchedOk(s: Sched) {
    && UniqueIds(s.pending) && QueueOk(s.queue, s.priority)
    && (forall r :: r in s.pending ==> r.id !in s.queue.cancelled)
  }

  lemma LoweringKeepsSched(s: Sched, id: Id, p: real, t: Sched)
    requires SchedOk(s) && id in s.priority && p <= s.priority[id]
    requires t == s.(queue := Q.Apply(s.queue, Q.Update(id, p, id in s.queue.pending)),
                     priority := s.priority[id := p])
    ensures SchedOk(t)
  {
    UpdateKeepsQueueOk(s.queue, s.priority, id, p);
  }

  lemma VisitKeepsSched(env: Env, cfg: Aging.Config, s: Sched, r: Request, now: real, t: Sched)
    requires SchedOk(s) && r.id in s.priority && t == Visit(env, cfg, s, r, now)
    ensures SchedOk(t)
    ensures forall q :: q in t.pending ==> q in s.pending
  {
    VisitEffect(env, cfg, s, r, now);
    if now - r.created > env.timeout {
      CancelUnlists(s, r.id);
    } else if t != s {
      LoweringKeepsSched(s, r.id, s.priority[r.id] - Aging.Drop(env.curves, cfg, now - r.created), t);
    }
  }

  lemma OkVisit(env: Env, s: Sys, t: Sys)
    requires Ok(s) && Enabled(s, VisitNext) && t == Apply(env, s, VisitNext)
    ensures TablesOk(t) && QueueOk(t.sched.queue, t.sched.priority)
  {
    var r := s.tick.value.todo[0];
    VisitKeepsSched(env, s.aging, s.sched, r, s.tick.value.now, t.sched);
    assert t.sched == Visit(env, s.aging, s.sched, r, s.tick.value.now);
    TablesShrink(env, s, VisitNext, t);
  }

  lemma OkTickStart(env: Env, s: Sys, t: Sys)
    requires Ok(s) && Enabled(s, TickStart) && t == Apply(env, s, TickStart)
    ensures TablesOk(t) && QueueOk(t.sched.queue, t.sched.priority)
  {
    forall r | r in t.sched.pending ensures Known(t, r) {
      KnownStep(env, s, TickStart, r);
    }
  }

  lemma OkQuiet(env: Env, s: Sys, e: Event, t: Sys)
    requires Ok(s) && Enabled(s, e) && t == Apply(env, s, e)
    requires e.WaitTimeout? || e.WokenTimeout? || e.TakeFallback? || e.Reply? || e.ReportCrash? || e.ClientTimeout?
             || e.TickEnd? || e.Reload? || e.Advance?
    ensures TablesOk(t) && QueueOk(t.sched.queue, t.sched.priority)
  {
    TablesShrink(env, s, e, t);
  }

  lemma OkStep(env: Env, s: Sys, e: Event)
    requires Ok(s) && Enabled(s, e)
    ensures TablesOk(Apply(env, s, e)) && QueueOk(Apply(env, s, e).sched.queue, Apply(env, s, e).sched.priority)
  {
    var t := Apply(env, s, e);
    match e {
      case Submit(_, p) =>
        if ToFallback(s.sched, p) { OkSubmitFallback(env, s, e, t); } else { OkSubmitHeap(env, s, e, t); }
      case Begin(_, _) => OkDequeue(env, s, e, t);
      case Resume(_, _) => OkDequeue(env, s, e, t);
      case FinishOk(_) => OkComplete(env, s, e, t);
      case Crash(_) => OkComplete(env, s, e, t);
      case ClientCancel(_) => OkCancel(env, s, e, t);
      case VisitNext => OkVisit(env, s, t);
      case TickStart => OkTickStart(env, s, t);
      case _ => OkQuiet(env, s, e, t);
    }
  }

  /** Only submitted requests have a priority. */
  lemma VisitKeys(env: Env, s: Sys)
    requires Ok(s) && Enabled(s, VisitNext)
    ensures Apply(env, s, VisitNext).sched.priority.Keys <= s.sched.priority.Keys
  {
    var p := VisitCases(env, s.aging, s.sched, s.tick.value.todo[0], s.tick.value.now);
    assert s.tick.value.todo[0].id in s.sched.priority;
  }

  lemma OtherKeys(env: Env, s: Sys, e: Event)
    requires Enabled(s, e) && !e.VisitNext? && !e.Submit? && !e.Begin? && !e.Resume?
    ensures Apply(env, s, e).sched.priority.Keys <= s.sched.priority.Keys
  {
  }

  lemma DequeueKeys(env: Env, s: Sys, e: Event)
    requires Enabled(s, e) && (e.Begin? || e.Resume?)
    ensures Apply(env, s, e).sched.priority.Keys <= s.sched.priority.Keys
  {
  }

  lemma KeysStep(env: Env, s: Sys, e: Event)
    requires Ok(s) && Enabled(s, e)
    ensures Apply(env, s, e).sched.priority.Keys <= Apply(env, s, e).clients.Keys
  {
    forall id | id in s.clients ensures id in Apply(env, s, e).clients {
      ClientLaws.SettledStep(env, s, e, id);
    }
    if e.VisitNext? {
      VisitKeys(env, s);
    } else if e.Begin? || e.Resume? {
      DequeueKeys(env, s, e);
    } else if !e.Submit? {
      OtherKeys(env, s, e);
    }
  }

  lemma {:induction false} RunKeepsOk(env: Env, s: Sys, run: seq<Event>)
    requires Ok(s) && Legal(env, s, run)
    ensures Ok(After(env, s, run))
    decreases |run|
  {
    if run != [] {
      RunKeepsOk(env, s, run[..|run|-1]);
      OkStep(env, After(env, s, run[..|run|-1]), run[|run|-1]);
      KeysStep(env, After(env, s, run[..|run|-1]), run[|run|-1]);
    }
  }
}
