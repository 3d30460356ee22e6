/** Later requests do not pass earlier ones in the Python scheduler, as long as
    the fallback is not used. */
module Overtaking {
  import opened Wrappers
  import opened Requests
  import opened Scheduler
  import opened Gateway
  import opened GatewayLaws
  import opened GatewayInvariants
  import opened DispatchOrder
  import opened Tables
  import FallbackLaws
  import ClientLaws
  import Aging
  import Q = LazyQueue

  // -------------------------------------------------- one request before another

  /** The drop that the current tick still has in store for `q`. */
  ghost function DropOf(env: Env, s: Sys, q: Request): real
    requires s.tick.Some?
  {
    Aging.Drop(env.curves, s.aging, s.tick.value.now - q.created)
  }

  /** The current tick has yet to lower `q`. */
  predicate Due(env: Env, s: Sys, q: Request) {
    s.tick.Some? && q in s.tick.value.todo && s.tick.value.now - q.created <= env.timeout
  }

  /** As long as `r` is listed it is before `q`: in priority, in the table, and in
      the tick in progress, where `r` leads by enough once it has been visited.
      `first` decides between equal priorities. */
  ghost predicate Leads(env: Env, s: Sys, r: Request, q: Request, first: bool)
    requires r.id in s.sched.priority && q.id in s.sched.priority
  {
    && Less(first, s.sched.priority[r.id], s.sched.priority[q.id])
    && InOrder(s.sched.pending, r, q)
    && (s.tick.Some? ==>
          && InOrder(s.tick.value.todo, r, q)
          && (Due(env, s, q) && r !in s.tick.value.todo ==>
                Less(first, s.sched.priority[r.id], s.sched.priority[q.id] - DropOf(env, s, q))))
  }

  ghost predicate AheadBy(env: Env, s: Sys, r: Request, q: Request, first: bool) {
    && r.id != q.id && r.created <= q.created && Known(s, r) && Known(s, q)
    && (r in s.sched.pending ==> Leads(env, s, r, q, first))
  }

  /** `r` is before `q` in the order of dispatch, and stays so when the tick in
      progress has visited both. */
  ghost predicate Ahead(env: Env, s: Sys, r: Request, q: Request) {
    AheadBy(env, s, r, q, EnqueuedFirst(s.sched.queue, r, q))
  }

  /** A reload is harmless to `r` if, should the tick in progress have visited `r`
      and still be about to lower `q`, it leaves `r` before `q` after q's visit. */
  ghost predicate Harmless(env: Env, s: Sys, e: Event, r: Request, q: Request) {
    e.Reload? && r in s.sched.pending && Due(env, s, q) && r !in s.tick.value.todo
    && r.id in s.sched.priority && q.id in s.sched.priority ==>
      Precedes(s.sched.queue, r, s.sched.priority[r.id],
               q, s.sched.priority[q.id] - Aging.Drop(env.curves, e.aging, s.tick.value.now - q.created))
  }

  ghost predicate HarmlessRun(env: Env, s: Sys, run: seq<Event>, r: Request, q: Request) {
    run == [] ||
    (HarmlessRun(env, s, run[..|run|-1], r, q) && Harmless(env, After(env, s, run[..|run|-1]), run[|run|-1], r, q))
  }

  lemma LeadsSubmit(env: Env, s: Sys, e: Event, t: Sys, r: Request, q: Request, first: bool)
    requires Ok(s) && AheadBy(env, s, r, q, first) && Enabled(s, e) && e.Submit? && t == Apply(env, s, e)
    requires r in t.sched.pending && Known(t, r) && Known(t, q)
    ensures Leads(env, t, r, q, first)
  {
    if !ToFallback(s.sched, e.prediction) {
      SubmitTables(env, s, e);
      InAppended(s.sched.pending, e.request, r, q);
    }
  }

  lemma LeadsRemove(env: Env, s: Sys, e: Event, t: Sys, r: Request, q: Request, first: bool)
    requires Ok(s) && AheadBy(env, s, r, q, first) && Enabled(s, e) && (e.FinishOk? || e.Crash? || e.ClientCancel?)
    requires t == Apply(env, s, e) && r in t.sched.pending && Known(t, r) && Known(t, q)
    ensures Leads(env, t, r, q, first)
  {
    RemoveKeeps(s.sched.pending, e.id);
  }

  lemma LeadsDequeue(env: Env, s: Sys, e: Event, t: Sys, r: Request, q: Request, first: bool)
    requires Ok(s) && AheadBy(env, s, r, q, first) && Enabled(s, e) && (e.Begin? || e.Resume?)
    requires t == Apply(env, s, e) && r in t.sched.pending && Known(t, r) && Known(t, q)
    ensures Leads(env, t, r, q, first)
  {
    DequeueFrame(env, s, e, t);
    LeadsFrame(env, s, t, r, q, first);
  }

  lemma DequeueFrame(env: Env, s: Sys, e: Event, t: Sys)
    requires Enabled(s, e) && (e.Begin? || e.Resume?) && t == Apply(env, s, e)
    ensures t.sched == s.sched.(queue := t.sched.queue) && t.tick == s.tick && t.aging == s.aging
  {
  }

  /** Whether one request leads another depends on the tables, the tick and the
      configuration. */
  lemma LeadsFrame(env: Env, s: Sys, t: Sys, r: Request, q: Request, first: bool)
    requires t.sched.priority == s.sched.priority && t.sched.pending == s.sched.pending
    requires (t.tick == s.tick || t.tick.None?) && t.aging == s.aging
    requires r.id in s.sched.priority && q.id in s.sched.priority && Leads(env, s, r, q, first)
    ensures Leads(env, t, r, q, first)
  {
  }

  lemma LeadsTickStart(env: Env, s: Sys, t: Sys, r: Request, q: Request, first: bool)
    requires Ok(s) && AheadBy(env, s, r, q, first) && Enabled(s, TickStart)
    requires t == Apply(env, s, TickStart) && r in t.sched.pending && Known(t, r) && Known(t, q)
    ensures Leads(env, t, r, q, first)
  {
  }

  /** The steps that leave the tables alone. */
  predicate Quiet(e: Event) {
    e.WaitTimeout? || e.WokenTimeout? || e.TakeFallback? || e.Reply? || e.ReportCrash? || e.ClientTimeout?
    || e.TickEnd? || e.Advance?
  }

  lemma QuietFrame(env: Env, s: Sys, e: Event, t: Sys)
    requires Enabled(s, e) && Quiet(e) && t == Apply(env, s, e)
    ensures t.sched.priority == s.sched.priority && t.sched.pending == s.sched.pending
    ensures (t.tick == s.tick || t.tick.None?) && t.aging == s.aging
  {
  }

  lemma LeadsQuiet(env: Env, s: Sys, e: Event, t: Sys, r: Request, q: Request, first: bool)
    requires AheadBy(env, s, r, q, first) && Enabled(s, e) && Quiet(e)
    requires t == Apply(env, s, e) && r in t.sched.pending && Known(t, r) && Known(t, q)
    ensures Leads(env, t, r, q, first)
  {
    QuietFrame(env, s, e, t);
    LeadsFrame(env, s, t, r, q, first);
  }

  /** What a visit does to the table of priorities and to the table of requests. */
  lemma VisitPriorities(env: Env, s: Sys, t: Sys)
    requires Ok(s) && Enabled(s, VisitNext) && t == Apply(env, s, VisitNext)
    ensures var r := s.tick.value.todo[0];
            && t.sched.priority == (if s.tick.value.now - r.created > env.timeout then s.sched.priority
                                    else s.sched.priority[r.id := s.sched.priority[r.id] - DropOf(env, s, r)])
            && t.sched.pending == (if s.tick.value.now - r.created > env.timeout then Remove(s.sched.pending, r.id)
                                   else s.sched.pending)
            && DropOf(env, s, r) >= 0.0
  {
    var r := s.tick.value.todo[0];
    assert r.id in s.sched.priority;
    VisitEffect(env, s.aging, s.sched, r, s.tick.value.now);
    assert t.sched == Visit(env, s.aging, s.sched, r, s.tick.value.now);
  }

  lemma LeadsVisitFirst(env: Env, s: Sys, t: Sys, r: Request, q: Request, first: bool)
    requires Aging.Sane(env.curves) && Ok(s) && AheadBy(env, s, r, q, first) && r in s.sched.pending
    requires Enabled(s, VisitNext) && t == Apply(env, s, VisitNext) && r == s.tick.value.todo[0]
    requires Known(t, r) && Known(t, q) && s.tick.value.now - r.created <= env.timeout
    ensures Less(first, t.sched.priority[r.id], t.sched.priority[q.id])
    ensures q in s.tick.value.todo ==>
              Less(first, t.sched.priority[r.id], t.sched.priority[q.id] - DropOf(env, s, q))
  {
    VisitPriorities(env, s, t);
    if q in s.tick.value.todo {
      Aging.OlderDropsMore(env.curves, s.aging, s.tick.value.now - q.created, s.tick.value.now - r.created);
    }
  }

  lemma LeadsVisitOther(env: Env, s: Sys, t: Sys, r: Request, q: Request, first: bool)
    requires Ok(s) && AheadBy(env, s, r, q, first) && r in s.sched.pending
    requires Enabled(s, VisitNext) && t == Apply(env, s, VisitNext) && r != s.tick.value.todo[0]
    requires Known(t, r) && Known(t, q)
    ensures Less(first, t.sched.priority[r.id], t.sched.priority[q.id])
    ensures q != s.tick.value.todo[0] && Due(env, s, q) && r !in s.tick.value.todo ==>
              Less(first, t.sched.priority[r.id], t.sched.priority[q.id] - DropOf(env, s, q))
  {
    var o := s.tick.value.todo[0];
    VisitPriorities(env, s, t);
    TailKeeps(s.tick.value.todo, r, q);
    assert Known(s, o) && o.id != r.id;
    assert o != q ==> o.id != q.id;
  }

  /** A visit keeps the order of the table; one that leaves `r` listed does not
      time it out. */
  lemma VisitOrder(env: Env, s: Sys, t: Sys, r: Request, q: Request)
    requires Ok(s) && InOrder(s.sched.pending, r, q)
    requires Enabled(s, VisitNext) && t == Apply(env, s, VisitNext) && r in t.sched.pending
    ensures InOrder(t.sched.pending, r, q)
    ensures s.tick.value.todo[0] == r ==> s.tick.value.now - r.created <= env.timeout
  {
    VisitPriorities(env, s, t);
    RemoveKeeps(s.sched.pending, s.tick.value.todo[0].id);
    assert HasId(t.sched.pending, r.id);
  }

  lemma VisitListed(env: Env, s: Sys, t: Sys, r: Request)
    requires Ok(s) && Enabled(s, VisitNext) && t == Apply(env, s, VisitNext) && r in t.sched.pending
    ensures r in s.sched.pending
  {
    VisitPriorities(env, s, t);
    RemoveKeeps(s.sched.pending, s.tick.value.todo[0].id);
  }

  lemma VisitTick(env: Env, s: Sys, t: Sys)
    requires Enabled(s, VisitNext) && t == Apply(env, s, VisitNext)
    ensures t.tick == Some(Tick(s.tick.value.now, s.tick.value.todo[1..])) && t.aging == s.aging
  {
  }

  lemma LeadsVisit(env: Env, s: Sys, t: Sys, r: Request, q: Request, first: bool)
    requires Aging.Sane(env.curves) && Ok(s) && AheadBy(env, s, r, q, first)
    requires Enabled(s, VisitNext) && t == Apply(env, s, VisitNext)
    requires r in t.sched.pending && Known(t, r) && Known(t, q)
    ensures Leads(env, t, r, q, first)
  {
    VisitListed(env, s, t, r);
    VisitOrder(env, s, t, r, q);
    VisitTick(env, s, t);
    TailKeeps(s.tick.value.todo, r, q);
    if s.tick.value.todo[0] == r {
      LeadsVisitFirst(env, s, t, r, q, first);
    } else {
      LeadsVisitOther(env, s, t, r, q, first);
    }
  }

  /** A reload keeps `r` ahead of `q` if and only if it is harmless. */
  lemma AheadReload(env: Env, s: Sys, e: Event, r: Request, q: Request)
    requires Ahead(env, s, r, q) && e.Reload?
    ensures Ahead(env, Apply(env, s, e), r, q) <==> Harmless(env, s, e, r, q)
  {
  }

  lemma AheadStep(env: Env, s: Sys, e: Event, r: Request, q: Request)
    requires Aging.Sane(env.curves) && Ok(s) && Ahead(env, s, r, q) && Enabled(s, e)
    ensures Ahead(env, Apply(env, s, e), r, q) <==> Harmless(env, s, e, r, q)
  {
    if e.Reload? {
      AheadReload(env, s, e, r, q);
    } else {
      OtherStepsKeepAhead(env, s, e, r, q);
    }
  }

  lemma OtherStepsKeepAhead(env: Env, s: Sys, e: Event, r: Request, q: Request)
    requires Aging.Sane(env.curves) && Ok(s) && Ahead(env, s, r, q) && Enabled(s, e) && !e.Reload?
    ensures Ahead(env, Apply(env, s, e), r, q)
  {
    var t, first := Apply(env, s, e), EnqueuedFirst(s.sched.queue, r, q);
    StepKeepsOrder(env, s, e, r, q);
    OtherStepsLead(env, s, e, t, r, q, first);
    if first {
      assert AheadBy(env, t, r, q, EnqueuedFirst(t.sched.queue, r, q));
    } else {
      StrictlyAhead(env, t, r, q, EnqueuedFirst(t.sched.queue, r, q));
    }
  }

  lemma StrictlyAhead(env: Env, s: Sys, r: Request, q: Request, first: bool)
    requires AheadBy(env, s, r, q, false)
    ensures AheadBy(env, s, r, q, first)
  {
  }

  lemma OtherStepsLead(env: Env, s: Sys, e: Event, t: Sys, r: Request, q: Request, first: bool)
    requires Aging.Sane(env.curves) && Ok(s) && AheadBy(env, s, r, q, first) && Enabled(s, e) && !e.Reload?
    requires t == Apply(env, s, e)
    ensures AheadBy(env, t, r, q, first)
  {
    KnownStep(env, s, e, r);
    KnownStep(env, s, e, q);
    if r in t.sched.pending {
      match e {
        case Submit(_, _) => LeadsSubmit(env, s, e, t, r, q, first);
        case FinishOk(_) => LeadsRemove(env, s, e, t, r, q, first);
        case Crash(_) => LeadsRemove(env, s, e, t, r, q, first);
        case ClientCancel(_) => LeadsRemove(env, s, e, t, r, q, first);
        case VisitNext => LeadsVisit(env, s, t, r, q, first);
        case TickStart => LeadsTickStart(env, s, t, r, q, first);
        case Begin(_, _) => LeadsDequeue(env, s, e, t, r, q, first);
        case Resume(_, _) => LeadsDequeue(env, s, e, t, r, q, first);
        case _ => LeadsQuiet(env, s, e, t, r, q, first);
      }
    }
  }

  /** After every prefix of the run `r` is ahead of `q`. */
  ghost predicate AlwaysAhead(env: Env, s: Sys, run: seq<Event>, r: Request, q: Request) {
    Ahead(env, After(env, s, run), r, q) && (run == [] || AlwaysAhead(env, s, run[..|run|-1], r, q))
  }

  /** `r` stays ahead of `q` all along a run if and only if every reload in it is
      harmless. */
  lemma {:induction false} AheadIffHarmless(env: Env, s: Sys, run: seq<Event>, r: Request, q: Request)
    requires Aging.Sane(env.curves) && Ok(s) && Ahead(env, s, r, q) && Legal(env, s, run)
    ensures AlwaysAhead(env, s, run, r, q) <==> HarmlessRun(env, s, run, r, q)
    decreases |run|
  {
    if run != [] {
      AheadIffHarmless(env, s, run[..|run|-1], r, q);
      RunKeepsOk(env, s, run[..|run|-1]);
      if AlwaysAhead(env, s, run[..|run|-1], r, q) {
        AheadStep(env, After(env, s, run[..|run|-1]), run[|run|-1], r, q);
      }
    }
  }

  // ------------------------------------------------------------ no overtaking

  /** `r` waits: the scheduler lists it and no copy of it was popped yet. */
  predicate Waits(s: Sys, r: Request) {
    r in s.sched.pending && r.id in s.sched.queue.pending
  }

  lemma NotServedFirst(env: Env, s: Sys, r: Request, q: Request, ds: seq<Item>, x: Item)
    requires Ok(s) && Ahead(env, s, r, q) && Waits(s, r)
    requires Q.Dequeues(PriorityThenTime, s.sched.queue, ds, Some(x))
    ensures x.id != q.id && x.payload.id != q.id
  {
    var queue := s.sched.queue;
    var m := Q.After(queue, Q.Discards(ds));
    PopsSplit(PriorityThenTime, queue, ds, Some(x));
    DiscardsKeepQueueOk(queue, s.sched.priority, ds);
    assert m.pending[r.id] in m.heap;
    assert Before(PriorityThenTime, x, m.pending[r.id]);
    if EnqueuedFirst(queue, r, q) {
      DiscardsKeepOrder(queue, ds, r, q);
    }
  }

  /** In state `s`, `r` is listed and `q`, no older, can be submitted. */
  ghost predicate Arrives(s: Sys, r: Request, q: Request, prediction: Option<real>) {
    r in s.sched.pending && r.id in s.sched.priority && r.created <= q.created && Enabled(s, Submit(q, prediction))
  }

  /** And it comes behind `r` in the order of dispatch: its priority is above the
      current one of `r`, or the same and `r` was enqueued earlier. */
  ghost predicate ArrivesBehind(s: Sys, r: Request, q: Request, prediction: Option<real>) {
    && Arrives(s, r, q, prediction)
    && Less(EnqueuedBy(s, r), s.sched.priority[r.id], InitialPriority(q, prediction))
  }

  /** `r`, if it is in the queue, was enqueued before now. */
  predicate EnqueuedBy(s: Sys, r: Request) {
    r.id in s.sched.queue.pending ==> s.sched.queue.pending[r.id].time < s.clock
  }

  /** A request enqueued before now was enqueued before one that is submitted now. */
  lemma SubmittedLater(env: Env, s: Sys, r: Request, q: Request, prediction: Option<real>)
    requires Ok(s) && Arrives(s, r, q, prediction) && EnqueuedBy(s, r)
    ensures EnqueuedFirst(Apply(env, s, Submit(q, prediction)).sched.queue, r, q)
  {
  }

  lemma AheadFromSubmission(env: Env, s: Sys, r: Request, q: Request, prediction: Option<real>)
    requires Ok(s) && ArrivesBehind(s, r, q, prediction)
    ensures Ahead(env, Apply(env, s, Submit(q, prediction)), r, q)
  {
    var t := Apply(env, s, Submit(q, prediction));
    LeadsFromSubmission(env, s, t, r, q, prediction, EnqueuedBy(s, r));
    if EnqueuedBy(s, r) {
      SubmittedLater(env, s, r, q, prediction);
    } else {
      StrictlyAhead(env, t, r, q, EnqueuedFirst(t.sched.queue, r, q));
    }
  }

  lemma LeadsFromSubmission(env: Env, s: Sys, t: Sys, r: Request, q: Request, prediction: Option<real>, first: bool)
    requires Ok(s) && Arrives(s, r, q, prediction) && t == Apply(env, s, Submit(q, prediction))
    requires Less(first, s.sched.priority[r.id], InitialPriority(q, prediction))
    ensures AheadBy(env, t, r, q, first)
  {
    var e := Submit(q, prediction);
    KnownStep(env, s, e, r);
    assert Known(t, q);
    assert forall i :: 0 <= i < |s.sched.pending| ==> s.sched.pending[i] != q;
    if !ToFallback(s.sched, prediction) {
      SubmitTables(env, s, e);
    }
  }

  /** The step `e` forwards `q` while `r` waits. */
  ghost predicate Forwards(s: Sys, e: Event, r: Request, q: Request) {
    Enabled(s, e) && Waits(s, r) && ClientLaws.Starts(s, e, q.id)
  }

  /** From `s` the run `after` can happen, with harmless reloads only, and then the
      step `e` forwards `q` while `r` still waits. */
  ghost predicate Passes(env: Env, s: Sys, after: seq<Event>, e: Event, r: Request, q: Request) {
    Legal(env, s, after) && HarmlessRun(env, s, after, r, q) && Forwards(After(env, s, after), e, r, q)
  }

  lemma NotForwarded(env: Env, s: Sys, e: Event, r: Request, q: Request)
    requires Ok(s) && Ahead(env, s, r, q) && Waits(s, r) && Enabled(s, e)
    requires forall o :: o in FallbackQueue(s.sched) ==> o.id != q.id
    ensures !ClientLaws.Starts(s, e, q.id)
  {
    if (e.Begin? || e.Resume?) && e.got.Some? {
      NotServedFirst(env, s, r, q, e.discards, e.got.value);
    }
  }

  lemma SubmittedToHeap(env: Env, s: Sys, q: Request, prediction: Option<real>)
    requires FallbackLaws.FallbackKnown(s) && Enabled(s, Submit(q, prediction)) && !ToFallback(s.sched, prediction)
    ensures var t := Apply(env, s, Submit(q, prediction));
            q.id in t.clients && (forall o :: o in FallbackQueue(t.sched) ==> o.id != q.id)
  {
  }

  /** What is ahead is not passed while it waits. */
  lemma AheadNotPassed(env: Env, s: Sys, after: seq<Event>, e: Event, r: Request, q: Request)
    requires Aging.Sane(env.curves) && Ok(s) && Ahead(env, s, r, q)
    requires forall o :: o in FallbackQueue(s.sched) ==> o.id != q.id
    ensures !Passes(env, s, after, e, r, q)
  {
    if Passes(env, s, after, e, r, q) {
      AheadIffHarmless(env, s, after, r, q);
      RunKeepsOk(env, s, after);
      FallbackLaws.StaysOutOfFallback(env, s, after, q.id);
      NotForwarded(env, After(env, s, after), e, r, q);
    }
  }

  /** No overtaking.  Let `r` be listed in any reachable state, and let `q`, no
      older, be submitted then, go to the heap and come behind r's current priority,
      or come later with the same.  In every continuation whose reloads are harmless,
      as long as `r` waits no step, dequeue or fallback, forwards `q`. */
  lemma NoOvertaking(env: Env, fallback: bool, aging: Aging.Config, clock: real, before: seq<Event>,
                     r: Request, q: Request, prediction: Option<real>, after: seq<Event>, e: Event)
    requires Aging.Sane(env.curves) && Legal(env, Start(fallback, aging, clock), before)
    requires ArrivesBehind(After(env, Start(fallback, aging, clock), before), r, q, prediction)
    requires !ToFallback(After(env, Start(fallback, aging, clock), before).sched, prediction)
    ensures var s := After(env, Start(fallback, aging, clock), before);
            !Passes(env, Apply(env, s, Submit(q, prediction)), after, e, r, q)
  {
    var s := After(env, Start(fallback, aging, clock), before);
    RunKeepsOk(env, Start(fallback, aging, clock), before);
    AheadFromSubmission(env, s, r, q, prediction);
    OkStep(env, s, Submit(q, prediction));
    KeysStep(env, s, Submit(q, prediction));
    FallbackLaws.RunKeepsFallbackKnown(env, Start(fallback, aging, clock), before);
    SubmittedToHeap(env, s, q, prediction);
    AheadNotPassed(env, Apply(env, s, Submit(q, prediction)), after, e, r, q);
  }

  /** Without a fallback a request whose prediction failed waits like one of
      `max_tokens` predicted tokens: nothing listed with a priority below that is
      passed by it. */
  lemma FailedPredictionWaits(env: Env, aging: Aging.Config, clock: real, before: seq<Event>,
                              r: Request, q: Request, after: seq<Event>, e: Event)
    requires Aging.Sane(env.curves) && Legal(env, Start(false, aging, clock), before)
    requires var s := After(env, Start(false, aging, clock), before);
             Arrives(s, r, q, None) && s.sched.priority[r.id] < q.maxTokens as real
    ensures var s := After(env, Start(false, aging, clock), before);
            !Passes(env, Apply(env, s, Submit(q, None)), after, e, r, q)
  {
    FallbackLaws.FallbackStays(env, Start(false, aging, clock), before);
    NoOvertaking(env, false, aging, clock, before, r, q, None, after, e);
  }
}
