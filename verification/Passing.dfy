/** When a later request does pass an earlier one: the exact conditions. */
module Passing {
  import opened Wrappers
  import opened Requests
  import opened Scheduler
  import opened Gateway
  import opened GatewayLaws
  import opened GatewayInvariants
  import opened Overtaking
  import opened Tables
  import Aging
  import Q = LazyQueue

  /** The entry of `q` in the queue may be popped while that of `r` is there. */
  predicate InFront(queue: Q.State, r: Request, q: Request) {
    && r.id in queue.pending && q.id in queue.pending
    && Before(PriorityThenTime, queue.pending[q.id], queue.pending[r.id])
  }

  /** Both wait, the heap is being served, and `q` is in front. */
  ghost predicate Behind(s: Sys, r: Request, q: Request) {
    && Ok(s) && !Latched(s.sched) && r.id != q.id
    && r in s.sched.pending && q in s.sched.pending && InFront(s.sched.queue, r, q)
  }

  // ------------------------------------------------ what is in front can be served

  lemma FirstOfTwo(m: Q.State, x: Item, y: Item)
    requires Q.Enabled(PriorityThenTime, m, Q.Deliver(x)) && Before(PriorityThenTime, y, x)
    requires y in m.heap && y.id !in m.cancelled
    ensures Q.Enabled(PriorityThenTime, m, Q.Deliver(y))
  {
  }

  /** When a pass delivers something else than the entry of `q`, which it could not
      replace by that entry, then it leaves `r` and `q` in the queue. */
  lemma NotYet(m: Q.State, priority: map<Id, real>, x: Item, r: Request, q: Request)
    requires QueueOk(m, priority) && InFront(m, r, q) && x in m.heap
    requires !Before(PriorityThenTime, m.pending[q.id], x)
    ensures x.id != q.id && x.id != r.id
  {
    if x.id in m.pending {
      assert m.pending[x.id].priority <= x.priority && m.pending[x.id].time == x.time;
    }
  }

  /** Some pass of a dequeue delivers the entry of `q`, or leaves both in the queue. */
  lemma ServeOne(queue: Q.State, priority: map<Id, real>, r: Request, q: Request)
    returns (ds: seq<Item>, x: Item)
    requires QueueOk(queue, priority) && InFront(queue, r, q)
    requires r.id !in queue.cancelled && q.id !in queue.cancelled
    ensures Q.Dequeues(PriorityThenTime, queue, ds, Some(x))
    ensures x == queue.pending[q.id] || InFront(Q.After(queue, Q.Pops(ds, Some(x))), r, q)
  {
    var got;
    ds, got := DequeueExists(PriorityThenTime, queue);
    PopsSplit(PriorityThenTime, queue, ds, got);
    DiscardsKeepQueueOk(queue, priority, ds);
    var m, y := Q.After(queue, Q.Discards(ds)), queue.pending[q.id];
    assert m.pending[q.id] == y && m.pending[r.id] == queue.pending[r.id] && y in m.heap;
    x := got.value;
    if Before(PriorityThenTime, y, x) {
      FirstOfTwo(m, x, y);
      x := y;
      Q.RunSnoc(PriorityThenTime, queue, Q.Discards(ds), Q.Deliver(y));
    } else {
      NotYet(m, priority, x, r, q);
    }
  }

  predicate ReloadFree(run: seq<Event>) {
    forall i :: 0 <= i < |run| ==> !run[i].Reload?
  }

  lemma Prepend(env: Env, s: Sys, e: Event, run: seq<Event>)
    requires Enabled(s, e) && !e.Reload? && Legal(env, Apply(env, s, e), run) && ReloadFree(run)
    ensures Legal(env, s, [e] + run) && After(env, s, [e] + run) == After(env, Apply(env, s, e), run)
    ensures ReloadFree([e] + run)
  {
    Steps(env, s, [], e);
    assert [] + [e] == [e];
    RunConcat(env, s, [e], run);
  }

  lemma BehindAfterOther(env: Env, s: Sys, ds: seq<Item>, x: Item, t: Sys, r: Request, q: Request)
    requires Behind(s, r, q) && Q.Dequeues(PriorityThenTime, s.sched.queue, ds, Some(x))
    requires InFront(Q.After(s.sched.queue, Q.Pops(ds, Some(x))), r, q)
    requires t == Apply(env, s, Begin(ds, Some(x)))
    ensures Behind(t, r, q) && |t.sched.queue.heap| < |s.sched.queue.heap|
  {
    OkStep(env, s, Begin(ds, Some(x)));
    KeysStep(env, s, Begin(ds, Some(x)));
    DequeueCount(PriorityThenTime, s.sched.queue, ds, Some(x));
  }

  /** What is in front is forwarded next, or something else is. */
  lemma ServeBehind(env: Env, s: Sys, r: Request, q: Request) returns (e: Event)
    requires Behind(s, r, q)
    ensures Enabled(s, e) && e.Begin?
    ensures Forwards(s, e, r, q) ||
              (Behind(Apply(env, s, e), r, q) && |Apply(env, s, e).sched.queue.heap| < |s.sched.queue.heap|)
  {
    var ds, x := ServeOne(s.sched.queue, s.sched.priority, r, q);
    e := Begin(ds, Some(x));
    if x == s.sched.queue.pending[q.id] {
      assert x in s.sched.queue.heap;
    } else {
      BehindAfterOther(env, s, ds, x, Apply(env, s, e), r, q);
    }
  }

  /** What is in front can be forwarded first: by dequeues alone. */
  lemma {:induction false} InFrontIsServed(env: Env, s: Sys, r: Request, q: Request)
    returns (run: seq<Event>, e: Event)
    requires Behind(s, r, q)
    ensures Legal(env, s, run) && ReloadFree(run)
    ensures Forwards(After(env, s, run), e, r, q)
    decreases |s.sched.queue.heap|
  {
    var b := ServeBehind(env, s, r, q);
    if Forwards(s, b, r, q) {
      run, e := [], b;
    } else {
      var rest;
      rest, e := InFrontIsServed(env, Apply(env, s, b), r, q);
      run := [b] + rest;
      Prepend(env, s, b, rest);
    }
  }

  /** A run without reloads is harmless. */
  lemma {:induction false} NoReloadNoHarm(env: Env, s: Sys, run: seq<Event>, r: Request, q: Request)
    requires ReloadFree(run)
    ensures HarmlessRun(env, s, run, r, q)
    decreases |run|
  {
    if run != [] {
      NoReloadNoHarm(env, s, run[..|run|-1], r, q);
    }
  }

  // ------------------------------------------------- passing by the fallback

  function TakeFallbacks(n: nat): seq<Event> {
    if n == 0 then [] else TakeFallbacks(n - 1) + [TakeFallback]
  }

  /** Taking `n` requests from the fallback leaves the heap side alone. */
  lemma {:induction false} TakeMany(env: Env, s: Sys, n: nat)
    requires Latched(s.sched) && n <= |FallbackQueue(s.sched)|
    ensures Legal(env, s, TakeFallbacks(n))
    ensures ReloadFree(TakeFallbacks(n))
    ensures var t := After(env, s, TakeFallbacks(n));
            && Latched(t.sched) && FallbackQueue(t.sched) == FallbackQueue(s.sched)[n..]
            && t.sched.pending == s.sched.pending && t.sched.queue == s.sched.queue
    decreases n
  {
    if n > 0 {
      TakeMany(env, s, n - 1);
      Steps(env, s, TakeFallbacks(n - 1), TakeFallback);
    }
  }

  lemma PassedByFallback(env: Env, s: Sys, r: Request, q: Request, prediction: Option<real>)
    returns (after: seq<Event>)
    requires Enabled(s, Submit(q, prediction)) && ToFallback(s.sched, prediction) && Waits(s, r)
    ensures Passes(env, Apply(env, s, Submit(q, prediction)), after, TakeFallback, r, q)
  {
    var t := Apply(env, s, Submit(q, prediction));
    var n := |FallbackQueue(s.sched)|;
    TakeMany(env, t, n);
    after := TakeFallbacks(n);
    NoReloadNoHarm(env, t, after, r, q);
    assert FallbackQueue(t.sched)[n..] == [q];
  }

  // --------------------------------------------------- passing at submission

  /** A request that does not come behind `r` is in front of it once submitted. */
  lemma SubmittedInFront(env: Env, s: Sys, r: Request, q: Request, prediction: Option<real>)
    requires Ok(s) && Arrives(s, r, q, prediction) && Waits(s, r)
    requires !ToFallback(s.sched, prediction) && !ArrivesBehind(s, r, q, prediction)
    ensures Behind(Apply(env, s, Submit(q, prediction)), r, q)
  {
    OkStep(env, s, Submit(q, prediction));
    KeysStep(env, s, Submit(q, prediction));
    SubmitTables(env, s, Submit(q, prediction));
    EntryOfSubmitted(env, s, r, q, prediction);
  }

  lemma EntryOfSubmitted(env: Env, s: Sys, r: Request, q: Request, prediction: Option<real>)
    requires Enabled(s, Submit(q, prediction)) && !ToFallback(s.sched, prediction)
    requires r.id in s.sched.queue.pending && r.id in s.clients
    ensures var queue := Apply(env, s, Submit(q, prediction)).sched.queue;
            && r.id in queue.pending && queue.pending[r.id] == s.sched.queue.pending[r.id]
            && q.id in queue.pending
            && queue.pending[q.id] == Item(InitialPriority(q, prediction), s.clock, q.id, q)
  {
  }

  /** The exact condition.  A later request can be forwarded while `r` waits,
      reloads being harmless, if and only if its submission goes to the fallback or
      does not come behind `r` in the order of dispatch. */
  lemma PassedIff(env: Env, fallback: bool, aging: Aging.Config, clock: real, before: seq<Event>,
                  r: Request, q: Request, prediction: Option<real>)
    requires Aging.Sane(env.curves) && Legal(env, Start(fallback, aging, clock), before)
    requires Arrives(After(env, Start(fallback, aging, clock), before), r, q, prediction)
    requires Waits(After(env, Start(fallback, aging, clock), before), r)
    ensures var s := After(env, Start(fallback, aging, clock), before);
            (exists after, e :: Passes(env, Apply(env, s, Submit(q, prediction)), after, e, r, q))
            <==> ToFallback(s.sched, prediction) || !ArrivesBehind(s, r, q, prediction)
  {
    var s := After(env, Start(fallback, aging, clock), before);
    var t := Apply(env, s, Submit(q, prediction));
    if ToFallback(s.sched, prediction) {
      var after := PassedByFallback(env, s, r, q, prediction);
    } else if ArrivesBehind(s, r, q, prediction) {
      forall after, e ensures !Passes(env, t, after, e, r, q) {
        NoOvertaking(env, fallback, aging, clock, before, r, q, prediction, after, e);
      }
    } else {
      RunKeepsOk(env, Start(fallback, aging, clock), before);
      SubmittedInFront(env, s, r, q, prediction);
      var after, e := InFrontIsServed(env, t, r, q);
      NoReloadNoHarm(env, t, after, r, q);
      assert Passes(env, t, after, e, r, q);
    }
  }

  // ------------------------------------------------------- passing by a reload

  /** Both wait in a tick that has visited `r` and is about to lower `q`. */
  ghost predicate Between(env: Env, s: Sys, r: Request, q: Request) {
    && Ok(s) && !Latched(s.sched) && r.id != q.id && Waits(s, r) && Waits(s, q)
    && Due(env, s, q) && r !in s.tick.value.todo
  }

  /** What the visits of other requests leave alone. */
  ghost predicate SameFor(s: Sys, t: Sys, id: Id) {
    && id in s.sched.queue.pending && id in t.sched.queue.pending
    && t.sched.queue.pending[id] == s.sched.queue.pending[id]
  }

  lemma VisitKeepsEntry(env: Env, s: Sys, q: Request)
    requires Ok(s) && Enabled(s, VisitNext) && Waits(s, q) && s.tick.value.todo[0].id != q.id
    ensures var t := Apply(env, s, VisitNext);
            Waits(t, q) && SameFor(s, t, q.id) && (Latched(t.sched) <==> Latched(s.sched))
  {
    var o := s.tick.value.todo[0];
    VisitStepSched(env, s);
    VisitEffect(env, s.aging, s.sched, o, s.tick.value.now);
    RemoveKeeps(s.sched.pending, o.id);
  }

  /** The tick has gone on, to `t`, without touching the two. */
  ghost predicate Onward(env: Env, s: Sys, t: Sys, r: Request, q: Request) {
    && Between(env, t, r, q) && SameFor(s, t, r.id) && SameFor(s, t, q.id)
    && t.aging == s.aging && s.tick.Some? && t.tick.value.now == s.tick.value.now
  }

  lemma VisitBetween(env: Env, s: Sys, t: Sys, r: Request, q: Request)
    requires Between(env, s, r, q) && s.tick.value.todo[0] != q && t == Apply(env, s, VisitNext)
    ensures Onward(env, s, t, r, q) && |t.tick.value.todo| < |s.tick.value.todo|
  {
    var o := s.tick.value.todo[0];
    assert Known(s, o) && Known(s, r) && Known(s, q);
    OkStep(env, s, VisitNext);
    KeysStep(env, s, VisitNext);
    VisitTick(env, s, t);
    VisitKeepsEntry(env, s, r);
    VisitKeepsEntry(env, s, q);
  }

  lemma OnwardTransitive(env: Env, s: Sys, m: Sys, t: Sys, r: Request, q: Request)
    requires Onward(env, s, m, r, q) && Onward(env, m, t, r, q)
    ensures Onward(env, s, t, r, q)
  {
  }

  /** The tick goes on until `q` is next. */
  lemma {:induction false} VisitUpTo(env: Env, s: Sys, r: Request, q: Request) returns (run: seq<Event>)
    requires Between(env, s, r, q)
    ensures Legal(env, s, run) && ReloadFree(run)
    ensures Onward(env, s, After(env, s, run), r, q) && After(env, s, run).tick.value.todo[0] == q
    decreases |s.tick.value.todo|
  {
    if s.tick.value.todo[0] == q {
      run := [];
    } else {
      var m := Apply(env, s, VisitNext);
      VisitBetween(env, s, m, r, q);
      var rest := VisitUpTo(env, m, r, q);
      run := [VisitNext] + rest;
      Prepend(env, s, VisitNext, rest);
      OnwardTransitive(env, s, m, After(env, m, rest), r, q);
    }
  }

  /** What the visit of `q` does to its entry. */
  lemma VisitLowersEntry(env: Env, s: Sys, q: Request)
    requires Ok(s) && Due(env, s, q) && s.tick.value.todo[0] == q && Waits(s, q)
    ensures var t := Apply(env, s, VisitNext);
            && Waits(t, q) && (Latched(t.sched) <==> Latched(s.sched))
            && t.sched.queue.pending[q.id]
            == s.sched.queue.pending[q.id].(priority := s.sched.priority[q.id] - DropOf(env, s, q))
  {
    VisitStepSched(env, s);
    VisitEffect(env, s.aging, s.sched, q, s.tick.value.now);
  }

  /** The entry of `q` after its visit is in front of that of `r`. */
  ghost predicate WillPass(env: Env, s: Sys, r: Request, q: Request)
    requires Between(env, s, r, q)
  {
    var x, y := s.sched.queue.pending[r.id], s.sched.queue.pending[q.id];
    Before(PriorityThenTime, y.(priority := y.priority - DropOf(env, s, q)), x)
  }

  lemma VisitPasses(env: Env, s: Sys, r: Request, q: Request)
    requires Between(env, s, r, q) && WillPass(env, s, r, q) && s.tick.value.todo[0] == q
    ensures Behind(Apply(env, s, VisitNext), r, q)
  {
    OkStep(env, s, VisitNext);
    KeysStep(env, s, VisitNext);
    VisitKeepsEntry(env, s, r);
    VisitLowersEntry(env, s, q);
  }

  lemma OnwardWillPass(env: Env, s: Sys, t: Sys, r: Request, q: Request)
    requires Between(env, s, r, q) && WillPass(env, s, r, q) && Onward(env, s, t, r, q)
    ensures WillPass(env, t, r, q)
  {
  }

  lemma Append(env: Env, s: Sys, front: seq<Event>, rest: seq<Event>)
    requires Legal(env, s, front) && Legal(env, After(env, s, front), rest) && ReloadFree(front) && ReloadFree(rest)
    ensures Legal(env, s, front + rest) && After(env, s, front + rest) == After(env, After(env, s, front), rest)
    ensures ReloadFree(front + rest)
  {
    RunConcat(env, s, front, rest);
  }

  /** The visit of `q`, which is next, and some dequeues. */
  lemma VisitThenServe(env: Env, s: Sys, r: Request, q: Request) returns (run: seq<Event>, e: Event)
    requires Between(env, s, r, q) && WillPass(env, s, r, q) && s.tick.value.todo[0] == q
    ensures Legal(env, s, run) && ReloadFree(run) && Forwards(After(env, s, run), e, r, q)
  {
    VisitPasses(env, s, r, q);
    var dequeues;
    dequeues, e := InFrontIsServed(env, Apply(env, s, VisitNext), r, q);
    run := [VisitNext] + dequeues;
    Prepend(env, s, VisitNext, dequeues);
  }

  /** A tick that takes `q` to the front lets it be forwarded while `r` waits. */
  lemma TickLetsPass(env: Env, s: Sys, r: Request, q: Request) returns (after: seq<Event>, e: Event)
    requires Between(env, s, r, q) && WillPass(env, s, r, q)
    ensures Passes(env, s, after, e, r, q)
  {
    var visits := VisitUpTo(env, s, r, q);
    OnwardWillPass(env, s, After(env, s, visits), r, q);
    var rest;
    rest, e := VisitThenServe(env, After(env, s, visits), r, q);
    after := visits + rest;
    Append(env, s, visits, rest);
    NoReloadNoHarm(env, s, after, r, q);
  }

  /** A harmful reload puts `q` in front. */
  lemma HarmfulPutsInFront(env: Env, s: Sys, r: Request, q: Request, cfg: Aging.Config)
    requires Ok(s) && Ahead(env, s, r, q) && Waits(s, r) && Waits(s, q) && !Latched(s.sched)
    requires !Harmless(env, s, Reload(cfg), r, q)
    ensures var t := Apply(env, s, Reload(cfg));
            Between(env, t, r, q) && WillPass(env, t, r, q)
  {
    OkStep(env, s, Reload(cfg));
    KeysStep(env, s, Reload(cfg));
    var queue := s.sched.queue;
    assert queue.pending[q.id] in queue.heap;
    assert queue.pending[q.id].priority == s.sched.priority[q.id];
    assert queue.pending[r.id].priority == s.sched.priority[r.id];
  }

  /** The exact condition on reloads.  While `r` is ahead and both wait, a reload
      lets `q` be forwarded before `r` in some continuation without a further harmful
      reload if and only if it is harmful itself. */
  lemma ReloadLetsPass(env: Env, s: Sys, r: Request, q: Request, cfg: Aging.Config)
    requires Aging.Sane(env.curves) && Ok(s) && Ahead(env, s, r, q) && Waits(s, r) && Waits(s, q)
    requires !Latched(s.sched) && forall o :: o in FallbackQueue(s.sched) ==> o.id != q.id
    ensures (exists after, e :: Passes(env, Apply(env, s, Reload(cfg)), after, e, r, q))
       <==> !Harmless(env, s, Reload(cfg), r, q)
  {
    var t := Apply(env, s, Reload(cfg));
    if Harmless(env, s, Reload(cfg), r, q) {
      AheadReload(env, s, Reload(cfg), r, q);
      OkStep(env, s, Reload(cfg));
      KeysStep(env, s, Reload(cfg));
      forall after, e ensures !Passes(env, t, after, e, r, q) {
        AheadNotPassed(env, t, after, e, r, q);
      }
    } else {
      HarmfulPutsInFront(env, s, r, q, cfg);
      var after, e := TickLetsPass(env, t, r, q);
    }
  }
}
