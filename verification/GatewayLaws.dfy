/** Laws of every run of the gateway. */
module GatewayLaws {
  import opened Wrappers
  import opened Requests
  import opened Scheduler
  import opened Gateway
  import Aging
  import Q = LazyQueue
  import opened QueueLaws

  // ---------------------------------------------------------------- dequeues

  /** `t` is `s` after `n` discards, as far as the heap and the counters tell. */
  ghost predicate Discarded(s: Q.State, t: Q.State, n: nat) {
    && |t.heap| + n == |s.heap| && t.heap <= s.heap && t.discarded == s.discarded + n
    && t.updated == s.updated && t.enqueued == s.enqueued && t.dequeued == s.dequeued
  }

  lemma DiscardCount(ord: Order, s: Q.State, m: Q.State, n: nat, x: Item)
    requires Discarded(s, m, n) && Q.Enabled(ord, m, Q.Discard(x))
    ensures Discarded(s, Q.Apply(m, Q.Discard(x)), n + 1)
  {
  }

  lemma {:induction false} DiscardsCount(ord: Order, s: Q.State, ds: seq<Item>)
    requires Q.Legal(ord, s, Q.Discards(ds))
    ensures Discarded(s, Q.After(s, Q.Discards(ds)), |ds|)
    decreases |ds|
  {
    if ds != [] {
      var front, x := ds[..|ds|-1], ds[|ds|-1];
      assert ds == front + [x];
      Q.DiscardOneMore(ord, s, front, x);
      DiscardsCount(ord, s, front);
      DiscardCount(ord, s, Q.After(s, Q.Discards(front)), |front|, x);
    }
  }

  lemma PopsSplit(ord: Order, s: Q.State, ds: seq<Item>, got: Option<Item>)
    requires Q.Dequeues(ord, s, ds, got)
    ensures Q.Legal(ord, s, Q.Discards(ds))
    ensures var m, t := Q.After(s, Q.Discards(ds)), Q.After(s, Q.Pops(ds, got));
            if got.Some? then Q.Enabled(ord, m, Q.Deliver(got.value)) && t == Q.Apply(m, Q.Deliver(got.value))
            else t == m && t.heap == multiset{}
  {
    if got.Some? {
      Q.RunSnoc(ord, s, Q.Discards(ds), Q.Deliver(got.value));
    } else {
      assert Q.Pops(ds, got) == Q.Discards(ds);
    }
  }

  lemma DeliverCount(ord: Order, s: Q.State, x: Item)
    requires Q.Enabled(ord, s, Q.Deliver(x))
    ensures var t := Q.Apply(s, Q.Deliver(x));
            |t.heap| + 1 == |s.heap| && t.heap <= s.heap
  {
  }

  /** A dequeue under the lock pops each discarded item and the delivered one. */
  lemma DequeueCount(ord: Order, s: Q.State, ds: seq<Item>, got: Option<Item>)
    requires Q.Dequeues(ord, s, ds, got)
    ensures var t := Q.After(s, Q.Pops(ds, got));
            && |t.heap| + |ds| + One(got.Some?) == |s.heap| && t.heap <= s.heap
            && t.discarded == s.discarded + |ds|
            && t.updated == s.updated && t.enqueued == s.enqueued && t.dequeued == s.dequeued + One(got.Some?)
  {
    PopsSplit(ord, s, ds, got);
    DiscardsCount(ord, s, ds);
    if got.Some? {
      DeliverCount(ord, Q.After(s, Q.Discards(ds)), got.value);
    }
  }

  /** After any discards so far, a dequeue can be completed. */
  lemma {:induction false} DequeueGoesOn(ord: Order, s: Q.State, front: seq<Item>)
    returns (ds: seq<Item>, got: Option<Item>)
    requires Q.Legal(ord, s, Q.Discards(front))
    ensures Q.Dequeues(ord, s, ds, got)
    decreases |Q.After(s, Q.Discards(front)).heap|
  {
    var m := Q.After(s, Q.Discards(front));
    if m.heap == multiset{} {
      ds, got := front, None;
      assert Q.Pops(ds, got) == Q.Discards(front);
    } else {
      var x := FirstExists(ord, m.heap);
      if x.id in m.cancelled {
        Q.DiscardOneMore(ord, s, front, x);
        ds, got := DequeueGoesOn(ord, s, front + [x]);
      } else {
        Q.RunSnoc(ord, s, Q.Discards(front), Q.Deliver(x));
        ds, got := front, Some(x);
      }
    }
  }

  /** A dequeue is possible in every state, and pops something unless the heap is
      empty. */
  lemma DequeueExists(ord: Order, s: Q.State) returns (ds: seq<Item>, got: Option<Item>)
    ensures Q.Dequeues(ord, s, ds, got)
    ensures s.heap != multiset{} ==> ds != [] || got.Some?
  {
    ds, got := DequeueGoesOn(ord, s, []);
    DequeueCount(ord, s, ds, got);
  }

  // ------------------------------------------------------------ conservation

  function FallbackQueue(s: Sched): seq<Request> {
    if s.fcfs.Some? then s.fcfs.value.queue else []
  }

  /** Every request scheduled and every copy made by re-prioritisation is in one
      of the two queues, was discarded, is being forwarded, or was completed. */
  ghost predicate Conserved(s: Sys) {
    s.sched.scheduled + s.sched.queue.updated
    == |s.sched.queue.heap| + |FallbackQueue(s.sched)| + s.sched.queue.discarded
       + |s.running| + |s.answered| + s.sched.completed + s.sched.errors
  }

  lemma ConservedDequeue(env: Env, s: Sys, e: Event)
    requires Conserved(s) && Enabled(s, e) && (e.Begin? || e.Resume?)
    ensures Conserved(Apply(env, s, e))
  {
    DequeueCount(PriorityThenTime, s.sched.queue, e.discards, e.got);
  }

  lemma ConservedSubmit(env: Env, s: Sys, e: Event)
    requires Conserved(s) && Enabled(s, e) && e.Submit?
    ensures Conserved(Apply(env, s, e))
  {
  }

  /** A visit changes the scheduler by a cancel, by an update or not at all. */
  lemma VisitCases(env: Env, cfg: Aging.Config, s: Sched, r: Request, now: real) returns (p: real)
    ensures var t := Visit(env, cfg, s, r, now);
            || t == s
            || t == Cancel(s, r.id)
            || t == s.(queue := Q.Apply(s.queue, Q.Update(r.id, p, r.id in s.queue.pending)),
                       priority := s.priority[r.id := p])
  {
    p := Aging.Boost(env.curves, cfg, now - r.created, PriorityOf(s, r.id));
  }

  lemma ConservedVisit(env: Env, s: Sys)
    requires Conserved(s) && Enabled(s, VisitNext)
    ensures Conserved(Apply(env, s, VisitNext))
  {
    var p := VisitCases(env, s.aging, s.sched, s.tick.value.todo[0], s.tick.value.now);
    var t := Visit(env, s.aging, s.sched, s.tick.value.todo[0], s.tick.value.now);
    assert |t.queue.heap| + s.sched.queue.updated == |s.sched.queue.heap| + t.queue.updated;
  }

  lemma ConservedForward(env: Env, s: Sys, e: Event)
    requires Conserved(s) && Enabled(s, e) && (e.Reply? || e.FinishOk? || e.Crash?)
    ensures Conserved(Apply(env, s, e))
  {
    if e.FinishOk? {
      assert |s.answered - multiset{e.id}| == |s.answered| - 1;
    } else {
      assert |s.running - multiset{e.id}| == |s.running| - 1;
    }
  }

  lemma ConservedFallback(env: Env, s: Sys)
    requires Conserved(s) && Enabled(s, TakeFallback)
    ensures Conserved(Apply(env, s, TakeFallback))
  {
  }

  lemma ConservedStep(env: Env, s: Sys, e: Event)
    requires Conserved(s) && Enabled(s, e)
    ensures Conserved(Apply(env, s, e))
  {
    match e {
      case Submit(_, _) => ConservedSubmit(env, s, e);
      case Begin(_, _) => ConservedDequeue(env, s, e);
      case Resume(_, _) => ConservedDequeue(env, s, e);
      case VisitNext => ConservedVisit(env, s);
      case TakeFallback => ConservedFallback(env, s);
      case Reply(_, _) => ConservedForward(env, s, e);
      case FinishOk(_) => ConservedForward(env, s, e);
      case Crash(_) => ConservedForward(env, s, e);
      case _ =>
    }
  }

  /** Whole-system conservation, in every reachable state and across cancels,
      timeouts, aging, reloads and the fallback latch. */
  lemma {:induction false} Conservation(env: Env, fallback: bool, aging: Aging.Config, clock: real, run: seq<Event>)
    requires Legal(env, Start(fallback, aging, clock), run)
    ensures Conserved(After(env, Start(fallback, aging, clock), run))
    decreases |run|
  {
    if run != [] {
      Conservation(env, fallback, aging, clock, run[..|run|-1]);
      ConservedStep(env, After(env, Start(fallback, aging, clock), run[..|run|-1]), run[|run|-1]);
    }
  }

  // ----------------------------------------------------------------- wakeups

  /** While a dequeuer sleeps un-notified, there are at least as many dequeuers
      about to run as items in the heap. */
  ghost predicate Wakeful(s: Sys) {
    s.idle > 0 ==> |s.sched.queue.heap| <= s.woken
  }

  lemma WakefulDequeue(env: Env, s: Sys, e: Event)
    requires Wakeful(s) && Enabled(s, e) && (e.Begin? || e.Resume?)
    ensures Wakeful(Apply(env, s, e))
  {
    DequeueCount(PriorityThenTime, s.sched.queue, e.discards, e.got);
    PopsSplit(PriorityThenTime, s.sched.queue, e.discards, e.got);
  }

  lemma WakefulVisit(env: Env, s: Sys)
    requires Wakeful(s) && Enabled(s, VisitNext)
    ensures Wakeful(Apply(env, s, VisitNext))
  {
    var p := VisitCases(env, s.aging, s.sched, s.tick.value.todo[0], s.tick.value.now);
    var t := Visit(env, s.aging, s.sched, s.tick.value.todo[0], s.tick.value.now);
    assert |t.queue.heap| + s.sched.queue.updated == |s.sched.queue.heap| + t.queue.updated;
    assert t.queue.updated == s.sched.queue.updated || t.queue.updated == s.sched.queue.updated + 1;
  }

  /** Every step keeps the wakeup invariant except a timeout that hits a dequeuer
      already notified; that one keeps it if and only if no un-notified dequeuer
      was relying on the wakeup it swallows. */
  lemma WakefulStep(env: Env, s: Sys, e: Event)
    requires Wakeful(s) && Enabled(s, e)
    ensures !e.WokenTimeout? ==> Wakeful(Apply(env, s, e))
    ensures e.WokenTimeout? ==>
              (Wakeful(Apply(env, s, e)) <==> s.idle == 0 || |s.sched.queue.heap| < s.woken)
  {
    match e {
      case Begin(_, _) => WakefulDequeue(env, s, e);
      case Resume(_, _) => WakefulDequeue(env, s, e);
      case VisitNext => WakefulVisit(env, s);
      case _ =>
    }
  }

  /** The steps at which a dequeuer goes to sleep, gives up before it is notified,
      and is gone after it was notified. */
  predicate Sleeps(e: Event) {
    (e.Begin? || e.Resume?) && e.got.None?
  }

  predicate Leaves(e: Event) {
    e.Resume? || e.WokenTimeout?
  }

  /** A step that adds to the heap while a dequeuer sleeps. */
  ghost predicate Wakes(env: Env, s: Sys, e: Event) {
    s.idle > 0 && |Next(env, s, e).sched.queue.heap| > |s.sched.queue.heap|
  }

  lemma DequeueSleeps(env: Env, s: Sys, e: Event)
    requires Enabled(s, e) && (e.Begin? || e.Resume?)
    ensures !Wakes(env, s, e)
    ensures Apply(env, s, e).idle == s.idle + One(Sleeps(e))
    ensures Apply(env, s, e).woken + One(Leaves(e)) == s.woken
  {
    DequeueCount(PriorityThenTime, s.sched.queue, e.discards, e.got);
  }

  lemma VisitWakes(env: Env, s: Sys)
    requires Enabled(s, VisitNext)
    ensures Apply(env, s, VisitNext).idle + One(Wakes(env, s, VisitNext)) == s.idle
    ensures Apply(env, s, VisitNext).woken == s.woken + One(Wakes(env, s, VisitNext))
  {
    var p := VisitCases(env, s.aging, s.sched, s.tick.value.todo[0], s.tick.value.now);
  }

  lemma SleeperStep(env: Env, s: Sys, e: Event)
    requires Enabled(s, e)
    ensures var t := Apply(env, s, e);
            && t.idle + One(e.WaitTimeout?) + One(Wakes(env, s, e)) == s.idle + One(Sleeps(e))
            && t.woken + One(Leaves(e)) == s.woken + One(Wakes(env, s, e))
  {
    if e.Begin? || e.Resume? {
      DequeueSleeps(env, s, e);
    } else if e.VisitNext? {
      VisitWakes(env, s);
    } else {
      OtherSleepers(env, s, e);
    }
  }

  lemma OtherSleepers(env: Env, s: Sys, e: Event)
    requires Enabled(s, e) && !e.Begin? && !e.Resume? && !e.VisitNext?
    ensures var t := Apply(env, s, e);
            && t.idle + One(e.WaitTimeout?) + One(Wakes(env, s, e)) == s.idle
            && t.woken + One(e.WokenTimeout?) == s.woken + One(Wakes(env, s, e))
  {
  }

  /** How often a run puts a dequeuer to sleep, lets one give up, notifies one, and
      sees a notified one off. */
  function Sleeping(run: seq<Event>): nat {
    if run == [] then 0 else Sleeping(run[..|run|-1]) + One(Sleeps(run[|run|-1]))
  }

  function GivingUp(run: seq<Event>): nat {
    if run == [] then 0 else GivingUp(run[..|run|-1]) + One(run[|run|-1].WaitTimeout?)
  }

  ghost function Waking(env: Env, s: Sys, run: seq<Event>): nat {
    if run == [] then 0 else
      Waking(env, s, run[..|run|-1]) + One(Wakes(env, After(env, s, run[..|run|-1]), run[|run|-1]))
  }

  function Leaving(run: seq<Event>): nat {
    if run == [] then 0 else Leaving(run[..|run|-1]) + One(Leaves(run[|run|-1]))
  }

  /** Who sleeps: a dequeuer that found nothing sleeps until it times out or is
      notified, and exactly the pushes notify, each one sleeper if there is one; who is
      notified stays so until it runs or times out. */
  lemma {:induction false} SleepersLaw(env: Env, s: Sys, run: seq<Event>)
    requires Legal(env, s, run)
    ensures After(env, s, run).idle + GivingUp(run) + Waking(env, s, run) == s.idle + Sleeping(run)
    ensures After(env, s, run).woken + Leaving(run) == s.woken + Waking(env, s, run)
    decreases |run|
  {
    if run != [] {
      SleepersLaw(env, s, run[..|run|-1]);
      SleeperStep(env, After(env, s, run[..|run|-1]), run[|run|-1]);
    }
  }

  /** A timeout is safe unless it swallows a wakeup on which a sleeper relies. */
  ghost predicate SafeTimeout(s: Sys, e: Event) {
    e.WokenTimeout? ==> s.idle == 0 || |s.sched.queue.heap| < s.woken
  }

  /** After every prefix of the run the wakeup invariant holds. */
  ghost predicate AlwaysWakeful(env: Env, s: Sys, run: seq<Event>) {
    Wakeful(After(env, s, run)) && (run == [] || AlwaysWakeful(env, s, run[..|run|-1]))
  }

  ghost predicate SafeTimeouts(env: Env, s: Sys, run: seq<Event>) {
    run == [] ||
    (SafeTimeouts(env, s, run[..|run|-1]) && SafeTimeout(After(env, s, run[..|run|-1]), run[|run|-1]))
  }

  /** The wakeup invariant holds all along a run if and only if every timeout of a
      notified dequeuer in it is safe. */
  lemma {:induction false} WakefulIffSafe(env: Env, s: Sys, run: seq<Event>)
    requires Wakeful(s) && Legal(env, s, run)
    ensures AlwaysWakeful(env, s, run) <==> SafeTimeouts(env, s, run)
    decreases |run|
  {
    if run != [] {
      WakefulIffSafe(env, s, run[..|run|-1]);
      if AlwaysWakeful(env, s, run[..|run|-1]) {
        WakefulStep(env, After(env, s, run[..|run|-1]), run[|run|-1]);
      }
    }
  }

  lemma {:induction false} UnnotifiedTimeoutsAreSafe(env: Env, s: Sys, run: seq<Event>)
    requires forall i :: 0 <= i < |run| ==> !run[i].WokenTimeout?
    ensures SafeTimeouts(env, s, run)
    decreases |run|
  {
    if run != [] {
      UnnotifiedTimeoutsAreSafe(env, s, run[..|run|-1]);
    }
  }

  /** No lost wakeup: if every timeout is safe, in particular if timeouts hit only
      dequeuers not yet notified, no item sits in the heap while every dequeuer
      sleeps. */
  lemma NoLostWakeup(env: Env, s: Sys, run: seq<Event>)
    requires Wakeful(s) && Legal(env, s, run)
    requires SafeTimeouts(env, s, run) || (forall i :: 0 <= i < |run| ==> !run[i].WokenTimeout?)
    ensures After(env, s, run).idle > 0 && After(env, s, run).woken == 0 ==>
              After(env, s, run).sched.queue.heap == multiset{}
  {
    if forall i :: 0 <= i < |run| ==> !run[i].WokenTimeout? {
      UnnotifiedTimeoutsAreSafe(env, s, run);
    }
    WakefulIffSafe(env, s, run);
  }

  lemma Steps(env: Env, s: Sys, run: seq<Event>, e: Event)
    requires Legal(env, s, run) && Enabled(After(env, s, run), e)
    ensures Legal(env, s, run + [e]) && After(env, s, run + [e]) == Apply(env, After(env, s, run), e)
  {
    assert (run + [e])[..|run + [e]|-1] == run;
  }

  lemma SleepOnEmpty(env: Env, s: Sys)
    requires s.sched.queue.heap == multiset{} && !Latched(s.sched)
    ensures Enabled(s, Begin([], None)) && Apply(env, s, Begin([], None)) == s.(idle := s.idle + 1)
  {
    assert Q.Pops([], None) == [];
  }

  lemma TwoSleepers(env: Env, s: Sys) returns (run: seq<Event>)
    requires s.sched.queue.heap == multiset{} && !Latched(s.sched) && s.idle == 0
    ensures Legal(env, s, run) && After(env, s, run) == s.(idle := 2)
  {
    SleepOnEmpty(env, s);
    Steps(env, s, [], Begin([], None));
    run := [] + [Begin([], None)];
    SleepOnEmpty(env, s.(idle := 1));
    Steps(env, s, run, Begin([], None));
    run := run + [Begin([], None)];
  }

  lemma SubmitWakes(env: Env, s: Sys, r: Request, p: real)
    requires Enabled(s, Submit(r, Some(p))) && s.sched.queue.heap == multiset{} && !s.sched.useFallback && s.idle > 0
    ensures var t := Apply(env, s, Submit(r, Some(p)));
            t.idle == s.idle - 1 && t.woken == s.woken + 1 && |t.sched.queue.heap| == 1
  {
  }

  /** The exclusion is needed: with two sleeping dequeuers, one submission and a
      timeout of the notified one, the request sits in the heap while a dequeuer
      sleeps. */
  lemma LostWakeup(env: Env, fallback: bool, aging: Aging.Config, r: Request, p: real)
    returns (run: seq<Event>)
    ensures var s := Start(fallback, aging, r.created);
            && Legal(env, s, run)
            && After(env, s, run).idle == 1 && After(env, s, run).woken == 0
            && |After(env, s, run).sched.queue.heap| == 1
  {
    var s := Start(fallback, aging, r.created);
    run := TwoSleepers(env, s);
    Steps(env, s, run, Submit(r, Some(p)));
    SubmitWakes(env, s.(idle := 2), r, p);
    run := run + [Submit(r, Some(p))];
    Steps(env, s, run, WokenTimeout);
    run := run + [WokenTimeout];
  }
}
