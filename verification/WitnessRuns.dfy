/** Concrete runs of the gateway: the situations the laws speak of do arise, and
    what their conditions exclude does go wrong. */
module WitnessRuns {
  import opened Wrappers
  import opened Requests
  import opened Scheduler
  import opened Gateway
  import opened GatewayLaws
  import opened GatewayInvariants
  import opened Overtaking
  import opened AgingRuns
  import opened AgingAwaits
  import opened Tables
  import Aging
  import ClientLaws
  import FallbackLaws
  import Q = LazyQueue

  // ------------------------------------------------------- one request, one tick

  /** `r` alone was submitted, with priority `p`, when it was created, and nothing
      else happened to the scheduler. */
  ghost predicate Lone(s: Sys, r: Request, p: real) {
    && s.sched.pending == [r] && s.sched.priority == map[r.id := p] && !s.sched.useFallback
    && s.sched.queue == Q.State(multiset{Item(p, r.created, r.id, r)},
                                map[r.id := Item(p, r.created, r.id, r)], {}, 1, 0, 0, 0)
    && s.idle == 0 && s.clients == map[r.id := Client(r, Waiting)]
  }

  lemma LoneSubmitted(env: Env, fallback: bool, cfg: Aging.Config, r: Request, p: real)
    ensures var s := Start(fallback, cfg, r.created);
            var t := After(env, s, [] + [Submit(r, Some(p))]);
            && Legal(env, s, [] + [Submit(r, Some(p))])
            && Lone(t, r, p) && t.tick.None? && t.aging == cfg && t.clock == r.created
  {
    Steps(env, Start(fallback, cfg, r.created), [], Submit(r, Some(p)));
  }

  /** Time passes and a tick starts. */
  function WaitThenTick(to: real): seq<Event> {
    [] + [Advance(to)] + [TickStart]
  }

  lemma LoneTicked(env: Env, s: Sys, r: Request, p: real, to: real)
    requires Lone(s, r, p) && s.tick.None? && s.clock <= to
    ensures var t := After(env, s, WaitThenTick(to));
            && Scheduled(env, s, WaitThenTick(to), false)
            && Lone(t, r, p) && t.tick == Some(Tick(to, [r])) && t.aging == s.aging && t.clock == to
  {
    ScheduledNext(env, s, [], true, Advance(to));
    ScheduledNext(env, s, [] + [Advance(to)], true, TickStart);
  }

  // ------------------------------------------------- aging brings it out of reach

  lemma WaitsSnoc(env: Env, s: Sys, run: seq<Event>, e: Event, id: Id)
    ensures WaitsOf(env, s, run + [e], id) == WaitsOf(env, s, run, id) + WaitAt(env, After(env, s, run), e, id)
  {
    assert (run + [e])[..|run + [e]|-1] == run;
  }

  lemma WaitsOfTick(env: Env, s: Sys, r: Request, p: real, to: real)
    requires Lone(s, r, p) && s.tick.None? && s.clock <= to && to - r.created <= env.timeout
    ensures WaitsOf(env, s, WaitThenTick(to) + [VisitNext], r.id) == [to - r.created]
  {
    LoneTicked(env, s, r, p, to);
    WaitsSnoc(env, s, WaitThenTick(to), VisitNext, r.id);
    WaitsSnoc(env, s, [] + [Advance(to)], TickStart, r.id);
    WaitsSnoc(env, s, [], Advance(to), r.id);
  }

  lemma LoneVisited(env: Env, s: Sys, r: Request, p: real)
    requires Lone(s, r, p) && s.tick.Some? && s.tick.value.todo == [r] && s.tick.value.now - r.created <= env.timeout
    ensures var t := Apply(env, s, VisitNext);
            && t.sched.pending == [r] && r.id in t.sched.queue.pending && r.id in t.sched.priority
            && !t.sched.useFallback && t.clock == s.clock && t.clients == s.clients
  {
    VisitEffect(env, s.aging, s.sched, r, s.tick.value.now);
    VisitStepSched(env, s);
  }

  lemma OneEffectiveVisit(env: Env, cfg: Aging.Config, wait: real)
    requires Aging.Drop(env.curves, cfg, wait) > 0.0
    ensures Aging.EffectiveVisits(env.curves, cfg, [wait]) == 1
  {
    assert [wait][..0] == [];
  }

  lemma LoneWellAged(env: Env, s: Sys, r: Request, p: real, to: real)
    requires Lone(s, r, p) && s.tick.None? && s.clock <= to && p <= 1.01
    requires to - r.created <= env.timeout && Aging.Drop(env.curves, s.aging, to - r.created) > 0.0
    ensures WellAged(env, s, WaitThenTick(to) + [VisitNext], r.id)
  {
    WaitsOfTick(env, s, r, p, to);
    OneEffectiveVisit(env, s.aging, to - r.created);
  }

  lemma LoneAged(env: Env, s: Sys, r: Request, q: Request, p: real, p': real, to: real)
    requires Lone(s, r, p) && s.tick.None? && s.clock <= to && r.id != q.id && r.created <= q.created <= to
    requires to - r.created <= env.timeout && Aging.Drop(env.curves, s.aging, to - r.created) > 0.0
    ensures var waiting := WaitThenTick(to) + [VisitNext];
            var t := After(env, s, waiting);
            && Scheduled(env, s, waiting, true) && !ToFallback(t.sched, Some(p'))
            && Arrives(t, r, q, Some(p')) && Waits(t, r)
  {
    LoneTicked(env, s, r, p, to);
    ScheduledNext(env, s, WaitThenTick(to), false, VisitNext);
    LoneVisited(env, After(env, s, WaitThenTick(to)), r, p);
  }

  /** The hypotheses of `AgedOutOfReach` are met, under every policy: a request of
      priority at most 1.01, visited once, late enough for an effect. */
  lemma AgedSceneArises(env: Env, fallback: bool, cfg: Aging.Config, r: Request, q: Request,
                        p: real, p': real, to: real)
    requires 1.0 < p <= 1.01 && r.id != q.id && r.created <= q.created <= to
    requires to - r.created <= env.timeout && Aging.Drop(env.curves, cfg, to - r.created) > 0.0
    ensures var s0 := After(env, Start(fallback, cfg, r.created), [] + [Submit(r, Some(p))]);
            var waiting := WaitThenTick(to) + [VisitNext];
            && Legal(env, Start(fallback, cfg, r.created), [] + [Submit(r, Some(p))])
            && r.id in s0.sched.priority && s0.sched.priority[r.id] > 1.0
            && Scheduled(env, s0, waiting, true) && WellAged(env, s0, waiting, r.id)
            && Arrives(After(env, s0, waiting), r, q, Some(p')) && Waits(After(env, s0, waiting), r)
            && !ToFallback(After(env, s0, waiting).sched, Some(p'))
  {
    LoneSubmitted(env, fallback, cfg, r, p);
    var s0 := After(env, Start(fallback, cfg, r.created), [] + [Submit(r, Some(p))]);
    LoneWellAged(env, s0, r, p, to);
    LoneAged(env, s0, r, q, p, p', to);
  }

  // ------------------------------------------------------------- two requests

  lemma ServeOnly(queue: Q.State, x: Item)
    requires Q.Enabled(PriorityThenTime, queue, Q.Deliver(x))
    ensures Q.Dequeues(PriorityThenTime, queue, [], Some(x))
  {
    Q.RunOne(PriorityThenTime, queue, Q.Deliver(x));
    assert Q.Pops([], Some(x)) == [Q.Deliver(x)];
  }

  /** `r` and then `q` were submitted at time `at`, with priorities p and p'. */
  ghost predicate Both(s: Sys, r: Request, q: Request, p: real, p': real, at: real) {
    && s.sched.pending == [r, q] && s.sched.priority == map[r.id := p, q.id := p'] && !s.sched.useFallback
    && s.sched.queue.heap == multiset{Item(p, at, r.id, r), Item(p', at, q.id, q)}
    && s.sched.queue.pending == map[r.id := Item(p, at, r.id, r), q.id := Item(p', at, q.id, q)]
    && s.sched.queue.cancelled == {}
    && s.clients == map[r.id := Client(r, Waiting), q.id := Client(q, Waiting)] && s.leaving == {}
  }

  lemma PutSecond(r: Request, q: Request)
    requires r.id != q.id
    ensures Put([r], q) == [r, q]
  {
    PutNew([r], q);
  }

  /** One request of priority `p` was submitted at the present time. */
  ghost predicate JustOne(s: Sys, r: Request, p: real) {
    && s.sched.pending == [r] && s.sched.priority == map[r.id := p] && !s.sched.useFallback
    && s.sched.queue.heap == multiset{Item(p, s.clock, r.id, r)}
    && s.sched.queue.pending == map[r.id := Item(p, s.clock, r.id, r)] && s.sched.queue.cancelled == {}
    && s.clients == map[r.id := Client(r, Waiting)] && s.leaving == {} && s.tick.None?
  }

  lemma SecondJoins(env: Env, s: Sys, r: Request, q: Request, p: real, p': real)
    requires JustOne(s, r, p) && r.id != q.id && q.created <= s.clock
    ensures Enabled(s, Submit(q, Some(p')))
    ensures var u := Apply(env, s, Submit(q, Some(p')));
            Both(u, r, q, p, p', s.clock) && u.tick.None? && u.aging == s.aging && u.clock == s.clock
  {
    PutSecond(r, q);
  }

  lemma FirstOfBoth(env: Env, fallback: bool, cfg: Aging.Config, r: Request, q: Request, p: real, p': real)
    requires r.created <= q.created && r.id != q.id
    ensures var s := Start(fallback, cfg, q.created);
            var t := After(env, s, [] + [Submit(r, Some(p))]);
            && Scheduled(env, s, [] + [Submit(r, Some(p))], true)
            && Arrives(t, r, q, Some(p')) && (p < p' ==> ArrivesBehind(t, r, q, Some(p'))) && Waits(t, r)
            && !ToFallback(t.sched, Some(p'))
            && var u := Apply(env, t, Submit(q, Some(p')));
            Both(u, r, q, p, p', q.created) && u.tick.None? && u.aging == cfg && u.clock == q.created
  {
    ScheduledNext(env, Start(fallback, cfg, q.created), [], true, Submit(r, Some(p)));
    SecondJoins(env, After(env, Start(fallback, cfg, q.created), [] + [Submit(r, Some(p))]), r, q, p, p');
  }

  /** The hypotheses of `NoOvertaking` are met, and of the two requests the first
      can be forwarded. */
  lemma SceneArises(env: Env, fallback: bool, cfg: Aging.Config, r: Request, q: Request, p: real, p': real)
    requires r.created <= q.created && r.id != q.id && p < p'
    ensures var s := Start(fallback, cfg, q.created);
            var t := After(env, s, [] + [Submit(r, Some(p))]);
            && Legal(env, s, [] + [Submit(r, Some(p))]) && ArrivesBehind(t, r, q, Some(p')) && Waits(t, r)
            && !ToFallback(t.sched, Some(p'))
            && var u, e := Apply(env, t, Submit(q, Some(p'))), Begin([], Some(Item(p, q.created, r.id, r)));
            Forwards(u, e, r, r)
  {
    FirstOfBoth(env, fallback, cfg, r, q, p, p');
    var t := After(env, Start(fallback, cfg, q.created), [] + [Submit(r, Some(p))]);
    ServeOnly(Apply(env, t, Submit(q, Some(p'))).sched.queue, Item(p, q.created, r.id, r));
  }

  /** What the fallback does: a prediction fails, and the later request is forwarded
      while the earlier one waits, for ever as `StrandedByLatch` says. */
  lemma FallbackPasses(env: Env, cfg: Aging.Config, r: Request, q: Request, p: real)
    requires r.created <= q.created && r.id != q.id
    ensures var s, run := Start(true, cfg, q.created), [] + [Submit(r, Some(p))] + [Submit(q, None)];
            && Legal(env, s, run) && FallbackLaws.Abandoned(After(env, s, run))
            && Forwards(After(env, s, run), TakeFallback, r, q)
  {
    var run := FallbackLaws.StrandingHappens(env, cfg, r, q, p);
  }

  // ------------------------------------ a tick over two requests, half way through

  /** A tick, at `to`, has lowered `r` by `d` and is about to visit `q`. */
  ghost predicate Halfway(s: Sys, r: Request, q: Request, p: real, d: real, p': real, at: real, to: real) {
    && s.sched.pending == [r, q] && s.sched.priority == map[r.id := p - d, q.id := p'] && !s.sched.useFallback
    && s.sched.queue.heap
    == multiset{Item(p, at, r.id, r), Item(p', at, q.id, q), Item(p - d, at, r.id, r)}
    && s.sched.queue.pending == map[r.id := Item(p - d, at, r.id, r), q.id := Item(p', at, q.id, q)]
    && s.sched.queue.cancelled == {}
    && s.clients == map[r.id := Client(r, Waiting), q.id := Client(q, Waiting)] && s.leaving == {}
    && s.tick == Some(Tick(to, [q]))
  }

  lemma BothTicked(env: Env, start: Sys, run: seq<Event>, r: Request, q: Request,
                   p: real, p': real, at: real, to: real)
    requires Scheduled(env, start, run, true) && Both(After(env, start, run), r, q, p, p', at)
    requires After(env, start, run).tick.None? && After(env, start, run).clock <= to
    ensures var t := After(env, start, run + [Advance(to)] + [TickStart]);
            && Scheduled(env, start, run + [Advance(to)] + [TickStart], false)
            && Both(t, r, q, p, p', at) && t.tick == Some(Tick(to, [r, q]))
            && t.aging == After(env, start, run).aging
  {
    ScheduledNext(env, start, run, true, Advance(to));
    ScheduledNext(env, start, run + [Advance(to)], true, TickStart);
  }

  /** The visit of `r` lowers it, so the loop awaits the queue. */
  lemma BothVisited(env: Env, s: Sys, r: Request, q: Request, p: real, d: real, p': real, at: real, to: real)
    requires Both(s, r, q, p, p', at) && s.tick == Some(Tick(to, [r, q])) && r.id != q.id
    requires to - r.created <= env.timeout && Aging.Drop(env.curves, s.aging, to - r.created) == d > 0.0
    ensures var t := Apply(env, s, VisitNext);
            Halfway(t, r, q, p, d, p', at, to) && t.aging == s.aging && Suspends(env, s, VisitNext, false)
  {
    VisitEffect(env, s.aging, s.sched, r, to);
    VisitStepSched(env, s);
    assert s.tick.value.todo[1..] == [q];
  }

  /** Two submissions and a tick up to the visit of the second request. */
  function HalfATick(r: Request, q: Request, p: real, p': real, to: real): seq<Event> {
    [] + [Submit(r, Some(p))] + [Submit(q, Some(p'))] + [Advance(to)] + [TickStart] + [VisitNext]
  }

  lemma HalfwayReached(env: Env, fallback: bool, cfg: Aging.Config, r: Request, q: Request,
                       p: real, d: real, p': real, to: real)
    requires r.id != q.id && r.created <= q.created <= to && to - r.created <= env.timeout
    requires Aging.Drop(env.curves, cfg, to - r.created) == d > 0.0
    ensures var start, run := Start(fallback, cfg, q.created), HalfATick(r, q, p, p', to);
            && Scheduled(env, start, run, true)
            && Halfway(After(env, start, run), r, q, p, d, p', q.created, to)
            && After(env, start, run).aging == cfg
  {
    var start, one := Start(fallback, cfg, q.created), [] + [Submit(r, Some(p))];
    FirstOfBoth(env, fallback, cfg, r, q, p, p');
    ScheduledNext(env, start, one, true, Submit(q, Some(p')));
    var two := one + [Submit(q, Some(p'))];
    BothTicked(env, start, two, r, q, p, p', q.created, to);
    var four := two + [Advance(to)] + [TickStart];
    BothVisited(env, After(env, start, four), r, q, p, d, p', q.created, to);
    ScheduledNext(env, start, four, false, VisitNext);
  }

  // --------------------------------------------------------- a harmful reload

  /** There is a configuration with any given drop. */
  lemma DropChosen(c: Aging.Curves, need: real, wait: real)
    requires need > 0.01 && wait > 0.0
    ensures Aging.Drop(c, Aging.Config(Aging.Linear, need / wait, need), wait) == need
  {
    assert need / wait * wait == need;
  }

  /** A visit of `q` that takes it below `r`. */
  lemma SecondVisit(env: Env, s: Sys, r: Request, q: Request, p: real, d: real, p': real, at: real, to: real,
                    drop: real)
    requires Halfway(s, r, q, p, d, p', at, to) && r.id != q.id && p' - drop < p - d && d > 0.0 && drop > 0.0
    requires to - q.created <= env.timeout && Aging.Drop(env.curves, s.aging, to - q.created) == drop
    ensures Forwards(Apply(env, s, VisitNext), Begin([], Some(Item(p' - drop, at, q.id, q))), r, q)
    ensures Suspends(env, s, VisitNext, true)
  {
    var t, x := Apply(env, s, VisitNext), Item(p' - drop, at, q.id, q);
    VisitEffect(env, s.aging, s.sched, q, to);
    VisitStepSched(env, s);
    assert t.sched.queue.heap
        == multiset{Item(p, at, r.id, r), Item(p', at, q.id, q), Item(p - d, at, r.id, r), x};
    ServeOnly(t.sched.queue, x);
  }

  lemma ReloadThenPass(env: Env, fallback: bool, cfg: Aging.Config, r: Request, q: Request,
                       p: real, d: real, p': real, to: real, next: Aging.Config, drop: real)
    requires r.id != q.id && r.created <= q.created <= to && to - r.created <= env.timeout
    requires Aging.Drop(env.curves, cfg, to - r.created) == d > 0.0
    requires Aging.Drop(env.curves, next, to - q.created) == drop > 0.0 && p' - drop < p - d
    ensures var start := Start(fallback, cfg, q.created);
            var run := HalfATick(r, q, p, p', to) + [Reload(next)] + [VisitNext];
            && Scheduled(env, start, run, true)
            && Forwards(After(env, start, run), Begin([], Some(Item(p' - drop, q.created, q.id, q))), r, q)
  {
    var start, half := Start(fallback, cfg, q.created), HalfATick(r, q, p, p', to);
    HalfwayReached(env, fallback, cfg, r, q, p, d, p', to);
    ScheduledNext(env, start, half, true, Reload(next));
    SecondVisit(env, After(env, start, half + [Reload(next)]), r, q, p, d, p', q.created, to, drop);
    ScheduledNext(env, start, half + [Reload(next)], true, VisitNext);
  }

  /** Why reloads have to be harmless.  Two requests are submitted, the second behind
      the first.  A tick lowers the first by `d`; while it awaits the queue a reload
      brings a configuration that lowers the second by `need`, more than it takes to
      get below the first; the tick goes on, and the second is forwarded while the
      first waits. */
  lemma ReloadOvertakes(env: Env, fallback: bool, cfg: Aging.Config, r: Request, q: Request,
                        p: real, d: real, p': real, to: real, need: real)
    requires r.id != q.id && r.created <= q.created < to && to - r.created <= env.timeout && p < p'
    requires Aging.Drop(env.curves, cfg, to - r.created) == d > 0.0 && need > p' - p + d
    ensures var start := Start(fallback, cfg, q.created);
            var s := After(env, start, [] + [Submit(r, Some(p))]);
            ArrivesBehind(s, r, q, Some(p')) && !ToFallback(s.sched, Some(p'))
    ensures var start := Start(fallback, cfg, q.created);
            var reload := Reload(Aging.Config(Aging.Linear, need / (to - q.created), need));
            var run := HalfATick(r, q, p, p', to) + [reload] + [VisitNext];
            && Scheduled(env, start, run, true)
            && Forwards(After(env, start, run), Begin([], Some(Item(p' - need, q.created, q.id, q))), r, q)
  {
    SceneArises(env, fallback, cfg, r, q, p, p');
    var next := Aging.Config(Aging.Linear, need / (to - q.created), need);
    DropChosen(env.curves, need, to - q.created);
    ReloadThenPass(env, fallback, cfg, r, q, p, d, p', to, next, need);
  }

  // ------------------------------------------------------- a cancel that is undone

  /** As half way through the tick, but the client of `q` gave up: its entry is
      marked and it is no longer listed. */
  ghost predicate GivenUp(s: Sys, r: Request, q: Request, p: real, d: real, p': real, at: real, to: real) {
    && s.sched.pending == [r] && s.sched.priority == map[r.id := p - d, q.id := p'] && !s.sched.useFallback
    && s.sched.queue.heap
    == multiset{Item(p, at, r.id, r), Item(p', at, q.id, q), Item(p - d, at, r.id, r)}
    && s.sched.queue.pending == map[r.id := Item(p - d, at, r.id, r), q.id := Item(p', at, q.id, q)]
    && s.sched.queue.cancelled == {q.id}
    && s.clients == map[r.id := Client(r, Waiting), q.id := Client(q, TimedOut)]
    && s.tick == Some(Tick(to, [q]))
  }

  lemma TimesOut(env: Env, s: Sys, r: Request, q: Request, p: real, d: real, p': real, at: real, to: real)
    requires Halfway(s, r, q, p, d, p', at, to) && r.id != q.id
    ensures Enabled(s, ClientTimeout(q.id))
    ensures Apply(env, s, ClientTimeout(q.id))
         == s.(leaving := {q.id}, clients := map[r.id := Client(r, Waiting), q.id := Client(q, TimedOut)])
  {
  }

  lemma RemoveSecond(r: Request, q: Request)
    requires r.id != q.id
    ensures Remove([r, q], q.id) == [r]
  {
    assert [r, q][1..] == [q] && [q][1..] == [];
  }

  lemma Cancels(env: Env, s: Sys, m: Sys, r: Request, q: Request, p: real, d: real, p': real, at: real, to: real)
    requires Halfway(s, r, q, p, d, p', at, to) && r.id != q.id
    requires m == s.(leaving := {q.id}, clients := map[r.id := Client(r, Waiting), q.id := Client(q, TimedOut)])
    ensures Enabled(m, ClientCancel(q.id))
    ensures GivenUp(Apply(env, m, ClientCancel(q.id)), r, q, p, d, p', at, to)
    ensures Apply(env, m, ClientCancel(q.id)).aging == s.aging
  {
    RemoveSecond(r, q);
  }

  /** `q`, whose client is gone, is in the queue without a mark, and a dequeue can
      forward it as `x`. */
  ghost predicate Revived(s: Sys, q: Request, x: Item) {
    && q.id in s.clients && s.clients[q.id] == Client(q, TimedOut) && q !in s.sched.pending
    && q.id in s.sched.queue.pending && q.id !in s.sched.queue.cancelled
    && Enabled(s, Begin([], Some(x))) && ClientLaws.Starts(s, Begin([], Some(x)), q.id)
  }

  lemma MarkedVisited(env: Env, s: Sys, r: Request, q: Request, p: real, d: real, p': real, at: real, to: real,
                      drop: real)
    requires GivenUp(s, r, q, p, d, p', at, to) && r.id != q.id && p' - drop < p - d && d > 0.0 && drop > 0.0
    requires to - q.created <= env.timeout && Aging.Drop(env.curves, s.aging, to - q.created) == drop
    ensures Revived(Apply(env, s, VisitNext), q, Item(p' - drop, at, q.id, q))
    ensures Suspends(env, s, VisitNext, true)
  {
    var t, x := Apply(env, s, VisitNext), Item(p' - drop, at, q.id, q);
    VisitEffect(env, s.aging, s.sched, q, to);
    VisitStepSched(env, s);
    assert t.sched.queue.heap
        == multiset{Item(p, at, r.id, r), Item(p', at, q.id, q), Item(p - d, at, r.id, r), x};
    ServeOnly(t.sched.queue, x);
  }

  /** A tick lowers another request first.  While it awaits the queue, the client of
      `q` times out and cancels, with success; the tick then visits `q` and lowers
      it; `q` loses its mark and can be forwarded. */
  lemma CancelUndone(env: Env, fallback: bool, cfg: Aging.Config, r: Request, q: Request,
                     p: real, d: real, p': real, to: real, drop: real)
    requires r.id != q.id && r.created <= q.created <= to && to - r.created <= env.timeout
    requires Aging.Drop(env.curves, cfg, to - r.created) == d > 0.0
    requires Aging.Drop(env.curves, cfg, to - q.created) == drop > 0.0 && p' - drop < p - d
    ensures var start := Start(fallback, cfg, q.created);
            var run := HalfATick(r, q, p, p', to) + [ClientTimeout(q.id)] + [ClientCancel(q.id)] + [VisitNext];
            && Scheduled(env, start, run, true)
            && Revived(After(env, start, run), q, Item(p' - drop, q.created, q.id, q))
  {
    var start, half := Start(fallback, cfg, q.created), HalfATick(r, q, p, p', to);
    HalfwayReached(env, fallback, cfg, r, q, p, d, p', to);
    var s := After(env, start, half);
    TimesOut(env, s, r, q, p, d, p', q.created, to);
    ScheduledNext(env, start, half, true, ClientTimeout(q.id));
    var left := half + [ClientTimeout(q.id)];
    Cancels(env, s, After(env, start, left), r, q, p, d, p', q.created, to);
    ScheduledNext(env, start, left, true, ClientCancel(q.id));
    var marked := left + [ClientCancel(q.id)];
    MarkedVisited(env, After(env, start, marked), r, q, p, d, p', q.created, to, drop);
    ScheduledNext(env, start, marked, true, VisitNext);
  }
}
