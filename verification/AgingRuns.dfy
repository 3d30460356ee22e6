/** The aging loop over whole runs of the gateway. */
module AgingRuns {
  import opened Wrappers
  import opened Requests
  import opened Scheduler
  import opened Gateway
  import opened GatewayInvariants
  import opened Overtaking
  import Aging

  /** The wait at which a step visits request `id`, if it does. */
  function WaitAt(env: Env, s: Sys, e: Event, id: Id): seq<real> {
    if e.VisitNext? && s.tick.Some? && s.tick.value.todo != [] && s.tick.value.todo[0].id == id
       && s.tick.value.now - s.tick.value.todo[0].created <= env.timeout
    then [s.tick.value.now - s.tick.value.todo[0].created] else []
  }

  /** The waits at which a run visits request `id`. */
  ghost function WaitsOf(env: Env, s: Sys, run: seq<Event>, id: Id): seq<real> {
    if run == [] then [] else
      WaitsOf(env, s, run[..|run|-1], id) + WaitAt(env, After(env, s, run[..|run|-1]), run[|run|-1], id)
  }

  lemma QuietPriority(env: Env, s: Sys, e: Event, id: Id)
    requires Ok(s) && Enabled(s, e) && id in s.sched.priority && !e.VisitNext?
    ensures id in Apply(env, s, e).sched.priority && Apply(env, s, e).sched.priority[id] == s.sched.priority[id]
    ensures !e.Reload? ==> Apply(env, s, e).aging == s.aging
  {
  }

  lemma OneVisit(c: Aging.Curves, cfg: Aging.Config, p: real, wait: real)
    ensures Aging.Compounded(c, cfg, p, [wait]) == p - Aging.Drop(c, cfg, wait)
  {
    Aging.ClosedForm(c, cfg, p, [wait]);
    assert [wait][..0] == [];
    assert Aging.TotalDrop(c, cfg, [wait][..0]) == 0.0;
  }

  lemma VisitPriority(env: Env, s: Sys, id: Id)
    requires Ok(s) && Enabled(s, VisitNext) && id in s.sched.priority
    ensures var t := Apply(env, s, VisitNext);
            && id in t.sched.priority && t.aging == s.aging
            && t.sched.priority[id]
            == Aging.Compounded(env.curves, s.aging, s.sched.priority[id], WaitAt(env, s, VisitNext, id))
  {
    VisitPriorities(env, s, Apply(env, s, VisitNext));
    var w := WaitAt(env, s, VisitNext, id);
    if w != [] {
      OneVisit(env.curves, s.aging, s.sched.priority[id], w[0]);
    }
  }

  lemma CompoundedConcat(c: Aging.Curves, cfg: Aging.Config, p: real, waits: seq<real>, more: seq<real>)
    requires |more| <= 1
    ensures Aging.Compounded(c, cfg, p, waits + more)
         == Aging.Compounded(c, cfg, Aging.Compounded(c, cfg, p, waits), more)
  {
    if more == [] {
      assert waits + more == waits;
    } else {
      assert (waits + more)[..|waits + more|-1] == waits;
      assert more[..0] == [];
    }
  }

  /** While the configuration stays, the priority of a request is at all times its
      earlier priority aged once per visit: the compounded, closed form. */
  lemma {:induction false} PriorityOverRun(env: Env, s: Sys, run: seq<Event>, id: Id)
    requires Ok(s) && id in s.sched.priority && Legal(env, s, run)
    requires forall i :: 0 <= i < |run| ==> !run[i].Reload?
    ensures var t, waits := After(env, s, run), WaitsOf(env, s, run, id);
            && id in t.sched.priority && t.aging == s.aging
            && t.sched.priority[id] == Aging.Compounded(env.curves, s.aging, s.sched.priority[id], waits)
            && t.sched.priority[id] == s.sched.priority[id] - Aging.TotalDrop(env.curves, s.aging, waits)
    decreases |run|
  {
    Aging.ClosedForm(env.curves, s.aging, if id in s.sched.priority then s.sched.priority[id] else 0.0,
                     WaitsOf(env, s, run, id));
    if run != [] {
      var front, e := run[..|run|-1], run[|run|-1];
      var m := After(env, s, front);
      PriorityOverRun(env, s, front, id);
      RunKeepsOk(env, s, front);
      CompoundedConcat(env.curves, s.aging, s.sched.priority[id], WaitsOf(env, s, front, id), WaitAt(env, m, e, id));
      if e.VisitNext? {
        VisitPriority(env, m, id);
      } else {
        QuietPriority(env, m, e, id);
      }
    }
  }

  /** Has the run visited the request often enough, with effect, to bring its
      priority below 1? */
  ghost predicate WellAged(env: Env, s: Sys, run: seq<Event>, id: Id)
    requires id in s.sched.priority
  {
    && (forall i :: 0 <= i < |run| ==> !run[i].Reload?)
    && var n := Aging.EffectiveVisits(env.curves, s.aging, WaitsOf(env, s, run, id));
    n as real >= 100.0 * (s.sched.priority[id] - 1.0)
  }

  /** When that is: under any of the three policies, all visits count from the
      first wait at which the policy has an effect; under an active linear policy
      that is from 0.01 / factor seconds. */
  lemma LateVisitsAge(env: Env, s: Sys, run: seq<Event>, id: Id, from: real)
    requires Aging.Sane(env.curves) && id in s.sched.priority
    requires forall i :: 0 <= i < |run| ==> !run[i].Reload?
    requires from >= 0.0
    requires || Aging.Drop(env.curves, s.aging, from) > 0.0
             || (s.aging.policy.Linear? && Aging.Active(s.aging) && from > Aging.EffectiveFrom(s.aging))
    requires var waits := WaitsOf(env, s, run, id);
             && (forall i :: 0 <= i < |waits| ==> waits[i] >= from)
             && |waits| as real >= 100.0 * (s.sched.priority[id] - 1.0)
    ensures WellAged(env, s, run, id)
  {
    if s.aging.policy.Linear? && Aging.Active(s.aging) && from > Aging.EffectiveFrom(s.aging) {
      Aging.LinearEffective(env.curves, s.aging, from);
    }
    Aging.LateVisitsCount(env.curves, s.aging, from, WaitsOf(env, s, run, id));
  }

  lemma FallsBelowOne(env: Env, s: Sys, run: seq<Event>, id: Id)
    requires Ok(s) && id in s.sched.priority && s.sched.priority[id] > 1.0
    requires Legal(env, s, run) && WellAged(env, s, run, id)
    ensures id in After(env, s, run).sched.priority && After(env, s, run).sched.priority[id] < 1.0
  {
    PriorityOverRun(env, s, run, id);
    Aging.ClosedForm(env.curves, s.aging, s.sched.priority[id], WaitsOf(env, s, run, id));
  }

  /** Aging bounds how long a request can be passed, whatever the policy.  Once a
      request of priority p has been visited 100 (p - 1) times with effect, no request
      that is submitted later to the heap, with a priority of at least 1, the least
      the predictor returns, is forwarded while it waits. */
  lemma AgedOutOfReach(env: Env, fallback: bool, aging: Aging.Config, clock: real, before: seq<Event>,
                       waiting: seq<Event>, r: Request, q: Request, prediction: Option<real>,
                       after: seq<Event>, e: Event)
    requires Aging.Sane(env.curves) && Legal(env, Start(fallback, aging, clock), before)
    requires var s0 := After(env, Start(fallback, aging, clock), before);
             && r.id in s0.sched.priority && s0.sched.priority[r.id] > 1.0
             && Legal(env, s0, waiting) && WellAged(env, s0, waiting, r.id)
    requires var s := After(env, After(env, Start(fallback, aging, clock), before), waiting);
             Arrives(s, r, q, prediction) && 1.0 <= InitialPriority(q, prediction) && !ToFallback(s.sched, prediction)
    ensures var s := After(env, After(env, Start(fallback, aging, clock), before), waiting);
            !Passes(env, Apply(env, s, Submit(q, prediction)), after, e, r, q)
  {
    RunKeepsOk(env, Start(fallback, aging, clock), before);
    FallsBelowOne(env, After(env, Start(fallback, aging, clock), before), waiting, r.id);
    RunConcat(env, Start(fallback, aging, clock), before, waiting);
    NoOvertaking(env, fallback, aging, clock, before + waiting, r, q, prediction, after, e);
  }

  /** The request a step visits, if it does, and those a run visits. */
  function Visits(s: Sys, e: Event): seq<Request> {
    if e.VisitNext? && s.tick.Some? && s.tick.value.todo != [] then [s.tick.value.todo[0]] else []
  }

  ghost function Visited(env: Env, s: Sys, run: seq<Event>): seq<Request> {
    if run == [] then [] else
      Visited(env, s, run[..|run|-1]) + Visits(After(env, s, run[..|run|-1]), run[|run|-1])
  }

  lemma TickStep(env: Env, s: Sys, e: Event)
    requires Enabled(s, e) && s.tick.Some? && !e.TickEnd?
    ensures var t := Apply(env, s, e);
            && t.tick.Some? && t.tick.value.now == s.tick.value.now
            && s.tick.value.todo == Visits(s, e) + t.tick.value.todo
  {
    if e.VisitNext? {
      VisitStepSched(env, s);
    } else {
      OthersKeepTick(env, s, e);
    }
  }

  predicate Unended(run: seq<Event>) {
    forall i :: 0 <= i < |run| ==> !run[i].TickEnd?
  }

  /** A tick in progress, of which `todo` was left, has visited `visited` of it. */
  ghost predicate Along(todo: seq<Request>, now: real, visited: seq<Request>, tick: Option<Tick>) {
    tick.Some? && tick.value.now == now && todo == visited + tick.value.todo
  }

  lemma AlongStep(env: Env, s: Sys, e: Event, todo: seq<Request>, now: real, visited: seq<Request>)
    requires Enabled(s, e) && !e.TickEnd? && Along(todo, now, visited, s.tick)
    ensures Along(todo, now, visited + Visits(s, e), Apply(env, s, e).tick)
  {
    TickStep(env, s, e);
  }

  lemma {:induction false} TickGoesThrough(env: Env, s: Sys, run: seq<Event>)
    requires Legal(env, s, run) && s.tick.Some? && Unended(run)
    ensures Along(s.tick.value.todo, s.tick.value.now, Visited(env, s, run), After(env, s, run).tick)
    decreases |run|
  {
    if run != [] {
      var front, e := run[..|run|-1], run[|run|-1];
      TickGoesThrough(env, s, front);
      AlongStep(env, After(env, s, front), e, s.tick.value.todo, s.tick.value.now, Visited(env, s, front));
    }
  }

  /** Whatever happens during a tick, until it ends it visits exactly the requests
      that were listed when it started, in the order of the table, each once and as
      of that time. */
  lemma TickVisitsSnapshot(env: Env, s: Sys, run: seq<Event>)
    requires Enabled(s, TickStart) && Legal(env, Apply(env, s, TickStart), run)
    requires Unended(run) && Enabled(After(env, Apply(env, s, TickStart), run), TickEnd)
    ensures Visited(env, Apply(env, s, TickStart), run) == s.sched.pending
    ensures After(env, Apply(env, s, TickStart), run).tick.value.now == s.clock
  {
    TickGoesThrough(env, Apply(env, s, TickStart), run);
  }
}
