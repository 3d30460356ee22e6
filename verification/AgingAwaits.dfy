/** Where the aging loop lets other tasks run.  A tick goes from one request to the
    next without an await, except that a visit that lowers a priority or cancels
    awaits the queue; after the tick the loop sleeps. */
module AgingAwaits {
  import opened Scheduler
  import opened Gateway
  import opened GatewayLaws
  import Aging

  /** The steps of the loop itself. */
  predicate OfLoop(e: Event) {
    e.TickStart? || e.VisitNext? || e.TickEnd?
  }

  /** Is the loop suspended after the step `e` from `s`, if `was` says so before? */
  predicate Suspends(env: Env, s: Sys, e: Event, was: bool) {
    match e
    case TickStart => false
    case VisitNext =>
      s.tick.Some? && s.tick.value.todo != [] &&
      var wait := s.tick.value.now - s.tick.value.todo[0].created;
      wait > env.timeout || Aging.Drop(env.curves, s.aging, wait) > 0.0
    case TickEnd => true
    case _ => was
  }

  ghost predicate Suspended(env: Env, s: Sys, run: seq<Event>) {
    if run == [] then s.tick.None? else
      Suspends(env, After(env, s, run[..|run|-1]), run[|run|-1], Suspended(env, s, run[..|run|-1]))
  }

  /** Other tasks take their steps only while the loop is suspended. */
  ghost predicate AtAwaits(env: Env, s: Sys, run: seq<Event>) {
    run == [] ||
    (AtAwaits(env, s, run[..|run|-1]) && (OfLoop(run[|run|-1]) || Suspended(env, s, run[..|run|-1])))
  }

  /** The run can happen, and can be scheduled by an event loop that switches tasks
      at awaits only; `suspended` tells where the aging loop is at its end. */
  ghost predicate Scheduled(env: Env, s: Sys, run: seq<Event>, suspended: bool) {
    Legal(env, s, run) && AtAwaits(env, s, run) && Suspended(env, s, run) == suspended
  }

  lemma ScheduledNext(env: Env, s: Sys, run: seq<Event>, suspended: bool, e: Event)
    requires Scheduled(env, s, run, suspended) && Enabled(After(env, s, run), e) && (OfLoop(e) || suspended)
    ensures Scheduled(env, s, run + [e], Suspends(env, After(env, s, run), e, suspended))
    ensures After(env, s, run + [e]) == Apply(env, After(env, s, run), e)
  {
    Steps(env, s, run, e);
    assert (run + [e])[..|run + [e]|-1] == run;
  }
}
