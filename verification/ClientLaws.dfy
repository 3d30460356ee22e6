/** What the gateway's clients and forwards can rely on. */
module ClientLaws {
  import opened Wrappers
  import opened Requests
  import opened Scheduler
  import opened Gateway
  import Aging
  import opened QueueLaws

  predicate Settled(s: Sys, id: Id) {
    id in s.clients && !s.clients[id].outcome.Waiting?
  }

  /** Does this step set the future of client `id`, to whatever value?  Three steps
      can, each behind the test that it is not done. */
  predicate Sets(s: Sys, e: Event, id: Id) {
    && (e.Reply? || e.ReportCrash? || e.ClientTimeout?) && e.id == id
    && id in s.clients && s.clients[id].outcome.Waiting?
  }

  lemma ResolveKeeps(s: Sys, i: Id, outcome: Outcome, id: Id)
    requires !outcome.Waiting?
    ensures Settled(s, id) ==> Resolve(s, i, outcome).clients[id] == s.clients[id]
    ensures id in s.clients ==> Resolve(s, i, outcome).clients[id].request == s.clients[id].request
    ensures Settled(Resolve(s, i, outcome), id) <==> Settled(s, id) || (id in s.clients && i == id)
    ensures Resolve(s, i, outcome).clients.Keys == s.clients.Keys
  {
  }

  /** The steps that touch a future or add a client. */
  predicate TouchesClients(e: Event) {
    e.Submit? || e.Reply? || e.ReportCrash? || e.ClientTimeout?
  }

  lemma DequeuesKeepClients(env: Env, s: Sys, e: Event)
    requires Enabled(s, e) && (e.Begin? || e.Resume? || e.VisitNext?)
    ensures Apply(env, s, e).clients == s.clients
  {
  }

  lemma OthersKeepClients(env: Env, s: Sys, e: Event)
    requires Enabled(s, e) && !TouchesClients(e) && !e.Begin? && !e.Resume? && !e.VisitNext?
    ensures Apply(env, s, e).clients == s.clients
  {
  }

  lemma SettledStep(env: Env, s: Sys, e: Event, id: Id)
    requires Enabled(s, e) && id in s.clients
    ensures id in Apply(env, s, e).clients
    ensures Settled(s, id) ==> Apply(env, s, e).clients[id] == s.clients[id]
    ensures Apply(env, s, e).clients[id].request == s.clients[id].request
  {
    match e {
      case Submit(_, _) =>
      case Reply(i, body) =>
        ResolveKeeps(s.(running := s.running - multiset{i}, answered := s.answered + multiset{i}),
                     i, Answered(body), id);
      case ReportCrash(i) =>
        ResolveKeeps(s.(failed := s.failed - multiset{i}), i, Failed, id);
      case ClientTimeout(i) =>
        ResolveKeeps(s.(leaving := s.leaving + {i}), i, TimedOut, id);
      case _ =>
        if e.Begin? || e.Resume? || e.VisitNext? {
          DequeuesKeepClients(env, s, e);
        } else {
          OthersKeepClients(env, s, e);
        }
    }
  }

  lemma SetByFuture(env: Env, s: Sys, e: Event, id: Id)
    requires Enabled(s, e) && id in s.clients && (e.Reply? || e.ReportCrash? || e.ClientTimeout?)
    ensures Settled(Apply(env, s, e), id) <==> Settled(s, id) || Sets(s, e, id)
  {
    match e {
      case Reply(i, body) =>
        ResolveKeeps(s.(running := s.running - multiset{i}, answered := s.answered + multiset{i}),
                     i, Answered(body), id);
      case ReportCrash(i) =>
        ResolveKeeps(s.(failed := s.failed - multiset{i}), i, Failed, id);
      case ClientTimeout(i) =>
        ResolveKeeps(s.(leaving := s.leaving + {i}), i, TimedOut, id);
    }
  }

  /** A future is settled after a step if it was before or the step sets it. */
  lemma SetStep(env: Env, s: Sys, e: Event, id: Id)
    requires Enabled(s, e) && id in s.clients
    ensures Settled(Apply(env, s, e), id) <==> Settled(s, id) || Sets(s, e, id)
  {
    if e.Reply? || e.ReportCrash? || e.ClientTimeout? {
      SetByFuture(env, s, e, id);
    } else if e.Begin? || e.Resume? || e.VisitNext? {
      DequeuesKeepClients(env, s, e);
    } else if !e.Submit? {
      OthersKeepClients(env, s, e);
    }
  }

  lemma NewClientWaits(env: Env, s: Sys, e: Event, id: Id)
    requires Enabled(s, e) && id !in s.clients
    ensures !Settled(Apply(env, s, e), id)
  {
  }

  /** How often a run sets a client's future. */
  ghost function Settlements(env: Env, s: Sys, run: seq<Event>, id: Id): nat {
    if run == [] then 0 else
      Settlements(env, s, run[..|run|-1], id) + One(Sets(After(env, s, run[..|run|-1]), run[|run|-1], id))
  }

  /** One outcome per client: under every interleaving of repeated forwards,
      backend failures and timeouts, a future is set once if it ends up settled
      and never otherwise; once settled it does not change. */
  lemma {:induction false} OneOutcome(env: Env, s: Sys, run: seq<Event>, id: Id)
    requires Legal(env, s, run)
    ensures Settled(s, id) ==> Settlements(env, s, run, id) == 0
                               && id in After(env, s, run).clients && After(env, s, run).clients[id] == s.clients[id]
    ensures !Settled(s, id) ==> Settlements(env, s, run, id) == One(Settled(After(env, s, run), id))
    decreases |run|
  {
    if run != [] {
      OneOutcome(env, s, run[..|run|-1], id);
      var m := After(env, s, run[..|run|-1]);
      if id in m.clients {
        SettledStep(env, m, run[|run|-1], id);
        SetStep(env, m, run[|run|-1], id);
      } else {
        NewClientWaits(env, m, run[|run|-1], id);
      }
    }
  }

  lemma SettingStep(env: Env, s: Sys, e: Event, id: Id)
    requires Enabled(s, e) && Sets(s, e, id)
    ensures id in Apply(env, s, e).clients
    ensures var o := Apply(env, s, e).clients[id].outcome;
            && (forall body :: o == Answered(body) <==> e == Reply(id, body))
            && (o == Failed <==> e == ReportCrash(id)) && (o == TimedOut <==> e == ClientTimeout(id))
  {
    assert id in Apply(env, s, e).clients by {
      SettledStep(env, s, e, id);
    }
  }

  /** The step `e` after `front` settles the client. */
  ghost predicate SettledAt(env: Env, s: Sys, front: seq<Event>, e: Event, id: Id) {
    && id in After(env, s, front).clients && !Settled(After(env, s, front), id)
    && Settled(After(env, s, front + [e]), id)
  }

  /** What a client gets is decided by the step that settles it, and by nothing that
      happens later: the body of the reply, the failure of the backend, or the
      timeout. */
  lemma OutcomeDecided(env: Env, s: Sys, front: seq<Event>, e: Event, rest: seq<Event>, id: Id)
    requires Legal(env, s, front + [e] + rest) && SettledAt(env, s, front, e, id)
    ensures id in After(env, s, front + [e] + rest).clients
    ensures var o := After(env, s, front + [e] + rest).clients[id].outcome;
            && (forall body :: o == Answered(body) <==> e == Reply(id, body))
            && (o == Failed <==> e == ReportCrash(id)) && (o == TimedOut <==> e == ClientTimeout(id))
  {
    var m := After(env, s, front);
    RunConcat(env, s, front + [e], rest);
    assert (front + [e])[..|front + [e]|-1] == front;
    SetStep(env, m, e, id);
    SettingStep(env, m, e, id);
    OneOutcome(env, Apply(env, m, e), rest, id);
  }

  lemma LastSettles(env: Env, s: Sys, run: seq<Event>, id: Id)
    requires run != [] && Legal(env, s, run) && Settled(After(env, s, run), id)
    requires !Settled(After(env, s, run[..|run|-1]), id)
    ensures run == run[..|run|-1] + [run[|run|-1]] + [] && SettledAt(env, s, run[..|run|-1], run[|run|-1], id)
  {
    var most, last := run[..|run|-1], run[|run|-1];
    assert run == most + [last];
    if id !in After(env, s, most).clients {
      NewClientWaits(env, After(env, s, most), last, id);
    }
  }

  lemma SplitLonger(run: seq<Event>, front: seq<Event>, e: Event, rest: seq<Event>, last: Event)
    requires run != [] && run[..|run|-1] == front + [e] + rest && run[|run|-1] == last
    ensures run == front + [e] + (rest + [last])
  {
    assert run == run[..|run|-1] + [last];
  }

  /** Every settled client was settled by one step of the run, to which the law
      above applies. */
  lemma {:induction false} SettledOnce(env: Env, s: Sys, run: seq<Event>, id: Id)
    returns (front: seq<Event>, e: Event, rest: seq<Event>)
    requires Legal(env, s, run) && !Settled(s, id) && Settled(After(env, s, run), id)
    ensures run == front + [e] + rest && SettledAt(env, s, front, e, id)
    decreases |run|
  {
    var most, last := run[..|run|-1], run[|run|-1];
    if Settled(After(env, s, most), id) {
      var less;
      front, e, less := SettledOnce(env, s, most, id);
      rest := less + [last];
      SplitLonger(run, front, e, less, last);
    } else {
      front, e, rest := most, last, [];
      LastSettles(env, s, run, id);
    }
  }

  /** Does this step start a forward of request `id`? */
  predicate Starts(s: Sys, e: Event, id: Id) {
    || ((e.Begin? || e.Resume?) && e.got.Some? && e.got.value.payload.id == id)
    || (e.TakeFallback? && s.sched.fcfs.Some? && s.sched.fcfs.value.queue != []
        && s.sched.fcfs.value.queue[0].id == id)
  }

  /** Does this step call `complete` for request `id`? */
  predicate Completes(e: Event, id: Id) {
    (e.FinishOk? || e.Crash?) && e.id == id
  }

  ghost function Forwards(env: Env, s: Sys, run: seq<Event>, id: Id): nat {
    if run == [] then 0 else
      Forwards(env, s, run[..|run|-1], id) + One(Starts(After(env, s, run[..|run|-1]), run[|run|-1], id))
  }

  function Completions(run: seq<Event>, id: Id): nat {
    if run == [] then 0 else Completions(run[..|run|-1], id) + One(Completes(run[|run|-1], id))
  }

  /** How many steps of a run report a success, or a failure. */
  function Successes(run: seq<Event>): nat {
    if run == [] then 0 else Successes(run[..|run|-1]) + One(run[|run|-1].FinishOk?)
  }

  function Failures(run: seq<Event>): nat {
    if run == [] then 0 else Failures(run[..|run|-1]) + One(run[|run|-1].Crash?)
  }

  /** The steps that start, answer or finish a forward. */
  predicate TouchesForwards(e: Event) {
    e.Begin? || e.Resume? || e.TakeFallback? || e.Reply? || e.FinishOk? || e.Crash?
  }

  lemma OthersKeepForwards(env: Env, s: Sys, e: Event)
    requires Enabled(s, e) && !TouchesForwards(e)
    ensures Apply(env, s, e).running == s.running && Apply(env, s, e).answered == s.answered
  {
  }

  lemma StartStep(env: Env, s: Sys, e: Event, id: Id)
    requires Enabled(s, e) && (e.Begin? || e.Resume? || e.TakeFallback?)
    ensures var t := Apply(env, s, e);
            t.running[id] == s.running[id] + One(Starts(s, e, id)) && t.answered == s.answered
  {
  }

  lemma FinishStep(env: Env, s: Sys, e: Event, id: Id)
    requires Enabled(s, e) && (e.Reply? || e.FinishOk? || e.Crash?)
    ensures var t := Apply(env, s, e);
            t.running[id] + t.answered[id] + One(Completes(e, id)) == s.running[id] + s.answered[id]
  {
  }

  lemma ForwardStep(env: Env, s: Sys, e: Event, id: Id)
    requires Enabled(s, e)
    ensures var t := Apply(env, s, e);
            t.running[id] + t.answered[id] + One(Completes(e, id))
            == s.running[id] + s.answered[id] + One(Starts(s, e, id))
  {
    if !TouchesForwards(e) {
      OthersKeepForwards(env, s, e);
    } else if e.Reply? || e.FinishOk? || e.Crash? {
      FinishStep(env, s, e, id);
    } else {
      StartStep(env, s, e, id);
    }
  }

  lemma CounterStep(env: Env, s: Sys, e: Event)
    requires Enabled(s, e) && !e.VisitNext? && !e.Begin? && !e.Resume?
    ensures var t := Apply(env, s, e);
            && t.sched.completed == s.sched.completed + One(e.FinishOk?)
            && t.sched.errors == s.sched.errors + One(e.Crash?)
  {
  }

  /** The fallback is there and has counted so many successes and failures. */
  predicate Counts(f: Option<Fcfs>, successes: nat, failures: nat) {
    f.Some? && f.value.completed == successes && f.value.errors == failures
  }

  lemma FallbackCounterStep(env: Env, s: Sys, e: Event)
    requires Enabled(s, e) && s.sched.fcfs.Some? && !e.VisitNext? && !e.Begin? && !e.Resume?
    ensures Counts(Apply(env, s, e).sched.fcfs,
                   s.sched.fcfs.value.completed + One(e.FinishOk?), s.sched.fcfs.value.errors + One(e.Crash?))
  {
  }

  lemma QuietCounters(env: Env, s: Sys, e: Event)
    requires Enabled(s, e) && (e.VisitNext? || e.Begin? || e.Resume?)
    ensures var t := Apply(env, s, e).sched;
            && t.completed == s.sched.completed && t.errors == s.sched.errors
            && (s.sched.fcfs.Some? ==>
                  Counts(t.fcfs, s.sched.fcfs.value.completed, s.sched.fcfs.value.errors))
  {
  }

  lemma {:induction false} CountersOverRun(
    env: Env, fallback: bool, aging: Aging.Config, clock: real, run: seq<Event>)
    requires Legal(env, Start(fallback, aging, clock), run)
    ensures var t := After(env, Start(fallback, aging, clock), run);
            && t.sched.completed == Successes(run) && t.sched.errors == Failures(run)
            && (fallback ==> Counts(t.sched.fcfs, Successes(run), Failures(run)))
    decreases |run|
  {
    if run != [] {
      var m, e := After(env, Start(fallback, aging, clock), run[..|run|-1]), run[|run|-1];
      CountersOverRun(env, fallback, aging, clock, run[..|run|-1]);
      if e.VisitNext? || e.Begin? || e.Resume? {
        QuietCounters(env, m, e);
      } else {
        CounterStep(env, m, e);
        if fallback {
          FallbackCounterStep(env, m, e);
        }
      }
    }
  }

  /** How many steps of a run are `e`. */
  function Times(run: seq<Event>, e: Event): nat {
    if run == [] then 0 else Times(run[..|run|-1], e) + One(run[|run|-1] == e)
  }

  function Replies(run: seq<Event>, id: Id): nat {
    if run == [] then 0 else Replies(run[..|run|-1], id) + One(run[|run|-1].Reply? && run[|run|-1].id == id)
  }

  lemma AnsweringStep(env: Env, s: Sys, e: Event, id: Id)
    requires Enabled(s, e) && (e.Reply? || e.FinishOk? || e.Crash? || e.ReportCrash?)
    ensures var t := Apply(env, s, e);
            && t.answered[id] + One(e == FinishOk(id)) == s.answered[id] + One(e.Reply? && e.id == id)
            && t.failed[id] + One(e == ReportCrash(id)) == s.failed[id] + One(e == Crash(id))
  {
  }

  lemma OthersAnswerNothing(env: Env, s: Sys, e: Event)
    requires Enabled(s, e) && !e.Reply? && !e.FinishOk? && !e.Crash? && !e.ReportCrash?
    ensures Apply(env, s, e).answered == s.answered && Apply(env, s, e).failed == s.failed
  {
  }

  lemma AnswerStep(env: Env, s: Sys, e: Event, id: Id)
    requires Enabled(s, e)
    ensures var t := Apply(env, s, e);
            && t.answered[id] + One(e == FinishOk(id)) == s.answered[id] + One(e.Reply? && e.id == id)
            && t.failed[id] + One(e == ReportCrash(id)) == s.failed[id] + One(e == Crash(id))
  {
    if e.Reply? || e.FinishOk? || e.Crash? || e.ReportCrash? {
      AnsweringStep(env, s, e, id);
    } else {
      OthersAnswerNothing(env, s, e);
    }
  }

  lemma LeavingStep(env: Env, s: Sys, e: Event, id: Id)
    requires Enabled(s, e)
    ensures One(id in Apply(env, s, e).leaving) + One(e == ClientCancel(id))
         == One(id in s.leaving) + One(e == ClientTimeout(id) && id !in s.leaving)
  {
  }

  /** The clients about to cancel are clients that timed out. */
  ghost predicate LeaversTimedOut(s: Sys) {
    forall id :: id in s.leaving ==> id in s.clients && s.clients[id].outcome == TimedOut
  }

  lemma LeaversStep(env: Env, s: Sys, e: Event, id: Id)
    requires Enabled(s, e) && LeaversTimedOut(s) && id in Apply(env, s, e).leaving
    ensures id in Apply(env, s, e).clients && Apply(env, s, e).clients[id].outcome == TimedOut
  {
    LeavingStep(env, s, e, id);
    if id in s.leaving {
      SettledStep(env, s, e, id);
    } else {
      SettingStep(env, s, e, id);
    }
  }

  /** A client cancels at most once, exactly if it timed out, and then it has no
      other outcome: over every run its timeouts are its cancels, and one more while
      it is about to cancel. */
  lemma {:induction false} CancelFollowsTimeout(
    env: Env, fallback: bool, aging: Aging.Config, clock: real, run: seq<Event>, id: Id)
    requires Legal(env, Start(fallback, aging, clock), run)
    ensures var t := After(env, Start(fallback, aging, clock), run);
            && LeaversTimedOut(t)
            && Times(run, ClientTimeout(id)) == Times(run, ClientCancel(id)) + One(id in t.leaving)
            && Times(run, ClientTimeout(id)) == One(id in t.clients && t.clients[id].outcome == TimedOut)
    decreases |run|
  {
    if run != [] {
      var m, e := After(env, Start(fallback, aging, clock), run[..|run|-1]), run[|run|-1];
      CancelFollowsTimeout(env, fallback, aging, clock, run[..|run|-1], id);
      LeavingStep(env, m, e, id);
      TimeoutStep(env, m, e, id);
      forall i | i in Apply(env, m, e).leaving
        ensures i in Apply(env, m, e).clients && Apply(env, m, e).clients[i].outcome == TimedOut
      {
        LeaversStep(env, m, e, i);
      }
    }
  }

  lemma TimeoutStep(env: Env, s: Sys, e: Event, id: Id)
    requires Enabled(s, e)
    ensures var t := Apply(env, s, e);
            One(id in t.clients && t.clients[id].outcome == TimedOut)
            == One(id in s.clients && s.clients[id].outcome == TimedOut) + One(e == ClientTimeout(id))
  {
    if id in s.clients {
      SettledStep(env, s, e, id);
      SetStep(env, s, e, id);
      if Sets(s, e, id) {
        SettingStep(env, s, e, id);
      }
    } else {
      NewClientWaits(env, s, e, id);
    }
  }

  /** A forward reports success exactly if it had a reply, and then only once it
      has settled its client; a forward that failed tells its client after it has
      reported the failure. */
  lemma {:induction false} ReportsFollow(
    env: Env, fallback: bool, aging: Aging.Config, clock: real, run: seq<Event>, id: Id)
    requires Legal(env, Start(fallback, aging, clock), run)
    ensures var t := After(env, Start(fallback, aging, clock), run);
            && Replies(run, id) == t.answered[id] + Times(run, FinishOk(id))
            && Times(run, Crash(id)) == t.failed[id] + Times(run, ReportCrash(id))
    decreases |run|
  {
    if run != [] {
      ReportsFollow(env, fallback, aging, clock, run[..|run|-1], id);
      AnswerStep(env, After(env, Start(fallback, aging, clock), run[..|run|-1]), run[|run|-1], id);
    }
  }

  /** Each forward makes exactly one `complete` call when it finishes and none
      before: per request, forwards started = forwards still in flight + calls.  The
      counters of the scheduler, and of its fallback, count the successes and the
      failures among these calls. */
  lemma {:induction false} OneCompletionPerForward(
    env: Env, fallback: bool, aging: Aging.Config, clock: real, run: seq<Event>, id: Id)
    requires Legal(env, Start(fallback, aging, clock), run)
    ensures var s, t := Start(fallback, aging, clock), After(env, Start(fallback, aging, clock), run);
            && Forwards(env, s, run, id) == t.running[id] + t.answered[id] + Completions(run, id)
            && t.sched.completed == Successes(run) && t.sched.errors == Failures(run)
            && (fallback ==> Counts(t.sched.fcfs, Successes(run), Failures(run)))
    decreases |run|
  {
    CountersOverRun(env, fallback, aging, clock, run);
    if run != [] {
      var s := Start(fallback, aging, clock);
      OneCompletionPerForward(env, fallback, aging, clock, run[..|run|-1], id);
      ForwardStep(env, After(env, s, run[..|run|-1]), run[|run|-1], id);
    }
  }
}
