/** The gateway around the SJF scheduler: clients, workers, dequeuers asleep on
    the queue's condition variable, forwards in flight and the aging loop, as one
    state machine whose steps are the pieces of code between two awaits.  Each visit
    of the aging loop is a step of its own, also where the loop does not await. */
module Gateway {
  import opened Wrappers
  import opened Requests
  import opened Scheduler
  import Aging
  import Q = LazyQueue

  /** The state of a client's future. */
  datatype Outcome = Waiting | Answered(body: string) | Failed | TimedOut

  datatype Client = Client(request: Request, outcome: Outcome)

  /** A round of the aging loop in progress: its time and what it has yet to visit. */
  datatype Tick = Tick(now: real, todo: seq<Request>)

  datatype Sys = Sys(
    sched: Sched,
    clock: real,
    aging: Aging.Config,
    tick: Option<Tick>,
    idle: nat,                 // dequeuers asleep, not notified
    woken: nat,                // dequeuers notified, not yet running again
    running: multiset<Id>,     // forwards waiting for the backend
    answered: multiset<Id>,    // forwards that have an answer and will report success
    failed: multiset<Id>,      // forwards that reported an error and will tell the client
    clients: map<Id, Client>,
    leaving: set<Id>)          // clients that timed out and will cancel

  function Start(fallback: bool, aging: Aging.Config, clock: real): Sys {
    Sys(Initial(fallback), clock, aging, None, 0, 0, multiset{}, multiset{}, multiset{}, map[], {})
  }

  datatype Event =
    | Submit(request: Request, prediction: Option<real>)
    | Begin(discards: seq<Item>, got: Option<Item>)
    | Resume(discards: seq<Item>, got: Option<Item>)
    | WaitTimeout
    | WokenTimeout
    | TakeFallback
    | Reply(id: Id, body: string)
    | FinishOk(id: Id)
    | Crash(id: Id)
    | ReportCrash(id: Id)
    | ClientTimeout(id: Id)
    | ClientCancel(id: Id)
    | TickStart
    | VisitNext
    | TickEnd
    | Reload(aging: Aging.Config)
    | Advance(to: real)

  predicate Latched(s: Sched) {
    s.useFallback && s.fcfs.Some?
  }

  ghost predicate Enabled(s: Sys, e: Event) {
    match e
    case Submit(r, _) => r.id !in s.clients && r.created <= s.clock
    case Begin(ds, got) => !Latched(s.sched) && Q.Dequeues(PriorityThenTime, s.sched.queue, ds, got)
    case Resume(ds, got) => s.woken > 0 && Q.Dequeues(PriorityThenTime, s.sched.queue, ds, got)
    case WaitTimeout => s.idle > 0
    case WokenTimeout => s.woken > 0
    case TakeFallback => Latched(s.sched) && s.sched.fcfs.value.queue != []
    case Reply(id, _) => id in s.running
    case FinishOk(id) => id in s.answered
    case Crash(id) => id in s.running
    case ReportCrash(id) => id in s.failed
    case ClientTimeout(id) => id in s.clients && s.clients[id].outcome.Waiting?
    case ClientCancel(id) => id in s.leaving
    case TickStart => s.tick.None?
    case VisitNext => s.tick.Some? && s.tick.value.todo != []
    case TickEnd => s.tick.Some? && s.tick.value.todo == []
    case Reload(_) => true
    case Advance(to) => to >= s.clock
  }

  /** `notify()`: one sleeping dequeuer, if any, is due to run again. */
  function Notify(s: Sys): Sys {
    if s.idle > 0 then s.(idle := s.idle - 1, woken := s.woken + 1) else s
  }

  /** A future is set only if it is not done. */
  function Resolve(s: Sys, id: Id, outcome: Outcome): Sys {
    if id in s.clients && s.clients[id].outcome.Waiting?
    then s.(clients := s.clients[id := s.clients[id].(outcome := outcome)])
    else s
  }

  /** What a dequeuer does with its turn: forward an item, or go to sleep. */
  ghost function Serve(s: Sys, discards: seq<Item>, got: Option<Item>): Sys {
    var t := s.(sched := s.sched.(queue := Q.After(s.sched.queue, Q.Pops(discards, got))));
    if got.Some? then t.(running := s.running + multiset{got.value.payload.id})
    else t.(idle := s.idle + 1)
  }

  ghost function VisitStep(env: Env, s: Sys): Sys
    requires s.tick.Some? && s.tick.value.todo != []
  {
    var r := s.tick.value.todo[0];
    var t := s.(sched := Visit(env, s.aging, s.sched, r, s.tick.value.now),
                tick := Some(s.tick.value.(todo := s.tick.value.todo[1..])));
    if t.sched.queue.updated > s.sched.queue.updated then Notify(t) else t
  }

  ghost function Apply(env: Env, s: Sys, e: Event): Sys
    requires Enabled(s, e)
  {
    match e
    case Submit(r, p) =>
      var t := s.(sched := Scheduler.Submit(s.sched, r, p, s.clock),
                  clients := s.clients[r.id := Client(r, Waiting)]);
      if ToFallback(s.sched, p) then t else Notify(t)
    case Begin(ds, got) => Serve(s, ds, got)
    case Resume(ds, got) => Serve(s.(woken := s.woken - 1), ds, got)
    case WaitTimeout => s.(idle := s.idle - 1)
    case WokenTimeout => s.(woken := s.woken - 1)
    case TakeFallback =>
      var f := s.sched.fcfs.value;
      s.(sched := s.sched.(fcfs := Some(FcfsAcquire(f))), running := s.running + multiset{f.queue[0].id})
    case Reply(id, body) =>
      Resolve(s.(running := s.running - multiset{id}, answered := s.answered + multiset{id}), id, Answered(body))
    case FinishOk(id) =>
      s.(sched := Complete(s.sched, id, true), answered := s.answered - multiset{id})
    case Crash(id) =>
      s.(sched := Complete(s.sched, id, false), running := s.running - multiset{id},
         failed := s.failed + multiset{id})
    case ReportCrash(id) => Resolve(s.(failed := s.failed - multiset{id}), id, Failed)
    case ClientTimeout(id) => Resolve(s.(leaving := s.leaving + {id}), id, TimedOut)
    case ClientCancel(id) => s.(sched := Cancel(s.sched, id), leaving := s.leaving - {id})
    case TickStart => s.(tick := Some(Tick(s.clock, s.sched.pending)))
    case VisitNext => VisitStep(env, s)
    case TickEnd => s.(tick := None)
    case Reload(cfg) => s.(aging := cfg)
    case Advance(to) => s.(clock := to)
  }

  /** The state reached from `s` by a run, and the runs that can happen. */
  ghost function After(env: Env, s: Sys, run: seq<Event>): Sys {
    if run == [] then s else Next(env, After(env, s, run[..|run|-1]), run[|run|-1])
  }

  ghost function Next(env: Env, s: Sys, e: Event): Sys {
    if Enabled(s, e) then Apply(env, s, e) else s
  }

  ghost predicate Legal(env: Env, s: Sys, run: seq<Event>) {
    run == [] ||
    (Legal(env, s, run[..|run|-1]) && Enabled(After(env, s, run[..|run|-1]), run[|run|-1]))
  }

  lemma {:induction false} RunConcat(env: Env, s: Sys, a: seq<Event>, b: seq<Event>)
    ensures After(env, s, a + b) == After(env, After(env, s, a), b)
    ensures Legal(env, s, a + b) <==> Legal(env, s, a) && Legal(env, After(env, s, a), b)
    decreases |b|
  {
    if b == [] {
      assert a + b == a;
    } else {
      assert (a + b)[..|a + b|-1] == a + b[..|b|-1];
      RunConcat(env, s, a, b[..|b|-1]);
    }
  }
}
