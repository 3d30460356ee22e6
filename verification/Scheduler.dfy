/** What the scheduler's operations do to its state: the SJF scheduler with its
    queue, its table of waiting requests, its fallback and its counters. */
module Scheduler {
  import opened Wrappers
  import opened Requests
  import Q = LazyQueue
  import opened Aging

  /** The first-come-first-served scheduler. */
  datatype Fcfs = Fcfs(
    queue: seq<Request>,
    pending: set<Id>,
    scheduled: nat,
    completed: nat,
    errors: nat,
    cancelled: nat)

  const FCFS_EMPTY := Fcfs([], {}, 0, 0, 0, 0)

  function FcfsSubmit(f: Fcfs, r: Request): Fcfs {
    f.(queue := f.queue + [r], pending := f.pending + {r.id}, scheduled := f.scheduled + 1)
  }

  function FcfsAcquire(f: Fcfs): Fcfs
    requires f.queue != []
  {
    f.(queue := f.queue[1..])
  }

  function FcfsComplete(f: Fcfs, id: Id, success: bool): Fcfs {
    var g := f.(pending := f.pending - {id});
    if success then g.(completed := f.completed + 1) else g.(errors := f.errors + 1)
  }

  /** Cancelling takes the request off the books but leaves it in the queue. */
  function FcfsCancel(f: Fcfs, id: Id): Fcfs {
    if id in f.pending then f.(pending := f.pending - {id}, cancelled := f.cancelled + 1) else f
  }

  /** `pending` is an insertion-ordered table; `priority` holds the priority
      attribute of every request submitted. */
  datatype Sched = Sched(
    queue: Q.State,
    pending: seq<Request>,
    priority: map<Id, real>,
    fcfs: Option<Fcfs>,
    useFallback: bool,
    scheduled: nat,
    completed: nat,
    errors: nat)

  function Initial(fallback: bool): Sched {
    Sched(Q.EMPTY, [], map[], if fallback then Some(FCFS_EMPTY) else None, false, 0, 0, 0)
  }

  /** Assignment to a key of an insertion-ordered table. */
  function Put(table: seq<Request>, r: Request): seq<Request> {
    if table == [] then [r]
    else if table[0].id == r.id then [r] + table[1..]
    else [table[0]] + Put(table[1..], r)
  }

  /** Removal of a key, which need not be there. */
  function Remove(table: seq<Request>, id: Id): seq<Request> {
    if table == [] then []
    else if table[0].id == id then table[1..]
    else [table[0]] + Remove(table[1..], id)
  }

  function PriorityOf(s: Sched, id: Id): real {
    if id in s.priority then s.priority[id] else 0.0
  }

  /** A submission goes to the fallback if a prediction ever failed. */
  predicate ToFallback(s: Sched, prediction: Option<real>) {
    s.fcfs.Some? && (s.useFallback || prediction.None?)
  }

  function InitialPriority(r: Request, prediction: Option<real>): real {
    if prediction.Some? then prediction.value else r.maxTokens as real
  }

  /** `prediction` is `None` when the predictor raises. */
  function Submit(s: Sched, r: Request, prediction: Option<real>, now: real): Sched {
    var p := InitialPriority(r, prediction);
    var t := s.(priority := s.priority[r.id := p], scheduled := s.scheduled + 1);
    if ToFallback(s, prediction) then
      t.(fcfs := Some(FcfsSubmit(s.fcfs.value, r)), useFallback := true)
    else
      t.(pending := Put(s.pending, r), queue := Q.Apply(s.queue, Q.Enqueue(Item(p, now, r.id, r))))
  }

  function Complete(s: Sched, id: Id, success: bool): Sched {
    var t := s.(pending := Remove(s.pending, id),
                fcfs := if s.fcfs.Some? then Some(FcfsComplete(s.fcfs.value, id, success)) else None);
    if success then t.(completed := s.completed + 1) else t.(errors := s.errors + 1)
  }

  function Cancel(s: Sched, id: Id): Sched {
    s.(pending := Remove(s.pending, id),
       fcfs := if s.fcfs.Some? then Some(FcfsCancel(s.fcfs.value, id)) else None,
       queue := Q.Apply(s.queue, Q.Cancel(id, id in s.queue.pending)))
  }

  datatype Env = Env(curves: Curves, timeout: real)

  /** One request in one tick of the aging loop. */
  function Visit(env: Env, cfg: Config, s: Sched, r: Request, now: real): Sched {
    var wait := now - r.created;
    if wait > env.timeout then Cancel(s, r.id) else
      var p := PriorityOf(s, r.id);
      var aged := Boost(env.curves, cfg, wait, p);
      if aged < p - 0.01 then
        s.(queue := Q.Apply(s.queue, Q.Update(r.id, aged, r.id in s.queue.pending)),
           priority := s.priority[r.id := aged])
      else s
  }

  function VisitAll(env: Env, cfg: Config, s: Sched, todo: seq<Request>, now: real): Sched {
    if todo == [] then s else
      Visit(env, cfg, VisitAll(env, cfg, s, todo[..|todo|-1], now), todo[|todo|-1], now)
  }

  lemma VisitOneMore(env: Env, cfg: Config, s: Sched, todo: seq<Request>, i: nat, now: real)
    requires i < |todo|
    ensures VisitAll(env, cfg, s, todo[..i + 1], now)
         == Visit(env, cfg, VisitAll(env, cfg, s, todo[..i], now), todo[i], now)
  {
    assert todo[..i + 1][..i] == todo[..i];
  }
}
