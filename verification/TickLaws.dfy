/** What one tick of the aging loop does to each request. */
module TickLaws {
  import opened Requests
  import opened Scheduler
  import opened Tables
  import Aging
  import Q = LazyQueue

  /** `t` is to request `id` what `s` is: the same priority, entry, mark, copies and
      listing. */
  ghost predicate SameOf(s: Sched, t: Sched, id: Id) {
    && PriorityOf(t, id) == PriorityOf(s, id)
    && (id in t.queue.pending <==> id in s.queue.pending)
    && (id in s.queue.pending ==> t.queue.pending[id] == s.queue.pending[id])
    && (id in t.queue.cancelled <==> id in s.queue.cancelled)
    && (forall x: Item :: x.id == id ==> t.queue.heap[x] == s.queue.heap[x])
    && (forall r: Request :: r.id == id ==> (r in t.pending <==> r in s.pending))
  }

  /** A visit cancels, lowers by the drop of the policy, or does nothing. */
  lemma VisitMeans(env: Env, cfg: Aging.Config, s: Sched, r: Request, now: real)
    ensures var t, drop := Visit(env, cfg, s, r, now), Aging.Drop(env.curves, cfg, now - r.created);
            t == if now - r.created > env.timeout then Cancel(s, r.id)
                 else if drop == 0.0 then s
                 else s.(queue := Q.Apply(s.queue, Q.Update(r.id, PriorityOf(s, r.id) - drop, r.id in s.queue.pending)),
                         priority := s.priority[r.id := PriorityOf(s, r.id) - drop])
  {
    Aging.VisitDrops(env.curves, cfg, now - r.created, PriorityOf(s, r.id));
  }

  lemma CancelOther(s: Sched, id: Id, other: Id)
    requires UniqueIds(s.pending) && id != other
    ensures SameOf(s, Cancel(s, other), id) && UniqueIds(Cancel(s, other).pending)
  {
    RemoveKeeps(s.pending, other);
  }

  lemma UpdateOther(s: Sched, id: Id, other: Id, p: real)
    requires id != other
    ensures SameOf(s, s.(queue := Q.Apply(s.queue, Q.Update(other, p, other in s.queue.pending)),
                         priority := s.priority[other := p]), id)
  {
  }

  /** A visit of another request changes nothing for this one. */
  lemma VisitOther(env: Env, cfg: Aging.Config, s: Sched, r: Request, now: real, id: Id)
    requires UniqueIds(s.pending)
    ensures UniqueIds(Visit(env, cfg, s, r, now).pending)
    ensures r.id != id ==> SameOf(s, Visit(env, cfg, s, r, now), id)
  {
    VisitMeans(env, cfg, s, r, now);
    RemoveKeeps(s.pending, r.id);
    if r.id != id {
      CancelOther(s, id, r.id);
      UpdateOther(s, id, r.id, PriorityOf(s, r.id) - Aging.Drop(env.curves, cfg, now - r.created));
    }
  }

  lemma SameTransitive(s: Sched, t: Sched, u: Sched, id: Id)
    requires SameOf(s, t, id) && SameOf(t, u, id)
    ensures SameOf(s, u, id)
  {
  }

  /** Visits of other requests change nothing for this one. */
  lemma {:induction false} VisitsOfOthers(env: Env, cfg: Aging.Config, s: Sched, todo: seq<Request>, now: real, id: Id)
    requires UniqueIds(s.pending)
    ensures UniqueIds(VisitAll(env, cfg, s, todo, now).pending)
    ensures !HasId(todo, id) ==> SameOf(s, VisitAll(env, cfg, s, todo, now), id)
    decreases |todo|
  {
    if todo != [] {
      var front, o := todo[..|todo|-1], todo[|todo|-1];
      var m := VisitAll(env, cfg, s, front, now);
      VisitsOfOthers(env, cfg, s, front, now, id);
      VisitOther(env, cfg, m, o, now, id);
      if !HasId(todo, id) {
        assert !HasId(front, id);
        SameTransitive(s, m, Visit(env, cfg, m, o, now), id);
      }
    }
  }

  /** The request was cancelled: unlisted, and marked if it is in the queue. */
  ghost predicate TimedOut(s: Sched, t: Sched, r: Request) {
    && PriorityOf(t, r.id) == PriorityOf(s, r.id) && !HasId(t.pending, r.id)
    && (r.id in t.queue.pending <==> r.id in s.queue.pending)
    && (r.id in t.queue.cancelled <==> r.id in s.queue.cancelled || r.id in s.queue.pending)
    && (forall x: Item :: x.id == r.id ==> t.queue.heap[x] == s.queue.heap[x])
  }

  /** The request was lowered by `drop`: in the queue it has an unmarked entry at
      its new priority, with its old time, of which the heap has one copy more. */
  ghost predicate Lowered(s: Sched, t: Sched, r: Request, drop: real) {
    && PriorityOf(t, r.id) == PriorityOf(s, r.id) - drop
    && (forall q: Request :: q.id == r.id ==> (q in t.pending <==> q in s.pending))
    && (r.id in t.queue.pending <==> r.id in s.queue.pending)
    && (r.id in s.queue.pending ==>
          var x := s.queue.pending[r.id];
          var y := Item(PriorityOf(t, r.id), x.time, r.id, x.payload);
          && t.queue.pending[r.id] == y && r.id !in t.queue.cancelled
          && t.queue.heap[y] == s.queue.heap[y] + 1
          && (forall z: Item :: z.id == r.id && z != y ==> t.queue.heap[z] == s.queue.heap[z]))
    && (r.id !in s.queue.pending ==>
          forall z: Item :: z.id == r.id ==> t.queue.heap[z] == s.queue.heap[z])
  }

  /** What a tick does to a request it visits. */
  ghost predicate Ticked(env: Env, cfg: Aging.Config, s: Sched, t: Sched, r: Request, now: real) {
    var drop := PriorityOf(s, r.id) - PriorityOf(t, r.id);
    if now - r.created > env.timeout then TimedOut(s, t, r)
    else Aging.PolicyDrop(env.curves, cfg, now - r.created, drop)
         && if drop == 0.0 then SameOf(s, t, r.id) else Lowered(s, t, r, drop)
  }

  lemma VisitTicks(env: Env, cfg: Aging.Config, s: Sched, r: Request, now: real)
    requires UniqueIds(s.pending)
    ensures Ticked(env, cfg, s, Visit(env, cfg, s, r, now), r, now)
  {
    var drop := Aging.Drop(env.curves, cfg, now - r.created);
    VisitMeans(env, cfg, s, r, now);
    RemoveKeeps(s.pending, r.id);
    assert Aging.PolicyDrop(env.curves, cfg, now - r.created, drop) by {
      Aging.DropIsPolicys(env.curves, cfg, now - r.created);
    }
  }

  lemma TickedFrom(env: Env, cfg: Aging.Config, s: Sched, m: Sched, t: Sched, r: Request, now: real)
    requires SameOf(s, m, r.id) && Ticked(env, cfg, m, t, r, now)
    ensures Ticked(env, cfg, s, t, r, now)
  {
  }

  lemma TickedTo(env: Env, cfg: Aging.Config, s: Sched, t: Sched, u: Sched, r: Request, now: real)
    requires Ticked(env, cfg, s, t, r, now) && SameOf(t, u, r.id)
    ensures Ticked(env, cfg, s, u, r, now)
  {
    if now - r.created > env.timeout {
      assert forall q :: q in u.pending && q.id == r.id ==> q in t.pending;
    }
  }

  lemma {:induction false} TickVisitsEach(env: Env, cfg: Aging.Config, s: Sched, todo: seq<Request>, now: real,
                                          r: Request)
    requires UniqueIds(s.pending) && UniqueIds(todo) && r in todo
    ensures Ticked(env, cfg, s, VisitAll(env, cfg, s, todo, now), r, now)
    decreases |todo|
  {
    var front, o := todo[..|todo|-1], todo[|todo|-1];
    var m := VisitAll(env, cfg, s, front, now);
    VisitsOfOthers(env, cfg, s, front, now, r.id);
    if o == r {
      assert !HasId(front, r.id);
      VisitTicks(env, cfg, m, r, now);
      TickedFrom(env, cfg, s, m, Visit(env, cfg, m, r, now), r, now);
    } else {
      assert todo == front + [o];
      TickVisitsEach(env, cfg, s, front, now, r);
      VisitOther(env, cfg, m, o, now, r.id);
      TickedTo(env, cfg, s, m, Visit(env, cfg, m, o, now), r, now);
    }
  }

  /** A tick is independent visits: each request it finds listed is cancelled, or
      lowered by exactly what the policy says, or left, and a request it does not find
      is not touched. */
  lemma TickEffect(env: Env, cfg: Aging.Config, s: Sched, todo: seq<Request>, now: real)
    requires UniqueIds(s.pending) && UniqueIds(todo)
    ensures var t := VisitAll(env, cfg, s, todo, now);
            && (forall r :: r in todo ==> Ticked(env, cfg, s, t, r, now))
            && (forall id :: !HasId(todo, id) ==> SameOf(s, t, id))
  {
    var t := VisitAll(env, cfg, s, todo, now);
    forall r | r in todo ensures Ticked(env, cfg, s, t, r, now) {
      TickVisitsEach(env, cfg, s, todo, now, r);
    }
    forall id | !HasId(todo, id) ensures SameOf(s, t, id) {
      VisitsOfOthers(env, cfg, s, todo, now, id);
    }
  }
}
