/** The C++ twin of the queue and of its scheduler's `acquire`.  Its aging pass
    rewrites the copies in the pending table only. */
module CppQueue {
  import opened Wrappers
  import opened Requests
  import opened LazyQueue
  import opened QueueLaws
  import opened HeapArray
  import opened Numbers
  import opened WaitWindow

  /** The priority the aging pass gives a pending item; times are in nanoseconds. */
  function AgedPriority(item: Item, factor: real, maxBoost: real, now: real): real {
    Max(1.0, item.priority - Min(maxBoost, factor * ((now - item.time) / 1000000000.0) * 1000.0))
  }

  /** What the pass may do to a priority: lower it by the boost, a thousand times
      the factor per second up to the cap, but to no less than 1. */
  ghost predicate Aged(old': Item, new': Item, factor: real, maxBoost: real, now: real) {
    var seconds := (now - old'.time) / 1000000000.0;
    var boost := factor * seconds * 1000.0;
    && new' == old'.(priority := new'.priority) && new'.priority >= 1.0
    && (new'.priority == 1.0 || new'.priority == old'.priority - boost || new'.priority == old'.priority - maxBoost)
    && (boost <= maxBoost && old'.priority - boost >= 1.0 ==> new'.priority == old'.priority - boost)
    && (boost >= maxBoost && old'.priority - maxBoost >= 1.0 ==> new'.priority == old'.priority - maxBoost)
    && (boost >= 0.0 && maxBoost >= 0.0 ==> new'.priority <= old'.priority || new'.priority == 1.0)
  }

  lemma AgedPriorityAges(item: Item, factor: real, maxBoost: real, now: real)
    ensures Aged(item, item.(priority := AgedPriority(item, factor, maxBoost, now)), factor, maxBoost, now)
  {
  }

  function AgedPriorities(pending: map<Id, Item>, factor: real, maxBoost: real, now: real): map<Id, real> {
    map id | id in pending :: AgedPriority(pending[id], factor, maxBoost, now)
  }

  /** How many milliseconds the item has waited. */
  function WaitMs(item: Item, now: real): (ms: real)
    ensures item.time + ms * 1000000.0 == now
  {
    (now - item.time) / 1000000.0
  }

  class PriorityQueue {
    var heap: seq<Item>
    var pending: map<Id, Item>
    var cancelled: set<Id>
    var totalEnqueued: nat
    var totalDequeued: nat
    var waitMs: seq<real>
    ghost var discarded: nat
    ghost var history: seq<real>

    ghost function Abs(): State
      reads this
    {
      State(multiset(heap), pending, cancelled, totalEnqueued, totalDequeued, discarded, 0)
    }

    /** The window holds the latest 10000 waits, or all if there are fewer. */
    ghost predicate WindowOk()
      reads this
    {
      && IsLatest(waitMs, history)
      && |waitMs| == if |history| <= 10000 then |history| else 10000
    }

    /** The heap and the tables agree. */
    ghost predicate TablesOk()
      reads this
    {
      IsHeap(PriorityThenTime, heap) && Sound(Abs()) && Balanced(Abs())
    }

    ghost predicate Valid()
      reads this
    {
      TablesOk() && WindowOk() && |history| == totalDequeued
    }

    constructor ()
      ensures Valid() && Abs() == EMPTY
    {
      heap, pending, cancelled := [], map[], {};
      totalEnqueued, totalDequeued, discarded := 0, 0, 0;
      waitMs, history := [], [];
    }

    twostate lemma StepKeepsValid(e: Event)
      requires old(TablesOk()) && Enabled(PriorityThenTime, old(Abs()), e)
      requires IsHeap(PriorityThenTime, heap) && Abs() == Apply(old(Abs()), e)
      ensures TablesOk()
    {
      StepKeepsSound(PriorityThenTime, old(Abs()), e);
    }

    method Enqueue(req: Request, predictedTokens: real, now: real)
      requires Valid()
      modifies this
      ensures Valid() && history == old(history)
      ensures var priority := if predictedTokens > 0.0 then predictedTokens else req.maxTokens as real;
              Abs() == Apply(old(Abs()), Event.Enqueue(Item(priority, now, req.id, req)))
    {
      var priority := if predictedTokens > 0.0 then predictedTokens else req.maxTokens as real;
      var item := Item(priority, now, req.id, req);
      pending := pending[req.id := item];
      heap := HeapPush(PriorityThenTime, heap, item);
      totalEnqueued := totalEnqueued + 1;
      StepKeepsValid(Event.Enqueue(item));
    }

    method Cancel(id: Id) returns (ok: bool)
      requires Valid()
      modifies this`cancelled
      ensures Valid() && ok == (id in old(pending))
      ensures Abs() == Apply(old(Abs()), Event.Cancel(id, ok))
    {
      ok := id in pending;
      if ok {
        cancelled := cancelled + {id};
      }
      StepKeepsValid(Event.Cancel(id, ok));
    }

    method RewritePending(factor: real, maxBoost: real, now: real)
      modifies this`pending
      ensures pending == map id | id in old(pending) ::
                old(pending)[id].(priority := AgedPriority(old(pending)[id], factor, maxBoost, now))
    {
      var todo := pending.Keys;
      while todo != {}
        invariant todo <= pending.Keys == old(pending).Keys
        invariant forall id :: id in todo ==> pending[id] == old(pending)[id]
        invariant forall id :: id in pending && id !in todo ==>
                    pending[id] == old(pending)[id].(priority := AgedPriority(old(pending)[id], factor, maxBoost, now))
        decreases |todo|
      {
        var id :| id in todo;
        pending := pending[id := pending[id].(priority := AgedPriority(pending[id], factor, maxBoost, now))];
        todo := todo - {id};
      }
    }

    method ApplyAging(factor: real, maxBoost: real, now: real)
      requires Valid()
      modifies this`pending
      ensures Valid()
      ensures Abs() == Apply(old(Abs()), Age(AgedPriorities(old(pending), factor, maxBoost, now)))
      ensures pending.Keys == old(pending).Keys
      ensures forall id :: id in pending ==> Aged(old(pending)[id], pending[id], factor, maxBoost, now)
    {
      RewritePending(factor, maxBoost, now);
      forall id | id in pending ensures Aged(old(pending)[id], pending[id], factor, maxBoost, now) {
        AgedPriorityAges(old(pending)[id], factor, maxBoost, now);
      }
      StepKeepsValid(Age(AgedPriorities(old(pending), factor, maxBoost, now)));
    }

    method RecordWait(ms: real)
      requires WindowOk()
      modifies this`waitMs, this`history
      ensures WindowOk() && history == old(history) + [ms] && Abs() == old(Abs())
    {
      LatestOneMore(waitMs, history, ms, |waitMs|);
      waitMs, history := waitMs + [ms], history + [ms];
      if |waitMs| > 10000 {
        waitMs := waitMs[1..];
      }
    }

    method PopOne() returns (item: Item, dropped: bool)
      requires TablesOk() && heap != []
      modifies this`heap, this`pending, this`cancelled, this`totalDequeued, this`discarded
      ensures TablesOk() && |heap| < |old(heap)|
      ensures dropped == (item.id in old(cancelled))
      ensures var e := if dropped then Event.Discard(item) else Event.Deliver(item);
              Enabled(PriorityThenTime, old(Abs()), e) && Abs() == Apply(old(Abs()), e)
    {
      item, heap := HeapPop(PriorityThenTime, heap);
      dropped := item.id in cancelled;
      pending := pending - {item.id};
      if dropped {
        cancelled := cancelled - {item.id};
        discarded := discarded + 1;
        StepKeepsValid(Event.Discard(item));
      } else {
        totalDequeued := totalDequeued + 1;
        StepKeepsValid(Event.Deliver(item));
      }
      assert |multiset(heap)| < |multiset(old(heap))|;
    }

    /** Pops until an item is not cancelled. */
    method PopLive() returns (got: Option<Item>, ghost discards: seq<Item>)
      requires TablesOk()
      modifies this`heap, this`pending, this`cancelled, this`totalDequeued, this`discarded
      ensures TablesOk() && Dequeues(PriorityThenTime, old(Abs()), discards, got)
      ensures Abs() == After(old(Abs()), Pops(discards, got))
      ensures totalDequeued == old(totalDequeued) + if got.Some? then 1 else 0
      ensures got.None? ==> heap == [] && pending == map[] && cancelled == {}
    {
      discards := [];
      while heap != []
        invariant TablesOk() && totalDequeued == old(totalDequeued)
        invariant Legal(PriorityThenTime, old(Abs()), Discards(discards))
        invariant Abs() == After(old(Abs()), Discards(discards))
        decreases |heap|
      {
        var item, dropped := PopOne();
        if dropped {
          DiscardOneMore(PriorityThenTime, old(Abs()), discards, item);
          discards := discards + [item];
        } else {
          PassDelivers(PriorityThenTime, old(Abs()), discards, item);
          got := Some(item);
          return;
        }
      }
      got := None;
      PassDrains(PriorityThenTime, old(Abs()), discards);
      EmptyLeavesNothing(Abs());
    }

    /** The part of a dequeue after its wait.  Unlike its twins it does not wait
        again when every item it popped was cancelled. */
    method Dequeue(now: real) returns (got: Option<Item>, ghost discards: seq<Item>)
      requires Valid()
      modifies this
      ensures Valid() && Dequeues(PriorityThenTime, old(Abs()), discards, got)
      ensures Abs() == After(old(Abs()), Pops(discards, got))
      ensures history == if got.Some? then old(history) + [WaitMs(got.value, now)] else old(history)
      ensures got.None? ==> heap == [] && pending == map[] && cancelled == {}
    {
      got, discards := PopLive();
      if got.Some? {
        RecordWait(WaitMs(got.value, now));
      }
    }

    /** The scheduler's acquire: an aging pass, then a dequeue. */
    method Acquire(now: real) returns (got: Option<Item>, ghost run: seq<Event>)
      requires Valid()
      modifies this
      ensures Valid() && Legal(PriorityThenTime, old(Abs()), run) && Abs() == After(old(Abs()), run)
      ensures exists discards :: run == [Age(AgedPriorities(old(pending), 0.001, 500.0, now))] + Pops(discards, got)
      ensures got.None? ==> heap == [] && pending == map[] && cancelled == {}
    {
      ghost var age := Age(AgedPriorities(pending, 0.001, 500.0, now));
      ApplyAging(0.001, 500.0, now);
      ghost var discards;
      got, discards := Dequeue(now);
      RunOne(PriorityThenTime, old(Abs()), age);
      RunConcat(PriorityThenTime, old(Abs()), [age], Pops(discards, got));
      run := [age] + Pops(discards, got);
    }
  }
}
