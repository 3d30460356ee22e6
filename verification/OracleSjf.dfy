/** The oracle scheduler: a batch served in order of true length waits least. */
module OracleSjf {
  import opened Requests
  import opened LazyQueue
  import opened Sequences

  /** The item the oracle scheduler enqueues: its priority is `max_tokens`. */
  function OracleItem(r: Request, now: real): Item {
    Item(r.maxTokens as real, now, r.id, r)
  }

  /** Total time the jobs of a serial schedule wait before they start. */
  function TotalWait(jobs: seq<real>): real {
    if jobs == [] then 0.0 else
      Times(|jobs| - 1, jobs[0]) + TotalWait(jobs[1..])
  }

  /** `n` times `x`. */
  function Times(n: nat, x: real): real {
    if n == 0 then 0.0 else Times(n - 1, x) + x
  }

  function Sum(jobs: seq<real>): real {
    if jobs == [] then 0.0 else jobs[0] + Sum(jobs[1..])
  }

  /** The definition is what it says: each job waits for all jobs before it. */
  lemma {:induction false} TotalWaitMeaning(jobs: seq<real>, last: real)
    ensures TotalWait(jobs + [last]) == TotalWait(jobs) + Sum(jobs)
    decreases |jobs|
  {
    if jobs == [] {
      assert (jobs + [last])[1..] == [];
    } else {
      assert (jobs + [last])[1..] == jobs[1..] + [last];
      TotalWaitMeaning(jobs[1..], last);
    }
  }

  /** Serving a shortest job first, before jobs that it preceded by `k` places,
      does not increase the total. */
  lemma {:induction false} MoveToFront(jobs: seq<real>, k: nat)
    requires k < |jobs| && forall i :: 0 <= i < |jobs| ==> jobs[k] <= jobs[i]
    ensures TotalWait([jobs[k]] + (jobs[..k] + jobs[k + 1..])) <= TotalWait(jobs)
    decreases k
  {
    if k == 0 {
      assert [jobs[0]] + (jobs[..0] + jobs[1..]) == jobs;
    } else {
      var rest, n := jobs[1..], |jobs| - 2;
      MoveToFront(rest, k - 1);
      var tail := rest[..k - 1] + rest[k..];
      assert jobs[..k] + jobs[k + 1..] == [jobs[0]] + tail;
      TotalWaitCons(jobs[k], [jobs[0]] + tail);
      TotalWaitCons(jobs[0], tail);
      TotalWaitCons(jobs[k], tail);
      assert Times(n + 1, jobs[k]) + Times(n, jobs[0]) <= Times(n + 1, jobs[0]) + Times(n, jobs[k]);
    }
  }

  /** A shortest job, found in another order of the same jobs. */
  lemma FindShortest(jobs: seq<real>, other: seq<real>) returns (k: nat)
    requires Ascending(jobs) && multiset(jobs) == multiset(other) && jobs != []
    ensures k < |other| && other[k] == jobs[0]
    ensures forall i :: 0 <= i < |other| ==> other[k] <= other[i]
  {
    assert jobs[0] in multiset(other);
    k :| 0 <= k < |other| && other[k] == jobs[0];
    forall i | 0 <= i < |other| ensures other[k] <= other[i] {
      assert other[i] in multiset(jobs);
    }
  }

  lemma TotalWaitCons(x: real, xs: seq<real>)
    ensures TotalWait([x] + xs) == Times(|xs|, x) + TotalWait(xs)
  {
    assert ([x] + xs)[1..] == xs;
  }

  /** The shortest-first order minimises the total over all permutations. */
  lemma {:induction false} AscendingIsOptimal(jobs: seq<real>, other: seq<real>)
    requires Ascending(jobs) && multiset(jobs) == multiset(other)
    ensures TotalWait(jobs) <= TotalWait(other)
    decreases |jobs|
  {
    if jobs == [] {
      assert |multiset(other)| == |other|;
    } else {
      var k := FindShortest(jobs, other);
      var rest := other[..k] + other[k + 1..];
      MoveToFront(other, k);
      DropBoth(jobs, other, k);
      AscendingIsOptimal(jobs[1..], rest);
      TotalWaitCons(other[k], rest);
      assert TotalWait(jobs) == Times(|jobs| - 1, jobs[0]) + TotalWait(jobs[1..]);
    }
  }

  // ------------------------------------------------------- batches and drains

  /** The items of a batch submitted at the given times. */
  function Items(batch: seq<Request>, times: seq<real>): (items: seq<Item>)
    requires |batch| == |times|
    ensures |items| == |batch|
    ensures forall i :: 0 <= i < |batch| ==> items[i] == OracleItem(batch[i], times[i])
  {
    if batch == [] then [] else
      var n := |batch| - 1;
      Items(batch[..n], times[..n]) + [OracleItem(batch[n], times[n])]
  }

  function Submissions(batch: seq<Request>, times: seq<real>): seq<Event>
    requires |batch| == |times|
  {
    if batch == [] then [] else
      var n := |batch| - 1;
      Submissions(batch[..n], times[..n]) + [Enqueue(OracleItem(batch[n], times[n]))]
  }

  lemma {:induction false} SubmittedBatch(ord: Order, batch: seq<Request>, times: seq<real>)
    requires |batch| == |times|
    ensures Legal(ord, EMPTY, Submissions(batch, times))
    ensures var s := After(EMPTY, Submissions(batch, times));
            s.heap == multiset(Items(batch, times)) && s.cancelled == {}
    decreases |batch|
  {
    if batch != [] {
      var n := |batch| - 1;
      SubmittedBatch(ord, batch[..n], times[..n]);
      RunSnoc(ord, EMPTY, Submissions(batch[..n], times[..n]), Enqueue(OracleItem(batch[n], times[n])));
    }
  }

  /** The items popped and served by a run. */
  function Served(run: seq<Event>): seq<Item> {
    if run == [] then [] else
      Served(run[..|run|-1]) + if run[|run|-1].Deliver? then [run[|run|-1].item] else []
  }

  predicate OnlyPops(run: seq<Event>) {
    forall i :: 0 <= i < |run| ==> run[i].Discard? || run[i].Deliver?
  }

  ghost predicate SortedBefore(ord: Order, items: seq<Item>, rest: multiset<Item>) {
    && (forall i, j :: 0 <= i < j < |items| ==> Before(ord, items[i], items[j]))
    && (forall i, x :: 0 <= i < |items| && x in rest ==> Before(ord, items[i], x))
  }

  /** A drain of a queue without cancel marks serves its contents in order. */
  lemma {:induction false} DrainIsSorted(ord: Order, s: State, run: seq<Event>)
    requires Legal(ord, s, run) && s.cancelled == {} && OnlyPops(run)
    ensures After(s, run).cancelled == {}
    ensures multiset(Served(run)) + After(s, run).heap == s.heap
    ensures SortedBefore(ord, Served(run), After(s, run).heap)
    decreases |run|
  {
    if run != [] {
      var front, e := run[..|run|-1], run[|run|-1];
      DrainIsSorted(ord, s, front);
      DrainStep(ord, After(s, front), e, Served(front));
    }
  }

  lemma DrainStep(ord: Order, s: State, e: Event, served: seq<Item>)
    requires Enabled(ord, s, e) && s.cancelled == {} && (e.Discard? || e.Deliver?)
    requires SortedBefore(ord, served, s.heap)
    ensures e.Deliver? && Apply(s, e).cancelled == {}
    ensures SortedBefore(ord, served + [e.item], Apply(s, e).heap)
    ensures multiset(served + [e.item]) + Apply(s, e).heap == multiset(served) + s.heap
  {
    assert forall x :: x in Apply(s, e).heap ==> x in s.heap;
  }

  lemma ServedAscending(ord: Order, served: seq<Item>, items: seq<Item>, service: int -> real)
    requires SortedBefore(ord, served, multiset{}) && multiset(served) == multiset(items)
    requires forall i :: 0 <= i < |items| ==> items[i].priority == items[i].payload.maxTokens as real
    requires forall a, b :: a <= b ==> service(a) <= service(b)
    ensures Ascending(Map((x: Item) => service(x.payload.maxTokens), served))
  {
    forall i | 0 <= i < |served|
      ensures served[i].priority == served[i].payload.maxTokens as real
    {
      assert served[i] in multiset(items);
    }
    forall i, j | 0 <= i < j < |served|
      ensures service(served[i].payload.maxTokens) <= service(served[j].payload.maxTokens)
    {
      assert Before(ord, served[i], served[j]);
    }
  }

  /** Oracle SJF is optimal: for any batch submitted and then drained serially,
      with service times that grow with `max_tokens`, no order of the same
      requests waits less in total; in particular not the order of submission, in
      which the first-come-first-served scheduler serves them. */
  lemma OracleIsOptimal(ord: Order, batch: seq<Request>, times: seq<real>, drain: seq<Event>,
                        service: int -> real, order: seq<Request>)
    requires |batch| == |times| && OnlyPops(drain)
    requires Legal(ord, EMPTY, Submissions(batch, times) + drain)
    requires After(EMPTY, Submissions(batch, times) + drain).heap == multiset{}
    requires forall a, b :: a <= b ==> service(a) <= service(b)
    requires multiset(order) == multiset(batch)
    ensures TotalWait(Map((x: Item) => service(x.payload.maxTokens), Served(drain)))
         <= TotalWait(Map((r: Request) => service(r.maxTokens), order))
  {
    var items, served := Items(batch, times), Served(drain);
    var ofItem, ofRequest := (x: Item) => service(x.payload.maxTokens), (r: Request) => service(r.maxTokens);
    DrainedBatch(ord, batch, times, drain);
    ServedAscending(ord, served, items, service);
    MapPermutation(ofItem, served, items);
    MapPermutation(ofRequest, order, batch);
    assert Map(ofItem, items) == Map(ofRequest, batch);
    AscendingIsOptimal(Map(ofItem, served), Map(ofRequest, order));
  }

  lemma DrainedBatch(ord: Order, batch: seq<Request>, times: seq<real>, drain: seq<Event>)
    requires |batch| == |times| && OnlyPops(drain)
    requires Legal(ord, EMPTY, Submissions(batch, times) + drain)
    requires After(EMPTY, Submissions(batch, times) + drain).heap == multiset{}
    ensures multiset(Served(drain)) == multiset(Items(batch, times))
    ensures SortedBefore(ord, Served(drain), multiset{})
  {
    SubmittedBatch(ord, batch, times);
    RunConcat(ord, EMPTY, Submissions(batch, times), drain);
    DrainIsSorted(ord, After(EMPTY, Submissions(batch, times)), drain);
  }
}
