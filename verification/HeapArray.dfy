/** Binary heaps in a sequence: the order invariant, what one sift step keeps,
    and push and pop over a dynamic array. */
module HeapArray {
  import opened Requests

  function Parent(i: int): int
    requires 0 < i
  {
    (i - 1) / 2
  }

  ghost predicate IsHeap(ord: Order, h: seq<Item>) {
    forall i :: 0 < i < |h| ==> Before(ord, h[Parent(i)], h[i])
  }

  /** A heap but for slot `j`, which may be smaller than its parent. */
  ghost predicate HeapUpTo(ord: Order, h: seq<Item>, j: nat) {
    && (forall i :: 0 < i < |h| && i != j ==> Before(ord, h[Parent(i)], h[i]))
    && (forall i :: 0 < i < |h| && 0 < j < |h| && Parent(i) == j ==> Before(ord, h[Parent(j)], h[i]))
  }

  /** A heap but for slot `j`, which may be larger than its children. */
  ghost predicate HeapBelow(ord: Order, h: seq<Item>, j: nat) {
    && (forall i :: 0 < i < |h| && Parent(i) != j ==> Before(ord, h[Parent(i)], h[i]))
    && (forall i :: 0 < i < |h| && 0 < j < |h| && Parent(i) == j ==> Before(ord, h[Parent(j)], h[i]))
  }

  function Swap<T>(h: seq<T>, i: nat, j: nat): (r: seq<T>)
    requires i < |h| && j < |h|
    ensures |r| == |h| && r[i] == h[j] && r[j] == h[i]
    ensures forall k :: 0 <= k < |h| && k != i && k != j ==> r[k] == h[k]
    ensures multiset(r) == multiset(h)
  {
    h[i := h[j]][j := h[i]]
  }

  lemma SiftUpStep(ord: Order, h: seq<Item>, j: nat)
    requires 0 < j < |h| && HeapUpTo(ord, h, j) && !Before(ord, h[Parent(j)], h[j])
    ensures HeapUpTo(ord, Swap(h, Parent(j), j), Parent(j))
  {
    var p := Parent(j);
    var r := Swap(h, p, j);
    forall i | 0 < i < |r| && i != p
      ensures Before(ord, r[Parent(i)], r[i])
    {
      assert i != j ==> Before(ord, h[Parent(i)], h[i]);
    }
    forall i | 0 < i < |r| && 0 < p < |r| && Parent(i) == p
      ensures Before(ord, r[Parent(p)], r[i])
    {
      assert Before(ord, h[Parent(p)], h[p]);
    }
  }

  lemma SiftUpDone(ord: Order, h: seq<Item>, j: nat)
    requires j < |h| && HeapUpTo(ord, h, j) && (j == 0 || Before(ord, h[Parent(j)], h[j]))
    ensures IsHeap(ord, h)
  {
  }

  /** `c` is the child of `j` that comes first. */
  ghost predicate FirstChild(ord: Order, h: seq<Item>, j: nat, c: nat) {
    && 0 < c < |h| && j < |h| && Parent(c) == j
    && (forall i :: 0 < i < |h| && Parent(i) == j ==> Before(ord, h[c], h[i]))
  }

  lemma SiftDownStep(ord: Order, h: seq<Item>, j: nat, c: nat)
    requires FirstChild(ord, h, j, c) && HeapBelow(ord, h, j) && !Before(ord, h[j], h[c])
    ensures HeapBelow(ord, Swap(h, j, c), c)
  {
    var r := Swap(h, j, c);
    forall i | 0 < i < |r| && Parent(i) != c
      ensures Before(ord, r[Parent(i)], r[i])
    {
      if Parent(i) != j {
        assert Before(ord, h[Parent(i)], h[i]);
      }
    }
    forall i | 0 < i < |r| && Parent(i) == c
      ensures Before(ord, r[Parent(c)], r[i])
    {
      assert Before(ord, h[Parent(i)], h[i]);
    }
  }

  lemma SiftDownDone(ord: Order, h: seq<Item>, j: nat)
    requires HeapBelow(ord, h, j)
    requires forall i :: 0 < i < |h| && Parent(i) == j ==> Before(ord, h[j], h[i])
    ensures IsHeap(ord, h)
  {
  }

  lemma {:induction false} RootBefore(ord: Order, h: seq<Item>, i: nat)
    requires IsHeap(ord, h) && i < |h|
    ensures Before(ord, h[0], h[i])
    decreases i
  {
    if i > 0 {
      RootBefore(ord, h, Parent(i));
    }
  }

  /** The root of a heap is a first item of its contents. */
  lemma RootIsFirst(ord: Order, h: seq<Item>)
    requires IsHeap(ord, h) && h != []
    ensures IsFirst(ord, h[0], multiset(h))
  {
    forall y | y in multiset(h)
      ensures Before(ord, h[0], y)
    {
      var i :| 0 <= i < |h| && h[i] == y;
      RootBefore(ord, h, i);
    }
  }

  method HeapPush(ord: Order, heap: seq<Item>, x: Item) returns (h: seq<Item>)
    requires IsHeap(ord, heap)
    ensures IsHeap(ord, h) && multiset(h) == multiset(heap) + multiset{x}
  {
    h := heap + [x];
    var j := |heap|;
    while j > 0 && !Before(ord, h[Parent(j)], h[j])
      invariant 0 <= j < |h|
      invariant HeapUpTo(ord, h, j)
      invariant multiset(h) == multiset(heap) + multiset{x}
      decreases j
    {
      SiftUpStep(ord, h, j);
      h := Swap(h, Parent(j), j);
      j := Parent(j);
    }
    SiftUpDone(ord, h, j);
  }

  lemma ReplaceRoot(heap: seq<Item>)
    requires |heap| > 1
    ensures multiset(heap[..|heap|-1][0 := heap[|heap|-1]]) == multiset(heap) - multiset{heap[0]}
  {
    var last := heap[|heap|-1];
    assert heap == [heap[0]] + heap[1..|heap|-1] + [last];
    assert heap[..|heap|-1][0 := last] == [last] + heap[1..|heap|-1];
  }

  method ChooseChild(ord: Order, h: seq<Item>, j: nat) returns (c: nat)
    requires 2 * j + 1 < |h|
    ensures FirstChild(ord, h, j, c) && c > j
  {
    c := 2 * j + 1;
    if c + 1 < |h| && !Before(ord, h[c], h[c + 1]) {
      c := c + 1;
    }
  }

  method SiftDown(ord: Order, heap: seq<Item>) returns (h: seq<Item>)
    requires heap != [] && HeapBelow(ord, heap, 0)
    ensures IsHeap(ord, h) && multiset(h) == multiset(heap)
  {
    h := heap;
    var j := 0;
    while 2 * j + 1 < |h|
      invariant 0 <= j < |h| == |heap|
      invariant HeapBelow(ord, h, j)
      invariant multiset(h) == multiset(heap)
      decreases |h| - j
    {
      var c := ChooseChild(ord, h, j);
      if Before(ord, h[j], h[c]) {
        break;
      }
      SiftDownStep(ord, h, j, c);
      h := Swap(h, j, c);
      j := c;
    }
    SiftDownDone(ord, h, j);
  }

  method HeapPop(ord: Order, heap: seq<Item>) returns (x: Item, h: seq<Item>)
    requires IsHeap(ord, heap) && heap != []
    ensures IsFirst(ord, x, multiset(heap))
    ensures IsHeap(ord, h) && multiset(h) == multiset(heap) - multiset{x}
  {
    RootIsFirst(ord, heap);
    x := heap[0];
    h := heap[..|heap|-1];
    if h == [] {
      assert heap == [x];
    } else {
      ReplaceRoot(heap);
      h := SiftDown(ord, h[0 := heap[|heap|-1]]);
    }
  }
}
