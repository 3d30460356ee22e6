/** The percentile used by the benchmark reports. */
module Percentile {
  import opened Numbers
  import opened Sequences

  function Insert(x: real, xs: seq<real>): seq<real> {
    if xs == [] || x <= xs[0] then [x] + xs else [xs[0]] + Insert(x, xs[1..])
  }

  function Sorted(data: seq<real>): seq<real> {
    if data == [] then [] else Insert(data[0], Sorted(data[1..]))
  }

  lemma HeadFirst(x: real, xs: seq<real>, rest: seq<real>)
    requires xs != [] && Ascending(xs) && xs[0] <= x
    requires Ascending(rest) && multiset(rest) == multiset(xs[1..]) + multiset{x}
    ensures Ascending([xs[0]] + rest) && multiset([xs[0]] + rest) == multiset(xs) + multiset{x}
  {
    assert xs == [xs[0]] + xs[1..];
    forall i | 0 <= i < |rest| ensures xs[0] <= rest[i] {
      assert rest[i] in multiset(rest);
    }
  }

  lemma {:induction false} InsertSorts(x: real, xs: seq<real>)
    requires Ascending(xs)
    ensures Ascending(Insert(x, xs)) && multiset(Insert(x, xs)) == multiset(xs) + multiset{x}
    decreases |xs|
  {
    if xs != [] && x > xs[0] {
      InsertSorts(x, xs[1..]);
      HeadFirst(x, xs, Insert(x, xs[1..]));
    }
  }

  lemma {:induction false} SortedSorts(data: seq<real>)
    ensures Ascending(Sorted(data)) && multiset(Sorted(data)) == multiset(data) && |Sorted(data)| == |data|
    decreases |data|
  {
    if data != [] {
      SortedSorts(data[1..]);
      InsertSorts(data[0], Sorted(data[1..]));
      assert data == [data[0]] + data[1..];
    }
    assert |multiset(Sorted(data))| == |Sorted(data)| && |multiset(data)| == |data|;
  }

  /** The index for a position `x` among `n` sorted data. */
  function Index(n: nat, x: real): int {
    var k := Trunc(x) - 1;
    var low := if k < 0 then 0 else k;
    if low < n - 1 then low else n - 1
  }

  /** The value at position `x` of the data in order. */
  function ValueAt(data: seq<real>, x: real): real
    requires data != []
    ensures 0 <= Index(|data|, x) < |Sorted(data)|
  {
    SortedSorts(data);
    Sorted(data)[Index(|data|, x)]
  }

  function Value(data: seq<real>, p: real): real {
    if data == [] then 0.0 else ValueAt(data, |data| as real * p)
  }

  /** How many of the data are below a value, and how many are at most it. */
  ghost function Below(data: seq<real>, v: real): nat {
    multiset(Map((x: real) => x < v, data))[true]
  }

  ghost function AtMost(data: seq<real>, v: real): nat {
    multiset(Map((x: real) => x <= v, data))[true]
  }

  lemma {:induction false} TruesUpTo(flags: seq<bool>)
    ensures multiset(flags)[true] <= |flags|
    ensures (forall i :: 0 <= i < |flags| ==> flags[i]) ==> multiset(flags)[true] == |flags|
    ensures (forall i :: 0 <= i < |flags| ==> !flags[i]) ==> multiset(flags)[true] == 0
    decreases |flags|
  {
    if flags != [] {
      TruesUpTo(flags[1..]);
      assert flags == [flags[0]] + flags[1..];
    }
  }

  lemma TruesSplit(flags: seq<bool>, k: nat)
    requires k <= |flags|
    ensures (forall i :: k <= i < |flags| ==> !flags[i]) ==> multiset(flags)[true] <= k
    ensures (forall i :: 0 <= i < k ==> flags[i]) ==> multiset(flags)[true] >= k
  {
    assert flags == flags[..k] + flags[k..];
    TruesUpTo(flags[..k]);
    TruesUpTo(flags[k..]);
  }

  /** An integer between 1 and n. */
  function Clamp(k: int, n: nat): nat
    requires n > 0
  {
    if k < 1 then 1 else if k > n then n else k
  }

  lemma IndexIsRank(n: nat, x: real, k: int)
    requires n > 0 && RoundsDownTo(x, k)
    ensures 0 <= Index(n, x) == Clamp(k, n) - 1 < n
  {
    TruncIsFloor(x, k);
  }

  lemma SortedRank(sorted: seq<real>, k: nat)
    requires Ascending(sorted) && k < |sorted|
    ensures Below(sorted, sorted[k]) <= k && AtMost(sorted, sorted[k]) >= k + 1
  {
    var v := sorted[k];
    TruesSplit(Map((x: real) => x < v, sorted), k);
    TruesSplit(Map((x: real) => x <= v, sorted), k + 1);
  }

  lemma CountsPermute(xs: seq<real>, ys: seq<real>, v: real)
    requires multiset(xs) == multiset(ys)
    ensures Below(xs, v) == Below(ys, v) && AtMost(xs, v) == AtMost(ys, v)
  {
    MapPermutation((x: real) => x < v, xs, ys);
    MapPermutation((x: real) => x <= v, xs, ys);
  }

  lemma RankOfIndex(data: seq<real>, i: nat)
    requires i < |data| == |Sorted(data)|
    ensures var v := Sorted(data)[i];
            Below(data, v) <= i && AtMost(data, v) >= i + 1 && v in data
  {
    SortedSorts(data);
    SortedRank(Sorted(data), i);
    CountsPermute(Sorted(data), data, Sorted(data)[i]);
    assert Sorted(data)[i] in multiset(data);
  }

  lemma RankAt(data: seq<real>, x: real, k: int)
    requires data != [] && RoundsDownTo(x, k)
    ensures AtMost(data, ValueAt(data, x)) >= Clamp(k, |data|)
    ensures Below(data, ValueAt(data, x)) < Clamp(k, |data|)
    ensures ValueAt(data, x) in data
  {
    SortedSorts(data);
    IndexIsRank(|data|, x, k);
    RankOfIndex(data, Index(|data|, x));
  }

  /** The reported value is the k-th smallest of n data, where k is n p rounded
      down, and at least 1 and at most n: at least k of the data are at most it, fewer
      than k are below it, and it is one of them.  Without data it is 0. */
  lemma RankCorrect(data: seq<real>, p: real, k: int)
    requires RoundsDownTo(|data| as real * p, k)
    ensures data == [] ==> Value(data, p) == 0.0
    ensures data != [] ==>
              && AtMost(data, Value(data, p)) >= Clamp(k, |data|)
              && Below(data, Value(data, p)) < Clamp(k, |data|)
              && Value(data, p) in data
  {
    if data != [] {
      RankAt(data, |data| as real * p, k);
    }
  }

  /** No other value has that rank. */
  lemma RankDetermines(data: seq<real>, k: nat, v: real, w: real)
    requires AtMost(data, v) >= k > Below(data, v) && AtMost(data, w) >= k > Below(data, w)
    ensures v == w
  {
    if v < w {
      AtMostBelow(data, v, w);
    } else if w < v {
      AtMostBelow(data, w, v);
    }
  }

  lemma {:induction false} AtMostBelow(data: seq<real>, v: real, w: real)
    requires v < w
    ensures AtMost(data, v) <= Below(data, w)
    decreases |data|
  {
    if data != [] {
      AtMostBelow(data[1..], v, w);
      MapHead((x: real) => x <= v, data);
      MapHead((x: real) => x < w, data);
    }
  }

  lemma SameLeast(xs: seq<real>, ys: seq<real>)
    requires Ascending(xs) && Ascending(ys) && multiset(xs) == multiset(ys) && xs != [] && ys != []
    ensures xs[0] == ys[0]
  {
    assert xs[0] in multiset(ys) && ys[0] in multiset(xs);
  }

  lemma AscendingTail(xs: seq<real>)
    requires Ascending(xs) && xs != []
    ensures Ascending(xs[1..]) && xs == [xs[0]] + xs[1..]
  {
  }

  /** Sorting forgets the order of the input. */
  lemma {:induction false} SortedUnique(xs: seq<real>, ys: seq<real>)
    requires Ascending(xs) && Ascending(ys) && multiset(xs) == multiset(ys)
    ensures xs == ys
    decreases |xs|
  {
    assert |xs| == |ys| by {
      assert |multiset(xs)| == |xs| && |multiset(ys)| == |ys|;
    }
    if xs != [] {
      SameLeast(xs, ys);
      AscendingTail(xs);
      AscendingTail(ys);
      assert multiset(xs[1..]) == multiset(ys[1..]) by {
        DropBoth(xs, ys, 0);
        assert ys[..0] + ys[1..] == ys[1..];
      }
      SortedUnique(xs[1..], ys[1..]);
    }
  }

  /** The percentile does not depend on the order of the data. */
  lemma OrderIndependent(data: seq<real>, other: seq<real>, p: real)
    requires multiset(data) == multiset(other)
    ensures Value(data, p) == Value(other, p)
  {
    assert |multiset(data)| == |data| && |multiset(other)| == |other|;
    assert Sorted(data) == Sorted(other) by {
      SortedSorts(data);
      SortedSorts(other);
      SortedUnique(Sorted(data), Sorted(other));
    }
  }

  lemma TruncMonotone(x: real, y: real)
    requires x <= y
    ensures Trunc(x) <= Trunc(y)
  {
    assert x.Floor <= y.Floor;
    assert (-y).Floor <= (-x).Floor;
  }

  lemma IndexMonotone(n: nat, x: real, y: real)
    requires n > 0 && x <= y
    ensures 0 <= Index(n, x) <= Index(n, y) < n
  {
    TruncMonotone(x, y);
  }

  lemma MonotoneAt(data: seq<real>, x: real, y: real)
    requires data != [] && x <= y
    ensures ValueAt(data, x) <= ValueAt(data, y)
  {
    SortedSorts(data);
    IndexMonotone(|data|, x, y);
  }

  /** It is monotone in p. */
  lemma Monotone(data: seq<real>, p: real, q: real)
    requires p <= q
    ensures Value(data, p) <= Value(data, q)
  {
    if data != [] {
      ScaleMonotone(|data| as real, p, q);
      MonotoneAt(data, |data| as real * p, |data| as real * q);
    }
  }
}
