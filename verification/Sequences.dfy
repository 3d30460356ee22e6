/** Permutations of sequences and maps over them. */
module Sequences {

  ghost predicate Ascending(xs: seq<real>) {
    forall i, j :: 0 <= i < j < |xs| ==> xs[i] <= xs[j]
  }

  lemma DropBoth<A>(xs: seq<A>, ys: seq<A>, k: nat)
    requires multiset(xs) == multiset(ys) && xs != [] && k < |ys| && ys[k] == xs[0]
    ensures multiset(xs[1..]) == multiset(ys[..k] + ys[k + 1..])
    ensures |xs| == |ys|
  {
    assert ys == ys[..k] + [ys[k]] + ys[k + 1..];
    assert xs == [xs[0]] + xs[1..];
    assert multiset(xs[1..]) == multiset(xs) - multiset{xs[0]};
    assert |multiset(xs)| == |xs| && |multiset(ys)| == |ys|;
  }

  function Map<A, B>(f: A -> B, xs: seq<A>): (ys: seq<B>)
    ensures |ys| == |xs| && forall i :: 0 <= i < |xs| ==> ys[i] == f(xs[i])
  {
    seq(|xs|, i requires 0 <= i < |xs| => f(xs[i]))
  }

  lemma MapWithout<A, B>(f: A -> B, xs: seq<A>, k: nat)
    requires k < |xs|
    ensures multiset(Map(f, xs)) == multiset(Map(f, xs[..k] + xs[k + 1..])) + multiset{f(xs[k])}
  {
    assert Map(f, xs) == Map(f, xs[..k]) + [f(xs[k])] + Map(f, xs[k + 1..]);
    assert Map(f, xs[..k] + xs[k + 1..]) == Map(f, xs[..k]) + Map(f, xs[k + 1..]);
  }

  lemma MapHead<A, B>(f: A -> B, xs: seq<A>)
    requires xs != []
    ensures multiset(Map(f, xs)) == multiset(Map(f, xs[1..])) + multiset{f(xs[0])}
  {
    assert Map(f, xs) == [f(xs[0])] + Map(f, xs[1..]);
  }

  lemma Position<A>(x: A, ys: seq<A>) returns (k: nat)
    requires x in multiset(ys)
    ensures k < |ys| && ys[k] == x
  {
    k :| 0 <= k < |ys| && ys[k] == x;
  }

  lemma {:induction false} MapPermutation<A, B>(f: A -> B, xs: seq<A>, ys: seq<A>)
    requires multiset(xs) == multiset(ys)
    ensures multiset(Map(f, xs)) == multiset(Map(f, ys))
    decreases |xs|
  {
    if xs == [] {
      assert |multiset(ys)| == |ys|;
    } else {
      var k := Position(xs[0], ys);
      DropBoth(xs, ys, k);
      MapPermutation(f, xs[1..], ys[..k] + ys[k + 1..]);
      MapWithout(f, ys, k);
      MapHead(f, xs);
    }
  }
}
