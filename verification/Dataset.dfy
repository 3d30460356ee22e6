/** Deduplication and splitting of the training samples. */
module Dataset {
  import opened Numbers

  datatype Sample = Sample(prompt: string, target: real)

  /** Is sample i the first one with its prompt digest? */
  predicate FirstOfDigest(digest: string -> string, samples: seq<Sample>, i: nat)
    requires i < |samples|
  {
    forall j :: 0 <= j < i ==> digest(samples[j].prompt) != digest(samples[i].prompt)
  }

  predicate DistinctDigests(digest: string -> string, samples: seq<Sample>) {
    forall i, j :: 0 <= i < j < |samples| ==> digest(samples[i].prompt) != digest(samples[j].prompt)
  }

  /** Keeps, in order, exactly the first sample of each prompt digest; `kept` are
      their positions. */
  method Deduplicate(digest: string -> string, samples: seq<Sample>)
    returns (out: seq<Sample>, ghost kept: seq<nat>)
    ensures |kept| == |out| && forall k :: 0 <= k < |out| ==> kept[k] < |samples| && out[k] == samples[kept[k]]
    ensures forall k, l :: 0 <= k < l < |kept| ==> kept[k] < kept[l]
    ensures forall i :: 0 <= i < |samples| ==> (i in kept <==> FirstOfDigest(digest, samples, i))
    ensures DistinctDigests(digest, out)
  {
    var seen: set<string> := {};
    out, kept := [], [];
    for i := 0 to |samples|
      invariant |kept| == |out| && forall k :: 0 <= k < |out| ==> kept[k] < i && out[k] == samples[kept[k]]
      invariant forall k, l :: 0 <= k < l < |kept| ==> kept[k] < kept[l]
      invariant forall j :: 0 <= j < i ==> (j in kept <==> FirstOfDigest(digest, samples, j))
      invariant forall j :: 0 <= j < i ==> digest(samples[j].prompt) in seen
      invariant forall h :: h in seen ==> exists j :: 0 <= j < i && digest(samples[j].prompt) == h
      invariant forall k :: 0 <= k < |out| ==> digest(out[k].prompt) in seen
      invariant DistinctDigests(digest, out)
    {
      var h := digest(samples[i].prompt);
      if h !in seen {
        seen := seen + {h};
        out, kept := out + [samples[i]], kept + [i];
      }
    }
  }

  /** Where Python's slicing puts a bound `k` of a sequence of length `n`. */
  function Bound(k: int, n: nat): (b: nat)
    ensures b <= n
  {
    if k < 0 then (if n + k < 0 then 0 else n + k) else (if k > n then n else k)
  }

  function Gather(samples: seq<Sample>, indices: seq<nat>): (r: seq<Sample>)
    requires forall k :: 0 <= k < |indices| ==> indices[k] < |samples|
    ensures |r| == |indices| && forall k :: 0 <= k < |indices| ==> r[k] == samples[indices[k]]
  {
    seq(|indices|, k requires 0 <= k < |indices| => samples[indices[k]])
  }

  ghost predicate Permutation(indices: seq<nat>, n: nat) {
    && |indices| == n
    && (forall k :: 0 <= k < n ==> indices[k] < n)
    && (forall k, l :: 0 <= k < l < n ==> indices[k] != indices[l])
  }

  datatype Splits = Splits(train: seq<Sample>, val: seq<Sample>, test: seq<Sample>)

  /** Where a sequence of length `n` is cut for a part of size `x`, and after a
      further part of size `y`. */
  function Cut(n: nat, x: real): nat {
    Bound(Trunc(x), n)
  }

  function NextCut(n: nat, x: real, y: real): nat {
    Bound(Trunc(x) + Trunc(y), n)
  }

  /** The two cut points the ratios give. */
  function FirstCut(n: nat, trainRatio: real): nat {
    Cut(n, n as real * trainRatio)
  }

  function SecondCut(n: nat, trainRatio: real, valRatio: real): nat {
    NextCut(n, n as real * trainRatio, n as real * valRatio)
  }

  function Split(samples: seq<Sample>, indices: seq<nat>, trainRatio: real, valRatio: real): Splits
    requires |indices| == |samples| && forall k :: 0 <= k < |indices| ==> indices[k] < |samples|
  {
    var a, b := FirstCut(|samples|, trainRatio), SecondCut(|samples|, trainRatio, valRatio);
    Splits(Gather(samples, indices[..a]), Gather(samples, if a <= b then indices[a..b] else []),
           Gather(samples, indices[b..]))
  }

  /** Distinct numbers below n are at most n. */
  lemma {:induction false} AtMost(xs: seq<nat>, n: nat)
    requires forall k :: 0 <= k < |xs| ==> xs[k] < n
    requires forall k, l :: 0 <= k < l < |xs| ==> xs[k] != xs[l]
    ensures |xs| <= n
    decreases n
  {
    if xs != [] {
      assert xs[0] < n;
      if k :| 0 <= k < |xs| && xs[k] == n - 1 {
        AtMost(xs[..k] + xs[k + 1..], n - 1);
      } else {
        AtMost(xs, n - 1);
      }
    }
  }

  /** A permutation of 0..n takes its greatest value somewhere; leaving that
      position out gives a permutation of 0..n - 1. */
  lemma Greatest(indices: seq<nat>, n: nat) returns (k: nat)
    requires Permutation(indices, n + 1)
    ensures k <= n && indices[k] == n && Permutation(indices[..k] + indices[k + 1..], n)
  {
    if forall i :: 0 <= i <= n ==> indices[i] < n {
      AtMost(indices, n);
    }
    k :| 0 <= k <= n && indices[k] == n;
    var rest := indices[..k] + indices[k + 1..];
    assert forall i :: 0 <= i < n ==> rest[i] == indices[if i < k then i else i + 1];
  }

  lemma GatherWithout(samples: seq<Sample>, indices: seq<nat>, k: nat)
    requires k < |indices| && |samples| > 0 && indices[k] == |samples| - 1
    requires forall i :: 0 <= i < |indices| ==> indices[i] < |samples|
    requires forall i :: 0 <= i < |indices| && i != k ==> indices[i] < |samples| - 1
    ensures var n, rest := |samples| - 1, indices[..k] + indices[k + 1..];
            multiset(Gather(samples, indices)) == multiset(Gather(samples[..n], rest)) + multiset{samples[n]}
  {
    var n, rest := |samples| - 1, indices[..k] + indices[k + 1..];
    var g, h := Gather(samples, indices), Gather(samples[..n], rest);
    assert h == g[..k] + g[k + 1..];
    assert g == g[..k] + [g[k]] + g[k + 1..];
  }

  /** A permutation of the positions of a sequence visits every element once. */
  lemma {:induction false} GatherAll(samples: seq<Sample>, indices: seq<nat>)
    requires Permutation(indices, |samples|)
    ensures multiset(Gather(samples, indices)) == multiset(samples)
    decreases |samples|
  {
    if samples != [] {
      var n := |samples| - 1;
      var k := Greatest(indices, n);
      GatherAll(samples[..n], indices[..k] + indices[k + 1..]);
      GatherWithout(samples, indices, k);
      assert samples == samples[..n] + [samples[n]];
    }
  }

  lemma GatherParts(samples: seq<Sample>, indices: seq<nat>, a: nat, b: nat)
    requires Permutation(indices, |samples|) && a <= b <= |indices|
    ensures Gather(samples, indices)
         == Gather(samples, indices[..a]) + Gather(samples, indices[a..b]) + Gather(samples, indices[b..])
  {
  }

  /** The split is a partition of the samples if and only if the second cut is
      not before the first. */
  lemma SplitIsPartition(samples: seq<Sample>, indices: seq<nat>, trainRatio: real, valRatio: real)
    requires Permutation(indices, |samples|)
    ensures var s := Split(samples, indices, trainRatio, valRatio);
            multiset(s.train) + multiset(s.val) + multiset(s.test) == multiset(samples)
            <==> FirstCut(|samples|, trainRatio) <= SecondCut(|samples|, trainRatio, valRatio)
  {
    var s := Split(samples, indices, trainRatio, valRatio);
    var a, b := FirstCut(|samples|, trainRatio), SecondCut(|samples|, trainRatio, valRatio);
    if a <= b {
      GatherParts(samples, indices, a, b);
      GatherAll(samples, indices);
    } else {
      assert |multiset(s.train) + multiset(s.val) + multiset(s.test)| == a + (|samples| - b);
      assert |multiset(samples)| == |samples|;
    }
  }

  lemma CutsOrdered(n: nat, trainRatio: real, valRatio: real)
    requires trainRatio >= 0.0 && valRatio >= 0.0
    ensures FirstCut(n, trainRatio) <= SecondCut(n, trainRatio, valRatio)
  {
    ProductNonNegative(n as real, trainRatio);
    ProductNonNegative(n as real, valRatio);
  }

  lemma CutSizes(n: nat, x: real, y: real, i: int, j: int)
    requires x >= 0.0 && y >= 0.0 && x + y <= n as real && RoundsDownTo(x, i) && RoundsDownTo(y, j)
    ensures Cut(n, x) == i && NextCut(n, x, y) == i + j
  {
    TruncIsFloor(x, i);
    TruncIsFloor(y, j);
  }

  lemma RatioSizes(n: real, trainRatio: real, valRatio: real, x: real, y: real)
    requires trainRatio >= 0.0 && valRatio >= 0.0 && trainRatio + valRatio <= 1.0
    requires n >= 0.0 && x == n * trainRatio && y == n * valRatio
    ensures x >= 0.0 && y >= 0.0 && x + y <= n
  {
    ProductNonNegative(n, trainRatio);
    ProductNonNegative(n, valRatio);
    ScaleMonotone(n, trainRatio + valRatio, 1.0);
    assert n * (trainRatio + valRatio) == x + y;
  }

  /** The sizes of the parts for non-negative ratios that leave room for both: n
      times the ratio, rounded down, for training and for validation, in the order of
      the permutation; the rest is for the test. */
  lemma SplitSizes(samples: seq<Sample>, indices: seq<nat>, trainRatio: real, valRatio: real, i: int, j: int)
    requires Permutation(indices, |samples|)
    requires trainRatio >= 0.0 && valRatio >= 0.0 && trainRatio + valRatio <= 1.0
    requires RoundsDownTo(|samples| as real * trainRatio, i) && RoundsDownTo(|samples| as real * valRatio, j)
    ensures var s := Split(samples, indices, trainRatio, valRatio);
            && |s.train| == i && |s.val| == j && |s.test| == |samples| - i - j
            && s.train + s.val + s.test == Gather(samples, indices)
  {
    var x, y := |samples| as real * trainRatio, |samples| as real * valRatio;
    RatioSizes(|samples| as real, trainRatio, valRatio, x, y);
    CutSizes(|samples|, x, y, i, j);
    GatherParts(samples, indices, FirstCut(|samples|, trainRatio), SecondCut(|samples|, trainRatio, valRatio));
  }

  lemma UnitFraction(n: nat, x: real)
    requires n > 0 && x == 1.0 / n as real
    ensures Trunc(n as real * x) == 1 && Trunc(n as real * -x) == -1
  {
    assert n as real * x == 1.0;
    assert n as real * -x == -(n as real * x);
  }

  /** It can fail, for every batch of at least two samples: with the ratios -1/n and
      1/n every sample is a test sample and all but one are training samples too. */
  lemma NegativeRatioLeaks(samples: seq<Sample>, indices: seq<nat>, x: real)
    requires |samples| >= 2 && Permutation(indices, |samples|) && x == 1.0 / |samples| as real
    ensures var s := Split(samples, indices, -x, x);
            multiset(s.test) == multiset(samples) && s.train == s.test[..|samples| - 1] && s.val == []
  {
    var n := |samples|;
    UnitFraction(n, x);
    assert FirstCut(n, -x) == n - 1 && SecondCut(n, -x, x) == 0;
    assert indices[0..] == indices;
    GatherAll(samples, indices);
  }

  predicate NoDigestInBoth(digest: string -> string, a: seq<Sample>, b: seq<Sample>) {
    forall i, j :: 0 <= i < |a| && 0 <= j < |b| ==> digest(a[i].prompt) != digest(b[j].prompt)
  }

  lemma PartsShareNoDigest(digest: string -> string, samples: seq<Sample>, indices: seq<nat>,
                           a: nat, b: nat, c: nat, d: nat)
    requires Permutation(indices, |samples|) && DistinctDigests(digest, samples)
    requires a <= b <= c <= d <= |indices|
    ensures NoDigestInBoth(digest, Gather(samples, indices[a..b]), Gather(samples, indices[c..d]))
  {
    forall i, j | 0 <= i < b - a && 0 <= j < d - c
      ensures digest(samples[indices[a..b][i]].prompt) != digest(samples[indices[c..d][j]].prompt)
    {
      assert indices[a + i] != indices[c + j];
    }
  }

  /** No leakage: splitting deduplicated samples by non-negative ratios, under any
      permutation, partitions them, and no prompt digest is in two splits. */
  lemma NoLeakage(digest: string -> string, samples: seq<Sample>, indices: seq<nat>, trainRatio: real, valRatio: real)
    requires Permutation(indices, |samples|) && DistinctDigests(digest, samples)
    requires trainRatio >= 0.0 && valRatio >= 0.0
    ensures var s := Split(samples, indices, trainRatio, valRatio);
            && multiset(s.train) + multiset(s.val) + multiset(s.test) == multiset(samples)
            && NoDigestInBoth(digest, s.train, s.val) && NoDigestInBoth(digest, s.train, s.test)
            && NoDigestInBoth(digest, s.val, s.test)
  {
    var a, b, n := FirstCut(|samples|, trainRatio), SecondCut(|samples|, trainRatio, valRatio), |samples|;
    CutsOrdered(n, trainRatio, valRatio);
    SplitIsPartition(samples, indices, trainRatio, valRatio);
    assert indices[..a] == indices[0..a] && indices[b..] == indices[b..n];
    PartsShareNoDigest(digest, samples, indices, 0, a, a, b);
    PartsShareNoDigest(digest, samples, indices, 0, a, b, n);
    PartsShareNoDigest(digest, samples, indices, a, b, b, n);
  }
}
