/** Facts about the scheduler's insertion-ordered table of waiting requests. */
module Tables {
  import opened Requests
  import opened Scheduler

  ghost predicate UniqueIds(table: seq<Request>) {
    forall i, j :: 0 <= i < j < |table| ==> table[i].id != table[j].id
  }

  predicate HasId(table: seq<Request>, id: Id) {
    exists i :: 0 <= i < |table| && table[i].id == id
  }

  /** If both are in the table, `r` comes before `q`. */
  ghost predicate InOrder(table: seq<Request>, r: Request, q: Request) {
    forall i, j :: 0 <= i < |table| && 0 <= j < |table| && table[i] == r && table[j] == q ==> i < j
  }

  lemma {:induction false} PutNew(table: seq<Request>, r: Request)
    requires !HasId(table, r.id)
    ensures Put(table, r) == table + [r]
    decreases |table|
  {
    if table != [] {
      assert table[0].id != r.id;
      assert !HasId(table[1..], r.id);
      PutNew(table[1..], r);
      assert table == [table[0]] + table[1..];
    }
  }

  /** A head and a tail without its id. */
  lemma HeadAndTail(head: Request, tail: seq<Request>)
    requires UniqueIds(tail) && forall x :: x in tail ==> x.id != head.id
    ensures UniqueIds([head] + tail) && forall x :: x in [head] + tail <==> x == head || x in tail
  {
    assert forall i :: 0 <= i < |tail| ==> tail[i] in tail;
  }

  lemma Uncons(table: seq<Request>)
    requires table != [] && UniqueIds(table)
    ensures UniqueIds(table[1..]) && forall x :: x in table[1..] ==> x.id != table[0].id
    ensures forall x :: x in table <==> x == table[0] || x in table[1..]
  {
    assert forall i :: 0 <= i < |table[1..]| ==> table[1..][i] == table[i + 1];
    assert table == [table[0]] + table[1..];
  }

  /** Assignment to a key keeps uniqueness, lists the request, replaces an earlier
      request with that id in its place and lets every other stand. */
  lemma {:induction false} PutKeeps(table: seq<Request>, r: Request)
    requires UniqueIds(table)
    ensures UniqueIds(Put(table, r))
    ensures forall x :: x in Put(table, r) <==> x == r || (x in table && x.id != r.id)
    ensures |Put(table, r)| == |table| + if HasId(table, r.id) then 0 else 1
    ensures forall i :: 0 <= i < |table| && table[i].id != r.id ==> i < |Put(table, r)| && Put(table, r)[i] == table[i]
    decreases |table|
  {
    if table != [] {
      Uncons(table);
      if table[0].id != r.id {
        PutKeeps(table[1..], r);
        HeadAndTail(table[0], Put(table[1..], r));
        assert HasId(table, r.id) <==> HasId(table[1..], r.id) by {
          assert forall i :: 0 <= i < |table[1..]| ==> table[1..][i] == table[i + 1];
          assert forall i :: 0 < i < |table| ==> table[i] == table[1..][i - 1];
        }
        assert forall i :: 0 < i < |table| ==> table[i] == table[1..][i - 1];
      } else {
        HeadAndTail(r, table[1..]);
      }
    }
  }

  /** `id` was taken off the table, if it was there, and nothing else. */
  ghost predicate OnlyUnlists(before: seq<Request>, after: seq<Request>, id: Id) {
    forall r :: r in after <==> r in before && r.id != id
  }

  lemma {:induction false} RemoveOne(table: seq<Request>, id: Id) returns (k: nat)
    ensures k <= |table|
    ensures k == |table| ==> !HasId(table, id) && Remove(table, id) == table
    ensures k < |table| ==> table[k].id == id && Remove(table, id) == table[..k] + table[k + 1..]
    decreases |table|
  {
    k := 0;
    if table != [] && table[0].id != id {
      k := RemoveOne(table[1..], id);
      if k < |table[1..]| {
        assert table[..k + 1] == [table[0]] + table[1..][..k];
        assert table[k + 2..] == table[1..][k + 1..];
      } else {
        assert table == [table[0]] + table[1..];
        assert forall i :: 0 < i < |table| ==> table[i] == table[1..][i - 1];
      }
      k := k + 1;
    }
  }

  /** `t` is the table without its k-th row. */
  ghost predicate WithoutRow(table: seq<Request>, k: nat, t: seq<Request>) {
    && k < |table| && |t| == |table| - 1
    && (forall i :: 0 <= i < k ==> t[i] == table[i])
    && (forall i :: k <= i < |t| ==> t[i] == table[i + 1])
  }

  lemma WithoutRowUnlists(table: seq<Request>, k: nat, t: seq<Request>)
    requires UniqueIds(table) && WithoutRow(table, k, t)
    ensures UniqueIds(t) && !HasId(t, table[k].id) && OnlyUnlists(table, t, table[k].id)
  {
    forall r | r in table && r.id != table[k].id ensures r in t {
      var i :| 0 <= i < |table| && table[i] == r;
      assert r == if i < k then t[i] else t[i - 1];
    }
  }

  lemma WithoutRowKeepsOrder(table: seq<Request>, k: nat, t: seq<Request>, r: Request, q: Request)
    requires WithoutRow(table, k, t) && InOrder(table, r, q)
    ensures InOrder(t, r, q)
  {
    forall i, j | 0 <= i < |t| && 0 <= j < |t| && t[i] == r && t[j] == q ensures i < j {
      assert table[if i < k then i else i + 1] == r && table[if j < k then j else j + 1] == q;
    }
  }

  /** Removal keeps uniqueness and order, removes the id and nothing else. */
  lemma RemoveKeeps(table: seq<Request>, id: Id)
    requires UniqueIds(table)
    ensures UniqueIds(Remove(table, id)) && !HasId(Remove(table, id), id)
    ensures OnlyUnlists(table, Remove(table, id), id)
    ensures forall r, q :: InOrder(table, r, q) ==> InOrder(Remove(table, id), r, q)
  {
    var k := RemoveOne(table, id);
    var t := Remove(table, id);
    if k < |table| {
      assert WithoutRow(table, k, t);
      WithoutRowUnlists(table, k, t);
      forall r, q | InOrder(table, r, q) ensures InOrder(t, r, q) {
        WithoutRowKeepsOrder(table, k, t, r, q);
      }
    }
  }

  lemma InAppended(table: seq<Request>, n: Request, r: Request, q: Request)
    requires InOrder(table, r, q) && n != r
    ensures InOrder(table + [n], r, q)
  {
  }

  lemma TailKeeps(table: seq<Request>, r: Request, q: Request)
    requires table != [] && UniqueIds(table) && InOrder(table, r, q)
    ensures InOrder(table[1..], r, q) && table[0] !in table[1..]
    ensures forall x :: x in table <==> x == table[0] || x in table[1..]
    ensures q == table[0] && q != r ==> r !in table
  {
    assert table == [table[0]] + table[1..];
    assert forall i :: 0 <= i < |table[1..]| ==> table[1..][i] == table[i + 1];
  }
}
