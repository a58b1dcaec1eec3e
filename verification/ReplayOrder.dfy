/** The replay order: a stable sort, characterised without mentioning how it sorts. */
module ReplayOrder {
  import opened Sequences
  import opened Ledger

  /** Equal keys: neither event precedes the other. */
  predicate Tie(a: Txn, b: Txn) {
    !Before(a, b) && !Before(b, a)
  }

  function TiesOf(txns: seq<Txn>, k: Txn): seq<Txn> {
    Filter(txns, t => Tie(t, k))
  }

  ghost predicate Ordered(ts: seq<Txn>) {
    forall i, j :: 0 <= i < j < |ts| ==> !Before(ts[j], ts[i])
  }

  /** Both sequences list every class of tied events in the same order. */
  ghost predicate SameTies(xs: seq<Txn>, ys: seq<Txn>) {
    forall k :: TiesOf(xs, k) == TiesOf(ys, k)
  }

  ghost predicate KeysDistinct(ts: seq<Txn>) {
    forall i, j :: 0 <= i < j < |ts| ==> !Tie(ts[i], ts[j])
  }

  // ----- insertion -----

  lemma {:induction false} InsertSplits(t: Txn, ts: seq<Txn>) returns (k: nat)
    ensures k <= |ts| && Insert(t, ts) == ts[..k] + [t] + ts[k..]
    ensures forall i :: 0 <= i < k ==> Before(ts[i], t)
    ensures k < |ts| ==> !Before(ts[k], t)
  {
    if ts != [] && Before(ts[0], t) {
      var k' := InsertSplits(t, ts[1..]);
      k := k' + 1;
      assert [ts[0]] + ts[1..][..k'] == ts[..k] && ts[1..][k'..] == ts[k..];
      assert forall i :: 0 < i < k ==> ts[i] == ts[1..][i - 1];
    } else {
      k := 0;
    }
  }

  /** Putting t behind what precedes it and in front of what does not keeps an order. */
  lemma MiddleKeepsOrder(front: seq<Txn>, t: Txn, back: seq<Txn>)
    requires Ordered(front + back)
    requires forall i :: 0 <= i < |front| ==> Before(front[i], t)
    requires back != [] ==> !Before(back[0], t)
    ensures Ordered(front + [t] + back)
  {
    var ts, r := front + back, front + [t] + back;
    forall i, j | 0 <= i < j < |r|
      ensures !Before(r[j], r[i])
    {
      assert r[j] == if j < |front| then ts[j] else if j == |front| then t else ts[j - 1];
      assert r[i] == if i < |front| then ts[i] else if i == |front| then t else ts[i - 1];
      if i == |front| && |front| < j - 1 {
        assert !Before(ts[j - 1], ts[|front|]);
      }
    }
  }

  lemma InsertKeepsOrder(t: Txn, ts: seq<Txn>)
    requires Ordered(ts)
    ensures Ordered(Insert(t, ts))
    ensures multiset(Insert(t, ts)) == multiset(ts) + multiset{t}
  {
    hide Insert, Before, Ordered;
    var k := InsertSplits(t, ts);
    assert ts == ts[..k] + ts[k..];
    MiddleKeepsOrder(ts[..k], t, ts[k..]);
  }

  lemma {:induction false} SortOrders(txns: seq<Txn>)
    ensures Ordered(Sort(txns))
    ensures multiset(Sort(txns)) == multiset(txns)
  {
    hide Insert, Before;
    if txns != [] {
      SortOrders(txns[1..]);
      InsertKeepsOrder(txns[0], Sort(txns[1..]));
      assert txns == [txns[0]] + txns[1..];
    }
  }

  lemma SortMembers(txns: seq<Txn>)
    ensures forall t :: t in Sort(txns) <==> t in txns
  {
    SortOrders(txns);
    forall t
      ensures t in Sort(txns) <==> t in txns
    {
      assert t in multiset(Sort(txns)) <==> t in multiset(txns);
    }
  }

  lemma {:induction false} InsertFirst(t: Txn, ts: seq<Txn>)
    requires ts != [] ==> !Before(ts[0], t)
    ensures Insert(t, ts) == [t] + ts
  {
  }

  lemma {:induction false} SortOfOrdered(ts: seq<Txn>)
    requires Ordered(ts)
    ensures Sort(ts) == ts
  {
    if ts != [] {
      SortOfOrdered(ts[1..]);
      InsertFirst(ts[0], ts[1..]);
    }
  }

  /** Events that do not tie may be inserted in either order. */
  lemma {:induction false} InsertsCommute(a: Txn, b: Txn, ts: seq<Txn>)
    requires Ordered(ts) && !Tie(a, b)
    ensures Insert(a, Insert(b, ts)) == Insert(b, Insert(a, ts))
  {
    if ts != [] && Before(ts[0], a) && Before(ts[0], b) {
      InsertsCommute(a, b, ts[1..]);
      assert Insert(a, ts) == [ts[0]] + Insert(a, ts[1..]);
      assert Insert(b, ts) == [ts[0]] + Insert(b, ts[1..]);
      assert Insert(a, Insert(b, ts)) == [ts[0]] + Insert(a, Insert(b, ts[1..]));
      assert Insert(b, Insert(a, ts)) == [ts[0]] + Insert(b, Insert(a, ts[1..]));
    } else if ts != [] && Before(ts[0], a) {
      assert Insert(b, ts) == [b] + ts;
      assert Insert(a, ts)[0] == ts[0];
    } else if ts != [] && Before(ts[0], b) {
      assert Insert(a, ts) == [a] + ts;
      assert Insert(b, ts)[0] == ts[0];
    } else {
      assert Insert(a, ts) == [a] + ts && Insert(b, ts) == [b] + ts;
      if Before(a, b) {
        assert Insert(b, [a] + ts) == [a] + Insert(b, ts) by { assert ([a] + ts)[1..] == ts; }
      } else {
        assert Insert(a, [b] + ts) == [b] + Insert(a, ts) by { assert ([b] + ts)[1..] == ts; }
      }
    }
  }

  /** Where an event stands in the input is irrelevant unless it ties with an earlier one. */
  lemma {:induction false} SortMiddle(before: seq<Txn>, t: Txn, after: seq<Txn>)
    requires forall u :: u in before ==> !Tie(u, t)
    ensures Sort(before + [t] + after) == Insert(t, Sort(before + after))
  {
    if before == [] {
      assert before + [t] + after == [t] + after && before + after == after;
    } else {
      var u := before[0];
      SortMiddle(before[1..], t, after);
      assert (before + [t] + after)[1..] == before[1..] + [t] + after;
      assert (before + after)[1..] == before[1..] + after;
      SortOrders(before[1..] + after);
      InsertsCommute(u, t, Sort(before[1..] + after));
    }
  }

  // ----- filters and maps -----

  lemma {:induction false} InsertFiltered(t: Txn, ts: seq<Txn>, keep: Txn -> bool)
    requires Ordered(ts)
    ensures Filter(Insert(t, ts), keep) == if keep(t) then Insert(t, Filter(ts, keep)) else Filter(ts, keep)
  {
    if ts != [] && Before(ts[0], t) {
      var rest := Filter(ts[1..], keep);
      InsertFiltered(t, ts[1..], keep);
      FilterCons(ts[0], Insert(t, ts[1..]), keep);
      FilterCons(ts[0], ts[1..], keep);
      assert [ts[0]] + ts[1..] == ts;
      assert ([ts[0]] + rest)[1..] == rest;
    } else {
      FilterCons(t, ts, keep);
      FilterMembers(ts, keep);
      var kept := Filter(ts, keep);
      if kept != [] {
        assert kept[0] in ts;
        assert !Before(kept[0], t);
      }
      InsertFirst(t, kept);
    }
  }

  /** Filtering commutes with the stable sort. */
  lemma {:induction false} SortFiltered(txns: seq<Txn>, keep: Txn -> bool)
    ensures Sort(Filter(txns, keep)) == Filter(Sort(txns), keep)
  {
    if txns != [] {
      var rest := Filter(txns[1..], keep);
      SortFiltered(txns[1..], keep);
      SortOrders(txns[1..]);
      InsertFiltered(txns[0], Sort(txns[1..]), keep);
      FilterCons(txns[0], txns[1..], keep);
      assert [txns[0]] + txns[1..] == txns;
      assert ([txns[0]] + rest)[1..] == rest;
    }
  }

  ghost predicate KeepsKeys(f: Txn -> Txn) {
    forall t {:trigger f(t)} :: f(t).kind == t.kind && f(t).date == t.date && f(t).createdAt == t.createdAt
  }

  /** Rewriting events without touching their keys commutes with the stable sort. */
  lemma {:induction false} SortMapped(txns: seq<Txn>, f: Txn -> Txn)
    requires KeepsKeys(f)
    ensures Sort(Map(txns, f)) == Map(Sort(txns), f)
  {
    if txns != [] {
      SortMapped(txns[1..], f);
      assert Map(txns, f)[1..] == Map(txns[1..], f);
      InsertMapped(txns[0], Sort(txns[1..]), f);
    }
  }

  lemma {:induction false} InsertMapped(t: Txn, ts: seq<Txn>, f: Txn -> Txn)
    requires KeepsKeys(f)
    ensures Insert(f(t), Map(ts, f)) == Map(Insert(t, ts), f)
  {
    if ts != [] && Before(ts[0], t) {
      InsertMapped(t, ts[1..], f);
      assert Map(ts, f)[1..] == Map(ts[1..], f);
    }
  }

  // ----- what a stable sort is -----

  lemma {:induction false} FirstTie(ts: seq<Txn>, k: Txn) returns (before: seq<Txn>, after: seq<Txn>)
    requires TiesOf(ts, k) != []
    ensures ts == before + [TiesOf(ts, k)[0]] + after
    ensures forall u :: u in before ==> !Tie(u, k)
  {
    if Tie(ts[0], k) {
      before, after := [], ts[1..];
    } else {
      before, after := FirstTie(ts[1..], k);
      before := [ts[0]] + before;
    }
  }

  lemma TiesOfSplit(before: seq<Txn>, t: Txn, after: seq<Txn>, k: Txn)
    ensures TiesOf(before + [t] + after, k)
         == TiesOf(before, k) + (if Tie(t, k) then [t] else []) + TiesOf(after, k)
    ensures TiesOf(before + after, k) == TiesOf(before, k) + TiesOf(after, k)
  {
    FilterConcat(before + [t], after, u => Tie(u, k));
    FilterConcat(before, [t], u => Tie(u, k));
    FilterConcat(before, after, u => Tie(u, k));
  }

  /** Sequences with the same ties sort to the same replay order. */
  lemma {:induction false} SortSeesTies(xs: seq<Txn>, ys: seq<Txn>)
    requires SameTies(xs, ys)
    ensures Sort(xs) == Sort(ys)
    decreases |xs|
  {
    assert ys != [] ==> TiesOf(ys, ys[0]) == TiesOf(xs, ys[0]) && TiesOf(ys, ys[0]) != [];
    if xs != [] {
      var x := xs[0];
      assert TiesOf(xs, x)[0] == x;
      assert TiesOf(xs, x) == TiesOf(ys, x);
      var before, after := FirstTie(ys, x);
      forall k
        ensures TiesOf(xs[1..], k) == TiesOf(before + after, k)
      {
        assert TiesOf(xs, k) == TiesOf(ys, k);
        TiesOfSplit(before, x, after, k);
        TiesOfSplit([], x, xs[1..], k);
        assert [] + [x] + xs[1..] == xs;
        assert TiesOf([], k) == [];
        if Tie(x, k) {
          FilterNone(before, u => Tie(u, k));
          assert TiesOf(xs, k) == [x] + TiesOf(xs[1..], k);
          assert TiesOf(ys, k) == [x] + TiesOf(after, k);
          assert TiesOf(xs[1..], k) == TiesOf(xs, k)[1..] == TiesOf(ys, k)[1..] == TiesOf(after, k);
        } else {
          assert TiesOf(xs, k) == TiesOf(xs[1..], k);
          assert TiesOf(ys, k) == TiesOf(before, k) + TiesOf(after, k);
        }
      }
      SortSeesTies(xs[1..], before + after);
      SortMiddle(before, x, after);
    }
  }

  lemma SortKeepsTies(txns: seq<Txn>)
    ensures SameTies(txns, Sort(txns))
  {
    forall k
      ensures TiesOf(txns, k) == TiesOf(Sort(txns), k)
    {
      var tied := (t: Txn) => Tie(t, k);
      SortFiltered(txns, tied);
      FilterMembers(txns, tied);
      var ties := Filter(txns, tied);
      assert Ordered(ties) by {
        forall i, j | 0 <= i < j < |ties|
          ensures !Before(ties[j], ties[i])
        {
          assert ties[i] in ties && ties[j] in ties;
          assert tied(ties[i]) && tied(ties[j]);
        }
      }
      SortOfOrdered(ties);
    }
  }

  /** `Sort` is the stable sort: the one ordered sequence that keeps every class of ties in input order. */
  lemma SortIsTheStableSort(txns: seq<Txn>, ts: seq<Txn>)
    ensures ts == Sort(txns) <==> Ordered(ts) && SameTies(txns, ts)
  {
    SortOrders(txns);
    SortKeepsTies(txns);
    if Ordered(ts) && SameTies(txns, ts) {
      SortSeesTies(txns, ts);
      SortOfOrdered(ts);
    }
  }

  lemma {:induction false} DistinctKeysTieOnce(ts: seq<Txn>, k: Txn)
    requires KeysDistinct(ts)
    ensures |TiesOf(ts, k)| <= 1
  {
    if ts != [] {
      DistinctKeysTieOnce(ts[1..], k);
      if Tie(ts[0], k) {
        forall u | u in ts[1..]
          ensures !Tie(u, k)
        {
          var i :| 0 <= i < |ts[1..]| && ts[1..][i] == u;
          assert ts[i + 1] == u && !Tie(ts[0], ts[i + 1]);
        }
        FilterNone(ts[1..], u => Tie(u, k));
      }
    }
  }

  /** With pairwise distinct keys, every ordering of the input has the same ties. */
  lemma PermutationsOfDistinctKeysSortAlike(xs: seq<Txn>, ys: seq<Txn>)
    requires multiset(xs) == multiset(ys) && KeysDistinct(xs)
    ensures Sort(xs) == Sort(ys)
  {
    forall k
      ensures TiesOf(xs, k) == TiesOf(ys, k)
    {
      var a, b := TiesOf(xs, k), TiesOf(ys, k);
      DistinctKeysTieOnce(xs, k);
      forall t
        ensures multiset(a)[t] == multiset(b)[t]
      {
        FilterCount(xs, u => Tie(u, k), t);
        FilterCount(ys, u => Tie(u, k), t);
      }
      assert multiset(a) == multiset(b);
      assert |multiset(a)| == |a| && |multiset(b)| == |b|;
      if |a| == 1 {
        assert a[0] in multiset(a);
        assert b[0] in multiset(b);
        assert a == [a[0]] && b == [b[0]];
      }
    }
    SortSeesTies(xs, ys);
  }

  /** Moving an event to the end leaves the replay order alone exactly when no later event ties with it. */
  lemma MovingToTheEndKeepsTheOrderIff(before: seq<Txn>, t: Txn, after: seq<Txn>)
    requires t !in after
    ensures Sort(before + after + [t]) == Sort(before + [t] + after) <==> TiesOf(after, t) == []
  {
    var moved, stored := before + after + [t], before + [t] + after;
    forall k
      ensures TiesOf(moved, k) == TiesOf(before, k) + TiesOf(after, k) + (if Tie(t, k) then [t] else [])
      ensures TiesOf(stored, k) == TiesOf(before, k) + (if Tie(t, k) then [t] else []) + TiesOf(after, k)
    {
      TiesOfSplit(before + after, t, [], k);
      assert before + after + [t] + [] == moved && TiesOf([], k) == [];
      TiesOfSplit(before, t, after, k);
    }
    if TiesOf(after, t) == [] {
      forall k
        ensures TiesOf(moved, k) == TiesOf(stored, k)
      {
        if Tie(t, k) {
          TiedToTheSame(after, t, k);
        }
      }
      SortSeesTies(moved, stored);
    } else {
      SortKeepsTies(moved);
      SortKeepsTies(stored);
      var a, b := TiesOf(before, t), TiesOf(after, t);
      assert (a + b + [t])[|a|] == b[0] && (a + [t] + b)[|a|] == t;
      FilterMembers(after, u => Tie(u, t));
      assert b[0] in b && b[0] in after;
    }
  }

  lemma {:induction false} TiedToTheSame(ts: seq<Txn>, t: Txn, k: Txn)
    requires Tie(t, k)
    ensures TiesOf(ts, k) == TiesOf(ts, t)
  {
    FilterCongruence(ts, u => Tie(u, k), u => Tie(u, t));
  }
}
