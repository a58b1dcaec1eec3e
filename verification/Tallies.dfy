/** Cents accumulated per key, and walks over sequences ordered by day. */
module Tallies {
  import opened Sequences
  import opened Money
  import opened Ledger

  function DayOfTxn(t: Txn): int { t.Day() }

  function CentsOf(t: Txn): int { AmountCents(t.amount) }

  function Keyed<K(==)>(key: Txn -> K, k: K): Txn -> bool {
    (t: Txn) => key(t) == k
  }

  /** What the events with key k amount to. */
  function CentsFor<K(==)>(events: seq<Txn>, key: Txn -> K, k: K): int {
    Total(Filter(events, Keyed(key, k)), CentsOf)
  }

  function CountFor<K(==)>(events: seq<Txn>, key: Txn -> K, k: K): nat {
    |Filter(events, Keyed(key, k))|
  }

  /** The keys in the order they first occur. */
  function FirstSeen<K(==, !new)>(events: seq<Txn>, key: Txn -> K): (order: seq<K>)
    ensures forall k :: k in order <==> exists t :: t in events && key(t) == k
    ensures forall i, j :: 0 <= i < j < |order| ==> order[i] != order[j]
  {
    if events == [] then []
    else
      var before, last := FirstSeen(events[..|events| - 1], key), events[|events| - 1];
      assert events == events[..|events| - 1] + [last];
      if key(last) in before then before else before + [key(last)]
  }

  /** A map holding exactly the keys seen, each with what its events amount to. */
  ghost predicate Tallied<K(!new)>(m: map<K, int>, events: seq<Txn>, key: Txn -> K) {
    forall k :: (k in m <==> exists t :: t in events && key(t) == k) && (k in m ==> m[k] == CentsFor(events, key, k))
  }

  lemma NothingTallied<K(!new)>(key: Txn -> K)
    ensures Tallied(map[], [], key)
  {
  }

  lemma OneMore<K>(events: seq<Txn>, t: Txn, key: Txn -> K, k: K)
    ensures CentsFor(events + [t], key, k) == CentsFor(events, key, k) + (if key(t) == k then CentsOf(t) else 0)
    ensures CountFor(events + [t], key, k) == CountFor(events, key, k) + (if key(t) == k then 1 else 0)
  {
    FilterConcat(events, [t], Keyed(key, k));
    TotalConcat(Filter(events, Keyed(key, k)), Filter([t], Keyed(key, k)), CentsOf);
    assert [t][1..] == [];
  }

  lemma UnseenIsZero<K>(events: seq<Txn>, key: Txn -> K, k: K)
    requires forall t :: t in events ==> key(t) != k
    ensures CentsFor(events, key, k) == 0 && CountFor(events, key, k) == 0
  {
    FilterNone(events, Keyed(key, k));
  }

  /** m[key] += cents, with Go's zero for a missing key. */
  method Accumulate<K(==, !new)>(m: map<K, int>, k: K, cents: int, ghost events: seq<Txn>, ghost t: Txn, ghost key: Txn -> K)
      returns (r: map<K, int>)
    requires Tallied(m, events, key) && key(t) == k && cents == CentsOf(t)
    ensures Tallied(r, events + [t], key)
  {
    r := m[k := (if k in m then m[k] else 0) + cents];
    if k !in m {
      UnseenIsZero(events, key, k);
    }
    forall j
      ensures CentsFor(events + [t], key, j) == CentsFor(events, key, j) + (if key(t) == j then CentsOf(t) else 0)
    {
      OneMore(events, t, key, j);
    }
    assert forall u :: u in events + [t] <==> u in events || u == t;
  }

  // ----- the keys share out the whole -----

  function CentsAt<K(==)>(events: seq<Txn>, key: Txn -> K): K -> int {
    (k: K) => CentsFor(events, key, k)
  }

  function CountAt<K(==)>(events: seq<Txn>, key: Txn -> K): K -> int {
    (k: K) => CountFor(events, key, k)
  }

  lemma {:induction false} TotalAgrees<K>(order: seq<K>, f: K -> int, g: K -> int)
    requires forall k :: k in order ==> f(k) == g(k)
    ensures Total(order, f) == Total(order, g)
  {
    if order != [] {
      TotalAgrees(order[1..], f, g);
    }
  }

  lemma {:induction false} TotalBump<K>(order: seq<K>, f: K -> int, g: K -> int, k: K, step: int)
    requires k in order && forall i, j :: 0 <= i < j < |order| ==> order[i] != order[j]
    requires forall j :: j in order ==> g(j) == f(j) + (if j == k then step else 0)
    ensures Total(order, g) == Total(order, f) + step
  {
    if order[0] == k {
      TotalAgrees(order[1..], f, g);
    } else {
      TotalBump(order[1..], f, g, k, step);
    }
  }

  lemma AddedKey<K(!new)>(order: seq<K>, f: K -> int, g: K -> int, k: K, step: int)
    requires k !in order && (forall i, j :: 0 <= i < j < |order| ==> order[i] != order[j])
    requires f(k) == 0 && forall j :: g(j) == f(j) + (if j == k then step else 0)
    ensures Total(order + [k], g) == Total(order, f) + step
  {
    TotalConcat(order, [k], g);
    TotalAgrees(order, f, g);
    assert [k][1..] == [];
  }

  lemma FirstSeenOneMore<K(!new)>(events: seq<Txn>, t: Txn, key: Txn -> K)
    ensures FirstSeen(events + [t], key) == FirstSeen(events, key) + (if key(t) in FirstSeen(events, key) then [] else [key(t)])
  {
    assert (events + [t])[..|events|] == events;
  }

  /** One more event moves the totals of the keys by what it moves its own key. */
  lemma PartitionOneMore<K(!new)>(events: seq<Txn>, t: Txn, key: Txn -> K)
    ensures Total(FirstSeen(events + [t], key), CentsAt(events + [t], key))
         == Total(FirstSeen(events, key), CentsAt(events, key)) + CentsOf(t)
    ensures Total(FirstSeen(events + [t], key), CountAt(events + [t], key))
         == Total(FirstSeen(events, key), CountAt(events, key)) + 1
  {
    hide CentsFor, CountFor;
    var order := FirstSeen(events, key);
    FirstSeenOneMore(events, t, key);
    forall k {
      OneMore(events, t, key, k);
    }
    if key(t) in order {
      TotalBump(order, CentsAt(events, key), CentsAt(events + [t], key), key(t), CentsOf(t));
      TotalBump(order, CountAt(events, key), CountAt(events + [t], key), key(t), 1);
    } else {
      UnseenIsZero(events, key, key(t));
      AddedKey(order, CentsAt(events, key), CentsAt(events + [t], key), key(t), CentsOf(t));
      AddedKey(order, CountAt(events, key), CountAt(events + [t], key), key(t), 1);
    }
  }

  /** Whatever the key, the totals of the keys seen add up to the total, and the counts to the count. */
  lemma {:induction false} KeysPartitionTheTotal<K(!new)>(events: seq<Txn>, key: Txn -> K)
    ensures Total(FirstSeen(events, key), CentsAt(events, key)) == Total(events, CentsOf)
    ensures Total(FirstSeen(events, key), CountAt(events, key)) == |events|
    decreases |events|
  {
    hide CentsAt, CountAt;
    if events != [] {
      var init, t := events[..|events| - 1], events[|events| - 1];
      assert events == init + [t];
      KeysPartitionTheTotal(init, key);
      PartitionOneMore(init, t, key);
      TotalConcat(init, [t], CentsOf);
      assert Total([t], CentsOf) == CentsOf(t) by { assert [t][1..] == []; }
    }
  }

  // ----- walks over days -----

  predicate InDayOrder<T>(xs: seq<T>, day: T -> int) {
    forall i, j :: 0 <= i < j < |xs| ==> day(xs[i]) <= day(xs[j])
  }

  function UpTo<T>(day: T -> int, d: int): T -> bool {
    (x: T) => day(x) <= d
  }

  function On<T>(day: T -> int, d: int): T -> bool {
    (x: T) => day(x) == d
  }

  /** i is where the walk stands after day d. */
  predicate WalkedTo<T>(xs: seq<T>, day: T -> int, d: int, i: nat) {
    && i <= |xs|
    && (forall j :: 0 <= j < i ==> day(xs[j]) <= d)
    && (i < |xs| ==> day(xs[i]) > d)
  }

  /** The walked prefix is the filter. */
  lemma WalkedPrefix<T>(xs: seq<T>, day: T -> int, d: int, i: nat)
    requires InDayOrder(xs, day) && WalkedTo(xs, day, d, i)
    ensures Filter(xs, UpTo(day, d)) == xs[..i]
  {
    assert xs == xs[..i] + xs[i..];
    FilterConcat(xs[..i], xs[i..], UpTo(day, d));
    FilterAll(xs[..i], UpTo(day, d));
    FilterNone(xs[i..], UpTo(day, d));
  }

  /** What the walk passes on day d, coming from an earlier day: all that happens on d. */
  lemma WalkedOn<T>(xs: seq<T>, day: T -> int, earlier: int, d: int, from: nat, i: nat)
    requires InDayOrder(xs, day) && earlier < d && from <= i
    requires WalkedTo(xs, day, earlier, from) && WalkedTo(xs, day, d, i)
    ensures Filter(xs[from..i], On(day, d)) == Filter(xs, On(day, d))
  {
    assert xs == xs[..from] + xs[from..i] + xs[i..];
    FilterConcat(xs[..from] + xs[from..i], xs[i..], On(day, d));
    FilterConcat(xs[..from], xs[from..i], On(day, d));
    FilterNone(xs[..from], On(day, d));
    FilterNone(xs[i..], On(day, d));
  }
}
