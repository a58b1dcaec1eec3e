/** The occurrence rule shared by the CSV imports (services/dividend_import.go). */
module Imports {
  import opened Sequences
  import opened Ledger

  /** maxImportRows: a longer sheet is malformed, whatever it holds. */
  const MAX_IMPORT_ROWS := 5000

  function Min(a: int, b: int): int { if a < b then a else b }

  function Max(a: int, b: int): int { if a < b then b else a }

  function KeysOf<Row, Key>(rows: seq<Row>, key: Row -> Key): seq<Key> {
    Map(rows, key)
  }

  /** How often a key occurs among rows. */
  function Count<Row, Key(==)>(rows: seq<Row>, key: Row -> Key, k: Key): nat {
    multiset(KeysOf(rows, key))[k]
  }

  function StoredIn<Key(==)>(existing: seq<Txn>, storedKey: Txn -> Key): Key -> nat {
    k => Count(existing, storedKey, k)
  }

  /** Rows whose key has occurred at least as often before as it is stored: the new ones, in sheet order. */
  function NewRows<Row, Key(==)>(rows: seq<Row>, key: Row -> Key, stored: Key -> nat): seq<Row> {
    if rows == [] then []
    else
      var n := |rows| - 1;
      NewRows(rows[..n], key, stored) + (if Count(rows[..n], key, key(rows[n])) >= stored(key(rows[n])) then [rows[n]] else [])
  }

  /** The others, each absorbed by a stored event, in sheet order. */
  function Absorbed<Row, Key(==)>(rows: seq<Row>, key: Row -> Key, stored: Key -> nat): seq<Row> {
    if rows == [] then []
    else
      var n := |rows| - 1;
      Absorbed(rows[..n], key, stored) + (if Count(rows[..n], key, key(rows[n])) < stored(key(rows[n])) then [rows[n]] else [])
  }

  lemma CountOneMore<Row, Key>(rows: seq<Row>, row: Row, key: Row -> Key, k: Key)
    ensures Count(rows + [row], key, k) == Count(rows, key, k) + (if key(row) == k then 1 else 0)
  {
    assert KeysOf(rows + [row], key) == KeysOf(rows, key) + [key(row)];
  }

  lemma CountConcat<Row, Key>(xs: seq<Row>, ys: seq<Row>, key: Row -> Key, k: Key)
    ensures Count(xs + ys, key, k) == Count(xs, key, k) + Count(ys, key, k)
  {
    assert KeysOf(xs + ys, key) == KeysOf(xs, key) + KeysOf(ys, key);
  }

  lemma PartitionOneMore<Row, Key>(rows: seq<Row>, row: Row, key: Row -> Key, stored: Key -> nat)
    ensures NewRows(rows + [row], key, stored)
         == if Count(rows, key, key(row)) >= stored(key(row)) then NewRows(rows, key, stored) + [row] else NewRows(rows, key, stored)
    ensures Absorbed(rows + [row], key, stored)
         == if Count(rows, key, key(row)) < stored(key(row)) then Absorbed(rows, key, stored) + [row] else Absorbed(rows, key, stored)
  {
    assert (rows + [row])[..|rows|] == rows;
  }

  function Left<Key>(remaining: map<Key, int>, k: Key): int {
    if k in remaining then remaining[k] else 0
  }

  method CountStored<Key(==)>(existing: seq<Txn>, storedKey: Txn -> Key) returns (remaining: map<Key, int>)
    ensures forall k :: Left(remaining, k) == StoredIn(existing, storedKey)(k)
  {
    remaining := map[];
    var i := 0;
    while i < |existing|
      invariant 0 <= i <= |existing|
      invariant forall k :: Left(remaining, k) == Count(existing[..i], storedKey, k)
    {
      var k := storedKey(existing[i]);
      assert existing[..i + 1] == existing[..i] + [existing[i]];
      forall q
        ensures Count(existing[..i + 1], storedKey, q) == Count(existing[..i], storedKey, q) + (if k == q then 1 else 0)
      {
        CountOneMore(existing[..i], existing[i], storedKey, q);
      }
      ghost var before := remaining;
      remaining := remaining[k := Left(remaining, k) + 1];
      forall q
        ensures Left(remaining, q) == Count(existing[..i + 1], storedKey, q)
      {
        assert Left(before, q) == Count(existing[..i], storedKey, q);
      }
      i := i + 1;
    }
    assert existing[..i] == existing;
  }

  /** The distinct holdings of the rows an import writes. */
  method HoldersOfRows<Row>(rows: seq<Row>, holder: Row -> nat) returns (affected: seq<nat>)
    ensures forall h :: h in affected <==> exists i :: 0 <= i < |rows| && holder(rows[i]) == h
  {
    affected := [];
    var i := 0;
    while i < |rows|
      invariant 0 <= i <= |rows|
      invariant forall h :: h in affected <==> exists j :: 0 <= j < i && holder(rows[j]) == h
    {
      if holder(rows[i]) !in affected {
        affected := affected + [holder(rows[i])];
      }
      i := i + 1;
    }
  }

  /** partitionByKey: a map of remaining stored occurrences, counted down along the sheet. */
  method PartitionByKey<Row, Key(==, !new)>(rows: seq<Row>, existing: seq<Txn>, rowKey: Row -> Key, storedKey: Txn -> Key)
      returns (novel: seq<Row>, duplicates: seq<Row>)
    ensures novel == NewRows(rows, rowKey, StoredIn(existing, storedKey))
    ensures duplicates == Absorbed(rows, rowKey, StoredIn(existing, storedKey))
  {
    var remaining := CountStored(existing, storedKey);
    ghost var stored := StoredIn(existing, storedKey);
    hide NewRows, Absorbed, Count;
    novel, duplicates := [], [];
    PartitionNothing(rowKey, stored);
    CountNothing(rowKey);
    var i := 0;
    while i < |rows|
      invariant 0 <= i <= |rows|
      invariant novel == NewRows(rows[..i], rowKey, stored) && duplicates == Absorbed(rows[..i], rowKey, stored)
      invariant forall k :: Left(remaining, k) == Max(0, stored(k) - Count(rows[..i], rowKey, k))
    {
      var k := rowKey(rows[i]);
      assert rows[..i + 1] == rows[..i] + [rows[i]];
      PartitionOneMore(rows[..i], rows[i], rowKey, stored);
      forall q
        ensures Count(rows[..i + 1], rowKey, q) == Count(rows[..i], rowKey, q) + (if k == q then 1 else 0)
      {
        CountOneMore(rows[..i], rows[i], rowKey, q);
      }
      if Left(remaining, k) > 0 {
        remaining := remaining[k := Left(remaining, k) - 1];
        duplicates := duplicates + [rows[i]];
      } else {
        novel := novel + [rows[i]];
      }
      i := i + 1;
    }
    assert rows[..i] == rows;
  }

  /** Per key, n rows against m stored events: max(0, n - m) are new and min(n, m) are absorbed. */
  lemma {:induction false} PartitionCounts<Row, Key>(rows: seq<Row>, key: Row -> Key, stored: Key -> nat, k: Key)
    ensures Count(NewRows(rows, key, stored), key, k) == Max(0, Count(rows, key, k) - stored(k))
    ensures Count(Absorbed(rows, key, stored), key, k) == Min(Count(rows, key, k), stored(k))
  {
    if rows != [] {
      var n := |rows| - 1;
      var head, last := rows[..n], rows[n];
      assert rows == head + [last];
      PartitionCounts(head, key, stored, k);
      PartitionOneMore(head, last, key, stored);
      CountOneMore(head, last, key, k);
      CountOneMore(NewRows(head, key, stored), last, key, k);
      CountOneMore(Absorbed(head, key, stored), last, key, k);
    }
  }

  lemma CountNothing<Row, Key(!new)>(key: Row -> Key)
    ensures forall k :: Count([], key, k) == 0
  {
  }

  lemma PartitionNothing<Row, Key>(key: Row -> Key, stored: Key -> nat)
    ensures NewRows([], key, stored) == [] && Absorbed([], key, stored) == []
  {
  }

  /** Nothing is lost or duplicated: every row is either new or absorbed. */
  lemma {:induction false} PartitionIsComplete<Row, Key>(rows: seq<Row>, key: Row -> Key, stored: Key -> nat)
    ensures multiset(rows) == multiset(NewRows(rows, key, stored)) + multiset(Absorbed(rows, key, stored))
  {
    hide NewRows, Absorbed;
    if rows == [] {
      PartitionNothing(key, stored);
    } else {
      var n := |rows| - 1;
      PartitionIsComplete(rows[..n], key, stored);
      assert rows == rows[..n] + [rows[n]];
      PartitionOneMore(rows[..n], rows[n], key, stored);
    }
  }

  /** Only the stored counts of the rows' own keys matter. */
  lemma {:induction false} PartitionSeesOwnKeys<Row, Key>(rows: seq<Row>, key: Row -> Key, s: Key -> nat, t: Key -> nat)
    requires forall row :: row in rows ==> s(key(row)) == t(key(row))
    ensures NewRows(rows, key, s) == NewRows(rows, key, t) && Absorbed(rows, key, s) == Absorbed(rows, key, t)
  {
    if rows != [] {
      PartitionSeesOwnKeys(rows[..|rows| - 1], key, s, t);
    }
  }

  /** events are what an import of rows adds to existing: one event for each new row, with the row's key. */
  ghost predicate Adds<Row, Key>(existing: seq<Txn>, rows: seq<Row>, rowKey: Row -> Key, storedKey: Txn -> Key, events: seq<Txn>) {
    KeysOf(events, storedKey) == KeysOf(NewRows(rows, rowKey, StoredIn(existing, storedKey)), rowKey)
  }

  /** After a commit every key is stored max(n, m) times. */
  lemma ImportIsAJoin<Row, Key>(existing: seq<Txn>, rows: seq<Row>, rowKey: Row -> Key, storedKey: Txn -> Key,
      events: seq<Txn>, k: Key)
    requires Adds(existing, rows, rowKey, storedKey, events)
    ensures Count(existing + events, storedKey, k) == Max(Count(existing, storedKey, k), Count(rows, rowKey, k))
  {
    PartitionCounts(rows, rowKey, StoredIn(existing, storedKey), k);
    CountConcat(existing, events, storedKey, k);
  }

  /** Importing the same sheet again adds nothing. */
  lemma ReimportAddsNothing<Row, Key>(existing: seq<Txn>, rows: seq<Row>, rowKey: Row -> Key, storedKey: Txn -> Key,
      events: seq<Txn>)
    requires Adds(existing, rows, rowKey, storedKey, events)
    ensures NewRows(rows, rowKey, StoredIn(existing + events, storedKey)) == []
  {
    forall k
      ensures Count(rows, rowKey, k) <= StoredIn(existing + events, storedKey)(k)
    {
      ImportIsAJoin(existing, rows, rowKey, storedKey, events, k);
    }
    NothingNew(rows, rowKey, StoredIn(existing + events, storedKey));
  }

  lemma CountHead<Row, Key>(rows: seq<Row>, key: Row -> Key)
    requires rows != []
    ensures Count(rows, key, key(rows[0])) > 0
  {
    assert KeysOf(rows, key)[0] == key(rows[0]);
    assert key(rows[0]) in multiset(KeysOf(rows, key));
  }

  lemma NothingNew<Row, Key>(rows: seq<Row>, key: Row -> Key, stored: Key -> nat)
    requires forall k :: Count(rows, key, k) <= stored(k)
    ensures NewRows(rows, key, stored) == []
  {
    var novel := NewRows(rows, key, stored);
    if novel != [] {
      var k := key(novel[0]);
      assert Count(rows, key, k) <= stored(k);
      PartitionCounts(rows, key, stored, k);
      CountHead(novel, key);
    }
  }

  /** Overlapping sheets may be imported in either order: each key ends up stored equally often. */
  lemma ImportsCommute<Row, Key>(existing: seq<Txn>, a: seq<Row>, b: seq<Row>, rowKey: Row -> Key, storedKey: Txn -> Key,
      ea: seq<Txn>, eab: seq<Txn>, eb: seq<Txn>, eba: seq<Txn>, k: Key)
    requires Adds(existing, a, rowKey, storedKey, ea) && Adds(existing + ea, b, rowKey, storedKey, eab)
    requires Adds(existing, b, rowKey, storedKey, eb) && Adds(existing + eb, a, rowKey, storedKey, eba)
    ensures Count(existing + ea + eab, storedKey, k) == Count(existing + eb + eba, storedKey, k)
  {
    ImportIsAJoin(existing, a, rowKey, storedKey, ea, k);
    ImportIsAJoin(existing, b, rowKey, storedKey, eb, k);
    ImportIsAJoin(existing + ea, b, rowKey, storedKey, eab, k);
    ImportIsAJoin(existing + eb, a, rowKey, storedKey, eba, k);
  }

  /** A lookup may skip any stored event whose key no row has. */
  lemma {:induction false} CountOfFilters<Key>(txns: seq<Txn>, p: Txn -> bool, q: Txn -> bool, key: Txn -> Key, k: Key)
    requires forall t :: t in txns && key(t) == k ==> p(t) == q(t)
    ensures Count(Filter(txns, p), key, k) == Count(Filter(txns, q), key, k)
  {
    if txns != [] {
      CountOfFilters(txns[1..], p, q, key, k);
      CountOfFilterCons(txns, p, key, k);
      CountOfFilterCons(txns, q, key, k);
    }
  }

  lemma CountOfFilterCons<Key>(txns: seq<Txn>, p: Txn -> bool, key: Txn -> Key, k: Key)
    requires txns != []
    ensures Count(Filter(txns, p), key, k)
         == Count(Filter(txns[1..], p), key, k) + (if p(txns[0]) && key(txns[0]) == k then 1 else 0)
  {
    if p(txns[0]) {
      CountConcat([txns[0]], Filter(txns[1..], p), key, k);
      assert KeysOf([txns[0]], key) == [key(txns[0])];
    }
  }

  /** Hence a lookup that covers every row's key partitions the sheet as the whole ledger would. */
  lemma LookupIsEnough<Row, Key>(rows: seq<Row>, rowKey: Row -> Key, txns: seq<Txn>, storedKey: Txn -> Key,
      narrow: Txn -> bool, wide: Txn -> bool)
    requires forall t, row :: t in txns && row in rows && storedKey(t) == rowKey(row) ==> narrow(t) == wide(t)
    ensures NewRows(rows, rowKey, StoredIn(Filter(txns, narrow), storedKey))
         == NewRows(rows, rowKey, StoredIn(Filter(txns, wide), storedKey))
    ensures Absorbed(rows, rowKey, StoredIn(Filter(txns, narrow), storedKey))
         == Absorbed(rows, rowKey, StoredIn(Filter(txns, wide), storedKey))
  {
    forall row | row in rows
      ensures StoredIn(Filter(txns, narrow), storedKey)(rowKey(row)) == StoredIn(Filter(txns, wide), storedKey)(rowKey(row))
    {
      CountOfFilters(txns, narrow, wide, storedKey, rowKey(row));
    }
    PartitionSeesOwnKeys(rows, rowKey, StoredIn(Filter(txns, narrow), storedKey), StoredIn(Filter(txns, wide), storedKey));
  }
}
