/** The ledger and the positions derived from it, as values and as the mutable stores. */
module Book {
  import opened Sequences
  import opened Ledger
  import opened ReplayOrder

  datatype Holding = Holding(symbol: string, script: string, currency: string, position: Position)

  /** Upper-cases the ASCII letters. */
  function Upper(s: string): (r: string)
    ensures |r| == |s|
  {
    Map(s, c => if 'a' <= c <= 'z' then c - 'a' + 'A' else c)
  }

  /** CurrencyOf: the bucket of a holding, None when it has none. */
  function CurrencyOf(h: Holding): Option<string> {
    var c := Upper(h.currency);
    if c == "INR" || c == "EUR" then Some(c) else if c == "" then Some("INR") else None
  }

  /** ledgerCurrency: never blank. */
  function LedgerCurrency(h: Holding): (c: string)
    ensures c != ""
    ensures CurrencyOf(h).Some? ==> c == CurrencyOf(h).value
  {
    if CurrencyOf(h).Some? then CurrencyOf(h).value else Upper(h.currency)
  }

  /** Everything one user owns: the transaction collection in insertion order, and the holdings. */
  datatype Book = Book(txns: seq<Txn>, holdings: map<nat, Holding>)

  function OfHolding(hid: nat): Txn -> bool {
    (t: Txn) => t.holding == hid
  }

  /** ListByHolding; the store's own sort is absorbed by the replay (`ListingOrderIsAbsorbed`). */
  function LedgerOf(txns: seq<Txn>, hid: nat): seq<Txn> {
    Filter(txns, OfHolding(hid))
  }

  ghost predicate IdsDistinct(txns: seq<Txn>) {
    forall i, j :: 0 <= i < j < |txns| ==> txns[i].id != txns[j].id
  }

  /** The stored position is the replay of the stored ledger, and the ledger is not oversold. */
  ghost predicate ProjectedFor(txns: seq<Txn>, hid: nat, h: Holding) {
    Replay(LedgerOf(txns, hid)) == Replayed(h.position, false)
  }

  /** Every event belongs to a holding. */
  ghost predicate Closed(b: Book) {
    forall t :: t in b.txns ==> t.holding in b.holdings
  }

  /** Every stored position is its ledger's replay. */
  ghost predicate PositionsProjected(b: Book) {
    forall hid :: hid in b.holdings ==> ProjectedFor(b.txns, hid, b.holdings[hid])
  }

  ghost predicate Projected(b: Book) {
    IdsDistinct(b.txns) && Closed(b) && PositionsProjected(b)
  }

  function IndexOf(txns: seq<Txn>, id: nat): (i: nat)
    ensures i <= |txns|
    ensures i < |txns| ==> txns[i].id == id
    ensures forall j :: 0 <= j < i ==> txns[j].id != id
  {
    if txns == [] || txns[0].id == id then 0 else 1 + IndexOf(txns[1..], id)
  }

  function Without(txns: seq<Txn>, i: nat): seq<Txn>
    requires i < |txns|
  {
    txns[..i] + txns[i + 1..]
  }

  class Store {
    var txns: seq<Txn>
    var holdings: map<nat, Holding>

    constructor ()
      ensures Contents() == Book([], map[])
    {
      txns, holdings := [], map[];
    }

    ghost function Contents(): Book
      reads this
    {
      Book(txns, holdings)
    }

    ghost predicate Valid()
      reads this
    {
      Projected(Contents())
    }

    /** The position of the transaction with this id in the collection, or its size. */
    method Find(id: nat) returns (i: nat)
      ensures i == IndexOf(txns, id)
    {
      i := 0;
      while i < |txns| && txns[i].id != id
        invariant i <= |txns|
        invariant IndexOf(txns, id) == i + IndexOf(txns[i..], id)
      {
        assert txns[i..][0] == txns[i] && txns[i..][1..] == txns[i + 1..];
        i := i + 1;
      }
    }

    /** DeleteScoped: removes the transaction with this id. */
    method DeleteById(id: nat) returns (deleted: bool)
      modifies this`txns
      ensures deleted == (IndexOf(old(txns), id) < |old(txns)|)
      ensures txns == if deleted then Without(old(txns), IndexOf(old(txns), id)) else old(txns)
    {
      var i := Find(id);
      deleted := i < |txns|;
      if deleted {
        txns := txns[..i] + txns[i + 1..];
      }
    }
  }

  // ----- ledgers of a changed collection -----

  lemma {:induction false} LedgerConcat(xs: seq<Txn>, ys: seq<Txn>, hid: nat)
    ensures LedgerOf(xs + ys, hid) == LedgerOf(xs, hid) + LedgerOf(ys, hid)
  {
    FilterConcat(xs, ys, OfHolding(hid));
  }

  lemma LedgerOfOne(t: Txn, hid: nat)
    ensures LedgerOf([t], hid) == if t.holding == hid then [t] else []
  {
  }

  /** Replacing, adding or removing an event of one holding leaves every other ledger alone. */
  lemma OtherLedgers(before: seq<Txn>, t: Txn, u: Txn, after: seq<Txn>, hid: nat)
    requires t.holding != hid && u.holding != hid
    ensures LedgerOf(before + [t] + after, hid) == LedgerOf(before + after, hid)
    ensures LedgerOf(before + [u] + after, hid) == LedgerOf(before + after, hid)
    ensures LedgerOf(before + after + [t], hid) == LedgerOf(before + after, hid)
  {
    LedgerConcat(before + [t], after, hid);
    LedgerConcat(before, [t], hid);
    LedgerConcat(before + [u], after, hid);
    LedgerConcat(before, [u], hid);
    LedgerConcat(before, after, hid);
    LedgerConcat(before + after, [t], hid);
  }

  lemma {:induction false} SubsequenceOf(xs: seq<Txn>, keep: Txn -> bool, i: nat, j: nat) returns (k: nat, l: nat)
    requires i < j < |Filter(xs, keep)|
    ensures k < l < |xs| && xs[k] == Filter(xs, keep)[i] && xs[l] == Filter(xs, keep)[j]
    ensures keep(xs[k]) && keep(xs[l])
  {
    if keep(xs[0]) {
      if i == 0 {
        k := 0;
        FilterMembers(xs[1..], keep);
        assert Filter(xs, keep)[j] == Filter(xs[1..], keep)[j - 1];
        assert Filter(xs[1..], keep)[j - 1] in xs[1..];
        var m :| 0 <= m < |xs[1..]| && xs[1..][m] == Filter(xs[1..], keep)[j - 1];
        l := m + 1;
      } else {
        k, l := SubsequenceOf(xs[1..], keep, i - 1, j - 1);
        k, l := k + 1, l + 1;
      }
    } else {
      k, l := SubsequenceOf(xs[1..], keep, i, j);
      k, l := k + 1, l + 1;
    }
  }

  /** However the store lists a ledger, as long as ties keep their order, the replay is the same. */
  lemma ListingOrderIsAbsorbed(ledger: seq<Txn>, listed: seq<Txn>)
    requires SameTies(ledger, listed)
    ensures Replay(listed) == Replay(ledger)
  {
    SortSeesTies(ledger, listed);
  }

  // ----- a book of one holding -----

  /** One holding with these events, at the position they replay to. */
  function OneBook(hid: nat, ts: seq<Txn>): Book {
    Book(ts, map[hid := Holding("X", "X", "INR", Replay(ts).position)])
  }

  lemma OneLedger(hid: nat, ts: seq<Txn>)
    requires forall t :: t in ts ==> t.holding == hid
    ensures LedgerOf(ts, hid) == ts
  {
    FilterAll(ts, OfHolding(hid));
  }

  lemma OneBookIsProjected(hid: nat, ts: seq<Txn>)
    requires forall t :: t in ts ==> t.holding == hid
    requires IdsDistinct(ts) && !Replay(ts).oversold
    ensures Projected(OneBook(hid, ts))
  {
    OneLedger(hid, ts);
  }
}
