/** The ledger write path (services/transactions.go, position.go, holdings.go). */
module WritePath {
  import opened Sequences
  import opened Money
  import opened Ledger
  import opened ReplayOrder
  import ReplayState
  import opened Erasure
  import opened Conservation
  import opened AsOfReplay
  import opened Restamping
  import opened Book

  datatype Outcome = Done | NotFound | Invalid | Oversell

  /** A request body: absent fields are None, an unknown type is a None kind. */
  datatype TxnInput = TxnInput(
    kind: Option<Kind>, date: int, quantity: Option<real>, amount: Option<real>,
    ratio: Option<real>, seed: Option<real>)

  const MAX_DIVIDEND := 1_000_000_000_000.0

  /** validateDividend: a positive amount at cent precision, below the bound, not in the future. */
  predicate ValidDividend(date: int, amount: real, today: int) {
    AmountCents(amount) > 0 && amount < MAX_DIVIDEND && DayOf(date) <= today
  }

  /** validateTxnInput; today is the IST calendar day. */
  predicate ValidInput(input: TxnInput, today: int) {
    match input.kind
    case None => false
    case Some(kind) =>
      match kind
      case Buy => input.quantity.Some? && input.quantity.value > 0.0 && input.amount.Some? && input.amount.value >= 0.0
      case Sell => input.quantity.Some? && input.quantity.value > 0.0 && input.amount.Some? && input.amount.value >= 0.0
      case Opening => input.quantity.Some? ==> input.quantity.value >= 0.0
      case Dividend => input.amount.Some? && ValidDividend(input.date, input.amount.value, today)
      case Split => input.ratio.Some? && input.ratio.value > 0.0
      case Bonus => input.ratio.Some? && input.ratio.value > 0.0
      case Merger => true
  }

  function OrZero(x: Option<real>): real {
    if x.Some? then x.value else 0.0
  }

  /** TransactionFromInput: the event a request describes, dividends rounded to cents. */
  function FromInput(input: TxnInput, id: nat, hid: nat, currency: string, now: int): Txn
    requires input.kind.Some?
  {
    var amount := OrZero(input.amount);
    Txn(id, hid, input.kind.value, input.date, OrZero(input.quantity),
        if input.kind.value.Dividend? then RoundCents(amount) else amount,
        OrZero(input.ratio), OrZero(input.seed), None, currency, now)
  }

  /** The document an update leaves: identity, stamp and currency stay; an opening moved to another day declares it. */
  function Patched(prev: Txn, input: TxnInput): Txn
    requires input.kind.Some?
  {
    var t := FromInput(input, prev.id, prev.holding, prev.currency, prev.createdAt);
    t.(openingDate := if t.kind.Opening? && t.Day() != prev.Day() then Some(t.date) else prev.openingDate)
  }

  // ----- what each operation amounts to -----

  /** The positions once a holding's ledger has been replayed and stored. */
  function Rederived(b: Book, hid: nat): Book
    requires hid in b.holdings
  {
    b.(holdings := b.holdings[hid := b.holdings[hid].(position := Replay(LedgerOf(b.txns, hid)).position)])
  }

  /** All or nothing: the changed collection with its derived position, or the book as it was. */
  function Attempt(b: Book, txns: seq<Txn>, hid: nat): (Book, Outcome)
    requires hid in b.holdings
  {
    if Replay(LedgerOf(txns, hid)).oversold then (b, Oversell)
    else (Rederived(b.(txns := txns), hid), Done)
  }

  function CreateSpec(b: Book, hid: nat, input: TxnInput, today: int, id: nat, now: int): (Book, Outcome) {
    if hid !in b.holdings then (b, NotFound)
    else if !ValidInput(input, today) then (b, Invalid)
    else Attempt(b, b.txns + [FromInput(input, id, hid, LedgerCurrency(b.holdings[hid]), now)], hid)
  }

  function UpdateSpec(b: Book, id: nat, input: TxnInput, today: int): (Book, Outcome)
    requires Closed(b)
  {
    var i := IndexOf(b.txns, id);
    if i == |b.txns| then (b, NotFound)
    else if !ValidInput(input, today) then (b, Invalid)
    else Attempt(b, b.txns[i := Patched(b.txns[i], input)], b.txns[i].holding)
  }

  /** After a rollback the position is derived once more; if the ledger is oversold the old one stays. */
  function Restored(b: Book, hid: nat): Book
    requires hid in b.holdings
  {
    if Replay(LedgerOf(b.txns, hid)).oversold then b else Rederived(b, hid)
  }

  /** A rejected delete re-inserts the event at the end of the collection. */
  function DeleteSpec(b: Book, id: nat): (Book, Outcome)
    requires Closed(b)
  {
    var i := IndexOf(b.txns, id);
    if i == |b.txns| then (b, NotFound)
    else
      var (after, outcome) := Attempt(b, Without(b.txns, i), b.txns[i].holding);
      if outcome.Oversell? then (Restored(b.(txns := Moved(b.txns, i)), b.txns[i].holding), Oversell)
      else (after, outcome)
  }

  /** The collection once the event at i has been taken out and put back. */
  function Moved(txns: seq<Txn>, i: nat): seq<Txn>
    requires i < |txns|
  {
    Without(txns, i) + [txns[i]]
  }

  /** The events of a holding that move its position. */
  function ActiveLedger(txns: seq<Txn>, hid: nat): seq<Txn> {
    Filter(LedgerOf(txns, hid), Active)
  }

  /** Those of the holding of the event at i that come after it. */
  function LaterActive(txns: seq<Txn>, i: nat): seq<Txn>
    requires i < |txns|
  {
    ActiveLedger(txns[i + 1..], txns[i].holding)
  }

  /** Whether one of them has the replay key of the event at i. */
  predicate TiedLater(txns: seq<Txn>, i: nat)
    requires i < |txns|
  {
    TiesOf(LaterActive(txns, i), txns[i]) != []
  }

  /** A currency the portfolio keeps. */
  predicate ValidCurrency(currency: string) {
    currency == "INR" || currency == "EUR"
  }

  /** The form of a new holding. */
  datatype HoldingInput = HoldingInput(
    symbol: Option<string>, script: string, currency: Option<string>,
    stocksOwned: Option<real>, avgCost: Option<real>, realizedPnL: Option<real>)

  /** HoldingFromInput: flat, and in INR unless a valid currency is given. */
  function NewHolding(input: HoldingInput): Holding {
    Holding(if input.symbol.Some? then input.symbol.value else "", input.script,
            if input.currency.Some? && ValidCurrency(input.currency.value) then input.currency.value else "INR", FLAT)
  }

  /** openingFromInput and Create of holdings.go: the opening event, if there is anything to seed. */
  function OpeningEvent(input: HoldingInput, hid: nat, id: nat, now: int): Option<Txn> {
    var qty, seed := OrZero(input.stocksOwned), OrZero(input.realizedPnL);
    var amount := if input.avgCost.Some? then qty * input.avgCost.value else 0.0;
    if qty != 0.0 || amount != 0.0 || seed != 0.0
    then Some(Txn(id, hid, Opening, now, qty, amount, 0.0, seed, None, NewHolding(input).currency, now))
    else None
  }

  function OpenSpec(b: Book, hid: nat, input: HoldingInput, id: nat, now: int): Book {
    var flat := b.(holdings := b.holdings[hid := NewHolding(input)]);
    match OpeningEvent(input, hid, id, now)
    case None => flat
    case Some(t) => Rederived(flat.(txns := b.txns + [t]), hid)
  }

  function RedateTo(id: nat, date: int): Txn -> Txn {
    (t: Txn) => if t.id == id && t.kind.Opening? then t.(date := date, openingDate := Some(date)) else t
  }

  /** The holding's opening event: the last one listed, as a map keyed by holding keeps it. */
  function OpeningOf(txns: seq<Txn>, hid: nat): Option<Txn> {
    if txns == [] then None
    else
      var t := txns[|txns| - 1];
      if t.holding == hid && t.kind.Opening? then Some(t) else OpeningOf(txns[..|txns| - 1], hid)
  }

  function SetOpeningDateSpec(b: Book, hid: nat, date: int): Book {
    match OpeningOf(b.txns, hid)
    case None => b
    case Some(t) => b.(txns := Map(b.txns, RedateTo(t.id, date)))
  }

  /** What an edit of a holding may say; positions are derived and are not among it. */
  datatype EditInput = EditInput(script: string, symbol: Option<string>, currency: Option<string>)

  /** A currency is taken over only when it is valid. */
  predicate SetsCurrency(input: EditInput) {
    input.currency.Some? && ValidCurrency(input.currency.value)
  }

  function Edited(h: Holding, input: EditInput): Holding {
    h.(script := input.script,
       symbol := if input.symbol.Some? then input.symbol.value else h.symbol,
       currency := if SetsCurrency(input) then input.currency.value else h.currency)
  }

  function StampOf(hid: nat, currency: string): Txn -> Txn {
    (t: Txn) => if t.holding == hid then t.(currency := currency) else t
  }

  /** Update of holdings.go: the identity fields, and a new currency on every event of the holding. */
  function EditSpec(b: Book, hid: nat, input: EditInput): Book {
    if hid !in b.holdings then b
    else
      var h := Edited(b.holdings[hid], input);
      Book(if SetsCurrency(input) then Map(b.txns, StampOf(hid, LedgerCurrency(h))) else b.txns, b.holdings[hid := h])
  }

  function KeptWithout(hid: nat): Txn -> bool {
    (t: Txn) => t.holding != hid
  }

  function DropSpec(b: Book, hid: nat): Book {
    Book(Filter(b.txns, KeptWithout(hid)), b.holdings - {hid})
  }

  // ----- the projection survives every attempt -----

  lemma MembersHaveHoldings(b: Book, i: nat)
    requires Projected(b) && i < |b.txns|
    ensures b.txns[i].holding in b.holdings
  {
    assert b.txns[i] in b.txns;
  }

  lemma AttemptKeepsProjection(b: Book, txns: seq<Txn>, hid: nat)
    requires Projected(b) && hid in b.holdings
    requires IdsDistinct(txns)
    requires forall t :: t in txns ==> t.holding in b.holdings
    requires forall h :: h != hid ==> LedgerOf(txns, h) == LedgerOf(b.txns, h)
    ensures Projected(Attempt(b, txns, hid).0)
  {
    var r := Attempt(b, txns, hid).0;
    forall h | h in r.holdings
      ensures ProjectedFor(r.txns, h, r.holdings[h])
    {
      assert h in b.holdings && ProjectedFor(b.txns, h, b.holdings[h]);
    }
  }

  /** Replaying a projected ledger again stores what is already stored. */
  lemma RederivedIsStable(b: Book, hid: nat)
    requires hid in b.holdings && ProjectedFor(b.txns, hid, b.holdings[hid])
    ensures Rederived(b, hid) == b
  {
    assert b.holdings[hid := b.holdings[hid]] == b.holdings;
  }

  lemma AppendKeepsIdentity(txns: seq<Txn>, t: Txn)
    requires IdsDistinct(txns)
    requires forall u :: u in txns ==> u.id != t.id
    ensures IdsDistinct(txns + [t])
  {
  }

  lemma AppendKeepsShape(b: Book, t: Txn)
    requires Projected(b) && t.holding in b.holdings
    requires forall u :: u in b.txns ==> u.id != t.id
    ensures var txns := b.txns + [t];
            && IdsDistinct(txns)
            && (forall u :: u in txns ==> u.holding in b.holdings)
            && (forall h :: h != t.holding ==> LedgerOf(txns, h) == LedgerOf(b.txns, h))
  {
    hide LedgerOf, ProjectedFor;
    var txns := b.txns + [t];
    AppendKeepsIdentity(b.txns, t);
    forall h | h != t.holding
      ensures LedgerOf(txns, h) == LedgerOf(b.txns, h)
    {
      LedgerConcat(b.txns, [t], h);
      LedgerOfOne(t, h);
      assert LedgerOf(b.txns, h) + [] == LedgerOf(b.txns, h);
    }
  }

  lemma ReplaceKeepsShape(b: Book, i: nat, t: Txn)
    requires Projected(b) && i < |b.txns|
    requires t.id == b.txns[i].id && t.holding == b.txns[i].holding
    ensures var txns := b.txns[i := t];
            && IdsDistinct(txns)
            && (forall u :: u in txns ==> u.holding in b.holdings)
            && (forall h :: h != t.holding ==> LedgerOf(txns, h) == LedgerOf(b.txns, h))
  {
    var txns := b.txns[i := t];
    ReplaceKeepsIdentity(b.txns, i, t);
    MembersHaveHoldings(b, i);
    forall u | u in txns
      ensures u.holding in b.holdings
    {
      assert u == t || u in b.txns;
    }
    forall h | h != t.holding
      ensures LedgerOf(txns, h) == LedgerOf(b.txns, h)
    {
      ReplaceKeepsLedger(b.txns, i, t, h);
    }
  }

  lemma ReplaceKeepsIdentity(txns: seq<Txn>, i: nat, t: Txn)
    requires IdsDistinct(txns) && i < |txns|
    requires t.id == txns[i].id && t.holding == txns[i].holding
    ensures IdsDistinct(txns[i := t])
  {
  }

  lemma ReplaceKeepsLedger(txns: seq<Txn>, i: nat, t: Txn, h: nat)
    requires i < |txns| && t.holding == txns[i].holding != h
    ensures LedgerOf(txns[i := t], h) == LedgerOf(txns, h)
  {
    assert txns == txns[..i] + [txns[i]] + txns[i + 1..];
    assert txns[i := t] == txns[..i] + [t] + txns[i + 1..];
    OtherLedgers(txns[..i], txns[i], t, txns[i + 1..], h);
  }

  lemma WithoutKeepsIdentity(txns: seq<Txn>, i: nat)
    requires IdsDistinct(txns) && i < |txns|
    ensures IdsDistinct(Without(txns, i))
  {
    var left := Without(txns, i);
    forall j, k | 0 <= j < k < |left|
      ensures left[j].id != left[k].id
    {
      var j' := if j < i then j else j + 1;
      var k' := if k < i then k else k + 1;
      assert left[j] == txns[j'] && left[k] == txns[k'];
    }
  }

  lemma RemoveKeepsShape(b: Book, i: nat)
    requires Projected(b) && i < |b.txns|
    ensures var txns := Without(b.txns, i);
            && IdsDistinct(txns)
            && (forall u :: u in txns ==> u.holding in b.holdings)
            && (forall h :: h != b.txns[i].holding ==> LedgerOf(txns, h) == LedgerOf(b.txns, h))
  {
    hide LedgerOf, ProjectedFor;
    var txns := Without(b.txns, i);
    WithoutKeepsIdentity(b.txns, i);
    forall u | u in txns
      ensures u.holding in b.holdings
    {
      assert u in b.txns;
    }
    assert b.txns == b.txns[..i] + [b.txns[i]] + b.txns[i + 1..];
    forall h | h != b.txns[i].holding
      ensures LedgerOf(txns, h) == LedgerOf(b.txns, h)
    {
      OtherLedgers(b.txns[..i], b.txns[i], b.txns[i], b.txns[i + 1..], h);
    }
  }

  /** A ledger before and after one of its events is taken out and put back at the end. */
  lemma MovedLedger(txns: seq<Txn>, i: nat)
    requires i < |txns|
    ensures var hid, t := txns[i].holding, txns[i];
            var before, after := LedgerOf(txns[..i], hid), LedgerOf(txns[i + 1..], hid);
            && LedgerOf(txns, hid) == before + [t] + after
            && LedgerOf(Without(txns, i), hid) == before + after
            && LedgerOf(Moved(txns, i), hid) == before + after + [t]
  {
    var hid, t, before, after := txns[i].holding, txns[i], txns[..i], txns[i + 1..];
    assert txns == before + [t] + after;
    LedgerOfOne(t, hid);
    LedgerConcat(before + [t], after, hid);
    LedgerConcat(before, [t], hid);
    LedgerConcat(before + after, [t], hid);
    LedgerConcat(before, after, hid);
  }

  lemma MovedElsewhere(txns: seq<Txn>, i: nat, h: nat)
    requires i < |txns| && h != txns[i].holding
    ensures LedgerOf(Moved(txns, i), h) == LedgerOf(txns, h)
  {
    assert txns == txns[..i] + [txns[i]] + txns[i + 1..];
    OtherLedgers(txns[..i], txns[i], txns[i], txns[i + 1..], h);
  }

  lemma ActiveAround(before: seq<Txn>, t: Txn, after: seq<Txn>)
    ensures Filter(before + after, Active) == Filter(before, Active) + Filter(after, Active)
    ensures Filter(before + [t] + after, Active)
         == Filter(before, Active) + (if Active(t) then [t] else []) + Filter(after, Active)
    ensures Filter(before + after + [t], Active)
         == Filter(before, Active) + Filter(after, Active) + (if Active(t) then [t] else [])
  {
    FilterConcat(before + [t], after, Active);
    FilterConcat(before, [t], Active);
    FilterConcat(before + after, [t], Active);
    FilterConcat(before, after, Active);
  }

  /** Only an event that moves the position can be missed by a later sell. */
  lemma RejectedDeleteIsActive(b: Book, i: nat)
    requires Projected(b) && i < |b.txns|
    requires Replay(LedgerOf(Without(b.txns, i), b.txns[i].holding)).oversold
    ensures Active(b.txns[i])
  {
    hide Replay, LedgerOf;
    var hid, t := b.txns[i].holding, b.txns[i];
    var before, after := LedgerOf(b.txns[..i], hid), LedgerOf(b.txns[i + 1..], hid);
    MembersHaveHoldings(b, i);
    assert ProjectedFor(b.txns, hid, b.holdings[hid]);
    MovedLedger(b.txns, i);
    ActiveAround(before, t, after);
    if !Active(t) {
      assert Filter(before, Active) + [] + Filter(after, Active) == Filter(before, Active) + Filter(after, Active);
    }
    DividendsAndMergersAreErasable(before + [t] + after);
    DividendsAndMergersAreErasable(before + after);
  }

  lemma LaterEventsDiffer(txns: seq<Txn>, i: nat)
    requires IdsDistinct(txns) && i < |txns|
    ensures txns[i] !in LaterActive(txns, i)
  {
    var later := LedgerOf(txns[i + 1..], txns[i].holding);
    FilterMembers(txns[i + 1..], OfHolding(txns[i].holding));
    FilterMembers(later, Active);
    var rest := txns[i + 1..];
    assert forall j :: 0 <= j < |rest| ==> rest[j] == txns[i + 1 + j];
  }

  /** Putting an event back at the end leaves the replay order of the events that count alone, unless a later one ties. */
  lemma ReinsertKeepsTheOrderIff(txns: seq<Txn>, i: nat)
    requires IdsDistinct(txns) && i < |txns| && Active(txns[i])
    ensures Sort(ActiveLedger(Moved(txns, i), txns[i].holding)) == Sort(ActiveLedger(txns, txns[i].holding))
       <==> !TiedLater(txns, i)
  {
    hide Sort;
    var hid, t := txns[i].holding, txns[i];
    var before, after := LedgerOf(txns[..i], hid), LedgerOf(txns[i + 1..], hid);
    MovedLedger(txns, i);
    ActiveAround(before, t, after);
    LaterEventsDiffer(txns, i);
    MovingToTheEndKeepsTheOrderIff(Filter(before, Active), t, Filter(after, Active));
  }

  lemma MovedToTheEnd(txns: seq<Txn>, i: nat)
    requires i < |txns|
    ensures multiset(Moved(txns, i)) == multiset(txns)
  {
    assert txns == txns[..i] + [txns[i]] + txns[i + 1..];
  }

  lemma MovedMembers(txns: seq<Txn>, i: nat)
    requires i < |txns|
    ensures forall t :: t in Moved(txns, i) <==> t in txns
  {
    MovedToTheEnd(txns, i);
    forall t
      ensures t in Moved(txns, i) <==> t in txns
    {
      assert t in multiset(Moved(txns, i)) <==> t in multiset(txns);
    }
  }

  /** Without a later tie no ledger replays differently. */
  lemma ReinsertKeepsReplays(txns: seq<Txn>, i: nat, hid: nat)
    requires IdsDistinct(txns) && i < |txns| && Active(txns[i]) && !TiedLater(txns, i)
    ensures Replay(LedgerOf(Moved(txns, i), hid)) == Replay(LedgerOf(txns, hid))
  {
    hide Replay, Sort;
    if hid != txns[i].holding {
      MovedElsewhere(txns, i, hid);
    } else {
      var before, after := LedgerOf(txns[..i], hid), LedgerOf(txns[i + 1..], hid);
      MovedLedger(txns, i);
      ReinsertKeepsTheOrderIff(txns, i);
      assert multiset(before + after + [txns[i]]) == multiset(before + [txns[i]] + after);
      SameActiveOrderSameReplay(LedgerOf(Moved(txns, i), hid), LedgerOf(txns, hid));
    }
  }

  lemma ReinsertKeepsIdentity(txns: seq<Txn>, i: nat)
    requires IdsDistinct(txns) && i < |txns|
    ensures IdsDistinct(Moved(txns, i))
  {
    var moved := Moved(txns, i);
    forall j, k | 0 <= j < k < |moved|
      ensures moved[j].id != moved[k].id
    {
      var j' := if j < i then j else j + 1;
      var k' := if k == |moved| - 1 then i else if k < i then k else k + 1;
      assert moved[j] == txns[j'] && moved[k] == txns[k'];
    }
  }

  /** The book after a rejected delete is the book with the event moved, when no later event ties with it. */
  lemma ReinsertKeepsProjection(b: Book, i: nat)
    requires Projected(b) && i < |b.txns| && Active(b.txns[i]) && !TiedLater(b.txns, i)
    ensures Projected(b.(txns := Moved(b.txns, i)))
    ensures b.txns[i].holding in b.holdings
    ensures Restored(b.(txns := Moved(b.txns, i)), b.txns[i].holding) == b.(txns := Moved(b.txns, i))
  {
    hide Replay, LedgerOf;
    var moved := Moved(b.txns, i);
    ReinsertKeepsIdentity(b.txns, i);
    MovedMembers(b.txns, i);
    MembersHaveHoldings(b, i);
    forall h | h in b.holdings
      ensures ProjectedFor(moved, h, b.holdings[h])
    {
      ReinsertKeepsReplays(b.txns, i, h);
      assert ProjectedFor(b.txns, h, b.holdings[h]);
    }
    RederivedIsStable(b.(txns := moved), b.txns[i].holding);
  }

  // ----- the operations as the source runs them -----

  /** recomputeAndPersist: stores the replayed position unless the ledger is oversold. */
  method RecomputeAndPersist(store: Store, hid: nat) returns (r: Outcome)
    modifies store`holdings
    ensures Replay(LedgerOf(store.txns, hid)).oversold ==> r == Oversell && store.holdings == old(store.holdings)
    ensures !Replay(LedgerOf(store.txns, hid)).oversold && hid !in old(store.holdings) ==>
              r == NotFound && store.holdings == old(store.holdings)
    ensures !Replay(LedgerOf(store.txns, hid)).oversold && hid in old(store.holdings) ==>
              r == Done && store.Contents() == Rederived(old(store.Contents()), hid)
  {
    var list := LedgerOf(store.txns, hid);
    var position, oversell := RecomputePosition(list);
    if oversell {
      return Oversell;
    }
    if hid !in store.holdings {
      return NotFound;
    }
    store.holdings := store.holdings[hid := store.holdings[hid].(position := position)];
    r := Done;
  }

  /** The holdings after every affected ledger has been replayed and stored. */
  function RederivedAll(b: Book, affected: seq<nat>): map<nat, Holding> {
    map h | h in b.holdings ::
      if h in affected then b.holdings[h].(position := Replay(LedgerOf(b.txns, h)).position) else b.holdings[h]
  }

  /** Every position is derived from its ledger. */
  function Reprojected(b: Book): Book {
    b.(holdings := map h | h in b.holdings :: b.holdings[h].(position := Replay(LedgerOf(b.txns, h)).position))
  }

  /** Deriving the holdings a batch touched derives them all, and restores the projection if no ledger is oversold. */
  lemma RederivedAllIsReprojected(b: Book, b2: Book, affected: seq<nat>)
    requires PositionsProjected(b) && b2.holdings == b.holdings
    requires forall h :: h in b.holdings && h !in affected ==> LedgerOf(b2.txns, h) == LedgerOf(b.txns, h)
    ensures b2.(holdings := RederivedAll(b2, affected)) == Reprojected(b2)
    ensures (forall h :: h in affected && h in b2.holdings ==> !Replay(LedgerOf(b2.txns, h)).oversold) ==>
              PositionsProjected(Reprojected(b2))
  {
    hide Replay, LedgerOf;
    forall h | h in b2.holdings
      ensures RederivedAll(b2, affected)[h] == Reprojected(b2).holdings[h]
      ensures h !in affected ==> ProjectedFor(b2.txns, h, Reprojected(b2).holdings[h])
    {
      assert ProjectedFor(b.txns, h, b.holdings[h]);
    }
  }

  /** The commit loop of the imports: stops at the first ledger that is oversold. */
  method RecomputeAll(store: Store, affected: seq<nat>) returns (r: Outcome)
    requires forall h :: h in affected ==> h in store.holdings
    modifies store`holdings
    ensures r == Done || r == Oversell
    ensures r == Done <==> forall h :: h in affected ==> !Replay(LedgerOf(store.txns, h)).oversold
    ensures r == Done ==> store.holdings == RederivedAll(old(store.Contents()), affected)
  {
    ghost var b := store.Contents();
    var i := 0;
    while i < |affected|
      invariant 0 <= i <= |affected|
      invariant store.holdings == RederivedAll(b, affected[..i])
      invariant forall h :: h in affected[..i] ==> !Replay(LedgerOf(store.txns, h)).oversold
    {
      r := RecomputeAndPersist(store, affected[i]);
      if r != Done {
        assert affected[i] in affected;
        return;
      }
      assert affected[..i + 1] == affected[..i] + [affected[i]];
      i := i + 1;
    }
    assert affected[..i] == affected;
    r := Done;
  }

  /** Create: insert, replay, and take the event out again if it oversold. */
  method Create(store: Store, hid: nat, input: TxnInput, today: int, id: nat, now: int) returns (r: Outcome)
    requires store.Valid()
    requires forall t :: t in store.txns ==> t.id != id
    modifies store
    ensures store.Valid()
    ensures (store.Contents(), r) == CreateSpec(old(store.Contents()), hid, input, today, id, now)
  {
    ghost var b := store.Contents();
    if hid !in store.holdings {
      return NotFound;
    }
    if !ValidInput(input, today) {
      return Invalid;
    }
    var t := FromInput(input, id, hid, LedgerCurrency(store.holdings[hid]), now);
    CreateKeepsProjection(b, hid, input, today, id, now);
    store.txns := store.txns + [t];
    r := RecomputeAndPersist(store, hid);
    if r != Done {
      LastIndex(b.txns, t);
      var deleted := store.DeleteById(id);
      assert store.txns == b.txns;
    }
  }

  lemma {:induction false} LastIndex(txns: seq<Txn>, t: Txn)
    requires forall u :: u in txns ==> u.id != t.id
    ensures IndexOf(txns + [t], t.id) == |txns|
  {
    if txns != [] {
      assert (txns + [t])[1..] == txns[1..] + [t];
      LastIndex(txns[1..], t);
    }
  }

  /** Update: overwrite in place, replay, and restore every field if the ledger is now oversold. */
  method Update(store: Store, id: nat, input: TxnInput, today: int) returns (r: Outcome)
    requires store.Valid()
    modifies store
    ensures store.Valid()
    ensures (store.Contents(), r) == UpdateSpec(old(store.Contents()), id, input, today)
  {
    ghost var b := store.Contents();
    var i := store.Find(id);
    if i == |store.txns| {
      return NotFound;
    }
    if !ValidInput(input, today) {
      return Invalid;
    }
    var prev := store.txns[i];
    MembersHaveHoldings(b, i);
    UpdateKeepsProjection(b, id, input, today);
    store.txns := store.txns[i := Patched(prev, input)];
    r := RecomputeAndPersist(store, prev.holding);
    if r != Done {
      store.txns := store.txns[i := store.txns[i].(
        kind := prev.kind, date := prev.date, quantity := prev.quantity, amount := prev.amount,
        ratio := prev.ratio, seed := prev.seed, openingDate := prev.openingDate)];
      assert store.txns == b.txns;
      RederivedIsStable(b, prev.holding);
      var again := RecomputeAndPersist(store, prev.holding);
    }
  }

  /** Delete: remove, replay, and re-insert at the end if the ledger is now oversold. */
  method Delete(store: Store, id: nat) returns (r: Outcome)
    requires store.Valid()
    modifies store
    ensures (store.Contents(), r) == DeleteSpec(old(store.Contents()), id)
    ensures r == Oversell ==> IndexOf(old(store.txns), id) < |old(store.txns)|
    ensures (r == Oversell && TiedLater(old(store.txns), IndexOf(old(store.txns), id))) || store.Valid()
  {
    ghost var b := store.Contents();
    var i := store.Find(id);
    if i == |store.txns| {
      return NotFound;
    }
    var prev := store.txns[i];
    MembersHaveHoldings(b, i);
    DeleteKeepsProjection(b, id);
    var deleted := store.DeleteById(id);
    r := RecomputeAndPersist(store, prev.holding);
    if r != Done {
      store.txns := store.txns + [prev];
      assert store.txns == Moved(b.txns, i);
      var again := RecomputeAndPersist(store, prev.holding);
    }
  }

  // ----- holdings -----

  lemma {:induction false} NoLedgerBefore(b: Book, hid: nat)
    requires hid !in b.holdings && forall t :: t in b.txns ==> t.holding in b.holdings
    ensures LedgerOf(b.txns, hid) == []
  {
    FilterNone(b.txns, OfHolding(hid));
  }

  lemma OneOpeningIsAccepted(t: Txn)
    requires t.kind.Opening?
    ensures !Replay([t]).oversold && Replay([]) == Replayed(FLAT, false)
  {
    SortOfOrdered([t]);
    ReplayState.RunOne(START, t);
  }

  lemma OpenKeepsProjection(b: Book, hid: nat, input: HoldingInput, id: nat, now: int)
    requires Projected(b) && hid !in b.holdings && forall t :: t in b.txns ==> t.id != id
    ensures Projected(OpenSpec(b, hid, input, id, now))
  {
    var flat := b.(holdings := b.holdings[hid := NewHolding(input)]);
    NoLedgerBefore(b, hid);
    assert Projected(flat) by {
      OneOpeningIsAccepted(Txn(id, hid, Opening, now, 0.0, 0.0, 0.0, 0.0, None, "", now));
      assert ProjectedFor(b.txns, hid, flat.holdings[hid]);
      assert forall h :: h in b.holdings ==> ProjectedFor(b.txns, h, b.holdings[h]);
    }
    match OpeningEvent(input, hid, id, now) {
      case None =>
      case Some(t) =>
        AppendKeepsShape(flat, t);
        LedgerConcat(b.txns, [t], hid);
        LedgerOfOne(t, hid);
        OneOpeningIsAccepted(t);
        AttemptKeepsProjection(flat, b.txns + [t], hid);
    }
  }

  /** Create of holdings.go: a flat holding, then its opening event and the position it derives. */
  method OpenHolding(store: Store, hid: nat, input: HoldingInput, id: nat, now: int)
    requires store.Valid() && hid !in store.holdings
    requires forall t :: t in store.txns ==> t.id != id
    modifies store
    ensures store.Valid()
    ensures store.Contents() == OpenSpec(old(store.Contents()), hid, input, id, now)
  {
    ghost var b := store.Contents();
    OpenKeepsProjection(b, hid, input, id, now);
    store.holdings := store.holdings[hid := NewHolding(input)];
    var opening := OpeningEvent(input, hid, id, now);
    if opening.Some? {
      store.txns := store.txns + [opening.value];
      NoLedgerBefore(b, hid);
      LedgerConcat(b.txns, [opening.value], hid);
      LedgerOfOne(opening.value, hid);
      OneOpeningIsAccepted(opening.value);
      var r := RecomputeAndPersist(store, hid);
    }
  }

  lemma {:induction false} LedgerOfMapped(txns: seq<Txn>, f: Txn -> Txn, hid: nat)
    requires forall t :: f(t).holding == t.holding
    ensures LedgerOf(Map(txns, f), hid) == Map(LedgerOf(txns, hid), f)
  {
    if txns != [] {
      LedgerOfMapped(txns[1..], f, hid);
      assert Map(txns, f)[1..] == Map(txns[1..], f);
      assert LedgerOf(txns, hid) == (if txns[0].holding == hid then [txns[0]] else []) + LedgerOf(txns[1..], hid);
    }
  }

  /** Setting an opening date moves no position and cannot oversell: the source needs no rollback here. */
  lemma RedateKeepsProjection(b: Book, id: nat, date: int)
    requires Projected(b)
    ensures Projected(b.(txns := Map(b.txns, RedateTo(id, date))))
  {
    hide LedgerOf, Replay;
    var f := RedateTo(id, date);
    forall h | h in b.holdings
      ensures ProjectedFor(Map(b.txns, f), h, b.holdings[h])
    {
      LedgerOfMapped(b.txns, f, h);
      OpeningDatesAreIrrelevant(LedgerOf(b.txns, h), f);
      assert ProjectedFor(b.txns, h, b.holdings[h]);
    }
    forall t: Txn | t in Map(b.txns, f)
      ensures t.holding in b.holdings
    {
      var i :| 0 <= i < |b.txns| && f(b.txns[i]) == t;
      assert b.txns[i] in b.txns;
    }
  }

  lemma {:induction false} OpeningFromEnd(txns: seq<Txn>, hid: nat)
    ensures OpeningOf(txns, hid).Some? ==>
              OpeningOf(txns, hid).value in txns && OpeningOf(txns, hid).value.kind.Opening?
              && OpeningOf(txns, hid).value.holding == hid
  {
    if txns != [] {
      OpeningFromEnd(txns[..|txns| - 1], hid);
    }
  }

  /** OpeningsByUser, for one holding: later openings overwrite earlier ones in the map. */
  method FindOpening(txns: seq<Txn>, hid: nat) returns (found: Option<Txn>)
    ensures found == OpeningOf(txns, hid)
  {
    found := None;
    var i := 0;
    while i < |txns|
      invariant 0 <= i <= |txns|
      invariant found == OpeningOf(txns[..i], hid)
    {
      if txns[i].holding == hid && txns[i].kind.Opening? {
        found := Some(txns[i]);
      }
      assert txns[..i + 1][..i] == txns[..i];
      i := i + 1;
    }
    assert txns[..i] == txns;
  }

  /** setOpeningDate: stamps the opening and re-derives; always succeeds, and no position moves. */
  method SetOpeningDate(store: Store, hid: nat, date: int) returns (r: Outcome)
    requires store.Valid()
    modifies store
    ensures store.Valid() && r == Done
    ensures store.Contents() == SetOpeningDateSpec(old(store.Contents()), hid, date)
    ensures store.holdings == old(store.holdings)
  {
    hide Replay, LedgerOf;
    ghost var b := store.Contents();
    var opening := FindOpening(store.txns, hid);
    if opening.None? {
      return Done;
    }
    OpeningFromEnd(b.txns, hid);
    ghost var id := opening.value.id;
    RedateKeepsProjection(b, id, date);
    assert opening.value in b.txns;
    var i := store.Find(opening.value.id);
    IndexOfMember(b.txns, opening.value);
    store.txns := store.txns[i := store.txns[i].(date := date, openingDate := Some(date))];
    assert store.txns == Map(b.txns, RedateTo(id, date));
    assert ProjectedFor(store.txns, hid, store.holdings[hid]);
    RederivedIsStable(store.Contents(), hid);
    r := RecomputeAndPersist(store, hid);
  }

  lemma EditKeepsLedgers(b: Book, hid: nat, input: EditInput, h: nat, cutoff: int)
    ensures Replay(LedgerOf(EditSpec(b, hid, input).txns, h)) == Replay(LedgerOf(b.txns, h))
    ensures Replay(AsOf(LedgerOf(EditSpec(b, hid, input).txns, h), cutoff)) == Replay(AsOf(LedgerOf(b.txns, h), cutoff))
  {
    hide Replay, LedgerOf, AsOf;
    if hid in b.holdings && SetsCurrency(input) {
      var f := StampOf(hid, LedgerCurrency(Edited(b.holdings[hid], input)));
      assert Restamps(f);
      LedgerOfMapped(b.txns, f, h);
      ReplayIgnoresCurrency(LedgerOf(b.txns, h), f);
      AsOfIgnoresCurrency(LedgerOf(b.txns, h), f, cutoff);
    }
  }

  /** Editing a holding moves no position, its new currency included. */
  lemma EditKeepsProjection(b: Book, hid: nat, input: EditInput)
    requires Projected(b)
    ensures Projected(EditSpec(b, hid, input))
  {
    hide Replay, LedgerOf;
    var b2 := EditSpec(b, hid, input);
    forall h | h in b2.holdings
      ensures ProjectedFor(b2.txns, h, b2.holdings[h])
    {
      EditKeepsLedgers(b, hid, input, h, 0);
      assert ProjectedFor(b.txns, h, b.holdings[h]);
    }
    forall t | t in b2.txns
      ensures t.holding in b2.holdings
    {
      var i :| 0 <= i < |b2.txns| && b2.txns[i] == t;
      assert b.txns[i] in b.txns && b.txns[i].holding == t.holding;
    }
  }

  /** Update of holdings.go without its opening date, which `SetOpeningDate` sets. */
  method EditHolding(store: Store, hid: nat, input: EditInput) returns (found: bool)
    requires store.Valid()
    modifies store
    ensures store.Valid()
    ensures found == (hid in old(store.holdings))
    ensures store.Contents() == EditSpec(old(store.Contents()), hid, input)
  {
    EditKeepsProjection(store.Contents(), hid, input);
    if hid !in store.holdings {
      return false;
    }
    var h := store.holdings[hid];
    h := h.(script := input.script);
    if input.symbol.Some? {
      h := h.(symbol := input.symbol.value);
    }
    if SetsCurrency(input) {
      h := h.(currency := input.currency.value);
    }
    store.holdings := store.holdings[hid := h];
    if SetsCurrency(input) {
      store.txns := Map(store.txns, StampOf(hid, LedgerCurrency(h)));
    }
    found := true;
  }

  lemma IndexOfMember(txns: seq<Txn>, t: Txn)
    requires IdsDistinct(txns) && t in txns
    ensures IndexOf(txns, t.id) < |txns| && txns[IndexOf(txns, t.id)] == t
  {
    var j :| 0 <= j < |txns| && txns[j] == t;
    var i := IndexOf(txns, t.id);
    assert i <= j;
  }

  lemma {:induction false} DropKeepsOthers(txns: seq<Txn>, hid: nat, h: nat)
    requires h != hid
    ensures LedgerOf(Filter(txns, KeptWithout(hid)), h) == LedgerOf(txns, h)
  {
    FilterTwice(txns, KeptWithout(hid), OfHolding(h));
    FilterCongruence(txns, Both(KeptWithout(hid), OfHolding(h)), OfHolding(h));
  }

  lemma DropKeepsIdentity(txns: seq<Txn>, hid: nat)
    requires IdsDistinct(txns)
    ensures IdsDistinct(Filter(txns, KeptWithout(hid)))
  {
    var kept := Filter(txns, KeptWithout(hid));
    forall i, j | 0 <= i < j < |kept|
      ensures kept[i].id != kept[j].id
    {
      var k, l := SubsequenceOf(txns, KeptWithout(hid), i, j);
    }
  }

  lemma DropKeepsProjection(b: Book, hid: nat)
    requires Projected(b)
    ensures Projected(DropSpec(b, hid))
  {
    var r := DropSpec(b, hid);
    DropKeepsIdentity(b.txns, hid);
    FilterMembers(b.txns, KeptWithout(hid));
    forall h | h in r.holdings
      ensures ProjectedFor(r.txns, h, r.holdings[h])
    {
      DropKeepsOthers(b.txns, hid, h);
      assert ProjectedFor(b.txns, h, b.holdings[h]);
    }
  }

  /** Delete of holdings.go: the holding, then its ledger. */
  method DropHolding(store: Store, hid: nat) returns (deleted: bool)
    requires store.Valid()
    modifies store
    ensures store.Valid()
    ensures deleted == (hid in old(store.holdings))
    ensures store.Contents() == if deleted then DropSpec(old(store.Contents()), hid) else old(store.Contents())
  {
    if hid !in store.holdings {
      return false;
    }
    DropKeepsProjection(store.Contents(), hid);
    store.holdings := store.holdings - {hid};
    store.txns := Filter(store.txns, KeptWithout(hid));
    deleted := true;
  }

  // ----- one operation -----

  lemma CreateKeepsProjection(b: Book, hid: nat, input: TxnInput, today: int, id: nat, now: int)
    requires Projected(b) && forall t :: t in b.txns ==> t.id != id
    ensures Projected(CreateSpec(b, hid, input, today, id, now).0)
  {
    if hid in b.holdings && ValidInput(input, today) {
      var t := FromInput(input, id, hid, LedgerCurrency(b.holdings[hid]), now);
      AppendKeepsShape(b, t);
      AttemptKeepsProjection(b, b.txns + [t], hid);
    }
  }

  lemma UpdateKeepsProjection(b: Book, id: nat, input: TxnInput, today: int)
    requires Projected(b)
    ensures Projected(UpdateSpec(b, id, input, today).0)
  {
    var i := IndexOf(b.txns, id);
    if i < |b.txns| && ValidInput(input, today) {
      MembersHaveHoldings(b, i);
      ReplaceKeepsShape(b, i, Patched(b.txns[i], input));
      AttemptKeepsProjection(b, b.txns[i := Patched(b.txns[i], input)], b.txns[i].holding);
    }
  }

  /** A delete keeps the projection, unless it is rejected and a later event ties with the one put back. */
  lemma DeleteKeepsProjection(b: Book, id: nat)
    requires Projected(b)
    ensures DeleteSpec(b, id).1.Oversell? ==> IndexOf(b.txns, id) < |b.txns|
    ensures (DeleteSpec(b, id).1.Oversell? && TiedLater(b.txns, IndexOf(b.txns, id))) || Projected(DeleteSpec(b, id).0)
  {
    hide Replay, LedgerOf;
    var i := IndexOf(b.txns, id);
    if i < |b.txns| {
      MembersHaveHoldings(b, i);
      RemoveKeepsShape(b, i);
      if DeleteSpec(b, id).1.Oversell? {
        RejectedDeleteIsActive(b, i);
        if !TiedLater(b.txns, i) {
          ReinsertKeepsProjection(b, i);
        }
      } else {
        AttemptKeepsProjection(b, Without(b.txns, i), b.txns[i].holding);
      }
    }
  }

  /**
   * A rejected delete keeps every event. When no later event of the holding that counts has its
   * replay key, it keeps every position and what every ledger replays to.
   */
  lemma RejectedDeleteChangesNoReplay(b: Book, id: nat)
    requires Projected(b) && DeleteSpec(b, id).1.Oversell?
    ensures IndexOf(b.txns, id) < |b.txns| && multiset(DeleteSpec(b, id).0.txns) == multiset(b.txns)
    ensures !TiedLater(b.txns, IndexOf(b.txns, id)) ==>
              && DeleteSpec(b, id).0.holdings == b.holdings
              && forall hid :: Replay(LedgerOf(DeleteSpec(b, id).0.txns, hid)) == Replay(LedgerOf(b.txns, hid))
  {
    hide Replay, LedgerOf, ProjectedFor;
    var i := IndexOf(b.txns, id);
    MembersHaveHoldings(b, i);
    RejectedDeleteIsActive(b, i);
    MovedToTheEnd(b.txns, i);
    if !TiedLater(b.txns, i) {
      ReinsertKeepsProjection(b, i);
      forall hid
        ensures Replay(LedgerOf(Moved(b.txns, i), hid)) == Replay(LedgerOf(b.txns, hid))
      {
        ReinsertKeepsReplays(b.txns, i, hid);
      }
    }
  }

  /** The condition is exact for the replay order: it is kept if and only if no later event ties. */
  lemma RejectedDeleteKeepsTheOrderIff(b: Book, id: nat)
    requires Projected(b) && DeleteSpec(b, id).1.Oversell?
    ensures IndexOf(b.txns, id) < |b.txns|
    ensures var i := IndexOf(b.txns, id);
            var hid := b.txns[i].holding;
            Sort(ActiveLedger(DeleteSpec(b, id).0.txns, hid)) == Sort(ActiveLedger(b.txns, hid)) <==> !TiedLater(b.txns, i)
  {
    hide Replay, LedgerOf, Sort;
    var i := IndexOf(b.txns, id);
    MembersHaveHoldings(b, i);
    RejectedDeleteIsActive(b, i);
    ReinsertKeepsTheOrderIff(b.txns, i);
  }
}
