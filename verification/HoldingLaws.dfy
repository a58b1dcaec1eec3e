/** What the writes on whole holdings leave in the book, and the copies of a holding's currency (services/holdings.go). */
module HoldingLaws {
  import opened Sequences
  import opened Money
  import opened Ledger
  import opened Book
  import opened WritePath
  import opened LedgerMachine
  import DividendImport
  import TradeImport
  import Tallies
  import Tab = DividendView

  // ----- opening -----

  function Shares(input: HoldingInput): real { OrZero(input.stocksOwned) }

  /** Something to seed: shares or a profit. */
  predicate Seeds(input: HoldingInput) {
    Shares(input) != 0.0 || OrZero(input.realizedPnL) != 0.0
  }

  /** The holding typed: its symbol and script, in euros when it says so and in rupees otherwise. */
  predicate IsTyped(h: Holding, input: HoldingInput) {
    && h.script == input.script && h.symbol == (if input.symbol == None then "" else input.symbol.value)
    && h.currency == (if input.currency == Some("EUR") then "EUR" else "INR")
  }

  /**
   * A new holding is the one typed. With shares or a profit to seed, one event is added: an opening of those shares at
   * the typed cost with that profit, dated and inserted now. Nothing else changes.
   */
  lemma OpeningRecordsTheForm(b: Book, hid: nat, input: HoldingInput, id: nat, now: int)
    requires hid !in b.holdings
    ensures var after := OpenSpec(b, hid, input, id, now);
            && after.holdings.Keys == b.holdings.Keys + {hid} && IsTyped(after.holdings[hid], input)
            && (forall h :: h in b.holdings ==> after.holdings[h] == b.holdings[h])
            && b.txns <= after.txns && |after.txns| == |b.txns| + (if Seeds(input) then 1 else 0)
            && (Seeds(input) ==>
                  after.txns[|b.txns|] == Txn(id, hid, Opening, now, Shares(input), Shares(input) * OrZero(input.avgCost), 0.0,
                                              OrZero(input.realizedPnL), None, after.holdings[hid].currency, now))
  {
    hide Replay, LedgerOf;
    if Shares(input) == 0.0 {
      assert Shares(input) * OrZero(input.avgCost) == 0.0;
    }
  }

  // ----- dating the opening -----

  /** i is the last opening of the holding. */
  ghost predicate LastOpening(txns: seq<Txn>, hid: nat, i: int) {
    && 0 <= i < |txns| && txns[i].holding == hid && txns[i].kind == Opening
    && forall j :: i < j < |txns| ==> !(txns[j].holding == hid && txns[j].kind == Opening)
  }

  lemma {:induction false} OpeningIsTheLast(txns: seq<Txn>, hid: nat) returns (i: int)
    ensures OpeningOf(txns, hid).Some? ==> LastOpening(txns, hid, i) && OpeningOf(txns, hid) == Some(txns[i])
    ensures OpeningOf(txns, hid).None? ==> forall j :: !LastOpening(txns, hid, j)
    decreases |txns|
  {
    i := -1;
    if txns != [] {
      var n := |txns| - 1;
      if txns[n].holding == hid && txns[n].kind.Opening? {
        i := n;
      } else {
        i := OpeningIsTheLast(txns[..n], hid);
        forall j | LastOpening(txns, hid, j)
          ensures LastOpening(txns[..n], hid, j)
        {
        }
      }
    }
  }

  /** Dating a holding stamps its last opening with the day, as its date and as its declared date, and nothing else. */
  lemma DatingStampsTheOpening(b: Book, hid: nat, date: int)
    requires IdsDistinct(b.txns)
    ensures var after := SetOpeningDateSpec(b, hid, date);
            && after.holdings == b.holdings && |after.txns| == |b.txns|
            && forall i :: 0 <= i < |b.txns| ==>
                 after.txns[i] == if LastOpening(b.txns, hid, i) then b.txns[i].(date := date, openingDate := Some(date))
                                  else b.txns[i]
  {
    var i := OpeningIsTheLast(b.txns, hid);
  }

  // ----- editing and dropping -----

  /**
   * An edit takes over the script, a symbol if one is given, and a currency if it is INR or EUR; it then stamps that
   * currency on the holding's events and on no other. Positions, other holdings and all else stay.
   */
  lemma EditTakesOverTheForm(b: Book, hid: nat, input: EditInput)
    requires hid in b.holdings
    ensures var after, h := EditSpec(b, hid, input), b.holdings[hid];
            var given := input.currency == Some("INR") || input.currency == Some("EUR");
            && after.holdings.Keys == b.holdings.Keys && |after.txns| == |b.txns|
            && (forall g :: g in b.holdings && g != hid ==> after.holdings[g] == b.holdings[g])
            && after.holdings[hid].script == input.script && after.holdings[hid].position == h.position
            && after.holdings[hid].symbol == (if input.symbol.Some? then input.symbol.value else h.symbol)
            && after.holdings[hid].currency == (if given then input.currency.value else h.currency)
            && forall i :: 0 <= i < |b.txns| ==>
                 after.txns[i] == if given && b.txns[i].holding == hid then b.txns[i].(currency := input.currency.value)
                                  else b.txns[i]
  {
    if SetsCurrency(input) {
      CapitalsStand(input.currency.value);
    }
  }

  lemma CapitalsStand(currency: string)
    requires currency == "INR" || currency == "EUR"
    ensures Upper(currency) == currency
  {
    assert forall i :: 0 <= i < |currency| ==> Upper(currency)[i] == currency[i];
  }

  /** Dropping a holding takes out the holding and exactly its events. */
  lemma DropTakesOutTheLedger(b: Book, hid: nat)
    ensures var after := DropSpec(b, hid);
            && after.holdings == (map h | h in b.holdings && h != hid :: b.holdings[h])
            && LedgerOf(after.txns, hid) == [] && forall h :: h != hid ==> LedgerOf(after.txns, h) == LedgerOf(b.txns, h)
  {
    FilterMembers(b.txns, KeptWithout(hid));
    FilterNone(Filter(b.txns, KeptWithout(hid)), OfHolding(hid));
    forall h | h != hid {
      DropKeepsOthers(b.txns, hid, h);
    }
  }

  // ----- deleting a currency's dividends -----

  /** Anything but a dividend of the currency. */
  function Spared(currency: string): Txn -> bool {
    (t: Txn) => t.kind != Dividend || t.currency != currency
  }

  /** Delete all, when it goes through, takes out exactly the dividends of the currency and leaves the rest in order. */
  lemma DeleteAllTakesOutTheCurrency(b: Book, currency: string)
    ensures var (after, r) := DividendImport.DeleteAllSpec(b, currency);
            && (r == Invalid <==> currency != "INR" && currency != "EUR")
            && after.txns == if r == Done then Filter(b.txns, Spared(currency)) else b.txns
  {
    FilterCongruence(b.txns, DividendImport.NotDividendIn(currency), Spared(currency));
  }

  // ----- every event carries the currency of its holding -----

  /** Each event's currency is its holding's, as the ledger stores it. */
  ghost predicate Stamped(b: Book) {
    forall t :: t in b.txns && t.holding in b.holdings ==> t.currency == LedgerCurrency(b.holdings[t.holding])
  }

  lemma ValidIsStored(h: Holding)
    requires h.currency == "INR" || h.currency == "EUR"
    ensures LedgerCurrency(h) == h.currency
  {
    CapitalsStand(h.currency);
  }

  lemma OpenKeepsStamps(b: Book, hid: nat, input: HoldingInput, id: nat, now: int)
    requires Stamped(b) && Closed(b) && hid !in b.holdings
    ensures Stamped(OpenSpec(b, hid, input, id, now))
  {
    hide Replay, LedgerOf;
    ValidIsStored(NewHolding(input));
    var after := OpenSpec(b, hid, input, id, now);
    forall t | t in after.txns && t.holding in after.holdings
      ensures t.currency == LedgerCurrency(after.holdings[t.holding])
    {
      if t in b.txns {
        assert t.holding in b.holdings;
      }
    }
  }

  lemma CurrencyIsTheStamp(g: Holding, h: Holding)
    requires g.currency == h.currency
    ensures LedgerCurrency(g) == LedgerCurrency(h)
  {
  }

  /** New positions do not show in a stamp. */
  lemma RepositionedStamps(b: Book, c: Book)
    requires Stamped(b) && c.holdings.Keys == b.holdings.Keys
    requires forall h :: h in b.holdings ==> c.holdings[h].currency == b.holdings[h].currency
    requires forall t :: t in c.txns && t.holding in c.holdings ==>
               t in b.txns || t.currency == LedgerCurrency(b.holdings[t.holding])
    ensures Stamped(c)
  {
    forall t | t in c.txns && t.holding in c.holdings
      ensures t.currency == LedgerCurrency(c.holdings[t.holding])
    {
      CurrencyIsTheStamp(b.holdings[t.holding], c.holdings[t.holding]);
    }
  }

  lemma CreateKeepsStamps(b: Book, hid: nat, input: TxnInput, today: int, id: nat, now: int)
    requires Stamped(b)
    ensures Stamped(CreateSpec(b, hid, input, today, id, now).0)
  {
    hide Replay, LedgerOf, LedgerCurrency, Stamped;
    RepositionedStamps(b, CreateSpec(b, hid, input, today, id, now).0);
  }

  lemma UpdateKeepsStamps(b: Book, id: nat, input: TxnInput, today: int)
    requires Stamped(b) && Closed(b)
    ensures Stamped(UpdateSpec(b, id, input, today).0)
  {
    hide Replay, LedgerOf, LedgerCurrency;
    var i, after := IndexOf(b.txns, id), UpdateSpec(b, id, input, today).0;
    forall t | t in after.txns && t.holding in after.holdings
      ensures t in b.txns || t.currency == LedgerCurrency(b.holdings[t.holding])
    {
      var j :| 0 <= j < |after.txns| && after.txns[j] == t;
      if j == i {
        assert b.txns[i] in b.txns && t.holding == b.txns[i].holding && t.currency == b.txns[i].currency;
      }
    }
    RepositionedStamps(b, after);
  }

  lemma DeleteKeepsStamps(b: Book, id: nat)
    requires Stamped(b) && Closed(b)
    ensures Stamped(DeleteSpec(b, id).0)
  {
    hide Replay, LedgerOf, LedgerCurrency, Stamped;
    RepositionedStamps(b, DeleteSpec(b, id).0);
  }

  lemma DateKeepsStamps(b: Book, hid: nat, date: int)
    requires Stamped(b)
    ensures Stamped(SetOpeningDateSpec(b, hid, date))
  {
    hide LedgerCurrency;
    var after := SetOpeningDateSpec(b, hid, date);
    forall t: Txn | t in after.txns && t.holding in after.holdings
      ensures t.currency == LedgerCurrency(after.holdings[t.holding])
    {
      var j :| 0 <= j < |after.txns| && after.txns[j] == t;
      assert b.txns[j] in b.txns;
    }
  }

  lemma EditKeepsStamps(b: Book, hid: nat, input: EditInput)
    requires Stamped(b)
    ensures Stamped(EditSpec(b, hid, input))
  {
    if hid in b.holdings {
      var after := EditSpec(b, hid, input);
      forall t: Txn | t in after.txns && t.holding in after.holdings
        ensures t.currency == LedgerCurrency(after.holdings[t.holding])
      {
        var j :| 0 <= j < |after.txns| && after.txns[j] == t;
        assert b.txns[j] in b.txns;
        if !SetsCurrency(input) {
          CurrencyIsTheStamp(b.holdings[t.holding], after.holdings[t.holding]);
        }
      }
    }
  }

  lemma DropKeepsStamps(b: Book, hid: nat)
    requires Stamped(b)
    ensures Stamped(DropSpec(b, hid))
  {
    FilterMembers(b.txns, KeptWithout(hid));
  }

  lemma ImportDividendsKeepsStamps(b: Book, currency: string, sheet: seq<DividendImport.SheetRow>, byName: map<string, nat>,
      today: int, id: nat, now: int)
    requires Stamped(b) && byName.Values <= b.holdings.Keys
    ensures Stamped(DividendImport.ImportSpec(b, currency, sheet, byName, today, id, now).0)
  {
    hide Replay, LedgerOf, LedgerCurrency, Stamped, DividendImport.Plan, DividendImport.AnyInvalid;
    var rows := DividendImport.Plan(b, sheet, byName, today);
    var events := DividendImport.Events(rows, id, b.holdings, now);
    forall t | t in events
      ensures t.holding in b.holdings && t.currency == LedgerCurrency(b.holdings[t.holding])
    {
      var i :| 0 <= i < |events| && events[i] == t;
      assert rows[i] in rows;
    }
    RepositionedStamps(b, Reprojected(b.(txns := b.txns + events)));
  }

  lemma ImportTradesKeepsStamps(b: Book, sheet: seq<TradeImport.SheetRow>, bySymbol: map<string, nat>,
      created: map<nat, Holding>, today: int, id: nat, now: int)
    requires Stamped(b) && Closed(b) && bySymbol.Values <= b.holdings.Keys + created.Keys && created.Keys !! b.holdings.Keys
    ensures Stamped(TradeImport.ImportSpec(b, sheet, bySymbol, created, today, id, now).0)
  {
    hide Replay, LedgerOf, LedgerCurrency, Stamped, TradeImport.Plan, TradeImport.PlanInvalid, TradeImport.CommitFails;
    hide TradeImport.Events;
    var rows := TradeImport.Plan(b, sheet, bySymbol, today);
    TradeImport.PlanIsImportable(b, sheet, bySymbol, today);
    var holdings := b.holdings + created;
    var events := TradeImport.Events(rows, id, holdings, now);
    WiderKeepsStamps(b, created);
    TradesAreStamped(rows, id, holdings, now);
    RepositionedStamps(Book(b.txns, holdings), Reprojected(Book(b.txns + events, holdings)));
  }

  lemma WiderKeepsStamps(b: Book, created: map<nat, Holding>)
    requires Stamped(b) && Closed(b) && created.Keys !! b.holdings.Keys
    ensures Stamped(Book(b.txns, b.holdings + created))
  {
    forall t | t in b.txns
      ensures t.holding in b.holdings && (b.holdings + created)[t.holding] == b.holdings[t.holding]
    {
    }
  }

  lemma TradesAreStamped(rows: seq<TradeImport.TradeRow>, id: nat, holdings: map<nat, Holding>, now: int)
    requires forall row :: row in rows ==> row.holding in holdings
    ensures forall t :: t in TradeImport.Events(rows, id, holdings, now) ==>
              t.holding in holdings && t.currency == LedgerCurrency(holdings[t.holding])
  {
    hide LedgerCurrency;
    var events := TradeImport.Events(rows, id, holdings, now);
    forall t | t in events
      ensures t.holding in holdings && t.currency == LedgerCurrency(holdings[t.holding])
    {
      var i :| 0 <= i < |events| && events[i] == t;
      assert rows[i] in rows;
    }
  }

  lemma DeleteDividendsKeepsStamps(b: Book, currency: string)
    requires Stamped(b)
    ensures Stamped(DividendImport.DeleteAllSpec(b, currency).0)
  {
    hide Replay, LedgerOf, LedgerCurrency, Stamped, DividendImport.Blocked;
    FilterMembers(b.txns, DividendImport.NotDividendIn(currency));
    RepositionedStamps(b, DividendImport.DeleteAllSpec(b, currency).0);
  }

  /** The copies the ledger keeps of a holding's currency stay in step, whatever is written. */
  lemma StepKeepsStamps(b: Book, op: Op)
    requires Stamped(b) && Closed(b) && Enabled(b, op)
    ensures Stamped(Apply(b, op))
  {
    hide Stamped, DeleteSpec, CreateSpec, UpdateSpec, OpenSpec, DropSpec, EditSpec, SetOpeningDateSpec;
    hide DividendImport.ImportSpec, DividendImport.DeleteAllSpec, TradeImport.ImportSpec;
    match op
    case OpenOp(hid, holding, id, now) => OpenKeepsStamps(b, hid, holding, id, now);
    case CreateOp(hid, input, today, id, now) => CreateKeepsStamps(b, hid, input, today, id, now);
    case UpdateOp(id, input, today) => UpdateKeepsStamps(b, id, input, today);
    case DeleteOp(id) => DeleteKeepsStamps(b, id);
    case OpeningDateOp(hid, date) => DateKeepsStamps(b, hid, date);
    case EditOp(hid, edit) => EditKeepsStamps(b, hid, edit);
    case DropOp(hid) => DropKeepsStamps(b, hid);
    case ImportDividendsOp(currency, sheet, byName, today, id, now) =>
      ImportDividendsKeepsStamps(b, currency, sheet, byName, today, id, now);
    case DeleteDividendsOp(currency) => DeleteDividendsKeepsStamps(b, currency);
    case ImportTradesOp(sheet, bySymbol, created, today, id, now) =>
      ImportTradesKeepsStamps(b, sheet, bySymbol, created, today, id, now);
  }

  /** Over every run of writes, each event carries the currency of its holding. */
  lemma {:induction false} EveryRunIsStamped(books: seq<Book>, ops: seq<Op>, i: nat)
    requires IsRun(books, ops) && i < |books|
    ensures Stamped(books[i])
  {
    hide Stamped, Closed, Enabled, Apply;
    if i > 0 {
      EveryRunIsStamped(books, ops, i - 1);
      assert books[i - 1 + 1] == Apply(books[i - 1], ops[i - 1]);
      StepKeepsStamps(books[i - 1], ops[i - 1]);
    } else {
      EmptyBookIsStamped();
    }
  }

  lemma EmptyBookIsStamped()
    ensures Stamped(Book([], map[]))
  {
  }

  /**
   * Hence, in every state of every run: what the dividends tab of a holding's own currency shows for the holding is the
   * dividend total stored with it.
   */
  lemma TabShowsTheStoredTotal(books: seq<Book>, ops: seq<Op>, i: nat, hid: nat, events: seq<Txn>)
    requires IsRun(books, ops) && i < |books| && hid in books[i].holdings && CurrencyOf(books[i].holdings[hid]).Some?
    requires multiset(events) == multiset(Filter(books[i].txns, Tab.TabOf(CurrencyOf(books[i].holdings[hid]).value)))
    ensures books[i].holdings[hid].position.totalDividends == CentsToMoney(Tallies.CentsFor(events, Tab.HoldingKey, hid))
  {
    hide Stamped, IsRun, Replay, LedgerOf, CurrencyOf, Tallies.CentsFor;
    var b := books[i];
    var c := CurrencyOf(b.holdings[hid]).value;
    EveryRunIsProjected(books, ops, i);
    EveryRunIsStamped(books, ops, i);
    assert ProjectedFor(b.txns, hid, b.holdings[hid]);
    NothingElsewhere(b, hid, c);
    Tab.TabTotalAgainstReplay(b.txns, events, c, hid);
  }

  lemma NothingElsewhere(b: Book, hid: nat, c: string)
    requires Stamped(b) && hid in b.holdings && CurrencyOf(b.holdings[hid]) == Some(c)
    ensures Tab.ElsewhereCents(LedgerOf(b.txns, hid), c) == 0
  {
    hide CurrencyOf;
    FilterMembers(b.txns, OfHolding(hid));
    FilterNone(LedgerOf(b.txns, hid), Tab.Elsewhere(c));
  }
}
