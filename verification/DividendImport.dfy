/** The dividend CSV import and Delete all (services/dividend_import.go, dividends.go, domain/dividend.go). */
module DividendImport {
  import opened Sequences
  import opened Money
  import opened Ledger
  import opened ReplayState
  import opened Erasure
  import opened Book
  import opened WritePath
  import opened Imports

  /** A parsed sheet row, its name trimmed. */
  datatype SheetRow = SheetRow(line: nat, name: string, date: int, amount: real)

  /** A valid sheet row resolved to a holding. */
  datatype DividendRow = DividendRow(line: nat, holding: nat, day: int, amount: real)

  datatype DividendKey = DividendKey(holding: nat, day: int, cents: int)

  function HolderOf(row: DividendRow): nat { row.holding }

  function RowKey(row: DividendRow): DividendKey {
    DividendKey(row.holding, row.day, AmountCents(row.amount))
  }

  /** DividendKeyOf. */
  function StoredKey(t: Txn): DividendKey {
    DividendKey(t.holding, t.Day(), AmountCents(t.amount))
  }

  predicate IsDividend(t: Txn) { t.kind.Dividend? }

  // ----- classification -----

  predicate Eligible(row: SheetRow, byName: map<string, nat>, today: int) {
    row.name != "" && ValidDividend(row.date, row.amount, today) && row.name in byName
  }

  predicate AnyInvalid(sheet: seq<SheetRow>, byName: map<string, nat>, today: int) {
    exists i :: 0 <= i < |sheet| && !Eligible(sheet[i], byName, today)
  }

  /** The eligible rows with their holdings, in sheet order. */
  function Resolved(sheet: seq<SheetRow>, byName: map<string, nat>, today: int): (rows: seq<DividendRow>)
    ensures forall row :: row in rows ==> row.holding in byName.Values && row.day <= today
  {
    if sheet == [] then []
    else
      var n := |sheet| - 1;
      Resolved(sheet[..n], byName, today) +
      if Eligible(sheet[n], byName, today)
      then [DividendRow(sheet[n].line, byName[sheet[n].name], DayOf(sheet[n].date), sheet[n].amount)] else []
  }

  /** The row loop of evaluate. */
  method ResolveRows(sheet: seq<SheetRow>, byName: map<string, nat>, today: int) returns (valid: seq<DividendRow>, invalid: bool)
    ensures valid == Resolved(sheet, byName, today) && (invalid <==> AnyInvalid(sheet, byName, today))
  {
    valid, invalid := [], false;
    var i := 0;
    while i < |sheet|
      invariant 0 <= i <= |sheet| && valid == Resolved(sheet[..i], byName, today)
      invariant invalid <==> exists j :: 0 <= j < i && !Eligible(sheet[j], byName, today)
    {
      var row := sheet[i];
      assert sheet[..i + 1][..i] == sheet[..i];
      if row.name == "" {
        invalid := true;
      } else if !ValidDividend(row.date, row.amount, today) {
        invalid := true;
      } else if row.name !in byName {
        invalid := true;
      } else {
        valid := valid + [DividendRow(row.line, byName[row.name], DayOf(row.date), row.amount)];
      }
      i := i + 1;
    }
    assert sheet[..i] == sheet;
  }

  // ----- the duplicate window -----

  /** ListDividendsByHoldings. */
  function InWindow(ids: seq<nat>, from: int, to: int): Txn -> bool {
    (t: Txn) => t.kind.Dividend? && t.holding in ids && from <= t.date <= to
  }

  method Window(rows: seq<DividendRow>) returns (from: int, to: int, ids: seq<nat>)
    requires rows != []
    ensures forall row :: row in rows ==> from <= row.day * DAY && row.day * DAY + (DAY - 1) <= to && row.holding in ids
    ensures exists first, last :: first in rows && last in rows && from == first.day * DAY && to == last.day * DAY + (DAY - 1)
  {
    var lo, hi := rows[0], rows[0];
    ids := [];
    var i := 0;
    while i < |rows|
      invariant 0 <= i <= |rows| && lo in rows && hi in rows
      invariant forall j :: 0 <= j < i ==> lo.day <= rows[j].day <= hi.day && rows[j].holding in ids
    {
      if rows[i].day < lo.day {
        lo := rows[i];
      }
      if rows[i].day > hi.day {
        hi := rows[i];
      }
      if rows[i].holding !in ids {
        ids := ids + [rows[i].holding];
      }
      i := i + 1;
    }
    from, to := lo.day * DAY, hi.day * DAY + (DAY - 1);
    forall row | row in rows
      ensures from <= row.day * DAY && row.day * DAY + (DAY - 1) <= to && row.holding in ids
    {
      var j :| 0 <= j < |rows| && rows[j] == row;
    }
  }

  /** Preview and commit read only the window, and split the sheet as the whole ledger would. */
  method EvaluateRows(rows: seq<DividendRow>, txns: seq<Txn>) returns (novel: seq<DividendRow>, duplicates: seq<DividendRow>)
    ensures novel == NewRows(rows, RowKey, StoredIn(Filter(txns, IsDividend), StoredKey))
    ensures duplicates == Absorbed(rows, RowKey, StoredIn(Filter(txns, IsDividend), StoredKey))
  {
    if rows == [] {
      return [], [];
    }
    var from, to, ids := Window(rows);
    novel, duplicates := PartitionByKey(rows, Filter(txns, InWindow(ids, from, to)), RowKey, StoredKey);
    forall t, row | t in txns && row in rows && StoredKey(t) == RowKey(row)
      ensures InWindow(ids, from, to)(t) == IsDividend(t)
    {
      DayBounds(t.date);
    }
    LookupIsEnough(rows, RowKey, txns, StoredKey, InWindow(ids, from, to), IsDividend);
  }

  // ----- the commit -----

  /** toTransaction: amounts are stored at cent precision; a batch shares one insertion time. */
  function Event(row: DividendRow, id: nat, currency: string, now: int): Txn {
    Txn(id, row.holding, Dividend, row.day * DAY, 0.0, RoundCents(row.amount), 0.0, 0.0, None, currency, now)
  }

  function Events(rows: seq<DividendRow>, id: nat, holdings: map<nat, Holding>, now: int): (r: seq<Txn>)
    requires forall row :: row in rows ==> row.holding in holdings
    ensures |r| == |rows|
    ensures forall i :: 0 <= i < |r| ==> r[i] == Event(rows[i], id + i, LedgerCurrency(holdings[rows[i].holding]), now)
  {
    seq(|rows|, i requires 0 <= i < |rows| => Event(rows[i], id + i, LedgerCurrency(holdings[rows[i].holding]), now))
  }

  lemma EventKeepsKey(row: DividendRow, id: nat, currency: string, now: int)
    ensures StoredKey(Event(row, id, currency, now)) == RowKey(row)
  {
    RoundCentsIdempotent(row.amount);
  }

  /** Stored imports carry the sheet's keys, so the join and re-import laws of `Imports` apply. */
  lemma EventsKeepKeys(existing: seq<Txn>, rows: seq<DividendRow>, id: nat, holdings: map<nat, Holding>, now: int)
    requires forall row :: row in rows ==> row.holding in holdings
    ensures var novel := NewRows(rows, RowKey, StoredIn(existing, StoredKey));
            (forall row :: row in novel ==> row.holding in holdings)
            && Adds(existing, rows, RowKey, StoredKey, Events(novel, id, holdings, now))
  {
    var novel := NewRows(rows, RowKey, StoredIn(existing, StoredKey));
    FreshAreRows(rows, StoredIn(existing, StoredKey));
    var events := Events(novel, id, holdings, now);
    forall i | 0 <= i < |novel|
      ensures StoredKey(events[i]) == RowKey(novel[i])
    {
      EventKeepsKey(novel[i], id + i, LedgerCurrency(holdings[novel[i].holding]), now);
    }
    assert KeysOf(events, StoredKey) == KeysOf(novel, RowKey);
  }

  lemma FreshAreRows(rows: seq<DividendRow>, stored: DividendKey -> nat)
    ensures forall row :: row in NewRows(rows, RowKey, stored) ==> row in rows
  {
    PartitionIsComplete(rows, RowKey, stored);
    forall row | row in NewRows(rows, RowKey, stored)
      ensures row in rows
    {
      assert row in multiset(NewRows(rows, RowKey, stored));
      assert row in multiset(rows);
    }
  }

  /** Adding or removing dividends never moves shares, cost, profit or the verdict. */
  lemma DividendEditsKeepShares(txns: seq<Txn>, edited: seq<Txn>, hid: nat)
    requires Filter(txns, Active) == Filter(edited, Active)
    ensures SameShares(Replay(LedgerOf(edited, hid)), Replay(LedgerOf(txns, hid)))
  {
    FilterTwice(txns, OfHolding(hid), Active);
    FilterTwice(txns, Active, OfHolding(hid));
    FilterTwice(edited, OfHolding(hid), Active);
    FilterTwice(edited, Active, OfHolding(hid));
    FilterCongruence(txns, Both(OfHolding(hid), Active), Both(Active, OfHolding(hid)));
    FilterCongruence(edited, Both(OfHolding(hid), Active), Both(Active, OfHolding(hid)));
    DividendsAndMergersAreErasable(LedgerOf(txns, hid));
    DividendsAndMergersAreErasable(LedgerOf(edited, hid));
  }

  lemma AppendedDividends(txns: seq<Txn>, events: seq<Txn>, hid: nat)
    requires forall t :: t in events ==> t.kind.Dividend?
    ensures Filter(txns + events, Active) == Filter(txns, Active)
    ensures (forall t :: t in events ==> t.holding != hid) ==> LedgerOf(txns + events, hid) == LedgerOf(txns, hid)
  {
    FilterConcat(txns, events, Active);
    FilterNone(events, Active);
    if forall t :: t in events ==> t.holding != hid {
      LedgerConcat(txns, events, hid);
      FilterNone(events, OfHolding(hid));
    }
  }

  lemma AddedKeepsLedgers(b: Book, events: seq<Txn>, affected: seq<nat>)
    requires PositionsProjected(b)
    requires forall t :: t in events ==> t.kind.Dividend? && t.holding in affected
    ensures var b2 := b.(txns := b.txns + events);
            && (forall h :: h in affected && h in b.holdings ==> !Replay(LedgerOf(b2.txns, h)).oversold)
            && b2.(holdings := RederivedAll(b2, affected)) == Reprojected(b2) && PositionsProjected(Reprojected(b2))
  {
    hide Replay, LedgerOf;
    var b2 := b.(txns := b.txns + events);
    forall h | h in affected && h in b.holdings
      ensures !Replay(LedgerOf(b2.txns, h)).oversold
    {
      AppendedDividends(b.txns, events, h);
      DividendEditsKeepShares(b.txns, b2.txns, h);
      assert ProjectedFor(b.txns, h, b.holdings[h]);
    }
    forall h | h !in affected
      ensures LedgerOf(b2.txns, h) == LedgerOf(b.txns, h)
    {
      AppendedDividends(b.txns, events, h);
    }
    RederivedAllIsReprojected(b, b2, affected);
  }

  lemma EventsAreDividends(rows: seq<DividendRow>, id: nat, holdings: map<nat, Holding>, now: int, affected: seq<nat>)
    requires forall row :: row in rows ==> row.holding in holdings
    requires forall i :: 0 <= i < |rows| ==> rows[i].holding in affected
    ensures forall t :: t in Events(rows, id, holdings, now) ==> t.kind.Dividend? && t.holding in affected && t.holding in holdings
  {
    var events := Events(rows, id, holdings, now);
    forall t | t in events
      ensures t.kind.Dividend? && t.holding in affected && t.holding in holdings
    {
      var i :| 0 <= i < |events| && events[i] == t;
      assert rows[i] in rows;
    }
  }

  datatype DividendOutcome = Imported(count: nat, duplicates: nat) | Malformed | Refused

  /** The rows an import writes: eligible, resolved and not yet stored. */
  function Plan(b: Book, sheet: seq<SheetRow>, byName: map<string, nat>, today: int): (rows: seq<DividendRow>)
    ensures forall row :: row in rows ==> row.holding in byName.Values
  {
    FreshAreRows(Resolved(sheet, byName, today), StoredIn(Filter(b.txns, IsDividend), StoredKey));
    NewRows(Resolved(sheet, byName, today), RowKey, StoredIn(Filter(b.txns, IsDividend), StoredKey))
  }

  /** checkImportInput: a currency the portfolio keeps, and no more rows than a request may hold. */
  predicate ValidRequest(currency: string, sheet: seq<SheetRow>) {
    currency in {"INR", "EUR"} && |sheet| <= MAX_IMPORT_ROWS
  }

  /** Malformed, refused on an invalid row, or imported: the new rows are appended and every position is derived. */
  function ImportSpec(b: Book, currency: string, sheet: seq<SheetRow>, byName: map<string, nat>, today: int, id: nat, now: int):
      (Book, DividendOutcome)
    requires byName.Values <= b.holdings.Keys
  {
    if !ValidRequest(currency, sheet) then (b, Malformed)
    else if AnyInvalid(sheet, byName, today) then (b, Refused)
    else
      var rows := Plan(b, sheet, byName, today);
      var duplicates := Absorbed(Resolved(sheet, byName, today), RowKey, StoredIn(Filter(b.txns, IsDividend), StoredKey));
      (Reprojected(b.(txns := b.txns + Events(rows, id, b.holdings, now))), Imported(|rows|, |duplicates|))
  }

  lemma BatchKeepsIdentity(txns: seq<Txn>, rows: seq<DividendRow>, id: nat, holdings: map<nat, Holding>, now: int)
    requires IdsDistinct(txns) && forall t :: t in txns ==> t.id < id
    requires forall row :: row in rows ==> row.holding in holdings
    ensures IdsDistinct(txns + Events(rows, id, holdings, now))
  {
    var all := txns + Events(rows, id, holdings, now);
    forall i, j | 0 <= i < j < |all|
      ensures all[i].id != all[j].id
    {
      if i < |txns| {
        assert all[i] == txns[i] && txns[i] in txns;
      }
    }
  }

  lemma ImportKeepsProjection(b: Book, currency: string, sheet: seq<SheetRow>, byName: map<string, nat>,
      today: int, id: nat, now: int)
    requires Projected(b) && byName.Values <= b.holdings.Keys && forall t :: t in b.txns ==> t.id < id
    ensures Projected(ImportSpec(b, currency, sheet, byName, today, id, now).0)
  {
    hide Replay, LedgerOf;
    var rows := Plan(b, sheet, byName, today);
    var affected := Map(rows, HolderOf);
    var events := Events(rows, id, b.holdings, now);
    forall i | 0 <= i < |rows|
      ensures rows[i].holding in affected
    {
      assert affected[i] == rows[i].holding;
    }
    EventsAreDividends(rows, id, b.holdings, now, affected);
    AddedKeepsLedgers(b, events, affected);
    BatchKeepsIdentity(b.txns, rows, id, b.holdings, now);
    assert forall t :: t in b.txns + events <==> t in b.txns || t in events;
  }

  /**
   * Import: everything or nothing. A sheet without invalid rows always commits: every affected
   * ledger replays to the shares it had, so recomputing it never reports an oversell.
   */
  method Import(store: Store, currency: string, sheet: seq<SheetRow>, byName: map<string, nat>, today: int, id: nat, now: int)
      returns (r: DividendOutcome)
    requires store.Valid() && byName.Values <= store.holdings.Keys
    requires forall t :: t in store.txns ==> t.id < id
    modifies store
    ensures store.Valid()
    ensures (store.Contents(), r) == ImportSpec(old(store.Contents()), currency, sheet, byName, today, id, now)
  {
    hide Replay, LedgerOf;
    ghost var b := store.Contents();
    ImportKeepsProjection(b, currency, sheet, byName, today, id, now);
    if !ValidRequest(currency, sheet) {
      return Malformed;
    }
    var valid, invalid := ResolveRows(sheet, byName, today);
    var novel, duplicates := EvaluateRows(valid, store.txns);
    if invalid {
      return Refused;
    }
    FreshAreRows(valid, StoredIn(Filter(store.txns, IsDividend), StoredKey));
    var events := Events(novel, id, store.holdings, now);
    var affected := HoldersOfRows(novel, HolderOf);
    EventsAreDividends(novel, id, store.holdings, now, affected);
    AddedKeepsLedgers(b, events, affected);
    store.txns := store.txns + events;
    var done := RecomputeAll(store, affected);
    r := Imported(|novel|, |duplicates|);
  }

  function NotDividendIn(currency: string): Txn -> bool {
    (t: Txn) => !(t.kind.Dividend? && t.currency == currency)
  }

  lemma RemovedDividends(txns: seq<Txn>, currency: string)
    ensures Filter(Filter(txns, NotDividendIn(currency)), Active) == Filter(txns, Active)
  {
    FilterTwice(txns, NotDividendIn(currency), Active);
    FilterCongruence(txns, Both(NotDividendIn(currency), Active), Active);
  }

  lemma {:induction false} HoldersOfRemoved(txns: seq<Txn>, keep: Txn -> bool, hid: nat)
    requires forall t :: t in txns && t.holding == hid ==> keep(t)
    ensures LedgerOf(Filter(txns, keep), hid) == LedgerOf(txns, hid)
  {
    FilterTwice(txns, keep, OfHolding(hid));
    FilterCongruence(txns, Both(keep, OfHolding(hid)), OfHolding(hid));
  }

  /** DeleteDividends: the holdings whose ledgers lose an event. */
  method HoldersOf(txns: seq<Txn>, currency: string) returns (affected: seq<nat>)
    ensures forall h :: h in affected <==> exists t :: t in txns && !NotDividendIn(currency)(t) && t.holding == h
  {
    affected := [];
    var i := 0;
    while i < |txns|
      invariant 0 <= i <= |txns|
      invariant forall h :: h in affected ==> exists t :: t in txns && !NotDividendIn(currency)(t) && t.holding == h
      invariant forall j :: 0 <= j < i && !NotDividendIn(currency)(txns[j]) ==> txns[j].holding in affected
    {
      var t := txns[i];
      assert t in txns;
      if t.kind == Dividend && t.currency == currency && t.holding !in affected {
        affected := affected + [t.holding];
      }
      i := i + 1;
    }
    forall t | t in txns && !NotDividendIn(currency)(t)
      ensures t.holding in affected
    {
      var j :| 0 <= j < |txns| && txns[j] == t;
    }
  }

  /** Deleting dividends moves no verdict, and touches only the ledgers that lose one. */
  lemma RemovedKeepsLedgers(b: Book, currency: string, affected: seq<nat>)
    requires PositionsProjected(b)
    requires forall t :: t in b.txns && !NotDividendIn(currency)(t) ==> t.holding in affected
    ensures var b2 := b.(txns := Filter(b.txns, NotDividendIn(currency)));
            b2.(holdings := RederivedAll(b2, affected)) == Reprojected(b2) && PositionsProjected(Reprojected(b2))
  {
    hide Replay, LedgerOf;
    var b2 := b.(txns := Filter(b.txns, NotDividendIn(currency)));
    RemovedDividends(b.txns, currency);
    forall h | h in affected && h in b2.holdings
      ensures !Replay(LedgerOf(b2.txns, h)).oversold
    {
      DividendEditsKeepShares(b.txns, b2.txns, h);
      assert ProjectedFor(b.txns, h, b.holdings[h]);
    }
    forall h | h !in affected
      ensures LedgerOf(b2.txns, h) == LedgerOf(b.txns, h)
    {
      HoldersOfRemoved(b.txns, NotDividendIn(currency), h);
    }
    RederivedAllIsReprojected(b, b2, affected);
  }

  /** The commit loop of Delete all: a ledger without its holding is skipped, an oversold one stops it. */
  method RecomputeFound(store: Store, affected: seq<nat>) returns (r: Outcome)
    modifies store`holdings
    ensures r == Done || r == Oversell
    ensures r == Done <==> forall h :: h in affected ==> !Replay(LedgerOf(store.txns, h)).oversold
    ensures r == Done ==> store.holdings == RederivedAll(old(store.Contents()), affected)
  {
    hide Replay, LedgerOf;
    ghost var b := store.Contents();
    var i := 0;
    while i < |affected|
      invariant 0 <= i <= |affected|
      invariant store.holdings == RederivedAll(b, affected[..i])
      invariant forall h :: h in affected[..i] ==> !Replay(LedgerOf(store.txns, h)).oversold
    {
      assert affected[..i + 1] == affected[..i] + [affected[i]];
      r := RecomputeAndPersist(store, affected[i]);
      if r == Oversell {
        assert affected[i] in affected;
        return;
      }
      i := i + 1;
    }
    assert affected[..i] == affected;
    r := Done;
  }

  /** A dividend of the currency whose holding is gone and whose ledger is oversold: the one thing that stops Delete all. */
  ghost predicate Blocked(b: Book, currency: string) {
    exists t :: t in b.txns && !NotDividendIn(currency)(t) && t.holding !in b.holdings
             && Replay(LedgerOf(b.txns, t.holding)).oversold
  }

  ghost function DeleteAllSpec(b: Book, currency: string): (Book, Outcome) {
    if currency !in {"INR", "EUR"} then (b, Invalid)
    else if Blocked(b, currency) then (b, Oversell)
    else (Reprojected(b.(txns := Filter(b.txns, NotDividendIn(currency)))), Done)
  }

  lemma DeleteAllKeepsPositions(b: Book, currency: string)
    requires PositionsProjected(b)
    ensures PositionsProjected(DeleteAllSpec(b, currency).0)
    ensures forall h :: SameShares(Replay(LedgerOf(DeleteAllSpec(b, currency).0.txns, h)), Replay(LedgerOf(b.txns, h)))
  {
    hide Replay, LedgerOf;
    var kept := Filter(b.txns, NotDividendIn(currency));
    RemovedDividends(b.txns, currency);
    RemovedKeepsLedgers(b, currency, Map(b.txns, HoldingOf)) by {
      forall t | t in b.txns
        ensures t.holding in Map(b.txns, HoldingOf)
      {
        var i :| 0 <= i < |b.txns| && b.txns[i] == t;
        assert Map(b.txns, HoldingOf)[i] == t.holding;
      }
    }
    forall h
      ensures SameShares(Replay(LedgerOf(kept, h)), Replay(LedgerOf(b.txns, h)))
    {
      DividendEditsKeepShares(b.txns, kept, h);
    }
  }

  function HoldingOf(t: Txn): nat { t.holding }

  lemma DeleteAllKeepsProjection(b: Book, currency: string)
    requires Projected(b)
    ensures Projected(DeleteAllSpec(b, currency).0) && !DeleteAllSpec(b, currency).1.Oversell?
  {
    hide Replay, LedgerOf;
    DeleteAllKeepsPositions(b, currency);
    FilterMembers(b.txns, NotDividendIn(currency));
    var kept := Filter(b.txns, NotDividendIn(currency));
    forall i, j | 0 <= i < j < |kept|
      ensures kept[i].id != kept[j].id
    {
      var k, l := SubsequenceOf(b.txns, NotDividendIn(currency), i, j);
    }
  }

  /**
   * DeleteAll: drops one currency's dividends. It moves no shares, cost or profit of any ledger, and only
   * an oversold ledger without a holding can stop it: orphans are skipped, and need no precondition here.
   */
  method DeleteAll(store: Store, currency: string) returns (r: Outcome, count: nat)
    requires PositionsProjected(store.Contents())
    modifies store
    ensures PositionsProjected(store.Contents())
    ensures (store.Contents(), r) == DeleteAllSpec(old(store.Contents()), currency)
    ensures count == |old(store.txns)| - |store.txns|
  {
    hide Replay, LedgerOf;
    ghost var b := store.Contents();
    DeleteAllKeepsPositions(b, currency);
    count := 0;
    if currency !in {"INR", "EUR"} {
      return Invalid, 0;
    }
    var txns, holdings := store.txns, store.holdings;
    var affected := HoldersOf(txns, currency);
    RemovedKeepsLedgers(b, currency, affected);
    RemovedDividends(b.txns, currency);
    store.txns := Filter(txns, NotDividendIn(currency));
    r := RecomputeFound(store, affected);
    AffectedVerdicts(b, currency, affected);
    if r == Done {
      count := |txns| - |store.txns|;
    } else {
      store.txns, store.holdings := txns, holdings;
    }
  }

  lemma AffectedVerdicts(b: Book, currency: string, affected: seq<nat>)
    requires PositionsProjected(b)
    requires forall h :: h in affected <==> exists t :: t in b.txns && !NotDividendIn(currency)(t) && t.holding == h
    ensures (forall h :: h in affected ==> !Replay(LedgerOf(Filter(b.txns, NotDividendIn(currency)), h)).oversold)
       <==> !Blocked(b, currency)
  {
    hide Replay, LedgerOf;
    var kept := Filter(b.txns, NotDividendIn(currency));
    RemovedDividends(b.txns, currency);
    forall h
      ensures Replay(LedgerOf(kept, h)).oversold == Replay(LedgerOf(b.txns, h)).oversold
      ensures h in b.holdings ==> !Replay(LedgerOf(b.txns, h)).oversold
    {
      DividendEditsKeepShares(b.txns, kept, h);
      if h in b.holdings {
        assert ProjectedFor(b.txns, h, b.holdings[h]);
      }
    }
  }
}
