/** The trades CSV import (services/trade_import.go). */
module TradeImport {
  import opened Sequences
  import opened Money
  import opened Ledger
  import opened BuySafety
  import opened Book
  import opened WritePath
  import opened Imports

  /** A parsed sheet row; an unreadable type is a None kind. */
  datatype SheetRow = SheetRow(
    line: nat, symbol: string, kind: Option<Kind>, exchangeKnown: bool, quantity: real, amount: real, date: int)

  /** A valid sheet row resolved to a holding. */
  datatype TradeRow = TradeRow(line: nat, kind: Kind, quantity: real, amount: real, day: int, holding: nat)

  datatype TradeKey = TradeKey(holding: nat, day: int, kind: Kind, micros: int, cents: int)

  function QuantityMicros(quantity: real): int {
    Round(quantity * 1_000_000.0)
  }

  function HolderOf(row: TradeRow): nat { row.holding }

  function RowKey(row: TradeRow): TradeKey {
    TradeKey(row.holding, row.day, row.kind, QuantityMicros(row.quantity), AmountCents(row.amount))
  }

  function StoredKey(t: Txn): TradeKey {
    TradeKey(t.holding, t.Day(), t.kind, QuantityMicros(t.quantity), AmountCents(t.amount))
  }

  const MAX_TRADE := 1_000_000_000_000.0

  /** validateTrade. */
  predicate ValidTrade(row: SheetRow, today: int) {
    && (row.kind == Some(Buy) || row.kind == Some(Sell))
    && row.exchangeKnown
    && QuantityMicros(row.quantity) > 0
    && AmountCents(row.amount) > 0 && row.amount < MAX_TRADE
    && DayOf(row.date) <= today
  }

  datatype Status = Ready | Replace | Covered | InvalidRow

  datatype Class = Good(row: TradeRow) | Bad(status: Status)

  /** One turn of classifyRows: invalid, covered by the holding's declared opening, or importable. */
  function Classify(row: SheetRow, bySymbol: map<string, nat>, openings: map<nat, Txn>, today: int): Class {
    if row.symbol == "" || !ValidTrade(row, today) || row.symbol !in bySymbol then Bad(InvalidRow)
    else
      var hid, day := bySymbol[row.symbol], DayOf(row.date);
      if hid in openings && openings[hid].quantity > 0.0 && openings[hid].openingDate.None? then Bad(InvalidRow)
      else if hid in openings && openings[hid].quantity > 0.0 && day <= DayOf(openings[hid].openingDate.value) then Bad(Covered)
      else Good(TradeRow(row.line, row.kind.value, row.quantity, row.amount, day, hid))
  }

  /** Stable by day, as the sheet's order within a day is kept. */
  function InsertByDay(row: TradeRow, rows: seq<TradeRow>): seq<TradeRow> {
    if rows != [] && rows[0].day < row.day then [rows[0]] + InsertByDay(row, rows[1..]) else [row] + rows
  }

  function SortByDay(rows: seq<TradeRow>): seq<TradeRow> {
    if rows == [] then [] else InsertByDay(rows[0], SortByDay(rows[1..]))
  }

  ghost predicate ByDay(rows: seq<TradeRow>) {
    forall i, j :: 0 <= i < j < |rows| ==> rows[i].day <= rows[j].day
  }

  function OnDay(day: int): TradeRow -> bool {
    (row: TradeRow) => row.day == day
  }

  /** The rows that pass, in sheet order. */
  function KeptRows(rows: seq<SheetRow>, bySymbol: map<string, nat>, openings: map<nat, Txn>, today: int): seq<TradeRow> {
    if rows == [] then []
    else
      KeptRows(rows[..|rows| - 1], bySymbol, openings, today) +
      match Classify(rows[|rows| - 1], bySymbol, openings, today) { case Good(row) => [row] case Bad(_) => [] }
  }

  /** The importable rows of a sheet, in replay order. */
  function GoodRows(rows: seq<SheetRow>, bySymbol: map<string, nat>, openings: map<nat, Txn>, today: int): seq<TradeRow> {
    SortByDay(KeptRows(rows, bySymbol, openings, today))
  }

  predicate AnyInvalid(rows: seq<SheetRow>, bySymbol: map<string, nat>, openings: map<nat, Txn>, today: int) {
    exists i :: 0 <= i < |rows| && Classify(rows[i], bySymbol, openings, today) == Bad(InvalidRow)
  }

  /** The body of classifyRows' loop, branch by branch. */
  method ClassifyRow(row: SheetRow, bySymbol: map<string, nat>, openings: map<nat, Txn>, today: int) returns (c: Class)
    ensures c == Classify(row, bySymbol, openings, today)
  {
    if !ValidTrade(row, today) || row.symbol == "" || row.symbol !in bySymbol {
      return Bad(InvalidRow);
    }
    var hid, day := bySymbol[row.symbol], DayOf(row.date);
    if hid in openings && openings[hid].quantity > 0.0 {
      if openings[hid].openingDate.None? {
        return Bad(InvalidRow);
      }
      if day <= DayOf(openings[hid].openingDate.value) {
        return Bad(Covered);
      }
    }
    c := Good(TradeRow(row.line, row.kind.value, row.quantity, row.amount, day, hid));
  }

  /** classifyRows: the importable rows by day, and whether any row is invalid. */
  method ClassifyRows(rows: seq<SheetRow>, bySymbol: map<string, nat>, openings: map<nat, Txn>, today: int)
      returns (valid: seq<TradeRow>, invalid: bool)
    ensures valid == GoodRows(rows, bySymbol, openings, today)
    ensures invalid <==> AnyInvalid(rows, bySymbol, openings, today)
  {
    valid, invalid := [], false;
    var i := 0;
    while i < |rows|
      invariant 0 <= i <= |rows|
      invariant valid == KeptRows(rows[..i], bySymbol, openings, today)
      invariant invalid <==> AnyInvalid(rows[..i], bySymbol, openings, today)
    {
      assert rows[..i + 1][..i] == rows[..i];
      var c := ClassifyRow(rows[i], bySymbol, openings, today);
      InvalidOneMore(rows, i, bySymbol, openings, today);
      match c {
        case Good(row) =>
          valid := valid + [row];
        case Bad(status) =>
          invalid := invalid || status == InvalidRow;
      }
      i := i + 1;
    }
    assert rows[..i] == rows;
    valid := SortByDay(valid);
  }

  lemma InvalidOneMore(rows: seq<SheetRow>, i: nat, bySymbol: map<string, nat>, openings: map<nat, Txn>, today: int)
    requires i < |rows|
    ensures AnyInvalid(rows[..i + 1], bySymbol, openings, today)
       <==> AnyInvalid(rows[..i], bySymbol, openings, today) || Classify(rows[i], bySymbol, openings, today) == Bad(InvalidRow)
  {
    hide Classify;
    var all, head := rows[..i + 1], rows[..i];
    assert forall j :: 0 <= j < i ==> all[j] == head[j];
    assert all[i] == rows[i];
  }

  lemma {:induction false} InsertByDayKeepsAll(row: TradeRow, rows: seq<TradeRow>)
    ensures multiset(InsertByDay(row, rows)) == multiset(rows) + multiset{row}
  {
    if rows != [] && rows[0].day < row.day {
      InsertByDayKeepsAll(row, rows[1..]);
      assert rows == [rows[0]] + rows[1..];
    }
  }

  /** Rows of one day keep the order they had. */
  lemma {:induction false} InsertByDayKeeps(row: TradeRow, rows: seq<TradeRow>, day: int)
    ensures Filter(InsertByDay(row, rows), OnDay(day)) == Filter([row] + rows, OnDay(day))
  {
    hide Filter;
    if rows != [] && rows[0].day < row.day {
      var first, rest := rows[0], rows[1..];
      InsertByDayKeeps(row, rest, day);
      FilterCons(first, InsertByDay(row, rest), OnDay(day));
      FilterCons(row, rest, OnDay(day));
      FilterCons(first, rest, OnDay(day));
      FilterCons(row, rows, OnDay(day));
      assert rows == [first] + rest && !(OnDay(day)(first) && OnDay(day)(row));
    }
  }

  lemma {:induction false} InsertByDayKeepsOrder(row: TradeRow, rows: seq<TradeRow>)
    requires ByDay(rows)
    ensures ByDay(InsertByDay(row, rows))
  {
    if rows != [] && rows[0].day < row.day {
      var rest := InsertByDay(row, rows[1..]);
      InsertByDayKeepsOrder(row, rows[1..]);
      InsertByDayKeepsAll(row, rows[1..]);
      forall j | 0 <= j < |rest|
        ensures rows[0].day <= rest[j].day
      {
        assert rest[j] in multiset(rest);
        assert rest[j] == row || rest[j] in rows[1..];
      }
    }
  }

  /** slices.SortStableFunc: ordered by day, the same rows, and each day's rows in sheet order. */
  lemma {:induction false} SortByDayIsStable(rows: seq<TradeRow>, day: int)
    ensures ByDay(SortByDay(rows)) && multiset(SortByDay(rows)) == multiset(rows)
    ensures Filter(SortByDay(rows), OnDay(day)) == Filter(rows, OnDay(day))
  {
    if rows != [] {
      var sorted := SortByDay(rows[1..]);
      SortByDayIsStable(rows[1..], day);
      InsertByDayKeepsAll(rows[0], sorted);
      InsertByDayKeeps(rows[0], sorted, day);
      InsertByDayKeepsOrder(rows[0], sorted);
      FilterCons(rows[0], sorted, OnDay(day));
      FilterCons(rows[0], rows[1..], OnDay(day));
      assert rows == [rows[0]] + rows[1..];
    }
  }

  /** What an importable row is: a trade of a known holding, not in the future, after the declared opening. */
  ghost predicate Importable(r: TradeRow, bySymbol: map<string, nat>, openings: map<nat, Txn>, today: int) {
    && (r.kind.Buy? || r.kind.Sell?) && r.quantity > 0.0 && r.day <= today && r.holding in bySymbol.Values
    && (r.holding in openings && openings[r.holding].quantity > 0.0 ==>
          openings[r.holding].openingDate.Some? && r.day > DayOf(openings[r.holding].openingDate.value))
  }

  lemma {:induction false} KeptRowsAreImportable(rows: seq<SheetRow>, bySymbol: map<string, nat>, openings: map<nat, Txn>, today: int)
    ensures forall r :: r in KeptRows(rows, bySymbol, openings, today) ==> Importable(r, bySymbol, openings, today)
    ensures forall r :: r in KeptRows(rows, bySymbol, openings, today) <==>
              exists i :: 0 <= i < |rows| && Classify(rows[i], bySymbol, openings, today) == Good(r)
    decreases |rows|
  {
    if rows != [] {
      var init, last := rows[..|rows| - 1], rows[|rows| - 1];
      KeptRowsAreImportable(init, bySymbol, openings, today);
      assert rows == init + [last];
      var c := Classify(last, bySymbol, openings, today);
      if c.Good? {
        assert bySymbol[last.symbol] in bySymbol.Values;
      }
      KeptOneMore(rows, bySymbol, openings, today);
    }
  }

  lemma KeptOneMore(rows: seq<SheetRow>, bySymbol: map<string, nat>, openings: map<nat, Txn>, today: int)
    requires rows != []
    ensures var init, c := rows[..|rows| - 1], Classify(rows[|rows| - 1], bySymbol, openings, today);
            forall r :: (exists i :: 0 <= i < |rows| && Classify(rows[i], bySymbol, openings, today) == Good(r))
                   <==> (exists i :: 0 <= i < |init| && Classify(init[i], bySymbol, openings, today) == Good(r)) || c == Good(r)
  {
    hide Classify;
    var init := rows[..|rows| - 1];
    assert forall i :: 0 <= i < |init| ==> init[i] == rows[i];
  }

  /** What survives classification: every row that passes and no other, sorted, resolved, after the declared opening. */
  lemma GoodRowsAreImportable(rows: seq<SheetRow>, bySymbol: map<string, nat>, openings: map<nat, Txn>, today: int)
    ensures var good := GoodRows(rows, bySymbol, openings, today);
            && ByDay(good)
            && (forall r :: r in good ==> Importable(r, bySymbol, openings, today))
            && (forall r :: r in good <==> exists i :: 0 <= i < |rows| && Classify(rows[i], bySymbol, openings, today) == Good(r))
  {
    hide Classify, Importable;
    var kept := KeptRows(rows, bySymbol, openings, today);
    KeptRowsAreImportable(rows, bySymbol, openings, today);
    SortByDayIsStable(kept, 0);
    forall r
      ensures r in SortByDay(kept) <==> r in kept
    {
      assert r in multiset(SortByDay(kept)) <==> r in multiset(kept);
    }
  }

  // ----- the replace lookup -----

  predicate IsTrade(t: Txn) { t.kind.Buy? || t.kind.Sell? }

  /** ListTradesByHoldings. */
  function TradesInWindow(ids: set<nat>, from: int, to: int): Txn -> bool {
    (t: Txn) => IsTrade(t) && t.holding in ids && from <= t.date <= to
  }

  /** splitReplacements: the window runs from the first row's day to the end of the last one's. */
  method SplitReplacements(valid: seq<TradeRow>, txns: seq<Txn>) returns (novel: seq<TradeRow>, replaced: seq<TradeRow>)
    requires ByDay(valid)
    ensures novel == NewRows(valid, RowKey, StoredIn(Filter(txns, IsTrade), StoredKey))
    ensures replaced == Absorbed(valid, RowKey, StoredIn(Filter(txns, IsTrade), StoredKey))
  {
    if valid == [] {
      return [], [];
    }
    var ids := set r | r in valid :: r.holding;
    var from, to := valid[0].day * DAY, valid[|valid| - 1].day * DAY + (DAY - 1);
    novel, replaced := PartitionByKey(valid, Filter(txns, TradesInWindow(ids, from, to)), RowKey, StoredKey);
    forall t, r | t in txns && r in valid && StoredKey(t) == RowKey(r)
      ensures TradesInWindow(ids, from, to)(t) == IsTrade(t)
    {
      var i :| 0 <= i < |valid| && valid[i] == r;
      DayBounds(t.date);
    }
    LookupIsEnough(valid, RowKey, txns, StoredKey, TradesInWindow(ids, from, to), IsTrade);
  }

  // ----- events -----

  const MILLISECOND: int := 1_000_000

  /** toTransaction; the batch's insertion times are a millisecond apart. */
  function Event(row: TradeRow, id: nat, currency: string, now: int): Txn {
    Txn(id, row.holding, row.kind, row.day * DAY, row.quantity, RoundCents(row.amount), 0.0, 0.0, None, currency, now)
  }

  function Events(rows: seq<TradeRow>, id: nat, holdings: map<nat, Holding>, now: int): (r: seq<Txn>)
    requires forall row :: row in rows ==> row.holding in holdings
    ensures |r| == |rows|
    ensures forall i :: 0 <= i < |r| ==>
              r[i] == Event(rows[i], id + i, LedgerCurrency(holdings[rows[i].holding]), now + i * MILLISECOND)
  {
    seq(|rows|, i requires 0 <= i < |rows| =>
      Event(rows[i], id + i, LedgerCurrency(holdings[rows[i].holding]), now + i * MILLISECOND))
  }

  /** Imported trades carry the sheet's keys, so re-importing adds nothing and imports commute. */
  lemma EventsKeepKeys(existing: seq<Txn>, rows: seq<TradeRow>, id: nat, holdings: map<nat, Holding>, now: int)
    requires forall row :: row in NewRows(rows, RowKey, StoredIn(existing, StoredKey)) ==> row.holding in holdings
    ensures Adds(existing, rows, RowKey, StoredKey, Events(NewRows(rows, RowKey, StoredIn(existing, StoredKey)), id, holdings, now))
  {
    var novel := NewRows(rows, RowKey, StoredIn(existing, StoredKey));
    var events := Events(novel, id, holdings, now);
    forall i | 0 <= i < |novel|
      ensures StoredKey(events[i]) == RowKey(novel[i])
    {
      RoundCentsIdempotent(novel[i].amount);
    }
    assert KeysOf(events, StoredKey) == KeysOf(novel, RowKey);
  }

  lemma NewRowsAreRows(rows: seq<TradeRow>, stored: TradeKey -> nat)
    ensures forall row :: row in NewRows(rows, RowKey, stored) ==> row in rows
  {
    PartitionIsComplete(rows, RowKey, stored);
    forall row | row in NewRows(rows, RowKey, stored)
      ensures row in rows
    {
      assert row in multiset(NewRows(rows, RowKey, stored));
      assert row in multiset(rows);
    }
  }

  // ----- the oversell check -----

  /** oversoldHoldings, for one holding: its stored ledger followed by its new trades. */
  predicate Oversold(txns: seq<Txn>, events: seq<Txn>, hid: nat) {
    Replay(LedgerOf(txns, hid) + LedgerOf(events, hid)).oversold
  }

  /** The rows the plan marks invalid: sells of a holding the import would oversell. */
  predicate OversellingRow(row: TradeRow, txns: seq<Txn>, events: seq<Txn>) {
    row.kind.Sell? && Oversold(txns, events, row.holding)
  }

  /**
   * A plan with no invalid row passes the recompute of its own commit, as long as the stored ledger is
   * accepted and no sell waits at a split or bonus of it: a holding that is oversold with no new sell
   * to blame has new buys only, and those are safe.
   */
  lemma CleanPlansCommit(txns: seq<Txn>, events: seq<Txn>, hid: nat)
    requires !Replay(LedgerOf(txns, hid)).oversold && SplitsFindNoneWaiting(LedgerOf(txns, hid))
    requires forall t :: t in events ==> t.kind.Buy? || t.kind.Sell?
    requires forall t :: t in events && t.holding == hid && t.kind.Sell? ==> !Oversold(txns, events, hid)
    ensures !Replay(LedgerOf(txns + events, hid)).oversold
  {
    hide Replay, SplitsFindNoneWaiting;
    LedgerConcat(txns, events, hid);
    if Oversold(txns, events, hid) {
      FilterMembers(events, OfHolding(hid));
      AddingBuysIsSafe(LedgerOf(txns, hid), LedgerOf(events, hid));
    }
  }

  // ----- the commit -----

  datatype ImportOutcome = Imported(count: nat, replaced: nat) | Malformed | Refused | Failed

  /** OpeningsByUser. */
  function OpeningsByUser(b: Book): map<nat, Txn> {
    map hid | hid in b.holdings && OpeningOf(b.txns, hid).Some? :: OpeningOf(b.txns, hid).value
  }

  lemma BatchKeepsIdentity(txns: seq<Txn>, rows: seq<TradeRow>, id: nat, holdings: map<nat, Holding>, now: int)
    requires IdsDistinct(txns) && forall t :: t in txns ==> t.id < id
    requires forall row :: row in rows ==> row.holding in holdings
    ensures IdsDistinct(txns + Events(rows, id, holdings, now))
  {
    var events := Events(rows, id, holdings, now);
    var all := txns + events;
    forall i, j | 0 <= i < j < |all|
      ensures all[i].id != all[j].id
    {
      if i < |txns| {
        assert all[i] == txns[i] && txns[i] in txns;
      }
    }
  }

  lemma EventsBelong(rows: seq<TradeRow>, id: nat, holdings: map<nat, Holding>, now: int, affected: seq<nat>)
    requires forall row :: row in rows ==> row.holding in holdings && (row.kind.Buy? || row.kind.Sell?)
    requires forall i :: 0 <= i < |rows| ==> rows[i].holding in affected
    ensures forall t :: t in Events(rows, id, holdings, now) ==>
              (t.kind.Buy? || t.kind.Sell?) && t.holding in affected && t.holding in holdings
              && exists row :: row in rows && row.holding == t.holding && row.kind == t.kind
  {
    var events := Events(rows, id, holdings, now);
    forall t | t in events
      ensures (t.kind.Buy? || t.kind.Sell?) && t.holding in affected && t.holding in holdings
      ensures exists row :: row in rows && row.holding == t.holding && row.kind == t.kind
    {
      var i :| 0 <= i < |events| && events[i] == t;
      assert rows[i] in rows;
    }
  }

  lemma AddingFlatHoldings(b: Book, created: map<nat, Holding>)
    requires Projected(b) && created.Keys !! b.holdings.Keys
    requires forall h :: h in created ==> created[h].position == FLAT
    ensures PositionsProjected(b.(holdings := b.holdings + created))
  {
    var b1 := b.(holdings := b.holdings + created);
    OneOpeningIsAccepted(Txn(0, 0, Opening, 0, 0.0, 0.0, 0.0, 0.0, None, "", 0));
    forall h | h in b1.holdings
      ensures ProjectedFor(b1.txns, h, b1.holdings[h])
    {
      if h in created {
        NoLedgerBefore(b, h);
      } else {
        assert ProjectedFor(b.txns, h, b.holdings[h]);
      }
    }
  }

  lemma UntouchedLedgers(txns: seq<Txn>, events: seq<Txn>, affected: seq<nat>, h: nat)
    requires forall t :: t in events ==> t.holding in affected
    requires h !in affected
    ensures LedgerOf(txns + events, h) == LedgerOf(txns, h)
  {
    LedgerConcat(txns, events, h);
    FilterNone(events, OfHolding(h));
  }

  /** The rows an import writes: valid, resolved, after the opening, and not yet stored. */
  function Plan(b: Book, sheet: seq<SheetRow>, bySymbol: map<string, nat>, today: int): seq<TradeRow> {
    NewRows(GoodRows(sheet, bySymbol, OpeningsByUser(b), today), RowKey, StoredIn(Filter(b.txns, IsTrade), StoredKey))
  }

  /** Whether a confirm finds an invalid row: a bad sheet row, or a sell that would oversell. */
  ghost predicate PlanInvalid(b: Book, sheet: seq<SheetRow>, bySymbol: map<string, nat>, today: int, events: seq<Txn>) {
    || AnyInvalid(sheet, bySymbol, OpeningsByUser(b), today)
    || exists i :: 0 <= i < |Plan(b, sheet, bySymbol, today)|
                && OversellingRow(Plan(b, sheet, bySymbol, today)[i], b.txns, events)
  }

  lemma PlanIsImportable(b: Book, sheet: seq<SheetRow>, bySymbol: map<string, nat>, today: int)
    ensures forall row :: row in Plan(b, sheet, bySymbol, today) ==>
              (row.kind.Buy? || row.kind.Sell?) && row.holding in bySymbol.Values
  {
    GoodRowsAreImportable(sheet, bySymbol, OpeningsByUser(b), today);
    NewRowsAreRows(GoodRows(sheet, bySymbol, OpeningsByUser(b), today), StoredIn(Filter(b.txns, IsTrade), StoredKey));
  }

  /** oversoldHoldings and the loop of evaluate that marks their sells. */
  method AnyOverselling(rows: seq<TradeRow>, txns: seq<Txn>, events: seq<Txn>) returns (found: bool)
    ensures found <==> exists i :: 0 <= i < |rows| && OversellingRow(rows[i], txns, events)
  {
    found := false;
    var i := 0;
    while i < |rows|
      invariant 0 <= i <= |rows|
      invariant found <==> exists j :: 0 <= j < i && OversellingRow(rows[j], txns, events)
    {
      if rows[i].kind == Sell {
        var ledger := LedgerOf(txns, rows[i].holding) + LedgerOf(events, rows[i].holding);
        var pos, oversell := RecomputePosition(ledger);
        found := found || oversell;
      }
      i := i + 1;
    }
  }

  /** Some holding that gains trades is oversold with them: what the recompute of the commit finds. */
  ghost predicate CommitFails(b: Book, rows: seq<TradeRow>, events: seq<Txn>) {
    exists i :: 0 <= i < |rows| && Oversold(b.txns, events, rows[i].holding)
  }

  /** Malformed, refused on an invalid row, failed on an oversold ledger, or imported: the new trades are appended. */
  ghost function ImportSpec(b: Book, sheet: seq<SheetRow>, bySymbol: map<string, nat>, created: map<nat, Holding>,
      today: int, id: nat, now: int): (Book, ImportOutcome)
    requires bySymbol.Values <= b.holdings.Keys + created.Keys
  {
    PlanIsImportable(b, sheet, bySymbol, today);
    var rows := Plan(b, sheet, bySymbol, today);
    var replaced := Absorbed(GoodRows(sheet, bySymbol, OpeningsByUser(b), today), RowKey, StoredIn(Filter(b.txns, IsTrade), StoredKey));
    var events := Events(rows, id, b.holdings + created, now);
    if |sheet| > MAX_IMPORT_ROWS then (b, Malformed)
    else if PlanInvalid(b, sheet, bySymbol, today, events) then (b, Refused)
    else if CommitFails(b, rows, events) then (b, Failed)
    else (Reprojected(Book(b.txns + events, b.holdings + created)), Imported(|rows|, |replaced|))
  }

  /** What the recompute of a batch finds, and the book it leaves. */
  lemma BatchVerdicts(b: Book, created: map<nat, Holding>, rows: seq<TradeRow>, id: nat, now: int, affected: seq<nat>)
    requires Projected(b) && created.Keys !! b.holdings.Keys
    requires forall h :: h in created ==> created[h].position == FLAT
    requires forall row :: row in rows ==> row.holding in b.holdings + created && (row.kind.Buy? || row.kind.Sell?)
    requires forall h :: h in affected <==> exists i :: 0 <= i < |rows| && HolderOf(rows[i]) == h
    ensures var events := Events(rows, id, b.holdings + created, now);
            var b2 := Book(b.txns + events, b.holdings + created);
            && ((forall h :: h in affected ==> !Replay(LedgerOf(b2.txns, h)).oversold) <==> !CommitFails(b, rows, events))
            && b2.(holdings := RederivedAll(b2, affected)) == Reprojected(b2)
            && (!CommitFails(b, rows, events) ==> PositionsProjected(Reprojected(b2)))
  {
    hide Replay, LedgerOf, Events;
    var b1 := b.(holdings := b.holdings + created);
    var events := Events(rows, id, b1.holdings, now);
    var b2 := Book(b.txns + events, b1.holdings);
    AddingFlatHoldings(b, created);
    EventsBelong(rows, id, b1.holdings, now, affected);
    forall h
      ensures LedgerOf(b2.txns, h) == LedgerOf(b.txns, h) + LedgerOf(events, h)
      ensures h !in affected ==> LedgerOf(b2.txns, h) == LedgerOf(b1.txns, h)
    {
      LedgerConcat(b.txns, events, h);
      if h !in affected {
        UntouchedLedgers(b.txns, events, affected, h);
      }
    }
    VerdictsByRow(b, rows, events, affected);
    RederivedAllIsReprojected(b1, b2, affected);
  }

  lemma VerdictsByRow(b: Book, rows: seq<TradeRow>, events: seq<Txn>, affected: seq<nat>)
    requires forall h :: h in affected <==> exists i :: 0 <= i < |rows| && HolderOf(rows[i]) == h
    ensures (forall h :: h in affected ==> !Oversold(b.txns, events, h)) <==> !CommitFails(b, rows, events)
  {
    hide Oversold;
    if forall h :: h in affected ==> !Oversold(b.txns, events, h) {
      forall i | 0 <= i < |rows|
        ensures !Oversold(b.txns, events, rows[i].holding)
      {
        assert HolderOf(rows[i]) in affected;
      }
    }
  }

  /** A batch that no ledger is oversold with leaves every position derived. */
  lemma BatchIsProjected(b: Book, created: map<nat, Holding>, rows: seq<TradeRow>, id: nat, now: int)
    requires Projected(b) && created.Keys !! b.holdings.Keys
    requires forall h :: h in created ==> created[h].position == FLAT
    requires forall t :: t in b.txns ==> t.id < id
    requires forall row :: row in rows ==> row.holding in b.holdings + created && (row.kind.Buy? || row.kind.Sell?)
    requires !CommitFails(b, rows, Events(rows, id, b.holdings + created, now))
    ensures Projected(Reprojected(Book(b.txns + Events(rows, id, b.holdings + created, now), b.holdings + created)))
  {
    hide Replay, LedgerOf, CommitFails, Events, PositionsProjected, Map;
    var affected := Map(rows, HolderOf);
    var events := Events(rows, id, b.holdings + created, now);
    HoldersAreListed(rows);
    BatchVerdicts(b, created, rows, id, now, affected);
    BatchKeepsIdentity(b.txns, rows, id, b.holdings + created, now);
    EventsBelong(rows, id, b.holdings + created, now, affected);
    var b2 := Book(b.txns + events, b.holdings + created);
    forall t | t in b2.txns
      ensures t.holding in b2.holdings
    {
      assert t in b.txns || t in events;
    }
  }

  lemma HoldersAreListed(rows: seq<TradeRow>)
    ensures forall h :: h in Map(rows, HolderOf) <==> exists i :: 0 <= i < |rows| && HolderOf(rows[i]) == h
    ensures forall i :: 0 <= i < |rows| ==> rows[i].holding in Map(rows, HolderOf)
  {
    var affected := Map(rows, HolderOf);
    forall h
      ensures h in affected <==> exists i :: 0 <= i < |rows| && HolderOf(rows[i]) == h
    {
      assert forall i :: 0 <= i < |rows| ==> affected[i] == HolderOf(rows[i]);
    }
    forall i | 0 <= i < |rows|
      ensures rows[i].holding in affected
    {
      assert affected[i] == rows[i].holding;
    }
  }

  lemma ImportKeepsProjection(b: Book, sheet: seq<SheetRow>, bySymbol: map<string, nat>, created: map<nat, Holding>,
      today: int, id: nat, now: int)
    requires Projected(b) && bySymbol.Values <= b.holdings.Keys + created.Keys && created.Keys !! b.holdings.Keys
    requires forall h :: h in created ==> created[h].position == FLAT
    requires forall t :: t in b.txns ==> t.id < id
    ensures Projected(ImportSpec(b, sheet, bySymbol, created, today, id, now).0)
  {
    hide Projected, Reprojected, Plan, PlanInvalid, CommitFails, Events;
    var rows := Plan(b, sheet, bySymbol, today);
    PlanIsImportable(b, sheet, bySymbol, today);
    if !CommitFails(b, rows, Events(rows, id, b.holdings + created, now)) {
      BatchIsProjected(b, created, rows, id, now);
    }
  }

  /** A plan without invalid rows never fails at its commit when no sell waits at a split of a stored ledger. */
  lemma CleanImportCommits(b: Book, sheet: seq<SheetRow>, bySymbol: map<string, nat>, created: map<nat, Holding>,
      today: int, id: nat, now: int)
    requires Projected(b) && bySymbol.Values <= b.holdings.Keys + created.Keys
    requires forall hid :: hid in b.holdings ==> SplitsFindNoneWaiting(LedgerOf(b.txns, hid))
    ensures !ImportSpec(b, sheet, bySymbol, created, today, id, now).1.Failed?
  {
    hide Replay, LedgerOf, SplitsFindNoneWaiting, Plan, Events, AnyInvalid;
    var rows := Plan(b, sheet, bySymbol, today);
    PlanIsImportable(b, sheet, bySymbol, today);
    var events := Events(rows, id, b.holdings + created, now);
    if !PlanInvalid(b, sheet, bySymbol, today, events) {
      forall i | 0 <= i < |rows|
        ensures !Oversold(b.txns, events, rows[i].holding)
      {
        CleanRowPasses(b, rows, events, id, b.holdings + created, now, rows[i].holding);
      }
    }
  }

  lemma CleanRowPasses(b: Book, rows: seq<TradeRow>, events: seq<Txn>, id: nat, holdings: map<nat, Holding>, now: int, h: nat)
    requires Projected(b) && forall hid :: hid in b.holdings ==> SplitsFindNoneWaiting(LedgerOf(b.txns, hid))
    requires forall row :: row in rows ==> row.holding in holdings && (row.kind.Buy? || row.kind.Sell?)
    requires events == Events(rows, id, holdings, now)
    requires forall i :: 0 <= i < |rows| ==> !OversellingRow(rows[i], b.txns, events)
    ensures !Oversold(b.txns, events, h)
  {
    hide Replay, LedgerOf, SplitsFindNoneWaiting, Events;
    EventsBelong(rows, id, holdings, now, Map(rows, HolderOf)) by {
      forall i | 0 <= i < |rows|
        ensures rows[i].holding in Map(rows, HolderOf)
      {
        assert Map(rows, HolderOf)[i] == rows[i].holding;
      }
    }
    forall t | t in events && t.holding == h && t.kind.Sell?
      ensures !Oversold(b.txns, events, h)
    {
      var row :| row in rows && row.holding == t.holding && row.kind == t.kind;
      var i :| 0 <= i < |rows| && rows[i] == row;
      assert !OversellingRow(rows[i], b.txns, events);
    }
    if h in b.holdings {
      assert ProjectedFor(b.txns, h, b.holdings[h]);
    } else {
      NoLedgerBefore(b, h);
      NothingWaitsInNothing();
    }
    CleanPlansCommit(b.txns, events, h);
    LedgerConcat(b.txns, events, h);
  }

  lemma NothingWaitsInNothing()
    ensures !Replay([]).oversold && SplitsFindNoneWaiting([])
  {
    OneOpeningIsAccepted(Txn(0, 0, Opening, 0, 0.0, 0.0, 0.0, 0.0, None, "", 0));
  }

  /** Import: everything or nothing, and exactly which. */
  method Import(store: Store, sheet: seq<SheetRow>, bySymbol: map<string, nat>, created: map<nat, Holding>,
      today: int, id: nat, now: int) returns (r: ImportOutcome)
    requires store.Valid()
    requires bySymbol.Values <= store.holdings.Keys + created.Keys && created.Keys !! store.holdings.Keys
    requires forall h :: h in created ==> created[h].position == FLAT
    requires forall t :: t in store.txns ==> t.id < id
    modifies store
    ensures store.Valid()
    ensures (store.Contents(), r) == ImportSpec(old(store.Contents()), sheet, bySymbol, created, today, id, now)
  {
    hide LedgerOf, ProjectedFor, Replay, Events, CommitFails, KeptRows, Classify;
    if |sheet| > MAX_IMPORT_ROWS {
      return Malformed;
    }
    var b := Book(store.txns, store.holdings);
    var holdings := store.holdings + created;
    var openings := OpeningsByUser(b);
    ImportKeepsProjection(b, sheet, bySymbol, created, today, id, now);
    GoodRowsAreImportable(sheet, bySymbol, openings, today);
    var valid, invalid := ClassifyRows(sheet, bySymbol, openings, today);
    var rows, replaced := SplitReplacements(valid, store.txns);
    PlanIsImportable(b, sheet, bySymbol, today);
    var events := Events(rows, id, holdings, now);
    var overselling := AnyOverselling(rows, store.txns, events);
    if invalid || overselling {
      return Refused;
    }
    var affected := HoldersOfRows(rows, HolderOf);
    BatchVerdicts(b, created, rows, id, now, affected);
    store.holdings := holdings;
    store.txns := store.txns + events;
    var done := RecomputeAll(store, affected);
    if done != Done {
      store.txns, store.holdings := b.txns, b.holdings;
      r := Failed;
    } else {
      r := Imported(|rows|, |replaced|);
    }
  }
}
