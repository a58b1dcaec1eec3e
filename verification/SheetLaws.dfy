/** What an import does with a sheet, read off the sheet's own rows (services/trade_import.go, dividends.go). */
module SheetLaws {
  import opened Sequences
  import opened Money
  import opened Ledger
  import opened Book
  import opened WritePath
  import opened Imports
  import Trades = TradeImport
  import Dividends = DividendImport

  // ----- counting rows -----

  lemma CountOfPermutation<Row, Key>(xs: seq<Row>, ys: seq<Row>, key: Row -> Key, k: Key)
    requires multiset(xs) == multiset(ys)
    ensures Count(xs, key, k) == Count(ys, key, k)
  {
    CountIsTotal(xs, key, k);
    CountIsTotal(ys, key, k);
    TotalOfPermutation(xs, ys, One(key, k));
  }

  function One<Row, Key(==)>(key: Row -> Key, k: Key): Row -> int {
    row => if key(row) == k then 1 else 0
  }

  lemma {:induction false} CountIsTotal<Row, Key>(rows: seq<Row>, key: Row -> Key, k: Key)
    ensures Count(rows, key, k) == Total(rows, One(key, k))
  {
    if rows == [] {
      assert KeysOf(rows, key) == [];
    } else {
      CountIsTotal(rows[1..], key, k);
      assert rows == [rows[0]] + rows[1..];
      CountConcat([rows[0]], rows[1..], key, k);
      assert KeysOf([rows[0]], key) == [key(rows[0])];
    }
  }

  // ----- trades -----

  /** One trade, from a sheet or from the ledger: quantities to the millionth, values to the cent. */
  datatype TradeFact = TradeFact(holding: nat, day: int, kind: Kind, micros: int, cents: int)

  function FactOfTrade(t: Txn): TradeFact {
    TradeFact(t.holding, DayOf(t.date), t.kind, Round(t.quantity * 1_000_000.0), AmountCents(t.amount))
  }

  function FactOfTradeRow(row: Trades.SheetRow, hid: nat): TradeFact
    requires row.kind.Some?
  {
    TradeFact(hid, DayOf(row.date), row.kind.value, Round(row.quantity * 1_000_000.0), AmountCents(row.amount))
  }

  /** A readable trade of a holding that is known: a buy or sell of a positive quantity and value, not in the future. */
  predicate ReadableTrade(row: Trades.SheetRow, bySymbol: map<string, nat>, today: int) {
    && row.symbol != "" && row.symbol in bySymbol && row.exchangeKnown
    && (row.kind == Some(Buy) || row.kind == Some(Sell))
    && Round(row.quantity * 1_000_000.0) > 0
    && AmountCents(row.amount) > 0 && row.amount < 1_000_000_000_000.0
    && DayOf(row.date) <= today
  }

  /** The holding's opening, if it has one with shares. */
  function OpeningWithShares(b: Book, hid: nat): Option<Txn> {
    var opening := OpeningOf(b.txns, hid);
    if hid in b.holdings && opening.Some? && opening.value.quantity > 0.0 then opening else None
  }

  predicate InvalidTrade(b: Book, row: Trades.SheetRow, bySymbol: map<string, nat>, today: int) {
    || !ReadableTrade(row, bySymbol, today)
    || (var opening := OpeningWithShares(b, bySymbol[row.symbol]); opening.Some? && opening.value.openingDate.None?)
  }

  /** The row is to be imported: after the day its holding's opening is declared for. */
  predicate ImportsTrade(b: Book, row: Trades.SheetRow, bySymbol: map<string, nat>, today: int) {
    && !InvalidTrade(b, row, bySymbol, today)
    && var opening := OpeningWithShares(b, bySymbol[row.symbol]);
       opening.Some? ==> DayOf(row.date) > DayOf(opening.value.openingDate.value)
  }

  function ImportsTradeAs(b: Book, bySymbol: map<string, nat>, today: int, k: TradeFact): Trades.SheetRow -> bool {
    (row: Trades.SheetRow) => ImportsTrade(b, row, bySymbol, today) && FactOfTradeRow(row, bySymbol[row.symbol]) == k
  }

  function ToImport(b: Book, bySymbol: map<string, nat>, today: int): Trades.SheetRow -> bool {
    (row: Trades.SheetRow) => ImportsTrade(b, row, bySymbol, today)
  }

  /** How many rows of a sheet are to be imported as this trade. */
  function TradesInSheet(b: Book, sheet: seq<Trades.SheetRow>, bySymbol: map<string, nat>, today: int, k: TradeFact): nat {
    |Filter(sheet, ImportsTradeAs(b, bySymbol, today, k))|
  }

  /** How often the ledgers store this trade. */
  function TradesStored(txns: seq<Txn>, k: TradeFact): nat {
    Count(Filter(txns, IsBuyOrSell), FactOfTrade, k)
  }

  predicate IsBuyOrSell(t: Txn) { t.kind.Buy? || t.kind.Sell? }

  // the model's own keys and rows say the same

  function FactOfKey(k: Trades.TradeKey): TradeFact {
    TradeFact(k.holding, k.day, k.kind, k.micros, k.cents)
  }

  function KeyOfFact(k: TradeFact): Trades.TradeKey {
    Trades.TradeKey(k.holding, k.day, k.kind, k.micros, k.cents)
  }

  lemma ClassifiedRow(b: Book, row: Trades.SheetRow, bySymbol: map<string, nat>, today: int)
    ensures var c := Trades.Classify(row, bySymbol, Trades.OpeningsByUser(b), today);
            && (c == Trades.Bad(Trades.InvalidRow) <==> InvalidTrade(b, row, bySymbol, today))
            && (c.Good? <==> ImportsTrade(b, row, bySymbol, today))
            && (c.Good? ==> && FactOfKey(Trades.RowKey(c.row)) == FactOfTradeRow(row, bySymbol[row.symbol])
                            && c.row == Trades.TradeRow(row.line, row.kind.value, row.quantity, row.amount,
                                                        DayOf(row.date), bySymbol[row.symbol]))
  {
  }

  lemma {:induction false} KeptRowsCount(b: Book, sheet: seq<Trades.SheetRow>, bySymbol: map<string, nat>, today: int,
      k: TradeFact)
    ensures Count(Trades.KeptRows(sheet, bySymbol, Trades.OpeningsByUser(b), today), Trades.RowKey, KeyOfFact(k))
         == TradesInSheet(b, sheet, bySymbol, today, k)
    decreases |sheet|
  {
    var openings := Trades.OpeningsByUser(b);
    if sheet == [] {
      assert KeysOf([], Trades.RowKey) == [];
    } else {
      var init, last := sheet[..|sheet| - 1], sheet[|sheet| - 1];
      hide Trades.OpeningsByUser, Trades.Classify, InvalidTrade, FactOfTradeRow, Trades.RowKey, ImportsTrade;
      KeptRowsCount(b, init, bySymbol, today, k);
      ClassifiedRow(b, last, bySymbol, today);
      assert sheet == init + [last];
      var keep := ImportsTradeAs(b, bySymbol, today, k);
      FilterConcat(init, [last], keep);
      FilterCons(last, [], keep);
      assert [last] + [] == [last];
      var c := Trades.Classify(last, bySymbol, openings, today);
      if c.Good? {
        CountOneMore(Trades.KeptRows(init, bySymbol, openings, today), c.row, Trades.RowKey, KeyOfFact(k));
      } else {
        assert Trades.KeptRows(init, bySymbol, openings, today) + [] == Trades.KeptRows(init, bySymbol, openings, today);
      }
    }
  }

  lemma GoodRowsCount(b: Book, sheet: seq<Trades.SheetRow>, bySymbol: map<string, nat>, today: int, k: TradeFact)
    ensures Count(Trades.GoodRows(sheet, bySymbol, Trades.OpeningsByUser(b), today), Trades.RowKey, KeyOfFact(k))
         == TradesInSheet(b, sheet, bySymbol, today, k)
  {
    var kept := Trades.KeptRows(sheet, bySymbol, Trades.OpeningsByUser(b), today);
    KeptRowsCount(b, sheet, bySymbol, today, k);
    Trades.SortByDayIsStable(kept, 0);
    CountOfPermutation(Trades.SortByDay(kept), kept, Trades.RowKey, KeyOfFact(k));
  }

  lemma {:induction false} StoredCount(txns: seq<Txn>, k: TradeFact)
    ensures Count(txns, Trades.StoredKey, KeyOfFact(k)) == Count(txns, FactOfTrade, k)
  {
    if txns == [] {
      assert KeysOf(txns, Trades.StoredKey) == [] && KeysOf(txns, FactOfTrade) == [];
    } else {
      StoredCount(txns[1..], k);
      assert txns == [txns[0]] + txns[1..];
      CountConcat([txns[0]], txns[1..], Trades.StoredKey, KeyOfFact(k));
      CountConcat([txns[0]], txns[1..], FactOfTrade, k);
      assert KeysOf([txns[0]], Trades.StoredKey) == [Trades.StoredKey(txns[0])];
      assert KeysOf([txns[0]], FactOfTrade) == [FactOfTrade(txns[0])];
    }
  }

  // ----- which sheet row each new trade comes from -----

  /** at[j] is the sheet row behind rows[j]. */
  ghost predicate Traced(b: Book, sheet: seq<Trades.SheetRow>, bySymbol: map<string, nat>, today: int,
      rows: seq<Trades.TradeRow>, at: seq<nat>) {
    && |at| == |rows|
    && forall j :: 0 <= j < |at| ==> at[j] < |sheet| && Carries(b, sheet[at[j]], bySymbol, today, rows[j])
  }

  ghost predicate Carries(b: Book, row: Trades.SheetRow, bySymbol: map<string, nat>, today: int, r: Trades.TradeRow) {
    && ImportsTrade(b, row, bySymbol, today)
    && r == Trades.TradeRow(row.line, row.kind.value, row.quantity, row.amount, DayOf(row.date), bySymbol[row.symbol])
  }

  /** By day, and within a day as the sheet lists them. */
  ghost predicate SheetOrder(rows: seq<Trades.TradeRow>, at: seq<nat>)
    requires |at| == |rows|
  {
    forall i, j :: 0 <= i < j < |at| ==> rows[i].day < rows[j].day || (rows[i].day == rows[j].day && at[i] < at[j])
  }

  ghost predicate Ascending(at: seq<nat>) {
    forall i, j :: 0 <= i < j < |at| ==> at[i] < at[j]
  }

  lemma GoodRowCarries(b: Book, row: Trades.SheetRow, bySymbol: map<string, nat>, today: int)
    ensures var c := Trades.Classify(row, bySymbol, Trades.OpeningsByUser(b), today);
            c.Good? ==> Carries(b, row, bySymbol, today, c.row)
  {
    ClassifiedRow(b, row, bySymbol, today);
  }

  lemma {:induction false} TraceKept(b: Book, sheet: seq<Trades.SheetRow>, bySymbol: map<string, nat>, today: int)
      returns (at: seq<nat>)
    ensures Traced(b, sheet, bySymbol, today, Trades.KeptRows(sheet, bySymbol, Trades.OpeningsByUser(b), today), at)
    ensures Ascending(at)
    decreases |sheet|
  {
    hide Trades.OpeningsByUser, Trades.Classify, InvalidTrade, ImportsTrade, FactOfTradeRow, Carries;
    at := [];
    if sheet != [] {
      var init, last := sheet[..|sheet| - 1], sheet[|sheet| - 1];
      at := TraceKept(b, init, bySymbol, today);
      ClassifiedRow(b, last, bySymbol, today);
      var c := Trades.Classify(last, bySymbol, Trades.OpeningsByUser(b), today);
      if c.Good? {
        GoodRowCarries(b, last, bySymbol, today);
        at := at + [|sheet| - 1];
      }
    }
  }

  lemma {:induction false} InsertedAt(row: Trades.TradeRow, rows: seq<Trades.TradeRow>) returns (p: nat)
    ensures p <= |rows| && Trades.InsertByDay(row, rows) == rows[..p] + [row] + rows[p..]
    ensures forall k :: 0 <= k < p ==> rows[k].day < row.day
    ensures p < |rows| ==> row.day <= rows[p].day
  {
    p := 0;
    if rows != [] && rows[0].day < row.day {
      var q := InsertedAt(row, rows[1..]);
      p := q + 1;
      assert rows[..p] == [rows[0]] + rows[1..][..q] && rows[p..] == rows[1..][q..];
    }
  }

  lemma TraceInserted(b: Book, sheet: seq<Trades.SheetRow>, bySymbol: map<string, nat>, today: int,
      row: Trades.TradeRow, i: nat, rows: seq<Trades.TradeRow>, at: seq<nat>) returns (r: seq<nat>)
    requires i < |sheet| && Carries(b, sheet[i], bySymbol, today, row)
    requires Traced(b, sheet, bySymbol, today, rows, at) && SheetOrder(rows, at)
    requires forall j :: 0 <= j < |at| ==> i < at[j]
    ensures Traced(b, sheet, bySymbol, today, Trades.InsertByDay(row, rows), r) && SheetOrder(Trades.InsertByDay(row, rows), r)
    ensures forall j :: j in r ==> j == i || j in at
  {
    hide Carries;
    var p := InsertedAt(row, rows);
    r := at[..p] + [i] + at[p..];
    var all := rows[..p] + [row] + rows[p..];
    forall j | 0 <= j < |r|
      ensures r[j] < |sheet| && Carries(b, sheet[r[j]], bySymbol, today, all[j])
    {
      assert j < p ==> r[j] == at[j] && all[j] == rows[j];
      assert j > p ==> r[j] == at[j - 1] && all[j] == rows[j - 1];
    }
    OrderInserted(row, i, rows, at, p);
  }

  lemma OrderInserted(row: Trades.TradeRow, i: nat, rows: seq<Trades.TradeRow>, at: seq<nat>, p: nat)
    requires |at| == |rows| && SheetOrder(rows, at) && p <= |rows|
    requires forall k :: 0 <= k < p ==> rows[k].day < row.day
    requires p < |rows| ==> row.day <= rows[p].day
    requires forall j :: 0 <= j < |at| ==> i < at[j]
    ensures SheetOrder(rows[..p] + [row] + rows[p..], at[..p] + [i] + at[p..])
  {
    var all, r := rows[..p] + [row] + rows[p..], at[..p] + [i] + at[p..];
    forall k | p <= k < |rows|
      ensures row.day <= rows[k].day
    {
      assert k == p || rows[p].day <= rows[k].day;
    }
    forall x, y | 0 <= x < y < |r|
      ensures all[x].day < all[y].day || (all[x].day == all[y].day && r[x] < r[y])
    {
      var u, v := if x < p then x else x - 1, if y < p then y else y - 1;
      if x == p {
        assert all[x] == row && all[y] == rows[v] && r[x] == i && r[y] == at[v];
      } else if y == p {
        assert all[y] == row && all[x] == rows[u];
      } else {
        assert all[x] == rows[u] && all[y] == rows[v] && r[x] == at[u] && r[y] == at[v];
      }
    }
  }

  lemma {:induction false} TraceSorted(b: Book, sheet: seq<Trades.SheetRow>, bySymbol: map<string, nat>, today: int,
      rows: seq<Trades.TradeRow>, at: seq<nat>) returns (r: seq<nat>)
    requires Traced(b, sheet, bySymbol, today, rows, at) && Ascending(at)
    ensures Traced(b, sheet, bySymbol, today, Trades.SortByDay(rows), r) && SheetOrder(Trades.SortByDay(rows), r)
    ensures forall j :: j in r ==> j in at
  {
    hide Carries;
    r := [];
    if rows != [] {
      r := TraceSorted(b, sheet, bySymbol, today, rows[1..], at[1..]);
      forall j | 0 <= j < |r|
        ensures at[0] < r[j]
      {
        assert r[j] in r && r[j] in at[1..];
      }
      r := TraceInserted(b, sheet, bySymbol, today, rows[0], at[0], Trades.SortByDay(rows[1..]), r);
    }
  }

  /** The new rows keep the order of the rows they are picked from. */
  lemma {:induction false} PickNew<Row, Key>(rows: seq<Row>, key: Row -> Key, stored: Key -> nat) returns (pick: seq<nat>)
    ensures Ascending(pick) && |pick| == |NewRows(rows, key, stored)|
    ensures forall j :: 0 <= j < |pick| ==> pick[j] < |rows| && rows[pick[j]] == NewRows(rows, key, stored)[j]
  {
    hide NewRows, Count;
    pick := [];
    if rows == [] {
      PartitionNothing(key, stored);
    } else {
      var n := |rows| - 1;
      pick := PickNew(rows[..n], key, stored);
      assert rows == rows[..n] + [rows[n]];
      PartitionOneMore(rows[..n], rows[n], key, stored);
      if Count(rows[..n], key, key(rows[n])) >= stored(key(rows[n])) {
        pick := pick + [n];
      }
    }
  }

  lemma TraceNew(b: Book, sheet: seq<Trades.SheetRow>, bySymbol: map<string, nat>, today: int,
      rows: seq<Trades.TradeRow>, at: seq<nat>, stored: Trades.TradeKey -> nat) returns (r: seq<nat>)
    requires Traced(b, sheet, bySymbol, today, rows, at) && SheetOrder(rows, at)
    ensures Traced(b, sheet, bySymbol, today, NewRows(rows, Trades.RowKey, stored), r)
    ensures SheetOrder(NewRows(rows, Trades.RowKey, stored), r)
  {
    hide Carries, NewRows;
    var pick := PickNew(rows, Trades.RowKey, stored);
    r := seq(|pick|, j requires 0 <= j < |pick| => at[pick[j]]);
  }

  // ----- the trades an import leaves in the ledgers -----

  /** The event is this row of the sheet: its holding, type, day and exact quantity, its value to the cent. */
  ghost predicate Stores(t: Txn, row: Trades.SheetRow, bySymbol: map<string, nat>, holdings: map<nat, Holding>) {
    && row.symbol in bySymbol && t.holding == bySymbol[row.symbol] && row.kind == Some(t.kind)
    && t.holding in holdings && t.currency == LedgerCurrency(holdings[t.holding])
    && t.date == DayOf(row.date) * DAY && t.quantity == row.quantity && t.amount == RoundCents(row.amount)
  }

  /**
   * An accepted trades import, read off the sheet. Stored events stay where they are. Every new event is one row of the
   * sheet that is to be imported, and the new events come by day and, within a day, in the sheet's order, with ascending
   * insertion times. Each trade is afterwards stored as often as before, or as often as the sheet has it, whichever is more.
   */
  lemma TradeImportJoinsTheSheet(b: Book, sheet: seq<Trades.SheetRow>, bySymbol: map<string, nat>, created: map<nat, Holding>,
      today: int, id: nat, now: int)
    requires bySymbol.Values <= b.holdings.Keys + created.Keys
    requires Trades.ImportSpec(b, sheet, bySymbol, created, today, id, now).1.Imported?
    ensures var txns := Trades.ImportSpec(b, sheet, bySymbol, created, today, id, now).0.txns;
            && b.txns <= txns
            && AddsRowsOf(b, sheet, bySymbol, b.holdings + created, today, now, txns[|b.txns|..])
            && forall k: TradeFact ::
                 TradesStored(txns, k) == Max(TradesStored(b.txns, k), TradesInSheet(b, sheet, bySymbol, today, k))
  {
    hide Trades.Plan, Trades.PlanInvalid, Trades.CommitFails, Trades.Events, Trades.GoodRows, Trades.OpeningsByUser;
    hide TradesStored, TradesInSheet, AddsRowsOf, Absorbed, Filter, Replay, LedgerOf;
    var rows := Trades.Plan(b, sheet, bySymbol, today);
    Trades.PlanIsImportable(b, sheet, bySymbol, today);
    var events := Trades.Events(rows, id, b.holdings + created, now);
    AddedRows(b, sheet, bySymbol, today, id, b.holdings + created, now);
    assert (b.txns + events)[|b.txns|..] == events;
    forall k: TradeFact
      ensures TradesStored(b.txns + events, k) == Max(TradesStored(b.txns, k), TradesInSheet(b, sheet, bySymbol, today, k))
    {
      StoredAfterImport(b, sheet, bySymbol, today, id, b.holdings + created, now, k);
    }
  }

  /** The events are rows of the sheet to be imported, each at most once, in replay order. */
  ghost predicate AddsRowsOf(b: Book, sheet: seq<Trades.SheetRow>, bySymbol: map<string, nat>, holdings: map<nat, Holding>,
      today: int, now: int, events: seq<Txn>) {
    exists at: seq<nat> ::
      && |at| == |events|
      && (forall j :: 0 <= j < |events| ==>
            && at[j] < |sheet| && ImportsTrade(b, sheet[at[j]], bySymbol, today)
            && Stores(events[j], sheet[at[j]], bySymbol, holdings) && events[j].createdAt == now + j * Trades.MILLISECOND)
      && (forall i, j :: 0 <= i < j < |events| ==>
            events[i].date < events[j].date || (events[i].date == events[j].date && at[i] < at[j]))
  }

  lemma AddedRows(b: Book, sheet: seq<Trades.SheetRow>, bySymbol: map<string, nat>, today: int,
      id: nat, holdings: map<nat, Holding>, now: int)
    requires forall row :: row in Trades.Plan(b, sheet, bySymbol, today) ==> row.holding in holdings
    ensures AddsRowsOf(b, sheet, bySymbol, holdings, today, now,
                       Trades.Events(Trades.Plan(b, sheet, bySymbol, today), id, holdings, now))
  {
    hide Trades.KeptRows, Trades.SortByDay, Trades.OpeningsByUser, Trades.Events, NewRows, Traced, SheetOrder, Ascending;
    hide AddsRowsOf, Filter, StoredIn;
    var rows := Trades.Plan(b, sheet, bySymbol, today);
    var at := TraceKept(b, sheet, bySymbol, today);
    at := TraceSorted(b, sheet, bySymbol, today, Trades.KeptRows(sheet, bySymbol, Trades.OpeningsByUser(b), today), at);
    at := TraceNew(b, sheet, bySymbol, today, Trades.GoodRows(sheet, bySymbol, Trades.OpeningsByUser(b), today), at,
                   StoredIn(Filter(b.txns, Trades.IsTrade), Trades.StoredKey));
    EventsOfTracedTrades(b, rows, at, sheet, bySymbol, today, id, holdings, now);
  }

  lemma EventsOfTracedTrades(b: Book, rows: seq<Trades.TradeRow>, at: seq<nat>, sheet: seq<Trades.SheetRow>,
      bySymbol: map<string, nat>, today: int, id: nat, holdings: map<nat, Holding>, now: int)
    requires forall row :: row in rows ==> row.holding in holdings
    requires Traced(b, sheet, bySymbol, today, rows, at) && SheetOrder(rows, at)
    ensures AddsRowsOf(b, sheet, bySymbol, holdings, today, now, Trades.Events(rows, id, holdings, now))
  {
    hide ImportsTrade, Carries, Stores, LedgerCurrency, RoundCents, DayOf;
    var events := Trades.Events(rows, id, holdings, now);
    forall j | 0 <= j < |events|
      ensures && at[j] < |sheet| && ImportsTrade(b, sheet[at[j]], bySymbol, today)
              && Stores(events[j], sheet[at[j]], bySymbol, holdings) && events[j].createdAt == now + j * Trades.MILLISECOND
    {
      assert rows[j] in rows;
      EventStores(b, sheet[at[j]], bySymbol, today, rows[j], id + j, holdings, now + j * Trades.MILLISECOND);
      assert events[j].date == rows[j].day * DAY;
    }
  }

  lemma EventStores(b: Book, row: Trades.SheetRow, bySymbol: map<string, nat>, today: int, r: Trades.TradeRow, id: nat,
      holdings: map<nat, Holding>, createdAt: int)
    requires Carries(b, row, bySymbol, today, r) && r.holding in holdings
    ensures ImportsTrade(b, row, bySymbol, today)
    ensures Stores(Trades.Event(r, id, LedgerCurrency(holdings[r.holding]), createdAt), row, bySymbol, holdings)
  {
    hide LedgerCurrency, RoundCents;
    ImportedIsReadable(b, row, bySymbol, today);
  }

  lemma ImportedIsReadable(b: Book, row: Trades.SheetRow, bySymbol: map<string, nat>, today: int)
    requires ImportsTrade(b, row, bySymbol, today)
    ensures ReadableTrade(row, bySymbol, today)
  {
  }

  lemma StoredAfterImport(b: Book, sheet: seq<Trades.SheetRow>, bySymbol: map<string, nat>, today: int,
      id: nat, holdings: map<nat, Holding>, now: int, k: TradeFact)
    requires forall row :: row in Trades.Plan(b, sheet, bySymbol, today) ==>
               row.holding in holdings && (row.kind.Buy? || row.kind.Sell?)
    ensures TradesStored(b.txns + Trades.Events(Trades.Plan(b, sheet, bySymbol, today), id, holdings, now), k)
         == Max(TradesStored(b.txns, k), TradesInSheet(b, sheet, bySymbol, today, k))
  {
    hide Trades.GoodRows, Trades.RowKey, Trades.StoredKey, TradesInSheet, Count, FactOfTrade;
    var good := Trades.GoodRows(sheet, bySymbol, Trades.OpeningsByUser(b), today);
    var existing := Filter(b.txns, Trades.IsTrade);
    var events := Trades.Events(Trades.Plan(b, sheet, bySymbol, today), id, holdings, now);
    Trades.EventsKeepKeys(existing, good, id, holdings, now);
    ImportIsAJoin(existing, good, Trades.RowKey, Trades.StoredKey, events, KeyOfFact(k));
    GoodRowsCount(b, sheet, bySymbol, today, k);
    TradesStoredByKey(b.txns, k);
    TradesStoredByKey(b.txns + events, k);
    FilterConcat(b.txns, events, Trades.IsTrade);
    forall t | t in events
      ensures Trades.IsTrade(t)
    {
      var i :| 0 <= i < |events| && events[i] == t;
    }
    FilterAll(events, Trades.IsTrade);
  }

  lemma TradesStoredByKey(txns: seq<Txn>, k: TradeFact)
    ensures TradesStored(txns, k) == Count(Filter(txns, Trades.IsTrade), Trades.StoredKey, KeyOfFact(k))
  {
    FilterCongruence(txns, IsBuyOrSell, Trades.IsTrade);
    StoredCount(Filter(txns, Trades.IsTrade), k);
  }

  /** One invalid row refuses the whole sheet, and leaves everything as it was. */
  lemma InvalidTradeRefusesTheSheet(b: Book, sheet: seq<Trades.SheetRow>, bySymbol: map<string, nat>, created: map<nat, Holding>,
      today: int, id: nat, now: int, i: nat)
    requires bySymbol.Values <= b.holdings.Keys + created.Keys
    requires i < |sheet| && InvalidTrade(b, sheet[i], bySymbol, today)
    ensures Trades.ImportSpec(b, sheet, bySymbol, created, today, id, now)
         == (b, if |sheet| > 5000 then Trades.Malformed else Trades.Refused)
  {
    hide InvalidTrade, Trades.Classify, Trades.OpeningsByUser, Trades.Plan, Trades.GoodRows;
    ClassifiedRow(b, sheet[i], bySymbol, today);
    assert Trades.AnyInvalid(sheet, bySymbol, Trades.OpeningsByUser(b), today);
  }

  /** An accepted import had no invalid row; it reports how many trades it added, and how many it found stored already. */
  lemma TradeImportCounts(b: Book, sheet: seq<Trades.SheetRow>, bySymbol: map<string, nat>, created: map<nat, Holding>,
      today: int, id: nat, now: int)
    requires bySymbol.Values <= b.holdings.Keys + created.Keys
    requires Trades.ImportSpec(b, sheet, bySymbol, created, today, id, now).1.Imported?
    ensures forall i :: 0 <= i < |sheet| ==> !InvalidTrade(b, sheet[i], bySymbol, today)
    ensures var (after, r) := Trades.ImportSpec(b, sheet, bySymbol, created, today, id, now);
            && |after.txns| == |b.txns| + r.count
            && r.count + r.replaced == |Filter(sheet, ToImport(b, bySymbol, today))|
  {
    hide Trades.PlanInvalid, Trades.CommitFails, Trades.Events, Trades.KeptRows, Trades.SortByDay, Trades.OpeningsByUser;
    hide InvalidTrade, ToImport, NewRows, Absorbed, Filter, StoredIn, Trades.RowKey, Replay, LedgerOf;
    forall i | 0 <= i < |sheet|
      ensures !InvalidTrade(b, sheet[i], bySymbol, today)
    {
      if InvalidTrade(b, sheet[i], bySymbol, today) {
        InvalidTradeRefusesTheSheet(b, sheet, bySymbol, created, today, id, now, i);
      }
    }
    var kept := Trades.KeptRows(sheet, bySymbol, Trades.OpeningsByUser(b), today);
    KeptRowsNumber(b, sheet, bySymbol, today);
    Trades.SortByDayIsStable(kept, 0);
    assert |multiset(Trades.SortByDay(kept))| == |multiset(kept)|;
    PartitionIsComplete(Trades.SortByDay(kept), Trades.RowKey, StoredIn(Filter(b.txns, Trades.IsTrade), Trades.StoredKey));
  }

  lemma {:induction false} KeptRowsNumber(b: Book, sheet: seq<Trades.SheetRow>, bySymbol: map<string, nat>, today: int)
    ensures |Trades.KeptRows(sheet, bySymbol, Trades.OpeningsByUser(b), today)|
         == |Filter(sheet, ToImport(b, bySymbol, today))|
    decreases |sheet|
  {
    if sheet != [] {
      hide Trades.OpeningsByUser, Trades.Classify, InvalidTrade, FactOfTradeRow, ImportsTrade;
      var init, last := sheet[..|sheet| - 1], sheet[|sheet| - 1];
      var keep := ToImport(b, bySymbol, today);
      KeptRowsNumber(b, init, bySymbol, today);
      ClassifiedRow(b, last, bySymbol, today);
      assert sheet == init + [last] && [last] + [] == [last];
      FilterConcat(init, [last], keep);
      FilterCons(last, [], keep);
    }
  }

  // ----- dividends -----

  datatype DividendFact = DividendFact(holding: nat, day: int, cents: int)

  function FactOfDividend(t: Txn): DividendFact {
    DividendFact(t.holding, DayOf(t.date), AmountCents(t.amount))
  }

  /** A dividend of a holding that is known: at least a cent, below the bound, not in the future. */
  predicate ReadableDividend(row: Dividends.SheetRow, byName: map<string, nat>, today: int) {
    && row.name != "" && row.name in byName
    && AmountCents(row.amount) > 0 && row.amount < 1_000_000_000_000.0
    && DayOf(row.date) <= today
  }

  function ReadableAs(byName: map<string, nat>, today: int, k: DividendFact): Dividends.SheetRow -> bool {
    (row: Dividends.SheetRow) =>
      && ReadableDividend(row, byName, today)
      && DividendFact(byName[row.name], DayOf(row.date), AmountCents(row.amount)) == k
  }

  /** How many rows of a sheet are this dividend. */
  function DividendsInSheet(sheet: seq<Dividends.SheetRow>, byName: map<string, nat>, today: int, k: DividendFact): nat {
    |Filter(sheet, ReadableAs(byName, today, k))|
  }

  /** How often the ledgers store this dividend. */
  function DividendsStored(txns: seq<Txn>, k: DividendFact): nat {
    Count(Filter(txns, PaysDividend), FactOfDividend, k)
  }

  predicate PaysDividend(t: Txn) { t.kind.Dividend? }

  function KeyOfDividend(k: DividendFact): Dividends.DividendKey {
    Dividends.DividendKey(k.holding, k.day, k.cents)
  }

  lemma EligibleIsReadable(row: Dividends.SheetRow, byName: map<string, nat>, today: int)
    ensures Dividends.Eligible(row, byName, today) <==> ReadableDividend(row, byName, today)
  {
  }

  lemma ReadableIsNamed(row: Dividends.SheetRow, byName: map<string, nat>, today: int)
    requires ReadableDividend(row, byName, today)
    ensures row.name in byName
  {
  }

  lemma {:induction false} ResolvedCount(sheet: seq<Dividends.SheetRow>, byName: map<string, nat>, today: int, k: DividendFact)
    ensures Count(Dividends.Resolved(sheet, byName, today), Dividends.RowKey, KeyOfDividend(k))
         == DividendsInSheet(sheet, byName, today, k)
    decreases |sheet|
  {
    if sheet == [] {
      assert KeysOf([], Dividends.RowKey) == [];
    } else {
      hide Dividends.Eligible, ReadableDividend, Count, KeyOfDividend, AmountCents, DayOf;
      var init, last := sheet[..|sheet| - 1], sheet[|sheet| - 1];
      var rows, keep := Dividends.Resolved(init, byName, today), ReadableAs(byName, today, k);
      ResolvedCount(init, byName, today, k);
      EligibleIsReadable(last, byName, today);
      assert sheet == init + [last] && [last] + [] == [last];
      FilterConcat(init, [last], keep);
      FilterCons(last, [], keep);
      if Dividends.Eligible(last, byName, today) {
        ReadableIsNamed(last, byName, today);
        var row := Dividends.DividendRow(last.line, byName[last.name], DayOf(last.date), last.amount);
        CountOneMore(rows, row, Dividends.RowKey, KeyOfDividend(k));
      } else {
        assert rows + [] == rows;
      }
    }
  }

  lemma {:induction false} DividendsStoredByKey(txns: seq<Txn>, k: DividendFact)
    ensures DividendsStored(txns, k) == Count(Filter(txns, Dividends.IsDividend), Dividends.StoredKey, KeyOfDividend(k))
  {
    FilterCongruence(txns, PaysDividend, Dividends.IsDividend);
    SameDividendCount(Filter(txns, Dividends.IsDividend), k);
  }

  lemma {:induction false} SameDividendCount(txns: seq<Txn>, k: DividendFact)
    ensures Count(txns, FactOfDividend, k) == Count(txns, Dividends.StoredKey, KeyOfDividend(k))
  {
    if txns == [] {
      assert KeysOf(txns, Dividends.StoredKey) == [] && KeysOf(txns, FactOfDividend) == [];
    } else {
      SameDividendCount(txns[1..], k);
      assert txns == [txns[0]] + txns[1..];
      CountConcat([txns[0]], txns[1..], Dividends.StoredKey, KeyOfDividend(k));
      CountConcat([txns[0]], txns[1..], FactOfDividend, k);
      assert KeysOf([txns[0]], Dividends.StoredKey) == [Dividends.StoredKey(txns[0])];
      assert KeysOf([txns[0]], FactOfDividend) == [FactOfDividend(txns[0])];
    }
  }

  /** The event is this row of the sheet: its holding and day, its money to the cent. */
  ghost predicate StoresDividend(t: Txn, row: Dividends.SheetRow, byName: map<string, nat>, holdings: map<nat, Holding>, now: int) {
    && row.name in byName && t.holding == byName[row.name] && t.kind == Dividend
    && t.holding in holdings && t.currency == LedgerCurrency(holdings[t.holding])
    && t.date == DayOf(row.date) * DAY && t.amount == RoundCents(row.amount) && t.createdAt == now
  }

  /** at[j] is the sheet row behind rows[j]. */
  ghost predicate ResolvedAt(sheet: seq<Dividends.SheetRow>, byName: map<string, nat>,
      rows: seq<Dividends.DividendRow>, at: seq<nat>) {
    && |at| == |rows|
    && forall j :: 0 <= j < |at| ==> at[j] < |sheet| && ResolvesTo(sheet[at[j]], byName, rows[j])
  }

  ghost predicate ResolvesTo(row: Dividends.SheetRow, byName: map<string, nat>, r: Dividends.DividendRow) {
    row.name in byName && r == Dividends.DividendRow(row.line, byName[row.name], DayOf(row.date), row.amount)
  }

  lemma {:induction false} TraceResolved(sheet: seq<Dividends.SheetRow>, byName: map<string, nat>, today: int) returns (at: seq<nat>)
    ensures ResolvedAt(sheet, byName, Dividends.Resolved(sheet, byName, today), at) && Ascending(at)
    decreases |sheet|
  {
    hide ReadableDividend;
    at := [];
    if sheet != [] {
      var init, last := sheet[..|sheet| - 1], sheet[|sheet| - 1];
      at := TraceResolved(init, byName, today);
      if Dividends.Eligible(last, byName, today) {
        at := at + [|sheet| - 1];
      }
    }
  }

  /** The events are rows of the sheet, each at most once, in the sheet's order. */
  ghost predicate AddsDividendsOf(sheet: seq<Dividends.SheetRow>, byName: map<string, nat>, holdings: map<nat, Holding>, now: int,
      events: seq<Txn>) {
    exists at: seq<nat> ::
      && |at| == |events| && Ascending(at)
      && forall j :: 0 <= j < |events| ==> at[j] < |sheet| && StoresDividend(events[j], sheet[at[j]], byName, holdings, now)
  }

  lemma AddedDividends(b: Book, sheet: seq<Dividends.SheetRow>, byName: map<string, nat>, today: int, id: nat, now: int)
    requires byName.Values <= b.holdings.Keys
    ensures AddsDividendsOf(sheet, byName, b.holdings, now,
                            Dividends.Events(Dividends.Plan(b, sheet, byName, today), id, b.holdings, now))
  {
    hide Dividends.Resolved, Dividends.Events, Dividends.RowKey, ResolvesTo, NewRows, AddsDividendsOf, Filter, StoredIn;
    var rows := Dividends.Resolved(sheet, byName, today);
    var plan := Dividends.Plan(b, sheet, byName, today);
    var at := TraceResolved(sheet, byName, today);
    var pick := PickNew(rows, Dividends.RowKey, StoredIn(Filter(b.txns, Dividends.IsDividend), Dividends.StoredKey));
    at := seq(|pick|, j requires 0 <= j < |pick| => at[pick[j]]);
    EventsOfTracedRows(plan, at, sheet, byName, id, b.holdings, now);
  }

  lemma EventsOfTracedRows(rows: seq<Dividends.DividendRow>, at: seq<nat>, sheet: seq<Dividends.SheetRow>,
      byName: map<string, nat>, id: nat, holdings: map<nat, Holding>, now: int)
    requires forall row :: row in rows ==> row.holding in holdings
    requires ResolvedAt(sheet, byName, rows, at) && Ascending(at)
    ensures AddsDividendsOf(sheet, byName, holdings, now, Dividends.Events(rows, id, holdings, now))
  {
    var events := Dividends.Events(rows, id, holdings, now);
    forall j | 0 <= j < |events|
      ensures at[j] < |sheet| && StoresDividend(events[j], sheet[at[j]], byName, holdings, now)
    {
      assert ResolvesTo(sheet[at[j]], byName, rows[j]);
    }
  }

  /**
   * A dividend import, read off the sheet. It is accepted exactly when the request is well formed and every row readable.
   * Stored events stay where they are; every new event is one row of the sheet, in its order; and each dividend is
   * afterwards stored as often as before, or as often as the sheet has it, whichever is more.
   */
  lemma DividendImportJoinsTheSheet(b: Book, currency: string, sheet: seq<Dividends.SheetRow>, byName: map<string, nat>,
      today: int, id: nat, now: int)
    requires byName.Values <= b.holdings.Keys
    ensures var (after, r) := Dividends.ImportSpec(b, currency, sheet, byName, today, id, now);
            && (r.Imported? <==> && (currency == "INR" || currency == "EUR") && |sheet| <= 5000
                                 && forall i :: 0 <= i < |sheet| ==> ReadableDividend(sheet[i], byName, today))
            && (!r.Imported? ==> after == b)
            && (r.Imported? ==>
                  && b.txns <= after.txns && |after.txns| == |b.txns| + r.count && r.count + r.duplicates == |sheet|
                  && AddsDividendsOf(sheet, byName, b.holdings, now, after.txns[|b.txns|..])
                  && forall k: DividendFact ::
                       DividendsStored(after.txns, k) == Max(DividendsStored(b.txns, k), DividendsInSheet(sheet, byName, today, k)))
  {
    hide Dividends.Resolved, Dividends.Events, Dividends.RowKey, Dividends.AnyInvalid, Dividends.ValidRequest, ReadableDividend;
    hide DividendsStored, DividendsInSheet, AddsDividendsOf, NewRows, Absorbed, Filter, StoredIn, Replay, LedgerOf;
    DividendSheetAccepted(currency, sheet, byName, today);
    var r := Dividends.ImportSpec(b, currency, sheet, byName, today, id, now).1;
    if r.Imported? {
      var events := Dividends.Events(Dividends.Plan(b, sheet, byName, today), id, b.holdings, now);
      assert (b.txns + events)[|b.txns|..] == events;
      AddedDividends(b, sheet, byName, today, id, now);
      DividendsSplit(sheet, byName, today, StoredIn(Filter(b.txns, Dividends.IsDividend), Dividends.StoredKey));
      forall k: DividendFact
        ensures DividendsStored(b.txns + events, k) == Max(DividendsStored(b.txns, k), DividendsInSheet(sheet, byName, today, k))
      {
        DividendsAfterImport(b, sheet, byName, today, id, now, k);
      }
    }
  }

  lemma DividendSheetAccepted(currency: string, sheet: seq<Dividends.SheetRow>, byName: map<string, nat>, today: int)
    ensures Dividends.ValidRequest(currency, sheet) <==> (currency == "INR" || currency == "EUR") && |sheet| <= 5000
    ensures !Dividends.AnyInvalid(sheet, byName, today) <==>
              forall i :: 0 <= i < |sheet| ==> ReadableDividend(sheet[i], byName, today)
  {
    forall i | 0 <= i < |sheet|
      ensures Dividends.Eligible(sheet[i], byName, today) <==> ReadableDividend(sheet[i], byName, today)
    {
      EligibleIsReadable(sheet[i], byName, today);
    }
  }

  lemma DividendsSplit(sheet: seq<Dividends.SheetRow>, byName: map<string, nat>, today: int, stored: Dividends.DividendKey -> nat)
    requires !Dividends.AnyInvalid(sheet, byName, today)
    ensures |NewRows(Dividends.Resolved(sheet, byName, today), Dividends.RowKey, stored)|
          + |Absorbed(Dividends.Resolved(sheet, byName, today), Dividends.RowKey, stored)| == |sheet|
  {
    hide Dividends.Resolved, Dividends.RowKey, NewRows, Absorbed;
    var rows := Dividends.Resolved(sheet, byName, today);
    AllResolved(sheet, byName, today);
    PartitionIsComplete(rows, Dividends.RowKey, stored);
    assert |multiset(rows)| == |rows|;
  }

  lemma {:induction false} AllResolved(sheet: seq<Dividends.SheetRow>, byName: map<string, nat>, today: int)
    requires forall i :: 0 <= i < |sheet| ==> Dividends.Eligible(sheet[i], byName, today)
    ensures |Dividends.Resolved(sheet, byName, today)| == |sheet|
    decreases |sheet|
  {
    if sheet != [] {
      AllResolved(sheet[..|sheet| - 1], byName, today);
    }
  }

  lemma DividendsAfterImport(b: Book, sheet: seq<Dividends.SheetRow>, byName: map<string, nat>, today: int, id: nat, now: int,
      k: DividendFact)
    requires byName.Values <= b.holdings.Keys
    ensures DividendsStored(b.txns + Dividends.Events(Dividends.Plan(b, sheet, byName, today), id, b.holdings, now), k)
         == Max(DividendsStored(b.txns, k), DividendsInSheet(sheet, byName, today, k))
  {
    hide Dividends.Resolved, Dividends.RowKey, Dividends.StoredKey, DividendsInSheet, Count, FactOfDividend, NewRows;
    var rows := Dividends.Resolved(sheet, byName, today);
    var existing := Filter(b.txns, Dividends.IsDividend);
    var events := Dividends.Events(Dividends.Plan(b, sheet, byName, today), id, b.holdings, now);
    Dividends.EventsKeepKeys(existing, rows, id, b.holdings, now);
    ImportIsAJoin(existing, rows, Dividends.RowKey, Dividends.StoredKey, events, KeyOfDividend(k));
    ResolvedCount(sheet, byName, today, k);
    DividendsStoredByKey(b.txns, k);
    DividendsStoredByKey(b.txns + events, k);
    FilterConcat(b.txns, events, Dividends.IsDividend);
    forall t | t in events
      ensures Dividends.IsDividend(t)
    {
      var i :| 0 <= i < |events| && events[i] == t;
    }
    FilterAll(events, Dividends.IsDividend);
  }
}
