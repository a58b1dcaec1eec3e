/** Which ledger writes leave a healthy past healthy, each with the heal it runs or without one. */
module WriteHistory {
  import opened Sequences
  import opened Ledger
  import opened AsOfReplay
  import opened Book
  import opened Snapshots
  import opened Heal
  import opened HistoryLaws
  import opened WritePath
  import opened HealReach
  import opened UpdateReach
  import opened HoldingHistory
  import opened LedgerMachine
  import Erasure
  import DividendImport
  import TradeImport

  /** A ledger with its listing, and rows dated before today or later. */
  datatype Past = Past(book: Book, listed: seq<nat>, rows: map<int, Row>, today: int)

  function IsHeldIn(b: Book): nat -> bool {
    (hid: nat) => hid in b.holdings
  }

  /** Every holding is listed, and nothing else. */
  ghost predicate Catalogued(b: Book, listed: seq<nat>) {
    forall hid: nat :: hid in listed <==> hid in b.holdings
  }

  /** Holdings are listed by script: only an edited script can move one. */
  ghost predicate Relists(b: Book, listed: seq<nat>, op: Op, relisted: seq<nat>)
    requires Closed(b) && Enabled(b, op)
  {
    match op
    case EditOp(hid, edit) =>
      && Filter(relisted, Except(hid)) == Filter(listed, Except(hid))
      && ((hid in b.holdings && edit.script != b.holdings[hid].script) || relisted == listed)
    case _ => Filter(relisted, IsHeldIn(b)) == Filter(listed, IsHeldIn(Apply(b, op)))
  }

  /** The write is enabled as in `LedgerMachine`, and the holdings are listed anew. */
  ghost predicate Writable(p: Past, op: Op, relisted: seq<nat>)
    requires Closed(p.book)
  {
    && Enabled(p.book, op)
    && Catalogued(Apply(p.book, op), relisted) && Relists(p.book, p.listed, op, relisted)
  }

  /** The events a write passes to its heal: holdings and dividend writes pass none. */
  ghost function HealedFor(b: Book, op: Op): seq<Txn>
    requires Closed(b) && Enabled(b, op)
  {
    var b2 := Apply(b, op);
    match op
    case CreateOp(hid, input, today, id, now) =>
      if CreateSpec(b, hid, input, today, id, now).1.Done? then [b2.txns[|b.txns|]] else []
    case UpdateOp(id, input, today) =>
      if UpdateSpec(b, id, input, today).1.Done? then [b.txns[IndexOf(b.txns, id)], b2.txns[IndexOf(b.txns, id)]] else []
    case DeleteOp(id) => if DeleteSpec(b, id).1.Done? then [b.txns[IndexOf(b.txns, id)]] else []
    case ImportTradesOp(sheet, bySymbol, created, today, id, now) =>
      if TradeImport.ImportSpec(b, sheet, bySymbol, created, today, id, now).1.Imported? then b2.txns[|b.txns|..] else []
    case _ => []
  }

  /** No two holdings share a symbol in the new listing, and no past row stores the symbol of a new tracked one. */
  ghost predicate NewSymbols(b: Book, rows: map<int, Row>, b2: Book, relisted: seq<nat>, today: int)
    requires Listed(b2, relisted)
  {
    && SymbolsDistinct(b2, relisted)
    && forall hid :: hid in relisted && hid !in b.holdings && Tracked(b2, hid) ==> Unseen(rows, SymbolOf(b2, hid), today)
  }

  /** What a caller can check before a write; for each kind `HealReach`, `UpdateReach` or `HoldingHistory` says why. */
  ghost predicate Harmless(p: Past, op: Op, relisted: seq<nat>)
    requires Catalogued(p.book, p.listed) && Closed(p.book) && Writable(p, op, relisted)
  {
    && NewSymbols(p.book, p.rows, Apply(p.book, op), relisted, p.today)
    && match op
       case OpenOp(hid, input, _, _) => OpensWithShares(input) ==> NoLinesBefore(p.rows, p.today)
       case CreateOp(hid, input, today, id, now) =>
         CreateSpec(p.book, hid, input, today, id, now).1.Done? ==> !OpensShares(input)
       case UpdateOp(id, input, today) =>
         UpdateSpec(p.book, id, input, today).1.Done? ==>
           var t := p.book.txns[IndexOf(p.book.txns, id)];
           EditUnseen(t, Patched(t, input), p.today)
       case DeleteOp(id) =>
         DeleteSpec(p.book, id).1.Done? ==> HealReaches(p.book.txns[IndexOf(p.book.txns, id)], p.today)
       case OpeningDateOp(hid, date) =>
         OpeningOf(p.book.txns, hid).Some? ==> RedateUnseen(OpeningOf(p.book.txns, hid).value, date, p.today)
       case EditOp(hid, edit) =>
         hid in p.book.holdings ==>
           var h := p.book.holdings[hid];
           ShownAlike(h, Edited(h, edit)) || NoLinesEitherWay(p.book, hid, Edited(h, edit), p.rows, p.today)
       case DropOp(hid) =>
         hid in p.book.holdings && Tracked(p.book, hid) ==> Unseen(p.rows, SymbolOf(p.book, hid), p.today)
       case _ => true
  }

  /** Positions are projected, no symbol is shared, and past rows are what healing would make of them. */
  ghost predicate Healthily(p: Past) {
    && Projected(p.book) && Catalogued(p.book, p.listed) && SymbolsDistinct(p.book, p.listed)
    && Healthy(p.book, p.listed, p.rows, p.today)
  }

  lemma SameListing(p: Past, b2: Book, relisted: seq<nat>)
    requires Catalogued(p.book, p.listed) && b2.holdings.Keys == p.book.holdings.Keys
    requires forall hid: nat :: hid in relisted <==> hid in b2.holdings
    requires Filter(relisted, IsHeldIn(p.book)) == Filter(p.listed, IsHeldIn(b2))
    ensures relisted == p.listed
  {
    FilterAll(relisted, IsHeldIn(p.book));
    FilterAll(p.listed, IsHeldIn(b2));
  }

  /** A write that places every listed holding where it was needs no heal. */
  lemma PlacesKeepHistory(b: Book, b2: Book, listed: seq<nat>, rows: map<int, Row>, today: int)
    requires SameIdentity(b, b2, listed) && forall day :: SamePlaces(b, b2, listed, day)
    requires Healthy(b, listed, rows, today)
    ensures Healthy(b2, listed, rows, today)
  {
    hide HealedRow, SamePlaces;
    forall d | d in rows && d < today {
      RowUnmoved(b, b2, listed, rows[d], d);
    }
  }

  /** Dividends in batches and refused deletes: they move no place, and have no heal. */
  predicate KeepsPlaces(b: Book, op: Op)
    requires Closed(b)
  {
    op.ImportDividendsOp? || op.DeleteDividendsOp? || (op.DeleteOp? && DeleteSpec(b, op.id).1.Oversell?)
  }

  lemma DividendBatchKeepsPlaces(b: Book, op: Op, listed: seq<nat>)
    requires Closed(b) && Listed(b, listed) && (op.ImportDividendsOp? || op.DeleteDividendsOp?) && Enabled(b, op)
    ensures Apply(b, op).holdings.Keys == b.holdings.Keys
    ensures SameIdentity(b, Apply(b, op), listed) && forall day :: SamePlaces(b, Apply(b, op), listed, day)
  {
    hide PositionsProjected, LedgerOf, Replay, SamePlaces, Filter;
    var b2 := Apply(b, op);
    assert Filter(b2.txns, Erasure.Active) == Filter(b.txns, Erasure.Active) by {
      match op
      case ImportDividendsOp(currency, sheet, byName, today, id, now) =>
        ImportedDividends(b, currency, sheet, byName, today, id, now);
      case DeleteDividendsOp(currency) => DividendImport.RemovedDividends(b.txns, currency);
    }
    forall day {
      DividendWritesKeepPlaces(b, b2, listed, day);
    }
  }

  lemma RefusedDeleteKeepsPlaces(b: Book, id: nat, listed: seq<nat>)
    requires Projected(b) && Listed(b, listed) && Enabled(b, DeleteOp(id)) && DeleteSpec(b, id).1.Oversell?
    ensures DeleteSpec(b, id).0.holdings == b.holdings && forall day :: SamePlaces(b, DeleteSpec(b, id).0, listed, day)
  {
    hide PositionsProjected, TiedLater, SamePlaces, Replay, LedgerOf;
    forall day {
      RejectedDeleteKeepsPlaces(b, id, listed, day);
    }
    RejectedDeleteKeepsPlaces(b, id, listed, 0);
  }

  lemma PlaceKeepingWrite(p: Past, op: Op, relisted: seq<nat>)
    requires Projected(p.book) && Catalogued(p.book, p.listed) && Writable(p, op, relisted) && KeepsPlaces(p.book, op)
    ensures relisted == p.listed && HealedFor(p.book, op) == []
    ensures var b2 := Apply(p.book, op);
            SameIdentity(p.book, b2, p.listed) && forall day :: SamePlaces(p.book, b2, p.listed, day)
  {
    hide PositionsProjected, SamePlaces, DeleteSpec;
    if op.DeleteOp? {
      RefusedDeleteKeepsPlaces(p.book, op.id, p.listed);
    } else {
      DividendBatchKeepsPlaces(p.book, op, p.listed);
    }
    SameListing(p, Apply(p.book, op), relisted);
  }

  lemma TransactionWriteKeepsHistory(p: Past, op: Op)
    requires Healthily(p) && (op.CreateOp? || op.UpdateOp? || op.DeleteOp?) && Writable(p, op, p.listed)
    requires Harmless(p, op, p.listed)
    ensures var b2 := Apply(p.book, op);
            Healthy(b2, p.listed, RowsAfter(b2, p.listed, p.rows, HealedFor(p.book, op), p.today), p.today)
  {
    hide Healthy, RowsAfter, HealReaches, EditUnseen, OpensShares, PositionsProjected, TiedLater;
    hide Filter, BuiltLines, NewSymbols;
    match op
    case CreateOp(hid, input, today, id, now) =>
      if CreateSpec(p.book, hid, input, today, id, now).1.Done? {
        AcceptedCreateKeepsHistoryHealthy(p.book, hid, input, today, id, now, p.listed, p.rows, p.today);
      } else {
        NothingHealed(p.book, p.listed, p.rows, p.today);
      }
    case UpdateOp(id, input, today) =>
      if UpdateSpec(p.book, id, input, today).1.Done? {
        AcceptedUpdateKeepsHistoryHealthy(p.book, id, input, today, p.listed, p.rows, p.today);
      } else {
        NothingHealed(p.book, p.listed, p.rows, p.today);
      }
    case DeleteOp(id) =>
      var b2 := DeleteSpec(p.book, id).0;
      if DeleteSpec(p.book, id).1.Done? {
        AcceptedDeleteKeepsHistoryHealthy(p.book, id, p.listed, p.rows, p.today);
      } else {
        NothingHealed(b2, p.listed, p.rows, p.today);
        if DeleteSpec(p.book, id).1.Oversell? {
          PlaceKeepingWrite(p, op, p.listed);
          PlacesKeepHistory(p.book, b2, p.listed, p.rows, p.today);
        }
      }
  }

  lemma NothingHealed(b: Book, listed: seq<nat>, rows: map<int, Row>, today: int)
    requires Listed(b, listed)
    ensures RowsAfter(b, listed, rows, [], today) == rows
  {
  }

  lemma ImportedDividends(b: Book, currency: string, sheet: seq<DividendImport.SheetRow>, byName: map<string, nat>,
      today: int, id: nat, now: int)
    requires byName.Values <= b.holdings.Keys
    ensures var b2 := DividendImport.ImportSpec(b, currency, sheet, byName, today, id, now).0;
            Filter(b2.txns, Erasure.Active) == Filter(b.txns, Erasure.Active)
  {
    var rows := DividendImport.Plan(b, sheet, byName, today);
    var events := DividendImport.Events(rows, id, b.holdings, now);
    DividendImport.AppendedDividends(b.txns, events, 0);
  }

  lemma OneJoins(p: Past, b2: Book, relisted: seq<nat>, hid: nat)
    requires Catalogued(p.book, p.listed) && hid !in p.book.holdings && b2.holdings.Keys == p.book.holdings.Keys + {hid}
    requires forall h: nat :: h in relisted <==> h in b2.holdings
    requires Filter(relisted, IsHeldIn(p.book)) == Filter(p.listed, IsHeldIn(b2))
    ensures hid in relisted && Filter(relisted, Except(hid)) == p.listed
  {
    FilterCongruence(relisted, IsHeldIn(p.book), Except(hid));
    FilterAll(p.listed, IsHeldIn(b2));
  }

  lemma OneLeaves(p: Past, b2: Book, relisted: seq<nat>, hid: nat)
    requires Catalogued(p.book, p.listed) && b2.holdings.Keys == p.book.holdings.Keys - {hid}
    requires forall h: nat :: h in relisted <==> h in b2.holdings
    requires Filter(relisted, IsHeldIn(p.book)) == Filter(p.listed, IsHeldIn(b2))
    ensures relisted == Filter(p.listed, Except(hid))
  {
    FilterAll(relisted, IsHeldIn(p.book));
    FilterCongruence(p.listed, IsHeldIn(b2), Except(hid));
  }

  lemma EditWriteKeepsHistory(p: Past, hid: nat, edit: EditInput, relisted: seq<nat>)
    requires Healthily(p) && Writable(p, EditOp(hid, edit), relisted) && Harmless(p, EditOp(hid, edit), relisted)
    ensures Healthy(EditSpec(p.book, hid, edit), relisted, p.rows, p.today)
  {
    hide Healthy, PositionsProjected, NoLinesEitherWay;
    if hid in p.book.holdings {
      assert hid in p.listed && hid in relisted;
      EditKeepsHistoryIff(p.book, hid, edit, p.listed, relisted, p.rows, p.today);
    }
  }

  lemma OpenWriteKeepsHistory(p: Past, hid: nat, input: HoldingInput, id: nat, now: int, relisted: seq<nat>)
    requires Healthily(p) && Writable(p, OpenOp(hid, input, id, now), relisted)
    requires Harmless(p, OpenOp(hid, input, id, now), relisted)
    ensures Healthy(Apply(p.book, OpenOp(hid, input, id, now)), relisted, p.rows, p.today)
  {
    hide Healthy, PositionsProjected, Unseen, NoLinesBefore, OpensWithShares, NewHolding, CurrencyOf;
    hide Replay, LedgerOf, HealedRow, RowsAfter;
    var b, b2 := p.book, Apply(p.book, OpenOp(hid, input, id, now));
    OneJoins(p, b2, relisted, hid);
    OpenKeepsHistoryIff(b, hid, input, id, now, p.listed, relisted, p.rows, p.today);
    OpenedIsTracked(b, hid, input, id, now);
    assert hid in relisted && Tracked(b2, hid) && SymbolOf(b2, hid) == NewHolding(input).symbol;
  }

  lemma DateWriteKeepsHistory(p: Past, hid: nat, date: int, relisted: seq<nat>)
    requires Healthily(p) && Writable(p, OpeningDateOp(hid, date), relisted) && Harmless(p, OpeningDateOp(hid, date), relisted)
    ensures Healthy(Apply(p.book, OpeningDateOp(hid, date)), relisted, p.rows, p.today)
  {
    hide Healthy, PositionsProjected, Unseen, RedateUnseen;
    hide Replay, LedgerOf, HealedRow, RowsAfter;
    var b := p.book;
    SameListing(p, Apply(b, OpeningDateOp(hid, date)), relisted);
    if OpeningOf(b.txns, hid).Some? {
      OpeningFromEnd(b.txns, hid);
      RedateKeepsHistory(b, OpeningOf(b.txns, hid).value, date, p.listed, p.rows, p.today);
    }
  }

  lemma DropWriteKeepsHistory(p: Past, hid: nat, relisted: seq<nat>)
    requires Healthily(p) && Writable(p, DropOp(hid), relisted) && Harmless(p, DropOp(hid), relisted)
    ensures Healthy(Apply(p.book, DropOp(hid)), relisted, p.rows, p.today)
  {
    hide Healthy, PositionsProjected, Unseen;
    hide Replay, LedgerOf, HealedRow, RowsAfter;
    var b, b2 := p.book, Apply(p.book, DropOp(hid));
    OneLeaves(p, b2, relisted, hid);
    if hid in b.holdings {
      DropKeepsHistoryIff(b, hid, p.listed, p.rows, p.today);
    } else {
      FilterAll(p.listed, Except(hid));
      DroppedPlaces(b, hid, p.listed);
      PlacesKeepHistory(b, b2, p.listed, p.rows, p.today);
    }
  }

  lemma HoldingWriteKeepsHistory(p: Past, op: Op, relisted: seq<nat>)
    requires Healthily(p) && (op.OpenOp? || op.OpeningDateOp? || op.EditOp? || op.DropOp?) && Writable(p, op, relisted)
    requires Harmless(p, op, relisted)
    ensures Healthy(Apply(p.book, op), relisted, p.rows, p.today)
  {
    hide Healthily, Harmless, Healthy, EditSpec, OpenSpec, DropSpec, SetOpeningDateSpec, Replay, LedgerOf;
    match op
    case OpenOp(hid, input, id, now) => OpenWriteKeepsHistory(p, hid, input, id, now, relisted);
    case OpeningDateOp(hid, date) => DateWriteKeepsHistory(p, hid, date, relisted);
    case EditOp(hid, edit) => EditWriteKeepsHistory(p, hid, edit, relisted);
    case DropOp(hid) => DropWriteKeepsHistory(p, hid, relisted);
  }

  // ----- trade imports -----

  lemma TradesAreReached(events: seq<Txn>, today: int)
    requires forall t :: t in events ==> t.kind.Buy? || t.kind.Sell?
    ensures forall t :: t in events ==> HealReaches(t, today)
  {
  }

  /** A holding whose events all come later is flat: it has no line on a row, unless it is tracked and its symbol stored. */
  lemma LaterHoldingHasNoLine(b: Book, hid: nat, prior: seq<Line>, day: int)
    requires hid in b.holdings && (Tracked(b, hid) ==> PriorFor(prior, SymbolOf(b, hid)).None?)
    requires forall t :: t in b.txns && t.holding == hid ==> !InEffect(t, EndOf(day))
    ensures LineAt(b, hid, prior, day).None?
  {
    FilterMembers(b.txns, OfHolding(hid));
    FilterNone(LedgerOf(b.txns, hid), InEffectAt(EndOf(day)));
    NoPosition(hid, day);
    OneLedger(hid, []);
  }

  /** Trades added in one batch, with new holdings: the heal from the earliest of them reaches every row they show on. */
  lemma BatchKeepsHistory(b: Book, b2: Book, listed: seq<nat>, relisted: seq<nat>, rows: map<int, Row>,
      events: seq<Txn>, today: int)
    requires Closed(b) && Listed(b, listed) && Listed(b2, relisted) && SameIdentity(b, b2, listed)
    requires b2.txns == b.txns + events && (forall t :: t in events ==> t.kind.Buy? || t.kind.Sell?)
    requires Filter(relisted, IsHeldIn(b)) == listed && NewSymbols(b, rows, b2, relisted, today)
    requires Healthy(b, listed, rows, today)
    ensures Healthy(b2, relisted, RowsAfter(b2, relisted, rows, events, today), today)
  {
    hide HealedRow, LedgerOf, SameSight, HealFrom, HealReaches;
    var from := HealFrom(events);
    var healed := RowsAfter(b2, relisted, rows, events, today);
    HealFromIsEarliest(events);
    TradesAreReached(events, today);
    forall d | d in healed && d < today
      ensures HealedRow(b2, relisted, healed[d], d) == healed[d]
    {
      if from.Some? && from.value <= d {
        HealIsIdempotent(b2, relisted, rows[d], d);
      } else {
        UnhealedBatchRow(b, b2, listed, relisted, rows, events, d, today);
      }
    }
  }

  lemma UnhealedBatchRow(b: Book, b2: Book, listed: seq<nat>, relisted: seq<nat>, rows: map<int, Row>,
      events: seq<Txn>, d: int, today: int)
    requires Closed(b) && Listed(b, listed) && Listed(b2, relisted) && SameIdentity(b, b2, listed)
    requires b2.txns == b.txns + events && Filter(relisted, IsHeldIn(b)) == listed
    requires NewSymbols(b, rows, b2, relisted, today) && d in rows && d < today
    requires forall t :: t in events ==> HealReaches(t, today) && (t.kind.Buy? || t.kind.Sell?) && t.Day() > d
    requires HealedRow(b, listed, rows[d], d) == rows[d]
    ensures HealedRow(b2, relisted, rows[d], d) == rows[d]
  {
    hide HealedRow, LedgerOf, SameSight, HealReaches, LineAt, SymbolsDistinct;
    assert b.txns + [] + [] == b.txns && b.txns + events + [] == b2.txns && [] + events == events;
    forall hid | hid in listed
      ensures SameSight(LedgerOf(b.txns, hid), LedgerOf(b2.txns, hid), EndOf(d))
    {
      EditedLedgersLookAlike(b.txns, [], events, [], hid, d, today);
    }
    SameSightSamePlaces(b, b2, listed, d);
    RowExtended(b, b2, listed, relisted, IsHeldIn(b), rows[d], d);
    if rows[d].lines.Some? {
      forall hid | hid in relisted && !IsHeldIn(b)(hid)
        ensures LineAt(b2, hid, rows[d].lines.value, d).None?
      {
        forall t | t in b2.txns && t.holding == hid
          ensures !InEffect(t, EndOf(d))
        {
          assert t in b.txns || t in events;
          LaterTrade(t, d);
        }
        LaterHoldingHasNoLine(b2, hid, rows[d].lines.value, d);
      }
    }
  }

  lemma LaterTrade(t: Txn, d: int)
    requires (t.kind.Buy? || t.kind.Sell?) && t.Day() > d
    ensures !InEffect(t, EndOf(d))
  {
  }

  lemma ImportedTrades(b: Book, sheet: seq<TradeImport.SheetRow>, bySymbol: map<string, nat>, created: map<nat, Holding>,
      today: int, id: nat, now: int)
    requires bySymbol.Values <= b.holdings.Keys + created.Keys && created.Keys !! b.holdings.Keys
    requires TradeImport.ImportSpec(b, sheet, bySymbol, created, today, id, now).1.Imported?
    ensures var b2 := TradeImport.ImportSpec(b, sheet, bySymbol, created, today, id, now).0;
            && b2.holdings.Keys == b.holdings.Keys + created.Keys
            && |b.txns| <= |b2.txns| && b2.txns == b.txns + b2.txns[|b.txns|..]
            && (forall t :: t in b2.txns[|b.txns|..] ==> t.kind.Buy? || t.kind.Sell?)
            && forall hid :: hid in b.holdings ==> b2.holdings[hid].(position := b.holdings[hid].position) == b.holdings[hid]
  {
    hide Replay, LedgerOf, TradeImport.Plan, TradeImport.PlanInvalid, TradeImport.CommitFails;
    TradeImport.PlanIsImportable(b, sheet, bySymbol, today);
    var rows := TradeImport.Plan(b, sheet, bySymbol, today);
    var events := TradeImport.Events(rows, id, b.holdings + created, now);
    TradeImport.EventsBelong(rows, id, b.holdings + created, now, Map(rows, TradeImport.HolderOf)) by {
      forall i | 0 <= i < |rows|
        ensures rows[i].holding in Map(rows, TradeImport.HolderOf)
      {
        assert Map(rows, TradeImport.HolderOf)[i] == rows[i].holding;
      }
    }
    assert (b.txns + events)[|b.txns|..] == events;
  }

  lemma TradeImportKeepsHistory(p: Past, op: Op, relisted: seq<nat>)
    requires Healthily(p) && op.ImportTradesOp? && Writable(p, op, relisted) && Harmless(p, op, relisted)
    ensures var b2 := Apply(p.book, op);
            Healthy(b2, relisted, RowsAfter(b2, relisted, p.rows, HealedFor(p.book, op), p.today), p.today)
  {
    hide Healthy, RowsAfter, PositionsProjected, NewSymbols;
    hide TradeImport.PlanInvalid, TradeImport.CommitFails, TradeImport.Plan, TradeImport.Events;
    hide Reprojected, Filter, SymbolsDistinct;
    var b, b2 := p.book, Apply(p.book, op);
    match op
    case ImportTradesOp(sheet, bySymbol, created, today, id, now) =>
      if TradeImport.ImportSpec(b, sheet, bySymbol, created, today, id, now).1.Imported? {
        ImportedTrades(b, sheet, bySymbol, created, today, id, now);
        FilterAll(p.listed, IsHeldIn(b2));
        BatchKeepsHistory(b, b2, p.listed, relisted, p.rows, b2.txns[|b.txns|..], p.today);
      } else {
        SameListing(p, b2, relisted);
        NothingHealed(b, p.listed, p.rows, p.today);
      }
  }

  lemma HarmlessWriteKeepsHistory(p: Past, op: Op, relisted: seq<nat>)
    requires Healthily(p) && Writable(p, op, relisted) && Harmless(p, op, relisted)
    ensures var b2 := Apply(p.book, op);
            Healthy(b2, relisted, RowsAfter(b2, relisted, p.rows, HealedFor(p.book, op), p.today), p.today)
  {
    hide Healthy, RowsAfter, PositionsProjected, NewSymbols, CreateSpec, UpdateSpec, DeleteSpec, TradeImport.ImportSpec;
    var b2 := Apply(p.book, op);
    match op
    case CreateOp(_, _, _, _, _) => ListedTransactionWrite(p, op, relisted);
    case UpdateOp(_, _, _) => ListedTransactionWrite(p, op, relisted);
    case DeleteOp(_) => ListedTransactionWrite(p, op, relisted);
    case ImportTradesOp(_, _, _, _, _, _) => TradeImportKeepsHistory(p, op, relisted);
    case ImportDividendsOp(_, _, _, _, _, _) =>
      PlaceKeepingWrite(p, op, relisted);
      PlacesKeepHistory(p.book, b2, p.listed, p.rows, p.today);
      NothingHealed(b2, relisted, p.rows, p.today);
    case DeleteDividendsOp(_) =>
      PlaceKeepingWrite(p, op, relisted);
      PlacesKeepHistory(p.book, b2, p.listed, p.rows, p.today);
      NothingHealed(b2, relisted, p.rows, p.today);
    case _ =>
      HoldingWriteKeepsHistory(p, op, relisted);
      NothingHealed(b2, relisted, p.rows, p.today);
  }

  lemma ListedTransactionWrite(p: Past, op: Op, relisted: seq<nat>)
    requires Healthily(p) && (op.CreateOp? || op.UpdateOp? || op.DeleteOp?) && Writable(p, op, relisted)
    requires Harmless(p, op, relisted)
    ensures var b2 := Apply(p.book, op);
            Healthy(b2, relisted, RowsAfter(b2, relisted, p.rows, HealedFor(p.book, op), p.today), p.today)
  {
    hide Healthy, RowsAfter, PositionsProjected, NewSymbols, CreateSpec, UpdateSpec, DeleteSpec;
    TransactionWriteKeepsHoldings(p.book, op);
    SameListing(p, Apply(p.book, op), relisted);
    TransactionWriteKeepsHistory(p, op);
  }

  lemma TransactionWriteKeepsHoldings(b: Book, op: Op)
    requires Projected(b) && (op.CreateOp? || op.UpdateOp? || op.DeleteOp?) && Enabled(b, op)
    ensures Apply(b, op).holdings.Keys == b.holdings.Keys
  {
    hide Replay, LedgerOf, TiedLater;
    match op
    case CreateOp(_, _, _, _, _) =>
    case UpdateOp(id, _, _) =>
      var i := IndexOf(b.txns, id);
      if i < |b.txns| {
        MembersHaveHoldings(b, i);
      }
    case DeleteOp(id) =>
      var i := IndexOf(b.txns, id);
      if i < |b.txns| {
        MembersHaveHoldings(b, i);
      }
  }
}
