/** Writes that heal no history: opening, dating and dropping holdings, dividends, rejected deletes (services/holdings.go). */
module HoldingHistory {
  import opened Sequences
  import opened Ledger
  import opened ReplayOrder
  import opened Erasure
  import opened EmptyOpenings
  import opened Conservation
  import opened AsOfReplay
  import opened Book
  import opened Snapshots
  import opened Heal
  import opened HistoryLaws
  import opened WritePath
  import opened HealReach

  /** No row of a day before today stores a line for the symbol. */
  predicate Unseen(rows: map<int, Row>, symbol: string, today: int) {
    forall d :: d in rows && d < today && rows[d].lines.Some? ==> PriorFor(rows[d].lines.value, symbol).None?
  }

  predicate NoLinesBefore(rows: map<int, Row>, today: int) {
    forall d :: d in rows && d < today ==> rows[d].lines.None?
  }

  // ----- a row when the listing changes -----

  lemma {:induction false} LinesKept(b: Book, listed: seq<nat>, keep: nat -> bool, prior: seq<Line>, day: int)
    requires Listed(b, listed)
    ensures Listed(b, Filter(listed, keep))
    ensures var (all, kept) := (LinesAsOf(b, listed, prior, day), LinesAsOf(b, Filter(listed, keep), prior, day));
            && |kept| <= |all|
            && ((forall hid :: hid in listed && !keep(hid) ==> LineAt(b, hid, prior, day).None?) ==> kept == all)
            && ((exists hid :: hid in listed && !keep(hid) && LineAt(b, hid, prior, day).Some?) ==> |kept| < |all|)
  {
    hide LineAt;
    if listed != [] {
      LinesKept(b, listed[1..], keep, prior, day);
      assert listed == [listed[0]] + listed[1..];
      var rest := Filter(listed[1..], keep);
      if keep(listed[0]) {
        assert Filter(listed, keep) == [listed[0]] + rest;
        assert ([listed[0]] + rest)[1..] == rest;
      }
    }
  }

  /** Holdings that join the listing leave a healthy row alone exactly when none of them has a line on its day. */
  lemma RowExtended(b: Book, b2: Book, listed: seq<nat>, relisted: seq<nat>, keep: nat -> bool, row: Row, day: int)
    requires SameIdentity(b, b2, listed) && SamePlaces(b, b2, listed, day)
    requires Listed(b2, relisted) && Filter(relisted, keep) == listed
    requires HealedRow(b, listed, row, day) == row
    ensures HealedRow(b2, relisted, row, day) == row <==>
              row.lines.Some? ==> forall hid :: hid in relisted && !keep(hid) ==> LineAt(b2, hid, row.lines.value, day).None?
  {
    hide LinesAsOf, SamePlaces, LineAt, Merged, BucketsOf;
    if row.lines.Some? {
      var prior := row.lines.value;
      LinesUnmoved(b, b2, listed, prior, day);
      LinesKept(b2, relisted, keep, prior, day);
      assert HealedRow(b, listed, row, day).lines == Some(LinesAsOf(b, listed, prior, day));
    }
  }

  function Except(hid: nat): nat -> bool {
    (h: nat) => h != hid
  }

  // ----- opening a holding -----

  predicate OpensWithShares(input: HoldingInput) {
    OrZero(input.stocksOwned) > 0.0
  }

  /** Whatever is typed, a new holding is in a tracked currency. */
  lemma OpenedIsTracked(b: Book, hid: nat, input: HoldingInput, id: nat, now: int)
    requires hid !in b.holdings
    ensures var b2 := OpenSpec(b, hid, input, id, now);
            hid in b2.holdings && Tracked(b2, hid) && SymbolOf(b2, hid) == NewHolding(input).symbol
  {
    var currency := NewHolding(input).currency;
    assert forall i :: 0 <= i < |currency| ==> Upper(currency)[i] == currency[i];
    assert Upper(currency) == currency;
  }

  lemma NewLedger(b: Book, hid: nat, input: HoldingInput, id: nat, now: int)
    requires Projected(b) && hid !in b.holdings
    ensures var b2, t := OpenSpec(b, hid, input, id, now), OpeningEvent(input, hid, id, now);
            && LedgerOf(b2.txns, hid) == (if t.Some? then [t.value] else [])
            && forall h :: h != hid ==> LedgerOf(b2.txns, h) == LedgerOf(b.txns, h)
  {
    hide LedgerOf, Replay;
    NoLedgerBefore(b, hid);
    var t := OpeningEvent(input, hid, id, now);
    if t.Some? {
      forall h
        ensures LedgerOf(b.txns + [t.value], h) == LedgerOf(b.txns, h) + (if h == hid then [t.value] else [])
      {
        LedgerConcat(b.txns, [t.value], h);
        LedgerOfOne(t.value, h);
      }
    }
  }

  /** Undeclared, an opening is in effect on every day: the holding owns its shares on all of them. */
  lemma NewPlace(b: Book, hid: nat, input: HoldingInput, id: nat, now: int, day: int)
    requires Projected(b) && hid !in b.holdings
    ensures AsOfPosition(OpenSpec(b, hid, input, id, now).txns, hid, day).stocksOwned != 0.0 <==> OpensWithShares(input)
  {
    hide Replay, LedgerOf;
    var t := OpeningEvent(input, hid, id, now);
    var ledger := if t.Some? then [t.value] else [];
    NewLedger(b, hid, input, id, now);
    OneLedger(hid, ledger);
    if OpensWithShares(input) {
      OpeningPosition(hid, t.value, day);
    } else {
      NoPosition(hid, day);
      OneLedger(hid, []);
      NothingCounts(ledger, EndOf(day));
      SameCountingSamePlace(AsOf(ledger, EndOf(day)), AsOf([], EndOf(day)));
    }
  }

  lemma NothingCounts(ts: seq<Txn>, cutoff: int)
    requires forall t :: t in ts ==> !Counts(t)
    ensures Filter(AsOf(ts, cutoff), Counts) == Filter(AsOf([], cutoff), Counts)
  {
    NothingInSight(ts, cutoff);
    NothingInSight([], cutoff);
  }

  /**
   * Opening a holding heals nothing. Exactly when past rows stay right all the same: no past row stores its symbol,
   * and it opens without shares unless no past row stores lines. (Whatever is typed, it is held in a tracked currency.)
   */
  lemma OpenKeepsHistoryIff(b: Book, hid: nat, input: HoldingInput, id: nat, now: int,
      listed: seq<nat>, relisted: seq<nat>, rows: map<int, Row>, today: int)
    requires Projected(b) && hid !in b.holdings && Listed(b, listed) && Healthy(b, listed, rows, today)
    requires hid in relisted && Filter(relisted, Except(hid)) == listed
    ensures var b2 := OpenSpec(b, hid, input, id, now);
            && Listed(b2, relisted)
            && (Healthy(b2, relisted, rows, today) <==>
                  Unseen(rows, NewHolding(input).symbol, today) && (OpensWithShares(input) ==> NoLinesBefore(rows, today)))
  {
    hide Replay, LedgerOf, HealedRow, LinesAsOf, AsOfPosition, OpensWithShares, NewHolding, CurrencyOf;
    var b2 := OpenSpec(b, hid, input, id, now);
    OpenedIsTracked(b, hid, input, id, now);
    NewLedger(b, hid, input, id, now);
    FilterMembers(relisted, Except(hid));
    SameLedgersSamePlaces(b, b2, listed);
    forall d | d in rows && d < today
      ensures HealedRow(b2, relisted, rows[d], d) == rows[d] <==>
                rows[d].lines.Some? ==> LineAt(b2, hid, rows[d].lines.value, d).None?
      ensures AsOfPosition(b2.txns, hid, d).stocksOwned != 0.0 <==> OpensWithShares(input)
    {
      RowExtended(b, b2, listed, relisted, Except(hid), rows[d], d);
      NewPlace(b, hid, input, id, now, d);
    }
  }

  lemma SameLedgersSamePlaces(b: Book, b2: Book, listed: seq<nat>)
    requires forall h :: h in listed ==> LedgerOf(b2.txns, h) == LedgerOf(b.txns, h)
    ensures forall day :: SamePlaces(b, b2, listed, day)
  {
  }

  // ----- dropping a holding -----

  lemma DroppedPlaces(b: Book, hid: nat, left: seq<nat>)
    requires Listed(b, left) && hid !in left
    ensures SameIdentity(b, DropSpec(b, hid), left) && forall day :: SamePlaces(b, DropSpec(b, hid), left, day)
  {
    hide LedgerOf, Replay;
    forall h | h in left {
      DropKeepsOthers(b.txns, hid, h);
    }
  }

  /** A healthy row has a line for a holding exactly when it is tracked and its symbol is stored. */
  lemma LineIffStored(b: Book, listed: seq<nat>, hid: nat, row: Row, day: int)
    requires Listed(b, listed) && hid in listed && row.lines.Some? && HealedRow(b, listed, row, day) == row
    ensures LineAt(b, hid, row.lines.value, day).Some? <==>
              Tracked(b, hid) && PriorFor(row.lines.value, SymbolOf(b, hid)).Some?
  {
    var prior := row.lines.value;
    LinesComeFromHoldings(b, listed, prior, day);
    PriorIsALine(prior, SymbolOf(b, hid));
    if LineAt(b, hid, prior, day).Some? {
      assert LineAt(b, hid, prior, day).value in prior;
    }
  }

  /** Dropping a holding heals nothing: past rows stay right exactly when it is untracked or none stores its symbol. */
  lemma DropKeepsHistoryIff(b: Book, hid: nat, listed: seq<nat>, rows: map<int, Row>, today: int)
    requires Listed(b, listed) && hid in listed && Healthy(b, listed, rows, today)
    ensures var b2, left := DropSpec(b, hid), Filter(listed, Except(hid));
            && Listed(b2, left)
            && (Healthy(b2, left, rows, today) <==> Tracked(b, hid) ==> Unseen(rows, SymbolOf(b, hid), today))
  {
    hide LinesAsOf, LineAt, Merged, BucketsOf, DropSpec, SamePlaces;
    var b2, left := DropSpec(b, hid), Filter(listed, Except(hid));
    FilterMembers(listed, Except(hid));
    DroppedPlaces(b, hid, left);
    forall d | d in rows && d < today
      ensures HealedRow(b2, left, rows[d], d) == rows[d] <==>
                rows[d].lines.Some? && Tracked(b, hid) ==> PriorFor(rows[d].lines.value, SymbolOf(b, hid)).None?
    {
      if rows[d].lines.Some? {
        var prior := rows[d].lines.value;
        LinesUnmoved(b, b2, left, prior, d);
        LinesKept(b, listed, Except(hid), prior, d);
        LineIffStored(b, listed, hid, rows[d], d);
        assert HealedRow(b, listed, rows[d], d).lines == Some(LinesAsOf(b, listed, prior, d));
      }
    }
  }

  // ----- editing a holding -----

  /** As a history line shows them, the holdings are the same. */
  predicate ShownAlike(h: Holding, h2: Holding) {
    h.symbol == h2.symbol && h.script == h2.script && CurrencyOf(h) == CurrencyOf(h2)
  }

  /** The row has no line for the holding, and would have none for it as edited. */
  predicate NoLineEitherWay(b: Book, hid: nat, edited: Holding, prior: seq<Line>, day: int)
    requires hid in b.holdings
  {
    && (Tracked(b, hid) ==> PriorFor(prior, SymbolOf(b, hid)).None?)
    && (CurrencyOf(edited).Some? ==>
          PriorFor(prior, edited.symbol).None? && AsOfPosition(b.txns, hid, day).stocksOwned == 0.0)
  }

  predicate NoLinesEitherWay(b: Book, hid: nat, edited: Holding, rows: map<int, Row>, today: int)
    requires hid in b.holdings
  {
    forall d :: d in rows && d < today && rows[d].lines.Some? ==> NoLineEitherWay(b, hid, edited, rows[d].lines.value, d)
  }

  lemma EditKeepsPlaces(b: Book, hid: nat, edit: EditInput)
    ensures forall h, day :: AsOfPosition(EditSpec(b, hid, edit).txns, h, day) == AsOfPosition(b.txns, h, day)
  {
    hide Replay, LedgerOf, EditSpec;
    forall h: nat, day
      ensures AsOfPosition(EditSpec(b, hid, edit).txns, h, day) == AsOfPosition(b.txns, h, day)
    {
      EditKeepsLedgers(b, hid, edit, h, EndOf(day));
    }
  }

  lemma EditedLine(b: Book, hid: nat, edit: EditInput, prior: seq<Line>, day: int)
    requires hid in b.holdings
    ensures var b2, line := EditSpec(b, hid, edit), LineAt(EditSpec(b, hid, edit), hid, prior, day);
            && b2.holdings == b.holdings[hid := Edited(b.holdings[hid], edit)]
            && line == HealedLine(b2.holdings[hid], AsOfPosition(b.txns, hid, day), PriorFor(prior, b2.holdings[hid].symbol))
  {
    hide AsOfPosition, HealedLine;
    EditKeepsPlaces(b, hid, edit);
  }

  /** Lines of differently shown holdings differ. */
  lemma ShownDifferently(h: Holding, h2: Holding, p: Position, prior: Option<Line>, prior2: Option<Line>)
    requires HealedLine(h, p, prior).Some? && HealedLine(h, p, prior) == HealedLine(h2, p, prior2)
    ensures ShownAlike(h, h2)
  {
  }

  lemma ShownTheSame(h: Holding, h2: Holding, p: Position, prior: Option<Line>)
    requires ShownAlike(h, h2)
    ensures HealedLine(h, p, prior) == HealedLine(h2, p, prior)
  {
  }

  /** An edited line of one row: gone or come, the row has fewer or more lines; changed, it has one that it did not have. */
  lemma EditedRowIff(b: Book, hid: nat, edit: EditInput, listed: seq<nat>, relisted: seq<nat>, prior: seq<Line>, day: int)
    requires Listed(b, listed) && SymbolsDistinct(b, listed) && hid in listed && hid in relisted
    requires Filter(relisted, Except(hid)) == Filter(listed, Except(hid))
    requires ShownAlike(b.holdings[hid], Edited(b.holdings[hid], edit)) ==> relisted == listed
    requires LinesAsOf(b, listed, prior, day) == prior
    ensures var b2 := EditSpec(b, hid, edit);
            && Listed(b2, relisted)
            && (LinesAsOf(b2, relisted, prior, day) == prior <==>
                  || ShownAlike(b.holdings[hid], Edited(b.holdings[hid], edit))
                  || (LineAt(b, hid, prior, day).None? && LineAt(b2, hid, prior, day).None?))
  {
    hide LineAt, HealedLine, AsOfPosition, LinesAsOf, ShownAlike;
    var b2, left := EditSpec(b, hid, edit), Filter(listed, Except(hid));
    FilterMembers(listed, Except(hid));
    FilterMembers(relisted, Except(hid));
    EditKeepsPlaces(b, hid, edit);
    EditedLine(b, hid, edit, prior, day);
    OthersUnedited(b, hid, edit, left, prior, day);
    LinesKept(b, listed, Except(hid), prior, day);
    LinesKept(b2, relisted, Except(hid), prior, day);
    if ShownAlike(b.holdings[hid], Edited(b.holdings[hid], edit)) {
      AlikeLinesStand(b, hid, edit, listed, prior, day);
    } else if LineAt(b, hid, prior, day).Some? && LineAt(b2, hid, prior, day).Some? {
      ChangedLineIsNew(b, hid, edit, listed, relisted, prior, day);
    }
  }

  lemma OthersUnedited(b: Book, hid: nat, edit: EditInput, left: seq<nat>, prior: seq<Line>, day: int)
    requires Listed(b, left) && hid !in left && hid in b.holdings
    ensures Listed(EditSpec(b, hid, edit), left)
    ensures LinesAsOf(EditSpec(b, hid, edit), left, prior, day) == LinesAsOf(b, left, prior, day)
  {
    hide AsOfPosition, LinesAsOf;
    EditKeepsPlaces(b, hid, edit);
    LinesUnmoved(b, EditSpec(b, hid, edit), left, prior, day);
  }

  lemma {:induction false} AlikeLinesStand(b: Book, hid: nat, edit: EditInput, listed: seq<nat>, prior: seq<Line>, day: int)
    requires Listed(b, listed) && hid in b.holdings && ShownAlike(b.holdings[hid], Edited(b.holdings[hid], edit))
    ensures Listed(EditSpec(b, hid, edit), listed)
    ensures LinesAsOf(EditSpec(b, hid, edit), listed, prior, day) == LinesAsOf(b, listed, prior, day)
  {
    hide AsOfPosition, HealedLine, CurrencyOf;
    if listed != [] {
      EditKeepsPlaces(b, hid, edit);
      ShownTheSame(b.holdings[hid], Edited(b.holdings[hid], edit), AsOfPosition(b.txns, hid, day),
                   PriorFor(prior, SymbolOf(b, hid)));
      AlikeLinesStand(b, hid, edit, listed[1..], prior, day);
    }
  }

  lemma ChangedLineIsNew(b: Book, hid: nat, edit: EditInput, listed: seq<nat>, relisted: seq<nat>, prior: seq<Line>, day: int)
    requires Listed(b, listed) && SymbolsDistinct(b, listed) && hid in listed && Listed(EditSpec(b, hid, edit), relisted)
    requires forall h :: h in relisted && h != hid ==> h in listed
    requires !ShownAlike(b.holdings[hid], Edited(b.holdings[hid], edit)) && LineAt(b, hid, prior, day).Some?
    ensures LinesAsOf(EditSpec(b, hid, edit), relisted, prior, day) != LinesAsOf(b, listed, prior, day)
  {
    hide AsOfPosition, ShownAlike, LinesAsOf;
    var b2, line := EditSpec(b, hid, edit), LineAt(b, hid, prior, day).value;
    EditedLine(b, hid, edit, prior, day);
    LinesComeFromHoldings(b, listed, prior, day);
    LinesComeFromHoldings(b2, relisted, prior, day);
    if line in LinesAsOf(b2, relisted, prior, day) {
      var from :| from in relisted && LineAt(b2, from, prior, day) == Some(line);
      assert line.symbol == SymbolOf(b2, from) && line.symbol == SymbolOf(b, hid);
      if from == hid {
        ShownDifferently(b.holdings[hid], b2.holdings[hid], AsOfPosition(b.txns, hid, day),
                         PriorFor(prior, SymbolOf(b, hid)), PriorFor(prior, SymbolOf(b2, hid)));
      }
    }
  }

  /**
   * Editing a holding heals nothing. Exactly when past rows stay right all the same: lines show the holding as they
   * did, or no past row has a line for it and none would have one for it as edited. (Holdings are listed by script.)
   */
  lemma EditKeepsHistoryIff(b: Book, hid: nat, edit: EditInput, listed: seq<nat>, relisted: seq<nat>,
      rows: map<int, Row>, today: int)
    requires Listed(b, listed) && SymbolsDistinct(b, listed) && hid in listed && Healthy(b, listed, rows, today)
    requires hid in relisted && Filter(relisted, Except(hid)) == Filter(listed, Except(hid))
    requires ShownAlike(b.holdings[hid], Edited(b.holdings[hid], edit)) ==> relisted == listed
    ensures var b2, edited := EditSpec(b, hid, edit), Edited(b.holdings[hid], edit);
            && Listed(b2, relisted)
            && (Healthy(b2, relisted, rows, today) <==>
                  ShownAlike(b.holdings[hid], edited) || NoLinesEitherWay(b, hid, edited, rows, today))
  {
    hide LinesAsOf, AsOfPosition, Merged, BucketsOf, ShownAlike, EditSpec;
    var b2, edited := EditSpec(b, hid, edit), Edited(b.holdings[hid], edit);
    assert Listed(b2, relisted) by {
      EditedLine(b, hid, edit, [], 0);
      FilterMembers(listed, Except(hid));
      FilterMembers(relisted, Except(hid));
      assert forall h :: h in relisted && h != hid ==> Except(hid)(h);
    }
    forall d | d in rows && d < today && rows[d].lines.Some?
      ensures HealedRow(b2, relisted, rows[d], d) == rows[d] <==>
                ShownAlike(b.holdings[hid], edited) || NoLineEitherWay(b, hid, edited, rows[d].lines.value, d)
    {
      var prior := rows[d].lines.value;
      assert HealedRow(b, listed, rows[d], d).lines == Some(LinesAsOf(b, listed, prior, d));
      EditedRowIff(b, hid, edit, listed, relisted, prior, d);
      LineIffStored(b, listed, hid, rows[d], d);
      EditedLine(b, hid, edit, prior, d);
    }
  }

  // ----- dating an opening -----

  /** The opening counts on the same past days before and after it is dated. */
  predicate RedateUnseen(t: Txn, date: int, today: int) {
    t.quantity > 0.0 ==>
      t.openingDate.Some? &&
      var was, now := DayOf(t.openingDate.value), DayOf(date);
      was == now || (was >= today && now >= today)
  }

  lemma PlaceInSight(ts: seq<Txn>, cutoff: int)
    ensures SamePlace(Replay(AsOf(ts, cutoff)).position, Replay(Filter(ts, Both(InEffectAt(cutoff), Counts))).position)
  {
    hide Replay;
    OnlyCountingEventsPlace(AsOf(ts, cutoff));
    FilterTwice(ts, InEffectAt(cutoff), Counts);
  }

  lemma RedatedInSight(t: Txn, u: Txn, date: int, day: int, today: int)
    requires day < today && RedateUnseen(t, date, today) && (u == t || u.id != t.id)
    ensures var keep := Both(InEffectAt(EndOf(day)), Counts); keep(RedateTo(t.id, date)(u)) == keep(u)
  {
    var moved := RedateTo(t.id, date)(u);
    assert Counts(moved) == Counts(u);
    if u == t && t.kind.Opening? && Counts(t) {
      DeclaredByDay(t, day);
      DeclaredByDay(moved, day);
    }
  }

  lemma RedatedPlace(txns: seq<Txn>, t: Txn, date: int, hid: nat, day: int, today: int)
    requires IdsDistinct(txns) && t in txns && day < today && RedateUnseen(t, date, today)
    ensures SamePlace(AsOfPosition(txns, hid, day), AsOfPosition(Map(txns, RedateTo(t.id, date)), hid, day))
  {
    hide Replay, RedateUnseen;
    var f, ledger, keep := RedateTo(t.id, date), LedgerOf(txns, hid), Both(InEffectAt(EndOf(day)), Counts);
    LedgerOfMapped(txns, f, hid);
    FilterMembers(txns, OfHolding(hid));
    forall u | u in ledger
      ensures keep(f(u)) == keep(u)
    {
      RedatedInSight(t, u, date, day, today);
    }
    FilterMapped(ledger, f, keep);
    OpeningDatesAreIrrelevant(Filter(ledger, keep), f);
    PlaceInSight(ledger, EndOf(day));
    PlaceInSight(Map(ledger, f), EndOf(day));
  }

  lemma RedateKeepsHistory(b: Book, t: Txn, date: int, listed: seq<nat>, rows: map<int, Row>, today: int)
    requires Projected(b) && Listed(b, listed) && Healthy(b, listed, rows, today)
    requires OpeningOf(b.txns, t.holding) == Some(t) && RedateUnseen(t, date, today)
    ensures Healthy(SetOpeningDateSpec(b, t.holding, date), listed, rows, today)
  {
    hide AsOfPosition, HealedRow, RedateUnseen;
    var b2 := SetOpeningDateSpec(b, t.holding, date);
    OpeningFromEnd(b.txns, t.holding);
    forall d | d in rows && d < today
      ensures HealedRow(b2, listed, rows[d], d) == rows[d]
    {
      forall hid | hid in listed {
        RedatedPlace(b.txns, t, date, hid, d, today);
      }
      RowUnmoved(b, b2, listed, rows[d], d);
    }
  }

  /** An opening is dated in a book with a healthy history. */
  ghost predicate RedatesHealthy(b: Book, listed: seq<nat>, rows: map<int, Row>, t: Txn, today: int) {
    Projected(b) && Listed(b, listed) && Healthy(b, listed, rows, today) && OpeningOf(b.txns, t.holding) == Some(t)
  }

  ghost predicate RedateAlwaysKeeps(t: Txn, date: int, today: int) {
    forall b, listed, rows | RedatesHealthy(b, listed, rows, t, today) ::
      Healthy(SetOpeningDateSpec(b, t.holding, date), listed, rows, today)
  }

  /** A past day on which the opening counts before or after it is dated, but not both. */
  lemma ChangedDay(t: Txn, date: int, today: int) returns (d: int)
    requires t.kind.Opening? && !RedateUnseen(t, date, today)
    ensures t.quantity > 0.0 && d < today
    ensures InEffect(t, EndOf(d)) != InEffect(RedateTo(t.id, date)(t), EndOf(d))
  {
    var moved := RedateTo(t.id, date)(t);
    var now := DayOf(date);
    if t.openingDate.None? {
      d := (if now < today then now else today) - 1;
    } else {
      var was := DayOf(t.openingDate.value);
      d := if was < now then was else now;
      DeclaredByDay(t, d);
    }
    DeclaredByDay(moved, d);
  }

  /** Where a holding with one opening stands: at its shares when it counts, flat when it does not. */
  lemma LonePlace(t: Txn, day: int)
    requires t.kind.Opening? && t.quantity > 0.0
    ensures AsOfPosition([t], t.holding, day).stocksOwned == if InEffect(t, EndOf(day)) then t.quantity else 0.0
  {
    if InEffect(t, EndOf(day)) {
      OpeningPosition(t.holding, t, day);
    } else {
      OneLedger(t.holding, [t]);
      OneLedger(t.holding, []);
      NoPosition(t.holding, day);
      assert AsOf([t], EndOf(day)) == AsOf([], EndOf(day));
    }
  }

  lemma RedatedRowIsStale(t: Txn, date: int, today: int) returns (b: Book, rows: map<int, Row>)
    requires t.kind.Opening? && !RedateUnseen(t, date, today)
    ensures RedatesHealthy(b, [t.holding], rows, t, today)
    ensures !Healthy(SetOpeningDateSpec(b, t.holding, date), [t.holding], rows, today)
  {
    hide Replay, HealedRow, LedgerOf, AsOfPosition, InEffect, RedateUnseen;
    var hid, moved := t.holding, RedateTo(t.id, date)(t);
    var d := ChangedDay(t, date, today);
    b := OneBook(hid, [t]);
    OneOpeningIsAccepted(t);
    OneBookIsProjected(hid, [t]);
    LoneHolding(b, hid);
    var blank := Row(map[], Some([]));
    var row := HealedRow(b, [hid], blank, d);
    HealIsIdempotent(b, [hid], blank, d);
    rows := map[d := row];
    assert [t][..0] == [] && OpeningOf([t], hid) == Some(t);
    var b2 := SetOpeningDateSpec(b, hid, date);
    assert b2.txns == [moved];
    LonePlace(t, d);
    LonePlace(moved, d);
    OneHoldingLine(b, hid, blank, d);
    OneHoldingLine(b2, hid, row, d);
    assert d in rows && rows[d] == row && b2.holdings == b.holdings;
    assert HealedRow(b2, [hid], rows[d], d) != rows[d];
  }

  /**
   * Dating an opening heals nothing. Exactly when that is always right: it holds no shares, or it was
   * declared already, and for the same day or never before today. Dating one for the first time never is.
   */
  lemma RedateKeepsHistoryIff(t: Txn, date: int, today: int)
    requires t.kind.Opening?
    ensures RedateAlwaysKeeps(t, date, today) <==> RedateUnseen(t, date, today)
  {
    hide RedateUnseen, Healthy, PositionsProjected;
    if RedateUnseen(t, date, today) {
      forall b, listed, rows | RedatesHealthy(b, listed, rows, t, today)
        ensures Healthy(SetOpeningDateSpec(b, t.holding, date), listed, rows, today)
      {
        RedateKeepsHistory(b, t, date, listed, rows, today);
      }
    } else {
      var b, rows := RedatedRowIsStale(t, date, today);
      assert RedatesHealthy(b, [t.holding], rows, t, today);
    }
  }

  // ----- dividends and rejected deletes -----

  lemma {:induction false} SightOfActive(xs: seq<Txn>, ys: seq<Txn>, hid: nat, cutoff: int)
    requires Filter(xs, Active) == Filter(ys, Active)
    ensures SameSight(LedgerOf(xs, hid), LedgerOf(ys, hid), cutoff)
  {
    SightFromActive(xs, hid, cutoff);
    SightFromActive(ys, hid, cutoff);
  }

  lemma SightFromActive(xs: seq<Txn>, hid: nat, cutoff: int)
    ensures Sight(LedgerOf(xs, hid), cutoff) == Sight(LedgerOf(Filter(xs, Active), hid), cutoff)
  {
    var own, seen := OfHolding(hid), InEffectAt(cutoff);
    FilterTwice(LedgerOf(xs, hid), seen, Counts);
    FilterTwice(xs, own, Both(seen, Counts));
    FilterTwice(LedgerOf(Filter(xs, Active), hid), seen, Counts);
    FilterTwice(Filter(xs, Active), own, Both(seen, Counts));
    FilterTwice(xs, Active, Both(own, Both(seen, Counts)));
    FilterCongruence(xs, Both(own, Both(seen, Counts)), Both(Active, Both(own, Both(seen, Counts))));
  }

  /** Writing dividends places every holding on every day where it was. */
  lemma DividendWritesKeepPlaces(b: Book, b2: Book, listed: seq<nat>, day: int)
    requires Filter(b2.txns, Active) == Filter(b.txns, Active)
    ensures SamePlaces(b, b2, listed, day)
  {
    forall hid | hid in listed {
      SightOfActive(b.txns, b2.txns, hid, EndOf(day));
    }
    SameSightSamePlaces(b, b2, listed, day);
  }

  lemma SameOrderAsOf(xs: seq<Txn>, ys: seq<Txn>, cutoff: int)
    requires Sort(Filter(xs, Active)) == Sort(Filter(ys, Active))
    ensures SamePlace(Replay(AsOf(xs, cutoff)).position, Replay(AsOf(ys, cutoff)).position)
  {
    hide Sort;
    ActiveAsOf(xs, cutoff);
    ActiveAsOf(ys, cutoff);
    DividendsAndMergersAreErasable(AsOf(xs, cutoff));
    DividendsAndMergersAreErasable(AsOf(ys, cutoff));
  }

  lemma ActiveAsOf(xs: seq<Txn>, cutoff: int)
    ensures Sort(Filter(AsOf(xs, cutoff), Active)) == Filter(Sort(Filter(xs, Active)), InEffectAt(cutoff))
  {
    FilterTwice(xs, InEffectAt(cutoff), Active);
    FilterTwice(xs, Active, InEffectAt(cutoff));
    FilterCongruence(xs, Both(InEffectAt(cutoff), Active), Both(Active, InEffectAt(cutoff)));
    SortFiltered(Filter(xs, Active), InEffectAt(cutoff));
  }

  /** A rejected delete without a later tie places every holding on every day where it was. */
  lemma RejectedDeleteKeepsPlaces(b: Book, id: nat, listed: seq<nat>, day: int)
    requires Projected(b) && DeleteSpec(b, id).1.Oversell? && !TiedLater(b.txns, IndexOf(b.txns, id))
    ensures SamePlaces(b, DeleteSpec(b, id).0, listed, day) && DeleteSpec(b, id).0.holdings == b.holdings
  {
    hide Replay, LedgerOf, Sort;
    var i := IndexOf(b.txns, id);
    MembersHaveHoldings(b, i);
    RejectedDeleteIsActive(b, i);
    ReinsertKeepsProjection(b, i);
    ReinsertKeepsTheOrderIff(b.txns, i);
    forall hid | hid in listed
      ensures SamePlace(AsOfPosition(b.txns, hid, day), AsOfPosition(Moved(b.txns, i), hid, day))
    {
      if hid != b.txns[i].holding {
        MovedElsewhere(b.txns, i, hid);
      } else {
        SameOrderAsOf(LedgerOf(b.txns, hid), LedgerOf(Moved(b.txns, i), hid), EndOf(day));
      }
    }
  }
}
