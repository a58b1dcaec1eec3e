/** How far a ledger write reaches into history, and whether the heal reaches as far (healAfter of transactions.go). */
module HealReach {
  import opened Sequences
  import opened Ledger
  import opened ReplayOrder
  import ReplayState
  import opened EmptyOpenings
  import opened AsOfReplay
  import opened Book
  import opened Snapshots
  import opened Heal
  import opened HistoryLaws
  import opened WritePath
  import RowMachine

  /** The earliest day of the events that are not dividends. */
  function HealFrom(events: seq<Txn>): Option<int> {
    if events == [] then None
    else
      var rest := HealFrom(events[1..]);
      var d := events[0].Day();
      if events[0].kind.Dividend? then rest
      else if rest.Some? && rest.value <= d then rest else Some(d)
  }

  function RowsHealed(b: Book, listed: seq<nat>, rows: map<int, Row>, from: int, today: int): map<int, Row>
    requires forall hid :: hid in listed ==> hid in b.holdings
  {
    map d | d in rows :: if from <= d <= today then HealedRow(b, listed, rows[d], d) else rows[d]
  }

  /** healAfter and healSnapshots: nothing for dividends alone, nothing from today on. */
  function RowsAfter(b: Book, listed: seq<nat>, rows: map<int, Row>, events: seq<Txn>, today: int): map<int, Row>
    requires forall hid :: hid in listed ==> hid in b.holdings
  {
    match HealFrom(events)
    case None => rows
    case Some(d) => if d < today then RowsHealed(b, listed, rows, d, today) else rows
  }

  method HealAfter(b: Book, listed: seq<nat>, snapshots: SnapshotStore, events: seq<Txn>, today: int)
    requires forall hid :: hid in listed ==> hid in b.holdings
    modifies snapshots
    ensures snapshots.rows == RowsAfter(b, listed, old(snapshots.rows), events, today)
  {
    var earliest: Option<int> := None;
    var i := |events|;
    while i > 0
      invariant 0 <= i <= |events|
      invariant earliest == HealFrom(events[i..])
    {
      i := i - 1;
      var event := events[i];
      assert events[i..][1..] == events[i + 1..];
      if event.kind != Dividend && (earliest.None? || event.Day() < earliest.value) {
        earliest := Some(event.Day());
      }
    }
    assert events[0..] == events;
    if earliest.Some? && earliest.value < today {
      RecomputeFrom(b, listed, snapshots, earliest.value, today);
    }
  }

  // ----- what a row can see of a ledger -----

  function Sight(ts: seq<Txn>, cutoff: int): seq<Txn> {
    Filter(AsOf(ts, cutoff), Counts)
  }

  ghost predicate SameSight(xs: seq<Txn>, ys: seq<Txn>, cutoff: int) {
    Sight(xs, cutoff) == Sight(ys, cutoff)
  }

  lemma SightConcat(xs: seq<Txn>, ys: seq<Txn>, cutoff: int)
    ensures Sight(xs + ys, cutoff) == Sight(xs, cutoff) + Sight(ys, cutoff)
  {
    FilterConcat(xs, ys, InEffectAt(cutoff));
    FilterConcat(AsOf(xs, cutoff), AsOf(ys, cutoff), Counts);
  }

  /** Events no row before the cutoff can see: those that do not count, and those in effect only later. */
  predicate OutOfSight(t: Txn, cutoff: int) {
    Counts(t) ==> !InEffect(t, cutoff)
  }

  /**
   * Healing from the event's own day reaches every past row that sees it: so for all but openings
   * that hold shares and are in effect before their own day.
   */
  predicate HealReaches(t: Txn, today: int) {
    t.kind.Opening? && t.quantity > 0.0 ==>
      t.openingDate.Some? && (DayOf(t.openingDate.value) >= t.Day() || DayOf(t.openingDate.value) >= today)
  }

  lemma NothingInSight(ts: seq<Txn>, cutoff: int)
    requires forall t :: t in ts ==> OutOfSight(t, cutoff)
    ensures Sight(ts, cutoff) == []
  {
    FilterTwice(ts, InEffectAt(cutoff), Counts);
    FilterNone(ts, Both(InEffectAt(cutoff), Counts));
  }

  lemma EditOutOfSight(before: seq<Txn>, removed: seq<Txn>, added: seq<Txn>, after: seq<Txn>, cutoff: int)
    requires forall t :: t in removed ==> OutOfSight(t, cutoff)
    requires forall t :: t in added ==> OutOfSight(t, cutoff)
    ensures SameSight(before + removed + after, before + added + after, cutoff)
  {
    SightConcat(before + removed, after, cutoff);
    SightConcat(before, removed, cutoff);
    SightConcat(before + added, after, cutoff);
    SightConcat(before, added, cutoff);
    NothingInSight(removed, cutoff);
    NothingInSight(added, cutoff);
  }

  // ----- rows before and after a write -----

  /** The same holdings, as far as a line shows: only derived positions may differ. */
  ghost predicate SameIdentity(b: Book, b2: Book, listed: seq<nat>) {
    forall hid :: hid in listed ==>
      && hid in b.holdings && hid in b2.holdings
      && b2.holdings[hid].(position := b.holdings[hid].position) == b.holdings[hid]
  }

  /** Every listed holding is placed alike on the day. */
  ghost predicate SamePlaces(b: Book, b2: Book, listed: seq<nat>, day: int) {
    forall hid :: hid in listed ==> SamePlace(AsOfPosition(b.txns, hid, day), AsOfPosition(b2.txns, hid, day))
  }

  lemma SameSightSamePlaces(b: Book, b2: Book, listed: seq<nat>, day: int)
    requires forall hid :: hid in listed ==> SameSight(LedgerOf(b.txns, hid), LedgerOf(b2.txns, hid), EndOf(day))
    ensures SamePlaces(b, b2, listed, day)
  {
    forall hid | hid in listed {
      SameCountingSamePlace(AsOf(LedgerOf(b.txns, hid), EndOf(day)), AsOf(LedgerOf(b2.txns, hid), EndOf(day)));
    }
  }

  lemma SameIdentitySameLine(h: Holding, h2: Holding, p: Position, q: Position, prior: Option<Line>)
    requires h2.(position := h.position) == h && SamePlace(p, q)
    ensures HealedLine(h, p, prior) == HealedLine(h2, q, prior)
  {
    assert h.currency == h2.currency;
  }

  lemma LineUnmoved(b: Book, b2: Book, listed: seq<nat>, hid: nat, prior: seq<Line>, day: int)
    requires SameIdentity(b, b2, listed) && SamePlaces(b, b2, listed, day) && hid in listed
    ensures LineAt(b, hid, prior, day) == LineAt(b2, hid, prior, day)
  {
    SameIdentitySameLine(b.holdings[hid], b2.holdings[hid], AsOfPosition(b.txns, hid, day),
                         AsOfPosition(b2.txns, hid, day), PriorFor(prior, SymbolOf(b, hid)));
  }

  lemma {:induction false} LinesUnmoved(b: Book, b2: Book, listed: seq<nat>, prior: seq<Line>, day: int)
    requires SameIdentity(b, b2, listed) && SamePlaces(b, b2, listed, day)
    ensures LinesAsOf(b, listed, prior, day) == LinesAsOf(b2, listed, prior, day)
  {
    hide LineAt, AsOfPosition;
    if listed != [] {
      LineUnmoved(b, b2, listed, listed[0], prior, day);
      LinesUnmoved(b, b2, listed[1..], prior, day);
    }
  }

  lemma RowUnmoved(b: Book, b2: Book, listed: seq<nat>, row: Row, day: int)
    requires SameIdentity(b, b2, listed) && SamePlaces(b, b2, listed, day)
    ensures HealedRow(b, listed, row, day) == HealedRow(b2, listed, row, day)
  {
    if row.lines.Some? {
      LinesUnmoved(b, b2, listed, row.lines.value, day);
    }
  }

  /** Every row dated before today is what healing would make of it. */
  ghost predicate Healthy(b: Book, listed: seq<nat>, rows: map<int, Row>, today: int)
    requires forall hid :: hid in listed ==> hid in b.holdings
  {
    forall d :: d in rows && d < today ==> HealedRow(b, listed, rows[d], d) == rows[d]
  }

  lemma {:induction false} HealFromIsEarliest(events: seq<Txn>)
    ensures forall t :: t in events && !t.kind.Dividend? ==> HealFrom(events).Some? && HealFrom(events).value <= t.Day()
  {
    if events != [] {
      HealFromIsEarliest(events[1..]);
      assert events == [events[0]] + events[1..];
    }
  }

  lemma LaterDayIsOutOfSight(t: Txn, day: int, today: int)
    requires t.Day() > day && day < today && HealReaches(t, today)
    ensures OutOfSight(t, EndOf(day))
  {
    assert t.date >= EndOf(day);
  }

  lemma EditedLedgersLookAlike(before: seq<Txn>, removed: seq<Txn>, added: seq<Txn>, after: seq<Txn>,
      hid: nat, day: int, today: int)
    requires day < today
    requires forall t :: t in removed + added ==> HealReaches(t, today) && (!t.kind.Dividend? ==> t.Day() > day)
    ensures SameSight(LedgerOf(before + removed + after, hid), LedgerOf(before + added + after, hid), EndOf(day))
  {
    LedgerConcat(before + removed, after, hid);
    LedgerConcat(before, removed, hid);
    LedgerConcat(before + added, after, hid);
    LedgerConcat(before, added, hid);
    FilterMembers(removed, OfHolding(hid));
    FilterMembers(added, OfHolding(hid));
    forall t | t in removed + added
      ensures OutOfSight(t, EndOf(day))
    {
      if !t.kind.Dividend? {
        LaterDayIsOutOfSight(t, day, today);
      }
    }
    EditOutOfSight(LedgerOf(before, hid), LedgerOf(removed, hid), LedgerOf(added, hid), LedgerOf(after, hid), EndOf(day));
  }

  /**
   * The heal reaches far enough. Whatever events a write removes and adds, as long as none is an opening
   * with shares in effect before its own day, a history healthy before the write is healthy after its heal.
   */
  lemma WritesKeepHistoryHealthy(b: Book, b2: Book, listed: seq<nat>, rows: map<int, Row>,
      before: seq<Txn>, removed: seq<Txn>, added: seq<Txn>, after: seq<Txn>, today: int)
    requires SameIdentity(b, b2, listed) && SymbolsDistinct(b, listed)
    requires b.txns == before + removed + after && b2.txns == before + added + after
    requires forall t :: t in removed + added ==> HealReaches(t, today)
    requires Healthy(b, listed, rows, today)
    ensures Healthy(b2, listed, RowsAfter(b2, listed, rows, removed + added, today), today)
  {
    hide HealedRow, LedgerOf, SameSight, HealFrom, HealReaches;
    var from := HealFrom(removed + added);
    var healed := RowsAfter(b2, listed, rows, removed + added, today);
    HealFromIsEarliest(removed + added);
    forall d | d in healed && d < today
      ensures HealedRow(b2, listed, healed[d], d) == healed[d]
    {
      if from.Some? && from.value <= d {
        HealIsIdempotent(b2, listed, rows[d], d);
      } else {
        forall hid | hid in listed
          ensures SameSight(LedgerOf(b.txns, hid), LedgerOf(b2.txns, hid), EndOf(d))
        {
          EditedLedgersLookAlike(before, removed, added, after, hid, d, today);
        }
        SameSightSamePlaces(b, b2, listed, d);
        RowUnmoved(b, b2, listed, rows[d], d);
      }
    }
  }

  /** In particular dividends need no heal at all. */
  lemma DividendWritesNeedNoHeal(b: Book, b2: Book, listed: seq<nat>, rows: map<int, Row>,
      before: seq<Txn>, removed: seq<Txn>, added: seq<Txn>, after: seq<Txn>, today: int)
    requires SameIdentity(b, b2, listed)
    requires b.txns == before + removed + after && b2.txns == before + added + after
    requires forall t :: t in removed + added ==> t.kind.Dividend?
    ensures RowsAfter(b2, listed, rows, removed + added, today) == rows
    ensures forall d :: d in rows ==> HealedRow(b2, listed, rows[d], d) == HealedRow(b, listed, rows[d], d)
  {
    AllDividends(removed + added);
    forall d | d in rows
      ensures HealedRow(b2, listed, rows[d], d) == HealedRow(b, listed, rows[d], d)
    {
      forall hid | hid in listed
        ensures SameSight(LedgerOf(b.txns, hid), LedgerOf(b2.txns, hid), EndOf(d))
      {
        EditedLedgersLookAlike(before, removed, added, after, hid, d, d + 1);
      }
      SameSightSamePlaces(b, b2, listed, d);
      RowUnmoved(b, b2, listed, rows[d], d);
    }
  }

  lemma {:induction false} AllDividends(events: seq<Txn>)
    requires forall t :: t in events ==> t.kind.Dividend?
    ensures HealFrom(events) == None
  {
    if events != [] {
      AllDividends(events[1..]);
    }
  }

  // ----- the write path's own operations -----

  lemma RederivedKeepsIdentity(b: Book, txns: seq<Txn>, hid: nat, listed: seq<nat>)
    requires hid in b.holdings && forall h :: h in listed ==> h in b.holdings
    ensures SameIdentity(b, Attempt(b, txns, hid).0, listed)
  {
  }

  /** A new opening is undeclared: it is in effect on every day. */
  predicate OpensShares(input: TxnInput) {
    input.kind == Some(Opening) && OrZero(input.quantity) > 0.0
  }

  lemma AcceptedCreateKeepsHistoryHealthy(b: Book, hid: nat, input: TxnInput, today: int, id: nat, now: int,
      listed: seq<nat>, rows: map<int, Row>, currentDay: int)
    requires Listed(b, listed) && SymbolsDistinct(b, listed) && Healthy(b, listed, rows, currentDay)
    requires CreateSpec(b, hid, input, today, id, now).1.Done? && !OpensShares(input)
    ensures var b2 := CreateSpec(b, hid, input, today, id, now).0;
            && Listed(b2, listed) && b2.txns != b.txns
            && Healthy(b2, listed, RowsAfter(b2, listed, rows, [b2.txns[|b.txns|]], currentDay), currentDay)
  {
    var b2 := CreateSpec(b, hid, input, today, id, now).0;
    var t := FromInput(input, id, hid, LedgerCurrency(b.holdings[hid]), now);
    RederivedKeepsIdentity(b, b.txns + [t], hid, listed);
    assert b.txns == b.txns + [] + [] && b2.txns == b.txns + [t] + [] && [] + [t] == [t];
    WritesKeepHistoryHealthy(b, b2, listed, rows, b.txns, [], [t], [], currentDay);
  }

  lemma UpdateEdits(b: Book, id: nat, input: TxnInput, today: int, listed: seq<nat>)
    requires Projected(b) && Listed(b, listed) && UpdateSpec(b, id, input, today).1.Done?
    ensures var i, b2 := IndexOf(b.txns, id), UpdateSpec(b, id, input, today).0;
            && i < |b.txns| && input.kind.Some? && b2.txns == b.txns[i := Patched(b.txns[i], input)]
            && SameIdentity(b, b2, listed)
  {
    var i := IndexOf(b.txns, id);
    MembersHaveHoldings(b, i);
    RederivedKeepsIdentity(b, b.txns[i := Patched(b.txns[i], input)], b.txns[i].holding, listed);
  }

  lemma DeleteEdits(b: Book, id: nat, listed: seq<nat>)
    requires Projected(b) && Listed(b, listed) && DeleteSpec(b, id).1.Done?
    ensures var i, b2 := IndexOf(b.txns, id), DeleteSpec(b, id).0;
            i < |b.txns| && b2.txns == Without(b.txns, i) && SameIdentity(b, b2, listed)
  {
    var i := IndexOf(b.txns, id);
    MembersHaveHoldings(b, i);
    RederivedKeepsIdentity(b, Without(b.txns, i), b.txns[i].holding, listed);
  }

  lemma AcceptedDeleteKeepsHistoryHealthy(b: Book, id: nat, listed: seq<nat>, rows: map<int, Row>, currentDay: int)
    requires Projected(b) && Listed(b, listed) && SymbolsDistinct(b, listed) && Healthy(b, listed, rows, currentDay)
    requires DeleteSpec(b, id).1.Done? && HealReaches(b.txns[IndexOf(b.txns, id)], currentDay)
    ensures var i, b2 := IndexOf(b.txns, id), DeleteSpec(b, id).0;
            && Listed(b2, listed)
            && Healthy(b2, listed, RowsAfter(b2, listed, rows, [b.txns[i]], currentDay), currentDay)
  {
    var i, b2 := IndexOf(b.txns, id), DeleteSpec(b, id).0;
    DeleteEdits(b, id, listed);
    DropInPlace(b, b2, i, listed, rows, currentDay);
  }

  lemma DropInPlace(b: Book, b2: Book, i: nat, listed: seq<nat>, rows: map<int, Row>, currentDay: int)
    requires SameIdentity(b, b2, listed) && SymbolsDistinct(b, listed) && Healthy(b, listed, rows, currentDay)
    requires i < |b.txns| && b2.txns == Without(b.txns, i) && HealReaches(b.txns[i], currentDay)
    ensures Healthy(b2, listed, RowsAfter(b2, listed, rows, [b.txns[i]], currentDay), currentDay)
  {
    var prev, before, after := b.txns[i], b.txns[..i], b.txns[i + 1..];
    assert b.txns == before + [prev] + after && b2.txns == before + [] + after && [prev] + [] == [prev];
    WritesKeepHistoryHealthy(b, b2, listed, rows, before, [prev], [], after, currentDay);
  }

  // ----- the exception: openings in effect before their own day -----

  lemma OpeningPosition(hid: nat, t: Txn, day: int)
    requires t.kind.Opening? && t.quantity > 0.0 && t.holding == hid && InEffect(t, EndOf(day))
    ensures AsOfPosition([t], hid, day).stocksOwned == t.quantity
  {
    OneLedger(hid, [t]);
    assert AsOf([t], EndOf(day)) == [t];
    SortOfOrdered([t]);
    ReplayState.RunOne(START, t);
    ReplayState.StepIdle(START, t);
  }

  lemma NoPosition(hid: nat, day: int)
    ensures AsOfPosition([], hid, day).stocksOwned == 0.0
  {
    assert Sort([]) == [];
  }

  lemma TrackedStock(b: Book, hid: nat)
    requires hid in b.holdings && b.holdings[hid].currency == "INR"
    ensures CurrencyOf(b.holdings[hid]) == Some("INR")
  {
    assert Upper("INR") == "INR";
  }

  /** A lone tracked holding has its line when it owns shares or is priced already, and none otherwise. */
  lemma OneHoldingLine(b: Book, hid: nat, row: Row, day: int)
    requires hid in b.holdings && row.lines.Some? && b.holdings[hid].currency == "INR"
    ensures var p := AsOfPosition(b.txns, hid, day);
            var lines := HealedRow(b, [hid], row, day).lines;
            && lines.Some?
            && (p.stocksOwned == 0.0 && row.lines.value == [] ==> lines.value == [])
            && (p.stocksOwned != 0.0 ==>
                  |lines.value| == 1 && lines.value[0].quantity == p.stocksOwned && lines.value[0].avgCost == p.avgCost)
            && (|lines.value| == 1 ==> lines.value[0].quantity == p.stocksOwned)
  {
    TrackedStock(b, hid);
    assert [hid][1..] == [];
    assert LinesAsOf(b, [hid], row.lines.value, day) == OneLine(LineAt(b, hid, row.lines.value, day)) + [];
  }

  /** Rows of days before the event are not healed. */
  lemma OlderRowsStand(b: Book, listed: seq<nat>, rows: map<int, Row>, t: Txn, day: int, today: int)
    requires Listed(b, listed) && day in rows && day < t.Day() && !t.kind.Dividend?
    ensures var after := RowsAfter(b, listed, rows, [t], today); day in after && after[day] == rows[day]
  {
    assert [t][1..] == [];
    assert HealFrom([t]) == Some(t.Day());
  }

  /** A past day, before the opening's own, on which it is in effect. */
  lemma EarlyDay(t: Txn, today: int) returns (d: int)
    requires !HealReaches(t, today)
    ensures d < t.Day() && d < today && InEffect(t, EndOf(d))
  {
    if t.openingDate.None? {
      d := (if t.Day() < today then t.Day() else today) - 1;
    } else {
      d := DayOf(t.openingDate.value);
    }
  }

  lemma LoneHolding(b: Book, hid: nat)
    requires hid in b.holdings
    ensures Listed(b, [hid]) && SymbolsDistinct(b, [hid])
  {
  }

  // ----- deletes -----

  /** t is deleted from a book with a healthy history. */
  ghost predicate DeletesHealthy(b: Book, listed: seq<nat>, rows: map<int, Row>, t: Txn, today: int) {
    && Projected(b) && Listed(b, listed) && SymbolsDistinct(b, listed) && Healthy(b, listed, rows, today)
    && t in b.txns && DeleteSpec(b, t.id).1.Done? && Listed(DeleteSpec(b, t.id).0, listed)
  }

  /** The heal of an accepted delete of t always leaves a healthy history healthy. */
  ghost predicate DeleteAlwaysHeals(t: Txn, today: int) {
    forall b, listed, rows | DeletesHealthy(b, listed, rows, t, today) ::
      var b2 := DeleteSpec(b, t.id).0;
      Healthy(b2, listed, RowsAfter(b2, listed, rows, [t], today), today)
  }

  lemma UncoveredDelete(t: Txn, today: int) returns (b: Book, rows: map<int, Row>)
    requires !HealReaches(t, today)
    ensures DeletesHealthy(b, [t.holding], rows, t, today)
    ensures var b2 := DeleteSpec(b, t.id).0; !Healthy(b2, [t.holding], RowsAfter(b2, [t.holding], rows, [t], today), today)
  {
    hide Replay, HealedRow, RowsAfter, LedgerOf, AsOfPosition;
    var hid := t.holding;
    var d := EarlyDay(t, today);
    b := OneBook(hid, [t]);
    OneOpeningIsAccepted(t);
    OneBookIsProjected(hid, [t]);
    LoneHolding(b, hid);
    var blank := Row(map[], Some([]));
    var row := HealedRow(b, [hid], blank, d);
    HealIsIdempotent(b, [hid], blank, d);
    rows := map[d := row];
    assert IndexOf([t], t.id) == 0 && Without([t], 0) == [];
    var b2 := DeleteSpec(b, t.id).0;
    assert LedgerOf([], hid) == [] by { NoEvents(hid); }
    assert DeleteSpec(b, t.id).1.Done? && b2.txns == [] && hid in b2.holdings && b2.holdings[hid].currency == "INR";
    OlderRowsStand(b2, [hid], rows, t, d, today);
    OpeningPosition(hid, t, d);
    NoPosition(hid, d);
    OneHoldingLine(b, hid, blank, d);
    OneHoldingLine(b2, hid, row, d);
    assert HealedRow(b2, [hid], row, d) != row;
  }

  lemma NoEvents(hid: nat)
    ensures LedgerOf([], hid) == []
  {
  }

  /** Exactly when: the heal of a delete always suffices if and only if it reaches the event. */
  lemma DeleteHealsIff(t: Txn, today: int)
    ensures DeleteAlwaysHeals(t, today) <==> HealReaches(t, today)
  {
    hide HealReaches, RowsAfter, Healthy, DeleteSpec, PositionsProjected;
    if HealReaches(t, today) {
      forall b, listed, rows | DeletesHealthy(b, listed, rows, t, today)
        ensures var b2 := DeleteSpec(b, t.id).0; Healthy(b2, listed, RowsAfter(b2, listed, rows, [t], today), today)
      {
        IdsOf(b);
        IndexOfMember(b.txns, t);
        AcceptedDeleteKeepsHistoryHealthy(b, t.id, listed, rows, today);
      }
    } else {
      var b, rows := UncoveredDelete(t, today);
      assert DeletesHealthy(b, [t.holding], rows, t, today);
    }
  }

  lemma IdsOf(b: Book)
    requires Projected(b)
    ensures IdsDistinct(b.txns)
  {
  }

  // ----- creates -----

  ghost predicate CreatesHealthy(b: Book, listed: seq<nat>, rows: map<int, Row>, hid: nat, id: nat, now: int,
      input: TxnInput, today: int, currentDay: int)
  {
    && Projected(b) && Listed(b, listed) && SymbolsDistinct(b, listed) && Healthy(b, listed, rows, currentDay)
    && CreateSpec(b, hid, input, today, id, now).1.Done? && Listed(CreateSpec(b, hid, input, today, id, now).0, listed)
    && |CreateSpec(b, hid, input, today, id, now).0.txns| == |b.txns| + 1
  }

  /** The heal of an accepted create of this input always leaves a healthy history healthy. */
  ghost predicate CreateAlwaysHeals(input: TxnInput, today: int, currentDay: int) {
    forall b, listed, rows, hid, id, now | CreatesHealthy(b, listed, rows, hid, id, now, input, today, currentDay) ::
      var b2 := CreateSpec(b, hid, input, today, id, now).0;
      Healthy(b2, listed, RowsAfter(b2, listed, rows, [b2.txns[|b.txns|]], currentDay), currentDay)
  }

  lemma UncoveredCreate(input: TxnInput, today: int, currentDay: int) returns (b: Book, rows: map<int, Row>)
    requires OpensShares(input)
    ensures CreatesHealthy(b, [1], rows, 1, 1, 0, input, today, currentDay)
    ensures var b2 := CreateSpec(b, 1, input, today, 1, 0).0;
            !Healthy(b2, [1], RowsAfter(b2, [1], rows, [b2.txns[|b.txns|]], currentDay), currentDay)
  {
    hide Replay, HealedRow, RowsAfter, LedgerOf, AsOfPosition;
    b := OneBook(1, []);
    var t := FromInput(input, 1, 1, LedgerCurrency(b.holdings[1]), 0);
    var d := EarlyDay(t, currentDay);
    OneOpeningIsAccepted(t);
    OneBookIsProjected(1, []);
    LoneHolding(b, 1);
    var row := Row(BucketsOf([]), Some([]));
    NoPosition(1, d);
    BlankRowIsHealthy(b, 1, d);
    rows := map[d := row];
    assert [] + [t] == [t];
    OneLedger(1, [t]);
    var b2 := CreateSpec(b, 1, input, today, 1, 0).0;
    assert b2.txns == [t] && 1 in b2.holdings && b2.holdings[1].currency == "INR";
    OlderRowsStand(b2, [1], rows, t, d, currentDay);
    OpeningPosition(1, t, d);
    OneHoldingLine(b2, 1, row, d);
    assert HealedRow(b2, [1], row, d) != row;
  }

  lemma BlankRowIsHealthy(b: Book, hid: nat, d: int)
    requires hid in b.holdings && b.holdings[hid].currency == "INR" && AsOfPosition(b.txns, hid, d).stocksOwned == 0.0
    ensures HealedRow(b, [hid], Row(BucketsOf([]), Some([])), d) == Row(BucketsOf([]), Some([]))
  {
    var row := Row(BucketsOf([]), Some([]));
    TrackedStock(b, hid);
    assert [hid][1..] == [];
    assert LinesAsOf(b, [hid], [], d) == OneLine(LineAt(b, hid, [], d)) + [];
    RowMachine.BucketsAreCron([]);
    assert BucketsOf([]) + map[] == BucketsOf([]);
  }

  /** Exactly when: the heal of a create always suffices if and only if it opens no shares. */
  lemma CreateHealsIff(input: TxnInput, today: int, currentDay: int)
    ensures CreateAlwaysHeals(input, today, currentDay) <==> !OpensShares(input)
  {
    hide OpensShares, RowsAfter, Healthy, CreateSpec, Projected;
    if !OpensShares(input) {
      forall b, listed, rows, hid, id, now | CreatesHealthy(b, listed, rows, hid, id, now, input, today, currentDay)
        ensures var b2 := CreateSpec(b, hid, input, today, id, now).0;
                Healthy(b2, listed, RowsAfter(b2, listed, rows, [b2.txns[|b.txns|]], currentDay), currentDay)
      {
        AcceptedCreateKeepsHistoryHealthy(b, hid, input, today, id, now, listed, rows, currentDay);
      }
    } else {
      var b, rows := UncoveredCreate(input, today, currentDay);
      assert CreatesHealthy(b, [1], rows, 1, 1, 0, input, today, currentDay);
    }
  }

  // ----- a heal that does not settle -----

  const FIRST := Txn(1, 1, Opening, 0, 10.0, 100.0, 0.0, 0.0, None, "INR", 1)
  const SECOND := Txn(2, 2, Opening, 0, 10.0, 200.0, 0.0, 0.0, None, "INR", 2)

  lemma PairOfHoldings() returns (b: Book)
    ensures Projected(b) && b.txns == [FIRST, SECOND] && b.holdings.Keys == {1, 2}
    ensures forall hid :: hid in b.holdings ==> b.holdings[hid].symbol == "X" && b.holdings[hid].currency == "INR"
    ensures LedgerOf(b.txns, 1) == [FIRST] && LedgerOf(b.txns, 2) == [SECOND]
  {
    hide Replay;
    b := Book([FIRST, SECOND], map[1 := Holding("X", "X", "INR", Replay([FIRST]).position),
                                   2 := Holding("X", "X", "INR", Replay([SECOND]).position)]);
    assert b.txns == [FIRST] + [SECOND];
    LedgerConcat([FIRST], [SECOND], 1);
    LedgerConcat([FIRST], [SECOND], 2);
    LedgerOfOne(FIRST, 1);
    LedgerOfOne(FIRST, 2);
    LedgerOfOne(SECOND, 1);
    LedgerOfOne(SECOND, 2);
    OneOpeningIsAccepted(FIRST);
    OneOpeningIsAccepted(SECOND);
  }

  lemma OpeningPlace(t: Txn)
    requires t.kind.Opening? && t.openingDate.None? && t.quantity > 0.0
    ensures var p := Replay(AsOf([t], EndOf(0))).position; p.stocksOwned == t.quantity && p.avgCost == t.amount / t.quantity
  {
    assert AsOf([t], EndOf(0)) == [t];
    SortOfOrdered([t]);
    ReplayState.RunOne(START, t);
    ReplayState.StepIdle(START, t);
  }

  /** Two holdings share a symbol without a stored close and cost differently: healing the row again changes it. */
  lemma SharedSymbolHealsTwice()
    ensures exists b: Book, listed: seq<nat>, row: Row, day: int ::
              Projected(b) && Listed(b, listed)
              && HealedRow(b, listed, HealedRow(b, listed, row, day), day) != HealedRow(b, listed, row, day)
  {
    hide Replay, HealedRow, LedgerOf;
    var b := PairOfHoldings();
    var row := Row(map[], Some([]));
    OpeningPlace(FIRST);
    OpeningPlace(SECOND);
    TrackedStock(b, 1);
    TrackedStock(b, 2);
    assert 1 in [1, 2] && 2 in [1, 2];
    assert !Agree(AsOfPosition(b.txns, 1, 0), AsOfPosition(b.txns, 2, 0));
    assert !SharedSymbolsAgree(b, [1, 2], [], 0);
    HealTwiceIsHealOnce(b, [1, 2], row, 0);
    assert Projected(b) && Listed(b, [1, 2]);
  }
}
