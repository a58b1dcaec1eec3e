/** Exactly which updates the heal reaches, an opening's early days included (Update of services/transactions.go). */
module UpdateReach {
  import opened Sequences
  import opened Ledger
  import opened ReplayOrder
  import ReplayState
  import opened Conservation
  import opened EmptyOpenings
  import opened AsOfReplay
  import opened Book
  import opened Snapshots
  import opened Heal
  import opened HistoryLaws
  import opened WritePath
  import opened HealReach

  /** Rows of earlier days are left alone by the heal of these events. */
  function FirstHealed(events: seq<Txn>, today: int): int {
    var from := HealFrom(events);
    if from.Some? && from.value < today then from.value else today
  }

  /** An opening that places shares on days the heal does not reach. */
  predicate Early(t: Txn, limit: int) {
    t.kind.Opening? && t.quantity > 0.0 && (t.openingDate.Some? ==> DayOf(t.openingDate.value) < limit)
  }

  /** Two openings that place the same shares at the same cost on the same days. */
  predicate SameOpening(t: Txn, u: Txn) {
    && t.kind.Opening? && u.kind.Opening? && t.quantity == u.quantity && t.amount == u.amount
    && t.openingDate.Some? == u.openingDate.Some?
    && (t.openingDate.Some? ==> DayOf(t.openingDate.value) == DayOf(u.openingDate.value))
  }

  /** Replacing t by u shows on no row that its heal leaves alone. */
  predicate EditUnseen(t: Txn, u: Txn, today: int) {
    var limit := FirstHealed([t, u], today);
    Early(t, limit) || Early(u, limit) ==> SameOpening(t, u)
  }

  // ----- unseen edits keep history -----

  lemma NotEarlyIsOutOfSight(t: Txn, events: seq<Txn>, day: int, today: int)
    requires t in events && day < FirstHealed(events, today) && !Early(t, FirstHealed(events, today))
    ensures OutOfSight(t, EndOf(day))
  {
    HealFromIsEarliest(events);
    if Counts(t) {
      if t.kind.Opening? {
        DeclaredByDay(t, day);
      } else {
        assert t.Day() >= FirstHealed(events, today);
        assert t.date >= EndOf(day);
      }
    }
  }

  lemma OpeningsAlike(before: seq<Txn>, t: Txn, u: Txn, after: seq<Txn>)
    requires t.kind.Opening? && u.kind.Opening? && t.quantity == u.quantity && t.amount == u.amount
    ensures SamePlace(Replay(before + [t] + after).position, Replay(before + [u] + after).position)
  {
    hide Replay, Report, Run, Sort;
    var xs, ys := before + [t] + after, before + [u] + after;
    ReplayStartsFromBaseline(xs);
    ReplayStartsFromBaseline(ys);
    SumAround(before, t, after, OpenedQty);
    SumAround(before, u, after, OpenedQty);
    SumAround(before, t, after, OpenedCost);
    SumAround(before, u, after, OpenedCost);
    FilterConcat(before + [t], after, NotOpening);
    FilterConcat(before, [t], NotOpening);
    FilterConcat(before + [u], after, NotOpening);
    FilterConcat(before, [u], NotOpening);
    var s := Baseline(ys);
    assert Baseline(xs) == Richer(s, Baseline(xs).realized - s.realized);
    ReportRicher(s, Sort(Filter(ys, NotOpening)), Baseline(xs).realized - s.realized);
  }

  lemma SumAround(before: seq<Txn>, t: Txn, after: seq<Txn>, f: Txn -> real)
    ensures Sum(before + [t] + after, f) == Sum(before, f) + f(t) + Sum(after, f)
  {
    SumConcat(before + [t], after, f);
    SumConcat(before, [t], f);
    SumOne(t, f);
  }

  lemma EditedLedgerPlace(before: seq<Txn>, t: Txn, u: Txn, after: seq<Txn>, day: int, today: int)
    requires EditUnseen(t, u, today) && day < FirstHealed([t, u], today)
    ensures SamePlace(Replay(AsOf(before + [t] + after, EndOf(day))).position,
                      Replay(AsOf(before + [u] + after, EndOf(day))).position)
  {
    hide Replay;
    var cutoff, limit := EndOf(day), FirstHealed([t, u], today);
    if (Early(t, limit) || Early(u, limit)) && InEffect(t, cutoff) {
      if t.openingDate.Some? {
        DeclaredByDay(t, day);
        DeclaredByDay(u, day);
      }
      AsOfAround(before, t, after, cutoff);
      AsOfAround(before, u, after, cutoff);
      OpeningsAlike(AsOf(before, cutoff), t, u, AsOf(after, cutoff));
    } else {
      if Early(t, limit) || Early(u, limit) {
        DeclaredByDay(t, day);
        DeclaredByDay(u, day);
      } else {
        NotEarlyIsOutOfSight(t, [t, u], day, today);
        NotEarlyIsOutOfSight(u, [t, u], day, today);
      }
      EditOutOfSight(before, [t], [u], after, cutoff);
      SameCountingSamePlace(AsOf(before + [t] + after, cutoff), AsOf(before + [u] + after, cutoff));
    }
  }

  lemma AsOfAround(before: seq<Txn>, t: Txn, after: seq<Txn>, cutoff: int)
    requires InEffect(t, cutoff)
    ensures AsOf(before + [t] + after, cutoff) == AsOf(before, cutoff) + [t] + AsOf(after, cutoff)
  {
    FilterConcat(before + [t], after, InEffectAt(cutoff));
    FilterConcat(before, [t], InEffectAt(cutoff));
    FilterCons(t, [], InEffectAt(cutoff));
    assert [t] + [] == [t];
  }

  lemma EditedPlaces(b: Book, b2: Book, i: nat, listed: seq<nat>, day: int, today: int)
    requires i < |b.txns| == |b2.txns| && b2.txns == b.txns[i := b2.txns[i]]
    requires b2.txns[i].holding == b.txns[i].holding
    requires EditUnseen(b.txns[i], b2.txns[i], today) && day < FirstHealed([b.txns[i], b2.txns[i]], today)
    ensures SamePlaces(b, b2, listed, day)
  {
    hide Replay, LedgerOf, EditUnseen;
    var t, u, before, after := b.txns[i], b2.txns[i], b.txns[..i], b.txns[i + 1..];
    assert b.txns == before + [t] + after && b2.txns == before + [u] + after;
    forall hid | hid in listed
      ensures SamePlace(AsOfPosition(b.txns, hid, day), AsOfPosition(b2.txns, hid, day))
    {
      if hid != t.holding {
        ReplaceKeepsLedger(b.txns, i, u, hid);
      } else {
        LedgerAround(before, t, after);
        LedgerAround(before, u, after);
        EditedLedgerPlace(LedgerOf(before, hid), t, u, LedgerOf(after, hid), day, today);
      }
    }
  }

  lemma LedgerAround(before: seq<Txn>, t: Txn, after: seq<Txn>)
    ensures LedgerOf(before + [t] + after, t.holding) == LedgerOf(before, t.holding) + [t] + LedgerOf(after, t.holding)
  {
    LedgerConcat(before + [t], after, t.holding);
    LedgerConcat(before, [t], t.holding);
    LedgerOfOne(t, t.holding);
  }

  lemma AcceptedUpdateKeepsHistoryHealthy(b: Book, id: nat, input: TxnInput, day: int,
      listed: seq<nat>, rows: map<int, Row>, today: int)
    requires Projected(b) && Listed(b, listed) && SymbolsDistinct(b, listed) && Healthy(b, listed, rows, today)
    requires UpdateSpec(b, id, input, day).1.Done?
    requires EditUnseen(b.txns[IndexOf(b.txns, id)], Patched(b.txns[IndexOf(b.txns, id)], input), today)
    ensures var i, b2 := IndexOf(b.txns, id), UpdateSpec(b, id, input, day).0;
            && Listed(b2, listed) && |b2.txns| == |b.txns|
            && Healthy(b2, listed, RowsAfter(b2, listed, rows, [b.txns[i], b2.txns[i]], today), today)
  {
    hide HealedRow, HealFrom, EditUnseen, SamePlaces, PositionsProjected, Attempt, Patched;
    var i, b2 := IndexOf(b.txns, id), UpdateSpec(b, id, input, day).0;
    UpdateEdits(b, id, input, day, listed);
    PatchedStays(b.txns[i], input);
    var events := [b.txns[i], b2.txns[i]];
    var healed := RowsAfter(b2, listed, rows, events, today);
    forall d | d in healed && d < today
      ensures HealedRow(b2, listed, healed[d], d) == healed[d]
    {
      if d < FirstHealed(events, today) {
        EditedPlaces(b, b2, i, listed, d, today);
        RowUnmoved(b, b2, listed, rows[d], d);
      } else {
        HealIsIdempotent(b2, listed, rows[d], d);
      }
    }
  }

  lemma PatchedStays(t: Txn, input: TxnInput)
    requires input.kind.Some?
    ensures Patched(t, input).holding == t.holding && Patched(t, input).id == t.id
  {
  }

  // ----- a seen edit leaves a stale row -----

  predicate Shown(t: Txn, day: int) {
    t.kind.Opening? && t.quantity > 0.0 && InEffect(t, EndOf(day))
  }

  /** A day the heal does not reach on which t and u place different shares or costs. */
  lemma DifferentDay(t: Txn, u: Txn, today: int) returns (d: int)
    requires !EditUnseen(t, u, today)
    ensures d < FirstHealed([t, u], today)
    ensures Shown(t, d) || OutOfSight(t, EndOf(d))
    ensures Shown(u, d) || OutOfSight(u, EndOf(d))
    ensures Shown(t, d) != Shown(u, d) || (Shown(t, d) && (t.quantity != u.quantity || t.amount != u.amount))
  {
    hide FirstHealed, OutOfSight;
    var limit := FirstHealed([t, u], today);
    if Early(t, limit) && Early(u, limit) {
      var same := t.quantity == u.quantity && t.amount == u.amount;
      d := if !same then limit - 1
           else if t.openingDate.None? then DayOf(u.openingDate.value) - 1
           else if u.openingDate.None? || DayOf(t.openingDate.value) < DayOf(u.openingDate.value)
           then (if u.openingDate.None? then DayOf(t.openingDate.value) - 1 else DayOf(t.openingDate.value))
           else DayOf(u.openingDate.value);
      ShownWhen(t, d);
      ShownWhen(u, d);
    } else {
      var early, other := if Early(t, limit) then t else u, if Early(t, limit) then u else t;
      d := if early.openingDate.None? then limit - 1 else DayOf(early.openingDate.value);
      ShownWhen(early, d);
      NotEarlyIsOutOfSight(other, [t, u], d, today);
      HiddenIsNotShown(other, d);
    }
  }

  lemma ShownWhen(t: Txn, d: int)
    requires t.kind.Opening? && t.quantity > 0.0
    ensures Shown(t, d) <==> t.openingDate.None? || DayOf(t.openingDate.value) <= d
    ensures Shown(t, d) || OutOfSight(t, EndOf(d))
  {
    if t.openingDate.Some? {
      DeclaredByDay(t, d);
    }
  }

  lemma HiddenIsNotShown(t: Txn, d: int)
    requires OutOfSight(t, EndOf(d))
    ensures !Shown(t, d)
  {
  }

  /** An undeclared opening large enough to cover a sell of t or u. */
  function Cover(t: Txn, u: Txn): Txn {
    var q := if t.quantity > u.quantity then t.quantity else u.quantity;
    Txn(t.id + 1, t.holding, Opening, 0, if q > 0.0 then q + 1.0 else 1.0, 0.0, 0.0, 0.0, None, "INR", 0)
  }

  lemma CoveredIsAccepted(w: Txn, t: Txn)
    requires w.kind.Opening? && w.quantity > 0.0 && w.quantity >= t.quantity
    ensures !Replay([w, t]).oversold
  {
    hide Sort;
    ReplayStartsFromBaseline([w, t]);
    var s := Baseline([w, t]);
    SumOfTwo(w, t, OpenedQty);
    FilterOfTwo(w, t, NotOpening);
    if !t.kind.Opening? {
      assert Filter([w, t], NotOpening) == [t];
      SortOfOrdered([t]);
      ReplayState.RunOne(s, t);
      ReplayState.StepIdle(s, t);
    } else {
      assert Filter([w, t], NotOpening) == [];
      SortOfOrdered([]);
    }
  }

  lemma SumOfTwo(w: Txn, t: Txn, f: Txn -> real)
    ensures Sum([w, t], f) == f(w) + f(t)
  {
    SumOne(t, f);
    assert [w, t][1..] == [t];
  }

  lemma FilterOfTwo(w: Txn, t: Txn, keep: Txn -> bool)
    ensures Filter([w, t], keep) == (if keep(w) then [w] else []) + (if keep(t) then [t] else [])
  {
    assert [w, t][1..] == [t] && [t][1..] == [];
  }

  lemma OpeningsPlace(w: Txn, t: Txn)
    requires w.kind.Opening? && w.quantity > 0.0 && t.kind.Opening? && t.quantity > 0.0
    ensures var p := Replay([w, t]).position;
            p.stocksOwned == w.quantity + t.quantity && p.avgCost == (w.amount + t.amount) / (w.quantity + t.quantity)
  {
    hide Sort;
    ReplayStartsFromBaseline([w, t]);
    SumOfTwo(w, t, OpenedQty);
    SumOfTwo(w, t, OpenedCost);
    FilterOfTwo(w, t, NotOpening);
    SortOfOrdered([]);
  }

  lemma CoveredPlace(w: Txn, t: Txn, day: int)
    requires w.kind.Opening? && w.quantity > 0.0 && w.openingDate.None? && w.amount == 0.0 && t.holding == w.holding
    requires Shown(t, day) || OutOfSight(t, EndOf(day))
    ensures var p := AsOfPosition([w, t], w.holding, day);
            && p.stocksOwned == w.quantity + (if Shown(t, day) then t.quantity else 0.0)
            && (Shown(t, day) ==> p.avgCost == t.amount / (w.quantity + t.quantity))
  {
    hide Replay, LedgerOf;
    var cutoff := EndOf(day);
    OneLedger(w.holding, [w, t]);
    FilterOfTwo(w, t, InEffectAt(cutoff));
    if Shown(t, day) {
      assert AsOf([w, t], cutoff) == [w, t];
      OpeningsPlace(w, t);
    } else {
      OpeningPosition(w.holding, w, day);
      OneLedger(w.holding, [w]);
      SightConcat([w], [t], cutoff);
      NothingInSight([t], cutoff);
      assert [w] + [t] == [w, t];
      SameCountingSamePlace(AsOf([w, t], cutoff), AsOf([w], cutoff));
    }
  }

  /** t is updated in a book with a healthy history. */
  ghost predicate UpdatesHealthy(b: Book, listed: seq<nat>, rows: map<int, Row>, t: Txn, input: TxnInput,
      day: int, today: int)
  {
    && Projected(b) && Listed(b, listed) && SymbolsDistinct(b, listed) && Healthy(b, listed, rows, today)
    && t in b.txns && UpdateSpec(b, t.id, input, day).1.Done? && Listed(UpdateSpec(b, t.id, input, day).0, listed)
  }

  /** The heal of an accepted update of t always leaves a healthy history healthy. */
  ghost predicate UpdateAlwaysHeals(t: Txn, input: TxnInput, day: int, today: int)
    requires input.kind.Some?
  {
    forall b, listed, rows | UpdatesHealthy(b, listed, rows, t, input, day, today) ::
      var b2 := UpdateSpec(b, t.id, input, day).0;
      Healthy(b2, listed, RowsAfter(b2, listed, rows, [t, Patched(t, input)], today), today)
  }

  /** The covered holding before and after the update. */
  lemma CoveredUpdate(t: Txn, w: Txn, input: TxnInput, day: int)
    requires ValidInput(input, day) && w == Cover(t, Patched(t, input))
    ensures var b := OneBook(t.holding, [w, t]); Projected(b) && UpdateSpec(b, t.id, input, day).1.Done?
    ensures var b2 := UpdateSpec(OneBook(t.holding, [w, t]), t.id, input, day).0;
            b2.txns == [w, Patched(t, input)] && b2.holdings.Keys == {t.holding} && b2.holdings[t.holding].currency == "INR"
  {
    hide Replay, LedgerOf;
    var u := Patched(t, input);
    PatchedStays(t, input);
    CoveredIsAccepted(w, t);
    OneBookIsProjected(t.holding, [w, t]);
    CoveredIsAccepted(w, u);
    OneLedger(t.holding, [w, u]);
    SecondOfTwo(w, t);
    assert [w, t][1 := u] == [w, u];
  }

  lemma EarlierRowStands(b: Book, listed: seq<nat>, rows: map<int, Row>, events: seq<Txn>, d: int, today: int)
    requires Listed(b, listed) && d in rows && d < FirstHealed(events, today)
    ensures var after := RowsAfter(b, listed, rows, events, today); d in after && after[d] == rows[d]
  {
  }

  lemma MovedLineIsStale(b: Book, b2: Book, hid: nat, d: int)
    requires hid in b.holdings && b.holdings[hid].currency == "INR"
    requires hid in b2.holdings && b2.holdings[hid].currency == "INR"
    requires var p, q := AsOfPosition(b.txns, hid, d), AsOfPosition(b2.txns, hid, d);
             p.stocksOwned != 0.0 && q.stocksOwned != 0.0 && !SamePlace(p, q)
    ensures var row := HealedRow(b, [hid], Row(map[], Some([])), d); HealedRow(b2, [hid], row, d) != row
  {
    hide AsOfPosition, HealedRow;
    var row := HealedRow(b, [hid], Row(map[], Some([])), d);
    OneHoldingLine(b, hid, Row(map[], Some([])), d);
    OneHoldingLine(b2, hid, row, d);
  }

  /** The row of such a day was healthy before the edit, and is not after its heal. */
  lemma UnhealedRowIsStale(b: Book, b2: Book, hid: nat, events: seq<Txn>, d: int, today: int) returns (rows: map<int, Row>)
    requires hid in b.holdings && b.holdings[hid].currency == "INR"
    requires hid in b2.holdings && b2.holdings[hid].currency == "INR"
    requires var p, q := AsOfPosition(b.txns, hid, d), AsOfPosition(b2.txns, hid, d);
             p.stocksOwned != 0.0 && q.stocksOwned != 0.0 && !SamePlace(p, q)
    requires d < FirstHealed(events, today)
    ensures Healthy(b, [hid], rows, today) && !Healthy(b2, [hid], RowsAfter(b2, [hid], rows, events, today), today)
  {
    hide AsOfPosition, HealedRow, RowsAfter;
    var row := HealedRow(b, [hid], Row(map[], Some([])), d);
    LoneHolding(b, hid);
    HealIsIdempotent(b, [hid], Row(map[], Some([])), d);
    MovedLineIsStale(b, b2, hid, d);
    rows := map[d := row];
    EarlierRowStands(b2, [hid], rows, events, d, today);
    assert d < today;
  }

  lemma PlacesDiffer(b: Book, b2: Book, hid: nat, w: Txn, t: Txn, u: Txn, d: int)
    requires b.txns == [w, t] && b2.txns == [w, u] && w == Cover(t, u) && t.holding == hid == u.holding
    requires Shown(t, d) || OutOfSight(t, EndOf(d))
    requires Shown(u, d) || OutOfSight(u, EndOf(d))
    requires Shown(t, d) != Shown(u, d) || (Shown(t, d) && (t.quantity != u.quantity || t.amount != u.amount))
    ensures var p, q := AsOfPosition(b.txns, hid, d), AsOfPosition(b2.txns, hid, d);
            p.stocksOwned != 0.0 && q.stocksOwned != 0.0 && !SamePlace(p, q)
  {
    hide AsOfPosition, OutOfSight;
    CoveredPlace(w, t, d);
    CoveredPlace(w, u, d);
    QuotientsDiffer(t.amount, u.amount, w.quantity + t.quantity);
  }

  lemma SeenUpdate(t: Txn, input: TxnInput, day: int, today: int) returns (b: Book, rows: map<int, Row>)
    requires ValidInput(input, day) && !EditUnseen(t, Patched(t, input), today)
    ensures UpdatesHealthy(b, [t.holding], rows, t, input, day, today)
    ensures var b2 := UpdateSpec(b, t.id, input, day).0;
            !Healthy(b2, [t.holding], RowsAfter(b2, [t.holding], rows, [t, Patched(t, input)], today), today)
  {
    assert input.kind.Some?;
    hide Replay, Healthy, AsOfPosition, EditUnseen, Patched, RowsAfter, Shown, OutOfSight, ValidInput;
    hide UpdateSpec, PositionsProjected, UpdatesHealthy;
    var hid, u := t.holding, Patched(t, input);
    PatchedStays(t, input);
    var w := Cover(t, u);
    var d := DifferentDay(t, u, today);
    b := OneBook(hid, [w, t]);
    CoveredUpdate(t, w, input, day);
    var b2 := UpdateSpec(b, t.id, input, day).0;
    PlacesDiffer(b, b2, hid, w, t, u, d);
    rows := UnhealedRowIsStale(b, b2, hid, [t, u], d, today);
    CoveredIsHealthy(t, w, rows, input, day, today);
  }

  lemma CoveredIsHealthy(t: Txn, w: Txn, rows: map<int, Row>, input: TxnInput, day: int, today: int)
    requires ValidInput(input, day) && w == Cover(t, Patched(t, input))
    requires Healthy(OneBook(t.holding, [w, t]), [t.holding], rows, today)
    ensures UpdatesHealthy(OneBook(t.holding, [w, t]), [t.holding], rows, t, input, day, today)
  {
    hide Replay, Healthy, Patched, UpdateSpec, PositionsProjected, ValidInput;
    CoveredUpdate(t, w, input, day);
    LoneHolding(OneBook(t.holding, [w, t]), t.holding);
    assert [w, t][1] == t;
  }

  lemma QuotientsDiffer(a: real, b: real, q: real)
    ensures q > 0.0 && a != b ==> a / q != b / q
  {
  }

  lemma SecondOfTwo(w: Txn, t: Txn)
    requires w.id != t.id
    ensures IndexOf([w, t], t.id) == 1
  {
    assert [w, t][1..] == [t];
    assert IndexOf([t], t.id) == 0;
  }

  /** Exactly when: the heal of a valid update always suffices if and only if the edit shows on no row it leaves alone. */
  lemma UpdateHealsIff(t: Txn, input: TxnInput, day: int, today: int)
    requires ValidInput(input, day)
    ensures UpdateAlwaysHeals(t, input, day, today) <==> EditUnseen(t, Patched(t, input), today)
  {
    hide EditUnseen, RowsAfter, Healthy, UpdateSpec, PositionsProjected;
    var u := Patched(t, input);
    if EditUnseen(t, u, today) {
      forall b, listed, rows | UpdatesHealthy(b, listed, rows, t, input, day, today)
        ensures var b2 := UpdateSpec(b, t.id, input, day).0;
                Healthy(b2, listed, RowsAfter(b2, listed, rows, [t, u], today), today)
      {
        IdsOf(b);
        IndexOfMember(b.txns, t);
        UpdateEdits(b, t.id, input, day, listed);
        AcceptedUpdateKeepsHistoryHealthy(b, t.id, input, day, listed, rows, today);
      }
    } else {
      var b, rows := SeenUpdate(t, input, day, today);
      assert UpdatesHealthy(b, [t.holding], rows, t, input, day, today);
    }
  }
}
