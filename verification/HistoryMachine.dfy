/** Ledger and history as one machine: every write with its heal, builds of any day, row edits and the passing of days. */
module HistoryMachine {
  import opened Sequences
  import opened Ledger
  import opened ReplayOrder
  import ReplayState
  import opened AsOfReplay
  import opened Book
  import opened Snapshots
  import opened RowMachine
  import opened Heal
  import opened HistoryLaws
  import opened WritePath
  import opened HealReach
  import opened LedgerMachine
  import opened WriteHistory

  /** `stale`: the days whose rows may differ from what healing would make of them; every other row is right. */
  datatype History = History(book: Book, listed: seq<nat>, rows: map<int, Row>, today: int, stale: set<int>)

  datatype Event =
    | Write(op: Op, relisted: seq<nat>)
    | Build(day: int, carried: seq<Line>, quotes: Quotes)
    | PatchDay(day: int, regions: map<string, Typed>)
    | AddDay(day: int, regions: map<string, Typed>)
    | RemoveDay(day: int, force: bool)
    | NextDay

  // ----- the day a build is for -----

  const MINUTE := 60_000_000_000

  /** tradingDate of cmd/snapshot.go: the day in India, five and a half hours ahead, rolling over at eight in the morning. */
  function TradingDay(now: int): int {
    DayOf(now + 330 * MINUTE - 480 * MINUTE)
  }

  /** In the first two and a half hours of a day a build is for the day before; later for the day itself. */
  lemma TradingDayLags(now: int)
    ensures TradingDay(now) == if now - DayOf(now) * DAY < 150 * MINUTE then DayOf(now) - 1 else DayOf(now)
  {
    DayBounds(now);
  }

  // ----- steps -----

  /** The rows that are right. */
  function Trusted(s: History): Past {
    Past(s.book, s.listed, map d | d in s.rows && d !in s.stale :: s.rows[d], s.today)
  }

  /** A write is possible; the closes a build carries are not negative. */
  ghost predicate Possible(s: History, e: Event)
    requires Closed(s.book)
  {
    match e
    case Write(op, relisted) => Writable(Trusted(s), op, relisted)
    case Build(_, carried, _) => forall ln :: ln in carried ==> ln.closePrice >= 0.0
    case _ => true
  }

  /** The days of the rows that store lines; no other row can be stale. */
  function LinedDays(rows: map<int, Row>): set<int> {
    set d | d in rows && rows[d].lines.Some?
  }

  function HealedDays(rows: map<int, Row>, events: seq<Txn>, today: int): set<int> {
    var from := HealFrom(events);
    set d | d in rows && from.Some? && from.value < today && from.value <= d <= today
  }

  /** Days of today or later: a write dated today is not healed into their rows. */
  function DaysFrom(rows: map<int, Row>, today: int): set<int> {
    set d | d in LinedDays(rows) && d >= today
  }

  /** No two holdings share a symbol before or after the write, and it is harmless to the rows that are right. */
  ghost predicate Clean(s: History, op: Op, relisted: seq<nat>)
    requires Catalogued(s.book, s.listed) && Closed(s.book) && Writable(Trusted(s), op, relisted)
  {
    SymbolsDistinct(s.book, s.listed) && Harmless(Trusted(s), op, relisted)
  }

  /**
   * Which rows may be wrong after a write. A write that moves no place changes none. A clean one can touch rows of
   * today or later; any other may touch every row with lines. What is healed is right, if no symbol is shared.
   */
  ghost function StaleAfter(s: History, op: Op, relisted: seq<nat>): set<int>
    requires Catalogued(s.book, s.listed) && Closed(s.book) && Writable(Trusted(s), op, relisted)
  {
    var b2, events := Apply(s.book, op), HealedFor(s.book, op);
    if KeepsPlaces(s.book, op) || (b2 == s.book && relisted == s.listed && events == []) then s.stale
    else if Clean(s, op, relisted) then s.stale + DaysFrom(s.rows, s.today) - HealedDays(s.rows, events, s.today)
    else if SymbolsDistinct(b2, relisted) then LinedDays(s.rows) - HealedDays(s.rows, events, s.today)
    else LinedDays(s.rows)
  }

  ghost function Next(s: History, e: Event): History
    requires Catalogued(s.book, s.listed) && Closed(s.book) && Possible(s, e)
  {
    match e
    case Write(op, relisted) =>
      var b2 := Apply(s.book, op);
      History(b2, relisted, RowsAfter(b2, relisted, s.rows, HealedFor(s.book, op), s.today), s.today,
              StaleAfter(s, op, relisted))
    case Build(day, carried, quotes) =>
      var built := CronRow(BuiltLines(s.book, s.listed, carried, quotes, day));
      s.(rows := s.rows[day := Upserted(RowAt(s.rows, day), built)],
         stale := if PlacesCurrent(s.book, s.listed, day) then s.stale - {day} else s.stale + {day})
    case PatchDay(day, regions) =>
      if day > s.today || !ValidRegions(regions) || day !in s.rows then s
      else s.(rows := s.rows[day := PatchedRow(s.rows[day], regions)])
    case AddDay(day, regions) =>
      if day > s.today || !ValidRegions(regions) || day in s.rows then s
      else s.(rows := s.rows[day := AddedRow(regions)], stale := s.stale - {day})
    case RemoveDay(day, force) =>
      if day in s.rows && (force || !HasCron(s.rows[day])) then s.(rows := s.rows - {day}) else s
    case NextDay => s.(today := s.today + 1)
  }

  ghost predicate RowRight(b: Book, listed: seq<nat>, rows: map<int, Row>, day: int)
    requires Listed(b, listed)
  {
    day in rows ==> HealedRow(b, listed, rows[day], day) == rows[day]
  }

  /** Positions are projected, and every row not marked is what healing it now would make of it. */
  ghost predicate Kept(s: History) {
    && Projected(s.book) && Catalogued(s.book, s.listed)
    && forall d :: d !in s.stale ==> RowRight(s.book, s.listed, s.rows, d)
  }

  // ----- what a step keeps -----

  lemma HealedRowIsRight(b: Book, listed: seq<nat>, rows: map<int, Row>, events: seq<Txn>, today: int, d: int)
    requires Listed(b, listed) && SymbolsDistinct(b, listed) && d in HealedDays(rows, events, today)
    ensures RowRight(b, listed, RowsAfter(b, listed, rows, events, today), d)
  {
    hide HealedRow, HealFrom;
    HealIsIdempotent(b, listed, rows[d], d);
  }

  lemma UnlinedRowIsRight(b: Book, listed: seq<nat>, rows: map<int, Row>, events: seq<Txn>, today: int, d: int)
    requires Listed(b, listed) && d !in LinedDays(rows)
    ensures RowRight(b, listed, RowsAfter(b, listed, rows, events, today), d)
  {
  }

  /** Each row is healed on its own: a right row of the past stays right among whatever others. */
  lemma TrustedRowIsRight(s: History, b2: Book, relisted: seq<nat>, events: seq<Txn>, d: int)
    requires Listed(b2, relisted) && d !in s.stale && d < s.today
    requires Healthy(b2, relisted, RowsAfter(b2, relisted, Trusted(s).rows, events, s.today), s.today)
    ensures RowRight(b2, relisted, RowsAfter(b2, relisted, s.rows, events, s.today), d)
  {
    hide HealedRow, HealFrom;
    if d in s.rows {
      assert d in RowsAfter(b2, relisted, Trusted(s).rows, events, s.today);
    }
  }

  lemma TrustedIsHealthy(s: History)
    requires Kept(s)
    ensures Healthy(s.book, s.listed, Trusted(s).rows, s.today)
  {
    hide HealedRow;
    var rows := Trusted(s).rows;
    forall d | d in rows && d < s.today
      ensures HealedRow(s.book, s.listed, rows[d], d) == rows[d]
    {
      assert RowRight(s.book, s.listed, s.rows, d);
    }
  }

  lemma PlaceKeepingRow(s: History, op: Op, relisted: seq<nat>, d: int)
    requires Kept(s) && Possible(s, Write(op, relisted)) && KeepsPlaces(s.book, op) && d !in s.stale
    ensures var n := Next(s, Write(op, relisted)); RowRight(n.book, n.listed, n.rows, d)
  {
    hide HealedRow, PositionsProjected, DeleteSpec, SamePlaces;
    PlaceKeepingWrite(Trusted(s), op, relisted);
    NothingHealed(Apply(s.book, op), relisted, s.rows, s.today);
    assert RowRight(s.book, s.listed, s.rows, d);
    if d in s.rows {
      RowUnmoved(s.book, Apply(s.book, op), s.listed, s.rows[d], d);
    }
  }

  lemma UnmarkedRow(s: History, op: Op, relisted: seq<nat>, d: int)
    requires Kept(s) && Possible(s, Write(op, relisted)) && d !in StaleAfter(s, op, relisted)
    ensures var n := Next(s, Write(op, relisted)); RowRight(n.book, n.listed, n.rows, d)
  {
    hide HealedRow, PositionsProjected, Apply, HealedFor, Harmless, NewSymbols, RowsAfter, SymbolsDistinct;
    var b2, events := Apply(s.book, op), HealedFor(s.book, op);
    if KeepsPlaces(s.book, op) {
      PlaceKeepingRow(s, op, relisted, d);
    } else if b2 == s.book && relisted == s.listed && events == [] {
      NothingHealed(b2, relisted, s.rows, s.today);
      assert RowRight(s.book, s.listed, s.rows, d);
    } else if d !in LinedDays(s.rows) {
      UnlinedRowIsRight(b2, relisted, s.rows, events, s.today, d);
    } else if d in HealedDays(s.rows, events, s.today) {
      if Clean(s, op, relisted) {
        HarmlessIsDistinct(Trusted(s), op, relisted);
      }
      HealedRowIsRight(b2, relisted, s.rows, events, s.today, d);
    } else {
      TrustedIsHealthy(s);
      HarmlessWriteKeepsHistory(Trusted(s), op, relisted);
      TrustedRowIsRight(s, b2, relisted, events, d);
    }
  }

  lemma HarmlessIsDistinct(p: Past, op: Op, relisted: seq<nat>)
    requires Catalogued(p.book, p.listed) && Closed(p.book) && Writable(p, op, relisted)
    requires Harmless(p, op, relisted)
    ensures SymbolsDistinct(Apply(p.book, op), relisted)
  {
  }

  lemma OverridesAreManual(row: Row, regions: map<string, Typed>)
    ensures forall k :: k in Overrides(row, regions) ==> Overrides(row, regions)[k].source.Manual?
  {
  }

  lemma MergedKeepsManual(buckets: map<string, Bucket>, manual: map<string, Bucket>, incoming: map<string, Bucket>)
    requires Merged(buckets, incoming) == buckets && forall k :: k in manual ==> manual[k].source.Manual?
    ensures Merged(buckets + manual, incoming) == buckets + manual
  {
  }

  lemma PatchKeepsRight(b: Book, listed: seq<nat>, row: Row, regions: map<string, Typed>, day: int)
    requires Listed(b, listed) && HealedRow(b, listed, row, day) == row
    ensures HealedRow(b, listed, PatchedRow(row, regions), day) == PatchedRow(row, regions)
  {
    hide BucketsOf, LinesAsOf, Overrides, Merged;
    if row.lines.Some? {
      var lines := LinesAsOf(b, listed, row.lines.value, day);
      OverridesAreManual(row, regions);
      MergedKeepsManual(row.buckets, Overrides(row, regions), BucketsOf(lines));
    }
  }

  /** After a build its row is right exactly when it is not marked. */
  lemma BuiltRowIff(s: History, day: int, carried: seq<Line>, quotes: Quotes)
    requires Kept(s) && Possible(s, Build(day, carried, quotes))
    ensures var n := Next(s, Build(day, carried, quotes));
            && (RowRight(n.book, n.listed, n.rows, day) <==> PlacesCurrent(s.book, s.listed, day))
            && (day !in n.stale <==> PlacesCurrent(s.book, s.listed, day))
  {
    hide HealedRow, BuiltLines, PlacesCurrent, PositionsProjected;
    var built := CronRow(BuiltLines(s.book, s.listed, carried, quotes, day));
    HealAfterBuildIsIdentityIff(s.book, s.listed, carried, quotes, day, RowAt(s.rows, day), built);
  }

  lemma EditedRow(s: History, e: Event, d: int)
    requires Kept(s) && (e.PatchDay? || e.AddDay? || e.RemoveDay?) && d !in Next(s, e).stale
    ensures var n := Next(s, e); RowRight(n.book, n.listed, n.rows, d)
  {
    hide HealedRow, PositionsProjected, Overrides;
    if d !in s.stale {
      assert RowRight(s.book, s.listed, s.rows, d);
    }
    match e
    case PatchDay(day, regions) =>
      if d == day && d in s.rows {
        PatchKeepsRight(s.book, s.listed, s.rows[day], regions, day);
      }
    case AddDay(day, regions) => HealedWithoutLines(s.book, s.listed, AddedRow(regions), day);
    case RemoveDay(_, _) =>
  }

  lemma HealedWithoutLines(b: Book, listed: seq<nat>, row: Row, day: int)
    requires Listed(b, listed) && row.lines.None?
    ensures HealedRow(b, listed, row, day) == row
  {
  }

  lemma StepKeepsHistory(s: History, e: Event)
    requires Kept(s) && Possible(s, e)
    ensures Kept(Next(s, e))
  {
    hide HealedRow, PositionsProjected, Apply, Enabled, HealedFor, RowsAfter;
    hide BuiltLines, BucketsOf, StaleAfter, PlacesCurrent;
    var n := Next(s, e);
    if e.Write? {
      StepKeepsProjection(s.book, e.op);
    }
    forall d | d !in n.stale
      ensures RowRight(n.book, n.listed, n.rows, d)
    {
      if e.Write? {
        UnmarkedRow(s, e.op, e.relisted, d);
      } else if e.Build? && d == e.day {
        BuiltRowIff(s, e.day, e.carried, e.quotes);
      } else if e.Build? || e.NextDay? {
        assert RowRight(s.book, s.listed, s.rows, d);
      } else {
        EditedRow(s, e, d);
      }
    }
  }

  // ----- runs -----

  ghost predicate IsHistoryRun(states: seq<History>, events: seq<Event>) {
    && |states| == |events| + 1
    && states[0].book == Book([], map[]) && states[0].listed == [] && states[0].rows == map[] && states[0].stale == {}
    && forall i :: 0 <= i < |events| ==>
         && Catalogued(states[i].book, states[i].listed) && Closed(states[i].book) && Possible(states[i], events[i])
         && states[i + 1] == Next(states[i], events[i])
  }

  /** However long the run, and whatever its steps: positions are projected, and every row not marked stale is right. */
  lemma {:induction false} EveryRunKeepsHistory(states: seq<History>, events: seq<Event>, i: nat)
    requires IsHistoryRun(states, events) && i < |states|
    ensures Kept(states[i])
  {
    hide Next, Possible;
    if i > 0 {
      EveryRunKeepsHistory(states, events, i - 1);
      assert states[i - 1 + 1] == Next(states[i - 1], events[i - 1]);
      StepKeepsHistory(states[i - 1], events[i - 1]);
    } else {
      EmptyBookIsProjected();
    }
  }

  /**
   * A portfolio kept on time: every write is clean, a new day starts with the build of the day before,
   * and a build of a past day finds every tracked holding where it stood at the end of that day.
   */
  ghost predicate Punctual(states: seq<History>, events: seq<Event>)
    requires IsHistoryRun(states, events)
  {
    forall i :: 0 <= i < |events| ==>
      && (events[i].Write? ==>
            KeepsPlaces(states[i].book, events[i].op) || Clean(states[i], events[i].op, events[i].relisted))
      && (events[i].Build? && events[i].day < states[i].today ==>
            PlacesCurrent(states[i].book, states[i].listed, events[i].day))
      && (i > 0 && events[i - 1].NextDay? ==> events[i].Build? && events[i].day == states[i].today - 1)
  }

  /** The days before today whose rows may be wrong. */
  function Behind(s: History): set<int> {
    set d | d in s.stale && d < s.today
  }

  /** In such a run no past row is ever wrong, but yesterday's between midnight and its build. */
  lemma {:induction false} PunctualRunsKeepThePast(states: seq<History>, events: seq<Event>, i: nat)
    requires IsHistoryRun(states, events) && Punctual(states, events) && i < |states|
    ensures Behind(states[i]) <= if i > 0 && events[i - 1].NextDay? then {states[i].today - 1} else {}
  {
    hide PlacesCurrent, Clean, Apply, HealedFor, RowsAfter, BuiltLines, Enabled;
    if i > 0 {
      PunctualRunsKeepThePast(states, events, i - 1);
      assert states[i - 1 + 1] == Next(states[i - 1], events[i - 1]);
      if events[i - 1].Write? {
        WriteKeepsThePast(states[i - 1], events[i - 1].op, events[i - 1].relisted);
      }
    }
  }

  lemma WriteKeepsThePast(s: History, op: Op, relisted: seq<nat>)
    requires Catalogued(s.book, s.listed) && Closed(s.book) && Writable(Trusted(s), op, relisted)
    requires KeepsPlaces(s.book, op) || Clean(s, op, relisted)
    ensures Behind(Next(s, Write(op, relisted))) <= Behind(s)
  {
    hide Clean, Apply, HealedFor, RowsAfter, HealedDays, LinedDays;
  }

  // ----- writes and builds around midnight -----

  lemma FirstBuy(t: Txn)
    requires t.kind.Buy? && t.quantity > 0.0
    ensures AsOfPosition([t], t.holding, t.Day()).stocksOwned == Replay([t]).position.stocksOwned == t.quantity
    ensures AsOfPosition([t], t.holding, t.Day() - 1).stocksOwned == 0.0 && !Replay([t]).oversold
  {
    OneLedger(t.holding, [t]);
    DayBounds(t.date);
    assert AsOf([t], EndOf(t.Day())) == [t];
    assert AsOf([t], EndOf(t.Day() - 1)) == [];
    assert Sort([]) == [];
    SortOfOrdered([t]);
    ReplayState.RunOne(START, t);
    ReplayState.StepIdle(START, t);
  }

  lemma LoneHoldingIsKept(today: int) returns (s: History)
    ensures s == History(OneBook(1, []), [1], map[], today, {}) && Kept(s)
    ensures s.book.holdings.Keys == {1} && s.book.txns == [] && s.book.holdings[1].currency == "INR"
    ensures forall day :: NothingAfter(s.book, s.listed, day)
  {
    hide Replay;
    s := History(OneBook(1, []), [1], map[], today, {});
    OneOpeningIsAccepted(Txn(0, 0, Opening, 0, 0.0, 0.0, 0.0, 0.0, None, "", 0));
    OneBookIsProjected(1, []);
    LoneHolding(s.book, 1);
  }

  function BuyOp(input: TxnInput, day: int): Event {
    Write(CreateOp(1, input, day, 1, 0), [1])
  }

  /** The first buy of the lone holding, dated today: accepted, and healed into no row. */
  lemma BuyDatedToday(s: History, input: TxnInput)
    requires Kept(s) && s.book == OneBook(1, []) && s.listed == [1]
    requires input.kind == Some(Buy) && ValidInput(input, s.today) && DayOf(input.date) == s.today
    ensures var buy := BuyOp(input, s.today);
            Possible(s, buy) && Kept(Next(s, buy)) && Next(s, buy).rows == s.rows && Next(s, buy).today == s.today
    ensures var b2 := Next(s, BuyOp(input, s.today)).book;
            && b2.txns == [FromInput(input, 1, 1, "INR", 0)] && b2.holdings.Keys == {1} && b2.holdings[1].currency == "INR"
            && b2.holdings[1].position.stocksOwned > 0.0 && Next(s, BuyOp(input, s.today)).listed == [1]
    ensures Tracked(Next(s, BuyOp(input, s.today)).book, 1)
  {
    hide Replay, HealedRow, LedgerOf, AsOfPosition, PositionsProjected, StaleAfter;
    TrackedStock(s.book, 1);
    var t := FromInput(input, 1, 1, "INR", 0);
    FirstBuy(t);
    OneLedger(1, [t]);
    assert [] + [t] == [t];
    var b2 := CreateSpec(s.book, 1, input, s.today, 1, 0).0;
    assert b2.txns == [t];
    SameHeld(s.book, b2, [1]);
    TrackedStock(b2, 1);
    assert HealedFor(s.book, BuyOp(input, s.today).op) == [t];
    assert [t][1..] == [] && HealFrom([t]) == Some(s.today);
    StepKeepsHistory(s, BuyOp(input, s.today));
  }

  lemma SameHeld(b: Book, b2: Book, listed: seq<nat>)
    requires b.holdings.Keys == b2.holdings.Keys && forall hid: nat :: hid in listed <==> hid in b2.holdings
    ensures Filter(listed, IsHeldIn(b)) == Filter(listed, IsHeldIn(b2))
  {
    FilterAll(listed, IsHeldIn(b));
    FilterAll(listed, IsHeldIn(b2));
  }

  lemma BuiltState(s: History, day: int, quotes: Quotes)
    requires Kept(s) && PlacesCurrent(s.book, s.listed, day)
    ensures var n := Next(s, Build(day, [], quotes));
            && n.book == s.book && n.listed == s.listed && n.today == s.today && n.stale == s.stale - {day}
            && n.rows.Keys == s.rows.Keys + {day} && n.rows[day].lines.Some?
  {
    hide PositionsProjected, HealedRow, PlacesCurrent;
  }

  lemma MidnightState(s: History)
    requires Kept(s)
    ensures Next(s, NextDay) == s.(today := s.today + 1)
  {
    hide PositionsProjected, HealedRow;
  }

  lemma NothingAfterTheBuy(b: Book, t: Txn)
    requires b.txns == [t] && t.kind.Buy?
    ensures NothingAfter(b, [1], t.Day())
  {
    DayBounds(t.date);
  }

  lemma BuyMakesTheRowWrong(s: History, input: TxnInput)
    requires Kept(s) && s.book == OneBook(1, []) && s.listed == [1]
    requires input.kind == Some(Buy) && ValidInput(input, s.today) && DayOf(input.date) == s.today
    requires s.today in s.rows && s.rows[s.today].lines.Some? && RowRight(s.book, s.listed, s.rows, s.today)
    ensures Possible(s, BuyOp(input, s.today)) && Kept(Next(s, BuyOp(input, s.today)))
    ensures var n := Next(s, BuyOp(input, s.today)); !RowRight(n.book, n.listed, n.rows, s.today)
  {
    hide Replay, HealedRow, AsOfPosition, PositionsProjected, Next;
    BuyDatedToday(s, input);
    var n, row := Next(s, BuyOp(input, s.today)), s.rows[s.today];
    FirstBuy(FromInput(input, 1, 1, "INR", 0));
    NoPosition(1, s.today);
    OneHoldingLine(s.book, 1, row, s.today);
    OneHoldingLine(n.book, 1, row, s.today);
  }

  /** The write marks the row of its own day and no other past one. */
  lemma BuyMarksToday(s: History, input: TxnInput)
    requires Kept(s) && s.book == OneBook(1, []) && s.listed == [1] && s.stale == {} && s.rows.Keys == {s.today}
    requires input.kind == Some(Buy) && ValidInput(input, s.today) && DayOf(input.date) == s.today
    requires s.rows[s.today].lines.Some?
    ensures Possible(s, BuyOp(input, s.today)) && Next(s, BuyOp(input, s.today)).stale == {s.today}
  {
    hide Replay, HealedRow, PositionsProjected;
    BuyDatedToday(s, input);
    var t := FromInput(input, 1, 1, "INR", 0);
    var b2 := Next(s, BuyOp(input, s.today)).book;
    assert HealedFor(s.book, BuyOp(input, s.today).op) == [t];
    assert [t][1..] == [] && HealFrom([t]) == Some(s.today);
    assert SymbolsDistinct(s.book, [1]) && SymbolsDistinct(b2, [1]);
    assert LinedDays(s.rows) == {s.today} && HealedDays(s.rows, [t], s.today) == {};
  }

  /** A buy dated today, written after today's row was built, leaves the row wrong: it is healed into no row. */
  lemma TodaysBuyIsMissed(input: TxnInput, today: int, quotes: Quotes) returns (built: History, written: History)
    requires input.kind == Some(Buy) && ValidInput(input, today) && DayOf(input.date) == today
    ensures Kept(built) && built.today == today && today in built.rows && RowRight(built.book, built.listed, built.rows, today)
    ensures Possible(built, BuyOp(input, today)) && written == Next(built, BuyOp(input, today))
    ensures Kept(written) && written.rows == built.rows && !RowRight(written.book, written.listed, written.rows, today)
    ensures written.today == today && written.stale == {today} && written.listed == [1]
    ensures written.book.txns == [FromInput(input, 1, 1, "INR", 0)]
  {
    hide Replay, HealedRow, AsOfPosition, BuiltLines, PositionsProjected, Next, PlacesCurrent;
    var s := LoneHoldingIsKept(today);
    NothingAfterIsCurrent(s.book, s.listed, today);
    StepKeepsHistory(s, Build(today, [], quotes));
    BuiltRowIff(s, today, [], quotes);
    built := Next(s, Build(today, [], quotes));
    BuiltState(s, today, quotes);
    BuyDatedToday(built, input);
    written := Next(built, BuyOp(input, today));
    BuyMakesTheRowWrong(built, input);
    BuyMarksToday(built, input);
  }

  /** Such a row is wrong as the next day begins. The build after midnight, which is for that same day, puts it right. */
  lemma TheBuildRepairsIt(written: History, input: TxnInput, quotes: Quotes) returns (midnight: History, repaired: History)
    requires Kept(written) && written.stale == {written.today} && written.listed == [1]
    requires input.kind == Some(Buy) && DayOf(input.date) == written.today
    requires written.book.txns == [FromInput(input, 1, 1, "INR", 0)]
    ensures midnight == Next(written, NextDay) && Behind(midnight) == {written.today} && Kept(midnight)
    ensures Possible(midnight, Build(written.today, [], quotes)) && repaired == Next(midnight, Build(written.today, [], quotes))
    ensures Kept(repaired) && RowRight(repaired.book, repaired.listed, repaired.rows, written.today) && Behind(repaired) == {}
  {
    hide Replay, HealedRow, AsOfPosition, BuiltLines, PositionsProjected, Next, PlacesCurrent;
    var day := written.today;
    StepKeepsHistory(written, NextDay);
    MidnightState(written);
    midnight := Next(written, NextDay);
    NothingAfterTheBuy(written.book, FromInput(input, 1, 1, "INR", 0));
    NothingAfterIsCurrent(midnight.book, midnight.listed, day);
    StepKeepsHistory(midnight, Build(day, [], quotes));
    BuiltRowIff(midnight, day, [], quotes);
    repaired := Next(midnight, Build(day, [], quotes));
    BuiltState(midnight, day, quotes);
  }

  /**
   * But a buy dated today that is written before the build of yesterday's row leaves that row wrong: the build
   * values the positions stored at the moment, and the write's own heal has already passed.
   */
  lemma EarlyBuySpoilsTheBuild(input: TxnInput, today: int, quotes: Quotes) returns (written: History, built: History)
    requires input.kind == Some(Buy) && ValidInput(input, today) && DayOf(input.date) == today
    ensures Kept(written) && written.today == today && written.rows == map[]
    ensures Possible(written, Build(today - 1, [], quotes)) && built == Next(written, Build(today - 1, [], quotes))
    ensures Kept(built) && !RowRight(built.book, built.listed, built.rows, today - 1) && today - 1 in Behind(built)
  {
    hide Replay, HealedRow, AsOfPosition, BuiltLines, PositionsProjected, Next;
    var s := LoneHoldingIsKept(today);
    BuyDatedToday(s, input);
    written := Next(s, BuyOp(input, today));
    FirstBuy(FromInput(input, 1, 1, "INR", 0));
    assert !PlacesCurrent(written.book, written.listed, today - 1);
    BuiltRowIff(written, today - 1, [], quotes);
    StepKeepsHistory(written, Build(today - 1, [], quotes));
    built := Next(written, Build(today - 1, [], quotes));
    SpoiltState(written, today - 1, quotes);
  }

  lemma SpoiltState(s: History, day: int, quotes: Quotes)
    requires Kept(s) && !PlacesCurrent(s.book, s.listed, day)
    ensures var n := Next(s, Build(day, [], quotes)); n.today == s.today && day in n.stale
  {
    hide PositionsProjected, HealedRow, PlacesCurrent;
  }
}
