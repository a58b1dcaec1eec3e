/** Where a trade import without invalid rows still fails at its commit (services/trade_import.go). */
module ImportLimits {
  import opened Sequences
  import opened Money
  import opened Ledger
  import opened ReplayOrder
  import opened ReplayState
  import opened BuySafety
  import opened Book
  import opened WritePath
  import opened Imports
  import opened TradeImport

  const STORED := [HELD, SOLD, DOUBLED, LAST]
  const BUY_TWO := SheetRow(1, "X", Some(Buy), true, 2.0, 20.0, 0)
  const ROW := TradeRow(1, Buy, 2.0, 20.0, 0, 1)
  const BY_SYMBOL: map<string, nat> := map["X" := 1]

  function Added(): Txn {
    Event(ROW, 5, "INR", 10)
  }

  lemma StoredBook()
    ensures Projected(OneBook(1, STORED)) && OpeningsByUser(OneBook(1, STORED)) == map[]
  {
    hide Replay;
    WithoutExtra();
    assert IdsDistinct(STORED);
    OneBookIsProjected(1, STORED);
    assert STORED[..3] == [HELD, SOLD, DOUBLED] && STORED[..3][..2] == [HELD, SOLD] && STORED[..3][..2][..1] == [HELD];
    assert [HELD][..0] == [];
    assert OpeningOf([HELD], 1) == None;
    assert OpeningOf([HELD, SOLD], 1) == None;
    assert OpeningOf([HELD, SOLD, DOUBLED], 1) == None;
    assert OpeningOf(STORED, 1) == None;
  }

  lemma TheRowIsGood()
    ensures GoodRows([BUY_TWO], BY_SYMBOL, map[], 5) == [ROW] && !AnyInvalid([BUY_TWO], BY_SYMBOL, map[], 5)
  {
    var r := Round(2.0 * 1_000_000.0);
    var c := Round(20.0 * 100.0);
    assert r > 0 && c > 0;
    assert DayOf(0) == 0;
    assert Classify(BUY_TWO, BY_SYMBOL, map[], 5) == Good(ROW);
    assert [BUY_TWO][..0] == [];
    assert KeptRows([BUY_TWO], BY_SYMBOL, map[], 5) == KeptRows([], BY_SYMBOL, map[], 5) + [ROW] == [ROW];
    assert [ROW][1..] == [];
    assert SortByDay([ROW]) == [ROW];
  }

  lemma TheRowIsNew()
    ensures NewRows([ROW], RowKey, StoredIn(Filter(STORED, IsTrade), StoredKey)) == [ROW]
  {
    var trades := Filter(STORED, IsTrade);
    FilterMembers(STORED, IsTrade);
    var few, many := Round(2.0 * 1_000_000.0), Round(8.0 * 1_000_000.0);
    assert few < many;
    forall t | t in trades
      ensures StoredKey(t) != RowKey(ROW)
    {
      assert t == HELD || t == SOLD || t == LAST;
    }
    NoKey(trades, RowKey(ROW));
    assert [ROW][..0] == [];
    NoRows(StoredIn(trades, StoredKey));
  }

  lemma NoRows(stored: TradeKey -> nat)
    ensures NewRows([], RowKey, stored) == [] && Count<TradeRow, TradeKey>([], RowKey, RowKey(ROW)) == 0
  {
  }

  lemma NoKey(trades: seq<Txn>, k: TradeKey)
    requires forall t :: t in trades ==> StoredKey(t) != k
    ensures Count(trades, StoredKey, k) == 0
  {
    var keys := KeysOf(trades, StoredKey);
    forall i | 0 <= i < |keys|
      ensures keys[i] != k
    {
      assert trades[i] in trades;
    }
    assert k !in keys;
  }

  lemma AddedInOrder()
    ensures Ordered([HELD, Added(), SOLD, DOUBLED, LAST]) && Sort(STORED + [Added()]) == [HELD, Added(), SOLD, DOUBLED, LAST]
  {
    FourInOrder();
    SortOfOrdered(STORED);
    assert STORED + [Added()] + [] == STORED + [Added()] && STORED + [] == STORED;
    forall t | t in STORED
      ensures !Tie(t, Added())
    {
      assert t == HELD || t == SOLD || t == DOUBLED || t == LAST;
    }
    SortMiddle(STORED, Added(), []);
    assert STORED[1..] == [SOLD, DOUBLED, LAST];
    assert Insert(Added(), STORED) == [HELD] + Insert(Added(), [SOLD, DOUBLED, LAST]);
  }

  /** The two shares let the sell of ten go through before the split, and the last sell is short. */
  lemma AddedIsOversold()
    ensures Replay(STORED + [Added()]).oversold
  {
    hide Step, SellNow, Sort, Run, Ordered;
    AddedInOrder();
    var ts := [HELD, Added(), SOLD, DOUBLED, LAST];
    RunFive(ts);
    StepIdle(START, HELD);
    var s1 := Step(START, HELD);
    StepIdle(s1, Added());
    var s2 := Step(s1, Added());
    assert s2.qty == 10.0 && s2.waiting == [];
    StepIdle(s2, SOLD);
    SellKeepsQueue(s2, SOLD);
    var s3 := Step(s2, SOLD);
    assert s3.qty == 0.0 && s3.waiting == [];
    StepIdle(s3, DOUBLED);
    var s4 := Step(s3, DOUBLED);
    assert s4.qty == 0.0 && s4.waiting == [];
    StepIdle(s4, LAST);
    ShortAtTheEnd(Step(s4, LAST), LAST);
  }

  lemma ThePlan()
    ensures Plan(OneBook(1, STORED), [BUY_TWO], BY_SYMBOL, 5) == [ROW]
    ensures Events([ROW], 5, OneBook(1, STORED).holdings, 10) == [Added()]
  {
    hide Replay, GoodRows, NewRows;
    StoredBook();
    TheRowIsGood();
    TheRowIsNew();
    assert Upper("INR") == "INR";
  }

  /**
   * An import without invalid rows can fail: one new buy of two shares, a stored sell of ten that
   * waits for its day's split, and the recompute of the commit finds the ledger oversold.
   */
  lemma ValidImportCanFail()
    ensures exists b: Book, sheet: seq<SheetRow>, bySymbol: map<string, nat>, today: int, id: nat, now: int ::
              && Projected(b) && bySymbol.Values <= b.holdings.Keys && (forall t :: t in b.txns ==> t.id < id && t.createdAt < now)
              && ImportSpec(b, sheet, bySymbol, map[], today, id, now) == (b, Failed)
  {
    hide Replay, Plan, Events, AnyInvalid, LedgerOf, PositionsProjected;
    var b := OneBook(1, STORED);
    StoredBook();
    TheRowIsGood();
    ThePlan();
    AddedIsOversold();
    assert b.holdings + map[] == b.holdings;
    OneLedger(1, STORED);
    OneLedger(1, [Added()]);
    var events := Events([ROW], 5, b.holdings, 10);
    assert Oversold(b.txns, events, [ROW][0].holding);
    assert CommitFails(b, [ROW], events);
    assert !PlanInvalid(b, [BUY_TWO], BY_SYMBOL, 5, events);
    assert ImportSpec(b, [BUY_TWO], BY_SYMBOL, map[], 5, 5, 10) == (b, Failed);
    assert Projected(b) && BY_SYMBOL.Values <= b.holdings.Keys && (forall t :: t in b.txns ==> t.id < 5 && t.createdAt < 10);
  }
}
