/** What a later write undoes of an earlier one, and what a new holding shows (services/transactions.go, holdings.go). */
module UndoLaws {
  import opened Sequences
  import opened Ledger
  import opened ReplayOrder
  import opened ReplayState
  import opened Book
  import opened WritePath

  /** The book b after a write to holding hid: another collection, and at most that holding's position moved. */
  ghost predicate WrittenTo(b: Book, b2: Book, hid: nat) {
    hid in b.holdings && exists p: Position :: b2.holdings == b.holdings[hid := b.holdings[hid].(position := p)]
  }

  /** Putting the old collection back restores the positions with it. */
  lemma BackToTheOldCollection(b: Book, b2: Book, hid: nat)
    requires Projected(b) && WrittenTo(b, b2, hid)
    ensures Attempt(b2, b.txns, hid) == (b, Done)
  {
    hide Replay;
    var p: Position :| b2.holdings == b.holdings[hid := b.holdings[hid].(position := p)];
    assert ProjectedFor(b.txns, hid, b.holdings[hid]);
    assert b2.holdings[hid := b.holdings[hid]] == b.holdings;
  }

  lemma AttemptWrites(b: Book, txns: seq<Txn>, hid: nat)
    requires hid in b.holdings && Attempt(b, txns, hid).1.Done?
    ensures Attempt(b, txns, hid).0.txns == txns && WrittenTo(b, Attempt(b, txns, hid).0, hid)
    ensures Attempt(b, txns, hid).0.holdings.Keys == b.holdings.Keys
  {
    hide Replay;
    var p := Replay(LedgerOf(txns, hid)).position;
    assert Attempt(b, txns, hid).0.holdings == b.holdings[hid := b.holdings[hid].(position := p)];
  }

  lemma NewIdComesLast(txns: seq<Txn>, t: Txn)
    requires forall u :: u in txns ==> u.id != t.id
    ensures IndexOf(txns + [t], t.id) == |txns| && Without(txns + [t], |txns|) == txns
  {
    var all := txns + [t];
    assert all[|txns|] == t;
    assert forall i :: 0 <= i < |txns| ==> all[i] == txns[i] && txns[i] in txns;
  }

  /** Deleting what was just created is always accepted and restores the book exactly. */
  lemma DeleteUndoesCreate(b: Book, hid: nat, input: TxnInput, today: int, id: nat, now: int)
    requires Projected(b) && (forall t :: t in b.txns ==> t.id != id) && CreateSpec(b, hid, input, today, id, now).1.Done?
    ensures var b2 := CreateSpec(b, hid, input, today, id, now).0;
            Closed(b2) && DeleteSpec(b2, id) == (b, Done)
  {
    hide Attempt, Projected, IndexOf, Without;
    var t := FromInput(input, id, hid, LedgerCurrency(b.holdings[hid]), now);
    var b2 := CreateSpec(b, hid, input, today, id, now).0;
    AttemptWrites(b, b.txns + [t], hid);
    NewIdComesLast(b.txns, t);
    HoldingsKnown(b);
    assert forall u :: u in b2.txns ==> u in b.txns || u == t;
    BackToTheOldCollection(b, b2, hid);
  }

  lemma HoldingsKnown(b: Book)
    requires Projected(b)
    ensures forall t :: t in b.txns ==> t.holding in b.holdings
  {
  }

  lemma IndexAfterPatch(txns: seq<Txn>, i: nat, t: Txn)
    requires i < |txns| && IndexOf(txns, t.id) == i
    ensures IndexOf(txns[i := t], t.id) == i
  {
    var patched := txns[i := t];
    assert patched[i] == t;
    assert forall j :: 0 <= j < i ==> patched[j] == txns[j];
  }

  /** The last patch decides what an event says; only the declared date of an opening remembers an earlier one. */
  lemma LastPatchDecides(prev: Txn, first: TxnInput, second: TxnInput)
    requires first.kind.Some? && second.kind.Some?
    ensures Patched(Patched(prev, first), second).(openingDate := None) == Patched(prev, second).(openingDate := None)
    ensures first.kind != Some(Opening) && second.kind != Some(Opening) ==>
              Patched(Patched(prev, first), second) == Patched(prev, second)
  {
  }

  /** Updating back to what an event said is always accepted and restores the book exactly; openings aside. */
  lemma UpdateUndoesUpdate(b: Book, id: nat, input: TxnInput, back: TxnInput, today: int)
    requires Projected(b) && UpdateSpec(b, id, input, today).1.Done? && ValidInput(back, today)
    requires input.kind != Some(Opening) && back.kind != Some(Opening)
    requires Patched(b.txns[IndexOf(b.txns, id)], back) == b.txns[IndexOf(b.txns, id)]
    ensures var b2 := UpdateSpec(b, id, input, today).0;
            Closed(b2) && UpdateSpec(b2, id, back, today) == (b, Done)
  {
    hide Attempt, Projected, ProjectedFor;
    HoldingsKnown(b);
    var i := IndexOf(b.txns, id);
    var prev := b.txns[i];
    var t := Patched(prev, input);
    var b2 := UpdateSpec(b, id, input, today).0;
    assert prev in b.txns;
    AttemptWrites(b, b.txns[i := t], prev.holding);
    IndexAfterPatch(b.txns, i, t);
    LastPatchDecides(prev, input, back);
    assert b.txns[i := t][i := prev] == b.txns;
    assert forall u :: u in b.txns[i := t] ==> u in b.txns || u == t;
    BackToTheOldCollection(b, b2, prev.holding);
  }

  // ----- a new holding -----

  /** A new holding shows what was typed: its shares at the typed cost, and the profit realized before. */
  lemma NewHoldingShowsItsInput(b: Book, hid: nat, input: HoldingInput, id: nat, now: int)
    requires Projected(b) && hid !in b.holdings
    ensures hid in OpenSpec(b, hid, input, id, now).holdings
    ensures OpenSpec(b, hid, input, id, now).holdings[hid].position ==
              if OrZero(input.stocksOwned) > 0.0
              then Position(OrZero(input.stocksOwned), OrZero(input.avgCost), OrZero(input.realizedPnL), 0.0)
              else Position(0.0, 0.0, OrZero(input.realizedPnL), 0.0)
  {
    hide Replay;
    HoldingsKnown(b);
    NoLedgerBefore(b, hid);
    match OpeningEvent(input, hid, id, now) {
      case None =>
      case Some(t) =>
        LedgerConcat(b.txns, [t], hid);
        LedgerOfOne(t, hid);
        OneOpening(t);
        assert LedgerOf(b.txns + [t], hid) == [t];
        if t.quantity > 0.0 {
          CostPerShare(t.quantity, OrZero(input.avgCost));
          assert t.amount / t.quantity == OrZero(input.avgCost);
        }
    }
  }

  lemma CostPerShare(quantity: real, cost: real)
    requires quantity > 0.0
    ensures quantity * cost / quantity == cost && 0.0 / quantity == 0.0
  {
  }

  lemma OneOpening(t: Txn)
    requires t.kind.Opening?
    ensures Replay([t]).position == if t.quantity > 0.0 then Position(t.quantity, t.amount / t.quantity, t.seed, 0.0)
                                    else Position(0.0, 0.0, t.seed, 0.0)
  {
    SortOfOrdered([t]);
    RunOne(START, t);
    StepIdle(START, t);
  }

  // ----- what a rejected delete does not restore -----

  const BOUGHT := Txn(1, 1, Buy, 0, 10.0, 1000.0, 0.0, 0.0, None, "INR", 1)
  const DOUBLED := Txn(2, 1, Split, DAY, 0.0, 0.0, 2.0, 0.0, None, "INR", 2)
  const SOLD := Txn(3, 1, Sell, DAY, 10.0, 2000.0, 0.0, 0.0, None, "INR", 2)
  const LAST := Txn(4, 1, Sell, 2 * DAY, 10.0, 2000.0, 0.0, 0.0, None, "INR", 3)

  lemma SplitLedgersInOrder()
    ensures Ordered([BOUGHT, DOUBLED, SOLD, LAST]) && Ordered([BOUGHT, SOLD, DOUBLED, LAST]) && Ordered([BOUGHT, SOLD, LAST])
    ensures Tie(DOUBLED, SOLD) && Before(DOUBLED, LAST) && !Before(LAST, DOUBLED)
  {
  }

  lemma SplitFirst()
    ensures !Replay([BOUGHT, DOUBLED, SOLD, LAST]).oversold
  {
    hide Step, SellNow, Replay, Ordered;
    SplitLedgersInOrder();
    ReplayFour(BOUGHT, DOUBLED, SOLD, LAST);
    StepIdle(START, BOUGHT);
    var s1 := Step(START, BOUGHT);
    StepIdle(s1, DOUBLED);
    var s2 := Step(s1, DOUBLED);
    assert s2.qty == 20.0 && s2.waiting == [];
    StepIdle(s2, SOLD);
    SellKeepsQueue(s2, SOLD);
    var s3 := Step(s2, SOLD);
    StepIdle(s3, LAST);
    SellKeepsQueue(s3, LAST);
  }

  /** All ten shares are sold before the split: nothing is left for the last sell. */
  lemma SellFirst()
    ensures Replay([BOUGHT, SOLD, DOUBLED, LAST]).oversold && Replay([BOUGHT, SOLD, LAST]).oversold
  {
    hide Step, SellNow, Replay, Ordered;
    SplitLedgersInOrder();
    ReplayFour(BOUGHT, SOLD, DOUBLED, LAST);
    ReplayThree(BOUGHT, SOLD, LAST);
    StepIdle(START, BOUGHT);
    var s1 := Step(START, BOUGHT);
    StepIdle(s1, SOLD);
    SellKeepsQueue(s1, SOLD);
    var s2 := Step(s1, SOLD);
    assert s2.qty == 0.0 && s2.waiting == [];
    StepIdle(s2, LAST);
    ShortAtTheEnd(Step(s2, LAST), LAST);
    StepIdle(s2, DOUBLED);
    var s3 := Step(s2, DOUBLED);
    assert s3.qty == 0.0 && s3.waiting == [];
    StepIdle(s3, LAST);
    ShortAtTheEnd(Step(s3, LAST), LAST);
  }

  /**
   * The tie condition is needed. A split and a sell share a key; deleting the split is rejected, and
   * putting it back behind the sell leaves an oversold ledger, so the stored position is no replay.
   */
  lemma RejectedDeleteCanBreakTheProjection()
    ensures exists b: Book, id: nat ::
              Projected(b) && DeleteSpec(b, id).1 == Oversell && !Projected(DeleteSpec(b, id).0)
  {
    hide Replay, Sort, Projected;
    var ts := [BOUGHT, DOUBLED, SOLD, LAST];
    var b := OneBook(1, ts);
    SplitFirst();
    SellFirst();
    assert IdsDistinct(ts);
    OneBookIsProjected(1, ts);
    HoldingsKnown(b);
    assert IndexOf(ts, 2) == 1 by { assert ts[1..][0] == DOUBLED; }
    assert Without(ts, 1) == [BOUGHT, SOLD, LAST] && Moved(ts, 1) == [BOUGHT, SOLD, LAST, DOUBLED];
    OneLedger(1, [BOUGHT, SOLD, LAST]);
    OneLedger(1, [BOUGHT, SOLD, LAST, DOUBLED]);
    assert Replay([BOUGHT, SOLD, LAST, DOUBLED]).oversold by { SplitMovedBack(); }
    NotProjected(DeleteSpec(b, 2).0);
  }

  lemma SplitMovedBack()
    ensures Replay([BOUGHT, SOLD, LAST, DOUBLED]) == Replay([BOUGHT, SOLD, DOUBLED, LAST])
  {
    hide Ordered;
    SplitLedgersInOrder();
    SortOfOrdered([BOUGHT, SOLD, DOUBLED, LAST]);
    SwappedAtTheEnd(BOUGHT, SOLD, DOUBLED, LAST);
  }

  /** A last event that precedes the one before it is sorted in front of it. */
  lemma SwappedAtTheEnd(a: Txn, b: Txn, c: Txn, d: Txn)
    requires Ordered([a, b, c, d]) && Before(c, d)
    ensures Sort([a, b, d, c]) == [a, b, c, d]
  {
    hide Before;
    var ts := [a, b, d, c];
    assert ts[1..] == [b, d, c] && ts[1..][1..] == [d, c] && [d, c][1..] == [c] && [c][1..] == [];
    assert Sort([c]) == [c];
    assert Insert(d, [c]) == [c] + Insert(d, []);
    assert Sort([d, c]) == Insert(d, Sort([c])) == [c, d];
    var o := [a, b, c, d];
    assert !Before(o[2], o[1]) && !Before(o[1], o[0]);
    assert Sort([b, d, c]) == [b, c, d];
  }

  const CHEAP := Txn(1, 1, Buy, 0, 10.0, 1000.0, 0.0, 0.0, None, "INR", 1)
  const DEAR := Txn(2, 1, Buy, DAY, 10.0, 2000.0, 0.0, 0.0, None, "INR", 2)
  const SALE := Txn(3, 1, Sell, DAY, 5.0, 1000.0, 0.0, 0.0, None, "INR", 2)
  const REST := Txn(4, 1, Sell, 2 * DAY, 12.0, 2400.0, 0.0, 0.0, None, "INR", 3)

  lemma BuyLedgersInOrder()
    ensures Ordered([CHEAP, DEAR, SALE, REST]) && Ordered([CHEAP, SALE, DEAR, REST]) && Ordered([CHEAP, SALE, REST])
    ensures Tie(DEAR, SALE) && Before(DEAR, REST)
  {
  }

  lemma BoughtFirst()
    ensures Replay([CHEAP, DEAR, SALE, REST]) == Replayed(Position(3.0, 150.0, 850.0, 0.0), false)
  {
    hide Step, Replay, Ordered;
    BuyLedgersInOrder();
    ReplayFour(CHEAP, DEAR, SALE, REST);
    StepIdle(START, CHEAP);
    var s1 := Step(START, CHEAP);
    StepIdle(s1, DEAR);
    var s2 := Step(s1, DEAR);
    assert s2 == State(20.0, 3000.0, 0.0, 0, false, [], Some(1));
    StepIdle(s2, SALE);
    assert AverageCost(s2) == 150.0;
    var s3 := Step(s2, SALE);
    assert s3 == State(15.0, 2250.0, 250.0, 0, false, [], Some(1));
    StepIdle(s3, REST);
    assert AverageCost(s3) == 150.0;
    assert Step(s3, REST) == State(3.0, 450.0, 850.0, 0, false, [], Some(2));
  }

  lemma SoldFirst()
    ensures !Replay([CHEAP, SALE, DEAR, REST]).oversold
    ensures Replay([CHEAP, SALE, DEAR, REST]).position.realizedPnL == 900.0
    ensures Replay([CHEAP, SALE, REST]).oversold
  {
    hide Step, Replay, Ordered;
    BuyLedgersInOrder();
    ReplayFour(CHEAP, SALE, DEAR, REST);
    ReplayThree(CHEAP, SALE, REST);
    StepIdle(START, CHEAP);
    var s1 := Step(START, CHEAP);
    StepIdle(s1, SALE);
    assert AverageCost(s1) == 100.0;
    var s2 := Step(s1, SALE);
    assert s2 == State(5.0, 500.0, 500.0, 0, false, [], Some(1));
    StepIdle(s2, REST);
    ShortAtTheEnd(Step(s2, REST), REST);
    StepIdle(s2, DEAR);
    var s3 := Step(s2, DEAR);
    assert s3 == State(15.0, 2500.0, 500.0, 0, false, [], Some(1));
    StepIdle(s3, REST);
    assert AverageCost(s3) * 12.0 == 2000.0;
  }

  /** Even when the ledger stays accepted, a rejected delete with a tie can move the stored profit. */
  lemma RejectedDeleteCanMoveProfit()
    ensures exists b: Book, id: nat ::
              && Projected(b) && DeleteSpec(b, id).1 == Oversell && 1 in b.holdings && 1 in DeleteSpec(b, id).0.holdings
              && DeleteSpec(b, id).0.holdings[1].position.realizedPnL != b.holdings[1].position.realizedPnL
  {
    hide Replay, Sort, Projected;
    var ts := [CHEAP, DEAR, SALE, REST];
    var b := OneBook(1, ts);
    BoughtFirst();
    SoldFirst();
    assert IdsDistinct(ts);
    OneBookIsProjected(1, ts);
    HoldingsKnown(b);
    assert IndexOf(ts, 2) == 1 by { assert ts[1..][0] == DEAR; }
    assert Without(ts, 1) == [CHEAP, SALE, REST] && Moved(ts, 1) == [CHEAP, SALE, REST, DEAR];
    OneLedger(1, [CHEAP, SALE, REST]);
    OneLedger(1, [CHEAP, SALE, REST, DEAR]);
    BuyMovedBack();
    assert DeleteSpec(b, 2).0.holdings[1].position.realizedPnL == 900.0;
    assert b.holdings[1].position.realizedPnL == 850.0;
  }

  lemma BuyMovedBack()
    ensures Replay([CHEAP, SALE, REST, DEAR]) == Replay([CHEAP, SALE, DEAR, REST])
  {
    hide Ordered;
    BuyLedgersInOrder();
    SortOfOrdered([CHEAP, SALE, DEAR, REST]);
    SwappedAtTheEnd(CHEAP, SALE, DEAR, REST);
  }

  lemma NotProjected(b: Book)
    requires 1 in b.holdings && Replay(LedgerOf(b.txns, 1)).oversold
    ensures !Projected(b)
  {
  }

  lemma ReplayFour(a: Txn, b: Txn, c: Txn, d: Txn)
    requires Ordered([a, b, c, d])
    ensures Replay([a, b, c, d]) == Report(Step(Step(Step(Step(START, a), b), c), d))
  {
    hide Step;
    SortOfOrdered([a, b, c, d]);
    RunConcat(START, [a, b, c], [d]);
    RunConcat(START, [a, b], [c]);
    RunConcat(START, [a], [b]);
    assert [a, b, c] + [d] == [a, b, c, d] && [a, b] + [c] == [a, b, c] && [a] + [b] == [a, b];
    RunOne(START, a);
    RunOne(Step(START, a), b);
    RunOne(Step(Step(START, a), b), c);
    RunOne(Step(Step(Step(START, a), b), c), d);
  }

  lemma ReplayThree(a: Txn, b: Txn, c: Txn)
    requires Ordered([a, b, c])
    ensures Replay([a, b, c]) == Report(Step(Step(Step(START, a), b), c))
  {
    hide Step;
    SortOfOrdered([a, b, c]);
    RunConcat(START, [a, b], [c]);
    RunConcat(START, [a], [b]);
    assert [a, b] + [c] == [a, b, c] && [a] + [b] == [a, b];
    RunOne(START, a);
    RunOne(Step(START, a), b);
    RunOne(Step(Step(START, a), b), c);
  }
}
