/** When the waiting queue is never used, the replay is a plain fold (the comment above settle in services/ledger.go). */
module PlainReplay {
  import opened Sequences
  import opened Ledger
  import opened ReplayOrder
  import opened ReplayState

  /** The fold a reader expects: every event has its effect when it comes. */
  function PlainFold(s: State, ts: seq<Txn>): State
    decreases |ts|
  {
    if ts == [] then s else PlainFold(Effect(s, ts[0]), ts[1..])
  }

  /** Every sell finds its shares in the plain fold. */
  predicate SellsFit(s: State, ts: seq<Txn>)
    decreases |ts|
  {
    ts == [] || (!(ts[0].kind.Sell? && ts[0].quantity > s.qty) && SellsFit(Effect(s, ts[0]), ts[1..]))
  }

  /** The queue is empty after every event. */
  predicate NeverQueues(s: State, ts: seq<Txn>)
    decreases |ts|
  {
    ts == [] || (Step(s, ts[0]).waiting == [] && NeverQueues(Step(s, ts[0]), ts[1..]))
  }

  lemma EffectIgnoresPrevious(s: State, t: Txn, p: Option<int>)
    ensures Effect(s.(previous := p), t) == Effect(s, t).(previous := p)
    ensures Effect(s, t).waiting == s.waiting
  {
    hide SellNow;
    SellIgnoresPrevious(s, t, p);
    SellKeepsQueue(s, t);
  }

  lemma {:induction false} FitIgnoresPrevious(s: State, ts: seq<Txn>, p: Option<int>)
    ensures SellsFit(s.(previous := p), ts) <==> SellsFit(s, ts)
    ensures PlainFold(s.(previous := p), ts).(previous := None) == PlainFold(s, ts).(previous := None)
    decreases |ts|
  {
    hide Effect;
    if ts != [] {
      EffectIgnoresPrevious(s, ts[0], p);
      FitIgnoresPrevious(Effect(s, ts[0]), ts[1..], p);
    }
  }

  /** The queue is never used exactly when every sell fits when it comes, and then the run is the plain fold. */
  lemma {:induction false} NeverQueuesIffSellsFit(s: State, ts: seq<Txn>)
    requires s.waiting == []
    ensures NeverQueues(s, ts) <==> SellsFit(s, ts)
    ensures NeverQueues(s, ts) ==> Run(s, ts).(previous := None) == PlainFold(s, ts).(previous := None)
    decreases |ts|
  {
    hide Effect, Step;
    if ts != [] {
      var t := ts[0];
      StepIdle(s, t);
      EffectIgnoresPrevious(s, t, Some(t.Day()));
      if !(t.kind.Sell? && t.quantity > s.qty) {
        NeverQueuesIffSellsFit(Step(s, t), ts[1..]);
        FitIgnoresPrevious(Effect(s, t), ts[1..], Some(t.Day()));
      }
    }
  }

  lemma {:induction false} FittingSellsNeverOversell(s: State, ts: seq<Txn>)
    requires SellsFit(s, ts) && s.waiting == []
    ensures PlainFold(s, ts).waiting == [] && PlainFold(s, ts).oversold == s.oversold
    decreases |ts|
  {
    if ts != [] {
      FittingSellsNeverOversell(Effect(s, ts[0]), ts[1..]);
    }
  }

  /** A ledger whose sells always fit replays to its plain fold, and is accepted. */
  lemma FittingLedgerIsThePlainFold(txns: seq<Txn>)
    requires SellsFit(START, Sort(txns))
    ensures Replay(txns) == Replayed(PositionOf(PlainFold(START, Sort(txns))), false)
  {
    hide Sort, Run, Effect, NeverQueues;
    NeverQueuesIffSellsFit(START, Sort(txns));
    FittingSellsNeverOversell(START, Sort(txns));
  }

  const SOLD_FIRST := Txn(1, 1, Sell, 0, 5.0, 100.0, 0.0, 0.0, None, "INR", 1)
  const BOUGHT_AFTER := Txn(2, 1, Buy, 0, 5.0, 50.0, 0.0, 0.0, None, "INR", 2)

  lemma SoldFirstInOrder()
    ensures Ordered([SOLD_FIRST, BOUGHT_AFTER])
  {
  }

  /** The converse fails: an accepted ledger may have used the queue, when a same-day buy covers a sell. */
  lemma AcceptedLedgerCanQueue()
    ensures exists txns: seq<Txn> :: !Replay(txns).oversold && !NeverQueues(START, Sort(txns))
  {
    hide Sort, SellNow;
    var ledger := [SOLD_FIRST, BOUGHT_AFTER];
    SoldFirstInOrder();
    SortOfOrdered(ledger);
    StepIdle(START, SOLD_FIRST);
    var s := Step(START, SOLD_FIRST);
    assert s.waiting == [SOLD_FIRST] && s.previous == Some(0);
    var bought := s.(qty := 5.0, basis := 50.0);
    assert Step(s, BOUGHT_AFTER) == Settle(bought, false);
    SettleOne(bought, SOLD_FIRST);
    SellKeepsQueue(bought, SOLD_FIRST);
    RunConcat(START, [SOLD_FIRST], [BOUGHT_AFTER]);
    RunOne(START, SOLD_FIRST);
    RunOne(s, BOUGHT_AFTER);
    assert ledger == [SOLD_FIRST] + [BOUGHT_AFTER];
    assert Run(START, ledger) == Step(s, BOUGHT_AFTER);
    assert !NeverQueues(START, Sort(ledger));
  }
}
