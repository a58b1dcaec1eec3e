/** Openings without shares move profit only: no history line can see them. */
module EmptyOpenings {
  import opened Sequences
  import opened Ledger
  import opened Erasure
  import opened Conservation

  /** The same state with the profit moved. */
  function Richer(s: State, c: real): State {
    s.(realized := s.realized + c)
  }

  lemma SellRicher(s: State, t: Txn, c: real)
    ensures SellNow(Richer(s, c), t) == Richer(SellNow(s, t), c)
  {
  }

  lemma {:induction false} SettleRicher(s: State, endOfDay: bool, c: real)
    ensures Settle(Richer(s, c), endOfDay) == Richer(Settle(s, endOfDay), c)
    decreases |s.waiting|
  {
    hide SellNow;
    if s.waiting != [] && (endOfDay || s.waiting[0].quantity <= s.qty) {
      SellRicher(s, s.waiting[0], c);
      SettleRicher(SellNow(s, s.waiting[0]).(waiting := s.waiting[1..]), endOfDay, c);
    }
  }

  lemma WithinRicher(s: State, t: Txn, c: real)
    ensures Within(Richer(s, c), t) == Richer(Within(s, t), c)
  {
    hide SellNow, Settle;
    SellRicher(s, t, c);
    SettleRicher(Effect(s, t), false, c);
    assert Effect(Richer(s, c), t) == Richer(Effect(s, t), c);
  }

  lemma {:induction false} RunRicher(s: State, ts: seq<Txn>, c: real)
    ensures Run(Richer(s, c), ts) == Richer(Run(s, ts), c)
    decreases |ts|
  {
    hide SellNow, Settle, Within;
    if ts != [] {
      var d := ts[0].Day();
      SettleRicher(s, true, c);
      assert EnterDay(Richer(s, c), d) == Richer(EnterDay(s, d), c);
      WithinRicher(EnterDay(s, d), ts[0], c);
      RunRicher(Step(s, ts[0]), ts[1..], c);
    }
  }

  /** All a history line shows of a position. */
  predicate SamePlace(p: Position, q: Position) {
    p.stocksOwned == q.stocksOwned && p.avgCost == q.avgCost
  }

  lemma ReportRicher(s: State, ts: seq<Txn>, c: real)
    ensures SamePlace(Report(Run(Richer(s, c), ts)).position, Report(Run(s, ts)).position)
  {
    hide Run, Settle;
    RunRicher(s, ts, c);
    SettleRicher(Run(s, ts), true, c);
  }

  predicate HoldsShares(t: Txn) {
    !(t.kind.Opening? && t.quantity <= 0.0)
  }

  /** The events a history line can depend on. */
  predicate Counts(t: Txn) {
    Active(t) && HoldsShares(t)
  }

  lemma EmptyOpeningsAreErasable(txns: seq<Txn>)
    ensures SamePlace(Replay(txns).position, Replay(Filter(txns, HoldsShares)).position)
  {
    hide Report, Run, Sort;
    var kept := Filter(txns, HoldsShares);
    ReplayStartsFromBaseline(txns);
    ReplayStartsFromBaseline(kept);
    SumOfFiltered(txns, HoldsShares, OpenedQty);
    SumOfFiltered(txns, HoldsShares, OpenedCost);
    FilterTwice(txns, HoldsShares, NotOpening);
    FilterCongruence(txns, Both(HoldsShares, NotOpening), NotOpening);
    var s := Baseline(kept);
    assert Baseline(txns) == Richer(s, Baseline(txns).realized - s.realized);
    ReportRicher(s, Sort(Filter(txns, NotOpening)), Baseline(txns).realized - s.realized);
  }

  lemma OnlyCountingEventsPlace(txns: seq<Txn>)
    ensures SamePlace(Replay(txns).position, Replay(Filter(txns, Counts)).position)
  {
    hide Replay;
    DividendsAndMergersAreErasable(txns);
    EmptyOpeningsAreErasable(Filter(txns, Active));
    FilterTwice(txns, Active, HoldsShares);
    FilterCongruence(txns, Both(Active, HoldsShares), Counts);
  }

  /** Ledgers with the same counting events place a holding alike. */
  lemma SameCountingSamePlace(xs: seq<Txn>, ys: seq<Txn>)
    requires Filter(xs, Counts) == Filter(ys, Counts)
    ensures SamePlace(Replay(xs).position, Replay(ys).position)
  {
    hide Replay;
    OnlyCountingEventsPlace(xs);
    OnlyCountingEventsPlace(ys);
  }
}
