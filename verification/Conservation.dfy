/** Where the money of a ledger goes, and which events need no order at all. */
module Conservation {
  import opened Sequences
  import opened Ledger
  import opened ReplayOrder
  import opened ReplayState

  /** Cost of the openings and buys the replay counts. */
  function Spent(t: Txn): real {
    if (t.kind.Opening? || t.kind.Buy?) && t.quantity > 0.0 then t.amount else 0.0
  }

  function Credited(t: Txn): real {
    if t.kind.Sell? then t.amount else 0.0
  }

  function Seeded(t: Txn): real {
    if t.kind.Opening? then t.seed else 0.0
  }

  function Flow(t: Txn): real {
    Credited(t) + Seeded(t) - Spent(t)
  }

  function AmountOf(t: Txn): real { t.amount }

  /** Profit less basis, with the credit of the sells still waiting. */
  function Cash(s: State): real {
    s.realized - s.basis + Sum(s.waiting, AmountOf)
  }

  lemma {:induction false} SettleKeepsCash(s: State, endOfDay: bool)
    ensures Cash(Settle(s, endOfDay)) == Cash(s)
    decreases |s.waiting|
  {
    if s.waiting != [] && (endOfDay || s.waiting[0].quantity <= s.qty) {
      var next := SellNow(s, s.waiting[0]).(waiting := s.waiting[1..]);
      assert Cash(next) == Cash(s);
      SettleKeepsCash(next, endOfDay);
    }
  }

  lemma WithinMovesCash(s: State, t: Txn)
    ensures Cash(Within(s, t)) == Cash(s) + Flow(t)
  {
    if t.kind.Sell? && t.quantity > s.qty {
      SumConcat(s.waiting, [t], AmountOf);
    } else {
      assert Cash(Effect(s, t)) == Cash(s) + Flow(t);
      SettleKeepsCash(Effect(s, t), false);
    }
  }

  lemma {:induction false} RunMovesCash(s: State, ts: seq<Txn>)
    ensures Cash(Run(s, ts)) == Cash(s) + Sum(ts, Flow)
    decreases |ts|
  {
    if ts != [] {
      SettleKeepsCash(s, true);
      WithinMovesCash(EnterDay(s, ts[0].Day()), ts[0]);
      RunMovesCash(Step(s, ts[0]), ts[1..]);
    }
  }

  lemma {:induction false} FlowSplits(ts: seq<Txn>)
    ensures Sum(ts, Flow) == Sum(ts, Credited) + Sum(ts, Seeded) - Sum(ts, Spent)
  {
    if ts != [] {
      FlowSplits(ts[1..]);
    }
  }

  lemma BasisIsSharesAtAverage(s: State)
    requires Solvent(s)
    ensures s.qty * AverageCost(s) == s.basis
  {
  }

  /**
   * Cash conservation, for every ledger, oversold or not: realized profit plus the cost of
   * what was counted in equals the sell credits, the seeds and the shares left at average cost.
   */
  lemma CashIsConserved(txns: seq<Txn>)
    ensures var p := Replay(txns).position;
            p.realizedPnL + Sum(txns, Spent)
              == Sum(txns, Credited) + Sum(txns, Seeded) + p.stocksOwned * p.avgCost
  {
    var s := Run(START, Sort(txns));
    var done := Settle(s, true);
    assert Cash(done) == Sum(txns, Flow) by {
      RunMovesCash(START, Sort(txns));
      SettleKeepsCash(s, true);
      SortOrders(txns);
      SumOfPermutation(Sort(txns), txns, Flow);
    }
    assert Solvent(done) && done.waiting == [] by {
      RunKeepsSound(START, Sort(txns));
      SettleKeepsSolvent(s, true);
    }
    BasisIsSharesAtAverage(done);
    FlowSplits(txns);
  }

  /** What a position can and cannot be, on any ledger at all. */
  lemma PositionsAreSolvent(txns: seq<Txn>)
    ensures var p := Replay(txns).position;
            p.stocksOwned >= 0.0 && (p.stocksOwned == 0.0 ==> p.avgCost == 0.0)
  {
    RunKeepsSound(START, Sort(txns));
    SettleKeepsSolvent(Run(START, Sort(txns)), true);
  }

  // ----- openings -----

  function OpenedQty(t: Txn): real {
    if t.kind.Opening? && t.quantity > 0.0 then t.quantity else 0.0
  }

  function OpenedCost(t: Txn): real {
    if t.kind.Opening? && t.quantity > 0.0 then t.amount else 0.0
  }

  predicate NotOpening(t: Txn) { !t.kind.Opening? }

  predicate IsOpening(t: Txn) { t.kind.Opening? }

  /** The baseline the openings leave, in whatever order. */
  function Baseline(txns: seq<Txn>): State {
    START.(qty := Sum(txns, OpenedQty), basis := Sum(txns, OpenedCost), realized := Sum(txns, Seeded))
  }

  lemma {:induction false} RunOpenings(s: State, ts: seq<Txn>)
    requires s.waiting == [] && forall t :: t in ts ==> t.kind.Opening?
    ensures Run(s, ts).(previous := s.previous)
         == s.(qty := s.qty + Sum(ts, OpenedQty), basis := s.basis + Sum(ts, OpenedCost),
               realized := s.realized + Sum(ts, Seeded))
    decreases |ts|
  {
    if ts != [] {
      RunOpenings(Step(s, ts[0]), ts[1..]);
    }
  }

  lemma {:induction false} SumOfFiltered(txns: seq<Txn>, keep: Txn -> bool, f: Txn -> real)
    requires forall t :: t in txns && !keep(t) ==> f(t) == 0.0
    ensures Sum(Filter(txns, keep), f) == Sum(txns, f)
  {
    if txns != [] {
      SumOfFiltered(txns[1..], keep, f);
      if keep(txns[0]) {
        assert Filter(txns, keep)[1..] == Filter(txns[1..], keep);
      }
    }
  }

  lemma OpeningsComeFirst(txns: seq<Txn>)
    ensures Sort(txns) == Sort(Filter(txns, IsOpening)) + Sort(Filter(txns, NotOpening))
  {
    SortOrders(txns);
    SortFiltered(txns, IsOpening);
    SortFiltered(txns, NotOpening);
    OpeningsThenOthers(Sort(txns));
  }

  lemma {:induction false} OpeningsThenOthers(ts: seq<Txn>)
    requires Ordered(ts)
    ensures ts == Filter(ts, IsOpening) + Filter(ts, NotOpening)
  {
    if ts != [] {
      if ts[0].kind.Opening? {
        OpeningsThenOthers(ts[1..]);
      } else {
        forall t | t in ts
          ensures !t.kind.Opening?
        {
          var i :| 0 <= i < |ts| && ts[i] == t;
          assert i > 0 ==> !Before(ts[i], ts[0]);
        }
        FilterNone(ts, IsOpening);
        FilterAll(ts, NotOpening);
      }
    }
  }

  /** Replaying the openings amounts to starting from their sums. */
  lemma ReplayStartsFromBaseline(txns: seq<Txn>)
    ensures Replay(txns) == Report(Run(Baseline(txns), Sort(Filter(txns, NotOpening))))
  {
    var openings, others := Filter(txns, IsOpening), Sort(Filter(txns, NotOpening));
    OpeningsComeFirst(txns);
    RunConcat(START, Sort(openings), others);
    SortMembers(openings);
    FilterMembers(txns, IsOpening);
    RunOpenings(START, Sort(openings));
    SortOrders(openings);
    SumOfPermutation(Sort(openings), openings, OpenedQty);
    SumOfPermutation(Sort(openings), openings, OpenedCost);
    SumOfPermutation(Sort(openings), openings, Seeded);
    SumOfFiltered(txns, IsOpening, OpenedQty);
    SumOfFiltered(txns, IsOpening, OpenedCost);
    SumOfFiltered(txns, IsOpening, Seeded);
    SettleEarly(Run(START, Sort(openings)), None, others);
  }

  /** f moves openings in time and touches nothing else. */
  ghost predicate RedatesOpenings(f: Txn -> Txn) {
    forall t: Txn {:trigger f(t)} ::
      if t.kind.Opening? then f(t) == t.(date := f(t).date, openingDate := f(t).openingDate) else f(t) == t
  }

  lemma {:induction false} SumOfMapped(txns: seq<Txn>, f: Txn -> Txn, g: Txn -> real)
    requires forall t :: g(f(t)) == g(t)
    ensures Sum(Map(txns, f), g) == Sum(txns, g)
  {
    if txns != [] {
      SumOfMapped(txns[1..], f, g);
      assert Map(txns, f)[1..] == Map(txns[1..], f);
    }
  }

  lemma {:induction false} OthersUnmapped(txns: seq<Txn>, f: Txn -> Txn)
    requires RedatesOpenings(f)
    ensures Filter(Map(txns, f), NotOpening) == Filter(txns, NotOpening)
  {
    if txns != [] {
      OthersUnmapped(txns[1..], f);
      assert Map(txns, f)[1..] == Map(txns[1..], f);
    }
  }

  /** When an opening is dated never matters to the replay: setting its date cannot oversell. */
  lemma OpeningDatesAreIrrelevant(txns: seq<Txn>, f: Txn -> Txn)
    requires RedatesOpenings(f)
    ensures Replay(Map(txns, f)) == Replay(txns)
  {
    ReplayStartsFromBaseline(txns);
    ReplayStartsFromBaseline(Map(txns, f));
    OthersUnmapped(txns, f);
    SumOfMapped(txns, f, OpenedQty);
    SumOfMapped(txns, f, OpenedCost);
    SumOfMapped(txns, f, Seeded);
  }
}
