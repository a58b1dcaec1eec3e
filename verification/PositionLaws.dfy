/** What one more event does to a position, kind by kind, on positions alone (services/ledger.go). */
module PositionLaws {
  import opened Sequences
  import opened Money
  import opened Ledger
  import opened ReplayOrder
  import opened ReplayState

  /** What the shares held have cost. */
  function Cost(p: Position): real {
    p.stocksOwned * p.avgCost
  }

  /** The event falls on a later day than every event of the ledger but its openings. */
  ghost predicate OnALaterDay(ledger: seq<Txn>, t: Txn) {
    !t.kind.Opening? && forall u :: u in ledger && !u.kind.Opening? ==> u.Day() < t.Day()
  }

  lemma {:induction false} InsertLast(t: Txn, ts: seq<Txn>)
    requires forall u :: u in ts ==> Before(u, t)
    ensures Insert(t, ts) == ts + [t]
  {
    if ts != [] {
      InsertLast(t, ts[1..]);
      assert ts[0] in ts && ts == [ts[0]] + ts[1..];
    }
  }

  lemma LaterDayIsAfter(ledger: seq<Txn>, t: Txn)
    requires OnALaterDay(ledger, t)
    ensures forall u :: u in ledger ==> Before(u, t) && !Before(t, u)
  {
    forall u | u in ledger && !u.kind.Opening?
      ensures u.date < t.date
    {
      if u.date >= t.date {
        DaysFollowDates(t.date, u.date);
      }
    }
  }

  lemma SortedLast(ledger: seq<Txn>, t: Txn)
    requires OnALaterDay(ledger, t)
    ensures Sort(ledger + [t]) == Sort(ledger) + [t]
  {
    LaterDayIsAfter(ledger, t);
    forall u | u in ledger
      ensures !Tie(u, t)
    {
    }
    SortMiddle(ledger, t, []);
    assert ledger + [t] + [] == ledger + [t] && ledger + [] == ledger;
    SortMembers(ledger);
    InsertLast(t, Sort(ledger));
  }

  /** The last day is over when t comes: the position is settled before it. */
  lemma SettledBefore(ledger: seq<Txn>, t: Txn)
    requires OnALaterDay(ledger, t)
    ensures var s := Run(START, Sort(ledger));
            var done := Settle(s, true);
            && Solvent(done) && done.waiting == []
            && Replay(ledger) == Replayed(PositionOf(done), done.oversold)
            && Replay(ledger + [t]) == Report(Step(done, t))
  {
    hide Sort, Run, Step, SellNow;
    var s := Run(START, Sort(ledger));
    SortedLast(ledger, t);
    RunConcat(START, Sort(ledger), [t]);
    RunOne(s, t);
    RunKeepsSound(START, Sort(ledger));
    SettleKeepsSolvent(s, true);
    if s.waiting != [] {
      WaitingComesFromEvents(START, Sort(ledger));
      SortMembers(ledger);
      assert s.waiting[0] in s.waiting && s.waiting[0] in ledger;
    }
    SettleEarly(s, s.previous, [t]);
    SettleKeepsPrevious(s, true);
    RunOne(Settle(s, true), t);
  }

  /** A step from a settled state, reported. */
  lemma ReportOfStep(s: State, t: Txn)
    requires Solvent(s) && s.waiting == []
    ensures var e := Effect(s, t);
            Report(Step(s, t)) == Replayed(PositionOf(e), e.oversold)
  {
    hide SellNow, Step;
    StepIdle(s, t);
    SellKeepsQueue(s, t);
    EffectKeepsSolvent(s, t);
    if t.kind.Sell? && t.quantity > s.qty {
      var w := s.(waiting := [t], previous := Some(t.Day()));
      assert Step(s, t) == w && w.waiting[1..] == [];
      assert Settle(w, true) == SellNow(w, t).(waiting := []) by { SellKeepsQueue(w, t); }
      WaitingDoesNotShow(s, t, w);
    }
  }

  lemma WaitingDoesNotShow(s: State, t: Txn, w: State)
    requires w == s.(waiting := [t], previous := Some(t.Day()))
    ensures PositionOf(SellNow(w, t)) == PositionOf(SellNow(s, t)) && SellNow(w, t).oversold == SellNow(s, t).oversold
  {
    var sold := if t.quantity > s.qty then s.qty else t.quantity;
    assert AverageCost(w) == AverageCost(s);
    var cost := AverageCost(s) * sold;
    var left := s.(qty := s.qty - sold, basis := s.basis - cost, realized := s.realized + (t.amount - cost),
                   oversold := s.oversold || t.quantity > s.qty);
    assert SellNow(s, t) == left;
    assert SellNow(w, t) == left.(waiting := w.waiting, previous := w.previous);
  }

  lemma CostOfSolvent(s: State)
    requires Solvent(s)
    ensures Cost(PositionOf(s)) == s.basis
  {
  }

  lemma SameAverage(a: real, b: real, q: real, left: real)
    requires left > 0.0 && q > 0.0 && b == a - a / q * (q - left)
    ensures b / left == a / q
  {
    assert a / q * (q - left) == a - a / q * left;
  }

  /** The law of each kind. */
  ghost predicate Moves(p: Replayed, t: Txn, q: Replayed) {
    var was, now := p.position, q.position;
    match t.kind
    case Opening => true
    case Buy =>
      var bought := if t.quantity > 0.0 then t.quantity else 0.0;
      && now.stocksOwned == was.stocksOwned + bought
      && Cost(now) == Cost(was) + (if t.quantity > 0.0 then t.amount else 0.0)
      && now.realizedPnL == was.realizedPnL && now.totalDividends == was.totalDividends && q.oversold == p.oversold
    case Sell =>
      var sold := if t.quantity > was.stocksOwned then was.stocksOwned else t.quantity;
      && now.stocksOwned == was.stocksOwned - sold
      && (now.stocksOwned > 0.0 && was.stocksOwned > 0.0 ==> now.avgCost == was.avgCost)
      && now.realizedPnL == was.realizedPnL + t.amount - was.avgCost * sold
      && now.totalDividends == was.totalDividends && (q.oversold <==> p.oversold || t.quantity > was.stocksOwned)
    case Split => Rescaled(p, t.ratio, q)
    case Bonus => Rescaled(p, t.ratio, q)
    case Dividend => q == p.(position := was.(totalDividends := was.totalDividends + CentsToMoney(AmountCents(t.amount))))
    case Merger => q == p
  }

  ghost predicate Rescaled(p: Replayed, ratio: real, q: Replayed) {
    var was, now := p.position, q.position;
    && now.stocksOwned == (if ratio > 0.0 then was.stocksOwned * ratio else was.stocksOwned)
    && Cost(now) == Cost(was)
    && now.realizedPnL == was.realizedPnL && now.totalDividends == was.totalDividends && q.oversold == p.oversold
  }

  lemma SellMoves(s: State, t: Txn)
    requires Solvent(s) && t.kind.Sell?
    ensures var e := SellNow(s, t);
            Moves(Replayed(PositionOf(s), s.oversold), t, Replayed(PositionOf(e), e.oversold))
  {
    var e := SellNow(s, t);
    if e.qty > 0.0 && s.qty > 0.0 {
      SameAverage(s.basis, e.basis, s.qty, e.qty);
    }
  }

  lemma EffectMoves(s: State, t: Txn)
    requires Solvent(s)
    ensures var e := Effect(s, t);
            Moves(Replayed(PositionOf(s), s.oversold), t, Replayed(PositionOf(e), e.oversold))
  {
    hide SellNow;
    var e := Effect(s, t);
    EffectKeepsSolvent(s, t);
    CostOfSolvent(s);
    CostOfSolvent(e);
    if t.kind.Sell? {
      SellMoves(s, t);
    }
  }

  /**
   * The average-cost method, for every ledger: what an event of a later day does to the position, kind by kind.
   * In particular a sell that leaves shares leaves their average cost alone, and adds its amount less the average
   * cost of what it sold to the profit.
   */
  lemma LaterEventMoves(ledger: seq<Txn>, t: Txn)
    requires OnALaterDay(ledger, t)
    ensures Moves(Replay(ledger), t, Replay(ledger + [t]))
  {
    hide Replay, Report, Step, Effect, Moves, PositionOf;
    SettledBefore(ledger, t);
    var done := Settle(Run(START, Sort(ledger)), true);
    ReportOfStep(done, t);
    EffectMoves(done, t);
  }
}
