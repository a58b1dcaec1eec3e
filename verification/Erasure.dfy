/** Dividends and mergers never move shares, cost, profit or the verdict. */
module Erasure {
  import opened Sequences
  import opened Money
  import opened Ledger
  import opened ReplayOrder
  import opened ReplayState

  /** Every kind but dividend and merger. */
  predicate Active(t: Txn) {
    !t.kind.Dividend? && !t.kind.Merger?
  }

  function DividendCents(t: Txn): int {
    if t.kind.Dividend? then AmountCents(t.amount) else 0
  }

  /** An inert event does no more than open its day. */
  lemma InertStep(s: State, t: Txn)
    requires Sound(s) && !Active(t)
    ensures var entered := EnterDay(s, t.Day());
            Step(s, t) == entered.(cents := entered.cents + DividendCents(t))
  {
    EnterDayKeepsSound(s, t.Day());
  }

  /** Replaying on without an inert event: the day it opened is settled by the next event instead. */
  lemma SkipInert(s: State, t: Txn, rest: seq<Txn>)
    requires Sound(s) && !Active(t)
    requires s.waiting != [] && rest != [] && s.previous != Some(t.Day()) ==> Some(rest[0].Day()) != s.previous
    ensures SameShares(Report(Run(Step(s, t), rest)), Report(Run(s, rest)))
  {
    hide Step, Run, Report, EnterDay;
    var entered := EnterDay(s, t.Day());
    var stepped := entered.(cents := entered.cents + DividendCents(t));
    assert Step(s, t) == stepped by { InertStep(s, t); }
    assert SameShares(Report(Run(stepped, rest)), Report(Run(entered, rest))) by {
      CentsAside(entered, DividendCents(t), rest);
    }
    assert Report(Run(entered, rest)) == Report(Run(s, rest)) by { EnterEarly(s, t.Day(), rest); }
  }

  lemma EnterEarly(s: State, d: int, rest: seq<Txn>)
    requires Sound(s)
    requires s.waiting != [] && rest != [] && s.previous != Some(d) ==> Some(rest[0].Day()) != s.previous
    ensures Report(Run(EnterDay(s, d), rest)) == Report(Run(s, rest))
  {
    if s.previous != Some(d) {
      SettleEarly(s, Some(d), rest);
    }
  }

  lemma KeptIsLater(ts: seq<Txn>)
    requires Ordered(ts) && ts != [] && Filter(ts[1..], Active) != []
    requires forall t :: t in ts ==> !t.kind.Opening?
    ensures Filter(ts[1..], Active)[0].Day() >= ts[0].Day()
  {
    var u := Filter(ts[1..], Active)[0];
    FilterMembers(ts[1..], Active);
    assert u in ts[1..];
    var i :| 0 < i < |ts| && ts[i] == u;
    assert !Before(ts[i], ts[0]);
    DaysFollowDates(ts[0].date, u.date);
  }

  lemma {:induction false} EraseFrom(s: State, ts: seq<Txn>)
    requires Sound(s) && Follows(s, ts)
    ensures SameShares(Report(Run(s, ts)), Report(Run(s, Filter(ts, Active))))
    decreases |ts|
  {
    if ts != [] {
      var t := ts[0];
      var kept := Filter(ts[1..], Active);
      FollowsStep(s, ts);
      EraseFrom(Step(s, t), ts[1..]);
      if Active(t) {
        assert Run(s, [t] + kept) == Run(Step(s, t), kept) by { assert ([t] + kept)[1..] == kept; }
      } else {
        if s.waiting != [] && kept != [] && s.previous != Some(t.Day()) {
          KeptIsLater(ts);
        }
        SkipInert(s, t, kept);
      }
    }
  }

  lemma {:induction false} RunAddsCents(s: State, ts: seq<Txn>)
    ensures Settle(Run(s, ts), true).cents == s.cents + Total(ts, DividendCents)
    decreases |ts|
  {
    if ts == [] {
      SettleKeepsPrevious(s, true);
    } else {
      var entered := EnterDay(s, ts[0].Day());
      SettleKeepsPrevious(s, true);
      SettleKeepsPrevious(Effect(entered, ts[0]), false);
      RunAddsCents(Step(s, ts[0]), ts[1..]);
    }
  }

  /** Deleting every dividend and merger changes nothing but the dividend total. */
  lemma DividendsAndMergersAreErasable(txns: seq<Txn>)
    ensures SameShares(Replay(txns), Replay(Filter(txns, Active)))
  {
    SortFollowsStart(txns);
    EraseFrom(START, Sort(txns));
    SortFiltered(txns, Active);
  }

  /** The dividend total is the sum of the dividends' whole cents, whatever else the ledger holds. */
  lemma DividendTotalIsTheSum(txns: seq<Txn>)
    ensures Replay(txns).position.totalDividends == CentsToMoney(Total(txns, DividendCents))
  {
    RunAddsCents(START, Sort(txns));
    SortOrders(txns);
    TotalOfPermutation(Sort(txns), txns, DividendCents);
  }

  /** Ledgers with the same events, whose position-moving events replay in the same order, replay alike. */
  lemma SameActiveOrderSameReplay(xs: seq<Txn>, ys: seq<Txn>)
    requires multiset(xs) == multiset(ys)
    requires Sort(Filter(xs, Active)) == Sort(Filter(ys, Active))
    ensures Replay(xs) == Replay(ys)
  {
    DividendsAndMergersAreErasable(xs);
    DividendsAndMergersAreErasable(ys);
    DividendTotalIsTheSum(xs);
    DividendTotalIsTheSum(ys);
    TotalOfPermutation(xs, ys, DividendCents);
  }

  /**
   * Permutation invariance: when no two events that move the position share a key,
   * every ordering of the ledger replays to the same answer.
   */
  lemma ReplayIgnoresOrder(xs: seq<Txn>, ys: seq<Txn>)
    requires multiset(xs) == multiset(ys)
    requires KeysDistinct(Filter(xs, Active))
    ensures Replay(xs) == Replay(ys)
  {
    hide Replay;
    var a, b := Filter(xs, Active), Filter(ys, Active);
    forall t
      ensures multiset(a)[t] == multiset(b)[t]
    {
      FilterCount(xs, Active, t);
      FilterCount(ys, Active, t);
    }
    assert multiset(a) == multiset(b);
    PermutationsOfDistinctKeysSortAlike(a, b);
    SameActiveOrderSameReplay(xs, ys);
  }
}
