/** The oversell verdict, read off running balances instead of a queue. */
module Verdict {
  import opened Sequences
  import opened Ledger
  import opened ReplayOrder
  import opened ReplayState

  function QuantityOf(t: Txn): real { t.quantity }

  /** Shares held less the sells still waiting: what the day will end with. */
  function Net(s: State): real {
    s.qty - Sum(s.waiting, QuantityOf)
  }

  /** The change an event makes to the shares held when nothing is clamped; splits and bonuses aside. */
  function Delta(t: Txn): real {
    match t.kind
    case Opening => if t.quantity > 0.0 then t.quantity else 0.0
    case Buy => if t.quantity > 0.0 then t.quantity else 0.0
    case Sell => -t.quantity
    case _ => 0.0
  }

  predicate NeverRescales(ts: seq<Txn>) {
    forall t :: t in ts ==> !t.Rescales()
  }

  lemma {:induction false} QueuePositive(ts: seq<Txn>)
    requires QueueOfSells(ts)
    ensures Sum(ts, QuantityOf) >= 0.0
  {
    if ts != [] {
      QueuePositive(ts[1..]);
    }
  }

  /** Draining as far as the head fits moves nothing. */
  lemma {:induction false} DrainKeepsNet(s: State)
    requires Solvent(s)
    ensures Net(Settle(s, false)) == Net(s) && Settle(s, false).oversold == s.oversold
    decreases |s.waiting|
  {
    if s.waiting != [] && s.waiting[0].quantity <= s.qty {
      SellKeepsSolvent(s, s.waiting[0]);
      DrainKeepsNet(SellNow(s, s.waiting[0]).(waiting := s.waiting[1..]));
    }
  }

  /** The end of a day keeps what is left and flags what is short. */
  lemma {:induction false} SettleClampsNet(s: State)
    requires Solvent(s)
    ensures var done := Settle(s, true);
            && done.waiting == []
            && done.qty == (if Net(s) > 0.0 then Net(s) else 0.0)
            && done.oversold == (s.oversold || Net(s) < 0.0)
    decreases |s.waiting|
  {
    if s.waiting != [] {
      var w := s.waiting[0];
      SellKeepsSolvent(s, w);
      QueuePositive(s.waiting[1..]);
      SettleClampsNet(SellNow(s, w).(waiting := s.waiting[1..]));
    }
  }

  lemma QueueAppend(ts: seq<Txn>, t: Txn)
    ensures Sum(ts + [t], QuantityOf) == Sum(ts, QuantityOf) + t.quantity
  {
    SumConcat(ts, [t], QuantityOf);
  }

  /** Within a day, waiting or not, an event moves the net by its own quantity and flags nothing. */
  lemma WithinMovesNet(s: State, t: Txn)
    requires Sound(s) && !t.Rescales()
    ensures Net(Within(s, t)) == Net(s) + Delta(t) && Within(s, t).oversold == s.oversold
  {
    if t.kind.Sell? && t.quantity > s.qty {
      QueueAppend(s.waiting, t);
    } else {
      EffectKeepsSolvent(s, t);
      DrainKeepsNet(Effect(s, t));
    }
  }

  lemma {:induction false} DayMovesNet(s: State, events: seq<Txn>, d: int)
    requires Sound(s) && s.previous == Some(d) && NeverRescales(events)
    requires forall t :: t in events ==> t.Day() == d
    ensures var e := Run(s, events);
            Sound(e) && Net(e) == Net(s) + Sum(events, Delta) && e.oversold == s.oversold
    decreases |events|
  {
    if events != [] {
      var t := events[0];
      StepKeepsSound(s, t);
      WithinMovesNet(s, t);
      DayMovesNet(Step(s, t), events[1..], d);
    }
  }

  /**
   * Day-level verdict. A day without split or bonus ends with max(0, start + bought - sold)
   * shares and is flagged exactly when start + bought < sold, whatever the order within it,
   * although sells that fit overtake the queue.
   */
  lemma DayVerdict(s: State, events: seq<Txn>, d: int)
    requires Sound(s) && s.waiting == [] && NeverRescales(events)
    requires forall t :: t in events ==> t.Day() == d
    ensures var left := s.qty + Sum(events, Delta);
            var done := Settle(Run(EnterDay(s, d), events), true);
            && done.qty == (if left > 0.0 then left else 0.0)
            && done.oversold == (s.oversold || left < 0.0)
  {
    EnterDayKeepsSound(s, d);
    DayMovesNet(EnterDay(s, d), events, d);
    SettleClampsNet(Run(EnterDay(s, d), events));
  }

  /** Same-day events may be replayed in any order as far as shares and verdict go. */
  lemma DayOrderIsFree(s: State, events: seq<Txn>, shuffled: seq<Txn>, d: int)
    requires Sound(s) && s.waiting == [] && NeverRescales(events)
    requires forall t :: t in events ==> t.Day() == d
    requires multiset(events) == multiset(shuffled)
    ensures var a, b := Settle(Run(EnterDay(s, d), events), true), Settle(Run(EnterDay(s, d), shuffled), true);
            a.qty == b.qty && a.oversold == b.oversold
  {
    forall t | t in shuffled
      ensures t in events
    {
      assert t in multiset(shuffled);
    }
    DayVerdict(s, events, d);
    DayVerdict(s, shuffled, d);
    SumOfPermutation(events, shuffled, Delta);
  }

  // ----- the whole ledger -----

  function CountedBy(day: int): Txn -> bool {
    (t: Txn) => t.kind.Opening? || t.Day() <= day
  }

  /** The plain sum of every event counted by the end of a day, openings always included. */
  function BalanceAt(txns: seq<Txn>, day: int): real {
    Sum(Filter(txns, CountedBy(day)), Delta)
  }

  /** From s on, no day still to be settled ends short. */
  ghost predicate StaysCovered(s: State, ts: seq<Txn>) {
    forall d :: (s.waiting != [] ==> s.previous.Some? && d >= s.previous.value) ==> Net(s) + BalanceAt(ts, d) >= 0.0
  }

  lemma BalanceStep(ts: seq<Txn>, d: int)
    requires Ordered(ts) && ts != []
    ensures CountedBy(d)(ts[0]) ==> BalanceAt(ts, d) == Delta(ts[0]) + BalanceAt(ts[1..], d)
    ensures !CountedBy(d)(ts[0]) ==> BalanceAt(ts, d) == 0.0 && BalanceAt(ts[1..], d) == 0.0
  {
    if !CountedBy(d)(ts[0]) {
      forall u | u in ts
        ensures !CountedBy(d)(u)
      {
        var i :| 0 <= i < |ts| && ts[i] == u;
        if i > 0 {
          assert !Before(ts[i], ts[0]);
          DaysFollowDates(ts[0].date, u.date);
        }
      }
      FilterNone(ts, CountedBy(d));
      FilterNone(ts[1..], CountedBy(d));
    }
  }

  /** An event of the current day, or one that finds the queue empty. */
  lemma CoveredThrough(s: State, ts: seq<Txn>)
    requires Sound(s) && Follows(s, ts) && ts != [] && !ts[0].Rescales()
    requires s.waiting == [] || s.previous == Some(ts[0].Day())
    ensures Step(s, ts[0]).oversold == s.oversold
    ensures StaysCovered(s, ts) <==> StaysCovered(Step(s, ts[0]), ts[1..])
  {
    var t, next := ts[0], Step(s, ts[0]);
    var entered := EnterDay(s, t.Day());
    EnterDayKeepsSound(s, t.Day());
    WithinMovesNet(entered, t);
    StepKeepsSound(s, t);
    assert Net(next) == Net(s) + Delta(t);
    forall d
      ensures CountedBy(d)(t) ==> Net(s) + BalanceAt(ts, d) == Net(next) + BalanceAt(ts[1..], d)
      ensures !CountedBy(d)(t) ==> BalanceAt(ts, d) == 0.0 && BalanceAt(ts[1..], d) == 0.0
    {
      BalanceStep(ts, d);
    }
  }

  /** Settling a covered day early changes no later balance; a short one shows on its own day. */
  lemma CoveredAcross(s: State, ts: seq<Txn>)
    requires Sound(s) && Follows(s, ts) && ts != []
    requires s.waiting != [] && s.previous != Some(ts[0].Day())
    ensures var entered := EnterDay(s, ts[0].Day());
            && Sound(entered) && Follows(entered, ts) && entered.waiting == []
            && entered.oversold == (s.oversold || Net(s) < 0.0)
            && (StaysCovered(s, ts) <==> Net(s) >= 0.0 && StaysCovered(entered, ts))
  {
    var entered := EnterDay(s, ts[0].Day());
    EnterDayKeepsSound(s, ts[0].Day());
    SettleClampsNet(s);
    BalanceStep(ts, s.previous.value);
    assert BalanceAt(ts, s.previous.value) == 0.0;
    if Net(s) >= 0.0 {
      assert Net(entered) == Net(s);
      forall d | d < s.previous.value
        ensures BalanceAt(ts, d) == 0.0
      {
        BalanceStep(ts, d);
      }
    }
  }

  lemma {:induction false} CoveredIffAccepted(s: State, ts: seq<Txn>)
    requires Sound(s) && Follows(s, ts) && NeverRescales(ts) && !s.oversold
    ensures !Report(Run(s, ts)).oversold <==> StaysCovered(s, ts)
    decreases |ts|
  {
    if ts == [] {
      SettleClampsNet(s);
      assert BalanceAt(ts, if s.previous.Some? then s.previous.value else 0) == 0.0;
    } else if s.waiting == [] || s.previous == Some(ts[0].Day()) {
      CoveredThrough(s, ts);
      FollowsStep(s, ts);
      CoveredIffAccepted(Step(s, ts[0]), ts[1..]);
    } else {
      var entered := EnterDay(s, ts[0].Day());
      CoveredAcross(s, ts);
      assert Step(s, ts[0]) == Step(entered, ts[0]);
      if Net(s) >= 0.0 {
        CoveredThrough(entered, ts);
        FollowsStep(entered, ts);
        CoveredIffAccepted(Step(entered, ts[0]), ts[1..]);
      } else {
        RunOversoldStays(entered, ts);
      }
    }
  }

  lemma BalanceIgnoresOrder(txns: seq<Txn>, d: int)
    ensures BalanceAt(Sort(txns), d) == BalanceAt(txns, d)
  {
    SortFiltered(txns, CountedBy(d));
    SortOrders(Filter(txns, CountedBy(d)));
    SumOfPermutation(Sort(Filter(txns, CountedBy(d))), Filter(txns, CountedBy(d)), Delta);
  }

  /**
   * The verdict on a ledger without split or bonus: it is accepted exactly when no day's
   * running balance is negative. Neither the order of the ledger nor the queue shows.
   */
  lemma AcceptedIffEveryBalanceCovers(txns: seq<Txn>)
    requires NeverRescales(txns)
    ensures !Replay(txns).oversold <==> forall d :: BalanceAt(txns, d) >= 0.0
  {
    SortFollowsStart(txns);
    SortMembers(txns);
    CoveredIffAccepted(START, Sort(txns));
    forall d
      ensures Net(START) + BalanceAt(Sort(txns), d) == BalanceAt(txns, d)
    {
      BalanceIgnoresOrder(txns, d);
    }
  }

  lemma {:induction false} RunMovesNet(s: State, ts: seq<Txn>)
    requires Sound(s) && NeverRescales(ts)
    requires !Report(Run(s, ts)).oversold
    ensures Net(Run(s, ts)) == Net(s) + Sum(ts, Delta)
    decreases |ts|
  {
    if ts != [] {
      var entered := EnterDay(s, ts[0].Day());
      EnterDayKeepsSound(s, ts[0].Day());
      SettleClampsNet(s);
      WithinMovesNet(entered, ts[0]);
      StepKeepsSound(s, ts[0]);
      if Step(s, ts[0]).oversold {
        RunOversoldStays(Step(s, ts[0]), ts[1..]);
      }
      RunMovesNet(Step(s, ts[0]), ts[1..]);
    }
  }

  /** An accepted ledger without split or bonus holds the plain sum of its events. */
  lemma AcceptedSharesAreTheSum(txns: seq<Txn>)
    requires NeverRescales(txns) && !Replay(txns).oversold
    ensures Replay(txns).position.stocksOwned == Sum(txns, Delta)
  {
    SortFollowsStart(txns);
    SortMembers(txns);
    SortOrders(txns);
    RunKeepsSound(START, Sort(txns));
    RunMovesNet(START, Sort(txns));
    SettleClampsNet(Run(START, Sort(txns)));
    SumOfPermutation(Sort(txns), txns, Delta);
  }
}
