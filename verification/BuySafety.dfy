/** When one more buy keeps an accepted ledger accepted, and when it does not. */
module BuySafety {
  import opened Sequences
  import opened Ledger
  import opened ReplayOrder
  import opened ReplayState
  import opened Verdict

  /** No split or bonus falls on a day that also has a sell. */
  predicate SplitsAvoidSells(txns: seq<Txn>) {
    forall t, u :: t in txns && u in txns && t.Rescales() && u.kind.Sell? ==> t.Day() != u.Day()
  }

  /** No sell is waiting when a split or bonus is reached. */
  predicate NoneWaitsAtRescales(s: State, ts: seq<Txn>)
    decreases |ts|
  {
    ts == [] || ((ts[0].Rescales() ==> EnterDay(s, ts[0].Day()).waiting == []) && NoneWaitsAtRescales(Step(s, ts[0]), ts[1..]))
  }

  /** ... anywhere in the replay of a ledger. */
  predicate SplitsFindNoneWaiting(txns: seq<Txn>) {
    NoneWaitsAtRescales(START, Sort(txns))
  }

  /** On the same day, with no fewer shares than a ledger that is fine so far. */
  ghost predicate Dominates(more: State, less: State) {
    && Sound(more) && Sound(less) && more.previous == less.previous
    && !more.oversold && !less.oversold && Net(less) <= Net(more)
  }

  lemma AcceptedSoFar(s: State, ts: seq<Txn>)
    requires Sound(s) && !Report(Run(s, ts)).oversold
    ensures !s.oversold
    ensures ts == [] || (s.previous.Some? && s.previous.value != ts[0].Day()) ==> Net(s) >= 0.0
  {
    SettleClampsNet(s);
    if s.oversold {
      RunOversoldStays(s, ts);
    }
    if ts != [] && s.previous.Some? && s.previous.value != ts[0].Day() && Net(s) < 0.0 {
      var settled := Settle(s, true).(previous := Some(ts[0].Day()));
      assert Step(s, ts[0]) == Step(settled, ts[0]);
      RunOversoldStays(settled, ts);
    }
  }

  lemma DominatesEnter(more: State, less: State, d: int)
    requires Dominates(more, less)
    requires less.previous != Some(d) ==> Net(less) >= 0.0
    ensures Dominates(EnterDay(more, d), EnterDay(less, d))
    ensures EnterDay(more, d).previous == Some(d)
  {
    EnterDayKeepsSound(more, d);
    EnterDayKeepsSound(less, d);
    SettleClampsNet(more);
    SettleClampsNet(less);
  }

  /** A queue whose head does not fit makes the net negative: with a net of nothing or more, nothing waits. */
  lemma CoveredMeansNoneWaits(s: State)
    requires Sound(s) && Net(s) >= 0.0
    ensures s.waiting == []
  {
    if s.waiting != [] {
      QueuePositive(s.waiting[1..]);
    }
  }

  lemma RescaleMonotone(a: real, b: real, r: real)
    requires a <= b && r > 0.0
    ensures a * r <= b * r
  {
  }

  lemma WithinKeepsSound(s: State, t: Txn)
    requires Sound(s) && s.previous == Some(t.Day())
    ensures Sound(Within(s, t)) && Within(s, t).previous == s.previous
  {
    hide Settle, SellNow;
    EnterDayKeepsSound(s, t.Day());
    StepKeepsSound(s, t);
    assert Step(s, t) == Within(s, t);
  }

  lemma RescaleWithin(s: State, t: Txn)
    requires t.Rescales() && s.waiting == []
    ensures Within(s, t) == if t.ratio > 0.0 then s.(qty := s.qty * t.ratio) else s
    ensures Net(s) == s.qty && Net(Within(s, t)) == if t.ratio > 0.0 then s.qty * t.ratio else s.qty
  {
  }

  /** When nothing waits at a rescale of the smaller run, nothing waits in the larger one, and it stays the larger. */
  lemma DominatesWithin(more: State, less: State, t: Txn)
    requires Dominates(more, less) && more.previous == Some(t.Day())
    requires t.Rescales() ==> less.waiting == []
    ensures Dominates(Within(more, t), Within(less, t))
    ensures t.Rescales() ==> more.waiting == []
  {
    hide Within, Settle, Net;
    WithinKeepsSound(more, t);
    WithinKeepsSound(less, t);
    if t.Rescales() {
      RescaleWithin(less, t);
      CoveredMeansNoneWaits(more);
      RescaleWithin(more, t);
      if t.ratio > 0.0 {
        RescaleMonotone(less.qty, more.qty, t.ratio);
      }
    } else {
      WithinMovesNet(more, t);
      WithinMovesNet(less, t);
    }
  }

  /** Domination carries acceptance along any later events, and with it the absence of waiting sells. */
  lemma {:induction false} DominatesRun(more: State, less: State, ts: seq<Txn>)
    requires Dominates(more, less) && NoneWaitsAtRescales(less, ts)
    requires !Report(Run(less, ts)).oversold
    ensures !Report(Run(more, ts)).oversold && NoneWaitsAtRescales(more, ts)
    decreases |ts|
  {
    hide SellNow, Settle, EnterDay, Within;
    AcceptedSoFar(less, ts);
    if ts == [] {
      SettleClampsNet(more);
    } else {
      var t := ts[0];
      if less.previous.None? {
        NetWithoutQueue(less);
      }
      DominatesEnter(more, less, t.Day());
      DominatesWithin(EnterDay(more, t.Day()), EnterDay(less, t.Day()), t);
      DominatesRun(Step(more, t), Step(less, t), ts[1..]);
    }
  }

  lemma NetWithoutQueue(s: State)
    requires Sound(s) && s.previous.None?
    ensures Net(s) >= 0.0
  {
  }

  lemma {:induction false} NoneWaitsConcat(s: State, xs: seq<Txn>, ys: seq<Txn>)
    ensures NoneWaitsAtRescales(s, xs + ys) <==> NoneWaitsAtRescales(s, xs) && NoneWaitsAtRescales(Run(s, xs), ys)
    decreases |xs|
  {
    hide Step, EnterDay;
    if xs == [] {
      assert xs + ys == ys;
    } else {
      assert (xs + ys)[1..] == xs[1..] + ys;
      NoneWaitsConcat(Step(s, xs[0]), xs[1..], ys);
    }
  }

  /** Settling a finished day early changes neither the result nor what waits later. */
  lemma EarlyFindsTheSame(s: State, d: int, rest: seq<Txn>)
    requires Sound(s) && s.previous != Some(d)
    requires s.waiting != [] && rest != [] ==> rest[0].Day() != s.previous.value
    ensures NoneWaitsAtRescales(s, rest) <==> NoneWaitsAtRescales(EnterDay(s, d), rest)
    ensures Report(Run(s, rest)) == Report(Run(EnterDay(s, d), rest))
  {
    SettleEarly(s, Some(d), rest);
    SettleEmpties(s);
    if rest != [] {
      SettleIgnoresPrevious(Settle(s, true), true, Some(d));
      SettleIgnoresPrevious(Settle(s, true).(previous := Some(d)), true, Some(rest[0].Day()));
      assert EnterDay(s, rest[0].Day()) == EnterDay(EnterDay(s, d), rest[0].Day());
    }
  }

  /** A buy after some events keeps the rest accepted, when nothing waits at a rescale of the rest. */
  lemma BuyBetween(past: seq<Txn>, buy: Txn, rest: seq<Txn>)
    requires buy.kind.Buy? && Ordered(past + [buy] + rest) && NoneWaitsAtRescales(Run(START, past), rest)
    requires !Report(Run(Run(START, past), rest)).oversold
    ensures var s := Step(Run(START, past), buy); !Report(Run(s, rest)).oversold && NoneWaitsAtRescales(s, rest)
  {
    hide Run, SellNow, Net, Settle, NoneWaitsAtRescales;
    var s, d := Run(START, past), buy.Day();
    RunKeepsSound(START, past);
    var entered := EnterDay(s, d);
    EnterDayKeepsSound(s, d);
    if s.previous != Some(d) {
      if s.waiting != [] && rest != [] {
        WaitingComesFromEvents(START, past);
        NextDayIsLater(past, buy, rest, s.waiting[0]);
      }
      EarlyFindsTheSame(s, d, rest);
    }
    assert Report(Run(entered, rest)) == Report(Run(s, rest));
    AcceptedSoFar(entered, rest);
    WithinMovesNet(entered, buy);
    StepKeepsSound(entered, buy);
    DominatesRun(Step(s, buy), entered, rest);
  }

  /** A buy put anywhere into the replay order. */
  lemma BuyInOrder(past: seq<Txn>, buy: Txn, rest: seq<Txn>)
    requires buy.kind.Buy? && Ordered(past + [buy] + rest) && NoneWaitsAtRescales(START, past + rest)
    requires !Report(Run(START, past + rest)).oversold
    ensures !Report(Run(START, past + [buy] + rest)).oversold && NoneWaitsAtRescales(START, past + [buy] + rest)
  {
    hide Run, SellNow, Net, Settle, NoneWaitsAtRescales;
    var s := Run(START, past);
    RunConcat(START, past, rest);
    RunConcat(START, past + [buy], rest);
    RunConcat(START, past, [buy]);
    RunOne(s, buy);
    NoneWaitsConcat(START, past, rest);
    NoneWaitsConcat(START, past + [buy], rest);
    NoneWaitsConcat(START, past, [buy]);
    OneBuyFindsNone(s, buy);
    BuyBetween(past, buy, rest);
  }

  lemma OneBuyFindsNone(s: State, buy: Txn)
    requires buy.kind.Buy?
    ensures NoneWaitsAtRescales(s, [buy])
  {
    assert [buy][1..] == [];
  }

  lemma NextDayIsLater(past: seq<Txn>, buy: Txn, rest: seq<Txn>, w: Txn)
    requires buy.kind.Buy? && Ordered(past + [buy] + rest) && rest != []
    requires w in past && w.kind.Sell? && w.Day() != buy.Day()
    ensures w.Day() < buy.Day() <= rest[0].Day()
  {
    var all := past + [buy] + rest;
    var i :| 0 <= i < |past| && past[i] == w;
    assert all[i] == w && all[|past|] == buy && all[|past| + 1] == rest[0];
    assert !Before(all[|past|], all[i]) && !Before(all[|past| + 1], all[|past|]);
    DaysFollowDates(w.date, buy.date);
    DaysFollowDates(buy.date, rest[0].date);
  }

  // ----- from the replay order back to the ledger -----

  lemma {:induction false} InsertIntoFront(t: Txn, xs: seq<Txn>, ys: seq<Txn>)
    requires exists x :: x in xs && !Before(x, t)
    ensures Insert(t, xs + ys) == Insert(t, xs) + ys
  {
    if Before(xs[0], t) {
      assert (xs + ys)[1..] == xs[1..] + ys;
      var x :| x in xs && !Before(x, t);
      assert x in xs[1..];
      InsertIntoFront(t, xs[1..], ys);
    }
  }

  lemma {:induction false} InsertIntoBack(t: Txn, xs: seq<Txn>, ys: seq<Txn>)
    requires forall x :: x in xs ==> Before(x, t)
    ensures Insert(t, xs + ys) == xs + Insert(t, ys)
  {
    if xs == [] {
      assert xs + ys == ys;
    } else {
      assert (xs + ys)[1..] == xs[1..] + ys;
      InsertIntoBack(t, xs[1..], ys);
    }
  }

  lemma SortCons(t: Txn, rest: seq<Txn>)
    ensures Sort([t] + rest) == Insert(t, Sort(rest))
  {
    assert ([t] + rest)[1..] == rest;
  }

  lemma SortWithFirst(t: Txn, after: seq<Txn>) returns (past: seq<Txn>, rest: seq<Txn>)
    ensures Sort([t] + after) == past + [t] + rest
    ensures Sort(after) == past + rest
  {
    var sorted := Sort(after);
    var k := InsertSplits(t, sorted);
    past, rest := sorted[..k], sorted[k..];
    SortCons(t, after);
  }

  lemma SortAddingHead(u: Txn, whole: seq<Txn>, less: seq<Txn>, front: seq<Txn>, t: Txn, back: seq<Txn>)
      returns (past: seq<Txn>, rest: seq<Txn>)
    requires Sort(whole) == front + [t] + back && Sort(less) == front + back
    ensures Sort([u] + whole) == past + [t] + rest
    ensures Sort([u] + less) == past + rest
  {
    SortOrders(whole);
    past, rest := InsertAround(u, front, t, back);
    SortCons(u, whole);
    SortCons(u, less);
  }

  /** One more event leaves the replay order of the others alone. */
  lemma {:induction false} SortWithOneMore(before: seq<Txn>, t: Txn, after: seq<Txn>)
      returns (past: seq<Txn>, rest: seq<Txn>)
    ensures Sort(before + [t] + after) == past + [t] + rest
    ensures Sort(before + after) == past + rest
  {
    if before == [] {
      past, rest := SortWithFirst(t, after);
      assert before + [t] + after == [t] + after && before + after == after;
    } else {
      var front, back := SortWithOneMore(before[1..], t, after);
      past, rest := SortAddingHead(before[0], before[1..] + [t] + after, before[1..] + after, front, t, back);
      assert before + [t] + after == [before[0]] + (before[1..] + [t] + after);
      assert before + after == [before[0]] + (before[1..] + after);
    }
  }

  lemma InsertAround(u: Txn, past: seq<Txn>, t: Txn, rest: seq<Txn>) returns (past': seq<Txn>, rest': seq<Txn>)
    requires Ordered(past + [t] + rest)
    ensures Insert(u, past + [t] + rest) == past' + [t] + rest'
    ensures Insert(u, past + rest) == past' + rest'
  {
    assert past + [t] + rest == past + ([t] + rest);
    if exists x :: x in past && !Before(x, u) {
      InsertIntoFront(u, past, [t] + rest);
      InsertIntoFront(u, past, rest);
      past', rest' := Insert(u, past), rest;
    } else {
      InsertIntoBack(u, past, [t] + rest);
      InsertIntoBack(u, past, rest);
      if Before(t, u) {
        assert ([t] + rest)[1..] == rest;
        past', rest' := past, Insert(u, rest);
      } else {
        if rest != [] {
          var all := past + [t] + rest;
          assert all[|past|] == t && all[|past| + 1] == rest[0];
          assert !Before(all[|past| + 1], all[|past|]);
        }
        InsertFirst(u, rest);
        past', rest' := past + [u], rest;
      }
    }
  }

  /** One buy, anywhere in the ledger, at any date. */
  lemma AddingABuyIsSafe(before: seq<Txn>, buy: Txn, after: seq<Txn>)
    requires buy.kind.Buy? && SplitsFindNoneWaiting(before + after)
    requires !Replay(before + after).oversold
    ensures !Replay(before + [buy] + after).oversold && SplitsFindNoneWaiting(before + [buy] + after)
  {
    hide Run, Sort, NoneWaitsAtRescales;
    var past, rest := SortWithOneMore(before, buy, after);
    SortOrders(before + [buy] + after);
    BuyInOrder(past, buy, rest);
  }

  /** Adding buys is safe: an accepted ledger stays accepted with any buys appended. */
  lemma {:induction false} AddingBuysIsSafe(ledger: seq<Txn>, buys: seq<Txn>)
    requires forall t :: t in buys ==> t.kind.Buy?
    requires SplitsFindNoneWaiting(ledger) && !Replay(ledger).oversold
    ensures !Replay(ledger + buys).oversold && SplitsFindNoneWaiting(ledger + buys)
    decreases |buys|
  {
    hide SplitsFindNoneWaiting, Replay;
    if buys == [] {
      assert ledger + buys == ledger;
    } else {
      assert ledger + [] == ledger && ledger + [buys[0]] + [] == ledger + [buys[0]];
      AddingABuyIsSafe(ledger, buys[0], []);
      assert ledger + [buys[0]] + buys[1..] == ledger + buys;
      AddingBuysIsSafe(ledger + [buys[0]], buys[1..]);
    }
  }

  lemma NothingWaitsOnASplitDay(s: State, t: Txn, all: seq<Txn>)
    requires Sound(s) && s.previous == Some(t.Day()) && t.Rescales()
    requires t in all && SplitsAvoidSells(all) && forall w :: w in s.waiting ==> w in all
    ensures s.waiting == []
  {
    SomeMember(s.waiting);
    forall w
      ensures w !in s.waiting
    {
    }
  }

  /** A caller can see this much from the dates alone. */
  lemma {:induction false} NoneWaitsOffSellDays(s: State, ts: seq<Txn>, all: seq<Txn>)
    requires Sound(s) && SplitsAvoidSells(all)
    requires (forall t :: t in ts ==> t in all) && (forall w :: w in s.waiting ==> w in all)
    ensures NoneWaitsAtRescales(s, ts)
    decreases |ts|
  {
    hide SellNow, Settle, Within;
    if ts != [] {
      var t := ts[0];
      EnterDayKeepsSound(s, t.Day());
      if t.Rescales() && s.previous == Some(t.Day()) {
        NothingWaitsOnASplitDay(s, t, all);
      }
      StepKeepsSound(s, t);
      WaitingComesFromEvents(s, [t]);
      RunOne(s, t);
      NoneWaitsOffSellDays(Step(s, t), ts[1..], all);
    }
  }

  lemma SplitsOffSellDaysFindNoneWaiting(txns: seq<Txn>)
    requires SplitsAvoidSells(txns)
    ensures SplitsFindNoneWaiting(txns)
  {
    SortMembers(txns);
    SortFollowsStart(txns);
    NoneWaitsOffSellDays(START, Sort(txns), txns);
  }

  // ----- when a buy is not safe -----

  /** The rescale lets the head of the queue go: it did not fit before, and fits with room to spare after. */
  predicate Releases(s: State, t: Txn) {
    t.Rescales() && t.ratio > 0.0 && s.waiting != [] && s.waiting[0].quantity < s.qty * t.ratio
  }

  lemma RescaleMovesNet(s: State, t: Txn)
    requires Sound(s) && t.Rescales() && t.ratio > 0.0
    ensures Net(Within(s, t)) == s.qty * t.ratio - Sum(s.waiting, QuantityOf) && Within(s, t).oversold == s.oversold
  {
    hide Settle, SellNow;
    var scaled := s.(qty := s.qty * t.ratio);
    assert Effect(s, t) == scaled;
    EffectKeepsSolvent(s, t);
    DrainKeepsNet(scaled);
  }

  function BuyAt(t: Txn, quantity: real): Txn {
    t.(kind := Buy, quantity := quantity)
  }

  function SellNextDay(t: Txn, quantity: real): Txn {
    t.(kind := Sell, quantity := quantity, date := (t.Day() + 1) * DAY)
  }

  /** Just enough bought in front of a rescale sells the head of the queue unscaled, down to nothing. */
  lemma BuyInFront(s: State, t: Txn)
    requires Sound(s) && s.previous == Some(t.Day()) && s.waiting != []
    ensures var e := Within(s, BuyAt(t, s.waiting[0].quantity - s.qty));
            && Sound(e) && e.previous == s.previous && e.oversold == s.oversold
            && e.qty == 0.0 && Sum(e.waiting, QuantityOf) == Sum(s.waiting, QuantityOf) - s.waiting[0].quantity
  {
    var buy, h := BuyAt(t, s.waiting[0].quantity - s.qty), s.waiting[0];
    WithinKeepsSound(s, buy);
    WithinMovesNet(s, buy);
    var raised := Effect(s, buy);
    assert raised.qty == h.quantity && raised.waiting == s.waiting;
    SellKeepsQueue(raised, h);
    var sold := SellNow(raised, h).(waiting := s.waiting[1..]);
    assert sold.qty == 0.0;
    assert Settle(raised, false) == Settle(sold, false);
    if s.waiting[1..] != [] {
      assert s.waiting[1] in s.waiting;
      assert s.waiting[1..][0] == s.waiting[1];
    }
    assert Settle(sold, false) == sold;
  }

  /** What the day and the next one come to, from the state behind the rescale. */
  lemma NextDaySell(s: State, t: Txn, bought: real, sold: real)
    requires Sound(s) && s.previous == Some(t.Day()) && !s.oversold && bought > 0.0 && Net(s) + bought > 0.0 && sold > 0.0
    ensures Report(Run(s, [BuyAt(t, bought), SellNextDay(t, sold)])).oversold <==> Net(s) + bought < sold
  {
    hide Settle, SellNow, Net;
    var buy, sell := BuyAt(t, bought), SellNextDay(t, sold);
    assert [buy, sell] == [buy] + [sell];
    RunConcat(s, [buy], [sell]);
    RunOne(s, buy);
    EnterDayKeepsSound(s, t.Day());
    WithinMovesNet(s, buy);
    WithinKeepsSound(s, buy);
    var e := Step(s, buy);
    RunOne(e, sell);
    assert sell.Day() == t.Day() + 1;
    SettleClampsNet(e);
    EnterDayKeepsSound(e, sell.Day());
    var n := EnterDay(e, sell.Day());
    NetOfIdle(n);
    WithinMovesNet(n, sell);
    WithinKeepsSound(n, sell);
    SettleClampsNet(Within(n, sell));
  }

  lemma NetOfIdle(s: State)
    requires s.waiting == []
    ensures Net(s) == s.qty
  {
  }

  lemma UnsafeRuns(s: State, t: Txn) returns (buy: Txn, rest: seq<Txn>)
    requires Sound(s) && s.previous == Some(t.Day()) && !s.oversold && Releases(s, t)
    ensures buy == BuyAt(t, s.waiting[0].quantity - s.qty)
    ensures |rest| == 2 && rest[0] == BuyAt(t, rest[0].quantity) && rest[1] == SellNextDay(t, rest[1].quantity)
    ensures !Report(Run(Within(s, t), rest)).oversold && Report(Run(Within(Within(s, buy), t), rest)).oversold
  {
    hide Within, Settle, SellNow, Net;
    var total, scaled := Sum(s.waiting, QuantityOf), s.qty * t.ratio;
    buy := BuyAt(t, s.waiting[0].quantity - s.qty);
    rest := [BuyAt(t, total), SellNextDay(t, scaled)];
    QueueTotal(s.waiting);
    RescaleMovesNet(s, t);
    WithinKeepsSound(s, t);
    BuyInFront(s, t);
    var e := Within(s, buy);
    RescaleMovesNet(e, t);
    WithinKeepsSound(e, t);
    NextDaySell(Within(s, t), t, total, scaled);
    NextDaySell(Within(e, t), t, total, scaled);
  }

  lemma QueueTotal(ts: seq<Txn>)
    requires QueueOfSells(ts) && ts != []
    ensures Sum(ts, QuantityOf) >= ts[0].quantity > 0.0
  {
    QueuePositive(ts[1..]);
  }

  /** Events with the key of t, and one of a later day, may follow t in the replay order. */
  lemma OrderAround(past: seq<Txn>, t: Txn, buy: Txn, rest: seq<Txn>)
    requires Ordered(past + [t]) && !t.kind.Opening? && buy == BuyAt(t, buy.quantity)
    requires |rest| == 2 && rest[0] == BuyAt(t, rest[0].quantity) && rest[1] == SellNextDay(t, rest[1].quantity)
    ensures Ordered(past + [t] + rest) && Ordered(past + [buy] + [t] + rest)
  {
    var all := past + [t];
    assert all[|past|] == t;
    forall p | p in past
      ensures !Before(t, p) && !Before(buy, p) && !Before(rest[0], p) && !Before(rest[1], p)
    {
      var i :| 0 <= i < |past| && past[i] == p;
      assert all[i] == p && !Before(all[|past|], all[i]);
      DayBounds(t.date);
    }
    DayBounds(t.date);
    forall i, j | 0 <= i < j < |past|
      ensures !Before(past[j], past[i])
    {
      assert all[i] == past[i] && all[j] == past[j];
    }
    OrderedTail(past, [t] + rest);
    OrderedTail(past, [buy] + [t] + rest);
    assert past + [t] + rest == past + ([t] + rest) && past + [buy] + [t] + rest == past + ([buy] + [t] + rest);
  }

  lemma OrderedTail(past: seq<Txn>, tail: seq<Txn>)
    requires Ordered(past) && Ordered(tail)
    requires forall p, u :: p in past && u in tail ==> !Before(u, p)
    ensures Ordered(past + tail)
  {
    var all := past + tail;
    forall i, j | 0 <= i < j < |all|
      ensures !Before(all[j], all[i])
    {
      if i < |past| <= j {
        assert all[i] in past && all[j] in tail;
      }
    }
  }

  /** A buy directly in front of t, and later events at whose rescales nothing waits. */
  ghost predicate InFront(past: seq<Txn>, buy: Txn, t: Txn, rest: seq<Txn>) {
    buy.kind.Buy? && Ordered(past + [buy] + [t] + rest) && NoneWaitsAtRescales(Run(START, past + [t]), rest)
  }

  lemma {:induction false} NoRescaleFindsNone(s: State, ts: seq<Txn>)
    requires forall t :: t in ts ==> !t.Rescales()
    ensures NoneWaitsAtRescales(s, ts)
    decreases |ts|
  {
    hide Step, EnterDay;
    if ts != [] {
      NoRescaleFindsNone(Step(s, ts[0]), ts[1..]);
    }
  }

  /**
   * Whenever a rescale releases a waiting sell, one more buy in front of it is unsafe: with some later
   * events the ledger is accepted, and with the buy it is not.
   */
  lemma ReleaseMakesABuyUnsafe(past: seq<Txn>, t: Txn)
    requires Ordered(past + [t]) && Releases(EnterDay(Run(START, past), t.Day()), t)
    requires !EnterDay(Run(START, past), t.Day()).oversold
    ensures exists buy: Txn, rest: seq<Txn> ::
              && InFront(past, buy, t, rest)
              && !Replay(past + [t] + rest).oversold && Replay(past + [buy] + [t] + rest).oversold
  {
    hide Within, Settle, SellNow, Releases, EnterDay;
    var s0 := Run(START, past);
    var s := EnterDay(s0, t.Day());
    RunKeepsSound(START, past);
    EnterDayKeepsSound(s0, t.Day());
    EntersItsDay(s0, t);
    var buy, rest := UnsafeRuns(s, t);
    OrderAround(past, t, buy, rest);
    RunPast(past, [t], rest);
    assert past + ([buy] + [t]) + rest == past + [buy] + [t] + rest;
    RunPast(past, [buy] + [t], rest);
    RunOne(s0, t);
    assert [buy] + [t] == [buy, t];
    RunConcat(s0, [buy], [t]);
    RunOne(s0, buy);
    WithinKeepsSound(s, buy);
    EntersAgain(Within(s, buy), t);
    RunOne(Within(s, buy), t);
    RunConcat(START, past, [t]);
    NoRescaleFindsNone(Run(START, past + [t]), rest);
    assert InFront(past, buy, t, rest);
    assert !Replay(past + [t] + rest).oversold && Replay(past + [buy] + [t] + rest).oversold;
  }

  lemma EntersItsDay(s: State, t: Txn)
    ensures EnterDay(s, t.Day()).previous == Some(t.Day())
    ensures Step(s, t) == Within(EnterDay(s, t.Day()), t)
    ensures Releases(EnterDay(s, t.Day()), t) ==> !t.kind.Opening?
  {
  }

  lemma EntersAgain(s: State, t: Txn)
    requires s.previous == Some(t.Day())
    ensures Step(s, t) == Within(s, t)
  {
    assert EnterDay(s, t.Day()) == s;
  }

  lemma RunPast(past: seq<Txn>, middle: seq<Txn>, rest: seq<Txn>)
    requires Ordered(past + middle + rest)
    ensures Replay(past + middle + rest) == Report(Run(Run(Run(START, past), middle), rest))
  {
    SortOfOrdered(past + middle + rest);
    RunConcat(START, past + middle, rest);
    RunConcat(START, past, middle);
  }

  /** What drains leaves the queue. */
  lemma {:induction false} DrainShrinks(s: State)
    requires Solvent(s) && QueueOfSells(s.waiting)
    ensures Sum(Settle(s, false).waiting, QuantityOf) <= Sum(s.waiting, QuantityOf)
    decreases |s.waiting|
  {
    hide SellNow;
    if s.waiting != [] && s.waiting[0].quantity <= s.qty {
      SellKeepsSolvent(s, s.waiting[0]);
      SellKeepsQueue(s, s.waiting[0]);
      DrainShrinks(SellNow(s, s.waiting[0]).(waiting := s.waiting[1..]));
      assert s.waiting[0] in s.waiting;
    }
  }

  /** A buy leaves the queue as it is, or sells at least its head. */
  lemma BuyDrains(s: State, buy: Txn)
    requires Sound(s) && buy.kind.Buy? && s.waiting != []
    ensures var e := Within(s, buy);
            || e.waiting == s.waiting
            || Sum(e.waiting, QuantityOf) <= Sum(s.waiting, QuantityOf) - s.waiting[0].quantity
  {
    hide SellNow;
    var raised, h := Effect(s, buy), s.waiting[0];
    EffectKeepsSolvent(s, buy);
    assert raised.waiting == s.waiting;
    if h.quantity <= raised.qty {
      SellKeepsSolvent(raised, h);
      SellKeepsQueue(raised, h);
      DrainShrinks(SellNow(raised, h).(waiting := s.waiting[1..]));
    }
  }

  /** A rescale that does not release the head: what is sold early is no less than the shares would have grown to. */
  lemma SoldEarlyOutweighs(less: State, more: State, head: real, r: real)
    requires r > 0.0 && more.qty >= 0.0 && Net(less) <= Net(more) && less.qty * r <= head
    requires var (w, left) := (Sum(less.waiting, QuantityOf), Sum(more.waiting, QuantityOf)); left == w || left <= w - head
    ensures less.qty * r - Sum(less.waiting, QuantityOf) <= more.qty * r - Sum(more.waiting, QuantityOf)
  {
    var (w, left) := (Sum(less.waiting, QuantityOf), Sum(more.waiting, QuantityOf));
    if left == w {
      RescaleMonotone(less.qty, more.qty, r);
    } else {
      RescaleMonotone(0.0, more.qty, r);
    }
  }

  lemma UnreleasedHead(s: State, t: Txn)
    requires t.Rescales() && t.ratio > 0.0 && s.waiting != [] && !Releases(s, t)
    ensures s.qty * t.ratio <= s.waiting[0].quantity
  {
  }

  lemma DeltaOfBuy(buy: Txn)
    requires buy.kind.Buy?
    ensures Delta(buy) >= 0.0 && !buy.Rescales()
  {
  }

  lemma BoughtInFrontNets(s: State, buy: Txn, t: Txn)
    requires Sound(s) && s.previous == Some(buy.Day()) && buy.kind.Buy?
    requires t.Rescales() && s.waiting != [] && !Releases(s, t)
    ensures Sound(Within(s, buy)) && Net(Within(s, t)) <= Net(Within(Within(s, buy), t))
  {
    hide Settle, SellNow, Within, Net, Releases, Delta;
    var e := Within(s, buy);
    BuyDrains(s, buy);
    DeltaOfBuy(buy);
    WithinKeepsSound(s, buy);
    WithinMovesNet(s, buy);
    if t.ratio > 0.0 {
      UnreleasedHead(s, t);
      SoldEarlyOutweighs(s, e, s.waiting[0].quantity, t.ratio);
      RescaleMovesNet(s, t);
      RescaleMovesNet(e, t);
    } else {
      NoRescale(s, t);
      NoRescale(e, t);
    }
  }

  lemma BoughtInFrontDominates(s: State, buy: Txn, t: Txn)
    requires Sound(s) && s.previous == Some(t.Day()) && s.previous == Some(buy.Day()) && !s.oversold
    requires buy.kind.Buy? && t.Rescales() && s.waiting != [] && !Releases(s, t)
    ensures Dominates(Within(Within(s, buy), t), Within(s, t))
  {
    hide Within, Settle, SellNow, Net, Releases;
    var e := Within(s, buy);
    DeltaOfBuy(buy);
    BoughtInFrontNets(s, buy, t);
    WithinKeepsSound(s, buy);
    WithinMovesNet(s, buy);
    WithinKeepsSound(s, t);
    WithinKeepsSound(e, t);
    RescaleKeepsFlag(s, t);
    RescaleKeepsFlag(e, t);
  }

  lemma NoRescale(s: State, t: Txn)
    requires Sound(s) && t.Rescales() && t.ratio <= 0.0
    ensures Within(s, t) == s
  {
  }

  /** Every accepted continuation stays accepted with one more buy directly in front of t. */
  ghost predicate BuysInFrontAreSafe(past: seq<Txn>, t: Txn) {
    forall buy: Txn, rest: seq<Txn> | InFront(past, buy, t, rest) && !Replay(past + [t] + rest).oversold ::
      !Replay(past + [buy] + [t] + rest).oversold
  }

  lemma OrderedWithoutOne(past: seq<Txn>, buy: Txn, rest: seq<Txn>)
    requires Ordered(past + [buy] + rest)
    ensures Ordered(past + rest)
  {
    var all, left := past + [buy] + rest, past + rest;
    forall i, j | 0 <= i < j < |left|
      ensures !Before(left[j], left[i])
    {
      assert left[i] == all[if i < |past| then i else i + 1] && left[j] == all[if j < |past| then j else j + 1];
    }
  }

  lemma InFrontIsOrdered(past: seq<Txn>, buy: Txn, t: Txn, rest: seq<Txn>)
    requires InFront(past, buy, t, rest)
    ensures Ordered(past + [t] + rest) && Ordered(past + [buy] + ([t] + rest))
    ensures past + [buy] + [t] + rest == past + ([buy] + [t]) + rest && Ordered(past + ([buy] + [t]) + rest)
  {
    hide Ordered, NoneWaitsAtRescales, Run;
    assert past + [buy] + [t] + rest == past + [buy] + ([t] + rest) && past + ([t] + rest) == past + [t] + rest;
    assert past + [buy] + [t] + rest == past + ([buy] + [t]) + rest;
    OrderedWithoutOne(past, buy, [t] + rest);
  }

  /** Sells wait for a rescale on its own day, so a buy between them is of that day. */
  lemma WaitingPinsTheDay(past: seq<Txn>, buy: Txn, t: Txn, rest: seq<Txn>)
    requires buy.kind.Buy? && Ordered(past + [buy] + [t] + rest)
    requires EnterDay(Run(START, past), t.Day()).waiting != []
    ensures Run(START, past).previous == Some(t.Day()) == Some(buy.Day())
  {
    hide Run, Settle;
    var s := Run(START, past);
    RunKeepsSound(START, past);
    SettleEmpties(s);
    assert s.previous == Some(t.Day()) && s.waiting != [];
    WaitingComesFromEvents(START, past);
    var w, all := s.waiting[0], past + [buy] + [t] + rest;
    assert w in s.waiting && w in past;
    var i :| 0 <= i < |past| && past[i] == w;
    assert all[i] == w && all[|past|] == buy && all[|past| + 1] == t;
    assert !Before(all[|past|], all[i]) && !Before(all[|past| + 1], all[|past|]);
    DaysFollowDates(w.date, buy.date);
    DaysFollowDates(buy.date, t.date);
  }

  lemma UnreleasedIsSafe(past: seq<Txn>, buy: Txn, t: Txn, rest: seq<Txn>)
    requires t.Rescales() && InFront(past, buy, t, rest) && !Replay(past + [t] + rest).oversold
    requires !Releases(EnterDay(Run(START, past), t.Day()), t)
    ensures !Replay(past + [buy] + [t] + rest).oversold
  {
    hide Within, Settle, SellNow, Releases, EnterDay, NoneWaitsAtRescales, Run;
    var s0 := Run(START, past);
    var s := EnterDay(s0, t.Day());
    InFrontIsOrdered(past, buy, t, rest);
    RunPast(past, [t], rest);
    RunPast(past, [buy] + [t], rest);
    RunConcat(START, past, [t]);
    RunConcat(s0, [buy], [t]);
    RunOne(s0, t);
    RunOne(s0, buy);
    RunOne(Step(s0, buy), t);
    RunKeepsSound(START, past);
    EnterDayKeepsSound(s0, t.Day());
    EntersItsDay(s0, t);
    if s.waiting == [] {
      RunConcat(s0, [t], rest);
      RunConcat(Step(s0, buy), [t], rest);
      NoneWaitsFrom(s0, t, rest);
      BuyBetween(past, buy, [t] + rest);
    } else {
      WaitingPinsTheDay(past, buy, t, rest);
      EntersAgain(s0, t);
      UnreleasedRun(s0, buy, t, rest);
    }
  }

  lemma UnreleasedRun(s: State, buy: Txn, t: Txn, rest: seq<Txn>)
    requires Sound(s) && s.previous == Some(t.Day()) == Some(buy.Day()) && s.waiting != []
    requires buy.kind.Buy? && t.Rescales() && !Releases(s, t)
    requires !Report(Run(Step(s, t), rest)).oversold && NoneWaitsAtRescales(Step(s, t), rest)
    ensures !Report(Run(Step(Step(s, buy), t), rest)).oversold
  {
    hide Within, Settle, SellNow, Releases, NoneWaitsAtRescales, Run, EnterDay;
    EntersAgain(s, t);
    EntersAgain(s, buy);
    WithinKeepsSound(s, buy);
    EntersAgain(Within(s, buy), t);
    WithinKeepsSound(s, t);
    AcceptedSoFar(Within(s, t), rest);
    RescaleKeepsFlag(s, t);
    BoughtInFrontDominates(s, buy, t);
    DominatesRun(Within(Within(s, buy), t), Within(s, t), rest);
  }

  lemma RescaleKeepsFlag(s: State, t: Txn)
    requires Sound(s) && t.Rescales()
    ensures Within(s, t).oversold == s.oversold
  {
    hide Within, Settle, SellNow;
    if t.ratio > 0.0 {
      RescaleMovesNet(s, t);
    } else {
      NoRescale(s, t);
    }
  }

  lemma NoneWaitsFrom(s: State, t: Txn, rest: seq<Txn>)
    requires EnterDay(s, t.Day()).waiting == [] && NoneWaitsAtRescales(Step(s, t), rest)
    ensures NoneWaitsAtRescales(s, [t] + rest)
  {
    assert ([t] + rest)[1..] == rest;
  }

  /**
   * Exactly when a buy directly in front of a rescale is always safe: when it does not release the head of
   * the queue. (A ledger oversold already has no accepted continuation.)
   */
  lemma BuysInFrontAreSafeIff(past: seq<Txn>, t: Txn)
    requires Ordered(past + [t]) && t.Rescales()
    ensures BuysInFrontAreSafe(past, t) <==>
              EnterDay(Run(START, past), t.Day()).oversold || !Releases(EnterDay(Run(START, past), t.Day()), t)
  {
    hide InFront, Releases, EnterDay, Replay;
    var s := EnterDay(Run(START, past), t.Day());
    if s.oversold {
      forall buy: Txn, rest: seq<Txn> | InFront(past, buy, t, rest)
        ensures Replay(past + [t] + rest).oversold
      {
        OversoldStays(past, buy, t, rest);
      }
    } else if !Releases(s, t) {
      forall buy: Txn, rest: seq<Txn> | InFront(past, buy, t, rest) && !Replay(past + [t] + rest).oversold
        ensures !Replay(past + [buy] + [t] + rest).oversold
      {
        UnreleasedIsSafe(past, buy, t, rest);
      }
    } else {
      ReleaseMakesABuyUnsafe(past, t);
    }
  }

  lemma OversoldStays(past: seq<Txn>, buy: Txn, t: Txn, rest: seq<Txn>)
    requires InFront(past, buy, t, rest) && EnterDay(Run(START, past), t.Day()).oversold && t.Rescales()
    ensures Replay(past + [t] + rest).oversold
  {
    hide Within, Settle, SellNow, EnterDay, Run, InFront, Ordered, Replay, Report;
    var s0 := Run(START, past);
    var s := EnterDay(s0, t.Day());
    InFrontIsOrdered(past, buy, t, rest);
    RunPast(past, [t], rest);
    RunOne(s0, t);
    RunKeepsSound(START, past);
    EnterDayKeepsSound(s0, t.Day());
    EntersItsDay(s0, t);
    WithinKeepsSound(s, t);
    RescaleKeepsFlag(s, t);
    RunOversoldStays(Within(s, t), rest);
  }

  const EXTRA := Txn(0, 1, Buy, 0, 2.0, 20.0, 0.0, 0.0, None, "INR", 0)
  const HELD := Txn(1, 1, Buy, 0, 8.0, 80.0, 0.0, 0.0, None, "INR", 1)
  const SOLD := Txn(2, 1, Sell, DAY, 10.0, 300.0, 0.0, 0.0, None, "INR", 2)
  const DOUBLED := Txn(3, 1, Split, DAY, 0.0, 0.0, 2.0, 0.0, None, "INR", 3)
  const LAST := Txn(4, 1, Sell, 2 * DAY, 6.0, 100.0, 0.0, 0.0, None, "INR", 4)

  lemma FourInOrder()
    ensures Ordered([HELD, SOLD, DOUBLED, LAST]) && Ordered([EXTRA, HELD, SOLD, DOUBLED, LAST])
  {
  }

  /** Eight shares: the sell of ten waits for the split, and the last sell takes the remaining six. */
  lemma WithoutExtraRun()
    ensures var s := Step(Step(Step(Step(START, HELD), SOLD), DOUBLED), LAST); s.waiting == [] && !s.oversold
  {
    hide SellNow;
    StepIdle(START, HELD);
    var s1 := Step(START, HELD);
    StepIdle(s1, SOLD);
    var s2 := Step(s1, SOLD);
    assert s2.qty == 8.0 && s2.waiting == [SOLD] && !s2.oversold && s2.previous == Some(1);
    var doubled := s2.(qty := 16.0);
    var s3 := Step(s2, DOUBLED);
    assert s3 == Settle(doubled, false);
    SettleOne(doubled, SOLD);
    SellKeepsQueue(doubled, SOLD);
    StepIdle(s3, LAST);
    SellKeepsQueue(s3, LAST);
  }

  lemma WithoutExtra()
    ensures !Replay([HELD, SOLD, DOUBLED, LAST]).oversold
  {
    hide Step, Sort, Run;
    FourInOrder();
    SortOfOrdered([HELD, SOLD, DOUBLED, LAST]);
    RunFour(START, [HELD, SOLD, DOUBLED, LAST]);
    WithoutExtraRun();
  }

  /** Ten shares: the sell of ten takes them all before the split. */
  lemma WithExtraRun()
    ensures var s := Step(Step(Step(Step(Step(START, EXTRA), HELD), SOLD), DOUBLED), LAST); s.waiting == [LAST] && s.qty == 0.0
  {
    hide SellNow, Step;
    StepIdle(START, EXTRA);
    var s0 := Step(START, EXTRA);
    StepIdle(s0, HELD);
    var s1 := Step(s0, HELD);
    assert s1.qty == 10.0 && s1.waiting == [];
    StepIdle(s1, SOLD);
    SellKeepsQueue(s1, SOLD);
    var s2 := Step(s1, SOLD);
    assert s2.qty == 0.0 && s2.waiting == [];
    StepIdle(s2, DOUBLED);
    StepIdle(Step(s2, DOUBLED), LAST);
  }

  lemma WithExtra()
    ensures Replay([EXTRA, HELD, SOLD, DOUBLED, LAST]).oversold
  {
    hide Step, Sort, Run;
    var ledger := [EXTRA, HELD, SOLD, DOUBLED, LAST];
    FourInOrder();
    SortOfOrdered(ledger);
    RunFive(ledger);
    WithExtraRun();
    ShortAtTheEnd(Step(Step(Step(Step(Step(START, EXTRA), HELD), SOLD), DOUBLED), LAST), LAST);
  }

  lemma RunFive(ts: seq<Txn>)
    requires |ts| == 5
    ensures Run(START, ts) == Step(Step(Step(Step(Step(START, ts[0]), ts[1]), ts[2]), ts[3]), ts[4])
  {
    hide Step;
    RunFour(Step(START, ts[0]), ts[1..]);
  }

  /**
   * A condition is needed. Eight shares, a sell of ten that waits for the day's 2-for-1
   * split, and six left to sell the next day: two more shares beforehand let the first
   * sell go through unsplit, and the second is short.
   */
  lemma ExtraBuyCanOversell()
    ensures exists ledger: seq<Txn>, buy: Txn ::
              buy.kind.Buy? && !Replay(ledger).oversold && Replay([buy] + ledger).oversold
  {
    var ledger := [HELD, SOLD, DOUBLED, LAST];
    WithoutExtra();
    WithExtra();
    assert [EXTRA] + ledger == [EXTRA, HELD, SOLD, DOUBLED, LAST];
    assert EXTRA.kind.Buy? && !Replay(ledger).oversold && Replay([EXTRA] + ledger).oversold;
  }

  lemma RunFour(s: State, ts: seq<Txn>)
    requires |ts| == 4
    ensures Run(s, ts) == Step(Step(Step(Step(s, ts[0]), ts[1]), ts[2]), ts[3])
  {
    RunConcat(s, ts[..2], ts[2..]);
    assert ts == ts[..2] + ts[2..] && ts[..2] == [ts[0]] + [ts[1]] && ts[2..] == [ts[2]] + [ts[3]];
    RunConcat(s, [ts[0]], [ts[1]]);
    RunOne(s, ts[0]);
    RunOne(Step(s, ts[0]), ts[1]);
    var m := Step(Step(s, ts[0]), ts[1]);
    RunConcat(m, [ts[2]], [ts[3]]);
    RunOne(m, ts[2]);
    RunOne(Step(m, ts[2]), ts[3]);
  }
}
