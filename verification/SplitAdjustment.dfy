/** A split or bonus may be folded into the quantities of the events before it. */
module SplitAdjustment {
  import opened Sequences
  import opened Ledger
  import opened ReplayOrder
  import opened ReplayState
  import opened Verdict
  import opened BuySafety

  function ScaledBy(r: real): Txn -> Txn {
    (t: Txn) => t.(quantity := t.quantity * r)
  }

  /** The same holding counted in shares r times as small. */
  function ScaledState(s: State, r: real): State {
    s.(qty := s.qty * r, waiting := Map(s.waiting, ScaledBy(r)))
  }

  lemma Product(a: real, b: real, r: real)
    requires r > 0.0
    ensures a * r > b * r <==> a > b
    ensures a * r <= b * r <==> a <= b
    ensures a * r > 0.0 <==> a > 0.0
    ensures (a - b) * r == a * r - b * r && (a + b) * r == a * r + b * r
  {
  }

  lemma ScaledCost(qty: real, basis: real, sold: real, r: real)
    requires r > 0.0 && qty > 0.0
    ensures qty * r > 0.0 && basis / (qty * r) * (sold * r) == basis / qty * sold
  {
    var avg := basis / qty;
    assert avg * qty == basis;
    assert qty * r > 0.0;
    assert basis / (qty * r) == avg / r by {
      assert (avg / r) * (qty * r) == (avg / r * r) * qty;
      assert avg / r * r == avg;
      QuotientUnique(basis, qty * r, avg / r);
    }
    assert avg / r * (sold * r) == (avg / r * r) * sold;
  }

  lemma QuotientUnique(a: real, b: real, q: real)
    requires b != 0.0 && q * b == a
    ensures a / b == q
  {
  }

  /** What a sell moves, with its cost named. */
  function SellAt(s: State, t: Txn, sold: real, cost: real): State {
    s.(qty := s.qty - sold, basis := s.basis - cost, realized := s.realized + (t.amount - cost),
       oversold := s.oversold || t.quantity > s.qty)
  }

  function SoldOf(s: State, t: Txn): real {
    if t.quantity > s.qty then s.qty else t.quantity
  }

  function SaleCost(s: State, t: Txn): real {
    AverageCost(s) * SoldOf(s, t)
  }

  lemma SellNowAt(s: State, t: Txn)
    ensures SellNow(s, t) == SellAt(s, t, SoldOf(s, t), SaleCost(s, t))
  {
  }

  lemma SoldScaled(s: State, t: Txn, r: real)
    requires r > 0.0
    ensures SoldOf(ScaledState(s, r), ScaledBy(r)(t)) == SoldOf(s, t) * r
  {
    Product(t.quantity, s.qty, r);
  }

  lemma AverageScaled(s: State, r: real)
    requires r > 0.0
    ensures AverageCost(ScaledState(s, r)) == if s.qty > 0.0 then s.basis / (s.qty * r) else 0.0
  {
    Product(s.qty, 0.0, r);
  }

  lemma CostScaled(s: State, t: Txn, r: real)
    requires r > 0.0
    ensures SaleCost(ScaledState(s, r), ScaledBy(r)(t)) == SaleCost(s, t)
  {
    hide SoldOf;
    SoldScaled(s, t, r);
    AverageScaled(s, r);
    if s.qty > 0.0 {
      ScaledCost(s.qty, s.basis, SoldOf(s, t), r);
    }
  }

  lemma SellScaled(s: State, t: Txn, r: real)
    requires r > 0.0
    ensures SellNow(ScaledState(s, r), ScaledBy(r)(t)) == ScaledState(SellNow(s, t), r)
  {
    hide SellNow, SaleCost, SoldOf;
    SellNowAt(s, t);
    SellNowAt(ScaledState(s, r), ScaledBy(r)(t));
    SoldScaled(s, t, r);
    CostScaled(s, t, r);
    Product(t.quantity, s.qty, r);
    Product(s.qty, SoldOf(s, t), r);
  }

  /** One turn of the settling loop on the scaled queue. */
  lemma SellHeadScaled(s: State, r: real)
    requires r > 0.0 && s.waiting != []
    ensures var scaled, next := ScaledState(s, r), SellNow(s, s.waiting[0]).(waiting := s.waiting[1..]);
            SellNow(scaled, scaled.waiting[0]).(waiting := scaled.waiting[1..]) == ScaledState(next, r)
  {
    SellScaled(s, s.waiting[0], r);
    assert Map(s.waiting, ScaledBy(r))[1..] == Map(s.waiting[1..], ScaledBy(r));
  }

  lemma HeadFitsScaled(s: State, r: real)
    requires r > 0.0 && s.waiting != []
    ensures ScaledState(s, r).waiting[0].quantity <= ScaledState(s, r).qty <==> s.waiting[0].quantity <= s.qty
  {
    Product(s.waiting[0].quantity, s.qty, r);
  }

  lemma {:induction false} SettleScaled(s: State, endOfDay: bool, r: real)
    requires r > 0.0
    ensures Settle(ScaledState(s, r), endOfDay) == ScaledState(Settle(s, endOfDay), r)
    decreases |s.waiting|
  {
    if s.waiting != [] {
      HeadFitsScaled(s, r);
      if endOfDay || s.waiting[0].quantity <= s.qty {
        SellHeadScaled(s, r);
        SettleScaled(SellNow(s, s.waiting[0]).(waiting := s.waiting[1..]), endOfDay, r);
      }
    }
  }

  lemma EnterDayScaled(s: State, d: int, r: real)
    requires r > 0.0
    ensures EnterDay(ScaledState(s, r), d) == ScaledState(EnterDay(s, d), r)
  {
    hide Settle;
    SettleScaled(s, true, r);
  }

  lemma FactorsCommute(q: real, r: real, ratio: real)
    ensures q * r * ratio == q * ratio * r
  {
  }

  lemma EffectScaled(s: State, t: Txn, r: real)
    requires r > 0.0
    ensures Effect(ScaledState(s, r), ScaledBy(r)(t)) == ScaledState(Effect(s, t), r)
  {
    hide SellNow;
    Product(t.quantity, s.qty, r);
    Product(s.qty, t.quantity, r);
    SellScaled(s, t, r);
    FactorsCommute(s.qty, r, t.ratio);
  }

  lemma FitsScaled(s: State, t: Txn, r: real)
    requires r > 0.0
    ensures ScaledBy(r)(t).kind == t.kind
    ensures ScaledBy(r)(t).quantity > ScaledState(s, r).qty <==> t.quantity > s.qty
  {
    Product(t.quantity, s.qty, r);
  }

  lemma WithinScaled(s: State, t: Txn, r: real)
    requires r > 0.0
    ensures Within(ScaledState(s, r), ScaledBy(r)(t)) == ScaledState(Within(s, t), r)
  {
    hide Settle, Effect, ScaledBy;
    FitsScaled(s, t, r);
    if t.kind.Sell? && t.quantity > s.qty {
      assert Map(s.waiting + [t], ScaledBy(r)) == Map(s.waiting, ScaledBy(r)) + [ScaledBy(r)(t)];
    } else {
      EffectScaled(s, t, r);
      SettleScaled(Effect(s, t), false, r);
    }
  }

  lemma {:induction false} RunScaled(s: State, ts: seq<Txn>, r: real)
    requires r > 0.0
    ensures Run(ScaledState(s, r), Map(ts, ScaledBy(r))) == ScaledState(Run(s, ts), r)
    decreases |ts|
  {
    if ts != [] {
      var scaled := Map(ts, ScaledBy(r));
      EnterDayScaled(s, ts[0].Day(), r);
      WithinScaled(EnterDay(s, ts[0].Day()), ts[0], r);
      assert scaled[0].Day() == ts[0].Day();
      assert scaled[1..] == Map(ts[1..], ScaledBy(r));
      RunScaled(Step(s, ts[0]), ts[1..], r);
    }
  }

  lemma RescaleStep(s: State, split: Txn)
    requires split.Rescales() && split.ratio > 0.0 && s.waiting == []
    ensures Within(s, split) == ScaledState(s, split.ratio)
  {
  }

  /** Settling an earlier day first changes no report. */
  lemma EnterFirst(s: State, d: int, rest: seq<Txn>)
    requires s.waiting != [] ==> s.previous.Some? && s.previous.value < d
    requires rest != [] ==> rest[0].Day() >= d
    ensures EnterDay(s, d).waiting == []
    ensures Report(Run(EnterDay(s, d), rest)) == Report(Run(s, rest))
  {
    hide SellNow, Run, Report;
    SettleEmpties(s);
    if s.previous != Some(d) {
      SettleEarly(s, Some(d), rest);
    }
  }

  /** Drops the split from the day it opens, in favour of the scaled past. */
  lemma SplitFolds(s: State, split: Txn, rest: seq<Txn>)
    requires split.Rescales() && split.ratio > 0.0
    requires s.waiting != [] ==> s.previous.Some? && s.previous.value < split.Day()
    requires rest != [] ==> rest[0].Day() >= split.Day()
    ensures Report(Run(Step(s, split), rest)) == Report(Run(ScaledState(s, split.ratio), rest))
  {
    hide Within, EnterDay, Run, Report;
    var d, r := split.Day(), split.ratio;
    EnterFirst(s, d, rest);
    RescaleStep(EnterDay(s, d), split);
    EnterDayScaled(s, d, r);
    EnterFirst(ScaledState(s, r), d, rest);
  }

  /** Scales the events ordered before the split. */
  function Adjusted(split: Txn): Txn -> Txn {
    (t: Txn) => if Before(t, split) then t.(quantity := t.quantity * split.ratio) else t
  }

  lemma AdjustedOrdered(ts: seq<Txn>, split: Txn, k: nat)
    requires k <= |ts|
    requires forall i :: 0 <= i < k ==> Before(ts[i], split)
    requires forall i :: k <= i < |ts| ==> !Before(ts[i], split)
    ensures Map(ts, Adjusted(split)) == Map(ts[..k], ScaledBy(split.ratio)) + ts[k..]
  {
  }

  function Precedes(split: Txn): Txn -> bool {
    (t: Txn) => Before(t, split)
  }

  /** The sells waiting when the replay reaches the split. */
  function WaitingAt(txns: seq<Txn>, split: Txn): seq<Txn> {
    EnterDay(Run(START, Sort(Filter(txns, Precedes(split)))), split.Day()).waiting
  }

  /** Sells still waiting when the split opens its day wait on an earlier one. */
  lemma WaitingBeforeSplit(past: seq<Txn>, split: Txn)
    requires split.Rescales()
    requires forall t :: t in past ==> Before(t, split)
    requires EnterDay(Run(START, past), split.Day()).waiting == []
    ensures var s := Run(START, past);
            Sound(s) && (s.waiting != [] ==> s.previous.Some? && s.previous.value < split.Day())
  {
    hide SellNow, Settle;
    var s := Run(START, past);
    RunKeepsSound(START, past);
    WaitingComesFromEvents(START, past);
    if s.waiting != [] {
      assert s.waiting[0] in s.waiting && s.waiting[0] in past;
      DaysFollowDates(s.waiting[0].date, split.date);
      EnterDayKeepsSound(s, split.Day());
    }
  }

  /** Where the split stands in the replay order, and what the adjustment does to that order. */
  lemma SplitPosition(before: seq<Txn>, split: Txn, after: seq<Txn>) returns (past: seq<Txn>, rest: seq<Txn>)
    requires forall t :: t in before ==> !Tie(t, split)
    ensures Sort(before + [split] + after) == past + [split] + rest
    ensures Sort(Map(before + after, Adjusted(split))) == Map(past, ScaledBy(split.ratio)) + rest
    ensures forall t :: t in past ==> Before(t, split)
    ensures forall t :: t in rest ==> !Before(t, split)
    ensures Sort(before + after) == past + rest && past == Sort(Filter(before + after, Precedes(split)))
  {
    hide Sort;
    var others := Sort(before + after);
    SortMiddle(before, split, after);
    SortOrders(before + after);
    SortMembers(before + after);
    var k := InsertSplits(split, others);
    past, rest := others[..k], others[k..];
    forall i | k <= i < |others|
      ensures !Before(others[i], split)
    {
      if i > k {
        assert !Before(others[i], others[k]);
      }
    }
    AdjustedOrdered(others, split, k);
    SortMapped(before + after, Adjusted(split));
    assert others == past + rest;
    PastIsTheFilter(past, rest, split);
    SortFiltered(before + after, Precedes(split));
  }

  lemma PastIsTheFilter(past: seq<Txn>, rest: seq<Txn>, split: Txn)
    requires forall t :: t in past ==> Before(t, split)
    requires forall t :: t in rest ==> !Before(t, split)
    ensures Filter(past + rest, Precedes(split)) == past
  {
    FilterConcat(past, rest, Precedes(split));
    FilterAll(past, Precedes(split));
    FilterNone(rest, Precedes(split));
  }

  lemma FoldedRun(past: seq<Txn>, split: Txn, rest: seq<Txn>)
    requires split.Rescales() && split.ratio > 0.0
    requires forall t :: t in past ==> Before(t, split)
    requires forall t :: t in rest ==> !Before(t, split)
    requires EnterDay(Run(START, past), split.Day()).waiting == []
    ensures Report(Run(START, past + [split] + rest))
         == Report(Run(START, Map(past, ScaledBy(split.ratio)) + rest))
  {
    var s := Run(START, past);
    assert Run(START, past + [split] + rest) == Run(Step(s, split), rest) by {
      RunConcat(START, past + [split], rest);
      RunConcat(START, past, [split]);
      RunOne(s, split);
    }
    assert Run(START, Map(past, ScaledBy(split.ratio)) + rest) == Run(ScaledState(s, split.ratio), rest) by {
      ScaledPast(past, split.ratio);
      RunConcat(START, Map(past, ScaledBy(split.ratio)), rest);
    }
    WaitingBeforeSplit(past, split);
    if rest != [] {
      assert rest[0] in rest && !Before(rest[0], split);
      DaysFollowDates(split.date, rest[0].date);
    }
    SplitFolds(s, split, rest);
  }

  lemma ScaledPast(past: seq<Txn>, r: real)
    requires r > 0.0
    ensures Run(START, Map(past, ScaledBy(r))) == ScaledState(Run(START, past), r)
  {
    assert ScaledState(START, r) == START;
    RunScaled(START, past, r);
  }

  /**
   * Split adjustment preserves meaning. When no sell is waiting as the split is reached,
   * dropping the split and scaling every earlier event gives the same shares, average
   * cost, profit, dividends and verdict. (The split may tie only with later input.)
   */
  lemma SplitAdjustmentPreservesMeaning(before: seq<Txn>, split: Txn, after: seq<Txn>)
    requires split.Rescales() && split.ratio > 0.0
    requires forall t :: t in before ==> !Tie(t, split)
    requires WaitingAt(before + after, split) == []
    ensures Replay(before + [split] + after) == Replay(Map(before + after, Adjusted(split)))
  {
    hide Run, Sort, EnterDay, Adjusted;
    var past, rest := SplitPosition(before, split, after);
    FoldedRun(past, split, rest);
  }

  // ----- when a sell does wait -----

  /** Two accepted runs that differ in net shares still differ at the end, if nothing waits at a rescale. */
  lemma {:induction false} DriftRun(a: State, b: State, ts: seq<Txn>)
    requires Sound(a) && Sound(b) && a.previous == b.previous && Net(a) != Net(b)
    requires NoneWaitsAtRescales(a, ts) && NoneWaitsAtRescales(b, ts)
    requires !Report(Run(a, ts)).oversold && !Report(Run(b, ts)).oversold
    ensures Report(Run(a, ts)).position.stocksOwned != Report(Run(b, ts)).position.stocksOwned
    decreases |ts|
  {
    hide SellNow, Settle, EnterDay, Within, Net;
    AcceptedSoFar(a, ts);
    AcceptedSoFar(b, ts);
    if ts == [] {
      SettleClampsNet(a);
      SettleClampsNet(b);
    } else {
      var t := ts[0];
      DriftEnter(a, b, t.Day());
      DriftWithin(EnterDay(a, t.Day()), EnterDay(b, t.Day()), t);
      DriftRun(Step(a, t), Step(b, t), ts[1..]);
    }
  }

  lemma DriftEnter(a: State, b: State, d: int)
    requires Sound(a) && Sound(b) && a.previous == b.previous && Net(a) != Net(b)
    requires a.previous.Some? && a.previous.value != d ==> Net(a) >= 0.0 && Net(b) >= 0.0
    ensures var x, y := EnterDay(a, d), EnterDay(b, d);
            Sound(x) && Sound(y) && x.previous == y.previous == Some(d) && Net(x) != Net(y)
  {
    hide SellNow, Settle;
    EnterDayKeepsSound(a, d);
    EnterDayKeepsSound(b, d);
    SettleClampsNet(a);
    SettleClampsNet(b);
  }

  lemma DriftWithin(a: State, b: State, t: Txn)
    requires Sound(a) && Sound(b) && a.previous == b.previous == Some(t.Day()) && Net(a) != Net(b)
    requires t.Rescales() ==> a.waiting == [] && b.waiting == []
    ensures var x, y := Within(a, t), Within(b, t);
            Sound(x) && Sound(y) && x.previous == y.previous && Net(x) != Net(y)
  {
    hide Within, Settle, SellNow, Net;
    WithinKeepsSound(a, t);
    WithinKeepsSound(b, t);
    if t.Rescales() {
      RescaleWithin(a, t);
      RescaleWithin(b, t);
      if t.ratio > 0.0 {
        DistinctProducts(a.qty, b.qty, t.ratio);
      }
    } else {
      WithinMovesNet(a, t);
      WithinMovesNet(b, t);
    }
  }

  lemma DistinctProducts(a: real, b: real, r: real)
    requires a != b && r > 0.0
    ensures a * r != b * r
  {
    Product(a, b, r);
    Product(b, a, r);
  }

  lemma {:induction false} ScaledQueue(ts: seq<Txn>, r: real)
    ensures Sum(Map(ts, ScaledBy(r)), QuantityOf) == Sum(ts, QuantityOf) * r
  {
    if ts == [] {
      assert 0.0 * r == 0.0;
    } else {
      ScaledQueue(ts[1..], r);
      assert Map(ts, ScaledBy(r))[1..] == Map(ts[1..], ScaledBy(r));
      assert (ts[0].quantity + Sum(ts[1..], QuantityOf)) * r == ts[0].quantity * r + Sum(ts[1..], QuantityOf) * r;
    }
  }

  function Times(a: real, r: real): real {
    a * r
  }

  lemma NetOfScaled(s: State, r: real)
    ensures Net(ScaledState(s, r)) == Times(s.qty, r) - Times(Sum(s.waiting, QuantityOf), r)
    ensures ScaledState(s, r).previous == s.previous
  {
    ScaledQueue(s.waiting, r);
  }

  lemma NetOfRescaled(s: State, split: Txn)
    requires Sound(s) && split.Rescales() && split.ratio > 0.0
    ensures Net(Within(s, split)) == Times(s.qty, split.ratio) - Sum(s.waiting, QuantityOf)
  {
    hide Within, Net;
    RescaleMovesNet(s, split);
  }

  lemma UnequalProduct(a: real, r: real)
    requires a > 0.0 && r != 1.0
    ensures Times(a, r) != a
  {
    if r > 1.0 {
      assert a * (r - 1.0) > 0.0;
    } else {
      assert a * (1.0 - r) > 0.0;
    }
  }

  /** The split scales the shares held; folding it scales the waiting sells as well. */
  lemma WaitingSellsDrift(s: State, split: Txn)
    requires Sound(s) && s.previous == Some(split.Day()) && s.waiting != []
    requires split.Rescales() && split.ratio > 0.0 && split.ratio != 1.0
    ensures var a, b := Within(s, split), ScaledState(s, split.ratio);
            Sound(a) && Sound(b) && a.previous == b.previous && Net(a) != Net(b)
  {
    hide Within, Settle, SellNow, ScaledState, Net, Times;
    WithinKeepsSound(s, split);
    NetOfRescaled(s, split);
    ScaledStateIsSound(s, split.ratio);
    NetOfScaled(s, split.ratio);
    QueueTotal(s.waiting);
    UnequalProduct(Sum(s.waiting, QuantityOf), split.ratio);
  }

  lemma ScaledStateIsSound(s: State, r: real)
    requires Sound(s) && r > 0.0
    ensures Sound(ScaledState(s, r))
  {
    hide Settle, SellNow;
    var b := ScaledState(s, r);
    Product(s.qty, 0.0, r);
    forall w | w in b.waiting
      ensures w.kind.Sell? && w.quantity > 0.0 && b.previous == Some(w.Day())
    {
      var i :| 0 <= i < |s.waiting| && b.waiting[i] == w;
      assert s.waiting[i] in s.waiting;
      Product(s.waiting[i].quantity, 0.0, r);
    }
    if s.waiting != [] {
      Product(s.waiting[0].quantity, s.qty, r);
    }
  }

  lemma ScalingKeepsDays(txns: seq<Txn>, past: seq<Txn>, rest: seq<Txn>, r: real)
    requires SplitsAvoidSells(txns) && forall t :: t in past + rest ==> t in txns
    ensures SplitsAvoidSells(Map(past, ScaledBy(r)) + rest)
  {
    var scaled := Map(past, ScaledBy(r));
    forall t | t in scaled + rest
      ensures exists u :: u in txns && u.kind == t.kind && u.Day() == t.Day()
    {
      if t in scaled {
        var i :| 0 <= i < |past| && scaled[i] == t;
        assert past[i] in past + rest;
      } else {
        assert t in past + rest;
      }
    }
    forall t, u | t in scaled + rest && u in scaled + rest && t.Rescales() && u.kind.Sell?
      ensures t.Day() != u.Day()
    {
      var t0 :| t0 in txns && t0.kind == t.kind && t0.Day() == t.Day();
      var u0 :| u0 in txns && u0.kind == u.kind && u0.Day() == u.Day();
    }
  }

  lemma WithinKeepsMembers(s: State, t: Txn)
    requires Sound(s) && t.Rescales()
    ensures forall w :: w in Within(s, t).waiting ==> w in s.waiting
  {
    EffectKeepsSolvent(s, t);
    SettleKeepsSolvent(Effect(s, t), false);
  }

  lemma ScaledMembers(s: State, past: seq<Txn>, r: real)
    requires forall w :: w in s.waiting ==> w in past
    ensures forall w :: w in ScaledState(s, r).waiting ==> w in Map(past, ScaledBy(r))
  {
    var b, scaled := ScaledState(s, r), Map(past, ScaledBy(r));
    forall w | w in b.waiting
      ensures w in scaled
    {
      var i :| 0 <= i < |s.waiting| && b.waiting[i] == w;
      assert s.waiting[i] in past;
      var j :| 0 <= j < |past| && past[j] == s.waiting[i];
      assert scaled[j] == w;
    }
  }

  /** With a sell waiting at the split, an accepted ledger and its folding end apart. */
  lemma FoldingMovesWaitingSells(txns: seq<Txn>, past: seq<Txn>, split: Txn, rest: seq<Txn>)
    requires split.Rescales() && split.ratio > 0.0 && split.ratio != 1.0
    requires SplitsAvoidSells(txns) && forall t :: t in past + rest ==> t in txns
    requires EnterDay(Run(START, past), split.Day()).waiting != []
    requires !Report(Run(START, past + [split] + rest)).oversold
    ensures Report(Run(START, past + [split] + rest)) != Report(Run(START, Map(past, ScaledBy(split.ratio)) + rest))
  {
    hide SellNow, Settle, Within, Net, Run, SplitsAvoidSells, NoneWaitsAtRescales, ScaledState;
    var s, r := Run(START, past), split.ratio;
    RunKeepsSound(START, past);
    WaitingComesFromEvents(START, past);
    EnterDayKeepsSound(s, split.Day());
    EntersAgain(s, split);
    var a, b := Within(s, split), ScaledState(s, r);
    WaitingSellsDrift(s, split);
    FoldedEnds(past, split, rest);
    assert forall w :: w in s.waiting ==> w in past;
    WithinKeepsMembers(s, split);
    assert forall t :: t in past || t in rest ==> t in past + rest;
    NoneWaitsOffSellDays(a, rest, txns);
    ScaledMembers(s, past, r);
    ScalingKeepsDays(txns, past, rest, r);
    NoneWaitsOffSellDays(b, rest, Map(past, ScaledBy(r)) + rest);
    if !Report(Run(b, rest)).oversold {
      DriftRun(a, b, rest);
    }
  }

  lemma FoldedEnds(past: seq<Txn>, split: Txn, rest: seq<Txn>)
    requires split.ratio > 0.0
    ensures Run(START, past + [split] + rest) == Run(Step(Run(START, past), split), rest)
    ensures Run(START, Map(past, ScaledBy(split.ratio)) + rest) == Run(ScaledState(Run(START, past), split.ratio), rest)
  {
    hide Run, ScaledState, Step;
    RunConcat(START, past + [split], rest);
    RunConcat(START, past, [split]);
    RunOne(Run(START, past), split);
    ScaledPast(past, split.ratio);
    RunConcat(START, Map(past, ScaledBy(split.ratio)), rest);
  }

  /** A ratio of one changes nothing, whatever waits. */
  lemma UnitSplitIsInert(past: seq<Txn>, split: Txn, rest: seq<Txn>)
    requires split.Rescales() && split.ratio == 1.0
    requires EnterDay(Run(START, past), split.Day()).waiting != []
    ensures Report(Run(START, past + [split] + rest)) == Report(Run(START, Map(past, ScaledBy(split.ratio)) + rest))
  {
    hide SellNow, Run;
    var s := Run(START, past);
    RunKeepsSound(START, past);
    EnterDayKeepsSound(s, split.Day());
    EntersAgain(s, split);
    FoldedEnds(past, split, rest);
    assert s.qty * 1.0 == s.qty;
    assert Map(s.waiting, ScaledBy(1.0)) == s.waiting by {
      forall i | 0 <= i < |s.waiting|
        ensures ScaledBy(1.0)(s.waiting[i]) == s.waiting[i]
      {
        assert s.waiting[i].quantity * 1.0 == s.waiting[i].quantity;
      }
    }
    assert ScaledState(s, 1.0) == s;
    assert Within(s, split) == s;
  }

  /**
   * The exact condition, for an accepted ledger whose other splits fall on days without sells:
   * folding the split preserves the replay if and only if its ratio is one or nothing waits for it.
   */
  lemma FoldingPreservesIffNothingWaits(before: seq<Txn>, split: Txn, after: seq<Txn>)
    requires split.Rescales() && split.ratio > 0.0
    requires forall t :: t in before ==> !Tie(t, split)
    requires SplitsAvoidSells(before + after) && !Replay(before + [split] + after).oversold
    ensures Replay(before + [split] + after) == Replay(Map(before + after, Adjusted(split)))
       <==> split.ratio == 1.0 || WaitingAt(before + after, split) == []
  {
    hide Run, Sort, EnterDay, Adjusted, SplitsAvoidSells;
    var past, rest := SplitPosition(before, split, after);
    SortMembers(before + after);
    if WaitingAt(before + after, split) == [] {
      FoldedRun(past, split, rest);
    } else if split.ratio == 1.0 {
      UnitSplitIsInert(past, split, rest);
    } else {
      FoldingMovesWaitingSells(before + after, past, split, rest);
    }
  }

  /** A sell that waits for the split of its own day is not scaled by it. */
  lemma SellBeforeSplitIsNotScaled()
    ensures exists before: seq<Txn>, split: Txn ::
              split.Rescales() && split.ratio > 0.0
              && (forall t :: t in before ==> !Tie(t, split))
              && Replay(before + [split]) != Replay(Map(before, Adjusted(split)))
  {
    hide Step, Sort, Run;
    var buy := Txn(1, 1, Buy, 0, 8.0, 80.0, 0.0, 0.0, None, "INR", 1);
    var sell := Txn(2, 1, Sell, DAY, 10.0, 300.0, 0.0, 0.0, None, "INR", 2);
    var split := Txn(3, 1, Split, DAY, 0.0, 0.0, 2.0, 0.0, None, "INR", 3);
    var before := [buy, sell];
    var scaledBuy, scaledSell := buy.(quantity := 16.0), sell.(quantity := 20.0);
    assert Map(before, Adjusted(split)) == [scaledBuy, scaledSell];
    assert before + [split] == [buy, sell, split];
    ShortReplay3(buy, sell, split);
    ShortReplay2(scaledBuy, scaledSell);
    WaitsAndFits(buy, sell, split);
    FallsShort(scaledBuy, scaledSell);
  }

  /** The sell exceeds the shares bought but not their double: it waits for the split and fits. */
  lemma WaitsAndFits(buy: Txn, sell: Txn, split: Txn)
    requires buy.kind.Buy? && buy.quantity == 8.0 && buy.Day() != sell.Day()
    requires sell.kind.Sell? && sell.quantity == 10.0 && split.kind.Split? && split.ratio == 2.0 && sell.Day() == split.Day()
    ensures !Report(Step(Step(Step(START, buy), sell), split)).oversold
  {
    hide SellNow;
    StepIdle(START, buy);
    var s1 := Step(START, buy);
    StepIdle(s1, sell);
    var s2 := Step(s1, sell);
    var doubled := s2.(qty := 16.0);
    assert Step(s2, split) == Settle(doubled, false);
    SettleOne(doubled, sell);
    SellKeepsQueue(doubled, sell);
  }

  /** Scaled with its buy, the sell is short at the end of the day. */
  lemma FallsShort(buy: Txn, sell: Txn)
    requires buy.kind.Buy? && buy.quantity == 16.0 && sell.kind.Sell? && sell.quantity == 20.0
    ensures Report(Step(Step(START, buy), sell)).oversold
  {
    hide SellNow, Step;
    StepIdle(START, buy);
    var s1 := Step(START, buy);
    StepIdle(s1, sell);
    var s2 := Step(s1, sell);
    ShortAtTheEnd(s2, sell);
  }

  lemma ShortReplay2(a: Txn, b: Txn)
    requires Before(a, b)
    ensures Replay([a, b]) == Report(Step(Step(START, a), b))
  {
    SortOfOrdered([a, b]);
    RunConcat(START, [a], [b]);
    assert [a] + [b] == [a, b];
    RunOne(START, a);
    RunOne(Step(START, a), b);
  }

  lemma ShortReplay3(a: Txn, b: Txn, c: Txn)
    requires Before(a, b) && Before(b, c) && Before(a, c)
    ensures Replay([a, b, c]) == Report(Step(Step(Step(START, a), b), c))
  {
    SortOfOrdered([a, b, c]);
    RunConcat(START, [a, b], [c]);
    RunConcat(START, [a], [b]);
    assert [a, b] + [c] == [a, b, c] && [a] + [b] == [a, b];
    RunOne(START, a);
    RunOne(Step(START, a), b);
    RunOne(Step(Step(START, a), b), c);
  }
}
