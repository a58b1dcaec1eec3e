/**
 * In which order the events of a ledger take effect: waiting sells leave in replay order, and only a sell that fits
 * overtakes them (the queue of services/ledger.go).
 */
module EffectOrder {
  import opened Sequences
  import opened Ledger
  import opened ReplayOrder
  import opened ReplayState
  import opened PlainReplay

  // ----- the reference: one event at a time -----

  /** The first sell held back goes now: it fits, or its day is over. */
  predicate Turn(s: State, held: seq<Txn>, rest: seq<Txn>) {
    held != [] && (held[0].quantity <= s.qty || rest == [] || rest[0].Day() != held[0].Day())
  }

  /** The next event is held back. */
  predicate Waits(s: State, t: Txn) {
    t.kind.Sell? && t.quantity > s.qty
  }

  /**
   * The order of effect, chosen event by event from what is held back and what is still to come. The first sell
   * held back goes once it fits or its day is over; otherwise the next event comes, and is held back if it is a
   * sell that does not fit.
   */
  function Order(s: State, held: seq<Txn>, rest: seq<Txn>): (log: seq<Txn>)
    decreases 2 * |rest| + |held|
  {
    if Turn(s, held, rest) then
      [held[0]] + Order(Effect(s, held[0]), held[1..], rest)
    else if rest == [] then []
    else if Waits(s, rest[0]) then Order(s, held + [rest[0]], rest[1..])
    else [rest[0]] + Order(Effect(s, rest[0]), held, rest[1..])
  }

  lemma OrderSteps(s: State, held: seq<Txn>, rest: seq<Txn>)
    ensures Turn(s, held, rest) ==> Order(s, held, rest) == [held[0]] + Order(Effect(s, held[0]), held[1..], rest)
    ensures !Turn(s, held, rest) && rest == [] ==> Order(s, held, rest) == [] && held == []
    ensures !Turn(s, held, rest) && rest != [] && Waits(s, rest[0]) ==>
              Order(s, held, rest) == Order(s, held + [rest[0]], rest[1..])
    ensures !Turn(s, held, rest) && rest != [] && !Waits(s, rest[0]) ==>
              Order(s, held, rest) == [rest[0]] + Order(Effect(s, rest[0]), held, rest[1..])
  {
    hide Effect;
  }

  /** The order in which the events of a ledger take effect. */
  function OrderOf(txns: seq<Txn>): seq<Txn> {
    Order(START, [], Sort(txns))
  }

  // ----- the replay is the plain fold in that order -----

  /** The figures alone. */
  function Bare(s: State): State {
    s.(waiting := [], previous := None)
  }

  /** What is left to come, folded in order of effect. */
  function Rest(s: State, rest: seq<Txn>): State {
    PlainFold(Bare(s), Order(Bare(s), s.waiting, rest))
  }

  lemma SellIsEffect(s: State, w: Txn)
    requires w.kind.Sell?
    ensures Bare(SellNow(s, w)) == Effect(Bare(s), w)
  {
  }

  lemma FoldHead(s: State, t: Txn, log: seq<Txn>)
    ensures PlainFold(s, [t] + log) == PlainFold(Effect(s, t), log)
  {
    assert ([t] + log)[1..] == log;
  }

  /** Selling the head of the queue, when it is its turn. */
  lemma HeadGoes(s: State, rest: seq<Txn>)
    requires s.waiting != [] && s.waiting[0].kind.Sell?
    requires s.waiting[0].quantity <= s.qty || rest == [] || rest[0].Day() != s.waiting[0].Day()
    ensures Rest(s, rest) == Rest(SellNow(s, s.waiting[0]).(waiting := s.waiting[1..]), rest)
  {
    hide SellNow, Effect;
    SellIsEffect(s, s.waiting[0]);
    FoldHead(Bare(s), s.waiting[0], Order(Effect(Bare(s), s.waiting[0]), s.waiting[1..], rest));
  }

  lemma {:induction false} SettledRest(s: State, endOfDay: bool, rest: seq<Txn>)
    requires QueueOfSells(s.waiting)
    requires endOfDay ==> forall w :: w in s.waiting ==> rest == [] || rest[0].Day() != w.Day()
    ensures Rest(s, rest) == Rest(Settle(s, endOfDay), rest)
    decreases |s.waiting|
  {
    hide Rest, SellNow;
    if s.waiting != [] && (endOfDay || s.waiting[0].quantity <= s.qty) {
      var w := s.waiting[0];
      assert w in s.waiting;
      HeadGoes(s, rest);
      SettledRest(SellNow(s, w).(waiting := s.waiting[1..]), endOfDay, rest);
    }
  }

  lemma EffectOfBare(s: State, t: Txn)
    ensures Bare(Effect(s, t)) == Effect(Bare(s), t) && Effect(s, t).waiting == s.waiting
  {
  }

  /** An event of the day, when the head of the queue does not fit. */
  lemma NextComes(s: State, t: Txn, rest: seq<Txn>)
    requires Sound(s) && s.previous == Some(t.Day())
    ensures Rest(s, [t] + rest) == Rest(Within(s, t), rest)
  {
    hide SellNow;
    assert ([t] + rest)[1..] == rest;
    assert s.waiting != [] ==> s.waiting[0] in s.waiting;
    if !(t.kind.Sell? && t.quantity > s.qty) {
      EffectKeepsSolvent(s, t);
      SettledRest(Effect(s, t), false, rest);
      EffectOfBare(s, t);
      FoldHead(Bare(s), t, Order(Effect(Bare(s), t), s.waiting, rest));
    }
  }

  lemma {:induction false} RestOfRun(s: State, ts: seq<Txn>)
    requires Sound(s)
    ensures Rest(s, ts) == Bare(Settle(Run(s, ts), true))
    decreases |ts|
  {
    hide Rest, SellNow, Within;
    if ts == [] {
      SettledRest(s, true, ts);
      SettleEmpties(s);
      NothingLeft(Settle(s, true));
    } else {
      var d := ts[0].Day();
      var entered := EnterDay(s, d);
      if s.previous != Some(d) {
        SettledRest(s, true, ts);
        RestIgnoresPrevious(Settle(s, true), Some(d), ts);
        RestIgnoresPrevious(s, Some(d), ts);
      }
      assert Rest(entered, ts) == Rest(s, ts);
      EnterDayKeepsSound(s, d);
      assert ts == [ts[0]] + ts[1..];
      NextComes(entered, ts[0], ts[1..]);
      StepKeepsSound(s, ts[0]);
      RestOfRun(Step(s, ts[0]), ts[1..]);
    }
  }

  lemma NothingLeft(s: State)
    requires s.waiting == []
    ensures Rest(s, []) == Bare(s)
  {
  }

  lemma RestIgnoresPrevious(s: State, p: Option<int>, rest: seq<Txn>)
    ensures Rest(s.(previous := p), rest) == Rest(s, rest)
  {
  }

  /** For every ledger: the replay is the plain fold of its events in their order of effect. */
  lemma ReplayFollowsTheOrder(txns: seq<Txn>)
    ensures var done := PlainFold(START, OrderOf(txns));
            Replay(txns) == Replayed(PositionOf(done), done.oversold)
  {
    hide Run, Sort, Settle;
    RestOfRun(START, Sort(txns));
  }

  // ----- what the order of effect is like -----

  /** Strictly in replay order. */
  ghost predicate Ascending(ts: seq<Txn>) {
    forall i, j :: 0 <= i < j < |ts| ==> Before(ts[i], ts[j])
  }

  /** Sells of one day. */
  predicate OneDaysSells(held: seq<Txn>) {
    forall w :: w in held ==> w.kind.Sell? && w.Day() == held[0].Day()
  }

  lemma {:induction false} OrderCounts(s: State, held: seq<Txn>, rest: seq<Txn>, t: Txn)
    ensures multiset(Order(s, held, rest))[t] == multiset(held)[t] + multiset(rest)[t]
    decreases 2 * |rest| + |held|
  {
    hide Effect, Order, Turn, Waits;
    OrderSteps(s, held, rest);
    if Turn(s, held, rest) {
      assert held != [] by { TurnHasHeld(s, held, rest); }
      var tail := Order(Effect(s, held[0]), held[1..], rest);
      OrderCounts(Effect(s, held[0]), held[1..], rest, t);
      CountHead(held[0], tail, t);
      CountHead(held[0], held[1..], t);
      assert held == [held[0]] + held[1..];
    } else if rest != [] {
      assert rest == [rest[0]] + rest[1..];
      CountHead(rest[0], rest[1..], t);
      if Waits(s, rest[0]) {
        OrderCounts(s, held + [rest[0]], rest[1..], t);
        CountLast(held, rest[0], t);
      } else {
        OrderCounts(Effect(s, rest[0]), held, rest[1..], t);
        CountHead(rest[0], Order(Effect(s, rest[0]), held, rest[1..]), t);
      }
    }
  }

  lemma TurnHasHeld(s: State, held: seq<Txn>, rest: seq<Txn>)
    requires Turn(s, held, rest)
    ensures held != []
  {
  }

  lemma CountHead(u: Txn, ts: seq<Txn>, t: Txn)
    ensures multiset([u] + ts)[t] == (if u == t then 1 else 0) + multiset(ts)[t]
  {
  }

  lemma CountLast(ts: seq<Txn>, u: Txn, t: Txn)
    ensures multiset(ts + [u])[t] == multiset(ts)[t] + if u == t then 1 else 0
  {
  }

  lemma OrderIsPermutation(s: State, held: seq<Txn>, rest: seq<Txn>)
    ensures multiset(Order(s, held, rest)) == multiset(held) + multiset(rest)
  {
    hide Order;
    forall t
      ensures multiset(Order(s, held, rest))[t] == (multiset(held) + multiset(rest))[t]
    {
      OrderCounts(s, held, rest, t);
    }
  }

  lemma OrderMembers(s: State, held: seq<Txn>, rest: seq<Txn>)
    ensures forall t :: t in Order(s, held, rest) <==> t in held || t in rest
  {
    OrderIsPermutation(s, held, rest);
    forall t
      ensures t in Order(s, held, rest) <==> t in held || t in rest
    {
      assert t in multiset(Order(s, held, rest)) <==> t in multiset(held) || t in multiset(rest);
    }
  }

  predicate NoSell(t: Txn) { !t.kind.Sell? }

  /** Whatever is no sell takes effect in replay order. */
  lemma {:induction false} OthersKeepTheirOrder(s: State, held: seq<Txn>, rest: seq<Txn>)
    requires forall w :: w in held ==> w.kind.Sell?
    ensures Filter(Order(s, held, rest), NoSell) == Filter(rest, NoSell)
    decreases 2 * |rest| + |held|
  {
    hide Effect;
    OrderSteps(s, held, rest);
    if Turn(s, held, rest) {
      OthersKeepTheirOrder(Effect(s, held[0]), held[1..], rest);
      assert held[0] in held;
      FilterCons(held[0], Order(Effect(s, held[0]), held[1..], rest), NoSell);
    } else if rest != [] {
      assert rest == [rest[0]] + rest[1..];
      FilterCons(rest[0], rest[1..], NoSell);
      if Waits(s, rest[0]) {
        OthersKeepTheirOrder(s, held + [rest[0]], rest[1..]);
      } else {
        OthersKeepTheirOrder(Effect(s, rest[0]), held, rest[1..]);
        FilterCons(rest[0], Order(Effect(s, rest[0]), held, rest[1..]), NoSell);
      }
    }
  }

  /** c takes effect at k while a, which precedes it, has yet to. */
  ghost predicate Overtakes(log: seq<Txn>, k: nat, l: nat) {
    k < l < |log| && Before(log[l], log[k])
  }

  /** At k a newcomer takes effect: nothing behind it has; the first event it passes is a sell that does not fit. */
  ghost predicate OnArrival(s: State, log: seq<Txn>, k: nat, l: nat)
    requires k < l < |log|
  {
    var a, c, q := log[l], log[k], PlainFold(s, log[..k]).qty;
    && a.kind.Sell? && a.Day() == c.Day() && (c.kind.Sell? ==> c.quantity <= q)
    && (forall m :: 0 <= m < k ==> Before(log[m], c))
    && exists h :: h in log[k + 1..] && h.kind.Sell? && h.quantity > q && (h == a || Before(h, a))
  }

  /** What is left of an ascending list when a stretch is taken out. */
  lemma SliceAscends(ts: seq<Txn>, a: nat, b: nat, c: nat)
    requires Ascending(ts) && a <= b <= c <= |ts|
    ensures Ascending(ts[a..b] + ts[c..])
  {
    hide Before;
    var left := ts[a..b] + ts[c..];
    forall i, j | 0 <= i < j < |left|
      ensures Before(left[i], left[j])
    {
      assert left[i] == ts[if i < b - a then a + i else c + i - (b - a)];
      assert left[j] == ts[if j < b - a then a + j else c + j - (b - a)];
    }
  }

  lemma ArrivalBehind(s: State, t: Txn, log: seq<Txn>, k: nat, l: nat)
    requires Overtakes(log, k, l) && OnArrival(Effect(s, t), log, k, l) && Before(t, log[k])
    ensures Overtakes([t] + log, k + 1, l + 1) && OnArrival(s, [t] + log, k + 1, l + 1)
  {
    hide Effect;
    var all := [t] + log;
    assert all[..k + 1] == [t] + log[..k];
    FoldHead(s, t, log[..k]);
    assert all[l + 1] == log[l] && all[k + 1] == log[k] && all[k + 2..] == log[k + 1..];
    forall i | 0 <= i < k + 1
      ensures Before(all[i], log[k])
    {
      assert i > 0 ==> all[i] == log[i - 1];
    }
  }

  lemma BeforeTheRest(held: seq<Txn>, rest: seq<Txn>, a: Txn)
    requires Ascending(held + rest) && a in held
    ensures forall t :: t in rest ==> Before(a, t)
  {
    hide Before;
    var i :| 0 <= i < |held| && held[i] == a;
    forall t | t in rest
      ensures Before(a, t)
    {
      var j :| 0 <= j < |rest| && rest[j] == t;
      assert (held + rest)[i] == a && (held + rest)[|held| + j] == t;
    }
  }

  lemma HeldAndRest(held: seq<Txn>, rest: seq<Txn>)
    requires Ascending(held + rest)
    ensures held != [] ==> Ascending(held[1..] + rest) && forall t :: t in held[1..] + rest ==> Before(held[0], t)
    ensures rest != [] ==> Ascending(held + rest[1..]) && Ascending(held + [rest[0]] + rest[1..])
    ensures rest != [] ==> forall t :: t in rest[1..] ==> Before(rest[0], t)
  {
    hide Before, Ascending;
    var all := held + rest;
    if held != [] {
      var others := held[1..] + rest;
      SliceAscends(all, 1, |all|, |all|);
      assert all[1..|all|] + all[|all|..] == others && [held[0]] + others == all;
      BeforeTheRest([held[0]], others, held[0]);
    }
    if rest != [] {
      SliceAscends(all, 0, |held|, |held| + 1);
      assert all[0..|held|] + all[|held| + 1..] == held + rest[1..];
      assert held + [rest[0]] + rest[1..] == all;
      assert all == (held + [rest[0]]) + rest[1..];
      BeforeTheRest(held + [rest[0]], rest[1..], rest[0]);
    }
  }

  /** What an event of the day passes that takes effect as it comes. */
  lemma NewcomerPasses(s: State, held: seq<Txn>, rest: seq<Txn>, l: nat)
    requires Ascending(held + rest) && OneDaysSells(held) && rest != []
    requires held != [] ==> held[0].quantity > s.qty && rest[0].Day() == held[0].Day()
    requires rest[0].kind.Sell? ==> rest[0].quantity <= s.qty
    requires Overtakes([rest[0]] + Order(Effect(s, rest[0]), held, rest[1..]), 0, l)
    ensures OnArrival(s, [rest[0]] + Order(Effect(s, rest[0]), held, rest[1..]), 0, l)
  {
    hide Effect;
    var tail := Order(Effect(s, rest[0]), held, rest[1..]);
    var log := [rest[0]] + tail;
    var a := log[l];
    OrderMembers(Effect(s, rest[0]), held, rest[1..]);
    HeldAndRest(held, rest);
    assert tail[l - 1] == a && a in tail && log[1..] == tail && log[..0] == [];
    assert a in held;
    var i :| 0 <= i < |held| && held[i] == a;
    assert held[0] in tail && (i > 0 ==> (held + rest)[0] == held[0] && (held + rest)[i] == a);
  }

  lemma {:induction false} OvertakersArrive(s: State, held: seq<Txn>, rest: seq<Txn>, k: nat, l: nat)
    requires Ascending(held + rest) && OneDaysSells(held) && Overtakes(Order(s, held, rest), k, l)
    ensures Order(s, held, rest)[k] in rest && OnArrival(s, Order(s, held, rest), k, l)
    decreases 2 * |rest| + |held|
  {
    hide Effect, OnArrival, Ascending, Order;
    var log := Order(s, held, rest);
    HeldAndRest(held, rest);
    OrderSteps(s, held, rest);
    if Turn(s, held, rest) {
      var tail := Order(Effect(s, held[0]), held[1..], rest);
      OrderMembers(Effect(s, held[0]), held[1..], rest);
      assert log[l] == tail[l - 1] && tail[l - 1] in held[1..] + rest;
      assert k > 0;
      OvertakersArrive(Effect(s, held[0]), held[1..], rest, k - 1, l - 1);
      ArrivalBehind(s, held[0], tail, k - 1, l - 1);
    } else if rest != [] {
      if Waits(s, rest[0]) {
        assert OneDaysSells(held + [rest[0]]);
        OvertakersArrive(s, held + [rest[0]], rest[1..], k, l);
        ArrivesLater(s, held, rest, k, l);
      } else if k == 0 {
        NewcomerPasses(s, held, rest, l);
      } else {
        var tail := Order(Effect(s, rest[0]), held, rest[1..]);
        OvertakersArrive(Effect(s, rest[0]), held, rest[1..], k - 1, l - 1);
        ArrivalBehind(s, rest[0], tail, k - 1, l - 1);
      }
    }
  }

  lemma ArrivesLater(s: State, held: seq<Txn>, rest: seq<Txn>, k: nat, l: nat)
    requires rest != [] && k < l < |Order(s, held + [rest[0]], rest[1..])|
    requires Order(s, held + [rest[0]], rest[1..])[k] in rest[1..]
    ensures Order(s, held + [rest[0]], rest[1..])[k] in rest
  {
  }

  // ----- when a sell is passed over -----

  lemma {:induction false} DayIsOver(s: State, held: seq<Txn>, rest: seq<Txn>)
    requires forall w :: w in held ==> rest == [] || rest[0].Day() != w.Day()
    ensures Order(s, held, rest) == held + Order(PlainFold(s, held), [], rest)
    decreases |held|
  {
    hide Effect;
    if held != [] {
      DayIsOver(Effect(s, held[0]), held[1..], rest);
      assert held == [held[0]] + held[1..];
    }
  }

  /** k is where a is passed over for the first time. */
  ghost predicate FirstPassed(log: seq<Txn>, k: nat, l: nat) {
    Overtakes(log, k, l) && forall m :: 0 <= m < k ==> !Before(log[l], log[m])
  }

  lemma FirstPassedBehind(s: State, t: Txn, log: seq<Txn>, k: nat, l: nat)
    requires 0 < k < l <= |log| && FirstPassed([t] + log, k, l)
    ensures FirstPassed(log, k - 1, l - 1) && PlainFold(s, ([t] + log)[..k]).qty == PlainFold(Effect(s, t), log[..k - 1]).qty
  {
    hide Effect;
    var all := [t] + log;
    assert all[l] == log[l - 1] && all[k] == log[k - 1] && forall m :: 0 <= m < k - 1 ==> log[m] == all[m + 1];
    assert all[..k] == [t] + log[..k - 1];
    FoldHead(s, t, log[..k - 1]);
  }

  /** The waiting sells stand still until the next event of their day. */
  predicate Stalled(s: State, held: seq<Txn>, a: Txn) {
    a in held && a.quantity > s.qty && held[0].quantity > s.qty
  }

  lemma DayOverInOrder(s: State, held: seq<Txn>, rest: seq<Txn>, k: nat, l: nat)
    requires Ascending(held + rest) && OneDaysSells(held)
    requires held != [] && (rest == [] || rest[0].Day() != held[0].Day())
    requires k < l < |Order(s, held, rest)| && Order(s, held, rest)[l] in held
    ensures Before(Order(s, held, rest)[k], Order(s, held, rest)[l])
  {
    hide Effect;
    var log, later := Order(s, held, rest), Order(PlainFold(s, held), [], rest);
    DayIsOver(s, held, rest);
    OrderMembers(PlainFold(s, held), [], rest);
    assert forall i :: |held| <= i < |log| ==> log[i] == later[i - |held|] && log[i] in rest;
    BeforeTheRest(held, rest, log[l]);
    assert log[l] !in rest && l < |held|;
    assert log[k] == (held + rest)[k] && log[l] == (held + rest)[l];
  }

  /** Who is passed over only later is neither held back nor the one that comes now. */
  lemma StillToCome(s: State, held: seq<Txn>, rest: seq<Txn>, k: nat, l: nat)
    requires Ascending(held + rest) && rest != [] && 0 < k
    requires var log := [rest[0]] + Order(Effect(s, rest[0]), held, rest[1..]); FirstPassed(log, k, l)
    ensures ([rest[0]] + Order(Effect(s, rest[0]), held, rest[1..]))[l] in rest[1..]
  {
    hide Effect;
    var tail := Order(Effect(s, rest[0]), held, rest[1..]);
    var log := [rest[0]] + tail;
    var a := log[l];
    assert tail[l - 1] == a && a in tail && log[0] == rest[0];
    OrderMembers(Effect(s, rest[0]), held, rest[1..]);
    if a in held {
      BeforeTheRest(held, rest, a);
    }
  }

  lemma {:induction false} PassedOverDidNotFit(s: State, held: seq<Txn>, rest: seq<Txn>, k: nat, l: nat)
    requires Ascending(held + rest) && OneDaysSells(held) && FirstPassed(Order(s, held, rest), k, l)
    requires Order(s, held, rest)[l] in rest || Stalled(s, held, Order(s, held, rest)[l])
    ensures Order(s, held, rest)[l].quantity > PlainFold(s, Order(s, held, rest)[..k]).qty
    decreases 2 * |rest| + |held|
  {
    hide Effect, Order, Ascending;
    var log := Order(s, held, rest);
    var a := log[l];
    HeldAndRest(held, rest);
    OrderSteps(s, held, rest);
    if Turn(s, held, rest) {
      if Stalled(s, held, a) {
        DayOverInOrder(s, held, rest, k, l);
      } else {
        var tail := Order(Effect(s, held[0]), held[1..], rest);
        assert a in rest && a in held[1..] + rest;
        assert Before(held[0], a) && log[0] == held[0];
        FirstPassedBehind(s, held[0], tail, k, l);
        PassedOverDidNotFit(Effect(s, held[0]), held[1..], rest, k - 1, l - 1);
      }
    } else if rest != [] {
      assert rest == [rest[0]] + rest[1..];
      if Waits(s, rest[0]) {
        assert OneDaysSells(held + [rest[0]]);
        PassedOverDidNotFit(s, held + [rest[0]], rest[1..], k, l);
      } else if k == 0 {
        assert log[..0] == [];
      } else {
        var tail := Order(Effect(s, rest[0]), held, rest[1..]);
        StillToCome(s, held, rest, k, l);
        FirstPassedBehind(s, rest[0], tail, k, l);
        PassedOverDidNotFit(Effect(s, rest[0]), held, rest[1..], k - 1, l - 1);
      }
    }
  }

  lemma SortedKeysAscend(txns: seq<Txn>)
    requires KeysDistinct(Sort(txns))
    ensures Ascending(Sort(txns))
  {
    SortOrders(txns);
  }

  /**
   * The law of the queue, for every ledger without tied events, on its order of effect alone. Let c take effect
   * while an earlier a has yet to. Then c does so as it comes: nothing behind it has taken effect, and a sell fits.
   * Both are of one day, a is a sell, and the first one passed does not fit; nor did a when it was first passed.
   * So no sell that has had to wait takes effect while an earlier one still waits.
   */
  lemma OvertakingIsOnArrival(txns: seq<Txn>, k: nat, l: nat)
    requires KeysDistinct(Sort(txns)) && Overtakes(OrderOf(txns), k, l)
    ensures OnArrival(START, OrderOf(txns), k, l)
    ensures FirstPassed(OrderOf(txns), k, l) ==>
              OrderOf(txns)[l].quantity > PlainFold(START, OrderOf(txns)[..k]).qty
  {
    hide Order, OnArrival;
    SortedKeysAscend(txns);
    assert [] + Sort(txns) == Sort(txns);
    OvertakersArrive(START, [], Sort(txns), k, l);
    if FirstPassed(OrderOf(txns), k, l) {
      OrderMembers(START, [], Sort(txns));
      assert OrderOf(txns)[l] in OrderOf(txns);
      PassedOverDidNotFit(START, [], Sort(txns), k, l);
    }
  }

  /** Every event takes effect once, and those that are no sells in replay order. */
  lemma EverythingTakesEffect(txns: seq<Txn>)
    ensures multiset(OrderOf(txns)) == multiset(txns)
    ensures Filter(OrderOf(txns), NoSell) == Filter(Sort(txns), NoSell)
  {
    SortOrders(txns);
    OrderIsPermutation(START, [], Sort(txns));
    OthersKeepTheirOrder(START, [], Sort(txns));
  }

  // ----- the queue itself -----

  lemma {:induction false} SettleDropsAPrefix(s: State, endOfDay: bool) returns (d: nat)
    ensures d <= |s.waiting| && Settle(s, endOfDay).waiting == s.waiting[d..]
    decreases |s.waiting|
  {
    hide SellNow;
    if s.waiting != [] && (endOfDay || s.waiting[0].quantity <= s.qty) {
      SellKeepsQueue(s, s.waiting[0]);
      d := SettleDropsAPrefix(SellNow(s, s.waiting[0]).(waiting := s.waiting[1..]), endOfDay);
      d := d + 1;
    } else {
      d := 0;
    }
  }

  /** What a step leaves waiting: some of the queue's end, and the newcomer if it has to wait. */
  lemma WaitingAfterStep(s: State, t: Txn) returns (d: nat)
    ensures d <= |s.waiting|
    ensures Step(s, t).waiting == s.waiting[d..] + [t] || Step(s, t).waiting == s.waiting[d..]
  {
    hide SellNow, Settle, Effect;
    var e := SettleDropsAPrefix(s, true);
    var entered := EnterDay(s, t.Day());
    d := if s.previous.Some? && s.previous.value != t.Day() then e else 0;
    assert entered.waiting == s.waiting[d..];
    if !(t.kind.Sell? && t.quantity > entered.qty) {
      EffectOfBare(entered, t);
      var f := SettleDropsAPrefix(Effect(entered, t), false);
      assert s.waiting[d..][f..] == s.waiting[d + f..];
      d := d + f;
    }
  }

  lemma StepKeepsQueueOrder(s: State, t: Txn, rest: seq<Txn>)
    requires Ascending(s.waiting + [t] + rest)
    ensures Ascending(Step(s, t).waiting + rest)
  {
    hide Step, Ascending;
    var w, all := s.waiting, s.waiting + [t] + rest;
    var d := WaitingAfterStep(s, t);
    SliceAscends(all, d, |all|, |all|);
    SliceAscends(all, d, |w|, |w| + 1);
    assert all[d..|all|] + all[|all|..] == w[d..] + [t] + rest;
    assert all[d..|w|] + all[|w| + 1..] == w[d..] + rest;
  }

  lemma {:induction false} QueueStaysOrdered(s: State, ts: seq<Txn>)
    requires Ascending(s.waiting + ts)
    ensures Ascending(Run(s, ts).waiting)
    decreases |ts|
  {
    hide Step;
    if ts == [] {
      assert s.waiting + ts == s.waiting;
    } else {
      assert s.waiting + ts == s.waiting + [ts[0]] + ts[1..];
      StepKeepsQueueOrder(s, ts[0], ts[1..]);
      QueueStaysOrdered(Step(s, ts[0]), ts[1..]);
    }
  }

  /** After any run the queue is in replay order. */
  lemma QueueIsInReplayOrder(ts: seq<Txn>)
    requires Ordered(ts) && KeysDistinct(ts)
    ensures var w := Run(START, ts).waiting; forall i, j :: 0 <= i < j < |w| ==> Before(w[i], w[j])
  {
    assert [] + ts == ts;
    QueueStaysOrdered(START, ts);
  }
}
