/** What every step of the replay keeps, and which differences between states never show. */
module ReplayState {
  import opened Sequences
  import opened Ledger
  import opened ReplayOrder

  predicate QueueOfSells(ts: seq<Txn>) {
    forall t :: t in ts ==> t.kind.Sell? && t.quantity > 0.0
  }

  /** Shares are never negative, a flat holding has no basis, the queue holds sells. */
  predicate Solvent(s: State) {
    s.qty >= 0.0 && (s.qty == 0.0 ==> s.basis == 0.0) && QueueOfSells(s.waiting)
  }

  /** Between events: solvent, the head of the queue does not fit, and the queue is today's. */
  predicate Sound(s: State) {
    && Solvent(s)
    && (s.waiting != [] ==> s.waiting[0].quantity > s.qty && s.previous.Some?)
    && (forall w :: w in s.waiting ==> s.previous == Some(w.Day()))
  }

  /** ts may be replayed from s: in replay order, and never before the day whose sells still wait. */
  ghost predicate Follows(s: State, ts: seq<Txn>) {
    && Ordered(ts)
    && (s.waiting != [] ==>
          s.previous.Some? && forall t :: t in ts ==> !t.kind.Opening? && t.Day() >= s.previous.value)
  }

  lemma DaysFollowDates(a: int, b: int)
    requires a <= b
    ensures DayOf(a) <= DayOf(b)
  {
  }

  // ----- composition -----

  lemma {:induction false} RunConcat(s: State, xs: seq<Txn>, ys: seq<Txn>)
    ensures Run(s, xs + ys) == Run(Run(s, xs), ys)
    decreases |xs|
  {
    if xs == [] {
      assert xs + ys == ys;
    } else {
      assert (xs + ys)[1..] == xs[1..] + ys;
      RunConcat(Step(s, xs[0]), xs[1..], ys);
    }
  }

  lemma RunOne(s: State, t: Txn)
    ensures Run(s, [t]) == Step(s, t)
  {
    assert Run(Step(s, t), [t][1..]) == Step(s, t);
  }

  // ----- selling and settling -----

  lemma SellKeepsSolvent(s: State, t: Txn)
    requires Solvent(s)
    ensures Solvent(SellNow(s, t))
  {
    if s.qty > 0.0 && t.quantity >= s.qty {
      assert AverageCost(s) * s.qty == s.basis;
    }
  }

  lemma {:induction false} SettleKeepsSolvent(s: State, endOfDay: bool)
    requires Solvent(s)
    ensures Solvent(Settle(s, endOfDay))
    ensures endOfDay ==> Settle(s, endOfDay).waiting == []
    ensures var w := Settle(s, endOfDay).waiting; w != [] ==> w[0].quantity > Settle(s, endOfDay).qty
    ensures forall w :: w in Settle(s, endOfDay).waiting ==> w in s.waiting
    decreases |s.waiting|
  {
    if s.waiting != [] && (endOfDay || s.waiting[0].quantity <= s.qty) {
      SellKeepsSolvent(s, s.waiting[0]);
      SettleKeepsSolvent(SellNow(s, s.waiting[0]).(waiting := s.waiting[1..]), endOfDay);
    }
  }

  lemma SellIgnoresPrevious(s: State, t: Txn, p: Option<int>)
    ensures SellNow(s.(previous := p), t) == SellNow(s, t).(previous := p)
  {
  }

  lemma SellIgnoresCents(s: State, t: Txn, c: int)
    ensures SellNow(s.(cents := c), t) == SellNow(s, t).(cents := c)
  {
  }

  lemma {:induction false} SettleIgnoresPrevious(s: State, endOfDay: bool, p: Option<int>)
    ensures Settle(s.(previous := p), endOfDay) == Settle(s, endOfDay).(previous := p)
    decreases |s.waiting|
  {
    hide SellNow;
    if s.waiting != [] && (endOfDay || s.waiting[0].quantity <= s.qty) {
      SellIgnoresPrevious(s, s.waiting[0], p);
      SettleIgnoresPrevious(SellNow(s, s.waiting[0]).(waiting := s.waiting[1..]), endOfDay, p);
    }
  }

  lemma {:induction false} SettleIgnoresCents(s: State, endOfDay: bool, c: int)
    ensures Settle(s.(cents := c), endOfDay) == Settle(s, endOfDay).(cents := c)
    decreases |s.waiting|
  {
    hide SellNow;
    if s.waiting != [] && (endOfDay || s.waiting[0].quantity <= s.qty) {
      SellIgnoresCents(s, s.waiting[0], c);
      SettleIgnoresCents(SellNow(s, s.waiting[0]).(waiting := s.waiting[1..]), endOfDay, c);
    }
  }

  lemma {:induction false} SettleOversoldStays(s: State, endOfDay: bool)
    requires s.oversold
    ensures Settle(s, endOfDay).oversold
    decreases |s.waiting|
  {
    if s.waiting != [] && (endOfDay || s.waiting[0].quantity <= s.qty) {
      SettleOversoldStays(SellNow(s, s.waiting[0]).(waiting := s.waiting[1..]), endOfDay);
    }
  }

  lemma {:induction false} SettleEmpties(s: State)
    ensures Settle(s, true).waiting == []
    decreases |s.waiting|
  {
    if s.waiting != [] {
      SettleEmpties(SellNow(s, s.waiting[0]).(waiting := s.waiting[1..]));
    }
  }

  // ----- one event -----

  lemma EffectKeepsSolvent(s: State, t: Txn)
    requires Solvent(s)
    ensures Solvent(Effect(s, t))
    ensures Effect(s, t).waiting == s.waiting && Effect(s, t).previous == s.previous
  {
    if t.kind.Sell? {
      SellKeepsSolvent(s, t);
    } else if t.Rescales() && t.ratio > 0.0 {
      assert s.qty * t.ratio >= 0.0;
      assert s.qty > 0.0 ==> s.qty * t.ratio > 0.0;
    }
  }

  lemma EnterDayKeepsSound(s: State, d: int)
    requires Sound(s)
    ensures Sound(EnterDay(s, d))
    ensures s.previous != Some(d) ==> EnterDay(s, d).waiting == []
    ensures s.previous == Some(d) ==> EnterDay(s, d) == s
  {
    SettleKeepsSolvent(s, true);
  }

  lemma StepKeepsSound(s: State, t: Txn)
    requires Sound(s)
    ensures Sound(Step(s, t)) && Step(s, t).previous == Some(t.Day())
    ensures Step(s, t).waiting != [] ==> t.kind.Sell? || s.waiting != []
  {
    var entered := EnterDay(s, t.Day());
    EnterDayKeepsSound(s, t.Day());
    StepSetsPrevious(s, t);
    if !(t.kind.Sell? && t.quantity > entered.qty) {
      EffectKeepsSolvent(entered, t);
      SettleKeepsSolvent(Effect(entered, t), false);
    }
  }

  /** With nothing waiting an event waits, or has its effect and no more. */
  lemma StepIdle(s: State, t: Txn)
    requires s.waiting == []
    ensures Step(s, t) == (if t.kind.Sell? && t.quantity > s.qty then s.(waiting := [t]) else Effect(s, t)).(previous := Some(t.Day()))
  {
    hide SellNow;
    if t.kind.Sell? {
      SellIgnoresPrevious(s, t, Some(t.Day()));
      SellKeepsQueue(s, t);
    }
  }

  lemma SellKeepsQueue(s: State, t: Txn)
    ensures SellNow(s, t).waiting == s.waiting
    ensures SellNow(s, t).qty == if t.quantity > s.qty then 0.0 else s.qty - t.quantity
    ensures SellNow(s, t).oversold == (s.oversold || t.quantity > s.qty)
  {
  }

  lemma ShortAtTheEnd(s: State, w: Txn)
    requires s.waiting == [w] && w.quantity > s.qty
    ensures Settle(s, true).oversold
  {
    SellKeepsQueue(s, w);
    assert s.waiting[1..] == [];
  }

  /** One sell waiting, on its own day. */
  lemma SettleOne(s: State, w: Txn)
    requires s.waiting == [w] && w.quantity <= s.qty
    ensures Settle(s, false) == SellNow(s, w).(waiting := [])
  {
    hide SellNow;
    assert s.waiting[1..] == [];
  }

  lemma {:induction false} RunKeepsSound(s: State, ts: seq<Txn>)
    requires Sound(s)
    ensures Sound(Run(s, ts))
    decreases |ts|
  {
    if ts != [] {
      StepKeepsSound(s, ts[0]);
      RunKeepsSound(Step(s, ts[0]), ts[1..]);
    }
  }

  lemma FollowsStep(s: State, ts: seq<Txn>)
    requires Sound(s) && Follows(s, ts) && ts != []
    ensures Sound(Step(s, ts[0])) && Follows(Step(s, ts[0]), ts[1..])
  {
    var t := ts[0];
    StepKeepsSound(s, t);
    if Step(s, t).waiting != [] {
      forall u | u in ts[1..]
        ensures !u.kind.Opening? && u.Day() >= t.Day()
      {
        var i :| 0 <= i < |ts[1..]| && ts[1..][i] == u;
        assert ts[i + 1] == u && !Before(ts[i + 1], ts[0]);
        DaysFollowDates(t.date, u.date);
      }
    }
  }

  lemma {:induction false} FollowsRun(s: State, xs: seq<Txn>, ys: seq<Txn>)
    requires Sound(s) && Follows(s, xs + ys)
    ensures Sound(Run(s, xs)) && Follows(Run(s, xs), ys)
    decreases |xs|
  {
    if xs == [] {
      assert xs + ys == ys;
    } else {
      FollowsStep(s, xs + ys);
      assert (xs + ys)[1..] == xs[1..] + ys;
      FollowsRun(Step(s, xs[0]), xs[1..], ys);
    }
  }

  lemma SortFollowsStart(txns: seq<Txn>)
    ensures Sound(START) && Follows(START, Sort(txns))
  {
    SortOrders(txns);
  }

  lemma {:induction false} RunOversoldStays(s: State, ts: seq<Txn>)
    requires s.oversold
    ensures Run(s, ts).oversold && Report(Run(s, ts)).oversold
    decreases |ts|
  {
    if ts == [] {
      SettleOversoldStays(s, true);
    } else {
      SettleOversoldStays(s, true);
      SettleOversoldStays(Effect(EnterDay(s, ts[0].Day()), ts[0]), false);
      RunOversoldStays(Step(s, ts[0]), ts[1..]);
    }
  }

  // ----- differences that never show -----

  /** A day may be settled early: as soon as no event of that day is left. */
  lemma SettleEarly(s: State, p: Option<int>, ts: seq<Txn>)
    requires s.waiting == [] || ts == [] || (s.previous.Some? && ts[0].Day() != s.previous.value)
    ensures Report(Run(s, ts)) == Report(Run(Settle(s, true).(previous := p), ts))
  {
    var early := Settle(s, true).(previous := p);
    SettleEmpties(s);
    SettleIgnoresPrevious(Settle(s, true), true, p);
    if ts != [] {
      SettleIgnoresPrevious(early, true, Some(ts[0].Day()));
      assert EnterDay(s, ts[0].Day()) == EnterDay(early, ts[0].Day());
    }
  }

  lemma {:induction false} WaitingComesFromEvents(s: State, ts: seq<Txn>)
    requires Sound(s)
    ensures forall w :: w in Run(s, ts).waiting ==> w in s.waiting || w in ts
    decreases |ts|
  {
    if ts != [] {
      var t := ts[0];
      var entered := EnterDay(s, t.Day());
      StepKeepsSound(s, t);
      EnterDayKeepsSound(s, t.Day());
      EffectKeepsSolvent(entered, t);
      SettleKeepsSolvent(s, true);
      SettleKeepsSolvent(Effect(entered, t), false);
      WaitingComesFromEvents(Step(s, t), ts[1..]);
    }
  }

  /** Everything reported but the dividend total. */
  predicate SameShares(a: Replayed, b: Replayed) {
    a.oversold == b.oversold && a.position.(totalDividends := b.position.totalDividends) == b.position
  }

  lemma EffectCentsAside(s: State, c: int, t: Txn)
    ensures Effect(s.(cents := s.cents + c), t) == Effect(s, t).(cents := Effect(s, t).cents + c)
  {
    hide SellNow;
    SellIgnoresCents(s, t, s.cents + c);
    SellKeepsCents(s, t);
  }

  lemma SellKeepsCents(s: State, t: Txn)
    ensures SellNow(s, t).cents == s.cents
  {
  }

  lemma WithinCentsAside(s: State, c: int, t: Txn)
    ensures Within(s.(cents := s.cents + c), t) == Within(s, t).(cents := Within(s, t).cents + c)
  {
    if !(t.kind.Sell? && t.quantity > s.qty) {
      EffectCentsAside(s, c, t);
      var done := Effect(s, t);
      SettleKeepsPrevious(done, false);
      SettleIgnoresCents(done, false, done.cents + c);
    }
  }

  lemma EnterDayCentsAside(s: State, c: int, d: int)
    ensures EnterDay(s.(cents := s.cents + c), d) == EnterDay(s, d).(cents := EnterDay(s, d).cents + c)
  {
    SettleIgnoresCents(s, true, s.cents + c);
    SettleKeepsPrevious(s, true);
  }

  lemma {:induction false} CentsAside(s: State, c: int, ts: seq<Txn>)
    ensures Run(s.(cents := s.cents + c), ts) == Run(s, ts).(cents := Run(s, ts).cents + c)
    ensures SameShares(Report(Run(s.(cents := s.cents + c), ts)), Report(Run(s, ts)))
    decreases |ts|
  {
    hide SellNow, EnterDay, Within;
    if ts == [] {
      SettleIgnoresCents(s, true, s.cents + c);
    } else {
      EnterDayCentsAside(s, c, ts[0].Day());
      WithinCentsAside(EnterDay(s, ts[0].Day()), c, ts[0]);
      CentsAside(Step(s, ts[0]), c, ts[1..]);
    }
  }
}
