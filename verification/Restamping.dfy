/** The currency copied onto events never reaches a position (SetCurrencyByHolding of persistence/transactions.go). */
module Restamping {
  import opened Sequences
  import opened Ledger
  import opened ReplayOrder
  import opened AsOfReplay

  /** f rewrites the currency and nothing else. */
  ghost predicate Restamps(f: Txn -> Txn) {
    forall t: Txn {:trigger f(t)} :: f(t) == t.(currency := f(t).currency)
  }

  function Restamped(s: State, f: Txn -> Txn): State {
    s.(waiting := Map(s.waiting, f))
  }

  lemma SellRestamped(s: State, t: Txn, f: Txn -> Txn)
    requires Restamps(f)
    ensures SellNow(Restamped(s, f), f(t)) == Restamped(SellNow(s, t), f)
  {
  }

  lemma {:induction false} SettleRestamped(s: State, endOfDay: bool, f: Txn -> Txn)
    requires Restamps(f)
    ensures Settle(Restamped(s, f), endOfDay) == Restamped(Settle(s, endOfDay), f)
    decreases |s.waiting|
  {
    hide SellNow;
    if s.waiting != [] && (endOfDay || s.waiting[0].quantity <= s.qty) {
      SellRestamped(s, s.waiting[0], f);
      SettleRestamped(SellNow(s, s.waiting[0]).(waiting := s.waiting[1..]), endOfDay, f);
      assert Map(s.waiting, f)[1..] == Map(s.waiting[1..], f);
    }
  }

  lemma WithinRestamped(s: State, t: Txn, f: Txn -> Txn)
    requires Restamps(f)
    ensures Within(Restamped(s, f), f(t)) == Restamped(Within(s, t), f)
  {
    hide SellNow, Settle;
    if t.kind.Sell? && t.quantity > s.qty {
      assert Map(s.waiting + [t], f) == Map(s.waiting, f) + [f(t)];
    } else {
      SellRestamped(s, t, f);
      assert Effect(Restamped(s, f), f(t)) == Restamped(Effect(s, t), f);
      SettleRestamped(Effect(s, t), false, f);
    }
  }

  lemma {:induction false} RunRestamped(s: State, ts: seq<Txn>, f: Txn -> Txn)
    requires Restamps(f)
    ensures Run(Restamped(s, f), Map(ts, f)) == Restamped(Run(s, ts), f)
    decreases |ts|
  {
    hide Settle, Within;
    if ts != [] {
      var d := ts[0].Day();
      SettleRestamped(s, true, f);
      assert f(ts[0]).Day() == d && EnterDay(Restamped(s, f), d) == Restamped(EnterDay(s, d), f);
      WithinRestamped(EnterDay(s, d), ts[0], f);
      RunRestamped(Step(s, ts[0]), ts[1..], f);
      assert Map(ts, f)[1..] == Map(ts[1..], f);
    }
  }

  /** For every ledger: restamping moves no figure of the replay and no verdict. */
  lemma ReplayIgnoresCurrency(txns: seq<Txn>, f: Txn -> Txn)
    requires Restamps(f)
    ensures Replay(Map(txns, f)) == Replay(txns)
  {
    hide Run, Settle, Sort;
    SortMapped(txns, f);
    assert Restamped(START, f) == START;
    RunRestamped(START, Sort(txns), f);
    SettleRestamped(Run(START, Sort(txns)), true, f);
  }

  lemma AsOfIgnoresCurrency(txns: seq<Txn>, f: Txn -> Txn, cutoff: int)
    requires Restamps(f)
    ensures Replay(AsOf(Map(txns, f), cutoff)) == Replay(AsOf(txns, cutoff))
  {
    hide Replay;
    forall t | t in txns
      ensures InEffectAt(cutoff)(f(t)) == InEffectAt(cutoff)(t)
    {
      assert f(t) == t.(currency := f(t).currency);
    }
    FilterMapped(txns, f, InEffectAt(cutoff));
    ReplayIgnoresCurrency(AsOf(txns, cutoff), f);
  }
}
