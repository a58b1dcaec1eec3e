/** The as-of ledger (asOfLedger of services/snapshot_recompute.go). */
module AsOfReplay {
  import opened Sequences
  import opened Ledger
  import opened ReplayOrder
  import opened ReplayState

  /** The instant after the last one of a day. */
  function EndOf(day: int): int {
    (day + 1) * DAY
  }

  /** An opening counts unless it declares a day at or after the cutoff; an undeclared one always counts. */
  predicate DeclaredBefore(t: Txn, cutoff: int) {
    t.kind.Opening? ==> t.openingDate.None? || DayOf(t.openingDate.value) * DAY < cutoff
  }

  predicate InEffect(t: Txn, cutoff: int) {
    DeclaredBefore(t, cutoff) && (!t.kind.Opening? ==> t.date < cutoff)
  }

  lemma DeclaredByDay(t: Txn, day: int)
    requires t.kind.Opening? && t.openingDate.Some?
    ensures InEffect(t, EndOf(day)) <==> DayOf(t.openingDate.value) <= day
  {
  }

  function InEffectAt(cutoff: int): Txn -> bool {
    t => InEffect(t, cutoff)
  }

  function DeclaredAt(cutoff: int): Txn -> bool {
    t => DeclaredBefore(t, cutoff)
  }

  function LaterThan(cutoff: int): Txn -> bool {
    (t: Txn) => !t.kind.Opening? && t.date >= cutoff
  }

  function AsOf(txns: seq<Txn>, cutoff: int): seq<Txn> {
    Filter(txns, InEffectAt(cutoff))
  }

  /** The events the as-of ledger leaves for later. */
  function Later(txns: seq<Txn>, cutoff: int): seq<Txn> {
    Filter(txns, LaterThan(cutoff))
  }

  /** The state once every event has been replayed and its last day settled. */
  function SettledState(txns: seq<Txn>): State {
    Settle(Run(START, Sort(txns)), true)
  }

  method AsOfLedger(txns: seq<Txn>, cutoff: int) returns (out: seq<Txn>)
    ensures out == AsOf(txns, cutoff)
  {
    var keep := InEffectAt(cutoff);
    out := [];
    var i := 0;
    while i < |txns|
      invariant 0 <= i <= |txns|
      invariant out + Filter(txns[i..], keep) == Filter(txns, keep)
    {
      var t := txns[i];
      assert txns[i..] == [t] + txns[i + 1..];
      FilterCons(t, txns[i + 1..], keep);
      if t.kind.Opening? {
        if !(t.openingDate.Some? && DayOf(t.openingDate.value) * DAY >= cutoff) {
          out := out + [t];
        }
      } else if t.date < cutoff {
        out := out + [t];
      }
      i := i + 1;
    }
  }

  lemma {:induction false} OrderedSplits(ts: seq<Txn>, keep: Txn -> bool, drop: Txn -> bool)
    requires forall t :: t in ts ==> keep(t) == !drop(t)
    requires forall i, j :: 0 <= i < j < |ts| && keep(ts[j]) ==> keep(ts[i])
    ensures ts == Filter(ts, keep) + Filter(ts, drop)
  {
    hide Filter;
    if ts == [] {
      FilterAll(ts, keep);
      FilterAll(ts, drop);
    } else if keep(ts[0]) {
      var rest := ts[1..];
      assert ts == [ts[0]] + rest;
      forall i, j | 0 <= i < j < |rest| && keep(rest[j])
        ensures keep(rest[i])
      {
        assert rest[i] == ts[i + 1] && rest[j] == ts[j + 1];
      }
      assert keep(ts[0]) == !drop(ts[0]) by { assert ts[0] in ts; }
      OrderedSplits(rest, keep, drop);
      FilterCons(ts[0], ts[1..], keep);
      FilterCons(ts[0], ts[1..], drop);
    } else {
      forall t | t in ts
        ensures !keep(t)
      {
        var j :| 0 <= j < |ts| && ts[j] == t;
      }
      FilterNone(ts, keep);
      FilterAll(ts, drop);
    }
  }

  lemma HeldSplits(held: seq<Txn>, cutoff: int)
    requires forall t :: t in held ==> DeclaredBefore(t, cutoff)
    ensures Sort(held) == Sort(Filter(held, InEffectAt(cutoff))) + Sort(Filter(held, LaterThan(cutoff)))
  {
    SortOrders(held);
    SortMembers(held);
    OrderedSplits(Sort(held), InEffectAt(cutoff), LaterThan(cutoff));
    SortFiltered(held, InEffectAt(cutoff));
    SortFiltered(held, LaterThan(cutoff));
  }

  lemma HeldFilters(txns: seq<Txn>, cutoff: int)
    ensures var held := Filter(txns, DeclaredAt(cutoff));
            && Filter(held, InEffectAt(cutoff)) == AsOf(txns, cutoff)
            && Filter(held, LaterThan(cutoff)) == Later(txns, cutoff)
  {
    var declared, keep, late := DeclaredAt(cutoff), InEffectAt(cutoff), LaterThan(cutoff);
    FilterTwice(txns, declared, keep);
    FilterTwice(txns, declared, late);
    FilterCongruence(txns, Both(declared, keep), keep);
    FilterCongruence(txns, Both(declared, late), late);
  }

  /** The as-of ledger, sorted, is a prefix of the sorted ledger of the declared holdings. */
  lemma SortedAsOfIsAPrefix(txns: seq<Txn>, cutoff: int)
    ensures Sort(Filter(txns, DeclaredAt(cutoff))) == Sort(AsOf(txns, cutoff)) + Sort(Later(txns, cutoff))
  {
    FilterMembers(txns, DeclaredAt(cutoff));
    HeldSplits(Filter(txns, DeclaredAt(cutoff)), cutoff);
    HeldFilters(txns, cutoff);
  }

  /** Sells still waiting at the end of a day wait on an earlier day than any later event. */
  lemma WaitingDayIsOver(kept: seq<Txn>, later: seq<Txn>, day: int)
    requires forall t :: t in kept && t.kind.Sell? ==> t.date < EndOf(day)
    requires forall t :: t in later ==> t.date >= EndOf(day)
    ensures var s := Run(START, kept);
            s.waiting != [] && later != [] ==> s.previous.Some? && later[0].Day() != s.previous.value
  {
    var s := Run(START, kept);
    if s.waiting != [] && later != [] {
      RunKeepsSound(START, kept);
      WaitingComesFromEvents(START, kept);
      CutoffSeparatesDays(s.waiting[0].date, later[0].date, day);
    }
  }

  lemma AsOfMembers(txns: seq<Txn>, cutoff: int)
    ensures forall t :: t in Sort(AsOf(txns, cutoff)) && t.kind.Sell? ==> t.date < cutoff
    ensures forall t :: t in Sort(Later(txns, cutoff)) ==> t.date >= cutoff
  {
    SortMembers(AsOf(txns, cutoff));
    SortMembers(Later(txns, cutoff));
    FilterMembers(txns, InEffectAt(cutoff));
    FilterMembers(txns, LaterThan(cutoff));
  }

  /**
   * As-of equals prefix, for every ledger: the replay of the holdings declared by the end
   * of the day goes through exactly the settled state of the as-of ledger, and on from
   * there with the later events.
   */
  lemma AsOfIsTheSettledPrefix(txns: seq<Txn>, day: int)
    ensures var cutoff := EndOf(day);
            && Replay(AsOf(txns, cutoff)) == Report(SettledState(AsOf(txns, cutoff)))
            && Replay(Filter(txns, DeclaredAt(cutoff)))
               == Report(Run(SettledState(AsOf(txns, cutoff)), Sort(Later(txns, cutoff))))
  {
    var cutoff := EndOf(day);
    var kept, later := Sort(AsOf(txns, cutoff)), Sort(Later(txns, cutoff));
    var s := Run(START, kept);
    SettleEmpties(s);
    SortedAsOfIsAPrefix(txns, cutoff);
    RunConcat(START, kept, later);
    AsOfMembers(txns, cutoff);
    WaitingDayIsOver(kept, later, day);
    SettleKeepsPrevious(s, true);
    SettleEarly(s, s.previous, later);
  }

  lemma CutoffSeparatesDays(a: int, b: int, day: int)
    requires a < EndOf(day) <= b
    ensures DayOf(a) <= day < DayOf(b)
  {
  }

  /** With no opening declared after the day, that is the replay of the ledger itself. */
  lemma AsOfEqualsPrefix(txns: seq<Txn>, day: int)
    requires forall t :: t in txns ==> DeclaredBefore(t, EndOf(day))
    ensures Replay(txns) == Report(Run(SettledState(AsOf(txns, EndOf(day))), Sort(Later(txns, EndOf(day)))))
  {
    AsOfIsTheSettledPrefix(txns, day);
    FilterAll(txns, DeclaredAt(EndOf(day)));
  }
}
