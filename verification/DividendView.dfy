/** The Dividends tab of one currency (services/dividend_view.go). */
module DividendView {
  import opened Sequences
  import opened Money
  import opened Ledger
  import opened Erasure
  import opened Book
  import opened Tallies

  datatype KeyTotal<K> = KeyTotal(key: K, total: real, count: nat)

  datatype HoldingTotal = HoldingTotal(holding: nat, total: real, count: nat, share: real)

  datatype ViewRow = ViewRow(dividend: Txn, cumulative: real, holdingCumulative: real)

  datatype View = View(
    rows: seq<ViewRow>, byYear: seq<KeyTotal<int>>, byMonth: seq<KeyTotal<int>>, byHolding: seq<HoldingTotal>,
    total: real, count: nat, holdings: nat, firstDay: Option<int>, lastDay: Option<int>)

  function HoldingKey(t: Txn): nat { t.holding }

  /** A period is a function of the calendar day, such as its year or its month. */
  function PeriodKey(period: int -> int): Txn -> int {
    (t: Txn) => period(t.Day())
  }

  // ----- the accumulators -----

  ghost predicate Counted<K(!new)>(m: map<K, nat>, events: seq<Txn>, key: Txn -> K) {
    forall k :: (k in m <==> exists t :: t in events && key(t) == k) && (k in m ==> m[k] == CountFor(events, key, k))
  }

  method Increment<K(==, !new)>(m: map<K, nat>, k: K, ghost events: seq<Txn>, ghost t: Txn, ghost key: Txn -> K)
      returns (r: map<K, nat>)
    requires Counted(m, events, key) && key(t) == k
    ensures Counted(r, events + [t], key)
  {
    r := m[k := (if k in m then m[k] else 0) + 1];
    if k !in m {
      UnseenIsZero(events, key, k);
    }
    forall j
      ensures CountFor(events + [t], key, j) == CountFor(events, key, j) + (if key(t) == j then 1 else 0)
    {
      OneMore(events, t, key, j);
    }
    assert forall u :: u in events + [t] <==> u in events || u == t;
  }

  function TotalAt<K(==)>(events: seq<Txn>, key: Txn -> K): K -> KeyTotal<K> {
    (k: K) => KeyTotal(k, CentsToMoney(CentsFor(events, key, k)), CountFor(events, key, k))
  }

  /** What toAPI lists: each key once, in first-seen order. */
  function TotalsOf<K(==, !new)>(events: seq<Txn>, key: Txn -> K): seq<KeyTotal<K>> {
    Map(FirstSeen(events, key), TotalAt(events, key))
  }

  /** periodTotals, and the three holding accumulators of buildDividendView, which work the same way. */
  class Accumulator<K(==, !new)> {
    var order: seq<K>
    var cents: map<K, int>
    var count: map<K, nat>

    constructor (ghost key: Txn -> K)
      ensures Holds([], key)
    {
      order, cents, count := [], map[], map[];
    }

    ghost predicate Holds(events: seq<Txn>, key: Txn -> K)
      reads this
    {
      order == FirstSeen(events, key) && Tallied(cents, events, key) && Counted(count, events, key)
    }

    method Add(k: K, amount: int, ghost events: seq<Txn>, ghost t: Txn, ghost key: Txn -> K)
      requires Holds(events, key) && key(t) == k && amount == CentsOf(t)
      modifies this
      ensures Holds(events + [t], key)
    {
      FirstSeenOneMore(events, t, key);
      if k !in cents {
        order := order + [k];
      }
      cents := Accumulate(cents, k, amount, events, t, key);
      count := Increment(count, k, events, t, key);
    }

    /** The figures of the i-th key. */
    method Entry(i: nat, ghost events: seq<Txn>, ghost key: Txn -> K) returns (k: K, amount: int, number: nat)
      requires Holds(events, key) && i < |order|
      ensures k == FirstSeen(events, key)[i] && amount == CentsFor(events, key, k) && number == CountFor(events, key, k)
    {
      k := order[i];
      assert k in FirstSeen(events, key);
      amount, number := cents[k], count[k];
    }

    method ToApi(ghost events: seq<Txn>, ghost key: Txn -> K) returns (totals: seq<KeyTotal<K>>)
      requires Holds(events, key)
      ensures totals == TotalsOf(events, key)
    {
      hide FirstSeen, Tallied, Counted, CentsFor, CountFor;
      totals := [];
      while |totals| < |order|
        invariant |totals| <= |order|
        invariant forall j :: 0 <= j < |totals| ==> totals[j] == TotalAt(events, key)(FirstSeen(events, key)[j])
      {
        var k, amount, number := Entry(|totals|, events, key);
        totals := totals + [KeyTotal(k, CentsToMoney(amount), number)];
      }
      TotalsAre(totals, events, key);
    }
  }

  lemma TotalsAre<K(!new)>(totals: seq<KeyTotal<K>>, events: seq<Txn>, key: Txn -> K)
    requires |totals| == |FirstSeen(events, key)|
    requires forall j :: 0 <= j < |totals| ==> totals[j] == TotalAt(events, key)(FirstSeen(events, key)[j])
    ensures totals == TotalsOf(events, key)
  {
  }

  // ----- the holdings, largest first -----

  function InsertByTotal(h: HoldingTotal, sorted: seq<HoldingTotal>): seq<HoldingTotal> {
    if sorted != [] && sorted[0].total > h.total then [sorted[0]] + InsertByTotal(h, sorted[1..]) else [h] + sorted
  }

  /** The stable sort by descending total. */
  function SortByTotal(hs: seq<HoldingTotal>): seq<HoldingTotal> {
    if hs == [] then [] else InsertByTotal(hs[0], SortByTotal(hs[1..]))
  }

  ghost predicate Descending(hs: seq<HoldingTotal>) {
    forall i, j :: 0 <= i < j < |hs| ==> hs[i].total >= hs[j].total
  }

  function WithTotal(total: real): HoldingTotal -> bool {
    (h: HoldingTotal) => h.total == total
  }

  lemma {:induction false} InsertKeeps(h: HoldingTotal, sorted: seq<HoldingTotal>, total: real)
    ensures multiset(InsertByTotal(h, sorted)) == multiset(sorted) + multiset{h}
    ensures Filter(InsertByTotal(h, sorted), WithTotal(total)) == Filter([h] + sorted, WithTotal(total))
  {
    FilterCons(h, sorted, WithTotal(total));
    if sorted != [] && sorted[0].total > h.total {
      var rest := InsertByTotal(h, sorted[1..]);
      assert sorted == [sorted[0]] + sorted[1..];
      InsertKeeps(h, sorted[1..], total);
      FilterCons(sorted[0], rest, WithTotal(total));
      FilterCons(h, sorted[1..], WithTotal(total));
    }
  }

  lemma {:induction false} InsertDescends(h: HoldingTotal, sorted: seq<HoldingTotal>)
    requires Descending(sorted)
    ensures Descending(InsertByTotal(h, sorted))
  {
    if sorted != [] && sorted[0].total > h.total {
      var rest := InsertByTotal(h, sorted[1..]);
      InsertDescends(h, sorted[1..]);
      InsertKeeps(h, sorted[1..], 0.0);
      forall x | x in rest
        ensures sorted[0].total >= x.total
      {
        assert x in multiset(rest);
        assert x == h || x in sorted[1..];
      }
      FirstDescends(sorted[0], rest);
    }
  }

  lemma FirstDescends(first: HoldingTotal, rest: seq<HoldingTotal>)
    requires Descending(rest) && forall x :: x in rest ==> first.total >= x.total
    ensures Descending([first] + rest)
  {
    var r := [first] + rest;
    assert forall k :: 0 < k < |r| ==> r[k] == rest[k - 1] && rest[k - 1] in rest;
  }

  /** The listing is a permutation, largest first, and equal totals keep the order they were first seen in. */
  lemma {:induction false} SortByTotalIsStable(hs: seq<HoldingTotal>, total: real)
    ensures multiset(SortByTotal(hs)) == multiset(hs) && Descending(SortByTotal(hs))
    ensures Filter(SortByTotal(hs), WithTotal(total)) == Filter(hs, WithTotal(total))
  {
    if hs != [] {
      var sorted := SortByTotal(hs[1..]);
      SortByTotalIsStable(hs[1..], total);
      InsertKeeps(hs[0], sorted, total);
      InsertDescends(hs[0], sorted);
      FilterCons(hs[0], sorted, WithTotal(total));
      FilterCons(hs[0], hs[1..], WithTotal(total));
      assert hs == [hs[0]] + hs[1..];
    }
  }

  // ----- the view -----

  function RowAt(events: seq<Txn>, i: nat): ViewRow
    requires i < |events|
  {
    ViewRow(events[i], CentsToMoney(Total(events[..i + 1], CentsOf)),
            CentsToMoney(CentsFor(events[..i + 1], HoldingKey, events[i].holding)))
  }

  function RowsOf(events: seq<Txn>): seq<ViewRow> {
    seq(|events|, i requires 0 <= i < |events| => RowAt(events, i))
  }

  function Share(events: seq<Txn>, hid: nat): real {
    if Total(events, CentsOf) > 0 then CentsFor(events, HoldingKey, hid) as real / Total(events, CentsOf) as real else 0.0
  }

  function HoldingAt(events: seq<Txn>): nat -> HoldingTotal {
    (hid: nat) => HoldingTotal(hid, CentsToMoney(CentsFor(events, HoldingKey, hid)),
                               CountFor(events, HoldingKey, hid), Share(events, hid))
  }

  function HoldingsOf(events: seq<Txn>): seq<HoldingTotal> {
    Map(FirstSeen(events, HoldingKey), HoldingAt(events))
  }

  method ListHoldings(holdings: Accumulator<nat>, totalCents: int, ghost events: seq<Txn>) returns (listed: seq<HoldingTotal>)
    requires holdings.Holds(events, HoldingKey) && totalCents == Total(events, CentsOf)
    ensures listed == HoldingsOf(events)
  {
    hide Share, CentsFor, CountFor, FirstSeen;
    listed := [];
    while |listed| < |holdings.order|
      invariant |listed| <= |holdings.order|
      invariant forall j :: 0 <= j < |listed| ==> listed[j] == HoldingAt(events)(FirstSeen(events, HoldingKey)[j])
    {
      var hid, amount, number := holdings.Entry(|listed|, events, HoldingKey);
      var share := 0.0;
      if totalCents > 0 {
        share := amount as real / totalCents as real;
      }
      assert share == Share(events, hid) by { ShareIs(events, hid, amount, totalCents, share); }
      listed := listed + [HoldingTotal(hid, CentsToMoney(amount), number, share)];
    }
    HoldingsAre(listed, events);
  }

  lemma ShareIs(events: seq<Txn>, hid: nat, amount: int, totalCents: int, share: real)
    requires amount == CentsFor(events, HoldingKey, hid) && totalCents == Total(events, CentsOf)
    requires share == if totalCents > 0 then amount as real / totalCents as real else 0.0
    ensures share == Share(events, hid)
  {
  }

  lemma HoldingsAre(listed: seq<HoldingTotal>, events: seq<Txn>)
    requires |listed| == |FirstSeen(events, HoldingKey)|
    requires forall j :: 0 <= j < |listed| ==> listed[j] == HoldingAt(events)(FirstSeen(events, HoldingKey)[j])
    ensures listed == HoldingsOf(events)
  {
  }

  lemma TotalOneMore(events: seq<Txn>, i: nat)
    requires i < |events|
    ensures Total(events[..i + 1], CentsOf) == Total(events[..i], CentsOf) + CentsOf(events[i])
  {
    assert events[..i + 1] == events[..i] + [events[i]];
    TotalConcat(events[..i], [events[i]], CentsOf);
    assert [events[i]][1..] == [];
  }

  /** The accumulators of the loop, filled with the events so far. */
  ghost predicate Filled(holdings: Accumulator<nat>, years: Accumulator<int>, months: Accumulator<int>,
      events: seq<Txn>, year: int -> int, month: int -> int)
    reads holdings, years, months
  {
    holdings.Holds(events, HoldingKey) && years.Holds(events, PeriodKey(year)) && months.Holds(events, PeriodKey(month))
  }

  /** The body of the loop: files one event everywhere, and says what its holding has received. */
  method FileEvent(holdings: Accumulator<nat>, years: Accumulator<int>, months: Accumulator<int>, dividend: Txn,
      year: int -> int, month: int -> int, ghost events: seq<Txn>) returns (holdingCents: int)
    requires years != months && Filled(holdings, years, months, events, year, month)
    modifies holdings, years, months
    ensures Filled(holdings, years, months, events + [dividend], year, month)
    ensures holdingCents == CentsFor(events + [dividend], HoldingKey, dividend.holding)
  {
    var cents := AmountCents(dividend.amount);
    holdings.Add(dividend.holding, cents, events, dividend, HoldingKey);
    years.Add(year(dividend.Day()), cents, events, dividend, PeriodKey(year));
    months.Add(month(dividend.Day()), cents, events, dividend, PeriodKey(month));
    assert dividend in events + [dividend] && HoldingKey(dividend) == dividend.holding;
    holdingCents := holdings.cents[dividend.holding];
  }

  /** After the loop: the breakdowns are listed and the summary filled in. */
  method Summarise(rows: seq<ViewRow>, totalCents: int, holdings: Accumulator<nat>, years: Accumulator<int>,
      months: Accumulator<int>, events: seq<Txn>, ghost year: int -> int, ghost month: int -> int) returns (view: View)
    requires Filled(holdings, years, months, events, year, month) && totalCents == Total(events, CentsOf)
    ensures IsView(view.(rows := RowsOf(events)), events, year, month) && view.rows == rows
  {
    var byYear := years.ToApi(events, PeriodKey(year));
    var byMonth := months.ToApi(events, PeriodKey(month));
    var byHolding := ListHoldings(holdings, totalCents, events);
    view := View(rows, byYear, byMonth, SortByTotal(byHolding), CentsToMoney(totalCents), |events|, |holdings.order|, None, None);
    if |events| > 0 {
      view := view.(firstDay := Some(events[0].Day()), lastDay := Some(events[|events| - 1].Day()));
    }
  }

  /** The tab as filters and sums over the events. */
  ghost predicate IsView(view: View, events: seq<Txn>, year: int -> int, month: int -> int) {
    && view.rows == RowsOf(events)
    && view.byYear == TotalsOf(events, PeriodKey(year)) && view.byMonth == TotalsOf(events, PeriodKey(month))
    && view.byHolding == SortByTotal(HoldingsOf(events))
    && view.total == CentsToMoney(Total(events, CentsOf)) && view.count == |events|
    && view.holdings == |FirstSeen(events, HoldingKey)|
    && view.firstDay == (if events == [] then None else Some(events[0].Day()))
    && view.lastDay == (if events == [] then None else Some(events[|events| - 1].Day()))
  }

  lemma NothingYet(events: seq<Txn>)
    ensures RowsOf(events[..0]) == [] && Total(events[..0], CentsOf) == 0
  {
  }

  lemma RowOneMore(events: seq<Txn>, i: nat)
    requires i < |events|
    ensures RowsOf(events[..i + 1]) == RowsOf(events[..i]) + [RowAt(events, i)]
  {
    var longer, rows := RowsOf(events[..i + 1]), RowsOf(events[..i]) + [RowAt(events, i)];
    forall j | 0 <= j <= i
      ensures longer[j] == rows[j]
    {
      assert events[..i + 1][..j + 1] == events[..j + 1];
      assert j < i ==> events[..i][..j + 1] == events[..j + 1];
    }
  }

  /** buildDividendView: one pass over the events in tab order. */
  method BuildDividendView(events: seq<Txn>, year: int -> int, month: int -> int) returns (view: View)
    ensures IsView(view, events, year, month)
  {
    hide IsView, RowsOf, Total, Tallied, Counted;
    var totalCents, rows := 0, [];
    NothingYet(events);
    var holdings := new Accumulator<nat>(HoldingKey);
    var years := new Accumulator<int>(PeriodKey(year));
    var months := new Accumulator<int>(PeriodKey(month));
    var i := 0;
    while i < |events|
      invariant 0 <= i <= |events| && fresh(holdings) && fresh(years) && fresh(months) && years != months
      invariant totalCents == Total(events[..i], CentsOf) && rows == RowsOf(events[..i])
      invariant Filled(holdings, years, months, events[..i], year, month)
    {
      var dividend := events[i];
      assert events[..i + 1] == events[..i] + [dividend];
      TotalOneMore(events, i);
      RowOneMore(events, i);
      totalCents := totalCents + AmountCents(dividend.amount);
      var holdingCents := FileEvent(holdings, years, months, dividend, year, month, events[..i]);
      rows := rows + [ViewRow(dividend, CentsToMoney(totalCents), CentsToMoney(holdingCents))];
      i := i + 1;
    }
    assert events[..i] == events;
    view := Summarise(rows, totalCents, holdings, years, months, events, year, month);
  }

  // ----- every breakdown adds up to the same total -----

  function TotalField<K>(r: KeyTotal<K>): real { r.total }
  function CountField<K>(r: KeyTotal<K>): int { r.count }
  function HoldingTotalField(r: HoldingTotal): real { r.total }
  function ShareField(r: HoldingTotal): real { r.share }

  lemma {:induction false} MoneyAddsUp<K(!new)>(order: seq<K>, events: seq<Txn>, key: Txn -> K)
    ensures Sum(Map(order, TotalAt(events, key)), TotalField) == CentsToMoney(Total(order, CentsAt(events, key)))
    ensures Total(Map(order, TotalAt(events, key)), CountField) == Total(order, CountAt(events, key))
  {
    if order != [] {
      MoneyAddsUp(order[1..], events, key);
      assert Map(order, TotalAt(events, key))[1..] == Map(order[1..], TotalAt(events, key));
    }
  }

  /** The years, and the months, share out the tab's total and its events. */
  lemma PeriodsAddUp(events: seq<Txn>, period: int -> int)
    ensures Sum(TotalsOf(events, PeriodKey(period)), TotalField) == CentsToMoney(Total(events, CentsOf))
    ensures Total(TotalsOf(events, PeriodKey(period)), CountField) == |events|
  {
    MoneyAddsUp(FirstSeen(events, PeriodKey(period)), events, PeriodKey(period));
    KeysPartitionTheTotal(events, PeriodKey(period));
  }

  predicate StrictlyAscending(ks: seq<int>) {
    forall i, j :: 0 <= i < j < |ks| ==> ks[i] < ks[j]
  }

  /** Periods that never run backwards are listed in ascending order. */
  lemma {:induction false} PeriodsAscend(events: seq<Txn>, period: int -> int)
    requires InDayOrder(events, DayOfTxn)
    requires forall a, b :: a <= b ==> period(a) <= period(b)
    ensures StrictlyAscending(FirstSeen(events, PeriodKey(period)))
    decreases |events|
  {
    if events != [] {
      var init, t := events[..|events| - 1], events[|events| - 1];
      PeriodsAscend(init, period);
      var order := FirstSeen(init, PeriodKey(period));
      forall k | k in order
        ensures k <= PeriodKey(period)(t)
      {
        var u :| u in init && PeriodKey(period)(u) == k;
        assert DayOfTxn(u) <= DayOfTxn(t);
      }
      if PeriodKey(period)(t) !in order {
        forall i | 0 <= i < |order|
          ensures order[i] < PeriodKey(period)(t)
        {
          assert order[i] in order;
        }
      }
    }
  }

  lemma MapTail<K, T>(order: seq<K>, f: K -> T)
    requires order != []
    ensures Map(order, f)[0] == f(order[0]) && Map(order, f)[1..] == Map(order[1..], f)
  {
  }

  lemma {:induction false} HoldingsSum(order: seq<nat>, events: seq<Txn>)
    ensures Sum(Map(order, HoldingAt(events)), HoldingTotalField) == CentsToMoney(Total(order, CentsAt(events, HoldingKey)))
  {
    hide Share, CentsFor, CountFor;
    if order != [] {
      HoldingsSum(order[1..], events);
      MapTail(order, HoldingAt(events));
    }
  }

  lemma {:induction false} SharesSum(order: seq<nat>, events: seq<Txn>)
    requires Total(events, CentsOf) > 0
    ensures Sum(Map(order, HoldingAt(events)), ShareField)
         == Total(order, CentsAt(events, HoldingKey)) as real / Total(events, CentsOf) as real
  {
    hide CentsFor, CountFor, CentsToMoney;
    var whole := Total(events, CentsOf);
    if order == [] {
      assert 0 as real / whole as real == 0.0;
    } else {
      SharesSum(order[1..], events);
      MapTail(order, HoldingAt(events));
      SharesOfSum(CentsFor(events, HoldingKey, order[0]), Total(order[1..], CentsAt(events, HoldingKey)), whole);
    }
  }

  lemma SharesOfSum(a: int, b: int, whole: int)
    requires whole > 0
    ensures a as real / whole as real + b as real / whole as real == (a + b) as real / whole as real
  {
  }

  /** The holdings listed share out the tab's total. */
  lemma HoldingsAddUp(events: seq<Txn>)
    ensures Sum(SortByTotal(HoldingsOf(events)), HoldingTotalField) == CentsToMoney(Total(events, CentsOf))
  {
    SortByTotalIsStable(HoldingsOf(events), 0.0);
    SumOfPermutation(SortByTotal(HoldingsOf(events)), HoldingsOf(events), HoldingTotalField);
    HoldingsSum(FirstSeen(events, HoldingKey), events);
    KeysPartitionTheTotal(events, HoldingKey);
  }

  /** ... and their shares make a whole. */
  lemma SharesAddUp(events: seq<Txn>)
    requires Total(events, CentsOf) > 0
    ensures Sum(SortByTotal(HoldingsOf(events)), ShareField) == 1.0
  {
    SortByTotalIsStable(HoldingsOf(events), 0.0);
    SumOfPermutation(SortByTotal(HoldingsOf(events)), HoldingsOf(events), ShareField);
    SharesSum(FirstSeen(events, HoldingKey), events);
    KeysPartitionTheTotal(events, HoldingKey);
    SelfShare(Total(FirstSeen(events, HoldingKey), CentsAt(events, HoldingKey)), Total(events, CentsOf));
  }

  lemma SelfShare(a: int, b: int)
    requires a == b > 0
    ensures a as real / b as real == 1.0
  {
  }

  /** The last row's running total is the tab's total. */
  lemma RunningTotalEndsAtTheTotal(events: seq<Txn>)
    requires events != []
    ensures RowsOf(events)[|events| - 1].cumulative == CentsToMoney(Total(events, CentsOf))
  {
    assert events[..|events| - 1 + 1] == events;
  }

  lemma NoneLater(head: seq<Txn>, tail: seq<Txn>, hid: nat)
    requires forall t :: t in tail ==> HoldingKey(t) != hid
    ensures CentsFor(head + tail, HoldingKey, hid) == CentsFor(head, HoldingKey, hid)
  {
    FilterConcat(head, tail, Keyed(HoldingKey, hid));
    FilterNone(tail, Keyed(HoldingKey, hid));
    assert Filter(head, Keyed(HoldingKey, hid)) + [] == Filter(head, Keyed(HoldingKey, hid));
  }

  /** A holding's last row ends at the holding's total. */
  lemma HoldingTotalEndsAtTheTotal(events: seq<Txn>, i: nat)
    requires i < |events| && forall j :: i < j < |events| ==> events[j].holding != events[i].holding
    ensures RowsOf(events)[i].holdingCumulative == CentsToMoney(CentsFor(events, HoldingKey, events[i].holding))
  {
    assert events == events[..i + 1] + events[i + 1..];
    NoneLater(events[..i + 1], events[i + 1..], events[i].holding);
    assert RowsOf(events)[i] == RowAt(events, i);
  }

  // ----- the view against the replay -----

  /** The events of one currency's tab. */
  function TabOf(c: string): Txn -> bool {
    (t: Txn) => t.kind.Dividend? && t.currency == c
  }

  function Elsewhere(c: string): Txn -> bool {
    (t: Txn) => t.kind.Dividend? && t.currency != c
  }

  /** The dividends of a ledger the tab of currency c does not show. */
  function ElsewhereCents(ledger: seq<Txn>, c: string): int {
    Total(Filter(ledger, Elsewhere(c)), CentsOf)
  }

  lemma {:induction false} TabSplitsLedger(ledger: seq<Txn>, c: string)
    ensures Total(ledger, DividendCents) == Total(Filter(ledger, TabOf(c)), CentsOf) + ElsewhereCents(ledger, c)
  {
    if ledger != [] {
      TabSplitsLedger(ledger[1..], c);
    }
  }

  /** Filtering by tab and by holding commute. */
  lemma {:induction false} TabOfHolding(txns: seq<Txn>, c: string, hid: nat)
    ensures Filter(Filter(txns, TabOf(c)), Keyed(HoldingKey, hid)) == Filter(LedgerOf(txns, hid), TabOf(c))
  {
    FilterTwice(txns, TabOf(c), Keyed(HoldingKey, hid));
    FilterTwice(txns, OfHolding(hid), TabOf(c));
    forall t | t in txns
      ensures Both(TabOf(c), Keyed(HoldingKey, hid))(t) == Both(OfHolding(hid), TabOf(c))(t)
    {
      assert HoldingKey(t) == t.holding;
    }
    FilterCongruence(txns, Both(TabOf(c), Keyed(HoldingKey, hid)), Both(OfHolding(hid), TabOf(c)));
  }

  /**
   * A holding's total on the tab is the replay's dividend total, less what the holding received
   * in other currencies: the two agree exactly when that is nothing.
   */
  lemma TabTotalAgainstReplay(txns: seq<Txn>, events: seq<Txn>, c: string, hid: nat)
    requires multiset(events) == multiset(Filter(txns, TabOf(c)))
    ensures var tab := CentsToMoney(CentsFor(events, HoldingKey, hid));
            var replayed := Replay(LedgerOf(txns, hid)).position.totalDividends;
            && replayed == tab + CentsToMoney(ElsewhereCents(LedgerOf(txns, hid), c))
            && (tab == replayed <==> ElsewhereCents(LedgerOf(txns, hid), c) == 0)
  {
    var listed := Filter(txns, TabOf(c));
    forall t
      ensures multiset(Filter(events, Keyed(HoldingKey, hid)))[t] == multiset(Filter(listed, Keyed(HoldingKey, hid)))[t]
    {
      FilterCount(events, Keyed(HoldingKey, hid), t);
      FilterCount(listed, Keyed(HoldingKey, hid), t);
    }
    TotalOfPermutation(Filter(events, Keyed(HoldingKey, hid)), Filter(listed, Keyed(HoldingKey, hid)), CentsOf);
    TabOfHolding(txns, c, hid);
    TabSplitsLedger(LedgerOf(txns, hid), c);
    DividendTotalIsTheSum(LedgerOf(txns, hid));
  }
}
