/**
 * The derived figures read off dates, currencies and amounts (services/investment_delta.go, dividend_history.go,
 * dividend_view.go and gold_history.go).
 */
module FigureLaws {
  import opened Sequences
  import opened Money
  import opened Ledger
  import opened Tallies
  import opened RowFigures
  import Delta = InvestmentDelta
  import Overlay = DividendHistory
  import Tab = DividendView
  import Gold = GoldHistory

  // ----- the investment delta chart -----

  /** Some month of the year ends with at least half a cent invested, or moves it by at least that much. */
  ghost predicate HasMovement(values: seq<real>) {
    exists i :: 0 < i < |values| && MovesAt(values, i)
  }

  predicate MovesAt(values: seq<real>, i: int)
    requires 0 < i < |values|
  {
    values[i] >= 0.005 || values[i] - values[i - 1] >= 0.005 || values[i - 1] - values[i] >= 0.005
  }

  ghost function ActiveIn(figures: map<string, seq<real>>): string -> bool {
    name => name in figures && HasMovement(figures[name])
  }

  function NameOf(column: Delta.Column): string { column.name }

  /** Twelve months; each that has ended shows what is invested at its end and what the month changed, to the cent. */
  predicate ShowsMonths(column: Delta.Column, values: seq<real>) {
    && |column.months| == 12
    && forall m :: 0 <= m < 12 ==>
         && column.months[m].month0 == m
         && column.months[m].invested.Some? == column.months[m].delta.Some? == (m + 1 < |values|)
         && (m + 1 < |values| ==>
               && ToTheCent(column.months[m].invested.value, values[m + 1])
               && ToTheCent(column.months[m].delta.value, values[m + 1] - values[m]))
  }

  lemma RoundsAwayBelow(x: real)
    ensures RoundCents(x) > 0.0 <==> x >= 0.005
    ensures RoundCents(x) != 0.0 <==> x >= 0.005 || -x >= 0.005
  {
  }

  lemma MovementShowsMoney(values: seq<real>)
    ensures Delta.ShowsMoney(values) <==> HasMovement(values)
  {
    forall i | 0 < i < |values|
      ensures Delta.Moves(values, i) <==> MovesAt(values, i)
    {
      RoundsAwayBelow(values[i]);
      RoundsAwayBelow(values[i] - values[i - 1]);
    }
  }

  lemma ColumnShows(name: string, values: seq<real>)
    ensures ShowsMonths(Delta.ColumnOf(name, values), values) && Delta.ColumnOf(name, values).name == name
  {
    hide ToTheCent, RoundCents;
    var months := Delta.ColumnOf(name, values).months;
    forall m | 0 <= m < |months| && months[m].invested.Some?
      ensures ToTheCent(months[m].invested.value, values[m + 1])
      ensures ToTheCent(months[m].delta.value, values[m + 1] - values[m])
    {
      RoundedToTheCent(values[m + 1]);
      RoundedToTheCent(values[m + 1] - values[m]);
    }
  }

  lemma {:induction false} ColumnsShow(names: seq<string>, figures: map<string, seq<real>>)
    ensures var columns := Delta.ColumnsOf(names, figures);
            && Map(columns, NameOf) == Filter(names, ActiveIn(figures))
            && forall c :: c in columns ==> c.name in figures && ShowsMonths(c, figures[c.name])
  {
    hide ShowsMonths, Delta.ColumnOf, Delta.ShowsMoney, HasMovement;
    if names != [] {
      var rest := Delta.ColumnsOf(names[1..], figures);
      ColumnsShow(names[1..], figures);
      if names[0] in figures {
        var column := Delta.ColumnOf(names[0], figures[names[0]]);
        MovementShowsMoney(figures[names[0]]);
        ColumnShows(names[0], figures[names[0]]);
        assert Map([column] + rest, NameOf) == [NameOf(column)] + Map(rest, NameOf);
      }
    }
  }

  /** The chart: the active ones of rupees, euros and gold, in that order, each with its figures. */
  lemma ChartShowsTheFigures(figures: map<string, seq<real>>)
    ensures var columns := Delta.ColumnsOf(Delta.COLUMNS, figures);
            && Map(columns, NameOf) == Filter(["INR", "EUR", "GOLD"], ActiveIn(figures))
            && forall c :: c in columns ==> c.name in figures && ShowsMonths(c, figures[c.name])
  {
    ColumnsShow(Delta.COLUMNS, figures);
  }

  // ----- the dividend overlay -----

  function By(currency: string, day: int): Txn -> bool {
    (t: Txn) => t.currency == currency && DayOf(t.date) <= day
  }

  function Just(currency: string, day: int): Txn -> bool {
    (t: Txn) => t.currency == currency && DayOf(t.date) == day
  }

  function SymbolFor(symbols: map<nat, string>, holding: nat): string {
    if holding in symbols then symbols[holding] else ""
  }

  function OfStock(symbols: map<nat, string>, currency: string, symbol: string, day: int): Txn -> bool {
    (t: Txn) => t.currency == currency && SymbolFor(symbols, t.holding) == symbol && DayOf(t.date) <= day
  }

  /** What the chosen dividends come to. */
  function Received(dividends: seq<Txn>, chosen: Txn -> bool): real {
    CentsToMoney(Total(Filter(dividends, chosen), InCents))
  }

  function InCents(t: Txn): int { AmountCents(t.amount) }

  lemma SameCents(dividends: seq<Txn>, inner: Txn -> bool, outer: Txn -> bool, chosen: Txn -> bool)
    requires forall t :: t in dividends ==> chosen(t) == Both(inner, outer)(t)
    ensures CentsToMoney(Total(Filter(Filter(dividends, inner), outer), CentsOf)) == Received(dividends, chosen)
  {
    hide Filter, Total, Both;
    FilterTwice(dividends, inner, outer);
    FilterCongruence(dividends, Both(inner, outer), chosen);
    SameTotals(Filter(dividends, chosen));
  }

  lemma {:induction false} SameTotals(ts: seq<Txn>)
    ensures Total(ts, CentsOf) == Total(ts, InCents)
  {
    if ts != [] {
      SameTotals(ts[1..]);
    }
  }

  lemma DayIsTheDate(t: Txn, d: int)
    ensures UpTo(DayOfTxn, d)(t) <==> DayOf(t.date) <= d
  {
    assert DayOfTxn(t) == DayOf(t.date);
  }

  /** The dividends of one key among those of a day and before. */
  lemma KeyReceived<K(!new)>(dividends: seq<Txn>, d: int, key: Txn -> K, k: K, chosen: Txn -> bool)
    requires forall t :: t in dividends ==> chosen(t) == (DayOf(t.date) <= d && key(t) == k)
    ensures CentsToMoney(CentsFor(Filter(dividends, UpTo(DayOfTxn, d)), key, k)) == Received(dividends, chosen)
  {
    hide Filter, Total, Received;
    forall t | t in dividends
      ensures chosen(t) == Both(UpTo(DayOfTxn, d), Keyed(key, k))(t)
    {
      DayIsTheDate(t, d);
    }
    SameCents(dividends, UpTo(DayOfTxn, d), Keyed(key, k), chosen);
  }

  lemma SomeReceived<K(!new)>(dividends: seq<Txn>, d: int, key: Txn -> K, k: K, chosen: Txn -> bool)
    requires forall t :: t in dividends ==> chosen(t) == (DayOf(t.date) <= d && key(t) == k)
    ensures (exists t :: t in Filter(dividends, UpTo(DayOfTxn, d)) && key(t) == k) <==> (exists t :: t in dividends && chosen(t))
  {
    hide Filter;
    FilterMembers(dividends, UpTo(DayOfTxn, d));
    if t :| t in dividends && chosen(t) {
      DayIsTheDate(t, d);
      assert t in Filter(dividends, UpTo(DayOfTxn, d)) && key(t) == k;
    }
    if t :| t in Filter(dividends, UpTo(DayOfTxn, d)) && key(t) == k {
      DayIsTheDate(t, d);
      assert t in dividends && chosen(t);
    }
  }

  lemma CurrencyShown(points: map<string, Overlay.Point>, dividends: seq<Txn>, d: int, once: bool, c: string)
    requires Overlay.CurrenciesDescribed(points, dividends, d, once)
    ensures c in points <==> exists t :: t in dividends && By(c, d)(t)
    ensures c in points ==>
              && points[c].toDate == Received(dividends, By(c, d))
              && points[c].onDay == if once then Received(dividends, Just(c, d)) else 0.0
  {
    hide Filter, Total, Received, CentsFor;
    SomeReceived(dividends, d, Overlay.CurrencyKey, c, By(c, d));
    KeyReceived(dividends, d, Overlay.CurrencyKey, c, By(c, d));
    JustReceived(dividends, d, c);
  }

  lemma JustReceived(dividends: seq<Txn>, d: int, c: string)
    ensures CentsToMoney(CentsFor(Filter(dividends, On(DayOfTxn, d)), Overlay.CurrencyKey, c)) == Received(dividends, Just(c, d))
  {
    hide Filter, Total, Received;
    forall t | t in dividends
      ensures Just(c, d)(t) == Both(On(DayOfTxn, d), Keyed(Overlay.CurrencyKey, c))(t)
    {
      assert DayOfTxn(t) == DayOf(t.date) && Overlay.CurrencyKey(t) == t.currency;
    }
    SameCents(dividends, On(DayOfTxn, d), Keyed(Overlay.CurrencyKey, c), Just(c, d));
  }

  lemma StockShown(stocks: map<Overlay.StockKey, real>, dividends: seq<Txn>, symbols: map<nat, string>, d: int, c: string, s: string)
    requires Overlay.StocksDescribed(stocks, dividends, symbols, d)
    ensures Overlay.StockKey(c, s) in stocks <==> exists t :: t in dividends && OfStock(symbols, c, s, d)(t)
    ensures Overlay.StockKey(c, s) in stocks ==>
              stocks[Overlay.StockKey(c, s)] == Received(dividends, OfStock(symbols, c, s, d))
  {
    hide Filter, Total, Received, CentsFor;
    SomeReceived(dividends, d, Overlay.StockOf(symbols), Overlay.StockKey(c, s), OfStock(symbols, c, s, d));
    KeyReceived(dividends, d, Overlay.StockOf(symbols), Overlay.StockKey(c, s), OfStock(symbols, c, s, d));
  }

  /**
   * A day of the overlay, read off the dividends: per currency what was received up to the day and, when the day is listed
   * once, on it; per currency and symbol what was received up to it. Exactly what has been received from is listed.
   */
  lemma OverlayShowsTheDividends(day: Overlay.DividendDay, dividends: seq<Txn>, symbols: map<nat, string>, d: int, once: bool,
      c: string, s: string)
    requires Overlay.Describes(day, dividends, symbols, d, once)
    ensures c in day.byCurrency <==> exists t :: t in dividends && By(c, d)(t)
    ensures c in day.byCurrency ==>
              && day.byCurrency[c].toDate == Received(dividends, By(c, d))
              && day.byCurrency[c].onDay == if once then Received(dividends, Just(c, d)) else 0.0
    ensures Overlay.StockKey(c, s) in day.byStock <==> exists t :: t in dividends && OfStock(symbols, c, s, d)(t)
    ensures Overlay.StockKey(c, s) in day.byStock ==>
              day.byStock[Overlay.StockKey(c, s)] == Received(dividends, OfStock(symbols, c, s, d))
  {
    hide Overlay.CurrenciesDescribed, Overlay.StocksDescribed, Received;
    CurrencyShown(day.byCurrency, dividends, d, once, c);
    StockShown(day.byStock, dividends, symbols, d, c, s);
  }

  // ----- the dividends tab -----

  /** The days the tab says it spans are the first and the last any of its dividends was received on. */
  lemma TabSpansItsDividends(view: Tab.View, events: seq<Txn>, year: int -> int, month: int -> int)
    requires Tab.IsView(view, events, year, month) && InDayOrder(events, DayOfTxn) && events != []
    ensures view.firstDay.Some? && view.lastDay.Some?
    ensures forall t :: t in events ==> view.firstDay.value <= DayOf(t.date) <= view.lastDay.value
    ensures (exists t :: t in events && DayOf(t.date) == view.firstDay.value)
    ensures (exists t :: t in events && DayOf(t.date) == view.lastDay.value)
  {
    SpansDays(events);
    hide Tab.TotalsOf, Tab.HoldingsOf, Tab.SortByTotal, Tab.RowsOf, Total, FirstSeen;
    assert view.firstDay == Some(events[0].Day()) && view.lastDay == Some(events[|events| - 1].Day());
  }

  lemma SpansDays(events: seq<Txn>)
    requires InDayOrder(events, DayOfTxn) && events != []
    ensures forall t :: t in events ==> events[0].Day() <= DayOf(t.date) <= events[|events| - 1].Day()
    ensures exists t :: t in events && DayOf(t.date) == events[0].Day()
    ensures exists t :: t in events && DayOf(t.date) == events[|events| - 1].Day()
  {
    assert events[0] in events && events[|events| - 1] in events;
    forall t | t in events
      ensures events[0].Day() <= DayOf(t.date) <= events[|events| - 1].Day()
    {
      var i :| 0 <= i < |events| && events[i] == t;
      assert DayOfTxn(events[0]) <= DayOfTxn(events[i]) <= DayOfTxn(events[|events| - 1]);
    }
  }

  function In(period: int -> int, key: int): Txn -> bool {
    (t: Txn) => period(DayOf(t.date)) == key
  }

  function To(hid: nat): Txn -> bool {
    (t: Txn) => t.holding == hid
  }

  function Every(): Txn -> bool {
    (t: Txn) => true
  }

  /** The entry is what was received under its key, and how often. */
  predicate Adds(events: seq<Txn>, chosen: Txn -> bool, total: real, count: nat) {
    total == Received(events, chosen) && count == |Filter(events, chosen)|
  }

  lemma KeyAdds<K(!new)>(events: seq<Txn>, key: Txn -> K, k: K, chosen: Txn -> bool)
    requires forall t :: t in events ==> chosen(t) == (key(t) == k)
    ensures Adds(events, chosen, CentsToMoney(CentsFor(events, key, k)), CountFor(events, key, k))
  {
    hide Filter, Total;
    FilterCongruence(events, Keyed(key, k), chosen);
    SameTotals(Filter(events, chosen));
  }

  lemma PeriodAdds(events: seq<Txn>, period: int -> int, k: int)
    ensures Adds(events, In(period, k), CentsToMoney(CentsFor(events, Tab.PeriodKey(period), k)),
                 CountFor(events, Tab.PeriodKey(period), k))
  {
    hide Adds, CentsFor, CountFor;
    forall t | t in events
      ensures In(period, k)(t) == (Tab.PeriodKey(period)(t) == k)
    {
      assert t.Day() == DayOf(t.date);
    }
    KeyAdds(events, Tab.PeriodKey(period), k, In(period, k));
  }

  lemma HoldingAdds(events: seq<Txn>, hid: nat)
    ensures Adds(events, To(hid), CentsToMoney(CentsFor(events, Tab.HoldingKey, hid)), CountFor(events, Tab.HoldingKey, hid))
  {
    hide Adds, CentsFor, CountFor;
    forall t | t in events
      ensures To(hid)(t) == (Tab.HoldingKey(t) == hid)
    {
    }
    KeyAdds(events, Tab.HoldingKey, hid, To(hid));
  }

  lemma PeriodsAdd(events: seq<Txn>, period: int -> int)
    ensures forall e :: e in Tab.TotalsOf(events, Tab.PeriodKey(period)) ==> Adds(events, In(period, e.key), e.total, e.count)
  {
    hide Adds, CentsFor, CountFor, FirstSeen;
    var totals, order := Tab.TotalsOf(events, Tab.PeriodKey(period)), FirstSeen(events, Tab.PeriodKey(period));
    forall e | e in totals
      ensures Adds(events, In(period, e.key), e.total, e.count)
    {
      var i :| 0 <= i < |totals| && totals[i] == e;
      assert e == Tab.TotalAt(events, Tab.PeriodKey(period))(order[i]);
      PeriodAdds(events, period, order[i]);
    }
  }

  lemma HoldingsAdd(events: seq<Txn>)
    ensures forall h :: h in Tab.SortByTotal(Tab.HoldingsOf(events)) ==> Adds(events, To(h.holding), h.total, h.count)
  {
    hide Adds, CentsFor, CountFor, FirstSeen, Tab.SortByTotal, Tab.Share;
    var hs, order := Tab.HoldingsOf(events), FirstSeen(events, Tab.HoldingKey);
    Tab.SortByTotalIsStable(hs, 0.0);
    forall h | h in Tab.SortByTotal(hs)
      ensures Adds(events, To(h.holding), h.total, h.count)
    {
      assert h in multiset(Tab.SortByTotal(hs)) && h in multiset(hs);
      var i :| 0 <= i < |hs| && hs[i] == h;
      assert h == Tab.HoldingAt(events)(order[i]);
      HoldingAdds(events, order[i]);
    }
  }

  lemma RowAdds(events: seq<Txn>, i: nat)
    requires i < |events|
    ensures var row := Tab.RowAt(events, i);
            && row.dividend == events[i] && row.cumulative == Received(events[..i + 1], Every())
            && row.holdingCumulative == Received(events[..i + 1], To(events[i].holding))
  {
    FilterAll(events[..i + 1], Every());
    SameTotals(events[..i + 1]);
    HoldingAdds(events[..i + 1], events[i].holding);
  }

  /**
   * The tab, read off the dividends in their order: each row with what had been received by then, in all and from its
   * holding; each year, each month and each holding with what was received in it, and how often.
   */
  lemma TabShowsTheDividends(view: Tab.View, events: seq<Txn>, year: int -> int, month: int -> int)
    requires Tab.IsView(view, events, year, month)
    ensures |view.rows| == |events|
    ensures forall i :: 0 <= i < |events| ==>
              && view.rows[i].dividend == events[i] && view.rows[i].cumulative == Received(events[..i + 1], Every())
              && view.rows[i].holdingCumulative == Received(events[..i + 1], To(events[i].holding))
    ensures forall e :: e in view.byYear ==> Adds(events, In(year, e.key), e.total, e.count)
    ensures forall e :: e in view.byMonth ==> Adds(events, In(month, e.key), e.total, e.count)
    ensures forall h :: h in view.byHolding ==> Adds(events, To(h.holding), h.total, h.count)
    ensures view.total == Received(events, Every()) && view.count == |events|
  {
    hide Adds, Received, Filter, Total, FirstSeen, Tab.TotalsOf, Tab.HoldingsOf, Tab.SortByTotal, Tab.RowAt;
    forall i | 0 <= i < |events|
      ensures && view.rows[i].dividend == events[i] && view.rows[i].cumulative == Received(events[..i + 1], Every())
              && view.rows[i].holdingCumulative == Received(events[..i + 1], To(events[i].holding))
    {
      RowAdds(events, i);
    }
    PeriodsAdd(events, year);
    PeriodsAdd(events, month);
    HoldingsAdd(events);
    EveryIsAll(events);
  }

  lemma EveryIsAll(events: seq<Txn>)
    ensures CentsToMoney(Total(events, CentsOf)) == Received(events, Every())
  {
    FilterAll(events, Every());
    SameTotals(events);
  }

  // ----- gold -----

  function BoughtBy(day: int): Gold.Purchase -> bool {
    (p: Gold.Purchase) => p.day <= day
  }

  function MoneyPaid(p: Gold.Purchase): real { p.paid }

  function GramsBought(p: Gold.Purchase): real { p.grams }

  /** The last listed price of the day or before it. */
  ghost predicate LastPriceBy(prices: seq<Gold.Price>, day: int, i: int) {
    && 0 <= i < |prices| && prices[i].day <= day
    && forall j :: i < j < |prices| ==> prices[j].day > day
  }

  lemma {:induction false} PriceIsTheLast(prices: seq<Gold.Price>, day: int)
    ensures forall i :: LastPriceBy(prices, day, i) ==> Gold.PriceAt(prices, day) == Some(prices[i].perGram)
    ensures Gold.PriceAt(prices, day).Some? <==> exists i :: LastPriceBy(prices, day, i)
  {
    if prices != [] {
      var n := |prices| - 1;
      var init := prices[..n];
      PriceIsTheLast(init, day);
      assert prices == init + [prices[n]];
      FilterConcat(init, [prices[n]], UpTo(Gold.PriceDay, day));
      if prices[n].day <= day {
        assert LastPriceBy(prices, day, n);
      } else {
        assert Filter(init, UpTo(Gold.PriceDay, day)) + [] == Filter(init, UpTo(Gold.PriceDay, day));
        forall i
          ensures LastPriceBy(prices, day, i) <==> LastPriceBy(init, day, i)
        {
        }
      }
    }
  }

  lemma {:induction false} SameSums(ps: seq<Gold.Purchase>)
    ensures Sum(ps, Gold.Paid) == Sum(ps, MoneyPaid) && Sum(ps, Gold.Grams) == Sum(ps, GramsBought)
  {
    if ps != [] {
      SameSums(ps[1..]);
    }
  }

  lemma PartOf(before: real, after: real)
    requires before != 0.0
    ensures Gold.ChangePct(before, after) / 100.0 * before == after - before
  {
    assert (after - before) / before * before == after - before;
  }

  /**
   * A point of the gold overlay: what the purchases up to the day cost; their grams at the last price of the day or
   * before it; the change from the value before, and the gain on the cost, in percent, where there is something to compare.
   */
  lemma PointShowsTheGold(txns: seq<Gold.Purchase>, prices: seq<Gold.Price>, d: int, previous: Option<real>)
    requires Gold.Valued(txns, prices, d)
    ensures var point, bought := Gold.PointAt(txns, prices, d, previous), Filter(txns, BoughtBy(d));
            && point.invested == Sum(bought, MoneyPaid)
            && (forall i :: LastPriceBy(prices, d, i) ==> point.current == Sum(bought, GramsBought) * prices[i].perGram)
            && (point.pnlPct.Some? <==> point.invested != 0.0)
            && (point.invested != 0.0 ==> point.pnlPct.value / 100.0 * point.invested == point.current - point.invested)
            && (previous.Some? && previous.value != 0.0 ==>
                  point.volatilityPct / 100.0 * previous.value == point.current - previous.value)
            && (previous.None? || previous.value == 0.0 ==> point.volatilityPct == 0.0)
  {
    hide Filter, Sum, LastPriceBy;
    var point, bought := Gold.PointAt(txns, prices, d, previous), Filter(txns, BoughtBy(d));
    forall p: Gold.Purchase
      ensures UpTo(Gold.PurchaseDay, d)(p) == BoughtBy(d)(p)
    {
      assert Gold.PurchaseDay(p) == p.day;
    }
    FilterCongruence(txns, UpTo(Gold.PurchaseDay, d), BoughtBy(d));
    SameSums(bought);
    PriceIsTheLast(prices, d);
    if point.invested != 0.0 {
      PartOf(point.invested, point.current);
    }
    if previous.Some? && previous.value != 0.0 {
      PartOf(previous.value, point.current);
    }
  }
}
