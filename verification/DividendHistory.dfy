/** The dividend overlay of the History tab: one shared pointer over all row dates (services/dividend_history.go). */
module DividendHistory {
  import opened Sequences
  import opened Money
  import opened Ledger
  import opened Tallies

  datatype Point = Point(toDate: real, onDay: real)

  /** The same symbol can be held in two currencies. */
  datatype StockKey = StockKey(currency: string, symbol: string)

  datatype DividendDay = DividendDay(byCurrency: map<string, Point>, byStock: map<StockKey, real>)

  function CurrencyKey(t: Txn): string { t.currency }

  /** A dividend of an unknown holding has the empty symbol. */
  function StockOf(symbols: map<nat, string>): Txn -> StockKey {
    (t: Txn) => StockKey(t.currency, if t.holding in symbols then symbols[t.holding] else "")
  }

  // ----- what the overlay means -----

  function Received(dividends: seq<Txn>, d: int): seq<Txn> {
    Filter(dividends, UpTo(DayOfTxn, d))
  }

  function ReceivedOn(dividends: seq<Txn>, d: int): seq<Txn> {
    Filter(dividends, On(DayOfTxn, d))
  }

  function ToDateCents(dividends: seq<Txn>, d: int, c: string): int {
    CentsFor(Received(dividends, d), CurrencyKey, c)
  }

  function OnDayCents(dividends: seq<Txn>, d: int, c: string): int {
    CentsFor(ReceivedOn(dividends, d), CurrencyKey, c)
  }

  ghost predicate CurrenciesDescribed(points: map<string, Point>, dividends: seq<Txn>, d: int, once: bool) {
    && (forall c :: c in points <==> exists t :: t in Received(dividends, d) && CurrencyKey(t) == c)
    && (forall c :: c in points ==>
          points[c] == Point(CentsToMoney(ToDateCents(dividends, d, c)),
                             if once then CentsToMoney(OnDayCents(dividends, d, c)) else 0.0))
  }

  ghost predicate StocksDescribed(stocks: map<StockKey, real>, dividends: seq<Txn>, symbols: map<nat, string>, d: int) {
    && (forall k :: k in stocks <==> exists t :: t in Received(dividends, d) && StockOf(symbols)(t) == k)
    && (forall k :: k in stocks ==> stocks[k] == CentsToMoney(CentsFor(Received(dividends, d), StockOf(symbols), k)))
  }

  /** The overlay of day d; the money of the day itself is shown only when d is listed once. */
  ghost predicate Describes(day: DividendDay, dividends: seq<Txn>, symbols: map<nat, string>, d: int, once: bool) {
    CurrenciesDescribed(day.byCurrency, dividends, d, once) && StocksDescribed(day.byStock, dividends, symbols, d)
  }

  // ----- the walk -----

  function InsertDay(d: int, sorted: seq<int>): seq<int> {
    if sorted != [] && sorted[0] < d then [sorted[0]] + InsertDay(d, sorted[1..]) else [d] + sorted
  }

  /** slices.Sort on ISO dates. */
  function SortDays(dates: seq<int>): seq<int> {
    if dates == [] then [] else InsertDay(dates[0], SortDays(dates[1..]))
  }

  predicate Ascending(days: seq<int>) {
    forall i, j :: 0 <= i < j < |days| ==> days[i] <= days[j]
  }

  lemma {:induction false} InsertDayMembers(d: int, sorted: seq<int>)
    ensures multiset(InsertDay(d, sorted)) == multiset(sorted) + multiset{d}
  {
    if sorted != [] && sorted[0] < d {
      InsertDayMembers(d, sorted[1..]);
      assert sorted == [sorted[0]] + sorted[1..];
    }
  }

  lemma {:induction false} InsertDaySorts(d: int, sorted: seq<int>)
    requires Ascending(sorted)
    ensures Ascending(InsertDay(d, sorted))
  {
    if sorted != [] && sorted[0] < d {
      var rest := InsertDay(d, sorted[1..]);
      InsertDaySorts(d, sorted[1..]);
      InsertDayMembers(d, sorted[1..]);
      forall x | x in rest
        ensures sorted[0] <= x
      {
        assert x in multiset(rest);
        assert x == d || x in sorted[1..];
      }
      FirstAscends(sorted[0], rest);
    }
  }

  lemma FirstAscends(first: int, rest: seq<int>)
    requires Ascending(rest) && forall x :: x in rest ==> first <= x
    ensures Ascending([first] + rest)
  {
    var r := [first] + rest;
    assert forall k :: 0 < k < |r| ==> r[k] == rest[k - 1] && rest[k - 1] in rest;
  }

  lemma {:induction false} SortDaysSorts(dates: seq<int>)
    ensures Ascending(SortDays(dates)) && multiset(SortDays(dates)) == multiset(dates)
  {
    if dates != [] {
      SortDaysSorts(dates[1..]);
      InsertDaySorts(dates[0], SortDays(dates[1..]));
      InsertDayMembers(dates[0], SortDays(dates[1..]));
      assert dates == [dates[0]] + dates[1..];
    }
  }

  /** The body of the inner loop. */
  method Take(dividend: Txn, symbols: map<nat, string>, d: int,
      toDate0: map<string, int>, byStock0: map<StockKey, int>, onDay0: map<string, int>, ghost seen: seq<Txn>, ghost here: seq<Txn>)
      returns (toDate: map<string, int>, byStock: map<StockKey, int>, onDay: map<string, int>)
    requires Tallied(toDate0, seen, CurrencyKey) && Tallied(byStock0, seen, StockOf(symbols)) && Tallied(onDay0, here, CurrencyKey)
    ensures Tallied(toDate, seen + [dividend], CurrencyKey)
    ensures Tallied(byStock, seen + [dividend], StockOf(symbols))
    ensures Tallied(onDay, here + (if dividend.Day() == d then [dividend] else []), CurrencyKey)
  {
    var cents := AmountCents(dividend.amount);
    toDate := Accumulate(toDate0, dividend.currency, cents, seen, dividend, CurrencyKey);
    byStock := Accumulate(byStock0, StockOf(symbols)(dividend), cents, seen, dividend, StockOf(symbols));
    if dividend.Day() == d {
      onDay := Accumulate(onDay0, dividend.currency, cents, here, dividend, CurrencyKey);
    } else {
      onDay := onDay0;
      assert here + [] == here;
    }
  }

  /** The inner loop: moves the shared pointer past day d. */
  method Advance(dividends: seq<Txn>, symbols: map<nat, string>, d: int, from: nat,
      toDate0: map<string, int>, byStock0: map<StockKey, int>)
      returns (i: nat, toDate: map<string, int>, byStock: map<StockKey, int>, onDay: map<string, int>)
    requires from <= |dividends| && forall j :: 0 <= j < from ==> dividends[j].Day() <= d
    requires Tallied(toDate0, dividends[..from], CurrencyKey) && Tallied(byStock0, dividends[..from], StockOf(symbols))
    ensures from <= i && WalkedTo(dividends, DayOfTxn, d, i)
    ensures Tallied(toDate, dividends[..i], CurrencyKey) && Tallied(byStock, dividends[..i], StockOf(symbols))
    ensures Tallied(onDay, Filter(dividends[from..i], On(DayOfTxn, d)), CurrencyKey)
  {
    hide Tallied, Filter;
    i, toDate, byStock, onDay := from, toDate0, byStock0, map[];
    OnDayNothing(dividends, from, d);
    NothingTallied(CurrencyKey);
    while i < |dividends| && dividends[i].Day() <= d
      invariant from <= i <= |dividends|
      invariant forall j :: 0 <= j < i ==> dividends[j].Day() <= d
      invariant Tallied(toDate, dividends[..i], CurrencyKey) && Tallied(byStock, dividends[..i], StockOf(symbols))
      invariant Tallied(onDay, Filter(dividends[from..i], On(DayOfTxn, d)), CurrencyKey)
    {
      assert dividends[..i + 1] == dividends[..i] + [dividends[i]];
      OnDayOneMore(dividends, from, i, d);
      toDate, byStock, onDay := Take(dividends[i], symbols, d, toDate, byStock, onDay,
                                     dividends[..i], Filter(dividends[from..i], On(DayOfTxn, d)));
      i := i + 1;
    }
  }

  lemma OnDayNothing(dividends: seq<Txn>, from: nat, d: int)
    requires from <= |dividends|
    ensures Filter(dividends[from..from], On(DayOfTxn, d)) == []
  {
  }

  lemma OnDayOneMore(dividends: seq<Txn>, from: nat, i: nat, d: int)
    requires from <= i < |dividends|
    ensures Filter(dividends[from..i + 1], On(DayOfTxn, d))
         == Filter(dividends[from..i], On(DayOfTxn, d)) + (if dividends[i].Day() == d then [dividends[i]] else [])
  {
    assert dividends[from..i + 1] == dividends[from..i] + [dividends[i]];
    FilterConcat(dividends[from..i], [dividends[i]], On(DayOfTxn, d));
  }

  /** The two copying loops: running cents become money. */
  method DayFrom(toDate: map<string, int>, byStock: map<StockKey, int>, onDay: map<string, int>) returns (day: DividendDay)
    ensures day.byCurrency.Keys == toDate.Keys && day.byStock.Keys == byStock.Keys
    ensures forall c :: c in toDate ==>
              day.byCurrency[c] == Point(CentsToMoney(toDate[c]), CentsToMoney(if c in onDay then onDay[c] else 0))
    ensures forall k :: k in byStock ==> day.byStock[k] == CentsToMoney(byStock[k])
  {
    var points, stocks := map[], map[];
    var currencies, keys := toDate.Keys, byStock.Keys;
    while currencies != {}
      invariant currencies <= toDate.Keys && points.Keys == toDate.Keys - currencies
      invariant forall c :: c in points ==>
                  points[c] == Point(CentsToMoney(toDate[c]), CentsToMoney(if c in onDay then onDay[c] else 0))
    {
      var c :| c in currencies;
      points := points[c := Point(CentsToMoney(toDate[c]), CentsToMoney(if c in onDay then onDay[c] else 0))];
      currencies := currencies - {c};
    }
    while keys != {}
      invariant keys <= byStock.Keys && stocks.Keys == byStock.Keys - keys
      invariant forall k :: k in stocks ==> stocks[k] == CentsToMoney(byStock[k])
    {
      var k :| k in keys;
      stocks := stocks[k := CentsToMoney(byStock[k])];
      keys := keys - {k};
    }
    day := DividendDay(points, stocks);
  }

  /** Where the walk stands: past the last date handled, or at the start. */
  predicate Standing(dividends: seq<Txn>, sorted: seq<int>, k: nat, i: nat)
    requires k <= |sorted|
  {
    if k == 0 then i == 0 else WalkedTo(dividends, DayOfTxn, sorted[k - 1], i)
  }

  /** What one pass of the walk finds on day d: all of it, on the first pass; nothing, on a repeated date. */
  ghost predicate Passed(dividends: seq<Txn>, d: int, first: bool, here: seq<Txn>) {
    here == if first then ReceivedOn(dividends, d) else []
  }

  lemma NoMoney()
    ensures CentsToMoney(0) == 0.0
  {
  }

  lemma PointsDescribe(dividends: seq<Txn>, d: int, first: bool, here: seq<Txn>,
      toDate: map<string, int>, onDay: map<string, int>, points: map<string, Point>)
    requires Tallied(toDate, Received(dividends, d), CurrencyKey) && Tallied(onDay, here, CurrencyKey)
    requires Passed(dividends, d, first, here) && points.Keys == toDate.Keys
    requires forall c :: c in toDate ==>
               points[c] == Point(CentsToMoney(toDate[c]), CentsToMoney(if c in onDay then onDay[c] else 0))
    ensures CurrenciesDescribed(points, dividends, d, first)
  {
    hide Received, ReceivedOn, CentsFor, CentsToMoney;
    assert CentsToMoney(0) == 0.0 by { NoMoney(); }
    forall c | c in toDate
      ensures (if c in onDay then onDay[c] else 0) == if first then OnDayCents(dividends, d, c) else 0
    {
      if c !in onDay {
        UnseenIsZero(here, CurrencyKey, c);
      }
    }
  }

  lemma FirstPassSeesTheDay(dividends: seq<Txn>, earlier: int, d: int, from: nat, i: nat)
    requires InDayOrder(dividends, DayOfTxn) && from <= i && WalkedTo(dividends, DayOfTxn, d, i)
    requires from == 0 || (earlier < d && WalkedTo(dividends, DayOfTxn, earlier, from))
    ensures Filter(dividends[from..i], On(DayOfTxn, d)) == ReceivedOn(dividends, d)
  {
    if from == 0 {
      assert dividends == dividends[0..i] + dividends[i..];
      FilterConcat(dividends[0..i], dividends[i..], On(DayOfTxn, d));
      FilterNone(dividends[i..], On(DayOfTxn, d));
    } else {
      WalkedOn(dividends, DayOfTxn, earlier, d, from, i);
    }
  }

  /** The body of the outer loop: one date. */
  method OverlayOne(dividends: seq<Txn>, symbols: map<nat, string>, ghost sorted: seq<int>, ghost k: nat, d: int, from: nat,
      toDate0: map<string, int>, byStock0: map<StockKey, int>)
      returns (i: nat, toDate: map<string, int>, byStock: map<StockKey, int>, day: DividendDay)
    requires InDayOrder(dividends, DayOfTxn) && Ascending(sorted) && k < |sorted| && sorted[k] == d
    requires from <= |dividends| && Standing(dividends, sorted, k, from)
    requires Tallied(toDate0, dividends[..from], CurrencyKey) && Tallied(byStock0, dividends[..from], StockOf(symbols))
    ensures i <= |dividends| && WalkedTo(dividends, DayOfTxn, d, i)
    ensures Tallied(toDate, dividends[..i], CurrencyKey) && Tallied(byStock, dividends[..i], StockOf(symbols))
    ensures Describes(day, dividends, symbols, d, k == 0 || sorted[k - 1] != d)
  {
    var onDay;
    i, toDate, byStock, onDay := Advance(dividends, symbols, d, from, toDate0, byStock0);
    day := DayFrom(toDate, byStock, onDay);
    ghost var first := k == 0 || sorted[k - 1] != d;
    ghost var here := Filter(dividends[from..i], On(DayOfTxn, d));
    assert Passed(dividends, d, first, here) by {
      if first {
        FirstPassSeesTheDay(dividends, if k == 0 then d else sorted[k - 1], d, from, i);
      } else {
        assert from == i;
      }
    }
    WalkedPrefix(dividends, DayOfTxn, d, i);
    PointsDescribe(dividends, d, first, here, toDate, onDay, day.byCurrency);
  }

  /** Every listed day is described, its own money where it is listed once. */
  ghost predicate Overlaid(out: map<int, DividendDay>, dividends: seq<Txn>, symbols: map<nat, string>, dates: seq<int>) {
    && (forall d :: d in out <==> d in dates)
    && (forall d :: d in out ==> Describes(out[d], dividends, symbols, d, multiset(dates)[d] == 1))
  }

  /** DividendOverlay: every listed day carries what filtering the whole ledger gives. */
  method DividendOverlay(dividends: seq<Txn>, symbols: map<nat, string>, dates: seq<int>) returns (out: map<int, DividendDay>)
    requires InDayOrder(dividends, DayOfTxn)
    ensures Overlaid(out, dividends, symbols, dates)
  {
    hide Tallied, Describes, SortDays, Overlaid;
    var sorted := SortDays(dates);
    SortDaysSorts(dates);
    NothingTallied(CurrencyKey);
    NothingTallied(StockOf(symbols));
    NothingOverlaid(dividends, symbols);
    out := map[];
    var toDate: map<string, int>, byStock: map<StockKey, int> := map[], map[];
    var i: nat, k: nat := 0, 0;
    while k < |sorted|
      invariant k <= |sorted| && i <= |dividends| && Standing(dividends, sorted, k, i)
      invariant Tallied(toDate, dividends[..i], CurrencyKey) && Tallied(byStock, dividends[..i], StockOf(symbols))
      invariant Overlaid(out, dividends, symbols, sorted[..k])
    {
      var day;
      i, toDate, byStock, day := OverlayOne(dividends, symbols, sorted, k, sorted[k], i, toDate, byStock);
      OverlaidOneMore(out, dividends, symbols, sorted, k, day);
      out := out[sorted[k] := day];
      k := k + 1;
    }
    assert sorted[..k] == sorted;
    OverlaidInAnyOrder(out, dividends, symbols, sorted, dates);
  }

  lemma NothingOverlaid(dividends: seq<Txn>, symbols: map<nat, string>)
    ensures Overlaid(map[], dividends, symbols, [])
  {
  }

  lemma OverlaidInAnyOrder(out: map<int, DividendDay>, dividends: seq<Txn>, symbols: map<nat, string>,
      xs: seq<int>, ys: seq<int>)
    requires multiset(xs) == multiset(ys) && Overlaid(out, dividends, symbols, xs)
    ensures Overlaid(out, dividends, symbols, ys)
  {
    hide Describes;
    forall d
      ensures d in xs <==> d in ys
    {
      assert d in multiset(xs) <==> d in multiset(ys);
    }
  }

  lemma OverlaidOneMore(out: map<int, DividendDay>, dividends: seq<Txn>, symbols: map<nat, string>,
      sorted: seq<int>, k: nat, day: DividendDay)
    requires Ascending(sorted) && k < |sorted| && Overlaid(out, dividends, symbols, sorted[..k])
    requires Describes(day, dividends, symbols, sorted[k], k == 0 || sorted[k - 1] != sorted[k])
    ensures Overlaid(out[sorted[k] := day], dividends, symbols, sorted[..k + 1])
  {
    SeenBefore(sorted, k);
  }

  /** In an ascending list an earlier occurrence is the neighbour. */
  lemma SeenBefore(sorted: seq<int>, k: nat)
    requires Ascending(sorted) && k < |sorted|
    ensures (multiset(sorted[..k + 1])[sorted[k]] == 1) == (k == 0 || sorted[k - 1] != sorted[k])
    ensures forall d :: d != sorted[k] ==> multiset(sorted[..k + 1])[d] == multiset(sorted[..k])[d]
    ensures forall d :: d in sorted[..k + 1] <==> d in sorted[..k] || d == sorted[k]
  {
    var d := sorted[k];
    assert sorted[..k + 1] == sorted[..k] + [d];
    if k > 0 && sorted[k - 1] == d {
      assert d in sorted[..k];
      assert d in multiset(sorted[..k]);
    } else {
      assert d !in sorted[..k];
      assert d !in multiset(sorted[..k]);
    }
  }

  // ----- laws of the overlay -----

  /** A currency without money up to a day has none on it. */
  lemma NoneOnTheDay(dividends: seq<Txn>, d: int, c: string)
    requires forall t :: t in Received(dividends, d) ==> CurrencyKey(t) != c
    ensures OnDayCents(dividends, d, c) == 0
  {
    FilterMembers(dividends, UpTo(DayOfTxn, d));
    FilterMembers(dividends, On(DayOfTxn, d));
    UnseenIsZero(ReceivedOn(dividends, d), CurrencyKey, c);
  }

  /** The overlay shows a day's own money right in every currency exactly when the day is listed once, or saw none. */
  lemma OnDayIsRightIff(out: map<int, DividendDay>, dividends: seq<Txn>, symbols: map<nat, string>, dates: seq<int>, d: int)
    requires Overlaid(out, dividends, symbols, dates) && d in dates
    ensures d in out
    ensures (forall c :: c in out[d].byCurrency ==> out[d].byCurrency[c].onDay == CentsToMoney(OnDayCents(dividends, d, c)))
       <==> (multiset(dates)[d] == 1 || forall c :: OnDayCents(dividends, d, c) == 0)
  {
    hide StocksDescribed, OnDayCents, ToDateCents, Received;
    var points := out[d].byCurrency;
    assert CurrenciesDescribed(points, dividends, d, multiset(dates)[d] == 1);
    forall c
      ensures CentsToMoney(OnDayCents(dividends, d, c)) == 0.0 <==> OnDayCents(dividends, d, c) == 0
      ensures c !in points ==> OnDayCents(dividends, d, c) == 0
    {
      if c !in points {
        NoneOnTheDay(dividends, d, c);
      }
    }
  }

  predicate ShowsNothing(out: map<int, DividendDay>, d: int, c: string) {
    d in out && c in out[d].byCurrency && out[d].byCurrency[c].onDay == 0.0
  }

  const RUPEE := Txn(1, 1, Dividend, 0, 0.0, 1.0, 0.0, 0.0, None, "INR", 1)

  lemma RupeeReceived()
    ensures RUPEE in Received([RUPEE], 0) && OnDayCents([RUPEE], 0, "INR") == 100
  {
    assert DayOfTxn(RUPEE) == 0 && CurrencyKey(RUPEE) == "INR";
    assert On(DayOfTxn, 0)(RUPEE) && Keyed(CurrencyKey, "INR")(RUPEE);
    FilterAll([RUPEE], UpTo(DayOfTxn, 0));
    FilterAll([RUPEE], On(DayOfTxn, 0));
    FilterAll([RUPEE], Keyed(CurrencyKey, "INR"));
    CentsSurvive(100);
    assert CentsOf(RUPEE) == 100 by { assert CentsToMoney(100) == 1.0; }
    var none: seq<Txn> := [RUPEE][1..];
    assert none == [] && Total([RUPEE], CentsOf) == CentsOf(RUPEE) + Total(none, CentsOf);
    assert ReceivedOn([RUPEE], 0) == [RUPEE];
    assert OnDayCents([RUPEE], 0, "INR") == Total([RUPEE], CentsOf);
  }

  /** One rupee received on a day that is listed twice: the overlay shows nothing for the day. */
  lemma RepeatedDateLosesItsMoney(out: map<int, DividendDay>, symbols: map<nat, string>)
    requires Overlaid(out, [RUPEE], symbols, [0, 0])
    ensures ShowsNothing(out, 0, "INR") && OnDayCents([RUPEE], 0, "INR") == 100
  {
    RupeeReceived();
    assert multiset([0, 0])[0] == 2;
    assert 0 in [0, 0] && CurrencyKey(RUPEE) == "INR";
  }

  lemma CentsOfHead(dividends: seq<Txn>, keep: Txn -> bool, c: string)
    requires dividends != []
    ensures CentsFor(Filter(dividends, keep), CurrencyKey, c)
         == (if keep(dividends[0]) && dividends[0].currency == c then CentsOf(dividends[0]) else 0)
            + CentsFor(Filter(dividends[1..], keep), CurrencyKey, c)
  {
    var head := if keep(dividends[0]) then [dividends[0]] else [];
    var rest := Filter(dividends[1..], keep);
    assert Filter(dividends, keep) == head + rest;
    FilterConcat(head, rest, Keyed(CurrencyKey, c));
    TotalConcat(Filter(head, Keyed(CurrencyKey, c)), Filter(rest, Keyed(CurrencyKey, c)), CentsOf);
    assert [dividends[0]][1..] == [];
  }

  lemma NothingReceived(c: string)
    ensures forall keep: Txn -> bool :: CentsFor(Filter([], keep), CurrencyKey, c) == 0
  {
  }

  lemma {:induction false} DaySplitsCents(dividends: seq<Txn>, earlier: int, d: int, c: string)
    requires earlier < d
    requires forall t :: t in dividends && earlier < t.Day() <= d ==> t.Day() == d
    ensures ToDateCents(dividends, d, c) == ToDateCents(dividends, earlier, c) + OnDayCents(dividends, d, c)
  {
    hide Filter, CentsFor;
    if dividends == [] {
      NothingReceived(c);
    } else {
      assert forall t :: t in dividends[1..] ==> t in dividends;
      DaySplitsCents(dividends[1..], earlier, d, c);
      var t := dividends[0];
      assert t in dividends;
      assert UpTo(DayOfTxn, d)(t) == (UpTo(DayOfTxn, earlier)(t) || On(DayOfTxn, d)(t));
      assert !(UpTo(DayOfTxn, earlier)(t) && On(DayOfTxn, d)(t));
      CentsOfHead(dividends, UpTo(DayOfTxn, d), c);
      CentsOfHead(dividends, UpTo(DayOfTxn, earlier), c);
      CentsOfHead(dividends, On(DayOfTxn, d), c);
    }
  }

  /** The cents shown on the days of a list. */
  function OnDaySum(dividends: seq<Txn>, days: seq<int>, c: string): int {
    if days == [] then 0 else OnDaySum(dividends, days[..|days| - 1], c) + OnDayCents(dividends, days[|days| - 1], c)
  }

  /** When every day with a dividend has its own row, the rows' own amounts add up to the running total. */
  lemma {:induction false} OnDaysAddUpToDate(dividends: seq<Txn>, days: seq<int>, c: string)
    requires days != [] && forall i, j :: 0 <= i < j < |days| ==> days[i] < days[j]
    requires forall t :: t in dividends && t.Day() <= days[|days| - 1] ==> t.Day() in days
    ensures OnDaySum(dividends, days, c) == ToDateCents(dividends, days[|days| - 1], c)
    decreases |days|
  {
    var d, before := days[|days| - 1], days[..|days| - 1];
    if before == [] {
      var none := d - 1;
      FilterNone(dividends, UpTo(DayOfTxn, none));
      DaySplitsCents(dividends, none, d, c);
    } else {
      var earlier := before[|before| - 1];
      forall t | t in dividends && t.Day() <= d
        ensures t.Day() == d || (t.Day() in before && t.Day() <= earlier)
      {
        var k :| 0 <= k < |days| && days[k] == t.Day();
        assert k < |before| ==> before[k] == t.Day();
      }
      OnDaysAddUpToDate(dividends, before, c);
      DaySplitsCents(dividends, earlier, d, c);
    }
  }
}
