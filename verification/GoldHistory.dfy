/** The physical-gold overlay of the History tab: two pointers over the row dates (services/gold_history.go). */
module GoldHistory {
  import opened Sequences
  import opened Money
  import opened Tallies
  import opened DividendHistory

  datatype Purchase = Purchase(day: int, paid: real, grams: real)

  datatype Price = Price(day: int, perGram: real)

  datatype GoldPoint = GoldPoint(invested: real, current: real, volatilityPct: real, pnlPct: Option<real>)

  function PurchaseDay(p: Purchase): int { p.day }
  function PriceDay(p: Price): int { p.day }
  function Paid(p: Purchase): real { p.paid }
  function Grams(p: Purchase): real { p.grams }

  // ----- the position on a day, by filtering -----

  function InvestedAt(txns: seq<Purchase>, d: int): real {
    Sum(Filter(txns, UpTo(PurchaseDay, d)), Paid)
  }

  function GramsAt(txns: seq<Purchase>, d: int): real {
    Sum(Filter(txns, UpTo(PurchaseDay, d)), Grams)
  }

  function LastPrice(prices: seq<Price>): Option<real> {
    if prices == [] then None else Some(prices[|prices| - 1].perGram)
  }

  /** The nearest earlier price. */
  function PriceAt(prices: seq<Price>, d: int): Option<real> {
    LastPrice(Filter(prices, UpTo(PriceDay, d)))
  }

  predicate Valued(txns: seq<Purchase>, prices: seq<Price>, d: int) {
    (GramsAt(txns, d) != 0.0 || InvestedAt(txns, d) != 0.0) && PriceAt(prices, d).Some?
  }

  function ValueAt(txns: seq<Purchase>, prices: seq<Price>, d: int): real
    requires Valued(txns, prices, d)
  {
    Worth(GramsAt(txns, d), PriceAt(prices, d).value)
  }

  function ChangePct(before: real, after: real): real
    requires before != 0.0
  {
    (after - before) / before * 100.0
  }

  /** The figures of a valued day, given the value of the valued row before it. */
  function PointAt(txns: seq<Purchase>, prices: seq<Price>, d: int, previous: Option<real>): GoldPoint
    requires Valued(txns, prices, d)
  {
    var invested, current := InvestedAt(txns, d), ValueAt(txns, prices, d);
    GoldPoint(invested, current,
              if previous.Some? && previous.value != 0.0 then ChangePct(previous.value, current) else 0.0,
              if invested != 0.0 then Some(ChangePct(invested, current)) else None)
  }

  /** The value at the last valued date of a list. */
  function PreviousValue(txns: seq<Purchase>, prices: seq<Price>, dates: seq<int>): Option<real> {
    if dates == [] then None
    else if Valued(txns, prices, dates[|dates| - 1]) then Some(ValueAt(txns, prices, dates[|dates| - 1]))
    else PreviousValue(txns, prices, dates[..|dates| - 1])
  }

  function OverlayOf(txns: seq<Purchase>, prices: seq<Price>, dates: seq<int>): map<int, GoldPoint> {
    if dates == [] then map[]
    else
      var before, d := dates[..|dates| - 1], dates[|dates| - 1];
      var points := OverlayOf(txns, prices, before);
      if Valued(txns, prices, d) then points[d := PointAt(txns, prices, d, PreviousValue(txns, prices, before))] else points
  }

  // ----- goldInvestedOn: the double loop, in any order -----

  lemma PaidOneMore(txns: seq<Purchase>, j: nat, d: int)
    requires j < |txns|
    ensures InvestedAt(txns[..j + 1], d) == InvestedAt(txns[..j], d) + (if txns[j].day <= d then txns[j].paid else 0.0)
  {
    assert txns[..j + 1] == txns[..j] + [txns[j]];
    FilterConcat(txns[..j], [txns[j]], UpTo(PurchaseDay, d));
    SumConcat(Filter(txns[..j], UpTo(PurchaseDay, d)), Filter([txns[j]], UpTo(PurchaseDay, d)), Paid);
    assert [txns[j]][1..] == [];
  }

  method GoldInvestedOn(txns: seq<Purchase>, days: seq<int>) returns (invested: seq<real>)
    ensures |invested| == |days|
    ensures forall i :: 0 <= i < |days| ==> invested[i] == InvestedAt(txns, days[i])
  {
    invested := [];
    while |invested| < |days|
      invariant |invested| <= |days|
      invariant forall i :: 0 <= i < |invested| ==> invested[i] == InvestedAt(txns, days[i])
    {
      var d := days[|invested|];
      var sum, j := 0.0, 0;
      while j < |txns|
        invariant 0 <= j <= |txns| && sum == InvestedAt(txns[..j], d)
      {
        PaidOneMore(txns, j, d);
        if txns[j].day <= d {
          sum := sum + txns[j].paid;
        }
        j := j + 1;
      }
      assert txns[..j] == txns;
      invested := invested + [sum];
    }
  }

  // ----- goldOverlay: the walk -----

  /** Moves the purchase pointer past day d. */
  method Buy(txns: seq<Purchase>, d: int, ti0: nat, invested0: real, grams0: real)
      returns (ti: nat, invested: real, grams: real)
    requires InDayOrder(txns, PurchaseDay) && ti0 <= |txns| && forall j :: 0 <= j < ti0 ==> txns[j].day <= d
    requires invested0 == Sum(txns[..ti0], Paid) && grams0 == Sum(txns[..ti0], Grams)
    ensures WalkedTo(txns, PurchaseDay, d, ti) && invested == Sum(txns[..ti], Paid) && grams == Sum(txns[..ti], Grams)
    ensures invested == InvestedAt(txns, d) && grams == GramsAt(txns, d)
  {
    ti, invested, grams := ti0, invested0, grams0;
    while ti < |txns| && txns[ti].day <= d
      invariant ti <= |txns| && forall j :: 0 <= j < ti ==> txns[j].day <= d
      invariant invested == Sum(txns[..ti], Paid) && grams == Sum(txns[..ti], Grams)
    {
      assert txns[..ti + 1] == txns[..ti] + [txns[ti]];
      SumConcat(txns[..ti], [txns[ti]], Paid);
      SumConcat(txns[..ti], [txns[ti]], Grams);
      SumOne(txns[ti], Paid);
      SumOne(txns[ti], Grams);
      invested, grams := invested + txns[ti].paid, grams + txns[ti].grams;
      ti := ti + 1;
    }
    WalkedPrefix(txns, PurchaseDay, d, ti);
  }

  /** Moves the price pointer past day d. */
  method Quote(prices: seq<Price>, d: int, pi0: nat, price0: Option<real>) returns (pi: nat, price: Option<real>)
    requires InDayOrder(prices, PriceDay) && pi0 <= |prices| && forall j :: 0 <= j < pi0 ==> prices[j].day <= d
    requires price0 == LastPrice(prices[..pi0])
    ensures WalkedTo(prices, PriceDay, d, pi) && price == LastPrice(prices[..pi]) && price == PriceAt(prices, d)
  {
    pi, price := pi0, price0;
    while pi < |prices| && prices[pi].day <= d
      invariant pi <= |prices| && (forall j :: 0 <= j < pi ==> prices[j].day <= d) && price == LastPrice(prices[..pi])
    {
      price := Some(prices[pi].perGram);
      pi := pi + 1;
    }
    WalkedPrefix(prices, PriceDay, d, pi);
  }

  /** The tail of the loop body: skips a day without position or price. */
  method PointFor(txns: seq<Purchase>, prices: seq<Price>, d: int, invested: real, grams: real, price: Option<real>,
      previous: Option<real>) returns (point: Option<GoldPoint>)
    requires invested == InvestedAt(txns, d) && grams == GramsAt(txns, d) && price == PriceAt(prices, d)
    ensures point.Some? <==> Valued(txns, prices, d)
    ensures point.Some? ==> point.value == PointAt(txns, prices, d, previous)
  {
    if (grams == 0.0 && invested == 0.0) || price.None? {
      return None;
    }
    var p := GoldPoint(invested, Worth(grams, price.value), 0.0, None);
    if previous.Some? && previous.value != 0.0 {
      p := p.(volatilityPct := ChangePct(previous.value, p.current));
    }
    if invested != 0.0 {
      p := p.(pnlPct := Some(ChangePct(invested, p.current)));
    }
    point := Some(p);
  }

  /** goldOverlay: the pointer walk computes the filtered figures of every date, chained in order. */
  method GoldOverlay(txns: seq<Purchase>, prices: seq<Price>, dates: seq<int>) returns (out: map<int, GoldPoint>)
    requires InDayOrder(txns, PurchaseDay) && InDayOrder(prices, PriceDay) && Ascending(dates)
    ensures out == OverlayOf(txns, prices, dates)
  {
    out := map[];
    var ti: nat, pi: nat := 0, 0;
    var invested, grams := 0.0, 0.0;
    var price, previous := None, None;
    var k: nat := 0;
    while k < |dates|
      invariant k <= |dates| && ti <= |txns| && pi <= |prices|
      invariant forall j :: 0 <= j < ti && k < |dates| ==> txns[j].day <= dates[k]
      invariant forall j :: 0 <= j < pi && k < |dates| ==> prices[j].day <= dates[k]
      invariant invested == Sum(txns[..ti], Paid) && grams == Sum(txns[..ti], Grams) && price == LastPrice(prices[..pi])
      invariant previous == PreviousValue(txns, prices, dates[..k]) && out == OverlayOf(txns, prices, dates[..k])
    {
      var d := dates[k];
      ti, invested, grams := Buy(txns, d, ti, invested, grams);
      pi, price := Quote(prices, d, pi, price);
      var point := PointFor(txns, prices, d, invested, grams, price, previous);
      assert dates[..k + 1][..k] == dates[..k];
      if point.Some? {
        out := out[d := point.value];
        previous := Some(point.value.current);
      }
      k := k + 1;
    }
    assert dates[..k] == dates;
  }

  /** HistoryOverlay: the dates in order, and only the prices up to the last of them. */
  method HistoryOverlay(txns: seq<Purchase>, prices: seq<Price>, days: seq<int>) returns (out: map<int, GoldPoint>)
    requires InDayOrder(txns, PurchaseDay) && InDayOrder(prices, PriceDay)
    ensures out == OverlayOf(txns, prices, SortDays(days))
  {
    if |days| == 0 {
      return map[];
    }
    hide OverlayOf, SortDays, Filter;
    var dates := SortDays(days);
    SortDaysSorts(days);
    if |txns| == 0 {
      NoPurchasesNoOverlay(prices, dates);
      return map[];
    }
    assert |multiset(dates)| == |multiset(days)|;
    var last := dates[|dates| - 1];
    var known := Filter(prices, UpTo(PriceDay, last));
    FilterKeepsOrder(prices, last);
    out := GoldOverlay(txns, known, dates);
    LaterPricesAreNotNeeded(txns, prices, dates, last);
  }

  lemma {:induction false} NoPurchasesNoOverlay(prices: seq<Price>, dates: seq<int>)
    ensures OverlayOf([], prices, dates) == map[]
  {
    if dates != [] {
      NoPurchasesNoOverlay(prices, dates[..|dates| - 1]);
    }
  }

  lemma {:induction false} FilterKeepsOrder(prices: seq<Price>, d: int)
    requires InDayOrder(prices, PriceDay)
    ensures InDayOrder(Filter(prices, UpTo(PriceDay, d)), PriceDay)
  {
    if prices != [] {
      FilterKeepsOrder(prices[1..], d);
      FilterMembers(prices[1..], UpTo(PriceDay, d));
      var rest := Filter(prices[1..], UpTo(PriceDay, d));
      forall j | 0 <= j < |rest|
        ensures PriceDay(prices[0]) <= PriceDay(rest[j])
      {
        assert rest[j] in rest;
      }
    }
  }

  lemma WindowPrice(prices: seq<Price>, d: int, last: int)
    requires d <= last
    ensures PriceAt(Filter(prices, UpTo(PriceDay, last)), d) == PriceAt(prices, d)
  {
    FilterTwice(prices, UpTo(PriceDay, last), UpTo(PriceDay, d));
    FilterCongruence(prices, Both(UpTo(PriceDay, last), UpTo(PriceDay, d)), UpTo(PriceDay, d));
  }

  lemma {:induction false} LaterPricesAreNotNeeded(txns: seq<Purchase>, prices: seq<Price>, dates: seq<int>, last: int)
    requires forall d :: d in dates ==> d <= last
    ensures OverlayOf(txns, Filter(prices, UpTo(PriceDay, last)), dates) == OverlayOf(txns, prices, dates)
    ensures PreviousValue(txns, Filter(prices, UpTo(PriceDay, last)), dates) == PreviousValue(txns, prices, dates)
  {
    if dates != [] {
      var before := dates[..|dates| - 1];
      assert forall d :: d in before ==> d in dates;
      assert dates[|dates| - 1] in dates;
      LaterPricesAreNotNeeded(txns, prices, before, last);
      WindowPrice(prices, dates[|dates| - 1], last);
    }
  }

  // ----- laws of the overlay -----

  /** A date has a point exactly when it is listed and can be valued; its invested figure is goldInvestedOn's. */
  lemma {:induction false} PointsAreTheInvestedFigures(txns: seq<Purchase>, prices: seq<Price>, dates: seq<int>, d: int)
    ensures d in OverlayOf(txns, prices, dates) <==> d in dates && Valued(txns, prices, d)
    ensures d in OverlayOf(txns, prices, dates) ==>
              var point := OverlayOf(txns, prices, dates)[d];
              point.invested == InvestedAt(txns, d) && point.current == ValueAt(txns, prices, d)
  {
    if dates != [] {
      PointsAreTheInvestedFigures(txns, prices, dates[..|dates| - 1], d);
      assert dates == dates[..|dates| - 1] + [dates[|dates| - 1]];
    }
  }

  /** The growth the volatilities of a list of dates describe. */
  function Growth(txns: seq<Purchase>, prices: seq<Price>, dates: seq<int>): real {
    if dates == [] then 1.0
    else if Valued(txns, prices, dates[|dates| - 1])
    then Grown(Growth(txns, prices, dates[..|dates| - 1]),
               PointAt(txns, prices, dates[|dates| - 1], PreviousValue(txns, prices, dates[..|dates| - 1])).volatilityPct)
    else Growth(txns, prices, dates[..|dates| - 1])
  }

  function Grown(growth: real, pct: real): real {
    growth * (1.0 + pct / 100.0)
  }

  function FirstValue(txns: seq<Purchase>, prices: seq<Price>, dates: seq<int>): Option<real> {
    if dates == [] then None
    else if Valued(txns, prices, dates[0]) then Some(ValueAt(txns, prices, dates[0]))
    else FirstValue(txns, prices, dates[1..])
  }

  lemma ChangeGrows(first: real, growth: real, before: real, after: real)
    requires before != 0.0 && first * growth == before
    ensures first * Grown(growth, ChangePct(before, after)) == after
  {
    var ratio := (after - before) / before;
    assert ChangePct(before, after) / 100.0 == ratio;
    assert before * ratio == after - before;
    assert first * (growth * (1.0 + ratio)) == before * (1.0 + ratio);
  }

  lemma {:induction false} FirstValueOneMore(txns: seq<Purchase>, prices: seq<Price>, dates: seq<int>, d: int)
    ensures FirstValue(txns, prices, dates + [d]) ==
              if FirstValue(txns, prices, dates).Some? then FirstValue(txns, prices, dates)
              else if Valued(txns, prices, d) then Some(ValueAt(txns, prices, d)) else None
  {
    if dates == [] {
      assert [d][1..] == [];
    } else {
      FirstValueOneMore(txns, prices, dates[1..], d);
      assert (dates + [d])[1..] == dates[1..] + [d];
    }
  }

  /** From the first valued date, the growth described leads to the last value. */
  predicate Compounds(first: Option<real>, growth: real, last: Option<real>) {
    if first.None? then last.None? && growth == 1.0
    else last.Some? && last.value != 0.0 && first.value * growth == last.value
  }

  lemma CompoundsOneMore(txns: seq<Purchase>, prices: seq<Price>, d: int, first: Option<real>, growth: real, last: Option<real>)
    requires Compounds(first, growth, last) && Valued(txns, prices, d) && ValueAt(txns, prices, d) != 0.0
    ensures Compounds(if first.Some? then first else Some(ValueAt(txns, prices, d)),
                      Grown(growth, PointAt(txns, prices, d, last).volatilityPct), Some(ValueAt(txns, prices, d)))
  {
    if first.Some? {
      ChangeGrows(first.value, growth, last.value, ValueAt(txns, prices, d));
    } else {
      assert Grown(growth, 0.0) == 1.0;
    }
  }

  /**
   * The volatilities chain across the rows that have a point, and only those: compounded from the
   * first valued date they give the value at the last one.
   */
  lemma {:induction false} VolatilityCompounds(txns: seq<Purchase>, prices: seq<Price>, dates: seq<int>)
    requires forall d :: d in dates && Valued(txns, prices, d) ==> ValueAt(txns, prices, d) != 0.0
    ensures Compounds(FirstValue(txns, prices, dates), Growth(txns, prices, dates), PreviousValue(txns, prices, dates))
    decreases |dates|
  {
    if dates != [] {
      var before, d := dates[..|dates| - 1], dates[|dates| - 1];
      assert dates == before + [d];
      VolatilityCompounds(txns, prices, before);
      FirstValueOneMore(txns, prices, before, d);
      if Valued(txns, prices, d) {
        CompoundsOneMore(txns, prices, d, FirstValue(txns, prices, before), Growth(txns, prices, before),
                         PreviousValue(txns, prices, before));
      }
    }
  }

  /** With each date listed once, the point shown for a date is the one chained to the dates before it. */
  lemma {:induction false} PointIsChained(txns: seq<Purchase>, prices: seq<Price>, dates: seq<int>, k: nat)
    requires k < |dates| && Valued(txns, prices, dates[k]) && forall j :: k < j < |dates| ==> dates[j] != dates[k]
    ensures dates[k] in OverlayOf(txns, prices, dates)
    ensures OverlayOf(txns, prices, dates)[dates[k]]
         == PointAt(txns, prices, dates[k], PreviousValue(txns, prices, dates[..k]))
  {
    var before := dates[..|dates| - 1];
    if k < |before| {
      PointIsChained(txns, prices, before, k);
      assert before[..k] == dates[..k];
    }
  }
}
