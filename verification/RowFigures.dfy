/** The figures a History row shows, read off quotes, stored closes, positions and typed amounts (snapshot.go, history.go). */
module RowFigures {
  import opened Sequences
  import opened Money
  import opened Ledger
  import opened AsOfReplay
  import opened Book
  import opened Snapshots
  import opened RowMachine
  import opened Heal
  import opened HistoryLaws

  // ----- money as it is shown -----

  /** The exact value rounded to a whole number of cents. */
  predicate ToTheCent(shown: real, exact: real) {
    WholeCents(shown) && -0.005 <= shown - exact <= 0.005
  }

  lemma RoundedToTheCent(x: real)
    ensures ToTheCent(RoundCents(x), x)
  {
    CentsAreWhole(AmountCents(x));
  }

  lemma {:induction false} SumOfCents(lines: seq<Line>, f: Line -> real)
    requires forall ln :: ln in lines ==> WholeCents(f(ln))
    ensures WholeCents(Sum(lines, f))
  {
    if lines != [] {
      hide WholeCents;
      SumOfCents(lines[1..], f);
      assert lines[0] in lines;
      WholePlusWhole(f(lines[0]), Sum(lines[1..], f));
    }
  }

  // ----- the stored close of a symbol -----

  /** The last line of the symbol. */
  ghost predicate LastOf(lines: seq<Line>, symbol: string, i: int) {
    && 0 <= i < |lines| && lines[i].symbol == symbol
    && forall j :: i < j < |lines| ==> lines[j].symbol != symbol
  }

  ghost predicate NoLine(lines: seq<Line>, symbol: string) {
    forall ln :: ln in lines ==> ln.symbol != symbol
  }

  lemma {:induction false} PriorIsTheLast(lines: seq<Line>, symbol: string)
    ensures forall i :: LastOf(lines, symbol, i) ==> PriorFor(lines, symbol) == Some(lines[i])
    ensures PriorFor(lines, symbol).None? <==> NoLine(lines, symbol)
  {
    if lines != [] {
      var n := |lines| - 1;
      var init := lines[..n];
      PriorIsTheLast(init, symbol);
      assert lines == init + [lines[n]];
      forall i | LastOf(lines, symbol, i)
        ensures PriorFor(lines, symbol) == Some(lines[i])
      {
        if i < n {
          assert lines[n].symbol != symbol && LastOf(init, symbol, i);
        }
      }
    }
  }

  // ----- which bucket a holding belongs to -----

  /** The same letters, each in either case. */
  predicate Spells(s: string, word: string) {
    && |s| == |word|
    && forall i :: 0 <= i < |s| ==> s[i] == word[i] || (s[i] in "eurin" && s[i] - 'a' + 'A' == word[i])
  }

  /** INR, EUR, or blank for INR. */
  predicate BelongsTo(h: Holding, currency: string) {
    (currency == "INR" && (h.currency == "" || Spells(h.currency, "INR"))) || (currency == "EUR" && Spells(h.currency, "EUR"))
  }

  lemma SpellsIsUpper(s: string, word: string)
    requires word == "INR" || word == "EUR"
    ensures Spells(s, word) <==> Upper(s) == word
  {
    if Upper(s) == word {
      forall i | 0 <= i < |s|
        ensures s[i] == word[i] || (s[i] in "eurin" && s[i] - 'a' + 'A' == word[i])
      {
        assert Upper(s)[i] == word[i];
      }
    }
  }

  lemma BelongsToItsCurrency(h: Holding, currency: string)
    ensures CurrencyOf(h) == Some(currency) <==> BelongsTo(h, currency)
  {
    SpellsIsUpper(h.currency, "INR");
    SpellsIsUpper(h.currency, "EUR");
  }

  predicate TrackedIn(h: Holding) {
    BelongsTo(h, "INR") || BelongsTo(h, "EUR")
  }

  function TrackedBy(b: Book): nat -> bool {
    hid => hid in b.holdings && TrackedIn(b.holdings[hid])
  }

  // ----- built rows -----

  /** What the market says of a symbol: a positive quote, or nothing. */
  predicate Quoted(quotes: Quotes, symbol: string, price: real) {
    symbol in quotes && quotes[symbol] == Some(price) && price > 0.0
  }

  /** The price of the line: the close last carried for its symbol, with its day; else today's quote; else nothing. */
  ghost predicate PricedBy(ln: Line, carried: seq<Line>, quotes: Quotes, day: int) {
    && (forall i :: LastOf(carried, ln.symbol, i) ==>
          ln.closePrice == carried[i].closePrice && ln.priceDay == carried[i].priceDay)
    && (NoLine(carried, ln.symbol) ==>
          && ln.priceDay == Some(day)
          && (forall price :: Quoted(quotes, ln.symbol, price) ==> ln.closePrice == price)
          && ((forall price :: !Quoted(quotes, ln.symbol, price)) ==> ln.closePrice == 0.0))
  }

  /** The line shows the holding at a position: its cost and its worth at the close, each to the cent. */
  predicate ShowsPosition(ln: Line, h: Holding, p: Position) {
    && ln.symbol == h.symbol && ln.script == h.script && BelongsTo(h, ln.currency)
    && ln.quantity == p.stocksOwned && ln.avgCost == p.avgCost
    && ToTheCent(ln.invested, p.stocksOwned * p.avgCost)
    && ToTheCent(ln.current, if ln.closePrice > 0.0 then p.stocksOwned * ln.closePrice else 0.0)
  }

  lemma BuiltLineShows(h: Holding, carried: seq<Line>, quotes: Quotes, day: int)
    ensures var line := BuiltLine(h, PriorFor(carried, h.symbol), quotes, day);
            && (line.Some? <==> TrackedIn(h))
            && (line.Some? ==> ShowsPosition(line.value, h, h.position) && PricedBy(line.value, carried, quotes, day))
  {
    hide PriorFor, CurrencyOf, BelongsTo, PriceFor, PricedBy, WholeCents, RoundCents;
    BelongsToItsCurrency(h, "INR");
    BelongsToItsCurrency(h, "EUR");
    TrackedCurrency(h);
    var line := BuiltLine(h, PriorFor(carried, h.symbol), quotes, day);
    if line.Some? {
      BelongsToItsCurrency(h, line.value.currency);
      LineIsRounded(line.value, h.position);
      PriceIsPriced(line.value, h, carried, quotes, day);
    }
  }

  lemma LineIsRounded(ln: Line, p: Position)
    ensures ln.invested == RoundCents(Worth(p.stocksOwned, p.avgCost)) ==> ToTheCent(ln.invested, p.stocksOwned * p.avgCost)
    ensures ln.current == RoundCents(Worth(p.stocksOwned, ln.closePrice)) ==>
              ToTheCent(ln.current, p.stocksOwned * ln.closePrice)
    ensures ln.current == RoundCents(0.0) ==> ToTheCent(ln.current, 0.0)
  {
    RoundedToTheCent(Worth(p.stocksOwned, p.avgCost));
    RoundedToTheCent(Worth(p.stocksOwned, ln.closePrice));
    RoundedToTheCent(0.0);
  }

  lemma PriceIsPriced(ln: Line, h: Holding, carried: seq<Line>, quotes: Quotes, day: int)
    requires ln.symbol == h.symbol && (ln.closePrice, ln.priceDay) == PriceFor(h, PriorFor(carried, h.symbol), quotes, day)
    ensures PricedBy(ln, carried, quotes, day)
  {
    PriorIsTheLast(carried, h.symbol);
    LastLineExists(carried, h.symbol);
    if h.symbol in quotes && quotes[h.symbol].Some? && quotes[h.symbol].value > 0.0 {
      assert Quoted(quotes, h.symbol, quotes[h.symbol].value);
    }
  }

  lemma TrackedCurrency(h: Holding)
    ensures CurrencyOf(h).Some? ==> CurrencyOf(h).value == "INR" || CurrencyOf(h).value == "EUR"
  {
  }

  lemma {:induction false} LastLineExists(lines: seq<Line>, symbol: string)
    ensures NoLine(lines, symbol) || exists i :: LastOf(lines, symbol, i)
  {
    if lines != [] {
      var n := |lines| - 1;
      LastLineExists(lines[..n], symbol);
      assert lines == lines[..n] + [lines[n]];
      if lines[n].symbol == symbol {
        assert LastOf(lines, symbol, n);
      } else if !NoLine(lines[..n], symbol) {
        var i :| LastOf(lines[..n], symbol, i);
        assert LastOf(lines, symbol, i);
      }
    }
  }

  /** One line for each tracked holding, in listing order. */
  lemma {:induction false} BuiltLinesShow(b: Book, listed: seq<nat>, carried: seq<Line>, quotes: Quotes, day: int)
    requires Listed(b, listed)
    ensures var lines, tracked := BuiltLines(b, listed, carried, quotes, day), Filter(listed, TrackedBy(b));
            && |lines| == |tracked|
            && forall j :: 0 <= j < |lines| ==>
                 && tracked[j] in b.holdings
                 && var h := b.holdings[tracked[j]];
                    BuiltLine(h, PriorFor(carried, h.symbol), quotes, day) == Some(lines[j])
  {
    hide BuiltLine, PriorFor, TrackedIn;
    if listed != [] {
      BuiltLinesShow(b, listed[1..], carried, quotes, day);
      BuiltLineShows(b.holdings[listed[0]], carried, quotes, day);
    }
  }

  /** Buckets for INR and EUR and no other; each is the cron's, and holds exactly the sums of its currency's lines. */
  predicate Sums(buckets: map<string, Bucket>, lines: seq<Line>) {
    buckets.Keys == {"INR", "EUR"} && forall c :: c in buckets ==> SumsOf(buckets[c], lines, c)
  }

  predicate SumsOf(bucket: Bucket, lines: seq<Line>, c: string) {
    && bucket.source == Cron && bucket.anchorInvested == None && bucket.anchorCurrent == None
    && bucket.invested == Sum(Filter(lines, LinesIn(c)), CostShown) && bucket.current == Sum(Filter(lines, LinesIn(c)), WorthShown)
  }

  function LinesIn(c: string): Line -> bool {
    (ln: Line) => ln.currency == c
  }

  function CostShown(ln: Line): real { ln.invested }

  function WorthShown(ln: Line): real { ln.current }

  predicate Summable(ln: Line) {
    WholeCents(ln.invested) && WholeCents(ln.current) && (ln.currency == "INR" || ln.currency == "EUR")
  }

  lemma BucketsAreTheSums(lines: seq<Line>)
    requires forall ln :: ln in lines ==> Summable(ln)
    ensures Sums(BucketsOf(lines), lines)
  {
    hide WholeCents, Round2, Filter;
    forall c | c in BucketsOf(lines)
      ensures SumsOf(BucketsOf(lines)[c], lines, c)
    {
      var own := Filter(lines, InCurrency(c));
      FilterCongruence(lines, InCurrency(c), LinesIn(c));
      FilterMembers(lines, InCurrency(c));
      SumCongruence(own, InvestedOf, CostShown);
      SumCongruence(own, CurrentOf, WorthShown);
      SumOfCents(own, CostShown);
      SumOfCents(own, WorthShown);
      WholeCentsStand(Sum(own, CostShown));
      WholeCentsStand(Sum(own, WorthShown));
    }
  }

  /**
   * The row BuildSnapshot stores, in terms of the stored positions, the quotes and the carried lines alone: one line for
   * each listed holding of a tracked currency, in order, at its stored position and its price; and each bucket the exact
   * sum of its lines. A holding without a carried close and without a positive quote is worth nothing.
   */
  lemma BuiltRowShowsTheMarket(b: Book, listed: seq<nat>, carried: seq<Line>, quotes: Quotes, day: int)
    requires Listed(b, listed)
    ensures var lines, tracked := BuiltLines(b, listed, carried, quotes, day), Filter(listed, TrackedBy(b));
            && |lines| == |tracked|
            && (forall j :: 0 <= j < |lines| ==>
                  && tracked[j] in b.holdings
                  && ShowsPosition(lines[j], b.holdings[tracked[j]], b.holdings[tracked[j]].position)
                  && PricedBy(lines[j], carried, quotes, day))
            && Sums(BucketsOf(lines), lines)
  {
    hide BuiltLine, BuiltLines, PriorFor, PricedBy, ShowsPosition, TrackedIn, BucketsOf, Sums;
    var lines, tracked := BuiltLines(b, listed, carried, quotes, day), Filter(listed, TrackedBy(b));
    BuiltLinesShow(b, listed, carried, quotes, day);
    forall j | 0 <= j < |lines|
      ensures ShowsPosition(lines[j], b.holdings[tracked[j]], b.holdings[tracked[j]].position)
      ensures PricedBy(lines[j], carried, quotes, day)
    {
      BuiltLineShows(b.holdings[tracked[j]], carried, quotes, day);
    }
    forall ln | ln in lines
      ensures Summable(ln)
    {
      var j :| 0 <= j < |lines| && lines[j] == ln;
      ShownIsSummable(ln, b.holdings[tracked[j]], b.holdings[tracked[j]].position);
    }
    BucketsAreTheSums(lines);
  }

  lemma ShownIsSummable(ln: Line, h: Holding, p: Position)
    requires ShowsPosition(ln, h, p)
    ensures Summable(ln)
  {
  }

  // ----- healed rows -----

  /** A healed line keeps the close stored last for its symbol, with its day; without one it stands at cost, undated. */
  ghost predicate KeepsClose(ln: Line, prior: seq<Line>) {
    && (forall i :: LastOf(prior, ln.symbol, i) ==> ln.closePrice == prior[i].closePrice && ln.priceDay == prior[i].priceDay)
    && (NoLine(prior, ln.symbol) ==> ln.closePrice == ln.avgCost && ln.priceDay == None)
  }

  /** A line healed at a close of any sign, unlike a built one, is worth quantity times close. */
  predicate ShowsHealed(ln: Line, h: Holding, p: Position) {
    && ln.symbol == h.symbol && ln.script == h.script && BelongsTo(h, ln.currency)
    && ln.quantity == p.stocksOwned && ln.avgCost == p.avgCost
    && ToTheCent(ln.invested, p.stocksOwned * p.avgCost)
    && ToTheCent(ln.current, p.stocksOwned * ln.closePrice)
  }

  /** Shown in a healed row: tracked, and held at the end of the day or listed before. */
  ghost predicate ShownAgain(h: Holding, p: Position, prior: seq<Line>) {
    TrackedIn(h) && (p.stocksOwned != 0.0 || !NoLine(prior, h.symbol))
  }

  lemma HealedLineShows(h: Holding, p: Position, prior: seq<Line>)
    ensures var line := HealedLine(h, p, PriorFor(prior, h.symbol));
            && (line.Some? <==> ShownAgain(h, p, prior))
            && (line.Some? ==> ShowsHealed(line.value, h, p) && KeepsClose(line.value, prior))
  {
    hide PriorFor, CurrencyOf, BelongsTo, WholeCents, RoundCents, NoLine, LastOf;
    BelongsToItsCurrency(h, "INR");
    BelongsToItsCurrency(h, "EUR");
    TrackedCurrency(h);
    PriorIsTheLast(prior, h.symbol);
    LastLineExists(prior, h.symbol);
    var line := HealedLine(h, p, PriorFor(prior, h.symbol));
    if line.Some? {
      BelongsToItsCurrency(h, line.value.currency);
      LineIsRounded(line.value, p);
    }
  }

  /** Where the ledger alone puts a holding at the end of a day. */
  function PlaceOn(b: Book, hid: nat, day: int): Position {
    Replay(Filter(LedgerOf(b.txns, hid), InEffectAt(EndOf(day)))).position
  }

  lemma LineIsFromThePlace(b: Book, hid: nat, prior: seq<Line>, day: int)
    requires hid in b.holdings
    ensures LineAt(b, hid, prior, day)
         == HealedLine(b.holdings[hid], PlaceOn(b, hid, day), PriorFor(prior, b.holdings[hid].symbol))
  {
  }

  lemma HealedIsSummable(ln: Line, h: Holding, p: Position)
    requires ShowsHealed(ln, h, p)
    ensures Summable(ln)
  {
  }

  function ShownOn(b: Book, prior: seq<Line>, day: int): nat -> bool {
    hid => hid in b.holdings && TrackedIn(b.holdings[hid])
           && (PlaceOn(b, hid, day).stocksOwned != 0.0 || PriorFor(prior, b.holdings[hid].symbol).Some?)
  }

  lemma {:induction false} HealedLinesShow(b: Book, listed: seq<nat>, prior: seq<Line>, day: int)
    requires Listed(b, listed)
    ensures var lines, shown := LinesAsOf(b, listed, prior, day), Filter(listed, ShownOn(b, prior, day));
            && |lines| == |shown|
            && forall j :: 0 <= j < |lines| ==> shown[j] in b.holdings && LineAt(b, shown[j], prior, day) == Some(lines[j])
  {
    hide LineAt, PriorFor, TrackedIn, PlaceOn;
    if listed != [] {
      HealedLinesShow(b, listed[1..], prior, day);
      var h := b.holdings[listed[0]];
      HealedLineShows(h, PlaceOn(b, listed[0], day), prior);
      PriorIsTheLast(prior, h.symbol);
      LineIsFromThePlace(b, listed[0], prior, day);
    }
  }

  /**
   * A healed row, in terms of the ledger, the stored closes and the row it replaces: the tracked holdings that held shares
   * at the end of the day, or had a line, each where its ledger put it that day and at the close stored for its symbol.
   * Overridden buckets stand as typed; the others are the exact sums of the new lines. A row without lines is left alone.
   */
  lemma HealedRowShowsTheLedger(b: Book, listed: seq<nat>, row: Row, day: int)
    requires Listed(b, listed)
    ensures row.lines.None? ==> HealedRow(b, listed, row, day) == row
    ensures row.lines.Some? ==>
              var healed, prior := HealedRow(b, listed, row, day), row.lines.value;
              && healed.lines.Some?
              && (var lines, shown := healed.lines.value, Filter(listed, ShownOn(b, prior, day));
                  && |lines| == |shown|
                  && (forall j :: 0 <= j < |lines| ==>
                        && shown[j] in b.holdings && ShowsHealed(lines[j], b.holdings[shown[j]], PlaceOn(b, shown[j], day))
                        && KeepsClose(lines[j], prior))
                  && HealsBuckets(row.buckets, healed.buckets, lines))
  {
    hide LineAt, LinesAsOf, PriorFor, KeepsClose, ShowsHealed, TrackedIn, PlaceOn, BucketsOf, HealsBuckets, ShownOn;
    if row.lines.Some? {
      var prior := row.lines.value;
      var lines, shown := LinesAsOf(b, listed, prior, day), Filter(listed, ShownOn(b, prior, day));
      HealedLinesShow(b, listed, prior, day);
      forall j | 0 <= j < |lines|
        ensures ShowsHealed(lines[j], b.holdings[shown[j]], PlaceOn(b, shown[j], day)) && KeepsClose(lines[j], prior)
        ensures Summable(lines[j])
      {
        HealedLineShows(b.holdings[shown[j]], PlaceOn(b, shown[j], day), prior);
        LineIsFromThePlace(b, shown[j], prior, day);
        HealedIsSummable(lines[j], b.holdings[shown[j]], PlaceOn(b, shown[j], day));
      }
      BucketsAreTheSums(lines);
      MergedBuckets(row.buckets, lines);
    }
  }

  /** Overridden buckets stand; INR and EUR are otherwise the sums of the lines; there is no other bucket. */
  ghost predicate HealsBuckets(before: map<string, Bucket>, after: map<string, Bucket>, lines: seq<Line>) {
    && (forall c :: c in before && before[c].source == Manual ==> c in after && after[c] == before[c])
    && (forall c :: c in after && !(c in before && before[c].source == Manual) ==>
          (c == "INR" || c == "EUR") && SumsOf(after[c], lines, c))
    && "INR" in after && "EUR" in after
  }

  lemma MergedBuckets(before: map<string, Bucket>, lines: seq<Line>)
    requires Sums(BucketsOf(lines), lines)
    ensures HealsBuckets(before, Merged(before, BucketsOf(lines)), lines)
  {
    hide BucketsOf, SumsOf;
  }

  // ----- typed rows -----

  /** The bucket is the user's: the amounts typed for its currency. */
  predicate ShowsTyped(buckets: map<string, Bucket>, c: string, typed: Typed) {
    && c in buckets && buckets[c].source == Manual && buckets[c].writeCurrency == c
    && buckets[c].invested == typed.invested && buckets[c].current == typed.current
  }

  /** A row added by hand shows what was typed, and nothing else. */
  lemma AddedRowShowsTheTyped(regions: map<string, Typed>)
    ensures var row := AddedRow(regions);
            && row.lines == None && row.buckets.Keys == regions.Keys
            && forall c :: c in regions ==>
                 && ShowsTyped(row.buckets, c, regions[c])
                 && row.buckets[c].anchorInvested == None && row.buckets[c].anchorCurrent == None
  {
  }

  /** An override shows what was typed for its currencies; the lines and every other bucket stay. */
  lemma PatchedRowShowsTheTyped(row: Row, regions: map<string, Typed>)
    ensures var after := PatchedRow(row, regions);
            && after.lines == row.lines && after.buckets.Keys == row.buckets.Keys + regions.Keys
            && (forall c :: c in regions ==> ShowsTyped(after.buckets, c, regions[c]))
            && (forall c :: c in row.buckets && c !in regions ==> after.buckets[c] == row.buckets[c])
  {
  }
}
