/** When healing is stable, when it is needed, and how far it must reach. */
module HistoryLaws {
  import opened Sequences
  import opened Money
  import opened Ledger
  import opened AsOfReplay
  import opened EmptyOpenings
  import opened Book
  import opened Snapshots
  import opened RowMachine
  import opened Heal

  ghost predicate Listed(b: Book, listed: seq<nat>) {
    forall hid :: hid in listed ==> hid in b.holdings
  }

  /** Held in a currency the snapshot tracks. */
  predicate Tracked(b: Book, hid: nat)
    requires hid in b.holdings
  {
    CurrencyOf(b.holdings[hid]).Some?
  }

  function SymbolOf(b: Book, hid: nat): string
    requires hid in b.holdings
  {
    b.holdings[hid].symbol
  }

  // ----- lines and the closes they leave behind -----

  lemma {:induction false} PriorIsALine(lines: seq<Line>, s: string)
    ensures PriorFor(lines, s).Some? ==> PriorFor(lines, s).value in lines && PriorFor(lines, s).value.symbol == s
    ensures PriorFor(lines, s).None? ==> forall ln :: ln in lines ==> ln.symbol != s
  {
    if lines != [] {
      PriorIsALine(lines[..|lines| - 1], s);
      assert lines == lines[..|lines| - 1] + [lines[|lines| - 1]];
    }
  }

  lemma {:induction false} LinesComeFromHoldings(b: Book, listed: seq<nat>, prior: seq<Line>, day: int)
    requires Listed(b, listed)
    ensures forall ln :: ln in LinesAsOf(b, listed, prior, day) <==>
              exists hid :: hid in listed && LineAt(b, hid, prior, day) == Some(ln)
  {
    if listed != [] {
      LinesComeFromHoldings(b, listed[1..], prior, day);
      assert listed == [listed[0]] + listed[1..];
    }
  }

  lemma {:induction false} LinesCongruence(b: Book, listed: seq<nat>, prior: seq<Line>, again: seq<Line>, day: int)
    requires Listed(b, listed)
    requires forall hid :: hid in listed ==> LineAt(b, hid, prior, day) == LineAt(b, hid, again, day)
    ensures LinesAsOf(b, listed, prior, day) == LinesAsOf(b, listed, again, day)
  {
    if listed != [] {
      LinesCongruence(b, listed[1..], prior, again, day);
    }
  }

  /** More holdings with a line mean more lines; as many lines mean the same line for each holding. */
  lemma {:induction false} LinesDetermineHoldings(b: Book, listed: seq<nat>, prior: seq<Line>, again: seq<Line>, day: int)
    requires Listed(b, listed)
    requires forall hid :: hid in listed && LineAt(b, hid, prior, day).Some? ==> LineAt(b, hid, again, day).Some?
    ensures |LinesAsOf(b, listed, prior, day)| <= |LinesAsOf(b, listed, again, day)|
    ensures LinesAsOf(b, listed, prior, day) == LinesAsOf(b, listed, again, day) ==>
              forall hid :: hid in listed ==> LineAt(b, hid, prior, day) == LineAt(b, hid, again, day)
  {
    if listed != [] {
      LinesDetermineHoldings(b, listed[1..], prior, again, day);
      var x, y := LineAt(b, listed[0], prior, day), LineAt(b, listed[0], again, day);
      var xs, ys := LinesAsOf(b, listed[1..], prior, day), LinesAsOf(b, listed[1..], again, day);
      if LinesAsOf(b, listed, prior, day) == LinesAsOf(b, listed, again, day) {
        assert |OneLine(x)| + |xs| == |OneLine(y)| + |ys|;
        assert |OneLine(x)| == |OneLine(y)|;
        assert (OneLine(x) + xs)[|OneLine(x)|..] == xs && (OneLine(y) + ys)[|OneLine(y)|..] == ys;
        if x.Some? {
          assert (OneLine(x) + xs)[0] == x.value && (OneLine(y) + ys)[0] == y.value;
        }
      }
    }
  }

  // ----- healing twice -----

  /** Tracked holdings that share a symbol without a stored close are all flat, or all held at one average cost. */
  ghost predicate SharedSymbolsAgree(b: Book, listed: seq<nat>, prior: seq<Line>, day: int)
    requires Listed(b, listed)
  {
    forall x, y | x in listed && y in listed && Tracked(b, x) && Tracked(b, y)
                  && SymbolOf(b, x) == SymbolOf(b, y) && PriorFor(prior, SymbolOf(b, x)).None? ::
      Agree(AsOfPosition(b.txns, x, day), AsOfPosition(b.txns, y, day))
  }

  predicate Agree(p: Position, q: Position) {
    (p.stocksOwned == 0.0 <==> q.stocksOwned == 0.0) && (p.stocksOwned != 0.0 ==> p.avgCost == q.avgCost)
  }

  /** What the first heal leaves as the close of a symbol. */
  lemma CloseAfterHeal(b: Book, listed: seq<nat>, prior: seq<Line>, day: int, s: string) returns (from: nat)
    requires Listed(b, listed)
    ensures var close := PriorFor(LinesAsOf(b, listed, prior, day), s);
            && (close.Some? ==> from in listed && SymbolOf(b, from) == s && LineAt(b, from, prior, day) == close)
            && (close.None? ==> forall hid :: hid in listed && SymbolOf(b, hid) == s ==> LineAt(b, hid, prior, day).None?)
  {
    var lines := LinesAsOf(b, listed, prior, day);
    var close := PriorFor(lines, s);
    LinesComeFromHoldings(b, listed, prior, day);
    forall hid | hid in listed && SymbolOf(b, hid) == s && LineAt(b, hid, prior, day).Some?
      ensures exists ln :: ln in lines && ln.symbol == s
    {
      assert LineAt(b, hid, prior, day).value in lines;
    }
    PriorIsALine(lines, s);
    from := 0;
    if close.Some? {
      from :| from in listed && LineAt(b, from, prior, day) == Some(close.value);
    }
  }

  lemma SecondLineStands(b: Book, listed: seq<nat>, prior: seq<Line>, day: int, hid: nat)
    requires Listed(b, listed) && hid in listed && SharedSymbolsAgree(b, listed, prior, day)
    ensures LineAt(b, hid, LinesAsOf(b, listed, prior, day), day) == LineAt(b, hid, prior, day)
  {
    var from := CloseAfterHeal(b, listed, prior, day, SymbolOf(b, hid));
  }

  lemma LinesGrow(b: Book, listed: seq<nat>, prior: seq<Line>, day: int, hid: nat)
    requires Listed(b, listed) && hid in listed && LineAt(b, hid, prior, day).Some?
    ensures LineAt(b, hid, LinesAsOf(b, listed, prior, day), day).Some?
  {
    var from := CloseAfterHeal(b, listed, prior, day, SymbolOf(b, hid));
  }

  lemma StableLinesAgree(b: Book, listed: seq<nat>, prior: seq<Line>, day: int, x: nat, y: nat)
    requires Listed(b, listed) && x in listed && y in listed && Tracked(b, x) && Tracked(b, y)
    requires SymbolOf(b, x) == SymbolOf(b, y) && PriorFor(prior, SymbolOf(b, x)).None?
    requires var lines := LinesAsOf(b, listed, prior, day);
             LineAt(b, x, lines, day) == LineAt(b, x, prior, day) && LineAt(b, y, lines, day) == LineAt(b, y, prior, day)
    ensures Agree(AsOfPosition(b.txns, x, day), AsOfPosition(b.txns, y, day))
  {
    var from := CloseAfterHeal(b, listed, prior, day, SymbolOf(b, x));
  }

  lemma LinesStableIffSharedSymbolsAgree(b: Book, listed: seq<nat>, prior: seq<Line>, day: int)
    requires Listed(b, listed)
    ensures var lines := LinesAsOf(b, listed, prior, day);
            LinesAsOf(b, listed, lines, day) == lines <==> SharedSymbolsAgree(b, listed, prior, day)
  {
    var lines := LinesAsOf(b, listed, prior, day);
    if SharedSymbolsAgree(b, listed, prior, day) {
      forall hid | hid in listed {
        SecondLineStands(b, listed, prior, day, hid);
      }
      LinesCongruence(b, listed, prior, lines, day);
    }
    if LinesAsOf(b, listed, lines, day) == lines {
      forall hid | hid in listed && LineAt(b, hid, prior, day).Some? {
        LinesGrow(b, listed, prior, day, hid);
      }
      LinesDetermineHoldings(b, listed, prior, lines, day);
      forall x, y | x in listed && y in listed && Tracked(b, x) && Tracked(b, y)
        && SymbolOf(b, x) == SymbolOf(b, y) && PriorFor(prior, SymbolOf(b, x)).None?
        ensures Agree(AsOfPosition(b.txns, x, day), AsOfPosition(b.txns, y, day))
      {
        StableLinesAgree(b, listed, prior, day, x, y);
      }
    }
  }

  /**
   * Healing twice is healing once exactly when the row stores no lines, or every symbol without
   * a stored close is shared only by holdings that agree on their as-of position's cost.
   */
  lemma HealTwiceIsHealOnce(b: Book, listed: seq<nat>, row: Row, day: int)
    requires Listed(b, listed)
    ensures var once := HealedRow(b, listed, row, day);
            (HealedRow(b, listed, once, day) == once) ==
            (row.lines.None? || SharedSymbolsAgree(b, listed, row.lines.value, day))
  {
    if row.lines.Some? {
      var lines := LinesAsOf(b, listed, row.lines.value, day);
      LinesStableIffSharedSymbolsAgree(b, listed, row.lines.value, day);
      SecondCronWins(Some(row), lines, lines);
    }
  }

  ghost predicate SymbolsDistinct(b: Book, listed: seq<nat>)
    requires Listed(b, listed)
  {
    forall x, y :: x in listed && y in listed && SymbolOf(b, x) == SymbolOf(b, y) ==> x == y
  }

  /** With distinct symbols healing is idempotent; a row without lines is untouched by the first heal already. */
  lemma HealIsIdempotent(b: Book, listed: seq<nat>, row: Row, day: int)
    requires Listed(b, listed) && SymbolsDistinct(b, listed)
    ensures HealedRow(b, listed, HealedRow(b, listed, row, day), day) == HealedRow(b, listed, row, day)
    ensures row.lines.None? ==> HealedRow(b, listed, row, day) == row
  {
    HealTwiceIsHealOnce(b, listed, row, day);
  }

  // ----- healing a row just built -----

  /** No event of the listed holdings is dated, and no opening declared, after the day. */
  ghost predicate NothingAfter(b: Book, listed: seq<nat>, day: int) {
    forall t :: t in b.txns && t.holding in listed ==> InEffect(t, EndOf(day))
  }

  lemma PositionIsCurrent(b: Book, listed: seq<nat>, hid: nat, day: int)
    requires Projected(b) && Listed(b, listed) && hid in listed && NothingAfter(b, listed, day)
    ensures AsOfPosition(b.txns, hid, day) == b.holdings[hid].position
  {
    var ledger := LedgerOf(b.txns, hid);
    FilterMembers(b.txns, OfHolding(hid));
    FilterAll(ledger, InEffectAt(EndOf(day)));
    assert ProjectedFor(b.txns, hid, b.holdings[hid]);
  }

  function BuiltAt(b: Book, hid: nat, carried: seq<Line>, quotes: Quotes, day: int): Option<Line>
    requires hid in b.holdings
  {
    BuiltLine(b.holdings[hid], PriorFor(carried, SymbolOf(b, hid)), quotes, day)
  }

  lemma {:induction false} BuiltComeFromHoldings(b: Book, listed: seq<nat>, carried: seq<Line>, quotes: Quotes, day: int)
    requires Listed(b, listed)
    ensures forall ln :: ln in BuiltLines(b, listed, carried, quotes, day) <==>
              exists hid :: hid in listed && BuiltAt(b, hid, carried, quotes, day) == Some(ln)
  {
    hide BuiltLine;
    if listed != [] {
      BuiltComeFromHoldings(b, listed[1..], carried, quotes, day);
      assert listed == [listed[0]] + listed[1..];
      assert BuiltLines(b, listed, carried, quotes, day)
        == OneLine(BuiltAt(b, listed[0], carried, quotes, day)) + BuiltLines(b, listed[1..], carried, quotes, day);
    }
  }

  /** Lists that have lines for the same holdings are equal exactly when the lines are. */
  lemma {:induction false} BuiltMatchHealedIff(b: Book, listed: seq<nat>, carried: seq<Line>, quotes: Quotes,
      prior: seq<Line>, day: int)
    requires Listed(b, listed)
    requires forall hid :: hid in listed ==> LineAt(b, hid, prior, day).Some? == BuiltAt(b, hid, carried, quotes, day).Some?
    ensures LinesAsOf(b, listed, prior, day) == BuiltLines(b, listed, carried, quotes, day)
       <==> forall hid :: hid in listed ==> LineAt(b, hid, prior, day) == BuiltAt(b, hid, carried, quotes, day)
  {
    hide LineAt, BuiltLine;
    if listed != [] {
      BuiltMatchHealedIff(b, listed[1..], carried, quotes, prior, day);
      var x, y := LineAt(b, listed[0], prior, day), BuiltAt(b, listed[0], carried, quotes, day);
      HeadAndTail(x, LinesAsOf(b, listed[1..], prior, day), y, BuiltLines(b, listed[1..], carried, quotes, day));
      assert listed == [listed[0]] + listed[1..];
      assert BuiltLines(b, listed, carried, quotes, day) == OneLine(y) + BuiltLines(b, listed[1..], carried, quotes, day);
    }
  }

  lemma HeadAndTail(x: Option<Line>, xs: seq<Line>, y: Option<Line>, ys: seq<Line>)
    requires x.Some? == y.Some?
    ensures OneLine(x) + xs == OneLine(y) + ys <==> x == y && xs == ys
  {
    if OneLine(x) + xs == OneLine(y) + ys {
      assert (OneLine(x) + xs)[|OneLine(x)|..] == xs && (OneLine(y) + ys)[|OneLine(y)|..] == ys;
      if x.Some? {
        assert (OneLine(x) + xs)[0] == x.value && (OneLine(y) + ys)[0] == y.value;
      }
    }
  }

  /** The price a built line stores depends on its symbol alone. */
  lemma BuiltCloseIsThePrice(b: Book, listed: seq<nat>, carried: seq<Line>, quotes: Quotes, day: int, hid: nat)
    requires Listed(b, listed) && hid in listed && Tracked(b, hid)
    ensures var close := PriorFor(BuiltLines(b, listed, carried, quotes, day), SymbolOf(b, hid));
            close.Some? && (close.value.closePrice, close.value.priceDay)
                             == PriceFor(b.holdings[hid], PriorFor(carried, SymbolOf(b, hid)), quotes, day)
  {
    hide BuiltLines, PriorFor, CurrencyOf;
    var lines := BuiltLines(b, listed, carried, quotes, day);
    BuiltComeFromHoldings(b, listed, carried, quotes, day);
    assert BuiltAt(b, hid, carried, quotes, day).value in lines;
    PriorIsALine(lines, SymbolOf(b, hid));
    var close := PriorFor(lines, SymbolOf(b, hid)).value;
    var from :| from in listed && BuiltAt(b, from, carried, quotes, day) == Some(close);
  }

  lemma PriceIsNotNegative(h: Holding, carried: seq<Line>, quotes: Quotes, day: int)
    requires forall ln :: ln in carried ==> ln.closePrice >= 0.0
    ensures PriceFor(h, PriorFor(carried, h.symbol), quotes, day).0 >= 0.0
  {
    PriorIsALine(carried, h.symbol);
  }

  lemma SamePriceLineIff(h: Holding, p: Position, prior: Line, carried: Option<Line>, quotes: Quotes, day: int)
    requires CurrencyOf(h).Some?
    requires (prior.closePrice, prior.priceDay) == PriceFor(h, carried, quotes, day) && prior.closePrice >= 0.0
    ensures HealedLine(h, p, Some(prior)) == BuiltLine(h, carried, quotes, day) <==> SamePlace(p, h.position)
  {
    assert Worth(h.position.stocksOwned, 0.0) == 0.0;
  }

  lemma BuiltLineStandsIff(b: Book, listed: seq<nat>, carried: seq<Line>, quotes: Quotes, day: int, hid: nat)
    requires Listed(b, listed) && hid in listed && forall ln :: ln in carried ==> ln.closePrice >= 0.0
    ensures var healed := LineAt(b, hid, BuiltLines(b, listed, carried, quotes, day), day);
            var built := BuiltAt(b, hid, carried, quotes, day);
            && healed.Some? == built.Some?
            && (healed == built <==> Tracked(b, hid) ==> SamePlace(AsOfPosition(b.txns, hid, day), b.holdings[hid].position))
  {
    hide AsOfPosition, BuiltLines;
    if Tracked(b, hid) {
      var h, s := b.holdings[hid], SymbolOf(b, hid);
      BuiltCloseIsThePrice(b, listed, carried, quotes, day, hid);
      PriceIsNotNegative(h, carried, quotes, day);
      SamePriceLineIff(h, AsOfPosition(b.txns, hid, day), PriorFor(BuiltLines(b, listed, carried, quotes, day), s).value,
                       PriorFor(carried, s), quotes, day);
    }
  }

  /** Every tracked holding stands at the end of the day where it is stored now. */
  ghost predicate PlacesCurrent(b: Book, listed: seq<nat>, day: int)
    requires Listed(b, listed)
  {
    forall hid :: hid in listed && Tracked(b, hid) ==> SamePlace(AsOfPosition(b.txns, hid, day), b.holdings[hid].position)
  }

  lemma NothingAfterIsCurrent(b: Book, listed: seq<nat>, day: int)
    requires Projected(b) && Listed(b, listed) && NothingAfter(b, listed, day)
    ensures PlacesCurrent(b, listed, day)
  {
    hide AsOfPosition;
    forall hid | hid in listed {
      PositionIsCurrent(b, listed, hid, day);
    }
  }

  /**
   * Healing the row a build has just stored, for whatever day, is the identity exactly when every tracked holding
   * stands at the end of that day where it is stored now: the build values the stored positions. (No carried close
   * is negative.) Shared symbols do no harm here: one symbol, one price.
   */
  lemma HealAfterBuildIsIdentityIff(b: Book, listed: seq<nat>, carried: seq<Line>, quotes: Quotes, day: int,
      existing: Option<Row>, built: Row)
    requires Listed(b, listed) && forall ln :: ln in carried ==> ln.closePrice >= 0.0
    requires built == CronRow(BuiltLines(b, listed, carried, quotes, day))
    ensures HealedRow(b, listed, Upserted(existing, built), day) == Upserted(existing, built) <==> PlacesCurrent(b, listed, day)
  {
    hide LineAt, BuiltLines, BuiltLine, AsOfPosition, SamePlace, BucketsOf;
    var lines := BuiltLines(b, listed, carried, quotes, day);
    forall hid | hid in listed {
      BuiltLineStandsIff(b, listed, carried, quotes, day, hid);
    }
    BuiltMatchHealedIff(b, listed, carried, quotes, lines, day);
    SecondCronWins(existing, lines, lines);
  }
}
