/** The monthly investment delta and its agreement with healed history (services/investment_delta.go). */
module InvestmentDelta {
  import opened Sequences
  import opened Money
  import opened Ledger
  import opened AsOfReplay
  import opened Book
  import opened Snapshots
  import opened Heal
  import opened HistoryLaws

  // ----- invested on a day -----

  function CostOf(p: Position): real {
    Worth(p.stocksOwned, p.avgCost)
  }

  /** What one holding has invested in currency c at the end of a day. */
  function InvestedIn(b: Book, hid: nat, c: string, day: int): real
    requires hid in b.holdings
  {
    if CurrencyOf(b.holdings[hid]) == Some(c) then CostOf(AsOfPosition(b.txns, hid, day)) else 0.0
  }

  function InvestedOn(b: Book, listed: seq<nat>, c: string, day: int): real
    requires Listed(b, listed)
  {
    if listed == [] then 0.0 else InvestedIn(b, listed[0], c, day) + InvestedOn(b, listed[1..], c, day)
  }

  /** Holdings of currency c that own shares at the end of a day. */
  function HeldIn(b: Book, listed: seq<nat>, c: string, day: int): nat
    requires Listed(b, listed)
  {
    if listed == [] then 0
    else (if CurrencyOf(b.holdings[listed[0]]) == Some(c) && AsOfPosition(b.txns, listed[0], day).stocksOwned != 0.0
          then 1 else 0) + HeldIn(b, listed[1..], c, day)
  }

  lemma {:induction false} InvestedConcat(b: Book, xs: seq<nat>, ys: seq<nat>, c: string, day: int)
    requires Listed(b, xs) && Listed(b, ys) && Listed(b, xs + ys)
    ensures InvestedOn(b, xs + ys, c, day) == InvestedOn(b, xs, c, day) + InvestedOn(b, ys, c, day)
  {
    if xs == [] {
      assert xs + ys == ys;
    } else {
      assert (xs + ys)[1..] == xs[1..] + ys;
      InvestedConcat(b, xs[1..], ys, c, day);
    }
  }

  lemma InvestedOneMore(b: Book, listed: seq<nat>, i: nat, c: string, day: int)
    requires Listed(b, listed) && i < |listed|
    ensures InvestedOn(b, listed[..i + 1], c, day) == InvestedOn(b, listed[..i], c, day) + InvestedIn(b, listed[i], c, day)
  {
    assert listed[..i + 1] == listed[..i] + [listed[i]];
    InvestedConcat(b, listed[..i], [listed[i]], c, day);
    assert [listed[i]][1..] == [];
  }

  lemma NothingInvested()
    ensures CostOf(Replay([]).position) == 0.0
  {
    assert Sort([]) == [];
    assert Run(START, []) == START;
    assert Settle(START, true) == START;
  }

  lemma NothingListed(b: Book, day: int)
    ensures forall c :: InvestedOn(b, [], c, day) == 0.0
  {
  }

  /** investedOn: one replay a holding, added up per currency; a holding without events is skipped. */
  method InvestedByCurrency(b: Book, listed: seq<nat>, ledgers: map<nat, seq<Txn>>, day: int)
      returns (invested: map<string, real>)
    requires Listed(b, listed)
    requires forall hid :: LedgerOf(b.txns, hid) == if hid in ledgers then ledgers[hid] else []
    ensures forall c :: InvestedOn(b, listed, c, day) == if c in invested then invested[c] else 0.0
  {
    hide InvestedOn, Replay, LedgerOf, CurrencyOf, AsOf;
    NothingListed(b, day);
    invested := map[];
    var i := 0;
    while i < |listed|
      invariant 0 <= i <= |listed|
      invariant forall c :: InvestedOn(b, listed[..i], c, day) == if c in invested then invested[c] else 0.0
    {
      var hid := listed[i];
      forall c {
        InvestedOneMore(b, listed, i, c, day);
      }
      var currency := CurrencyOf(b.holdings[hid]);
      if currency.Some? {
        var ledger := AsOfLedger(if hid in ledgers then ledgers[hid] else [], EndOf(day));
        if |ledger| == 0 {
          NothingInvested();
        } else {
          var position, oversell := RecomputePosition(ledger);
          assert position == AsOfPosition(b.txns, hid, day);
          var before := if currency.value in invested then invested[currency.value] else 0.0;
          invested := invested[currency.value := before + Worth(position.stocksOwned, position.avgCost)];
        }
      }
      i := i + 1;
    }
    assert listed[..i] == listed;
  }

  // ----- a healed bucket is the invested amount, to the cent -----

  function LineSum(b: Book, listed: seq<nat>, prior: seq<Line>, c: string, day: int): real
    requires Listed(b, listed)
  {
    Sum(Filter(LinesAsOf(b, listed, prior, day), InCurrency(c)), InvestedOf)
  }

  function LineShare(line: Option<Line>, c: string): real {
    if line.Some? && line.value.currency == c then line.value.invested else 0.0
  }

  lemma LineSumCons(b: Book, listed: seq<nat>, prior: seq<Line>, c: string, day: int)
    requires Listed(b, listed) && listed != []
    ensures LineSum(b, listed, prior, c, day)
      == LineShare(LineAt(b, listed[0], prior, day), c) + LineSum(b, listed[1..], prior, c, day)
  {
    var line := LineAt(b, listed[0], prior, day);
    var rest := LinesAsOf(b, listed[1..], prior, day);
    FilterConcat(OneLine(line), rest, InCurrency(c));
    SumConcat(Filter(OneLine(line), InCurrency(c)), Filter(rest, InCurrency(c)), InvestedOf);
    if line.Some? {
      assert OneLine(line)[1..] == [];
      SumOne(line.value, InvestedOf);
    }
  }

  /** One line: whole cents, and half a cent away at most; exact when no shares are held. */
  lemma LineShareIsClose(b: Book, hid: nat, prior: seq<Line>, c: string, day: int)
    requires hid in b.holdings
    ensures var share := LineShare(LineAt(b, hid, prior, day), c);
            && WholeCents(share)
            && -0.005 <= share - InvestedIn(b, hid, c, day) <= 0.005
            && (AsOfPosition(b.txns, hid, day).stocksOwned == 0.0 || CurrencyOf(b.holdings[hid]) != Some(c) ==>
                  share == InvestedIn(b, hid, c, day))
  {
    var p := AsOfPosition(b.txns, hid, day);
    CentsSurvive(0);
    CentsAreWhole(0);
    CentsAreWhole(AmountCents(CostOf(p)));
    if p.stocksOwned == 0.0 {
      assert CostOf(p) == 0.0;
      assert RoundCents(0.0) == 0.0;
    }
  }

  lemma NoLines(b: Book, prior: seq<Line>, c: string, day: int)
    ensures LineSum(b, [], prior, c, day) == 0.0 && WholeCents(0.0)
  {
    CentsAreWhole(0);
  }

  lemma {:induction false} LineSumIsClose(b: Book, listed: seq<nat>, prior: seq<Line>, c: string, day: int)
    requires Listed(b, listed)
    ensures WholeCents(LineSum(b, listed, prior, c, day))
    ensures var gap := LineSum(b, listed, prior, c, day) - InvestedOn(b, listed, c, day);
            var bound := 0.005 * HeldIn(b, listed, c, day) as real;
            -bound <= gap <= bound
  {
    hide LineSum, LineShare, InvestedIn, LineAt, WholeCents;
    if listed == [] {
      NoLines(b, prior, c, day);
    } else {
      LineSumIsClose(b, listed[1..], prior, c, day);
      LineSumCons(b, listed, prior, c, day);
      LineShareIsClose(b, listed[0], prior, c, day);
      WholePlusWhole(LineShare(LineAt(b, listed[0], prior, day), c), LineSum(b, listed[1..], prior, c, day));
    }
  }

  /** The bucket of a healed row that no override protects. */
  predicate HealedByCron(row: Row, c: string) {
    row.lines.Some? && (c == "INR" || c == "EUR") && !(c in row.buckets && row.buckets[c].source.Manual?)
  }

  /**
   * The chart's invested amount differs from the healed bucket of the same day by at most half a
   * cent for every holding that owns shares on that day: each line is rounded, the sum is not.
   */
  lemma DeltaAgreesWithHealedHistory(b: Book, listed: seq<nat>, row: Row, c: string, day: int)
    requires Listed(b, listed) && HealedByCron(row, c)
    ensures c in HealedRow(b, listed, row, day).buckets
    ensures var gap := HealedRow(b, listed, row, day).buckets[c].invested - InvestedOn(b, listed, c, day);
            var bound := 0.005 * HeldIn(b, listed, c, day) as real;
            -bound <= gap <= bound
  {
    var prior := row.lines.value;
    var lines := LinesAsOf(b, listed, prior, day);
    assert HealedRow(b, listed, row, day).buckets[c] == BucketsOf(lines)[c];
    LineSumIsClose(b, listed, prior, c, day);
    WholeCentsStand(LineSum(b, listed, prior, c, day));
  }

  // ----- the columns -----

  datatype Month = Month(month0: nat, invested: Option<real>, delta: Option<real>)

  datatype Column = Column(name: string, months: seq<Month>)

  predicate Moves(values: seq<real>, i: nat)
    requires 0 < i < |values|
  {
    RoundCents(values[i]) > 0.0 || RoundCents(values[i] - values[i - 1]) != 0.0
  }

  ghost predicate ShowsMoney(values: seq<real>) {
    exists i :: 0 < i < |values| && Moves(values, i)
  }

  method HasActivity(values: seq<real>) returns (active: bool)
    ensures active <==> ShowsMoney(values)
  {
    var i := 1;
    while i < |values|
      invariant 1 <= i && (i <= |values| || i == 1)
      invariant forall j :: 0 < j < i && j < |values| ==> !Moves(values, j)
    {
      if RoundCents(values[i]) > 0.0 || RoundCents(values[i] - values[i - 1]) != 0.0 {
        assert Moves(values, i);
        return true;
      }
      i := i + 1;
    }
    active := false;
  }

  function MonthOf(values: seq<real>, month0: nat): Month {
    if month0 + 1 < |values|
    then Month(month0, Some(RoundCents(values[month0 + 1])), Some(RoundCents(values[month0 + 1] - values[month0])))
    else Month(month0, None, None)
  }

  function ColumnOf(name: string, values: seq<real>): Column {
    Column(name, seq(12, i requires 0 <= i < 12 => MonthOf(values, i)))
  }

  method FillColumn(name: string, values: seq<real>) returns (column: Column)
    ensures column == ColumnOf(name, values)
  {
    var months := [];
    while |months| < 12
      invariant |months| <= 12
      invariant forall i :: 0 <= i < |months| ==> months[i] == MonthOf(values, i)
    {
      var month := Month(|months|, None, None);
      if |months| + 1 < |values| {
        var invested, delta := RoundCents(values[|months| + 1]), RoundCents(values[|months| + 1] - values[|months|]);
        month := month.(invested := Some(invested), delta := Some(delta));
      }
      months := months + [month];
    }
    column := Column(name, months);
  }

  const COLUMNS := ["INR", "EUR", "GOLD"]

  ghost function ColumnsOf(names: seq<string>, figures: map<string, seq<real>>): seq<Column> {
    if names == [] then []
    else if names[0] in figures && ShowsMoney(figures[names[0]])
    then [ColumnOf(names[0], figures[names[0]])] + ColumnsOf(names[1..], figures)
    else ColumnsOf(names[1..], figures)
  }

  /** deltaColumns: the active columns, in chart order. */
  method DeltaColumns(figures: map<string, seq<real>>) returns (columns: seq<Column>)
    ensures columns == ColumnsOf(COLUMNS, figures)
  {
    columns := [];
    var i := 0;
    while i < |COLUMNS|
      invariant 0 <= i <= |COLUMNS|
      invariant columns + ColumnsOf(COLUMNS[i..], figures) == ColumnsOf(COLUMNS, figures)
    {
      var name := COLUMNS[i];
      assert COLUMNS[i..][0] == name && COLUMNS[i..][1..] == COLUMNS[i + 1..];
      if name in figures {
        var active := HasActivity(figures[name]);
        if active {
          var column := FillColumn(name, figures[name]);
          columns := columns + [column];
        }
      }
      i := i + 1;
    }
    assert COLUMNS[i..] == [];
  }

  /** The sum of the first n month deltas of a column. */
  function DeltaSum(values: seq<real>, n: nat): real
    requires n <= 12
  {
    if n == 0 then 0.0
    else DeltaSum(values, n - 1) + (if MonthOf(values, n - 1).delta.Some? then MonthOf(values, n - 1).delta.value else 0.0)
  }

  /** The month deltas add up to closing less opening, to half a cent for each month shown. */
  lemma {:induction false} DeltasTelescope(values: seq<real>, n: nat)
    requires n <= 12 && n < |values|
    ensures var gap := DeltaSum(values, n) - (values[n] - values[0]);
            -0.005 * n as real <= gap <= 0.005 * n as real
  {
    if n > 0 {
      DeltasTelescope(values, n - 1);
      var rounded := RoundCents(values[n] - values[n - 1]);
      assert MonthOf(values, n - 1).delta == Some(rounded);
      assert -0.005 <= rounded - (values[n] - values[n - 1]) <= 0.005;
    }
  }

  /** A column is left out exactly when no month of it would show money or a change. */
  lemma HiddenColumnsAreBlank(name: string, values: seq<real>)
    requires |values| <= 13
    ensures !ShowsMoney(values) <==>
              forall m :: m in ColumnOf(name, values).months ==>
                (m.invested.Some? ==> m.invested.value <= 0.0) && (m.delta.Some? ==> m.delta.value == 0.0)
  {
    var months := ColumnOf(name, values).months;
    if ShowsMoney(values) {
      var i :| 0 < i < |values| && Moves(values, i);
      assert months[i - 1] == MonthOf(values, i - 1);
      assert months[i - 1] in months;
    } else {
      forall m | m in months
        ensures (m.invested.Some? ==> m.invested.value <= 0.0) && (m.delta.Some? ==> m.delta.value == 0.0)
      {
        var k :| 0 <= k < 12 && months[k] == m;
        if k + 1 < |values| {
          assert !Moves(values, k + 1);
        }
      }
    }
  }

  /** The figures of one currency: what is invested at the end of each day read. */
  function FiguresOf(b: Book, listed: seq<nat>, c: string, days: seq<int>): seq<real>
    requires Listed(b, listed)
  {
    seq(|days|, i requires 0 <= i < |days| => InvestedOn(b, listed, c, days[i]))
  }

  /**
   * Chart against history: the months shown add up to the change between the healed rows of the
   * opening day and of the closing day, to half a cent for each month and each holding held then.
   */
  lemma YearAgreesWithHealedHistory(b: Book, listed: seq<nat>, c: string, days: seq<int>, n: nat, opening: Row, closing: Row)
    requires Listed(b, listed) && n <= 12 && n < |days|
    requires HealedByCron(opening, c) && HealedByCron(closing, c)
    ensures c in HealedRow(b, listed, opening, days[0]).buckets && c in HealedRow(b, listed, closing, days[n]).buckets
    ensures var change := HealedRow(b, listed, closing, days[n]).buckets[c].invested
                          - HealedRow(b, listed, opening, days[0]).buckets[c].invested;
            var bound := 0.005 * (n + HeldIn(b, listed, c, days[0]) + HeldIn(b, listed, c, days[n])) as real;
            -bound <= DeltaSum(FiguresOf(b, listed, c, days), n) - change <= bound
  {
    DeltaAgreesWithHealedHistory(b, listed, opening, c, days[0]);
    DeltaAgreesWithHealedHistory(b, listed, closing, c, days[n]);
    DeltasTelescope(FiguresOf(b, listed, c, days), n);
  }
}
