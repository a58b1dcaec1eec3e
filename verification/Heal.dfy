/** Building today's row and healing past ones (services/snapshot.go, snapshot_recompute.go). */
module Heal {
  import opened Sequences
  import opened Money
  import opened Ledger
  import opened AsOfReplay
  import opened Book
  import opened Snapshots

  /** The last line stored for a symbol: closes are looked up by symbol alone. */
  function PriorFor(lines: seq<Line>, symbol: string): Option<Line> {
    if lines == [] then None
    else if lines[|lines| - 1].symbol == symbol then Some(lines[|lines| - 1])
    else PriorFor(lines[..|lines| - 1], symbol)
  }

  function ValuedLine(h: Holding, currency: string, qty: real, avg: real, close: real, priceDay: Option<int>): Line {
    Line(h.symbol, h.script, currency, qty, avg, close, priceDay, RoundCents(Worth(qty, avg)), RoundCents(Worth(qty, close)))
  }

  /** One holding's line for a row, from its as-of position and the close already stored for its symbol. */
  function HealedLine(h: Holding, p: Position, prior: Option<Line>): Option<Line> {
    if CurrencyOf(h).None? || (p.stocksOwned == 0.0 && prior.None?) then None
    else
      var close := if prior.Some? then prior.value.closePrice else p.avgCost;
      var priceDay := if prior.Some? then prior.value.priceDay else None;
      Some(ValuedLine(h, CurrencyOf(h).value, p.stocksOwned, p.avgCost, close, priceDay))
  }

  function AsOfPosition(txns: seq<Txn>, hid: nat, day: int): Position {
    Replay(AsOf(LedgerOf(txns, hid), EndOf(day))).position
  }

  function OneLine(line: Option<Line>): seq<Line> {
    if line.Some? then [line.value] else []
  }

  function LineAt(b: Book, hid: nat, prior: seq<Line>, day: int): Option<Line>
    requires hid in b.holdings
  {
    HealedLine(b.holdings[hid], AsOfPosition(b.txns, hid, day), PriorFor(prior, b.holdings[hid].symbol))
  }

  /** linesAsOf: the holdings in their listing order. */
  function LinesAsOf(b: Book, listed: seq<nat>, prior: seq<Line>, day: int): seq<Line>
    requires forall hid :: hid in listed ==> hid in b.holdings
  {
    if listed == [] then []
    else OneLine(LineAt(b, listed[0], prior, day)) + LinesAsOf(b, listed[1..], prior, day)
  }

  function HealedRow(b: Book, listed: seq<nat>, row: Row, day: int): Row
    requires forall hid :: hid in listed ==> hid in b.holdings
  {
    match row.lines
    case None => row
    case Some(prior) =>
      var lines := LinesAsOf(b, listed, prior, day);
      Upserted(Some(row), Row(BucketsOf(lines), Some(lines)))
  }

  // ----- the recomputer as the source runs it -----

  /** The per-symbol map of stored lines: later lines overwrite earlier ones. */
  method PriorCloses(lines: seq<Line>) returns (m: map<string, Line>)
    ensures forall s :: (s in m <==> PriorFor(lines, s).Some?) && (s in m ==> PriorFor(lines, s) == Some(m[s]))
  {
    m := map[];
    var i := 0;
    while i < |lines|
      invariant 0 <= i <= |lines|
      invariant forall s :: (s in m <==> PriorFor(lines[..i], s).Some?) && (s in m ==> PriorFor(lines[..i], s) == Some(m[s]))
    {
      m := m[lines[i].symbol := lines[i]];
      assert lines[..i + 1][..i] == lines[..i];
      i := i + 1;
    }
    assert lines[..i] == lines;
  }

  /** The ledgers grouped by holding, in listing order. */
  method GroupByHolding(txns: seq<Txn>) returns (m: map<nat, seq<Txn>>)
    ensures forall hid :: LedgerOf(txns, hid) == if hid in m then m[hid] else []
  {
    m := map[];
    var i := 0;
    while i < |txns|
      invariant 0 <= i <= |txns|
      invariant forall hid :: LedgerOf(txns[..i], hid) == if hid in m then m[hid] else []
    {
      var t := txns[i];
      assert txns[..i + 1] == txns[..i] + [t];
      forall hid
        ensures LedgerOf(txns[..i + 1], hid) == LedgerOf(txns[..i], hid) + (if hid == t.holding then [t] else [])
      {
        LedgerConcat(txns[..i], [t], hid);
        LedgerOfOne(t, hid);
      }
      m := m[t.holding := (if t.holding in m then m[t.holding] else []) + [t]];
      i := i + 1;
    }
    assert txns[..i] == txns;
  }

  /** The body of linesAsOf's loop. */
  method HealHolding(h: Holding, ledger: seq<Txn>, prior: Option<Line>, day: int) returns (line: Option<Line>)
    ensures line == HealedLine(h, Replay(AsOf(ledger, EndOf(day))).position, prior)
  {
    var currency := CurrencyOf(h);
    if currency.None? {
      return None;
    }
    var kept := AsOfLedger(ledger, EndOf(day));
    var pos, oversell := RecomputePosition(kept);
    assert pos == Replay(kept).position;
    if pos.stocksOwned == 0.0 && prior.None? {
      return None;
    }
    var close, priceDay := pos.avgCost, None;
    if prior.Some? {
      close, priceDay := prior.value.closePrice, prior.value.priceDay;
    }
    line := Some(ValuedLine(h, currency.value, pos.stocksOwned, pos.avgCost, close, priceDay));
  }

  method HealListed(b: Book, hid: nat, byHolding: map<nat, seq<Txn>>, closes: map<string, Line>,
      ghost prior: seq<Line>, day: int) returns (line: Option<Line>)
    requires hid in b.holdings
    requires LedgerOf(b.txns, hid) == if hid in byHolding then byHolding[hid] else []
    requires PriorFor(prior, b.holdings[hid].symbol)
          == if b.holdings[hid].symbol in closes then Some(closes[b.holdings[hid].symbol]) else None
    ensures line == LineAt(b, hid, prior, day)
  {
    var h := b.holdings[hid];
    line := HealHolding(h, if hid in byHolding then byHolding[hid] else [],
                        if h.symbol in closes then Some(closes[h.symbol]) else None, day);
  }

  lemma LinesFrom(b: Book, listed: seq<nat>, i: nat, prior: seq<Line>, day: int)
    requires i < |listed| && forall hid :: hid in listed ==> hid in b.holdings
    ensures LinesAsOf(b, listed[..i + 1], prior, day)
         == LinesAsOf(b, listed[..i], prior, day) + OneLine(LineAt(b, listed[i], prior, day))
  {
    LinesConcat(b, listed[..i], [listed[i]], prior, day);
    assert listed[..i] + [listed[i]] == listed[..i + 1];
  }

  lemma {:induction false} LinesConcat(b: Book, xs: seq<nat>, ys: seq<nat>, prior: seq<Line>, day: int)
    requires forall hid :: hid in xs + ys ==> hid in b.holdings
    requires forall hid :: hid in xs ==> hid in b.holdings
    requires forall hid :: hid in ys ==> hid in b.holdings
    ensures LinesAsOf(b, xs + ys, prior, day) == LinesAsOf(b, xs, prior, day) + LinesAsOf(b, ys, prior, day)
  {
    hide LineAt;
    if xs == [] {
      assert xs + ys == ys;
    } else {
      assert (xs + ys)[0] == xs[0] && (xs + ys)[1..] == xs[1..] + ys;
      LinesConcat(b, xs[1..], ys, prior, day);
    }
  }

  method BuildLines(b: Book, listed: seq<nat>, byHolding: map<nat, seq<Txn>>, prior: seq<Line>, day: int)
      returns (lines: seq<Line>)
    requires forall hid :: hid in listed ==> hid in b.holdings
    requires forall hid :: LedgerOf(b.txns, hid) == if hid in byHolding then byHolding[hid] else []
    ensures lines == LinesAsOf(b, listed, prior, day)
  {
    var closes := PriorCloses(prior);
    lines := [];
    var i := 0;
    while i < |listed|
      invariant 0 <= i <= |listed|
      invariant lines == LinesAsOf(b, listed[..i], prior, day)
    {
      var line := HealListed(b, listed[i], byHolding, closes, prior, day);
      LinesFrom(b, listed, i, prior, day);
      lines := lines + OneLine(line);
      i := i + 1;
    }
    assert listed[..i] == listed;
  }

  /** The body of RecomputeFrom's loop: rows without lines are skipped. */
  method HealStored(b: Book, listed: seq<nat>, byHolding: map<nat, seq<Txn>>, snapshots: SnapshotStore, d: int)
    requires forall hid :: hid in listed ==> hid in b.holdings
    requires forall hid :: LedgerOf(b.txns, hid) == if hid in byHolding then byHolding[hid] else []
    requires d in snapshots.rows
    modifies snapshots
    ensures snapshots.rows == old(snapshots.rows)[d := HealedRow(b, listed, old(snapshots.rows)[d], d)]
  {
    hide LinesAsOf, LedgerOf;
    var row := snapshots.rows[d];
    if row.lines.Some? {
      var lines := BuildLines(b, listed, byHolding, row.lines.value, d);
      var buckets := BucketsFromLines(lines);
      assert "INR" in buckets;
      var r := snapshots.Upsert(d, Row(buckets, Some(lines)));
    }
  }

  /** RecomputeFrom: heals every line-backed row dated in [from, today]. */
  method RecomputeFrom(b: Book, listed: seq<nat>, snapshots: SnapshotStore, from: int, today: int)
    requires forall hid :: hid in listed ==> hid in b.holdings
    modifies snapshots
    ensures snapshots.rows.Keys == old(snapshots.rows).Keys
    ensures forall d :: d in old(snapshots.rows) ==>
              snapshots.rows[d] == if from <= d <= today then HealedRow(b, listed, old(snapshots.rows)[d], d)
                                   else old(snapshots.rows)[d]
  {
    hide HealedRow, LedgerOf;
    if from > today {
      return;
    }
    ghost var before := snapshots.rows;
    var byHolding := GroupByHolding(b.txns);
    var todo := set d | d in snapshots.rows.Keys && from <= d <= today;
    while todo != {}
      invariant todo <= before.Keys && snapshots.rows.Keys == before.Keys
      invariant forall d :: d in before ==>
                  snapshots.rows[d] == if from <= d <= today && d !in todo then HealedRow(b, listed, before[d], d) else before[d]
    {
      var d :| d in todo;
      HealStored(b, listed, byHolding, snapshots, d);
      todo := todo - {d};
    }
  }

  // ----- building a fresh row -----

  /** What the market answered for a symbol: None for a failed fetch. */
  type Quotes = map<string, Option<real>>

  /** priceFor: a weekend carries the stored price, otherwise the quote, worthless when missing or not positive. */
  function PriceFor(h: Holding, carried: Option<Line>, quotes: Quotes, day: int): (real, Option<int>) {
    if carried.Some? then (carried.value.closePrice, carried.value.priceDay)
    else
      var quote := if h.symbol in quotes then quotes[h.symbol] else None;
      (if quote.Some? && quote.value > 0.0 then quote.value else 0.0, Some(day))
  }

  function BuiltLine(h: Holding, carried: Option<Line>, quotes: Quotes, day: int): Option<Line> {
    if CurrencyOf(h).None? then None
    else
      var (price, priceDay) := PriceFor(h, carried, quotes, day);
      var p := h.position;
      var current := if price > 0.0 then Worth(p.stocksOwned, price) else 0.0;
      Some(Line(h.symbol, h.script, CurrencyOf(h).value, p.stocksOwned, p.avgCost, price, priceDay,
                RoundCents(Worth(p.stocksOwned, p.avgCost)), RoundCents(current)))
  }

  /** BuildSnapshot's lines; `carried` is the latest earlier row's lines on a weekend and empty otherwise. */
  function BuiltLines(b: Book, listed: seq<nat>, carried: seq<Line>, quotes: Quotes, day: int): seq<Line>
    requires forall hid :: hid in listed ==> hid in b.holdings
  {
    if listed == [] then []
    else
      var h := b.holdings[listed[0]];
      OneLine(BuiltLine(h, PriorFor(carried, h.symbol), quotes, day)) + BuiltLines(b, listed[1..], carried, quotes, day)
  }

  /** The body of BuildSnapshot's loop. */
  method BuildHolding(h: Holding, carried: Option<Line>, quotes: Quotes, day: int) returns (line: Option<Line>)
    ensures line == BuiltLine(h, carried, quotes, day)
  {
    var currency := CurrencyOf(h);
    if currency.None? {
      return None;
    }
    var invested := Worth(h.position.stocksOwned, h.position.avgCost);
    var (price, priceDay) := PriceFor(h, carried, quotes, day);
    var current := 0.0;
    if price > 0.0 {
      current := Worth(h.position.stocksOwned, price);
    }
    line := Some(Line(h.symbol, h.script, currency.value, h.position.stocksOwned, h.position.avgCost,
                      price, priceDay, RoundCents(invested), RoundCents(current)));
  }

  lemma BuiltFrom(b: Book, listed: seq<nat>, i: nat, carried: seq<Line>, quotes: Quotes, day: int)
    requires i < |listed| && forall hid :: hid in listed ==> hid in b.holdings
    ensures BuiltLines(b, listed[i..], carried, quotes, day)
         == OneLine(BuiltLine(b.holdings[listed[i]], PriorFor(carried, b.holdings[listed[i]].symbol), quotes, day))
            + BuiltLines(b, listed[i + 1..], carried, quotes, day)
  {
    assert listed[i..][1..] == listed[i + 1..];
  }

  lemma BuiltNone(b: Book, carried: seq<Line>, quotes: Quotes, day: int)
    ensures BuiltLines(b, [], carried, quotes, day) == []
  {
  }

  method BuildSnapshot(b: Book, listed: seq<nat>, carried: seq<Line>, quotes: Quotes, day: int) returns (row: Row)
    requires forall hid :: hid in listed ==> hid in b.holdings
    ensures row.lines == Some(BuiltLines(b, listed, carried, quotes, day))
    ensures row.buckets == BucketsOf(BuiltLines(b, listed, carried, quotes, day))
  {
    hide BuiltLines, BuiltLine, BucketsOf, PriorFor;
    var closes := PriorCloses(carried);
    var lines := [];
    var i := 0;
    while i < |listed|
      invariant 0 <= i <= |listed|
      invariant lines + BuiltLines(b, listed[i..], carried, quotes, day) == BuiltLines(b, listed, carried, quotes, day)
    {
      var h := b.holdings[listed[i]];
      BuiltFrom(b, listed, i, carried, quotes, day);
      var known := if h.symbol in closes then Some(closes[h.symbol]) else None;
      assert known == PriorFor(carried, h.symbol);
      var line := BuildHolding(h, known, quotes, day);
      lines := lines + OneLine(line);
      i := i + 1;
    }
    assert listed[i..] == [];
    BuiltNone(b, carried, quotes, day);
    assert lines == BuiltLines(b, listed, carried, quotes, day);
    var buckets := BucketsFromLines(lines);
    row := Row(buckets, Some(lines));
  }
}
