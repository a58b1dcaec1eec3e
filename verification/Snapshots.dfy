/** Snapshot rows and their store (domain/snapshot.go, persistence/snapshots.go, services/history.go). */
module Snapshots {
  import opened Sequences
  import opened Money

  datatype Source = Cron | Manual

  /** A currency's totals; the anchors keep what the cron had written before the first override. */
  datatype Bucket = Bucket(
    invested: real, current: real, source: Source,
    anchorInvested: Option<real>, anchorCurrent: Option<real>, writeCurrency: string)

  datatype Line = Line(
    symbol: string, script: string, currency: string, quantity: real, avgCost: real,
    closePrice: real, priceDay: Option<int>, invested: real, current: real)

  /** One user's row for one day; legacy and manual rows store no lines. */
  datatype Row = Row(buckets: map<string, Bucket>, lines: Option<seq<Line>>)

  // ----- buckets from lines -----

  function InCurrency(c: string): Line -> bool {
    (ln: Line) => ln.currency == c
  }

  function InvestedOf(ln: Line): real { ln.invested }

  function CurrentOf(ln: Line): real { ln.current }

  function CurrenciesOf(lines: seq<Line>): set<string> {
    {"INR", "EUR"} + set ln | ln in lines :: ln.currency
  }

  function Unrounded(lines: seq<Line>, c: string): Bucket {
    Bucket(Sum(Filter(lines, InCurrency(c)), InvestedOf), Sum(Filter(lines, InCurrency(c)), CurrentOf),
           Cron, None, None, "")
  }

  function RoundedBucket(b: Bucket): Bucket {
    b.(invested := Round2(b.invested), current := Round2(b.current))
  }

  /** Every canonical currency has a bucket; sums are rounded once. */
  function BucketsOf(lines: seq<Line>): map<string, Bucket> {
    map c | c in CurrenciesOf(lines) :: RoundedBucket(Unrounded(lines, c))
  }

  const ZERO := Bucket(0.0, 0.0, Cron, None, None, "")

  ghost predicate Summed(buckets: map<string, Bucket>, lines: seq<Line>) {
    && buckets.Keys == CurrenciesOf(lines)
    && forall c :: c in buckets ==> buckets[c] == Unrounded(lines, c)
  }

  method AddLine(buckets: map<string, Bucket>, ln: Line, ghost lines: seq<Line>) returns (r: map<string, Bucket>)
    requires Summed(buckets, lines)
    ensures Summed(r, lines + [ln])
  {
    var rs := if ln.currency in buckets then buckets[ln.currency] else ZERO;
    if ln.currency !in buckets {
      NoLineOf(lines, ln.currency);
    }
    assert rs == Unrounded(lines, ln.currency);
    r := buckets[ln.currency := rs.(source := Cron, invested := rs.invested + ln.invested,
                                    current := rs.current + ln.current)];
    assert r.Keys == CurrenciesOf(lines + [ln]) by { CurrenciesOneMore(lines, ln); }
    forall c | c in r
      ensures r[c] == Unrounded(lines + [ln], c)
    {
      UnroundedOneMore(lines, ln, c);
    }
  }

  lemma NothingSummed()
    ensures Summed(map["INR" := ZERO, "EUR" := ZERO], [])
  {
  }

  method SumLines(lines: seq<Line>) returns (buckets: map<string, Bucket>)
    ensures Summed(buckets, lines)
  {
    hide Summed;
    buckets := map["INR" := ZERO, "EUR" := ZERO];
    NothingSummed();
    var i := 0;
    while i < |lines|
      invariant 0 <= i <= |lines|
      invariant Summed(buckets, lines[..i])
    {
      buckets := AddLine(buckets, lines[i], lines[..i]);
      assert lines[..i + 1] == lines[..i] + [lines[i]];
      i := i + 1;
    }
    assert lines[..i] == lines;
  }

  method RoundBuckets(sums: map<string, Bucket>) returns (buckets: map<string, Bucket>)
    ensures buckets == map c | c in sums :: RoundedBucket(sums[c])
  {
    buckets := sums;
    var todo := sums.Keys;
    while todo != {}
      invariant buckets.Keys == sums.Keys && todo <= sums.Keys
      invariant forall c :: c in sums ==> buckets[c] == if c in todo then sums[c] else RoundedBucket(sums[c])
    {
      var c :| c in todo;
      buckets := buckets[c := RoundedBucket(buckets[c])];
      todo := todo - {c};
    }
  }

  method BucketsFromLines(lines: seq<Line>) returns (buckets: map<string, Bucket>)
    ensures buckets == BucketsOf(lines)
  {
    var sums := SumLines(lines);
    buckets := RoundBuckets(sums);
  }

  lemma NoLineOf(lines: seq<Line>, c: string)
    requires c !in CurrenciesOf(lines)
    ensures Unrounded(lines, c) == ZERO
  {
    FilterNone(lines, InCurrency(c));
  }

  lemma FilterOneMore(lines: seq<Line>, ln: Line, c: string)
    ensures Filter(lines + [ln], InCurrency(c))
         == Filter(lines, InCurrency(c)) + (if c == ln.currency then [ln] else [])
  {
    FilterConcat(lines, [ln], InCurrency(c));
  }

  lemma UnroundedOneMore(lines: seq<Line>, ln: Line, c: string)
    ensures Unrounded(lines + [ln], c) ==
              if c != ln.currency then Unrounded(lines, c)
              else Unrounded(lines, c).(invested := Unrounded(lines, c).invested + ln.invested,
                                        current := Unrounded(lines, c).current + ln.current)
  {
    var before := Filter(lines, InCurrency(c));
    FilterOneMore(lines, ln, c);
    if c == ln.currency {
      SumConcat(before, [ln], InvestedOf);
      SumConcat(before, [ln], CurrentOf);
      SumOne(ln, InvestedOf);
      SumOne(ln, CurrentOf);
    } else {
      assert before + [] == before;
    }
  }

  lemma CurrenciesOneMore(lines: seq<Line>, ln: Line)
    ensures CurrenciesOf(lines + [ln]) == CurrenciesOf(lines) + {ln.currency}
  {
  }

  // ----- the store -----

  function ManualOf(buckets: map<string, Bucket>): map<string, Bucket> {
    map k | k in buckets && buckets[k].source.Manual? :: buckets[k]
  }

  /** The upsert merge: manual buckets stand, every other bucket is the incoming one. */
  function Merged(existing: map<string, Bucket>, incoming: map<string, Bucket>): map<string, Bucket> {
    incoming + ManualOf(existing)
  }

  function Upserted(row: Option<Row>, incoming: Row): Row {
    match row
    case None => incoming
    case Some(r) => Row(Merged(r.buckets, incoming.buckets), incoming.lines)
  }

  function AllManual(patch: map<string, Bucket>): map<string, Bucket> {
    map k | k in patch :: patch[k].(source := Manual)
  }

  function RowAt(rows: map<int, Row>, day: int): Option<Row> {
    if day in rows then Some(rows[day]) else None
  }

  datatype StoreOutcome = Stored | Rejected | Absent | CronProtected

  method KeepManual(existing: map<string, Bucket>) returns (merged: map<string, Bucket>)
    ensures merged == ManualOf(existing)
  {
    merged := map[];
    var todo := existing.Keys;
    while todo != {}
      invariant todo <= existing.Keys
      invariant forall k :: k in merged <==> k in existing && k !in todo && existing[k].source.Manual?
      invariant forall k :: k in merged ==> merged[k] == existing[k]
    {
      var k :| k in todo;
      if existing[k].source == Manual {
        merged := merged[k := existing[k]];
      }
      todo := todo - {k};
    }
  }

  method AddMissing(kept: map<string, Bucket>, incoming: map<string, Bucket>) returns (merged: map<string, Bucket>)
    ensures merged == incoming + kept
  {
    merged := kept;
    var todo := incoming.Keys;
    while todo != {}
      invariant todo <= incoming.Keys
      invariant forall k :: k in merged <==> k in kept || (k in incoming && k !in todo)
      invariant forall k :: k in merged ==> merged[k] == if k in kept then kept[k] else incoming[k]
    {
      var k :| k in todo;
      if k !in merged {
        merged := merged[k := incoming[k]];
      }
      todo := todo - {k};
    }
  }

  method MarkManual(patch: map<string, Bucket>) returns (marked: map<string, Bucket>)
    ensures marked == AllManual(patch)
  {
    marked := map[];
    var todo := patch.Keys;
    while todo != {}
      invariant todo <= patch.Keys
      invariant forall k :: k in marked <==> k in patch && k !in todo
      invariant forall k :: k in marked ==> marked[k] == patch[k].(source := Manual)
    {
      var k :| k in todo;
      marked := marked[k := patch[k].(source := Manual)];
      todo := todo - {k};
    }
  }

  class SnapshotStore {
    var rows: map<int, Row>

    method Upsert(day: int, snap: Row) returns (r: StoreOutcome)
      modifies this
      ensures r == if snap.buckets == map[] then Rejected else Stored
      ensures rows == if r == Rejected then old(rows) else old(rows)[day := Upserted(RowAt(old(rows), day), snap)]
    {
      if |snap.buckets| == 0 {
        return Rejected;
      }
      if day in rows {
        var kept := KeepManual(rows[day].buckets);
        var merged := AddMissing(kept, snap.buckets);
        rows := rows[day := Row(merged, snap.lines)];
      } else {
        rows := rows[day := snap];
      }
      r := Stored;
    }

    method PatchRegions(day: int, patch: map<string, Bucket>) returns (r: StoreOutcome)
      modifies this
      ensures r == if patch == map[] then Rejected else if day !in old(rows) then Absent else Stored
      ensures rows == if r != Stored then old(rows)
                      else old(rows)[day := Row(old(rows)[day].buckets + AllManual(patch), old(rows)[day].lines)]
    {
      if |patch| == 0 {
        return Rejected;
      }
      var marked := MarkManual(patch);
      if day !in rows {
        return Absent;
      }
      rows := rows[day := Row(rows[day].buckets + marked, rows[day].lines)];
      r := Stored;
    }

    /** Delete and ForceDelete: a row with a cron bucket goes only by force. */
    method DeleteRow(day: int, force: bool) returns (r: StoreOutcome)
      modifies this
      ensures day !in old(rows) ==> r == Absent && rows == old(rows)
      ensures day in old(rows) && !force && HasCron(old(rows)[day]) ==> r == CronProtected && rows == old(rows)
      ensures day in old(rows) && (force || !HasCron(old(rows)[day])) ==> r == Stored && rows == old(rows) - {day}
    {
      if day !in rows {
        return Absent;
      }
      if !force {
        var buckets := rows[day].buckets;
        var todo := buckets.Keys;
        while todo != {}
          invariant todo <= buckets.Keys
          invariant forall k :: k in buckets && k !in todo ==> buckets[k].source.Manual?
        {
          var k :| k in todo;
          if buckets[k].source == Cron {
            return CronProtected;
          }
          todo := todo - {k};
        }
      }
      rows := rows - {day};
      r := Stored;
    }
  }

  predicate HasCron(row: Row) {
    exists k :: k in row.buckets && row.buckets[k].source.Cron?
  }

  // ----- the history service -----

  /** What a user may type for a bucket. */
  datatype Typed = Typed(invested: real, current: real)

  datatype HistoryOutcome = Written | BadDate | BadRegions | Conflict | NoRow

  predicate ValidRegions(regions: map<string, Typed>) {
    && regions != map[]
    && forall k :: k in regions ==> k in {"INR", "EUR"} && regions[k].invested >= 0.0 && regions[k].current >= 0.0
  }

  function ManualBucket(k: string, typed: Typed): Bucket {
    Bucket(typed.invested, typed.current, Manual, None, None, k)
  }

  /** originalCronFor: the cron value at the first override, and that same value ever after. */
  function OverrideOf(k: string, typed: Typed, existing: Option<Bucket>): Bucket {
    match existing
    case None => ManualBucket(k, typed)
    case Some(b) =>
      if b.source.Cron? then ManualBucket(k, typed).(anchorInvested := Some(b.invested), anchorCurrent := Some(b.current))
      else ManualBucket(k, typed).(anchorInvested := b.anchorInvested, anchorCurrent := b.anchorCurrent)
  }

  function BucketAt(row: Row, k: string): Option<Bucket> {
    if k in row.buckets then Some(row.buckets[k]) else None
  }

  function AddedRow(regions: map<string, Typed>): Row {
    Row(map k | k in regions :: ManualBucket(k, regions[k]), None)
  }

  function Overrides(row: Row, regions: map<string, Typed>): map<string, Bucket> {
    map k | k in regions :: OverrideOf(k, regions[k], BucketAt(row, k))
  }

  function PatchedRow(row: Row, regions: map<string, Typed>): Row {
    Row(row.buckets + Overrides(row, regions), row.lines)
  }

  method BuildOverrides(row: Row, regions: map<string, Typed>) returns (patched: map<string, Bucket>)
    ensures patched == Overrides(row, regions) && AllManual(patched) == patched
  {
    patched := map[];
    var todo := regions.Keys;
    while todo != {}
      invariant todo <= regions.Keys
      invariant forall k :: k in patched <==> k in regions && k !in todo
      invariant forall k :: k in patched ==> patched[k] == OverrideOf(k, regions[k], BucketAt(row, k))
    {
      var k :| k in todo;
      patched := patched[k := OverrideOf(k, regions[k], BucketAt(row, k))];
      todo := todo - {k};
    }
  }

  method Add(store: SnapshotStore, day: int, today: int, regions: map<string, Typed>) returns (r: HistoryOutcome)
    modifies store
    ensures r == if day > today then BadDate else if !ValidRegions(regions) then BadRegions
                 else if day in old(store.rows) then Conflict else Written
    ensures store.rows == if r == Written then old(store.rows)[day := AddedRow(regions)] else old(store.rows)
  {
    if day > today {
      return BadDate;
    }
    if !ValidRegions(regions) {
      return BadRegions;
    }
    if day in store.rows {
      return Conflict;
    }
    var k0 :| k0 in regions;
    assert k0 in AddedRow(regions).buckets;
    var stored := store.Upsert(day, AddedRow(regions));
    r := Written;
  }

  method PatchRegions(store: SnapshotStore, day: int, today: int, regions: map<string, Typed>) returns (r: HistoryOutcome)
    modifies store
    ensures r == if day > today then BadDate else if !ValidRegions(regions) then BadRegions
                 else if day !in old(store.rows) then NoRow else Written
    ensures store.rows == if r == Written then old(store.rows)[day := PatchedRow(old(store.rows)[day], regions)]
                          else old(store.rows)
  {
    if day > today {
      return BadDate;
    }
    if !ValidRegions(regions) {
      return BadRegions;
    }
    if day !in store.rows {
      return NoRow;
    }
    var patched := BuildOverrides(store.rows[day], regions);
    var k0 :| k0 in regions;
    assert k0 in patched;
    var stored := store.PatchRegions(day, patched);
    r := Written;
  }
}
