/** One snapshot row over any run of cron upserts, heals, patches, manual adds and unforced deletes. */
module RowMachine {
  import opened Sequences
  import opened Snapshots

  datatype RowOp =
    | CronRun(lines: seq<Line>)
    | Heal(lines: seq<Line>)
    | Patch(regions: map<string, Typed>)
    | AddManual(regions: map<string, Typed>)
    | Remove

  function CronRow(lines: seq<Line>): Row {
    Row(BucketsOf(lines), Some(lines))
  }

  function ApplyRow(row: Option<Row>, op: RowOp): Option<Row> {
    match op
    case CronRun(lines) => Some(Upserted(row, CronRow(lines)))
    case Heal(lines) =>
      if row.Some? && row.value.lines.Some? then Some(Upserted(row, CronRow(lines))) else row
    case Patch(regions) =>
      if row.Some? && ValidRegions(regions) then Some(PatchedRow(row.value, regions)) else row
    case AddManual(regions) =>
      if row.None? && ValidRegions(regions) then Some(AddedRow(regions)) else row
    case Remove =>
      if row.Some? && !HasCron(row.value) then None else row
  }

  ghost predicate IsRowRun(rows: seq<Option<Row>>, ops: seq<RowOp>) {
    && |rows| == |ops| + 1 && rows[0] == None
    && forall i :: 0 <= i < |ops| ==> rows[i + 1] == ApplyRow(rows[i], ops[i])
  }

  predicate ManualAt(row: Option<Row>, k: string) {
    row.Some? && k in row.value.buckets && row.value.buckets[k].source.Manual?
  }

  function AnchorAt(row: Option<Row>, k: string): (Option<real>, Option<real>)
    requires ManualAt(row, k)
  {
    (row.value.buckets[k].anchorInvested, row.value.buckets[k].anchorCurrent)
  }

  /** What an override finds underneath: the cron's amounts, or nothing. */
  function CronValues(row: Option<Row>, k: string): (Option<real>, Option<real>) {
    if row.Some? && k in row.value.buckets
    then (Some(row.value.buckets[k].invested), Some(row.value.buckets[k].current))
    else (None, None)
  }

  predicate Patches(op: RowOp, k: string) {
    op.Patch? && k in op.regions
  }

  lemma BucketsAreCron(lines: seq<Line>)
    ensures forall k :: k in BucketsOf(lines) ==> BucketsOf(lines)[k].source.Cron?
    ensures ManualOf(BucketsOf(lines)) == map[] && BucketsOf(lines) != map[]
  {
    assert "INR" in BucketsOf(lines);
  }

  /** One step: a manual bucket moves only under a patch of its own key, and keeps its anchor even then. */
  lemma StepOnManual(row: Option<Row>, op: RowOp, k: string)
    requires ManualAt(row, k) && ApplyRow(row, op).Some?
    ensures ManualAt(ApplyRow(row, op), k)
    ensures AnchorAt(ApplyRow(row, op), k) == AnchorAt(row, k)
    ensures !Patches(op, k) ==> ApplyRow(row, op).value.buckets[k] == row.value.buckets[k]
  {
    if op.CronRun? || op.Heal? {
      assert k in ManualOf(row.value.buckets);
    }
  }

  /** The step that makes a bucket manual anchors it at what the cron had. */
  lemma StepToManual(row: Option<Row>, op: RowOp, k: string)
    requires !ManualAt(row, k) && ManualAt(ApplyRow(row, op), k)
    ensures AnchorAt(ApplyRow(row, op), k) == CronValues(row, k)
    ensures op.Patch? || op.AddManual?
  {
    if op.CronRun? || (op.Heal? && row.Some? && row.value.lines.Some?) {
      BucketsAreCron(op.lines);
    }
  }

  /** A manual bucket's amounts change only by a patch of that bucket. */
  lemma {:induction false} ManualMovesOnlyByPatch(rows: seq<Option<Row>>, ops: seq<RowOp>, k: string, i: nat, j: nat)
    requires IsRowRun(rows, ops) && i <= j < |rows| && ManualAt(rows[i], k)
    requires forall n :: i <= n < j ==> !Patches(ops[n], k)
    requires forall n :: i <= n <= j ==> rows[n].Some?
    ensures ManualAt(rows[j], k) && rows[j].value.buckets[k] == rows[i].value.buckets[k]
    decreases j - i
  {
    if i < j {
      ManualMovesOnlyByPatch(rows, ops, k, i, j - 1);
      assert rows[j - 1 + 1] == ApplyRow(rows[j - 1], ops[j - 1]) && rows[j].Some?;
      StepOnManual(rows[j - 1], ops[j - 1], k);
    }
  }

  /**
   * The audit anchor: a manual bucket has been manual since some first override, its anchor is
   * what the cron had recorded just before it, and it has not moved since.
   */
  lemma {:induction false} AnchorIsTheFirstOverridden(rows: seq<Option<Row>>, ops: seq<RowOp>, k: string, n: nat)
      returns (first: nat)
    requires IsRowRun(rows, ops) && n < |rows| && ManualAt(rows[n], k)
    ensures first < n && !ManualAt(rows[first], k)
    ensures forall j :: first < j <= n ==>
              ManualAt(rows[j], k) && AnchorAt(rows[j], k) == CronValues(rows[first], k)
    decreases n
  {
    if ManualAt(rows[n - 1], k) {
      first := AnchorIsTheFirstOverridden(rows, ops, k, n - 1);
      StepOnManual(rows[n - 1], ops[n - 1], k);
    } else {
      first := n - 1;
      StepToManual(rows[n - 1], ops[n - 1], k);
    }
  }

  lemma OverrideAgain(row: Row, first: map<string, Typed>, typed: Typed, k: string)
    ensures OverrideOf(k, typed, BucketAt(PatchedRow(row, first), k)) == OverrideOf(k, typed, BucketAt(row, k))
  {
  }

  lemma ComposedAt(row: Row, first: map<string, Typed>, second: map<string, Typed>, k: string)
    requires k in first + second
    ensures var patched := PatchedRow(row, first);
            && k in patched.buckets + Overrides(patched, second)
            && (patched.buckets + Overrides(patched, second))[k] == Overrides(row, first + second)[k]
  {
    hide OverrideOf;
    if k in second {
      OverrideAgain(row, first, second[k], k);
    }
  }

  /** Two patches are one: the last decides the amounts, the first override has decided the anchors. */
  lemma PatchesCompose(row: Row, first: map<string, Typed>, second: map<string, Typed>)
    ensures PatchedRow(PatchedRow(row, first), second) == PatchedRow(row, first + second)
  {
    hide OverrideOf;
    var patched := PatchedRow(row, first);
    var twice, once := patched.buckets + Overrides(patched, second), row.buckets + Overrides(row, first + second);
    assert twice.Keys == once.Keys;
    forall k | k in once
      ensures twice[k] == once[k]
    {
      if k in first + second {
        ComposedAt(row, first, second, k);
      }
    }
    assert twice == once;
  }

  function ApplyCrons(row: Option<Row>, runs: seq<seq<Line>>): Option<Row>
    decreases |runs|
  {
    if runs == [] then row else ApplyCrons(ApplyRow(row, CronRun(runs[0])), runs[1..])
  }

  lemma ManualSurvives(existing: map<string, Bucket>, incoming: map<string, Bucket>)
    requires ManualOf(incoming) == map[]
    ensures ManualOf(Merged(existing, incoming)) == ManualOf(existing)
  {
    assert forall k :: k in incoming && incoming[k].source.Manual? ==> k in ManualOf(incoming);
  }

  lemma SecondCronWins(row: Option<Row>, a: seq<Line>, b: seq<Line>)
    ensures ApplyRow(ApplyRow(row, CronRun(a)), CronRun(b)) == ApplyRow(row, CronRun(b))
  {
    hide BucketsOf, ManualOf;
    BucketsAreCron(a);
    if row.Some? {
      ManualSurvives(row.value.buckets, BucketsOf(a));
    } else {
      assert BucketsOf(b) + map[] == BucketsOf(b);
    }
  }

  /** Any number of cron re-runs converges to the last one. */
  lemma {:induction false} CronRunsConverge(row: Option<Row>, runs: seq<seq<Line>>)
    requires runs != []
    ensures ApplyCrons(row, runs) == ApplyRow(row, CronRun(runs[|runs| - 1]))
    decreases |runs|
  {
    if |runs| > 1 {
      CronRunsConverge(ApplyRow(row, CronRun(runs[0])), runs[1..]);
      SecondCronWins(row, runs[0], runs[|runs| - 1]);
    } else {
      assert runs[1..] == [];
    }
  }

  /** Only a delete removes a row, and only one whose every bucket the user has overridden. */
  lemma OnlyManualRowsAreRemoved(rows: seq<Option<Row>>, ops: seq<RowOp>, n: nat)
    requires IsRowRun(rows, ops) && n < |ops| && rows[n].Some? && rows[n + 1].None?
    ensures ops[n].Remove? && forall k :: k in rows[n].value.buckets ==> ManualAt(rows[n], k)
  {
  }

  /** One step: without a patch of its key a canonical cron bucket stays, and keeps its row. */
  lemma StepOnCron(row: Option<Row>, op: RowOp, k: string)
    requires k in {"INR", "EUR"} && row.Some? && k in row.value.buckets && !ManualAt(row, k) && !Patches(op, k)
    ensures ApplyRow(row, op).Some? && k in ApplyRow(row, op).value.buckets && !ManualAt(ApplyRow(row, op), k)
  {
    if op.CronRun? || op.Heal? {
      assert k in BucketsOf(op.lines);
      BucketsAreCron(op.lines);
    }
    assert HasCron(row.value);
  }

  /** Hence a bucket the cron wrote and nobody overrode keeps its row. */
  lemma {:induction false} CronBucketKeepsItsRow(rows: seq<Option<Row>>, ops: seq<RowOp>, k: string, i: nat, j: nat)
    requires IsRowRun(rows, ops) && i <= j < |rows|
    requires k in {"INR", "EUR"} && rows[i].Some? && k in rows[i].value.buckets && !ManualAt(rows[i], k)
    requires forall n :: i <= n < j ==> !Patches(ops[n], k)
    ensures rows[j].Some? && k in rows[j].value.buckets && !ManualAt(rows[j], k)
    decreases j - i
  {
    if i < j {
      CronBucketKeepsItsRow(rows, ops, k, i, j - 1);
      assert rows[j - 1 + 1] == ApplyRow(rows[j - 1], ops[j - 1]);
      StepOnCron(rows[j - 1], ops[j - 1], k);
    }
  }
}
