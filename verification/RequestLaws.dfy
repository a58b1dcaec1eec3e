/** What an accepted request leaves in the ledger, read off its own fields (services/transactions.go, mapper.go). */
module RequestLaws {
  import opened Sequences
  import opened Money
  import opened Ledger
  import opened Erasure
  import opened Conservation
  import opened Verdict
  import opened AsOfReplay
  import opened Book
  import opened WritePath

  // ----- the figures of a ledger up to an instant -----

  function EarlierThan(cutoff: int): Txn -> bool {
    (t: Txn) => t.date < cutoff
  }

  /** What the events dated before the cutoff add up to. */
  function Recorded(ledger: seq<Txn>, cutoff: int, f: Txn -> real): real {
    Sum(Filter(ledger, EarlierThan(cutoff)), f)
  }

  /** The ratio a split or bonus carries. */
  function RatioOf(t: Txn): real {
    if t.Rescales() then t.ratio else 0.0
  }

  function DividendMoney(t: Txn): real {
    CentsToMoney(DividendCents(t))
  }

  /** The figures of one event: shares moved, money spent, credited and seeded, ratio, dividend money. */
  datatype Figures = Figures(shares: real, spent: real, credited: real, seeded: real, ratio: real, dividends: real)

  function FiguresOf(t: Txn): Figures {
    Figures(Delta(t), Spent(t), Credited(t), Seeded(t), RatioOf(t), DividendMoney(t))
  }

  /** All of a ledger's figures up to an instant. */
  function RecordedFigures(ledger: seq<Txn>, cutoff: int): Figures {
    Figures(Recorded(ledger, cutoff, Delta), Recorded(ledger, cutoff, Spent), Recorded(ledger, cutoff, Credited),
            Recorded(ledger, cutoff, Seeded), Recorded(ledger, cutoff, RatioOf), Recorded(ledger, cutoff, DividendMoney))
  }

  function Plus(a: Figures, b: Figures): Figures {
    Figures(a.shares + b.shares, a.spent + b.spent, a.credited + b.credited, a.seeded + b.seeded,
            a.ratio + b.ratio, a.dividends + b.dividends)
  }

  const NOTHING := Figures(0.0, 0.0, 0.0, 0.0, 0.0, 0.0)

  /** The figures an event has once its instant has passed. */
  function FiguresBy(t: Txn, cutoff: int): Figures {
    if t.date < cutoff then FiguresOf(t) else NOTHING
  }

  lemma RecordedAround(before: seq<Txn>, t: Txn, after: seq<Txn>, cutoff: int, f: Txn -> real)
    ensures Recorded(before + [t] + after, cutoff, f)
         == Recorded(before + after, cutoff, f) + if t.date < cutoff then f(t) else 0.0
  {
    var keep := EarlierThan(cutoff);
    FilterConcat(before + [t], after, keep);
    FilterConcat(before, [t], keep);
    FilterConcat(before, after, keep);
    FilterCons(t, [], keep);
    assert [t] + [] == [t];
    SumConcat(Filter(before, keep) + Filter([t], keep), Filter(after, keep), f);
    SumConcat(Filter(before, keep), Filter([t], keep), f);
    SumConcat(Filter(before, keep), Filter(after, keep), f);
    SumOne(t, f);
  }

  lemma FiguresAround(before: seq<Txn>, t: Txn, after: seq<Txn>, cutoff: int)
    ensures RecordedFigures(before + [t] + after, cutoff)
         == Plus(RecordedFigures(before + after, cutoff), FiguresBy(t, cutoff))
  {
    hide Recorded, Delta, Spent, Credited, Seeded, RatioOf, DividendMoney;
    RecordedAround(before, t, after, cutoff, Delta);
    RecordedAround(before, t, after, cutoff, Spent);
    RecordedAround(before, t, after, cutoff, Credited);
    RecordedAround(before, t, after, cutoff, Seeded);
    RecordedAround(before, t, after, cutoff, RatioOf);
    RecordedAround(before, t, after, cutoff, DividendMoney);
  }

  // ----- what a request types -----

  /** The figures typed: absent numbers are zero, and each kind uses its own fields. */
  function TypedFigures(input: TxnInput): Figures
    requires input.kind.Some?
  {
    var quantity, amount := OrZero(input.quantity), OrZero(input.amount);
    match input.kind.value
    case Opening => Figures(if quantity > 0.0 then quantity else 0.0, if quantity > 0.0 then amount else 0.0, 0.0,
                            OrZero(input.seed), 0.0, 0.0)
    case Buy => Figures(quantity, amount, 0.0, 0.0, 0.0, 0.0)
    case Sell => Figures(-quantity, 0.0, amount, 0.0, 0.0, 0.0)
    case Split => Figures(0.0, 0.0, 0.0, 0.0, OrZero(input.ratio), 0.0)
    case Bonus => Figures(0.0, 0.0, 0.0, 0.0, OrZero(input.ratio), 0.0)
    case Dividend => Figures(0.0, 0.0, 0.0, 0.0, 0.0, CentsToMoney(AmountCents(amount)))
    case Merger => NOTHING
  }

  function TypedBy(input: TxnInput, cutoff: int): Figures
    requires input.kind.Some?
  {
    if input.date < cutoff then TypedFigures(input) else NOTHING
  }

  lemma EventHasTypedFigures(input: TxnInput, today: int, id: nat, hid: nat, currency: string, now: int)
    requires ValidInput(input, today)
    ensures FiguresOf(FromInput(input, id, hid, currency, now)) == TypedFigures(input)
  {
    RoundCentsIdempotent(OrZero(input.amount));
  }

  lemma PatchHasTypedFigures(prev: Txn, input: TxnInput, today: int)
    requires ValidInput(input, today)
    ensures FiguresOf(Patched(prev, input)) == TypedFigures(input) && Patched(prev, input).date == input.date
  {
    RoundCentsIdempotent(OrZero(input.amount));
  }

  // ----- creates and updates -----

  /**
   * An accepted create adds what was typed, from the typed instant on: shares, money spent, credited and seeded,
   * ratio and dividend money. It adds one event, to this ledger only.
   */
  lemma CreateRecordsTheRequest(b: Book, hid: nat, input: TxnInput, today: int, id: nat, now: int, cutoff: int)
    requires CreateSpec(b, hid, input, today, id, now).1.Done?
    ensures input.kind.Some?
    ensures var before, after := LedgerOf(b.txns, hid), LedgerOf(CreateSpec(b, hid, input, today, id, now).0.txns, hid);
            && |after| == |before| + 1 && after[..|before|] == before
            && after[|before|].kind == input.kind.value && after[|before|].date == input.date
            && after[|before|].createdAt == now && after[|before|].id == id
            && after[|before|].currency == LedgerCurrency(b.holdings[hid]) && after[|before|].openingDate == None
            && RecordedFigures(after, cutoff) == Plus(RecordedFigures(before, cutoff), TypedBy(input, cutoff))
    ensures forall h :: h != hid ==>
              LedgerOf(CreateSpec(b, hid, input, today, id, now).0.txns, h) == LedgerOf(b.txns, h)
  {
    hide LedgerOf, Replay, RecordedFigures, FiguresOf, TypedFigures;
    var t := FromInput(input, id, hid, LedgerCurrency(b.holdings[hid]), now);
    forall h
      ensures LedgerOf(b.txns + [t], h) == LedgerOf(b.txns, h) + if h == hid then [t] else []
    {
      LedgerConcat(b.txns, [t], h);
      LedgerOfOne(t, h);
    }
    EventHasTypedFigures(input, today, id, hid, LedgerCurrency(b.holdings[hid]), now);
    FiguresAround(LedgerOf(b.txns, hid), t, [], cutoff);
    assert LedgerOf(b.txns, hid) + [t] + [] == LedgerOf(b.txns, hid) + [t];
    assert LedgerOf(b.txns, hid) + [] == LedgerOf(b.txns, hid);
  }

  /** An accepted update takes out what the event recorded and puts in what was typed, and leaves its place and stamp. */
  lemma UpdateRecordsTheRequest(b: Book, id: nat, input: TxnInput, today: int, cutoff: int)
    requires Projected(b) && UpdateSpec(b, id, input, today).1.Done?
    ensures IndexOf(b.txns, id) < |b.txns| && input.kind.Some?
    ensures var prev := b.txns[IndexOf(b.txns, id)];
            var before, after := LedgerOf(b.txns, prev.holding), LedgerOf(UpdateSpec(b, id, input, today).0.txns, prev.holding);
            Plus(RecordedFigures(after, cutoff), FiguresBy(prev, cutoff))
              == Plus(RecordedFigures(before, cutoff), TypedBy(input, cutoff))
    ensures var i, txns := IndexOf(b.txns, id), UpdateSpec(b, id, input, today).0.txns;
            && |txns| == |b.txns| && (forall j :: 0 <= j < |txns| && j != i ==> txns[j] == b.txns[j])
            && txns[i].kind == input.kind.value && txns[i].date == input.date
            && txns[i].id == id && txns[i].holding == b.txns[i].holding
            && txns[i].createdAt == b.txns[i].createdAt && txns[i].currency == b.txns[i].currency
            && txns[i].openingDate == (if input.kind == Some(Opening) && DayOf(input.date) != DayOf(b.txns[i].date)
                                       then Some(input.date) else b.txns[i].openingDate)
  {
    hide LedgerOf, Replay, RecordedFigures, FiguresOf, TypedFigures, PositionsProjected;
    var i := IndexOf(b.txns, id);
    var prev, t := b.txns[i], Patched(b.txns[i], input);
    var front, back := b.txns[..i], b.txns[i + 1..];
    MembersHaveHoldings(b, i);
    ReplacedAt(b.txns, i, t);
    LedgerAroundOne(front, prev, back);
    LedgerAroundOne(front, t, back);
    PatchHasTypedFigures(prev, input, today);
    FiguresAround(LedgerOf(front, prev.holding), prev, LedgerOf(back, prev.holding), cutoff);
    FiguresAround(LedgerOf(front, prev.holding), t, LedgerOf(back, prev.holding), cutoff);
  }

  lemma ReplacedAt(txns: seq<Txn>, i: nat, t: Txn)
    requires i < |txns|
    ensures txns == txns[..i] + [txns[i]] + txns[i + 1..] && txns[i := t] == txns[..i] + [t] + txns[i + 1..]
  {
  }

  lemma LedgerAroundOne(before: seq<Txn>, t: Txn, after: seq<Txn>)
    ensures LedgerOf(before + [t] + after, t.holding) == LedgerOf(before, t.holding) + [t] + LedgerOf(after, t.holding)
  {
    LedgerConcat(before + [t], after, t.holding);
    LedgerConcat(before, [t], t.holding);
    LedgerOfOne(t, t.holding);
  }

  /** An opening moved to another day counts from that day on; left on its day, on the days it counted before. */
  lemma MovedOpeningCountsFromItsDay(prev: Txn, input: TxnInput, today: int, day: int)
    requires ValidInput(input, today) && input.kind == Some(Opening)
    ensures DayOf(input.date) != prev.Day() ==> (InEffect(Patched(prev, input), EndOf(day)) <==> DayOf(input.date) <= day)
    ensures DayOf(input.date) == prev.Day() && prev.kind.Opening? ==>
              (InEffect(Patched(prev, input), EndOf(day)) <==> InEffect(prev, EndOf(day)))
  {
    if DayOf(input.date) != prev.Day() {
      DeclaredByDay(Patched(prev, input), day);
    }
  }

  // ----- which requests are refused -----

  /** A known type with the figures it needs; a dividend of at least half a cent, below the bound, by today. */
  predicate WellFormed(input: TxnInput, today: int) {
    && input.kind.Some?
    && (input.kind == Some(Buy) || input.kind == Some(Sell) ==>
          input.quantity.Some? && input.quantity.value > 0.0 && input.amount.Some? && input.amount.value >= 0.0)
    && (input.kind == Some(Opening) && input.quantity.Some? ==> input.quantity.value >= 0.0)
    && (input.kind == Some(Split) || input.kind == Some(Bonus) ==> input.ratio.Some? && input.ratio.value > 0.0)
    && (input.kind == Some(Dividend) ==>
          input.amount.Some? && 0.005 <= input.amount.value < 1_000_000_000_000.0 && DayOf(input.date) <= today)
  }

  lemma AtLeastACent(amount: real)
    ensures AmountCents(amount) > 0 <==> amount >= 0.005
  {
  }

  lemma ValidIsWellFormed(input: TxnInput, today: int)
    ensures ValidInput(input, today) <==> WellFormed(input, today)
  {
    AtLeastACent(OrZero(input.amount));
  }

  /** A request is refused as invalid exactly when it is not well formed; whatever is refused leaves the book alone. */
  lemma RefusedIffMalformed(b: Book, hid: nat, id: nat, input: TxnInput, today: int, now: int)
    requires Projected(b)
    ensures var (after, r) := CreateSpec(b, hid, input, today, id, now);
            && (r == NotFound <==> hid !in b.holdings) && (r == Invalid <==> hid in b.holdings && !WellFormed(input, today))
            && (r != Done ==> after == b)
    ensures var (after, r) := UpdateSpec(b, id, input, today);
            && (r == NotFound <==> forall t :: t in b.txns ==> t.id != id)
            && (r == Invalid <==> (exists t :: t in b.txns && t.id == id) && !WellFormed(input, today))
            && (r != Done ==> after == b)
  {
    hide Replay, LedgerOf, ValidInput, WellFormed, PositionsProjected;
    ValidIsWellFormed(input, today);
    var i := IndexOf(b.txns, id);
    if i < |b.txns| {
      assert b.txns[i] in b.txns;
    }
  }
}
