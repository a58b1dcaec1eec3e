/** The ledger's state machine: every write the services offer, and what every run of them keeps. */
module LedgerMachine {
  import opened Sequences
  import opened Ledger
  import opened Book
  import opened WritePath
  import DividendImport
  import TradeImport

  datatype Op =
    | OpenOp(hid: nat, holding: HoldingInput, id: nat, now: int)
    | CreateOp(hid: nat, input: TxnInput, today: int, id: nat, now: int)
    | UpdateOp(id: nat, input: TxnInput, today: int)
    | DeleteOp(id: nat)
    | OpeningDateOp(hid: nat, date: int)
    | EditOp(hid: nat, edit: EditInput)
    | DropOp(hid: nat)
    | ImportDividendsOp(currency: string, dividends: seq<DividendImport.SheetRow>, byName: map<string, nat>, today: int, id: nat, now: int)
    | DeleteDividendsOp(currency: string)
    | ImportTradesOp(trades: seq<TradeImport.SheetRow>, bySymbol: map<string, nat>, created: map<nat, Holding>,
                     today: int, id: nat, now: int)

  /**
   * New identifiers are new, imports resolve to known holdings, and no delete that is rejected
   * puts an event back behind a later one with its replay key.
   */
  ghost predicate Enabled(b: Book, op: Op)
    requires Closed(b)
  {
    match op
    case OpenOp(hid, _, id, _) => hid !in b.holdings && forall t :: t in b.txns ==> t.id != id
    case CreateOp(hid, _, _, id, now) => forall t :: t in b.txns ==> t.id != id
    case DeleteOp(id) =>
      DeleteSpec(b, id).1.Oversell? ==> IndexOf(b.txns, id) < |b.txns| && !TiedLater(b.txns, IndexOf(b.txns, id))
    case ImportDividendsOp(_, _, byName, _, id, _) => byName.Values <= b.holdings.Keys && forall t :: t in b.txns ==> t.id < id
    case ImportTradesOp(_, bySymbol, created, _, id, _) =>
      && bySymbol.Values <= b.holdings.Keys + created.Keys && created.Keys !! b.holdings.Keys
      && (forall h :: h in created ==> created[h].position == FLAT)
      && forall t :: t in b.txns ==> t.id < id
    case _ => true
  }

  ghost function Apply(b: Book, op: Op): Book
    requires Closed(b) && Enabled(b, op)
  {
    match op
    case OpenOp(hid, holding, id, now) => OpenSpec(b, hid, holding, id, now)
    case CreateOp(hid, input, today, id, now) => CreateSpec(b, hid, input, today, id, now).0
    case UpdateOp(id, input, today) => UpdateSpec(b, id, input, today).0
    case DeleteOp(id) => DeleteSpec(b, id).0
    case OpeningDateOp(hid, date) => SetOpeningDateSpec(b, hid, date)
    case EditOp(hid, edit) => EditSpec(b, hid, edit)
    case DropOp(hid) => DropSpec(b, hid)
    case ImportDividendsOp(currency, sheet, byName, today, id, now) => DividendImport.ImportSpec(b, currency, sheet, byName, today, id, now).0
    case DeleteDividendsOp(currency) => DividendImport.DeleteAllSpec(b, currency).0
    case ImportTradesOp(sheet, bySymbol, created, today, id, now) =>
      TradeImport.ImportSpec(b, sheet, bySymbol, created, today, id, now).0
  }

  /** The books a run goes through. */
  ghost predicate IsRun(books: seq<Book>, ops: seq<Op>) {
    && |books| == |ops| + 1 && books[0] == Book([], map[])
    && forall i :: 0 <= i < |ops| ==>
         Closed(books[i]) && Enabled(books[i], ops[i]) && books[i + 1] == Apply(books[i], ops[i])
  }

  lemma StepKeepsProjection(b: Book, op: Op)
    requires Projected(b) && Enabled(b, op)
    ensures Projected(Apply(b, op))
  {
    hide Projected, DeleteSpec, CreateSpec, UpdateSpec, OpenSpec;
    match op
    case OpenOp(hid, holding, id, now) => OpenKeepsProjection(b, hid, holding, id, now);
    case CreateOp(hid, input, today, id, now) => CreateKeepsProjection(b, hid, input, today, id, now);
    case UpdateOp(id, input, today) => UpdateKeepsProjection(b, id, input, today);
    case DeleteOp(id) => DeleteKeepsProjection(b, id);
    case OpeningDateOp(hid, date) =>
      if OpeningOf(b.txns, hid).Some? {
        RedateKeepsProjection(b, OpeningOf(b.txns, hid).value.id, date);
      }
    case EditOp(hid, edit) => EditKeepsProjection(b, hid, edit);
    case DropOp(hid) => DropKeepsProjection(b, hid);
    case ImportDividendsOp(currency, sheet, byName, today, id, now) =>
      DividendImport.ImportKeepsProjection(b, currency, sheet, byName, today, id, now);
    case DeleteDividendsOp(currency) => DividendImport.DeleteAllKeepsProjection(b, currency);
    case ImportTradesOp(sheet, bySymbol, created, today, id, now) =>
      TradeImport.ImportKeepsProjection(b, sheet, bySymbol, created, today, id, now);
  }

  /**
   * The projection invariant over all runs: however long the run, accepted or rejected, every
   * stored position is the replay of the stored ledger, and no stored ledger is oversold.
   */
  lemma {:induction false} EveryRunIsProjected(books: seq<Book>, ops: seq<Op>, i: nat)
    requires IsRun(books, ops) && i < |books|
    ensures Projected(books[i])
  {
    if i > 0 {
      EveryRunIsProjected(books, ops, i - 1);
      assert books[i - 1 + 1] == Apply(books[i - 1], ops[i - 1]);
      StepKeepsProjection(books[i - 1], ops[i - 1]);
    } else {
      EmptyBookIsProjected();
    }
  }

  lemma EmptyBookIsProjected()
    ensures Projected(Book([], map[]))
  {
  }
}
