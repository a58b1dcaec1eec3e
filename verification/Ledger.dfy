/** Ledger events and the average-cost replay (domain/transaction.go, services/ledger.go). */
module Ledger {
  import opened Sequences
  import opened Money

  /** Instants are nanoseconds since the epoch. */
  const DAY: int := 86_400_000_000_000

  /** The UTC calendar day of an instant (`UTCDate`); days before the epoch are negative. */
  function DayOf(instant: int): int {
    instant / DAY
  }

  lemma DayBounds(instant: int)
    ensures DayOf(instant) * DAY <= instant <= DayOf(instant) * DAY + (DAY - 1)
  {
  }

  datatype Kind = Opening | Buy | Sell | Dividend | Split | Bonus | Merger

  datatype Txn = Txn(
    id: nat, holding: nat, kind: Kind, date: int,
    quantity: real, amount: real, ratio: real, seed: real,
    openingDate: Option<int>, currency: string, createdAt: int)
  {
    function Day(): int { DayOf(date) }

    predicate Rescales() { kind.Split? || kind.Bonus? }
  }

  datatype Position = Position(stocksOwned: real, avgCost: real, realizedPnL: real, totalDividends: real)

  datatype Replayed = Replayed(position: Position, oversold: bool)

  const FLAT := Position(0.0, 0.0, 0.0, 0.0)

  /** What the replay loop carries from one event to the next; `previous` is the day of the last event. */
  datatype State = State(
    qty: real, basis: real, realized: real, cents: int,
    oversold: bool, waiting: seq<Txn>, previous: Option<int>)

  const START := State(0.0, 0.0, 0.0, 0, false, [], None)

  // ----- replay order -----

  /** Openings first, then trade date, then insertion time: the comparison of the stable sort. */
  predicate Before(a: Txn, b: Txn) {
    if a.kind.Opening? != b.kind.Opening? then a.kind.Opening?
    else if a.date == b.date then a.createdAt < b.createdAt
    else a.date < b.date
  }

  /** Puts t in front of the first event that does not precede it, so ties keep their order. */
  function Insert(t: Txn, ordered: seq<Txn>): (r: seq<Txn>)
    ensures |r| == |ordered| + 1
  {
    if ordered != [] && Before(ordered[0], t) then [ordered[0]] + Insert(t, ordered[1..])
    else [t] + ordered
  }

  /** The stable sort; `SortIsTheStableSort` characterises it. */
  function Sort(txns: seq<Txn>): (r: seq<Txn>)
    ensures |r| == |txns|
  {
    if txns == [] then [] else Insert(txns[0], Sort(txns[1..]))
  }

  // ----- the replay as a function -----

  function AverageCost(s: State): real {
    if s.qty > 0.0 then s.basis / s.qty else 0.0
  }

  /** Sells t now, clamped to the shares held. */
  function SellNow(s: State, t: Txn): State {
    var sold := if t.quantity > s.qty then s.qty else t.quantity;
    var cost := AverageCost(s) * sold;
    s.(qty := s.qty - sold,
       basis := s.basis - cost,
       realized := s.realized + (t.amount - cost),
       oversold := s.oversold || t.quantity > s.qty)
  }

  /** Sells from the head of the queue: all of it at the end of a day, otherwise while the head fits. */
  function Settle(s: State, endOfDay: bool): State
    decreases |s.waiting|
  {
    if s.waiting != [] && (endOfDay || s.waiting[0].quantity <= s.qty)
    then Settle(SellNow(s, s.waiting[0]).(waiting := s.waiting[1..]), endOfDay)
    else s
  }

  /** The event itself, once it need not wait. */
  function Effect(s: State, t: Txn): State {
    match t.kind
    case Opening =>
      var seeded := s.(realized := s.realized + t.seed);
      if t.quantity > 0.0 then seeded.(qty := s.qty + t.quantity, basis := s.basis + t.amount) else seeded
    case Buy =>
      if t.quantity > 0.0 then s.(qty := s.qty + t.quantity, basis := s.basis + t.amount) else s
    case Sell => SellNow(s, t)
    case Split => if t.ratio > 0.0 then s.(qty := s.qty * t.ratio) else s
    case Bonus => if t.ratio > 0.0 then s.(qty := s.qty * t.ratio) else s
    case Dividend => s.(cents := s.cents + AmountCents(t.amount))
    case Merger => s
  }

  /** Crossing into day d settles the day before. */
  function EnterDay(s: State, d: int): State {
    (if s.previous.Some? && s.previous.value != d then Settle(s, true) else s).(previous := Some(d))
  }

  /** t on its own day: a sell that does not fit joins the queue. */
  function Within(s: State, t: Txn): State {
    if t.kind.Sell? && t.quantity > s.qty then s.(waiting := s.waiting + [t])
    else Settle(Effect(s, t), false)
  }

  function Step(s: State, t: Txn): State {
    Within(EnterDay(s, t.Day()), t)
  }

  function Run(s: State, ordered: seq<Txn>): State
    decreases |ordered|
  {
    if ordered == [] then s else Run(Step(s, ordered[0]), ordered[1..])
  }

  function PositionOf(s: State): Position {
    Position(s.qty, AverageCost(s), s.realized, CentsToMoney(s.cents))
  }

  /** The answer read off a state: settle the last day, then report. */
  function Report(s: State): Replayed {
    var done := Settle(s, true);
    Replayed(PositionOf(done), done.oversold)
  }

  function Replay(txns: seq<Txn>): Replayed {
    Report(Run(START, Sort(txns)))
  }

  // ----- the replay as the source runs it -----

  /** The captured variables of RecomputePosition, with its closures as methods. */
  class Replayer {
    var totalQty: real
    var totalBasis: real
    var realizedPnL: real
    var dividendCents: int
    var oversell: bool
    var waiting: seq<Txn>
    ghost var previous: Option<int>

    constructor ()
      ensures Current() == START
    {
      totalQty, totalBasis, realizedPnL := 0.0, 0.0, 0.0;
      dividendCents, oversell, waiting := 0, false, [];
      previous := None;
    }

    ghost function Current(): State
      reads this
    {
      State(totalQty, totalBasis, realizedPnL, dividendCents, oversell, waiting, previous)
    }

    method SellShares(t: Txn)
      modifies this
      ensures Current() == SellNow(old(Current()), t)
    {
      var avg := 0.0;
      if totalQty > 0.0 {
        avg := totalBasis / totalQty;
      }
      var qty := t.quantity;
      if qty > totalQty {
        qty := totalQty;
        oversell := true;
      }
      realizedPnL := realizedPnL + (t.amount - avg * qty);
      totalQty := totalQty - qty;
      totalBasis := totalBasis - avg * qty;
    }

    method SettleQueue(endOfDay: bool)
      modifies this
      ensures Current() == Settle(old(Current()), endOfDay)
    {
      while waiting != [] && (endOfDay || waiting[0].quantity <= totalQty)
        invariant Settle(Current(), endOfDay) == Settle(old(Current()), endOfDay)
        decreases |waiting|
      {
        SellShares(waiting[0]);
        waiting := waiting[1..];
      }
    }

    /** The switch of the loop body. */
    method ApplyEvent(t: Txn)
      modifies this
      ensures Current() == Effect(old(Current()), t)
    {
      match t.kind {
        case Opening =>
          if t.quantity > 0.0 {
            totalQty := totalQty + t.quantity;
            totalBasis := totalBasis + t.amount;
          }
          realizedPnL := realizedPnL + t.seed;
        case Buy =>
          if t.quantity > 0.0 {
            totalQty := totalQty + t.quantity;
            totalBasis := totalBasis + t.amount;
          }
        case Sell =>
          SellShares(t);
        case Split =>
          if t.ratio > 0.0 { totalQty := totalQty * t.ratio; }
        case Bonus =>
          if t.ratio > 0.0 { totalQty := totalQty * t.ratio; }
        case Dividend =>
          dividendCents := dividendCents + AmountCents(t.amount);
        case Merger =>
      }
    }

    /** One turn of the loop; newDay says the previous event fell on another day. */
    method ReplayEvent(t: Txn, newDay: bool)
      requires newDay <==> previous.Some? && previous.value != t.Day()
      modifies this
      ensures Current() == Step(old(Current()), t)
    {
      if newDay {
        SettleQueue(true);
      }
      previous := Some(t.Day());
      if t.kind.Sell? && t.quantity > totalQty {
        waiting := waiting + [t];
        return;
      }
      ApplyEvent(t);
      SettleQueue(false);
    }
  }

  /** RecomputePosition: the loop computes exactly the replay. */
  method RecomputePosition(txns: seq<Txn>) returns (pos: Position, oversell: bool)
    ensures Replayed(pos, oversell) == Replay(txns)
  {
    var ordered := Sort(txns);
    var r := new Replayer();
    var i := 0;
    while i < |ordered|
      invariant fresh(r) && 0 <= i <= |ordered|
      invariant r.previous == if i == 0 then None else Some(ordered[i - 1].Day())
      invariant Run(r.Current(), ordered[i..]) == Run(START, ordered)
    {
      assert ordered[i..][0] == ordered[i] && ordered[i..][1..] == ordered[i + 1..];
      ghost var s := r.Current();
      StepSetsPrevious(s, ordered[i]);
      r.ReplayEvent(ordered[i], i > 0 && ordered[i].Day() != ordered[i - 1].Day());
      i := i + 1;
    }
    r.SettleQueue(true);
    pos := Position(r.totalQty, 0.0, r.realizedPnL, CentsToMoney(r.dividendCents));
    if r.totalQty > 0.0 {
      pos := pos.(avgCost := r.totalBasis / r.totalQty);
    }
    oversell := r.oversell;
  }

  lemma {:induction false} SettleKeepsPrevious(s: State, endOfDay: bool)
    ensures Settle(s, endOfDay).previous == s.previous
    ensures Settle(s, endOfDay).cents == s.cents
    decreases |s.waiting|
  {
    if s.waiting != [] {
      SettleKeepsPrevious(SellNow(s, s.waiting[0]).(waiting := s.waiting[1..]), endOfDay);
    }
  }

  lemma StepSetsPrevious(s: State, t: Txn)
    ensures Step(s, t).previous == Some(t.Day())
  {
    SettleKeepsPrevious(Effect(EnterDay(s, t.Day()), t), false);
  }
}
