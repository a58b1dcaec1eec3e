/** Exact money: amounts are reals, minor units are integers. */
module Money {

  /** The nearest integer, halves away from zero (Go's math.Round). */
  function Round(x: real): (n: int)
    ensures -0.5 <= n as real - x <= 0.5
    ensures n as real - x == 0.5 ==> 0.0 < x
    ensures n as real - x == -0.5 ==> x < 0.0
  {
    if x < 0.0 then -((0.5 - x).Floor) else (x + 0.5).Floor
  }

  function AmountCents(amount: real): int {
    Round(amount * 100.0)
  }

  /** What a quantity is worth at a price. */
  function Worth(quantity: real, price: real): real {
    quantity * price
  }

  function CentsToMoney(cents: int): real {
    cents as real / 100.0
  }

  /** `round` of history.go and `RoundCents` of dividend.go are this function. */
  function RoundCents(amount: real): (r: real)
    ensures -0.005 <= r - amount <= 0.005
  {
    CentsToMoney(AmountCents(amount))
  }

  /** Go's conversion to an integer: the fraction is dropped towards zero. */
  function Truncate(x: real): int {
    if x < 0.0 then -((-x).Floor) else x.Floor
  }

  /** `round2` of domain/snapshot.go. */
  function Round2(v: real): real {
    Truncate(v * 100.0 + (if v < 0.0 then -0.5 else 0.5)) as real / 100.0
  }

  /** The two rounding helpers of the source are one function. */
  lemma Round2IsRoundCents(v: real)
    ensures Round2(v) == RoundCents(v)
  {
    if v < 0.0 {
      assert -(v * 100.0 + -0.5) == 0.5 - v * 100.0;
    }
  }

  /** The integer nearest to x is unique away from the midpoints. */
  lemma RoundUnique(x: real, n: int)
    requires -0.5 < n as real - x < 0.5
    ensures Round(x) == n
  {
    var m := Round(x);
    assert -1.0 < m as real - n as real < 1.0;
    assert -1 < m - n < 1;
  }

  /** Whole cents survive the trip through money. */
  lemma CentsSurvive(cents: int)
    ensures AmountCents(CentsToMoney(cents)) == cents
  {
    var x := CentsToMoney(cents) * 100.0;
    assert x == cents as real;
    RoundUnique(x, cents);
  }

  lemma RoundCentsIdempotent(amount: real)
    ensures RoundCents(RoundCents(amount)) == RoundCents(amount)
    ensures AmountCents(RoundCents(amount)) == AmountCents(amount)
  {
    CentsSurvive(AmountCents(amount));
  }

  // ----- whole cents -----

  predicate WholeCents(x: real) {
    x * 100.0 == (x * 100.0).Floor as real
  }

  lemma CentsAreWhole(cents: int)
    ensures WholeCents(CentsToMoney(cents))
  {
    assert CentsToMoney(cents) * 100.0 == cents as real;
  }

  lemma WholeCentsStand(x: real)
    requires WholeCents(x)
    ensures Round2(x) == x && RoundCents(x) == x
  {
    var cents := (x * 100.0).Floor;
    assert x == CentsToMoney(cents);
    Round2IsRoundCents(x);
    CentsSurvive(cents);
  }

  lemma WholePlusWhole(x: real, y: real)
    requires WholeCents(x) && WholeCents(y)
    ensures WholeCents(x + y)
  {
    var m, n := (x * 100.0).Floor, (y * 100.0).Floor;
    assert (x + y) * 100.0 == (m + n) as real;
  }
}
