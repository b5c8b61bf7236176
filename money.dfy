// Exact base-10 amounts as Python's `Decimal` holds them in the database
// columns, and `quantize(Decimal("0.01"), ROUND_HALF_EVEN)`.
//
// A decimal value with `k` fractional digits is the integer `units` standing
// for `units * 10^-k`: money columns have 2 (cents), quantities 3
// (thousandths) and percentages 2 (hundredths of a percent).

module Money {
  import opened Common

  /** An amount in cents: `DecimalField(max_digits=12, decimal_places=2)`. */
  type Cents = int
  /** A quantity in thousandths: `DecimalField(decimal_places=3)`. */
  type Milli = int
  /** A percentage in hundredths: `tax_rate` and `discount_pct` columns. */
  type Hundredths = int

  function Pow10(k: nat): (p: nat)
    ensures p >= 1
  {
    if k == 0 then 1 else 10 * Pow10(k - 1)
  }

  /**
   * `n / d` rounded to the nearest integer, a tie going to the even one.
   * The result is within half a step of the exact quotient.
   */
  function RoundHalfEven(n: int, d: int): (r: int)
    requires d > 0
    ensures 2 * (n - r * d) <= d && 2 * (r * d - n) <= d
    ensures 2 * (n - r * d) == d || 2 * (r * d - n) == d ==> r % 2 == 0
  {
    var q := n / d;
    var rem := n % d;
    assert n == q * d + rem && 0 <= rem < d;
    assert (q + 1) * d == q * d + d;
    if 2 * rem < d then q
    else if 2 * rem > d then q + 1
    else if q % 2 == 0 then q
    else q + 1
  }

  /** A positive multiple of a positive step is at least one step. */
  lemma {:induction false} MultipleOfStep(k: int, d: int)
    requires d > 0
    ensures k >= 1 ==> k * d >= d
    ensures k <= -1 ==> k * d <= -d
    ensures k == 0 ==> k * d == 0
  {
    if k >= 1 {
      assert k * d == (k - 1) * d + d;
      assert (k - 1) * d >= 0;
    } else if k <= -1 {
      assert k * d == (k + 1) * d - d;
      assert (k + 1) * d <= 0;
    }
  }

  /** The two conditions of `RoundHalfEven` leave exactly one candidate. */
  lemma {:induction false} RoundHalfEvenUnique(n: int, d: int, r: int)
    requires d > 0
    requires 2 * (n - r * d) <= d && 2 * (r * d - n) <= d
    requires 2 * (n - r * d) == d || 2 * (r * d - n) == d ==> r % 2 == 0
    ensures r == RoundHalfEven(n, d)
  {
    var s := RoundHalfEven(n, d);
    var k := r - s;
    Distribute(r, s, d);
    // neighbouring candidates would both be ties, hence both even
    CloseCandidates(n, d, r * d, s * d, k);
  }

  lemma Distribute(r: int, s: int, d: int)
    ensures (r - s) * d == r * d - s * d
  {
  }

  /**
   * Two multiples `a` and `b` of the step `d`, each within half a step of `n`,
   * are the same multiple or neighbours that are both exactly half a step away.
   */
  lemma {:induction false} CloseCandidates(n: int, d: int, a: int, b: int, k: int)
    requires d > 0 && a - b == k * d
    requires 2 * (n - a) <= d && 2 * (a - n) <= d
    requires 2 * (n - b) <= d && 2 * (b - n) <= d
    ensures -1 <= k <= 1
    ensures k != 0 ==> (2 * (n - a) == d || 2 * (a - n) == d) && (2 * (n - b) == d || 2 * (b - n) == d)
  {
    MultipleOfStep(k - 1, d);
    MultipleOfStep(k + 1, d);
    assert (k - 1) * d == k * d - d;
    assert (k + 1) * d == k * d + d;
    MultipleOfStep(k, d);
  }

  /**
   * `x.quantize(Decimal("0.01"), rounding=ROUND_HALF_EVEN)` for the decimal
   * `x = units * 10^-scale` with at least two fractional digits: the nearest
   * amount in cents, ties to the even cent.
   */
  function Quantize(units: int, scale: nat): (cents: int)
    requires scale >= 2
    ensures 2 * Abs(units - cents * Pow10(scale - 2)) <= Pow10(scale - 2)
    ensures 2 * Abs(units - cents * Pow10(scale - 2)) == Pow10(scale - 2) ==> cents % 2 == 0
  {
    RoundHalfEven(units, Pow10(scale - 2))
  }

  /** A value that already has two decimals is left as it is. */
  lemma {:induction false} QuantizeCents(c: int)
    ensures Quantize(c, 2) == c
  {
    RoundHalfEvenUnique(c, 1, c);
  }

  /** A quantity that is not positive rounds to an amount that is not positive. */
  lemma {:induction false} QuantizeNonPositive(units: int, scale: nat)
    requires scale >= 2 && units <= 0
    ensures Quantize(units, scale) <= 0
  {
    MultipleOfStep(Quantize(units, scale), Pow10(scale - 2));
  }

  /** A quantity that is not negative rounds to an amount that is not negative. */
  lemma {:induction false} QuantizeNonNegative(units: int, scale: nat)
    requires scale >= 2 && units >= 0
    ensures Quantize(units, scale) >= 0
  {
    MultipleOfStep(Quantize(units, scale), Pow10(scale - 2));
  }
}
