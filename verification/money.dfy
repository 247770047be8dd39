/** Exact fixed-point money.

    The storefront keeps prices and balances in `DecimalField(max_digits=10,
    decimal_places=2)` columns and computes with Python `Decimal`, which is
    exact for these values. An amount here is an integer number of
    ten-thousandths of a peso: a two-decimal price times the 0.16 IVA rate has
    four decimals, so every value the views compute is representable. */
module Money {

  /** An amount in units of 1/10000. */
  type Money = int

  /** Units per peso. */
  const Peso: Money := 10000

  /** At most two decimal places, as a `decimal_places=2` field holds. */
  predicate TwoDecimals(m: Money) {
    m % 100 == 0
  }

  /** An amount with at most two decimals: a stored price or a cart price. */
  type Money2 = m: Money | TwoDecimals(m)

  /** Fits a `DecimalField(max_digits=10, decimal_places=2)`: two decimals and
      at most eight digits before the point. */
  predicate FitsDecimal10x2(m: Money) {
    TwoDecimals(m) && -100_000_000 * Peso < m < 100_000_000 * Peso
  }

  /** IVA at the flat 16% rate, with no rounding: `subtotal * Decimal("0.16")`. */
  function Iva(subtotal: Money2): (r: Money)
    ensures r * 100 == subtotal * 16
  {
    var cents := subtotal / 100;
    assert TwoDecimals(subtotal);
    assert subtotal == cents * 100 + subtotal % 100;
    assert cents * 16 * 100 == (cents * 100) * 16;
    cents * 16
  }

  /** The tax-inclusive total `subtotal + iva`, again unrounded. */
  function WithIva(subtotal: Money2): (r: Money)
    ensures r * 100 == subtotal * 116
    ensures subtotal >= 0 ==> r >= subtotal
  {
    subtotal + Iva(subtotal)
  }

  /** The unrounded total really carries four decimals: a 19.99 subtotal
      gives 23.1884, which no two-decimal field holds exactly. */
  lemma TotalNotRounded()
    ensures WithIva(19_9900) == 23_1884
    ensures !TwoDecimals(WithIva(19_9900))
  {
  }
}
