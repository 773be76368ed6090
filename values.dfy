/** Values held by the calculator's state cells and the two-decimal rounding
    (`toFixed(2)`) that every monetary figure goes through. */
module Values {

  /** A numeric input cell: the empty string `''` (unset) or a parsed number. */
  datatype Entry = Unset | Num(x: real)

  /** The number JavaScript's `>`, `-`, `*` and `/` see for a cell: `''` is 0. */
  function Arith(e: Entry): real
  {
    match e
    case Unset => 0.0
    case Num(x) => x
  }

  /** A figure as `toFixed(2)` prints it: a whole number of hundredths, or a
      non-finite value ("NaN", "Infinity", "-Infinity"). */
  datatype Fixed2 = Hundredths(n: int) | NonFinite

  /** `formatCurrency` (and the equal `toFixed(2)` on a number): the value,
      counted in hundredths, of the two-decimal string.  `toFixed` rounds the
      magnitude half up and puts the sign back, so ties go away from zero. */
  function FormatCurrency(x: real): (n: int)
    ensures -0.5 <= n as real - 100.0 * x <= 0.5
    ensures x >= 0.0 ==> n >= 0
    ensures x <= 0.0 ==> n <= 0
  {
    if x >= 0.0 then (100.0 * x + 0.5).Floor else -((-100.0 * x + 0.5).Floor)
  }

  /** A number that already has two decimals is printed as itself. */
  lemma FormatWhole(n: int)
    ensures FormatCurrency(n as real / 100.0) == n
  {
  }

  /** Rounding is symmetric about zero. */
  lemma FormatNegate(x: real)
    ensures FormatCurrency(-x) == -FormatCurrency(x)
  {
  }

  /** Rounding never reverses an order. */
  lemma FormatMonotone(x: real, y: real)
    requires x <= y
    ensures FormatCurrency(x) <= FormatCurrency(y)
  {
  }
}
