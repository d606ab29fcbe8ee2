/** Quantized money. Amounts are counted in micro-dollars, the quantum `0.000001` of every
    `_USD_QUANTUM` and of the `NUMERIC(12,6)` ledger columns; a value that is not yet
    quantized is a real number of micro-dollars. */
module Money {

  /** `Decimal.quantize(..., ROUND_HALF_UP)`: ties go away from zero. */
  function RoundHalfUp(x: real): (n: int)
    ensures n as real - 0.5 <= x <= n as real + 0.5
    ensures x >= 0.0 ==> 0 <= n && x < n as real + 0.5
    ensures x <= 0.0 ==> n <= 0 && n as real - 0.5 < x
  {
    if x >= 0.0 then (x + 0.5).Floor else -((0.5 - x).Floor)
  }

  lemma RoundMonotone(x: real, y: real)
    requires x <= y
    ensures RoundHalfUp(x) <= RoundHalfUp(y)
  {
  }

  lemma RoundExactOnGrid(n: int)
    ensures RoundHalfUp(n as real) == n
  {
  }

  /** Adding a whole number of quanta commutes with rounding a non-negative amount. */
  lemma RoundShift(n: nat, x: real)
    requires x >= 0.0
    ensures RoundHalfUp(n as real + x) == n + RoundHalfUp(x)
  {
  }

  /** True when `x` is already a whole number of quanta. */
  predicate OnGrid(x: real) {
    x == x.Floor as real
  }
}
