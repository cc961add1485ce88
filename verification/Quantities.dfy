/** Kubernetes quantities, held as integer counts of milli-units. */
module Quantities {

  /** Go's integer division, which truncates towards zero, for a positive divisor. */
  function GoDiv(a: int, b: int): int
    requires b > 0
  {
    if a >= 0 then a / b else -((-a) / b)
  }

  /** `Quantity.Value`: whole units, rounded up away from zero. */
  function Value(q: int): int {
    if q >= 0 then (q + 999) / 1000 else -((-q + 999) / 1000)
  }

  lemma ValueRoundsUp(q: nat)
    ensures q <= Value(q) * 1000 < q + 1000
  {
  }

  function Max(a: int, b: int): int {
    if b > a then b else a
  }
}
