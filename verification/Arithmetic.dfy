/** Percentages as Aave V3 rounds them, and the few facts about products and quotients that proofs share. */
module Arithmetic {
  /** `percentMul`, in basis points, half up. */
  function PercentMul(value: nat, bps: nat): nat {
    (value * bps + 5000) / 10000
  }

  /** `percentDiv`, in basis points, half up. */
  function PercentDiv(value: nat, bps: nat): nat
    requires bps > 0
  {
    (value * 10000 + bps / 2) / bps
  }

  lemma {:induction false} MulMono(a: int, b: int, k: nat)
    requires a <= b
    ensures a * k <= b * k
  {
  }

  lemma {:induction false} MulMonoIf(a: int, b: int, k: nat)
    ensures a <= b ==> a * k <= b * k
  {
  }

  lemma {:induction false} DivBounds(x: nat, d: nat)
    requires d > 0
    ensures (x / d) * d <= x < (x / d) * d + d
  {
  }

  /** Both roundings go to the nearest, halves up. */
  lemma {:induction false} PercentMulNearest(value: nat, bps: nat)
    ensures 10000 * PercentMul(value, bps) - 5000 <= value * bps < 10000 * PercentMul(value, bps) + 5000
  {
  }

  lemma {:induction false} PercentDivNearest(value: nat, bps: nat)
    requires bps > 0
    ensures PercentDiv(value, bps) * bps - bps / 2 <= value * 10000 < PercentDiv(value, bps) * bps + bps - bps / 2
  {
    DivBounds(value * 10000 + bps / 2, bps);
  }
}
