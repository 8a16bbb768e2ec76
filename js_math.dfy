/** The parts of JavaScript number semantics that the calculator relies on:
    `Math.round`, the falsiness of a number and the `x || 0` default. */
module JsMath {
  import opened Wrappers

  /** `Math.round`: the nearest integer, with halves rounded toward +infinity
      (so `Round(2.5) == 3` and `Round(-2.5) == -2`). The two bounds determine
      the result uniquely. */
  function Round(x: real): (r: int)
    ensures x - 0.5 < r as real <= x + 0.5
  {
    (x + 0.5).Floor
  }

  /** Rounding an integer gives it back. */
  lemma RoundOfInteger(k: int)
    ensures Round(k as real) == k
  {
  }

  /** Rounding commutes with adding an integer. */
  lemma RoundShift(x: real, k: int)
    ensures Round(x + k as real) == Round(x) + k
  {
  }

  /** Rounding is monotone. */
  lemma RoundMonotone(x: real, y: real)
    requires x <= y
    ensures Round(x) <= Round(y)
  {
  }

  /** `!x` for a number `x`: true for `NaN` and for zero. */
  predicate Falsy(x: Option<real>) {
    x.None? || x.value == 0.0
  }

  /** `x || 0`: a falsy number (NaN or zero) becomes 0, anything else is kept. */
  function OrZero(x: Option<real>): (r: real)
    ensures x.Some? ==> r == x.value
    ensures x.None? ==> r == 0.0
  {
    if Falsy(x) then 0.0 else x.value
  }

  /** The guard `!x || x <= 0` negated: the measurement is accepted. The guard
      rejects exactly NaN and the non-positive numbers. */
  predicate Positive(x: Option<real>)
    ensures Positive(x) <==> x.Some? && x.value > 0.0
  {
    !(Falsy(x) || x.value <= 0.0)
  }
}
