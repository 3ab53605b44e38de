/** Small facts about real numbers used throughout the model. */
module Reals {

  function Abs(x: real): real { if x < 0.0 then -x else x }
  function Min(a: real, b: real): real { if a <= b then a else b }
  function Max(a: real, b: real): real { if a <= b then b else a }

  /** Multiplying by a non-negative factor keeps the order. */
  lemma MulMonotone(a: real, b: real, c: real)
    requires a >= 0.0 && b <= c
    ensures a * b <= a * c
  {
  }

  /** Dividing by a positive divisor keeps the order and the sign. */
  lemma DivMonotone(a: real, b: real, c: real)
    requires 0.0 < a <= b && c > 0.0
    ensures 0.0 < a / c <= b / c
  {
  }
}
