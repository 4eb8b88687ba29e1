/** Sums of real numbers, and the products they are scaled with. */
module Reals {

  /** The first `n` numbers added up. */
  function Sum(values: seq<real>, n: nat): real
    requires n <= |values|
  {
    if n == 0 then 0.0 else Sum(values, n - 1) + values[n - 1]
  }

  lemma Distribute(a: real, b: real, c: real)
    ensures a * c + b * c == (a + b) * c
  {
  }

  lemma Positive(x: real, y: real)
    requires x > 0.0 && y > 0.0
    ensures x * y > 0.0
  {
  }
}
