/**
 Exponentials of scores that are whole multiples of one unit: with `base` the exponential of the
 unit, `Pow(base, n)` is the exponential of `n` units.  Every finite floating-point score is such a
 multiple, so this covers them all, and the law of exponents is proved instead of assumed.
 */
module Exponentials {
  import opened Reals

  function PowNat(x: real, n: nat): real {
    if n == 0 then 1.0 else x * PowNat(x, n - 1)
  }

  function Pow(base: real, n: int): real
    requires base > 0.0
  {
    if n >= 0 then PowNat(base, n) else PowNat(Inverse(base), -n)
  }

  function Inverse(x: real): (y: real)
    requires x > 0.0
    ensures x * y == 1.0 && y > 0.0
  {
    1.0 / x
  }

  lemma {:induction false} PowNatPositive(x: real, n: nat)
    requires x > 0.0
    ensures PowNat(x, n) > 0.0
  {
    if n > 0 {
      PowNatPositive(x, n - 1);
      Positive(x, PowNat(x, n - 1));
    }
  }

  lemma {:induction false} PowNatSum(x: real, m: nat, n: nat, k: nat)
    requires k == m + n
    ensures PowNat(x, k) == PowNat(x, m) * PowNat(x, n)
    decreases n
  {
    if n > 0 {
      PowNatSum(x, m, n - 1, k - 1);
      Reorder(x, PowNat(x, m), PowNat(x, n - 1));
    }
  }

  lemma Reorder(x: real, y: real, z: real)
    ensures x * (y * z) == y * (x * z)
  {
  }

  datatype Exponential = Exponential(expOp: int -> real) {

    function At(n: int): real { expOp(n) }

    /** Positive, one at zero, and turning sums into products. */
    ghost predicate Lawful() {
      && (forall n :: At(n) > 0.0)
      && At(0) == 1.0
      && forall a, b, c {:trigger AddsUp(a, b, c)} :: AddsUp(a, b, c) ==> At(c) == At(a) * At(b)
    }
  }

  predicate AddsUp(a: int, b: int, c: int) {
    c == a + b
  }

  /** The powers of any positive base are an exponential. */
  lemma PowIsLawful(base: real)
    requires base > 0.0
    ensures Exponential((n: int) => Pow(base, n)).Lawful()
  {
    var exp := Exponential((n: int) => Pow(base, n));
    forall n: int
      ensures exp.At(n) > 0.0
    {
      PowPositive(base, n);
    }
    forall a: int, b: int, c: int {:trigger AddsUp(a, b, c)} | AddsUp(a, b, c)
      ensures exp.At(c) == exp.At(a) * exp.At(b)
    {
      PowSum(base, a, b, c);
    }
    assert exp.At(0) == 1.0 by {
      assert exp.At(0) == Pow(base, 0) == PowNat(base, 0);
    }
  }

  lemma PowPositive(base: real, n: int)
    requires base > 0.0
    ensures Pow(base, n) > 0.0
  {
    if n >= 0 {
      PowNatPositive(base, n);
    } else {
      PowNatPositive(Inverse(base), -n);
    }
  }

  /** Exponentials turn sums of scores into products. */
  lemma PowSum(base: real, a: int, b: int, c: int)
    requires base > 0.0 && c == a + b
    ensures Pow(base, c) == Pow(base, a) * Pow(base, b)
  {
    if a >= 0 && b >= 0 {
      PowNatSum(base, a, b, c);
    } else if a < 0 && b < 0 {
      PowNatSum(Inverse(base), -a, -b, -c);
    } else if a >= 0 {
      MixedSum(base, a, b, c);
    } else {
      MixedSum(base, b, a, c);
    }
  }

  /** A positive and a negative power: the smaller is absorbed by the larger. */
  lemma MixedSum(base: real, up: int, down: int, c: int)
    requires base > 0.0 && c == up + down && up >= 0 > down
    ensures Pow(base, c) == Pow(base, up) * Pow(base, down)
  {
    if c >= 0 {
      Absorb(base, Inverse(base), c, -down, up);
    } else {
      Absorb(Inverse(base), base, -c, up, -down);
    }
  }

  /** `d` factors of `y` take `d` factors of `x` away. */
  lemma {:induction false} Absorb(x: real, y: real, c: nat, d: nat, k: nat)
    requires x * y == 1.0 && k == c + d
    ensures PowNat(x, k) * PowNat(y, d) == PowNat(x, c)
    decreases d
  {
    if d > 0 {
      Absorb(x, y, c, d - 1, k - 1);
      Annihilate(x, y, PowNat(x, k - 1), PowNat(y, d - 1));
    }
  }

  lemma Annihilate(x: real, y: real, p: real, q: real)
    requires x * y == 1.0
    ensures (x * p) * (y * q) == p * q
  {
    assert (x * p) * (y * q) == (x * y) * (p * q);
  }
}
