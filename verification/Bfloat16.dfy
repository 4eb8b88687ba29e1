/**
 Conversion between 32-bit floats and bfloat16 on bit patterns, against IEEE 754-2019, section 4.3.1,
 roundTiesToEven (`benchmarks/cpu/attention_bmm/decode_layout_traversal.cpp`).
 */
module Bfloat16 {
  import opened Indexing

  const WORD: nat := 0x1_0000_0000
  const HALF: nat := 0x1_0000
  const SIGN: nat := 0x8000_0000

  /** Magnitude bits of infinity; smaller magnitudes are finite, larger ones are NaN. */
  const INFINITY: nat := 0x7f80_0000

  /** `to_bfloat16`, with the addition wrapping at 32 bits. */
  function ToBfloat16(bits: nat): (r: nat)
    requires bits < WORD
    ensures r < HALF
  {
    var rounding := 0x7fff + (bits / HALF) % 2;
    ((bits + rounding) % WORD) / HALF
  }

  /** `from_bfloat16`: the upper half of a word. */
  function FromBfloat16(x: nat): (bits: nat)
    requires x < HALF
    ensures bits < WORD
  {
    x * HALF
  }

  /** Converting up and down again changes no bit pattern, not even that of a NaN. */
  lemma RoundTrip(x: nat)
    requires x < HALF
    ensures ToBfloat16(FromBfloat16(x)) == x
  {
  }

  // ----- the number a pattern stands for -----

  function Pow2(n: nat): nat {
    if n == 0 then 1 else 2 * Pow2(n - 1)
  }

  /**
   The number with the given magnitude bits, in units of the smallest positive float.  For the bits of
   infinity it is the number just beyond the largest finite one, where rounding overflows.
   */
  function Magnitude(m: nat): nat
    requires m <= INFINITY
  {
    var exponent, fraction := m / 0x80_0000, m % 0x80_0000;
    if exponent == 0 then fraction else (0x80_0000 + fraction) * Pow2(exponent - 1)
  }

  /** The distance from one magnitude to the next. */
  function Spacing(m: nat): nat {
    if m / 0x80_0000 == 0 then 1 else Pow2(m / 0x80_0000 - 1)
  }

  lemma {:induction false} Pow2Positive(n: nat)
    ensures Pow2(n) > 0
  {
    if n > 0 {
      Pow2Positive(n - 1);
    }
  }

  lemma SpacingPositive(m: nat)
    ensures Spacing(m) > 0
  {
    if m / 0x80_0000 > 0 {
      Pow2Positive(m / 0x80_0000 - 1);
    }
  }

  lemma NextMagnitude(m: nat)
    requires m < INFINITY
    ensures Magnitude(m + 1) == Magnitude(m) + Spacing(m)
  {
    var exponent, fraction := m / 0x80_0000, m % 0x80_0000;
    if fraction < 0x7f_ffff {
      assert (m + 1) / 0x80_0000 == exponent && (m + 1) % 0x80_0000 == fraction + 1;
      if exponent > 0 {
        Grow(0x80_0000 + fraction, Pow2(exponent - 1));
      }
    } else {
      assert (m + 1) / 0x80_0000 == exponent + 1 && (m + 1) % 0x80_0000 == 0;
      if exponent > 0 {
        Grow(0x80_0000 + fraction, Pow2(exponent - 1));
        Carry(Pow2(exponent - 1), Pow2(exponent));
      }
    }
  }

  lemma Grow(a: nat, p: nat)
    ensures (a + 1) * p == a * p + p
  {
  }

  lemma Carry(p: nat, q: nat)
    requires q == 2 * p
    ensures 0x80_0000 * q == 0x100_0000 * p
  {
  }

  /** Floats between two neighbouring bfloat16 numbers share their exponent. */
  lemma SameExponent(low: nat, d: nat)
    requires d < HALF
    ensures (low * HALF + d) / 0x80_0000 == low / 128 && (low * HALF) / 0x80_0000 == low / 128
  {
    JoinSplit(low / 128, (low % 128) * HALF + d, 0x80_0000);
    JoinSplit(low / 128, (low % 128) * HALF, 0x80_0000);
    assert low * HALF == (low / 128) * 0x80_0000 + (low % 128) * HALF;
  }

  /** Between two neighbouring bfloat16 numbers, floats are evenly spaced. */
  lemma {:induction false} EvenlySpaced(low: nat, d: nat)
    requires d <= HALF && low * HALF + d <= INFINITY
    ensures Magnitude(low * HALF + d) == Magnitude(low * HALF) + d * Spacing(low * HALF)
  {
    if d > 0 {
      EvenlySpaced(low, d - 1);
      NextMagnitude(low * HALF + (d - 1));
      SameExponent(low, d - 1);
      Grow(d - 1, Spacing(low * HALF));
    }
  }

  /** Larger magnitude bits stand for larger numbers. */
  lemma {:induction false} MagnitudeGrows(a: nat, b: nat)
    requires a <= b <= INFINITY
    ensures Magnitude(a) <= Magnitude(b) && (a < b ==> Magnitude(a) < Magnitude(b))
    decreases b - a
  {
    if a < b {
      MagnitudeGrows(a, b - 1);
      NextMagnitude(b - 1);
      SpacingPositive(b - 1);
    }
  }

  // ----- rounding -----

  function Distance(a: nat, b: nat): nat {
    if a < b then b - a else a - b
  }

  /** Magnitude bits after rounding, for any sign. */
  function RoundedMagnitude(m: nat): nat {
    (m + 0x7fff + (m / HALF) % 2) / HALF
  }

  /** A finite or infinite word is rounded without wrapping, and keeps its sign. */
  lemma RoundsMagnitude(sign: nat, m: nat)
    requires sign <= 1 && m <= INFINITY
    ensures sign * SIGN + m + 0x7fff + (m / HALF) % 2 < WORD
    ensures ToBfloat16(sign * SIGN + m) == sign * 0x8000 + RoundedMagnitude(m)
    ensures RoundedMagnitude(m) <= 0x7f80
  {
    if sign == 1 {
      assert (SIGN + m) / HALF == 0x8000 + m / HALF;
    }
  }

  /** Rounding goes to the lower or the upper neighbour: the nearer, or the even one of two equally near. */
  lemma RoundedNeighbour(m: nat, low: nat, d: nat)
    requires m == low * HALF + d && d < HALF
    ensures RoundedMagnitude(m) == if d > 0x8000 || (d == 0x8000 && low % 2 == 1) then low + 1 else low
  {
  }

  /** Which of its neighbours a number is nearer to. */
  lemma Compare(d: nat, spacing: nat, below: nat, x: nat, above: nat)
    requires spacing > 0 && d < HALF && x == below + d * spacing && above == below + HALF * spacing
    ensures below <= x < above
    ensures d <= 0x8000 ==> x - below <= above - x
    ensures d >= 0x8000 ==> above - x <= x - below
    ensures d != 0x8000 ==> x - below != above - x
  {
    assert above - x == (HALF - d) * spacing;
    More(d, HALF, spacing);
    if d < 0x8000 {
      More(d, HALF - d, spacing);
    } else if d > 0x8000 {
      More(HALF - d, d, spacing);
    }
  }

  lemma More(a: nat, b: nat, spacing: nat)
    requires a < b && spacing > 0
    ensures a * spacing < b * spacing
  {
  }

  /** Of the numbers at and beyond two neighbours, the nearer neighbour is nearest. */
  lemma NearestNeighbour(x: nat, below: nat, above: nat, other: nat, low: nat, y: nat, up: bool)
    requires below <= x < above
    requires y < low ==> other < below
    requires y == low ==> other == below
    requires y == low + 1 ==> other == above
    requires y > low + 1 ==> other > above
    requires if up then above - x <= x - below else x - below <= above - x
    ensures var r, nearest := if up then low + 1 else low, if up then above else below;
            && Distance(x, nearest) <= Distance(x, other)
            && (y != r && Distance(x, nearest) == Distance(x, other) ==> x - below == above - x)
            && 2 * Distance(x, nearest) <= above - below
  {
  }

  lemma SameBinade(m: nat, low: nat, d: nat)
    requires m == low * HALF + d && d < HALF
    ensures Spacing(m) == Spacing(low * HALF)
  {
    SameExponent(low, d);
  }

  lemma Neighbours(m: nat, low: nat, d: nat, y: nat)
    requires m == low * HALF + d < INFINITY && d < HALF && y <= 0x7f80
    ensures (low + 1) * HALF <= INFINITY
    ensures Magnitude(m) == Magnitude(low * HALF) + d * Spacing(m)
    ensures Magnitude((low + 1) * HALF) == Magnitude(low * HALF) + HALF * Spacing(m)
    ensures y < low ==> Magnitude(y * HALF) < Magnitude(low * HALF)
    ensures y > low + 1 ==> Magnitude(y * HALF) > Magnitude((low + 1) * HALF)
  {
    SameBinade(m, low, d);
    EvenlySpaced(low, d);
    EvenlySpaced(low, HALF);
    if y < low {
      MagnitudeGrows(y * HALF, low * HALF);
    } else if y > low + 1 {
      MagnitudeGrows((low + 1) * HALF, y * HALF);
    }
  }

  lemma NearestOrEven(m: nat, low: nat, d: nat, r: nat, y: nat)
    requires m == low * HALF + d < INFINITY && d < HALF && y <= 0x7f80
    requires r == if d > 0x8000 || (d == 0x8000 && low % 2 == 1) then low + 1 else low
    ensures r <= 0x7f80
    ensures Distance(Magnitude(m), Magnitude(r * HALF)) <= Distance(Magnitude(m), Magnitude(y * HALF))
    ensures Distance(Magnitude(m), Magnitude(r * HALF)) == Distance(Magnitude(m), Magnitude(y * HALF)) ==>
      y == r || r % 2 == 0
    ensures 2 * Distance(Magnitude(m), Magnitude(r * HALF)) <= HALF * Spacing(m)
  {
    Neighbours(m, low, d, y);
    SpacingPositive(m);
    var below, x, above := Magnitude(low * HALF), Magnitude(m), Magnitude((low + 1) * HALF);
    Compare(d, Spacing(m), below, x, above);
    NearestNeighbour(x, below, above, Magnitude(y * HALF), low, y, r == low + 1);
  }

  /**
   The result is a bfloat16 number nearest to the float, and the even one when two are equally near;
   the error is at most half the distance between neighbouring bfloat16 numbers.
   */
  lemma RoundsToNearestEven(m: nat, r: nat, y: nat)
    requires m < INFINITY && r == RoundedMagnitude(m) && y <= 0x7f80
    ensures r <= 0x7f80
    ensures Distance(Magnitude(m), Magnitude(r * HALF)) <= Distance(Magnitude(m), Magnitude(y * HALF))
    ensures Distance(Magnitude(m), Magnitude(r * HALF)) == Distance(Magnitude(m), Magnitude(y * HALF)) ==>
      y == r || r % 2 == 0
    ensures 2 * Distance(Magnitude(m), Magnitude(r * HALF)) <= HALF * Spacing(m)
  {
    RoundedNeighbour(m, m / HALF, m % HALF);
    NearestOrEven(m, m / HALF, m % HALF, r, y);
  }

  /** A larger magnitude never rounds to a smaller one. */
  lemma RoundingIsMonotone(m: nat, m': nat)
    requires m <= m'
    ensures RoundedMagnitude(m) <= RoundedMagnitude(m')
  {
  }

  // ----- infinities and NaNs -----

  predicate IsNan(bits: nat) { bits % SIGN > INFINITY }

  predicate IsBfloatNan(x: nat) { x % 0x8000 > 0x7f80 }

  /** All ones in the exponent and something in the fraction: in a float, and in its upper half. */
  lemma NansAreNans(bits: nat, x: nat)
    requires bits < WORD && x < HALF
    ensures IsNan(bits) <==> bits / 0x80_0000 % 256 == 255 && bits % 0x80_0000 != 0
    ensures IsBfloatNan(x) <==> x / 0x80 % 256 == 255 && x % 0x80 != 0
  {
  }

  /** Infinities stay infinities of the same sign. */
  lemma InfinityKept(sign: nat)
    requires sign <= 1
    ensures ToBfloat16(sign * SIGN + INFINITY) == sign * 0x8000 + 0x7f80
  {
  }

  /**
   A NaN does not always stay one: with small payload bits it becomes an infinity, with the largest
   ones the addition carries into the sign and leaves a zero.
   */
  lemma NanKept(bits: nat)
    requires bits < WORD && IsNan(bits)
    ensures IsBfloatNan(ToBfloat16(bits)) <==> 0x7f80_8000 < bits % SIGN < 0x7fff_8000
  {
  }

  /** Three words: one NaN that becomes an infinity, two that become a zero of the other sign. */
  lemma NansLost()
    ensures IsNan(0x7f80_0001) && ToBfloat16(0x7f80_0001) == 0x7f80
    ensures IsNan(0x7fff_ffff) && ToBfloat16(0x7fff_ffff) == 0x8000
    ensures IsNan(0xffff_ffff) && ToBfloat16(0xffff_ffff) == 0
  {
  }
}
