/**
 The rotary embedding's three ways of rotating a head, and its cache rows, in exact arithmetic
 (`pace/ops/rotary_embedding.py`).

 Row `m` of the cache holds, for every frequency, the `m`-th power of a number on the unit circle,
 which is the cosine and sine of `m` times its angle.
 */
module RotaryEmbeddings {
  import opened Reals

  /** Cosines and sines of one position, one of each for every frequency. */
  datatype CacheRow = CacheRow(cos: seq<real>, sin: seq<real>) {
    predicate Fits(half: nat) { |cos| == |sin| == half }
  }

  // ----- the three ways -----

  /** The two halves of a head, rotated against each other and joined again. */
  function Neox(x: seq<real>, row: CacheRow): (r: seq<real>)
    requires |x| == 2 * |row.cos| && row.Fits(|row.cos|)
    ensures |r| == |x|
  {
    var h := |row.cos|;
    seq(h, i requires 0 <= i < h => x[i] * row.cos[i] - x[h + i] * row.sin[i])
    + seq(h, i requires 0 <= i < h => x[h + i] * row.cos[i] + x[i] * row.sin[i])
  }

  /** Neighbouring elements, rotated against each other in place. */
  function Interleaved(x: seq<real>, row: CacheRow): (r: seq<real>)
    requires |x| == 2 * |row.cos| && row.Fits(|row.cos|)
    ensures |r| == |x|
  {
    seq(|x|, j requires 0 <= j < |x| =>
      var i := j / 2;
      if j % 2 == 0 then x[2 * i] * row.cos[i] - x[2 * i + 1] * row.sin[i]
      else x[2 * i + 1] * row.cos[i] + x[2 * i] * row.sin[i])
  }

  /** Every pair of neighbours is rotated in place: the even element first, the odd one after it. */
  lemma InterleavedAt(x: seq<real>, row: CacheRow, i: nat)
    requires |x| == 2 * |row.cos| && row.Fits(|row.cos|) && i < |row.cos|
    ensures Interleaved(x, row)[2 * i] == x[2 * i] * row.cos[i] - x[2 * i + 1] * row.sin[i]
    ensures Interleaved(x, row)[2 * i + 1] == x[2 * i + 1] * row.cos[i] + x[2 * i] * row.sin[i]
  {
    assert (2 * i) / 2 == i && (2 * i + 1) / 2 == i && (2 * i) % 2 == 0 && (2 * i + 1) % 2 == 1;
  }

  /** `_rotate_neox`: the second half negated, then the first. */
  function RotateHalves(x: seq<real>): (r: seq<real>)
    ensures |r| == |x|
  {
    var h := |x| / 2;
    seq(|x| - h, i requires 0 <= i < |x| - h => -x[h + i]) + x[..h]
  }

  /** Cosines and sines repeated for both halves; elements behind `rotaryDim` pass through. */
  function Longrope(x: seq<real>, row: CacheRow, rotaryDim: nat): (r: seq<real>)
    requires rotaryDim <= |x| && rotaryDim == 2 * |row.cos| && row.Fits(|row.cos|)
    ensures |r| == |x|
  {
    var rotated, turned := x[..rotaryDim], RotateHalves(x[..rotaryDim]);
    var cos, sin := row.cos + row.cos, row.sin + row.sin;
    seq(rotaryDim, i requires 0 <= i < rotaryDim => rotated[i] * cos[i] + turned[i] * sin[i]) + x[rotaryDim..]
  }

  /** When the whole head is rotated, the longrope branch computes what the neox branch does. */
  lemma LongropeIsNeox(x: seq<real>, row: CacheRow)
    requires |x| == 2 * |row.cos| && row.Fits(|row.cos|)
    ensures Longrope(x, row, |x|) == Neox(x, row)
  {
    var h := |row.cos|;
    var a, b := Longrope(x, row, |x|), Neox(x, row);
    assert x[..|x|] == x;
    forall i | 0 <= i < |x|
      ensures a[i] == b[i]
    {
      if i < h {
        assert RotateHalves(x)[i] == -x[h + i];
        Negate(x[h + i], row.sin[i]);
      } else {
        assert RotateHalves(x)[i] == x[i - h];
      }
    }
  }

  lemma Negate(a: real, b: real)
    ensures (-a) * b == -(a * b)
  {
  }

  /** And otherwise only the first part is rotated. */
  lemma LongropeIsPartial(x: seq<real>, row: CacheRow, rotaryDim: nat)
    requires rotaryDim <= |x| && rotaryDim == 2 * |row.cos| && row.Fits(|row.cos|)
    ensures Longrope(x, row, rotaryDim) == Neox(x[..rotaryDim], row) + x[rotaryDim..]
  {
    LongropeIsNeox(x[..rotaryDim], row);
    assert x[..rotaryDim][..rotaryDim] == x[..rotaryDim];
  }

  /** Even elements first, then odd ones; and back. */
  function Deinterleave(x: seq<real>): (r: seq<real>)
    requires |x| % 2 == 0
    ensures |r| == |x|
  {
    var h := |x| / 2;
    seq(|x|, i requires 0 <= i < |x| => if i < h then x[2 * i] else x[2 * (i - h) + 1])
  }

  function Interleave(x: seq<real>): (r: seq<real>)
    requires |x| % 2 == 0
    ensures |r| == |x|
  {
    var h := |x| / 2;
    seq(|x|, j requires 0 <= j < |x| => if j % 2 == 0 then x[j / 2] else x[h + j / 2])
  }

  lemma DeinterleaveInterleave(x: seq<real>)
    requires |x| % 2 == 0
    ensures Interleave(Deinterleave(x)) == x && Deinterleave(Interleave(x)) == x
  {
    var h := |x| / 2;
    var y, z := Interleave(Deinterleave(x)), Deinterleave(Interleave(x));
    forall j | 0 <= j < |x|
      ensures y[j] == x[j] && z[j] == x[j]
    {
      assert 2 * (j / 2) + j % 2 == j;
      if j >= h {
        assert (2 * (j - h) + 1) / 2 == j - h;
      }
    }
  }

  /** The interleaved branch is the neox branch between the two permutations. */
  lemma InterleavedIsNeox(x: seq<real>, row: CacheRow)
    requires |x| == 2 * |row.cos| && row.Fits(|row.cos|)
    ensures Interleaved(x, row) == Interleave(Neox(Deinterleave(x), row))
  {
    var h := |row.cos|;
    var d := Deinterleave(x);
    var a, b := Interleaved(x, row), Interleave(Neox(d, row));
    forall j | 0 <= j < |x|
      ensures a[j] == b[j]
    {
      var i := j / 2;
      assert d[i] == x[2 * i] && d[h + i] == x[2 * i + 1];
      if j % 2 == 0 {
        assert b[j] == Neox(d, row)[i];
      } else {
        assert b[j] == Neox(d, row)[h + i];
      }
    }
  }

  // ----- dot products -----

  function Products(x: seq<real>, y: seq<real>): (p: seq<real>)
    requires |x| == |y|
    ensures |p| == |x|
  {
    seq(|x|, i requires 0 <= i < |x| => x[i] * y[i])
  }

  function Dot(x: seq<real>, y: seq<real>): real
    requires |x| == |y|
  {
    Sum(Products(x, y), |x|)
  }

  predicate PairScaled(p: seq<real>, q: seq<real>, scale: real, h: nat, i: nat)
    requires i < h && |p| == |q| == 2 * h
  {
    q[i] + q[h + i] == scale * (p[i] + p[h + i])
  }

  ghost predicate PairsScaled(p: seq<real>, q: seq<real>, scale: real, h: nat) {
    |p| == |q| == 2 * h && forall i: nat :: i < h ==> PairScaled(p, q, scale, h, i)
  }

  /** The first `n` elements of both halves added up. */
  function BothHalves(p: seq<real>, h: nat, n: nat): real
    requires h + n <= |p| && n <= h
  {
    Sum(p, n) + (Sum(p, h + n) - Sum(p, h))
  }

  lemma NextPair(p: seq<real>, h: nat, n: nat, m: nat)
    requires h + m <= |p| && m <= h && m == n + 1
    ensures BothHalves(p, h, m) == BothHalves(p, h, n) + (p[n] + p[h + n])
  {
  }

  /** If every pair of the two halves is scaled, so is the total. */
  lemma {:induction false} PairsScale(p: seq<real>, q: seq<real>, scale: real, h: nat, n: nat)
    requires n <= h && PairsScaled(p, q, scale, h)
    ensures BothHalves(q, h, n) == scale * BothHalves(p, h, n)
  {
    if n > 0 {
      PairsScale(p, q, scale, h, n - 1);
      var before, pair := BothHalves(p, h, n - 1), p[n - 1] + p[h + (n - 1)];
      assert PairScaled(p, q, scale, h, n - 1);
      NextPair(p, h, n - 1, n);
      NextPair(q, h, n - 1, n);
      hide BothHalves;
      ScaleSum(scale, before, pair, BothHalves(p, h, n));
    }
  }

  lemma ScaleSum(scale: real, a: real, b: real, sum: real)
    requires sum == a + b
    ensures scale * sum == scale * a + scale * b
  {
    Distribute(a, b, scale);
  }

  /** Rotating two pairs by the same angle scales their dot product by the squared length of the row. */
  lemma PairRotation(a: real, b: real, a': real, b': real, c: real, s: real)
    ensures (a * c - b * s) * (a' * c - b' * s) + (b * c + a * s) * (b' * c + a' * s)
            == (c * c + s * s) * (a * a' + b * b')
  {
    var p, q := a * c - b * s, b * c + a * s;
    assert p * (a' * c - b' * s) == p * (a' * c) - p * (b' * s);
    assert q * (b' * c + a' * s) == q * (b' * c) + q * (a' * s);
    Expand(p, q, a', b', c, s);
    assert p * c + q * s == a * (c * c + s * s) by {
      assert p * c == a * (c * c) - b * (s * c);
      assert q * s == b * (c * s) + a * (s * s);
    }
    assert q * c - p * s == b * (c * c + s * s) by {
      assert q * c == b * (c * c) + a * (s * c);
      assert p * s == a * (c * s) - b * (s * s);
    }
    Collect(a, b, a', b', c * c + s * s);
  }

  lemma Expand(p: real, q: real, a: real, b: real, c: real, s: real)
    ensures p * (a * c) - p * (b * s) + (q * (b * c) + q * (a * s)) == (p * c + q * s) * a + (q * c - p * s) * b
  {
    assert (p * c + q * s) * a == p * (a * c) + q * (a * s);
    assert (q * c - p * s) * b == q * (b * c) - p * (b * s);
  }

  lemma Collect(a: real, b: real, a': real, b': real, k: real)
    ensures (a * k) * a' + (b * k) * b' == k * (a * a' + b * b')
  {
  }

  /** Every frequency of a row has the same squared length. */
  ghost predicate HasLength(row: CacheRow, squared: real) {
    row.Fits(|row.cos|) && forall i :: 0 <= i < |row.cos| ==>
      row.cos[i] * row.cos[i] + row.sin[i] * row.sin[i] == squared
  }

  lemma HalvesScale(x: seq<real>, y: seq<real>, row: CacheRow, squared: real, h: nat)
    requires |x| == |y| == 2 * h && h == |row.cos| && HasLength(row, squared)
    ensures PairsScaled(Products(x, y), Products(Neox(x, row), Neox(y, row)), squared, h)
  {
    forall i: nat | i < h
      ensures PairScaled(Products(x, y), Products(Neox(x, row), Neox(y, row)), squared, h, i)
    {
      PairScales(x, y, row, squared, i);
    }
  }

  /** Rotating two heads by the same row scales their dot product by the squared length of the row. */
  lemma DotScales(x: seq<real>, y: seq<real>, row: CacheRow, squared: real)
    requires |x| == |y| == 2 * |row.cos| && HasLength(row, squared)
    ensures Dot(Neox(x, row), Neox(y, row)) == squared * Dot(x, y)
  {
    var h := |row.cos|;
    HalvesScale(x, y, row, squared, h);
    PairsScale(Products(x, y), Products(Neox(x, row), Neox(y, row)), squared, h, h);
  }

  lemma PairScales(x: seq<real>, y: seq<real>, row: CacheRow, squared: real, i: nat)
    requires |x| == |y| == 2 * |row.cos| && HasLength(row, squared) && i < |row.cos|
    ensures PairScaled(Products(x, y), Products(Neox(x, row), Neox(y, row)), squared, |row.cos|, i)
  {
    var h := |row.cos|;
    PairRotation(x[i], x[h + i], y[i], y[h + i], row.cos[i], row.sin[i]);
  }

  // ----- the cache -----

  /** Cosine and sine of `m` times an angle whose cosine and sine are `c` and `s`. */
  function Cos(c: real, s: real, m: nat): real {
    if m == 0 then 1.0 else Cos(c, s, m - 1) * c - Sin(c, s, m - 1) * s
  }

  function Sin(c: real, s: real, m: nat): real {
    if m == 0 then 0.0 else Sin(c, s, m - 1) * c + Cos(c, s, m - 1) * s
  }

  /** All frequencies: one angle each, given by its cosine and sine. */
  datatype Angles = Angles(cos: seq<real>, sin: seq<real>) {
    ghost predicate Valid() {
      |cos| == |sin| && forall i :: 0 <= i < |cos| ==> cos[i] * cos[i] + sin[i] * sin[i] == 1.0
    }

    /** Cache row of position `m`, times the scaling factor. */
    function Row(m: nat, factor: real): (row: CacheRow)
      requires |cos| == |sin|
      ensures row.Fits(|cos|)
    {
      CacheRow(seq(|cos|, i requires 0 <= i < |cos| => Cos(cos[i], sin[i], m) * factor),
               seq(|cos|, i requires 0 <= i < |cos| => Sin(cos[i], sin[i], m) * factor))
    }
  }

  /** The first position is not turned at all, only scaled. */
  lemma RowZero(angles: Angles, factor: real, i: nat)
    requires |angles.cos| == |angles.sin| && i < |angles.cos|
    ensures angles.Row(0, factor).cos[i] == factor && angles.Row(0, factor).sin[i] == 0.0
  {
  }

  /** Multiplying two numbers on the plane multiplies their squared lengths. */
  lemma LengthsMultiply(a: real, b: real, c: real, s: real)
    ensures (a * c - b * s) * (a * c - b * s) + (b * c + a * s) * (b * c + a * s)
            == (c * c + s * s) * (a * a + b * b)
  {
    PairRotation(a, b, a, b, c, s);
  }

  lemma {:induction false} PowersAreUnit(c: real, s: real, m: nat)
    requires c * c + s * s == 1.0
    ensures Cos(c, s, m) * Cos(c, s, m) + Sin(c, s, m) * Sin(c, s, m) == 1.0
  {
    if m > 0 {
      PowersAreUnit(c, s, m - 1);
      LengthsMultiply(Cos(c, s, m - 1), Sin(c, s, m - 1), c, s);
    }
  }

  lemma ScaledLength(a: real, b: real, f: real)
    requires a * a + b * b == 1.0
    ensures (a * f) * (a * f) + (b * f) * (b * f) == f * f
  {
    assert (a * f) * (a * f) == (a * a) * (f * f);
    assert (b * f) * (b * f) == (b * b) * (f * f);
    assert (a * a) * (f * f) + (b * b) * (f * f) == (a * a + b * b) * (f * f);
  }

  lemma RowLength(angles: Angles, m: nat, factor: real)
    requires angles.Valid()
    ensures HasLength(angles.Row(m, factor), factor * factor)
  {
    forall i | 0 <= i < |angles.cos|
      ensures angles.Row(m, factor).cos[i] * angles.Row(m, factor).cos[i]
              + angles.Row(m, factor).sin[i] * angles.Row(m, factor).sin[i] == factor * factor
    {
      PowersAreUnit(angles.cos[i], angles.sin[i], m);
      ScaledLength(Cos(angles.cos[i], angles.sin[i], m), Sin(angles.cos[i], angles.sin[i], m), factor);
    }
  }

  /** Every cache row scales squared norms by the square of the scaling factor: it keeps them when that is one. */
  lemma NormScales(angles: Angles, m: nat, factor: real, x: seq<real>)
    requires angles.Valid() && |x| == 2 * |angles.cos|
    ensures Dot(Neox(x, angles.Row(m, factor)), Neox(x, angles.Row(m, factor))) == (factor * factor) * Dot(x, x)
  {
    RowLength(angles, m, factor);
    DotScales(x, x, angles.Row(m, factor), factor * factor);
  }

  /** Turning by one angle and then by another is turning by their product. */
  lemma TurnsCompose(a: real, b: real, c: real, s: real, p: real, q: real, c': real, s': real, cn: real, sn: real)
    requires p == a * c - b * s && q == b * c + a * s
    requires cn == c * c' - s * s' && sn == s * c' + c * s'
    ensures p * c' - q * s' == a * cn - b * sn
    ensures q * c' + p * s' == b * cn + a * sn
  {
    assert a * cn == a * (c * c') - a * (s * s');
    assert b * cn == b * (c * c') - b * (s * s');
    assert a * sn == a * (s * c') + a * (c * s');
    assert b * sn == b * (s * c') + b * (c * s');
    Spread(a, c, b, s, c');
    Spread(b, c, a, s, s');
    Spread(b, c, a, s, c');
    Spread(a, c, b, s, s');
  }

  lemma Spread(a: real, c: real, b: real, s: real, t: real)
    ensures (a * c - b * s) * t == a * (c * t) - b * (s * t)
    ensures (a * c + b * s) * t == a * (c * t) + b * (s * t)
  {
  }

  /** The two elements of a rotated pair. */
  lemma NeoxAt(x: seq<real>, row: CacheRow, i: nat)
    requires |x| == 2 * |row.cos| && row.Fits(|row.cos|) && i < |row.cos|
    ensures Neox(x, row)[i] == x[i] * row.cos[i] - x[|row.cos| + i] * row.sin[i]
    ensures Neox(x, row)[|row.cos| + i] == x[|row.cos| + i] * row.cos[i] + x[i] * row.sin[i]
  {
  }

  lemma ScaledTurn(cm: real, sm: real, c: real, s: real, f: real)
    ensures (cm * c - sm * s) * f == (cm * f) * c - (sm * f) * s
    ensures (sm * c + cm * s) * f == (sm * f) * c + (cm * f) * s
  {
    assert (cm * c) * f == (cm * f) * c && (sm * s) * f == (sm * f) * s;
    assert (sm * c) * f == (sm * f) * c && (cm * s) * f == (cm * f) * s;
  }

  /** The next row is the row before it, turned once more. */
  lemma RowNext(angles: Angles, m: nat, factor: real, i: nat)
    requires |angles.cos| == |angles.sin| && i < |angles.cos|
    ensures var row, next := angles.Row(m, factor), angles.Row(m + 1, factor);
            && next.cos[i] == row.cos[i] * angles.cos[i] - row.sin[i] * angles.sin[i]
            && next.sin[i] == row.sin[i] * angles.cos[i] + row.cos[i] * angles.sin[i]
  {
    var c, s := angles.cos[i], angles.sin[i];
    ScaledTurn(Cos(c, s, m), Sin(c, s, m), c, s, factor);
  }

  lemma FirstRow(angles: Angles, i: nat)
    requires |angles.cos| == |angles.sin| && i < |angles.cos|
    ensures angles.Row(1, 1.0).cos[i] == angles.cos[i] && angles.Row(1, 1.0).sin[i] == angles.sin[i]
  {
    var c, s := angles.cos[i], angles.sin[i];
    assert Cos(c, s, 0) == 1.0 && Sin(c, s, 0) == 0.0;
  }

  lemma NextElement(x: seq<real>, y: seq<real>, row: CacheRow, next: CacheRow, once: CacheRow, i: nat)
    requires |x| == |y| == 2 * |row.cos| && row.Fits(|row.cos|) && next.Fits(|row.cos|) && once.Fits(|row.cos|)
    requires i < |row.cos| && y[i] == Neox(x, row)[i] && y[|row.cos| + i] == Neox(x, row)[|row.cos| + i]
    requires next.cos[i] == row.cos[i] * once.cos[i] - row.sin[i] * once.sin[i]
    requires next.sin[i] == row.sin[i] * once.cos[i] + row.cos[i] * once.sin[i]
    ensures Neox(x, next)[i] == Neox(y, once)[i]
    ensures Neox(x, next)[|row.cos| + i] == Neox(y, once)[|row.cos| + i]
  {
    hide Neox;
    var h := |row.cos|;
    NeoxAt(x, row, i);
    NeoxAt(x, next, i);
    NeoxAt(y, once, i);
    TurnsCompose(x[i], x[h + i], row.cos[i], row.sin[i], y[i], y[h + i], once.cos[i], once.sin[i],
                 next.cos[i], next.sin[i]);
  }

  /** Moving on by one position is one more turn by the angles themselves. */
  lemma NextPosition(angles: Angles, m: nat, factor: real, x: seq<real>)
    requires |angles.cos| == |angles.sin| && |x| == 2 * |angles.cos|
    ensures Neox(x, angles.Row(m + 1, factor)) == Neox(Neox(x, angles.Row(m, factor)), angles.Row(1, 1.0))
  {
    hide Neox;
    var h := |angles.cos|;
    var row, next, once := angles.Row(m, factor), angles.Row(m + 1, factor), angles.Row(1, 1.0);
    forall j | 0 <= j < |x|
      ensures Neox(x, next)[j] == Neox(Neox(x, row), once)[j]
    {
      var i := if j < h then j else j - h;
      RowNext(angles, m, factor, i);
      FirstRow(angles, i);
      NextElement(x, Neox(x, row), row, next, once, i);
    }
  }

  /** Moving a query and a key on together keeps their dot product. */
  lemma ShiftOnce(angles: Angles, factor: real, q: seq<real>, k: seq<real>, m: nat, n: nat)
    requires angles.Valid() && |q| == |k| == 2 * |angles.cos|
    ensures Dot(Neox(q, angles.Row(m + 1, factor)), Neox(k, angles.Row(n + 1, factor)))
            == Dot(Neox(q, angles.Row(m, factor)), Neox(k, angles.Row(n, factor)))
  {
    NextPosition(angles, m, factor, q);
    NextPosition(angles, n, factor, k);
    RowLength(angles, 1, 1.0);
    DotScales(Neox(q, angles.Row(m, factor)), Neox(k, angles.Row(n, factor)), angles.Row(1, 1.0), 1.0);
  }

  /** The dot product of a rotated query and a rotated key depends only on how far apart they are. */
  lemma {:induction false} OnlyDistanceMatters(angles: Angles, factor: real, q: seq<real>, k: seq<real>,
                                               m: nat, n: nat, m': nat, n': nat)
    requires angles.Valid() && |q| == |k| == 2 * |angles.cos|
    requires m' - m == n' - n
    ensures Dot(Neox(q, angles.Row(m', factor)), Neox(k, angles.Row(n', factor)))
            == Dot(Neox(q, angles.Row(m, factor)), Neox(k, angles.Row(n, factor)))
    decreases if m' >= m then m' - m else m - m'
  {
    hide *;
    if m' > m {
      OnlyDistanceMatters(angles, factor, q, k, m, n, m' - 1, n' - 1);
      ShiftOnce(angles, factor, q, k, m' - 1, n' - 1);
    } else if m' < m {
      OnlyDistanceMatters(angles, factor, q, k, m - 1, n - 1, m', n');
      ShiftOnce(angles, factor, q, k, m - 1, n - 1);
    }
  }

  // ----- the same of the other two ways -----

  lemma ProductsInterleave(x: seq<real>, y: seq<real>)
    requires |x| == |y| && |x| % 2 == 0
    ensures Products(Interleave(x), Interleave(y)) == Interleave(Products(x, y))
  {
    var a, b := Products(Interleave(x), Interleave(y)), Interleave(Products(x, y));
    forall j | 0 <= j < |x|
      ensures a[j] == b[j]
    {
    }
  }

  /** Interleaving keeps a sum: two elements at a time, one of each half. */
  lemma {:induction false} SumInterleave(p: seq<real>, h: nat, n: nat)
    requires |p| == 2 * h && n <= h
    ensures Sum(Interleave(p), 2 * n) == BothHalves(p, h, n)
  {
    if n > 0 {
      SumInterleave(p, h, n - 1);
      NextPair(p, h, n - 1, n);
      var w, k := Interleave(p), 2 * (n - 1);
      assert w[k] == p[n - 1] && w[k + 1] == p[h + (n - 1)];
      assert Sum(w, k + 2) == Sum(w, k + 1) + w[k + 1] == Sum(w, k) + w[k] + w[k + 1];
    }
  }

  lemma DotInterleave(x: seq<real>, y: seq<real>)
    requires |x| == |y| && |x| % 2 == 0
    ensures Dot(Interleave(x), Interleave(y)) == Dot(x, y)
  {
    ProductsInterleave(x, y);
    SumInterleave(Products(x, y), |x| / 2, |x| / 2);
  }

  lemma DotDeinterleave(x: seq<real>, y: seq<real>)
    requires |x| == |y| && |x| % 2 == 0
    ensures Dot(Deinterleave(x), Deinterleave(y)) == Dot(x, y)
  {
    DeinterleaveInterleave(x);
    DeinterleaveInterleave(y);
    DotInterleave(Deinterleave(x), Deinterleave(y));
  }

  /** Dot products of heads rotated in place are those of the neox branch on the even and odd elements. */
  lemma DotInterleaved(x: seq<real>, y: seq<real>, row: CacheRow, row': CacheRow)
    requires |x| == |y| == 2 * |row.cos| && row.Fits(|row.cos|) && row'.Fits(|row.cos|)
    ensures Dot(Interleaved(x, row), Interleaved(y, row')) == Dot(Neox(Deinterleave(x), row), Neox(Deinterleave(y), row'))
  {
    InterleavedIsNeox(x, row);
    InterleavedIsNeox(y, row');
    DotInterleave(Neox(Deinterleave(x), row), Neox(Deinterleave(y), row'));
  }

  /** The interleaved branch scales squared norms by the square of the scaling factor as well. */
  lemma InterleavedNormScales(angles: Angles, m: nat, factor: real, x: seq<real>)
    requires angles.Valid() && |x| == 2 * |angles.cos|
    ensures var rotated := Interleaved(x, angles.Row(m, factor));
            Dot(rotated, rotated) == (factor * factor) * Dot(x, x)
  {
    hide Dot, Interleaved, Neox, Deinterleave;
    var row := angles.Row(m, factor);
    DotInterleaved(x, x, row, row);
    NormScales(angles, m, factor, Deinterleave(x));
    DotDeinterleave(x, x);
  }

  lemma InterleavedOnlyDistanceMatters(angles: Angles, factor: real, q: seq<real>, k: seq<real>,
                                       m: nat, n: nat, m': nat, n': nat)
    requires angles.Valid() && |q| == |k| == 2 * |angles.cos|
    requires m' - m == n' - n
    ensures Dot(Interleaved(q, angles.Row(m', factor)), Interleaved(k, angles.Row(n', factor)))
            == Dot(Interleaved(q, angles.Row(m, factor)), Interleaved(k, angles.Row(n, factor)))
  {
    DotInterleaved(q, k, angles.Row(m', factor), angles.Row(n', factor));
    DotInterleaved(q, k, angles.Row(m, factor), angles.Row(n, factor));
    OnlyDistanceMatters(angles, factor, Deinterleave(q), Deinterleave(k), m, n, m', n');
  }

  lemma {:induction false} SumJoined(p: seq<real>, q: seq<real>, n: nat)
    requires n <= |q|
    ensures Sum(p + q, |p| + n) == Sum(p + q, |p|) + Sum(q, n)
  {
    if n > 0 {
      SumJoined(p, q, n - 1);
      assert (p + q)[|p| + (n - 1)] == q[n - 1];
    }
  }

  lemma {:induction false} SumFirst(p: seq<real>, q: seq<real>, n: nat)
    requires n <= |p|
    ensures Sum(p + q, n) == Sum(p, n)
  {
    if n > 0 {
      SumFirst(p, q, n - 1);
    }
  }

  /** The dot product of joined rows is that of their first parts and that of the rest. */
  lemma DotJoined(a: seq<real>, b: seq<real>, u: seq<real>, v: seq<real>)
    requires |a| == |b| && |u| == |v|
    ensures Dot(a + u, b + v) == Dot(a, b) + Dot(u, v)
  {
    var joined, parts := Products(a + u, b + v), Products(a, b) + Products(u, v);
    forall i | 0 <= i < |a| + |u|
      ensures joined[i] == parts[i]
    {
    }
    assert joined == parts;
    SumJoined(Products(a, b), Products(u, v), |u|);
    SumFirst(Products(a, b), Products(u, v), |a|);
  }

  /** Dot products in the longrope branch: the rotated first parts, and the rest as it was. */
  lemma DotLongrope(x: seq<real>, y: seq<real>, row: CacheRow, row': CacheRow, rotaryDim: nat)
    requires rotaryDim <= |x| == |y| && rotaryDim == 2 * |row.cos| && row.Fits(|row.cos|) && row'.Fits(|row.cos|)
    ensures Dot(Longrope(x, row, rotaryDim), Longrope(y, row', rotaryDim))
            == Dot(Neox(x[..rotaryDim], row), Neox(y[..rotaryDim], row')) + Dot(x[rotaryDim..], y[rotaryDim..])
  {
    LongropeIsPartial(x, row, rotaryDim);
    LongropeIsPartial(y, row', rotaryDim);
    DotJoined(Neox(x[..rotaryDim], row), Neox(y[..rotaryDim], row'), x[rotaryDim..], y[rotaryDim..]);
  }

  /**
   The longrope branch scales the squared norm of the first part and leaves that of the rest: it keeps
   the norm of a head whose first part is not zero exactly when the squared scaling factor is one.
   */
  lemma LongropeNormScales(angles: Angles, m: nat, factor: real, x: seq<real>, rotaryDim: nat)
    requires angles.Valid() && rotaryDim == 2 * |angles.cos| <= |x|
    ensures var rotated := Longrope(x, angles.Row(m, factor), rotaryDim);
            && Dot(rotated, rotated)
               == (factor * factor) * Dot(x[..rotaryDim], x[..rotaryDim]) + Dot(x[rotaryDim..], x[rotaryDim..])
            && (Dot(rotated, rotated) == Dot(x, x)
                <==> factor * factor == 1.0 || Dot(x[..rotaryDim], x[..rotaryDim]) == 0.0)
  {
    hide Dot, Longrope, Neox;
    var row := angles.Row(m, factor);
    var first, rest := x[..rotaryDim], x[rotaryDim..];
    DotLongrope(x, x, row, row, rotaryDim);
    NormScales(angles, m, factor, first);
    DotJoined(first, first, rest, rest);
    assert first + rest == x;
    ScalesToItself(factor * factor, Dot(first, first));
  }

  lemma ScalesToItself(k: real, d: real)
    ensures k * d == d <==> k == 1.0 || d == 0.0
  {
    assert k * d - d == (k - 1.0) * d;
  }

  lemma LongropeOnlyDistanceMatters(angles: Angles, factor: real, q: seq<real>, k: seq<real>, rotaryDim: nat,
                                    m: nat, n: nat, m': nat, n': nat)
    requires angles.Valid() && rotaryDim == 2 * |angles.cos| <= |q| == |k|
    requires m' - m == n' - n
    ensures Dot(Longrope(q, angles.Row(m', factor), rotaryDim), Longrope(k, angles.Row(n', factor), rotaryDim))
            == Dot(Longrope(q, angles.Row(m, factor), rotaryDim), Longrope(k, angles.Row(n, factor), rotaryDim))
  {
    DotLongrope(q, k, angles.Row(m', factor), angles.Row(n', factor), rotaryDim);
    DotLongrope(q, k, angles.Row(m, factor), angles.Row(n, factor), rotaryDim);
    OnlyDistanceMatters(angles, factor, q[..rotaryDim], k[..rotaryDim], m, n, m', n');
  }

  // ----- the longrope cache -----

  /** The short rows for the first `original` positions, then the long rows. */
  datatype LongropeRow = Short(position: nat) | Long(position: nat)

  function RowAt(original: nat, index: nat): LongropeRow {
    if index < original then Short(index) else Long(index - original)
  }

  predicate IsLong(original: nat, positions: seq<nat>) {
    exists i :: 0 <= i < |positions| && positions[i] > original
  }

  /** The row a sequence reads for one of its positions. */
  function ReadRow(original: nat, positions: seq<nat>, i: nat): LongropeRow
    requires i < |positions|
  {
    RowAt(original, positions[i] + if IsLong(original, positions) then original else 0)
  }

  /**
   A position reads the row of its own angle, of the list the sequence calls for, except in one case:
   position `original` of a sequence that goes no further reads long row zero.
   */
  lemma ReadsOwnRow(original: nat, positions: seq<nat>, i: nat)
    requires i < |positions|
    ensures ReadRow(original, positions, i)
            == (if IsLong(original, positions) then Long(positions[i]) else Short(positions[i]))
            <==> IsLong(original, positions) || positions[i] != original
  {
  }

  /** A sequence of exactly one more token than `original`: its last position gets no rotation. */
  lemma LastPositionMisread()
    ensures ReadRow(4, [0, 1, 2, 3, 4], 4) == Long(0)
  {
  }
}
