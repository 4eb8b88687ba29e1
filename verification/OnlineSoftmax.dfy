/**
 The blockwise running softmax computes softmax attention.

 The kernels' arithmetic is taken exactly: elements and scores are whole multiples of a unit,
 weights and outputs are real numbers, and the exponential is any function that turns sums into
 products.  The maximum before the first token is minus infinity.
 */
module OnlineSoftmax {
  import opened Reals
  import opened Exponentials
  import opened DecodeAttention

  /** A score, or minus infinity. */
  datatype Extended = MinusInfinity | Finite(value: int)

  function Larger(a: Extended, b: Extended): Extended {
    if IsGreater(b, a) then b else a
  }

  predicate IsGreater(a: Extended, b: Extended) {
    a.Finite? && (b.MinusInfinity? || a.value > b.value)
  }

  /** The exponential of a difference of scores; that of minus infinity is zero. */
  function ExpDifference(exp: Exponential, a: Extended, b: Extended): real {
    if a.Finite? && b.Finite? then exp.At(a.value - b.value) else 0.0
  }

  /** The first `n` products of two rows. */
  function Dot(a: seq<int>, b: seq<int>, n: nat): int
    requires n <= |a| == |b|
  {
    if n == 0 then 0 else Dot(a, b, n - 1) + a[n - 1] * b[n - 1]
  }

  /** Exact arithmetic, with scores scaled by a whole factor. */
  function Exact(exp: Exponential, factor: int): Arithmetic<int, Extended, real, int> {
    Arithmetic(
      0,
      (lanes: int, a: seq<int>, b: seq<int>) => if |a| == |b| then lanes + Dot(a, b, |a|) else lanes,
      (lanes: int, a: seq<int>, b: seq<int>) => if |a| == |b| then lanes + Dot(a, b, |a|) else lanes,
      (lanes: int) => Finite(lanes),
      (s: Extended, a: int, b: int) => if s.Finite? then Finite(s.value + a * b) else s,
      (s: Extended) => if s.Finite? then Finite(s.value * factor) else s,
      MinusInfinity,
      (a: Extended, b: Extended) => Larger(a, b),
      (a: Extended, b: Extended) => IsGreater(a, b),
      (a: Extended, b: Extended) => ExpDifference(exp, a, b),
      (a: Extended, b: Extended) => ExpDifference(exp, a, b),
      0.0,
      (a: real, b: real) => a + b,
      (a: real, b: real) => a * b,
      (w: real, x: int, a: real) => w * (x as real) + a,
      (ws: seq<real>) => Sum(ws, |ws|),
      (sum: real) => if sum > 0.0 then 1.0 / sum else 0.0)
  }

  // ----- scores -----

  function ExactScore(factor: int, query: seq<int>, key: seq<int>): int
    requires |query| == |key|
  {
    Dot(query, key, |query|) * factor
  }

  /** A dot product is the dot products of two parts added. */
  lemma {:induction false} DotSplit(a: seq<int>, b: seq<int>, lo: nat, n: nat, hi: nat)
    requires hi == lo + n <= |a| == |b|
    ensures Dot(a, b, hi) == Dot(a, b, lo) + Dot(a[lo..], b[lo..], n)
    decreases n
  {
    if n > 0 {
      DotSplit(a, b, lo, n - 1, hi - 1);
    }
  }

  lemma {:induction false} DotPrefix(a: seq<int>, b: seq<int>, a': seq<int>, b': seq<int>, n: nat)
    requires n <= |a| == |b| && n <= |a'| == |b'|
    requires forall i :: 0 <= i < n ==> a[i] == a'[i] && b[i] == b'[i]
    ensures Dot(a, b, n) == Dot(a', b', n)
  {
    if n > 0 {
      DotPrefix(a, b, a', b', n - 1);
    }
  }

  /** Chunk by chunk, the lanes add up to the dot product. */
  lemma {:induction false} LanesAreDot(exp: Exponential, factor: int, query: seq<int>, key: seq<int>, n: nat)
    requires n * CHUNK <= |query| == |key|
    ensures DotLanes(Exact(exp, factor), query, key, n) == Dot(query, key, n * CHUNK)
  {
    if n > 0 {
      LanesAreDot(exp, factor, query, key, n - 1);
      var lo := (n - 1) * CHUNK;
      DotSplit(query, key, lo, CHUNK, n * CHUNK);
      DotPrefix(query[lo..], key[lo..], Chunk(query, n), Chunk(key, n), CHUNK);
    }
  }

  lemma LaneDotIsDot(exp: Exponential, factor: int, query: seq<int>, key: seq<int>)
    requires |query| == |key|
    ensures LaneDot(Exact(exp, factor), query, key) == Finite(Dot(query, key, InLanes(|query|)))
  {
    var chunks := |query| / CHUNK;
    LanesAreDot(exp, factor, query, key, chunks);
    if |query| % CHUNK >= HALF {
      var lo := chunks * CHUNK;
      var a, b := query[lo..lo + HALF], key[lo..lo + HALF];
      hide Dot, DotLanes;
      DotSplit(query, key, lo, HALF, lo + HALF);
      DotPrefix(query[lo..], key[lo..], a, b, HALF);
      assert Exact(exp, factor).dotHalf(Dot(query, key, lo), a, b) == Dot(query, key, lo + HALF);
    }
  }

  lemma {:induction false} DotUpToIsDot(exp: Exponential, factor: int, query: seq<int>, key: seq<int>, n: nat)
    requires InLanes(|query|) <= n <= |query| == |key|
    ensures DotUpTo(Exact(exp, factor), query, key, n) == Finite(Dot(query, key, n))
  {
    if n == InLanes(|query|) {
      LaneDotIsDot(exp, factor, query, key);
    } else {
      DotUpToIsDot(exp, factor, query, key, n - 1);
    }
  }

  /** Chunks, half a chunk and single elements together give the whole inner product, for rows of any length. */
  lemma ScoreIsExact(exp: Exponential, factor: int, query: seq<int>, key: seq<int>)
    requires |query| == |key|
    ensures Score(Exact(exp, factor), query, key) == Finite(ExactScore(factor, query, key))
  {
    DotUpToIsDot(exp, factor, query, key, |query|);
  }

  // ----- maxima -----

  /** The largest of the first `n` scores. */
  function Top(scores: seq<int>, n: nat): Extended
    requires n <= |scores|
  {
    if n == 0 then MinusInfinity else Larger(Top(scores, n - 1), Finite(scores[n - 1]))
  }

  /** It is the largest, and one of them. */
  lemma {:induction false} TopIsLargest(scores: seq<int>, n: nat)
    requires n <= |scores|
    ensures Top(scores, n).MinusInfinity? <==> n == 0
    ensures n > 0 ==> (exists t :: 0 <= t < n && scores[t] == Top(scores, n).value)
                      && forall t :: 0 <= t < n ==> scores[t] <= Top(scores, n).value
  {
    if n > 0 {
      TopIsLargest(scores, n - 1);
      assert scores[n - 1] <= Top(scores, n).value;
    }
  }

  /** A block's maximum on top of the maximum before it. */
  lemma {:induction false} BlockTop(exp: Exponential, factor: int, query: seq<int>, keys: seq<seq<int>>,
                                    scores: seq<int>, k: nat, n: nat, next: nat)
    requires n <= |keys| && RowsOf(keys, |query|)
    requires next == k + n && k + |keys| <= |scores|
    requires forall t :: 0 <= t < |keys| ==> scores[k + t] == ExactScore(factor, query, keys[t])
    ensures Larger(Top(scores, k), BlockMax(Exact(exp, factor), query, keys, n)) == Top(scores, next)
  {
    if n > 0 {
      BlockTop(exp, factor, query, keys, scores, k, n - 1, next - 1);
      ScoreIsExact(exp, factor, query, keys[n - 1]);
      assert scores[k + (n - 1)] == scores[next - 1];
    }
  }

  // ----- what the running state stands for -----

  /** The exponentials of scores relative to `top`, each times a coefficient. */
  function Terms(exp: Exponential, scores: seq<int>, coefficients: seq<real>, top: Extended): (terms: seq<real>)
    requires |scores| == |coefficients|
    ensures |terms| == |scores|
  {
    seq(|scores|, t requires 0 <= t < |scores| => ExpDifference(exp, Finite(scores[t]), top) * coefficients[t])
  }

  /** The exponentials of the scores themselves, each times a coefficient: no maximum anywhere. */
  function ExpTerms(exp: Exponential, scores: seq<int>, coefficients: seq<real>): (terms: seq<real>)
    requires |scores| == |coefficients|
    ensures |terms| == |scores|
  {
    seq(|scores|, t requires 0 <= t < |scores| => exp.At(scores[t]) * coefficients[t])
  }

  function Ones(n: nat): (ones: seq<real>) {
    seq(n, _ => 1.0)
  }

  function Column(values: seq<seq<int>>, dims: nat, dim: nat): (column: seq<real>)
    requires RowsOf(values, dims) && dim < dims
  {
    seq(|values|, t requires 0 <= t < |values| => values[t][dim] as real)
  }

  /** Scaling every term scales the sum. */
  lemma {:induction false} TotalScales(terms: seq<real>, scaled: seq<real>, scale: real, n: nat)
    requires n <= |terms| == |scaled|
    requires forall t :: 0 <= t < |terms| ==> scaled[t] == terms[t] * scale
    ensures Sum(scaled, n) == Sum(terms, n) * scale
  {
    if n > 0 {
      TotalScales(terms, scaled, scale, n - 1);
      Distribute(Sum(terms, n - 1), terms[n - 1], scale);
    }
  }

  lemma ScaleTerm(e: real, scale: real, shifted: real, c: real)
    requires shifted == e * scale
    ensures shifted * c == (e * c) * scale
  {
  }

  lemma TermScales(exp: Exponential, s: int, m: int, c: real)
    requires exp.Lawful()
    ensures exp.At(s - m) * c == (exp.At(s) * c) * exp.At(-m)
  {
    assert AddsUp(s, -m, s - m);
    ScaleTerm(exp.At(s), exp.At(-m), exp.At(s - m), c);
  }

  /** Subtracting a maximum from all scores divides their sum by one factor. */
  lemma WeightedScales(exp: Exponential, scores: seq<int>, coefficients: seq<real>, m: int, scale: real, n: nat)
    requires exp.Lawful() && n <= |scores| == |coefficients| && scale == exp.At(-m)
    ensures Sum(Terms(exp, scores, coefficients, Finite(m)), n) == Sum(ExpTerms(exp, scores, coefficients), n) * scale
  {
    var terms, scaled := ExpTerms(exp, scores, coefficients), Terms(exp, scores, coefficients, Finite(m));
    forall t | 0 <= t < |scores|
      ensures scaled[t] == terms[t] * scale
    {
      TermScales(exp, scores[t], m, coefficients[t]);
    }
    TotalScales(terms, scaled, scale, n);
  }

  lemma Chain(e: real, a: real, b: real, c: real)
    requires c == a * b
    ensures (e * a) * b == e * c
  {
  }

  /** Moving to another maximum multiplies the sum by the correction; without tokens it stays zero. */
  lemma WeightedShifts(exp: Exponential, scores: seq<int>, coefficients: seq<real>, top: Extended, newTop: Extended,
                       n: nat, sum: real)
    requires exp.Lawful() && n <= |scores| == |coefficients|
    requires newTop.Finite? && (top.MinusInfinity? ==> n == 0)
    requires sum == Sum(Terms(exp, scores, coefficients, top), n)
    ensures sum * ExpDifference(exp, top, newTop) == Sum(Terms(exp, scores, coefficients, newTop), n)
  {
    if top.Finite? {
      WeightedMoves(exp, scores, coefficients, top.value, newTop.value, ExpDifference(exp, top, newTop), n);
    }
  }

  lemma WeightedMoves(exp: Exponential, scores: seq<int>, coefficients: seq<real>, m: int, m': int, correction: real,
                      n: nat)
    requires exp.Lawful() && n <= |scores| == |coefficients| && correction == exp.At(m - m')
    ensures Sum(Terms(exp, scores, coefficients, Finite(m)), n) * correction
            == Sum(Terms(exp, scores, coefficients, Finite(m')), n)
  {
    var e, a, c := Sum(ExpTerms(exp, scores, coefficients), n), exp.At(-m), exp.At(-m');
    WeightedScales(exp, scores, coefficients, m, a, n);
    WeightedScales(exp, scores, coefficients, m', c, n);
    assert AddsUp(-m, m - m', -m');
    Chain(e, a, correction, c);
  }

  /** Both sums of a state are those of the first `k` tokens relative to `top`. */
  ghost predicate SumsAt(exp: Exponential, h: HeadState<Extended, real>, scores: seq<int>, values: seq<seq<int>>,
                         top: Extended, k: nat)
    requires k <= |scores| == |values| && RowsOf(values, |h.output|)
  {
    && h.sum == Sum(Terms(exp, scores, Ones(|scores|), top), k)
    && forall d :: 0 <= d < |h.output| ==>
         h.output[d] == Sum(Terms(exp, scores, Column(values, |h.output|, d), top), k)
  }

  /** The running state after `k` tokens: their maximum, and both sums relative to it. */
  ghost predicate Represents(exp: Exponential, h: HeadState<Extended, real>, scores: seq<int>, values: seq<seq<int>>,
                             k: nat)
    requires k <= |scores| == |values| && RowsOf(values, |h.output|)
  {
    h.maximum == Top(scores, k) && SumsAt(exp, h, scores, values, h.maximum, k)
  }

  /** Before any token. */
  lemma ResetRepresents(exp: Exponential, factor: int, scores: seq<int>, values: seq<seq<int>>, dims: nat)
    requires |scores| == |values| && RowsOf(values, dims)
    ensures Represents(exp, Reset(Exact(exp, factor), dims), scores, values, 0)
  {
  }

  lemma RescaledSum(exp: Exponential, factor: int, h: HeadState<Extended, real>, newMax: Extended)
    requires IsGreater(newMax, h.maximum)
    ensures Rescale(Exact(exp, factor), h, newMax).sum == h.sum * ExpDifference(exp, h.maximum, newMax)
  {
  }

  lemma RescaledOutput(exp: Exponential, factor: int, h: HeadState<Extended, real>, newMax: Extended, dim: nat)
    requires IsGreater(newMax, h.maximum) && dim < |h.output|
    ensures Rescale(Exact(exp, factor), h, newMax).output[dim] == h.output[dim] * ExpDifference(exp, h.maximum, newMax)
  {
  }

  lemma OutputShifts(exp: Exponential, factor: int, h: HeadState<Extended, real>, scores: seq<int>,
                     column: seq<real>, k: nat, newMax: Extended, dim: nat)
    requires exp.Lawful() && k <= |scores| == |column| && dim < |h.output|
    requires IsGreater(newMax, h.maximum) && (h.maximum.MinusInfinity? ==> k == 0)
    requires h.output[dim] == Sum(Terms(exp, scores, column, h.maximum), k)
    ensures Rescale(Exact(exp, factor), h, newMax).output[dim] == Sum(Terms(exp, scores, column, newMax), k)
  {
    RescaledOutput(exp, factor, h, newMax, dim);
    WeightedShifts(exp, scores, column, h.maximum, newMax, k, h.output[dim]);
  }

  lemma OutputsShift(exp: Exponential, factor: int, h: HeadState<Extended, real>, scores: seq<int>,
                     values: seq<seq<int>>, k: nat, newMax: Extended)
    requires exp.Lawful() && k <= |scores| == |values| && RowsOf(values, |h.output|)
    requires IsGreater(newMax, h.maximum) && (h.maximum.MinusInfinity? ==> k == 0)
    requires SumsAt(exp, h, scores, values, h.maximum, k)
    ensures forall d :: 0 <= d < |h.output| ==>
      Rescale(Exact(exp, factor), h, newMax).output[d]
      == Sum(Terms(exp, scores, Column(values, |h.output|, d), newMax), k)
  {
    forall d | 0 <= d < |h.output|
      ensures Rescale(Exact(exp, factor), h, newMax).output[d]
              == Sum(Terms(exp, scores, Column(values, |h.output|, d), newMax), k)
    {
      OutputShifts(exp, factor, h, scores, Column(values, |h.output|, d), k, newMax, d);
    }
  }

  /** A new maximum keeps the sums, relative to the new maximum. */
  lemma RescaleKeepsSums(exp: Exponential, factor: int, h: HeadState<Extended, real>, scores: seq<int>,
                         values: seq<seq<int>>, k: nat, newMax: Extended)
    requires exp.Lawful() && k <= |scores| == |values| && RowsOf(values, |h.output|)
    requires Represents(exp, h, scores, values, k) && newMax == Larger(h.maximum, newMax)
    ensures SumsAt(exp, Rescale(Exact(exp, factor), h, newMax), scores, values, newMax, k)
  {
    if IsGreater(newMax, h.maximum) {
      TopIsLargest(scores, k);
      RescaledSum(exp, factor, h, newMax);
      WeightedShifts(exp, scores, Ones(|scores|), h.maximum, newMax, k, h.sum);
      OutputsShift(exp, factor, h, scores, values, k, newMax);
    }
  }

  // ----- one block -----

  /** A block of tokens is the part of the sequence from `k` to `next`. */
  ghost predicate IsBlock(factor: int, query: seq<int>, keys: seq<seq<int>>, blockValues: seq<seq<int>>,
                          scores: seq<int>, values: seq<seq<int>>, k: nat, next: nat)
  {
    && RowsOf(keys, |query|)
    && |keys| == |blockValues| && next == k + |keys| <= |scores| == |values|
    && (forall t :: 0 <= t < |keys| ==> scores[k + t] == ExactScore(factor, query, keys[t]))
    && forall t :: 0 <= t < |keys| ==> values[k + t] == blockValues[t]
  }

  /** The weights of a block added up take the sum to its end. */
  lemma {:induction false} BlockSum(exp: Exponential, weights: seq<real>, scores: seq<int>, top: Extended,
                                    k: nat, n: nat, next: nat)
    requires next == k + n && n <= |weights| && k + |weights| <= |scores|
    requires forall t :: 0 <= t < |weights| ==> weights[t] == ExpDifference(exp, Finite(scores[k + t]), top)
    ensures Sum(Terms(exp, scores, Ones(|scores|), top), k) + Sum(weights, n)
            == Sum(Terms(exp, scores, Ones(|scores|), top), next)
  {
    if n > 0 {
      BlockSum(exp, weights, scores, top, k, n - 1, next - 1);
      assert scores[k + (n - 1)] == scores[next - 1];
    }
  }

  lemma ValueNext(exp: Exponential, factor: int, start: real, weights: seq<real>, blockValues: seq<seq<int>>,
                  scores: seq<int>, column: seq<real>, top: Extended, dim: nat, n: nat, next: nat)
    requires 0 < n <= |weights| == |blockValues| && 0 < next <= |scores| == |column|
    requires forall t :: 0 <= t < |blockValues| ==> dim < |blockValues[t]|
    requires weights[n - 1] == ExpDifference(exp, Finite(scores[next - 1]), top)
    requires column[next - 1] == blockValues[n - 1][dim] as real
    requires Accumulate(Exact(exp, factor), start, weights, blockValues, dim, n - 1)
             == Sum(Terms(exp, scores, column, top), next - 1)
    ensures Accumulate(Exact(exp, factor), start, weights, blockValues, dim, n)
            == Sum(Terms(exp, scores, column, top), next)
  {
  }

  /** The weighted values of a block added in token order take an output element to its end. */
  lemma {:induction false} BlockValues(exp: Exponential, factor: int, start: real, weights: seq<real>,
                                       blockValues: seq<seq<int>>, scores: seq<int>, values: seq<seq<int>>,
                                       top: Extended, dims: nat, dim: nat, k: nat, n: nat, next: nat)
    requires next == k + n && n <= |weights| == |blockValues| && k + |weights| <= |scores| == |values|
    requires RowsOf(values, dims) && dim < dims && RowsOf(blockValues, dims)
    requires forall t :: 0 <= t < |weights| ==> weights[t] == ExpDifference(exp, Finite(scores[k + t]), top)
    requires forall t :: 0 <= t < |weights| ==> values[k + t] == blockValues[t]
    requires start == Sum(Terms(exp, scores, Column(values, dims, dim), top), k)
    ensures Accumulate(Exact(exp, factor), start, weights, blockValues, dim, n)
            == Sum(Terms(exp, scores, Column(values, dims, dim), top), next)
  {
    if n > 0 {
      BlockValues(exp, factor, start, weights, blockValues, scores, values, top, dims, dim, k, n - 1, next - 1);
      assert weights[n - 1] == ExpDifference(exp, Finite(scores[k + (n - 1)]), top);
      assert values[k + (n - 1)] == blockValues[n - 1];
      ValueNext(exp, factor, start, weights, blockValues, scores, Column(values, dims, dim), top, dim, n, next);
    }
  }

  /** Weights of a block relative to a maximum. */
  lemma BlockWeights(exp: Exponential, factor: int, query: seq<int>, keys: seq<seq<int>>, scores: seq<int>,
                     k: nat, top: Extended, t: nat)
    requires RowsOf(keys, |query|) && t < |keys| && k + |keys| <= |scores|
    requires scores[k + t] == ExactScore(factor, query, keys[t])
    ensures Weights(Exact(exp, factor), query, keys, top)[t] == ExpDifference(exp, Finite(scores[k + t]), top)
  {
    ScoreIsExact(exp, factor, query, keys[t]);
  }

  /** Taking in a block brings the running state to the end of the block. */
  lemma StepRepresents(exp: Exponential, factor: int, h: HeadState<Extended, real>, query: seq<int>,
                       keys: seq<seq<int>>, blockValues: seq<seq<int>>, scores: seq<int>, values: seq<seq<int>>,
                       k: nat, next: nat)
    requires exp.Lawful() && IsBlock(factor, query, keys, blockValues, scores, values, k, next)
    requires RowsOf(values, |h.output|) && RowsOf(blockValues, |h.output|)
    requires Represents(exp, h, scores, values, k)
    ensures Represents(exp, HeadStep(Exact(exp, factor), h, query, keys, blockValues), scores, values, next)
  {
    var ar := Exact(exp, factor);
    BlockTop(exp, factor, query, keys, scores, k, |keys|, next);
    var newMax := NewMax(ar, h, query, keys);
    assert newMax == Top(scores, next);
    RescaleKeepsSums(exp, factor, h, scores, values, k, newMax);
    var weights := Weights(ar, query, keys, newMax);
    forall t | 0 <= t < |weights|
      ensures weights[t] == ExpDifference(exp, Finite(scores[k + t]), newMax)
    {
      BlockWeights(exp, factor, query, keys, scores, k, newMax, t);
    }
    BlockSum(exp, weights, scores, newMax, k, |weights|, next);
    BlockOutputs(exp, factor, h, weights, blockValues, scores, values, newMax, k, next);
  }

  lemma BlockOutputs(exp: Exponential, factor: int, h: HeadState<Extended, real>, weights: seq<real>,
                     blockValues: seq<seq<int>>, scores: seq<int>, values: seq<seq<int>>, newMax: Extended,
                     k: nat, next: nat)
    requires k <= next == k + |weights| <= |scores| == |values| && |weights| == |blockValues|
    requires RowsOf(values, |h.output|) && RowsOf(blockValues, |h.output|)
    requires forall t :: 0 <= t < |weights| ==> weights[t] == ExpDifference(exp, Finite(scores[k + t]), newMax)
    requires forall t :: 0 <= t < |weights| ==> values[k + t] == blockValues[t]
    requires SumsAt(exp, Rescale(Exact(exp, factor), h, newMax), scores, values, newMax, k)
    ensures forall d :: 0 <= d < |h.output| ==>
      Accumulate(Exact(exp, factor), Rescale(Exact(exp, factor), h, newMax).output[d], weights, blockValues, d, |blockValues|)
      == Sum(Terms(exp, scores, Column(values, |h.output|, d), newMax), next)
  {
    var rescaled := Rescale(Exact(exp, factor), h, newMax);
    forall d | 0 <= d < |h.output|
      ensures Accumulate(Exact(exp, factor), rescaled.output[d], weights, blockValues, d, |blockValues|)
              == Sum(Terms(exp, scores, Column(values, |h.output|, d), newMax), next)
    {
      BlockValues(exp, factor, rescaled.output[d], weights, blockValues, scores, values, newMax, |h.output|, d,
                  k, |weights|, next);
    }
  }

  // ----- the end of a run -----

  /** `a / b`, or zero when there is nothing to divide by. */
  function Share(a: real, b: real): real {
    if b == 0.0 then 0.0 else a / b
  }

  /** Softmax attention, straight from its definition; zero when there is no token. */
  function Attention(exp: Exponential, scores: seq<int>, values: seq<seq<int>>, dims: nat, dim: nat): real
    requires |scores| == |values| && RowsOf(values, dims) && dim < dims
  {
    Share(Sum(ExpTerms(exp, scores, Column(values, dims, dim)), |scores|),
          Sum(ExpTerms(exp, scores, Ones(|scores|)), |scores|))
  }

  lemma {:induction false} ExpSumPositive(exp: Exponential, scores: seq<int>, n: nat)
    requires exp.Lawful() && 0 < n <= |scores|
    ensures Sum(ExpTerms(exp, scores, Ones(|scores|)), n) > 0.0
  {
    var terms := ExpTerms(exp, scores, Ones(|scores|));
    assert terms[n - 1] == exp.At(scores[n - 1]) > 0.0;
    if n > 1 {
      ExpSumPositive(exp, scores, n - 1);
    } else {
      assert Sum(terms, 0) == 0.0;
    }
  }

  lemma QuotientCancels(a: real, b: real, scale: real)
    requires b > 0.0 && scale > 0.0
    ensures b * scale > 0.0 && (a * scale) * (1.0 / (b * scale)) == a / b
  {
    Positive(b, scale);
    var q := a / b;
    assert a == q * b;
    assert a * scale == q * (b * scale);
    var i := 1.0 / (b * scale);
    assert (b * scale) * i == 1.0;
    assert (q * (b * scale)) * i == q * ((b * scale) * i);
  }

  /** What a normalised output element is: nothing positive to divide by gives zero. */
  function Divided(output: real, sum: real): real {
    output * if sum > 0.0 then 1.0 / sum else 0.0
  }

  function Scaled(x: real, scale: real): real {
    x * scale
  }

  lemma ScaledSum(exp: Exponential, scores: seq<int>, coefficients: seq<real>, m: int, n: nat)
    requires exp.Lawful() && n <= |scores| == |coefficients|
    ensures Sum(Terms(exp, scores, coefficients, Finite(m)), n)
            == Scaled(Sum(ExpTerms(exp, scores, coefficients), n), exp.At(-m))
    ensures exp.At(-m) > 0.0
  {
    WeightedScales(exp, scores, coefficients, m, exp.At(-m), n);
  }

  lemma ScaledQuotient(output: real, sum: real, a: real, b: real, scale: real)
    requires output == Scaled(a, scale) && sum == Scaled(b, scale) && b > 0.0 && scale > 0.0
    ensures Divided(output, sum) == Share(a, b)
  {
    QuotientCancels(a, b, scale);
  }

  lemma NormalisedAt(exp: Exponential, factor: int, h: HeadState<Extended, real>, dim: nat)
    requires dim < |h.output|
    ensures Normalise(Exact(exp, factor), h).output[dim] == Divided(h.output[dim], h.sum)
  {
  }

  lemma SumsDivided(exp: Exponential, h: HeadState<Extended, real>, scores: seq<int>, values: seq<seq<int>>, dim: nat)
    requires exp.Lawful() && 0 < |scores| == |values| && RowsOf(values, |h.output|) && dim < |h.output|
    requires Represents(exp, h, scores, values, |scores|)
    ensures Divided(h.output[dim], h.sum)
            == Share(Sum(ExpTerms(exp, scores, Column(values, |h.output|, dim)), |scores|),
                     Sum(ExpTerms(exp, scores, Ones(|scores|)), |scores|))
  {
    var n, column := |scores|, Column(values, |h.output|, dim);
    TopIsLargest(scores, n);
    var m := h.maximum.value;
    assert h.sum == Sum(Terms(exp, scores, Ones(n), Finite(m)), n);
    assert h.output[dim] == Sum(Terms(exp, scores, column, Finite(m)), n);
    hide *;
    ScaledSum(exp, scores, Ones(n), m, n);
    ScaledSum(exp, scores, column, m, n);
    ExpSumPositive(exp, scores, n);
    var a, b := Sum(ExpTerms(exp, scores, column), n), Sum(ExpTerms(exp, scores, Ones(n)), n);
    ScaledQuotient(h.output[dim], h.sum, a, b, exp.At(-m));
  }

  /** Normalising the running state of a whole sequence gives softmax attention. */
  lemma NormaliseIsAttention(exp: Exponential, factor: int, h: HeadState<Extended, real>, scores: seq<int>,
                             values: seq<seq<int>>, dim: nat)
    requires exp.Lawful() && |scores| == |values| && RowsOf(values, |h.output|) && dim < |h.output|
    requires Represents(exp, h, scores, values, |scores|)
    ensures Normalise(Exact(exp, factor), h).output[dim] == Attention(exp, scores, values, |h.output|, dim)
  {
    hide Normalise, Exact;
    NormalisedAt(exp, factor, h, dim);
    if |scores| > 0 {
      hide Sum, Terms, ExpTerms, Column, Ones, Share, Divided;
      SumsDivided(exp, h, scores, values, dim);
    }
  }
}
