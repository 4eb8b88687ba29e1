/**
 One row of the prefill tile kernel in exact arithmetic: a block of scores of which the later ones may
 be masked (`csrc/ops/attention/bmc/bmc_prefill_avx512.cpp`).
 */
module MaskedSoftmax {
  import opened Reals
  import opened Exponentials
  import opened DecodeAttention
  import opened OnlineSoftmax

  function MaxOf(scores: seq<Extended>, n: nat): Extended
    requires n <= |scores|
  {
    if n == 0 then MinusInfinity else Larger(MaxOf(scores, n - 1), scores[n - 1])
  }

  function Zeros(n: nat): (zeros: seq<real>)
    ensures |zeros| == n
  {
    seq(n, _ => 0.0)
  }

  /** The weights of a block's tokens; all zero when every score is masked. */
  function RowWeights(exp: Exponential, h: HeadState<Extended, real>, scores: seq<Extended>): (weights: seq<real>)
    ensures |weights| == |scores|
  {
    if MaxOf(scores, |scores|).MinusInfinity? then Zeros(|scores|)
    else
      var newMax := Larger(h.maximum, MaxOf(scores, |scores|));
      seq(|scores|, t requires 0 <= t < |scores| => ExpDifference(exp, scores[t], newMax))
  }

  /** Maximum, sum and rescaled output once the weights are known; a row without a score is left alone. */
  function RowWeighed(exp: Exponential, h: HeadState<Extended, real>, scores: seq<Extended>): (r: HeadState<Extended, real>)
    ensures |r.output| == |h.output|
  {
    if MaxOf(scores, |scores|).MinusInfinity? then h
    else
      var rescaled := Rescale(Exact(exp, 1), h, Larger(h.maximum, MaxOf(scores, |scores|)));
      var weights := RowWeights(exp, h, scores);
      rescaled.(sum := rescaled.sum + Sum(weights, |weights|))
  }

  /** And with the weighted values added. */
  function RowStep(exp: Exponential, h: HeadState<Extended, real>, scores: seq<Extended>, values: seq<seq<int>>)
    : (r: HeadState<Extended, real>)
    requires |scores| == |values| && RowsOf(values, |h.output|)
    ensures |r.output| == |h.output|
  {
    var weighed, weights := RowWeighed(exp, h, scores), RowWeights(exp, h, scores);
    weighed.(output := seq(|h.output|, d requires 0 <= d < |h.output| =>
      Accumulate(Exact(exp, 1), weighed.output[d], weights, values, d, |values|)))
  }

  // ----- masked tokens do not count -----

  lemma {:induction false} SumOfTail(weights: seq<real>, v: nat, n: nat)
    requires v <= n <= |weights| && forall t :: v <= t < |weights| ==> weights[t] == 0.0
    ensures Sum(weights, n) == Sum(weights, v)
  {
    if v < n {
      SumOfTail(weights, v, n - 1);
    }
  }

  lemma {:induction false} SumOfPrefix(weights: seq<real>, v: nat, n: nat)
    requires n <= v <= |weights|
    ensures Sum(weights[..v], n) == Sum(weights, n)
  {
    if n > 0 {
      SumOfPrefix(weights, v, n - 1);
    }
  }

  lemma {:induction false} AccumulateTail(exp: Exponential, start: real, weights: seq<real>, values: seq<seq<int>>,
                                          d: nat, v: nat, n: nat)
    requires v <= n <= |weights| == |values| && forall t :: 0 <= t < |values| ==> d < |values[t]|
    requires forall t :: v <= t < |weights| ==> weights[t] == 0.0
    ensures Accumulate(Exact(exp, 1), start, weights, values, d, n) == Accumulate(Exact(exp, 1), start, weights, values, d, v)
  {
    if v < n {
      AccumulateTail(exp, start, weights, values, d, v, n - 1);
    }
  }

  lemma {:induction false} AccumulatePrefix(exp: Exponential, start: real, weights: seq<real>, values: seq<seq<int>>,
                                            d: nat, v: nat, n: nat)
    requires n <= v <= |weights| == |values| && forall t :: 0 <= t < |values| ==> d < |values[t]|
    ensures Accumulate(Exact(exp, 1), start, weights[..v], values[..v], d, n)
            == Accumulate(Exact(exp, 1), start, weights, values, d, n)
  {
    if n > 0 {
      AccumulatePrefix(exp, start, weights, values, d, v, n - 1);
    }
  }

  /** The visible scores of a row are those of the tokens from `k` on, `v` of them; the others are masked. */
  ghost predicate Visible(scores: seq<Extended>, blockValues: seq<seq<int>>, rowScores: seq<int>,
                          rowValues: seq<seq<int>>, k: nat, v: nat)
  {
    && v <= |scores| == |blockValues| && k + v <= |rowScores| == |rowValues|
    && (forall t :: 0 <= t < v ==> scores[t] == Finite(rowScores[k + t]) && blockValues[t] == rowValues[k + t])
    && forall t :: v <= t < |scores| ==> scores[t] == MinusInfinity
  }

  lemma {:induction false} MaxOfVisible(scores: seq<Extended>, blockValues: seq<seq<int>>, rowScores: seq<int>,
                                        rowValues: seq<seq<int>>, k: nat, v: nat, n: nat)
    requires Visible(scores, blockValues, rowScores, rowValues, k, v) && n <= |scores|
    ensures Larger(Top(rowScores, k), MaxOf(scores, n)) == Top(rowScores, if n <= v then k + n else k + v)
    ensures MaxOf(scores, n).MinusInfinity? <==> n == 0 || v == 0
  {
    if n > 0 {
      MaxOfVisible(scores, blockValues, rowScores, rowValues, k, v, n - 1);
    }
  }

  lemma LargerTwice(a: Extended, b: Extended)
    ensures Larger(a, b) == Larger(a, Larger(a, b))
  {
  }

  /** Visible tokens weigh what they weigh relative to the new maximum, masked ones nothing. */
  lemma WeightsOfVisible(exp: Exponential, h: HeadState<Extended, real>, scores: seq<Extended>, blockValues: seq<seq<int>>,
                         rowScores: seq<int>, rowValues: seq<seq<int>>, k: nat, v: nat, newMax: Extended)
    requires Visible(scores, blockValues, rowScores, rowValues, k, v)
    requires newMax == Larger(h.maximum, MaxOf(scores, |scores|)) && MaxOf(scores, |scores|).Finite?
    ensures var weights := RowWeights(exp, h, scores);
            && (forall t :: 0 <= t < v ==> weights[t] == ExpDifference(exp, Finite(rowScores[k + t]), newMax))
            && forall t :: v <= t < |weights| ==> weights[t] == 0.0
  {
  }

  /** The sum of a row takes in the visible tokens. */
  lemma SumTakesVisible(exp: Exponential, h: HeadState<Extended, real>, scores: seq<Extended>, blockValues: seq<seq<int>>,
                        rowScores: seq<int>, rowValues: seq<seq<int>>, k: nat, v: nat, newMax: Extended)
    requires Visible(scores, blockValues, rowScores, rowValues, k, v) && v > 0
    requires newMax == Larger(h.maximum, MaxOf(scores, |scores|)) && MaxOf(scores, |scores|).Finite?
    ensures var weights := RowWeights(exp, h, scores);
            Sum(Terms(exp, rowScores, Ones(|rowScores|), newMax), k) + Sum(weights, |weights|)
            == Sum(Terms(exp, rowScores, Ones(|rowScores|), newMax), k + v)
  {
    var weights := RowWeights(exp, h, scores);
    WeightsOfVisible(exp, h, scores, blockValues, rowScores, rowValues, k, v, newMax);
    hide RowWeights, MaxOf, Terms, Sum;
    SumOfTail(weights, v, |weights|);
    SumOfPrefix(weights, v, v);
    BlockSum(exp, weights[..v], rowScores, newMax, k, v, k + v);
  }

  /** Every output element of a row takes in the visible tokens. */
  lemma OutputTakesVisible(exp: Exponential, h: HeadState<Extended, real>, scores: seq<Extended>, blockValues: seq<seq<int>>,
                           rowScores: seq<int>, rowValues: seq<seq<int>>, k: nat, v: nat, newMax: Extended, dims: nat, d: nat,
                           start: real)
    requires Visible(scores, blockValues, rowScores, rowValues, k, v) && v > 0 && d < dims
    requires RowsOf(blockValues, dims) && RowsOf(rowValues, dims)
    requires newMax == Larger(h.maximum, MaxOf(scores, |scores|)) && MaxOf(scores, |scores|).Finite?
    requires start == Sum(Terms(exp, rowScores, Column(rowValues, dims, d), newMax), k)
    ensures Accumulate(Exact(exp, 1), start, RowWeights(exp, h, scores), blockValues, d, |blockValues|)
            == Sum(Terms(exp, rowScores, Column(rowValues, dims, d), newMax), k + v)
  {
    var weights := RowWeights(exp, h, scores);
    WeightsOfVisible(exp, h, scores, blockValues, rowScores, rowValues, k, v, newMax);
    hide RowWeights, MaxOf, Terms, Sum, Accumulate, Column;
    AccumulateTail(exp, start, weights, blockValues, d, v, |weights|);
    AccumulatePrefix(exp, start, weights, blockValues, d, v, v);
    FirstVisible(exp, weights, blockValues, rowScores, rowValues, k, v, newMax, dims, d, start);
  }

  lemma FirstVisible(exp: Exponential, weights: seq<real>, blockValues: seq<seq<int>>, rowScores: seq<int>,
                     rowValues: seq<seq<int>>, k: nat, v: nat, newMax: Extended, dims: nat, d: nat, start: real)
    requires v <= |weights| == |blockValues| && k + v <= |rowScores| == |rowValues| && d < dims
    requires RowsOf(blockValues, dims) && RowsOf(rowValues, dims)
    requires forall t :: 0 <= t < v ==> weights[t] == ExpDifference(exp, Finite(rowScores[k + t]), newMax)
    requires forall t :: 0 <= t < v ==> blockValues[t] == rowValues[k + t]
    requires start == Sum(Terms(exp, rowScores, Column(rowValues, dims, d), newMax), k)
    ensures Accumulate(Exact(exp, 1), start, weights[..v], blockValues[..v], d, v)
            == Sum(Terms(exp, rowScores, Column(rowValues, dims, d), newMax), k + v)
  {
    hide ExpDifference, Terms, Sum, Accumulate, Column;
    BlockValues(exp, 1, start, weights[..v], blockValues[..v], rowScores, rowValues, newMax, dims, d, k, v, k + v);
  }

  lemma NothingAdded(exp: Exponential, start: real, values: seq<seq<int>>, d: nat, n: nat)
    requires n <= |values| && forall t :: 0 <= t < |values| ==> d < |values[t]|
    ensures Accumulate(Exact(exp, 1), start, Zeros(|values|), values, d, n) == start
  {
    AccumulateTail(exp, start, Zeros(|values|), values, d, 0, n);
  }

  /** A block takes a row's state to the last token it can see in that block. */
  lemma RowStepRepresents(exp: Exponential, h: HeadState<Extended, real>, scores: seq<Extended>, blockValues: seq<seq<int>>,
                          rowScores: seq<int>, rowValues: seq<seq<int>>, k: nat, v: nat)
    requires exp.Lawful() && Visible(scores, blockValues, rowScores, rowValues, k, v)
    requires RowsOf(rowValues, |h.output|) && RowsOf(blockValues, |h.output|)
    requires Represents(exp, h, rowScores, rowValues, k)
    ensures Represents(exp, RowStep(exp, h, scores, blockValues), rowScores, rowValues, k + v)
  {
    MaxOfVisible(scores, blockValues, rowScores, rowValues, k, v, |scores|);
    var r := RowStep(exp, h, scores, blockValues);
    if v == 0 || |scores| == 0 {
      forall d | 0 <= d < |h.output|
        ensures r.output[d] == h.output[d]
      {
        NothingAdded(exp, h.output[d], blockValues, d, |blockValues|);
      }
      assert r.output == h.output;
    } else {
      VisibleStep(exp, h, scores, blockValues, rowScores, rowValues, k, v, Larger(h.maximum, MaxOf(scores, |scores|)));
    }
  }

  lemma VisibleStep(exp: Exponential, h: HeadState<Extended, real>, scores: seq<Extended>, blockValues: seq<seq<int>>,
                    rowScores: seq<int>, rowValues: seq<seq<int>>, k: nat, v: nat, newMax: Extended)
    requires exp.Lawful() && Visible(scores, blockValues, rowScores, rowValues, k, v) && v > 0
    requires RowsOf(rowValues, |h.output|) && RowsOf(blockValues, |h.output|)
    requires Represents(exp, h, rowScores, rowValues, k)
    requires newMax == Larger(h.maximum, MaxOf(scores, |scores|)) == Top(rowScores, k + v) && MaxOf(scores, |scores|).Finite?
    ensures Represents(exp, RowStep(exp, h, scores, blockValues), rowScores, rowValues, k + v)
  {
    LargerTwice(h.maximum, MaxOf(scores, |scores|));
    RescaleKeepsSums(exp, 1, h, rowScores, rowValues, k, newMax);
    SumTakesVisible(exp, h, scores, blockValues, rowScores, rowValues, k, v, newMax);
    var rescaled, r := Rescale(Exact(exp, 1), h, newMax), RowStep(exp, h, scores, blockValues);
    forall d | 0 <= d < |h.output|
      ensures r.output[d] == Sum(Terms(exp, rowScores, Column(rowValues, |h.output|, d), newMax), k + v)
    {
      OutputTakesVisible(exp, h, scores, blockValues, rowScores, rowValues, k, v, newMax, |h.output|, d, rescaled.output[d]);
    }
  }
}
