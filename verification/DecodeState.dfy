/** The running softmax of all query heads, in flat arrays, and the kernels that update one head. */
module DecodeState {
  import opened Indexing
  import opened DecodeAttention

  /** Row `i` of a flat array of rows. */
  function RowAt<W>(flat: seq<W>, length: nat, i: nat): (row: seq<W>)
    requires i * length + length <= |flat|
    ensures |row| == length
  {
    flat[i * length..i * length + length]
  }

  lemma RowElement<W>(flat: seq<W>, length: nat, i: nat, d: nat, index: nat)
    requires i * length + length <= |flat| && d < length && index == i * length + d
    ensures RowAt(flat, length, i)[d] == flat[index]
  {
  }

  lemma RowInside(i: nat, rows: nat, length: nat)
    requires i < rows
    ensures 0 <= i * length && i * length + length <= rows * length
  {
    NonNegative(i, length);
    NextMultiple(i, length);
    MulMonotone(i + 1, rows, length);
  }

  /** Writing inside row `i` changes row `i` and no other. */
  lemma RowWritten<W>(before: seq<W>, after: seq<W>, rows: nat, length: nat, i: nat, row: seq<W>)
    requires i < rows && |before| == |after| == rows * length && |row| == length
    requires i * length + length <= |after|
    requires forall k :: 0 <= k < |after| ==>
      after[k] == if i * length <= k < i * length + length then row[k - i * length] else before[k]
    ensures RowAt(after, length, i) == row
    ensures forall j :: 0 <= j < rows && j != i ==>
      j * length + length <= |after| && RowAt(after, length, j) == RowAt(before, length, j)
  {
    forall j | 0 <= j < rows && j != i
      ensures j * length + length <= |after| && RowAt(after, length, j) == RowAt(before, length, j)
    {
      RowInside(j, rows, length);
      RowsApart(i, j, length);
    }
  }

  lemma RowsApart(i: nat, j: nat, length: nat)
    requires i != j
    ensures i * length + length <= j * length || j * length + length <= i * length
  {
    if i < j {
      NextMultiple(i, length);
      MulMonotone(i + 1, j, length);
    } else {
      NextMultiple(j, length);
      MulMonotone(j + 1, i, length);
    }
  }

  class State<S(0), W(0)> {
    /** Query heads of the whole batch. */
    const heads: nat
    const headDim: nat
    const maximum: array<S>
    const sum: array<W>
    const output: array<W>

    constructor (heads: nat, headDim: nat)
      ensures this.heads == heads && this.headDim == headDim
      ensures fresh(maximum) && fresh(sum) && fresh(output) && Shaped()
    {
      this.heads := heads;
      this.headDim := headDim;
      maximum := new S[heads];
      sum := new W[heads];
      output := new W[heads * headDim];
    }

    ghost predicate Shaped() {
      && maximum.Length == sum.Length == heads && output.Length == heads * headDim
      && sum != output && maximum as object != sum as object && maximum as object != output as object
    }

    /** The running softmax of query head `i`. */
    ghost function HeadAt(i: nat): (h: HeadState<S, W>)
      requires Shaped() && i < heads
      reads maximum, sum, output
      ensures |h.output| == headDim
    {
      RowInside(i, heads, headDim);
      HeadState(maximum[i], sum[i], RowAt(output[..], headDim, i))
    }

    /** All heads at once. */
    ghost function AllHeads(): (all: seq<HeadState<S, W>>)
      requires Shaped()
      reads maximum, sum, output
      ensures |all| == heads && forall j :: 0 <= j < heads ==> all[j] == HeadAt(j)
    {
      seq(heads, j requires 0 <= j < heads && Shaped() reads maximum, sum, output => HeadAt(j))
    }

    /** `reset`: minus infinity, zero and zeros for every head. */
    method Reset<L, X>(ar: Arithmetic<L, S, W, X>)
      requires Shaped()
      modifies maximum, sum, output
      ensures forall i :: 0 <= i < heads ==> HeadAt(i) == DecodeAttention.Reset(ar, headDim)
    {
      for i := 0 to heads
        invariant forall k :: 0 <= k < i ==> maximum[k] == ar.lowest && sum[k] == ar.zero
      {
        maximum[i] := ar.lowest;
        sum[i] := ar.zero;
      }
      for k := 0 to output.Length
        invariant forall j :: 0 <= j < k ==> output[j] == ar.zero
        invariant forall j :: 0 <= j < heads ==> maximum[j] == ar.lowest && sum[j] == ar.zero
      {
        output[k] := ar.zero;
      }
      forall i | 0 <= i < heads
        ensures HeadAt(i) == DecodeAttention.Reset(ar, headDim)
      {
        RowInside(i, heads, headDim);
      }
    }
  }

  /** Multiplies the elements from `lo` to `hi` by a factor. */
  method ScaleRow<L, S, W, X>(ar: Arithmetic<L, S, W, X>, output: array<W>, lo: nat, hi: nat, factor: W)
    requires lo <= hi <= output.Length
    modifies output
    ensures forall k :: 0 <= k < output.Length ==>
      output[k] == if lo <= k < hi then ar.mul(old(output[k]), factor) else old(output[k])
  {
    for dim := lo to hi
      invariant forall k :: 0 <= k < output.Length ==>
        output[k] == if lo <= k < dim then ar.mul(old(output[k]), factor) else old(output[k])
    {
      output[dim] := ar.mul(output[dim], factor);
    }
  }

  /** `dot_product`: whole chunks, half a chunk, and the elements left over. */
  method DotProduct<L, S, W, X>(ar: Arithmetic<L, S, W, X>, query: seq<X>, key: seq<X>) returns (result: S)
    requires |query| == |key|
    ensures result == DotValue(ar, query, key)
  {
    var lanes := ar.zeroLanes;
    var chunks := |query| / CHUNK;
    for chunk := 0 to chunks
      invariant lanes == DotLanes(ar, query, key, chunk)
    {
      lanes := ar.dot(lanes, Chunk(query, chunk + 1), Chunk(key, chunk + 1));
    }
    var index := chunks * CHUNK;
    if index + HALF <= |query| {
      lanes := ar.dotHalf(lanes, query[index..index + HALF], key[index..index + HALF]);
      index := index + HALF;
    }
    result := ar.reduce(lanes);
    while index < |query|
      invariant InLanes(|query|) <= index <= |query| && result == DotUpTo(ar, query, key, index)
    {
      result := ar.addProduct(result, query[index], key[index]);
      index := index + 1;
    }
  }

  /** Adds the weighted values of one token to each accumulator. */
  method AccumulateToken<L, S, W, X>(ar: Arithmetic<L, S, W, X>, accumulators: array<W>, value: seq<X>, weight: W)
    requires |value| == accumulators.Length
    modifies accumulators
    ensures forall d :: 0 <= d < accumulators.Length ==>
      accumulators[d] == ar.fma(weight, value[d], old(accumulators[d]))
  {
    for dim := 0 to accumulators.Length
      invariant forall d :: 0 <= d < accumulators.Length ==>
        accumulators[d] == if d < dim then ar.fma(weight, value[d], old(accumulators[d])) else old(accumulators[d])
    {
      accumulators[dim] := ar.fma(weight, value[dim], accumulators[dim]);
    }
  }

  /** Copies the elements from `lo` to `hi` into an array of their own. */
  method Load<W(0)>(output: array<W>, lo: nat, hi: nat) returns (accumulators: array<W>)
    requires lo <= hi <= output.Length
    ensures fresh(accumulators) && accumulators[..] == output[lo..hi]
  {
    accumulators := new W[hi - lo];
    for dim := 0 to hi - lo
      invariant accumulators[..dim] == output[lo..lo + dim]
    {
      accumulators[dim] := output[lo + dim];
    }
  }

  /** Copies accumulators back to the elements from `lo` to `hi`. */
  method Store<W>(accumulators: array<W>, output: array<W>, lo: nat, hi: nat)
    requires lo <= hi <= output.Length && accumulators.Length == hi - lo && accumulators != output
    modifies output
    ensures forall k :: 0 <= k < output.Length ==>
      output[k] == if lo <= k < hi then accumulators[k - lo] else old(output[k])
  {
    for dim := lo to hi
      invariant forall k :: 0 <= k < output.Length ==>
        output[k] == if lo <= k < dim then accumulators[k - lo] else old(output[k])
    {
      output[dim] := accumulators[dim - lo];
    }
  }

  /**
   `accumulate_weighted`: loads a row into accumulators, adds every token's weighted value to each
   of them in token order, and stores them back.
   */
  method AccumulateWeighted<L, S, W(0), X>(ar: Arithmetic<L, S, W, X>, output: array<W>, lo: nat, hi: nat,
                                           values: seq<seq<X>>, weights: seq<W>)
    requires lo <= hi <= output.Length && |weights| == |values| && RowsOf(values, hi - lo)
    modifies output
    ensures forall k :: 0 <= k < output.Length ==>
      output[k] == if lo <= k < hi then Accumulate(ar, old(output[k]), weights, values, k - lo, |values|)
                   else old(output[k])
  {
    var accumulators := Load(output, lo, hi);
    ghost var start := accumulators[..];
    assert forall k :: lo <= k < hi ==> start[k - lo] == output[k];
    for token := 0 to |values|
      invariant forall d :: 0 <= d < hi - lo ==>
        accumulators[d] == Accumulate(ar, start[d], weights, values, d, token)
      invariant output[..] == old(output[..])
    {
      AccumulateToken(ar, accumulators, values[token], weights[token]);
    }
    Store(accumulators, output, lo, hi);
    forall k | lo <= k < hi
      ensures output[k] == Accumulate(ar, old(output[k]), weights, values, k - lo, |values|)
    {
      var d := k - lo;
      assert output[k] == accumulators[d] == Accumulate(ar, start[d], weights, values, d, |values|);
    }
  }

  method ScoreToken<L, S, W, X>(ar: Arithmetic<L, S, W, X>, query: seq<X>, key: seq<X>) returns (score: S)
    requires |query| == |key|
    ensures score == Score(ar, query, key)
  {
    var dot := DotProduct(ar, query, key);
    score := ar.scale(dot);
  }

  /** The scores of a block's tokens, written one after the other, and the largest of them. */
  method ScoreBlock<L, S, W, X>(ar: Arithmetic<L, S, W, X>, query: seq<X>, keys: seq<seq<X>>)
    returns (scores: seq<S>, blockMax: S)
    requires RowsOf(keys, |query|)
    ensures |scores| == |keys| && forall t :: 0 <= t < |keys| ==> scores[t] == Score(ar, query, keys[t])
    ensures blockMax == BlockMax(ar, query, keys, |keys|)
  {
    hide DotValue;
    scores := [];
    blockMax := ar.lowest;
    for token := 0 to |keys|
      invariant |scores| == token && forall t :: 0 <= t < token ==> scores[t] == Score(ar, query, keys[t])
      invariant blockMax == BlockMax(ar, query, keys, token)
    {
      var score := ScoreToken(ar, query, keys[token]);
      scores := scores + [score];
      blockMax := ar.max(blockMax, score);
    }
  }

  /** The weights of scored tokens relative to the new maximum, a vector at a time as far as that goes. */
  method WeighBlock<L, S, W, X>(ar: Arithmetic<L, S, W, X>, scores: seq<S>, newMax: S) returns (weights: seq<W>)
    ensures |weights| == |scores|
    ensures forall t :: 0 <= t < |scores| ==> weights[t] == ar.Weight(|scores|, t, scores[t], newMax)
    ensures forall t :: 0 <= t < |scores| ==>
      weights[t] == if t < |scores| / 16 * 16 then ar.laneExp(scores[t], newMax) else ar.exp(scores[t], newMax)
  {
    weights := [];
    var token: nat := 0;
    while token + LANES <= |scores|
      invariant |weights| == token <= |scores| && token % LANES == 0
      invariant forall t :: 0 <= t < token ==> weights[t] == ar.laneExp(scores[t], newMax)
    {
      var score := scores[token..token + LANES];
      weights := weights + seq(LANES, i requires 0 <= i < LANES => ar.laneExp(score[i], newMax));
      token := token + LANES;
    }
    while token < |scores|
      invariant |scores| / LANES * LANES <= token == |weights| <= |scores|
      invariant forall t :: 0 <= t < token ==> weights[t] == ar.Weight(|scores|, t, scores[t], newMax)
    {
      weights := weights + [ar.exp(scores[token], newMax)];
      token := token + 1;
    }
  }

  /** Brings the running sum and output of one head to a larger maximum. */
  method RescaleHead<L, S(0), W(0), X>(ar: Arithmetic<L, S, W, X>, st: State<S, W>, index: nat, newMax: S)
    requires st.Shaped() && index < st.heads
    modifies st.sum, st.output
    ensures st.HeadAt(index).(maximum := newMax) == Rescale(ar, old(st.HeadAt(index)), newMax)
    ensures forall j :: 0 <= j < st.heads && j != index ==> st.HeadAt(j) == old(st.HeadAt(j))
  {
    ghost var before, head := st.output[..], st.HeadAt(index);
    RowInside(index, st.heads, st.headDim);
    if ar.greater(newMax, st.maximum[index]) {
      var correction := ar.exp(st.maximum[index], newMax);
      st.sum[index] := ar.mul(st.sum[index], correction);
      ScaleRow(ar, st.output, index * st.headDim, index * st.headDim + st.headDim, correction);
      RowWritten(before, st.output[..], st.heads, st.headDim, index, Rescale(ar, head, newMax).output);
    }
  }

  /** `process_query_head_block`: one query head takes in one block of tokens. */
  method ProcessQueryHeadBlock<L, S(0), W(0), X>(ar: Arithmetic<L, S, W, X>, st: State<S, W>, index: nat,
                                                 query: seq<X>, keys: seq<seq<X>>, values: seq<seq<X>>)
    requires st.Shaped() && index < st.heads
    requires |query| == st.headDim
    requires |keys| == |values| && RowsOf(keys, st.headDim) && RowsOf(values, st.headDim)
    modifies st.maximum, st.sum, st.output
    ensures st.HeadAt(index) == HeadStep(ar, old(st.HeadAt(index)), query, keys, values)
    ensures forall j :: 0 <= j < st.heads && j != index ==> st.HeadAt(j) == old(st.HeadAt(j))
  {
    var scores, blockMax := ScoreBlock(ar, query, keys);
    var newMax := ar.max(st.maximum[index], blockMax);
    RescaleHead(ar, st, index, newMax);
    var weights := WeighBlock(ar, scores, newMax);
    AddBlock(ar, st, index, newMax, weights, values);
    assert weights == Weights(ar, query, keys, newMax);
  }

  /** Adds weighted tokens to the sum and output of one head and sets its maximum. */
  method AddBlock<L, S(0), W(0), X>(ar: Arithmetic<L, S, W, X>, st: State<S, W>, index: nat, newMax: S,
                                    weights: seq<W>, values: seq<seq<X>>)
    requires st.Shaped() && index < st.heads
    requires |weights| == |values| && RowsOf(values, st.headDim)
    modifies st.maximum, st.sum, st.output
    ensures st.HeadAt(index).maximum == newMax
    ensures st.HeadAt(index).sum == ar.add(old(st.HeadAt(index)).sum, ar.sum(weights))
    ensures forall d :: 0 <= d < st.headDim ==>
      st.HeadAt(index).output[d] == Accumulate(ar, old(st.HeadAt(index)).output[d], weights, values, d, |values|)
    ensures forall j :: 0 <= j < st.heads && j != index ==> st.HeadAt(j) == old(st.HeadAt(j))
  {
    ghost var before, head := st.output[..], st.HeadAt(index);
    RowInside(index, st.heads, st.headDim);
    st.sum[index] := ar.add(st.sum[index], ar.sum(weights));
    AccumulateWeighted(ar, st.output, index * st.headDim, index * st.headDim + st.headDim, values, weights);
    st.maximum[index] := newMax;
    ghost var row := seq(st.headDim, d requires 0 <= d < st.headDim =>
      Accumulate(ar, head.output[d], weights, values, d, |values|));
    RowWritten(before, st.output[..], st.heads, st.headDim, index, row);
  }
}
