/**
 What the decode kernels compute for one query head, over arithmetic about which nothing is
 assumed: no operation need be associative, commutative or exact.
 (`benchmarks/cpu/attention_bmm/decode_layout_traversal.cpp`)

 L is a vector of lanes, S a score, W a weight or output value, X a stored element.
 */
module DecodeAttention {

  datatype Arithmetic<!L, !S, !W, !X> = Arithmetic(
    zeroLanes: L,
    // adds the products of one chunk of two rows to the lanes, and those of half a chunk in single precision
    dot: (L, seq<X>, seq<X>) -> L,
    dotHalf: (L, seq<X>, seq<X>) -> L,
    // collapses the lanes to one score, and adds one product to a score
    reduce: L -> S,
    addProduct: (S, X, X) -> S,
    scale: S -> S,
    lowest: S,
    max: (S, S) -> S,
    greater: (S, S) -> bool,
    // the exponential of a score relative to a maximum: of a single one, and of one among a whole vector
    exp: (S, S) -> W,
    laneExp: (S, S) -> W,
    zero: W,
    add: (W, W) -> W,
    mul: (W, W) -> W,
    // weight times element, added to an accumulator
    fma: (W, X, W) -> W,
    // the sum of a block's weights, in whatever order the lanes add them
    sum: seq<W> -> W,
    // one over a positive sum, otherwise zero
    inverse: W -> W)
  {
    /** The weight of token `t` of `n`: whole vectors first, then one token at a time. */
    function Weight(n: nat, t: nat, s: S, maximum: S): W {
      if t < n / LANES * LANES then laneExp(s, maximum) else exp(s, maximum)
    }
  }

  /** Elements one step of the dot product takes at once. */
  const CHUNK: nat := 32

  const HALF: nat := 16

  /** Scores in one vector. */
  const LANES: nat := 16

  /** The running softmax of one query head. */
  datatype HeadState<S, W> = HeadState(maximum: S, sum: W, output: seq<W>)

  /** Chunk `n - 1` of a row. */
  function Chunk<X>(row: seq<X>, n: nat): (c: seq<X>)
    requires 0 < n && n * CHUNK <= |row|
    ensures |c| == 32 && forall i :: 0 <= i < 32 ==> c[i] == row[(n - 1) * 32 + i]
  {
    row[(n - 1) * CHUNK..n * CHUNK]
  }

  /** Lane accumulators after the first `n` chunks of a dot product. */
  function DotLanes<L, S, W, X>(ar: Arithmetic<L, S, W, X>, query: seq<X>, key: seq<X>, n: nat): L
    requires n * CHUNK <= |query| == |key|
  {
    if n == 0 then ar.zeroLanes
    else ar.dot(DotLanes(ar, query, key, n - 1), Chunk(query, n), Chunk(key, n))
  }

  /** How many of `n` elements go through the lanes: whole chunks, and half a chunk if that much is left. */
  function InLanes(n: nat): (m: nat)
    ensures m % 16 == 0 && m <= n < m + 16
  {
    n / CHUNK * CHUNK + if n % CHUNK >= HALF then HALF else 0
  }

  function LaneDot<L, S, W, X>(ar: Arithmetic<L, S, W, X>, query: seq<X>, key: seq<X>): S
    requires |query| == |key|
  {
    var chunks := |query| / CHUNK;
    var lanes := DotLanes(ar, query, key, chunks);
    if |query| % CHUNK < HALF then ar.reduce(lanes)
    else
      var lo := chunks * CHUNK;
      ar.reduce(ar.dotHalf(lanes, query[lo..lo + HALF], key[lo..lo + HALF]))
  }

  /** What the lanes give, and one product after the other for the elements after that, up to `n`. */
  function DotUpTo<L, S, W, X>(ar: Arithmetic<L, S, W, X>, query: seq<X>, key: seq<X>, n: nat): S
    requires InLanes(|query|) <= n <= |query| == |key|
  {
    if n == InLanes(|query|) then LaneDot(ar, query, key)
    else ar.addProduct(DotUpTo(ar, query, key, n - 1), query[n - 1], key[n - 1])
  }

  function DotValue<L, S, W, X>(ar: Arithmetic<L, S, W, X>, query: seq<X>, key: seq<X>): S
    requires |query| == |key|
  {
    DotUpTo(ar, query, key, |query|)
  }

  function Score<L, S, W, X>(ar: Arithmetic<L, S, W, X>, query: seq<X>, key: seq<X>): S
    requires |query| == |key|
  {
    ar.scale(DotValue(ar, query, key))
  }

  ghost predicate RowsOf<X>(rows: seq<seq<X>>, length: nat) {
    forall t :: 0 <= t < |rows| ==> |rows[t]| == length
  }

  /** Largest score of the first `n` tokens. */
  function BlockMax<L, S, W, X>(ar: Arithmetic<L, S, W, X>, query: seq<X>, keys: seq<seq<X>>, n: nat): S
    requires n <= |keys| && RowsOf(keys, |query|)
  {
    if n == 0 then ar.lowest
    else ar.max(BlockMax(ar, query, keys, n - 1), Score(ar, query, keys[n - 1]))
  }

  function NewMax<L, S, W, X>(ar: Arithmetic<L, S, W, X>, st: HeadState<S, W>, query: seq<X>, keys: seq<seq<X>>): S
    requires RowsOf(keys, |query|)
  {
    ar.max(st.maximum, BlockMax(ar, query, keys, |keys|))
  }

  /** The weights of a block's tokens relative to the new maximum. */
  function Weights<L, S, W, X>(ar: Arithmetic<L, S, W, X>, query: seq<X>, keys: seq<seq<X>>, newMax: S): (w: seq<W>)
    requires RowsOf(keys, |query|)
    ensures |w| == |keys|
    ensures forall t :: 0 <= t < |keys| ==> w[t] == ar.Weight(|keys|, t, Score(ar, query, keys[t]), newMax)
  {
    seq(|keys|, t requires 0 <= t < |keys| => ar.Weight(|keys|, t, Score(ar, query, keys[t]), newMax))
  }

  /** Brings the sum and the output to a larger maximum. */
  function Rescale<L, S, W, X>(ar: Arithmetic<L, S, W, X>, st: HeadState<S, W>, newMax: S): (r: HeadState<S, W>)
    ensures |r.output| == |st.output|
  {
    if ar.greater(newMax, st.maximum) then
      var correction := ar.exp(st.maximum, newMax);
      HeadState(newMax, ar.mul(st.sum, correction),
                seq(|st.output|, d requires 0 <= d < |st.output| => ar.mul(st.output[d], correction)))
    else
      st.(maximum := newMax)
  }

  /** One output element with the first `n` weighted values added to it, in token order. */
  function Accumulate<L, S, W, X>(ar: Arithmetic<L, S, W, X>, start: W, weights: seq<W>, values: seq<seq<X>>,
                                  dim: nat, n: nat): W
    requires n <= |weights| == |values| && forall t :: 0 <= t < |values| ==> dim < |values[t]|
  {
    if n == 0 then start
    else ar.fma(weights[n - 1], values[n - 1][dim], Accumulate(ar, start, weights, values, dim, n - 1))
  }

  /** One query head takes in one block of tokens. */
  function HeadStep<L, S, W, X>(ar: Arithmetic<L, S, W, X>, st: HeadState<S, W>, query: seq<X>,
                                keys: seq<seq<X>>, values: seq<seq<X>>): (r: HeadState<S, W>)
    requires RowsOf(keys, |query|) && |keys| == |values| && RowsOf(values, |st.output|)
    ensures |r.output| == |st.output|
  {
    var newMax := NewMax(ar, st, query, keys);
    var weights := Weights(ar, query, keys, newMax);
    var rescaled := Rescale(ar, st, newMax);
    HeadState(newMax, ar.add(rescaled.sum, ar.sum(weights)),
              seq(|st.output|, d requires 0 <= d < |st.output| =>
                Accumulate(ar, rescaled.output[d], weights, values, d, |values|)))
  }

  /** The state before any token. */
  function Reset<L, S, W, X>(ar: Arithmetic<L, S, W, X>, headDim: nat): (r: HeadState<S, W>)
    ensures |r.output| == headDim
  {
    HeadState(ar.lowest, ar.zero, seq(headDim, _ => ar.zero))
  }

  /** Division of the output by the sum at the end of a run. */
  function Normalise<L, S, W, X>(ar: Arithmetic<L, S, W, X>, st: HeadState<S, W>): (r: HeadState<S, W>)
    ensures |r.output| == |st.output|
  {
    st.(output := seq(|st.output|, d requires 0 <= d < |st.output| => ar.mul(st.output[d], ar.inverse(st.sum))))
  }
}
