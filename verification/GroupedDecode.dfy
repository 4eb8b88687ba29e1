/** All query heads that share a key/value head, processed together over one block of tokens. */
module GroupedDecode {
  import opened Indexing
  import opened DecodeAttention
  import opened DecodeState

  /** Query heads whose dot products share one pass over a key. */
  const DOT_TILE: nat := 4

  /** One chunk of a key for every query of a tile. */
  method DotTileChunk<L, S, W, X>(ar: Arithmetic<L, S, W, X>, queries: seq<seq<X>>, key: seq<X>,
                                  base: nat, count: nat, chunk: nat, before: seq<L>) returns (lanes: seq<L>)
    requires RowsOf(queries, |key|) && base + count <= |queries| && |before| == count
    requires (chunk + 1) * CHUNK <= |key|
    requires forall q :: 0 <= q < count ==> before[q] == DotLanes(ar, queries[base + q], key, chunk)
    ensures |lanes| == count
    ensures forall q :: 0 <= q < count ==> lanes[q] == DotLanes(ar, queries[base + q], key, chunk + 1)
  {
    lanes := before;
    for query := 0 to count
      invariant |lanes| == count
      invariant forall q :: 0 <= q < query ==> lanes[q] == DotLanes(ar, queries[base + q], key, chunk + 1)
      invariant forall q :: query <= q < count ==> lanes[q] == DotLanes(ar, queries[base + q], key, chunk)
    {
      var next := ar.dot(lanes[query], Chunk(queries[base + query], chunk + 1), Chunk(key, chunk + 1));
      lanes := lanes[query := next];
    }
  }

  /** The lane accumulators of one tile of queries over a whole key. */
  method DotTile<L, S, W, X>(ar: Arithmetic<L, S, W, X>, queries: seq<seq<X>>, key: seq<X>, base: nat, count: nat)
    returns (lanes: seq<L>)
    requires RowsOf(queries, |key|) && |key| % CHUNK == 0 && base + count <= |queries|
    ensures |lanes| == count
    ensures forall q :: 0 <= q < count ==> ar.reduce(lanes[q]) == DotValue(ar, queries[base + q], key)
  {
    lanes := seq(count, _ => ar.zeroLanes);
    var chunks := |key| / CHUNK;
    for chunk := 0 to chunks
      invariant |lanes| == count
      invariant forall q :: 0 <= q < count ==> lanes[q] == DotLanes(ar, queries[base + q], key, chunk)
    {
      lanes := DotTileChunk(ar, queries, key, base, count, chunk, lanes);
    }
  }

  /** Dot products of the first `n` queries. */
  ghost predicate Dotted<L, S, W, X>(ar: Arithmetic<L, S, W, X>, queries: seq<seq<X>>, key: seq<X>, results: seq<S>, n: nat)
    requires n <= |queries| && RowsOf(queries, |key|)
  {
    |results| == n && forall q :: 0 <= q < n ==> results[q] == DotValue(ar, queries[q], key)
  }

  /** Reduces the lanes of one tile into the results. */
  method ReduceTile<L, S, W, X>(ar: Arithmetic<L, S, W, X>, queries: seq<seq<X>>, key: seq<X>, lanes: seq<L>,
                                before: seq<S>, base: nat, next: nat) returns (results: seq<S>)
    requires RowsOf(queries, |key|) && next == base + |lanes| <= |queries|
    requires Dotted(ar, queries, key, before, base)
    requires forall q :: 0 <= q < |lanes| ==> ar.reduce(lanes[q]) == DotValue(ar, queries[base + q], key)
    ensures Dotted(ar, queries, key, results, next)
  {
    results := before;
    for query := 0 to |lanes|
      invariant Dotted(ar, queries, key, results, base + query)
    {
      results := results + [ar.reduce(lanes[query])];
    }
  }

  /** `grouped_dot_products`: queries in tiles of four, the last tile possibly smaller. */
  method GroupedDotProducts<L, S, W, X>(ar: Arithmetic<L, S, W, X>, queries: seq<seq<X>>, key: seq<X>)
    returns (results: seq<S>)
    requires RowsOf(queries, |key|) && |key| % CHUNK == 0
    ensures Dotted(ar, queries, key, results, |queries|)
  {
    results := [];
    var base: nat := 0;
    while base < |queries|
      invariant base <= |queries| && Dotted(ar, queries, key, results, base)
    {
      var count := Min(DOT_TILE, |queries| - base);
      var lanes := DotTile(ar, queries, key, base, count);
      results := ReduceTile(ar, queries, key, lanes, results, base, base + count);
      base := base + count;
    }
  }

  /** Appends one token's score to every query. */
  method AppendScores<L, S, W, X>(ar: Arithmetic<L, S, W, X>, queries: seq<seq<X>>, keys: seq<seq<X>>, headDim: nat,
                                  token: nat, next: nat, tokenScores: seq<S>, scores0: seq<seq<S>>, maximum0: seq<S>)
    returns (scores: seq<seq<S>>, maximum: seq<S>)
    requires RowsOf(queries, headDim) && RowsOf(keys, headDim) && token < |keys| && next == token + 1
    requires Dotted(ar, queries, keys[token], tokenScores, |queries|)
    requires AllScored(ar, queries, keys, headDim, token, scores0, maximum0)
    ensures AllScored(ar, queries, keys, headDim, next, scores, maximum)
  {
    scores, maximum := scores0, maximum0;
    for rep := 0 to |queries|
      invariant |scores| == |maximum| == |queries|
      invariant forall r :: 0 <= r < rep ==> Scored(ar, queries[r], keys, next, scores[r], maximum[r])
      invariant forall r :: rep <= r < |queries| ==> scores[r] == scores0[r] && maximum[r] == maximum0[r]
    {
      var score := ar.scale(tokenScores[rep]);
      assert Scored(ar, queries[rep], keys, token, scores[rep], maximum[rep]);
      ScoredNext(ar, queries[rep], keys, token, next, scores[rep], maximum[rep]);
      scores := scores[rep := scores[rep] + [score]];
      maximum := maximum[rep := ar.max(maximum[rep], score)];
    }
  }

  lemma ScoredNext<L, S, W, X>(ar: Arithmetic<L, S, W, X>, query: seq<X>, keys: seq<seq<X>>, n: nat, next: nat,
                               scores: seq<S>, maximum: S)
    requires n < |keys| && next == n + 1 && RowsOf(keys, |query|) && Scored(ar, query, keys, n, scores, maximum)
    ensures var score := Score(ar, query, keys[n]);
            Scored(ar, query, keys, next, scores + [score], ar.max(maximum, score))
  {
  }

  ghost predicate AllScored<L, S, W, X>(ar: Arithmetic<L, S, W, X>, queries: seq<seq<X>>, keys: seq<seq<X>>, headDim: nat,
                                        n: nat, scores: seq<seq<S>>, maximum: seq<S>)
    requires n <= |keys| && RowsOf(queries, headDim) && RowsOf(keys, headDim)
  {
    && |scores| == |maximum| == |queries|
    && forall r :: 0 <= r < |queries| ==> Scored(ar, queries[r], keys, n, scores[r], maximum[r])
  }

  /** The scores of every query over a block, and their maxima, one pass over each key. */
  method GroupedScores<L, S, W, X>(ar: Arithmetic<L, S, W, X>, queries: seq<seq<X>>, keys: seq<seq<X>>, headDim: nat)
    returns (scores: seq<seq<S>>, blockMaximum: seq<S>)
    requires RowsOf(queries, headDim) && RowsOf(keys, headDim) && headDim % CHUNK == 0
    ensures AllScored(ar, queries, keys, headDim, |keys|, scores, blockMaximum)
  {
    scores := seq(|queries|, _ => []);
    blockMaximum := seq(|queries|, _ => ar.lowest);
    for token := 0 to |keys|
      invariant AllScored(ar, queries, keys, headDim, token, scores, blockMaximum)
    {
      var tokenScores := GroupedDotProducts(ar, queries, keys[token]);
      scores, blockMaximum :=
        AppendScores(ar, queries, keys, headDim, token, token + 1, tokenScores, scores, blockMaximum);
    }
  }

  /** Scores and maximum of the first `n` tokens for one query. */
  ghost predicate Scored<L, S, W, X>(ar: Arithmetic<L, S, W, X>, query: seq<X>, keys: seq<seq<X>>, n: nat,
                                     scores: seq<S>, maximum: S)
    requires n <= |keys| && RowsOf(keys, |query|)
  {
    && |scores| == n
    && (forall t :: 0 <= t < n ==> scores[t] == Score(ar, query, keys[t]))
    && maximum == BlockMax(ar, query, keys, n)
  }

  // ----- weighted values, a tile of queries at a time -----

  /** One dimension of one token's value added to the accumulators of every query of a tile. */
  method TileDim<L, S, W, X>(ar: Arithmetic<L, S, W, X>, before: seq<seq<W>>, headDim: nat, value: seq<X>,
                             weights: seq<W>, dim: nat) returns (accumulators: seq<seq<W>>)
    requires |weights| == |before| && RowsOf(before, headDim) && dim < headDim == |value|
    ensures |accumulators| == |before|
    ensures forall q :: 0 <= q < |before| ==>
      accumulators[q] == before[q][dim := ar.fma(weights[q], value[dim], before[q][dim])]
  {
    accumulators := before;
    for query := 0 to |before|
      invariant |accumulators| == |before|
      invariant forall q :: 0 <= q < query ==>
        accumulators[q] == before[q][dim := ar.fma(weights[q], value[dim], before[q][dim])]
      invariant forall q :: query <= q < |before| ==> accumulators[q] == before[q]
    {
      var updated := ar.fma(weights[query], value[dim], accumulators[query][dim]);
      accumulators := accumulators[query := accumulators[query][dim := updated]];
    }
  }

  /** A row with a token's weighted value added in its first `n` dimensions. */
  function RowAdded<L, S, W, X>(ar: Arithmetic<L, S, W, X>, row: seq<W>, value: seq<X>, weight: W, n: nat): (r: seq<W>)
    requires n <= |row| == |value|
    ensures |r| == |row|
    ensures forall d :: 0 <= d < |row| ==> r[d] == if d < n then ar.fma(weight, value[d], row[d]) else row[d]
  {
    seq(|row|, d requires 0 <= d < |row| => if d < n then ar.fma(weight, value[d], row[d]) else row[d])
  }

  lemma RowAddedNext<L, S, W, X>(ar: Arithmetic<L, S, W, X>, row: seq<W>, value: seq<X>, weight: W, n: nat, next: nat)
    requires n < |row| == |value| && next == n + 1
    ensures var added := RowAdded(ar, row, value, weight, n);
            RowAdded(ar, row, value, weight, next) == added[n := ar.fma(weight, value[n], added[n])]
  {
  }

  /** Adds one token's value to the accumulators of a tile. */
  method TileToken<L, S, W, X>(ar: Arithmetic<L, S, W, X>, before: seq<seq<W>>, headDim: nat, value: seq<X>,
                               weights: seq<W>) returns (accumulators: seq<seq<W>>)
    requires |weights| == |before| && RowsOf(before, headDim) && headDim == |value|
    ensures |accumulators| == |before|
    ensures forall q :: 0 <= q < |before| ==> accumulators[q] == RowAdded(ar, before[q], value, weights[q], headDim)
  {
    accumulators := before;
    for dim := 0 to headDim
      invariant |accumulators| == |before|
      invariant forall q :: 0 <= q < |before| ==> accumulators[q] == RowAdded(ar, before[q], value, weights[q], dim)
    {
      forall q | 0 <= q < |before|
        ensures RowAdded(ar, before[q], value, weights[q], dim + 1)
                == accumulators[q][dim := ar.fma(weights[q], value[dim], accumulators[q][dim])]
      {
        RowAddedNext(ar, before[q], value, weights[q], dim, dim + 1);
      }
      accumulators := TileDim(ar, accumulators, headDim, value, weights, dim);
    }
  }

  /** A row with the weighted values of the first `n` tokens added. */
  function RowAccumulated<L, S, W, X>(ar: Arithmetic<L, S, W, X>, row: seq<W>, weights: seq<W>, values: seq<seq<X>>,
                                      n: nat): (r: seq<W>)
    requires n <= |weights| == |values| && RowsOf(values, |row|)
    ensures |r| == |row|
  {
    seq(|row|, d requires 0 <= d < |row| => Accumulate(ar, row[d], weights, values, d, n))
  }

  lemma RowAccumulatedNext<L, S, W, X>(ar: Arithmetic<L, S, W, X>, row: seq<W>, weights: seq<W>, values: seq<seq<X>>,
                                       n: nat, next: nat)
    requires n < |weights| == |values| && RowsOf(values, |row|) && next == n + 1
    ensures RowAccumulated(ar, row, weights, values, next)
            == RowAdded(ar, RowAccumulated(ar, row, weights, values, n), values[n], weights[n], |row|)
  {
  }

  /** The token loop of one tile. */
  method TileTokens<L, S, W, X>(ar: Arithmetic<L, S, W, X>, start: seq<seq<W>>, headDim: nat, values: seq<seq<X>>,
                                weights: seq<seq<W>>) returns (accumulators: seq<seq<W>>)
    requires RowsOf(values, headDim)
    requires |start| == |weights| && RowsOf(start, headDim) && RowsOf(weights, |values|)
    ensures |accumulators| == |start|
    ensures forall q :: 0 <= q < |start| ==>
      accumulators[q] == RowAccumulated(ar, start[q], weights[q], values, |values|)
  {
    accumulators := start;
    forall q | 0 <= q < |start|
      ensures start[q] == RowAccumulated(ar, start[q], weights[q], values, 0)
    {
    }
    for token := 0 to |values|
      invariant |accumulators| == |start| && RowsOf(accumulators, headDim)
      invariant forall q :: 0 <= q < |start| ==>
        accumulators[q] == RowAccumulated(ar, start[q], weights[q], values, token)
    {
      var column := seq(|weights|, q requires 0 <= q < |weights| => weights[q][token]);
      forall q | 0 <= q < |start|
        ensures RowAccumulated(ar, start[q], weights[q], values, token + 1)
                == RowAdded(ar, accumulators[q], values[token], column[q], headDim)
      {
        RowAccumulatedNext(ar, start[q], weights[q], values, token, token + 1);
      }
      accumulators := TileToken(ar, accumulators, headDim, values[token], column);
    }
  }

  // ----- whole groups -----

  /** What a head holds when its weights are known but no value has been added yet. */
  function MidStep<L, S, W, X>(ar: Arithmetic<L, S, W, X>, h: HeadState<S, W>, query: seq<X>, keys: seq<seq<X>>)
    : (r: HeadState<S, W>)
    requires RowsOf(keys, |query|)
    ensures |r.output| == |h.output|
  {
    var newMax := NewMax(ar, h, query, keys);
    var rescaled := Rescale(ar, h, newMax);
    rescaled.(sum := ar.add(rescaled.sum, ar.sum(Weights(ar, query, keys, newMax))))
  }

  /** Maximum, sum and rescaling of one head, and the weights of the block's tokens. */
  method WeighHead<L, S(0), W(0), X>(ar: Arithmetic<L, S, W, X>, st: State<S, W>, index: nat,
                                     scores: seq<S>, blockMax: S, ghost query: seq<X>, ghost keys: seq<seq<X>>)
    returns (weights: seq<W>)
    requires st.Shaped() && index < st.heads
    requires |query| == st.headDim && RowsOf(keys, st.headDim) && Scored(ar, query, keys, |keys|, scores, blockMax)
    modifies st.maximum, st.sum, st.output
    ensures st.HeadAt(index) == MidStep(ar, old(st.HeadAt(index)), query, keys)
    ensures weights == Weights(ar, query, keys, NewMax(ar, old(st.HeadAt(index)), query, keys))
    ensures forall j :: 0 <= j < st.heads && j != index ==> st.HeadAt(j) == old(st.HeadAt(j))
  {
    var newMax := ar.max(st.maximum[index], blockMax);
    RescaleHead(ar, st, index, newMax);
    weights := WeighBlock(ar, scores, newMax);
    assert weights == Weights(ar, query, keys, newMax);
    st.sum[index] := ar.add(st.sum[index], ar.sum(weights));
    st.maximum[index] := newMax;
  }

  /** Copies the rows of a tile out of the output. */
  method LoadTile<S(0), W(0)>(st: State<S, W>, row: nat, count: nat) returns (tile: seq<seq<W>>)
    requires st.Shaped() && row + count <= st.heads
    ensures |tile| == count && RowsOf(tile, st.headDim)
    ensures forall q :: 0 <= q < count ==> tile[q] == st.HeadAt(row + q).output
  {
    tile := [];
    for query := 0 to count
      invariant |tile| == query && RowsOf(tile, st.headDim)
      invariant forall q :: 0 <= q < query ==> tile[q] == st.HeadAt(row + q).output
    {
      var index := row + query;
      RowInside(index, st.heads, st.headDim);
      tile := tile + [st.output[index * st.headDim..index * st.headDim + st.headDim]];
    }
  }

  /** Writes one row of the output. */
  method StoreRow<S(0), W(0)>(st: State<S, W>, index: nat, row: seq<W>)
    requires st.Shaped() && index < st.heads && |row| == st.headDim
    modifies st.output
    ensures st.HeadAt(index) == old(st.HeadAt(index)).(output := row)
    ensures forall j :: 0 <= j < st.heads && j != index ==> st.HeadAt(j) == old(st.HeadAt(j))
  {
    RowInside(index, st.heads, st.headDim);
    ghost var before := st.output[..];
    var lo := index * st.headDim;
    for dim := lo to lo + st.headDim
      invariant forall k :: 0 <= k < st.output.Length ==>
        st.output[k] == if lo <= k < dim then row[k - lo] else before[k]
    {
      st.output[dim] := row[dim - lo];
    }
    RowWritten(before, st.output[..], st.heads, st.headDim, index, row);
  }

  /** One tile of query heads: load, all tokens, store. */
  method AccumulateTile<L, S(0), W(0), X>(ar: Arithmetic<L, S, W, X>, st: State<S, W>, row: nat, count: nat, next: nat,
                                          values: seq<seq<X>>, weights: seq<seq<W>>)
    requires st.Shaped() && next == row + count <= st.heads
    requires |weights| == count && RowsOf(values, st.headDim) && RowsOf(weights, |values|)
    modifies st.output
    ensures forall j :: 0 <= j < st.heads ==>
      st.HeadAt(j) == if row <= j < next then WithValues(ar, old(st.HeadAt(j)), weights[j - row], values)
                      else old(st.HeadAt(j))
  {
    var start := LoadTile(st, row, count);
    var accumulators := TileTokens(ar, start, st.headDim, values, weights);
    for query := 0 to count
      invariant forall j :: 0 <= j < st.heads ==>
        st.HeadAt(j) == if row <= j < row + query then WithValues(ar, old(st.HeadAt(j)), weights[j - row], values)
                        else old(st.HeadAt(j))
    {
      var index := row + query;
      StoreRow(st, index, accumulators[query]);
      assert accumulators[query] == WithValues(ar, old(st.HeadAt(index)), weights[query], values).output;
    }
  }

  /** A head with a block's weighted values added to its output. */
  function WithValues<L, S, W, X>(ar: Arithmetic<L, S, W, X>, h: HeadState<S, W>, weights: seq<W>, values: seq<seq<X>>)
    : (r: HeadState<S, W>)
    requires |weights| == |values| && RowsOf(values, |h.output|)
    ensures |r.output| == |h.output|
  {
    h.(output := RowAccumulated(ar, h.output, weights, values, |values|))
  }

  /** `accumulate_weighted_grouped`: query heads in tiles, the last tile possibly smaller. */
  method AccumulateGrouped<L, S(0), W(0), X>(ar: Arithmetic<L, S, W, X>, st: State<S, W>, first: nat, tile: nat,
                                             values: seq<seq<X>>, weights: seq<seq<W>>)
    requires st.Shaped() && first + |weights| <= st.heads && tile > 0
    requires RowsOf(values, st.headDim) && RowsOf(weights, |values|)
    modifies st.output
    ensures forall j :: 0 <= j < st.heads ==>
      st.HeadAt(j) == if first <= j < first + |weights| then WithValues(ar, old(st.HeadAt(j)), weights[j - first], values)
                      else old(st.HeadAt(j))
  {
    var base: nat := 0;
    while base < |weights|
      invariant base <= |weights|
      invariant forall j :: 0 <= j < st.heads ==>
        st.HeadAt(j) == if first <= j < first + base then WithValues(ar, old(st.HeadAt(j)), weights[j - first], values)
                        else old(st.HeadAt(j))
    {
      var count := Min(tile, |weights| - base);
      AccumulateTile(ar, st, first + base, count, first + base + count, values, weights[base..base + count]);
      base := base + count;
    }
  }

  /** Weights first and values afterwards is one whole step. */
  lemma MidThenValues<L, S, W, X>(ar: Arithmetic<L, S, W, X>, h: HeadState<S, W>, query: seq<X>,
                                  keys: seq<seq<X>>, values: seq<seq<X>>)
    requires RowsOf(keys, |query|) && |keys| == |values| && RowsOf(values, |h.output|)
    ensures WithValues(ar, MidStep(ar, h, query, keys), Weights(ar, query, keys, NewMax(ar, h, query, keys)), values)
            == HeadStep(ar, h, query, keys, values)
  {
  }

  /** Query heads handled together when values are accumulated, by head dimension. */
  function ValueTile(headDim: nat): nat {
    if headDim == 64 then 4 else if headDim == 128 then 2 else 1
  }

  /** The weights of all heads of a group, head after head. */
  method WeighGroup<L, S(0), W(0), X>(ar: Arithmetic<L, S, W, X>, st: State<S, W>, first: nat,
                                      scores: seq<seq<S>>, blockMaximum: seq<S>,
                                      ghost queries: seq<seq<X>>, ghost keys: seq<seq<X>>)
    returns (weights: seq<seq<W>>)
    requires st.Shaped() && first + |queries| <= st.heads
    requires RowsOf(queries, st.headDim) && RowsOf(keys, st.headDim)
    requires AllScored(ar, queries, keys, st.headDim, |keys|, scores, blockMaximum)
    modifies st.maximum, st.sum, st.output
    ensures |weights| == |queries|
    ensures forall r :: 0 <= r < |queries| ==>
      weights[r] == Weights(ar, queries[r], keys, NewMax(ar, old(st.HeadAt(first + r)), queries[r], keys))
    ensures forall j :: 0 <= j < st.heads ==>
      st.HeadAt(j) == if first <= j < first + |queries| then MidStep(ar, old(st.HeadAt(j)), queries[j - first], keys)
                      else old(st.HeadAt(j))
  {
    hide MidStep, NewMax, Weights;
    ghost var before := st.AllHeads();
    weights := [];
    for rep := 0 to |scores|
      invariant |weights| == rep
      invariant forall r :: 0 <= r < rep ==>
        weights[r] == Weights(ar, queries[r], keys, NewMax(ar, before[first + r], queries[r], keys))
      invariant forall j :: 0 <= j < st.heads ==>
        st.HeadAt(j) == if first <= j < first + rep then MidStep(ar, before[j], queries[j - first], keys) else before[j]
    {
      var index := first + rep;
      var headWeights := WeighHead(ar, st, index, scores[rep], blockMaximum[rep], queries[rep], keys);
      weights := weights + [headWeights];
    }
  }

  /** `process_group_block_grouped`, on the rows its pointers stand for. */
  method ProcessHeadsGrouped<L, S(0), W(0), X>(ar: Arithmetic<L, S, W, X>, st: State<S, W>, first: nat,
                                               queries: seq<seq<X>>, keys: seq<seq<X>>, values: seq<seq<X>>)
    requires st.Shaped() && first + |queries| <= st.heads && st.headDim % CHUNK == 0
    requires |keys| == |values|
    requires RowsOf(queries, st.headDim) && RowsOf(keys, st.headDim) && RowsOf(values, st.headDim)
    modifies st.maximum, st.sum, st.output
    ensures forall j :: 0 <= j < st.heads ==>
      st.HeadAt(j) == if first <= j < first + |queries| then HeadStep(ar, old(st.HeadAt(j)), queries[j - first], keys, values)
                      else old(st.HeadAt(j))
  {
    var scores, blockMaximum := GroupedScores(ar, queries, keys, st.headDim);
    var weights := WeighGroup(ar, st, first, scores, blockMaximum, queries, keys);
    AccumulateGrouped(ar, st, first, ValueTile(st.headDim), values, weights);
    forall j | first <= j < first + |queries|
      ensures st.HeadAt(j) == HeadStep(ar, old(st.HeadAt(j)), queries[j - first], keys, values)
    {
      var r := j - first;
      assert weights[r] == Weights(ar, queries[r], keys, NewMax(ar, old(st.HeadAt(first + r)), queries[r], keys));
      MidThenValues(ar, old(st.HeadAt(j)), queries[r], keys, values);
    }
  }
}
