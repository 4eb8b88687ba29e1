/**
 Every run of the decode benchmark computes softmax attention, in exact arithmetic.
 (`benchmarks/cpu/attention_bmm/decode_layout_traversal.cpp`)
 */
module SoftmaxRuns {
  import opened Indexing
  import opened Exponentials
  import opened PoolLayout
  import opened DecodeAttention
  import opened DecodeState
  import opened DecodeWorkload
  import opened OnlineSoftmax

  /** A token of a sequence is in the block its position falls into. */
  lemma TokenInPool(w: Workload<int>, group: nat, token: nat)
    requires w.Valid() && group < w.Groups() && token < w.sequenceLength
    ensures w.shape.numKvHeads > 0 && 0 <= group / w.shape.numKvHeads < w.batchSize
    ensures token / w.shape.blockSize < w.Blocks()
    ensures w.PhysicalBlock(group / w.shape.numKvHeads, token / w.shape.blockSize) < w.shape.totalBlocks
  {
    var size := w.shape.blockSize;
    SplitBound(group, w.batchSize, w.shape.numKvHeads);
    DivMod(w.sequenceLength + size - 1, size);
    DivMod(token, size);
    if token / size >= w.Blocks() {
      MulMonotone(w.Blocks(), token / size, size);
    }
    JoinBound(group / w.shape.numKvHeads, token / size, w.batchSize, w.Blocks());
  }

  /** The key (`kv` 0) or value (`kv` 1) row of a token of the sequence a group works on. */
  function TokenRow(w: Workload<int>, group: nat, token: nat, kv: nat): (row: seq<int>)
    requires w.Valid() && group < w.Groups() && token < w.sequenceLength && kv < 2
    ensures |row| == w.shape.headDim
  {
    TokenInPool(w, group, token);
    PoolRow(w, BlockMajor, w.PhysicalBlock(group / w.shape.numKvHeads, token / w.shape.blockSize),
            group % w.shape.numKvHeads, kv, token % w.shape.blockSize)
  }

  // ----- the same by plain indices -----

  /** The place in the pool of element `dim` of a token of the sequence of query head `j`. */
  function PlaceOf(w: Workload<int>, j: nat, kv: nat, t: nat, dim: nat): (p: Place)
    requires w.Valid() && j < Heads(w) && t < w.sequenceLength
  {
    GroupParts(w, j);
    var batch, blocks := Quotient(j, w.numQHeads), Quotient(w.sequenceLength + w.shape.blockSize - 1, w.shape.blockSize);
    NonNegative(batch, blocks);
    Place(batch * blocks + Quotient(t, w.shape.blockSize),
          Quotient(Remainder(j, w.numQHeads), Quotient(w.numQHeads, w.shape.numKvHeads)),
          kv, Remainder(t, w.shape.blockSize), dim)
  }

  lemma PlaceInPool(w: Workload<int>, j: nat, kv: nat, t: nat, dim: nat)
    requires w.Valid() && j < Heads(w) && t < w.sequenceLength && kv < 2 && dim < w.shape.headDim
    ensures w.shape.Contains(PlaceOf(w, j, kv, t, dim))
    ensures w.shape.Offset(BlockMajor, PlaceOf(w, j, kv, t, dim)) < |w.blockMajor|
    ensures TokenRow(w, GroupOf(w, j), t, kv)[dim] == w.blockMajor[w.shape.Offset(BlockMajor, PlaceOf(w, j, kv, t, dim))]
  {
    GroupParts(w, j);
    TokenInPool(w, GroupOf(w, j), t);
    DivMod(t, w.shape.blockSize);
    PoolElement(w, BlockMajor, PlaceOf(w, j, kv, t, dim));
  }

  /** The keys (`kv` 0) or values (`kv` 1) of a query head's sequence, element by element out of the pool. */
  function SequenceRows(w: Workload<int>, j: nat, kv: nat): (rows: seq<seq<int>>)
    requires w.Valid() && j < Heads(w) && kv < 2
    ensures |rows| == w.sequenceLength && RowsOf(rows, w.shape.headDim)
  {
    seq(w.sequenceLength, t requires 0 <= t < w.sequenceLength =>
      seq(w.shape.headDim, d requires 0 <= d < w.shape.headDim =>
        PlaceInPool(w, j, kv, t, d);
        w.blockMajor[w.shape.Offset(BlockMajor, PlaceOf(w, j, kv, t, d))]))
  }

  lemma RowIsTokenRow(w: Workload<int>, j: nat, kv: nat, t: nat)
    requires w.Valid() && j < Heads(w) && kv < 2 && t < w.sequenceLength
    ensures SequenceRows(w, j, kv)[t] == TokenRow(w, GroupOf(w, j), t, kv)
  {
    forall d | 0 <= d < w.shape.headDim
      ensures SequenceRows(w, j, kv)[t][d] == TokenRow(w, GroupOf(w, j), t, kv)[d]
    {
      PlaceInPool(w, j, kv, t, d);
    }
  }

  /** The elements of a query. */
  function QueryElements(w: Workload<int>, j: nat): (query: seq<int>)
    requires w.Valid() && j < Heads(w)
    ensures |query| == w.shape.headDim
    ensures query == QueryRow(w, j)
  {
    RowInside(j, Heads(w), w.shape.headDim);
    seq(w.shape.headDim, d requires 0 <= d < w.shape.headDim => w.queries[j * w.shape.headDim + d])
  }

  /** A query head's values, and its scores against every key of its sequence. */
  function HeadValues(w: Workload<int>, j: nat): (values: seq<seq<int>>)
    requires w.Valid() && j < Heads(w)
    ensures |values| == w.sequenceLength && RowsOf(values, w.shape.headDim)
  {
    SequenceRows(w, j, 1)
  }

  function HeadScores(w: Workload<int>, j: nat, factor: int): (scores: seq<int>)
    requires w.Valid() && j < Heads(w)
    ensures |scores| == w.sequenceLength
  {
    var keys := SequenceRows(w, j, 0);
    seq(w.sequenceLength, t requires 0 <= t < w.sequenceLength => Dot(QueryElements(w, j), keys[t], w.shape.headDim) * factor)
  }

  /** What a block's step reads is the sequence from the block's first token on. */
  lemma BlockRowIsToken(w: Workload<int>, group: nat, block: nat, kv: nat, t: nat, token: nat)
    requires w.Valid() && group < w.Groups() && block < w.Blocks() && kv < 2
    requires t < TokensInBlock(w.sequenceLength, w.shape.blockSize, block)
    requires token == block * w.shape.blockSize + t
    ensures token < w.sequenceLength
    ensures GroupRows(w, BlockMajor, group, block, kv)[t] == TokenRow(w, group, token, kv)
  {
    BlockRange(w.sequenceLength, w.shape.blockSize, block);
    BlockEnds(w, block);
    JoinSplit(block, t, w.shape.blockSize);
    TokenInPool(w, group, token);
  }

  lemma BlockEnds(w: Workload<int>, block: nat)
    requires w.Valid() && block < w.Blocks()
    ensures 0 <= block * w.shape.blockSize
    ensures block * w.shape.blockSize + TokensInBlock(w.sequenceLength, w.shape.blockSize, block) <= w.sequenceLength
  {
    var size := w.shape.blockSize;
    NonNegative(block, size);
    BlockRange(w.sequenceLength, size, block);
    if block + 1 < w.Blocks() {
      MulMonotone(block + 1, w.Blocks() - 1, size);
      NextMultiple(w.Blocks() - 1, size);
      DivMod(w.sequenceLength + size - 1, size);
    }
  }

  lemma StepReadsToken(w: Workload<int>, j: nat, factor: int, block: nat, t: nat, token: nat)
    requires w.Valid() && j < Heads(w) && block < w.Blocks() && t < TokensInBlock(w.sequenceLength, w.shape.blockSize, block)
    requires token == block * w.shape.blockSize + t
    ensures token < w.sequenceLength
    ensures HeadScores(w, j, factor)[token]
            == ExactScore(factor, QueryRow(w, j), GroupRows(w, BlockMajor, GroupOf(w, j), block, 0)[t])
    ensures HeadValues(w, j)[token] == GroupRows(w, BlockMajor, GroupOf(w, j), block, 1)[t]
  {
    var group := GroupOf(w, j);
    BlockRowIsToken(w, group, block, 0, t, token);
    BlockRowIsToken(w, group, block, 1, t, token);
    hide SequenceRows, TokenRow, GroupRows, QueryElements, QueryRow, Dot, Workload.Blocks, Workload.PhysicalBlock;
    RowIsTokenRow(w, j, 0, token);
    RowIsTokenRow(w, j, 1, token);
  }

  lemma StepReadsBlock(w: Workload<int>, j: nat, factor: int, block: nat, k: nat, next: nat)
    requires w.Valid() && j < Heads(w) && block < w.Blocks()
    requires k == block * w.shape.blockSize
    requires next == k + TokensInBlock(w.sequenceLength, w.shape.blockSize, block)
    ensures next <= w.sequenceLength
    ensures IsBlock(factor, QueryRow(w, j), GroupRows(w, BlockMajor, GroupOf(w, j), block, 0),
                    GroupRows(w, BlockMajor, GroupOf(w, j), block, 1), HeadScores(w, j, factor), HeadValues(w, j), k, next)
  {
    BlockEnds(w, block);
    hide GroupRows, QueryRow, GroupOf, HeadScores, HeadValues, ExactScore, Workload.Blocks, TokensInBlock;
    var group := GroupOf(w, j);
    var keys, values := GroupRows(w, BlockMajor, group, block, 0), GroupRows(w, BlockMajor, group, block, 1);
    var query, scores, all := QueryRow(w, j), HeadScores(w, j, factor), HeadValues(w, j);
    assert RowsOf(keys, |query|) && |keys| == |values| && |keys| == next - k && next <= |scores| && |scores| == |all|;
    hide *;
    forall t: nat | t < |keys|
      ensures scores[k + t] == ExactScore(factor, query, keys[t]) && all[k + t] == values[t]
    {
      StepReadsToken(w, j, factor, block, t, k + t);
    }
    TokensMakeBlock(factor, query, keys, values, scores, all, k, next);
  }

  lemma TokensMakeBlock(factor: int, query: seq<int>, keys: seq<seq<int>>, blockValues: seq<seq<int>>,
                        scores: seq<int>, values: seq<seq<int>>, k: nat, next: nat)
    requires RowsOf(keys, |query|) && |keys| == |blockValues| && next == k + |keys| <= |scores| == |values|
    requires forall t: nat :: t < |keys| ==>
      scores[k + t] == ExactScore(factor, query, keys[t]) && values[k + t] == blockValues[t]
    ensures IsBlock(factor, query, keys, blockValues, scores, values, k, next)
  {
  }

  /** After any number of blocks the running state is that of the tokens seen. */
  lemma {:induction false} HeadAfterRepresents(exp: Exponential, factor: int, w: Workload<int>, j: nat, n: nat, k: nat)
    requires exp.Lawful() && w.Valid() && j < Heads(w) && n <= w.Blocks()
    requires k == TokensBefore(w.sequenceLength, w.shape.blockSize, n) <= w.sequenceLength
    ensures Represents(exp, HeadAfter(Exact(exp, factor), w, j, n), HeadScores(w, j, factor), HeadValues(w, j), k)
  {
    if n == 0 {
      ResetRepresents(exp, factor, HeadScores(w, j, factor), HeadValues(w, j), w.shape.headDim);
    } else {
      var before := TokensBefore(w.sequenceLength, w.shape.blockSize, n - 1);
      BlocksCoverSequence(w.sequenceLength, w.shape.blockSize, n - 1);
      StepReadsBlock(w, j, factor, n - 1, before, k);
      HeadAfterRepresents(exp, factor, w, j, n - 1, before);
      hide HeadScores, HeadValues, QueryRow, GroupRows, Represents, HeadStep, Exact, IsBlock, TokensBefore;
      StepRepresents(exp, factor, HeadAfter(Exact(exp, factor), w, j, n - 1), QueryRow(w, j),
                     GroupRows(w, BlockMajor, GroupOf(w, j), n - 1, 0), GroupRows(w, BlockMajor, GroupOf(w, j), n - 1, 1),
                     HeadScores(w, j, factor), HeadValues(w, j), before, k);
    }
  }

  /** The normalised output of a head is softmax attention over its whole sequence. */
  lemma HeadIsAttention(exp: Exponential, factor: int, w: Workload<int>, j: nat, dim: nat)
    requires exp.Lawful() && w.Valid() && j < Heads(w) && dim < w.shape.headDim
    ensures Normalise(Exact(exp, factor), HeadAfter(Exact(exp, factor), w, j, w.Blocks())).output[dim]
            == Attention(exp, HeadScores(w, j, factor), HeadValues(w, j), w.shape.headDim, dim)
  {
    BlocksCoverSequence(w.sequenceLength, w.shape.blockSize, w.Blocks());
    HeadAfterRepresents(exp, factor, w, j, w.Blocks(), w.sequenceLength);
    NormaliseIsAttention(exp, factor, HeadAfter(Exact(exp, factor), w, j, w.Blocks()), HeadScores(w, j, factor),
                         HeadValues(w, j), dim);
  }

  /** Whatever the candidate, a run leaves softmax attention in the output of every query head. */
  method RunExactly(exp: Exponential, factor: int, w: Workload<int>, candidate: Candidate, st: State<Extended, real>)
    requires exp.Lawful() && w.Valid() && Fits(st, w)
    modifies st.maximum, st.sum, st.output
    ensures forall j, dim :: 0 <= j < Heads(w) && 0 <= dim < w.shape.headDim ==>
      st.HeadAt(j).output[dim] == Attention(exp, HeadScores(w, j, factor), HeadValues(w, j), w.shape.headDim, dim)
  {
    Run(Exact(exp, factor), w, candidate, st);
    forall j, dim | 0 <= j < Heads(w) && 0 <= dim < w.shape.headDim
      ensures st.HeadAt(j).output[dim] == Attention(exp, HeadScores(w, j, factor), HeadValues(w, j), w.shape.headDim, dim)
    {
      HeadIsAttention(exp, factor, w, j, dim);
    }
  }
}
