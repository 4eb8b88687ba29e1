/**
 The two layouts of the decode benchmark's key/value pool
 (`benchmarks/cpu/attention_bmm/decode_layout_traversal.cpp`).
 */
module PoolLayout {
  import opened Indexing

  datatype Layout = HeadMajor | BlockMajor

  /** A logical place in the pool; `kv` is 0 for keys and 1 for values. */
  datatype Place = Place(block: nat, head: nat, kv: nat, token: nat, dim: nat)

  datatype PoolShape = PoolShape(totalBlocks: nat, numKvHeads: nat, blockSize: nat, headDim: nat) {

    predicate NonEmpty() {
      totalBlocks > 0 && numKvHeads > 0 && blockSize > 0 && headDim > 0
    }

    predicate Contains(p: Place) {
      p.block < totalBlocks && p.head < numKvHeads && p.kv < 2 && p.token < blockSize && p.dim < headDim
    }

    function Size(): nat {
      numKvHeads * totalBlocks * 2 * blockSize * headDim
    }

    function Outer(layout: Layout, block: nat, head: nat): nat {
      if layout == HeadMajor then head * totalBlocks + block else block * numKvHeads + head
    }

    /** The number of the row of `headDim` elements that holds a token. */
    function RowNumber(layout: Layout, block: nat, head: nat, kv: nat, token: nat): nat {
      (Outer(layout, block, head) * 2 + kv) * blockSize + token
    }

    /** The index of a place in the flat pool. */
    function Offset(layout: Layout, p: Place): nat {
      RowNumber(layout, p.block, p.head, p.kv, p.token) * headDim + p.dim
    }

    /** The place an index of the flat pool stands for. */
    function PlaceAt(layout: Layout, index: nat): Place
      requires NonEmpty()
    {
      var row := Quotient(index, headDim);
      var side := Quotient(row, blockSize);
      var outer := Quotient(side, 2);
      var inner := if layout == HeadMajor then totalBlocks else numKvHeads;
      var major, minor := Quotient(outer, inner), Remainder(outer, inner);
      Place(if layout == HeadMajor then minor else major, if layout == HeadMajor then major else minor,
            Remainder(side, 2), Remainder(row, blockSize), Remainder(index, headDim))
    }
  }

  lemma OuterBound(s: PoolShape, layout: Layout, block: nat, head: nat)
    requires block < s.totalBlocks && head < s.numKvHeads
    ensures s.Outer(layout, block, head) < s.numKvHeads * s.totalBlocks
  {
    if layout == HeadMajor {
      JoinBound(head, block, s.numKvHeads, s.totalBlocks);
    } else {
      JoinBound(block, head, s.totalBlocks, s.numKvHeads);
    }
  }

  lemma RowBound(s: PoolShape, layout: Layout, block: nat, head: nat, kv: nat, token: nat)
    requires block < s.totalBlocks && head < s.numKvHeads && kv < 2 && token < s.blockSize
    ensures s.RowNumber(layout, block, head, kv, token) < s.numKvHeads * s.totalBlocks * 2 * s.blockSize
  {
    OuterBound(s, layout, block, head);
    var outer := s.Outer(layout, block, head);
    JoinBound(outer, kv, s.numKvHeads * s.totalBlocks, 2);
    JoinBound(outer * 2 + kv, token, s.numKvHeads * s.totalBlocks * 2, s.blockSize);
  }

  /** Every place of the pool has an index inside it, and the index leads back to the place. */
  lemma OffsetThenPlace(s: PoolShape, layout: Layout, p: Place)
    requires s.Contains(p)
    ensures s.Offset(layout, p) < s.Size()
    ensures s.NonEmpty() && s.PlaceAt(layout, s.Offset(layout, p)) == p
  {
    RowBound(s, layout, p.block, p.head, p.kv, p.token);
    var row := s.RowNumber(layout, p.block, p.head, p.kv, p.token);
    var outer := s.Outer(layout, p.block, p.head);
    JoinBound(row, p.dim, s.numKvHeads * s.totalBlocks * 2 * s.blockSize, s.headDim);
    JoinSplit(row, p.dim, s.headDim);
    JoinSplit(outer * 2 + p.kv, p.token, s.blockSize);
    JoinSplit(outer, p.kv, 2);
    if layout == HeadMajor {
      JoinSplit(p.head, p.block, s.totalBlocks);
    } else {
      JoinSplit(p.block, p.head, s.numKvHeads);
    }
  }

  /** Every index of the pool stands for a place in it, and the place leads back to the index. */
  lemma PlaceThenOffset(s: PoolShape, layout: Layout, index: nat)
    requires s.NonEmpty() && index < s.Size()
    ensures s.Contains(s.PlaceAt(layout, index))
    ensures s.Offset(layout, s.PlaceAt(layout, index)) == index
  {
    var outers := s.numKvHeads * s.totalBlocks;
    SplitBound(index, outers * 2 * s.blockSize, s.headDim);
    var row := index / s.headDim;
    SplitBound(row, outers * 2, s.blockSize);
    var side := row / s.blockSize;
    SplitBound(side, outers, 2);
    var outer := side / 2;
    if layout == HeadMajor {
      SplitBound(outer, s.numKvHeads, s.totalBlocks);
    } else {
      SplitBound(outer, s.totalBlocks, s.numKvHeads);
    }
    var p := s.PlaceAt(layout, index);
    assert s.Outer(layout, p.block, p.head) == outer;
    assert s.RowNumber(layout, p.block, p.head, p.kv, p.token) == row;
  }

  lemma OffsetInjective(s: PoolShape, layout: Layout, p: Place, q: Place)
    requires s.Contains(p) && s.Contains(q) && s.Offset(layout, p) == s.Offset(layout, q)
    ensures p == q
  {
    OffsetThenPlace(s, layout, p);
    OffsetThenPlace(s, layout, q);
  }

  // ----- filling both pools with the same values -----

  /**
   The first `n` draws are in both pools, each at the place it was drawn for: places are visited in
   the order of their block-major index.
   */
  ghost predicate Filled<X>(s: PoolShape, headMajor: seq<X>, blockMajor: seq<X>, draw: nat -> X, n: nat) {
    && |headMajor| == |blockMajor| == s.Size()
    && (forall p :: s.Contains(p) ==> s.Offset(HeadMajor, p) < s.Size() && s.Offset(BlockMajor, p) < s.Size())
    && forall p :: s.Contains(p) && s.Offset(BlockMajor, p) < n ==>
         && blockMajor[s.Offset(BlockMajor, p)] == draw(s.Offset(BlockMajor, p))
         && headMajor[s.Offset(HeadMajor, p)] == draw(s.Offset(BlockMajor, p))
  }

  lemma NothingFilled<X>(s: PoolShape, headMajor: seq<X>, blockMajor: seq<X>, draw: nat -> X)
    requires |headMajor| == |blockMajor| == s.Size()
    ensures Filled(s, headMajor, blockMajor, draw, 0)
  {
    forall p | s.Contains(p)
      ensures s.Offset(HeadMajor, p) < s.Size() && s.Offset(BlockMajor, p) < s.Size()
    {
      OffsetThenPlace(s, HeadMajor, p);
      OffsetThenPlace(s, BlockMajor, p);
    }
  }

  lemma FillNext<X>(s: PoolShape, headMajor: seq<X>, blockMajor: seq<X>, draw: nat -> X, q: Place, n: nat, next: nat)
    requires Filled(s, headMajor, blockMajor, draw, n)
    requires s.Contains(q) && s.Offset(BlockMajor, q) == n && next == n + 1
    ensures s.Offset(HeadMajor, q) < s.Size() && n < s.Size()
    ensures Filled(s, headMajor[s.Offset(HeadMajor, q) := draw(n)], blockMajor[n := draw(n)], draw, next)
  {
    var hm, bm := headMajor[s.Offset(HeadMajor, q) := draw(n)], blockMajor[n := draw(n)];
    forall p | s.Contains(p) && s.Offset(BlockMajor, p) < next
      ensures bm[s.Offset(BlockMajor, p)] == draw(s.Offset(BlockMajor, p))
      ensures hm[s.Offset(HeadMajor, p)] == draw(s.Offset(BlockMajor, p))
    {
      if s.Offset(BlockMajor, p) == n {
        OffsetInjective(s, BlockMajor, p, q);
      } else if s.Offset(HeadMajor, p) == s.Offset(HeadMajor, q) {
        OffsetInjective(s, HeadMajor, p, q);
      }
    }
  }

  /** Running off the end of one loop is where the loop around it goes on. */
  lemma CarryDim(s: PoolShape, block: nat, head: nat, kv: nat, token: nat)
    ensures s.Offset(BlockMajor, Place(block, head, kv, token, s.headDim))
            == s.Offset(BlockMajor, Place(block, head, kv, token + 1, 0))
  {
    NextMultiple(s.RowNumber(BlockMajor, block, head, kv, token), s.headDim);
  }

  lemma CarryToken(s: PoolShape, block: nat, head: nat, kv: nat)
    ensures s.Offset(BlockMajor, Place(block, head, kv, s.blockSize, 0))
            == s.Offset(BlockMajor, Place(block, head, kv + 1, 0, 0))
  {
    NextMultiple(s.Outer(BlockMajor, block, head) * 2 + kv, s.blockSize);
  }

  lemma CarryHead(s: PoolShape, block: nat)
    ensures s.Offset(BlockMajor, Place(block, s.numKvHeads, 0, 0, 0))
            == s.Offset(BlockMajor, Place(block + 1, 0, 0, 0, 0))
  {
    NextMultiple(block, s.numKvHeads);
  }

  /** One row of both pools. */
  method FillRow<X>(s: PoolShape, headMajor: array<X>, blockMajor: array<X>, draw: nat -> X,
                    block: nat, head: nat, kv: nat, token: nat, n: nat) returns (m: nat)
    requires headMajor != blockMajor
    requires block < s.totalBlocks && head < s.numKvHeads && kv < 2 && token < s.blockSize
    requires n == s.Offset(BlockMajor, Place(block, head, kv, token, 0))
    requires Filled(s, headMajor[..], blockMajor[..], draw, n)
    modifies headMajor, blockMajor
    ensures m == s.Offset(BlockMajor, Place(block, head, kv, token + 1, 0))
    ensures Filled(s, headMajor[..], blockMajor[..], draw, m)
  {
    m := n;
    for dim := 0 to s.headDim
      invariant m == s.Offset(BlockMajor, Place(block, head, kv, token, dim))
      invariant Filled(s, headMajor[..], blockMajor[..], draw, m)
    {
      var place := Place(block, head, kv, token, dim);
      FillNext(s, headMajor[..], blockMajor[..], draw, place, m, m + 1);
      var value := draw(m);
      ghost var hm, bm := headMajor[..], blockMajor[..];
      headMajor[s.Offset(HeadMajor, place)] := value;
      blockMajor[s.Offset(BlockMajor, place)] := value;
      assert headMajor[..] == hm[s.Offset(HeadMajor, place) := value];
      assert blockMajor[..] == bm[m := value];
      m := m + 1;
    }
    CarryDim(s, block, head, kv, token);
  }

  /**
   The workload constructor's five nested loops: both pools are filled from one stream of draws
   and agree at every logical place.
   */
  method FillPools<X(0)>(s: PoolShape, draw: nat -> X) returns (headMajor: array<X>, blockMajor: array<X>)
    ensures headMajor.Length == blockMajor.Length == s.Size()
    ensures forall p :: s.Contains(p) ==>
      && s.Offset(HeadMajor, p) < s.Size() && s.Offset(BlockMajor, p) < s.Size()
      && headMajor[s.Offset(HeadMajor, p)] == blockMajor[s.Offset(BlockMajor, p)] == draw(s.Offset(BlockMajor, p))
  {
    headMajor := new X[s.Size()];
    blockMajor := new X[s.Size()];
    var n: nat := 0;
    NothingFilled(s, headMajor[..], blockMajor[..], draw);
    for block := 0 to s.totalBlocks
      invariant n == s.Offset(BlockMajor, Place(block, 0, 0, 0, 0))
      invariant Filled(s, headMajor[..], blockMajor[..], draw, n)
    {
      for head := 0 to s.numKvHeads
        invariant n == s.Offset(BlockMajor, Place(block, head, 0, 0, 0))
        invariant Filled(s, headMajor[..], blockMajor[..], draw, n)
      {
        for kv := 0 to 2
          invariant n == s.Offset(BlockMajor, Place(block, head, kv, 0, 0))
          invariant Filled(s, headMajor[..], blockMajor[..], draw, n)
        {
          for token := 0 to s.blockSize
            invariant n == s.Offset(BlockMajor, Place(block, head, kv, token, 0))
            invariant Filled(s, headMajor[..], blockMajor[..], draw, n)
          {
            n := FillRow(s, headMajor, blockMajor, draw, block, head, kv, token, n);
          }
          CarryToken(s, block, head, kv);
        }
        CarryKv(s, block, head);
      }
      CarryHead(s, block);
    }
    AllVisited(s, headMajor[..], blockMajor[..], draw, n);
  }

  lemma CarryKv(s: PoolShape, block: nat, head: nat)
    ensures s.Offset(BlockMajor, Place(block, head, 2, 0, 0))
            == s.Offset(BlockMajor, Place(block, head + 1, 0, 0, 0))
  {
    NextMultiple(s.Outer(BlockMajor, block, head), 2);
  }

  lemma AllVisited<X>(s: PoolShape, headMajor: seq<X>, blockMajor: seq<X>, draw: nat -> X, n: nat)
    requires Filled(s, headMajor, blockMajor, draw, n)
    requires n == s.Offset(BlockMajor, Place(s.totalBlocks, 0, 0, 0, 0))
    ensures forall p :: s.Contains(p) ==>
      && s.Offset(HeadMajor, p) < s.Size() && s.Offset(BlockMajor, p) < s.Size()
      && headMajor[s.Offset(HeadMajor, p)] == blockMajor[s.Offset(BlockMajor, p)] == draw(s.Offset(BlockMajor, p))
  {
    assert n == s.Size() by {
      assert s.totalBlocks * s.numKvHeads == s.numKvHeads * s.totalBlocks;
    }
  }

  // ----- blocks of a sequence -----

  /** Blocks a sequence of the given length takes, the last of them possibly part full. */
  function BlocksPerSequence(sequenceLength: nat, blockSize: nat): nat
    requires blockSize > 0
  {
    (sequenceLength + blockSize - 1) / blockSize
  }

  /** Tokens in one block of a sequence. */
  function TokensInBlock(sequenceLength: nat, blockSize: nat, block: nat): int
    requires blockSize > 0
  {
    if block + 1 == BlocksPerSequence(sequenceLength, blockSize)
    then sequenceLength - block * blockSize
    else blockSize
  }

  /** Where a block's tokens start in the sequence: blocks before the last are full. */
  lemma BlockRange(sequenceLength: nat, blockSize: nat, block: nat)
    requires blockSize > 0 && block < BlocksPerSequence(sequenceLength, blockSize)
    ensures 0 < TokensInBlock(sequenceLength, blockSize, block) <= blockSize
    ensures block * blockSize + TokensInBlock(sequenceLength, blockSize, block)
            == if block + 1 < BlocksPerSequence(sequenceLength, blockSize) then (block + 1) * blockSize else sequenceLength
  {
    var blocks := BlocksPerSequence(sequenceLength, blockSize);
    DivMod(sequenceLength + blockSize - 1, blockSize);
    NextMultiple(block, blockSize);
    NextMultiple(blocks - 1, blockSize);
    MulMonotone(block + 1, blocks, blockSize);
  }

  function TokensBefore(sequenceLength: nat, blockSize: nat, block: nat): int
    requires blockSize > 0
  {
    if block == 0 then 0
    else TokensBefore(sequenceLength, blockSize, block - 1) + TokensInBlock(sequenceLength, blockSize, block - 1)
  }

  /** The blocks of a sequence hold exactly its tokens. */
  lemma {:induction false} BlocksCoverSequence(sequenceLength: nat, blockSize: nat, block: nat)
    requires blockSize > 0 && block <= BlocksPerSequence(sequenceLength, blockSize)
    ensures TokensBefore(sequenceLength, blockSize, block)
            == if block < BlocksPerSequence(sequenceLength, blockSize) then block * blockSize else sequenceLength
  {
    if block > 0 {
      BlocksCoverSequence(sequenceLength, blockSize, block - 1);
      BlockRange(sequenceLength, blockSize, block - 1);
    } else {
      DivMod(sequenceLength + blockSize - 1, blockSize);
    }
  }
}
