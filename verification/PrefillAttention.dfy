/**
 Prefill attention over padded batches: the batch is cut into work items, the items are executed in
 any order and with any interleaving, and padding rows are cleared
 (`csrc/ops/prefill_attention.cpp`).

 An output row is the `headDim` elements of one query head at one position.  What the tile kernel
 computes for a row depends only on the operands and is a parameter here; `PrefillTiles` says what it is.
 */
module PrefillAttention {
  import opened Results
  import opened Indexing

  const DEFAULT_BLOCK_SIZE: nat := 64
  const Q_TILE: nat := 64

  /** Shape of the call; `qOffsets` is empty when every sequence fills its padded length. */
  datatype Call = Call(batchSize: nat, numQHeads: nat, numKvHeads: nat, qPadded: nat, kvPadded: nat,
                       qOffsets: seq<int>, qLens: seq<int>)
  {
    predicate PerSequence() { qOffsets != [] }

    /** What the op checks before it starts. */
    predicate Checked()
      requires numKvHeads > 0
    {
      && numQHeads % numKvHeads == 0
      && (PerSequence() ==> |qOffsets| == batchSize && |qLens| == batchSize)
    }

    function QLen(b: nat): int
      requires PerSequence() ==> b < |qLens|
    {
      if PerSequence() then qLens[b] else qPadded
    }

    function QOffset(b: nat): int
      requires PerSequence() ==> b < |qOffsets|
    {
      if PerSequence() then qOffsets[b] else 0
    }

    /** Real tokens lie inside the padded queries and keys. */
    ghost predicate InBounds()
      requires numKvHeads > 0 && Checked()
    {
      if qOffsets == [] then batchSize > 0 ==> qPadded <= kvPadded
      else forall b :: 0 <= b < batchSize ==>
        0 <= qOffsets[b] && 0 <= qLens[b] && qOffsets[b] + qLens[b] <= qPadded && qOffsets[b] + qLens[b] <= kvPadded
    }

    ghost predicate Valid() { numKvHeads > 0 && Checked() && InBounds() }

    function Repetitions(): nat
      requires numKvHeads > 0
    {
      numQHeads / numKvHeads
    }

    function Rows(): nat { batchSize * numQHeads * qPadded }

    function RowIndex(b: nat, qHead: nat, position: nat): nat {
      (b * numQHeads + qHead) * qPadded + position
    }

    predicate HasRow(b: nat, qHead: nat, position: nat) {
      b < batchSize && qHead < numQHeads && position < qPadded
    }
  }

  // ----- blocks and tiles of one sequence -----

  function ChooseBlockSize(kvLen: nat): nat {
    if kvLen <= 64 then (kvLen + 15) / 16 * 16 else DEFAULT_BLOCK_SIZE
  }

  function Blocks(qLen: nat): nat {
    if qLen > 0 && ChooseBlockSize(qLen) > 0 then (qLen + ChooseBlockSize(qLen) - 1) / ChooseBlockSize(qLen) else 0
  }

  function QueryTiles(qLen: nat): nat {
    if qLen > 0 then (qLen + Q_TILE - 1) / Q_TILE else 0
  }

  /** Query rows of one tile. */
  function TileRows(qLen: nat, tile: nat): int {
    var start := tile * Q_TILE;
    var end := if start + Q_TILE < qLen then start + Q_TILE else qLen;
    end - start
  }

  /**
   Key blocks of a multiple of 16 tokens, at most 64, that cover the sequence with no block to spare;
   one block is enough up to 64 tokens.
   */
  lemma BlocksCover(qLen: nat)
    ensures qLen == 0 ==> Blocks(qLen) == 0
    ensures qLen > 0 ==> 0 < ChooseBlockSize(qLen) <= 64 && ChooseBlockSize(qLen) % 16 == 0
    ensures qLen > 0 ==> (Blocks(qLen) - 1) * ChooseBlockSize(qLen) < qLen <= Blocks(qLen) * ChooseBlockSize(qLen)
    ensures 0 < qLen <= 64 ==> Blocks(qLen) == 1 && qLen <= ChooseBlockSize(qLen) < qLen + 16
    ensures qLen > 64 ==> ChooseBlockSize(qLen) == 64
  {
    if qLen > 0 {
      var size := ChooseBlockSize(qLen);
      assert 0 < size <= 64;
      DivMod(qLen + size - 1, size);
      NextMultiple(Blocks(qLen) - 1, size);
      if qLen <= 64 {
        assert qLen <= size;
        if Blocks(qLen) >= 2 {
          MulMonotone(2, Blocks(qLen), size);
        }
      }
    }
  }

  /** A row of the sequence is in exactly one tile, and a tile has one to 64 rows. */
  lemma TilesPartition(qLen: nat, token: nat)
    requires token < qLen
    ensures 0 <= token / 64 < QueryTiles(qLen)
    ensures 0 <= token % 64 < TileRows(qLen, token / 64) <= 64
    ensures (token / 64) * 64 + token % 64 == token
  {
  }

  lemma TileInside(qLen: nat, tile: nat)
    requires tile < QueryTiles(qLen)
    ensures 0 < TileRows(qLen, tile) <= Q_TILE
    ensures tile * Q_TILE + TileRows(qLen, tile) <= qLen
  {
  }

  // ----- work items -----

  datatype WorkItem = WorkItem(b: nat, kvHead: nat, tile: nat)

  predicate IsItem(s: Call, item: WorkItem)
    requires s.numKvHeads > 0 && s.Checked()
  {
    && item.b < s.batchSize && item.kvHead < s.numKvHeads
    && s.QLen(item.b) >= 0 && item.tile < QueryTiles(s.QLen(item.b))
  }

  /** Work items of the first `b` sequences. */
  function WorkBefore(s: Call, b: nat): nat
    requires s.numKvHeads > 0 && s.Checked() && b <= s.batchSize
    requires forall i :: 0 <= i < b ==> s.QLen(i) >= 0
  {
    if b == 0 then 0 else WorkBefore(s, b - 1) + s.numKvHeads * QueryTiles(s.QLen(b - 1))
  }

  /** Where an item is in the list of all items. */
  function ItemIndex(s: Call, item: WorkItem): nat
    requires s.Valid() && item.b < s.batchSize
  {
    WorkBefore(s, item.b) + (item.kvHead * QueryTiles(s.QLen(item.b)) + item.tile)
  }

  lemma {:induction false} WorkMonotone(s: Call, b: nat, c: nat)
    requires s.Valid() && b <= c <= s.batchSize
    ensures WorkBefore(s, b) <= WorkBefore(s, c)
    decreases c - b
  {
    if b < c {
      WorkMonotone(s, b, c - 1);
      NonNegative(s.numKvHeads, QueryTiles(s.QLen(c - 1)));
    }
  }

  lemma ItemIndexInside(s: Call, item: WorkItem)
    requires s.Valid() && IsItem(s, item)
    ensures WorkBefore(s, item.b) <= ItemIndex(s, item) < WorkBefore(s, item.b + 1) <= WorkBefore(s, s.batchSize)
  {
    JoinBound(item.kvHead, item.tile, s.numKvHeads, QueryTiles(s.QLen(item.b)));
    WorkMonotone(s, item.b + 1, s.batchSize);
  }

  lemma ItemIndexInjective(s: Call, x: WorkItem, y: WorkItem)
    requires s.Valid() && IsItem(s, x) && IsItem(s, y) && ItemIndex(s, x) == ItemIndex(s, y)
    ensures x == y
  {
    ItemIndexInside(s, x);
    ItemIndexInside(s, y);
    if x.b < y.b {
      WorkMonotone(s, x.b + 1, y.b);
    } else if y.b < x.b {
      WorkMonotone(s, y.b + 1, x.b);
    } else {
      JoinInjective(x.kvHead, x.tile, y.kvHead, y.tile, QueryTiles(s.QLen(x.b)));
    }
  }

  /** The list holds every item exactly once: position `x` holds the item with index `x`. */
  ghost predicate Listed(s: Call, items: seq<WorkItem>, n: nat)
    requires s.Valid()
  {
    n <= |items| && forall x :: 0 <= x < n ==> IsItem(s, items[x]) && ItemIndex(s, items[x]) == x
  }

  /** So each item is there, and there once. */
  lemma EveryItemOnce(s: Call, items: seq<WorkItem>, item: WorkItem, x: nat)
    requires s.Valid() && |items| == WorkBefore(s, s.batchSize) && Listed(s, items, |items|)
    requires IsItem(s, item) && x < |items|
    ensures ItemIndex(s, item) < |items|
    ensures items[x] == item <==> x == ItemIndex(s, item)
  {
    ItemIndexInside(s, item);
    ItemIndexInjective(s, items[ItemIndex(s, item)], item);
  }

  lemma ListedNext(s: Call, before: seq<WorkItem>, after: seq<WorkItem>, n: nat, item: WorkItem)
    requires s.Valid() && Listed(s, before, n) && n < |before|
    requires IsItem(s, item) && ItemIndex(s, item) == n && after == before[n := item]
    ensures Listed(s, after, n + 1)
  {
  }

  lemma ItemIsNext(s: Call, item: WorkItem, tiles: nat, n: nat)
    requires s.Valid() && item.b < s.batchSize && item.kvHead < s.numKvHeads && item.tile < tiles == QueryTiles(s.QLen(item.b))
    requires n == WorkBefore(s, item.b) + (item.kvHead * tiles + item.tile)
    ensures IsItem(s, item) && ItemIndex(s, item) == n < WorkBefore(s, s.batchSize)
  {
    ItemIndexInside(s, item);
  }

  /** The three nested loops that list the work items fill exactly `totalWork` places. */
  method ListItems(s: Call, totalWork: nat) returns (items: array<WorkItem>)
    requires s.Valid() && totalWork == WorkBefore(s, s.batchSize)
    ensures items.Length == totalWork && Listed(s, items[..], totalWork)
  {
    items := new WorkItem[totalWork];
    var wi: nat := 0;
    assert Listed(s, items[..], 0);
    hide Listed;
    for b := 0 to s.batchSize
      invariant wi == WorkBefore(s, b) <= items.Length && Listed(s, items[..], wi)
    {
      var tiles := QueryTiles(s.QLen(b));
      WorkMonotone(s, b + 1, s.batchSize);
      for kvHead := 0 to s.numKvHeads
        invariant wi == WorkBefore(s, b) + kvHead * tiles <= items.Length && Listed(s, items[..], wi)
      {
        NextMultiple(kvHead, tiles);
        for tile := 0 to tiles
          invariant wi == WorkBefore(s, b) + (kvHead * tiles + tile) <= items.Length && Listed(s, items[..], wi)
        {
          var item := WorkItem(b, kvHead, tile);
          ItemIsNext(s, item, tiles, wi);
          ghost var before := items[..];
          items[wi] := item;
          ListedNext(s, before, items[..], wi, item);
          wi := wi + 1;
        }
      }
    }
  }

  // ----- batch metadata -----

  datatype BatchInfo = BatchInfo(qLen: nat, qOffset: nat, blockSize: nat, blocks: nat, tiles: nat)

  function InfoOf(s: Call, b: nat): BatchInfo
    requires s.Valid() && b < s.batchSize
  {
    var qLen := s.QLen(b);
    BatchInfo(qLen, s.QOffset(b), ChooseBlockSize(qLen), Blocks(qLen), QueryTiles(qLen))
  }

  /** The metadata of a sequence, from its offset and length as they were passed in. */
  ghost predicate IsInfoOf(s: Call, b: nat, info: BatchInfo)
    requires s.Valid() && b < s.batchSize
  {
    var qLen := if s.qOffsets == [] then s.qPadded else s.qLens[b];
    && info.qLen == qLen && info.qOffset == (if s.qOffsets == [] then 0 else s.qOffsets[b])
    && info.blockSize == (if qLen <= 64 then (qLen + 15) / 16 * 16 else 64) && info.tiles == (qLen + 63) / 64
    && info.blocks == if qLen == 0 then 0 else (qLen + info.blockSize - 1) / info.blockSize
  }

  lemma InfoIsPlain(s: Call, b: nat)
    requires s.Valid() && b < s.batchSize
    ensures IsInfoOf(s, b, InfoOf(s, b))
  {
    var qLen := s.QLen(b);
    assert qLen > 0 ==> ChooseBlockSize(qLen) > 0;
  }

  /** Per-sequence metadata, the number of work items, and as many block numbers as any sequence needs. */
  method Prepare(s: Call) returns (batches: seq<BatchInfo>, totalWork: nat, blockIndices: seq<nat>)
    requires s.Valid()
    ensures |batches| == s.batchSize && forall b :: 0 <= b < s.batchSize ==> batches[b] == InfoOf(s, b)
    ensures forall b :: 0 <= b < s.batchSize ==> IsInfoOf(s, b, batches[b])
    ensures totalWork == WorkBefore(s, s.batchSize)
    ensures forall b :: 0 <= b < s.batchSize ==> batches[b].blocks <= |blockIndices|
    ensures |blockIndices| > 0 ==> exists b :: 0 <= b < s.batchSize && batches[b].blocks == |blockIndices|
    ensures forall i :: 0 <= i < |blockIndices| ==> blockIndices[i] == i
  {
    hide IsInfoOf;
    batches, totalWork := [], 0;
    var maxBlocks: nat := 0;
    ghost var longest: nat := 0;
    for b := 0 to s.batchSize
      invariant |batches| == b && forall i :: 0 <= i < b ==> batches[i] == InfoOf(s, i)
      invariant forall i :: 0 <= i < b ==> IsInfoOf(s, i, batches[i])
      invariant totalWork == WorkBefore(s, b)
      invariant forall i :: 0 <= i < b ==> batches[i].blocks <= maxBlocks
      invariant maxBlocks > 0 ==> longest < b && batches[longest].blocks == maxBlocks
    {
      var info := InfoOf(s, b);
      ghost var before := batches;
      batches := batches + [info];
      assert forall i :: 0 <= i < b ==> batches[i] == before[i];
      assert batches[b] == info;
      InfoIsPlain(s, b);
      NonNegative(s.numKvHeads, info.tiles);
      totalWork := totalWork + s.numKvHeads * info.tiles;
      if info.blocks > maxBlocks {
        maxBlocks := info.blocks;
        longest := b;
      }
    }
    blockIndices := seq(maxBlocks, i => i);
  }

  /** Without work items no sequence has a token. */
  lemma {:induction false} NoWork(s: Call, n: nat, b: nat)
    requires s.Valid() && b < n <= s.batchSize && WorkBefore(s, n) == 0
    ensures s.QLen(b) == 0
  {
    if b == n - 1 {
      if s.QLen(b) > 0 {
        Positive(s.numKvHeads, QueryTiles(s.QLen(b)));
      }
    } else {
      NonNegative(s.numKvHeads, QueryTiles(s.QLen(n - 1)));
      NoWork(s, n - 1, b);
    }
  }

  // ----- rows -----

  /** What the tile kernel computes for one query head and one token of a sequence. */
  datatype Kernel<!R> = Kernel(rowOp: (nat, nat, nat) -> R) {
    function Row(b: nat, qHead: nat, token: nat): R { rowOp(b, qHead, token) }
  }

  predicate IsReal(s: Call, b: nat, position: int)
    requires s.Valid() && b < s.batchSize
  {
    s.QOffset(b) <= position < s.QOffset(b) + s.QLen(b)
  }

  /** What the op leaves in a row: the kernel's row for real tokens, zero for padding. */
  function Expected<R>(s: Call, kernel: Kernel<R>, zero: R, b: nat, qHead: nat, position: nat): R
    requires s.Valid() && b < s.batchSize
  {
    if IsReal(s, b, position) then kernel.Row(b, qHead, position - s.QOffset(b)) else zero
  }

  lemma RowInside(s: Call, b: nat, qHead: nat, position: nat)
    requires s.HasRow(b, qHead, position)
    ensures s.RowIndex(b, qHead, position) < s.Rows()
  {
    JoinBound(b, qHead, s.batchSize, s.numQHeads);
    JoinBound(b * s.numQHeads + qHead, position, s.batchSize * s.numQHeads, s.qPadded);
  }

  lemma RowInjective(s: Call, b: nat, qHead: nat, position: nat, b': nat, qHead': nat, position': nat)
    requires s.HasRow(b, qHead, position) && s.HasRow(b', qHead', position')
    requires s.RowIndex(b, qHead, position) == s.RowIndex(b', qHead', position')
    ensures b == b' && qHead == qHead' && position == position'
  {
    JoinInjective3(b, qHead, position, b', qHead', position', s.numQHeads, s.qPadded);
  }

  // ----- writes -----

  /** One row written by one work item: row `row` of its tile, for query head `rep` of its group. */
  datatype Write = Write(item: WorkItem, rep: nat, row: nat)

  predicate IsWrite(s: Call, w: Write)
    requires s.Valid()
  {
    IsItem(s, w.item) && w.rep < s.Repetitions() && w.row < TileRows(s.QLen(w.item.b), w.item.tile)
  }

  function HeadOf(s: Call, w: Write): nat
    requires s.Valid()
  {
    w.item.kvHead * s.Repetitions() + w.rep
  }

  function TokenOf(w: Write): nat { w.item.tile * Q_TILE + w.row }

  function PositionOf(s: Call, w: Write): nat
    requires s.Valid() && w.item.b < s.batchSize
  {
    s.QOffset(w.item.b) + TokenOf(w)
  }

  function TargetOf(s: Call, w: Write): nat
    requires s.Valid() && w.item.b < s.batchSize
  {
    s.RowIndex(w.item.b, HeadOf(s, w), PositionOf(s, w))
  }

  /** A write goes to a real row of the output. */
  lemma WriteInside(s: Call, w: Write)
    requires s.Valid() && IsWrite(s, w)
    ensures TokenOf(w) < s.QLen(w.item.b)
    ensures s.HasRow(w.item.b, HeadOf(s, w), PositionOf(s, w)) && IsReal(s, w.item.b, PositionOf(s, w))
    ensures TargetOf(s, w) < s.Rows()
  {
    TileInside(s.QLen(w.item.b), w.item.tile);
    DivMod(s.numQHeads, s.numKvHeads);
    HeadsSplit(s);
    JoinBound(w.item.kvHead, w.rep, s.numKvHeads, s.Repetitions());
    RowInside(s, w.item.b, HeadOf(s, w), PositionOf(s, w));
  }

  lemma HeadsSplit(s: Call)
    requires s.Valid()
    ensures s.numQHeads == s.numKvHeads * s.Repetitions()
  {
    DivMod(s.numQHeads, s.numKvHeads);
  }

  lemma RowInTile(s: Call, w: Write)
    requires s.Valid() && IsWrite(s, w)
    ensures w.row < Q_TILE && w.rep < s.Repetitions()
  {
    TileInside(s.QLen(w.item.b), w.item.tile);
  }

  lemma SamePlace(tile: nat, row: nat, tile': nat, row': nat)
    requires row < Q_TILE && row' < Q_TILE && tile * Q_TILE + row == tile' * Q_TILE + row'
    ensures tile == tile' && row == row'
  {
  }

  /** No two writes, of one item or of two, go to the same row. */
  lemma WritesApart(s: Call, v: Write, w: Write)
    requires s.Valid() && IsWrite(s, v) && IsWrite(s, w) && TargetOf(s, v) == TargetOf(s, w)
    ensures v == w
  {
    WriteInside(s, v);
    WriteInside(s, w);
    RowInjective(s, v.item.b, HeadOf(s, v), PositionOf(s, v), w.item.b, HeadOf(s, w), PositionOf(s, w));
    RowInTile(s, v);
    RowInTile(s, w);
    JoinInjective(v.item.kvHead, v.rep, w.item.kvHead, w.rep, s.Repetitions());
    SamePlace(v.item.tile, v.row, w.item.tile, w.row);
  }

  /** Every real row is the target of a write. */
  lemma RealRowIsWritten(s: Call, b: nat, qHead: nat, position: nat) returns (w: Write)
    requires s.Valid() && s.HasRow(b, qHead, position) && IsReal(s, b, position)
    ensures IsWrite(s, w) && w.item.b == b && HeadOf(s, w) == qHead && PositionOf(s, w) == position
  {
    HeadsSplit(s);
    SplitBound(qHead, s.numKvHeads, s.Repetitions());
    var token := position - s.QOffset(b);
    TilesPartition(s.QLen(b), token);
    w := Write(WorkItem(b, qHead / s.Repetitions(), token / Q_TILE), qHead % s.Repetitions(), token % Q_TILE);
  }

  // ----- clearing padding -----

  /** `output[b].narrow(1, from, to - from).zero_()`: a range of positions of every head of a sequence. */
  method ZeroRange<R>(s: Call, output: array<R>, zero: R, b: nat, from: nat, to: nat)
    requires b < s.batchSize && from <= to <= s.qPadded && output.Length == s.Rows()
    modifies output
    ensures forall b': nat, h: nat, p: nat :: s.HasRow(b', h, p) ==>
      && s.RowIndex(b', h, p) < output.Length
      && output[s.RowIndex(b', h, p)]
         == if b' == b && from <= p < to then zero else old(output[..])[s.RowIndex(b', h, p)]
  {
    ghost var start := output[..];
    RowsInside(s);
    for head := 0 to s.numQHeads
      invariant forall b': nat, h: nat, p: nat :: s.HasRow(b', h, p) ==>
        output[s.RowIndex(b', h, p)] == if b' == b && from <= p < to && h < head then zero else start[s.RowIndex(b', h, p)]
    {
      for position := from to to
        invariant forall b': nat, h: nat, p: nat :: s.HasRow(b', h, p) ==>
          output[s.RowIndex(b', h, p)]
          == if b' == b && from <= p < to && (h < head || (h == head && p < position)) then zero
             else start[s.RowIndex(b', h, p)]
      {
        assert s.HasRow(b, head, position);
        ghost var before := output[..];
        output[s.RowIndex(b, head, position)] := zero;
        forall b': nat, h: nat, p: nat | s.HasRow(b', h, p)
          ensures output[s.RowIndex(b', h, p)]
                  == if b' == b && h == head && p == position then zero else before[s.RowIndex(b', h, p)]
        {
          if s.RowIndex(b', h, p) == s.RowIndex(b, head, position) {
            RowInjective(s, b', h, p, b, head, position);
          }
        }
      }
    }
  }

  lemma RowsInside(s: Call)
    ensures forall b: nat, h: nat, p: nat :: s.HasRow(b, h, p) ==> s.RowIndex(b, h, p) < s.Rows()
  {
    forall b: nat, h: nat, p: nat | s.HasRow(b, h, p)
      ensures s.RowIndex(b, h, p) < s.Rows()
    {
      RowInside(s, b, h, p);
    }
  }

  /** All padding rows of the first `n` sequences hold zero. */
  ghost predicate Cleared<R>(s: Call, zero: R, out: seq<R>, n: nat)
    requires s.Valid() && n <= s.batchSize
  {
    && |out| == s.Rows()
    && forall b: nat, h: nat, p: nat :: s.HasRow(b, h, p) && b < n && !IsReal(s, b, p) ==>
         s.RowIndex(b, h, p) < |out| && out[s.RowIndex(b, h, p)] == zero
  }

  /** The rows before and behind each sequence, when sequences have lengths of their own. */
  method ClearPadding<R>(s: Call, batches: seq<BatchInfo>, output: array<R>, zero: R)
    requires s.Valid() && output.Length == s.Rows()
    requires |batches| == s.batchSize && forall b :: 0 <= b < s.batchSize ==> batches[b] == InfoOf(s, b)
    modifies output
    ensures Cleared(s, zero, output[..], s.batchSize)
  {
    if s.PerSequence() {
      for b := 0 to s.batchSize
        invariant Cleared(s, zero, output[..], b)
      {
        var info := batches[b];
        if info.qOffset > 0 {
          ZeroRange(s, output, zero, b, 0, info.qOffset);
        }
        var end := info.qOffset + info.qLen;
        if end < s.qPadded {
          ZeroRange(s, output, zero, b, end, s.qPadded);
        }
      }
    }
  }

  // ----- executing the items -----

  /** Every row is as expected unless a pending write still has to come. */
  ghost predicate AllBut<R>(s: Call, kernel: Kernel<R>, zero: R, out: seq<R>, pending: set<Write>)
    requires s.Valid()
  {
    && Cleared(s, zero, out, s.batchSize)
    && (forall w :: w in pending ==> IsWrite(s, w))
    && forall w :: IsWrite(s, w) && w !in pending ==>
         TargetOf(s, w) < |out| && out[TargetOf(s, w)] == kernel.Row(w.item.b, HeadOf(s, w), TokenOf(w))
  }

  lemma WriteKeeps<R>(s: Call, kernel: Kernel<R>, zero: R, out: seq<R>, pending: set<Write>, w: Write, after: seq<R>)
    requires s.Valid() && AllBut(s, kernel, zero, out, pending) && w in pending
    requires TargetOf(s, w) < |out|
    requires after == out[TargetOf(s, w) := kernel.Row(w.item.b, HeadOf(s, w), TokenOf(w))]
    ensures AllBut(s, kernel, zero, after, pending - {w})
  {
    WriteInside(s, w);
    forall b: nat, h: nat, p: nat | s.HasRow(b, h, p) && !IsReal(s, b, p)
      ensures s.RowIndex(b, h, p) < |after| && after[s.RowIndex(b, h, p)] == zero
    {
      if s.RowIndex(b, h, p) == TargetOf(s, w) {
        RowInjective(s, b, h, p, w.item.b, HeadOf(s, w), PositionOf(s, w));
      }
    }
    forall v | IsWrite(s, v) && v !in pending - {w}
      ensures TargetOf(s, v) < |after| && after[TargetOf(s, v)] == kernel.Row(v.item.b, HeadOf(s, v), TokenOf(v))
    {
      if TargetOf(s, v) == TargetOf(s, w) {
        WritesApart(s, v, w);
      }
    }
  }

  /** Without pending writes every row of the output is as expected. */
  lemma AllWritten<R>(s: Call, kernel: Kernel<R>, zero: R, out: seq<R>, b: nat, qHead: nat, position: nat)
    requires s.Valid() && AllBut(s, kernel, zero, out, {}) && s.HasRow(b, qHead, position)
    ensures s.RowIndex(b, qHead, position) < |out|
    ensures out[s.RowIndex(b, qHead, position)] == Expected(s, kernel, zero, b, qHead, position)
  {
    if IsReal(s, b, position) {
      var w := RealRowIsWritten(s, b, qHead, position);
      assert TargetOf(s, w) == s.RowIndex(b, qHead, position);
    }
  }

  /** The writes of all listed items. */
  function AllWrites(s: Call, items: seq<WorkItem>): (writes: set<Write>)
    requires s.Valid() && Listed(s, items, |items|)
  {
    set x, rep, row | 0 <= x < |items| && 0 <= rep < s.Repetitions() && 0 <= row < Q_TILE
                      && row < TileRows(s.QLen(items[x].b), items[x].tile) :: Write(items[x], rep, row)
  }

  lemma AllWritesListed(s: Call, items: seq<WorkItem>, w: Write)
    requires s.Valid() && |items| == WorkBefore(s, s.batchSize) && Listed(s, items, |items|)
    ensures w in AllWrites(s, items) <==> IsWrite(s, w)
  {
    if IsWrite(s, w) {
      ItemIndexInside(s, w.item);
      var x := ItemIndex(s, w.item);
      EveryItemOnce(s, items, w.item, x);
      RowInTile(s, w);
    }
  }

  /** Rows are written one at a time, in an order nothing is assumed about. */
  method RunItems<R>(s: Call, kernel: Kernel<R>, zero: R, items: seq<WorkItem>, output: array<R>)
    requires s.Valid() && |items| == WorkBefore(s, s.batchSize) && Listed(s, items, |items|)
    requires Cleared(s, zero, output[..], s.batchSize)
    modifies output
    ensures AllBut(s, kernel, zero, output[..], {})
  {
    var pending := AllWrites(s, items);
    forall w: Write
      ensures w in pending <==> IsWrite(s, w)
    {
      AllWritesListed(s, items, w);
    }
    while pending != {}
      invariant AllBut(s, kernel, zero, output[..], pending)
      decreases pending
    {
      var w :| w in pending;
      WriteInside(s, w);
      ghost var before := output[..];
      output[TargetOf(s, w)] := kernel.Row(w.item.b, HeadOf(s, w), TokenOf(w));
      WriteKeeps(s, kernel, zero, before, pending, w, output[..]);
      pending := pending - {w};
    }
  }

  /** The output starts with whatever the memory holds and ends fully determined. */
  method Prefill<R(0)>(s: Call, kernel: Kernel<R>, zero: R) returns (r: Result<array<R>>)
    requires s.numKvHeads > 0 && (s.Checked() ==> s.InBounds())
    ensures s.numQHeads % s.numKvHeads != 0 ==> r == Failure(HeadsNotDivisible)
    ensures s.numQHeads % s.numKvHeads == 0 && !s.Checked() ==> r == Failure(BatchMismatch)
    ensures s.Checked() ==>
      && r.Success? && r.value.Length == s.Rows()
      && forall b: nat, h: nat, p: nat :: s.HasRow(b, h, p) ==>
           s.RowIndex(b, h, p) < r.value.Length && r.value[s.RowIndex(b, h, p)] == Expected(s, kernel, zero, b, h, p)
  {
    if s.numQHeads % s.numKvHeads != 0 {
      return Failure(HeadsNotDivisible);
    }
    if !s.Checked() {
      return Failure(BatchMismatch);
    }
    var output := new R[s.Rows()];
    var batches, totalWork, blockIndices := Prepare(s);
    if totalWork == 0 {
      ZeroAll(s, kernel, zero, output);
    } else {
      ClearPadding(s, batches, output, zero);
      var items := ListItems(s, totalWork);
      RunItems(s, kernel, zero, items[..], output);
      forall b: nat, h: nat, p: nat | s.HasRow(b, h, p)
        ensures s.RowIndex(b, h, p) < output.Length
        ensures output[s.RowIndex(b, h, p)] == Expected(s, kernel, zero, b, h, p)
      {
        AllWritten(s, kernel, zero, output[..], b, h, p);
      }
    }
    r := Success(output);
  }

  /** Without work everything is cleared, which is what is expected of a batch without tokens. */
  method ZeroAll<R>(s: Call, kernel: Kernel<R>, zero: R, output: array<R>)
    requires s.Valid() && output.Length == s.Rows() && WorkBefore(s, s.batchSize) == 0
    modifies output
    ensures forall b: nat, h: nat, p: nat :: s.HasRow(b, h, p) ==>
      s.RowIndex(b, h, p) < output.Length && output[s.RowIndex(b, h, p)] == Expected(s, kernel, zero, b, h, p)
  {
    for x := 0 to output.Length
      invariant forall y :: 0 <= y < x ==> output[y] == zero
    {
      output[x] := zero;
    }
    forall b: nat, h: nat, p: nat | s.HasRow(b, h, p)
      ensures s.RowIndex(b, h, p) < output.Length && Expected(s, kernel, zero, b, h, p) == zero
    {
      RowInside(s, b, h, p);
      NoWork(s, s.batchSize, b);
    }
  }
}
