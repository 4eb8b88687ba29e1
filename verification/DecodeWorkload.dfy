/**
 The decode benchmark: one workload, run with either pool layout, either traversal and either way
 of processing the query heads of a group
 (`benchmarks/cpu/attention_bmm/decode_layout_traversal.cpp`).
 */
module DecodeWorkload {
  import opened Indexing
  import opened PoolLayout
  import opened DecodeAttention
  import opened DecodeState
  import opened GroupedDecode

  datatype Traversal = HeadFirst | BlockFirst
  datatype QueryProcessing = PerQuery | Grouped
  datatype Candidate = Candidate(layout: Layout, traversal: Traversal, processing: QueryProcessing)

  datatype Workload<X> = Workload(
    shape: PoolShape,
    batchSize: nat,
    numQHeads: nat,
    sequenceLength: nat,
    queries: seq<X>,
    headMajor: seq<X>,
    blockMajor: seq<X>)
  {
    /** Query heads that share a key/value head. */
    function Repetitions(): nat
      requires shape.numKvHeads > 0
    {
      numQHeads / shape.numKvHeads
    }

    function Blocks(): nat
      requires shape.blockSize > 0
    {
      BlocksPerSequence(sequenceLength, shape.blockSize)
    }

    /** The pool block that holds a block of a sequence. */
    function PhysicalBlock(batch: nat, block: nat): nat
      requires shape.blockSize > 0
    {
      NonNegative(batch, Blocks());
      batch * Blocks() + block
    }

    function Pool(layout: Layout): seq<X> {
      if layout == HeadMajor then headMajor else blockMajor
    }

    /** What the constructor sets up: shapes that fit, and two pools with the same contents. */
    ghost predicate Valid() {
      && shape.numKvHeads > 0 && shape.blockSize > 0 && shape.headDim % CHUNK == 0
      && numQHeads % shape.numKvHeads == 0
      && shape.totalBlocks == batchSize * Blocks()
      && |queries| == batchSize * numQHeads * shape.headDim
      && |headMajor| == |blockMajor| == shape.Size()
      && forall p :: shape.Contains(p) ==>
           && shape.Offset(HeadMajor, p) < shape.Size() && shape.Offset(BlockMajor, p) < shape.Size()
           && headMajor[shape.Offset(HeadMajor, p)] == blockMajor[shape.Offset(BlockMajor, p)]
    }

    /** Groups of query heads in the whole batch: one for every sequence and key/value head. */
    function Groups(): nat {
      batchSize * shape.numKvHeads
    }
  }

  /** One row of a pool. */
  function PoolRow<X>(w: Workload<X>, layout: Layout, block: nat, head: nat, kv: nat, token: nat): (row: seq<X>)
    requires w.Valid()
    requires block < w.shape.totalBlocks && head < w.shape.numKvHeads && kv < 2 && token < w.shape.blockSize
    ensures |row| == w.shape.headDim
  {
    var number := w.shape.RowNumber(layout, block, head, kv, token);
    RowBound(w.shape, layout, block, head, kv, token);
    RowInside(number, w.shape.numKvHeads * w.shape.totalBlocks * 2 * w.shape.blockSize, w.shape.headDim);
    RowAt(w.Pool(layout), w.shape.headDim, number)
  }

  /** An element of a row is the pool's element at that place. */
  lemma PoolElement<X>(w: Workload<X>, layout: Layout, p: Place)
    requires w.Valid() && w.shape.Contains(p)
    ensures w.shape.Offset(layout, p) < w.shape.Size()
    ensures PoolRow(w, layout, p.block, p.head, p.kv, p.token)[p.dim] == w.Pool(layout)[w.shape.Offset(layout, p)]
  {
    OffsetThenPlace(w.shape, layout, p);
    var number := w.shape.RowNumber(layout, p.block, p.head, p.kv, p.token);
    RowBound(w.shape, layout, p.block, p.head, p.kv, p.token);
    RowInside(number, w.shape.numKvHeads * w.shape.totalBlocks * 2 * w.shape.blockSize, w.shape.headDim);
    RowElement(w.Pool(layout), w.shape.headDim, number, p.dim, w.shape.Offset(layout, p));
  }

  /** A row reads the same from both pools. */
  lemma RowsAgree<X>(w: Workload<X>, block: nat, head: nat, kv: nat, token: nat)
    requires w.Valid()
    requires block < w.shape.totalBlocks && head < w.shape.numKvHeads && kv < 2 && token < w.shape.blockSize
    ensures PoolRow(w, HeadMajor, block, head, kv, token) == PoolRow(w, BlockMajor, block, head, kv, token)
  {
    var a, b := PoolRow(w, HeadMajor, block, head, kv, token), PoolRow(w, BlockMajor, block, head, kv, token);
    forall d | 0 <= d < w.shape.headDim
      ensures a[d] == b[d]
    {
      var p := Place(block, head, kv, token, d);
      PoolElement(w, HeadMajor, p);
      PoolElement(w, BlockMajor, p);
    }
  }

  /** The first rows of a block: what the kernel reads through its key or value pointer. */
  function BlockRows<X>(w: Workload<X>, layout: Layout, block: nat, head: nat, kv: nat, tokens: nat): (rows: seq<seq<X>>)
    requires w.Valid()
    requires block < w.shape.totalBlocks && head < w.shape.numKvHeads && kv < 2 && tokens <= w.shape.blockSize
    ensures |rows| == tokens && RowsOf(rows, w.shape.headDim)
  {
    seq(tokens, t requires 0 <= t < tokens => PoolRow(w, layout, block, head, kv, t))
  }

  lemma BlocksAgree<X>(w: Workload<X>, layout: Layout, block: nat, head: nat, kv: nat, tokens: nat)
    requires w.Valid()
    requires block < w.shape.totalBlocks && head < w.shape.numKvHeads && kv < 2 && tokens <= w.shape.blockSize
    ensures BlockRows(w, layout, block, head, kv, tokens) == BlockRows(w, BlockMajor, block, head, kv, tokens)
  {
    forall t | 0 <= t < tokens
      ensures PoolRow(w, layout, block, head, kv, t) == PoolRow(w, BlockMajor, block, head, kv, t)
    {
      RowsAgree(w, block, head, kv, t);
    }
  }

  /** The rows a group sees in one logical block of its sequence. */
  function GroupRows<X>(w: Workload<X>, layout: Layout, group: nat, block: nat, kv: nat): (rows: seq<seq<X>>)
    requires w.Valid() && group < w.Groups() && block < w.Blocks() && kv < 2
    ensures |rows| == TokensInBlock(w.sequenceLength, w.shape.blockSize, block) && RowsOf(rows, w.shape.headDim)
  {
    SplitBound(group, w.batchSize, w.shape.numKvHeads);
    var batch, head := group / w.shape.numKvHeads, group % w.shape.numKvHeads;
    JoinBound(batch, block, w.batchSize, w.Blocks());
    BlockRange(w.sequenceLength, w.shape.blockSize, block);
    NonNegative(batch, w.Blocks());
    BlockRows(w, layout, batch * w.Blocks() + block, head, kv, TokensInBlock(w.sequenceLength, w.shape.blockSize, block))
  }

  /** No two sequences share a block of the pool, nor do two blocks of one sequence. */
  lemma SequencesApart<X>(w: Workload<X>, batch: nat, block: nat, batch': nat, block': nat)
    requires w.Valid() && block < w.Blocks() && block' < w.Blocks()
    requires w.PhysicalBlock(batch, block) == w.PhysicalBlock(batch', block')
    ensures batch == batch' && block == block'
    ensures w.PhysicalBlock(batch, block) == batch * ((w.sequenceLength + w.shape.blockSize - 1) / w.shape.blockSize) + block
  {
    JoinInjective(batch, block, batch', block', w.Blocks());
  }

  // ----- query heads and their groups -----

  /** Query heads of the whole batch. */
  function Heads<X>(w: Workload<X>): nat {
    w.batchSize * w.numQHeads
  }

  /** Head number `j` belongs to group `j / repetitions`. */
  lemma HeadInGroup<X>(w: Workload<X>, j: nat)
    requires w.Valid() && j < Heads(w)
    ensures w.Repetitions() > 0 && j / w.Repetitions() < w.Groups()
    ensures Heads(w) == w.Groups() * w.Repetitions()
  {
    HeadsAreGroups(w);
    NonNegative(w.Groups(), w.Repetitions());
    SplitBound(j, w.Groups(), w.Repetitions());
  }

  function GroupOf<X>(w: Workload<X>, j: nat): (group: nat)
    requires w.Valid() && j < Heads(w)
    ensures group < w.Groups()
  {
    HeadInGroup(w, j);
    Quotient(j, w.Repetitions())
  }

  lemma HeadsAreGroups<X>(w: Workload<X>)
    requires w.Valid()
    ensures w.numQHeads == w.shape.numKvHeads * w.Repetitions()
    ensures Heads(w) == w.Groups() * w.Repetitions()
  {
    DivMod(w.numQHeads, w.shape.numKvHeads);
    Regroup(w.batchSize, w.shape.numKvHeads, w.Repetitions());
  }

  /** The first query head of a group. */
  lemma FirstHead<X>(w: Workload<X>, batch: nat, kvHead: nat)
    requires w.Valid() && batch < w.batchSize && kvHead < w.shape.numKvHeads
    ensures batch * w.numQHeads + kvHead * w.Repetitions() == (batch * w.shape.numKvHeads + kvHead) * w.Repetitions()
    ensures batch * w.shape.numKvHeads + kvHead < w.Groups()
  {
    HeadsAreGroups(w);
    Regroup(batch, w.shape.numKvHeads, w.Repetitions());
    JoinBound(batch, kvHead, w.batchSize, w.shape.numKvHeads);
  }

  /** The heads of a group are the `repetitions` heads from its first on. */
  lemma GroupRange(j: nat, group: nat, repetitions: nat)
    requires repetitions > 0
    ensures j / repetitions == group <==> group * repetitions <= j < group * repetitions + repetitions
  {
    DivMod(j, repetitions);
    if group * repetitions <= j < group * repetitions + repetitions {
      JoinSplit(group, j - group * repetitions, repetitions);
    }
  }

  lemma GroupOfRange<X>(w: Workload<X>, j: nat, group: nat, first: nat)
    requires w.Valid() && j < Heads(w) && first == group * w.Repetitions()
    ensures GroupOf(w, j) == group <==> first <= j < first + w.Repetitions()
  {
    HeadInGroup(w, j);
    GroupRange(j, group, w.Repetitions());
  }

  /** Sequence, key/value head and group of a query head. */
  lemma GroupParts<X>(w: Workload<X>, j: nat)
    requires w.Valid() && j < Heads(w)
    ensures w.numQHeads > 0 && w.numQHeads / w.shape.numKvHeads > 0
    ensures j / w.numQHeads == GroupOf(w, j) / w.shape.numKvHeads
    ensures (j % w.numQHeads) / (w.numQHeads / w.shape.numKvHeads) == GroupOf(w, j) % w.shape.numKvHeads
  {
    HeadInGroup(w, j);
    HeadsAreGroups(w);
    SplitBound(j, w.batchSize, w.numQHeads);
    var reps := w.Repetitions();
    var batch, q := j / w.numQHeads, j % w.numQHeads;
    SplitBound(q, w.shape.numKvHeads, reps);
    GroupFromParts(j, batch, q / reps, q % reps, w.shape.numKvHeads, reps, w.numQHeads);
  }

  lemma GroupFromParts(j: nat, batch: nat, head: nat, rep: nat, kvHeads: nat, reps: nat, qHeads: nat)
    requires head < kvHeads && rep < reps && qHeads == kvHeads * reps && j == batch * qHeads + (head * reps + rep)
    ensures 0 <= j / reps && (j / reps) / kvHeads == batch && (j / reps) % kvHeads == head
  {
    Regroup(batch, kvHeads, reps);
    Distribute(batch * kvHeads, head, reps);
    NonNegative(batch, kvHeads);
    JoinSplit(batch * kvHeads + head, rep, reps);
    JoinSplit(batch, head, kvHeads);
  }

  /** What query head `j` reads of a block of its sequence, element by element out of either pool. */
  lemma GroupElement<X>(w: Workload<X>, layout: Layout, j: nat, block: nat, kv: nat, t: nat, dim: nat, p: Place)
    requires w.Valid() && j < Heads(w) && block < w.Blocks() && kv < 2 && dim < w.shape.headDim
    requires t < TokensInBlock(w.sequenceLength, w.shape.blockSize, block)
    requires w.numQHeads > 0 && w.numQHeads / w.shape.numKvHeads > 0
    requires p.block == (j / w.numQHeads) * ((w.sequenceLength + w.shape.blockSize - 1) / w.shape.blockSize) + block
    requires p.head == (j % w.numQHeads) / (w.numQHeads / w.shape.numKvHeads)
    requires p.kv == kv && p.token == t && p.dim == dim
    ensures w.shape.Offset(layout, p) < |w.Pool(layout)|
    ensures GroupRows(w, layout, GroupOf(w, j), block, kv)[t][dim] == w.Pool(layout)[w.shape.Offset(layout, p)]
  {
    GroupParts(w, j);
    SplitBound(GroupOf(w, j), w.batchSize, w.shape.numKvHeads);
    BlockInPool(w, GroupOf(w, j) / w.shape.numKvHeads, block);
    PoolElement(w, layout, p);
  }

  function QueryRow<X>(w: Workload<X>, j: nat): (row: seq<X>)
    requires w.Valid() && j < Heads(w)
    ensures |row| == w.shape.headDim
  {
    RowInside(j, Heads(w), w.shape.headDim);
    RowAt(w.queries, w.shape.headDim, j)
  }

  /** Query head `j` takes in one logical block of its sequence, read from the block-major pool. */
  function StepHead<L, S, W, X>(ar: Arithmetic<L, S, W, X>, w: Workload<X>, j: nat, h: HeadState<S, W>, block: nat)
    : (r: HeadState<S, W>)
    requires w.Valid() && j < Heads(w) && block < w.Blocks() && |h.output| == w.shape.headDim
    ensures |r.output| == w.shape.headDim
  {
    var group := GroupOf(w, j);
    HeadStep(ar, h, QueryRow(w, j), GroupRows(w, BlockMajor, group, block, 0), GroupRows(w, BlockMajor, group, block, 1))
  }

  /** Query head `j` after the first `n` blocks of its sequence: no layout, no traversal, no grouping. */
  function HeadAfter<L, S, W, X>(ar: Arithmetic<L, S, W, X>, w: Workload<X>, j: nat, n: nat): (r: HeadState<S, W>)
    requires w.Valid() && j < Heads(w) && n <= w.Blocks()
    ensures |r.output| == w.shape.headDim
  {
    if n == 0 then Reset(ar, w.shape.headDim) else StepHead(ar, w, j, HeadAfter(ar, w, j, n - 1), n - 1)
  }

  // ----- one block of one group -----

  ghost predicate Fits<S(0), W(0), X>(st: State<S, W>, w: Workload<X>) {
    st.Shaped() && st.heads == Heads(w) && st.headDim == w.shape.headDim
  }

  /** A block's physical number and its tokens are within the pool. */
  lemma BlockInPool<X>(w: Workload<X>, batch: nat, block: nat)
    requires w.Valid() && batch < w.batchSize && block < w.Blocks()
    ensures w.PhysicalBlock(batch, block) < w.shape.totalBlocks
    ensures 0 < TokensInBlock(w.sequenceLength, w.shape.blockSize, block) <= w.shape.blockSize
  {
    JoinBound(batch, block, w.batchSize, w.Blocks());
    BlockRange(w.sequenceLength, w.shape.blockSize, block);
  }

  /** What the kernel reads for a group is what its heads' own steps read. */
  lemma GroupReads<X>(w: Workload<X>, layout: Layout, batch: nat, kvHead: nat, group: nat, block: nat, kv: nat)
    requires w.Valid() && batch < w.batchSize && kvHead < w.shape.numKvHeads && block < w.Blocks() && kv < 2
    requires group == batch * w.shape.numKvHeads + kvHead
    ensures group < w.Groups() && w.PhysicalBlock(batch, block) < w.shape.totalBlocks
    ensures 0 < TokensInBlock(w.sequenceLength, w.shape.blockSize, block) <= w.shape.blockSize
    ensures BlockRows(w, layout, w.PhysicalBlock(batch, block), kvHead, kv,
                      TokensInBlock(w.sequenceLength, w.shape.blockSize, block))
            == GroupRows(w, BlockMajor, group, block, kv)
  {
    BlockInPool(w, batch, block);
    FirstHead(w, batch, kvHead);
    JoinSplit(batch, kvHead, w.shape.numKvHeads);
    BlocksAgree(w, layout, w.PhysicalBlock(batch, block), kvHead, kv,
                TokensInBlock(w.sequenceLength, w.shape.blockSize, block));
  }

  lemma StepInGroup<L, S, W, X>(ar: Arithmetic<L, S, W, X>, w: Workload<X>, group: nat, first: nat, j: nat,
                                h: HeadState<S, W>, block: nat)
    requires w.Valid() && j < Heads(w) && block < w.Blocks() && |h.output| == w.shape.headDim
    requires group < w.Groups() && first == group * w.Repetitions() && first <= j < first + w.Repetitions()
    ensures StepHead(ar, w, j, h, block)
            == HeadStep(ar, h, QueryRow(w, j), GroupRows(w, BlockMajor, group, block, 0),
                        GroupRows(w, BlockMajor, group, block, 1))
  {
    GroupRange(j, group, w.Repetitions());
  }

  /** The keys and values of a group in one block, read from the pool of the given layout. */
  method ReadBlock<X>(w: Workload<X>, layout: Layout, batch: nat, block: nat, kvHead: nat, ghost group: nat)
    returns (keys: seq<seq<X>>, values: seq<seq<X>>)
    requires w.Valid() && batch < w.batchSize && kvHead < w.shape.numKvHeads && block < w.Blocks()
    requires group == batch * w.shape.numKvHeads + kvHead
    ensures group < w.Groups()
    ensures keys == GroupRows(w, BlockMajor, group, block, 0)
    ensures values == GroupRows(w, BlockMajor, group, block, 1)
  {
    GroupReads(w, layout, batch, kvHead, group, block, 0);
    GroupReads(w, layout, batch, kvHead, group, block, 1);
    var physical := w.PhysicalBlock(batch, block);
    var tokens := TokensInBlock(w.sequenceLength, w.shape.blockSize, block);
    keys := BlockRows(w, layout, physical, kvHead, 0, tokens);
    values := BlockRows(w, layout, physical, kvHead, 1, tokens);
  }

  /** `process_group_block`: the heads of a group one after the other. */
  method ProcessGroupBlock<L, S(0), W(0), X>(ar: Arithmetic<L, S, W, X>, w: Workload<X>, layout: Layout,
                                             batch: nat, block: nat, kvHead: nat, st: State<S, W>, ghost first: nat)
    requires w.Valid() && Fits(st, w)
    requires batch < w.batchSize && kvHead < w.shape.numKvHeads && block < w.Blocks()
    requires first == (batch * w.shape.numKvHeads + kvHead) * w.Repetitions()
    modifies st.maximum, st.sum, st.output
    ensures forall j :: 0 <= j < Heads(w) ==>
      st.HeadAt(j) == if first <= j < first + w.Repetitions() then StepHead(ar, w, j, old(st.HeadAt(j)), block)
                      else old(st.HeadAt(j))
  {
    ghost var group := batch * w.shape.numKvHeads + kvHead;
    var keys, values := ReadBlock(w, layout, batch, block, kvHead, group);
    var firstQHead := kvHead * w.Repetitions();
    FirstHead(w, batch, kvHead);
    GroupHeadsInside(w, group, first);
    for rep := 0 to w.Repetitions()
      invariant forall j :: 0 <= j < Heads(w) ==>
        st.HeadAt(j) == if first <= j < first + rep then StepHead(ar, w, j, old(st.HeadAt(j)), block)
                        else old(st.HeadAt(j))
    {
      var index := batch * w.numQHeads + firstQHead + rep;
      ghost var h := st.HeadAt(index);
      StepInGroup(ar, w, group, first, index, h, block);
      ProcessQueryHeadBlock(ar, st, index, QueryRow(w, index), keys, values);
    }
  }

  lemma GroupHeadsInside<X>(w: Workload<X>, group: nat, first: nat)
    requires w.Valid() && group < w.Groups() && first == group * w.Repetitions()
    ensures first + w.Repetitions() <= Heads(w)
  {
    HeadsAreGroups(w);
    RowInside(group, w.Groups(), w.Repetitions());
  }

  /** The query rows of a group, which lie next to each other. */
  function GroupQueries<X>(w: Workload<X>, first: nat): (queries: seq<seq<X>>)
    requires w.Valid() && first + w.Repetitions() <= Heads(w)
    ensures |queries| == w.Repetitions()
    ensures forall r :: 0 <= r < w.Repetitions() ==> queries[r] == QueryRow(w, first + r)
  {
    seq(w.Repetitions(), r requires 0 <= r < w.Repetitions() => QueryRow(w, first + r))
  }

  /** `process_group_block_grouped`: all heads of a group together. */
  method ProcessGroupBlockGrouped<L, S(0), W(0), X>(ar: Arithmetic<L, S, W, X>, w: Workload<X>, layout: Layout,
                                                    batch: nat, block: nat, kvHead: nat, st: State<S, W>, ghost first: nat)
    requires w.Valid() && Fits(st, w)
    requires batch < w.batchSize && kvHead < w.shape.numKvHeads && block < w.Blocks()
    requires first == (batch * w.shape.numKvHeads + kvHead) * w.Repetitions()
    modifies st.maximum, st.sum, st.output
    ensures forall j :: 0 <= j < Heads(w) ==>
      st.HeadAt(j) == if first <= j < first + w.Repetitions() then StepHead(ar, w, j, old(st.HeadAt(j)), block)
                      else old(st.HeadAt(j))
  {
    hide StepHead, HeadStep, GroupRows;
    ghost var group := batch * w.shape.numKvHeads + kvHead;
    var keys, values := ReadBlock(w, layout, batch, block, kvHead, group);
    var firstQHead := batch * w.numQHeads + kvHead * w.Repetitions();
    FirstHead(w, batch, kvHead);
    GroupHeadsInside(w, group, first);
    ProcessHeadsGrouped(ar, st, firstQHead, GroupQueries(w, firstQHead), keys, values);
    forall j | first <= j < first + w.Repetitions()
      ensures st.HeadAt(j) == StepHead(ar, w, j, old(st.HeadAt(j)), block)
    {
      StepInGroup(ar, w, group, first, j, old(st.HeadAt(j)), block);
      assert GroupQueries(w, first)[j - first] == QueryRow(w, j);
    }
  }

  // ----- a whole run -----

  /** Every head is as many blocks into its sequence as its group. */
  ghost predicate Progress<L, S(0), W(0), X>(ar: Arithmetic<L, S, W, X>, w: Workload<X>, st: State<S, W>, done: seq<nat>)
    requires w.Valid() && Fits(st, w)
    reads st.maximum, st.sum, st.output
  {
    && |done| == w.Groups()
    && (forall g :: 0 <= g < |done| ==> done[g] <= w.Blocks())
    && forall j :: 0 <= j < Heads(w) ==> st.HeadAt(j) == Expected(ar, w, done, j)
  }

  /** `process`: either way of processing the heads of a group. */
  method Dispatch<L, S(0), W(0), X>(ar: Arithmetic<L, S, W, X>, w: Workload<X>, candidate: Candidate,
                                    batch: nat, block: nat, kvHead: nat, st: State<S, W>, ghost first: nat)
    requires w.Valid() && Fits(st, w)
    requires batch < w.batchSize && kvHead < w.shape.numKvHeads && block < w.Blocks()
    requires first == (batch * w.shape.numKvHeads + kvHead) * w.Repetitions()
    modifies st.maximum, st.sum, st.output
    ensures forall j :: 0 <= j < Heads(w) ==>
      st.HeadAt(j) == if first <= j < first + w.Repetitions() then StepHead(ar, w, j, old(st.HeadAt(j)), block)
                      else old(st.HeadAt(j))
  {
    if candidate.processing == Grouped {
      ProcessGroupBlockGrouped(ar, w, candidate.layout, batch, block, kvHead, st, first);
    } else {
      ProcessGroupBlock(ar, w, candidate.layout, batch, block, kvHead, st, first);
    }
  }

  /** Where head `j` is when its group is `done[group]` blocks in. */
  ghost function Expected<L, S, W, X>(ar: Arithmetic<L, S, W, X>, w: Workload<X>, done: seq<nat>, j: nat): HeadState<S, W>
    requires w.Valid() && j < Heads(w) && |done| == w.Groups()
    requires forall g :: 0 <= g < |done| ==> done[g] <= w.Blocks()
  {
    HeadAfter(ar, w, j, done[GroupOf(w, j)])
  }

  /** Advancing one group by a block advances exactly the heads of its range. */
  lemma ExpectedStep<L, S, W, X>(ar: Arithmetic<L, S, W, X>, w: Workload<X>, done: seq<nat>, next: seq<nat>,
                                 group: nat, first: nat, block: nat, j: nat)
    requires w.Valid() && j < Heads(w) && |done| == w.Groups()
    requires forall g :: 0 <= g < |done| ==> done[g] <= w.Blocks()
    requires group < |done| && done[group] == block < w.Blocks() && next == done[group := block + 1]
    requires first == group * w.Repetitions()
    ensures Expected(ar, w, next, j)
            == if first <= j < first + w.Repetitions() then StepHead(ar, w, j, Expected(ar, w, done, j), block)
               else Expected(ar, w, done, j)
  {
    GroupOfRange(w, j, group, first);
    if GroupOf(w, j) == group {
      AfterNext(ar, w, j, block, block + 1);
    }
  }

  lemma AfterNext<L, S, W, X>(ar: Arithmetic<L, S, W, X>, w: Workload<X>, j: nat, n: nat, next: nat)
    requires w.Valid() && j < Heads(w) && n < w.Blocks() && next == n + 1
    ensures HeadAfter(ar, w, j, next) == StepHead(ar, w, j, HeadAfter(ar, w, j, n), n)
  {
  }

  /** Before the first block every head is reset. */
  lemma ExpectedStart<L, S, W, X>(ar: Arithmetic<L, S, W, X>, w: Workload<X>, done: seq<nat>, j: nat)
    requires w.Valid() && j < Heads(w) && |done| == w.Groups() && forall g :: 0 <= g < |done| ==> done[g] == 0
    ensures Expected(ar, w, done, j) == Reset(ar, w.shape.headDim)
  {
    assert done[GroupOf(w, j)] == 0;
    assert HeadAfter(ar, w, j, 0) == Reset(ar, w.shape.headDim);
  }

  /** Behind the last block every head has its whole sequence. */
  lemma ExpectedEnd<L, S, W, X>(ar: Arithmetic<L, S, W, X>, w: Workload<X>, done: seq<nat>, j: nat)
    requires w.Valid() && j < Heads(w) && |done| == w.Groups()
    requires forall g :: 0 <= g < |done| ==> done[g] == w.Blocks()
    ensures Expected(ar, w, done, j) == HeadAfter(ar, w, j, w.Blocks())
  {
    assert done[GroupOf(w, j)] == w.Blocks();
  }

  /** One call through `process`: one group gets one block further, with any layout and grouping. */
  method Process<L, S(0), W(0), X>(ar: Arithmetic<L, S, W, X>, w: Workload<X>, candidate: Candidate,
                                   batch: nat, block: nat, kvHead: nat, st: State<S, W>,
                                   ghost done: seq<nat>, ghost group: nat) returns (ghost next: seq<nat>)
    requires w.Valid() && Fits(st, w)
    requires batch < w.batchSize && kvHead < w.shape.numKvHeads && block < w.Blocks()
    requires group == batch * w.shape.numKvHeads + kvHead < |done| && done[group] == block
    requires Progress(ar, w, st, done)
    modifies st.maximum, st.sum, st.output
    ensures next == done[group := block + 1] && Progress(ar, w, st, next)
  {
    ghost var first := group * w.Repetitions();
    next := done[group := block + 1];
    Dispatch(ar, w, candidate, batch, block, kvHead, st, first);
    forall j | 0 <= j < Heads(w)
      ensures st.HeadAt(j) == Expected(ar, w, next, j)
    {
      ExpectedStep(ar, w, done, next, group, first, block, j);
      assert old(st.HeadAt(j)) == Expected(ar, w, done, j);
    }
  }

  /** Groups before `group` are finished, `group` is `block` blocks in, the rest have not started. */
  ghost predicate GroupByGroup(done: seq<nat>, blocks: nat, group: nat, block: nat) {
    forall g :: 0 <= g < |done| ==>
      done[g] == if g < group then blocks else if g == group then block else 0
  }

  /**
   Groups before `base` are finished; of the `count` groups from there on the first `ahead` are one
   block ahead of the others; the rest have not started.
   */
  ghost predicate SideBySide(done: seq<nat>, blocks: nat, base: nat, count: nat, ahead: nat, block: nat) {
    forall g :: 0 <= g < |done| ==>
      done[g] == if g < base then blocks else if g < base + ahead then block + 1
                 else if g < base + count then block else 0
  }

  /** One sequence, key/value head by key/value head. */
  method RunHeadFirst<L, S(0), W(0), X>(ar: Arithmetic<L, S, W, X>, w: Workload<X>, candidate: Candidate,
                                        batch: nat, st: State<S, W>, ghost base: nat, ghost start: seq<nat>)
    returns (ghost done: seq<nat>)
    requires w.Valid() && Fits(st, w) && batch < w.batchSize && base == batch * w.shape.numKvHeads
    requires Progress(ar, w, st, start) && GroupByGroup(start, w.Blocks(), base, 0)
    modifies st.maximum, st.sum, st.output
    ensures Progress(ar, w, st, done) && GroupByGroup(done, w.Blocks(), base + w.shape.numKvHeads, 0)
  {
    done := start;
    for kvHead := 0 to w.shape.numKvHeads
      invariant Progress(ar, w, st, done) && GroupByGroup(done, w.Blocks(), base + kvHead, 0)
    {
      FirstHead(w, batch, kvHead);
      for block := 0 to w.Blocks()
        invariant Progress(ar, w, st, done) && GroupByGroup(done, w.Blocks(), base + kvHead, block)
      {
        done := Process(ar, w, candidate, batch, block, kvHead, st, done, base + kvHead);
      }
    }
  }

  /** One sequence, block by block. */
  method RunBlockFirst<L, S(0), W(0), X>(ar: Arithmetic<L, S, W, X>, w: Workload<X>, candidate: Candidate,
                                         batch: nat, st: State<S, W>, ghost base: nat, ghost start: seq<nat>)
    returns (ghost done: seq<nat>)
    requires w.Valid() && Fits(st, w) && batch < w.batchSize && base == batch * w.shape.numKvHeads
    requires Progress(ar, w, st, start) && GroupByGroup(start, w.Blocks(), base, 0)
    modifies st.maximum, st.sum, st.output
    ensures Progress(ar, w, st, done) && GroupByGroup(done, w.Blocks(), base + w.shape.numKvHeads, 0)
  {
    done := start;
    var count := w.shape.numKvHeads;
    for block := 0 to w.Blocks()
      invariant Progress(ar, w, st, done) && SideBySide(done, w.Blocks(), base, count, 0, block)
    {
      for kvHead := 0 to count
        invariant Progress(ar, w, st, done) && SideBySide(done, w.Blocks(), base, count, kvHead, block)
      {
        FirstHead(w, batch, kvHead);
        done := Process(ar, w, candidate, batch, block, kvHead, st, done, base + kvHead);
      }
    }
  }

  /** Divides every head's output by its sum. */
  method NormaliseAll<L, S(0), W(0), X>(ar: Arithmetic<L, S, W, X>, st: State<S, W>)
    requires st.Shaped()
    modifies st.output
    ensures forall j :: 0 <= j < st.heads ==> st.HeadAt(j) == Normalise(ar, old(st.HeadAt(j)))
  {
    for index := 0 to st.heads
      invariant forall j :: 0 <= j < st.heads ==>
        st.HeadAt(j) == if j < index then Normalise(ar, old(st.HeadAt(j))) else old(st.HeadAt(j))
    {
      var inverse := ar.inverse(st.sum[index]);
      RowInside(index, st.heads, st.headDim);
      ghost var before, head := st.output[..], st.HeadAt(index);
      ScaleRow(ar, st.output, index * st.headDim, index * st.headDim + st.headDim, inverse);
      RowWritten(before, st.output[..], st.heads, st.headDim, index, Normalise(ar, head).output);
    }
  }

  /**
   `run`: whatever the layout, the traversal and the way query heads are processed, every head ends
   in the same state, the one its own blocks in order lead to.
   */
  method Run<L, S(0), W(0), X>(ar: Arithmetic<L, S, W, X>, w: Workload<X>, candidate: Candidate, st: State<S, W>)
    requires w.Valid() && Fits(st, w)
    modifies st.maximum, st.sum, st.output
    ensures forall j :: 0 <= j < Heads(w) ==> st.HeadAt(j) == Normalise(ar, HeadAfter(ar, w, j, w.Blocks()))
  {
    ghost var done := Start(ar, w, st);
    for batch := 0 to w.batchSize
      invariant Progress(ar, w, st, done)
      invariant GroupByGroup(done, w.Blocks(), batch * w.shape.numKvHeads, 0)
    {
      ghost var base := batch * w.shape.numKvHeads;
      NextMultiple(batch, w.shape.numKvHeads);
      if candidate.traversal == HeadFirst {
        done := RunHeadFirst(ar, w, candidate, batch, st, base, done);
      } else {
        done := RunBlockFirst(ar, w, candidate, batch, st, base, done);
      }
    }
    forall j | 0 <= j < Heads(w)
      ensures st.HeadAt(j) == HeadAfter(ar, w, j, w.Blocks())
    {
      ExpectedEnd(ar, w, done, j);
    }
    NormaliseAll(ar, st);
  }

  /** `reset`, before any group has started. */
  method Start<L, S(0), W(0), X>(ar: Arithmetic<L, S, W, X>, w: Workload<X>, st: State<S, W>) returns (ghost done: seq<nat>)
    requires w.Valid() && Fits(st, w)
    modifies st.maximum, st.sum, st.output
    ensures Progress(ar, w, st, done) && GroupByGroup(done, w.Blocks(), 0, 0)
  {
    st.Reset(ar);
    done := seq(w.Groups(), _ => 0);
    forall j | 0 <= j < Heads(w)
      ensures st.HeadAt(j) == Expected(ar, w, done, j)
    {
      ExpectedStart(ar, w, done, j);
    }
  }
}
