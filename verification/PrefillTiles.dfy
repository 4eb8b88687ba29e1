/**
 The prefill tile kernel: up to 64 query tokens of every query head of a group against the keys and
 values of their sequence, block by block, with the causal mask
 (`csrc/ops/attention/bmc/bmc_prefill_avx512.cpp`), in exact arithmetic.
 */
module PrefillTiles {
  import opened Indexing
  import opened Reals
  import opened Exponentials
  import opened DecodeAttention
  import opened DecodeState
  import opened OnlineSoftmax
  import opened MaskedSoftmax
  import opened PrefillValues

  /** Query rows of a tile. */
  const TILE_ROWS: nat := 64

  /** What a group of query heads works on: their query rows, and the keys and values of one sequence. */
  datatype Group = Group(queries: seq<seq<seq<int>>>, keys: seq<seq<int>>, values: seq<int>, headDim: nat,
                         blockSize: nat, factor: int)
  {
    ghost predicate Valid() {
      && headDim > 0 && 0 < blockSize <= N_MAX && blockSize % 16 == 0
      && |values| == RowStart(|keys|, headDim) && RowsOf(keys, headDim)
      && (forall r :: 0 <= r < |queries| ==> |queries[r]| == QLen() && RowsOf(queries[r], headDim))
    }

    function QLen(): nat { if queries == [] then 0 else |queries[0]| }

    function KvLen(): nat { |keys| }

    /** Query tokens that are computed. */
    function Active(): nat { Min(QLen(), KvLen()) }

    /** The last key a query token may see: queries stand at the end of the sequence. */
    function Position(token: nat): int { token + (KvLen() - Active()) }

    function BlockStart(block: nat): nat { block * blockSize }

    function TokensIn(block: nat): nat { Min(blockSize, if BlockStart(block) < KvLen() then KvLen() - BlockStart(block) else 0) }

    function Heads(): nat { |queries| * TILE_ROWS }

    /** Scores of a query token against all keys. */
    function Scores(r: nat, token: nat): (scores: seq<int>)
      requires Valid() && r < |queries| && token < QLen()
      ensures |scores| == KvLen()
    {
      seq(KvLen(), t requires 0 <= t < KvLen() => ExactScore(factor, queries[r][token], keys[t]))
    }

    /** Row `t` of the values as they are in memory. */
    function ValueRow(t: nat): (row: seq<int>)
      requires Valid() && t < KvLen()
      ensures |row| == headDim
    {
      RowsFollow(t, KvLen(), headDim);
      values[RowStart(t, headDim)..RowStart(t, headDim) + headDim]
    }

    function ValueRows(): (rows: seq<seq<int>>)
      requires Valid()
      ensures |rows| == KvLen() && RowsOf(rows, headDim)
    {
      seq(KvLen(), t requires 0 <= t < KvLen() => ValueRow(t))
    }

    /** Row `t` of the values as the products see it: in a block that is not full, the row before spills into it. */
    function SeenRow(t: nat): (row: seq<int>)
      requires Valid() && t < KvLen()
      ensures |row| == headDim
    {
      var spilt := TokensIn(Quotient(t, blockSize)) < blockSize && Remainder(t, blockSize) > 0;
      seq(headDim, d requires 0 <= d < headDim => if spilt && d < Spill(headDim) then 0 else ValueRow(t)[d])
    }

    function SeenRows(): (rows: seq<seq<int>>)
      requires Valid()
      ensures |rows| == KvLen() && RowsOf(rows, headDim)
    {
      seq(KvLen(), t requires 0 <= t < KvLen() => SeenRow(t))
    }
  }

  /** A block lies inside the sequence. */
  lemma BlockInside(g: Group, block: nat)
    requires g.Valid() && g.BlockStart(block) < g.KvLen()
    ensures 0 < g.TokensIn(block) <= g.blockSize && g.BlockStart(block) + g.TokensIn(block) <= g.KvLen()
  {
  }

  /** The block and the place in it of a token. */
  lemma TokenOfBlock(g: Group, block: nat, t: nat)
    requires g.blockSize > 0 && t < g.TokensIn(block)
    ensures Quotient(g.BlockStart(block) + t, g.blockSize) == block
    ensures Remainder(g.BlockStart(block) + t, g.blockSize) == t
  {
    JoinSplit(block, t, g.blockSize);
  }

  lemma StartsAdd(a: nat, b: nat, headDim: nat)
    ensures RowStart(a + b, headDim) == RowStart(a, headDim) + RowStart(b, headDim)
  {
    Indexing.Distribute(a, b, headDim);
  }

  /** The values of one block as they lie in memory. */
  function FlatBlock(g: Group, block: nat): (flat: seq<int>)
    requires g.Valid() && g.BlockStart(block) < g.KvLen()
    ensures |flat| == RowStart(g.TokensIn(block), g.headDim)
  {
    BlockInside(g, block);
    var start, tokens := g.BlockStart(block), g.TokensIn(block);
    StartsAdd(start, tokens, g.headDim);
    RowsOrdered(start + tokens, g.KvLen(), g.headDim);
    g.values[RowStart(start, g.headDim)..RowStart(start + tokens, g.headDim)]
  }

  /** One element of a block, found in memory. */
  lemma FlatElement(g: Group, block: nat, t: nat, d: nat)
    requires g.Valid() && g.BlockStart(block) < g.KvLen() && t < g.TokensIn(block) && d < g.headDim
    ensures g.BlockStart(block) + t < g.KvLen()
    ensures RowStart(t, g.headDim) + g.headDim <= |FlatBlock(g, block)|
    ensures FlatBlock(g, block)[RowStart(t, g.headDim) + d] == g.ValueRow(g.BlockStart(block) + t)[d]
  {
    var start, tokens := g.BlockStart(block), g.TokensIn(block);
    BlockInside(g, block);
    StartsAdd(start, tokens, g.headDim);
    StartsAdd(start, t, g.headDim);
    RowsFollow(t, tokens, g.headDim);
    RowsFollow(start + t, g.KvLen(), g.headDim);
    RowsOrdered(start + tokens, g.KvLen(), g.headDim);
    hide RowStart;
  }

  /** What the products see of a block are the rows seen of the sequence. */
  lemma PackedIsSeen(g: Group, block: nat, rows: seq<seq<int>>)
    requires g.Valid() && g.BlockStart(block) < g.KvLen() && |rows| == g.blockSize && g.TokensIn(block) <= g.blockSize
    requires PackedTo(rows, Padded(FlatBlock(g, block), g.TokensIn(block), g.blockSize, g.headDim),
                      g.TokensIn(block) < g.blockSize, g.headDim, g.headDim)
    ensures g.BlockStart(block) + g.TokensIn(block) <= g.KvLen()
    ensures forall t: nat :: t < g.TokensIn(block) ==> rows[t] == g.SeenRows()[g.BlockStart(block) + t]
  {
    BlockInside(g, block);
    var source := Padded(FlatBlock(g, block), g.TokensIn(block), g.blockSize, g.headDim);
    forall t: nat | t < g.TokensIn(block)
      ensures rows[t] == g.SeenRows()[g.BlockStart(block) + t]
    {
      assert rows[t] == PackedRow(source, g.TokensIn(block) < g.blockSize, g.headDim, t)[..g.headDim];
      PackedRowIsSeen(g, block, t, source);
    }
  }

  lemma PackedRowIsSeen(g: Group, block: nat, t: nat, source: seq<int>)
    requires g.Valid() && g.BlockStart(block) < g.KvLen() && t < g.TokensIn(block) <= g.blockSize
    requires source == Padded(FlatBlock(g, block), g.TokensIn(block), g.blockSize, g.headDim)
    requires RowStart(t, g.headDim) + g.headDim <= |source| && g.BlockStart(block) + t < g.KvLen()
    ensures PackedRow(source, g.TokensIn(block) < g.blockSize, g.headDim, t) == g.SeenRow(g.BlockStart(block) + t)
  {
    TokenOfBlock(g, block, t);
    var a := PackedRow(source, g.TokensIn(block) < g.blockSize, g.headDim, t);
    var b := g.SeenRow(g.BlockStart(block) + t);
    hide RowStart, Spill, Quotient, Remainder, Group.BlockStart;
    forall d | 0 <= d < g.headDim
      ensures a[d] == b[d]
    {
      FlatElement(g, block, t, d);
      assert source[RowStart(t, g.headDim) + d] == FlatBlock(g, block)[RowStart(t, g.headDim) + d];
    }
  }

  // ----- one row and one block -----

  /** Scaling the query first scales the score. */
  lemma {:induction false} ScaledDot(query: seq<int>, scaled: seq<int>, key: seq<int>, factor: int, n: nat)
    requires n <= |query| == |scaled| == |key| && forall d :: 0 <= d < |query| ==> scaled[d] == query[d] * factor
    ensures Dot(scaled, key, n) == Dot(query, key, n) * factor
  {
    if n > 0 {
      ScaledDot(query, scaled, key, factor, n - 1);
      ScaledTerm(Dot(query, key, n - 1), query[n - 1], key[n - 1], factor);
    }
  }

  lemma ScaledTerm(before: int, q: int, k: int, factor: int)
    ensures before * factor + (q * factor) * k == (before + q * k) * factor
  {
  }

  method DotRow(a: seq<int>, b: seq<int>) returns (dot: int)
    requires |a| == |b|
    ensures dot == Dot(a, b, |a|)
  {
    dot := 0;
    for d := 0 to |a|
      invariant dot == Dot(a, b, d)
    {
      dot := dot + a[d] * b[d];
    }
  }

  /** The scaled query of a token against the keys of a block. */
  method ScoreRow(g: Group, r: nat, token: nat, block: nat) returns (scores: seq<Extended>)
    requires g.Valid() && r < |g.queries| && token < g.QLen() && g.BlockStart(block) < g.KvLen()
    ensures |scores| == g.TokensIn(block) && g.BlockStart(block) + g.TokensIn(block) <= g.KvLen()
    ensures forall t :: 0 <= t < |scores| ==> scores[t] == Finite(g.Scores(r, token)[g.BlockStart(block) + t])
  {
    BlockInside(g, block);
    hide Group.BlockStart, Group.TokensIn;
    var query, start := g.queries[r][token], g.BlockStart(block);
    var scaled := seq(|query|, d requires 0 <= d < |query| => query[d] * g.factor);
    scores := [];
    for t := 0 to g.TokensIn(block)
      invariant |scores| == t && forall u :: 0 <= u < t ==> scores[u] == Finite(g.Scores(r, token)[start + u])
    {
      var dot := DotRow(scaled, g.keys[start + t]);
      ScaledDot(query, scaled, g.keys[start + t], g.factor, |query|);
      scores := scores + [Finite(dot)];
    }
  }

  /** A block's scores with those of later tokens masked. */
  function Masked(g: Group, r: nat, token: nat, block: nat): (scores: seq<Extended>)
    requires g.Valid() && r < |g.queries| && token < g.QLen() && g.BlockStart(block) + g.TokensIn(block) <= g.KvLen()
    ensures |scores| == g.TokensIn(block)
  {
    seq(g.TokensIn(block), t requires 0 <= t < g.TokensIn(block) =>
      if g.BlockStart(block) + t <= token + (|g.keys| - Min(|g.queries[r]|, |g.keys|)) then
        Finite(g.Scores(r, token)[g.BlockStart(block) + t])
      else MinusInfinity)
  }

  /** The causal mask, left out for a full block that every row of the tile sees whole. */
  method MaskRow(g: Group, r: nat, token: nat, block: nat, fullyUnmasked: bool) returns (scores: seq<Extended>)
    requires g.Valid() && r < |g.queries| && token < g.QLen() && g.BlockStart(block) < g.KvLen()
    requires fullyUnmasked ==> g.BlockStart(block) + g.TokensIn(block) - 1 <= g.Position(token)
    ensures g.BlockStart(block) + g.TokensIn(block) <= g.KvLen() && scores == Masked(g, r, token, block)
  {
    scores := ScoreRow(g, r, token, block);
    assert g.Position(token) == token + (|g.keys| - Min(|g.queries[r]|, |g.keys|));
    hide Group.BlockStart, Group.TokensIn, Group.Position;
    if !fullyUnmasked {
      ghost var all := scores;
      scores := seq(|scores|, t requires 0 <= t < |scores| =>
        if g.BlockStart(block) + t <= g.Position(token) then scores[t] else MinusInfinity);
    }
    assert scores == Masked(g, r, token, block);
  }

  method LargestOf(scores: seq<Extended>) returns (blockMax: Extended)
    ensures blockMax == MaxOf(scores, |scores|)
  {
    blockMax := MinusInfinity;
    for t := 0 to |scores|
      invariant blockMax == MaxOf(scores, t)
    {
      blockMax := Larger(blockMax, scores[t]);
    }
  }

  method WeightsOf(exp: Exponential, scores: seq<Extended>, newMax: Extended) returns (weights: seq<real>)
    ensures weights == seq(|scores|, t requires 0 <= t < |scores| => ExpDifference(exp, scores[t], newMax))
  {
    weights := [];
    for t := 0 to |scores|
      invariant |weights| == t && forall u :: 0 <= u < t ==> weights[u] == ExpDifference(exp, scores[u], newMax)
    {
      weights := weights + [ExpDifference(exp, scores[t], newMax)];
    }
  }

  /** A larger maximum and the sum of a block's weights. */
  method TakeIn<L, X>(ar: Arithmetic<L, Extended, real, X>, st: State<Extended, real>, j: nat, newMax: Extended, blockSum: real)
    requires st.Shaped() && j < st.heads
    modifies st.maximum, st.sum, st.output
    ensures var r := Rescale(ar, old(st.HeadAt(j)), newMax); st.HeadAt(j) == r.(sum := r.sum + blockSum)
    ensures forall i :: 0 <= i < st.heads && i != j ==> st.HeadAt(i) == old(st.HeadAt(i))
  {
    RescaleHead(ar, st, j, newMax);
    st.sum[j] := st.sum[j] + blockSum;
    st.maximum[j] := newMax;
  }

  /** Maximum, sum, rescaling and weights of one row; nothing at all for a row that sees no token of the block. */
  method WeighRow(exp: Exponential, st: State<Extended, real>, j: nat, scores: seq<Extended>) returns (weights: seq<real>)
    requires st.Shaped() && j < st.heads
    modifies st.maximum, st.sum, st.output
    ensures st.HeadAt(j) == RowWeighed(exp, old(st.HeadAt(j)), scores)
    ensures weights == RowWeights(exp, old(st.HeadAt(j)), scores)
    ensures forall i :: 0 <= i < st.heads && i != j ==> st.HeadAt(i) == old(st.HeadAt(i))
  {
    var blockMax := LargestOf(scores);
    if blockMax.MinusInfinity? {
      return Zeros(|scores|);
    }
    var newMax := Larger(st.maximum[j], blockMax);
    weights := WeightsOf(exp, scores, newMax);
    TakeIn(Exact(exp, 1), st, j, newMax, Sum(weights, |weights|));
  }

  /** A row with the weighted values of a block added. */
  function ValuesAdded(exp: Exponential, h: HeadState<Extended, real>, weights: seq<real>, values: seq<seq<int>>)
    : (r: HeadState<Extended, real>)
    requires |weights| == |values| && RowsOf(values, |h.output|)
  {
    h.(output := seq(|h.output|, d requires 0 <= d < |h.output| =>
      Accumulate(Exact(exp, 1), h.output[d], weights, values, d, |values|)))
  }

  method AddValues(exp: Exponential, st: State<Extended, real>, j: nat, weights: seq<real>, values: seq<seq<int>>)
    requires st.Shaped() && j < st.heads && |weights| == |values| && RowsOf(values, st.headDim)
    modifies st.output
    ensures st.HeadAt(j) == ValuesAdded(exp, old(st.HeadAt(j)), weights, values)
    ensures forall i :: 0 <= i < st.heads && i != j ==> st.HeadAt(i) == old(st.HeadAt(i))
  {
    ghost var before, head := st.output[..], st.HeadAt(j);
    RowInside(j, st.heads, st.headDim);
    AccumulateWeighted(Exact(exp, 1), st.output, j * st.headDim, j * st.headDim + st.headDim, values, weights);
    ghost var row := ValuesAdded(exp, head, weights, values).output;
    RowWritten(before, st.output[..], st.heads, st.headDim, j, row);
  }

  // ----- one block for all rows of a tile -----

  /** A tile of a group: its first query token, and how many it has. */
  ghost predicate IsTile(g: Group, first: nat, rows: nat) {
    g.Valid() && 0 < rows <= TILE_ROWS && first + rows <= g.Active()
  }

  /** Scores of row `j` of a tile against a block: 64 places for every query head. */
  function RowScores(g: Group, first: nat, rows: nat, block: nat, j: nat): (scores: seq<Extended>)
    requires g.Valid() && j < g.Heads() && j % TILE_ROWS < rows && first + rows <= g.Active()
    requires g.BlockStart(block) + g.TokensIn(block) <= g.KvLen()
    ensures |scores| == g.TokensIn(block)
  {
    Masked(g, j / TILE_ROWS, first + j % TILE_ROWS, block)
  }

  /** The rows below `n` have their weights; the others are untouched. */
  ghost predicate WeighedTo(exp: Exponential, g: Group, first: nat, rows: nat, block: nat,
                            before: seq<HeadState<Extended, real>>, now: seq<HeadState<Extended, real>>,
                            weights: seq<seq<real>>, n: nat)
    requires IsTile(g, first, rows) && g.BlockStart(block) + g.TokensIn(block) <= g.KvLen()
  {
    && |before| == |now| == |weights| == g.Heads()
    && (forall j :: 0 <= j < |now| && (n <= j || j % TILE_ROWS >= rows) ==> now[j] == before[j])
    && forall j: nat :: j < |now| && j < n && j % TILE_ROWS < rows ==>
         && now[j] == RowWeighed(exp, before[j], RowScores(g, first, rows, block, j))
         && weights[j] == RowWeights(exp, before[j], RowScores(g, first, rows, block, j))
  }

  lemma WeighedNext(exp: Exponential, g: Group, first: nat, rows: nat, block: nat,
                    before: seq<HeadState<Extended, real>>, now: seq<HeadState<Extended, real>>, weights: seq<seq<real>>,
                    after: seq<HeadState<Extended, real>>, next: seq<seq<real>>, j: nat)
    requires IsTile(g, first, rows) && g.BlockStart(block) + g.TokensIn(block) <= g.KvLen()
    requires WeighedTo(exp, g, first, rows, block, before, now, weights, j) && j < |now| && j % TILE_ROWS < rows
    requires after == now[j := RowWeighed(exp, now[j], RowScores(g, first, rows, block, j))]
    requires next == weights[j := RowWeights(exp, now[j], RowScores(g, first, rows, block, j))]
    ensures WeighedTo(exp, g, first, rows, block, before, after, next, j + 1)
  {
    hide RowWeighed, RowWeights, RowScores;
  }

  /** Behind the last row of a query head there is nothing to do. */
  lemma WeighedRest(exp: Exponential, g: Group, first: nat, rows: nat, block: nat,
                    before: seq<HeadState<Extended, real>>, now: seq<HeadState<Extended, real>>, weights: seq<seq<real>>,
                    r: nat, n: nat, next: nat)
    requires IsTile(g, first, rows) && g.BlockStart(block) + g.TokensIn(block) <= g.KvLen()
    requires n == r * TILE_ROWS + rows && next == (r + 1) * TILE_ROWS
    requires WeighedTo(exp, g, first, rows, block, before, now, weights, n)
    ensures WeighedTo(exp, g, first, rows, block, before, now, weights, next)
  {
    hide RowWeighed, RowWeights, RowScores, Group.BlockStart, Group.TokensIn;
    forall j: nat | j % TILE_ROWS < rows
      ensures j < n <==> j < next
    {
      BelowRow(j, r, rows);
    }
  }

  lemma BelowRow(j: nat, r: nat, rows: nat)
    requires j % TILE_ROWS < rows <= TILE_ROWS
    ensures j < r * TILE_ROWS + rows <==> j < (r + 1) * TILE_ROWS
  {
  }

  /** The rows of one query head. */
  method WeighHead(exp: Exponential, g: Group, st: State<Extended, real>, first: nat, rows: nat, block: nat,
                   fullyUnmasked: bool, r: nat, start: seq<seq<real>>, ghost before: seq<HeadState<Extended, real>>)
    returns (weights: seq<seq<real>>)
    requires IsTile(g, first, rows) && g.BlockStart(block) < g.KvLen() && r < |g.queries|
    requires g.BlockStart(block) + g.TokensIn(block) <= g.KvLen()
    requires fullyUnmasked ==> g.BlockStart(block) + g.TokensIn(block) - 1 <= g.Position(first)
    requires st.Shaped() && st.heads == g.Heads()
    requires WeighedTo(exp, g, first, rows, block, before, st.AllHeads(), start, r * TILE_ROWS)
    modifies st.maximum, st.sum, st.output
    ensures WeighedTo(exp, g, first, rows, block, before, st.AllHeads(), weights, (r + 1) * TILE_ROWS)
  {
    hide Group.BlockStart, Group.TokensIn, RowWeighed, RowWeights, WeighedTo;
    weights := start;
    assert |start| == g.Heads() by {
      WeighedLength(exp, g, first, rows, block, before, st.AllHeads(), start, r * TILE_ROWS);
    }
    for qi := 0 to rows
      invariant |weights| == g.Heads()
      invariant WeighedTo(exp, g, first, rows, block, before, st.AllHeads(), weights, r * TILE_ROWS + qi)
    {
      var j := r * TILE_ROWS + qi;
      var scores := MaskRow(g, r, first + qi, block, fullyUnmasked);
      ghost var now := st.AllHeads();
      assert j / TILE_ROWS == r && j % TILE_ROWS == qi && scores == RowScores(g, first, rows, block, j);
      var rowWeights := WeighRow(exp, st, j, scores);
      assert st.AllHeads() == now[j := RowWeighed(exp, now[j], scores)];
      WeighedNext(exp, g, first, rows, block, before, now, weights, st.AllHeads(), weights[j := rowWeights], j);
      weights := weights[j := rowWeights];
    }
    WeighedRest(exp, g, first, rows, block, before, st.AllHeads(), weights, r, r * TILE_ROWS + rows, (r + 1) * TILE_ROWS);
  }

  lemma WeighedLength(exp: Exponential, g: Group, first: nat, rows: nat, block: nat,
                      before: seq<HeadState<Extended, real>>, now: seq<HeadState<Extended, real>>, weights: seq<seq<real>>, n: nat)
    requires IsTile(g, first, rows) && g.BlockStart(block) + g.TokensIn(block) <= g.KvLen()
    requires WeighedTo(exp, g, first, rows, block, before, now, weights, n)
    ensures |weights| == |before| == g.Heads()
  {
  }

  /** The weights of all rows of a tile, head by head. */
  method WeighTile(exp: Exponential, g: Group, st: State<Extended, real>, first: nat, rows: nat, block: nat,
                   fullyUnmasked: bool) returns (weights: seq<seq<real>>)
    requires IsTile(g, first, rows) && g.BlockStart(block) < g.KvLen()
    requires g.BlockStart(block) + g.TokensIn(block) <= g.KvLen()
    requires fullyUnmasked ==> g.BlockStart(block) + g.TokensIn(block) - 1 <= g.Position(first)
    requires st.Shaped() && st.heads == g.Heads()
    modifies st.maximum, st.sum, st.output
    ensures WeighedTo(exp, g, first, rows, block, old(st.AllHeads()), st.AllHeads(), weights, g.Heads())
  {
    ghost var before := st.AllHeads();
    weights := seq(g.Heads(), _ => []);
    for r := 0 to |g.queries|
      invariant WeighedTo(exp, g, first, rows, block, before, st.AllHeads(), weights, r * TILE_ROWS)
    {
      hide WeighedTo, Group.BlockStart, Group.TokensIn;
      weights := WeighHead(exp, g, st, first, rows, block, fullyUnmasked, r, weights, before);
    }
  }

  /** The values of a block as the products see them. */
  function SeenBlock(g: Group, block: nat): (values: seq<seq<int>>)
    requires g.Valid() && g.BlockStart(block) + g.TokensIn(block) <= g.KvLen()
    ensures |values| == g.TokensIn(block) && RowsOf(values, g.headDim)
  {
    g.SeenRows()[g.BlockStart(block)..g.BlockStart(block) + g.TokensIn(block)]
  }

  method LoadValues(g: Group, block: nat) returns (values: seq<seq<int>>)
    requires g.Valid() && g.BlockStart(block) < g.KvLen()
    ensures g.BlockStart(block) + g.TokensIn(block) <= g.KvLen() && values == SeenBlock(g, block)
  {
    BlockInside(g, block);
    var packed := PackValues(FlatBlock(g, block), g.TokensIn(block), g.blockSize, g.headDim);
    PackedIsSeen(g, block, packed);
    values := packed[..g.TokensIn(block)];
    assert values == SeenBlock(g, block);
  }

  /** The rows below `n` have the values of the block, too. */
  ghost predicate SteppedTo(exp: Exponential, g: Group, first: nat, rows: nat, block: nat,
                            before: seq<HeadState<Extended, real>>, mid: seq<HeadState<Extended, real>>,
                            now: seq<HeadState<Extended, real>>, n: nat)
    requires IsTile(g, first, rows) && g.BlockStart(block) + g.TokensIn(block) <= g.KvLen()
  {
    && |before| == |mid| == |now| == g.Heads()
    && (forall j :: 0 <= j < |before| ==> |before[j].output| == g.headDim)
    && (forall j :: 0 <= j < |now| && (n <= j || j % TILE_ROWS >= rows) ==> now[j] == mid[j])
    && forall j: nat :: j < |now| && j < n && j % TILE_ROWS < rows ==>
         now[j] == RowStep(exp, before[j], RowScores(g, first, rows, block, j), SeenBlock(g, block))
  }

  lemma SteppedNext(exp: Exponential, g: Group, first: nat, rows: nat, block: nat,
                    before: seq<HeadState<Extended, real>>, mid: seq<HeadState<Extended, real>>, weights: seq<seq<real>>,
                    now: seq<HeadState<Extended, real>>, after: seq<HeadState<Extended, real>>, j: nat)
    requires IsTile(g, first, rows) && g.BlockStart(block) + g.TokensIn(block) <= g.KvLen()
    requires WeighedTo(exp, g, first, rows, block, before, mid, weights, g.Heads())
    requires SteppedTo(exp, g, first, rows, block, before, mid, now, j) && j < |now| && j % TILE_ROWS < rows
    requires |weights[j]| == g.TokensIn(block) && |now[j].output| == g.headDim
    requires after == now[j := ValuesAdded(exp, now[j], weights[j], SeenBlock(g, block))]
    ensures SteppedTo(exp, g, first, rows, block, before, mid, after, j + 1)
  {
    assert now[j] == RowWeighed(exp, before[j], RowScores(g, first, rows, block, j));
    assert after[j] == RowStep(exp, before[j], RowScores(g, first, rows, block, j), SeenBlock(g, block));
    hide RowWeighed, RowWeights, RowScores, SeenBlock, RowStep, WeighedTo;
  }

  lemma SteppedRest(exp: Exponential, g: Group, first: nat, rows: nat, block: nat,
                    before: seq<HeadState<Extended, real>>, mid: seq<HeadState<Extended, real>>,
                    now: seq<HeadState<Extended, real>>, r: nat, n: nat, next: nat)
    requires IsTile(g, first, rows) && g.BlockStart(block) + g.TokensIn(block) <= g.KvLen()
    requires n == r * TILE_ROWS + rows && next == (r + 1) * TILE_ROWS
    requires SteppedTo(exp, g, first, rows, block, before, mid, now, n)
    ensures SteppedTo(exp, g, first, rows, block, before, mid, now, next)
  {
    hide RowStep, RowScores, SeenBlock, Group.BlockStart, Group.TokensIn;
    forall j: nat | j % TILE_ROWS < rows
      ensures j < n <==> j < next
    {
      BelowRow(j, r, rows);
    }
  }

  lemma WeightsFit(exp: Exponential, g: Group, first: nat, rows: nat, block: nat, before: seq<HeadState<Extended, real>>,
                   mid: seq<HeadState<Extended, real>>, weights: seq<seq<real>>, j: nat)
    requires IsTile(g, first, rows) && g.BlockStart(block) + g.TokensIn(block) <= g.KvLen()
    requires WeighedTo(exp, g, first, rows, block, before, mid, weights, g.Heads()) && j < g.Heads() && j % TILE_ROWS < rows
    ensures |weights| == g.Heads() && |weights[j]| == g.TokensIn(block)
  {
  }

  /** The values added to the rows of one query head. */
  method AddHead(exp: Exponential, g: Group, st: State<Extended, real>, first: nat, rows: nat, block: nat, r: nat,
                 weights: seq<seq<real>>, values: seq<seq<int>>,
                 ghost before: seq<HeadState<Extended, real>>, ghost mid: seq<HeadState<Extended, real>>)
    requires IsTile(g, first, rows) && g.BlockStart(block) + g.TokensIn(block) <= g.KvLen() && r < |g.queries|
    requires values == SeenBlock(g, block) && st.Shaped() && st.heads == g.Heads() && st.headDim == g.headDim
    requires WeighedTo(exp, g, first, rows, block, before, mid, weights, g.Heads())
    requires SteppedTo(exp, g, first, rows, block, before, mid, st.AllHeads(), r * TILE_ROWS)
    modifies st.output
    ensures SteppedTo(exp, g, first, rows, block, before, mid, st.AllHeads(), (r + 1) * TILE_ROWS)
  {
    hide SteppedTo, WeighedTo, SeenBlock, ValuesAdded, Group.BlockStart, Group.TokensIn;
    for qi := 0 to rows
      invariant SteppedTo(exp, g, first, rows, block, before, mid, st.AllHeads(), r * TILE_ROWS + qi)
    {
      var j := r * TILE_ROWS + qi;
      assert j % TILE_ROWS == qi;
      WeightsFit(exp, g, first, rows, block, before, mid, weights, j);
      ghost var now := st.AllHeads();
      AddValues(exp, st, j, weights[j], values);
      assert st.AllHeads() == now[j := ValuesAdded(exp, now[j], weights[j], values)];
      SteppedNext(exp, g, first, rows, block, before, mid, weights, now, st.AllHeads(), j);
    }
    SteppedRest(exp, g, first, rows, block, before, mid, st.AllHeads(), r, r * TILE_ROWS + rows, (r + 1) * TILE_ROWS);
  }

  lemma NoneStepped(exp: Exponential, g: Group, first: nat, rows: nat, block: nat, before: seq<HeadState<Extended, real>>,
                    mid: seq<HeadState<Extended, real>>, weights: seq<seq<real>>)
    requires IsTile(g, first, rows) && g.BlockStart(block) + g.TokensIn(block) <= g.KvLen()
    requires WeighedTo(exp, g, first, rows, block, before, mid, weights, g.Heads())
    requires forall j :: 0 <= j < |before| ==> |before[j].output| == g.headDim
    ensures SteppedTo(exp, g, first, rows, block, before, mid, mid, 0)
  {
  }

  /** One block: scores, weights and sums of all rows, then the values. */
  method ProcessBlock(exp: Exponential, g: Group, st: State<Extended, real>, first: nat, rows: nat, block: nat)
    requires IsTile(g, first, rows) && g.BlockStart(block) < g.KvLen()
    requires st.Shaped() && st.heads == g.Heads() && st.headDim == g.headDim
    modifies st.maximum, st.sum, st.output
    ensures g.BlockStart(block) + g.TokensIn(block) <= g.KvLen()
    ensures forall j :: 0 <= j < g.Heads() && j % TILE_ROWS < rows ==>
      st.HeadAt(j) == RowStep(exp, old(st.HeadAt(j)), RowScores(g, first, rows, block, j), SeenBlock(g, block))
  {
    BlockInside(g, block);
    hide WeighedTo, Group.BlockStart, Group.TokensIn, SeenBlock;
    ghost var before := st.AllHeads();
    var fullyUnmasked := g.BlockStart(block) + g.TokensIn(block) - 1 <= g.Position(first) && g.TokensIn(block) == g.blockSize;
    var weights := WeighTile(exp, g, st, first, rows, block, fullyUnmasked);
    ghost var mid := st.AllHeads();
    var values := LoadValues(g, block);
    NoneStepped(exp, g, first, rows, block, before, mid, weights);
    for r := 0 to |g.queries|
      invariant SteppedTo(exp, g, first, rows, block, before, mid, st.AllHeads(), r * TILE_ROWS)
    {
      hide SteppedTo;
      AddHead(exp, g, st, first, rows, block, r, weights, values, before, mid);
    }
    forall j | 0 <= j < g.Heads() && j % TILE_ROWS < rows
      ensures st.HeadAt(j) == RowStep(exp, before[j], RowScores(g, first, rows, block, j), SeenBlock(g, block))
    {
      assert st.AllHeads()[j] == st.HeadAt(j);
    }
  }

  // ----- a whole tile -----

  /**
   Scores of a token against the keys up to its own place, when the queries are the last tokens of the
   sequence, and the values that go with them.
   */
  function VisibleScores(g: Group, r: nat, token: nat): (scores: seq<int>)
    requires g.Valid() && r < |g.queries| && token < g.Active()
    ensures |scores| == g.Position(token) + 1
    ensures scores == g.Scores(r, token)[..g.Position(token) + 1]
  {
    var count := token + 1 + (|g.keys| - Min(|g.queries[r]|, |g.keys|));
    seq(count, u requires 0 <= u < count => Dot(g.queries[r][token], g.keys[u], g.headDim) * g.factor)
  }

  function VisibleSeen(g: Group, token: nat): (values: seq<seq<int>>)
    requires g.Valid() && token < g.Active()
    ensures |values| == g.Position(token) + 1 && RowsOf(values, g.headDim)
  {
    g.SeenRows()[..g.Position(token) + 1]
  }

  /** How many keys a token has taken in before a block. */
  function TakenBefore(g: Group, token: nat, block: nat): (k: nat)
    requires g.Valid() && token < g.Active()
    ensures k <= g.Position(token) + 1
  {
    Min(g.BlockStart(block), g.Position(token) + 1)
  }

  ghost predicate RowReady(exp: Exponential, g: Group, r: nat, token: nat, h: HeadState<Extended, real>, k: nat)
    requires g.Valid() && r < |g.queries| && token < g.Active() && k <= g.Position(token) + 1
  {
    |h.output| == g.headDim && Represents(exp, h, VisibleScores(g, r, token), VisibleSeen(g, token), k)
  }

  /** How many tokens of a block a token can see. */
  lemma VisibleCount(g: Group, token: nat, block: nat, k: nat, next: nat)
    requires g.Valid() && token < g.Active() && g.BlockStart(block) + g.TokensIn(block) <= g.KvLen()
    requires k == TakenBefore(g, token, block) && next == TakenBefore(g, token, block + 1)
    ensures if g.Position(token) < g.BlockStart(block) then next == k
            else k == g.BlockStart(block) && next == k + Min(g.TokensIn(block), g.Position(token) + 1 - g.BlockStart(block))
  {
    NextMultiple(block, g.blockSize);
    assert g.BlockStart(block + 1) == g.BlockStart(block) + g.blockSize;
    hide Group.BlockStart;
  }

  /** What a token can see of a block is a first part of it. */
  lemma BlockVisible(g: Group, r: nat, token: nat, block: nat, k: nat, next: nat)
    requires g.Valid() && r < |g.queries| && token < g.Active() && g.BlockStart(block) < g.KvLen()
    requires g.BlockStart(block) + g.TokensIn(block) <= g.KvLen()
    requires k == TakenBefore(g, token, block) && next == TakenBefore(g, token, block + 1)
    ensures k <= next
    ensures Visible(Masked(g, r, token, block), SeenBlock(g, block), VisibleScores(g, r, token), VisibleSeen(g, token), k, next - k)
  {
    VisibleCount(g, token, block, k, next);
    hide Group.BlockStart, Group.TokensIn, Group.Scores, Group.SeenRows, TakenBefore;
    hide Masked, SeenBlock, VisibleScores, VisibleSeen;
    var masked, seen := Masked(g, r, token, block), SeenBlock(g, block);
    var scores, values := VisibleScores(g, r, token), VisibleSeen(g, token);
    forall t: nat | t < |masked|
      ensures t < next - k ==> masked[t] == Finite(scores[k + t]) && seen[t] == values[k + t]
      ensures next - k <= t ==> masked[t] == MinusInfinity
    {
      BlockElement(g, r, token, block, t);
    }
  }

  lemma BlockElement(g: Group, r: nat, token: nat, block: nat, t: nat)
    requires g.Valid() && r < |g.queries| && token < g.Active()
    requires g.BlockStart(block) + g.TokensIn(block) <= g.KvLen() && t < g.TokensIn(block)
    ensures var at := g.BlockStart(block) + t;
            if at <= g.Position(token) then
              && Masked(g, r, token, block)[t] == Finite(VisibleScores(g, r, token)[at])
              && SeenBlock(g, block)[t] == VisibleSeen(g, token)[at]
            else
              Masked(g, r, token, block)[t] == MinusInfinity
  {
    hide Group.BlockStart, Group.TokensIn, Group.Scores, Group.SeenRows;
  }

  /** A block takes a row to the last token it can see in it. */
  lemma BlockTakesRow(exp: Exponential, g: Group, r: nat, token: nat, block: nat, h: HeadState<Extended, real>)
    requires exp.Lawful() && g.Valid() && r < |g.queries| && token < g.Active() && g.BlockStart(block) < g.KvLen()
    requires g.BlockStart(block) + g.TokensIn(block) <= g.KvLen()
    requires RowReady(exp, g, r, token, h, TakenBefore(g, token, block))
    ensures RowReady(exp, g, r, token, RowStep(exp, h, Masked(g, r, token, block), SeenBlock(g, block)),
                     TakenBefore(g, token, block + 1))
  {
    hide Group.Scores, Group.SeenRows, Group.BlockStart, Group.TokensIn, TakenBefore, Visible, Represents;
    hide RowStep, Masked, SeenBlock, VisibleScores, VisibleSeen;
    var k, next := TakenBefore(g, token, block), TakenBefore(g, token, block + 1);
    var masked, seen := Masked(g, r, token, block), SeenBlock(g, block);
    var scores, values := VisibleScores(g, r, token), VisibleSeen(g, token);
    BlockVisible(g, r, token, block, k, next);
    RowStepRepresents(exp, h, masked, seen, scores, values, k, next - k);
  }

  lemma SumIsPositive(exp: Exponential, h: HeadState<Extended, real>, scores: seq<int>, values: seq<seq<int>>)
    requires exp.Lawful() && 0 < |scores| == |values| && RowsOf(values, |h.output|) && Represents(exp, h, scores, values, |scores|)
    ensures h.sum > 0.0
  {
    var n := |scores|;
    TopIsLargest(scores, n);
    var m := h.maximum.value;
    assert h.sum == Sum(Terms(exp, scores, Ones(n), Finite(m)), n);
    hide *;
    ScaledSum(exp, scores, Ones(n), m, n);
    ExpSumPositive(exp, scores, n);
    PositiveScaled(Sum(ExpTerms(exp, scores, Ones(n)), n), exp.At(-m));
  }

  lemma PositiveScaled(x: real, scale: real)
    requires x > 0.0 && scale > 0.0
    ensures Scaled(x, scale) > 0.0
  {
    Reals.Positive(x, scale);
  }

  /** What a tile leaves for one query token: softmax attention to the keys it may see, over the values as seen. */
  function TileRow(exp: Exponential, g: Group, r: nat, token: nat): (row: seq<real>)
    requires g.Valid() && r < |g.queries| && token < g.Active()
    ensures |row| == g.headDim
  {
    seq(g.headDim, d requires 0 <= d < g.headDim =>
      Attention(exp, VisibleScores(g, r, token), VisibleSeen(g, token), g.headDim, d))
  }

  /** The output row of a state that has taken everything in; it is written because its sum is positive. */
  method NormaliseRow(exp: Exponential, g: Group, st: State<Extended, real>, j: nat, ghost r: nat, ghost token: nat)
    returns (row: seq<real>)
    requires exp.Lawful() && g.Valid() && r < |g.queries| && token < g.Active()
    requires st.Shaped() && j < st.heads && st.headDim == g.headDim
    requires RowReady(exp, g, r, token, st.HeadAt(j), g.Position(token) + 1)
    ensures row == TileRow(exp, g, r, token)
  {
    ghost var h, scores, values := st.HeadAt(j), VisibleScores(g, r, token), VisibleSeen(g, token);
    SumIsPositive(exp, h, scores, values);
    RowInside(j, st.heads, st.headDim);
    row := [];
    if st.sum[j] > 0.0 {
      var output := st.output[j * st.headDim..j * st.headDim + st.headDim];
      row := DividedRow(output, st.sum[j]);
      RowIsAttention(exp, h, scores, values, row);
    }
  }

  /** A row times one over its sum. */
  method DividedRow(output: seq<real>, sum: real) returns (row: seq<real>)
    requires sum > 0.0
    ensures |row| == |output| && forall d :: 0 <= d < |row| ==> row[d] == Divided(output[d], sum)
  {
    row := [];
    for d := 0 to |output|
      invariant |row| == d && forall e :: 0 <= e < d ==> row[e] == Divided(output[e], sum)
    {
      row := row + [output[d] * (1.0 / sum)];
    }
  }

  lemma RowIsAttention(exp: Exponential, h: HeadState<Extended, real>, scores: seq<int>, values: seq<seq<int>>, row: seq<real>)
    requires exp.Lawful() && |scores| == |values| && RowsOf(values, |h.output|) && Represents(exp, h, scores, values, |scores|)
    requires |row| == |h.output| && forall d :: 0 <= d < |row| ==> row[d] == Divided(h.output[d], h.sum)
    ensures forall d :: 0 <= d < |row| ==> row[d] == Attention(exp, scores, values, |h.output|, d)
  {
    hide Divided, Attention, Represents, Normalise, Exact;
    forall d | 0 <= d < |row|
      ensures row[d] == Attention(exp, scores, values, |h.output|, d)
    {
      NormaliseIsAttention(exp, 1, h, scores, values, d);
      NormalisedAt(exp, 1, h, d);
    }
  }

  /** Every row of a tile has taken in what it can see before a block. */
  ghost predicate TileReady(exp: Exponential, g: Group, first: nat, rows: nat, heads: seq<HeadState<Extended, real>>, block: nat)
    requires IsTile(g, first, rows)
  {
    |heads| == g.Heads() && forall j: nat :: j < |heads| && j % TILE_ROWS < rows ==>
      RowReady(exp, g, j / TILE_ROWS, first + j % TILE_ROWS, heads[j], TakenBefore(g, first + j % TILE_ROWS, block))
  }

  lemma ReadyNext(exp: Exponential, g: Group, first: nat, rows: nat, block: nat,
                  before: seq<HeadState<Extended, real>>, after: seq<HeadState<Extended, real>>)
    requires exp.Lawful() && IsTile(g, first, rows) && g.BlockStart(block) < g.KvLen()
    requires g.BlockStart(block) + g.TokensIn(block) <= g.KvLen()
    requires TileReady(exp, g, first, rows, before, block) && |after| == g.Heads()
    requires forall j :: 0 <= j < |before| ==> |before[j].output| == g.headDim
    requires forall j :: 0 <= j < |after| && j % TILE_ROWS < rows ==>
      after[j] == RowStep(exp, before[j], RowScores(g, first, rows, block, j), SeenBlock(g, block))
    ensures TileReady(exp, g, first, rows, after, block + 1)
  {
    hide RowReady, TakenBefore, RowStep, Masked, SeenBlock, Group.BlockStart, Group.TokensIn;
    forall j: nat | j < |after| && j % TILE_ROWS < rows
      ensures RowReady(exp, g, j / TILE_ROWS, first + j % TILE_ROWS, after[j], TakenBefore(g, first + j % TILE_ROWS, block + 1))
    {
      BlockTakesRow(exp, g, j / TILE_ROWS, first + j % TILE_ROWS, block, before[j]);
    }
  }

  lemma ReadyAtStart(exp: Exponential, g: Group, first: nat, rows: nat, heads: seq<HeadState<Extended, real>>)
    requires IsTile(g, first, rows) && |heads| == g.Heads()
    requires forall j :: 0 <= j < |heads| ==> heads[j] == Reset(Exact(exp, 1), g.headDim)
    ensures TileReady(exp, g, first, rows, heads, 0)
  {
    forall j: nat | j < |heads| && j % TILE_ROWS < rows
      ensures RowReady(exp, g, j / TILE_ROWS, first + j % TILE_ROWS, heads[j], TakenBefore(g, first + j % TILE_ROWS, 0))
    {
      var r, token := j / TILE_ROWS, first + j % TILE_ROWS;
      ResetRepresents(exp, 1, VisibleScores(g, r, token), VisibleSeen(g, token), g.headDim);
    }
  }

  /** Behind the last block, and behind the last key any row may see, everything visible has been taken in. */
  lemma AllTaken(g: Group, first: nat, rows: nat, block: nat, token: nat)
    requires IsTile(g, first, rows) && first <= token < first + rows
    requires g.BlockStart(block) >= g.KvLen() || g.BlockStart(block) > g.Position(first + rows - 1)
    ensures TakenBefore(g, token, block) == g.Position(token) + 1
  {
    hide Group.BlockStart;
  }

  lemma BlocksReach(g: Group, blocks: nat, block: nat)
    requires g.Valid() && blocks == (g.KvLen() + g.blockSize - 1) / g.blockSize
    ensures block < blocks ==> g.BlockStart(block) < g.KvLen()
    ensures g.BlockStart(blocks) >= g.KvLen()
  {
    var x := g.KvLen() + g.blockSize - 1;
    DivMod(x, g.blockSize);
    if block < blocks {
      NextMultiple(block, g.blockSize);
      MulMonotone(block + 1, blocks, g.blockSize);
    }
  }

  /**
   `bmc_prefill_tile`: block after block until the rest is masked for every row; then every row of every
   query head is softmax attention to the keys its token may see.
   */
  method PrefillTile(exp: Exponential, g: Group, tile: nat) returns (out: seq<seq<real>>)
    requires exp.Lawful() && g.Valid()
    ensures tile * 64 >= g.Active() ==> out == []
    ensures tile * 64 < g.Active() ==> |out| == |g.queries| * 64
    ensures forall j: nat :: j < |out| && tile * TILE_ROWS + j % TILE_ROWS < g.Active() ==>
      out[j] == TileRow(exp, g, j / TILE_ROWS, tile * TILE_ROWS + j % TILE_ROWS)
  {
    var first := tile * TILE_ROWS;
    if first >= g.Active() {
      return [];
    }
    hide TileRow, RowReady, VisibleScores, VisibleSeen;
    var rows := Min(TILE_ROWS, g.Active() - first);
    var st := new State<Extended, real>(g.Heads(), g.headDim);
    TakeInBlocks(exp, g, st, first, rows);
    out := NormaliseTile(exp, g, st, first, rows);
  }

  method TakeInBlocks(exp: Exponential, g: Group, st: State<Extended, real>, first: nat, rows: nat)
    requires exp.Lawful() && IsTile(g, first, rows)
    requires st.Shaped() && st.heads == g.Heads() && st.headDim == g.headDim
    modifies st.maximum, st.sum, st.output
    ensures forall j: nat :: j < st.heads && j % TILE_ROWS < rows ==>
      RowReady(exp, g, j / TILE_ROWS, first + j % TILE_ROWS, st.HeadAt(j), g.Position(first + j % TILE_ROWS) + 1)
  {
    st.Reset(Exact(exp, 1));
    ReadyAtStart(exp, g, first, rows, st.AllHeads());
    var blocks := (g.KvLen() + g.blockSize - 1) / g.blockSize;
    var maxPosition := g.Position(first + rows - 1);
    var block: nat := 0;
    hide TileReady, RowReady, RowStep, RowScores, SeenBlock, Group.BlockStart, Group.TokensIn;
    while block < blocks && g.BlockStart(block) <= maxPosition
      invariant block <= blocks && TileReady(exp, g, first, rows, st.AllHeads(), block)
      decreases blocks - block
    {
      BlocksReach(g, blocks, block);
      ghost var before := st.AllHeads();
      ProcessBlock(exp, g, st, first, rows, block);
      ReadyNext(exp, g, first, rows, block, before, st.AllHeads());
      block := block + 1;
    }
    BlocksReach(g, blocks, block);
    AllReady(exp, g, first, rows, st.AllHeads(), block);
  }

  lemma AllReady(exp: Exponential, g: Group, first: nat, rows: nat, heads: seq<HeadState<Extended, real>>, block: nat)
    requires IsTile(g, first, rows) && TileReady(exp, g, first, rows, heads, block)
    requires g.BlockStart(block) >= g.KvLen() || g.BlockStart(block) > g.Position(first + rows - 1)
    ensures |heads| == g.Heads()
    ensures forall j: nat :: j < |heads| && j % TILE_ROWS < rows ==>
      RowReady(exp, g, j / TILE_ROWS, first + j % TILE_ROWS, heads[j], g.Position(first + j % TILE_ROWS) + 1)
  {
    hide RowReady, TakenBefore, Group.BlockStart;
    forall j: nat | j < |heads| && j % TILE_ROWS < rows
      ensures TakenBefore(g, first + j % TILE_ROWS, block) == g.Position(first + j % TILE_ROWS) + 1
    {
      AllTaken(g, first, rows, block, first + j % TILE_ROWS);
    }
  }

  method NormaliseTile(exp: Exponential, g: Group, st: State<Extended, real>, first: nat, rows: nat) returns (out: seq<seq<real>>)
    requires exp.Lawful() && IsTile(g, first, rows)
    requires st.Shaped() && st.heads == g.Heads() && st.headDim == g.headDim
    requires forall j: nat :: j < st.heads && j % TILE_ROWS < rows ==>
      RowReady(exp, g, j / TILE_ROWS, first + j % TILE_ROWS, st.HeadAt(j), g.Position(first + j % TILE_ROWS) + 1)
    ensures |out| == g.Heads()
    ensures forall j: nat :: j < |out| && j % TILE_ROWS < rows ==>
      out[j] == TileRow(exp, g, j / TILE_ROWS, first + j % TILE_ROWS)
  {
    hide RowReady, TileRow;
    out := [];
    for j := 0 to g.Heads()
      invariant |out| == j
      invariant forall i: nat :: i < j && i % TILE_ROWS < rows ==>
        out[i] == TileRow(exp, g, i / TILE_ROWS, first + i % TILE_ROWS)
    {
      var row: seq<real> := [];
      if j % TILE_ROWS < rows {
        row := NormaliseRow(exp, g, st, j, j / TILE_ROWS, first + j % TILE_ROWS);
      }
      out := out + [row];
    }
  }
}
