/**
 Prefill attention is causal softmax attention, as far as no row of values spills into the next
 (`csrc/ops/prefill_attention.cpp`, `csrc/ops/attention/bmc/bmc_prefill_avx512.cpp`).
 */
module CausalPrefill {
  import opened Results
  import opened Indexing
  import opened Reals
  import opened Exponentials
  import opened DecodeAttention
  import opened OnlineSoftmax
  import opened PrefillValues
  import opened PrefillTiles
  import PrefillAttention

  function ScoresTo(query: seq<int>, keys: seq<seq<int>>, headDim: nat, factor: int, count: nat): (scores: seq<int>)
    requires |query| == headDim && RowsOf(keys, headDim) && count <= |keys|
    ensures |scores| == count
  {
    seq(count, u requires 0 <= u < count => Dot(query, keys[u], headDim) * factor)
  }

  /** The first `count` rows of values that lie one row after the other. */
  function RowsTo(values: seq<int>, total: nat, headDim: nat, count: nat): (rows: seq<seq<int>>)
    requires |values| == RowStart(total, headDim) && count <= total
    ensures |rows| == count && RowsOf(rows, headDim)
  {
    seq(count, u requires 0 <= u < count =>
      RowsFollow(u, total, headDim);
      seq(headDim, d requires 0 <= d < headDim => values[u * headDim + d]))
  }

  /** Softmax attention of one query row to the first `count` keys, over values that lie one row after the other. */
  function AttentionOver(exp: Exponential, query: seq<int>, keys: seq<seq<int>>, values: seq<int>, headDim: nat,
                         factor: int, count: nat): (row: seq<real>)
    requires |query| == headDim && RowsOf(keys, headDim) && |values| == RowStart(|keys|, headDim) && count <= |keys|
    ensures |row| == headDim
  {
    var scores, rows := ScoresTo(query, keys, headDim, factor, count), RowsTo(values, |keys|, headDim, count);
    seq(headDim, d requires 0 <= d < headDim => Attention(exp, scores, rows, headDim, d))
  }

  /** Softmax attention of a query token to the keys up to its own place, over the values in memory. */
  function CausalRow(exp: Exponential, g: Group, r: nat, token: nat): (row: seq<real>)
    requires g.Valid() && r < |g.queries| && token < g.Active()
    ensures |row| == g.headDim
  {
    AttentionOver(exp, g.queries[r][token], g.keys, g.values, g.headDim, g.factor,
                  token + 1 + (|g.keys| - Min(|g.queries[r]|, |g.keys|)))
  }

  /** The values in memory by rows. */
  lemma CausalRowIs(exp: Exponential, g: Group, r: nat, token: nat)
    requires g.Valid() && r < |g.queries| && token < g.Active()
    ensures CausalRow(exp, g, r, token)
            == seq(g.headDim, d requires 0 <= d < g.headDim =>
                 Attention(exp, VisibleScores(g, r, token), g.ValueRows()[..g.Position(token) + 1], g.headDim, d))
  {
    var count := token + 1 + (|g.keys| - Min(|g.queries[r]|, |g.keys|));
    ScoresAreVisible(g, r, token, count);
    RowsAreValues(g, count);
    hide Attention, ScoresTo, RowsTo, VisibleScores, Group.ValueRows;
  }

  lemma ScoresAreVisible(g: Group, r: nat, token: nat, count: nat)
    requires g.Valid() && r < |g.queries| && token < g.Active()
    requires count == token + 1 + (|g.keys| - Min(|g.queries[r]|, |g.keys|))
    ensures count <= |g.keys| && |g.queries[r][token]| == g.headDim
    ensures ScoresTo(g.queries[r][token], g.keys, g.headDim, g.factor, count) == VisibleScores(g, r, token)
  {
  }

  lemma RowsAreValues(g: Group, count: nat)
    requires g.Valid() && count <= |g.keys|
    ensures RowsTo(g.values, |g.keys|, g.headDim, count) == g.ValueRows()[..count]
  {
    var rows := RowsTo(g.values, |g.keys|, g.headDim, count);
    forall u | 0 <= u < count
      ensures rows[u] == g.ValueRow(u)
    {
      RowsFollow(u, |g.keys|, g.headDim);
    }
  }

  /** No row of the last block spills into another. */
  predicate ValuesIntact(kvLen: nat, blockSize: nat, headDim: nat)
    requires blockSize > 0
  {
    headDim % 16 == 0 || headDim > N_MAX || kvLen % blockSize <= 1
  }

  /** The same in terms of the length alone: nothing spills in a full last block, or one of a single token. */
  predicate NothingSpills(length: nat, headDim: nat) {
    headDim % 16 == 0 || headDim > 64 || (if length <= 64 then length % 16 == 0 || length == 1 else length % 64 <= 1)
  }

  lemma IntactIff(length: nat, headDim: nat)
    requires length > 0
    ensures 0 < PrefillAttention.ChooseBlockSize(length)
    ensures NothingSpills(length, headDim) <==> ValuesIntact(length, PrefillAttention.ChooseBlockSize(length), headDim)
  {
    PrefillAttention.BlocksCover(length);
    if length <= 64 && length < PrefillAttention.ChooseBlockSize(length) {
      assert length % PrefillAttention.ChooseBlockSize(length) == length;
    }
  }

  lemma SpillsOnly(headDim: nat)
    requires headDim > 0
    ensures Spill(headDim) == 0 <==> headDim % 16 == 0 || headDim > N_MAX
  {
  }

  /** A token behind the first of a block that is not full. */
  lemma SpiltToken(g: Group, t: nat)
    requires g.Valid() && t < g.KvLen()
    ensures g.TokensIn(Quotient(t, g.blockSize)) < g.blockSize && Remainder(t, g.blockSize) > 0 ==> g.KvLen() % g.blockSize > 1
  {
    var block := Quotient(t, g.blockSize);
    DivMod(t, g.blockSize);
    if g.TokensIn(block) < g.blockSize {
      var rest: nat := g.KvLen() - g.BlockStart(block);
      JoinSplit(block, rest, g.blockSize);
    }
  }

  lemma SeenIsTrue(g: Group)
    requires g.Valid() && ValuesIntact(g.KvLen(), g.blockSize, g.headDim)
    ensures g.SeenRows() == g.ValueRows()
  {
    SpillsOnly(g.headDim);
    forall t | 0 <= t < g.KvLen()
      ensures g.SeenRow(t) == g.ValueRow(t)
    {
      SpiltToken(g, t);
      hide Group.ValueRow, Spill, Group.TokensIn, Quotient, Remainder;
      assert g.SeenRow(t) == g.ValueRow(t);
    }
  }

  /** Where nothing spills, a tile leaves causal attention. */
  lemma TileIsCausal(exp: Exponential, g: Group, r: nat, token: nat)
    requires g.Valid() && ValuesIntact(g.KvLen(), g.blockSize, g.headDim) && r < |g.queries| && token < g.Active()
    ensures TileRow(exp, g, r, token) == CausalRow(exp, g, r, token)
  {
    SeenIsTrue(g);
    CausalRowIs(exp, g, r, token);
    hide CausalRow, Attention, VisibleScores, Group.SeenRows, Group.ValueRows;
  }

  // ----- where values spill -----

  /** Values that are zero but for the first element of token `t0`. */
  function OneValue(g: Group, t0: nat): (values: seq<int>) {
    seq(RowStart(g.KvLen(), g.headDim), x => if x == RowStart(t0, g.headDim) then 1 else 0)
  }

  lemma OneValueAt(g: Group, t0: nat, t: nat)
    requires g.Valid() && g.values == OneValue(g, t0) && t < g.KvLen()
    ensures g.ValueRow(t)[0] == if t == t0 then 1 else 0
  {
    RowsFollow(t, g.KvLen(), g.headDim);
    if t < t0 {
      RowsFollow(t, t0, g.headDim);
    } else if t0 < t {
      RowsFollow(t0, t, g.headDim);
    }
  }

  lemma {:induction false} NothingSeen(exp: Exponential, scores: seq<int>, column: seq<real>, n: nat)
    requires n <= |scores| == |column| && forall t :: 0 <= t < |column| ==> column[t] == 0.0
    ensures Sum(ExpTerms(exp, scores, column), n) == 0.0
  {
    if n > 0 {
      NothingSeen(exp, scores, column, n - 1);
    }
  }

  lemma {:induction false} OneSeen(exp: Exponential, scores: seq<int>, column: seq<real>, t0: nat, n: nat)
    requires exp.Lawful() && n <= |scores| == |column|
    requires forall t :: 0 <= t < |column| ==> column[t] == if t == t0 then 1.0 else 0.0
    ensures Sum(ExpTerms(exp, scores, column), n) == if t0 < n then exp.At(scores[t0]) else 0.0
  {
    if n > 0 {
      OneSeen(exp, scores, column, t0, n - 1);
    }
  }

  lemma SharesDiffer(a: real, b: real)
    requires a > 0.0 && b > 0.0
    ensures Share(a, b) != Share(0.0, b)
  {
    assert (a / b) * b == a;
  }

  /** Attention that gives a value its weight differs from attention that does not see it. */
  lemma AttentionsDiffer(exp: Exponential, scores: seq<int>, values: seq<seq<int>>, seen: seq<seq<int>>, dims: nat, t0: nat)
    requires exp.Lawful() && |scores| == |values| == |seen| && RowsOf(values, dims) && RowsOf(seen, dims)
    requires dims > 0 && t0 < |scores|
    requires forall t :: 0 <= t < |scores| ==> values[t][0] == (if t == t0 then 1 else 0) && seen[t][0] == 0
    ensures Attention(exp, scores, values, dims, 0) != Attention(exp, scores, seen, dims, 0)
  {
    var n := |scores|;
    NothingSeen(exp, scores, Column(seen, dims, 0), n);
    OneSeen(exp, scores, Column(values, dims, 0), t0, n);
    ExpSumPositive(exp, scores, n);
    assert exp.At(scores[t0]) > 0.0;
    hide Sum, ExpTerms, Column, Ones, Share;
    SharesDiffer(exp.At(scores[t0]), Sum(ExpTerms(exp, scores, Ones(n)), n));
  }

  /** The second token of the last block, if it is not full. */
  function SecondOfLast(g: Group): nat
    requires g.blockSize > 0
  {
    g.KvLen() / g.blockSize * g.blockSize + 1
  }

  /** The second token of the last block, when that block is not full and values spill. */
  lemma SpiltFirst(g: Group) returns (t0: nat)
    requires g.Valid() && !ValuesIntact(g.KvLen(), g.blockSize, g.headDim)
    ensures t0 == SecondOfLast(g) < g.KvLen() && Spill(g.headDim) > 0
    ensures g.TokensIn(Quotient(t0, g.blockSize)) < g.blockSize && Remainder(t0, g.blockSize) > 0
  {
    SpillsOnly(g.headDim);
    var block := g.KvLen() / g.blockSize;
    DivMod(g.KvLen(), g.blockSize);
    t0 := block * g.blockSize + 1;
    JoinSplit(block, 1, g.blockSize);
  }

  /** Some values on which the last token's row is not causal attention. */
  lemma WrongRow(exp: Exponential, g: Group) returns (w: Group)
    requires exp.Lawful() && g.Valid() && !ValuesIntact(g.KvLen(), g.blockSize, g.headDim)
    requires g.queries != [] && g.QLen() > 0
    ensures w == g.(values := OneValue(g, SecondOfLast(g))) && w.Valid() && g.Active() > 0
    ensures TileRow(exp, w, 0, g.Active() - 1) != CausalRow(exp, w, 0, g.Active() - 1)
  {
    var t0 := SpiltFirst(g);
    w := g.(values := OneValue(g, t0));
    var token := g.Active() - 1;
    var values, seen := w.ValueRows()[..w.Position(token) + 1], VisibleSeen(w, token);
    forall t | 0 <= t < g.KvLen()
      ensures values[t][0] == (if t == t0 then 1 else 0) && seen[t][0] == 0
    {
      hide Spill, Group.TokensIn, Quotient, Remainder;
      OneValueAt(w, t0, t);
    }
    CausalRowIs(exp, w, 0, token);
    hide CausalRow, SecondOfLast, Group.Valid, Spill, Group.TokensIn, Group.ValueRows, Group.SeenRows, VisibleSeen, VisibleScores, Attention;
    AttentionsDiffer(exp, VisibleScores(w, 0, token), values, seen, g.headDim, t0);
    assert TileRow(exp, w, 0, token)[0] != CausalRow(exp, w, 0, token)[0];
  }

  /** Two tokens of a head of 8 elements: the second value counts for nothing. */
  lemma SecondValueLost(exp: Exponential)
    requires exp.Lawful()
    ensures var zeros := seq(8, _ => 0);
            var g := Group([[zeros, zeros]], [zeros, zeros], seq(16, x => if x == 8 then 1 else 0), 8, 16, 1);
            g.Valid() && TileRow(exp, g, 0, 1) != CausalRow(exp, g, 0, 1)
  {
    var zeros := seq(8, _ => 0);
    var g := Group([[zeros, zeros]], [zeros, zeros], seq(16, x => if x == 8 then 1 else 0), 8, 16, 1);
    assert RowStart(2, 8) == 16 && RowStart(1, 8) == 8;
    var w := WrongRow(exp, g);
    assert w.values == g.values;
  }

  /** All rows of a group are causal attention. */
  ghost predicate AllCausal(exp: Exponential, g: Group)
    requires g.Valid()
  {
    forall r, token :: 0 <= r < |g.queries| && 0 <= token < g.Active() ==> TileRow(exp, g, r, token) == CausalRow(exp, g, r, token)
  }

  /**
   For given queries and keys, the tiles leave causal softmax attention over all possible values exactly
   when the head dimension is a multiple of 16 or more than 64, or the last block is full or has one token.
   */
  lemma KernelIsCausal(exp: Exponential, g: Group)
    requires exp.Lawful() && g.Valid() && g.queries != [] && g.QLen() > 0
    ensures (forall w: Group :: w == g.(values := w.values) && w.Valid() ==> AllCausal(exp, w))
            <==> ValuesIntact(g.KvLen(), g.blockSize, g.headDim)
  {
    if ValuesIntact(g.KvLen(), g.blockSize, g.headDim) {
      forall w: Group | w == g.(values := w.values) && w.Valid()
        ensures AllCausal(exp, w)
      {
        forall r, token | 0 <= r < |w.queries| && 0 <= token < w.Active()
          ensures TileRow(exp, w, r, token) == CausalRow(exp, w, r, token)
        {
          TileIsCausal(exp, w, r, token);
        }
      }
    } else {
      var w := WrongRow(exp, g);
      assert !AllCausal(exp, w);
    }
  }

  // ----- the whole op -----

  /** A call with its operands: query and key rows, and values as they lie in memory, of the real tokens. */
  datatype Batch = Batch(s: PrefillAttention.Call, queries: seq<seq<seq<seq<int>>>>, keys: seq<seq<seq<seq<int>>>>,
                         values: seq<seq<seq<int>>>, headDim: nat, factor: int)
  {
    ghost predicate Valid() {
      && s.Valid() && headDim > 0 && |queries| == |keys| == |values| == s.batchSize
      && forall b: nat :: b < s.batchSize ==> ValidSequence(b)
    }

    ghost predicate ValidSequence(b: nat)
      requires s.Valid() && b < s.batchSize && |queries| == |keys| == |values| == s.batchSize
    {
      && |queries[b]| == s.numQHeads && |keys[b]| == |values[b]| == s.numKvHeads
      && (forall h :: 0 <= h < |queries[b]| ==> |queries[b][h]| == s.QLen(b) && RowsOf(queries[b][h], headDim))
      && forall h :: 0 <= h < |keys[b]| ==>
           && |keys[b][h]| == s.QLen(b) && RowsOf(keys[b][h], headDim)
           && |values[b][h]| == RowStart(|keys[b][h]|, headDim)
    }

    predicate HasToken(b: nat, qHead: nat, token: int)
      requires s.Valid()
    {
      b < s.batchSize && qHead < s.numQHeads && 0 <= token < s.QLen(b)
    }

    /** The group of query heads that share a key/value head. */
    function GroupOf(b: nat, kvHead: nat): Group
      requires Valid() && b < s.batchSize && kvHead < s.numKvHeads
    {
      assert ValidSequence(b);
      HeadRange(this, kvHead);
      Group(queries[b][kvHead * s.Repetitions()..kvHead * s.Repetitions() + s.Repetitions()], keys[b][kvHead],
            values[b][kvHead], headDim, PrefillAttention.ChooseBlockSize(s.QLen(b)), factor)
    }

    function KvHeadOf(qHead: nat): nat
      requires s.Valid() && s.Repetitions() > 0
    {
      Quotient(qHead, s.Repetitions())
    }
  }

  lemma HeadRange(x: Batch, kvHead: nat)
    requires x.s.Valid() && kvHead < x.s.numKvHeads
    ensures 0 <= kvHead * x.s.Repetitions() && kvHead * x.s.Repetitions() + x.s.Repetitions() <= x.s.numQHeads
  {
    PrefillAttention.HeadsSplit(x.s);
    NonNegative(kvHead, x.s.Repetitions());
    NextMultiple(kvHead, x.s.Repetitions());
    MulMonotone(kvHead + 1, x.s.numKvHeads, x.s.Repetitions());
  }

  lemma HeadInGroup(x: Batch, qHead: nat)
    requires x.s.Valid() && qHead < x.s.numQHeads
    ensures x.s.Repetitions() > 0 && x.KvHeadOf(qHead) < x.s.numKvHeads
    ensures 0 <= Remainder(qHead, x.s.Repetitions()) < x.s.Repetitions()
    ensures qHead == x.KvHeadOf(qHead) * x.s.Repetitions() + Remainder(qHead, x.s.Repetitions())
  {
    PrefillAttention.HeadsSplit(x.s);
    SplitBound(qHead, x.s.numKvHeads, x.s.Repetitions());
  }

  lemma GroupIsValid(x: Batch, b: nat, kvHead: nat)
    requires x.Valid() && b < x.s.batchSize && kvHead < x.s.numKvHeads && x.s.QLen(b) > 0 && x.s.Repetitions() > 0
    ensures var g := x.GroupOf(b, kvHead);
            && g.Valid() && |g.queries| == x.s.Repetitions() && g.QLen() == g.KvLen() == g.Active() == x.s.QLen(b)
  {
    assert x.ValidSequence(b);
    HeadRange(x, kvHead);
    PrefillAttention.BlocksCover(x.s.QLen(b));
  }

  /** The row a tile of the group of a query head leaves for a token. */
  function RowOf(exp: Exponential, x: Batch, b: nat, qHead: nat, token: nat): (row: seq<real>)
    requires x.Valid()
    ensures x.HasToken(b, qHead, token) ==> |row| == x.headDim
  {
    if x.HasToken(b, qHead, token) then
      HeadInGroup(x, qHead);
      GroupIsValid(x, b, x.KvHeadOf(qHead));
      TileRow(exp, x.GroupOf(b, x.KvHeadOf(qHead)), Remainder(qHead, x.s.Repetitions()), token)
    else []
  }

  /**
   Causal softmax attention by plain indices: token `t` of query head `h` of sequence `b` against tokens
   0 to `t` of the key/value head its group shares.
   */
  function PlainRow(exp: Exponential, x: Batch, b: nat, h: nat, t: nat): (row: seq<real>)
    requires x.Valid() && x.HasToken(b, h, t)
  {
    PlainIndices(x, b, h, t);
    var kv := h / (x.s.numQHeads / x.s.numKvHeads);
    AttentionOver(exp, x.queries[b][h][t], x.keys[b][kv], x.values[b][kv], x.headDim, x.factor, t + 1)
  }

  lemma PlainIndices(x: Batch, b: nat, h: nat, t: nat)
    requires x.Valid() && x.HasToken(b, h, t)
    ensures x.s.numQHeads / x.s.numKvHeads > 0
    ensures 0 <= h / (x.s.numQHeads / x.s.numKvHeads) < x.s.numKvHeads
    ensures |x.queries[b]| == x.s.numQHeads && |x.keys[b]| == |x.values[b]| == x.s.numKvHeads
    ensures |x.queries[b][h]| == x.s.QLen(b) && |x.queries[b][h][t]| == x.headDim
    ensures var kv := h / (x.s.numQHeads / x.s.numKvHeads);
            && |x.keys[b][kv]| == x.s.QLen(b) && RowsOf(x.keys[b][kv], x.headDim)
            && |x.values[b][kv]| == RowStart(x.s.QLen(b), x.headDim)
  {
    assert x.ValidSequence(b);
    HeadInGroup(x, h);
  }

  /** The query row of a group's head is that head's own. */
  lemma GroupQuery(x: Batch, b: nat, h: nat)
    requires x.Valid() && b < x.s.batchSize && h < x.s.numQHeads
    ensures x.s.Repetitions() > 0 && x.KvHeadOf(h) == h / (x.s.numQHeads / x.s.numKvHeads) < x.s.numKvHeads
    ensures var g := x.GroupOf(b, x.KvHeadOf(h));
            && 0 <= Remainder(h, x.s.Repetitions()) < |g.queries| && h < |x.queries[b]|
            && g.queries[Remainder(h, x.s.Repetitions())] == x.queries[b][h]
  {
    assert x.ValidSequence(b);
    HeadInGroup(x, h);
    HeadRange(x, x.KvHeadOf(h));
  }

  lemma CausalRowIsPlain(exp: Exponential, x: Batch, b: nat, h: nat, t: nat, g: Group, r: nat, kv: nat)
    requires x.Valid() && x.HasToken(b, h, t) && g.Valid() && r < |g.queries| && t < g.Active()
    requires x.s.numQHeads / x.s.numKvHeads > 0 && kv == h / (x.s.numQHeads / x.s.numKvHeads) < x.s.numKvHeads
    requires |x.queries[b]| == x.s.numQHeads && |x.keys[b]| == |x.values[b]| == x.s.numKvHeads
    requires g.queries[r] == x.queries[b][h] && g.keys == x.keys[b][kv] && g.values == x.values[b][kv]
    requires g.headDim == x.headDim && g.factor == x.factor && |g.queries[r]| == |g.keys| == x.s.QLen(b)
    ensures CausalRow(exp, g, r, t) == PlainRow(exp, x, b, h, t)
  {
    hide AttentionOver;
    PlainIndices(x, b, h, t);
  }

  /** Where nothing spills, the row of a real token is causal softmax attention. */
  lemma RowIsPlain(exp: Exponential, x: Batch, b: nat, h: nat, t: nat)
    requires x.Valid() && x.HasToken(b, h, t)
    requires NothingSpills(x.s.QLen(b), x.headDim)
    ensures RowOf(exp, x, b, h, t) == PlainRow(exp, x, b, h, t)
  {
    IntactIff(x.s.QLen(b), x.headDim);
    HeadInGroup(x, h);
    GroupIsValid(x, b, x.KvHeadOf(h));
    GroupQuery(x, b, h);
    assert x.ValidSequence(b);
    var g, r := x.GroupOf(b, x.KvHeadOf(h)), Remainder(h, x.s.Repetitions());
    TileIsCausal(exp, g, r, t);
    CausalRowIsPlain(exp, x, b, h, t, g, r, x.KvHeadOf(h));
  }

  /** Keys and values of later tokens do not matter, whatever the shape. */
  lemma LaterTokensDoNotMatter(exp: Exponential, x: Batch, y: Batch, b: nat, h: nat, t: nat, kv: nat)
    requires x.Valid() && y.Valid() && x.s == y.s && x.headDim == y.headDim && x.factor == y.factor && x.HasToken(b, h, t)
    requires x.s.numQHeads / x.s.numKvHeads > 0 && kv == h / (x.s.numQHeads / x.s.numKvHeads) < x.s.numKvHeads
    requires |x.queries[b]| == |y.queries[b]| == x.s.numQHeads && |x.keys[b]| == |y.keys[b]| == x.s.numKvHeads
    requires |x.values[b]| == |y.values[b]| == x.s.numKvHeads && |x.keys[b][kv]| == |y.keys[b][kv]| == x.s.QLen(b)
    requires |x.values[b][kv]| == |y.values[b][kv]| == RowStart(x.s.QLen(b), x.headDim)
    requires x.queries[b][h] == y.queries[b][h]
    requires forall u :: 0 <= u <= t ==> x.keys[b][kv][u] == y.keys[b][kv][u]
    requires forall e :: 0 <= e < RowStart(t + 1, x.headDim) && e < |x.values[b][kv]| ==> x.values[b][kv][e] == y.values[b][kv][e]
    ensures RowOf(exp, x, b, h, t) == RowOf(exp, y, b, h, t)
  {
    HeadInGroup(x, h);
    GroupIsValid(x, b, kv);
    GroupIsValid(y, b, kv);
    GroupQuery(x, b, h);
    GroupQuery(y, b, h);
    SeenAlike(exp, x.GroupOf(b, kv), y.GroupOf(b, kv), Remainder(h, x.s.Repetitions()), t);
  }

  lemma SeenAlike(exp: Exponential, g: Group, g': Group, r: nat, token: nat)
    requires g.Valid() && g'.Valid() && r < |g.queries| == |g'.queries| && token < g.Active() == g'.Active()
    requires g.QLen() == g'.QLen() == g.KvLen() == g'.KvLen()
    requires g.headDim == g'.headDim && g.blockSize == g'.blockSize && g.factor == g'.factor
    requires g.queries[r] == g'.queries[r] && forall u :: 0 <= u <= token ==> g.keys[u] == g'.keys[u]
    requires forall e :: 0 <= e < RowStart(token + 1, g.headDim) && e < |g.values| ==> g.values[e] == g'.values[e]
    ensures TileRow(exp, g, r, token) == TileRow(exp, g', r, token)
  {
    forall u | 0 <= u <= token
      ensures g.SeenRow(u) == g'.SeenRow(u)
    {
      RowsOrdered(u + 1, token + 1, g.headDim);
      RowsFollow(u, g.KvLen(), g.headDim);
      assert g.ValueRow(u) == g'.ValueRow(u);
    }
    assert VisibleSeen(g, token) == VisibleSeen(g', token);
    assert VisibleScores(g, r, token) == VisibleScores(g', r, token);
    hide Attention, VisibleScores, VisibleSeen;
  }

  /** The output row of a query head at a padded position, with lengths and offsets as they were passed in. */
  ghost predicate RowIsRight(exp: Exponential, x: Batch, out: seq<seq<real>>, b: nat, h: nat, p: nat)
    requires x.Valid() && b < x.s.batchSize && h < x.s.numQHeads && p < x.s.qPadded
  {
    var offset := if x.s.qOffsets == [] then 0 else x.s.qOffsets[b];
    var length := if x.s.qOffsets == [] then x.s.qPadded else x.s.qLens[b];
    var row := (b * x.s.numQHeads + h) * x.s.qPadded + p;
    && 0 <= row < |out|
    && if offset <= p < offset + length then
         && x.HasToken(b, h, p - offset)
         && out[row] == RowOf(exp, x, b, h, p - offset)
         && (NothingSpills(length, x.headDim) ==> out[row] == PlainRow(exp, x, b, h, p - offset))
       else
         out[row] == seq(x.headDim, _ => 0.0)
  }

  /**
   The op over a batch: real tokens get causal softmax attention where nothing spills, and the rows their
   tiles leave otherwise; padding gets zeros.
   */
  method Prefill(exp: Exponential, x: Batch) returns (out: array<seq<real>>)
    requires exp.Lawful() && x.Valid()
    ensures out.Length == x.s.batchSize * x.s.numQHeads * x.s.qPadded
    ensures forall b: nat, h: nat, p: nat :: b < x.s.batchSize && h < x.s.numQHeads && p < x.s.qPadded ==>
      RowIsRight(exp, x, out[..], b, h, p)
  {
    hide RowOf, PlainRow, Batch.ValidSequence, NothingSpills;
    var kernel := PrefillAttention.Kernel((b: nat, h: nat, token: nat) => RowOf(exp, x, b, h, token));
    var r := PrefillAttention.Prefill(x.s, kernel, seq(x.headDim, _ => 0.0));
    out := r.value;
    forall b: nat, h: nat, p: nat | b < x.s.batchSize && h < x.s.numQHeads && p < x.s.qPadded
      ensures RowIsRight(exp, x, out[..], b, h, p)
    {
      assert x.s.HasRow(b, h, p);
      PrefillAttention.RowInside(x.s, b, h, p);
      if PrefillAttention.IsReal(x.s, b, p) {
        if NothingSpills(x.s.QLen(b), x.headDim) {
          RowIsPlain(exp, x, b, h, p - x.s.QOffset(b));
        }
      }
    }
  }
}
