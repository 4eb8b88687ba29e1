/**
 The query-key and probability-value products of grouped attention, over both key/value layouts and
 in all loop orders (`benchmarks/cpu/attention_bmm/attention_bmm_loop_layout.cpp`).
 */
module AttentionGemms {
  import opened Indexing
  import opened LoopOrders

  datatype Operation = QK | PV
  datatype KvLayout = HeadMajor | TokenMajor

  /** Shapes of one workload. */
  datatype Dims = Dims(batchSize: nat, numQHeads: nat, numKvHeads: nat, queryLen: nat, kvLen: nat, headDim: nat) {

    ghost predicate Valid() {
      numKvHeads > 0 && numQHeads > 0 && numQHeads % numKvHeads == 0
    }

    function KvSize(): nat {
      batchSize * numKvHeads * kvLen * headDim
    }

    function HeadRow(batch: nat, head: nat, token: nat): nat {
      (batch * numKvHeads + head) * kvLen + token
    }

    function TokenRow(batch: nat, head: nat, token: nat): nat {
      (batch * kvLen + token) * numKvHeads + head
    }

    /** Where an element is in a pool of the given layout. */
    function KvIndex(layout: KvLayout, batch: nat, head: nat, token: nat, dim: nat): nat {
      (if layout == HeadMajor then HeadRow(batch, head, token) else TokenRow(batch, head, token)) * headDim + dim
    }

    predicate InPool(batch: nat, head: nat, token: nat, dim: nat) {
      batch < batchSize && head < numKvHeads && token < kvLen && dim < headDim
    }
  }

  lemma SwapInner(a: nat, b: nat, c: nat, d: nat)
    ensures a * b * c * d == (a * c) * b * d
  {
    assert a * b * c == (a * c) * b;
  }

  lemma KvIndexInside(s: Dims, layout: KvLayout, batch: nat, head: nat, token: nat, dim: nat)
    requires s.InPool(batch, head, token, dim)
    ensures s.KvIndex(layout, batch, head, token, dim) < s.KvSize()
  {
    if layout == HeadMajor {
      JoinBound(batch, head, s.batchSize, s.numKvHeads);
      JoinBound(batch * s.numKvHeads + head, token, s.batchSize * s.numKvHeads, s.kvLen);
      JoinBound(s.HeadRow(batch, head, token), dim, s.batchSize * s.numKvHeads * s.kvLen, s.headDim);
    } else {
      JoinBound(batch, token, s.batchSize, s.kvLen);
      JoinBound(batch * s.kvLen + token, head, s.batchSize * s.kvLen, s.numKvHeads);
      JoinBound(s.TokenRow(batch, head, token), dim, s.batchSize * s.kvLen * s.numKvHeads, s.headDim);
      SwapInner(s.batchSize, s.numKvHeads, s.kvLen, s.headDim);
    }
  }

  /** No two elements share a place in the token-major pool. */
  lemma TokenIndexInjective(s: Dims, batch: nat, head: nat, token: nat, dim: nat,
                            batch': nat, head': nat, token': nat, dim': nat)
    requires s.InPool(batch, head, token, dim) && s.InPool(batch', head', token', dim')
    requires s.KvIndex(TokenMajor, batch, head, token, dim) == s.KvIndex(TokenMajor, batch', head', token', dim')
    ensures batch == batch' && head == head' && token == token' && dim == dim'
  {
    JoinInjective(s.TokenRow(batch, head, token), dim, s.TokenRow(batch', head', token'), dim', s.headDim);
    JoinInjective3(batch, token, head, batch', token', head', s.kvLen, s.numKvHeads);
  }

  /** Nor in the head-major pool. */
  lemma HeadIndexInjective(s: Dims, batch: nat, head: nat, token: nat, dim: nat,
                           batch': nat, head': nat, token': nat, dim': nat)
    requires s.InPool(batch, head, token, dim) && s.InPool(batch', head', token', dim')
    requires s.KvIndex(HeadMajor, batch, head, token, dim) == s.KvIndex(HeadMajor, batch', head', token', dim')
    ensures batch == batch' && head == head' && token == token' && dim == dim'
  {
    JoinInjective(s.HeadRow(batch, head, token), dim, s.HeadRow(batch', head', token'), dim', s.headDim);
    JoinInjective3(batch, head, token, batch', head', token', s.numKvHeads, s.kvLen);
  }

  // ----- copying the head-major pool into the token-major one -----

  /** The two pools agree on every element whose head-major index is below `n`. */
  ghost predicate Copied<X>(s: Dims, headMajor: seq<X>, tokenMajor: seq<X>, n: nat) {
    && |headMajor| == |tokenMajor| == s.KvSize()
    && forall batch, head, token, dim ::
         s.InPool(batch, head, token, dim) && s.KvIndex(HeadMajor, batch, head, token, dim) < n ==>
           && s.KvIndex(HeadMajor, batch, head, token, dim) < s.KvSize()
           && s.KvIndex(TokenMajor, batch, head, token, dim) < s.KvSize()
           && tokenMajor[s.KvIndex(TokenMajor, batch, head, token, dim)]
              == headMajor[s.KvIndex(HeadMajor, batch, head, token, dim)]
  }

  lemma CopyNext<X>(s: Dims, headMajor: seq<X>, tokenMajor: seq<X>, batch: nat, head: nat, token: nat, dim: nat,
                    n: nat, next: nat)
    requires Copied(s, headMajor, tokenMajor, n) && s.InPool(batch, head, token, dim)
    requires n == s.KvIndex(HeadMajor, batch, head, token, dim) && next == n + 1
    ensures n < s.KvSize() && s.KvIndex(TokenMajor, batch, head, token, dim) < s.KvSize()
    ensures Copied(s, headMajor, tokenMajor[s.KvIndex(TokenMajor, batch, head, token, dim) := headMajor[n]], next)
  {
    KvIndexInside(s, HeadMajor, batch, head, token, dim);
    KvIndexInside(s, TokenMajor, batch, head, token, dim);
    var at := s.KvIndex(TokenMajor, batch, head, token, dim);
    var after := tokenMajor[at := headMajor[n]];
    forall b, h, t, d | s.InPool(b, h, t, d) && s.KvIndex(HeadMajor, b, h, t, d) < next
      ensures s.KvIndex(HeadMajor, b, h, t, d) < s.KvSize() && s.KvIndex(TokenMajor, b, h, t, d) < s.KvSize()
      ensures after[s.KvIndex(TokenMajor, b, h, t, d)] == headMajor[s.KvIndex(HeadMajor, b, h, t, d)]
    {
      if s.KvIndex(HeadMajor, b, h, t, d) == n {
        HeadIndexInjective(s, batch, head, token, dim, b, h, t, d);
      } else if s.KvIndex(TokenMajor, b, h, t, d) == at {
        TokenIndexInjective(s, batch, head, token, dim, b, h, t, d);
      }
    }
  }

  /** The elements of one token. */
  method CopyRow<X>(s: Dims, headMajor: seq<X>, tokenMajor: array<X>, batch: nat, head: nat, token: nat, ghost n: nat)
    returns (ghost m: nat)
    requires batch < s.batchSize && head < s.numKvHeads && token < s.kvLen
    requires n == s.KvIndex(HeadMajor, batch, head, token, 0)
    requires Copied(s, headMajor, tokenMajor[..], n)
    modifies tokenMajor
    ensures m == s.KvIndex(HeadMajor, batch, head, token + 1, 0)
    ensures Copied(s, headMajor, tokenMajor[..], m)
  {
    m := n;
    for dim := 0 to s.headDim
      invariant m == s.KvIndex(HeadMajor, batch, head, token, dim)
      invariant Copied(s, headMajor, tokenMajor[..], m)
    {
      ghost var before := tokenMajor[..];
      CopyNext(s, headMajor, before, batch, head, token, dim, m, m + 1);
      var headIndex, tokenIndex :=
        s.KvIndex(HeadMajor, batch, head, token, dim), s.KvIndex(TokenMajor, batch, head, token, dim);
      tokenMajor[tokenIndex] := headMajor[headIndex];
      assert tokenMajor[..] == before[tokenIndex := headMajor[headIndex]];
      m := m + 1;
    }
    NextMultiple(s.HeadRow(batch, head, token), s.headDim);
  }

  ghost predicate PoolsAgree<X>(s: Dims, headMajor: seq<X>, tokenMajor: seq<X>) {
    && |headMajor| == |tokenMajor| == s.KvSize()
    && forall batch, head, token, dim :: s.InPool(batch, head, token, dim) ==>
         && s.KvIndex(HeadMajor, batch, head, token, dim) < s.KvSize()
         && s.KvIndex(TokenMajor, batch, head, token, dim) < s.KvSize()
         && tokenMajor[s.KvIndex(TokenMajor, batch, head, token, dim)]
            == headMajor[s.KvIndex(HeadMajor, batch, head, token, dim)]
  }

  /** The four nested loops that set up the token-major pool. */
  method CopyToTokenMajor<X(0)>(s: Dims, headMajor: seq<X>) returns (tokenMajor: array<X>)
    requires |headMajor| == s.KvSize()
    ensures fresh(tokenMajor) && PoolsAgree(s, headMajor, tokenMajor[..])
  {
    tokenMajor := new X[s.KvSize()];
    ghost var n: nat := 0;
    for batch := 0 to s.batchSize
      invariant n == s.KvIndex(HeadMajor, batch, 0, 0, 0)
      invariant Copied(s, headMajor, tokenMajor[..], n)
    {
      for head := 0 to s.numKvHeads
        invariant n == s.KvIndex(HeadMajor, batch, head, 0, 0)
        invariant Copied(s, headMajor, tokenMajor[..], n)
      {
        for token := 0 to s.kvLen
          invariant n == s.KvIndex(HeadMajor, batch, head, token, 0)
          invariant Copied(s, headMajor, tokenMajor[..], n)
        {
          n := CopyRow(s, headMajor, tokenMajor, batch, head, token, n);
        }
        NextMultiple(batch * s.numKvHeads + head, s.kvLen);
      }
      NextMultiple(batch, s.numKvHeads);
    }
    AllCopied(s, headMajor, tokenMajor[..], n);
  }

  lemma AllCopied<X>(s: Dims, headMajor: seq<X>, tokenMajor: seq<X>, n: nat)
    requires Copied(s, headMajor, tokenMajor, n) && n == s.KvIndex(HeadMajor, s.batchSize, 0, 0, 0)
    ensures PoolsAgree(s, headMajor, tokenMajor)
  {
    forall batch, head, token, dim | s.InPool(batch, head, token, dim)
      ensures s.KvIndex(HeadMajor, batch, head, token, dim) < n
    {
      KvIndexInside(s, HeadMajor, batch, head, token, dim);
    }
  }

  // ----- the product of one query head -----

  /** The operands of a workload; the two pools of keys agree, and so do those of values. */
  datatype Problem<!T> = Problem(scalars: Scalars<T>, dims: Dims, query: seq<T>, probability: seq<T>,
                                 keyHeadMajor: seq<T>, keyTokenMajor: seq<T>,
                                 valueHeadMajor: seq<T>, valueTokenMajor: seq<T>)
  {
    ghost predicate Valid() {
      && dims.Valid()
      && |query| == Heads() * (dims.queryLen * dims.headDim)
      && |probability| == Heads() * (dims.queryLen * dims.kvLen)
      && PoolsAgree(dims, keyHeadMajor, keyTokenMajor)
      && PoolsAgree(dims, valueHeadMajor, valueTokenMajor)
    }

    function Heads(): nat { dims.batchSize * dims.numQHeads }

    function Columns(operation: Operation): nat {
      if operation == QK then dims.kvLen else dims.headDim
    }

    function Depth(operation: Operation): nat {
      if operation == QK then dims.headDim else dims.kvLen
    }

    /** Cells of one query head's output. */
    function Size(operation: Operation): nat { dims.queryLen * Columns(operation) }

    function Pool(operation: Operation, layout: KvLayout): seq<T> {
      if operation == QK then if layout == HeadMajor then keyHeadMajor else keyTokenMajor
      else if layout == HeadMajor then valueHeadMajor else valueTokenMajor
    }

    /** The left operand of query head `head` of the whole batch. */
    function Left(operation: Operation, head: nat): Matrix<T> {
      Matrix(if operation == QK then query else probability, head * (dims.queryLen * Depth(operation)),
             Depth(operation), 1)
    }

    /** The keys or values a query head reads, by token and dimension. */
    function Tokens(operation: Operation, layout: KvLayout, head: nat): Matrix<T>
      requires dims.Valid()
    {
      var batch, kvHead := Quotient(head, dims.numQHeads), KvHead(Remainder(head, dims.numQHeads));
      Matrix(Pool(operation, layout), dims.KvIndex(layout, batch, kvHead, 0, 0),
             if layout == HeadMajor then dims.headDim else dims.numKvHeads * dims.headDim, 1)
    }

    /** The key/value head of a query head. */
    function KvHead(qHead: nat): nat
      requires dims.Valid()
    {
      RepetitionsPositive(dims);
      Quotient(qHead, dims.numQHeads / dims.numKvHeads)
    }

    /** Keys are read transposed. */
    function Right(operation: Operation, layout: KvLayout, head: nat): Matrix<T>
      requires dims.Valid()
    {
      var tokens := Tokens(operation, layout, head);
      if operation == QK then tokens.(rowStride := tokens.columnStride, columnStride := tokens.rowStride) else tokens
    }

    function HeadProduct(operation: Operation, layout: KvLayout, head: nat): Product<T>
      requires dims.Valid()
    {
      Product(scalars, Left(operation, head), Right(operation, layout, head),
              dims.queryLen, Columns(operation), Depth(operation), head * Size(operation))
    }
  }

  lemma RepetitionsPositive(s: Dims)
    requires s.Valid()
    ensures s.numQHeads / s.numKvHeads > 0
    ensures s.numQHeads == s.numKvHeads * (s.numQHeads / s.numKvHeads)
  {
    DivMod(s.numQHeads, s.numKvHeads);
  }

  /** A query head's sequence and key/value head exist. */
  lemma HeadExists<T>(pr: Problem<T>, head: nat)
    requires pr.dims.Valid() && head < pr.Heads()
    ensures Quotient(head, pr.dims.numQHeads) < pr.dims.batchSize
    ensures pr.KvHead(Remainder(head, pr.dims.numQHeads)) < pr.dims.numKvHeads
  {
    SplitBound(head, pr.dims.batchSize, pr.dims.numQHeads);
    RepetitionsPositive(pr.dims);
    SplitBound(head % pr.dims.numQHeads, pr.dims.numKvHeads, pr.dims.numQHeads / pr.dims.numKvHeads);
  }

  /** The strided view reads exactly what indexing the pool reads. */
  lemma TokensIndex<T>(pr: Problem<T>, operation: Operation, layout: KvLayout, head: nat, token: nat, dim: nat)
    requires pr.dims.Valid()
    ensures pr.Tokens(operation, layout, head).Index(token, dim)
            == pr.dims.KvIndex(layout, Quotient(head, pr.dims.numQHeads),
                               pr.KvHead(Remainder(head, pr.dims.numQHeads)), token, dim)
    ensures pr.dims.numQHeads / pr.dims.numKvHeads > 0
    ensures var s := pr.dims;
            var b, g := head / s.numQHeads, head % s.numQHeads / (s.numQHeads / s.numKvHeads);
            pr.Tokens(operation, layout, head).Index(token, dim)
            == (if layout == HeadMajor then (b * s.numKvHeads + g) * s.kvLen + token else (b * s.kvLen + token) * s.numKvHeads + g)
               * s.headDim + dim
  {
    RepetitionsPositive(pr.dims);
    var batch, kvHead := Quotient(head, pr.dims.numQHeads), pr.KvHead(Remainder(head, pr.dims.numQHeads));
    var s := pr.dims;
    if layout == HeadMajor {
      Spread(batch * s.numKvHeads + kvHead, s.kvLen, token, s.headDim);
    } else {
      SpreadTokens(batch * s.kvLen, token, s.numKvHeads, kvHead, s.headDim);
    }
  }

  lemma Spread(major: nat, n: nat, token: nat, width: nat)
    ensures (major * n + token) * width == (major * n + 0) * width + token * width
  {
  }

  lemma SpreadTokens(first: nat, token: nat, heads: nat, head: nat, width: nat)
    ensures ((first + token) * heads + head) * width == ((first + 0) * heads + head) * width + token * (heads * width)
  {
    assert (first + token) * heads == first * heads + token * heads;
    assert (first * heads + token * heads + head) * width == (first * heads + head) * width + (token * heads) * width;
    assert (token * heads) * width == token * (heads * width);
  }

  lemma TokensInPool<T>(pr: Problem<T>, operation: Operation, head: nat, token: nat, dim: nat)
    requires pr.Valid() && head < pr.Heads() && token < pr.dims.kvLen && dim < pr.dims.headDim
    ensures pr.Tokens(operation, HeadMajor, head).Index(token, dim) < pr.dims.KvSize()
    ensures pr.Tokens(operation, TokenMajor, head).Index(token, dim) < pr.dims.KvSize()
    ensures pr.Tokens(operation, HeadMajor, head).At(token, dim) == pr.Tokens(operation, TokenMajor, head).At(token, dim)
  {
    HeadExists(pr, head);
    TokensIndex(pr, operation, HeadMajor, head, token, dim);
    TokensIndex(pr, operation, TokenMajor, head, token, dim);
    var batch, kvHead := Quotient(head, pr.dims.numQHeads), pr.KvHead(Remainder(head, pr.dims.numQHeads));
    assert pr.dims.InPool(batch, kvHead, token, dim);
  }

  lemma LeftCovers<T>(pr: Problem<T>, operation: Operation, head: nat)
    requires pr.Valid() && head < pr.Heads()
    ensures pr.Left(operation, head).Covers(pr.dims.queryLen, pr.Depth(operation))
  {
    var depth := pr.Depth(operation);
    forall i, k | 0 <= i < pr.dims.queryLen && 0 <= k < depth
      ensures pr.Left(operation, head).Index(i, k) < |pr.Left(operation, head).data|
    {
      JoinBound(i, k, pr.dims.queryLen, depth);
      JoinBound(head, i * depth + k, pr.Heads(), pr.dims.queryLen * depth);
    }
  }

  lemma RightCovers<T>(pr: Problem<T>, operation: Operation, layout: KvLayout, head: nat)
    requires pr.Valid() && head < pr.Heads()
    ensures pr.Right(operation, layout, head).Covers(pr.Depth(operation), pr.Columns(operation))
  {
    forall k, j | 0 <= k < pr.Depth(operation) && 0 <= j < pr.Columns(operation)
      ensures pr.Right(operation, layout, head).Index(k, j) < |pr.Right(operation, layout, head).data|
    {
      if operation == QK {
        TokensInPool(pr, operation, head, j, k);
      } else {
        TokensInPool(pr, operation, head, k, j);
      }
    }
  }

  lemma HeadProductValid<T>(pr: Problem<T>, operation: Operation, layout: KvLayout, head: nat)
    requires pr.Valid() && head < pr.Heads()
    ensures pr.HeadProduct(operation, layout, head).Valid(pr.Heads() * pr.Size(operation))
    ensures pr.HeadProduct(operation, layout, head).base + pr.Size(operation) == (head + 1) * pr.Size(operation)
  {
    LeftCovers(pr, operation, head);
    RightCovers(pr, operation, layout, head);
    NextMultiple(head, pr.Size(operation));
    MulMonotone(head + 1, pr.Heads(), pr.Size(operation));
  }

  /** A cell's value does not depend on the layout the keys or values are read from. */
  lemma {:induction false} LayoutsAgree<T>(pr: Problem<T>, operation: Operation, layout: KvLayout, head: nat,
                                           start: T, i: nat, j: nat, n: nat)
    requires pr.Valid() && head < pr.Heads()
    requires i < pr.dims.queryLen && j < pr.Columns(operation) && n <= pr.Depth(operation)
    ensures pr.HeadProduct(operation, HeadMajor, head).Valid(pr.Heads() * pr.Size(operation))
    ensures pr.HeadProduct(operation, layout, head).Valid(pr.Heads() * pr.Size(operation))
    ensures pr.HeadProduct(operation, layout, head).Fold(start, i, j, n)
            == pr.HeadProduct(operation, HeadMajor, head).Fold(start, i, j, n)
  {
    HeadProductValid(pr, operation, HeadMajor, head);
    HeadProductValid(pr, operation, layout, head);
    if n > 0 {
      LayoutsAgree(pr, operation, layout, head, start, i, j, n - 1);
      if operation == QK {
        TokensInPool(pr, operation, head, j, n - 1);
      } else {
        TokensInPool(pr, operation, head, n - 1, j);
      }
    }
  }

  // ----- the whole batch -----

  /** One query head's output is the product over the head-major pool, added to what was there. */
  ghost predicate HeadDone<T>(pr: Problem<T>, operation: Operation, start: seq<T>, now: seq<T>, head: nat)
    requires pr.Valid() && head < pr.Heads() && |start| == |now| == pr.Heads() * pr.Size(operation)
  {
    var p := pr.HeadProduct(operation, HeadMajor, head);
    && p.Valid(|start|)
    && forall i, j :: 0 <= i < p.rows && 0 <= j < p.columns ==>
         p.Cell(i, j) < |now| && now[p.Cell(i, j)] == p.Fold(start[p.Cell(i, j)], i, j, p.depth)
  }

  ghost predicate HeadsDone<T>(pr: Problem<T>, operation: Operation, start: seq<T>, now: seq<T>, n: nat)
    requires pr.Valid() && n <= pr.Heads() && |start| == pr.Heads() * pr.Size(operation)
  {
    && |now| == |start|
    && (forall head :: 0 <= head < n ==> HeadDone(pr, operation, start, now, head))
    && forall x :: n * pr.Size(operation) <= x < |now| ==> now[x] == start[x]
  }

  /** Heads before `n` are out of reach of head `n`'s product. */
  lemma HeadKept<T>(pr: Problem<T>, operation: Operation, layout: KvLayout, start: seq<T>, now: seq<T>, after: seq<T>,
                    n: nat, head: nat)
    requires pr.Valid() && head < n < pr.Heads() && |start| == |now| == |after| == pr.Heads() * pr.Size(operation)
    requires HeadDone(pr, operation, start, now, head)
    requires pr.HeadProduct(operation, layout, n).Valid(|now|)
    requires Computed(pr.HeadProduct(operation, layout, n), now, after)
    ensures HeadDone(pr, operation, start, after, head)
  {
    var p, q := pr.HeadProduct(operation, HeadMajor, head), pr.HeadProduct(operation, layout, n);
    forall i, j | 0 <= i < p.rows && 0 <= j < p.columns
      ensures after[p.Cell(i, j)] == now[p.Cell(i, j)]
    {
      CellInside(p, i, j);
      HeadProductValid(pr, operation, HeadMajor, head);
      MulMonotone(head + 1, n, pr.Size(operation));
      assert q.Outside(p.Cell(i, j));
    }
  }

  lemma NewHeadDone<T>(pr: Problem<T>, operation: Operation, layout: KvLayout, start: seq<T>, now: seq<T>, after: seq<T>,
                       n: nat)
    requires pr.Valid() && n < pr.Heads() && |start| == |now| == |after| == pr.Heads() * pr.Size(operation)
    requires HeadsDone(pr, operation, start, now, n)
    requires pr.HeadProduct(operation, layout, n).Valid(|now|)
    requires Computed(pr.HeadProduct(operation, layout, n), now, after)
    ensures HeadDone(pr, operation, start, after, n)
  {
    var p, q := pr.HeadProduct(operation, HeadMajor, n), pr.HeadProduct(operation, layout, n);
    HeadProductValid(pr, operation, HeadMajor, n);
    forall i, j | 0 <= i < p.rows && 0 <= j < p.columns
      ensures p.Cell(i, j) < |after| && after[p.Cell(i, j)] == p.Fold(start[p.Cell(i, j)], i, j, p.depth)
    {
      CellInside(p, i, j);
      assert q.Cell(i, j) == p.Cell(i, j);
      LayoutsAgree(pr, operation, layout, n, start[p.Cell(i, j)], i, j, p.depth);
    }
  }

  lemma HeadsNext<T>(pr: Problem<T>, operation: Operation, layout: KvLayout, start: seq<T>, now: seq<T>, after: seq<T>,
                     n: nat, next: nat)
    requires pr.Valid() && next == n + 1 <= pr.Heads() && |start| == pr.Heads() * pr.Size(operation)
    requires HeadsDone(pr, operation, start, now, n)
    requires pr.HeadProduct(operation, layout, n).Valid(|now|)
    requires Computed(pr.HeadProduct(operation, layout, n), now, after)
    ensures HeadsDone(pr, operation, start, after, next)
  {
    forall head | 0 <= head < next
      ensures HeadDone(pr, operation, start, after, head)
    {
      if head == n {
        NewHeadDone(pr, operation, layout, start, now, after, n);
      } else {
        HeadKept(pr, operation, layout, start, now, after, n, head);
      }
    }
    NextMultiple(n, pr.Size(operation));
  }

  // ----- the same by plain indices -----

  /** A query head of the batch by its sequence, its key/value head and its number in the group. */
  predicate InGroup(s: Dims, batch: nat, kvHead: nat, rep: nat, head: nat)
    requires s.Valid()
  {
    && batch < s.batchSize && kvHead < s.numKvHeads && rep < s.numQHeads / s.numKvHeads
    && head == batch * s.numQHeads + (kvHead * (s.numQHeads / s.numKvHeads) + rep)
  }

  lemma HeadParts<T>(pr: Problem<T>, batch: nat, kvHead: nat, rep: nat, head: nat)
    requires pr.Valid() && InGroup(pr.dims, batch, kvHead, rep, head)
    ensures head < pr.Heads()
    ensures Quotient(head, pr.dims.numQHeads) == batch && pr.KvHead(Remainder(head, pr.dims.numQHeads)) == kvHead
  {
    var s := pr.dims;
    var reps := s.numQHeads / s.numKvHeads;
    RepetitionsPositive(s);
    JoinBound(kvHead, rep, s.numKvHeads, reps);
    JoinBound(batch, kvHead * reps + rep, s.batchSize, s.numQHeads);
    JoinSplit(batch, kvHead * reps + rep, s.numQHeads);
    JoinSplit(kvHead, rep, reps);
  }

  /** Query times key, element by element along the head: row `i` of the head's queries, token `j` of its keys. */
  function ScoreFold<T>(pr: Problem<T>, batch: nat, kvHead: nat, head: nat, i: nat, j: nat, start: T, n: nat): T
    requires pr.Valid() && head < pr.Heads() && i < pr.dims.queryLen && n <= pr.dims.headDim
    requires batch < pr.dims.batchSize && kvHead < pr.dims.numKvHeads && j < pr.dims.kvLen
  {
    if n == 0 then start
    else
      var s, k := pr.dims, n - 1;
      QueryInside(pr, head, i, k);
      KvIndexInside(s, HeadMajor, batch, kvHead, j, k);
      pr.scalars.addOp(ScoreFold(pr, batch, kvHead, head, i, j, start, k),
                       pr.scalars.mulOp(pr.query[head * (s.queryLen * s.headDim) + (i * s.headDim + k)],
                                        pr.keyHeadMajor[((batch * s.numKvHeads + kvHead) * s.kvLen + j) * s.headDim + k]))
  }

  /** Probability times value, token by token: row `i` of the head's probabilities, dimension `j` of its values. */
  function OutputFold<T>(pr: Problem<T>, batch: nat, kvHead: nat, head: nat, i: nat, j: nat, start: T, n: nat): T
    requires pr.Valid() && head < pr.Heads() && i < pr.dims.queryLen && n <= pr.dims.kvLen
    requires batch < pr.dims.batchSize && kvHead < pr.dims.numKvHeads && j < pr.dims.headDim
  {
    if n == 0 then start
    else
      var s, k := pr.dims, n - 1;
      ProbabilityInside(pr, head, i, k);
      KvIndexInside(s, HeadMajor, batch, kvHead, k, j);
      pr.scalars.addOp(OutputFold(pr, batch, kvHead, head, i, j, start, k),
                       pr.scalars.mulOp(pr.probability[head * (s.queryLen * s.kvLen) + (i * s.kvLen + k)],
                                        pr.valueHeadMajor[((batch * s.numKvHeads + kvHead) * s.kvLen + k) * s.headDim + j]))
  }

  lemma QueryInside<T>(pr: Problem<T>, head: nat, i: nat, k: nat)
    requires pr.Valid() && head < pr.Heads() && i < pr.dims.queryLen && k < pr.dims.headDim
    ensures 0 <= head * (pr.dims.queryLen * pr.dims.headDim) + (i * pr.dims.headDim + k) < |pr.query|
  {
    JoinBound(i, k, pr.dims.queryLen, pr.dims.headDim);
    JoinBound(head, i * pr.dims.headDim + k, pr.Heads(), pr.dims.queryLen * pr.dims.headDim);
  }

  lemma ProbabilityInside<T>(pr: Problem<T>, head: nat, i: nat, k: nat)
    requires pr.Valid() && head < pr.Heads() && i < pr.dims.queryLen && k < pr.dims.kvLen
    ensures 0 <= head * (pr.dims.queryLen * pr.dims.kvLen) + (i * pr.dims.kvLen + k) < |pr.probability|
  {
    JoinBound(i, k, pr.dims.queryLen, pr.dims.kvLen);
    JoinBound(head, i * pr.dims.kvLen + k, pr.Heads(), pr.dims.queryLen * pr.dims.kvLen);
  }

  /** The two factors of one term. */
  lemma ScoreTerm<T>(pr: Problem<T>, batch: nat, kvHead: nat, rep: nat, head: nat, i: nat, j: nat, k: nat)
    requires pr.Valid() && InGroup(pr.dims, batch, kvHead, rep, head) && head < pr.Heads()
    requires i < pr.dims.queryLen && j < pr.dims.kvLen && k < pr.dims.headDim
    ensures pr.Left(QK, head).Index(i, k) == head * (pr.dims.queryLen * pr.dims.headDim) + (i * pr.dims.headDim + k) < |pr.query|
    ensures pr.Left(QK, head).data == pr.query
    ensures pr.Right(QK, HeadMajor, head).Index(k, j)
            == ((batch * pr.dims.numKvHeads + kvHead) * pr.dims.kvLen + j) * pr.dims.headDim + k < |pr.keyHeadMajor|
    ensures pr.Right(QK, HeadMajor, head).data == pr.keyHeadMajor
  {
    HeadParts(pr, batch, kvHead, rep, head);
    TokensIndex(pr, QK, HeadMajor, head, j, k);
    KvIndexInside(pr.dims, HeadMajor, batch, kvHead, j, k);
    QueryInside(pr, head, i, k);
    hide Problem.KvHead, Quotient, Remainder;
  }

  lemma OutputTerm<T>(pr: Problem<T>, batch: nat, kvHead: nat, rep: nat, head: nat, i: nat, j: nat, k: nat)
    requires pr.Valid() && InGroup(pr.dims, batch, kvHead, rep, head) && head < pr.Heads()
    requires i < pr.dims.queryLen && j < pr.dims.headDim && k < pr.dims.kvLen
    ensures pr.Left(PV, head).Index(i, k)
            == head * (pr.dims.queryLen * pr.dims.kvLen) + (i * pr.dims.kvLen + k) < |pr.probability|
    ensures pr.Left(PV, head).data == pr.probability
    ensures pr.Right(PV, HeadMajor, head).Index(k, j)
            == ((batch * pr.dims.numKvHeads + kvHead) * pr.dims.kvLen + k) * pr.dims.headDim + j < |pr.valueHeadMajor|
    ensures pr.Right(PV, HeadMajor, head).data == pr.valueHeadMajor
  {
    HeadParts(pr, batch, kvHead, rep, head);
    TokensIndex(pr, PV, HeadMajor, head, k, j);
    KvIndexInside(pr.dims, HeadMajor, batch, kvHead, k, j);
    ProbabilityInside(pr, head, i, k);
    hide Problem.KvHead, Quotient, Remainder;
  }

  lemma {:induction false} ScoreIsPlain<T>(pr: Problem<T>, batch: nat, kvHead: nat, rep: nat, head: nat,
                                           i: nat, j: nat, start: T, n: nat)
    requires pr.Valid() && InGroup(pr.dims, batch, kvHead, rep, head) && head < pr.Heads()
    requires i < pr.dims.queryLen && j < pr.dims.kvLen && n <= pr.dims.headDim
    ensures pr.HeadProduct(QK, HeadMajor, head).Valid(pr.Heads() * pr.Size(QK))
    ensures pr.HeadProduct(QK, HeadMajor, head).Fold(start, i, j, n) == ScoreFold(pr, batch, kvHead, head, i, j, start, n)
  {
    hide Problem.Left, Problem.Right, Matrix.Index, InGroup, Problem.Valid;
    HeadProductValid(pr, QK, HeadMajor, head);
    if n > 0 {
      ScoreIsPlain(pr, batch, kvHead, rep, head, i, j, start, n - 1);
      ScoreTerm(pr, batch, kvHead, rep, head, i, j, n - 1);
    }
  }

  lemma {:induction false} OutputIsPlain<T>(pr: Problem<T>, batch: nat, kvHead: nat, rep: nat, head: nat,
                                            i: nat, j: nat, start: T, n: nat)
    requires pr.Valid() && InGroup(pr.dims, batch, kvHead, rep, head) && head < pr.Heads()
    requires i < pr.dims.queryLen && j < pr.dims.headDim && n <= pr.dims.kvLen
    ensures pr.HeadProduct(PV, HeadMajor, head).Valid(pr.Heads() * pr.Size(PV))
    ensures pr.HeadProduct(PV, HeadMajor, head).Fold(start, i, j, n) == OutputFold(pr, batch, kvHead, head, i, j, start, n)
  {
    hide Problem.Left, Problem.Right, Matrix.Index, InGroup, Problem.Valid;
    HeadProductValid(pr, PV, HeadMajor, head);
    if n > 0 {
      OutputIsPlain(pr, batch, kvHead, rep, head, i, j, start, n - 1);
      OutputTerm(pr, batch, kvHead, rep, head, i, j, n - 1);
    }
  }

  /** What a cell of one query head ends with: its keys and values are those of the key/value head of its group. */
  ghost predicate PlainCell<T>(pr: Problem<T>, operation: Operation, start: seq<T>, now: seq<T>,
                               batch: nat, kvHead: nat, rep: nat, i: nat, j: nat)
    requires pr.Valid() && batch < pr.dims.batchSize && kvHead < pr.dims.numKvHeads
    requires rep < pr.dims.numQHeads / pr.dims.numKvHeads
  {
    var s := pr.dims;
    var head := batch * s.numQHeads + (kvHead * (s.numQHeads / s.numKvHeads) + rep);
    var columns := if operation == QK then s.kvLen else s.headDim;
    var cell := head * (s.queryLen * columns) + (i * columns + j);
    0 <= head < s.batchSize * s.numQHeads && (i < s.queryLen && j < columns ==>
      && 0 <= cell < |start| == |now|
      && now[cell] == if operation == QK then ScoreFold(pr, batch, kvHead, head, i, j, start[cell], s.headDim)
                      else OutputFold(pr, batch, kvHead, head, i, j, start[cell], s.kvLen))
  }

  /** Whatever the layout and the order were, every cell is that one. */
  lemma CellsArePlain<T>(pr: Problem<T>, operation: Operation, start: seq<T>, now: seq<T>,
                         batch: nat, kvHead: nat, rep: nat, i: nat, j: nat)
    requires pr.Valid() && |start| == pr.Heads() * pr.Size(operation) && HeadsDone(pr, operation, start, now, pr.Heads())
    requires batch < pr.dims.batchSize && kvHead < pr.dims.numKvHeads && rep < pr.dims.numQHeads / pr.dims.numKvHeads
    ensures PlainCell(pr, operation, start, now, batch, kvHead, rep, i, j)
  {
    var s := pr.dims;
    var reps := s.numQHeads / s.numKvHeads;
    RepetitionsPositive(s);
    JoinBound(kvHead, rep, s.numKvHeads, reps);
    NonNegative(batch, s.numQHeads);
    var head := batch * s.numQHeads + (kvHead * reps + rep);
    HeadParts(pr, batch, kvHead, rep, head);
    assert HeadDone(pr, operation, start, now, head);
    if i < s.queryLen && j < pr.Columns(operation) {
      var p := pr.HeadProduct(operation, HeadMajor, head);
      assert p.Cell(i, j) == head * pr.Size(operation) + (i * pr.Columns(operation) + j) < |now|;
      if operation == QK {
        ScoreIsPlain(pr, batch, kvHead, rep, head, i, j, start[p.Cell(i, j)], s.headDim);
      } else {
        OutputIsPlain(pr, batch, kvHead, rep, head, i, j, start[p.Cell(i, j)], s.kvLen);
      }
    }
  }

  /** `attention_gemm`: the same output for every layout and every loop order. */
  method AttentionGemm<T>(operation: Operation, layout: KvLayout, order: Order, pr: Problem<T>, output: array<T>)
    requires pr.Valid() && output.Length == pr.Heads() * pr.Size(operation)
    modifies output
    ensures HeadsDone(pr, operation, old(output[..]), output[..], pr.Heads())
    ensures forall batch: nat, kvHead: nat, rep: nat, i: nat, j: nat ::
      batch < pr.dims.batchSize && kvHead < pr.dims.numKvHeads && rep < pr.dims.numQHeads / pr.dims.numKvHeads ==>
        PlainCell(pr, operation, old(output[..]), output[..], batch, kvHead, rep, i, j)
  {
    ghost var start := output[..];
    AllHeads(operation, layout, order, pr, output);
    forall batch: nat, kvHead: nat, rep: nat, i: nat, j: nat |
      batch < pr.dims.batchSize && kvHead < pr.dims.numKvHeads && rep < pr.dims.numQHeads / pr.dims.numKvHeads
      ensures PlainCell(pr, operation, start, output[..], batch, kvHead, rep, i, j)
    {
      CellsArePlain(pr, operation, start, output[..], batch, kvHead, rep, i, j);
    }
  }

  /** The loops over sequences and query heads. */
  method AllHeads<T>(operation: Operation, layout: KvLayout, order: Order, pr: Problem<T>, output: array<T>)
    requires pr.Valid() && output.Length == pr.Heads() * pr.Size(operation)
    modifies output
    ensures HeadsDone(pr, operation, old(output[..]), output[..], pr.Heads())
  {
    ghost var start := output[..];
    for batch := 0 to pr.dims.batchSize
      invariant batch * pr.dims.numQHeads <= pr.Heads()
      invariant HeadsDone(pr, operation, start, output[..], batch * pr.dims.numQHeads)
    {
      NextMultiple(batch, pr.dims.numQHeads);
      MulMonotone(batch + 1, pr.dims.batchSize, pr.dims.numQHeads);
      for qHead := 0 to pr.dims.numQHeads
        invariant HeadsDone(pr, operation, start, output[..], batch * pr.dims.numQHeads + qHead)
      {
        var head := batch * pr.dims.numQHeads + qHead;
        HeadProductValid(pr, operation, layout, head);
        ghost var now := output[..];
        Gemm(order, pr.HeadProduct(operation, layout, head), output);
        HeadsNext(pr, operation, layout, start, now, output[..], head, head + 1);
      }
    }
  }

  /** So any two of the twelve kernels of an operation agree on every cell of the output. */
  lemma KernelsAgree<T>(pr: Problem<T>, operation: Operation, start: seq<T>, one: seq<T>, other: seq<T>)
    requires pr.Valid() && |start| == pr.Heads() * pr.Size(operation)
    requires HeadsDone(pr, operation, start, one, pr.Heads()) && HeadsDone(pr, operation, start, other, pr.Heads())
    ensures one == other
  {
    forall x | 0 <= x < |start|
      ensures one[x] == other[x]
    {
      var size := pr.Size(operation);
      SplitBound(x, pr.Heads(), size);
      var head := x / size;
      var p := pr.HeadProduct(operation, HeadMajor, head);
      var i, j := CellOf(p, x);
      assert HeadDone(pr, operation, start, one, head) && HeadDone(pr, operation, start, other, head);
    }
  }
}
