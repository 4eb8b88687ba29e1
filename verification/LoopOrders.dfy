/**
 Matrix products in all six loop orders over flat arrays, with nothing assumed about addition and
 multiplication (`benchmarks/cpu/loop_order/gemm_loop_order.cpp`,
 `benchmarks/cpu/attention_bmm/pv_loop_crossover.cpp`).
 */
module LoopOrders {
  import opened Indexing

  datatype Scalars<!T> = Scalars(addOp: (T, T) -> T, mulOp: (T, T) -> T) {
    function Add(a: T, b: T): T { addOp(a, b) }

    function Mul(a: T, b: T): T { mulOp(a, b) }
  }

  /** A matrix read from a flat buffer. */
  datatype Matrix<T> = Matrix(data: seq<T>, base: nat, rowStride: nat, columnStride: nat) {
    function Index(i: nat, j: nat): nat {
      base + i * rowStride + j * columnStride
    }

    ghost predicate Covers(rows: nat, columns: nat) {
      forall i, j :: 0 <= i < rows && 0 <= j < columns ==> Index(i, j) < |data|
    }

    function At(i: nat, j: nat): T
      requires Index(i, j) < |data|
    {
      data[Index(i, j)]
    }
  }

  /** One product, to be added to the `rows * columns` cells of a buffer from `base` on. */
  datatype Product<!T> = Product(scalars: Scalars<T>, left: Matrix<T>, right: Matrix<T>,
                                 rows: nat, columns: nat, depth: nat, base: nat)
  {
    ghost predicate Valid(size: nat) {
      left.Covers(rows, depth) && right.Covers(depth, columns) && base + rows * columns <= size
    }

    function Cell(i: nat, j: nat): nat {
      base + (i * columns + j)
    }

    predicate Outside(x: int) {
      x < base || base + rows * columns <= x
    }

    /** A cell after the first `n` terms were added to it, in ascending order. */
    function Fold(start: T, i: nat, j: nat, n: nat): T
      requires left.Covers(rows, depth) && right.Covers(depth, columns)
      requires i < rows && j < columns && n <= depth
    {
      if n == 0 then start
      else scalars.Add(Fold(start, i, j, n - 1), scalars.Mul(left.At(i, n - 1), right.At(n - 1, j)))
    }
  }

  /** A buffer holds the whole product added to what was there, and nothing else has changed. */
  ghost predicate Computed<T>(p: Product<T>, start: seq<T>, now: seq<T>)
    requires p.Valid(|start|)
  {
    && |now| == |start|
    && (forall i, j :: 0 <= i < p.rows && 0 <= j < p.columns ==>
         p.Cell(i, j) < |now| && now[p.Cell(i, j)] == p.Fold(start[p.Cell(i, j)], i, j, p.depth))
    && forall x :: 0 <= x < |now| && p.Outside(x) ==> now[x] == start[x]
  }

  /** How many terms each cell has taken. */
  ghost predicate Shaped<T>(p: Product<T>, done: seq<seq<nat>>) {
    && |done| == p.rows
    && (forall i :: 0 <= i < |done| ==> |done[i]| == p.columns)
    && forall i, j :: 0 <= i < |done| && 0 <= j < |done[i]| ==> done[i][j] <= p.depth
  }

  /** One cell one term further. */
  ghost function Advanced(done: seq<seq<nat>>, i: nat, j: nat): (next: seq<seq<nat>>)
    requires i < |done| && j < |done[i]|
    ensures |next| == |done| && forall x :: 0 <= x < |next| ==> |next[x]| == |done[x]|
    ensures forall x, y :: 0 <= x < |next| && 0 <= y < |next[x]| ==>
      next[x][y] == if x == i && y == j then done[x][y] + 1 else done[x][y]
  {
    var row: seq<nat> := done[i][j := done[i][j] + 1];
    done[i := row]
  }

  ghost predicate Progress<T>(p: Product<T>, start: seq<T>, now: seq<T>, done: seq<seq<nat>>)
    requires p.Valid(|start|)
  {
    && |now| == |start| && Shaped(p, done)
    && (forall i, j :: 0 <= i < |done| && 0 <= j < |done[i]| ==>
         p.Cell(i, j) < |now| && now[p.Cell(i, j)] == p.Fold(start[p.Cell(i, j)], i, j, done[i][j]))
    && forall x :: 0 <= x < |now| && p.Outside(x) ==> now[x] == start[x]
  }

  lemma CellInside<T>(p: Product<T>, i: nat, j: nat)
    requires i < p.rows && j < p.columns
    ensures p.base <= p.Cell(i, j) < p.base + p.rows * p.columns
  {
    JoinBound(i, j, p.rows, p.columns);
  }

  lemma CellInjective<T>(p: Product<T>, i: nat, j: nat, i': nat, j': nat)
    requires j < p.columns && j' < p.columns && p.Cell(i, j) == p.Cell(i', j')
    ensures i == i' && j == j'
  {
    JoinInjective(i, j, i', j', p.columns);
  }

  lemma Start<T>(p: Product<T>, start: seq<T>, done: seq<seq<nat>>)
    requires p.Valid(|start|) && Shaped(p, done)
    requires forall i, j :: 0 <= i < |done| && 0 <= j < |done[i]| ==> done[i][j] == 0
    ensures Progress(p, start, start, done)
  {
    forall i, j | 0 <= i < |done| && 0 <= j < |done[i]|
      ensures p.Cell(i, j) < |start|
    {
      CellInside(p, i, j);
    }
  }

  /** One more term in one cell. */
  lemma StepKeeps<T>(p: Product<T>, start: seq<T>, now: seq<T>, done: seq<seq<nat>>, next: seq<seq<nat>>,
                     i: nat, j: nat, k: nat, value: T, cell: nat)
    requires p.Valid(|start|) && Progress(p, start, now, done)
    requires i < p.rows && j < p.columns && done[i][j] == k < p.depth && cell == p.Cell(i, j) < |now|
    requires value == p.scalars.Add(now[cell], p.scalars.Mul(p.left.At(i, k), p.right.At(k, j)))
    requires next == Advanced(done, i, j)
    ensures Progress(p, start, now[cell := value], next)
  {
    var after := now[cell := value];
    CellInside(p, i, j);
    forall i', j' | 0 <= i' < |next| && 0 <= j' < |next[i']|
      ensures p.Cell(i', j') < |after|
      ensures after[p.Cell(i', j')] == p.Fold(start[p.Cell(i', j')], i', j', next[i'][j'])
    {
      if p.Cell(i', j') == cell {
        CellInjective(p, i, j, i', j');
      } else {
        assert next[i'][j'] == done[i'][j'];
      }
    }
  }

  /** `c[i][j] += left * right` */
  method AddTerm<T>(p: Product<T>, c: array<T>, i: nat, j: nat, left: T, right: T,
                    ghost start: seq<T>, ghost done: seq<seq<nat>>, ghost k: nat) returns (ghost next: seq<seq<nat>>)
    requires p.Valid(|start|) && Progress(p, start, c[..], done)
    requires i < p.rows && j < p.columns && done[i][j] == k < p.depth
    requires left == p.left.At(i, k) && right == p.right.At(k, j)
    modifies c
    ensures next == Advanced(done, i, j) && Progress(p, start, c[..], next)
  {
    CellInside(p, i, j);
    var cell := p.Cell(i, j);
    ghost var now := c[..];
    next := Advanced(done, i, j);
    c[cell] := p.scalars.Add(c[cell], p.scalars.Mul(left, right));
    assert c[..] == now[cell := c[cell]];
    StepKeeps(p, start, now, done, next, i, j, k, c[cell], cell);
  }

  // ----- where a loop nest is -----

  /** Cells row by row, every cell all at once. */
  ghost predicate RowByRow(done: seq<seq<nat>>, depth: nat, i: nat, j: nat, k: nat) {
    forall x, y :: 0 <= x < |done| && 0 <= y < |done[x]| ==>
      done[x][y] == if x < i || (x == i && y < j) then depth else if x == i && y == j then k else 0
  }

  ghost predicate ColumnByColumn(done: seq<seq<nat>>, depth: nat, j: nat, i: nat, k: nat) {
    forall x, y :: 0 <= x < |done| && 0 <= y < |done[x]| ==>
      done[x][y] == if y < j || (y == j && x < i) then depth else if y == j && x == i then k else 0
  }

  /** Row by row, every row one term at a time. */
  ghost predicate RowSweeps(done: seq<seq<nat>>, depth: nat, i: nat, k: nat, j: nat) {
    forall x, y :: 0 <= x < |done| && 0 <= y < |done[x]| ==>
      done[x][y] == if x < i then depth else if x > i then 0 else if y < j then k + 1 else k
  }

  ghost predicate ColumnSweeps(done: seq<seq<nat>>, depth: nat, j: nat, k: nat, i: nat) {
    forall x, y :: 0 <= x < |done| && 0 <= y < |done[x]| ==>
      done[x][y] == if y < j then depth else if y > j then 0 else if x < i then k + 1 else k
  }

  /** All cells one term at a time, in rows. */
  ghost predicate RowLayers(done: seq<seq<nat>>, k: nat, i: nat, j: nat) {
    forall x, y :: 0 <= x < |done| && 0 <= y < |done[x]| ==>
      done[x][y] == if x < i || (x == i && y < j) then k + 1 else k
  }

  ghost predicate ColumnLayers(done: seq<seq<nat>>, k: nat, j: nat, i: nat) {
    forall x, y :: 0 <= x < |done| && 0 <= y < |done[x]| ==>
      done[x][y] == if y < j || (y == j && x < i) then k + 1 else k
  }

  ghost function Nothing<T>(p: Product<T>): (done: seq<seq<nat>>)
    ensures Shaped(p, done)
    ensures forall i, j :: 0 <= i < |done| && 0 <= j < |done[i]| ==> done[i][j] == 0
  {
    seq(p.rows, _ => seq(p.columns, _ => 0))
  }

  // ----- the six orders -----

  method GemmIJK<T>(p: Product<T>, c: array<T>)
    requires p.Valid(c.Length)
    modifies c
    ensures Computed(p, old(c[..]), c[..])
  {
    ghost var start, done := c[..], Nothing(p);
    Start(p, start, done);
    for i := 0 to p.rows
      invariant Progress(p, start, c[..], done) && RowByRow(done, p.depth, i, 0, 0)
    {
      for j := 0 to p.columns
        invariant Progress(p, start, c[..], done) && RowByRow(done, p.depth, i, j, 0)
      {
        for k := 0 to p.depth
          invariant Progress(p, start, c[..], done) && RowByRow(done, p.depth, i, j, k)
        {
          done := AddTerm(p, c, i, j, p.left.At(i, k), p.right.At(k, j), start, done, k);
        }
      }
    }
  }

  method GemmIKJ<T>(p: Product<T>, c: array<T>)
    requires p.Valid(c.Length)
    modifies c
    ensures Computed(p, old(c[..]), c[..])
  {
    ghost var start, done := c[..], Nothing(p);
    Start(p, start, done);
    for i := 0 to p.rows
      invariant Progress(p, start, c[..], done) && RowSweeps(done, p.depth, i, 0, 0)
    {
      for k := 0 to p.depth
        invariant Progress(p, start, c[..], done) && RowSweeps(done, p.depth, i, k, 0)
      {
        var left := p.left.At(i, k);
        for j := 0 to p.columns
          invariant Progress(p, start, c[..], done) && RowSweeps(done, p.depth, i, k, j)
        {
          done := AddTerm(p, c, i, j, left, p.right.At(k, j), start, done, k);
        }
      }
    }
  }

  method GemmJIK<T>(p: Product<T>, c: array<T>)
    requires p.Valid(c.Length)
    modifies c
    ensures Computed(p, old(c[..]), c[..])
  {
    ghost var start, done := c[..], Nothing(p);
    Start(p, start, done);
    for j := 0 to p.columns
      invariant Progress(p, start, c[..], done) && ColumnByColumn(done, p.depth, j, 0, 0)
    {
      for i := 0 to p.rows
        invariant Progress(p, start, c[..], done) && ColumnByColumn(done, p.depth, j, i, 0)
      {
        for k := 0 to p.depth
          invariant Progress(p, start, c[..], done) && ColumnByColumn(done, p.depth, j, i, k)
        {
          done := AddTerm(p, c, i, j, p.left.At(i, k), p.right.At(k, j), start, done, k);
        }
      }
    }
  }

  method GemmJKI<T>(p: Product<T>, c: array<T>)
    requires p.Valid(c.Length)
    modifies c
    ensures Computed(p, old(c[..]), c[..])
  {
    ghost var start, done := c[..], Nothing(p);
    Start(p, start, done);
    for j := 0 to p.columns
      invariant Progress(p, start, c[..], done) && ColumnSweeps(done, p.depth, j, 0, 0)
    {
      for k := 0 to p.depth
        invariant Progress(p, start, c[..], done) && ColumnSweeps(done, p.depth, j, k, 0)
      {
        var right := p.right.At(k, j);
        for i := 0 to p.rows
          invariant Progress(p, start, c[..], done) && ColumnSweeps(done, p.depth, j, k, i)
        {
          done := AddTerm(p, c, i, j, p.left.At(i, k), right, start, done, k);
        }
      }
    }
  }

  method GemmKIJ<T>(p: Product<T>, c: array<T>)
    requires p.Valid(c.Length)
    modifies c
    ensures Computed(p, old(c[..]), c[..])
  {
    ghost var start, done := c[..], Nothing(p);
    Start(p, start, done);
    for k := 0 to p.depth
      invariant Progress(p, start, c[..], done) && RowLayers(done, k, 0, 0)
    {
      for i := 0 to p.rows
        invariant Progress(p, start, c[..], done) && RowLayers(done, k, i, 0)
      {
        var left := p.left.At(i, k);
        for j := 0 to p.columns
          invariant Progress(p, start, c[..], done) && RowLayers(done, k, i, j)
        {
          done := AddTerm(p, c, i, j, left, p.right.At(k, j), start, done, k);
        }
      }
    }
  }

  method GemmKJI<T>(p: Product<T>, c: array<T>)
    requires p.Valid(c.Length)
    modifies c
    ensures Computed(p, old(c[..]), c[..])
  {
    ghost var start, done := c[..], Nothing(p);
    Start(p, start, done);
    for k := 0 to p.depth
      invariant Progress(p, start, c[..], done) && ColumnLayers(done, k, 0, 0)
    {
      for j := 0 to p.columns
        invariant Progress(p, start, c[..], done) && ColumnLayers(done, k, j, 0)
      {
        var right := p.right.At(k, j);
        for i := 0 to p.rows
          invariant Progress(p, start, c[..], done) && ColumnLayers(done, k, j, i)
        {
          done := AddTerm(p, c, i, j, p.left.At(i, k), right, start, done, k);
        }
      }
    }
  }

  datatype Order = IJK | IKJ | JIK | JKI | KIJ | KJI

  /** Any of the six kernels. */
  method Gemm<T>(order: Order, p: Product<T>, c: array<T>)
    requires p.Valid(c.Length)
    modifies c
    ensures Computed(p, old(c[..]), c[..])
  {
    match order {
      case IJK => GemmIJK(p, c);
      case IKJ => GemmIKJ(p, c);
      case JIK => GemmJIK(p, c);
      case JKI => GemmJKI(p, c);
      case KIJ => GemmKIJ(p, c);
      case KJI => GemmKJI(p, c);
    }
  }

  /** Every index in the range of a product is one of its cells. */
  lemma CellOf<T>(p: Product<T>, x: nat) returns (i: nat, j: nat)
    requires !p.Outside(x)
    ensures i < p.rows && j < p.columns && p.Cell(i, j) == x
  {
    SplitBound(x - p.base, p.rows, p.columns);
    i, j := (x - p.base) / p.columns, (x - p.base) % p.columns;
  }

  /** What is computed leaves no choice: two orders started on the same buffer end with the same one. */
  lemma ComputedUnique<T>(p: Product<T>, start: seq<T>, one: seq<T>, other: seq<T>)
    requires p.Valid(|start|) && Computed(p, start, one) && Computed(p, start, other)
    ensures one == other
  {
    forall x | 0 <= x < |start|
      ensures one[x] == other[x]
    {
      if !p.Outside(x) {
        var i, j := CellOf(p, x);
      }
    }
  }

  // ----- dense matrices -----

  /** A row-major matrix that fills its buffer. */
  function Dense<T>(data: seq<T>, columns: nat): Matrix<T> {
    Matrix(data, 0, columns, 1)
  }

  lemma DenseCovers<T>(data: seq<T>, rows: nat, columns: nat)
    requires |data| == rows * columns
    ensures Dense(data, columns).Covers(rows, columns)
  {
    forall i, j | 0 <= i < rows && 0 <= j < columns
      ensures Dense(data, columns).Index(i, j) < |data|
    {
      JoinBound(i, j, rows, columns);
    }
  }

  function DenseProduct<T>(scalars: Scalars<T>, a: seq<T>, b: seq<T>, rows: nat, columns: nat, depth: nat): (p: Product<T>)
    requires |a| == rows * depth && |b| == depth * columns
    ensures p.Valid(rows * columns)
  {
    DenseCovers(a, rows, depth);
    DenseCovers(b, depth, columns);
    Product(scalars, Dense(a, depth), Dense(b, columns), rows, columns, depth, 0)
  }

  /** The square kernels (all sizes `n`) and the rectangular probability-value kernels. */
  method DenseGemm<T>(order: Order, scalars: Scalars<T>, a: seq<T>, b: seq<T>, c: array<T>,
                      rows: nat, columns: nat, depth: nat)
    requires |a| == rows * depth && |b| == depth * columns && c.Length == rows * columns
    modifies c
    ensures Computed(DenseProduct(scalars, a, b, rows, columns, depth), old(c[..]), c[..])
    ensures forall i: nat, j: nat :: i < rows && j < columns ==>
      CellIs(scalars, a, b, old(c[..]), c[..], rows, columns, depth, i, j)
  {
    ghost var start := c[..];
    Gemm(order, DenseProduct(scalars, a, b, rows, columns, depth), c);
    forall i: nat, j: nat | i < rows && j < columns
      ensures CellIs(scalars, a, b, start, c[..], rows, columns, depth, i, j)
    {
      DenseCell(scalars, a, b, start, c[..], rows, columns, depth, i, j);
    }
  }

  /** `start` with the terms `a[i][k]` times `b[k][j]` added one behind the other, `k` from 0 up to `n`. */
  function PlainFold<T>(scalars: Scalars<T>, a: seq<T>, b: seq<T>, rows: nat, columns: nat, depth: nat,
                        i: nat, j: nat, start: T, n: nat): T
    requires |a| == rows * depth && |b| == depth * columns && i < rows && j < columns && n <= depth
  {
    if n == 0 then start
    else
      JoinBound(i, n - 1, rows, depth);
      JoinBound(n - 1, j, depth, columns);
      scalars.addOp(PlainFold(scalars, a, b, rows, columns, depth, i, j, start, n - 1),
                    scalars.mulOp(a[i * depth + (n - 1)], b[(n - 1) * columns + j]))
  }

  /** Cell `(i, j)` of a row-major buffer has all its terms. */
  ghost predicate CellIs<T>(scalars: Scalars<T>, a: seq<T>, b: seq<T>, start: seq<T>, now: seq<T>,
                            rows: nat, columns: nat, depth: nat, i: nat, j: nat)
    requires |a| == rows * depth && |b| == depth * columns && |start| == |now| == rows * columns && i < rows && j < columns
  {
    && 0 <= i * columns + j < |now|
    && now[i * columns + j] == PlainFold(scalars, a, b, rows, columns, depth, i, j, start[i * columns + j], depth)
  }

  lemma {:induction false} FoldIsPlain<T>(scalars: Scalars<T>, a: seq<T>, b: seq<T>, rows: nat, columns: nat, depth: nat,
                                          i: nat, j: nat, start: T, n: nat)
    requires |a| == rows * depth && |b| == depth * columns && i < rows && j < columns && n <= depth
    ensures DenseProduct(scalars, a, b, rows, columns, depth).Fold(start, i, j, n)
            == PlainFold(scalars, a, b, rows, columns, depth, i, j, start, n)
  {
    if n > 0 {
      FoldIsPlain(scalars, a, b, rows, columns, depth, i, j, start, n - 1);
    }
  }

  lemma DenseCell<T>(scalars: Scalars<T>, a: seq<T>, b: seq<T>, start: seq<T>, now: seq<T>,
                     rows: nat, columns: nat, depth: nat, i: nat, j: nat)
    requires |a| == rows * depth && |b| == depth * columns && |start| == rows * columns && i < rows && j < columns
    requires Computed(DenseProduct(scalars, a, b, rows, columns, depth), start, now)
    ensures CellIs(scalars, a, b, start, now, rows, columns, depth, i, j)
  {
    JoinBound(i, j, rows, columns);
    FoldIsPlain(scalars, a, b, rows, columns, depth, i, j, start[i * columns + j], depth);
    var p := DenseProduct(scalars, a, b, rows, columns, depth);
    assert p.Cell(i, j) == i * columns + j;
    hide Product.Fold, PlainFold;
  }

  /** Two kernels, run on buffers with the same contents, leave the same contents. */
  method CompareOrders<T(==)>(first: Order, second: Order, scalars: Scalars<T>, a: seq<T>, b: seq<T>,
                              c: array<T>, d: array<T>, rows: nat, columns: nat, depth: nat)
    requires |a| == rows * depth && |b| == depth * columns && c.Length == rows * columns
    requires c != d && c[..] == d[..]
    modifies c, d
    ensures c[..] == d[..]
  {
    ghost var p, start := DenseProduct(scalars, a, b, rows, columns, depth), c[..];
    DenseGemm(first, scalars, a, b, c, rows, columns, depth);
    DenseGemm(second, scalars, a, b, d, rows, columns, depth);
    ComputedUnique(p, start, c[..], d[..]);
  }

  // ----- over the integers -----

  function Integers(): Scalars<int> {
    Scalars((a: int, b: int) => a + b, (a: int, b: int) => a * b)
  }

  function RowTimesColumn(left: Matrix<int>, right: Matrix<int>, i: nat, j: nat, n: nat): int
    requires forall k :: 0 <= k < n ==> left.Index(i, k) < |left.data| && right.Index(k, j) < |right.data|
  {
    if n == 0 then 0 else RowTimesColumn(left, right, i, j, n - 1) + left.At(i, n - 1) * right.At(n - 1, j)
  }

  /** Over the integers a cell gains the true matrix product. */
  lemma {:induction false} FoldIsProduct(p: Product<int>, start: int, i: nat, j: nat, n: nat)
    requires p.scalars == Integers() && p.left.Covers(p.rows, p.depth) && p.right.Covers(p.depth, p.columns)
    requires i < p.rows && j < p.columns && n <= p.depth
    ensures p.Fold(start, i, j, n) == start + RowTimesColumn(p.left, p.right, i, j, n)
  {
    if n > 0 {
      FoldIsProduct(p, start, i, j, n - 1);
    }
  }
}
