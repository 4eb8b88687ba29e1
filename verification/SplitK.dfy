/**
 Tiled products whose inner dimension is split into parts, over the integers
 (`benchmarks/cpu/attention_bmm/qk_brgemm_dataflow.cpp`, `benchmarks/cpu/attention_bmm/pv_brgemm_dataflow.cpp`).

 A query-key dataflow has row-major queries and tiled scores; a probability-value dataflow has tiled
 probabilities and a row-major output.  The right operand is packed tile by tile in both.
 */
module SplitK {
  import opened Indexing
  import opened LoopOrders

  const TILE: nat := 64

  datatype Kind = QueryKey | ProbabilityValue

  /** `rows * columns` tiles of output, each the sum of `parts` products of depth `chunk`. */
  datatype Dataflow = Dataflow(kind: Kind, rows: nat, columns: nat, parts: nat, chunk: nat,
                               left: seq<int>, raw: seq<int>)
  {
    ghost predicate Valid() {
      && chunk > 0 && (kind == ProbabilityValue ==> chunk == TILE)
      && |left| == (rows * TILE) * (parts * chunk)
      && |raw| == PackedSize()
    }

    function Depth(): nat { parts * chunk }

    function Width(): nat { columns * TILE }

    function PackedSize(): nat { parts * columns * (chunk * TILE) }

    function OutputSize(): nat { (rows * TILE) * (columns * TILE) }

    // ----- the operands as matrices -----

    /** The tile of the left operand that meets part `s`. */
    function LeftTile(r: nat, s: nat): Matrix<int> {
      if kind == QueryKey then Matrix(left, r * TILE * Depth() + s * chunk, Depth(), 1)
      else Matrix(left, (r * parts + s) * TILE * TILE, TILE, 1)
    }

    /** Where part `s` of tile column `c` is packed. */
    function PackedBase(s: nat, c: nat): nat { (s * columns + c) * (chunk * TILE) }

    function RightTile(packed: seq<int>, s: nat, c: nat): Matrix<int> {
      Matrix(packed, PackedBase(s, c), TILE, 1)
    }

    /** The rows packing reads: keys transposed, values as they are. */
    function RawTile(s: nat, c: nat): Matrix<int> {
      if kind == QueryKey then Matrix(raw, c * TILE * Depth() + s * chunk, 1, Depth())
      else Matrix(raw, s * TILE * Width() + c * TILE, Width(), 1)
    }

    /** The whole right operand. */
    function RawMatrix(): Matrix<int> {
      if kind == QueryKey then Matrix(raw, 0, 1, Depth()) else Matrix(raw, 0, Width(), 1)
    }

    /** Where entry `(q, t)` of the whole left operand is. */
    function LeftIndex(q: nat, t: nat): nat {
      if kind == QueryKey then q * Depth() + t
      else (Quotient(q, TILE) * parts + Quotient(t, TILE)) * TILE * TILE + Remainder(q, TILE) * TILE + Remainder(t, TILE)
    }

    // ----- the output -----

    function OutBase(r: nat, c: nat): nat {
      if kind == QueryKey then (r * columns + c) * TILE * TILE else r * TILE * Width() + c * TILE
    }

    function OutStride(): nat {
      if kind == QueryKey then TILE else Width()
    }

    function Cell(r: nat, c: nat, i: nat, j: nat): nat {
      PlaceAt(OutBase(r, c), OutStride(), i, j)
    }
  }

  /** A place of a tile whose rows are `stride` apart. */
  function PlaceAt(base: nat, stride: nat, i: nat, j: nat): nat {
    base + i * stride + j
  }

  predicate InTile(i: int, j: int) {
    0 <= i < TILE && 0 <= j < TILE
  }

  // ----- cells -----

  lemma RowMajorCell(f: Dataflow, r: nat, c: nat, i: nat, j: nat)
    requires f.kind == ProbabilityValue
    ensures f.Cell(r, c, i, j) == (r * TILE + i) * f.Width() + (c * TILE + j)
  {
    Distribute(r * TILE, i, f.Width());
  }

  /** Tile cells are inside the output, and no two of them share a place. */
  lemma CellInside(f: Dataflow, r: nat, c: nat, i: nat, j: nat)
    requires r < f.rows && c < f.columns && InTile(i, j)
    ensures f.Cell(r, c, i, j) < f.OutputSize()
  {
    if f.kind == QueryKey {
      JoinBound(r, c, f.rows, f.columns);
      Reassociate(f.rows, f.columns);
    } else {
      RowMajorCell(f, r, c, i, j);
      JoinBound(r * TILE + i, c * TILE + j, f.rows * TILE, f.Width());
    }
  }

  lemma Reassociate(a: nat, b: nat)
    ensures (a * TILE) * (b * TILE) == (a * b) * TILE * TILE
  {
    assert (a * TILE) * (b * TILE) == (a * b) * (TILE * TILE);
  }

  lemma CellInjective(f: Dataflow, r: nat, c: nat, i: nat, j: nat, r': nat, c': nat, i': nat, j': nat)
    requires c < f.columns && c' < f.columns && InTile(i, j) && InTile(i', j')
    requires f.Cell(r, c, i, j) == f.Cell(r', c', i', j')
    ensures r == r' && c == c' && i == i' && j == j'
  {
    if f.kind == QueryKey {
      TilesSeparate(r * f.columns + c, i, j, r' * f.columns + c', i', j');
      JoinInjective(r, c, r', c', f.columns);
    } else {
      RowMajorCell(f, r, c, i, j);
      RowMajorCell(f, r', c', i', j');
      JoinInjective(r * TILE + i, c * TILE + j, r' * TILE + i', c' * TILE + j', f.Width());
    }
  }

  lemma TilesSeparate(a: int, i: nat, j: nat, a': int, i': nat, j': nat)
    requires InTile(i, j) && InTile(i', j') && a * TILE * TILE + i * TILE + j == a' * TILE * TILE + i' * TILE + j'
    ensures a == a' && i == i' && j == j'
  {
  }

  // ----- operands -----

  lemma LeftInside(f: Dataflow, r: nat, s: nat, i: nat, p: nat)
    requires f.Valid() && r < f.rows && s < f.parts && i < TILE && p < f.chunk
    ensures f.LeftTile(r, s).Index(i, p) == f.LeftIndex(r * TILE + i, s * f.chunk + p) < |f.left|
  {
    JoinBound(s, p, f.parts, f.chunk);
    if f.kind == QueryKey {
      Distribute(r * TILE, i, f.Depth());
      JoinBound(r * TILE + i, s * f.chunk + p, f.rows * TILE, f.Depth());
    } else {
      JoinSplit(r, i, TILE);
      JoinSplit(s, p, TILE);
      JoinBound(r, s, f.rows, f.parts);
      Reassociate(f.rows, f.parts);
    }
  }

  lemma PackedInside(f: Dataflow, s: nat, c: nat, p: nat, j: nat)
    requires s < f.parts && c < f.columns && p < f.chunk && j < TILE
    ensures f.PackedBase(s, c) + p * TILE + j < f.PackedSize()
  {
    JoinBound(p, j, f.chunk, TILE);
    JoinBound(s, c, f.parts, f.columns);
    JoinBound(s * f.columns + c, p * TILE + j, f.parts * f.columns, f.chunk * TILE);
  }

  lemma SizesEqual(f: Dataflow)
    ensures f.PackedSize() == f.Width() * f.Depth() == f.Depth() * f.Width()
  {
    Exchange(f.parts, f.columns, f.chunk);
  }

  lemma Exchange(a: nat, b: nat, c: nat)
    ensures a * b * (c * TILE) == (b * TILE) * (a * c)
    ensures (b * TILE) * (a * c) == (a * c) * (b * TILE)
  {
    assert a * b * (c * TILE) == (a * b * c) * TILE;
    assert (b * TILE) * (a * c) == (b * (a * c)) * TILE;
    assert b * (a * c) == a * b * c;
  }

  lemma RawInside(f: Dataflow, s: nat, c: nat, p: nat, j: nat)
    requires f.Valid() && s < f.parts && c < f.columns && p < f.chunk && j < TILE
    ensures f.RawTile(s, c).Index(p, j) == f.RawMatrix().Index(s * f.chunk + p, c * TILE + j) < |f.raw|
  {
    SizesEqual(f);
    JoinBound(s, p, f.parts, f.chunk);
    if f.kind == QueryKey {
      Distribute(c * TILE, j, f.Depth());
      JoinBound(c * TILE + j, s * f.chunk + p, f.Width(), f.Depth());
    } else {
      Distribute(s * TILE, p, f.Width());
      JoinBound(s * TILE + p, c * TILE + j, f.Depth(), f.Width());
    }
  }

  // ----- packing -----

  /** One tile of the right operand, as packed. */
  ghost predicate PackedTile(f: Dataflow, packed: seq<int>, s: nat, c: nat)
    requires f.Valid() && s < f.parts && c < f.columns && |packed| == f.PackedSize()
  {
    forall p, j :: 0 <= p < f.chunk && 0 <= j < TILE ==>
      && f.RawTile(s, c).Index(p, j) < |f.raw|
      && f.RightTile(packed, s, c).Index(p, j) < |packed|
      && f.RightTile(packed, s, c).At(p, j) == f.RawTile(s, c).At(p, j)
  }

  ghost predicate Packed(f: Dataflow, packed: seq<int>)
    requires f.Valid()
  {
    |packed| == f.PackedSize() && forall s, c :: 0 <= s < f.parts && 0 <= c < f.columns ==> PackedTile(f, packed, s, c)
  }

  /** One execution of the packing transform: `depth` rows of a tile, written one after the other. */
  method PackTile(input: Matrix<int>, depth: nat, out: array<int>, base: nat)
    requires input.Covers(depth, TILE) && base + depth * TILE <= out.Length
    modifies out
    ensures forall p, j :: 0 <= p < depth && 0 <= j < TILE ==>
      input.Index(p, j) < |input.data| && out[base + p * TILE + j] == input.At(p, j)
    ensures forall x :: 0 <= x < out.Length && !(base <= x < base + depth * TILE) ==> out[x] == old(out[x])
  {
    for p := 0 to depth
      invariant forall q, j :: 0 <= q < p && 0 <= j < TILE ==>
        input.Index(q, j) < |input.data| && out[base + q * TILE + j] == input.At(q, j)
      invariant forall x :: 0 <= x < out.Length && !(base <= x < base + p * TILE) ==> out[x] == old(out[x])
    {
      for j := 0 to TILE
        invariant forall q, k :: 0 <= q < depth && 0 <= k < TILE && (q < p || (q == p && k < j)) ==>
          input.Index(q, k) < |input.data| && out[base + q * TILE + k] == input.At(q, k)
        invariant forall x :: 0 <= x < out.Length && !(base <= x < base + p * TILE + j) ==> out[x] == old(out[x])
      {
        out[base + p * TILE + j] := input.At(p, j);
      }
    }
  }

  lemma RawCovers(f: Dataflow, s: nat, c: nat)
    requires f.Valid() && s < f.parts && c < f.columns
    ensures f.RawTile(s, c).Covers(f.chunk, TILE)
    ensures f.PackedBase(s, c) + f.chunk * TILE <= f.PackedSize()
  {
    forall p, j | 0 <= p < f.chunk && 0 <= j < TILE
      ensures f.RawTile(s, c).Index(p, j) < |f.raw|
    {
      RawInside(f, s, c, p, j);
    }
    PackedInside(f, s, c, f.chunk - 1, TILE - 1);
  }

  /** Writing one tile leaves every other tile as it was. */
  lemma PackKeeps(f: Dataflow, before: seq<int>, after: seq<int>, s: nat, c: nat, s': nat, c': nat)
    requires f.Valid() && s < f.parts && c < f.columns && s' < f.parts && c' < f.columns
    requires s != s' || c != c'
    requires |before| == |after| == f.PackedSize() && PackedTile(f, before, s', c')
    requires forall x :: 0 <= x < |after| && !(f.PackedBase(s, c) <= x < f.PackedBase(s, c) + f.chunk * TILE) ==>
      after[x] == before[x]
    ensures PackedTile(f, after, s', c')
  {
    forall p, j | 0 <= p < f.chunk && 0 <= j < TILE
      ensures f.RightTile(after, s', c').Index(p, j) < |after|
      ensures f.RightTile(after, s', c').At(p, j) == f.RightTile(before, s', c').At(p, j)
    {
      PackedInside(f, s', c', p, j);
      TilesApart(f, s, c, s', c', p, j);
    }
  }

  lemma TilesApart(f: Dataflow, s: nat, c: nat, s': nat, c': nat, p: nat, j: nat)
    requires c < f.columns && c' < f.columns && (s != s' || c != c') && p < f.chunk && j < TILE
    ensures var x := f.PackedBase(s', c') + p * TILE + j;
            !(f.PackedBase(s, c) <= x < f.PackedBase(s, c) + f.chunk * TILE)
  {
    var tile, tile', size := s * f.columns + c, s' * f.columns + c', f.chunk * TILE;
    if tile == tile' {
      JoinInjective(s, c, s', c', f.columns);
    }
    var within := p * TILE + j;
    var x := tile' * size + within;
    if tile * size <= x < tile * size + size {
      JoinInjective(tile', within, tile, x - tile * size, size);
    }
  }

  /** One tile is packed, the others keep what they hold. */
  method PackOne(f: Dataflow, packed: array<int>, s: nat, c: nat)
    requires f.Valid() && s < f.parts && c < f.columns && packed.Length == f.PackedSize()
    modifies packed
    ensures PackedTile(f, packed[..], s, c)
    ensures forall s', c' :: 0 <= s' < f.parts && 0 <= c' < f.columns && (s != s' || c != c') ==>
      PackedTile(f, old(packed[..]), s', c') ==> PackedTile(f, packed[..], s', c')
  {
    RawCovers(f, s, c);
    ghost var before := packed[..];
    PackTile(f.RawTile(s, c), f.chunk, packed, f.PackedBase(s, c));
    forall s', c' | 0 <= s' < f.parts && 0 <= c' < f.columns && (s != s' || c != c') && PackedTile(f, before, s', c')
      ensures PackedTile(f, packed[..], s', c')
    {
      PackKeeps(f, before, packed[..], s, c, s', c');
    }
  }

  /** `prepare_keys`, key tile by key tile. */
  method PrepareKeys(f: Dataflow, packed: array<int>)
    requires f.Valid() && packed.Length == f.PackedSize()
    modifies packed
    ensures Packed(f, packed[..])
  {
    for c := 0 to f.columns
      invariant forall s', c' :: 0 <= s' < f.parts && 0 <= c' < c ==> PackedTile(f, packed[..], s', c')
    {
      for s := 0 to f.parts
        invariant forall s', c' :: 0 <= s' < f.parts && 0 <= c' < f.columns && (c' < c || (c' == c && s' < s)) ==>
          PackedTile(f, packed[..], s', c')
      {
        PackOne(f, packed, s, c);
      }
    }
  }

  /** `prepare_values`, value block by value block. */
  method PrepareValues(f: Dataflow, packed: array<int>)
    requires f.Valid() && packed.Length == f.PackedSize()
    modifies packed
    ensures Packed(f, packed[..])
  {
    for s := 0 to f.parts
      invariant forall s', c' :: 0 <= s' < s && 0 <= c' < f.columns ==> PackedTile(f, packed[..], s', c')
    {
      for c := 0 to f.columns
        invariant forall s', c' :: 0 <= s' < f.parts && 0 <= c' < f.columns && (s' < s || (s' == s && c' < c)) ==>
          PackedTile(f, packed[..], s', c')
      {
        PackOne(f, packed, s, c);
      }
    }
  }

  // ----- the kernel -----

  /** A place in the tile at `base`. */
  ghost predicate Covered(base: nat, stride: nat, x: int) {
    exists i, j :: InTile(i, j) && x == PlaceAt(base, stride, i, j)
  }

  lemma PlacesApart(base: nat, stride: nat, i: nat, j: nat, i': nat, j': nat)
    requires stride >= TILE && InTile(i, j) && InTile(i', j')
    requires PlaceAt(base, stride, i, j) == PlaceAt(base, stride, i', j')
    ensures i == i' && j == j'
  {
    JoinInjective(i, j, i', j', stride);
  }

  /** Value of a place of the tile once its product was added to, or put in place of, what was there. */
  function Updated(left: Matrix<int>, right: Matrix<int>, depth: nat, addC: bool, was: int, i: nat, j: nat): int
    requires left.Covers(TILE, depth) && right.Covers(depth, TILE) && InTile(i, j)
  {
    (if addC then was else 0) + RowTimesColumn(left, right, i, j, depth)
  }

  /** The places before `(row, column)` are updated, all others are as they were. */
  ghost predicate UpdatedTo(left: Matrix<int>, right: Matrix<int>, depth: nat, addC: bool, was: seq<int>, now: seq<int>,
                            base: nat, stride: nat, row: nat, column: nat)
    requires left.Covers(TILE, depth) && right.Covers(depth, TILE)
    requires |now| == |was| && forall i, j :: InTile(i, j) ==> PlaceAt(base, stride, i, j) < |was|
  {
    && (forall i, j :: InTile(i, j) ==>
         now[PlaceAt(base, stride, i, j)]
         == if i < row || (i == row && j < column)
            then Updated(left, right, depth, addC, was[PlaceAt(base, stride, i, j)], i, j)
            else was[PlaceAt(base, stride, i, j)])
    && forall x :: 0 <= x < |now| && !Covered(base, stride, x) ==> now[x] == was[x]
  }

  lemma UpdateNext(left: Matrix<int>, right: Matrix<int>, depth: nat, addC: bool, was: seq<int>, now: seq<int>,
                   base: nat, stride: nat, row: nat, column: nat, place: nat, value: int)
    requires left.Covers(TILE, depth) && right.Covers(depth, TILE) && stride >= TILE && InTile(row, column)
    requires |now| == |was| && forall i, j :: InTile(i, j) ==> PlaceAt(base, stride, i, j) < |was|
    requires UpdatedTo(left, right, depth, addC, was, now, base, stride, row, column)
    requires place == PlaceAt(base, stride, row, column) < |now|
    requires value == Updated(left, right, depth, addC, was[place], row, column)
    ensures UpdatedTo(left, right, depth, addC, was, now[place := value], base, stride, row, column + 1)
  {
    hide Updated, PlaceAt;
    var after := now[place := value];
    forall i, j | InTile(i, j)
      ensures after[PlaceAt(base, stride, i, j)]
              == if i < row || (i == row && j < column + 1)
                 then Updated(left, right, depth, addC, was[PlaceAt(base, stride, i, j)], i, j)
                 else was[PlaceAt(base, stride, i, j)]
    {
      if PlaceAt(base, stride, i, j) == place {
        PlacesApart(base, stride, i, j, row, column);
      }
    }
    assert Covered(base, stride, place);
  }

  /**
   One batch-reduce product: a tile gains (`addC`) or becomes the product of two operands `depth`
   deep; nothing outside the tile changes.
   */
  method Brgemm(left: Matrix<int>, right: Matrix<int>, depth: nat, addC: bool, out: array<int>, base: nat, stride: nat)
    requires left.Covers(TILE, depth) && right.Covers(depth, TILE) && stride >= TILE
    requires forall i, j :: InTile(i, j) ==> PlaceAt(base, stride, i, j) < out.Length
    modifies out
    ensures forall i, j :: InTile(i, j) ==>
      out[PlaceAt(base, stride, i, j)]
      == (if addC then old(out[PlaceAt(base, stride, i, j)]) else 0) + RowTimesColumn(left, right, i, j, depth)
    ensures forall x :: 0 <= x < out.Length && !Covered(base, stride, x) ==> out[x] == old(out[x])
  {
    ghost var was := out[..];
    for i := 0 to TILE
      invariant UpdatedTo(left, right, depth, addC, was, out[..], base, stride, i, 0)
    {
      for j := 0 to TILE
        invariant UpdatedTo(left, right, depth, addC, was, out[..], base, stride, i, j)
      {
        assert InTile(i, j);
        var place := PlaceAt(base, stride, i, j);
        var sum := Accumulate(left, right, depth, i, j);
        ghost var now := out[..];
        out[place] := (if addC then out[place] else 0) + sum;
        UpdateNext(left, right, depth, addC, was, now, base, stride, i, j, place, out[place]);
        assert out[..] == now[place := out[place]];
      }
    }
  }

  /** One element of the product, summed up before it reaches the output. */
  method Accumulate(left: Matrix<int>, right: Matrix<int>, depth: nat, i: nat, j: nat) returns (sum: int)
    requires left.Covers(TILE, depth) && right.Covers(depth, TILE) && InTile(i, j)
    ensures sum == RowTimesColumn(left, right, i, j, depth)
  {
    sum := 0;
    for p := 0 to depth
      invariant sum == RowTimesColumn(left, right, i, j, p)
    {
      sum := sum + left.At(i, p) * right.At(p, j);
    }
  }

  // ----- the traversals -----

  lemma LeftCovers(f: Dataflow, r: nat, s: nat)
    requires f.Valid() && r < f.rows && s < f.parts
    ensures f.LeftTile(r, s).Covers(TILE, f.chunk)
  {
    forall i, p | 0 <= i < TILE && 0 <= p < f.chunk
      ensures f.LeftTile(r, s).Index(i, p) < |f.left|
    {
      LeftInside(f, r, s, i, p);
    }
  }

  lemma RightCovers(f: Dataflow, packed: seq<int>, s: nat, c: nat)
    requires f.Valid() && s < f.parts && c < f.columns && |packed| == f.PackedSize()
    ensures f.RightTile(packed, s, c).Covers(f.chunk, TILE)
  {
    forall p, j | 0 <= p < f.chunk && 0 <= j < TILE
      ensures f.RightTile(packed, s, c).Index(p, j) < |packed|
    {
      PackedInside(f, s, c, p, j);
    }
  }

  /** What part `s` contributes to one cell. */
  function Part(f: Dataflow, packed: seq<int>, r: nat, c: nat, i: nat, j: nat, s: nat): int
    requires f.Valid() && |packed| == f.PackedSize() && r < f.rows && c < f.columns && InTile(i, j) && s < f.parts
  {
    LeftCovers(f, r, s);
    RightCovers(f, packed, s, c);
    RowTimesColumn(f.LeftTile(r, s), f.RightTile(packed, s, c), i, j, f.chunk)
  }

  function PartSum(f: Dataflow, packed: seq<int>, r: nat, c: nat, i: nat, j: nat, n: nat): int
    requires f.Valid() && |packed| == f.PackedSize() && r < f.rows && c < f.columns && InTile(i, j) && n <= f.parts
  {
    if n == 0 then 0 else PartSum(f, packed, r, c, i, j, n - 1) + Part(f, packed, r, c, i, j, n - 1)
  }

  /** How many parts every tile has taken; an overwriting kernel takes a single part. */
  ghost predicate Progress(f: Dataflow, packed: seq<int>, addC: bool, start: seq<int>, now: seq<int>, done: seq<seq<nat>>)
    requires f.Valid() && |packed| == f.PackedSize()
  {
    && |now| == |start| == f.OutputSize() && |done| == f.rows
    && (forall r :: 0 <= r < |done| ==> |done[r]| == f.columns)
    && (forall r, c :: 0 <= r < |done| && 0 <= c < |done[r]| ==> done[r][c] <= f.parts)
    && forall r, c :: 0 <= r < |done| && 0 <= c < |done[r]| ==> TileAt(f, packed, addC, start, now, r, c, done[r][c])
  }

  /** A tile that has taken its first `n` parts. */
  ghost predicate TileAt(f: Dataflow, packed: seq<int>, addC: bool, start: seq<int>, now: seq<int>,
                         r: nat, c: nat, n: nat)
    requires f.Valid() && |packed| == f.PackedSize() && |now| == |start| == f.OutputSize()
    requires r < f.rows && c < f.columns && n <= f.parts
  {
    forall i, j :: InTile(i, j) ==>
      && f.Cell(r, c, i, j) < |now|
      && now[f.Cell(r, c, i, j)]
         == (if addC || n == 0 then start[f.Cell(r, c, i, j)] else 0) + PartSum(f, packed, r, c, i, j, n)
  }

  /** The places of a tile belong to it alone. */
  lemma TileKept(f: Dataflow, packed: seq<int>, addC: bool, start: seq<int>, now: seq<int>, after: seq<int>,
                 r: nat, c: nat, r': nat, c': nat, n: nat)
    requires f.Valid() && |packed| == f.PackedSize() && |now| == |start| == |after| == f.OutputSize()
    requires r < f.rows && c < f.columns && r' < f.rows && c' < f.columns && n <= f.parts && (r != r' || c != c')
    requires TileAt(f, packed, addC, start, now, r', c', n)
    requires forall x :: 0 <= x < |after| && !Covered(f.OutBase(r, c), f.OutStride(), x) ==> after[x] == now[x]
    ensures TileAt(f, packed, addC, start, after, r', c', n)
  {
    forall i, j | InTile(i, j)
      ensures f.Cell(r', c', i, j) < |after| && after[f.Cell(r', c', i, j)] == now[f.Cell(r', c', i, j)]
    {
      CellInside(f, r', c', i, j);
      if Covered(f.OutBase(r, c), f.OutStride(), f.Cell(r', c', i, j)) {
        var k, l :| InTile(k, l) && f.Cell(r', c', i, j) == PlaceAt(f.OutBase(r, c), f.OutStride(), k, l);
        CellInjective(f, r, c, k, l, r', c', i, j);
        assert false;
      }
    }
  }

  /** One kernel execution. */
  method Execute(f: Dataflow, packed: seq<int>, addC: bool, out: array<int>, r: nat, s: nat, c: nat,
                 ghost start: seq<int>, ghost done: seq<seq<nat>>) returns (ghost next: seq<seq<nat>>)
    requires f.Valid() && |packed| == f.PackedSize() && r < f.rows && s < f.parts && c < f.columns
    requires Progress(f, packed, addC, start, out[..], done) && done[r][c] == s && (addC || s == 0)
    modifies out
    ensures next == Advanced(done, r, c) && Progress(f, packed, addC, start, out[..], next)
  {
    ghost var now := out[..];
    next := Advanced(done, r, c);
    ExecuteTile(f, packed, addC, out, r, s, c, start);
    forall r', c' | 0 <= r' < |next| && 0 <= c' < |next[r']|
      ensures TileAt(f, packed, addC, start, out[..], r', c', next[r'][c'])
    {
      if r != r' || c != c' {
        assert TileAt(f, packed, addC, start, now, r', c', done[r'][c']);
        TileKept(f, packed, addC, start, now, out[..], r, c, r', c', done[r'][c']);
      }
    }
  }

  method ExecuteTile(f: Dataflow, packed: seq<int>, addC: bool, out: array<int>, r: nat, s: nat, c: nat,
                     ghost start: seq<int>)
    requires f.Valid() && |packed| == f.PackedSize() && r < f.rows && s < f.parts && c < f.columns
    requires |start| == out.Length == f.OutputSize() && (addC || s == 0)
    requires TileAt(f, packed, addC, start, out[..], r, c, s)
    modifies out
    ensures TileAt(f, packed, addC, start, out[..], r, c, s + 1)
    ensures forall x :: 0 <= x < out.Length && !Covered(f.OutBase(r, c), f.OutStride(), x) ==> out[x] == old(out[x])
  {
    hide TileAt, Covered, RowTimesColumn;
    LeftCovers(f, r, s);
    RightCovers(f, packed, s, c);
    TileFits(f, r, c);
    ghost var now := out[..];
    Brgemm(f.LeftTile(r, s), f.RightTile(packed, s, c), f.chunk, addC, out, f.OutBase(r, c), f.OutStride());
    TileAdded(f, packed, addC, start, now, out[..], r, c, s);
  }

  lemma TileAdded(f: Dataflow, packed: seq<int>, addC: bool, start: seq<int>, now: seq<int>, after: seq<int>,
                  r: nat, c: nat, s: nat)
    requires f.Valid() && |packed| == f.PackedSize() && r < f.rows && s < f.parts && c < f.columns
    requires |now| == |start| == |after| == f.OutputSize() && (addC || s == 0)
    requires TileAt(f, packed, addC, start, now, r, c, s)
    requires f.LeftTile(r, s).Covers(TILE, f.chunk) && f.RightTile(packed, s, c).Covers(f.chunk, TILE)
    requires forall i, j :: InTile(i, j) ==>
      && f.Cell(r, c, i, j) < |after|
      && after[f.Cell(r, c, i, j)] == (if addC then now[f.Cell(r, c, i, j)] else 0)
                                      + RowTimesColumn(f.LeftTile(r, s), f.RightTile(packed, s, c), i, j, f.chunk)
    ensures TileAt(f, packed, addC, start, after, r, c, s + 1)
  {
    forall i, j | InTile(i, j)
      ensures after[f.Cell(r, c, i, j)]
              == (if addC then start[f.Cell(r, c, i, j)] else 0) + PartSum(f, packed, r, c, i, j, s + 1)
    {
      AddPart(f, packed, addC, start, now, after, r, c, i, j, s, f.Cell(r, c, i, j));
    }
  }

  lemma AddPart(f: Dataflow, packed: seq<int>, addC: bool, start: seq<int>, now: seq<int>, after: seq<int>,
                r: nat, c: nat, i: nat, j: nat, s: nat, cell: nat)
    requires f.Valid() && |packed| == f.PackedSize() && r < f.rows && s < f.parts && c < f.columns && InTile(i, j)
    requires |now| == |start| == |after| == f.OutputSize() && cell == f.Cell(r, c, i, j) < |now| && (addC || s == 0)
    requires TileAt(f, packed, addC, start, now, r, c, s)
    requires f.LeftTile(r, s).Covers(TILE, f.chunk) && f.RightTile(packed, s, c).Covers(f.chunk, TILE)
    requires after[cell] == (if addC then now[cell] else 0)
                            + RowTimesColumn(f.LeftTile(r, s), f.RightTile(packed, s, c), i, j, f.chunk)
    ensures after[cell] == (if addC then start[cell] else 0) + PartSum(f, packed, r, c, i, j, s + 1)
  {
    assert Part(f, packed, r, c, i, j, s)
           == RowTimesColumn(f.LeftTile(r, s), f.RightTile(packed, s, c), i, j, f.chunk);
  }

  lemma TileFits(f: Dataflow, r: nat, c: nat)
    requires r < f.rows && c < f.columns
    ensures f.OutStride() >= TILE
    ensures forall i, j :: InTile(i, j) ==> PlaceAt(f.OutBase(r, c), f.OutStride(), i, j) < f.OutputSize()
  {
    forall i, j | InTile(i, j)
      ensures PlaceAt(f.OutBase(r, c), f.OutStride(), i, j) < f.OutputSize()
    {
      CellInside(f, r, c, i, j);
    }
  }

  ghost function NoParts(f: Dataflow): (done: seq<seq<nat>>)
    ensures |done| == f.rows && forall r :: 0 <= r < |done| ==> |done[r]| == f.columns
    ensures forall r, c :: 0 <= r < |done| && 0 <= c < |done[r]| ==> done[r][c] == 0
  {
    seq(f.rows, _ => seq(f.columns, _ => 0))
  }

  lemma Begin(f: Dataflow, packed: seq<int>, addC: bool, start: seq<int>)
    requires f.Valid() && |packed| == f.PackedSize() && |start| == f.OutputSize()
    ensures Progress(f, packed, addC, start, start, NoParts(f))
  {
    forall r, c, i, j | 0 <= r < f.rows && 0 <= c < f.columns && InTile(i, j)
      ensures f.Cell(r, c, i, j) < |start|
    {
      CellInside(f, r, c, i, j);
    }
  }

  /** `run_ikj`: tile row, part, tile column. */
  method RunIKJ(f: Dataflow, packed: seq<int>, out: array<int>)
    requires f.Valid() && Packed(f, packed) && out.Length == f.OutputSize()
    modifies out
    ensures Multiplied(f, true, old(out[..]), out[..])
    ensures forall q: nat, d: nat :: q < f.rows * TILE && d < f.columns * TILE ==>
      ElementIs(f, true, old(out[..]), out[..], q, d)
  {
    ghost var start, done := out[..], NoParts(f);
    Begin(f, packed, true, start);
    for r := 0 to f.rows
      invariant Progress(f, packed, true, start, out[..], done) && RowSweeps(done, f.parts, r, 0, 0)
    {
      for s := 0 to f.parts
        invariant Progress(f, packed, true, start, out[..], done) && RowSweeps(done, f.parts, r, s, 0)
      {
        for c := 0 to f.columns
          invariant Progress(f, packed, true, start, out[..], done) && RowSweeps(done, f.parts, r, s, c)
        {
          done := Execute(f, packed, true, out, r, s, c, start, done);
        }
      }
    }
    Finish(f, packed, true, start, out[..], done);
    ElementsAre(f, true, start, out[..]);
  }

  /** `run_kij`: part, tile row, tile column. */
  method RunKIJ(f: Dataflow, packed: seq<int>, out: array<int>)
    requires f.Valid() && Packed(f, packed) && out.Length == f.OutputSize()
    modifies out
    ensures Multiplied(f, true, old(out[..]), out[..])
    ensures forall q: nat, d: nat :: q < f.rows * TILE && d < f.columns * TILE ==>
      ElementIs(f, true, old(out[..]), out[..], q, d)
  {
    ghost var start, done := out[..], NoParts(f);
    Begin(f, packed, true, start);
    for s := 0 to f.parts
      invariant Progress(f, packed, true, start, out[..], done) && RowLayers(done, s, 0, 0)
    {
      for r := 0 to f.rows
        invariant Progress(f, packed, true, start, out[..], done) && RowLayers(done, s, r, 0)
      {
        for c := 0 to f.columns
          invariant Progress(f, packed, true, start, out[..], done) && RowLayers(done, s, r, c)
        {
          done := Execute(f, packed, true, out, r, s, c, start, done);
        }
      }
    }
    Finish(f, packed, true, start, out[..], done);
    ElementsAre(f, true, start, out[..]);
  }

  /** `run_pace_fullk`: one part as deep as the whole product, overwriting what was there. */
  method RunFullK(f: Dataflow, packed: seq<int>, out: array<int>)
    requires f.Valid() && f.parts == 1 && Packed(f, packed) && out.Length == f.OutputSize()
    modifies out
    ensures Multiplied(f, false, old(out[..]), out[..])
    ensures forall q: nat, d: nat :: q < f.rows * TILE && d < f.columns * TILE ==>
      ElementIs(f, false, old(out[..]), out[..], q, d)
  {
    ghost var start, done := out[..], NoParts(f);
    Begin(f, packed, false, start);
    for r := 0 to f.rows
      invariant Progress(f, packed, false, start, out[..], done) && RowLayers(done, 0, r, 0)
    {
      for c := 0 to f.columns
        invariant Progress(f, packed, false, start, out[..], done) && RowLayers(done, 0, r, c)
      {
        done := Execute(f, packed, false, out, r, 0, c, start, done);
      }
    }
    Finish(f, packed, false, start, out[..], done);
    ElementsAre(f, false, start, out[..]);
  }

  // ----- the true product -----

  lemma WholeInside(f: Dataflow, q: nat, t: nat, d: nat)
    requires f.Valid() && q < f.rows * TILE && t < f.Depth() && d < f.Width()
    ensures f.LeftIndex(q, t) < |f.left| && f.RawMatrix().Index(t, d) < |f.raw|
  {
    SplitBound(q, f.rows, TILE);
    SplitBound(t, f.parts, f.chunk);
    SplitBound(d, f.columns, TILE);
    LeftInside(f, q / TILE, t / f.chunk, q % TILE, t % f.chunk);
    RawInside(f, t / f.chunk, d / TILE, t % f.chunk, d % TILE);
  }

  /**
   The first `n` terms of one element of the untiled product, by plain indices: row-major queries against
   row-major keys, or probabilities tile by tile against row-major values.
   */
  function TrueProduct(f: Dataflow, q: nat, d: nat, n: nat): int
    requires f.Valid() && q < f.rows * TILE && d < f.columns * TILE && n <= f.parts * f.chunk
  {
    if n == 0 then 0
    else
      var t := n - 1;
      PlainTerm(f, q, t, d);
      TrueProduct(f, q, d, t)
      + if f.kind == QueryKey then f.left[q * (f.parts * f.chunk) + t] * f.raw[d * (f.parts * f.chunk) + t]
        else f.left[(q / 64 * f.parts + t / 64) * 64 * 64 + q % 64 * 64 + t % 64] * f.raw[t * (f.columns * 64) + d]
  }

  /** The operands' own indices are the plain ones. */
  lemma PlainTerm(f: Dataflow, q: nat, t: nat, d: nat)
    requires f.Valid() && q < f.rows * TILE && t < f.parts * f.chunk && d < f.columns * TILE
    ensures f.kind == QueryKey ==>
      && 0 <= q * (f.parts * f.chunk) + t == f.LeftIndex(q, t) < |f.left|
      && 0 <= d * (f.parts * f.chunk) + t == f.RawMatrix().Index(t, d) < |f.raw|
    ensures f.kind == ProbabilityValue ==>
      && 0 <= (q / TILE * f.parts + t / TILE) * TILE * TILE + q % TILE * TILE + t % TILE == f.LeftIndex(q, t) < |f.left|
      && 0 <= t * (f.columns * TILE) + d == f.RawMatrix().Index(t, d) < |f.raw|
  {
    WholeInside(f, q, t, d);
  }

  lemma NextTerm(f: Dataflow, q: nat, d: nat, n: nat, a: int, b: int)
    requires f.Valid() && q < f.rows * TILE && d < f.columns * TILE && n < f.parts * f.chunk
    requires f.LeftIndex(q, n) < |f.left| && a == f.left[f.LeftIndex(q, n)]
    requires f.RawMatrix().Index(n, d) < |f.raw| && b == f.RawMatrix().At(n, d)
    ensures TrueProduct(f, q, d, n + 1) == TrueProduct(f, q, d, n) + a * b
  {
    PlainTerm(f, q, n, d);
    hide Dataflow.LeftIndex;
  }

  /** Every cell of the output is an element of the true product, on top of what was there. */
  ghost predicate Multiplied(f: Dataflow, addC: bool, start: seq<int>, now: seq<int>)
    requires f.Valid()
  {
    && |now| == |start| == f.OutputSize()
    && forall r, c, i, j :: 0 <= r < f.rows && 0 <= c < f.columns && InTile(i, j) ==>
         && f.Cell(r, c, i, j) < |now|
         && now[f.Cell(r, c, i, j)] == (if addC then start[f.Cell(r, c, i, j)] else 0)
                                       + TrueProduct(f, r * TILE + i, c * TILE + j, f.Depth())
  }

  /** One element of the output by its row and column: in tiles of 64 by 64 for scores, row by row for an output. */
  ghost predicate ElementIs(f: Dataflow, addC: bool, start: seq<int>, now: seq<int>, q: nat, d: nat)
    requires f.Valid() && q < f.rows * TILE && d < f.columns * TILE
  {
    var x := if f.kind == QueryKey then (q / 64 * f.columns + d / 64) * 64 * 64 + q % 64 * 64 + d % 64
             else q * (f.columns * 64) + d;
    0 <= x < |start| == |now| && now[x] == (if addC then start[x] else 0) + TrueProduct(f, q, d, f.parts * f.chunk)
  }

  lemma MultipliedElement(f: Dataflow, addC: bool, start: seq<int>, now: seq<int>, q: nat, d: nat)
    requires f.Valid() && Multiplied(f, addC, start, now) && q < f.rows * TILE && d < f.columns * TILE
    ensures ElementIs(f, addC, start, now, q, d)
  {
    var r, c, i, j := q / TILE, d / TILE, q % TILE, d % TILE;
    assert r < f.rows && c < f.columns && InTile(i, j);
    if f.kind == ProbabilityValue {
      RowMajorCell(f, r, c, i, j);
    }
    hide TrueProduct;
    assert now[f.Cell(r, c, i, j)] == (if addC then start[f.Cell(r, c, i, j)] else 0)
                                      + TrueProduct(f, r * TILE + i, c * TILE + j, f.Depth());
  }

  lemma ElementsAre(f: Dataflow, addC: bool, start: seq<int>, now: seq<int>)
    requires f.Valid() && Multiplied(f, addC, start, now)
    ensures forall q: nat, d: nat :: q < f.rows * TILE && d < f.columns * TILE ==> ElementIs(f, addC, start, now, q, d)
  {
    forall q: nat, d: nat | q < f.rows * TILE && d < f.columns * TILE
      ensures ElementIs(f, addC, start, now, q, d)
    {
      MultipliedElement(f, addC, start, now, q, d);
    }
  }

  lemma TermsEqual(f: Dataflow, packed: seq<int>, r: nat, c: nat, i: nat, j: nat, s: nat, p: nat, t: nat)
    requires f.Valid() && Packed(f, packed) && r < f.rows && c < f.columns && InTile(i, j) && s < f.parts
    requires p < f.chunk && t == s * f.chunk + p < f.Depth()
    requires f.LeftTile(r, s).Covers(TILE, f.chunk) && f.RightTile(packed, s, c).Covers(f.chunk, TILE)
    ensures f.LeftIndex(r * TILE + i, t) < |f.left| && f.RawMatrix().Index(t, c * TILE + j) < |f.raw|
    ensures f.LeftTile(r, s).At(i, p) == f.left[f.LeftIndex(r * TILE + i, t)]
    ensures f.RightTile(packed, s, c).At(p, j) == f.RawMatrix().At(t, c * TILE + j)
  {
    LeftInside(f, r, s, i, p);
    RawInside(f, s, c, p, j);
    assert PackedTile(f, packed, s, c);
  }

  /** A part is a stretch of the true product. */
  lemma {:induction false} PartIsStretch(f: Dataflow, packed: seq<int>, r: nat, c: nat, i: nat, j: nat, s: nat,
                                         p: nat, from: nat, to: nat)
    requires f.Valid() && Packed(f, packed) && r < f.rows && c < f.columns && InTile(i, j) && s < f.parts
    requires p <= f.chunk && from == s * f.chunk && to == from + p <= f.Depth()
    requires f.LeftTile(r, s).Covers(TILE, f.chunk) && f.RightTile(packed, s, c).Covers(f.chunk, TILE)
    ensures TrueProduct(f, r * TILE + i, c * TILE + j, from)
            + RowTimesColumn(f.LeftTile(r, s), f.RightTile(packed, s, c), i, j, p)
            == TrueProduct(f, r * TILE + i, c * TILE + j, to)
  {
    if p == 0 {
      assert RowTimesColumn(f.LeftTile(r, s), f.RightTile(packed, s, c), i, j, 0) == 0 && from == to;
      hide *;
    } else {
      PartIsStretch(f, packed, r, c, i, j, s, p - 1, from, to - 1);
      TermsEqual(f, packed, r, c, i, j, s, p - 1, to - 1);
      var left, right := f.LeftTile(r, s), f.RightTile(packed, s, c);
      var a, b := left.At(i, p - 1), right.At(p - 1, j);
      NextTerm(f, r * TILE + i, c * TILE + j, to - 1, a, b);
      assert RowTimesColumn(left, right, i, j, p) == RowTimesColumn(left, right, i, j, p - 1) + a * b;
      hide *;
    }
  }

  lemma {:induction false} PartsAreProduct(f: Dataflow, packed: seq<int>, r: nat, c: nat, i: nat, j: nat, n: nat, to: nat)
    requires f.Valid() && Packed(f, packed) && r < f.rows && c < f.columns && InTile(i, j) && n <= f.parts
    requires to == n * f.chunk <= f.Depth()
    ensures PartSum(f, packed, r, c, i, j, n) == TrueProduct(f, r * TILE + i, c * TILE + j, to)
  {
    if n > 0 {
      NextMultiple(n - 1, f.chunk);
      PartsAreProduct(f, packed, r, c, i, j, n - 1, to - f.chunk);
      LeftCovers(f, r, n - 1);
      RightCovers(f, packed, n - 1, c);
      PartIsStretch(f, packed, r, c, i, j, n - 1, f.chunk, to - f.chunk, to);
    }
  }

  lemma Finish(f: Dataflow, packed: seq<int>, addC: bool, start: seq<int>, now: seq<int>, done: seq<seq<nat>>)
    requires f.Valid() && Packed(f, packed) && Progress(f, packed, addC, start, now, done) && (addC || f.parts == 1)
    requires forall r, c :: 0 <= r < |done| && 0 <= c < |done[r]| ==> done[r][c] == f.parts
    ensures Multiplied(f, addC, start, now)
  {
    forall r, c, i, j | 0 <= r < f.rows && 0 <= c < f.columns && InTile(i, j)
      ensures f.Cell(r, c, i, j) < |now|
      ensures now[f.Cell(r, c, i, j)] == (if addC then start[f.Cell(r, c, i, j)] else 0)
                                         + TrueProduct(f, r * TILE + i, c * TILE + j, f.Depth())
    {
      assert TileAt(f, packed, addC, start, now, r, c, done[r][c]);
      PartsAreProduct(f, packed, r, c, i, j, f.parts, f.Depth());
    }
  }

  // ----- comparing dataflows -----

  /** Every place of the output is a cell of some tile. */
  lemma CellOf(f: Dataflow, x: nat) returns (r: nat, c: nat, i: nat, j: nat)
    requires x < f.OutputSize()
    ensures r < f.rows && c < f.columns && InTile(i, j) && f.Cell(r, c, i, j) == x
  {
    if f.kind == QueryKey {
      Reassociate(f.rows, f.columns);
      var tile;
      tile, i, j := TilePlace(x, f.rows * f.columns);
      SplitBound(tile, f.rows, f.columns);
      r, c := Quotient(tile, f.columns), Remainder(tile, f.columns);
    } else {
      SplitBound(x, f.rows * TILE, f.Width());
      var row, column := Quotient(x, f.Width()), Remainder(x, f.Width());
      r, c, i, j := row / TILE, column / TILE, row % TILE, column % TILE;
      RowMajorCell(f, r, c, i, j);
    }
  }

  lemma TilePlace(x: nat, tiles: nat) returns (tile: nat, i: nat, j: nat)
    requires x < tiles * TILE * TILE
    ensures tile < tiles && InTile(i, j) && x == tile * TILE * TILE + i * TILE + j
  {
    tile, i, j := x / TILE / TILE, x / TILE % TILE, x % TILE;
  }

  /** The two chunked traversals leave the same output. */
  lemma TraversalsAgree(f: Dataflow, start: seq<int>, one: seq<int>, other: seq<int>)
    requires f.Valid() && Multiplied(f, true, start, one) && Multiplied(f, true, start, other)
    ensures one == other
  {
    forall x | 0 <= x < |one|
      ensures one[x] == other[x]
    {
      var r, c, i, j := CellOf(f, x);
    }
  }

  /** The same product in a single part. */
  function Unsplit(f: Dataflow): Dataflow { f.(parts := 1, chunk := f.Depth()) }

  lemma UnsplitValid(f: Dataflow)
    requires f.Valid() && f.kind == QueryKey && f.parts > 0
    ensures Unsplit(f).Valid() && Unsplit(f).Depth() == f.Depth()
  {
    NonNegative(f.parts - 1, f.chunk);
    NextMultiple(f.parts - 1, f.chunk);
    Exchange(f.parts, f.columns, f.chunk);
    Exchange(1, f.columns, f.Depth());
  }

  lemma {:induction false} UnsplitProduct(f: Dataflow, q: nat, d: nat, n: nat)
    requires f.Valid() && Unsplit(f).Valid() && f.kind == QueryKey && Unsplit(f).Depth() == f.Depth()
    requires q < f.rows * TILE && d < f.Width() && n <= f.Depth()
    ensures TrueProduct(Unsplit(f), q, d, n) == TrueProduct(f, q, d, n)
  {
    if n > 0 {
      UnsplitProduct(f, q, d, n - 1);
    }
  }

  /** Chunked into a cleared buffer or all at once over anything, the scores are the same. */
  lemma FullKAgrees(f: Dataflow, cleared: seq<int>, split: seq<int>, anything: seq<int>, full: seq<int>)
    requires f.Valid() && f.kind == QueryKey && f.parts > 0
    requires Multiplied(f, true, cleared, split) && forall x :: 0 <= x < |cleared| ==> cleared[x] == 0
    requires Unsplit(f).Valid() && Multiplied(Unsplit(f), false, anything, full)
    ensures split == full
  {
    UnsplitValid(f);
    forall x | 0 <= x < |split|
      ensures split[x] == full[x]
    {
      var r, c, i, j := CellOf(f, x);
      UnsplitProduct(f, r * TILE + i, c * TILE + j, f.Depth());
      assert Unsplit(f).Cell(r, c, i, j) == x;
    }
  }
}
