/**
 How the prefill tile kernel hands a block of values to its matrix product
 (`csrc/ops/attention/bmc/bmc_prefill_avx512.cpp`).

 A block with fewer tokens than its size is copied into a buffer and filled up with zeros.  Columns go
 in parts of a multiple of 16; when the last part is wider than what is left of a row, every row is
 copied to its place in the same buffer and the missing columns are set to zero.
 */
module PrefillValues {
  import opened Indexing

  /** Columns and tokens one product can take. */
  const N_MAX: nat := 64

  function RoundUp(n: nat): (m: nat)
    ensures n <= m < n + 16 && m % 16 == 0
  {
    (n + 15) / 16 * 16
  }

  /** Columns of one part. */
  function PartColumns(headDim: nat): (c: nat)
    requires headDim > 0
    ensures 0 < c <= N_MAX && (headDim <= N_MAX ==> c == RoundUp(headDim))
    ensures headDim > N_MAX ==> c <= headDim
  {
    var parts := (headDim + N_MAX - 1) / N_MAX;
    var columns := RoundUp((headDim + parts - 1) / parts);
    if columns > N_MAX then N_MAX else columns
  }

  function Parts(headDim: nat): (n: nat)
    requires headDim > 0
    ensures n > 0 && (n - 1) * PartColumns(headDim) < headDim <= n * PartColumns(headDim)
  {
    var columns := PartColumns(headDim);
    DivMod(headDim + columns - 1, columns);
    NextMultiple((headDim + columns - 1) / columns - 1, columns);
    (headDim + columns - 1) / columns
  }

  /** Where row `t` of a flat buffer starts. */
  function RowStart(t: nat, headDim: nat): nat {
    t * headDim
  }

  lemma RowsFollow(t: nat, t': nat, headDim: nat)
    requires t < t'
    ensures 0 <= RowStart(t, headDim) && RowStart(t, headDim) + headDim == RowStart(t + 1, headDim) <= RowStart(t', headDim)
  {
    NextMultiple(t, headDim);
    MulMonotone(t + 1, t', headDim);
  }

  /** Columns that zeroing the end of one row takes from the beginning of the next. */
  function Spill(headDim: nat): nat
    requires headDim > 0
  {
    if PartColumns(headDim) > headDim then PartColumns(headDim) - headDim else 0
  }

  /** Element `j` of row `t` once rows are copied: in place, what the row before left of it. */
  function Copied(source: seq<int>, inPlace: bool, headDim: nat, spill: nat, from: nat, t: nat, j: nat): int
    requires from + j < headDim && RowStart(t, headDim) + headDim <= |source|
  {
    if inPlace && t > 0 && from + j < spill then 0 else source[RowStart(t, headDim) + from + j]
  }

  ghost predicate RowIs(buffer: seq<int>, source: seq<int>, inPlace: bool, headDim: nat, spill: nat, from: nat, t: nat)
    requires headDim > from
  {
    && RowStart(t, headDim) + headDim <= |source| <= |buffer|
    && forall j :: 0 <= j < headDim - from ==>
         buffer[RowStart(t, headDim) + j] == Copied(source, inPlace, headDim, spill, from, t, j)
  }

  /** The first `n` rows are copied; behind them the buffer is as it was but for what row `n - 1` spilt. */
  ghost predicate CopiedTo(buffer: seq<int>, source: seq<int>, inPlace: bool, headDim: nat, spill: nat, from: nat, n: nat)
    requires headDim > from && RowStart(n, headDim) <= |source| <= |buffer|
  {
    && (forall t :: 0 <= t < n ==> RowIs(buffer, source, inPlace, headDim, spill, from, t))
    && (inPlace ==> forall x :: RowStart(n, headDim) <= x < |source| ==>
          buffer[x] == if n > 0 && x < RowStart(n, headDim) + spill then 0 else source[x])
  }

  /** What copying one row leaves of the buffer. */
  ghost predicate RowCopied(before: seq<int>, after: seq<int>, source: seq<int>, inPlace: bool, start: nat,
                            from: nat, valid: nat, columns: nat)
  {
    && |after| == |before| && start + from + valid <= |source| <= |before| && valid <= columns
    && (forall x :: 0 <= x < start || start + columns <= x < |after| ==> after[x] == before[x])
    && (forall x :: start <= x < start + valid ==> after[x] == if inPlace then before[x + from] else source[x + from])
    && forall x :: start + valid <= x < start + columns && x < |after| ==> after[x] == 0
  }

  /** One row, element by element, and zeros up to the width of the part. */
  method CopyRow(buffer: array<int>, source: seq<int>, inPlace: bool, start: nat, from: nat, valid: nat, columns: nat)
    requires valid <= columns && start + from + valid <= |source| && start + columns <= buffer.Length && |source| <= buffer.Length
    modifies buffer
    ensures RowCopied(old(buffer[..]), buffer[..], source, inPlace, start, from, valid, columns)
  {
    for j := 0 to valid
      invariant forall x :: 0 <= x < buffer.Length ==>
        buffer[x] == if start <= x < start + j then
                       (if inPlace then old(buffer[x + from]) else source[x + from])
                     else old(buffer[x])
    {
      buffer[start + j] := if inPlace then buffer[start + from + j] else source[start + from + j];
    }
    for j := valid to columns
      invariant forall x :: 0 <= x < buffer.Length ==>
        buffer[x] == if start <= x < start + valid then
                       (if inPlace then old(buffer[x + from]) else source[x + from])
                     else if start + valid <= x < start + j then 0
                     else old(buffer[x])
    {
      buffer[start + j] := 0;
    }
  }

  lemma CopyNext(before: seq<int>, after: seq<int>, source: seq<int>, inPlace: bool, headDim: nat, spill: nat,
                 from: nat, columns: nat, n: nat, start: nat, next: nat)
    requires from < headDim && if from == 0 then columns == headDim + spill else headDim - from <= columns <= from && spill == 0
    requires start == RowStart(n, headDim) && next == RowStart(n + 1, headDim) == start + headDim <= |source| <= |before|
    requires CopiedTo(before, source, inPlace, headDim, spill, from, n)
    requires RowCopied(before, after, source, inPlace, start, from, headDim - from, columns)
    ensures CopiedTo(after, source, inPlace, headDim, spill, from, n + 1)
  {
    forall t | 0 <= t < n + 1
      ensures RowIs(after, source, inPlace, headDim, spill, from, t)
    {
      if t < n {
        RowsFollow(t, n, headDim);
        assert RowIs(before, source, inPlace, headDim, spill, from, t);
      }
    }
    forall x | inPlace && next <= x < |source|
      ensures after[x] == if x < next + spill then 0 else source[x]
    {
      assert after[x] == if x < start + columns then 0 else before[x];
    }
  }

  /** The rows of a block one after the other, each to its place in the buffer. */
  method CopyRows(buffer: array<int>, source: seq<int>, inPlace: bool, rows: nat, headDim: nat, from: nat)
    requires 0 < headDim && from < headDim <= from + PartColumns(headDim) && (from == 0 || PartColumns(headDim) <= from)
    requires |source| == RowStart(rows, headDim) && |source| + 16 <= buffer.Length
    requires inPlace ==> buffer[..|source|] == source
    modifies buffer
    ensures CopiedTo(buffer[..], source, inPlace, headDim, Spill(headDim), from, rows)
  {
    var columns := PartColumns(headDim);
    ghost var spill := Spill(headDim);
    assert if from == 0 then columns == headDim + spill else headDim - from <= columns <= from && spill == 0;
    assert columns <= headDim + 16;
    hide PartColumns, Spill, CopiedTo, RowCopied, RowStart;
    FirstRow(buffer[..], source, inPlace, headDim, spill, from);
    for t := 0 to rows
      invariant 0 <= RowStart(t, headDim) <= |source|
      invariant CopiedTo(buffer[..], source, inPlace, headDim, spill, from, t)
    {
      RowsFollow(t, rows, headDim);
      assert RowStart(t, headDim) + headDim <= |source|;
      ghost var before := buffer[..];
      CopyRow(buffer, source, inPlace, RowStart(t, headDim), from, headDim - from, columns);
      CopyNext(before, buffer[..], source, inPlace, headDim, spill, from, columns, t, RowStart(t, headDim), RowStart(t + 1, headDim));
    }
  }

  lemma FirstRow(buffer: seq<int>, source: seq<int>, inPlace: bool, headDim: nat, spill: nat, from: nat)
    requires from < headDim && |source| <= |buffer| && (inPlace ==> buffer[..|source|] == source)
    ensures RowStart(0, headDim) == 0 && CopiedTo(buffer, source, inPlace, headDim, spill, from, 0)
  {
    forall x | inPlace && 0 <= x < |source|
      ensures buffer[x] == source[x]
    {
      assert buffer[..|source|][x] == source[x];
    }
  }

  // ----- a whole block -----

  /** What the products see of row `t`. */
  function PackedRow(source: seq<int>, partial: bool, headDim: nat, t: nat): (row: seq<int>)
    requires headDim > 0 && RowStart(t, headDim) + headDim <= |source|
    ensures |row| == headDim
  {
    seq(headDim, d requires 0 <= d < headDim => Copied(source, partial, headDim, Spill(headDim), 0, t, d))
  }

  /** The first `width` columns of every row. */
  ghost predicate PackedTo(rows: seq<seq<int>>, source: seq<int>, partial: bool, headDim: nat, width: nat)
    requires headDim > 0
  {
    width <= headDim && forall t :: 0 <= t < |rows| ==>
      && RowStart(t, headDim) + headDim <= |source|
      && |rows[t]| == width && rows[t] == PackedRow(source, partial, headDim, t)[..width]
  }

  /** `count` columns more of every row of a flat buffer. */
  function AppendColumns(rows: seq<seq<int>>, flat: seq<int>, headDim: nat, from: nat, count: nat): (r: seq<seq<int>>)
    requires forall t: nat :: t < |rows| ==> RowStart(t, headDim) + from + count <= |flat|
    ensures |r| == |rows|
  {
    seq(|rows|, t requires 0 <= t < |rows| => rows[t] + flat[RowStart(t, headDim) + from..RowStart(t, headDim) + from + count])
  }

  /** Columns straight from the block, when no row spills. */
  lemma AppendPlain(rows: seq<seq<int>>, source: seq<int>, partial: bool, headDim: nat, from: nat, count: nat)
    requires headDim > 0 && PackedTo(rows, source, partial, headDim, from) && from + count <= headDim && Spill(headDim) == 0
    ensures forall t: nat :: t < |rows| ==> RowStart(t, headDim) + from + count <= |source|
    ensures PackedTo(AppendColumns(rows, source, headDim, from, count), source, partial, headDim, from + count)
  {
    hide RowStart, Spill;
    forall t: nat | t < |rows|
      ensures RowStart(t, headDim) + headDim <= |source|
    {
      assert |rows[t]| == from;
    }
    var r := AppendColumns(rows, source, headDim, from, count);
    forall t | 0 <= t < |r|
      ensures |r[t]| == from + count && r[t] == PackedRow(source, partial, headDim, t)[..from + count]
    {
      assert rows[t] == PackedRow(source, partial, headDim, t)[..from];
    }
  }

  /** The last columns out of the buffer the rows were copied in. */
  lemma AppendCopied(rows: seq<seq<int>>, buffer: seq<int>, source: seq<int>, partial: bool, headDim: nat, from: nat)
    requires 0 < headDim && from < headDim && PackedTo(rows, source, partial, headDim, from)
    requires RowStart(|rows|, headDim) <= |source| <= |buffer|
    requires CopiedTo(buffer, source, partial, headDim, Spill(headDim), from, |rows|)
    ensures forall t: nat :: t < |rows| ==> RowStart(t, headDim) + 0 + (headDim - from) <= |buffer|
    ensures PackedTo(AppendColumns(rows, buffer, headDim, 0, headDim - from), source, partial, headDim, headDim)
  {
    hide RowStart, Spill;
    forall t: nat | t < |rows|
      ensures RowStart(t, headDim) + headDim <= |source|
    {
      assert RowIs(buffer, source, partial, headDim, Spill(headDim), from, t);
    }
    var r := AppendColumns(rows, buffer, headDim, 0, headDim - from);
    forall t | 0 <= t < |r|
      ensures |r[t]| == headDim && r[t] == PackedRow(source, partial, headDim, t)[..headDim]
    {
      assert RowIs(buffer, source, partial, headDim, Spill(headDim), from, t);
      assert rows[t] == PackedRow(source, partial, headDim, t)[..from];
      forall d | from <= d < headDim
        ensures r[t][d] == PackedRow(source, partial, headDim, t)[d]
      {
        var j := d - from;
        assert r[t][d] == buffer[RowStart(t, headDim) + j];
        assert Copied(source, partial, headDim, Spill(headDim), from, t, j)
               == Copied(source, partial, headDim, Spill(headDim), 0, t, d);
      }
    }
  }

  /** A block filled up with zeros to its whole size. */
  function Padded(block: seq<int>, tokens: nat, blockSize: nat, headDim: nat): (source: seq<int>)
    requires tokens <= blockSize && |block| == RowStart(tokens, headDim)
    ensures |source| == RowStart(blockSize, headDim)
  {
    RowsOrdered(tokens, blockSize, headDim);
    block + seq(RowStart(blockSize, headDim) - RowStart(tokens, headDim), _ => 0)
  }

  lemma RowsOrdered(t: nat, t': nat, headDim: nat)
    requires t <= t'
    ensures RowStart(t, headDim) <= RowStart(t', headDim)
  {
    if t < t' {
      RowsFollow(t, t', headDim);
    }
  }

  /** An array that starts with the elements of `source`. */
  method Fill(source: seq<int>) returns (buffer: array<int>)
    ensures fresh(buffer) && buffer.Length == |source| + 16 && buffer[..|source|] == source
  {
    buffer := new int[|source| + 16];
    for x := 0 to |source|
      invariant buffer[..x] == source[..x]
    {
      buffer[x] := source[x];
    }
    assert source[..|source|] == source;
  }

  /** The last part is padded, or no row spills. */
  lemma PartFits(headDim: nat, hs: nat, from: nat)
    requires headDim > 0 && hs < Parts(headDim) && from == hs * PartColumns(headDim)
    ensures from < headDim && (from == 0 || PartColumns(headDim) <= from)
    ensures if hs == Parts(headDim) - 1 && Parts(headDim) * PartColumns(headDim) > headDim then
              headDim < from + PartColumns(headDim)
            else
              from + PartColumns(headDim) <= headDim && Spill(headDim) == 0
    ensures from + PartColumns(headDim) == (hs + 1) * PartColumns(headDim)
  {
    var columns := PartColumns(headDim);
    NextMultiple(hs, columns);
    MulMonotone(hs, Parts(headDim) - 1, columns);
    if hs > 0 {
      MulMonotone(1, hs, columns);
    }
    if hs < Parts(headDim) - 1 {
      MulMonotone(hs + 1, Parts(headDim) - 1, columns);
      NonNegative(hs, columns);
    }
  }

  /** One part of the columns of every row; a last part that is too wide is copied in the buffer first. */
  method PackPart(before: seq<seq<int>>, buffer: array<int>, source: seq<int>, partial: bool, headDim: nat, hs: nat, from: nat)
    returns (rows: seq<seq<int>>)
    requires headDim > 0 && hs < Parts(headDim) && from == hs * PartColumns(headDim)
    requires |source| == RowStart(|before|, headDim) && buffer.Length == |source| + 16 && buffer[..|source|] == source
    requires PackedTo(before, source, partial, headDim, from)
    modifies buffer
    ensures |rows| == |before|
    ensures hs + 1 < Parts(headDim) ==>
      buffer[..] == old(buffer[..]) && PackedTo(rows, source, partial, headDim, from + PartColumns(headDim))
    ensures hs + 1 == Parts(headDim) ==> PackedTo(rows, source, partial, headDim, headDim)
  {
    var columns, parts := PartColumns(headDim), Parts(headDim);
    PartFits(headDim, hs, from);
    assert hs + 1 == parts ==> headDim <= from + columns;
    hide RowStart, Spill, PartColumns, Parts, CopiedTo, PackedTo, AppendColumns;
    if hs == parts - 1 && parts * columns > headDim {
      CopyRows(buffer, source, partial, |before|, headDim, from);
      AppendCopied(before, buffer[..], source, partial, headDim, from);
      rows := AppendColumns(before, buffer[..], headDim, 0, headDim - from);
    } else {
      AppendPlain(before, source, partial, headDim, from, columns);
      rows := AppendColumns(before, source, headDim, from, columns);
    }
  }

  /** The rows of a block of values as the products get to see them, part by part. */
  method PackValues(block: seq<int>, tokens: nat, blockSize: nat, headDim: nat) returns (rows: seq<seq<int>>)
    requires 0 < headDim && tokens <= blockSize && |block| == RowStart(tokens, headDim)
    ensures |rows| == blockSize
    ensures PackedTo(rows, Padded(block, tokens, blockSize, headDim), tokens < blockSize, headDim, headDim)
  {
    var partial, columns := tokens < blockSize, PartColumns(headDim);
    var source := Padded(block, tokens, blockSize, headDim);
    var buffer := Fill(source);
    rows := seq(blockSize, _ => []);
    NothingPacked(rows, source, partial, headDim);
    hide RowStart, PartColumns, Padded, PackedTo;
    var from := 0;
    for hs := 0 to Parts(headDim)
      invariant from == hs * columns && |rows| == blockSize && fresh(buffer) && buffer.Length == |source| + 16
      invariant hs < Parts(headDim) ==> buffer[..|source|] == source && PackedTo(rows, source, partial, headDim, from)
      invariant hs == Parts(headDim) ==> PackedTo(rows, source, partial, headDim, headDim)
    {
      NextMultiple(hs, columns);
      ghost var held := buffer[..];
      rows := PackPart(rows, buffer, source, partial, headDim, hs, from);
      assert hs + 1 < Parts(headDim) ==> buffer[..|source|] == held[..|source|];
      from := from + columns;
    }
  }

  lemma NothingPacked(rows: seq<seq<int>>, source: seq<int>, partial: bool, headDim: nat)
    requires headDim > 0 && |source| == RowStart(|rows|, headDim) && forall t :: 0 <= t < |rows| ==> rows[t] == []
    ensures PackedTo(rows, source, partial, headDim, 0)
  {
    forall t | 0 <= t < |rows|
      ensures RowStart(t, headDim) + headDim <= |source|
    {
      RowsFollow(t, |rows|, headDim);
    }
  }
}
