/** Small tensor operations: running products, sums, and rows laid end to end. */
module Tensors {

  /** Running products, as `cumprod` computes them on a row of zeros and ones. */
  function CumulativeProduct(bits: seq<int>): (r: seq<int>)
    ensures |r| == |bits|
  {
    if bits == [] then []
    else
      var rest := CumulativeProduct(bits[..|bits| - 1]);
      rest + [if rest == [] then bits[|bits| - 1] else rest[|rest| - 1] * bits[|bits| - 1]]
  }

  function Sum(s: seq<int>): int {
    if s == [] then 0 else Sum(s[..|s| - 1]) + s[|s| - 1]
  }

  /** Summing the running product of a row of zeros and ones counts its leading ones. */
  lemma {:induction false} ProductCountsLeadingOnes(bits: seq<int>, k: nat, n: nat)
    requires k <= |bits| && n <= |bits|
    requires forall i :: 0 <= i < k ==> bits[i] == 1
    requires k < |bits| ==> bits[k] == 0
    ensures var product := CumulativeProduct(bits[..n]);
            && (n > 0 ==> product[n - 1] == if n <= k then 1 else 0)
            && Sum(product) == if n <= k then n else k
  {
    if n > 0 {
      ProductCountsLeadingOnes(bits, k, n - 1);
      assert bits[..n][..n - 1] == bits[..n - 1];
      var product := CumulativeProduct(bits[..n]);
      assert product[..n - 1] == CumulativeProduct(bits[..n - 1]);
    }
  }

  lemma LeadingOnes(bits: seq<int>, k: nat)
    requires k <= |bits|
    requires forall i :: 0 <= i < k ==> bits[i] == 1
    requires k < |bits| ==> bits[k] == 0
    ensures Sum(CumulativeProduct(bits)) == k
  {
    ProductCountsLeadingOnes(bits, k, |bits|);
    assert bits[..|bits|] == bits;
  }

  /** The first `n` rows one after the other. */
  function Flatten<T>(rows: seq<seq<T>>, n: nat): (flat: seq<T>)
    requires n <= |rows|
    ensures |flat| == Offset(rows, n)
  {
    if n == 0 then [] else Flatten(rows, n - 1) + rows[n - 1]
  }

  /** Where row `i` starts in the flat sequence: the lengths of the rows before it. */
  function Offset<T>(rows: seq<seq<T>>, i: nat): nat
    requires i <= |rows|
  {
    if i == 0 then 0 else Offset(rows, i - 1) + |rows[i - 1]|
  }

  lemma FlattenNext<T>(rows: seq<seq<T>>, i: nat)
    requires i < |rows|
    ensures Flatten(rows, i + 1) == if rows[i] == [] then Flatten(rows, i) else Flatten(rows, i) + rows[i]
  {
  }

  /** Slicing the flat sequence at the offsets gives every row back. */
  lemma {:induction false} SliceIsRow<T>(rows: seq<seq<T>>, n: nat, i: nat)
    requires i < n <= |rows|
    ensures Offset(rows, i) <= Offset(rows, i + 1) <= Offset(rows, n)
    ensures Flatten(rows, n)[Offset(rows, i)..Offset(rows, i + 1)] == rows[i]
  {
    if i < n - 1 {
      SliceIsRow(rows, n - 1, i);
      var lo, hi := Offset(rows, i), Offset(rows, i + 1);
      assert Flatten(rows, n)[lo..hi] == Flatten(rows, n - 1)[lo..hi];
    }
  }

  /** The last element of a row stands right before the start of the next one. */
  lemma {:induction false} LastOfRow<T>(rows: seq<seq<T>>, n: nat, i: nat, end: int)
    requires i < n <= |rows| && |rows[i]| > 0 && end == Offset(rows, i + 1) - 1
    ensures Offset(rows, i) <= end < Offset(rows, n)
    ensures Flatten(rows, n)[end] == rows[i][|rows[i]| - 1]
  {
    if i < n - 1 {
      LastOfRow(rows, n - 1, i, end);
    }
  }

  lemma {:induction false} OffsetGrows<T>(rows: seq<seq<T>>, i: nat, n: nat)
    requires i <= n <= |rows|
    ensures Offset(rows, i) <= Offset(rows, n)
  {
    if i < n {
      OffsetGrows(rows, i, n - 1);
    }
  }

  lemma {:induction false} SameOffsets<S, T>(a: seq<seq<S>>, b: seq<seq<T>>, i: nat)
    requires |a| == |b| && forall j :: 0 <= j < |a| ==> |a[j]| == |b[j]|
    requires i <= |a|
    ensures Offset(a, i) == Offset(b, i)
  {
    if i > 0 {
      SameOffsets(a, b, i - 1);
    }
  }
}
