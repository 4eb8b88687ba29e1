/** Whole-number arithmetic; an index into a flat array is a quotient and a remainder. */
module Indexing {

  function Min(a: nat, b: nat): nat {
    if a <= b then a else b
  }

  function Max(a: nat, b: nat): nat {
    if a >= b then a else b
  }

  lemma Regroup(a: nat, b: nat, c: nat)
    ensures a * (b * c) == (a * b) * c
  {
  }

  lemma Distribute(a: nat, b: nat, n: nat)
    ensures (a + b) * n == a * n + b * n
  {
  }

  lemma Positive(a: nat, b: nat)
    requires a > 0 && b > 0
    ensures a * b > 0
  {
  }

  lemma MulMonotone(a: nat, b: nat, n: nat)
    requires a <= b
    ensures a * n <= b * n
  {
    var d: nat := b - a;
    assert b * n == a * n + d * n;
    NonNegative(d, n);
  }

  lemma NonNegative(d: nat, n: nat)
    ensures 0 <= d * n
  {
  }

  lemma NextMultiple(a: nat, n: nat)
    ensures (a + 1) * n == a * n + n
  {
  }

  /** A joined index stays below the product of the ranges. */
  lemma JoinBound(a: nat, b: nat, m: nat, n: nat)
    requires a < m && b < n
    ensures 0 <= a * n + b < m * n
  {
    NonNegative(a, n);
    NextMultiple(a, n);
    MulMonotone(a + 1, m, n);
  }

  /** Different quotients give different joined indices, whatever the remainders. */
  lemma JoinSeparates(a: nat, b: nat, a': nat, b': nat, n: nat)
    requires b < n && b' < n && a < a'
    ensures a * n + b < a' * n + b'
  {
    NextMultiple(a, n);
    MulMonotone(a + 1, a', n);
  }

  lemma JoinInjective(a: nat, b: nat, a': nat, b': nat, n: nat)
    requires b < n && b' < n && a * n + b == a' * n + b'
    ensures a == a' && b == b'
  {
    if a < a' {
      JoinSeparates(a, b, a', b', n);
    } else if a' < a {
      JoinSeparates(a', b', a, b, n);
    }
  }

  lemma JoinInjective3(a: nat, b: nat, c: nat, a': nat, b': nat, c': nat, m: nat, n: nat)
    requires b < m && b' < m && c < n && c' < n && (a * m + b) * n + c == (a' * m + b') * n + c'
    ensures a == a' && b == b' && c == c'
  {
    NonNegative(a, m);
    NonNegative(a', m);
    var row, row' := a * m + b, a' * m + b';
    JoinInjective(row, c, row', c', n);
    JoinInjective(a, b, a', b', m);
  }

  /** Dividing a joined index gives its parts back. */
  lemma JoinSplit(a: nat, b: nat, n: nat)
    requires b < n
    ensures (a * n + b) / n == a && (a * n + b) % n == b
  {
    var x := a * n + b;
    NonNegative(a, n);
    DivMod(x, n);
    JoinInjective(x / n, x % n, a, b, n);
  }

  lemma DivMod(x: nat, n: nat)
    requires n > 0
    ensures x == (x / n) * n + x % n && x % n < n && 0 <= x / n
  {
  }

  /** Quotient and remainder of indices. */
  function Quotient(x: nat, n: nat): nat
    requires n > 0
  {
    x / n
  }

  function Remainder(x: nat, n: nat): nat
    requires n > 0
  {
    x % n
  }

  /** The quotient of an index below a product stays below the first factor. */
  lemma SplitBound(x: nat, m: nat, n: nat)
    requires n > 0 && x < m * n
    ensures 0 <= x / n < m && 0 <= x % n < n && x == (x / n) * n + x % n
  {
    DivMod(x, n);
    if m <= x / n {
      MulMonotone(m, x / n, n);
    }
  }
}
