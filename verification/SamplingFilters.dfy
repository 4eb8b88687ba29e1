/**
 The top-k, top-p and min-p filters and their pipeline on one row of logits (`pace/llm/sampler.py`).

 Logits are real numbers; what the tensor library contributes (an exponential, sorting) is a
 parameter with its contract.  The exponential may underflow to zero, so minus infinity is any
 number small enough for that.
 */
module SamplingFilters {
  import opened Reals

  /** What is used of the tensor library. */
  datatype Library = Library(expOp: real -> real, ascendingOp: seq<real> -> seq<nat>, descendingOp: seq<real> -> seq<nat>) {
    function Exp(x: real): real { expOp(x) }

    /** Indices that sort a row, in either direction; equal logits may come in any order. */
    function Ascending(logits: seq<real>): seq<nat> { ascendingOp(logits) }

    function Descending(logits: seq<real>): seq<nat> { descendingOp(logits) }

    ghost predicate Lawful() {
      && Exp(0.0) == 1.0
      && (forall x :: Exp(x) >= 0.0)
      && (forall x, y :: x <= y ==> Exp(x) <= Exp(y))
      && (forall logits :: Permutation(Ascending(logits), |logits|) && Sorted(logits, Ascending(logits)))
      && (forall logits :: Permutation(Descending(logits), |logits|) && SortedDown(logits, Descending(logits)))
    }
  }

  ghost predicate Permutation(indices: seq<nat>, n: nat) {
    && |indices| == n
    && (forall i :: 0 <= i < |indices| ==> indices[i] < n)
    && forall i, j :: 0 <= i < j < |indices| ==> indices[i] != indices[j]
  }

  ghost predicate Sorted(logits: seq<real>, indices: seq<nat>) {
    forall i, j :: 0 <= i <= j < |indices| && indices[i] < |logits| && indices[j] < |logits| ==>
      logits[indices[i]] <= logits[indices[j]]
  }

  ghost predicate SortedDown(logits: seq<real>, indices: seq<nat>) {
    forall i, j :: 0 <= i <= j < |indices| && indices[i] < |logits| && indices[j] < |logits| ==>
      logits[indices[i]] >= logits[indices[j]]
  }

  // ----- the contract can be met -----

  /** Where one more logit belongs in a sorted order. */
  lemma {:induction false} PlaceFor(logits: seq<real>, order: seq<nat>, x: real, n: nat) returns (k: nat)
    requires n <= |order| && Sorted(logits, order) && forall i :: 0 <= i < |order| ==> order[i] < |logits|
    ensures k <= n && (forall i :: 0 <= i < k ==> logits[order[i]] <= x)
    ensures forall i :: k <= i < n ==> logits[order[i]] >= x
  {
    if n == 0 {
      k := 0;
    } else if logits[order[n - 1]] <= x {
      k := n;
      forall i | 0 <= i < k
        ensures logits[order[i]] <= x
      {
        assert logits[order[i]] <= logits[order[n - 1]];
      }
    } else {
      k := PlaceFor(logits, order, x, n - 1);
    }
  }

  /** Every row can be sorted. */
  lemma {:induction false} SortExists(logits: seq<real>, n: nat) returns (order: seq<nat>)
    requires n <= |logits|
    ensures Permutation(order, n) && Sorted(logits, order)
  {
    if n == 0 {
      order := [];
    } else {
      var rest := SortExists(logits, n - 1);
      var k := PlaceFor(logits, rest, logits[n - 1], n - 1);
      order := seq(n, i requires 0 <= i < n => if i < k then rest[i] else if i == k then n - 1 else rest[i - 1]);
      forall i, j | 0 <= i <= j < n
        ensures logits[order[i]] <= logits[order[j]]
      {
      }
    }
  }

  ghost function SomeOrder(logits: seq<real>): (order: seq<nat>)
    ensures Permutation(order, |logits|) && Sorted(logits, order)
  {
    OrderExists(logits);
    var order :| Permutation(order, |logits|) && Sorted(logits, order);
    order
  }

  lemma OrderExists(logits: seq<real>)
    ensures exists order :: Permutation(order, |logits|) && Sorted(logits, order)
  {
    var order := SortExists(logits, |logits|);
  }

  function Backwards(order: seq<nat>): seq<nat> {
    seq(|order|, i requires 0 <= i < |order| => order[|order| - 1 - i])
  }

  /** The contract asked of the tensor library can be met. */
  lemma LibraryExists() returns (lib: Library)
    ensures lib.Lawful()
  {
    lib := Library((x: real) => if x < 0.0 then 0.0 else 1.0, (logits: seq<real>) => SomeOrder(logits),
                   (logits: seq<real>) => Backwards(SomeOrder(logits)));
    forall logits: seq<real>
      ensures Permutation(lib.Descending(logits), |logits|) && SortedDown(logits, lib.Descending(logits))
    {
      assert lib.Descending(logits) == Backwards(SomeOrder(logits));
    }
  }

  // ----- permutations -----

  /** Sum of the values at the first `n` of the listed indices. */
  function SumAt(values: seq<real>, indices: seq<nat>, n: nat): real
    requires n <= |indices| && forall i :: 0 <= i < |indices| ==> indices[i] < |values|
  {
    if n == 0 then 0.0 else SumAt(values, indices, n - 1) + values[indices[n - 1]]
  }

  /** There are no more distinct indices below `n` than `n`. */
  lemma {:induction false} TooMany(indices: seq<nat>, n: nat)
    requires |indices| == n + 1
    requires forall i :: 0 <= i < |indices| ==> indices[i] < n
    requires forall i, j :: 0 <= i < j < |indices| ==> indices[i] != indices[j]
    ensures false
    decreases n
  {
    if n > 0 {
      var fewer: seq<nat> := seq(n, i requires 0 <= i < n => if indices[i] == n - 1 then indices[n] else indices[i]);
      assert forall i :: 0 <= i < n ==> indices[i] != indices[n];
      forall i, j | 0 <= i < j < n
        ensures fewer[i] < n - 1 && fewer[j] < n - 1 && fewer[i] != fewer[j]
      {
        assert indices[i] != indices[j] && indices[i] != indices[n] && indices[j] != indices[n];
      }
      assert fewer[0] < n - 1;
      TooMany(fewer, n - 1);
    }
  }

  /** Every index is listed somewhere. */
  lemma Listed(indices: seq<nat>, n: nat, target: nat)
    requires Permutation(indices, n) && target < n
    ensures exists at: nat :: at < n && indices[at] == target
  {
    if !exists at: nat :: at < n && indices[at] == target {
      TooMany(seq(n, i requires 0 <= i < n => if indices[i] == n - 1 then target else indices[i]), n - 1);
    }
  }

  /** Replacing one listed index changes the sum by the difference. */
  lemma {:induction false} SumReplace(values: seq<real>, indices: seq<nat>, at: nat, other: nat, n: nat)
    requires at < |indices| && n <= |indices| && other < |values|
    requires forall i :: 0 <= i < |indices| ==> indices[i] < |values|
    ensures SumAt(values, indices[at := other], n)
            == SumAt(values, indices, n) + if at < n then values[other] - values[indices[at]] else 0.0
  {
    if n > 0 {
      SumReplace(values, indices, at, other, n - 1);
    }
  }

  lemma {:induction false} SumPrefix(values: seq<real>, indices: seq<nat>, fewer: seq<nat>, n: nat)
    requires n <= |indices| && n <= |fewer| && forall i :: 0 <= i < |indices| ==> indices[i] < |values|
    requires forall i :: 0 <= i < |fewer| ==> fewer[i] < |values|
    requires forall i :: 0 <= i < n ==> fewer[i] == indices[i]
    ensures SumAt(values, fewer, n) == SumAt(values, indices, n)
  {
    if n > 0 {
      SumPrefix(values, indices, fewer, n - 1);
    }
  }

  /** Adding up in any order gives the same sum. */
  lemma {:induction false} SumPermuted(values: seq<real>, indices: seq<nat>, n: nat)
    requires n <= |values| && Permutation(indices, n)
    ensures SumAt(values, indices, n) == Sum(values, n)
    decreases n
  {
    if n > 0 {
      Listed(indices, n, n - 1);
      var at: nat :| at < n && indices[at] == n - 1;
      var moved := indices[at := indices[n - 1]];
      SumReplace(values, indices, at, indices[n - 1], n - 1);
      var fewer := moved[..n - 1];
      SumPrefix(values, moved, fewer, n - 1);
      SumPermuted(values, fewer, n - 1);
    }
  }

  // ----- gather and scatter -----

  function Gather(mask: seq<bool>, indices: seq<nat>): (r: seq<bool>)
    requires forall i :: 0 <= i < |indices| ==> indices[i] < |mask|
  {
    seq(|indices|, i requires 0 <= i < |indices| => mask[indices[i]])
  }

  /** Writes the first `n` of `source` to the listed places of `target`. */
  function Scatter(target: seq<bool>, indices: seq<nat>, source: seq<bool>, n: nat): (r: seq<bool>)
    requires n <= |indices| == |source| && forall i :: 0 <= i < |indices| ==> indices[i] < |target|
    ensures |r| == |target|
  {
    if n == 0 then target else Scatter(target, indices, source, n - 1)[indices[n - 1] := source[n - 1]]
  }

  /** Scattering along a permutation puts every element where its index says. */
  lemma {:induction false} ScatterAt(target: seq<bool>, indices: seq<nat>, source: seq<bool>, n: nat, i: nat)
    requires Permutation(indices, |target|) && i < n <= |indices| == |source|
    ensures Scatter(target, indices, source, n)[indices[i]] == source[i]
  {
    if i < n - 1 {
      ScatterAt(target, indices, source, n - 1, i);
    }
  }

  /** Gathering a mask along a permutation and scattering it back gives the mask. */
  lemma GatherScatter(target: seq<bool>, mask: seq<bool>, indices: seq<nat>)
    requires |target| == |mask| && Permutation(indices, |mask|)
    ensures Scatter(target, indices, Gather(mask, indices), |indices|) == mask
  {
    var back := Scatter(target, indices, Gather(mask, indices), |indices|);
    forall t: nat | t < |mask|
      ensures back[t] == mask[t]
    {
      Listed(indices, |mask|, t);
      var at: nat :| at < |mask| && indices[at] == t;
      ScatterAt(target, indices, Gather(mask, indices), |indices|, at);
    }
  }

  // ----- softmax -----

  /** The largest of the first `n` logits. */
  function Largest(logits: seq<real>, n: nat): real
    requires 0 < n <= |logits|
  {
    if n == 1 then logits[0]
    else
      var rest := Largest(logits, n - 1);
      if rest < logits[n - 1] then logits[n - 1] else rest
  }

  function Max(logits: seq<real>): real
    requires |logits| > 0
  {
    Largest(logits, |logits|)
  }

  lemma {:induction false} LargestIsLargest(logits: seq<real>, n: nat)
    requires 0 < n <= |logits|
    ensures forall i :: 0 <= i < n ==> logits[i] <= Largest(logits, n)
    ensures exists i :: 0 <= i < n && logits[i] == Largest(logits, n)
  {
    if n > 1 {
      LargestIsLargest(logits, n - 1);
      assert n - 1 < n && (logits[n - 1] == Largest(logits, n) || Largest(logits, n - 1) == Largest(logits, n));
    } else {
      assert logits[0] == Largest(logits, n);
    }
  }

  /** Exponentials relative to the largest logit. */
  function Weights(lib: Library, logits: seq<real>): (weights: seq<real>)
    requires |logits| > 0
    ensures |weights| == |logits|
  {
    seq(|logits|, i requires 0 <= i < |logits| => lib.Exp(logits[i] - Max(logits)))
  }

  function Divided(weights: seq<real>, total: real): (quotients: seq<real>)
    requires total > 0.0
    ensures |quotients| == |weights|
  {
    seq(|weights|, i requires 0 <= i < |weights| => weights[i] / total)
  }

  function Softmax(lib: Library, logits: seq<real>): (probs: seq<real>)
    requires |logits| > 0 && lib.Lawful()
    ensures |probs| == |logits|
  {
    TotalPositive(lib, logits);
    Divided(Weights(lib, logits), Sum(Weights(lib, logits), |logits|))
  }

  lemma {:induction false} SumAtLeast(values: seq<real>, n: nat, i: nat)
    requires n <= |values| && forall j :: 0 <= j < |values| ==> values[j] >= 0.0
    ensures Sum(values, n) >= 0.0 && (i < n ==> Sum(values, n) >= values[i])
  {
    if n > 0 {
      SumAtLeast(values, n - 1, i);
    }
  }

  /** The largest logit weighs one, so the total is positive. */
  lemma TotalPositive(lib: Library, logits: seq<real>)
    requires |logits| > 0 && lib.Lawful()
    ensures Sum(Weights(lib, logits), |logits|) >= 1.0
  {
    LargestIsLargest(logits, |logits|);
    var i :| 0 <= i < |logits| && logits[i] == Max(logits);
    assert Weights(lib, logits)[i] == lib.Exp(0.0);
    SumAtLeast(Weights(lib, logits), |logits|, i);
  }

  lemma {:induction false} SumOfQuotients(weights: seq<real>, total: real, n: nat)
    requires n <= |weights| && total > 0.0
    ensures Sum(Divided(weights, total), n) == Sum(weights, n) / total
  {
    if n > 0 {
      SumOfQuotients(weights, total, n - 1);
      AddQuotients(Sum(weights, n - 1), weights[n - 1], total);
    }
  }

  lemma AddQuotients(a: real, b: real, c: real)
    requires c > 0.0
    ensures a / c + b / c == (a + b) / c
  {
  }

  lemma QuotientOrder(a: real, b: real, c: real)
    requires 0.0 <= a <= b && c > 0.0
    ensures 0.0 <= a / c <= b / c
  {
  }

  lemma DividedOrder(weights: seq<real>, total: real, i: nat, j: nat)
    requires i < |weights| && j < |weights| && 0.0 <= weights[i] <= weights[j] && total > 0.0
    ensures 0.0 <= Divided(weights, total)[i] <= Divided(weights, total)[j]
  {
    QuotientOrder(weights[i], weights[j], total);
  }

  /** A larger logit is at least as probable. */
  lemma SoftmaxOrder(lib: Library, logits: seq<real>, i: nat, j: nat)
    requires lib.Lawful() && i < |logits| && j < |logits| && logits[i] <= logits[j]
    ensures 0.0 <= Softmax(lib, logits)[i] <= Softmax(lib, logits)[j]
  {
    TotalPositive(lib, logits);
    DividedOrder(Weights(lib, logits), Sum(Weights(lib, logits), |logits|), i, j);
  }

  lemma DividedRelate(weights: seq<real>, total: real, i: nat, j: nat, a: real, b: real) returns (p: real, q: real)
    requires total > 0.0 && i < |weights| && j < |weights| && a == weights[i] && b == weights[j]
    ensures p == Divided(weights, total)[i] && q == Divided(weights, total)[j] && p * b == q * a
  {
    p, q := a / total, b / total;
    QuotientsRelate(a, b, p, q, total);
  }

  /** Probabilities relate as the exponentials do. */
  lemma SoftmaxRatio(lib: Library, logits: seq<real>, i: nat, j: nat, a: real, b: real) returns (p: real, q: real)
    requires lib.Lawful() && i < |logits| && j < |logits|
    requires a == lib.Exp(logits[i] - Max(logits)) && b == lib.Exp(logits[j] - Max(logits))
    ensures p == Softmax(lib, logits)[i] && q == Softmax(lib, logits)[j] && p * b == q * a
  {
    TotalPositive(lib, logits);
    hide Divided, Max, Library.Lawful;
    p, q := DividedRelate(Weights(lib, logits), Sum(Weights(lib, logits), |logits|), i, j, a, b);
  }

  lemma QuotientsRelate(a: real, b: real, p: real, q: real, total: real)
    requires total > 0.0 && p == a / total && q == b / total
    ensures p * b == q * a
  {
    assert a == p * total && b == q * total;
    assert p * (q * total) == q * (p * total);
  }

  /** Probabilities add up to one. */
  lemma SoftmaxTotal(lib: Library, logits: seq<real>)
    requires |logits| > 0 && lib.Lawful()
    ensures Sum(Softmax(lib, logits), |logits|) == 1.0
  {
    TotalPositive(lib, logits);
    DividedTotal(Weights(lib, logits), Sum(Weights(lib, logits), |logits|));
  }

  lemma DividedTotal(weights: seq<real>, total: real)
    requires total > 0.0 && total == Sum(weights, |weights|)
    ensures Sum(Divided(weights, total), |weights|) == 1.0
  {
    SumOfQuotients(weights, total, |weights|);
    SelfQuotient(total);
  }

  lemma SelfQuotient(a: real)
    requires a > 0.0
    ensures a / a == 1.0
  {
  }

  // ----- masking -----

  /** `masked_fill` with the smallest finite number. */
  function Masked(logits: seq<real>, remove: seq<bool>, lowest: real): (r: seq<real>)
    requires |remove| == |logits|
    ensures |r| == |logits|
  {
    seq(|logits|, i requires 0 <= i < |logits| => if remove[i] then lowest else logits[i])
  }

  /** Some token with the largest logit is not removed. */
  ghost predicate KeepsAMaximum(logits: seq<real>, remove: seq<bool>) {
    |remove| == |logits| > 0 && exists i :: 0 <= i < |logits| && logits[i] == Max(logits) && !remove[i]
  }

  /** Then masking changes neither the largest logit nor, above the mask value, who has it. */
  lemma MaximumKept(logits: seq<real>, remove: seq<bool>, lowest: real)
    requires KeepsAMaximum(logits, remove) && lowest < Max(logits)
    ensures Max(Masked(logits, remove, lowest)) == Max(logits)
    ensures forall i :: 0 <= i < |logits| && Masked(logits, remove, lowest)[i] == Max(logits) ==>
      !remove[i] && logits[i] == Max(logits)
  {
    LargestIsLargest(logits, |logits|);
    var masked := Masked(logits, remove, lowest);
    LargestIsLargest(masked, |masked|);
    var i :| 0 <= i < |logits| && logits[i] == Max(logits) && !remove[i];
    assert masked[i] == Max(logits);
  }

  // ----- top-k -----

  function Below(logits: seq<real>, threshold: real): (remove: seq<bool>)
    ensures |remove| == |logits|
  {
    seq(|logits|, i requires 0 <= i < |logits| => logits[i] < threshold)
  }

  /** `k` is cut down to the number of logits. */
  function CutDown(topK: nat, n: nat): nat { if topK < n then topK else n }

  /** Removes logits below the `k`-th largest. */
  function TopK(lib: Library, logits: seq<real>, topK: nat): (remove: seq<bool>)
    requires lib.Lawful() && |logits| > 0 && topK > 0
    ensures |remove| == |logits|
  {
    Below(logits, logits[lib.Descending(logits)[CutDown(topK, |logits|) - 1]])
  }

  lemma BelowInOrder(logits: seq<real>, order: seq<nat>, k: nat, place: nat)
    requires Permutation(order, |logits|) && SortedDown(logits, order) && 0 < k <= |logits| && place < |logits|
    ensures !Below(logits, logits[order[k - 1]])[order[place]] <==> place < k || logits[order[place]] == logits[order[k - 1]]
  {
    if place < k {
      assert logits[order[place]] >= logits[order[k - 1]];
    } else {
      assert logits[order[k - 1]] >= logits[order[place]];
    }
  }

  /** The tokens kept are the first `k` of a descending order, and whoever ties with the last of them. */
  lemma TopKKeeps(lib: Library, logits: seq<real>, topK: nat, place: nat)
    requires lib.Lawful() && topK > 0 && place < |logits|
    ensures var order := lib.Descending(logits);
            var k := CutDown(topK, |logits|);
            !TopK(lib, logits, topK)[order[place]] <==> place < k || logits[order[place]] == logits[order[k - 1]]
  {
    BelowInOrder(logits, lib.Descending(logits), CutDown(topK, |logits|), place);
  }

  lemma BelowKeepsMaximum(logits: seq<real>, at: nat)
    requires at < |logits|
    ensures KeepsAMaximum(logits, Below(logits, logits[at]))
  {
    LargestIsLargest(logits, |logits|);
    var i :| 0 <= i < |logits| && logits[i] == Max(logits);
    assert logits[at] <= Max(logits);
    assert !Below(logits, logits[at])[i];
  }

  lemma TopKKeepsMaximum(lib: Library, logits: seq<real>, topK: nat)
    requires lib.Lawful() && |logits| > 0 && topK > 0
    ensures KeepsAMaximum(logits, TopK(lib, logits, topK))
  {
    BelowKeepsMaximum(logits, lib.Descending(logits)[CutDown(topK, |logits|) - 1]);
  }

  // ----- top-p -----

  /** Running totals of the probabilities in ascending order decide who is removed; the last one never is. */
  function SortedTopP(probs: seq<real>, order: seq<nat>, topP: real): (remove: seq<bool>)
    requires |order| == |probs| && forall i :: 0 <= i < |order| ==> order[i] < |probs|
    ensures |remove| == |probs|
  {
    seq(|probs|, i requires 0 <= i < |probs| => i < |probs| - 1 && SumAt(probs, order, i + 1) <= 1.0 - topP)
  }

  function TopP(lib: Library, logits: seq<real>, topP: real): (remove: seq<bool>)
    requires lib.Lawful() && |logits| > 0
    ensures |remove| == |logits|
  {
    var sorted := SortedTopP(Softmax(lib, logits), lib.Ascending(logits), topP);
    Scatter(sorted, lib.Ascending(logits), sorted, |logits|)
  }

  lemma TopPInOrder(probs: seq<real>, order: seq<nat>, topP: real, place: nat)
    requires Permutation(order, |probs|) && place < |probs|
    ensures var sorted := SortedTopP(probs, order, topP);
            Scatter(sorted, order, sorted, |probs|)[order[place]]
            <==> place < |probs| - 1 && SumAt(probs, order, place + 1) <= 1.0 - topP
  {
    ScatterAt(SortedTopP(probs, order, topP), order, SortedTopP(probs, order, topP), |probs|, place);
  }

  /** A token is removed exactly if the running total up to it leaves mass `topP` behind it, and it is not last. */
  lemma TopPAt(lib: Library, logits: seq<real>, topP: real, place: nat)
    requires lib.Lawful() && place < |logits|
    ensures TopP(lib, logits, topP)[lib.Ascending(logits)[place]]
            <==> place < |logits| - 1 && SumAt(Softmax(lib, logits), lib.Ascending(logits), place + 1) <= 1.0 - topP
  {
    TopPInOrder(Softmax(lib, logits), lib.Ascending(logits), topP, place);
  }

  lemma LastIsLargest(lib: Library, logits: seq<real>)
    requires lib.Lawful() && |logits| > 0
    ensures logits[lib.Ascending(logits)[|logits| - 1]] == Max(logits)
  {
    LargestIsLargest(logits, |logits|);
    var i :| 0 <= i < |logits| && logits[i] == Max(logits);
    Listed(lib.Ascending(logits), |logits|, i);
  }

  lemma TopPKeepsMaximum(lib: Library, logits: seq<real>, topP: real)
    requires lib.Lawful() && |logits| > 0
    ensures KeepsAMaximum(logits, TopP(lib, logits, topP))
  {
    LastIsLargest(lib, logits);
    TopPAt(lib, logits, topP, |logits| - 1);
  }

  // ----- what top-p keeps -----

  /** Probability of the tokens that are not removed. */
  function KeptValues(probs: seq<real>, remove: seq<bool>): (kept: seq<real>)
    requires |probs| == |remove|
    ensures |kept| == |probs|
  {
    seq(|probs|, i requires 0 <= i < |probs| => if remove[i] then 0.0 else probs[i])
  }

  function KeptMass(probs: seq<real>, remove: seq<bool>): real
    requires |probs| == |remove|
  {
    Sum(KeptValues(probs, remove), |probs|)
  }

  ghost predicate Ordered(probs: seq<real>, order: seq<nat>) {
    Permutation(order, |probs|) && forall i :: 0 <= i < |probs| ==> probs[i] >= 0.0
  }

  /** Running totals never fall. */
  lemma {:induction false} TotalsGrow(probs: seq<real>, order: seq<nat>, i: nat, j: nat)
    requires Ordered(probs, order) && i <= j <= |order|
    ensures SumAt(probs, order, i) <= SumAt(probs, order, j)
    decreases j - i
  {
    if i < j {
      TotalsGrow(probs, order, i, j - 1);
    }
  }

  /** Tokens removed by a running total that stays within `limit`: the first ones of the order. */
  ghost predicate RemovesPrefix(probs: seq<real>, order: seq<nat>, remove: seq<bool>, limit: real)
    requires Ordered(probs, order) && |remove| == |probs|
  {
    forall place: nat :: place < |order| ==>
      (remove[order[place]] <==> place < |order| - 1 && SumAt(probs, order, place + 1) <= limit)
  }

  /** The kept mass of the first `n` of the order, when the first `cut` of them are removed. */
  lemma {:induction false} MassInOrder(probs: seq<real>, order: seq<nat>, remove: seq<bool>, cut: nat, n: nat)
    requires Ordered(probs, order) && |remove| == |probs| && n <= |order| && cut <= |order|
    requires forall place: nat :: place < |order| ==> (remove[order[place]] <==> place < cut)
    ensures SumAt(KeptValues(probs, remove), order, n)
            == if n <= cut then 0.0 else SumAt(probs, order, n) - SumAt(probs, order, cut)
  {
    if n > 0 {
      MassInOrder(probs, order, remove, cut, n - 1);
    }
  }

  /** Where removing stops: the first place whose running total is over the limit, at latest the last. */
  lemma {:induction false} CutPlace(probs: seq<real>, order: seq<nat>, remove: seq<bool>, limit: real, n: nat) returns (cut: nat)
    requires Ordered(probs, order) && |remove| == |probs| && RemovesPrefix(probs, order, remove, limit)
    requires n < |order|
    ensures cut <= n
    ensures forall place: nat :: place < n ==> (remove[order[place]] <==> place < cut)
    ensures cut == n || SumAt(probs, order, cut + 1) > limit
    ensures cut > 0 ==> SumAt(probs, order, cut) <= limit
  {
    if n == 0 {
      cut := 0;
    } else {
      cut := CutPlace(probs, order, remove, limit, n - 1);
      if cut == n - 1 && SumAt(probs, order, n) <= limit {
        cut := n;
      } else {
        TotalsGrow(probs, order, cut + 1, n);
      }
    }
  }

  /**
   The mass kept is at least `p` of a total of one; and unless only the last token is left, removing
   the first token that was kept would leave less than `p`.
   */
  lemma PrefixMass(probs: seq<real>, order: seq<nat>, remove: seq<bool>, p: real) returns (cut: nat)
    requires |probs| > 0 && Ordered(probs, order) && Sum(probs, |probs|) == 1.0 && p <= 1.0
    requires |remove| == |probs| && RemovesPrefix(probs, order, remove, 1.0 - p)
    ensures cut < |probs| && forall place: nat :: place < |order| ==> (remove[order[place]] <==> place < cut)
    ensures KeptMass(probs, remove) >= p
    ensures cut < |probs| - 1 ==> KeptMass(probs, remove) - probs[order[cut]] < p
  {
    cut := CutPlace(probs, order, remove, 1.0 - p, |probs| - 1);
    MassInOrder(probs, order, remove, cut, |probs|);
    SumPermuted(probs, order, |probs|);
    SumPermuted(KeptValues(probs, remove), order, |probs|);
  }

  lemma ProbsOrdered(lib: Library, logits: seq<real>)
    requires lib.Lawful() && |logits| > 0
    ensures Ordered(Softmax(lib, logits), lib.Ascending(logits))
  {
    forall i: nat | i < |logits|
      ensures Softmax(lib, logits)[i] >= 0.0
    {
      SoftmaxOrder(lib, logits, i, i);
    }
  }

  lemma TopPRemovesPrefix(lib: Library, logits: seq<real>, topP: real)
    requires lib.Lawful() && |logits| > 0
    ensures Ordered(Softmax(lib, logits), lib.Ascending(logits))
    ensures RemovesPrefix(Softmax(lib, logits), lib.Ascending(logits), TopP(lib, logits, topP), 1.0 - topP)
  {
    ProbsOrdered(lib, logits);
    forall place: nat | place < |logits|
      ensures TopP(lib, logits, topP)[lib.Ascending(logits)[place]]
              <==> place < |logits| - 1 && SumAt(Softmax(lib, logits), lib.Ascending(logits), place + 1) <= 1.0 - topP
    {
      TopPAt(lib, logits, topP, place);
    }
  }

  /** Top-p keeps at least mass `p`, and no token it could do without. */
  lemma TopPMass(lib: Library, logits: seq<real>, topP: real) returns (cut: nat)
    requires lib.Lawful() && |logits| > 0 && topP < 1.0
    ensures cut < |logits|
    ensures forall place: nat :: place < |logits| ==>
      (TopP(lib, logits, topP)[lib.Ascending(logits)[place]] <==> place < cut)
    ensures KeptMass(Softmax(lib, logits), TopP(lib, logits, topP)) >= topP
    ensures cut < |logits| - 1 ==>
      KeptMass(Softmax(lib, logits), TopP(lib, logits, topP)) - Softmax(lib, logits)[lib.Ascending(logits)[cut]] < topP
  {
    TopPRemovesPrefix(lib, logits, topP);
    SoftmaxTotal(lib, logits);
    cut := PrefixMass(Softmax(lib, logits), lib.Ascending(logits), TopP(lib, logits, topP), topP);
  }

  // ----- min-p -----

  /** The probability a token needs: a share of that of the most probable token. */
  function Limit(probs: seq<real>, minP: real): real
    requires |probs| > 0
  {
    minP * Max(probs)
  }

  /** The improbable tokens of an order, but never its first. */
  function SortedMinP(probs: seq<real>, order: seq<nat>, minP: real): (remove: seq<bool>)
    requires |probs| > 0 && |order| == |probs| && forall i :: 0 <= i < |order| ==> order[i] < |probs|
    ensures |remove| == |probs|
  {
    Gather(Below(probs, Limit(probs, minP)), order)[0 := false]
  }

  /** Removes tokens less probable than `minP` times the most probable. */
  function MinP(lib: Library, logits: seq<real>, minP: real): (remove: seq<bool>)
    requires lib.Lawful() && |logits| > 0
    ensures |remove| == |logits|
  {
    var sorted := SortedMinP(Softmax(lib, logits), lib.Descending(logits), minP);
    Scatter(sorted, lib.Descending(logits), sorted, |logits|)
  }

  lemma MinPInOrder(probs: seq<real>, order: seq<nat>, minP: real, place: nat)
    requires Permutation(order, |probs|) && place < |probs|
    ensures var sorted := SortedMinP(probs, order, minP);
            Scatter(sorted, order, sorted, |probs|)[order[place]]
            <==> place > 0 && probs[order[place]] < Limit(probs, minP)
  {
    ScatterAt(SortedMinP(probs, order, minP), order, SortedMinP(probs, order, minP), |probs|, place);
  }

  /** A token is removed exactly if it is improbable and not first in the descending order. */
  lemma MinPKeeps(lib: Library, logits: seq<real>, minP: real, place: nat)
    requires lib.Lawful() && place < |logits|
    ensures MinP(lib, logits, minP)[lib.Descending(logits)[place]]
            <==> place > 0 && Softmax(lib, logits)[lib.Descending(logits)[place]] < Limit(Softmax(lib, logits), minP)
  {
    MinPInOrder(Softmax(lib, logits), lib.Descending(logits), minP, place);
  }

  lemma FirstInOrder(logits: seq<real>, order: seq<nat>)
    requires |logits| > 0 && Permutation(order, |logits|) && SortedDown(logits, order)
    ensures logits[order[0]] == Max(logits)
  {
    LargestIsLargest(logits, |logits|);
    var i :| 0 <= i < |logits| && logits[i] == Max(logits);
    Listed(order, |logits|, i);
    var at: nat :| at < |logits| && order[at] == i;
    assert logits[order[0]] >= logits[order[at]];
  }

  lemma FirstIsLargest(lib: Library, logits: seq<real>)
    requires lib.Lawful() && |logits| > 0
    ensures logits[lib.Descending(logits)[0]] == Max(logits)
  {
    FirstInOrder(logits, lib.Descending(logits));
  }

  lemma MinPKeepsMaximum(lib: Library, logits: seq<real>, minP: real)
    requires lib.Lawful() && |logits| > 0
    ensures KeepsAMaximum(logits, MinP(lib, logits, minP))
  {
    FirstIsLargest(lib, logits);
    MinPKeeps(lib, logits, minP, 0);
  }

  // ----- the pipeline -----

  datatype SamplingConfig = SamplingConfig(topK: nat, topP: real, minP: real)

  datatype Filter = TopKFilter(k: nat) | TopPFilter(p: real) | MinPFilter(m: real)

  /** The filters a configuration asks for, in the order they are applied. */
  function Filters(cfg: SamplingConfig): (filters: seq<Filter>)
    ensures forall i :: 0 <= i < |filters| && filters[i].TopKFilter? ==> filters[i].k > 0
  {
    (if cfg.topK != 0 then [TopKFilter(cfg.topK)] else [])
    + (if cfg.topP < 1.0 then [TopPFilter(cfg.topP)] else [])
    + (if cfg.minP > 0.0 then [MinPFilter(cfg.minP)] else [])
  }

  function Removed(lib: Library, filter: Filter, logits: seq<real>): (remove: seq<bool>)
    requires lib.Lawful() && |logits| > 0 && (filter.TopKFilter? ==> filter.k > 0)
    ensures |remove| == |logits|
  {
    match filter
    case TopKFilter(k) => TopK(lib, logits, k)
    case TopPFilter(p) => TopP(lib, logits, p)
    case MinPFilter(m) => MinP(lib, logits, m)
  }

  lemma RemovedKeepsMaximum(lib: Library, filter: Filter, logits: seq<real>)
    requires lib.Lawful() && |logits| > 0 && (filter.TopKFilter? ==> filter.k > 0)
    ensures KeepsAMaximum(logits, Removed(lib, filter, logits))
  {
    match filter {
      case TopKFilter(k) => TopKKeepsMaximum(lib, logits, k);
      case TopPFilter(p) => TopPKeepsMaximum(lib, logits, p);
      case MinPFilter(m) => MinPKeepsMaximum(lib, logits, m);
    }
  }

  /** Logits that went through filters: each is as it was or masked, and the largest are still there. */
  ghost predicate Filtered(logits: seq<real>, out: seq<real>, lowest: real) {
    && |out| == |logits| > 0 && lowest < Max(logits) && Max(out) == Max(logits)
    && (forall i :: 0 <= i < |out| ==> out[i] == logits[i] || out[i] == lowest)
  }

  lemma FilterOnce(lib: Library, filter: Filter, logits: seq<real>, now: seq<real>, lowest: real)
    requires lib.Lawful() && Filtered(logits, now, lowest) && (filter.TopKFilter? ==> filter.k > 0)
    ensures Filtered(logits, Masked(now, Removed(lib, filter, now), lowest), lowest)
  {
    RemovedKeepsMaximum(lib, filter, now);
    MaximumKept(now, Removed(lib, filter, now), lowest);
  }

  // ----- what each stage leaves -----

  /** Top-k: the first `topK` in descending order, and who ties with the last of them. */
  ghost predicate TopKStage(lib: Library, topK: nat, logits: seq<real>, out: seq<real>, lowest: real)
    requires lib.Lawful() && topK > 0
  {
    var order := lib.Descending(logits);
    && |out| == |logits|
    && forall place: nat :: place < |logits| ==>
         out[order[place]] == if place < topK || (topK <= |logits| && logits[order[place]] == logits[order[topK - 1]])
                              then logits[order[place]] else lowest
  }

  /**
   Top-p: all but the first `cut` in ascending order, where as many are cut as leave mass `topP`, and the
   last one stays.
   */
  ghost predicate TopPStage(lib: Library, topP: real, logits: seq<real>, out: seq<real>, lowest: real, cut: nat)
    requires lib.Lawful()
  {
    && |out| == |logits| && cut < |logits|
    && var order, probs := lib.Ascending(logits), Softmax(lib, logits);
       && (forall place: nat :: place < |logits| ==>
             out[order[place]] == if place < cut then lowest else logits[order[place]])
       && (cut > 0 ==> SumAt(probs, order, cut) <= 1.0 - topP)
       && (cut < |logits| - 1 ==> SumAt(probs, order, cut + 1) > 1.0 - topP)
  }

  /** All but the first in descending order need a probability of at least `share`. */
  ghost predicate KeptFrom(probs: seq<real>, order: seq<nat>, logits: seq<real>, out: seq<real>, lowest: real, share: real)
    requires |probs| == |logits| && Permutation(order, |logits|)
  {
    && |out| == |logits|
    && forall place: nat :: place < |logits| ==>
         out[order[place]] == if place > 0 && probs[order[place]] < share then lowest else logits[order[place]]
  }

  /** Min-p: the share is that of the largest probability. */
  ghost predicate MinPStage(lib: Library, minP: real, logits: seq<real>, out: seq<real>, lowest: real)
    requires lib.Lawful() && |logits| > 0
  {
    var probs := Softmax(lib, logits);
    KeptFrom(probs, lib.Descending(logits), logits, out, lowest, minP * Max(probs))
  }

  /** The configured filters one after the other, with the rows in between; a filter that is off changes nothing. */
  ghost predicate Stages(lib: Library, cfg: SamplingConfig, logits: seq<real>, a: seq<real>, b: seq<real>, out: seq<real>,
                         lowest: real)
    requires lib.Lawful()
  {
    && |logits| == |a| == |b| == |out| > 0
    && (if cfg.topK != 0 then TopKStage(lib, cfg.topK, logits, a, lowest) else a == logits)
    && (if cfg.topP < 1.0 then exists cut: nat :: TopPStage(lib, cfg.topP, a, b, lowest, cut) else b == a)
    && (if cfg.minP > 0.0 then MinPStage(lib, cfg.minP, b, out, lowest) else out == b)
  }

  lemma TopKStands(lib: Library, topK: nat, logits: seq<real>, lowest: real)
    requires lib.Lawful() && topK > 0 && |logits| > 0
    ensures TopKStage(lib, topK, logits, Masked(logits, Removed(lib, TopKFilter(topK), logits), lowest), lowest)
  {
    var order, remove := lib.Descending(logits), TopK(lib, logits, topK);
    var out := Masked(logits, remove, lowest);
    hide TopK;
    forall place: nat | place < |logits|
      ensures out[order[place]]
              == if place < topK || (topK <= |logits| && logits[order[place]] == logits[order[topK - 1]])
                 then logits[order[place]] else lowest
    {
      TopKKeeps(lib, logits, topK, place);
    }
  }

  lemma TopPStands(lib: Library, topP: real, logits: seq<real>, lowest: real) returns (cut: nat)
    requires lib.Lawful() && |logits| > 0 && topP < 1.0
    ensures TopPStage(lib, topP, logits, Masked(logits, Removed(lib, TopPFilter(topP), logits), lowest), lowest, cut)
  {
    var probs, order, remove := Softmax(lib, logits), lib.Ascending(logits), TopP(lib, logits, topP);
    TopPRemovesPrefix(lib, logits, topP);
    cut := CutPlace(probs, order, remove, 1.0 - topP, |logits| - 1);
  }

  lemma MinPStands(lib: Library, minP: real, logits: seq<real>, lowest: real)
    requires lib.Lawful() && |logits| > 0
    ensures MinPStage(lib, minP, logits, Masked(logits, Removed(lib, MinPFilter(minP), logits), lowest), lowest)
  {
    var order, probs, remove := lib.Descending(logits), Softmax(lib, logits), MinP(lib, logits, minP);
    var out := Masked(logits, remove, lowest);
    assert Removed(lib, MinPFilter(minP), logits) == remove && Permutation(order, |logits|);
    hide *;
    forall place: nat | place < |logits|
      ensures remove[order[place]] <==> place > 0 && probs[order[place]] < Limit(probs, minP)
    {
      MinPKeeps(lib, logits, minP, place);
    }
    MaskedBelow(probs, order, logits, remove, lowest, Limit(probs, minP));
    ShareIsLimit(lib, minP, logits, out, lowest, probs);
  }

  lemma ShareIsLimit(lib: Library, minP: real, logits: seq<real>, out: seq<real>, lowest: real, probs: seq<real>)
    requires lib.Lawful() && |logits| > 0 && probs == Softmax(lib, logits)
    requires KeptFrom(probs, lib.Descending(logits), logits, out, lowest, Limit(probs, minP))
    ensures MinPStage(lib, minP, logits, out, lowest)
  {
    hide Softmax, Max, Library.Lawful;
    var share := Limit(probs, minP);
    assert share == minP * Max(probs);
  }

  lemma MaskedBelow(probs: seq<real>, order: seq<nat>, logits: seq<real>, remove: seq<bool>, lowest: real, share: real)
    requires |probs| == |logits| == |remove| && Permutation(order, |logits|)
    requires forall place: nat :: place < |logits| ==> (remove[order[place]] <==> place > 0 && probs[order[place]] < share)
    ensures KeptFrom(probs, order, logits, Masked(logits, remove, lowest), lowest, share)
  {
  }

  lemma PipelineNext(lib: Library, filters: seq<Filter>, logits: seq<real>, lowest: real, n: nat, filter: Filter)
    requires lib.Lawful() && |logits| > 0 && n < |filters| && filters[n] == filter
    requires forall i :: 0 <= i < |filters| && filters[i].TopKFilter? ==> filters[i].k > 0
    ensures var before := Pipeline(lib, filters, logits, lowest, n);
            Pipeline(lib, filters, logits, lowest, n + 1) == Masked(before, Removed(lib, filter, before), lowest)
  {
  }

  /** Where the filters of a configuration are. */
  lemma FiltersAt(cfg: SamplingConfig, filters: seq<Filter>, first: nat, second: nat)
    requires filters == Filters(cfg)
    requires first == (if cfg.topK != 0 then 1 else 0) && second == first + if cfg.topP < 1.0 then 1 else 0
    ensures |filters| == second + if cfg.minP > 0.0 then 1 else 0
    ensures cfg.topK != 0 ==> filters[0] == TopKFilter(cfg.topK)
    ensures cfg.topP < 1.0 ==> filters[first] == TopPFilter(cfg.topP)
    ensures cfg.minP > 0.0 ==> filters[second] == MinPFilter(cfg.minP)
  {
  }

  /** What the filters leave is what the stages of the configuration leave. */
  lemma PipelineIsStages(lib: Library, cfg: SamplingConfig, logits: seq<real>, lowest: real) returns (a: seq<real>, b: seq<real>)
    requires lib.Lawful() && |logits| > 0
    ensures Stages(lib, cfg, logits, a, b, Pipeline(lib, Filters(cfg), logits, lowest, |Filters(cfg)|), lowest)
  {
    hide Filters, Removed, Masked, TopKStage, TopPStage, MinPStage, Library.Lawful;
    var filters := Filters(cfg);
    var first := if cfg.topK != 0 then 1 else 0;
    var second := first + if cfg.topP < 1.0 then 1 else 0;
    FiltersAt(cfg, filters, first, second);
    assert Pipeline(lib, filters, logits, lowest, 0) == logits;
    hide Pipeline;
    a := Pipeline(lib, filters, logits, lowest, first);
    b := Pipeline(lib, filters, logits, lowest, second);
    if cfg.topK != 0 {
      PipelineNext(lib, filters, logits, lowest, 0, TopKFilter(cfg.topK));
      TopKStands(lib, cfg.topK, logits, lowest);
    }
    if cfg.topP < 1.0 {
      PipelineNext(lib, filters, logits, lowest, first, TopPFilter(cfg.topP));
      var cut := TopPStands(lib, cfg.topP, a, lowest);
    }
    if cfg.minP > 0.0 {
      PipelineNext(lib, filters, logits, lowest, second, MinPFilter(cfg.minP));
      MinPStands(lib, cfg.minP, b, lowest);
    }
  }

  /** The loop over the preprocessors. */
  method Preprocess(lib: Library, cfg: SamplingConfig, logits: seq<real>, lowest: real) returns (out: seq<real>)
    requires lib.Lawful() && |logits| > 0 && lowest < Max(logits)
    ensures Filtered(logits, out, lowest)
    ensures out == Pipeline(lib, Filters(cfg), logits, lowest, |Filters(cfg)|)
    ensures exists a, b :: Stages(lib, cfg, logits, a, b, out, lowest)
  {
    var filters := Filters(cfg);
    ghost var a, b := PipelineIsStages(lib, cfg, logits, lowest);
    out := logits;
    for n := 0 to |filters|
      invariant Filtered(logits, out, lowest) && out == Pipeline(lib, filters, logits, lowest, n)
    {
      FilterOnce(lib, filters[n], logits, out, lowest);
      out := Masked(out, Removed(lib, filters[n], out), lowest);
    }
  }

  /** The first `n` filters applied one after the other. */
  function Pipeline(lib: Library, filters: seq<Filter>, logits: seq<real>, lowest: real, n: nat): (out: seq<real>)
    requires lib.Lawful() && |logits| > 0 && n <= |filters|
    requires forall i :: 0 <= i < |filters| && filters[i].TopKFilter? ==> filters[i].k > 0
    ensures |out| == |logits|
  {
    if n == 0 then logits
    else
      var before := Pipeline(lib, filters, logits, lowest, n - 1);
      Masked(before, Removed(lib, filters[n - 1], before), lowest)
  }

  /** So a token with the largest logit survives, and only such a token can be the most likely in the end. */
  lemma MaximumSurvives(logits: seq<real>, out: seq<real>, lowest: real, token: nat)
    requires Filtered(logits, out, lowest) && token < |out|
    ensures exists i :: 0 <= i < |out| && out[i] == logits[i] == Max(logits)
    ensures out[token] == Max(out) ==> out[token] == logits[token] == Max(logits)
  {
    LargestIsLargest(out, |out|);
    var i :| 0 <= i < |out| && out[i] == Max(out);
    assert out[i] == logits[i] == Max(logits);
  }
}
