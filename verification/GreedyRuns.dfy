/**
 What a generation run commits, said without caches, counters or verification: the target model's
 own greedy stream, cut where the stopping rule cuts it.
 */
module GreedyRuns {
  import opened LanguageModels

  /** The inputs of a run.  `prompt` holds the real tokens only, without padding. */
  datatype Setup = Setup(
    target: LanguageModel,
    draft: LanguageModel,
    pardToken: Token,
    draftSize: nat,
    prompt: seq<Token>,
    maxNew: nat,
    eos: set<Token>)
  {
    /** The prompt and the first `n` tokens of the target's greedy stream. */
    function Committed(n: nat): (s: seq<Token>)
      ensures |s| == |prompt| + n
    {
      Continue(target, prompt, n)
    }

    /** Is token number `n` of the stream, counting from 1, an end-of-sequence token? */
    predicate EosAt(n: nat) {
      n > 0 && target(AtPositions(Committed(n - 1), 0)) in eos
    }

    /** Does a run end when it goes from `lo` to `hi` new tokens in one step? */
    predicate StopsWithin(lo: nat, hi: nat) {
      hi >= maxNew || exists k: nat :: lo < k <= hi && EosAt(k)
    }

    /** The first count of new tokens, from `n` on, at which a run of single tokens stops. */
    function PlainLengthFrom(n: nat): nat
      decreases maxNew - n
    {
      if n >= maxNew || EosAt(n) then n else PlainLengthFrom(n + 1)
    }

    function PlainLength(): nat {
      PlainLengthFrom(1)
    }

    /** What the draft model proposes after `n` new tokens. */
    function Proposal(n: nat): (p: seq<Token>)
      ensures |p| == draftSize
    {
      Proposed(draft, pardToken, draftSize, Committed(n))
    }

    /** The target's own next `draftSize` tokens after `n` new tokens. */
    function Upcoming(n: nat): (s: seq<Token>)
      ensures |s| == draftSize
    {
      Committed(n + draftSize)[|prompt| + n..]
    }

    /** Tokens one step commits: the agreeing prefix of the proposal and one token of the target. */
    function StepSize(n: nat): (k: nat)
      ensures 1 <= k <= draftSize + 1
    {
      CommonPrefix(Proposal(n), Upcoming(n), 0) + 1
    }

    /** The number of new tokens a speculative run ends with, continuing from `n`. */
    function SpeculativeLengthFrom(n: nat): nat
      decreases maxNew - n
    {
      var next := n + StepSize(n);
      if StopsWithin(n, next) then next else SpeculativeLengthFrom(next)
    }

    function SpeculativeLength(): nat {
      SpeculativeLengthFrom(0)
    }

    /** How many tokens each step of a speculative run commits, continuing from `n`. */
    function StepSizesFrom(n: nat): (sizes: seq<int>)
      ensures sizes != []
      decreases maxNew - n
    {
      var next := n + StepSize(n);
      [StepSize(n)] + if StopsWithin(n, next) then [] else StepSizesFrom(next)
    }
  }

  function Fillers(pardToken: Token, n: nat): (s: seq<Token>)
    ensures |s| == n
  {
    seq(n, _ => pardToken)
  }

  /** The draft's own choices after `tokens` and 0, 1, ... fillers: it fills in `size` tokens at once. */
  function Proposed(draft: LanguageModel, pardToken: Token, size: nat, tokens: seq<Token>): (p: seq<Token>)
    ensures |p| == size
  {
    seq(size, i requires 0 <= i < size => draft(AtPositions(tokens + Fillers(pardToken, i), 0)))
  }

  /** The first place, from `i` on, at which two rows differ, or their common length. */
  function CommonPrefix(a: seq<Token>, b: seq<Token>, i: nat): (k: nat)
    requires i <= |a| == |b|
    ensures i <= k <= |a|
    ensures forall j :: i <= j < k ==> a[j] == b[j]
    ensures k < |a| ==> a[k] != b[k]
    decreases |a| - i
  {
    if i == |a| || a[i] != b[i] then i else CommonPrefix(a, b, i + 1)
  }

  /** Token number `k` of the stream, found in a longer stretch of it. */
  lemma TokenInRow(s: Setup, m: nat, k: nat)
    requires 0 < k <= m
    ensures s.Committed(m)[|s.prompt| + k - 1] == s.target(AtPositions(s.Committed(k - 1), 0))
  {
    var at := |s.prompt| + k - 1;
    ContinuePrefix(s.target, s.prompt, k, m);
    assert s.Committed(m)[at] == s.Committed(m)[..at + 1][at] == s.Committed(k)[at];
  }

  /** `first` is where a run of single tokens stops: at its first reason to, not before. */
  ghost predicate FirstReason(s: Setup, n: nat, first: nat) {
    && n <= first && (first > n ==> first <= s.maxNew)
    && (first >= s.maxNew || s.EosAt(first))
    && forall k: nat :: n <= k < first ==> !s.EosAt(k)
  }

  lemma {:induction false} PlainLengthIsFirst(s: Setup, n: nat)
    ensures FirstReason(s, n, s.PlainLengthFrom(n))
    decreases s.maxNew - n
  {
    if !(n >= s.maxNew || s.EosAt(n)) {
      PlainLengthIsFirst(s, n + 1);
    }
  }

  /** Until the first reason to stop, a step either falls short of it or ends the run there. */
  lemma StepAndReason(s: Setup, first: nat, n: nat, next: nat)
    requires FirstReason(s, 1, first) && n < first && n < next
    ensures s.StopsWithin(n, next) <==> first <= next
  {
  }

  /** The speculative run never stops before the plain one, and less than one step after it. */
  lemma {:induction false} SpeculativeOvershoots(s: Setup, first: nat, n: nat)
    requires FirstReason(s, 1, first) && n < first
    ensures first <= s.SpeculativeLengthFrom(n) <= first + s.draftSize
    decreases s.maxNew - n
  {
    hide Setup.StepSize, Setup.EosAt;
    var next := n + s.StepSize(n);
    StepAndReason(s, first, n, next);
    hide Setup.StopsWithin;
    if next < first {
      SpeculativeOvershoots(s, first, next);
    }
  }

  /**
   Speculation only overshoots: the speculative run ends with the plain run's tokens and at most
   `draftSize` further tokens of the same greedy stream.
   */
  lemma SpeculativeExtendsPlain(s: Setup)
    ensures s.PlainLength() <= s.SpeculativeLength() <= s.PlainLength() + s.draftSize
    ensures s.Committed(s.PlainLength()) <= s.Committed(s.SpeculativeLength())
    ensures s.PlainLength() <= if s.maxNew > 0 then s.maxNew else 1
  {
    PlainLengthIsFirst(s, 1);
    SpeculativeOvershoots(s, s.PlainLength(), 0);
    ContinuePrefix(s.target, s.prompt, s.PlainLength(), s.SpeculativeLength());
  }

  /** The tokens the target samples over the last committed token followed by the proposal. */
  ghost predicate SampledOver(s: Setup, n: nat, sampled: seq<Token>) {
    && |sampled| == s.draftSize + 1
    && forall i :: 0 <= i <= s.draftSize ==>
         sampled[i] == s.target(AtPositions(s.Committed(n) + s.Proposal(n)[..i], 0))
  }

  /**
   One verification step: the agreeing prefix of the proposal, and the target's token after it,
   are exactly the next tokens of the target's own stream.
   */
  lemma VerifiedStep(s: Setup, n: nat, sampled: seq<Token>) returns (m: nat)
    requires SampledOver(s, n, sampled)
    ensures m == n + s.StepSize(n)
    ensures CommonPrefix(sampled[..s.draftSize], s.Proposal(n), 0) == m - n - 1
    ensures s.Committed(n) + sampled[..m - n] == s.Committed(m)
    ensures (s.Committed(n) + s.Proposal(n))[..|s.prompt| + m - 1] == s.Committed(m - 1)
  {
    var p := s.Proposal(n);
    var k := CommonPrefix(sampled[..s.draftSize], p, 0);
    m := n + k + 1;
    KeepsNextTokens(s, n, sampled, k, m);
    forall i | 0 <= i <= k && i < s.draftSize
      ensures s.Upcoming(n)[i] == sampled[..s.draftSize][i]
    {
      StreamToken(s, n, k, i);
    }
    SameFirstMismatch(p, s.Upcoming(n), sampled[..s.draftSize], k);
  }

  /** The agreeing tokens and the one after them are the next of the stream. */
  lemma KeepsNextTokens(s: Setup, n: nat, sampled: seq<Token>, k: nat, m: nat)
    requires SampledOver(s, n, sampled) && m == n + k + 1
    requires k <= s.draftSize && forall j :: 0 <= j < k ==> s.Proposal(n)[j] == sampled[j]
    ensures s.Committed(n) + sampled[..k + 1] == s.Committed(m)
    ensures (s.Committed(n) + s.Proposal(n))[..|s.prompt| + n + k] == s.Committed(n + k)
  {
    var p := s.Proposal(n);
    AgreeingPrefix(s, n, sampled, k, k);
    assert (s.Committed(n) + p)[..|s.prompt| + n + k] == s.Committed(n) + p[..k];
    assert sampled[..k + 1] == sampled[..k] + [sampled[k]];
    assert s.Committed(n) + sampled[..k + 1] == s.Committed(n) + sampled[..k] + [sampled[k]] == s.Committed(m);
  }

  /** The upcoming tokens are those of any longer stretch of the stream. */
  lemma StreamToken(s: Setup, n: nat, k: nat, i: nat)
    requires i <= k && i < s.draftSize
    ensures s.Upcoming(n)[i] == s.Committed(n + k + 1)[|s.prompt| + n + i]
  {
    var at := |s.prompt| + n + i;
    ContinuePrefix(s.target, s.prompt, n + i + 1, n + k + 1);
    ContinuePrefix(s.target, s.prompt, n + i + 1, n + s.draftSize);
    assert s.Committed(n + s.draftSize)[..at + 1][at] == s.Committed(n + k + 1)[..at + 1][at];
  }

  /** Rows that agree up to the first mismatch of one of them with `p` mismatch `p` at the same place. */
  lemma SameFirstMismatch(p: seq<Token>, u: seq<Token>, w: seq<Token>, k: nat)
    requires |p| == |u| == |w|
    requires k == CommonPrefix(w, p, 0)
    requires forall i :: 0 <= i <= k && i < |u| ==> u[i] == w[i]
    ensures CommonPrefix(p, u, 0) == k
  {
  }

  lemma {:induction false} AgreeingPrefix(s: Setup, n: nat, sampled: seq<Token>, k: nat, i: nat)
    requires SampledOver(s, n, sampled)
    requires i <= k <= s.draftSize && forall j :: 0 <= j < k ==> s.Proposal(n)[j] == sampled[j]
    ensures s.Committed(n) + s.Proposal(n)[..i] == s.Committed(n + i)
    ensures s.Committed(n) + sampled[..i] == s.Committed(n + i)
  {
    var p := s.Proposal(n);
    if i > 0 {
      AgreeingPrefix(s, n, sampled, k, i - 1);
      assert p[..i] == p[..i - 1] + [sampled[i - 1]];
      assert sampled[..i] == sampled[..i - 1] + [sampled[i - 1]];
      assert s.Committed(n) + p[..i] == s.Committed(n) + p[..i - 1] + [sampled[i - 1]];
      assert s.Committed(n) + sampled[..i] == s.Committed(n) + sampled[..i - 1] + [sampled[i - 1]];
    } else {
      assert s.Committed(n) + p[..0] == s.Committed(n);
      assert s.Committed(n) + sampled[..0] == s.Committed(n);
    }
  }

  // ----- the same prompt without speculation -----

  /** A solo run of one prompt, without padding and without speculation. */
  function Solo(target: LanguageModel, prompt: seq<Token>, maxNew: nat, eos: set<Token>): Setup {
    Setup(target, target, 0, 0, prompt, maxNew, eos)
  }

  /** The plain run of a speculative setup. */
  function PlainOf(s: Setup): Setup {
    Solo(s.target, s.prompt, s.maxNew, s.eos)
  }

  /** Where a run of single tokens ends has nothing to do with the draft. */
  lemma {:induction false} SameEnd(s: Setup, n: nat)
    ensures PlainOf(s).PlainLengthFrom(n) == s.PlainLengthFrom(n)
    decreases s.maxNew - n
  {
    assert n > 0 ==> PlainOf(s).Committed(n - 1) == s.Committed(n - 1);
    if !(n >= s.maxNew || s.EosAt(n)) {
      SameEnd(s, n + 1);
    }
  }
}
