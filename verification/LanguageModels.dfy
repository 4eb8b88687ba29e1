/**
 Tokens, key/value cache entries and the greedy choice of a language model.

 A model is an arbitrary function from the cache entries it may attend to, to the token with
 the largest logit.  Entries carry the position they were rotated with, so feeding a token at a
 wrong position, or masking the wrong number of padding entries, changes what the model sees.
 */
module LanguageModels {
  import opened Indexing

  type Token = int

  /** One slot of a key/value cache: a token and the position it was embedded at. */
  datatype Entry = Entry(token: Token, position: int)

  type LanguageModel = seq<Entry> -> Token

  /** The tokens at consecutive positions `first`, `first + 1`, ... */
  function AtPositions(tokens: seq<Token>, first: int): (es: seq<Entry>)
    ensures |es| == |tokens|
    ensures forall i :: 0 <= i < |es| ==> es[i] == Entry(tokens[i], first + i)
  {
    seq(|tokens|, i requires 0 <= i < |tokens| => Entry(tokens[i], first + i))
  }

  /** Each token with its own position, as the two tensors are passed to a forward call. */
  function Zip(tokens: seq<Token>, positions: seq<int>): (es: seq<Entry>)
    requires |tokens| == |positions|
    ensures |es| == |tokens|
    ensures forall i :: 0 <= i < |es| ==> es[i] == Entry(tokens[i], positions[i])
  {
    seq(|tokens|, i requires 0 <= i < |tokens| => Entry(tokens[i], positions[i]))
  }

  /** `first`, `first + 1`, ..., `first + n - 1`. */
  function Range(first: int, n: nat): (s: seq<int>)
    ensures |s| == n
    ensures forall i :: 0 <= i < n ==> s[i] == first + i
  {
    seq(n, i requires 0 <= i < n => first + i)
  }

  /** The last `n` elements, or everything when there are fewer: `s[-n:]` for positive `n`. */
  function Last<T>(s: seq<T>, n: nat): (r: seq<T>)
    ensures |r| == Min(n, |s|)
  {
    seq(Min(n, |s|), i requires 0 <= i < Min(n, |s|) => s[|s| - Min(n, |s|) + i])
  }

  /** The first `n` elements, or everything when there are fewer: `s[:n]`. */
  function First<T>(s: seq<T>, n: nat): (r: seq<T>)
    ensures |r| == Min(n, |s|)
  {
    seq(Min(n, |s|), i requires 0 <= i < Min(n, |s|) => s[i])
  }

  /** What is left of `es` when the first `hidden` entries are masked as padding. */
  function Visible(es: seq<Entry>, hidden: int): seq<Entry> {
    if hidden <= 0 then es else if hidden <= |es| then es[hidden..] else []
  }

  /**
   The greedy token at slot `k - 1` of a cache.  The number of masked leading entries is derived
   from the cache length and the last position fed, as the attention backend does it.
   */
  function OutputAt(model: LanguageModel, all: seq<Entry>, k: nat): Token
    requires 0 < k <= |all|
  {
    model(Visible(all[..k], |all| - (all[|all| - 1].position + 1)))
  }

  /** The greedy tokens at every input position of one forward call. */
  function Outputs(model: LanguageModel, cached: seq<Entry>, input: seq<Entry>): (out: seq<Token>)
    ensures |out| == |input|
    ensures forall i :: 0 <= i < |input| ==> out[i] == OutputAt(model, cached + input, |cached| + i + 1)
  {
    seq(|input|, i requires 0 <= i < |input| => OutputAt(model, cached + input, |cached| + i + 1))
  }

  /** `prompt` followed by the model's own next `n` greedy tokens: the reference stream. */
  function Continue(model: LanguageModel, prompt: seq<Token>, n: nat): (s: seq<Token>)
    ensures |s| == |prompt| + n
  {
    if n == 0 then prompt
    else
      var s := Continue(model, prompt, n - 1);
      s + [model(AtPositions(s, 0))]
  }

  lemma {:induction false} ContinuePrefix(model: LanguageModel, prompt: seq<Token>, m: nat, n: nat)
    requires m <= n
    ensures Continue(model, prompt, n)[..|prompt| + m] == Continue(model, prompt, m)
    decreases n
  {
    if m < n {
      ContinuePrefix(model, prompt, m, n - 1);
      var s := Continue(model, prompt, n - 1);
      assert Continue(model, prompt, n)[..|prompt| + m] == s[..|prompt| + m];
    }
  }

  /**
   The cache lines up with `context`: after `hidden` masked entries it holds exactly the tokens of
   `context` at positions 0, 1, 2, ... without a gap.
   */
  ghost predicate Holds(es: seq<Entry>, hidden: nat, context: seq<Token>) {
    && |es| == hidden + |context|
    && es[hidden..] == AtPositions(context, 0)
  }

  /** With the cache lined up, an output depends on the real tokens up to its slot and nothing else. */
  lemma OutputSeesContext(model: LanguageModel, all: seq<Entry>, hidden: nat, context: seq<Token>, k: nat)
    requires Holds(all, hidden, context) && 0 < k <= |context|
    ensures OutputAt(model, all, hidden + k) == model(AtPositions(context[..k], 0))
  {
    assert all[|all| - 1] == all[hidden..][|context| - 1];
    assert all[..hidden + k][hidden..] == all[hidden..][..k] == AtPositions(context[..k], 0);
  }

  /** Feeding tokens right after what the cache holds extends the context. */
  lemma FeedExtends(cached: seq<Entry>, hidden: nat, context: seq<Token>, input: seq<Token>)
    requires Holds(cached, hidden, context)
    ensures Holds(cached + AtPositions(input, |context|), hidden, context + input)
  {
    var fed := AtPositions(input, |context|);
    assert (cached + fed)[hidden..] == cached[hidden..] + fed == AtPositions(context + input, 0);
  }

  /** Taking entries off the end takes the same number of tokens off the context. */
  lemma TrimShortens(cached: seq<Entry>, hidden: nat, context: seq<Token>, count: nat)
    requires Holds(cached, hidden, context) && count <= |context|
    ensures Holds(cached[..|cached| - count], hidden, context[..|context| - count])
  {
    var left := |context| - count;
    assert cached[..|cached| - count][hidden..] == cached[hidden..][..left] == AtPositions(context[..left], 0);
  }

  /** Feeding at the end: each output is the model's choice after the context and the input so far. */
  lemma ForwardSees(model: LanguageModel, cached: seq<Entry>, hidden: nat, context: seq<Token>,
                    input: seq<Token>, i: nat)
    requires Holds(cached, hidden, context) && i < |input|
    ensures Outputs(model, cached, AtPositions(input, |context|))[i]
            == model(AtPositions(context + input[..i + 1], 0))
  {
    FeedExtends(cached, hidden, context, input);
    OutputSeesContext(model, cached + AtPositions(input, |context|), hidden, context + input, |context| + i + 1);
    assert (context + input)[..|context| + i + 1] == context + input[..i + 1];
  }

  /** The last outputs of a forward call are the model's choices after ever longer prefixes of the context. */
  lemma LastOutputsSee(model: LanguageModel, cached: seq<Entry>, input: seq<Entry>, hidden: nat,
                       context: seq<Token>, size: nat, i: nat)
    requires Holds(cached + input, hidden, context)
    requires i < size <= |input| && size <= |context|
    ensures Last(Outputs(model, cached, input), size)[i]
            == model(AtPositions(context[..|context| - size + i + 1], 0))
  {
    OutputSeesContext(model, cached + input, hidden, context, |context| - size + i + 1);
  }

  /** A left-padded row: clamped positions 0 for the padding, then 0, 1, 2, ... for the real tokens. */
  function PaddedPositions(pads: nat, length: nat): (ps: seq<int>)
    ensures |ps| == pads + length
    ensures forall i :: 0 <= i < pads + length ==> ps[i] == if i < pads then 0 else i - pads
  {
    seq(pads + length, i requires 0 <= i < pads + length => if i < pads then 0 else i - pads)
  }

  /** The first forward call over a left-padded row lines the cache up with the real tokens. */
  lemma PaddedPrefill(pads: seq<Token>, input: seq<Token>)
    ensures Holds(Zip(pads + input, PaddedPositions(|pads|, |input|)), |pads|, input)
  {
    assert Zip(pads + input, PaddedPositions(|pads|, |input|))[|pads|..] == AtPositions(input, 0);
  }
}
