/** The two ways of generating from one prompt, with and without speculation, side by side (`pace/llm/generator.py`). */
module PlainComparison {
  import opened LanguageModels
  import opened Stopping
  import opened GreedyRuns
  import opened SpeculativeRuns
  import opened SpeculativeGeneration
  import opened BatchGeneration
  import opened StopReasons

  /** The solo run of the prompt of a setup ends where the setup's own lengths say. */
  lemma PlainRow(s: Setup, pads: seq<Token>, padToken: Token, steps: nat)
    requires steps == PlainOf(s).PlainLength()
    ensures steps == s.PlainLength() && RowTokens(PlainOf(s), pads, padToken, steps) == pads + s.Committed(steps)
  {
    SameEnd(s, 1);
    TokensOfSolo(PlainOf(s), pads, padToken, steps);
  }

  /** The plain tokens are a prefix of the speculative ones, which are at most a proposal longer. */
  lemma PrefixOfSpeculative(s: Setup, pads: seq<Token>)
    ensures pads + s.Committed(s.PlainLength()) <= pads + s.Committed(s.SpeculativeLength())
    ensures |pads + s.Committed(s.SpeculativeLength())| <= |pads + s.Committed(s.PlainLength())| + s.draftSize
  {
    SpeculativeExtendsPlain(s);
    var plain, speculative := s.Committed(s.PlainLength()), s.Committed(s.SpeculativeLength());
    assert speculative == plain + speculative[|plain|..];
    assert pads + speculative == (pads + plain) + speculative[|plain|..];
  }

  /** Generation without speculation, for a batch of the one prompt. */
  method PlainRun(s: Setup, pads: seq<Token>, padToken: Token, paged: bool) returns (tokens: seq<Token>, reason: Reason)
    requires s.prompt != [] && s.maxNew > 0 && pads == Fillers(padToken, |pads|)
    ensures tokens == pads + s.Committed(s.PlainLength()) && reason == ReasonAt(s.PlainLength(), s.maxNew)
  {
    var batch := new BatchGenerator(s.target, [s.prompt], |pads| + |s.prompt|, padToken, s.maxNew, s.eos, paged);
    var rows, steps := batch.Generate();
    assert batch.Pads(0) == pads;
    assert batch.Setup(0) == PlainOf(s);
    PlainRow(s, pads, padToken, steps);
    tokens, reason := rows[0], batch.criteria.stopReason;
  }

  /**
   Both ways on the same prompt, for any two models: the tokens generated without speculation are a
   prefix of those generated with it, which go on for at most one proposal; the reasons reported agree
   exactly when the lengths say so.
   */
  method Compare(s: Setup, pads: seq<Token>, padToken: Token, paged: bool)
    returns (plain: seq<Token>, plainReason: Reason, speculative: Output)
    requires 0 < s.draftSize <= FILLER_COUNT + 1 && s.prompt != [] && s.maxNew > 0
    requires pads == Fillers(padToken, |pads|)
    ensures plain <= speculative.tokens && |speculative.tokens| <= |plain| + s.draftSize
    ensures plainReason == speculative.stopReason <==> SameReason(s)
  {
    plain, plainReason := PlainRun(s, pads, padToken, paged);
    var generator := new Generator(Run(s, pads, paged));
    var r := generator.Generate();
    speculative := r.value;
    PrefixOfSpeculative(s, pads);
  }
}
