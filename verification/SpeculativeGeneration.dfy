/** `Generator.generate` with a PARD decoder configured (`pace/llm/generator.py`), for its one row. */
module SpeculativeGeneration {
  import opened Results
  import opened LanguageModels
  import opened KvCaches
  import opened Stopping
  import opened GreedyRuns
  import opened SpeculativeRuns
  import opened Speculation

  class Generator {
    const run: Run
    const decoder: PardSpeculativeDecoder
    const cache: KvCache
    const criteria: StoppingCriteria
    var numComputed: int
    var allTokens: seq<Token>
    var modelInput: seq<Token>

    /** `prepare_for_generate`: reserves both caches and resets every counter. */
    constructor (run: Run)
      requires run.s.draftSize > 0
      ensures this.run == run
      ensures fresh(cache) && fresh(criteria) && fresh(decoder) && fresh(decoder.kvCache)
      ensures Wired() && Current(true) == run.Start()
    {
      this.run := run;
      var s, pads := run.s, run.pads;
      var width := |pads| + |s.prompt|;
      var maxSeqLength := s.maxNew + width;
      cache := new KvCache(if run.paged then maxSeqLength + s.draftSize else maxSeqLength + s.draftSize + 1);
      criteria := new StoppingCriteria(width, Some(s.maxNew), 0, s.eos, NO_STRINGS);
      decoder := new PardSpeculativeDecoder.Prepare(s.draft, s.pardToken, s.draftSize, width, s.maxNew, run.paged);
      numComputed := 0;
      allTokens := pads + s.prompt;
      modelInput := [];
    }

    /** The parts of a run are distinct, configured alike and sized as prepared. */
    ghost predicate Wired() {
      && decoder.draft == run.s.draft && decoder.pardToken == run.s.pardToken && decoder.draftSize == run.s.draftSize
      && 0 < run.s.draftSize && decoder.usePaged == run.paged && cache != decoder.kvCache
      && criteria.maxLength == Some(run.MaxSeqLength()) && criteria.minLength == |run.pads| + |run.s.prompt|
      && criteria.eos == run.s.eos && criteria.stopString == NO_STRINGS
    }

    /** The variables of the run. */
    ghost function Current(unfinished: bool): State
      reads this, decoder, decoder.kvCache, cache, criteria
    {
      State(allTokens, modelInput, cache.contents, numComputed, decoder.kvCache.contents, decoder.numComputed,
            decoder.totalAccepted, unfinished, criteria.stopReason)
    }

    /** The target's prefill input: the proposal goes on at the positions after the prompt. */
    method PrefillInput(speculated: seq<Token>, ghost proposal: seq<Token>) returns (input: seq<Entry>)
      requires run.s.prompt != [] && speculated == run.pads + run.s.prompt + proposal
      ensures input == run.Padded(run.s.prompt + proposal)
    {
      var initialPositions := PaddedPositions(|run.pads|, |run.s.prompt|);
      var actualLength := |run.s.prompt|;
      var specCount := |speculated| - |run.pads + run.s.prompt|;
      ghost var context := run.s.prompt + proposal;
      if run.paged {
        var packed := Last(speculated, actualLength + specCount);
        var packedPositions := Range(0, actualLength + specCount);
        assert packed == context == [] + context;
        assert packedPositions == PaddedPositions(0, |context|);
        input := Zip(packed, packedPositions);
      } else {
        var positions := initialPositions + Range(actualLength, specCount);
        assert speculated == run.pads + context;
        assert positions == PaddedPositions(|run.pads|, |context|);
        input := Zip(speculated, positions);
      }
    }

    /** The target's part of the prefill: prompt and proposal in one call. */
    method TargetPrefill(speculated: seq<Token>, ghost proposal: seq<Token>) returns (r: Result<seq<Token>>)
      requires Wired() && run.s.prompt != [] && speculated == run.pads + run.s.prompt + proposal
      modifies this`numComputed, cache
      ensures var sampled := run.SampleFirst(old(Current(true)), proposal);
              if sampled.Success? then
                && r.Success? && Last(r.value, run.s.draftSize + 1) == sampled.value.0
                && Current(true) == sampled.value.1
              else
                r == Failure(sampled.error)
    {
      var input := PrefillInput(speculated, proposal);
      var out :- Forward(run.s.target, input, cache);
      numComputed := numComputed + (|run.s.prompt| + (|speculated| - |run.pads + run.s.prompt|));
      r := Success(out);
    }

    /** `_prefill_forward`: the prompt through the draft, then prompt and proposal through the target. */
    method PrefillForward() returns (r: Result<(seq<Token>, seq<Token>)>)
      requires Wired() && run.s.prompt != []
      modifies this`numComputed, decoder, decoder.kvCache, cache
      ensures ForwardedAs(run.FirstForward(old(Current(true))), r, Current(true))
    {
      var speculated :- decoder.SpeculatePrefill(run.pads, run.s.prompt);
      ghost var proposal := run.DraftFirst(old(Current(true))).value.0;
      hide Run.SampleFirst;
      var out :- TargetPrefill(speculated, proposal);
      r := Success((out, speculated));
    }

    /** Whether the forward calls gave what the run says: the samples are the last outputs. */
    ghost predicate ForwardedAs(f: Result<Forwarded>, r: Result<(seq<Token>, seq<Token>)>, st: State) {
      if f.Success? then
        && r.Success? && Last(r.value.0, run.s.draftSize + 1) == f.value.sampled
        && r.value.1 == f.value.speculated && st == f.value.st
      else
        r == Failure(f.error)
    }

    /**
     `_decode_forward`: all tokens accepted last through the draft, the last of them and the
     proposal through the target.
     */
    method DecodeForward() returns (r: Result<(seq<Token>, seq<Token>)>)
      requires Wired()
      modifies this`numComputed, decoder, decoder.kvCache, cache
      ensures ForwardedAs(run.NextForward(old(Current(true))), r, Current(true))
    {
      var speculated :- decoder.Speculate(modelInput);
      var targetInput := Last(speculated, 1 + run.s.draftSize);
      var positions := Range(numComputed, |targetInput|);
      assert Zip(targetInput, positions) == AtPositions(targetInput, numComputed);
      var out :- Forward(run.s.target, Zip(targetInput, positions), cache);
      numComputed := numComputed + |targetInput|;
      r := Success((out, speculated));
    }

    /** Takes the rejected part of the proposal out of the target cache again. */
    method RollBackTarget(trim: nat) returns (r: Result<()>)
      modifies this`numComputed, cache
      ensures r.Success? <==> trim <= |old(cache.contents).entries|
      ensures r.Success? ==>
        cache.contents == old(cache.contents).Remove(trim).value && numComputed == old(numComputed) - trim
      ensures r.Failure? ==> r.error == RemoveTooMany
    {
      if trim > 0 {
        var _ :- cache.RemoveCache(trim);
        numComputed := numComputed - trim;
      }
      assert trim == 0 ==> old(cache.contents).entries[..|old(cache.contents).entries|] == old(cache.contents).entries;
      r := Success(());
    }

    /** Verifies, rolls both caches back, appends what was accepted and asks the stopping rule. */
    method SampleAndPostprocess(out: seq<Token>, speculated: seq<Token>) returns (r: Result<bool>)
      requires Wired() && |allTokens| >= |run.pads| + |run.s.prompt|
      modifies this, criteria, decoder, decoder.kvCache, cache
      ensures SteppedAs(run.Settle(old(Current(true)), Last(out, run.s.draftSize + 1), speculated), r)
    {
      var verified :- decoder.Verify(Last(out, run.s.draftSize + 1), speculated);
      var _ :- RollBackTarget(verified.targetTrim);
      var unfinished := AppendToRow(verified.accepted);
      r := Success(unfinished);
    }

    /** Whether a step left the variables as the run says. */
    ghost predicate SteppedAs(after: Result<State>, r: Result<bool>)
      reads this, decoder, decoder.kvCache, cache, criteria
    {
      if after.Success? then r == Success(after.value.unfinished) && Current(after.value.unfinished) == after.value
      else r == Failure(after.error)
    }

    /** Puts the accepted tokens on the row and asks the stopping rule about them. */
    method AppendToRow(nextTokens: seq<Token>) returns (unfinished: bool)
      requires Wired() && |allTokens| >= |run.pads| + |run.s.prompt| && nextTokens != []
      modifies this`allTokens, this`modelInput, criteria
      ensures allTokens == old(allTokens) + nextTokens && modelInput == nextTokens
      ensures !unfinished <==> |allTokens| >= run.MaxSeqLength() || NewEos(allTokens, |nextTokens|, run.s.eos)
      ensures criteria.stopReason == if unfinished then old(criteria.stopReason)
                                     else if |allTokens| >= run.MaxSeqLength() then Length else Stop
    {
      allTokens := allTokens + nextTokens;
      modelInput := nextTokens;
      var stopped := criteria.StopNow([allTokens], |nextTokens|);
      unfinished := !stopped[0];
      assert stopped == [stopped[0]];
    }

    /** One pass of the decode loop. */
    method DecodeStep() returns (r: Result<bool>)
      requires Wired() && |allTokens| >= |run.pads| + |run.s.prompt|
      modifies this, criteria, decoder, decoder.kvCache, cache
      ensures SteppedAs(run.NextStep(old(Current(true))), r)
    {
      var forwarded :- DecodeForward();
      r := SampleAndPostprocess(forwarded.0, forwarded.1);
    }

    /** The first step, over the prompt. */
    method PrefillStep() returns (r: Result<bool>)
      requires Wired() && Current(true) == run.Start() && run.s.prompt != []
      modifies this, criteria, decoder, decoder.kvCache, cache
      ensures SteppedAs(run.FirstStep(), r)
    {
      var forwarded :- PrefillForward();
      r := SampleAndPostprocess(forwarded.0, forwarded.1);
    }

    /** The decode loop: steps until the row stops, or one of them raises. */
    method DecodeLoop(start: bool) returns (r: Result<bool>)
      requires Wired() && |allTokens| >= |run.pads| + |run.s.prompt|
      requires start ==> |allTokens| < run.MaxSeqLength()
      modifies this, criteria, decoder, decoder.kvCache, cache
      ensures SteppedAs(run.Finish(old(Current(start))), r)
    {
      hide Run.NextStep;
      var unfinished := start;
      ghost var goal := run.Finish(Current(start));
      while unfinished
        invariant |allTokens| >= |run.pads| + |run.s.prompt|
        invariant unfinished ==> |allTokens| < run.MaxSeqLength()
        invariant run.Finish(Current(unfinished)) == goal
        decreases if unfinished then 1 + run.MaxSeqLength() - |allTokens| else 0
      {
        unfinished :- DecodeStep();
      }
      r := Success(false);
    }

    /**
     A whole run is the run the inputs determine, errors included.  Up to 33 tokens a proposal it
     raises nothing, ends exactly where the cache-free reference says, returns the padded prompt
     followed by the target's own greedy tokens, and never overfills a cache.
     */
    method Generate() returns (r: Result<Output>)
      requires Wired() && Current(true) == run.Start()
      requires run.s.prompt != [] && run.s.maxNew > 0
      modifies this, criteria, decoder, decoder.kvCache, cache
      ensures r == run.Outcome()
      ensures run.s.draftSize <= FILLER_COUNT + 1 ==>
        var length := run.s.SpeculativeLength();
        && r.Success? && r.value.tokens == run.pads + run.s.Committed(length)
        && r.value.stopReason == ReasonAt(length, run.s.maxNew)
        && 0 < r.value.steps == |run.s.StepSizesFrom(0)| <= r.value.totalAccepted == length
        && run.After(Current(false), length)
    {
      hide Run.Finish, Run.FirstStep, Run.After;
      if run.s.draftSize <= FILLER_COUNT + 1 {
        OutcomeFollows(run);
      }
      var unfinished :- PrefillStep();
      FirstIsLonger(run);
      var _ :- DecodeLoop(unfinished);
      var (totalAccepted, steps) := decoder.GetStats();
      r := Success(Output(allTokens, criteria.stopReason, totalAccepted, steps));
    }
  }

  lemma FirstIsLonger(run: Run)
    requires run.s.draftSize > 0 && run.FirstStep().Success?
    ensures var st := run.FirstStep().value;
            |st.all| > |run.pads| + |run.s.prompt| && (st.unfinished ==> |st.all| < run.MaxSeqLength())
  {
    var f := run.FirstForward(run.Start()).value;
    assert f.st.all == run.pads + run.s.prompt;
  }
}
