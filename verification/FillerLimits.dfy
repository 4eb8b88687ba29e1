/**
 Proposals longer than the prepared fillers can serve (`pace/llm/speculative.py`): which sizes work,
 and two ways in which the others go wrong.
 */
module FillerLimits {
  import opened Results
  import opened LanguageModels
  import opened KvCaches
  import opened GreedyRuns
  import opened SpeculativeRuns

  /** A run the configuration allows. */
  predicate Allowed(run: Run, draftSize: nat) {
    run.s.draftSize == draftSize && run.s.prompt != [] && run.s.maxNew > 0
  }

  /** The run raises nothing and returns tokens of the target's own greedy stream. */
  predicate Lossless(run: Run)
    requires run.s.draftSize > 0
  {
    && run.Outcome().Success?
    && var tokens, fixed := run.Outcome().value.tokens, |run.pads| + |run.s.prompt|;
       |tokens| >= fixed && tokens == run.pads + run.s.Committed(|tokens| - fixed)
  }

  /** A prompt of one token, without padding, makes every larger proposal size raise in the first step. */
  lemma OneTokenPromptRaises(run: Run)
    requires Allowed(run, run.s.draftSize) && run.s.draftSize > FILLER_COUNT + 1
    requires |run.s.prompt| == 1 && run.pads == []
    ensures run.Outcome() == Failure(TooFewSamples)
  {
    var drafted := run.DraftFirst(run.Start());
    assert |UsedFillers(run.s.pardToken, run.s.draftSize)| == FILLER_COUNT;
    assert drafted.Success? && |drafted.value.0| == FILLER_COUNT + 1;
    ShortSamples(run, drafted.value.1, drafted.value.0);
  }

  lemma ShortSamples(run: Run, st: State, proposal: seq<Token>)
    requires Allowed(run, run.s.draftSize) && run.s.draftSize > FILLER_COUNT + 1
    requires |run.s.prompt| == 1 && run.pads == [] && |proposal| == FILLER_COUNT + 1
    requires st.target == run.Start().target
    ensures run.SampleFirst(st, proposal).Success? && |run.SampleFirst(st, proposal).value.0| == FILLER_COUNT + 2
  {
  }

  /** The smallest such size, with models that agree on everything. */
  lemma ThirtyFourRaise(paged: bool)
    ensures Run(Setup(_ => 0, _ => 0, 0, 34, [0], 1, {}), [], paged).Outcome() == Failure(TooFewSamples)
  {
    hide Run.Outcome;
    OneTokenPromptRaises(Run(Setup(_ => 0, _ => 0, 0, 34, [0], 1, {}), [], paged));
  }

  lemma UsualIsLossless(run: Run)
    requires run.Usual()
    ensures Lossless(run)
  {
    hide Run.Outcome, Run.After, Run.FirstStep, Run.Finish;
    OutcomeFollows(run);
  }

  /**
   Exactly the proposal sizes up to 33 are served by the 32 fillers: then every run, for all models,
   prompts and paddings, raises nothing and returns the target's own stream; beyond that some do not.
   */
  lemma FillersSuffice(draftSize: nat)
    requires draftSize > 0
    ensures (forall run :: Allowed(run, draftSize) ==> Lossless(run)) <==> draftSize <= FILLER_COUNT + 1
  {
    hide Run.Outcome;
    if draftSize <= FILLER_COUNT + 1 {
      forall run | Allowed(run, draftSize)
        ensures Lossless(run)
      {
        UsualIsLossless(run);
      }
    } else {
      var run := Run(Setup(_ => 0, _ => 0, 0, draftSize, [0], 1, {}), [], false);
      OneTokenPromptRaises(run);
      assert Allowed(run, draftSize) && !Lossless(run);
    }
  }

  // ----- a run that commits a wrong token -----

  /** A target that counts up, but only when it sees each of its tokens once. */
  function Counting(es: seq<Entry>): Token {
    if |es| == 3 then 1
    else if |es| == 4 then 2
    else if |es| > 0 && es[|es| - 1].token == 2 then 3
    else 4
  }

  /** Proposals of 35 tokens, all of them ones. */
  function WrongRun(paged: bool): Run {
    Run(Setup((es: seq<Entry>) => Counting(es), (es: seq<Entry>) => 1, 0, 35, [0, 0, 0], 3, {}), [], paged)
  }

  function Ones(n: nat): seq<Token> {
    seq(n, _ => 1)
  }

  /** The state after the first step: two tokens kept, the draft cache short of two real tokens. */
  ghost predicate AfterFirst(run: Run, st: State) {
    && st.all == [0, 0, 0, 1, 2] && st.next == [1, 2] && st.unfinished
    && st.target.capacity == run.TargetCapacity() && st.target.entries == AtPositions([0, 0, 0, 1], 0) && st.count == 4
    && st.draft.capacity == run.DraftCapacity() && |st.draft.entries| == 1
  }

  lemma FirstProposal(run: Run)
    requires exists paged :: run == WrongRun(paged)
    ensures var r := run.DraftFirst(run.Start());
            && r.Success? && r.value.0 == Ones(35) && |r.value.1.draft.entries| == 35
            && r.value.1 == run.Start().(draft := r.value.1.draft, draftCount := r.value.1.draftCount)
            && r.value.1.draft.capacity == run.DraftCapacity()
  {
  }

  /** Without masked entries the target counts what it is fed. */
  lemma CountsPrefix(run: Run, all: seq<Entry>, k: nat)
    requires exists paged :: run == WrongRun(paged)
    requires 0 < k <= |all| && all[|all| - 1].position == |all| - 1
    ensures OutputAt(run.s.target, all, k) == Counting(all[..k])
  {
  }

  lemma FirstOutputs(run: Run, input: seq<Entry>)
    requires exists paged :: run == WrongRun(paged)
    requires input == AtPositions([0, 0, 0] + Ones(35), 0)
    ensures Outputs(run.s.target, [], input)[2] == 1 && Outputs(run.s.target, [], input)[3] == 2
  {
    assert [] + input == input;
    CountsPrefix(run, input, 3);
    CountsPrefix(run, input, 4);
  }

  lemma SampleFirstIs(run: Run, st: State, proposal: seq<Token>, input: seq<Entry>)
    requires st.target == run.Start().target && input == run.Padded(run.s.prompt + proposal)
    requires |input| <= run.TargetCapacity()
    ensures var r := run.SampleFirst(st, proposal);
            && r.Success? && r.value.0 == Last(Outputs(run.s.target, [], input), run.s.draftSize + 1)
            && r.value.1.target.capacity == run.TargetCapacity() && r.value.1.target.entries == input
            && r.value.1 == st.(target := r.value.1.target, count := st.count + |run.s.prompt| + |proposal|)
  {
    hide Outputs, Run.Padded;
    assert [] + input == input;
  }

  lemma FirstInput(run: Run)
    requires exists paged :: run == WrongRun(paged)
    ensures run.Padded(run.s.prompt + Ones(35)) == AtPositions([0, 0, 0] + Ones(35), 0)
  {
    assert run.Masked() + (run.s.prompt + Ones(35)) == [0, 0, 0] + Ones(35);
  }

  lemma FirstSamples(run: Run, st: State)
    requires exists paged :: run == WrongRun(paged)
    requires st.target == run.Start().target && st.count == 0
    ensures var r := run.SampleFirst(st, Ones(35));
            && r.Success? && |r.value.0| == 36 && r.value.0[0] == 1 && r.value.0[1] == 2
            && r.value.1 == st.(target := r.value.1.target, count := 38)
            && r.value.1.target.capacity == run.TargetCapacity()
            && r.value.1.target.entries == AtPositions([0, 0, 0] + Ones(35), 0)
  {
    hide Outputs, Run.SampleFirst, Run.Padded;
    var input := AtPositions([0, 0, 0] + Ones(35), 0);
    FirstInput(run);
    FirstOutputs(run, input);
    SampleFirstIs(run, st, Ones(35), input);
  }

  lemma FirstKept(run: Run, st: State, sampled: seq<Token>)
    requires exists paged :: run == WrongRun(paged)
    requires |sampled| == 36 && sampled[0] == 1 && sampled[1] == 2
    requires st.all == [0, 0, 0] && st.count == 38 && |st.draft.entries| == 35 && st.draft.capacity == run.DraftCapacity()
    requires st.target.capacity == run.TargetCapacity() && st.target.entries == AtPositions([0, 0, 0] + Ones(35), 0)
    ensures var r := run.Settle(st, sampled, [] + [0, 0, 0] + Ones(35));
            r.Success? && AfterFirst(run, r.value)
  {
    assert Last([] + [0, 0, 0] + Ones(35), 35) == Ones(35);
    assert CommonPrefix(sampled[..35], Ones(35), 0) == CommonPrefix(sampled[..35], Ones(35), 1) == 1;
    assert sampled[..2] == [1, 2];
    assert ([0, 0, 0] + Ones(35))[..4] == [0, 0, 0, 1];
    assert AtPositions([0, 0, 0] + Ones(35), 0)[..4] == AtPositions([0, 0, 0, 1], 0);
  }

  lemma SecondOutputs(run: Run, cached: seq<Entry>, fed: seq<Entry>)
    requires exists paged :: run == WrongRun(paged)
    requires cached == AtPositions([0, 0, 0, 1], 0) && fed == AtPositions([1, 2] + Ones(34), 4)
    ensures Outputs(run.s.target, cached, fed)[0] == 4
  {
    var all := cached + fed;
    assert all[39] == fed[35];
    CountsPrefix(run, all, 5);
    assert all[..5][4] == fed[0];
  }

  /** The second step feeds the target the token 1 once more, behind the one its cache already holds. */
  lemma SecondSamples(run: Run, st: State)
    requires exists paged :: run == WrongRun(paged)
    requires st.next == [1, 2] && st.target.capacity == run.TargetCapacity() && st.count == 4
    requires st.target.entries == AtPositions([0, 0, 0, 1], 0)
    ensures var r := run.SampleNext(st, Ones(34));
            && r.Success? && |r.value.0| == 36 && r.value.0[0] == 4
            && r.value.1 == st.(target := r.value.1.target, count := 40) && |r.value.1.target.entries| == 40
  {
    var input := Last([1, 2] + Ones(34), 36);
    assert input == [1, 2] + Ones(34);
    SecondOutputs(run, st.target.entries, AtPositions(input, 4));
    hide Outputs;
  }

  lemma SecondProposal(run: Run, st: State)
    requires exists paged :: run == WrongRun(paged)
    requires AfterFirst(run, st)
    ensures var r := run.DraftNext(st);
            && r.Success? && r.value.0 == Ones(34) && |r.value.1.draft.entries| == 35
            && r.value.1 == st.(draft := r.value.1.draft, draftCount := r.value.1.draftCount)
  {
  }

  lemma SecondKept(run: Run, st: State, sampled: seq<Token>)
    requires exists paged :: run == WrongRun(paged)
    requires |sampled| == 36 && sampled[0] == 4
    requires st.all == [0, 0, 0, 1, 2] && |st.draft.entries| == 35 && |st.target.entries| == 40
    ensures var r := run.Settle(st, sampled, [1, 2] + Ones(34));
            r.Success? && r.value.all == [0, 0, 0, 1, 2, 4] && !r.value.unfinished
  {
    assert Last([1, 2] + Ones(34), 35)[0] == 2;
    assert CommonPrefix(sampled[..35], Last([1, 2] + Ones(34), 35), 0) == 0;
    assert sampled[..1] == [4];
  }

  lemma FirstOfWrongRun(run: Run)
    requires exists paged :: run == WrongRun(paged)
    ensures run.FirstStep().Success? && AfterFirst(run, run.FirstStep().value)
  {
    hide Run.Settle, Run.DraftFirst, Run.SampleFirst, AfterFirst;
    FirstProposal(run);
    var drafted := run.DraftFirst(run.Start()).value;
    FirstSamples(run, drafted.1);
    var sampled := run.SampleFirst(drafted.1, drafted.0).value;
    FirstKept(run, sampled.1, sampled.0);
    assert run.pads + run.s.prompt + drafted.0 == [] + [0, 0, 0] + Ones(35);
  }

  /**
   At 35 tokens a proposal a run can return, without raising anything, a token that is not the
   target's: 34 proposals and two accepted tokens are just as many as the target is fed, so the first
   of them, which its cache already holds, is fed again.
   */
  lemma WrongTokenCommitted(paged: bool)
    ensures Allowed(WrongRun(paged), 35) && WrongRun(paged).Outcome().Success?
    ensures WrongRun(paged).Outcome().value.tokens == [0, 0, 0, 1, 2, 4]
    ensures WrongRun(paged).s.Committed(3) == [0, 0, 0, 1, 2, 3]
    ensures !Lossless(WrongRun(paged))
  {
    var run := WrongRun(paged);
    hide Run.FirstStep, Run.Finish, AfterFirst;
    FirstOfWrongRun(run);
    SecondStep(run, run.FirstStep().value);
    StreamOfWrongRun(run);
    assert [] + run.s.Committed(3) == run.s.Committed(3);
  }

  lemma SecondStep(run: Run, st: State)
    requires exists paged :: run == WrongRun(paged)
    requires AfterFirst(run, st)
    ensures run.Finish(st).Success? && run.Finish(st).value.all == [0, 0, 0, 1, 2, 4]
  {
    SecondProposal(run, st);
    var drafted := run.DraftNext(st).value;
    SecondSamples(run, drafted.1);
    var sampled := run.SampleNext(drafted.1, drafted.0).value;
    SecondKept(run, sampled.1, sampled.0);
    assert run.NextStep(st) == run.Settle(sampled.1, sampled.0, [1, 2] + Ones(34));
    hide Run.NextStep, Run.Settle, Run.DraftNext, Run.SampleNext;
    assert run.Finish(st) == run.Finish(run.NextStep(st).value) == run.NextStep(st);
  }

  lemma StreamOfWrongRun(run: Run)
    requires exists paged :: run == WrongRun(paged)
    ensures run.s.Committed(3) == [0, 0, 0, 1, 2, 3]
  {
    assert run.s.Committed(0) == [0, 0, 0];
    assert run.s.Committed(1) == [0, 0, 0] + [1];
    assert run.s.Committed(2) == [0, 0, 0, 1] + [2];
    var es := AtPositions([0, 0, 0, 1, 2], 0);
    assert Counting(es) == 3;
    assert run.s.Committed(3) == [0, 0, 0, 1, 2] + [3];
  }
}
