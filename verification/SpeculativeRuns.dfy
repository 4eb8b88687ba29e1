/**
 A generation run with a PARD decoder, as a function of its inputs, for every proposal size
 (`pace/llm/generator.py`, `pace/llm/speculative.py`): both caches, both counters, and every error.
 Up to 33 tokens a proposal the run is the cache-free reference of `GreedyRuns`.
 */
module SpeculativeRuns {
  import opened Results
  import opened Indexing
  import opened LanguageModels
  import opened KvCaches
  import opened Stopping
  import opened GreedyRuns
  import opened Tensors

  /** How many filler tokens the decoder prepares once and slices from. */
  const FILLER_COUNT: nat := 32

  /** The fillers appended to an input: one for every token to propose beyond the first, as far as they last. */
  function UsedFillers(pardToken: Token, draftSize: nat): (s: seq<Token>)
    requires draftSize > 0
    ensures |s| == Min(draftSize - 1, FILLER_COUNT) && s == Fillers(pardToken, |s|)
  {
    First(Fillers(pardToken, FILLER_COUNT), draftSize - 1)
  }

  /** What is left of a run's variables between two steps. */
  datatype State = State(
    all: seq<Token>,
    next: seq<Token>,
    target: Cache,
    count: int,
    draft: Cache,
    draftCount: int,
    accepted: seq<int>,
    unfinished: bool,
    reason: Reason)

  datatype Output = Output(tokens: seq<Token>, stopReason: Reason, totalAccepted: int, steps: nat)

  /** What the forward calls of a step give: samples, the extended input, and both caches run ahead. */
  datatype Forwarded = Forwarded(sampled: seq<Token>, speculated: seq<Token>, st: State)

  /**
   How many leading tokens of `sampled` are equal to those of a row they are compared with.  A row of
   one token is compared with every token, and no token with a row of none.
   */
  function Agreeing(sampled: seq<Token>, row: seq<Token>): (r: Result<nat>)
    requires |row| <= |sampled|
    ensures r.Success? <==> |row| == |sampled| || |row| == 1 || |sampled| == 1
    ensures r.Success? ==> r.value <= |sampled|
    ensures r.Failure? ==> r.error == ShapeMismatch
  {
    if |row| == |sampled| then Success(CommonPrefix(sampled, row, 0))
    else if |row| == 1 then Success(CommonPrefix(sampled, Fillers(row[0], |sampled|), 0))
    else if |sampled| == 1 then Success(0)
    else Failure(ShapeMismatch)
  }

  /** How many of the sampled tokens verification keeps. */
  function Kept(draftSize: nat, sampled: seq<Token>, speculated: seq<Token>): (r: Result<nat>)
    ensures r.Success? ==> 1 <= r.value <= draftSize + 1 <= |sampled|
    ensures |sampled| < draftSize + 1 ==> r == Failure(TooFewSamples)
  {
    if |sampled| < draftSize + 1 then Failure(TooFewSamples)
    else
      var agreeing :- Agreeing(sampled[..draftSize], Last(speculated, draftSize));
      Success(agreeing + 1)
  }

  /** The inputs of one run; `pads` is the left padding of the prompt row. */
  datatype Run = Run(s: Setup, pads: seq<Token>, paged: bool) {

    /** Longest row the stopping rule allows, padding included. */
    function MaxSeqLength(): nat {
      |pads| + |s.prompt| + s.maxNew
    }

    /** The padding that ends up in the caches: a paged cache gets none. */
    function Masked(): (masked: seq<Token>) {
      if paged then [] else pads
    }

    function Hidden(): nat {
      |Masked()|
    }

    function TargetCapacity(): nat {
      MaxSeqLength() + s.draftSize + if paged then 0 else 1
    }

    function DraftCapacity(): nat {
      MaxSeqLength() + (if paged then s.draftSize else 0) + s.draftSize * 2
    }

    /** Both caches reserved, every counter reset. */
    function Start(): State {
      State(pads + s.prompt, [], Cache(TargetCapacity(), [], 0), 0, Cache(DraftCapacity(), [], 0), 0, [], true, Stop)
    }

    /** Tokens behind the masked padding, at positions 0, 1, ... */
    function Padded(context: seq<Token>): (input: seq<Entry>)
      ensures |input| == Hidden() + |context|
    {
      Zip(Masked() + context, PaddedPositions(Hidden(), |context|))
    }

    /** A draft call: its last outputs are the proposal. */
    function Draft(st: State, input: seq<Entry>, counted: int): Result<(seq<Token>, State)> {
      var r :- st.draft.Call(s.draft, input);
      Success((Last(r.0, s.draftSize), st.(draft := r.1, draftCount := st.draftCount + counted)))
    }

    /** A target call: its last outputs are the samples. */
    function Sample(st: State, input: seq<Entry>, counted: int): Result<(seq<Token>, State)> {
      var r :- st.target.Call(s.target, input);
      Success((Last(r.0, s.draftSize + 1), st.(target := r.1, count := st.count + counted)))
    }

    /** The draft's prefill: the prompt and the fillers. */
    function DraftFirst(st: State): Result<(seq<Token>, State)>
      requires s.draftSize > 0
    {
      var fed := s.prompt + UsedFillers(s.pardToken, s.draftSize);
      Draft(st, Padded(fed), |fed|)
    }

    /** The draft in the decode loop: all tokens accepted last, and the fillers. */
    function DraftNext(st: State): Result<(seq<Token>, State)>
      requires s.draftSize > 0
    {
      var fed := st.next + UsedFillers(s.pardToken, s.draftSize);
      Draft(st, AtPositions(fed, st.draftCount), |fed|)
    }

    /** The target's prefill: the prompt and the proposal. */
    function SampleFirst(st: State, proposal: seq<Token>): Result<(seq<Token>, State)> {
      Sample(st, Padded(s.prompt + proposal), |s.prompt| + |proposal|)
    }

    /** The target in the decode loop: the last tokens of input and proposal. */
    function SampleNext(st: State, proposal: seq<Token>): Result<(seq<Token>, State)> {
      var input := Last(st.next + proposal, 1 + s.draftSize);
      Sample(st, AtPositions(input, st.count), |input|)
    }

    /** The state once `kept` tokens are appended to the row and the stopping rule was asked. */
    function Settled(st: State, sampled: seq<Token>, kept: nat, draft: Cache, target: Cache): (r: State)
      requires kept <= |sampled|
      ensures |r.all| == |st.all| + kept && (r.unfinished ==> |r.all| < MaxSeqLength())
    {
      var trim := s.draftSize + 1 - kept;
      var all := st.all + sampled[..kept];
      var stops := |all| >= MaxSeqLength() || NewEos(all, kept, s.eos);
      State(all, sampled[..kept], target, st.count - trim, draft, st.draftCount - (s.draftSize - 1),
            st.accepted + [kept], !stops,
            if !stops then st.reason else if |all| >= MaxSeqLength() then Length else Stop)
    }

    /** Verification, both rollbacks, and the stopping rule. */
    function Settle(st: State, sampled: seq<Token>, speculated: seq<Token>): (r: Result<State>)
      requires s.draftSize > 0
      ensures r.Success? ==> |r.value.all| > |st.all| && (r.value.unfinished ==> |r.value.all| < MaxSeqLength())
      ensures |sampled| < s.draftSize + 1 ==> r == Failure(TooFewSamples)
    {
      var kept :- Kept(s.draftSize, sampled, speculated);
      var draft :- st.draft.Remove(s.draftSize - 1);
      var target :- st.target.Remove(s.draftSize + 1 - kept);
      Success(Settled(st, sampled, kept, draft, target))
    }

    /** The forward calls of the first step. */
    function FirstForward(st: State): Result<Forwarded>
      requires s.draftSize > 0
    {
      var drafted :- DraftFirst(st);
      var sampled :- SampleFirst(drafted.1, drafted.0);
      Success(Forwarded(sampled.0, pads + s.prompt + drafted.0, sampled.1))
    }

    /** The forward calls of one pass of the decode loop. */
    function NextForward(st: State): Result<Forwarded>
      requires s.draftSize > 0
    {
      var drafted :- DraftNext(st);
      var sampled :- SampleNext(drafted.1, drafted.0);
      Success(Forwarded(sampled.0, st.next + drafted.0, sampled.1))
    }

    /** The first step, over the prompt. */
    function FirstStep(): Result<State>
      requires s.draftSize > 0
    {
      var f :- FirstForward(Start());
      Settle(f.st, f.sampled, f.speculated)
    }

    /** One pass of the decode loop. */
    function NextStep(st: State): (r: Result<State>)
      requires s.draftSize > 0
      ensures r.Success? ==> |r.value.all| > |st.all| && (r.value.unfinished ==> |r.value.all| < MaxSeqLength())
    {
      var f :- NextForward(st);
      Settle(f.st, f.sampled, f.speculated)
    }

    /** The decode loop. */
    function Finish(st: State): (r: Result<State>)
      requires s.draftSize > 0
      ensures r.Success? ==> !r.value.unfinished
      decreases if st.unfinished then 1 + (if |st.all| < MaxSeqLength() then MaxSeqLength() - |st.all| else 0) else 0
    {
      if !st.unfinished then Success(st)
      else
        var after :- NextStep(st);
        Finish(after)
    }

    function Outcome(): Result<Output>
      requires s.draftSize > 0
    {
      var first :- FirstStep();
      var last :- Finish(first);
      Success(Output(last.all, last.reason, Sum(last.accepted), |last.accepted|))
    }

    // ----- where a run is that follows the reference -----

    /**
     The state after steps that committed `n` tokens: the row is the prompt and `n` tokens of the
     target's own stream; the target cache holds all of it but the last token, the draft cache all
     of it but the tokens accepted last, which are the next input; both counters agree with the
     caches, and the accepted counts add up to `n`.
     */
    ghost predicate After(st: State, n: nat) {
      && 0 < |st.next| <= n
      && st.all == pads + s.Committed(n)
      && TargetHolds(st, s.Committed(n - 1))
      && s.Committed(n - |st.next|) + st.next == s.Committed(n)
      && DraftHolds(st, s.Committed(n - |st.next|), n)
      && PeaksBounded(st)
    }

    ghost predicate TargetHolds(st: State, tokens: seq<Token>) {
      st.target.capacity == TargetCapacity() && Holds(st.target.entries, Hidden(), tokens) && st.count == |tokens|
    }

    /** The draft cache stands for exactly `tokens`, and the accepted counts add up to `n`. */
    ghost predicate DraftHolds(st: State, tokens: seq<Token>, n: nat) {
      && st.draft.capacity == DraftCapacity() && Holds(st.draft.entries, Hidden(), tokens)
      && st.draftCount == |tokens| && |st.accepted| <= Sum(st.accepted) == n
    }

    /** In the middle of any step so far, no cache held more than this. */
    ghost predicate PeaksBounded(st: State) {
      && st.target.peak <= MaxSeqLength() + s.draftSize - 1
      && st.draft.peak <= MaxSeqLength() + s.draftSize - 2
    }

    /**
     Between a step's forward calls and its verification: both caches have run ahead, the draft's
     by its fillers, the target's by the whole proposal.
     */
    ghost predicate Drafted(st: State, n: nat)
      requires s.draftSize > 0
    {
      && st.all == pads + s.Committed(n)
      && TargetHolds(st, s.Committed(n) + s.Proposal(n))
      && DraftHolds(st, s.Committed(n) + Fillers(s.pardToken, s.draftSize - 1), n)
      && PeaksBounded(st)
    }

    /** What the runs of the reference are asked to be like. */
    ghost predicate Usual() {
      0 < s.draftSize <= FILLER_COUNT + 1 && s.prompt != [] && s.maxNew > 0
    }
  }

  // ----- one draft call -----

  /** The last outputs of a draft call that ends in fillers are the draft's proposal. */
  lemma LastOutputsPropose(draft: LanguageModel, pardToken: Token, size: nat,
                           cached: seq<Entry>, input: seq<Entry>, hidden: nat, tokens: seq<Token>)
    requires 0 < size <= |input| && tokens != []
    requires Holds(cached + input, hidden, tokens + Fillers(pardToken, size - 1))
    ensures Last(Outputs(draft, cached, input), size) == Proposed(draft, pardToken, size, tokens)
  {
    var out := Outputs(draft, cached, input);
    var fed := tokens + Fillers(pardToken, size - 1);
    forall i | 0 <= i < size
      ensures Last(out, size)[i] == Proposed(draft, pardToken, size, tokens)[i]
    {
      LastOutputsSee(draft, cached, input, hidden, fed, size, i);
      assert fed[..|tokens| + i] == tokens + Fillers(pardToken, i);
    }
  }

  lemma DraftFirstFollows(run: Run)
    requires run.Usual()
    ensures var r := run.DraftFirst(run.Start());
            && r.Success? && r.value.0 == run.s.Proposal(0)
            && run.DraftHolds(r.value.1, run.s.Committed(0) + Fillers(run.s.pardToken, run.s.draftSize - 1), 0)
            && r.value.1 == run.Start().(draft := r.value.1.draft, draftCount := r.value.1.draftCount)
            && r.value.1.draft.peak <= run.MaxSeqLength() + run.s.draftSize - 2
  {
    var s, start := run.s, run.Start();
    var fillers := Fillers(s.pardToken, s.draftSize - 1);
    var fed := s.prompt + fillers;
    assert UsedFillers(s.pardToken, s.draftSize) == fillers;
    assert s.Committed(0) == s.prompt;
    PaddedPrefill(run.Masked(), fed);
    assert [] + run.Padded(fed) == run.Padded(fed);
    LastOutputsPropose(s.draft, s.pardToken, s.draftSize, [], run.Padded(fed), run.Hidden(), s.prompt);
    assert start.accepted == [] && Sum(start.accepted) == 0;
  }

  lemma DraftNextFollows(run: Run, st: State, n: nat)
    requires run.Usual() && run.After(st, n) && n < run.s.maxNew
    ensures var r := run.DraftNext(st);
            && r.Success? && r.value.0 == run.s.Proposal(n)
            && run.DraftHolds(r.value.1, run.s.Committed(n) + Fillers(run.s.pardToken, run.s.draftSize - 1), n)
            && r.value.1 == st.(draft := r.value.1.draft, draftCount := r.value.1.draftCount)
            && r.value.1.draft.peak <= run.MaxSeqLength() + run.s.draftSize - 2
  {
    var s := run.s;
    var fillers := Fillers(s.pardToken, s.draftSize - 1);
    var fed := st.next + fillers;
    var context := s.Committed(n - |st.next|);
    assert UsedFillers(s.pardToken, s.draftSize) == fillers;
    FeedExtends(st.draft.entries, run.Hidden(), context, fed);
    assert context + fed == s.Committed(n) + fillers;
    LastOutputsPropose(s.draft, s.pardToken, s.draftSize, st.draft.entries, AtPositions(fed, st.draftCount),
                       run.Hidden(), s.Committed(n));
  }

  // ----- one target call -----

  lemma SampledFromOutputs(s: Setup, n: nat, cached: seq<Entry>, input: seq<Entry>, hidden: nat)
    requires Holds(cached + input, hidden, s.Committed(n) + s.Proposal(n))
    requires |input| > s.draftSize && s.prompt != []
    ensures SampledOver(s, n, Last(Outputs(s.target, cached, input), s.draftSize + 1))
  {
    var context := s.Committed(n) + s.Proposal(n);
    var sampled := Last(Outputs(s.target, cached, input), s.draftSize + 1);
    forall i | 0 <= i <= s.draftSize
      ensures sampled[i] == s.target(AtPositions(s.Committed(n) + s.Proposal(n)[..i], 0))
    {
      LastOutputsSee(s.target, cached, input, hidden, context, s.draftSize + 1, i);
      assert context[..|s.prompt| + n + i] == s.Committed(n) + s.Proposal(n)[..i];
    }
  }

  lemma SampleFirstFollows(run: Run, st: State)
    requires run.Usual() && st.target == run.Start().target && st.count == 0
    ensures var r := run.SampleFirst(st, run.s.Proposal(0));
            && r.Success? && SampledOver(run.s, 0, r.value.0)
            && run.TargetHolds(r.value.1, run.s.Committed(0) + run.s.Proposal(0))
            && r.value.1 == st.(target := r.value.1.target, count := r.value.1.count)
            && r.value.1.target.peak <= run.MaxSeqLength() + run.s.draftSize - 1
  {
    var s := run.s;
    var context := s.prompt + s.Proposal(0);
    assert s.Committed(0) == s.prompt;
    PaddedPrefill(run.Masked(), context);
    assert [] + run.Padded(context) == run.Padded(context);
    SampledFromOutputs(s, 0, [], run.Padded(context), run.Hidden());
  }

  /** The target is fed the last committed token and the proposal. */
  lemma LastCommitted(committed: seq<Token>, context: seq<Token>, modelInput: seq<Token>,
                      proposal: seq<Token>, targetInput: seq<Token>)
    requires context + modelInput == committed && modelInput != []
    requires targetInput == Last(modelInput + proposal, 1 + |proposal|)
    ensures committed[..|committed| - 1] + targetInput == committed + proposal
  {
    assert targetInput == [modelInput[|modelInput| - 1]] + proposal;
    assert committed[|committed| - 1] == modelInput[|modelInput| - 1];
  }

  lemma SampleNextFollows(run: Run, st: State, n: nat)
    requires run.Usual() && 0 < |st.next| <= n < run.s.maxNew
    requires run.s.Committed(n - |st.next|) + st.next == run.s.Committed(n)
    requires run.TargetHolds(st, run.s.Committed(n - 1)) && st.target.peak <= run.MaxSeqLength() + run.s.draftSize - 1
    ensures var r := run.SampleNext(st, run.s.Proposal(n));
            && r.Success? && SampledOver(run.s, n, r.value.0)
            && run.TargetHolds(r.value.1, run.s.Committed(n) + run.s.Proposal(n))
            && r.value.1 == st.(target := r.value.1.target, count := r.value.1.count)
            && r.value.1.target.peak <= run.MaxSeqLength() + run.s.draftSize - 1
  {
    var s := run.s;
    var input := Last(st.next + s.Proposal(n), 1 + s.draftSize);
    LastCommitted(s.Committed(n), s.Committed(n - |st.next|), st.next, s.Proposal(n), input);
    assert s.Committed(n)[..|s.prompt| + n - 1] == s.Committed(n - 1);
    FeedExtends(st.target.entries, run.Hidden(), s.Committed(n - 1), input);
    SampledFromOutputs(s, n, st.target.entries, AtPositions(input, st.count), run.Hidden());
  }

  // ----- verification and stopping -----

  /** The stopping rule, asked about the tokens of a padded row after number `n`. */
  lemma StopsOnLast(s: Setup, pads: seq<Token>, row: seq<Token>, n: nat, next: nat)
    requires n <= next && row == pads + s.Committed(next)
    ensures s.StopsWithin(n, next) <==> next >= s.maxNew || NewEos(row, next - n, s.eos)
  {
    var last := Last(row, next - n);
    forall k: nat | n < k <= next
      ensures last[k - n - 1] in s.eos <==> s.EosAt(k)
    {
      TokenInRow(s, next, k);
    }
    if k: nat :| n < k <= next && s.EosAt(k) {
      var token := last[k - n - 1];
      assert token in last && token in s.eos;
      assert NewEos(row, next - n, s.eos);
    }
    if NewEos(row, next - n, s.eos) {
      var i :| 0 <= i < |last| && last[i] in s.eos;
      var k: nat := n + i + 1;
      assert last[k - n - 1] in s.eos;
      assert n < k <= next && s.EosAt(k);
    }
  }

  lemma ConcatAssociates(a: seq<Token>, b: seq<Token>, c: seq<Token>)
    ensures a + b + c == a + (b + c)
  {
  }

  lemma SumAppend(s: seq<int>, k: int)
    ensures Sum(s + [k]) == Sum(s) + k
  {
    assert (s + [k])[..|s|] == s;
  }

  /** What verification keeps are the next tokens of the target's stream, and the stopping rule sees them. */
  lemma KeptFollows(run: Run, st: State, sampled: seq<Token>, speculated: seq<Token>, n: nat) returns (m: nat)
    requires run.Usual() && run.Drafted(st, n) && SampledOver(run.s, n, sampled)
    requires |speculated| >= run.s.draftSize && Last(speculated, run.s.draftSize) == run.s.Proposal(n)
    ensures m == n + run.s.StepSize(n) && Kept(run.s.draftSize, sampled, speculated) == Success(m - n)
    ensures run.s.Committed(n) + sampled[..m - n] == run.s.Committed(m)
    ensures (run.s.Committed(n) + run.s.Proposal(n))[..|run.s.prompt| + m - 1] == run.s.Committed(m - 1)
    ensures st.all + sampled[..m - n] == run.pads + run.s.Committed(m)
    ensures run.s.StopsWithin(n, m) <==> m >= run.s.maxNew || NewEos(st.all + sampled[..m - n], m - n, run.s.eos)
  {
    m := VerifiedStep(run.s, n, sampled);
    ConcatAssociates(run.pads, run.s.Committed(n), sampled[..m - n]);
    StopsOnLast(run.s, run.pads, st.all + sampled[..m - n], n, m);
  }

  /** Both caches are taken back to what was committed. */
  lemma RolledBack(run: Run, st: State, n: nat, m: nat, r: State)
    requires run.Usual() && run.Drafted(st, n) && m == n + run.s.StepSize(n)
    requires (run.s.Committed(n) + run.s.Proposal(n))[..|run.s.prompt| + m - 1] == run.s.Committed(m - 1)
    requires st.draft.Remove(run.s.draftSize - 1) == Success(r.draft) && r.draftCount == st.draftCount - (run.s.draftSize - 1)
    requires st.target.Remove(run.s.draftSize + 1 - (m - n)) == Success(r.target)
    requires r.count == st.count - (run.s.draftSize + 1 - (m - n)) && r.accepted == st.accepted + [m - n]
    ensures run.TargetHolds(r, run.s.Committed(m - 1)) && run.DraftHolds(r, run.s.Committed(n), m) && run.PeaksBounded(r)
  {
    var s := run.s;
    TrimShortens(st.target.entries, run.Hidden(), s.Committed(n) + s.Proposal(n), s.draftSize + 1 - (m - n));
    var fillers := Fillers(s.pardToken, s.draftSize - 1);
    TrimShortens(st.draft.entries, run.Hidden(), s.Committed(n) + fillers, s.draftSize - 1);
    assert (s.Committed(n) + fillers)[..|s.prompt| + n] == s.Committed(n);
    SumAppend(st.accepted, m - n);
  }

  lemma RemovesFit(run: Run, st: State, n: nat, m: nat)
    requires run.Usual() && run.Drafted(st, n) && m == n + run.s.StepSize(n)
    ensures st.draft.Remove(run.s.draftSize - 1).Success?
    ensures st.target.Remove(run.s.draftSize + 1 - (m - n)).Success?
  {
  }

  lemma SettledFollows(run: Run, st: State, sampled: seq<Token>, n: nat, m: nat, draft: Cache, target: Cache)
    requires run.Usual() && run.Drafted(st, n) && m == n + run.s.StepSize(n) && m - n <= |sampled|
    requires run.s.Committed(n) + sampled[..m - n] == run.s.Committed(m)
    requires (run.s.Committed(n) + run.s.Proposal(n))[..|run.s.prompt| + m - 1] == run.s.Committed(m - 1)
    requires st.all + sampled[..m - n] == run.pads + run.s.Committed(m)
    requires run.s.StopsWithin(n, m) <==> m >= run.s.maxNew || NewEos(st.all + sampled[..m - n], m - n, run.s.eos)
    requires st.draft.Remove(run.s.draftSize - 1) == Success(draft)
    requires st.target.Remove(run.s.draftSize + 1 - (m - n)) == Success(target)
    ensures run.After(run.Settled(st, sampled, m - n, draft, target), m)
    ensures var r := run.Settled(st, sampled, m - n, draft, target);
            && (!r.unfinished <==> run.s.StopsWithin(n, m))
            && (!r.unfinished ==> r.reason == ReasonAt(m, run.s.maxNew))
            && r.accepted == st.accepted + [m - n]
  {
    hide Holds, NewEos, Run.Drafted, Run.DraftHolds, Run.TargetHolds, Run.PeaksBounded, Setup.StopsWithin, Cache.Remove;
    var r := run.Settled(st, sampled, m - n, draft, target);
    RolledBack(run, st, n, m, r);
    assert |r.next| == m - n;
  }

  lemma SettleIs(run: Run, st: State, sampled: seq<Token>, speculated: seq<Token>, kept: nat, draft: Cache, target: Cache)
    requires run.s.draftSize > 0 && Kept(run.s.draftSize, sampled, speculated) == Success(kept)
    requires st.draft.Remove(run.s.draftSize - 1) == Success(draft)
    requires st.target.Remove(run.s.draftSize + 1 - kept) == Success(target)
    ensures run.Settle(st, sampled, speculated) == Success(run.Settled(st, sampled, kept, draft, target))
  {
  }

  /** Verification keeps the agreeing prefix and one token more, and takes both caches back to it. */
  lemma SettleFollows(run: Run, st: State, sampled: seq<Token>, speculated: seq<Token>, n: nat) returns (m: nat)
    requires run.Usual() && run.Drafted(st, n) && SampledOver(run.s, n, sampled)
    requires |speculated| >= run.s.draftSize && Last(speculated, run.s.draftSize) == run.s.Proposal(n)
    ensures m == n + run.s.StepSize(n) && run.Settle(st, sampled, speculated).Success?
    ensures var r := run.Settle(st, sampled, speculated).value;
            && run.After(r, m) && (!r.unfinished <==> run.s.StopsWithin(n, m))
            && (!r.unfinished ==> r.reason == ReasonAt(m, run.s.maxNew))
            && r.accepted == st.accepted + [m - n]
  {
    assert run.s.draftSize > 0;
    hide *;
    m := KeptFollows(run, st, sampled, speculated, n);
    RemovesFit(run, st, n, m);
    var draft, target := st.draft.Remove(run.s.draftSize - 1).value, st.target.Remove(run.s.draftSize + 1 - (m - n)).value;
    SettledFollows(run, st, sampled, n, m, draft, target);
    SettleIs(run, st, sampled, speculated, m - n, draft, target);
  }

  // ----- whole runs of up to 33 tokens a proposal -----

  lemma FirstStepFollows(run: Run) returns (m: nat)
    requires run.Usual()
    ensures m == run.s.StepSize(0) && run.FirstStep().Success?
    ensures var st := run.FirstStep().value;
            && run.After(st, m) && (!st.unfinished <==> run.s.StopsWithin(0, m))
            && (!st.unfinished ==> st.reason == ReasonAt(m, run.s.maxNew))
            && st.accepted == [m]
  {
    hide Run.Settle, Run.DraftFirst, Run.SampleFirst, Run.After, SampledOver, Holds;
    DraftFirstFollows(run);
    var drafted := run.DraftFirst(run.Start()).value;
    SampleFirstFollows(run, drafted.1);
    var sampled := run.SampleFirst(drafted.1, drafted.0).value;
    assert run.s.Committed(0) == run.s.prompt;
    assert [] + [run.s.StepSize(0)] == [run.s.StepSize(0)];
    m := SettleFollows(run, sampled.1, sampled.0, run.pads + run.s.prompt + drafted.0, 0);
  }

  lemma NextStepFollows(run: Run, st: State, n: nat) returns (m: nat)
    requires run.Usual() && run.After(st, n) && n < run.s.maxNew
    ensures m == n + run.s.StepSize(n) && run.NextStep(st).Success?
    ensures var after := run.NextStep(st).value;
            && run.After(after, m) && (!after.unfinished <==> run.s.StopsWithin(n, m))
            && (!after.unfinished ==> after.reason == ReasonAt(m, run.s.maxNew))
            && after.accepted == st.accepted + [m - n]
  {
    DraftNextFollows(run, st, n);
    var drafted := run.DraftNext(st).value;
    SampleNextFollows(run, drafted.1, n);
    var sampled := run.SampleNext(drafted.1, drafted.0).value;
    m := SettleFollows(run, sampled.1, sampled.0, st.next + drafted.0, n);
  }

  lemma AtMostTotal(run: Run, st: State, n: nat)
    requires run.After(st, n)
    ensures |st.accepted| <= Sum(st.accepted)
  {
  }

  lemma {:induction false} FinishFollows(run: Run, st: State, n: nat, goal: nat)
    requires run.Usual() && run.After(st, n)
    requires if st.unfinished then n < run.s.maxNew && run.s.SpeculativeLengthFrom(n) == goal
             else n == goal && st.reason == ReasonAt(n, run.s.maxNew)
    ensures run.Finish(st).Success? && run.After(run.Finish(st).value, goal)
    ensures run.Finish(st).value.reason == ReasonAt(goal, run.s.maxNew)
    decreases if st.unfinished then 1 + (run.s.maxNew - n) else 0
  {
    hide Run.NextStep, Run.After;
    if st.unfinished {
      var m := NextStepFollows(run, st, n);
      FinishFollows(run, run.NextStep(st).value, m, goal);
    }
  }

  /** And takes the steps of the reference, each of its size. */
  lemma {:induction false} FinishSteps(run: Run, st: State, n: nat)
    requires run.Usual() && run.After(st, n) && (st.unfinished ==> n < run.s.maxNew)
    ensures run.Finish(st).Success?
    ensures run.Finish(st).value.accepted == st.accepted + if st.unfinished then run.s.StepSizesFrom(n) else []
    decreases if st.unfinished then 1 + (run.s.maxNew - n) else 0
  {
    hide Run.NextStep, Run.After, Setup.StepSize, Setup.StopsWithin;
    if st.unfinished {
      var m := NextStepFollows(run, st, n);
      var after := run.NextStep(st).value;
      assert m >= run.s.maxNew ==> run.s.StopsWithin(n, m) by {
        LimitStops(run.s, n, m);
      }
      FinishSteps(run, after, m);
      var rest := if after.unfinished then run.s.StepSizesFrom(m) else [];
      assert st.accepted + [m - n] + rest == st.accepted + ([m - n] + rest);
    }
  }

  lemma LimitStops(s: Setup, n: nat, m: nat)
    ensures m >= s.maxNew ==> s.StopsWithin(n, m)
  {
  }

  /**
   A whole run raises nothing, ends exactly where the cache-free reference says, returns the padded
   prompt followed by the target's own greedy tokens, and never overfills a cache.
   */
  lemma OutcomeFollows(run: Run)
    requires run.Usual()
    ensures var length := run.s.SpeculativeLength();
            && run.Outcome().Success?
            && run.Outcome().value.tokens == run.pads + run.s.Committed(length)
            && run.Outcome().value.stopReason == ReasonAt(length, run.s.maxNew)
            && 0 < run.Outcome().value.steps <= run.Outcome().value.totalAccepted == length
            && run.Outcome().value.steps == |run.s.StepSizesFrom(0)|
    ensures run.FirstStep().Success? && run.Finish(run.FirstStep().value).Success?
    ensures run.After(run.Finish(run.FirstStep().value).value, run.s.SpeculativeLength())
  {
    var m := FirstStepFollows(run);
    var st := run.FirstStep().value;
    FinishFollows(run, st, m, run.s.SpeculativeLength());
    LimitStops(run.s, 0, m);
    FinishSteps(run, st, m);
    assert run.Finish(st).value.accepted == run.s.StepSizesFrom(0);
    AtMostTotal(run, run.Finish(st).value, run.s.SpeculativeLength());
  }
}
