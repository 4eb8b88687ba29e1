/**
 One request of the server under speculative decoding (`pace/server/engine/server.py`): its buffer,
 its two caches with their counters, and one step of it.
 */
module ServerSequences {
  import opened Results
  import opened Indexing
  import opened LanguageModels
  import opened KvCaches
  import opened Stopping
  import opened GreedyRuns
  import opened SpeculativeRuns
  import opened Tensors

  /** `s[-n:]` for any `n`: everything for zero, and all but the first elements for a negative one. */
  function FromEnd(s: seq<Token>, n: int): (r: seq<Token>) {
    if n > 0 then Last(s, n) else if -n <= |s| then s[-n..] else []
  }

  /** What a step leaves of a request, the tokens it reports, and whether and why the request is complete. */
  datatype Stepped = Stepped(q: Sequence, tokens: seq<Token>, stopped: bool, reason: Reason)

  datatype Sequence = Sequence(id: nat, s: Setup, all: seq<Token>, target: Cache, count: int, draft: Cache, draftCount: int) {

    /** Size of the token buffer, and the length limit of the stopping rule. */
    function BufferSize(): nat { |s.prompt| + s.maxNew }

    /** The tokens the draft cache does not hold yet. */
    function Missing(): seq<Token> {
      FromEnd(all, |all| - draftCount)
    }

    /** Phase 1: the missing tokens and the fillers through the draft. */
    function Draft(): Result<(seq<Token>, Sequence)>
      requires s.draftSize > 0
    {
      var fed := Missing() + UsedFillers(s.pardToken, s.draftSize);
      var r :- draft.Call(s.draft, AtPositions(fed, draftCount));
      Success((Last(r.0, s.draftSize), this.(draft := r.1, draftCount := draftCount + |fed|)))
    }

    /** The target's input: the last token and what was proposed after it. */
    function Extended(proposal: seq<Token>): seq<Token> {
      Last(all, 1) + proposal
    }

    /** Phase 2: the last token and the proposal through the target, as this request's row of the batch. */
    function Sample(extended: seq<Token>): Result<(seq<Token>, Sequence)> {
      var r :- target.Call(s.target, AtPositions(extended, count));
      Success((Last(r.0, s.draftSize + 1), this.(target := r.1, count := count + |extended|)))
    }

    /** Appends what fits the buffer of the accepted tokens, and asks the stopping rule. */
    function Append(accepted: seq<Token>): (r: Stepped) {
      var remaining := if |all| <= BufferSize() then BufferSize() - |all| else 0;
      var tokens := First(accepted, remaining);
      var grown := all + tokens;
      var stops := |grown| >= BufferSize() || NewEos(grown, |tokens|, s.eos);
      Stepped(this.(all := grown), tokens, stops, if |grown| >= BufferSize() then Length else Stop)
    }

    /** Phase 3: verification, both rollbacks, the append and the stopping rule. */
    function Verify(sampled: seq<Token>, extended: seq<Token>): Result<Stepped>
      requires s.draftSize > 0
    {
      var kept :- Kept(s.draftSize, sampled, extended);
      var shorter :- draft.Remove(s.draftSize - 1);
      var trim := s.draftSize + 1 - kept;
      var trimmed :- target.Remove(trim);
      var rolledBack := this.(draft := shorter, draftCount := draftCount - (s.draftSize - 1),
                              target := trimmed, count := count - trim);
      Success(rolledBack.Append(sampled[..kept]))
    }

    /** All three phases for this request. */
    function Advance(): Result<Stepped>
      requires s.draftSize > 0
    {
      var drafted :- Draft();
      var extended := drafted.1.Extended(drafted.0);
      var sampled :- drafted.1.Sample(extended);
      sampled.1.Verify(sampled.0, extended)
    }
  }

  /** The prompt through both models, and the first token. */
  function Prefilled(id: nat, s: Setup): Result<Stepped>
    requires s.prompt != [] && s.maxNew > 0
  {
    var size := |s.prompt| + s.maxNew;
    var target :- Cache(size + s.draftSize + 1, [], 0).Call(s.target, AtPositions(s.prompt, 0));
    var draft :- Cache(size + s.draftSize * 2, [], 0).Call(s.draft, AtPositions(s.prompt, 0));
    var q := Sequence(id, s, s.prompt, target.1, |s.prompt|, draft.1, |s.prompt|);
    Success(q.Append([target.0[|s.prompt| - 1]]))
  }

  // ----- where a request is -----

  /** Single steps that add up to `n`. */
  function Singles(n: nat): (counts: seq<int>)
    ensures |counts| == n
  {
    seq(n, _ => 1)
  }

  lemma {:induction false} SumSingles(n: nat)
    ensures Sum(Singles(n)) == n
  {
    if n > 0 {
      SumSingles(n - 1);
      assert Singles(n)[..n - 1] == Singles(n - 1);
    }
  }

  /** The run of one request by itself, and the variables of that run that the request stands for. */
  function RunOf(q: Sequence): Run { Run(q.s, [], false) }

  function View(q: Sequence, n: nat): State {
    State(q.all, q.Missing(), q.target, q.count, q.draft, q.draftCount, Singles(n), true, Stop)
  }

  /**
   A request that goes on after `n` new tokens.  Up to 33 tokens a proposal its caches are where those of
   a run are; beyond that no request gets past its first token.
   */
  ghost predicate Live(q: Sequence, n: nat) {
    && 0 < n < q.s.maxNew && q.s.prompt != [] && q.s.draftSize > 0
    && q.all == q.s.Committed(n)
    && if q.s.draftSize <= FILLER_COUNT + 1 then RunOf(q).After(View(q, n), n)
       else n == 1 && q.draftCount == |q.s.prompt|
  }

  /** How far a step goes: no further than the buffer. */
  function NextLength(s: Setup, n: nat): nat {
    Min(n + s.StepSize(n), s.maxNew)
  }

  /** Where a request ends that has `n` new tokens. */
  function ServedLengthFrom(s: Setup, n: nat): nat
    decreases s.maxNew - n
  {
    if n >= s.maxNew then n
    else if s.StopsWithin(n, NextLength(s, n)) then NextLength(s, n) else ServedLengthFrom(s, NextLength(s, n))
  }

  /** Where a request ends: the first token comes with the prefill. */
  function ServedLength(s: Setup): nat {
    if s.StopsWithin(0, 1) then 1 else ServedLengthFrom(s, 1)
  }

  /** A step or a prefill left a request with `m` new tokens, up from `n`, and reported the difference. */
  ghost predicate SteppedTo(r: Stepped, s: Setup, n: nat, m: nat) {
    && n < m <= s.maxNew && r.q.s == s && r.q.all == s.Committed(m) && s.Committed(n) + r.tokens == s.Committed(m)
    && (r.stopped <==> s.StopsWithin(n, m))
    && (r.stopped ==> r.reason == ReasonAt(m, s.maxNew))
    && (!r.stopped ==> Live(r.q, m))
  }

  // ----- one step -----

  lemma ViewHolds(q: Sequence, n: nat)
    requires Live(q, n) && q.s.draftSize <= FILLER_COUNT + 1
    ensures RunOf(q).Usual() && q.Missing() != [] && |q.Missing()| <= n
    ensures Last(q.all, 1) == Last(q.Missing(), 1)
  {
    hide Holds, Last, FromEnd, Sequence.Missing, Run.TargetHolds, Run.DraftHolds, Run.PeaksBounded;
    var next := q.Missing();
    assert q.s.Committed(n - |next|) + next == q.s.Committed(n) == q.all;
    LastOfJoined(q.s.Committed(n - |next|), next);
  }

  lemma LastOfJoined(a: seq<Token>, b: seq<Token>)
    requires b != []
    ensures Last(a + b, 1) == Last(b, 1)
  {
  }

  /** The state of a run of the request by itself between its two calls. */
  ghost predicate Between(q: Sequence, n: nat, st: State)
    requires q.s.draftSize > 0
  {
    && st.next != [] && |st.next| <= n && q.s.Committed(n - |st.next|) + st.next == q.s.Committed(n)
    && st.all == q.s.Committed(n) && Last(q.all, 1) == Last(st.next, 1)
    && RunOf(q).TargetHolds(st, q.s.Committed(n - 1)) && RunOf(q).PeaksBounded(st)
    && RunOf(q).DraftHolds(st, q.s.Committed(n) + Fillers(q.s.pardToken, q.s.draftSize - 1), n)
    && st.target == q.target && st.count == q.count
  }

  /** The draft proposes what it proposes in a run of the request by itself. */
  lemma DraftFollows(q: Sequence, n: nat) returns (st: State)
    requires Live(q, n) && q.s.draftSize <= FILLER_COUNT + 1
    ensures q.Draft() == Success((q.s.Proposal(n), q.(draft := st.draft, draftCount := st.draftCount)))
    ensures Between(q, n, st) && st.accepted == Singles(n)
  {
    var run, view := RunOf(q), View(q, n);
    ViewHolds(q, n);
    DraftNextFollows(run, view, n);
    hide Holds, Last, FromEnd, Fillers, Outputs;
    st := run.DraftNext(view).value.1;
    assert view.all == q.s.Committed(n) by {
      assert [] + q.s.Committed(n) == q.s.Committed(n);
    }
  }

  /** The target is fed what it is fed in a run of the request by itself. */
  lemma SampleIs(q: Sequence, st: State, proposal: seq<Token>)
    requires |proposal| == q.s.draftSize && st.target == q.target && st.count == q.count
    requires st.next != [] && Last(q.all, 1) == Last(st.next, 1)
    ensures var run, r := RunOf(q).SampleNext(st, proposal), q.Sample(q.Extended(proposal));
            if run.Success? then
              && r.Success? && r.value.0 == run.value.0
              && r.value.1 == q.(target := run.value.1.target, count := run.value.1.count)
            else
              r == Failure(run.error)
  {
    assert q.Extended(proposal) == Last(st.next + proposal, 1 + q.s.draftSize);
  }

  /** The samples are the target's choices over the proposal, and both caches run ahead as in a run. */
  lemma SampleFollows(q: Sequence, p: Sequence, n: nat, st: State) returns (sampled: seq<Token>, r: Sequence)
    requires 0 < n < q.s.maxNew && RunOf(q).Usual() && Between(q, n, st) && st.accepted == Singles(n)
    requires q.all == q.s.Committed(n) && p == q.(draft := st.draft, draftCount := st.draftCount)
    ensures p.Sample(p.Extended(q.s.Proposal(n))) == Success((sampled, r))
    ensures SampledOver(q.s, n, sampled) && RunOf(q).Drafted(View(r, n), n)
    ensures r == p.(target := r.target, count := r.count)
  {
    hide Holds, SampledOver, Sequence.Sample, Sequence.Extended, Sequence.Missing, Run.SampleNext, Last, Fillers;
    SampleNextFollows(RunOf(q), st, n);
    SampleIs(p, st, q.s.Proposal(n));
    var out := RunOf(q).SampleNext(st, q.s.Proposal(n)).value;
    sampled, r := out.0, p.(target := out.1.target, count := out.1.count);
    assert [] + q.s.Committed(n) == q.s.Committed(n);
  }

  // ----- verification -----

  /** As many of the next tokens as fit are the next tokens up to there. */
  lemma FirstOfNext(s: Setup, n: nat, accepted: seq<Token>, m: nat, next: nat)
    requires n <= next <= m && s.Committed(n) + accepted == s.Committed(m)
    ensures s.Committed(n) + First(accepted, next - n) == s.Committed(next)
  {
    ContinuePrefix(s.target, s.prompt, next, m);
    assert s.Committed(n) + First(accepted, next - n) == (s.Committed(n) + accepted)[..|s.prompt| + next];
  }

  /** What was accepted is appended as far as the buffer goes. */
  lemma AppendFollows(q: Sequence, n: nat, accepted: seq<Token>, m: nat, next: nat)
    requires q.all == q.s.Committed(n) && n < q.s.maxNew && n < m && next == Min(m, q.s.maxNew)
    requires q.s.Committed(n) + accepted == q.s.Committed(m)
    ensures var r := q.Append(accepted);
            && r.q == q.(all := q.s.Committed(next)) && q.s.Committed(n) + r.tokens == q.s.Committed(next)
            && (r.stopped <==> q.s.StopsWithin(n, next))
            && r.reason == ReasonAt(next, q.s.maxNew)
  {
    hide First, NewEos, Setup.Committed, Setup.StopsWithin;
    FirstOfNext(q.s, n, accepted, m, next);
    assert |accepted| == m - n;
    assert q.s.maxNew <= m ==> next == q.s.maxNew;
    var tokens := First(accepted, q.s.maxNew - n);
    assert tokens == First(accepted, next - n) by {
      FirstSame(accepted, q.s.maxNew - n, next - n);
    }
    assert [] + q.s.Committed(next) == q.s.Committed(next);
    StopsOnLast(q.s, [], q.s.Committed(next), n, next);
  }

  lemma FirstSame(s: seq<Token>, n: nat, m: nat)
    requires Min(n, |s|) == Min(m, |s|)
    ensures First(s, n) == First(s, m)
  {
  }

  /** The tokens accepted last are those the draft cache is short of. */
  lemma MissingIs(q: Sequence, n: nat, m: nat)
    requires q.all == q.s.Committed(m) && n < m && q.draftCount == |q.s.prompt| + n
    ensures |q.Missing()| == m - n && q.s.Committed(n) + q.Missing() == q.s.Committed(m)
  {
    ContinuePrefix(q.s.target, q.s.prompt, n, m);
    assert q.s.Committed(m) == q.s.Committed(n) + Last(q.s.Committed(m), m - n);
  }

  lemma GoesOn(q: Sequence, n: nat, m: nat, st: State)
    requires RunOf(q).Usual() && n < m < q.s.maxNew && q.all == q.s.Committed(m)
    requires q.target == st.target && q.count == st.count && q.draft == st.draft && q.draftCount == st.draftCount
    requires RunOf(q).TargetHolds(st, q.s.Committed(m - 1)) && RunOf(q).DraftHolds(st, q.s.Committed(n), m)
    requires RunOf(q).PeaksBounded(st)
    ensures Live(q, m)
  {
    MissingIs(q, n, m);
    SumSingles(m);
    assert [] + q.s.Committed(m) == q.s.Committed(m);
  }

  /** What the request is once both rollbacks are done, before anything is appended. */
  function RolledBackTo(q: Sequence, st: State): Sequence {
    q.(draft := st.draft, draftCount := st.draftCount, target := st.target, count := st.count)
  }

  /** Verification keeps tokens of the target's stream and takes both caches back to it. */
  lemma KeptAndRolledBack(q: Sequence, n: nat, sampled: seq<Token>, extended: seq<Token>) returns (m: nat, st: State)
    requires RunOf(q).Usual() && RunOf(q).Drafted(View(q, n), n) && SampledOver(q.s, n, sampled)
    requires |extended| >= q.s.draftSize && Last(extended, q.s.draftSize) == q.s.Proposal(n)
    ensures m == n + q.s.StepSize(n) && m - n <= |sampled| && q.s.Committed(n) + sampled[..m - n] == q.s.Committed(m)
    ensures RunOf(q).TargetHolds(st, q.s.Committed(m - 1)) && RunOf(q).DraftHolds(st, q.s.Committed(n), m)
    ensures RunOf(q).PeaksBounded(st)
    ensures q.Verify(sampled, extended) == Success(RolledBackTo(q, st).Append(sampled[..m - n]))
  {
    var run, view := RunOf(q), View(q, n);
    m := KeptFollows(run, view, sampled, extended, n);
    RemovesFit(run, view, n, m);
    var trim := q.s.draftSize + 1 - (m - n);
    st := view.(draft := q.draft.Remove(q.s.draftSize - 1).value, draftCount := q.draftCount - (q.s.draftSize - 1),
                target := q.target.Remove(trim).value, count := q.count - trim, accepted := view.accepted + [m - n]);
    RolledBack(run, view, n, m, st);
    hide *;
    VerifyIs(q, st, sampled, extended, m - n);
  }

  lemma VerifyIs(q: Sequence, st: State, sampled: seq<Token>, extended: seq<Token>, kept: nat)
    requires q.s.draftSize > 0 && Kept(q.s.draftSize, sampled, extended) == Success(kept)
    requires q.draft.Remove(q.s.draftSize - 1) == Success(st.draft) && st.draftCount == q.draftCount - (q.s.draftSize - 1)
    requires q.target.Remove(q.s.draftSize + 1 - kept) == Success(st.target) && st.count == q.count - (q.s.draftSize + 1 - kept)
    ensures q.Verify(sampled, extended) == Success(RolledBackTo(q, st).Append(sampled[..kept]))
  {
    hide Sequence.Append, Kept, Cache.Remove;
  }

  lemma VerifyFollows(q: Sequence, n: nat, sampled: seq<Token>, extended: seq<Token>) returns (r: Stepped)
    requires RunOf(q).Usual() && RunOf(q).Drafted(View(q, n), n) && SampledOver(q.s, n, sampled)
    requires |extended| >= q.s.draftSize && Last(extended, q.s.draftSize) == q.s.Proposal(n)
    requires 0 < n < q.s.maxNew && q.all == q.s.Committed(n)
    ensures q.Verify(sampled, extended) == Success(r) && SteppedTo(r, q.s, n, NextLength(q.s, n))
  {
    var m, st := KeptAndRolledBack(q, n, sampled, extended);
    var back, next := RolledBackTo(q, st), NextLength(q.s, n);
    r := back.Append(sampled[..m - n]);
    AppendFollows(back, n, sampled[..m - n], m, next);
    if !r.stopped {
      hide Run.Drafted, SampledOver, Sequence.Append, Sequence.Verify;
      assert r.q.draft == st.draft && r.q.draftCount == st.draftCount && r.q.target == st.target && r.q.count == st.count;
      assert next == m;
      GoesOn(r.q, n, m, st);
    }
  }

  /**
   One decode step of a live request: it raises nothing, commits the next tokens of the target's own
   stream as far as the buffer goes, reports exactly these, and completes exactly when the stopping rule
   says so.
   */
  lemma AdvanceFollows(q: Sequence, n: nat) returns (r: Stepped)
    requires Live(q, n) && q.s.draftSize <= FILLER_COUNT + 1
    ensures q.Advance() == Success(r) && r.q.id == q.id && SteppedTo(r, q.s, n, NextLength(q.s, n))
  {
    ViewHolds(q, n);
    var st := DraftFollows(q, n);
    var p := q.(draft := st.draft, draftCount := st.draftCount);
    var sampled, ahead := SampleFollows(q, p, n, st);
    var extended := p.Extended(q.s.Proposal(n));
    assert Last(extended, q.s.draftSize) == q.s.Proposal(n);
    hide Between, Sequence.Draft, Sequence.Sample, Sequence.Extended, Live;
    r := VerifyFollows(ahead, n, sampled, extended);
  }

  // ----- the first step -----

  /** The last output of a prefill, and the cache it leaves. */
  lemma PrefillCall(model: LanguageModel, capacity: nat, prompt: seq<Token>)
    requires 0 < |prompt| <= capacity
    ensures var r := Cache(capacity, [], 0).Call(model, AtPositions(prompt, 0));
            && r.Success? && r.value.0[|prompt| - 1] == model(AtPositions(prompt, 0))
            && r.value.1 == Cache(capacity, AtPositions(prompt, 0), |prompt|) && Holds(r.value.1.entries, 0, prompt)
  {
    var all := AtPositions(prompt, 0);
    assert [] + all == all && all[0..] == all;
    OutputSeesContext(model, all, 0, prompt, |prompt|);
    assert prompt[..|prompt|] == prompt;
  }

  lemma PrefilledIs(id: nat, s: Setup, q: Sequence)
    requires s.prompt != [] && s.maxNew > 0
    requires q == Sequence(id, s, s.prompt,
      Cache(|s.prompt| + s.maxNew + s.draftSize + 1, AtPositions(s.prompt, 0), |s.prompt|), |s.prompt|,
      Cache(|s.prompt| + s.maxNew + s.draftSize * 2, AtPositions(s.prompt, 0), |s.prompt|), |s.prompt|)
    ensures Prefilled(id, s) == Success(q.Append([s.target(AtPositions(s.prompt, 0))]))
    ensures Holds(q.target.entries, 0, s.prompt) && Holds(q.draft.entries, 0, s.prompt)
  {
    hide Sequence.Append, Cache.Call, Holds;
    PrefillCall(s.target, |s.prompt| + s.maxNew + s.draftSize + 1, s.prompt);
    PrefillCall(s.draft, |s.prompt| + s.maxNew + s.draftSize * 2, s.prompt);
  }

  lemma FreshHolds(q: Sequence)
    requires q.s.prompt != [] && 0 < q.s.draftSize <= FILLER_COUNT + 1 && q.s.maxNew > 1 && q.all == q.s.Committed(1)
    requires q.count == q.draftCount == |q.s.prompt|
    requires q.target.capacity == RunOf(q).TargetCapacity() && q.draft.capacity == RunOf(q).DraftCapacity()
    requires q.target.peak == q.draft.peak == |q.s.prompt|
    requires Holds(q.target.entries, 0, q.s.prompt) && Holds(q.draft.entries, 0, q.s.prompt)
    ensures Live(q, 1)
  {
    hide Holds, Setup.Committed;
    assert q.s.Committed(0) == q.s.prompt by {
      FirstCommitted(q.s);
    }
    var st := View(q, 1).(accepted := [1]);
    assert Sum([1]) == 1 by {
      assert [1][..0] == [];
    }
    GoesOn(q, 0, 1, st);
  }

  lemma FirstCommitted(s: Setup)
    ensures s.Committed(0) == s.prompt && s.Committed(1) == s.prompt + [s.target(AtPositions(s.prompt, 0))]
  {
  }

  /** The prefill commits the first token of the stream, whatever the proposal size. */
  lemma PrefillFollows(id: nat, s: Setup) returns (r: Stepped)
    requires s.prompt != [] && s.maxNew > 0 && s.draftSize > 0
    ensures Prefilled(id, s) == Success(r) && r.q.id == id && SteppedTo(r, s, 0, 1)
  {
    var q := Sequence(id, s, s.prompt,
      Cache(|s.prompt| + s.maxNew + s.draftSize + 1, AtPositions(s.prompt, 0), |s.prompt|), |s.prompt|,
      Cache(|s.prompt| + s.maxNew + s.draftSize * 2, AtPositions(s.prompt, 0), |s.prompt|), |s.prompt|);
    var first := [s.target(AtPositions(s.prompt, 0))];
    PrefilledIs(id, s, q);
    FirstCommitted(s);
    r := q.Append(first);
    AppendFollows(q, 0, first, 1, 1);
    if !r.stopped && s.draftSize <= FILLER_COUNT + 1 {
      hide Holds, Setup.Committed, Sequence.Append;
      FreshHolds(r.q);
    }
  }

  /** With more than 33 tokens a proposal, no request survives its first decode step. */
  lemma FirstStepFails(q: Sequence, n: nat)
    requires Live(q, n) && q.s.draftSize > FILLER_COUNT + 1
    ensures q.Advance().Failure?
  {
    if q.Draft().Success? {
      assert |q.Missing()| == 1;
      assert |q.Draft().value.0| == FILLER_COUNT + 1;
      var p := q.Draft().value.1;
      var extended := p.Extended(q.Draft().value.0);
      assert |extended| == FILLER_COUNT + 2;
      if p.Sample(extended).Success? {
        assert |p.Sample(extended).value.0| == FILLER_COUNT + 2;
      }
    }
  }

  // ----- where a request ends -----

  lemma {:induction false} ServedOvershoots(s: Setup, first: nat, n: nat)
    requires FirstReason(s, 1, first) && n < first <= s.maxNew
    ensures first <= ServedLengthFrom(s, n) <= Min(first + s.draftSize, s.maxNew)
    decreases s.maxNew - n
  {
    var next := NextLength(s, n);
    StepAndReason(s, first, n, next);
    if next < first {
      ServedOvershoots(s, first, next);
    }
  }

  /**
   A served request ends with the plain run's tokens and at most a proposal's worth more of the same
   stream, but unlike an offline run never with more than its limit.
   */
  lemma ServedExtendsPlain(s: Setup)
    requires s.maxNew > 0
    ensures s.PlainLength() <= ServedLength(s) <= Min(s.PlainLength() + s.draftSize, s.maxNew)
    ensures s.Committed(s.PlainLength()) <= s.Committed(ServedLength(s))
  {
    PlainLengthIsFirst(s, 1);
    StepAndReason(s, s.PlainLength(), 0, 1);
    if s.PlainLength() > 1 {
      ServedOvershoots(s, s.PlainLength(), 1);
    }
    ContinuePrefix(s.target, s.prompt, s.PlainLength(), ServedLength(s));
  }
}
