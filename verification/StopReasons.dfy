/**
 Whether speculation can change the reason a run reports for stopping
 (`pace/llm/stopping_criteria.py`).
 */
module StopReasons {
  import opened LanguageModels
  import opened Stopping
  import opened GreedyRuns
  import opened SpeculativeRuns

  /** The plain and the speculative run of a setup report the same reason. */
  predicate SameReason(s: Setup) {
    ReasonAt(s.PlainLength(), s.maxNew) == ReasonAt(s.SpeculativeLength(), s.maxNew)
  }

  /** The options a caller chooses; models and prompt are left open. */
  predicate HasOptions(s: Setup, draftSize: nat, maxNew: nat, eos: set<Token>) {
    s.draftSize == draftSize && s.maxNew == maxNew && s.eos == eos && s.prompt != []
  }

  /** With a limit of one token, or without end-of-sequence tokens, only the limit can end a run. */
  lemma OnlyTheLimit(s: Setup)
    requires s.maxNew <= 1 || s.eos == {}
    ensures SameReason(s)
  {
    PlainLengthIsFirst(s, 1);
    SpeculativeExtendsPlain(s);
  }

  // ----- a setup on which the reasons differ -----

  /** A target that ends the sequence one token before the limit, and a draft that always proposes to end it. */
  function Late(draftSize: nat, maxNew: nat, eos: set<Token>, end: Token, other: Token): Setup {
    Setup((es: seq<Entry>) => if |es| + 1 >= maxNew then end else other, (es: seq<Entry>) => end, 0,
          draftSize, [other], maxNew, eos)
  }

  ghost predicate IsLate(s: Setup, end: Token, other: Token) {
    s.draftSize > 0 && s.maxNew > 1 && end in s.eos && other !in s.eos && s == Late(s.draftSize, s.maxNew, s.eos, end, other)
  }

  lemma LateEos(s: Setup, end: Token, other: Token, n: nat)
    requires IsLate(s, end, other) && n > 0
    ensures s.EosAt(n) <==> n + 1 >= s.maxNew
  {
    assert |AtPositions(s.Committed(n - 1), 0)| == n;
  }

  /** The plain run meets the end one token before the limit. */
  lemma LatePlain(s: Setup, end: Token, other: Token)
    requires IsLate(s, end, other)
    ensures s.PlainLength() < s.maxNew
  {
    PlainLengthIsFirst(s, 1);
    LateEos(s, end, other, s.maxNew - 1);
  }

  /** The first token proposed is the target's own exactly when the target ends the sequence. */
  lemma LateStep(s: Setup, end: Token, other: Token, n: nat)
    requires IsLate(s, end, other)
    ensures if n + 2 >= s.maxNew then s.StepSize(n) >= 2 else s.StepSize(n) == 1
  {
    StreamToken(s, n, 0, 0);
    TokenInRow(s, n + 1, n + 1);
    assert s.Upcoming(n)[0] == s.target(AtPositions(s.Committed(n), 0));
    assert |AtPositions(s.Committed(n), 0)| == n + 1;
    assert s.Proposal(n)[0] == end;
    assert s.Upcoming(n)[0] in s.eos <==> n + 2 >= s.maxNew;
  }

  /** The speculative run takes the end and one more token in one step, and reaches the limit. */
  lemma {:induction false} LateSpeculative(s: Setup, end: Token, other: Token, n: nat)
    requires IsLate(s, end, other) && n + 1 < s.maxNew
    ensures s.SpeculativeLengthFrom(n) >= s.maxNew
    decreases s.maxNew - n
  {
    hide IsLate, Setup.StepSize, Setup.EosAt;
    LateStep(s, end, other, n);
    var next := n + s.StepSize(n);
    if n + 2 < s.maxNew {
      LateEos(s, end, other, next);
      assert !s.StopsWithin(n, next);
      LateSpeculative(s, end, other, next);
    }
  }

  lemma Member<T>(s: set<T>) returns (x: T)
    requires s != {}
    ensures x in s
  {
    x :| x in s;
  }

  /** Some token is in no given set. */
  lemma {:induction false} OutsideToken(tokens: set<Token>) returns (other: Token)
    ensures forall t :: t in tokens ==> t < other
    decreases tokens
  {
    if tokens != {} {
      var t := Member(tokens);
      var rest := OutsideToken(tokens - {t});
      assert forall u :: u in tokens ==> u == t || u in tokens - {t};
      other := if rest <= t then t + 1 else rest;
    } else {
      other := 0;
    }
  }

  lemma LateDiffers(draftSize: nat, maxNew: nat, eos: set<Token>) returns (s: Setup)
    requires draftSize > 0 && maxNew > 1 && eos != {}
    ensures HasOptions(s, draftSize, maxNew, eos) && !SameReason(s)
  {
    var end := Member(eos);
    var other := OutsideToken(eos);
    s := Late(draftSize, maxNew, eos, end, other);
    LatePlain(s, end, other);
    LateSpeculative(s, end, other, 0);
  }

  /**
   Speculation never changes the reason, for no models and no prompt, exactly when at most one token
   may be generated or no token ends a sequence: the length limit is asked first, and a step can take
   an end-of-sequence token and the limit together.
   */
  lemma ReasonsAgree(draftSize: nat, maxNew: nat, eos: set<Token>)
    requires draftSize > 0
    ensures (forall s :: HasOptions(s, draftSize, maxNew, eos) ==> SameReason(s)) <==> maxNew <= 1 || eos == {}
  {
    if maxNew <= 1 || eos == {} {
      forall s | HasOptions(s, draftSize, maxNew, eos)
        ensures SameReason(s)
      {
        OnlyTheLimit(s);
      }
    } else {
      var s := LateDiffers(draftSize, maxNew, eos);
    }
  }

  // ----- the same of whole runs -----

  /** A run ends and reports what the plain run of its prompt reports. */
  predicate ReportsPlainReason(run: Run)
    requires run.s.draftSize > 0
  {
    run.Outcome().Success? && run.Outcome().value.stopReason == ReasonAt(run.s.PlainLength(), run.s.maxNew)
  }

  /** Every run of up to 33 tokens a proposal reports the reason the lengths say. */
  lemma RunReason(run: Run)
    requires run.Usual()
    ensures ReportsPlainReason(run) <==> SameReason(run.s)
  {
    hide Run.Outcome, Run.After, Run.FirstStep, Run.Finish;
    OutcomeFollows(run);
  }

  lemma RunsReportPlainReason(draftSize: nat, maxNew: nat, eos: set<Token>)
    requires 0 < draftSize <= FILLER_COUNT + 1 && maxNew > 0
    ensures (forall run: Run :: HasOptions(run.s, draftSize, maxNew, eos) ==> ReportsPlainReason(run))
            <==> maxNew <= 1 || eos == {}
  {
    hide Run.Outcome;
    if maxNew <= 1 || eos == {} {
      forall run: Run | HasOptions(run.s, draftSize, maxNew, eos)
        ensures ReportsPlainReason(run)
      {
        OnlyTheLimit(run.s);
        RunReason(run);
      }
    } else {
      var s := LateDiffers(draftSize, maxNew, eos);
      var run := Run(s, [], false);
      RunReason(run);
      assert HasOptions(run.s, draftSize, maxNew, eos) && !ReportsPlainReason(run);
    }
  }

  /** A run on which they differ: everything is end-of-sequence and the draft agrees with the target. */
  lemma ReasonsCanDiffer()
    ensures var s := Setup(_ => 1, _ => 1, 0, 1, [0], 2, {1});
            && ReasonAt(s.PlainLength(), s.maxNew) == Stop
            && ReasonAt(s.SpeculativeLength(), s.maxNew) == Length
  {
    var s := Setup(_ => 1, _ => 1, 0, 1, [0], 2, {1});
    assert s.EosAt(1);
    assert s.PlainLength() == 1;
    assert s.Proposal(0) == [1];
    assert s.Committed(1) == [0] + [1];
    assert s.Upcoming(0) == [1];
    assert s.StepSize(0) == 2;
  }
}
