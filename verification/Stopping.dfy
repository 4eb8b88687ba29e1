/** Stopping criteria of a generation run (`pace/llm/stopping_criteria.py`). */
module Stopping {
  import opened Results
  import opened LanguageModels

  datatype Reason = Stop | Length

  /** What a row that stops after `n` new tokens reports, without stop strings. */
  function ReasonAt(n: nat, maxNew: nat): Reason {
    if n >= maxNew then Length else Stop
  }

  /** Is one of the last `numNewTokens` tokens of a row an end-of-sequence token? */
  predicate NewEos(row: seq<Token>, numNewTokens: nat, eos: set<Token>) {
    exists token <- Last(row, numNewTokens) :: token in eos
  }

  /** The length limit and the minimum length of rows of the given width. */
  function LengthLimit(width: nat, maxNewTokens: Option<nat>): Option<nat> {
    if maxNewTokens.Some? then Some(maxNewTokens.value + width) else None
  }

  /** The test for stop strings when there are none. */
  const NO_STRINGS: seq<Token> -> bool := (row: seq<Token>) => false

  class StoppingCriteria {
    const minLength: nat
    const maxLength: Option<nat>
    /** Ids that end a row; empty when end-of-sequence tokens are ignored. */
    const eos: set<Token>
    /** The test for stop strings; true of no row when there are none. */
    const stopString: seq<Token> -> bool
    var stopReason: Reason

    constructor (width: nat, maxNewTokens: Option<nat>, minNewTokens: nat, eos: set<Token>, stopString: seq<Token> -> bool)
      ensures maxLength == LengthLimit(width, maxNewTokens) && minLength == minNewTokens + width && this.eos == eos
      ensures this.stopString == stopString && stopReason == Stop
    {
      minLength := minNewTokens + width;
      maxLength := LengthLimit(width, maxNewTokens);
      this.eos := eos;
      this.stopString := stopString;
      stopReason := Stop;
    }

    predicate StopIfMaxLen(row: seq<Token>) {
      maxLength.Some? && |row| >= maxLength.value
    }

    predicate StopIfEosToken(row: seq<Token>, numNewTokens: nat) {
      NewEos(row, numNewTokens, eos)
    }

    predicate StopIfString(row: seq<Token>) {
      stopString(row)
    }

    /** The reason recorded when some row stops: a stop string overrides the length limit, which is asked first. */
    function ReasonFor(rows: seq<seq<Token>>): Reason
      requires rows != []
    {
      if StopIfMaxLen(rows[0]) && !exists r <- rows :: StopIfString(r) then Length else Stop
    }

    /**
     Says of every row whether it should stop.  Below the minimum length only the length limit
     counts.
     */
    method StopNow(rows: seq<seq<Token>>, numNewTokens: nat) returns (done: seq<bool>)
      requires rows != [] && forall r <- rows :: |r| == |rows[0]|
      requires 0 < numNewTokens <= |rows[0]|
      modifies this
      ensures |done| == |rows|
      ensures forall i :: 0 <= i < |rows| ==>
        (done[i] <==> StopIfMaxLen(rows[i])
                      || (|rows[i]| >= minLength && (StopIfEosToken(rows[i], numNewTokens) || StopIfString(rows[i]))))
      ensures stopReason == if true !in done then old(stopReason)
                            else if |rows[0]| < minLength then Length else ReasonFor(rows)
    {
      if |rows[0]| < minLength {
        if maxLength.Some? {
          done := seq(|rows|, i requires 0 <= i < |rows| => StopIfMaxLen(rows[i]));
          if true in done {
            stopReason := Length;
          }
          assert done[0] == StopIfMaxLen(rows[0]);
        } else {
          done := seq(|rows|, _ => false);
        }
      } else {
        done := CheckForConditions(rows, numNewTokens);
      }
    }

    method CheckForConditions(rows: seq<seq<Token>>, numNewTokens: nat) returns (done: seq<bool>)
      requires rows != [] && forall r <- rows :: |r| == |rows[0]|
      modifies this
      ensures |done| == |rows|
      ensures forall i :: 0 <= i < |rows| ==>
        (done[i] <==> StopIfMaxLen(rows[i]) || StopIfEosToken(rows[i], numNewTokens) || StopIfString(rows[i]))
      ensures stopReason == if true !in done then old(stopReason) else ReasonFor(rows)
    {
      var reason;
      done, reason := CheckOwnConditions(rows, numNewTokens);
      var result := seq(|rows|, i requires 0 <= i < |rows| => StopIfString(rows[i]));
      StringsFound(rows, result);
      if true in result && reason == Length {
        reason := Stop;
      }
      done := seq(|rows|, i requires 0 <= i < |rows| => done[i] || result[i]);
      if true in done {
        stopReason := reason;
      }
    }

    lemma StringsFound(rows: seq<seq<Token>>, result: seq<bool>)
      requires |result| == |rows| && forall i :: 0 <= i < |rows| ==> result[i] == StopIfString(rows[i])
      ensures true in result <==> exists r <- rows :: StopIfString(r)
    {
      if r :| r in rows && StopIfString(r) {
        var i :| 0 <= i < |rows| && rows[i] == r;
        assert result[i];
      }
    }

    /** The length limit and the end-of-sequence tokens, in this order. */
    method CheckOwnConditions(rows: seq<seq<Token>>, numNewTokens: nat) returns (done: seq<bool>, reason: Reason)
      requires rows != [] && forall r <- rows :: |r| == |rows[0]|
      ensures |done| == |rows|
      ensures forall i :: 0 <= i < |rows| ==>
        (done[i] <==> StopIfMaxLen(rows[i]) || StopIfEosToken(rows[i], numNewTokens))
      ensures reason == if StopIfMaxLen(rows[0]) then Length else Stop
    {
      done := seq(|rows|, _ => false);
      reason := Stop;
      assert true !in done;
      for condition := 0 to 2
        invariant |done| == |rows|
        invariant condition == 0 ==> true !in done && reason == Stop
        invariant forall i :: 0 <= i < |rows| ==>
          (done[i] <==> (condition > 0 && StopIfMaxLen(rows[i]))
                        || (condition > 1 && StopIfEosToken(rows[i], numNewTokens)))
        invariant condition > 0 ==> reason == if StopIfMaxLen(rows[0]) then Length else Stop
      {
        var result := seq(|rows|, i requires 0 <= i < |rows| =>
          if condition == 0 then StopIfMaxLen(rows[i]) else StopIfEosToken(rows[i], numNewTokens));
        assert result[0] == if condition == 0 then StopIfMaxLen(rows[0]) else StopIfEosToken(rows[0], numNewTokens);
        assert condition > 0 && StopIfMaxLen(rows[0]) ==> done[0];
        assert forall i :: 0 <= i < |rows| ==> |rows[i]| == |rows[0]|;
        assert condition == 0 ==> (true in result <==> StopIfMaxLen(rows[0]));
        if true in result && true !in done {
          reason := if condition == 0 then Length else Stop;
        }
        done := seq(|rows|, i requires 0 <= i < |rows| => done[i] || result[i]);
      }
    }
  }
}
