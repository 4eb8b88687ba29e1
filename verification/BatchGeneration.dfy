/** `Generator.generate` without speculation, on a left-padded batch (`pace/llm/generator.py`). */
module BatchGeneration {
  import opened Results
  import opened Indexing
  import opened LanguageModels
  import opened KvCaches
  import opened Stopping
  import opened GreedyRuns
  import opened Tensors
  import opened RaggedBatches

  /** One row of a batch run: its tokens, its cache and counter, and what it is fed next. */
  datatype Row = Row(all: seq<Token>, cache: Cache, numComputed: int, next: Token, unfinished: bool) {

    /** Is there room for one more token? */
    predicate HasRoom() {
      |cache.entries| + 1 <= cache.capacity
    }
  }

  /** The row after `t` steps is its solo run as far as that goes, then padding tokens. */
  function RowTokens(s: Setup, pads: seq<Token>, padToken: Token, t: nat): seq<Token> {
    var l := Min(t, s.PlainLength());
    pads + s.Committed(l) + Fillers(padToken, t - l)
  }

  /**
   Where a row is after `t` steps.  Up to the end of its solo run its cache holds the real tokens
   but the last at positions 0, 1, ... behind the masked padding.
   */
  ghost predicate RowAfter(row: Row, s: Setup, pads: seq<Token>, hidden: nat, padToken: Token, t: nat)
    requires t > 0
  {
    && row.all == RowTokens(s, pads, padToken, t)
    && (row.unfinished <==> t < s.PlainLength())
    && row.numComputed == |s.prompt| + t - 1
    && |row.cache.entries| == row.cache.peak == hidden + |s.prompt| + t - 1
    && (t <= s.PlainLength() ==>
          && Holds(row.cache.entries, hidden, s.Committed(t - 1))
          && row.next == s.target(AtPositions(s.Committed(t - 1), 0)))
  }

  /** Feeds a row its last token at the next position. */
  function DecodeRow(target: LanguageModel, row: Row): (r: (Token, Cache, int))
    requires row.HasRoom()
  {
    var call := row.cache.Call(target, AtPositions([row.next], row.numComputed)).value;
    (call.0[0], call.1, row.numComputed + 1)
  }

  /** Appends the sampled token, or padding once the row is finished. */
  function Postprocess(row: Row, sampled: Token, padToken: Token): Row {
    var next := if row.unfinished then sampled else padToken;
    row.(next := next, all := row.all + [next])
  }

  /** A row that has just got token `t` stops there exactly when its solo run does. */
  lemma StopsLikeSolo(s: Setup, row: seq<Token>, pads: seq<Token>, t: nat)
    requires 0 < t <= s.PlainLength() && row == pads + s.Committed(t) && s.maxNew > 0
    ensures (t >= s.maxNew || NewEos(row, 1, s.eos)) <==> t == s.PlainLength()
  {
    PlainLengthIsFirst(s, 1);
    TokenInRow(s, t, t);
    assert Last(row, 1) == [s.target(AtPositions(s.Committed(t - 1), 0))];
    assert NewEos(row, 1, s.eos) <==> s.EosAt(t);
  }

  /** Forward call of a live row: the next token of its solo run, and the cache one token further. */
  lemma DecodeFollowsSolo(s: Setup, row: Row, hidden: nat, t: nat)
    requires 0 < t && Holds(row.cache.entries, hidden, s.Committed(t - 1)) && row.HasRoom()
    requires row.next == s.target(AtPositions(s.Committed(t - 1), 0)) && row.numComputed == |s.prompt| + t - 1
    ensures var (out, cache, counted) := DecodeRow(s.target, row);
            && out == s.target(AtPositions(s.Committed(t), 0))
            && Holds(cache.entries, hidden, s.Committed(t))
  {
    var held := s.Committed(t - 1);
    FeedExtends(row.cache.entries, hidden, held, [row.next]);
    ForwardSees(s.target, row.cache.entries, hidden, held, [row.next], 0);
    assert [row.next][..0 + 1] == [row.next];
  }

  /** Padding a finished row keeps it its solo run followed by padding. */
  lemma PadsAfterSolo(s: Setup, pads: seq<Token>, padToken: Token, t: nat, u: nat)
    requires u == t + 1 && s.PlainLength() <= t
    ensures RowTokens(s, pads, padToken, t) + [padToken] == RowTokens(s, pads, padToken, u)
  {
    var l := s.PlainLength();
    assert Fillers(padToken, t - l) + [padToken] == Fillers(padToken, u - l);
    assert pads + s.Committed(l) + Fillers(padToken, t - l) + [padToken]
        == pads + s.Committed(l) + (Fillers(padToken, t - l) + [padToken]);
  }

  lemma TokensOfSolo(s: Setup, pads: seq<Token>, padToken: Token, t: nat)
    requires t <= s.PlainLength()
    ensures RowTokens(s, pads, padToken, t) == pads + s.Committed(t)
  {
    assert Fillers(padToken, 0) == [];
  }

  /** One more token of the solo run. */
  lemma NextOfSolo(s: Setup, pads: seq<Token>, padToken: Token, t: nat, u: nat)
    requires u == t + 1 && u <= s.PlainLength()
    ensures RowTokens(s, pads, padToken, t) + [s.target(AtPositions(s.Committed(t), 0))]
            == RowTokens(s, pads, padToken, u)
  {
    TokensOfSolo(s, pads, padToken, t);
    TokensOfSolo(s, pads, padToken, u);
    var next := [s.target(AtPositions(s.Committed(t), 0))];
    assert s.Committed(u) == s.Committed(t) + next;
    assert pads + s.Committed(t) + next == pads + (s.Committed(t) + next);
  }

  /** The forward call and sampling of one row. */
  function StepOne(target: LanguageModel, row: Row, padToken: Token): (r: Row)
    requires row.HasRoom()
    ensures r.cache.capacity == row.cache.capacity
  {
    var (out, cache, counted) := DecodeRow(target, row);
    Postprocess(row.(cache := cache, numComputed := counted), out, padToken)
  }

  /** A row that has just got its `u`-th new token is finished for good if it stops now. */
  function StopOne(row: Row, u: nat, maxNew: nat, eos: set<Token>): Row {
    row.(unfinished := row.unfinished && !(u >= maxNew || NewEos(row.all, 1, eos)))
  }

  /** One decode step of one row, whatever the other rows of the batch hold. */
  lemma RowStep(s: Setup, row: Row, pads: seq<Token>, hidden: nat, padToken: Token, t: nat, u: nat)
    requires 0 < t && u == t + 1 && s.maxNew > 0
    requires RowAfter(row, s, pads, hidden, padToken, t) && row.HasRoom()
    ensures RowAfter(StopOne(StepOne(s.target, row, padToken), u, s.maxNew, s.eos), s, pads, hidden, padToken, u)
  {
    if row.unfinished {
      DecodeFollowsSolo(s, row, hidden, t);
      NextOfSolo(s, pads, padToken, t, u);
      TokensOfSolo(s, pads, padToken, u);
      StopsLikeSolo(s, StepOne(s.target, row, padToken).all, pads, u);
    } else {
      PadsAfterSolo(s, pads, padToken, t, u);
    }
  }

  /** The prefill of one row: its first token, with the cache over the whole prompt. */
  lemma RowPrefill(s: Setup, row: Row, pads: seq<Token>, hidden: nat, padToken: Token)
    requires s.maxNew > 0 && row.unfinished && row.all == pads + s.prompt
    requires Holds(row.cache.entries, hidden, s.prompt) && row.cache.peak == |row.cache.entries|
    requires row.numComputed == |s.prompt|
    ensures var first := s.target(AtPositions(s.prompt, 0));
            RowAfter(StopOne(Postprocess(row, first, padToken), 1, s.maxNew, s.eos), s, pads, hidden, padToken, 1)
  {
    assert s.Committed(0) == s.prompt;
    TokensOfSolo(s, pads, padToken, 0);
    PlainLengthIsFirst(s, 1);
    NextOfSolo(s, pads, padToken, 0, 1);
    TokensOfSolo(s, pads, padToken, 1);
    StopsLikeSolo(s, Postprocess(row, s.target(AtPositions(s.prompt, 0)), padToken).all, pads, 1);
  }

  /** The forward call and sampling of a whole batch: every row by itself, if all of them have room. */
  function StepAll(target: LanguageModel, rows: seq<Row>, padToken: Token): (r: Result<seq<Row>>)
    ensures r.Success? <==> forall i :: 0 <= i < |rows| ==> rows[i].HasRoom()
    ensures r.Success? ==>
      && |r.value| == |rows|
      && forall i :: 0 <= i < |rows| ==> r.value[i] == StepOne(target, rows[i], padToken)
    ensures r.Failure? ==> r.error == NoFreeBlocks
  {
    if forall i :: 0 <= i < |rows| ==> rows[i].HasRoom() then
      Success(seq(|rows|, i requires 0 <= i < |rows| => StepOne(target, rows[i], padToken)))
    else
      Failure(NoFreeBlocks)
  }

  /** The prefill of every row's cache, if all of them have room. */
  function FillAll(capacity: nat, inputs: seq<seq<Entry>>): (r: Result<seq<Cache>>)
    ensures r.Success? <==> forall i :: 0 <= i < |inputs| ==> |inputs[i]| <= capacity
    ensures r.Success? ==>
      && |r.value| == |inputs|
      && forall i :: 0 <= i < |inputs| ==> r.value[i] == Cache(capacity, inputs[i], |inputs[i]|)
    ensures r.Failure? ==> r.error == NoFreeBlocks
  {
    if forall i :: 0 <= i < |inputs| ==> |inputs[i]| <= capacity then
      Success(seq(|inputs|, i requires 0 <= i < |inputs| =>
        assert [] + inputs[i] == inputs[i]; Cache(capacity, [], 0).Update(inputs[i]).value))
    else
      Failure(NoFreeBlocks)
  }

  function AllTokens(rows: seq<Row>): (tokens: seq<seq<Token>>)
    ensures |tokens| == |rows|
    ensures forall i :: 0 <= i < |rows| ==> tokens[i] == rows[i].all
  {
    seq(|rows|, i requires 0 <= i < |rows| => rows[i].all)
  }

  /** Rows that stop now are finished for good. */
  function Finish(rows: seq<Row>, done: seq<bool>): (r: seq<Row>)
    requires |done| == |rows|
    ensures |r| == |rows|
    ensures forall i :: 0 <= i < |rows| ==> r[i] == rows[i].(unfinished := rows[i].unfinished && !done[i])
  {
    seq(|rows|, i requires 0 <= i < |rows| => rows[i].(unfinished := rows[i].unfinished && !done[i]))
  }

  class BatchGenerator {
    const target: LanguageModel
    /** The real prompts; the batch holds them padded on the left to `width`. */
    const prompts: seq<seq<Token>>
    const width: nat
    const padToken: Token
    const maxNew: nat
    const eos: set<Token>
    const paged: bool
    const criteria: StoppingCriteria
    var rows: seq<Row>

    constructor (target: LanguageModel, prompts: seq<seq<Token>>, width: nat, padToken: Token,
                 maxNew: nat, eos: set<Token>, paged: bool)
      requires prompts != [] && forall p <- prompts :: 0 < |p| <= width
      requires maxNew > 0
      ensures this.target == target && this.prompts == prompts && this.width == width && this.padToken == padToken
      ensures this.maxNew == maxNew && this.eos == eos && this.paged == paged
      ensures fresh(criteria) && Wired()
    {
      this.target := target;
      this.prompts := prompts;
      this.width := width;
      this.padToken := padToken;
      this.maxNew := maxNew;
      this.eos := eos;
      this.paged := paged;
      criteria := new StoppingCriteria(width, Some(maxNew), 0, eos, NO_STRINGS);
      rows := [];
    }

    ghost predicate Wired() {
      && prompts != [] && maxNew > 0
      && (forall i :: 0 <= i < |prompts| ==> 0 < |prompts[i]| <= width)
      && criteria.maxLength == Some(width + maxNew) && criteria.minLength == width && criteria.eos == eos
      && criteria.stopString == NO_STRINGS
    }

    function Setup(i: nat): (s: Setup)
      requires i < |prompts|
    {
      Solo(target, prompts[i], maxNew, eos)
    }

    function Pads(i: nat): (pads: seq<Token>)
      requires i < |prompts| && |prompts[i]| <= width
    {
      seq(width - |prompts[i]|, _ => padToken)
    }

    /** Masked entries at the front of a row's cache: a paged cache gets no padding at all. */
    ghost function Hidden(i: nat): nat
      requires i < |prompts| && |prompts[i]| <= width
    {
      if paged then 0 else |Pads(i)|
    }

    /** Every row is where its own solo run would be, with room for as much as the longest row can get, padding included. */
    ghost predicate After(t: nat)
      requires Wired() && t > 0
      reads this
    {
      && |rows| == |prompts|
      && (forall i :: 0 <= i < |rows| ==> rows[i].cache.capacity == maxNew + width)
      && forall i :: 0 <= i < |rows| ==> RowAfter(rows[i], Setup(i), Pads(i), Hidden(i), padToken, t)
    }

    /** Appends one sampled token to every row and asks the stopping rule. */
    method StopFinished(stepped: seq<Row>, ghost u: nat)
      requires Wired() && |stepped| == |prompts|
      requires forall i :: 0 <= i < |stepped| ==> |stepped[i].all| == width + u
      requires u > 0
      modifies this, criteria
      ensures |rows| == |stepped|
      ensures forall i :: 0 <= i < |rows| ==> rows[i] == StopOne(stepped[i], u, maxNew, eos)
      ensures |rows| == 1 && stepped[0].unfinished && !rows[0].unfinished ==> criteria.stopReason == ReasonAt(u, maxNew)
    {
      var done := criteria.StopNow(AllTokens(stepped), 1);
      rows := Finish(stepped, done);
      forall i | 0 <= i < |rows|
        ensures rows[i] == StopOne(stepped[i], u, maxNew, eos)
      {
        assert AllTokens(stepped)[i] == stepped[i].all;
      }
      assert |rows| == 1 && stepped[0].unfinished && !rows[0].unfinished ==> done[0];
    }

    /**
     One pass of the decode loop over all rows.  It fails only for want of room, which is there as
     long as the length limit is not reached.
     */
    method DecodeStep(ghost t: nat, ghost u: nat) returns (r: Result<()>)
      requires Wired() && t > 0 && u == t + 1 && After(t)
      modifies this, criteria
      ensures t <= maxNew ==> r.Success?
      ensures r.Success? ==> After(u)
      ensures r.Success? && |rows| == 1 && old(rows)[0].unfinished && !rows[0].unfinished ==>
        criteria.stopReason == ReasonAt(u, maxNew)
    {
      ghost var before := rows;
      var stepped := StepAll(target, rows, padToken);
      if t <= maxNew {
        RoomForStep(t);
      }
      if stepped.Failure? {
        return Failure(stepped.error);
      }
      RowsGrow(before, stepped.value, t, u);
      StopFinished(stepped.value, u);
      forall i | 0 <= i < |rows|
        ensures RowAfter(rows[i], Setup(i), Pads(i), Hidden(i), padToken, u)
      {
        RowStep(Setup(i), before[i], Pads(i), Hidden(i), padToken, t, u);
      }
      r := Success(());
    }

    /** Every row has room for another token until the limit is reached. */
    lemma RoomForStep(t: nat)
      requires Wired() && 0 < t <= maxNew && After(t)
      ensures forall i :: 0 <= i < |rows| ==> rows[i].HasRoom()
    {
      forall i | 0 <= i < |rows|
        ensures rows[i].HasRoom()
      {
        assert RowAfter(rows[i], Setup(i), Pads(i), Hidden(i), padToken, t);
      }
    }

    lemma RowsGrow(before: seq<Row>, stepped: seq<Row>, t: nat, u: nat)
      requires Wired() && t > 0 && u == t + 1 && |before| == |stepped| == |prompts|
      requires forall i :: 0 <= i < |before| ==> before[i].HasRoom() && stepped[i] == StepOne(target, before[i], padToken)
      requires forall i :: 0 <= i < |before| ==> RowAfter(before[i], Setup(i), Pads(i), Hidden(i), padToken, t)
      ensures forall i :: 0 <= i < |stepped| ==> |stepped[i].all| == width + u
    {
      forall i | 0 <= i < |before|
        ensures |stepped[i].all| == width + u
      {
        assert RowAfter(before[i], Setup(i), Pads(i), Hidden(i), padToken, t);
      }
    }

    /** The padded batch as it is passed in. */
    function Inputs(): (inputs: seq<seq<Token>>)
      requires forall i :: 0 <= i < |prompts| ==> |prompts[i]| <= width
      ensures |inputs| == |prompts|
      ensures forall i :: 0 <= i < |prompts| ==> inputs[i] == Pads(i) + prompts[i]
    {
      seq(|prompts|, i requires 0 <= i < |prompts| => Pads(i) + prompts[i])
    }

    /**
     The prefill forward call: row by row for a contiguous cache, all rows packed end to end for a
     paged one.  Either way each row's first token is the model's choice after its own prompt.
     */
    method Prefill() returns (first: seq<Token>)
      requires Wired()
      modifies this`rows
      ensures |first| == |rows| == |prompts|
      ensures forall i :: 0 <= i < |rows| ==>
        && first[i] == target(AtPositions(prompts[i], 0))
        && rows[i].all == Pads(i) + prompts[i] && rows[i].unfinished
        && rows[i].cache.capacity == maxNew + width && rows[i].cache.peak == |rows[i].cache.entries|
        && Holds(rows[i].cache.entries, Hidden(i), prompts[i]) && rows[i].numComputed == |prompts[i]|
    {
      var inputs := Inputs();
      var lengths := seq(|prompts|, i requires 0 <= i < |prompts| => |prompts[i]|);
      var entries;
      if paged {
        first, entries := PrefillPacked(target, inputs, lengths);
      } else {
        first, entries := PrefillPadded(target, inputs, lengths);
      }
      forall i | 0 <= i < |inputs|
        ensures Real(inputs[i], lengths[i]) == prompts[i] && |inputs[i]| - lengths[i] == |Pads(i)|
      {
        assert |Real(inputs[i], lengths[i])| == |prompts[i]|;
      }
      var filled := FillAll(maxNew + width, entries);
      var caches := filled.value;
      rows := seq(|inputs|, i requires 0 <= i < |inputs| => Row(inputs[i], caches[i], lengths[i], first[i], true));
    }

    /** The prefill step over all rows. */
    method FirstStep()
      requires Wired()
      modifies this, criteria
      ensures After(1) && |rows| == |prompts|
      ensures |rows| == 1 && !rows[0].unfinished ==> criteria.stopReason == ReasonAt(1, maxNew)
    {
      var first := Prefill();
      ghost var before := rows;
      var stepped := PostprocessAll(rows, first, padToken);
      StopFinished(stepped, 1);
      forall i | 0 <= i < |rows|
        ensures RowAfter(rows[i], Setup(i), Pads(i), Hidden(i), padToken, 1)
      {
        RowPrefill(Setup(i), before[i], Pads(i), Hidden(i), padToken);
      }
    }

    /**
     A row after `steps` steps, spelled out: padding up to the width, the prompt with the target's own stream
     as far as a solo run takes it, and padding again.
     */
    ghost predicate IsSoloRow(row: seq<Token>, i: nat, steps: nat)
      requires i < |prompts|
    {
      var length := GreedyRuns.Setup(target, target, 0, 0, prompts[i], maxNew, eos).PlainLength();
      && length <= steps && |prompts[i]| <= width
      && row == seq(width - |prompts[i]|, _ => padToken) + Continue(target, prompts[i], length) + seq(steps - length, _ => padToken)
    }

    lemma RowIsSolo(row: seq<Token>, i: nat, steps: nat)
      requires Wired() && i < |prompts| && Setup(i).PlainLength() <= steps
      requires row == RowTokens(Setup(i), Pads(i), padToken, steps)
      ensures IsSoloRow(row, i, steps)
    {
    }

    /**
     A whole batch run of `steps` steps.  Every row comes out as its own solo run, followed by
     padding only; the batch ends with the row whose solo run is the longest.
     */
    method Generate() returns (tokens: seq<seq<Token>>, ghost steps: nat)
      requires Wired()
      modifies this, criteria
      ensures |tokens| == |prompts|
      ensures forall i :: 0 <= i < |tokens| ==>
        && Setup(i).PlainLength() <= steps
        && tokens[i] == RowTokens(Setup(i), Pads(i), padToken, steps)
        && IsSoloRow(tokens[i], i, steps)
      ensures exists i :: 0 <= i < |prompts| && Setup(i).PlainLength() == steps
      ensures |prompts| == 1 ==> criteria.stopReason == ReasonAt(steps, maxNew)
    {
      ghost var longest;
      steps, longest := RunToEnd();
      tokens := AllTokens(rows);
      AllDone(steps);
      forall i | 0 <= i < |tokens|
        ensures IsSoloRow(tokens[i], i, steps)
      {
        RowIsSolo(tokens[i], i, steps);
      }
    }

    /** The decode loop: as long as some row is unfinished, all rows take another step. */
    method RunToEnd() returns (ghost steps: nat, ghost longest: nat)
      requires Wired()
      modifies this, criteria
      ensures steps > 0 && After(steps) && |rows| == |prompts| && true !in Unfinished(rows)
      ensures longest < |prompts| && Setup(longest).PlainLength() >= steps
      ensures |prompts| == 1 ==> criteria.stopReason == ReasonAt(steps, maxNew)
    {
      FirstStep();
      steps := 1;
      longest := 0;
      PlainLengthIsFirst(Setup(0), 1);
      hide After, GreedyRuns.Setup.PlainLength, GreedyRuns.Setup.EosAt, ReasonAt;
      while true in Unfinished(rows)
        invariant 0 < steps <= maxNew && After(steps) && |rows| == |prompts|
        invariant |prompts| == 1 && !rows[0].unfinished ==> criteria.stopReason == ReasonAt(steps, maxNew)
        invariant longest < |prompts| && Setup(longest).PlainLength() >= steps
        decreases maxNew - steps
      {
        longest := LiveStep(steps, steps + 1);
        steps := steps + 1;
      }
      NoneUnfinished(rows);
    }

    /** A step with some row unfinished: that row's solo run goes on, too. */
    method LiveStep(ghost t: nat, ghost u: nat) returns (ghost i: nat)
      requires Wired() && t > 0 && u == t + 1 && After(t) && true in Unfinished(rows)
      modifies this, criteria
      ensures After(u) && |rows| == |prompts| && i < |prompts| && u <= Setup(i).PlainLength() <= maxNew
      ensures |prompts| == 1 && !rows[0].unfinished ==> criteria.stopReason == ReasonAt(u, maxNew)
    {
      i := SomeUnfinished(rows);
      RowLive(rows[i], Setup(i), Pads(i), Hidden(i), padToken, t);
      var _ := DecodeStep(t, u);
    }

    /** Once every row is finished, each is its own solo run followed by padding. */
    lemma AllDone(steps: nat)
      requires Wired() && steps > 0 && After(steps) && true !in Unfinished(rows)
      ensures forall i :: 0 <= i < |rows| ==>
        Setup(i).PlainLength() <= steps && rows[i].all == RowTokens(Setup(i), Pads(i), padToken, steps)
    {
      NoneUnfinished(rows);
      forall i | 0 <= i < |rows|
        ensures Setup(i).PlainLength() <= steps && rows[i].all == RowTokens(Setup(i), Pads(i), padToken, steps)
      {
        RowDone(rows[i], Setup(i), Pads(i), Hidden(i), padToken, steps);
      }
    }
  }

  lemma RowLive(row: Row, s: Setup, pads: seq<Token>, hidden: nat, padToken: Token, t: nat)
    requires t > 0 && s.maxNew > 0 && RowAfter(row, s, pads, hidden, padToken, t) && row.unfinished
    ensures t < s.PlainLength() <= s.maxNew
  {
    PlainLengthIsFirst(s, 1);
  }

  lemma RowDone(row: Row, s: Setup, pads: seq<Token>, hidden: nat, padToken: Token, t: nat)
    requires t > 0 && RowAfter(row, s, pads, hidden, padToken, t) && !row.unfinished
    ensures s.PlainLength() <= t && row.all == RowTokens(s, pads, padToken, t)
  {
  }

  lemma SomeUnfinished(rows: seq<Row>) returns (i: nat)
    requires true in Unfinished(rows)
    ensures i < |rows| && rows[i].unfinished && (|rows| == 1 ==> i == 0)
  {
    i :| 0 <= i < |rows| && Unfinished(rows)[i];
  }

  lemma NoneUnfinished(rows: seq<Row>)
    requires true !in Unfinished(rows)
    ensures forall i :: 0 <= i < |rows| ==> !rows[i].unfinished
  {
    forall i | 0 <= i < |rows|
      ensures !rows[i].unfinished
    {
      assert !Unfinished(rows)[i];
    }
  }

  function Unfinished(rows: seq<Row>): (flags: seq<bool>)
    ensures |flags| == |rows|
    ensures forall i :: 0 <= i < |rows| ==> flags[i] == rows[i].unfinished
  {
    seq(|rows|, i requires 0 <= i < |rows| => rows[i].unfinished)
  }

  function PostprocessAll(rows: seq<Row>, sampled: seq<Token>, padToken: Token): (r: seq<Row>)
    requires |sampled| == |rows|
    ensures |r| == |rows|
    ensures forall i :: 0 <= i < |rows| ==> r[i] == Postprocess(rows[i], sampled[i], padToken)
  {
    seq(|rows|, i requires 0 <= i < |rows| => Postprocess(rows[i], sampled[i], padToken))
  }

  /** Rows with their padding, at clamped positions; the logits of the last column are read. */
  method PrefillPadded(target: LanguageModel, inputs: seq<seq<Token>>, lengths: seq<int>)
    returns (first: seq<Token>, caches: seq<seq<Entry>>)
    requires |inputs| == |lengths| && forall i :: 0 <= i < |inputs| ==> 0 < lengths[i] <= |inputs[i]|
    ensures |first| == |caches| == |inputs|
    ensures forall i :: 0 <= i < |inputs| ==>
      && first[i] == target(AtPositions(Real(inputs[i], lengths[i]), 0))
      && Holds(caches[i], |inputs[i]| - lengths[i], Real(inputs[i], lengths[i]))
  {
    caches := seq(|inputs|, i requires 0 <= i < |inputs| =>
      Zip(inputs[i], PaddedPositions(|inputs[i]| - lengths[i], lengths[i])));
    first := seq(|inputs|, i requires 0 <= i < |inputs| => OutputAt(target, caches[i], |caches[i]|));
    forall i | 0 <= i < |inputs|
      ensures first[i] == target(AtPositions(Real(inputs[i], lengths[i]), 0))
      ensures Holds(caches[i], |inputs[i]| - lengths[i], Real(inputs[i], lengths[i]))
    {
      PaddedRow(target, inputs[i], lengths[i]);
      assert caches[i] == Zip(inputs[i], PaddedPositions(|inputs[i]| - lengths[i], lengths[i]));
    }
  }

  lemma PaddedRow(target: LanguageModel, row: seq<Token>, length: nat)
    requires 0 < length <= |row|
    ensures var cache := Zip(row, PaddedPositions(|row| - length, length));
            && Holds(cache, |row| - length, Real(row, length))
            && OutputAt(target, cache, |cache|) == target(AtPositions(Real(row, length), 0))
  {
    var pads, tokens := row[..|row| - length], Real(row, length);
    assert row == pads + tokens;
    PaddedPrefill(pads, tokens);
    OutputSeesContext(target, Zip(row, PaddedPositions(|pads|, length)), |pads|, tokens, length);
    assert tokens[..length] == tokens;
  }

  /** Rows packed without padding; each sequence attends to itself, and its end position is read. */
  method PrefillPacked(target: LanguageModel, inputs: seq<seq<Token>>, lengths: seq<int>)
    returns (first: seq<Token>, caches: seq<seq<Entry>>)
    requires inputs != [] && |inputs| == |lengths|
    requires forall i :: 0 <= i < |inputs| ==> 0 < lengths[i] <= |inputs[i]|
    ensures |first| == |caches| == |inputs|
    ensures forall i :: 0 <= i < |inputs| ==>
      && first[i] == target(AtPositions(Real(inputs[i], lengths[i]), 0))
      && Holds(caches[i], 0, Real(inputs[i], lengths[i]))
  {
    assert lengths[0] > 0;
    var packed := PackRagged(inputs, lengths);
    SegmentIsRow(inputs, lengths, 0);
    caches := Segments(packed.value.0, packed.value.1, lengths);
    forall i | 0 <= i < |inputs|
      ensures caches[i] == AtPositions(Real(inputs[i], lengths[i]), 0)
    {
      SegmentIsRow(inputs, lengths, i);
    }
    first := EndLogits(target, inputs, lengths, caches);
  }

  /** Reads the logits of every row's last token out of the packed logits. */
  method EndLogits(target: LanguageModel, inputs: seq<seq<Token>>, lengths: seq<int>, caches: seq<seq<Entry>>)
    returns (first: seq<Token>)
    requires |inputs| == |lengths| == |caches|
    requires forall i :: 0 <= i < |inputs| ==> 0 < lengths[i] <= |inputs[i]|
    requires forall i :: 0 <= i < |inputs| ==> caches[i] == AtPositions(Real(inputs[i], lengths[i]), 0)
    ensures |first| == |inputs|
    ensures forall i :: 0 <= i < |inputs| ==>
      && first[i] == target(AtPositions(Real(inputs[i], lengths[i]), 0))
      && Holds(caches[i], 0, Real(inputs[i], lengths[i]))
  {
    var logits := Logits(target, caches);
    forall i | 0 <= i < |inputs|
      ensures 0 <= EndPosition(lengths, i) < Offset(logits, |inputs|)
      ensures Flatten(logits, |inputs|)[EndPosition(lengths, i)] == target(caches[i])
      ensures Holds(caches[i], 0, Real(inputs[i], lengths[i]))
    {
      SameOffsets(logits, RowPositions(lengths), i + 1);
      LastOfRow(logits, |inputs|, i, EndPosition(lengths, i));
      LastOutput(target, Real(inputs[i], lengths[i]));
    }
    first := seq(|inputs|, i requires 0 <= i < |inputs| => Flatten(logits, |inputs|)[EndPosition(lengths, i)]);
  }

  /** The packed stream cut at the cumulative lengths, as the attention kernel is told to see it. */
  function Segments(tokens: seq<Token>, positions: seq<int>, lengths: seq<int>): (segments: seq<seq<Entry>>)
    requires |tokens| == |positions| == Offset(RowPositions(lengths), |lengths|)
    ensures |segments| == |lengths|
    ensures forall i :: 0 <= i < |lengths| ==> segments[i] == Segment(tokens, positions, lengths, i)
  {
    seq(|lengths|, i requires 0 <= i < |lengths| => Segment(tokens, positions, lengths, i))
  }

  function Segment(tokens: seq<Token>, positions: seq<int>, lengths: seq<int>, i: nat): seq<Entry>
    requires i < |lengths| && |tokens| == |positions| == Offset(RowPositions(lengths), |lengths|)
  {
    OffsetGrows(RowPositions(lengths), i + 1, |lengths|);
    var lo, hi := Offset(RowPositions(lengths), i), Offset(RowPositions(lengths), i + 1);
    Zip(tokens[lo..hi], positions[lo..hi])
  }

  lemma SegmentIsRow(inputs: seq<seq<Token>>, lengths: seq<int>, i: nat)
    requires |inputs| == |lengths| && forall i :: 0 <= i < |inputs| ==> lengths[i] <= |inputs[i]|
    requires i < |inputs|
    ensures var tokens, positions := Flatten(Unpadded(inputs, lengths), |inputs|), Flatten(RowPositions(lengths), |inputs|);
            && |tokens| == |positions|
            && Segment(tokens, positions, lengths, i) == AtPositions(Real(inputs[i], lengths[i]), 0)
  {
    UnpackRow(inputs, lengths, i);
  }

  /** Every sequence attends to its own tokens only. */
  function Logits(target: LanguageModel, segments: seq<seq<Entry>>): (logits: seq<seq<Token>>)
    ensures |logits| == |segments|
    ensures forall i :: 0 <= i < |segments| ==> logits[i] == Outputs(target, [], segments[i])
  {
    seq(|segments|, i requires 0 <= i < |segments| => Outputs(target, [], segments[i]))
  }

  /** The last output of a forward call over whole prompts at their own positions. */
  lemma LastOutput(target: LanguageModel, tokens: seq<Token>)
    requires tokens != []
    ensures Holds(AtPositions(tokens, 0), 0, tokens)
    ensures Outputs(target, [], AtPositions(tokens, 0))[|tokens| - 1] == target(AtPositions(tokens, 0))
  {
    var all := AtPositions(tokens, 0);
    assert [] + all == all && all[0..] == all;
    OutputSeesContext(target, all, 0, tokens, |tokens|);
    assert tokens[..|tokens|] == tokens;
  }
}
