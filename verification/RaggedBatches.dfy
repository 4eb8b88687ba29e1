/** Left-padded batches: detecting and removing the padding (`pace/llm/generator.py`). */
module RaggedBatches {
  import opened Results
  import opened LanguageModels
  import opened Tensors

  /** A row's length, nothing when it is not positive. */
  function Count(length: int): nat {
    if length <= 0 then 0 else length
  }

  /** The real tokens at the end of a padded row. */
  function Real(row: seq<Token>, length: int): seq<Token> {
    Last(row, Count(length))
  }

  /** The unpadded end of every row. */
  function Unpadded(inputs: seq<seq<Token>>, lengths: seq<int>): (rows: seq<seq<Token>>)
    requires |inputs| == |lengths|
    ensures |rows| == |inputs|
    ensures forall i :: 0 <= i < |inputs| ==> rows[i] == Real(inputs[i], lengths[i])
  {
    seq(|inputs|, i requires 0 <= i < |inputs| => Real(inputs[i], lengths[i]))
  }

  /** Positions 0, 1, ... of every row. */
  function RowPositions(lengths: seq<int>): (rows: seq<seq<int>>)
    ensures |rows| == |lengths|
    ensures forall i :: 0 <= i < |lengths| ==> rows[i] == Range(0, Count(lengths[i]))
  {
    seq(|lengths|, i requires 0 <= i < |lengths| => Range(0, Count(lengths[i])))
  }

  lemma PackNext(inputs: seq<seq<Token>>, lengths: seq<int>, i: nat)
    requires |inputs| == |lengths| && i < |inputs|
    ensures var rows, positions := Unpadded(inputs, lengths), RowPositions(lengths);
            if lengths[i] > 0 then
              && Flatten(rows, i + 1) == Flatten(rows, i) + Real(inputs[i], lengths[i])
              && Flatten(positions, i + 1) == Flatten(positions, i) + Range(0, Count(lengths[i]))
            else
              Flatten(rows, i + 1) == Flatten(rows, i) && Flatten(positions, i + 1) == Flatten(positions, i)
  {
    FlattenNext(Unpadded(inputs, lengths), i);
    FlattenNext(RowPositions(lengths), i);
  }

  /** `_pack_ragged`: all real tokens and their positions in one row; rows of length 0 are skipped. */
  method PackRagged(inputs: seq<seq<Token>>, lengths: seq<int>) returns (r: Result<(seq<Token>, seq<int>)>)
    requires |inputs| == |lengths|
    ensures r.Failure? <==> forall i :: 0 <= i < |lengths| ==> lengths[i] <= 0
    ensures r.Success? ==> r.value == (Flatten(Unpadded(inputs, lengths), |inputs|), Flatten(RowPositions(lengths), |inputs|))
  {
    var packedTokens: seq<Token>, packedPositions: seq<int> := [], [];
    var packed := false;
    for i := 0 to |inputs|
      invariant packedTokens == Flatten(Unpadded(inputs, lengths), i)
      invariant packedPositions == Flatten(RowPositions(lengths), i)
      invariant !packed <==> forall j :: 0 <= j < i ==> lengths[j] <= 0
    {
      PackNext(inputs, lengths, i);
      if lengths[i] > 0 {
        packedTokens := packedTokens + Real(inputs[i], lengths[i]);
        packedPositions := packedPositions + Range(0, Count(lengths[i]));
        packed := true;
      }
    }
    if !packed {
      return Failure(NothingToPack);
    }
    return Success((packedTokens, packedPositions));
  }

  /** Cumulative sum of the lengths, minus one: where the logits of each row's last token are read. */
  function EndPosition(lengths: seq<int>, i: nat): int
    requires i < |lengths|
  {
    Offset(RowPositions(lengths), i + 1) - 1
  }

  /**
   Unpacking at the cumulative lengths gives every row's real tokens back at positions 0, 1, ...
   without a gap.
   */
  lemma UnpackRow(inputs: seq<seq<Token>>, lengths: seq<int>, i: nat)
    requires |inputs| == |lengths| && forall i :: 0 <= i < |inputs| ==> lengths[i] <= |inputs[i]|
    requires i < |inputs|
    ensures var tokens, positions := Flatten(Unpadded(inputs, lengths), |inputs|), Flatten(RowPositions(lengths), |inputs|);
            var lo, hi := Offset(RowPositions(lengths), i), Offset(RowPositions(lengths), i + 1);
            && |tokens| == |positions| && hi - lo == Count(lengths[i]) && hi <= |tokens|
            && tokens[lo..hi] == Real(inputs[i], lengths[i])
            && positions[lo..hi] == Range(0, Count(lengths[i]))
  {
    var rows, positions := Unpadded(inputs, lengths), RowPositions(lengths);
    SameOffsets(rows, positions, i);
    SameOffsets(rows, positions, i + 1);
    SameOffsets(rows, positions, |rows|);
    SliceIsRow(rows, |rows|, i);
    SliceIsRow(positions, |rows|, i);
  }

  /** The end position of a row falls inside the row, on its last token, exactly when it has one. */
  lemma EndPositionIsLastToken(inputs: seq<seq<Token>>, lengths: seq<int>, i: nat)
    requires |inputs| == |lengths| && forall i :: 0 <= i < |inputs| ==> lengths[i] <= |inputs[i]|
    requires i < |inputs|
    ensures Offset(RowPositions(lengths), i) <= EndPosition(lengths, i) <==> lengths[i] > 0
    ensures lengths[i] > 0 ==>
      && EndPosition(lengths, i) < |Flatten(Unpadded(inputs, lengths), |inputs|)|
      && Flatten(Unpadded(inputs, lengths), |inputs|)[EndPosition(lengths, i)] == inputs[i][|inputs[i]| - 1]
  {
    var rows, positions := Unpadded(inputs, lengths), RowPositions(lengths);
    SameOffsets(rows, positions, i);
    SameOffsets(rows, positions, i + 1);
    if lengths[i] > 0 {
      LastOfRow(rows, |inputs|, i, EndPosition(lengths, i));
      RealEndsRow(inputs[i], lengths[i], rows[i]);
      assert Flatten(rows, |inputs|)[EndPosition(lengths, i)] == rows[i][|rows[i]| - 1];
      assert rows[i][|rows[i]| - 1] == inputs[i][|inputs[i]| - 1];
    }
  }

  lemma RealEndsRow(row: seq<Token>, length: int, tokens: seq<Token>)
    requires 0 < length <= |row| && tokens == Real(row, length)
    ensures tokens[|tokens| - 1] == row[|row| - 1]
  {
  }

  /** A row of a batch: padding in front of a prompt. */
  function PadLeft(prompt: seq<Token>, padToken: Token, width: nat): (row: seq<Token>)
    requires |prompt| <= width
    ensures |row| == width
  {
    seq(width - |prompt|, _ => padToken) + prompt
  }

  /** Ones for the tokens that look like padding. */
  function PadMarks(row: seq<Token>, padToken: Token): (bits: seq<int>)
    ensures |bits| == |row|
  {
    seq(|row|, i requires 0 <= i < |row| => if row[i] == padToken then 1 else 0)
  }

  /** Lengths read off the tokens alone, when no attention mask says where the padding ends. */
  function DetectLengths(rows: seq<seq<Token>>, padToken: Token): (lengths: seq<int>)
    requires forall r <- rows :: r != []
    ensures |lengths| == |rows|
  {
    if exists r <- rows :: r[0] == padToken then
      seq(|rows|, i requires 0 <= i < |rows| => |rows[i]| - Sum(CumulativeProduct(PadMarks(rows[i], padToken))))
    else
      seq(|rows|, i requires 0 <= i < |rows| => |rows[i]|)
  }

  /**
   Reading the lengths off the tokens finds the real length of every row exactly when no prompt
   itself begins with the padding token; one that does loses its leading tokens as padding.
   */
  lemma DetectionExact(prompts: seq<seq<Token>>, padToken: Token, width: nat)
    requires forall p <- prompts :: 0 < |p| <= width
    ensures var rows := PadRows(prompts, padToken, width);
            (forall i :: 0 <= i < |prompts| ==> DetectLengths(rows, padToken)[i] == |prompts[i]|)
            <==> (forall i :: 0 <= i < |prompts| ==> prompts[i][0] != padToken)
  {
    forall i | 0 <= i < |prompts|
      ensures DetectLengths(PadRows(prompts, padToken, width), padToken)[i] == |prompts[i]| <==> prompts[i][0] != padToken
    {
      DetectedLength(prompts, padToken, width, i);
    }
  }

  /** A batch on which that happens: the real first token is taken for padding. */
  lemma LeadingTokenLost()
    ensures var rows := PadRows([[0, 5]], 0, 3);
            var lengths := DetectLengths(rows, 0);
            lengths == [1] && Unpadded(rows, lengths) == [[5]]
  {
    hide CumulativeProduct, Sum;
    var rows := PadRows([[0, 5]], 0, 3);
    assert rows[0] == [0, 0, 5] && rows[0] in rows;
    var marks := PadMarks(rows[0], 0);
    assert marks == [1, 1, 0];
    LeadingOnes(marks, 2);
    assert DetectLengths(rows, 0)[0] == 1;
    assert Real(rows[0], 1) == [5];
  }

  lemma DetectedLength(prompts: seq<seq<Token>>, padToken: Token, width: nat, i: nat)
    requires forall p <- prompts :: 0 < |p| <= width
    requires i < |prompts|
    ensures DetectLengths(PadRows(prompts, padToken, width), padToken)[i] == |prompts[i]| <==> prompts[i][0] != padToken
  {
    var rows := PadRows(prompts, padToken, width);
    var marks := PadMarks(rows[i], padToken);
    var pads := width - |prompts[i]|;
    assert rows[i] in rows;
    assert marks[pads] == if prompts[i][0] == padToken then 1 else 0;
    LeadingOnes(marks, FirstZero(marks, 0));
  }

  /** All rows of a batch, padded to one width. */
  function PadRows(prompts: seq<seq<Token>>, padToken: Token, width: nat): (rows: seq<seq<Token>>)
    requires forall p <- prompts :: |p| <= width
    ensures |rows| == |prompts|
    ensures forall i :: 0 <= i < |prompts| ==> rows[i] == PadLeft(prompts[i], padToken, width)
    ensures forall r <- rows :: |r| == width
  {
    seq(|prompts|, i requires 0 <= i < |prompts| => PadLeft(prompts[i], padToken, width))
  }

  function FirstZero(bits: seq<int>, i: nat): (k: nat)
    requires i <= |bits| && forall j :: 0 <= j < |bits| ==> bits[j] == 0 || bits[j] == 1
    ensures i <= k <= |bits| && forall j :: i <= j < k ==> bits[j] == 1
    ensures k < |bits| ==> bits[k] == 0
    decreases |bits| - i
  {
    if i == |bits| || bits[i] == 0 then i else FirstZero(bits, i + 1)
  }
}
