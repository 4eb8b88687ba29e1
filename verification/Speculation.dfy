/** The PARD speculative decoder (`pace/llm/speculative.py`), for one sequence. */
module Speculation {
  import opened Results
  import opened LanguageModels
  import opened KvCaches
  import opened GreedyRuns
  import opened SpeculativeRuns
  import opened Tensors

  datatype Verification = Verification(accepted: seq<Token>, targetTrim: nat)

  /** May a row be compared with one of `n` tokens, token by token or one of them with all of the other? */
  predicate Comparable(row: seq<Token>, n: nat) {
    |row| <= n && (|row| == n || |row| == 1 || n == 1)
  }

  /** 1 where the rows agree, 0 elsewhere. */
  function Matches(a: seq<Token>, b: seq<Token>): (bits: seq<int>)
    requires Comparable(b, |a|)
    ensures |bits| == if b == [] then 0 else |a|
    ensures forall i :: 0 <= i < |bits| ==> bits[i] == if a[i] == b[if |b| == |a| then i else 0] then 1 else 0
  {
    if b == [] then []
    else seq(|a|, i requires 0 <= i < |a| => if a[i] == b[if |b| == |a| then i else 0] then 1 else 0)
  }

  /** How many leading tokens of two rows match. */
  function CountAccepted(sampled: seq<Token>, speculated: seq<Token>): (n: nat)
    requires Comparable(speculated, |sampled|)
    ensures Agreeing(sampled, speculated) == Success(n)
  {
    var row := if |speculated| == 1 then Fillers(speculated[0], |sampled|) else speculated;
    var matches := Matches(sampled, speculated);
    LeadingOnes(matches, if speculated == [] then 0 else CommonPrefix(sampled, row, 0));
    Sum(CumulativeProduct(matches))
  }

  class PardSpeculativeDecoder {
    const draft: LanguageModel
    const pardToken: Token
    const draftSize: nat
    const usePaged: bool
    const kvCache: KvCache
    var numComputed: int
    var totalAccepted: seq<int>

    /**
     `prepare` and `create_draft_kv_cache`: the decoder's state for one run over a prompt row of
     `width` tokens.  The draft gets room for the longest row and two proposals more.
     */
    constructor Prepare(draft: LanguageModel, pardToken: Token, draftSize: nat,
                        width: nat, maxNewTokens: nat, paged: bool)
      ensures this.draft == draft && this.pardToken == pardToken && this.draftSize == draftSize
      ensures usePaged == paged && fresh(kvCache) && numComputed == 0 && totalAccepted == []
      ensures kvCache.contents
              == Cache(maxNewTokens + width + (if paged then draftSize else 0) + draftSize * 2, [], 0)
    {
      this.draft := draft;
      this.pardToken := pardToken;
      this.draftSize := draftSize;
      usePaged := paged;
      var maxSeqLength := maxNewTokens + width;
      var cacheLength := if paged then maxSeqLength + draftSize else maxSeqLength;
      var draftMax := cacheLength + draftSize * 2;
      kvCache := new KvCache(draftMax);
      numComputed := 0;
      totalAccepted := [];
    }

    /** The fillers this decoder appends, as far as they last. */
    function Appended(): (fillers: seq<Token>)
      requires draftSize > 0
    {
      UsedFillers(pardToken, draftSize)
    }

    function PrepareDraftInput(modelInput: seq<Token>): (s: seq<Token>)
      requires draftSize > 0
      ensures s == modelInput + Appended()
    {
      modelInput + First(Fillers(pardToken, FILLER_COUNT), draftSize - 1)
    }

    /** The padding that ends up in the cache: a paged cache gets none. */
    function Masked(pads: seq<Token>): (masked: seq<Token>)
      ensures |masked| == if usePaged then 0 else |pads|
    {
      if usePaged then [] else pads
    }

    /** A prompt and the fillers behind masked padding, at positions 0, 1, ... */
    function PrefillEntries(pads: seq<Token>, prompt: seq<Token>): (input: seq<Entry>)
      requires draftSize > 0
      ensures |input| == |Masked(pads)| + |prompt| + |Appended()|
    {
      var fed := prompt + Appended();
      Zip(Masked(pads) + fed, PaddedPositions(|Masked(pads)|, |fed|))
    }

    /**
     The draft's prefill input: fillers go on at the positions after the last real token, and a
     paged cache gets the padding stripped.  `delta` is how many real positions that adds.
     */
    method PadAwareInput(modelInput: seq<Token>, initialPositions: seq<int>,
                         ghost pads: seq<Token>, ghost prompt: seq<Token>)
      returns (input: seq<Entry>, delta: nat)
      requires draftSize > 0 && prompt != []
      requires modelInput == pads + prompt && initialPositions == PaddedPositions(|pads|, |prompt|)
      ensures input == PrefillEntries(pads, prompt) && delta == |prompt| + |Appended()|
    {
      var pardInput := PrepareDraftInput(modelInput);
      var specCount := |pardInput| - |modelInput|;
      var actualLength := initialPositions[|initialPositions| - 1] + 1;
      var pardPositions := initialPositions + Range(actualLength, specCount);
      delta := actualLength + specCount;
      ghost var fed := prompt + Appended();
      assert pardInput == pads + fed;
      assert pardPositions == PaddedPositions(|pads|, |fed|);
      if usePaged {
        pardInput := Last(pardInput, delta);
        pardPositions := Range(0, delta);
        assert pardInput == fed == [] + fed;
        assert pardPositions == PaddedPositions(0, |fed|);
      }
      input := Zip(pardInput, pardPositions);
    }

    /** First draft call of a run: a row of masked padding followed by the real prompt. */
    method SpeculatePrefill(pads: seq<Token>, prompt: seq<Token>) returns (r: Result<seq<Token>>)
      requires draftSize > 0 && prompt != []
      modifies this, kvCache
      ensures var call := old(kvCache.contents).Call(draft, PrefillEntries(pads, prompt));
              if call.Success? then
                && r == Success(pads + prompt + Last(call.value.0, draftSize))
                && kvCache.contents == call.value.1 && numComputed == old(numComputed) + |prompt| + |Appended()|
              else
                r == Failure(call.error)
      ensures totalAccepted == old(totalAccepted)
    {
      var modelInput := pads + prompt;
      var input, delta := PadAwareInput(modelInput, PaddedPositions(|pads|, |prompt|), pads, prompt);
      var out :- Forward(draft, input, kvCache);
      numComputed := numComputed + delta;
      return Success(modelInput + Last(out, draftSize));
    }

    /** Draft call in the decode loop, over all tokens accepted in the step before. */
    method Speculate(modelInput: seq<Token>) returns (r: Result<seq<Token>>)
      requires draftSize > 0
      modifies this, kvCache
      ensures var fed := modelInput + Appended();
              var call := old(kvCache.contents).Call(draft, AtPositions(fed, old(numComputed)));
              if call.Success? then
                && r == Success(modelInput + Last(call.value.0, draftSize))
                && kvCache.contents == call.value.1 && numComputed == old(numComputed) + |fed|
              else
                r == Failure(call.error)
      ensures totalAccepted == old(totalAccepted)
    {
      var pardInput := PrepareDraftInput(modelInput);
      var pardPositions := Range(numComputed, |pardInput|);
      assert Zip(pardInput, pardPositions) == AtPositions(pardInput, numComputed);
      var out :- Forward(draft, Zip(pardInput, pardPositions), kvCache);
      numComputed := numComputed + |pardInput|;
      return Success(modelInput + Last(out, draftSize));
    }

    /**
     Keeps the proposal's agreeing prefix and one sampled token more, and takes `draftSize - 1`
     entries out of the draft cache again.
     */
    method Verify(sampled: seq<Token>, speculatedInput: seq<Token>) returns (r: Result<Verification>)
      requires draftSize > 0
      modifies this, kvCache
      ensures r.Success? <==> Kept(draftSize, sampled, speculatedInput).Success? && draftSize - 1 <= |old(kvCache.contents).entries|
      ensures r.Failure? ==>
        r.error == if |sampled| < draftSize + 1 then TooFewSamples
                   else if !Comparable(Last(speculatedInput, draftSize), draftSize) then ShapeMismatch else RemoveTooMany
      ensures r.Success? ==>
        var kept := Kept(draftSize, sampled, speculatedInput).value;
        && r.value == Verification(sampled[..kept], draftSize + 1 - kept)
        && totalAccepted == old(totalAccepted) + [kept]
        && numComputed == old(numComputed) - (draftSize - 1)
        && kvCache.contents == old(kvCache.contents).Remove(draftSize - 1).value
      ensures r.Success? && |speculatedInput| >= draftSize ==>
        |r.value.accepted| == CommonPrefix(sampled[..draftSize], Last(speculatedInput, draftSize), 0) + 1
    {
      hide Matches, CumulativeProduct, Sum, CommonPrefix;
      if |sampled| < draftSize + 1 {
        return Failure(TooFewSamples);
      }
      var speculated := Last(speculatedInput, draftSize);
      if !Comparable(speculated, draftSize) {
        return Failure(ShapeMismatch);
      }
      var numAccepted := CountAccepted(sampled[..draftSize], speculated);
      var keep := First(sampled, numAccepted + 1);
      var removeCount := draftSize - |keep|;
      var trim := removeCount + 1;
      var _ :- kvCache.RemoveCache(draftSize - 1);
      numComputed := numComputed - (draftSize - 1);
      totalAccepted := totalAccepted + [|keep|];
      return Success(Verification(keep, trim));
    }

    /** Sum of the accepted counts, and how many steps they come from. */
    function GetStats(): (stats: (int, nat))
      reads this
    {
      (Sum(totalAccepted), |totalAccepted|)
    }
  }
}
