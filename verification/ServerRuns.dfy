/**
 The model executor behind the server under speculative decoding (`pace/server/engine/server.py`):
 requests come and go, every decode step advances all of them, and one exception ends them all.
 */
module ServerRuns {
  import opened Results
  import opened LanguageModels
  import opened Stopping
  import opened GreedyRuns
  import opened SpeculativeRuns
  import opened ServerSequences

  datatype Status = PrefillCompleted | DecodingInProgress | Completed(reason: Reason) | Error

  /** What a step reports for one request. */
  datatype Report = Report(tokens: seq<Token>, status: Status)

  type Queue = map<nat, Sequence>

  // ----- one decode step of the whole queue -----

  /** How many tokens the draft proposes for a request. */
  function Width(q: Sequence): nat
    requires q.s.draftSize > 0
  {
    if q.Draft().Success? then |q.Draft().value.0| else 0
  }

  predicate Servable(queue: Queue) {
    forall id :: id in queue ==> queue[id].s.draftSize > 0
  }

  /** Nothing is raised: the rows of the batch are equally wide, and every request takes its step. */
  ghost predicate AllAdvance(queue: Queue)
    requires Servable(queue)
  {
    && (forall id, id' :: id in queue && id' in queue ==> Width(queue[id]) == Width(queue[id']))
    && forall id :: id in queue ==> queue[id].Advance().Success?
  }

  /** The queue and the results once the requests in `done` are verified; completed ones are gone. */
  function QueueAfter(queue: Queue, done: set<nat>): Queue
    requires Servable(queue) && forall id :: id in done && id in queue ==> queue[id].Advance().Success?
  {
    map id | id in queue && (id in done ==> !queue[id].Advance().value.stopped) ::
      if id in done then queue[id].Advance().value.q else queue[id]
  }

  function ReportOf(r: Stepped): Report {
    Report(r.tokens, if r.stopped then Completed(r.reason) else DecodingInProgress)
  }

  function ReportsAfter(queue: Queue, done: set<nat>): map<nat, Report>
    requires Servable(queue) && forall id :: id in done && id in queue ==> queue[id].Advance().Success?
  {
    map id | id in queue && id in done :: ReportOf(queue[id].Advance().value)
  }

  /** All requests of the queue as failed. */
  function Failed(queue: Queue): map<nat, Report> {
    map id | id in queue :: Report([], Error)
  }

  /** The keys of a dictionary, in some order. */
  method Keys<T>(m: map<nat, T>) returns (keys: seq<nat>)
    ensures forall id :: id in m <==> id in keys
    ensures forall i, j :: 0 <= i < j < |keys| ==> keys[i] != keys[j]
  {
    keys := [];
    var rest := m.Keys;
    while rest != {}
      invariant forall id :: id in m <==> id in keys || id in rest
      invariant forall id :: id in keys ==> id !in rest
      invariant forall i, j :: 0 <= i < j < |keys| ==> keys[i] != keys[j]
      decreases rest
    {
      var id :| id in rest;
      rest := rest - {id};
      keys := keys + [id];
    }
  }

  class ModelExecutor {
    const target: LanguageModel
    const draft: LanguageModel
    const pardToken: Token
    const draftSize: nat
    var decodeQueue: Queue

    constructor (target: LanguageModel, draft: LanguageModel, pardToken: Token, draftSize: nat)
      ensures this.target == target && this.draft == draft && this.pardToken == pardToken && this.draftSize == draftSize
      ensures decodeQueue == map[]
    {
      this.target := target;
      this.draft := draft;
      this.pardToken := pardToken;
      this.draftSize := draftSize;
      decodeQueue := map[];
    }

    function SetupOf(prompt: seq<Token>, maxNew: nat, eos: set<Token>): Setup {
      Setup(target, draft, pardToken, draftSize, prompt, maxNew, eos)
    }

    /** The prompt through both models and the first token; a request that goes on joins the queue. */
    method Prefill(id: nat, prompt: seq<Token>, maxNew: nat, eos: set<Token>, raises: bool) returns (report: Report)
      requires prompt != [] && maxNew > 0
      modifies this
      ensures var r := Prefilled(id, Setup(target, draft, pardToken, draftSize, prompt, maxNew, eos));
              if raises || r.Failure? then report == Report([], Error) && decodeQueue == old(decodeQueue)
              else
                && report == Report(r.value.tokens, if r.value.stopped then Completed(r.value.reason) else PrefillCompleted)
                && decodeQueue == if r.value.stopped then old(decodeQueue) else old(decodeQueue)[id := r.value.q]
    {
      var r := Prefilled(id, SetupOf(prompt, maxNew, eos));
      if raises || r.Failure? {
        return Report([], Error);
      }
      if r.value.stopped {
        return Report(r.value.tokens, Completed(r.value.reason));
      }
      decodeQueue := decodeQueue[id := r.value.q];
      return Report(r.value.tokens, PrefillCompleted);
    }

    method RemoveSequences(ids: set<nat>)
      modifies this
      ensures decodeQueue == old(decodeQueue) - ids
    {
      decodeQueue := decodeQueue - ids;
    }

    /** Phase 1: every request's own draft call. */
    method DraftAll(keys: seq<nat>) returns (r: Result<map<nat, (seq<Token>, Sequence)>>)
      requires Servable(decodeQueue) && forall id :: id in decodeQueue <==> id in keys
      ensures r.Success? <==> forall id :: id in decodeQueue ==> decodeQueue[id].Draft().Success?
      ensures r.Success? ==> r.value == map id | id in decodeQueue :: decodeQueue[id].Draft().value
    {
      hide Sequence.Draft;
      var drafted := map[];
      for i := 0 to |keys|
        invariant forall id :: id in drafted <==> id in keys[..i]
        invariant forall id :: id in drafted ==> decodeQueue[id].Draft() == Success(drafted[id])
      {
        var d :- decodeQueue[keys[i]].Draft();
        drafted := drafted[keys[i] := d];
      }
      return Success(drafted);
    }

    /** Phase 2: one target call over all rows, which have to be equally wide; each row sees its own cache. */
    method SampleAll(keys: seq<nat>, drafted: map<nat, (seq<Token>, Sequence)>)
      returns (r: Result<map<nat, (seq<Token>, Sequence)>>)
      requires forall id :: id in drafted <==> id in keys
      ensures r.Success? <==>
        && (forall id, id' :: id in drafted && id' in drafted ==> |drafted[id].0| == |drafted[id'].0|)
        && forall id :: id in drafted ==> Sampled(drafted[id]).Success?
      ensures r.Success? ==> r.value == map id | id in drafted :: Sampled(drafted[id]).value
    {
      hide Sampled;
      if id, id' :| id in drafted && id' in drafted && |drafted[id].0| != |drafted[id'].0| {
        return Failure(ShapeMismatch);
      }
      var sampled := map[];
      for i := 0 to |keys|
        invariant forall id :: id in sampled <==> id in keys[..i]
        invariant forall id :: id in sampled ==> Sampled(drafted[id]) == Success(sampled[id])
      {
        var s :- Sampled(drafted[keys[i]]);
        sampled := sampled[keys[i] := s];
      }
      return Success(sampled);
    }

    /**
     Phase 3: request by request, verification, rollback, append and the stopping rule.  A request that
     completes leaves the queue at once.
     */
    method VerifyAll(keys: seq<nat>, drafted: map<nat, (seq<Token>, Sequence)>, sampled: map<nat, (seq<Token>, Sequence)>)
      returns (r: Result<map<nat, Report>>)
      requires Servable(decodeQueue) && forall id :: id in decodeQueue <==> id in keys
      requires forall i, j :: 0 <= i < j < |keys| ==> keys[i] != keys[j]
      requires forall id :: id in decodeQueue ==> id in drafted && id in sampled
      requires forall id :: id in decodeQueue ==>
        decodeQueue[id].Draft() == Success(drafted[id]) && Sampled(drafted[id]) == Success(sampled[id])
      modifies this
      ensures r.Success? <==> forall id :: id in old(decodeQueue) ==> old(decodeQueue)[id].Advance().Success?
      ensures r.Success? ==>
        && decodeQueue == QueueAfter(old(decodeQueue), old(decodeQueue).Keys)
        && r.value == ReportsAfter(old(decodeQueue), old(decodeQueue).Keys)
    {
      hide Sequence.Advance, Sequence.Draft, Sampled, Verified, ReportOf;
      ghost var queue, done := decodeQueue, {};
      var results := map[];
      NothingDone(queue);
      for i := 0 to |keys|
        invariant done == Done(keys, i)
        invariant forall id :: id in done ==> queue[id].Advance().Success?
        invariant decodeQueue == QueueAfter(queue, done) && results == ReportsAfter(queue, done)
      {
        var id := keys[i];
        AdvanceIs(queue[id], drafted[id], sampled[id]);
        var stepped :- Verified(drafted[id], sampled[id]);
        OneMore(queue, done, id, stepped);
        DoneNext(keys, i);
        results := results[id := ReportOf(stepped)];
        decodeQueue := if stepped.stopped then decodeQueue - {id} else decodeQueue[id := stepped.q];
        done := done + {id};
      }
      assert done == queue.Keys;
      return Success(results);
    }

    /** One decode step; `raises` stands for an exception out of a model or a cache shared by all requests. */
    method Decode(raises: bool) returns (results: map<nat, Report>)
      requires Servable(decodeQueue)
      modifies this
      ensures var queue := old(decodeQueue);
              if !raises && AllAdvance(queue) then
                decodeQueue == QueueAfter(queue, queue.Keys) && results == ReportsAfter(queue, queue.Keys)
              else
                decodeQueue == map[] && results == Failed(queue)
      ensures results.Keys == old(decodeQueue).Keys
      ensures forall id :: id in results ==>
        var queue := old(decodeQueue);
        if !raises && AllAdvance(queue) then
          var r := queue[id].Advance().value;
          results[id] == Report(r.tokens, if r.stopped then Completed(r.reason) else DecodingInProgress)
        else results[id] == Report([], Error)
    {
      hide Sequence.Advance, Sequence.Draft, AllAdvance;
      var queue := decodeQueue;
      var r := SpeculativeDecode(raises);
      if r.Failure? {
        decodeQueue := map[];
        return Failed(queue);
      }
      return r.value;
    }

    method SpeculativeDecode(raises: bool) returns (r: Result<map<nat, Report>>)
      requires Servable(decodeQueue)
      modifies this
      ensures r.Success? <==> !raises && AllAdvance(old(decodeQueue))
      ensures r.Success? ==>
        && decodeQueue == QueueAfter(old(decodeQueue), old(decodeQueue).Keys)
        && r.value == ReportsAfter(old(decodeQueue), old(decodeQueue).Keys)
    {
      PhasesAdvance(decodeQueue);
      if raises {
        return Failure(NoFreeBlocks);
      }
      var keys := Keys(decodeQueue);
      var drafted :- DraftAll(keys);
      var sampled :- SampleAll(keys, drafted);
      r := VerifyAll(keys, drafted, sampled);
    }
  }

  /** One row of the target call: what it samples after the last token and the proposal. */
  function Sampled(drafted: (seq<Token>, Sequence)): Result<(seq<Token>, Sequence)> {
    drafted.1.Sample(drafted.1.Extended(drafted.0))
  }

  /** Verification of one request, given its draft call and its row of the target call. */
  function Verified(drafted: (seq<Token>, Sequence), sampled: (seq<Token>, Sequence)): Result<Stepped>
    requires sampled.1.s.draftSize > 0
  {
    sampled.1.Verify(sampled.0, drafted.1.Extended(drafted.0))
  }

  lemma AdvanceIs(q: Sequence, drafted: (seq<Token>, Sequence), sampled: (seq<Token>, Sequence))
    requires q.s.draftSize > 0 && q.Draft() == Success(drafted) && Sampled(drafted) == Success(sampled)
    ensures sampled.1.s == q.s && q.Advance() == Verified(drafted, sampled)
  {
  }

  /** A whole step takes place exactly when every phase does. */
  lemma PhasesAdvance(queue: Queue)
    requires Servable(queue)
    ensures AllAdvance(queue) ==> forall id :: id in queue ==> queue[id].Draft().Success?
    ensures AllAdvance(queue) ==> forall id :: id in queue ==> Sampled(queue[id].Draft().value).Success?
  {
  }

  function Done(keys: seq<nat>, i: nat): set<nat>
    requires i <= |keys|
  {
    set id | id in keys[..i]
  }

  lemma DoneNext(keys: seq<nat>, i: nat)
    requires i < |keys|
    ensures Done(keys, i + 1) == Done(keys, i) + {keys[i]}
  {
    assert keys[..i + 1] == keys[..i] + [keys[i]];
  }

  lemma NothingDone(queue: Queue)
    requires Servable(queue)
    ensures QueueAfter(queue, {}) == queue && ReportsAfter(queue, {}) == map[]
  {
  }

  lemma OneMore(queue: Queue, done: set<nat>, id: nat, r: Stepped)
    requires Servable(queue) && forall id :: id in done && id in queue ==> queue[id].Advance().Success?
    requires id in queue && id !in done && queue[id].Advance() == Success(r)
    ensures QueueAfter(queue, done + {id})
            == if r.stopped then QueueAfter(queue, done) - {id} else QueueAfter(queue, done)[id := r.q]
    ensures ReportsAfter(queue, done + {id}) == ReportsAfter(queue, done)[id := ReportOf(r)]
  {
    hide Sequence.Advance, ReportOf;
  }
}
