/** The key/value cache of one sequence, through the operations the generator uses on it. */
module KvCaches {
  import opened Results
  import opened Indexing
  import opened LanguageModels

  /** What a cache holds, the room reserved for it, and the most it ever held at once. */
  datatype Cache = Cache(capacity: nat, entries: seq<Entry>, peak: nat) {

    /** Appends what a forward call computed; fails beyond the reservation. */
    function Update(newEntries: seq<Entry>): (r: Result<Cache>)
      ensures r.Success? <==> |entries| + |newEntries| <= capacity
      ensures r.Failure? ==> r.error == NoFreeBlocks
    {
      var grown := entries + newEntries;
      if |grown| > capacity then Failure(NoFreeBlocks) else Success(Cache(capacity, grown, Max(peak, |grown|)))
    }

    /** Drops the last `count` entries; fails when there are fewer. */
    function Remove(count: nat): (r: Result<Cache>)
      ensures r.Success? <==> count <= |entries|
      ensures r.Failure? ==> r.error == RemoveTooMany
    {
      if count > |entries| then Failure(RemoveTooMany) else Success(this.(entries := entries[..|entries| - count]))
    }

    /** One forward call: the greedy token at every input, and the cache grown by the input. */
    function Call(model: LanguageModel, input: seq<Entry>): (r: Result<(seq<Token>, Cache)>)
      ensures r.Success? <==> |entries| + |input| <= capacity
      ensures r.Failure? ==> r.error == NoFreeBlocks
    {
      var grown :- Update(input);
      Success((Outputs(model, entries, input), grown))
    }
  }

  /** The cache object that forward calls and rollbacks update in place. */
  class KvCache {
    var contents: Cache

    constructor (capacity: nat)
      ensures contents == Cache(capacity, [], 0)
    {
      contents := Cache(capacity, [], 0);
    }

    /** Appends what a forward call computed; beyond the reservation it fails and changes nothing. */
    method Update(newEntries: seq<Entry>) returns (r: Result<()>)
      modifies this
      ensures r.Success? <==> |old(contents).entries| + |newEntries| <= old(contents).capacity
      ensures r.Success? ==>
        && contents.entries == old(contents).entries + newEntries && contents.capacity == old(contents).capacity
        && contents.peak == Max(old(contents).peak, |contents.entries|)
      ensures r.Failure? ==> r.error == NoFreeBlocks && contents == old(contents)
    {
      contents :- contents.Update(newEntries);
      return Success(());
    }

    /** Drops the last `count` entries; fails and changes nothing when there are fewer. */
    method RemoveCache(count: nat) returns (r: Result<()>)
      modifies this
      ensures r.Success? <==> count <= |old(contents).entries|
      ensures r.Success? ==>
        contents == old(contents).(entries := old(contents).entries[..|old(contents).entries| - count])
      ensures r.Failure? ==> r.error == RemoveTooMany && contents == old(contents)
    {
      contents :- contents.Remove(count);
      return Success(());
    }
  }

  /** One forward call: the cache grows by the input, the greedy token at every input comes out. */
  method Forward(model: LanguageModel, input: seq<Entry>, cache: KvCache) returns (r: Result<seq<Token>>)
    modifies cache
    ensures r.Success? <==> |old(cache.contents).entries| + |input| <= old(cache.contents).capacity
    ensures r.Success? ==> Success((r.value, cache.contents)) == old(cache.contents).Call(model, input)
    ensures r.Failure? ==> r.error == NoFreeBlocks && cache.contents == old(cache.contents)
  {
    var out := Outputs(model, cache.contents.entries, input);
    var _ :- cache.Update(input);
    return Success(out);
  }
}
