/** Samples handed out one by one or in batches (`pace/utils/inference_dataset.py`). */
module InferenceDatasets {
  import opened Results
  import opened Indexing

  class InferenceDataset<T> {
    const samples: seq<T>
    const total: nat
    var index: nat

    ghost predicate Valid()
      reads this
    {
      total <= |samples| && index <= total
    }

    /** At most `numOfSamples` samples; all of them when it is zero. */
    constructor (samples: seq<T>, numOfSamples: nat)
      requires numOfSamples <= |samples|
      ensures Valid() && this.samples == samples && index == 0
      ensures total == if numOfSamples > 0 then numOfSamples else |samples|
    {
      this.samples := samples;
      total := if numOfSamples > 0 then numOfSamples else |samples|;
      index := 0;
    }

    /** The next sample, until all of them have been handed out. */
    method Next() returns (r: Result<T>)
      requires Valid()
      modifies this`index
      ensures Valid()
      ensures r == if old(index) < total then Success(samples[old(index)]) else Failure(StopIteration)
      ensures index == if old(index) < total then old(index) + 1 else old(index)
    {
      if index >= total {
        return Failure(StopIteration);
      }
      r := Success(samples[index]);
      index := index + 1;
    }

    /** Starts over. */
    method Reset()
      requires Valid()
      modifies this`index
      ensures Valid() && index == 0
    {
      index := 0;
    }

    method GetBatch(batchSize: nat, startIndex: nat) returns (r: Result<seq<T>>)
      requires Valid()
      ensures startIndex >= total ==> r == Failure(IndexOutOfRange)
      ensures startIndex < total ==>
        && r.Success? && |r.value| == Min(startIndex + batchSize, total) - startIndex
        && forall i :: 0 <= i < |r.value| ==> r.value[i] == samples[startIndex + i]
    {
      var endIndex := Min(startIndex + batchSize, total);
      if startIndex >= total {
        return Failure(IndexOutOfRange);
      }
      r := Success(samples[startIndex..endIndex]);
    }
  }

  /** Creating a dataset: asking for more samples than there are is an error. */
  method Load<T>(samples: seq<T>, numOfSamples: nat) returns (r: Result<InferenceDataset<T>>)
    ensures numOfSamples > |samples| ==> r == Failure(IndexOutOfRange)
    ensures numOfSamples <= |samples| ==>
      && r.Success? && fresh(r.value) && r.value.Valid() && r.value.index == 0 && r.value.samples == samples
      && r.value.total == if numOfSamples > 0 then numOfSamples else |samples|
  {
    if numOfSamples > |samples| {
      return Failure(IndexOutOfRange);
    }
    var dataset := new InferenceDataset(samples, numOfSamples);
    r := Success(dataset);
  }

  /** After a reset, taking `n` samples gives the first `n`. */
  method TakeAll<T>(dataset: InferenceDataset<T>) returns (taken: seq<T>)
    requires dataset.Valid()
    modifies dataset`index
    ensures taken == dataset.samples[..dataset.total]
  {
    dataset.Reset();
    taken := [];
    for n := 0 to dataset.total
      invariant dataset.Valid() && dataset.index == n && taken == dataset.samples[..n]
    {
      var r := dataset.Next();
      taken := taken + [r.value];
    }
  }

  // ----- cutting the samples into batches -----

  /** Batches put into the queue: full ones, and one more when samples are left over. */
  function BatchCount(samples: nat, batchSize: nat): nat
    requires batchSize > 0
  {
    samples / batchSize + if samples % batchSize != 0 then 1 else 0
  }

  /** The samples of batch `k`, as `GetBatch(batchSize, k * batchSize)` cuts them. */
  function BatchStart(batchSize: nat, k: nat): nat { k * batchSize }

  function BatchEnd(samples: nat, batchSize: nat, k: nat): nat {
    Min(BatchStart(batchSize, k) + batchSize, samples)
  }

  /** Every queued batch has a sample, so no fetch is out of range; each ends where the next begins. */
  lemma BatchesTile(samples: nat, batchSize: nat, k: nat)
    requires batchSize > 0 && k < BatchCount(samples, batchSize)
    ensures BatchStart(batchSize, k) < BatchEnd(samples, batchSize, k) <= samples
    ensures BatchEnd(samples, batchSize, k)
            == if k + 1 < BatchCount(samples, batchSize) then BatchStart(batchSize, k + 1) else samples
  {
    DivMod(samples, batchSize);
    NextMultiple(k, batchSize);
    MulMonotone(k, samples / batchSize, batchSize);
    if k + 1 < BatchCount(samples, batchSize) {
      MulMonotone(k + 1, samples / batchSize, batchSize);
    } else if k + 1 == samples / batchSize {
      assert samples % batchSize == 0;
    }
  }

  /** Every sample is in exactly one batch. */
  lemma SampleInOneBatch(samples: nat, batchSize: nat, sample: nat, k: nat)
    requires batchSize > 0 && sample < samples && k < BatchCount(samples, batchSize)
    ensures 0 <= sample / batchSize < BatchCount(samples, batchSize)
    ensures BatchStart(batchSize, k) <= sample < BatchEnd(samples, batchSize, k) <==> k == sample / batchSize
  {
    DivMod(sample, batchSize);
    DivMod(samples, batchSize);
    if sample / batchSize > samples / batchSize {
      MulMonotone(samples / batchSize + 1, sample / batchSize, batchSize);
      NextMultiple(samples / batchSize, batchSize);
    }
    BatchesTile(samples, batchSize, k);
    if BatchStart(batchSize, k) <= sample < BatchStart(batchSize, k) + batchSize {
      JoinInjective(k, sample - BatchStart(batchSize, k), sample / batchSize, sample % batchSize, batchSize);
    }
  }
}
