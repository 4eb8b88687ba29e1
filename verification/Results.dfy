/** Success-or-error results, standing for the exceptions the engine raises. */
module Results {

  /** The exceptions that can leave the modelled operations. */
  datatype Error =
    | NoFreeBlocks        // a cache asked for more room than was reserved for it
    | RemoveTooMany       // "Cannot remove more tokens than available in cache."
    | TooFewSamples       // verification got fewer than draft-size + 1 sampled tokens
    | ShapeMismatch       // comparing token rows of different lengths
    | NothingToPack       // "Cannot pack: all sequences have zero length"
    | HeadsNotDivisible   // "num_q_heads must be divisible by num_kv_heads"
    | BatchMismatch       // "q_offsets and q_lens must match batch size"
    | IndexOutOfRange     // a sample or a batch beyond the end of a dataset
    | StopIteration       // no sample is left

  datatype Option<+T> = None | Some(value: T)

  datatype Result<+T> = Success(value: T) | Failure(error: Error) {
    predicate IsFailure() {
      Failure?
    }

    function PropagateFailure<U>(): Result<U>
      requires Failure?
    {
      Failure(error)
    }

    function Extract(): T
      requires Success?
    {
      value
    }
  }
}
