# Verified models of the inference engine

Dafny models of six parts of the engine and its benchmarks, each with the properties the code is
there for. `dafny verify dfyconfig.toml` checks the whole project.

**Generation** (`LanguageModels`, `KvCaches`, `Stopping`, `GreedyRuns`, `SpeculativeRuns`, `Speculation`,
`SpeculativeGeneration`, `FillerLimits`, `Tensors`, `RaggedBatches`, `BatchGeneration`, `PlainComparison`,
`StopReasons`, `Results`). A language model is an arbitrary function from the cache entries it may attend
to (tokens with the positions they were rotated at) to the token with the largest logit; taking the arg-max
of the logits is part of that function. The draft model is another arbitrary function, so nothing is assumed about how good its
proposals are. A key/value cache holds a sequence of entries; a forward call appends its input, and
the number of masked leading entries follows from the cache length and the last position fed
(`pace/llm/attention/contiguous/backend.py:178-180`). `SpeculativeRuns` says for every proposal size what
a run does, errors included, and the classes of `Speculation` and `SpeculativeGeneration` are proved to do
that. Over whole runs, speculation commits exactly the target's own greedy stream, ends no more than one
proposal after the plain run, and keeps both caches aligned and within what was reserved for them, for
exactly the proposal sizes the decoder's fillers serve. A left-padded batch gives every row its solo run
followed by padding, within the caches reserved for it.

**Serving** (`ServerSequences`, `ServerRuns`, `ServedRequests`). The executor behind the server keeps a
queue of requests, and every speculative decode step advances all of them. Over every history of
requests, decode steps, removals and exceptions, whatever the two models are, each client is told tokens
of the target's own greedy continuation of its prompt and nothing else, never more than its limit; without
removals and exceptions every client is told all of them.

**Decode attention** (`PoolLayout`, `DecodeAttention`, `DecodeState`, `GroupedDecode`,
`DecodeWorkload`, `Exponentials`, `OnlineSoftmax`, `SoftmaxRuns`, `Indexing`, `Reals`). With arithmetic about
which nothing is assumed, both pool layouts, both traversals and both ways of processing the query
heads of a group end in the same state. With exact arithmetic that state is softmax attention. Stored
elements are whole multiples of a unit and scores of the square of that unit times the scaling factor;
the exponential is any function with the laws of one, and the powers of any positive base have those
laws.

**Matrix products and prefill** (`LoopOrders`, `AttentionGemms`, `SplitK`, `PrefillAttention`,
`PrefillValues`, `MaskedSoftmax`, `PrefillTiles`, `CausalPrefill`). The loop orders agree without any algebra, because every cell takes its terms in ascending order; the
tiled products whose inner dimension is split agree with the true product over the integers. The
prefill op writes every output row once, whatever the interleaving of its work items, and with exact
arithmetic its tiles compute causal softmax attention, for exactly the shapes in which no row of values
spills into the next.

**Worker processes** (`WorkerRuns`, `InferenceDatasets`). Processes started one by one under a lock
drain a shared queue; every interleaving of their steps is covered.

**Numeric and selection kernels** (`Bfloat16`, `SamplingFilters`, `RotaryEmbeddings`).

## Where the code falls short

Each of these is proved with the exact condition under which the code does what it is for.

- Speculative and plain generation can report different stop reasons for the same prompt: the length
  limit is asked first, and a speculative step can go past an end-of-sequence token to the limit
  (`ReasonsCanDiffer`). They agree for all models and prompts if and only if at most one token may be
  generated or there are no end-of-sequence tokens (`ReasonsAgree`, `RunsReportPlainReason`).
- Proposals of more than 33 tokens are not served by the 32 prepared fillers, although every positive size
  is accepted (`pace/llm/configs.py:634-638`). A one-token prompt then makes verification raise
  (`OneTokenPromptRaises`, `ThirtyFourRaise`); at 35 a run can also return, without raising anything, a
  token that is not the target's (`WrongTokenCommitted`). All runs are lossless if and only if the size is
  at most 33 (`FillersSuffice`). The documentation calls 1 to 32 typical (`docs/SpeculativeDecoding.md:71`).
- With more than 33 tokens a proposal, the first decode step of the server ends every request of its queue
  with an error; up to 33 it serves every history without one (`ServesAll`).
- The prefill tile kernel zeroes the columns that fill up a row of values in the buffer it copied the
  rows to, and with them the beginning of the next row. The output is causal attention for all values if
  and only if the head dimension is a multiple of 16 or more than 64, or the last key block is full or has
  one token (`KernelIsCausal`, `SecondValueLost`).
- Without an attention mask, a prompt that begins with the padding token loses its leading tokens
  (`DetectionExact`, `LeadingTokenLost`).
- The workers' results must fit the output pipe, because the main process joins the workers before it
  reads any: a run that gets stuck exists if and only if there are more batches than the pipe holds, and
  then every run ends up stuck (`StuckRunsExist`, `HaltedRuns`, `EveryRunHalts`, `SecondResultStuck`).
- Rounding to bfloat16 turns some NaNs into infinities or zeros (`NanKept`, `NansLost`). This concerns the
  function: the benchmark only rounds numbers it draws from [-0.25, 0.25)
  (`benchmarks/cpu/attention_bmm/decode_layout_traversal.cpp:507-516`).
- With longrope, a sequence whose last position equals the original length reads the wrong cache row
  for it (`ReadsOwnRow`, `LastPositionMisread`).

## Model

| member | source | states |
|---|---|---|
| LanguageModels.OutputSeesContext | pace/llm/attention/contiguous/backend.py:178-180 | when a cache lines up with the real tokens, an output depends on those tokens and positions 0, 1, ... alone: neither the padding nor what was rolled back can be seen |
| LanguageModels.TrimShortens | pace/llm/generator.py:696-698 | dropping entries off the end of a lined-up cache leaves it lined up with the shorter context |
| LanguageModels.LastOutputsSee | pace/llm/generator.py:675 | the last outputs of a forward call are the model's choices after ever longer prefixes of the context |
| LanguageModels.PaddedPrefill | pace/llm/generator.py:413-420 | feeding a left-padded row at clamped positions lines the cache up with the real tokens at 0, 1, ... without a gap |
| KvCaches.KvCache.Update | pace/llm/generator.py:294-325 | a cache grows by what was fed or fails beyond its reservation without changing; the peak is kept |
| KvCaches.KvCache.RemoveCache | pace/llm/speculative.py:484 | drops exactly the last entries, or fails when there are fewer, without changing anything |
| Stopping.StoppingCriteria.StopNow | pace/llm/stopping_criteria.py:163-185 | which rows stop, below and above the minimum length, with or without a length limit and stop strings, and the reason recorded |
| Stopping.StoppingCriteria.CheckForConditions | pace/llm/stopping_criteria.py:125-161 | a row stops at the length limit, at a new end-of-sequence token or at a stop string; the reason is that of the first condition any row meets, except that a stop string overrides the limit |
| Tensors.LeadingOnes | pace/llm/speculative.py:474-475 | the sum of running products of zeros and ones is the number of leading ones |
| GreedyRuns.VerifiedStep | pace/llm/speculative.py:471-478 | whatever is proposed, the agreeing prefix and one sampled token are exactly the next tokens of the target's greedy stream, and the target cache keeps all of them but the last |
| GreedyRuns.SpeculativeExtendsPlain | pace/llm/generator.py:717-721 | in the cache-free reference, the single-token run's tokens are a prefix of the speculative run's, which are more by at most the proposal size; both end |
| GreedyRuns.SameEnd | pace/llm/generator.py:782-795 | where a run of single tokens ends does not depend on draft model and proposal size |
| PlainComparison.Compare | pace/llm/generator.py:732-817 | generation with and without speculation, run on the same prompt with any two models: the plain output is a prefix of the speculative one, which is longer by at most the proposal size |
| PlainComparison.PlainRun | pace/llm/generator.py:732-817 | generation without speculation returns the target's own greedy tokens up to the first reason to stop, and that reason |
| GreedyRuns.SpeculativeOvershoots | pace/llm/generator.py:782-795 | from any point before the plain end, the speculative run stops at or after it, by at most the proposal size |
| GreedyRuns.PlainLengthIsFirst | pace/llm/stopping_criteria.py:81-123 | a run of single tokens ends at its first end-of-sequence token or at the length limit, not before |
| Speculation.CountAccepted | pace/llm/speculative.py:473-475 | the number counted by running products is the length of the common prefix |
| SpeculativeRuns.LastOutputsPropose | pace/llm/speculative.py:443-447 | the last outputs of a draft call that ends in fillers are the draft's choices after 0, 1, ... fillers |
| SpeculativeRuns.FirstStepFollows | pace/llm/generator.py:490-547 | the prefill step raises nothing and brings a run onto the reference, for all models, prompts and paddings |
| SpeculativeRuns.NextStepFollows | pace/llm/generator.py:549-730 | every pass of the loop raises nothing and keeps: row, target cache, draft cache followed by the next input, both counters, the accepted counts and the capacity bounds |
| SpeculativeRuns.SettleFollows | pace/llm/generator.py:643-730 | verification and both rollbacks take the caches back to exactly what was committed, and the run stops exactly when the reference does |
| SpeculativeRuns.StopsOnLast | pace/llm/stopping_criteria.py:99-123 | looking at the last tokens of the padded row finds an end-of-sequence token exactly when the step's part of the stream has one |
| SpeculativeRuns.OutcomeFollows | pace/llm/generator.py:732-817 | a whole run raises nothing, ends where the reference ends, returns the prompt and the target's own greedy tokens, counts them all as accepted, and takes as many steps as the reference |
| SpeculativeRuns.FinishSteps | pace/llm/generator.py:782-795 | the accepted counts of a run are the step sizes of the reference, one by one, which the mean of the statistics divides by |
| Speculation.PardSpeculativeDecoder.Prepare | pace/llm/speculative.py:249-314 | an empty draft cache with room for the longest row and two proposals more (three in a paged cache), and no history |
| Speculation.PardSpeculativeDecoder.PadAwareInput | pace/llm/speculative.py:358-420 | the draft's prefill input for every proposal size: as many fillers as there are, at the positions after the last real token, padding stripped for a paged cache, and the number of real positions added |
| Speculation.PardSpeculativeDecoder.SpeculatePrefill | pace/llm/speculative.py:365-448 | the prompt and the last outputs of the draft come back; cache and counter grow by prompt and fillers; it fails exactly when the room does not suffice, and then changes nothing |
| Speculation.PardSpeculativeDecoder.Speculate | pace/llm/speculative.py:391-448 | the same in the decode loop, over all tokens accepted in the step before, at the counter's positions |
| Speculation.PardSpeculativeDecoder.Verify | pace/llm/speculative.py:450-492 | what is kept, how much of the target cache to trim, that exactly the fillers leave the draft cache and the counter, and when it fails |
| FillerLimits.FillersSuffice | pace/llm/speculative.py:358-363 | runs raise nothing and return the target's own stream, for all models, prompts and paddings, if and only if at most 33 tokens are proposed |
| FillerLimits.OneTokenPromptRaises | pace/llm/speculative.py:465-469 | beyond 33 an unpadded one-token prompt makes verification raise, whatever the models |
| FillerLimits.ThirtyFourRaise | pace/llm/speculative.py:465-469 | the smallest such run |
| FillerLimits.WrongTokenCommitted | pace/llm/generator.py:571-572 | a run with 35 tokens a proposal that feeds the target a token its cache already holds and returns a token that is not on the target's stream |
| SpeculativeGeneration.Generator.constructor | pace/llm/generator.py:294-325 | both caches reserved with their headroom, all counters reset: the start of the run its inputs determine |
| SpeculativeGeneration.Generator.PrefillForward | pace/llm/generator.py:490-547 | the draft over prompt and fillers, the target over prompt and proposal, both behind the masked padding; samples, caches, counters and errors are those of the run |
| SpeculativeGeneration.Generator.DecodeForward | pace/llm/generator.py:549-603 | all accepted tokens and the fillers through the draft, the last tokens of input and proposal through the target, at the counters' positions; errors included |
| SpeculativeGeneration.Generator.RollBackTarget | pace/llm/generator.py:696-698 | the target cache and its counter lose exactly the rejected part of the proposal |
| SpeculativeGeneration.Generator.SampleAndPostprocess | pace/llm/generator.py:643-730 | verification, both rollbacks, the append and the stopping rule in their order leave every variable as the run says; errors included |
| SpeculativeGeneration.Generator.DecodeStep | pace/llm/generator.py:782-795 | one pass of the loop is one step of the run, which `NextStepFollows` ties to the reference |
| SpeculativeGeneration.Generator.Generate | pace/llm/generator.py:732-817 | for every proposal size the result is the run's outcome, errors included; up to 33 it raises nothing, ends, returns the prompt and the target's own greedy tokens, counts them all as accepted in exactly the steps of the reference, and never holds more than the longest row plus the proposal size less one |
| StopReasons.ReasonsAgree | pace/llm/stopping_criteria.py:125-161 | speculation never changes the reason, for all models and prompts, if and only if at most one token may be generated or there are no end-of-sequence tokens |
| StopReasons.RunsReportPlainReason | pace/llm/stopping_criteria.py:125-161 | the same of whole runs with their caches and padding |
| StopReasons.ReasonsCanDiffer | pace/llm/stopping_criteria.py:125-161 | a run on which they differ |
| ServerSequences.PrefillFollows | pace/server/engine/server.py:364-507 | the prefill of a request reports the first token of the target's stream, for every proposal size, and leaves both caches lined up |
| ServerSequences.AdvanceFollows | pace/server/engine/server.py:636-798 | one decode step of a request: whatever the draft cache misses is fed again, the next tokens of the target's stream are committed as far as the buffer goes and reported, both caches are rolled back, and the request completes exactly when the stopping rule says so |
| ServerSequences.AppendFollows | pace/server/engine/server.py:741-763 | clamping to the buffer cuts the stream at the limit and nowhere else |
| ServerSequences.FirstStepFails | pace/server/engine/server.py:636-733 | with more than 33 tokens a proposal no request survives its first decode step |
| ServerSequences.ServedExtendsPlain | pace/server/engine/server.py:741-763 | a served request ends with the plain run's tokens and at most a proposal's worth more, but never beyond its limit |
| ServerRuns.ModelExecutor.Prefill | pace/server/engine/server.py:364-507 | the server's target samples the first token and its draft only fills a cache; a request that goes on joins the queue, one that is complete or fails does not; the report has the first token and says which |
| ServerRuns.ModelExecutor.DraftAll | pace/server/engine/server.py:636-666 | phase 1: every request's own draft call, in any order of the queue |
| ServerRuns.ModelExecutor.SampleAll | pace/server/engine/server.py:668-707 | phase 2: every row sees its own cache; rows of different width are an error |
| ServerRuns.ModelExecutor.VerifyAll | pace/server/engine/server.py:709-781 | phase 3: verified one by one, completed requests leave the queue at once and the others stay, whatever the order |
| ServerRuns.ModelExecutor.Decode | pace/server/engine/server.py:625-798 | either every request of the queue takes exactly its own step and is reported with its new tokens as completed or in progress, or all of them are reported as failed and removed |
| ServedRequests.AdvanceIff | pace/server/engine/server.py:625-798 | in every reachable state a decode step raises nothing if and only if the queue is empty or at most 33 tokens are proposed |
| ServedRequests.NextKeeps | pace/server/engine/server.py:364-830 | every prefill, decode step, removal and exception keeps: each client was told a prefix of the stream of the run it was registered with, and each request of the queue is where its client believes it to be |
| ServedRequests.EveryHistory | pace/server/engine/frontend.py:51-181 | so after every history; a completed client has all tokens of its run and the reason that goes with them |
| ServedRequests.EveryRequest | pace/server/engine/server.py:364-830 | after every history, the client of each prefill action holds the server's target's own continuation of that action's prompt, no more tokens than it asked for, and when it is complete exactly as many as the target, the draft and the action's own fields determine, with the reason that goes with that length |
| ServedRequests.ServesAll | pace/server/engine/server.py:625-798 | every history without exceptions from outside is free of errors, for given models, if and only if at most 33 tokens are proposed |
| ServedRequests.QueueDrains | pace/server/engine/server.py:509-525 | after as many decode steps as the largest limit the queue is empty and the client of every request in it has been told that it is complete: none starves or gets lost |
| ServedRequests.EveryRequestCompletes | pace/server/engine/server.py:509-525 | after any history without removals and outside exceptions, and as many decode steps as the largest limit, every client of it has been told all of the tokens due to it, up to 33 tokens a proposal |
| ServedRequests.Serve | pace/server/engine/frontend.py:51-181 | the executor, driven by any sequence of actions, tells every client what `EveryRequest` says, and up to 33 tokens a proposal never an error unless one comes from outside |
| RaggedBatches.PackRagged | pace/llm/generator.py:463-488 | all real tokens end to end with their positions; fails exactly when no row has any |
| RaggedBatches.UnpackRow | pace/llm/generator.py:463-488 | cutting the packed row at the cumulative lengths gives each row's real tokens back, at positions 0, 1, ... |
| RaggedBatches.EndPositionIsLastToken | pace/llm/generator.py:535-538 | cumulative length minus one is the place of a row's last token, exactly when the row has one |
| RaggedBatches.DetectionExact | pace/llm/generator.py:404-411 | padding detected by running products is the real padding of every row if and only if no prompt begins with the padding token |
| RaggedBatches.LeadingTokenLost | pace/llm/generator.py:404-411 | a prompt that loses its first token as padding |
| BatchGeneration.RowStep | pace/llm/generator.py:549-730 | a decode step takes a row one token along its own solo run, or pads it once finished, whatever the other rows hold |
| BatchGeneration.RowPrefill | pace/llm/generator.py:753-779 | the prefill brings every row to the first token of its solo run, which may already end it |
| BatchGeneration.PrefillPadded | pace/llm/generator.py:540-547 | each row's first token is the model's choice after its own prompt, with padding at clamped positions masked |
| BatchGeneration.PrefillPacked | pace/llm/generator.py:516-539 | the same for rows packed without padding and read at their end positions |
| BatchGeneration.BatchGenerator.DecodeStep | pace/llm/generator.py:782-795 | every pass keeps every row where its solo run would be; finished rows never restart; no cache runs out of room before the length limit |
| BatchGeneration.BatchGenerator.RoomForStep | pace/llm/generator.py:297-325 | `max_new_tokens` plus the width of the batch is room enough for every row, padded or packed, at every step |
| BatchGeneration.BatchGenerator.RunToEnd | pace/llm/generator.py:753-795 | the loop goes on exactly as long as the longest solo run |
| BatchGeneration.BatchGenerator.Generate | pace/llm/generator.py:732-817 | every row comes out as padding up to the width, its prompt, the target's own stream as far as a solo run takes it, and padding only; the batch ends with the longest solo run |
| PoolLayout.OffsetThenPlace | benchmarks/cpu/attention_bmm/decode_layout_traversal.cpp:528-542 | every logical place has an index inside the pool, which leads back to the place, in both layouts |
| PoolLayout.PlaceThenOffset | benchmarks/cpu/attention_bmm/decode_layout_traversal.cpp:528-542 | every index of the pool stands for a place, which leads back to the index: the layouts are bijections |
| PoolLayout.FillPools | benchmarks/cpu/attention_bmm/decode_layout_traversal.cpp:512-525 | after the nested loops the two pools agree at every place, each holding the value drawn for it |
| PoolLayout.BlockRange | benchmarks/cpu/attention_bmm/decode_layout_traversal.cpp:659-664 | every block holds at least one token and ends where the next begins, the last at the end of the sequence |
| PoolLayout.BlocksCoverSequence | benchmarks/cpu/attention_bmm/decode_layout_traversal.cpp:497 | the blocks' token counts add up to the sequence length |
| DecodeState.DotProduct | benchmarks/cpu/attention_bmm/decode_layout_traversal.cpp:410-433 | whole chunks, half a chunk and single elements give the dot product of the reference, before any scaling, for rows of any length |
| DecodeState.ScoreBlock | benchmarks/cpu/attention_bmm/decode_layout_traversal.cpp:603-614 | a block's scores and their maximum |
| DecodeState.WeighBlock | benchmarks/cpu/attention_bmm/decode_layout_traversal.cpp:629-644 | whole vectors of 16 weights by the vector exponential, the tokens left over by the scalar one |
| DecodeState.ProcessQueryHeadBlock | benchmarks/cpu/attention_bmm/decode_layout_traversal.cpp:587-650 | one head's maximum, sum and output row take one running-softmax step; every other head is unchanged |
| GroupedDecode.GroupedDotProducts | benchmarks/cpu/attention_bmm/decode_layout_traversal.cpp:679-711 | query tiles, the last possibly smaller, give every query its own dot product |
| GroupedDecode.AccumulateGrouped | benchmarks/cpu/attention_bmm/decode_layout_traversal.cpp:713-755 | tiles of output rows take the weighted values exactly as single rows do |
| GroupedDecode.ProcessHeadsGrouped | benchmarks/cpu/attention_bmm/decode_layout_traversal.cpp:757-857 | scoring by token, then weighing by head, then accumulating by tile is one step of every head of the group |
| DecodeWorkload.RowsAgree | benchmarks/cpu/attention_bmm/decode_layout_traversal.cpp:549-554 | a row reads the same from both pools |
| DecodeWorkload.SequencesApart | benchmarks/cpu/attention_bmm/decode_layout_traversal.cpp:659-660 | two sequences never share a block of the pool |
| DecodeWorkload.GroupElement | benchmarks/cpu/attention_bmm/decode_layout_traversal.cpp:652-677 | the element read for a token of a block of a sequence, by plain indices, in either layout: the blocks of a sequence follow those of the sequences before it |
| DecodeWorkload.ProcessGroupBlock | benchmarks/cpu/attention_bmm/decode_layout_traversal.cpp:652-677 | exactly the heads of the group take in exactly the group's block |
| DecodeWorkload.ProcessGroupBlockGrouped | benchmarks/cpu/attention_bmm/decode_layout_traversal.cpp:757-857 | the same state as one head after the other |
| DecodeWorkload.RunHeadFirst | benchmarks/cpu/attention_bmm/decode_layout_traversal.cpp:865-868 | head by head, every head of a sequence gets all its blocks |
| DecodeWorkload.RunBlockFirst | benchmarks/cpu/attention_bmm/decode_layout_traversal.cpp:869-873 | block by block, the same |
| DecodeWorkload.Run | benchmarks/cpu/attention_bmm/decode_layout_traversal.cpp:859-884 | for every layout, traversal and grouping, and any arithmetic, every head ends in the one state its own blocks lead to |
| Exponentials.PowIsLawful | benchmarks/cpu/attention_bmm/decode_layout_traversal.cpp:616-645 | the powers of any positive base turn sums of scores into products |
| OnlineSoftmax.ScoreIsExact | benchmarks/cpu/attention_bmm/decode_layout_traversal.cpp:410-433 | with exact arithmetic that is the inner product of the whole rows, whatever is left over after the chunks |
| OnlineSoftmax.TopIsLargest | benchmarks/cpu/attention_bmm/decode_layout_traversal.cpp:605-617 | the running maximum is the largest score seen, and minus infinity exactly before the first |
| OnlineSoftmax.RescaleKeepsSums | benchmarks/cpu/attention_bmm/decode_layout_traversal.cpp:617-627 | a larger maximum turns the sums relative to the old maximum into those relative to the new one |
| OnlineSoftmax.StepRepresents | benchmarks/cpu/attention_bmm/decode_layout_traversal.cpp:603-649 | after a block, maximum, sum and output are the maximum, the sum of exponentials relative to it, and that sum weighted with the values, of all tokens so far |
| OnlineSoftmax.NormaliseIsAttention | benchmarks/cpu/attention_bmm/decode_layout_traversal.cpp:876-883 | dividing by the running sum gives softmax attention, in which no maximum occurs; zero for an empty sequence |
| SoftmaxRuns.HeadAfterRepresents | benchmarks/cpu/attention_bmm/decode_layout_traversal.cpp:859-874 | after any number of blocks a head's state is that of the tokens seen, for every block size and sequence length; the tokens are read at plain indices of the block-major pool |
| SoftmaxRuns.RunExactly | benchmarks/cpu/attention_bmm/decode_layout_traversal.cpp:859-884 | every candidate leaves in every head's output softmax attention over the whole sequence: scores and values of token `t` at block `batch * blocks + t / blockSize`, of the key/value head the query head shares, at side 0 and 1 of the pool |
| LoopOrders.GemmIJK | benchmarks/cpu/loop_order/gemm_loop_order.cpp:54-59 | every cell has its terms added in ascending order, everything else is unchanged |
| LoopOrders.GemmIKJ | benchmarks/cpu/loop_order/gemm_loop_order.cpp:61-68 | the same result |
| LoopOrders.GemmJIK | benchmarks/cpu/loop_order/gemm_loop_order.cpp:70-75 | the same result |
| LoopOrders.GemmJKI | benchmarks/cpu/loop_order/gemm_loop_order.cpp:77-84 | the same result |
| LoopOrders.GemmKIJ | benchmarks/cpu/loop_order/gemm_loop_order.cpp:86-93 | the same result |
| LoopOrders.GemmKJI | benchmarks/cpu/loop_order/gemm_loop_order.cpp:95-102 | the same result |
| LoopOrders.ComputedUnique | benchmarks/cpu/loop_order/gemm_loop_order.cpp:54-102 | that result leaves no choice for any cell of the buffer |
| LoopOrders.DenseGemm | benchmarks/cpu/attention_bmm/pv_loop_crossover.cpp:93-123 | the rectangular kernels, and the square ones as a special case: cell `(i, j)` gains `a[i * depth + k] * b[k * columns + j]` in ascending `k` |
| LoopOrders.CompareOrders | benchmarks/cpu/attention_bmm/pv_loop_crossover.cpp:93-123 | two orders started on equal buffers end with equal buffers, without associativity or commutativity |
| LoopOrders.FoldIsProduct | benchmarks/cpu/loop_order/gemm_loop_order.cpp:54-102 | over the integers each cell gains the true matrix product |
| AttentionGemms.CopyToTokenMajor | benchmarks/cpu/attention_bmm/attention_bmm_loop_layout.cpp:632-648 | the token-major pool agrees with the head-major one at every element |
| AttentionGemms.TokenIndexInjective | benchmarks/cpu/attention_bmm/attention_bmm_loop_layout.cpp:639-643 | no two elements share a place in the token-major pool |
| AttentionGemms.TokensIndex | benchmarks/cpu/attention_bmm/attention_bmm_loop_layout.cpp:137-159 | the strided view of a query head's keys or values reads the element of its sequence and of key/value head `head % numQHeads / (numQHeads / numKvHeads)` at its plain index, in both layouts |
| AttentionGemms.LayoutsAgree | benchmarks/cpu/attention_bmm/attention_bmm_loop_layout.cpp:172-199 | a cell's value does not depend on the layout |
| AttentionGemms.CellsArePlain | benchmarks/cpu/attention_bmm/attention_bmm_loop_layout.cpp:201-282 | by plain indices: the cells of query head `batch * numQHeads + g * repetitions + rep` gain, in ascending order, queries times keys or probabilities times values of key/value head `g` of that sequence |
| AttentionGemms.AttentionGemm | benchmarks/cpu/attention_bmm/attention_bmm_loop_layout.cpp:201-282 | every query head's cells get that product, and the product with its own key/value head alone, for both operations, both layouts and all six orders |
| AttentionGemms.KernelsAgree | benchmarks/cpu/attention_bmm/attention_bmm_loop_layout.cpp:201-282 | any two kernels of an operation leave the same output |
| SplitK.CellInjective | benchmarks/cpu/attention_bmm/qk_brgemm_dataflow.cpp:165-177 | no two cells of the tiled output share a place |
| SplitK.CellInside | benchmarks/cpu/attention_bmm/pv_brgemm_dataflow.cpp:225-238 | every tile cell is inside the output |
| SplitK.CellOf | benchmarks/cpu/attention_bmm/pv_brgemm_dataflow.cpp:225-238 | every place of the output is a cell of some tile |
| SplitK.PrepareKeys | benchmarks/cpu/attention_bmm/qk_brgemm_dataflow.cpp:236-250 | every packed tile holds the transposed key rows of its chunk |
| SplitK.PrepareValues | benchmarks/cpu/attention_bmm/pv_brgemm_dataflow.cpp:192-204 | every packed tile holds its part of the value rows |
| SplitK.Brgemm | benchmarks/cpu/attention_bmm/qk_brgemm_dataflow.cpp:284-314 | a tile gains or becomes the product of two tiles; nothing else changes |
| SplitK.RunFullK | benchmarks/cpu/attention_bmm/qk_brgemm_dataflow.cpp:252-259 | overwrites the scores, in tiles of 64 by 64, with the product of row-major queries and keys, element by element at plain indices |
| SplitK.RunIKJ | benchmarks/cpu/attention_bmm/pv_brgemm_dataflow.cpp:206-213 | adds the true product at plain indices, tile row by tile row, for scores and for outputs |
| SplitK.RunKIJ | benchmarks/cpu/attention_bmm/qk_brgemm_dataflow.cpp:272-281 | adds the true product at plain indices, part by part, for scores and for outputs |
| SplitK.PartsAreProduct | benchmarks/cpu/attention_bmm/qk_brgemm_dataflow.cpp:299-314 | the parts of a cell add up to the element of the untiled product |
| SplitK.TraversalsAgree | benchmarks/cpu/attention_bmm/pv_brgemm_dataflow.cpp:206-223 | both chunked traversals leave the same output |
| SplitK.FullKAgrees | benchmarks/cpu/attention_bmm/qk_brgemm_dataflow.cpp:252-281 | chunked into a cleared buffer or all at once over anything, the scores are the same |
| PrefillAttention.BlocksCover | csrc/ops/prefill_attention.cpp:33-37 | key blocks are the sequence rounded up to 16 tokens, or 64 beyond 64 tokens; they cover it with none to spare |
| PrefillAttention.TilesPartition | csrc/ops/attention/bmc/bmc_prefill_avx512.cpp:197-202 | every token is in exactly one query tile of 64 |
| PrefillAttention.Prepare | csrc/ops/prefill_attention.cpp:107-130 | each sequence's metadata from the offset and length passed in, the exact number of work items, and as many block numbers as the longest sequence needs |
| PrefillAttention.ListItems | csrc/ops/prefill_attention.cpp:155-160 | the loops fill exactly the counted places, each with the item of that index |
| PrefillAttention.EveryItemOnce | csrc/ops/prefill_attention.cpp:155-160 | every sequence, key/value head and query tile is listed exactly once |
| PrefillAttention.WritesApart | csrc/ops/prefill_attention.cpp:162-191 | no two row writes, of one item or of two, go to the same row |
| PrefillAttention.RealRowIsWritten | csrc/ops/prefill_attention.cpp:162-191 | every row of a real token is written by some item |
| PrefillAttention.ClearPadding | csrc/ops/prefill_attention.cpp:137-146 | exactly the rows before and behind each sequence are cleared |
| PrefillAttention.RunItems | csrc/ops/prefill_attention.cpp:193-200 | rows written one at a time in any order: all of them end up as expected |
| PrefillAttention.Prefill | csrc/ops/prefill_attention.cpp:41-203 | from any memory contents, every row of a real token is what the tile kernel computes for it and every row of padding is zero, a batch without tokens included; mismatched arguments are rejected |
| PrefillValues.CopyRows | csrc/ops/attention/bmc/bmc_prefill_avx512.cpp:390-404 | rows copied within their own buffer: each row but the first has lost the columns the row before was filled up with |
| PrefillValues.PackValues | csrc/ops/attention/bmc/bmc_prefill_avx512.cpp:368-407 | what the products see of a block of values, part by part: the rows as they are, except for what spills in a block that is not full |
| MaskedSoftmax.RowStepRepresents | csrc/ops/attention/bmc/bmc_prefill_avx512.cpp:307-365 | a block takes the running softmax of a row to the last token the row can see in it, and leaves a row alone that sees none |
| PrefillTiles.MaskRow | csrc/ops/attention/bmc/bmc_prefill_avx512.cpp:258-305 | the causal mask, and that leaving it out for a block every row sees whole changes nothing |
| PrefillTiles.ProcessBlock | csrc/ops/attention/bmc/bmc_prefill_avx512.cpp:253-415 | scores, mask, maximum, rescaling and weights of all rows, then the values: one step of every row of every query head |
| PrefillTiles.PrefillTile | csrc/ops/attention/bmc/bmc_prefill_avx512.cpp:188-441 | block after block until the rest is masked for all rows, every row of the tile becomes softmax attention to exactly the keys up to its own place counted from the end of the sequence, over the values as the products see them; every row is written |
| CausalPrefill.KernelIsCausal | csrc/ops/attention/bmc/bmc_prefill_avx512.cpp:188-441 | that is causal attention over the values in memory, for all values, if and only if none of them can spill |
| CausalPrefill.SecondValueLost | csrc/ops/attention/bmc/bmc_prefill_avx512.cpp:390-404 | two tokens and a head of 8 elements for which it is not |
| CausalPrefill.RowIsPlain | csrc/ops/attention/bmc/bmc_prefill_avx512.cpp:188-441 | where nothing spills, the row of token `t` of query head `h` is softmax attention over exactly the `t + 1` scores `Dot(query, key) * factor` and value rows of key/value head `h / (numQHeads / numKvHeads)`, at plain indices |
| CausalPrefill.LaterTokensDoNotMatter | csrc/ops/attention/bmc/bmc_prefill_avx512.cpp:258-305 | for every shape, keys and values behind a token do not change its row |
| CausalPrefill.Prefill | csrc/ops/prefill_attention.cpp:41-203 | the whole op, row by row of the output at the offsets and lengths passed in: causal softmax attention at plain indices for every real token where nothing spills (a head dimension that is a multiple of 16 or above 64, or a last key block that is full or has one token), what the tiles leave otherwise, and zeros in all padding |
| InferenceDatasets.InferenceDataset.Next | pace/utils/inference_dataset.py:154-159 | hands out the next sample, and the end when there is none |
| InferenceDatasets.InferenceDataset.GetBatch | pace/utils/inference_dataset.py:166-178 | the samples from the start index on, up to the end of the data set; an error beyond it |
| InferenceDatasets.Load | pace/utils/inference_dataset.py:138-148 | asking for more samples than there are is an error; zero asks for all |
| InferenceDatasets.TakeAll | pace/utils/inference_dataset.py:150-159 | iterating gives every sample in order |
| InferenceDatasets.BatchesTile | examples/multi_instance_pace.py:105 | every queued batch is in range and ends where the next begins, the last at the number of samples |
| InferenceDatasets.SampleInOneBatch | examples/multi_instance_pace.py:207-211 | every sample is in exactly one queued batch |
| WorkerRuns.FillQueue | examples/multi_instance_pace.py:207-214 | all batches in order, then one sentinel for every worker |
| WorkerRuns.InitialHolds | examples/multi_instance_pace.py:204-248 | the state the main process sets up satisfies the invariant of all runs |
| WorkerRuns.NextKeeps | pace/utils/worker.py:49-72 | every step of every process keeps the lock protocol and the account of fetched batches, sentinels, results and tokens |
| WorkerRuns.NoLostWakeup | pace/utils/worker.py:56-72 | a worker the main process has notified is never asleep again |
| WorkerRuns.FetchNeverBlocks | examples/multi_instance_pace.py:97-103 | a worker that has had no sentinel finds an item in the queue |
| WorkerRuns.WhenAllEnded | examples/multi_instance_pace.py:253-254 | once all workers are joined the queue is empty and every item was marked as done |
| WorkerRuns.SomeStepEnabled | examples/multi_instance_pace.py:250-258 | as long as the pipe can hold all results, some process can go on until the main process is done |
| WorkerRuns.EveryRun | examples/multi_instance_pace.py:250-269 | every sequence of steps keeps the invariant and is bounded in length |
| WorkerRuns.DoneIsFinished | examples/multi_instance_pace.py:257-269 | at the end each batch was fetched exactly once, each worker took exactly one sentinel, and the tokens counted are those of all samples |
| WorkerRuns.HaltedRuns | examples/multi_instance_pace.py:252-254 | every run that can go no further has finished if and only if the pipe holds one result per batch |
| WorkerRuns.EveryRunHalts | examples/multi_instance_pace.py:250-269 | every run can be continued to one that can go no further |
| WorkerRuns.StuckRunsExist | examples/multi_instance_pace.py:252-254 | from every reachable state, a run that gets stuck exists if and only if there are more batches than the pipe holds |
| WorkerRuns.SecondResultStuck | examples/multi_instance_pace.py:252-254 | the steps of a run in which main process and worker wait for each other |
| WorkerRuns.Run | examples/multi_instance_pace.py:250-269 | under any scheduling the processes finish |
| Bfloat16.RoundTrip | benchmarks/cpu/attention_bmm/decode_layout_traversal.cpp:392-404 | converting up and down again changes no bit pattern |
| Bfloat16.RoundsMagnitude | benchmarks/cpu/attention_bmm/decode_layout_traversal.cpp:392-397 | the addition never wraps for finite and infinite words, and the sign is kept |
| Bfloat16.RoundsToNearestEven | benchmarks/cpu/attention_bmm/decode_layout_traversal.cpp:392-397 | the result is nearest among all bfloat16 numbers, even when two are equally near, and at most half a unit away (IEEE 754-2019, section 4.3.1) |
| Bfloat16.RoundingIsMonotone | benchmarks/cpu/attention_bmm/decode_layout_traversal.cpp:392-397 | a larger magnitude never rounds to a smaller one |
| Bfloat16.InfinityKept | benchmarks/cpu/attention_bmm/decode_layout_traversal.cpp:392-397 | infinities stay infinities |
| Bfloat16.NanKept | benchmarks/cpu/attention_bmm/decode_layout_traversal.cpp:392-397 | exactly which NaNs stay NaNs |
| Bfloat16.NansLost | benchmarks/cpu/attention_bmm/decode_layout_traversal.cpp:392-397 | one that becomes an infinity and two that become zeros |
| SamplingFilters.SumPermuted | pace/llm/sampler.py:89-90 | adding up in sorted order gives the same sum |
| SamplingFilters.ScatterAt | pace/llm/sampler.py:97-100 | scattering along a permutation puts every flag where its index says |
| SamplingFilters.GatherScatter | pace/llm/sampler.py:119-128 | gathering a mask in sorted order and scattering it back gives the mask |
| SamplingFilters.SoftmaxTotal | pace/llm/sampler.py:90 | probabilities add up to one, even when exponentials underflow |
| SamplingFilters.SoftmaxRatio | pace/llm/sampler.py:90 | probabilities relate to each other as the exponentials of the logits do |
| SamplingFilters.LibraryExists | pace/llm/sampler.py:77-131 | what is asked of the tensor library can be met: every row can be sorted either way |
| SamplingFilters.TopKKeeps | pace/llm/sampler.py:78-85 | exactly the first `k` tokens in descending order and those that tie with the last of them are kept |
| SamplingFilters.TopPMass | pace/llm/sampler.py:88-104 | top-p removes a prefix of the ascending order, keeps at least mass `p`, and could not do without its lightest kept token unless only one is left |
| SamplingFilters.MinPKeeps | pace/llm/sampler.py:107-131 | min-p removes exactly the tokens below its share of the largest probability, never the first in descending order |
| SamplingFilters.RemovedKeepsMaximum | pace/llm/sampler.py:77-131 | every filter keeps some token with the largest logit |
| SamplingFilters.PipelineIsStages | pace/llm/sampler.py:38-49 | the three stages in their order: top-k exactly if `topK` is not zero, top-p exactly if it is below one, min-p exactly if it is above zero, each of them masking the tokens `TopKKeeps`, `TopPMass` and `MinPKeeps` describe |
| SamplingFilters.Preprocess | pace/llm/sampler.py:38-49 | the rows between the stages exist, each stage runs exactly if it is configured, min-p masks what is below `minP` times the largest probability; each logit is kept or masked and the largest logit is still there |
| SamplingFilters.MaximumSurvives | pace/llm/sampler.py:235-247 | a token with the largest logit survives the pipeline, and only such a token can have the largest logit afterwards |
| RotaryEmbeddings.LongropeIsNeox | pace/ops/rotary_embedding.py:508-518 | the longrope branch is the neox branch when the whole head is rotated |
| RotaryEmbeddings.LongropeIsPartial | pace/ops/rotary_embedding.py:508-518 | otherwise it is the neox branch on the first part, and the rest passes through |
| RotaryEmbeddings.DeinterleaveInterleave | pace/ops/rotary_embedding.py:522-531 | the two permutations undo each other |
| RotaryEmbeddings.InterleavedIsNeox | pace/ops/rotary_embedding.py:519-531 | the interleaved branch is the neox branch between the two permutations |
| RotaryEmbeddings.InterleavedAt | pace/ops/rotary_embedding.py:519-531 | both elements of an interleaved pair: the pair turned by the angle of its column |
| RotaryEmbeddings.NormScales | pace/ops/rotary_embedding.py:99-103 | in the neox branch a cache row scales squared norms by the square of the scaling factor, so it keeps them when that is one |
| RotaryEmbeddings.InterleavedNormScales | pace/ops/rotary_embedding.py:519-531 | the same in the interleaved branch |
| RotaryEmbeddings.LongropeNormScales | pace/ops/rotary_embedding.py:508-518 | in the longrope branch the squared norm of the rotated part is scaled and that of the rest kept; the norm of the head is kept exactly when the squared factor is one or the first part is zero |
| RotaryEmbeddings.OnlyDistanceMatters | pace/ops/rotary_embedding.py:99-103 | in the neox branch the dot product of a rotated query and a rotated key depends only on the distance of their positions, for every scaling factor |
| RotaryEmbeddings.InterleavedOnlyDistanceMatters | pace/ops/rotary_embedding.py:519-531 | the same in the interleaved branch |
| RotaryEmbeddings.LongropeOnlyDistanceMatters | pace/ops/rotary_embedding.py:508-518 | the same in the longrope branch, with part of the head rotated |
| RotaryEmbeddings.ReadsOwnRow | pace/ops/rotary_embedding.py:473-480 | a position reads the cache row of its own angle, except exactly position `original` of a sequence that goes no further |
| RotaryEmbeddings.LastPositionMisread | pace/ops/rotary_embedding.py:473-480 | a sequence on which that happens |

## Left out

- SpeculativeGeneration.Generator.Generate: prompts with at least one real token, a length limit of at least one, greedy sampling without penalties, minimum length or stop strings.
- Stopping.StoppingCriteria.StopNow: which rows contain a stop string is a parameter.
- Penalties, temperature, `min_new_tokens`, random sampling, probabilities, text streaming, and clean-up after a run.
- KvCaches.KvCache.Update: a contiguous cache grows beyond its reservation instead of failing; here every cache fails, so that staying within the reservation is proved for both kinds.
- KvCaches.KvCache.RemoveCache: a contiguous cache that was never filled ignores the call; here it fails.
- ServerSequences.Prefilled: one reservation for every request; pools shared between requests, and what they raise when exhausted, are the `raises` of an action. Requests are greedy, with at least one token of prompt and a limit of at least one, without minimum length or stop strings.
- ServerRuns.ModelExecutor.VerifyAll: requests are values that replace each other in the queue, and an exception is raised before or after the verifications, not between two of them; either way all requests of the queue are reported as failed and removed.
- ServedRequests.Perform: HTTP, the validation of request bodies and identifiers, and the non-speculative decode step of the server.
- Block granularity of paged caches and where caches live in memory: a reservation counts tokens.
- A batch's attention kernels: that a row's logits depend only on its own visible entries is how a model is defined here.
- Rows are values in the batch model; updating the stacked tensors in place is not modelled.
- Vector registers and scratch buffers of the decode kernels: a chunk of 32 elements is one abstract lane operation, accumulation is element by element, and scratch buffers are sequences. Whole workloads are covered for head sizes that are multiples of 32; the benchmark accepts 64, 128 and 256 only.
- Rounding in the attention kernels and the polynomial that approximates the exponential.
- SplitK.Brgemm: operands and results are integers, and the packed operand is stored row by row; the hardware's pairwise interleaving of packed rows is not modelled.
- PrefillAttention.Prefill: the tile kernel is a parameter, which `CausalPrefill.Prefill` fills in; the checks of tensor ranks and types are left out.
- PrefillTiles.PrefillTile: exact arithmetic, as for the decode kernels; packing of keys, rows and columns that only fill up a product, and the buffers kept from one call to the next are left out.
- WorkerRuns.Run: creating processes, core binding, the throughput figure (which divides by zero when there are no samples), and the feeder of the input queue are not modelled; the pipe's capacity counts results, not bytes.
- The loops of the worker and main processes are steps of a state machine rather than loops, because their interleaving is the point; a wait gives up the lock and falls asleep in one step.
- InferenceDatasets.InferenceDataset.GetBatch: padding of token rows and labels is left out.
- SamplingFilters.TopPMass: one row of logits; for stacked candidates the code scatters along the candidate axis, which is not modelled.
- Cosine and sine caches other than powers of an angle: the frequencies of the rope variants are arbitrary angles here.
- Graph passes, the block pool and cache manager classes, the quantised linear layers, the router, the launcher, backend selection and everything that measures time.
