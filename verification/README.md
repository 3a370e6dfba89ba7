# CudaForge host runtime, verified in Dafny

A model of the parts of CudaForge that decide what a serving process does: speculative
decoding, the step-wise runner with its shared left-padded cache, the paged KV cache
manager, the continuous scheduler over it, the bounded queue and the batcher thread, the
futures two engines hand out, two latency histograms and block-wise int8 quantisation.
`dafny verify dfyconfig.toml` checks all of it.

What is proved, in short:

- **Speculative decoding** (`Chance`, `Speculative`, `SpeculativeSampling`,
  `SpeculativeCounts`). `generate` is an imperative method with both caches and all counters.
  Greedy output is the target's own for every draft and lookahead. A sampled run is a walk
  through a decision tree, and under that tree every string has exactly the target's chain-rule
  probability. How many target calls a run takes is known from the models and the tape, with
  its best and worst case.
- **Step-wise runner** (`PaddedCache`, `StepwiseRunner`, `Serving`). In any interleaving of
  prefills, steps and evictions each row sees its own prompt and tokens at positions 0, 1, ...,
  so with a model that sees only unmasked entries a sequence's greedy output is its solo
  output, under every schedule; how far it gets is a function of the schedule alone.
- **Paged cache** (`BlockTables`, `KvCache`, `KvCacheTheorems`). Exact admission, minimal
  eviction under both policies, no aliasing, no lost block, no moved token. The contracts are
  deterministic and hold of the Python and the C++ manager alike.
- **Continuous scheduler** (`SchedulerQueue`, `SchedulerBooks`, `SchedulerPaging`,
  `SchedulerGrowth`, `SchedulerOldest`, `SchedulerEntries`, `EchoRunner`, `Continuous`,
  `StaticBatching`). At each
  loop top the cache holds exactly what the running set accounts for; every request that
  arrives is settled once, and rejected only if larger than the pool; the thread terminates
  once its sentinel is on the way; work is conserved, and without a cache a turn leaves a
  request waiting only beside a step that is at least half full.
- **Concurrency** (`ConcurrentQueue`, `QueueHistory`, `Futures`, `FutureCalls`,
  `DynamicBatcher`). Queue and futures are state machines of atomic steps: the class methods are
  the steps, proved equal to a step function, and the lemmas are about every run of that
  function, down to what each call tells its caller. The batcher's queue is what one consumer
  sees of such a run.
- **Measurement and quantisation** (`OrderStatistics`, `LatencyHistogram`,
  `SlidingHistogram`, `Int8`).

Where the code and its own remarks disagree the model follows the code:

- `speculative.py:235-239` says the caches may describe more history than the context after
  the last block. They never do: `RollBack` leaves each cache a prefix of the context.
- `_admit` counts each admission twice, in the running set and in its own list
  (`continuous.py:232`, `continuous.py:349-350`). A pass with requests to spare and blocks for them
  fills half the free rows, rounded up (`PassFillsHalf`), so it fills them all exactly when at
  most one is free (`RefilledInOnePass`, `FourWaitTwoEnter`).
- A refused `admit` leaves an empty table behind (`kv_cache.py:370-372`) and the scheduler
  retries under a fresh id, so known sequences can outnumber running ones; no block leaks.
- Newest first evicts the oldest last in each call on the manager, not over a whole pass of
  `_reserve_step` (`continuous.py:295-302`). Once the newest has been evicted for the first
  sequence, the first is the newest holder the second can evict (`OldestLost`, `CrowdGrows`);
  the sequence evicted first is still extended at the end, with the blocks so freed. The oldest
  is lost exactly under the condition `OldestGoes`, which takes at most three sequences
  (`OldestLostExactly`, `FourSpareTheOldest`); a pass loses nobody exactly when all it asks for
  is free before it starts (`PassLosesNobody`).
- A state admitted and evicted within one `_admit` is still prefilled (`continuous.py:279`), and
  its row stays. Under either policy a holder is evicted for a newcomer exactly when what is
  free and what goes before it is too little (`NewcomerEvicts`, `NewcomerDisplaces`,
  `TwoNewcomers`). While it never happens to anybody admitted in the same pass the runner's rows
  are the running set (`RowsAgree`).
- The C++ percentile rank is a floor of at least one, not the ceiling its remark names
  (`RankIsCeiling`), and values of 2^43 and above are understated (`CeilingIsExact`,
  `CeilingUnderstated`).
- `_execute` reads the clock twice; a request can be counted expired and completed, although
  its future is set once (`CalledTwice`, `ToldTwice`, `SetAtMostOnce`).
- `estimate_tokens` may return zero, and then `admit` makes no table and the next `extend`
  raises (`AdmitZero`), which ends the scheduler thread (`Run`).

## Model

| member | source | states |
|---|---|---|
| Chance.PickIsInverseCdf | python/cudaforge/speculative.py:302-302 | `torch.multinomial` on a uniform draw `u` picks `x` exactly when `u` falls between the cumulative weights around `x`; so a tree of draws describes a run on a tape |
| Chance.PickInRange | python/cudaforge/speculative.py:345-345 | the token drawn is in the vocabulary and has positive weight |
| Chance.DotAffine | python/cudaforge/speculative.py:332-345 | averaging against a distribution commutes with an affine map, the step that lets judging a proposal be averaged over later draws |
| Speculative.Residual | python/cudaforge/speculative.py:338-338 | an entry of the residual and the smaller of the two probabilities add up to what the target wanted; none is negative |
| Speculative.RejectionLeavesResidual | python/cudaforge/speculative.py:339-345 | a proposal that can be rejected leaves a residual of positive mass: the assertion at line 344 never fails, and the residual normalises to a distribution |
| Speculative.Rng.Multinomial | python/cudaforge/speculative.py:302-302 | one uniform number is used, and the token is the inverse-CDF choice with positive weight |
| Speculative.ModelCache.Crop | python/cudaforge/speculative.py:262-271 | a crop drops exactly the tokens counted from the end; zero is never passed |
| Speculative.SpeculativeDecoder.Forward | python/cudaforge/speculative.py:222-223 | a pass predicts after every input token from everything ingested, and ingests the input |
| Speculative.SpeculativeDecoder.Crop | python/cudaforge/speculative.py:262-271 | a cache of `current` tokens is rolled back to its first `wanted`; the no-op makes no call |
| Speculative.SpeculativeDecoder.DraftToken | python/cudaforge/speculative.py:288-306 | one draft call: the draft reads what it has not read, and proposes its argmax or a draw from its own distribution |
| Speculative.SpeculativeDecoder.Propose | python/cudaforge/speculative.py:273-308 | `span` proposals, each the draft's own choice after the ones before it; the cache then holds the context and all proposals but the last |
| Speculative.SpeculativeDecoder.Verify | python/cudaforge/speculative.py:310-353 | greedy: the longest prefix of proposals the target agrees with, then the target's own token; sampling: exactly the branch of the decision tree the tape selects |
| Speculative.SpeculativeDecoder.TargetPass | python/cudaforge/speculative.py:219-228 | the last `span + 1` rows of the block are the target's predictions after each prefix of the proposals, however much was still pending |
| Speculative.SpeculativeDecoder.Speculate | python/cudaforge/speculative.py:203-233 | one block advances the run as the reference does, with one target call and `span` draft calls |
| Speculative.SpeculativeDecoder.RollBack | python/cudaforge/speculative.py:244-252 | after a block each cache equals the prefix of the context that its counter names, which the remark at lines 235-239 denies for the last block |
| Speculative.SpeculativeDecoder.Generate | python/cudaforge/speculative.py:167-255 | exactly the budget of tokens; greedy output is the target's own continuation for every draft and lookahead; sampled output is where the tape leads in the decision tree; target calls, proposals and accepted proposals are each what the blocks of that run come to, counted from the models, the prompt, the budget and the tape alone |
| Speculative.BlockSettled | python/cudaforge/speculative.py:235-242 | a block's settled tokens extend the context and clipping bites only on the last block |
| Speculative.VerdictAligned | python/cudaforge/speculative.py:226-228 | the row slice lines up with the proposals |
| Speculative.GreedyBlock | python/cudaforge/speculative.py:320-350 | accepted proposals and the replacement are the target's own greedy tokens |
| SpeculativeCounts.KeptAndOne | python/cudaforge/speculative.py:219-242 | over a run the proposals kept and one token a target call are the budget, or one more when the last block is clipped |
| SpeculativeCounts.FewestCalls | python/cudaforge/speculative.py:87-92 | whatever the draft, a run takes at least ceil(budget / (lookahead + 1)) target calls |
| SpeculativeCounts.TwinDraft | python/cudaforge/speculative.py:219-233 | with a draft that is the target, greedy or sampled, every proposal is kept and the target is called exactly ceil(budget / (lookahead + 1)) times |
| SpeculativeCounts.ContraryDraft | python/cudaforge/speculative.py:320-328 | greedy, with a draft that always disagrees, nothing is kept and the target is called once for every token |
| SpeculativeCounts.PredictionIsMean | python/cudaforge/speculative.py:125-149 | the closed form is the mean number of tokens of a block whose every proposal is kept with one probability, for each probability, one included; other arguments are refused |
| SpeculativeCounts.MeanSaturates | python/cudaforge/speculative.py:128-137 | one proposal more adds the probability that all so far are kept, and no lookahead reaches one over the probability of a rejection |
| SpeculativeCounts.EvenOdds | python/cudaforge/speculative.py:135-137 | at even odds and a lookahead of four the prediction is 1.9375 |
| SpeculativeSampling.AcceptOrResidual | python/cudaforge/speculative.py:330-345 | accept with probability min(1, p/q), else draw from the residual: together exactly the target's distribution |
| SpeculativeSampling.ProposalIsFree | python/cudaforge/speculative.py:288-306 | a proposal not yet judged does not change the expected outcome of a block |
| SpeculativeSampling.ProposeIsLossless | python/cudaforge/speculative.py:273-308 | averaged over the draft's draws, a block is worth what target decoding is worth |
| SpeculativeSampling.VerifyIsLossless | python/cudaforge/speculative.py:310-353 | the same from the middle of verification |
| SpeculativeSampling.SettleIsLossless | python/cudaforge/speculative.py:347-353 | the same for the last token of a block, clipped to the budget |
| SpeculativeSampling.SamplingIsLossless | python/cudaforge/speculative.py:198-255 | over whole runs, every observation of the output has the same expectation under speculative and under target sampling |
| SpeculativeSampling.TargetChainRule | python/cudaforge/speculative.py:13-30 | the reference itself: target sampling produces a string with its chain-rule probability |
| SpeculativeSampling.SpeculativeChainRule | python/cudaforge/speculative.py:13-30 | for every draft, target, lookahead, prompt and string, speculative sampling produces the string with the target's chain-rule probability |
| SpeculativeSampling.DraftIsImmaterial | python/cudaforge/speculative.py:151-164 | two decoders with one target and any drafts and lookaheads have the same output distribution |
| PaddedCache.CountIsVisible | python/cudaforge/stepwise_transformers.py:263-270 | the cumulative count of a mask is the number of entries it leaves visible |
| PaddedCache.LeftPadInvisible | python/cudaforge/stepwise_transformers.py:153-161 | padding on the left with a zero mask leaves what a row can see unchanged |
| PaddedCache.VisibleAppend | python/cudaforge/stepwise_transformers.py:288-296 | one more unmasked column is seen last, at the position the mask implies |
| PaddedCache.PaddedPrompt | python/cudaforge/stepwise_transformers.py:231-244 | a left-padded prompt is read at positions 0, 1, ... exactly as it would be alone |
| PaddedCache.RowDecoded | python/cudaforge/stepwise_transformers.py:288-298 | a row that holds its prompt and all tokens but the last computes, in a step, what its sequence alone would compute, and holds one token more |
| PaddedCache.RowPrefilled | python/cudaforge/stepwise_transformers.py:238-244 | a prefilled row holds its prompt, with the first token still to be read |
| StepwiseRunner.BatchPrefilled | python/cudaforge/stepwise_transformers.py:226-260 | every row of a padded batch of prompts is read as its prompt alone would be, and prompt lengths exclude padding |
| StepwiseRunner.BatchMerged | python/cudaforge/stepwise_transformers.py:163-201 | joining rows of different widths, each side padded to the longer, keeps what every row holds |
| StepwiseRunner.BatchDecoded | python/cudaforge/stepwise_transformers.py:288-304 | one forward pass over the shared cache moves every row as its sequence alone would move |
| StepwiseRunner.BatchKept | python/cudaforge/stepwise_transformers.py:203-221 | keeping some rows, in order, keeps what they hold |
| StepwiseRunner.TransformersStepwiseRunner.KeepRows | python/cudaforge/stepwise_transformers.py:203-221 | rows, cache, mask and last tokens are narrowed together and stay faithful |
| StepwiseRunner.TransformersStepwiseRunner.Record | python/cudaforge/stepwise_transformers.py:306-315 | each sequence gets its own next solo token; an end marker finishes it without a token |
| StepwiseRunner.TransformersStepwiseRunner.MergeCache | python/cudaforge/stepwise_transformers.py:163-201 | the cache and mask become the two batches, each left-padded to the common length |
| StepwiseRunner.TransformersStepwiseRunner.Prefill | python/cudaforge/stepwise_transformers.py:225-260 | new rows come after the old ones, each with its solo first token; old rows are untouched |
| StepwiseRunner.TransformersStepwiseRunner.ReadPrompts | python/cudaforge/stepwise_transformers.py:231-244 | one padded pass over the prompts yields rows that hold them and their first tokens |
| StepwiseRunner.TransformersStepwiseRunner.NoteLengths | python/cudaforge/stepwise_transformers.py:249-251 | prompt lengths come from the mask |
| StepwiseRunner.TransformersStepwiseRunner.Enter | python/cudaforge/stepwise_transformers.py:246-260 | after the merge and the first tokens, every row again holds what its state says |
| StepwiseRunner.TransformersStepwiseRunner.Advance | python/cudaforge/stepwise_transformers.py:288-304 | one pass and one token for every row, each the solo next token of its sequence |
| StepwiseRunner.TransformersStepwiseRunner.StepTensors | python/cudaforge/stepwise_transformers.py:288-303 | the mask grows by a column, the model runs at the positions it implies, and the cache is the model's |
| StepwiseRunner.TransformersStepwiseRunner.Narrow | python/cudaforge/stepwise_transformers.py:279-286 | rows nobody asked for are dropped, the others keep their owners |
| StepwiseRunner.TransformersStepwiseRunner.DecodeStep | python/cudaforge/stepwise_transformers.py:272-304 | every unfinished sequence that has a row advances by its solo next token, whatever else is in the batch; finished ones and those without a row are unchanged |
| StepwiseRunner.TransformersStepwiseRunner.Evict | python/cudaforge/stepwise_transformers.py:317-321 | the one row goes, every other row stays faithful |
| StepwiseRunner.FinishedIsSolo | python/cudaforge/stepwise_transformers.py:306-315 | a finished sequence returns exactly its solo output: up to the end marker or the budget |
| StepwiseRunner.BatchMatesAreImmaterial | python/cudaforge/stepwise_transformers.py:97-108 | equal prompts and budgets give equal outputs, whichever rows came and went beside them |
| Serving.Session.Enter | python/cudaforge/stepwise_transformers.py:226-260 | new sequences come in beside whoever is there, each with one token and a row, and everybody stays as its solo run would have it |
| Serving.Session.Advance | python/cudaforge/stepwise_transformers.py:272-312 | of the sequences a scheduler lists, those unfinished and with a row take their solo next token and keep the row; if there is any, everybody else loses its row, and nobody else takes a token |
| Serving.Session.Leave | python/cudaforge/stepwise_transformers.py:317-321 | the one row is gone; no sequence and no other row changes |
| Serving.Session.Obey | python/cudaforge/stepwise_transformers.py:226-322 | one order does to every sequence what it says: tokens and rows after it are a function of those before |
| Serving.Session.Serve | python/cudaforge/stepwise_transformers.py:226-322 | for every script of prefills, steps and evictions, in any order and of whomever, there is a sequence for each request; how many tokens each has is what the script gives it and those tokens are a prefix of its solo run, so each that finishes has exactly its solo output |
| Serving.Favoured | python/cudaforge/stepwise_transformers.py:272-312 | a sequence listed in every step and never told to leave takes a token in each of them until it is finished, whoever else is listed, enters or leaves |
| Serving.FavouredFinishes | python/cudaforge/stepwise_transformers.py:272-312 | so it is finished after as many steps as its budget leaves |
| Serving.ThreeTokens | python/cudaforge/stepwise_transformers.py:272-312 | a budget of three and no end marker: one token on entry, unfinished after one step, finished with three after two |
| KvCache.BlockAllocator.constructor | python/cudaforge/kv_cache.py:71-81 | every block is free, once, with no referent |
| KvCache.BlockAllocator.Allocate | python/cudaforge/kv_cache.py:103-113 | the last free block with one referent, or nothing when there is none |
| KvCache.BlockAllocator.Release | python/cudaforge/kv_cache.py:118-123 | one referent fewer; the block is free again with its last; releasing a free block does nothing |
| KvCache.BlockAllocator.CheckedRelease | cpp/src/kv_cache.cpp:48-61 | an unknown block and a double free are reported and change nothing; any other release drops one referent |
| KvCache.BlockAllocator.AddReference | cpp/src/kv_cache.cpp:37-46 | sharing an unknown or a free block is refused; otherwise one referent more |
| KvCache.BlockAllocator.ReleaseAll | python/cudaforge/kv_cache.py:289-297 | a table's blocks go back in order, and no release among them is a double free |
| KvCache.SequenceBlockTable.AddTokens | python/cudaforge/kv_cache.py:164-170 | tokens are added exactly when the blocks held have room |
| KvCache.SequenceBlockTable.Locate | cpp/src/kv_cache.cpp:109-116 | for a token held, a block of the table and an offset in it with exactly the earlier blocks, full, and the earlier offsets before them; an error past the end |
| KvCache.KVCacheManager.constructor | python/cudaforge/kv_cache.py:186-199 | an empty manager over a whole pool |
| KvCache.KVCacheManager.ChooseVictim | python/cudaforge/kv_cache.py:312-335 | newest-first: the last admitted other sequence that holds blocks; largest-first: the earliest admitted among those that hold most; none exactly when no other holds a block |
| KvCache.KVCacheManager.ReclaimableBlocks | python/cudaforge/kv_cache.py:337-340 | the blocks held by all other sequences |
| KvCache.KVCacheManager.Empty | python/cudaforge/kv_cache.py:275-287 | one sequence's blocks return to the pool and its table starts over; nobody else changes |
| KvCache.KVCacheManager.EvictUntil | python/cudaforge/kv_cache.py:342-363 | all or nothing: nobody is evicted when evicting everybody would not do; otherwise enough is free and the last eviction was still needed; it terminates and never lacks a victim |
| KvCache.KVCacheManager.TakeBlocks | python/cudaforge/kv_cache.py:392-396 | the allocation that "cannot fail" does not: the table gets the blocks taken from the free list, in order |
| KvCache.KVCacheManager.Grow | python/cudaforge/kv_cache.py:388-398 | the requester grows in place by exactly the tokens asked for |
| KvCache.KVCacheManager.Register | python/cudaforge/kv_cache.py:370-373 | an unknown sequence becomes known with an empty table, last in admission order |
| KvCache.KVCacheManager.ReserveKnown | python/cudaforge/kv_cache.py:374-398 | the whole reservation for a known sequence, refusal and grant alike, as one relation between the states before and after |
| KvCache.KVCacheManager.Reserve | python/cudaforge/kv_cache.py:365-398 | zero tokens do nothing; an unknown sequence is an error unless admitted, and a refused admission leaves it known with an empty table |
| KvCache.KVCacheManager.Admit | python/cudaforge/kv_cache.py:261-263 | admission of a sequence, new or known |
| KvCache.KVCacheManager.Extend | python/cudaforge/kv_cache.py:265-273 | growth of a known sequence; an unknown one is an error that changes nothing |
| KvCache.KVCacheManager.Preempt | python/cudaforge/kv_cache.py:275-287 | a sequence loses its blocks and stays known; the counters say what must be recomputed |
| KvCache.KVCacheManager.Release | python/cudaforge/kv_cache.py:289-297 | a sequence is forgotten and its blocks are free; an unknown one is ignored |
| KvCache.KVCacheManager.Locate | python/cudaforge/kv_cache.py:252-257 | the same for any sequence, for exactly the tokens it holds |
| BlockTables.AdditionalIsExact | python/cudaforge/kv_cache.py:301-310 | the blocks asked for bring a table to exactly ceil(tokens / block size) |
| BlockTables.SlotsDiffer | python/cudaforge/kv_cache.py:134-176 | no block is in two slots of the tables |
| BlockTables.PlacesDiffer | python/cudaforge/kv_cache.py:172-176 | tokens in one place are the same token of the same sequence |
| BlockTables.PlacesFollow | python/cudaforge/kv_cache.py:172-176 | the first token is at offset 0 of the first block; each other one is at the next offset of the block of the token before it, or at offset 0 of the next block when that one was full |
| BlockTables.PlaceStable | python/cudaforge/kv_cache.py:161-176 | a table that keeps its blocks and grows keeps every token in place |
| BlockTables.LargestIsFewest | cpp/src/kv_cache_manager.cpp:49-66 | victims in largest-first order that are just enough are the fewest any choice needs |
| BlockTables.NewestIsShortestSuffix | cpp/src/kv_cache_manager.cpp:33-47 | victims in newest-first order that are just enough are the shortest sufficient suffix of admission order |
| KvCacheTheorems.AdmissionIsExact | python/cudaforge/kv_cache.py:365-398 | granted if and only if ceil((held + asked) / block size) fits the pool; a grant grows the requester by the ask and empties exactly the listed victims, never the requester; it reports others preempted if and only if there are victims, and bills one preemption and all the tokens held for each; a refusal changes no table, counter or free block |
| KvCacheTheorems.TokensNeverMove | cpp/src/kv_cache_manager.cpp:117-161 | through any reservation a sequence that was not evicted has every token where it was |
| KvCacheTheorems.LargestEvictsFewest | cpp/src/kv_cache_manager.cpp:29-115 | largest-first disturbs no more sequences than any set of victims that would do |
| KvCacheTheorems.NewestEvictsShortestSuffix | python/cudaforge/kv_cache.py:312-363 | newest-first evicts exactly the shortest suffix, in admission order, of the other block-holding sequences that covers the deficit |
| KvCacheTheorems.EvictedExactly | python/cudaforge/kv_cache.py:312-363 | under either policy, a holder is a victim of a granted request if and only if the free blocks and those of the holders that go before it are fewer than needed |
| KvCacheTheorems.PagingNeverAliases | cpp/src/kv_cache.cpp:109-116 | in every state a manager can be in, two tokens never share a physical slot |
| KvCacheTheorems.NoBlockLost | python/cudaforge/kv_cache.py:179-199 | in every such state a block is free exactly when no table holds it, and free plus held is the pool |
| EchoRunner.EchoStepwiseRunner.Prefill | python/cudaforge/stepwise.py:119-128 | the admitted sequences become active; an empty call does nothing |
| EchoRunner.EchoStepwiseRunner.DecodeStep | python/cudaforge/stepwise.py:130-149 | every unfinished sequence gets one token or its end marker; a step is counted, and its width noted, only if somebody was unfinished |
| EchoRunner.EchoStepwiseRunner.Evict | python/cudaforge/stepwise.py:151-152 | the sequence is no longer active |
| SchedulerPaging.PagedGranted | python/cudaforge/continuous.py:295-302 | a granted extension leaves every sequence with its estimate, its decoded tokens and its reserved ones, but for the victims |
| SchedulerPaging.PagedExtended | python/cudaforge/continuous.py:295-302 | one call of a whole pass of extensions, granted or refused: its casualties are running sequences, and everybody else has what the accounts say |
| SchedulerPaging.PagedAdmitted | python/cudaforge/continuous.py:322-349 | a granted admission leaves the newcomer with its estimate and the others as they were, but for the victims |
| SchedulerPaging.PagedDenied | python/cudaforge/continuous.py:322-341 | a refused admission leaves an empty table and nothing else |
| SchedulerPaging.PagedDecoded | python/cudaforge/continuous.py:433-434 | decoding uses up exactly the token reserved for it |
| SchedulerBooks.PagedKept | python/cudaforge/continuous.py:373-389 | when the victims leave, the cache accounts for exactly those who stay |
| SchedulerBooks.RemovalSquares | python/cudaforge/continuous.py:373-412 | sequences that leave are settled once each, and requests, rows and counters still add up |
| SchedulerBooks.AdmissionSquares | python/cudaforge/continuous.py:349-351 | the request in hand is running and nowhere else |
| SchedulerBooks.RefusalSquares | python/cudaforge/continuous.py:353-371 | the request in hand is settled without having run |
| SchedulerBooks.DequeueSquares | python/cudaforge/continuous.py:242-247 | a request off the queue is in hand and nowhere else |
| SchedulerPaging.DecodeSquares | python/cudaforge/continuous.py:433-440 | a decode step adds one row of work for every running sequence |
| Continuous.ContinuousBatcher.constructor | python/cudaforge/continuous.py:103-163 | an idle scheduler over an unused cache and runner, with every account square; estimates may be zero |
| Continuous.ContinuousBatcher.LetGo | python/cudaforge/continuous.py:380-388 | a sequence that leaves is gone from the runner and from the cache, is counted under its kind, and its caller is told |
| Continuous.ContinuousBatcher.EvictPreempted | python/cudaforge/continuous.py:373-389 | exactly the listed sequences leave, each settled once as preempted |
| Continuous.ContinuousBatcher.Retire | python/cudaforge/continuous.py:391-412 | exactly the finished sequences leave, each settled once as completed |
| Continuous.ContinuousBatcher.AskCache | python/cudaforge/continuous.py:322-323 | refused exactly when the estimate exceeds the whole pool |
| Continuous.ContinuousBatcher.Reject | python/cudaforge/continuous.py:353-371 | the request is settled once as rejected, with or without a rejection callback |
| Continuous.ContinuousBatcher.OfferToCache | python/cudaforge/continuous.py:309-351 | a request that fits the pool starts at once, at the cost of whoever the cache evicted; an impossible one is rejected when nothing runs and deferred otherwise |
| Continuous.ContinuousBatcher.Refuse | python/cudaforge/continuous.py:324-341 | rejection exactly when nothing is running or just admitted, deferral otherwise; either way one refusal is counted |
| Continuous.ContinuousBatcher.Start | python/cudaforge/continuous.py:349-351 | the request is running under its new id |
| Continuous.ContinuousBatcher.Take | python/cudaforge/continuous.py:242-260 | requests come off in arrival order |
| Continuous.ContinuousBatcher.Expire | python/cudaforge/continuous.py:263-272 | an expired request is settled once |
| Continuous.ContinuousBatcher.Dequeue | python/cudaforge/continuous.py:242-272 | one look at the queue, as a function of what is there and of the clock: nothing exactly when it is empty, the sentinel, a request dropped exactly when late, or a live one; one item is used up |
| Continuous.ContinuousBatcher.Consider | python/cudaforge/continuous.py:232-276 | the deferred request goes first and leaves the queue alone, otherwise the front of the queue decides; a refused request ends the pass and is deferred unless nothing runs, and a granted one runs under the next id |
| Continuous.ContinuousBatcher.FillRows | python/cudaforge/continuous.py:224-276 | never wider than the batch, and never more admitted than its rows; whoever ran or was admitted runs or was preempted; the pass ends only when its own test fails, a request is put off, nothing is queued or it took the sentinel; whenever all that it would take can start with the blocks that are free, and so always without a cache, exactly as many are admitted as the pass over what is queued allows, and the queue is left as that pass leaves it |
| SchedulerQueue.PassFillsHalf | python/cudaforge/continuous.py:232-276 | without a cache a pass admits the smaller of two numbers: the live requests ahead of the first empty look or the sentinel, and half the free rows rounded up |
| SchedulerQueue.HalfFull | python/cudaforge/continuous.py:225-276 | after a pass without a cache at least half the batch runs, or no live request is left ahead |
| SchedulerQueue.PassGathered | python/cudaforge/continuous.py:232-276 | with everything that will arrive on the queue and no deadline missed, a pass takes from the backlog exactly what it admits and loses nothing |
| SchedulerQueue.AllLive | python/cudaforge/continuous.py:232-276 | then the live requests ahead are all of the backlog |
| SchedulerQueue.RefilledInOnePass | python/cudaforge/continuous.py:225-232 | one pass fills every free row if and only if none is free, or one is and a live request is ahead; with live requests for all of them, if and only if at most one row is free |
| SchedulerQueue.FourWaitTwoEnter | python/cudaforge/continuous.py:225-232 | four requests wait for four free rows, and one pass admits two |
| SchedulerGrowth.NewcomerFits | python/cudaforge/continuous.py:322-349 | a request whose blocks are free starts at nobody's cost |
| SchedulerQueue.StreamedOn | python/cudaforge/continuous.py:242-260 | taking the front item keeps the queue first in, first out, and the sentinel closes it |
| Continuous.ContinuousBatcher.Admit | python/cudaforge/continuous.py:224-281 | a whole admission pass keeps the scheduler's invariant, never leaves an active scheduler idle, asks for rows only under ids never used before, adds to the runner's stray rows exactly those admitted and no longer running, counts the admitted, serves nobody, and ends only for the reasons of the loop |
| Continuous.ContinuousBatcher.PrefillAdmitted | python/cudaforge/continuous.py:278-281 | the runner gets a row for everything admitted in the pass, evicted meanwhile or not, in one prefill, and all are counted |
| Continuous.ContinuousBatcher.GrowOne | python/cudaforge/continuous.py:295-302 | one extension for a running sequence, which the cache always knows; refused, the sequence itself is the casualty |
| Continuous.ContinuousBatcher.ReserveStep | python/cudaforge/continuous.py:283-307 | a whole pass of extensions over the cache as it was: exactly the casualties of its calls leave, in the runner, the cache and the log, and those who stay have one token reserved; nobody leaves if and only if what all need together is free before the pass, and under newest first the oldest stays if and only if `OldestGoes` is false of the state before it |
| Continuous.ContinuousBatcher.Prune | python/cudaforge/continuous.py:303-307 | the casualties leave once each, however often they are listed, and every account is square again |
| Continuous.ContinuousBatcher.GrowAll | python/cudaforge/continuous.py:295-302 | the loop of calls: each running sequence in turn, those evicted earlier in the pass included |
| SchedulerGrowth.OneCall | python/cudaforge/kv_cache.py:365-398 | an extension costs nobody if and only if the blocks it needs are free, and then it takes just those |
| SchedulerGrowth.PassLosesNobody | python/cudaforge/continuous.py:295-302 | a pass loses nobody if and only if the blocks all its calls ask for, each sequence taken as it is before the pass, are free before it starts |
| SchedulerOldest.OneGrowth | python/cudaforge/kv_cache.py:312-363 | newest first, with another holder about: a call is granted, and costs nobody or the newest other holder alone |
| SchedulerOldest.OldestLostExactly | python/cudaforge/continuous.py:295-302 | newest first, a whole pass loses the oldest sequence if and only if: it is alone and cannot grow; or there are two, and the second finds no block but those of the first; or there are three, the first has to evict, the second needs a block, and the third held only one |
| SchedulerOldest.FourSpareTheOldest | python/cudaforge/continuous.py:295-302 | with four or more running the oldest is never lost, however little is free |
| SchedulerGrowth.NewestGives | python/cudaforge/kv_cache.py:312-319 | with nothing free, a call that needs a block evicts exactly the newest other holder |
| SchedulerGrowth.OldestLost | python/cudaforge/continuous.py:295-302 | three sequences of one full block each in a pool of three: extending them in order evicts the newest for the first, then the first for the second, and only the second survives |
| SchedulerGrowth.CrowdGrows | python/cudaforge/continuous.py:295-302 | that run on a manager, from an empty pool: three admissions, then the pass, whose casualties are the third and the first |
| SchedulerGrowth.NewcomerDisplaces | python/cudaforge/continuous.py:322-349 | under newest first, whoever was admitted last before a newcomer is evicted for it if and only if the newcomer needs more than is free |
| SchedulerGrowth.NewcomerEvicts | python/cudaforge/continuous.py:322-349 | under either policy a holder is evicted for a newcomer if and only if what is free and what goes before that holder is less than the newcomer needs |
| SchedulerGrowth.NewcomerLost | python/cudaforge/continuous.py:278-281 | two requests of two blocks in a pool of three: the second is admitted at the cost of the first, in the pass that admitted that one |
| SchedulerGrowth.TwoNewcomers | python/cudaforge/continuous.py:322-349 | that run on a manager, from an empty pool: the second admission evicts the first |
| SchedulerGrowth.AdmitZero | python/cudaforge/kv_cache.py:365-378 | on any manager, a newcomer whose estimate is zero is admitted without becoming known, and its first extension meets an unknown sequence |
| Continuous.ContinuousBatcher.DecodeAll | python/cudaforge/stepwise.py:130-149 | every running sequence moves by one token or stops on its end marker |
| Continuous.ContinuousBatcher.Step | python/cudaforge/continuous.py:433-440 | one decode step of the batch: a token or an end marker each, the counters of a step, and rows, width and cache still accounted for |
| Continuous.ContinuousBatcher.CountStep | python/cudaforge/continuous.py:436-440 | one step more, a row of work for everybody who ran, a full batch of rows offered, and the widest batch seen |
| Continuous.ContinuousBatcher.RetireFinished | python/cudaforge/continuous.py:391-412 | exactly the finished leave, and the accounts are square again |
| Continuous.ContinuousBatcher.StepAndRetire | python/cudaforge/continuous.py:431-442 | a step and its retirement: the counters of one step, the callbacks of those who finished and no others, and at least a token less of work ahead; whoever is owed most is owed less |
| SchedulerPaging.RemainingDecoded | python/cudaforge/continuous.py:431-442 | everybody who ran owes a token less, or has left |
| SchedulerPaging.LongestDecoded | python/cudaforge/continuous.py:431-442 | after a step and its retirement the most that anybody is owed is less |
| Continuous.ContinuousBatcher.Work | python/cudaforge/continuous.py:426-442 | a step is paid for, and those it costs are preempted; if anybody is left all of them take part in one step, every counter moves by exactly that, and the finished are handed back; without a cache nobody is lost |
| Continuous.ContinuousBatcher.RunPass | python/cudaforge/continuous.py:415-443 | one turn of the loop: everybody who ran or was admitted is preempted or takes part in its one step, and is then completed or still running; the callbacks are those of admission, then of the step's casualties, then of the finished; with anybody there for a step, admission ended for one of its reasons; when the pass is easy, and so always without a cache, it admits all it can and the step is as wide as those who ran and those it admits; the thread returns only with nothing running, deferred or queued, and otherwise, once the sentinel is on its way, has less work ahead |
| Continuous.ContinuousBatcher.Run | python/cudaforge/continuous.py:414-443 | the thread terminates: once the sentinel is on its way it returns within as many turns as there is work ahead, unless it raises, which takes a cache and a request whose estimate is zero; without a cache and with all requests queued at the start, all steps but as many as the largest budget are at least half full, which bounds the steps from above |
| Continuous.ContinuousBatcher.TurnPaced | python/cudaforge/continuous.py:415-442 | one turn keeps the account behind that bound: every step so far was at least half full, or was taken since no request was waiting and has lowered the most that anybody is owed |
| Continuous.ContinuousBatcher.CacheAgrees | python/cudaforge/continuous.py:283-307 | at every loop top only running sequences hold blocks, each exactly its estimate plus a token per decode step; with nobody running every block is free |
| Continuous.ContinuousBatcher.RowsAgree | python/cudaforge/continuous.py:278-281 | the runner has a row for every running sequence, and for nobody else if and only if nobody was ever evicted in the pass that admitted it |
| Continuous.ContinuousBatcher.JustVerdicts | python/cudaforge/continuous.py:322-371 | at any time, whoever was rejected exceeds the pool, and whoever runs, completed or was preempted does not |
| Continuous.ContinuousBatcher.CountersAgree | python/cudaforge/continuous.py:59-80 | completions, preemptions, expiries and rejections are each the number of callbacks of that kind, and with who runs and who is put off they are all that was dequeued |
| Continuous.ContinuousBatcher.SettledExactlyOnce | python/cudaforge/continuous.py:414-424 | when the thread returns, the settlements are exactly the requests that arrived, each once |
| Continuous.WorkConserved | python/cudaforge/continuous.py:433-440 | with no cache, expiry or early stop every request gets its whole budget, occupied rows are the tokens asked for, and no fewer steps are taken than the work over full batches or the longest request |
| StaticBatching.RunBatch | python/cudaforge/continuous.py:465-484 | every member ends with its own tokens, its budget or up to its end marker; the batch takes as many steps as its longest member and fills as many rows as its members have turns |
| StaticBatching.RunStatic | python/cudaforge/continuous.py:446-486 | every sequence ends with its own tokens, in order; decode steps are the sum over chunks of each chunk's longest, occupied rows the total of turns, and everybody completes |
| StaticBatching.BudgetsHonoured | python/cudaforge/continuous.py:446-486 | each sequence gets exactly its budget unless its end marker comes first, and then exactly the tokens before that |
| StaticBatching.FilledSteps | python/cudaforge/continuous.py:474-480 | the rows of a batch, step by step, add up to its members' turns, and it ends at its longest |
| StaticBatching.StaticLowerBound | benchmarks/benchmark_continuous.py:135-138 | static batching takes no fewer steps than the longest sequence or the total over full batches |
| QueueMonitor.ConcurrentQueue.Make | cpp/include/cudaforge/concurrent_queue.hpp:79-83 | a capacity of zero is refused; otherwise an empty open queue |
| QueueMonitor.ConcurrentQueue.Push | cpp/include/cudaforge/concurrent_queue.hpp:93-104 | a push waits while the queue is full and open, is refused once closed, and otherwise inserts, owes a notification and will be told so (`PushesAreTold`, `CallsTellTheTruth`) |
| QueueMonitor.ConcurrentQueue.TryPush | cpp/include/cudaforge/concurrent_queue.hpp:108-121 | the same without waiting; full is told apart from closed |
| QueueMonitor.ConcurrentQueue.Pop | cpp/include/cudaforge/concurrent_queue.hpp:124-157 | a pop, timed or not, waits while the queue is empty and open, drains a closed one, and owes a notification for what it takes |
| QueueMonitor.ConcurrentQueue.TryPop | cpp/include/cudaforge/concurrent_queue.hpp:159-170 | the same without waiting; empty is told apart from closed |
| QueueMonitor.ConcurrentQueue.Shutdown | cpp/include/cudaforge/concurrent_queue.hpp:173-183 | the first call closes the queue and owes both broadcasts; later calls do nothing |
| QueueMonitor.ConcurrentQueue.Resume | cpp/include/cudaforge/concurrent_queue.hpp:93-157 | a woken thread evaluates its predicate again under the mutex |
| QueueMonitor.ConcurrentQueue.NotifyOne | cpp/include/cudaforge/concurrent_queue.hpp:102-102 | a notification reaches exactly one waiter if there is any |
| QueueMonitor.ConcurrentQueue.NotifyAll | cpp/include/cudaforge/concurrent_queue.hpp:181-182 | a broadcast wakes everyone parked on its condition variable |
| QueueMonitor.TurnCovers | cpp/include/cudaforge/concurrent_queue.hpp:93-183 | no call, resumption, spurious wake-up or timeout leaves a usable item or slot uncovered while somebody is parked for it |
| QueueMonitor.NotifyCovers | cpp/include/cudaforge/concurrent_queue.hpp:102-134 | nor does spending a notification |
| QueueMonitor.BroadcastCovers | cpp/include/cudaforge/concurrent_queue.hpp:173-183 | nor does a broadcast |
| QueueMonitor.StepSound | cpp/include/cudaforge/concurrent_queue.hpp:93-183 | every step keeps the invariant: the capacity, first in first out, and coverage of every parked thread |
| QueueMonitor.RunSound | cpp/include/cudaforge/concurrent_queue.hpp:93-183 | every state of every interleaving satisfies it |
| QueueMonitor.NoLostWakeUp | cpp/include/cudaforge/concurrent_queue.hpp:46-67 | once no notification or woken thread is in flight, a consumer is parked only on an empty open queue and a producer only on a full open one; pops are a prefix of pushes |
| QueueMonitor.PopsInPushOrder | cpp/include/cudaforge/concurrent_queue.hpp:124-136 | the n-th successful pop hands its caller the n-th value pushed |
| QueueMonitor.PushesAreTold | cpp/include/cudaforge/concurrent_queue.hpp:93-121 | a step puts in the value its own thread brought, at the back, exactly when the queue is open and has room, and exactly then that thread is to be told of success; no other step puts anything in |
| QueueMonitor.CallsTellTheTruth | cpp/include/cudaforge/concurrent_queue.hpp:88-183 | from the start of a call to its return, however long it waits and whatever others do: told of success, it put in its own value once, or got that item out once; told closed, full, timeout or empty, it changed nothing |
| QueueMonitor.WaitRunsOut | cpp/include/cudaforge/concurrent_queue.hpp:140-157 | a timed wait that runs out ends the call at the next look, with an item if there is one, as closed, or as a timeout |
| QueueMonitor.ShutdownCloses | cpp/include/cudaforge/concurrent_queue.hpp:172-183 | the queue is closed by shutdown and nothing else, and the first call makes both broadcasts before it returns |
| QueueMonitor.ClosedForGood | cpp/include/cudaforge/concurrent_queue.hpp:61-67 | once closed, always closed, and nothing goes in |
| QueueMonitor.Refusals | cpp/include/cudaforge/concurrent_queue.hpp:15-24 | closed, timeout, full and empty each mean what they say when they are decided, and touch nothing |
| QueueHistory.StepOfHistory | cpp/include/cudaforge/concurrent_queue.hpp:124-170 | to the one consumer of a queue every step of a run is time passing, in which the buffer only grows at the back and closing is final, or its own taking of the front item; a pop that fails found the buffer empty, and says closed exactly when it is |
| QueueHistory.TimePasses | cpp/include/cudaforge/concurrent_queue.hpp:124-170 | however many steps others take between two takings, together they are one passing of time |
| QueueHistory.ClosedMeansDrained | cpp/include/cudaforge/concurrent_queue.hpp:124-136 | a pop told closed means that everything ever pushed has come out |
| QueueMonitor.WorkDrops | cpp/include/cudaforge/concurrent_queue.hpp:93-183 | every internal step uses up some of a bounded amount of work |
| QueueMonitor.QuietMeansDone | cpp/include/cudaforge/concurrent_queue.hpp:93-183 | a state is quiet exactly when no internal step is left to take |
| QueueMonitor.EveryoneServed | cpp/include/cudaforge/concurrent_queue.hpp:37-44 | left to itself the queue settles within that bound, and then nobody sleeps beside something it could use |
| Futures.EveryMemberAttempted | python/cudaforge/engine.py:341-379 | however a batch goes (expired members, a raising runner, a wrong number of results), every member and nobody else gets a call of `_complete` |
| Futures.LiveAreAnswered | python/cudaforge/engine.py:346-379 | the i-th live member is told the i-th result if and only if the runner gave one for every live member, and otherwise that it failed |
| Futures.LateAreExpired | python/cudaforge/engine.py:346-353 | everybody called before them is a member late at the second reading, is told that it expired, and is called only if some member was late at the first |
| Futures.CalledTwice | python/cudaforge/engine.py:347-353 | a member gets two calls exactly when it was live at the first reading of the clock and late at the second while another was late at the first; otherwise one |
| Futures.ToldTwice | python/cudaforge/engine.py:347-353 | of two requests one is late at once and the other between the two readings: the other is told that it expired and then what the runner made of it |
| Futures.Engine.constructor | python/cudaforge/engine.py:138-165 | an open engine with no futures |
| Futures.Engine.Submit | python/cudaforge/engine.py:209-210 | a closed engine refuses; otherwise the request gets a fresh id |
| Futures.Engine.Register | python/cudaforge/engine.py:223-228 | the future is in the map before the request can be seen by a worker |
| Futures.Engine.Offer | python/cudaforge/scheduler.py:180-182 | the batcher's own test of its stopping flag |
| Futures.Engine.Enqueue | python/cudaforge/scheduler.py:184-191 | the request is on the queue and its future is handed out, or the queue was full and it is refused |
| Futures.Engine.Withdraw | python/cudaforge/engine.py:233-236 | a refused submit takes its own future back and raises |
| Futures.Engine.Execute | python/cudaforge/engine.py:341-379 | the calls of `_complete` a batch leads to, in order |
| Futures.Engine.Take | python/cudaforge/engine.py:337-379 | a worker has a batch of whatever queued requests the batcher picked, in queue order, so dropped ones may be passed over and expired on their own |
| Futures.Engine.Claim | python/cudaforge/engine.py:413-415 | under the lock a future is taken by whoever finds it |
| Futures.Engine.Settle | python/cudaforge/engine.py:416-419 | outside the lock the future taken is set |
| Futures.Engine.Shutdown | python/cudaforge/engine.py:288-290 | a second shutdown returns at once |
| Futures.Engine.SetStopping | python/cudaforge/scheduler.py:214-216 | the batcher stops accepting |
| Futures.Engine.Sweep | python/cudaforge/engine.py:302-304 | shutdown takes every future left in the map |
| Futures.Engine.Abandon | python/cudaforge/engine.py:305-309 | and fails each |
| Futures.StepSound | python/cudaforge/engine.py:209-309 | every step keeps the invariant of the protocol |
| Futures.RunSound | python/cudaforge/engine.py:209-309 | every state of every interleaving of submitters, workers and shutdowns satisfies it |
| Futures.SetAtMostOnce | python/cudaforge/engine.py:413-419 | no future is owed by two threads or set twice; the `done()` guards never save anyone |
| Futures.VerdictFinal | python/cudaforge/continuous_engine.py:249-255 | what a future was set to never changes |
| Futures.ClaimedOnce | python/cudaforge/engine.py:413-415 | a future leaves the map once |
| Futures.SweptMeansClaimed | python/cudaforge/continuous_engine.py:173-202 | after a sweep every future handed out, before or later, has been claimed |
| Futures.NobodyHangs | python/cudaforge/engine.py:299-309 | after a sweep, with no setter in mid-step, every future handed out is set |
| Futures.BatchHandled | python/cudaforge/engine.py:341-419 | a worker that takes a batch claims every member, unless someone else already has |
| FutureCalls.SubmitTellsTheTruth | python/cudaforge/engine.py:209-238 | whatever other threads do, `submit` returns its future exactly when it queued the request, once; it refuses only an engine that is closed or stopping or a queue with no room, and then nothing is queued and the future is out of the map |
| FutureCalls.ShutdownTellsTheTruth | python/cudaforge/engine.py:288-309 | when `shutdown` returns the engine is closed, and when the call that closed it returns the batcher accepts nothing and the map has been swept |
| FutureCalls.FlagsStay | python/cudaforge/engine.py:288-304 | only shutdown sets the flags, and nothing clears them |
| FutureCalls.WorkersAtWork | python/cudaforge/engine.py:341-419 | what a worker still has to do is always the rest of the calls of a batch it took |
| FutureCalls.VerdictsComeFromBatches | python/cudaforge/engine.py:413-419 | every future is set to the verdict of the first call for its request in a batch that was taken, unless shutdown failed it |
| BucketedHistogram.BucketIndex | cpp/include/cudaforge/latency_histogram.hpp:101-110 | every value has one of the 640 buckets |
| BucketedHistogram.MagnitudeBounds | cpp/include/cudaforge/latency_histogram.hpp:105-105 | the highest set bit brackets the value between two powers of two |
| BucketedHistogram.CellIndex | cpp/include/cudaforge/latency_histogram.hpp:105-109 | a value whose top five bits read `q` above `s` dropped bits is in bucket 16 s + q, clamped to the last |
| BucketedHistogram.Monotone | cpp/include/cudaforge/latency_histogram.hpp:101-110 | a larger value is never in an earlier bucket |
| BucketedHistogram.UpperIsLast | cpp/include/cudaforge/latency_histogram.hpp:112-120 | the upper bound is in its bucket and the next value is in the next |
| BucketedHistogram.BucketOrder | cpp/include/cudaforge/latency_histogram.hpp:101-120 | being in a bucket up to `i` is being at most its upper bound, below the last bucket |
| BucketedHistogram.RelativeError | cpp/include/cudaforge/latency_histogram.hpp:18-21 | below 2^43 the upper bound overstates by less than a sixteenth of the value |
| BucketedHistogram.CeilingIsExact | cpp/include/cudaforge/latency_histogram.hpp:109-120 | the upper bound is not below the value if and only if the value is below 2^43 |
| BucketedHistogram.CeilingUnderstated | cpp/include/cudaforge/latency_histogram.hpp:109-120 | 2^43 itself is reported as 2^43 - 1 |
| BucketedHistogram.FirstBucket | cpp/include/cudaforge/latency_histogram.hpp:56-62 | the first bucket whose cumulative count reaches a rank is the bucket of the sample at that rank |
| BucketedHistogram.RankIsCeiling | cpp/include/cudaforge/latency_histogram.hpp:48-54 | the rank is the ceiling its description names if and only if the product is whole or below one |
| BucketedHistogram.RankIsFloor | cpp/include/cudaforge/latency_histogram.hpp:48-54 | the rank is the last one the product reaches, and one below a product of one |
| BucketedHistogram.RankBelowCeiling | cpp/include/cudaforge/latency_histogram.hpp:48-54 | the median of three samples is read at rank one, not two |
| BucketedHistogram.PercentileRefines | cpp/include/cudaforge/latency_histogram.hpp:41-64 | the reported percentile is at least the exact sample at the rank, and above it by less than a sixteenth |
| BucketedHistogram.Extremes | cpp/include/cudaforge/latency_histogram.hpp:36-37 | the running minimum and maximum bound every sample and are samples |
| BucketedHistogram.LatencyHistogram.Record | cpp/include/cudaforge/latency_histogram.hpp:30-38 | counts, total, wrapped sum, minimum and maximum follow the samples |
| BucketedHistogram.LatencyHistogram.Percentile | cpp/include/cudaforge/latency_histogram.hpp:41-64 | the upper bound of the bucket of the sample at the asked rank, for any quantile; zero with no samples; the fall-through is unreachable |
| BucketedHistogram.LatencyHistogram.Reset | cpp/include/cudaforge/latency_histogram.hpp:89-96 | as if nothing had been recorded |
| OrderStatistics.AtMostIsPrefix | python/cudaforge/metrics.py:71-74 | in a sorted list the elements up to a value are a prefix, which is what bisection relies on |
| OrderStatistics.InsertSorted | python/cudaforge/metrics.py:74-74 | `insort` keeps the list sorted and adds one element |
| OrderStatistics.SortSorts | python/cudaforge/metrics.py:21-24 | the reference order: a sorted permutation |
| OrderStatistics.RankAtMost | cpp/include/cudaforge/latency_histogram.hpp:48-62 | at least `rank` samples are at most `x` exactly when the sample at that rank is |
| SlidingHistogram.LookupFinds | python/cudaforge/metrics.py:71-73 | in a sorted list the lookup of a value that is there finds it |
| SlidingHistogram.SortReplaces | python/cudaforge/metrics.py:69-75 | taking the oldest out of the sorted window and inserting the newest gives the next window, sorted; the lookup never misses |
| SlidingHistogram.WindowSlides | python/cudaforge/metrics.py:69-75 | the window is the last min(n, capacity) samples |
| SlidingHistogram.LatencyHistogram.Make | python/cudaforge/metrics.py:52-55 | a capacity that is not positive is refused |
| SlidingHistogram.LatencyHistogram.Record | python/cudaforge/metrics.py:65-75 | after any records the list is the window sorted, and count and total cover everything recorded |
| SlidingHistogram.LatencyHistogram.Percentile | python/cudaforge/metrics.py:77-84 | the order statistic of the window at the index the quantile picks |
| SlidingHistogram.LatencyHistogram.Maximum | python/cudaforge/metrics.py:96-99 | the largest sample of the window |
| SlidingHistogram.Picked | python/cudaforge/metrics.py:82-83 | the index is in range, the last one that quantile times last index reaches, so first for 0 and last for 1; clamped outside |
| SlidingHistogram.PercentileInWindow | python/cudaforge/metrics.py:77-84 | every percentile is one of the window's samples, and a larger quantile never picks a smaller one |
| DynamicBatching.LiveOrDead | cpp/src/dynamic_batcher.cpp:89-104 | every request taken is in exactly one of two lists: live if it has no deadline or the clock had not reached it at its check, expired otherwise |
| DynamicBatching.LiveInOrder | cpp/src/dynamic_batcher.cpp:106-168 | both lists keep the order in which requests were taken |
| DynamicBatching.SharedQueue.Look | cpp/include/cudaforge/concurrent_queue.hpp:83-122 | time passes for the consumer exactly as a run of the bounded queue allows |
| DynamicBatching.SharedQueue.Pop | cpp/include/cudaforge/concurrent_queue.hpp:124-136 | as the batcher thread meets it: the next request in push order, or closed and empty |
| DynamicBatching.SharedQueue.PopFor | cpp/include/cudaforge/concurrent_queue.hpp:140-157 | the same, or a timeout with the clock at the limit or later |
| DynamicBatching.SharedQueue.TryPop | cpp/include/cudaforge/concurrent_queue.hpp:159-170 | a queue seen closed and empty stays so |
| DynamicBatching.DynamicBatcher.StampAndCheck | cpp/src/dynamic_batcher.cpp:117-120 | a request is stamped, and dropped exactly if it has a deadline and a second reading of the clock has reached it |
| DynamicBatching.DynamicBatcher.First | cpp/src/dynamic_batcher.cpp:110-121 | a live first member, or a closed and drained queue |
| DynamicBatching.DynamicBatcher.FillOne | cpp/src/dynamic_batcher.cpp:123-161 | one turn of the filling loop: a live request more, a dropped one, or a reason to stop that holds |
| DynamicBatching.DynamicBatcher.CollectBatch | cpp/src/dynamic_batcher.cpp:106-168 | between one and the maximum of live requests in order; the trigger is MaxSize exactly when full, Timeout only at the first member's deadline or later, Shutdown only on a closed and drained queue; every timed wait starts before that deadline and asks for what is left of it |
| DynamicBatching.DynamicBatcher.Drain | cpp/src/dynamic_batcher.cpp:142-154 | the inner drain never takes anything |
| DynamicBatching.DynamicBatcher.Run | cpp/src/dynamic_batcher.cpp:64-87 | when the thread exits every accepted request was taken in push order into exactly one batch or one expiry drop, and into a batch exactly if it has no deadline or was checked ahead of it |
| Int8.AbsMaxBounds | python/cudaforge/ops.py:222-222 | the block maximum bounds every magnitude and is one of them |
| Int8.Quantize | python/cudaforge/ops.py:215-229 | ceil(n / 64) positive scales, one per block, padding included, and one code per element |
| Int8.NearestEven | python/cudaforge/ops.py:227-227 | rounding is to a nearest whole number, and of two to the even one |
| Int8.DequantizeInt8 | python/cudaforge/ops.py:463-470 | scales that do not match the codes are refused; otherwise each value is its code times its block's scale |
| Int8.ClampNeverBinds | python/cudaforge/ops.py:227-227 | a block's own scale keeps every rounded ratio within 127 |
| Int8.RoundTripError | python/cudaforge/ops.py:479-488 | restoring an element is off by at most half its own block's scale |
| Int8.BlocksIndependent | python/cudaforge/ops.py:220-225 | a block's codes and scale depend on that block alone |
| Int8.ScaleKept | python/cudaforge/ops.py:222-225 | a restored block has the scale it was coded with, an all-zero block included |
| Int8.Idempotent | python/cudaforge/ops.py:215-240 | quantising a restored tensor gives the same codes and scales, for every length |

## Left out

- Speculative.SpeculativeDecoder.Generate: requires a non-empty prompt, since a model cannot be called on no tokens; tensor shapes, devices and seeds are not modelled.
- SpeculativeCounts.PredictionIsMean: the probability and the result are exact reals.
- Speculative.Rng.Multinomial: the generator is a tape of reals in [0, 1) read in order; probabilities are exact reals and `_distribution` is any normalised distribution, so temperature, top-k, top-p and rounding are out.
- StepwiseRunner.TransformersStepwiseRunner.Prefill: prompts are token sequences and never empty, the tokenizer, truncation and detokenisation are out, and states join once under fresh ids.
- StepwiseRunner.TransformersStepwiseRunner.DecodeStep: greedy choice only; a sampled choice would need the random generator shared by the rows.
- KvCache.BlockAllocator.constructor: sizes are positive, as in the manager's constructor; the original raises otherwise.
- KvCache.BlockAllocator.AddReference: follows the C++ form; the Python form does not check, and would leave a free block with a referent. The manager never shares a block.
- KvCache.KVCacheManager.Locate: negative token indexes, which Python would accept, are not modelled; nor are the utilisation figures.
- Continuous.ContinuousBatcher.Run: runs for a given number of turns over finite arrivals, because the loop itself idles for ever while no sentinel comes; deadlines, arrivals and the sentinel come from the environment; the bound on steps from above is for requests that are all queued at the start, with no cache and no missed deadline; callbacks are a log, and what they raise is swallowed as in the original.
- Continuous.ContinuousBatcher.Consider: once a request with an estimate of zero has been taken the thread is bound to raise at its first extension, and the model stops there; what the rest of that pass still does is not modelled.
- Continuous.ContinuousBatcher.constructor: budgets are positive, as request validation guarantees.
- EchoRunner.EchoStepwiseRunner.DecodeStep: tokens are numbers rather than text, and the configured delays are out.
- Continuous.WorkConserved: the scheduler is proved over the echo runner, and the step-wise runner under every schedule (`Serving`). The latter chooses a first token at prefill, before a step is paid for, so the scheduler's accounts would hold for it up to that token; the two are not run together.
- QueueMonitor.ConcurrentQueue.Pop: time is not measured, a timed wait may run out at any moment; the mutex is taken for granted, a throwing move of an element is out, and so are the const accessors.
- Futures.Engine.Execute: the runner is its number of results or a failure; latencies and metrics are out.
- Futures.Engine.Settle: a caller that cancels a future it was handed is not modelled.
- Futures.NobodyHangs: how long shutdown waits for the batcher and the pool is out, and workers may drop a batch at any point, which covers batches the pool refuses and requests left behind a sentinel.
- BucketedHistogram.LatencyHistogram.Percentile: the product of quantile and count is exact; counters do not wrap, the sum does.
- SlidingHistogram.LatencyHistogram.Record: latencies are whole numbers, since only their order and sum matter; not-a-number is out.
- DynamicBatching.DynamicBatcher.Run: other threads' pushes and the close are fixed in advance as what each look at the queue finds, and the close comes eventually; there is no upper bound on scheduling delay; exceptions of the handler and the callback are swallowed as in the original and not counted.
- Int8.Quantize: tensors are sequences of exact reals; shapes and dtypes are out.
- The Python `DynamicBatcher` drain: its sentinel can be dropped when the queue is full and requests behind a sentinel read first are abandoned, so exactly-once batching does not hold there.
- Configuration validation, metrics snapshots and rendering, `MemoryPool`, `ThreadPool`, `ReplicatedEngine`, dataset packing: flat bookkeeping that would add easy members.
- CUDA kernels, Torch numerics, bindings, the HTTP server, the CLI, training, examples and benchmark harnesses are not part of this model.
