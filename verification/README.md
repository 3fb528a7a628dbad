# A verified model of the inference engine

This project models an inference engine for large language models in Dafny and proves what its paged KV
cache, its iteration-level scheduler, its attention kernels, its thread pool, its tokenizer and its sampler
promise. `dafny verify dfyconfig.toml` checks everything.

The engine keeps the attention keys and values of many requests in fixed-size blocks of one pool, shares
blocks between requests with a common prefix, cuts prompts into chunks, mixes chunks and single decode
tokens of many requests in one forward pass, and throws a request's cache away and recomputes it when memory
runs short. The central claim is that none of this changes a single token of any request.

## How the model is built

- *Specification.* `BlockPool` and `Scheduling` state every operation of the cache manager and of the
  scheduler as a function on a value; `Network` states the packed, paged forward pass over an abstract
  decoder, beside a reference that recomputes everything from the token prefix; `Reference` is plain
  generation of one request alone. `Engine` runs arrivals, cancellations and turns of the loop.
- *Program.* `KVCacheManager`, `Scheduler`, `PagedModel` and `EngineLoop` are classes whose methods change
  fields in loops, as the program does; every method is proved to compute its specification function and
  never to leave its arrays. `EngineLoop.Loop.Turn` computes exactly the transition of `Engine`.
- *Invariants.* `PrefixCache`, `PrefixTree` and `CacheOps` carry ownership, the hash index and the shape of
  the published prefix cache; `Contents` carries what every slot holds; `Roles`, `Safety`, `Steps` and
  `Progressing` carry the scheduler's invariant through every transition; `Ledger` carries the accounts and what
  each client has been told.
- *Results.* `Theorems`, `ArrivalOrder`, `Departures`, `Admitting`, `Chunks`, `Batches`, `Budget`, `Holdings`,
  `Drain`, `Service`, `Fairness`, `Rewrites` and `Watermark` are statements about every run.
- *Runs.* `StaticRun`, `DecodeRun`, `OvertakingRun` and `CachedRun` work single runs out completely, with the
  tools in `Witnesses`, where a promise of the documentation fails; the exact condition is among the results.
- *Independent parts.* `ThreadPool` is an interleaving protocol; `Softmax`, `AttentionKernels`, `AttentionGqa`
  and `DeviceTables` are exact real arithmetic with an abstract exponential; `Bpe`, `PreTokenizer`, `Utf8` and
  `Tokenizer` are the byte-level tokenizer; `Sampler` is nucleus sampling.

## Assumptions

- The content hash does not collide on the block prefixes that occur in the run (`PrefixTree.NoCollision`,
  only with prefix caching on); `PrefixTree.ChainAddsNone` reduces this to the hash of one block. The pool
  invariant itself, with reference counts and the hash index, is proved without it.
- The model and the sampler of one row are functions of the token prefix and the sampling settings.
- Requests have fresh ids, non-empty prompts and a positive `max_tokens`; the budget, the chunk size and the
  resident limit are positive. Progress statements also assume the capacity bound that the engine checks on
  submission.
- Which requests are past their deadline is an arbitrary set at each turn.
- Letters, numbers and spaces are any three disjoint character classes; merge ranks are handed out one by one.

## Where the code and its documentation differ

- `docs/design.md:36` says that a sequence only writes into its own, unshared, partial last block. A fully cached
  history makes the code compute its last token again, into a full, published and possibly shared block:
  `CachedRun.SharedBlockWritten` is a run in which two owners write to one block. `Rewrites.SharedWritesExactly`
  says exactly when it happens, and `Rewrites.PublishedUnchanged` that the stored values stay the same.
- `docs/design.md:40` reserves the budget for decode tokens first. The code gives residents in prefill their
  chunks first: in `DecodeRun.DecodeGoesWithout` a decoding resident gets nothing. `Budget.DecodeGetsTheRest`
  says exactly who gets a slice.
- `docs/design.md:41` promises first come, first served without reordering. With an admission lookahead above 1
  requests overtake: `OvertakingRun.LookaheadOvertakes` is a run. `Admitting.OvertakenExactly` and
  `Fairness.RoundOvertakenExactly` say exactly when, `Fairness.BoundedUnfairness` how often at most.
- `docs/design.md:43` says that a static batch frees everything when its last member finishes. When the last live
  member of a closed batch is cancelled instead, nothing is freed and nobody is admitted ever again:
  `StaticRun.ClosedBatchHangs` is a run, `Drain.WedgedForever` the fixpoint, and `Service.DrainsExactly` says
  exactly from which states the engine drains.
- The comment at the rejection of the queue head says that its prompt is larger than the whole pool. With an
  explicit watermark a request that fits is rejected too (`Service.WatermarkTurnsAwaySmall`);
  `Service.TurnedAwayExactly` gives the exact condition.
- The watermark check does not charge for idle cached blocks that an admission revives, so fewer blocks than
  the watermark can remain: `CachedRun.WatermarkMissed` is a run, `Watermark.WatermarkExact` the exact condition.
- In static mode a cancellation of a member that already finished reports it a second time:
  `StaticRun.ReportedTwice` is a run; `Ledger.AbortBooks` and `Theorems.Conservation` say exactly when.
- `evict_for_memory` is called only while somebody is resident, so it never fails where it is needed; the
  fallback for that case is in the specification function and is unreachable in the program.

## Model

| member | source | states |
|---|---|---|
| `Theorems.ScheduleIndependence` | docs/design.md:103-127 | after every run, under every configuration, batching mode, preemption pattern, cancellation and expiry, a sequence's tokens are a prefix of what its own request generates alone without cache, paging or batch, all of it when it ended by Stop or Length, and never more than `max_tokens` beyond the prompt |
| `Theorems.ContentAgreement` | src/kv_cache/block_allocator.cpp:78-142 | in every reachable state, for every resident and every position below `num_computed`, the slot found through the block table holds, in every layer, the K/V of exactly that token prefix |
| `Holdings.HoldsWhatItNeeds` | src/kv_cache/block_allocator.cpp:118-128 | in every reachable state a resident holds as many blocks as its tokens need, or as many as they needed before the last one was sampled; anybody else holds none |
| `Theorems.PoolPartition` | src/kv_cache/block_allocator.cpp:25-52 | in every reachable state each block is in exactly one of free list, LRU list and owned, its reference count is its number of table entries, and exactly the residents own blocks |
| `Theorems.DrainedPoolIsWhole` | src/kv_cache/block_allocator.cpp:139-142 | with nobody resident every block is available again |
| `Theorems.PrefixCacheClosed` | src/kv_cache/block_allocator.cpp:54-76 | in every reachable state a published prefix has all its shorter block prefixes published, `lookup_cached_prefix` counts exactly the published ones (both directions), and no published block extends the one that is evicted next |
| `Theorems.ParentsOutlive` | src/kv_cache/block_allocator.cpp:78-142 | in every reachable state every owner of a published block owns its parent, and a cached child stands before its cached parent in the LRU list |
| `Theorems.HashIndexExact` | src/kv_cache/block_allocator.cpp:54-64 | in every reachable state `hash_to_block_` and the non-zero part of `block_hash_` are mutually inverse, and each table entry stores its block's hash |
| `Theorems.EveryStepValid` | src/scheduler/scheduler.cpp:132-213 | every step of every run has one slice per unfinished resident at most, starting at `num_computed`, within its tokens and blocks, logits exactly at the last token, prefill before decode, within the token budget and the resident limit, and the model can run it |
| `Theorems.Conservation` | src/scheduler/scheduler.cpp:215-253 | over every run: requests added = waiting + resident + finished; slice tokens executed + tokens adopted = tokens computed + tokens thrown away; terminal callbacks are one per finished request plus one per cancellation of an already finished static-mode resident; in continuous mode none while queued or resident and exactly one afterwards |
| `Theorems.NoRepeats` | src/scheduler/scheduler.cpp:17-22 | in continuous mode no cancellation ever hits an already reported request |
| `Theorems.ClientStream` | src/scheduler/scheduler.cpp:227-244 | in every reachable state, for every request: the tokens streamed to the client are its generated tokens, in order and each once, without a stop token at the end; nothing is streamed after a terminal callback |
| `Theorems.FinishReasons` | src/scheduler/scheduler.cpp:230-236 | in every reachable state: Stop means the last token is a stop token, Length means it is not and there are exactly `max_tokens`, unfinished means no stop token yet and fewer; no earlier token is a stop token; the last terminal callback gave the sequence's reason, and an unfinished one had none |
| `Theorems.CancelExact` | src/scheduler/scheduler.cpp:17-31 | in every reachable state a cancellation takes the request out of queue and batch, ends it with Abort, hands back exactly its blocks, calls back once and touches nobody else; a request in neither list changes nothing |
| `Departures.AbortCancels` | src/scheduler/scheduler.cpp:17-31 | the same from every state that satisfies the invariant |
| `Departures.ExpireExact` | src/scheduler/scheduler.cpp:176-189 | expiry ends exactly the queued requests that are late, with Timeout and in queue order, counts them, and touches nobody else |
| `Chunks.ChunksExactly` | src/scheduler/scheduler.cpp:164-211 | in every reachable state the next step is laid out like this: one chunk for each resident in prefill, in running order, until the budget is spent; one for each newly admitted sequence; then one-token decode slices, for which room was kept; each chunk is the least of the rest of its tokens, the budget left and the chunk size |
| `Chunks.AdmittedStart` | src/scheduler/scheduler.cpp:58-66 | an admitted request's first slice starts after its cached prefix, but never after its last token |
| `Chunks.AdmitAllCounts` | src/scheduler/scheduler.cpp:71-72 | admitting counts every new resident once, and the largest wait recorded is the larger of the old one and theirs |
| `Batches.BatchClosesExactly` | src/scheduler/scheduler.cpp:139-200 | in every reachable state of static mode a round leaves the batch open if and only if it was open or nobody was resident, and not somebody still waits with the resident limit reached or with budget left and somebody resident; in continuous mode nothing closes |
| `ArrivalOrder.FirstComeFirstServed` | src/scheduler/scheduler.cpp:44-76 | continuous mode with strict admission: in every reachable state `running` followed by `waiting` is exactly the unfinished requests in arrival order |
| `Fcfs.ScheduleLine` | src/scheduler/scheduler.cpp:132-213 | scheduling reorders nobody: what remains of running-then-waiting is a subsequence of what it was |
| `Fcfs.VictimNotOlder` | src/scheduler/scheduler.cpp:100-130 | memory pressure never evicts a sequence older than the one it makes room for |
| `Fcfs.PlaceSettled` | src/scheduler/scheduler.cpp:151-162 | finding decode slots keeps running-then-waiting unchanged, the survivors are the oldest residents untouched, and somebody survives if every request fits the pool |
| `Fcfs.AdmitAllAdvanced` | src/scheduler/scheduler.cpp:191-193 | strict admission keeps running-then-waiting unchanged and touches no resident |
| `Drain.TickLowers` | src/scheduler/scheduler.cpp:132-253 | in both modes and for every lookahead, every turn with work pending lowers one number, spelled by whether anybody is live, whether a static batch is open and the remaining work in running-then-waiting order, whatever the turn preempts, rejects or expires; unless the mode is static, everybody resident is finished and the batch is closed or nobody waits |
| `Drain.EngineDrains` | src/scheduler/scheduler.cpp:132-253 | with no further arrivals and whoever is late, the engine drains within that number of turns: in continuous mode from every state that satisfies the invariant, in static mode from every such state in which somebody is live or nobody is resident |
| `Drain.WedgedTick` | src/scheduler/scheduler.cpp:139-140 | static mode, everybody resident finished, the batch closed or nobody waiting, nobody late: a turn runs no step and changes nothing but the step count, and the state is the same kind again |
| `Drain.WedgedForever` | src/api/engine.cpp:298-302 | so from such a state no number of turns serves, rejects or releases anybody |
| `Drain.AdmitsExactly` | src/scheduler/scheduler.cpp:191-193 | from an idle state the next round admits somebody if and only if a place is free and the scan of the queue finds a fit |
| `Drain.OneTurn` | src/scheduler/scheduler.cpp:132-253 | a stuck state (static, everybody resident finished, and the batch closed or the next round admitting nobody) becomes wedged in one turn; from any other state somebody is live or nobody resident after one turn |
| `Drain.FreeTurn` | src/scheduler/scheduler.cpp:132-253 | while the engine is not stuck a turn with work pending lowers the measure and does not get stuck |
| `Drain.DrainsIff` | src/scheduler/scheduler.cpp:132-253 | with nobody late and nothing arriving the engine drains if and only if it is not stuck |
| `Drain.ScheduleLive` | src/scheduler/scheduler.cpp:132-213 | with a live resident and every request within the capacity bound, somebody stays live and a round shortens the line or works on some resident with everybody before it untouched, and opens no batch |
| `Drain.IdleRound` | src/scheduler/scheduler.cpp:132-213 | with no live resident, a round shortens the line, keeps it and admits somebody, or ends nobody, admits nobody and closes the batch if it could have admitted |
| `Drain.StepDoneWorks` | src/scheduler/scheduler.cpp:215-253 | applying a step shortens the line or keeps it and lowers exactly whom it worked on; afterwards somebody is live or nobody resident |
| `Service.TurnedAwayExactly` | src/scheduler/scheduler.cpp:201-205 | in every reachable state with nobody resident, nobody late, for every lookahead and in both modes: the head is rejected if and only if no request inside the scan window, up to the first one that is about to starve, fits the pool above an explicit watermark; with strict admission, if and only if the head itself does not |
| `Service.WatermarkTurnsAwaySmall` | src/scheduler/scheduler.cpp:81-89 | caching off, nobody resident, nobody late: an explicit watermark at least as large as the pool rejects the head, however small its prompt |
| `Service.EveryoneIsServed` | src/scheduler/scheduler.cpp:132-253 | from every reachable state of continuous mode, and every one of static mode that is not stuck, for every lookahead: if every request passed the capacity bound, there is no explicit watermark, and nobody arrives, is cancelled or is late, there is a turn after which every queued or resident request has its complete reference output |
| `Service.DrainsExactly` | src/scheduler/scheduler.cpp:132-253 | in every reachable state, both modes, every lookahead, nobody late: the engine drains if and only if it is not stuck, and in continuous mode it never is |
| `StaticRun.ClosedBatchHangs` | src/scheduler/scheduler.cpp:247-252 | a reachable static-mode run that never ends: two requests admitted, a third queued, one finishes and the other is cancelled; after any number of turns the third is still queued |
| `StaticRun.ReportedTwice` | src/scheduler/scheduler.cpp:17-31 | a reachable static-mode run whose log holds two terminal callbacks for one request |
| `Admitting.ScanExact` | src/scheduler/scheduler.cpp:51-75 | the scan admits exactly the first request of the window that fits and has nobody unfit and starving before it, and nobody if there is none |
| `Admitting.AdmitOneExact` | src/scheduler/scheduler.cpp:44-76 | the same for `admit_one`, with the window written out: the head, or the first `admission_lookahead` queue members |
| `Admitting.OvertakenExactly` | src/scheduler/scheduler.cpp:44-76 | an admission overtakes the request at a queue position if and only if that request neither fits nor starves and the first fit of the window stands behind it |
| `Fairness.RoundOvertakenExactly` | src/scheduler/scheduler.cpp:191-193 | in every reachable state a request is overtaken in a round if and only if that happens at one of the round's admissions |
| `OvertakingRun.LookaheadOvertakes` | src/scheduler/scheduler.cpp:48-57 | a reachable run with lookahead 2 after which running-then-waiting is [1, 0] while the unfinished requests in arrival order are [0, 1] |
| `Budget.DecodeGetsTheRest` | src/scheduler/scheduler.cpp:164-171 | in every reachable state exactly the first so many decoding residents in running order get a slice as the prefill chunks leave tokens of the budget, so all of them do if and only if they are no more than that |
| `Budget.DecodersAre` | src/scheduler/scheduler.cpp:145-162 | these residents are exactly the unfinished ones that settling left in place with at most one token to compute, in running order |
| `DecodeRun.DecodeGoesWithout` | src/scheduler/scheduler.cpp:166-170 | a reachable state in which a prefill chunk takes the whole budget and a decoding resident gets no slice |
| `Fairness.BoundedUnfairness` | src/scheduler/scheduler.cpp:48-59 | over any run, in both modes, a request is overtaken in at most as many rounds as it waited and in fewer than `starvation_wait_steps` rounds |
| `Fairness.ScheduleFair` | src/scheduler/scheduler.cpp:191-193 | a round lowers nobody's waiting count; whoever is overtaken waited one more round and was not starving |
| `Fairness.WaitExact` | src/scheduler/scheduler.cpp:191-192 | in every reachable state a round that may admit makes everybody still queued and not late wait exactly one step longer; no other count changes |
| `Fairness.AdmittingFair` | src/scheduler/scheduler.cpp:51-74 | everybody in front of an admitted request is queued and not starving |
| `Watermark.AdmissionCost` | src/kv_cache/block_allocator.cpp:97-116 | available after an admission = available before - (needed - cached) - cached blocks nobody owned |
| `Watermark.WatermarkKept` | src/scheduler/scheduler.cpp:81-89 | after an admission at least the watermark minus the revived idle blocks stays available, hence the watermark itself with caching off |
| `Watermark.WatermarkExact` | src/scheduler/scheduler.cpp:81-89 | the watermark stays available after an admission if and only if available - (needed - cached) - idle hits is at least the watermark; an admission that passes the check misses it exactly when what it has to spare is less than its idle hits |
| `CachedRun.WatermarkMissed` | src/scheduler/scheduler.cpp:78-89 | a reachable run with prefix caching on in which a request passes the check for a watermark of 2, is admitted, and leaves one block |
| `Watermark.OnlyTheYoungest` | src/scheduler/scheduler.cpp:81-130 | caching off, automatic watermark, continuous mode: after a round that admitted somebody, and whatever arrives or is cancelled in between, the next round preempts nobody or only the youngest resident |
| `Network.ForwardCorrect` | src/model/cpu/cpu_model.cpp:107-212 | a packed paged pass stores the reference K/V in every slot it writes, changes no other slot, and samples for each slice the reference's next token of its prefix |
| `Network.WriteAllHolds` | src/model/cpu/cpu_model.cpp:148-158 | after the writes of a layer a written slot holds its prefix's K/V and any other slot is untouched |
| `Contents.StepForward` | src/model/cpu/cpu_model.cpp:98-214 | a valid step keeps every slot's content and samples the reference's token for every slice that wants logits |
| `Contents.SharedSlotSamePrefix` | src/kv_cache/block_allocator.cpp:103-106 | two positions that meet in one physical slot stand for the same token prefix |
| `Contents.RewriteIsIdempotent` | src/scheduler/scheduler.cpp:58-66 | a token that a pass writes to a published block stands there for exactly the prefix the block was published for |
| `Rewrites.RunCaught` | src/scheduler/scheduler.cpp:221-222 | in every reachable state no sequence has more tokens in blocks tried for publication than it has computed |
| `Rewrites.SharedWritesExactly` | src/scheduler/scheduler.cpp:58-66 | in every reachable state and for every slice of the next step: it writes to a published block if and only if it starts inside the blocks tried for publication, which happens exactly when the whole history is cached and the slice computes its last token again; otherwise every block it writes to has one owner |
| `Rewrites.PublishedUnchanged` | src/model/cpu/cpu_model.cpp:148-158 | in every reachable state the next step leaves the stored K/V of every slot of every published block as it was, in every layer, whether it writes there or not |
| `CachedRun.SharedBlockWritten` | src/scheduler/scheduler.cpp:58-66 | a reachable run in which both slices of one step write to a published block that both sequences own |
| `Reference.AppendTracks` | src/scheduler/scheduler.cpp:227-236 | appending the reference's next token keeps a live sequence live or completes it |
| `Reference.ReferenceIs` | src/scheduler/scheduler.cpp:227-235 | plain generation: each token is the model's next one, only the last may be a stop token, and it is shorter than `max_tokens` only if it ends in one, hence never with `ignore_eos` |
| `BlockPool.TakeOwnKeepsInv` | src/kv_cache/block_allocator.cpp:25-35 | taking fails exactly when nothing is available; otherwise the block is unowned, unhashed, and the invariant holds with it owned |
| `BlockPool.ShareKeepsInv` | src/kv_cache/block_allocator.cpp:37-40 | reusing a published block keeps the invariant and costs one available block exactly if it was idle |
| `BlockPool.ReleaseKeepsInv` | src/kv_cache/block_allocator.cpp:42-52 | releasing keeps the invariant, every hash and every published prefix |
| `BlockPool.PublishKeepsInv` | src/kv_cache/block_allocator.cpp:54-64 | publishing keeps the invariant, and only a block with a single owner is published |
| `BlockPool.Partition` | include/engine/kv_cache.h:50-53 | free, cached and distinct owned blocks add up to the pool |
| `BlockPool.FreshPoolInv` | src/kv_cache/block_allocator.cpp:8-14 | a new pool satisfies the invariant with nothing owned |
| `BlockPool.LowFirst` | src/kv_cache/block_allocator.cpp:8-14 | a new pool hands its blocks out in ascending order |
| `BlockPool.LastFreedFirst` | src/kv_cache/block_allocator.cpp:25-52 | the block freed last is handed out first |
| `PrefixTree.FrontIsLeaf` | src/kv_cache/block_allocator.cpp:27-34 | the block at the front of the LRU list has no published extension, so eviction leaves no hole |
| `PrefixTree.ChildOwnedParentOwned` | src/kv_cache/block_allocator.cpp:78-116 | whoever owns a published block owns its parent |
| `PrefixTree.ReleaseLastKeeps` | src/kv_cache/block_allocator.cpp:139-142 | releasing a table from its end keeps a cached child in front of its cached parent |
| `PrefixTree.ChainAddsNone` | src/kv_cache/block_allocator.cpp:16-23 | chaining adds no collisions: if the block hash tells previous hashes and block contents apart, no two prefixes collide, whatever requests come |
| `CacheOps.AllocatePromptKeeps` | src/kv_cache/block_allocator.cpp:78-116 | all or nothing: fails, changing nothing, exactly when the fresh blocks exceed what is available besides its own hits; else a full table, hashed exactly on the cached prefix, no hit evicted, and the exact availability equation |
| `CacheOps.LookupExact` | src/kv_cache/block_allocator.cpp:66-76 | the lookup counts exactly the published block prefixes |
| `CacheOps.FreeKeeps` | src/kv_cache/block_allocator.cpp:139-142 | freeing a table keeps the whole cache invariant |
| `CacheOps.EnsureSlotKeeps` | src/kv_cache/block_allocator.cpp:118-128 | growing a table keeps the cache invariant and fails, changing nothing, exactly when a block is needed and none is available |
| `CacheOps.CommitKeeps` | src/kv_cache/block_allocator.cpp:130-137 | publishing computed blocks keeps the cache invariant, the table's blocks, the lists and the counts |
| `CacheOps.CommitPublishes` | src/kv_cache/block_allocator.cpp:54-64 | exactly the full computed blocks are tried; a tried block whose predecessor is hashed has its prefix published afterwards, and stays unhashed only if somebody else had published it before |
| `Steps.ScheduleKeeps` | src/scheduler/scheduler.cpp:132-213 | a round keeps the invariant and emits a valid step within the budget |
| `Progressing.OnStepDoneKeeps` | src/scheduler/scheduler.cpp:215-253 | applying a step keeps the invariant in both modes |
| `Safety.AbortKeeps` | src/scheduler/scheduler.cpp:17-22 | a cancellation keeps the invariant |
| `Safety.EvictKeeps` | src/scheduler/scheduler.cpp:100-130 | an eviction keeps the invariant |
| `Safety.EvictShape` | src/scheduler/scheduler.cpp:100-130 | the victim is a finished resident if there is one, else the last resident, which returns to the head of the queue with nothing computed |
| `Safety.AddKeeps` | src/scheduler/scheduler.cpp:11-15 | an arrival keeps the invariant |
| `Ledger.AbortBooks` | src/scheduler/scheduler.cpp:17-31 | a cancellation keeps the accounts, with one repeated report exactly when it hits a resident already reported |
| `Ledger.OnStepDoneBooks` | src/scheduler/scheduler.cpp:215-253 | applying a step keeps the accounts |
| `Ledger.ScheduleBooks` | src/scheduler/scheduler.cpp:132-213 | a round keeps the accounts |
| `Engine.RunKeeps` | src/api/engine.cpp:246-324 | every run from the initial state keeps the invariant and the accounts |
| `KVCacheManagers.KVCacheManager.constructor` | src/kv_cache/block_allocator.cpp:8-14 | a fresh pool, low ids handed out first |
| `KVCacheManagers.KVCacheManager.Create` | src/kv_cache/block_allocator.cpp:11 | refuses a non-positive block count or block size |
| `KVCacheManagers.KVCacheManager.NumUsedBlocks` | include/engine/kv_cache.h:50-53 | used blocks, computed by subtraction, are the distinct blocks held by tables |
| `KVCacheManagers.KVCacheManager.TakeBlock` | src/kv_cache/block_allocator.cpp:25-35 | the new state and result are those of the specification; fails exactly on an empty pool |
| `KVCacheManagers.KVCacheManager.TouchCached` | src/kv_cache/block_allocator.cpp:37-40 | takes the block out of the LRU list if it is there |
| `KVCacheManagers.KVCacheManager.ReleaseBlock` | src/kv_cache/block_allocator.cpp:42-52 | the new state is that of the specification |
| `KVCacheManagers.KVCacheManager.HashFullBlock` | src/kv_cache/block_allocator.cpp:54-64 | the new state and table are those of the specification and the pool invariant holds |
| `KVCacheManagers.KVCacheManager.LookupCachedPrefix` | src/kv_cache/block_allocator.cpp:66-76 | the loop returns the specification's count |
| `KVCacheManagers.KVCacheManager.FindHits` | src/kv_cache/block_allocator.cpp:86-96 | the hits are the published blocks of the leading full blocks, in order |
| `KVCacheManagers.KVCacheManager.CountIdle` | src/kv_cache/block_allocator.cpp:97-100 | counts the hits nobody owns |
| `KVCacheManagers.KVCacheManager.AdoptHits` | src/kv_cache/block_allocator.cpp:103-106 | every hit gains an owner; at most the idle hits leave the available blocks, even if hashes collided |
| `KVCacheManagers.KVCacheManager.TakeFresh` | src/kv_cache/block_allocator.cpp:108-113 | takes exactly the fresh blocks asked for; the inner take never fails |
| `KVCacheManagers.KVCacheManager.AllocatePrompt` | src/kv_cache/block_allocator.cpp:78-116 | state, table and result are those of the specification; nothing changes on failure; the pool invariant holds with the new entries |
| `KVCacheManagers.KVCacheManager.EnsureSlot` | src/kv_cache/block_allocator.cpp:118-128 | state, table and result are those of the specification |
| `KVCacheManagers.KVCacheManager.CommitComputed` | src/kv_cache/block_allocator.cpp:130-137 | state and table are those of the specification |
| `KVCacheManagers.KVCacheManager.Free` | src/kv_cache/block_allocator.cpp:139-142 | state is that of the specification, the table is empty, the invariant holds for the other tables |
| `Schedulers.Scheduler.Add` | src/scheduler/scheduler.cpp:11-15 | the request is queued last |
| `Schedulers.Scheduler.Abort` | src/scheduler/scheduler.cpp:17-22 | the request is in neither list afterwards; if it was in one it is over with reason Abort, owns nothing, was reported once, and nobody else is touched; if it was in none nothing changed; the new state is also the specification's and the invariant holds |
| `Schedulers.Scheduler.Retire` | src/scheduler/scheduler.cpp:24-31 | blocks go back, the reason is recorded, one terminal callback |
| `Schedulers.Scheduler.AdmissionFits` | src/scheduler/scheduler.cpp:81-89 | decides the watermark check of the specification |
| `Schedulers.Scheduler.Adopt` | src/scheduler/scheduler.cpp:58-61 | allocates and counts the cached prefix but the last token as computed, or changes nothing |
| `Schedulers.Scheduler.Start` | src/scheduler/scheduler.cpp:63-73 | one prefill chunk, and the sequence becomes resident |
| `Schedulers.Scheduler.AdmitOne` | src/scheduler/scheduler.cpp:44-76 | admits what the specification's scan admits |
| `Schedulers.Scheduler.EvictForMemory` | src/scheduler/scheduler.cpp:100-130 | state and candidate lists are those of the specification; fails only with nobody resident |
| `Schedulers.Scheduler.SplitResidents` | src/scheduler/scheduler.cpp:145-149 | the unfinished residents, split by `prefill_done`, in running order |
| `Schedulers.Scheduler.PlaceDecodes` | src/scheduler/scheduler.cpp:155-162 | terminates with the specification's result and the invariant; an eviction that is needed never fails |
| `Schedulers.Scheduler.BuildPrefill` | src/scheduler/scheduler.cpp:166-169 | prefill chunks under the shrinking budget |
| `Schedulers.Scheduler.ExpireQueue` | src/scheduler/scheduler.cpp:176-189 | exactly the late queue members leave, end with Timeout and are reported in queue order; nobody else is touched |
| `Schedulers.Scheduler.BumpQueue` | src/scheduler/scheduler.cpp:192 | everybody queued has waited one more round |
| `Schedulers.Scheduler.AdmitWaiting` | src/scheduler/scheduler.cpp:191-206 | admission loop, closing of a static batch, rejection of the head |
| `Schedulers.Scheduler.AppendDecodes` | src/scheduler/scheduler.cpp:208-211 | one decode slice per placed sequence |
| `Schedulers.Scheduler.Schedule` | src/scheduler/scheduler.cpp:132-213 | computes the specification's round, emits a valid step within the budget, keeps the invariant and the resident limit |
| `Schedulers.Scheduler.Advance` | src/scheduler/scheduler.cpp:221-222 | counts the slice and publishes what it completed |
| `Schedulers.Scheduler.AppendToken` | src/scheduler/scheduler.cpp:227-244 | appends, reports, and ends the sequence on a stop token or at `max_tokens` |
| `Schedulers.Scheduler.ApplySlices` | src/scheduler/scheduler.cpp:216-245 | applies all slices in order, consuming one sample per logits slice |
| `Schedulers.Scheduler.OnStepDone` | src/scheduler/scheduler.cpp:215-253 | computes the specification's transition and keeps the invariant |
| `Schedulers.Scheduler.ReleaseBatch` | src/scheduler/scheduler.cpp:247-252 | releases every member of a finished static batch and reopens it |
| `PagedModels.FindSlot` | include/engine/kv_cache.h:28-31 | the slot of a position, inside the cache |
| `PagedModels.FlattenStep` | src/model/cpu/cpu_model.cpp:107-118 | one entry per token in slice order, and the last row of each slice that wants logits |
| `PagedModels.PagedModel.WriteTokens` | src/model/cpu/cpu_model.cpp:148-158 | stores every packed token's K/V through its table and changes no other layer |
| `PagedModels.PagedModel.Gather` | include/engine/ops.h:95-102 | reads back positions 0 to `pos` through the block table |
| `PagedModels.PagedModel.SampleStep` | src/model/sampler.cpp:78-88 | samples the rows in slice order, each with its own settings |
| `PagedModels.PagedModel.Forward` | src/model/cpu/cpu_model.cpp:98-214 | computes the specification's pass |
| `EngineLoop.Loop.Turn` | src/api/engine.cpp:301-312 | schedule, forward, sample, apply: exactly one transition of the runs that the theorems are about |
| `EngineLoop.Loop.Submit` | src/api/engine.cpp:79-98 | accepts exactly the non-empty requests that fit the pool and the context; accepted requests always fit |
| `EngineLoop.Loop.Cancel` | src/api/engine.cpp:293 | exactly the cancellation transition, with the same exact effect |
| `EngineLoop.Loop.Finish` | src/api/engine.cpp:71-77 | unless the engine is stuck, which it never is in continuous mode: with nobody late the loop ends with nothing queued or resident; with no explicit watermark every request that was queued or resident has its complete reference output |
| `ThreadPool.PartsPartition` | include/engine/parallel.h:72-77 | every index below the count is in exactly one part, no other index in any |
| `ThreadPool.ExactlyOnce` | include/engine/parallel.h:51-91 | in every interleaving every returned call has run its body exactly once on each index below its count and on no other |
| `ThreadPool.ReturnsLast` | include/engine/parallel.h:63-65 | a call returns only when no worker is still in it |
| `ThreadPool.NoTornReads` | include/engine/parallel.h:54-60 | a worker inside its part sees the published count and body of the call in progress, never while they are rewritten |
| `ThreadPool.MutualExclusion` | include/engine/parallel.h:79-91 | at most one thread holds the mutex |
| `ThreadPool.NoDeadlock` | include/engine/parallel.h:51-91 | whenever a call or the shutdown is in progress some thread can move by itself, so no wake-up is lost |
| `ThreadPool.BoundedMoves` | include/engine/parallel.h:51-91 | however the threads are scheduled, without spurious wake-ups they make at most a fixed number of moves, so every call returns and every shutdown ends |
| `ThreadPool.RunInv` | include/engine/parallel.h:23-102 | every legal interleaving, spurious wake-ups included, keeps the protocol invariant |
| `AttentionKernels.PagedAttentionHead` | include/engine/ops.h:87-111 | the two-pass loops compute the softmax-weighted value of positions 0 to `pos` |
| `AttentionKernels.AttentionDecode` | src/kernels/attention_decode.cu:79-131 | strided online softmax and the merge tree compute the same value, for every history length and block table |
| `AttentionKernels.Walk` | src/kernels/attention_decode.cu:84-102 | one thread's walk summarises exactly its strided positions |
| `AttentionKernels.MergeTree` | src/kernels/attention_decode.cu:107-123 | pairwise merging leaves the summary of the whole history in row 0 |
| `AttentionKernels.StridesJoin` | src/kernels/attention_decode.cu:110-122 | halving the stride joins two disjoint sets of positions |
| `Softmax.UpdateSummarises` | src/kernels/attention_decode.cu:94-101 | the online update summarises one more position |
| `Softmax.MergeSummarises` | src/kernels/attention_decode.cu:112-120 | merging two partials summarises the union; an empty partial is neutral; the grouping does not matter |
| `Softmax.SumQuotient` | include/engine/ops.h:103-110 | the quotient does not depend on the score that is subtracted |
| `AttentionGqa.WarpAllSum` | src/kernels/attention_decode_gqa.cu:75-83 | the xor butterfly leaves the total in every lane |
| `AttentionGqa.SharedScore` | src/kernels/attention_decode_gqa.cu:149-152 | the lanes' partial products add up to the whole dot product |
| `AttentionGqa.WarpWalk` | src/kernels/attention_decode_gqa.cu:134-161 | one warp's walk summarises its strided positions for every head of the group |
| `AttentionGqa.AttentionDecodeGqa` | src/kernels/attention_decode_gqa.cu:124-197 | every query head of the group gets the same value as the reference |
| `AttentionGqa.HeadNames` | src/kernels/attention_decode_gqa.cu:117-121 | query head kv * group + h is served by KV head kv, each head by exactly one |
| `AttentionGqa.OneAttention` | include/engine/ops.h:78-86 | the kernels' and the reference's outputs are equal |
| `DeviceTables.UploadStepIndices` | src/model/cuda/cuda_model.cu:453-473 | every token finds its own sequence's block table at its offset in the concatenation, and its write slot is where its own table puts its position, inside the cache |
| `DeviceTables.SameSlot` | src/kernels/attention_decode.cu:69 | up to the last position the table covers, reading through the concatenation gives the slots of the sequence's own table |
| `DeviceTables.WrittenIsRead` | src/model/cuda/cuda_model.cu:472 | the slot a token writes to is the slot the kernel reads at the token's own position |
| `DeviceTables.DeviceAgrees` | src/kernels/attention_decode.cu:69 | attention through the concatenation and offset is attention over the sequence's own table, in both directions |
| `DeviceTables.LaunchDecode` | src/kernels/attention_decode.cu:46-131 | the decode kernel, reading through the uploaded indices, gives every packed token the attention over its own sequence's table |
| `DeviceTables.LaunchDecodeGqa` | src/kernels/attention_decode_gqa.cu:88-197 | the same for every query head of a group in the grouped-query kernel |
| `Bpe.SameTokens` | src/tokenizer/tokenizer.cpp:224-242 | merging every occurrence of the best pair per pass gives the same tokens as merging the leftmost lowest-ranked pair one at a time, if every merge ranks after the merges that produce its parts |
| `Bpe.OrderMatters` | src/tokenizer/tokenizer.cpp:224-242 | a merge table without that order on which the two differ |
| `Bpe.NothingLeft` | src/tokenizer/tokenizer.cpp:225-241 | no mergeable pair remains |
| `Bpe.FindBest` | src/tokenizer/tokenizer.cpp:226-232 | the scan finds the leftmost pair of lowest rank |
| `Bpe.ApplyPair` | src/tokenizer/tokenizer.cpp:234-239 | replaces every occurrence, left to right |
| `Bpe.BpeMerge` | src/tokenizer/tokenizer.cpp:224-242 | terminates with the one-by-one result under that order, and nothing mergeable left |
| `PreTokenizer.FirstMatch` | src/tokenizer/tokenizer.cpp:176-220 | at every position the program's choice is the first choice of a backtracking matcher for the seven-alternative pattern; the fallback is unreachable |
| `PreTokenizer.PiecesCover` | src/tokenizer/tokenizer.cpp:165-167 | the pieces are not empty and concatenate to the text |
| `PreTokenizer.NextPiece` | src/tokenizer/tokenizer.cpp:177-219 | one turn of the loop ends where the pattern's first match ends |
| `PreTokenizer.PreTokenize` | src/tokenizer/tokenizer.cpp:168-222 | the split is the pattern's split |
| `Utf8.DecodeEncoded` | src/tokenizer/tokenizer.cpp:33-50 | decoding at an encoded code point returns it and its length |
| `Utf8.DecodeAll` | src/tokenizer/tokenizer.cpp:52-56 | decoding an encoded text returns its code points |
| `Utf8.CutAround` | src/tokenizer/tokenizer.cpp:291-311 | cutting encoded text at an occurrence of encoded text splits no code point |
| `Tokenizer.BuildByteTable` | src/tokenizer/tokenizer.cpp:65-79 | the byte alphabet the constructor builds |
| `Tokenizer.SymbolInjective` | src/tokenizer/tokenizer.cpp:65-79 | no two bytes share a symbol |
| `Tokenizer.DecodeSymbols` | src/tokenizer/tokenizer.cpp:336-343 | decoding the symbols of bytes returns the bytes |
| `Tokenizer.EncodeWord` | src/tokenizer/tokenizer.cpp:244-254 | a word's tokens decode to the word |
| `Tokenizer.EncodeChunk` | src/tokenizer/tokenizer.cpp:256-263 | the chunk's tokens are, piece by piece of the pattern's split of its code points, the merged tokens of the piece's bytes; and they decode to the chunk |
| `Tokenizer.FindAdded` | src/tokenizer/tokenizer.cpp:296-300 | the leftmost added token, the longest of those at that place, the first listed of equals |
| `Tokenizer.Encode` | src/tokenizer/tokenizer.cpp:291-311 | the text is cut at the best added token from the end of the one before it, again and again; the ids are the chunk encodings of what lies between and the added tokens' ids, in order; and decode(encode(text)) = text for every well-formed text |
| `Tokenizer.EncodedOnce` | src/tokenizer/tokenizer.cpp:291-311 | that description leaves exactly one list of ids |
| `Sampler.WindowIsRanking` | src/model/sampler.cpp:46-59 | however the window is ordered, it is the beginning of the full ranking |
| `Sampler.CloseNucleus` | src/model/sampler.cpp:60-62 | adds up the window until `top_p` is reached |
| `Sampler.FindNucleus` | src/model/sampler.cpp:50-66 | the widening window ends with the full ranking's nucleus, size and mass |
| `Sampler.SampleTopP` | src/model/sampler.cpp:27-71 | the drawn token is that of the full ranking's nucleus: the first whose cumulated mass reaches the drawn number, the last kept one if none does, for every distribution and every draw |
| `Sampler.NucleusIs` | src/model/sampler.cpp:60-65 | the nucleus is as many leading tokens as it takes to reach `top_p`, all of them if that is never reached |
| `Sampler.DrawnOnce` | src/model/sampler.cpp:67-70 | the draw is determined by the number |
| `Sampler.DrawnShare` | src/model/sampler.cpp:67-70 | with no negative probability, a kept token is drawn exactly for the numbers between the mass before it and the mass with it, an interval as long as its probability |
| `Sampler.SmallestNucleus` | src/model/sampler.cpp:50-66 | the nucleus reaches `top_p`, and no smaller set of tokens does |
| `Sampler.RankingUnique` | src/model/sampler.cpp:30-37 | the tie-break makes the ranking unique |
| `Schedulers.Scheduler.SplitQueue` | src/scheduler/scheduler.cpp:178-187 | the late and the punctual queue members, each in queue order |
| `Schedulers.Scheduler.TryAdopt` | src/scheduler/scheduler.cpp:53-61 | allocates only if the watermark check passes; otherwise nothing changes |
| `Schedulers.Scheduler.FindFinished` | src/scheduler/scheduler.cpp:106-107 | the last finished resident |
| `Schedulers.Scheduler.ReleaseFinished` | src/scheduler/scheduler.cpp:108-113 | a finished resident gives its blocks back and is counted |
| `Schedulers.Scheduler.PreemptYoungest` | src/scheduler/scheduler.cpp:116-128 | the youngest resident returns to the head of the queue with nothing computed, and what it had computed is counted as lost |
| `Schedulers.Scheduler.GrowFor` | src/scheduler/scheduler.cpp:157 | one more slot for a decoding sequence, or the pool is dry |
| `Schedulers.Scheduler.Settle` | src/scheduler/scheduler.cpp:135-162 | the step count, the reopened static batch, and who keeps a place |
| `Schedulers.Scheduler.RetireFinished` | src/scheduler/scheduler.cpp:246 | ends what finished in this step, in order |
| `Schedulers.Scheduler.AllDone` | src/scheduler/scheduler.cpp:248 | whether every resident is finished |
| `KVCacheManagers.KVCacheManager.NextHash` | src/kv_cache/block_allocator.cpp:91 | the chained hash of a block from that of its predecessor |
| `KVCacheManagers.KVCacheManager.Reuse` | src/kv_cache/block_allocator.cpp:104 | one more owner for a published block, which leaves the LRU list; the pool invariant holds |
| `PagedModels.PagedModel.EmbedTokens` | src/model/cpu/cpu_model.cpp:120-123 | the embedding of every packed token |
| `PagedModels.PagedModel.AttendTokens` | src/model/cpu/cpu_model.cpp:173-182 | every token attends over its own history |
| `AttentionKernels.ScoreAll` | include/engine/ops.h:94-102 | every score, and their maximum |
| `AttentionKernels.Exponentiate` | include/engine/ops.h:103-104 | every weight, and their sum |
| `AttentionKernels.AddPosition` | include/engine/ops.h:106-110 | one position's normalised contribution |
| `AttentionKernels.UpdateRow` | src/kernels/attention_decode.cu:96-101 | the loop computes the online update |
| `AttentionKernels.MergeRound` | src/kernels/attention_decode.cu:110-122 | one round of the tree halves the number of rows and loses no position |
| `AttentionKernels.MergeRows` | src/kernels/attention_decode.cu:112-120 | the loop computes the merge of two partials |
| `AttentionKernels.Normalise` | src/kernels/attention_decode.cu:125-130 | dividing the summary of the whole history by its sum gives the attention output |
| `AttentionGqa.ExchangeLanes` | src/kernels/attention_decode_gqa.cu:81 | each lane adds the value of the lane that differs in one bit |
| `AttentionGqa.LaneDot` | src/kernels/attention_decode_gqa.cu:150-151 | the products of the dimensions one lane owns |
| `AttentionGqa.UpdateGroup` | src/kernels/attention_decode_gqa.cu:149-160 | every head of the group is updated with one position |
| `AttentionGqa.MergeWarps` | src/kernels/attention_decode_gqa.cu:174-196 | merging the warps in order and normalising gives the head's output |
| `PreTokenizer.FindRun` | src/tokenizer/tokenizer.cpp:190 | the end of the longest run of a class |
| `PreTokenizer.FindLastNewline` | src/tokenizer/tokenizer.cpp:210-211 | the last newline of a run |
| `Tokenizer.ToCodePoints` | src/tokenizer/tokenizer.cpp:52-56 | the loop decodes the whole text |
| `Tokenizer.FindIn` | src/tokenizer/tokenizer.cpp:298 | the first occurrence at or after a position |
| `Sampler.OrderWindow` | src/model/sampler.cpp:53-59 | a permutation whose first k entries are in order and before all others |
| `Sampler.DrawToken` | src/model/sampler.cpp:67-70 | the first kept token whose cumulated mass reaches the drawn number, the last one if none does |

## Left out

- Pointers: sequences live in a map keyed by id and block tables are passed by value, so aliasing between
  shared pointers is not captured.
- `lru_pos_`, which only finds a list node quickly, and the cache statistics counters.
- Time stamps, token times and wall-clock deadlines; expiry is an arbitrary set of late requests.
- Sampling with seed 0 and a positive temperature, which the program makes nondeterministic on purpose.
- Integer widths: counters, ids, generations and hashes are unbounded.
- Projections, norms, rotary embedding and activation inside a layer, and all floating-point rounding.
- Bpe.SameTokens: gives a sufficient condition only; without it a counterexample is given, and which merge
  tables without that order still agree depends on chains of merges, for which no simpler description was found.
- ThreadPool.BoundedMoves: counts no spurious wake-ups; with spurious wake-ups the other results still hold,
  but their number is up to the system.
- AttentionKernels.AttentionDecode: threads that write disjoint rows between two barriers run in index order,
  and the caches are indexed by slot, head and dimension instead of one flat offset.
- AttentionGqa.AttentionDecodeGqa: the same, and the accumulator slices of a warp's lanes are kept as one row.
- Sampler.SampleTopP: takes the normalised probabilities as given, with exact sums; `nth_element` and `sort`
  on the window are one selection loop with their combined contract.
- PreTokenizer.PreTokenize: folds ASCII case only in contractions, as the program does.
- Greedy sampling and sampling without `top_p`, which would only add easy members.
- The Metaspace tokenizer family, chat templates, loading of vocabularies and weights.
- HTTP, streaming, metrics, health reporting, the engine's thread, inbox and shutdown timing.
- Block-waste gauge, benchmarks, deployment and the other kernels.
