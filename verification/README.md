# Scheduling, paged KV and serving logic of the decode megakernel runtime

A Dafny model of the host-side logic around the persistent decode kernel, with proofs.
Five components share their definitions:

- **Persistent-kernel schedule.** The waves that the host builds layer by layer, their
  placement on SM lists (plain and affinity round robin), the work queues and the counting
  barriers, run by SMs in any interleaving. Proved: the schedule never gets stuck and every
  run finishes, exactly for models of two layers or more whose K splits all have a tile;
  every wait target is the exact number of arrivals; whatever reads anything in a layer
  starts after the layers before it; every task that is called for stands in the schedule
  exactly once; and there is no data race on any scratch buffer, exactly under a condition
  on lengths, windows and split counts. Around it: split policies, the live drain queue,
  context buckets and shared schedules.
- **Paged KV manager.** The pool of counted blocks with its linked free queue and prefix
  cache, and the per-handle page tables, as classes proved against functions on values.
  Over every sequence of operations, errors included, counts, free queue and prefix index
  agree; and what each operation does to every page is stated in tokens and windows.
- **Row lifecycle.** One state machine for attach, prepare, chunked prefill, publish, decode,
  free and geometry switch, with what every page holds. Every attended position is mapped
  and holds the row's own tokens; published pages never change; the admission charge is
  never exceeded; the decode loop's pressure gate is sufficient.
- **Continuous-batching session.** Requests, queue, rows, preemption, geometry switch,
  cancellation and shutdown, with clients and decode steps between any two scheduler steps.
- **Prefill and server algorithms.** Prefix keys and the longest attachable prefix, expert
  bucketing under any order of atomic adds, and the streaming stop filter against its
  offline specification.

The kernel is modelled by its waits and arrivals and by the buffers each instruction
touches. Keys are an injective chain over (parent, block tokens). A key/value entry is
identified by its layer and the token prefix it depends on.

## Findings

- With one layer the schedule cannot finish (`DecodeProgress.OneLayerHangs`).
- Nor can it when a K split is left without a tile, which the host does not refuse
  (`KSplits.FinishesIffSplitsFit`, `KSplits.TwelveOfSixteen`).
- An attention split that has nothing to read waits for nothing and writes its partial at
  once, so it can run while earlier layers still compute (`SplitRaces.OverlapFreeIff`).
  Partials have no layer index. The step is free of data races exactly when no such split of
  an active row shares its partial with an earlier layer (`SplitRaces.RaceFreeIff`); a row
  of one block already breaks that (`SplitRaces.ShortRowRaces`). Then only zeros meet zeros;
  a live partial can be lost exactly when the earlier layer's split has something to read
  (`SplitRaces.HarmFreeIff`), as for a long row with a window of 4096 after a full layer
  (`SplitRaces.LongRowLoses`).
- Streaming and batch truncation differ when a stop contains another one before its last
  character and does not begin with one (`StopFilter.NestedStopsDisagree`); the exact
  condition for agreement is `StopFilter.AgreeIffCaughtEarly`.
- A request that is being admitted while the session stops is in neither list that the
  stop walks; if it would go on to decode, it is installed afterwards and gets no terminator
  (`SessionRuns.Orphan`), for ever if the session is not stopped again, as after a `close`
  whose joins succeed (`SessionRuns.AdmittedTooLate` is the exact condition). After a
  failure, a later `close` still ends it (`Session.Session.FailSession`).
- A row whose request has reached its limit, or was cancelled, keeps decoding until the
  scheduler parks the loop; only its column is guarded, not its position. If the prompt and
  `session_max_new` together exceed the page table, enough such steps make the KV manager
  refuse the position, which ends the service and fails every request
  (`SessionRuns.Overrun`). It cannot happen exactly when prompt plus `session_max_new` minus
  one fits (`SessionRuns.WithinIff`); the server sets `session_max_new` to the context, so
  with a context of whole pages that holds for one-token prompts only. Rows that still
  stream are always inside (`Session.Session.StreamsInside`).

## Model

| member | source | states |
|---|---|---|
| `Machine.RunInv` | src/decode/megakernel.cuh:3097-3128 | Over every interleaving of SMs running their own lists in order: each counter equals the number of finished instructions that arrive on it, each queue entry is claimed once and held by one SM, and grid barriers keep one generation |
| `History.RunHistory` | src/decode/megakernel.cuh:2109-2125 | In every reachable state, whatever has run had all its wait targets met when it started, and whoever claims from a drain queue has passed that drain's own gate |
| `Progress.SomeoneCanStep` | src/decode/megakernel.cuh:3097-3128 | For any program laid out by a plan in which every node's waits are supplied by earlier nodes: in every reachable state with work left, some SM can step |
| `Progress.AllProducersFired` | src/decode/megakernel.cuh:2109-2125 | Once a wait is satisfied whose target is the counter's grand total, every instruction that arrives on that counter has run |
| `Progress.RunsAreShort` | src/decode/megakernel.cuh:3097-3128 | No run is longer than twice the number of instructions plus the number of SMs, so none goes on for ever |
| `WaveArrivals.QkvHits` | src/decode/schedule.py:1604-1636 | The arrivals of the QKV wave on the counter of a KV head are exactly the target that attention waits for |
| `WaveArrivals.OprojHits` | src/decode/schedule.py:1025-1047 | The O_PROJ wave makes dTiles times splits arrivals on its layer's counter and none elsewhere |
| `WaveArrivals.UpgateHits` | src/decode/megakernel.cuh:1181-1186 | The dense up/gate wave gives each down split exactly the tiles it waits for, through the slot the kernel substitutes |
| `WaveArrivals.CombineWaveHits` | src/decode/schedule.py:1702-1718 | The combine wave gives each O_PROJ split one arrival per row and KV head of its own |
| `WaveArrivals.QueueCombineHits` | src/decode/schedule.py:1222-1241 | The drained attention queue gives each (row, head) exactly as many arrivals as it has live splits |
| `LayerArrivals.AttnWavesHits` | src/decode/schedule.py:1683-1756 | Attention of a layer, drained or static, split or not, makes the same total of arrivals on the O_PROJ counters |
| `LayerArrivals.TotalHits` | src/decode/schedule.py:1507-1877 | Every counter's grand total over the whole schedule, layer by layer |
| `MoeQueues.UpQueueHits` | src/decode/megakernel.cuh:2600-2696 | The device-built up queue arrives on an expert's row block exactly as often as the down tasks of that block wait for |
| `MoeQueues.DownTaskSupply` | src/decode/megakernel.cuh:2600-2696 | Every entry of the down queue waits for exactly the up tasks of its own block |
| `DecodeSupply.AllMet` | src/decode/schedule.py:1507-1877 | Every wait of every wave is met by the arrivals of the waves before it |
| `DecodePlan.PlanRealised` | src/decode/schedule.py:1244-1267 | Waves placed on SMs in any way form one plan whose per-SM lists and queues are the program that runs |
| `SyncPlan.PlanAligned` | src/decode/schedule.py:1258-1265 | With the ablation on, every SM meets every GRID_SYNC generation at the same point of the schedule |
| `DecodeProgress.NeverStuck` | src/decode/schedule.py:1507-1877 | Progress: for every model of two layers or more whose heads are whole QKV tiles and whose K splits all have a tile, and every placement, with or without GRID_SYNC, some SM can step until all are finished |
| `DecodeProgress.EveryRunFinishes` | src/decode/megakernel.cuh:3097-3128 | Every partial run extends to a finished one within a fixed number of steps |
| `DecodeProgress.OneLayerHangs` | src/decode/schedule.py:1861-1876 | With one layer no run finishes: the LM head waits for twice the arrivals its counter gets |
| `DecodeProgress.FinishesIffTwoLayers` | src/decode/schedule.py:1861-1876 | A run that finishes exists exactly when the model has at least two layers |
| `KSplits.FinishesIffSplitsFit` | src/decode/megakernel.cuh:698-715 | With the K tiles of the split GEMMs: a run that finishes exists exactly when the model has two layers and every router, O_PROJ and FFN_DOWN split that the schedule uses has a K tile |
| `KSplits.TwelveOfSixteen` | src/decode/schedule.py:993-1022 | Settings that the host accepts and that leave splits without a K tile |
| `HappensBefore.ProducersDone` | src/decode/megakernel.cuh:2109-2125 | A met wait whose target is the counter's total implies that every producer is done |
| `HappensBefore.LayerProducersDone` | src/decode/megakernel.cuh:2109-2125 | The same within one layer, for counters that belong to a layer |
| `SplitBlocks.EmptyIff` | src/decode/megakernel.cuh:1631-1650 | A split has nothing to read exactly when the splits before it already take all blocks of the window |
| `SplitBlocks.EachBlockOnce` | src/decode/megakernel.cuh:1631-1650 | The splits share the window out: each block that holds a token the query attends is read by exactly one split, any other block by none |
| `AttnEntry.Enters` | src/decode/megakernel.cuh:1668-1735 | Whatever may start in a layer and reads anything, its layer's input has been waited for, through any chain of counters |
| `LayerComplete.LayerJoined` | src/decode/megakernel.cuh:2829-2971 | Before the norm of an active row may start, every other instruction of its layer has finished |
| `LayerOrder.LastJoinsLast` | src/decode/schedule.py:1808-1844 | On the last layer's shared counter, which two layers feed, the first `batch` arrivals come only from the layer before |
| `LayerOrder.InputJoined` | src/decode/schedule.py:1604-1618 | Once a layer has been entered, every norm of the layer before has joined |
| `LayerOrder.LayersDoNotOverlap` | src/decode/megakernel.cuh:2829-2971 | Nothing of a layer that reads anything starts before everything of all earlier layers has finished |
| `OneOfEach.EachTaskOnce` | src/decode/schedule.py:1507-1877 | No task of the schedule, queue entries included, stands at two nodes of the plan; only claimers and barriers repeat |
| `EveryTask.PlanIsComplete` | src/decode/schedule.py:1507-1877 | A task stands in the plan exactly if it is called for: every tile of every projection, router, feed-forward and LM-head GEMM in each K split, every split of every attention row and head and its combine, every up and down tile of every block of rows routed to an expert, one join per row and layer |
| `EveryTask.TasksExactlyOnce` | src/decode/schedule.py:1507-1877 | So each of them is one node of the plan, and no other task is any |
| `EveryTask.ClaimersStand` | src/decode/schedule.py:1683-1756 | Each work queue of a layer has all of its claimers |
| `Buffers.ClashesAreOrdered` | src/decode/megakernel.cuh:405-440 | Any two different instructions that touch one scratch cell, not both reading nor both adding, stand in different phases or layers |
| `NoRaces.RaceIsOverwrite` | src/decode/megakernel.cuh:1668-1707 | Of any two nodes of the plan that touch one cell, not both reading nor both adding, one has finished once both may start; unless the cell is a partial that an empty split of the later layer overwrites |
| `NoRaces.NoRace` | src/decode/megakernel.cuh:3097-3128 | So there is none when no empty split of an active row shares its partial with an earlier layer |
| `NoRaces.RacesAreBlank` | src/decode/megakernel.cuh:1668-1707 | When empty splits share partials only with empty splits, whatever is unordered only writes or reads zeros |
| `SplitRaces.OverlapFreeIff` | src/decode/megakernel.cuh:1668-1707 | Layers do not overlap, over every placement, number of claimers and run, exactly when no attention task after layer 0 is idle |
| `SplitRaces.RaceFreeIff` | src/decode/megakernel.cuh:1668-1707 | No two SMs are ever about to touch one cell in conflict, over every placement, number of claimers and run, exactly when no empty split of an active row shares its partial with an earlier layer |
| `SplitRaces.HarmFreeIff` | src/decode/megakernel.cuh:1668-1707 | Such a conflict never concerns anything but zeros exactly when empty splits share partials only with empty splits of earlier layers |
| `SplitRaces.OverwriteRaces` | src/decode/megakernel.cuh:1917-1955 | For every empty split that shares its partial with an earlier layer, a placement and a run in which both layers' tasks on it are about to run at once |
| `SplitRaces.ShortRowRaces` | src/decode/schedule.py:53-55 | A row of at most one block gives such a conflict between any two drained layers; it concerns zeros only |
| `SplitRaces.LongRowLoses` | src/decode/megakernel.cuh:1631-1650 | A row of 65536 tokens, a drained layer with 16 splits and a later layer of window 4096 with 16 splits give one that can lose a live partial |
| `SplitRaces.LongRowChosen` | src/decode/schedule.py:1066-1181 | The host chooses these split counts |
| `Placement.ListsAreTheProgram` | src/decode/schedule.py:1270-1284 | A placement's lists compile to exactly the program for which progress and ordering are proved |
| `Placement.RoundRobinWaves` | src/decode/schedule.py:1244-1267 | Every instruction is placed once, in wave order on every SM, each SM gets its quota, and within each wave the shares of two SMs differ by at most one; a GRID_SYNC per SM stands between waves when asked for |
| `Affinity.SortedFacts` | src/decode/schedule.py:1339-1348 | The likely-late candidates are the producers themselves, deepest list first, ties in cursor order |
| `Affinity.ChooseSm` | src/decode/schedule.py:1350-1382 | A preferred SM with quota left is taken whenever there is one, with the fewest rows of the wave and the first such in the list; otherwise the least loaded open SM nearest the cursor; it fails exactly when no quota is left |
| `Affinity.PreferredRanFor` | src/decode/schedule.py:1384-1460 | The SMs a consumer would like are exactly those that its producers ran on: attention splits for a static combine, router tiles for top-k, top-k rows for the finalize and for a gather whose own row is placed |
| `Affinity.AffinityWaves` | src/decode/schedule.py:1287-1478 | The affinity scheduler never runs out of quotas, leaves none unused, places every instruction once in wave order, and loads every SM exactly as plain round robin does. Each instruction goes to an SM that ran one of its producers as long as any such SM has quota left, and within its choice to one with the fewest instructions of its wave |
| `Splits.ChooseGrows` | src/decode/schedule.py:1066-1098 | A longer context never gets fewer splits, and is refused exactly when a shorter one is |
| `Splits.ChooseFits` | src/decode/schedule.py:1066-1098 | More than one split only when each still covers the smallest chunk, an SM would idle otherwise, and the caps allow it |
| `SplitShares.ChooseIsGreatest` | src/decode/schedule.py:1066-1098 | The uniform policy takes the most splits for which the maximum, the short-context cap, one smallest chunk per split and the number of SMs allow it, counted on the tokens that are attended |
| `Splits.AttnDrainSplitsByRow` | src/decode/schedule.py:1101-1181 | The loops compute the ragged policy, or the uniform one without live lengths; both are refused exactly for a chunk that is no whole number of pages, and the ragged one also for lengths that do not match the batch, for a minimum above the maximum, and for no rows at all when more than one SM is to be kept busy |
| `Splits.RaggedBounds` | src/decode/schedule.py:1143-1181 | Every row gets between the minimum and the maximum number of splits |
| `Splits.LongerRowsGetMore` | src/decode/schedule.py:1164-1181 | Within a batch a longer row never gets fewer splits |
| `SplitShares.ShareOfRow` | src/decode/schedule.py:1143-1181 | The ragged share of a row is its pages divided by the grain, rounded half up, unless a limit binds: never more except for the minimum, never less except at the maximum, the short-context cap or the row's number of smallest chunks. The grain is the least number of pages that is a smallest chunk or more and makes at most k tasks per SM |
| `Splits.QueueBound` | src/decode/schedule.py:1164-1181 | Twice the queue length is at most 2 k num_sms + batch hkv + 2 min_splits batch hkv |
| `SplitShares.QueueReaches` | src/decode/schedule.py:1164-1181 | Where no limit binds, the queue holds all pages of all heads in grains, short of half a grain per row and head at most |
| `DrainQueue.BuildAttnDrainQueue` | src/decode/schedule.py:1184-1241 | The built queue is the row, head, split order that the kernel model drains |
| `DrainQueue.OneQueueServesAll` | src/decode/schedule.py:1222-1241 | The placeholder queue, patched at claim time, is each layer's own queue |
| `DrainQueue.LiveQueueFits` | src/decode/schedule.py:2458-2463 | The live queue is never empty, has two splits or more per row, and fits the buffer allocated for the worst case |
| `DrainQueue.DrainBuffers.Refresh` | src/decode/schedule.py:2254-2304 | Whether or not anything is uploaded, the kernel then reads exactly the queue of the current lengths; an upload happens exactly when the split counts changed |
| `Buckets.NextIsLeastAbove` | src/decode/schedule.py:1880-1887 | The next power of two is a power of two above n and no other one lies between |
| `Buckets.BucketUpper` | src/decode/schedule.py:1888-1896 | The smallest 1024 * 2^i that covers the length; refused exactly for lengths below one |
| `Buckets.LadderClimbs` | src/decode/schedule.py:1899-1916 | The ladder is strictly increasing and only its last rung reaches the top |
| `Buckets.LadderRungs` | src/decode/schedule.py:1899-1916 | Each rung is at most 4096 above the one before and at most any power of two above it, and is one of these |
| `Buckets.BucketUppers` | src/decode/schedule.py:1899-1916 | The loop terminates with the whole ladder, from the least 1024 * 2^i that covers the minimum up to the first rung that reaches the maximum |
| `Buckets.SameKeySameShape` | src/decode/schedule.py:1919-1951 | Two buckets with the same dedup key are scheduled identically |
| `Buckets.BuildRegistry` | src/decode/schedule.py:2098-2178 | The buckets are that ladder; however they share, each one holds the schedule that would have been built for it alone, under any placement |
| `Buckets.Select` | src/decode/schedule.py:2009-2021 | The least bucket that covers the context; refused on a closed registry and outside the range, and inside the range of a covering ladder it never fails |
| `Buckets.Serve` | src/decode/schedule.py:2107-2112 | Every context is served by the least bucket of the ladder that covers it, with that bucket's own schedule, which splits no layer less than the context alone would |
| `BlockPool.KVBlockPool.PushFreeTail` | src/kv/cache.cpp:156-165 | The intrusive list with head, tail and flags stays a spelling of the queue, with the block at the end |
| `BlockPool.KVBlockPool.RemoveFromFreeQueue` | src/kv/cache.cpp:167-177 | A block is taken out of any position, the rest keep their order |
| `BlockPool.KVBlockPool.PopFreeHead` | src/kv/cache.cpp:179-184 | The oldest free block, or none |
| `BlockPool.KVBlockPool.RemoveHash` | src/kv/cache.cpp:197-211 | The block's hash goes and the entry forgets it, or goes when nothing is left in it |
| `BlockPool.KVBlockPool.AcquireBlock` | src/kv/cache.cpp:213-224 | Takes the oldest free block, stripped of its old prefix; fails exactly when the queue is empty |
| `BlockPool.KVBlockPool.RetainBlock` | src/kv/cache.cpp:226-233 | One more reference; a free block leaves the queue from wherever it stands |
| `BlockPool.KVBlockPool.ReleaseBlock` | src/kv/cache.cpp:235-244 | One reference less; refused exactly on a bad id or at zero; the last one queues the block |
| `BlockPool.KVBlockPool.ClearPrefixCache` | src/kv/cache.cpp:607-614 | No entry and no hash is left; counts and queue are untouched |
| `KvInvariant.UnhashIndexed` | src/kv/cache.cpp:197-211 | Recycling a block keeps hashes and entries naming each other |
| `KvInvariant.AcquireOk` | src/kv/cache.cpp:213-224 | Acquiring keeps counts, queue and index |
| `KvInvariant.RetainOk` | src/kv/cache.cpp:226-233 | Retaining keeps counts, queue and index |
| `KvInvariant.ReleaseOk` | src/kv/cache.cpp:235-244 | Releasing a named block never underflows and keeps counts, queue and index |
| `KvOps.PrepareMaskedOk` | src/kv/cache.cpp:868-903 | Keeps the invariant even when it throws midway, and never underflows |
| `KvEffects.PrepareEffect` | src/kv/cache.cpp:868-903 | Preparing that goes through: each row of the mask has its length set and its range mapped in every layer, nothing is unmapped, every other row is as before |
| `KvEffects.PrepareRangeIff` | src/kv/cache.cpp:884-899 | The range holds a page exactly if it has a token of the prompt and, in a sliding layer, one of its last window |
| `KvOps.StepChunkOk` | src/kv/cache.cpp:905-945 | Keeps the invariant even when it throws midway, and never underflows |
| `KvEffects.ChunkEffect` | src/kv/cache.cpp:905-945 | A chunk that goes through: in its layer, rows of the mask lose exactly the pages from the mark up to the cut, if the layer slides, and have the pages of the chunk mapped; everything else is as before |
| `KvEffects.ChunkCutIff` | src/kv/cache.cpp:503-516 | A page is below the chunk's cut exactly if whole tiles of 128 tokens that cover it end no later than the first token attended |
| `KvOps.StepDecodeOk` | src/kv/cache.cpp:531-583 | Keeps the invariant even when it throws midway, and never underflows |
| `KvEffects.DecodeEffect` | src/kv/cache.cpp:531-583 | A decode step that goes through: each row of the mask is active with its position as length; in each of its sliding layers every page from the mark up to the cut is gone and the mark is the maximum of old mark and cut, full layers lose nothing, and the write page is mapped in all layers; every other row is switched off and keeps its pages |
| `KvEffects.DecodeCutIff` | src/kv/cache.cpp:552-565 | A page is below the decode cut exactly if its last token lies a window or more behind the position |
| `KvOps.AttachBatchOk` | src/kv/cache.cpp:641-728 | Keeps the invariant; all or nothing, and never underflows |
| `PrefixEffects.AttachEffect` | src/kv/cache.cpp:641-728 | Attaching happens exactly if no place repeats and every item passes the test; then each named place holds the cached page in every layer that keeps one, and every other page, mark, length and flag is as before; otherwise nothing changes |
| `KvOps.PublishOk` | src/kv/cache.cpp:749-791 | Keeps hashes and entries naming each other |
| `PrefixEffects.PublishEffect` | src/kv/cache.cpp:749-791 | A block enters the cache exactly if its key is new, some layer keeps a page and no page is hashed otherwise; its pages, and no others, then carry the key |
| `PrefixEffects.PublishedAttaches` | src/kv/cache.cpp:255-276 | A published block then passes the attach test at a place exactly if each layer has its page, or slides and may do without one there |
| `KvOps.FreeRowOk` | src/kv/cache.cpp:950-977 | Keeps the invariant and never underflows |
| `KvFree.FreeRowPages` | src/kv/cache.cpp:950-977 | The freed row has no page and no eviction mark, every other row is as it was |
| `KvFree.LaterPagesFirst` | src/kv/cache.cpp:950-967 | In the queue after free_row, of two unshared pages of one layer the later logical block comes first, so it is recycled first |
| `KvRebind.RebindIsIdentity` | src/kv/cache.cpp:982-1064 | A geometry switch is the identity on every carried row (pages, eviction marks, length, flag), the other new rows are empty, and every count grows by exactly the new names |
| `KvRuns.EveryRunKeeps` | src/kv/cache.cpp:213-244 | Over every sequence of operations on any number of handles: each count equals the page-table slots naming the block, free means count zero, hashes and entries agree, and the peak bounds the active count |
| `KvRuns.AllBlocksReturn` | src/kv/cache.cpp:435-450 | Once every handle is closed every block is free again |
| `KvRuns.EntriesAreLive` | src/kv/cache.cpp:255-276 | In every reachable state the hash test of an attach never fails: whatever an entry names is still hashed with its key |
| `PagedHandle.KvHandle.Open` | src/kv/cache.cpp:300-378 | Opening retains every block its table names, or refuses the table |
| `PagedHandle.KvHandle.EnsureBlocksForRow` | src/kv/cache.cpp:452-478 | The loop maps the missing pages of the range in order and stops where the pool runs dry |
| `PagedHandle.KvHandle.EvictBelowPage` | src/kv/cache.cpp:480-500 | Only sliding layers drop pages, from the mark up to the cut, and the mark only moves up |
| `PagedHandle.KvHandle.PreparePrefillMasked` | src/kv/cache.cpp:868-903 | All masked rows are checked first, then mapped row by row and layer by layer |
| `PagedHandle.KvHandle.StepPrefillChunkMasked` | src/kv/cache.cpp:905-945 | Rows are first cut and then mapped, only for a non-empty chunk in range |
| `PagedHandle.KvHandle.StepDecodePositions` | src/kv/cache.cpp:531-568 | The loops refine the decode step on values, whose effect on every page is `KvEffects.DecodeEffect`: positions are checked first, then each row is cut and given its write page in every layer |
| `PagedHandle.KvHandle.FreeOneRow` | src/kv/cache.cpp:950-977 | Pages are released from the last block down, then marks, length and flag are reset |
| `PagedHandle.KvHandle.ReleaseAllBlocks` | src/kv/cache.cpp:436-450 | The destructor's release of every page |
| `PagedHandle.KvHandle.PrefixAttachBatch` | src/kv/cache.cpp:641-728 | Two passes: nothing changes unless every item can attach |
| `PagedHandle.KvHandle.PrefixPublish` | src/kv/cache.cpp:749-791 | An entry appears exactly when the block has pages, none hashed otherwise and no entry exists |
| `PagedHandle.KvHandle.RebindRows` | src/kv/cache.cpp:982-1064 | The new handle copies the chosen rows and retains every page it copies |
| `PrefixKeys.KeySpells` | src/prefill/torch_prefill.py:438-457 | The key of n blocks spells exactly the first n blocks |
| `PrefixKeys.SameKeyIffSamePrefix` | src/prefill/torch_prefill.py:438-457 | Two prompts share a key exactly when they agree on everything up to that block |
| `PrefixKeys.PrefixBlockKeys` | src/prefill/torch_prefill.py:438-457 | One key per full block that leaves a token, each chained to the one before |
| `PrefixSearch.AttachableIff` | src/prefill/torch_prefill.py:460-530 | A prefix is attachable exactly when its tail is and the full layers have the rest |
| `PrefixSearch.LongestStem` | src/prefill/torch_prefill.py:511-519 | The binary search finds the longest stem when full-layer availability is downward closed |
| `PrefixSearch.LongestAttachable` | src/prefill/torch_prefill.py:511-530 | Search and shrinking return the greatest length whose every block passes the attach test |
| `PrefixSearch.AttachGoesThroughIff` | src/prefill/torch_prefill.py:560-571 | The all-or-nothing attach for any number of rows succeeds exactly when every row's length is attachable |
| `PrefixSearch.AttachFailsOnlyOnHoles` | src/prefill/torch_prefill.py:533-572 | The batch attach of the lengths the search proposes succeeds exactly when no row has a hole in its full layers below its window |
| `PrefixSearch.SomeTokenLeft` | src/prefill/torch_prefill.py:450-457 | At least one prompt token is always left to compute |
| `RowLife.FillKeeps` | src/kv/cache.cpp:452-478 | Mapping a fresh page past everything written keeps the row invariant |
| `RowLife.DropKeeps` | src/kv/cache.cpp:480-500 | A page no later token attends may go |
| `RowLifeSteps.KeepFromIsLow` | src/kv/cache.cpp:503-516 | The tile-aligned cut of a chunk stays below everything its first token attends |
| `RowLifeSteps.PrepareRange` | src/kv/cache.cpp:868-903 | Preparing never maps a fresh page inside an attached prefix or anything written |
| `RowLifeSteps.ChunkKeeps` | src/kv/cache.cpp:905-945 | After a chunk that got its pages every token it writes is on a mapped page |
| `RowLifeWrites.WritesArePrivate` | src/prefill/torch_prefill.py:1891-1932 | No prefill or decode write lands in a page that carries a prefix hash or that another row maps |
| `RowLifeAdmit.AdmitKeeps` | src/prefill/torch_prefill.py:533-572 | Attaching a cached prefix gives the row pages that hold its own tokens, and enough of them for its window |
| `RowLifeAdmit.RequiredIff` | src/prefill/torch_prefill.py:499-500 | The blocks that need their sliding pages are those that end less than a window before the prefix does |
| `RowLifePublish.NeverTwoHashes` | src/kv/cache.cpp:749-791 | A publishable block has no page with another key |
| `RowLifePublish.SharedPageSameKey` | src/kv/cache.cpp:749-791 | Two rows that map one page hold the same token chain there, at the same block |
| `RowLifeSwitch.SwitchKeeps` | src/serving/session.py:827-887 | Rebinding to a new handle and releasing the old one keeps the row invariant: carried rows keep pages, contents and progress, the pool keeps counts, queue and index |
| `RowLifeSwitch.NothingNewIsShared` | src/kv/cache.cpp:982-1064 | Two rows share a page after a switch only if the rows they carry shared it before |
| `RowLifecycle.NextKeeps` | src/prefill/torch_prefill.py:1891-1932 | Every action of a row's life, geometry switches included, keeps the invariant, whether it succeeds or the pool runs dry half way |
| `RowLifecycle.PrefillSeesItsOwnTokens` | src/prefill/torch_prefill.py:1891-1914 | Over every run, each position a prefill token attends is on a mapped page that holds this row's own token prefix |
| `RowLifecycle.DecodeSeesItsOwnTokens` | src/kv/cache.cpp:531-568 | Over every run, the same for every row of every decode step |
| `RowLifecycle.CachedPagesSpellTheirKey` | src/kv/cache.cpp:749-791 | In every reachable state a cached page is hashed with its entry's key and holds the tokens the key spells |
| `RowLifecycle.TwoHashesUnreachable` | src/kv/cache.cpp:749-791 | The two-hashes error of publish is unreachable |
| `Admission.EstimateHybridKvBlocks` | src/prefill/torch_prefill.py:215-246 | The loops sum each layer's steady demand, which `PageSpans.EstimateInSpans` gives in pages touched |
| `Admission.RequiredBlocksForPrompt` | src/serving/session.py:613-647 | The charge is the sum of what each layer may hold at once, which `PageSpans.ChargeInSpans` gives in pages touched |
| `PageSpans.WindowIsMostHit` | src/prefill/torch_prefill.py:200-213 | The window formula is the exact maximum: no run of so many tokens lies on more pages, and some run lies on as many |
| `PageSpans.ChargeInSpans` | src/serving/session.py:613-647 | A prompt is charged its own pages for each full layer, and for each sliding layer the most pages that two windows and one chunk can lie on, or its own pages if those are fewer |
| `PageSpans.EstimateInSpans` | src/prefill/torch_prefill.py:215-246 | The steady estimate is, summed over the rows, the row's pages for each full layer and for each sliding one the most pages a window can lie on, or the row's if fewer |
| `Admission.DemandGrows` | src/serving/session.py:613-647 | A longer prompt never needs less |
| `Admission.HistoryFits` | src/kv/cache.cpp:503-516 | Tile-aligned history plus one chunk spans no more pages than the two windows charged, for pages of whole multiples of 64 |
| `Admission.AllowedFits` | src/serving/session.py:634-647 | Final window, history and chunk together never exceed a layer's charge |
| `ColdPrefill.ChunkStaysCold` | src/kv/cache.cpp:905-945 | A chunk of an admitted cold row gets all its pages and the row stays within its charge |
| `ColdPrefill.PrepareStaysCold` | src/kv/cache.cpp:868-903 | So does preparing it |
| `AdmittedBatch.AdmittedNeverRunOut` | src/serving/session.py:946-988 | A batch of cold prompts whose charges fit the free blocks never runs out, however its prefills interleave, and no row ever holds more than its charge |
| `PressureGate.GateSuffices` | src/decode/runtime.cu:2999-3025 | A decode step that the pressure gate lets through gets every block it needs |
| `PressureGate.CrossingCounts` | src/decode/runtime.cu:3001-3010 | The gate counts the rows of the step whose position starts a page |
| `PressureGate.IdleMeansAllFree` | src/kv/cache.cpp:950-977 | When no row is live, every block is free |
| `SessionRequest.Request.Emit` | src/serving/session.py:74-81 | A token goes out exactly when the stream has not ended |
| `SessionRequest.Request.Finish` | src/serving/session.py:83-90 | One terminator, and none after it; the first reason given counts |
| `SessionRequest.Request.Fail` | src/serving/session.py:92-98 | One terminator, and none after it |
| `SessionRequest.Request.Deliver` | src/serving/session.py:425-437 | A token reaches the client exactly while neither limit nor end was reached, and never beyond the budget |
| `SessionRequest.Request.Suspend` | src/serving/session.py:810-816 | What was emitted becomes prompt; prompt and stream together stay the same |
| `Session.Session.Submit` | src/serving/session.py:439-476 | Accepted exactly when the whole life of the request fits the context and the arena and the session is not stopping |
| `Session.Session.Cancel` | src/serving/session.py:478-488 | A waiting request ends at once with reason stop and leaves its place in the queue, the others keeping their order; any other is flagged, with reason stop |
| `Session.Session.StepRow` | src/decode/runtime.cu:3146-3178 | One row of a decode step: its token reaches its client exactly when it is live, unflagged, unfinished and a column is left, and the limit is set exactly by the last token of the budget |
| `Session.Session.DecodeStep` | src/decode/runtime.cu:2969-3029 | A step is refused exactly when some row that steps writes outside the page table, and then only the length guard applies; otherwise every row advances by its sample and every streaming row's client gets its token |
| `Session.Session.StreamsInside` | src/serving/session.py:453-457 | A row whose client still listens writes inside the context its request was accepted for |
| `Session.Session.OutsideIsSilent` | src/kv/cache.cpp:536-543 | So a refused position always belongs to a request that has reached its limit, was cancelled or has failed |
| `Session.Session.ResumesInside` | src/serving/session.py:1010-1028 | The first step after the rows have been reaped is never refused, unless the session is stopping |
| `DecodeService.RolledFinish` | src/decode/runtime.cu:3146-3178 | Over any run of steps a row ends with the code for an end token exactly if one came up in a column that was left, with the code for length exactly if none did and a step found no column left, and is active until then |
| `DecodeService.OutsideIff` | src/decode/runtime.cu:2977-2994 | Some run of samples makes a row write outside the page table exactly when its prompt and the whole generated buffer do not fit it together |
| `SessionRuns.WithinIff` | src/decode/runtime.cu:2977-2994 | No samples at all make a decode step fail exactly when that fits for every row that steps |
| `SessionRuns.DecodeRun` | src/kv/cache.cpp:536-543 | Over any number of decode steps without the scheduler: the first refused one is the first at which some row, rolled on by the samples so far, is outside the page table |
| `SessionRuns.Overrun` | src/decode/runtime.cu:2977-3029 | Such a run, for every prompt that is too long: the client is sent its whole budget and the request is then reported as failed |
| `Session.Session.Reap` | src/serving/session.py:1010-1028 | Exactly the rows whose request has ended are freed; their streams end with the reason given before, else with stop for an end token and length otherwise; all other rows and requests are as they were |
| `Session.Session.PreemptOne` | src/serving/session.py:792-825 | The row with the most tokens, latest id first, is suspended to the end of the queue with its stream kept, and no other row changes |
| `Session.Session.SwitchGeometry` | src/serving/session.py:827-887 | Live rows keep request, positions, sampling, service state and sampled ids at their new index; all other rows are empty |
| `Session.Session.HeadIsAdmissible` | src/serving/session.py:649-655 | With no live row and every block free, the head of the queue is admissible, however long it has grown |
| `IdleAdmission.IdleHeadAdmitted` | src/serving/session.py:649-655 | With no live row the head of the queue can be admitted with the blocks that are then free in the pool, whatever the prefix cache holds |
| `Session.Session.SelectBatch` | src/serving/session.py:946-983 | The longest prefix of the queue that packs |
| `Session.Session.TakeBatch` | src/serving/session.py:946-988 | Two or more in order, or none; none only if there is room for fewer than two or the first two do not pack, and never fewer than would pack; their charges together fit the free blocks |
| `Session.Session.TakeHead` | src/serving/session.py:1047-1051 | The head is taken exactly when it can be admitted |
| `Session.Session.Install` | src/serving/session.py:1060-1111 | After its prefill a request is either in its row with its first token sent, or ended: failed after an exception, with reason stop for the end token or, in a batch, a flag, and with length otherwise |
| `Session.Session.FailSession` | src/serving/session.py:514-528 | Every request gets its terminator exactly when none was being admitted |
| `SessionRuns.Continue` | src/serving/session.py:990-1058 | From every state, so over every suffix of a run: nothing sent is taken back, nothing follows a terminator, and the known requests grow by exactly one per accepted submission, with its prompt and budget |
| `SessionRuns.Run` | src/serving/session.py:990-1058 | Over every run of clients, decode steps, scheduler steps and stops: there is one request per accepted submission, its prompt and stream are conserved, its budget is kept, it has one terminator at most, and it is not lost while unfinished |
| `SessionRuns.AdmittedTooLate` | src/serving/session.py:514-528 | A request whose prefill ends after a stop gets its terminator, over every continuation without another stop, exactly when it would not have gone on to decode |
| `SessionRuns.Orphan` | src/serving/session.py:1278-1300 | A run after which such a request has no terminator, whatever events other than a stop follow |
| `StopFilter.TruncateAtStop` | src/serving/server.py:968-976 | The text up to the earliest stop |
| `StopFilter.StreamingStopFilter.Feed` | src/serving/server.py:1287-1318 | One chunk: what is shown and withheld is the longest tail that may still begin a stop |
| `StopFilter.StreamingStopFilter.Flush` | src/serving/server.py:1320-1325 | What was withheld, unless a stop matched |
| `StopFilter.WithheldIsLongest` | src/serving/server.py:1287-1318 | After any chunks: the filter has matched exactly if the text contains a stop, and until then it withholds nothing, or the longest tail of the whole text that begins a stop |
| `StopFilter.BatchIsPrefixOfStream` | src/serving/server.py:1279-1325 | Whatever the stops, the batch text is a prefix of the streamed text |
| `StopFilter.StreamEqualsBatch` | src/serving/server.py:1279-1325 | They are equal for every chunking when nested stops are caught early |
| `StopFilter.AgreeIffCaughtEarly` | src/serving/server.py:1279-1325 | They are equal for every text and chunking exactly when every stop that contains another before its last character also begins with one |
| `StopFilter.AgreeWhenNotNested` | src/serving/server.py:1279-1325 | In particular when no stop lies inside another |
| `StopFilter.NestedStopsDisagree` | src/serving/server.py:1293-1317 | With stops bc and abcd, the text abcd sent as abc and d is shown differently |
| `ExpertBuckets.RunKeeps` | src/prefill/torch_prefill.py:1064-1111 | Under every interleaving of the atomic adds, places are handed out once and within the expert's segment |
| `ExpertBuckets.InverseIsInjective` | src/prefill/torch_prefill.py:1064-1085 | inverse_order is injective on routed slots |
| `ExpertBuckets.SegmentFilled` | src/prefill/torch_prefill.py:1064-1111 | Each expert's segment is filled exactly, by its own slots, with the right token |
| `ExpertBuckets.SegmentsTile` | src/prefill/torch_prefill.py:1088-1111 | The segments tile all slots |
| `ExpertBuckets.GatherCombine` | src/prefill/torch_prefill.py:1115-1144 | In exact arithmetic the gathered combine is the direct weighted sum, whatever the order |

## Left out

- Numerics: attention, GEMM, sampling, RoPE and rounding are not modelled; expert functions are uninterpreted and sums are exact.
- CUDA, streams, device copies and flushes: the host mirrors are modelled, the copies are not.
- HTTP endpoints, logging, statistics, argument parsing, weight loading, JIT compilation and profiling.
- Timeouts, coalescing delays and the watchdog: time is not modelled.
- The fine-grained variant of the MoE down wait; the default, layer-wide wait is modelled.
- Zero writes that attention and its combines make for inactive rows are not listed among the buffer accesses, so they are outside of `NoRaces.NoRace`; they touch only cells of those rows.
- `NoRaces.NoRace`: assumes that each MoE layer routes at least one row to some expert; with no routed row an expert buffer is not touched at all.
- `Buffers.ClashesAreOrdered`: buffers are modelled at the granularity of columns, rows and expert blocks, not of bytes or tiles in flight.
- prepare_prefill and step_prefill_chunk without a row mask, and set_cache_seqlens: the masked forms, which serving uses, are modelled.
- Integer widths: counts, positions and ids are unbounded.
- Collisions of the SHA-256 prefix keys.
- `RowLifecycle.NextKeeps`: rows of one handle; several handles over one pool are covered by `KvRuns.EveryRunKeeps` without page contents. One row is attached or prepared per action; calls for several rows at once, as the packed prefill makes, are covered by `PrefixSearch.AttachGoesThroughIff` and `KvOps.PrepareMaskedOk` without page contents. A window of zero is excluded, as decode refuses it.
- `RowLifecycle.PrefillSeesItsOwnTokens`: coverage is stated for tokens; the tile-aligned coverage right after an attach is not guaranteed by the code.
- `AdmittedBatch.AdmittedNeverRunOut`: prompts with nothing attached, pages of a multiple of 64 tokens, one row prepared or advanced per operation and no other row decoding meanwhile, as admission runs with the decode thread parked.
- `PrefixSearch.LongestStem`: that full-layer availability is downward closed along the key chain is a hypothesis; two rows that compute one prefix together can break it.
- `PagedHandle.KvHandle.RebindRows`: a handle's own peak counter is not modelled; the pool's is.
- `Splits.ChooseFits`: says nothing about performance of the chosen counts.
- `Buckets.BuildRegistry`: JIT handles and their deduplication by tiling are left out; placement is a parameter.
- `Session.Session.Submit`: sampling parameters are carried but their float checks are left out; ids are a counter instead of UUIDs.
- `Session.Session.Reap`: pausing the decode thread and reaping are one step; submissions and cancels commute with the pause.
- `Session.Session.FailSession`: the snapshot under the lock and the failing of its requests are one step; in the source decode tokens and scheduler steps may fall between them.
- Schedules whose head width is no multiple of the QKV tile width: the host does not refuse them, but the wait targets round down per head, so the arrival counts proved here need whole tiles.
- Expert up projections split over K: the host does not refuse a split, but the kernel's store does not add, so tasks of one column tile would overwrite each other; every shipped tiling has one split.
- `SplitRaces.RaceFreeIff`: the race exists for some number of claimers and some placement, one instruction per SM; with few claimers a queue may not reach its empty splits in time. GRID_SYNC ablation runs are covered by the other half only.
- A context beyond the last schedule bucket also fails a decode step; only the page table's bound is modelled.
- `Session.Session.StepRow`: a decode step and its token callback are taken row by row, since rows do not affect each other.
- `Session.Session.Install`: the prefill itself is an outcome, a first token or an exception; its KV side is the row lifecycle.
- The consumer side of the token queue: `queue` is everything put into it.
- `ExpertBuckets.GatherCombine`: one token at a time, as the kernel's programs are independent.
- `Affinity.AffinityWaves`: statistics of affinity hits are left out.
