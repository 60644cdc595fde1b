# Verified model of the inference backend

This project models the serving core of the inference backend and proves what it promises.

* **Paged KV cache with prefix sharing.** A pool of fixed-size pages with packed owner counts, a prefix
  index (a trie kept as a hash map with parent ids, child counts, a leaf set and timestamps), one page table
  per request and layer with a publication cursor, and the operations restore, append, truncate, publish,
  evict and reset. Values and operations come first (`PhysicalPagePool`, `PrefixTrie`, `PagedCacheSpec`), then
  one ledger that names for each page the slot it belongs to (`CacheInvariant`) and one file for each
  operation that keeps it; `CacheContent` and `CacheRuns` lift this to entries and to whole runs. The classes
  (`PagePoolObject`, `PrefixBlockMap`, `PrefixBlockIndex`, `RequestCacheState`, `PagedKvCache`,
  `KvCacheManager`, `ContiguousCache`) compute on objects and loops what the values say.
* **Scheduler and single flight.** Admission against worst-case page reservations, phases, token-budgeted
  batches, the round-robin cursor, and leaders and followers of identical inputs. `NoPreemption`,
  `CacheService` and `ServingRuns` put scheduler and both caches together: admitted requests never run out
  of pages as long as their cache operations keep to the executor's discipline.
* **Generation.** Greedy decoding with and without a draft model, one request at a time
  (`RequestExecution`) and in a batch (`RequestExecutionBatch`), and the law of stochastic verification over
  exact reals (`SpeculativeSampling`, `StochasticVerification`, `SpeculativeLaw`). A language model is any
  function from token prefixes to logits or to a distribution. `GenerationLengths` keeps of generation what
  the caches can tell, token counts and due passes; `GenerationRuns` runs it on the real caches and the
  scheduler and derives the executor's discipline (`CacheEffects` says what each cache operation does to
  the counts); `GenerationConforms` shows that the steps of the generation loop are such runs,
  and `GenerationContent` carries the requests' tokens along and shows that both caches always hold what
  recomputing them would give.
* **Order.** What comes first: the least recently used block is evicted (`CacheRecency`), followers stand in the
  order of joining (`PrefixCacheFlightOrder`), requests are admitted and granted tokens in the order of the policy
  (`AdmissionOrder`, `SchedulingOrder`), and backends take turns (`Routing`).
* **Worker and routing.** The worker loop with its request manager and model executor, for every outcome of
  model calls and clients, and the reservation protocol between router and workers. `WorkerEnvironment`
  ties the outcomes of starts and publications to the caches. `WorkerBooks` is a round as a function on the
  books, which the worker's methods compute; `WorkerRounds` and `WorkerWakes` say what it means for each
  request. `ServedRequests` runs rounds with the executions themselves: every request ends, with the outcome
  that target-only decoding gives; `WorkerServes` shows that these are the worker's own rounds.

Some promises hold only under a condition, and the project proves which:

* The rollback of a failed page retain restores the pool exactly when no page was retained twice before the
  failure (`PagePool.RollbackExactIffDistinct`, with a counterexample). The cache only passes distinct pages.
* A truncation keeps the cache in order exactly if it stays at or above what the request has published
  (`CacheRelease.TruncateKeepsInvIff`), and a publication exactly if every layer has the complete blocks of
  the first one (`CachePublish.PublishKeepsInvIff`). The generation loop always does
  (`GenerationRuns.StepKeepsServing`).
* A request whose prefix publication fails right after its start is aborted without releasing its model
  state, although the worker's comment asks for that. `InferenceWorker.ProcessRequests` says exactly whose
  cache state would stay behind (`LateFailures`, with `LeakExample`). On the caches that publication never
  fails (`GenerationRuns.PublicationSucceeds`, `WorkerEnvironment.FirstPublicationsWork`), so nothing leaks
  (`InferenceWorker.Run`).

`dafny verify dfyconfig.toml` checks everything.

## Model

| member | source | states |
|---|---|---|
| PagePool.ReleaseUndoesRetain | src/model_runner/server/kv_cache/physical_page_pool.rs:30-60 | retaining a page adds exactly one owner, which releasing takes back: the pair is the identity on every written state below the reader limit, and leaves a page that was still pending written and not in use |
| PagePool.RetainAllEffect | src/model_runner/server/kv_cache/physical_page_pool.rs:140-161 | retaining distinct retainable pages succeeds, moves each of them exactly one owner up and touches no other page, stored entry or free-list entry |
| PagePool.ReleaseAllEffect | src/model_runner/server/kv_cache/physical_page_pool.rs:178-186 | releasing distinct releasable pages moves each exactly one owner down and keeps the free list exact: every unallocated page once and nothing else |
| PagePool.ReleaseAllFrees | src/model_runner/server/kv_cache/physical_page_pool.rs:164-186 | releasing n pages that all become unallocated grows the free list by exactly n |
| PagePool.ReleaseAllStops | src/model_runner/server/kv_cache/physical_page_pool.rs:178-186 | a failing release has released exactly the pages before the one that cannot be released, and reports that one's error |
| PagePool.FreedLastReusedFirst | src/model_runner/server/kv_cache/physical_page_pool.rs:116-123 | the free list is a stack: the page freed last is handed out next |
| PagePool.RollbackExactIffDistinct | src/model_runner/server/kv_cache/physical_page_pool.rs:136-161 | a failed transactional retain restores the pool if and only if no page was retained twice before the failure |
| PagePool.RollbackWithRepeatedPageLeaksAReader | src/model_runner/server/kv_cache/physical_page_pool.rs:144-158 | a concrete list with a repeated page whose rollback leaves one owner too many |
| PagePool.RequiredPagesIsGrowth | src/model_runner/server/kv_cache/physical_page_pool.rs:228-240 | the page demand of an append is the growth of the page-rounded length |
| PagePoolObject.PhysicalPagePool.constructor | src/model_runner/server/kv_cache/physical_page_pool.rs:77-110 | a new pool: every page unallocated and on the free list once, the lowest page on top |
| PagePoolObject.PhysicalPagePool.Allocate | src/model_runner/server/kv_cache/physical_page_pool.rs:116-123 | takes the top of the free list to the pending state, or reports that none is free and changes nothing |
| PagePoolObject.PhysicalPagePool.RetainPage | src/model_runner/server/kv_cache/physical_page_pool.rs:126-134 | the new pool value, or the error of the page state with nothing changed |
| PagePoolObject.PhysicalPagePool.RetainAll | src/model_runner/server/kv_cache/physical_page_pool.rs:140-161 | the whole transaction including the oldest-first write-back on failure, tied to the value-level transaction whose exactness is proved above |
| PagePoolObject.PhysicalPagePool.RestoreSaved | src/model_runner/server/kv_cache/physical_page_pool.rs:150-158 | writes saved states back oldest first, so that for a repeated page a later entry wins |
| PagePoolObject.PhysicalPagePool.ReleasePage | src/model_runner/server/kv_cache/physical_page_pool.rs:164-176 | takes one owner back and returns the page to the free list exactly when that was the last one |
| PagePoolObject.PhysicalPagePool.ReleaseAll | src/model_runner/server/kv_cache/physical_page_pool.rs:178-186 | releases in order and stops at the first error |
| PagePoolObject.PhysicalPagePool.WritePage | src/model_runner/server/kv_cache/physical_page_pool.rs:188-209 | stores entries only into a page whose state allows writing; refuses any other page |
| PagePoolObject.PhysicalPagePool.AreInactive | src/model_runner/server/kv_cache/physical_page_pool.rs:247-251 | true exactly when the index is the only owner of every listed page |
| PrefixTrie.LookupIsLongest | src/model_runner/server/kv_cache/prefix_index.rs:174-211 | a prefix of complete blocks is indexed if and only if it is no longer than the lookup result |
| PrefixTrie.VictimUnique | src/model_runner/server/kv_cache/prefix_index.rs:341-362 | the least recently used evictable leaf is unique, so the order in which a hash set is visited cannot matter |
| PrefixTrie.InsertKeepsTrie | src/model_runner/server/kv_cache/prefix_index.rs:276-317 | adding a branch keeps the set of paths prefix-closed and the timestamps of different accesses apart |
| PrefixTrie.RemoveLeafKeepsTrie | src/model_runner/server/kv_cache/prefix_index.rs:321-339 | removing a leaf keeps the set of paths prefix-closed |
| PrefixBlockMap.RepresentedIsPrefixClosed | src/model_runner/server/kv_cache/prefix_index.rs:133-142 | the hash map with parent links represents a prefix-closed set of token-block paths |
| PrefixBlockMap.LookupFindsPath | src/model_runner/server/kv_cache/prefix_index.rs:35-47 | looking a block up under its parent id succeeds if and only if the extended path is represented |
| PrefixBlockMap.LeavesAreLeaves | src/model_runner/server/kv_cache/prefix_index.rs:136-141 | the maintained leaf set is exactly the set of leaves of the represented trie |
| PrefixBlockMap.InsertKeepsRepresentation | src/model_runner/server/kv_cache/prefix_index.rs:276-317 | inserting a block with a fresh id keeps parent links, ids, child counts and the leaf set exact |
| PrefixBlockMap.RemoveKeepsRepresentation | src/model_runner/server/kv_cache/prefix_index.rs:321-339 | removing a leaf keeps parent links, ids, child counts and the leaf set exact, turning a childless parent into a leaf |
| PrefixBlockMap.StampKeepsRepresentation | src/model_runner/server/kv_cache/prefix_index.rs:49-53 | a new timestamp changes nothing but that block's stamp in the represented trie |
| PrefixBlockMap.PromiseKeepsRepresentation | src/model_runner/server/kv_cache/prefix_index.rs:381-392 | counting a child before it is inserted is exact up to that one promised child |
| PrefixIndexObject.PrefixBlockIndex.FindLongestCachedPrefix | src/model_runner/server/kv_cache/prefix_index.rs:174-211 | the loop returns the pages, layer by layer, of the longest indexed prefix of complete blocks and stamps exactly those blocks |
| PrefixIndexObject.PrefixBlockIndex.WalkBlocks | src/model_runner/server/kv_cache/prefix_index.rs:234-309 | the walk stamps the blocks already indexed from the cursor on, inserts the missing ones as one new branch, and reports every page-table entry that differs |
| PrefixIndexObject.PrefixBlockIndex.IndexCachedSequence | src/model_runner/server/kv_cache/prefix_index.rs:213-317 | indexing as a whole: either refused with the index unchanged, or the trie with the new branch, the pages to retain and the replacements |
| PrefixIndexObject.PrefixBlockIndex.InsertBlock | src/model_runner/server/kv_cache/prefix_index.rs:276-309 | stores a block under a fresh id with the request's own pages as its pages |
| PrefixIndexObject.PrefixBlockIndex.IncrementChildCount | src/model_runner/server/kv_cache/prefix_index.rs:381-392 | the parent at the branch point counts one more child and stops being a leaf |
| PrefixIndexObject.PrefixBlockIndex.FindLeastRecentlyUsedLeaf | src/model_runner/server/kv_cache/prefix_index.rs:341-362 | finds the leaf with the oldest stamp among those whose pages only the index owns, or none exactly when there is none |
| PrefixIndexObject.PrefixBlockIndex.EvictLeastRecentlyUsedLeaf | src/model_runner/server/kv_cache/prefix_index.rs:321-339 | removes exactly the trie's least recently used evictable leaf and hands back its pages |
| PrefixIndexObject.LeafIsVictim | src/model_runner/server/kv_cache/prefix_index.rs:341-362 | the leaf found in the hash map is the represented trie's unique victim |
| PrefixIndexObject.FindLongestPrefixTokenCount | src/model_runner/server/kv_cache/prefix_index.rs:62-80 | the affinity snapshot gives the token count a lookup at snapshot time would have matched |
| RequestCacheStateObject.RequestPagedCacheState.constructor | src/model_runner/server/kv_cache/request_state.rs:44-53 | a new request owns no pages and its cursor is at the root |
| RequestCacheStateObject.RequestPagedCacheState.AttachCachedPrefix | src/model_runner/server/kv_cache/request_state.rs:92-103 | installs the restored rows and the cursor |
| RequestCacheStateObject.RequestPagedCacheState.AppendPage | src/model_runner/server/kv_cache/request_state.rs:112-114 | one more page at the end of one layer, everything else unchanged |
| RequestCacheStateObject.RequestPagedCacheState.RecordAppendedTokens | src/model_runner/server/kv_cache/request_state.rs:116-127 | one layer counts more tokens, everything else unchanged |
| RequestCacheStateObject.RequestPagedCacheState.Truncate | src/model_runner/server/kv_cache/request_state.rs:106-110 | cuts every layer to the page-rounded target and hands back exactly the cut pages, or refuses when some layer is shorter |
| RequestCacheStateObject.RequestPagedCacheState.TruncateUnchecked | src/model_runner/server/kv_cache/request_state.rs:171-182 | the loop that cuts the layers; the handed-back pages are the tails in layer order |
| RequestCacheStateObject.RequestPagedCacheState.RecordPrefixPublication | src/model_runner/server/kv_cache/request_state.rs:131-160 | swaps in the canonical pages entry by entry and hands back exactly the pages taken out, in order |
| RequestCacheStateObject.RequestPagedCacheState.Reset | src/model_runner/server/kv_cache/request_state.rs:163-169 | forgets everything and hands back all pages, cursor at the root |
| RequestCacheStateObject.WalkPublishes | src/model_runner/server/kv_cache/request_state.rs:131-160 | the differences an indexing walk reports, adopted in order, give the page tables that hold canonical pages up to the branch point and the request's own after it |
| CacheInvariant.OwnershipIsExact | src/model_runner/server/kv_cache/physical_page_pool.rs:16-60 | in a consistent cache each page's packed state is its exact owner count over all requests, layers and the index |
| CacheInvariant.OccurrencesOfIndexed | src/model_runner/server/kv_cache/prefix_index.rs:41-47 | an indexed page occurs once in the tables of each user of its block, in its own layer at its own depth |
| CacheInvariant.FreePlusInUse | src/model_runner/server/kv_cache/paged_cache.rs:329-357 | free pages plus pages in use never exceed the pool, and are all of it when no indexed block is idle |
| CacheInvariant.IdleBlockHasEvictableLeaf | src/model_runner/server/kv_cache/prefix_index.rs:341-362 | below every block that no request uses hangs a leaf that can be evicted, since a user of a block uses all its ancestors in every layer |
| CacheEviction.EvictKeepsConsistent | src/model_runner/server/kv_cache/paged_cache.rs:336-353 | evicting an eligible leaf keeps ownership exact and frees one page per layer |
| CacheEviction.EvictUntilOk | src/model_runner/server/kv_cache/paged_cache.rs:329-357 | the eviction loop terminates without error, changes no table and no stored entry, and stops short only when no indexed block is idle |
| CacheEviction.EvictionIsComplete | src/model_runner/server/kv_cache/paged_cache.rs:329-357 | after the loop there is room if and only if the demand fits beside the pages that requests hold |
| CacheAppend.AppendExact | src/model_runner/server/kv_cache/paged_cache.rs:170-199 | an accepted append succeeds if and only if its page demand plus the pages in use fit the pool; it then extends that one view, leaves every other view alone and keeps ownership exact; when refused it changes no table |
| CacheAppend.ChunkPageWritable | src/model_runner/server/kv_cache/physical_page_pool.rs:188-209 | the page an append writes to was free or is the layer's own writable last page, so no write hits a shared page |
| CacheAppend.OtherViewsKept | src/model_runner/server/kv_cache/paged_cache.rs:290-327 | writing into one layer's own pages changes no other view |
| CacheRelease.TruncateExact | src/model_runner/server/kv_cache/paged_cache.rs:234-242 | at or above the cursor truncation takes a prefix of every view of the request, touches no other request and keeps ownership exact; it is refused without effect when some layer is shorter |
| CacheRelease.TruncateCutsViews | src/model_runner/server/kv_cache/paged_cache.rs:234-242 | a truncation to any count that every layer has succeeds and takes a prefix of every view, even below the cursor |
| CacheRelease.TruncateKeepsInvIff | src/model_runner/server/kv_cache/paged_cache.rs:234-242 | a truncation that succeeds keeps ownership and cursors in order if and only if it stays at or above the cursor; a refused one changes nothing |
| CacheRelease.RemoveExact | src/model_runner/server/kv_cache/paged_cache.rs:281-288 | reset never fails, gives back every owner the request was and touches nobody else's view |
| CacheRelease.StartExact | src/model_runner/server/kv_cache/manager.rs:36-57 | a started request owns nothing and disturbs nobody |
| CacheRestore.RestoreExact | src/model_runner/server/kv_cache/paged_cache.rs:146-168 | restore attaches the longest indexed prefix, adds one owner per attached page, changes no other view; a populated table is refused |
| CachePublish.PublishExact | src/model_runner/server/kv_cache/paged_cache.rs:245-279 | publication of a request whose layers all have the first one's complete blocks never fails once enough tokens are given: the cursor reaches the last complete block, which is indexed, canonical pages replace duplicates up to the branch point, no view changes |
| CachePublish.PublishKeepsInvIff | src/model_runner/server/kv_cache/paged_cache.rs:245-279 | the first layer's count stands for the request: a publication that succeeds keeps the cache in order if and only if every layer has the first one's complete blocks |
| CachePublish.PublishReports | src/model_runner/server/kv_cache/paged_cache.rs:245-279 | a publication of a request whose layers have the first one's complete blocks reports exactly the tokens of the blocks it added to the index |
| CacheContent.ViewIsRecomputation | src/model_runner/server/kv_cache/paged_cache.rs:363-391 | a view holds, entry by entry, what full recomputation of the request's tokens gives, wherever the entries came from |
| CacheContent.RestoreSound | src/model_runner/server/kv_cache/paged_cache.rs:146-168 | restoring a prefix of the request's own tokens keeps every entry right |
| CacheContent.AppendSound | src/model_runner/server/kv_cache/paged_cache.rs:170-199 | appending the entries of the next tokens keeps every entry right, also when eviction runs first or the append is refused |
| CacheContent.PublishSound | src/model_runner/server/kv_cache/paged_cache.rs:245-279 | new index pages hold their path's entries and adopting canonical pages leaves the request's view unchanged |
| CacheRuns.StepKeepsGood | src/model_runner/server/kv_cache/paged_cache.rs:146-288 | one operation of any request keeps ownership exact, all entries right and every view of every other request unchanged |
| CacheRuns.RunKeepsGood | src/model_runner/server/kv_cache/paged_cache.rs:146-288 | over every interleaving ownership is exact and all entries are right after every operation, and each operation leaves every view of every other request unchanged |
| CacheRuns.CursorProtected | src/model_runner/server/kv_cache/prefix_index.rs:228-275 | every live cursor names a block that is still indexed and whose pages its request holds in every layer, so publication never misses a parent |
| CacheRuns.TruncationLeavesWritablePage | src/model_runner/server/generation/text_generation.rs:534-539 | the page the next append writes to is writable after a truncation if and only if the cut is at or above the cursor or on a page boundary |
| CacheRuns.FreshCacheOk | src/model_runner/server/kv_cache/paged_cache.rs:69-102 | a new cache is consistent and sound |
| CacheRecency.StampsOrderAccesses | src/model_runner/server/kv_cache/prefix_index.rs:49-53 | over every run two indexed blocks are stamped in the order of their last accesses, an access being a restore that finds the block or a publication that finds or adds it; every other operation leaves the stamp alone |
| CacheRecency.LeastRecentlyUsedGoes | src/model_runner/server/kv_cache/paged_cache.rs:329-357 | over every run a block leaves the index only in an append for which too few pages are free, and it was accessed no later than any idle leaf that stays |
| CacheRecency.EvictsOldest | src/model_runner/server/kv_cache/prefix_index.rs:341-362 | a block the eviction loop takes was accessed no later than any leaf that was idle from the start and that it leaves |
| CacheRecency.EvictsNoMore | src/model_runner/server/kv_cache/paged_cache.rs:329-357 | the eviction loop takes nothing when there is room and otherwise stops at the first block that makes room |
| PagedKvCacheObject.PagedKvCache.constructor | src/model_runner/server/kv_cache/paged_cache.rs:69-102 | a fresh cache over a fresh pool and, with prefix caching, an empty index |
| PagedKvCacheObject.PagedKvCache.RestoreCachedPrefix | src/model_runner/server/kv_cache/paged_cache.rs:146-168 | the object computes the restore whose effects are proved in CacheRestore, and keeps the cursor linked to the index |
| PagedKvCacheObject.PagedKvCache.AppendNewKeyValue | src/model_runner/server/kv_cache/paged_cache.rs:170-199 | validation, eviction, capacity check and page writes, in that order, as one step of the value-level append |
| PagedKvCacheObject.PagedKvCache.EnsureAppendCapacity | src/model_runner/server/kv_cache/paged_cache.rs:329-357 | the eviction loop over pool and index objects |
| PagedKvCacheObject.PagedKvCache.AppendToPages | src/model_runner/server/kv_cache/paged_cache.rs:290-327 | the chunk loop that fills the current page and opens new ones |
| PagedKvCacheObject.PagedKvCache.Truncate | src/model_runner/server/kv_cache/paged_cache.rs:234-242 | truncation of the request object and release of the cut pages |
| PagedKvCacheObject.PagedKvCache.PublishCompletedPrefix | src/model_runner/server/kv_cache/paged_cache.rs:245-279 | indexing, retaining, adopting and releasing as one step of the value-level publication |
| PagedKvCacheObject.PagedKvCache.CommitPages | src/model_runner/server/kv_cache/paged_cache.rs:262-276 | retains new and canonical pages, switches the tables and releases the replaced pages |
| PagedKvCacheObject.PagedKvCache.ResetRequest | src/model_runner/server/kv_cache/paged_cache.rs:281-288 | releases everything the request holds |
| PagedKvCacheObject.PagedKvCache.ReconstructContiguous | src/model_runner/server/kv_cache/paged_cache.rs:363-391 | the loop with a running remainder returns exactly the layer's view |
| KvCacheManagerObject.KvCacheManager.constructor | src/model_runner/server/kv_cache/manager.rs:29-34 | a manager without requests over a fresh cache, in order |
| KvCacheManagerObject.KvCacheManager.StartRequest | src/model_runner/server/kv_cache/manager.rs:36-57 | a known id is refused without effect; a new one starts empty; the whole-cache invariant holds again exactly if there are no more requests than a page can count readers |
| KvCacheManagerObject.KvCacheManager.RestoreCachedPrefix | src/model_runner/server/kv_cache/manager.rs:76-84 | restores for a known request and keeps the whole-cache invariant; an unknown id is refused without effect |
| KvCacheManagerObject.KvCacheManager.AppendNewKeyValue | src/model_runner/server/kv_cache/manager.rs:165-184 | appends for a known request and keeps the whole-cache invariant, every cursor still linked after eviction |
| KvCacheManagerObject.KvCacheManager.Truncate | src/model_runner/server/kv_cache/manager.rs:86-94 | computes the value-level truncation for every target; the whole-cache invariant holds again exactly if it does not cut below the request's cursor |
| KvCacheManagerObject.KvCacheManager.PublishCompletedPrefix | src/model_runner/server/kv_cache/manager.rs:97-104 | computes the value-level publication, its errors included; when it succeeds the whole-cache invariant holds again exactly if every layer has the first one's complete blocks |
| KvCacheManagerObject.KvCacheManager.RemoveRequest | src/model_runner/server/kv_cache/manager.rs:124-134 | releases and forgets a request; never fails and keeps the whole-cache invariant on a cache in order, and otherwise keeps the emptied request when a release fails |
| KvCacheManagerObject.KvCacheManager.FinishRequest | src/model_runner/server/kv_cache/manager.rs:108-121 | publishes, then removes; a failed publication keeps the request; a cache in order stays so if every layer has the first one's complete blocks |
| ContiguousCache.ContiguousKvCache.AppendNewKeyValue | src/model_runner/server/kv_cache/contiguous_cache.rs:107-144 | writes behind the valid entries and counts them, or refuses a malformed or overlong append without effect |
| ContiguousCache.ContiguousKvCache.Truncate | src/model_runner/server/kv_cache/contiguous_cache.rs:164-174 | shortens every layer, or refuses when some layer is shorter |
| ContiguousCache.ContiguousKvCache.Contents | src/model_runner/server/kv_cache/contiguous_cache.rs:146-162 | the valid entries of a layer in order |
| ContiguousCache.AppendAgrees | src/model_runner/server/kv_cache/utils.rs:13-38 | paged and contiguous cache reject the same malformed appends, and show the same entries after an append both perform |
| ContiguousCache.TruncateAgrees | src/model_runner/server/kv_cache/utils.rs:40-53 | both caches accept the same truncations, below the publication cursor as well, and then show the same entries |
| PrefixCacheFlight.AddExact | src/model_runner/server/execution/prefix_cache_flight.rs:120-139 | a new request waits if and only if its exact input has a flight, otherwise it leads a new one; a known id is refused without effect; in what order requests wait is said by FlightOrder |
| PrefixCacheFlight.ReleaseExact | src/model_runner/server/execution/prefix_cache_flight.rs:143-159 | a leader's publication wakes all its followers as they stand in the flight; anybody else is refused without effect; where flights last until completion it changes nothing |
| PrefixCacheFlight.RemoveExact | src/model_runner/server/execution/prefix_cache_flight.rs:166-208 | completion of a leader wakes every follower, its abort promotes the first in line and keeps the order of the rest; followers may only abort, and that wakes nobody |
| PrefixCacheFlight.RunKeepsFlights | src/model_runner/server/execution/prefix_cache_flight.rs:74-81 | flights, membership, input index and released set agree after every operation of every run |
| PrefixCacheFlight.WokenAtMostOnce | src/model_runner/server/execution/prefix_cache_flight.rs:120-208 | between two wakings of one request lies its removal |
| PrefixCacheFlight.OneRunnablePerInput | src/model_runner/server/execution/prefix_cache_flight.rs:70-81 | two unreleased leaders of one input are the same request |
| PrefixCacheFlight.FollowerHasLeader | src/model_runner/server/execution/prefix_cache_flight.rs:43-68 | a registered request waits if and only if it does not lead, and then a registered request of the same input leads |
| FlightOrder.StandInJoiningOrder | src/model_runner/server/execution/prefix_cache_flight.rs:120-208 | over every run, of two requests that joined a flight and still wait in it, whoever joined first stands first, whatever followers aborted and leaders changed in between |
| FlightOrder.EveryFollowerJoined | src/model_runner/server/execution/prefix_cache_flight.rs:120-139 | every request that waits joined with one of the additions of the run and has waited since |
| FlightOrder.WokenInJoiningOrder | src/model_runner/server/execution/prefix_cache_flight.rs:143-208 | whoever a step wakes is listed in the order of joining |
| FlightOrder.PromotedWaitedLongest | src/model_runner/server/execution/prefix_cache_flight.rs:188-204 | the follower that an aborted leader's flight promotes joined before every other one still waiting in it, and these go on waiting, now for it |
| PrefixCacheFlightObject.PrefixCacheFlightCoordinator.constructor | src/model_runner/server/execution/prefix_cache_flight.rs:85-106 | an empty coordinator |
| PrefixCacheFlightObject.PrefixCacheFlightCoordinator.AddRequest | src/model_runner/server/execution/prefix_cache_flight.rs:120-139 | the maps after joining a flight or opening one, as the value-level step whose runs FlightOrder describes |
| PrefixCacheFlightObject.PrefixCacheFlightCoordinator.ReleaseAfterPrefixPublication | src/model_runner/server/execution/prefix_cache_flight.rs:143-159 | the maps after a leader's publication, and who was woken |
| PrefixCacheFlightObject.PrefixCacheFlightCoordinator.RemoveRequest | src/model_runner/server/execution/prefix_cache_flight.rs:166-208 | the maps after a termination, and who was woken |
| PrefixCacheFlightObject.PrefixCacheFlightCoordinator.TakeFlight | src/model_runner/server/execution/prefix_cache_flight.rs:239-250 | takes one flight out of every map, member by member |
| PrefixCacheFlightObject.PrefixCacheFlightCoordinator.MustPublish | src/model_runner/server/execution/prefix_cache_flight.rs:109-117 | true exactly for the leader of a flight that is released after publication |
| SchedulerSpec.SortExact | src/model_runner/server/execution/scheduler.rs:393-415 | policy order permutes the queue, orders it by remaining prefill and keeps ties in arrival order |
| SchedulerSpec.AdmitExact | src/model_runner/server/execution/scheduler.rs:130-157 | admission takes as many of the ordered unblocked requests as fit slots and unreserved pages, up to the first that does not; nothing is lost or duplicated, and reservations stay within the capacity; the order is the subject of AdmissionOrder |
| SchedulerSpec.AdmissionProgresses | src/model_runner/server/execution/scheduler.rs:130-157 | with nothing active and an unblocked request waiting, at least one request is admitted |
| AdmissionOrder.AdmitByPolicy | src/model_runner/server/execution/scheduler.rs:130-157 | who is admitted, policy by policy and without any sorted queue: under shortest prefill first nobody unblocked who is left behind has fewer tokens to prefill than an admitted one, and of equals the earlier in the queue goes first; under the other policies the queue's order decides; those left behind keep that order |
| AdmissionOrder.QueueInArrivalOrder | src/model_runner/server/execution/scheduler.rs:94-157 | over every run two waiting requests stand in the queue as they arrived, unless shortest prefill first has a reason to put the later one first |
| AdmissionOrder.AdmittedInArrivalOrder | src/model_runner/server/execution/scheduler.rs:130-157 | over every run a request is not admitted before one that arrived earlier, is not blocked and has no more tokens to prefill where that counts; admitted together they become active in the order of arrival |
| SchedulingDecision.WorkConserving | src/model_runner/server/execution/scheduler.rs:259-391 | the tokens granted are exactly the smaller of the limit and decodes plus remaining prefill tokens |
| SchedulingDecision.DecodesBeforePrefills | src/model_runner/server/execution/scheduler.rs:259-311 | decodes get one token each, and a prefill runs only when every decode was scheduled, with at most what it has left |
| SchedulingDecision.OneGrantEach | src/model_runner/server/execution/scheduler.rs:259-391 | grants go to active requests, at most one each, in every policy |
| SchedulingDecision.OrderKeepsWork | src/model_runner/server/execution/scheduler.rs:352-372 | ordering or rotating the prefills neither loses nor repeats any |
| SchedulingDecision.RoundRobinIsFair | src/model_runner/server/execution/scheduler.rs:328-391 | with a fixed list of n prefills and a non-zero prefill budget each of them is scheduled within n decisions |
| SchedulingOrder.DecisionInOrder | src/model_runner/server/execution/scheduler.rs:259-391 | a decision grants to decodes before prefills, to decodes by place, to prefills by the policy: by place, by fewest remaining tokens and then by place, or by turn from the cursor on; everybody but the last gets all it can use, and nobody left out comes before somebody granted |
| SchedulingOrder.CursorAdvances | src/model_runner/server/execution/scheduler.rs:328-350 | after a round-robin decision with budget for prefills the cursor is at the first prefill in turn that was left out, or at the first in turn if none was |
| SchedulingOrder.CursorStays | src/model_runner/server/execution/scheduler.rs:328-350 | under other policies, and when decodes use the whole budget, the cursor stays where it is; without prefills it is cleared |
| SchedulerRuns.UnblockExact | src/model_runner/server/execution/scheduler.rs:455-469 | unblocking distinct queued blocked requests succeeds and clears exactly their flags |
| SchedulerRuns.WakeExact | src/model_runner/server/execution/scheduler.rs:443-469 | whoever the coordinator wakes is queued and blocked, so waking never fails |
| SchedulerRuns.StepKeepsOk | src/model_runner/server/execution/scheduler.rs:94-256 | every step the worker may take succeeds and keeps reservations, places and coordination in order |
| SchedulerRuns.RunKeepsOk | src/model_runner/server/execution/scheduler.rs:94-256 | over every run: reservations within capacity, each request in one place, queued and blocked exactly when follower, no step fails |
| SchedulerRuns.NoDeadlock | src/model_runner/server/execution/scheduler.rs:130-157 | a non-empty queue with nothing active admits at least one request |
| SchedulerRuns.FreshSchedulerOk | src/model_runner/server/execution/scheduler.rs:79-92 | a new scheduler is in order |
| SchedulerObject.Scheduler.constructor | src/model_runner/server/execution/scheduler.rs:79-92 | an empty scheduler with or without a coordinator |
| SchedulerObject.Scheduler.EnqueueRequest | src/model_runner/server/execution/scheduler.rs:94-127 | queues the request with its worst-case reservation, blocked when it follows; a refused registration changes nothing |
| SchedulerObject.Scheduler.AdmitQueuedRequests | src/model_runner/server/execution/scheduler.rs:130-157 | the admission loop computes the value-level pass that AdmitExact and AdmitByPolicy describe |
| SchedulerObject.Scheduler.ReservedPages | src/model_runner/server/execution/scheduler.rs:417-426 | the loop sums the active reservations |
| SchedulerObject.Scheduler.UpdateRequestPhase | src/model_runner/server/execution/scheduler.rs:205-246 | follows the phase, removes a finished request and tells when a publication is due; going back to prefill is refused |
| SchedulerObject.Scheduler.RemoveActiveRequest | src/model_runner/server/execution/scheduler.rs:248-256 | removes an active request or reports that there is none |
| SchedulerObject.Scheduler.TerminateRequest | src/model_runner/server/execution/scheduler.rs:443-453 | reports a termination to the coordinator and unblocks whom it wakes |
| SchedulerObject.Scheduler.ReleasePrefixFlight | src/model_runner/server/execution/scheduler.rs:168-174 | reports a publication to the coordinator and unblocks whom it wakes |
| SchedulerObject.Scheduler.UnblockRequests | src/model_runner/server/execution/scheduler.rs:455-469 | the search loop clears flags one by one and stops at the first missing or unblocked request |
| SchedulerObject.Scheduler.CreateSchedulingDecision | src/model_runner/server/execution/scheduler.rs:259-272 | the decision and the moved round-robin cursor, as the value-level decision |
| SchedulerObject.Scheduler.ScheduleActiveDecodes | src/model_runner/server/execution/scheduler.rs:290-311 | the decode loop under the token budget |
| SchedulerObject.Scheduler.ScheduleOrderedPrefills | src/model_runner/server/execution/scheduler.rs:374-391 | the prefill loop under the remaining budget |
| RequestLimits.NormalizeExact | src/model_runner/server/mod.rs:433-491 | a request is accepted exactly when its input is not empty, its sampling parameters are usable and some output fits, and then keeps the most output tokens, at least one, that fit cache and context |
| NoPreemption.AppendNeverRunsOut | ARCHITECTURE.md:68-80 | when the active reservations fit the capacity, an append within a request's own bound finds its pages whatever is shared or indexed |
| NoPreemption.CapacityFitsPool | src/model_runner/server/kv_cache/mod.rs:40-48 | the geometry's page capacity, taken in every layer at once, fits the pool of either cache |
| CacheService.AppendWithin | src/model_runner/server/kv_cache/paged_cache.rs:170-199 | an append within the request's bound succeeds and nobody leaves its bound |
| CacheService.CacheOpKeepsService | src/model_runner/server/model_executor.rs:189-360 | a cache operation within the request's bound, at or above the cursor and between passes keeps the cache in service, and appends succeed |
| ServingRuns.SystemStepKeepsOk | src/model_runner/server/execution/inference_worker.rs:132-297 | one step of scheduler and both caches together, with each cache operation within bound and discipline, keeps reservations, active sets and caches in agreement, and its appends succeed |
| ServingRuns.SystemRunsScheduler | src/model_runner/server/execution/inference_worker.rs:132-297 | every step of the whole system is, on the scheduler, a run of the worker's scheduler steps, a departure being removal and termination, so that whatever holds of scheduler runs holds of the system |
| ServingRuns.NoPreemptionInRuns | ARCHITECTURE.md:68-80 | over every run with normalized requests whose cache operations keep to bound and discipline, reservations stay within capacity and no append of an admitted request in target or draft cache runs out of pages |
| ServingRuns.FreshSystemOk | src/model_runner/server/model_executor.rs:175-187 | a scheduler sized by the smaller of the two caches starts in agreement with both |
| ServingRuns.NormalizedMaySubmit | src/model_runner/server/mod.rs:433-491 | a normalized request's worst-case reservation fits the capacity, so it may be enqueued |
| GenerationRuns.GenerationNeverFails | ARCHITECTURE.md:68-80 | the same from the generation steps up, nothing assumed of the cache operations: over every run of submissions, admissions, prefill chunks, single decodes, proposals, verifications, rollbacks, publications and departures, interleaved layer by layer, no cache operation fails, temporary speculative tokens included |
| GenerationRuns.StepKeepsServing | src/model_runner/server/execution/inference_worker.rs:158-297 | every operation of worker and generation loop is made of cache operations the caches allow and perform, and keeps caches, progress and scheduler in agreement: each layer holds what the request's progress says |
| GenerationRuns.FillLayerSucceeds | src/model_runner/server/generation/text_generation.rs:277-388 | each layer of a due forward pass finds its pages: prefill chunk, single decode, draft token or verification, in target or draft cache |
| GenerationRuns.RollbackSucceeds | src/model_runner/server/generation/text_generation.rs:534-539 | the rollback after verification succeeds in both caches: it retains no less than was published |
| GenerationRuns.PublicationSucceeds | src/model_runner/server/model_executor.rs:259-272 | at a step boundary publishing the committed tokens succeeds in both caches, whatever else is cached, shared or indexed, and leaves every complete block of what is cached indexed |
| GenerationRuns.BeginSucceeds | src/model_runner/server/model_executor.rs:189-232 | starting an admitted request succeeds: in each cache the longest indexed run of complete blocks of the input but its last token is restored, no more and no less, and what was restored decides whether it begins in prefill or decode |
| GenerationRuns.CachesHoldActive | src/model_runner/server/execution/inference_worker.rs:287-297 | both caches hold state for exactly the active requests, in every state of such a run |
| GenerationRuns.FreshServing | src/model_runner/server/execution/inference_worker.rs:70-88 | a system in order without requests serves in order |
| GenerationConforms.StepConforms | src/model_runner/server/generation/text_generation.rs:343-539 | a request's prefill or speculative step changes token and cache lengths exactly as a sequence of enabled passes and controls of such a run, for every proposal and verification outcome |
| GenerationConforms.TargetStepConforms | src/model_runner/server/generation/text_generation.rs:305-341 | so does a prefill chunk or a single decode without a draft |
| GenerationConforms.PassIsLayers | src/model_runner/server/generation/text_generation.rs:762-814 | a pass is its layers one by one and stays due until the last one is filled |
| GenerationContent.GenerationIsSound | src/model_runner/server/kv_cache/paged_cache.rs:146-391 | in every generation run whose requests carry their tokens, proposed ones included, every view of every active request, in the target and in the draft cache, holds after every operation what recomputing that request's own tokens gives, whatever was restored, shared, evicted, proposed or rolled back; nothing is assumed of the cache operations |
| GenerationContent.StepKeepsContent | src/model_runner/server/generation/text_generation.rs:277-655 | a layer of a pass, a completed step with its rollback, a start, a publication, an admission, a submission or a departure is performed and keeps all entries right and as many tokens as the request's progress says |
| GenerationContent.ViewsAreRecomputed | src/model_runner/server/kv_cache/paged_cache.rs:363-391 | in such a state a cached layer never has more tokens than the request, and its view is the recomputation of that many of them |
| GenerationContent.CommittedTokensStay | src/model_runner/server/generation/text_generation.rs:513-539 | no operation changes a committed token of a running request, and a rollback drops proposed tokens only |
| GenerationContent.FreshCarried | src/model_runner/server/execution/inference_worker.rs:70-88 | a system in order without requests, whose indexed entries are right, starts such runs |
| DraftTokenCount.DraftTokenCountController.constructor | src/model_runner/server/generation/draft_token_count.rs:67-99 | starts at the policy's initial count, within its limits and at least one, and by accepted length with the smoothed length one below it |
| DraftTokenCount.DraftTokenCountController.Update | src/model_runner/server/generation/draft_token_count.rs:134-194 | refuses more accepted than proposed tokens without effect and otherwise moves count and smoothed length as AdaptedExact says |
| DraftTokenCount.AdaptedExact | src/model_runner/server/generation/draft_token_count.rs:134-194 | how the count moves: by acceptance rate one step down below the lower threshold and one up above the upper one, within the limits; by accepted length to the count nearest to one more than the smoothed length, which is the stated weighted mean, or to the limit next to it; a fixed count stays |
| GreedyDecoding.WindowIsSuffix | src/model_runner/server/generation/sampler.rs:166-186 | the repetition window is the last tokens of the whole sequence, wherever the committed part ends |
| GreedyDecoding.VerificationExact | src/model_runner/server/generation/text_generation.rs:547-588 | verification accepts exactly the proposed tokens up to the first that the target would not have sampled itself or up to an accepted end of sequence, and the replacement is the target's own token there |
| GreedyDecoding.ProposalIsDraftsOwn | src/model_runner/server/generation/text_generation.rs:882-979 | a proposal is what the draft model generates by itself behind the committed tokens, up to the limit or an end of sequence |
| GreedyDecoding.VerifiedPrefix | src/model_runner/server/generation/text_generation.rs:547-618 | from any verified position on, verification and commit give what target-only decoding gives |
| GreedyDecoding.SpeculativeIterationRefines | src/model_runner/server/generation/text_generation.rs:513-655 | one iteration commits what target-only decoding would, makes progress or ends, and retains exactly the cache prefix the next iteration needs |
| GreedyDecoding.SpeculativeRefinesTargetOnly | src/model_runner/server/generation/text_generation.rs:513-655 | a whole greedy speculative run commits the same tokens with the same finish reason as target-only decoding, for every draft model, draft-count policy, end-of-sequence set and window |
| GreedyDecoding.ReferenceLength | src/model_runner/server/generation/text_generation.rs:637-655 | at most the wanted number of tokens is generated, fewer only at an end of sequence |
| RequestExecutionObject.ModelInstance.Forward | src/model_runner/server/generation/text_generation.rs:77-87 | an append starts at the cached count and stays within the reservation; logits answer for each prefix |
| RequestExecutionObject.RequestExecution.constructor | src/model_runner/server/generation/text_generation.rs:227-261 | starts in prefill or decode by how far the caches were restored |
| RequestExecutionObject.RequestExecution.StepTargetOnly | src/model_runner/server/generation/text_generation.rs:304-422 | a target-only step is the next chunk or the commit of the next token of target-only decoding; it keeps caches and tokens in lockstep, keeps the outcome and gets closer to it |
| RequestExecutionObject.RequestExecution.StepSpeculativePrefill | src/model_runner/server/generation/text_generation.rs:343-368 | uneven prefill strictly shrinks and ends with both caches one token before the end of the input |
| RequestExecutionObject.RequestExecution.GenerateProposal | src/model_runner/server/generation/text_generation.rs:882-979 | the proposal loop ends within its limit with at least one token, and the draft cache lacks only the last proposed one |
| RequestExecutionObject.RequestExecution.VerifyProposal | src/model_runner/server/generation/text_generation.rs:547-588 | the verification loop stops at the first difference or an accepted end of sequence |
| RequestExecutionObject.RequestExecution.CommitSpeculativeTokens | src/model_runner/server/generation/text_generation.rs:590-618 | commits accepted tokens, then the replacement, never an end of sequence |
| RequestExecutionObject.RequestExecution.StepSpeculativeDecode | src/model_runner/server/generation/text_generation.rs:370-387 | an iteration leaves both caches at the committed tokens but the last, keeps the outcome and gets closer to it |
| RequestExecutionObject.RequestExecution.CompleteIteration | src/model_runner/server/generation/text_generation.rs:513-545 | verification, rollback of both caches and commit keep the lockstep |
| RequestExecutionObject.RequestExecution.RunToCompletion | src/model_runner/server/generation/text_generation.rs:277-655 | every run ends, for all token budgets, in what greedy target-only decoding of the input gives |
| RequestExecutionBatchObject.StepAloneRefines | src/model_runner/server/generation/text_generation.rs:343-655 | one request's step keeps its caches in lockstep and its target-only outcome, and strictly approaches the end |
| RequestExecutionBatchObject.PrefillKeepsToBudget | src/model_runner/server/generation/text_generation.rs:343-368 | a prefill step brings whichever cache lags behind to the lesser position plus the budget, at most to the last input token but one; a cache already there stays, none grows by more than the budget, and what is left is what is reported |
| RequestExecutionBatchObject.IterationReports | src/model_runner/server/generation/text_generation.rs:370-387 | a decode step proposes the draft's own tokens up to the smaller of the policy's count and the tokens still wanted, and tells the policy how many were accepted of how many |
| RequestExecutionBatchObject.SharedModel.Forward | src/model_runner/server/generation/text_generation.rs:762-814 | one pass over distinct requests extends each one's cache by its own input, within its page reservation, and answers from its own prefix |
| RequestExecutionBatchObject.ForwardSome | src/model_runner/server/generation/text_generation.rs:1015-1066 | inputs are collected and answers put back so that each request gets its own |
| RequestExecutionBatchObject.ExtendProposals | src/model_runner/server/generation/text_generation.rs:899-979 | one draft pass: every unfinished proposal grows by the token it would grow by alone |
| RequestExecutionBatchObject.GenerateDraftProposals | src/model_runner/server/generation/text_generation.rs:882-897 | the loop over a shrinking set of requests ends, and each has the proposal and draft cache it would have alone |
| RequestExecutionBatchObject.RunDraftPasses | src/model_runner/server/generation/text_generation.rs:759-791 | draft prefill and proposals leave each request as if alone |
| RequestExecutionBatchObject.RunTargetPass | src/model_runner/server/generation/text_generation.rs:981-1066 | the combined target pass leaves each request as if alone, with logits that answer for its proposal |
| RequestExecutionBatchObject.CompleteOne | src/model_runner/server/generation/text_generation.rs:1085-1113 | completing one request equals its step alone and touches no other cache |
| RequestExecutionBatchObject.RunSpeculativeDecodingSteps | src/model_runner/server/generation/text_generation.rs:759-1115 | the batched step equals stepping every request alone on its own caches, with every pass within each request's reservation; no other request's cache changes; neither model is fed more prefill tokens than the budgets of the prefilling requests add up to |
| SpeculativeSampling.VerificationLaw | src/model_runner/server/generation/sampler.rs:98-112 | the token from one verification follows theta * q + (1 - theta) * p |
| SpeculativeSampling.OutputDistance | src/model_runner/server/generation/sampler.rs:98-112 | that law is a distribution at total variation distance exactly min(budget, TV(p, q)) from the target |
| SpeculativeSampling.ExactWithoutBudget | src/model_runner/server/generation/sampler.rs:98-112 | without a budget the token follows the target's distribution |
| StochasticVerification.VerifyStochasticDraftToken | src/model_runner/server/generation/sampler.rs:113-164 | the sampler keeps the draft token if and only if the uniform draw is below the acceptance probability of the law; otherwise the residual it samples from has positive total and cannot return the rejected token; differing sizes are refused |
| StochasticVerification.ResidualWeights | src/model_runner/server/generation/sampler.rs:143-148 | the loop computes the residual weights and their sum, the total variation distance |
| StochasticVerification.MentoredMixture | src/model_runner/server/generation/sampler.rs:98-112 | in terms of the unnormalized weights the output is the documented mixture |
| SpeculativeLaw.IterationIsExact | src/model_runner/server/generation/text_generation.rs:547-618 | without a budget a multi-token iteration followed by anything that is true to the target gives every output its target probability |
| SpeculativeLaw.RoundsAreExact | src/model_runner/server/generation/text_generation.rs:513-655 | over any number of iterations, any draft model and any adaptive draft count, every output has the target's probability |
| ModelExecutorObject.ModelExecutor.PrepareModelInstances | src/model_runner/server/model_executor.rs:334-343 | both caches start the request, or neither |
| ModelExecutorObject.ModelExecutor.StartRequest | src/model_runner/server/model_executor.rs:189-232 | a start that fails anywhere leaves no cache state behind; one that succeeds leaves one in both caches; what restoring gives is a report here and GenerationRuns.BeginSucceeds there |
| ModelExecutorObject.ModelExecutor.FinishRequest | src/model_runner/server/model_executor.rs:274-320 | whether finishing succeeds or fails at either model, no cache state is left |
| ModelExecutorObject.ModelExecutor.AbortRequest | src/model_runner/server/model_executor.rs:322-332 | both caches forget the request even when one does not know it |
| RequestManagerObject.AdvanceExact | src/model_runner/server/execution/request_manager.rs:185-219 | every scheduled request gets exactly one result; a phase means it goes on executing, an error that it was cancelled or failed; nobody else's stage changes; closed clients are cancelled and a failed execution fails the rest |
| RequestManagerObject.AdvanceReplies | src/model_runner/server/execution/request_manager.rs:185-219 | every scheduled request gets the report that is its own: that of its place among the requests that could be executed, or the error of its stage, its client or the execution |
| RequestManagerObject.PrepareExact | src/model_runner/server/execution/request_manager.rs:301-359 | the batch is exactly the scheduled executing requests with a client; the others keep their stage or are cancelled |
| RequestManagerObject.RequestManager.AddRequest | src/model_runner/server/execution/request_manager.rs:106-129 | an id on the books is refused without effect; a request is registered exactly when the scheduler took it |
| RequestManagerObject.RequestManager.StartExecution | src/model_runner/server/execution/request_manager.rs:132-178 | a queued request becomes executing or failed to start; any other is left as it was |
| RequestManagerObject.RequestManager.AdvanceExecutions | src/model_runner/server/execution/request_manager.rs:185-219 | the loops over batch and results compute the advance that AdvanceExact describes, for any outcome of the model execution |
| RequestManagerObject.RequestManager.PrepareScheduledExecutions | src/model_runner/server/execution/request_manager.rs:301-359 | takes exactly the runnable requests out of the map |
| RequestManagerObject.RequestManager.FinishRequest | src/model_runner/server/execution/request_manager.rs:243-263 | takes an executing request off the books and reports its model-side completion; any other is left as it was |
| RequestManagerObject.RequestManager.AbortRequest | src/model_runner/server/execution/request_manager.rs:266-293 | takes a started request off the books; a queued one is left as it was |
| WorkerLedgers.AdmitMoves | src/model_runner/server/execution/scheduler.rs:130-157 | admitted ids are distinct and move from the queue to the active list; nobody else moves |
| WorkerLedgers.PhaseMoves | src/model_runner/server/execution/scheduler.rs:205-246 | a phase update moves nobody but a finished request, fails exactly when it would go back to prefill, and asks for publication only of a leader |
| WorkerLedgers.DepartureMoves | src/model_runner/server/execution/inference_worker.rs:287-297 | removal and termination of an active request succeed and move nobody else |
| WorkerLedgers.OthersKeepRole | src/model_runner/server/execution/prefix_cache_flight.rs:143-208 | what happens to one request neither makes another non-waiting request wait nor changes whether it leads |
| WorkerEnvironment.FirstPublicationsWork | src/model_runner/server/execution/inference_worker.rs:251-270 | when every start goes as some state of the caches in order has it, the publication that a request starting in decode may need never fails |
| WorkerEnvironment.CachesAnswer | src/model_runner/server/execution/inference_worker.rs:169-192 | whatever state of the caches in order a request is started in, its first phase follows from what was restored, the scheduler takes it over and the publication of its input works |
| InferenceWorkerObject.InferenceWorker.constructor | src/model_runner/server/execution/inference_worker.rs:70-88 | a new worker's ledgers agree |
| InferenceWorkerObject.InferenceWorker.EnqueueRequest | src/model_runner/server/execution/inference_worker.rs:132-155 | accepts a request exactly when its id is not on the books and then queues it as the scheduler does; the ledgers agree and each acceptance stays accounted for once |
| InferenceWorkerObject.InferenceWorker.ProcessRequests | src/model_runner/server/execution/inference_worker.rs:157-167 | one round, for every outcome of starts, publications, clients, model execution and finishing: scheduler, stages and reported outcomes are those of the round of WorkerRounds.RoundMeans; the ledgers agree again, each acceptance is still on the books or was reported exactly once, exactly the admitted requests leave the queue, and cache states leak exactly for requests whose publication failed right after their start, so for none if first publications work |
| WorkerRounds.RoundMeans | src/model_runner/server/execution/inference_worker.rs:157-229 | what a round is: each admitted request is executing in its reported first phase or off the books and reported; with a limit that is not zero and somebody active after the starts somebody is scheduled; each scheduled request follows the reply that is its own, on to the reported phase or off the books with one more report; the round-robin cursor moves as decided; nobody else is touched |
| WorkerRounds.FollowMeans | src/model_runner/server/execution/inference_worker.rs:194-297 | following one result: a phase that may be taken over, with its publication if one is due, is the scheduler's new phase; anything else takes the request off scheduler and books with one report; every other active request keeps entry, stage and role |
| WorkerRounds.StartMeans | src/model_runner/server/execution/inference_worker.rs:169-192 | starting one request: it executes in its first phase, or it leaves scheduler and books with one report |
| WorkerWakes.FollowWakes | src/model_runner/server/execution/inference_worker.rs:224-297 | whom one result wakes: a leader's published first decode phase and a clean completion all that follow it, any other end only the one that waited longest, everything else nobody |
| WorkerWakes.StartWakes | src/model_runner/server/execution/inference_worker.rs:169-192 | whom a start wakes: a leader that starts in decode and publishes its prefix all that follow it, a failed start the one that waited longest |
| WorkerBooks.EveryMessageTaken | src/model_runner/server/execution/inference_worker.rs:94-107 | after its messages were taken every request of theirs is on the books, new ones queued, and nobody left or was reported |
| WorkerServes.RoundAgrees | src/model_runner/server/execution/inference_worker.rs:157-297 | when starts, executions and finishing go as the requests' executions have them, the worker's round is the round of ServedRequests: the same scheduler, everything active executing, and a client told exactly when its request is done or has failed |
| WorkerServes.SomeWorldAnswers | src/model_runner/server/execution/inference_worker.rs:157-229 | for every choice of what is restored, refused, cancelled and failing there is such an environment |
| WorkerServes.WorkerServesEverybody | src/model_runner/server/execution/inference_worker.rs:90-112 | so the worker itself runs out of requests: after as many of its rounds as there is work queue and active list are empty and every client was told exactly once, of what target-only decoding of its input gives or of a failure |
| InferenceWorkerObject.InferenceWorker.Run | src/model_runner/server/execution/inference_worker.rs:90-112 | the loop, equal to taking messages and doing rounds on the books one after another: the ledgers agree after every round, and when starts go as the caches have them nothing ever leaks: the caches hold state for exactly the active requests |
| InferenceWorkerObject.InferenceWorker.TakeMessages | src/model_runner/server/execution/inference_worker.rs:94-107 | a worker without requests waits exactly when nothing has arrived; otherwise everything that has arrived is taken, in order, each new request queued as the scheduler does |
| InferenceWorkerObject.InferenceWorker.StartRequest | src/model_runner/server/execution/inference_worker.rs:169-192 | a start succeeds, fails without model state, or fails late when the first publication fails; scheduler and stages as the value-level start |
| InferenceWorkerObject.InferenceWorker.ProcessSchedulingDecision | src/model_runner/server/execution/inference_worker.rs:194-222 | every result is followed, completed or aborted; afterwards no request is in a failed stage |
| InferenceWorkerObject.InferenceWorker.CompleteExecutionStep | src/model_runner/server/execution/inference_worker.rs:224-249 | a finished request leaves every ledger with one outcome; a failed publication leaves it executing for the abort |
| InferenceWorkerObject.InferenceWorker.HandleGenerationPhase | src/model_runner/server/execution/inference_worker.rs:251-270 | a leader's prefix is published before its followers are woken; fails exactly on going back to prefill or a failed publication |
| InferenceWorkerObject.InferenceWorker.AbortStartedRequest | src/model_runner/server/execution/inference_worker.rs:272-285 | releases the model state and takes the request off the books with one outcome |
| InferenceWorkerObject.InferenceWorker.FinalizeRequestAbort | src/model_runner/server/execution/inference_worker.rs:287-297 | takes the request off scheduler and manager with one outcome; never fails |
| InferenceWorkerObject.LedgersCoincide | src/model_runner/server/execution/inference_worker.rs:89-112 | what the agreement that every method keeps means between rounds: scheduler queue and active list are the manager's queued and executing requests, and the caches hold exactly the executing ones if and only if nothing leaked |
| InferenceWorkerObject.LeakExample | src/model_runner/server/execution/inference_worker.rs:158-192 | why the worker depends on first publications working: if one failed, for the one-token input of a flight leader, its cache state would stay behind |
| ServedRequests.EveryRequestEnds | src/model_runner/server/execution/inference_worker.rs:157-297 | without further submissions, under every policy, token limit and coordination and with any draft model or none, the worker's queue and active list are empty after as many rounds as the scheduler state has work, a number known beforehand; then every request ended exactly once, with the tokens and finish reason of target-only decoding of its own input, or because it failed or was cancelled |
| ServedRequests.RoundProgresses | src/model_runner/server/execution/inference_worker.rs:157-229 | a round of admission, starts from any restored prefixes, one decision and the steps it names keeps every request in its place and on its way to its outcome, fails only the requests that fail or are cancelled, and leaves strictly less work unless the worker is out of requests |
| ServedRequests.DecisionGrants | src/model_runner/server/execution/scheduler.rs:259-391 | a decision grants at least one token to each of some different active requests whenever one is active and the limit is not zero |
| ServedRequests.StepRefines | src/model_runner/server/generation/text_generation.rs:304-655 | a step, speculative or target-only, keeps tokens and caches in lockstep and the outcome of target-only decoding, and strictly approaches the end |
| ServedRequests.SubmitKeeps | src/model_runner/server/execution/inference_worker.rs:132-155 | a request under a new id may be submitted between any two rounds |
| ServedRequests.NobodyServed | src/model_runner/server/execution/inference_worker.rs:70-88 | a new worker starts such runs |
| RoutingSpec.BestExact | src/model_runner/server/routing/routing_policy.rs:278-327 | the selected backend is the first that no other one beats by score, then by least recent selection |
| RoutingSpec.RouteRemembers | src/model_runner/server/routing/routing_policy.rs:293-327 | after a routing the selected backend, the override's or the best one, carries the new epoch and so was selected later than every other one; the other backends and all loads are as before |
| RoutingSpec.RoundRobinCycles | src/model_runner/server/routing/routing_policy.rs:25-41 | any n consecutive turns among n backends select each once, a turn being a selection of the least recently selected one that is remembered |
| RoutingSpec.RoutingCycles | src/model_runner/server/routing/request_orchestrator.rs:252-294 | over every run of routings with equal scores and releases of reservations in between, any n consecutive routings among n backends select each once: each routing is such a turn |
| RoutingSpec.SnapshotAdds | src/model_runner/server/execution/scheduler.rs:180-203 | the load snapshot of an empty scheduler is zero, and each queued or active request adds itself, its remaining prefill, its estimated cached prefix while queued, and the output it may still give |
| RoutingSpec.HandoverConserves | src/model_runner/server/execution/scheduler.rs:180-201 | publishing a newly enqueued request while releasing its reservation leaves the load a router sees unchanged if and only if the cached prefix was estimated without the last input token |
| RoutingObject.OrchestratorRoutingState.constructor | src/model_runner/server/routing/request_orchestrator.rs:245-250 | no load is reserved and no backend was selected |
| RoutingObject.OrchestratorRoutingState.RouteByScore | src/model_runner/server/routing/routing_policy.rs:278-327 | the selection loop and the recorded selection: an override wins, otherwise the backend nobody beats; exactly that backend gets the new epoch |
| RoutingObject.OrchestratorRoutingState.RouteRequest | src/model_runner/server/routing/request_orchestrator.rs:403-421 | selection and reservation in one step; the reservation carries what was reserved |
| RoutingObject.OrchestratorRoutingState.ReserveLoad | src/model_runner/server/routing/request_orchestrator.rs:260-274 | the backend's reserved load grows by the request's, no other backend changes |
| RoutingObject.OrchestratorRoutingState.ReleaseLoad | src/model_runner/server/routing/request_orchestrator.rs:276-294 | the backend's reserved load shrinks by the request's, which it must cover |
| RoutingObject.RoutingReservation.ReleaseAfter | src/model_runner/server/routing/request_orchestrator.rs:326-339 | snapshot and release happen together, and what is released is exactly what was reserved |
| RoutingObject.RoutingReservation.Drop | src/model_runner/server/routing/request_orchestrator.rs:342-352 | releases what is still reserved; after a release it changes nothing |
| RoutingReservations.StepKeepsOk | src/model_runner/server/routing/request_orchestrator.rs:260-352 | routing, dropping, enqueuing, handing over, leaving and publishing keep each reserved load equal to the sum of outstanding reservations and each request on one side |
| RoutingReservations.RunKeepsOk | src/model_runner/server/routing/request_orchestrator.rs:260-352 | the same over every interleaving of routers and workers |
| RoutingReservations.TakeBackCovered | src/model_runner/server/routing/request_orchestrator.rs:276-294 | a release never underflows |
| RoutingReservations.CountedOnce | src/model_runner/server/execution/inference_worker.rs:132-155 | each request is counted at most once, as reserved load or in a snapshot, at one backend, and whatever a worker has is counted |
| RoutingReservations.StaysCounted | src/model_runner/server/routing/request_orchestrator.rs:326-352 | a counted request stops being counted exactly when its reservation is dropped or its worker publishes after it left |
| RoutingReservations.StepMoves | src/model_runner/server/routing/request_orchestrator.rs:260-352 | what each step moves: routing reserves the request at its backend, a drop or a hand-over gives exactly that reservation back, enqueuing and leaving change what the worker has, a publication makes the snapshot what the worker has, and nothing else moves |
| RoutingReservations.HandOverKeepsOk | src/model_runner/server/routing/request_orchestrator.rs:326-339 | after a hand-over the request is in the snapshot and no longer reserved |
| RoutingReservations.RequestsSeen | src/model_runner/server/routing/routing_policy.rs:67-90 | published plus reserved request counts are the number of requests counted at the backend |

## Left out

- Key and value tensors: an entry is a pair of numbers that stands for a tensor slice; nothing is computed with them.
- The model: forward passes are functions of a request's own token prefix; attention, devices and kernels are not modelled.
- Floating point: sampling laws are over exact reals; rounding, softmax, temperature and the random generator are not modelled. A uniform draw is a parameter of the verification, and the token drawn from the residual weights is left to the law.
- Machine integers: ids, timestamps, epochs and counts are unbounded; saturating and checked arithmetic of u64 and usize never bites. Only the 32-bit limit on readers of one page is kept.
- KvCacheManagerObject.KvCacheManager.Truncate: after a cut below the cursor the cache is out of order, and what further operations do to it is not said.
- KvCacheManagerObject.KvCacheManager.PublishCompletedPrefix: whether the cache is in order after a publication that failed on layers with different complete blocks is not said.
- KvCacheManager over the contiguous backend: the manager is modelled for the paged backend; the contiguous cache is its own class, compared with the paged one operation by operation.
- ServingRuns.NoPreemptionInRuns: the append bound, rollbacks above the cursor and publication between passes are conditions on each cache operation; GenerationRuns derives them.
- GenerationRuns.GenerationNeverFails: a request leaves the scheduler and both caches in one operation, as the worker does unless a first publication fails, which the same theorem excludes; values of cache entries are arbitrary, GenerationContent gives them.
- RequestExecutionObject.RequestExecution.RunToCompletion: greedy mode only; the stochastic mode is covered by the law of its tokens, not by a run of the object.
- RequestExecutionBatchObject.RunSpeculativeDecodingSteps: errors of tensor conversions and of a missing output are left out, and so is the target-only batch, which is one pass of the same kind.
- RequestExecutionBatchObject.ForwardSome: generation and verification inputs of one combined pass are one list of per-request inputs, since distinct requests do not interact.
- StochasticVerification.VerifyStochasticDraftToken: weights are finite by being reals, so the check for non-finite weights is left out.
- InferenceWorkerObject.InferenceWorker.ProcessRequests: the outcome of model calls is arbitrary; only InferenceWorker.Run also says what follows when starts go as the caches have them. The executor there keeps the ids of cached requests, GenerationRuns the caches.
- ContiguousCache.AppendAgrees: when either cache is full is not related: one has a capacity in tokens per layer, the other pages for all layers and requests.
- WorkerServes.WorkerServesEverybody: nothing leaks in such runs; publications and finishing are taken to succeed, as GenerationRuns.PublicationSucceeds shows of the caches.
- ServedRequests.EveryRequestEnds: executions have the cache contents of RequestExecutionBatch, one sequence of tokens per model and request; a request's page tables are GenerationRuns. Ids are not used again after a request ended. Greedy mode only.
- GenerationContent.GenerationIsSound: sampled tokens are arbitrary, so it holds of greedy and stochastic decoding; which tokens are sampled is GreedyDecoding and SpeculativeLaw.
- GenerationConforms.StepConforms: relates lengths and passes; which tokens are passed is RequestExecutionBatch.
- Branches that agreement rules out, such as a result for a request the manager does not know, are assertions in the worker rather than code.
- RoutingReservations.RunKeepsOk: a worker's requests are a set; their remaining token counts enter only in RoutingSpec.HandoverConserves.
- RoutingObject.OrchestratorRoutingState.RouteByScore: scores are given; throughput profiles, work estimates and diagnostics are single expressions.
- Telemetry counters, statistics, histograms, timing metrics and accumulated indexed-token counts.
- Processes, sockets, channels, shutdown, configuration, tokenizers, detokenization and model loading.
