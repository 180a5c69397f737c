# FreeToken bookkeeping, modelled and proved in Dafny

FreeToken is an LLM inference engine. Tensors aside, what keeps it correct is bookkeeping: which KV
slot belongs to whom, which cached prefix may be evicted, which request is in which row, which expert
sits in which device slot. This project models that bookkeeping and proves what it promises, for every
input, every order of calls and every token a model may sample; where the code does not keep what it
promises, it gives the run that shows it and the exact condition under which it does.

Token ids and slots are integers, and a page is a sequence of tokens. Clocks, sampled tokens and
birth times of nodes are parameters. Five groups of modules follow the repository:

- **Prefix trees.** `PageTree` is the radix tree as a value over any node type, with the plain prefix
  map (`pages`) it stands for; `PathLocks` counts locks on paths; `RadixNodes`, `NodeScan` and
  `RadixCache` are the mutable tree and class `RadixPrefixCache`, for every page size. `Eviction` says
  what an eviction may do, `Recency` when each cached prefix was used last. `HybridTree`, `HybridEviction` and `HybridCache` add the snapshots, their
  locks, tombstones and cascades of class `HybridRadixCache`.
- **Slots.** `KvPool` is the KV pool, `SlotLedger` and `EngineLedger` the conservation law across pool,
  rows and tree. `Engine` is the class that shares the slots out, and `Runs` serves any sequence of
  requests, steps and aborts. A row without slots of its own is `refused`; what is given away in the
  name of such a row is the `surplus`; a lock without a row is a stray. `Sound()` is what every call
  keeps, with these three on record; `Valid()` says that there are none of them. `Contents` says what
  keys and values the slots hold, and `Reuse` what the requests of a whole run read from them.
- **Scheduling.** `Requests`, `Prefill`, `PrefillQueue`, `Decode` and `Scheduling` are the requests, the
  adder, the queue, the decode set and class `Scheduler`, and `Shares` is how a step is dealt out among
  the queued prompts. `Forward` is what a step gives the model, `Stepping` what it notes, and `Progress`
  why the generate loop ends in time. A ghost map `jobs` (row to request) is what they agree on.
- **Expert slots.** `ExpertPool` is the LRU pool as a value, `OffloadCache` class `OffloadMoeCache`, and
  `PoolRuns` serves any sequence of placements, copies, rebuilds and resets.
- **Loading and sizing.** `BankStream` packs streamed expert tensors into banks, `Ftw` writes and reads
  the archive, `CacheBudget` splits the VRAM.

`Finite`, `Arith`, `Sorting`, `Rosters` and `Paging` hold small facts the others share.

Three conventions run through the proofs. A lock carries a ticket, so that two locks on one path are
two locks; the engine uses the row as the ticket. A ghost value describes the heap between calls (a
tree, a ledger, a pool), and `Valid()` ties the fields to it. An eviction returns a ghost log of its
victims, so that its contract can speak about each moment of the run.

## Model

| member | source | states |
|---|---|---|
| Paging.CommonLenIs | python/freetoken/kvcache/_compare.py:22-40 | the comparison returns the length of the longest common prefix |
| Paging.AlignedMatch | python/freetoken/kvcache/radix_cache.py:290-297 | comparing tokens and rounding down to a page gives the number of equal pages |
| Paging.AlignDownIs | python/freetoken/kvcache/radix_cache.py:186 | rounding down is the whole quotient times the page size, and not larger |
| PageTree.SplitWellFormed | python/freetoken/kvcache/radix_cache.py:102-114 | splitting a node keeps the tree well formed and leaves the prefix map as it is |
| PageTree.GraftWellFormed | python/freetoken/kvcache/radix_cache.py:188-194 | a new leaf keeps the tree well formed and adds only prefixes that were not there |
| PageTree.PrunePages | python/freetoken/kvcache/radix_cache.py:213-222 | unlinking a leaf removes exactly the prefixes of its own span, with their slots |
| PageTree.BackingStep | python/freetoken/kvcache/radix_cache.py:128-143 | the slots of a boundary are those of its parent followed by the node's own |
| PathLocks.CountSpan | python/freetoken/kvcache/radix_cache.py:162-179 | every prefix inside a node is held by exactly the locks that hold the node, so one count per node is exact |
| PathLocks.CountSplit | python/freetoken/kvcache/radix_cache.py:102-114 | the head of a split is held by exactly the locks of the split node, so copying the count is right |
| PathLocks.IdleStep | python/freetoken/kvcache/radix_cache.py:166-179 | walking up, a node's tokens move between the counters exactly when its count is zero |
| PathLocks.IdleLock | python/freetoken/kvcache/radix_cache.py:173-179 | a lock moves exactly the unlocked prefixes of its path from evictable to protected |
| PathLocks.IdleLeafBelow | python/freetoken/kvcache/radix_cache.py:197-224 | unlocked nodes are closed under descendants: below each of them there is an unlocked leaf |
| PathLocks.PinnedBound | python/freetoken/kvcache/radix_cache.py:162-179 | the protected part, a union of root paths, is no larger than the locked lengths added up |
| RadixNodes.RadixTreeNode.SplitAt | python/freetoken/kvcache/radix_cache.py:102-114 | the exact new fields of both halves and of the parent; the head has no snapshot |
| RadixNodes.SplitNode | python/freetoken/kvcache/radix_cache.py:102-114 | the fields after a split represent the split tree, with every count still right |
| RadixNodes.TreeWalk | python/freetoken/kvcache/radix_cache.py:275-301 | the walk ends at the boundary of the longest cached whole-page prefix, changes nothing in the prefix map, and stamps exactly the root path it took |
| RadixNodes.PinPath | python/freetoken/kvcache/radix_cache.py:173-179 | locking leaves every count equal to the number of locks at or below the node, and pins exactly the tokens that were idle |
| RadixNodes.UnpinPath | python/freetoken/kvcache/radix_cache.py:164-172 | the same for unlocking; no count drops below zero |
| RadixCache.RadixPrefixCache.constructor | python/freetoken/kvcache/radix_cache.py:147-160 | an empty cache satisfies the invariant |
| RadixCache.RadixPrefixCache.LockHandle | python/freetoken/kvcache/radix_cache.py:162-179 | the lock is on record or gone, counts and both size counters stay exact |
| RadixCache.RadixPrefixCache.MatchPrefix | python/freetoken/kvcache/radix_cache.py:181-183 | the match is the longest page-aligned prefix in the map; the map is unchanged; exactly the prefixes of the match count as used now |
| RadixCache.RadixPrefixCache.GetMatchedIndices | python/freetoken/kvcache/radix_cache.py:128-143 | the indices are the slots of exactly the matched prefix, page after page |
| RadixCache.RadixPrefixCache.InsertPrefix | python/freetoken/kvcache/radix_cache.py:185-195 | only the missing suffix is added, the reported length is what was cached before, the handle ends at the aligned input; what was cached of it counts as used now, the rest as new, and no other prefix is touched |
| RadixCache.InsertedMeans | python/freetoken/kvcache/radix_cache.py:185-195 | insertion is insertion into a plain map in which the first writer wins |
| RadixCache.InsertedKeeps | python/freetoken/kvcache/radix_cache.py:185-195 | insertion keeps the slots of every locked prefix |
| RadixCache.EvictingKeeps | python/freetoken/kvcache/radix_cache.py:197-224 | eviction keeps the slots of every locked prefix |
| RadixCache.RadixPrefixCache.Evict | python/freetoken/kvcache/radix_cache.py:197-224 | for every size up to the evictable size it succeeds; it returns exactly the slots of the nodes that left; each victim is an unlocked leaf no other is older than; without the last victim fewer than `size` tokens would be free; no last use changes |
| Recency.TouchIsUse | python/freetoken/kvcache/radix_cache.py:275-301 | to stamp the nodes of a root path is to use exactly the cached prefixes of that path |
| Recency.InsertIsUse | python/freetoken/kvcache/radix_cache.py:185-195 | after an insertion the last use of a prefix is the walk for what was cached, the birth of the node for the rest, and what it was for all others |
| Recency.EvictIsNoUse | python/freetoken/kvcache/radix_cache.py:197-224 | an eviction, whole subtrees gone, leaves the last use of every prefix that stays |
| RadixCache.RadixPrefixCache.PageSizes | python/freetoken/kvcache/radix_cache.py:70-74 | every cached page is backed by exactly one page of slots |
| Eviction.SomeIdleLeaf | python/freetoken/kvcache/radix_cache.py:205-209 | while anything is evictable there is an unlocked leaf, so the assertion on an empty heap cannot fire |
| Eviction.IdleLeavesPrune | python/freetoken/kvcache/radix_cache.py:219-222 | unlinking a leaf can turn only its parent into an unlocked leaf, so the heap stays exact |
| RadixCache.HeldIndicesStay | python/freetoken/kvcache/radix_cache.py:128-143 | over any sequence of matches, insertions, locks, unlocks and evictions during which a lock is out, the slots of its handle stay the same |
| NodeScan.AllNodes | python/freetoken/kvcache/radix_cache.py:260-273 | the stack scan reaches every node of the tree and nothing else |
| HybridTree.LeafLocked | python/freetoken/kvcache/hybrid_radix_cache.py:248-266 | a leaf that any lock holds carries a live snapshot that is locked, so a locked leaf is never a tombstone |
| HybridTree.PruneSnaps | python/freetoken/kvcache/hybrid_radix_cache.py:254-265 | a tombstone leaf that goes takes no snapshot along and can expose only its parent |
| HybridEviction.CascadeTombstones | python/freetoken/kvcache/hybrid_radix_cache.py:248-266 | the loop computes the cascade, returns exactly the slots it freed, and leaves every leaf with a live snapshot |
| HybridEviction.DropLeaf | python/freetoken/kvcache/hybrid_radix_cache.py:176-184 | dropping an idle leaf frees its snapshot, its KV and the tombstones it exposes, and nothing else |
| HybridEviction.FreedSpare | python/freetoken/kvcache/hybrid_radix_cache.py:236-241 | freed snapshots leave the evictable ones one by one; those in use are untouched |
| HybridCache.HybridRadixCache.constructor | python/freetoken/kvcache/hybrid_radix_cache.py:77-88 | an empty hybrid cache satisfies the invariant with all four counters zero |
| HybridCache.HybridRadixCache.Integrity | python/freetoken/kvcache/hybrid_radix_cache.py:228-233 | between calls every non-root leaf has a live snapshot, both counts of a node are the locks they stand for, and a path is locked at least as often as its snapshot |
| HybridCache.HybridRadixCache.MatchPrefix | python/freetoken/kvcache/hybrid_radix_cache.py:91-104 | the match is the deepest boundary on the input's path that owns a live snapshot, with the slots of exactly that length; exactly the cached prefixes of the input count as used now |
| HybridCache.HybridRadixCache.Insert | python/freetoken/kvcache/hybrid_radix_cache.py:106-130 | first writer wins for KV; the snapshot is taken exactly when the end node is no root and has none; all four counters stay exact; what was cached of the input counts as used now, a new node as born now, and no other stamp changes |
| HybridCache.DonatedMatched | python/freetoken/kvcache/hybrid_radix_cache.py:91-130 | a snapshot donated at the end of an input is what a match of that input restores from |
| HybridCache.HybridRadixCache.IncLock | python/freetoken/kvcache/hybrid_radix_cache.py:133-148 | locking a node that a match returned keeps the whole invariant and both pairs of counters |
| HybridCache.HybridRadixCache.DecLock | python/freetoken/kvcache/hybrid_radix_cache.py:150-163 | unlocking undoes it |
| HybridCache.HybridRadixCache.EvictFull | python/freetoken/kvcache/hybrid_radix_cache.py:166-185 | frees at least min(n, evictable) tokens, oldest idle leaf first, and takes no leaf once n tokens, cascades included, are free; returns exactly the slots and snapshots that left |
| HybridCache.HybridRadixCache.EvictMamba | python/freetoken/kvcache/hybrid_radix_cache.py:187-209 | frees exactly min(n, evictable) snapshots, oldest first; returns exactly what left |
| HybridCache.DroppingKeeps | python/freetoken/kvcache/hybrid_radix_cache.py:166-209 | neither eviction touches a locked prefix or a snapshot in use |
| Sorting.SortSorts | python/freetoken/kvcache/mha_pool.py:84-90 | sorting a free list orders it and loses nothing |
| KvPool.MHAKVCache.Allocate | python/freetoken/kvcache/mha_pool.py:57-82 | takes the lowest slots or changes nothing; each failure exactly under its condition |
| KvPool.MHAKVCache.Free | python/freetoken/kvcache/mha_pool.py:84-90 | the owner's slots are free again, exactly once; a no-op for an unknown owner |
| KvPool.MHAKVCache.Detach | python/freetoken/kvcache/mha_pool.py:92-104 | the slots leave the ledger of the pool and are handed to the caller |
| KvPool.MHAKVCache.FreeSlots | python/freetoken/kvcache/mha_pool.py:112-127 | slots without an owner join the free list |
| SlotLedger.SlotsExclusive | python/freetoken/engine/engine.py:646-680 | under the conservation law an allocated slot is not free, in no other row, not in the tree and at no other position |
| SlotLedger.SlotOwned | python/freetoken/engine/engine.py:958-1006 | no slot is lost: each is free, allocated or in the tree |
| SlotLedger.OwnedRemoved | python/freetoken/engine/engine.py:677-678 | what an eviction returns is what the tree owns no more |
| SlotLedger.OwnedInserted | python/freetoken/engine/engine.py:974-1006 | what the tree adopts at a commit are the slots past the part it had |
| EngineLedger.AdmissionFits | python/freetoken/engine/engine.py:664-680 | in a pool of `n` full rows with fewer than `n` live, and no lock longer than what its row reuses, free and evictable slots cover one more row |
| EngineLedger.WholePromptMatchDoesNotFit | python/freetoken/engine/engine.py:604-606 | without that bound on locks the argument fails, always: in a pool of one full row and with nothing live, a prompt cached whole does not fit, since the full handle is locked and the clamped length reused |
| Engine.OneRowPool | python/freetoken/engine/engine.py:155-192 | in a pool of one full row, the conditions under which an admission is sure to succeed and those under which it is sure to fail leave nothing between them: it depends on whether the prompt is cached whole |
| Engine.Reclaim | python/freetoken/engine/engine.py:677-678 | evicted slots go to the free list; the law holds and locked prefixes stay |
| Engine.TakeSlots | python/freetoken/engine/engine.py:668-679 | allocate, else evict and retry once: succeeds if and only if free and evictable slots together suffice; nothing is evicted if enough slots are free, otherwise the least recently used idle leaves, and none after enough |
| Engine.RoomMeans | python/freetoken/engine/engine.py:668-679 | what that leaves of the cache: all of it if the free slots suffice, and exactly the locked prefixes if there are too few slots even so |
| Engine.CommitStart | python/freetoken/engine/engine.py:981-1003 | the part found cached at a commit is never shorter than what the row reused |
| Engine.AdoptRow | python/freetoken/engine/engine.py:962-974 | the history is inserted prefix by prefix with the slots its row mapped it to, first writer first; the tree adopts exactly the slots from the first uncached token on; the history, and nothing else, counts as used now |
| Engine.CommitRow | python/freetoken/engine/engine.py:958-1006 | unlock, adopt, detach and free the redundant and the never-written slots: the history is in the tree and, for a row with slots of its own, the law holds again; for a refused row just its entries past the reused prefix are given away once too often |
| Engine.Engine.constructor | python/freetoken/engine/engine.py:83-192 | a fresh engine satisfies the invariant, every slot but slot 0 free |
| Engine.Engine.Conserves | python/freetoken/engine/engine.py:646-680 | every slot from 1 up has exactly one owner if and only if there is no surplus |
| Engine.Engine.AllocateSlot | python/freetoken/engine/engine.py:646-680 | succeeds exactly when free and evictable slots cover the rest of the row, and then fills the whole row and no other; evicts only if the free slots do not suffice, and no more leaves than it takes |
| Engine.Engine.AddRequest | python/freetoken/engine/engine.py:559-644 | reuses the longest cached prefix but never the whole prompt, and counts exactly that prefix as used; joins the end of the queue; is admitted exactly when there is a free row and free and evictable slots cover the rest of it; evicts nothing if the free slots cover it; after a failure the state is exactly the one described in the next two rows |
| Engine.Engine.Admit | python/freetoken/engine/engine.py:605-679 | with a free row: in a pool sized for all rows a prompt that is not cached whole is always admitted; without slots the request stays queued and locked on a refused row, and of the cache exactly the locked prefixes are left |
| Engine.Engine.TurnAway | python/freetoken/engine/engine.py:604-638 | without a free row: nothing changes but that the matched prefix is locked for good and counts as used |
| Engine.Engine.RoomForOne | python/freetoken/engine/engine.py:155-192 | the sizing argument at the call: with a free row, an uncapped pool and honest handles, one more row fits |
| Engine.Engine.FindCacheHandle | python/freetoken/engine/engine.py:728-739 | the handle found is that of the live request the uid means |
| Engine.Engine.AbortRequest | python/freetoken/engine/engine.py:682-726 | exactly the request meant goes, in any phase: its lock is released, its slots are free again, and a refused row leaves no trace; nothing happens exactly if no live request has the uid |
| Engine.Engine.CommitOne | python/freetoken/engine/engine.py:958-1006 | a finished request gives up row, lock and slots, its history is in the tree and counts as used now, and the other rows keep what they have |
| Engine.Engine.CommitFinished | python/freetoken/engine/engine.py:958-1006 | the same for all finished requests of a step; the tree gets their histories and nothing else, no other prefix counts as used, and a surplus comes up exactly if one of them was refused |
| Engine.Engine.CompleteStep | python/freetoken/engine/engine.py:1030-1034 | freeing the rows the scheduler gave back is a no-op for slots that were detached |
| Engine.Engine.Step | python/freetoken/engine/engine.py:749-1035 | a step keeps the whole invariant, is a prefill step exactly if a queued prompt can be given a part of it, gives the model exactly what comes next of each history in its batch, advances exactly those requests, and drops exactly those that are over, in the order of the batch, with their histories in the tree, used now, a shared part with the slots of the first; a surplus comes up exactly if a refused request ends; it idles exactly if nothing decodes and no queued prompt can be given anything, and so, with a positive budget and prompts that fit alone, exactly when nothing is live |
| Forward.ForwardInputs | python/freetoken/engine/engine.py:783-835 | the loops over the batch collect, request after request, the tokens of its history that follow those computed so far, with their positions and their number |
| Forward.StretchAt | python/freetoken/engine/engine.py:783-835 | input by input: after those of the requests before it, a request has its next tokens in order, each at its position in the history |
| Forward.StepFeeds | python/freetoken/engine/engine.py:783-887 | the inputs of a step begin for every request where those of its last step ended, so that over a run every position is computed once, from the token it holds; requests outside the batch give nothing |
| Forward.LastNotFed | python/freetoken/engine/engine.py:862-956 | a request that is over has given the model all of its history but the last token |
| Engine.Engine.RowIsolated | python/freetoken/engine/engine.py:646-680 | at or past its reused length, a live row's positions map to distinct slots that no other row, no tree node and no free list holds |
| Engine.Engine.StepAndCollect | python/freetoken/engine/engine.py:1079-1095 | one round of the loop: outputs stay what each request got, if no two share a uid |
| Engine.Engine.RunSteps | python/freetoken/engine/engine.py:1078-1095 | the loop, for any budget: one step after the other with the tokens of the model, as many as the budget allows or until nothing can be scheduled; outputs are what each request got if no two share a uid, a request that needs more prefill steps than were taken is still live, and nothing is live afterwards if the budget covers the work |
| Engine.Engine.Generate | python/freetoken/engine/engine.py:1037-1096 | outputs in admission order, each what the request was given in these steps, and exact if it ended, if no two live requests share a uid; the loop takes the steps of the row above; from an empty decode set, and with prompts that fit alone, nothing is live afterwards if the default budget covers the work |
| Engine.Engine.GenerateOne | python/freetoken/engine/engine.py:1056-1095 | with one prompt in the queue, which fits alone, and nothing decoding, nothing is live after the default budget if and only if its output length is not negative or the part already done makes up for it |
| Runs.LawOfRuns | python/freetoken/engine/engine.py:646-1006 | through any run of requests, steps and aborts, every slot has one owner at the end if and only if no step ended a refused request, that is, each was aborted before |
| Runs.SmoothRuns | python/freetoken/engine/engine.py:559-1006 | while every request is admitted, no row is refused, no slot has two owners and no lock is without a row |
| Runs.Serve | python/freetoken/engine/engine.py:559-1035 | the calls in any order and number: each state is sound, and both laws of runs hold of the engine's own fields |
| Runs.AskedAgain | python/freetoken/engine/engine.py:604-679 | the run that breaks the law: asked again, a prompt cached whole is refused; aborted, it leaves everything valid; stepped, its slots have two owners |
| Runs.StraysStay | python/freetoken/engine/engine.py:604-638 | the lock of a request that was turned away is never released |
| Runs.TurningAwayCosts | python/freetoken/engine/engine.py:604-638 | it takes exactly the idle slots of its match from everybody else; nothing is lost if and only if all of them were locked already |
| Runs.StrayStarves | python/freetoken/engine/engine.py:604-638 | in a pool of one full row it refuses, from then on, every prompt that comes when nothing is live and does not begin with what it holds |
| Contents.ComputedIs | python/freetoken/kvcache/base.py:172-203 | a row whose slots hold the right keys and values for its text so far writes right ones, and keeps reading right text; a row that reads one wrong slot writes nothing right |
| Contents.StepTold | python/freetoken/engine/engine.py:749-1006 | a step changes nothing of what other rows or the cache read; of what it brings into the cache exactly the last prefix of each history, and what rows with wrong text bring, is wrong |
| Contents.JoinedTold | python/freetoken/engine/engine.py:604-680 | a request that joins reads right text exactly if none of the cached prefixes it reuses is wrong; its own slots hold nothing yet, and nobody else is touched |
| Reuse.RunHolds | python/freetoken/engine/engine.py:559-1035 | at every point of any run in which nobody is refused it is known exactly which cached prefixes have right slots and which requests read right text |
| Reuse.ServeKnown | python/freetoken/engine/engine.py:559-1035 | the calls in any order and number: the states of the engine itself make such a run |
| Reuse.SoundReuse | python/freetoken/engine/engine.py:604-665 | all requests of a run read right text from beginning to end if and only if none of them, when it comes, reuses a prefix that is wrong |
| Reuse.OnlyLastTokens | python/freetoken/engine/engine.py:958-974 | until that happens, the only wrong prefixes are whole histories of requests that ended: of each, the slot of its last token |
| Reuse.FreshPrompts | python/freetoken/engine/engine.py:604-974 | in particular, they all do as long as no prompt goes on where an earlier answer ended |
| Reuse.LastTokenWrong | python/freetoken/engine/engine.py:958-974 | a history that was not cached in full when its request ended is such a prefix from then on |
| Reuse.FollowUpReadsWrong | python/freetoken/engine/engine.py:604-665 | a prompt that goes on where such a history ends, while it is cached, reads the slot that nobody has written |
| Reuse.NextTurn | python/freetoken/engine/engine.py:604-974 | the run: the prompt [7] is answered by 8, and the prompt [7, 8, 9] reuses the slot of the 8 |
| Requests.SlicesCover | python/freetoken/scheduler/prefill.py:243-293 | a prompt's slices tile its uncached part with no gap and no overlap |
| Requests.StepsJoined | python/freetoken/scheduler/prefill.py:228-293 | a prompt joins exactly ceil(uncached / budget) prefill steps |
| Requests.EmitOngoing | python/freetoken/engine/engine.py:857-956 | a request ends with max(1, output_len) tokens, or fewer that stop at its first honoured end token |
| Prefill.PrefillAdder.TryAllocateOne | python/freetoken/scheduler/prefill.py:184-209 | reserves a running slot and the prompt's footprint exactly when both gates let the prompt in |
| Prefill.PrefillAdder.UndoAllocation | python/freetoken/scheduler/prefill.py:211-226 | the inverse: from whatever state the prompt's allocation led to the present one, that state is back |
| Prefill.PrefillAdder.AddOneReq | python/freetoken/scheduler/prefill.py:228-293 | the slice granted, whether it is the last, and the budget left |
| Prefill.PrefillAdder.TryAddOne | python/freetoken/scheduler/prefill.py:295-362 | admits, or leaves budget and reservations as they were, the rollback of a reservation included |
| Prefill.AdmitNext | python/freetoken/scheduler/prefill.py:409-428 | offering a queued prompt advances its job by exactly the slice and keeps the queue in order |
| PrefillQueue.PassOne | python/freetoken/scheduler/prefill.py:409-438 | one round of the pass keeps at most one prompt mid-chunk, at the head |
| PrefillQueue.PrefillManager.ScheduleNextBatch | python/freetoken/scheduler/prefill.py:385-456 | whatever is decoding: each prompt gets its greedy share of the step in queue order, the tokens in flight and the estimates of the new prompts never exceed the pool, and the batch is the prompts with a share, in that order; the queue is then the one that was cut short followed by those left out, in their order; the batch extends at least one token and at most the budget, and the request cap never rejects |
| PrefillQueue.OfferIsShare | python/freetoken/scheduler/prefill.py:184-362 | what the adder grants a prompt is the share that the prompts before it, the budget and the pool leave it |
| Shares.ShareIs | python/freetoken/scheduler/prefill.py:228-362 | a share is nothing, or all that is left of the prompt, or all that is left of the step; the last only for a prompt under way or the first that gets anything |
| Shares.HeadJoins | python/freetoken/scheduler/prefill.py:307-362 | with a positive budget the first prompt gets a share exactly if it is under way or its estimate fits the pool beside the tokens in flight |
| Shares.LaterJoins | python/freetoken/scheduler/prefill.py:295-362 | a new prompt behind one with a share gets a share exactly if all of it fits what is left of the step, and its estimate what is left of the pool |
| Shares.SomeoneJoins | python/freetoken/scheduler/prefill.py:409-438 | somebody gets a share exactly if a prompt under way is first or some new prompt could have the step to itself |
| Shares.PoolKept | python/freetoken/scheduler/prefill.py:184-209 | the estimates of the new prompts of a step and the tokens in flight never exceed the pool together |
| Decode.DecodeManager.FilterReqs | python/freetoken/scheduler/decode.py:36-52 | the decode set becomes the merged requests that can still decode |
| Decode.MergedAre | python/freetoken/scheduler/decode.py:36-52 | merging adds each request once |
| Decode.DecodeManager.AbortReq | python/freetoken/scheduler/decode.py:57-69 | drops the first request with the uid, and only that |
| Decode.DecodeManager.InflightTokens | python/freetoken/scheduler/decode.py:71-76 | the sum of what the decode set may still need |
| Decode.RemainingIsOwed | python/freetoken/scheduler/decode.py:71-76 | that is, of every decoding request what its output length leaves it |
| Decode.DecodeFeeds | python/freetoken/engine/engine.py:802-820 | a decoding request brings its newest token to the next step, at the last position of its history |
| Decode.DecodeManager.ScheduleNextBatch | python/freetoken/scheduler/decode.py:78-82 | each request of the decode set once, uids never decreasing; nothing exactly if the set is empty |
| Decode.SortOrders | python/freetoken/scheduler/decode.py:78-82 | sorting a decode set orders it by uid |
| Scheduling.RowsAddUp | python/freetoken/scheduler/scheduler.py:68-117 | free, queued, decoding and in-flight rows always add up to all rows |
| Scheduling.AddedRow | python/freetoken/scheduler/scheduler.py:68-89 | the row handed out was free and belongs to nobody |
| Scheduling.TargetNone | python/freetoken/scheduler/scheduler.py:93-117 | no request is meant by a uid exactly if no live request, queued or decoding, has it |
| Scheduling.FreedRows | python/freetoken/scheduler/scheduler.py:199-201 | freed rows return exactly once |
| Scheduling.FreedAreOver | python/freetoken/scheduler/scheduler.py:176-198 | the diff of the decode set together with the scan of the batch finds exactly the requests that are over, those that end in their own prefill step included |
| Scheduling.KeptRunning | python/freetoken/scheduler/scheduler.py:176-178 | the decode set after a step lists exactly the requests that go on |
| Scheduling.Scheduler.Add | python/freetoken/scheduler/scheduler.py:68-89 | queues on the lowest free row, or refuses when there is none |
| Scheduling.Scheduler.Abort | python/freetoken/scheduler/scheduler.py:93-117 | frees exactly the row of the request meant, and takes exactly it out of the queue or the decode set |
| Scheduling.Scheduler.Schedule | python/freetoken/scheduler/scheduler.py:121-149 | prefill first, whatever is decoding: the batch is a prefill batch exactly if a queued prompt can be given a share of the step, and then the one the prefill manager makes; no batch exactly if that is not so and nothing decodes, hence, if each prompt fits alone, exactly when no request is live |
| Scheduling.FairPrefills | python/freetoken/scheduler/scheduler.py:121-149 | there is a prompt to prefill exactly if the first one is under way or some new one fits budget and pool beside what is in flight |
| Scheduling.Scheduler.Complete | python/freetoken/scheduler/scheduler.py:151-202 | removes exactly the requests that are over and keeps the row partition |
| Stepping.NoteToken | python/freetoken/engine/engine.py:857-956 | a token moves one request on, with its history, lengths and stop flag; what the request brings to its next step is the newest token, and the cached length is that of the prompt if its last part did not begin at 0 |
| Stepping.NoteTokens | python/freetoken/engine/engine.py:857-956 | every complete request of the batch gets its token, chunks get none; the finished ones are reported once |
| Stepping.NoteBatch | python/freetoken/engine/engine.py:857-956 | after that the batch can be completed |
| Progress.StepNeedsLess | python/freetoken/engine/engine.py:1078-1095 | every step strictly decreases the work that remains |
| Progress.BudgetCovers | python/freetoken/engine/engine.py:1056-1062 | the default budget is at least the work of the queue |
| Progress.NegativeOutputStarves | python/freetoken/engine/engine.py:1056-1062 | with a negative output length it may allow fewer steps than the prompt has to join; such a prompt is still live after the loop |
| Progress.BudgetOfOne | python/freetoken/engine/engine.py:1056-1062 | for one prompt the budget covers the work if and only if the output length is not negative or the part already done makes up for it, and otherwise it is too small even for the prompt |
| Progress.SureWithout | python/freetoken/engine/engine.py:1056-1062 | without negative output lengths the default budget is sure to be enough |
| Progress.SureForOne | python/freetoken/engine/engine.py:1056-1062 | for one prompt it is sure to be enough exactly under the condition above |
| Progress.BehindMore | python/freetoken/engine/engine.py:1078-1095 | no step takes more than one prefill step off a prompt: after `n` steps, whoever needed more than `n` is live |
| Progress.Collect | python/freetoken/engine/engine.py:1089-1095 | the loop over a step's requests appends one token per complete request, in batch order |
| Progress.TracksStep | python/freetoken/engine/engine.py:1078-1096 | what the loop collected is at every step exactly what each request was given |
| Progress.OutsMore | python/freetoken/engine/engine.py:1078-1096 | what the loop has collected for a prompt after each step is its output as of the last step it was live in |
| ExpertPool.InverseUnique | python/freetoken/moe/offload_cache.py:401-435 | one inverse map determines the other: deriving it again changes nothing |
| ExpertPool.FreeIsVictim | python/freetoken/moe/offload_cache.py:531-536 | the first empty slot is what the LRU choice would be anyway |
| ExpertPool.VictimElsewhere | python/freetoken/moe/offload_cache.py:619-624 | while an expert of the step is missing, the victim holds none of them, ties included |
| ExpertPool.PlaceMiss | python/freetoken/moe/offload_cache.py:617-636 | a miss keeps maps inverse and every absent expert outlived by all slots |
| ExpertPool.ResidentsAreRecent | python/freetoken/moe/offload_cache.py:501-556 | every resident expert was touched at least as recently as every absent one since the last reset |
| ExpertPool.RecentAreResident | python/freetoken/moe/offload_cache.py:593-647 | if the experts touched since a step are no more than the slots, all of them are resident |
| ExpertPool.HitStays | python/freetoken/moe/offload_cache.py:501-508 | a hit keeps its slot through the whole step |
| OffloadCache.LruVictim | python/freetoken/moe/offload_cache.py:623 | the slot of least usage, the lowest among equals |
| OffloadCache.PlaceMissing | python/freetoken/moe/offload_cache.py:517-543 | the loop places every missing expert and never overruns the staging buffers |
| OffloadCache.Resync | python/freetoken/moe/offload_cache.py:401-435 | run on inverse maps it changes nothing |
| OffloadCache.CopyRows | python/freetoken/moe/offload_cache.py:668-672 | exactly the staged slots get exactly the staged rows |
| OffloadCache.CopiedLoaded | python/freetoken/moe/offload_cache.py:651-674 | once the staged rows are copied every owned slot equals its host row |
| OffloadCache.OffloadMoeCache.constructor | python/freetoken/moe/offload_cache.py:231-297 | an empty pool satisfies the invariant |
| OffloadCache.OffloadMoeCache.SetBankSources | python/freetoken/moe/offload_cache.py:301-321 | attaches the sources in schema order; refuses exactly names other than the schema's, leaving all as it was, or a wrong number of layers, with the banks before the first such one attached |
| OffloadCache.OffloadMoeCache.MaterializeLayer | python/freetoken/moe/offload_cache.py:461-556 | the whole layer is resident, exactly its misses are staged, only staged slots changed hands |
| OffloadCache.OffloadMoeCache.EnsureExperts | python/freetoken/moe/offload_cache.py:560-647 | the same for the routed experts, each counted once; refuses exactly a one-slot pool with banks |
| OffloadCache.OffloadMoeCache.CopyMissing | python/freetoken/moe/offload_cache.py:651-674 | afterwards every owned slot equals its host row in every bank |
| OffloadCache.OffloadMoeCache.Rebuild | python/freetoken/moe/offload_cache.py:342-388 | an empty pool of the new size over the same host banks; refuses exactly a size below one layer |
| OffloadCache.OffloadMoeCache.Reset | python/freetoken/moe/offload_cache.py:437-450 | an empty pool, history forgotten |
| PoolRuns.ServePool | python/freetoken/moe/offload_cache.py:342-674 | over any sequence of placements with their copies, rebuilds and resets, slots and inverse map agree, every owned slot equals its host row in every bank, and the pool is the least recently used pool of exactly the experts these events touched since it was last emptied |
| BankStream.StreamOne | python/freetoken/models/weight.py:856-890 | one tensor: complete banks are packed at once and leave the buffer; an error says exactly what is wrong with the tensor |
| BankStream.StreamBanks | python/freetoken/models/weight.py:814-898 | succeeds if and only if no key is foreign, repeated or missing and every bank packs; the banks are those of grouping everything first; an error names the first thing that is wrong |
| BankStream.FaultDooms | python/freetoken/models/weight.py:814-890 | after a tensor that is refused no continuation of the stream can be accepted |
| BankStream.AnyOrder | python/freetoken/models/weight.py:1054-1129 | every permutation of an accepted stream is accepted and gives the same banks |
| BankStream.BufferIsLean | python/freetoken/models/weight.py:1499-1504 | the buffer never holds a complete bank nor one that is packed |
| BankStream.CompleteStays | python/freetoken/models/weight.py:866-876 | nothing that comes later can belong to a complete bank |
| Ftw.FtwArchive.Write | python/freetoken/checkpoint/ftw.py:108-131 | index and blob stand for the dictionary of what was written; offsets aligned, regions apart, at most 7 bytes of padding per tensor |
| Ftw.FtwArchive.Read | python/freetoken/checkpoint/ftw.py:185-200 | the slices in index order; an empty blob cannot be read |
| Ftw.ReadsBack | python/freetoken/checkpoint/ftw.py:108-200 | reading gives back every tensor if and only if there is a byte to map; with distinct names, exactly the tensors written, in order |
| CacheBudget.PlanFits | python/freetoken/engine/cache_budget.py:207-257 | all that may be used is shared out, both minimums hold, no further page fits, and the expert cache has the most slots that the reserve and the operator's share allow, or its minimum |
| CacheBudget.PlanExists | python/freetoken/engine/cache_budget.py:207-257 | there is a plan exactly if the arguments make sense and the budget covers both minimums |
| CacheBudget.PinnedFits | python/freetoken/engine/cache_budget.py:385-441 | what is granted fits with the reserved pages and the pinned experts, a capped grant is the largest that does, and a refusal means not one page fits |
| CacheBudget.GrantExists | python/freetoken/engine/cache_budget.py:385-441 | pages are granted exactly if nothing is known of the device, or the arguments make sense and one page fits with those reserved |

## Where code and documentation differ

- `_resync_slot_for_id` (python/freetoken/moe/offload_cache.py:401-435) is documented as repairing
  entries that the placement loops leave stale. The loops clear the evicted expert's entry through the
  flat view, which is the right one, so the maps are inverse already and the resync changes nothing.
- `filter_reqs` (python/freetoken/scheduler/decode.py:36-52) is documented as moving a request that is
  present to the end. Assigning to a key an ordered dictionary has keeps its place.
- `add_request` (python/freetoken/engine/engine.py:566-570) is documented as raising at the request cap, so
  that a caller can reject the request cleanly. The matched prefix is locked before the scheduler
  refuses (lines 605 and 638), and nothing releases it: `Engine.Engine.TurnAway`, `Runs.StraysStay`, `Runs.StrayStarves`.
  It is clean if and only if no matched prefix was idle (`Runs.TurningAwayCosts`).
- `add_request` locks the full handle but clamps the reused length (lines 604-606), so a pool sized for
  its rows can be one slot short (`EngineLedger.WholePromptMatchDoesNotFit`), and the failure of the
  slot allocation (line 679) leaves the request queued. Slots stay shared out if and only if every such
  request is aborted before a step it would end with (`Runs.LawOfRuns`); `Runs.AskedAgain` is the run.
- `step` commits the whole history of a finished request, so that a later request can reuse it instead of
  recomputing it (python/freetoken/engine/engine.py:958-974). The last token was sampled but never given to
  the model (`Forward.LastNotFed`), so its slot holds nothing: `Reuse.LastTokenWrong`. Reuse is right if and
  only if no prompt reuses such a slot (`Reuse.SoundReuse`); a prompt that continues the answer always does
  (`Reuse.FollowUpReadsWrong`), and `Reuse.NextTurn` is the run.
- `generate` (python/freetoken/engine/engine.py:1056-1062) takes a negative output length off its budget,
  which can then be too small for the prompts: `Progress.NegativeOutputStarves`, `Engine.Engine.GenerateOne`.

## Left out

- Contents.JoinedTold: counts the slots of a new row as not written, whatever their last owner left in them. What
  the slots hold is stated for runs in which no admission runs out of slots; a refused row writes to foreign slots.
- The slot partition for page sizes above 1: the tail between the aligned and the full length is neither
  adopted nor freed. `Engine` uses page size 1; the trees, the pool and the adder are for every page size.
- Linear-state slots and tool-call anchors (`linear_state_pool`, `_mamba_anchor_snapshots`,
  `snapshot_toolcall_anchor`): overwriting an anchor or aborting after a donation breaks unique ownership.
- Engine.Engine.AddRequest: assumes a non-empty prompt and a request that fits its row; the source checks neither,
  and past the end of a row its table has no entries to read.
- Engine.Engine.CommitRow: says of a refused row which slots are given away, not whose they were before; its table
  entries past the reused prefix are those of an earlier request.
- Engine.Engine.Generate: says nothing of the outputs of live requests that share a uid, which the source collects
  in one list, and nothing of how long a prompt waits behind others that the pool gate lets pass.
- HybridCache.HybridRadixCache.IncLock: takes a node that `match_prefix` can return, the root or one with a live snapshot;
  the source would lock a node without a snapshot too, which no caller asks for.
- `CacheManager` (python/freetoken/scheduler/cache.py:36-79) only forwards to the tree; its calls are inlined.
- Heaps are sets from which a least-timestamp member is taken, so ties go any way. The guards that skip
  stale heap entries never fire, because the set is exact at every round.
- `RadixPrefixCache.reset`, `check_integrity`, `Scheduler.idle`, `next_table_idx_of`, logging and counters of
  admissions or misses, `active_mask` and extra metadata.
- Shares.PoolKept: a bound for the new prompts of one step; continuations skip the pool gate, so there is none
  across steps.
- HybridEviction.DropLeaf: starts the cascade at the leaf whose snapshot was freed, where the source unlinks that
  leaf and cascades from its parent; the nodes that go are the same.
- OffloadCache.PlaceMissing: one loop with a flag for the two loops of the source, which differ in preferring an empty slot.
- OffloadCache.OffloadMoeCache.CopyMissing: coherence assumes what the callers do, a copy between two placements.
- BankStream.StreamBanks: the packing of a complete bank (concatenating and stacking tensors, comparing `g_idx`,
  block alignment, `k`) is a parameter, any function of the bank's parts; so is the parsing of key names.
- Ftw.FtwArchive.Write: types and shapes are carried through the index; JSON and the file system are not modelled.
- CacheBudget.PlanFits: ratios are real numbers; the rounding of floating point is not modelled.
- `resolve_served_context_len`, the Python-side pool rebuild of the engine, and its slack page, which is
  outside the planner's budget.
- The adaptive parts around the core: server, CLI, kernels, attention, sampling, dequantization and text parsers.
