# Alchemy, modelled and proved in Dafny

Alchemy keeps every tuple of a table in storage and may keep some of its columns in a
DRAM clock cache. One 64-bit word per record packs a writer bit, a reader count, a
"cached" tag and either the record id or a cache slot. Threads lock records, promote
misses, evict victims found by a clock probe and write victims back. This project
models that protocol step by step and proves that a client cannot tell it from a plain
map of record ids to tuples. Around it stand the parts the cache is built from or
carries: the lock word, the column mapping, the allocators of record ids, the
New-Order transaction, the double-buffered log and the task executor.

The modules, from the bottom up:

- `LockWord`, `LockedOid`, `LockRun`: the word bit by bit, as an object, and under any
  number of interleaved tasks. `WordBits` joins these bits to the protocol below.
- `Columns`, `FieldItem`, `TpccSchemas`: full tuples and cached items; the parametric
  schema with its loops over arrays; the TPC-C schemas with their byte layout.
- `Protocol`: every load, compare-and-swap and store of locking, reading, writing,
  promoting, inserting and evicting as one step of a task with a program counter.
  `CacheInvariant`, `CacheSteps` and `CacheClients` prove what each step keeps;
  `CacheRefinement` states the results over whole runs; `CacheCalls` ties what a client
  sees to what it asked for; `CacheProgress` shows that no task is ever stuck.
  `TableRun` puts several tables under the same tasks.
- `ClockCache`: the probe loop and the cache operations as one thread runs them, and
  how long a probe must be. `QuietCache` says that between operations its contents and
  those of the protocol are the same.
- `AlignUp`, `AllocRun`, `ArrayAllocator`, `HeapArray`, `OidArray`: the block
  allocator, interleaved and sequential; the per-thread arenas; the sizing bound.
- `Machine`, `TpccKeys`, `Stock`, `NewOrder`, `OrderHistory`: words that wrap around,
  the packed keys, one stock update, one transaction, and any number of transactions.
- `LogRing`, `LogRun`, `Logger`: the two log buffers, the flushing thread with appends
  between its steps, and the logger as an object.
- `Executor`: the round-robin executor against running each task alone.

Memory is sequentially consistent. Random choices (`gen_bool`) and spurious failures
of weak compare-and-swap are free choices of the run, or parameters named `lucky`.
Where a law of the code holds only under a condition, the exact condition is proved:
see `DecodeAddReader`, `SetCachedIsLogical`, `StockItemSurvives`, `IndexRoundTrip`,
`DistrictKeyIff`, `CustomerKeyIff`, `OrderKeyIff`, `LineKeyIff`, `ExtendsIff`, `LinesReachableIff`, `RunRightIff`,
`CounterMeetsIff` and `RunReadyTasks`.

Three premises of the program are premises here. In runs with several tasks fewer than
127 read guards per record are live, as `try_read` asserts. Columns that a schema
caches but does not write back (`s_i_id`, `s_w_id` and `s_dist10` of the stock table)
are not written by clients. A log entry ends in the buffer in which it starts.

## Model

| member | source | states |
|---|---|---|
| CacheRefinement.StepRefines | src/attribute_cache/clock_cache/mod.rs:76-179 | Every atomic step of every task keeps the invariant, leaves alone all records guarded by other tasks, and does to the logical contents exactly what its visible label does to a plain map; locking, promoting, evicting and writing back are invisible |
| CacheRefinement.RunRefines | src/attribute_cache/clock_cache/mod.rs:76-179 | In every interleaving of any number of tasks, replaying only the inserts, reads and writes that clients see on a plain map succeeds and ends in the logical contents; so every value read under a guard is the one the plain map gives |
| CacheRefinement.LinksAgree | src/attribute_cache/clock_cache/cache_inner.rs:180-237 | In every reachable state the word of a record that is not write locked says "cached at i" if and only if slot i names it, no record is named by two slots, and any disagreement belongs to a record write locked by the very task that is moving it |
| CacheRefinement.ValidatedVictimIsHere | src/attribute_cache/clock_cache/cache_inner.rs:183-230 | A rid loaded from a slot may be stale by the time its lock is taken, but if the validation succeeds the record points at exactly this slot, the evictor has its write lock, and the slot has its current columns |
| CacheRefinement.VictimIsComplete | src/attribute_cache/clock_cache/cache_inner.rs:206-230 | A record being evicted is a complete record of the logical contents, write locked by the evicting task |
| CacheRefinement.VictimNotWritten | src/attribute_cache/clock_cache/cache_inner.rs:206-230 | No step of any task writes or inserts a record while it is some task's victim |
| CacheRefinement.EvictionStep | src/attribute_cache/clock_cache/mod.rs:152-166 | Any step of any task keeps the logical tuple of a record that is a victim |
| CacheRefinement.EvictionLosesNothing | src/attribute_cache/clock_cache/mod.rs:152-166 | From the moment a task takes a record as its victim until its write lock is dropped after write-back, over any interleaving, the logical tuple is the same |
| CacheRefinement.StepPins | src/attribute_cache/clock_cache/oid.rs:137-152 | A step of another task moves, renames or rewrites nothing of a record on which this task has a guard |
| CacheRefinement.RunPins | src/attribute_cache/clock_cache/cache_inner.rs:206-211 | The same over whole runs: while a read or write guard is live, other tasks change neither the slot number nor the slot's rid and columns nor the stored tuple |
| CacheCalls.LabelsAsAsked | src/attribute_cache/clock_cache/mod.rs:76-179 | In every run a write or read that shows is the one its task just asked for, with its record, column and value |
| CacheCalls.CallOrigin | src/attribute_cache/clock_cache/mod.rs:76-179 | In every run whatever a task is in the middle of is the work its last call asked for: the same rid, tuple, query and lock mode, through every probe, eviction and retry |
| CacheCalls.InsertedAsAsked | src/attribute_cache/clock_cache/mod.rs:76-96 | In every run a record appears with exactly the rid and the tuple of the insert that its task asked for |
| CacheCalls.InsertArrives | src/attribute_cache/clock_cache/mod.rs:76-96 | What an insert was given and what appears under its rid are the same tuple, by the same task, after the call |
| CacheCalls.InsertsDiffer | src/storage/oid_array.rs:78-84 | In every run no two inserts are for the same rid |
| CacheCalls.GrantAsAsked | src/attribute_cache/clock_cache/oid.rs:76-152 | A lock that is granted is on the record and in the mode that the task asked for |
| CacheCalls.ViewsAsAsked | src/attribute_cache/clock_cache/mod.rs:98-179 | Every query result that comes up in a run is for the record and the query that its task asked for, opened directly or after a promotion |
| CacheCalls.TouchSets | src/attribute_cache/clock_cache/cache_inner.rs:243-264 | A hit that touches its slot sets the reference bit of that slot and changes nothing else |
| CacheCalls.SecondChance | src/attribute_cache/clock_cache/cache_inner.rs:202-211 | In every run a task that is after a record in a slot has, on this very visit and at a step that can be named, found the reference bit of the slot clear |
| CacheInvariant.InitInv | src/attribute_cache/clock_cache/mod.rs:38-57 | A new cache with empty slots meets the invariant |
| CacheInvariant.NamedOnce | src/attribute_cache/clock_cache/cache_inner.rs:180-237 | The invariant leaves no room for one record in two slots, even in the middle of moves |
| CacheClients.GetIsLogical | src/attribute_cache/mod.rs:86-105 | In every state that meets the invariant, reading a queried column through a live query result gives the column of the logical tuple and never reaches the failing `expect`, while other tasks evict and promote |
| CacheClients.SetStep | src/attribute_cache/mod.rs:56-75 | Writing a column through a live result under the write guard changes this column of the logical tuple and nothing else, wherever the write lands |
| CacheProgress.SetEnabled | src/attribute_cache/mod.rs:61-74 | In every state that meets the invariant such a write goes through: `get_value_mut` does not reach its failing `expect` |
| CacheProgress.NeverStuck | src/attribute_cache/clock_cache/cache_inner.rs:168-240 | Every operation in progress, of any task, can take its next action: all slots it indexes are in range and all records it names exist |
| TableRun.QuietKeeps | src/attribute_cache/clock_cache/mod.rs:98-179 | An action of a task that neither writes nor inserts keeps the logical contents, whatever it promotes or evicts |
| TableRun.OwnAction | src/attribute_cache/clock_cache/cache_inner.rs:206-236 | The guards of a task change only as its call sees it: a promotion gives back every victim lock it takes, on every path |
| TableRun.OtherAction | src/attribute_cache/clock_cache/oid.rs:76-161 | No action of another task gives or takes a guard of this one |
| TableRun.CallLeavesTables | benchmark/src/tpcc/query/new_order.rs:117-187 | Over several tables and in every interleaving, a call that only locks, promotes, opens, reads and drops leaves each table to what the labels of the other tasks alone make of it, and its live guards are exactly those in its hands |
| TableRun.FailedCallLeavesNoTrace | benchmark/src/tpcc/query/new_order.rs:117-187 | If such a call has let go of all it was handed, no word counts a guard of it |
| TableRun.FailedOrderLeavesNoTrace | benchmark/src/tpcc/query/new_order.rs:117-168 | A New-Order that fails in phase 1, with its promotions and evictions on the way, leaves every table as the other tasks alone would have it, with all its locks released |
| WordBits.BitsDo | src/attribute_cache/clock_cache/oid.rs:76-161 | Each bit operation of the program does to a well-formed word what its meaning asks for |
| WordBits.WordChangesAreBits | src/attribute_cache/clock_cache/oid.rs:76-333 | Whatever any step of the protocol does to the word of a record is one bit operation of the program on its 64 bits |
| WordBits.PayloadFits | src/attribute_cache/clock_cache/oid.rs:255-267 | The rid or slot that a word has to hold always fits into 32 bits |
| QuietCache.QuietIsSequential | src/attribute_cache/clock_cache/mod.rs:76-179 | When no operation is in progress, the contents that the one-thread cache keeps are the logical contents of the protocol |
| CacheClients.ViewSees | src/attribute_cache/clock_cache/mod.rs:98-118 | What a live query result points at is the current copy of its record |
| CacheClients.InsertStep | src/attribute_cache/clock_cache/mod.rs:76-96 | Starting an insert publishes no record: the logical contents do not change until the tuple is stored; that it is then the tuple asked for is `CacheCalls.InsertArrives` |
| CacheClients.PromoteStep | src/attribute_cache/clock_cache/mod.rs:121-179 | Starting a promotion changes nothing a client can see |
| CacheClients.DropReadStep | src/attribute_cache/clock_cache/oid.rs:231-236 | Dropping a read guard keeps the invariant, others' guards and the contents |
| CacheClients.DropWriteStep | src/attribute_cache/clock_cache/oid.rs:270-274 | Dropping a write guard keeps the invariant, others' guards and the contents |
| CacheSteps.GrantStep | src/attribute_cache/clock_cache/oid.rs:76-152 | A granted lock, of a client or of an evictor on its victim, is taken only where no conflicting guard is live and is invisible in the contents |
| CacheSteps.UpgradeStep | src/attribute_cache/clock_cache/oid.rs:306-333 | Upgrading the only read guard keeps the invariant and the contents |
| CacheSteps.RidStoreStep | src/attribute_cache/clock_cache/cache_inner.rs:227-228 | Marking the victim as uncached before its entry is replaced does not lose its columns: the evicting task still carries them |
| CacheSteps.SlotStep | src/attribute_cache/clock_cache/cache_inner.rs:185-230 | Claiming an empty slot and filling a slot in two writes disturb no record that any guard or word refers to |
| CacheSteps.IndexStoreStep | src/attribute_cache/clock_cache/cache_inner.rs:195-235 | Publishing the new slot in the record's word switches the record from its stored tuple to an equal cached copy |
| CacheSteps.WriteOldStep | src/attribute_cache/clock_cache/mod.rs:152-166 | Writing the victim's columns to storage keeps its logical tuple |
| CacheSteps.StorageInsertStep | src/attribute_cache/clock_cache/mod.rs:90-96 | Storing the new tuple adds exactly this record to the logical contents |
| CacheSteps.DeliverStep | src/attribute_cache/clock_cache/mod.rs:168-179 | The result handed out after a promotion sees the record's current copy |
| LockWord.DecodeInjective | src/attribute_cache/clock_cache/oid.rs:9-32 | Two well-formed words with the same meaning are the same bits: the packing loses nothing |
| LockWord.DecodeTests | src/attribute_cache/clock_cache/oid.rs:163-193 | The masks of the accessors read the writer bit, the reader count and the payload of the meaning; the unmasked `to_cache_index` is right because bits 32 to 47 stay zero |
| LockWord.ReaderCountTest | src/attribute_cache/clock_cache/oid.rs:311-315 | The division that `upgrade` uses finds a second reader exactly when there is one |
| LockWord.DecodeAddReader | src/attribute_cache/clock_cache/oid.rs:84-93 | Adding a reader adds one to the count and changes nothing else if and only if fewer than 127 readers are counted |
| LockWord.DecodeReaderCarry | src/attribute_cache/clock_cache/oid.rs:84-93 | At 127 readers the addition carries into the writer bit |
| LockWord.DecodeSubReader | src/attribute_cache/clock_cache/oid.rs:96-106 | Subtracting a reader borrows from no other field |
| LockWord.DecodeWriter | src/attribute_cache/clock_cache/oid.rs:137-161 | Setting, clearing and upgrading to the writer bit keep the payload |
| LockWord.DecodeStore | src/attribute_cache/clock_cache/oid.rs:255-267 | Storing a rid or an index replaces tag and payload together and keeps the lock bits |
| LockWord.WfStore | src/attribute_cache/clock_cache/oid.rs:255-267 | Payload stores keep bits 32 to 47 zero and the tag all zeros or all ones |
| LockRun.ReadGrant | src/attribute_cache/clock_cache/oid.rs:76-94 | In any interleaving a read grant finds no write guard and counts one more reader |
| LockRun.WriteGrant | src/attribute_cache/clock_cache/oid.rs:137-152 | A write grant finds no guard at all |
| LockRun.UpgradeGrant | src/attribute_cache/clock_cache/oid.rs:306-333 | An upgrade that goes through turns the only guard into the write guard, although the count was read earlier |
| LockRun.Unlock | src/attribute_cache/clock_cache/oid.rs:96-161 | Dropping a guard keeps the word equal to the guards that remain, and keeps the payload |
| LockRun.StoreLosesNothing | src/attribute_cache/clock_cache/oid.rs:255-267 | `store_rid` and `store_index` load and store separately, yet the result is the current word with a new payload: no change of another task is overwritten |
| LockRun.ExclusiveKept | src/attribute_cache/clock_cache/oid.rs:137-161 | While one task has the write guard no step of another changes the guard or any bit of the word |
| LockRun.SharedKept | src/attribute_cache/clock_cache/oid.rs:96-106 | No step of another task takes a read guard away |
| LockRun.OthersUndisturbed | src/attribute_cache/clock_cache/oid.rs:255-267 | Whatever a task is in the middle of stays right under any step of another |
| LockRun.RunCountsGuards | src/attribute_cache/clock_cache/oid.rs:24-161 | Over every run the writer bit says that exactly one write guard is live, the count is the number of read guards, never both, and only payload stores change the payload |
| LockedOid.Oid.TryRead | src/attribute_cache/clock_cache/oid.rs:76-94 | For every count: the right error when a writer or a lost race stands in the way; otherwise one more reader, or at 127 readers the carry into the writer bit that a release build lets happen |
| LockedOid.Oid.ReadUnlock | src/attribute_cache/clock_cache/oid.rs:96-106 | Undoes one read lock and nothing else |
| LockedOid.Oid.TryWrite | src/attribute_cache/clock_cache/oid.rs:137-152 | Fails with the right error unless nobody holds the record; otherwise locked for writing with the same payload |
| LockedOid.Oid.WriteUnlock | src/attribute_cache/clock_cache/oid.rs:154-161 | Undoes the write lock and nothing else |
| LockedOid.Oid.Upgrade | src/attribute_cache/clock_cache/oid.rs:306-333 | Succeeds exactly for a sole reader whose compare-and-swap goes through |
| LockedOid.Oid.StoreRid | src/attribute_cache/clock_cache/oid.rs:255-260 | The record is uncached at this rid, with its locks as they were |
| LockedOid.Oid.StoreIndex | src/attribute_cache/clock_cache/oid.rs:262-267 | The record is cached at this slot, with its locks as they were |
| Columns.WriteBackToCached | src/attribute_cache/mod.rs:141-179 | For every schema, caching a tuple and writing the item back gives the tuple |
| Columns.ToCachedWriteBack | src/attribute_cache/mod.rs:141-179 | Writing an item back and caching again gives the item if and only if its unwritten columns agree with the tuple |
| Columns.GetValueIsLogical | src/attribute_cache/mod.rs:86-105 | For every queried column, a result with the item, the tuple or both gives the column of the logical tuple; the item alone suffices when the schema matches the query |
| Columns.SetCachedIsLogical | src/attribute_cache/mod.rs:61-74 | A write into the item is a write to that logical column, surviving write-back, if and only if the column is written back or the value is the old one |
| Columns.SetTupleIsLogical | src/attribute_cache/mod.rs:61-74 | A write to an uncached column survives the write-back of any item |
| FieldItem.FindPosition | src/utils/test_gen.rs:119-122 | The search finds exactly the place of the column among the cached ones |
| FieldItem.MatchesQuery | src/utils/test_gen.rs:163-170 | True if and only if every queried column is cached |
| FieldItem.ToCachedLoop | src/utils/test_gen.rs:128-135 | The loop copies each listed column to its place, for any number of columns |
| FieldItem.WriteBackLoop | src/utils/test_gen.rs:141-148 | The loop changes exactly the listed columns of the tuple in place, whatever their order |
| FieldItem.CachedFieldAddresses | src/utils/test_gen.rs:172-177 | `to_cached_field` answers exactly for cached columns and names the bytes where `to_cached` put the column; its 16-bit casts never truncate |
| FieldItem.UpdateIter.constructor | src/query.rs:89-95 | An iterator starts before the first field |
| FieldItem.UpdateIter.Next | src/query.rs:111-129 | The k-th call gives the k-th field with the packed offset of its value, then ends |
| FieldItem.UpdateTupleLoop | src/utils/test_gen.rs:73-81 | Running an update query on a tuple applies its column updates in order |
| FieldItem.UpdateCachedLoop | src/utils/test_gen.rs:150-161 | Running it on an item applies those that are cached, in order |
| FieldItem.UpdateCommutes | src/attribute_cache/mod.rs:150-164 | Updating item and tuple and then writing back is writing back and then updating; if all columns are cached the item alone is enough |
| FieldItem.UpdateSetsColumns | src/query.rs:111-129 | An update query of distinct columns puts the i-th value into the i-th queried column, of the tuple and of the item where it is cached |
| TpccSchemas.Increasing | benchmark/src/tpcc/tables.rs:160-202 | In the C layout every column ends before the next one starts |
| TpccSchemas.PrefixLayout | benchmark/src/tpcc/schemas.rs:277-285 | A prefix of the columns has the same offsets as in the whole tuple |
| TpccSchemas.SuffixLayout | benchmark/src/tpcc/schemas.rs:330-341 | A suffix on a common alignment has the same offsets up to one shift |
| TpccSchemas.PrefixAddresses | benchmark/src/tpcc/schemas.rs:277-285 | For any columns, comparing byte offsets with the first uncached one names the bytes that `to_cached` filled, for every column |
| TpccSchemas.SuffixAddresses | benchmark/src/tpcc/schemas.rs:330-341 | For any columns, shifting by the first cached offset names the bytes that `to_cached` filled |
| TpccSchemas.ExtraAddresses | benchmark/src/tpcc/schemas.rs:552-564 | The same for a prefix with one extra column |
| TpccSchemas.CustomerAddresses | benchmark/src/tpcc/schemas.rs:277-285 | `to_cached_field` of the customer schema is right for every column |
| TpccSchemas.ItemAddresses | benchmark/src/tpcc/schemas.rs:330-341 | `to_cached_field` of the item schema is right for every column |
| TpccSchemas.OrderAddresses | benchmark/src/tpcc/schemas.rs:385-393 | `to_cached_field` of the order schema is right for every column |
| TpccSchemas.OrderLineAddresses | benchmark/src/tpcc/schemas.rs:462-470 | `to_cached_field` of the order-line schema is right for every column |
| TpccSchemas.StockAddresses | benchmark/src/tpcc/schemas.rs:552-564 | `to_cached_field` of the stock schema is right for every column |
| TpccSchemas.ListedField | benchmark/src/tpcc/schemas.rs:162-179 | The loop of a schema that lists its columns answers exactly for them, with the place of the column in any layout of the cached struct |
| TpccSchemas.WholeAddresses | benchmark/src/tpcc/schemas.rs:198-200 | For a schema that caches the whole tuple the identity is the right answer for every column |
| TpccSchemas.SchemasWriteAllBack | benchmark/src/tpcc/schemas.rs:36-497 | Every schema but that of the stock table writes all its cached columns back |
| TpccSchemas.ItemSurvives | benchmark/src/tpcc/schemas.rs:140-470 | For those schemas an item survives write-back and caching again |
| TpccSchemas.StockItemSurvives | benchmark/src/tpcc/schemas.rs:539-573 | A stock item survives if and only if its two keys and `s_dist10` are those of the tuple |
| TpccSchemas.StockDistLost | benchmark/src/tpcc/schemas.rs:566-573 | A changed `s_dist10` in the cached item is lost on write-back |
| ClockCache.AllUnlockedFindsSlot | src/attribute_cache/clock_cache/cache_inner.rs:158-211 | With all cached records unlocked, `capacity + 1` probes always find a slot |
| ClockCache.OneUnlockedFindsSlot | src/attribute_cache/clock_cache/cache_inner.rs:158-211 | With one slot empty or unlocked, `2 * capacity` probes always find a slot |
| ClockCache.AllSetNeedsALap | src/attribute_cache/clock_cache/cache_inner.rs:158-211 | The first bound is exact: in a full unlocked cache with every bit set a slot is found if and only if the probe is longer than the capacity |
| ClockCache.LastSlotNeedsTwoLaps | src/attribute_cache/clock_cache/cache_inner.rs:158-211 | The second bound is exact: a last usable slot with its bit set is found if and only if the probe makes two full laps |
| ClockCache.PlacementKeeps | src/attribute_cache/clock_cache/mod.rs:76-96 | Placing a node, evicting and writing back keeps the tuple of every other record and all locks |
| ClockCache.PromotionKeeps | src/attribute_cache/clock_cache/mod.rs:121-179 | Promoting from storage keeps the whole logical contents and all locks |
| ClockCache.PlacementHolds | src/attribute_cache/clock_cache/mod.rs:76-96 | A record placed from a tuple logically holds this tuple, cached or not |
| ClockCache.Cache.constructor | src/attribute_cache/clock_cache/cache_inner.rs:84-111 | A new cache has empty slots and agrees with its storage |
| ClockCache.Cache.AdvanceHand | src/attribute_cache/clock_cache/cache_inner.rs:158-164 | The hand goes round the slots one by one |
| ClockCache.Cache.ProbeAndReplace | src/attribute_cache/clock_cache/cache_inner.rs:168-240 | The probe loop takes the first slot of the second-chance sweep that is empty or unlocked with a clear bit, if there is one within the probe length; the bits it passes are cleared, the victim is left locked and uncached, nothing else changes |
| ClockCache.Cache.WriteBackEvicted | src/attribute_cache/clock_cache/mod.rs:152-166 | Caching the written-back victim again gives exactly the evicted item if and only if its unwritten columns agreed with storage; nothing else changes but its lock |
| ClockCache.Cache.ReadAndPromote | src/attribute_cache/clock_cache/mod.rs:121-179 | Contents and locks stay as they are; a cached record stays in its slot, with its reference bit set if the draw says so; a miss is promoted exactly when the probe finds a slot, which then names it with the bit as drawn |
| ClockCache.Cache.Insert | src/attribute_cache/clock_cache/mod.rs:76-96 | The contents gain exactly the new record, write locked by the caller; it is cached if and only if the probe finds a slot, and then the slot names it and has its columns |
| AlignUp.AndHigh | src/utils/obj_alloc.rs:14-16 | Masking off the low k bits of any number subtracts its remainder by 2^k |
| AlignUp.AlignIsRound | src/utils/obj_alloc.rs:14-16 | For every power of two, word width and size that does not overflow, the bit-mask form is the least multiple not below the size |
| AllocRun.NextInv | src/utils/obj_alloc.rs:145-173 | Every load, compare-and-swap and client write into an owned block keeps the free blocks linked; a task that read garbage from a taken block can no longer succeed |
| AllocRun.RunHandsOutOnce | src/utils/obj_alloc.rs:145-173 | In every interleaving the k-th block handed out is the k-th from the end, and out-of-memory is reported only after all blocks are out |
| AllocRun.BlocksDistinct | src/utils/obj_alloc.rs:145-173 | In every interleaving no two allocations get the same block |
| ArrayAllocator.Allocator.constructor | src/utils/obj_alloc.rs:85-111 | Whatever the memory held, the loop links every block exactly once, the last one first |
| ArrayAllocator.Allocator.Alloc | src/utils/obj_alloc.rs:145-173 | Pops the free list; fails exactly when it is empty |
| ArrayAllocator.Allocator.Dealloc | src/utils/obj_alloc.rs:186-217 | Pushes a block that is out, touching only its own word, so the next allocation returns it |
| ArrayAllocator.Allocator.Write | src/utils/obj_alloc.rs:164-164 | A client that fills its block does not break the list |
| HeapArray.NewInv | src/utils/obj_alloc.rs:235-240 | All slots of a new heap are in unclaimed arenas |
| HeapArray.AppendInv | src/utils/obj_alloc.rs:270-293 | Appending keeps the partition, gives out a slot that was not live and makes only it live; it fails exactly when the thread has nothing left and no arena is free |
| HeapArray.DeleteInv | src/utils/obj_alloc.rs:317-324 | Deleting a live slot keeps the partition and makes exactly this slot dead; it panics exactly when a new thread gets no arena |
| HeapArray.DeleteThenAppend | src/utils/obj_alloc.rs:435-453 | Appending right after deleting, by the same thread, gives the slot back and restores the heap |
| HeapArray.RunInv | src/utils/obj_alloc.rs:229-329 | After any calls by any threads every slot has exactly one place: live, on one free list, in one thread's arena or in an unclaimed arena |
| HeapArray.GivenOutOnce | src/utils/obj_alloc.rs:270-293 | Over any run two appends return the same index only if it was deleted in between |
| HeapArray.Array.constructor | src/utils/obj_alloc.rs:235-240 | A new object has all its arenas unclaimed |
| HeapArray.Array.GetTlsAllocator | src/utils/obj_alloc.rs:242-258 | A thread's first call claims an arena, or fails and changes nothing |
| HeapArray.Array.NewArena | src/utils/obj_alloc.rs:260-268 | Exactly the slots of one unclaimed arena go to the thread, each of them unclaimed before; no other slot moves and none becomes live or dead |
| HeapArray.Array.Append | src/utils/obj_alloc.rs:270-293 | The retry loop of `append` ends and does what the specification of one append says |
| HeapArray.Array.Delete | src/utils/obj_alloc.rs:317-324 | `delete` puts the slot on the caller's free list, or reports the panic and changes nothing |
| HeapArray.IndexRoundTrip | src/utils/obj_alloc.rs:295-310 | `ptr_to_index` undoes `index_to_ptr` if and only if the index fits in 32 bits |
| HeapArray.PtrRoundTrip | src/utils/obj_alloc.rs:295-310 | `index_to_ptr` undoes `ptr_to_index` for the address of every slot |
| HeapArray.SlotBytes | src/utils/obj_alloc.rs:306-310 | Slot 0 is at the start, each slot is a whole number of slots away and ends within the memory, and different slots share no byte |
| HeapArray.SlotsAreBlocks | src/utils/obj_alloc.rs:260-268 | A new arena hands out its slots in the order of the block allocator |
| OidArray.ArenasSuffice | src/storage/oid_array.rs:32-44 | Beside 128 arenas in reserve there is room for `cap` words and for less than one arena more |
| OidArray.FailsOnlyWhenFull | src/utils/obj_alloc.rs:270-293 | Without deletes an append fails only when all slots are live but for those left in the current arenas of the other threads |
| OidArray.ServesCapacity | src/storage/oid_array.rs:78-84 | Without deletes, an array made for `cap` words serves `cap` allocations however they are split among up to 128 threads |
| Stock.QuantityInRange | benchmark/src/tpcc/query/new_order.rs:255-265 | In the benchmark's range the unsigned subtraction does not wrap and the quantity stays in 10..100 |
| Stock.ClosedStep | benchmark/src/tpcc/query/new_order.rs:255-265 | One machine update of the quantity is one step of a closed form in the total ordered |
| Stock.QuantityFollowsYtd | benchmark/src/tpcc/query/new_order.rs:255-286 | Over any sequence of updates the quantity is 10 + (s0 - 10 - total) mod 91, and the three counters are the sums modulo the word size (TPC-C, clause 2.4.2.2) |
| Stock.QuantityFromRow | benchmark/src/tpcc/query/new_order.rs:255-271 | Until `s_ytd` wraps, the two columns of a row determine each other |
| NewOrder.ConflictIff | benchmark/src/tpcc/query/new_order.rs:146-168 | A request finds its record locked exactly when another transaction or an earlier request of this order stands in its way |
| NewOrder.LocksGrantedIff | benchmark/src/tpcc/query/new_order.rs:117-168 | Without lost races all locks are granted if and only if all records exist, nobody else conflicts, and no stock is ordered twice |
| NewOrder.NoClashes | benchmark/src/tpcc/query/new_order.rs:163-167 | The requests of an order are compatible with each other if and only if its stock keys differ |
| NewOrder.ClashMeans | benchmark/src/tpcc/query/new_order.rs:163-167 | A request clashes with an earlier one of its order exactly when it is for a stock that an earlier line names |
| NewOrder.OutcomeMeans | benchmark/src/tpcc/query/new_order.rs:117-168 | Phase 1 succeeds if and only if every record is there, is not taken by others, is no stock ordered before, and no race is lost; otherwise the error belongs to the first request in the way and names the cause: a missing item aborts, any other missing record is not found, a taken item is busy for reading, the rest for writing |
| NewOrder.CommittedOrder | benchmark/src/tpcc/query/new_order.rs:189-215 | A commit bumps the number of the input's own district and of no other, and appends one order with the old number, the input's ids, date and flag and the count of its lines |
| NewOrder.CommittedLine | benchmark/src/tpcc/query/new_order.rs:217-304 | The j-th new line has the j-th ordered item, quantity and supplier, the amount at the item's price and the text of its stock; the stock it names gains its quantity, one order, and one remote order if and only if the supplier is another warehouse |
| NewOrder.OtherStocks | benchmark/src/tpcc/query/new_order.rs:217-304 | A stock that no line names stays as it was |
| TpccKeys.StockKeysDistinct | benchmark/src/tpcc/tables.rs:199-201 | Stock keys of a 16-bit warehouse and a 32-bit item differ if and only if the pairs do |
| TpccKeys.DistrictKeyIff | benchmark/src/tpcc/tables.rs:39-41 | A district key can be read back if and only if warehouse and district fit into 16 and 48 bits |
| TpccKeys.DistrictKeysDistinct | benchmark/src/tpcc/tables.rs:39-41 | District keys that fit are equal if and only if the pairs are |
| TpccKeys.CustomerKeyIff | benchmark/src/tpcc/tables.rs:73-75 | A customer key can be read back if and only if warehouse, district and customer fit into 16, 16 and 32 bits |
| TpccKeys.CustomerKeysDistinct | benchmark/src/tpcc/tables.rs:73-75 | Customer keys that fit are equal if and only if the triples are |
| TpccKeys.OrderKeyIff | benchmark/src/tpcc/tables.rs:113-136 | Order and new-order keys can be read back from their word if and only if all four fields fit into 16 bits |
| TpccKeys.LineKeyIff | benchmark/src/tpcc/tables.rs:154-157 | A line key can be read back if and only if warehouse, district, order number and item fit into 16, 8, 20 and 20 bits |
| TpccKeys.OrderKeysDistinct | benchmark/src/tpcc/tables.rs:113-129 | Keys that fit share a word only if they are equal; a key that does not fit always shares its word with another that does |
| TpccKeys.LineKeysDistinct | benchmark/src/tpcc/tables.rs:154-157 | Line keys that fit share a word only if they are equal |
| TpccKeys.KeysCollide | benchmark/src/tpcc/tables.rs:113-157 | From order number 65536 on, an order has the word of an order of the next customer, and its new-order key that of the next district; line keys follow at 2^20 |
| TpccKeys.SameOrderLines | benchmark/src/tpcc/tables.rs:154-157 | Within one order the words of two lines agree if and only if their items do |
| NewOrder.EnterLine | benchmark/src/tpcc/query/new_order.rs:218-304 | Entering one line extends the state with j lines entered to the state with j + 1 |
| NewOrder.Workload.TryLock | src/table.rs:227-269 | Index lookup and one lock attempt, each error in its case |
| NewOrder.Workload.LockNext | benchmark/src/tpcc/query/new_order.rs:155-167 | A failing request, a missing item turned into a user abort, ends with every guard dropped; `OutcomeMeans` says which error it is |
| NewOrder.Workload.AcquireLocks | benchmark/src/tpcc/query/new_order.rs:117-168 | Phase 1 ends with all guards held, or with the error of the first failing request and none held |
| NewOrder.Workload.Begin | benchmark/src/tpcc/query/new_order.rs:189-215 | The order takes the district's number, which is bumped, and is entered with its new-order key; `CommittedOrder` says what is in it |
| NewOrder.Workload.EnterLines | benchmark/src/tpcc/query/new_order.rs:217-304 | The loop enters each line once, updates each ordered stock once, and drops the guards of its lines; `CommittedLine` says what is in them |
| NewOrder.Workload.EnterOne | benchmark/src/tpcc/query/new_order.rs:218-303 | One pass of that loop |
| NewOrder.Workload.NewOrder | benchmark/src/tpcc/query/new_order.rs:113-306 | All or nothing: it succeeds if and only if every record is there, untaken and not ordered before and no race is lost; every error names what stood in the way first and leaves every table as it was; success adds one order, one new-order key and one record per line, bumps the district's number and changes exactly the ordered stocks; either way all locks are as before |
| OrderHistory.KeysAreFresh | benchmark/src/tpcc/query/new_order.rs:189-215 | While all keys fit, the words of a new order, of its new-order entry and of its lines are not in use |
| OrderHistory.ExtendsIff | src/table.rs:178-184 | Whatever the keys, a commit leaves every lookup as it was if and only if the words of the new order were not in use |
| OrderHistory.OverwritesAt65536 | benchmark/src/tpcc/tables.rs:113-115 | Order number 65536 takes over the index entry of the next customer's order 0, which from then on finds the wrong order |
| OrderHistory.OverwriteWitness | benchmark/src/tpcc/tables.rs:113-115 | Such a commit exists from tables that meet every law of a history |
| OrderHistory.CommitExtends | benchmark/src/tpcc/query/new_order.rs:189-304 | A commit whose keys fit replaces no index entry and no record |
| OrderHistory.CommitIndexed | src/table.rs:178-184 | Whatever the keys, every index entry leads to a record with the word it was asked for |
| OrderHistory.LookupIsRight | src/table.rs:227-269 | If the stored keys fit, a lookup by a key that fits finds a record with exactly this key |
| OrderHistory.LinesReachableIff | benchmark/src/tpcc/tables.rs:153-158 | All lines of an order can be found by their packed keys if and only if its items differ, since the key has the item but not the line number |
| OrderHistory.HistoryConsistent | benchmark/src/tpcc/query/new_order.rs:113-306 | Over any history of failing calls and commits whose keys fit: order numbers in use stay below the next one, keys and indexes stay right, line counts add up to the lines, and the next number of each warehouse and district grows by exactly the orders placed there |
| OrderHistory.NothingOverwritten | benchmark/src/tpcc/query/new_order.rs:113-306 | Over any such history no order or line found at some point is lost, replaced or changed by a later New-Order |
| LogRing.Address | src/log/mod.rs:166-170 | Buffer number and offset computed by division name the place modulo two buffers |
| LogRing.AppendKeeps | src/log/mod.rs:163-179 | Appending an entry keeps the last two buffers' worth of the log in the ring |
| LogRing.ChunkIsLatest | src/log/mod.rs:125-126 | What a flush writes is, at each place, the last byte of the log that went there |
| LogRing.ChunkIsLog | src/log/mod.rs:121-126 | If nothing has been lapped the chunk is exactly the next part of the log |
| LogRing.ChunkRightIff | src/log/mod.rs:125-126 | The chunk is the next part of the log if and only if every byte of it is still the last one at its place or equals it |
| LogRun.StepRightIff | src/log/mod.rs:111-133 | Only a write can make the file wrong, exactly when the buffer is no longer intact, and a wrong file stays wrong |
| LogRun.RunRightIff | src/log/mod.rs:111-133 | In every interleaving the file is the flushed prefix of the log if and only if every buffer was intact when it was written |
| LogRun.FlushedCounts | src/log/mod.rs:128-130 | After k flushes the flushed offset is k buffers |
| LogRun.RunRefinesLog | src/log/mod.rs:111-133 | If between load and write of each flush no more bytes are appended than two buffers less the loaded distance, the file is exactly that prefix |
| LogRun.UninterruptedIsCalm | src/log/mod.rs:111-126 | A flush with no append between load and write meets that bound: the assertion alone rules a lap out |
| LogRun.LapRun | src/log/mod.rs:111-133 | The bound is sharp: for every buffer size and every excess over it there is a run whose write puts wrong bytes into the file |
| Logger.Log.constructor | src/log/mod.rs:91-101 | A new logger has an empty log and file |
| Logger.Log.AppendLog | src/log/mod.rs:163-179 | The log grows by the entry; file and flushed offset stay |
| Logger.Log.TryFlushLogs | src/log/mod.rs:111-133 | Each outcome exactly in its range of distances; the file stays the flushed prefix of the log |
| Logger.Log.FlushBuffer | src/log/mod.rs:146-160 | The bytes given to the file are those of one whole buffer |
| Executor.BlockOn | src/async_task/mod.rs:21-31 | Returns the task's output after as many polls as it has pending answers, and one |
| Executor.LapsCount | src/async_task/mod.rs:79-97 | Over enough laps every task is polled exactly as often as `block_on` would poll it |
| Executor.First | src/async_task/mod.rs:83-90 | The 8-bit counter of finished tasks meets its target the first time at a known number of finished tasks |
| Executor.CounterMeetsIff | src/async_task/mod.rs:79-97 | With any slots filled or empty, the loop ever ends if and only if enough slots are filled; with at most 255 slots that means all of them |
| Executor.Queue.constructor | src/async_task/mod.rs:44-58 | A new queue is empty |
| Executor.Queue.Spawn | src/async_task/mod.rs:60-68 | The first empty slot takes the task; the panic exactly when none is empty |
| Executor.Queue.RunReadyTasks | src/async_task/mod.rs:70-98 | Wherever the loop ends at all: all outputs are written if and only if every slot is filled and there are at most 255, or 256 with the first task ready at once; whatever is written is what `block_on` returns for the same task; the polls are the beginning of the laps, and all of them in that case, one poll of each live task per lap and none of a finished one |

## Left out

- Weak memory orderings, prefetching, non-temporal copies and memory poisoning: hardware effects; steps are sequentially consistent.
- mmap, the persistent heap, and failures of `write` and `fsync`: storage is a map and the log file a sequence.
- The internals of congee and flurry: an index is a map.
- Metrics, histograms, timers and benchmark drivers.
- `alloc_rid` inside `Protocol`: its steps are one step there, since no other task knows the new rid; the word stores themselves are in `LockRun`.
- The column-by-column copy of a write-back is one step in `Protocol`, since the victim's write lock is held throughout; the loop is `FieldItem.WriteBackLoop`.
- The blocking `read` and `write` of `LockedOid`: repeated load and compare-and-swap steps, which `LockRun` allows in any number; that they end is not claimed.
- `reset` of caches and allocators: for benchmarks only, without concurrent users.
- Concurrent `dealloc` and `delete`: not used; deallocation is sequential here.
- Hotness and dirty bits of `NodeMeta`: not used by the probe, which needs only the reference bit.
- NewOrder.Workload.NewOrder: the others' locks are arbitrary but stand still during one call; the interleaved run of the failing call is `TableRun`. Serializability is not claimed, as inserted rows are unlocked at once.
- NewOrder.Workload.AcquireLocks: does not carry out the promotions between the locks; they are steps of `TableRun`, whose `FailedOrderLeavesNoTrace` states that they cannot be seen.
- NewOrder.Workload.EnterLines: does not carry out the promotion of each stock record, which changes no contents by `ClockCache.Cache.ReadAndPromote`.
- Floating point: prices and amounts are real numbers.
- `payment`, `delivery`, `order_status` and `stock_level`; random generation of inputs; `FixedString`.
- Log entries that cross the end of a buffer, and flushing before a writer has copied its entry: an append is one step.
- Debug builds: arithmetic wraps as in a release build, where a debug build would panic.
- The conversion of a number to its 64-bit word: `WordChangesAreBits` takes the machine number of a rid or slot as given.
- `InsertonlyTable`: not used by the transactions.
- Executor.Queue.RunReadyTasks: requires that the loop ends, which `CounterMeetsIff` characterises; elsewhere the program runs forever.
- Logger.Log.AppendLog: requires the entry to end in its buffer, which the program leaves to its callers.
- HeapArray.RunInv: calls of different threads follow one another; that concurrent claims of arenas do not collide is `AllocRun`.
- Wakers: futures are polled in turn, so a task is its number of pending answers and its output.
