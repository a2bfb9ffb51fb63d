# Verified model of the tiered memory pool

The repository keeps named pages of bytes in three tiers: device memory (VRAM), host memory (DRAM)
and a spill file. This project models its control plane in Dafny and proves what the tiers, taken
together, promise to their callers. Device copies are assignments to byte memories. The driver's
answers, the clock, the operating system's answers to a write and the iteration order of hash maps
are arguments. `dafny verify dfyconfig.toml` checks everything.

## The parts

| file | subject |
|---|---|
| `Common.dfy` | results, errors, flat byte memories |
| `Ranges.dfy` | the range allocator's state as a function of the set of handed-out bytes; canonical form |
| `RangeOps.dfy` | allocate and free as changes of that set, and their laws |
| `RangeEdits.dfy` | the list surgery of the source, proved to be those changes |
| `LiveRanges.dfy` | the allocator with its clients, over whole histories |
| `RangeAllocator.dfy`, `DramPool.dfy` | the two allocator objects, with their in-place list surgery |
| `Plan.dfy`, `PlanLaws.dfy`, `Membrane.dfy` | ranking, the greedy plan, hysteresis; what it trades against what; the decayed rates |
| `DmaRing.dfy` | the descriptor ring, as an object and at the grain of single loads and stores |
| `SpillFile.dfy` | the spill file and its ledger of reservations |
| `Vmt.dfy` | page records, their state machine, the name table |
| `TieredSpec.dfy` | every operation of the pool as a step on a state, for any number of GPUs |
| `TieredPool.dfy` | the pool object; each method is proved equal to its step |
| `TieredHost.dfy` | any number of GPUs: host memory is conserved over all runs |
| `TieredScatter.dfy`, `TieredStaging.dfy` | any number of GPUs: scatter round trip; staged promotion |
| `TieredMany.dfy` | any number of GPUs, from a new pool: states follow tiers, warm pages stay sharded, drained pools are new |
| `TieredOutcomes.dfy` | any number of GPUs: exactly when accesses and demotions succeed, and with which error they fail |
| `TieredPeer.dfy`, `TieredPrefetch.dfy` | several GPUs: ways the byte and ownership guarantees fail, each with its condition and a run |
| `TieredMoves.dfy` | any number of GPUs: what an access or demotion does to the table, and the pages that can never leave the top tier again, over all runs |
| `TieredSweeps.dfy`, `TieredPlacement.dfy` | any number of GPUs: exactly when a membrane sweep succeeds, what it leaves in the top tier and why those pages |
| `TieredIdle.dfy` | any number of GPUs: what the sweep without a budget does to each page |
| `TieredOwners.dfy`, `TieredLosses.dfy` | any number of GPUs: no call but three kinds loses a device block, over all runs, and those do |
| `TieredBlocks.dfy`, `TieredOne.dfy`, `TieredSteps.dfy` | one GPU: the invariant and each step |
| `TieredRuns.dfy` | one GPU: refinement of a flat store and block ownership, over all runs |
| `TieredClient.dfy` | one GPU: the same, for the pool object |

Two ideas carry most of the weight.

*The allocator is a function of its live bytes.* `Cells` is the set of offsets below the high-water
mark and on no free block. A heap that satisfies the invariant is determined by its capacity and
`Cells` (`Canonical`), so `AllocateSpec` and `FreeSpec` are written on that set alone: allocation adds
a best-fit range, freeing removes one. The objects, which insert, merge and retract in lists, are
proved equal to them. Inversion, canonicity, completeness and the diagnosis of fragmentation follow.

*The pool is a flat store.* `Flat` maps each page to its bytes: those of its device block if it has
one, else of its host chunk, else of its file range. Access, demotion, prefetch, sweeps and landing
copies leave `Flat` alone, whether they succeed or fail; writes change exactly one entry. A client that
only remembers what it stored (`Record`) therefore always reads it back.

## What callers must respect

`TieredRuns.Allowed` says it: `allocate` gets a name not in the table; `write_page` and `deallocate`
are not called while a prefetch of the page is in flight, and `write_page` not while the page has a
device block (the device copy would be stale); one spill file is attached at most; `access` names a
GPU of the pool (the source indexes out of bounds otherwise); a device write goes through a live
pointer and stays inside the block. Everything else may fail at any point. An outstanding prefetch
copy may land at any moment before its event is synchronised.

## Where code and documentation disagree

The model follows the code.

* README.md:83 says the pool's transitions are validated. The pool assigns states directly. Its
  `allocate` goes from Allocated to Warm or Cold, which `transition` rejects (`AllocationSkipsAnEdge`);
  from then on every change is an accepted edge or none, on any number of GPUs (`StatesFollowTiers`).
* src/membrane.rs:177 tells callers to forget a page on deallocation. `deallocate` does not, so a new
  page of the same name starts with the old rate (`DeallocateKeepsHistory`).
* A page allocated with `Tier::Vram` has host chunks and no device block; its first `access` is an
  error on every GPU and whatever the driver offers (`FirstAccessFails`). `demote` turns it into an
  ordinary warm page (`DemotionMakesItWarm`). `AccessSucceedsIff` says when any access succeeds.
* A promoted cold page has no host chunk, so no demotion of it ever succeeds, in any later run
  (`PromotedColdIsStuck`, `StuckForever`); on one GPU a failing `demote` changes nothing
  (`DemoteOnOneGpu`). A membrane sweep whose plan evicts such a page is an error every time
  (`StuckPageStopsSweep`).
* The comment at src/tiered.rs:1051 says the first chunk's address names all bytes of the page. With
  several GPUs it names the first shard only (`PrefetchCopiesForeignBytes`).
* The comment at src/tiered.rs:863 calls the membrane budget one per GPU. The sweep holds the sizes of
  all pages in the top tier, on whatever GPU, against one cap (`SweepMeetsBudget`).
* The staging comment at src/tiered.rs:686 calls 1 MiB the floor of the halving loop. The loop stops
  after a request at or below 1 MiB, which can be as small as half of it; `SmallestRequest` is exact.

## Properties that hold only under a condition

* `write_page` on a warm page of the right length succeeds if and only if the data is empty or has at
  least one byte per pool, because an empty first shard ends the walk (`WriteSucceedsIff`).
* "No block is ever lost" is false: a warm promotion takes its block before it asks for a ring slot
  (src/tiered.rs:607-612). An access loses a block if and only if the page is warm, not on its way, a
  block can be had for it and the ring is full (`LosesBlock`, `AccessLosesIff`, `StepLoss`).
  `FullRingLosesABlock` is a run from a new pool that ends in such a state. A sweep with ring room for
  its traffic loses none (`SweepOk`). On one GPU no step ever gives a block two owners.
* On any number of GPUs a block is lost only by such an access, by an access that finds a prefetch of a
  page no longer there (the code panics after it took the prefetch out of its table), by allocating over a
  page that has blocks, or by a sweep without ring room (`Loses`, `StepIsSafe`, `EveryBlockIsListed`).
  Where every block has one holder the first three do lose one (`StepLosesIff`).
* The descriptor ring is a queue after `submit` if and only if the ring was full or the counter did
  not wrap, and after `ack` if and only if there was something to acknowledge.
* `demote` succeeds if and only if the page has nothing to do or every block fits the shard of its own
  GPU and finds a slot in that GPU's ring (`DemoteSucceedsIff`, any number of GPUs).
* With several GPUs single ownership of blocks and preservation of bytes fail. Four ways are proved, each
  with its exact condition and a run from a new pool; this is not a list of all ways. They are why
  `TieredRuns` speaks of one GPU.
  * Promoting a page on one GPU, touching it on another and demoting it writes the first one's shard over
    the start of the other's: the page survives if and only if that shard started with the same bytes
    (`PeerCopyOverwritesAShard`, `ThreeBytesLost`).
  * A demotion leaves a block both listed by the page and cached if and only if the page's first block
    fits and a later one does not (`FailedDemotionSharesBlocksIff`); after touching a page on two GPUs,
    if and only if the first one's shard is larger (`UnevenShardsShareABlock`, `ThreeBytesShared`).
  * A prefetch discarded for another GPU leaves its block in the cache while its copy may be
    outstanding. The page that gets the block keeps its bytes if and only if no copy is outstanding or
    it brings the same bytes (`DiscardedPrefetchOverwritesIff`, `TwoBytesOverwritten`).
  * A claimed prefetch holds the first shard and then whatever follows it in host memory: the page if
    and only if the other shards read the same (`PrefetchCopiesForeignBytes`, `ThreeBytesPrefetched`).
    Afterwards the page cannot be demoted, unless that GPU's shard is all of it
    (`PrefetchedPageDemotesIff`, `ClaimedPrefetchIsStuck`).
* A page in the top tier that is not pinned can come down, given ring slots, if and only if none of its
  blocks is larger than the shard of its GPU (`StuckIff`).

## Model

| member | source | states |
|---|---|---|
| Ranges.Align | src/range_alloc.rs:44-46 | the result is a multiple of 64 at least the request and less than 64 above it |
| Ranges.AlignIsLeast | src/range_alloc.rs:44-46 | it is the least such multiple, and zero only for zero |
| Ranges.AlignIsMask | src/range_alloc.rs:44-46 | adding 63 and clearing the six low bits computes it |
| Ranges.Canonical | src/range_alloc.rs:23-31 | capacity and the set of handed-out bytes determine the mark and the free list |
| RangeOps.BestFit | src/range_alloc.rs:74-82 | the chosen block is a tightest one that fits, the leftmost among equals; none only if none fits |
| RangeOps.BestFitIsUnique | src/range_alloc.rs:74-82 | no other index meets that description |
| RangeOps.PlaceIsVacant | src/range_alloc.rs:71-105 | the place chosen for a request is inside capacity and meets no handed-out byte |
| RangeOps.AllocateSucceedsIff | src/range_alloc.rs:71-105 | allocation succeeds if and only if some vacant run of the aligned size exists inside capacity |
| RangeOps.AllocateTakesAlignedLength | src/range_alloc.rs:71-105 | `used` grows by exactly the aligned length, or by nothing on failure |
| RangeOps.AllocateThenFree | src/range_alloc.rs:71-162 | freeing what was just allocated restores the allocator exactly |
| RangeOps.AllocateNothing | src/range_alloc.rs:71-105 | an empty request always succeeds and changes nothing |
| RangeOps.FreeIgnoresIff | src/range_alloc.rs:120-139 | `free` is a no-op exactly when the aligned length is zero, the range passes the mark, or it overlaps some free block |
| RangeOps.FreeReturnsAlignedLength | src/range_alloc.rs:120-162 | a free that is not ignored lowers `used` by exactly the aligned length |
| RangeEdits.EditedFrees | src/range_alloc.rs:139-161 | inserting, merging both sides and retracting keeps the list sorted, disjoint, coalesced and off the mark, and removes exactly the freed bytes |
| RangeEdits.EditedIsFreeSpec | src/range_alloc.rs:120-162 | testing the two neighbours suffices: the guarded list surgery is the set-level `free` for all arguments |
| RangeEdits.CarvedIsAllocateSpec | src/range_alloc.rs:83-92 | carving the best block from its front is the set-level allocation |
| RangeEdits.BumpIsAllocateSpec | src/range_alloc.rs:94-104 | raising the mark is the set-level allocation when no block fits |
| RangeOps.MarkIsGreatestEnd | src/range_alloc.rs:120-162 | the mark is one past the greatest live byte, zero if nothing is live |
| RangeOps.BlocksAreMaximalGaps | src/range_alloc.rs:120-162 | the free list is exactly the maximal gaps below the mark |
| RangeOps.UsedCountsCells | src/range_alloc.rs:54-56 | mark minus free lengths counts the handed-out bytes |
| LiveRanges.PlaceIsAligned | src/range_alloc.rs:71-105 | with well-behaved clients every returned offset is 64-aligned |
| LiveRanges.GoodIsCanonical | src/range_alloc.rs:71-162 | two allocators with the same live ranges are identical |
| LiveRanges.LiveRangesAreSafe | src/range_alloc.rs:71-162 | live ranges are aligned, inside capacity, pairwise disjoint and apart from every free block; `used` is the sum of their aligned sizes |
| LiveRanges.RunKeepsGood | src/range_alloc.rs:71-162 | this holds after every sequence of allocations and frees by such clients |
| LiveRanges.HistoriesAgree | src/range_alloc.rs:71-162 | two histories that end with the same live ranges end in the same state |
| LiveRanges.DrainRestoresStart | src/range_alloc.rs:120-162 | freeing everything, in any order, after any history restores the initial state |
| LiveRanges.AllocationIsComplete | src/range_alloc.rs:71-105 | after any history, success if and only if a run of the aligned size meets no live range; on failure nothing changes and `available` is capacity minus the aligned live sizes |
| RangeAlloc.PartitionPoint | src/range_alloc.rs:127 | the index that separates the blocks starting before the range from the rest |
| RangeAlloc.ScanBestFit | src/range_alloc.rs:74-82 | the scanning loop finds the leftmost tightest fit |
| RangeAlloc.ParkedIsEdited | src/range_alloc.rs:139-161 | insert, coalesce right, coalesce left, retract: together the swallowed stretch as one block, or cut off at the mark |
| RangeAlloc.RangeAllocator.constructor | src/range_alloc.rs:35-41 | starts with everything free |
| RangeAlloc.RangeAllocator.UsedBytes | src/range_alloc.rs:54-56 | counts the handed-out bytes |
| RangeAlloc.RangeAllocator.Allocate | src/range_alloc.rs:71-105 | new state and result are the set-level allocation, for every state and request |
| RangeAlloc.RangeAllocator.Free | src/range_alloc.rs:120-162 | new state is the set-level free, for every state and arguments |
| RangeAlloc.RangeAllocator.Park | src/range_alloc.rs:139-161 | the list surgery after the guards |
| DramPools.PoolFreeIsTranslatedFree | src/tiered.rs:204-252 | above its base the pool's free is the range allocator's, translated, its own upper guard included |
| DramPools.PoolAllocateThenFree | src/tiered.rs:157-252 | allocate then free is the identity on the pool |
| DramPools.DramPool.UsedBytes | src/tiered.rs:257-259 | counts the handed-out bytes |
| DramPools.DramPool.Allocate | src/tiered.rs:157-190 | the range allocator's allocation translated by the base address |
| DramPools.DramPool.Free | src/tiered.rs:204-252 | the range allocator's free translated by the base address; addresses outside the pool are ignored |
| Plans.NameLessTotal | src/membrane.rs:204-209 | name order is total and asymmetric |
| Plans.NameLessIff | src/membrane.rs:204-209 | it is the lexicographic order: a proper prefix first, else the first difference decides |
| Plans.PrecedesTotal | src/membrane.rs:204-209 | score descending then name ascending is total on distinct names and asymmetric, infinite scores included |
| Plans.PrecedesTransitive | src/membrane.rs:204-209 | and transitive |
| Plans.SortIsSorted | src/membrane.rs:204-209 | ranking distinct names yields the sorted order |
| Plans.SortedIsUnique | src/membrane.rs:204-209 | a multiset has one sorted form, so the sort's choice of algorithm cannot matter |
| Plans.PlanIgnoresOrder | src/membrane.rs:191-221 | any permutation of the candidates gives the same keep and evict lists |
| Plans.PlanPartitions | src/membrane.rs:191-221 | keep and evict together are the candidates, each once |
| Plans.KeptBytesBounded | src/membrane.rs:191-221 | every pinned page is kept, and the kept bytes are within 85% of the budget unless only pinned pages are kept |
| Plans.EvictedDoNotFit | src/membrane.rs:191-221 | no evicted page is pinned or would still fit, and one evicted while a lower-ranked page is kept is strictly larger than that page |
| Plans.ScoreMoves | src/membrane.rs:99-118 | incumbency never lowers a score, losing it never raises one |
| Plans.OrderSurvives | src/membrane.rs:99-118 | kept-before-evicted order survives re-scoring with the kept pages resident |
| Plans.StableRunKeeps | src/membrane.rs:211-219 | a greedy run over a stable ranking keeps exactly the given set, prefix by prefix |
| Plans.HysteresisIsStable | src/membrane.rs:191-221 | planning again with the kept pages resident keeps the same set, for any sizes, pins and earlier residence |
| PlanLaws.PlanFollowsRank | src/membrane.rs:99-118 | of two unpinned pages the one ahead, by alpha times the difference in heat less beta for each MiB more, is given up first only if it is larger |
| PlanLaws.HotterStaysLonger | src/membrane.rs:99-118 | of two pages of one size the plan never gives up the hotter and keeps the colder |
| PlanLaws.SmallerStaysLonger | src/membrane.rs:99-118 | of two pages equally hot it never gives up the smaller and keeps the larger |
| PlanLaws.NewcomerMustBeHotter | src/membrane.rs:46-53 | a newcomer of rate r goes before a resident page of its size and rate q if 2r > 3q, and after it if 2r < 3q |
| PlanLaws.Duel | src/membrane.rs:191-221 | two pages of which the budget holds either but not both: the plan keeps exactly the one ahead, names breaking ties |
| PlanLaws.PlanIsInOrder | src/membrane.rs:204-219 | both lists come in rank order, pinned pages first |
| Membranes.Membrane.Observe | src/membrane.rs:143-145 | one more hit for the page, nothing else |
| Membranes.Membrane.Decay | src/membrane.rs:152-165 | the two loops together move every known or seen page a quarter of the way to its hit count, on the total map where absent means zero |
| Membranes.Membrane.Forget | src/membrane.rs:179-182 | both entries of the page disappear |
| Membranes.Membrane.Plan | src/membrane.rs:191-221 | the loop with its accumulators computes the specified plan |
| Membranes.SweepIsAverage | src/membrane.rs:152-170 | one window: new rate is 3/4 of the old plus 1/4 of the window's accesses |
| Membranes.SweepsClearHits | src/membrane.rs:152-165 | every sweep starts the next window from zero hits and is counted |
| Membranes.RateClosedForm | src/membrane.rs:143-170 | the rate after any history is the decayed initial rate plus each window's quarter hits decayed once per later window |
| Membranes.RatesStayNonNegative | src/membrane.rs:143-170 | rates never become negative |
| Membranes.DecaysBelowOne | src/membrane.rs:152-165 | Bernoulli bound: n decays bring any x below 1 once n > 3(x - 1) |
| Membranes.IdleOnlyDecays | src/membrane.rs:152-165 | without accesses only the decay remains |
| Membranes.ActiveStaysUp | src/membrane.rs:152-165 | a page hit in every window is at least 1 minus the decay of 1 |
| Membranes.IdleFallsBelowActive | src/membrane.rs:143-182 | after any n > 3r sweeps a page idle from rate r is strictly below any page hit in every window |
| DmaRings.SlotsDiffer | src/dma.rs:172-197 | indices less than 1024 apart never share a slot |
| DmaRings.DmaRing.constructor | src/dma.rs:129-149 | an empty ring |
| DmaRings.DmaRing.PendingCount | src/dma.rs:152-156 | the number of unconsumed descriptors |
| DmaRings.PushIsEnqueue | src/dma.rs:172-197 | filling the slot after the last and advancing the index appends to the queue |
| DmaRings.PopIsDequeue | src/dma.rs:200-219 | advancing the consumer index takes the oldest descriptor out of the queue |
| DmaRings.DmaRing.Submit | src/dma.rs:172-197 | appends the descriptor and returns its slot, or reports a full ring and changes nothing; the ring stays a queue exactly when it was full or the 32-bit counter did not wrap |
| DmaRings.DmaRing.Peek | src/dma.rs:205-213 | the oldest unconsumed descriptor, if any |
| DmaRings.DmaRing.Ack | src/dma.rs:200-219 | both counters advance modulo 2^32, unchecked; the oldest descriptor leaves the queue if there was one, and the ring stays a queue exactly then |
| DmaRings.DmaRing.IsDone | src/dma.rs:84-87 | done exactly when nothing is unconsumed and everything consumed is marked complete |
| DmaRings.UnconsumedIntact | src/dma.rs:172-219 | no single load or store of either thread damages an unconsumed slot, a half-written slot included |
| DmaRings.NextKeepsInv | src/dma.rs:172-219 | completed <= consumer <= submitted <= consumer + 1024 and the log agreement hold after every single load or store |
| DmaRings.NextIsQueueStep | src/dma.rs:172-219 | every load or store is a stutter, one enqueue at the tail, or one dequeue from the head of the abstract queue |
| DmaRings.InterleavingsAreFifo | src/dma.rs:172-219 | under every interleaving the consumed descriptors are a prefix of the published ones, unmodified |
| DmaRings.NewRingsAreFifo | src/dma.rs:172-219 | so in every run from a new ring |
| DmaRings.SubmitIsItsSteps | src/dma.rs:172-197 | run without interruption, the atomic steps are the call |
| DmaRings.PeekAndAckAreTheirSteps | src/dma.rs:200-219 | run without interruption, the consumer's steps see the head of the queue whenever there is one and take exactly it |
| DmaRings.RoundsDrainTheRing | src/dma.rs:200-219 | as many rounds as descriptors are waiting consume all that was published, in order |
| Spills.SpillFile.Create | src/spill.rs:51-71 | an empty allocator over a file of zeros |
| Spills.SpillFile.Reserve | src/spill.rs:98-100 | reserves without touching the file |
| Spills.WriteFileReads | src/spill.rs:108-116 | a positioned write reads back, every read apart from it is as before, and only a write past the end changes the file's length |
| Spills.SpillFile.WriteAt | src/spill.rs:108-116 | puts the data at the offset and nowhere else, growing the file if need be; if the disk stops before the end, an error and the prefix written so far |
| Spills.SpillFile.WriteAtNewOffset | src/spill.rs:123-137 | reserve and write; on a write error the allocator is exactly as before |
| Spills.SpillFile.ReadInto | src/spill.rs:144-150 | fills the buffer with the bytes of the range; a range that passes the end of the file is an error with the buffer part-filled, unless it is empty |
| Spills.SpillFile.Free | src/spill.rs:153-155 | the set-level free, file untouched |
| Spills.SpillStepKeepsInv | src/spill.rs:98-155 | each operation, failed writes included, keeps what every other live reservation reads |
| Spills.ReservationsDoNotInterfere | src/spill.rs:98-155 | after any sequence of operations reading a live reservation returns the bytes last written to it |
| Spills.CreatedFilesDoNotInterfere | src/spill.rs:51-155 | so in every run from a new file |
| Spills.FreshReservationReadsZeros | src/spill.rs:98-150 | a reservation of a range never written reads as zeros |
| Spills.ReservedReadsZeros | src/spill.rs:93-100 | where only reserved bytes were ever written, every new reservation reads as zeros |
| Vmt.ProductLaws | src/vmt.rs:127 | the element count: one dimension counts itself, shapes put end to end multiply, zero exactly if a dimension is |
| Vmt.TransitionAcceptsIff | src/vmt.rs:145-168 | exactly which requests are accepted: registering, becoming resident, then any change between the three tiers' states; a rejected one changes nothing |
| Vmt.TransitionsNeverGoBack | src/vmt.rs:145-168 | no sequence of requested transitions returns a page to Unmapped, or to Allocated once past it |
| Vmt.DecimalReadsBack | src/vmt.rs:222 | the number in a generated name is written in digits, without leading zero, and reads back |
| Vmt.AutoNamesDiffer | src/vmt.rs:219-230 | generated names are pairwise different and never empty |
| Vmt.VirtualMemoryTable.Allocate | src/vmt.rs:219-238 | the chosen name, the counter and the new record with its name, shape, element size and byte size; an existing page of that name is overwritten |
| Vmt.VirtualMemoryTable.Remove | src/vmt.rs:251-253 | removes exactly that entry and returns it |
| Tiered.FindSize | src/tiered.rs:978 | a cached block of exactly the requested size, or proof that none is cached |
| Tiered.FindChunk | src/tiered.rs:516-525 | a chunk on this GPU (or on another one), or none exists |
| Tiered.FindSizeIsFirst | src/tiered.rs:978 | it is the first such block |
| Tiered.FindChunkIsFirst | src/tiered.rs:516-525 | it is the first such chunk |
| TieredPools.AllocateShards | src/tiered.rs:445-467 | one chunk per pool in pool order, stopping at the first pool that refuses, earlier chunks kept |
| TieredPools.OfferChunk | src/tiered.rs:1225-1229 | every pool has been offered the chunk |
| TieredPools.BorrowBuffer | src/tiered.rs:685-703 | the halving loop terminates with the first request the pool serves, the pool otherwise untouched |
| TieredPools.StreamPieces | src/tiered.rs:707-732 | the copy loop terminates and leaves staging memory and block as specified, also when a read meets the end of the file and part-fills the buffer |
| TieredPools.ScatterPieces | src/tiered.rs:1172-1189 | the write loop hands each chunk its own share of the data |
| TieredPools.TieredPool.constructor | src/tiered.rs:266-363 | empty tables over one empty host pool per GPU |
| TieredPools.TieredPool.Allocate | src/tiered.rs:406-478 | whole new state and result, all error paths included, are the allocation step |
| TieredPools.TieredPool.Access | src/tiered.rs:490-762 | same for the access step over all three tiers and the prefetch table |
| TieredPools.TieredPool.ClaimPrefetch | src/tiered.rs:1084-1105 | same for claiming or discarding a prefetch |
| TieredPools.TieredPool.CopyStaged | src/tiered.rs:682-736 | same for the staged copy with its borrowed buffer |
| TieredPools.TieredPool.Demote | src/tiered.rs:784-861 | same for demotion, partial failures included |
| TieredPools.TieredPool.Prefetch | src/tiered.rs:1028-1071 | same for starting a prefetch |
| TieredPools.TieredPool.WritePage | src/tiered.rs:1129-1199 | same for writing a page, a failing disk included |
| TieredPools.TieredPool.Deallocate | src/tiered.rs:1208-1233 | same for deallocation |
| TieredPools.TieredPool.TakeBlock | src/tiered.rs:973-991 | same for taking a device block from the cache or the driver |
| TieredPools.TieredPool.ReleaseBlock | src/tiered.rs:997-1006 | same for caching a device block |
| TieredPools.TieredPool.MembraneSweep | src/tiered.rs:886-936 | same for the membrane sweep |
| TieredPools.TieredPool.BackgroundSweep | src/tiered.rs:941-967 | same for the background sweep under either policy |
| TieredHost.OtherStepsKeepBacking | src/tiered.rs:490-1199 | every step but allocate and deallocate leaves all pools and all host chunks, offsets and sizes as they were, keeps states in step with tiers and moves no page to the cold tier |
| TieredHost.AllocShardsHost | src/tiered.rs:445-467 | the pools' live ranges are the recorded chunks also when a pool part-way refuses |
| TieredHost.OnlyOwnerTakes | src/tiered.rs:1221-1229 | a chunk offered to every pool changes only the pool it came from |
| TieredHost.DeallocateKeepsHost | src/tiered.rs:1208-1233 | deallocation keeps that agreement |
| TieredHost.StepKeepsHost | src/tiered.rs:406-1233 | so does every step, for any number of GPUs |
| TieredHost.DramIsConserved | src/tiered.rs:406-1233 | in every run the live ranges of the pools are exactly the non-empty chunks in the page table |
| TieredHost.EmptyTableEmptyPools | src/tiered.rs:1208-1233 | with no page left every pool is back in its initial state with nothing used |
| TieredHost.StageUpKeepsPools | src/tiered.rs:682-736 | the staging buffer goes back exactly where it came from, on success and failure |
| TieredScatter.ShardsSumToTotal | src/tiered.rs:451-458 | the shard sizes account for every byte, the remainder included |
| TieredScatter.AllocateShards | src/tiered.rs:445-467 | a successful warm allocation leaves one chunk per pool of the shard sizes |
| TieredScatter.ScatterElsewhere | src/tiered.rs:1172-1189 | writing touches no host byte outside the page's chunks |
| TieredScatter.WriteRoundTrip | src/tiered.rs:1165-1198 | for pages of at least one byte per pool the chunks in pool order are the data afterwards and no other host byte changed |
| TieredScatter.WriteSucceedsIff | src/tiered.rs:1165-1198 | exactly when a write of the right length succeeds |
| TieredStaging.BorrowSucceedsIff | src/tiered.rs:685-703 | the halving loop finds a buffer if and only if the pool can serve its last request |
| TieredStaging.SmallestRequestBounds | src/tiered.rs:685-703 | that last request is the page itself up to 1 MiB, and between half and one MiB above |
| TieredStaging.StagedPromotion | src/tiered.rs:666-740 | for every size and pool state: the pool ends as found; success if and only if a buffer can be had and the file covers the page; then the block is the file range; only host bytes nobody owns were disturbed |
| TieredPeer.PeerCopyOverwritesAShard | src/tiered.rs:559-598 | any two of any number of GPUs: touch on one, touch on the other, demote puts the first one's shard at the start of the other's and changes no third; the page survives if and only if that shard started with those bytes |
| TieredPeer.ThreeBytesLost | src/tiered.rs:559-598 | five calls on a new pool with two GPUs turn a page's bytes 1 2 3 into 1 1 3 |
| TieredPeer.UnevenShardsShareABlock | src/tiered.rs:784-861 | after touching a warm page on g and then on h, a demotion succeeds if and only if shard g is no larger than shard h; otherwise the block on g is both listed and cached |
| TieredPeer.ThreeBytesShared | src/tiered.rs:784-861 | five calls on a new pool with two GPUs leave block 1 both listed by its page and cached |
| TieredPrefetch.PrefetchCopiesForeignBytes | src/tiered.rs:1037-1061 | any number of GPUs: the claimed block is the first shard followed by the host bytes behind it, which is the page if and only if those bytes are the other shards |
| TieredPrefetch.PrefetchedPageDemotesIff | src/tiered.rs:807-823 | afterwards a demotion succeeds if and only if the ring has a slot and that GPU's shard is the whole page: one GPU, an empty page, or fewer bytes than GPUs and the last GPU |
| TieredPrefetch.ClaimedPrefetchIsStuck | src/tiered.rs:1028-1105 | with a byte for each of several GPUs the page is stuck once its prefetch is claimed |
| TieredPrefetch.ThreeBytesPrefetched | src/tiered.rs:1028-1105 | four calls on a new pool with two GPUs: the block holds 1 and two foreign bytes in place of 1 2 3, and demotion fails |
| TieredPrefetch.DiscardedPrefetchOverwritesIff | src/tiered.rs:1084-1091 | any number of GPUs: the page given the block of a discarded prefetch reads its own bytes until the copy lands, and afterwards if and only if no copy was outstanding or it brought the same bytes |
| TieredPrefetch.TwoBytesOverwritten | src/tiered.rs:1084-1091 | a run from a new pool with two GPUs after which a page's bytes 2 2 are overwritten by a discarded prefetch |
| TieredMoves.AccessServes | src/tiered.rs:490-762 | any number of GPUs: a failing access leaves the table alone; one that succeeds raises its page to the top tier, counts one access, dates it, and returns a block the page lists for that GPU |
| TieredMoves.AccessSpends | src/tiered.rs:490-762 | every access, failing or not, counts one hit for its name and none for others, clears its prefetch, takes at most one slot of its own ring and at most the block offered |
| TieredMoves.AccessRaises | src/tiered.rs:490-762 | an access changes the record of its page only; chunks, size and pin stay, blocks are only added, and a tier changes only to the top |
| TieredMoves.DemoteLowers | src/tiered.rs:784-861 | a demotion changes the record of its page only: kept, or warm without blocks; after a success it is not in the top tier unless pinned |
| TieredMoves.StuckIff | src/tiered.rs:799-823 | with ring slots for all its blocks, an unpinned page in the top tier can be demoted if and only if no block is larger than the shard of its GPU |
| TieredMoves.PromotedColdIsStuck | src/tiered.rs:638-760 | a promotion of a page allocated cold makes it stuck, on any GPU |
| TieredMoves.StuckForever | src/tiered.rs:784-861 | in every run that neither removes nor replaces it, a stuck page stays in the top tier and every demotion of it fails or finds it pinned |
| TieredSweeps.EvictAllClears | src/tiered.rs:909-920 | evictions touch only the listed pages and raise none; if all succeed no listed page is in the top tier |
| TieredSweeps.SweepSucceedsIff | src/tiered.rs:886-920 | any number of GPUs, any state: a sweep over the whole table succeeds if and only if every block of every page the plan evicts fits its shard and finds a slot after those before it |
| TieredSweeps.SweepMeetsBudget | src/tiered.rs:886-936 | a membrane sweep over the whole table that returns no error leaves in the top tier only pages the plan keeps: their bytes are within 85% of the budget, or all of them are pinned |
| TieredSweeps.StuckPageStopsSweep | src/tiered.rs:909-920 | a stuck page the plan evicts makes every such sweep an error |
| TieredPlacement.SweepPlacesThePlan | src/tiered.rs:909-936 | with what it needs, tested before the call, a sweep succeeds and afterwards the top tier holds exactly the pages the plan keeps |
| TieredPlacement.SweepKeepsTheHotter | src/tiered.rs:886-909 | of two unpinned pages of one size a sweep never evicts the hotter and keeps the colder: heat is 3/4 of the rate plus 1/4 of the accesses since, half as much again in the top tier |
| TieredPlacement.SweepKeepsTheSmaller | src/tiered.rs:886-909 | of two equally hot it never evicts the smaller and keeps the larger |
| TieredIdle.IdleSweepMoves | src/tiered.rs:941-966 | without a budget: resident unpinned pages last used more than the timeout ago leave the top tier, warm pages with at least `hotAt` accesses enter it, and every other record stays exactly as it is, also when the sweep fails half-way |
| TieredOwners.TakenFromCache | src/tiered.rs:977-982 | the first cached block of exactly the size is taken before the driver is asked; the last one fills its place |
| TieredOwners.AllocVramIsSafeBut | src/tiered.rs:973-991 | any number of GPUs: taking a block leaves every other block listed where it was, with its GPU and size |
| TieredOwners.DeallocateReturnsBlocks | src/tiered.rs:1208-1220 | any number of GPUs: each block of the page goes back to its own GPU's cache, once, and nothing else moves |
| TieredOwners.StepIsSafe | src/tiered.rs:406-1233 | any number of GPUs: a step outside the losing calls keeps every block listed with its GPU and size, and lists every new one |
| TieredOwners.EveryBlockIsListed | src/tiered.rs:973-1006 | any number of GPUs: in every run of such steps every block the driver ever handed out is in a page, a prefetch or a cache |
| TieredLosses.StepLosesIff | src/tiered.rs:406-1233 | where every block has one holder: outside sweeps a step loses a block if and only if it is one of the losing calls |
| TieredBlocks.Recycled | src/tiered.rs:973-982 | taking a cached block by swap removal leaves every other block with its one owner |
| TieredBlocks.Parked | src/tiered.rs:997-1006 | caching an unowned block gives it one owner |
| TieredOne.AllocVramOk | src/tiered.rs:973-991 | a block obtained is unowned and of exactly the requested size, and no page's bytes changed |
| TieredOne.ClaimOk | src/tiered.rs:1084-1105 | claiming a prefetch yields a block that holds the page's bytes, whenever the copy landed |
| TieredOne.PrefetchOk | src/tiered.rs:1028-1071 | starting a prefetch changes no page's bytes and gives its block one owner |
| TieredOne.LandOk | src/tiered.rs:1028-1105 | a prefetch copy may land at any moment without changing any page's bytes |
| TieredOne.DemoteOk | src/tiered.rs:784-861 | demotion, successful or not, changes no page's bytes and loses no block |
| TieredOne.AccessDramOk | src/tiered.rs:603-637 | warm promotion: bytes kept, the returned block holds them, a block is lost only to a full ring |
| TieredSteps.AccessSsdOk | src/tiered.rs:638-760 | cold promotion: bytes kept, the returned block holds them, no block is lost |
| TieredSteps.AccessOk | src/tiered.rs:490-762 | any access: the flat store is unchanged, a returned pointer serves exactly the page's bytes |
| TieredSteps.WriteOk | src/tiered.rs:1129-1199 | a successful write replaces exactly that page's bytes; a failed one changes nothing, except that a failing disk leaves its prefix written to that page |
| TieredSteps.AllocateOk | src/tiered.rs:406-478 | a new entry appears, backed if and only if the call succeeds, all other pages kept; a new cold page reads as zeros |
| TieredSteps.DeallocateOk | src/tiered.rs:1208-1233 | exactly that page disappears and its block is not lost |
| TieredSteps.AccessLosesIff | src/tiered.rs:603-612 | an access loses a block if and only if the page is warm and not on its way, a block can be had and the ring is full; it takes at most one ring slot |
| TieredSteps.SweepOk | src/tiered.rs:886-967 | a sweep under either policy, wherever it stops, changes no page's bytes, takes at most its traffic in ring slots, and loses no block when the ring has that many |
| TieredRuns.StepRefines | src/tiered.rs:406-1233 | every step keeps the invariant and is the matching step, or a stutter, of the flat store |
| TieredRuns.RunAgrees | src/tiered.rs:406-1233 | in every allowed run the tiers together hold what the client last stored under each name |
| TieredRuns.FreshIsOk | src/tiered.rs:266-363 | a new pool satisfies the invariant |
| TieredRuns.AccessReturnsLatestBytes | src/tiered.rs:490-762 | after any allowed run from a new pool a successful access returns a block with exactly the page's latest bytes and leaves the flat store alone |
| TieredRuns.AccessReturnsLastWrite | src/tiered.rs:490-762 | after any allowed run in which a page was written and not touched since, a successful access returns a block with exactly the bytes of that write |
| TieredRuns.StepLoss | src/tiered.rs:603-612 | no step recovers a lost block; outside sweeps a step loses one if and only if it is an access whose guard, testable before the call, holds |
| TieredRuns.FullRingLosesABlock | src/tiered.rs:603-612 | a run from a new pool, 512 promotions and demotions of one page, after which the next access loses a block |
| TieredRuns.RunKeepsOwners | src/tiered.rs:406-1233 | no run creates a second owner or recovers a lost block, and a run without such a failure loses none |
| TieredRuns.EveryBlockHasOneOwner | src/tiered.rs:973-1006 | in every reachable state each driver block is held by at most one of page, in-flight table and cache; exactly one if no step lost one |
| TieredMany.AllocateSeeds | src/tiered.rs:406-478 | `allocate` touches one entry; on success its tier and state are as asked and a warm page has one chunk per pool of the shard sizes |
| TieredMany.EntrySize | src/tiered.rs:406-478 | however an allocation ends, its entry has the tensor's size, no block, no pin and no access |
| TieredMany.GeneratedName | src/vmt.rs:220-223 | a page without a name is called vugva_alloc_ and the next number, from 1 on |
| TieredMany.MatrixSize | src/vmt.rs:127 | a matrix of r by c elements of e bytes gets r * c * e bytes |
| TieredMany.TensorSize | src/vmt.rs:127 | a tensor of tensors gets the outer count times an inner one, and nothing exactly if a dimension or the element size is zero |
| TieredMany.AllocationSkipsAnEdge | src/tiered.rs:469-475 | the state a successful `allocate` assigns is its tier's, and an edge `transition` accepts from the registered state if and only if the tier is Vram |
| TieredMany.StatesFollowTiers | src/tiered.rs:599-600 | any number of GPUs, any step: a page whose state is its tier's keeps it so, and the change is an edge `transition` accepts or none |
| TieredMany.RunKeepsLive | src/tiered.rs:406-1233 | in every run, every page that was allocated and not deallocated since has agreeing tier and state, and a warm one keeps its shards |
| TieredMany.NewPoolsAgree | src/tiered.rs:266-363 | separate empty pools, any number of them, agree with the empty page table |
| TieredMany.RunsFromNewPools | src/tiered.rs:406-1233 | both, in every run from a new pool with any number of GPUs |
| TieredMany.WriteAfterAnyRun | src/tiered.rs:1165-1198 | after any such run, writing a page `allocate` made warm succeeds exactly for empty data or a byte per pool, and then its chunks in pool order are the data and no other host byte changed |
| TieredMany.DrainedPoolsAreNew | src/tiered.rs:1208-1233 | after any such run, deallocating every page in any order leaves every pool exactly as it was when new, with zero used |
| TieredOutcomes.AccessSucceedsIff | src/tiered.rs:490-762 | any number of GPUs, any state: an access succeeds if and only if the page is known and on its way to this GPU, or its tier has block, ring slot, buffer and file range as needed |
| TieredOutcomes.DemoteSucceedsIff | src/tiered.rs:784-861 | any number of GPUs, any state: success if and only if the page is known and is not in the top tier, is pinned, or each of its blocks fits the shard of its GPU and finds a ring slot after the earlier ones; a failure leaves the page table alone |
| TieredOutcomes.DemoteOnOneGpu | src/tiered.rs:784-861 | one GPU: demotion fails if and only if the page holds a block and has no host chunk or no ring slot, and then nothing changed |
| TieredOutcomes.FailedDemotionSharesBlocksIff | src/tiered.rs:806-852 | any number of GPUs: a demotion leaves a block both listed and cached if and only if the first block fits and a later one does not; if the first does not fit nothing changes |
| TieredOutcomes.DemoteFailsWith | src/tiered.rs:802-829 | the first block that does not fit decides the error: no shard, shard too small (with the three sizes reported), or no slot |
| TieredOutcomes.AccessFailsWith | src/tiered.rs:490-740 | which error a failing access reports, tier by tier |
| TieredOutcomes.AccessHit | src/tiered.rs:515-523 | a page that lists a block on this GPU: the first such is returned and nothing but the access recorded |
| TieredOutcomes.AccessCopiesPeer | src/tiered.rs:524-571 | one that lists blocks elsewhere only gets a copy of the first of them |
| TieredOutcomes.FirstAccessFails | src/tiered.rs:539-571 | the first access to a page allocated in the top tier fails on every GPU, whatever the driver offers |
| TieredOutcomes.DemotionMakesItWarm | src/tiered.rs:784-861 | demoting such a page makes it warm, and then an access succeeds exactly with a block and a ring slot |
| TieredOutcomes.DeallocateKeepsHistory | src/tiered.rs:1208-1233 | `deallocate` forgets the page's history if and only if there is none; the next page of that name starts with the old rate |
| TieredClients.Perform | src/tiered.rs:406-1233 | each method of the pool object, for every state and outcome, is the specified step |
| TieredClients.PerformAll | src/tiered.rs:406-1233 | a client that calls the object and records what it stored: at the end of every allowed run the object holds exactly that |
| TieredClients.AccessPage | src/tiered.rs:490-762 | an access of the object leaves every page's bytes alone, and its pointer is to exactly the page's bytes |

## Left out

- CUDA and NVRTC calls, library loading, contexts, streams and GPU discovery (src/ffi, src/context.rs, src/streams.rs, src/gpu.rs, src/nvrtc_kernel.rs): the driver returns a new block or an error, copies move bytes, synchronising an event means its copy is done.
- Errors of device copies, `set_context` and events after a block was taken; copies succeed.
- src/allocator.rs, the first-generation engine, and src/prefetch.rs, an emptied shell.
- Byte preservation and at most one holder of each block on several GPUs over whole runs: false in general. `TieredPeer`, `TieredPrefetch` and `TieredOutcomes` have four ways they fail and when; which runs are free of all such ways is not characterised. That no block is lost is proved there too (`TieredOwners`).
- `TieredOwners.StepIsSafe`: for a sweep the ring-room guard is sufficient, not necessary.
- `TieredPlacement.SweepPlacesThePlan`: its conditions are sufficient; with fewer slots or blocks the outcome depends on which promotions come first.
- `usize` overflow of alignment and offset sums: numbers are unbounded. The interleaved ring machine stops one short of 2^32 submissions; the ring object models the wrap.
- Floating point: rates and scores are exact reals, the cap is the floor of budget * 85 / 100, no NaN.
- Weak memory ordering: loads and stores of the ring are sequentially consistent.
- Several producers on a ring and direct calls to `mark_complete`: outside what the ring is written for.
- The contents of the descriptors the pool submits, and their truncation to 32 bits: the pool's rings are counters of unconsumed descriptors, drained by a step of the engine.
- Read errors of the spill file other than meeting its end, and errors on creating it.
- The element count of a device chunk, and its division by a zero element size.
- `TieredSteps.SweepOk`: the ring-room guard is sufficient for losing nothing, not necessary: with less room the outcome depends on which of the sweep's promotions find their page warm and a block to be had.
- `TieredMany.WriteAfterAnyRun`: speaks of the host copy; on a page with a device block that copy is stale, as the source says.
- Kernels that write outside the block they were given: a device write is assumed to stay inside.
- NUMA binding, page-locking, memory mapping, environment switches and the order of drops.
- Reclaiming spill space on deallocation, which the code does not do; nothing is claimed about it.
- Library routines: `partition_point` is a binary search, `sort_by` an insertion sort whose result is the unique sorted form, `position` and `find` are recursive searches.
- Diagnostics that only read a field (`has_spill`, `inflight_count`, `dram_numa_bound` and the like).
