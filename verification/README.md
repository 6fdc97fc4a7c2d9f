# Five kernel protocols, modelled and proved

The repository ships complete C files that replace sources of a 6.1 kernel. This project models the five of them whose
logic is hardest, and proves what they are relied on for. Every model keeps the form of the code: objects whose fields
the kernel updates become classes, loops stay loops, lists that are edited while they are walked are edited while they
are walked. Each method is tied to a function or predicate on values, and the theorems are about those.
`dafny verify dfyconfig.toml` checks the whole project.

| kernel file | modules |
|---|---|
| drivers/virtio/virtio_ring.c | `Bags`, `DescPool`, `Dma`, `BufferLedger`, `DriverBooks` (both layouts); `Delivery` (what the device makes of it); `PackedProtocol`, `PackedMemory`, `PackedRing`, `PackedQueue`; `SplitQueue`; `EventIdx` |
| mm/hugetlb.c | `Regions`, `ReserveScan`, `ResvMaps`, `VmaReservation`; `Subpools` |
| mm/vmscan.c | `MemcgLru`; `LruWindow`, `LruGen`; `ScanBudget` |
| block/blk-cgroup.c | `BlkgTree`, `BlkgQueues`; `IoStat` |
| lib/debugobjects.c | `ObjPools`, `ObjTracker` |

`Options`, `Lists`, `Numbers`, `Sums`, `Modular` and `Quotients` are shared vocabulary.

## The simple meaning behind each file

**Virtqueues.** A `Ledger` says what a driver owes: every node of the ring to the free list or to one chain, every
token to its caller, every DMA mapping to the IOMMU. Both `Queue` classes keep it beside the real fields (the list
threaded through `next`, the records, the indices) and every operation is stated as one move of the ledger. The live
mappings themselves belong to an `Iommu` object: only its `Map` and `Unmap` change them, `Unmap` wants what is mapped,
and a valid queue's ledger shows exactly them, so every walk that maps or unmaps has to be made. The packed
ring is also a protocol: `PackedProtocol` takes one store of the driver, or one action of a conforming device, at a
time, over positions U <= P <= D <= A <= U + num that never wrap (consumed, used, read, published). The slot indices,
wrap counters and AVAIL/USED bits of the real ring are proved to encode those positions at every moment, and the tests
that either side makes are proved to be exact. What an add means to device and caller is said once for both rings, with
nothing of the driver in between (`Delivery`): the pieces that are read, directly or through a table, are the entries of
the request in order, each at its physical address or where the IOMMU put it, with its length and direction, and the
mappings behind them are what has become live. The rules followed are those of VIRTIO 1.2, sections 2.7, 2.7.10, 2.8
and 2.8.1. Of the split ring only the used ring is the device's: whatever is written there, a buffer is handed back
once or the queue is marked broken. The descriptor table, whose NEXT flags `detach_buf_split` follows, is shared memory
too; the model has the device only read it, as the standard demands.

**Reserve maps.** A region list means a function from pages to the cgroup they are charged to; sorted lists without
touching neighbours are determined by their meaning, so "restored" can be said of the list itself. On top of it are the
tickets of `region_chg`: the descriptors promised to additions in progress. Where the code drops its lock, a `Turn`
says what the others leave behind; they are only asked to keep the books and not to spend our ticket. What waiting for
memory then comes to is a function of the map and the turns (`Allocation`, `AddAttempt`, `DelAttempt`), and the methods
are tied to it.

**Multi-gen LRU.** A window of generation numbers over lists held modulo `maxGens`; a folio is really in generation
`age`, its flags say `mark`, and the counters of pages are right once the pending walk has handed in what it noted. The
memcg queue of a node has a window of two. The constants are parameters, under the condition that the code checks when
it is built.

**Block cgroup groups.** Pins, phases, and the two lists that each group is linked on, with one step for each critical
section or reference count; statistics are 64-bit counters that wrap.

**Object tracker.** The objects of all pools as a bag, counters as list lengths, buckets as lists of the objects whose
page hashes there.

## What turned out not to hold

Each of these is kept as the code has it, with the condition proved under which it does hold.

- Packed ring, failed DMA mapping in the middle of a chain: the flags of stored descriptors stay in the ring. Giving up
  is harmless exactly while at most one descriptor is stored: any one-descriptor chain added next, once read, makes the
  device see a chain that nobody published if and only if more were stored (`PackedRing.AbandonedSeen`).
- Notification by event index is exact on the split ring if and only if fewer than 2^16 entries were added since the
  last kick, which the forced kick guarantees (`EventIdx.SplitKickLimit`, `SplitQueue.KickExact`); on the packed ring,
  which has no forced kick, the exact condition is `EventIdx.PackedKickExact`.
- `restore_reserve_on_error`: the comment in lines 2927-2936 of mm/hugetlb.c infers from a failed `vma_needs_reservation`
  that the map has no entry for the page. `region_chg` wants a descriptor whether or not one will be used, so it can fail
  with an entry present. Page flag and map end up in agreement exactly under `VmaReservation.Agrees`, a condition on the
  map and the turns before the call (`VmaReservation.RestoreReserveOnError`). As long as nobody comes between
  `region_abort` and `region_del`, that is certain if and only if the map has a descriptor to spare, or the page is one
  of a private mapping with the flag set (`VmaReservation.SpareDecides`; `VmaReservation.WithoutSpare` is a failing
  case). If others may come between, it is certain if and only if there is one to spare and the page is not of that kind
  (`VmaReservation.SpareDecidesBetween`): when they take it and memory is short, a private mapping keeps entry and flag.
- `region_del` with f == t inside a region leaves two touching halves (`Regions.EmptyCut`).
- `get_scan_count` says that each type gets at least a third of the pressure before swappiness. Rounding takes that away
  exactly when one type's cost is 199 or more and the other's is 0 (`ScanBudget.AThird`).
- Without swap, `inc_min_seq` gives up anon generations whatever is in them. The anon half of the window is lost from then
  on exactly if a folio was there (`inverted`, `LruGen.WindowLost`); the rest of the invariant is not.
- A subpool without a maximum can be freed with pages in use (`Subpools.FreedInUse`); with one it cannot
  (`Subpools.FreedClean`).

Where a comment and the code disagree, the model follows the code.

## Model

| member | source | states |
|---|---|---|
| PackedProtocol.EveryRun | kernel/catchup-resolutions/v6.1.180/drivers/virtio/virtio_ring.c:1355-1483 | In every state of every run of driver and conforming device steps from an empty ring: U <= P <= D <= A <= U + num, the driver's test is true exactly when U < P and the device's exactly when D < A. |
| PackedProtocol.StepKeeps | kernel/catchup-resolutions/v6.1.180/drivers/virtio/virtio_ring.c:1413-1478 | Each single store, publication, consumption, device read and device write-back keeps the whole invariant of ring memory, positions and buffers. |
| PackedProtocol.MoreUsedExact | kernel/catchup-resolutions/v6.1.180/drivers/virtio/virtio_ring.c:1601-1624 | The two flag bits of one slot, compared with the wrap counter, say exactly whether something is used and not consumed, and the slot then names that buffer. |
| PackedProtocol.DeviceSeesExact | kernel/catchup-resolutions/v6.1.180/drivers/virtio/virtio_ring.c:1471-1477 | Also while a chain is half stored: the device finds a chain exactly when one is published, and following NEXT from there reads just that chain and no descriptor of the unfinished one. |
| PackedMemory.PositionShows | kernel/catchup-resolutions/v6.1.180/drivers/virtio/virtio_ring.c:1446-1456 | Slot and lap parity of every position within one ring length of U follow from the slot and parity of U. |
| PackedMemory.TurnShows | kernel/catchup-resolutions/v6.1.180/drivers/virtio/virtio_ring.c:1670-1677 | Moving the used register past n slots shows the ring as seen from U + n, in unchanged memory. |
| PackedRing.EncodeUsedExact | kernel/catchup-resolutions/v6.1.180/drivers/virtio/virtio_ring.c:1174-1182 | The used register, slot in the low 15 bits and wrap counter on top, gives both back. |
| PackedRing.StoresKeep | kernel/catchup-resolutions/v6.1.180/drivers/virtio/virtio_ring.c:1418-1453 | Every memory that the device can see during the store loop of an add satisfies the protocol's invariant. |
| PackedRing.HeadWithheld | kernel/catchup-resolutions/v6.1.180/drivers/virtio/virtio_ring.c:1425-1477 | Whatever has been stored, of a chain or of a table's descriptor, the head's slot keeps its old flags until it is published. |
| PackedRing.AddFits | kernel/catchup-resolutions/v6.1.180/drivers/virtio/virtio_ring.c:1397-1478 | Storing a chain from the next available slot and its head's flags last publishes it at position A, and all registers then encode the new positions. |
| PackedRing.AbandonFits | kernel/catchup-resolutions/v6.1.180/drivers/virtio/virtio_ring.c:1485-1503 | Giving up after at most the head is stored leaves registers and positions as they were. |
| PackedRing.AbandonedSeen | kernel/catchup-resolutions/v6.1.180/drivers/virtio/virtio_ring.c:1485-1503 | After a half-stored chain was given up, and any one-descriptor chain has been added and read, the device sees one more chain, which nobody published, if and only if more than the head had been stored. |
| PackedRing.PublishedAt | kernel/catchup-resolutions/v6.1.180/drivers/virtio/virtio_ring.c:1418-1471 | After an add the slots from the head on hold the chain in order, around the end of the ring, and all others what they held. |
| PackedRing.ConsumeFits | kernel/catchup-resolutions/v6.1.180/drivers/virtio/virtio_ring.c:1626-1693 | Moving past the used element of a buffer, by the length recorded for it, is the protocol's consumption of the oldest used buffer. |
| PackedRing.DevReadFits | kernel/catchup-resolutions/v6.1.180/drivers/virtio/virtio_ring.c:1355-1483 | A device read leaves what the driver's registers encode intact. |
| PackedRing.DevUseFits | kernel/catchup-resolutions/v6.1.180/drivers/virtio/virtio_ring.c:1601-1624 | A device write-back goes to the slot of position P, and the registers still fit. |
| PackedRing.RegistersTellA | kernel/catchup-resolutions/v6.1.180/drivers/virtio/virtio_ring.c:1174-1182 | `next_avail_idx`, `avail_wrap_counter` and the used register are A and U modulo the ring size with their lap parity, and the last kick plus `num_added` is A. |
| DescPool.TakeKeepsPartition | kernel/catchup-resolutions/v6.1.180/drivers/virtio/virtio_ring.c:639-646 | Taking nodes from the free list leaves free list and chains a partition of all nodes, without repeats, and the new head was not a head. |
| DescPool.GiveKeepsPartition | kernel/catchup-resolutions/v6.1.180/drivers/virtio/virtio_ring.c:743-757 | Putting a chain back leaves them a partition. |
| DescPool.NodesConserved | kernel/catchup-resolutions/v6.1.180/drivers/virtio/virtio_ring.c:639-757 | `num_free` plus the lengths of all outstanding chains is the ring size. |
| DescPool.TakeThreaded | kernel/catchup-resolutions/v6.1.180/drivers/virtio/virtio_ring.c:639-646 | The `next` fields still thread the shorter free list and every chain after only the head has moved. |
| DescPool.GiveThreaded | kernel/catchup-resolutions/v6.1.180/drivers/virtio/virtio_ring.c:743-757 | Writing the old head into the last node of a chain threads the longer free list and leaves every other chain threaded. |
| BufferLedger.AcceptBalanced | kernel/catchup-resolutions/v6.1.180/drivers/virtio/virtio_ring.c:639-653 | Accepting a buffer keeps nodes partitioned, live mappings the sum over outstanding buffers, and tokens given the tokens returned plus those outstanding. |
| BufferLedger.ReleaseBalanced | kernel/catchup-resolutions/v6.1.180/drivers/virtio/virtio_ring.c:734-782 | Releasing a buffer takes away just its mappings, all of which were live, and keeps the books balanced. |
| BufferLedger.Settled | kernel/catchup-resolutions/v6.1.180/drivers/virtio/virtio_ring.c:941-966 | With nothing outstanding all nodes are free, nothing is mapped and every token has been returned. |
| DriverBooks.OpeningOk | kernel/catchup-resolutions/v6.1.180/drivers/virtio/virtio_ring.c:1844-1860 | A fresh `desc_extra` with no tokens is the balanced ledger of an empty queue. |
| DriverBooks.AcceptKeeps | kernel/catchup-resolutions/v6.1.180/drivers/virtio/virtio_ring.c:639-653 | Recording a buffer in private memory matches accepting it in the ledger, with the mappings that its records describe. |
| DriverBooks.DetachKeeps | kernel/catchup-resolutions/v6.1.180/drivers/virtio/virtio_ring.c:734-782 | Relinking a chain and clearing its token matches releasing it in the ledger; all other buffers keep their records. |
| DriverBooks.FreeRecords | kernel/catchup-resolutions/v6.1.180/drivers/virtio/virtio_ring.c:1437-1442 | Writing records of free nodes disturbs no outstanding buffer, so a failed add can leave them. |
| Dma.FillTable | kernel/catchup-resolutions/v6.1.180/drivers/virtio/virtio_ring.c:1271-1284 | Either every entry is mapped, the table holds address, length and direction of each in order and just these mappings are new, or everything mapped is unmapped again. |
| Dma.MapTable | kernel/catchup-resolutions/v6.1.180/drivers/virtio/virtio_ring.c:1267-1353 | The table gets an address exactly if every entry and then the table could be mapped; otherwise no mapping is left. |
| Dma.UnmapTable | kernel/catchup-resolutions/v6.1.180/drivers/virtio/virtio_ring.c:1343-1349 | Unmaps exactly the mappings of the first n entries; all others stay live. |
| Dma.MapEntry | kernel/catchup-resolutions/v6.1.180/drivers/virtio/virtio_ring.c:355-386 | Yields what the IOMMU answers for this very entry, one mapping of its length and direction more live, or fails with nothing mapped; without DMA the entry's physical address and no mapping. |
| Dma.EntryAnswered | kernel/catchup-resolutions/v6.1.180/drivers/virtio/virtio_ring.c:355-377 | The mapping of entry k, spelt out: without DMA its own physical address; else the answer for it, live for just its length and direction. |
| Delivery.ThroughTable | kernel/catchup-resolutions/v6.1.180/drivers/virtio/virtio_ring.c:1271-1305 | A table filled for the request reads back as its entries in order, with their answers, lengths and directions; the mappings behind those pieces and the table are the ones made. |
| Delivery.MappingsBehind | kernel/catchup-resolutions/v6.1.180/drivers/virtio/virtio_ring.c:355-377 | What is mapped for a request is, piece by piece, what the device is shown: same address, length and direction. |
| Dma.Iommu.Unmap | kernel/catchup-resolutions/v6.1.180/drivers/virtio/virtio_ring.c:439-465 | Takes one mapping away, which must be live: nothing is unmapped twice. |
| EventIdx.SplitKickExact | kernel/catchup-resolutions/v6.1.180/drivers/virtio/virtio_ring.c:714-724 | With fewer than 2^16 entries since the last kick the 16-bit comparison finds exactly the events among them (section 2.7.10 of VIRTIO 1.2). |
| EventIdx.SplitKickLimit | kernel/catchup-resolutions/v6.1.180/drivers/virtio/virtio_ring.c:671-674 | It does so for every event if and only if fewer than 2^16 were added: why the kick is forced at 2^16 - 1. |
| EventIdx.PackedKickExact | kernel/catchup-resolutions/v6.1.180/drivers/virtio/virtio_ring.c:1527-1549 | The packed decision is right for every event position of the last lap if and only if the count since the last kick has not overflowed, or its residue still covers a lap. |
| EventIdx.PackedKickRightSoon | kernel/catchup-resolutions/v6.1.180/drivers/virtio/virtio_ring.c:1527-1549 | With fewer than 2^16 descriptors added it is right for every event position from A - num to A. |
| EventIdx.InOneWindow | kernel/catchup-resolutions/v6.1.180/drivers/virtio/virtio_ring.c:703-724 | Over a run of decisions whose windows follow each other, each position added before the last one was in the window of exactly one decision; both queues keep such a run. |
| PackedQueue.Queue.constructor | kernel/catchup-resolutions/v6.1.180/drivers/virtio/virtio_ring.c:1962-1976 | A new queue is valid, with an empty ledger and an empty ring. |
| PackedQueue.Queue.Add | kernel/catchup-resolutions/v6.1.180/drivers/virtio/virtio_ring.c:1355-1504 | A broken queue refuses; else it succeeds exactly if a table can be had and the IOMMU grants it all, or there is room and it grants every entry; no space exactly if there is neither. On success the device reads from the next available slot descriptors of this id and lap, or one with a table, that are the entries of the request: address `phys` or the answer to that entry, length, writable exactly from nOut on; behind them is just what became live, and the token is kept. Otherwise the ledger is as before. Valid either way. |
| PackedQueue.AddMeans | kernel/catchup-resolutions/v6.1.180/drivers/virtio/virtio_ring.c:1241-1504 | The same of the specification of an add: its outcome decided by room and answers alone, what the device then reads of the request, what is live behind it, and INDIRECT exactly if a table was taken. |
| PackedQueue.Queue.AddDirect | kernel/catchup-resolutions/v6.1.180/drivers/virtio/virtio_ring.c:1397-1504 | No space changes nothing; all mapped publishes the chain of the request; else free list and count are as before and, the queue being valid, exactly the mappings of before are live. |
| PackedQueue.Queue.AddIndirect | kernel/catchup-resolutions/v6.1.180/drivers/virtio/virtio_ring.c:1241-1353 | Failure changes nothing at all; success publishes one descriptor for a table that shows every entry, with all entries and the table mapped. |
| PackedQueue.Queue.Rollback | kernel/catchup-resolutions/v6.1.180/drivers/virtio/virtio_ring.c:1485-1503 | From a ring with j entries mapped and stored back to a valid queue: what was mapped for the request has to be unmapped for that; `free_head` and `num_free` stay. |
| PackedQueue.Queue.UnmapRelease | kernel/catchup-resolutions/v6.1.180/drivers/virtio/virtio_ring.c:1485-1500 | Walking slots and nodes from the head to the slot where storing stopped unmaps exactly the mappings recorded on the way, also around the end of the ring, and leaves the rest live. |
| PackedQueue.CommitCompletes | kernel/catchup-resolutions/v6.1.180/drivers/virtio/virtio_ring.c:1455-1478 | What the commit does to each field is, for the chain stored before it, exactly what adding the request means, and leaves the queue valid. |
| PackedQueue.AddedShows | kernel/catchup-resolutions/v6.1.180/drivers/virtio/virtio_ring.c:1418-1471 | What the device then finds: from the next available slot on, around the end of the ring, the entries of the request in order with address, length, id and lap flags; every other slot as it was. |
| PackedQueue.GivenUpOk | kernel/catchup-resolutions/v6.1.180/drivers/virtio/virtio_ring.c:1485-1503 | A queue with a given-up request is valid for every later operation; only its ring is no longer trusted if a second descriptor was stored. |
| PackedQueue.Queue.Detach | kernel/catchup-resolutions/v6.1.180/drivers/virtio/virtio_ring.c:1555-1599 | Detaching releases the buffer: its nodes to the front of the free list, each of its mappings, chain and table, unmapped once so that the IOMMU again holds what the ledger shows, its table dropped or its context returned. |
| PackedQueue.Queue.NextUsed | kernel/catchup-resolutions/v6.1.180/drivers/virtio/virtio_ring.c:1626-1672 | Whatever the device wrote: an id is found if and only if the slot looks written back and names an outstanding buffer, and the queue breaks if and only if it looks so and names none; with a conforming device it does not break, and finds the oldest used buffer exactly if U < P. |
| PackedQueue.Queue.GetBuf | kernel/catchup-resolutions/v6.1.180/drivers/virtio/virtio_ring.c:1626-1693 | Whatever the device wrote: the token, length and context of the buffer named are handed back and everything of it is released, its mappings unmapped, exactly if the slot names an outstanding one; broken exactly if it names none; else nothing changes. On an operating ring it returns one exactly if the device has used one. The caller has its token back, the free list the nodes, and just what was mapped for it is no longer live. |
| PackedQueue.MemoryTellsUsed | kernel/catchup-resolutions/v6.1.180/drivers/virtio/virtio_ring.c:1601-1624 | The test on real memory and registers agrees with the positions, and the slot names an outstanding buffer. |
| PackedQueue.DataTellsOutstanding | kernel/catchup-resolutions/v6.1.180/drivers/virtio/virtio_ring.c:1640-1672 | A token is recorded exactly for outstanding ids, so the driver can tell them by looking. |
| PackedQueue.Queue.DetachUnused | kernel/catchup-resolutions/v6.1.180/drivers/virtio/virtio_ring.c:1820-1842 | Returns a token still held and releases its buffer, its mappings unmapped, or nothing is left: all nodes free (the check in line 1838 cannot fail), nothing mapped, every token returned. |
| PackedQueue.NoneLeft | kernel/catchup-resolutions/v6.1.180/drivers/virtio/virtio_ring.c:1837-1841 | No recorded token left means all nodes free, nothing mapped, all tokens returned. |
| PackedQueue.Queue.Reinit | kernel/catchup-resolutions/v6.1.180/drivers/virtio/virtio_ring.c:1987-1997 | A drained queue set up again in place, as after a resize that failed, is valid with its free list in whatever order it was. |
| PackedQueue.ReinitialisedOk | kernel/catchup-resolutions/v6.1.180/drivers/virtio/virtio_ring.c:2068-2096 | Re-initialising the ring of a drained queue gives a valid queue with all nodes free. |
| PackedQueue.Queue.KickPrepare | kernel/catchup-resolutions/v6.1.180/drivers/virtio/virtio_ring.c:1506-1553 | ENABLE always kicks, DISABLE never; with descriptor events by the event about the positions since the last decision; the windows of all decisions go on tiling all positions added. |
| PackedQueue.KickExact | kernel/catchup-resolutions/v6.1.180/drivers/virtio/virtio_ring.c:1506-1553 | With descriptor events the driver kicks exactly if the device's event lies between the last kick and A, up to 2^16 - 1 descriptors since then. |
| PackedQueue.Queue.DeviceWrites | kernel/catchup-resolutions/v6.1.180/drivers/virtio/virtio_ring.c:1601-1612 | A write-back by a conforming device leaves the queue valid. |
| PackedQueue.DeviceKeeps | kernel/catchup-resolutions/v6.1.180/drivers/virtio/virtio_ring.c:1355-1693 | So does anything a conforming device may do next. |
| SplitQueue.Queue.constructor | kernel/catchup-resolutions/v6.1.180/drivers/virtio/virtio_ring.c:1019-1043 | A new queue is valid, with an empty ledger. |
| SplitQueue.Queue.Add | kernel/catchup-resolutions/v6.1.180/drivers/virtio/virtio_ring.c:520-701 | A broken queue refuses; else the status is decided by room and answers alone, table first. On success the next slot of the available ring holds the head of descriptors, or of one with a table, that are the entries of the request: address `phys` or the answer to that entry, length, writable exactly from nOut on; behind them is just what became live, and the token is kept. Otherwise ledger and available ring are as before. Valid either way. |
| SplitQueue.AddMeans | kernel/catchup-resolutions/v6.1.180/drivers/virtio/virtio_ring.c:520-701 | The same of the specification of an add: its status, what the device then reads of the request, what is live behind it, and INDIRECT exactly if a table was taken. |
| SplitQueue.ShownAsMapped | kernel/catchup-resolutions/v6.1.180/drivers/virtio/virtio_ring.c:494-519 | In every valid queue: following NEXT from the head of any outstanding buffer the device reads, piece by piece, just what is mapped for it: same address, length, direction, and table or not; through a table the table's entries. |
| SplitQueue.Queue.AddDirect | kernel/catchup-resolutions/v6.1.180/drivers/virtio/virtio_ring.c:586-653 | Succeeds exactly if every entry can be mapped; then the chain shows the request to the device and ends where it does; else the queue is valid with exactly the mappings of before, so that the walk back has to be made. |
| SplitQueue.Queue.PublishTable | kernel/catchup-resolutions/v6.1.180/drivers/virtio/virtio_ring.c:624-666 | One available entry for a table, with entries and table mapped. |
| SplitQueue.Queue.UnmapRelease | kernel/catchup-resolutions/v6.1.180/drivers/virtio/virtio_ring.c:678-694 | Following `next` from the head until the node where storing stopped unmaps exactly the mappings of the nodes on the way. |
| SplitQueue.Queue.UnmapChain | kernel/catchup-resolutions/v6.1.180/drivers/virtio/virtio_ring.c:743-757 | Following the NEXT flags from a head passes exactly the chain of that buffer, counts it and unmaps exactly its mappings. |
| SplitQueue.Queue.Detach | kernel/catchup-resolutions/v6.1.180/drivers/virtio/virtio_ring.c:734-782 | Detaching releases the buffer: nodes, mappings (chain and table, whose record passes the checks in lines 770-772) unmapped so that the IOMMU again holds what the ledger shows, and table or context. |
| SplitQueue.Queue.GetBuf | kernel/catchup-resolutions/v6.1.180/drivers/virtio/virtio_ring.c:790-846 | For any values the device wrote: a new entry naming an outstanding id hands back its token, the length written and its context and releases it once; any other id breaks the queue and changes nothing else; no new entry changes nothing. With a conforming device it never breaks, and a buffer is handed back exactly if one has been used and not taken. The caller has its token back, the free list the nodes, and just what was mapped for it is no longer live. |
| SplitQueue.IndexTells | kernel/catchup-resolutions/v6.1.180/drivers/virtio/virtio_ring.c:784-788 | The 16-bit used index of a conforming device differs from the driver's exactly if a used buffer has not been taken, over unbounded counts. |
| SplitQueue.DataTells | kernel/catchup-resolutions/v6.1.180/drivers/virtio/virtio_ring.c:825-828 | A token is recorded exactly for heads of outstanding buffers, whatever the device claims. |
| SplitQueue.Queue.DetachUnused | kernel/catchup-resolutions/v6.1.180/drivers/virtio/virtio_ring.c:941-966 | Returns a token still held and releases its buffer, its mappings unmapped, or all nodes are free (the check in line 962 cannot fail), nothing is mapped, every token is returned. |
| SplitQueue.NoneLeft | kernel/catchup-resolutions/v6.1.180/drivers/virtio/virtio_ring.c:958-965 | No recorded token left means all nodes free, nothing mapped, all tokens returned. |
| SplitQueue.Queue.Reinit | kernel/catchup-resolutions/v6.1.180/drivers/virtio/virtio_ring.c:987-1008 | A drained queue set up again in place is valid with all nodes free. |
| SplitQueue.Queue.MakeAvailable | kernel/catchup-resolutions/v6.1.180/drivers/virtio/virtio_ring.c:655-674 | The head goes to the slot of the next position, index and count move on, and a count that would overflow is kicked away. |
| SplitQueue.Queue.Commit | kernel/catchup-resolutions/v6.1.180/drivers/virtio/virtio_ring.c:639-674 | The buffer is handed over: nodes taken, token kept, head posted, mappings on the books. |
| SplitQueue.Queue.KickPrepare | kernel/catchup-resolutions/v6.1.180/drivers/virtio/virtio_ring.c:703-732 | The decision by event or by the device's flag about the heads since the last decision; the windows of all decisions go on tiling all heads posted. |
| SplitQueue.SlotOf | kernel/catchup-resolutions/v6.1.180/drivers/virtio/virtio_ring.c:655-658 | The masked 16-bit index is the slot of the unbounded position, since a ring size divides 2^16. |
| SplitQueue.ShowsOneMore | kernel/catchup-resolutions/v6.1.180/drivers/virtio/virtio_ring.c:655-665 | After a head is posted the available ring still shows the last `num` heads in order. |
| SplitQueue.KickExact | kernel/catchup-resolutions/v6.1.180/drivers/virtio/virtio_ring.c:703-724 | With event indices, on an operating ring, the driver kicks exactly if the event lies among the heads posted since the last kick; the forced kick makes any bound unnecessary. |
| SplitQueue.PostedOk | kernel/catchup-resolutions/v6.1.180/drivers/virtio/virtio_ring.c:639-674 | Posting the first nodes of the free list keeps the queue valid: chains end where their flags say, indices count the heads. |
| SplitQueue.EnteredOk | kernel/catchup-resolutions/v6.1.180/drivers/virtio/virtio_ring.c:586-622 | After the store loop and the cleared last flag, the free nodes show the request in order, the descriptors agree with the records in address, length, direction and INDIRECT, and the records carry exactly its mappings. |
| SplitQueue.AddedOk | kernel/catchup-resolutions/v6.1.180/drivers/virtio/virtio_ring.c:586-674 | Entering and posting a request is a valid queue whose ledger has just that buffer more. |
| SplitQueue.TableOk | kernel/catchup-resolutions/v6.1.180/drivers/virtio/virtio_ring.c:624-674 | The same for a request in an indirect table. |
| Regions.InsertExact | kernel/catchup-resolutions/v6.1.180/mm/hugetlb.c:527-552 | Inserting a region in a gap and merging it with neighbours that touch and share charges keeps the list sorted, leaves no mergeable neighbours if there were none, and adds just the new pages. |
| Regions.Canonical | kernel/catchup-resolutions/v6.1.180/mm/hugetlb.c:527-552 | A sorted list without mergeable neighbours is determined by the pages it holds and for whom. |
| Regions.PresentAndMissing | kernel/catchup-resolutions/v6.1.180/mm/hugetlb.c:966-991 | Pages held plus pages missing make up the range. |
| Regions.CountGap | kernel/catchup-resolutions/v6.1.180/mm/hugetlb.c:603-635 | One gap adds its pages to the count and one region to those needed. |
| Regions.CutLookup | kernel/catchup-resolutions/v6.1.180/mm/hugetlb.c:839-931 | Cutting a range out removes exactly its pages from the meaning of the list. |
| Regions.CutApart | kernel/catchup-resolutions/v6.1.180/mm/hugetlb.c:884-925 | A cut leaves no mergeable neighbours, unless an empty range falls inside a region. |
| Regions.EmptyCut | kernel/catchup-resolutions/v6.1.180/mm/hugetlb.c:861-902 | Cutting out the empty range at f leaves mergeable halves if and only if some region lies across f. |
| Regions.OverlapCounts | kernel/catchup-resolutions/v6.1.180/mm/hugetlb.c:904-927 | The sum of the pieces taken out of each region is the number of pages of the range that were held. |
| ReserveScan.PassRegion | kernel/catchup-resolutions/v6.1.180/mm/hugetlb.c:603-632 | Passing a region that begins before the walk's position keeps the walk's account of what it has dealt with. |
| ReserveScan.FillAndPass | kernel/catchup-resolutions/v6.1.180/mm/hugetlb.c:603-632 | Inserting the gap before a region, wherever merging has moved the rest of the list, keeps that account, and never takes more regions than the whole range has gaps. |
| ReserveScan.FillTail | kernel/catchup-resolutions/v6.1.180/mm/hugetlb.c:633-635 | The last gap completes the range. |
| ResvMaps.ResvMap.CoalesceFileRegion | kernel/catchup-resolutions/v6.1.180/mm/hugetlb.c:527-552 | Merging left and then right in the edited list is the merge of the three neighbours. |
| ResvMaps.ResvMap.HugetlbResvMapAdd | kernel/catchup-resolutions/v6.1.180/mm/hugetlb.c:444-570 | With a descriptor in the cache it takes one and inserts the region, merged; the check in line 449 cannot fail. |
| ResvMaps.ResvMap.AddReservationInRange | kernel/catchup-resolutions/v6.1.180/mm/hugetlb.c:580-638 | Counting and adding return the same pages and descriptors; counting changes nothing; adding makes the list mean the old pages and the missing ones of the range and takes just the descriptors counted. |
| ResvMaps.ResvMap.AllocateFileRegionEntries | kernel/catchup-resolutions/v6.1.180/mm/hugetlb.c:642-694 | Ends in exactly the state that the turns lead to. Succeeds exactly with what is promised plus what is asked in the cache; memory was had in every turn used up, or refused in the last and that is the failure; what is left is as the last of the others left it, with nothing but descriptors added; it waits exactly if the cache was short. Our own promise is untouched. |
| ResvMaps.ResvMap.RegionChg | kernel/catchup-resolutions/v6.1.180/mm/hugetlb.c:780-801 | Returns the pages missing, and a ticket for at least one descriptor and one for each gap, backed by the cache; fails, with no ticket, exactly if descriptors have to be allocated and memory is refused. |
| ResvMaps.ResvMap.RegionAdd | kernel/catchup-resolutions/v6.1.180/mm/hugetlb.c:713-758 | Set union at the moment the lock was last taken, which is a function of the map at the start and the turns: sorted, no new mergeable neighbours, returns the pages that were missing, redeems the ticket, or -ENOMEM with that map untouched. For one page it never drops the lock and never fails. Memory was had in every turn used up, or refused in the last, and only that makes it fail; it waits exactly if descriptors were short. |
| ResvMaps.ResvMap.RegionAbort | kernel/catchup-resolutions/v6.1.180/mm/hugetlb.c:816-823 | Gives the promise back and nothing else. |
| ResvMaps.ResvMap.DeleteRange | kernel/catchup-resolutions/v6.1.180/mm/hugetlb.c:860-928 | One pass takes out the whole range and counts it, taking one cached descriptor exactly if a region has to be split and none is at hand, or is stuck with nothing changed. |
| ResvMaps.ResvMap.RegionDel | kernel/catchup-resolutions/v6.1.180/mm/hugetlb.c:839-931 | Set difference on the map of the start, or, after waiting for memory that was had, on just the one the others left: returns the pages that were held, counted once in spite of the restart, and says which descriptor was used. Fails, changing nothing, if and only if a region holds the range with more on both sides, none is to spare and memory is refused. With t at or beyond every region's end, as LONG_MAX is, it never splits, waits or fails. |
| ResvMaps.ResvMap.RegionCount | kernel/catchup-resolutions/v6.1.180/mm/hugetlb.c:966-991 | The pages held, which with the missing ones make the range. |
| ResvMaps.IssueOk | kernel/catchup-resolutions/v6.1.180/mm/hugetlb.c:793-800 | A ticket may be issued if the cache covers it beside all others. |
| ResvMaps.RedeemOk | kernel/catchup-resolutions/v6.1.180/mm/hugetlb.c:740-756 | An addition may take its own descriptors and any not promised; the others stay backed. |
| ResvMaps.TicketBacked | kernel/catchup-resolutions/v6.1.180/mm/hugetlb.c:740-742 | `adds_in_progress` is never less than a ticket and never more than the cache, so the checks in lines 742 and 820 cannot fail. |
| ResvMaps.OnePage | kernel/catchup-resolutions/v6.1.180/mm/hugetlb.c:2767-2773 | One page is at most one gap: the check in line 2773 cannot fail. |
| ResvMaps.AllocationFair | kernel/catchup-resolutions/v6.1.180/mm/hugetlb.c:642-694 | Whatever fair others do while memory is waited for, the books stay right, our promise is kept, and the list that remains is that of the start or one that a turn left. |
| ResvMaps.AllocationMeans | kernel/catchup-resolutions/v6.1.180/mm/hugetlb.c:642-694 | Waiting for memory, spelt out: it succeeds exactly with enough in the cache, fails only at a refusal and then at once, uses turns only while short, and leaves what the last of the others left, with the descriptors had on top; exactly how many after one turn. |
| ResvMaps.AddAttemptFair | kernel/catchup-resolutions/v6.1.180/mm/hugetlb.c:713-740 | The same over all rounds of `region_add`; undisturbed, the list stays that of the start. |
| ResvMaps.AddAttemptMeans | kernel/catchup-resolutions/v6.1.180/mm/hugetlb.c:713-740 | The same over all rounds of `region_add`: granted memory never fails it, it ends with enough at hand, and waits exactly if short. |
| ResvMaps.CutRemoves | kernel/catchup-resolutions/v6.1.180/mm/hugetlb.c:839-931 | The finished pass is set difference, keeps the list sorted, and keeps neighbours apart exactly unless the range is empty and inside a region; the count is the pages that were held. |
| ResvMaps.FirstAcross | kernel/catchup-resolutions/v6.1.180/mm/hugetlb.c:868-902 | A region that has to be split is the first to be touched, so a restart has counted nothing yet, and the split finishes the job. |
| VmaReservation.Common | kernel/catchup-resolutions/v6.1.180/mm/hugetlb.c:2752-2830 | Answers whether a reservation exists, though entries mean opposite things for shared and private mappings; begins or ends one addition; the beginning fails exactly if a descriptor has to be allocated and cannot be; after it only a removal can fail, and exactly as the turns say. |
| VmaReservation.AddPage | kernel/catchup-resolutions/v6.1.180/mm/hugetlb.c:2775-2779 | A one-page addition with its ticket never fails. |
| VmaReservation.RemovePage | kernel/catchup-resolutions/v6.1.180/mm/hugetlb.c:2789-2798 | Abort and delete remove the entry from the list that was there or that the others left between the two or while memory was waited for; undisturbed they cannot fail, since the descriptor given up pays for a split. |
| VmaReservation.RestoreReserveOnError | kernel/catchup-resolutions/v6.1.180/mm/hugetlb.c:2882-2953 | Flag and map agree afterwards if and only if `Agrees` holds before the call, of the map's spare descriptors, the turns, the kind of mapping and the flag; then, if the flag stays, the entry is removed just if it ought to be. Undisturbed they always agree. |
| VmaReservation.SpareDecides | kernel/catchup-resolutions/v6.1.180/mm/hugetlb.c:2882-2953 | Nobody between abort and delete: they agree whatever memory and the others do if and only if the map has a spare descriptor, or the mapping is private and the flag set. |
| VmaReservation.SpareDecidesBetween | kernel/catchup-resolutions/v6.1.180/mm/hugetlb.c:2882-2953 | With others allowed between as well: if and only if there is a spare descriptor and the page is not one of a private mapping with the flag set. |
| VmaReservation.WithoutSpare | kernel/catchup-resolutions/v6.1.180/mm/hugetlb.c:2927-2936 | A failing case: shared mapping, flag clear, the only descriptor promised, memory refused. |
| VmaReservation.CommitAndRestore | kernel/catchup-resolutions/v6.1.180/mm/hugetlb.c:2882-2953 | Undisturbed, needs, commit and restore return list, promises and tickets to exactly their prior state if and only if the flag is set exactly when needs answered 0. |
| Subpools.EveryRun | kernel/catchup-resolutions/v6.1.180/mm/hugetlb.c:174-252 | Over any gets and puts: charge is outstanding plus kept pages, never below the minimum, 0 <= rsv <= min, used <= max; when all is back, the charge is that of the start. |
| Subpools.GetKeeps | kernel/catchup-resolutions/v6.1.180/mm/hugetlb.c:174-211 | A get keeps the books and never costs more than it takes; a refused one changes nothing. |
| Subpools.GetMeans | kernel/catchup-resolutions/v6.1.180/mm/hugetlb.c:174-211 | Refused exactly if there is a maximum and all in use would exceed it; else the global reserve is charged only once nothing is kept for the minimum. |
| Subpools.PutKeeps | kernel/catchup-resolutions/v6.1.180/mm/hugetlb.c:219-252 | A put of outstanding pages keeps the books and returns between nothing and what was put. |
| Subpools.PutMeans | kernel/catchup-resolutions/v6.1.180/mm/hugetlb.c:219-252 | Above the minimum, or without one, all pages return to the global reserve; below it some do only if the minimum is then kept in full. |
| Subpools.FreeMeans | kernel/catchup-resolutions/v6.1.180/mm/hugetlb.c:104-130 | When a subpool is free: nobody holds it and, with a maximum, no page is out; without one, the minimum if any is kept in full. |
| Subpools.FreedClean | kernel/catchup-resolutions/v6.1.180/mm/hugetlb.c:104-130 | What a freed subpool leaves charged is what is outstanding; with a maximum that is nothing, and the whole minimum was kept. |
| Subpools.FreedInUse | kernel/catchup-resolutions/v6.1.180/mm/hugetlb.c:104-114 | Without a maximum, for every minimum, some run frees it with a page in use. |
| Subpools.Subpool.TakePages | kernel/catchup-resolutions/v6.1.180/mm/hugetlb.c:179-211 | New counters and the pages to charge, or -ENOMEM with nothing changed; the books stay balanced. -ENOMEM exactly if there is a maximum and all in use would exceed it; the charge grows by what is returned, and only once nothing is kept. |
| Subpools.Subpool.GiveBack | kernel/catchup-resolutions/v6.1.180/mm/hugetlb.c:224-252 | New counters, the pages to return, and freed exactly if nobody holds it and it looks unused. While below the minimum pages return only if it is then kept in full. |
| Subpools.Subpool.UnlockOrRelease | kernel/catchup-resolutions/v6.1.180/mm/hugetlb.c:116-130 | Freed exactly when it is free; the minimum goes back then. |
| Subpools.Subpool.PutSubpool | kernel/catchup-resolutions/v6.1.180/mm/hugetlb.c:156-164 | One handle less, and freed exactly if it was the last of an unused subpool. |
| Subpools.NewSubpool | kernel/catchup-resolutions/v6.1.180/mm/hugetlb.c:132-154 | None exactly if the minimum cannot be had; else balanced, with the minimum charged. |
| Subpools.GetPages | kernel/catchup-resolutions/v6.1.180/mm/hugetlb.c:174-211 | Without a subpool all pages are charged; with one the ledger's answer. The charge grows by what is returned, and only once nothing is kept for the minimum. |
| Subpools.PutPages | kernel/catchup-resolutions/v6.1.180/mm/hugetlb.c:219-252 | Without a subpool all pages return; a subpool freed by it leaves its outstanding pages charged, none if it has a maximum. Below the minimum pages return only if it is then kept in full. |
| MemcgLru.RotateKeeps | kernel/catchup-resolutions/v6.1.180/mm/vmscan.c:4808-4852 | Any rotation keeps counts equal to the members, members in the generations of seq and seq + 1, the oldest populated; seq moves by at most one, and only when its last member goes young. |
| MemcgLru.RotateLands | kernel/catchup-resolutions/v6.1.180/mm/vmscan.c:4808-4852 | Where each kind of rotation puts a member: Head and Tail first and last of its own generation, Old first of the oldest, Young last of the next, which is not the oldest unless that ran empty; bin and segment; every other queue without it. |
| MemcgLru.OnlineKeeps | kernel/catchup-resolutions/v6.1.180/mm/vmscan.c:4854-4877 | So does a new member, without moving seq. |
| MemcgLru.OnlineLands | kernel/catchup-resolutions/v6.1.180/mm/vmscan.c:4854-4877 | A new member is the last of the oldest generation in its bin; no other queue changes. |
| MemcgLru.ReleaseKeeps | kernel/catchup-resolutions/v6.1.180/mm/vmscan.c:4890-4914 | So does taking a member out; seq moves only if it was the last of the oldest. |
| MemcgLru.ReleaseLeaves | kernel/catchup-resolutions/v6.1.180/mm/vmscan.c:4890-4914 | A released one is in no queue any more, and nobody else moves. |
| MemcgLru.StepKeeps | kernel/catchup-resolutions/v6.1.180/mm/vmscan.c:4808-4914 | Every operation keeps the invariant and moves seq by at most one. |
| MemcgLru.StaysOldest | kernel/catchup-resolutions/v6.1.180/mm/vmscan.c:4808-4914 | While a member of the oldest generation is not sent young or released, no step moves seq. |
| MemcgLru.NobodySkipped | kernel/catchup-resolutions/v6.1.180/mm/vmscan.c:4808-4914 | In any run: a generation is not left behind while one of its members waits. |
| MemcgLru.Node.RotateMemcg | kernel/catchup-resolutions/v6.1.180/mm/vmscan.c:4808-4852 | The fields after the move, to head or tail, old or young, in place. |
| MemcgLru.Node.OnlineMemcg | kernel/catchup-resolutions/v6.1.180/mm/vmscan.c:4854-4877 | Linked at the tail of the oldest generation. |
| MemcgLru.Node.OfflineMemcg | kernel/catchup-resolutions/v6.1.180/mm/vmscan.c:4879-4888 | Moved to the head of the oldest generation. |
| MemcgLru.Node.ReleaseMemcg | kernel/catchup-resolutions/v6.1.180/mm/vmscan.c:4890-4914 | Unlinked if linked, and the oldest generation moves on if it ran empty. |
| LruWindow.OneNumber | kernel/catchup-resolutions/v6.1.180/mm/vmscan.c:3342-3353 | With at most `maxGens` generations a list holds folios of one generation number, so the flag test tells promoted folios exactly. |
| LruWindow.OldestEmpty | kernel/catchup-resolutions/v6.1.180/mm/vmscan.c:4406-4427 | When its lists are empty no folio is older than the next generation. |
| LruWindow.NextEmpty | kernel/catchup-resolutions/v6.1.180/mm/vmscan.c:4500-4528 | The generation to be opened has no folios. |
| LruWindow.MovedFiled | kernel/catchup-resolutions/v6.1.180/mm/vmscan.c:4418-4419 | A folio moved to the list of its new generation is filed exactly there. |
| LruWindow.TransferKeeps | kernel/catchup-resolutions/v6.1.180/mm/vmscan.c:3853 | Page counts and the active and inactive sizes stay right when a folio changes generation. |
| LruWindow.NoteKeeps | kernel/catchup-resolutions/v6.1.180/mm/vmscan.c:3858-3872 | A note of the walk keeps counts plus notes right, and the notes of each type and zone at sum zero. |
| LruWindow.HandInKeeps | kernel/catchup-resolutions/v6.1.180/mm/vmscan.c:3881-3895 | Handing in one note keeps counts plus notes right and the sizes those of the counts. |
| LruWindow.ShiftSizes | kernel/catchup-resolutions/v6.1.180/mm/vmscan.c:4506-4521 | The size shift makes the active size the pages of the two youngest generations of the new window, for that list alone. |
| LruGen.AgedOk | kernel/catchup-resolutions/v6.1.180/mm/vmscan.c:3829-3856 | Moving the last folio of an oldest list, one generation on or to where a walk promoted it, keeps the whole invariant and makes the oldest lists one shorter. |
| LruGen.AgedLands | kernel/catchup-resolutions/v6.1.180/mm/vmscan.c:3829-3856 | It goes to the end of the list of the generation that a walk promoted it to, or else of the next one; flag and generation say so; all other lists are as they were. |
| LruGen.RaisedOk | kernel/catchup-resolutions/v6.1.180/mm/vmscan.c:4425-4427 | Empty generations may be given up. |
| LruGen.WindowLost | kernel/catchup-resolutions/v6.1.180/mm/vmscan.c:4396-4430 | Every folio of a type is in the window that is left after its oldest generation has been given up, if and only if that had no folio. |
| LruGen.TrimmedOk | kernel/catchup-resolutions/v6.1.180/mm/vmscan.c:4441-4470 | Afterwards the counts of generations are still valid; both minima only rise, and only past empty generations. |
| LruGen.TrimmedMost | kernel/catchup-resolutions/v6.1.180/mm/vmscan.c:4441-4470 | And as far as they can: without swap the file minimum stops only at a full list or at the least number of generations; with swap the anon minimum stops only where one of the two types has a folio, and the file minimum follows it. |
| LruGen.OpenedOk | kernel/catchup-resolutions/v6.1.180/mm/vmscan.c:4500-4528 | With room in the window, the next generation opens empty and the invariant holds for it. |
| LruGen.PromotedOk | kernel/catchup-resolutions/v6.1.180/mm/vmscan.c:3806-3872 | A promotion by a walk keeps the invariant, its pages noted. |
| LruGen.PromotedSays | kernel/catchup-resolutions/v6.1.180/mm/vmscan.c:3806-3872 | The flag says the walk's generation; list, generation and counts of the folio are as they were. |
| LruGen.Lruvec.constructor | kernel/catchup-resolutions/v6.1.180/mm/vmscan.c:6287-6303 | The initial window is valid. |
| LruGen.Lruvec.Promote | kernel/catchup-resolutions/v6.1.180/mm/vmscan.c:3806-3872 | Only the flag and the notes change, to the generation of the walk's own `max_seq`, also if that has been passed meanwhile; the folio stays on its list. |
| LruGen.Lruvec.ResetBatchSize | kernel/catchup-resolutions/v6.1.180/mm/vmscan.c:3874-3896 | Afterwards nothing is noted, counts are right by themselves, lists and window untouched. |
| LruGen.Lruvec.FolioIncGen | kernel/catchup-resolutions/v6.1.180/mm/vmscan.c:3829-3856 | The last folio goes to the generation of its flags if promoted, else to the next, with counts and sizes. |
| LruGen.Lruvec.DrainZone | kernel/catchup-resolutions/v6.1.180/mm/vmscan.c:4407-4424 | Moves folios until the list is empty or the batch used up; no folio of another type or generation is moved, none comes or goes. |
| LruGen.Lruvec.IncMinSeq | kernel/catchup-resolutions/v6.1.180/mm/vmscan.c:4396-4430 | Done: the minimum has risen by one past lists that are empty, except for anon without swap, when the anon order is lost exactly if a folio was there; not done: just one batch of folios has left the oldest generation. No other folio is moved, none comes or goes. |
| LruGen.Lruvec.TryToIncMinSeq | kernel/catchup-resolutions/v6.1.180/mm/vmscan.c:4432-4473 | The new minima, success exactly if one has risen. |
| LruGen.Lruvec.MakeRoom | kernel/catchup-resolutions/v6.1.180/mm/vmscan.c:4484-4498 | Room in the window for every type, or strictly fewer folios to move: the restarts come to an end. Only folios on the oldest lists of types that fill the window have moved; the anon order is lost exactly if the window is full, there is no swap, and a folio is on its oldest list. |
| LruGen.Lruvec.IncMaxSeq | kernel/catchup-resolutions/v6.1.180/mm/vmscan.c:4475-4531 | However often the lock was dropped: from the state at the start, or one that the others left, no folio has left its generation or its flags but those on the oldest lists of types that fill the window; none is lost, what the walk noted is kept, max has risen by one and the minima just of full types, the new generation is empty, sizes are right for the new window, and the anon order is lost exactly in the case of `MakeRoom`. |
| LruGen.Lruvec.Open | kernel/catchup-resolutions/v6.1.180/mm/vmscan.c:4500-4530 | The shift loops and the new max keep the invariant. |
| ScanBudget.WeightsSum | kernel/catchup-resolutions/v6.1.180/mm/vmscan.c:3130-3143 | The denominator is at least 200 and each weight at least its part of it, whatever the costs. |
| ScanBudget.WeightsExact | kernel/catchup-resolutions/v6.1.180/mm/vmscan.c:3130-3143 | Each weight is its type's share of swappiness times the whole cost over its part of the cost, rounded down, with costs weighed two to one. |
| ScanBudget.AThird | kernel/catchup-resolutions/v6.1.180/mm/vmscan.c:3122-3126 | With equal IO cost each type has at least a third of the pressure if and only if the other type has any cost or its own is below 199. |
| ScanBudget.ScanBounded | kernel/catchup-resolutions/v6.1.180/mm/vmscan.c:3146-3250 | No list's scan exceeds what its size, protection and priority allow, nor the list but for the minimum batch under protection; of the last pages of an offline cgroup some are scanned. |
| ScanBudget.BalanceDecides | kernel/catchup-resolutions/v6.1.180/mm/vmscan.c:3220-3250 | What each balance gives: Equal all that is pressed; FileOnly and AnonOnly all of their own type and none of the other; Fract the type's part, rounded down, or up for an offline cgroup. |
| ScanBudget.PartsAddUp | kernel/catchup-resolutions/v6.1.180/mm/vmscan.c:3226-3239 | The two types' parts together are the pressed scan, less than two pages short of it. |
| ScanBudget.PressedExact | kernel/catchup-resolutions/v6.1.180/mm/vmscan.c:3159-3218 | What is pressed: protection keeps the list's part of size times protection over usage, rounded down, low unless it is being reclaimed and above min; what is open, at least a batch, is divided by 2^priority; an offline cgroup's last pages up to a batch are taken. |
| ScanBudget.EachStepHalves | kernel/catchup-resolutions/v6.1.180/mm/vmscan.c:3206-3218 | One priority more halves the scan; at priority 0 without protection it is the whole list. |
| ScanBudget.RebudgetShrinks | kernel/catchup-resolutions/v6.1.180/mm/vmscan.c:6476-6488 | The adjusted budget is no more than was left, and completes the larger of what was scanned and the share. |
| ScanBudget.PercentageExact | kernel/catchup-resolutions/v6.1.180/mm/vmscan.c:6448-6470 | The percentage is that of the target left, rounded down, as if one page more had been wanted. |
| ScanBudget.Nudge | kernel/catchup-resolutions/v6.1.180/mm/vmscan.c:6448-6488 | The smaller type stops, the percentage is at most 99, the larger type gets the same share of its target; nothing grows. |
| ScanBudget.ScanRound | kernel/catchup-resolutions/v6.1.180/mm/vmscan.c:6426-6434 | Each list that has something left gives one batch or all of it, whichever is less, in one call; the others none; all within their targets; the sum falls strictly while the condition of the loop holds. |
| ScanBudget.ShrinkLruvec | kernel/catchup-resolutions/v6.1.180/mm/vmscan.c:6380-6489 | Ends; adjusts at most once; no list is handed out beyond its target, in batches of at most 32; if not enough was reclaimed, or reclaim is proportional, the three lists that the loop looks at are handed out in full. When it stops: unadjusted, only with one type handed out in full; unless reclaim is proportional, the target had not been reached when the last round before the nudge began, and after it comes at most one round, of what the nudge left. |
| BlkgTree.EveryRun | kernel/catchup-resolutions/v6.1.180/block/blk-cgroup.c:272-508 | In every state of every interleaving: the groups of all ancestors are on the queue's list too, further back; below a blkcg without pins nothing has groups or can get any. |
| BlkgTree.StepKeeps | kernel/catchup-resolutions/v6.1.180/block/blk-cgroup.c:272-508 | Every step keeps tree, links, order, pins and phases; no count is negative. |
| BlkgTree.AncestorsLater | kernel/catchup-resolutions/v6.1.180/block/blk-cgroup.c:302-325 | A blkcg with a group on a queue has all its ancestors' there, each further back. |
| BlkgTree.NothingBelow | kernel/catchup-resolutions/v6.1.180/block/blk-cgroup.c:1116-1130 | When the last pin of a blkcg goes, no descendant has any group, and each is torn down or never came online. |
| BlkgTree.CreateKeeps | kernel/catchup-resolutions/v6.1.180/block/blk-cgroup.c:320-326 | Linking at the head of both lists keeps children before parents, given the parent's group. |
| BlkgTree.DestroyKeeps | kernel/catchup-resolutions/v6.1.180/block/blk-cgroup.c:442-444 | Unlinking keeps the order, for both callers. |
| BlkgTree.Childless | kernel/catchup-resolutions/v6.1.180/block/blk-cgroup.c:421-459 | A group that either caller destroys has no child on its queue. |
| BlkgTree.OnlineKeeps | kernel/catchup-resolutions/v6.1.180/block/blk-cgroup.c:1235-1247 | Coming online pins a parent whose count was positive. |
| BlkgTree.DropChildKeeps | kernel/catchup-resolutions/v6.1.180/block/blk-cgroup.c:1116-1130 | The pin put back on the parent was held. |
| BlkgTree.NoneNegative | kernel/catchup-resolutions/v6.1.180/block/blk-cgroup.c:1116-1124 | No pin count falls below zero. |
| BlkgTree.NoneForTheDying | kernel/catchup-resolutions/v6.1.180/block/blk-cgroup.c:272-349 | In any run: a group that a dying queue, or a blkcg taken offline, does not have, it will never have again. |
| BlkgQueues.Blkcgs.BlkgCreate | kernel/catchup-resolutions/v6.1.180/block/blk-cgroup.c:272-349 | Creates exactly if the queue lives, the blkcg is online, memory suffices, the parent has its group there and the blkcg has none yet: at the head of both lists, nothing else; else nothing changes. |
| BlkgQueues.Blkcgs.FirstMissing | kernel/catchup-resolutions/v6.1.180/block/blk-cgroup.c:391-405 | The topmost blkcg on the way up without a group, its parent having one, and the nearest group so far. |
| BlkgQueues.Blkcgs.BlkgLookupCreate | kernel/catchup-resolutions/v6.1.180/block/blk-cgroup.c:364-419 | Ends (one fewer ancestor is missing each time); returns the group asked for, or the nearest ancestor's or the root's with a reason why not; the list has only grown by groups on the way. |
| BlkgQueues.OneFewer | kernel/catchup-resolutions/v6.1.180/block/blk-cgroup.c:391-414 | A group made for an ancestor leaves one fewer missing. |
| BlkgQueues.Blkcgs.BlkgDestroy | kernel/catchup-resolutions/v6.1.180/block/blk-cgroup.c:421-459 | Off both lists; every other list is as it was; both get shorter. |
| BlkgQueues.Blkcgs.BlkgDestroyAll | kernel/catchup-resolutions/v6.1.180/block/blk-cgroup.c:461-508 | Empties the queue's list. At every unlock the books are in order and exactly one batch, from the front of the list, has gone since the lock was last taken, also from its blkcgs' lists, and nothing else has changed; likewise the rest, less than a batch, at the end. Where the lock is taken again, the others' state is taken as it is. |
| BlkgQueues.Blkcgs.BlkcgDestroyBlkgs | kernel/catchup-resolutions/v6.1.180/block/blk-cgroup.c:1064-1092 | Empties the blkcg's list, however the queue locks are had or busy: each time the blkcg's lock is dropped the books are in order, and exactly the groups whose queue locks were had since it was taken are off both lists, from the front, and nothing else has changed; likewise all the rest at the end. |
| BlkgQueues.Blkcgs.BlkcgUnpinOnline | kernel/catchup-resolutions/v6.1.180/block/blk-cgroup.c:1116-1130 | The pin of g falls by the one put back. Torn down are exactly the blkcgs whose pins this brings to 0, all of them on the way from g to the root: their groups are off every list, each has put back its pin on its parent; no other pin, group or list changes. |
| BlkgQueues.Blkcgs.TearDown | kernel/catchup-resolutions/v6.1.180/block/blk-cgroup.c:1123-1128 | One round: its groups are gone from its list and every queue's, the pin on the parent is put back, nothing else changes. |
| BlkgQueues.Blkcgs.BlkcgCssOnline | kernel/catchup-resolutions/v6.1.180/block/blk-cgroup.c:1235-1247 | Live and online, with one more pin on the parent. |
| IoStat.FlushKeeps | kernel/catchup-resolutions/v6.1.180/block/blk-cgroup.c:851-883 | Any flush step, in any order of CPUs and groups, keeps each group's counter equal modulo 2^64 to what it took from its CPUs and children. |
| IoStat.PassCleans | kernel/catchup-resolutions/v6.1.180/block/blk-cgroup.c:851-883 | A pass with children before parents leaves nothing behind in the groups of the pass. |
| IoStat.PassesClean | kernel/catchup-resolutions/v6.1.180/block/blk-cgroup.c:851-883 | One such pass for each CPU leaves nothing behind anywhere. |
| IoStat.FlushShowsNaive | kernel/catchup-resolutions/v6.1.180/block/blk-cgroup.c:851-883 | Afterwards each non-root group shows the sum of all per-CPU counters of its subtree, modulo 2^64, whatever was flushed before. |
| IoStat.ShowsNaive | kernel/catchup-resolutions/v6.1.180/block/blk-cgroup.c:836-883 | With nothing waiting a group shows the naive sum. |
| IoStat.FlushAgain | kernel/catchup-resolutions/v6.1.180/block/blk-cgroup.c:851-883 | Flushing again changes no counter. |
| IoStat.SubtreeSplits | kernel/catchup-resolutions/v6.1.180/block/blk-cgroup.c:876-879 | A subtree is its root and the disjoint subtrees of its children. |
| IoStat.NaiveSplits | kernel/catchup-resolutions/v6.1.180/block/blk-cgroup.c:876-879 | The naive sum is the own part plus the children's naive sums. |
| IoStat.Counters.CollectFrom | kernel/catchup-resolutions/v6.1.180/block/blk-cgroup.c:836-849 | The counters after a per-CPU delta. |
| IoStat.Counters.Count | kernel/catchup-resolutions/v6.1.180/block/blk-cgroup.c:1990-2018 | Counting an I/O on one CPU changes that counter alone and keeps what the groups have taken balanced. |
| IoStat.Counters.PassUp | kernel/catchup-resolutions/v6.1.180/block/blk-cgroup.c:876-879 | The counters after a group's delta to its parent. |
| IoStat.Counters.RstatFlush | kernel/catchup-resolutions/v6.1.180/block/blk-cgroup.c:851-883 | The loop over the groups of one cgroup keeps what the deltas keep. |
| ObjPools.Pools.constructor | kernel/catchup-resolutions/v6.1.180/lib/debugobjects.c:1347-1356 | All static objects wait in the pool. |
| ObjPools.Pools.AllocObject | kernel/catchup-resolutions/v6.1.180/lib/debugobjects.c:220-278 | No object is lost or made; the one returned becomes tracked, all counters stay list lengths. It is the first of the CPU's list, once there is a cache, or else of the pool, and then, with a cache, a batch moves ahead to the CPU's list, as far as the pool reaches; none is returned only if both are empty. |
| ObjPools.Pools.LookAhead | kernel/catchup-resolutions/v6.1.180/lib/debugobjects.c:241-258 | A batch, or all there is, moves from the front of the pool to the CPU's list; used less per-CPU objects stays the same. |
| ObjPools.Pools.FreeObject | kernel/catchup-resolutions/v6.1.180/lib/debugobjects.c:336-416 | With a cache, to the head of the CPU's list while that has room; else with a batch from there to be freed, or to the pool if that is not over its size; without a cache to the pool; nothing is lost, at most 64 on a CPU and 1040 to be freed. |
| ObjPools.Pools.TakeBatch | kernel/catchup-resolutions/v6.1.180/lib/debugobjects.c:363-368 | Just a batch, or all there is, leaves the front of the CPU's list, into the hand. |
| ObjPools.Pools.TrimPool | kernel/catchup-resolutions/v6.1.180/lib/debugobjects.c:388-401 | The extra batch never finds the pool empty. |
| ObjPools.Pools.FreeGlobally | kernel/catchup-resolutions/v6.1.180/lib/debugobjects.c:370-414 | Object and batch are to be freed, with a batch of the pool's as there is room for them, if the pool holds more than it should; else they go to the pool. |
| ObjPools.Pools.FillPool | kernel/catchup-resolutions/v6.1.180/lib/debugobjects.c:127-184 | Objects to be freed are used again first, then just the first of the new ones come in; afterwards the pool is at its minimum level unless memory has run out or there is no cache yet. Without new ones it takes from the free list only up to that level. |
| ObjPools.Pools.FreeObjWork | kernel/catchup-resolutions/v6.1.180/lib/debugobjects.c:286-334 | What leaves is counted as freed and is all that leaves; with a full pool the list ends empty. Otherwise none leaves and the pool is refilled from the list up to its size. |
| ObjPools.Pools.ObjectCpuOffline | kernel/catchup-resolutions/v6.1.180/lib/debugobjects.c:432-454 | The dead CPU's objects, and only they, are freed and counted. |
| ObjPools.Pools.ReplaceStaticObjects | kernel/catchup-resolutions/v6.1.180/lib/debugobjects.c:1361-1413 | All or nothing: the new objects fill pool and buckets, as many tracked as before, from then on all lists together are allocated less freed. |
| ObjTracker.DestroyedUntilFreed | kernel/catchup-resolutions/v6.1.180/lib/debugobjects.c:841-880 | Whatever is done to a destroyed object, it stays so until freed. |
| ObjTracker.PinnedByActiveState | kernel/catchup-resolutions/v6.1.180/lib/debugobjects.c:979-1011 | A nonzero active state can only be left through `debug_object_active_state`. |
| ObjTracker.StaysSound | kernel/catchup-resolutions/v6.1.180/lib/debugobjects.c:679-1011 | No operation leaves an active state on an object that is not active. |
| ObjTracker.LinkKeeps | kernel/catchup-resolutions/v6.1.180/lib/debugobjects.c:271-275 | A new object at the head of its address's bucket keeps every object in its own bucket once and every address tracked at most once. |
| ObjTracker.UnlinkKeeps | kernel/catchup-resolutions/v6.1.180/lib/debugobjects.c:907-914 | So does taking one out. |
| ObjTracker.NewOne | kernel/catchup-resolutions/v6.1.180/lib/debugobjects.c:220-278 | An object handed out by the pools is not in use already. |
| ObjTracker.Tracker.LookupObject | kernel/catchup-resolutions/v6.1.180/lib/debugobjects.c:189-203 | Looking in the address's own bucket finds it if it is tracked anywhere. |
| ObjTracker.Tracker.LookupObjectOrAlloc | kernel/catchup-resolutions/v6.1.180/lib/debugobjects.c:561-598 | An old object, a new one in the state for its kind, no entry for an unknown non-static address, or out of memory with the tracker off. |
| ObjTracker.Tracker.Track | kernel/catchup-resolutions/v6.1.180/lib/debugobjects.c:220-278 | One more tracked address, or none. |
| ObjTracker.Tracker.Untrack | kernel/catchup-resolutions/v6.1.180/lib/debugobjects.c:336-416 | One fewer, back to the pools. |
| ObjTracker.Tracker.DebugObjectsOom | kernel/catchup-resolutions/v6.1.180/lib/debugobjects.c:461-483 | Nothing is tracked, every object back in the pools. |
| ObjTracker.Tracker.DebugObjectInit | kernel/catchup-resolutions/v6.1.180/lib/debugobjects.c:659-700 | Exactly the address's object changes, to initialised; a warning exactly for active or destroyed ones, and then nothing changes. |
| ObjTracker.Tracker.DebugObjectActivate | kernel/catchup-resolutions/v6.1.180/lib/debugobjects.c:733-790 | Likewise, to active; an unknown address is refused unless static; the exact return value. |
| ObjTracker.Tracker.DebugObjectDeactivate | kernel/catchup-resolutions/v6.1.180/lib/debugobjects.c:798-833 | Likewise, to inactive; a warning exactly for unknown, destroyed, or state-pinned objects. |
| ObjTracker.Tracker.DebugObjectDestroy | kernel/catchup-resolutions/v6.1.180/lib/debugobjects.c:841-880 | Likewise, to destroyed; a warning exactly for active or destroyed ones. |
| ObjTracker.Tracker.DebugObjectFree | kernel/catchup-resolutions/v6.1.180/lib/debugobjects.c:888-922 | Removed unless active; a warning exactly then. |
| ObjTracker.Tracker.DebugObjectAssertInit | kernel/catchup-resolutions/v6.1.180/lib/debugobjects.c:930-968 | A warning exactly for unknown non-static addresses. |
| ObjTracker.Tracker.DebugObjectActiveState | kernel/catchup-resolutions/v6.1.180/lib/debugobjects.c:979-1011 | Moves from the expected to the next active state, or warns and changes nothing. |
| ObjTracker.Tracker.ScanBucket | kernel/catchup-resolutions/v6.1.180/lib/debugobjects.c:1032-1054 | Ends, and nothing of the range is left in the bucket; the rest is untouched. |
| ObjTracker.Tracker.DebugCheckNoObjFreed | kernel/catchup-resolutions/v6.1.180/lib/debugobjects.c:1015-1070 | With the tracker on, afterwards exactly the objects outside the freed memory are tracked, unchanged. |
| ObjTracker.Tracker.ReplaceStaticObjects | kernel/catchup-resolutions/v6.1.180/lib/debugobjects.c:1361-1413 | The same addresses are tracked in the same states and buckets as before, now by new objects only; on failure nothing changes. |
| ObjTracker.ChunksOf | kernel/catchup-resolutions/v6.1.180/lib/debugobjects.c:1023-1027 | The chunks counted cover the range from the first to the last byte, and none of them is beyond it. |
| ObjTracker.NextPage | kernel/catchup-resolutions/v6.1.180/lib/debugobjects.c:1029-1030 | Once the bucket of a page is clear, what is left of the range lies beyond the page. |

## Left out

Virtqueues:
- Nested scatter-gather lists: a request is their entries in order. Lengths and addresses are unbounded numbers (a table of 4 GB is not cut to 32 bits). Flags are booleans, not bits of a word.
- Memory barriers: stores take effect in program order.
- The NEXT links inside a split ring's indirect table: the order of the sequence stands for them. The NEXT, AVAIL and USED flags of the split records, which nothing reads there, are written but not promised.
- Packed runs that go on in the ring after a failed DMA mapping left two or more descriptors: the driver's books stay proved, the ring does not (`coherent` is false).
- Interrupt suppression: enabling and disabling callbacks, and the used event the driver writes.
- The split `detach_buf` recovers the last node of a chain by its flags; the `num` and `last` recorded per buffer there are for the proof only.
- Forced notification of the host when a split queue is full; freeing of queues, and resizing when it succeeds.

Reserve maps and subpools:
- Cgroup charging and uncharging; the charge data of a region is one number, and sharing it is equality.
- A list splice that reuses its source, in the allocation of spare descriptors, is a concatenation.
- Regions with f > t, and empty placeholder regions, which nothing creates any more.
- Faults, page tables, migration, and every caller but the error path; the fault mutex is the condition that others do not touch the page's own entry.
- Subpools.FreedClean: says nothing of outstanding pages without a maximum, because there can be some (Subpools.FreedInUse).

Multi-gen LRU and scan budget:
- mm_inline.h is not part of the repository: `lru_gen_from_seq`, `lru_gen_is_active` and `lru_gen_update_size` are modelled by their meaning.
- Adding and isolating folios, eviction, the reference tiers and their controllers, timestamps, and the vendor hooks.
- LruGen.PromotedSays: the walk notes the pages of a folio that is in another generation; what the notes come to is `LruWindow.NoteKeeps`.
- One walk at a time.
- LruGen.Lruvec.Promote: not for a walk whose `max_seq` is older than the generation that the folio has reached meanwhile.
- A memcg queue is that of one node; random bins are parameters.
- ScanBudget.ShrinkLruvec: what `shrink_list` reclaims is a parameter, and so is the choice of `proportional_reclaim`; the choice of the scan balance before the weights is not modelled.

Block cgroup groups:
- Policies, hints, reference counts of groups and of the css, and `blkcg_css_free`; a radix tree insertion that fails is one of the refusals.
- One I/O counter stands for all; statistics resets; groups that come or go while statistics are gathered.
- BlkgQueues.Blkcgs.BlkcgUnpinOnline: the pins of one call are put back without others in between; interleavings are those of `BlkgTree`.

Object tracker:
- Fixups other than that of freed memory; warnings' texts; statistics of chain lengths and levels; on-stack annotations.
- When the refill and free work is scheduled, and that refilling precedes an operation.
- Memory ranges that wrap around the end of the address space; a boot without memory for the tracker's cache.

Not modelled at all: the Python and shell that patch text files and send messages, `i2c-core-base.c` and `tp_meter.h`.
They hold nothing harder than the above.
