# Verified model of the TEE OS kernel

This project models the parts of the ChCore-based TEE OS kernel (and of its file server) whose
correctness is least obvious from the code, and proves what they promise. Mutable kernel structures
are Dafny classes whose methods follow the C functions branch by branch; protocols that run across
threads and CPUs are state machines whose steps are cut at the lock operations. Every main result
holds for all inputs, all reachable states or all runs.

`dafny verify dfyconfig.toml` checks the whole project (Dafny 4.11).

| files | subject |
|---|---|
| `RbShape`, `RbMoves`, `RbInsert`, `RbOrder`, `RbErase`, `RbUnlink`, `RbTree` | the in-place red-black tree with parent pointers; a tree is split into a subtree and its surroundings (a path), and memory into snapshots, so a rotation is reasoned about where it happens |
| `Vmspace` | the regions of an address space, in a list and in that tree |
| `BuddyBits`, `BuddyModel`, `BuddyTheorems`, `Buddy` | the buddy allocator; a ghost map gives each page its chunk head, so page metadata is trusted only at heads, as in the code |
| `Lists`, `KmallocModel`, `KmallocSteps`, `Kmalloc` | slabs and `kmalloc` on a buddy pool |
| `PageTableModel`, `PageTableSpec`, `PageTable` | four-level page tables as a flat map from page to frame and attributes |
| `FpuModel`, `FpuPlaces`, `FpuEager`, `Fpu` | lazy FPU ownership, where threads run, and the eager switching it must look like |
| `Bits`, `Wrappers`, `SlotTable` | bit operations and the two-level bitmap of capability slots |
| `CapsModel`, `CapsHistory`, `Caps` | capabilities, copies lists and reference counts over many groups, and the state read off a run's operations |
| `NotificModel`, `NotificProof`, `NotificEnds`, `NotificCount`, `NotificLive`, `Timer` | notifications against timeouts: safety, how waits end, lost signals, freedom from deadlock; the sleep list |
| `IpcModel`, `IpcProof` | migrating IPC calls and returns |
| `Pbrr` | the priority round-robin scheduler |
| `Ipi`, `IpiHistory` | inter-CPU transactions, and what was asked for read off a run's events |
| `PageCache`, `FsWrapper` | the file server's page cache and the read and write loops over it |

Some promises do not hold for every input. The code is modelled as it is, and the exact condition
under which it keeps the promise is proved:

- `unmap_range_in_pgtbl` counts the pages it may skip at a missing level-0 or level-1 descriptor
  without the lower index bits, so from some addresses it skips into the next descriptor's range and
  leaves pages there mapped. `UnmapCompleteIff` gives the exact ranges for which it unmaps everything
  whatever is mapped; the frame property and the accounting hold for all ranges.
- The read and write loops of the file server keep their position in a 32-bit `int` while the offset
  has 64 bits. `CompleteIff`: a non-empty range is served completely iff it ends within the first
  2 GiB of the file. Above, either nothing is served, the tail is missing (`TwoGiB`), or the loop
  starts at an earlier position than the offset, outside the buffer (`FourGiB`). Converting a position
  to `int` is taken to wrap around; where the step itself overflows is reported (`overflow`).
- `kmalloc` rounds large sizes up to whole pages in 64 bits: a caller gets what it asked for iff the
  size is at most 2^64 - 4096 (`Usable`, `SizeToPageOrder`), and one page above that.
- The count of pending signals has 32 bits and `signal_notific` does not look whether it is full. In
  every run no signal is lost iff fewer than 2^32 more were accepted than waits took (`BalanceIff`);
  the step that loses them is a signal that finds the count at 2^32 - 1 (`LosesIff`), and `LosingRun`
  is a run that does.
- `pbrr_sched` marks an exiting current thread exited even while it is in a ready queue, and
  `pbrr_sched_enqueue` looks only for the ready mark: enqueueing such a thread again links its node
  twice, and no other thread's (`Pbrr.Cpu.Enqueue`).

The notification protocol is free of deadlock because interrupts are off inside waits (`NotStuck`);
with interrupts on, a run reaches a state that is stuck (`EmbraceReached`, `EmbraceIsStuck`).

Outside influences are parameters: the clock in `Timer`, the outcome of copying to user memory in
`SendCaps`, the slot number in `CapAlloc` and `CapCopy` (proved to exist by `FreeSlot` and, on the
bitmaps, by `AllocSlotId`), the scheduler's decisions in the FPU model. Running out of memory, where
the kernel stops, is a failure result of `Alloc`.

## Model

| member | source | states |
|---|---|---|
| `RbTree.RbRoot.Erase` | kernel/lib/rbtree.c:608-615 | for every red-black tree and every node in it: parent pointers consistent, black root, no red-red edge, equal black heights afterwards, and the in-order sequence is the old one without exactly that node |
| `RbTree.RbRoot.EraseColor` | kernel/lib/rbtree.c:386-606 | the fix-up loop over all ten cases ends (a rank falls in every round, also in Case-4 where the place does not move up) and restores a valid tree with the same order |
| `RbTree.RbRoot.Unlink` | kernel/lib/rbtree.c:294-384 | taking the node out by splicing, by its right child or by a far successor leaves either a valid tree or one missing black node at the reported place, in the order without the node |
| `RbTree.RbRoot.EraseSwing` | kernel/lib/rbtree.c:499-530 | Case-4 and its mirror keep the shortage at the same subtree, keep the order and lower the termination rank |
| `RbTree.RbRoot.EraseLower` | kernel/lib/rbtree.c:464-497 | Case-3 ends the fix-up, Case-2 moves the shortage one level up; the order stays |
| `RbTree.RbRoot.Insert` | kernel/lib/rbtree.c:257-276 | for every strict weak order: all invariants are kept and the new node stands just after every node it is not less than; the sequence stays sorted |
| `RbTree.RbRoot.InsertColor` | kernel/lib/rbtree.c:95-255 | the double-red fix-up over all six cases ends in a valid tree with the order unchanged |
| `RbTree.RbRoot.InsertRedUncle` | kernel/lib/rbtree.c:183-206 | recolouring moves the double red to the grandparent, balance and order being kept |
| `RbTree.RbRoot.Rotate` | kernel/lib/rbtree.c:26-86 | the unified rotation turns linked surroundings into the new linked shape, whatever the four subtrees are |
| `RbTree.RbRoot.Search` | kernel/lib/rbtree.c:617-634 | with a comparison that falls along the order: a match is found iff there is one |
| `RbTree.RbRoot.SearchFirst` | kernel/lib/rbtree.c:636-657 | the first matching node of the order, or none |
| `RbTree.RbRoot.Next` | kernel/lib/rbtree.c:659-681 | the successor in the in-order sequence, or null at the end |
| `RbTree.RbRoot.Prev` | kernel/lib/rbtree.c:683-700 | the predecessor in the in-order sequence, or null at the start |
| `RbTree.RbRoot.ReplaceNodeInTree` | kernel/lib/rbtree.c:278-292 | the tree afterwards is the old one with the new node, in the old colour, in place of the old node: same shape, all other nodes and colours as before |
| `RbShape.PlugBalanced` | kernel/lib/rbtree.c:95-255 | a subtree of the right black height put back into its surroundings gives a red-black tree |
| `RbShape.UnplugBalanced` | kernel/lib/rbtree.c:294-384 | a red-black tree taken apart anywhere gives balanced surroundings and a balanced subtree of one height |
| `RbShape.PlugLinked` | kernel/lib/rbtree.c:17-86 | pointers are consistent in the whole tree iff they are in the subtree and in its surroundings |
| `RbShape.Connect34Links` | kernel/lib/rbtree.c:61-86 | after reconnecting three nodes and four subtrees every parent and child pointer of the new shape is right and no other node changed |
| `RbMoves.ChangeChildLinks` | kernel/lib/rbtree.c:26-42 | replacing a child keeps all pointers around it consistent, including the root pointer |
| `RbOrder.Place` | kernel/lib/rbtree.c:257-276 | the place the descent reaches has exactly the not-greater nodes before it and the greater ones after it |
| `Vmspace.VmSpace.CheckIntersect` | kernel/mm/vmspace.c:164-180 | the tree search reports an intersection iff a linear scan of the region list finds an overlap |
| `Vmspace.VmSpace.FindVmr` | kernel/mm/vmspace.c:411-423 | the unique region that contains the address, or none when no region does |
| `Vmspace.VmSpace.Add` | kernel/mm/vmspace.c:182-192 | fails iff the new region overlaps a listed one, changing nothing; otherwise list and tree both gain it and stay disjoint |
| `Vmspace.VmSpace.Remove` | kernel/mm/vmspace.c:195-202 | list and tree both lose exactly the region |
| `Vmspace.VmSpace.MapRange` | kernel/mm/vmspace.c:292-363 | the page-aligned region is added iff it overlaps none; an empty range is accepted and ignored |
| `Vmspace.VmSpace.UnmapRange` | kernel/mm/vmspace.c:369-408 | removes the region at the address iff start and size match exactly, otherwise reports why not and changes nothing |
| `Vmspace.BeforeIsStrict` | kernel/mm/vmspace.c:84-104 | the insertion comparator is a strict weak order on disjoint regions |
| `Vmspace.ListDisjoint` | kernel/mm/vmspace.c:164-192 | any two regions of the list are disjoint whenever list and tree agree |
| `Vmspace.InsertAscends` | kernel/mm/vmspace.c:182-192 | inserting where the comparator says keeps the regions ascending and disjoint |
| `Buddy.PhysMemPool.constructor` | kernel/mm/buddy.c:129-167 | for any page-aligned start and page count the pool satisfies the invariant with every page free |
| `Buddy.PhysMemPool.GetPages` | kernel/mm/buddy.c:169-210 | succeeds iff the order is supported and some naturally aligned in-pool block of that size is wholly free; the result is the head of the smallest list that serves, exactly its pages leave the free set, other allocations stay |
| `Buddy.PhysMemPool.FreePagesAt` | kernel/mm/buddy.c:212-232 | exactly the pages of the chunk become free, all other allocations stay, the invariant is restored, and the chunk they end up in is first of its list |
| `Buddy.PhysMemPool.GetThenFree` | kernel/mm/buddy.c:169-232 | an allocation and its release restore the free chunks, the free lists up to order, and the counters |
| `Buddy.PhysMemPool.GetBuddyChunk` | kernel/mm/buddy.c:17-41 | the buddy differs in one address bit and is reported iff it lies wholly in the pool |
| `Buddy.PhysMemPool.MergeChunk` | kernel/mm/buddy.c:83-120 | merging ends with a chunk that cannot be merged further; free pages and allocated chunks are unchanged |
| `Buddy.PhysMemPool.SplitChunk` | kernel/mm/buddy.c:45-79 | the lower part of exactly the wanted order stays allocated, the rest becomes free, the buddy is always found |
| `Buddy.PhysMemPool.FreeMemSize` | kernel/mm/buddy.c:270-290 | the sum over the counters is the number of free pages times the page size |
| `BuddyModel.BuddyIsHead` | kernel/mm/buddy.c:83-120 | an in-pool buddy of a chunk head is itself a chunk head of no larger order, so stale interior metadata is never consulted |
| `BuddyModel.MergeMid` | kernel/mm/buddy.c:83-120 | a merge step keeps the partition, the lists and the coalescing apart from the chunk in hand |
| `BuddyModel.SplitGood` | kernel/mm/buddy.c:45-79 | a split keeps the whole invariant and frees exactly the upper half |
| `BuddyModel.TakeGood` | kernel/mm/buddy.c:183-194 | taking the first chunk of a list keeps the invariant and removes exactly its pages from the free ones |
| `BuddyModel.PutGood` | kernel/mm/buddy.c:222-229 | listing a chunk that cannot be merged restores the whole invariant, in particular full coalescing |
| `BuddyTheorems.Completeness` | kernel/mm/buddy.c:169-210 | some list of at least order k is non-empty iff a naturally aligned block of 2^k pages is wholly free |
| `BuddyTheorems.Canonical` | kernel/mm/buddy.c:83-120 | the free chunks are exactly the maximal wholly free aligned blocks |
| `BuddyTheorems.SameFreeChunks` | kernel/mm/buddy.c:83-232 | two states with the same free pages have the same free chunks, lists up to order, and counters |
| `BuddyTheorems.FreeAccounting` | kernel/mm/buddy.c:270-290 | the counters weighted by chunk size add up to the number of free pages |
| `Buddy.PageFlip` | kernel/mm/buddy.c:28-32 | the XOR on byte addresses is the XOR on page numbers |
| `Kmalloc.Allocator.constructor` | kernel/mm/slab.c:231-242 | on a pool with nothing allocated the allocator starts valid, with no live block |
| `Kmalloc.Allocator.Alloc` | kernel/mm/kmalloc.c:92-112 | a fresh address recorded with the usable size, which is the requested one iff that is at most 2^64 - 4096; small sizes get a slot of the least order, large ones a block of the least order, and exactly its pages, or those of a new slab, or none leave the pool; it fails, changing neither heap nor pool, iff there is neither a current slab nor room for one, or no free aligned block large enough; zero size gives the special pointer |
| `Kmalloc.Allocator.Free` | kernel/mm/kmalloc.c:131-145 | exactly the block leaves the live set, whichever allocator produced it; exactly the chunk, or the slab if it is wholly free now, goes back to the pool |
| `Kmalloc.Allocator.AllocInSlab` | kernel/mm/slab.c:147-255 | succeeds iff the order has a current slab or the buddy system has room for one; the address is a slot of the least order that holds the size; the pool loses exactly the pages of a new slab, if one was needed |
| `Kmalloc.Allocator.FreeInSlab` | kernel/mm/slab.c:201-293 | the new heap is exactly `Freed` of the old one, whichever of full, partial, current or returned the slab becomes; the BUG checks hold |
| `Kmalloc.Allocator.ReturnSlabToBuddy` | kernel/mm/slab.c:213-227 | the new heap is exactly the old one without the slab, its page marks and its chunk, whose pages and no others become free in the pool |
| `Kmalloc.Allocator.InitSlab` | kernel/mm/slab.c:54-128 | the new slab holds every slot of its chunk after the header as free, once, is current and marked on exactly its pages; a failure changes neither heap nor pool |
| `Kmalloc.Allocator.TakeSlot` | kernel/mm/slab.c:162-180 | the address is the first free slot of the current slab and was not live; the new heap is exactly `Take` of the old one, where a slab that becomes full is replaced as current by the first partial one |
| `Kmalloc.Allocator.FreeSlotNumber` | kernel/mm/slab.c:297-335 | the slots counted along the free lists equal the recorded counts |
| `Kmalloc.SizeToOrder` | kernel/mm/slab.c:33-46 | the least order whose block holds the size |
| `Kmalloc.SizeToPageOrder` | kernel/mm/kmalloc.c:70-89 | the block holds the size iff the size is at most 2^64 - 4096, and is then the least such; above that the rounding wraps and the order is 0 |
| `KmallocModel.LiveDisjoint` | kernel/mm/kmalloc.c:92-145 | any two live blocks, at their requested sizes, are disjoint in every state satisfying the invariant |
| `KmallocModel.LiveOffHeaders` | kernel/mm/slab.c:96-128 | no live block overlaps a slab header |
| `KmallocModel.Dispatch` | kernel/mm/kmalloc.c:131-145 | the page mark tells slots from whole chunks for every live pointer, so freeing goes to the allocator that produced it |
| `KmallocSteps.TakeKeeps` | kernel/mm/slab.c:147-180 | taking a slot keeps the whole invariant: disjoint chunks, slab counts, exactly one rank per slab, exact live set |
| `KmallocSteps.PutBackKeeps` | kernel/mm/slab.c:201-288 | so does returning one |
| `KmallocSteps.FreedMeans` | kernel/mm/slab.c:201-293 | what a release does: the slot is first in the free list; a full slab joins the tail of the partial list; a slab wholly free now is gone with its chunk and exactly its page marks, and the first partial one takes its place if it was current |
| `KmallocSteps.TakeMeans` | kernel/mm/slab.c:147-180 | what handing out a slot does: the first free slot goes; a slab that becomes full is replaced as current by the first partial one, if any |
| `KmallocSteps.ReturnKeeps` | kernel/mm/slab.c:213-227 | so does giving a wholly free slab back |
| `KmallocSteps.AddSlabKeeps` | kernel/mm/slab.c:77-128 | so does adding a slab |
| `KmallocSteps.AddBigKeeps` | kernel/mm/kmalloc.c:25-50 | so does handing out a whole chunk |
| `KmallocSteps.DropBigKeeps` | kernel/mm/kmalloc.c:131-145 | so does freeing one |
| `PageTable.PageTable.Query` | kernel/arch/aarch64/mm/page_table.c:294-339 | on a block-free tree the walk agrees with the flat map: frame and offset and attributes, or no mapping |
| `PageTable.PageTable.MapRange` | kernel/arch/aarch64/mm/page_table.c:341-400 | every page of the range translates to its frame and no other translation changes, for any prior tree and length; the charge is the tables added plus the pages |
| `PageTable.PageTable.UnmapRange` | kernel/arch/aarch64/mm/page_table.c:456-531 | the resulting flat map is the one the skip counts of the code give, no empty table remains and the charge is exact |
| `PageTable.PageTable.MapThenUnmapRange` | kernel/arch/aarch64/mm/page_table.c:341-531 | mapping a fresh range and unmapping it restores the flat map and the set of tables and charges zero in total |
| `PageTable.PageTable.GetNextPtp` | kernel/arch/aarch64/mm/page_table.c:131-193 | without allocation: the next table iff it exists |
| `PageTable.PageTable.GetOrAddPtp` | kernel/arch/aarch64/mm/page_table.c:131-193 | with allocation: the table exists afterwards and nothing is mapped or unmapped |
| `PageTable.PageTable.MapTable` | kernel/arch/aarch64/mm/page_table.c:374-395 | one last-level table is filled from the first index to its end or the end of the range |
| `PageTable.PageTable.TryRelease` | kernel/arch/aarch64/mm/page_table.c:425-442 | a table is released iff all its entries are invalid; otherwise nothing changes and every table is needed again |
| `PageTable.PageTable.Recycle` | kernel/arch/aarch64/mm/page_table.c:444-454 | afterwards no table on the way is empty, and the charge counts what was released |
| `PageTable.PageTable.ClearTable` | kernel/arch/aarch64/mm/page_table.c:515-526 | one pass clears exactly its part of the range and charges the valid entries |
| `PageTableSpec.MappedPages` | kernel/arch/aarch64/mm/page_table.c:341-400 | the mapped range as a flat map: all pages in it, their frames, and the frame property |
| `PageTableSpec.UnmapFrame` | kernel/arch/aarch64/mm/page_table.c:456-531 | unmapping changes no translation outside the range, without any hypothesis |
| `PageTableSpec.UnmapComplete` | kernel/arch/aarch64/mm/page_table.c:456-531 | every page of the range is unmapped if it lies under one level-0 descriptor and is 2 MiB-aligned at its start or lies under one level-1 descriptor |
| `PageTableSpec.UnmapCompleteIff` | kernel/arch/aarch64/mm/page_table.c:479-512 | that condition is exact: for every other range there is a table from which the code leaves a page of the range mapped |
| `PageTableSpec.CrossUnaligned` | kernel/arch/aarch64/mm/page_table.c:479-487 | the level-0 skip from an unaligned address passes over the start of the next region |
| `PageTableSpec.CrossAligned` | kernel/arch/aarch64/mm/page_table.c:479-487 | so does the skip after the first table of an aligned range was recycled |
| `PageTableSpec.CrossL1` | kernel/arch/aarch64/mm/page_table.c:491-499 | the level-1 skip from an address that is not 2 MiB-aligned passes over the start of the next region |
| `PageTableModel.NoEmptyTable` | kernel/arch/aarch64/mm/page_table.c:425-454 | between operations every table but the root has a valid descriptor |
| `PageTableModel.TablesDetermined` | kernel/arch/aarch64/mm/page_table.c:131-193 | the tables in use are determined by the mapped pages alone |
| `PageTable.ApRoundTrip` | kernel/arch/aarch64/mm/page_table.c:36-110 | access permissions survive the descriptor, write implying read; nothing is executable at both levels |
| `PageTable.FlagsGrant` | kernel/arch/aarch64/mm/page_table.c:61-110 | the descriptor, read as the hardware does, grants exactly what was asked: user and kernel execution iff requested for that side, writing, memory type, shareability, non-secure, accessed, not global |
| `PageTable.PageTable.MapThenQuery` | kernel/arch/aarch64/mm/page_table.c:294-413 | after mapping, every address of the range is found at its place in the frames with exactly the requested rights and memory type |
| `PageTableModel.IndexesSpell` | kernel/include/arch/aarch64/arch/mm/page_table.h:58-61 | the four indexes spell the page number, the root first |
| `FpuModel.EveryRun` | kernel/arch/aarch64/sched/fpu.c:162-254 | in every run, for any number of CPUs and threads: ownership marks agree, an owner is only on its own CPU, and each use finds the registers that thread last left |
| `FpuModel.StepKeeps` | kernel/arch/aarch64/sched/fpu.c:162-254 | each step keeps the invariant and every thread keeps its register contents, except the one that just used them |
| `FpuModel.SeesOwn` | kernel/arch/aarch64/sched/fpu.c:162-200 | a thread that uses the FPU, after a trap if needed, finds its own registers |
| `FpuModel.TrapKeeps` | kernel/arch/aarch64/sched/fpu.c:162-200 | after the trap the running thread owns the enabled FPU; nobody loses contents |
| `FpuModel.ReleaseKeeps` | kernel/arch/aarch64/sched/fpu.c:233-254 | after a release the CPU has no owner; nobody loses contents |
| `FpuModel.BindKeeps` | kernel/sched/sched.c:78-111 | the CPU chosen for a thread is its own when it owns that FPU, and a local owner bound elsewhere gives the FPU up first |
| `FpuModel.ReschedKeeps` | kernel/sched/sched.c:38-224 | leaving a thread and switching to another keeps ownership and contents |
| `FpuPlaces.BindMeans` | kernel/sched/sched.c:78-111 | the CPU chosen for a thread: that of an FPU it owns elsewhere, else its affinity, else the local one; it gives up the local FPU iff its affinity is another CPU |
| `FpuPlaces.StepMeans` | kernel/sched/sched.c:38-224 | for every step, the exact places, owners, running threads and affinities afterwards, without the functions that compute them |
| `FpuPlaces.EveryRunPlaces` | kernel/sched/sched.c:38-224 | in every run a thread has the affinity it was last given and a CPU runs the thread it last switched to |
| `FpuEager.EveryEagerRun` | kernel/sched/sched.c:186-192 | saving and restoring at every switch gives each thread the registers it last left |
| `FpuEager.SameUsesSameRegisters` | kernel/arch/aarch64/sched/fpu.c:162-254 | any lazy and any eager run that make the same uses find the same registers, wherever the threads ran |
| `FpuEager.LazyRefinesEager` | kernel/sched/sched.c:186-197 | forward simulation: for every lazy run there is an eager run with the same threads on the same CPUs and the identical history of register values seen and left |
| `Fpu.Cpus.ChangeFpuOwner` | kernel/arch/aarch64/sched/fpu.c:162-200 | the trap handler on the mutable state; it keeps the invariant and all contents |
| `Fpu.Cpus.SaveAndReleaseFpu` | kernel/arch/aarch64/sched/fpu.c:209-231 | releases iff the thread owns the FPU of this CPU; it owns it no longer, and invariant and all contents are kept |
| `Fpu.Cpus.SaveAndReleaseFpuOwner` | kernel/arch/aarch64/sched/fpu.c:233-254 | the CPU has no owner afterwards; all contents are kept |
| `Fpu.Cpus.GetCpubind` | kernel/sched/sched.c:78-111 | the CPU is the one whose FPU the thread owns elsewhere, else its affinity, else left open; ownership is given up iff it is local and the affinity is another CPU; invariant and all contents are kept |
| `Fpu.Cpus.SchedEnqueue` | kernel/sched/policy_pbrr.c:129-171 | a woken thread is queued on the CPU whose FPU it owns elsewhere, else on that of its affinity, else here; nothing else moves |
| `Fpu.Cpus.Resched` | kernel/sched/policy_pbrr.c:272-298 | the new thread runs; the old one is queued at its home if it can still run and waits otherwise; every other thread stays; invariant and contents are kept |
| `Fpu.Cpus.Sched` | kernel/include/sched/sched.h:118-121 | the picked thread runs, the one left is queued at its home or waits, all others stay where they are, and invariant and contents are kept |
| `Fpu.Cpus.SchedToThread` | kernel/sched/sched.c:295-366 | switches directly iff the target owns no FPU elsewhere; otherwise queues it on the CPU whose FPU it owns and goes on with the thread `sched` picks; invariant and contents are kept |
| `Fpu.Cpus.UseFpu` | kernel/arch/aarch64/sched/fpu.c:162-200 | what is seen is the thread's own content |
| `CapsModel.EveryRun` | kernel/object/capability.c:91-357 | in every run over any number of groups: each count is its slots plus outstanding references, slots and copies lists agree, no slot refers to a freed object, so no operation follows one; nothing is freed twice |
| `CapsModel.ApplyKeeps` | kernel/object/capability.c:91-357 | each operation keeps that invariant |
| `CapsModel.FreedAtZero` | kernel/object/capability.c:159-232 | an object is freed, once, in the step after which no slot and no reference handed out is left, and only then |
| `CapsModel.RevokedKeeps` | kernel/object/capability.c:313-357 | after revocation no slot of any group refers to the object; it survives iff references are outstanding |
| `CapsModel.CopyThenFree` | kernel/object/capability.c:184-307 | freeing a copied capability restores the state exactly |
| `CapsModel.RefThenPut` | kernel/object/cap_group.c:186-258 | taking a reference and returning it restores the state, whatever slots there are |
| `CapsModel.InsertAfterPlace` | kernel/object/capability.c:239-307 | a copy is linked right after its source |
| `CapsHistory.History` | kernel/object/capability.c:91-357 | in every run the operations alone determine every slot, and for every object whether it is there (iff a slot or a reference handed out and not returned refers to it), its type as allocated, its count, and whether it was freed, once |
| `Capability.System.CapAlloc` | kernel/object/capability.c:91-131 | the new object has one slot and one reference |
| `Capability.System.CapFree` | kernel/object/capability.c:184-232 | fails iff the slot is empty; the object goes with its last reference, its copies list then being empty |
| `Capability.System.CapCopy` | kernel/object/capability.c:239-307 | fails iff the source slot is empty; otherwise the copy is linked and counted |
| `Capability.System.CapFreeAll` | kernel/object/capability.c:313-357 | the loop over the copies list removes every slot of the object in every group |
| `Capability.System.GetOpaque` | kernel/object/cap_group.c:186-216 | found iff the slot is used and the type fits; exactly then a reference is taken |
| `Capability.System.ObjRef` | kernel/object/cap_group.c:252-258 | one more reference |
| `Capability.System.ObjPut` | kernel/object/cap_group.c:232-243 | one reference less; the object is freed iff it was the last |
| `Capability.System.SendCaps` | kernel/ipc/connection.c:579-647 | all capabilities are copied in order, or the state is exactly as before; succeeds when all are present, few enough and delivered |
| `Capability.System.RollBack` | kernel/ipc/connection.c:641-643 | undoing the copies last first restores the state exactly |
| `SlotTable.Table.AllocSlotId` | kernel/object/cap_group.c:147-184 | returns the least unused id, grows by one word only when every slot is used, keeps all slots; at most one expansion per call |
| `SlotTable.Table.Expand` | kernel/object/cap_group.c:115-144 | one word of unused slots is appended and every existing slot stays |
| `SlotTable.Table.FreeSlotId` | kernel/include/object/cap_group.h:97-103 | exactly the id becomes unused; the full-word marks stay exact |
| `SlotTable.Table.GetSlot` | kernel/include/object/cap_group.h:105-111 | the slot of a used id, nothing for any other |
| `SlotTable.Table.InstallSlot` | kernel/include/object/cap_group.h:113-118 | exactly that slot changes |
| `SlotTable.Table.FindEmpty` | kernel/object/cap_group.c:147-184 | the two-level search finds the least unused id |
| `SlotTable.Table.constructor` | kernel/object/cap_group.c:40-78 | no id is used |
| `SlotTable.FindNextBit` | kernel/include/common/bitops.h:73-98 | the first bit from the start on with the wanted value, across words, or the size |
| `SlotTable.SetMarked` | kernel/object/cap_group.c:175-179 | after allocation a full-word bit is set iff its word is all ones |
| `SlotTable.ClearMarked` | kernel/include/object/cap_group.h:97-103 | after freeing as well |
| `Bits.SetBitAt` | kernel/include/common/bitops.h:30-35 | setting a bit changes exactly that bit |
| `Bits.ClearBitAt` | kernel/include/common/bitops.h:46-51 | clearing a bit changes exactly that bit |
| `Bits.FullIff` | kernel/object/cap_group.c:177-179 | a word equals the all-ones constant iff every bit is set |
| `Bits.BsrHighest` | kernel/include/common/bitops.h:60-71 | no bit above the reported one is set |
| `NotificProof.EveryRun` | kernel/ipc/notification.c:66-340 | in every interleaving of lock steps: pending signals and waiters never both, accepted signals equal successful waits plus pending ones iff fewer than 2^32 more were accepted than waits took (always modulo 2^32), each blocked wait ends once, the callback finds its thread blocked |
| `NotificProof.StepKeeps` | kernel/ipc/notification.c:66-340 | each lock step of a waiter, a signaller or a timer keeps the invariant on locks, lists and counters |
| `NotificProof.CallbackFindsWaiting` | kernel/ipc/notification.c:66-96 | when the timer callback runs, its thread is blocked on that notification and no signaller works on it |
| `NotificProof.TargetBlocked` | kernel/ipc/notification.c:277-340 | the waiter a signaller works on is blocked and no timer can end the same wait |
| `NotificEnds.WaitDecides` | kernel/ipc/notification.c:99-165 | a wait with a pending signal returns having taken it; without one it joins the end of the waiting list, or returns at once if it is not to block |
| `NotificEnds.WaitBlocks` | kernel/ipc/notification.c:118-157 | a wait with a timeout joins the sleep list of its CPU, one without does not; then it blocks |
| `NotificEnds.SignalDecides` | kernel/ipc/notification.c:289-315 | a signal is kept while others are pending or nobody waits; otherwise it goes on to the first waiter, or gives up, changing nothing, iff that thread is locked |
| `NotificEnds.SignalDisarms` | kernel/ipc/notification.c:317-324 | it takes the timeout of the waiter away first, or gives up, changing nothing, iff the sleep list is locked |
| `NotificEnds.SignalWakes` | kernel/ipc/notification.c:326-333 | it ends exactly the wait of the first waiter, with one more success |
| `NotificEnds.TimerFires` | kernel/irq/timer.c:93-121 | a timer takes the first sleeper off its list, and forgets its timeout after the callback |
| `NotificEnds.TimeoutEnds` | kernel/ipc/notification.c:66-96 | the callback ends exactly the wait of its thread: it is off the waiting list and ready |
| `NotificEnds.TimeoutKept` | kernel/ipc/notification.c:99-340 | in every run a thread blocked in a wait begun with a timeout is on the sleep list of its CPU, in the hands of a timer about to end the wait, or of a signaller about to; one without a timeout is in neither list nor timer |
| `NotificLive.NotStuck` | kernel/ipc/notification.c:303-310 | no deadlock: with interrupts off inside waits, while anything is under way some wait, signal or timer can take its next step |
| `NotificLive.Progress` | kernel/ipc/notification.c:66-340 | and every such step brings what is under way nearer to its end |
| `NotificLive.EveryMaskedRun` | kernel/ipc/notification.c:66-340 | the safety invariant and the mask hold after every run in which no timer interrupts its own CPU inside a wait, so the two results above apply to every such state |
| `NotificLive.EmbraceIsStuck` | kernel/ipc/notification.c:66-165 | interrupts must be off: a timer on the CPU of a waiter that holds the notification lock leaves both without a step |
| `NotificLive.EmbraceReached` | kernel/ipc/notification.c:66-165 | a run without the mask reaches that state: two timed waits on one CPU, the timer coming inside the second |
| `NotificCount.BalanceIff` | kernel/ipc/notification.c:277-340 | in every run no signal of a notification is lost iff fewer than 2^32 more were accepted than waits took |
| `NotificCount.LosesIff` | kernel/ipc/notification.c:289-291 | a step loses signals iff it is a signal that finds the 32-bit count full, and no later step makes up for it |
| `NotificCount.LosingRun` | kernel/ipc/notification.c:289-291 | a run of 2^32 signals that nobody waits for: all are accepted, none is pending and none was taken |
| `Timer.TimeState.EnqueueSleeper` | kernel/irq/timer.c:181-226 | the sleeper joins behind all sleepers due no later; the next interrupt is no later than the first sleeper |
| `Timer.TimeState.Dequeue` | kernel/irq/timer.c:229-254 | the first sleeper of that thread leaves, every other one keeps its place in the order; a thread that does not sleep changes nothing; the list stays sorted |
| `Timer.TimeState.NextTickDelta` | kernel/irq/timer.c:56-79 | the longest delay within one tick that does not pass the first sleeper |
| `Timer.TimeState.HandleTimerIrq` | kernel/irq/timer.c:82-124 | exactly the sleepers that are due are woken, in order, and the next interrupt passes no sleeper |
| `IpcProof.EveryRun` | kernel/ipc/connection.c:338-447 | the invariant on handlers, connections, locks, scheduling contexts and call depths holds in every run of calls and returns |
| `IpcProof.StepKeeps` | kernel/ipc/connection.c:338-897 | each cut of a call or return keeps it |
| `IpcProof.NoCycle` | kernel/ipc/connection.c:650-756 | chains of waiting clients never close |
| `IpcProof.OneHolder` | kernel/ipc/connection.c:383-434 | each scheduling context has at most one non-waiting holder |
| `IpcProof.OneClient` | kernel/ipc/connection.c:338-447 | two threads waiting for the same handler to return are one thread, and so are two waiting to enter it |
| `IpcProof.MoveToken` | kernel/ipc/connection.c:383-434 | a switch exchanges the scheduling contexts of its two threads and every other move leaves all of them in place |
| `IpcProof.CallTarget` | kernel/sched/sched.c:295-304 | the target of a call is another thread and waits, so the checks before the direct switch hold |
| `IpcProof.ReturnTarget` | kernel/sched/sched.c:295-304 | so is the target of a return |
| `IpcProof.FailedTryChangesNothing` | kernel/ipc/connection.c:650-756 | a call that meets a taken lock, or is given up after both locks, leaves everything as it was |
| `IpcProof.ReturnResumesCaller` | kernel/ipc/connection.c:758-897 | whatever else happens, a call stays in service until its own handler returns |
| `IpcProof.BackReachesCaller` | kernel/ipc/connection.c:436-447 | and that return resumes exactly the caller |
| `IpcProof.CallBegins` | kernel/ipc/connection.c:650-756 | a call takes the connection, then the handler, or gives back exactly what it has |
| `IpcProof.CallReachesHandler` | kernel/ipc/connection.c:383-434 | with both locks the handler is bound to the caller on its scheduling context; when its stack is free the handler runs and the caller is in service |
| `IpcProof.ReturnFrees` | kernel/ipc/connection.c:758-897 | a return frees connection and handler and turns back to the client in service |
| `IpcProof.EveryCall` | kernel/ipc/connection.c:338-897 | in every run a thread in a call is in the one it last began, and a running handler serves a client that last called one of its connections |
| `Pbrr.PrioBitmap.Set` | kernel/sched/policy_pbrr.c:76-86 | exactly that priority is marked; the summary word stays exact |
| `Pbrr.PrioBitmap.Clear` | kernel/sched/policy_pbrr.c:88-100 | exactly that priority is unmarked; the summary word stays exact |
| `Pbrr.PrioBitmap.IsEmpty` | kernel/sched/policy_pbrr.c:102-105 | true iff no priority is marked |
| `Pbrr.PrioBitmap.Highest` | kernel/sched/policy_pbrr.c:107-116 | the highest marked priority |
| `Pbrr.Cpu.Enqueue` | kernel/sched/policy_pbrr.c:129-171 | fails iff the thread is ready already; otherwise it joins the tail of its queue and the bitmap stays exact, unless it was marked exited while still in a queue: exactly then its node is linked a second time |
| `Pbrr.Cpu.Dequeue` | kernel/sched/policy_pbrr.c:173-189 | exactly that thread leaves its queue; the bitmap stays exact |
| `Pbrr.Cpu.FindRunnable` | kernel/sched/sched.c:119-130 | the first thread of the list whose stack is free or that is current, every one before it being neither, or none when no thread is |
| `Pbrr.FirstFreeIs` | kernel/sched/sched.c:119-130 | every thread of the list before the chosen one has its stack in use and is not current; if there is none, all of them |
| `Pbrr.Cpu.Choose` | kernel/sched/policy_pbrr.c:196-265 | the retry loop ends; the choice is the runnable current thread or the first stack-free thread of the highest non-empty queue, else idle; only exiting threads were dropped on the way |
| `Pbrr.Cpu.Decide` | kernel/sched/policy_pbrr.c:196-265 | one round of that choice; the BUG checks cannot fire |
| `Pbrr.Cpu.Sched` | kernel/sched/policy_pbrr.c:272-298 | the chosen thread runs with budget left; a thread that was exiting is marked exited and does not run; the old one is last in its queue iff it can still run here; nobody of higher priority is passed over |
| `Pbrr.Cpu.Tick` | kernel/irq/timer.c:126-138 | one unit of budget is spent and the scheduler decides; in a group of always-ready top-priority threads the CPU passes on to the next |
| `Pbrr.Cpu.Round` | kernel/sched/policy_pbrr.c:272-298 | n always-ready top-priority threads each run once in n ticks, in queue order |
| `Pbrr.Cpu.constructor` | kernel/sched/policy_pbrr.c:300-319 | the idle thread is queued and the invariant holds |
| `Pbrr.EmptyMeansIdle` | kernel/sched/policy_pbrr.c:196-265 | all queues are empty only while the idle thread runs |
| `Pbrr.SwitchKeeps` | kernel/sched/policy_pbrr.c:272-298 | the switch keeps queues and idle thread consistent and funds the running thread |
| `Pbrr.PickedBest` | kernel/sched/policy_pbrr.c:196-265 | no thread of higher priority is passed over unless all stacks of the highest priority are in use; the current thread goes on iff every queued thread is lower, or equal while budget is left |
| `Pbrr.SwitchMeans` | kernel/sched/policy_pbrr.c:272-298 | what a scheduler call does to the old, the new and every other thread: state, budget, kernel stack |
| `Ipi.EveryRun` | kernel/irq/ipi.c:49-164 | the protocol invariant holds for any number of CPUs and any interleaving |
| `Ipi.StepKeeps` | kernel/irq/ipi.c:49-164 | each step keeps it |
| `Ipi.HandlesWhatWasSent` | kernel/irq/ipi.c:152-164 | the target handles the vector and arguments of the sender whose transaction is open, not handled before |
| `Ipi.HandledBeforeRelease` | kernel/irq/ipi.c:110-131 | when the sender releases the lock, its transaction has been handled exactly once |
| `Ipi.HandledOnce` | kernel/irq/ipi.c:89-164 | and stays so for ever after |
| `Ipi.NotStuck` | kernel/irq/ipi.c:49-131 | while anything is unfinished, some step other than a new transaction is possible, since waiting CPUs serve their own buffer |
| `Ipi.Progress` | kernel/irq/ipi.c:49-164 | every such step brings the open transactions nearer to their end |
| `IpiHistory.HandledAsAsked` | kernel/irq/ipi.c:49-164 | in every run, read off its events alone: a transaction is handled once, after its start, on the CPU its sender last prepared, with the vector given at the start, the arguments set since the lock and otherwise what the buffer held |
| `IpiHistory.AskedIsHandled` | kernel/irq/ipi.c:89-131 | and every started transaction is still waited for or was handled exactly once |
| `PageCache.Cache.FlushBlock` | user/system-services/system-servers/fs_base/fs_page_cache.c:154-181 | the block in the file is the cached one afterwards; nothing else in the file changes |
| `PageCache.Cache.FlushPage` | user/system-services/system-servers/fs_base/fs_page_cache.c:183-197 | the page is clean and equals the file |
| `PageCache.Cache.FlushAndFree` | user/system-services/system-servers/fs_base/fs_page_cache.c:237-252 | the page leaves the cache and its list; the logical file is unchanged |
| `PageCache.Cache.FindOrNew` | user/system-services/system-servers/fs_base/fs_page_cache.c:382-446 | a hit changes nothing; a miss joins the tail of the inactive list, evicting its head when full, and holds the file's contents |
| `PageCache.Cache.Boost` | user/system-services/system-servers/fs_base/fs_page_cache.c:310-372 | the new order of the two lists; the inactive list cannot overflow here |
| `PageCache.Cache.Get` | user/system-services/system-servers/fs_base/fs_page_cache.c:663-701 | what is returned is the logical page |
| `PageCache.Cache.PutWrite` | user/system-services/system-servers/fs_base/fs_page_cache.c:585-660 | in each strategy: coherent, nothing dirty outside WRITE_BACK, where exactly the written block is marked and the file on disk stays; the logical file keeps what was written; DIRECT drops the page |
| `PageCache.Cache.WriteBlock` | user/system-services/system-servers/fs_base/fs_page_cache.c:585-701 | get, modify and put change exactly the written bytes of the logical file |
| `PageCache.Cache.ReadPage` | user/system-services/system-servers/fs_base/fs_page_cache.c:585-701 | get and put for reading return the logical page and change nothing logical |
| `PageCache.Cache.Pin` | user/system-services/system-servers/fs_base/fs_page_cache.c:780-825 | fails iff the limit is reached; otherwise the page is pinned and in no other list |
| `PageCache.Cache.Unpin` | user/system-services/system-servers/fs_base/fs_page_cache.c:827-859 | fails iff not pinned; otherwise the page is written back and dropped |
| `PageCache.Cache.Evict` | user/system-services/system-servers/fs_base/fs_page_cache.c:885-911 | fails iff not cached; the page is written back and dropped |
| `PageCache.Cache.FlushOne` | user/system-services/system-servers/fs_base/fs_page_cache.c:703-731 | the block, or every block of the page, becomes clean and equals the file, nothing else changing; fails iff not cached |
| `PageCache.Cache.WriteBackAll` | user/system-services/system-servers/fs_base/fs_page_cache.c:449-476 | everything is clean and the file on disk is the logical file |
| `PageCache.Cache.SwitchStrategy` | user/system-services/system-servers/fs_base/fs_page_cache.c:543-564 | the logical file is unchanged and nothing is dirty after a change |
| `FsWrapper.Read` | user/system-services/system-servers/fs_base/fs_wrapper_ops.c:349-362 | for every offset: exactly the first `Served` bytes from the offset on arrive, in order, the rest of the buffer and the logical file staying; copying leaves the buffer iff the 32-bit position starts below the offset, and the position overflows iff the bytes served end in the last page below 2 GiB |
| `FsWrapper.Write` | user/system-services/system-servers/fs_base/fs_wrapper_ops.c:438-455 | for every offset: exactly the first `Served` bytes of the data go to the logical file at the offset, nothing else changing; the same exact condition for leaving the buffer, and for overflow with the last block |
| `FsWrapper.CompleteIff` | user/system-services/system-servers/fs_base/fs_wrapper_ops.c:349-362 | a non-empty range is served completely iff it ends within the first 2 GiB of the file; an empty one iff the offset is below 2 GiB or its low 32 bits are not |
| `FsWrapper.TwoGiB` | user/system-services/system-servers/fs_base/fs_wrapper_ops.c:438-455 | from 2 GiB to 4 GiB nothing is served; a range across 2 GiB loses its tail |
| `FsWrapper.FourGiB` | user/system-services/system-servers/fs_base/fs_wrapper_ops.c:438-455 | one byte at 4 GiB: the position is 0, below the offset, so the copy starts outside the buffer |
| `FsWrapper.ReadUnit` | user/system-services/system-servers/fs_base/fs_wrapper_ops.c:351-360 | one round of the loop copies its part of one page and changes nothing logical |
| `FsWrapper.CopyOut` | user/system-services/system-servers/fs_base/fs_wrapper_ops.c:358-358 | the copy touches only its part of the buffer |

## Left out

- Packing of colour and parent pointer into one word, `rb_first`, `rb_last` and `rb_next_match` (kernel/lib/rbtree.c): easy members.
- Several physical memory pools and `virt_to_page` across them: the models work on one pool, with page numbers for page-aligned addresses; addresses do not wrap around.
- Kmalloc.SizeToPageOrder: the comparison with `1 << order` is made on unbounded integers; the C shift is undefined from order 31 on, where `get_pages` fails anyhow.
- The free list of a slab is a sequence of slot addresses, not links threaded through the slots themselves.
- Block descriptors, TLB and cache maintenance, `mprotect_in_pgtbl` and `free_page_table` (kernel/arch/aarch64/mm/page_table.c); addresses are 48 bits wide and a range does not leave the address space.
- `set_pte_flags`: of the descriptor fields that do not depend on flags and kind, only the access flag and the not-global bit are modelled.
- Vmspace.VmSpace.MapRange: does not fill the page table; the frames come from the physical memory object, whose types are not modelled, and filling a range is `PageTable.MapRange`.
- Vmspace.VmSpace.UnmapRange: does not clear the page table; clearing a range is `PageTable.UnmapRange`.
- Types of physical memory objects, rss, history CPUs and heap adjustment in kernel/mm/vmspace.c; region arithmetic does not wrap around.
- Thread exit, process recycling and the invalid states it sets (`kernel/object/recycle.c`, the exiting branches of IPC, `stop_notification`), `clear_fpu_owner`.
- `kernel/ipc/channel.c`, connection registration, and message checks in `sys_ipc_call`; a handler is fixed per connection.
- Locks outside the notification and inter-CPU protocols: a locked region is one atomic step.
- SendCaps: reading the capability list from user memory can fail before anything is copied; that failure is not told apart from the length check.
- Pbrr.Cpu.Enqueue: the queues after a node was linked twice are not modelled, since a queue is a sequence there.
- Pbrr: one CPU's queues; a thread bound to another CPU is only marked as not here. The one-level variant of the bitmap for few priorities is not modelled.
- NotificProof.StepKeeps: the place in the sleep list is arbitrary there, since the order plays no part in the protocol; the sorted order is proved in `Timer`.
- Timer.TimeState.HandleTimerIrq: wakes the sleepers that are due without running their callbacks or taking queue locks; callbacks and locks are steps of the notification model.
- Timer.TimeState.EnqueueSleeper: converts no `timespec`; the wake-up tick is given, and ticks do not overflow.
- `kernel/sched/policy_rr.c`, radix tree, ring buffer, locks and other synchronisation primitives: easier members.
- PageCache: deleting pages without writing them back, `get` on a pinned page (a BUG in the code), per-inode flush and eviction, the write-back thread, page locks, and a failing `file_write` (a BUG in the code).
- FsWrapper.Write: the file is long enough already; growing it first and updating offsets and sizes are not modelled.
- FsWrapper.Read: the clamping of the size to the end of the file happens before the loop and is not modelled.
