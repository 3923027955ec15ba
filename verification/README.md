# A verified model of libdbos

libdbos gives a process an instant copy-on-write snapshot of its memory inside a guest. This
project models the parts that make the snapshot work and proves what they promise. Concurrent code is
modelled as state machines whose steps are single loads, stores and atomic operations of the source,
interleaved freely over runs of any length. Sequential code is modelled as methods with the
source's loops, proved against specification functions.

`dafny verify dfyconfig.toml` checks everything. Nothing here is compiled or executed.

## The parts

- **Page-table entries** (`PageEntry.dfy`): the 64-bit words of the source and the records that all other
  modules use, with every masked expression of the source carried over from words to records.
- **The copy-on-write protocol** (`CowProtocol`, `CowInvariant`, `CowSafety`, `CowRuns`, `CowDrive`, `CowExact`,
  `CowLate`, `CowLostWrite`, `CowDoubleLock`, `CowReach`, `CowParts`, `CowShootdown`, `CowStart`, `CowSwitch`): the fault
  handler of `libdune/fast_spawn.c` on any number of main cores and on the snapshot core, with the hardware's page walks,
  TLBs and accessed bits, page contents byte by byte, and both sides' writes. `ForkSemantics` says that the snapshot thread
  reads exactly what it would read if the two sides had separate memories; `CurrentReads` says so of the main side;
  `JointForkSemantics` says so of the protocol and the shootdown as one machine. This is false of the code in five
  situations, and for each the exact condition is proved. Two of them are in place at branch-off:
  - a shadow entry is writable, because a fault opened the live entry while it was copied (`StartExact`, `PairExact`);
  - a main core holds a writable translation from before it switched to its new table (`StartExact`, `SwitchExact`).

  The other three arise later; every case of them can lead to a wrong read, and each occurs from every branch-off with a
  page under copy-on-write:
  - the thread state is set while a main fault holds an earlier sample of it, or after such a fault has left the snapshot
    core with an outdated translation (`IsolationExact`);
  - a shootdown returns although an outdated translation is still in use (`LateReturnExact`; `LateOnlyThen` says after
    which returns of `dbos_tlb_shootdown` this can be);
  - line 993 locks an entry that the snapshot core has already locked, which its comment says it does not
    (`DoubleLockExact`, `DoubleLockLosesWrite`).
- **Shootdown, flag word and table switch** (`PvFlag`, `Shootdown`, `ShootdownExact`, `BranchOff`): the flag word that
  requesters and the entry path of `vmx_launch` share, all return paths of `dbos_tlb_shootdown`, and the loops that make
  every main core load the new root. `ShootdownReturn` fails on two paths: the re-read loop of lines 181-184, and an
  acknowledgement with a batch for which line 730 did not read the page. `LoopExact` and `AckExact` say exactly when.
- **Messages and interrupts** (`IpiRing`, `IpiHandler`, `PostedInterrupts`, `Drain`): the message rings word by word, the
  handler with its buffers, the posted-interrupt protocol with several senders, and the host's drain.
- **Page tables** (`PageTable`, `PageTableView`, `PageTableVisits`, `PageTableInsert`, `PageTableClone`, `PageTableFree`,
  `CowClone`, `PreCopy`): the recursive walk with an arbitrary callback, refined to a flat map
  from pages to entries; mapping, protection, clone and free with reference counts; the copy-on-write clone, alone and while faults go on.
- **Page allocator and addresses** (`PageAllocator`, `AddressLayout`).

In the machines, a state's fields marked as history record owners, roles or past values; no step of the
source's own code reads them.

## Model

| member | source | states |
|---|---|---|
| `PageEntry.DecodeInjective` | libdune/fast_spawn.c:123-125 | equal records come from equal words, so a full-word compare-and-swap is one on records |
| `PageEntry.LockWord` | libdune/fast_spawn.c:936-937 | the locked word is the locked record |
| `PageEntry.OpenWord` | libdune/fast_spawn.c:942-955 | the word stored to open an entry: same frame, writable, unlocked, COW cleared |
| `PageEntry.RestoreWord` | libdune/fast_spawn.c:994-997 | the word stored before a retry: write-protected, COW set, unlocked |
| `PageEntry.ReleaseWord` | libdune/fast_spawn.c:1001-1008 | the word that releases a diverged snapshot entry keeps its frame and permissions |
| `PageEntry.RedirectWord` | libdune/fast_spawn.c:1011-1050 | the published snapshot word names the copy and is writable and unlocked |
| `PageEntry.ShadowWords` | libdune/fast_spawn.c:314-320 | both shadow words, in both branches of the copy's test |
| `PageEntry.IntFlagsWord` | libdune/vm.c:383-391 | flags passed through an int keep the address and the low flag bits only |
| `CowInvariant.InitInv` | libdune/fast_spawn.c:777-836 | the state just after branch-off satisfies both forms of the protocol's invariant |
| `CowStart.CloneStarts` | libdune/fast_spawn.c:230-328 | what `dune_vm_my_clone` leaves of a page under copy-on-write, with its two references, is what that state asks of the page, whether its frame belongs to the pool or is ordinary process memory |
| `CowSwitch.StartExact` | libdune/fast_spawn.c:777-836 | from branch-off on, however the copying and the switch went, both sides read only their own view in all runs without the three hazards if and only if no shadow is writable and no main core holds a writable translation |
| `CowSwitch.SwitchExact` | libdune/fast_spawn.c:781-857 | after every run of the switch, with write-protected shadows, this is so if and only if no core that kept its translations holds a writable one, and it is if every main core acknowledged the message or is the one that branches off |
| `CowSafety.StepKeeps` | libdune/fast_spawn.c:884-1112 | every action of the handler and every hardware or program step but a double lock keeps the loose invariant, and the tight one unless it is one of the other hazards |
| `CowSafety.ForkSemantics` | libdune/fast_spawn.c:884-1112 | over every run from branch-off that meets no hazard, the running snapshot thread reads the branch-off contents changed by its own writes alone |
| `CowSafety.CurrentReads` | libdune/fast_spawn.c:884-1112 | over every run without a double lock, so does the main side, and the snapshot core through any translation that is not outdated |
| `CowSafety.LockOwnership` | libdune/fast_spawn.c:934-1008 | after every run without a double lock, each lock bit is held by exactly one fault in progress, and by none that has left or retries |
| `CowSafety.WritableOnlyAfterSplit` | libdune/fast_spawn.c:1036-1095 | after every run without a double lock, a main entry is writable only if the snapshot's entry names another frame, which holds the branch-off contents as the snapshot changed them |
| `CowSafety.SkippedShootdownIsSafe` | libdune/fast_spawn.c:1003-1073 | after every such run, a publish that skips the shootdown finds no translation of the page in the snapshot TLB nor in a walk in flight |
| `CowRuns.CopyAll` | libdune/fast_spawn.c:1047-1047 | the byte-wise copy can always run to its end and leaves the whole page |
| `CowDrive.DriveHome` | libdune/fast_spawn.c:934-1100 | on a parted page of which the snapshot core holds an outdated translation and that neither side has written, a main fault that stands anywhere can be run to its end, without a hazard, and leaves the entry writable |
| `CowDrive.ExposedBreaks` | libdune/fast_spawn.c:1050-1100 | if the snapshot core holds an outdated translation of such a page, the main side can write the page and the snapshot thread reads the write |
| `CowExact.IsolationExact` | libdune/fast_spawn.c:587-592 | in every state reached without a double lock in which the thread state is set, all continuations read only the snapshot's own view if and only if no fault holds an early sample and no translation is outdated |
| `CowLate.LateReturnExact` | libdune/fast_spawn.c:1061-1073 | at every return of a shootdown, all continuations are isolated if and only if the return is not late |
| `CowParts.StepNoneWorse` | libdune/fast_spawn.c:934-1100 | a page parts at most once, and no step but a page walk gives the snapshot core a translation of another page or an outdated one of a parted page |
| `CowShootdown.EventKeeps` | libdune/fast_spawn.c:1061-1073 | every step of the protocol and the shootdown as one machine, but a double lock, keeps them in agreement: outdated translations are old ones for the call, each waiting core has its call, and each promised invalidation is under way |
| `CowShootdown.NeverBlocked` | libdune/fast_spawn.c:128-222 | in every reached state the pending invalidations hold up no step of a call or of its target, a waiting core has a call for its page, and a core that must announce an update has no call under way |
| `CowShootdown.LateOnlyThen` | libdune/fast_spawn.c:128-222 | in every run of both machines without a double lock, a return is late only after an accepted re-read without the host bit, or after an acknowledgement with a batch in which the call is not first and for which its page has not been read |
| `CowShootdown.JointForkSemantics` | libdune/fast_spawn.c:884-1112 | over every run of both machines in which the snapshot starts clean, no entry is locked twice and no such call returns, the snapshot thread reads the branch-off contents changed by its own writes alone |
| `CowLostWrite.HeldBySnapshot` | libdune/fast_spawn.c:991-999 | in every run, the first lock of a locked entry at line 993 happens while the snapshot core's own handler holds it |
| `CowLostWrite.ReadOnlyIsGuarded` | libdune/fast_spawn.c:991-999 | no second lock in any run in which the snapshot thread takes no copy-on-write fault, whatever other hazards it meets |
| `CowLostWrite.DoubleLockLosesWrite` | libdune/fast_spawn.c:991-1059 | from every state about to lock twice, a run exists after which the snapshot thread does not read its own last write |
| `CowDoubleLock.DoubleLockExact` | libdune/fast_spawn.c:991-1059 | while the snapshot runs, all continuations, double locks included, are isolated if and only if no page is left that both sides share under copy-on-write with the snapshot's entry unlocked |
| `CowReach.EarlySampleHappens` | libdune/fast_spawn.c:960-960 | from every branch-off with a page under copy-on-write and a main core, a run leads to an early sample |
| `CowReach.LateReturnHappens` | libdune/fast_spawn.c:1050-1073 | and with a free page to a shootdown whose return would be late |
| `CowReach.DoubleLockHappens` | libdune/fast_spawn.c:991-993 | and to a second lock about to happen |
| `PvFlag.DecodeInjective` | kern/dune.h:101-114 | the flag word's record determines the word |
| `PvFlag.FlushWord` | libdune/fast_spawn.c:139-140 | the flush request on words and on records |
| `PvFlag.PostWord` | libdune/fast_spawn.c:796-797 | the CR3 request on words and on records, for a root with its three low bits clear |
| `PvFlag.HostWord` | kern/vmx.c:2134-2135 | setting the host bit keeps the requests |
| `PvFlag.MoveKeeps` | kern/vmx.c:2097-2136 | every step of entry, exit and requesters keeps the flag-word invariant |
| `PvFlag.FlagWord` | kern/vmx.c:2097-2136 | over every run: neither BUG_ON fires, the host bit tells where the vCPU is, and the guest runs on the root asked for last with every flush accepted before its entry done |
| `PvFlag.RequestsKeepHost` | libdune/fast_spawn.c:796-797 | requests never change the host bit, nor withdraw a flush |
| `PvFlag.EntryConsumes` | kern/vmx.c:2097-2121 | in every interleaving of requests with one entry, it flushes if and only if a flush was asked for before its exchange, loads the root posted last before it, and leaves later flush requests in the word |
| `PvFlag.SurviveExact` | kern/vmx.c:2107-2121 | translations from before the entry survive it if and only if no flush was asked for before its exchange |
| `Shootdown.StepKeeps` | libdune/fast_spawn.c:128-222 | every step of callers, target, handler and TLB keeps the shootdown invariant, whatever line 730 reads for messages after the first |
| `Shootdown.ShootdownReturn` | libdune/fast_spawn.c:128-222 | over every run, after a return the target executes the snapshot thread on an older translation only if the return was an accepted re-read without the host bit, and then until its next entry, or an acknowledgement with a batch in which the call was not first and for none of whose messages its page was read |
| `ShootdownExact.LoopExact` | libdune/fast_spawn.c:179-189 | a call in the re-read loop, whatever word it last read, never leaves a stale translation in use if and only if the target holds none, a flush lies ahead of it, or its handler has the page in hand or is bound to read it |
| `ShootdownExact.AckExact` | libdune/fast_spawn.c:728-741 | the same of a call that has been acknowledged |
| `ShootdownExact.LoopHappens` | libdune/fast_spawn.c:154-189 | from the start, a run in which calls give up waiting and leave their messages in the ring leads into the loop with a stale translation left and no flush ahead |
| `ShootdownExact.MissHappens` | libdune/fast_spawn.c:728-741 | from the start, a run with two calls in one batch leaves the second one acknowledged and the target running on its stale translation |
| `BranchOff.StepKeeps` | libdune/fast_spawn.c:786-836 | every step of the two loops and of all cores keeps the switch invariant |
| `BranchOff.SwitchAgreement` | libdune/fast_spawn.c:781-857 | after the loops, every core seen in main or copy state executes on the new root only, or holds a request to load it before it enters |
| `BranchOff.MessageCleans` | libdune/fast_spawn.c:89-101 | after every run, a core that acknowledged the message, and the core that branches off, hold no translation from before the switch |
| `BranchOff.PostKeepsOld` | kern/vmx.c:2107-2121 | a core told by a request enters on the new root without its old translations if and only if a flush was asked for before its exchange |
| `BranchOff.OldHappens` | libdune/fast_spawn.c:795-801 | a run of the switch after which a visited core executes on the new root with its old translations |
| `IpiRing.StepRefines` | libdune/ipi_call.c:173-183 | each load or store leaves the queue alone, appends to a queue of fewer than 4, or removes what was copied from its front |
| `IpiRing.FirstInFirstOut` | libdune/ipi_call.c:214-229 | over every interleaving, messages are collected in order, intact and at most 4 at a time |
| `IpiRing.RefusedWhenFull` | libdune/ipi_call.c:175-179 | a message is refused only if the ring held exactly 4 when its head was loaded |
| `IpiRing.BufferHolds` | libdune/ipi_call.c:39-41 | however the producers of the 128 rings interleave with a pass over them, what it collects fits the 512 slots |
| `IpiHandler.Ring.Enqueue` | libdune/ipi_call.c:173-183 | appends and returns the number, or fails and changes nothing when full |
| `IpiHandler.Ring.Collect` | libdune/ipi_call.c:214-229 | hands over the ring's contents in order and empties it |
| `IpiHandler.CollectAll` | libdune/ipi_call.c:39-41 | the contents of all 128 rings arrive in order and leave the rings empty |
| `IpiHandler.Split` | libdune/ipi_call.c:42-48 | the two buffers hold the batchable and the other messages, in order |
| `IpiHandler.CallAll` | libdune/ipi_call.c:49-54 | single calls first, then one batch call |
| `IpiHandler.Pass` | libdune/ipi_call.c:39-54 | one pass empties all rings and makes exactly the calls of their messages |
| `IpiHandler.DispatchesOnce` | libdune/ipi_call.c:42-54 | every collected message is handed to exactly one call, once |
| `IpiHandler.FlushBatch` | libdune/fast_spawn.c:727-741 | acknowledges each message's block and invalidates the pages that line 730 reads |
| `IpiHandler.BatchExact` | libdune/fast_spawn.c:728-741 | no acknowledged page stays in any TLB if and only if each message after the first asks for the first one's page or for a value that line 730 reads for a later message |
| `IpiHandler.StraysAreUnowned` | libdune/ipi_call.c:141-143 | with the blocks at the starts of the cores' working pages, what line 730 reads for a later message is no message's own block |
| `IpiHandler.BatchAlike` | libdune/ipi_call.c:115-116 | with no page asked for stored behind those blocks, a batch keeps its promise if and only if all its messages ask for the same page |
| `IpiHandler.BatchOfOne` | libdune/fast_spawn.c:728-741 | a batch of one keeps its promise |
| `IpiHandler.BatchOfTwoFails` | libdune/fast_spawn.c:730-730 | messages of cores 0 and 1 for different pages break the promise, unless the second block of core 1's page happens to hold the second page |
| `PostedInterrupts.StepKeeps` | libdune/apic.c:167-194 | every step of senders, host, processor and guest keeps the coverage invariant |
| `PostedInterrupts.NoLostWakeUp` | libdune/apic.c:167-194 | over every run, vector bit, outstanding bit and queued message are covered, and no core sits quiet with a posted message |
| `PostedInterrupts.RouteExact` | libdune/apic.c:186-191 | no wake-up is lost in any run if and only if the target's APIC route is known |
| `Drain.RegisterOffset` | kern/vmx.c:2018-2020 | the offset expression addresses the register of the vector's block of 32 |
| `Drain.SetBit` | kern/vmx.c:2017-2021 | requests the vector in the page |
| `Drain.RequestedIs` | kern/vmx.c:2017-2021 | requesting a vector makes it pending, and no other |
| `Drain.Take` | kern/vmx.c:2008-2010 | takes the four words and leaves zeros |
| `Drain.MoveWord` | kern/vmx.c:2013-2027 | one word's bits move to the page, and RVI's candidate grows to the highest |
| `Drain.HandleQueued` | kern/vmx.c:1996-2033 | afterwards pending is exactly old pending or posted, nothing else on the page changes, and the descriptor is empty; without the outstanding bit nothing happens |
| `Drain.PageIs` | kern/vmx.c:2011-2028 | the specification of the moved bits |
| `Drain.HighestIs` | kern/vmx.c:2024-2024 | the candidate is the larger of the old RVI and the highest posted vector |
| `Drain.RviExact` | kern/vmx.c:2030-2031 | the new RVI is at least every vector moved, and is their maximum with the old RVI if and only if the old bits are among that one's, as when it was 0 |
| `Drain.RviTooHigh` | kern/vmx.c:2030-2030 | RVI 1 and vector 2 give RVI 3 |
| `PageAllocator.StepKeeps` | libdune/page.c:69-104 | every step of growth, allocation, stealing and counting keeps the placement invariant |
| `PageAllocator.OnOneListOnce` | libdune/page.c:202-279 | over every run, a listed page is grown, has count 0 and stands on one list once; a page in use is on none; a page handed out is listed, in use or in transit |
| `PageAllocator.DisjointChunks` | libdune/page.c:77-88 | over every interleaving of additions and undos, growth hands out consecutive disjoint chunks below the maximum |
| `PageAllocator.Allocator.Grow` | libdune/page.c:69-104 | fails exactly at the maximum or when mapping fails; otherwise the list gains the new chunk |
| `PageAllocator.Allocator.AddChunk` | libdune/page.c:77-79 | adds one chunk of pages with count 0, in transit |
| `PageAllocator.Allocator.InsertChunk` | libdune/page.c:97-101 | the chunk heads the list, last page first |
| `PageAllocator.Allocator.TrySteal` | libdune/page.c:202-217 | moves up to n pages, reversed, or nothing if the victim is locked |
| `PageAllocator.Allocator.Alloc` | libdune/page.c:219-267 | returns a page that was not in use, with count 1 and on no list, or fails after exactly 100001 attempts; no other count changes |
| `PageAllocator.Allocator.PopFree` | libdune/page.c:260-264 | takes the first page of the list |
| `PageAllocator.Allocator.GetPage` | libdune/page.c:371-379 | adds one reference |
| `PageAllocator.Allocator.PutPage` | libdune/page.c:381-390 | drops one reference and lists the page when none is left |
| `PageTable.PageWalk` | libdune/vm.c:48-117 | the loop at each level computes the walk's specification, for any callback |
| `PageTable.BatchIsWalk` | libdune/vm.c:120-191 | for any callback, the batched walk has the effect and result of the plain walk without creation |
| `PageTable.LeIsNumeric` | libdune/vm.c:53-57 | comparing table indices is comparing page numbers |
| `PageTableView.LookupView` | libdune/vm.c:208-260 | lookup finds what the flat map holds, and fails or finds zero where it holds nothing |
| `PageTableView.MapRefines` | libdune/vm.c:344-381 | mapping an aligned range that meets no other size maps exactly its pages and changes no other |
| `PageTableView.MapPhysLookup` | libdune/vm.c:353-381 | afterwards lookup gives the requested bits and the shifted physical address, or fails on a big entry that is not present |
| `PageTableView.ChangeRefines` | libdune/vm.c:302-335 | mprotect and unmap change exactly the entries whose slot meets the range |
| `PageTableVisits.WalkVisits` | libdune/vm.c:61-114 | a walk without creation, with any callback, is that callback folded over the entries that meet the range as they were before: each once, nothing else, in ascending order; the table changes at those entries only, to what the callback left there |
| `PageTableInsert.WalkIsInsert` | libdune/vm.c:94-112 | mapping one slot inserts its entry and creates the missing tables on its way |
| `PageTableInsert.InsertView` | libdune/vm.c:344-351 | an insertion changes the flat map at its own pages only |
| `PageTableInsert.InsertCount` | libdune/vm.c:94-105 | it adds one entry, and the tables taken from the pool |
| `PageTableClone.CloneRefines` | libdune/vm.c:510-560 | the clone maps every page to the same frame with the low 12 flag bits; the source is unchanged |
| `PageTableClone.CloneCounts` | libdune/vm.c:535-536 | each pool page gains one reference per entry that names it; the clone's tables have count 1 |
| `PageTableFree.FreeCounts` | libdune/vm.c:634-667 | freeing puts each entry's frame, each page table, each page directory and the root, once each |
| `PageTableFree.CloneThenFree` | libdune/vm.c:634-667 | after clone and free every data page has its old count, and of the clone's pages only page-directory-pointer tables stay allocated |
| `CowClone.CanonicalHalves` | libdune/fast_spawn.c:51-54 | the canonical form keeps the lower half and moves the upper half up |
| `CowClone.CopiesProtect` | libdune/fast_spawn.c:249-320 | both copies name the source's frame and are read-only with COW exactly where they must be |
| `CowClone.PresentShown` | libdune/fast_spawn.c:249-320 | a present entry appears in both shadows as a right shadow of it |
| `CowClone.MyCloneRefines` | libdune/fast_spawn.c:532-551 | one walk fills both shadows, page for page, leaves the live table alone, and adds two references per entry |
| `PreCopy.OneRead` | libdune/fast_spawn.c:314-320 | with a single read the stores are the clone's shadow entries |
| `PreCopy.RunIs` | libdune/fast_spawn.c:934-956 | over any run of faults a live entry keeps its frame, and becomes writable exactly if a fault opens it |
| `PreCopy.ShadowsFaithful` | libdune/fast_spawn.c:314-320 | until branch-off both shadows name the live entry's frame; a shadow is writable if and only if a fault opened the entry between the test and the read stored |
| `PreCopy.PairExact` | libdune/fast_spawn.c:314-320 | whatever faults run, the two shadows are unlocked and name the same frame; they are as the fault handler relies on them if and only if no fault opened the live entry between the test and the second store |
| `PreCopy.WritableShadow` | libdune/fast_spawn.c:314-318 | such a fault, for every eligible entry |
| `AddressLayout.RoundTrip` | kern/ept.c:118-180 | an accepted host address is recovered if and only if its guest address is outside the windows, or it is 0 |
| `AddressLayout.RoundTripBack` | kern/ept.c:147-180 | for every layout, a guest address is recovered if and only if its host address falls to the same case |
| `AddressLayout.Agreement` | libdune/dune.h:184-213 | the library's translation equals the kernel's for every accepted address outside the virtual windows |
| `AddressLayout.WindowsMeet` | libdune/dune.h:197-206 | the virtual windows go to the guest windows |
| `AddressLayout.PoolNumbers` | libdune/page.c:281-286 | page numbers and addresses of the pool invert each other |

## Where the code and its comments differ

- `libdune/fast_spawn.c:993` says that a locked snapshot entry makes the compare-and-swap fail. It does not: the value
  compared is the one just read, locked or not. The model follows the code.
- `libdune/fast_spawn.c:181-184` retries without the host test of its first attempt.
- `libdune/fast_spawn.c:730` indexes each message's block by the message's position in the batch.
- `kern/vmx.c:2030` ORs the new RVI into the old one.
- `libdune/apic.c:188-191` returns with the outstanding bit set and no notification sent when the route is unknown.

## Left out

- CowSafety.ForkSemantics: holds of runs that meet none of the three hazards; `IsolationExact`, `LateReturnExact` and `DoubleLockExact` show that each exclusion is needed.
- CowSafety.ForkSemantics: starts with write-protected shadows and no writable translation of a main core, which `CowSwitch.StartExact` shows to be needed. `PreCopy.PairExact` says when a shadow is writable; `BranchOff.PostKeepsOld` says when a core switched by a request keeps its old translations.
- CowProtocol starts at branch-off: main writes between lines 777 and 836 of `libdune/fast_spawn.c` are not modelled, nor two pages that share a frame.
- CowSwitch.StartExact: assumes a main core, without which no one writes.
- CowSwitch.SwitchExact: takes it that a writable translation of a main core stems from before the switch, as new ones come from the write-protected table; the switch and the protocol are not joined into one machine.
- CowShootdown.JointForkSemantics: counts as risky an acknowledgement that a later message of the same batch may still make good.
- CowShootdown starts with the snapshot core in the host, and lets the hardware walk tables in the guest only.
- CowExact.IsolationExact: assumes one free page and a main core outside the handler, such as the one that branches off and waits for the thread state.
- CowLate.LateReturnExact: assumes one free page, for a fault of the snapshot core on another page.
- CowLostWrite.DoubleLockLosesWrite: assumes two free pages, without which the copies cannot be made.
- CowDoubleLock.DoubleLockExact: assumes the same, a main core outside the handler, and a moment at which the snapshot thread executes.
- Shootdown gives each call an argument block of its own; reuse of a block before its message was collected is not modelled.
- Shootdown lets line 730 read any value for the messages after the first of a batch; `IpiHandler` models where the blocks lie.
- ShootdownExact.LoopExact: leaves open the states in which the handler's next batch would begin with a message for the same page from a ring that it has not come to, since another core may still put a message before that one.
- ShootdownExact.AckExact: assumes the same.
- Shootdown and BranchOff treat a message ring as a queue; `IpiRing` is the proof that it is one.
- BranchOff.SwitchAgreement: only the switch itself loads roots on main cores meanwhile, and no message of an earlier switch is pending.
- IpiRing counts head and tail without 64-bit wrap-around, which would take 2 to the 64 messages.
- IpiHandler.CollectAll: the rings stand still meanwhile; `IpiRing.BufferHolds` is the bound for producers at work.
- IpiHandler.BatchAlike: a batch of at most 256 messages, beyond which line 730 reaches the next core's page.
- IpiHandler.Pass: is one of the handler's two identical passes; the phase field between them is not modelled.
- PostedInterrupts.NoLostWakeUp: liveness is stated as the absence of quiet states with a posted message, not as a bound on time.
- PageAllocator models reference updates as single steps, although the source's are not atomic.
- PageAllocator.Allocator.AddChunk: the undo of lines 80-86 cannot happen while one thread grows at a time; it is a step of the machine.
- PageAllocator.Allocator.Alloc: random victims, busy mutexes and mapping failures are parameters.
- PageTable models a table as a tree of values, so two slots never share a table page and in-place update of arrays is not captured.
- PageTableClone.CloneRefines: says nothing of a clone that runs out of pages, which the source frees again.
- PageTableFree.CloneThenFree: no entry of the source names a free page or frame 0.
- CowClone.MyCloneRefines: a big entry outside the pool, on which the source asserts, counts as a failure, and so does a lookup that runs out of pages, on which it crashes.
- AddressLayout covers 36 to 52 physical address bits.
- `dune_vm_my_fast_clone`, `dbos_fast_spawn` and `dune_vm_clone_fast`: their callbacks take the argument structure itself for a table root.
- The pipelined copy-and-interrupt path, which is off by default.
- `dune_queue_ipi_call`, whose loop treats the message number as a success flag, and `dune_vm_default_pgflt_handler`.
- EPT filling, VMCS setup, system calls, vCPU creation and teardown, APIC registers, ELF and procmap parsing, statistics and the sample applications: plumbing, or easier members.
