# Page migration, device mirror, RDMA messages and hash: a Dafny model

This project models the kernel module's page migration, the device mirror driven through it, the
RDMA message exchange and the mixing hash, and proves that they keep their promises in every run.

**Migration** (`mm/migrate_device.c`, `hmm.c`). `Kernel.dfy` has the part of the kernel that a
migration acts on: page table entries, struct pages with reference counts, locks, LRU state and
mappings, and the device's mirror page table. A lock remembers the migration slot that took it, and
references that belong to somebody else are counted as `pins`; both are bookkeeping of the model, so
that "every reference and lock is accounted for" can be said. `Accounts` says it: the references of
others to a page (`OutsidePins`) change by those that others took and dropped, which the machine's
history records, and by nothing else (`Ledger`). The five stages are methods that fill
and clear the `src` and `dst` arrays and change the machine (`MigrateCollect`, `MigrateUnmap`,
`MigrateSetup`, `Driver`, `MigratePages`, `MigrateFinalize`), each step backed by a lemma in
`KernelSteps` and `Txn`. What the kernel decides (which pages can be locked, isolated, unmapped,
allocated, inserted, moved) is a parameter, so the results hold for every pattern of failures.
Between the stages any sequence of other activity runs (`Environment`): touching, writing, copy on
write, fork, unmapping, pinning, writing through a pin, locking. Fork and unmapping reach device pages
as well; `PageRefs` frees a device page with its last reference. `Commands` puts the stages together,
`Outcome` states what a whole migration does, `Exactness` which pages move, in terms of the state before
it, `SlotResults` what that means for every address of the range, and `Conservation` that its reference
counts come out exactly. `RangeCommands` cuts ranges into
pieces, and `DeviceCommands` has the CPU fault on a device page and the eviction of device memory.

**Flat memory.** The machine carries the history of writes. `FlatMemory.Run` takes any sequence of CPU
activity, device reads and writes (`Faulting`, `Transfer`), migrations both ways, CPU faults and
evictions, and shows that every value read is the one last written and that the `Ledger` holds from
the start of the run to its end. `Achieved` says what each command must have done, in terms of the state
it found; with it, what the device has written is read back (`WriteThenRead`). `Transfer` bounds the faults of a read or write by the invalidations of
what it still had to do and of the page before that (`RetryBound`). `RetryBounds` shows that the page
before cannot be left out (`TwoFaults`), that without it the plain bound holds (`InsideBound`), and that
a read of ordinary memory ends (`ReadOrdinary`). `FaultProtocol` shows, step by step over all
interleavings, that a fault installs no stale mirror entry, retries exactly when it has to, and comes to its end, which is why `Faulting` may store the
entries of a fault at once.

**The rest of the driver.** `Allocator` has the page allocator on heap objects with its intrusive free
list, `ExclusiveAccess` the exclusive-access command, `VmaRange` the range arithmetic of
`mm/internal.h`.

**RDMA** (`mm/nmsg_rdma_client.c`, `mm/nmsg_rdma_server.c`). The two handlers are classes proved
against value functions (`RdmaClient`, `RdmaServer`, with shared types and byte order in `RdmaWire`);
`RdmaProtocol` joins them with their devices and the network into one step system, from the states that
the handshake leaves (`Handshake`), and shows that each round can be brought to its end.

**Hash** (`hash.c`). Machine words are numbers below 2^64 with wrapping arithmetic; each absorption of
a lane has an explicit inverse, from which single-lane collision freedom follows; the operations are
pinned down by what they do to single bits and bytes.

What others do is given by small contracts: `trylock_page` succeeds if nobody holds the lock;
`try_to_migrate` replaces any set of mappings and notifies mirrors; `migrate_folio` refuses a page with
an unexpected reference; `remove_migration_ptes` maps every migration entry of a page;
`hmm_range_fault` reports pages that are present (and writable if asked), and a device's own private
pages as they are; the address space's invalidation sequence number is odd while an invalidation runs;
RDMA send queues are processed in order.

## Where the code does something a reader might not expect

- A device fault on an address that maps a private page of the same device stores the device's struct
  page, not the backing page, in the mirror (`hmm.c:237-245`); such an entry does not give access to the
  data. `Faulting.FaultEntryOk` says exactly when the stored entry is right, and runs are followed up to
  the first such fault. A run gets there when a page on its way back to system memory has been copied and
  then does not move, because the copy erases the mirror entry first (`hmm.c:883`):
  `FlatMemory.TouchThenRead` shows that after such a fault the next read of the device stores the page
  itself exactly if the page did not move. It also gets there when the page before a device page is
  invalidated, which erases the entry of the device page, too (`FlatMemory.UnmapThenRead`).
- `migrate_vma_check_page` lets one outside reference to a device page pass
  (`MigrateUnmap.CheckPageExact`); `migrate_folio` then refuses the page, so it still does not move, but
  a CPU fault on it has copied it and erased its mirror entry (`DeviceCommands.FaultCopies`).
- `dmirror_do_update` erases one page more than was invalidated (`hmm.c:264-266`). A device read or write
  may therefore fault again although nothing in its range changed (`RetryBounds.TwoFaults`), and a
  migration to the device may end without the mirror entry of a page it moved (`SlotResults.TagsStored`).
- `dmirror_remove_free_pages` also drops pages of other chunks that are in front of the chunk's last
  free page (`Allocator.DroppedExact`).
- `npages` of 2^52 or more is cut to its low 52 bits (`RangeCommands.SpanExact`).
- After the process has exited `dmirror_fault` returns success without doing anything, so a read or
  write of a page that is not in the mirror never ends (`Transfer.DmirrorRead`).
- `vma_address_end` returns the start of the vma for a range that ends 2^52 pages after the vma's first
  offset (`VmaRange.EndExact`).
- A callback that comes after a fault has read the sequence number may leave the same number, if its
  invalidation overlaps with the one whose number it was; the fault waits for both and does not retry
  (`FaultProtocol.OverlappingCallback`).
- Neither end keeps an error: a later connection event replaces it (`RdmaClient.CmaLast`).
- The server does not enter CONNECTED when the connection is established (`mm/nmsg_rdma_server.c:45-49`);
  its first wait ends with the first advertisement. The protocol starts from that state.
- Two slips of the text are read as intended: the lock at `hmm.c:134` is `lock`, and the assignment at
  `hmm.c:765` is to `dpage`. At `mm/migrate_device.c:752` the source page is the page that the slot names.

## Model

| member | source | states |
|---|---|---|
| MigrateCollect.MigrateVma.CollectSkip | mm/migrate_device.c:22-35 | appends one empty src and one empty dst slot per page, whatever the arrays held before |
| MigrateCollect.MigrateVma.CollectHole | mm/migrate_device.c:37-57 | a hole of anonymous memory gives one MIGRATE slot per page and counts each; any other hole gives empty slots |
| MigrateCollect.MigrateVma.DecodePte | mm/migrate_device.c:123-177 | a page is offered exactly if it is of the selected kind and owner, has page->mapping and is not compound, with the permission of its pte; without a page the slot migrates exactly for an empty anonymous address or, selecting system memory, the zero page |
| MigrateCollect.MigrateVma.LockPte | mm/migrate_device.c:188-271 | the page is locked and the migration entry installed exactly if the page was unlocked and could be unshared; otherwise nothing changes and the reference is dropped |
| MigrateCollect.MigrateVma.CollectPte | mm/migrate_device.c:117-276 | one turn of the pte loop keeps the kernel invariant, the agreement of slots and locks, mirror coherence and the count |
| MigrateCollect.MigrateVma.CollectPmd | mm/migrate_device.c:114-286 | a run of ptes leaves out no page that could be locked and unshared |
| MigrateCollect.MigrateVma.Collect | mm/migrate_device.c:301-320 | for any split of the range into holes, skips and pte runs: one slot per page so that slot i is the i-th page, end unchanged, cpages the number of MIGRATE entries, stale dst entries gone |
| MigrateCollect.CollectOne | mm/migrate_device.c:202-275 | the state after one pte in terms of the state before collect: untouched, or a migration entry for exactly the page and permission it had |
| Outcome.SlotsDistinct | mm/migrate_device.c:202-222 | no page is in two valid slots: each slot holds the lock of its page |
| KernelSteps.InstallKeeps | mm/migrate_device.c:188-264 | replacing a mapping by a migration entry keeps the reference balance, the process memory and exclusive writers |
| MigrateUnmap.CheckPageExact | mm/migrate_device.c:330-359 | the pin check passes exactly if at most one outside reference exists for a device page (none for a system page), one more for the fault page |
| MigrateUnmap.UnmapPage | mm/migrate_device.c:385-420 | one page is kept exactly if it could be isolated, every mapping could be replaced and no pin is in the way; otherwise it is back on the LRU with the references of before |
| MigrateUnmap.UnmapLoop | mm/migrate_device.c:375-420 | restore counts exactly the valid entries whose MIGRATE bit was cleared, unmapped the MIGRATE entries |
| MigrateUnmap.RestoreLoop | mm/migrate_device.c:422-436 | the early exit is sound: when restore is zero nothing is left to restore, and each restored slot is empty with its page mapped, unlocked and put |
| MigrateUnmap.Phase2Done | mm/migrate_device.c:422-436 | with no pending entry left the remaining slots need no turn of the loop |
| MigrateUnmap.MigrateDeviceUnmap | mm/migrate_device.c:365-439 | every slot is empty, MIGRATE alone, or valid with MIGRATE and its page unmapped and unpinned; the result is the number of MIGRATE entries; every address still refers to the page it did |
| MigrateUnmap.UnmapOneView | mm/migrate_device.c:399-420 | unmapping changes how an address refers to its page, never which page or permission |
| KernelSteps.TryToMigrateKeeps | mm/migrate_device.c:403-405 | try_to_migrate trades mappings for migration entries one reference each, for any set of mappings it fails on, and notifies the mirror of each |
| Txn.RestoreKeepsInFlight | mm/migrate_device.c:429-435 | restoring one slot keeps lock and slot agreement, balance and mirror coherence for all others |
| MigrateSetup.MigrateVmaSetup | mm/migrate_device.c:522-559 | -EINVAL exactly for bad arguments, an end not above the start among them, and then nothing has changed; otherwise each slot holds what its address offered or nothing, the number of MIGRATE entries is counted, whatever the counters held before, and no reference of anybody else is touched |
| MigrateSetup.SetupPage | mm/migrate_device.c:22-559 | a page mapped once in the range is kept by setup exactly if its page is unlocked, can be unshared, isolated, unmapped everywhere else, and has no unexpected reference, all in terms of the state before setup |
| MigrateSetup.SetupNoPage | mm/migrate_device.c:22-177 | a slot without a page keeps exactly what its address offered, unless the walk skipped it |
| MigratePages.InsertPage | mm/migrate_device.c:570-700 | a new page is mapped at an empty or zero-page address of anonymous memory, or the slot gives up |
| MigratePages.PagesSlot | mm/migrate_device.c:750-817 | one turn: no new page, insert, refuse, or move the metadata |
| MigratePages.MigrateDevicePages | mm/migrate_device.c:742-826 | the whole stage in terms of the state before it: each slot keeps MIGRATE exactly if its page moved or was inserted, and the page table changes only where a page was inserted; without a vma an empty slot never gets there, so VM_BUG_ON cannot fire |
| MigratePages.RelSame | mm/migrate_device.c:750-817 | every turn of the loop finds the state its slot would have found at the start |
| KernelSteps.MoveMappingKeeps | mm/migrate_device.c:808-816 | moving the metadata moves the references of the mapping with it |
| KernelSteps.InsertKeeps | mm/migrate_device.c:675-690 | mapping a new zero-filled page at an empty address keeps the process memory |
| MigrateFinalize.FinalizeSlot | mm/migrate_device.c:873-911 | one turn: which page the migration entries map, which pages are unlocked and put |
| MigrateFinalize.MigrateDeviceFinalize | mm/migrate_device.c:868-912 | afterwards no lock, isolated page or migration entry is left, every migration entry maps the new page if the slot succeeded and the old one if not, with its permission; no reference of anybody else is dropped or added, and a page that is not put is as it was |
| KernelSteps.RemoveKeeps | mm/migrate_device.c:894-896 | pointing migration entries at a page with the same contents keeps the process memory and gives the page their references |
| KernelSteps.ReleaseKeeps | mm/migrate_device.c:897-902 | unlocking and putting a page keeps the balance, also when the last reference frees a device page with its backing page |
| Accounts.ReleaseEnds | mm/migrate_device.c:897-902 | unlocking and putting a page drops the reference of the slot and, for a device page that is freed, the one on its backing page; no reference of anybody else to any page changes |
| MigrateFinalize.FinTurn | mm/migrate_device.c:873-911 | every slot is released once and no other slot is disturbed |
| Driver.AllocAndCopy | hmm.c:644-696 | each migrating slot without a device page gets a device page of its own holding the data of its source, or zeroes |
| Driver.AllocTurn | hmm.c:658-694 | a new locked device page with a private backing page keeps every invariant of the transaction |
| Accounts.FreshDeviceCarried | hmm.c:605-642 | a new device page takes one free page as its backing page and leaves the record of every page in use alone |
| Driver.FilledStep | hmm.c:655-695 | the slots filled so far have a new page exactly if they want one and it was still free at the start and not handed out by an earlier slot |
| Driver.CopyToSystem | hmm.c:855-890 | each migrating device page gets a locked system page with its data, and its mirror entry is gone |
| Driver.FinalizeAndMap | hmm.c:744-781 | the mirror entry of each migrated slot names the backing page, with WRITE exactly if dst has it |
| Driver.NewEntryOk | hmm.c:769-772 | the new entry agrees in page and permission with what the address will map, also for a slot that was inserted |
| Outcome.SuccessfulPages | hmm.c:892-904 | counts the valid entries that still migrate |
| Outcome.MovesCount | hmm.c:892-904 | that is the number of pages that moved: slots hold different pages |
| Outcome.StagesMove | mm/migrate_device.c:742-912 | all or nothing: each address keeps its page or has the new one of its slot, with its permission; new pages were unused and are not shared |
| Outcome.MovedUnpinned | mm/migrate_device.c:808-816 | a page with an outside reference never moves, except the fault page with the reference of the fault |
| Outcome.StagesConvert | hmm.c:943-957 | going to the system an address turns into system memory exactly if its page is among those that moved |
| Outcome.TurnedCount | hmm.c:956 | if no page is mapped twice in the range, the number of pages that moved is the number of addresses that turned |
| Commands.ChunkToDevice | hmm.c:1000-1015 | one piece to the device for every pattern of failures and interference: memory, balance, locks and mirror coherence hold, references of others change only by what others took and dropped, each slot that setup kept ends with its old or its new page and its permission, and an address whose page came to the device has its mirror entry unless the page before it was invalidated after the entry was stored; undisturbed, exactly the pages the kernel and the driver allow move, and the reference counts are exact; undisturbed, every slot of dst, entry and mirror entry of the piece is given exactly by the state before and the answers of the kernel (DeviceSlots), and the mirror tag is WRITE exactly if the address was mapped writable, or empty in a writable vma |
| Commands.ChunkToSystem | hmm.c:940-957 | one piece to system memory: the same, cpages is the number of pages that moved, and a slot that got a new page has lost its mirror entry whether or not the page moved; undisturbed, every slot of dst and every entry of the piece is given exactly by the state before (SystemSlots) |
| Commands.UndisturbedMove | mm/migrate_device.c:742-912 | the three last stages compose to the all-or-nothing result |
| Commands.SlotsFinal | mm/migrate_device.c:868-912 | under any interference a slot still valid before the last stage ends completely old or completely new: one page, one permission |
| Environment.ActLedger | hmm.c:253-293 | an action of others changes the references of others to a page by the one it takes or drops there, and those to no other page, also when it frees a device page |
| Exactness.PageDone | mm/migrate_device.c:22-912 | a page mapped once in the range moves if and only if setup keeps it, the driver had memory for it and migrate_folio accepts it, in terms of the state before the migration; and it moves to the page supplied for its slot |
| Exactness.HoleDone | mm/migrate_device.c:570-700 | an empty address is filled in if and only if its slot was kept, got a page, and the page could be inserted |
| SlotResults.DeviceSlotsDone | hmm.c:644-781 | to the device, address by address: a mapped page referred to once in the range becomes a device page, with its permission and a mirror entry of the same tag, if and only if it is anonymous, unlocked, on the LRU, isolated, held by nobody else, unmapped everywhere else and not compound, its pte was walked and could be unshared, device memory was free that no earlier slot got, and migrate_folio succeeds; the zero page and holes are filled in if and only if walked, supplied, anonymous and insertable; everything else stays |
| SlotResults.PresentMoves | mm/migrate_device.c:117-420 | the slot of dst and the move of a mapped page, in terms of the page record and the kernel answers alone |
| SlotResults.SystemSlotsDone | hmm.c:855-957 | to the system: a device page referred to once in the range becomes a system page with its permission if and only if it belongs to this device, is unlocked, has only the reference of the fault, is unmapped everywhere else, and a free page was supplied; it is copied, and loses its mirror entry, also with one reference more; everything else stays |
| Conservation.BooksDone | mm/migrate_device.c:742-912 | after an undisturbed migration the record of every page in use that did not move is the same, reference for reference; one that moved keeps the references of others only, and its new page has exactly one reference per mapping and those of page->mapping |
| Conservation.InUseExactly | hmm.c:1384-1402 | with no migration under way a page is in use exactly if it is mapped, has page->mapping references, is held by somebody else, or backs a device page: nothing is leaked |
| Conservation.NoLeak | hmm.c:1384-1402 | over any run a page whose references nobody else took or dropped has as many as before, and is free once nothing maps it |
| RangeCommands.SpanExact | hmm.c:909-922 | accepted exactly if page-aligned, not empty and below 2^64; the span is the whole request exactly if npages is below 2^52 |
| RangeCommands.NextOk | hmm.c:931-938 | the next piece is not empty, at most 64 pages, inside one vma and as long as possible |
| RangeCommands.MigrateToDevice | hmm.c:966-1018 | consecutive pieces cover the range; success exactly if the process is alive and every page of the range lies in a readable, supported vma; references of others change only by what others took and dropped; undisturbed, the run is the chain of its pieces, each with exact moves and exact reference counts; undisturbed, each piece in turn changes its addresses exactly as DeviceSlots says of the state before it |
| RangeCommands.MigrateToSystem | hmm.c:906-964 | the same, and undisturbed cpages is the number of addresses that were device memory and now are system memory; each piece in turn changes its addresses exactly as SystemSlots says |
| RangeCommands.CountPiece | hmm.c:930-958 | pieces do not touch each other's addresses, so the counts add up |
| DeviceCommands.CpuFault | hmm.c:1404-1441 | a CPU fault on a device page drops the reference it took, under any interference; undisturbed, the page moves if and only if it belongs to the device, is unlocked, has no further reference and can be unmapped, and all reference counts are exact; an address that gets as far as the copy has lost its mirror entry; the entry afterwards is the new page with the permission of before, or the old entry |
| DeviceCommands.FaultLedger | hmm.c:1404-1441 | the reference the fault takes is the one it drops: none is left and none of others is lost |
| DeviceCommands.FaultBooks | hmm.c:1404-1441 | with that reference gone a page that moved is free if nobody else holds it, and every page that did not is exactly as before |
| DeviceCommands.FaultExact | hmm.c:1404-1441 | the page moves exactly if FaultMoves holds of the state before the fault |
| DeviceCommands.PutPinnedKeeps | hmm.c:1384-1402 | the last reference to a device page frees it and its backing page and nothing else |
| DeviceCommands.MigrateDeviceRange | mm/migrate_device.c:951-976 | exactly the pages of the range that are in use and unlocked are taken, and then unmapped or given back |
| DeviceCommands.EvictChunk | hmm.c:1226-1261 | eviction of a pfn range keeps memory, balance and mirror coherence under any interference, and references of others change only by what others took and dropped; undisturbed, exactly the pages move that are in use, unlocked, unmappable, without further reference and supplied with a free page, and the reference counts are exact |
| DeviceCommands.EvictOne | hmm.c:1236-1256 | the exact condition for one page of the range, in terms of the state before the eviction |
| Environment.ActKeeps | hmm.c:253-293 | touching, writing, copy on write, fork, unmap, pinning and locking by others, of system and of device pages, keep the kernel invariant, and leave pages in flight alone; unmapping the last mapping of a device page frees it with its backing page |
| Environment.ActDoes | hmm.c:253-293 | each action has its effect whenever its own condition holds: what the entry of its address becomes, what the process reads there, and what becomes of pins and locks |
| Environment.EnvKeepsPages | mm/migrate_device.c:742-826 | whatever others do between the stages, the transaction stays intact |
| Environment.EnvKeepsFin | mm/migrate_device.c:868-912 | the same before the last stage |
| FlatMemory.Step | hmm.c:1305-1374 | one command of any kind returns only values of the flat memory, keeps memory, balance and mirror coherence, and changes the references of others only by what others took and dropped; and it has done what was asked, in terms of the state before it: a read or write by the device covers its whole range if the mirror has it or one undisturbed fault can bring it there (for reading, also with fewer disturbances than faults), undisturbed writes are exactly the events added, undisturbed migrations went piece by piece as their contracts say, and so did faults and evictions |
| FlatMemory.Run | hmm.c:1305-1374 | in every run every value read by the CPU or the device is the value last written, up to the first fault of the device on its own private page, and no reference of anybody else is dropped or added over the whole run; every command of the run has achieved what it was asked, in terms of the state it found (Progress) |
| FlatMemory.ReadBack | hmm.c:1024-1037 | the data returned after a migration to the device is the memory, and is returned exactly if the mirror has the whole range |
| FlatMemory.SeenLast | hmm.c:372-509 | a value read is that of the last write before the read |
| FlatMemory.SeenNever | hmm.c:372-439 | a page never written reads as zero |
| FlatMemory.RunReadsWrites | hmm.c:372-509 | a read of the device returns what an earlier write command of the run stored, if nothing wrote the page in between |
| FlatMemory.WriteThenRead | hmm.c:1334-1335 | what the device has written without interference is what a later read by the CPU or the device shows, whatever undisturbed migrations, faults and evictions lie in between |
| FlatMemory.WriteThenCpuRead | hmm.c:1334-1335 | the CPU always sees it |
| FlatMemory.MappedPrompt | hmm.c:401-509 | memory that is mapped, and writable for a write, is reached by one undisturbed fault of a living process |
| FlatMemory.TouchThenRead | hmm.c:883 | a CPU fault that gets as far as the copy is followed by a device read that stores the device page itself if and only if the page did not move |
| FlatMemory.UnmapThenRead | hmm.c:264-266 | unmapping the page before a device page erases the mirror entry of the device page, and the next device read stores the device page itself |
| Faulting.EntryReads | hmm.c:385-391 | reading through a coherent mirror entry is reading the process memory |
| Faulting.EntryWrites | hmm.c:454-461 | writing through a WRITE entry is a write at that address and nowhere else |
| Faulting.DoFault | hmm.c:219-251 | stores one entry per page in order and stops only at a read-only page of the device |
| Faulting.FaultEntryOk | hmm.c:237-245 | the stored entry is coherent if and only if the address does not map a private page of the device itself |
| Faulting.StoredCoherent | hmm.c:219-251 | the mirror is coherent after a fault exactly if no such page was in the range |
| Faulting.RawFaultExample | hmm.c:237-245 | a state in which the fault stores the device page instead of its backing page |
| Faulting.RangeFault | hmm.c:299-337 | success leaves every page of the range accessible; undisturbed, it succeeds exactly if no address holds private device memory or a pte in somebody's hands and there was memory for each page needed, and a private device page is stored exactly if all pages are reported and the first private one does not stop the fault, in terms of the state before the fault; entries below the range go only if an action hits them or the page before |
| Faulting.DmirrorFault | hmm.c:339-370 | success makes the whole range accessible unless an action changes a page of a piece already stored or the page before it, whatever else happens in the system; alone, with memory and with no swapped-out or special pte in the range, it succeeds if and only if no private device page lies in the range, and otherwise stores it or fails by whether the first one is mapped writable (for reading it is always stored); for reading ordinary memory it never fails; without the mm it does nothing and succeeds |
| Faulting.FaultableMeans | hmm.c:299-337 | all pages are reported and none is private exactly if each could be faulted in when its turn came |
| Faulting.ReadFaultable | hmm.c:237-245 | a fault for reading fails for no other reason than a private page of the device |
| Environment.ActSpares | hmm.c:253-267 | an action takes no mirror entry away from a range unless it changes a page of the range or the page just before it |
| Environment.ActMirror | hmm.c:253-267 | an action erases exactly the entries of the pages whose mapping it changes and of the page after each |
| FaultProtocol.UpdatedIs | hmm.c:253-267 | what the callback erases in the protocol is what the notification of each page of the range erases in the kernel state |
| Transfer.DoRead | hmm.c:372-399 | copies each page to its own place until the first missing entry |
| Transfer.DoWrite | hmm.c:441-468 | writes each page once, in order, until the first entry that is missing or not writable |
| Transfer.DmirrorRead | hmm.c:401-439 | exactly once: page i was read at one time with the value of the memory at that time; done means the whole range; every fault but the last was followed by a change of the part still to be read or of the page before it, and with the mm alive there is at most one fault more than there are such changes; ordinary memory never makes it fail; if the first fault meets nobody it is decided by the state before the read how it ends; with the mm gone it ends exactly if nothing has to be faulted |
| Transfer.DmirrorWrite | hmm.c:470-509 | the same for writes: page i was written by one event of the history; a private device page in the way is stored or makes the write fail by whether it is mapped writable |
| Transfer.RetryBound | hmm.c:419-431 | the number of faults is at most one more than the number of actions that change the part still to be done or the page just before it |
| RetryBounds.InsideBound | hmm.c:419-431 | only the actions inside the part still to be done count if none changes the page just before it |
| RetryBounds.TwoFaults | hmm.c:264-266 | a read of one page that faults twice although no action is inside its range: the page before was unmapped |
| RetryBounds.ReadOrdinary | hmm.c:401-439 | a read of ordinary memory is done after at most one fault more than there are actions on the range or the page before it, counted before it begins; and it needs a second fault whenever the page before is unmapped after the first |
| RetryBounds.TotalWider | hmm.c:419-431 | what hits the part still to be done hits the range or the page before it |
| FaultProtocol.RunValid | hmm.c:219-337 | the invariant of the sequence-number protocol over all interleavings of any number of faults and invalidations, which come to their ends (FaultCompletes, InvalidationCompletes) |
| FaultProtocol.NoStaleEntry | hmm.c:219-337 | in every run every mirror entry agrees with the CPU page table in page and permission; which entries there are FaultCompletes says |
| FaultProtocol.RetryForced | hmm.c:313-329 | a callback between the end of read_begin and the check forces a retry; CheckExact has both directions |
| FaultProtocol.CheckExact | hmm.c:313-332 | the check passes if and only if no callback has set a new sequence number since the fault read it |
| FaultProtocol.OverlappingCallback | hmm.c:283-292 | a run in which a callback after the number was read sets the same number, that of an overlapping invalidation, and the check rightly passes |
| FaultProtocol.FaultCompletes | hmm.c:219-337 | from any reachable state with the mutex free, and no invalidation still running that owns the current number, the steps of a fault of mapped pages end with exactly the entries of the CPU page table in its range and no other change |
| FaultProtocol.MappedThenFault | hmm.c:237-245 | a page mapped, or made writable, just before is stored as it is now |
| FaultProtocol.InvalidationCompletes | hmm.c:269-297 | the steps of an invalidation erase its range and the page after it, leave a new sequence number if no other invalidation runs, and free the mutex |
| FaultProtocol.InvalidationBacksOut | hmm.c:283-286 | one that may not block and finds the mutex taken changes neither mirror nor notifier |
| FaultProtocol.Exclusion | hmm.c:283-292 | while a sequence number is current no announced invalidation is running |
| FaultProtocol.CoherentStep | hmm.c:253-267 | each step keeps the mirror coherent |
| FaultProtocol.Mirror.DoUpdate | hmm.c:253-267 | erases the pages of the range and the one after it, and nothing else |
| Allocator.Device.AddPages | hmm.c:578-584 | the pages of a chunk go in front of the list, last pfn first, and the list stays finite and duplicate-free |
| Allocator.Device.AddChunk | hmm.c:565-584 | a new chunk has one page for each of its pfns, all free |
| Allocator.Device.AllocateChunk | hmm.c:511-603 | a failure changes neither list nor chunks |
| Allocator.Device.AllocPage | hmm.c:605-642 | the page handed out was free or is new, was not in use, belongs to no chunk under removal, and is counted; a failure changes nothing; there is a page exactly if there is a backing page and either a free page or a chunk that can be added, and then it is the last page of that chunk |
| Allocator.Device.FreePage | hmm.c:1384-1402 | the page goes back to the head of the list and is counted, exactly if its chunk is not being removed; its backing page is returned |
| Allocator.Device.RemoveFreePages | hmm.c:1264-1272 | the list becomes its longest suffix without a page of the chunk |
| Allocator.Device.RemoveChunk | hmm.c:1284-1287 | no page of the chunk is free afterwards; pages of other chunks in front are lost |
| Allocator.Device.RemoveChunks | hmm.c:1274-1303 | whatever pages are freed between the removals, by the evictions or by others, the free list is already empty at the end; the pages freed and those that were free are all lost, and the others are still in use |
| Allocator.DroppedExact | hmm.c:1269-1271 | no page of another chunk is lost if and only if the free pages of the chunk lead the list |
| Allocator.CutIs | hmm.c:1269-1271 | the place where the list is cut is unique |
| Allocator.EvictExact | hmm.c:1228-1230 | eviction covers exactly the pfns that were added if and only if the region consists of whole pages |
| ExclusiveAccess.Device.AtomicMap | hmm.c:714-742 | stores an ATOMIC entry for every page given and counts them |
| ExclusiveAccess.Device.ReleaseAll | hmm.c:821-826 | every returned page is unlocked and put exactly once |
| ExclusiveAccess.Device.Piece | hmm.c:805-832 | a piece succeeds exactly if every page could be had; locks and references are as before on all paths; each address holds the page found for it, with the ATOMIC tag, or what it held before |
| ExclusiveAccess.Device.Exclusive | hmm.c:783-835 | success exactly if every piece could be had, and then every page not invalidated since has an ATOMIC entry; what every address of the mirror holds afterwards, on success and failure |
| ExclusiveAccess.ObtainableIs | hmm.c:805-819 | a piece can be had exactly if all its pages are pinned and markable, none is locked and none is there twice |
| ExclusiveAccess.Device.CheckAtomic | hmm.c:698-712 | -EPERM exactly if some page of the range has an ATOMIC entry |
| ExclusiveAccess.CheckRefused | hmm.c:698-712 | after exclusive access a check of any part of the range that was not all invalidated is refused |
| VmaRange.AddressExact | mm/internal.h:618-637 | -EFAULT exactly if nothing of the range is mapped, otherwise the address of its first mapped page |
| VmaRange.EndExact | mm/internal.h:655-671 | the end of the mapped part, if and only if the range does not end 2^52 pages after the first offset of the vma |
| VmaRange.RangeExact | mm/internal.h:618-671 | together they are exactly the intersection of the range with the vma |
| VmaRange.EndExample | mm/internal.h:665-669 | a range for which the end comes out as the start of the vma |
| Hash.RotlBack | hash.c:17-19 | rotation is undone by the rotation by 64 minus r |
| Hash.RotlBits | hash.c:17-19 | rotation carries bit i to bit i + r, around the end of the word |
| Hash.XorBits | hash.c:22 | exclusive or works bit by bit |
| Hash.AvalancheIs | hash.c:21-26 | the finalizer in plain arithmetic, with its constants |
| Hash.AbsorbsOne | hash.c:36-63 | the constants and rotations of each absorption, by the values they give |
| Hash.TimesBack | hash.c:23 | multiplication modulo 2^64 by an odd constant is undone by its inverse |
| Hash.AvalancheBack | hash.c:21-26 | the finalizer is injective: its inverse |
| Hash.AvalancheForth | hash.c:21-26 | and surjective |
| Hash.AbsorbBack | hash.c:36-63 | each absorption is injective in the accumulator |
| Hash.AbsorbForth | hash.c:36-63 | and surjective |
| Hash.AbsorbLane | hash.c:36-63 | and injective in the lane |
| Hash.LanesEnd | hash.c:33-64 | which bytes are consumed: at most 7 past the end, and only the first 8 of a longer tail |
| Hash.SingleLane | hash.c:28-71 | two inputs of one length that differ in at most one lane hash alike if and only if the lane is equal |
| Hash.SingleByte | hash.c:28-71 | a changed byte changes the hash if and only if it lies in a lane |
| Hash.LoadByte | hash.c:36-39 | byte k of a lane comes from address k of the lane, as on a little-endian machine |
| Hash.LengthCounts | hash.c:67 | inputs with equal lanes hash alike if and only if they have the same length |
| Hash.Xxh3 | hash.c:28-71 | the two loops and the tail compute the hash of the lanes |
| RdmaWire.NetworkOrder | mm/nmsg_rdma_client.c:261-263 | a value in network order lies in memory as its digits on any host |
| RdmaWire.HostOrder | mm/nmsg_rdma_server.c:98-100 | any host reads the digits back as the value |
| RdmaWire.RoundTrip | mm/nmsg_rdma_server.c:98-100 | address, key and length survive the way between hosts of any byte orders |
| RdmaWire.KeysDistinct | mm/nmsg_rdma_client.c:225-226 | two rounds use the same key if and only if their distance is a multiple of 256 |
| RdmaClient.Handler.ClientRecv | mm/nmsg_rdma_client.c:80-96 | the state after the go-ahead, and the size check |
| RdmaClient.Handler.CqEvent | mm/nmsg_rdma_client.c:99-162 | the polling loop: sends and receives before the first failing completion are counted, the state is ERROR exactly if one fails or the poll does, and otherwise it follows from the number of receives (Polled) |
| RdmaClient.PollExact | mm/nmsg_rdma_client.c:112-152 | what any sequence of completions comes to, without following them one by one |
| RdmaClient.Handler.RdmaRkey | mm/nmsg_rdma_client.c:215-253 | advances the key and queues the registration |
| RdmaClient.Handler.StartClient | mm/nmsg_rdma_client.c:440-469 | copies the message, registers, encodes and queues the advertisement, for every pattern of failures |
| RdmaClient.ConnectEnds | mm/nmsg_rdma_client.c:510-515 | after any sequence of connection events the wait for the connection is over exactly if the last event is ESTABLISHED or an error, and succeeds exactly if it is ESTABLISHED |
| RdmaClient.CmaLast | mm/nmsg_rdma_client.c:7-78 | only the last event counts: neither an error nor a connection outlasts a later event |
| RdmaClient.Handler.BindClient | mm/nmsg_rdma_client.c:523-549 | goes on exactly if the last event is ROUTE_RESOLVED, gives up exactly after an error or an early ESTABLISHED, and waits otherwise |
| RdmaClient.Handler.ConnectClient | mm/nmsg_rdma_client.c:493-517 | returns 0 exactly if the last event is ESTABLISHED, -1 exactly after an error, and waits otherwise |
| RdmaServer.Handler.ServerRecv | mm/nmsg_rdma_server.c:90-112 | decodes the advertisement and chooses between READ_ADV and WRITE_ADV |
| RdmaServer.Handler.CqEvent | mm/nmsg_rdma_server.c:116-190 | the same, where the last read or receive decides the state and the advertisement is decoded also if its buffer cannot be posted again (Polled) |
| RdmaServer.PollExact | mm/nmsg_rdma_server.c:131-183 | what any sequence of completions comes to, without following them one by one |
| RdmaServer.Handler.RdmaRkey | mm/nmsg_rdma_server.c:275-314 | advances the key and queues the registration |
| RdmaServer.Handler.RunServerRead | mm/nmsg_rdma_server.c:514-555 | queues the registration, the read of the advertised buffer and the fenced invalidation |
| RdmaServer.Handler.RunServerGoAhead | mm/nmsg_rdma_server.c:557-579 | back to CONNECTED before the go-ahead is queued |
| RdmaServer.Handler.CmaEvent | mm/nmsg_rdma_server.c:16-87 | the state after each connection event; ESTABLISHED leaves it alone |
| RdmaServer.NeverConnected | mm/nmsg_rdma_server.c:45-49 | no sequence of connection events brings the server to CONNECTED |
| RdmaServer.RequestStays | mm/nmsg_rdma_server.c:36-49 | once the connection is requested, ESTABLISHED changes nothing |
| RdmaServer.CmaDecided | mm/nmsg_rdma_server.c:16-87 | the last event other than ESTABLISHED alone decides between error, request and address resolution |
| RdmaProtocol.Handshake | mm/nmsg_rdma_server.c:582-596 | after the handshake the client is CONNECTED, the server is not, and it still takes the first advertisement |
| RdmaServer.AdvertAccepted | mm/nmsg_rdma_server.c:106-109 | the serving thread goes on with an advertisement exactly if it arrives after the go-ahead of the round before |
| RdmaProtocol.RunInv | mm/nmsg_rdma.h:115-121 | the invariant of the two ends, their devices and the network over all runs |
| RdmaProtocol.Delivery | mm/nmsg_rdma.h:115-121 | the buffer at the k-th read completion is the k-th message, and at most one message is under way |
| RdmaProtocol.NoFailure | mm/nmsg_rdma_server.c:106-109 | no region is registered while it is valid, no completion is refused, and the server is never in RDMA_WRITE_ADV |
| RdmaProtocol.KeysInOrder | mm/nmsg_rdma_server.c:529-572 | each read uses the key of its round and that key is invalidated once, after the read |
| RdmaProtocol.NoDeadlock | mm/nmsg_rdma_server.c:668-671 | a round always goes on until the client may send again |
| RdmaProtocol.ClientPolls | mm/nmsg_rdma_client.c:112-152 | polling the whole queue is the run of its completions, one protocol step each |
| RdmaProtocol.ServerPolls | mm/nmsg_rdma_server.c:131-183 | the same for the server |
| RdmaProtocol.RoundCompletes | mm/nmsg_rdma.h:115-121 | after any run that leaves the client ready, a message sent can be delivered and the client be ready again |

## Left out

- Transparent huge pages, TLB and cache flushing, soft-dirty, userfaultfd and young bits, memory cgroups:
  only the success or failure they decide is kept.
- Device-coherent memory and `migrate_device_coherent_page`: chunks are only created as private.
- Shared writable file mappings: a writable mapping is the only mapping of its page.
- Migrations of the same pages by other kernel subsystems at the same time, and several mirrors of one
  process.
- Device accesses and faults in the middle of the device's own migration: own notifications are skipped
  (`hmm.c:279-281`), and the program relies on these not overlapping.
- MADV_DONTNEED on an address whose migration entry is in place or that the migration has just filled,
  and fork of either; munmap and fork wait for the mmap lock.
- get_user_pages on a device page: it is a CPU fault first.
- Failures of `xa_store`, `vmalloc` and copies to and from user space.
- The snapshot command: a finite encoding of permissions.
- The read-back at the end of `dmirror_exclusive`: it is the read loop of `Transfer.DoRead`.
- Timeouts by jiffies are a fault that may give up at any time before it takes the mutex.
- Wrap-around of the counters `calloc` and `cfree`.
- Allocator.Device.RemoveChunks: the pages freed between two removals are a parameter; that they are
  those an eviction empties is `DeviceCommands.EvictChunk`, on the page records.
- Commands.ChunkToDevice: when others run in between, what becomes of an address whose slot setup did not
  keep is not stated: others may unmap or replace it. For the slots that setup kept the end is stated.
- Exactness.PageDone: for a page mapped at several addresses of one piece which of its slots decides is
  not stated; that it moves completely or not at all is.
- SlotResults.DeviceSlotsDone: the same.
- SlotResults.SystemSlotsDone: the same.
- Transfer.RetryBound: with the mm gone there is no bound, because `dmirror_fault` then does nothing.
- Socket and queue-pair setup, address resolution, statistics, and teardown in the RDMA files; a send
  issued before the go-ahead has arrived.
- `mm/mem.c`, `mm/nmsg.c`, `copy.c`, `user.c`, the benchmark in `hash.c` and module initialization.
