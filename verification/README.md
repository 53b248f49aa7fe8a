# Verified models of Determinator

Determinator is an operating system whose processes share nothing while they run and meet only in system calls, so
that a parallel program gives the same result under every schedule.  These Dafny modules model the parts of its kernel
and user library that this promise rests on, and prove what those parts keep, step by step and over whole runs.  The
code modelled is the one built with `LAB >= 9` and `SOL >= 9`.

Check everything with `dafny verify dfyconfig.toml`.

## The parts

**Copy-on-write page maps** (`paging`, `pagemem`, `views`, `private`, `walk`, `frames`, `remove`, `copy`, `pagecopy`,
`spaces`, `faults`, `permissions`, `threeway`, `leafmerge`, `tablemerge`, `joins`, `sharing`, `slotcopy`, `slotmerge`,
`writtenjoin`).  The class `PageMem.PageMaps` holds the pages in use (tables of four levels, data pages), the reference
counts and the free list.  Its invariant says that counts
are exactly the table entries, roots and held references that name a page, that the free list repeats nothing and holds
only unreferenced pages, and that a set of exclusive pages, closed under entries with `PTE_W`, has single references.
The meaning of an address is the flat view `Paging.At` (page, nominal permissions, bytes) together with `Paging.EffW`
(every entry on the way carries `PTE_W`).  Walk, insert, remove, copy, page fault, permission change and merge are methods
that mutate the store as the C code does, each proved against the flat views of all address spaces at once.  `SoleReader`
and `UserWrite` are the isolation that the whole design is for: a page that can be written somewhere can be read nowhere
else.  `UserStore` puts the processor and the fault handler together: the nominal permissions alone decide whether a program's
store succeeds, so sharing and copying on write cannot be noticed.  `JoinIff`, `JoinOrder` and `JoinAnyOrder` are the other half: joining children of one snapshot is a function of
what they wrote, not of the order of joining.  `JoinChildren` carries such a join out from every state by the merge as it
is meant, and `JoinWritten` by the merge as it is written, for states in which every directory on the way is the snapshot's
or nobody else's.  Merges are stated with their permissions and with the pages that a conflict takes away (`ConflictDropped`).
Copy and merge as written descend through tables that may be shared; `PmapCopy` and `PmapMerge` ask for
privacy there, and `SlotCopy`, `SlotMerge` and `WrittenJoins` follow the code without it and say when it keeps its promise.

**Process kernel** (`determinism`, `scheduler`, `budget`).  `Determinism` is the deterministic system of processes that
PUT, GET and RET act on, for any processor and any effect of a system call on a stopped child; steps commute, hence every
complete run has the same outcome, and a parent gets exactly what its children computed (`PutHands`, `GetTakes`, `ForkJoin`).
`Scheduler.Kernel` is the kernel with its ready queue, processors, states and
`waitchild` fields; whatever it schedules when, it carries out a run of that system, so the theorem holds of it
(`SameOutcome`), it neither loses a wakeup nor deadlocks (`SomeoneRuns`), and nobody starves in its queue (`InTurn`).  `Budget.Counted` is the instruction
budget: counter, overshoot, single-stepping, aborted and completed system calls.  It turns out to be exact only as long as
no system call completes while its process is single-stepped (`CountIsExact`), and the safety margin for single-stepping
survives an overflow interrupt exactly if that comes in time (`PerfCtr`).

**Memory allocator** (`trie`, `bestfit`, `bitmap`, `tiling`, `binning`, `mspace`, `cutting`, `resize`, `aligned`).
Boundary tags over a segment, small bins, trie bins, the two bit maps of bins in use, dv and top.  `Mspaces.Mspace` is the
mspace with its fields; `MspaceMalloc`, `MspaceFree`, `MspaceRealloc` and `MspaceMemalign` keep the invariant that the
library's own `do_check` functions test, and state exactly which block becomes live, moves or stops being so, and which
bytes stay.

**Deterministic threads** (`threads`).  The master with its queues, mutexes with owners, request lists and waiters, and
condition variables.  Its invariant: one queue per thread, matching its state; a mutex is requested from its owner exactly
if someone waits; owners are not among their waiters; an unlocked mutex with a blocked owner has no waiters.  It
holds of the initial thread alone, and every operation keeps it, creation of threads, mutexes and conditions included.
Nobody overtakes: waiters obtain a mutex in the order in which they blocked (`WaitersInOrder`).

**Network** (`pagepull`, `migration`).  Pulling a page in three parts, and the migration handshake, under loss, repetition
and reordering of messages.  One reply for each missing part completes a page, whatever else arrives (`PartsArrive`,
`Deliver`), and a handshake always ends once a retransmission and its acknowledgement get through (`Recovers`); `OrderlyIff` says
of every message which delivery breaks it.

**Files** (`reconcile`, `pairing`, `settling`, `dirs`).  One file's merge rules; append-only files over a tree of
processes; the three loops that pair and reconcile two whole file systems; and the path walk that finds and makes files.

**Arithmetic** (`rngs`, `numbers`).  Lehmer streams by Schrage's method, and printing and parsing numbers; `ReadsNumeral` and
`EveryString` say what is read from any string.

## Where the code and its intent part

- A copy descends into destination tables without making them private (kern/pmap.c:627-635), so that a snapshot sharing its
  tables with the destination takes on the copied pages (`SlotCopy.SharedTableLeaks`).  `SlotCopy.CopyExact` says when a copy
  is right nevertheless: exactly if every destination table on the way has a single reference or the pages show the same
  already.  Merge has the same fault and the same kind of exact condition (`SlotMerge.MergeExact`).
- Merge shares a child's tables with its parent where the parent had not changed (kern/pmap.c:810-812).  The merge of the
  next child goes below those tables in place, and so changes what the first child shows (`WrittenJoins.TookShared`,
  `SlotMerge.SeenSlot`).  The join itself comes out right, and the snapshots and the children still to be merged stay what
  they were, under the condition of `JoinWritten`.
- That condition asks that directory entries which name the same table be equal.  Cloning a shared directory takes PTE_W from
  the entries of the clone only (kern/pmap.c:334-357), after which equal tables hide behind unequal entries; a merge then goes
  below a table that the snapshot shares and writes into the snapshot (`SlotMerge.SnapshotTaken`).
- A copy of a shared table's entry onto itself removes it first and so loses it (kern/pmap.c:587-607); `CopyExact` includes
  the case.
- Merge goes below absent tables of snapshot and source by reading the zero page as a table, whose raw entries name physical
  page 0 and not the zero page (kern/pmap.c:814-828).  `SlotMerge.MeantIff` and `NewRegion` say when that is harmless where
  a page table is absent; where a directory is, physical page 0 is itself read as a directory, which is not modelled.  The
  results about `PmapMerge` and `JoinWritten` are for ranges whose tables are there, those about `PmapMergeMeant` and
  `JoinChildren` for the merge as meant.
- Taking all permissions from a range jumps over entries that name the zero page (kern/pmap.c:889-896), so fresh memory that was
  given to a program and not yet written stays writable for it (`Permissions.AfterPermitted`, `Permissions.TakenTooLate`).
- A merged page that had to be copied gets all permissions, whatever the destination's were (kern/pmap.c:733-742); one that had
  not keeps them (`LeafMerge.PmapMergepage`).
- kern/pmap.c:734 and kern/pmap.c:822 compare a kernel pointer with a physical address to recognize the zero page; the
  models test for the zero page.
- An overflow interrupt that is left over from before the process was started again breaks the safety margin, and the
  next single step fails its assertion (`Budget.Counted.PerfCtr`, `LateInterrupt`).
- An exact instruction count needs that no system call completes during single-stepping (`Budget.Counted.CountIsExact`).
- A delayed copy of an old migration request can revive a process (`Migration.TwoOwners`); `Migration.OrderlyIff` says
  exactly which deliveries keep the handshake in order.
- The loop that rounds an alignment up to a power of two does not end beyond 2^63 (`Aligned.RoundingEnds`).
- A file created without being truncated keeps version 0 and stops its parent at the next reconciliation
  (`Settling.NewFileStops`).
- A child's inode that the first loop of the reconciliation turns down for its versions is paired without a check by the second
  (lib/fork.c:244-258), after which an assertion stops the parent (`Settling.CheckUndone`).
- `Random` leaves its states exactly if a stream is seeded with zero, which happens when the clock shows a multiple of
  the modulus (`Rngs.Streams.PutSeed`, `Rngs.Stuck`).

## Model

| member | source | states |
|---|---|---|
| PageMem.PageMaps.MemAlloc | kern/mem.c:360-393 | the page handed out is not in use, not the zero page and has count 0; it is the head of the free list, which loses exactly it; no other count changes; the memory invariant holds (exact counts, free list without repetition holding only unreferenced pages, exclusive pages with one reference) |
| PageMem.PageMaps.NewPage | kern/pmap.c:316-323 | a fresh page gets its first reference, and only its contents are new |
| PageMem.PageMaps.MemIncref | kern/mem.h:162-172 | only this count rises, by one; the page stops being exclusive; it must not be reachable writably, else the invariant would break |
| PageMem.PageMaps.MemFree | kern/mem.c:395-418 | an unreferenced page whose entries are gone leaves the store for the head of the free list |
| PageMem.PageMaps.MemDecref | kern/mem.h:174-191 | dropping one reference releases exactly what nothing else names: surviving pages are unchanged, no count rises, every table of the page's level or above survives, and so does any anchored set of tables; with other references left nothing changes but the count |
| PageMem.PageMaps.FreeTable | kern/pmap.c:203-244 | the recursive release of page directories and tables: everything the dead table names loses one reference and the table itself goes; counts stay exact throughout |
| PageMem.PageMaps.SetEntry | kern/pmap.c:404-406 | storing an entry hands the old entry's reference back and turns a held one into a stored one; counts stay exact |
| PageMem.InvIncref | kern/mem.h:162-172 | the memory invariant survives one more reference to a page not reachable writably |
| PageMem.InvDecref | kern/mem.h:174-191 | the memory invariant survives dropping a reference, and when it was the last one no root and no entry of any table names the page |
| PageMem.InvSet | kern/pmap.c:404-406 | counts, free list and exclusiveness survive storing an entry of any kind in any table |
| PageMem.InvFree | kern/mem.c:395-418 | the invariant survives putting an unreferenced, emptied page on the free list |
| Walk.WalkLevel | kern/pmap.c:293-363 | after a writing walk every table on the way to the address is exclusively owned and entered through PTE_W; every address of every table of the level, shared or not, maps what it mapped with no more write permission; only the entry on the way changes |
| Walk.CreateTable | kern/pmap.c:302-321 | a missing subtree gets an empty table that maps the same absent pages, through this table and all others |
| Walk.UnshareInPlace | kern/pmap.c:323-333 | a lower table with a single reference is used in place, its entries' write permission withdrawn, and no address space sees a difference |
| Walk.UnshareCopy | kern/pmap.c:334-357 | a shared lower table is replaced by a private copy: every page it names is counted once more, the old table once less, and no address space sees a difference |
| Walk.CloneTable | kern/pmap.c:335-351 | the copy loop: the new table holds the old entries without PTE_W, everything they name has one more reference, and nothing so shared stays exclusive |
| Walk.CopyMaps | kern/pmap.c:335-351 | a copy without PTE_W maps at every address what the original maps, with nothing writable |
| Walk.SharedChild | kern/pmap.c:344-350 | what a table that is not exclusively owned names is reachable writably from nowhere, so it may be shared further |
| Walk.LeafAt | kern/pmap.c:293-363 | the recursive meaning of an address is the entry that the walk finds in the page table |
| Faults.PmapWalk | kern/pmap.c:277-291 | the whole address space and all others show what they showed, no page contents change, and the path to the address is private |
| Remove.RemoveEntry | kern/pmap.c:482-495 | clearing a whole entry unmaps exactly its stretch and releases what it named |
| Remove.RemovePart | kern/pmap.c:497-511 | part of an entry: unmapped below a private lower table, everything else as before |
| Remove.RemoveLevel | kern/pmap.c:461-514 | at every level and for every alignment exactly the addresses of the range are unmapped; all other tables of the level, all exclusive tables and all privately reached tables are untouched, and nothing becomes writable |
| Spaces.PmapRemove | kern/pmap.c:437-458 | exactly the range is unmapped in this address space; every other one is what it was |
| PageCopy.ShareEntry | kern/pmap.c:587-607 | sharing a whole entry: the destination stretch maps the source stretch, neither side keeps write permission there, and whatever was there is released |
| PageCopy.TurnWhole | kern/pmap.c:587 | where the destination may be replaced as a whole the loop does so: the alignments of both sides and the remaining length agree at that entry |
| PageCopy.TurnPart | kern/pmap.c:609-621 | the length the loop copies in one turn keeps to one entry on both sides, and leaves a range of the same alignment below it and after it |
| PageCopy.ReadOnlyShared | kern/pmap.c:595-601 | a page named by an entry without PTE_W is reachable writably from nowhere |
| PageCopy.CopyTurn | kern/pmap.c:586-645 | one turn of the loop copies exactly the pages it advances over, for any mix of alignments |
| PageCopy.CopyLevel | kern/pmap.c:573-647 | for every offset in range the destination maps what the source maps and neither side can write there any more; all other addresses of both sides and all other tables of the level are unchanged |
| Copy.CopyLift | kern/pmap.c:623-637 | a copy below one entry of an exclusive table is invisible outside that entry |
| Spaces.PmapCopy | kern/pmap.c:542-568 | after the copy dva+o shows what sva+o shows for every o in range and neither can be written, nothing else changes in the destination, every other address space is what it was, and nobody gains write permission |
| Spaces.AlignedPrivate | kern/pmap.c:627-635 | when a copy needs no privacy of destination tables beyond the root: both ends and the distance aligned to 1 GB, as in copies of the whole user space |
| Sharing.OnlyWay | kern/pmap.c:260-276 | when every table on the way to an address has a single reference, no other address of any space leads to the same table |
| Sharing.AnotherWay | kern/pmap.c:260-276 | when some table on the way has more, another address or space leads to the same table at the same place |
| Sharing.LoneOrAlike | kern/pmap.c:627-635 | whatever is done to entries of a table that a space reaches, every other address of every space sees what it saw exactly if each table on the way has a single reference or the entries show what they showed |
| SlotCopy.ShareSlot | kern/pmap.c:587-607 | one turn of the copy loop on any destination table, shared or not: only that entry of that table changes, and it takes on what the source entry shows, except that an entry copied onto itself is lost |
| SlotCopy.CopySlots | kern/pmap.c:583-645 | the loop over whole entries, on any destination table |
| SlotCopy.CopyDown | kern/pmap.c:609-637 | for a range within one table on either side the loop descends through existing tables, whoever shares them, and changes only the entries of the last one |
| SlotCopy.OneTurn | kern/pmap.c:609-621 | above that table each level makes one turn, the partial one, for all of the range |
| SlotCopy.PmapCopyWithin | kern/pmap.c:542-647 | a copy within one table on either side, as written, keeps its promise to all address spaces exactly if every destination table on the way has a single reference, or the pages show the same already and are not the very same non-empty entries |
| SlotCopy.CopyExact | kern/pmap.c:627-635 | that equivalence, for any outcome of the loop and any snapshot, source and destination |
| SlotCopy.SharedTableLeaks | kern/syscall.c:215-260 | a snapshot that shares its tables takes on the pages copied afterwards: at its root it shows what it showed exactly if it showed those pages already |
| Spaces.PmapNew | kern/pmap.c:164-189 | a new page map shows absent pages everywhere and disturbs nobody |
| Spaces.Unshared | kern/pmap.c:260-276 | on the way to an effectively writable address every page, the data page included, has exactly one reference |
| Spaces.SoleReader | kern/pmap.c:260-276 | no other address of any table, in this or any other address space, shows a page that is writable somewhere |
| Spaces.UserWrite | kern/pmap.c:656-710 | a store at a writable address changes one byte of this address space and nothing of any other |
| Faults.PmapInsert | kern/pmap.c:386-408 | the address maps the inserted page with the given nominal permissions and without PTE_W; what was there is released; all other addresses and spaces are unchanged |
| Faults.OwnPage | kern/pmap.c:689-702 | the faulting address gets a page of its own with the same bytes, or keeps its page when nobody else names it |
| Faults.PmapPagefault | kern/pmap.c:656-710 | a write fault at an address that is not yet effectively writable is handled exactly when the program may nominally write there; then the address shows the same nominal permissions and bytes on a page of its own and is effectively writable, and nothing else changes anywhere; otherwise nothing changes at all |
| Paging.EffWWritable | kern/pmap.c:862-870 | in every state an address that the processor lets a program write is one that its nominal permissions let it write, and has a page |
| Faults.UserStore | kern/pmap.c:648-710 | a store by a program succeeds exactly if the nominal permissions allow it, whoever shares the page; it then changes that byte in that space and nothing else anywhere, and otherwise nothing |
| Permissions.SetPermLevel | kern/pmap.c:880-925 | at every level and alignment exactly the range takes the permissions, contents stay, nothing becomes effectively writable, and without write permission nothing in the range stays so |
| Permissions.SkipPermitted | kern/pmap.c:889-896 | taking all permissions from a stretch without pages changes nothing there, nominal bits of zero mappings included |
| Permissions.PmapSetperm | kern/pmap.c:850-877 | the same for the whole address space; all others are unchanged |
| Permissions.AfterPermitted | kern/pmap.c:863-896 | exactly which addresses of the range can be written afterwards: all if both permissions were given, none otherwise, except that fresh memory which had them keeps all its permissions when all are taken away |
| Permissions.StoreAfterSetperm | kern/pmap.c:850-896 | so a store after setting permissions succeeds in exactly these cases |
| Permissions.TakenTooLate | kern/pmap.c:889-896 | a run in which memory is given to a program and, untouched, taken away again, and the program still writes to it |
| ThreeWay.MergeBytes | kern/pmap.c:741-755 | the byte loop reports a conflict exactly when some byte differs from the snapshot on both sides, and otherwise leaves the three-way merge |
| ThreeWay.Shortcuts | kern/pmap.c:807-812 | the two shortcuts for equal subtrees agree with the byte-by-byte merge |
| ThreeWay.JoinIff | kern/pmap.c:719-759 | joining any number of children of one snapshot succeeds exactly when no byte was written twice, and then every byte is its only writer's |
| ThreeWay.JoinOrder | kern/pmap.c:719-759 | any order of joining any number of children gives the same page, or a conflict in every order |
| LeafMerge.PmapMergepage | kern/pmap.c:719-759 | on a conflict the entry is cleared; otherwise the page holds the byte-by-byte merge, in the entry as it is if nothing else names its page, and on a fresh page with all permissions if it was the zero page or shared; everything else is unchanged and counts stay exact |
| LeafMerge.EntryView | kern/pmap.c:719-759 | what this makes of the entry is the merge of what the three addresses show, with its permissions |
| TableMerge.MergeTake | kern/pmap.c:810-812 | an unchanged destination subtree is replaced by the source's, which is the merge of every page below it; as written only where the source has a table, as meant also where it has none |
| TableMerge.MergeTurn | kern/pmap.c:806-838 | one turn of the loop merges exactly the pages it advances over; equal entries of snapshot and source change nothing at all, and a destination entry that is the snapshot's takes on what the source shows; as written where the tables it goes through exist and are private, as meant everywhere |
| TableMerge.MergeLevel | kern/pmap.c:793-839 | with shortcuts at every level, every address in range shows the three-way merge of snapshot, source and destination: nothing after a conflict, otherwise the merged bytes, with the destination's page and permissions, or the source's where the destination showed the snapshot's, or all permissions on a page of its own; all else is unchanged; as meant this holds from every state |
| TableMerge.WrittenTables | kern/pmap.c:814-828 | where the code as written goes below an entry, snapshot and source have tables there, and the destination too unless at the lowest level |
| Joins.PmapMerge | kern/pmap.c:767-789 | the same for whole address spaces, permissions included; every other one is what it was |
| Joins.PmapMergeMeant | kern/pmap.c:767-839 | the merge as meant, from every state and over every range at the same place in the root entries of both sides: an absent table stands for zero mappings, and the destination gets tables of its own where the merge goes below them |
| Joins.ConflictDropped | kern/pmap.c:751-755 | an address with a byte written on both sides maps nothing after the merge, is not writable for the processor, and a store to it is refused |
| Joins.OthersApart | kern/pmap.c:767-789 | the tables of the other address spaces are out of reach of a change to one address space |
| Joins.JoinedAll | kern/pmap.c:767-839 | merging any number of children of one snapshot, each with its copy of the snapshot, one after another makes of each page the join of what they show; only what is still to be merged has to show what it did |
| Joins.JoinAnyOrder | kern/pmap.c:767-839 | any number of children of one snapshot that wrote disjoint bytes of a page, merged in any two orders, leave the same page, each byte its only writer's |
| Joins.JoinChildren | kern/syscall.c:356-359 | merging any list of children as meant, from every state and over every range, is such a chain: every page to which no byte was written twice holds each byte of its only writer, and no other space changes |
| SlotMerge.MergeSlot | kern/pmap.c:806-838 | one turn at the lowest level as written, on any destination table: only that page changes, and its address shows the merge, with its permissions, of what rpg, spg and dpg point to, which is physical page 0 where a page table is absent; the shortcuts change nothing, or take the source's entry; the kernel stops exactly where a raw entry would be shared |
| SlotMerge.PmapMergeWithin | kern/pmap.c:767-839 | a merge within one page table on each side, as written and whoever shares the tables, keeps its promise to all address spaces exactly if every destination table on the way has a single reference or nothing is merged |
| SlotMerge.MergeExact | kern/pmap.c:814-828 | that equivalence, for any outcome of the loop |
| SlotMerge.MeantIff | kern/pmap.c:814-828 | reading the zero page as a table gives the merge that is meant, for all contents, exactly if the page tables of snapshot and source are both there or both absent, or physical page 0 holds zeros only |
| SlotMerge.NewRegion | kern/pmap.c:814-828 | a page written without conflict in a region that had no page table in the snapshot comes out as meant exactly if physical page 0 holds zeros only |
| SlotMerge.NewRegionMerged | kern/pmap.c:793-839 | the same for a run of the merge over such a region |
| SlotMerge.ShowsStillIff | kern/pmap.c:814-834 | exactly when a space, such as the snapshot or a child still to be merged, keeps showing what it showed: wherever it leads to a merged entry of the page table, the merge changes nothing |
| SlotMerge.SeenSlot | kern/pmap.c:814-834 | a space that leads to the destination's page table, such as the child merged before, takes on the merged pages, or loses those in conflict |
| SlotMerge.SnapshotTaken | kern/pmap.c:334-357 | where snapshot and destination still share a page table, which their directory entries hide if only one has PTE_W, the merge writes the source's page into the snapshot |
| WrittenJoins.TookShared | kern/pmap.c:583-607 | sharing a whole entry makes both spaces lead to the same tables below it |
| WrittenJoins.WrittenTurn | kern/pmap.c:805-838 | one turn of the loop as written, in whatever tables it finds: the destination shows the merge there, with its permissions and nothing after a conflict, by way of its own tables or the source's, and everywhere else all spaces that count show what they showed |
| WrittenJoins.MergeWritten | kern/pmap.c:767-839 | so for the whole merge as written, if every directory entry on the way is the snapshot's or names a table that nothing else leads to |
| WrittenJoins.NextReady | kern/syscall.c:356-359 | that condition survives a merge for all children still to be merged, once the child just merged no longer counts |
| WrittenJoins.JoinWritten | kern/pmap.c:767-839 | joining any number of children as written, the destination taking over tables of those merged before: every page to which no byte was written twice holds each byte of its only writer; snapshots and all spaces but the joined children show what they showed |
| WrittenJoins.ReadyByCounts | kern/pmap.c:323-333 | a caller can tell the condition by the reference counts |
| Determinism.StaysEnabled | kern/syscall.c:166-184 | a step of one process neither changes what another would do next nor keeps it from doing it |
| Determinism.Diamond | kern/syscall.c:152-388 | steps of different processes commute |
| Determinism.ScheduleIndependence | kern/syscall.c:152-388 | a run that has come to rest is as long as any run can get, and every other run at rest has the same processes, registers and memory, the same steps and the same history of every process |
| Determinism.Joinable | kern/syscall.c:152-388 | any two runs, finished or not, can be continued to the same world |
| Determinism.SameHistory | kern/syscall.c:152-388 | however two runs are scheduled, the states a process goes through in one continue or are continued by those in the other |
| Determinism.SomeoneCanStep | kern/syscall.c:166-184 | following from any live process the child it waits for leads to one that can step |
| Determinism.RestMeansStopped | kern/proc.c:180-199 | a world is at rest exactly when every process has stopped |
| Determinism.PutHands | kern/syscall.c:151-272 | in every run, a PUT gives a stopped or new child exactly what the call makes of the parent's and the child's state, and starts it exactly if asked to |
| Determinism.GetTakes | kern/syscall.c:274-381 | in every run, a GET gives the parent exactly what the call makes of its own state and the child's, or of the null process's without a child, and leaves the child alone |
| Determinism.LeftAlone | kern/syscall.c:152-388 | a stopped child keeps its state until its parent steps, whatever else runs |
| Determinism.Computes | kern/syscall.c:152-388 | a started child that computes on its own ends in the state it would end in alone, whatever else runs |
| Determinism.ForkJoin | kern/syscall.c:151-388 | a parent that starts such a child and then gets it receives exactly the child's result, whatever all other processes do meanwhile |
| Scheduler.Kernel.constructor | kern/proc.c:61-107 | the kernel starts with the root process ready and the invariant holding |
| Scheduler.Kernel.ProcReady | kern/proc.c:109-124 | the process goes to the tail of the queue |
| Scheduler.Kernel.ProcSched | kern/proc.c:200-241 | the process at the head runs on this processor and the queue loses exactly it; registers and memory of all processes stay |
| Scheduler.Kernel.ProcYield | kern/proc.c:307-325 | a timer interrupt is invisible to all processes: the process goes to the tail of the queue, the head of the queue takes the processor |
| Scheduler.Kernel.ProcWait | kern/proc.c:179-198 | waiting rolls the system call back: no process's registers or memory change, the process waits for a child of its own that has not stopped, and the head of the queue takes the processor |
| Scheduler.Kernel.ProcRet | kern/proc.c:327-374 | the process stops with the given state; a parent waiting for it takes over the processor, and otherwise the head of the queue does |
| Scheduler.Kernel.DoPut | kern/syscall.c:151-272 | a PUT either waits, leaving all states alone, or is one step of the deterministic system; a child it starts is queued behind all others and the parent goes on |
| Scheduler.Kernel.DoGet | kern/syscall.c:274-381 | the same for a GET |
| Scheduler.Kernel.Step | kern/syscall.c:418-440 | whatever a processor does up to its next kernel entry is at most one step of the process it runs, and exactly which processes are queued and running then |
| Scheduler.Kernel.ScheduledMoves | kern/proc.c:109-241 | whatever a kernel entry does to the ready queue, it adds at the tail and takes from the head |
| Scheduler.InTurn | kern/proc.c:109-241 | so nobody starves in the queue: a process with i others before it comes to the head after exactly i of them have been served |
| Scheduler.SomeoneRuns | kern/proc.c:179-241 | no lost wakeup and no deadlock: as long as some process has not stopped, a descendant of it, or it, is queued or running |
| Scheduler.IdleAtRest | kern/proc.c:200-241 | an idle kernel has carried out a run that is at rest |
| Scheduler.SameOutcome | kern/proc.c:109-374 | two kernels with any numbers of processors and any timer and scheduling decisions end with the same registers and memory in every process, each of which went through the same states |
| Scheduler.SameProgress | kern/proc.c:109-374 | at any moment of two such executions, one history of a process continues the other |
| Budget.PmcExact | dev/pmc.c:94-122 | the number read back is the number of instructions exactly as long as the counter has not come round |
| Budget.PmaxIs | kern/proc.c:265-280 | the 32-bit subtraction gives what is left of the budget less the safety margin |
| Budget.Counted.ProcRun | kern/proc.c:245-292 | the budget left decides between counting, stepping and not running at all |
| Budget.Counted.ProcSave | kern/proc.c:133-171 | on every way out (trap, aborted call, stopping call) the count takes in exactly the instructions completed, and does not pass the limit |
| Budget.Counted.Debug | kern/trap.c:336-350 | a single step counts one instruction and T_ICNT is raised exactly at the limit; the assertion on the margin fails exactly outside the invariant |
| Budget.Counted.PerfCtr | kern/trap.c:351-380 | whenever it comes, an overflow interrupt adds what was executed, so that the count stays right, raises T_ICNT exactly at the limit and goes over to stepping otherwise; the margin is kept exactly if the counter is not armed or has reached its limit |
| Budget.Counted.LateInterrupt | kern/trap.c:336-380 | an interrupt that arrives just after the process was started again makes the following single step fail its assertion |
| Budget.Counted.CallDone | kern/proc.c:151-163 | a system call that completes while its process is being stepped is not counted |
| Budget.Counted.MissedCall | kern/proc.c:151-163 | such a call, from the start: one instruction completed more than counted |
| Budget.Counted.CountIsExact | kern/proc.c:133-171 | whenever a process is not running its count equals the instructions it has completed exactly if no system call completed while it was stepped; the count never passes the limit |
| Trie.BitIsHalf | lib/dlmalloc.c:2271-2320 | the bit the insertion looks at next tells in which half of the subtree's size range a size lies |
| Trie.InsertOk | lib/dlmalloc.c:2271-2320 | insertion adds exactly the chunk and keeps the trie order and the rings of equal sizes |
| Trie.RemoveOk | lib/dlmalloc.c:2339-2408 | unlinking, from a ring or with a leaf as replacement, removes exactly the chunk and keeps order and rings |
| Trie.CollapseOk | lib/dlmalloc.c:2346-2370 | putting a rightmost leaf in place of a removed node keeps order and contents |
| BestFit.IndexRange | lib/dlmalloc.c:1476-1550 | compute_tree_index puts each size in the bin whose range it lies in |
| BestFit.IndexOrder | lib/dlmalloc.c:1476-1550 | sizes in a higher bin are larger than all sizes in a lower one |
| BestFit.InsertLargeOk | lib/dlmalloc.c:2271-2334 | insert_large_chunk adds exactly the chunk to the tree bins and keeps all orders |
| BestFit.UnlinkLargeOk | lib/dlmalloc.c:2339-2408 | unlink_large_chunk removes exactly the chunk |
| BestFit.TopBit | lib/dlmalloc.c:2979-2997 | shifting the size left and testing the top bit goes through the bits of the size that the trie branches on |
| BestFit.WalkBin | lib/dlmalloc.c:2977-2999 | the walk along the bits keeps the best chunk seen and a subtree such that every fitting size of the bin is covered by one of the two |
| BestFit.Smallest | lib/dlmalloc.c:3010-3017 | descending to the left finds the smallest chunk that fits |
| BestFit.TmallocLarge | lib/dlmalloc.c:2971-3039 | for every request the chunk chosen is a smallest one among all tree chunks that fit, found by way of the treemap; dv is preferred exactly when it is at least as good a fit; requests from 2^40 bytes on, whose bin index is truncated, are looked for in a wrong bin and rightly find nothing |
| BestFit.TmallocSmall | lib/dlmalloc.c:3041-3077 | a smallest chunk of all tree bins is chosen, by way of the treemap |
| Bitmap.Marks | lib/dlmalloc.c:1557-1566 | marking and clearing add and remove exactly one bin |
| Bitmap.Left | lib/dlmalloc.c:1572 | left_bits keeps exactly the higher bins |
| Bitmap.Least | lib/dlmalloc.c:1569 | least_bit keeps exactly the lowest marked bin |
| Bitmap.MarkOk | lib/dlmalloc.c:1557-1566 | if a map marks exactly the bins in use, it still does after marking or clearing a bin along with it |
| Bitmap.SmallBitsAre | lib/dlmalloc.c:3848-3870 | the map shifted by the index tells by its two lowest bits whether the bin or the next one is in use, and is zero exactly if none from there on is |
| Bitmap.NextMarked | lib/dlmalloc.c:3000-3008 | left_bits, least_bit and compute_bit2idx together find the next bin in use, as a search through the bins does |
| Bitmap.FirstMarked | lib/dlmalloc.c:3041-3052 | least_bit and compute_bit2idx together find the first bin in use |
| Tiling.NoOverlap | lib/dlmalloc.c:1882-1914 | chunks never overlap |
| Tiling.Take | lib/dlmalloc.c:3850-3868 | handing out a whole free chunk keeps tiling and boundary tags and moves exactly that chunk from the free to the live ones |
| Tiling.Split | lib/dlmalloc.c:3876-3888 | handing out the start of a free chunk leaves the rest as one free chunk, tags and feet agreeing |
| Tiling.SplitTop | lib/dlmalloc.c:3926-3936 | the same for the top chunk |
| Tiling.Merge | lib/dlmalloc.c:3967-4039 | joining everything from one chunk boundary to another into one free chunk keeps tiling and tags, with no two free neighbours |
| Tiling.MergeTop | lib/dlmalloc.c:3996-4007 | the same into the top chunk |
| Binning.SmallOut | lib/dlmalloc.c:2217-2235 | unlinking from a small bin keeps bins and dv holding exactly the free chunks |
| Binning.LargeOut | lib/dlmalloc.c:2339-2408 | the same for a tree bin |
| Binning.SmallIn | lib/dlmalloc.c:2198-2214 | the same for linking into a small bin |
| Binning.LargeIn | lib/dlmalloc.c:2271-2334 | the same for linking into a tree bin |
| Binning.DvOut | lib/dlmalloc.c:3906-3924 | the same for taking dv |
| Binning.DvIn | lib/dlmalloc.c:2257-2267 | the same for a new dv |
| Binning.NothingLeft | lib/dlmalloc.c:3905-3940 | when neither dv nor any bin has a chunk that fits, no free chunk fits |
| Binning.BestSmall | lib/dlmalloc.c:3843-3874 | the first small bin from the request's on that has a chunk has the smallest free chunk that fits, dv apart |
| Binning.BestLarge | lib/dlmalloc.c:2971-3077 | where no small bin fits, the best fit of the trees is the smallest free chunk that fits, dv apart |
| Mspaces.RequestFits | lib/dlmalloc.c:870-895 | the padded size is aligned, leaves room for the request and its head, and is small exactly for small requests |
| Mspaces.Mspace.constructor | lib/dlmalloc.c:2083-2109 | an mspace starts as one top chunk satisfying the heap invariant |
| Mspaces.Mspace.BinOut | lib/dlmalloc.c:2416-2418 | unlinking a chunk from its bin clears the bin's bit exactly if the bin becomes empty: the maps keep marking the bins in use |
| Mspaces.Mspace.BinIn | lib/dlmalloc.c:2412-2414 | so does linking a chunk into its bin |
| Mspaces.Mspace.ExactBin | lib/dlmalloc.c:3848-3856 | the bits chosen by arithmetic name a bin without remainder that has a chunk, or there is none |
| Mspaces.Mspace.LargerBin | lib/dlmalloc.c:3864-3874 | the bit found above is that of the first larger bin that has a chunk, or no larger small bin has one |
| Mspaces.Mspace.Carve | lib/dlmalloc.c:3876-3888 | a chunk is handed out whole or split, its rest going to dv or a bin; exactly one live block is added |
| Mspaces.Mspace.MallocSmall | lib/dlmalloc.c:3843-3895 | a small request takes the smallest free chunk that fits, dv apart, unless dv fits and that chunk would leave a remainder; when nothing is taken, no free chunk but dv can serve it |
| Mspaces.Mspace.MallocLarge | lib/dlmalloc.c:3898-3904 | a large request takes the smallest free chunk that fits unless dv fits as well, or no free chunk but dv fits |
| Mspaces.Mspace.MspaceMalloc | lib/dlmalloc.c:3834-3942 | for every size a word can hold, the block returned is new, aligned, large enough and disjoint from all live blocks, which keep their place and size; it comes from the chunk that best fit prescribes, dv and top taking their turn as described; failure means that no free chunk and not even top fits |
| Mspaces.Mspace.MspaceFree | lib/dlmalloc.c:3949-4048 | exactly the given block leaves the live ones; the result satisfies the whole heap invariant, neighbours being joined |
| Mspaces.Mspace.LiveDisjoint | lib/dlmalloc.c:1848-2109 | in every state live blocks are aligned, inside the segment and pairwise disjoint |
| Cutting.Cut | lib/dlmalloc.c:3100-3109 | cutting a chunk in use makes two chunks in use of it; tiling, tags and all other chunks stay |
| Cutting.Grow | lib/dlmalloc.c:3110-3120 | a chunk in use before top grows into it; tiling, tags and all other chunks stay |
| Resizing.MspaceRealloc | lib/dlmalloc.c:3081-3153 | the block is resized in place exactly if it is large enough or can grow into top, else moved; it keeps its bytes as many as fit, every other block keeps its place, size and bytes; failure changes nothing and means that nothing fits |
| Resizing.CopyBlock | lib/dlmalloc.c:3143-3146 | copying into one live block changes no byte of another |
| Aligned.PositionIs | lib/dlmalloc.c:3181-3198 | the aligned place is always far enough from the start for a chunk before it, and near enough for the room that was asked for |
| Aligned.TrimBlock | lib/dlmalloc.c:3181-3236 | giving back leader and trailer leaves exactly the aligned block live, no smaller than asked and at most 32 bytes larger |
| Aligned.MspaceMemalign | lib/dlmalloc.c:3156-3240 | the block is new, aligned and large enough, and all others stay; failure changes nothing and means that the larger request found no room |
| Aligned.AsAsked | lib/dlmalloc.c:3157-3165 | whoever asks for a power of two gets a multiple of it |
| Aligned.RoundingEnds | lib/dlmalloc.c:3161-3165 | the loop that rounds the alignment up ends exactly if it is at most 2^63 |
| Threads.Master.Create | lib/dsthread.c:640-678 | the first free slot becomes a ready thread at the tail of the ready queue; without one the program panics |
| Threads.Master.MutexInit | lib/dsthread.c:767-774 | a new mutex is free and owned by its creator, and the invariant holds |
| Threads.Master.CondInit | lib/dsthread.c:931-937 | a new condition has no waiters and no wakeups |
| Threads.Master.CondWakeups | lib/dsthread.c:1014-1040 | each signalled condition wakes as many of its first waiters as it has wakeups, in order, onto the ready queue; all wakeups are spent |
| Threads.Master.MutexReqs | lib/dsthread.c:883-916 | each unlocked mutex on the list goes to its first waiter, exactly those, who become ready in the order of the list; the rest stay listed and are locked |
| Threads.Master.TEvents | lib/dsthread.c:213-224 | every unlocked mutex of the thread passes to its first waiter and every signalled condition loses as many of its first waiters as it has wakeups, all of whom join the ready queue in order; afterwards no mutex of the thread is unlocked and waited for |
| Threads.Master.TBlock | lib/dsthread.c:392-429 | a thread queued for something gives way, its events dealt with first, in the same way |
| Threads.Master.TRun | lib/dsthread.c:226-240 | the thread goes to the tail of the run queue, its events dealt with first, in the same way |
| Threads.Master.Sched | lib/dsthread.c:243-390 | ready threads come first and in order, then the results of running threads in turn; one that was not in the library goes to the tail again, its events dealt with first |
| Threads.Master.MutexLock | lib/dsthread.c:785-827 | the thread blocks exactly when another thread owns the mutex and holds it or is running, and then joins the end of the mutex's queue; otherwise it takes it over and no waiter is passed over |
| Threads.Master.MutexGranted | lib/dsthread.c:819-827 | when a blocked thread runs again the mutex is its own and free |
| Threads.Master.MutexUnlock | lib/dsthread.c:856-868 | unlocking keeps ownership and every queue |
| Threads.Master.CondEvent | lib/dsthread.c:947-977 | one more wakeup, or all, exactly if someone waits |
| Threads.Master.CondWait | lib/dsthread.c:991-1010 | the thread joins the end of the condition's queue, and the mutex goes to its first waiter |
| Threads.Master.Join | lib/dsthread.c:680-708 | the thread waits exactly if the other has not finished, and otherwise frees it |
| Threads.Master.Exit | lib/dsthread.c:710-727 | the joiner, if any, is ready again, before those whom the thread's events make ready |
| Threads.Master.OneQueue | lib/dsthread.c:392-441 | between operations each thread is on at most one queue and its state says on which; a running or ready thread is on one |
| Threads.FirstComeFirstServed | lib/dsthread.c:805-816 | over any sequence of operations on a queue, those who have left it are the first who joined, in order, and the others wait in the order in which they came |
| Threads.WaitersInOrder | lib/dsthread.c:785-916 | waiters obtain a mutex in the order in which they blocked, from its creation on |
| PagePull.Parts | kern/net.h:117-121 | the three parts partition the page and fit their packets |
| PagePull.MaskIs | kern/net.c:407-424 | the mask is 7 exactly when all parts have arrived, and its complement names the missing ones |
| PagePull.RequestCovers | kern/net.c:407-483 | a request asks for exactly the missing parts |
| PagePull.Receive | kern/net.c:552-597 | filling in a part keeps every arrived part equal to the source's |
| PagePull.Complete | kern/net.c:580-597 | when the last part is in, the page is the source's |
| PagePull.Pulling.NetPull | kern/net.c:372-405 | the process joins the list with nothing arrived and asks for everything |
| PagePull.Pulling.TxPullrq | kern/net.c:407-424 | every retransmission asks for what is missing then |
| PagePull.Pulling.RxPullrp | kern/net.c:552-597 | whatever arrives, repeated, late, cut short or for another page: a missing part in its length is filled in for the first process that pulls the page, which leaves the list exactly when its page is complete, and then its page is the source's; anything else changes nothing |
| PagePull.PartsArrive | kern/net.c:552-597 | one reply for every missing part, in whatever order, with any repetition and whatever else arrives, is enough for the process first in line to leave the list |
| PagePull.AnswersComplete | kern/net.c:407-597 | so the answers to any one request complete the page |
| PagePull.Pulling.Deliver | kern/net.c:552-597 | for any sequence of replies from the network: after one for every missing part the process has the page of the source |
| Migration.Kept | kern/net.c:204-369 | every step of a handshake, with loss, repetition and reordering, leads from one of its three phases to one of them |
| Migration.SingleOwner | kern/net.c:204-369 | in every such run at most one node holds the process outside MIGR and AWAY, in the state it would have had without moving, and it is never lost |
| Migration.SameState | kern/net.c:270-317 | a node that takes the process over gets the state that was saved when it left |
| Migration.Moves | kern/net.c:204-369 | a migration whose request and reply get through moves the process to the destination, in the state it has, and leaves it away at the source |
| Migration.Recovers | kern/net.c:204-369 | whatever has been lost, and whether or not the destination has the process already, one retransmission that gets through and its acknowledgement end the handshake |
| Migration.ReplySettles | kern/net.c:319-369 | any run in which the reply arrives at least once ends with the process settled at the destination, whatever else is delivered, repeated or lost |
| Migration.TwoOwners | kern/net.c:294-297 | without separation in time two nodes end up with the process: a late copy of a request revives it |
| Migration.OrderlyIff | kern/net.c:204-369 | for every world in one of the three phases and every event, whenever the message was sent: the world stays in a phase exactly if the request reaches a holder or the node it is moving to now with its present state, the reply reaches no only holder, and no migration starts before the last one is finished |
| Migration.OrderlyRunIff | kern/net.c:204-369 | so a run keeps to the phases exactly if all its events are harmless |
| Migration.OrderlyOwner | kern/net.c:204-369 | in the phases there is one owner at most, in the right state, and always one holder |
| Migration.SeparatedHarmless | kern/net.c:204-369 | migrations separated in time are harmless |
| Rngs.SchrageFits | lib/rngs.c:52-69 | every intermediate of the step fits in 32 signed bits |
| Rngs.SchrageIs | lib/rngs.c:52-69 | the step computes a times x modulo 2^31-1 and stays in 1..2^31-2 |
| Rngs.Stuck | lib/rngs.c:52-69 | outside those states the generator never comes back |
| Rngs.AheadState | lib/rngs.c:52-69 | any number of steps stays among the states |
| Rngs.JumpIs | lib/rngs.c:72-99 | the jump multiplier is the multiplier's power for 8,367,782 steps |
| Rngs.CheckIs | lib/rngs.c:156-181 | the check value is the state 10000 steps after state 1 |
| Rngs.Streams.Random | lib/rngs.c:52-69 | the current stream makes one step, all others stay, and the number lies strictly between 0 and 1 |
| Rngs.Streams.PutSeed | lib/rngs.c:102-129 | the seed is a state exactly when the number is positive and no multiple of the modulus, or else the clock's is not one |
| Rngs.Streams.PlantSeeds | lib/rngs.c:72-99 | stream j starts 8,367,782 j steps ahead of stream 0, if stream 0 has a state; otherwise none has |
| Rngs.Streams.SelectStream | lib/rngs.c:143-153 | the index is reduced modulo the number of streams, and unplanted streams are planted first |
| Numbers.Genint | lib/printfmt.c:130-142 | the digits, most significant first, with the sign before them, at the given place and nowhere else |
| Numbers.BufferFits | lib/printfmt.c:144-152 | no 64-bit number in bases 8 to 16 overruns the 30-byte buffer |
| Numbers.Putpad | lib/printfmt.c:95-102 | pads up to the width, which is then used up |
| Numbers.Putint | lib/printfmt.c:104-152 | prints the text padded on the chosen side |
| Numbers.Strtol | lib/string.c:220-265 | the loops compute value and end by the function that ReadsNumeral and EveryString characterize |
| Numbers.WrapsOnce | lib/string.c:244-266 | wrapping around at every digit comes to the same as wrapping around once at the end |
| Numbers.ReadText | lib/string.c:244-259 | the digit loop reads the digits genint wrote as their number, after any number read so far |
| Numbers.ReadPrinted | lib/string.c:220-265 | strtol reads what putint printed as the long that holds the number, for any number, sign, width and padding |
| Numbers.RoundTrip | lib/printfmt.c:130-152 | printing and then parsing gives back every long, for every base from 2 to 16, width and padding |
| Numbers.Field | lib/printfmt.c:95-152 | the field is as wide as asked or as long as the number, which stands on the right, or on the left if so flagged, with blanks otherwise |
| Numbers.ReadsNumeral | lib/string.c:220-265 | for every string made of blanks, sign, prefix, digits of the base and a rest, strtol returns the value of the digits in that base with the sign, wrapped around, and the end of the digits |
| Numbers.EveryString | lib/string.c:220-265 | every string is of this form for every base asked for, so this determines strtol |
| Numbers.UpperSame | lib/string.c:247-254 | capital letters are the same digits |
| Numbers.RoundTripOpen | lib/string.c:220-265 | with the base left open, a long printed with 0x in hexadecimal, a leading 0 in octal, or in decimal, in small or capital letters, with any sign, is read back, and the number ends at the first character that is no digit |
| Reconcile.ReconcileMerge | lib/fork.c:365-434 | appends of both sides end up behind each other's on both sides, or both files are marked when they do not fit; nothing happens when nothing was appended |
| Reconcile.ReconcileInode | lib/fork.c:274-346 | the pair becomes what its versions and lengths decide: merge, conflict, or the changed side on both |
| Reconcile.WhenMarked | lib/fork.c:306-319 | a file is marked exactly when both sides changed and one exclusively, or the appends together exceed the largest file |
| Reconcile.Agreed | lib/fork.c:321-346 | without a conflict both sides end with the same version, mode and length, and those are the recorded ones |
| Reconcile.NoneLost | lib/fork.c:306-346 | an exclusive change on one side only ends up on both sides without a mark; with changes on both sides the file is marked, each side keeps its own, and both take the higher version |
| Reconcile.Idempotent | lib/fork.c:274-434 | a second reconciliation of a pair without conflict changes nothing and returns false |
| Reconcile.ReportedIff | lib/fork.c:274-434 | a pass reports that something was done exactly if the pair changed, or the file is too long and both sides are marked for it already |
| Reconcile.AppendsArrive | lib/fork.c:365-434 | bytes appended on one side stand behind the other side's own afterwards, and a pass reports exactly that there were some |
| Reconcile.SyncIsMerge | lib/fork.c:412-424 | appends in the process tree spread as ReconcileMerge spreads them |
| Reconcile.RunOk | lib/fork.c:365-434 | over any run of appends, forks and reconciliations both sides of every edge agree on each writer's bytes within the reconciled length |
| Reconcile.PrefixOfWriter | lib/fork.c:365-434 | every process holds of every writer's bytes a prefix of what the writer wrote: each byte once and in its writer's order |
| Reconcile.Conservation | lib/fork.c:365-434 | both hold after every run from a single process |
| Pairing.FileState.FileinoCreate | lib/file.c:47-76 | an inode of that name is found, or made in the first free place, or there is none |
| Pairing.CreateKeeps | lib/file.c:47-76 | names stay unique in their directory, no inode in use is touched, and failure means that all are in use |
| Pairing.ReconcileAll | lib/fork.c:184-272 | the three loops compute the pairing and the outcome of every pair, stopping where an assertion fails |
| Pairing.ChildTurnGood | lib/fork.c:200-243 | whatever a child's inode claims about the parent, its turn keeps the two tables inverse and names unique |
| Pairing.ParentTurnGood | lib/fork.c:245-259 | so does a parent inode's turn, which changes nothing in the parent |
| Pairing.MutualInverses | lib/fork.c:184-269 | for any child with unique names, used inodes without gaps, parents before children and blank unused entries, the two tables come out as mutual inverses between inodes of the same name in paired directories, and the parent's inodes stay what they were |
| Settling.PairTurnsDo | lib/fork.c:261-272 | the last loop stops exactly at a pair that is not sound; otherwise each pair becomes what it becomes alone, and something was done exactly if it was for one of them |
| Settling.PairsAll | lib/fork.c:184-259 | with sound references, live directories and room enough no assertion stops the pairing and every file has its counterpart |
| Settling.StopsWhen | lib/fork.c:261-272 | then the whole reconciliation stops exactly at a pair that is not sound |
| Settling.NewFileStops | lib/dir.c:105-118 | a new file still at version 0 is such a pair, so it stops its parent |
| Settling.ChildrenChecked | lib/fork.c:221-241 | whatever a child claims of its versions, the pairs that the first loop makes beyond the special files have recorded versions that neither side is behind |
| Settling.CheckUndone | lib/fork.c:244-258 | an inode turned down for its versions is paired by the second loop nevertheless if the parent's file of that name is left over, and an assertion then stops the parent |
| Settling.SettledStays | lib/fork.c:184-272 | when every file agrees with its counterpart, a reconciliation changes nothing and returns false |
| Settling.SecondPassIdle | lib/fork.c:184-272 | after a reconciliation without conflict every file agrees with its counterpart, so a second one changes nothing and returns false |
| Settling.ForkRefs | lib/fork.c:78-87 | a new child records for each inode the parent's number, version and length |
| Settling.ForkSettled | lib/fork.c:78-87 | a fork starts with every file agreeing |
| Dirs.MatchesIs | lib/dir.c:45-92 | comparing as many characters as the entry's name has, and looking at the one after them, is comparing with the path's first component |
| Dirs.Search | lib/dir.c:39-49 | the first inode of that name in the directory is found, or there is none |
| Dirs.DirWalk | lib/dir.c:19-118 | the whole walk, deleted files and special names included, is the walk from component to component |
| Dirs.WalkKeeps | lib/dir.c:19-118 | walking, whatever it makes, keeps names unique in their directories and touches no inode in use but a deleted one it recreates |
| Dirs.ReferencesKept | lib/dir.c:19-118 | so the references a later reconciliation relies on stay sound, whichever side walks |
| Dirs.PathFinds | lib/dir.c:19-92 | the path of an existing file leads to it from every directory and changes nothing |
| Dirs.UpAgain | lib/dir.c:83-92 | <name>/../<q> leads where <q> does beside it, and ./<q> too, unless the directory has an entry of that very name |
| Dirs.Recreated | lib/dir.c:54-66 | a deleted file is not found, but made again when asked for, empty, and any later reconciliation takes that for an exclusive change |
| Dirs.NewFileFound | lib/dir.c:94-118 | a new name gets a blank inode of that mode in a free place, to which the name leads from then on; which error it is otherwise |

## Left out

- Spaces.PmapCopy: does not cover copies within one address space, nor partial copies into shared destination tables, where the code is wrong in general.
- SlotCopy.PmapCopyWithin: follows the code through shared tables for ranges within one table on either side, not for ranges over several of them, nor where a table on the way is missing.
- SlotCopy.CopyExact: is about the same ranges.
- SlotCopy.CopyDown: is about the same ranges.
- SlotMerge.MeantIff: does not cover absent directories, for which the code reads physical page 0 as a directory.
- SlotMerge.MergeExact: is about ranges within one page table on each side, below all shortcuts.
- SlotMerge.PmapMergeWithin: follows the code through shared and absent tables for ranges within one page table on each side that no shortcut above decides.
- TableMerge.MergeLevel: does not cover ranges that the code itself cannot handle, those not aligned as its loop assumes, nor, as written, ranges below absent tables.
- Joins.PmapMerge: does not cover those ranges either, nor destination tables that are shared; WrittenJoins.MergeWritten covers shared ones.
- Joins.PmapMergeMeant: departs from the code where tables are absent or shared and where the range is not aligned; source and destination range begin at the same place in their root entries.
- Joins.JoinChildren: joins by the merge as meant; WrittenJoins.JoinWritten joins by the merge as written.
- WrittenJoins.JoinWritten: does not cover directories that one space has and another lacks, nor equal tables behind unequal entries, where the code is wrong.
- Faults.PmapInsert: does not cover a page that is reachable writably elsewhere, which would break isolation.
- Faults.PmapPagefault: does not cover a fault at an address that is effectively writable already, where the code stops with an assertion.
- PageMem.PageMaps.MemAlloc: does not model exhaustion of physical memory; several callers ignore it.
- PageMem.PageMaps.SetEntry: does not model the moment between releasing a page and clearing its entry, or between storing an entry and counting it; each pair is one change, as no other code runs in between.
- Spaces.PmapNew: does not model the kernel half of a page map, nor the low table that destroying a page map leaks.
- Remove.RemoveLevel: does not say what happens to the nominal permissions of zero mappings, which may stay or go with their table.
- Determinism.ScheduleIndependence: does not model what registers and memory are; they and the effect of the system calls on caller and child are parameters. It takes copies and merges to change no third process, which the kernel's do where destination tables have single references (Sharing.Lone); the composition with the page maps is not stated.
- Scheduler.Kernel.Step: does not model spin locks and interrupt timing inside the kernel; kernel entries are atomic.
- Budget.Counted.PerfCtr: does not model overshoot beyond pmc_safety, where the kernel panics.
- Mspaces.Mspace.MspaceMalloc: models one segment smaller than 2^40 bytes, and links between chunks of a bin as sequences and trees.
- Resizing.MspaceRealloc: keeps the callers' bytes apart from the tags and links; chunks obtained by mmap are not modelled.
- Aligned.MspaceMemalign: writes the bit masks as divisions; alignments beyond 2^63 are excluded, for which the code does not end.
- Threads.Master.MutexLock: does not model the fair variant (P_MUTEXFAIR) or thread-private copies of the mutex between synchronizations.
- Threads.Master.CondWait: does not cover waiting on a condition with wakeups of one's own outstanding on it.
- Threads.Master.Exit: does not cover exiting with a mutex held, nor detached threads.
- Threads.Master.Create: does not model stacks, entry points and attributes.
- PagePull.Pulling.RxPullrp: does not translate remote references in pulled tables, which is still written for two-level tables; the source's page does not change while it is pulled, and no reply of the right length arrives with altered bytes.
- Migration.SingleOwner: does not cover migrations that overlap in time, where it is false; Migration.OrderlyRunIff covers all runs.
- Reconcile.RunOk: does not go beyond the first conflict, after which the recorded length is stale.
- Numbers.Putint: pads with blanks; the flag for padding with zeros, after which a negative number is not read back, is not modelled.
- Determinism.Computes: is about children that make no calls of their own; Determinism.GetTakes covers every child that has stopped.
- Dirs.DirWalk: does not model the assertions that the directories on the way are directories.
- Pairing.ReconcileAll: does not model directory numbers outside the inode table; sizes are at most the largest file.
- Accessed, dirty and user bits of entries, TLB invalidation, and the addresses of pages (pages are numbers).
- The rest of the allocator (calloc, trimming, further segments).
- trylock, keys and attributes; destruction of mutexes and conditions; thread stacks.
- File descriptors and truncation; console files; wait and exit.
- The pull of a whole address space, remote-reference tracking (mem_rrtrack, mem_rrlookup) and its conversion.
- The root process's input and output, SYS_TIME, SYS_NCPU and SYS_CPUTS, which are not deterministic.
- Floating-point formatting, scanf, the remaining string functions.
- Boot, devices, traps other than the two that count instructions.
