# Memory manager: verification model

The repository simulates the memory manager of an operating system in user mode. Faulting threads,
a trimmer, a modified writer, a list refresher and a zeroing thread move physical pages between the
active, modified, standby, free and zero states, and page table entries (PTEs) between the
unaccessed, valid, transition and disk formats. No single lock covers these moves: they are
coordinated by pagelocks, by compare-exchange on the 64-bit PTE, and by a handful of bits. This
project models that machine in Dafny and proves that its protocol works: every run behaves like flat
memory. Where the source takes in parts what the protocol takes in one step, it shows what that can cost.

## How the model is built

**The machine** (`PageState`, `Protocol`). One step is one atomic change: an interlocked operation on
a PTE, or everything a thread does while it holds one pagelock. There are 38 kinds of step. What
threads keep on their own stacks is stored with the page or virtual page it speaks of: the fault in
progress (`job`), the trimmer's work (`trim`), the page in somebody's hand (`hand`). The numbers of
virtual pages, frames and threads are arbitrary; the disk has two slots more than there are virtual
pages. `deed` is an auxiliary record of why a pagefile slot is used; no step reads it.

**The invariant** (`Invariant`, `Footprint`, `FaultSteps`, `WorkerSteps`, `WriterSteps`). `Inv` relates
a state to the flat memory the user program should see. It is local: a step has to be checked only on
what it changes and what is linked to that. The lemmas called `...Keeps` say that a step keeps it.

**The life cycle** (`LifeCycle`). What the steps do, seen from outside: to which list or into whose hand each
step moves a page, which slots it gives back, what becomes of a page's slot index and mark, and when a PTE
changes its format. Each is stated for every sound state and every step.

**The theorems** (`Refinement`, `Assertions`, `Theorems`, `SlotAccounting`, `DebugChecks`, `Runs`).
Every interleaving of any number of steps keeps `Inv`, so a read through a mapped address returns the
last word written there. The assertions made where a step is taken hold in every reachable state. Dirty
tracking, the trimmer's last compare-exchange, the writer's protocol, slot and page ownership are stated
for every reachable state, without the auxiliary parts. For the checks that do not always hold it is
proved exactly when they do, and `Runs` leads to states in which they fail.

**The gaps** (`RemapGap`, `RemapGapExact`, `ChooseGap`, `ListGap`, `RescueGap`, `FirstTouchGap`). Three
places in which the source takes in parts, and not under one pagelock, what the protocol takes in one step;
one in which it does not wait long enough; and one in which it decides by a PTE that may be somebody else's
by then. Runs of any length of the other threads are put between the parts: when all is well in the end,
and a run in which a word is lost or another page's word is read.

**The threads** (`Interference`, `Machine`, `FaultBatches`, `FaultPages`, `FaultThread`, `TrimThread`,
`WriterThread`, `RefillThreads`). The functions of the source as imperative programs over a shared
`Machine` object, with `Others()` between their steps: any number of steps of any other threads. The
machine records every state of the run (`trace`), the steps the thread itself took (`own`), and the times
it could not go on (`waits`), each with what stood in the way: the lock of a page on a certain list, a page
in somebody's hand, a PTE that the trimmer has not finished or that was rewritten. Its validity says that
these records are true. So a contract can say what a thread did and what it met on the way: which pages it
popped and where each of them went; that there were no pages when it says so; that it gave up only when as
many waits as it had patience for were for the very page, list or PTE that it needs (`Stuck`). What a thread
did to a page or a PTE is said of the states before and after its steps, not by the names of the steps: what a
fault leaves behind is just the access that was asked for, a page that is read in keeps its slot, a PTE that is
marked goes or is spared for its access bit, a page that was cleared is on a zero list. A thread never
finds the state other than its next step needs it, a fault that ends leaves nothing claimed, the trimmer's
buffers never run over, and the writer gets its slots.

**The data structures** (`PageList`, `DiskSlots`, `ReadRights`, `ReadSections`, `ZeroSlots`,
`ColourLists`, `PteFormat`, `Conversions`). Intrusive lists on the heap with both locking phases, the
slot allocator and its counters, the lock sections, the zeroing slots, and the bit layouts. In both phases
of a list operation other threads are at work: while the list lock is shared they leave the links of
locked pages alone, and in the gap they do as they like. What they do, and which page an attempt failed at,
is noted in ghost fields (`log`, `misses`, `taken`), so that a contract cannot put the blame for its own
doings on others.

## Results about the source

Most of what the source promises holds. Where it does not, the model has an input or a run that shows it,
and says when it does:

* A write fault on a page that is mapped read-only maps it read-write, drops its slot and marks it
  modified without the pagelock. With any run of others between the mapping and the drop, and any between
  the drop and the mark, all is well in the end if and only if the page was marked modified before, or the
  writer does not complete it between the drop and the mark; the parts then come to the same as one step
  followed by both runs (`RemapGapIff`). Otherwise the page keeps a slot without the last word written, is
  taken for a clean one, and the word can be lost (`RemapGapCanFail`).
* For a page that is being written to disk the trimmer sets modified status before it unmaps the page.
  A read in the gap is right as long as the page is that of the virtual page, by its PTE or in a fault, and
  is not being filled from disk (`ReadsInGap`). But the writer can complete the page, and it can be given
  away, while it is still mapped: then a read gets what was written to another virtual page
  (`ChooseGapCanFail`).
* A thread that rescues a page on an old copy of its PTE waits for the trimmer to finish the PTE, but its
  wait ends with any change. The commit keeps the page's contents if and only if the PTE is in transition
  format by then, or the page is all zero (`RescueKeepsContentsIff`). An access bit set on the way ends the
  wait too early, and the page is zeroed (`RescueGapCanFail`).
* Between the status of a page and its linking the trimmer holds no lock, so a thread that has an old copy
  of the PTE in transition format can rescue the page (`ListedCanBeRescued`). What a rescue unlinks then is
  linked as it should be if and only if it is not that page (`RescueFindsLinksIff`). Such a thread needs a
  page that was trimmed before; there is a run with one, and it unlinks a page that is on no list
  (`ListGapCanFail`).
* What the commit of first touches does with the slot index of a page depends on the format of the accessed
  PTE, which another thread may have taken out of the batch. For each page the commit keeps the invariant if
  and only if that PTE is in memory format, or, in a read, the page has no index, or, in a write, the page is
  not a standby page or the PTE not in transition format (`CommitIsFineIff`). Otherwise a write gives back
  the slot of a page that is still on disk (`WriteGapCanFail`), and a read leaves a new page with the slot of
  another (`ReadGapCanFail`).
* The writer's minibatches reach every page of a batch if and only if the largest batch is a multiple
  of 32 (`MinibatchesCoverIff`); `WritableIsMultipleIff` says for which numbers of virtual pages it is.
  With whole lock sections that is so up to 32768 virtual pages, and above that for multiples of 2048
  (`WritableForWholeSections`); both sizes in hardware.h qualify, 33280 pages would not.
* The lock of a PTE is the one its section claims to end with if and only if there are at most 512
  virtual pages or a multiple of 512 (`GovernedIff`).
* Asked for no slots, the allocator takes all of them (`AllocateMany`); its only caller asks for one
  or more. Releasing the index one past the last slot would corrupt the counts (`ReleaseSingle`).
* Zeroing slots are used in turn: until the 64-bit counter wraps around, as many tries in a row as there are
  slots go to different slots (`TriesDiffer`). They do so always if and only if the number of slots divides
  2 to the 64 (`AlwaysDifferIff`).
* `va_to_pte` accepts one page more than there are PTEs (`AcceptedIff`).
* The assertion with which every pagefault begins, that the modified list is no longer than the number
  of free pagefile slots, can fail (`ModifiedCanExceedFree`): pages being written can be rescued, written
  to and trimmed again before their old slots are given back. It holds if and only if the number of such
  pages exceeds that of virtual pages that need no slot by one at most (`ModifiedFitsIff`).
* The single-reference check on a pagefile slot fails if and only if a PTE whose fault is in transit
  refers to the slot besides its owner, or besides another such PTE (`SlotCheckFailsIff`,
  `SlotCheckCanFail`).
* The one on frames passes for the PTE that has the frame if and only if the frame is not being claimed
  as a standby page, and, for frame 0, no PTE is unused (`NamesOnlyIff`, `FrameCheckCanFail`,
  `FrameZeroCanFail`).

## Model

| member | source | states |
|---|---|---|
| Refinement.StepKeeps | Machinery/pagefault.c:66-235 | every step of every thread keeps the invariant, against the flat memory that took the same step |
| Refinement.InitialOk | Datastructures/pagelists.c:703-749 | the initial state, all frames on the zero lists, satisfies it |
| Refinement.RunKeeps | vm1.c:300-335 | so does every state of every interleaving, from every number of pages and frames |
| Refinement.ReadsReturnLastWrite | vm1.c:312-319 | a read through a mapped address returns the last word written there, or 0 if there was none |
| Refinement.StampedOrZero | vm1.c:312-319 | if every write stores a stamp of its address, a location reads as 0 or as its own stamp: the check the simulator makes |
| FaultSteps.UserWriteKeeps | vm1.c:312-316 | a user write through a read-write mapping keeps the invariant and is the same write in flat memory |
| FaultSteps.TouchKeeps | Machinery/pagefault.c:1042-1064 | setting the access bit of a valid PTE, whatever its other bits, keeps it |
| FaultSteps.ClaimChangeKeeps | Machinery/pagefault.c:258-279 | so does setting being_changed on a PTE that is neither being changed nor trimmed |
| FaultSteps.RemapKeeps | Machinery/pagefault.c:297-314 | so does mapping a page read-write, with its slot dropped and the page marked modified |
| RemapGapExact.RemapGapIff | Machinery/pagefault.c:297-314 | its three parts, with any runs of others that are possible between mapping and drop and between drop and mark, keep the invariant if and only if the page was modified before or is not completed between drop and mark, and then they come to the same as the one step and both runs |
| RemapGap.RemapAsOne | Machinery/pagefault.c:309-314 | whatever others can do after the one step they can do between drop and mark, to the same effect if the page was modified before or they do not complete it |
| RemapGap.RemapGapCanFail | Machinery/pagefault.c:309-314 | a run in which an unmodified page is completed in the gap, after which the last word written is in no place |
| FaultSteps.FinishChangeKeeps | Machinery/pagefault.c:282-330 | so does writing the new permissions, which a read fault may lower without remapping |
| FaultSteps.ReserveKeeps | Machinery/pagelist_operations.c:1372-1420 | so does popping a page from a zero, free or standby list |
| FaultSteps.ReturnKeeps | Machinery/pagelist_operations.c:1565-1630 | so does returning an unneeded page to the list of its status; a zero page goes back with free status |
| FaultSteps.ClaimFirstKeeps | Machinery/pagefault.c:200-214 | so does claiming an unaccessed PTE for a reserved page, which may still belong to another PTE |
| FaultSteps.CommitFirstKeeps | Machinery/pagefault.c:944-1034 | so does committing it: slot index cleared, zeroed unless it is a zero page, its old PTE left in disk format |
| FirstTouchGap.CommitIsFineIff | Machinery/disk_operations.c:444-481 | with any PTE as the accessed one: the commit of a page keeps the invariant if and only if that PTE is in memory format or the page's index does not depend on it, and then it is the commit of the protocol |
| FirstTouchGap.WriteGapCanFail | Machinery/disk_operations.c:455-461 | a reachable state in which the accessed PTE has left the batch and a write frees the slot that its old owner's disk PTE is made to name |
| FirstTouchGap.ReadGapCanFail | Machinery/disk_operations.c:448-453 | the same for a read, after which the new page keeps the slot of another virtual page |
| FaultSteps.RescueKeeps | Machinery/pagefault.c:417-461 | so does locking and unlinking a page that still points back to the PTE, even on the strength of a stale copy |
| FaultSteps.CommitRescueKeeps | Machinery/disk_operations.c:444-481 | so does committing a rescued page; a write gives back the slot of a standby page |
| RescueGap.RescueKeepsContentsIff | Machinery/pagefault.c:944-1034 | what the commit does to a rescued page in whatever format it finds the PTE: the contents stay exactly if that is transition format, or there is nothing to lose |
| RescueGap.RescueGapCanFail | Machinery/pagefault.c:130-137 | a run in which the wait ends while the PTE is still in memory format, and the commit loses a stored word |
| FaultSteps.TakeRightKeeps | Machinery/pagefault.c:667-676 | so does taking the right to read a disk PTE |
| FaultSteps.DropRightKeeps | Machinery/pagefault.c:706-714 | so does giving it back |
| FaultSteps.CommitDiskKeeps | Machinery/pagefault.c:878-934 | so does committing a page to a disk fault, with the page's index still stale and its old PTE in disk format |
| FaultSteps.FillKeeps | Machinery/disk_operations.c:329-338 | so does copying the slot into the page, which then holds the flat memory's page |
| FaultSteps.SettleKeeps | Machinery/disk_operations.c:491-528 | so does keeping the slot in the page after a read, and giving it back after a write |
| FaultSteps.MapKeeps | Machinery/trim.c:1058-1097 | so does mapping the page, read-write after a write or a first touch, else read-only |
| FaultSteps.FinishKeeps | Machinery/trim.c:1210-1235 | so does writing the valid PTE |
| WorkerSteps.MarkKeeps | Machinery/trim.c:110-120 | so does setting being_trimmed |
| WorkerSteps.UnmarkKeeps | Machinery/trim.c:124-142 | so does taking the mark and the access bit back |
| WorkerSteps.ChooseKeeps | Machinery/trim.c:150-187 | so does deciding where the page goes; one in flight to disk gets modified status and is unmapped |
| ChooseGap.ReadsInGap | Machinery/trim.c:168-171 | with any run of others between the status and the unmapping that does not map the virtual page anew, the rest of the machine goes on as if the page were unmapped, and a read through the old mapping gets the flat memory's bytes as long as the page is that of the virtual page, by its PTE or in a fault, and is not being filled |
| ChooseGap.ChooseGapCanFail | Machinery/trim.c:168-171 | a run in the gap after which such a read gets a word written to another virtual page |
| WorkerSteps.UnhookKeeps | Machinery/trim.c:1280-1294 | so does unmapping |
| WorkerSteps.ListKeeps | Machinery/trim.c:361-394 | so does putting the page on the modified or the standby list |
| ListGap.RescueFindsLinksIff | Machinery/trim.c:361-394 | between status and linking of a page, the page of a rescue is on as many lists as rescue_page takes it to be on if and only if it is another one |
| ListGap.ListedCanBeRescued | Machinery/pagefault.c:426-461 | in the gap nothing but the age of its copy of the PTE keeps a thread from rescuing the page, which is on no list |
| ListGap.ListGapCanFail | Machinery/pagelist_operations.c:1438-1469 | a run, from a state in which a thread can copy the PTE in transition format, to such a rescue |
| WorkerSteps.CopyKeeps | Machinery/trim.c:404-437 | so does reading the PTE and giving up on it unless it is still marked |
| WorkerSteps.SwapKeeps | Machinery/trim.c:439-453 | so does one turn of the compare-exchange loop, with the frame of the first copy |
| WriterSteps.PopKeeps | Machinery/trim.c:817-849 | so does popping a modified page, which joins the batch unless it is being written already |
| WriterSteps.AllotKeeps | Machinery/trim.c:863-865 | so does taking slots for the batch, and there is one for each page |
| WriterSteps.StoreKeeps | Machinery/trim.c:910-918 | so does copying a page to its slot, even if the user writes to it meanwhile |
| WriterSteps.CompleteKeeps | Machinery/trim.c:921-993 | so does completing a page: to standby with the slot, rescued with the slot kept, or slot given back |
| WriterSteps.NextBatchKeeps | Machinery/trim.c:792-797 | so does starting over once every page is completed |
| WorkerSteps.TakeOldKeeps | Machinery/pagelist_operations.c:1257-1277 | so does popping a standby page to repurpose it |
| WorkerSteps.DetachKeeps | Machinery/pagelist_operations.c:77-102 | so does forcing its PTE to disk format, whatever the trimmer has left there |
| WorkerSteps.AddFreeKeeps | Machinery/pagelist_operations.c:108-162 | so does adding it to a free list |
| WorkerSteps.AddZeroSlotKeeps | Machinery/pagelist_operations.c:1040-1050 | so does putting it in a zeroing slot, unlocked and with zero status |
| WorkerSteps.TakeZeroSlotKeeps | Machinery/pagelist_operations.c:236-248 | so does taking it from the slot |
| WorkerSteps.ClearKeeps | Machinery/pagelist_operations.c:324-334 | so does zeroing it |
| WorkerSteps.AddZeroKeeps | Machinery/pagelist_operations.c:168-223 | so does adding it to a zero list, with free status |
| WriterSteps.SlotsSuffice | hardware.h:43-58 | while the writer collects, more slots are free than its batch has pages: used slots are owned by different virtual pages, none of which has a page in the batch |
| WriterSteps.OwnersDiffer | Machinery/debug_checks.c:187-246 | different used slots are accounted to different virtual pages |
| LifeCycle.PagesMove | Machinery/pagelist_operations.c:1426-1469 | where each of the 38 kinds of step moves a page, by the page's slot, status and flight, and that it moves no other |
| LifeCycle.PagesFollowArrows | Machinery/pagelist_operations.c:168-223 | no step takes a page along any way but those of its life cycle: only cleared pages and zero pages given back come to a zero list, only a page at rest is rescued |
| LifeCycle.PagesKeep | Machinery/disk_operations.c:444-528 | which steps change the slot index and the mark of a page, and to what |
| LifeCycle.SlotsMove | Machinery/disk_operations.c:404-433 | a used slot becomes free if and only if its owner is about to be written to or was written to on its way to disk, and a free one is used if and only if it is allotted |
| LifeCycle.FormatsMove | Datastructures/pagetable.h:56-135 | which steps change the format of a PTE; one whose page is repurposed names the page's slot |
| Assertions.AssertsHold | Machinery/debug_checks.c:253-262 | in every reachable state, whatever step comes next, the assertions the source makes with that step hold, pages are unlinked only while on a list and linked only while on none |
| SlotAccounting.FreeSlotsAccount | Machinery/pagefault.c:69 | the free slots and the pages on the modified list, accounted for by virtual pages |
| SlotAccounting.ModifiedFitsIff | Machinery/pagefault.c:69 | exactly when the first assertion of pagefault holds in a reachable state |
| SlotAccounting.ModifiedCanExceedFree | Machinery/pagefault.c:69 | a run after which it fails: two pages are modified and one slot is free |
| SlotAccounting.SlotZeroIsUsed | Machinery/pagefault.c:70 | the second one holds in every reachable state |
| Theorems.WritableIsDirty | Machinery/pagefault.c:298-318 | a page mapped read-write has no slot kept, and if it is being written to disk it is marked modified |
| Theorems.KeptSlotIsCopy | Machinery/trim.c:930-941 | a slot kept for an active or resting page is in use, holds the page's bytes, and the page is mapped read-write nowhere |
| Theorems.MarksAreTheTrimmers | Datastructures/pagetable.h:62-102 | being_changed and being_trimmed are never both set, and the latter only while the trimmer has the PTE in its buffer |
| Theorems.SwapIsSafe | Machinery/trim.c:404-455 | the trimmer's compare-exchange replaces only its own mark, with the right frame, unmapped and resting for this PTE |
| Theorems.WritingIsUnfinished | Machinery/trim.c:830-847 | writing_to_disk holds for exactly the uncompleted pages of the batch, and no page is in it twice |
| Theorems.CompletionOutcome | Machinery/trim.c:925-993 | a completed page is on standby with the slot, or rescued with it, or the slot is free; exactly one of these |
| Theorems.RestingIsListed | Machinery/pagelist_operations.c:1438-1469 | an unlocked page of modified status is on the modified list unless it is being written and unmodified; one of standby status is on the standby list |
| Theorems.BatchGetsItsSlots | Machinery/trim.c:863-865 | an allocation for a collected batch returns a slot for every page |
| Theorems.AllocatorServesWriter | Machinery/disk_operations.c:354-396 | the slots the allocator finds in the status array are such an allocation, and the array stays in step |
| Theorems.UsedIffOwned | Machinery/disk_operations.c:404-528 | a slot other than 0 is in use exactly if a virtual page owns it, by its disk PTE, its page or the batch |
| Theorems.OwnedOnce | Machinery/debug_checks.c:187-246 | a slot has at most one owner, in one way |
| Theorems.EachPageIsSomewhere | Machinery/pagelist_operations.c:1426-1469 | every page is in exactly one place: on one list, active, on its way to disk, or in a thread's hand |
| Theorems.AvailableIsExact | Machinery/pagelist_operations.c:1426-1432 | total_available_pages is the number of pages on the zero, free and standby lists |
| Theorems.PtePointsBack | Machinery/pagefault.c:426-431 | a valid or transition PTE names a page that points back to it, unless it is claiming it |
| Theorems.FramesAreDistinct | Machinery/debug_checks.c:18-64 | two PTEs name one frame only while exactly one of them is claiming it from the other, as a standby page |
| Theorems.FirstTouchReadsZero | Machinery/pagefault.c:976-997 | a page committed to a first touch is all zero, and so is every page on a zero list |
| DebugChecks.SlotIsSinglyAllocated | Machinery/debug_checks.c:190-246 | the scan reports exactly whether two PTEs refer to the slot |
| DebugChecks.SlotCheckFailsIff | Machinery/debug_checks.c:190-246 | in a reachable state two PTEs refer to a slot if and only if one whose fault is in transit does besides the slot's owner, or besides another in transit |
| DebugChecks.SlotCheckCanFail | Machinery/debug_checks.c:190-246 | a run after which the check on a slot fails |
| DebugChecks.FrameIsSinglyAllocated | Machinery/debug_checks.c:22-64 | the scan reports exactly whether one PTE, and no other, names the frame, and breaks exactly for a free page or a second PTE |
| DebugChecks.NamesOnlyIff | Machinery/debug_checks.c:22-64 | in a reachable state the PTE that has a frame is the only one to name it if and only if the frame is not being claimed as a standby page and, for frame 0, no PTE is unused |
| DebugChecks.FrameCheckCanFail | Machinery/debug_checks.c:43-57 | a run after which two PTEs name a frame other than 0 |
| DebugChecks.FrameZeroCanFail | Machinery/debug_checks.c:43-57 | a run after which the check fails for frame 0, in use, because a PTE is unused |
| Interference.FaultIsExclusive | Machinery/pagefault.c:258-279 | while a fault on a PTE is in progress no other thread can start one there |
| Interference.ForeignStepKeeps | Machinery/pagefault.c:150-160 | a step of another thread leaves a thread's faults, its pages and its worker's state alone |
| Machine.Machine.Do | Machinery/pagefault.c:66-235 | a thread's own step changes the shared state as the protocol says, keeps the invariant, prolongs the run and is on record |
| Machine.Machine.Others | Machinery/trim.c:404-431 | any number of steps of other threads keep the invariant and what belongs to this thread |
| FaultThread.Pagefault | Machinery/pagefault.c:66-235 | under any interference every handler finds the state as it needs it; each PTE that is connected gets just the access it was connected for at the time it is written, the accessed one that of the fault; a page read in keeps its slot, a page to be written to has lost it and is marked modified; a PTE of the window is left out, or the fault fails, only if it came too late, could not be locked or there were no pages; it still waits only after as many failed attempts as it has patience for, in the end all for a standby page, for the page of the PTE or for the trimmer to finish a PTE of the window; a fault that ends leaves nothing claimed |
| FaultThread.ValidFault | Machinery/pagefault.c:255-333 | a valid fault gives the PTE just the permissions of the access, or finds the PTE changed or claimed by somebody else; for a read the thread changes no page, slot, list or mapping |
| FaultThread.UnaccessedFault | Machinery/pagefault.c:342-404 | first touches of the PTE and those ahead; one is left out only if it was no longer unaccessed or all lists were found wanting; all are mapped read-write, and only the page of a write is marked modified |
| FaultThread.StillUnused | Machinery/pagefault.c:163-183 | keeps exactly the PTEs that are still unaccessed, in order |
| FaultThread.ClaimAll | Machinery/pagefault.c:200-217 | under the PTE lock, with threads at work that do not need it, claims each PTE for a page of its own |
| FaultPages.ReturnRest | Machinery/pagefault.c:185-196 | under the PTE lock, gives back exactly the pages beyond those needed; the PTEs stay unaccessed |
| FaultPages.FindPages | Machinery/pagelist_operations.c:1372-1420 | the pages found are distinct and in the thread's hand, and as many as wanted unless the zero and free lists of every colour failed and the standby list was empty; it gives up only after as many failures at pages on the standby list as it has patience for |
| FaultPages.FromColours | Machinery/pagelist_operations.c:897-956 | goes on from colour to colour until there are enough pages or every colour in a row has failed, its list being empty or a page on that list locked |
| FaultThread.TransitionFault | Machinery/pagefault.c:416-543 | rescues the PTE and those ahead; one is passed over only if it was not in transition format, its page was no longer to be had, or could not be locked; all but the PTE of a write become read-only; it fails only if the page no longer is the PTE's |
| FaultThread.AwaitTransition | Machinery/pagefault.c:122-137 | once waited for, a PTE being rescued stays in transition format; it gives up only after as many looks at PTEs of the batch not in that format as it has patience for |
| FaultBatches.StageStep | Machinery/pagefault.c:944-1034 | at each stage of a fault the next step is possible and leads to the stage after it |
| FaultBatches.Advance | Machinery/pagefault.c:959-1033 | one loop of a handler takes every PTE of the batch one stage further |
| FaultThread.DiskFault | Machinery/pagefault.c:728-793 | reads the PTEs for which it gets the right and a page; one is left out only if its right could not be had or there were no pages; all but the PTE of a write become read-only, with pages that keep the slots they were read from; it reports a race only if the right to the accessed one could not be had |
| FaultThread.TakeRights | Machinery/pagefault.c:620-682 | the rights taken are for distinct PTEs of the window, for each that is missing the right could not be had at some time, and the accessed one can only be first |
| FaultThread.DropRights | Machinery/pagefault.c:691-718 | with all other threads at work, gives back the rights for all but the first PTEs |
| FaultThread.CommitAll | Machinery/pagefault.c:878-934 | commits a page of its own to each PTE whose right is held |
| FaultBatches.FinishAll | Machinery/trim.c:1170-1239 | what each PTE, its mapping and its page are at the moment the PTE is written, by its former format and the access |
| TrimThread.TrimInformation.constructor | Machinery/trim.c:540-577 | the buffers have room for all threads' buffers, and for the target |
| TrimThread.TrimInformation.StorePte | Machinery/trim.c:144-189 | a PTE is stored once, its page in at most one of the page buffers |
| TrimThread.TrimSingle | Machinery/trim.c:106-192 | a PTE whose mark goes through is spared if and only if the copy was accessed and accessed PTEs are not trimmed, and else chosen to go by the next step of the trimmer; a mark that fails means that somebody else changed the PTE |
| TrimThread.MarkBehind | Machinery/trim.c:202-279 | any contents of any number of threads' buffers fit in the trimmer's; each entry of a buffer with enough of them is dealt with and taken out, or is still there because the trimmer has as many PTEs as it wants |
| TrimThread.MarkSection | Machinery/trim.c:289-341 | a section adds at most 96 PTEs; each PTE is chosen to go, or spared for its access bit, or somebody else had it, up to where the section's counter, the 96 or the target ends the pass |
| TrimThread.UnmapAll | Machinery/trim.c:1280-1294 | unmaps every PTE of the buffer that is still mapped |
| TrimThread.ListAll | Machinery/trim.c:361-394 | lists every page of the page buffers, each once |
| TrimThread.SwapLoop | Machinery/trim.c:439-453 | under any interference the loop ends with the PTE finished, or after as many failed exchanges of this PTE as there was patience |
| TrimThread.DoneIsNotMarked | Machinery/trim.c:416-437 | a PTE the trimmer is done with does not pass its tests |
| TrimThread.Flush | Machinery/trim.c:348-456 | when it gets to the end the trimmer is done with every PTE in the buffers; it stops short only after as many failed exchanges of buffered PTEs as there was patience |
| TrimThread.TrimSections | Machinery/trim.c:462-512 | flushing at half the target leaves room for every section of every page table, and every section is passed, with accessed PTEs trimmed as well where pages are scarce |
| TrimThread.TrimmingEnds | Machinery/trim.c:398-455 | over every run: a PTE that was chosen to go stays so until it is in transition format with its frame or somebody else rewrites it |
| TrimThread.TrimOnce | Machinery/trim.c:621-646 | a turn of the trimmer deals with the threads' buffers, passes every section and deals with the buffers again; every PTE that it had chosen to go at any time has then been put in transition format or was rewritten by somebody else, and no PTE is left marked; it stops short only after as many failed exchanges as there was patience |
| WriterThread.Collect | Machinery/trim.c:799-853 | each attempt pops a page into the batch or fails at one that is on the modified list and locked, or has left it since the loop began; the loop ends early only if the modified list was empty |
| WriterThread.FindSlots | Machinery/disk_operations.c:354-396 | finds as many free slots as asked for, or all |
| WriterThread.MinibatchesCoverIff | Machinery/trim.c:889-907 | the minibatches get to every page of every batch exactly if 32 divides the maximum |
| WriterThread.WritableIsMultipleIff | Datastructures/disk.h:56-57 | for which numbers of virtual pages it does |
| WriterThread.WritableForWholeSections | Datastructures/disk.h:56-57 | the same for page tables of whole lock sections, and how many pages are lost with 33280 |
| WriterThread.CopyRange | Machinery/trim.c:910-918 | copies each entry of a minibatch once |
| WriterThread.CompleteRange | Machinery/trim.c:921-993 | completes each entry of a minibatch once, after it was copied; it stops short only after as many waits for pages of the batch in somebody's hand as there was patience |
| WriterThread.WriteMinibatches | Machinery/trim.c:904-996 | all minibatches together complete every entry, or the pages of the batch have been waited for as often as there was patience |
| WriterThread.WriteBatch | Machinery/trim.c:766-1022 | in a turn of the writer every page it pops is in the batch, every page of the batch has had a slot, was copied and completed, and no page is left marked as being written; each attempt it is allowed pops a page or fails at one on the modified list, unless that was empty; it stops short only in waiting for pages of its batch |
| RefillThreads.DetachAll | Machinery/pagelist_operations.c:77-102 | for each popped page its old PTE was put in disk format, with the page's slot, under any interference |
| RefillThreads.RefreshLists | Machinery/pagelist_operations.c:976-1065 | the thread takes as many pages off the standby list as wanted or finds it empty, leaves the old PTE of each in disk format with its slot, and only then is each on a free list or in a zeroing slot, as many as the proportion says to free lists first; it gives up only after as many failures at locked pages on the standby list as there was patience |
| RefillThreads.PopulateZeroLists | Machinery/pagelist_operations.c:305-347 | the thread takes every page that waits in a slot; after the step that clears a page it is all zero, and after a later one it is on a zero list and no free list; the thread does nothing else |
| ZeroSlots.PageZeroing.Refresh | Machinery/pagelist_operations.c:1000-1057 | the popped pages are split: the first ones to free lists, a run of them to slots in turn, the rest to free lists only if a slot was not open; no waiting page is lost, and the asserted sums hold; with all slots open and no more pages than slots none is sent on before the counter wraps |
| ZeroSlots.PageZeroing.FillSlots | Machinery/pagelist_operations.c:1145-1174 | the counter goes up by one with each try, and pages go to the slots it names in turn, until one is not open, while the zeroing thread empties slots; no page in a slot is lost |
| ZeroSlots.PageZeroing.Fill | Machinery/pagelist_operations.c:1026-1053 | a claimed slot becomes ready with the page in it, with the zeroing thread at work between any two actions; the page waits or was taken |
| ZeroSlots.PageZeroing.GetPagesToClear | Machinery/pagelist_operations.c:232-252 | whatever the refresher is in the middle of: takes exactly the pages that wait, in slot order, and leaves no slot ready |
| ZeroSlots.SlotEmpties | Machinery/pagelist_operations.c:245-247 | emptying a ready slot takes away its page and no other |
| ZeroSlots.TriesDiffer | Machinery/pagelist_operations.c:30-32 | as many tries in a row as there are slots go to different slots until the counter wraps |
| ZeroSlots.AlwaysDifferIff | Machinery/pagelist_operations.c:30-32 | for which numbers of slots they always do |
| ColourLists.PageLists.AddBatch | Machinery/pagelist_operations.c:108-162 | each page goes once to the list of its own colour for any order of the array, and the counters rise by the number of pages |
| ColourLists.PageLists.AddSorted | Machinery/pagelist_operations.c:126-159 | adds the pages run by run |
| ColourLists.PageLists.Sort | Machinery/pagelist_operations.c:59-70 | sorts with a comparison that may order the array in any way: a permutation |
| ColourLists.OfColourPermuted | Machinery/pagelist_operations.c:111-115 | which pages of a colour there are does not depend on the order |
| PageList.PageList.constructor | Datastructures/pagelists.c:706-719 | a new list is empty and its links are inverse |
| PageList.PageList.TryLock | Datastructures/pagelists.c:189-219 | fails on a pagelock the thread holds, and may fail on any other |
| PageList.PageList.UnlinkBatch | Datastructures/pagelists.c:305-400 | the list loses exactly the batch and keeps its order, for every outcome of the try-locks, every hand-over and everything others are noted to have done in either phase; locks are as before |
| PageList.PageList.UnlinkWhileShared | Datastructures/pagelists.c:319-370 | the first phase removes a prefix of the batch, with other holders of the shared list lock at work between any two actions |
| PageList.PageList.LockNeighbours | Datastructures/pagelists.c:327-341 | while a thread holds a page, its neighbours stay, until both are locked, or the locks are given back |
| PageList.PageList.UnlinkAlone | Datastructures/pagelists.c:378-397 | the second phase removes the rest |
| PageList.PhasesMeet | Datastructures/pagelists.c:370-399 | removing a batch in two goes, with others in between, is removing it at once |
| PageList.PageList.UnlinkPage | Datastructures/pagelists.c:409-465 | the same for one page |
| PageList.PageList.InsertSection | Datastructures/pagelists.c:476-546 | the section goes in front of the list; its pagelocks are released on request, all others are as before |
| PageList.PageList.InsertShared | Datastructures/pagelists.c:561-591 | the first phase inserts the section in front of what others have made of the list, or leaves that as it is |
| PageList.PageList.RemoveShared | Datastructures/pagelists.c:623-651 | the first phase takes the locked tail end off what others have made of the list, or leaves that as it is |
| PageList.PageList.RemoveSection | Datastructures/pagelists.c:618-663 | takes the locked pages off the tail end |
| PageList.PageList.AcquireTail | Machinery/pagelist_operations.c:617-638 | locks the oldest page, or finds the list empty, unless as many attempts failed as there was patience, each at a page that was on the list when the thread looked |
| PageList.PageList.AcquireBatch | Machinery/pagelist_operations.c:645-692 | the pages locked are the oldest of the list, in order, whatever others insert and unlink: as many as asked for or the whole list, unless as many attempts failed at pages of the list as there was patience |
| PageList.PageList.PopBatch | Machinery/pagelist_operations.c:1257-1277 | removes exactly the pages it locked, which were the oldest at that time: as many as asked for or all there were, unless as many attempts failed at pages of the list as there was patience |
| PageList.OldestStay | Machinery/pagelist_operations.c:667-680 | other threads cannot break up the locked tail end |
| PageList.CreateChain | Machinery/pagelist_operations.c:1719-1741 | links the pages in array order and gives each the new status |
| DiskSlots.SectionsTile | Datastructures/disk.c:46-75 | for every disk size the sections tile the padded array, and the padding neither wraps nor reaches a whole section |
| DiskSlots.Disk.constructor | Datastructures/disk.c:84-125 | slot 0 and the padding are used, all others free, and the counts are right |
| DiskSlots.CountsAddUp | Datastructures/disk.c:106-125 | the counts of the sections add up to the free slots |
| DiskSlots.Disk.AllocateInSection | Machinery/disk_operations.c:368-388 | takes the lowest free slots of a section, until there are enough |
| DiskSlots.Disk.AllocateMany | Machinery/disk_operations.c:354-396 | returns the lowest free slots, as many as asked for or all; asked for none it takes all |
| DiskSlots.Disk.ReleaseSingle | Machinery/disk_operations.c:404-433 | frees the slot and counts it, or refuses; the counts stay right unless the index is one past the last |
| DiskSlots.ReleaseInverts | Machinery/disk_operations.c:421-425 | releasing what was allocated, in any order, undoes it |
| DiskSlots.InOwnSection | Machinery/conversions.c:164-173 | a slot is in the section its index names, and in no other |
| ReadRights.GovernedIff | Machinery/conversions.c:80-93 | for which page tables the section of a PTE ends where it says |
| ReadRights.InitializePagetable | Datastructures/pagetable.c:21-74 | no PTE is accessed, and the sections are told where they end |
| ReadRights.FindUnread | Machinery/pagefault.c:556-608 | finds all unread disk PTEs of the window, in order, and where they leave the section of the first |
| ReadRights.SectionsNearby | Machinery/pagefault.c:650-665 | a window of 16 touches two sections at most, the second from the switch on |
| ReadRights.PageTable.Acquire | Machinery/pagefault.c:620-682 | visits the PTEs that looked unread, each under the lock of its own section, and takes exactly those that still are; no right is given twice, no lock is left |
| ReadRights.PageTable.ReleaseRights | Machinery/pagefault.c:691-718 | each PTE is as it was before its right was taken, with its slot, and can be read by others again; the others stay as they are |
| ReadSections.Sections.Acquire | Machinery/disk_operations.c:132-159 | takes the section after the last one used, in a circle, if it is open |
| ReadSections.Sections.Refresh | Machinery/disk_operations.c:185-220 | opens the thread's sections and no others |
| ReadSections.Sections.Read | Machinery/disk_operations.c:289-340 | one refresh is enough, and the section used is the thread's own and left to be flushed |
| PteFormat.RoundTrip | Datastructures/pagetable.h:56-135 | a PTE can be read back from its 64 bits |
| PteFormat.WordsAreEqualIff | Datastructures/pagetable.c:131-133 | comparing words is comparing PTEs |
| PteFormat.FormatsAreRecognized | Datastructures/pagetable.c:97-125 | the format tests recognize what was written |
| PteFormat.FormatsExclude | Datastructures/pagetable.c:97-125 | no word has two formats, and which have none |
| PteFormat.TrimmerTestsAreExact | Machinery/trim.c:416-437 | the flags tested on a PTE of any format say whether it is still marked |
| PteFormat.ReadOnlyMaskFallsOff | Machinery/trim.c:1193-1223 | the read-only mask does not get into the stored frame number |
| Conversions.PteRoundTrip | Machinery/conversions.c:60-74 | from a PTE to its address and back |
| Conversions.VaRoundTrip | Machinery/conversions.c:22-36 | from an address to its PTE and back to the start of the page |
| Conversions.AcceptedIff | Machinery/conversions.c:30-33 | which addresses are accepted |

## Left out

Steps that the source leaves a small window in are taken together. Each of these is an assumption; for
the first five, the modules of the gaps show what it hides:

- RemapKeeps: mapping, dropping the slot and setting `modified` take no pagelock in the source (Machinery/pagefault.c:297-314); here they are one step, also against the writer's completion. RemapGapIff says exactly when that makes a difference.
- ChooseKeeps: for a page in flight the trimmer sets modified status before it unmaps (Machinery/trim.c:168-171); here it unmaps in the same step. ReadsInGap says what stays right otherwise.
- ListKeeps: `create_chain_of_pages` sets the status before the page is linked (Machinery/trim.c:362-386); here both are one step. RescueFindsLinksIff says for which rescues that makes a difference.
- CommitRescueKeeps: the wait of Machinery/pagefault.c:130-137 ends with any change of the PTE; here it ends when the PTE is in transition format. RescueKeepsContentsIff says what happens otherwise, for a batch of one page.
- CommitFirstKeeps: `handle_non_disk_fault_batch_disk_slots` looks at the accessed PTE even when it is not in the batch; here it is taken to be in the batch or still in memory format. CommitIsFineIff says what happens otherwise.
- ClaimFirstKeeps: the PTE built at Machinery/pagefault.c:204 is not cleared first; its other fields are taken to be 0.
- SettleKeeps: a write fault gives the slot back before the PTE leaves disk format (Machinery/disk_operations.c:508-511); ownership of the slot ends there, although the PTE still names it.
- LockNeighbours: the two writes that take a page out, done under three pagelocks, are one step; so are those that put a section in or take one off.

What the model abstracts from:

- StepKeeps: steps are atomic and memory is sequentially consistent; the work under one pagelock is one step, and the copy of a page is one step.
- AssertsHold: covers the assertions made with a step of the protocol. That `zero_lists->total_available` is not below 0 says nothing of an unsigned counter; the assertions on thread identities and on who holds a lock are not modelled, as threads have no names here.
- ModifiedFitsIff: counts the pages on the list and the free slots. The fields `list_length` and `total_available_slots` lag behind these while a thread is in the middle of an operation.
- Pagefault: which PTEs ahead a thread speculates on, from which colour on it looks for pages and in which order of lists is left open; so are the proportions that decide it. Where the source spins, `patience` bounds the failed attempts, each of which is on record with what stood in the way. Invalid access types and thread indices are not modelled.
- FindPages: a page of a free or zero list that cannot be locked counts as one failure with its colour; after half of its failures the source would spin there.
- EnterPteLock: which PTEs a lock covers is left to module ReadRights; the thread holds the lock of the PTEs it names.
- TrimOnce: the counters of valid PTEs and of buffer entries, which other threads change at will, are given as functions (the two reads of a section's counter before its first PTE are one), and so is whether pages are scarce; the contents of the threads' buffers are arbitrary.
- WriteBatch: the order of the modified list is left to module PageList; here any page on it can be popped next. The largest batch is taken to be a multiple of 32; MinibatchesCoverIff says what happens otherwise.
- RefreshLists: that a slot was not open when the rest went to free lists is stated by ZeroSlots, where the slots are an array; here any page can go to a slot.
- AcquireTail: the source spins where the model gives up after `patience` failures; a batch then has fewer pages.
- UnlinkBatch: threads that share the list lock act on one page at a time, and only on pages whose neighbours are not locked.
- insert_page: does not always release the pagelock, and counts each page twice at start-up; only sections are modelled.
- FillSlots: there is one refresher at a time, as `ONLY_ONE_REFRESHER` has it.
- GetPagesToClear: the refresher can be at any point of filling a slot, but does not go on during one scan of the slots.
- Word: a page holds integers by offset, without their width; no instruction is modelled.
- InitialOk: `initialize_zeroed_lists` counts each page of the zero lists twice in `list_length`; the model has no length for these lists.
- Win32 calls, events, thread creation, output, random numbers and timing: only the effect on the mapping is modelled.
- Liveness: nothing is said about fairness, or about how long a loop spins.
- Aging, `db_linked_list.c`, and functions that are never called, among them the single-page allocators with their own assertion on `pagefile_idx`.
