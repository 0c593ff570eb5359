/** The steps of the faulting threads, the trimmer, the modified writer, the
    list refresher and the zeroing thread.

    `CanX` is what a thread checks (or its place in its own code) before it
    takes step X; `X` is the effect.  Where the source would spin for ever in
    a failed assertion the effect is that nothing changes; `AssertsHold` in
    module Assertions shows that this never happens. */
module Protocol {
  import opened PageState

  // ----- access by the user program ------------------------------------------

  predicate CanUserRead(s: State, v: nat) {
    v < |s.virtuals| && s.virtuals[v].hw.Mapped?
  }

  function UserRead(s: State, v: nat, offset: nat): int
    requires Typed(s) && CanUserRead(s, v)
  {
    Word(s.pages[s.virtuals[v].hw.frame].bytes, offset)
  }

  predicate CanUserWrite(s: State, v: nat) {
    v < |s.virtuals| && s.virtuals[v].hw.Mapped? && s.virtuals[v].hw.writable
  }

  function UserWrite(s: State, v: nat, offset: nat, word: int): State
    requires Typed(s) && CanUserWrite(s, v)
  {
    var p := s.virtuals[v].hw.frame;
    PutPage(s, p, s.pages[p].(bytes := WithWord(s.pages[p].bytes, offset, word)))
  }

  predicate CanTouch(s: State, v: nat) {
    v < |s.virtuals| && s.virtuals[v].pte.Valid?
  }

  /** The interlocked update that sets the access bit. */
  function Touch(s: State, v: nat): State
    requires CanTouch(s, v)
  {
    var x := s.virtuals[v];
    Put(s, v, x.(pte := x.pte.(accessed := true)))
  }

  // ----- small updates ---------------------------------------------------------

  function Put(s: State, v: nat, x: Virtual): State
    requires v < |s.virtuals|
  {
    s.(virtuals := s.virtuals[v := x])
  }

  function PutPage(s: State, p: nat, g: Page): State
    requires p < |s.pages|
  {
    s.(pages := s.pages[p := g])
  }

  function PutSlot(s: State, k: nat, c: Slot): State
    requires k < |s.slots|
  {
    s.(slots := s.slots[k := c])
  }

  /** release_single_disk_slot: slot 0 and free slots are refused. */
  function ReleaseSlot(s: State, k: nat): State
    requires k < |s.slots|
  {
    if k == 0 || !s.slots[k].used then s
    else PutSlot(s, k, s.slots[k].(used := false, deed := NoDeed))
  }

  function Assign(s: State, k: nat, d: Deed): State
    requires k < |s.slots|
  {
    PutSlot(s, k, s.slots[k].(deed := d))
  }

  /** A repurposed standby page leaves its old PTE behind in disk format. */
  function DetachOldPte(s: State, g: Page): State
    requires PageTyped(g, |s.virtuals|, |s.slots|)
  {
    var leaves := g.status.Standby? && g.pte.Some?;
    if leaves then
      s.(virtuals := s.virtuals[g.pte.value := s.virtuals[g.pte.value].(pte := Disk(g.slot, false))],
         slots := s.slots[g.slot := s.slots[g.slot].(deed := ByPte(g.pte.value))])
    else
      s
  }

  // ----- valid fault -------------------------------------------------------------

  predicate CanClaimChange(s: State, v: nat) {
    && v < |s.virtuals| && s.virtuals[v].pte.Valid?
    && !s.virtuals[v].pte.changing && !s.virtuals[v].pte.trimming
  }

  function ClaimChange(s: State, v: nat, write: bool): State
    requires Typed(s) && CanClaimChange(s, v)
  {
    var x := s.virtuals[v];
    Put(s, v, x.(pte := x.pte.(changing := true), job := Changing(x.pte.frame, x.pte.prot, write, false)))
  }

  predicate CanRemap(s: State, v: nat) {
    && v < |s.virtuals| && s.virtuals[v].job.Changing?
    && s.virtuals[v].job.write && s.virtuals[v].job.prot.ProtRead? && !s.virtuals[v].job.remapped
  }

  /** Maps the page read-write, drops its slot and marks it modified. */
  function Remap(s: State, v: nat): State
    requires Typed(s) && CanRemap(s, v)
  {
    var x := s.virtuals[v];
    var p := x.job.frame;
    var g := s.pages[p];
    var s1 := Put(s, v, x.(hw := Mapped(p, true), job := x.job.(remapped := true)));
    PutPage(ReleaseSlot(s1, g.slot), p, g.(slot := 0, modified := true))
  }

  predicate CanFinishChange(s: State, v: nat) {
    && v < |s.virtuals| && s.virtuals[v].job.Changing?
    && (s.virtuals[v].job.write && s.virtuals[v].job.prot.ProtRead? ==> s.virtuals[v].job.remapped)
  }

  function FinishChange(s: State, v: nat): State
    requires Typed(s) && CanFinishChange(s, v)
  {
    var x := s.virtuals[v];
    var prot := if x.job.write then ProtReadWrite else ProtRead;
    Put(s, v, x.(pte := Valid(x.job.frame, prot, true, false, false), job := NoJob))
  }

  // ----- pages for a fault ---------------------------------------------------------

  predicate CanReserve(s: State, p: nat) {
    && p < |s.pages| && s.pages[p].hand.Nobody?
    && (p in s.lists.zero || p in s.lists.free || p in s.lists.standby)
  }

  /** Pops a page from a zero list, a free list or the standby list. */
  function Reserve(s: State, p: nat): State
    requires Typed(s) && CanReserve(s, p)
  {
    var l := s.lists.(available := s.lists.available - 1);
    PutPage(s, p, s.pages[p].(hand := Popped)).(lists :=
      if p in l.zero then l.(zero := l.zero - {p})
      else if p in l.free then l.(free := l.free - {p})
      else l.(standby := l.standby - {p}))
  }

  predicate CanReturn(s: State, p: nat) {
    p < |s.pages| && s.pages[p].hand.Popped?
  }

  /** release_batch_unneeded_pages for one page.  A zero page is linked to a
      zero list with FREE status, as zero_list_add_batch does. */
  function Return(s: State, p: nat): State
    requires Typed(s) && CanReturn(s, p)
  {
    var g := s.pages[p];
    var l := s.lists.(available := s.lists.available + 1);
    if g.status.Active? || g.status.Modified? then s
    else
      PutPage(s, p, if g.status.Standby? then g.(hand := Nobody) else g.(status := Free, pte := None, hand := Nobody))
        .(lists :=
          match g.status
          case Standby => l.(standby := l.standby + {p})
          case Zero => l.(zero := l.zero + {p})
          case _ => l.(free := l.free + {p}))
  }

  // ----- first touch -----------------------------------------------------------------

  predicate CanClaimFirst(s: State, v: nat, p: nat) {
    && v < |s.virtuals| && s.virtuals[v].pte.Unused?
    && p < |s.pages| && s.pages[p].hand.Popped?
  }

  function ClaimFirst(s: State, v: nat, p: nat, write: bool): State
    requires Typed(s) && CanClaimFirst(s, v, p)
  {
    PutPage(
      Put(s, v, s.virtuals[v].(pte := Valid(p, ProtNone, false, true, false), job := Claimed(p, write))),
      p, s.pages[p].(hand := ForClaim(v)))
  }

  predicate CanCommitFirst(s: State, v: nat) {
    v < |s.virtuals| && s.virtuals[v].job.Claimed?
  }

  function CommitFirst(s: State, v: nat): State
    requires Typed(s) && CanCommitFirst(s, v)
  {
    var p, write := s.virtuals[v].job.page, s.virtuals[v].job.write;
    var g := s.pages[p];
    var s1 := DetachOldPte(s, g);
    PutPage(Put(s1, v, s1.virtuals[v].(job := Ready(p, write))),
            p, g.(status := Active, slot := 0, modified := write || g.modified, pte := Some(v), hand := Nobody,
                  bytes := if g.status.Zero? then g.bytes else ZERO_PAGE))
  }

  // ----- rescue -------------------------------------------------------------------------

  /** The PTE copy the thread acts on may be stale: only the page is checked. */
  predicate CanRescue(s: State, v: nat, p: nat) {
    && v < |s.virtuals| && p < |s.pages| && s.pages[p].hand.Nobody?
    && s.pages[p].pte == Some(v)
    && (s.pages[p].status.Standby? || s.pages[p].status.Modified?)
  }

  predicate InFlight(g: Page) {
    g.writing && !g.modified
  }

  function Rescue(s: State, v: nat, p: nat, write: bool): State
    requires Typed(s) && CanRescue(s, v, p)
  {
    var g, l := s.pages[p], s.lists;
    PutPage(Put(s, v, s.virtuals[v].(job := Rescuing(p, write))), p, g.(hand := ForRescue(v))).(lists :=
      if g.status.Standby? then l.(standby := l.standby - {p}, available := l.available - 1)
      else if InFlight(g) then l
      else l.(modified := l.modified - {p}))
  }

  predicate CanCommitRescue(s: State, v: nat) {
    v < |s.virtuals| && s.virtuals[v].job.Rescuing? && s.virtuals[v].pte.Transition?
  }

  function CommitRescue(s: State, v: nat): State
    requires Typed(s) && CanCommitRescue(s, v)
  {
    var p, write := s.virtuals[v].job.page, s.virtuals[v].job.write;
    var g := s.pages[p];
    var s1 := if write && g.status.Standby? then ReleaseSlot(s, g.slot) else s;
    PutPage(Put(s1, v, s.virtuals[v].(job := Ready(p, write))), p,
            g.(status := Active, pte := Some(v), hand := Nobody,
               slot := if write then 0 else g.slot, modified := write || g.modified))
  }

  // ----- disk fault -----------------------------------------------------------------------

  predicate CanTakeRight(s: State, v: nat) {
    v < |s.virtuals| && s.virtuals[v].pte.Disk? && !s.virtuals[v].pte.reading
  }

  function TakeRight(s: State, v: nat): State
    requires Typed(s) && CanTakeRight(s, v)
  {
    var x := s.virtuals[v];
    Put(s, v, x.(pte := x.pte.(reading := true), job := Reading))
  }

  predicate CanDropRight(s: State, v: nat) {
    v < |s.virtuals| && s.virtuals[v].job.Reading?
  }

  function DropRight(s: State, v: nat): State
    requires Typed(s) && CanDropRight(s, v)
  {
    var x := s.virtuals[v];
    if x.pte.Disk? then Put(s, v, x.(pte := x.pte.(reading := false), job := NoJob)) else s
  }

  predicate CanCommitDisk(s: State, v: nat, p: nat) {
    v < |s.virtuals| && s.virtuals[v].job.Reading? && p < |s.pages| && s.pages[p].hand.Popped?
  }

  function CommitDisk(s: State, v: nat, p: nat, write: bool): State
    requires Typed(s) && CanCommitDisk(s, v, p)
  {
    var g := s.pages[p];
    var s1 := DetachOldPte(s, g);
    PutPage(Put(s1, v, s1.virtuals[v].(job := Filling(p, write))),
            p, g.(status := Active, modified := write || g.modified, pte := Some(v), hand := Nobody))
  }

  predicate CanFill(s: State, v: nat) {
    v < |s.virtuals| && s.virtuals[v].job.Filling?
  }

  function Fill(s: State, v: nat): State
    requires Typed(s) && CanFill(s, v)
  {
    var x := s.virtuals[v];
    var p := x.job.page;
    if x.pte.Disk? then
      PutPage(Put(s, v, x.(job := Filled(p, x.job.write))), p, s.pages[p].(bytes := s.slots[x.pte.slot].bytes))
    else s
  }

  predicate CanSettle(s: State, v: nat) {
    v < |s.virtuals| && s.virtuals[v].job.Filled?
  }

  /** A read keeps the slot in the page, a write gives it back. */
  function Settle(s: State, v: nat): State
    requires Typed(s) && CanSettle(s, v)
  {
    var x := s.virtuals[v];
    var p, write := x.job.page, x.job.write;
    if !x.pte.Disk? then s
    else
      var s1 := Put(s, v, x.(job := Ready(p, write)));
      if write then PutPage(ReleaseSlot(s1, x.pte.slot), p, s.pages[p].(slot := 0))
      else PutPage(Assign(s1, x.pte.slot, ByPage(p)), p, s.pages[p].(slot := x.pte.slot))
  }

  // ----- connect: the common end of a fault --------------------------------------------------

  predicate CanMap(s: State, v: nat) {
    v < |s.virtuals| && s.virtuals[v].job.Ready?
  }

  /** A PTE in memory format here is a first touch, which is mapped read-write. */
  function Map(s: State, v: nat): State
    requires Typed(s) && CanMap(s, v)
  {
    var x := s.virtuals[v];
    var writable := x.job.write || x.pte.Valid?;
    Put(s, v, x.(hw := Mapped(x.job.page, writable), job := Connecting(x.job.page, x.job.write, writable)))
  }

  predicate CanFinish(s: State, v: nat) {
    v < |s.virtuals| && s.virtuals[v].job.Connecting?
  }

  function Finish(s: State, v: nat): State
    requires Typed(s) && CanFinish(s, v)
  {
    var x := s.virtuals[v];
    var prot := if x.job.writable then ProtReadWrite else ProtRead;
    Put(s, v, x.(pte := Valid(x.job.page, prot, true, false, false), job := NoJob))
  }

  // ----- trimmer -------------------------------------------------------------------------------

  predicate CanMark(s: State, v: nat) {
    && v < |s.virtuals| && s.virtuals[v].pte.Valid? && !s.virtuals[v].pte.changing && !s.virtuals[v].pte.trimming
    && (s.virtuals[v].trim.NoTrim? || s.virtuals[v].trim.Listed?)
  }

  /** A PTE that is in the trimmer's buffer already, but was repurposed and
      read back since, can be marked again. */
  function Mark(s: State, v: nat): State
    requires Typed(s) && CanMark(s, v)
  {
    var x := s.virtuals[v];
    Put(s, v, x.(pte := x.pte.(trimming := true), trim := Trim.Marked))
  }

  predicate CanUnmark(s: State, v: nat) {
    v < |s.virtuals| && s.virtuals[v].trim.Marked? && s.virtuals[v].pte.Valid?
  }

  /** A PTE whose copy was accessed may be spared: the mark is taken back, and
      the access bit with it. */
  function Unmark(s: State, v: nat): State
    requires Typed(s) && CanUnmark(s, v)
  {
    var x := s.virtuals[v];
    Put(s, v, x.(pte := x.pte.(trimming := false, accessed := false), trim := NoTrim))
  }

  predicate CanChoose(s: State, v: nat) {
    v < |s.virtuals| && s.virtuals[v].trim.Marked?
  }

  /** Where the page goes.  A page in flight to disk gets MODIFIED status here,
      and its unmapping is part of this step. */
  function Choose(s: State, v: nat): State
    requires Typed(s) && CanChoose(s, v)
  {
    var x := s.virtuals[v];
    if !x.pte.Valid? then s
    else
      var g := s.pages[x.pte.frame];
      PutPage(
        Put(s, v, if InFlight(g) then x.(hw := Unmapped, trim := Listed)
                  else x.(trim := Chosen(if g.slot != 0 then ToStandby else ToModified))),
        x.pte.frame, if InFlight(g) then g.(status := Modified) else g)
  }

  predicate CanUnhook(s: State, v: nat) {
    v < |s.virtuals| && s.virtuals[v].trim.Chosen?
  }

  function Unhook(s: State, v: nat): State
    requires Typed(s) && CanUnhook(s, v)
  {
    var x := s.virtuals[v];
    Put(s, v, x.(hw := Unmapped, trim := Unhooked(x.trim.target)))
  }

  predicate CanList(s: State, v: nat) {
    v < |s.virtuals| && s.virtuals[v].trim.Unhooked?
  }

  /** Status and insertion in one step. */
  function List(s: State, v: nat): State
    requires Typed(s) && CanList(s, v)
  {
    var x, l := s.virtuals[v], s.lists;
    if !x.pte.Valid? then s
    else
      var p := x.pte.frame;
      var toModified := x.trim.target.ToModified?;
      var g := s.pages[p].(status := if toModified then Modified else Standby);
      PutPage(Put(s, v, x.(trim := Listed)), p, g).(lists :=
        if toModified then l.(modified := l.modified + {p})
        else l.(standby := l.standby + {p}, available := l.available + 1))
  }

  /** The formats the trimmer's last loop gives up on are all the others. */
  predicate StillMarked(t: Pte) {
    t.Valid? && !t.changing && t.trimming
  }

  predicate CanCopy(s: State, v: nat) {
    v < |s.virtuals| && s.virtuals[v].trim.Listed?
  }

  function Copy(s: State, v: nat): State
    requires Typed(s) && CanCopy(s, v)
  {
    var x := s.virtuals[v];
    Put(s, v, x.(trim := if StillMarked(x.pte) then Trim.Copied(x.pte, x.pte.frame) else NoTrim))
  }

  predicate CanSwap(s: State, v: nat) {
    v < |s.virtuals| && s.virtuals[v].trim.Copied?
  }

  /** One turn of the compare-exchange loop: the frame number is the one of
      the first copy, even after the copy is read again. */
  function Swap(s: State, v: nat): State
    requires Typed(s) && CanSwap(s, v)
  {
    var x := s.virtuals[v];
    Put(s, v,
      if x.pte == x.trim.copy then x.(pte := Transition(x.trim.first), trim := NoTrim)
      else if StillMarked(x.pte) then x.(trim := x.trim.(copy := x.pte))
      else x.(trim := NoTrim))
  }

  // ----- modified writer ------------------------------------------------------------------------

  predicate CanPop(s: State, p: nat) {
    && !s.writing && p in s.lists.modified && p < |s.pages| && s.pages[p].hand.Nobody?
    && s.pages[p].status.Modified?
  }

  function Pop(s: State, p: nat): State
    requires Typed(s) && CanPop(s, p)
  {
    var g, l := s.pages[p], s.lists;
    var s1 := PutPage(s, p, g.(modified := false, writing := true)).(lists := l.(modified := l.modified - {p}));
    if g.writing then s1 else s1.(batch := s.batch + [Entry(p, 0, false, false)])
  }

  predicate FreeSlots(s: State, slots: seq<nat>) {
    && (forall i :: 0 <= i < |slots| ==> 0 < slots[i] < |s.slots| && !s.slots[slots[i]].used)
    && (forall i, j :: 0 <= i < j < |slots| ==> slots[i] != slots[j])
  }

  function FreeSlotSet(s: State): set<nat> {
    set k: nat | k < |s.slots| && !s.slots[k].used
  }

  /** What allocate_many_disk_slots returns: as many of the free slots as were
      asked for, or all of them. */
  predicate CanAllot(s: State, slots: seq<nat>) {
    && !s.writing && |s.batch| > 0
    && FreeSlots(s, slots)
    && |slots| == if |s.batch| <= |FreeSlotSet(s)| then |s.batch| else |FreeSlotSet(s)|
  }

  function Allot(s: State, slots: seq<nat>): State
    requires Typed(s) && CanAllot(s, slots)
  {
    s.(writing := true,
       batch := seq(|s.batch|, i requires 0 <= i < |s.batch| =>
           if i < |slots| then s.batch[i].(slot := slots[i]) else s.batch[i]),
       slots := seq(|s.slots|, k requires 0 <= k < |s.slots| =>
                  if k in slots then s.slots[k].(used := true, deed := ByBatch(Position(slots, k))) else s.slots[k]))
  }

  predicate CanStore(s: State, i: nat) {
    s.writing && i < |s.batch| && !s.batch[i].copied
  }

  /** The memcpy of one page to its slot. */
  function Store(s: State, i: nat): State
    requires Typed(s) && CanStore(s, i)
  {
    var e := s.batch[i];
    PutSlot(s, e.slot, s.slots[e.slot].(bytes := s.pages[e.page].bytes)).(batch := s.batch[i := e.(copied := true)])
  }

  predicate CanComplete(s: State, i: nat) {
    && s.writing && i < |s.batch| && s.batch[i].copied && !s.batch[i].done
    && s.batch[i].page < |s.pages| && s.pages[s.batch[i].page].hand.Nobody?
  }

  function Complete(s: State, i: nat): State
    requires Typed(s) && CanComplete(s, i)
  {
    var e, l := s.batch[i], s.lists;
    var p := e.page;
    var g := s.pages[p];
    var keep := !g.modified;                    // the copy in the slot is still good
    var toStandby := keep && g.status.Modified?;
    var s1 := if keep then Assign(s, e.slot, ByPage(p)) else ReleaseSlot(s, e.slot);
    PutPage(s1, p, g.(writing := false, slot := if keep then e.slot else g.slot,
                      status := if toStandby then Standby else g.status))
      .(batch := s.batch[i := e.(done := true)],
        lists := if toStandby then l.(standby := l.standby + {p}, available := l.available + 1) else l)
  }

  predicate AllDone(batch: seq<Entry>) {
    forall i :: 0 <= i < |batch| ==> batch[i].done
  }

  predicate CanNextBatch(s: State) {
    s.writing && AllDone(s.batch)
  }

  function NextBatch(s: State): State
    requires CanNextBatch(s)
  {
    s.(batch := [], writing := false)
  }

  // ----- list refresher and zeroing thread ---------------------------------------------------------

  predicate CanTakeOld(s: State, p: nat) {
    p in s.lists.standby && p < |s.pages| && s.pages[p].hand.Nobody?
  }

  function TakeOld(s: State, p: nat): State
    requires Typed(s) && CanTakeOld(s, p)
  {
    var l := s.lists;
    PutPage(s, p, s.pages[p].(hand := Refresh)).(lists := l.(standby := l.standby - {p}, available := l.available - 1))
  }

  predicate CanDetach(s: State, p: nat) {
    p < |s.pages| && s.pages[p].hand.Refresh?
  }

  function Detach(s: State, p: nat): State
    requires Typed(s) && CanDetach(s, p)
  {
    PutPage(DetachOldPte(s, s.pages[p]), p, s.pages[p].(hand := Detached))
  }

  predicate CanAddFree(s: State, p: nat) {
    p < |s.pages| && s.pages[p].hand.Detached?
  }

  function AddFree(s: State, p: nat): State
    requires Typed(s) && CanAddFree(s, p)
  {
    var l := s.lists;
    PutPage(s, p, s.pages[p].(status := Free, pte := None, hand := Nobody))
      .(lists := l.(free := l.free + {p}, available := l.available + 1))
  }

  function AddZeroSlot(s: State, p: nat): State
    requires Typed(s) && CanAddFree(s, p)
  {
    PutPage(s, p, s.pages[p].(status := Zero, pte := None, hand := ZeroSlot))
  }

  predicate CanTakeZeroSlot(s: State, p: nat) {
    p < |s.pages| && s.pages[p].hand.ZeroSlot?
  }

  function TakeZeroSlot(s: State, p: nat): State
    requires Typed(s) && CanTakeZeroSlot(s, p)
  {
    PutPage(s, p, s.pages[p].(hand := Hand.Zeroing))
  }

  predicate CanClear(s: State, p: nat) {
    p < |s.pages| && s.pages[p].hand.Zeroing?
  }

  function Clear(s: State, p: nat): State
    requires Typed(s) && CanClear(s, p)
  {
    PutPage(s, p, s.pages[p].(bytes := ZERO_PAGE, hand := Zeroed))
  }

  predicate CanAddZero(s: State, p: nat) {
    p < |s.pages| && s.pages[p].hand.Zeroed?
  }

  function AddZero(s: State, p: nat): State
    requires Typed(s) && CanAddZero(s, p)
  {
    var l := s.lists;
    PutPage(s, p, s.pages[p].(status := Free, pte := None, hand := Nobody))
      .(lists := l.(zero := l.zero + {p}, available := l.available + 1))
  }

  // ----- the machine ----------------------------------------------------------------------------------

  /** The user program and the processor. */
  datatype UserAction =
    | DoUserRead(v: nat, offset: nat)
    | DoUserWrite(v: nat, offset: nat, word: int)
    | DoTouch(v: nat)

  /** Faulting threads: valid, first-touch and rescue faults. */
  datatype FaultAction =
    | DoClaimChange(v: nat, write: bool)
    | DoRemap(v: nat)
    | DoFinishChange(v: nat)
    | DoReserve(p: nat)
    | DoReturn(p: nat)
    | DoClaimFirst(v: nat, p: nat, write: bool)
    | DoCommitFirst(v: nat)
    | DoRescue(v: nat, p: nat, write: bool)
    | DoCommitRescue(v: nat)

  /** Faulting threads: disk faults and the common end of a fault. */
  datatype ConnectAction =
    | DoTakeRight(v: nat)
    | DoDropRight(v: nat)
    | DoCommitDisk(v: nat, p: nat, write: bool)
    | DoFill(v: nat)
    | DoSettle(v: nat)
    | DoMap(v: nat)
    | DoFinish(v: nat)

  /** The trimmer. */
  datatype TrimAction =
    | DoMark(v: nat)
    | DoUnmark(v: nat)
    | DoChoose(v: nat)
    | DoUnhook(v: nat)
    | DoList(v: nat)
    | DoCopy(v: nat)
    | DoSwap(v: nat)

  /** The modified writer. */
  datatype WriterAction =
    | DoPop(p: nat)
    | DoAllot(slots: seq<nat>)
    | DoStore(i: nat)
    | DoComplete(i: nat)
    | DoNextBatch

  /** The list refresher and the zeroing thread. */
  datatype RefillAction =
    | DoTakeOld(p: nat)
    | DoDetach(p: nat)
    | DoAddFree(p: nat)
    | DoAddZeroSlot(p: nat)
    | DoTakeZeroSlot(p: nat)
    | DoClear(p: nat)
    | DoAddZero(p: nat)

  datatype Action =
    | User(user: UserAction)
    | Fault(fault: FaultAction)
    | Connect(connect: ConnectAction)
    | Trim(trim: TrimAction)
    | Writer(writer: WriterAction)
    | Refill(refill: RefillAction)

  predicate UserEnabled(s: State, a: UserAction) {
    match a
    case DoUserRead(v, _) => CanUserRead(s, v)
    case DoUserWrite(v, _, _) => CanUserWrite(s, v)
    case DoTouch(v) => CanTouch(s, v)
  }

  function UserApply(s: State, a: UserAction): State
    requires Typed(s) && UserEnabled(s, a)
  {
    match a
    case DoUserRead(_, _) => s
    case DoUserWrite(v, offset, word) => UserWrite(s, v, offset, word)
    case DoTouch(v) => Touch(s, v)
  }

  predicate FaultEnabled(s: State, a: FaultAction) {
    match a
    case DoClaimChange(v, _) => CanClaimChange(s, v)
    case DoRemap(v) => CanRemap(s, v)
    case DoFinishChange(v) => CanFinishChange(s, v)
    case DoReserve(p) => CanReserve(s, p)
    case DoReturn(p) => CanReturn(s, p)
    case DoClaimFirst(v, p, _) => CanClaimFirst(s, v, p)
    case DoCommitFirst(v) => CanCommitFirst(s, v)
    case DoRescue(v, p, _) => CanRescue(s, v, p)
    case DoCommitRescue(v) => CanCommitRescue(s, v)
  }

  function FaultApply(s: State, a: FaultAction): State
    requires Typed(s) && FaultEnabled(s, a)
  {
    match a
    case DoClaimChange(v, write) => ClaimChange(s, v, write)
    case DoRemap(v) => Remap(s, v)
    case DoFinishChange(v) => FinishChange(s, v)
    case DoReserve(p) => Reserve(s, p)
    case DoReturn(p) => Return(s, p)
    case DoClaimFirst(v, p, write) => ClaimFirst(s, v, p, write)
    case DoCommitFirst(v) => CommitFirst(s, v)
    case DoRescue(v, p, write) => Rescue(s, v, p, write)
    case DoCommitRescue(v) => CommitRescue(s, v)
  }

  predicate ConnectEnabled(s: State, a: ConnectAction) {
    match a
    case DoTakeRight(v) => CanTakeRight(s, v)
    case DoDropRight(v) => CanDropRight(s, v)
    case DoCommitDisk(v, p, _) => CanCommitDisk(s, v, p)
    case DoFill(v) => CanFill(s, v)
    case DoSettle(v) => CanSettle(s, v)
    case DoMap(v) => CanMap(s, v)
    case DoFinish(v) => CanFinish(s, v)
  }

  function ConnectApply(s: State, a: ConnectAction): State
    requires Typed(s) && ConnectEnabled(s, a)
  {
    match a
    case DoTakeRight(v) => TakeRight(s, v)
    case DoDropRight(v) => DropRight(s, v)
    case DoCommitDisk(v, p, write) => CommitDisk(s, v, p, write)
    case DoFill(v) => Fill(s, v)
    case DoSettle(v) => Settle(s, v)
    case DoMap(v) => Map(s, v)
    case DoFinish(v) => Finish(s, v)
  }

  predicate TrimEnabled(s: State, a: TrimAction) {
    match a
    case DoMark(v) => CanMark(s, v)
    case DoUnmark(v) => CanUnmark(s, v)
    case DoChoose(v) => CanChoose(s, v)
    case DoUnhook(v) => CanUnhook(s, v)
    case DoList(v) => CanList(s, v)
    case DoCopy(v) => CanCopy(s, v)
    case DoSwap(v) => CanSwap(s, v)
  }

  function TrimApply(s: State, a: TrimAction): State
    requires Typed(s) && TrimEnabled(s, a)
  {
    match a
    case DoMark(v) => Mark(s, v)
    case DoUnmark(v) => Unmark(s, v)
    case DoChoose(v) => Choose(s, v)
    case DoUnhook(v) => Unhook(s, v)
    case DoList(v) => List(s, v)
    case DoCopy(v) => Copy(s, v)
    case DoSwap(v) => Swap(s, v)
  }

  predicate WriterEnabled(s: State, a: WriterAction) {
    match a
    case DoPop(p) => CanPop(s, p)
    case DoAllot(slots) => CanAllot(s, slots)
    case DoStore(i) => CanStore(s, i)
    case DoComplete(i) => CanComplete(s, i)
    case DoNextBatch => CanNextBatch(s)
  }

  function WriterApply(s: State, a: WriterAction): State
    requires Typed(s) && WriterEnabled(s, a)
  {
    match a
    case DoPop(p) => Pop(s, p)
    case DoAllot(slots) => Allot(s, slots)
    case DoStore(i) => Store(s, i)
    case DoComplete(i) => Complete(s, i)
    case DoNextBatch => NextBatch(s)
  }

  predicate RefillEnabled(s: State, a: RefillAction) {
    match a
    case DoTakeOld(p) => CanTakeOld(s, p)
    case DoDetach(p) => CanDetach(s, p)
    case DoAddFree(p) => CanAddFree(s, p)
    case DoAddZeroSlot(p) => CanAddFree(s, p)
    case DoTakeZeroSlot(p) => CanTakeZeroSlot(s, p)
    case DoClear(p) => CanClear(s, p)
    case DoAddZero(p) => CanAddZero(s, p)
  }

  function RefillApply(s: State, a: RefillAction): State
    requires Typed(s) && RefillEnabled(s, a)
  {
    match a
    case DoTakeOld(p) => TakeOld(s, p)
    case DoDetach(p) => Detach(s, p)
    case DoAddFree(p) => AddFree(s, p)
    case DoAddZeroSlot(p) => AddZeroSlot(s, p)
    case DoTakeZeroSlot(p) => TakeZeroSlot(s, p)
    case DoClear(p) => Clear(s, p)
    case DoAddZero(p) => AddZero(s, p)
  }

  predicate Enabled(s: State, a: Action) {
    match a
    case User(b) => UserEnabled(s, b)
    case Fault(b) => FaultEnabled(s, b)
    case Connect(b) => ConnectEnabled(s, b)
    case Trim(b) => TrimEnabled(s, b)
    case Writer(b) => WriterEnabled(s, b)
    case Refill(b) => RefillEnabled(s, b)
  }

  function Apply(s: State, a: Action): State
    requires Typed(s) && Enabled(s, a)
  {
    match a
    case User(b) => UserApply(s, b)
    case Fault(b) => FaultApply(s, b)
    case Connect(b) => ConnectApply(s, b)
    case Trim(b) => TrimApply(s, b)
    case Writer(b) => WriterApply(s, b)
    case Refill(b) => RefillApply(s, b)
  }
}
