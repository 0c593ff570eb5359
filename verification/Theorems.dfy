/** What every reachable state has in common: the guarantees that the threads
    rely on, stated without the auxiliary parts of the model. */
module Theorems {
  import opened PageState
  import opened Protocol
  import opened Invariant
  import opened WriterSteps
  import opened Assertions
  import DiskSlots

  // ----- dirty tracking --------------------------------------------------------

  /** Whatever the user program can write to has no copy on disk that could be
      taken for good: no slot is kept for it, and if it is being written to
      disk the writer will find it modified. */
  lemma WritableIsDirty(s: State, v: nat)
    requires Reachable(s) && v < |s.virtuals| && s.virtuals[v].hw.Mapped? && s.virtuals[v].hw.writable
    ensures Typed(s)
    ensures var g := s.pages[s.virtuals[v].hw.frame]; g.slot == 0 && (g.writing ==> g.modified)
  {
    var mem := ReachableInv(s);
    assert VirtualOk(s, v);
  }

  /** A slot kept for an active or resting page is in use, holds the same bytes
      as the page, and the page is not mapped read-write anywhere.  The index
      means nothing while the page's contents are still being fetched. */
  lemma KeptSlotIsCopy(s: State, p: nat)
    requires Reachable(s) && p < |s.pages| && Live(s.pages[p], s.virtuals) && s.pages[p].slot != 0
    ensures Releasable(s, s.pages[p].slot) && s.slots[s.pages[p].slot].bytes == s.pages[p].bytes
    ensures forall v :: 0 <= v < |s.virtuals| && s.virtuals[v].hw.Mapped? && s.virtuals[v].hw.frame == p ==>
            !s.virtuals[v].hw.writable
  {
    var mem := ReachableInv(s);
    PageSlotUsed(s, p);
    assert PageOk(s, p);
    forall v | 0 <= v < |s.virtuals| && s.virtuals[v].hw.Mapped? && s.virtuals[v].hw.frame == p
      ensures !s.virtuals[v].hw.writable
    {
      assert VirtualOk(s, v);
    }
  }

  // ----- trimmer ------------------------------------------------------------------

  /** being_changed and being_trimmed are never both set, and being_trimmed is
      set only while the trimmer has the PTE in its buffer. */
  lemma MarksAreTheTrimmers(s: State, v: nat)
    requires Reachable(s) && v < |s.virtuals| && s.virtuals[v].pte.Valid?
    ensures !(s.virtuals[v].pte.changing && s.virtuals[v].pte.trimming)
    ensures s.virtuals[v].pte.trimming ==> !s.virtuals[v].trim.NoTrim?
  {
    var mem := ReachableInv(s);
    assert VirtualOk(s, v);
  }

  /** When the trimmer's last compare-exchange goes through, the PTE is still
      the marked one, whatever happened to it since the mark; transition format
      then names the right frame, which is unmapped and rests on behalf of
      this PTE.  Otherwise the PTE is left as it is. */
  lemma SwapIsSafe(s: State, v: nat)
    requires Reachable(s) && CanSwap(s, v)
    ensures Typed(s)
    ensures Swap(s, v).virtuals[v].pte != s.virtuals[v].pte ==>
              var t := s.virtuals[v].pte;
              && StillMarked(t) && Swap(s, v).virtuals[v].pte == Transition(t.frame)
              && s.virtuals[v].hw.Unmapped? && RestingFor(s.pages[t.frame], v)
    ensures Swap(s, v).pages == s.pages
    ensures forall u :: 0 <= u < |s.virtuals| && u != v ==> Swap(s, v).virtuals[u] == s.virtuals[u]
  {
    var mem := ReachableInv(s);
    assert VirtualOk(s, v);
  }

  // ----- modified writer -------------------------------------------------------------

  /** writing_to_disk holds for exactly the pages of the batch that are not
      completed, and none of them is in the batch twice. */
  lemma WritingIsUnfinished(s: State)
    requires Reachable(s)
    ensures forall p :: 0 <= p < |s.pages| ==> (s.pages[p].writing <==> InBatch(s.batch, p))
    ensures forall i, j :: 0 <= i < j < |s.batch| ==> s.batch[i].page != s.batch[j].page
  {
    var mem := ReachableInv(s);
    forall p | 0 <= p < |s.pages| ensures s.pages[p].writing <==> InBatch(s.batch, p) {
      WritingInBatch(s, p);
    }
  }

  datatype Outcome = OnStandby | RescuedWithSlot | SlotReleased

  /** How entry i of the batch ends, by what is seen afterwards. */
  ghost predicate Ends(s: State, i: nat, s': State, o: Outcome)
    requires Typed(s) && i < |s.batch| && |s'.pages| == |s.pages| && |s'.slots| == |s.slots|
  {
    var p, k := s.batch[i].page, s.batch[i].slot;
    var g := s'.pages[p];
    match o
    case OnStandby =>
      g.status.Standby? && p in s'.lists.standby && p !in s.lists.standby && g.slot == k && s'.slots[k].used
    case RescuedWithSlot => g.status.Active? && Links(s', p) == 0 && g.slot == k && s'.slots[k].used
    case SlotReleased => (g.status.Active? || g.status.Modified?) && g.slot == 0 && !s'.slots[k].used
  }

  /** A completed page ends in exactly one way; if a slot stays with it, the
      slot holds its bytes, and it has left the batch. */
  lemma CompletionOutcome(s: State, i: nat)
    requires Reachable(s) && CanComplete(s, i)
    ensures Typed(s)
    ensures var s', p := Complete(s, i), s.batch[i].page;
            && !s'.pages[p].writing && !InBatch(s'.batch, p)
            && (s'.pages[p].slot != 0 ==> s'.slots[s'.pages[p].slot].bytes == s'.pages[p].bytes)
            && (exists o :: Ends(s, i, s', o))
            && (forall o, o' :: Ends(s, i, s', o) && Ends(s, i, s', o') ==> o == o')
  {
    var mem := ReachableInv(s);
    var s', p, k := Complete(s, i), s.batch[i].page, s.batch[i].slot;
    WriterAssertsHold(s, DoComplete(i));
    assert EntryOk(s, i) && PageOk(s, p) && SlotOk(s, k);
    var g := s.pages[p];
    assert Ends(s, i, s', if g.modified then SlotReleased else if g.status.Modified? then OnStandby
           else RescuedWithSlot);
    forall j | 0 <= j < |s'.batch| ensures !(s'.batch[j].page == p && !s'.batch[j].done) {}
  }

  /** A page of modified or standby status is on its list exactly if no thread
      has it in hand and it is not on its way to disk unchanged. */
  lemma RestingIsListed(s: State, p: nat)
    requires Reachable(s) && p < |s.pages| && s.pages[p].hand.Nobody?
    ensures s.pages[p].status.Modified? ==> (p in s.lists.modified <==> !(s.pages[p].writing && !s.pages[p].modified))
    ensures s.pages[p].status.Standby? ==> p in s.lists.standby && p !in s.lists.modified
  {
    var mem := ReachableInv(s);
    assert PageOk(s, p);
  }

  /** The allocator never runs short: it has a slot for each page of a batch
      that is being collected, and one to spare. */
  lemma BatchGetsItsSlots(s: State, slots: seq<nat>)
    requires Reachable(s) && !s.writing
    ensures |FreeSlotSet(s)| > |s.batch|
    ensures CanAllot(s, slots) ==> |slots| == |s.batch|
  {
    var mem := ReachableInv(s);
    SlotsSuffice(s);
  }

  /** The allocator over the disk's status array returns slots as the writer
      needs them, and leaves the array in step with the state. */
  lemma AllocatorServesWriter(s: State, statuses: seq<bool>, slots: seq<nat>)
    requires Reachable(s) && !s.writing && |s.batch| > 0 && |statuses| >= |s.slots|
    requires forall k :: 0 <= k < |statuses| ==> statuses[k] == (k < |s.slots| ==> s.slots[k].used)
    requires forall i :: 0 <= i < |slots| ==> slots[i] < |statuses| && !statuses[slots[i]]
    requires forall i, j :: 0 <= i < j < |slots| ==> slots[i] < slots[j]
    requires var free := DiskSlots.Free(statuses, 0, |statuses|);
             |slots| == if |free| < |s.batch| then |free| else |s.batch|
    ensures Typed(s) && CanAllot(s, slots) && |slots| == |s.batch|
    ensures forall k :: 0 <= k < |s.slots| ==> DiskSlots.MarkedUsed(statuses, slots)[k] == Allot(s, slots).slots[k].used
  {
    var mem := ReachableInv(s);
    assert SlotOk(s, 0);
    assert DiskSlots.Free(statuses, 0, |statuses|) == FreeSlotSet(s);
    SlotsSuffice(s);
  }

  // ----- ownership of pagefile slots --------------------------------------------------

  predicate OnDisk(s: State, v: nat, k: nat)
    requires v < |s.virtuals|
  {
    s.virtuals[v].pte.Disk? && s.virtuals[v].pte.slot == k && !Settled(s.virtuals[v].job)
  }

  predicate KeptInPage(s: State, v: nat, k: nat)
    requires v < |s.virtuals|
  {
    var home := HomeOf(s.virtuals[v]);
    home.Some? && home.value < |s.pages| && s.pages[home.value].slot == k && !Fetching(s.virtuals[v].job)
  }

  predicate BeingWritten(s: State, v: nat, k: nat) {
    exists i :: 0 <= i < |s.batch| && !s.batch[i].done && s.batch[i].slot == k
             && s.batch[i].page < |s.pages| && s.pages[s.batch[i].page].pte == Some(v)
  }

  predicate Owns(s: State, v: nat, k: nat) {
    v < |s.virtuals| && (OnDisk(s, v, k) || KeptInPage(s, v, k) || BeingWritten(s, v, k))
  }

  /** The home page of a virtual page points back to it. */
  lemma HomePointsBack(s: State, v: nat)
    requires Sound(s) && v < |s.virtuals| && HomeOf(s.virtuals[v]).Some?
    ensures var p := HomeOf(s.virtuals[v]).value; p < |s.pages| && s.pages[p].pte == Some(v) && Attached(s.pages[p])
  {
    assert VirtualOk(s, v);
  }

  /** The account of an owned slot says who owns it and how. */
  lemma OwnershipIsAccounted(s: State, v: nat, k: nat)
    requires Sound(s) && 0 < k < |s.slots| && Owns(s, v, k)
    ensures !s.slots[k].deed.NoDeed? && OwnerOf(s, k) == v
    ensures OnDisk(s, v, k) <==> s.slots[k].deed.ByPte?
    ensures KeptInPage(s, v, k) <==> s.slots[k].deed.ByPage?
    ensures BeingWritten(s, v, k) <==> s.slots[k].deed.ByBatch?
  {
    if OnDisk(s, v, k) { assert VirtualOk(s, v); }
    if KeptInPage(s, v, k) {
      HomePointsBack(s, v);
      assert PageOk(s, HomeOf(s.virtuals[v]).value);
    }
    if BeingWritten(s, v, k) {
      var i :| 0 <= i < |s.batch| && !s.batch[i].done && s.batch[i].slot == k
          && s.pages[s.batch[i].page].pte == Some(v);
      assert EntryOk(s, i);
    }
  }

  lemma UsedIsOwned(s: State, k: nat)
    requires Sound(s) && k < |s.slots| && !s.slots[k].deed.NoDeed?
    ensures Owns(s, OwnerOf(s, k), k)
  {
    assert SlotOk(s, k);
    var v, d := OwnerOf(s, k), s.slots[k].deed;
    if d.ByPage? { assert PageOk(s, d.p); }
    if d.ByBatch? { assert EntryOk(s, d.i) && PageOk(s, s.batch[d.i].page); assert BeingWritten(s, v, k); }
  }

  /** A slot other than 0 is in use exactly if some virtual page owns it: in
      its disk PTE, in its page, or in the writer's batch.  So no slot leaks,
      none is given away too early, and stale indices do not count. */
  lemma UsedIffOwned(s: State, k: nat)
    requires Reachable(s) && 0 < k < |s.slots|
    ensures s.slots[k].used <==> exists v :: Owns(s, v, k)
  {
    var mem := ReachableInv(s);
    assert SlotOk(s, k);
    if s.slots[k].used { UsedIsOwned(s, k); }
    if v :| Owns(s, v, k) { OwnershipIsAccounted(s, v, k); }
  }

  /** No slot is shared: it has at most one owner, who owns it in one way. */
  lemma OwnedOnce(s: State, k: nat, v: nat, w: nat)
    requires Reachable(s) && 0 < k < |s.slots| && Owns(s, v, k) && Owns(s, w, k)
    ensures v == w
    ensures !(OnDisk(s, v, k) && KeptInPage(s, v, k)) && !(OnDisk(s, v, k) && BeingWritten(s, v, k))
    ensures !(KeptInPage(s, v, k) && BeingWritten(s, v, k))
  {
    var mem := ReachableInv(s);
    OwnershipIsAccounted(s, v, k);
    OwnershipIsAccounted(s, w, k);
  }

  // ----- ownership of pages -----------------------------------------------------------

  /** In how many places page p is: on lists, active, on its way to disk and on
      no list, or in the hand of a thread. */
  function Places(s: State, p: nat): nat
    requires p < |s.pages|
  {
    var g := s.pages[p];
    Links(s, p) + (if g.hand.Nobody? then 0 else 1)
    + (if g.hand.Nobody? && (g.status.Active? || (g.status.Modified? && InFlight(g))) then 1 else 0)
  }

  lemma EachPageIsSomewhere(s: State, p: nat)
    requires Reachable(s) && p < |s.pages|
    ensures Places(s, p) == 1
  {
    var mem := ReachableInv(s);
    assert PageOk(s, p);
  }

  /** total_available_pages counts the pages on zero lists, free lists and the
      standby list, which share no page. */
  lemma AvailableIsExact(s: State)
    requires Reachable(s)
    ensures s.lists.available == |s.lists.zero + s.lists.free + s.lists.standby|
  {
    var mem := ReachableInv(s);
    var l := s.lists;
    forall p: nat | p in l.zero || p in l.free || p in l.standby
      ensures !(p in l.zero && p in l.free) && !(p in l.zero && p in l.standby) && !(p in l.free && p in l.standby)
    {
      assert PageOk(s, p);
    }
    assert l.zero !! l.free && (l.zero + l.free) !! l.standby;
    assert |l.zero + l.free + l.standby| == |l.zero + l.free| + |l.standby|;
  }

  function FrameOf(t: Pte): Option<nat> {
    match t
    case Valid(f, _, _, _, _) => Some(f)
    case Transition(f) => Some(f)
    case _ => None
  }

  /** A valid or transition PTE names a page that points back to it.  The one
      exception is a first touch between its claim and its commit. */
  lemma PtePointsBack(s: State, v: nat)
    requires Reachable(s) && v < |s.virtuals| && FrameOf(s.virtuals[v].pte).Some?
    ensures Typed(s)
    ensures var p, x := FrameOf(s.virtuals[v].pte).value, s.virtuals[v];
            if x.job.Claimed? then s.pages[p].hand == ForClaim(v) else s.pages[p].pte == Some(v)
  {
    var mem := ReachableInv(s);
    assert VirtualOk(s, v);
  }

  /** Two PTEs name the same frame only while one of them is claiming a standby
      page the other has not been told to let go of. */
  lemma FramesAreDistinct(s: State, u: nat, v: nat)
    requires Reachable(s) && u < |s.virtuals| && v < |s.virtuals| && u != v
    requires FrameOf(s.virtuals[u].pte).Some? && FrameOf(s.virtuals[u].pte) == FrameOf(s.virtuals[v].pte)
    ensures Typed(s)
    ensures s.pages[FrameOf(s.virtuals[u].pte).value].status.Standby?
    ensures s.virtuals[u].job.Claimed? <==> !s.virtuals[v].job.Claimed?
  {
    var mem := ReachableInv(s);
    PtePointsBack(s, u);
    PtePointsBack(s, v);
    assert VirtualOk(s, u) && VirtualOk(s, v);
    assert PageOk(s, FrameOf(s.virtuals[u].pte).value);
  }

  // ----- first touch ---------------------------------------------------------------------

  /** A page committed to a first touch is all zero, and pages on the zero
      lists are zero already. */
  lemma FirstTouchReadsZero(s: State, v: nat)
    requires Reachable(s) && CanCommitFirst(s, v)
    ensures Typed(s)
    ensures CommitFirst(s, v).pages[s.virtuals[v].job.page].bytes == ZERO_PAGE
    ensures forall p :: p in s.lists.zero ==> p < |s.pages| && s.pages[p].bytes == ZERO_PAGE
  {
    var mem := ReachableInv(s);
    var p := s.virtuals[v].job.page;
    assert VirtualOk(s, v) && PageOk(s, p);
    forall q | q in s.lists.zero ensures q < |s.pages| && s.pages[q].bytes == ZERO_PAGE {
      assert PageOk(s, q);
    }
  }
}
