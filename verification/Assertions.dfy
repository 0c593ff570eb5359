/** The assertions the source makes where it takes a step.  Each spins for ever
    when it fails; none of them ever does, and no page is linked twice or
    unlinked while it is on no list, in any reachable state.  The assertion on
    the modified list with which pagefault begins belongs to no step, and it
    can fail: it is the subject of module SlotAccounting. */
module Assertions {
  import opened PageState
  import opened Protocol
  import opened Invariant
  import opened WriterSteps
  import opened Refinement

  /** The states of all runs from all initial states. */
  ghost predicate Reachable(s: State) {
    exists virtualPages: nat, frames: nat, actions :: s == Run(Initial(virtualPages, frames), actions)
  }

  lemma ReachableInv(s: State) returns (mem: Memory)
    requires Reachable(s)
    ensures Inv(s, mem)
  {
    var virtualPages: nat, frames: nat, actions :| s == Run(Initial(virtualPages, frames), actions);
    RunKeeps(virtualPages, frames, actions);
    mem := FlatAfter(virtualPages, Writes(Initial(virtualPages, frames), actions));
  }

  /** release_single_disk_slot does not refuse slot k. */
  predicate Releasable(s: State, k: nat) {
    0 < k < |s.slots| && s.slots[k].used
  }

  /** How many of the lists page p is on. */
  function Links(s: State, p: nat): nat {
    (if p in s.lists.zero then 1 else 0) + (if p in s.lists.free then 1 else 0)
    + (if p in s.lists.standby then 1 else 0) + (if p in s.lists.modified then 1 else 0)
  }

  /** A page that is about to be given away can leave its old PTE in disk format. */
  predicate Repurposable(g: Page) {
    !g.status.Active? && (g.status.Standby? ==> g.pte.Some? && g.slot != 0)
  }

  /** What a batch popped from the standby list is. */
  predicate PoppedOld(s: State, p: nat)
    requires p < |s.pages|
  {
    p in s.lists.standby ==> s.pages[p].status.Standby?
  }

  predicate FaultAsserts(s: State, a: FaultAction)
    requires Typed(s) && FaultEnabled(s, a)
  {
    match a
    case DoClaimChange(v, _) => !s.virtuals[v].pte.prot.ProtNone?
    case DoRemap(v) =>
      s.pages[s.virtuals[v].job.frame].slot != 0 ==> Releasable(s, s.pages[s.virtuals[v].job.frame].slot)
    case DoFinishChange(v) =>
      var x := s.virtuals[v];
      && s.pages[x.job.frame].status.Active? && x.pte.Valid?
      && (x.job.write && !x.job.prot.ProtRead? ==> s.pages[x.job.frame].slot == 0)
    case DoReserve(p) => Links(s, p) == 1 && PoppedOld(s, p)
    case DoReturn(p) =>
      && (s.pages[p].status.Standby? || s.pages[p].status.Zero? || s.pages[p].status.Free?)
      && Links(s, p) == 0
    case DoClaimFirst(_, p, _) => Links(s, p) == 0 && Repurposable(s.pages[p])
    case DoCommitFirst(v) => s.virtuals[v].pte.Valid? && Repurposable(s.pages[s.virtuals[v].job.page])
    case DoRescue(_, p, _) => Links(s, p) == if s.pages[p].status.Modified? && InFlight(s.pages[p]) then 0 else 1
    case DoCommitRescue(v) =>
      var g := s.pages[s.virtuals[v].job.page];
      !g.status.Active? && (s.virtuals[v].job.write && g.status.Standby? ==> Releasable(s, g.slot))
  }

  predicate ConnectAsserts(s: State, a: ConnectAction)
    requires Typed(s) && ConnectEnabled(s, a)
  {
    match a
    case DoTakeRight(v) => s.virtuals[v].hw.Unmapped?
    case DoDropRight(v) => s.virtuals[v].pte.Disk?
    case DoCommitDisk(v, p, _) => Repurposable(s.pages[p]) && s.virtuals[v].pte.Disk?
    case DoFill(v) => s.virtuals[v].pte.Disk? && s.virtuals[v].pte.reading
    case DoSettle(v) => s.virtuals[v].pte.Disk? && Releasable(s, s.virtuals[v].pte.slot)
    case DoMap(v) => s.virtuals[v].hw.Unmapped? && Pending(s.virtuals[v].pte, s.virtuals[v].job.page)
    case DoFinish(v) => Pending(s.virtuals[v].pte, s.virtuals[v].job.page)
  }

  predicate TrimAsserts(s: State, a: TrimAction)
    requires Typed(s) && TrimEnabled(s, a)
  {
    match a
    case DoMark(v) => s.virtuals[v].hw.Mapped?
    case DoUnmark(v) => s.virtuals[v].pte.trimming
    case DoChoose(v) => s.virtuals[v].pte.Valid? && s.pages[s.virtuals[v].pte.frame].status.Active?
    case DoUnhook(v) => s.virtuals[v].hw.Mapped?
    case DoList(v) => s.virtuals[v].pte.Valid? && Links(s, s.virtuals[v].pte.frame) == 0
    case DoCopy(_) => true
    case DoSwap(_) => true
  }

  predicate WriterAsserts(s: State, a: WriterAction)
    requires Typed(s) && WriterEnabled(s, a)
  {
    match a
    case DoPop(p) => s.pages[p].slot == 0 && Links(s, p) == 1 && (s.pages[p].writing <==> InBatch(s.batch, p))
    case DoAllot(slots) => |slots| == |s.batch|
    case DoStore(i) => s.batch[i].slot != 0
    case DoComplete(i) =>
      var g := s.pages[s.batch[i].page];
      && g.slot == 0
      && (if g.modified then Releasable(s, s.batch[i].slot)
          else g.status.Modified? ==> Links(s, s.batch[i].page) == 0)
    case DoNextBatch => forall p :: 0 <= p < |s.pages| ==> !s.pages[p].writing
  }

  predicate RefillAsserts(s: State, a: RefillAction)
    requires Typed(s) && RefillEnabled(s, a)
  {
    match a
    case DoTakeOld(p) => Links(s, p) == 1 && PoppedOld(s, p)
    case DoDetach(p) => s.pages[p].status.Standby? && Repurposable(s.pages[p])
    case DoAddFree(p) => Links(s, p) == 0
    case DoAddZeroSlot(p) => Links(s, p) == 0
    case DoTakeZeroSlot(p) => Links(s, p) == 0 && s.pages[p].status.Zero?
    case DoClear(p) =>
      && Links(s, p) == 0
      && forall v :: 0 <= v < |s.virtuals| && s.virtuals[v].hw.Mapped? ==> s.virtuals[v].hw.frame != p
    case DoAddZero(p) => Links(s, p) == 0 && s.pages[p].bytes == ZERO_PAGE
  }

  /** What the source asserts where it takes step a. */
  predicate Asserts(s: State, a: Action)
    requires Typed(s) && Enabled(s, a)
  {
    match a
    case User(_) => true
    case Fault(b) => FaultAsserts(s, b)
    case Connect(b) => ConnectAsserts(s, b)
    case Trim(b) => TrimAsserts(s, b)
    case Writer(b) => WriterAsserts(s, b)
    case Refill(b) => RefillAsserts(s, b)
  }

  lemma FaultAssertsHold(s: State, a: FaultAction)
    requires Sound(s) && FaultEnabled(s, a)
    ensures FaultAsserts(s, a)
  {
    match a
    case DoClaimChange(v, _) => assert VirtualOk(s, v);
    case DoRemap(v) => assert VirtualOk(s, v); PageSlotUsed(s, s.virtuals[v].job.frame);
    case DoFinishChange(v) => assert VirtualOk(s, v);
    case DoReserve(p) => assert PageOk(s, p);
    case DoReturn(p) => assert PageOk(s, p);
    case DoClaimFirst(_, p, _) => assert PageOk(s, p);
    case DoCommitFirst(v) => assert VirtualOk(s, v); assert PageOk(s, s.virtuals[v].job.page);
    case DoRescue(_, p, _) => assert PageOk(s, p);
    case DoCommitRescue(v) => assert VirtualOk(s, v); PageSlotUsed(s, s.virtuals[v].job.page);
  }

  /** The slot kept for an attached page is in use. */
  lemma PageSlotUsed(s: State, p: nat)
    requires Sound(s) && p < |s.pages| && Live(s.pages[p], s.virtuals)
    ensures s.pages[p].slot != 0 ==> Releasable(s, s.pages[p].slot)
    ensures s.pages[p].status.Standby? ==> s.pages[p].slot != 0
  {
    assert PageOk(s, p);
    if s.pages[p].slot != 0 { assert SlotOk(s, s.pages[p].slot); }
  }

  lemma ConnectAssertsHold(s: State, a: ConnectAction)
    requires Sound(s) && ConnectEnabled(s, a)
    ensures ConnectAsserts(s, a)
  {
    match a
    case DoTakeRight(v) => assert VirtualOk(s, v);
    case DoDropRight(v) => assert VirtualOk(s, v);
    case DoCommitDisk(v, p, _) => assert VirtualOk(s, v); assert PageOk(s, p);
    case DoFill(v) => assert VirtualOk(s, v);
    case DoSettle(v) => assert VirtualOk(s, v); assert SlotOk(s, s.virtuals[v].pte.slot);
    case DoMap(v) => assert VirtualOk(s, v);
    case DoFinish(v) => assert VirtualOk(s, v);
  }

  lemma TrimAssertsHold(s: State, a: TrimAction)
    requires Sound(s) && TrimEnabled(s, a)
    ensures TrimAsserts(s, a)
  {
    match a
    case DoMark(v) => assert VirtualOk(s, v);
    case DoUnmark(v) => assert VirtualOk(s, v);
    case DoChoose(v) => assert VirtualOk(s, v);
    case DoUnhook(v) => assert VirtualOk(s, v);
    case DoList(v) => assert VirtualOk(s, v); assert PageOk(s, s.virtuals[v].pte.frame);
    case DoCopy(_) =>
    case DoSwap(_) =>
  }

  lemma WritingInBatch(s: State, p: nat)
    requires Sound(s) && p < |s.pages|
    ensures s.pages[p].writing <==> InBatch(s.batch, p)
  {
    if InBatch(s.batch, p) {
      var i :| 0 <= i < |s.batch| && s.batch[i].page == p && !s.batch[i].done;
      assert EntryOk(s, i);
    }
  }

  lemma WriterAssertsHold(s: State, a: WriterAction)
    requires Sound(s) && WriterEnabled(s, a)
    ensures WriterAsserts(s, a)
  {
    match a
    case DoPop(p) => assert PageOk(s, p); WritingInBatch(s, p);
    case DoAllot(slots) => SlotsSuffice(s);
    case DoStore(i) => assert EntryOk(s, i);
    case DoComplete(i) =>
      assert EntryOk(s, i) && SlotOk(s, s.batch[i].slot) && PageOk(s, s.batch[i].page);
      assert VirtualOk(s, s.pages[s.batch[i].page].pte.value);
    case DoNextBatch =>
      forall p | 0 <= p < |s.pages| ensures !s.pages[p].writing { assert !InBatch(s.batch, p); }
  }

  lemma RefillAssertsHold(s: State, a: RefillAction)
    requires Sound(s) && RefillEnabled(s, a)
    ensures RefillAsserts(s, a)
  {
    match a
    case DoTakeOld(p) => assert PageOk(s, p);
    case DoDetach(p) => assert PageOk(s, p);
    case DoAddFree(p) => assert PageOk(s, p);
    case DoAddZeroSlot(p) => assert PageOk(s, p);
    case DoTakeZeroSlot(p) => assert PageOk(s, p);
    case DoClear(p) =>
      assert PageOk(s, p);
      forall v | 0 <= v < |s.virtuals| && s.virtuals[v].hw.Mapped?
        ensures s.virtuals[v].hw.frame != p
      {
        assert VirtualOk(s, v);
      }
    case DoAddZero(p) => assert PageOk(s, p);
  }

  /** No assertion made with a step fails: whatever step a thread takes next, in
      any run. */
  lemma AssertsHold(s: State, a: Action)
    requires Reachable(s) && Enabled(s, a)
    ensures Typed(s) && Asserts(s, a)
  {
    var mem := ReachableInv(s);
    match a
    case User(_) =>
    case Fault(b) => FaultAssertsHold(s, b);
    case Connect(b) => ConnectAssertsHold(s, b);
    case Trim(b) => TrimAssertsHold(s, b);
    case Writer(b) => WriterAssertsHold(s, b);
    case Refill(b) => RefillAssertsHold(s, b);
  }
}
