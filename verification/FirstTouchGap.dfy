/** The commit of first touches looks at the format of the accessed PTE to decide
    what becomes of the pages' slot indices.  The accessed PTE may have left
    the batch by then: it was unaccessed when the fault began, but another
    thread was faster.  What the commit does to the pages of the PTEs ahead. */
module FirstTouchGap {
  import opened PageState
  import opened Protocol
  import opened Invariant
  import opened FaultSteps
  import opened WriterSteps
  import opened Refinement
  import opened Assertions
  import opened Runs

  /** The commit of one page to PTE v, in a fault on PTE u.  On a read the index is
      cleared only if u is in memory format.  On a write the first page's index
      is cleared, and if u is in transition format, the slot of a standby page
      is given back with it. */
  function CommitForAccessed(s: State, v: nat, u: nat): State
    requires Typed(s) && CanCommitFirst(s, v) && u < |s.virtuals|
  {
    var p, write, accessed := s.virtuals[v].job.page, s.virtuals[v].job.write, s.virtuals[u].pte;
    var g := s.pages[p];
    var s1 := if write && accessed.Transition? && g.status.Standby? then ReleaseSlot(s, g.slot) else s;
    var s2 := DetachOldPte(s1, g);
    PutPage(Put(s2, v, s2.virtuals[v].(job := Ready(p, write))),
            p, g.(status := Active, slot := if write || accessed.Valid? then 0 else g.slot,
                  modified := write || g.modified, pte := Some(v), hand := Nobody,
                  bytes := if g.status.Zero? then g.bytes else ZERO_PAGE))
  }

  /** What a thread could check before the commit. */
  predicate IndexIsSettled(s: State, v: nat, u: nat)
    requires Typed(s) && CanCommitFirst(s, v) && u < |s.virtuals|
  {
    var g := s.pages[s.virtuals[v].job.page];
    || s.virtuals[u].pte.Valid?
    || (if s.virtuals[v].job.write then !(s.virtuals[u].pte.Transition? && g.status.Standby?) else g.slot == 0)
  }

  /** With the accessed PTE in the batch it always is. */
  lemma AccessedInBatch(s: State, v: nat, u: nat)
    requires Sound(s) && CanCommitFirst(s, v) && CanCommitFirst(s, u)
    ensures IndexIsSettled(s, v, u)
  {
    assert VirtualOk(s, u);
  }

  lemma SettledIsCommitFirst(s: State, v: nat, u: nat)
    requires Typed(s) && CanCommitFirst(s, v) && u < |s.virtuals| && IndexIsSettled(s, v, u)
    requires !s.virtuals[v].job.write || !s.virtuals[u].pte.Transition?
             || !s.pages[s.virtuals[v].job.page].status.Standby?
    ensures CommitForAccessed(s, v, u) == CommitFirst(s, v)
  {
  }

  /** Exactly when the commit keeps the invariant: then it is the commit of the
      protocol. */
  lemma CommitIsFineIff(s: State, mem: Memory, v: nat, u: nat)
    requires Inv(s, mem) && CanCommitFirst(s, v) && u < |s.virtuals|
    ensures Inv(CommitForAccessed(s, v, u), mem) <==> IndexIsSettled(s, v, u)
    ensures IndexIsSettled(s, v, u) ==> CommitForAccessed(s, v, u) == CommitFirst(s, v)
  {
    if IndexIsSettled(s, v, u) {
      SettledIsCommitFirst(s, v, u);
      CommitFirstKeeps(s, mem, v);
    } else {
      UnsettledIsWrong(s, mem, v, u);
    }
  }

  lemma UnsettledIsWrong(s: State, mem: Memory, v: nat, u: nat)
    requires Inv(s, mem) && CanCommitFirst(s, v) && u < |s.virtuals| && !IndexIsSettled(s, v, u)
    ensures !Inv(CommitForAccessed(s, v, u), mem)
  {
    var p := s.virtuals[v].job.page;
    var s' := CommitForAccessed(s, v, u);
    assert VirtualOk(s, v) && PageOk(s, p);
    if s.virtuals[v].job.write {
      assert !SlotOk(s', s.pages[p].slot);
    } else {
      assert !VirtualOk(s', v);
    }
  }

  // ----- runs ------------------------------------------------------------------------------

  /** A thread begins a fault on virtual page 0 in the initial state, where its PTE
      and the one ahead are unaccessed.  Another thread is faster with the
      first, the user stores a word there, and two pages are trimmed and
      written to disk. */
  lemma WrittenOut() returns (s: State)
    ensures Reachable(s) && Typed(s) && |s.pages| == 2 && |s.slots| == 5
    ensures s.virtuals == [Trimmed(0), Virtual(Unused, Unmapped, NoJob, NoTrim), Trimmed(1)]
    ensures s.lists.zero == {} && s.lists.free == {} && s.lists.standby == {0, 1}
    ensures s.pages[0] == Page(Standby, 1, false, false, Some(0), ZERO_PAGE[0 := 7], Nobody)
    ensures s.pages[1].status.Standby? && s.pages[1].hand.Nobody?
    ensures s.slots[1] == Slot(true, ZERO_PAGE[0 := 7], ByPage(0))
  {
    hide Reachable, Typed;
    s := BothCollected();
    AnyFreeSlotsWillDo(s, [1, 2]);
    s := WriterStep(s, DoAllot([1, 2]));
    s := WriterStep(s, DoStore(0));
    s := WriterStep(s, DoStore(1));
    s := WriterStep(s, DoComplete(0));
    s := WriterStep(s, DoComplete(1));
  }

  lemma BothCollected() returns (s: State)
    ensures Reachable(s) && Typed(s) && |s.slots| == 5
    ensures s.virtuals == [Trimmed(0), Virtual(Unused, Unmapped, NoJob, NoTrim), Trimmed(1)]
    ensures s.pages == [Page(Modified, 0, true, false, Some(0), ZERO_PAGE[0 := 7], Nobody),
                        Page(Modified, 0, true, false, Some(2), ZERO_PAGE, Nobody)]
    ensures s.lists == Lists({}, {}, {}, {}, 0) && !s.writing
    ensures s.batch == [Entry(0, 0, false, false), Entry(1, 0, false, false)]
    ensures forall k :: 0 < k < 5 ==> !s.slots[k].used
  {
    hide Reachable, Typed;
    s := BothTouched();
    s := TrimOut(s, 0, 0);
    s := TrimOut(s, 2, 1);
    s := WriterStep(s, DoPop(0));
    s := WriterStep(s, DoPop(1));
  }

  lemma BothTouched() returns (s: State)
    ensures Reachable(s) && Typed(s) && |s.pages| == 2 && |s.slots| == 5
    ensures s.virtuals == [InUse(0), Virtual(Unused, Unmapped, NoJob, NoTrim), InUse(1)]
    ensures s.pages == [Page(Active, 0, false, true, Some(0), ZERO_PAGE[0 := 7], Nobody),
                        Page(Active, 0, false, true, Some(2), ZERO_PAGE, Nobody)]
    ensures s.lists == Lists({}, {}, {}, {}, 0) && s.batch == [] && !s.writing
    ensures forall k :: 0 < k < 5 ==> !s.slots[k].used
  {
    hide Reachable, Typed;
    InitialIsReachable(3, 2);
    s := Initial(3, 2);
    s := FirstTouch(s, 0, 0);
    s := FirstTouch(s, 2, 1);
    OneStep(s, User(DoUserWrite(0, 0, 7)));
    s := UserWrite(s, 0, 0, 7);
  }

  /** Then the thread gets both pages from the standby list, finds only the PTE
      ahead still unaccessed, gives one page back and claims that PTE for the
      other. */
  lemma ClaimedAhead(write: bool) returns (s: State)
    ensures Reachable(s) && Typed(s) && |s.virtuals| == 3 && |s.pages| == 2 && |s.slots| == 5
    ensures CanCommitFirst(s, 1) && s.virtuals[1].job == Claimed(0, write) && s.virtuals[0] == Trimmed(0)
    ensures s.pages[0] == Page(Standby, 1, false, false, Some(0), ZERO_PAGE[0 := 7], ForClaim(1))
    ensures s.slots[1] == Slot(true, ZERO_PAGE[0 := 7], ByPage(0))
  {
    hide Reachable, Typed;
    s := WrittenOut();
    OneStep(s, Fault(DoReserve(0)));
    s := Reserve(s, 0);
    OneStep(s, Fault(DoReserve(1)));
    s := Reserve(s, 1);
    OneStep(s, Fault(DoReturn(1)));
    s := Return(s, 1);
    OneStep(s, Fault(DoClaimFirst(1, 0, write)));
    s := ClaimFirst(s, 1, 0, write);
  }

  /** A fault to write gives back the slot that holds the word, while the PTE of
      virtual page 0 is made to name it. */
  lemma WriteGapCanFail() returns (s: State)
    ensures Reachable(s) && Typed(s) && |s.virtuals| == 3 && CanCommitFirst(s, 1)
    ensures var s' := CommitForAccessed(s, 1, 0);
            && |s'.virtuals| == 3 && |s'.slots| == 5
            && s'.virtuals[0].pte == Disk(1, false) && Word(s'.slots[1].bytes, 0) == 7 && !s'.slots[1].used
  {
    s := ClaimedAhead(true);
  }

  /** A fault to read leaves the slot with the page: it is kept for the new, empty
      page of virtual page 1 as well as for virtual page 0. */
  lemma ReadGapCanFail() returns (s: State)
    ensures Reachable(s) && Typed(s) && |s.virtuals| == 3 && CanCommitFirst(s, 1)
    ensures var s' := CommitForAccessed(s, 1, 0);
            && |s'.virtuals| == 3 && |s'.slots| == 5 && |s'.pages| == 2
            && s'.virtuals[0].pte == Disk(1, false) && Word(s'.slots[1].bytes, 0) == 7
            && s'.pages[0].status.Active? && s'.pages[0].pte == Some(1) && s'.pages[0].slot == 1
            && Word(s'.pages[0].bytes, 0) == 0
  {
    s := ClaimedAhead(false);
  }
}
