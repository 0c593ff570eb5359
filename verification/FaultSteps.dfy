/** The steps of the user program and of faulting threads keep the invariant. */
module FaultSteps {
  import opened PageState
  import opened Protocol
  import opened Invariant
  import opened Footprint

  lemma UserWriteLocal(s: State, mem: Memory, v: nat, offset: nat, word: int, p: nat)
    requires Typed(s) && CanUserWrite(s, v) && Checked(s, mem, {v}, {p}, {})
    requires p == s.virtuals[v].hw.frame
    ensures Local(s, UserWrite(s, v, offset, word), mem, mem[v := WithWord(mem[v], offset, word)], {v}, {p}, {})
  {
  }

  lemma UserWriteKeeps(s: State, mem: Memory, v: nat, offset: nat, word: int)
    requires Inv(s, mem) && CanUserWrite(s, v)
    ensures Inv(UserWrite(s, v, offset, word), mem[v := WithWord(mem[v], offset, word)])
  {
    var p := s.virtuals[v].hw.frame;
    UserWriteLocal(s, mem, v, offset, word, p);
    QuietStep(s, UserWrite(s, v, offset, word), mem, mem[v := WithWord(mem[v], offset, word)], {v}, {p}, {});
  }

  lemma TouchWithin(s: State, mem: Memory, v: nat)
    requires Typed(s) && CanTouch(s, v) && Checked(s, mem, {v}, {}, {})
    ensures Within(s, Touch(s, v), {v}, {}, {}) && Closed(s, Touch(s, v), {v}, {}, {}) && Quiet(s, Touch(s, v), {}, {})
  {
  }

  lemma TouchChecked(s: State, mem: Memory, v: nat)
    requires Typed(s) && CanTouch(s, v) && Checked(s, mem, {v}, {}, {})
    ensures Checked(Touch(s, v), mem, {v}, {}, {})
  {
  }

  lemma TouchKeeps(s: State, mem: Memory, v: nat)
    requires Inv(s, mem) && CanTouch(s, v)
    ensures Inv(Touch(s, v), mem)
  {
    TouchWithin(s, mem, v);
    TouchChecked(s, mem, v);
    QuietStep(s, Touch(s, v), mem, mem, {v}, {}, {});
  }

  lemma ClaimChangeWithin(s: State, mem: Memory, v: nat, write: bool)
    requires Typed(s) && CanClaimChange(s, v) && Checked(s, mem, {v}, {}, {})
    ensures Within(s, ClaimChange(s, v, write), {v}, {}, {}) && Closed(s, ClaimChange(s, v, write), {v}, {}, {})
            && Quiet(s, ClaimChange(s, v, write), {}, {})
  {
  }

  lemma ClaimChangeChecked(s: State, mem: Memory, v: nat, write: bool)
    requires Typed(s) && CanClaimChange(s, v) && Checked(s, mem, {v}, {}, {})
    ensures Checked(ClaimChange(s, v, write), mem, {v}, {}, {})
  {
  }

  lemma ClaimChangeKeeps(s: State, mem: Memory, v: nat, write: bool)
    requires Inv(s, mem) && CanClaimChange(s, v)
    ensures Inv(ClaimChange(s, v, write), mem)
  {
    ClaimChangeWithin(s, mem, v, write);
    ClaimChangeChecked(s, mem, v, write);
    QuietStep(s, ClaimChange(s, v, write), mem, mem, {v}, {}, {});
  }

  lemma RemapWithin(s: State, mem: Memory, v: nat, p: nat, C: set<nat>)
    requires Typed(s) && CanRemap(s, v) && Checked(s, mem, {v}, {p}, C)
    requires p == s.virtuals[v].job.frame && C == KeptSlots(s.pages[p], s.virtuals)
    ensures Within(s, Remap(s, v), {v}, {p}, C) && Closed(s, Remap(s, v), {v}, {p}, C) && Quiet(s, Remap(s, v), {p}, C)
  {
  }

  lemma RemapChecked(s: State, mem: Memory, v: nat, p: nat, C: set<nat>)
    requires Typed(s) && CanRemap(s, v) && Checked(s, mem, {v}, {p}, C)
    requires p == s.virtuals[v].job.frame && C == KeptSlots(s.pages[p], s.virtuals)
    ensures Checked(Remap(s, v), mem, {v}, {p}, C)
  {
  }

  lemma RemapKeeps(s: State, mem: Memory, v: nat)
    requires Inv(s, mem) && CanRemap(s, v)
    ensures Inv(Remap(s, v), mem)
  {
    var p := s.virtuals[v].job.frame;
    var C := KeptSlots(s.pages[p], s.virtuals);
    RemapWithin(s, mem, v, p, C);
    RemapChecked(s, mem, v, p, C);
    QuietStep(s, Remap(s, v), mem, mem, {v}, {p}, C);
  }

  lemma FinishChangeLocal(s: State, mem: Memory, v: nat)
    requires Typed(s) && CanFinishChange(s, v) && Checked(s, mem, {v}, {}, {})
    ensures Local(s, FinishChange(s, v), mem, mem, {v}, {}, {})
  {
  }

  lemma FinishChangeKeeps(s: State, mem: Memory, v: nat)
    requires Inv(s, mem) && CanFinishChange(s, v)
    ensures Inv(FinishChange(s, v), mem)
  {
    FinishChangeLocal(s, mem, v);
    QuietStep(s, FinishChange(s, v), mem, mem, {v}, {}, {});
  }

  lemma ReserveWithin(s: State, mem: Memory, p: nat, A: set<nat>)
    requires Typed(s) && CanReserve(s, p) && Checked(s, mem, A, {p}, {})
    requires A == Pointer(s.pages[p])
    ensures Within(s, Reserve(s, p), A, {p}, {}) && Closed(s, Reserve(s, p), A, {p}, {})
            && Quiet(s, Reserve(s, p), {p}, {})
  {
  }

  lemma ReserveChecked(s: State, mem: Memory, p: nat, A: set<nat>)
    requires Typed(s) && CanReserve(s, p) && Checked(s, mem, A, {p}, {})
    requires A == Pointer(s.pages[p])
    ensures Checked(Reserve(s, p), mem, A, {p}, {})
  {
  }

  lemma ReserveCount(s: State, p: nat)
    requires Typed(s) && CountOk(s) && CanReserve(s, p) && ListsOk(s.pages[p], p, s.lists)
    ensures CountOk(Reserve(s, p))
  {
  }

  lemma ReserveKeeps(s: State, mem: Memory, p: nat)
    requires Inv(s, mem) && CanReserve(s, p)
    ensures Inv(Reserve(s, p), mem)
  {
    assert PageOk(s, p);
    var A := Pointer(s.pages[p]);
    ReserveWithin(s, mem, p, A);
    ReserveChecked(s, mem, p, A);
    ReserveCount(s, p);
    QuietStep(s, Reserve(s, p), mem, mem, A, {p}, {});
  }

  lemma ReturnWithin(s: State, mem: Memory, p: nat, A: set<nat>)
    requires Typed(s) && CanReturn(s, p) && Checked(s, mem, A, {p}, {})
    requires A == Pointer(s.pages[p])
    ensures Within(s, Return(s, p), A, {p}, {}) && Closed(s, Return(s, p), A, {p}, {})
            && Quiet(s, Return(s, p), {p}, {})
  {
    hide ContentsOk, TrimOk, ListsOk;
  }

  lemma ReturnChecked(s: State, mem: Memory, p: nat, A: set<nat>)
    requires Typed(s) && CanReturn(s, p) && Checked(s, mem, A, {p}, {})
    requires A == Pointer(s.pages[p])
    ensures Checked(Return(s, p), mem, A, {p}, {})
  {
  }

  lemma ReturnCount(s: State, p: nat)
    requires Typed(s) && CountOk(s) && CanReturn(s, p) && ListsOk(s.pages[p], p, s.lists)
    ensures CountOk(Return(s, p))
  {
  }

  lemma ReturnKeeps(s: State, mem: Memory, p: nat)
    requires Inv(s, mem) && CanReturn(s, p)
    ensures Inv(Return(s, p), mem)
  {
    assert PageOk(s, p);
    var A := Pointer(s.pages[p]);
    ReturnWithin(s, mem, p, A);
    ReturnChecked(s, mem, p, A);
    ReturnCount(s, p);
    QuietStep(s, Return(s, p), mem, mem, A, {p}, {});
  }

  lemma ClaimFirstWithin(s: State, mem: Memory, v: nat, p: nat, write: bool, A: set<nat>)
    requires Typed(s) && CanClaimFirst(s, v, p) && Checked(s, mem, {v} + A, {p}, {})
    requires A == Pointer(s.pages[p])
    ensures Within(s, ClaimFirst(s, v, p, write), {v} + A, {p}, {})
            && Closed(s, ClaimFirst(s, v, p, write), {v} + A, {p}, {}) && Quiet(s, ClaimFirst(s, v, p, write), {p}, {})
  {
    hide ContentsOk, TrimOk, ListsOk;
  }

  lemma ClaimFirstClaimer(s: State, mem: Memory, v: nat, p: nat, write: bool, A: set<nat>)
    requires Typed(s) && CanClaimFirst(s, v, p) && Checked(s, mem, {v} + A, {p}, {})
    requires A == Pointer(s.pages[p])
    ensures Checked(ClaimFirst(s, v, p, write), mem, {v}, {}, {})
  {
  }

  lemma ClaimFirstOldOwner(s: State, mem: Memory, v: nat, p: nat, write: bool, A: set<nat>)
    requires Typed(s) && CanClaimFirst(s, v, p) && Checked(s, mem, {v} + A, {p}, {})
    requires A == Pointer(s.pages[p])
    ensures Checked(ClaimFirst(s, v, p, write), mem, A, {}, {})
  {
  }

  lemma ClaimFirstPage(s: State, mem: Memory, v: nat, p: nat, write: bool, A: set<nat>)
    requires Typed(s) && CanClaimFirst(s, v, p) && Checked(s, mem, {v} + A, {p}, {})
    requires A == Pointer(s.pages[p])
    ensures Checked(ClaimFirst(s, v, p, write), mem, {}, {p}, {})
  {
  }

  lemma ClaimFirstKeeps(s: State, mem: Memory, v: nat, p: nat, write: bool)
    requires Inv(s, mem) && CanClaimFirst(s, v, p)
    ensures Inv(ClaimFirst(s, v, p, write), mem)
  {
    assert PageOk(s, p);
    var A := Pointer(s.pages[p]);
    ClaimFirstWithin(s, mem, v, p, write, A);
    ClaimFirstClaimer(s, mem, v, p, write, A);
    ClaimFirstOldOwner(s, mem, v, p, write, A);
    ClaimFirstPage(s, mem, v, p, write, A);
    QuietStep(s, ClaimFirst(s, v, p, write), mem, mem, {v} + A, {p}, {});
  }

  lemma CommitFirstWithin(s: State, mem: Memory, v: nat, p: nat, A: set<nat>, C: set<nat>)
    requires Typed(s) && CanCommitFirst(s, v) && Checked(s, mem, {v} + A, {p}, C)
    requires p == s.virtuals[v].job.page && A == Pointer(s.pages[p]) && C == KeptSlots(s.pages[p], s.virtuals)
    ensures Within(s, CommitFirst(s, v), {v} + A, {p}, C) && Quiet(s, CommitFirst(s, v), {p}, C)
  {
  }

  lemma CommitFirstVirtualsClosed(s: State, mem: Memory, v: nat, p: nat, A: set<nat>, C: set<nat>)
    requires Typed(s) && CanCommitFirst(s, v) && Checked(s, mem, {v} + A, {p}, C)
    requires p == s.virtuals[v].job.page && A == Pointer(s.pages[p]) && C == KeptSlots(s.pages[p], s.virtuals)
    ensures Within(s, CommitFirst(s, v), {v} + A, {p}, C) && VirtualsClosed(s, CommitFirst(s, v), {v} + A, {p}, C)
  {
    hide ContentsOk, TrimOk, ListsOk;
  }

  lemma CommitFirstPageClosed(s: State, mem: Memory, v: nat, p: nat, A: set<nat>, C: set<nat>)
    requires Typed(s) && CanCommitFirst(s, v) && Checked(s, mem, {v} + A, {p}, C)
    requires p == s.virtuals[v].job.page && A == Pointer(s.pages[p]) && C == KeptSlots(s.pages[p], s.virtuals)
    ensures Within(s, CommitFirst(s, v), {v} + A, {p}, C) && PagesClosed(s, CommitFirst(s, v), {v} + A, {p}, C)
            && SlotsClosed(s, {v} + A, {p}, C)
  {
    hide ContentsOk, TrimOk, ListsOk;
  }

  lemma CommitFirstClaimer(s: State, mem: Memory, v: nat, p: nat, A: set<nat>, C: set<nat>)
    requires Typed(s) && CanCommitFirst(s, v) && Checked(s, mem, {v} + A, {p}, C)
    requires p == s.virtuals[v].job.page && A == Pointer(s.pages[p]) && C == KeptSlots(s.pages[p], s.virtuals)
    ensures Checked(CommitFirst(s, v), mem, {v}, {}, {})
  {
  }

  lemma CommitFirstOldOwner(s: State, mem: Memory, v: nat, p: nat, A: set<nat>, C: set<nat>)
    requires Typed(s) && CanCommitFirst(s, v) && Checked(s, mem, {v} + A, {p}, C)
    requires p == s.virtuals[v].job.page && A == Pointer(s.pages[p]) && C == KeptSlots(s.pages[p], s.virtuals)
    ensures Checked(CommitFirst(s, v), mem, A, {}, {})
  {
  }

  lemma CommitFirstPage(s: State, mem: Memory, v: nat, p: nat, A: set<nat>, C: set<nat>)
    requires Typed(s) && CanCommitFirst(s, v) && Checked(s, mem, {v} + A, {p}, C)
    requires p == s.virtuals[v].job.page && A == Pointer(s.pages[p]) && C == KeptSlots(s.pages[p], s.virtuals)
    ensures Checked(CommitFirst(s, v), mem, {}, {p}, C)
  {
  }

  lemma CommitFirstKeeps(s: State, mem: Memory, v: nat)
    requires Inv(s, mem) && CanCommitFirst(s, v)
    ensures Inv(CommitFirst(s, v), mem)
  {
    var p := s.virtuals[v].job.page;
    assert PageOk(s, p);
    var A, C := Pointer(s.pages[p]), KeptSlots(s.pages[p], s.virtuals);
    CommitFirstWithin(s, mem, v, p, A, C);
    CommitFirstVirtualsClosed(s, mem, v, p, A, C);
    CommitFirstPageClosed(s, mem, v, p, A, C);
    CommitFirstClaimer(s, mem, v, p, A, C);
    CommitFirstOldOwner(s, mem, v, p, A, C);
    CommitFirstPage(s, mem, v, p, A, C);
    QuietStep(s, CommitFirst(s, v), mem, mem, {v} + A, {p}, C);
  }

  lemma RescueWithin(s: State, mem: Memory, v: nat, p: nat, write: bool)
    requires Typed(s) && CanRescue(s, v, p) && Checked(s, mem, {v}, {p}, {})
    ensures Within(s, Rescue(s, v, p, write), {v}, {p}, {}) && Closed(s, Rescue(s, v, p, write), {v}, {p}, {})
            && Quiet(s, Rescue(s, v, p, write), {p}, {})
  {
  }

  lemma RescueChecked(s: State, mem: Memory, v: nat, p: nat, write: bool)
    requires Typed(s) && CanRescue(s, v, p) && Checked(s, mem, {v}, {p}, {})
    ensures Checked(Rescue(s, v, p, write), mem, {v}, {p}, {})
  {
  }

  lemma RescueCount(s: State, v: nat, p: nat, write: bool)
    requires Typed(s) && CountOk(s) && CanRescue(s, v, p) && ListsOk(s.pages[p], p, s.lists)
    ensures CountOk(Rescue(s, v, p, write))
  {
  }

  lemma RescueKeeps(s: State, mem: Memory, v: nat, p: nat, write: bool)
    requires Inv(s, mem) && CanRescue(s, v, p)
    ensures Inv(Rescue(s, v, p, write), mem)
  {
    RescueWithin(s, mem, v, p, write);
    RescueChecked(s, mem, v, p, write);
    RescueCount(s, v, p, write);
    QuietStep(s, Rescue(s, v, p, write), mem, mem, {v}, {p}, {});
  }

  lemma CommitRescueWithin(s: State, mem: Memory, v: nat, p: nat, C: set<nat>)
    requires Typed(s) && CanCommitRescue(s, v) && Checked(s, mem, {v}, {p}, C)
    requires p == s.virtuals[v].job.page && C == KeptSlots(s.pages[p], s.virtuals)
    ensures Within(s, CommitRescue(s, v), {v}, {p}, C) && Closed(s, CommitRescue(s, v), {v}, {p}, C)
            && Quiet(s, CommitRescue(s, v), {p}, C)
  {
  }

  lemma CommitRescueChecked(s: State, mem: Memory, v: nat, p: nat, C: set<nat>)
    requires Typed(s) && CanCommitRescue(s, v) && Checked(s, mem, {v}, {p}, C)
    requires p == s.virtuals[v].job.page && C == KeptSlots(s.pages[p], s.virtuals)
    ensures Checked(CommitRescue(s, v), mem, {v}, {p}, C)
  {
  }

  lemma CommitRescueKeeps(s: State, mem: Memory, v: nat)
    requires Inv(s, mem) && CanCommitRescue(s, v)
    ensures Inv(CommitRescue(s, v), mem)
  {
    var p := s.virtuals[v].job.page;
    var C := KeptSlots(s.pages[p], s.virtuals);
    CommitRescueWithin(s, mem, v, p, C);
    CommitRescueChecked(s, mem, v, p, C);
    QuietStep(s, CommitRescue(s, v), mem, mem, {v}, {p}, C);
  }

  lemma TakeRightLocal(s: State, mem: Memory, v: nat)
    requires Typed(s) && CanTakeRight(s, v) && Checked(s, mem, {v}, {}, {})
    ensures Local(s, TakeRight(s, v), mem, mem, {v}, {}, {})
  {
  }

  lemma TakeRightKeeps(s: State, mem: Memory, v: nat)
    requires Inv(s, mem) && CanTakeRight(s, v)
    ensures Inv(TakeRight(s, v), mem)
  {
    TakeRightLocal(s, mem, v);
    QuietStep(s, TakeRight(s, v), mem, mem, {v}, {}, {});
  }

  lemma DropRightLocal(s: State, mem: Memory, v: nat)
    requires Typed(s) && CanDropRight(s, v) && Checked(s, mem, {v}, {}, {})
    ensures Local(s, DropRight(s, v), mem, mem, {v}, {}, {})
  {
  }

  lemma DropRightKeeps(s: State, mem: Memory, v: nat)
    requires Inv(s, mem) && CanDropRight(s, v)
    ensures Inv(DropRight(s, v), mem)
  {
    DropRightLocal(s, mem, v);
    QuietStep(s, DropRight(s, v), mem, mem, {v}, {}, {});
  }

  lemma CommitDiskWithin(s: State, mem: Memory, v: nat, p: nat, write: bool, A: set<nat>, C: set<nat>)
    requires Typed(s) && CanCommitDisk(s, v, p) && Checked(s, mem, {v} + A, {p}, C)
    requires A == Pointer(s.pages[p]) && C == KeptSlots(s.pages[p], s.virtuals)
    ensures Within(s, CommitDisk(s, v, p, write), {v} + A, {p}, C) && Quiet(s, CommitDisk(s, v, p, write), {p}, C)
  {
  }

  lemma CommitDiskVirtualsClosed(s: State, mem: Memory, v: nat, p: nat, write: bool, A: set<nat>, C: set<nat>)
    requires Typed(s) && CanCommitDisk(s, v, p) && Checked(s, mem, {v} + A, {p}, C)
    requires A == Pointer(s.pages[p]) && C == KeptSlots(s.pages[p], s.virtuals)
    ensures Within(s, CommitDisk(s, v, p, write), {v} + A, {p}, C)
            && VirtualsClosed(s, CommitDisk(s, v, p, write), {v} + A, {p}, C)
  {
    hide ContentsOk, TrimOk, ListsOk;
  }

  lemma CommitDiskPageClosed(s: State, mem: Memory, v: nat, p: nat, write: bool, A: set<nat>, C: set<nat>)
    requires Typed(s) && CanCommitDisk(s, v, p) && Checked(s, mem, {v} + A, {p}, C)
    requires A == Pointer(s.pages[p]) && C == KeptSlots(s.pages[p], s.virtuals)
    ensures Within(s, CommitDisk(s, v, p, write), {v} + A, {p}, C)
            && PagesClosed(s, CommitDisk(s, v, p, write), {v} + A, {p}, C) && SlotsClosed(s, {v} + A, {p}, C)
  {
    hide ContentsOk, TrimOk, ListsOk;
  }

  lemma CommitDiskClaimer(s: State, mem: Memory, v: nat, p: nat, write: bool, A: set<nat>, C: set<nat>)
    requires Typed(s) && CanCommitDisk(s, v, p) && Checked(s, mem, {v} + A, {p}, C)
    requires A == Pointer(s.pages[p]) && C == KeptSlots(s.pages[p], s.virtuals)
    ensures Checked(CommitDisk(s, v, p, write), mem, {v}, {}, {})
  {
  }

  lemma CommitDiskOldOwner(s: State, mem: Memory, v: nat, p: nat, write: bool, A: set<nat>, C: set<nat>)
    requires Typed(s) && CanCommitDisk(s, v, p) && Checked(s, mem, {v} + A, {p}, C)
    requires A == Pointer(s.pages[p]) && C == KeptSlots(s.pages[p], s.virtuals)
    ensures Checked(CommitDisk(s, v, p, write), mem, A, {}, {})
  {
  }

  lemma CommitDiskPage(s: State, mem: Memory, v: nat, p: nat, write: bool, A: set<nat>, C: set<nat>)
    requires Typed(s) && CanCommitDisk(s, v, p) && Checked(s, mem, {v} + A, {p}, C)
    requires A == Pointer(s.pages[p]) && C == KeptSlots(s.pages[p], s.virtuals)
    ensures Checked(CommitDisk(s, v, p, write), mem, {}, {p}, C)
  {
  }

  lemma CommitDiskKeeps(s: State, mem: Memory, v: nat, p: nat, write: bool)
    requires Inv(s, mem) && CanCommitDisk(s, v, p)
    ensures Inv(CommitDisk(s, v, p, write), mem)
  {
    assert PageOk(s, p);
    var A, C := Pointer(s.pages[p]), KeptSlots(s.pages[p], s.virtuals);
    CommitDiskWithin(s, mem, v, p, write, A, C);
    CommitDiskVirtualsClosed(s, mem, v, p, write, A, C);
    CommitDiskPageClosed(s, mem, v, p, write, A, C);
    CommitDiskClaimer(s, mem, v, p, write, A, C);
    CommitDiskOldOwner(s, mem, v, p, write, A, C);
    CommitDiskPage(s, mem, v, p, write, A, C);
    QuietStep(s, CommitDisk(s, v, p, write), mem, mem, {v} + A, {p}, C);
  }

  lemma FillWithin(s: State, mem: Memory, v: nat, p: nat)
    requires Typed(s) && CanFill(s, v) && Checked(s, mem, {v}, {p}, {})
    requires p == s.virtuals[v].job.page
    ensures Within(s, Fill(s, v), {v}, {p}, {}) && Closed(s, Fill(s, v), {v}, {p}, {}) && Quiet(s, Fill(s, v), {p}, {})
  {
  }

  lemma FillChecked(s: State, mem: Memory, v: nat, p: nat)
    requires Typed(s) && CanFill(s, v) && Checked(s, mem, {v}, {p}, {})
    requires p == s.virtuals[v].job.page
    ensures Checked(Fill(s, v), mem, {v}, {p}, {})
  {
  }

  lemma FillKeeps(s: State, mem: Memory, v: nat)
    requires Inv(s, mem) && CanFill(s, v)
    ensures Inv(Fill(s, v), mem)
  {
    var p := s.virtuals[v].job.page;
    FillWithin(s, mem, v, p);
    FillChecked(s, mem, v, p);
    QuietStep(s, Fill(s, v), mem, mem, {v}, {p}, {});
  }

  lemma SettleWithin(s: State, mem: Memory, v: nat, p: nat, C: set<nat>)
    requires Typed(s) && CanSettle(s, v) && Checked(s, mem, {v}, {p}, C)
    requires p == s.virtuals[v].job.page && C == StoredSlot(s.virtuals[v])
    ensures Within(s, Settle(s, v), {v}, {p}, C) && Closed(s, Settle(s, v), {v}, {p}, C)
            && Quiet(s, Settle(s, v), {p}, C)
  {
  }

  lemma SettleVirtual(s: State, mem: Memory, v: nat, p: nat, C: set<nat>)
    requires Typed(s) && CanSettle(s, v) && Checked(s, mem, {v}, {p}, C)
    requires p == s.virtuals[v].job.page && C == StoredSlot(s.virtuals[v])
    ensures Checked(Settle(s, v), mem, {v}, {}, {})
  {
  }

  lemma SettlePage(s: State, mem: Memory, v: nat, p: nat, C: set<nat>)
    requires Typed(s) && CanSettle(s, v) && Checked(s, mem, {v}, {p}, C)
    requires p == s.virtuals[v].job.page && C == StoredSlot(s.virtuals[v])
    ensures Checked(Settle(s, v), mem, {}, {p}, C)
  {
  }

  lemma SettleKeeps(s: State, mem: Memory, v: nat)
    requires Inv(s, mem) && CanSettle(s, v)
    ensures Inv(Settle(s, v), mem)
  {
    var p := s.virtuals[v].job.page;
    var C := StoredSlot(s.virtuals[v]);
    SettleWithin(s, mem, v, p, C);
    SettleVirtual(s, mem, v, p, C);
    SettlePage(s, mem, v, p, C);
    QuietStep(s, Settle(s, v), mem, mem, {v}, {p}, C);
  }

  lemma MapLocal(s: State, mem: Memory, v: nat)
    requires Typed(s) && CanMap(s, v) && Checked(s, mem, {v}, {}, {})
    ensures Local(s, Map(s, v), mem, mem, {v}, {}, {})
  {
  }

  lemma MapKeeps(s: State, mem: Memory, v: nat)
    requires Inv(s, mem) && CanMap(s, v)
    ensures Inv(Map(s, v), mem)
  {
    MapLocal(s, mem, v);
    QuietStep(s, Map(s, v), mem, mem, {v}, {}, {});
  }

  lemma FinishLocal(s: State, mem: Memory, v: nat)
    requires Typed(s) && CanFinish(s, v) && Checked(s, mem, {v}, {}, {})
    ensures Local(s, Finish(s, v), mem, mem, {v}, {}, {})
  {
  }

  lemma FinishKeeps(s: State, mem: Memory, v: nat)
    requires Inv(s, mem) && CanFinish(s, v)
    ensures Inv(Finish(s, v), mem)
  {
    FinishLocal(s, mem, v);
    QuietStep(s, Finish(s, v), mem, mem, {v}, {}, {});
  }
}
