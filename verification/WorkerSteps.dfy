/** The steps of the trimmer, the list refresher and the zeroing thread keep the invariant. */
module WorkerSteps {
  import opened PageState
  import opened Protocol
  import opened Invariant
  import opened Footprint

  lemma MarkLocal(s: State, mem: Memory, v: nat)
    requires Typed(s) && CanMark(s, v) && Checked(s, mem, {v}, {}, {})
    ensures Local(s, Mark(s, v), mem, mem, {v}, {}, {})
  {
  }

  lemma MarkKeeps(s: State, mem: Memory, v: nat)
    requires Inv(s, mem) && CanMark(s, v)
    ensures Inv(Mark(s, v), mem)
  {
    MarkLocal(s, mem, v);
    QuietStep(s, Mark(s, v), mem, mem, {v}, {}, {});
  }

  lemma UnmarkLocal(s: State, mem: Memory, v: nat)
    requires Typed(s) && CanUnmark(s, v) && Checked(s, mem, {v}, {}, {})
    ensures Local(s, Unmark(s, v), mem, mem, {v}, {}, {})
  {
  }

  lemma UnmarkKeeps(s: State, mem: Memory, v: nat)
    requires Inv(s, mem) && CanUnmark(s, v)
    ensures Inv(Unmark(s, v), mem)
  {
    UnmarkLocal(s, mem, v);
    QuietStep(s, Unmark(s, v), mem, mem, {v}, {}, {});
  }

  lemma UnhookLocal(s: State, mem: Memory, v: nat)
    requires Typed(s) && CanUnhook(s, v) && Checked(s, mem, {v}, {}, {})
    ensures Local(s, Unhook(s, v), mem, mem, {v}, {}, {})
  {
  }

  lemma UnhookKeeps(s: State, mem: Memory, v: nat)
    requires Inv(s, mem) && CanUnhook(s, v)
    ensures Inv(Unhook(s, v), mem)
  {
    UnhookLocal(s, mem, v);
    QuietStep(s, Unhook(s, v), mem, mem, {v}, {}, {});
  }

  lemma CopyWithin(s: State, mem: Memory, v: nat)
    requires Typed(s) && CanCopy(s, v) && Checked(s, mem, {v}, {}, {})
    ensures Within(s, Copy(s, v), {v}, {}, {}) && Closed(s, Copy(s, v), {v}, {}, {}) && Quiet(s, Copy(s, v), {}, {})
  {
  }

  lemma CopyChecked(s: State, mem: Memory, v: nat)
    requires Typed(s) && CanCopy(s, v) && Checked(s, mem, {v}, {}, {})
    ensures Checked(Copy(s, v), mem, {v}, {}, {})
  {
  }

  lemma CopyKeeps(s: State, mem: Memory, v: nat)
    requires Inv(s, mem) && CanCopy(s, v)
    ensures Inv(Copy(s, v), mem)
  {
    CopyWithin(s, mem, v);
    CopyChecked(s, mem, v);
    QuietStep(s, Copy(s, v), mem, mem, {v}, {}, {});
  }

  lemma SwapWithin(s: State, mem: Memory, v: nat)
    requires Typed(s) && CanSwap(s, v) && Checked(s, mem, {v}, {}, {})
    ensures Within(s, Swap(s, v), {v}, {}, {}) && Closed(s, Swap(s, v), {v}, {}, {}) && Quiet(s, Swap(s, v), {}, {})
  {
  }

  lemma SwapChecked(s: State, mem: Memory, v: nat)
    requires Typed(s) && CanSwap(s, v) && Checked(s, mem, {v}, {}, {})
    ensures Checked(Swap(s, v), mem, {v}, {}, {})
  {
  }

  lemma SwapKeeps(s: State, mem: Memory, v: nat)
    requires Inv(s, mem) && CanSwap(s, v)
    ensures Inv(Swap(s, v), mem)
  {
    SwapWithin(s, mem, v);
    SwapChecked(s, mem, v);
    QuietStep(s, Swap(s, v), mem, mem, {v}, {}, {});
  }

  lemma ChooseWithin(s: State, mem: Memory, v: nat, p: nat)
    requires Typed(s) && CanChoose(s, v) && Checked(s, mem, {v}, {p}, {})
    requires s.virtuals[v].pte.Valid? && p == s.virtuals[v].pte.frame
    ensures Within(s, Choose(s, v), {v}, {p}, {}) && Closed(s, Choose(s, v), {v}, {p}, {})
            && Quiet(s, Choose(s, v), {p}, {})
  {
  }

  lemma ChooseChecked(s: State, mem: Memory, v: nat, p: nat)
    requires Typed(s) && CanChoose(s, v) && Checked(s, mem, {v}, {p}, {})
    requires s.virtuals[v].pte.Valid? && p == s.virtuals[v].pte.frame
    ensures Checked(Choose(s, v), mem, {v}, {p}, {})
  {
  }

  lemma ChooseKeeps(s: State, mem: Memory, v: nat)
    requires Inv(s, mem) && CanChoose(s, v)
    ensures Inv(Choose(s, v), mem)
  {
    assert VirtualOk(s, v);
    var p := s.virtuals[v].pte.frame;
    ChooseWithin(s, mem, v, p);
    ChooseChecked(s, mem, v, p);
    QuietStep(s, Choose(s, v), mem, mem, {v}, {p}, {});
  }

  lemma ListWithin(s: State, mem: Memory, v: nat, p: nat)
    requires Typed(s) && CanList(s, v) && Checked(s, mem, {v}, {p}, {})
    requires s.virtuals[v].pte.Valid? && p == s.virtuals[v].pte.frame
    ensures Within(s, List(s, v), {v}, {p}, {}) && Closed(s, List(s, v), {v}, {p}, {}) && Quiet(s, List(s, v), {p}, {})
  {
  }

  lemma ListChecked(s: State, mem: Memory, v: nat, p: nat)
    requires Typed(s) && CanList(s, v) && Checked(s, mem, {v}, {p}, {})
    requires s.virtuals[v].pte.Valid? && p == s.virtuals[v].pte.frame
    ensures Checked(List(s, v), mem, {v}, {p}, {})
  {
  }

  lemma ListKeeps(s: State, mem: Memory, v: nat)
    requires Inv(s, mem) && CanList(s, v)
    ensures Inv(List(s, v), mem)
  {
    assert VirtualOk(s, v);
    var p := s.virtuals[v].pte.frame;
    ListWithin(s, mem, v, p);
    ListChecked(s, mem, v, p);
    QuietStep(s, List(s, v), mem, mem, {v}, {p}, {});
  }

  lemma TakeOldWithin(s: State, mem: Memory, p: nat, A: set<nat>)
    requires Typed(s) && CanTakeOld(s, p) && Checked(s, mem, A, {p}, {})
    requires A == Pointer(s.pages[p])
    ensures Within(s, TakeOld(s, p), A, {p}, {}) && Closed(s, TakeOld(s, p), A, {p}, {})
            && Quiet(s, TakeOld(s, p), {p}, {})
  {
  }

  lemma TakeOldChecked(s: State, mem: Memory, p: nat, A: set<nat>)
    requires Typed(s) && CanTakeOld(s, p) && Checked(s, mem, A, {p}, {})
    requires A == Pointer(s.pages[p])
    ensures Checked(TakeOld(s, p), mem, A, {p}, {})
  {
  }

  lemma TakeOldCount(s: State, p: nat)
    requires Typed(s) && CountOk(s) && CanTakeOld(s, p) && p < |s.pages|
    ensures CountOk(TakeOld(s, p))
  {
  }

  lemma TakeOldKeeps(s: State, mem: Memory, p: nat)
    requires Inv(s, mem) && CanTakeOld(s, p)
    ensures Inv(TakeOld(s, p), mem)
  {
    assert PageOk(s, p);
    var A := Pointer(s.pages[p]);
    TakeOldWithin(s, mem, p, A);
    TakeOldChecked(s, mem, p, A);
    TakeOldCount(s, p);
    QuietStep(s, TakeOld(s, p), mem, mem, A, {p}, {});
  }

  lemma DetachWithin(s: State, mem: Memory, p: nat, A: set<nat>, C: set<nat>)
    requires Typed(s) && CanDetach(s, p) && Checked(s, mem, A, {p}, C)
    requires A == Pointer(s.pages[p]) && C == KeptSlots(s.pages[p], s.virtuals)
    ensures Within(s, Detach(s, p), A, {p}, C) && Quiet(s, Detach(s, p), {p}, C)
  {
  }

  lemma DetachClosed(s: State, mem: Memory, p: nat, A: set<nat>, C: set<nat>)
    requires Typed(s) && CanDetach(s, p) && Checked(s, mem, A, {p}, C)
    requires A == Pointer(s.pages[p]) && C == KeptSlots(s.pages[p], s.virtuals) && Within(s, Detach(s, p), A, {p}, C)
    ensures Closed(s, Detach(s, p), A, {p}, C)
  {
    hide Within, Typed;
  }

  lemma DetachChecked(s: State, mem: Memory, p: nat, A: set<nat>, C: set<nat>)
    requires Typed(s) && CanDetach(s, p) && Checked(s, mem, A, {p}, C)
    requires A == Pointer(s.pages[p]) && C == KeptSlots(s.pages[p], s.virtuals)
    ensures Checked(Detach(s, p), mem, A, {p}, C)
  {
  }

  lemma DetachKeeps(s: State, mem: Memory, p: nat)
    requires Inv(s, mem) && CanDetach(s, p)
    ensures Inv(Detach(s, p), mem)
  {
    assert PageOk(s, p);
    var A, C := Pointer(s.pages[p]), KeptSlots(s.pages[p], s.virtuals);
    DetachWithin(s, mem, p, A, C);
    DetachClosed(s, mem, p, A, C);
    DetachChecked(s, mem, p, A, C);
    QuietStep(s, Detach(s, p), mem, mem, A, {p}, C);
  }

  lemma AddFreeLocal(s: State, mem: Memory, p: nat)
    requires Typed(s) && CanAddFree(s, p) && Checked(s, mem, {}, {p}, {})
    ensures Local(s, AddFree(s, p), mem, mem, {}, {p}, {})
  {
  }

  lemma AddFreeCount(s: State, p: nat)
    requires Typed(s) && CountOk(s) && CanAddFree(s, p) && ListsOk(s.pages[p], p, s.lists)
    ensures CountOk(AddFree(s, p))
  {
  }

  lemma AddFreeKeeps(s: State, mem: Memory, p: nat)
    requires Inv(s, mem) && CanAddFree(s, p)
    ensures Inv(AddFree(s, p), mem)
  {
    assert PageOk(s, p);
    AddFreeLocal(s, mem, p);
    AddFreeCount(s, p);
    QuietStep(s, AddFree(s, p), mem, mem, {}, {p}, {});
  }

  lemma AddZeroSlotLocal(s: State, mem: Memory, p: nat)
    requires Typed(s) && CanAddFree(s, p) && Checked(s, mem, {}, {p}, {})
    ensures Local(s, AddZeroSlot(s, p), mem, mem, {}, {p}, {})
  {
  }

  lemma AddZeroSlotKeeps(s: State, mem: Memory, p: nat)
    requires Inv(s, mem) && CanAddFree(s, p)
    ensures Inv(AddZeroSlot(s, p), mem)
  {
    assert PageOk(s, p);
    AddZeroSlotLocal(s, mem, p);
    QuietStep(s, AddZeroSlot(s, p), mem, mem, {}, {p}, {});
  }

  lemma TakeZeroSlotLocal(s: State, mem: Memory, p: nat)
    requires Typed(s) && CanTakeZeroSlot(s, p) && Checked(s, mem, {}, {p}, {})
    ensures Local(s, TakeZeroSlot(s, p), mem, mem, {}, {p}, {})
  {
  }

  lemma TakeZeroSlotKeeps(s: State, mem: Memory, p: nat)
    requires Inv(s, mem) && CanTakeZeroSlot(s, p)
    ensures Inv(TakeZeroSlot(s, p), mem)
  {
    assert PageOk(s, p);
    TakeZeroSlotLocal(s, mem, p);
    QuietStep(s, TakeZeroSlot(s, p), mem, mem, {}, {p}, {});
  }

  lemma ClearLocal(s: State, mem: Memory, p: nat)
    requires Typed(s) && CanClear(s, p) && Checked(s, mem, {}, {p}, {})
    ensures Local(s, Clear(s, p), mem, mem, {}, {p}, {})
  {
  }

  lemma ClearKeeps(s: State, mem: Memory, p: nat)
    requires Inv(s, mem) && CanClear(s, p)
    ensures Inv(Clear(s, p), mem)
  {
    assert PageOk(s, p);
    ClearLocal(s, mem, p);
    QuietStep(s, Clear(s, p), mem, mem, {}, {p}, {});
  }

  lemma AddZeroLocal(s: State, mem: Memory, p: nat)
    requires Typed(s) && CanAddZero(s, p) && Checked(s, mem, {}, {p}, {})
    ensures Local(s, AddZero(s, p), mem, mem, {}, {p}, {})
  {
  }

  lemma AddZeroCount(s: State, p: nat)
    requires Typed(s) && CountOk(s) && CanAddZero(s, p) && ListsOk(s.pages[p], p, s.lists)
    ensures CountOk(AddZero(s, p))
  {
  }

  lemma AddZeroKeeps(s: State, mem: Memory, p: nat)
    requires Inv(s, mem) && CanAddZero(s, p)
    ensures Inv(AddZero(s, p), mem)
  {
    assert PageOk(s, p);
    AddZeroLocal(s, mem, p);
    AddZeroCount(s, p);
    QuietStep(s, AddZero(s, p), mem, mem, {}, {p}, {});
  }
}
