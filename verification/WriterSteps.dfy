/** The steps of the modified writer keep the invariant.  The batch gets all
    the slots it asks for: every used slot is owned by a virtual page that has
    no page in the batch. */
module WriterSteps {
  import opened PageState
  import opened Protocol
  import opened Invariant
  import opened Footprint

  // ----- slot sufficiency -----------------------------------------------------

  /** The virtual page on whose account slot k is used. */
  function OwnerOf(s: State, k: nat): (v: nat)
    requires Sound(s) && k < |s.slots| && !s.slots[k].deed.NoDeed?
    ensures v < |s.virtuals|
  {
    assert SlotOk(s, k);
    match s.slots[k].deed
    case ByPte(v) => v
    case ByPage(p) => assert PageOk(s, p); s.pages[p].pte.value
    case ByBatch(i) => assert EntryOk(s, i); assert PageOk(s, s.batch[i].page); s.pages[s.batch[i].page].pte.value
  }

  /** Different slots have different owners. */
  lemma OwnersDiffer(s: State, k: nat, l: nat)
    requires Sound(s) && k < |s.slots| && l < |s.slots|
    requires !s.slots[k].deed.NoDeed? && !s.slots[l].deed.NoDeed? && OwnerOf(s, k) == OwnerOf(s, l)
    ensures k == l
  {
    assert SlotOk(s, k) && SlotOk(s, l);
    assert VirtualOk(s, OwnerOf(s, k));
    var d, e := s.slots[k].deed, s.slots[l].deed;
    if d.ByPage? { assert PageOk(s, d.p); }
    if e.ByPage? { assert PageOk(s, e.p); }
    if d.ByBatch? { assert EntryOk(s, d.i) && PageOk(s, s.batch[d.i].page); }
    if e.ByBatch? { assert EntryOk(s, e.i) && PageOk(s, s.batch[e.i].page); }
  }

  lemma {:induction false} InjectionFits(m: map<nat, nat>, targets: set<nat>)
    requires forall k :: k in m ==> m[k] in targets
    requires forall k, l :: k in m && l in m && m[k] == m[l] ==> k == l
    ensures |m| <= |targets|
    decreases |m|
  {
    if m != map[] {
      var k :| k in m;
      var rest := map l | l in m && l != k :: m[l];
      assert m.Keys == rest.Keys + {k};
      InjectionFits(rest, targets - {m[k]});
      assert |rest| == |m| - 1;
    }
  }

  lemma {:induction false} DistinctSize(xs: seq<nat>)
    requires Distinct(xs)
    ensures |Elements(xs)| == |xs|
  {
    if xs != [] {
      var last := |xs| - 1;
      DistinctSize(xs[..last]);
      assert xs == xs[..last] + [xs[last]];
      assert Elements(xs) == Elements(xs[..last]) + {xs[last]};
      assert xs[last] !in Elements(xs[..last]);
    }
  }

  /** A page in the batch belongs to a virtual page, which owns no slot. */
  lemma BatchOwner(s: State, i: nat)
    requires Sound(s) && !s.writing && i < |s.batch|
    ensures s.pages[s.batch[i].page].pte.Some? && s.pages[s.batch[i].page].pte.value < |s.virtuals|
    ensures forall k :: 0 <= k < |s.slots| && !s.slots[k].deed.NoDeed? ==>
            s.pages[s.batch[i].page].pte.value != OwnerOf(s, k)
  {
    var p := s.batch[i].page;
    assert EntryOk(s, i) && PageOk(s, p);
    forall k | 0 <= k < |s.slots| && !s.slots[k].deed.NoDeed? ensures s.pages[p].pte.value != OwnerOf(s, k) {
      OwnerNotInBatch(s, k, i);
    }
  }

  lemma OwnerNotInBatch(s: State, k: nat, i: nat)
    requires Sound(s) && !s.writing && k < |s.slots| && !s.slots[k].deed.NoDeed? && i < |s.batch|
    ensures s.pages[s.batch[i].page].pte != Some(OwnerOf(s, k))
  {
    var p := s.batch[i].page;
    assert SlotOk(s, k) && EntryOk(s, i) && PageOk(s, p);
    assert VirtualOk(s, s.pages[p].pte.value);
    forall j | 0 <= j < |s.batch| ensures s.batch[j].slot == 0 { assert EntryOk(s, j); }
    var d := s.slots[k].deed;
    if d.ByPage? { assert PageOk(s, d.p); }
  }

  lemma BatchOwnersDiffer(s: State, i: nat, j: nat)
    requires Sound(s) && !s.writing && i < j < |s.batch|
    ensures s.pages[s.batch[i].page].pte != s.pages[s.batch[j].page].pte
  {
    assert EntryOk(s, i) && PageOk(s, s.batch[i].page);
    assert EntryOk(s, j) && PageOk(s, s.batch[j].page);
  }

  /** The virtual pages that have a page in the batch, in batch order. */
  lemma BatchOwners(s: State) returns (owners: seq<nat>)
    requires Sound(s) && !s.writing
    ensures |owners| == |s.batch| && (forall i :: 0 <= i < |owners| ==> owners[i] < |s.virtuals|)
    ensures forall i, j :: 0 <= i < j < |owners| ==> owners[i] != owners[j]
    ensures forall i, k :: 0 <= i < |owners| && 0 <= k < |s.slots| && !s.slots[k].deed.NoDeed? ==>
            owners[i] != OwnerOf(s, k)
  {
    forall i | 0 <= i < |s.batch| ensures s.pages[s.batch[i].page].pte.Some? { BatchOwner(s, i); }
    owners := seq(|s.batch|, i requires 0 <= i < |s.batch| => s.pages[s.batch[i].page].pte.value);
    forall i | 0 <= i < |s.batch|
      ensures owners[i] < |s.virtuals|
      ensures forall k :: 0 <= k < |s.slots| && !s.slots[k].deed.NoDeed? ==> owners[i] != OwnerOf(s, k)
    {
      BatchOwner(s, i);
    }
    forall i, j | 0 <= i < j < |s.batch| ensures owners[i] != owners[j] {
      BatchOwner(s, i);
      BatchOwner(s, j);
      BatchOwnersDiffer(s, i, j);
    }
  }

  /** The slots owned by virtual pages without a page in the batch. */
  lemma OwnedFit(s: State, owned: set<nat>)
    requires Sound(s) && !s.writing
    requires forall k :: k in owned ==> k < |s.slots| && !s.slots[k].deed.NoDeed?
    ensures |owned| <= |s.virtuals| - |s.batch|
  {
    var owners := BatchOwners(s);
    DistinctSize(owners);
    var batchers, all := Elements(owners), Below(|s.virtuals|);
    var owner := map k | k in owned :: OwnerOf(s, k);
    forall k, l | k in owner && l in owner && owner[k] == owner[l] ensures k == l {
      OwnersDiffer(s, k, l);
    }
    assert owner.Keys == owned;
    assert batchers <= all && (all - batchers) + batchers == all;
    InjectionFits(owner, all - batchers);
  }

  /** While the writer collects its batch there is a slot for every page in
      it, and one more. */
  lemma SlotsSuffice(s: State)
    requires Sound(s) && !s.writing
    ensures |FreeSlotSet(s)| > |s.batch|
  {
    var n := |s.slots|;
    var owned := set k: nat | k < n && !s.slots[k].deed.NoDeed?;
    OwnedFit(s, owned);
    forall k: nat | k < n ensures k in FreeSlotSet(s) <==> k !in owned + {0} {
      assert SlotOk(s, k);
    }
    assert FreeSlotSet(s) == Below(n) - (owned + {0});
  }

  // ----- collecting ---------------------------------------------------------------

  lemma PopLocal(s: State, mem: Memory, p: nat, A: set<nat>)
    requires Typed(s) && CanPop(s, p) && Checked(s, mem, A, {p}, {}) && A == Pointer(s.pages[p])
    ensures Within(s, Pop(s, p), A, {p}, {}) && Closed(s, Pop(s, p), A, {p}, {})
  {
  }

  lemma PopChecked(s: State, mem: Memory, p: nat, A: set<nat>)
    requires Typed(s) && CanPop(s, p) && Checked(s, mem, A, {p}, {}) && A == Pointer(s.pages[p])
    ensures Checked(Pop(s, p), mem, A, {p}, {})
  {
  }

  lemma PopBatch(s: State, p: nat)
    requires Sound(s) && CanPop(s, p)
    ensures BatchSound(Pop(s, p)) && EntriesKept(s, Pop(s, p), {}) && CountOk(Pop(s, p))
  {
    var s' := Pop(s, p);
    forall i | 0 <= i < |s.batch| ensures EntryOk(s', i) && s.pages[s.batch[i].page].writing {
      assert EntryOk(s, i);
    }
    forall q | 0 <= q < |s.pages| && s'.pages[q].writing ensures InBatch(s'.batch, q) {
      if s.pages[q].writing {
        var i :| 0 <= i < |s.batch| && s.batch[i].page == q && !s.batch[i].done;
        assert s'.batch[i] == s.batch[i];
      } else {
        assert s'.batch[|s.batch|].page == q;
      }
    }
  }

  lemma PopKeeps(s: State, mem: Memory, p: nat)
    requires Inv(s, mem) && CanPop(s, p)
    ensures Inv(Pop(s, p), mem)
  {
    assert PageOk(s, p);
    var A := Pointer(s.pages[p]);
    PopLocal(s, mem, p, A);
    PopChecked(s, mem, p, A);
    PopBatch(s, p);
    LocalStep(s, Pop(s, p), mem, mem, A, {p}, {});
  }

  // ----- allotting slots ------------------------------------------------------------

  lemma IndexUnique(slots: seq<nat>, i: nat)
    requires i < |slots| && forall i, j :: 0 <= i < j < |slots| ==> slots[i] != slots[j]
    ensures slots[i] in slots && Position(slots, slots[i]) == i
  {
    assert slots[Position(slots, slots[i])] == slots[i];
  }

  lemma AllotSlots(s: State, slots: seq<nat>)
    requires Sound(s) && CanAllot(s, slots) && |slots| == |s.batch|
    ensures forall k :: k in slots ==> 0 <= k < |s.slots| && s.slots[k].deed.NoDeed? && SlotOk(Allot(s, slots), k)
  {
    var s' := Allot(s, slots);
    forall k | k in slots ensures 0 <= k < |s.slots| && s.slots[k].deed.NoDeed? && SlotOk(s', k) {
      var i := Position(slots, k);
      assert SlotOk(s, k) && EntryOk(s, i);
      assert s'.batch[i].slot == k;
    }
  }

  lemma AllotEntry(s: State, slots: seq<nat>, i: nat)
    requires Sound(s) && CanAllot(s, slots) && |slots| == |s.batch| && i < |s.batch|
    ensures s.batch[i].slot == 0 && Allot(s, slots).batch[i] == s.batch[i].(slot := slots[i])
    ensures EntryOk(Allot(s, slots), i)
  {
    assert EntryOk(s, i);
    IndexUnique(slots, i);
  }

  lemma AllotBatch(s: State, slots: seq<nat>)
    requires Sound(s) && CanAllot(s, slots) && |slots| == |s.batch|
    ensures BatchSound(Allot(s, slots))
    ensures forall i :: 0 <= i < |s.batch| ==> s.batch[i].slot == 0
  {
    var s' := Allot(s, slots);
    forall i | 0 <= i < |s.batch|
      ensures s.batch[i].slot == 0 && s'.batch[i] == s.batch[i].(slot := slots[i]) && EntryOk(s', i) {
      AllotEntry(s, slots, i);
    }
    forall p | 0 <= p < |s.pages| && s.pages[p].writing ensures InBatch(s'.batch, p) {
      var i :| 0 <= i < |s.batch| && s.batch[i].page == p && !s.batch[i].done;
      assert s'.batch[i].page == p && !s'.batch[i].done;
    }
  }

  /** Slot 0 stands for "no slot" before the allotment. */
  lemma AllotKeeps(s: State, mem: Memory, slots: seq<nat>)
    requires Inv(s, mem) && CanAllot(s, slots)
    ensures |slots| == |s.batch|
    ensures Inv(Allot(s, slots), mem)
  {
    SlotsSuffice(s);
    AllotSlots(s, slots);
    AllotBatch(s, slots);
    var C := (set k | k in slots) + {0};
    assert SlotOk(s, 0);
    assert SlotOk(Allot(s, slots), 0);
    LocalStep(s, Allot(s, slots), mem, mem, {}, {}, C);
  }

  // ----- copying and completing --------------------------------------------------------

  lemma StoreKeeps(s: State, mem: Memory, i: nat)
    requires Inv(s, mem) && CanStore(s, i)
    ensures Inv(Store(s, i), mem)
  {
    var s' := Store(s, i);
    var k := s.batch[i].slot;
    assert EntryOk(s, i) && SlotOk(s, k);
    forall j | 0 <= j < |s.batch| ensures EntryOk(s', j) { assert EntryOk(s, j); }
    forall p | 0 <= p < |s.pages| && s.pages[p].writing ensures InBatch(s'.batch, p) {
      var j :| 0 <= j < |s.batch| && s.batch[j].page == p && !s.batch[j].done;
      assert s'.batch[j].page == p && !s'.batch[j].done;
    }
    LocalStep(s, s', mem, mem, {}, {}, {k});
  }

  lemma CompleteLocal(s: State, mem: Memory, i: nat, p: nat, A: set<nat>, k: nat)
    requires Typed(s) && CanComplete(s, i) && EntryOk(s, i) && Checked(s, mem, A, {p}, {k})
    requires p == s.batch[i].page && A == Pointer(s.pages[p]) && k == s.batch[i].slot
    ensures Within(s, Complete(s, i), A, {p}, {k}) && Closed(s, Complete(s, i), A, {p}, {k})
  {
  }

  lemma CompleteChecked(s: State, mem: Memory, i: nat, p: nat, A: set<nat>, k: nat)
    requires Typed(s) && CanComplete(s, i) && EntryOk(s, i) && Checked(s, mem, A, {p}, {k})
    requires p == s.batch[i].page && A == Pointer(s.pages[p]) && k == s.batch[i].slot
    ensures Checked(Complete(s, i), mem, A, {p}, {k})
  {
    CompleteVirtual(s, mem, i, p, A, k);
    CompletePage(s, mem, i, p, A, k);
    hide PageOk, VirtualOk, ContentsOk;
  }

  lemma CompleteVirtual(s: State, mem: Memory, i: nat, p: nat, A: set<nat>, k: nat)
    requires Typed(s) && CanComplete(s, i) && EntryOk(s, i) && Checked(s, mem, A, {p}, {k})
    requires p == s.batch[i].page && A == Pointer(s.pages[p]) && k == s.batch[i].slot
    ensures forall v :: v in A ==>
              && v < |Complete(s, i).virtuals| && v < |mem|
              && VirtualOk(Complete(s, i), v) && ContentsOk(Complete(s, i), mem, v)
  {
  }

  lemma CompletePage(s: State, mem: Memory, i: nat, p: nat, A: set<nat>, k: nat)
    requires Typed(s) && CanComplete(s, i) && EntryOk(s, i) && Checked(s, mem, A, {p}, {k})
    requires p == s.batch[i].page && A == Pointer(s.pages[p]) && k == s.batch[i].slot
    ensures p < |Complete(s, i).pages| && PageTyped(Complete(s, i).pages[p], |s.virtuals|, |s.slots|)
    ensures PageOk(Complete(s, i), p)
  {
  }

  lemma CompleteBatch(s: State, i: nat)
    requires Sound(s) && CanComplete(s, i)
    ensures BatchSound(Complete(s, i)) && EntriesKept(s, Complete(s, i), {s.batch[i].slot})
  {
    var s' := Complete(s, i);
    forall j | 0 <= j < |s.batch| ensures EntryOk(s', j) { assert EntryOk(s, i) && EntryOk(s, j); }
    forall p | 0 <= p < |s.pages| && s'.pages[p].writing ensures InBatch(s'.batch, p) {
      var j :| 0 <= j < |s.batch| && s.batch[j].page == p && !s.batch[j].done;
      assert s'.batch[j].page == p && !s'.batch[j].done;
    }
  }

  lemma CompleteCount(s: State, i: nat)
    requires Typed(s) && CountOk(s) && CanComplete(s, i) && ListsOk(s.pages[s.batch[i].page], s.batch[i].page, s.lists)
    ensures CountOk(Complete(s, i))
  {
  }

  lemma CompleteKeeps(s: State, mem: Memory, i: nat)
    requires Inv(s, mem) && CanComplete(s, i)
    ensures Inv(Complete(s, i), mem)
  {
    var p, k := s.batch[i].page, s.batch[i].slot;
    assert EntryOk(s, i) && PageOk(s, p);
    var A := Pointer(s.pages[p]);
    CompleteLocal(s, mem, i, p, A, k);
    CompleteChecked(s, mem, i, p, A, k);
    CompleteBatch(s, i);
    CompleteCount(s, i);
    LocalStep(s, Complete(s, i), mem, mem, A, {p}, {k});
  }

  lemma NextBatchKeeps(s: State, mem: Memory)
    requires Inv(s, mem) && CanNextBatch(s)
    ensures Inv(NextBatch(s), mem)
  {
    forall p | 0 <= p < |s.pages| ensures !s.pages[p].writing {
      assert !InBatch(s.batch, p);
    }
    LocalStep(s, NextBatch(s), mem, mem, {}, {}, {});
  }
}
