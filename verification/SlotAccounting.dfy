/** How many pagefile slots are free, and when the assertion at the start of
    every pagefault holds: the modified list is no longer than the number of
    free slots. */
module SlotAccounting {
  import opened PageState
  import opened Protocol
  import opened Invariant
  import opened WriterSteps
  import opened Assertions
  import opened Theorems
  import opened Runs

  /** The pages of the batch that wait for their completion on the modified list:
      they were rescued, written to and trimmed since they got their slots. */
  function BackOnList(s: State): set<nat> {
    set p: nat | p in s.lists.modified && s.writing && p < |s.pages| && s.pages[p].writing
  }

  /** Some slot other than 0 belongs to v. */
  ghost predicate OwnsSome(s: State, v: nat) {
    exists k: nat :: 0 < k < |s.slots| && Owns(s, v, k)
  }

  /** A page of v is on the modified list. */
  ghost predicate HasModified(s: State, v: nat) {
    exists p: nat :: p in s.lists.modified && p < |s.pages| && s.pages[p].pte == Some(v)
  }

  /** The virtual pages that need no slot: they own none, and have no page on the
      modified list. */
  ghost function NeedNone(s: State): set<nat> {
    set v: nat | v < |s.virtuals| && !OwnsSome(s, v) && !HasModified(s, v)
  }

  // ----- counting ------------------------------------------------------------------------

  ghost predicate Injective(f: map<nat, nat>) {
    forall x, y :: x in f && y in f && f[x] == f[y] ==> x == y
  }

  lemma {:induction false} ImageSize(f: map<nat, nat>)
    requires Injective(f)
    ensures |f.Values| == |f.Keys|
    decreases |f.Keys|
  {
    if f.Keys == {} {
      assert f.Values == {};
    } else {
      var x :| x in f;
      var g := f - {x};
      assert g.Keys == f.Keys - {x};
      forall y | y in f.Values ensures y in g.Values + {f[x]} {
        var z :| z in f && f[z] == y;
        if z != x { assert z in g && g[z] == y; }
      }
      assert f.Values == g.Values + {f[x]};
      assert f[x] !in g.Values;
      ImageSize(g);
    }
  }

  lemma ComplementSize(n: nat, a: set<nat>, b: set<nat>)
    requires forall v :: v in a ==> v < n
    requires forall v: nat :: v in b <==> v < n && v !in a
    ensures |b| == n - |a|
  {
    assert a <= Below(n) && b == Below(n) - a;
    assert (Below(n) - a) + a == Below(n);
  }

  lemma UnionSize(a: set<nat>, b: set<nat>)
    ensures |a + b| == |a| + |b| - |a * b|
  {
    assert a + b == a + (b - a) && b == (b - a) + (a * b);
  }

  // ----- owners and pages on the modified list ---------------------------------------------

  /** The slots in use, other than 0. */
  ghost function OwnedSlots(s: State): (r: set<nat>)
    ensures forall k :: k in r <==> 0 <= k < |s.slots| && !s.slots[k].deed.NoDeed?
  {
    set k: nat | k < |s.slots| && !s.slots[k].deed.NoDeed?
  }

  ghost function Owners(s: State): set<nat>
    requires Sound(s)
  {
    (map k | k in OwnedSlots(s) :: OwnerOf(s, k)).Values
  }

  ghost function PteOf(s: State, p: nat): nat {
    if p < |s.pages| && s.pages[p].pte.Some? then s.pages[p].pte.value else 0
  }

  ghost function ModifiedVirtuals(s: State): set<nat> {
    (map p | p in s.lists.modified :: PteOf(s, p)).Values
  }

  lemma OwnersCount(s: State)
    requires Sound(s)
    ensures |Owners(s)| == |OwnedSlots(s)|
    ensures forall v: nat :: v in Owners(s) <==> v < |s.virtuals| && OwnsSome(s, v)
  {
    var f := map k | k in OwnedSlots(s) :: OwnerOf(s, k);
    forall k, l | k in f && l in f && f[k] == f[l] ensures k == l { OwnersDiffer(s, k, l); }
    ImageSize(f);
    assert f.Keys == OwnedSlots(s);
    forall v: nat | v in Owners(s) ensures v < |s.virtuals| && OwnsSome(s, v) {
      var k :| k in f && f[k] == v;
      OwnerInRange(s, k);
      UsedIsOwned(s, k);
    }
    forall v: nat | v < |s.virtuals| && OwnsSome(s, v) ensures v in Owners(s) {
      var k: nat :| 0 < k < |s.slots| && Owns(s, v, k);
      OwnershipIsAccounted(s, v, k);
      assert k in f && f[k] == v;
    }
  }

  lemma OwnerInRange(s: State, k: nat)
    requires Sound(s) && k < |s.slots| && !s.slots[k].deed.NoDeed?
    ensures k > 0 && OwnerOf(s, k) < |s.virtuals|
  {
    assert SlotOk(s, k);
  }

  lemma ModifiedIsHome(s: State, p: nat)
    requires Sound(s) && p in s.lists.modified
    ensures p < |s.pages| && s.pages[p].pte == Some(PteOf(s, p)) && PteOf(s, p) < |s.virtuals|
    ensures HomeOf(s.virtuals[PteOf(s, p)]) == Some(p) && s.pages[p].slot == 0 && s.pages[p].status.Modified?
  {
    assert PageOk(s, p);
  }

  lemma ListedCount(s: State)
    requires Sound(s)
    ensures |ModifiedVirtuals(s)| == |s.lists.modified|
    ensures forall v: nat :: v in ModifiedVirtuals(s) <==> v < |s.virtuals| && HasModified(s, v)
  {
    var f := map p | p in s.lists.modified :: PteOf(s, p);
    forall p, q | p in f && q in f && f[p] == f[q] ensures p == q {
      ModifiedIsHome(s, p);
      ModifiedIsHome(s, q);
    }
    ImageSize(f);
    assert f.Keys == s.lists.modified;
    forall v: nat | v in ModifiedVirtuals(s) ensures v < |s.virtuals| && HasModified(s, v) {
      var p :| p in f && f[p] == v;
      ModifiedIsHome(s, p);
    }
    forall v: nat | v < |s.virtuals| && HasModified(s, v) ensures v in ModifiedVirtuals(s) {
      var p: nat :| p in s.lists.modified && p < |s.pages| && s.pages[p].pte == Some(v);
      assert p in f && f[p] == v;
    }
  }

  lemma KeptInHome(s: State, k: nat)
    requires Sound(s) && k < |s.slots| && s.slots[k].deed.ByPage?
    ensures s.slots[k].deed.p < |s.pages| && s.pages[s.slots[k].deed.p].slot == k && k > 0
    ensures HomeOf(s.virtuals[OwnerOf(s, k)]) == Some(s.slots[k].deed.p)
  {
    assert SlotOk(s, k) && PageOk(s, s.slots[k].deed.p);
  }

  /** A virtual page with a page on the modified list owns a slot only through
      the batch. */
  lemma OwnerOnList(s: State, p: nat, k: nat)
    requires Sound(s) && p in s.lists.modified && k < |s.slots| && !s.slots[k].deed.NoDeed?
             && OwnerOf(s, k) == PteOf(s, p)
    ensures p in BackOnList(s)
  {
    ModifiedIsHome(s, p);
    var v, d := PteOf(s, p), s.slots[k].deed;
    assert SlotOk(s, k) && VirtualOk(s, v) && PageOk(s, p);
    if d.ByPage? { KeptInHome(s, k); }
    if d.ByBatch? { assert EntryOk(s, d.i) && PageOk(s, s.batch[d.i].page); }
  }

  lemma BackOnListOwns(s: State, p: nat)
    requires Sound(s) && p in BackOnList(s)
    ensures PteOf(s, p) in Owners(s)
  {
    ModifiedIsHome(s, p);
    WritingInBatch(s, p);
    var i :| 0 <= i < |s.batch| && s.batch[i].page == p && !s.batch[i].done;
    assert EntryOk(s, i);
    var k := s.batch[i].slot;
    assert OwnerOf(s, k) == PteOf(s, p);
    var f := map k | k in OwnedSlots(s) :: OwnerOf(s, k);
    assert k in f && f[k] == PteOf(s, p);
  }

  lemma BothCount(s: State)
    requires Sound(s)
    ensures |Owners(s) * ModifiedVirtuals(s)| == |BackOnList(s)|
  {
    var f := map p | p in BackOnList(s) :: PteOf(s, p);
    forall p, q | p in f && q in f && f[p] == f[q] ensures p == q {
      ModifiedIsHome(s, p);
      ModifiedIsHome(s, q);
    }
    ImageSize(f);
    assert f.Keys == BackOnList(s);
    var owners := map k | k in OwnedSlots(s) :: OwnerOf(s, k);
    var listed := map p | p in s.lists.modified :: PteOf(s, p);
    forall v | v in Owners(s) * ModifiedVirtuals(s) ensures v in f.Values {
      var k :| k in owners && owners[k] == v;
      var p :| p in listed && listed[p] == v;
      OwnerOnList(s, p, k);
      assert p in f && f[p] == v;
    }
    forall v | v in f.Values ensures v in Owners(s) * ModifiedVirtuals(s) {
      var p :| p in f && f[p] == v;
      BackOnListOwns(s, p);
      assert p in listed && listed[p] == v;
    }
    assert f.Values == Owners(s) * ModifiedVirtuals(s);
  }

  // ----- the account ---------------------------------------------------------------------------

  lemma NeedNoneCount(s: State)
    requires Sound(s)
    ensures |NeedNone(s)| == |s.virtuals| - |Owners(s) + ModifiedVirtuals(s)|
  {
    OwnersCount(s);
    ListedCount(s);
    hide Sound, OwnsSome, HasModified, Owners, ModifiedVirtuals;
    ComplementSize(|s.virtuals|, Owners(s) + ModifiedVirtuals(s), NeedNone(s));
  }

  lemma FreeCount(s: State)
    requires Sound(s)
    ensures |FreeSlotSet(s)| == |s.virtuals| + 1 - |OwnedSlots(s)|
  {
    forall k: nat | k < |s.slots| ensures k in FreeSlotSet(s) <==> k !in OwnedSlots(s) + {0} { assert SlotOk(s, k); }
    assert SlotOk(s, 0) && 0 !in OwnedSlots(s);
    assert |s.slots| == |s.virtuals| + 2;
    hide Sound;
    ComplementSize(|s.slots|, OwnedSlots(s) + {0}, FreeSlotSet(s));
  }

  /** The free slots, and the pages that are back on the modified list, are as
      many as the pages on that list, the virtual pages that need no slot, and
      one. */
  lemma FreeSlotsAccount(s: State)
    requires Sound(s)
    ensures |FreeSlotSet(s)| + |BackOnList(s)| == |s.lists.modified| + |NeedNone(s)| + 1
  {
    hide Sound, OwnedSlots, FreeSlotSet, NeedNone, BackOnList, OwnsSome, HasModified, Owners, ModifiedVirtuals;
    OwnersCount(s);
    ListedCount(s);
    BothCount(s);
    UnionSize(Owners(s), ModifiedVirtuals(s));
    NeedNoneCount(s);
    FreeCount(s);
  }

  /** Exactly when the first assertion of pagefault holds in a reachable state:
      there are not too many batch pages back on the modified list. */
  lemma ModifiedFitsIff(s: State)
    requires Reachable(s)
    ensures |s.lists.modified| <= |FreeSlotSet(s)| <==> |BackOnList(s)| <= |NeedNone(s)| + 1
  {
    var mem := ReachableInv(s);
    FreeSlotsAccount(s);
  }

  /** The second one holds always: slot 0 is never given away. */
  lemma SlotZeroIsUsed(s: State)
    requires Reachable(s)
    ensures |s.slots| > 0 && s.slots[0].used
  {
    var mem := ReachableInv(s);
    assert SlotOk(s, 0);
  }

  /** Both virtual pages were written to and trimmed. */
  lemma BothModified() returns (s: State)
    ensures Reachable(s) && Typed(s) && |s.virtuals| == 2 && |s.pages| == 2 && |s.slots| == 4
    ensures s.virtuals == [Trimmed(0), Trimmed(1)] && s.lists.modified == {0, 1} && !s.writing && s.batch == []
    ensures forall p :: 0 <= p < 2 ==> s.pages[p] == Page(Modified, 0, false, true, Some(p), ZERO_PAGE, Nobody)
    ensures forall k :: 0 <= k < 4 ==> (s.slots[k].used <==> k == 0)
  {
    hide Reachable, Typed;
    InitialIsReachable(2, 2);
    s := Initial(2, 2);
    s := FirstTouch(s, 0, 0);
    s := FirstTouch(s, 1, 1);
    s := TrimOut(s, 0, 0);
    s := TrimOut(s, 1, 1);
  }

  /** Both pages are on their way to disk. */
  lemma BothInFlight() returns (s: State)
    ensures Reachable(s) && Typed(s) && |s.virtuals| == 2 && |s.pages| == 2 && |s.slots| == 4
    ensures s.virtuals == [Trimmed(0), Trimmed(1)] && s.lists.modified == {} && s.writing
    ensures forall p :: 0 <= p < 2 ==> s.pages[p] == Page(Modified, 0, true, false, Some(p), ZERO_PAGE, Nobody)
    ensures forall k :: 0 <= k < 4 ==> (s.slots[k].used <==> k < 3)
  {
    hide Reachable, Typed;
    s := BothModified();
    s := WriterStep(s, DoPop(0));
    s := WriterStep(s, DoPop(1));
    AnyFreeSlotsWillDo(s, [1, 2]);
    s := WriterStep(s, DoAllot([1, 2]));
  }

  /** A run in which it fails: both pages are rescued from the batch for a write
      and trimmed again, and one slot is left. */
  lemma ModifiedCanExceedFree() returns (s: State)
    ensures Reachable(s) && s.lists.modified == {0, 1} && FreeSlotSet(s) == {3}
    ensures |s.lists.modified| > |FreeSlotSet(s)|
  {
    hide Reachable, Typed;
    s := BothInFlight();
    s := RescueBack(s, 0, 0);
    s := RescueBack(s, 1, 1);
    s := TrimOut(s, 0, 0);
    s := TrimOut(s, 1, 1);
    assert s.lists.modified == {0, 1};
    assert FreeSlotSet(s) == {3};
    assert |{0, 1}| == 2 && |{3}| == 1;
  }
}
