/** Locality of the invariant.  Virtual pages, pages and slots are linked: a
    virtual page to its home page, a page to the slot kept for it, a slot to
    whoever accounts for it.  A step that changes a set of them closed under
    these links has to be checked on that set only. */
module Footprint {
  import opened PageState
  import opened Protocol
  import opened Invariant

  predicate SameLinks(p: nat, l: Lists, l': Lists) {
    && (p in l.zero <==> p in l'.zero) && (p in l.free <==> p in l'.free)
    && (p in l.standby <==> p in l'.standby) && (p in l.modified <==> p in l'.modified)
  }

  /** The virtual page an attached page points back to. */
  function Pointer(g: Page): set<nat> {
    if Attached(g) && g.pte.Some? then {g.pte.value} else {}
  }

  /** The slot linked to a page, to a virtual page. */
  function KeptSlots(g: Page, virtuals: seq<Virtual>): set<nat> {
    if Live(g, virtuals) && g.slot != 0 then {g.slot} else {}
  }

  function StoredSlot(x: Virtual): set<nat> {
    if x.pte.Disk? && !Settled(x.job) then {x.pte.slot} else {}
  }

  /** s' differs from s at most in virtual pages A, pages B and slots C. */
  ghost predicate Within(s: State, s': State, A: set<nat>, B: set<nat>, C: set<nat>) {
    && |s'.virtuals| == |s.virtuals| && |s'.pages| == |s.pages| && |s'.slots| == |s.slots|
    && (forall v :: 0 <= v < |s.virtuals| && v !in A ==> s'.virtuals[v] == s.virtuals[v])
    && (forall p :: 0 <= p < |s.pages| && p !in B ==> s'.pages[p] == s.pages[p] && SameLinks(p, s.lists, s'.lists))
    && (forall k :: 0 <= k < |s.slots| && k !in C ==> s'.slots[k] == s.slots[k])
    && (forall v :: v in A ==> v < |s.virtuals|)
    && (forall p :: p in B ==> p < |s.pages|)
    && (forall k :: k in C ==> k < |s.slots|)
  }

  /** x' keeps the links of x, or what x was linked to is in the footprint. */
  predicate VirtualClosed(x: Virtual, x': Virtual, B: set<nat>, C: set<nat>) {
    && (|| (HomeOf(x') == HomeOf(x) && Fetching(x'.job) == Fetching(x.job))
        || (HomeOf(x).Some? ==> HomeOf(x).value in B))
    && (x.job.Claimed? ==> x.job.page in B || (x'.job.Claimed? && x'.job.page == x.job.page))
    && (StoredSlot(x) <= StoredSlot(x') || StoredSlot(x) <= C)
  }

  predicate PageClosed(g: Page, g': Page, virtuals: seq<Virtual>, virtuals': seq<Virtual>, A: set<nat>, C: set<nat>) {
    && (Attached(g) ==> g.pte.Some? && g.pte.value in A)
    && (g.hand.ForClaim? ==> g.hand.v in A || g'.hand == g.hand)
    && (KeptSlots(g, virtuals) <= C || (KeptSlots(g, virtuals) <= KeptSlots(g', virtuals') && g'.bytes == g.bytes))
  }

  predicate SlotClosed(c: Slot, A: set<nat>, B: set<nat>) {
    match c.deed
    case NoDeed => true
    case ByPte(v) => v in A
    case ByPage(p) => p in B
    case ByBatch(_) => true
  }

  ghost predicate Closed(s: State, s': State, A: set<nat>, B: set<nat>, C: set<nat>)
    requires Within(s, s', A, B, C)
  {
    VirtualsClosed(s, s', A, B, C) && PagesClosed(s, s', A, B, C) && SlotsClosed(s, A, B, C)
  }

  ghost predicate VirtualsClosed(s: State, s': State, A: set<nat>, B: set<nat>, C: set<nat>)
    requires Within(s, s', A, B, C)
  {
    forall v :: v in A ==> VirtualClosed(s.virtuals[v], s'.virtuals[v], B, C)
  }

  ghost predicate PagesClosed(s: State, s': State, A: set<nat>, B: set<nat>, C: set<nat>)
    requires Within(s, s', A, B, C)
  {
    forall p :: p in B ==> PageClosed(s.pages[p], s'.pages[p], s.virtuals, s'.virtuals, A, C)
  }

  ghost predicate SlotsClosed(s: State, A: set<nat>, B: set<nat>, C: set<nat>)
    requires forall k :: k in C ==> k < |s.slots|
  {
    forall k :: k in C ==> SlotClosed(s.slots[k], A, B)
  }

  /** What a step other than the writer's may do to a page in the batch. */
  predicate KeepsEntry(g: Page, g': Page) {
    && g'.writing == g.writing
    && (g.writing ==> g'.modified || (!g.modified && g'.bytes == g.bytes))
  }

  /** The step leaves the writer's batch alone. */
  ghost predicate Quiet(s: State, s': State, B: set<nat>, C: set<nat>) {
    && s'.batch == s.batch && s'.writing == s.writing
    && (forall p :: p in B ==> p < |s.pages| && p < |s'.pages| && KeepsEntry(s.pages[p], s'.pages[p]))
    && (forall k :: k in C ==> k < |s.slots| && !s.slots[k].deed.ByBatch?)
  }

  ghost predicate Checked(s: State, mem: Memory, A: set<nat>, B: set<nat>, C: set<nat>) {
    && (forall v :: v in A ==>
          && v < |s.virtuals| && v < |mem| && VirtualTyped(s.virtuals[v], |s.pages|, |s.slots|)
          && VirtualOk(s, v) && ContentsOk(s, mem, v))
    && (forall p :: p in B ==> p < |s.pages| && PageTyped(s.pages[p], |s.virtuals|, |s.slots|) && PageOk(s, p))
    && (forall k :: k in C ==> k < |s.slots| && SlotOk(s, k))
  }

  ghost predicate BatchSound(s: State) {
    && (forall i :: 0 <= i < |s.batch| ==> s.batch[i].page < |s.pages| && s.batch[i].slot < |s.slots|)
    && (forall i :: 0 <= i < |s.batch| ==> EntryOk(s, i))
    && BatchOk(s)
  }

  /** Slots that entries of s account for stay with the same entries. */
  predicate EntriesKept(s: State, s': State, C: set<nat>) {
    forall i :: 0 <= i < |s.batch| && !s.batch[i].done ==>
      || s.batch[i].slot in C
      || (i < |s'.batch| && !s'.batch[i].done && s'.batch[i].slot == s.batch[i].slot)
  }

  lemma OutsideVirtual(s: State, s': State, mem: Memory, mem': Memory, A: set<nat>, B: set<nat>, C: set<nat>, u: nat)
    requires Inv(s, mem) && Within(s, s', A, B, C) && Closed(s, s', A, B, C)
    requires u < |s.virtuals| && u !in A && |mem'| == |mem| && mem'[u] == mem[u]
    ensures VirtualOk(s', u) && ContentsOk(s', mem', u)
  {
    assert VirtualOk(s, u) && ContentsOk(s, mem, u);
  }

  lemma OutsidePage(s: State, s': State, A: set<nat>, B: set<nat>, C: set<nat>, p: nat)
    requires Sound(s) && Within(s, s', A, B, C) && Closed(s, s', A, B, C)
    requires p < |s.pages| && p !in B
    ensures PageOk(s', p)
  {
    assert PageOk(s, p);
  }

  lemma OutsideSlot(s: State, s': State, A: set<nat>, B: set<nat>, C: set<nat>, k: nat)
    requires Sound(s) && Within(s, s', A, B, C) && Closed(s, s', A, B, C) && EntriesKept(s, s', C)
    requires k < |s.slots| && k !in C
    ensures SlotOk(s', k)
  {
    assert SlotOk(s, k);
    if s.slots[k].deed.ByPage? {
      assert PageOk(s, s.slots[k].deed.p);
    }
  }

  lemma OutsideTyped(s: State, s': State, mem: Memory, A: set<nat>, B: set<nat>, C: set<nat>)
    requires Typed(s) && Within(s, s', A, B, C) && Checked(s', mem, A, B, C) && BatchSound(s')
    ensures Typed(s')
  {
    forall v | 0 <= v < |s.virtuals| ensures VirtualTyped(s'.virtuals[v], |s.pages|, |s.slots|) {
      assert VirtualTyped(s.virtuals[v], |s.pages|, |s.slots|);
    }
    forall p | 0 <= p < |s.pages| ensures PageTyped(s'.pages[p], |s.virtuals|, |s.slots|) {
      assert PageTyped(s.pages[p], |s.virtuals|, |s.slots|);
    }
  }

  /** A step keeps the invariant if what it changes is closed under the links
      and sound again after the step. */
  lemma LocalStep(s: State, s': State, mem: Memory, mem': Memory, A: set<nat>, B: set<nat>, C: set<nat>)
    requires Inv(s, mem) && Within(s, s', A, B, C) && Closed(s, s', A, B, C)
    requires |mem'| == |mem| && forall v :: 0 <= v < |mem| && v !in A ==> mem'[v] == mem[v]
    requires Checked(s', mem', A, B, C) && CountOk(s')
    requires BatchSound(s') && EntriesKept(s, s', C)
    ensures Inv(s', mem')
  {
    OutsideTyped(s, s', mem', A, B, C);
    forall v | 0 <= v < |s.virtuals| ensures VirtualOk(s', v) && ContentsOk(s', mem', v) {
      if v !in A { OutsideVirtual(s, s', mem, mem', A, B, C, v); }
    }
    forall p | 0 <= p < |s.pages| ensures PageOk(s', p) {
      if p !in B { OutsidePage(s, s', A, B, C, p); }
    }
    forall k | 0 <= k < |s.slots| ensures SlotOk(s', k) {
      if k !in C { OutsideSlot(s, s', A, B, C, k); }
    }
  }

  lemma QuietBatch(s: State, s': State, A: set<nat>, B: set<nat>, C: set<nat>)
    requires Sound(s) && Within(s, s', A, B, C) && Quiet(s, s', B, C)
    ensures BatchSound(s') && EntriesKept(s, s', C)
  {
    forall i | 0 <= i < |s.batch| ensures EntryOk(s', i) {
      assert EntryOk(s, i);
    }
    forall p | 0 <= p < |s.pages| && s'.pages[p].writing ensures InBatch(s'.batch, p) {
      assert s.pages[p].writing;
    }
  }

  /** What a step of anybody but the writer has to show about its footprint:
      the step from s to s', the flat memory's from mem to mem'. */
  ghost predicate Local(s: State, s': State, mem: Memory, mem': Memory, A: set<nat>, B: set<nat>, C: set<nat>) {
    && Within(s, s', A, B, C) && Closed(s, s', A, B, C) && Quiet(s, s', B, C)
    && |mem'| == |mem| && (forall v :: 0 <= v < |mem| && v !in A ==> mem'[v] == mem[v])
    && Checked(s', mem', A, B, C)
  }

  lemma QuietStep(s: State, s': State, mem: Memory, mem': Memory, A: set<nat>, B: set<nat>, C: set<nat>)
    requires Inv(s, mem) && Local(s, s', mem, mem', A, B, C) && CountOk(s')
    ensures Inv(s', mem')
  {
    QuietBatch(s, s', A, B, C);
    LocalStep(s, s', mem, mem', A, B, C);
  }
}
