/** What holds between any two steps.  The clauses are local: `VirtualOk`
    speaks of one virtual page and the page that holds its contents, `PageOk`
    of one page and the virtual page it points back to, `SlotOk` of one
    pagefile slot, `EntryOk` of one entry of the disk batch. */
module Invariant {
  import opened PageState
  import opened Protocol

  /** The page that is bound to a virtual page, as its fault or its PTE says. */
  function HomeOf(x: Virtual): Option<nat> {
    match x.job
    case Claimed(_, _) => None
    case Rescuing(p, _) => Some(p)
    case Filling(p, _) => Some(p)
    case Filled(p, _) => Some(p)
    case Ready(p, _) => Some(p)
    case Connecting(p, _, _) => Some(p)
    case _ =>
      match x.pte
      case Valid(f, _, _, _, _) => Some(f)
      case Transition(f) => Some(f)
      case _ => None
  }

  /** The fault has a page, but the page's pagefile index is still stale. */
  predicate Fetching(j: Job) {
    j.Filling? || j.Filled?
  }

  /** The fault has settled what becomes of the pagefile slot. */
  predicate Settled(j: Job) {
    j.Ready? || j.Connecting?
  }

  predicate ActiveFor(g: Page, v: nat) {
    g.pte == Some(v) && g.status.Active? && g.hand.Nobody?
  }

  predicate RestingFor(g: Page, v: nat) {
    g.pte == Some(v) && (g.status.Modified? || (g.status.Standby? && !g.hand.Detached?))
  }

  /** A page that may be mapped read-write: no slot is kept for it, and if it
      is on its way to disk the writer will see that it changed. */
  predicate Writable(g: Page) {
    g.slot == 0 && (g.writing ==> g.modified)
  }

  predicate MappedAs(m: Mapping, p: nat, prot: Prot) {
    m.Mapped? && m.frame == p && !prot.ProtNone? && (prot.ProtReadWrite? ==> m.writable)
  }

  /** The PTE formats a fault may find when it connects its page. */
  predicate Pending(t: Pte, p: nat) {
    match t
    case Valid(f, _, _, changing, trimming) => f == p && changing && !trimming
    case Transition(f) => f == p
    case Disk(_, reading) => reading
    case Unused => false
  }

  /** A page that was read from slot k: for a read it keeps the slot, for a write
      it has given it back. */
  predicate Refilled(g: Page, k: nat, write: bool) {
    !g.writing && g.slot == if write then 0 else k
  }

  /** A new page is marked modified for a write, and a rescued one at least then. */
  predicate MarkedFor(g: Page, t: Pte, write: bool) {
    if t.Transition? then write ==> g.modified else write <==> g.modified
  }

  predicate IdleOk(x: Virtual, v: nat, pages: seq<Page>) {
    match x.pte
    case Unused => x.hw.Unmapped?
    case Valid(f, prot, _, changing, trimming) =>
      && !changing && f < |pages|
      && (if !trimming || x.trim.Marked? || x.trim.Chosen? then ActiveFor(pages[f], v) && MappedAs(x.hw, f, prot)
          else if x.trim.Unhooked? then ActiveFor(pages[f], v) && x.hw.Unmapped?
          else !x.trim.NoTrim? && RestingFor(pages[f], v) && !pages[f].hand.ForRescue? && x.hw.Unmapped?)
    case Transition(f) => f < |pages| && RestingFor(pages[f], v) && !pages[f].hand.ForRescue? && x.hw.Unmapped?
    case Disk(_, reading) => !reading && x.hw.Unmapped?
  }

  predicate JobOk(x: Virtual, v: nat, pages: seq<Page>) {
    var t := x.pte;
    match x.job
    case NoJob => IdleOk(x, v, pages)
    case Changing(f, prot, _, remapped) =>
      && t.Valid? && t.frame == f && t.prot == prot && t.changing && !t.trimming
      && f < |pages| && ActiveFor(pages[f], v) && MappedAs(x.hw, f, prot)
      && (remapped ==> x.hw.writable && pages[f].modified)
    case Claimed(p, _) =>
      && t.Valid? && t.frame == p && t.changing && !t.trimming && x.hw.Unmapped?
      && p < |pages| && pages[p].hand == ForClaim(v)
    case Rescuing(p, _) =>
      && p < |pages| && RestingFor(pages[p], v) && pages[p].hand == ForRescue(v) && x.hw.Unmapped?
      && (t == Transition(p) || (StillMarked(t) && t.frame == p && (x.trim.Listed? || x.trim.Copied?)))
    case Reading => t.Disk? && t.reading && x.hw.Unmapped?
    case Ready(p, write) =>
      && p < |pages| && ActiveFor(pages[p], v) && Pending(t, p) && x.hw.Unmapped?
      && (t.Disk? ==> Refilled(pages[p], t.slot, write)) && (write || t.Valid? ==> Writable(pages[p]))
      && MarkedFor(pages[p], t, write)
    case Connecting(p, write, writable) =>
      && p < |pages| && ActiveFor(pages[p], v) && Pending(t, p) && x.hw == Mapped(p, writable)
      && writable == (write || t.Valid?)
      && (t.Disk? ==> Refilled(pages[p], t.slot, write)) && MarkedFor(pages[p], t, write)
    case _ =>
      && t.Disk? && t.reading && x.hw.Unmapped?
      && x.job.page < |pages| && ActiveFor(pages[x.job.page], v) && !pages[x.job.page].writing
      && (x.job.write <==> pages[x.job.page].modified)
  }

  predicate TrimOk(x: Virtual, pages: seq<Page>) {
    match x.trim
    case NoTrim => true
    case Listed => true
    case Marked => x.job.NoJob? && StillMarked(x.pte)
    case Copied(c, f) => StillMarked(c) && c.frame == f && (StillMarked(x.pte) ==> x.pte.frame == f)
    case _ =>
      && x.job.NoJob? && StillMarked(x.pte) && x.pte.frame < |pages|
      && (if x.trim.target.ToStandby? then pages[x.pte.frame].slot != 0
          else pages[x.pte.frame].slot == 0 && !InFlight(pages[x.pte.frame]))
  }

  predicate VirtualOk(s: State, v: nat)
    requires v < |s.virtuals|
  {
    var x := s.virtuals[v];
    && JobOk(x, v, s.pages)
    && TrimOk(x, s.pages)
    && (x.hw.Mapped? ==>
          && x.hw.frame < |s.pages| && ActiveFor(s.pages[x.hw.frame], v)
          && (x.hw.writable ==> Writable(s.pages[x.hw.frame])))
    && (x.pte.Disk? && !Settled(x.job) ==> x.pte.slot < |s.slots| && s.slots[x.pte.slot].deed == ByPte(v))
  }

  predicate ListsOk(g: Page, p: nat, l: Lists) {
    && (p in l.zero || p in l.free <==> g.hand.Nobody? && (g.status.Zero? || g.status.Free?))
    && !(p in l.zero && p in l.free)
    && (p in l.standby <==> g.hand.Nobody? && g.status.Standby?)
    && (p in l.modified <==> g.hand.Nobody? && g.status.Modified? && !InFlight(g))
    && (p in l.zero ==> g.bytes == ZERO_PAGE)
  }

  predicate StatusOk(g: Page) {
    match g.status
    case Active => g.hand.Nobody?
    case Modified => g.slot == 0 && (g.hand.Nobody? || g.hand.ForRescue?)
    case Standby =>
      && g.slot != 0 && !g.writing && !g.modified
      && !g.hand.ZeroSlot? && !g.hand.Zeroing? && !g.hand.Zeroed?
    case _ =>
      && !g.writing && !g.modified && g.pte.None?
      && !g.hand.ForRescue? && !g.hand.Refresh? && !g.hand.Detached?
      && (g.hand.ZeroSlot? || g.hand.Zeroing? || g.hand.Zeroed? ==> g.status.Zero?)
      && (g.status.Zero? && !g.hand.ZeroSlot? && !g.hand.Zeroing? ==> g.bytes == ZERO_PAGE)
  }

  /** The page is bound to the virtual page it points back to. */
  predicate Attached(g: Page) {
    g.status.Active? || g.status.Modified? || (g.status.Standby? && !g.hand.Detached?)
  }

  /** The pagefile index stored in the page is meaningful. */
  predicate Live(g: Page, virtuals: seq<Virtual>) {
    Attached(g) && g.pte.Some? && g.pte.value < |virtuals| && !Fetching(virtuals[g.pte.value].job)
  }

  predicate PageOk(s: State, p: nat)
    requires p < |s.pages|
  {
    var g := s.pages[p];
    && ListsOk(g, p, s.lists)
    && StatusOk(g)
    && (g.hand.ForClaim? ==>
          g.hand.v < |s.virtuals| && s.virtuals[g.hand.v].job.Claimed? && s.virtuals[g.hand.v].job.page == p)
    && (g.hand.ForRescue? ==> g.pte == Some(g.hand.v))
    && (Attached(g) ==> g.pte.Some? && g.pte.value < |s.virtuals| && HomeOf(s.virtuals[g.pte.value]) == Some(p))
    && (Live(g, s.virtuals) && g.slot != 0 ==>
          && !g.writing && !g.modified
          && g.slot < |s.slots| && s.slots[g.slot].deed == ByPage(p) && s.slots[g.slot].bytes == g.bytes)
  }

  predicate SlotOk(s: State, k: nat)
    requires k < |s.slots|
  {
    var c := s.slots[k];
    && (c.used <==> k == 0 || !c.deed.NoDeed?)
    && (k == 0 ==> c.deed.NoDeed?)
    && match c.deed
       case NoDeed => true
       case ByPte(v) =>
         v < |s.virtuals| && s.virtuals[v].pte.Disk? && s.virtuals[v].pte.slot == k && !Settled(s.virtuals[v].job)
       case ByPage(p) => p < |s.pages| && Live(s.pages[p], s.virtuals) && s.pages[p].slot == k
       case ByBatch(i) => i < |s.batch| && s.batch[i].slot == k && !s.batch[i].done
  }

  predicate EntryOk(s: State, i: nat)
    requires i < |s.batch|
  {
    var e := s.batch[i];
    && (if s.writing then e.slot != 0 else e.slot == 0 && !e.copied && !e.done)
    && (e.done ==> e.copied)
    && (!e.done ==>
          && e.page < |s.pages| && s.pages[e.page].writing
          && (e.slot != 0 ==> e.slot < |s.slots| && s.slots[e.slot].deed == ByBatch(i))
          && (e.copied && !s.pages[e.page].modified ==>
             e.slot < |s.slots| && s.slots[e.slot].bytes == s.pages[e.page].bytes))
  }

  predicate InBatch(batch: seq<Entry>, p: nat) {
    exists i :: 0 <= i < |batch| && batch[i].page == p && !batch[i].done
  }

  /** No page twice in a batch, and `writing` exactly for its unfinished pages. */
  predicate BatchOk(s: State) {
    && (forall i, j :: 0 <= i < j < |s.batch| ==> s.batch[i].page != s.batch[j].page)
    && (forall p :: 0 <= p < |s.pages| && s.pages[p].writing ==> InBatch(s.batch, p))
  }

  ghost predicate CountOk(s: State) {
    var l := s.lists;
    && (forall p: nat :: p in l.zero || p in l.free || p in l.standby || p in l.modified ==> p < |s.pages|)
    && l.available == |l.zero| + |l.free| + |l.standby|
  }

  ghost predicate Sound(s: State) {
    && Typed(s)
    && (forall v :: 0 <= v < |s.virtuals| ==> VirtualOk(s, v))
    && (forall p :: 0 <= p < |s.pages| ==> PageOk(s, p))
    && (forall k :: 0 <= k < |s.slots| ==> SlotOk(s, k))
    && (forall i :: 0 <= i < |s.batch| ==> EntryOk(s, i))
    && BatchOk(s)
    && CountOk(s)
  }

  /** Where the flat memory's page v is kept. */
  predicate ContentsOk(s: State, mem: Memory, v: nat)
    requires v < |s.virtuals| && v < |mem|
  {
    var x := s.virtuals[v];
    var home := HomeOf(x);
    && (home.Some? && !x.job.Filling? ==> home.value < |s.pages| && s.pages[home.value].bytes == mem[v])
    && (x.pte.Unused? || x.job.Claimed? ==> mem[v] == ZERO_PAGE)
    && (x.pte.Disk? && !Settled(x.job) ==> x.pte.slot < |s.slots| && s.slots[x.pte.slot].bytes == mem[v])
  }

  ghost predicate Inv(s: State, mem: Memory) {
    && Sound(s)
    && |mem| == |s.virtuals|
    && (forall v :: 0 <= v < |s.virtuals| ==> ContentsOk(s, mem, v))
  }
}
