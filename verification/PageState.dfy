/** The shared state of the memory manager and the private state of its threads.

    A step of the protocol is one atomic change: an interlocked operation on a
    PTE, or everything one thread does while it holds one pagelock.  The
    arrays that threads keep on their own stacks (pages they reserved, PTEs
    they are resolving, PTEs they are trimming) appear here as `hand`, `job`
    and `trim`, stored with the page or the virtual page they speak of. */
module PageState {

  datatype Option<+T> = None | Some(value: T)

  /** The contents of one page: words by offset; a word never stored is zero. */
  type Contents = map<nat, int>

  const ZERO_PAGE: Contents := map[]

  function Word(bytes: Contents, offset: nat): int {
    if offset in bytes then bytes[offset] else 0
  }

  function WithWord(bytes: Contents, offset: nat, word: int): Contents {
    bytes[offset := word]
  }

  /** What the user program should see: one page of contents per virtual page. */
  type Memory = seq<Contents>

  datatype Prot = ProtNone | ProtRead | ProtReadWrite

  datatype Pte =
    | Unused
    | Valid(frame: nat, prot: Prot, accessed: bool, changing: bool, trimming: bool)
    | Transition(frame: nat)
    | Disk(slot: nat, reading: bool)

  /** What the hardware maps at a virtual page. */
  datatype Mapping = Unmapped | Mapped(frame: nat, writable: bool)

  /** The fault being resolved for a virtual page, if any. */
  datatype Job =
    | NoJob
    | Changing(frame: nat, prot: Prot, write: bool, remapped: bool)
    | Claimed(page: nat, write: bool)     // first touch: PTE claimed, page not committed
    | Rescuing(page: nat, write: bool)    // page unlinked and locked, not committed
    | Reading                             // holds the right to read this PTE from disk
    | Filling(page: nat, write: bool)     // page committed, contents not copied yet
    | Filled(page: nat, write: bool)      // contents copied, slot not settled yet
    | Ready(page: nat, write: bool)       // only the mapping and the PTE are left
    | Connecting(page: nat, write: bool, writable: bool)

  datatype Target = ToModified | ToStandby

  /** How far the trimmer is with a virtual page. */
  datatype Trim =
    | NoTrim
    | Marked                              // being_trimmed set by the trimmer
    | Chosen(target: Target)
    | Unhooked(target: Target)            // no longer mapped
    | Listed                              // page on its list, PTE not finished
    | Copied(copy: Pte, first: nat)       // frame of the first copy

  datatype Virtual = Virtual(pte: Pte, hw: Mapping, job: Job, trim: Trim)

  datatype Status = Zero | Free | Modified | Standby | Active

  /** Which thread has the page in a local variable, and why. */
  datatype Hand =
    | Nobody
    | Popped                              // reserved by a faulting thread
    | ForClaim(v: nat)
    | ForRescue(v: nat)
    | Refresh                             // popped by the list refresher
    | Detached                            // its old PTE is in disk format now
    | ZeroSlot                            // waits in a zeroing slot, not locked
    | Zeroing
    | Zeroed

  /** `slot` is pagefile_idx, where 0 means that no slot is kept. */
  datatype Page = Page(status: Status, slot: nat, writing: bool, modified: bool, pte: Option<nat>, bytes: Contents,
                       hand: Hand)

  /** Auxiliary: on whose account a pagefile slot is used. Never read by a step. */
  datatype Deed = NoDeed | ByPte(v: nat) | ByPage(p: nat) | ByBatch(i: nat)

  datatype Slot = Slot(used: bool, bytes: Contents, deed: Deed)

  /** The page lists as sets, and total_available_pages. */
  datatype Lists = Lists(zero: set<nat>, free: set<nat>, standby: set<nat>, modified: set<nat>, available: int)

  /** One entry of the modified writer's disk batch. */
  datatype Entry = Entry(page: nat, slot: nat, copied: bool, done: bool)

  datatype State = State(
    virtuals: seq<Virtual>,
    pages: seq<Page>,
    slots: seq<Slot>,
    lists: Lists,
    batch: seq<Entry>,
    writing: bool)

  predicate VirtualTyped(x: Virtual, frames: nat, slots: nat) {
    && match x.pte {
         case Unused => true
         case Valid(f, _, _, _, _) => f < frames
         case Transition(f) => f < frames
         case Disk(k, _) => 0 < k < slots
       }
    && (x.hw.Mapped? ==> x.hw.frame < frames)
    && match x.job {
         case NoJob => true
         case Reading => true
         case Changing(f, _, _, _) => f < frames
         case _ => x.job.page < frames
       }
    && (x.trim.Copied? ==> x.trim.first < frames)
  }

  predicate PageTyped(g: Page, virtuals: nat, slots: nat) {
    && g.slot < slots
    && (g.pte.Some? ==> g.pte.value < virtuals)
  }

  /** Every index stored in the state is in range.  The disk has two slots
      more than there are virtual pages. */
  ghost predicate Typed(s: State) {
    && |s.slots| == |s.virtuals| + 2
    && (forall v :: 0 <= v < |s.virtuals| ==> VirtualTyped(s.virtuals[v], |s.pages|, |s.slots|))
    && (forall p :: 0 <= p < |s.pages| ==> PageTyped(s.pages[p], |s.virtuals|, |s.slots|))
    && (forall i :: 0 <= i < |s.batch| ==> s.batch[i].page < |s.pages| && s.batch[i].slot < |s.slots|)
  }

  ghost predicate Distinct<T>(xs: seq<T>) {
    forall i, j :: 0 <= i < j < |xs| ==> xs[i] != xs[j]
  }

  function Elements<T(==)>(xs: seq<T>): set<T> {
    set x | x in xs
  }

  /** Where a sequence has an element first. */
  function Position<T(==)>(xs: seq<T>, x: T): (i: nat)
    requires x in xs
    ensures i < |xs| && xs[i] == x
  {
    if xs[0] == x then 0 else 1 + Position(xs[1..], x)
  }

  function Below(n: nat): (r: set<nat>)
    ensures |r| == n
    ensures forall p: nat :: p in r <==> p < n
  {
    if n == 0 then {} else Below(n - 1) + {n - 1}
  }

  /** Every frame on the zero lists, nothing accessed, only slot 0 taken. */
  function Initial(virtualPages: nat, frames: nat): State {
    State(
      seq(virtualPages, _ => Virtual(Unused, Unmapped, NoJob, NoTrim)),
      seq(frames, _ => Page(Zero, 0, false, false, None, ZERO_PAGE, Nobody)),
      seq(virtualPages + 2, k => Slot(k == 0, ZERO_PAGE, NoDeed)),
      Lists(Below(frames), {}, {}, {}, frames),
      [], false)
  }
}
