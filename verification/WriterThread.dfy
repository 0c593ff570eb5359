/** The modified writer: collects a batch, gets slots for it, and copies and
    completes it in minibatches, while other threads go on. */
module WriterThread {
  import opened PageState
  import opened Protocol
  import opened Invariant
  import opened WriterSteps
  import opened Interference
  import opened Machine

  const MOD_WRITER_MINIBATCH_SIZE: nat := 32

  // ----- minibatches ----------------------------------------------------------------

  function Min(a: nat, b: nat): nat {
    if a < b then a else b
  }

  function Minibatches(pages: nat, maxPages: nat): nat {
    Min(pages / MOD_WRITER_MINIBATCH_SIZE + 1, maxPages / MOD_WRITER_MINIBATCH_SIZE)
  }

  /** How many pages of a batch the minibatches get to. */
  function Reached(pages: nat, maxPages: nat): nat {
    Min(Minibatches(pages, maxPages) * MOD_WRITER_MINIBATCH_SIZE, pages)
  }

  /** The minibatches get to every page of every batch exactly if the maximum
      is a multiple of their size. */
  lemma MinibatchesCoverIff(maxPages: nat)
    ensures (forall pages: nat :: pages <= maxPages ==> Reached(pages, maxPages) == pages) <==>
            maxPages % MOD_WRITER_MINIBATCH_SIZE == 0
  {
    if maxPages % MOD_WRITER_MINIBATCH_SIZE != 0 {
      assert Reached(maxPages, maxPages) < maxPages;
    }
  }

  /** MAX_PAGES_WRITABLE for a given number of virtual pages: the disk has two
      slots more. */
  function MaxPagesWritable(virtualPages: nat): nat {
    if (virtualPages + 2) / 64 > 512 then (virtualPages + 2) / 64 else 512
  }

  /** When it comes out right, for every page table. */
  lemma WritableIsMultipleIff(virtualPages: nat)
    ensures MaxPagesWritable(virtualPages) % MOD_WRITER_MINIBATCH_SIZE == 0
       <==> virtualPages <= 32829 || (virtualPages + 2) % 2048 < 64
  {
    var slots := virtualPages + 2;
    var q, r := slots / 64, slots % 64;
    var a, b := q / 32, q % 32;
    assert slots == 2048 * a + (64 * b + r);
    assert slots % 2048 == 64 * b + r;
  }

  /** With page tables of whole lock sections that is so up to 32768 virtual
      pages, and above that for multiples of 2048.  With 33280 the last 8 pages
      of a full batch are never completed. */
  lemma WritableForWholeSections(virtualPages: nat)
    requires virtualPages % 512 == 0
    ensures MaxPagesWritable(virtualPages) % MOD_WRITER_MINIBATCH_SIZE == 0 <==>
            virtualPages <= 32768 || virtualPages % 2048 == 0
    ensures Reached(MaxPagesWritable(33280), MaxPagesWritable(33280)) == MaxPagesWritable(33280) - 8
  {
    WritableIsMultipleIff(virtualPages);
    LastEightLost();
    hide MaxPagesWritable, Reached;
    var k := virtualPages / 512;
    var c, d := k / 4, k % 4;
    assert virtualPages == 2048 * c + 512 * d;
    RemainderIs(c, 512 * d);
    RemainderIs(c, 512 * d + 2);
  }

  lemma RemainderIs(c: nat, r: nat)
    requires r < 2048
    ensures (2048 * c + r) % 2048 == r
  {
  }

  lemma LastEightLost()
    ensures Reached(MaxPagesWritable(33280), MaxPagesWritable(33280)) == MaxPagesWritable(33280) - 8
  {
  }

  // ----- collecting ----------------------------------------------------------------------

  /** The entries of a batch are for page p. */
  ghost predicate Batched(batch: seq<Entry>, p: nat) {
    exists i :: 0 <= i < |batch| && batch[i].page == p
  }

  /** From its n-th step to its o-th the thread popped pages that are in the
      batch, and did nothing else. */
  ghost predicate PoppedInto(own: seq<Step>, n: nat, o: nat, batch: seq<Entry>) {
    n <= o <= |own| && forall k :: n <= k < o ==>
      own[k].action.Writer? && own[k].action.writer.DoPop? && Batched(batch, own[k].action.writer.p)
  }

  /** At some time from n on the modified list was empty. */
  ghost predicate NothingModified(trace: seq<State>, n: int) {
    exists i :: 0 <= i && n <= i < |trace| && trace[i].lists.modified == {}
  }

  lemma NothingModifiedNow(m: Machine, n: int)
    requires m.Valid() && n < |m.trace| && m.s.lists.modified == {}
    ensures NothingModified(m.trace, n)
  {
    hide Inv, Lawful, Recorded, Justified;
    assert m.trace[|m.trace| - 1].lists.modified == {};
  }

  /** Where the writer is while it collects. */
  ghost predicate Collecting(m: Machine)
    reads m
  {
    m.Valid() && m.mine.writer && !m.s.writing
  }

  lemma PopJoins(s: State, p: nat)
    requires Sound(s) && CanPop(s, p)
    ensures !Pop(s, p).writing && |Pop(s, p).batch| <= |s.batch| + 1 && Batched(Pop(s, p).batch, p)
    ensures forall q: nat :: Batched(s.batch, q) ==> Batched(Pop(s, p).batch, q)
  {
    var s' := Pop(s, p);
    if s.pages[p].writing {
      assert InBatch(s.batch, p);
    } else {
      assert s'.batch[|s.batch|].page == p;
    }
    forall q: nat | Batched(s.batch, q) ensures Batched(s'.batch, q) {
      var i :| 0 <= i < |s.batch| && s.batch[i].page == q;
      assert s'.batch[i].page == q;
    }
  }

  lemma ModifiedCanBePopped(s: State, p: nat)
    requires Sound(s) && !s.writing && p in s.lists.modified
    ensures CanPop(s, p)
  {
    assert PageOk(s, p);
  }

  /** An attempt to pop a page failed: the page is on the modified list and could
      not be locked, or it was there at some time from n on and is not now. */
  ghost predicate PopFailed(trace: seq<State>, n: int, wait: Wait) {
    match wait.why
    case LockBusy(_, q) => q.ModifiedQueue?
    case OffList(p) => WasModified(trace, n, wait.at, p)
    case _ => false
  }

  ghost predicate WasModified(trace: seq<State>, n: int, at: nat, p: nat) {
    exists i :: 0 <= i && n <= i <= at && i < |trace| && p in trace[i].lists.modified
  }

  /** From the b-th to the c-th all waits are such attempts. */
  ghost predicate PopsFailed(trace: seq<State>, waits: seq<Wait>, n: int, b: nat, c: nat) {
    b <= c <= |waits| && forall k :: b <= k < c ==> PopFailed(trace, n, waits[k])
  }

  lemma PopsFailedStay(trace: seq<State>, waits: seq<Wait>, longer: seq<State>, more: seq<Wait>, n: int, b: nat, c: nat)
    requires PopsFailed(trace, waits, n, b, c) && Extends(trace, longer) && Extends(waits, more)
    ensures PopsFailed(longer, more, n, b, c)
  {
    forall k | b <= k < c ensures PopFailed(longer, n, more[k]) {
      assert more[k] == waits[k];
      if waits[k].why.OffList? {
        var i :| 0 <= i && n <= i <= waits[k].at && i < |trace| && waits[k].why.page in trace[i].lists.modified;
        assert longer[i] == trace[i];
      }
    }
  }

  lemma OneMoreFailed(trace: seq<State>, waits: seq<Wait>, longer: seq<State>, more: seq<Wait>, n: int, b: nat)
    requires PopsFailed(trace, waits, n, b, |waits|) && Extends(trace, longer) && Extends(waits, more)
    requires |more| <= |waits| + 1 && (|more| == |waits| + 1 ==> PopFailed(longer, n, more[|waits|]))
    ensures PopsFailed(longer, more, n, b, |more|)
  {
    PopsFailedStay(trace, waits, longer, more, n, b, |waits|);
  }

  /** The collecting loop: each attempt pops a page into the batch, or fails
      because the page is locked or has been taken off the list meanwhile; it
      ends early only if the modified list is empty. */
  method Collect(m: Machine, attempts: nat)
    requires Collecting(m) && m.s.batch == []
    modifies m
    ensures m.Later() && Collecting(m) && |m.s.batch| <= attempts
    ensures PoppedInto(m.own, |old(m.own)|, |m.own|, m.s.batch)
    ensures PopsFailed(m.trace, m.waits, |old(m.trace)| - 1, |old(m.waits)|, |m.waits|)
    ensures || (|m.own| - |old(m.own)|) + (|m.waits| - |old(m.waits)|) == attempts
            || NothingModified(m.trace, |old(m.trace)| - 1)
  {
    hide Inv, Lawful, Recorded, Justified, Kept;
    var i := 0;
    while i < attempts
      invariant m.Later() && Collecting(m) && |m.s.batch| <= i <= attempts
      invariant PoppedInto(m.own, |old(m.own)|, |m.own|, m.s.batch)
      invariant (|m.own| - |old(m.own)|) + (|m.waits| - |old(m.waits)|) == i
      invariant PopsFailed(m.trace, m.waits, |old(m.trace)| - 1, |old(m.waits)|, |m.waits|)
    {
      ghost var trace, waits := m.trace, m.waits;
      var empty := TryCollect(m, |old(m.own)|, |old(m.trace)| - 1);
      OneMoreFailed(trace, waits, m.trace, m.waits, |old(m.trace)| - 1, |old(m.waits)|);
      if empty {
        NothingModifiedNow(m, |old(m.trace)| - 1);
        return;
      }
      i := i + 1;
    }
  }

  method TryCollect(m: Machine, ghost n: nat, ghost since: int) returns (empty: bool)
    requires Collecting(m) && PoppedInto(m.own, n, |m.own|, m.s.batch) && since < |m.trace|
    modifies m
    ensures |m.waits| == |old(m.waits)| + 1 ==> PopFailed(m.trace, since, m.waits[|old(m.waits)|])
    ensures m.Later() && Collecting(m) && PoppedInto(m.own, n, |m.own|, m.s.batch)
            && |m.s.batch| <= |old(m.s.batch)| + 1
    ensures if empty then m.s.lists.modified == {} && |m.own| == |old(m.own)| && |m.waits| == |old(m.waits)|
            else |m.own| + |m.waits| == |old(m.own)| + |old(m.waits)| + 1
  {
    hide Inv, Lawful, Recorded, Justified;
    m.Others();
    empty := m.s.lists.modified == {};
    if !empty {
      var p :| p in m.s.lists.modified;
      PopTail(m, p, n, since);
    }
  }

  lemma ListedIsPage(m: Machine, p: nat)
    requires m.Valid() && p in m.s.lists.modified
    ensures p < |m.s.pages|
  {
  }

  /** The page at the tail; by the time it is locked it may have been rescued. */
  method PopTail(m: Machine, p: nat, ghost n: nat, ghost since: int)
    requires Collecting(m) && PoppedInto(m.own, n, |m.own|, m.s.batch) && p in m.s.lists.modified && since < |m.trace|
    modifies m
    ensures |m.waits| == |old(m.waits)| + 1 ==> PopFailed(m.trace, since, m.waits[|old(m.waits)|])
    ensures m.Later() && Collecting(m) && PoppedInto(m.own, n, |m.own|, m.s.batch)
            && |m.s.batch| <= |old(m.s.batch)| + 1
    ensures |m.own| + |m.waits| == |old(m.own)| + |old(m.waits)| + 1
  {
    hide Inv, Sound, Lawful, Recorded, Justified;
    ListedIsPage(m, p);
    ghost var looked := |m.trace| - 1;
    assert m.trace[looked].lists.modified == m.s.lists.modified;
    m.Others();
    m.ValidIsSound();
    if p !in m.s.lists.modified {
      m.Await(OffList(p));
      assert p in m.trace[looked].lists.modified;
      return;
    }
    var ok := m.TryLock(p, LockBusy(p, ModifiedQueue));
    if ok {
      ModifiedCanBePopped(m.s, p);
      PopJoins(m.s, p);
      m.Do(Writer(DoPop(p)));
    }
  }

  /** The slots an allocation returns: the lowest free ones, as many as asked
      for or all there are. */
  method FindSlots(s: State, n: nat) returns (slots: seq<nat>)
    requires |s.slots| > 0 && s.slots[0].used
    ensures FreeSlots(s, slots) && |slots| == if n <= |FreeSlotSet(s)| then n else |FreeSlotSet(s)|
  {
    slots := [];
    var k := 1;
    while k < |s.slots| && |slots| < n
      invariant 1 <= k <= |s.slots| && |slots| <= n && FreeSlots(s, slots)
      invariant forall l: nat :: l in Elements(slots) <==> l < k && !s.slots[l].used
    {
      if !s.slots[k].used {
        assert k !in Elements(slots);
        slots := slots + [k];
        assert Elements(slots) == Elements(slots[..|slots| - 1]) + {k};
      }
      k := k + 1;
    }
    DistinctSize(slots);
    assert Elements(slots) <= FreeSlotSet(s);
    if k == |s.slots| {
      assert Elements(slots) == FreeSlotSet(s);
    } else {
      SubsetSize(Elements(slots), FreeSlotSet(s));
    }
  }

  lemma {:induction false} SubsetSize(a: set<nat>, b: set<nat>)
    requires a <= b
    ensures |a| <= |b|
  {
    assert b == a + (b - a);
  }

  // ----- copying and completing -------------------------------------------------------------

  /** The first `copied` entries are copied, the first `done` completed. */
  ghost predicate Progress(batch: seq<Entry>, copied: int, done: int) {
    && 0 <= done <= copied <= |batch|
    && forall i :: 0 <= i < |batch| ==> (batch[i].copied <==> i < copied) && (batch[i].done <==> i < done)
  }

  /** The entries are for these pages. */
  ghost predicate PagesAre(batch: seq<Entry>, pages: seq<nat>) {
    |batch| == |pages| && forall i :: 0 <= i < |batch| ==> batch[i].page == pages[i]
  }

  ghost predicate Writing(m: Machine, pages: seq<nat>, copied: int, done: int)
    reads m
  {
    m.Valid() && m.mine.writer && m.s.writing && PagesAre(m.s.batch, pages) && Progress(m.s.batch, copied, done)
  }

  /** From its n-th step on the thread popped nothing. */
  ghost predicate NoPops(own: seq<Step>, n: nat) {
    n <= |own| && forall k :: n <= k < |own| ==> !(own[k].action.Writer? && own[k].action.writer.DoPop?)
  }

  lemma NoPopsTwice(own: seq<Step>, longer: seq<Step>, n: nat)
    requires NoPops(own, n) && Extends(own, longer) && NoPops(longer, |own|)
    ensures NoPops(longer, n)
  {
  }

  method CopyRange(m: Machine, ghost pages: seq<nat>, from: nat, to: nat)
    requires Writing(m, pages, from, from) && from <= to <= |pages|
    modifies m
    ensures m.Later() && Writing(m, pages, to, from) && NoPops(m.own, |old(m.own)|)
  {
    hide Inv, Lawful, Recorded, Justified, Kept;
    for i := from to to
      invariant m.Later() && Writing(m, pages, i, from) && NoPops(m.own, |old(m.own)|)
    {
      CopyOne(m, pages, i, from);
    }
  }

  lemma EntryInRange(m: Machine, i: nat)
    requires m.Valid() && i < |m.s.batch|
    ensures m.s.batch[i].page < |m.s.pages| && m.s.batch[i].slot < |m.s.slots|
  {
  }

  method CopyOne(m: Machine, ghost pages: seq<nat>, i: nat, ghost from: nat)
    requires Writing(m, pages, i, from) && i < |pages|
    modifies m
    ensures m.Later() && Writing(m, pages, i + 1, from)
    ensures |m.own| == |old(m.own)| + 1 && m.own[|old(m.own)|].action == Writer(DoStore(i))
  {
    hide Inv, Lawful, Recorded, Justified;
    m.Others();
    EntryInRange(m, i);
    m.Do(Writer(DoStore(i)));
  }

  /** Waits for each pagelock in turn; `patience` bounds the waiting. */
  method CompleteRange(m: Machine, ghost pages: seq<nat>, from: nat, to: nat, patience: nat) returns (finished: bool)
    requires Writing(m, pages, to, from) && from <= to <= |pages|
    modifies m
    ensures m.Later() && NoPops(m.own, |old(m.own)|)
    ensures if finished then Writing(m, pages, to, to)
            else Stuck(m.waits, |old(m.waits)|, patience, HeldPages(Elements(pages)))
  {
    hide Inv, Lawful, Recorded, Justified, Kept;
    var i, left := from, patience;
    while i < to && left > 0
      invariant m.Later() && from <= i <= to && Writing(m, pages, to, i) && NoPops(m.own, |old(m.own)|)
      invariant 0 <= left <= patience && |m.waits| == |old(m.waits)| + (patience - left)
      invariant OnlyFrom(m.waits, |old(m.waits)|, HeldPages(Elements(pages)))
      decreases left, to - i
    {
      ghost var waits := m.waits;
      var done := TryComplete(m, pages, to, i);
      OnlyFromBoth(waits, m.waits, |old(m.waits)|, HeldPages(Elements(pages)));
      if done { i := i + 1; } else { left := left - 1; }
    }
    if i < to { StuckSince(m.waits, |old(m.waits)|, patience, HeldPages(Elements(pages))); }
    finished := i == to;
  }

  method TryComplete(m: Machine, ghost pages: seq<nat>, ghost to: nat, i: nat) returns (done: bool)
    requires Writing(m, pages, to, i) && i < to
    modifies m
    ensures m.Later() && Writing(m, pages, to, if done then i + 1 else i) && NoPops(m.own, |old(m.own)|)
    ensures |m.waits| == |old(m.waits)| + if done then 0 else 1
    ensures OnlyFrom(m.waits, |old(m.waits)|, HeldPages(Elements(pages)))
  {
    hide Inv, Lawful, Recorded, Justified;
    m.Others();
    EntryInRange(m, i);
    done := CanComplete(m.s, i);
    if done {
      m.Do(Writer(DoComplete(i)));
    } else {
      m.Await(PageHeld(m.s.batch[i].page));
    }
  }

  /** Copies and completes one minibatch. */
  method WriteRange(m: Machine, ghost pages: seq<nat>, from: nat, to: nat, patience: nat) returns (finished: bool)
    requires Writing(m, pages, from, from) && from <= to <= |pages|
    modifies m
    ensures m.Later() && NoPops(m.own, |old(m.own)|)
    ensures if finished then Writing(m, pages, to, to)
            else Stuck(m.waits, |old(m.waits)|, patience, HeldPages(Elements(pages)))
  {
    hide Inv, Lawful, Recorded, Justified, Kept;
    CopyRange(m, pages, from, to);
    ghost var own, waited := m.own, |m.waits|;
    finished := CompleteRange(m, pages, from, to, patience);
    if !finished { StillHeld(m.waits, waited, |old(m.waits)|, patience, pages); }
    NoPopsTwice(own, m.own, |old(m.own)|);
  }

  lemma StillHeld(waits: seq<Wait>, w: nat, earlier: nat, patience: nat, pages: seq<nat>)
    requires Stuck(waits, w, patience, HeldPages(Elements(pages))) && earlier <= w
    ensures Stuck(waits, earlier, patience, HeldPages(Elements(pages)))
  {
    StuckWider(waits, w, earlier, patience, HeldPages(Elements(pages)), HeldPages(Elements(pages)));
  }

  /** The loop over the minibatches. */
  method WriteMinibatches(m: Machine, ghost pages: seq<nat>, maxPages: nat, patience: nat) returns (finished: bool)
    requires Writing(m, pages, 0, 0) && |pages| <= maxPages && maxPages % MOD_WRITER_MINIBATCH_SIZE == 0
    modifies m
    ensures m.Later() && NoPops(m.own, |old(m.own)|)
    ensures if finished then Writing(m, pages, |pages|, |pages|)
            else Stuck(m.waits, |old(m.waits)|, patience, HeldPages(Elements(pages)))
  {
    hide Inv, Lawful, Recorded, Justified, Kept;
    var n := |m.s.batch|;
    var minibatches := Minibatches(n, maxPages);
    for minibatch := 0 to minibatches
      invariant m.Later() && NoPops(m.own, |old(m.own)|)
      invariant Writing(m, pages, Min(minibatch * MOD_WRITER_MINIBATCH_SIZE, n),
                Min(minibatch * MOD_WRITER_MINIBATCH_SIZE, n))
    {
      var start := minibatch * MOD_WRITER_MINIBATCH_SIZE;
      assert start <= n;
      ghost var own, waited := m.own, |m.waits|;
      finished := WriteRange(m, pages, start, Min(start + MOD_WRITER_MINIBATCH_SIZE, n), patience);
      NoPopsTwice(own, m.own, |old(m.own)|);
      if !finished {
        StillHeld(m.waits, waited, |old(m.waits)|, patience, pages);
        return;
      }
    }
    MinibatchesCoverIff(maxPages);
    assert Reached(n, maxPages) == n;
    finished := true;
  }

  // ----- one turn of the writer ----------------------------------------------------------------

  /** At a time from n on these entries were the batch, each with a slot, copied
      and completed. */
  ghost predicate Written(trace: seq<State>, n: int, batch: seq<Entry>) {
    && AllDone(batch) && (forall k :: 0 <= k < |batch| ==> batch[k].copied && batch[k].slot != 0)
    && exists i :: 0 <= i && n <= i < |trace| && trace[i].batch == batch
  }

  lemma WrittenAt(s: State, i: nat, trace: seq<State>, n: int)
    requires Sound(s) && CanNextBatch(s) && n <= i < |trace| && trace[i] == s
    ensures Written(trace, n, s.batch)
  {
    forall k | 0 <= k < |s.batch| ensures s.batch[k].copied && s.batch[k].slot != 0 { assert EntryOk(s, k); }
  }

  /** The writer is between two batches. */
  ghost predicate Rested(m: Machine)
    reads m
  {
    Collecting(m) && m.s.batch == [] && forall p :: 0 <= p < |m.s.pages| ==> !m.s.pages[p].writing
  }

  lemma NothingToWrite(m: Machine)
    requires Collecting(m) && m.s.batch == []
    ensures Rested(m) && Written(m.trace, |m.trace| - 1, [])
  {
    forall p | 0 <= p < |m.s.pages| ensures !m.s.pages[p].writing { assert !InBatch(m.s.batch, p); }
    assert m.trace[|m.trace| - 1].batch == [];
  }

  method AllotSlots(m: Machine) returns (ghost pages: seq<nat>)
    requires Collecting(m) && |m.s.batch| > 0
    modifies m
    ensures m.Later() && PagesAre(old(m.s.batch), pages) && Writing(m, pages, 0, 0) && NoPops(m.own, |old(m.own)|)
  {
    hide Inv, Sound, Lawful, Recorded, Justified;
    m.ValidIsSound();
    FreshBatch(m.s);
    ghost var batch := m.s.batch;
    pages := seq(|batch|, i requires 0 <= i < |batch| => batch[i].page);
    var slots := FindSlots(m.s, |m.s.batch|);
    SlotsSuffice(m.s);
    m.Do(Writer(DoAllot(slots)));
  }

  lemma FreshBatch(s: State)
    requires Sound(s) && !s.writing
    ensures |s.slots| > 0 && s.slots[0].used
    ensures forall i :: 0 <= i < |s.batch| ==> !s.batch[i].copied && !s.batch[i].done
  {
    assert SlotOk(s, 0);
    forall i | 0 <= i < |s.batch| ensures !s.batch[i].copied && !s.batch[i].done { assert EntryOk(s, i); }
  }

  method CloseBatch(m: Machine, ghost pages: seq<nat>, ghost n: int) returns (ghost batch: seq<Entry>)
    requires Writing(m, pages, |pages|, |pages|) && n < |m.trace|
    modifies m
    ensures m.Later() && PagesAre(batch, pages) && Rested(m) && Written(m.trace, n, batch)
            && NoPops(m.own, |old(m.own)|)
  {
    ghost var last := m.s;
    batch := m.s.batch;
    m.Do(Writer(DoNextBatch));
    WrittenAt(last, |m.trace| - 2, m.trace, n);
    NothingToWrite(m);
  }

  function PagesOf(batch: seq<Entry>): set<nat> {
    set e | e in batch :: e.page
  }

  lemma SamePages(batch: seq<Entry>, pages: seq<nat>)
    requires PagesAre(batch, pages)
    ensures PagesOf(batch) == Elements(pages)
  {
    forall p | p in PagesOf(batch) ensures p in Elements(pages) {
      var i :| 0 <= i < |batch| && batch[i].page == p;
      assert pages[i] == p;
    }
    forall p | p in Elements(pages) ensures p in PagesOf(batch) {
      var i :| 0 <= i < |pages| && pages[i] == p;
      assert batch[i] in batch && batch[i].page == p;
    }
  }

  /** Slots, copies and completions for the batch that was collected; the batch
      returned has the same pages. */
  method FinishBatch(m: Machine, maxPages: nat, patience: nat) returns (finished: bool, ghost batch: seq<Entry>)
    requires Collecting(m) && 0 < |m.s.batch| <= maxPages && maxPages % MOD_WRITER_MINIBATCH_SIZE == 0
    modifies m
    ensures m.Later() && NoPops(m.own, |old(m.own)|)
    ensures |batch| == |old(m.s.batch)| && forall i :: 0 <= i < |batch| ==> batch[i].page == old(m.s.batch)[i].page
    ensures if finished then Rested(m) && Written(m.trace, |old(m.trace)| - 1, batch)
            else Stuck(m.waits, |old(m.waits)|, patience, HeldPages(PagesOf(batch)))
  {
    hide Inv, Lawful, Recorded, Justified, Kept;
    ghost var pages := AllotSlots(m);
    batch := old(m.s.batch);
    ghost var own, waited := m.own, |m.waits|;
    finished := WriteMinibatches(m, pages, maxPages, patience);
    if !finished {
      SamePages(batch, pages);
      StillHeld(m.waits, waited, |old(m.waits)|, patience, pages);
    }
    NoPopsTwice(own, m.own, |old(m.own)|);
    own := m.own;
    if finished {
      batch := CloseBatch(m, pages, |old(m.trace)| - 1);
      NoPopsTwice(own, m.own, |old(m.own)|);
    }
  }

  lemma NothingModifiedStays(trace: seq<State>, longer: seq<State>, n: int)
    requires Extends(trace, longer)
    ensures NothingModified(trace, n) ==> NothingModified(longer, n)
  {
  }

  lemma PoppedIntoSame(own: seq<Step>, longer: seq<Step>, n: nat, batch: seq<Entry>, batch': seq<Entry>)
    requires PoppedInto(own, n, |own|, batch) && Extends(own, longer)
    requires |batch'| == |batch| && forall i :: 0 <= i < |batch| ==> batch'[i].page == batch[i].page
    ensures PoppedInto(longer, n, |own|, batch')
  {
    forall k | n <= k < |own| ensures Batched(batch', longer[k].action.writer.p) {
      var i :| 0 <= i < |batch| && batch[i].page == own[k].action.writer.p;
      assert batch'[i].page == longer[k].action.writer.p;
    }
  }

  /** One turn of thread_modified_writer.  It makes as many attempts to pop a page
      as it may, unless the modified list is empty; every page it pops is in its
      batch, and there is a slot for each.  When it gets to the end every page of
      the batch has been copied once and completed once, and none is marked as
      being written.  It stops short only after `patience` failed attempts.
      `o` and `w` are how far its steps and waits had come when the batch was
      collected. */
  method WriteBatch(m: Machine, maxPages: nat, listLength: nat, patience: nat)
    returns (finished: bool, ghost batch: seq<Entry>, ghost o: nat, ghost w: nat)
    requires Collecting(m) && m.s.batch == [] && maxPages % MOD_WRITER_MINIBATCH_SIZE == 0
    modifies m
    ensures m.Later() && |batch| <= maxPages
    ensures PoppedInto(m.own, |old(m.own)|, o, batch) && NoPops(m.own, o)
    ensures PopsFailed(m.trace, m.waits, |old(m.trace)| - 1, |old(m.waits)|, w)
    ensures || (o - |old(m.own)|) + (w - |old(m.waits)|) == Min(maxPages, listLength)
            || NothingModified(m.trace, |old(m.trace)| - 1)
    ensures if finished then Rested(m) && Written(m.trace, |old(m.trace)| - 1, batch)
            else Stuck(m.waits, w, patience, HeldPages(PagesOf(batch)))
  {
    hide Inv, Lawful, Recorded, Justified, Kept;
    Collect(m, Min(maxPages, listLength));
    batch, o, w := m.s.batch, |m.own|, |m.waits|;
    if |m.s.batch| == 0 {
      NothingToWrite(m);
      finished := true;
    } else {
      ghost var own, trace, waits, collected := m.own, m.trace, m.waits, m.s.batch;
      finished, batch := FinishBatch(m, maxPages, patience);
      PopsFailedStay(trace, waits, m.trace, m.waits, |old(m.trace)| - 1, |old(m.waits)|, w);
      NothingModifiedStays(trace, m.trace, |old(m.trace)| - 1);
      PoppedIntoSame(own, m.own, |old(m.own)|, collected, batch);
    }
  }
}
