/** The list refresher and the zeroing thread, while other threads go on. */
module RefillThreads {
  import opened PageState
  import opened Protocol
  import opened Invariant
  import opened Interference
  import opened Machine
  import opened FaultBatches
  import FaultPages

  /** The thread holds the pages, all at the same point. */
  ghost predicate Holds(m: Machine, pages: seq<nat>, h: Hand)
    reads m
  {
    HoldsTwo(m, pages, |pages|, h, h)
  }

  /** The thread holds them, the first n of them a step ahead of the others. */
  ghost predicate HoldsTwo(m: Machine, pages: seq<nat>, n: nat, ahead: Hand, behind: Hand)
    reads m
  {
    && m.Valid() && Distinct(pages) && m.mine.hands == Elements(pages)
    && (forall k :: 0 <= k < |pages| ==>
       pages[k] < |m.s.pages| && m.s.pages[pages[k]].hand == if k < n then ahead else behind)
  }

  predicate Steady(h: Hand) {
    h == Refresh || h == Hand.Detached || h == Hand.Zeroing || h == Hand.Zeroed
  }

  method Wait(m: Machine, pages: seq<nat>, n: nat, ghost ahead: Hand, ghost behind: Hand)
    requires HoldsTwo(m, pages, n, ahead, behind) && Steady(ahead) && Steady(behind)
    modifies m
    ensures HoldsTwo(m, pages, n, ahead, behind) && m.Later() && m.mine == old(m.mine) && m.own == old(m.own)
    ensures m.waits == old(m.waits)
  {
    m.Others();
  }

  // ----- what the thread does to its pages --------------------------------------------

  /** The steps these threads take for a page. */
  datatype Point = TakenOff | PutOnDisk | Freed | Slotted | TakenFromSlot | Cleared | ZeroListed

  function ActionFor(point: Point, p: nat): Action {
    match point
    case TakenOff => Refill(DoTakeOld(p))
    case PutOnDisk => Refill(DoDetach(p))
    case Freed => Refill(DoAddFree(p))
    case Slotted => Refill(DoAddZeroSlot(p))
    case TakenFromSlot => Refill(DoTakeZeroSlot(p))
    case Cleared => Refill(DoClear(p))
    case ZeroListed => Refill(DoAddZero(p))
  }

  predicate OnNoList(s: State, p: nat) {
    p !in s.lists.zero && p !in s.lists.free && p !in s.lists.standby && p !in s.lists.modified
  }

  /** What such a step does to the page. */
  predicate Happened(s: State, s': State, point: Point, p: nat) {
    && p < |s.pages| && p < |s'.pages|
    && match point
       case TakenOff => p in s.lists.standby && OnNoList(s', p) && s'.pages[p].hand.Refresh?
       case PutOnDisk =>
         && s.pages[p].pte.Some? && s.pages[p].pte.value < |s'.virtuals| && s.pages[p].slot < |s'.slots|
         && s'.virtuals[s.pages[p].pte.value].pte == Disk(s.pages[p].slot, false) && s'.slots[s.pages[p].slot].used
       case Freed => p in s'.lists.free && OnNoList(s, p) && s'.pages[p].status.Free?
       case Slotted => OnNoList(s', p) && s'.pages[p].hand.ZeroSlot? && !s.pages[p].hand.ZeroSlot?
       case TakenFromSlot => OnNoList(s', p) && s.pages[p].hand.ZeroSlot? && !s'.pages[p].hand.ZeroSlot?
       case Cleared => OnNoList(s', p) && s'.pages[p].bytes == ZERO_PAGE
       case ZeroListed => OnNoList(s, p) && p in s'.lists.zero && p !in s'.lists.free && s'.pages[p].bytes == ZERO_PAGE
  }

  lemma PointHappens(s: State, point: Point, p: nat)
    requires Sound(s) && Enabled(s, ActionFor(point, p)) && Sound(Apply(s, ActionFor(point, p)))
    ensures Happened(s, Apply(s, ActionFor(point, p)), point, p) && SameSize(s, Apply(s, ActionFor(point, p)))
  {
    assert PageOk(s, p) && PageOk(Apply(s, ActionFor(point, p)), p);
    if point.PutOnDisk? { PutOnDiskHappens(s, p); }
  }

  lemma PutOnDiskHappens(s: State, p: nat)
    requires Sound(s) && CanDetach(s, p)
    ensures Happened(s, Detach(s, p), PutOnDisk, p)
  {
    assert PageOk(s, p) && SlotOk(s, s.pages[p].slot);
    assert VirtualOk(s, s.pages[p].pte.value);
  }

  predicate HappenedAt(trace: seq<State>, step: Step, point: Point, p: nat) {
    step.at + 1 < |trace| && Happened(trace[step.at], trace[step.at + 1], point, p)
  }

  /** From its n-th step on the thread did just this to each of the pages, in
      their order. */
  ghost predicate Took(trace: seq<State>, own: seq<Step>, n: nat, pages: seq<nat>, point: Point) {
    n + |pages| <= |own| && forall k :: 0 <= k < |pages| ==> HappenedAt(trace, own[n + k], point, pages[k])
  }

  /** And then no other. */
  ghost predicate JustTook(trace: seq<State>, own: seq<Step>, n: nat, pages: seq<nat>, point: Point) {
    Took(trace, own, n, pages, point) && |own| == n + |pages|
  }

  lemma TookMore(trace: seq<State>, own: seq<Step>, longer: seq<State>, more: seq<Step>, n: nat, pages: seq<nat>,
                 p: nat, point: Point)
    requires JustTook(trace, own, n, pages, point) && Extends(trace, longer) && Extends(own, more)
    requires |more| == |own| + 1 && HappenedAt(longer, more[|own|], point, p)
    ensures JustTook(longer, more, n, pages + [p], point)
  {
    TookStays(trace, own, longer, more, n, pages, point);
  }

  lemma TookStays(trace: seq<State>, own: seq<Step>, longer: seq<State>, more: seq<Step>, n: nat, pages: seq<nat>,
                  point: Point)
    requires Took(trace, own, n, pages, point) && Extends(trace, longer) && Extends(own, more)
    ensures Took(longer, more, n, pages, point)
  {
    hide Happened;
    forall k | 0 <= k < |pages| ensures HappenedAt(longer, more[n + k], point, pages[k]) {
      assert HappenedAt(trace, own[n + k], point, pages[k]);
    }
  }

  /** One step of the thread. */
  method Act(m: Machine, point: Point, p: nat)
    requires m.Valid() && Enabled(m.s, ActionFor(point, p))
    modifies m
    ensures m.Valid() && m.Later() && m.s == Apply(old(m.s), ActionFor(point, p))
    ensures m.mine == Holding(old(m.mine), ActionFor(point, p)) && m.waits == old(m.waits)
    ensures |m.own| == |old(m.own)| + 1 && HappenedAt(m.trace, m.own[|old(m.own)|], point, p)
  {
    hide Inv, Sound, Lawful, Recorded, Justified, Happened, Enabled, Apply;
    m.ValidIsSound();
    ghost var before := m.s;
    m.Do(ActionFor(point, p));
    m.ValidIsSound();
    PointHappens(before, point, p);
  }

  // ----- taking pages --------------------------------------------------------------

  /** standby_pop_batch: fewer pages than wanted only if the standby list was
      empty.  The source spins on pagelocks; `patience` bounds the failures. */
  method PopStandby(m: Machine, wanted: nat, patience: nat) returns (pages: seq<nat>, finished: bool)
    requires m.Valid() && m.mine.hands == {}
    modifies m
    ensures m.Later() && Holds(m, pages, Refresh) && |pages| <= wanted
    ensures JustTook(m.trace, m.own, |old(m.own)|, pages, TakenOff)
    ensures if finished then |pages| == wanted || FaultPages.Dry(m.trace, |old(m.trace)| - 1)
            else Stuck(m.waits, |old(m.waits)|, patience, BusyStandby)
  {
    hide Inv, Lawful, Recorded, Justified, Kept;
    pages, finished := [], false;
    var left, empty := patience, false;
    while |pages| < wanted && left > 0 && !empty
      invariant m.Later() && Holds(m, pages, Refresh) && |pages| <= wanted && 0 <= left <= patience
      invariant JustTook(m.trace, m.own, |old(m.own)|, pages, TakenOff)
                && |m.waits| == |old(m.waits)| + (patience - left)
      invariant OnlyFrom(m.waits, |old(m.waits)|, BusyStandby)
      invariant empty ==> FaultPages.Dry(m.trace, |old(m.trace)| - 1)
      decreases left, wanted - |pages|, !empty
    {
      var held := |pages|;
      ghost var waits := m.waits;
      pages, empty := TryPop(m, pages, |old(m.own)|);
      OnlyFromBoth(waits, m.waits, |old(m.waits)|, BusyStandby);
      if empty {
        FaultPages.DryNow(m, |old(m.trace)| - 1);
      } else if |pages| == held {
        left := left - 1;
      }
    }
    finished := |pages| == wanted || empty;
    if !finished { StuckSince(m.waits, |old(m.waits)|, patience, BusyStandby); }
  }

  method TryPop(m: Machine, pages: seq<nat>, ghost n: nat) returns (more: seq<nat>, empty: bool)
    requires Holds(m, pages, Refresh) && JustTook(m.trace, m.own, n, pages, TakenOff)
    modifies m
    ensures m.Later() && Holds(m, more, Refresh) && |pages| <= |more| <= |pages| + 1
            && JustTook(m.trace, m.own, n, more, TakenOff)
    ensures empty ==> m.s.lists.standby == {} && more == pages
    ensures |m.waits| == |old(m.waits)| + if |more| > |pages| || empty then 0 else 1
    ensures OnlyFrom(m.waits, |old(m.waits)|, BusyStandby)
  {
    ghost var trace, own := m.trace, m.own;
    Wait(m, pages, |pages|, Refresh, Refresh);
    TookStays(trace, own, m.trace, m.own, n, pages, TakenOff);
    more, empty := pages, m.s.lists.standby == {};
    if !empty {
      more := PopOldest(m, pages, n);
    }
  }

  method PopOldest(m: Machine, pages: seq<nat>, ghost n: nat) returns (more: seq<nat>)
    requires Holds(m, pages, Refresh) && JustTook(m.trace, m.own, n, pages, TakenOff) && m.s.lists.standby != {}
    modifies m
    ensures m.Later() && Holds(m, more, Refresh) && |pages| <= |more| <= |pages| + 1
            && JustTook(m.trace, m.own, n, more, TakenOff)
    ensures |m.waits| == |old(m.waits)| + if |more| > |pages| then 0 else 1
    ensures OnlyFrom(m.waits, |old(m.waits)|, BusyStandby)
  {
    more := pages;
    var p :| p in m.s.lists.standby;
    FaultPages.StandbyCanBeReserved(m.s, p);
    var ok := m.TryLock(p, LockBusy(p, StandbyQueue));
    if ok {
      more := TakeOff(m, pages, p, n);
    }
  }

  method TakeOff(m: Machine, pages: seq<nat>, p: nat, ghost n: nat) returns (more: seq<nat>)
    requires Holds(m, pages, Refresh) && JustTook(m.trace, m.own, n, pages, TakenOff) && CanTakeOld(m.s, p)
    modifies m
    ensures m.Later() && Holds(m, more, Refresh) && more == pages + [p] && JustTook(m.trace, m.own, n, more, TakenOff)
    ensures m.waits == old(m.waits)
  {
    hide Inv, Lawful, Recorded, Justified, Kept, Happened;
    assert p !in pages;
    Append(pages, p);
    ghost var trace, own := m.trace, m.own;
    Act(m, TakenOff, p);
    more := pages + [p];
    TookMore(trace, own, m.trace, m.own, n, pages, p, TakenOff);
  }

  // ----- leaving the old PTEs in disk format ---------------------------------------------

  /** update_pte_sections_to_disk_format. */
  method DetachAll(m: Machine, pages: seq<nat>)
    requires Holds(m, pages, Refresh)
    modifies m
    ensures m.Later() && Holds(m, pages, Hand.Detached) && JustTook(m.trace, m.own, |old(m.own)|, pages, PutOnDisk)
  {
    hide Inv, Lawful, Recorded, Justified, Kept;
    for i := 0 to |pages|
      invariant m.Later() && HoldsTwo(m, pages, i, Hand.Detached, Refresh)
      invariant JustTook(m.trace, m.own, |old(m.own)|, pages[..i], PutOnDisk)
    {
      DetachOne(m, pages, i, |old(m.own)|);
    }
    assert pages[..|pages|] == pages;
  }

  method DetachOne(m: Machine, pages: seq<nat>, i: nat, ghost n: nat)
    requires i < |pages| && HoldsTwo(m, pages, i, Hand.Detached, Refresh)
             && JustTook(m.trace, m.own, n, pages[..i], PutOnDisk)
    modifies m
    ensures m.Later() && HoldsTwo(m, pages, i + 1, Hand.Detached, Refresh)
            && JustTook(m.trace, m.own, n, pages[..i + 1], PutOnDisk)
  {
    hide Inv, Sound, Lawful, Recorded, Justified, Happened;
    ghost var trace, own := m.trace, m.own;
    Wait(m, pages, i, Hand.Detached, Refresh);
    m.ValidIsSound();
    DetachStep(m.s, pages[i]);
    Act(m, PutOnDisk, pages[i]);
    assert pages[..i + 1] == pages[..i] + [pages[i]];
    TookMore(trace, own, m.trace, m.own, n, pages[..i], pages[i], PutOnDisk);
  }

  /** The PTE the page points back to is left in disk format, with its slot. */
  lemma DetachStep(s: State, p: nat)
    requires Sound(s) && CanDetach(s, p)
    ensures s.pages[p].pte.Some? && s.pages[p].pte.value < |s.virtuals|
    ensures Detach(s, p).virtuals[s.pages[p].pte.value].pte == Disk(s.pages[p].slot, false)
    ensures SameSize(s, Detach(s, p))
    ensures forall q :: 0 <= q < |s.pages| && q != p ==> Detach(s, p).pages[q] == s.pages[q]
  {
    assert PageOk(s, p);
  }

  // ----- giving the pages away -------------------------------------------------------------

  lemma InFront(pages: seq<nat>)
    requires Distinct(pages) && pages != []
    ensures Distinct(pages[1..]) && Elements(pages) - {pages[0]} == Elements(pages[1..])
  {
    InSuffix(pages, 0);
    assert pages[0..] == pages;
  }

  /** The first i pages are given away, the thread still holds the others. */
  ghost predicate Giving(m: Machine, pages: seq<nat>, i: int, h: Hand)
    requires 0 <= i <= |pages|
    reads m
  {
    Holds(m, pages[i..], h)
  }

  predicate Gives(point: Point, h: Hand) {
    match point
    case Freed => h == Hand.Detached
    case Slotted => h == Hand.Detached
    case ZeroListed => h == Hand.Zeroed
    case _ => false
  }

  /** Gives one page away: to its free list, to the zeroing thread's slots, or,
      once it is cleared, to its zero list. */
  method GiveOne(m: Machine, pages: seq<nat>, i: nat, point: Point, ghost h: Hand)
    requires i < |pages| && Giving(m, pages, i, h) && Gives(point, h)
    modifies m
    ensures m.Later() && Giving(m, pages, i + 1, h)
    ensures |m.own| == |old(m.own)| + 1 && HappenedAt(m.trace, m.own[|old(m.own)|], point, pages[i])
  {
    hide Inv, Lawful, Recorded, Justified, Kept, Happened;
    var rest := pages[i..];
    Wait(m, rest, |rest|, h, h);
    InFront(rest);
    assert rest[1..] == pages[i + 1..];
    Act(m, point, pages[i]);
  }

  /** free_frames_add_batch, for pages i to j. */
  method GiveRun(m: Machine, pages: seq<nat>, i: nat, j: nat, point: Point, ghost h: Hand)
    requires i <= j <= |pages| && Giving(m, pages, i, h) && Gives(point, h)
    modifies m
    ensures m.Later() && Giving(m, pages, j, h) && JustTook(m.trace, m.own, |old(m.own)|, pages[i..j], point)
  {
    hide Inv, Lawful, Recorded, Justified, Kept;
    for k := i to j
      invariant m.Later() && Giving(m, pages, k, h) && JustTook(m.trace, m.own, |old(m.own)|, pages[i..k], point)
    {
      ghost var trace, own := m.trace, m.own;
      GiveOne(m, pages, k, point, h);
      assert pages[i..k + 1] == pages[i..k] + [pages[k]];
      TookMore(trace, own, m.trace, m.own, |old(m.own)|, pages[i..k], pages[k], point);
    }
  }

  /** The loop that fills zeroing slots until one of them is not open. */
  method FillSlots(m: Machine, pages: seq<nat>, i: nat) returns (j: nat)
    requires i <= |pages| && Giving(m, pages, i, Hand.Detached)
    modifies m
    ensures m.Later() && i <= j <= |pages| && Giving(m, pages, j, Hand.Detached)
    ensures JustTook(m.trace, m.own, |old(m.own)|, pages[i..j], Slotted)
  {
    hide Inv, Lawful, Recorded, Justified, Kept;
    j := i;
    while j < |pages|
      invariant i <= j <= |pages| && m.Later() && Giving(m, pages, j, Hand.Detached)
      invariant JustTook(m.trace, m.own, |old(m.own)|, pages[i..j], Slotted)
    {
      var open: bool := *;
      if !open { break; }
      ghost var trace, own := m.trace, m.own;
      GiveOne(m, pages, j, Slotted, Hand.Detached);
      assert pages[i..j + 1] == pages[i..j] + [pages[j]];
      TookMore(trace, own, m.trace, m.own, |old(m.own)|, pages[i..j], pages[j], Slotted);
      j := j + 1;
    }
  }

  /** From the n-th step of the thread on: the first `first` pages went to free
      lists, those up to j to slots, the others to free lists. */
  ghost predicate GaveAway(trace: seq<State>, own: seq<Step>, n: nat, pages: seq<nat>, first: nat, j: nat) {
    && first <= j <= |pages| && |own| == n + |pages|
    && Took(trace, own, n, pages[..first], Freed) && Took(trace, own, n + first, pages[first..j], Slotted)
    && Took(trace, own, n + j, pages[j..], Freed)
  }

  method GiveAll(m: Machine, pages: seq<nat>, first: nat) returns (j: nat)
    requires Holds(m, pages, Hand.Detached) && first <= |pages|
    modifies m
    ensures m.Later() && m.Valid() && m.mine.hands == {} && GaveAway(m.trace, m.own, |old(m.own)|, pages, first, j)
  {
    hide Inv, Lawful, Recorded, Justified, Kept;
    assert pages[0..] == pages && pages[0..first] == pages[..first];
    GiveRun(m, pages, 0, first, Freed, Hand.Detached);
    ghost var trace, own := m.trace, m.own;
    j := FillSlots(m, pages, first);
    ghost var trace', own' := m.trace, m.own;
    GiveRun(m, pages, j, |pages|, Freed, Hand.Detached);
    assert pages[j..|pages|] == pages[j..] && pages[|pages|..] == [];
    TookStays(trace, own, m.trace, m.own, |old(m.own)|, pages[..first], Freed);
    TookStays(trace', own', m.trace, m.own, |old(m.own)| + first, pages[first..j], Slotted);
  }

  /** refresh_free_and_zero_lists, and with freeFirst 0 refresh_zero_lists.  All
      steps of the thread are these: it pops pages, as many as wanted unless the
      standby list was empty; leaves the PTE of each in disk format; and gives
      each away. */
  method RefreshLists(m: Machine, wanted: nat, freeFirst: nat, patience: nat)
    returns (finished: bool, ghost pages: seq<nat>, ghost slotted: nat)
    requires m.Valid() && m.mine.hands == {}
    modifies m
    ensures m.Later() && Distinct(pages) && |pages| <= wanted && Took(m.trace, m.own, |old(m.own)|, pages, TakenOff)
    ensures finished ==> m.Valid() && m.mine.hands == {}
    ensures if finished then |pages| == wanted || FaultPages.Dry(m.trace, |old(m.trace)| - 1)
            else Stuck(m.waits, |old(m.waits)|, patience, BusyStandby)
    ensures finished ==>
              && Took(m.trace, m.own, |old(m.own)| + |pages|, pages, PutOnDisk)
              && GaveAway(m.trace, m.own, |old(m.own)| + 2 * |pages|, pages,
                          if |pages| < freeFirst then |pages| else freeFirst, slotted)
  {
    hide Inv, Lawful, Recorded, Justified, Kept;
    var popped;
    popped, finished := PopStandby(m, wanted, patience);
    pages, slotted := popped, 0;
    if !finished { return; }
    ghost var trace, own := m.trace, m.own;
    var j := Repurpose(m, popped, if |popped| < freeFirst then |popped| else freeFirst);
    slotted := j;
    TookStays(trace, own, m.trace, m.own, |old(m.own)|, pages, TakenOff);
  }

  method Repurpose(m: Machine, pages: seq<nat>, first: nat) returns (j: nat)
    requires Holds(m, pages, Refresh) && first <= |pages|
    modifies m
    ensures m.Later() && m.Valid() && m.mine.hands == {} && Took(m.trace, m.own, |old(m.own)|, pages, PutOnDisk)
    ensures GaveAway(m.trace, m.own, |old(m.own)| + |pages|, pages, first, j)
  {
    hide Inv, Lawful, Recorded, Justified, Kept;
    DetachAll(m, pages);
    ghost var trace, own := m.trace, m.own;
    j := GiveAll(m, pages, first);
    TookStays(trace, own, m.trace, m.own, |old(m.own)|, pages, PutOnDisk);
  }

  // ----- zeroing ---------------------------------------------------------------------------

  /** At some time from n on the page did not wait in a slot. */
  ghost predicate NotWaiting(trace: seq<State>, n: int, p: nat) {
    exists i :: 0 <= i && n <= i < |trace| && !(p < |trace[i].pages| && trace[i].pages[p].hand.ZeroSlot?)
  }

  /** That is so for the first `count` pages. */
  ghost predicate NoneLeft(trace: seq<State>, n: int, count: int) {
    forall p: nat :: p < count ==> NotWaiting(trace, n, p)
  }

  lemma NoneLeftStays(trace: seq<State>, longer: seq<State>, n: int, count: int)
    requires NoneLeft(trace, n, count) && Extends(trace, longer)
    ensures NoneLeft(longer, n, count)
  {
    forall p: nat | p < count ensures NotWaiting(longer, n, p) {
      assert NotWaiting(trace, n, p);
      var i :| 0 <= i && n <= i < |trace| && !(p < |trace[i].pages| && trace[i].pages[p].hand.ZeroSlot?);
      assert longer[i] == trace[i];
    }
  }

  lemma NotWaitingNow(m: Machine, n: int, p: nat)
    requires m.Valid() && n < |m.trace| && !(p < |m.s.pages| && m.s.pages[p].hand.ZeroSlot?)
    ensures NotWaiting(m.trace, n, p)
  {
    hide Inv, Lawful, Recorded, Justified;
    assert !(p < |m.trace[|m.trace| - 1].pages| && m.trace[|m.trace| - 1].pages[p].hand.ZeroSlot?);
  }

  /** zero_list_get_pages_to_clear: takes every page that it finds waiting. */
  method TakeSlots(m: Machine) returns (pages: seq<nat>)
    requires m.Valid() && m.mine.hands == {}
    modifies m
    ensures m.Later() && Holds(m, pages, Hand.Zeroing) && JustTook(m.trace, m.own, |old(m.own)|, pages, TakenFromSlot)
    ensures NoneLeft(m.trace, |old(m.trace)| - 1, |m.s.pages|)
  {
    hide Inv, Lawful, Recorded, Justified, Kept, Holds;
    pages := [];
    HoldsNothing(m, Hand.Zeroing);
    for p := 0 to |m.s.pages|
      invariant m.Later() && Holds(m, pages, Hand.Zeroing)
                && JustTook(m.trace, m.own, |old(m.own)|, pages, TakenFromSlot)
      invariant NoneLeft(m.trace, |old(m.trace)| - 1, p)
    {
      ghost var before := m.trace;
      pages := TakeIfWaiting(m, pages, p, |old(m.own)|, |old(m.trace)| - 1);
      NoneLeftStays(before, m.trace, |old(m.trace)| - 1, p);
    }
  }

  lemma HoldsNothing(m: Machine, h: Hand)
    requires m.Valid() && m.mine.hands == {}
    ensures Holds(m, [], h)
  {
  }

  method TakeIfWaiting(m: Machine, pages: seq<nat>, p: nat, ghost n: nat, ghost start: int) returns (more: seq<nat>)
    requires Holds(m, pages, Hand.Zeroing) && p < |m.s.pages| && JustTook(m.trace, m.own, n, pages, TakenFromSlot)
             && start < |m.trace|
    modifies m
    ensures m.Later() && Holds(m, more, Hand.Zeroing) && JustTook(m.trace, m.own, n, more, TakenFromSlot)
    ensures NotWaiting(m.trace, start, p)
  {
    hide Inv, Lawful, Recorded, Justified, Kept, Happened;
    ghost var trace, own := m.trace, m.own;
    Wait(m, pages, |pages|, Hand.Zeroing, Hand.Zeroing);
    more := pages;
    TookStays(trace, own, m.trace, m.own, n, pages, TakenFromSlot);
    if CanTakeZeroSlot(m.s, p) {
      assert p !in pages;
      Append(pages, p);
      Act(m, TakenFromSlot, p);
      more := pages + [p];
      TookMore(trace, own, m.trace, m.own, n, pages, p, TakenFromSlot);
    }
    NotWaitingNow(m, start, p);
  }

  method ClearAll(m: Machine, pages: seq<nat>)
    requires Holds(m, pages, Hand.Zeroing)
    modifies m
    ensures m.Later() && Holds(m, pages, Hand.Zeroed) && JustTook(m.trace, m.own, |old(m.own)|, pages, Cleared)
  {
    hide Inv, Lawful, Recorded, Justified, Kept;
    for i := 0 to |pages|
      invariant m.Later() && HoldsTwo(m, pages, i, Hand.Zeroed, Hand.Zeroing)
      invariant JustTook(m.trace, m.own, |old(m.own)|, pages[..i], Cleared)
    {
      ClearOne(m, pages, i, |old(m.own)|);
    }
    assert pages[..|pages|] == pages;
  }

  method ClearOne(m: Machine, pages: seq<nat>, i: nat, ghost n: nat)
    requires i < |pages| && HoldsTwo(m, pages, i, Hand.Zeroed, Hand.Zeroing)
             && JustTook(m.trace, m.own, n, pages[..i], Cleared)
    modifies m
    ensures m.Later() && HoldsTwo(m, pages, i + 1, Hand.Zeroed, Hand.Zeroing)
            && JustTook(m.trace, m.own, n, pages[..i + 1], Cleared)
  {
    hide Lawful, Recorded, Justified, Happened;
    ghost var trace, own := m.trace, m.own;
    Wait(m, pages, i, Hand.Zeroed, Hand.Zeroing);
    Act(m, Cleared, pages[i]);
    assert pages[..i + 1] == pages[..i] + [pages[i]];
    TookMore(trace, own, m.trace, m.own, n, pages[..i], pages[i], Cleared);
  }

  /** One turn of thread_populate_zero_lists: it takes every page that waits in a
      slot, clears each, and puts each on a zero list; it does nothing else. */
  method PopulateZeroLists(m: Machine) returns (ghost pages: seq<nat>)
    requires m.Valid() && m.mine.hands == {}
    modifies m
    ensures m.Later() && m.Valid() && m.mine.hands == {} && Distinct(pages) && |m.own| == |old(m.own)| + 3 * |pages|
    ensures NoneLeft(m.trace, |old(m.trace)| - 1, |m.s.pages|)
    ensures Took(m.trace, m.own, |old(m.own)|, pages, TakenFromSlot)
            && Took(m.trace, m.own, |old(m.own)| + |pages|, pages, Cleared)
    ensures Took(m.trace, m.own, |old(m.own)| + 2 * |pages|, pages, ZeroListed)
  {
    hide Inv, Lawful, Recorded, Justified, Kept;
    var taken := TakeSlots(m);
    pages := taken;
    ghost var own, trace := m.own, m.trace;
    ClearAndList(m, taken);
    TookStays(trace, own, m.trace, m.own, |old(m.own)|, pages, TakenFromSlot);
    NoneLeftStays(trace, m.trace, |old(m.trace)| - 1, |m.s.pages|);
  }

  method ClearAndList(m: Machine, pages: seq<nat>)
    requires Holds(m, pages, Hand.Zeroing)
    modifies m
    ensures m.Later() && m.Valid() && m.mine.hands == {} && |m.own| == |old(m.own)| + 2 * |pages|
    ensures Took(m.trace, m.own, |old(m.own)|, pages, Cleared)
            && Took(m.trace, m.own, |old(m.own)| + |pages|, pages, ZeroListed)
  {
    hide Inv, Lawful, Recorded, Justified, Kept;
    ClearAll(m, pages);
    ghost var trace, own := m.trace, m.own;
    assert pages[0..] == pages && pages[0..|pages|] == pages && pages[|pages|..] == [];
    GiveRun(m, pages, 0, |pages|, ZeroListed, Hand.Zeroed);
    TookStays(trace, own, m.trace, m.own, |old(m.own)|, pages, Cleared);
  }
}
