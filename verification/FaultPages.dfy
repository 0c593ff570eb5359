/** How a faulting thread gets pages, and gives back those it does not need. */
module FaultPages {
  import opened PageState
  import opened Protocol
  import opened Invariant
  import opened Interference
  import opened Machine
  import opened FaultBatches

  /** The thread holds the pages, popped from their lists. */
  ghost predicate HoldsPopped(m: Machine, pages: seq<nat>)
    reads m
  {
    && Distinct(pages) && m.mine.hands == Elements(pages)
    && (forall k :: 0 <= k < |pages| ==> pages[k] < |m.s.pages| && m.s.pages[pages[k]].hand.Popped?)
  }

  // ----- finding pages --------------------------------------------------------------

  lemma ReserveAdds(m: Machine, p: nat, pages: seq<nat>)
    requires m.Valid() && CanReserve(m.s, p)
    requires forall k :: 0 <= k < |pages| ==> pages[k] < |m.s.pages| && m.s.pages[pages[k]].hand.Popped?
    ensures Typed(m.s) && p !in pages && Kept(m.s, Reserve(m.s, p), Only(m.mine.faults))
            && SameSize(m.s, Reserve(m.s, p))
    ensures forall k :: 0 <= k < |pages| ==> Reserve(m.s, p).pages[pages[k]].hand.Popped?
    ensures Reserve(m.s, p).pages[p].hand.Popped?
  {
  }

  /** What stays as it is while a thread collects pages. */
  twostate predicate Gathering(m: Machine, pages: seq<nat>)
    reads m
  {
    && m.Valid() && m.Later() && m.mine == old(m.mine).(hands := Elements(pages)) && HoldsPopped(m, pages)
    && Kept(old(m.s), m.s, Only(m.mine.faults))
  }

  method Reserved(m: Machine, pages: seq<nat>, p: nat) returns (more: seq<nat>)
    requires m.Valid() && HoldsPopped(m, pages) && CanReserve(m.s, p)
    modifies m
    ensures Gathering(m, more) && more == pages + [p] && m.waits == old(m.waits)
  {
    hide Inv, Lawful, Recorded, Justified, Kept;
    ReserveAdds(m, p, pages);
    Append(pages, p);
    m.Do(Fault(DoReserve(p)));
    more := pages + [p];
  }

  // ----- the zero lists and the free lists ----------------------------------------------

  function ListOf(s: State, zero: bool): set<nat> {
    if zero then s.lists.zero else s.lists.free
  }

  function OfColour(pages: set<nat>, c: nat, colours: Colours): set<nat> {
    set p | p in pages && p % colours == c
  }

  function QueueOf(zero: bool): Queue {
    if zero then ZeroQueue else FreeQueue
  }

  /** There was nothing to be had of this colour: at some time from n on its list
      was empty, or a page on it could not be locked. */
  ghost predicate Barren(trace: seq<State>, waits: seq<Wait>, n: int, w: nat, zero: bool, c: nat, colours: Colours) {
    || (exists i :: 0 <= i && n <= i < |trace| && NoneOfColour(trace[i], zero, c, colours))
    || (exists k :: w <= k < |waits| && waits[k].why.LockBusy? && waits[k].why.page % colours == c
                    && waits[k].why.from == if zero then ZeroQueue else FreeQueue)
  }

  predicate NoneOfColour(s: State, zero: bool, c: nat, colours: Colours) {
    forall p :: p in (if zero then s.lists.zero else s.lists.free) ==> p % colours != c
  }

  lemma BarrenStays(trace: seq<State>, waits: seq<Wait>, longer: seq<State>, more: seq<Wait>, n: int, w: nat,
                    zero: bool,
                    c: nat, colours: Colours)
    requires Extends(trace, longer) && Extends(waits, more) && Barren(trace, waits, n, w, zero, c, colours)
    ensures Barren(longer, more, n, w, zero, c, colours)
  {
  }

  /** The colours tried without success, one after the other. */
  ghost predicate ColoursTried(trace: seq<State>, waits: seq<Wait>, n: int, w: nat, zero: bool, tried: seq<nat>,
                               first: nat, colours: Colours) {
    forall j :: 0 <= j < |tried| ==>
        tried[j] == (first + j) % colours && Barren(trace, waits, n, w, zero, tried[j], colours)
  }

  lemma TriedStays(trace: seq<State>, waits: seq<Wait>, longer: seq<State>, more: seq<Wait>, n: int, w: nat, zero: bool,
                   tried: seq<nat>, first: nat, colours: Colours)
    requires Extends(trace, longer) && Extends(waits, more)
    requires ColoursTried(trace, waits, n, w, zero, tried, first, colours)
    ensures ColoursTried(longer, more, n, w, zero, tried, first, colours)
  {
    forall j | 0 <= j < |tried| ensures Barren(longer, more, n, w, zero, tried[j], colours) {
      BarrenStays(trace, waits, longer, more, n, w, zero, tried[j], colours);
    }
  }

  ghost predicate AllBarren(trace: seq<State>, waits: seq<Wait>, n: int, w: nat, zero: bool, colours: Colours) {
    forall c: nat :: c < colours ==> Barren(trace, waits, n, w, zero, c, colours)
  }

  lemma AllBarrenStays(trace: seq<State>, waits: seq<Wait>, longer: seq<State>, more: seq<Wait>, n: int, w: nat,
                       zero: bool, colours: Colours)
    requires Extends(trace, longer) && Extends(waits, more) && AllBarren(trace, waits, n, w, zero, colours)
    ensures AllBarren(longer, more, n, w, zero, colours)
  {
    forall c: nat | c < colours ensures Barren(longer, more, n, w, zero, c, colours) {
      BarrenStays(trace, waits, longer, more, n, w, zero, c, colours);
    }
  }

  /** How many colours c comes after the first. */
  lemma RoundTo(first: nat, c: nat, colours: Colours) returns (j: nat)
    requires first < colours && c < colours
    ensures j < colours && (first + j) % colours == c
  {
    j := if c >= first then c - first else c + colours - first;
  }

  /** As many in a row as there are colours are all of them. */
  lemma AllTried(trace: seq<State>, waits: seq<Wait>, n: int, w: nat, zero: bool, tried: seq<nat>, first: nat,
                 colours: Colours)
    requires ColoursTried(trace, waits, n, w, zero, tried, first, colours) && |tried| == colours && first < colours
    ensures AllBarren(trace, waits, n, w, zero, colours)
  {
    hide Barren;
    forall c: nat | c < colours ensures Barren(trace, waits, n, w, zero, c, colours) {
      var j := RoundTo(first, c, colours);
      assert tried[j] == c;
    }
  }

  /** One attempt at the list of one colour. */
  method TryColour(m: Machine, pages: seq<nat>, zero: bool, c: nat, ghost n: int, ghost w: nat)
    returns (more: seq<nat>, ok: bool)
    requires m.Valid() && HoldsPopped(m, pages) && n < |m.trace| && w <= |m.waits|
    modifies m
    ensures Gathering(m, more) && |more| == |pages| + if ok then 1 else 0
    ensures !ok ==> Barren(m.trace, m.waits, n, w, zero, c, m.colours)
  {
    hide Lawful, Recorded, Justified;
    m.Others();
    more, ok := pages, false;
    if OfColour(ListOf(m.s, zero), c, m.colours) == {} {
      BarrenNow(m, n, w, zero, c);
    } else {
      ghost var before := m.s;
      more, ok := TakeColour(m, pages, zero, c, n, w);
      KeptTwice(old(m.s), before, m.s, Only(m.mine.faults));
    }
  }

  lemma BarrenNow(m: Machine, n: int, w: nat, zero: bool, c: nat)
    requires m.Valid() && n < |m.trace| && OfColour(ListOf(m.s, zero), c, m.colours) == {}
    ensures Barren(m.trace, m.waits, n, w, zero, c, m.colours)
  {
    hide Inv, Lawful, Recorded, Justified;
    var s := m.trace[|m.trace| - 1];
    forall p | p in (if zero then s.lists.zero else s.lists.free) ensures p % m.colours != c {
      assert p !in OfColour(ListOf(s, zero), c, m.colours);
    }
    assert NoneOfColour(s, zero, c, m.colours);
  }

  lemma ListedCanBeReserved(m: Machine, p: nat, zero: bool)
    requires m.Valid() && p in ListOf(m.s, zero)
    ensures CanReserve(m.s, p)
  {
    assert PageOk(m.s, p);
  }

  method TakeColour(m: Machine, pages: seq<nat>, zero: bool, c: nat, ghost n: int, ghost w: nat)
    returns (more: seq<nat>, ok: bool)
    requires m.Valid() && HoldsPopped(m, pages) && OfColour(ListOf(m.s, zero), c, m.colours) != {} && w <= |m.waits|
    modifies m
    ensures Gathering(m, more) && |more| == |pages| + if ok then 1 else 0
    ensures !ok ==> Barren(m.trace, m.waits, n, w, zero, c, m.colours)
  {
    hide Inv, Lawful, Recorded, Justified;
    more := pages;
    var p :| p in OfColour(ListOf(m.s, zero), c, m.colours);
    ListedCanBeReserved(m, p, zero);
    ghost var waited := |m.waits|;
    ok := m.TryLock(p, LockBusy(p, QueueOf(zero)));
    if ok {
      more := Reserved(m, pages, p);
    } else {
      assert m.waits[waited].why == LockBusy(p, QueueOf(zero));
    }
  }

  /** allocate_batch_zeroed_frames and allocate_batch_free_frames: goes on until
      it has enough pages, or has failed with every colour in a row. */
  method FromColours(m: Machine, pages: seq<nat>, wanted: nat, zero: bool, start: nat, ghost n: int, ghost w: nat)
    returns (more: seq<nat>)
    requires m.Valid() && HoldsPopped(m, pages) && |pages| <= wanted && n < |m.trace| && w <= |m.waits|
    modifies m
    ensures Gathering(m, more) && |pages| <= |more| <= wanted
    ensures |more| == wanted || AllBarren(m.trace, m.waits, n, w, zero, m.colours)
  {
    hide Inv, Lawful, Recorded, Justified, Barren;
    more := pages;
    KeptSame(m.s, Only(m.mine.faults));
    var first: nat, failures: nat := start % m.colours, 0;
    ghost var tried: seq<nat> := [];
    while failures < m.colours && |more| < wanted
      invariant Gathering(m, more) && |pages| <= |more| <= wanted && first < m.colours
      invariant |tried| == failures <= m.colours && ColoursTried(m.trace, m.waits, n, w, zero, tried, first, m.colours)
      decreases wanted - |more|, m.colours - failures
    {
      ghost var before, trace, waits := m.s, m.trace, m.waits;
      var c, ok := (first + failures) % m.colours, false;
      more, ok := TryColour(m, more, zero, c, n, w);
      KeptTwice(old(m.s), before, m.s, Only(m.mine.faults));
      if ok {
        first, failures, tried := c, 0, [];
      } else {
        TriedStays(trace, waits, m.trace, m.waits, n, w, zero, tried, first, m.colours);
        failures, tried := failures + 1, tried + [c];
      }
    }
    if |more| < wanted { AllTried(m.trace, m.waits, n, w, zero, tried, first, m.colours); }
  }

  lemma KeptSame(s: State, me: Mine)
    ensures Kept(s, s, me)
  {
  }

  // ----- the standby list ---------------------------------------------------------------

  /** A page on the standby list can be popped. */
  lemma StandbyCanBeReserved(s: State, p: nat)
    requires Sound(s) && p in s.lists.standby
    ensures CanReserve(s, p) && CanTakeOld(s, p)
  {
    assert PageOk(s, p);
  }

  /** One attempt at the standby list. */
  method TryStandby(m: Machine, pages: seq<nat>) returns (more: seq<nat>, empty: bool)
    requires m.Valid() && HoldsPopped(m, pages)
    modifies m
    ensures Gathering(m, more) && |pages| <= |more| <= |pages| + 1
    ensures empty ==> m.s.lists.standby == {} && more == pages
    ensures |m.waits| == |old(m.waits)| + if |more| > |pages| || empty then 0 else 1
    ensures OnlyFrom(m.waits, |old(m.waits)|, BusyStandby)
  {
    hide Inv, Lawful, Recorded, Justified;
    m.Others();
    more, empty := pages, m.s.lists.standby == {};
    if !empty {
      ghost var before := m.s;
      more := TakeStandby(m, pages);
      KeptTwice(old(m.s), before, m.s, Only(m.mine.faults));
    }
  }

  method TakeStandby(m: Machine, pages: seq<nat>) returns (more: seq<nat>)
    requires m.Valid() && HoldsPopped(m, pages) && m.s.lists.standby != {}
    modifies m
    ensures Gathering(m, more) && |pages| <= |more| <= |pages| + 1
    ensures |m.waits| == |old(m.waits)| + if |more| > |pages| then 0 else 1
    ensures OnlyFrom(m.waits, |old(m.waits)|, BusyStandby)
  {
    hide Lawful, Recorded, Justified;
    more := pages;
    var p :| p in m.s.lists.standby;
    StandbyCanBeReserved(m.s, p);
    var ok := m.TryLock(p, LockBusy(p, StandbyQueue));
    if ok {
      more := Reserved(m, pages, p);
    }
  }

  /** At some time from n on the standby list was empty. */
  ghost predicate Dry(trace: seq<State>, n: int) {
    exists i :: 0 <= i && n <= i < |trace| && trace[i].lists.standby == {}
  }

  lemma DryNow(m: Machine, n: int)
    requires m.Valid() && n < |m.trace| && m.s.lists.standby == {}
    ensures Dry(m.trace, n)
  {
    hide Inv, Lawful, Recorded, Justified;
    assert m.trace[|m.trace| - 1].lists.standby == {};
  }

  /** There was nothing to be had anywhere: from n on each zero list and each free
      list was empty, or its page could not be locked, and the standby list was
      empty, at some time. */
  ghost predicate NoPages(m: Machine, n: int, w: nat)
    reads m
  {
    && AllBarren(m.trace, m.waits, n, w, true, m.colours) && AllBarren(m.trace, m.waits, n, w, false, m.colours)
    && Dry(m.trace, n)
  }

  /** find_batch_available_pages: first the zero lists and the free lists, in
      either order, then the standby list.  The thread looks first at the lists
      of the colours `z` and `f`.  The source spins on standby pages it cannot
      lock; here `patience` bounds the failed attempts. */
  method FindPages(m: Machine, wanted: nat, zeroFirst: bool, z: nat, f: nat, patience: nat, ghost n: int, ghost w: nat)
    returns (pages: seq<nat>, finished: bool)
    requires m.Valid() && m.mine.hands == {} && n < |m.trace| && w <= |m.waits|
    modifies m
    ensures Gathering(m, pages) && |pages| <= wanted
    ensures if finished then |pages| == wanted || NoPages(m, n, w)
            else Stuck(m.waits, |old(m.waits)|, patience, BusyStandby)
  {
    hide Inv, Lawful, Recorded, Justified, Kept, AllBarren;
    pages := FromBoth(m, wanted, zeroFirst, if zeroFirst then z else f, if zeroFirst then f else z, n, w);
    ghost var before, trace, waits := m.s, m.trace, m.waits;
    var more, empty := FromStandby(m, pages, wanted, patience);
    KeptTwice(old(m.s), before, m.s, Only(m.mine.faults));
    if |pages| < wanted {
      AllBarrenStays(trace, waits, m.trace, m.waits, n, w, true, m.colours);
      AllBarrenStays(trace, waits, m.trace, m.waits, n, w, false, m.colours);
    }
    if empty { DryNow(m, n); }
    if |more| < wanted && !empty {
      StuckWider(m.waits, |waits|, |old(m.waits)|, patience, BusyStandby, BusyStandby);
    }
    finished := |more| == wanted || empty;
    pages := more;
  }

  method FromBoth(m: Machine, wanted: nat, zeroFirst: bool, one: nat, two: nat, ghost n: int, ghost w: nat)
    returns (pages: seq<nat>)
    requires m.Valid() && m.mine.hands == {} && n < |m.trace| && w <= |m.waits|
    modifies m
    ensures Gathering(m, pages) && |pages| <= wanted
    ensures |pages| < wanted ==>
              AllBarren(m.trace, m.waits, n, w, true, m.colours) && AllBarren(m.trace, m.waits, n, w, false, m.colours)
  {
    hide Inv, Lawful, Recorded, Justified, Kept, AllBarren;
    pages := FromColours(m, [], wanted, zeroFirst, one, n, w);
    ghost var before, held, trace, waits := m.s, |pages|, m.trace, m.waits;
    pages := FromColours(m, pages, wanted, !zeroFirst, two, n, w);
    KeptTwice(old(m.s), before, m.s, Only(m.mine.faults));
    if |pages| < wanted {
      AllBarrenStays(trace, waits, m.trace, m.waits, n, w, zeroFirst, m.colours);
    }
  }

  method FromStandby(m: Machine, pages: seq<nat>, wanted: nat, patience: nat) returns (more: seq<nat>, empty: bool)
    requires m.Valid() && HoldsPopped(m, pages) && |pages| <= wanted
    modifies m
    ensures Gathering(m, more) && |pages| <= |more| <= wanted
    ensures if empty then m.s.lists.standby == {}
            else |more| == wanted || Stuck(m.waits, |old(m.waits)|, patience, BusyStandby)
  {
    hide Inv, Lawful, Recorded, Justified, Kept;
    KeptSame(m.s, Only(m.mine.faults));
    more, empty := pages, false;
    var left := patience;
    while |more| < wanted && left > 0 && !empty
      invariant Gathering(m, more) && |pages| <= |more| <= wanted && 0 <= left <= patience
      invariant empty ==> m.s.lists.standby == {}
      invariant |m.waits| == |old(m.waits)| + (patience - left)
      invariant OnlyFrom(m.waits, |old(m.waits)|, BusyStandby)
      decreases left, wanted - |more|, !empty
    {
      ghost var before, waits := m.s, m.waits;
      var held := |more|;
      more, empty := TryStandby(m, more);
      KeptTwice(old(m.s), before, m.s, Only(m.mine.faults));
      OnlyFromBoth(waits, m.waits, |old(m.waits)|, BusyStandby);
      if |more| == held && !empty { left := left - 1; }
    }
    if left == 0 { StuckSince(m.waits, |old(m.waits)|, patience, BusyStandby); }
  }

  // ----- giving pages back -------------------------------------------------------------

  /** Under the PTE lock: nobody has touched these PTEs. */
  ghost predicate LockedUnused(m: Machine, vs: seq<nat>, from: int)
    reads m
  {
    forall k :: 0 <= from <= k < |vs| ==>
        vs[k] < |m.s.virtuals| && vs[k] in m.mine.locked && m.s.virtuals[vs[k]].pte.Unused?
  }

  /** release_batch_unneeded_pages, for all but the first n pages. */
  method ReturnRest(m: Machine, pages: seq<nat>, n: nat, ghost vs: seq<nat>)
    requires m.Valid() && HoldsPopped(m, pages) && n <= |pages| && LockedUnused(m, vs, 0)
    modifies m
    ensures m.Valid() && m.Later() && m.mine == old(m.mine).(hands := Elements(pages[..n]))
            && HoldsPopped(m, pages[..n])
    ensures LockedUnused(m, vs, 0)
  {
    hide Inv, Lawful, Recorded, Justified, Kept;
    var i := |pages|;
    assert pages[..i] == pages;
    while i > n
      invariant n <= i <= |pages| && m.Valid() && m.Later() && m.mine == old(m.mine).(hands := Elements(pages[..i]))
      invariant HoldsPopped(m, pages[..i]) && LockedUnused(m, vs, 0)
    {
      i := i - 1;
      assert pages[..i + 1] == pages[..i] + [pages[i]];
      ReturnLast(m, pages[..i], pages[i], vs);
    }
  }

  method ReturnLast(m: Machine, pages: seq<nat>, last: nat, ghost vs: seq<nat>)
    requires m.Valid() && HoldsPopped(m, pages + [last]) && LockedUnused(m, vs, 0)
    modifies m
    ensures m.Valid() && m.Later() && m.mine == old(m.mine).(hands := Elements(pages)) && HoldsPopped(m, pages)
    ensures LockedUnused(m, vs, 0)
  {
    assert forall k :: 0 <= k < |pages| ==> pages[k] == (pages + [last])[k];
    assert (pages + [last])[|pages|] == last && last !in pages;
    Append(pages, last);
    ReturnOne(m, pages, last, vs);
  }

  method ReturnOne(m: Machine, ghost pages: seq<nat>, last: nat, ghost vs: seq<nat>)
    requires m.Valid() && HoldsPopped(m, pages + [last]) && LockedUnused(m, vs, 0) && last < |m.s.pages|
             && m.s.pages[last].hand.Popped?
    requires last !in pages && Distinct(pages) && last in m.mine.hands
    modifies m
    ensures m.Valid() && m.Later() && m.mine == old(m.mine).(hands := old(m.mine.hands) - {last})
    ensures LockedUnused(m, vs, 0)
    ensures forall k :: 0 <= k < |pages| ==> pages[k] < |m.s.pages| && m.s.pages[pages[k]].hand.Popped?
  {
    hide Inv, Lawful, Recorded, Justified;
    assert forall k :: 0 <= k < |pages| ==> pages[k] == (pages + [last])[k];
    m.Others();
    m.Do(Fault(DoReturn(last)));
  }
}
