/** The threads of the source as programs over the shared state, with other
    threads at work between any two of their steps. */
module Machine {
  import opened PageState
  import opened Protocol
  import opened Invariant
  import opened Refinement
  import opened Interference

  /** What a thread owns after step a. */
  function Holding(me: Mine, a: Action): Mine {
    match a
    case Fault(b) =>
      (match b
       case DoClaimChange(v, _) => me.(faults := me.faults + {v})
       case DoFinishChange(v) => me.(faults := me.faults - {v})
       case DoReserve(p) => me.(hands := me.hands + {p})
       case DoReturn(p) => me.(hands := me.hands - {p})
       case DoClaimFirst(v, p, _) => me.(faults := me.faults + {v}, hands := me.hands - {p})
       case DoRescue(v, _, _) => me.(faults := me.faults + {v})
       case _ => me)
    case Connect(b) =>
      (match b
       case DoTakeRight(v) => me.(faults := me.faults + {v})
       case DoDropRight(v) => me.(faults := me.faults - {v})
       case DoCommitDisk(_, p, _) => me.(hands := me.hands - {p})
       case DoFinish(v) => me.(faults := me.faults - {v})
       case _ => me)
    case Refill(b) =>
      (match b
       case DoTakeOld(p) => me.(hands := me.hands + {p})
       case DoAddFree(p) => me.(hands := me.hands - {p})
       case DoAddZeroSlot(p) => me.(hands := me.hands - {p})
       case DoTakeZeroSlot(p) => me.(hands := me.hands + {p})
       case DoAddZero(p) => me.(hands := me.hands - {p})
       case _ => me)
    case _ => me
  }

  /** s' comes from s by one step of some thread. */
  ghost predicate Follows(s: State, s': State) {
    Typed(s) && exists a: Action :: Enabled(s, a) && s' == Apply(s, a)
  }

  /** Sound states that followed each other. */
  ghost predicate Lawful(trace: seq<State>) {
    && (forall i :: 0 <= i < |trace| ==> Sound(trace[i]))
    && (forall i, j :: 0 <= i < |trace| && j == i + 1 && j < |trace| ==> Follows(trace[i], trace[j]))
  }

  ghost predicate Extends<T(!new)>(log: seq<T>, longer: seq<T>) {
    |log| <= |longer| && forall i :: 0 <= i < |log| ==> longer[i] == log[i]
  }

  /** A step this thread took, from the state `trace[at]`. */
  datatype Step = Step(at: nat, action: Action)

  /** The kinds of list a page can be taken from. */
  datatype Queue = ZeroQueue | FreeQueue | StandbyQueue | ModifiedQueue

  predicate Queued(s: State, p: nat, q: Queue) {
    match q
    case ZeroQueue => p in s.lists.zero
    case FreeQueue => p in s.lists.free
    case StandbyQueue => p in s.lists.standby
    case ModifiedQueue => p in s.lists.modified
  }

  /** What can stand in a thread's way. */
  datatype Reason =
    | LockBusy(page: nat, from: Queue)   // the lock of a page on a list, held by somebody for a moment
    | CopyBusy(page: nat)            // the same for a page that a copy of a PTE names
    | PageHeld(page: nat)            // a pagelock that somebody holds for longer
    | OffList(page: nat)             // the page has left the modified list meanwhile
    | NotTransition(v: nat)          // the trimmer has not finished the PTE
    | PteRewritten(v: nat)           // the compare-exchange fails

  predicate Blocks(s: State, why: Reason) {
    match why
    case LockBusy(p, q) => p < |s.pages| && Queued(s, p, q)
    case CopyBusy(p) => p < |s.pages|
    case PageHeld(p) => p < |s.pages| && !s.pages[p].hand.Nobody?
    case OffList(p) => p !in s.lists.modified
    case NotTransition(v) => v < |s.virtuals| && !s.virtuals[v].pte.Transition?
    case PteRewritten(v) =>
      v < |s.virtuals| && s.virtuals[v].trim.Copied? && s.virtuals[v].pte != s.virtuals[v].trim.copy
  }

  /** At that time this thread could not go on. */
  datatype Wait = Wait(at: nat, why: Reason)

  /** What a thread that gives up has been waiting for. */
  datatype Obstacle =
    | BusyStandby                        // the lock of a page on the standby list
    | HeldPages(pages: set<nat>)
    | PendingPtes(vs: set<nat>)
    | RewrittenPtes(vs: set<nat>)

  predicate IsFor(why: Reason, o: Obstacle) {
    match o
    case BusyStandby => why.LockBusy? && why.from.StandbyQueue?
    case HeldPages(pages) => why.PageHeld? && why.page in pages
    case PendingPtes(vs) => why.NotTransition? && why.v in vs
    case RewrittenPtes(vs) => why.PteRewritten? && why.v in vs
  }

  /** From the b-th on all waits are of one kind. */
  ghost predicate OnlyFrom(waits: seq<Wait>, b: nat, o: Obstacle) {
    b <= |waits| && forall k :: b <= k < |waits| ==> IsFor(waits[k].why, o)
  }

  /** Since the w-th wait the thread has waited for one thing in the end, as often
      as it has patience for. */
  ghost predicate Stuck(waits: seq<Wait>, w: nat, patience: nat, o: Obstacle) {
    exists b: nat :: w <= b && OnlyFrom(waits, b, o) && |waits| - b >= patience
  }

  lemma StuckSince(waits: seq<Wait>, b: nat, patience: nat, o: Obstacle)
    requires OnlyFrom(waits, b, o) && |waits| - b >= patience
    ensures Stuck(waits, b, patience, o)
  {
  }

  /** Some of the PTEs or pages are some of more. */
  predicate Covers(wide: Obstacle, narrow: Obstacle) {
    match narrow
    case BusyStandby => wide == narrow
    case HeldPages(pages) => wide.HeldPages? && pages <= wide.pages
    case PendingPtes(vs) => wide.PendingPtes? && vs <= wide.vs
    case RewrittenPtes(vs) => wide.RewrittenPtes? && vs <= wide.vs
  }

  lemma StuckWider(waits: seq<Wait>, w: nat, w': nat, patience: nat, narrow: Obstacle, wide: Obstacle)
    requires Stuck(waits, w, patience, narrow) && w' <= w && Covers(wide, narrow)
    ensures Stuck(waits, w', patience, wide)
  {
    var b: nat :| w <= b && OnlyFrom(waits, b, narrow) && |waits| - b >= patience;
    assert OnlyFrom(waits, b, wide);
  }

  lemma OnlyFromBoth(waits: seq<Wait>, longer: seq<Wait>, b: nat, o: Obstacle)
    requires OnlyFrom(waits, b, o) && Extends(waits, longer) && OnlyFrom(longer, |waits|, o)
    ensures OnlyFrom(longer, b, o)
  {
  }

  lemma OneMoreWait(waits: seq<Wait>, b: nat, wait: Wait, o: Obstacle)
    requires OnlyFrom(waits, b, o) && IsFor(wait.why, o)
    ensures OnlyFrom(waits + [wait], b, o)
  {
  }

  /** The thread's steps are in the trace, in order. */
  ghost predicate Recorded(trace: seq<State>, own: seq<Step>) {
    && (forall k :: 0 <= k < |own| ==>
          && own[k].at + 1 < |trace| && Typed(trace[own[k].at]) && Enabled(trace[own[k].at], own[k].action)
          && trace[own[k].at + 1] == Apply(trace[own[k].at], own[k].action))
    && (forall k, l :: 0 <= k < l < |own| ==> own[k].at < own[l].at)
  }

  ghost predicate Justified(trace: seq<State>, waits: seq<Wait>) {
    forall k :: 0 <= k < |waits| ==> waits[k].at < |trace| && Blocks(trace[waits[k].at], waits[k].why)
  }

  lemma LawfulStep(trace: seq<State>, a: Action)
    requires Lawful(trace) && trace != []
    requires Typed(trace[|trace| - 1]) && Enabled(trace[|trace| - 1], a) && Sound(Apply(trace[|trace| - 1], a))
    ensures Lawful(trace + [Apply(trace[|trace| - 1], a)])
  {
    var s := trace[|trace| - 1];
    assert Follows(s, Apply(s, a));
  }

  lemma RecordedStep(trace: seq<State>, own: seq<Step>, a: Action)
    requires Recorded(trace, own) && trace != []
    requires Typed(trace[|trace| - 1]) && Enabled(trace[|trace| - 1], a)
    ensures Recorded(trace + [Apply(trace[|trace| - 1], a)], own + [Step(|trace| - 1, a)])
  {
  }

  lemma JustifiedStays(trace: seq<State>, longer: seq<State>, waits: seq<Wait>)
    requires Justified(trace, waits) && Extends(trace, longer)
    ensures Justified(longer, waits)
  {
  }

  lemma RecordedStays(trace: seq<State>, longer: seq<State>, own: seq<Step>)
    requires Recorded(trace, own) && Extends(trace, longer)
    ensures Recorded(longer, own)
  {
  }

  /** The number of cache colours. */
  type Colours = n: nat | n > 0 witness 1

  class Machine {
    const colours: Colours
    var s: State
    ghost var mem: Memory            // the flat memory the user program should see
    ghost var trace: seq<State>      // every state there was, up to the current one
    var mine: Mine                   // what belongs to the thread at hand
    ghost var own: seq<Step>         // the steps it took
    ghost var waits: seq<Wait>       // the times it had to wait

    ghost predicate Valid()
      reads this
    {
      && Inv(s, mem) && Lawful(trace) && trace != [] && trace[|trace| - 1] == s
      && Recorded(trace, own) && Justified(trace, waits)
    }

    lemma ValidIsSound()
      requires Valid()
      ensures Sound(s)
    {
    }

    /** The run went on; what was added to the records happened since then. */
    twostate predicate Later()
      reads this
    {
      && SameSize(old(s), s) && Extends(old(trace), trace) && Extends(old(own), own) && Extends(old(waits), waits)
      && (forall k :: |old(own)| <= k < |own| ==> own[k].at >= |old(trace)| - 1)
      && (forall k :: |old(waits)| <= k < |waits| ==> waits[k].at >= |old(trace)| - 1)
    }

    /** One step of this thread. */
    method Do(a: Action)
      requires Valid() && Enabled(s, a)
      modifies this
      ensures Valid() && s == Apply(old(s), a) && mine == Holding(old(mine), a)
      ensures mem == FlatStep(old(mem), a) && trace == old(trace) + [s]
      ensures own == old(own) + [Step(|old(trace)| - 1, a)] && waits == old(waits)
    {
      hide Lawful, Recorded, Justified;
      StepKeeps(s, mem, a);
      LawfulStep(trace, a);
      RecordedStep(trace, own, a);
      JustifiedStays(trace, trace + [Apply(s, a)], waits);
      own := own + [Step(|trace| - 1, a)];
      s, mine := Apply(s, a), Holding(mine, a);
      mem, trace := FlatStep(mem, a), trace + [s];
    }

    /** Any number of steps of any other threads. */
    method Others()
      requires Valid()
      modifies this
      ensures Valid() && mine == old(mine) && Kept(old(s), s, mine) && Extends(old(trace), trace)
      ensures own == old(own) && waits == old(waits)
    {
      var n: nat := *;
      while n > 0
        invariant Valid() && mine == old(mine) && Kept(old(s), s, mine) && Extends(old(trace), trace)
        invariant own == old(own) && waits == old(waits)
      {
        ghost var before := s;
        Other();
        KeptTwice(old(s), before, s, mine);
        n := n - 1;
      }
    }

    /** Notes what stands in the way. */
    method Note(why: Reason)
      requires Valid() && Blocks(s, why)
      modifies `waits
      ensures Valid() && waits == old(waits) + [Wait(|trace| - 1, why)]
    {
      waits := waits + [Wait(|trace| - 1, why)];
    }

    /** Others go on while this thread cannot. */
    method Await(why: Reason)
      requires Valid() && Blocks(s, why)
      modifies this
      ensures Valid() && mine == old(mine) && Kept(old(s), s, mine) && Extends(old(trace), trace)
      ensures own == old(own) && waits == old(waits) + [Wait(|old(trace)| - 1, why)]
    {
      hide Inv, Lawful, Recorded, Justified, Kept;
      Note(why);
      Others();
    }

    /** Fails on a page that some thread has in hand, and may fail on any other.
        `why` is the reason that is noted then. */
    method TryLock(p: nat, why: Reason) returns (ok: bool)
      requires Valid() && p < |s.pages| && Blocks(s, why) && (why == CopyBusy(p) || (why.LockBusy? && why.page == p))
      modifies `waits
      ensures Valid() && (ok ==> s.pages[p].hand.Nobody?)
      ensures waits == if ok then old(waits) else old(waits) + [Wait(|trace| - 1, why)]
    {
      ok := *;
      if !s.pages[p].hand.Nobody? { ok := false; }
      if !ok { Note(why); }
    }

    /** EnterCriticalSection on the lock of the PTEs in vs.  Which PTEs a lock
        covers is for module ReadRights to say. */
    method EnterPteLock(vs: set<nat>)
      requires Valid() && mine.locked == {}
      modifies this
      ensures Valid() && mine == old(mine).(locked := vs) && Kept(old(s), s, old(mine)) && Extends(old(trace), trace)
      ensures own == old(own) && waits == old(waits)
    {
      Others();
      mine := mine.(locked := vs);
    }

    method LeavePteLock()
      requires Valid()
      modifies `mine
      ensures Valid() && mine == old(mine).(locked := {})
    {
      mine := mine.(locked := {});
    }

    method Other()
      requires Valid()
      modifies this
      ensures Valid() && mine == old(mine) && Kept(old(s), s, mine) && Extends(old(trace), trace)
      ensures own == old(own) && waits == old(waits)
    {
      hide Lawful, Recorded, Justified;
      var a: Action := *;
      if Enabled(s, a) && Foreign(a, mine) {
        ForeignStepKeeps(s, a, mine);
        StepKeeps(s, mem, a);
        LawfulStep(trace, a);
        RecordedStays(trace, trace + [Apply(s, a)], own);
        JustifiedStays(trace, trace + [Apply(s, a)], waits);
        mem := FlatStep(mem, a);
        s := Apply(s, a);
        trace := trace + [s];
      }
    }
  }
}
