/** A faulting thread: pagefault and its four handlers.  A fault is resolved for
    the accessed PTE and for PTEs ahead of it that the thread speculates on;
    which ones is left open. */
module FaultThread {
  import opened PageState
  import opened Protocol
  import opened Invariant
  import opened Interference
  import opened Machine
  import opened FaultBatches
  import opened FaultPages

  datatype Result =
    | SuccessfulFault
    | NoAvailablePages
    | RescueFail
    | DiskRace
    | UnaccessedRace
    | ValidPteRace
    | StillWaiting          // where the source spins on: this run of the thread ends here

  /** The accessed PTE and those ahead of it that the thread speculates on. */
  ghost predicate Window(s: State, v: nat, ahead: seq<nat>) {
    Distinct([v] + ahead) && v < |s.virtuals| && forall k :: 0 <= k < |ahead| ==> ahead[k] < |s.virtuals|
  }

  // ----- how a fault ends ---------------------------------------------------------------

  predicate Raced(result: Result) {
    result.ValidPteRace? || result.UnaccessedRace? || result.RescueFail? || result.DiskRace?
  }

  /** A fault on u that read its PTE as `local` comes too late in this state: the
      PTE is another one or somebody else's, or the page has a holder, another
      PTE, or is not at rest. */
  predicate TooLate(s: State, u: nat, local: Pte) {
    match local
    case Valid(_, _, _, changing, trimming) => changing || trimming || !(u < |s.virtuals| && s.virtuals[u].pte == local)
    case Unused => !(u < |s.virtuals| && s.virtuals[u].pte.Unused?)
    case Transition(frame) =>
      frame < |s.pages| && u < |s.virtuals| ==>
        (var g := s.pages[frame];
         !g.hand.Nobody? || g.pte != Some(u) || (!g.status.Standby? && !g.status.Modified?))
    case Disk(_, _) => u < |s.virtuals| ==> !s.virtuals[u].pte.Disk? || s.virtuals[u].pte.reading
  }

  /** At some time from n on. */
  ghost predicate CameTooLate(trace: seq<State>, n: int, u: nat, local: Pte) {
    exists i :: 0 <= i && n <= i < |trace| && TooLate(trace[i], u, local)
  }

  lemma TooLateNow(m: Machine, n: int, u: nat, local: Pte)
    requires m.Valid() && n < |m.trace| && TooLate(m.s, u, local)
    ensures CameTooLate(m.trace, n, u, local)
  {
    hide Inv, Lawful, Recorded, Justified;
    assert TooLate(m.trace[|m.trace| - 1], u, local);
  }

  /** The thread failed to lock the page, at its k-th wait or later. */
  ghost predicate FoundBusy(waits: seq<Wait>, k: nat, page: nat) {
    exists l :: k <= l < |waits| && waits[l].why == CopyBusy(page)
  }

  /** A PTE ahead was passed over by a rescuer: when the thread looked it was
      not in transition format, or its page was not to be had afterwards. */
  ghost predicate PassedOver(m: Machine, n: int, k: nat, u: nat)
    reads m
  {
    exists i :: 0 <= i && n <= i < |m.trace| && u < |m.trace[i].virtuals| &&
      var t := m.trace[i].virtuals[u].pte;
      !t.Transition? || CameTooLate(m.trace, i, u, t) || FoundBusy(m.waits, k, t.frame)
  }

  /** How a fault for `window`, the accessed PTE and those ahead, ends, where
      the trace had the length n + 1 and there had been w waits at the start.
      - Success means that each PTE that was connected could be accessed at the
        time it was, the accessed one with the access that faulted, and no PTE
        with more than that; each page keeps its slot unless it is written to.
      - A PTE that was not connected was not in the state the thread needed it
        in, or could not be locked, or there were no more pages, at some time
        from the start on.
      - The thread still waits only after `patience` failed attempts, in the end
        all at one thing that it needs.
      - Otherwise nothing stays claimed. */
  ghost predicate Ended(m: Machine, n: int, w: nat, window: seq<nat>, local: Pte, write: bool, patience: nat,
                        result: Result, connected: seq<nat>, times: seq<nat>)
    requires window != []
    reads m
  {
    && (if result.StillWaiting? then StuckInFault(m.waits, w, patience, window, local) else Idle(m.mine))
    && (result.SuccessfulFault? <==> connected != [])
    && Connected(m, n, window, local, write, connected, times)
    && (Raced(result) ==> CameTooLate(m.trace, n, window[0], local))
    && (result.NoAvailablePages? ==> NoPages(m, n, w))
    && (result.SuccessfulFault? ==> forall u :: u in window && u !in connected ==> Skipped(m, n, w, u, local))
  }

  /** For what a fault can wait: a page on standby, or the page of the PTE, or the
      end of the trimmer's work on a PTE. */
  ghost predicate StuckInFault(waits: seq<Wait>, w: nat, patience: nat, window: seq<nat>, local: Pte) {
    match local
    case Valid(_, _, _, _, _) => false
    case Transition(frame) =>
      || Stuck(waits, w, patience, HeldPages({frame}))
      || Stuck(waits, w, patience, PendingPtes(Elements(window)))
    case _ => Stuck(waits, w, patience, BusyStandby)
  }

  ghost predicate Connected(m: Machine, n: int, window: seq<nat>, local: Pte, write: bool, connected: seq<nat>,
                            times: seq<nat>)
    requires window != []
    reads m
  {
    && |times| == |connected|
    && (forall k :: 0 <= k < |times| ==>
          && connected[k] in window && 0 < times[k] && n < times[k] < |m.trace|
          && Resolved(m.trace[times[k] - 1], m.trace[times[k]], connected[k], local,
                      write && if local.Unused? then k == 0 else connected[k] == window[0]))
    && (forall k :: 0 < k < |connected| ==> connected[k] != window[0])
  }

  /** What the step from s to s' makes of a PTE that was read as `local`. */
  predicate Resolved(s: State, s': State, u: nat, local: Pte, write: bool) {
    match local
    case Valid(_, prot, _, _, _) => Changes(s', u, prot, write)
    case Unused => Connects(s, s', u, write, FirstTouch)
    case Transition(_) => Connects(s, s', u, write, FromTransition)
    case Disk(_, _) => Connects(s, s', u, write, FromDisk)
  }

  /** A valid PTE gets just the permissions of the access; with a write its page
      has lost its slot, and is marked modified unless it was mapped for writing. */
  predicate Changes(s: State, v: nat, was: Prot, write: bool) {
    && Granted(s, v, write) && s.virtuals[v].pte.prot == (if write then ProtReadWrite else ProtRead)
    && s.virtuals[v].pte.frame < |s.pages|
    && var g := s.pages[s.virtuals[v].pte.frame];
       && g.status.Active? && g.pte == Some(v)
       && (write ==> g.slot == 0 && (was.ProtRead? ==> g.modified))
  }

  /** The thread's own steps from the o-th on changed no page, no pagefile slot, no
      list and no mapping. */
  ghost predicate OnlyPtes(trace: seq<State>, own: seq<Step>, o: nat) {
    o <= |own| && forall k :: o <= k < |own| ==>
      own[k].at + 1 < |trace| && SamePages(trace[own[k].at], trace[own[k].at + 1])
  }

  ghost predicate SamePages(s: State, s': State) {
    && s'.pages == s.pages && s'.slots == s.slots && s'.lists == s.lists && |s'.virtuals| == |s.virtuals|
    && forall v :: 0 <= v < |s.virtuals| ==> s'.virtuals[v].hw == s.virtuals[v].hw
  }

  /** Why a PTE of the window was not connected. */
  ghost predicate Skipped(m: Machine, n: int, w: nat, u: nat, local: Pte)
    reads m
  {
    if local.Transition? then PassedOver(m, n, w, u)
    else CameTooLate(m.trace, n, u, local) || NoPages(m, n, w)
  }

  lemma EndsWaiting(m: Machine, n: int, w: nat, window: seq<nat>, local: Pte, write: bool, patience: nat)
    requires window != [] && StuckInFault(m.waits, w, patience, window, local)
    ensures Ended(m, n, w, window, local, write, patience, StillWaiting, [], [])
  {
  }

  lemma EndsFailed(m: Machine, n: int, w: nat, window: seq<nat>, local: Pte, write: bool, patience: nat, result: Result)
    requires window != [] && Idle(m.mine) && !result.StillWaiting? && !result.SuccessfulFault?
    requires if result.NoAvailablePages? then NoPages(m, n, w) else CameTooLate(m.trace, n, window[0], local)
    ensures Ended(m, n, w, window, local, write, patience, result, [], [])
  {
  }

  function OriginOf(local: Pte): Origin {
    match local
    case Transition(_) => FromTransition
    case Disk(_, _) => FromDisk
    case _ => FirstTouch
  }

  /** `write'` is the access the first PTE of the batch was connected for. */
  lemma EndsConnected(m: Machine, n: int, w: nat, window: seq<nat>, local: Pte, write: bool, patience: nat,
                      vs: seq<nat>, times: seq<nat>, write': bool, origin: Origin)
    requires window != [] && Idle(m.mine) && vs != [] && n >= -1
             && ConnectedAt(m.trace, n + 1, vs, times, write', origin)
    requires !local.Valid? && origin == OriginOf(local)
    requires forall u :: u in vs ==> u in window
    requires forall k :: 0 < k < |vs| ==> vs[k] != window[0]
    requires write' == (write && (origin.FirstTouch? || vs[0] == window[0]))
    requires forall u :: u in window && u !in vs ==> Skipped(m, n, w, u, local)
    ensures Ended(m, n, w, window, local, write, patience, SuccessfulFault, vs, times)
  {
  }

  // ----- valid PTE --------------------------------------------------------------

  method ValidFault(m: Machine, v: nat, local: Pte, write: bool, ghost n: int, ghost w: nat, ghost patience: nat)
    returns (result: Result, connected: seq<nat>, ghost times: seq<nat>)
    requires m.Valid() && Idle(m.mine) && v < |m.s.virtuals| && local.Valid? && -1 <= n < |m.trace|
    modifies m
    ensures m.Valid() && m.Later() && Ended(m, n, w, [v], local, write, patience, result, connected, times)
    ensures (result.SuccessfulFault? && connected == [v]) || result.ValidPteRace?
    ensures !write ==> OnlyPtes(m.trace, m.own, |old(m.own)|)
  {
    hide Inv, Lawful, Recorded, Justified, Kept, OnlyPtes, Changes;
    NoStepsYet(m.trace, m.own);
    if !local.changing && !local.trimming {
      var done := ChangeIfSame(m, v, local, write);
      if done { return SuccessfulFault, [v], [|m.trace| - 1]; }
    }
    TooLateNow(m, n, v, local);
    EndsFailed(m, n, w, [v], local, write, patience, ValidPteRace);
    return ValidPteRace, [], [];
  }

  lemma NoStepsYet(trace: seq<State>, own: seq<Step>)
    ensures OnlyPtes(trace, own, |own|)
  {
  }

  /** The compare-exchange that claims the PTE, and what follows it. */
  method ChangeIfSame(m: Machine, v: nat, local: Pte, write: bool) returns (done: bool)
    requires m.Valid() && Idle(m.mine) && v < |m.s.virtuals| && local.Valid? && !local.changing && !local.trimming
    modifies m
    ensures m.Valid() && m.Later() && Idle(m.mine)
    ensures if done then |m.trace| > |old(m.trace)| && Changes(m.s, v, local.prot, write)
            else m.s.virtuals[v].pte != local
    ensures !write ==> OnlyPtes(m.trace, m.own, |old(m.own)|)
  {
    hide Inv, Lawful, Recorded, Justified, OnlyPtes, SamePages, Changes;
    ghost var trace, own := m.trace, m.own;
    NoStepsYet(trace, own);
    m.Others();
    QuietStepMore(trace, own, m.trace, m.own, |own|);
    done := m.s.virtuals[v].pte == local;
    if done { ChangeValid(m, v, write); }
  }

  method ChangeValid(m: Machine, v: nat, write: bool)
    requires m.Valid() && Idle(m.mine) && CanClaimChange(m.s, v)
    modifies m
    ensures m.Valid() && m.Later() && Idle(m.mine) && |m.trace| > |old(m.trace)|
    ensures Changes(m.s, v, old(m.s).virtuals[v].pte.prot, write)
    ensures !write ==> OnlyPtes(m.trace, m.own, |old(m.own)|)
  {
    hide Inv, Lawful, Recorded, Justified;
    ClaimIsQuiet(m, v, write);
    ghost var before, trace, own := m.s, m.trace, m.own;
    m.Do(Fault(DoClaimChange(v, write)));
    QuietStepMore(trace, own, m.trace, m.own, |old(m.own)|);
    ChangePermissions(m, v, |old(m.own)|);
  }

  lemma ClaimIsQuiet(m: Machine, v: nat, write: bool)
    requires m.Valid() && CanClaimChange(m.s, v)
    ensures Typed(m.s) && SamePages(m.s, ClaimChange(m.s, v, write)) && OnlyPtes(m.trace, m.own, |m.own|)
    ensures ClaimChange(m.s, v, write).virtuals[v].job == Changing(m.s.virtuals[v].pte.frame, m.s.virtuals[v].pte.prot,
                                                                   write, false)
  {
  }

  /** One more step of the thread. */
  lemma QuietStepMore(trace: seq<State>, own: seq<Step>, longer: seq<State>, more: seq<Step>, o: nat)
    requires OnlyPtes(trace, own, o) && Extends(trace, longer) && Extends(own, more) && |more| <= |own| + 1
    requires |more| == |own| + 1 ==>
               && more[|own|].at + 1 < |longer|
               && SamePages(longer[more[|own|].at], longer[more[|own|].at + 1])
    ensures OnlyPtes(longer, more, o)
  {
    forall k | o <= k < |more| ensures more[k].at + 1 < |longer|
        && SamePages(longer[more[k].at], longer[more[k].at + 1])
    {
      if k < |own| { assert more[k] == own[k]; }
    }
  }

  method ChangePermissions(m: Machine, v: nat, ghost o: nat)
    requires m.Valid() && v < |m.s.virtuals| && m.s.virtuals[v].job.Changing? && OnlyPtes(m.trace, m.own, o)
    requires m.mine == Only({v}).(trimmer := m.mine.trimmer, writer := m.mine.writer)
    modifies m
    ensures m.Valid() && m.Later() && Idle(m.mine) && |m.trace| > |old(m.trace)|
    ensures Changes(m.s, v, old(m.s).virtuals[v].job.prot, old(m.s).virtuals[v].job.write)
    ensures !old(m.s).virtuals[v].job.write ==> OnlyPtes(m.trace, m.own, o)
  {
    hide Inv, Sound, Lawful, Recorded, Justified, OnlyPtes, SamePages, Changes;
    ghost var trace, own, write := m.trace, m.own, m.s.virtuals[v].job.write;
    MakeWritable(m, v);
    m.Others();
    m.ValidIsSound();
    if !write { QuietStepMore(trace, own, m.trace, m.own, o); }
    trace, own := m.trace, m.own;
    FinishChangeGrants(m.s, v);
    m.Do(Fault(DoFinishChange(v)));
    if !write { QuietStepMore(trace, own, m.trace, m.own, o); }
  }

  method MakeWritable(m: Machine, v: nat)
    requires m.Valid() && v < |m.s.virtuals| && v in m.mine.faults && m.s.virtuals[v].job.Changing?
    modifies m
    ensures m.Valid() && m.Later() && m.mine == old(m.mine) && CanFinishChange(m.s, v)
    ensures m.s.virtuals[v].job.write == old(m.s).virtuals[v].job.write
    ensures m.s.virtuals[v].job.prot == old(m.s).virtuals[v].job.prot
    ensures !m.s.virtuals[v].job.write ==> m.own == old(m.own)
  {
    hide Lawful, Recorded, Justified;
    m.Others();
    if CanRemap(m.s, v) {
      m.Do(Fault(DoRemap(v)));
    }
  }

  lemma FinishChangeGrants(s: State, v: nat)
    requires Sound(s) && CanFinishChange(s, v)
    ensures Changes(FinishChange(s, v), v, s.virtuals[v].job.prot, s.virtuals[v].job.write)
    ensures SamePages(s, FinishChange(s, v))
  {
    assert VirtualOk(s, v);
  }

  // ----- unaccessed PTEs ---------------------------------------------------------------

  /** Under the PTE lock: those of the PTEs that nobody has touched meanwhile,
      in order. */
  method StillUnused(s: State, vs: seq<nat>) returns (kept: seq<nat>)
    requires Distinct(vs) && forall k :: 0 <= k < |vs| ==> vs[k] < |s.virtuals|
    ensures Distinct(kept) && |kept| <= |vs|
    ensures forall k :: 0 <= k < |kept| ==> kept[k] in vs && kept[k] < |s.virtuals| && s.virtuals[kept[k]].pte.Unused?
    ensures forall v :: v in vs && s.virtuals[v].pte.Unused? ==> v in kept
    ensures forall k :: 0 < k < |kept| ==> kept[k] != vs[0]
  {
    kept := [];
    for i := 0 to |vs|
      invariant Distinct(kept) && |kept| <= i
      invariant forall k :: 0 <= k < |kept| ==> kept[k] in vs[..i] && s.virtuals[kept[k]].pte.Unused?
      invariant forall j :: 0 <= j < i && s.virtuals[vs[j]].pte.Unused? ==> vs[j] in kept
      invariant forall k :: 0 < k < |kept| ==> kept[k] != vs[0]
    {
      if s.virtuals[vs[i]].pte.Unused? {
        assert vs[i] !in vs[..i];
        Append(kept, vs[i]);
        kept := kept + [vs[i]];
      }
    }
  }

  /** Sets the PTEs to valid format, being changed. */
  method ClaimAll(m: Machine, vs: seq<nat>, pages: seq<nat>, write: bool)
    requires m.Valid() && Distinct(vs) && m.mine.faults == {} && HoldsPopped(m, pages) && |pages| == |vs|
    requires LockedUnused(m, vs, 0)
    modifies m
    ensures Faulting(m, vs) && m.mine.hands == {} && AllAt(m.s, vs, 0, |vs|, ToCommitFirst, write, FirstTouch)
            && m.Later()
  {
    assert pages[0..] == pages && vs[..0] == [];
    for i := 0 to |vs|
      invariant Claiming(m, vs, i, pages[i..], write) && m.Later()
    {
      ClaimNext(m, vs, i, pages[i..], write);
      assert pages[i..][1..] == pages[i + 1..];
    }
    assert vs[..|vs|] == vs && pages[|vs|..] == [];
  }

  /** The first i PTEs are claimed, and there are pages for the others. */
  ghost predicate Claiming(m: Machine, vs: seq<nat>, i: int, pages: seq<nat>, write: bool)
    requires 0 <= i <= |vs|
    reads m
  {
    && m.Valid() && Distinct(vs) && m.mine.faults == Elements(vs[..i]) && HoldsPopped(m, pages) && |pages| == |vs| - i
    && AllAt(m.s, vs, 0, i, ToCommitFirst, write, FirstTouch) && LockedUnused(m, vs, i)
  }

  /** Other threads go on meanwhile, but none of them under this lock. */
  method ClaimNext(m: Machine, vs: seq<nat>, i: nat, pages: seq<nat>, write: bool)
    requires i < |vs| && Claiming(m, vs, i, pages, write)
    modifies m
    ensures Claiming(m, vs, i + 1, pages[1..], write) && m.Later()
  {
    ghost var before := m.s;
    InFirst(vs, i);
    m.Others();
    OthersKeepStage(before, m.s, m.mine, vs, 0, i, ToCommitFirst, write, FirstTouch);
    ClaimOne(m, vs, i, pages, write);
  }

  lemma InFirst(vs: seq<nat>, i: nat)
    requires i <= |vs|
    ensures forall k :: 0 <= k < i ==> vs[k] in Elements(vs[..i])
  {
    assert forall k :: 0 <= k < i ==> vs[k] == vs[..i][k];
  }

  lemma ClaimAdds(s: State, vs: seq<nat>, i: nat, pages: seq<nat>, write: bool)
    requires Typed(s) && Distinct(vs) && Distinct(pages) && pages != [] && i < |vs|
    requires CanClaimFirst(s, vs[i], pages[0]) && AllAt(s, vs, 0, i, ToCommitFirst, write, FirstTouch)
    requires forall k :: i <= k < |vs| ==> vs[k] < |s.virtuals| && s.virtuals[vs[k]].pte.Unused?
    requires forall k :: 0 <= k < |pages| ==> pages[k] < |s.pages| && s.pages[pages[k]].hand.Popped?
    ensures var s' := ClaimFirst(s, vs[i], pages[0], write && i == 0);
            && AllAt(s', vs, 0, i + 1, ToCommitFirst, write, FirstTouch)
            && (forall k :: i < k < |vs| ==> s'.virtuals[vs[k]].pte.Unused?)
            && (forall k :: 0 < k < |pages| ==> s'.pages[pages[k]].hand.Popped?)
  {
  }

  lemma TypedNow(m: Machine)
    requires m.Valid()
    ensures Typed(m.s)
  {
  }

  method ClaimOne(m: Machine, vs: seq<nat>, i: nat, pages: seq<nat>, write: bool)
    requires i < |vs| && Claiming(m, vs, i, pages, write)
    modifies m
    ensures Claiming(m, vs, i + 1, pages[1..], write) && m.Later()
  {
    hide Inv, Sound, Typed, Lawful, Recorded, Justified;
    TypedNow(m);
    ClaimAdds(m.s, vs, i, pages, write);
    InSuffix(pages, 0);
    assert pages[0..] == pages && vs[..i + 1] == vs[..i] + [vs[i]];
    m.Do(Fault(DoClaimFirst(vs[i], pages[0], write && i == 0)));
  }

  method UnaccessedFault(m: Machine, v: nat, ahead: seq<nat>, write: bool, patience: nat, ghost n: int, ghost w: nat)
    returns (result: Result, connected: seq<nat>, ghost times: seq<nat>)
    requires m.Valid() && Idle(m.mine) && Window(m.s, v, ahead) && -1 <= n < |m.trace| && w <= |m.waits|
    modifies m
    ensures m.Valid() && m.Later() && Ended(m, n, w, [v] + ahead, Unused, write, patience, result, connected, times)
    ensures AmongResults(result, {SuccessfulFault, NoAvailablePages, UnaccessedRace})
    ensures forall k :: 0 <= k < |times| ==> Granted(m.trace[times[k]], connected[k], true)
  {
    hide Inv, Lawful, Recorded, Justified, Kept, TooLate, Connects, AllBarren;
    var window := [v] + ahead;
    var zeroFirst: bool, z: nat, f: nat := *, *, *;
    var pages, finished := FindPages(m, |window|, zeroFirst, z, f, patience, n, w);
    ghost var trace, waits := m.trace, m.waits;
    if !finished {
      StuckWider(m.waits, |old(m.waits)|, w, patience, BusyStandby, BusyStandby);
      EndsWaiting(m, n, w, window, Unused, write, patience);
      return StillWaiting, [], [];
    }
    if pages == [] {
      EndsFailed(m, n, w, window, Unused, write, patience, NoAvailablePages);
      return NoAvailablePages, [], [];
    }
    var wanted := Prefix(window, |pages|);
    connected, times := FirstTouches(m, wanted, pages, write, n);
    if connected == [] {
      EndsFailed(m, n, w, window, Unused, write, patience, UnaccessedRace);
      return UnaccessedRace, [], [];
    }
    result := SuccessfulFault;
    if |pages| == |window| {
      assert wanted == window;
    } else {
      NoPagesStays(m, trace, waits, n, w);
    }
    EndsConnected(m, n, w, window, Unused, write, patience, connected, times, write, FirstTouch);
    FirstTouchGrants(m.trace, n + 1, connected, times, write);
  }

  lemma FirstTouchGrants(trace: seq<State>, n: nat, vs: seq<nat>, times: seq<nat>, write: bool)
    requires ConnectedAt(trace, n, vs, times, write, FirstTouch)
    ensures forall k :: 0 <= k < |times| ==> Granted(trace[times[k]], vs[k], true)
  {
  }

  lemma NoPagesStays(m: Machine, trace: seq<State>, waits: seq<Wait>, n: int, w: nat)
    requires Extends(trace, m.trace) && Extends(waits, m.waits) && Dry(trace, n)
    requires AllBarren(trace, waits, n, w, true, m.colours) && AllBarren(trace, waits, n, w, false, m.colours)
    ensures NoPages(m, n, w)
  {
    AllBarrenStays(trace, waits, m.trace, m.waits, n, w, true, m.colours);
    AllBarrenStays(trace, waits, m.trace, m.waits, n, w, false, m.colours);
  }

  /** From the lock of the PTEs on. */
  method FirstTouches(m: Machine, wanted: seq<nat>, pages: seq<nat>, write: bool, ghost n: int)
    returns (connected: seq<nat>, ghost times: seq<nat>)
    requires m.Valid() && m.mine.faults == {} && m.mine.locked == {} && HoldsPopped(m, pages) && |pages| == |wanted| > 0
    requires Distinct(wanted) && (forall k :: 0 <= k < |wanted| ==> wanted[k] < |m.s.virtuals|) && -1 <= n < |m.trace|
    modifies m
    ensures m.Valid() && m.Later() && Idle(m.mine) && ConnectedAt(m.trace, n + 1, connected, times, write, FirstTouch)
    ensures forall u :: u in connected ==> u in wanted
    ensures forall k :: 0 < k < |connected| ==> connected[k] != wanted[0]
    ensures forall u :: u in wanted && u !in connected ==> CameTooLate(m.trace, n, u, Unused)
  {
    m.EnterPteLock(Elements(wanted));
    connected := StillUnused(m.s, wanted);
    ghost var trace := m.trace;
    forall u | u in wanted && u !in connected ensures CameTooLate(trace, n, u, Unused) {
      TooLateNow(m, n, u, Unused);
    }
    times := ConnectFirst(m, connected, pages, write);
  }

  /** Gives back the pages that are not needed, claims the PTEs, commits and
      connects a page to each. */
  method ConnectFirst(m: Machine, vs: seq<nat>, pages: seq<nat>, write: bool) returns (ghost times: seq<nat>)
    requires m.Valid() && Distinct(vs) && m.mine.faults == {} && HoldsPopped(m, pages) && |vs| <= |pages|
    requires LockedUnused(m, vs, 0)
    modifies m
    ensures m.Valid() && m.Later() && Idle(m.mine) && ConnectedAt(m.trace, |old(m.trace)|, vs, times, write, FirstTouch)
  {
    hide Inv, Lawful, Recorded, Justified, Kept, Connects, At;
    ReturnRest(m, pages, |vs|, vs);
    ClaimAll(m, vs, pages[..|vs|], write);
    m.LeavePteLock();
    Advance(m, vs, ToCommitFirst, write, FirstTouch);
    times := ConnectBatch(m, vs, write, FirstTouch);
  }

  // ----- transition PTEs -------------------------------------------------------------------

  /** Spins until the pagelock is free; `patience` bounds the spinning. */
  method AcquirePagelock(m: Machine, p: nat, patience: nat) returns (free: bool)
    requires m.Valid() && p < |m.s.pages|
    modifies m
    ensures m.Valid() && m.Later() && m.mine == old(m.mine)
    ensures if free then m.s.pages[p].hand.Nobody? else Stuck(m.waits, |old(m.waits)|, patience, HeldPages({p}))
  {
    hide Inv, Lawful, Recorded, Justified;
    var left := patience;
    while left > 0 && !m.s.pages[p].hand.Nobody?
      invariant m.Valid() && m.Later() && m.mine == old(m.mine) && 0 <= left <= patience
      invariant |m.waits| == |old(m.waits)| + (patience - left) && OnlyFrom(m.waits, |old(m.waits)|, HeldPages({p}))
    {
      ghost var waits := m.waits;
      m.Await(PageHeld(p));
      OneMoreWait(waits, |old(m.waits)|, m.waits[|waits|], HeldPages({p}));
      left := left - 1;
    }
    if left == 0 { StuckSince(m.waits, |old(m.waits)|, patience, HeldPages({p})); }
    free := m.s.pages[p].hand.Nobody?;
  }

  /** The PTEs in vs are being rescued; which of them are in transition format
      is known only of the first n. */
  ghost predicate Rescued(s: State, vs: seq<nat>, write: bool) {
    forall k :: 0 <= k < |vs| ==>
        vs[k] < |s.virtuals| && s.virtuals[vs[k]].job.Rescuing? && s.virtuals[vs[k]].job.write == (write && k == 0)
  }

  lemma OthersKeepRescued(s: State, s': State, me: Mine, vs: seq<nat>, write: bool)
    requires Kept(s, s', me) && Rescued(s, vs, write) && forall k :: 0 <= k < |vs| ==> vs[k] in me.faults
    ensures Rescued(s', vs, write)
  {
  }

  /** Rescues a PTE ahead, if its page can be locked at once and is still its own. */
  method RescueAhead(m: Machine, vs: seq<nat>, u: nat, write: bool) returns (more: seq<nat>)
    requires Resolving(m, vs) && Rescued(m.s, vs, write) && u < |m.s.virtuals| && u !in vs && vs != []
    modifies m
    ensures Resolving(m, more) && Rescued(m.s, more, write) && m.Later()
    ensures more == vs + [u] || (more == vs && PassedOver(m, |old(m.trace)| - 1, |old(m.waits)|, u))
  {
    ghost var looked, before := |m.trace| - 1, m.s;
    var t := m.s.virtuals[u].pte;
    m.Others();
    OthersKeepRescued(before, m.s, m.mine, vs, write);
    more := vs;
    assert m.trace[looked].virtuals[u].pte == t;
    if t.Transition? {
      var ok := RescueCopied(m, vs, u, t.frame, write);
      if ok { more := vs + [u]; }
    }
  }

  /** The copy of the PTE named this frame; it may be out of date by now. */
  method RescueCopied(m: Machine, vs: seq<nat>, u: nat, frame: nat, write: bool) returns (ok: bool)
    requires Resolving(m, vs) && Rescued(m.s, vs, write) && u < |m.s.virtuals| && u !in vs && vs != []
             && frame < |m.s.pages|
    modifies m
    ensures m.Later() && Resolving(m, if ok then vs + [u] else vs) && Rescued(m.s, if ok then vs + [u] else vs, write)
    ensures !ok ==>
              || CameTooLate(m.trace, |old(m.trace)| - 1, u, Transition(frame))
              || FoundBusy(m.waits, |old(m.waits)|, frame)
  {
    hide Inv, Lawful, Recorded, Justified;
    ghost var start, waited := |m.trace| - 1, |m.waits|;
    ok := m.TryLock(frame, CopyBusy(frame));
    if ok {
      ok := CanRescue(m.s, u, frame);
      if ok {
        RescueOne(m, vs, u, frame, write);
      } else {
        TooLateNow(m, start, u, Transition(frame));
      }
    } else {
      assert m.waits[waited].why == CopyBusy(frame);
    }
  }

  method RescueOne(m: Machine, vs: seq<nat>, u: nat, frame: nat, write: bool)
    requires Resolving(m, vs) && Rescued(m.s, vs, write) && u !in vs && CanRescue(m.s, u, frame)
    modifies m
    ensures Resolving(m, vs + [u]) && Rescued(m.s, vs + [u], write) && m.Later()
  {
    hide Inv, Sound, Lawful, Recorded, Justified;
    m.ValidIsSound();
    Append(vs, u);
    var a := Fault(DoRescue(u, frame, write && vs == []));
    ForeignStepKeeps(m.s, a, Only(Elements(vs)));
    OthersKeepRescued(m.s, Apply(m.s, a), Only(Elements(vs)), vs, write);
    m.Do(a);
  }

  /** Another rescuer may have come and gone before this one, so the trimmer may
      not be done with these PTEs: wait until it is. */
  method AwaitTransition(m: Machine, vs: seq<nat>, write: bool, patience: nat) returns (all: bool)
    requires Resolving(m, vs) && Rescued(m.s, vs, write)
    modifies m
    ensures Resolving(m, vs) && Rescued(m.s, vs, write) && m.Later()
    ensures if all then AllAt(m.s, vs, 0, |vs|, ToCommitRescue, write, FromTransition)
            else Stuck(m.waits, |old(m.waits)|, patience, PendingPtes(Elements(vs)))
  {
    hide Inv, Lawful, Recorded, Justified, Kept;
    var i, left := 0, patience;
    while i < |vs| && left > 0
      invariant 0 <= i <= |vs| && 0 <= left <= patience && |m.waits| == |old(m.waits)| + (patience - left)
      invariant OnlyFrom(m.waits, |old(m.waits)|, PendingPtes(Elements(vs)))
      invariant Resolving(m, vs) && Rescued(m.s, vs, write) && m.Later()
      invariant AllAt(m.s, vs, 0, i, ToCommitRescue, write, FromTransition)
      decreases left, |vs| - i
    {
      if m.s.virtuals[vs[i]].pte.Transition? {
        i := i + 1;
      } else {
        ghost var waits := m.waits;
        AwaitOne(m, vs, i, write);
        OneMoreWait(waits, |old(m.waits)|, m.waits[|waits|], PendingPtes(Elements(vs)));
        left := left - 1;
      }
    }
    if i < |vs| { StuckSince(m.waits, |old(m.waits)|, patience, PendingPtes(Elements(vs))); }
    all := i == |vs|;
  }

  method AwaitOne(m: Machine, vs: seq<nat>, i: nat, write: bool)
    requires i < |vs| && Resolving(m, vs) && Rescued(m.s, vs, write)
             && AllAt(m.s, vs, 0, i, ToCommitRescue, write, FromTransition)
    requires !m.s.virtuals[vs[i]].pte.Transition?
    modifies m
    ensures Resolving(m, vs) && Rescued(m.s, vs, write) && AllAt(m.s, vs, 0, i, ToCommitRescue, write, FromTransition)
    ensures m.Later() && exists wait: Wait :: m.waits == old(m.waits) + [wait] && wait.why == NotTransition(vs[i])
  {
    ghost var before := m.s;
    m.Await(NotTransition(vs[i]));
    OthersKeepRescued(before, m.s, m.mine, vs, write);
    OthersKeepStage(before, m.s, m.mine, vs, 0, i, ToCommitRescue, write, FromTransition);
  }

  method TransitionFault(m: Machine, v: nat, frame: nat, ahead: seq<nat>, write: bool, patience: nat, ghost n: int,
                         ghost w: nat)
    returns (result: Result, connected: seq<nat>, ghost times: seq<nat>)
    requires m.Valid() && Idle(m.mine) && Window(m.s, v, ahead) && -1 <= n < |m.trace| && w <= |m.waits|
    requires frame < |m.s.pages|
    modifies m
    ensures m.Valid() && m.Later()
            && Ended(m, n, w, [v] + ahead, Transition(frame), write, patience, result, connected, times)
    ensures AmongResults(result, {SuccessfulFault, RescueFail}) && (result.SuccessfulFault? ==> v in connected)
  {
    hide Inv, Lawful, Recorded, Justified, Kept, Connects;
    var free := AcquirePagelock(m, frame, patience);
    if !free {
      StuckWider(m.waits, |old(m.waits)|, w, patience, HeldPages({frame}), HeldPages({frame}));
      EndsWaiting(m, n, w, [v] + ahead, Transition(frame), write, patience);
      return StillWaiting, [], [];
    }
    if !CanRescue(m.s, v, frame) {
      TooLateNow(m, n, v, Transition(frame));
      EndsFailed(m, n, w, [v] + ahead, Transition(frame), write, patience, RescueFail);
      return RescueFail, [], [];
    }
    RescueFirst(m, v, frame, write);
    result, connected, times := RescueBatch(m, v, frame, ahead, write, patience, n, w);
  }

  method RescueFirst(m: Machine, v: nat, frame: nat, write: bool)
    requires m.Valid() && Idle(m.mine) && CanRescue(m.s, v, frame)
    modifies m
    ensures Resolving(m, [v]) && Rescued(m.s, [v], write) && m.Later()
  {
    RescueOne(m, [], v, frame, write);
    assert [] + [v] == [v];
  }

  method RescueBatch(m: Machine, v: nat, ghost frame: nat, ahead: seq<nat>, write: bool, patience: nat, ghost n: int,
                     ghost w: nat)
    returns (result: Result, connected: seq<nat>, ghost times: seq<nat>)
    requires Resolving(m, [v]) && Rescued(m.s, [v], write)
    requires Window(m.s, v, ahead) && -1 <= n < |m.trace| && w <= |m.waits|
    modifies m
    ensures m.Valid() && m.Later()
            && Ended(m, n, w, [v] + ahead, Transition(frame), write, patience, result, connected, times)
    ensures AmongResults(result, {SuccessfulFault}) && (result.SuccessfulFault? ==> v in connected)
  {
    hide Inv, Lawful, Recorded, Justified, Kept, Connects, TooLate, Rescued;
    var vs := RescueMore(m, v, ahead, write, n, w);
    var all;
    ghost var before, waits := m.trace, m.waits;
    all, times := ConnectRescued(m, vs, write, patience);
    if !all {
      StuckWider(m.waits, |waits|, w, patience, PendingPtes(Elements(vs)), PendingPtes(Elements([v] + ahead)));
      EndsWaiting(m, n, w, [v] + ahead, Transition(frame), write, patience);
      return StillWaiting, [], [];
    }
    result, connected := SuccessfulFault, vs;
    EndsConnected(m, n, w, [v] + ahead, Transition(frame), write, patience, vs, times, write, FromTransition);
  }

  method ConnectRescued(m: Machine, vs: seq<nat>, write: bool, patience: nat) returns (all: bool, ghost times: seq<nat>)
    requires Resolving(m, vs) && Rescued(m.s, vs, write)
    modifies m
    ensures m.Valid() && m.Later()
    ensures if all then Idle(m.mine) && ConnectedAt(m.trace, |old(m.trace)|, vs, times, write, FromTransition)
            else Stuck(m.waits, |old(m.waits)|, patience, PendingPtes(Elements(vs)))
  {
    hide Inv, Lawful, Recorded, Justified, Kept;
    times := [];
    all := AwaitTransition(m, vs, write, patience);
    if all {
      Advance(m, vs, ToCommitRescue, write, FromTransition);
      times := ConnectBatch(m, vs, write, FromTransition);
    }
  }

  /** Goes through the PTEs ahead. */
  method RescueMore(m: Machine, v: nat, ahead: seq<nat>, write: bool, ghost n: int, ghost w: nat) returns (vs: seq<nat>)
    requires Resolving(m, [v]) && Rescued(m.s, [v], write) && Window(m.s, v, ahead) && -1 <= n < |m.trace|
             && w <= |m.waits|
    modifies m
    ensures Resolving(m, vs) && Rescued(m.s, vs, write) && m.Later()
    ensures Distinct(vs) && vs != [] && vs[0] == v && forall k :: 0 <= k < |vs| ==> vs[k] in [v] + ahead
    ensures forall u :: u in ahead && u !in vs ==> PassedOver(m, n, w, u)
  {
    hide Inv, Lawful, Recorded, Justified, Kept;
    vs := [v];
    for i := 0 to |ahead|
      invariant Resolving(m, vs) && Rescued(m.s, vs, write) && m.Later()
      invariant vs != [] && vs[0] == v && forall k :: 0 <= k < |vs| ==> vs[k] in ([v] + ahead)[..i + 1]
      invariant forall j :: 0 <= j < i && ahead[j] !in vs ==> PassedOver(m, n, w, ahead[j])
    {
      assert ([v] + ahead)[i + 1] == ahead[i];
      vs := RescueNext(m, vs, ahead, i, write, n, w);
    }
  }

  method RescueNext(m: Machine, vs: seq<nat>, ahead: seq<nat>, i: nat, write: bool, ghost n: int, ghost w: nat)
    returns (more: seq<nat>)
    requires Resolving(m, vs) && Rescued(m.s, vs, write) && vs != []
    requires i < |ahead| && ahead[i] < |m.s.virtuals| && ahead[i] !in vs && n < |m.trace| && w <= |m.waits|
    requires forall j :: 0 <= j < i && ahead[j] !in vs ==> PassedOver(m, n, w, ahead[j])
    modifies m
    ensures Resolving(m, more) && Rescued(m.s, more, write) && m.Later() && (more == vs || more == vs + [ahead[i]])
    ensures forall j :: 0 <= j <= i && ahead[j] !in more ==> PassedOver(m, n, w, ahead[j])
  {
    more := RescueAhead(m, vs, ahead[i], write);
  }

  // ----- disk PTEs ---------------------------------------------------------------------------

  ghost predicate AllReading(s: State, vs: seq<nat>, from: nat) {
    forall k :: from <= k < |vs| ==> vs[k] < |s.virtuals| && s.virtuals[vs[k]].job.Reading?
  }

  lemma OthersKeepReading(s: State, s': State, me: Mine, vs: seq<nat>, from: nat)
    requires Kept(s, s', me) && AllReading(s, vs, from) && forall k :: from <= k < |vs| ==> vs[k] in me.faults
    ensures AllReading(s', vs, from)
  {
  }

  /** Takes the right to read the PTEs of the window that are to be had; the
      accessed one need not be among them. */
  method TakeRights(m: Machine, window: seq<nat>, ghost local: Pte, ghost n: int) returns (vs: seq<nat>)
    requires m.Valid() && Idle(m.mine) && Distinct(window)
    requires forall k :: 0 <= k < |window| ==> window[k] < |m.s.virtuals|
    requires local.Disk? && n < |m.trace|
    modifies m
    ensures Resolving(m, vs) && AllReading(m.s, vs, 0) && m.Later()
    ensures |vs| <= |window| && (forall k :: 0 <= k < |vs| ==> vs[k] in window)
    ensures forall k :: 0 < k < |vs| ==> vs[k] != window[0]
    ensures forall u :: u in window && u !in vs ==> CameTooLate(m.trace, n, u, local)
  {
    hide Inv, Lawful, Recorded, Justified, Kept;
    vs := [];
    for i := 0 to |window|
      invariant Resolving(m, vs) && AllReading(m.s, vs, 0) && m.Later()
      invariant |vs| <= i && (forall k :: 0 <= k < |vs| ==> vs[k] in window[..i])
      invariant forall k :: 0 < k < |vs| ==> vs[k] != window[0]
      invariant forall j :: 0 <= j < i && window[j] !in vs ==> CameTooLate(m.trace, n, window[j], local)
    {
      assert window[i] !in window[..i];
      vs := TakeNextRight(m, vs, window, i, local, n);
    }
  }

  method TakeNextRight(m: Machine, vs: seq<nat>, window: seq<nat>, i: nat, ghost local: Pte, ghost n: int)
    returns (more: seq<nat>)
    requires Resolving(m, vs) && AllReading(m.s, vs, 0) && local.Disk? && n < |m.trace|
    requires i < |window| && window[i] !in vs && window[i] < |m.s.virtuals|
    requires forall j :: 0 <= j < i && window[j] !in vs ==> CameTooLate(m.trace, n, window[j], local)
    modifies m
    ensures Resolving(m, more) && AllReading(m.s, more, 0) && m.Later() && (more == vs || more == vs + [window[i]])
    ensures forall j :: 0 <= j <= i && window[j] !in more ==> CameTooLate(m.trace, n, window[j], local)
  {
    more := TakeOneRight(m, vs, window[i]);
    if more == vs { TooLateNow(m, n, window[i], local); }
  }

  method TakeOneRight(m: Machine, vs: seq<nat>, u: nat) returns (more: seq<nat>)
    requires Resolving(m, vs) && AllReading(m.s, vs, 0) && u !in vs && u < |m.s.virtuals|
    modifies m
    ensures Resolving(m, more) && AllReading(m.s, more, 0) && m.Later()
    ensures more == vs + [u] || (more == vs && !CanTakeRight(m.s, u))
  {
    hide Lawful, Recorded, Justified;
    ghost var before := m.s;
    m.Others();
    OthersKeepReading(before, m.s, m.mine, vs, 0);
    more := vs;
    if CanTakeRight(m.s, u) {
      Append(vs, u);
      ForeignStepKeeps(m.s, Connect(DoTakeRight(u)), Only(Elements(vs)));
      OthersKeepReading(m.s, TakeRight(m.s, u), Only(Elements(vs)), vs, 0);
      m.Do(Connect(DoTakeRight(u)));
      more := vs + [u];
    }
  }

  /** release_sequential_disk_read_rights, for all but the first n PTEs: no lock
      is held here. */
  method DropRights(m: Machine, vs: seq<nat>, n: nat, ghost pages: seq<nat>)
    requires Faulting(m, vs) && AllReading(m.s, vs, 0) && HoldsPopped(m, pages) && n <= |vs|
    modifies m
    ensures Faulting(m, Prefix(vs, n)) && AllReading(m.s, Prefix(vs, n), 0) && m.Later()
    ensures HoldsPopped(m, pages) && m.mine.locked == old(m.mine.locked)
  {
    var i := |vs|;
    assert vs[..i] == vs;
    while i > n
      invariant n <= i <= |vs| && m.Later() && m.mine.locked == old(m.mine.locked)
      invariant Faulting(m, vs[..i]) && AllReading(m.s, vs[..i], 0) && HoldsPopped(m, pages)
    {
      i := i - 1;
      assert vs[..i + 1] == vs[..i] + [vs[i]];
      DropLast(m, vs[..i], vs[i], pages);
    }
  }

  method DropLast(m: Machine, vs: seq<nat>, last: nat, ghost pages: seq<nat>)
    requires Faulting(m, vs + [last]) && AllReading(m.s, vs + [last], 0) && HoldsPopped(m, pages)
    modifies m
    ensures Faulting(m, vs) && AllReading(m.s, vs, 0) && m.Later()
    ensures HoldsPopped(m, pages) && m.mine.locked == old(m.mine.locked)
  {
    hide Lawful, Recorded, Justified;
    ghost var before := m.s;
    m.Others();
    OthersKeepReading(before, m.s, m.mine, vs + [last], 0);
    assert forall k :: 0 <= k < |vs| ==> vs[k] == (vs + [last])[k];
    assert (vs + [last])[|vs|] == last && last !in vs;
    Append(vs, last);
    m.Do(Connect(DoDropRight(last)));
  }

  /** commit_pages_disk. */
  method CommitAll(m: Machine, vs: seq<nat>, pages: seq<nat>, write: bool)
    requires Faulting(m, vs) && AllReading(m.s, vs, 0) && HoldsPopped(m, pages) && |pages| == |vs|
             && m.mine.locked == {}
    modifies m
    ensures Resolving(m, vs) && AllAt(m.s, vs, 0, |vs|, ToFill, write, FromDisk) && m.Later()
  {
    hide Inv, Lawful, Recorded, Justified, Kept;
    assert pages[0..] == pages;
    for i := 0 to |vs|
      invariant Faulting(m, vs) && m.mine.locked == {} && HoldsPopped(m, pages[i..]) && m.Later()
      invariant AllAt(m.s, vs, 0, i, ToFill, write, FromDisk) && AllReading(m.s, vs, i)
    {
      WaitForCommit(m, vs, i, pages[i..], write);
      CommitOne(m, vs, i, pages[i..], write);
      assert pages[i..][1..] == pages[i + 1..];
    }
  }

  method WaitForCommit(m: Machine, vs: seq<nat>, i: nat, pages: seq<nat>, write: bool)
    requires Faulting(m, vs) && HoldsPopped(m, pages) && i < |vs|
    requires AllAt(m.s, vs, 0, i, ToFill, write, FromDisk) && AllReading(m.s, vs, i)
    modifies m
    ensures Faulting(m, vs) && HoldsPopped(m, pages) && m.Later() && m.mine == old(m.mine)
    ensures AllAt(m.s, vs, 0, i, ToFill, write, FromDisk) && AllReading(m.s, vs, i)
  {
    ghost var before := m.s;
    m.Others();
    OthersKeepStage(before, m.s, m.mine, vs, 0, i, ToFill, write, FromDisk);
    OthersKeepReading(before, m.s, m.mine, vs, i);
  }

  lemma CommitAdds(s: State, vs: seq<nat>, i: nat, pages: seq<nat>, write: bool)
    requires Sound(s) && Distinct(vs) && Distinct(pages) && pages != [] && i < |vs|
    requires AllAt(s, vs, 0, i, ToFill, write, FromDisk) && AllReading(s, vs, i)
    requires forall k :: 0 <= k < |pages| ==> pages[k] < |s.pages| && s.pages[pages[k]].hand.Popped?
    ensures CanCommitDisk(s, vs[i], pages[0])
    ensures var s' := CommitDisk(s, vs[i], pages[0], write && i == 0);
            && SameSize(s, s') && AllAt(s', vs, 0, i + 1, ToFill, write, FromDisk) && AllReading(s', vs, i + 1)
            && (forall k :: 0 < k < |pages| ==> s'.pages[pages[k]].hand.Popped?)
  {
    assert PageOk(s, pages[0]);
    DetachKeepsMine(s, pages[0]);
  }

  method CommitOne(m: Machine, vs: seq<nat>, i: nat, pages: seq<nat>, write: bool)
    requires Faulting(m, vs) && HoldsPopped(m, pages) && pages != [] && i < |vs|
    requires AllAt(m.s, vs, 0, i, ToFill, write, FromDisk) && AllReading(m.s, vs, i)
    modifies m
    ensures Faulting(m, vs) && HoldsPopped(m, pages[1..]) && m.Later() && m.mine.locked == old(m.mine.locked)
    ensures AllAt(m.s, vs, 0, i + 1, ToFill, write, FromDisk) && AllReading(m.s, vs, i + 1)
  {
    hide Lawful, Recorded, Justified;
    CommitAdds(m.s, vs, i, pages, write);
    InSuffix(pages, 0);
    assert pages[0..] == pages;
    m.Do(Connect(DoCommitDisk(vs[i], pages[0], write && i == 0)));
  }

  method DiskFault(m: Machine, v: nat, ahead: seq<nat>, ghost local: Pte, write: bool, patience: nat, ghost n: int,
                   ghost w: nat)
    returns (result: Result, connected: seq<nat>, ghost times: seq<nat>)
    requires m.Valid() && Idle(m.mine) && Window(m.s, v, ahead) && local.Disk? && -1 <= n < |m.trace| && w <= |m.waits|
    modifies m
    ensures m.Valid() && m.Later() && Ended(m, n, w, [v] + ahead, local, write, patience, result, connected, times)
    ensures AmongResults(result, {SuccessfulFault, NoAvailablePages, DiskRace})
  {
    hide Inv, Lawful, Recorded, Justified, Kept, TooLate, Connects, AllReading, NoPages, Stuck;
    var window := [v] + ahead;
    var vs := TakeRights(m, window, local, n);
    if vs == [] {
      EndsFailed(m, n, w, window, local, write, patience, DiskRace);
      return DiskRace, [], [];
    }
    var some, finished;
    ghost var waited := |m.waits|;
    some, finished, times := ReadSome(m, vs, write && vs[0] == v, patience, n, w);
    if !finished {
      StuckWider(m.waits, waited, w, patience, BusyStandby, BusyStandby);
      EndsWaiting(m, n, w, window, local, write, patience);
      return StillWaiting, [], [];
    }
    if some == 0 {
      EndsFailed(m, n, w, window, local, write, patience, NoAvailablePages);
      return NoAvailablePages, [], [];
    }
    result, connected := SuccessfulFault, Prefix(vs, some);
    forall u | u in window && u !in connected ensures Skipped(m, n, w, u, local) {
      if some == |vs| { assert connected == vs; }
    }
    EndsConnected(m, n, w, window, local, write, patience, connected, times, write && vs[0] == v, FromDisk);
  }

  /** Reads as many of the PTEs as there are pages for. */
  method ReadSome(m: Machine, vs: seq<nat>, write: bool, patience: nat, ghost n: int, ghost w: nat)
    returns (some: nat, finished: bool, ghost times: seq<nat>)
    requires Resolving(m, vs) && AllReading(m.s, vs, 0) && n < |m.trace| && w <= |m.waits|
    modifies m
    ensures m.Valid() && m.Later() && some <= |vs|
    ensures if finished then Idle(m.mine)
            && ConnectedAt(m.trace, |old(m.trace)|, Prefix(vs, some), times, write, FromDisk)
            else Stuck(m.waits, |old(m.waits)|, patience, BusyStandby)
    ensures finished && some < |vs| ==> NoPages(m, n, w)
  {
    hide Inv, Lawful, Recorded, Justified, Kept;
    var pages;
    pages, finished := PagesToRead(m, vs, patience, n, w);
    some, times := |pages|, [];
    if finished {
      ghost var trace, waits := m.trace, m.waits;
      times := ReadBatch(m, Prefix(vs, some), pages, write);
      if some < |vs| { NoPagesStays(m, trace, waits, n, w); }
    }
  }

  /** Finds pages for the PTEs, and gives back the rights of those without. */
  method PagesToRead(m: Machine, vs: seq<nat>, patience: nat, ghost n: int, ghost w: nat)
    returns (pages: seq<nat>, finished: bool)
    requires Resolving(m, vs) && AllReading(m.s, vs, 0) && n < |m.trace| && w <= |m.waits|
    modifies m
    ensures m.Valid() && m.Later() && |pages| <= |vs|
    ensures if finished then m.mine.locked == {} && HoldsPopped(m, pages) && Faulting(m, Prefix(vs, |pages|))
                             && AllReading(m.s, Prefix(vs, |pages|), 0)
            else Stuck(m.waits, |old(m.waits)|, patience, BusyStandby)
    ensures finished && |pages| < |vs| ==> NoPages(m, n, w)
  {
    hide Inv, Lawful, Recorded, Justified, Kept, AllBarren;
    ghost var before := m.s;
    var zeroFirst: bool, z: nat, f: nat := *, *, *;
    pages, finished := FindPages(m, |vs|, zeroFirst, z, f, patience, n, w);
    OthersKeepReading(before, m.s, Only(m.mine.faults), vs, 0);
    if finished {
      ghost var trace, waits := m.trace, m.waits;
      DropRights(m, vs, |pages|, pages);
      if |pages| < |vs| { NoPagesStays(m, trace, waits, n, w); }
    }
  }

  /** Commit, read, settle the slots, connect. */
  method ReadBatch(m: Machine, vs: seq<nat>, pages: seq<nat>, write: bool) returns (ghost times: seq<nat>)
    requires Faulting(m, vs) && AllReading(m.s, vs, 0) && HoldsPopped(m, pages) && |pages| == |vs|
             && m.mine.locked == {}
    modifies m
    ensures m.Valid() && m.Later() && Idle(m.mine)
    ensures ConnectedAt(m.trace, |old(m.trace)|, vs, times, write, FromDisk)
  {
    CommitAll(m, vs, pages, write);
    ReadPages(m, vs, write);
    times := ConnectBatch(m, vs, write, FromDisk);
  }

  method ReadPages(m: Machine, vs: seq<nat>, write: bool)
    requires Resolving(m, vs) && AllAt(m.s, vs, 0, |vs|, ToFill, write, FromDisk)
    modifies m
    ensures Resolving(m, vs) && AllAt(m.s, vs, 0, |vs|, ToMap, write, FromDisk) && m.Later()
  {
    Advance(m, vs, ToFill, write, FromDisk);
    Advance(m, vs, ToSettle, write, FromDisk);
  }

  // ----- pagefault --------------------------------------------------------------------------

  predicate AmongResults(result: Result, usual: set<Result>) {
    result in usual || result.StillWaiting?
  }

  /** pagefault: the PTE is read once, and the format of that copy decides.
      Whatever the others do, no step of a handler finds the state other than
      it needs it; PTEs that are connected can be accessed, first touches for
      writing too, and others for writing only if that was the access; a PTE of
      the window that is not connected has a reason; and a fault that ends
      leaves nothing claimed, whether it succeeds or fails. */
  method Pagefault(m: Machine, v: nat, ahead: seq<nat>, write: bool, patience: nat)
    returns (result: Result, connected: seq<nat>, ghost times: seq<nat>)
    requires m.Valid() && Idle(m.mine) && Window(m.s, v, ahead)
    modifies m
    ensures m.Valid() && m.Later()
    ensures Ended(m, |old(m.trace)| - 1, |old(m.waits)|, if old(m.s.virtuals[v].pte).Valid? then [v] else [v] + ahead,
                  old(m.s.virtuals[v].pte), write, patience, result, connected, times)
    ensures match old(m.s.virtuals[v].pte)
            case Valid(_, _, _, _, _) =>
              && ((result.SuccessfulFault? && v in connected) || result.ValidPteRace?)
              && (!write ==> OnlyPtes(m.trace, m.own, |old(m.own)|))
            case Unused =>
              && AmongResults(result, {SuccessfulFault, NoAvailablePages, UnaccessedRace})
              && forall k :: 0 <= k < |times| ==> Granted(m.trace[times[k]], connected[k], true)
            case Transition(_) =>
              AmongResults(result, {SuccessfulFault, RescueFail}) && (result.SuccessfulFault? ==> v in connected)
            case Disk(_, _) => AmongResults(result, {SuccessfulFault, NoAvailablePages, DiskRace})
  {
    hide Lawful, Recorded, Justified, Ended, OnlyPtes;
    ghost var n, w := |m.trace| - 1, |m.waits|;
    var local := m.s.virtuals[v].pte;
    assert VirtualTyped(m.s.virtuals[v], |m.s.pages|, |m.s.slots|);
    m.Others();
    match local
    case Valid(_, _, _, _, _) => result, connected, times := ValidFault(m, v, local, write, n, w, patience);
    case Unused => result, connected, times := UnaccessedFault(m, v, ahead, write, patience, n, w);
    case Transition(frame) => result, connected, times := TransitionFault(m, v, frame, ahead, write, patience, n, w);
    case Disk(_, _) => result, connected, times := DiskFault(m, v, ahead, local, write, patience, n, w);
  }
}
