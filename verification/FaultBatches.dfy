/** Batches of faults in progress: what each of them has to do next, and the
    loops that take all of them one step further.  Between any two steps other
    threads do what they like. */
module FaultBatches {
  import opened PageState
  import opened Protocol
  import opened Invariant
  import opened Interference
  import opened Machine

  /** The access can go through. */
  predicate Granted(s: State, v: nat, write: bool) {
    && v < |s.virtuals| && s.virtuals[v].hw.Mapped? && s.virtuals[v].pte.Valid?
    && var t := s.virtuals[v].pte;
       && t.frame == s.virtuals[v].hw.frame && t.accessed && !t.changing && !t.trimming && !t.prot.ProtNone?
       && (write ==> s.virtuals[v].hw.writable && t.prot.ProtReadWrite?)
  }

  // ----- the stages of a fault ----------------------------------------------------

  /** What a fault in progress has to do next. */
  datatype Stage = ToCommitFirst | ToCommitRescue | ToFill | ToSettle | ToMap | ToFinish

  /** What the PTE was when the fault began.  A first touch has made it valid by
      now, and is mapped read-write whatever the access. */
  datatype Origin = FirstTouch | FromTransition | FromDisk

  predicate Came(t: Pte, origin: Origin) {
    match origin
    case FirstTouch => t.Valid?
    case FromTransition => t.Transition?
    case FromDisk => t.Disk?
  }

  predicate At(x: Virtual, stage: Stage, write: bool, origin: Origin) {
    match stage
    case ToCommitFirst => x.job.Claimed? && x.job.write == write
    case ToCommitRescue => x.job.Rescuing? && x.job.write == write && x.pte.Transition?
    case ToFill => x.job.Filling? && x.job.write == write
    case ToSettle => x.job.Filled? && x.job.write == write
    case ToMap => x.job.Ready? && x.job.write == write && Came(x.pte, origin)
    case ToFinish => x.job.Connecting? && x.job.write == write && Came(x.pte, origin)
  }

  predicate Fits(stage: Stage, origin: Origin) {
    match stage
    case ToCommitFirst => origin.FirstTouch?
    case ToCommitRescue => origin.FromTransition?
    case ToMap => true
    case ToFinish => true
    case _ => origin.FromDisk?
  }

  /** What a fault leaves behind when it connects a PTE; s is the state just
      before.  Except for first touches, only the PTE of a write is writable; its
      page has lost its slot.  The page of a write is marked modified, and any
      other new page is not.  A page that is read in keeps its slot, and one that
      is rescued is the one the PTE named. */
  predicate Connects(s: State, s': State, v: nat, write: bool, origin: Origin) {
    && v < |s.virtuals| && Granted(s', v, write || origin.FirstTouch?) && s'.virtuals[v].pte.frame < |s'.pages|
    && var t, t' := s.virtuals[v].pte, s'.virtuals[v].pte;
       var g := s'.pages[t'.frame];
       && g.status.Active? && g.pte == Some(v)
       && (!write && !origin.FirstTouch? ==> t'.prot.ProtRead? && !s'.virtuals[v].hw.writable)
       && (if origin.FromTransition? then write ==> g.modified else write <==> g.modified)
       && (write || origin.FirstTouch? ==> g.slot == 0)
       && match origin
          case FirstTouch => t.Valid?
          case FromTransition => t == Transition(t'.frame)
          case FromDisk => t.Disk? && (!write ==> g.slot == t.slot < |s'.slots| && s'.slots[t.slot].used)
  }

  function StageAction(stage: Stage, v: nat): Action {
    match stage
    case ToCommitFirst => Fault(DoCommitFirst(v))
    case ToCommitRescue => Fault(DoCommitRescue(v))
    case ToFill => Connect(DoFill(v))
    case ToSettle => Connect(DoSettle(v))
    case ToMap => Connect(DoMap(v))
    case ToFinish => Connect(DoFinish(v))
  }

  function NextStage(stage: Stage): Stage {
    match stage
    case ToFill => ToSettle
    case ToMap => ToFinish
    case _ => ToMap
  }

  lemma CommitFirstStep(s: State, v: nat)
    requires Sound(s) && CanCommitFirst(s, v)
    ensures SameSize(s, CommitFirst(s, v)) && CommitFirst(s, v).virtuals[v].pte.Valid?
    ensures CommitFirst(s, v).virtuals[v].job == Ready(s.virtuals[v].job.page, s.virtuals[v].job.write)
  {
    assert VirtualOk(s, v);
    DetachKeepsMine(s, s.virtuals[v].job.page);
  }

  /** At each stage the next step finds the state as it needs it. */
  lemma StageStep(s: State, v: nat, stage: Stage, write: bool, origin: Origin)
    requires Sound(s) && v < |s.virtuals| && At(s.virtuals[v], stage, write, origin) && !stage.ToFinish?
    requires Fits(stage, origin)
    ensures Enabled(s, StageAction(stage, v)) && SameSize(s, Apply(s, StageAction(stage, v)))
    ensures At(Apply(s, StageAction(stage, v)).virtuals[v], NextStage(stage), write, origin)
  {
    if stage.ToCommitFirst? {
      CommitFirstStep(s, v);
    } else {
      assert VirtualOk(s, v);
    }
  }

  lemma FinishConnects(s: State, v: nat, write: bool, origin: Origin)
    requires Sound(s) && v < |s.virtuals| && At(s.virtuals[v], ToFinish, write, origin)
    ensures CanFinish(s, v) && Connects(s, Finish(s, v), v, write, origin)
  {
    assert VirtualOk(s, v) && PageOk(s, s.virtuals[v].job.page);
    if s.virtuals[v].pte.Disk? { assert SlotOk(s, s.virtuals[v].pte.slot); }
  }

  // ----- batches of faults ------------------------------------------------------------

  /** The thread resolves faults for the PTEs in vs. */
  ghost predicate Faulting(m: Machine, vs: seq<nat>)
    reads m
  {
    && m.Valid() && Distinct(vs) && (forall k :: 0 <= k < |vs| ==> vs[k] < |m.s.virtuals|)
    && m.mine.faults == Elements(vs)
  }

  /** It holds nothing else. */
  ghost predicate Resolving(m: Machine, vs: seq<nat>)
    reads m
  {
    Faulting(m, vs) && m.mine.hands == {} && m.mine.locked == {}
  }

  /** Only the first PTE of a batch can be the accessed one. */
  ghost predicate AllAt(s: State, vs: seq<nat>, from: nat, to: nat, stage: Stage, write: bool, origin: Origin)
    requires to <= |vs|
  {
    forall k :: from <= k < to ==> vs[k] < |s.virtuals| && At(s.virtuals[vs[k]], stage, write && k == 0, origin)
  }

  lemma OthersKeepStage(s: State, s': State, me: Mine, vs: seq<nat>, from: nat, to: nat, stage: Stage, write: bool,
                        origin: Origin)
    requires Kept(s, s', me) && to <= |vs| && AllAt(s, vs, from, to, stage, write, origin)
    requires forall k :: from <= k < to ==> vs[k] in me.faults
    ensures AllAt(s', vs, from, to, stage, write, origin)
  {
  }

  /** A step for one PTE of the batch leaves the others where they are. */
  lemma StepKeepsRest(s: State, vs: seq<nat>, i: nat, stage: Stage, write: bool, origin: Origin)
    requires Sound(s) && Distinct(vs) && i < |vs| && Enabled(s, StageAction(stage, vs[i]))
    requires AllAt(s, vs, 0, i, NextStage(stage), write, origin) && AllAt(s, vs, i + 1, |vs|, stage, write, origin)
    ensures AllAt(Apply(s, StageAction(stage, vs[i])), vs, 0, i, NextStage(stage), write, origin)
    ensures AllAt(Apply(s, StageAction(stage, vs[i])), vs, i + 1, |vs|, stage, write, origin)
  {
    var rest := Only(Elements(vs) - {vs[i]});
    ForeignStepKeeps(s, StageAction(stage, vs[i]), rest);
    OthersKeepStage(s, Apply(s, StageAction(stage, vs[i])), rest, vs, 0, i, NextStage(stage), write, origin);
    OthersKeepStage(s, Apply(s, StageAction(stage, vs[i])), rest, vs, i + 1, |vs|, stage, write, origin);
  }

  lemma BatchStep(s: State, vs: seq<nat>, i: nat, stage: Stage, write: bool, origin: Origin)
    requires Sound(s) && Distinct(vs) && i < |vs| && !stage.ToFinish?
             && Fits(stage, origin)
    requires AllAt(s, vs, 0, i, NextStage(stage), write, origin) && AllAt(s, vs, i, |vs|, stage, write, origin)
    ensures Enabled(s, StageAction(stage, vs[i]))
    ensures var s' := Apply(s, StageAction(stage, vs[i]));
            && SameSize(s, s')
            && AllAt(s', vs, 0, i + 1, NextStage(stage), write, origin)
               && AllAt(s', vs, i + 1, |vs|, stage, write, origin)
  {
    StageStep(s, vs[i], stage, write && i == 0, origin);
    StepKeepsRest(s, vs, i, stage, write, origin);
  }

  lemma StageHolds(me: Mine, v: nat, stage: Stage)
    requires !stage.ToFinish?
    ensures Holding(me, StageAction(stage, v)) == me
  {
  }

  /** One loop of a handler: the same step for every PTE of the batch. */
  method Advance(m: Machine, vs: seq<nat>, stage: Stage, write: bool, origin: Origin)
    requires Resolving(m, vs) && AllAt(m.s, vs, 0, |vs|, stage, write, origin) && !stage.ToFinish?
    requires Fits(stage, origin)
    modifies m
    ensures Resolving(m, vs) && AllAt(m.s, vs, 0, |vs|, NextStage(stage), write, origin) && m.Later()
  {
    hide Inv, Lawful, Recorded, Justified, Kept;
    for i := 0 to |vs|
      invariant Resolving(m, vs) && m.Later()
      invariant AllAt(m.s, vs, 0, i, NextStage(stage), write, origin) && AllAt(m.s, vs, i, |vs|, stage, write, origin)
    {
      AdvanceOne(m, vs, i, stage, write, origin);
    }
  }

  method AdvanceOne(m: Machine, vs: seq<nat>, i: nat, stage: Stage, write: bool, origin: Origin)
    requires Resolving(m, vs) && i < |vs| && !stage.ToFinish? && Fits(stage, origin)
    requires AllAt(m.s, vs, 0, i, NextStage(stage), write, origin) && AllAt(m.s, vs, i, |vs|, stage, write, origin)
    modifies m
    ensures Resolving(m, vs) && m.Later()
    ensures AllAt(m.s, vs, 0, i + 1, NextStage(stage), write, origin)
            && AllAt(m.s, vs, i + 1, |vs|, stage, write, origin)
  {
    hide Lawful, Recorded, Justified, Kept;
    WaitAtStage(m, vs, i, stage, write, origin);
    BatchStep(m.s, vs, i, stage, write, origin);
    StageHolds(m.mine, vs[i], stage);
    m.Do(StageAction(stage, vs[i]));
  }

  method WaitAtStage(m: Machine, vs: seq<nat>, i: nat, stage: Stage, write: bool, origin: Origin)
    requires Resolving(m, vs) && i < |vs|
    requires AllAt(m.s, vs, 0, i, NextStage(stage), write, origin) && AllAt(m.s, vs, i, |vs|, stage, write, origin)
    modifies m
    ensures Resolving(m, vs) && m.Later()
    ensures AllAt(m.s, vs, 0, i, NextStage(stage), write, origin) && AllAt(m.s, vs, i, |vs|, stage, write, origin)
  {
    hide Inv, Lawful, Recorded, Justified;
    ghost var before := m.s;
    m.Others();
    OthersKeepStage(before, m.s, m.mine, vs, 0, i, NextStage(stage), write, origin);
    OthersKeepStage(before, m.s, m.mine, vs, i, |vs|, stage, write, origin);
  }

  /** The PTEs were connected at the given times, since the trace had length n. */
  ghost predicate ConnectedAt(trace: seq<State>, n: nat, vs: seq<nat>, times: seq<nat>, write: bool, origin: Origin) {
    && |times| == |vs|
    && (forall k :: 0 <= k < |vs| ==>
       && n <= times[k] < |trace| && 0 < times[k]
       && Connects(trace[times[k] - 1], trace[times[k]], vs[k], write && k == 0, origin))
  }

  lemma ConnectedMore(trace: seq<State>, longer: seq<State>, n: nat, vs: seq<nat>, times: seq<nat>, v: nat,
                      write: bool, origin: Origin)
    requires ConnectedAt(trace, n, vs, times, write, origin) && Extends(trace, longer)
    requires |longer| >= 2 && n <= |longer| - 1
    requires Connects(longer[|longer| - 2], longer[|longer| - 1], v, write && |vs| == 0, origin)
    ensures ConnectedAt(longer, n, vs + [v], times + [|longer| - 1], write, origin)
  {
    hide Connects;
  }

  /** The last loop of connect_batch_ptes_to_pages.  `times` are those right
      after each PTE was written: from then on it can be trimmed again. */
  method FinishAll(m: Machine, vs: seq<nat>, write: bool, origin: Origin) returns (ghost times: seq<nat>)
    requires Resolving(m, vs) && AllAt(m.s, vs, 0, |vs|, ToFinish, write, origin)
    modifies m
    ensures m.Valid() && m.Later() && Idle(m.mine)
    ensures ConnectedAt(m.trace, |old(m.trace)|, vs, times, write, origin)
  {
    hide Inv, Lawful, Recorded, Justified, Kept, At, Connects;
    times := [];
    assert vs[0..] == vs;
    for i := 0 to |vs|
      invariant m.Valid() && m.Later() && Distinct(vs)
      invariant m.mine.faults == Elements(vs[i..]) && m.mine.hands == {} && m.mine.locked == {}
      invariant AllAt(m.s, vs, i, |vs|, ToFinish, write, origin)
      invariant ConnectedAt(m.trace, |old(m.trace)|, vs[..i], times, write, origin)
    {
      ghost var trace := m.trace;
      FinishOne(m, vs, i, write, origin);
      ConnectedMore(trace, m.trace, |old(m.trace)|, vs[..i], times, vs[i], write, origin);
      assert vs[..i + 1] == vs[..i] + [vs[i]];
      times := times + [|m.trace| - 1];
    }
    assert vs[..|vs|] == vs;
  }

  method FinishOne(m: Machine, vs: seq<nat>, i: nat, write: bool, origin: Origin)
    requires m.Valid() && Distinct(vs) && i < |vs| && m.mine.faults == Elements(vs[i..]) && m.mine.hands == {}
             && m.mine.locked == {}
    requires AllAt(m.s, vs, i, |vs|, ToFinish, write, origin)
    modifies m
    ensures m.Valid() && m.Later() && m.mine.faults == Elements(vs[i + 1..]) && m.mine.hands == {}
            && m.mine.locked == {}
    ensures AllAt(m.s, vs, i + 1, |vs|, ToFinish, write, origin)
    ensures |m.trace| > |old(m.trace)| && |m.trace| >= 2
    ensures Connects(m.trace[|m.trace| - 2], m.s, vs[i], write && i == 0, origin)
  {
    hide Inv, Sound, Lawful, Recorded, Justified, Connects;
    ghost var before := m.s;
    InSuffix(vs, i);
    m.Others();
    m.ValidIsSound();
    OthersKeepStage(before, m.s, m.mine, vs, i, |vs|, ToFinish, write, origin);
    FinishStep(m.s, vs, i, write, origin);
    m.Do(Connect(DoFinish(vs[i])));
  }

  /** One PTE is finished, the later ones still have to be. */
  lemma FinishStep(s: State, vs: seq<nat>, i: nat, write: bool, origin: Origin)
    requires Sound(s) && Distinct(vs) && i < |vs| && AllAt(s, vs, i, |vs|, ToFinish, write, origin)
    ensures CanFinish(s, vs[i]) && SameSize(s, Finish(s, vs[i]))
    ensures Connects(s, Finish(s, vs[i]), vs[i], write && i == 0, origin)
    ensures AllAt(Finish(s, vs[i]), vs, i + 1, |vs|, ToFinish, write, origin)
  {
    var rest := Only(Elements(vs[i + 1..]));
    InSuffix(vs, i);
    FinishConnects(s, vs[i], write && i == 0, origin);
    ForeignStepKeeps(s, Connect(DoFinish(vs[i])), rest);
    OthersKeepStage(s, Finish(s, vs[i]), rest, vs, i + 1, |vs|, ToFinish, write, origin);
  }

  lemma InSuffix(vs: seq<nat>, i: nat)
    requires Distinct(vs) && i < |vs|
    ensures forall k :: i <= k < |vs| ==> vs[k] in Elements(vs[i..])
    ensures forall k :: i + 1 <= k < |vs| ==> vs[k] in Elements(vs[i + 1..])
    ensures Elements(vs[i..]) - {vs[i]} == Elements(vs[i + 1..]) && vs[i] !in Elements(vs[i + 1..])
  {
    assert forall k :: i <= k < |vs| ==> vs[k] == vs[i..][k - i];
    assert forall k :: i + 1 <= k < |vs| ==> vs[k] == vs[i + 1..][k - i - 1];
    assert vs[i..] == [vs[i]] + vs[i + 1..];
  }

  /** The thread has no fault in progress, no page in its arrays and no lock. */
  predicate Idle(me: Mine) {
    me.faults == {} && me.hands == {} && me.locked == {}
  }

  /** connect_batch_ptes_to_pages. */
  method ConnectBatch(m: Machine, vs: seq<nat>, write: bool, origin: Origin) returns (ghost times: seq<nat>)
    requires Resolving(m, vs) && AllAt(m.s, vs, 0, |vs|, ToMap, write, origin)
    modifies m
    ensures m.Valid() && m.Later() && Idle(m.mine)
    ensures ConnectedAt(m.trace, |old(m.trace)|, vs, times, write, origin)
  {
    Advance(m, vs, ToMap, write, origin);
    times := FinishAll(m, vs, write, origin);
  }

  // ----- sequences of PTEs and pages -----------------------------------------------

  function Prefix(xs: seq<nat>, n: nat): (r: seq<nat>)
    requires n <= |xs|
    ensures |r| == n && (forall k :: 0 <= k < n ==> r[k] == xs[k]) && (Distinct(xs) ==> Distinct(r))
    ensures forall x :: x in r ==> x in xs
  {
    xs[..n]
  }

  lemma Append(xs: seq<nat>, x: nat)
    requires Distinct(xs) && x !in xs
    ensures Distinct(xs + [x]) && Elements(xs + [x]) == Elements(xs) + {x}
  {
  }
}
