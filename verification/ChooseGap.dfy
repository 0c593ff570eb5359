/** The trimmer decides on a page that is on its way to disk in two parts, which
    the protocol takes as one step.  Others can go on in the gap: what stays
    right, and what goes wrong. */
module ChooseGap {
  import opened PageState
  import opened Protocol
  import opened Invariant
  import opened WriterSteps
  import opened Interference
  import opened Refinement
  import opened Assertions
  import opened Runs

  /** The first part of Choose for a page in flight: the page may go to standby
      from now on. */
  function ChooseStatus(s: State, v: nat): State
    requires Typed(s) && CanChoose(s, v) && s.virtuals[v].pte.Valid?
  {
    var p := s.virtuals[v].pte.frame;
    PutPage(Put(s, v, s.virtuals[v].(trim := Listed)), p, s.pages[p].(status := Modified))
  }

  /** The second part: it is unmapped. */
  function ChooseUnmap(s: State, v: nat): State
    requires v < |s.virtuals|
  {
    Put(s, v, s.virtuals[v].(hw := Unmapped))
  }

  lemma ChooseInParts(s: State, v: nat)
    requires Typed(s) && CanChoose(s, v) && s.virtuals[v].pte.Valid? && InFlight(s.pages[s.virtuals[v].pte.frame])
    ensures ChooseUnmap(ChooseStatus(s, v), v) == Choose(s, v)
  {
    assert ChooseUnmap(ChooseStatus(s, v), v).virtuals == Choose(s, v).virtuals;
  }

  /** Virtual page v is still mapped read-only to a page it was unmapped from. */
  function Stale(s: State, v: nat, p: nat): State
    requires v < |s.virtuals|
  {
    Put(s, v, s.virtuals[v].(hw := Mapped(p, false)))
  }

  lemma ChooseStatusIsStale(s: State, v: nat)
    requires Sound(s) && CanChoose(s, v) && s.virtuals[v].pte.Valid?
    requires InFlight(s.pages[s.virtuals[v].pte.frame])
    ensures ChooseStatus(s, v) == Stale(Choose(s, v), v, s.virtuals[v].pte.frame)
  {
    assert VirtualOk(s, v);
    assert ChooseStatus(s, v).virtuals == Stale(Choose(s, v), v, s.virtuals[v].pte.frame).virtuals;
  }

  /** Steps that others can take in the gap, and that do not map the page anew. */
  predicate Beside(a: Action, v: nat) {
    !a.Trim? && a != Connect(DoMap(v)) && a != Fault(DoRemap(v))
  }

  /** They do the same whether the old mapping is still there or not. */
  ghost predicate Commutes(s: State, v: nat, p: nat, a: Action)
    requires Typed(s) && Enabled(s, a) && v < |s.virtuals| && p < |s.pages|
  {
    && Typed(Stale(s, v, p)) && Enabled(Stale(s, v, p), a)
    && v < |Apply(s, a).virtuals| && Apply(s, a).virtuals[v].hw.Unmapped?
    && Apply(Stale(s, v, p), a) == Stale(Apply(s, a), v, p)
  }

  lemma StaleTyped(s: State, v: nat, p: nat)
    requires Typed(s) && v < |s.virtuals| && p < |s.pages|
    ensures Typed(Stale(s, v, p))
  {
  }

  lemma ValidFaultCommutes(s: State, v: nat, p: nat, a: FaultAction)
    requires Typed(s) && FaultEnabled(s, a) && v < |s.virtuals| && p < |s.pages| && s.virtuals[v].hw.Unmapped?
    requires a.DoClaimChange? || (a.DoRemap? && a.v != v) || a.DoFinishChange? || a.DoReserve? || a.DoReturn?
    ensures Commutes(s, v, p, Fault(a))
  {
    StaleTyped(s, v, p);
    assert FaultApply(Stale(s, v, p), a).virtuals == Stale(FaultApply(s, a), v, p).virtuals;
  }

  lemma ClaimCommutes(s: State, v: nat, p: nat, a: FaultAction)
    requires Typed(s) && FaultEnabled(s, a) && v < |s.virtuals| && p < |s.pages| && s.virtuals[v].hw.Unmapped?
    requires a.DoClaimFirst?
    ensures Commutes(s, v, p, Fault(a))
  {
    StaleTyped(s, v, p);
    assert FaultApply(Stale(s, v, p), a).virtuals == Stale(FaultApply(s, a), v, p).virtuals;
  }

  lemma DetachCommutes(s: State, v: nat, p: nat, g: Page)
    requires Typed(s) && PageTyped(g, |s.virtuals|, |s.slots|) && v < |s.virtuals| && s.virtuals[v].hw.Unmapped?
    ensures var s' := DetachOldPte(s, g);
            && |s'.virtuals| == |s.virtuals| && s'.virtuals[v].hw.Unmapped? && s'.pages == s.pages
            && DetachOldPte(Stale(s, v, p), g) == Stale(s', v, p)
  {
    assert DetachOldPte(Stale(s, v, p), g).virtuals == Stale(DetachOldPte(s, g), v, p).virtuals;
  }

  lemma CommitFirstCommutes(s: State, v: nat, p: nat, a: FaultAction)
    requires Typed(s) && FaultEnabled(s, a) && v < |s.virtuals| && p < |s.pages| && s.virtuals[v].hw.Unmapped?
    requires a.DoCommitFirst?
    ensures Commutes(s, v, p, Fault(a))
  {
    hide DetachOldPte;
    StaleTyped(s, v, p);
    DetachCommutes(s, v, p, s.pages[s.virtuals[a.v].job.page]);
    assert FaultApply(Stale(s, v, p), a).virtuals == Stale(FaultApply(s, a), v, p).virtuals;
  }

  lemma RescueCommutes(s: State, v: nat, p: nat, a: FaultAction)
    requires Typed(s) && FaultEnabled(s, a) && v < |s.virtuals| && p < |s.pages| && s.virtuals[v].hw.Unmapped?
    requires a.DoRescue?
    ensures Commutes(s, v, p, Fault(a))
  {
    StaleTyped(s, v, p);
    assert FaultApply(Stale(s, v, p), a).virtuals == Stale(FaultApply(s, a), v, p).virtuals;
  }

  lemma CommitRescueCommutes(s: State, v: nat, p: nat, a: FaultAction)
    requires Typed(s) && FaultEnabled(s, a) && v < |s.virtuals| && p < |s.pages| && s.virtuals[v].hw.Unmapped?
    requires a.DoCommitRescue?
    ensures Commutes(s, v, p, Fault(a))
  {
    StaleTyped(s, v, p);
    assert FaultApply(Stale(s, v, p), a).virtuals == Stale(FaultApply(s, a), v, p).virtuals;
  }

  lemma FaultCommutes(s: State, v: nat, p: nat, a: FaultAction)
    requires Typed(s) && FaultEnabled(s, a) && v < |s.virtuals| && p < |s.pages| && s.virtuals[v].hw.Unmapped?
    requires a != DoRemap(v)
    ensures Commutes(s, v, p, Fault(a))
  {
    hide Commutes, Typed;
    match a
    case DoClaimFirst(_, _, _) => ClaimCommutes(s, v, p, a);
    case DoCommitFirst(_) => CommitFirstCommutes(s, v, p, a);
    case DoRescue(_, _, _) => RescueCommutes(s, v, p, a);
    case DoCommitRescue(_) => CommitRescueCommutes(s, v, p, a);
    case _ => ValidFaultCommutes(s, v, p, a);
  }

  lemma RightCommutes(s: State, v: nat, p: nat, a: ConnectAction)
    requires Typed(s) && ConnectEnabled(s, a) && v < |s.virtuals| && p < |s.pages| && s.virtuals[v].hw.Unmapped?
    requires a.DoTakeRight? || a.DoDropRight?
    ensures Commutes(s, v, p, Connect(a))
  {
    StaleTyped(s, v, p);
    assert ConnectApply(Stale(s, v, p), a).virtuals == Stale(ConnectApply(s, a), v, p).virtuals;
  }

  lemma CommitDiskCommutes(s: State, v: nat, p: nat, a: ConnectAction)
    requires Typed(s) && ConnectEnabled(s, a) && v < |s.virtuals| && p < |s.pages| && s.virtuals[v].hw.Unmapped?
    requires a.DoCommitDisk?
    ensures Commutes(s, v, p, Connect(a))
  {
    StaleTyped(s, v, p);
    assert ConnectApply(Stale(s, v, p), a).virtuals == Stale(ConnectApply(s, a), v, p).virtuals;
  }

  lemma SettleCommutes(s: State, v: nat, p: nat, a: ConnectAction)
    requires Typed(s) && ConnectEnabled(s, a) && v < |s.virtuals| && p < |s.pages| && s.virtuals[v].hw.Unmapped?
    requires a.DoSettle?
    ensures Commutes(s, v, p, Connect(a))
  {
    StaleTyped(s, v, p);
    assert ConnectApply(Stale(s, v, p), a).virtuals == Stale(ConnectApply(s, a), v, p).virtuals;
  }

  lemma FillingCommutes(s: State, v: nat, p: nat, a: ConnectAction)
    requires Typed(s) && ConnectEnabled(s, a) && v < |s.virtuals| && p < |s.pages| && s.virtuals[v].hw.Unmapped?
    requires a.DoFill? || (a.DoMap? && a.v != v) || a.DoFinish?
    ensures Commutes(s, v, p, Connect(a))
  {
    StaleTyped(s, v, p);
    assert ConnectApply(Stale(s, v, p), a).virtuals == Stale(ConnectApply(s, a), v, p).virtuals;
  }

  lemma ConnectCommutes(s: State, v: nat, p: nat, a: ConnectAction)
    requires Typed(s) && ConnectEnabled(s, a) && v < |s.virtuals| && p < |s.pages| && s.virtuals[v].hw.Unmapped?
    requires a != DoMap(v)
    ensures Commutes(s, v, p, Connect(a))
  {
    hide Commutes, Typed;
    match a
    case DoTakeRight(_) => RightCommutes(s, v, p, a);
    case DoDropRight(_) => RightCommutes(s, v, p, a);
    case DoCommitDisk(_, _, _) => CommitDiskCommutes(s, v, p, a);
    case DoSettle(_) => SettleCommutes(s, v, p, a);
    case _ => FillingCommutes(s, v, p, a);
  }

  lemma WriterCommutes(s: State, v: nat, p: nat, a: WriterAction)
    requires Typed(s) && WriterEnabled(s, a) && v < |s.virtuals| && p < |s.pages| && s.virtuals[v].hw.Unmapped?
    ensures Commutes(s, v, p, Writer(a))
  {
    StaleTyped(s, v, p);
    assert WriterApply(Stale(s, v, p), a).virtuals == Stale(WriterApply(s, a), v, p).virtuals;
  }

  lemma RefillCommutes(s: State, v: nat, p: nat, a: RefillAction)
    requires Typed(s) && RefillEnabled(s, a) && v < |s.virtuals| && p < |s.pages| && s.virtuals[v].hw.Unmapped?
    ensures Commutes(s, v, p, Refill(a))
  {
    StaleTyped(s, v, p);
    assert RefillApply(Stale(s, v, p), a).virtuals == Stale(RefillApply(s, a), v, p).virtuals;
  }

  lemma UserCommutes(s: State, v: nat, p: nat, a: UserAction)
    requires Typed(s) && UserEnabled(s, a) && v < |s.virtuals| && p < |s.pages| && s.virtuals[v].hw.Unmapped?
    ensures Commutes(s, v, p, User(a))
  {
    StaleTyped(s, v, p);
    assert UserApply(Stale(s, v, p), a).virtuals == Stale(UserApply(s, a), v, p).virtuals;
  }

  lemma StepCommutes(s: State, v: nat, p: nat, a: Action)
    requires Typed(s) && Enabled(s, a) && v < |s.virtuals| && p < |s.pages| && s.virtuals[v].hw.Unmapped?
    requires Beside(a, v)
    ensures Commutes(s, v, p, a)
  {
    hide Commutes, Typed;
    match a
    case User(b) => UserCommutes(s, v, p, b);
    case Fault(b) => FaultCommutes(s, v, p, b);
    case Connect(b) => ConnectCommutes(s, v, p, b);
    case Writer(b) => WriterCommutes(s, v, p, b);
    case Refill(b) => RefillCommutes(s, v, p, b);
  }

  // ----- what happens in the gap -------------------------------------------------------------

  lemma {:induction false} GapRuns(s: State, mem: Memory, v: nat, p: nat, steps: seq<Action>)
    requires Inv(s, mem) && AllPossible(s, steps) && v < |s.virtuals| && p < |s.pages| && s.virtuals[v].hw.Unmapped?
    requires forall k :: 0 <= k < |steps| ==> Beside(steps[k], v)
    ensures var s' := Run(s, steps);
            && Inv(s', FlatRun(mem, steps)) && v < |s'.virtuals| && p < |s'.pages| && s'.virtuals[v].hw.Unmapped?
            && AllPossible(Stale(s, v, p), steps) && Run(Stale(s, v, p), steps) == Stale(s', v, p)
    decreases |steps|
  {
    if steps != [] {
      var before, a := steps[..|steps| - 1], steps[|steps| - 1];
      GapRuns(s, mem, v, p, before);
      var mid := Run(s, before);
      StepKeeps(mid, FlatRun(mem, before), a);
      StepCommutes(mid, v, p, a);
      ForeignStepKeeps(mid, a, Only({}));
    }
  }

  /** What can be done while the old mapping is there could be done without it,
      except to read through it. */
  lemma EnabledUnmapped(s: State, v: nat, p: nat, a: Action)
    requires Typed(s) && v < |s.virtuals| && p < |s.pages| && s.virtuals[v].hw.Unmapped?
    requires Enabled(Stale(s, v, p), a) && Beside(a, v)
    ensures Enabled(s, a) || (a.User? && a.user.DoUserRead?)
  {
  }

  lemma {:induction false} GapRunsBack(s: State, mem: Memory, v: nat, p: nat, steps: seq<Action>)
    requires Inv(s, mem) && v < |s.virtuals| && p < |s.pages| && s.virtuals[v].hw.Unmapped?
    requires AllPossible(Stale(s, v, p), steps) && forall k :: 0 <= k < |steps| ==> Beside(steps[k], v)
    ensures var s' := Run(s, steps);
            && Inv(s', FlatRun(mem, steps)) && v < |s'.virtuals| && p < |s'.pages| && s'.virtuals[v].hw.Unmapped?
            && Run(Stale(s, v, p), steps) == Stale(s', v, p)
    decreases |steps|
  {
    if steps != [] {
      var before, a := steps[..|steps| - 1], steps[|steps| - 1];
      GapRunsBack(s, mem, v, p, before);
      var mid := Run(s, before);
      EnabledUnmapped(mid, v, p, a);
      if Enabled(mid, a) {
        StepKeeps(mid, FlatRun(mem, before), a);
        StepCommutes(mid, v, p, a);
        ForeignStepKeeps(mid, a, Only({}));
      }
    }
  }

  /** Between the parts of Choose, whatever others do: the rest of the machine goes
      on as if the page were unmapped, and a read through the old mapping gets
      what it should as long as the page is that of the virtual page, by its
      PTE or in a fault, and is not being filled. */
  lemma ReadsInGap(s: State, mem: Memory, v: nat, steps: seq<Action>)
    requires Inv(s, mem) && CanChoose(s, v) && s.virtuals[v].pte.Valid?
    requires InFlight(s.pages[s.virtuals[v].pte.frame])
    requires AllPossible(ChooseStatus(s, v), steps) && forall k :: 0 <= k < |steps| ==> Beside(steps[k], v)
    ensures var p, s' := s.virtuals[v].pte.frame, Run(ChooseStatus(s, v), steps);
            && Inv(Run(Choose(s, v), steps), FlatRun(mem, steps))
            && v < |s'.virtuals| && p < |s'.pages| && v < |FlatRun(mem, steps)|
            && |Run(Choose(s, v), steps).virtuals| > v && s' == Stale(Run(Choose(s, v), steps), v, p)
            && (HomeOf(s'.virtuals[v]) == Some(p) && !s'.virtuals[v].job.Filling? ==>
                  s'.pages[p].bytes == FlatRun(mem, steps)[v])
  {
    hide AllPossible, Run, FlatRun;
    var p := s.virtuals[v].pte.frame;
    ChooseStatusIsStale(s, v);
    ChooseIsFine(s, mem, v);
    GapRunsBack(Choose(s, v), mem, v, p, steps);
    HomeHolds(Run(Choose(s, v), steps), FlatRun(mem, steps), v);
  }

  lemma ChooseIsFine(s: State, mem: Memory, v: nat)
    requires Inv(s, mem) && CanChoose(s, v) && s.virtuals[v].pte.Valid?
    requires InFlight(s.pages[s.virtuals[v].pte.frame])
    ensures Inv(Choose(s, v), mem) && v < |Choose(s, v).virtuals| && Choose(s, v).virtuals[v].hw.Unmapped?
    ensures s.virtuals[v].pte.frame < |Choose(s, v).pages|
  {
    StepKeeps(s, mem, Trim(DoChoose(v)));
  }

  lemma HomeHolds(s: State, mem: Memory, v: nat)
    requires Inv(s, mem) && v < |s.virtuals|
    ensures v < |mem|
    ensures HomeOf(s.virtuals[v]).Some? && !s.virtuals[v].job.Filling? ==>
              && HomeOf(s.virtuals[v]).value < |s.pages|
              && s.pages[HomeOf(s.virtuals[v]).value].bytes == mem[v]
  {
    assert ContentsOk(s, mem, v);
  }

  /** The writer completes the page, which goes to standby; the refresher gives
      it away; a fault gets it for virtual page 1, and the user writes to it. */
  const GIVEN_AWAY: seq<Action> := [
    Writer(DoComplete(0)), Refill(DoTakeOld(0)), Refill(DoDetach(0)), Refill(DoAddFree(0)),
    Fault(DoReserve(0)), Fault(DoClaimFirst(1, 0, true)), Fault(DoCommitFirst(1)),
    Connect(DoMap(1)), Connect(DoFinish(1)), User(DoUserWrite(1, 0, 7))]

  /** Then it does not: virtual page 0 is still mapped, and a read there gets the
      word that was written to virtual page 1. */
  lemma ChooseGapCanFail() returns (s: State)
    ensures Reachable(s) && Typed(s) && CanChoose(s, 0) && s.virtuals[0].pte == Valid(0, ProtRead, true, false, true)
    ensures InFlight(s.pages[0]) && AllPossible(ChooseStatus(s, 0), GIVEN_AWAY)
    ensures var s' := Run(ChooseStatus(s, 0), GIVEN_AWAY);
            && |s'.virtuals| == 2 && |s'.pages| == 1
            && s'.virtuals[0].hw == Mapped(0, false) && Word(s'.pages[0].bytes, 0) == 7
  {
    hide Reachable, AllPossible, Run, FlatRun;
    s := MarkedInFlight();
    var mem := ReachableInv(s);
    OneStep(s, Trim(DoChoose(0)));
    var s' := GivenAway(Choose(s, 0));
    AllBeside();
    ChooseIsFine(s, mem, 0);
    ChooseStatusIsStale(s, 0);
    GapRuns(Choose(s, 0), mem, 0, 0, GIVEN_AWAY);
  }

  lemma AllBeside()
    ensures forall k :: 0 <= k < |GIVEN_AWAY| ==> Beside(GIVEN_AWAY[k], 0)
  {
  }

  /** The page that was rescued for a read is about to be trimmed. */
  lemma MarkedInFlight() returns (s: State)
    ensures Reachable(s) && Typed(s) && |s.virtuals| == 2 && |s.pages| == 1 && |s.slots| == 4
    ensures s.virtuals == [Virtual(Valid(0, ProtRead, true, false, true), Mapped(0, false), NoJob, Trim.Marked),
                           Virtual(Unused, Unmapped, NoJob, NoTrim)]
    ensures s.pages == [Page(Active, 0, true, false, Some(0), ZERO_PAGE, Nobody)]
    ensures s.batch == [Entry(0, 1, true, false)] && s.writing && s.lists == Lists({}, {}, {}, {}, 0)
  {
    hide Reachable, Typed;
    s := CopiedAndRescued();
    OneStep(s, Trim(DoMark(0)));
    s := Mark(s, 0);
  }

  lemma GivenAway(s: State) returns (s': State)
    requires Reachable(s) && Typed(s) && |s.virtuals| == 2 && |s.pages| == 1 && |s.slots| == 4
    requires s.virtuals == [Virtual(Valid(0, ProtRead, true, false, true), Unmapped, NoJob, Listed),
                            Virtual(Unused, Unmapped, NoJob, NoTrim)]
    requires s.pages == [Page(Modified, 0, true, false, Some(0), ZERO_PAGE, Nobody)]
    requires s.batch == [Entry(0, 1, true, false)] && s.writing && s.lists == Lists({}, {}, {}, {}, 0)
    ensures AllPossible(s, GIVEN_AWAY) && s' == Run(s, GIVEN_AWAY)
    ensures |s'.virtuals| == 2 && |s'.pages| == 1 && Word(s'.pages[0].bytes, 0) == 7
  {
    hide Reachable, Typed, AllPossible, Run;
    var mid := ClaimedAgain(s);
    s' := Further(s, GIVEN_AWAY[..7], mid, Connect(DoMap(1)));
    assert GIVEN_AWAY[..7] + [Connect(DoMap(1))] == GIVEN_AWAY[..8];
    s' := Further(s, GIVEN_AWAY[..8], s', Connect(DoFinish(1)));
    assert GIVEN_AWAY[..8] + [Connect(DoFinish(1))] == GIVEN_AWAY[..9];
    s' := Further(s, GIVEN_AWAY[..9], s', User(DoUserWrite(1, 0, 7)));
    assert GIVEN_AWAY[..9] + [User(DoUserWrite(1, 0, 7))] == GIVEN_AWAY[..10];
    assert GIVEN_AWAY[..10] == GIVEN_AWAY;
  }

  lemma ClaimedAgain(s: State) returns (s': State)
    requires Reachable(s) && Typed(s) && |s.virtuals| == 2 && |s.pages| == 1 && |s.slots| == 4
    requires s.virtuals == [Virtual(Valid(0, ProtRead, true, false, true), Unmapped, NoJob, Listed),
                            Virtual(Unused, Unmapped, NoJob, NoTrim)]
    requires s.pages == [Page(Modified, 0, true, false, Some(0), ZERO_PAGE, Nobody)]
    requires s.batch == [Entry(0, 1, true, false)] && s.writing && s.lists == Lists({}, {}, {}, {}, 0)
    ensures Reachable(s') && Typed(s') && AllPossible(s, GIVEN_AWAY[..7]) && s' == Run(s, GIVEN_AWAY[..7])
    ensures |s'.virtuals| == 2 && |s'.pages| == 1
    ensures s'.virtuals[1] == Virtual(Valid(0, ProtNone, false, true, false), Unmapped, Ready(0, true), NoTrim)
  {
    hide Reachable, Typed, AllPossible, Run;
    var mid := MadeFree(s);
    s' := Further(s, GIVEN_AWAY[..4], mid, Fault(DoReserve(0)));
    assert GIVEN_AWAY[..4] + [Fault(DoReserve(0))] == GIVEN_AWAY[..5];
    s' := Further(s, GIVEN_AWAY[..5], s', Fault(DoClaimFirst(1, 0, true)));
    assert GIVEN_AWAY[..5] + [Fault(DoClaimFirst(1, 0, true))] == GIVEN_AWAY[..6];
    s' := Further(s, GIVEN_AWAY[..6], s', Fault(DoCommitFirst(1)));
    assert GIVEN_AWAY[..6] + [Fault(DoCommitFirst(1))] == GIVEN_AWAY[..7];
  }

  lemma MadeFree(s: State) returns (s': State)
    requires Reachable(s) && Typed(s) && |s.virtuals| == 2 && |s.pages| == 1 && |s.slots| == 4
    requires s.virtuals == [Virtual(Valid(0, ProtRead, true, false, true), Unmapped, NoJob, Listed),
                            Virtual(Unused, Unmapped, NoJob, NoTrim)]
    requires s.pages == [Page(Modified, 0, true, false, Some(0), ZERO_PAGE, Nobody)]
    requires s.batch == [Entry(0, 1, true, false)] && s.writing && s.lists == Lists({}, {}, {}, {}, 0)
    ensures Reachable(s') && Typed(s') && AllPossible(s, GIVEN_AWAY[..4]) && s' == Run(s, GIVEN_AWAY[..4])
    ensures |s'.virtuals| == 2 && s'.virtuals[1] == Virtual(Unused, Unmapped, NoJob, NoTrim)
    ensures s'.pages == [Page(Free, 1, false, false, None, ZERO_PAGE, Nobody)] && s'.lists.free == {0}
    ensures 0 !in s'.lists.zero
  {
    hide Reachable, Typed, AllPossible, Run;
    NothingRun(s);
    s' := Further(s, [], s, Writer(DoComplete(0)));
    assert [] + [Writer(DoComplete(0))] == GIVEN_AWAY[..1];
    s' := Further(s, GIVEN_AWAY[..1], s', Refill(DoTakeOld(0)));
    assert GIVEN_AWAY[..1] + [Refill(DoTakeOld(0))] == GIVEN_AWAY[..2];
    s' := Further(s, GIVEN_AWAY[..2], s', Refill(DoDetach(0)));
    assert GIVEN_AWAY[..2] + [Refill(DoDetach(0))] == GIVEN_AWAY[..3];
    s' := Further(s, GIVEN_AWAY[..3], s', Refill(DoAddFree(0)));
    assert GIVEN_AWAY[..3] + [Refill(DoAddFree(0))] == GIVEN_AWAY[..4];
  }
}
