/** Pieces of runs, for the states in which a check of the source fails. */
module Runs {
  import opened PageState
  import opened Protocol
  import opened Invariant
  import opened WriterSteps
  import opened Refinement
  import opened Assertions

  /** One more step of a run. */
  lemma OneStep(s: State, a: Action)
    requires Reachable(s) && Typed(s) && Enabled(s, a)
    ensures Reachable(Apply(s, a)) && Typed(Apply(s, a))
  {
    var virtualPages: nat, frames: nat, actions :| s == Run(Initial(virtualPages, frames), actions);
    var more := actions + [a];
    assert more[..|more| - 1] == actions;
    assert Apply(s, a) == Run(Initial(virtualPages, frames), more);
    var mem := ReachableInv(Apply(s, a));
  }

  lemma InitialIsReachable(virtualPages: nat, frames: nat)
    ensures Reachable(Initial(virtualPages, frames)) && Typed(Initial(virtualPages, frames))
  {
    assert Initial(virtualPages, frames) == Run(Initial(virtualPages, frames), []);
    var mem := ReachableInv(Initial(virtualPages, frames));
  }

  /** Mapped read-write, and nobody is at work on it. */
  function InUse(p: nat): Virtual {
    Virtual(Valid(p, ProtReadWrite, true, false, false), Mapped(p, true), NoJob, NoTrim)
  }

  function Trimmed(p: nat): Virtual {
    Virtual(Transition(p), Unmapped, NoJob, NoTrim)
  }

  /** A first touch that writes, from a zero list. */
  lemma FirstTouch(s: State, v: nat, p: nat) returns (s': State)
    requires Reachable(s) && Typed(s) && v < |s.virtuals| && s.virtuals[v] == Virtual(Unused, Unmapped, NoJob, NoTrim)
    requires p < |s.pages| && s.pages[p].hand.Nobody? && s.pages[p].status.Zero? && p in s.lists.zero
    ensures Reachable(s') && Typed(s')
    ensures s'.virtuals == s.virtuals[v := InUse(p)]
    ensures s'.pages == s.pages[p := s.pages[p].(status := Active, slot := 0, modified := true, pte := Some(v))]
    ensures s'.slots == s.slots && s'.batch == s.batch && s'.writing == s.writing
    ensures s'.lists == s.lists.(zero := s.lists.zero - {p}, available := s.lists.available - 1)
  {
    hide Reachable, Typed;
    OneStep(s, Fault(DoReserve(p)));
    s' := Reserve(s, p);
    OneStep(s', Fault(DoClaimFirst(v, p, true)));
    s' := ClaimFirst(s', v, p, true);
    OneStep(s', Fault(DoCommitFirst(v)));
    s' := CommitFirst(s', v);
    OneStep(s', Connect(DoMap(v)));
    s' := Map(s', v);
    OneStep(s', Connect(DoFinish(v)));
    s' := Finish(s', v);
  }

  /** A dirty page is trimmed. */
  lemma TrimOut(s: State, v: nat, p: nat) returns (s': State)
    requires Reachable(s) && Typed(s) && v < |s.virtuals| && p < |s.pages| && s.virtuals[v] == InUse(p)
    requires s.pages[p].slot == 0 && s.pages[p].modified
    ensures Reachable(s') && Typed(s')
    ensures s'.virtuals == s.virtuals[v := Trimmed(p)]
    ensures s'.pages == s.pages[p := s.pages[p].(status := Modified)]
    ensures s'.slots == s.slots && s'.batch == s.batch && s'.writing == s.writing
    ensures s'.lists == s.lists.(modified := s.lists.modified + {p})
  {
    hide Reachable, Typed;
    OneStep(s, Trim(DoMark(v)));
    s' := Mark(s, v);
    OneStep(s', Trim(DoChoose(v)));
    s' := Choose(s', v);
    OneStep(s', Trim(DoUnhook(v)));
    s' := Unhook(s', v);
    OneStep(s', Trim(DoList(v)));
    s' := List(s', v);
    OneStep(s', Trim(DoCopy(v)));
    s' := Copy(s', v);
    OneStep(s', Trim(DoSwap(v)));
    s' := Swap(s', v);
  }

  /** A page on its way to disk is rescued for a write. */
  lemma RescueBack(s: State, v: nat, p: nat) returns (s': State)
    requires Reachable(s) && Typed(s) && v < |s.virtuals| && p < |s.pages| && s.virtuals[v] == Trimmed(p)
    requires s.pages[p].pte == Some(v) && s.pages[p].hand.Nobody? && s.pages[p].status.Modified? && InFlight(s.pages[p])
    ensures Reachable(s') && Typed(s')
    ensures s'.virtuals == s.virtuals[v := InUse(p)]
    ensures s'.pages == s.pages[p := s.pages[p].(status := Active, slot := 0, modified := true)]
    ensures s'.slots == s.slots && s'.batch == s.batch && s'.writing == s.writing && s'.lists == s.lists
  {
    hide Reachable, Typed;
    OneStep(s, Fault(DoRescue(v, p, true)));
    s' := Rescue(s, v, p, true);
    OneStep(s', Fault(DoCommitRescue(v)));
    s' := CommitRescue(s', v);
    OneStep(s', Connect(DoMap(v)));
    s' := Map(s', v);
    OneStep(s', Connect(DoFinish(v)));
    s' := Finish(s', v);
  }

  /** The same for a read: it is mapped read-only, and stays unmodified. */
  lemma RescueToRead(s: State, v: nat, p: nat) returns (s': State)
    requires Reachable(s) && Typed(s) && v < |s.virtuals| && p < |s.pages| && s.virtuals[v] == Trimmed(p)
    requires s.pages[p].pte == Some(v) && s.pages[p].hand.Nobody? && s.pages[p].status.Modified? && InFlight(s.pages[p])
    ensures Reachable(s') && Typed(s')
    ensures s'.virtuals
            == s.virtuals[v := Virtual(Valid(p, ProtRead, true, false, false), Mapped(p, false), NoJob, NoTrim)]
    ensures s'.pages == s.pages[p := s.pages[p].(status := Active)]
    ensures s'.slots == s.slots && s'.batch == s.batch && s'.writing == s.writing && s'.lists == s.lists
  {
    hide Reachable, Typed;
    OneStep(s, Fault(DoRescue(v, p, false)));
    s' := Rescue(s, v, p, false);
    OneStep(s', Fault(DoCommitRescue(v)));
    s' := CommitRescue(s', v);
    OneStep(s', Connect(DoMap(v)));
    s' := Map(s', v);
    OneStep(s', Connect(DoFinish(v)));
    s' := Finish(s', v);
  }

  /** A step of the modified writer. */
  lemma WriterStep(s: State, a: WriterAction) returns (s': State)
    requires Reachable(s) && Typed(s) && WriterEnabled(s, a)
    ensures Reachable(s') && Typed(s') && s' == WriterApply(s, a)
  {
    OneStep(s, Writer(a));
    s' := WriterApply(s, a);
  }

  lemma RefillStep(s: State, a: RefillAction) returns (s': State)
    requires Reachable(s) && Typed(s) && RefillEnabled(s, a)
    ensures Reachable(s') && Typed(s') && s' == RefillApply(s, a)
  {
    OneStep(s, Refill(a));
    s' := RefillApply(s, a);
  }

  /** Free slots will do as an allotment, if there are as many as pages. */
  lemma AnyFreeSlotsWillDo(s: State, slots: seq<nat>)
    requires Reachable(s) && !s.writing && |s.batch| > 0 && FreeSlots(s, slots) && |slots| == |s.batch|
    ensures CanAllot(s, slots)
  {
    var mem := ReachableInv(s);
    SlotsSuffice(s);
  }

  // ----- runs from a state on ------------------------------------------------------------------

  /** The steps are all possible, one after the other. */
  ghost predicate AllPossible(s: State, steps: seq<Action>)
    decreases |steps|
  {
    steps == [] ||
    (var before := steps[..|steps| - 1];
     var mid := Run(s, before);
     AllPossible(s, before) && Typed(mid) && Enabled(mid, steps[|steps| - 1]))
  }

  lemma OneMorePossible(s: State, steps: seq<Action>, a: Action)
    requires AllPossible(s, steps) && Typed(Run(s, steps)) && Enabled(Run(s, steps), a)
    ensures AllPossible(s, steps + [a]) && Run(s, steps + [a]) == Apply(Run(s, steps), a)
  {
    assert (steps + [a])[..|steps|] == steps;
  }

  lemma NothingRun(s: State)
    ensures AllPossible(s, []) && Run(s, []) == s
  {
  }

  /** One more step of the run that began at s. */
  lemma Further(s: State, steps: seq<Action>, mid: State, a: Action) returns (next: State)
    requires Reachable(mid) && Typed(mid) && Enabled(mid, a) && AllPossible(s, steps) && Run(s, steps) == mid
    ensures next == Apply(mid, a) && Reachable(next) && Typed(next)
    ensures AllPossible(s, steps + [a]) && Run(s, steps + [a]) == next
  {
    OneMorePossible(s, steps, a);
    OneStep(mid, a);
    next := Apply(mid, a);
  }

  /** Flat memory after the same steps. */
  function FlatRun(mem: Memory, steps: seq<Action>): Memory
    decreases |steps|
  {
    if steps == [] then mem else FlatStep(FlatRun(mem, steps[..|steps| - 1]), steps[|steps| - 1])
  }

  /** Two virtual pages and one frame, whose page was copied to slot 1, and in the
      meantime rescued for a read. */
  lemma CopiedAndRescued() returns (s: State)
    ensures Reachable(s) && Typed(s) && |s.virtuals| == 2 && |s.pages| == 1 && |s.slots| == 4
    ensures s.virtuals == [Virtual(Valid(0, ProtRead, true, false, false), Mapped(0, false), NoJob, NoTrim),
                           Virtual(Unused, Unmapped, NoJob, NoTrim)]
    ensures s.pages == [Page(Active, 0, true, false, Some(0), ZERO_PAGE, Nobody)]
    ensures s.batch == [Entry(0, 1, true, false)] && s.writing && s.slots[1] == Slot(true, ZERO_PAGE, ByBatch(0))
    ensures s.lists == Lists({}, {}, {}, {}, 0)
  {
    hide Reachable, Typed;
    InitialIsReachable(2, 1);
    s := Initial(2, 1);
    s := FirstTouch(s, 0, 0);
    s := TrimOut(s, 0, 0);
    s := WriterStep(s, DoPop(0));
    AnyFreeSlotsWillDo(s, [1]);
    s := WriterStep(s, DoAllot([1]));
    s := WriterStep(s, DoStore(0));
    s := RescueToRead(s, 0, 0);
  }
}
