/** A valid fault that needs a page read-write maps it, drops its slot and marks it
    modified, without the pagelock; the protocol takes this as one step.  The
    parts come to the same unless the writer completes the page in between, and
    if it does, what the user wrote can be lost. */
module RemapGap {
  import opened PageState
  import opened Protocol
  import opened Invariant
  import opened WriterSteps
  import opened Interference
  import opened Refinement
  import opened Assertions
  import opened Runs

  // ----- mapping read-write -----------------------------------------------------------------

  /** The first part of Remap: the user can write from now on. */
  function RemapMap(s: State, v: nat): State
    requires Typed(s) && CanRemap(s, v)
  {
    Put(s, v, s.virtuals[v].(hw := Mapped(s.virtuals[v].job.frame, true)))
  }

  /** The second: the slot is dropped, if there is one. */
  function RemapDrop(s: State, v: nat): State
    requires Typed(s) && CanRemap(s, v)
  {
    var p := s.virtuals[v].job.frame;
    PutPage(ReleaseSlot(s, s.pages[p].slot), p, s.pages[p].(slot := 0))
  }

  /** The third: the page is marked modified. */
  function RemapModified(s: State, v: nat): State
    requires Typed(s) && CanRemap(s, v)
  {
    var p := s.virtuals[v].job.frame;
    PutPage(Put(s, v, s.virtuals[v].(job := s.virtuals[v].job.(remapped := true))), p, s.pages[p].(modified := true))
  }

  lemma RemapInParts(s: State, v: nat)
    requires Typed(s) && CanRemap(s, v)
    ensures Typed(RemapMap(s, v)) && CanRemap(RemapMap(s, v), v)
    ensures Typed(RemapDrop(RemapMap(s, v), v)) && CanRemap(RemapDrop(RemapMap(s, v), v), v)
    ensures RemapModified(RemapDrop(RemapMap(s, v), v), v) == Remap(s, v)
  {
    var s' := RemapModified(RemapDrop(RemapMap(s, v), v), v);
    assert s'.virtuals == Remap(s, v).virtuals && s'.pages == Remap(s, v).pages;
  }

  /** Between the second and the third: the user writes, and the writer completes
      the page. */
  const WRITTEN_AND_COMPLETED: seq<Action> := [User(DoUserWrite(0, 0, 7)), Writer(DoComplete(0))]

  /** Afterwards the fault ends, and the page is trimmed and given away. */
  const TRIMMED_AND_GIVEN_AWAY: seq<Action> := [
    Fault(DoFinishChange(0)), Trim(DoMark(0)), Trim(DoChoose(0)), Trim(DoUnhook(0)), Trim(DoList(0)),
    Trim(DoCopy(0)), Trim(DoSwap(0)), Refill(DoTakeOld(0)), Refill(DoDetach(0))]

  /** The page that was rescued for a read is written to. */
  lemma ChangingInFlight() returns (s: State)
    ensures Reachable(s) && Typed(s) && |s.virtuals| == 2 && |s.pages| == 1 && |s.slots| == 4
    ensures s.virtuals == [Virtual(Valid(0, ProtRead, true, true, false), Mapped(0, false),
                                   Changing(0, ProtRead, true, false), NoTrim),
                           Virtual(Unused, Unmapped, NoJob, NoTrim)]
    ensures s.pages == [Page(Active, 0, true, false, Some(0), ZERO_PAGE, Nobody)]
    ensures s.batch == [Entry(0, 1, true, false)] && s.writing && s.lists == Lists({}, {}, {}, {}, 0)
    ensures s.slots[1] == Slot(true, ZERO_PAGE, ByBatch(0))
  {
    hide Reachable, Typed;
    s := CopiedAndRescued();
    OneStep(s, Fault(DoClaimChange(0, true)));
    s := ClaimChange(s, 0, true);
  }

  lemma SmallTyped(s: State)
    requires |s.virtuals| == 2 && |s.pages| == 1 && |s.slots| == 4
    requires VirtualTyped(s.virtuals[0], 1, 4) && s.virtuals[1] == Virtual(Unused, Unmapped, NoJob, NoTrim)
    requires PageTyped(s.pages[0], 2, 4) && |s.batch| == 1 && s.batch[0].page == 0 && s.batch[0].slot < 4
    ensures Typed(s)
  {
  }

  lemma Possible(s: State, steps: seq<Action>, mid: State, a: Action) returns (next: State)
    requires AllPossible(s, steps) && Run(s, steps) == mid && Typed(mid) && Enabled(mid, a)
    ensures next == Apply(mid, a) && AllPossible(s, steps + [a]) && Run(s, steps + [a]) == next
  {
    OneMorePossible(s, steps, a);
    next := Apply(mid, a);
  }

  /** One frame, and two virtual pages of which only the first is in use. */
  predicate Small(s: State) {
    && |s.virtuals| == 2 && |s.pages| == 1 && |s.slots| == 4 && |s.batch| == 1
    && s.virtuals[1] == Virtual(Unused, Unmapped, NoJob, NoTrim)
    && s.batch[0].page == 0 && s.batch[0].slot == 1 && Word(s.slots[1].bytes, 0) == 0
  }

  lemma WrittenAndCompleted(s: State) returns (s': State)
    requires Typed(s) && Small(s) && s.batch[0].copied && !s.batch[0].done && s.writing
    requires s.virtuals[0] == Virtual(Valid(0, ProtRead, true, true, false), Mapped(0, true),
                                      Changing(0, ProtRead, true, false), NoTrim)
    requires s.pages == [Page(Active, 0, true, false, Some(0), ZERO_PAGE, Nobody)] && s.lists.standby == {}
    ensures AllPossible(s, WRITTEN_AND_COMPLETED) && s' == Run(s, WRITTEN_AND_COMPLETED) && Typed(s') && Small(s')
    ensures s'.virtuals == s.virtuals && s'.lists == s.lists
    ensures s'.pages == [Page(Active, 1, false, false, Some(0), ZERO_PAGE[0 := 7], Nobody)]
  {
    hide Typed, AllPossible, Run;
    NothingRun(s);
    s' := Possible(s, [], s, User(DoUserWrite(0, 0, 7)));
    assert [] + [User(DoUserWrite(0, 0, 7))] == WRITTEN_AND_COMPLETED[..1];
    SmallTyped(s');
    s' := Possible(s, WRITTEN_AND_COMPLETED[..1], s', Writer(DoComplete(0)));
    assert WRITTEN_AND_COMPLETED[..1] + [Writer(DoComplete(0))] == WRITTEN_AND_COMPLETED[..2];
    SmallTyped(s');
    assert WRITTEN_AND_COMPLETED[..2] == WRITTEN_AND_COMPLETED;
  }

  lemma TrimmedAway(s: State) returns (s': State)
    requires Typed(s) && Small(s)
    requires s.virtuals[0] == Virtual(Valid(0, ProtRead, true, true, false), Mapped(0, true),
                                      Changing(0, ProtRead, true, true), NoTrim)
    requires s.pages == [Page(Active, 1, false, true, Some(0), ZERO_PAGE[0 := 7], Nobody)] && s.lists.standby == {}
    ensures AllPossible(s, TRIMMED_AND_GIVEN_AWAY[..5]) && s' == Run(s, TRIMMED_AND_GIVEN_AWAY[..5])
    ensures Typed(s') && Small(s') && s'.lists.standby == {0}
    ensures s'.virtuals[0] == Virtual(Valid(0, ProtReadWrite, true, false, true), Unmapped, NoJob, Listed)
    ensures s'.pages == [Page(Standby, 1, false, true, Some(0), ZERO_PAGE[0 := 7], Nobody)]
  {
    hide Typed, AllPossible, Run;
    NothingRun(s);
    s' := Possible(s, [], s, Fault(DoFinishChange(0)));
    assert [] + [Fault(DoFinishChange(0))] == TRIMMED_AND_GIVEN_AWAY[..1];
    SmallTyped(s');
    s' := Possible(s, TRIMMED_AND_GIVEN_AWAY[..1], s', Trim(DoMark(0)));
    assert TRIMMED_AND_GIVEN_AWAY[..1] + [Trim(DoMark(0))] == TRIMMED_AND_GIVEN_AWAY[..2];
    SmallTyped(s');
    s' := Possible(s, TRIMMED_AND_GIVEN_AWAY[..2], s', Trim(DoChoose(0)));
    assert TRIMMED_AND_GIVEN_AWAY[..2] + [Trim(DoChoose(0))] == TRIMMED_AND_GIVEN_AWAY[..3];
    SmallTyped(s');
    s' := Possible(s, TRIMMED_AND_GIVEN_AWAY[..3], s', Trim(DoUnhook(0)));
    assert TRIMMED_AND_GIVEN_AWAY[..3] + [Trim(DoUnhook(0))] == TRIMMED_AND_GIVEN_AWAY[..4];
    SmallTyped(s');
    s' := Possible(s, TRIMMED_AND_GIVEN_AWAY[..4], s', Trim(DoList(0)));
    assert TRIMMED_AND_GIVEN_AWAY[..4] + [Trim(DoList(0))] == TRIMMED_AND_GIVEN_AWAY[..5];
    SmallTyped(s');
  }

  lemma TrimmedAndGivenAway(s: State) returns (s': State)
    requires Typed(s) && Small(s)
    requires s.virtuals[0] == Virtual(Valid(0, ProtRead, true, true, false), Mapped(0, true),
                                      Changing(0, ProtRead, true, true), NoTrim)
    requires s.pages == [Page(Active, 1, false, true, Some(0), ZERO_PAGE[0 := 7], Nobody)] && s.lists.standby == {}
    ensures AllPossible(s, TRIMMED_AND_GIVEN_AWAY) && s' == Run(s, TRIMMED_AND_GIVEN_AWAY)
    ensures Small(s') && s'.virtuals[0].pte == Disk(1, false)
  {
    hide Typed, AllPossible, Run;
    var mid := TrimmedAway(s);
    s' := Possible(s, TRIMMED_AND_GIVEN_AWAY[..5], mid, Trim(DoCopy(0)));
    assert TRIMMED_AND_GIVEN_AWAY[..5] + [Trim(DoCopy(0))] == TRIMMED_AND_GIVEN_AWAY[..6];
    SmallTyped(s');
    s' := Possible(s, TRIMMED_AND_GIVEN_AWAY[..6], s', Trim(DoSwap(0)));
    assert TRIMMED_AND_GIVEN_AWAY[..6] + [Trim(DoSwap(0))] == TRIMMED_AND_GIVEN_AWAY[..7];
    SmallTyped(s');
    s' := Possible(s, TRIMMED_AND_GIVEN_AWAY[..7], s', Refill(DoTakeOld(0)));
    assert TRIMMED_AND_GIVEN_AWAY[..7] + [Refill(DoTakeOld(0))] == TRIMMED_AND_GIVEN_AWAY[..8];
    SmallTyped(s');
    s' := Possible(s, TRIMMED_AND_GIVEN_AWAY[..8], s', Refill(DoDetach(0)));
    assert TRIMMED_AND_GIVEN_AWAY[..8] + [Refill(DoDetach(0))] == TRIMMED_AND_GIVEN_AWAY[..9];
    SmallTyped(s');
    assert TRIMMED_AND_GIVEN_AWAY[..9] == TRIMMED_AND_GIVEN_AWAY;
  }

  /** If the writer completes the page after its slot was to be dropped, and before
      it is marked modified, it keeps a slot without the last word written: the
      page is taken for a clean one, and the word is lost. */
  lemma RemapGapCanFail() returns (s: State)
    ensures Reachable(s) && Typed(s) && CanRemap(s, 0)
    ensures Typed(RemapMap(s, 0)) && CanRemap(RemapMap(s, 0), 0)
    ensures var half := RemapDrop(RemapMap(s, 0), 0);
            var mid := Run(half, WRITTEN_AND_COMPLETED);
            && AllPossible(half, WRITTEN_AND_COMPLETED) && Typed(mid) && CanRemap(mid, 0)
            && var rest := RemapModified(mid, 0);
               var s' := Run(rest, TRIMMED_AND_GIVEN_AWAY);
               && AllPossible(rest, TRIMMED_AND_GIVEN_AWAY)
               && Small(s') && s'.virtuals[0].pte == Disk(1, false) && Word(s'.slots[1].bytes, 0) == 0
  {
    hide Reachable, AllPossible, Run;
    s := ChangingInFlight();
    RemapInParts(s, 0);
    var mid := WrittenAndCompleted(RemapDrop(RemapMap(s, 0), 0));
    var rest := RemapModified(mid, 0);
    SmallTyped(rest);
    var s' := TrimmedAndGivenAway(rest);
  }

  // ----- the gap in Remap --------------------------------------------------------------------

  /** A fault has remapped its page read-write, which was mapped read-only. */
  ghost predicate Upgrading(s: State, v: nat, p: nat) {
    && Sound(s) && v < |s.virtuals| && p < |s.pages| && s.virtuals[v].job == Changing(p, ProtRead, true, true)
    && s.pages[p].modified
  }

  /** The same, before the page is marked modified; perhaps it was already. */
  function Unmarked(s: State, v: nat, p: nat, was: bool): State
    requires v < |s.virtuals| && p < |s.pages|
  {
    PutPage(Put(s, v, s.virtuals[v].(job := Changing(p, ProtRead, true, false))), p, s.pages[p].(modified := was))
  }

  /** Steps of others than the fault at hand. */
  predicate Foreigner(a: Action, v: nat) {
    a != Fault(DoRemap(v)) && a != Fault(DoFinishChange(v))
  }

  predicate Completes(s: State, a: Action, p: nat) {
    a.Writer? && a.writer.DoComplete? && a.writer.i < |s.batch| && s.batch[a.writer.i].page == p
  }

  /** Steps of others that do not complete the page, if it is not marked yet. */
  predicate Aside(s: State, a: Action, v: nat, p: nat, was: bool) {
    Foreigner(a, v) && (was || !Completes(s, a, p))
  }

  ghost predicate SameInGap(s: State, v: nat, p: nat, was: bool, a: Action)
    requires Typed(s) && Enabled(s, a) && v < |s.virtuals| && p < |s.pages|
  {
    && Typed(Unmarked(s, v, p, was)) && Enabled(Unmarked(s, v, p, was), a)
    && v < |Apply(s, a).virtuals| && p < |Apply(s, a).pages|
    && Apply(s, a).virtuals[v].job == s.virtuals[v].job && Apply(s, a).pages[p].modified
    && Apply(Unmarked(s, v, p, was), a) == Unmarked(Apply(s, a), v, p, was)
  }

  /** The faults and PTEs of other virtual pages have nothing to do with page p. */
  predicate NotAbout(x: Virtual, p: nat) {
    && (x.pte.Valid? ==> x.pte.frame != p)
    && match x.job
       case NoJob => true
       case Reading => true
       case Changing(f, _, _, _) => f != p
       case _ => x.job.page != p
  }

  predicate Resting(g: Page) {
    g.hand.Nobody? && (g.status.Standby? || g.status.Modified?)
  }

  /** What is known of the page while the fault goes on: nobody else has to do
      with it, and no other page waits for the fault's virtual page. */
  ghost predicate Private(s: State, v: nat, p: nat) {
    && Typed(s) && v < |s.virtuals| && p < |s.pages| && s.virtuals[v].job == Changing(p, ProtRead, true, true)
    && s.pages[p].modified && s.pages[p].status.Active? && s.pages[p].hand.Nobody?
    && s.virtuals[v].pte.Valid? && s.virtuals[v].pte.changing && !s.virtuals[v].pte.trimming
    && p !in s.lists.zero && p !in s.lists.free && p !in s.lists.standby && p !in s.lists.modified
    && (s.virtuals[v].trim.NoTrim? || s.virtuals[v].trim.Listed? || s.virtuals[v].trim.Copied?)
    && (forall u :: 0 <= u < |s.virtuals| && u != v ==> NotAbout(s.virtuals[u], p))
    && (forall q :: 0 <= q < |s.pages| && s.pages[q].pte == Some(v) ==> !Resting(s.pages[q]))
  }

  lemma UpgradingIsPrivate(s: State, v: nat, p: nat)
    requires Upgrading(s, v, p)
    ensures Private(s, v, p)
  {
    assert VirtualOk(s, v) && PageOk(s, p);
    forall u | 0 <= u < |s.virtuals| && u != v ensures NotAbout(s.virtuals[u], p) { assert VirtualOk(s, u); }
    forall q | 0 <= q < |s.pages| && s.pages[q].pte == Some(v) ensures !Resting(s.pages[q]) { assert PageOk(s, q); }
  }

  lemma UnmarkedTyped(s: State, v: nat, p: nat, was: bool)
    requires Private(s, v, p)
    ensures Typed(Unmarked(s, v, p, was)) && s.pages[p].status.Active? && s.pages[p].hand.Nobody?
    ensures s.virtuals[v].pte.Valid? && s.virtuals[v].pte.changing && !s.virtuals[v].pte.trimming
    ensures p !in s.lists.zero && p !in s.lists.free && p !in s.lists.standby && p !in s.lists.modified
    ensures s.virtuals[v].trim.NoTrim? || s.virtuals[v].trim.Listed? || s.virtuals[v].trim.Copied?
    ensures s.virtuals[v].job == Changing(p, ProtRead, true, true) && s.pages[p].modified
  {
  }

  lemma InRange(s: State, u: nat)
    requires Typed(s) && u < |s.virtuals|
    ensures VirtualTyped(s.virtuals[u], |s.pages|, |s.slots|)
    ensures !s.virtuals[u].job.NoJob? && !s.virtuals[u].job.Reading? && !s.virtuals[u].job.Changing? ==>
              PageTyped(s.pages[s.virtuals[u].job.page], |s.virtuals|, |s.slots|)
  {
  }

  lemma PageInRange(s: State, q: nat)
    requires Typed(s) && q < |s.pages|
    ensures PageTyped(s.pages[q], |s.virtuals|, |s.slots|)
  {
  }

  /** Nobody else has to do with it. */
  lemma OtherPage(s: State, v: nat, p: nat, u: nat)
    requires Private(s, v, p) && u < |s.virtuals| && u != v
    ensures NotAbout(s.virtuals[u], p)
  {
  }

  lemma RescuedElsewhere(s: State, v: nat, p: nat, u: nat, q: nat)
    requires Private(s, v, p) && CanRescue(s, u, q)
    ensures u != v && q != p
  {
  }

  lemma ListedInGap(s: State, v: nat, p: nat, was: bool, a: FaultAction)
    requires Private(s, v, p) && Typed(s) && v < |s.virtuals| && p < |s.pages|
    requires FaultEnabled(s, a) && Aside(s, Fault(a), v, p, was)
    requires a.DoReserve? || a.DoReturn?
    ensures SameInGap(s, v, p, was, Fault(a))
  {
    hide Private;
    UnmarkedTyped(s, v, p, was);
    assert FaultApply(Unmarked(s, v, p, was), a).pages == Unmarked(FaultApply(s, a), v, p, was).pages;
    assert FaultApply(Unmarked(s, v, p, was), a).virtuals == Unmarked(FaultApply(s, a), v, p, was).virtuals;
  }

  lemma RescueInGap(s: State, v: nat, p: nat, was: bool, a: FaultAction)
    requires Private(s, v, p) && Typed(s) && v < |s.virtuals| && p < |s.pages|
    requires FaultEnabled(s, a) && Aside(s, Fault(a), v, p, was)
    requires a.DoRescue?
    ensures SameInGap(s, v, p, was, Fault(a))
  {
    hide Private;
    UnmarkedTyped(s, v, p, was);
    RescuedElsewhere(s, v, p, a.v, a.p);
    assert FaultApply(Unmarked(s, v, p, was), a).pages == Unmarked(FaultApply(s, a), v, p, was).pages;
    assert FaultApply(Unmarked(s, v, p, was), a).virtuals == Unmarked(FaultApply(s, a), v, p, was).virtuals;
  }

  lemma ClaimInGap(s: State, v: nat, p: nat, was: bool, a: FaultAction)
    requires Private(s, v, p) && Typed(s) && v < |s.virtuals| && p < |s.pages|
    requires FaultEnabled(s, a) && Aside(s, Fault(a), v, p, was)
    requires a.DoClaimChange? || a.DoClaimFirst?
    ensures SameInGap(s, v, p, was, Fault(a))
  {
    hide Private;
    UnmarkedTyped(s, v, p, was);
    assert FaultApply(Unmarked(s, v, p, was), a).pages == Unmarked(FaultApply(s, a), v, p, was).pages;
    assert FaultApply(Unmarked(s, v, p, was), a).virtuals == Unmarked(FaultApply(s, a), v, p, was).virtuals;
  }

  lemma FinishChangeInGap(s: State, v: nat, p: nat, was: bool, a: FaultAction)
    requires Private(s, v, p) && Typed(s) && v < |s.virtuals| && p < |s.pages|
    requires FaultEnabled(s, a) && Aside(s, Fault(a), v, p, was)
    requires a.DoFinishChange?
    ensures SameInGap(s, v, p, was, Fault(a))
  {
    hide Private, Typed;
    InRange(s, a.v);
    UnmarkedTyped(s, v, p, was);
    OtherPage(s, v, p, a.v);
    assert FaultApply(Unmarked(s, v, p, was), a).pages == Unmarked(FaultApply(s, a), v, p, was).pages;
    assert FaultApply(Unmarked(s, v, p, was), a).virtuals == Unmarked(FaultApply(s, a), v, p, was).virtuals;
  }

  lemma PutInGap(s: State, v: nat, p: nat, was: bool, u: nat, x: Virtual, q: nat, g: Page)
    requires v < |s.virtuals| && u < |s.virtuals| && p < |s.pages| && q < |s.pages| && u != v && q != p
    ensures PutPage(Put(Unmarked(s, v, p, was), u, x), q, g) == Unmarked(PutPage(Put(s, u, x), q, g), v, p, was)
  {
    assert PutPage(Put(Unmarked(s, v, p, was), u, x), q, g).pages
        == Unmarked(PutPage(Put(s, u, x), q, g), v, p, was).pages;
    assert PutPage(Put(Unmarked(s, v, p, was), u, x), q, g).virtuals
        == Unmarked(PutPage(Put(s, u, x), q, g), v, p, was).virtuals;
  }

  lemma DetachOldInGap(s: State, v: nat, p: nat, was: bool, g: Page)
    requires v < |s.virtuals| && p < |s.pages| && PageTyped(g, |s.virtuals|, |s.slots|)
    ensures var s' := DetachOldPte(s, g);
            && |s'.virtuals| == |s.virtuals| && s'.pages == s.pages
            && (forall u :: 0 <= u < |s.virtuals| ==> s'.virtuals[u].job == s.virtuals[u].job)
            && DetachOldPte(Unmarked(s, v, p, was), g) == Unmarked(s', v, p, was)
  {
    assert DetachOldPte(Unmarked(s, v, p, was), g).virtuals
        == Unmarked(DetachOldPte(s, g), v, p, was).virtuals;
  }

  lemma CommitFirstInGap(s: State, v: nat, p: nat, was: bool, u: nat)
    requires Private(s, v, p) && Typed(s) && v < |s.virtuals| && p < |s.pages|
    requires CanCommitFirst(s, u)
    ensures SameInGap(s, v, p, was, Fault(DoCommitFirst(u)))
  {
    hide Private, Typed, DetachOldPte;
    InRange(s, u);
    UnmarkedTyped(s, v, p, was);
    OtherPage(s, v, p, u);
    var q, write := s.virtuals[u].job.page, s.virtuals[u].job.write;
    var g := s.pages[q];
    DetachOldInGap(s, v, p, was, g);
    var s1 := DetachOldPte(s, g);
    PutInGap(s1, v, p, was, u, s1.virtuals[u].(job := Ready(q, write)), q,
             g.(status := Active, slot := 0, modified := write || g.modified, pte := Some(u), hand := Nobody,
                bytes := if g.status.Zero? then g.bytes else ZERO_PAGE));
  }

  lemma ReleaseInGap(s: State, v: nat, p: nat, was: bool, k: nat)
    requires v < |s.virtuals| && p < |s.pages| && k < |s.slots|
    ensures ReleaseSlot(Unmarked(s, v, p, was), k) == Unmarked(ReleaseSlot(s, k), v, p, was)
    ensures ReleaseSlot(s, k).virtuals == s.virtuals && ReleaseSlot(s, k).pages == s.pages
  {
  }

  lemma OtherRemapInGap(s: State, v: nat, p: nat, was: bool, u: nat)
    requires Private(s, v, p) && Typed(s) && v < |s.virtuals| && p < |s.pages|
    requires CanRemap(s, u) && u != v
    ensures SameInGap(s, v, p, was, Fault(DoRemap(u)))
  {
    hide Private, Typed, ReleaseSlot;
    InRange(s, u);
    UnmarkedTyped(s, v, p, was);
    OtherPage(s, v, p, u);
    var x := s.virtuals[u];
    var q := x.job.frame;
    var y := x.(hw := Mapped(q, true), job := x.job.(remapped := true));
    var g := s.pages[q].(slot := 0, modified := true);
    PageInRange(s, q);
    ReleaseInGap(Put(s, u, y), v, p, was, s.pages[q].slot);
    PutInGap(s, v, p, was, u, y, q, g);
    PutInGap(ReleaseSlot(Put(s, u, y), s.pages[q].slot), v, p, was, u, y, q, g);
  }

  lemma CommitRescueInGap(s: State, v: nat, p: nat, was: bool, u: nat)
    requires Private(s, v, p) && Typed(s) && v < |s.virtuals| && p < |s.pages|
    requires CanCommitRescue(s, u)
    ensures SameInGap(s, v, p, was, Fault(DoCommitRescue(u)))
  {
    hide Private, Typed, ReleaseSlot;
    InRange(s, u);
    UnmarkedTyped(s, v, p, was);
    OtherPage(s, v, p, u);
    var q, write := s.virtuals[u].job.page, s.virtuals[u].job.write;
    var g := s.pages[q];
    ReleaseInGap(s, v, p, was, g.slot);
    PutInGap(if write && g.status.Standby? then ReleaseSlot(s, g.slot) else s, v, p, was, u,
             s.virtuals[u].(job := Ready(q, write)), q,
             g.(status := Active, pte := Some(u), hand := Nobody,
                slot := if write then 0 else g.slot, modified := write || g.modified));
  }

  lemma RightInGap(s: State, v: nat, p: nat, was: bool, a: ConnectAction)
    requires Private(s, v, p) && Typed(s) && v < |s.virtuals| && p < |s.pages|
    requires ConnectEnabled(s, a) && Aside(s, Connect(a), v, p, was)
    requires a.DoTakeRight? || a.DoDropRight?
    ensures SameInGap(s, v, p, was, Connect(a))
  {
    hide Private;
    UnmarkedTyped(s, v, p, was);
    assert ConnectApply(Unmarked(s, v, p, was), a).pages == Unmarked(ConnectApply(s, a), v, p, was).pages;
    assert ConnectApply(Unmarked(s, v, p, was), a).virtuals == Unmarked(ConnectApply(s, a), v, p, was).virtuals;
  }

  lemma CommitDiskInGap(s: State, v: nat, p: nat, was: bool, u: nat, q: nat, write: bool)
    requires Private(s, v, p) && Typed(s) && v < |s.virtuals| && p < |s.pages| && CanCommitDisk(s, u, q)
    ensures SameInGap(s, v, p, was, Connect(DoCommitDisk(u, q, write)))
  {
    hide Private, Typed, DetachOldPte;
    UnmarkedTyped(s, v, p, was);
    PageInRange(s, q);
    var g := s.pages[q];
    DetachOldInGap(s, v, p, was, g);
    var s1 := DetachOldPte(s, g);
    PutInGap(s1, v, p, was, u, s1.virtuals[u].(job := Filling(q, write)), q,
             g.(status := Active, modified := write || g.modified, pte := Some(u), hand := Nobody));
  }

  lemma FillInGap(s: State, v: nat, p: nat, was: bool, a: ConnectAction)
    requires Private(s, v, p) && Typed(s) && v < |s.virtuals| && p < |s.pages|
    requires ConnectEnabled(s, a) && Aside(s, Connect(a), v, p, was)
    requires a.DoFill?
    ensures SameInGap(s, v, p, was, Connect(a))
  {
    hide Private;
    UnmarkedTyped(s, v, p, was);
    OtherPage(s, v, p, a.v);
    assert ConnectApply(Unmarked(s, v, p, was), a).pages == Unmarked(ConnectApply(s, a), v, p, was).pages;
    assert ConnectApply(Unmarked(s, v, p, was), a).virtuals == Unmarked(ConnectApply(s, a), v, p, was).virtuals;
  }

  lemma SettleWriteInGap(s: State, v: nat, p: nat, was: bool, u: nat)
    requires Private(s, v, p) && Typed(s) && v < |s.virtuals| && p < |s.pages| && CanSettle(s, u)
    requires s.virtuals[u].pte.Disk? && s.virtuals[u].job.write
    ensures SameInGap(s, v, p, was, Connect(DoSettle(u)))
  {
    hide Private, Typed, ReleaseSlot;
    InRange(s, u);
    UnmarkedTyped(s, v, p, was);
    OtherPage(s, v, p, u);
    var x := s.virtuals[u];
    var q := x.job.page;
    var y := x.(job := Ready(q, true));
    var g := s.pages[q].(slot := 0);
    ReleaseInGap(Put(s, u, y), v, p, was, x.pte.slot);
    PutInGap(s, v, p, was, u, y, q, g);
    PutInGap(ReleaseSlot(Put(s, u, y), x.pte.slot), v, p, was, u, y, q, g);
  }

  lemma SettleInGap(s: State, v: nat, p: nat, was: bool, u: nat)
    requires Private(s, v, p) && Typed(s) && v < |s.virtuals| && p < |s.pages| && CanSettle(s, u)
    ensures SameInGap(s, v, p, was, Connect(DoSettle(u)))
  {
    hide Private, Typed, ReleaseSlot;
    var x := s.virtuals[u];
    if x.pte.Disk? && x.job.write {
      hide SameInGap;
      SettleWriteInGap(s, v, p, was, u);
    } else {
      InRange(s, u);
      UnmarkedTyped(s, v, p, was);
      OtherPage(s, v, p, u);
      if x.pte.Disk? {
        var q := x.job.page;
        PutInGap(Assign(s, x.pte.slot, ByPage(q)), v, p, was, u, x.(job := Ready(q, false)), q,
                 s.pages[q].(slot := x.pte.slot));
      }
    }
  }

  lemma MapInGap(s: State, v: nat, p: nat, was: bool, a: ConnectAction)
    requires Private(s, v, p) && Typed(s) && v < |s.virtuals| && p < |s.pages|
    requires ConnectEnabled(s, a) && Aside(s, Connect(a), v, p, was)
    requires a.DoMap? || a.DoFinish?
    ensures SameInGap(s, v, p, was, Connect(a))
  {
    hide Private;
    UnmarkedTyped(s, v, p, was);
    assert ConnectApply(Unmarked(s, v, p, was), a).pages == Unmarked(ConnectApply(s, a), v, p, was).pages;
    assert ConnectApply(Unmarked(s, v, p, was), a).virtuals == Unmarked(ConnectApply(s, a), v, p, was).virtuals;
  }

  lemma UserInGap(s: State, v: nat, p: nat, was: bool, a: UserAction)
    requires Private(s, v, p) && Typed(s) && v < |s.virtuals| && p < |s.pages|
    requires UserEnabled(s, a)
    ensures SameInGap(s, v, p, was, User(a))
  {
    hide Private;
    UnmarkedTyped(s, v, p, was);
    assert UserApply(Unmarked(s, v, p, was), a).pages == Unmarked(UserApply(s, a), v, p, was).pages;
    assert UserApply(Unmarked(s, v, p, was), a).virtuals == Unmarked(UserApply(s, a), v, p, was).virtuals;
  }

  lemma MarkInGap(s: State, v: nat, p: nat, was: bool, a: TrimAction)
    requires Private(s, v, p) && Typed(s) && v < |s.virtuals| && p < |s.pages|
    requires TrimEnabled(s, a) && Aside(s, Trim(a), v, p, was)
    requires a.DoMark? || a.DoUnmark? || a.DoUnhook?
    ensures SameInGap(s, v, p, was, Trim(a))
  {
    hide Private;
    UnmarkedTyped(s, v, p, was);
    assert TrimApply(Unmarked(s, v, p, was), a).pages == Unmarked(TrimApply(s, a), v, p, was).pages;
    assert TrimApply(Unmarked(s, v, p, was), a).virtuals == Unmarked(TrimApply(s, a), v, p, was).virtuals;
  }

  lemma ChooseInGap(s: State, v: nat, p: nat, was: bool, a: TrimAction)
    requires Private(s, v, p) && Typed(s) && v < |s.virtuals| && p < |s.pages|
    requires TrimEnabled(s, a) && Aside(s, Trim(a), v, p, was)
    requires a.DoChoose?
    ensures SameInGap(s, v, p, was, Trim(a))
  {
    hide Private;
    UnmarkedTyped(s, v, p, was);
    OtherPage(s, v, p, a.v);
    assert TrimApply(Unmarked(s, v, p, was), a).pages == Unmarked(TrimApply(s, a), v, p, was).pages;
    assert TrimApply(Unmarked(s, v, p, was), a).virtuals == Unmarked(TrimApply(s, a), v, p, was).virtuals;
  }

  lemma ListInGap(s: State, v: nat, p: nat, was: bool, a: TrimAction)
    requires Private(s, v, p) && Typed(s) && v < |s.virtuals| && p < |s.pages|
    requires TrimEnabled(s, a) && Aside(s, Trim(a), v, p, was)
    requires a.DoList?
    ensures SameInGap(s, v, p, was, Trim(a))
  {
    hide Private;
    UnmarkedTyped(s, v, p, was);
    OtherPage(s, v, p, a.v);
    assert TrimApply(Unmarked(s, v, p, was), a).pages == Unmarked(TrimApply(s, a), v, p, was).pages;
    assert TrimApply(Unmarked(s, v, p, was), a).virtuals == Unmarked(TrimApply(s, a), v, p, was).virtuals;
  }

  lemma SwapInGap(s: State, v: nat, p: nat, was: bool, a: TrimAction)
    requires Private(s, v, p) && Typed(s) && v < |s.virtuals| && p < |s.pages|
    requires TrimEnabled(s, a) && Aside(s, Trim(a), v, p, was)
    requires a.DoCopy? || a.DoSwap?
    ensures SameInGap(s, v, p, was, Trim(a))
  {
    hide Private;
    UnmarkedTyped(s, v, p, was);
    assert TrimApply(Unmarked(s, v, p, was), a).pages == Unmarked(TrimApply(s, a), v, p, was).pages;
    assert TrimApply(Unmarked(s, v, p, was), a).virtuals == Unmarked(TrimApply(s, a), v, p, was).virtuals;
  }

  lemma PopInGap(s: State, v: nat, p: nat, was: bool, a: WriterAction)
    requires Private(s, v, p) && Typed(s) && v < |s.virtuals| && p < |s.pages|
    requires WriterEnabled(s, a) && Aside(s, Writer(a), v, p, was)
    requires a.DoPop? || a.DoAllot?
    ensures SameInGap(s, v, p, was, Writer(a))
  {
    hide Private;
    UnmarkedTyped(s, v, p, was);
    assert WriterApply(Unmarked(s, v, p, was), a).pages == Unmarked(WriterApply(s, a), v, p, was).pages;
    assert WriterApply(Unmarked(s, v, p, was), a).virtuals == Unmarked(WriterApply(s, a), v, p, was).virtuals;
  }

  lemma StoreInGap(s: State, v: nat, p: nat, was: bool, a: WriterAction)
    requires Private(s, v, p) && Typed(s) && v < |s.virtuals| && p < |s.pages|
    requires WriterEnabled(s, a) && Aside(s, Writer(a), v, p, was)
    requires a.DoStore? || a.DoNextBatch?
    ensures SameInGap(s, v, p, was, Writer(a))
  {
    hide Private;
    UnmarkedTyped(s, v, p, was);
    assert WriterApply(Unmarked(s, v, p, was), a).pages == Unmarked(WriterApply(s, a), v, p, was).pages;
    assert WriterApply(Unmarked(s, v, p, was), a).virtuals == Unmarked(WriterApply(s, a), v, p, was).virtuals;
  }

  lemma CompleteInGap(s: State, v: nat, p: nat, was: bool, a: WriterAction)
    requires Private(s, v, p) && Typed(s) && v < |s.virtuals| && p < |s.pages|
    requires WriterEnabled(s, a) && Aside(s, Writer(a), v, p, was)
    requires a.DoComplete?
    ensures SameInGap(s, v, p, was, Writer(a))
  {
    hide Private;
    UnmarkedTyped(s, v, p, was);
    assert WriterApply(Unmarked(s, v, p, was), a).pages == Unmarked(WriterApply(s, a), v, p, was).pages;
    assert WriterApply(Unmarked(s, v, p, was), a).virtuals == Unmarked(WriterApply(s, a), v, p, was).virtuals;
  }

  lemma TakeOldInGap(s: State, v: nat, p: nat, was: bool, a: RefillAction)
    requires Private(s, v, p) && Typed(s) && v < |s.virtuals| && p < |s.pages|
    requires RefillEnabled(s, a) && Aside(s, Refill(a), v, p, was)
    requires a.DoTakeOld? || a.DoAddFree? || a.DoAddZeroSlot?
    ensures SameInGap(s, v, p, was, Refill(a))
  {
    hide Private;
    UnmarkedTyped(s, v, p, was);
    assert RefillApply(Unmarked(s, v, p, was), a).pages == Unmarked(RefillApply(s, a), v, p, was).pages;
    assert RefillApply(Unmarked(s, v, p, was), a).virtuals == Unmarked(RefillApply(s, a), v, p, was).virtuals;
  }

  lemma DetachInGap(s: State, v: nat, p: nat, was: bool, a: RefillAction)
    requires Private(s, v, p) && Typed(s) && v < |s.virtuals| && p < |s.pages|
    requires RefillEnabled(s, a) && Aside(s, Refill(a), v, p, was)
    requires a.DoDetach?
    ensures SameInGap(s, v, p, was, Refill(a))
  {
    hide Private;
    UnmarkedTyped(s, v, p, was);
    assert RefillApply(Unmarked(s, v, p, was), a).pages == Unmarked(RefillApply(s, a), v, p, was).pages;
    assert RefillApply(Unmarked(s, v, p, was), a).virtuals == Unmarked(RefillApply(s, a), v, p, was).virtuals;
  }

  lemma ZeroInGap(s: State, v: nat, p: nat, was: bool, a: RefillAction)
    requires Private(s, v, p) && Typed(s) && v < |s.virtuals| && p < |s.pages|
    requires RefillEnabled(s, a) && Aside(s, Refill(a), v, p, was)
    requires a.DoTakeZeroSlot? || a.DoClear? || a.DoAddZero?
    ensures SameInGap(s, v, p, was, Refill(a))
  {
    hide Private;
    UnmarkedTyped(s, v, p, was);
    assert RefillApply(Unmarked(s, v, p, was), a).pages == Unmarked(RefillApply(s, a), v, p, was).pages;
    assert RefillApply(Unmarked(s, v, p, was), a).virtuals == Unmarked(RefillApply(s, a), v, p, was).virtuals;
  }

  lemma FaultInGap(s: State, v: nat, p: nat, was: bool, a: FaultAction)
    requires Private(s, v, p) && Typed(s) && v < |s.virtuals| && p < |s.pages|
    requires FaultEnabled(s, a) && Aside(s, Fault(a), v, p, was)
    ensures SameInGap(s, v, p, was, Fault(a))
  {
    hide Private, Typed, SameInGap;
    match a
    case DoReserve(_) => ListedInGap(s, v, p, was, a);
    case DoReturn(_) => ListedInGap(s, v, p, was, a);
    case DoRescue(_, _, _) => RescueInGap(s, v, p, was, a);
    case DoClaimChange(_, _) => ClaimInGap(s, v, p, was, a);
    case DoClaimFirst(_, _, _) => ClaimInGap(s, v, p, was, a);
    case DoRemap(u) => OtherRemapInGap(s, v, p, was, u);
    case DoFinishChange(_) => FinishChangeInGap(s, v, p, was, a);
    case DoCommitFirst(u) => CommitFirstInGap(s, v, p, was, u);
    case DoCommitRescue(u) => CommitRescueInGap(s, v, p, was, u);
  }

  lemma ConnectInGap(s: State, v: nat, p: nat, was: bool, a: ConnectAction)
    requires Private(s, v, p) && Typed(s) && v < |s.virtuals| && p < |s.pages|
    requires ConnectEnabled(s, a)
    ensures SameInGap(s, v, p, was, Connect(a))
  {
    hide Private, Typed, SameInGap;
    match a
    case DoTakeRight(_) => RightInGap(s, v, p, was, a);
    case DoDropRight(_) => RightInGap(s, v, p, was, a);
    case DoCommitDisk(u, q, write) => CommitDiskInGap(s, v, p, was, u, q, write);
    case DoFill(_) => FillInGap(s, v, p, was, a);
    case DoSettle(u) => SettleInGap(s, v, p, was, u);
    case _ => MapInGap(s, v, p, was, a);
  }

  lemma WorkerInGap(s: State, v: nat, p: nat, was: bool, a: Action)
    requires Private(s, v, p) && Typed(s) && v < |s.virtuals| && p < |s.pages|
    requires Enabled(s, a) && Aside(s, a, v, p, was) && (a.Trim? || a.Writer? || a.Refill?)
    ensures SameInGap(s, v, p, was, a)
  {
    hide Private, Typed, SameInGap;
    match a
    case Trim(b) =>
      if b.DoChoose? {
        ChooseInGap(s, v, p, was, b);
      } else if b.DoList? {
        ListInGap(s, v, p, was, b);
      } else if b.DoCopy? || b.DoSwap? {
        SwapInGap(s, v, p, was, b);
      } else {
        MarkInGap(s, v, p, was, b);
      }
    case Writer(b) =>
      if b.DoPop? || b.DoAllot? {
        PopInGap(s, v, p, was, b);
      } else if b.DoComplete? {
        CompleteInGap(s, v, p, was, b);
      } else {
        StoreInGap(s, v, p, was, b);
      }
    case Refill(b) =>
      if b.DoDetach? {
        DetachInGap(s, v, p, was, b);
      } else if b.DoTakeOld? || b.DoAddFree? || b.DoAddZeroSlot? {
        TakeOldInGap(s, v, p, was, b);
      } else {
        ZeroInGap(s, v, p, was, b);
      }
  }

  lemma StepInGap(s: State, v: nat, p: nat, was: bool, a: Action)
    requires Private(s, v, p) && Typed(s) && v < |s.virtuals| && p < |s.pages|
    requires Enabled(s, a) && Aside(s, a, v, p, was)
    ensures SameInGap(s, v, p, was, a)
  {
    hide Private, Typed, SameInGap;
    match a
    case User(b) => UserInGap(s, v, p, was, b);
    case Fault(b) => FaultInGap(s, v, p, was, b);
    case Connect(b) => ConnectInGap(s, v, p, was, b);
    case _ => WorkerInGap(s, v, p, was, a);
  }

  ghost predicate AllAside(s: State, steps: seq<Action>, v: nat, p: nat, was: bool)
    decreases |steps|
  {
    steps == [] ||
    (var before := steps[..|steps| - 1];
     AllAside(s, before, v, p, was) && Aside(Run(s, before), steps[|steps| - 1], v, p, was))
  }

  lemma {:induction false} RemapGapRuns(s: State, mem: Memory, v: nat, p: nat, was: bool, steps: seq<Action>)
    requires Inv(s, mem) && Upgrading(s, v, p) && AllPossible(s, steps) && AllAside(s, steps, v, p, was)
    ensures Inv(Run(s, steps), FlatRun(mem, steps)) && Upgrading(Run(s, steps), v, p)
    ensures AllPossible(Unmarked(s, v, p, was), steps)
    ensures Run(Unmarked(s, v, p, was), steps) == Unmarked(Run(s, steps), v, p, was)
    decreases |steps|
  {
    if steps != [] {
      var before, a := steps[..|steps| - 1], steps[|steps| - 1];
      RemapGapRuns(s, mem, v, p, was, before);
      var mid := Run(s, before);
      StepKeeps(mid, FlatRun(mem, before), a);
      UpgradingIsPrivate(mid, v, p);
      StepInGap(mid, v, p, was, a);
    }
  }

  /** Whatever others could do after the one step, they can do between the drop and
      the mark; and if the page was marked before, or the writer does not
      complete it meanwhile, the parts come to the same as the one step. */
  lemma RemapAsOne(s: State, mem: Memory, v: nat, steps: seq<Action>)
    requires Inv(s, mem) && CanRemap(s, v)
    requires AllPossible(Remap(s, v), steps)
    requires AllAside(Remap(s, v), steps, v, s.virtuals[v].job.frame, s.pages[s.virtuals[v].job.frame].modified)
    ensures CanRemap(RemapMap(s, v), v) && Typed(RemapMap(s, v))
    ensures var half := RemapDrop(RemapMap(s, v), v);
            var mid := Run(half, steps);
            && AllPossible(half, steps) && Typed(mid) && CanRemap(mid, v)
            && RemapModified(mid, v) == Run(Remap(s, v), steps)
            && Inv(RemapModified(mid, v), FlatRun(mem, steps))
  {
    hide Inv, AllPossible, AllAside, Run, FlatRun, Typed;
    InvTyped(s, mem, v);
    var p := s.virtuals[v].job.frame;
    var was := s.pages[p].modified;
    RemapInParts(s, v);
    StepKeeps(s, mem, Fault(DoRemap(v)));
    BeginsUnmarked(s, mem, v);
    RemapGapRuns(Remap(s, v), mem, v, p, was, steps);
    EndsMarked(Run(Remap(s, v), steps), v, p, was);
  }

  lemma InvTyped(s: State, mem: Memory, v: nat)
    requires Inv(s, mem) && CanRemap(s, v)
    ensures Typed(s) && s.virtuals[v].job.frame < |s.pages|
  {
    InRange(s, v);
  }

  lemma BeginsUnmarked(s: State, mem: Memory, v: nat)
    requires Inv(s, mem) && CanRemap(s, v) && CanRemap(RemapMap(s, v), v) && Typed(RemapMap(s, v))
    ensures var p, half := s.virtuals[v].job.frame, RemapDrop(RemapMap(s, v), v);
            && Upgrading(Remap(s, v), v, p) && half == Unmarked(Remap(s, v), v, p, s.pages[p].modified)
  {
    var p := s.virtuals[v].job.frame;
    StepKeeps(s, mem, Fault(DoRemap(v)));
    assert VirtualOk(s, v);
    var half := RemapDrop(RemapMap(s, v), v);
    assert half.virtuals == Unmarked(Remap(s, v), v, p, s.pages[p].modified).virtuals;
    assert half.pages == Unmarked(Remap(s, v), v, p, s.pages[p].modified).pages;
  }

  lemma EndsMarked(s: State, v: nat, p: nat, was: bool)
    requires Upgrading(s, v, p)
    ensures Typed(Unmarked(s, v, p, was)) && CanRemap(Unmarked(s, v, p, was), v)
    ensures RemapModified(Unmarked(s, v, p, was), v) == s
  {
    UpgradingIsPrivate(s, v, p);
    UnmarkedTyped(s, v, p, was);
    assert RemapModified(Unmarked(s, v, p, was), v).virtuals == s.virtuals;
    assert RemapModified(Unmarked(s, v, p, was), v).pages == s.pages;
  }
}
