/** A thread that rescues a page on an old copy of its PTE can find the PTE still
    in memory format, because the trimmer has not finished it.  It waits; but
    the wait ends with any change of the PTE, not only when it is in
    transition format.  What the commit does then. */
module RescueGap {
  import opened PageState
  import opened Protocol
  import opened Invariant
  import opened WriterSteps
  import opened Refinement
  import opened Assertions
  import opened Runs

  predicate IsRescuing(s: State, v: nat) {
    v < |s.virtuals| && s.virtuals[v].job.Rescuing?
  }

  /** The commit, whatever the format of the PTE: in memory format it is taken for
      a first touch. */
  function CommitAsFound(s: State, v: nat): State
    requires Typed(s) && IsRescuing(s, v)
  {
    if s.virtuals[v].pte.Transition? then
      CommitRescue(s, v)
    else
      var p, write := s.virtuals[v].job.page, s.virtuals[v].job.write;
      var g := s.pages[p];
      var s1 := DetachOldPte(s, g);
      PutPage(Put(s1, v, s1.virtuals[v].(job := Ready(p, write))),
              p, g.(status := Active, slot := 0, modified := write || g.modified, pte := Some(v), hand := Nobody,
                    bytes := if g.status.Zero? then g.bytes else ZERO_PAGE))
  }

  /** Exactly when the page keeps its contents: if the PTE is in transition format
      by then, or there is nothing to lose. */
  lemma RescueKeepsContentsIff(s: State, mem: Memory, v: nat)
    requires Inv(s, mem) && IsRescuing(s, v)
    ensures v < |mem| && s.virtuals[v].job.page < |CommitAsFound(s, v).pages|
    ensures CommitAsFound(s, v).pages[s.virtuals[v].job.page].bytes == mem[v]
            <==> s.virtuals[v].pte.Transition? || mem[v] == ZERO_PAGE
  {
    assert VirtualOk(s, v) && PageOk(s, s.virtuals[v].job.page) && ContentsOk(s, mem, v);
  }

  /** From the time a thread copies the PTE in transition format: another one
      rescues the page, the trimmer clears its access bit and trims it again up
      to the list, the first thread rescues it, and the access bit is set. */
  const RESCUED_AND_TOUCHED: seq<Action> := [
    Fault(DoRescue(0, 0, true)), Fault(DoCommitRescue(0)), Connect(DoMap(0)), Connect(DoFinish(0)),
    Trim(DoMark(0)), Trim(DoUnmark(0)), Trim(DoMark(0)), Trim(DoChoose(0)), Trim(DoUnhook(0)), Trim(DoList(0)),
    Fault(DoRescue(0, 0, false)), User(DoTouch(0))]

  /** Then the wait is over, the PTE is in memory format, and the commit zeroes the
      page, in which the user has stored a word. */
  lemma RescueGapCanFail() returns (s: State)
    ensures Reachable(s) && |s.virtuals| == 1 && s.virtuals[0].pte == Transition(0)
    ensures AllPossible(s, RESCUED_AND_TOUCHED)
    ensures var mid := Run(s, RESCUED_AND_TOUCHED[..11]);
            var end := Run(s, RESCUED_AND_TOUCHED);
            && Typed(end) && IsRescuing(mid, 0) && IsRescuing(end, 0) && end.virtuals[0].job.page == 0
            && mid.virtuals[0].pte != end.virtuals[0].pte && end.virtuals[0].pte.Valid?
            && |end.pages| == 1 && Word(end.pages[0].bytes, 0) == 7
            && |CommitAsFound(end, 0).pages| == 1 && Word(CommitAsFound(end, 0).pages[0].bytes, 0) == 0
  {
    hide Reachable, Typed, AllPossible, Run;
    s := WrittenAndTrimmed();
    var mid := InUseAgain(s);
    mid := MarkedAgain(s, mid);
    mid := UnmappedAgain(s, mid);
    mid := ListedAgain(s, mid);
    mid := RescuedOnOldCopy(s, mid);
    mid := Touched(s, mid);
  }

  /** A virtual page whose PTE is being trimmed. */
  function TrimmedWith(hw: Mapping, job: Job, trim: Trim): Virtual {
    Virtual(Valid(0, ProtReadWrite, false, false, true), hw, job, trim)
  }

  /** After n steps from s: the state of the only virtual page and the only page,
      whose contents stay as they are. */
  ghost predicate Stands(s: State, n: nat, now: State, x: Virtual, status: Status, hand: Hand) {
    && n <= |RESCUED_AND_TOUCHED| && Reachable(now) && Typed(now)
    && AllPossible(s, RESCUED_AND_TOUCHED[..n]) && now == Run(s, RESCUED_AND_TOUCHED[..n])
    && now.virtuals == [x] && now.pages == [Page(status, 0, false, true, Some(0), ZERO_PAGE[0 := 7], hand)]
  }

  lemma WrittenAndTrimmed() returns (s: State)
    ensures Stands(s, 0, s, Trimmed(0), Modified, Nobody)
  {
    hide Reachable, Typed, AllPossible, Run;
    InitialIsReachable(1, 1);
    s := Initial(1, 1);
    s := FirstTouch(s, 0, 0);
    OneStep(s, User(DoUserWrite(0, 0, 7)));
    s := UserWrite(s, 0, 0, 7);
    s := TrimOut(s, 0, 0);
    NothingRun(s);
    assert RESCUED_AND_TOUCHED[..0] == [];
  }

  lemma CommittedAgain(s: State) returns (s': State)
    requires Stands(s, 0, s, Trimmed(0), Modified, Nobody)
    ensures Stands(s, 2, s', Virtual(Transition(0), Unmapped, Ready(0, true), NoTrim), Active, Nobody)
  {
    hide Reachable, Typed, AllPossible, Run;
    NothingRun(s);
    s' := Further(s, [], s, Fault(DoRescue(0, 0, true)));
    assert [] + [Fault(DoRescue(0, 0, true))] == RESCUED_AND_TOUCHED[..1];
    s' := Further(s, RESCUED_AND_TOUCHED[..1], s', Fault(DoCommitRescue(0)));
    assert RESCUED_AND_TOUCHED[..1] + [Fault(DoCommitRescue(0))] == RESCUED_AND_TOUCHED[..2];
  }

  lemma InUseAgain(s: State) returns (s': State)
    requires Stands(s, 0, s, Trimmed(0), Modified, Nobody)
    ensures Stands(s, 4, s', InUse(0), Active, Nobody)
  {
    hide Reachable, Typed, AllPossible, Run;
    s' := CommittedAgain(s);
    s' := Further(s, RESCUED_AND_TOUCHED[..2], s', Connect(DoMap(0)));
    assert RESCUED_AND_TOUCHED[..2] + [Connect(DoMap(0))] == RESCUED_AND_TOUCHED[..3];
    s' := Further(s, RESCUED_AND_TOUCHED[..3], s', Connect(DoFinish(0)));
    assert RESCUED_AND_TOUCHED[..3] + [Connect(DoFinish(0))] == RESCUED_AND_TOUCHED[..4];
  }

  lemma MarkedAgain(s: State, mid: State) returns (s': State)
    requires Stands(s, 4, mid, InUse(0), Active, Nobody)
    ensures Stands(s, 7, s', TrimmedWith(Mapped(0, true), NoJob, Trim.Marked), Active, Nobody)
  {
    hide Reachable, Typed, AllPossible, Run;
    s' := Further(s, RESCUED_AND_TOUCHED[..4], mid, Trim(DoMark(0)));
    assert RESCUED_AND_TOUCHED[..4] + [Trim(DoMark(0))] == RESCUED_AND_TOUCHED[..5];
    s' := Further(s, RESCUED_AND_TOUCHED[..5], s', Trim(DoUnmark(0)));
    assert RESCUED_AND_TOUCHED[..5] + [Trim(DoUnmark(0))] == RESCUED_AND_TOUCHED[..6];
    s' := Further(s, RESCUED_AND_TOUCHED[..6], s', Trim(DoMark(0)));
    assert RESCUED_AND_TOUCHED[..6] + [Trim(DoMark(0))] == RESCUED_AND_TOUCHED[..7];
  }

  lemma UnmappedAgain(s: State, mid: State) returns (s': State)
    requires Stands(s, 7, mid, TrimmedWith(Mapped(0, true), NoJob, Trim.Marked), Active, Nobody)
    ensures Stands(s, 9, s', TrimmedWith(Unmapped, NoJob, Unhooked(ToModified)), Active, Nobody)
  {
    hide Reachable, Typed, AllPossible, Run;
    s' := Further(s, RESCUED_AND_TOUCHED[..7], mid, Trim(DoChoose(0)));
    assert RESCUED_AND_TOUCHED[..7] + [Trim(DoChoose(0))] == RESCUED_AND_TOUCHED[..8];
    s' := Further(s, RESCUED_AND_TOUCHED[..8], s', Trim(DoUnhook(0)));
    assert RESCUED_AND_TOUCHED[..8] + [Trim(DoUnhook(0))] == RESCUED_AND_TOUCHED[..9];
  }

  lemma ListedAgain(s: State, mid: State) returns (s': State)
    requires Stands(s, 9, mid, TrimmedWith(Unmapped, NoJob, Unhooked(ToModified)), Active, Nobody)
    ensures Stands(s, 10, s', TrimmedWith(Unmapped, NoJob, Listed), Modified, Nobody)
  {
    hide Reachable, Typed, AllPossible, Run;
    s' := Further(s, RESCUED_AND_TOUCHED[..9], mid, Trim(DoList(0)));
    assert RESCUED_AND_TOUCHED[..9] + [Trim(DoList(0))] == RESCUED_AND_TOUCHED[..10];
  }

  lemma RescuedOnOldCopy(s: State, mid: State) returns (s': State)
    requires Stands(s, 10, mid, TrimmedWith(Unmapped, NoJob, Listed), Modified, Nobody)
    ensures Stands(s, 11, s', Virtual(Valid(0, ProtReadWrite, false, false, true), Unmapped, Rescuing(0, false),
            Listed), Modified, ForRescue(0))
  {
    hide Reachable, Typed, AllPossible, Run;
    s' := Further(s, RESCUED_AND_TOUCHED[..10], mid, Fault(DoRescue(0, 0, false)));
    assert RESCUED_AND_TOUCHED[..10] + [Fault(DoRescue(0, 0, false))] == RESCUED_AND_TOUCHED[..11];
  }

  lemma Touched(s: State, mid: State) returns (s': State)
    requires Stands(s, 11, mid, Virtual(Valid(0, ProtReadWrite, false, false, true), Unmapped, Rescuing(0, false),
             Listed), Modified, ForRescue(0))
    ensures Stands(s, 12, s', Virtual(Valid(0, ProtReadWrite, true, false, true), Unmapped, Rescuing(0, false), Listed),
                   Modified, ForRescue(0))
    ensures RESCUED_AND_TOUCHED[..12] == RESCUED_AND_TOUCHED
  {
    hide Reachable, Typed, AllPossible, Run;
    s' := Further(s, RESCUED_AND_TOUCHED[..11], mid, User(DoTouch(0)));
    assert RESCUED_AND_TOUCHED[..11] + [User(DoTouch(0))] == RESCUED_AND_TOUCHED[..12];
  }
}
