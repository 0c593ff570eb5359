/** The trimmer gives a page its status and then links it to its list, without the
    pagelock; the protocol takes this as one step.  In between, a thread with an
    old copy of the PTE can rescue the page: what it unlinks then. */
module ListGap {
  import opened PageState
  import opened Protocol
  import opened Invariant
  import opened WriterSteps
  import opened Refinement
  import opened Assertions
  import opened Runs
  import opened RescueGap

  /** The first part of List: the status, without the list. */
  function ListStatus(s: State, v: nat): State
    requires Typed(s) && CanList(s, v) && s.virtuals[v].pte.Valid?
  {
    var p := s.virtuals[v].pte.frame;
    var status := if s.virtuals[v].trim.target.ToModified? then Modified else Standby;
    PutPage(s, p, s.pages[p].(status := status))
  }

  /** The second part. */
  function ListLink(s: State, v: nat): State
    requires Typed(s) && CanList(s, v) && s.virtuals[v].pte.Valid?
  {
    var p, l := s.virtuals[v].pte.frame, s.lists;
    Put(s, v, s.virtuals[v].(trim := Listed)).(lists :=
      if s.virtuals[v].trim.target.ToModified? then l.(modified := l.modified + {p})
      else l.(standby := l.standby + {p}, available := l.available + 1))
  }

  lemma ListInParts(s: State, v: nat)
    requires Typed(s) && CanList(s, v) && s.virtuals[v].pte.Valid?
    ensures Typed(ListStatus(s, v)) && CanList(ListStatus(s, v), v)
    ensures ListLink(ListStatus(s, v), v) == List(s, v)
  {
    assert ListLink(ListStatus(s, v), v).pages == List(s, v).pages;
  }

  /** How many lists a page is on when rescue_page looks for it there. */
  function LinksWanted(g: Page): nat {
    if g.status.Modified? && InFlight(g) then 0 else 1
  }

  /** Between the parts: a rescue finds its page linked as it needs it if and only
      if it is not for the page that is being listed. */
  lemma RescueFindsLinksIff(s: State, v: nat, u: nat, q: nat)
    requires Reachable(s) && Typed(s) && CanList(s, v) && s.virtuals[v].pte.Valid?
    requires CanRescue(ListStatus(s, v), u, q)
    ensures Links(ListStatus(s, v), q) == LinksWanted(ListStatus(s, v).pages[q]) <==> q != s.virtuals[v].pte.frame
  {
    var mem := ReachableInv(s);
    assert VirtualOk(s, v) && PageOk(s, s.virtuals[v].pte.frame) && PageOk(s, q);
  }

  /** And that page is there for everyone with an old copy: the trimmer holds no
      lock on it. */
  lemma ListedCanBeRescued(s: State, v: nat)
    requires Reachable(s) && CanList(s, v)
    ensures Typed(s) && s.virtuals[v].pte.Valid?
    ensures var s', p := ListStatus(s, v), s.virtuals[v].pte.frame;
            CanRescue(s', v, p) && Links(s', p) == 0 && LinksWanted(s'.pages[p]) == 1
  {
    var mem := ReachableInv(s);
    assert VirtualOk(s, v);
    assert PageOk(s, s.virtuals[v].pte.frame);
  }

  /** A run with such a thread: it copies the PTE in transition format, and then
      another one rescues the page, and the trimmer trims it again up to the
      status. */
  lemma ListGapCanFail() returns (s: State)
    ensures Reachable(s) && |s.virtuals| == 1 && s.virtuals[0].pte == Transition(0)
    ensures AllPossible(s, RESCUED_AND_TOUCHED[..9])
    ensures var mid := Run(s, RESCUED_AND_TOUCHED[..9]);
            && Typed(mid) && CanList(mid, 0) && mid.virtuals[0].pte.Valid?
            && CanRescue(ListStatus(mid, 0), 0, 0)
            && Links(ListStatus(mid, 0), 0) == 0 && LinksWanted(ListStatus(mid, 0).pages[0]) == 1
  {
    hide Reachable, Typed, AllPossible, Run;
    s := WrittenAndTrimmed();
    var mid := InUseAgain(s);
    mid := MarkedAgain(s, mid);
    mid := UnmappedAgain(s, mid);
    ListedCanBeRescued(mid, 0);
  }
}
