/** The source's own checks of its global state, as loops over the page table,
    exactly when they pass in a reachable state, and runs in which they fail. */
module DebugChecks {
  import opened PageState
  import opened Protocol
  import opened Invariant
  import opened Assertions
  import opened Theorems
  import opened Runs

  // ----- singly_allocated_disk_idx_check ---------------------------------------------

  /** The check counts PTE v as a reference to slot k. */
  predicate RefersToSlot(s: State, v: nat, k: nat)
    requires v < |s.virtuals|
  {
    match s.virtuals[v].pte
    case Unused => false
    case Valid(f, _, _, _, _) => f < |s.pages| && s.pages[f].slot == k
    case Transition(f) => f < |s.pages| && s.pages[f].slot == k
    case Disk(l, _) => l == k
  }

  method SlotIsSinglyAllocated(s: State, k: nat) returns (ok: bool)
    ensures ok <==> forall u, v :: 0 <= u < v < |s.virtuals| ==> !(RefersToSlot(s, u, k) && RefersToSlot(s, v, k))
  {
    var found: Option<nat> := None;
    for v := 0 to |s.virtuals|
      invariant found.Some? ==> found.value < v && RefersToSlot(s, found.value, k)
      invariant forall u :: 0 <= u < v && RefersToSlot(s, u, k) ==> found == Some(u)
    {
      if RefersToSlot(s, v, k) {
        if found.Some? { return false; }
        found := Some(v);
      }
    }
    return true;
  }

  /** The fault on v has not taken over its page yet, or has settled what
      becomes of the slot its PTE still names. */
  predicate InTransit(x: Virtual) {
    x.job.Claimed? || (Settled(x.job) && x.pte.Disk?)
  }

  /** Any other PTE refers to a slot exactly if it owns it, in the PTE itself or
      in its page. */
  lemma ReferenceIsOwnership(s: State, v: nat, k: nat)
    requires Sound(s) && v < |s.virtuals| && 0 < k < |s.slots| && !InTransit(s.virtuals[v])
    ensures RefersToSlot(s, v, k) <==> OnDisk(s, v, k) || KeptInPage(s, v, k)
  {
    assert VirtualOk(s, v);
  }

  /** The check of slot k fails. */
  ghost predicate SlotCheckFails(s: State, k: nat) {
    exists u, v :: 0 <= u < v < |s.virtuals| && RefersToSlot(s, u, k) && RefersToSlot(s, v, k)
  }

  /** A fault in transit refers to the slot. */
  predicate StrayReference(s: State, v: nat, k: nat)
    requires v < |s.virtuals|
  {
    InTransit(s.virtuals[v]) && RefersToSlot(s, v, k)
  }

  /** Of two PTEs that refer to a slot one is in transit. */
  lemma OneIsStray(s: State, k: nat, u: nat, v: nat)
    requires Reachable(s) && 0 < k < |s.slots| && u < |s.virtuals| && v < |s.virtuals| && u != v
    requires RefersToSlot(s, u, k) && RefersToSlot(s, v, k)
    ensures InTransit(s.virtuals[u]) || InTransit(s.virtuals[v])
  {
    var mem := ReachableInv(s);
    if !InTransit(s.virtuals[u]) && !InTransit(s.virtuals[v]) {
      ReferenceIsOwnership(s, u, k);
      ReferenceIsOwnership(s, v, k);
      OwnedOnce(s, k, u, v);
      assert false;
    }
  }

  lemma OwnerRefers(s: State, k: nat, v: nat)
    requires Sound(s) && 0 < k < |s.slots| && v < |s.virtuals|
    requires StrayReference(s, v, k) || OnDisk(s, v, k) || KeptInPage(s, v, k)
    ensures RefersToSlot(s, v, k)
  {
    if !InTransit(s.virtuals[v]) {
      ReferenceIsOwnership(s, v, k);
    } else {
      assert VirtualOk(s, v);
      if KeptInPage(s, v, k) { HomePointsBack(s, v); }
    }
  }

  /** A fault in transit refers to the slot, and so does another one, or another
      virtual page owns the slot, in its PTE or in its page. */
  predicate Stray(s: State, k: nat, u: nat, v: nat) {
    && u < |s.virtuals| && v < |s.virtuals| && u != v && StrayReference(s, u, k)
    && (StrayReference(s, v, k) || OnDisk(s, v, k) || KeptInPage(s, v, k))
  }

  lemma FailureIsStray(s: State, k: nat, u: nat, v: nat)
    requires Reachable(s) && 0 < k < |s.slots| && u < |s.virtuals| && v < |s.virtuals| && u != v
    requires RefersToSlot(s, u, k) && RefersToSlot(s, v, k)
    ensures Stray(s, k, u, v) || Stray(s, k, v, u)
  {
    var mem := ReachableInv(s);
    OneIsStray(s, k, u, v);
    if !InTransit(s.virtuals[u]) { ReferenceIsOwnership(s, u, k); }
    if !InTransit(s.virtuals[v]) { ReferenceIsOwnership(s, v, k); }
  }

  /** Exactly when the check of a slot other than 0 fails in a reachable state. */
  lemma SlotCheckFailsIff(s: State, k: nat)
    requires Reachable(s) && 0 < k < |s.slots|
    ensures SlotCheckFails(s, k) <==> exists u, v :: Stray(s, k, u, v)
  {
    var mem := ReachableInv(s);
    hide Inv, Sound, Reachable, RefersToSlot;
    if SlotCheckFails(s, k) {
      var u, v :| 0 <= u < v < |s.virtuals| && RefersToSlot(s, u, k) && RefersToSlot(s, v, k);
      FailureIsStray(s, k, u, v);
    }
    if u, v :| Stray(s, k, u, v) {
      StrayIsFailure(s, k, u, v);
    }
  }

  lemma StrayIsFailure(s: State, k: nat, u: nat, v: nat)
    requires Reachable(s) && 0 < k < |s.slots| && Stray(s, k, u, v)
    ensures SlotCheckFails(s, k)
  {
    var mem := ReachableInv(s);
    OwnerRefers(s, k, v);
    assert RefersToSlot(s, u, k) && RefersToSlot(s, v, k);
    if u < v { assert 0 <= u < v; } else { assert 0 <= v < u; }
  }

  /** A standby page that was written to slot 1, after a first touch of virtual
      page 0. */
  lemma StandbyPage() returns (s: State)
    ensures Reachable(s) && Typed(s) && |s.virtuals| == 2 && |s.pages| == 2 && |s.slots| == 4
    ensures s.virtuals[0] == Trimmed(1) && s.virtuals[1] == Virtual(Unused, Unmapped, NoJob, NoTrim)
    ensures s.pages[1] == Page(Standby, 1, false, false, Some(0), ZERO_PAGE, Nobody) && 1 in s.lists.standby
    ensures 1 !in s.lists.zero && 1 !in s.lists.free
  {
    hide Reachable, Typed;
    InitialIsReachable(2, 2);
    s := Initial(2, 2);
    s := FirstTouch(s, 0, 1);
    s := TrimOut(s, 0, 1);
    s := WriterStep(s, DoPop(1));
    AnyFreeSlotsWillDo(s, [1]);
    s := WriterStep(s, DoAllot([1]));
    s := WriterStep(s, DoStore(0));
    s := WriterStep(s, DoComplete(0));
  }

  /** The check of slot 1 fails: the page was repurposed and is being claimed for
      virtual page 1, and its pagefile index is still that of the old owner. */
  lemma SlotCheckCanFail() returns (s: State)
    ensures Reachable(s) && |s.slots| > 1 && SlotCheckFails(s, 1)
  {
    hide Reachable, Typed;
    s := StandbyPage();
    s := RefillStep(s, DoTakeOld(1));
    s := RefillStep(s, DoDetach(1));
    s := RefillStep(s, DoAddFree(1));
    OneStep(s, Fault(DoReserve(1)));
    s := Reserve(s, 1);
    OneStep(s, Fault(DoClaimFirst(1, 1, true)));
    s := ClaimFirst(s, 1, 1, true);
    assert RefersToSlot(s, 0, 1) && RefersToSlot(s, 1, 1);
  }

  // ----- pfn_is_single_allocated -------------------------------------------------------

  /** What the check reads as the frame number: an unused PTE is all zero bits,
      and is not told apart from one that names frame 0. */
  function FrameField(t: Pte): Option<nat> {
    match t
    case Unused => Some(0)
    case Valid(f, _, _, _, _) => Some(f)
    case Transition(f) => Some(f)
    case Disk(_, _) => None
  }

  /** PTE v names frame p, and no other does. */
  ghost predicate NamesOnly(s: State, v: nat, p: nat)
    requires v < |s.virtuals|
  {
    && FrameField(s.virtuals[v].pte) == Some(p)
    && forall u :: 0 <= u < |s.virtuals| && FrameField(s.virtuals[u].pte) == Some(p) ==> u == v
  }

  /** The scan returns TRUE or FALSE, and breaks into the debugger for a free page
      or when it finds the frame a second time. */
  method FrameIsSinglyAllocated(s: State, p: nat) returns (ok: bool, breaks: bool)
    requires p < |s.pages|
    ensures ok <==> exists v :: 0 <= v < |s.virtuals| && NamesOnly(s, v, p)
    ensures breaks <==> s.pages[p].status.Free? || NamedTwice(s, p)
  {
    breaks := s.pages[p].status.Free?;
    ok := false;
    ghost var found: nat := 0;
    for v := 0 to |s.virtuals|
      invariant ok ==> 0 <= found < v && FrameField(s.virtuals[found].pte) == Some(p)
      invariant forall u :: 0 <= u < v && FrameField(s.virtuals[u].pte) == Some(p) ==> ok && found == u
      invariant breaks == s.pages[p].status.Free?
    {
      if FrameField(s.virtuals[v].pte) == Some(p) {
        if ok {
          assert FrameField(s.virtuals[found].pte) == Some(p);
          return false, true;
        }
        ok, found := true, v;
      }
    }
    assert ok ==> NamesOnly(s, found, p);
  }

  ghost predicate NamedTwice(s: State, p: nat) {
    exists u, v :: 0 <= u < v < |s.virtuals|
                   && FrameField(s.virtuals[u].pte) == Some(p) && FrameField(s.virtuals[v].pte) == Some(p)
  }

  /** Exactly when a PTE that names a frame is the only one to do so in a
      reachable state: the page is not a standby page that is being claimed from
      its old owner, and, if it is frame 0, every PTE has been accessed. */
  lemma NamesOnlyIff(s: State, p: nat, v: nat)
    requires Reachable(s) && v < |s.virtuals| && FrameOf(s.virtuals[v].pte) == Some(p)
    ensures p < |s.pages|
    ensures NamesOnly(s, v, p) <==>
              && !(s.pages[p].hand.ForClaim? && s.pages[p].status.Standby?)
              && (p == 0 ==> forall u :: 0 <= u < |s.virtuals| ==> !s.virtuals[u].pte.Unused?)
  {
    var mem := ReachableInv(s);
    assert VirtualOk(s, v);
    assert PageOk(s, p);
    if s.pages[p].hand.ForClaim? && s.pages[p].status.Standby? {
      ClaimedStandbyIsNamedTwice(s, p);
    } else if p == 0 && exists u :: 0 <= u < |s.virtuals| && s.virtuals[u].pte.Unused? {
      var u :| 0 <= u < |s.virtuals| && s.virtuals[u].pte.Unused?;
      assert FrameField(s.virtuals[u].pte) == Some(p) && u != v;
    } else {
      forall u | 0 <= u < |s.virtuals| && FrameField(s.virtuals[u].pte) == Some(p) ensures u == v {
        if u != v { FramesAreDistinct(s, u, v); ClaimOfStandby(s, u, v); }
      }
    }
  }

  /** The old owner of a standby page that is being claimed still names it. */
  lemma ClaimedStandbyIsNamedTwice(s: State, p: nat)
    requires Sound(s) && p < |s.pages| && s.pages[p].hand.ForClaim? && s.pages[p].status.Standby?
    ensures s.pages[p].pte.Some? && s.pages[p].pte.value < |s.virtuals| && s.pages[p].hand.v < |s.virtuals|
    ensures s.pages[p].pte.value != s.pages[p].hand.v
    ensures FrameField(s.virtuals[s.pages[p].pte.value].pte) == Some(p)
            && FrameField(s.virtuals[s.pages[p].hand.v].pte) == Some(p)
  {
    assert PageOk(s, p);
    assert VirtualOk(s, s.pages[p].hand.v) && VirtualOk(s, s.pages[p].pte.value);
  }

  lemma ClaimOfStandby(s: State, u: nat, v: nat)
    requires Sound(s) && u < |s.virtuals| && v < |s.virtuals| && FrameOf(s.virtuals[u].pte).Some?
    requires FrameOf(s.virtuals[u].pte) == FrameOf(s.virtuals[v].pte)
             && (s.virtuals[u].job.Claimed? || s.virtuals[v].job.Claimed?)
    ensures FrameOf(s.virtuals[u].pte).value < |s.pages| && s.pages[FrameOf(s.virtuals[u].pte).value].hand.ForClaim?
  {
    assert VirtualOk(s, u) && VirtualOk(s, v);
  }

  /** The check of a frame fails while its page is claimed from its old owner. */
  lemma FrameCheckCanFail() returns (s: State)
    ensures Reachable(s) && |s.pages| > 1 && NamedTwice(s, 1) && s.pages[1].status.Standby?
  {
    hide Reachable, Typed;
    s := StandbyPage();
    OneStep(s, Fault(DoReserve(1)));
    s := Reserve(s, 1);
    OneStep(s, Fault(DoClaimFirst(1, 1, true)));
    s := ClaimFirst(s, 1, 1, true);
    assert FrameField(s.virtuals[0].pte) == Some(1) && FrameField(s.virtuals[1].pte) == Some(1);
  }

  /** The check of frame 0 fails after the first of two virtual pages is touched:
      the PTE of the other one is all zero bits. */
  lemma FrameZeroCanFail() returns (s: State)
    ensures Reachable(s) && |s.pages| > 0 && s.pages[0].status.Active? && NamedTwice(s, 0)
  {
    hide Reachable, Typed;
    InitialIsReachable(2, 1);
    s := Initial(2, 1);
    s := FirstTouch(s, 0, 0);
    assert FrameField(s.virtuals[0].pte) == Some(0) && FrameField(s.virtuals[1].pte) == Some(0);
  }
}
