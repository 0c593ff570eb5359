/** The gaps in Remap on both sides of the drop, with any steps of others in them:
    exactly when the parts come to the same as the one step. */
module RemapGapExact {
  import opened PageState
  import opened Protocol
  import opened Invariant
  import opened WriterSteps
  import opened Interference
  import opened Refinement
  import opened Assertions
  import opened Runs
  import opened RemapGap

  // ----- a page that keeps a slot it should not ---------------------------------------------

  /** The same state, but page p keeps slot k, unless k is 0. */
  function Held(s: State, p: nat, k: nat): State
    requires p < |s.pages| && k < |s.slots|
  {
    if k == 0 then s
    else PutSlot(PutPage(s, p, s.pages[p].(slot := k)), k, s.slots[k].(used := true, deed := ByPage(p)))
  }

  /** Then the slot is nobody's in the state as it should be. */
  ghost predicate HoldsSlot(s: State, v: nat, p: nat, k: nat) {
    && Upgrading(s, v, p) && k < |s.slots| && s.pages[p].slot == 0
    && (k != 0 ==> !s.slots[k].used && s.slots[k].deed.NoDeed? && !s.pages[p].writing)
  }

  /** The step does the same whether the slot is kept or not. */
  ghost predicate SameHeld(s: State, v: nat, p: nat, k: nat, a: Action)
    requires Typed(s) && Enabled(s, a) && p < |s.pages| && k < |s.slots|
  {
    && Typed(Held(s, p, k)) && Enabled(Held(s, p, k), a)
    && p < |Apply(s, a).pages| && k < |Apply(s, a).slots|
    && Apply(Held(s, p, k), a) == Held(Apply(s, a), p, k)
    && !Apply(s, a).slots[k].used && Apply(s, a).slots[k].deed.NoDeed?
    && !Apply(s, a).pages[p].writing && Apply(s, a).pages[p].slot == 0
  }

  lemma HeldFacts(s: State, v: nat, p: nat, k: nat)
    requires HoldsSlot(s, v, p, k) && Typed(s) && 0 < k
    ensures Typed(Held(s, p, k)) && Private(s, v, p) && Private(Held(s, p, k), v, p)
    ensures s.pages[p].status.Active? && s.pages[p].hand.Nobody? && s.pages[p].slot == 0 && !s.pages[p].writing
    ensures !s.slots[k].used && s.slots[k].deed.NoDeed?
    ensures p !in s.lists.zero && p !in s.lists.free && p !in s.lists.standby && p !in s.lists.modified
    ensures s.virtuals[v].job == Changing(p, ProtRead, true, true)
    ensures s.virtuals[v].trim.NoTrim? || s.virtuals[v].trim.Listed? || s.virtuals[v].trim.Copied?
  {
    UpgradingIsPrivate(s, v, p);
  }

  // ----- where the slot is not ------------------------------------------------------------------

  lemma PteElsewhere(s: State, k: nat, u: nat)
    requires Sound(s) && 0 < k < |s.slots| && !s.slots[k].used && u < |s.virtuals|
    requires s.virtuals[u].pte.Disk? && !Settled(s.virtuals[u].job)
    ensures s.virtuals[u].pte.slot != k && s.virtuals[u].pte.slot < |s.slots|
  {
    assert VirtualOk(s, u) && SlotOk(s, k);
  }

  lemma PageElsewhere(s: State, k: nat, q: nat)
    requires Sound(s) && 0 < k < |s.slots| && !s.slots[k].used && q < |s.pages|
    requires s.pages[q].pte.Some? && !s.pages[q].hand.Detached?
    requires s.pages[q].status.Standby? || (s.pages[q].status.Active? && s.pages[q].pte.value < |s.virtuals|
             && s.virtuals[s.pages[q].pte.value].job.Changing?)
    ensures s.pages[q].slot != k && s.pages[q].slot < |s.slots|
    ensures s.pages[q].pte.value < |s.virtuals|
  {
    assert PageOk(s, q) && SlotOk(s, k);
    assert VirtualOk(s, s.pages[q].pte.value);
  }

  lemma EntryElsewhere(s: State, k: nat, i: nat)
    requires Sound(s) && 0 < k < |s.slots| && !s.slots[k].used && i < |s.batch| && s.writing && !s.batch[i].done
    ensures s.batch[i].slot != k && s.batch[i].slot < |s.slots| && s.batch[i].page < |s.pages|
    ensures s.pages[s.batch[i].page].writing
  {
    assert EntryOk(s, i) && SlotOk(s, k);
  }

  lemma CopiedIsElsewhere(s: State, k: nat, i: nat)
    requires Sound(s) && 0 < k < |s.slots| && !s.slots[k].used && CanStore(s, i)
    ensures s.batch[i].slot != k && s.batch[i].slot < |s.slots| && s.batch[i].page < |s.pages|
  {
    assert EntryOk(s, i) && SlotOk(s, k);
  }

  lemma RemappedElsewhere(s: State, k: nat, u: nat)
    requires Sound(s) && 0 < k < |s.slots| && !s.slots[k].used && CanRemap(s, u)
    ensures s.virtuals[u].job.frame < |s.pages| && s.pages[s.virtuals[u].job.frame].slot < |s.slots|
    ensures s.pages[s.virtuals[u].job.frame].slot != k
  {
    assert VirtualOk(s, u);
    PageElsewhere(s, k, s.virtuals[u].job.frame);
  }

  lemma ClaimedElsewhere(s: State, k: nat, u: nat)
    requires Sound(s) && 0 < k < |s.slots| && !s.slots[k].used && CanCommitFirst(s, u)
    requires s.virtuals[u].job.page < |s.pages| && s.pages[s.virtuals[u].job.page].status.Standby?
    ensures s.pages[s.virtuals[u].job.page].slot != k && s.pages[s.virtuals[u].job.page].pte.Some?
  {
    assert VirtualOk(s, u) && PageOk(s, s.virtuals[u].job.page);
    PageElsewhere(s, k, s.virtuals[u].job.page);
  }

  lemma RescuedPageElsewhere(s: State, k: nat, u: nat)
    requires Sound(s) && 0 < k < |s.slots| && !s.slots[k].used && CanCommitRescue(s, u)
    requires s.virtuals[u].job.page < |s.pages| && s.pages[s.virtuals[u].job.page].status.Standby?
    ensures s.pages[s.virtuals[u].job.page].slot != k
  {
    assert VirtualOk(s, u);
    PageElsewhere(s, k, s.virtuals[u].job.page);
  }

  lemma PoppedElsewhere(s: State, k: nat, q: nat)
    requires Sound(s) && 0 < k < |s.slots| && !s.slots[k].used && q < |s.pages| && s.pages[q].status.Standby?
    requires s.pages[q].hand.Popped? || s.pages[q].hand.Refresh?
    ensures s.pages[q].slot != k && s.pages[q].pte.Some?
  {
    assert PageOk(s, q);
    PageElsewhere(s, k, q);
  }

  // ----- step by step ---------------------------------------------------------------------------

  lemma ListedHeld(s: State, v: nat, p: nat, k: nat, a: FaultAction)
    requires HoldsSlot(s, v, p, k) && Typed(s) && v < |s.virtuals| && p < |s.pages| && 0 < k < |s.slots|
    requires FaultEnabled(s, a) && Foreigner(Fault(a), v)
    requires a.DoReserve? || a.DoReturn?
    ensures SameHeld(s, v, p, k, Fault(a))
  {
    hide Sound, Private;
    HeldFacts(s, v, p, k);
    assert FaultApply(Held(s, p, k), a).pages == Held(FaultApply(s, a), p, k).pages;
    assert FaultApply(Held(s, p, k), a).slots == Held(FaultApply(s, a), p, k).slots;
  }

  lemma RescueHeld(s: State, v: nat, p: nat, k: nat, a: FaultAction)
    requires HoldsSlot(s, v, p, k) && Typed(s) && v < |s.virtuals| && p < |s.pages| && 0 < k < |s.slots|
    requires FaultEnabled(s, a) && Foreigner(Fault(a), v)
    requires a.DoRescue?
    ensures SameHeld(s, v, p, k, Fault(a))
  {
    hide Sound, Private;
    HeldFacts(s, v, p, k);
    RescuedElsewhere(s, v, p, a.v, a.p);
    assert FaultApply(Held(s, p, k), a).pages == Held(FaultApply(s, a), p, k).pages;
    assert FaultApply(Held(s, p, k), a).slots == Held(FaultApply(s, a), p, k).slots;
  }

  lemma ClaimHeld(s: State, v: nat, p: nat, k: nat, a: FaultAction)
    requires HoldsSlot(s, v, p, k) && Typed(s) && v < |s.virtuals| && p < |s.pages| && 0 < k < |s.slots|
    requires FaultEnabled(s, a) && Foreigner(Fault(a), v)
    requires a.DoClaimChange? || a.DoClaimFirst?
    ensures SameHeld(s, v, p, k, Fault(a))
  {
    hide Sound, Private;
    HeldFacts(s, v, p, k);
    assert FaultApply(Held(s, p, k), a).pages == Held(FaultApply(s, a), p, k).pages;
    assert FaultApply(Held(s, p, k), a).slots == Held(FaultApply(s, a), p, k).slots;
  }

  lemma RemapHeld(s: State, v: nat, p: nat, k: nat, a: FaultAction)
    requires HoldsSlot(s, v, p, k) && Typed(s) && v < |s.virtuals| && p < |s.pages| && 0 < k < |s.slots|
    requires FaultEnabled(s, a) && Foreigner(Fault(a), v)
    requires a.DoRemap?
    ensures SameHeld(s, v, p, k, Fault(a))
  {
    hide Sound, Private;
    HeldFacts(s, v, p, k);
    OtherPage(s, v, p, a.v);
    RemappedElsewhere(s, k, a.v);
    assert FaultApply(Held(s, p, k), a).pages == Held(FaultApply(s, a), p, k).pages;
    assert FaultApply(Held(s, p, k), a).slots == Held(FaultApply(s, a), p, k).slots;
  }

  lemma FinishChangeHeld(s: State, v: nat, p: nat, k: nat, a: FaultAction)
    requires HoldsSlot(s, v, p, k) && Typed(s) && v < |s.virtuals| && p < |s.pages| && 0 < k < |s.slots|
    requires FaultEnabled(s, a) && Foreigner(Fault(a), v)
    requires a.DoFinishChange?
    ensures SameHeld(s, v, p, k, Fault(a))
  {
    hide Sound, Private;
    HeldFacts(s, v, p, k);
    assert FaultApply(Held(s, p, k), a).pages == Held(FaultApply(s, a), p, k).pages;
    assert FaultApply(Held(s, p, k), a).slots == Held(FaultApply(s, a), p, k).slots;
  }

  lemma CommitFirstHeld(s: State, v: nat, p: nat, k: nat, a: FaultAction)
    requires HoldsSlot(s, v, p, k) && Typed(s) && v < |s.virtuals| && p < |s.pages| && 0 < k < |s.slots|
    requires FaultEnabled(s, a) && Foreigner(Fault(a), v)
    requires a.DoCommitFirst?
    ensures SameHeld(s, v, p, k, Fault(a))
  {
    hide Sound, Private;
    HeldFacts(s, v, p, k);
    OtherPage(s, v, p, a.v);
    InRange(s, a.v);
    if s.pages[s.virtuals[a.v].job.page].status.Standby? { ClaimedElsewhere(s, k, a.v); }
    assert FaultApply(Held(s, p, k), a).pages == Held(FaultApply(s, a), p, k).pages;
    assert FaultApply(Held(s, p, k), a).slots == Held(FaultApply(s, a), p, k).slots;
  }

  lemma CommitRescueHeld(s: State, v: nat, p: nat, k: nat, a: FaultAction)
    requires HoldsSlot(s, v, p, k) && Typed(s) && v < |s.virtuals| && p < |s.pages| && 0 < k < |s.slots|
    requires FaultEnabled(s, a) && Foreigner(Fault(a), v)
    requires a.DoCommitRescue?
    ensures SameHeld(s, v, p, k, Fault(a))
  {
    hide Sound, Private;
    HeldFacts(s, v, p, k);
    OtherPage(s, v, p, a.v);
    InRange(s, a.v);
    if s.pages[s.virtuals[a.v].job.page].status.Standby? { RescuedPageElsewhere(s, k, a.v); }
    assert FaultApply(Held(s, p, k), a).pages == Held(FaultApply(s, a), p, k).pages;
    assert FaultApply(Held(s, p, k), a).slots == Held(FaultApply(s, a), p, k).slots;
  }

  lemma RightHeld(s: State, v: nat, p: nat, k: nat, a: ConnectAction)
    requires HoldsSlot(s, v, p, k) && Typed(s) && v < |s.virtuals| && p < |s.pages| && 0 < k < |s.slots|
    requires ConnectEnabled(s, a) && Foreigner(Connect(a), v)
    requires a.DoTakeRight? || a.DoDropRight?
    ensures SameHeld(s, v, p, k, Connect(a))
  {
    hide Sound, Private;
    HeldFacts(s, v, p, k);
    assert ConnectApply(Held(s, p, k), a).pages == Held(ConnectApply(s, a), p, k).pages;
    assert ConnectApply(Held(s, p, k), a).slots == Held(ConnectApply(s, a), p, k).slots;
  }

  lemma CommitDiskHeld(s: State, v: nat, p: nat, k: nat, a: ConnectAction)
    requires HoldsSlot(s, v, p, k) && Typed(s) && v < |s.virtuals| && p < |s.pages| && 0 < k < |s.slots|
    requires ConnectEnabled(s, a) && Foreigner(Connect(a), v)
    requires a.DoCommitDisk?
    ensures SameHeld(s, v, p, k, Connect(a))
  {
    hide Sound, Private;
    HeldFacts(s, v, p, k);
    PageInRange(s, a.p);
    if s.pages[a.p].status.Standby? { PoppedElsewhere(s, k, a.p); }
    assert ConnectApply(Held(s, p, k), a).pages == Held(ConnectApply(s, a), p, k).pages;
    assert ConnectApply(Held(s, p, k), a).slots == Held(ConnectApply(s, a), p, k).slots;
  }

  lemma FillHeld(s: State, v: nat, p: nat, k: nat, a: ConnectAction)
    requires HoldsSlot(s, v, p, k) && Typed(s) && v < |s.virtuals| && p < |s.pages| && 0 < k < |s.slots|
    requires ConnectEnabled(s, a) && Foreigner(Connect(a), v)
    requires a.DoFill?
    ensures SameHeld(s, v, p, k, Connect(a))
  {
    hide Sound, Private;
    HeldFacts(s, v, p, k);
    OtherPage(s, v, p, a.v);
    InRange(s, a.v);
    assert ConnectApply(Held(s, p, k), a).pages == Held(ConnectApply(s, a), p, k).pages;
    assert ConnectApply(Held(s, p, k), a).slots == Held(ConnectApply(s, a), p, k).slots;
  }

  lemma SettleWriteHeld(s: State, v: nat, p: nat, k: nat, u: nat)
    requires HoldsSlot(s, v, p, k) && Typed(s) && v < |s.virtuals| && p < |s.pages| && 0 < k < |s.slots|
    requires CanSettle(s, u) && s.virtuals[u].job.write
    ensures SameHeld(s, v, p, k, Connect(DoSettle(u)))
  {
    hide Sound, Private, Typed;
    HeldFacts(s, v, p, k);
    OtherPage(s, v, p, u);
    InRange(s, u);
    if s.virtuals[u].pte.Disk? { PteElsewhere(s, k, u); }
    assert Settle(Held(s, p, k), u).pages == Held(Settle(s, u), p, k).pages;
    assert Settle(Held(s, p, k), u).slots == Held(Settle(s, u), p, k).slots;
  }

  lemma SettleReadHeld(s: State, v: nat, p: nat, k: nat, u: nat)
    requires HoldsSlot(s, v, p, k) && Typed(s) && v < |s.virtuals| && p < |s.pages| && 0 < k < |s.slots|
    requires CanSettle(s, u) && !s.virtuals[u].job.write
    ensures SameHeld(s, v, p, k, Connect(DoSettle(u)))
  {
    hide Sound, Private, Typed;
    HeldFacts(s, v, p, k);
    OtherPage(s, v, p, u);
    InRange(s, u);
    if s.virtuals[u].pte.Disk? { PteElsewhere(s, k, u); }
    assert Settle(Held(s, p, k), u).pages == Held(Settle(s, u), p, k).pages;
    assert Settle(Held(s, p, k), u).slots == Held(Settle(s, u), p, k).slots;
  }

  lemma MapHeld(s: State, v: nat, p: nat, k: nat, a: ConnectAction)
    requires HoldsSlot(s, v, p, k) && Typed(s) && v < |s.virtuals| && p < |s.pages| && 0 < k < |s.slots|
    requires ConnectEnabled(s, a) && Foreigner(Connect(a), v)
    requires a.DoMap? || a.DoFinish?
    ensures SameHeld(s, v, p, k, Connect(a))
  {
    hide Sound, Private;
    HeldFacts(s, v, p, k);
    assert ConnectApply(Held(s, p, k), a).pages == Held(ConnectApply(s, a), p, k).pages;
    assert ConnectApply(Held(s, p, k), a).slots == Held(ConnectApply(s, a), p, k).slots;
  }

  lemma UserHeld(s: State, v: nat, p: nat, k: nat, a: UserAction)
    requires HoldsSlot(s, v, p, k) && Typed(s) && v < |s.virtuals| && p < |s.pages| && 0 < k < |s.slots|
    requires UserEnabled(s, a) && Foreigner(User(a), v)
    ensures SameHeld(s, v, p, k, User(a))
  {
    hide Sound, Private;
    HeldFacts(s, v, p, k);
    assert UserApply(Held(s, p, k), a).pages == Held(UserApply(s, a), p, k).pages;
    assert UserApply(Held(s, p, k), a).slots == Held(UserApply(s, a), p, k).slots;
  }

  lemma MarkHeld(s: State, v: nat, p: nat, k: nat, a: TrimAction)
    requires HoldsSlot(s, v, p, k) && Typed(s) && v < |s.virtuals| && p < |s.pages| && 0 < k < |s.slots|
    requires TrimEnabled(s, a) && Foreigner(Trim(a), v)
    requires a.DoMark? || a.DoUnmark? || a.DoUnhook?
    ensures SameHeld(s, v, p, k, Trim(a))
  {
    hide Sound, Private;
    HeldFacts(s, v, p, k);
    assert TrimApply(Held(s, p, k), a).pages == Held(TrimApply(s, a), p, k).pages;
    assert TrimApply(Held(s, p, k), a).slots == Held(TrimApply(s, a), p, k).slots;
  }

  lemma ChooseHeld(s: State, v: nat, p: nat, k: nat, a: TrimAction)
    requires HoldsSlot(s, v, p, k) && Typed(s) && v < |s.virtuals| && p < |s.pages| && 0 < k < |s.slots|
    requires TrimEnabled(s, a) && Foreigner(Trim(a), v)
    requires a.DoChoose?
    ensures SameHeld(s, v, p, k, Trim(a))
  {
    hide Sound, Private;
    HeldFacts(s, v, p, k);
    OtherPage(s, v, p, a.v);
    assert TrimApply(Held(s, p, k), a).pages == Held(TrimApply(s, a), p, k).pages;
    assert TrimApply(Held(s, p, k), a).slots == Held(TrimApply(s, a), p, k).slots;
  }

  lemma ListHeld(s: State, v: nat, p: nat, k: nat, a: TrimAction)
    requires HoldsSlot(s, v, p, k) && Typed(s) && v < |s.virtuals| && p < |s.pages| && 0 < k < |s.slots|
    requires TrimEnabled(s, a) && Foreigner(Trim(a), v)
    requires a.DoList?
    ensures SameHeld(s, v, p, k, Trim(a))
  {
    hide Sound, Private;
    HeldFacts(s, v, p, k);
    OtherPage(s, v, p, a.v);
    assert TrimApply(Held(s, p, k), a).pages == Held(TrimApply(s, a), p, k).pages;
    assert TrimApply(Held(s, p, k), a).slots == Held(TrimApply(s, a), p, k).slots;
  }

  lemma SwapHeld(s: State, v: nat, p: nat, k: nat, a: TrimAction)
    requires HoldsSlot(s, v, p, k) && Typed(s) && v < |s.virtuals| && p < |s.pages| && 0 < k < |s.slots|
    requires TrimEnabled(s, a) && Foreigner(Trim(a), v)
    requires a.DoCopy? || a.DoSwap?
    ensures SameHeld(s, v, p, k, Trim(a))
  {
    hide Sound, Private;
    HeldFacts(s, v, p, k);
    assert TrimApply(Held(s, p, k), a).pages == Held(TrimApply(s, a), p, k).pages;
    assert TrimApply(Held(s, p, k), a).slots == Held(TrimApply(s, a), p, k).slots;
  }

  lemma PopHeld(s: State, v: nat, p: nat, k: nat, a: WriterAction)
    requires HoldsSlot(s, v, p, k) && Typed(s) && v < |s.virtuals| && p < |s.pages| && 0 < k < |s.slots|
    requires WriterEnabled(s, a) && Foreigner(Writer(a), v)
    requires a.DoPop?
    ensures SameHeld(s, v, p, k, Writer(a))
  {
    hide Sound, Private;
    HeldFacts(s, v, p, k);
    assert WriterApply(Held(s, p, k), a).pages == Held(WriterApply(s, a), p, k).pages;
    assert WriterApply(Held(s, p, k), a).slots == Held(WriterApply(s, a), p, k).slots;
  }

  lemma StoreHeld(s: State, v: nat, p: nat, k: nat, a: WriterAction)
    requires HoldsSlot(s, v, p, k) && Typed(s) && v < |s.virtuals| && p < |s.pages| && 0 < k < |s.slots|
    requires WriterEnabled(s, a) && Foreigner(Writer(a), v)
    requires a.DoStore?
    ensures SameHeld(s, v, p, k, Writer(a))
  {
    hide Sound, Private;
    HeldFacts(s, v, p, k);
    CopiedIsElsewhere(s, k, a.i);
    assert WriterApply(Held(s, p, k), a).pages == Held(WriterApply(s, a), p, k).pages;
    assert WriterApply(Held(s, p, k), a).slots == Held(WriterApply(s, a), p, k).slots;
  }

  lemma NextHeld(s: State, v: nat, p: nat, k: nat, a: WriterAction)
    requires HoldsSlot(s, v, p, k) && Typed(s) && v < |s.virtuals| && p < |s.pages| && 0 < k < |s.slots|
    requires WriterEnabled(s, a) && Foreigner(Writer(a), v)
    requires a.DoNextBatch?
    ensures SameHeld(s, v, p, k, Writer(a))
  {
    hide Sound, Private;
    HeldFacts(s, v, p, k);
    assert WriterApply(Held(s, p, k), a).pages == Held(WriterApply(s, a), p, k).pages;
    assert WriterApply(Held(s, p, k), a).slots == Held(WriterApply(s, a), p, k).slots;
  }

  lemma CompleteHeld(s: State, v: nat, p: nat, k: nat, a: WriterAction)
    requires HoldsSlot(s, v, p, k) && Typed(s) && v < |s.virtuals| && p < |s.pages| && 0 < k < |s.slots|
    requires WriterEnabled(s, a) && Foreigner(Writer(a), v)
    requires a.DoComplete?
    ensures SameHeld(s, v, p, k, Writer(a))
  {
    hide Sound, Private;
    HeldFacts(s, v, p, k);
    EntryElsewhere(s, k, a.i);
    assert WriterApply(Held(s, p, k), a).pages == Held(WriterApply(s, a), p, k).pages;
    assert WriterApply(Held(s, p, k), a).slots == Held(WriterApply(s, a), p, k).slots;
  }

  lemma TakeOldHeld(s: State, v: nat, p: nat, k: nat, a: RefillAction)
    requires HoldsSlot(s, v, p, k) && Typed(s) && v < |s.virtuals| && p < |s.pages| && 0 < k < |s.slots|
    requires RefillEnabled(s, a) && Foreigner(Refill(a), v)
    requires a.DoTakeOld? || a.DoAddFree? || a.DoAddZeroSlot?
    ensures SameHeld(s, v, p, k, Refill(a))
  {
    hide Sound, Private;
    HeldFacts(s, v, p, k);
    assert RefillApply(Held(s, p, k), a).pages == Held(RefillApply(s, a), p, k).pages;
    assert RefillApply(Held(s, p, k), a).slots == Held(RefillApply(s, a), p, k).slots;
  }

  lemma DetachHeld(s: State, v: nat, p: nat, k: nat, a: RefillAction)
    requires HoldsSlot(s, v, p, k) && Typed(s) && v < |s.virtuals| && p < |s.pages| && 0 < k < |s.slots|
    requires RefillEnabled(s, a) && Foreigner(Refill(a), v)
    requires a.DoDetach?
    ensures SameHeld(s, v, p, k, Refill(a))
  {
    hide Sound, Private;
    HeldFacts(s, v, p, k);
    PageInRange(s, a.p);
    if s.pages[a.p].status.Standby? { PoppedElsewhere(s, k, a.p); }
    assert RefillApply(Held(s, p, k), a).pages == Held(RefillApply(s, a), p, k).pages;
    assert RefillApply(Held(s, p, k), a).slots == Held(RefillApply(s, a), p, k).slots;
  }

  lemma ZeroHeld(s: State, v: nat, p: nat, k: nat, a: RefillAction)
    requires HoldsSlot(s, v, p, k) && Typed(s) && v < |s.virtuals| && p < |s.pages| && 0 < k < |s.slots|
    requires RefillEnabled(s, a) && Foreigner(Refill(a), v)
    requires a.DoTakeZeroSlot? || a.DoClear? || a.DoAddZero?
    ensures SameHeld(s, v, p, k, Refill(a))
  {
    hide Sound, Private;
    HeldFacts(s, v, p, k);
    assert RefillApply(Held(s, p, k), a).pages == Held(RefillApply(s, a), p, k).pages;
    assert RefillApply(Held(s, p, k), a).slots == Held(RefillApply(s, a), p, k).slots;
  }

  lemma FreeWithout(s: State, v: nat, p: nat, k: nat)
    requires HoldsSlot(s, v, p, k) && 0 < k && !s.writing
    ensures FreeSlotSet(Held(s, p, k)) == FreeSlotSet(s) - {k} && |FreeSlotSet(s)| > |s.batch|
    ensures |FreeSlotSet(Held(s, p, k))| == |FreeSlotSet(s)| - 1
  {
    SlotsSuffice(s);
    assert k in FreeSlotSet(s);
    assert FreeSlotSet(Held(s, p, k)) == FreeSlotSet(s) - {k};
  }

  /** The writer gets its slots without this one. */
  lemma AllotHeld(s: State, v: nat, p: nat, k: nat, slots: seq<nat>)
    requires HoldsSlot(s, v, p, k) && Typed(s) && p < |s.pages| && 0 < k < |s.slots| && CanAllot(Held(s, p, k), slots)
    ensures CanAllot(s, slots) && SameHeld(s, v, p, k, Writer(DoAllot(slots)))
  {
    FreeWithout(s, v, p, k);
    HeldFacts(s, v, p, k);
    hide Sound, Private;
    assert k !in slots;
    assert Allot(Held(s, p, k), slots).slots == Held(Allot(s, slots), p, k).slots;
  }

  /** Whatever can be done while the slot is kept could be done otherwise. */
  lemma EnabledWithout(s: State, v: nat, p: nat, k: nat, a: Action)
    requires HoldsSlot(s, v, p, k) && Typed(s) && p < |s.pages| && 0 < k < |s.slots| && Enabled(Held(s, p, k), a)
    ensures Enabled(s, a)
  {
    if a.Writer? && a.writer.DoAllot? {
      AllotHeld(s, v, p, k, a.writer.slots);
    }
  }

  lemma FaultHeld(s: State, v: nat, p: nat, k: nat, a: FaultAction)
    requires HoldsSlot(s, v, p, k) && Typed(s) && v < |s.virtuals| && p < |s.pages| && 0 < k < |s.slots|
    requires FaultEnabled(s, a) && Foreigner(Fault(a), v)
    ensures SameHeld(s, v, p, k, Fault(a))
  {
    hide HoldsSlot, Typed, SameHeld;
    match a
    case DoReserve(_) => ListedHeld(s, v, p, k, a);
    case DoReturn(_) => ListedHeld(s, v, p, k, a);
    case DoRescue(_, _, _) => RescueHeld(s, v, p, k, a);
    case DoClaimChange(_, _) => ClaimHeld(s, v, p, k, a);
    case DoClaimFirst(_, _, _) => ClaimHeld(s, v, p, k, a);
    case DoRemap(_) => RemapHeld(s, v, p, k, a);
    case DoFinishChange(_) => FinishChangeHeld(s, v, p, k, a);
    case DoCommitFirst(_) => CommitFirstHeld(s, v, p, k, a);
    case DoCommitRescue(_) => CommitRescueHeld(s, v, p, k, a);
  }

  lemma ConnectHeld(s: State, v: nat, p: nat, k: nat, a: ConnectAction)
    requires HoldsSlot(s, v, p, k) && Typed(s) && v < |s.virtuals| && p < |s.pages| && 0 < k < |s.slots|
    requires ConnectEnabled(s, a)
    ensures SameHeld(s, v, p, k, Connect(a))
  {
    hide HoldsSlot, Typed, SameHeld;
    match a
    case DoTakeRight(_) => RightHeld(s, v, p, k, a);
    case DoDropRight(_) => RightHeld(s, v, p, k, a);
    case DoCommitDisk(_, _, _) => CommitDiskHeld(s, v, p, k, a);
    case DoFill(_) => FillHeld(s, v, p, k, a);
    case DoSettle(u) =>
      if s.virtuals[u].job.write {
        SettleWriteHeld(s, v, p, k, u);
      } else {
        SettleReadHeld(s, v, p, k, u);
      }
    case DoMap(_) => MapHeld(s, v, p, k, a);
    case DoFinish(_) => MapHeld(s, v, p, k, a);
  }

  lemma TrimHeld(s: State, v: nat, p: nat, k: nat, a: TrimAction)
    requires HoldsSlot(s, v, p, k) && Typed(s) && v < |s.virtuals| && p < |s.pages| && 0 < k < |s.slots|
    requires TrimEnabled(s, a)
    ensures SameHeld(s, v, p, k, Trim(a))
  {
    hide HoldsSlot, Typed, SameHeld;
    match a
    case DoChoose(_) => ChooseHeld(s, v, p, k, a);
    case DoList(_) => ListHeld(s, v, p, k, a);
    case DoCopy(_) => SwapHeld(s, v, p, k, a);
    case DoSwap(_) => SwapHeld(s, v, p, k, a);
    case _ => MarkHeld(s, v, p, k, a);
  }

  lemma WriterHeld(s: State, v: nat, p: nat, k: nat, a: WriterAction)
    requires HoldsSlot(s, v, p, k) && Typed(s) && v < |s.virtuals| && p < |s.pages| && 0 < k < |s.slots|
    requires WriterEnabled(s, a) && WriterEnabled(Held(s, p, k), a)
    ensures SameHeld(s, v, p, k, Writer(a))
  {
    hide HoldsSlot, Typed, SameHeld;
    match a
    case DoPop(_) => PopHeld(s, v, p, k, a);
    case DoAllot(slots) => AllotHeld(s, v, p, k, slots);
    case DoStore(_) => StoreHeld(s, v, p, k, a);
    case DoComplete(_) => CompleteHeld(s, v, p, k, a);
    case DoNextBatch => NextHeld(s, v, p, k, a);
  }

  lemma RefillHeld(s: State, v: nat, p: nat, k: nat, a: RefillAction)
    requires HoldsSlot(s, v, p, k) && Typed(s) && v < |s.virtuals| && p < |s.pages| && 0 < k < |s.slots|
    requires RefillEnabled(s, a)
    ensures SameHeld(s, v, p, k, Refill(a))
  {
    hide HoldsSlot, Typed, SameHeld;
    match a
    case DoDetach(_) => DetachHeld(s, v, p, k, a);
    case DoTakeOld(_) => TakeOldHeld(s, v, p, k, a);
    case DoAddFree(_) => TakeOldHeld(s, v, p, k, a);
    case DoAddZeroSlot(_) => TakeOldHeld(s, v, p, k, a);
    case _ => ZeroHeld(s, v, p, k, a);
  }

  lemma StepHeld(s: State, v: nat, p: nat, k: nat, a: Action)
    requires HoldsSlot(s, v, p, k) && Typed(s) && v < |s.virtuals| && p < |s.pages| && 0 < k < |s.slots|
    requires Enabled(s, a) && Enabled(Held(s, p, k), a) && Foreigner(a, v)
    ensures SameHeld(s, v, p, k, a)
  {
    hide HoldsSlot, Typed, SameHeld;
    match a
    case User(b) => UserHeld(s, v, p, k, b);
    case Fault(b) => FaultHeld(s, v, p, k, b);
    case Connect(b) => ConnectHeld(s, v, p, k, b);
    case Trim(b) => TrimHeld(s, v, p, k, b);
    case Writer(b) => WriterHeld(s, v, p, k, b);
    case Refill(b) => RefillHeld(s, v, p, k, b);
  }

  // ----- the state in the gaps ---------------------------------------------------------------

  /** Mapped and perhaps dropped, but not marked: `was` says whether the page was
      marked before, and k is the slot it keeps. */
  function Between(s: State, v: nat, p: nat, was: bool, k: nat): State
    requires v < |s.virtuals| && p < |s.pages| && k < |s.slots|
  {
    Unmarked(Held(s, p, k), v, p, was)
  }

  lemma EnabledMarked(s: State, v: nat, p: nat, was: bool, a: Action)
    requires Private(s, v, p) && Foreigner(a, v) && Enabled(Unmarked(s, v, p, was), a)
    ensures Enabled(s, a)
  {
  }

  /** The slot the page keeps after step a. */
  function KeptAfter(s: State, p: nat, was: bool, k: nat, a: Action): nat {
    if !was && Completes(s, a, p) then s.batch[a.writer.i].slot else k
  }

  lemma CompletionInGap(s: State, v: nat, p: nat, i: nat)
    requires HoldsSlot(s, v, p, 0) && CanComplete(s, i) && s.batch[i].page == p && Sound(Complete(s, i))
    ensures Typed(Unmarked(s, v, p, false)) && CanComplete(Unmarked(s, v, p, false), i)
    ensures var k := s.batch[i].slot;
            && k != 0 && HoldsSlot(Complete(s, i), v, p, k)
            && Complete(Unmarked(s, v, p, false), i) == Between(Complete(s, i), v, p, false, k)
  {
    UpgradingIsPrivate(s, v, p);
    assert EntryOk(s, i) && SlotOk(s, s.batch[i].slot);
    hide Sound, Private;
    UnmarkedTyped(s, v, p, false);
    var k := s.batch[i].slot;
    assert Complete(Unmarked(s, v, p, false), i).pages == Between(Complete(s, i), v, p, false, k).pages;
    assert Complete(Unmarked(s, v, p, false), i).slots == Between(Complete(s, i), v, p, false, k).slots;
  }

  lemma ForeignStepKeepsSize(s: State, v: nat, p: nat, was: bool, k: nat, a: Action)
    requires HoldsSlot(s, v, p, k) && Typed(s) && v < |s.virtuals| && p < |s.pages| && k < |s.slots|
    requires Enabled(Between(s, v, p, was, k), a) && Foreigner(a, v)
    ensures Enabled(s, a) && |Apply(s, a).slots| == |s.slots|
  {
    hide Enabled;
    UpgradingIsPrivate(s, v, p);
    if k == 0 {
      EnabledMarked(s, v, p, was, a);
    } else {
      HeldFacts(s, v, p, k);
      EnabledMarked(Held(s, p, k), v, p, was, a);
      EnabledWithout(s, v, p, k, a);
    }
    ForeignStepKeeps(s, a, Only({}));
  }

  /** A step that does not complete the page before it is marked. */
  lemma OrdinaryInGap(s: State, v: nat, p: nat, was: bool, k: nat, a: Action)
    requires HoldsSlot(s, v, p, k) && Typed(s) && v < |s.virtuals| && p < |s.pages| && k < |s.slots|
    requires Enabled(Between(s, v, p, was, k), a) && Foreigner(a, v) && (was || !Completes(s, a, p))
    ensures Enabled(s, a) && Typed(Between(s, v, p, was, k))
    ensures v < |Apply(s, a).virtuals| && p < |Apply(s, a).pages| && k < |Apply(s, a).slots|
    ensures Apply(s, a).virtuals[v].job == s.virtuals[v].job && Apply(s, a).pages[p].modified
    ensures k != 0 ==> !Apply(s, a).slots[k].used && Apply(s, a).slots[k].deed.NoDeed? && !Apply(s, a).pages[p].writing
    ensures Apply(Between(s, v, p, was, k), a) == Between(Apply(s, a), v, p, was, k)
  {
    ForeignStepKeepsSize(s, v, p, was, k, a);
    hide Typed, Enabled;
    if k == 0 {
      UpgradingIsPrivate(s, v, p);
      EnabledMarked(s, v, p, was, a);
      StepInGap(s, v, p, was, a);
    } else {
      HeldFacts(s, v, p, k);
      EnabledMarked(Held(s, p, k), v, p, was, a);
      EnabledWithout(s, v, p, k, a);
      StepHeld(s, v, p, k, a);
      StepInGap(Held(s, p, k), v, p, was, a);
    }
  }

  /** Any step of others in the gaps: it could be taken after the one step as well,
      and the page keeps a slot if the step completes it before it is marked. */
  lemma GapStep(s: State, mem: Memory, v: nat, p: nat, was: bool, k: nat, a: Action)
    requires Inv(s, mem) && HoldsSlot(s, v, p, k) && Enabled(Between(s, v, p, was, k), a) && Foreigner(a, v)
    ensures Typed(s) && Enabled(s, a) && Typed(Between(s, v, p, was, k)) && Inv(Apply(s, a), FlatStep(mem, a))
    ensures var k' := KeptAfter(s, p, was, k, a);
            && HoldsSlot(Apply(s, a), v, p, k')
            && Apply(Between(s, v, p, was, k), a) == Between(Apply(s, a), v, p, was, k')
            && (k' != 0 <==> k != 0 || (!was && Completes(s, a, p)))
  {
    SoundIsTyped(s, mem);
    ForeignStepKeepsSize(s, v, p, was, k, a);
    StepKeeps(s, mem, a);
    hide Inv;
    if !was && Completes(s, a, p) {
      CompletesUnkept(s, v, p, k, a.writer.i);
      CompletionInGap(s, v, p, a.writer.i);
    } else {
      OrdinaryInGap(s, v, p, was, k, a);
      StillUpgrading(Apply(s, a), v, p);
    }
  }

  lemma SoundIsTyped(s: State, mem: Memory)
    requires Inv(s, mem)
    ensures Sound(s) && Typed(s)
  {
  }

  lemma CompletesUnkept(s: State, v: nat, p: nat, k: nat, i: nat)
    requires HoldsSlot(s, v, p, k) && CanComplete(s, i) && s.batch[i].page == p
    ensures k == 0
  {
    if k != 0 { EntryElsewhere(s, k, i); }
  }

  lemma StillUpgrading(s: State, v: nat, p: nat)
    requires Sound(s) && v < |s.virtuals| && p < |s.pages|
    requires s.virtuals[v].job == Changing(p, ProtRead, true, true) && s.pages[p].modified
    ensures Upgrading(s, v, p) && s.pages[p].slot == 0
  {
    assert VirtualOk(s, v);
  }

  // ----- runs in the gaps ------------------------------------------------------------------------

  ghost predicate AllForeign(steps: seq<Action>, v: nat) {
    forall j :: 0 <= j < |steps| ==> Foreigner(steps[j], v)
  }

  /** Some step of the run completes the page. */
  ghost predicate CompletedIn(s: State, steps: seq<Action>, p: nat)
    decreases |steps|
  {
    steps != [] &&
    (var before := steps[..|steps| - 1];
     CompletedIn(s, before, p) || Completes(Run(s, before), steps[|steps| - 1], p))
  }

  lemma {:induction false} GapRun(s: State, mem: Memory, v: nat, p: nat, was: bool, k: nat, steps: seq<Action>)
    returns (k': nat)
    requires Inv(s, mem) && HoldsSlot(s, v, p, k)
    requires AllForeign(steps, v) && AllPossible(Between(s, v, p, was, k), steps)
    ensures AllPossible(s, steps) && Inv(Run(s, steps), FlatRun(mem, steps)) && HoldsSlot(Run(s, steps), v, p, k')
    ensures Run(Between(s, v, p, was, k), steps) == Between(Run(s, steps), v, p, was, k')
    ensures k' != 0 <==> k != 0 || (!was && CompletedIn(Between(s, v, p, was, k), steps, p))
    decreases |steps|
  {
    if steps == [] {
      k' := k;
    } else {
      var before, a := steps[..|steps| - 1], steps[|steps| - 1];
      var j := GapRun(s, mem, v, p, was, k, before);
      var mid := Run(s, before);
      assert Between(mid, v, p, was, j).batch == mid.batch;
      GapStep(mid, FlatRun(mem, before), v, p, was, j, a);
      k' := KeptAfter(mid, p, was, j, a);
    }
  }

  /** The second part of Remap, and the third, where they can be taken. */
  ghost function Dropped(s: State, v: nat): State {
    if Typed(s) && CanRemap(s, v) then RemapDrop(s, v) else s
  }

  ghost function MarkedModified(s: State, v: nat): State {
    if Typed(s) && CanRemap(s, v) then RemapModified(s, v) else s
  }

  lemma BeginsBetween(s: State, mem: Memory, v: nat)
    requires Inv(s, mem) && CanRemap(s, v)
    ensures var p := s.virtuals[v].job.frame;
            && p < |s.pages| && s.pages[p].slot < |s.slots| && HoldsSlot(Remap(s, v), v, p, s.pages[p].slot)
            && Inv(Remap(s, v), mem)
            && RemapMap(s, v) == Between(Remap(s, v), v, p, s.pages[p].modified, s.pages[p].slot)
  {
    var p := s.virtuals[v].job.frame;
    RemapInParts(s, v);
    BeginsUnmarked(s, mem, v);
    StepKeeps(s, mem, Fault(DoRemap(v)));
    SlotOfMapped(s, v);
    StillUpgrading(Remap(s, v), v, p);
    var half := Between(Remap(s, v), v, p, s.pages[p].modified, s.pages[p].slot);
    assert RemapMap(s, v).pages == half.pages;
    assert RemapMap(s, v).slots == half.slots;
    assert RemapMap(s, v).virtuals == half.virtuals;
  }

  lemma SlotOfMapped(s: State, v: nat)
    requires Sound(s) && CanRemap(s, v)
    ensures var p := s.virtuals[v].job.frame;
            && p < |s.pages| && s.pages[p].slot < |s.slots|
            && (s.pages[p].slot != 0 ==>
                  && !s.pages[p].writing
                  && s.slots[s.pages[p].slot].used && s.slots[s.pages[p].slot].deed == ByPage(p))
  {
    var p := s.virtuals[v].job.frame;
    assert VirtualOk(s, v) && PageOk(s, p);
    if s.pages[p].slot != 0 { assert SlotOk(s, s.pages[p].slot); }
  }

  lemma DropsBetween(s: State, v: nat, p: nat, was: bool, k: nat)
    requires HoldsSlot(s, v, p, k)
    ensures Dropped(Between(s, v, p, was, k), v) == Between(s, v, p, was, 0)
  {
    UpgradingIsPrivate(s, v, p);
    var half := Between(s, v, p, was, k);
    BetweenTyped(s, v, p, was, k);
    assert RemapDrop(half, v).pages == Between(s, v, p, was, 0).pages;
    assert RemapDrop(half, v).slots == Between(s, v, p, was, 0).slots;
  }

  lemma BetweenTyped(s: State, v: nat, p: nat, was: bool, k: nat)
    requires HoldsSlot(s, v, p, k)
    ensures Typed(Between(s, v, p, was, k)) && CanRemap(Between(s, v, p, was, k), v)
  {
    UpgradingIsPrivate(s, v, p);
    if k != 0 { HeldFacts(s, v, p, k); }
    hide Sound, Private;
    UnmarkedTyped(Held(s, p, k), v, p, was);
  }

  lemma MarksBetween(s: State, v: nat, p: nat, was: bool, k: nat)
    requires HoldsSlot(s, v, p, k)
    ensures MarkedModified(Between(s, v, p, was, k), v) == Held(s, p, k)
  {
    BetweenTyped(s, v, p, was, k);
    var half := Between(s, v, p, was, k);
    assert RemapModified(half, v).pages == Held(s, p, k).pages;
    assert RemapModified(half, v).virtuals == Held(s, p, k).virtuals;
  }

  /** A page mapped read-write must keep no slot. */
  lemma HeldIsWrong(s: State, mem: Memory, v: nat, p: nat, k: nat)
    requires HoldsSlot(s, v, p, k) && k != 0
    ensures !Inv(Held(s, p, k), mem)
  {
    assert VirtualOk(s, v);
    assert !VirtualOk(Held(s, p, k), v);
  }

  /** The parts of Remap with any run of others between the mapping and the drop,
      and any between the drop and the mark.  Whatever they do they could do
      after the one step too.  The machine is as it should be in the end if and
      only if the page was marked before, or was not completed between the drop
      and the mark; and then it is as after the one step and both runs. */
  lemma RemapGapIff(s: State, mem: Memory, v: nat, first: seq<Action>, second: seq<Action>)
    requires Inv(s, mem) && CanRemap(s, v) && AllForeign(first, v) && AllForeign(second, v)
    requires AllPossible(RemapMap(s, v), first)
    requires AllPossible(Dropped(Run(RemapMap(s, v), first), v), second)
    ensures var p := s.virtuals[v].job.frame;
            var half := Dropped(Run(RemapMap(s, v), first), v);
            var end := MarkedModified(Run(half, second), v);
            && p < |s.pages| && AllPossible(Remap(s, v), first) && AllPossible(Run(Remap(s, v), first), second)
            && (Inv(end, FlatRun(FlatRun(mem, first), second))
                <==> s.pages[p].modified || !CompletedIn(half, second, p))
            && (s.pages[p].modified || !CompletedIn(half, second, p) ==>
                  end == Run(Run(Remap(s, v), first), second))
  {
    hide Inv, AllPossible, Run, FlatRun, CompletedIn, HoldsSlot, AllForeign, Dropped, MarkedModified;
    var p, was := FrameInUse(s, mem, v);
    BeginsBetween(s, mem, v);
    var k := GapRun(Remap(s, v), mem, v, p, was, s.pages[p].slot, first);
    var mid := Run(Remap(s, v), first);
    DropsBetween(mid, v, p, was, k);
    NoSlotNow(mid, v, p, k);
    var k' := GapRun(mid, FlatRun(mem, first), v, p, was, 0, second);
    var last := Run(mid, second);
    MarksBetween(last, v, p, was, k');
    if k' != 0 { HeldIsWrong(last, FlatRun(FlatRun(mem, first), second), v, p, k'); }
  }

  lemma FrameInUse(s: State, mem: Memory, v: nat) returns (p: nat, was: bool)
    requires Inv(s, mem) && CanRemap(s, v)
    ensures p == s.virtuals[v].job.frame && p < |s.pages| && was == s.pages[p].modified && Typed(s)
  {
    InvTyped(s, mem, v);
    p, was := s.virtuals[v].job.frame, s.pages[s.virtuals[v].job.frame].modified;
  }

  lemma NoSlotNow(s: State, v: nat, p: nat, k: nat)
    requires HoldsSlot(s, v, p, k)
    ensures HoldsSlot(s, v, p, 0)
  {
  }
}
