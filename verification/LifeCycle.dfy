/** Where a page is, what a PTE says and which slots are in use, seen from
    outside, and how every step moves them. */
module LifeCycle {
  import opened PageState
  import opened Protocol
  import opened Invariant
  import opened Interference

  // ----- pages -------------------------------------------------------------------------

  datatype Place =
    | OnZeroList
    | OnFreeList
    | OnStandbyList
    | OnModifiedList
    | ToDisk               // on no list, being written and not changed since
    | InUse
    | Held(hand: Hand)

  function PlaceOf(s: State, p: nat): Place
    requires p < |s.pages|
  {
    if p in s.lists.zero then OnZeroList
    else if p in s.lists.free then OnFreeList
    else if p in s.lists.standby then OnStandbyList
    else if p in s.lists.modified then OnModifiedList
    else if !s.pages[p].hand.Nobody? then Held(s.pages[p].hand)
    else if s.pages[p].status.Active? then InUse
    else ToDisk
  }

  function FaultPlace(s: State, a: FaultAction, p: nat): Place
    requires Typed(s) && FaultEnabled(s, a) && p < |s.pages|
  {
    match a
    case DoReserve(q) => if q == p then Held(Popped) else PlaceOf(s, p)
    case DoReturn(q) =>
      if q != p then PlaceOf(s, p)
      else if s.pages[p].status.Zero? then OnZeroList
      else if s.pages[p].status.Standby? then OnStandbyList
      else OnFreeList
    case DoClaimFirst(v, q, _) => if q == p then Held(ForClaim(v)) else PlaceOf(s, p)
    case DoCommitFirst(v) => if s.virtuals[v].job.page == p then InUse else PlaceOf(s, p)
    case DoRescue(v, q, _) => if q == p then Held(ForRescue(v)) else PlaceOf(s, p)
    case DoCommitRescue(v) => if s.virtuals[v].job.page == p then InUse else PlaceOf(s, p)
    case _ => PlaceOf(s, p)
  }

  /** A page without a slot goes to the modified list, one with a slot to the
      standby list, and one on its way to disk to none. */
  function TrimPlace(s: State, a: TrimAction, p: nat): Place
    requires Typed(s) && TrimEnabled(s, a) && p < |s.pages|
  {
    match a
    case DoChoose(v) =>
      var t := s.virtuals[v].pte;
      if t.Valid? && t.frame == p && s.pages[p].writing && !s.pages[p].modified then ToDisk else PlaceOf(s, p)
    case DoList(v) =>
      var t := s.virtuals[v].pte;
      if !(t.Valid? && t.frame == p) then PlaceOf(s, p)
      else if s.pages[p].slot == 0 then OnModifiedList else OnStandbyList
    case _ => PlaceOf(s, p)
  }

  function WriterPlace(s: State, a: WriterAction, p: nat): Place
    requires Typed(s) && WriterEnabled(s, a) && p < |s.pages|
  {
    match a
    case DoPop(q) => if q == p then ToDisk else PlaceOf(s, p)
    case DoComplete(i) => if s.batch[i].page == p && PlaceOf(s, p).ToDisk? then OnStandbyList else PlaceOf(s, p)
    case _ => PlaceOf(s, p)
  }

  function RefillPlace(s: State, a: RefillAction, p: nat): Place
    requires p < |s.pages|
  {
    match a
    case DoTakeOld(q) => if q == p then Held(Refresh) else PlaceOf(s, p)
    case DoDetach(q) => if q == p then Held(Detached) else PlaceOf(s, p)
    case DoAddFree(q) => if q == p then OnFreeList else PlaceOf(s, p)
    case DoAddZeroSlot(q) => if q == p then Held(ZeroSlot) else PlaceOf(s, p)
    case DoTakeZeroSlot(q) => if q == p then Held(Hand.Zeroing) else PlaceOf(s, p)
    case DoClear(q) => if q == p then Held(Zeroed) else PlaceOf(s, p)
    case DoAddZero(q) => if q == p then OnZeroList else PlaceOf(s, p)
  }

  function NextPlace(s: State, a: Action, p: nat): Place
    requires Typed(s) && Enabled(s, a) && p < |s.pages|
  {
    match a
    case User(_) => PlaceOf(s, p)
    case Fault(b) => FaultPlace(s, b, p)
    case Connect(b) => if b.DoCommitDisk? && b.p == p then InUse else PlaceOf(s, p)
    case Trim(b) => TrimPlace(s, b, p)
    case Writer(b) => WriterPlace(s, b, p)
    case Refill(b) => RefillPlace(s, b, p)
  }

  /** Each step moves its own page to the place the step is for, and no other. */
  lemma PagesMove(s: State, a: Action, p: nat)
    requires Sound(s) && Enabled(s, a) && p < |s.pages|
    ensures p < |Apply(s, a).pages| && PlaceOf(Apply(s, a), p) == NextPlace(s, a, p)
  {
    assert PageOk(s, p);
    match a
    case User(_) =>
    case Fault(b) => FaultPagesMove(s, b, p);
    case Connect(b) => ConnectPagesMove(s, b, p);
    case Trim(b) => TrimPagesMove(s, b, p);
    case Writer(b) => WriterPagesMove(s, b, p);
    case Refill(b) => RefillPagesMove(s, b, p);
  }

  lemma FaultPagesMove(s: State, a: FaultAction, p: nat)
    requires Sound(s) && FaultEnabled(s, a) && p < |s.pages|
    ensures p < |FaultApply(s, a).pages| && PlaceOf(FaultApply(s, a), p) == FaultPlace(s, a, p)
  {
    match a
    case DoRemap(v) => ChangesMoveNothing(s, a, p);
    case DoCommitFirst(v) => CommitsMove(s, a, p);
    case DoCommitRescue(v) => CommitsMove(s, a, p);
    case DoReserve(q) => ReserveMoves(s, q, p);
    case DoReturn(q) => assert PageOk(s, p); ReturnMoves(s, q, p);
    case DoRescue(v, q, write) => RescueMoves(s, v, q, write, p);
    case _ => ChangesMoveNothing(s, a, p);
  }

  lemma ChangesMoveNothing(s: State, a: FaultAction, p: nat)
    requires Sound(s) && FaultEnabled(s, a) && p < |s.pages|
    requires a.DoClaimChange? || a.DoRemap? || a.DoFinishChange? || a.DoClaimFirst?
    ensures p < |FaultApply(s, a).pages| && PlaceOf(FaultApply(s, a), p) == FaultPlace(s, a, p)
  {
    assert PageOk(s, p);
    if a.DoRemap? { assert VirtualOk(s, a.v); }
  }

  lemma CommitsMove(s: State, a: FaultAction, p: nat)
    requires Sound(s) && FaultEnabled(s, a) && p < |s.pages| && (a.DoCommitFirst? || a.DoCommitRescue?)
    ensures p < |FaultApply(s, a).pages| && PlaceOf(FaultApply(s, a), p) == FaultPlace(s, a, p)
  {
    assert PageOk(s, p) && VirtualOk(s, a.v);
  }

  lemma ReserveMoves(s: State, q: nat, p: nat)
    requires Sound(s) && CanReserve(s, q) && p < |s.pages|
    ensures p < |Reserve(s, q).pages|
    ensures PlaceOf(Reserve(s, q), p) == if q == p then Held(Popped) else PlaceOf(s, p)
  {
    assert PageOk(s, p);
  }

  lemma ReturnMoves(s: State, q: nat, p: nat)
    requires Typed(s) && CanReturn(s, q) && p < |s.pages| && PageOk(s, p)
    ensures p < |Return(s, q).pages| && PlaceOf(Return(s, q), p) == FaultPlace(s, DoReturn(q), p)
  {
    hide Typed;
  }

  lemma RescueMoves(s: State, v: nat, q: nat, write: bool, p: nat)
    requires Sound(s) && CanRescue(s, v, q) && p < |s.pages|
    ensures p < |Rescue(s, v, q, write).pages|
    ensures PlaceOf(Rescue(s, v, q, write), p) == if q == p then Held(ForRescue(v)) else PlaceOf(s, p)
  {
    assert PageOk(s, p);
  }

  lemma ConnectPagesMove(s: State, a: ConnectAction, p: nat)
    requires Sound(s) && ConnectEnabled(s, a) && p < |s.pages|
    ensures p < |ConnectApply(s, a).pages|
    ensures PlaceOf(ConnectApply(s, a), p) == if a.DoCommitDisk? && a.p == p then InUse else PlaceOf(s, p)
  {
    if a.DoCommitDisk? {
      CommitDiskMoves(s, a.v, a.p, a.write, p);
    } else {
      ConnectsMoveNothing(s, a, p);
    }
  }

  lemma ConnectsMoveNothing(s: State, a: ConnectAction, p: nat)
    requires Sound(s) && ConnectEnabled(s, a) && p < |s.pages| && !a.DoCommitDisk?
    ensures p < |ConnectApply(s, a).pages| && PlaceOf(ConnectApply(s, a), p) == PlaceOf(s, p)
  {
    match a
    case DoFill(v) => SamePlace(s, ConnectApply(s, a), p);
    case DoSettle(v) => SamePlace(s, ConnectApply(s, a), p);
    case _ =>
  }

  lemma SamePlace(s: State, s': State, p: nat)
    requires p < |s.pages| == |s'.pages| && s'.lists == s.lists
    requires s'.pages[p].hand == s.pages[p].hand && s'.pages[p].status == s.pages[p].status
    ensures PlaceOf(s', p) == PlaceOf(s, p)
  {
  }

  lemma CommitDiskMoves(s: State, v: nat, q: nat, write: bool, p: nat)
    requires Sound(s) && CanCommitDisk(s, v, q) && p < |s.pages|
    ensures p < |CommitDisk(s, v, q, write).pages|
    ensures PlaceOf(CommitDisk(s, v, q, write), p) == if q == p then InUse else PlaceOf(s, p)
  {
    assert PageOk(s, p);
  }

  lemma TrimPagesMove(s: State, a: TrimAction, p: nat)
    requires Sound(s) && TrimEnabled(s, a) && p < |s.pages|
    ensures p < |TrimApply(s, a).pages| && PlaceOf(TrimApply(s, a), p) == TrimPlace(s, a, p)
  {
    match a
    case DoChoose(v) => ChooseMoves(s, v, p);
    case DoList(v) => ListMoves(s, v, p);
    case _ =>
  }

  lemma ChooseMoves(s: State, v: nat, p: nat)
    requires Sound(s) && CanChoose(s, v) && p < |s.pages|
    ensures p < |Choose(s, v).pages| && PlaceOf(Choose(s, v), p) == TrimPlace(s, DoChoose(v), p)
  {
    assert VirtualOk(s, v) && PageOk(s, p);
  }

  lemma ListMoves(s: State, v: nat, p: nat)
    requires Sound(s) && CanList(s, v) && p < |s.pages|
    ensures p < |List(s, v).pages| && PlaceOf(List(s, v), p) == TrimPlace(s, DoList(v), p)
  {
    assert VirtualOk(s, v) && PageOk(s, p);
  }

  lemma WriterPagesMove(s: State, a: WriterAction, p: nat)
    requires Sound(s) && WriterEnabled(s, a) && p < |s.pages|
    ensures p < |WriterApply(s, a).pages| && PlaceOf(WriterApply(s, a), p) == WriterPlace(s, a, p)
  {
    match a
    case DoPop(q) => PopMoves(s, q, p);
    case DoComplete(i) => assert PageOk(s, p) && EntryOk(s, i); CompleteMoves(s, i, p);
    case _ =>
  }

  lemma PopMoves(s: State, q: nat, p: nat)
    requires Sound(s) && CanPop(s, q) && p < |s.pages|
    ensures p < |Pop(s, q).pages| && PlaceOf(Pop(s, q), p) == if q == p then ToDisk else PlaceOf(s, p)
  {
    assert PageOk(s, p);
  }

  lemma CompleteMoves(s: State, i: nat, p: nat)
    requires Typed(s) && CanComplete(s, i) && p < |s.pages| && PageOk(s, p) && EntryOk(s, i)
    ensures p < |Complete(s, i).pages| && PlaceOf(Complete(s, i), p) == WriterPlace(s, DoComplete(i), p)
  {
  }

  lemma RefillPagesMove(s: State, a: RefillAction, p: nat)
    requires Sound(s) && RefillEnabled(s, a) && p < |s.pages|
    ensures p < |RefillApply(s, a).pages| && PlaceOf(RefillApply(s, a), p) == RefillPlace(s, a, p)
  {
    match a
    case DoDetach(q) => DetachMoves(s, q, p);
    case DoTakeOld(_) => assert PageOk(s, p);
    case _ => RefillsMove(s, a, p);
  }

  lemma DetachMoves(s: State, q: nat, p: nat)
    requires Sound(s) && CanDetach(s, q) && p < |s.pages|
    ensures p < |Detach(s, q).pages|
    ensures PlaceOf(Detach(s, q), p) == if q == p then Held(Detached) else PlaceOf(s, p)
  {
    assert PageOk(s, p) && PageOk(s, q);
  }

  lemma RefillsMove(s: State, a: RefillAction, p: nat)
    requires Sound(s) && RefillEnabled(s, a) && p < |s.pages| && !a.DoDetach? && !a.DoTakeOld?
    ensures p < |RefillApply(s, a).pages| && PlaceOf(RefillApply(s, a), p) == RefillPlace(s, a, p)
  {
    assert PageOk(s, p);
  }

  /** The arrows of the life cycle of a page. */
  predicate Arrow(from: Place, to: Place) {
    match from
    case OnZeroList => to == Held(Popped)
    case OnFreeList => to == Held(Popped)
    case OnStandbyList => to.Held? && (to.hand.Popped? || to.hand.ForRescue? || to.hand.Refresh?)
    case OnModifiedList => to.ToDisk? || (to.Held? && to.hand.ForRescue?)
    case ToDisk => to.OnStandbyList? || (to.Held? && to.hand.ForRescue?)
    case InUse => to.OnModifiedList? || to.OnStandbyList? || to.ToDisk?
    case Held(h) =>
      match h
      case Popped =>
        to.OnZeroList? || to.OnFreeList? || to.OnStandbyList? || to.InUse? || (to.Held? && to.hand.ForClaim?)
      case ForClaim(_) => to.InUse?
      case ForRescue(_) => to.InUse?
      case Refresh => to == Held(Detached)
      case Detached => to.OnFreeList? || to == Held(ZeroSlot)
      case ZeroSlot => to == Held(Hand.Zeroing)
      case Zeroing => to == Held(Zeroed)
      case Zeroed => to.OnZeroList?
      case Nobody => false
  }

  /** No step takes a page along any other way; so only cleared pages and zero
      pages that are given back come to a zero list. */
  lemma PagesFollowArrows(s: State, a: Action, p: nat)
    requires Sound(s) && Enabled(s, a) && p < |s.pages|
    ensures p < |Apply(s, a).pages|
    ensures PlaceOf(Apply(s, a), p) == PlaceOf(s, p) || Arrow(PlaceOf(s, p), PlaceOf(Apply(s, a), p))
  {
    PagesMove(s, a, p);
    assert PageOk(s, p);
    match a
    case Fault(b) => FaultArrows(s, b, p);
    case Trim(b) => TrimArrows(s, b, p);
    case _ =>
  }

  lemma FaultArrows(s: State, a: FaultAction, p: nat)
    requires Sound(s) && FaultEnabled(s, a) && p < |s.pages|
    ensures FaultPlace(s, a, p) == PlaceOf(s, p) || Arrow(PlaceOf(s, p), FaultPlace(s, a, p))
  {
    assert PageOk(s, p);
    match a
    case DoCommitFirst(v) => assert VirtualOk(s, v);
    case DoCommitRescue(v) => assert VirtualOk(s, v);
    case _ =>
  }

  lemma TrimArrows(s: State, a: TrimAction, p: nat)
    requires Sound(s) && TrimEnabled(s, a) && p < |s.pages|
    ensures TrimPlace(s, a, p) == PlaceOf(s, p) || Arrow(PlaceOf(s, p), TrimPlace(s, a, p))
  {
    assert PageOk(s, p);
    match a
    case DoChoose(v) => assert VirtualOk(s, v);
    case DoList(v) => assert VirtualOk(s, v);
    case _ =>
  }

  // ----- slots and marks -------------------------------------------------------------

  /** The page is about to be written to, or is a new one: it keeps no slot. */
  predicate LosesSlot(s: State, a: Action, p: nat)
    requires Typed(s) && Enabled(s, a) && p < |s.pages|
  {
    match a
    case Fault(DoRemap(v)) => s.virtuals[v].job.frame == p
    case Fault(DoCommitFirst(v)) => s.virtuals[v].job.page == p
    case Fault(DoCommitRescue(v)) => s.virtuals[v].job.page == p && s.virtuals[v].job.write
    case Connect(DoSettle(v)) => s.virtuals[v].job.page == p && s.virtuals[v].job.write
    case _ => false
  }

  /** Its bytes are those of a slot: it was read from it, or written to it and
      not changed since. */
  function SlotGained(s: State, a: Action, p: nat): Option<nat>
    requires Typed(s) && Enabled(s, a) && p < |s.pages|
  {
    match a
    case Connect(DoSettle(v)) =>
      if s.virtuals[v].job.page == p && !s.virtuals[v].job.write && s.virtuals[v].pte.Disk?
      then Some(s.virtuals[v].pte.slot) else None
    case Writer(DoComplete(i)) =>
      if s.batch[i].page == p && !s.pages[p].modified then Some(s.batch[i].slot) else None
    case _ => None
  }

  predicate GetsMark(s: State, a: Action, p: nat)
    requires Typed(s) && Enabled(s, a) && p < |s.pages|
  {
    match a
    case Fault(DoRemap(v)) => s.virtuals[v].job.frame == p
    case Fault(DoCommitFirst(v)) => s.virtuals[v].job.page == p && s.virtuals[v].job.write
    case Fault(DoCommitRescue(v)) => s.virtuals[v].job.page == p && s.virtuals[v].job.write
    case Connect(DoCommitDisk(_, q, write)) => q == p && write
    case _ => false
  }

  /** Which step changes the slot index and the mark of a page. */
  lemma PagesKeep(s: State, a: Action, p: nat)
    requires Sound(s) && Enabled(s, a) && p < |s.pages|
    ensures p < |Apply(s, a).pages|
    ensures Apply(s, a).pages[p].slot == (if LosesSlot(s, a, p) then 0
                                          else if SlotGained(s, a, p).Some? then SlotGained(s, a, p).value
                                          else s.pages[p].slot)
    ensures Apply(s, a).pages[p].modified == (GetsMark(s, a, p) || (s.pages[p].modified && a != Writer(DoPop(p))))
  {
    match a
    case Fault(b) => FaultPagesKeep(s, b, p);
    case Connect(b) => ConnectPagesKeep(s, b, p);
    case Writer(b) => WriterPagesKeep(s, b, p);
    case Refill(b) => RefillPagesKeep(s, b, p);
    case Trim(b) => TrimPagesKeep(s, b, p);
    case User(_) =>
  }

  lemma WriterPagesKeep(s: State, a: WriterAction, p: nat)
    requires Sound(s) && WriterEnabled(s, a) && p < |s.pages|
    ensures p < |WriterApply(s, a).pages|
    ensures WriterApply(s, a).pages[p].slot
            == if SlotGained(s, Writer(a), p).Some? then SlotGained(s, Writer(a), p).value else s.pages[p].slot
    ensures WriterApply(s, a).pages[p].modified == (s.pages[p].modified && a != DoPop(p))
  {
  }

  lemma RefillPagesKeep(s: State, a: RefillAction, p: nat)
    requires Sound(s) && RefillEnabled(s, a) && p < |s.pages|
    ensures p < |RefillApply(s, a).pages|
    ensures RefillApply(s, a).pages[p].slot == s.pages[p].slot
    ensures RefillApply(s, a).pages[p].modified == s.pages[p].modified
  {
  }

  lemma TrimPagesKeep(s: State, a: TrimAction, p: nat)
    requires Sound(s) && TrimEnabled(s, a) && p < |s.pages|
    ensures p < |TrimApply(s, a).pages|
    ensures TrimApply(s, a).pages[p].slot == s.pages[p].slot
    ensures TrimApply(s, a).pages[p].modified == s.pages[p].modified
  {
  }

  lemma FaultPagesKeep(s: State, a: FaultAction, p: nat)
    requires Sound(s) && FaultEnabled(s, a) && p < |s.pages|
    ensures p < |FaultApply(s, a).pages|
    ensures FaultApply(s, a).pages[p].slot == if LosesSlot(s, Fault(a), p) then 0 else s.pages[p].slot
    ensures FaultApply(s, a).pages[p].modified == (GetsMark(s, Fault(a), p) || s.pages[p].modified)
  {
    match a
    case DoCommitFirst(v) => assert VirtualOk(s, v);
    case _ =>
  }

  lemma ConnectPagesKeep(s: State, a: ConnectAction, p: nat)
    requires Sound(s) && ConnectEnabled(s, a) && p < |s.pages|
    ensures p < |ConnectApply(s, a).pages|
    ensures ConnectApply(s, a).pages[p].slot
            == (if LosesSlot(s, Connect(a), p) then 0
                else if SlotGained(s, Connect(a), p).Some? then SlotGained(s, Connect(a), p).value
                else s.pages[p].slot)
    ensures ConnectApply(s, a).pages[p].modified == (GetsMark(s, Connect(a), p) || s.pages[p].modified)
  {
    match a
    case DoFill(v) => assert VirtualOk(s, v);
    case DoSettle(v) => assert VirtualOk(s, v);
    case _ =>
  }

  /** The step gives slot k back: its owner is about to be written to, or was
      written to while it went to disk. */
  predicate Frees(s: State, a: Action, k: nat)
    requires Typed(s) && Enabled(s, a)
  {
    match a
    case Fault(DoRemap(v)) => s.pages[s.virtuals[v].job.frame].slot == k
    case Fault(DoCommitRescue(v)) =>
      s.virtuals[v].job.write && s.pages[s.virtuals[v].job.page].status.Standby?
      && s.pages[s.virtuals[v].job.page].slot == k
    case Connect(DoSettle(v)) => s.virtuals[v].job.write && s.virtuals[v].pte.Disk? && s.virtuals[v].pte.slot == k
    case Writer(DoComplete(i)) => s.pages[s.batch[i].page].modified && s.batch[i].slot == k
    case _ => false
  }

  /** A used slot is free after a step if and only if it is given back like that,
      and a free one is used if and only if it is allotted to a batch. */
  lemma SlotsMove(s: State, a: Action, k: nat)
    requires Sound(s) && Enabled(s, a) && 0 < k < |s.slots|
    ensures k < |Apply(s, a).slots|
    ensures s.slots[k].used ==> (!Apply(s, a).slots[k].used <==> Frees(s, a, k))
    ensures !s.slots[k].used ==>
              (Apply(s, a).slots[k].used <==> a.Writer? && a.writer.DoAllot? && k in a.writer.slots)
  {
    assert SlotOk(s, k);
    match a
    case Fault(b) => FaultSlotsMove(s, b, k);
    case Connect(b) => ConnectSlotsMove(s, b, k);
    case Trim(_) =>
    case Writer(b) => WriterSlotsMove(s, b, k);
    case Refill(b) => RefillSlotsMove(s, b, k);
    case User(_) =>
  }

  lemma FaultSlotsMove(s: State, a: FaultAction, k: nat)
    requires Sound(s) && FaultEnabled(s, a) && 0 < k < |s.slots|
    ensures k < |FaultApply(s, a).slots|
    ensures FaultApply(s, a).slots[k].used == (s.slots[k].used && !Frees(s, Fault(a), k))
  {
    match a
    case DoCommitFirst(v) => assert VirtualOk(s, v);
    case _ =>
  }

  lemma ConnectSlotsMove(s: State, a: ConnectAction, k: nat)
    requires Sound(s) && ConnectEnabled(s, a) && 0 < k < |s.slots|
    ensures k < |ConnectApply(s, a).slots|
    ensures ConnectApply(s, a).slots[k].used == (s.slots[k].used && !Frees(s, Connect(a), k))
  {
  }

  lemma WriterSlotsMove(s: State, a: WriterAction, k: nat)
    requires Sound(s) && WriterEnabled(s, a) && 0 < k < |s.slots|
    ensures k < |WriterApply(s, a).slots|
    ensures WriterApply(s, a).slots[k].used
            == ((s.slots[k].used && !Frees(s, Writer(a), k)) || (a.DoAllot? && k in a.slots))
  {
    match a
    case DoComplete(i) => assert EntryOk(s, i);
    case _ =>
  }

  lemma RefillSlotsMove(s: State, a: RefillAction, k: nat)
    requires Sound(s) && RefillEnabled(s, a) && 0 < k < |s.slots|
    ensures k < |RefillApply(s, a).slots| && RefillApply(s, a).slots[k].used == s.slots[k].used
  {
  }

  // ----- PTEs ---------------------------------------------------------------------------

  datatype Format = Unaccessed | InMemory | InTransition | OnDisk

  function FormatOf(t: Pte): Format {
    match t
    case Unused => Unaccessed
    case Valid(_, _, _, _, _) => InMemory
    case Transition(_) => InTransition
    case Disk(_, _) => OnDisk
  }

  /** The step repurposes the standby page of PTE v. */
  predicate Repurposes(s: State, a: Action, v: nat)
    requires Typed(s) && Enabled(s, a)
  {
    match a
    case Fault(DoCommitFirst(u)) => StandbyOf(s, s.virtuals[u].job.page, v)
    case Connect(DoCommitDisk(_, p, _)) => StandbyOf(s, p, v)
    case Refill(DoDetach(p)) => StandbyOf(s, p, v)
    case _ => false
  }

  predicate StandbyOf(s: State, p: nat, v: nat) {
    p < |s.pages| && s.pages[p].status.Standby? && s.pages[p].pte == Some(v)
  }

  /** The trimmer's last compare-exchange succeeds. */
  predicate Exchanges(s: State, a: Action, v: nat)
    requires Typed(s) && Enabled(s, a)
  {
    a == Trim(DoSwap(v)) && s.virtuals[v].pte == s.virtuals[v].trim.copy
  }

  function NextFormat(s: State, a: Action, v: nat): Format
    requires Typed(s) && Enabled(s, a) && v < |s.virtuals|
  {
    if Repurposes(s, a, v) then OnDisk
    else if Exchanges(s, a, v) then InTransition
    else if a == Connect(DoFinish(v)) || (a.Fault? && a.fault.DoClaimFirst? && a.fault.v == v) then InMemory
    else FormatOf(s.virtuals[v].pte)
  }

  /** When a PTE changes its format, and that it then names the slot of the page
      that is repurposed. */
  lemma FormatsMove(s: State, a: Action, v: nat)
    requires Sound(s) && Enabled(s, a) && v < |s.virtuals|
    ensures v < |Apply(s, a).virtuals| && FormatOf(Apply(s, a).virtuals[v].pte) == NextFormat(s, a, v)
    ensures Repurposes(s, a, v) ==>
              exists p: nat :: StandbyOf(s, p, v) && Apply(s, a).virtuals[v].pte == Disk(s.pages[p].slot, false)
  {
    assert VirtualOk(s, v);
    match a
    case User(_) =>
    case Fault(b) => FaultFormatsMove(s, b, v);
    case Connect(b) => ConnectFormatsMove(s, b, v);
    case Trim(b) => TrimFormatsMove(s, b, v);
    case Writer(b) =>
    case Refill(b) => RefillFormatsMove(s, b, v);
  }

  lemma FaultFormatsMove(s: State, a: FaultAction, v: nat)
    requires Sound(s) && FaultEnabled(s, a) && v < |s.virtuals|
    ensures v < |FaultApply(s, a).virtuals|
    ensures FormatOf(FaultApply(s, a).virtuals[v].pte) == NextFormat(s, Fault(a), v)
    ensures a.DoCommitFirst? && Repurposes(s, Fault(a), v) ==>
              FaultApply(s, a).virtuals[v].pte == Disk(s.pages[s.virtuals[a.v].job.page].slot, false)
  {
    match a
    case DoFinishChange(u) => assert VirtualOk(s, u);
    case DoCommitFirst(u) => CommitFirstFormats(s, u, v);
    case _ =>
  }

  lemma CommitFirstFormats(s: State, u: nat, v: nat)
    requires Sound(s) && CanCommitFirst(s, u) && v < |s.virtuals|
    ensures v < |CommitFirst(s, u).virtuals|
    ensures CommitFirst(s, u).virtuals[v].pte
            == if StandbyOf(s, s.virtuals[u].job.page, v) then Disk(s.pages[s.virtuals[u].job.page].slot, false)
               else s.virtuals[v].pte
  {
    assert VirtualOk(s, u) && PageOk(s, s.virtuals[u].job.page);
  }

  lemma ConnectFormatsMove(s: State, a: ConnectAction, v: nat)
    requires Sound(s) && ConnectEnabled(s, a) && v < |s.virtuals|
    ensures v < |ConnectApply(s, a).virtuals|
    ensures FormatOf(ConnectApply(s, a).virtuals[v].pte) == NextFormat(s, Connect(a), v)
    ensures a.DoCommitDisk? && Repurposes(s, Connect(a), v) ==>
              ConnectApply(s, a).virtuals[v].pte == Disk(s.pages[a.p].slot, false)
  {
    if a.DoCommitDisk? { CommitDiskFormats(s, a.v, a.p, a.write, v); }
  }

  lemma CommitDiskFormats(s: State, u: nat, p: nat, write: bool, v: nat)
    requires Sound(s) && CanCommitDisk(s, u, p) && v < |s.virtuals|
    ensures v < |CommitDisk(s, u, p, write).virtuals|
    ensures CommitDisk(s, u, p, write).virtuals[v].pte
            == if StandbyOf(s, p, v) then Disk(s.pages[p].slot, false) else s.virtuals[v].pte
  {
    assert VirtualOk(s, u) && PageOk(s, p);
  }

  lemma TrimFormatsMove(s: State, a: TrimAction, v: nat)
    requires Sound(s) && TrimEnabled(s, a) && v < |s.virtuals|
    ensures v < |TrimApply(s, a).virtuals|
    ensures FormatOf(TrimApply(s, a).virtuals[v].pte) == NextFormat(s, Trim(a), v)
  {
  }

  lemma RefillFormatsMove(s: State, a: RefillAction, v: nat)
    requires Sound(s) && RefillEnabled(s, a) && v < |s.virtuals|
    ensures v < |RefillApply(s, a).virtuals|
    ensures FormatOf(RefillApply(s, a).virtuals[v].pte) == NextFormat(s, Refill(a), v)
    ensures a.DoDetach? && Repurposes(s, Refill(a), v) ==>
              RefillApply(s, a).virtuals[v].pte == Disk(s.pages[a.p].slot, false)
  {
  }
}
