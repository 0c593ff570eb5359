/** What a thread can rely on while others run: nobody else continues its
    faults, takes the pages in its hand, or does the work of a worker thread
    there is only one of. */
module Interference {
  import opened PageState
  import opened Protocol
  import opened Invariant
  import opened Refinement

  /** What belongs to the thread at hand: the virtual pages whose fault it is
      resolving, the pages in its local arrays, the PTEs whose section it has
      locked, and its role. */
  datatype Mine = Mine(faults: set<nat>, hands: set<nat>, locked: set<nat>, trimmer: bool, writer: bool)

  /** Some of a thread's faults and nothing else. */
  function Only(faults: set<nat>): Mine {
    Mine(faults, {}, {}, false, false)
  }

  predicate ForeignFault(a: FaultAction, me: Mine) {
    match a
    case DoRemap(v) => v !in me.faults
    case DoFinishChange(v) => v !in me.faults
    case DoReturn(p) => p !in me.hands
    case DoClaimFirst(v, p, _) => p !in me.hands && v !in me.locked
    case DoCommitFirst(v) => v !in me.faults
    case DoCommitRescue(v) => v !in me.faults
    case _ => true
  }

  predicate ForeignConnect(a: ConnectAction, me: Mine) {
    match a
    case DoTakeRight(v) => v !in me.locked
    case DoDropRight(v) => v !in me.faults
    case DoCommitDisk(v, p, _) => v !in me.faults && p !in me.hands
    case DoFill(v) => v !in me.faults
    case DoSettle(v) => v !in me.faults
    case DoMap(v) => v !in me.faults
    case DoFinish(v) => v !in me.faults
  }

  predicate ForeignRefill(a: RefillAction, me: Mine) {
    match a
    case DoTakeOld(_) => true
    case DoDetach(p) => p !in me.hands
    case DoAddFree(p) => p !in me.hands
    case DoAddZeroSlot(p) => p !in me.hands
    case DoTakeZeroSlot(_) => true
    case DoClear(p) => p !in me.hands
    case DoAddZero(p) => p !in me.hands
  }

  /** Another thread may take step a.  Starting a fault is open to everyone. */
  predicate Foreign(a: Action, me: Mine) {
    match a
    case User(_) => true
    case Fault(b) => ForeignFault(b, me)
    case Connect(b) => ForeignConnect(b, me)
    case Trim(_) => !me.trimmer
    case Writer(_) => !me.writer
    case Refill(b) => ForeignRefill(b, me)
  }

  predicate SameSize(s: State, s': State) {
    |s'.virtuals| == |s.virtuals| && |s'.pages| == |s.pages| && |s'.slots| == |s.slots|
  }

  /** The pages in the thread's hand. */
  predicate InHand(h: Hand) {
    h.Popped? || h.Refresh? || h.Detached? || h.Zeroing? || h.Zeroed?
  }

  /** The PTE is the faulting thread's to write, unless a rescuer still waits for
      the trimmer to finish it. */
  predicate Owned(x: Virtual) {
    !x.job.NoJob? && !(x.job.Rescuing? && x.pte.Valid?)
  }

  /** Only the access bit may have been set. */
  predicate OnlyAccessed(t: Pte, t': Pte) {
    t' == t || (t.Valid? && t' == t.(accessed := true))
  }

  /** Nothing that belongs to the thread has changed. */
  ghost predicate Kept(s: State, s': State, me: Mine) {
    && SameSize(s, s')
    && (forall v :: v in me.faults && v < |s.virtuals| && !s.virtuals[v].job.NoJob? ==>
       s'.virtuals[v].job == s.virtuals[v].job)
    && (forall v :: v in me.faults && v < |s.virtuals| && Owned(s.virtuals[v]) ==>
       OnlyAccessed(s.virtuals[v].pte, s'.virtuals[v].pte))
    && (forall p :: p in me.hands && p < |s.pages| && InHand(s.pages[p].hand) ==>
       s'.pages[p].hand == s.pages[p].hand && s'.pages[p].status == s.pages[p].status)
    && (forall v :: v in me.locked && v < |s.virtuals| && s.virtuals[v].pte.Unused? ==> s'.virtuals[v].pte.Unused?)
    && (me.trimmer ==> forall v :: 0 <= v < |s.virtuals| ==> s'.virtuals[v].trim == s.virtuals[v].trim)
    && (me.writer ==> s'.batch == s.batch && s'.writing == s.writing)
  }

  lemma KeptTwice(s: State, s': State, s'': State, me: Mine)
    requires Kept(s, s', me) && Kept(s', s'', me)
    ensures Kept(s, s'', me)
  {
  }

  /** While a fault on v is in progress no other thread can start one. */
  lemma FaultIsExclusive(s: State, v: nat, p: nat)
    requires Sound(s) && v < |s.virtuals| && !s.virtuals[v].job.NoJob?
    ensures !CanClaimChange(s, v) && !CanClaimFirst(s, v, p) && !CanRescue(s, v, p) && !CanTakeRight(s, v)
  {
    assert VirtualOk(s, v);
    if p < |s.pages| { assert PageOk(s, p); }
  }

  lemma UserKeepsMine(s: State, a: UserAction, me: Mine)
    requires Sound(s) && UserEnabled(s, a)
    ensures Kept(s, UserApply(s, a), me)
  {
  }

  lemma FaultStartKeepsMine(s: State, a: FaultAction, me: Mine)
    requires Sound(s) && FaultEnabled(s, a) && ForeignFault(a, me)
    requires a.DoClaimChange? || a.DoClaimFirst? || a.DoRescue?
    ensures Kept(s, FaultApply(s, a), me)
  {
    match a
    case DoClaimChange(v, _) => if !s.virtuals[v].job.NoJob? { FaultIsExclusive(s, v, 0); }
    case DoClaimFirst(v, p, _) => if !s.virtuals[v].job.NoJob? { FaultIsExclusive(s, v, p); }
    case DoRescue(v, p, _) => if !s.virtuals[v].job.NoJob? { FaultIsExclusive(s, v, p); }
  }

  /** A page that is repurposed is not one whose PTE has a fault in progress. */
  lemma DetachKeepsMine(s: State, p: nat)
    requires Sound(s) && p < |s.pages| && !s.pages[p].hand.ForRescue? && !s.pages[p].hand.Detached?
    ensures var s' := DetachOldPte(s, s.pages[p]);
            && SameSize(s, s') && s'.pages == s.pages && s'.batch == s.batch && s'.writing == s.writing
            && (forall v :: 0 <= v < |s.virtuals| ==>
               s'.virtuals[v].job == s.virtuals[v].job && s'.virtuals[v].trim == s.virtuals[v].trim)
            && (forall v :: 0 <= v < |s.virtuals| && (!s.virtuals[v].job.NoJob? || s.virtuals[v].pte.Unused?) ==>
               s'.virtuals[v].pte == s.virtuals[v].pte)
  {
    assert PageOk(s, p);
    if s.pages[p].pte.Some? { assert VirtualOk(s, s.pages[p].pte.value); }
  }

  lemma CommitFirstKeepsMine(s: State, v: nat, me: Mine)
    requires Sound(s) && CanCommitFirst(s, v) && v !in me.faults
    ensures Kept(s, CommitFirst(s, v), me)
  {
    assert VirtualOk(s, v);
    DetachKeepsMine(s, s.virtuals[v].job.page);
  }

  lemma CommitDiskKeepsMine(s: State, v: nat, p: nat, write: bool, me: Mine)
    requires Sound(s) && CanCommitDisk(s, v, p) && v !in me.faults && p !in me.hands
    ensures Kept(s, CommitDisk(s, v, p, write), me)
  {
    DetachKeepsMine(s, p);
  }

  lemma RemapKeepsMine(s: State, v: nat, me: Mine)
    requires Sound(s) && CanRemap(s, v) && v !in me.faults
    ensures Kept(s, Remap(s, v), me)
  {
    assert VirtualOk(s, v);
  }

  lemma CommitRescueKeepsMine(s: State, v: nat, me: Mine)
    requires Sound(s) && CanCommitRescue(s, v) && v !in me.faults
    ensures Kept(s, CommitRescue(s, v), me)
  {
    assert VirtualOk(s, v);
  }

  lemma ReturnKeepsMine(s: State, p: nat, me: Mine)
    requires Sound(s) && CanReturn(s, p) && p !in me.hands
    ensures Kept(s, Return(s, p), me)
  {
  }

  lemma FaultKeepsMine(s: State, a: FaultAction, me: Mine)
    requires Sound(s) && FaultEnabled(s, a) && ForeignFault(a, me)
    requires !a.DoClaimChange? && !a.DoClaimFirst? && !a.DoRescue?
    ensures Kept(s, FaultApply(s, a), me)
  {
    match a
    case DoRemap(v) => RemapKeepsMine(s, v, me);
    case DoFinishChange(v) => assert VirtualOk(s, v);
    case DoReturn(p) => ReturnKeepsMine(s, p, me);
    case DoCommitFirst(v) => CommitFirstKeepsMine(s, v, me);
    case DoCommitRescue(v) => CommitRescueKeepsMine(s, v, me);
    case _ =>
  }

  lemma RightKeepsMine(s: State, v: nat, me: Mine)
    requires Sound(s) && CanTakeRight(s, v)
    ensures Kept(s, TakeRight(s, v), me)
  {
    if !s.virtuals[v].job.NoJob? { FaultIsExclusive(s, v, 0); }
  }

  lemma SettleKeepsMine(s: State, v: nat, me: Mine)
    requires Sound(s) && CanSettle(s, v) && v !in me.faults
    ensures Kept(s, Settle(s, v), me)
  {
    assert VirtualOk(s, v);
  }

  lemma ConnectKeepsMine(s: State, a: ConnectAction, me: Mine)
    requires Sound(s) && ConnectEnabled(s, a) && ForeignConnect(a, me) && !a.DoTakeRight?
    ensures Kept(s, ConnectApply(s, a), me)
  {
    match a
    case DoCommitDisk(v, p, write) => CommitDiskKeepsMine(s, v, p, write, me);
    case DoDropRight(v) => assert VirtualOk(s, v);
    case DoFill(v) => assert VirtualOk(s, v);
    case DoSettle(v) => SettleKeepsMine(s, v, me);
    case DoMap(_) =>
    case DoFinish(v) => assert VirtualOk(s, v);
  }

  lemma ChooseKeepsMine(s: State, v: nat, me: Mine)
    requires Sound(s) && CanChoose(s, v) && !me.trimmer
    ensures Kept(s, Choose(s, v), me)
  {
    assert VirtualOk(s, v);
  }

  lemma SwapKeepsMine(s: State, v: nat, me: Mine)
    requires Sound(s) && CanSwap(s, v) && !me.trimmer
    ensures Kept(s, Swap(s, v), me)
  {
    assert VirtualOk(s, v);
  }

  lemma TrimKeepsMine(s: State, a: TrimAction, me: Mine)
    requires Sound(s) && TrimEnabled(s, a) && !me.trimmer
    ensures Kept(s, TrimApply(s, a), me)
  {
    match a
    case DoMark(v) => assert VirtualOk(s, v);
    case DoUnmark(v) => assert VirtualOk(s, v);
    case DoChoose(v) => ChooseKeepsMine(s, v, me);
    case DoList(v) => assert VirtualOk(s, v);
    case DoSwap(v) => SwapKeepsMine(s, v, me);
    case _ =>
  }

  lemma WriterKeepsMine(s: State, a: WriterAction, me: Mine)
    requires Sound(s) && WriterEnabled(s, a) && !me.writer
    ensures Kept(s, WriterApply(s, a), me)
  {
  }

  lemma RefillKeepsMine(s: State, a: RefillAction, me: Mine)
    requires Sound(s) && RefillEnabled(s, a) && ForeignRefill(a, me)
    ensures Kept(s, RefillApply(s, a), me)
  {
    match a
    case DoDetach(p) => DetachKeepsMine(s, p);
    case _ =>
  }

  /** A step of another thread leaves alone what belongs to this one. */
  lemma ForeignStepKeeps(s: State, a: Action, me: Mine)
    requires Sound(s) && Enabled(s, a) && Foreign(a, me)
    ensures Kept(s, Apply(s, a), me)
  {
    match a
    case User(b) => UserKeepsMine(s, b, me);
    case Fault(b) =>
      if b.DoClaimChange? || b.DoClaimFirst? || b.DoRescue? {
        FaultStartKeepsMine(s, b, me);
      } else {
        FaultKeepsMine(s, b, me);
      }
    case Connect(b) =>
      if b.DoTakeRight? { RightKeepsMine(s, b.v, me); } else { ConnectKeepsMine(s, b, me); }
    case Trim(b) => TrimKeepsMine(s, b, me);
    case Writer(b) => WriterKeepsMine(s, b, me);
    case Refill(b) => RefillKeepsMine(s, b, me);
  }
}
