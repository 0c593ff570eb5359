/** Every run of the machine behaves like flat memory. */
module Refinement {
  import opened PageState
  import opened Protocol
  import opened Invariant
  import opened FaultSteps
  import opened WorkerSteps
  import opened WriterSteps

  /** The same step in flat memory: only a user write changes it. */
  function FlatStep(mem: Memory, a: Action): Memory {
    match a
    case User(DoUserWrite(v, offset, word)) => if v < |mem| then mem[v := WithWord(mem[v], offset, word)] else mem
    case _ => mem
  }

  lemma UserKeeps(s: State, mem: Memory, a: UserAction)
    requires Inv(s, mem) && UserEnabled(s, a)
    ensures Inv(UserApply(s, a), FlatStep(mem, User(a)))
  {
    match a
    case DoUserRead(_, _) =>
    case DoUserWrite(v, offset, word) => UserWriteKeeps(s, mem, v, offset, word);
    case DoTouch(v) => TouchKeeps(s, mem, v);
  }

  lemma FaultKeeps(s: State, mem: Memory, a: FaultAction)
    requires Inv(s, mem) && FaultEnabled(s, a)
    ensures Inv(FaultApply(s, a), mem)
  {
    match a
    case DoClaimChange(v, write) => ClaimChangeKeeps(s, mem, v, write);
    case DoRemap(v) => RemapKeeps(s, mem, v);
    case DoFinishChange(v) => FinishChangeKeeps(s, mem, v);
    case DoReserve(p) => ReserveKeeps(s, mem, p);
    case DoReturn(p) => ReturnKeeps(s, mem, p);
    case DoClaimFirst(v, p, write) => ClaimFirstKeeps(s, mem, v, p, write);
    case DoCommitFirst(v) => CommitFirstKeeps(s, mem, v);
    case DoRescue(v, p, write) => RescueKeeps(s, mem, v, p, write);
    case DoCommitRescue(v) => CommitRescueKeeps(s, mem, v);
  }

  lemma ConnectKeeps(s: State, mem: Memory, a: ConnectAction)
    requires Inv(s, mem) && ConnectEnabled(s, a)
    ensures Inv(ConnectApply(s, a), mem)
  {
    match a
    case DoTakeRight(v) => TakeRightKeeps(s, mem, v);
    case DoDropRight(v) => DropRightKeeps(s, mem, v);
    case DoCommitDisk(v, p, write) => CommitDiskKeeps(s, mem, v, p, write);
    case DoFill(v) => FillKeeps(s, mem, v);
    case DoSettle(v) => SettleKeeps(s, mem, v);
    case DoMap(v) => MapKeeps(s, mem, v);
    case DoFinish(v) => FinishKeeps(s, mem, v);
  }

  lemma TrimKeeps(s: State, mem: Memory, a: TrimAction)
    requires Inv(s, mem) && TrimEnabled(s, a)
    ensures Inv(TrimApply(s, a), mem)
  {
    match a
    case DoMark(v) => MarkKeeps(s, mem, v);
    case DoUnmark(v) => UnmarkKeeps(s, mem, v);
    case DoChoose(v) => ChooseKeeps(s, mem, v);
    case DoUnhook(v) => UnhookKeeps(s, mem, v);
    case DoList(v) => ListKeeps(s, mem, v);
    case DoCopy(v) => CopyKeeps(s, mem, v);
    case DoSwap(v) => SwapKeeps(s, mem, v);
  }

  lemma WriterKeeps(s: State, mem: Memory, a: WriterAction)
    requires Inv(s, mem) && WriterEnabled(s, a)
    ensures Inv(WriterApply(s, a), mem)
  {
    match a
    case DoPop(p) => PopKeeps(s, mem, p);
    case DoAllot(slots) => AllotKeeps(s, mem, slots);
    case DoStore(i) => StoreKeeps(s, mem, i);
    case DoComplete(i) => CompleteKeeps(s, mem, i);
    case DoNextBatch => NextBatchKeeps(s, mem);
  }

  lemma RefillKeeps(s: State, mem: Memory, a: RefillAction)
    requires Inv(s, mem) && RefillEnabled(s, a)
    ensures Inv(RefillApply(s, a), mem)
  {
    match a
    case DoTakeOld(p) => TakeOldKeeps(s, mem, p);
    case DoDetach(p) => DetachKeeps(s, mem, p);
    case DoAddFree(p) => AddFreeKeeps(s, mem, p);
    case DoAddZeroSlot(p) => AddZeroSlotKeeps(s, mem, p);
    case DoTakeZeroSlot(p) => TakeZeroSlotKeeps(s, mem, p);
    case DoClear(p) => ClearKeeps(s, mem, p);
    case DoAddZero(p) => AddZeroKeeps(s, mem, p);
  }

  /** Each step of each thread keeps the invariant, and with it the relation
      between the machine and flat memory. */
  lemma StepKeeps(s: State, mem: Memory, a: Action)
    requires Inv(s, mem) && Enabled(s, a)
    ensures Inv(Apply(s, a), FlatStep(mem, a))
  {
    match a
    case User(b) => UserKeeps(s, mem, b);
    case Fault(b) => FaultKeeps(s, mem, b);
    case Connect(b) => ConnectKeeps(s, mem, b);
    case Trim(b) => TrimKeeps(s, mem, b);
    case Writer(b) => WriterKeeps(s, mem, b);
    case Refill(b) => RefillKeeps(s, mem, b);
  }

  function FlatZero(virtualPages: nat): Memory {
    seq(virtualPages, _ => ZERO_PAGE)
  }

  lemma InitialOk(virtualPages: nat, frames: nat)
    ensures Inv(Initial(virtualPages, frames), FlatZero(virtualPages))
  {
    var s := Initial(virtualPages, frames);
    forall v | 0 <= v < virtualPages ensures VirtualOk(s, v) && ContentsOk(s, FlatZero(virtualPages), v) {}
    forall p | 0 <= p < frames ensures PageOk(s, p) {}
    forall k | 0 <= k < virtualPages + 2 ensures SlotOk(s, k) {}
  }

  // ----- runs -----------------------------------------------------------------

  /** A thread whose step is not enabled waits: nothing happens. */
  ghost function Next(s: State, a: Action): State {
    if Typed(s) && Enabled(s, a) then Apply(s, a) else s
  }

  /** Any interleaving of any number of attempted steps. */
  ghost function Run(s: State, actions: seq<Action>): State
    decreases |actions|
  {
    if actions == [] then s
    else Next(Run(s, actions[..|actions| - 1]), actions[|actions| - 1])
  }

  datatype Write = Write(v: nat, offset: nat, word: int)

  /** The user writes that went through, in order. */
  ghost function Writes(s: State, actions: seq<Action>): seq<Write>
    decreases |actions|
  {
    if actions == [] then []
    else
      var before := actions[..|actions| - 1];
      var done := Writes(s, before);
      match actions[|actions| - 1]
      case User(DoUserWrite(v, offset, word)) =>
        if CanUserWrite(Run(s, before), v) then done + [Write(v, offset, word)] else done
      case _ => done
  }

  /** The last word written at an address, 0 if there was none. */
  function LastWritten(writes: seq<Write>, v: nat, offset: nat): int
    decreases |writes|
  {
    if writes == [] then 0
    else
      var w := writes[|writes| - 1];
      if w.v == v && w.offset == offset then w.word
      else LastWritten(writes[..|writes| - 1], v, offset)
  }

  /** Flat memory after some writes. */
  function FlatAfter(virtualPages: nat, writes: seq<Write>): Memory
    decreases |writes|
  {
    if writes == [] then FlatZero(virtualPages)
    else
      var w := writes[|writes| - 1];
      FlatStep(FlatAfter(virtualPages, writes[..|writes| - 1]), User(DoUserWrite(w.v, w.offset, w.word)))
  }

  lemma {:induction false} FlatHoldsLastWritten(virtualPages: nat, writes: seq<Write>, v: nat, offset: nat)
    requires v < virtualPages
    ensures |FlatAfter(virtualPages, writes)| == virtualPages
    ensures Word(FlatAfter(virtualPages, writes)[v], offset) == LastWritten(writes, v, offset)
    decreases |writes|
  {
    if writes != [] {
      FlatHoldsLastWritten(virtualPages, writes[..|writes| - 1], v, offset);
    }
  }

  /** In every reachable state the invariant holds, against the flat memory
      that took the same writes. */
  lemma {:induction false} RunKeeps(virtualPages: nat, frames: nat, actions: seq<Action>)
    ensures Inv(Run(Initial(virtualPages, frames), actions),
                FlatAfter(virtualPages, Writes(Initial(virtualPages, frames), actions)))
    decreases |actions|
  {
    var s0 := Initial(virtualPages, frames);
    if actions == [] {
      InitialOk(virtualPages, frames);
    } else {
      var before, a := actions[..|actions| - 1], actions[|actions| - 1];
      RunKeeps(virtualPages, frames, before);
      var s, writes := Run(s0, before), Writes(s0, before);
      if Enabled(s, a) {
        StepKeeps(s, FlatAfter(virtualPages, writes), a);
      }
      if a.User? && a.user.DoUserWrite? && CanUserWrite(s, a.user.v) {
        var all := writes + [Write(a.user.v, a.user.offset, a.user.word)];
        assert Writes(s0, actions) == all && all[..|all| - 1] == writes;
      } else {
        assert Writes(s0, actions) == writes;
      }
    }
  }

  /** Whatever faults, trims, disk writes, rescues and repurposings happened:
      a read through a mapped address returns the last word written there,
      and 0 if nothing was. */
  lemma ReadsReturnLastWrite(virtualPages: nat, frames: nat, actions: seq<Action>, v: nat, offset: nat)
    requires CanUserRead(Run(Initial(virtualPages, frames), actions), v)
    ensures Typed(Run(Initial(virtualPages, frames), actions))
    ensures UserRead(Run(Initial(virtualPages, frames), actions), v, offset)
         == LastWritten(Writes(Initial(virtualPages, frames), actions), v, offset)
  {
    var s, writes := Run(Initial(virtualPages, frames), actions), Writes(Initial(virtualPages, frames), actions);
    RunKeeps(virtualPages, frames, actions);
    assert VirtualOk(s, v) && PageOk(s, s.virtuals[v].hw.frame);
    assert ContentsOk(s, FlatAfter(virtualPages, writes), v);
    FlatSize(virtualPages, writes);
    FlatHoldsLastWritten(virtualPages, writes, v, offset);
  }

  lemma {:induction false} FlatSize(virtualPages: nat, writes: seq<Write>)
    ensures |FlatAfter(virtualPages, writes)| == virtualPages
    decreases |writes|
  {
    if writes != [] { FlatSize(virtualPages, writes[..|writes| - 1]); }
  }

  lemma {:induction false} LastWrittenIsZeroOr(writes: seq<Write>, v: nat, offset: nat, word: int)
    requires forall i :: 0 <= i < |writes| && writes[i].v == v && writes[i].offset == offset ==> writes[i].word == word
    ensures LastWritten(writes, v, offset) == 0 || LastWritten(writes, v, offset) == word
    decreases |writes|
  {
    if writes != [] { LastWrittenIsZeroOr(writes[..|writes| - 1], v, offset, word); }
  }

  /** The simulator's own check: when every write stores the address it goes
      to, a location reads as 0 or as its own address. */
  lemma StampedOrZero(virtualPages: nat, frames: nat, actions: seq<Action>, stamp: (nat, nat) -> int, v: nat,
                      offset: nat)
    requires CanUserRead(Run(Initial(virtualPages, frames), actions), v)
    requires forall i :: 0 <= i < |actions| && actions[i].User? && actions[i].user.DoUserWrite?
               ==> actions[i].user.word == stamp(actions[i].user.v, actions[i].user.offset)
    ensures Typed(Run(Initial(virtualPages, frames), actions))
    ensures var word := UserRead(Run(Initial(virtualPages, frames), actions), v, offset);
            word == 0 || word == stamp(v, offset)
  {
    ReadsReturnLastWrite(virtualPages, frames, actions, v, offset);
    WritesAreAttempted(Initial(virtualPages, frames), actions);
    LastWrittenIsZeroOr(Writes(Initial(virtualPages, frames), actions), v, offset, stamp(v, offset));
  }

  lemma {:induction false} WritesAreAttempted(s: State, actions: seq<Action>)
    ensures forall w :: w in Writes(s, actions) ==> User(DoUserWrite(w.v, w.offset, w.word)) in actions
    decreases |actions|
  {
    if actions != [] { WritesAreAttempted(s, actions[..|actions| - 1]); }
  }
}
