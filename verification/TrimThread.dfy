/** The trimmer: marks PTEs, collects them in its buffers, unmaps them, puts
    their pages on lists and finishes the PTEs, while other threads fault,
    write, rescue and repurpose. */
module TrimThread {
  import opened PageState
  import opened Protocol
  import opened Invariant
  import opened Interference
  import opened Machine

  const THREAD_TRIM_STORAGE_SIZE: nat := 256
  const TRIM_STORAGE_TARGET: nat := THREAD_TRIM_STORAGE_SIZE * 8
  const TRIM_PER_SECTION: nat := 96

  /** TRIM_INFORMATION.  Pages are named by the virtual page they are trimmed from. */
  class TrimInformation {
    const pteStorage: array<nat>
    const toModified: array<nat>
    const toStandby: array<nat>
    var total: nat
    var numModified: nat
    var numStandby: nat

    ghost predicate Valid()
      reads this
    {
      && pteStorage != toModified && pteStorage != toStandby && toModified != toStandby
      && pteStorage.Length == toModified.Length == toStandby.Length
      && total <= pteStorage.Length && numModified + numStandby <= total
    }

    /** init_trim_information, for that many user threads. */
    constructor (userThreads: nat)
      ensures Valid() && total == 0
      ensures pteStorage.Length >= THREAD_TRIM_STORAGE_SIZE * userThreads + TRIM_PER_SECTION
      ensures pteStorage.Length >= TRIM_STORAGE_TARGET
      ensures fresh(pteStorage) && fresh(toModified) && fresh(toStandby)
    {
      var size := THREAD_TRIM_STORAGE_SIZE * userThreads + TRIM_PER_SECTION;
      if size < TRIM_STORAGE_TARGET { size := TRIM_STORAGE_TARGET; }
      pteStorage, toModified, toStandby := new nat[size], new nat[size], new nat[size];
      total, numModified, numStandby := 0, 0, 0;
    }

    /** Stores a PTE, and its page in at most one of the page buffers.  There
        has to be room. */
    method StorePte(v: nat, modified: bool, standby: bool)
      requires Valid() && total < pteStorage.Length && !(modified && standby)
      modifies this, pteStorage, toModified, toStandby
      ensures Valid() && total == old(total) + 1
      ensures pteStorage[..total] == old(pteStorage[..total]) + [v]
      ensures toModified[..numModified] == With(old(toModified[..numModified]), v, modified)
      ensures toStandby[..numStandby] == With(old(toStandby[..numStandby]), v, standby)
    {
      pteStorage[total] := v;
      total := total + 1;
      if modified {
        toModified[numModified] := v;
        numModified := numModified + 1;
      }
      if standby {
        toStandby[numStandby] := v;
        numStandby := numStandby + 1;
      }
    }
  }

  /** A function of the trim of v: the page buffers after it was stored. */
  function With(pages: seq<nat>, v: nat, goes: bool): seq<nat> {
    if goes then pages + [v] else pages
  }

  /** How far PTEs have got while the buffers fill: marked and to be listed, or
      on their way to disk and listed by the writer. */
  predicate Collected(x: Trim) {
    x.NoTrim? || x.Listed? || x.Chosen?
  }

  /** The buffers hold every PTE the trimmer is at work on, except perhaps
      `busy`, and the pages to be listed, each once. */
  ghost predicate TracksBut(s: State, storage: seq<nat>, modified: seq<nat>, standby: seq<nat>, busy: set<nat>) {
    InStorage(s, storage, busy) && Sorted(s, modified, Trim.Chosen(ToModified))
        && Sorted(s, standby, Trim.Chosen(ToStandby))
  }

  ghost predicate InStorage(s: State, storage: seq<nat>, busy: set<nat>) {
    && (forall k :: 0 <= k < |storage| ==> storage[k] < |s.virtuals|)
    && (forall v :: 0 <= v < |s.virtuals| && v !in busy ==> Collected(s.virtuals[v].trim))
    && (forall v :: 0 <= v < |s.virtuals| && v !in busy && !s.virtuals[v].trim.NoTrim? ==> v in storage)
  }

  ghost predicate Sorted(s: State, pages: seq<nat>, x: Trim) {
    && (forall i, j :: 0 <= i < j < |pages| ==> pages[i] != pages[j])
    && (forall k :: 0 <= k < |pages| ==> pages[k] < |s.virtuals| && s.virtuals[pages[k]].trim == x)
    && (forall v :: 0 <= v < |s.virtuals| && s.virtuals[v].trim == x ==> v in pages)
  }

  /** Nothing but the trim of v has changed, as far as the trimmer is concerned. */
  ghost predicate OnlyTrimOf(s: State, s': State, v: nat) {
    SameSize(s, s') && forall u :: 0 <= u < |s.virtuals| && u != v ==> s'.virtuals[u].trim == s.virtuals[u].trim
  }

  lemma OthersKeepTracks(s: State, s': State, me: Mine, storage: seq<nat>, modified: seq<nat>, standby: seq<nat>,
                         busy: set<nat>)
    requires TracksBut(s, storage, modified, standby, busy) && Kept(s, s', me) && me.trimmer
    ensures TracksBut(s', storage, modified, standby, busy)
  {
  }

  /** v is taken up: it was not in the buffers of pages. */
  lemma StartsBusy(s: State, s': State, storage: seq<nat>, modified: seq<nat>, standby: seq<nat>, v: nat)
    requires TracksBut(s, storage, modified, standby, {}) && OnlyTrimOf(s, s', v) && v < |s.virtuals|
    requires !s.virtuals[v].trim.Chosen? && s'.virtuals[v].trim.Marked?
    ensures TracksBut(s', storage, modified, standby, {v})
  {
  }

  lemma EndsSpared(s: State, s': State, storage: seq<nat>, modified: seq<nat>, standby: seq<nat>, v: nat)
    requires TracksBut(s, storage, modified, standby, {v}) && OnlyTrimOf(s, s', v) && v < |s.virtuals|
    requires s.virtuals[v].trim.Marked? && s'.virtuals[v].trim.NoTrim?
    ensures TracksBut(s', storage, modified, standby, {})
  {
  }

  lemma SortedAppend(s: State, s': State, pages: seq<nat>, x: Trim, v: nat)
    requires Sorted(s, pages, x) && OnlyTrimOf(s, s', v) && v < |s.virtuals|
    requires s.virtuals[v].trim != x && s'.virtuals[v].trim == x
    ensures Sorted(s', pages + [v], x)
  {
    var more := pages + [v];
    assert v !in pages;
    forall k | 0 <= k < |more| ensures more[k] < |s.virtuals| && s'.virtuals[more[k]].trim == x {}
    forall u | 0 <= u < |s.virtuals| && s'.virtuals[u].trim == x ensures u in more {
      if u != v { assert u in pages; }
    }
  }

  lemma SortedSame(s: State, s': State, pages: seq<nat>, x: Trim, v: nat)
    requires Sorted(s, pages, x) && OnlyTrimOf(s, s', v) && v < |s.virtuals|
    requires s.virtuals[v].trim != x && s'.virtuals[v].trim != x
    ensures Sorted(s', pages, x)
  {
  }

  lemma SortedGrows(s: State, s': State, pages: seq<nat>, x: Trim, v: nat)
    requires Sorted(s, pages, x) && OnlyTrimOf(s, s', v) && v < |s.virtuals|
    requires s.virtuals[v].trim != x
    ensures Sorted(s', With(pages, v, s'.virtuals[v].trim == x), x)
  {
    if s'.virtuals[v].trim == x { SortedAppend(s, s', pages, x, v); } else { SortedSame(s, s', pages, x, v); }
  }

  lemma StoredGrows(s: State, s': State, storage: seq<nat>, v: nat)
    requires InStorage(s, storage, {v}) && OnlyTrimOf(s, s', v) && v < |s.virtuals| && Collected(s'.virtuals[v].trim)
    ensures InStorage(s', storage + [v], {})
  {
    assert (storage + [v])[|storage|] == v;
  }

  lemma EndsStored(s: State, s': State, storage: seq<nat>, modified: seq<nat>, standby: seq<nat>, v: nat)
    requires TracksBut(s, storage, modified, standby, {v}) && OnlyTrimOf(s, s', v) && v < |s.virtuals|
    requires s.virtuals[v].trim.Marked? && Collected(s'.virtuals[v].trim)
    ensures TracksBut(s', storage + [v],
              With(modified, v, s'.virtuals[v].trim == Trim.Chosen(ToModified)),
              With(standby, v, s'.virtuals[v].trim == Trim.Chosen(ToStandby)), {})
  {
    SortedGrows(s, s', modified, Trim.Chosen(ToModified), v);
    SortedGrows(s, s', standby, Trim.Chosen(ToStandby), v);
    StoredGrows(s, s', storage, v);
  }

  ghost predicate Tracks(m: Machine, t: TrimInformation, busy: set<nat>)
    reads m, t, t.pteStorage, t.toModified, t.toStandby
  {
    && m.Valid() && m.mine.trimmer && t.Valid()
    && TracksBut(m.s, t.pteStorage[..t.total], t.toModified[..t.numModified], t.toStandby[..t.numStandby], busy)
  }

  // ----- what the trimmer has looked at ---------------------------------------------------

  predicate Untrimmable(t: Pte) {
    !t.Valid? || t.changing || t.trimming
  }

  /** At some time from n on the PTE was not valid, or claimed, or already being
      trimmed, and not because it had just been marked. */
  ghost predicate WasUntrimmable(trace: seq<State>, n: int, v: nat) {
    exists i :: 0 <= i && n <= i < |trace| && v < |trace[i].virtuals|
                && var x := trace[i].virtuals[v];
                   (!x.pte.Valid? || x.pte.changing || x.pte.trimming) && !x.trim.Marked?
  }

  /** Between two times from n on it changed, and not by a step of this thread. */
  ghost predicate Changed(trace: seq<State>, own: seq<Step>, n: int, v: nat) {
    exists i, j :: 0 <= i && n <= i < j < |trace| && v < |trace[i].virtuals| && v < |trace[j].virtuals|
                && trace[i].virtuals[v].pte != trace[j].virtuals[v].pte && NoneBetween(own, i, j)
  }

  ghost predicate NoneBetween(own: seq<Step>, i: int, j: int) {
    forall k :: 0 <= k < |own| ==> !(i <= own[k].at < j)
  }

  /** The trimmer is to unmap the PTE and list its page, or has done so: all that
      is left is for the PTE to be finished. */
  predicate Trimming(x: Virtual) {
    StillMarked(x.pte) && !x.trim.NoTrim? && !x.trim.Marked?
  }

  /** PTE v is in both states. */
  predicate InBoth(s: State, s': State, v: nat) {
    v < |s.virtuals| && v < |s'.virtuals|
  }

  /** The step from s to s' marks v. */
  predicate Marks(s: State, s': State, v: nat) {
    && InBoth(s, s', v) && s.virtuals[v].pte.Valid? && !s.virtuals[v].pte.changing && !s.virtuals[v].pte.trimming
    && s'.virtuals[v].pte == s.virtuals[v].pte.(trimming := true) && s'.virtuals[v].trim.Marked?
  }

  /** It takes the mark back, and the access bit with it; v stays mapped. */
  predicate Spares(s: State, s': State, v: nat) {
    && InBoth(s, s', v) && s.virtuals[v].trim.Marked? && s'.virtuals[v].trim.NoTrim? && s.virtuals[v].pte.Valid?
    && s'.virtuals[v].pte == s.virtuals[v].pte.(trimming := false, accessed := false)
    && s'.virtuals[v].hw == s.virtuals[v].hw && s.virtuals[v].hw.Mapped?
  }

  /** It decides where the page of the marked v goes. */
  predicate Chooses(s: State, s': State, v: nat) {
    InBoth(s, s', v) && s.virtuals[v].trim.Marked? && Trimming(s'.virtuals[v])
  }

  /** The k-th step of the thread marks v. */
  predicate MarksAt(trace: seq<State>, own: seq<Step>, k: nat, v: nat) {
    k < |own| && own[k].at + 1 < |trace| && Marks(trace[own[k].at], trace[own[k].at + 1], v)
  }

  /** And its next one decides that the PTE goes, or that it stays. */
  predicate ChosenAt(trace: seq<State>, own: seq<Step>, k: nat, v: nat) {
    && MarksAt(trace, own, k, v) && k + 1 < |own| && own[k + 1].at + 1 < |trace|
    && Chooses(trace[own[k + 1].at], trace[own[k + 1].at + 1], v)
  }

  predicate SparedAt(trace: seq<State>, own: seq<Step>, k: nat, v: nat) {
    && MarksAt(trace, own, k, v) && k + 1 < |own| && own[k + 1].at + 1 < |trace|
    && Spares(trace[own[k + 1].at], trace[own[k + 1].at + 1], v)
  }

  /** Whether the PTE had been accessed when it was marked. */
  predicate AccessedThen(trace: seq<State>, own: seq<Step>, k: nat, v: nat)
    requires MarksAt(trace, own, k, v)
  {
    trace[own[k].at].virtuals[v].pte.accessed
  }

  /** From its o-th step on the thread marked v and chose it to go: it had not
      been accessed, or accessed PTEs are trimmed as well. */
  ghost predicate WasChosen(trace: seq<State>, own: seq<Step>, o: nat, trimAccessed: bool, v: nat) {
    exists k: nat :: o <= k && ChosenAt(trace, own, k, v) && (trimAccessed || !AccessedThen(trace, own, k, v))
  }

  /** It marked v and spared it, because it had been accessed. */
  ghost predicate WasSpared(trace: seq<State>, own: seq<Step>, o: nat, v: nat) {
    exists k: nat :: o <= k && SparedAt(trace, own, k, v) && AccessedThen(trace, own, k, v)
  }

  /** The trimmer has dealt with PTE v: it chose it to go, or spared it for its
      access bit, or could not mark it, or found it changed when it tried to. */
  ghost predicate Examined(trace: seq<State>, own: seq<Step>, n: int, o: nat, trimAccessed: bool, v: nat) {
    || WasChosen(trace, own, o, trimAccessed, v) || (!trimAccessed && WasSpared(trace, own, o, v))
    || WasUntrimmable(trace, n, v) || Changed(trace, own, n, v)
  }

  /** The thread went on; its new steps are later than the trace as it was. */
  ghost predicate Grows(trace: seq<State>, own: seq<Step>, longer: seq<State>, more: seq<Step>) {
    && Extends(trace, longer) && Extends(own, more)
    && (forall k :: |own| <= k < |more| ==> more[k].at >= |trace| - 1)
  }

  lemma MarksStay(trace: seq<State>, own: seq<Step>, longer: seq<State>, more: seq<Step>, k: nat, v: nat)
    requires Extends(trace, longer) && Extends(own, more)
    ensures MarksAt(trace, own, k, v) ==>
              MarksAt(longer, more, k, v) && AccessedThen(longer, more, k, v) == AccessedThen(trace, own, k, v)
    ensures ChosenAt(trace, own, k, v) ==> ChosenAt(longer, more, k, v)
    ensures SparedAt(trace, own, k, v) ==> SparedAt(longer, more, k, v)
  {
    hide Marks, Chooses, Spares;
  }

  lemma ChosenStays(trace: seq<State>, own: seq<Step>, longer: seq<State>, more: seq<Step>, o: nat,
                    trimAccessed: bool, v: nat)
    requires Extends(trace, longer) && Extends(own, more) && WasChosen(trace, own, o, trimAccessed, v)
    ensures WasChosen(longer, more, o, trimAccessed, v)
  {
    hide Marks, Chooses;
    var k: nat :| o <= k && ChosenAt(trace, own, k, v) && (trimAccessed || !AccessedThen(trace, own, k, v));
    MarksStay(trace, own, longer, more, k, v);
  }

  lemma SparedStays(trace: seq<State>, own: seq<Step>, longer: seq<State>, more: seq<Step>, o: nat, v: nat)
    requires Extends(trace, longer) && Extends(own, more) && WasSpared(trace, own, o, v)
    ensures WasSpared(longer, more, o, v)
  {
    hide Marks, Spares;
    var k: nat :| o <= k && SparedAt(trace, own, k, v) && AccessedThen(trace, own, k, v);
    MarksStay(trace, own, longer, more, k, v);
  }

  lemma ChangedStays(trace: seq<State>, own: seq<Step>, longer: seq<State>, more: seq<Step>, n: int, v: nat)
    requires Grows(trace, own, longer, more) && Changed(trace, own, n, v)
    ensures Changed(longer, more, n, v)
  {
    var i, j :| 0 <= i && n <= i < j < |trace| && v < |trace[i].virtuals| && v < |trace[j].virtuals|
                && trace[i].virtuals[v].pte != trace[j].virtuals[v].pte && NoneBetween(own, i, j);
    assert NoneBetween(more, i, j);
    assert longer[i] == trace[i] && longer[j] == trace[j];
  }

  lemma UntrimmableStays(trace: seq<State>, longer: seq<State>, n: int, v: nat)
    requires Extends(trace, longer) && WasUntrimmable(trace, n, v)
    ensures WasUntrimmable(longer, n, v)
  {
  }

  lemma ExaminedStays(trace: seq<State>, own: seq<Step>, longer: seq<State>, more: seq<Step>, n: int, o: nat,
                      trimAccessed: bool, v: nat)
    requires Grows(trace, own, longer, more) && Examined(trace, own, n, o, trimAccessed, v)
    ensures Examined(longer, more, n, o, trimAccessed, v)
  {
    hide WasChosen, WasSpared, WasUntrimmable, Changed;
    if WasChosen(trace, own, o, trimAccessed, v) {
      ChosenStays(trace, own, longer, more, o, trimAccessed, v);
    } else if WasUntrimmable(trace, n, v) {
      UntrimmableStays(trace, longer, n, v);
    } else if Changed(trace, own, n, v) {
      ChangedStays(trace, own, longer, more, n, v);
    } else {
      SparedStays(trace, own, longer, more, o, v);
    }
  }

  lemma UntrimmableNow(m: Machine, n: int, v: nat)
    requires m.Valid() && n < |m.trace| && v < |m.s.virtuals| && Untrimmable(m.s.virtuals[v].pte)
    requires !m.s.virtuals[v].trim.Marked?
    ensures WasUntrimmable(m.trace, n, v)
  {
    hide Inv, Lawful, Recorded, Justified;
    assert v < |m.trace[|m.trace| - 1].virtuals|;
  }

  /** All of the PTEs from `from` to `to`. */
  ghost predicate AllExamined(trace: seq<State>, own: seq<Step>, n: int, o: nat, trimAccessed: bool, from: int,
                              to: int) {
    forall v: nat :: from <= v < to ==> Examined(trace, own, n, o, trimAccessed, v)
  }

  lemma AllExaminedStays(trace: seq<State>, own: seq<Step>, longer: seq<State>, more: seq<Step>, n: int, o: nat,
                         trimAccessed: bool, from: int, to: int)
    requires Grows(trace, own, longer, more) && AllExamined(trace, own, n, o, trimAccessed, from, to)
    ensures AllExamined(longer, more, n, o, trimAccessed, from, to)
  {
    hide Examined;
    forall v: nat | from <= v < to ensures Examined(longer, more, n, o, trimAccessed, v) {
      ExaminedStays(trace, own, longer, more, n, o, trimAccessed, v);
    }
  }

  // ----- marking -----------------------------------------------------------------------

  lemma MarkStep(s: State, v: nat)
    requires Typed(s) && CanMark(s, v)
    ensures OnlyTrimOf(s, Mark(s, v), v) && Marks(s, Mark(s, v), v)
  {
  }

  lemma UnmarkStep(s: State, v: nat)
    requires Sound(s) && v < |s.virtuals| && s.virtuals[v].trim.Marked?
    ensures CanUnmark(s, v) && OnlyTrimOf(s, Unmark(s, v), v) && Spares(s, Unmark(s, v), v)
  {
    assert VirtualOk(s, v);
  }

  lemma ChooseStep(s: State, v: nat)
    requires Sound(s) && CanChoose(s, v)
    ensures OnlyTrimOf(s, Choose(s, v), v) && Chooses(s, Choose(s, v), v)
    ensures Choose(s, v).virtuals[v].trim.Listed? || Choose(s, v).virtuals[v].trim.Chosen?
  {
    assert VirtualOk(s, v);
  }

  /** The compare-exchange that marks a PTE for trimming. */
  method TryMark(m: Machine, t: TrimInformation, v: nat, copy: Pte) returns (ok: bool)
    requires Tracks(m, t, {}) && v < |m.s.virtuals| && copy.Valid? && !copy.changing && !copy.trimming
    modifies m
    ensures m.Later() && Tracks(m, t, if ok then {v} else {})
    ensures if ok then m.s.virtuals[v].trim.Marked? else m.s.virtuals[v].pte != copy
    ensures |m.own| == |old(m.own)| + if ok then 1 else 0
    ensures ok ==> MarksAt(m.trace, m.own, |old(m.own)|, v)
                   && m.trace[m.own[|old(m.own)|].at].virtuals[v].pte == copy
  {
    hide Inv, Sound, Lawful, Recorded, Justified;
    ghost var before := m.s;
    m.Others();
    m.ValidIsSound();
    OthersKeepTracks(before, m.s, m.mine, t.pteStorage[..t.total], t.toModified[..t.numModified],
        t.toStandby[..t.numStandby], {});
    ok := m.s.virtuals[v].pte == copy;
    if ok {
      NotChosen(m.s, v);
      MarkStep(m.s, v);
      StartsBusy(m.s, Mark(m.s, v), t.pteStorage[..t.total], t.toModified[..t.numModified],
          t.toStandby[..t.numStandby], v);
      m.Do(Trim(DoMark(v)));
    }
  }

  lemma NotChosen(s: State, v: nat)
    requires Sound(s) && v < |s.virtuals| && Collected(s.virtuals[v].trim)
    requires s.virtuals[v].pte.Valid? && !s.virtuals[v].pte.changing && !s.virtuals[v].pte.trimming
    ensures CanMark(s, v) && !s.virtuals[v].trim.Chosen?
  {
    assert VirtualOk(s, v);
  }

  /** An accessed PTE is spared when pages are not scarce. */
  method Spare(m: Machine, t: TrimInformation, v: nat)
    requires Tracks(m, t, {v}) && v < |m.s.virtuals| && m.s.virtuals[v].trim.Marked?
    modifies m
    ensures m.Later() && Tracks(m, t, {}) && |m.own| == |old(m.own)| + 1
    ensures m.own[|old(m.own)|].at + 1 < |m.trace|
    ensures Spares(m.trace[m.own[|old(m.own)|].at], m.trace[m.own[|old(m.own)|].at + 1], v)
  {
    hide Lawful, Recorded, Justified;
    ghost var before := m.s;
    m.Others();
    OthersKeepTracks(before, m.s, m.mine, t.pteStorage[..t.total], t.toModified[..t.numModified],
        t.toStandby[..t.numStandby], {v});
    UnmarkStep(m.s, v);
    EndsSpared(m.s, Unmark(m.s, v), t.pteStorage[..t.total], t.toModified[..t.numModified],
        t.toStandby[..t.numStandby], v);
    m.Do(Trim(DoUnmark(v)));
  }

  /** Decides, under the pagelock if need be, which list the page goes to. */
  method Decide(m: Machine, t: TrimInformation, v: nat)
    requires Tracks(m, t, {v}) && v < |m.s.virtuals| && m.s.virtuals[v].trim.Marked?
    modifies m
    ensures m.Valid() && m.mine.trimmer && m.Later() && v < |m.s.virtuals| && |m.own| == |old(m.own)| + 1
    ensures m.own[|old(m.own)|].at + 1 < |m.trace|
    ensures Chooses(m.trace[m.own[|old(m.own)|].at], m.trace[m.own[|old(m.own)|].at + 1], v)
    ensures TracksBut(m.s, t.pteStorage[..t.total] + [v],
              With(t.toModified[..t.numModified], v, m.s.virtuals[v].trim == Trim.Chosen(ToModified)),
              With(t.toStandby[..t.numStandby], v, m.s.virtuals[v].trim == Trim.Chosen(ToStandby)), {})
  {
    hide Inv, Sound, Lawful, Recorded, Justified;
    ghost var before := m.s;
    m.Others();
    m.ValidIsSound();
    OthersKeepTracks(before, m.s, m.mine, t.pteStorage[..t.total], t.toModified[..t.numModified],
        t.toStandby[..t.numStandby], {v});
    ChooseStep(m.s, v);
    EndsStored(m.s, Choose(m.s, v), t.pteStorage[..t.total], t.toModified[..t.numModified],
        t.toStandby[..t.numStandby], v);
    m.Do(Trim(DoChoose(v)));
  }

  /** Puts a marked PTE in the buffers.  There has to be room for it. */
  method Store(m: Machine, t: TrimInformation, v: nat)
    requires Tracks(m, t, {v}) && v < |m.s.virtuals| && m.s.virtuals[v].trim.Marked? && t.total < t.pteStorage.Length
    modifies m, t, t.pteStorage, t.toModified, t.toStandby
    ensures m.Later() && Tracks(m, t, {}) && t.total == old(t.total) + 1 && t.pteStorage[t.total - 1] == v
    ensures |m.own| == |old(m.own)| + 1 && m.own[|old(m.own)|].at + 1 < |m.trace|
    ensures Chooses(m.trace[m.own[|old(m.own)|].at], m.trace[m.own[|old(m.own)|].at + 1], v)
  {
    hide Inv, Lawful, Recorded, Justified, Kept, TracksBut, Chooses;
    ghost var storage, modified, standby := t.pteStorage[..t.total], t.toModified[..t.numModified],
        t.toStandby[..t.numStandby];
    Decide(m, t, v);
    PutDecided(t, v, m.s.virtuals[v].trim, m.s, storage, modified, standby);
  }

  method PutDecided(t: TrimInformation, v: nat, x: Trim, ghost s: State,
                    ghost storage: seq<nat>, ghost modified: seq<nat>, ghost standby: seq<nat>)
    requires t.Valid() && t.total < t.pteStorage.Length
    requires storage == t.pteStorage[..t.total] && modified == t.toModified[..t.numModified]
             && standby == t.toStandby[..t.numStandby]
    requires TracksBut(s, storage + [v], With(modified, v, x == Trim.Chosen(ToModified)),
             With(standby, v, x == Trim.Chosen(ToStandby)), {})
    modifies t, t.pteStorage, t.toModified, t.toStandby
    ensures t.Valid() && t.total == old(t.total) + 1 && t.pteStorage[t.total - 1] == v
    ensures TracksBut(s, t.pteStorage[..t.total], t.toModified[..t.numModified], t.toStandby[..t.numStandby], {})
  {
    hide TracksBut;
    t.StorePte(v, x == Trim.Chosen(ToModified), x == Trim.Chosen(ToStandby));
    assert t.pteStorage[..t.total][t.total - 1] == v;
  }

  /** handle_trim_single_pte, with the copy of the PTE the caller just made.  If
      the mark goes through, the PTE is spared exactly if the copy was accessed
      and accessed PTEs are not trimmed; else it goes. */
  method TrimSingle(m: Machine, t: TrimInformation, v: nat, copy: Pte, trimAccessed: bool, ghost n: int, ghost o: nat)
    returns (marked: bool)
    requires Tracks(m, t, {}) && v < |m.s.virtuals| && copy == m.s.virtuals[v].pte && !Untrimmable(copy)
    requires t.total < t.pteStorage.Length && n < |m.trace| && o <= |m.own|
    modifies m, t, t.pteStorage, t.toModified, t.toStandby
    ensures m.Later() && Tracks(m, t, {}) && t.total == old(t.total) + if marked then 1 else 0
    ensures marked ==> WasChosen(m.trace, m.own, o, trimAccessed, v) && t.pteStorage[t.total - 1] == v
    ensures !marked ==> (!trimAccessed && WasSpared(m.trace, m.own, o, v)) || Changed(m.trace, m.own, n, v)
    ensures marked ==> |m.own| > |old(m.own)|
    ensures |m.own| > |old(m.own)| ==> (marked <==> trimAccessed || !copy.accessed)
  {
    hide Inv, Lawful, Recorded, Justified, Kept, TracksBut, Marks, Spares, Chooses;
    ghost var looked, k := |m.trace| - 1, |m.own|;
    OwnBefore(m);
    marked := TryMark(m, t, v, copy);
    if marked {
      ghost var trace, own := m.trace, m.own;
      if !trimAccessed && copy.accessed {
        Spare(m, t, v);
        marked := false;
        MarksStay(trace, own, m.trace, m.own, k, v);
        assert SparedAt(m.trace, m.own, k, v);
      } else {
        Store(m, t, v);
        MarksStay(trace, own, m.trace, m.own, k, v);
        assert ChosenAt(m.trace, m.own, k, v);
      }
    } else {
      FoundChanged(m, n, looked, v);
    }
  }

  /** The thread has done nothing since this state began. */
  lemma OwnBefore(m: Machine)
    requires m.Valid()
    ensures forall k :: 0 <= k < |m.own| ==> m.own[k].at < |m.trace| - 1
  {
  }

  lemma FoundChanged(m: Machine, n: int, looked: nat, v: nat)
    requires m.Valid() && n <= looked < |m.trace| && v < |m.trace[looked].virtuals| && v < |m.s.virtuals|
    requires m.s.virtuals[v].pte != m.trace[looked].virtuals[v].pte
    requires forall k :: 0 <= k < |m.own| ==> m.own[k].at < looked
    ensures Changed(m.trace, m.own, n, v)
  {
    hide Inv, Lawful, Recorded, Justified;
    assert m.trace[|m.trace| - 1].virtuals[v].pte != m.trace[looked].virtuals[v].pte;
    assert NoneBetween(m.own, looked, |m.trace| - 1);
  }

  // ----- unmapping ---------------------------------------------------------------------

  /** The pages that go to one list, mapped or not. */
  ghost predicate Heading(s: State, pages: seq<nat>, target: Target) {
    && (forall i, j :: 0 <= i < j < |pages| ==> pages[i] != pages[j])
    && (forall k :: 0 <= k < |pages| ==> pages[k] < |s.virtuals| && Heads(s.virtuals[pages[k]].trim, target))
    && (forall v :: 0 <= v < |s.virtuals| && Heads(s.virtuals[v].trim, target) ==> v in pages)
  }

  predicate Heads(x: Trim, target: Target) {
    x == Trim.Chosen(target) || x == Trim.Unhooked(target)
  }

  /** The first n PTEs of the buffer are unmapped. */
  ghost predicate Unmapping(s: State, storage: seq<nat>, modified: seq<nat>, standby: seq<nat>, n: int) {
    && (forall k :: 0 <= k < |storage| ==> storage[k] < |s.virtuals|)
    && (forall v :: 0 <= v < |s.virtuals| ==> Collected(s.virtuals[v].trim) || s.virtuals[v].trim.Unhooked?)
    && (forall v :: 0 <= v < |s.virtuals| && !s.virtuals[v].trim.NoTrim? ==> v in storage)
    && (forall k :: 0 <= k < n && k < |storage| ==> !s.virtuals[storage[k]].trim.Chosen?)
    && Heading(s, modified, ToModified) && Heading(s, standby, ToStandby)
  }

  lemma UnmappingStarts(s: State, storage: seq<nat>, modified: seq<nat>, standby: seq<nat>)
    requires TracksBut(s, storage, modified, standby, {})
    ensures Unmapping(s, storage, modified, standby, 0)
  {
  }

  lemma OthersKeepUnmapping(s: State, s': State, me: Mine, storage: seq<nat>, modified: seq<nat>, standby: seq<nat>,
                            n: int)
    requires Unmapping(s, storage, modified, standby, n) && Kept(s, s', me) && me.trimmer
    ensures Unmapping(s', storage, modified, standby, n)
  {
  }

  lemma UnhookStep(s: State, storage: seq<nat>, modified: seq<nat>, standby: seq<nat>, n: nat)
    requires Typed(s) && n < |storage| && Unmapping(s, storage, modified, standby, n)
             && s.virtuals[storage[n]].trim.Chosen?
    ensures CanUnhook(s, storage[n]) && SameSize(s, Unhook(s, storage[n]))
    ensures Unmapping(Unhook(s, storage[n]), storage, modified, standby, n + 1)
  {
  }

  /** disconnect_va_batch_from_cpu. */
  method UnmapAll(m: Machine, t: TrimInformation)
    requires Tracks(m, t, {})
    modifies m
    ensures m.Later() && m.Valid() && m.mine.trimmer
    ensures Unmapping(m.s, t.pteStorage[..t.total], t.toModified[..t.numModified], t.toStandby[..t.numStandby], t.total)
  {
    hide Inv, Lawful, Recorded, Justified, Kept, TracksBut, Unmapping;
    ghost var storage, modified, standby := t.pteStorage[..t.total], t.toModified[..t.numModified],
        t.toStandby[..t.numStandby];
    UnmappingStarts(m.s, storage, modified, standby);
    for i := 0 to t.total
      invariant m.Valid() && m.mine.trimmer && m.Later() && Unmapping(m.s, storage, modified, standby, i)
    {
      UnmapOne(m, t.pteStorage[i], storage, modified, standby, i);
    }
  }

  method UnmapOne(m: Machine, v: nat, ghost storage: seq<nat>, ghost modified: seq<nat>, ghost standby: seq<nat>,
                  ghost n: nat)
    requires m.Valid() && m.mine.trimmer && n < |storage| && storage[n] == v
             && Unmapping(m.s, storage, modified, standby, n)
    modifies m
    ensures m.Valid() && m.mine.trimmer && m.Later() && Unmapping(m.s, storage, modified, standby, n + 1)
  {
    hide Lawful, Recorded, Justified;
    ghost var before := m.s;
    m.Others();
    OthersKeepUnmapping(before, m.s, m.mine, storage, modified, standby, n);
    if m.s.virtuals[v].trim.Chosen? {
      UnhookStep(m.s, storage, modified, standby, n);
      m.Do(Trim(DoUnhook(v)));
    }
  }

  // ----- listing -----------------------------------------------------------------------

  /** The pages still to be put on one list. */
  ghost predicate Waiting(s: State, pages: seq<nat>, target: Target) {
    && (forall i, j :: 0 <= i < j < |pages| ==> pages[i] != pages[j])
    && (forall k :: 0 <= k < |pages| ==> pages[k] < |s.virtuals| && s.virtuals[pages[k]].trim == Trim.Unhooked(target))
    && (forall v :: 0 <= v < |s.virtuals| && s.virtuals[v].trim == Trim.Unhooked(target) ==> v in pages)
  }

  ghost predicate Listing(s: State, storage: seq<nat>, modified: seq<nat>, standby: seq<nat>) {
    && (forall k :: 0 <= k < |storage| ==> storage[k] < |s.virtuals|)
    && (forall v :: 0 <= v < |s.virtuals| ==>
       s.virtuals[v].trim.NoTrim? || s.virtuals[v].trim.Listed? || s.virtuals[v].trim.Unhooked?)
    && (forall v :: 0 <= v < |s.virtuals| && !s.virtuals[v].trim.NoTrim? ==> v in storage)
    && Waiting(s, modified, ToModified) && Waiting(s, standby, ToStandby)
  }

  lemma ListingStarts(s: State, storage: seq<nat>, modified: seq<nat>, standby: seq<nat>)
    requires Unmapping(s, storage, modified, standby, |storage|)
    ensures Listing(s, storage, modified, standby)
  {
  }

  lemma OthersKeepListing(s: State, s': State, me: Mine, storage: seq<nat>, modified: seq<nat>, standby: seq<nat>)
    requires Listing(s, storage, modified, standby) && Kept(s, s', me) && me.trimmer
    ensures Listing(s', storage, modified, standby)
  {
  }

  lemma ListStep(s: State, v: nat)
    requires Sound(s) && CanList(s, v)
    ensures OnlyTrimOf(s, List(s, v), v) && List(s, v).virtuals[v].trim.Listed?
  {
    assert VirtualOk(s, v);
  }

  lemma FirstListed(s: State, s': State, pages: seq<nat>, target: Target)
    requires Waiting(s, pages, target) && pages != [] && OnlyTrimOf(s, s', pages[0])
             && s'.virtuals[pages[0]].trim.Listed?
    ensures Waiting(s', pages[1..], target)
  {
    assert pages == [pages[0]] + pages[1..];
    forall v | 0 <= v < |s.virtuals| && s'.virtuals[v].trim == Trim.Unhooked(target) ensures v in pages[1..] {
      assert v in pages && v != pages[0];
    }
  }

  lemma OneListed(s: State, s': State, v: nat, storage: seq<nat>, modified: seq<nat>, standby: seq<nat>, target: Target)
    requires Listing(s, storage, modified, standby)
    requires if target.ToModified? then modified != [] && v == modified[0] else standby != [] && v == standby[0]
    requires OnlyTrimOf(s, s', v) && s'.virtuals[v].trim.Listed?
    ensures if target.ToModified? then Listing(s', storage, modified[1..], standby)
            else Listing(s', storage, modified, standby[1..])
  {
    if target.ToModified? {
      FirstListed(s, s', modified, target);
    } else {
      FirstListed(s, s', standby, target);
    }
  }

  method ListOne(m: Machine, v: nat, ghost storage: seq<nat>, ghost modified: seq<nat>, ghost standby: seq<nat>,
                 ghost target: Target)
    requires m.Valid() && m.mine.trimmer && Listing(m.s, storage, modified, standby)
    requires if target.ToModified? then modified != [] && v == modified[0] else standby != [] && v == standby[0]
    modifies m
    ensures m.Valid() && m.mine.trimmer && m.Later()
    ensures if target.ToModified? then Listing(m.s, storage, modified[1..], standby)
            else Listing(m.s, storage, modified, standby[1..])
  {
    hide Inv, Sound, Lawful, Recorded, Justified;
    ghost var before := m.s;
    m.Others();
    m.ValidIsSound();
    OthersKeepListing(before, m.s, m.mine, storage, modified, standby);
    ListStep(m.s, v);
    OneListed(m.s, List(m.s, v), v, storage, modified, standby, target);
    m.Do(Trim(DoList(v)));
  }

  /** First the modified list gets its pages, then the standby list. */
  method ListAll(m: Machine, t: TrimInformation)
    requires m.Valid() && m.mine.trimmer && t.Valid()
    requires Unmapping(m.s, t.pteStorage[..t.total], t.toModified[..t.numModified], t.toStandby[..t.numStandby],
             t.total)
    modifies m
    ensures m.Valid() && m.mine.trimmer && m.Later() && Listing(m.s, t.pteStorage[..t.total], [], [])
  {
    hide Inv, Lawful, Recorded, Justified, Kept;
    ghost var storage, modified, standby := t.pteStorage[..t.total], t.toModified[..t.numModified],
        t.toStandby[..t.numStandby];
    ListingStarts(m.s, storage, modified, standby);
    for i := 0 to t.numModified
      invariant m.Valid() && m.mine.trimmer && m.Later() && Listing(m.s, storage, modified[i..], standby)
    {
      ListOne(m, t.toModified[i], storage, modified[i..], standby, ToModified);
      assert modified[i..][1..] == modified[i + 1..];
    }
    for i := 0 to t.numStandby
      invariant m.Valid() && m.mine.trimmer && m.Later() && Listing(m.s, storage, [], standby[i..])
    {
      ListOne(m, t.toStandby[i], storage, [], standby[i..], ToStandby);
      assert standby[i..][1..] == standby[i + 1..];
    }
  }

  // ----- finishing the PTEs -----------------------------------------------------------------

  /** The PTEs the trimmer is not done with are among the given ones. */
  ghost predicate Unfinished(s: State, rest: seq<nat>) {
    && (forall k :: 0 <= k < |rest| ==> rest[k] < |s.virtuals|)
    && (forall v :: 0 <= v < |s.virtuals| ==> s.virtuals[v].trim.NoTrim? || (s.virtuals[v].trim.Listed? && v in rest))
  }

  /** One of them is in the compare-exchange loop. */
  ghost predicate Swapping(s: State, rest: seq<nat>, v: nat) {
    && v < |s.virtuals| && (forall k :: 0 <= k < |rest| ==> rest[k] < |s.virtuals|)
    && (s.virtuals[v].trim.NoTrim? || s.virtuals[v].trim.Copied?)
    && (forall u :: 0 <= u < |s.virtuals| && u != v ==>
       s.virtuals[u].trim.NoTrim? || (s.virtuals[u].trim.Listed? && u in rest))
  }

  lemma OthersKeepSwapping(s: State, s': State, me: Mine, rest: seq<nat>, v: nat)
    requires Kept(s, s', me) && me.trimmer
    ensures Swapping(s, rest, v) ==> Swapping(s', rest, v)
    ensures Unfinished(s, rest) ==> Unfinished(s', rest)
  {
  }

  lemma SwapStep(s: State, v: nat)
    requires Sound(s) && CanSwap(s, v)
    ensures OnlyTrimOf(s, Swap(s, v), v)
    ensures Swap(s, v).virtuals[v].trim.NoTrim? || Swap(s, v).virtuals[v].trim.Copied?
  {
  }

  lemma CopyStep(s: State, rest: seq<nat>)
    requires Sound(s) && rest != [] && Unfinished(s, rest) && CanCopy(s, rest[0])
    ensures SameSize(s, Copy(s, rest[0])) && Swapping(Copy(s, rest[0]), rest[1..], rest[0])
  {
    assert rest == [rest[0]] + rest[1..];
  }

  /** A PTE that is no longer the trimmer's business is left alone: it does not
      pass the trimmer's tests. */
  lemma DoneIsNotMarked(s: State, v: nat)
    requires Sound(s) && v < |s.virtuals| && s.virtuals[v].trim.NoTrim?
    ensures !StillMarked(s.virtuals[v].pte)
  {
    assert VirtualOk(s, v);
  }

  /** The compare-exchange loop for one PTE; `patience` bounds its failures. */
  method SwapLoop(m: Machine, v: nat, ghost rest: seq<nat>, patience: nat) returns (done: bool)
    requires m.Valid() && m.mine.trimmer && Swapping(m.s, rest, v)
    modifies m
    ensures m.Valid() && m.mine.trimmer && m.Later() && Swapping(m.s, rest, v)
    ensures if done then m.s.virtuals[v].trim.NoTrim?
            else Stuck(m.waits, |old(m.waits)|, patience, RewrittenPtes({v}))
  {
    hide Inv, Lawful, Recorded, Justified, Kept;
    var left := patience;
    while left > 0 && m.s.virtuals[v].trim.Copied?
      invariant m.Valid() && m.mine.trimmer && m.Later() && Swapping(m.s, rest, v)
      invariant 0 <= left <= patience && |m.waits| == |old(m.waits)| + (patience - left)
      invariant OnlyFrom(m.waits, |old(m.waits)|, RewrittenPtes({v}))
      decreases left, m.s.virtuals[v].trim.Copied?
    {
      ghost var waits := m.waits;
      var failed := TrySwap(m, v, rest);
      OnlyFromBoth(waits, m.waits, |old(m.waits)|, RewrittenPtes({v}));
      if failed { left := left - 1; }
    }
    if left == 0 { StuckSince(m.waits, |old(m.waits)|, patience, RewrittenPtes({v})); }
    done := m.s.virtuals[v].trim.NoTrim?;
  }

  /** One turn of it. */
  method TrySwap(m: Machine, v: nat, ghost rest: seq<nat>) returns (failed: bool)
    requires m.Valid() && m.mine.trimmer && Swapping(m.s, rest, v) && m.s.virtuals[v].trim.Copied?
    modifies m
    ensures m.Valid() && m.mine.trimmer && m.Later() && Swapping(m.s, rest, v)
    ensures |m.waits| == |old(m.waits)| + if failed then 1 else 0
    ensures OnlyFrom(m.waits, |old(m.waits)|, RewrittenPtes({v}))
    ensures !failed ==> m.s.virtuals[v].trim.NoTrim?
  {
    hide Inv, Sound, Lawful, Recorded, Justified;
    ghost var before := m.s;
    m.Others();
    m.ValidIsSound();
    OthersKeepSwapping(before, m.s, m.mine, rest, v);
    failed := m.s.virtuals[v].pte != m.s.virtuals[v].trim.copy;
    if failed { m.Note(PteRewritten(v)); }
    SwapStep(m.s, v);
    m.Do(Trim(DoSwap(v)));
  }

  method FinishPte(m: Machine, v: nat, ghost rest: seq<nat>, patience: nat) returns (done: bool)
    requires m.Valid() && m.mine.trimmer && rest != [] && rest[0] == v && Unfinished(m.s, rest)
    modifies m
    ensures m.Valid() && m.mine.trimmer && m.Later()
    ensures if done then Unfinished(m.s, rest[1..])
            else Stuck(m.waits, |old(m.waits)|, patience, RewrittenPtes({v}))
  {
    hide Lawful, Recorded, Justified;
    ghost var before := m.s;
    m.Others();
    OthersKeepSwapping(before, m.s, m.mine, rest, v);
    if m.s.virtuals[v].trim.NoTrim? {
      DoneIsNotMarked(m.s, v);
      assert rest == [rest[0]] + rest[1..];
      return true;
    }
    CopyStep(m.s, rest);
    m.Do(Trim(DoCopy(v)));
    done := SwapLoop(m, v, rest[1..], patience);
  }

  lemma UnhookedCases(x: Trim)
    ensures x.Unhooked? ==> x == Trim.Unhooked(ToModified) || x == Trim.Unhooked(ToStandby)
  {
    match x
    case Unhooked(target) =>
      match target {
        case ToModified =>
        case ToStandby =>
      }
    case _ =>
  }

  lemma AllListed(s: State, storage: seq<nat>)
    requires Listing(s, storage, [], [])
    ensures Unfinished(s, storage)
  {
    forall v | 0 <= v < |s.virtuals| ensures !s.virtuals[v].trim.Unhooked? {
      UnhookedCases(s.virtuals[v].trim);
    }
  }

  method FinishAll(m: Machine, t: TrimInformation, patience: nat) returns (done: bool)
    requires m.Valid() && m.mine.trimmer && t.Valid() && Unfinished(m.s, t.pteStorage[..t.total])
    modifies m
    ensures m.Valid() && m.mine.trimmer && m.Later()
    ensures if done then Unfinished(m.s, [])
            else Stuck(m.waits, |old(m.waits)|, patience, RewrittenPtes(Elements(t.pteStorage[..t.total])))
  {
    hide Inv, Lawful, Recorded, Justified, Kept;
    ghost var storage := t.pteStorage[..t.total];
    assert storage[0..] == storage;
    for i := 0 to t.total
      invariant m.Valid() && m.mine.trimmer && m.Later() && Unfinished(m.s, storage[i..])
    {
      ghost var waited := |m.waits|;
      done := FinishPte(m, t.pteStorage[i], storage[i..], patience);
      if !done {
        assert storage[i] in storage;
        StuckWider(m.waits, waited, |old(m.waits)|, patience, RewrittenPtes({storage[i]}),
                   RewrittenPtes(Elements(storage)));
        return;
      }
      assert storage[i..][1..] == storage[i + 1..];
    }
    done := true;
  }

  /** The unmapping and handle_trim_pagelists_and_pte_edits: lists the pages of
      the buffers and finishes their PTEs.  When it gets to the end the trimmer
      is done with every PTE and the buffers are empty; it stops short only
      after `patience` failed attempts. */
  method Flush(m: Machine, t: TrimInformation, patience: nat) returns (done: bool)
    requires Tracks(m, t, {})
    modifies m, t
    ensures m.Later()
    ensures if done then Tracks(m, t, {}) && t.total == 0
            else Stuck(m.waits, |old(m.waits)|, patience, RewrittenPtes(Elements(old(t.pteStorage[..t.total]))))
  {
    hide Inv, Lawful, Recorded, Justified, Kept, Unmapping, Listing, Stuck;
    UnmapAll(m, t);
    ListAll(m, t);
    AllListed(m.s, t.pteStorage[..t.total]);
    ghost var waited := |m.waits|;
    done := FinishAll(m, t, patience);
    if done {
      t.total, t.numModified, t.numStandby := 0, 0, 0;
    } else {
      StuckWider(m.waits, waited, |old(m.waits)|, patience, RewrittenPtes(Elements(t.pteStorage[..t.total])),
                 RewrittenPtes(Elements(t.pteStorage[..t.total])));
    }
  }

  /** Flush, for a caller to whom any PTE is as good as another; w is when the
      caller began. */
  method FlushBuffers(m: Machine, t: TrimInformation, patience: nat, ghost w: nat) returns (done: bool)
    requires Tracks(m, t, {}) && w <= |m.waits|
    modifies m, t
    ensures m.Later()
    ensures if done then Tracks(m, t, {}) && t.total == 0
            else Stuck(m.waits, w, patience, RewrittenPtes(Below(|m.s.virtuals|)))
  {
    hide Inv, Lawful, Recorded, Justified, Kept, Tracks, Stuck;
    BufferedExist(m, t);
    ghost var waited, buffered := |m.waits|, Elements(t.pteStorage[..t.total]);
    done := Flush(m, t, patience);
    if !done {
      StuckWider(m.waits, waited, w, patience, RewrittenPtes(buffered), RewrittenPtes(Below(|m.s.virtuals|)));
    }
  }

  lemma StillRewritten(waits: seq<Wait>, w: nat, w': nat, patience: nat, ptes: nat)
    requires Stuck(waits, w, patience, RewrittenPtes(Below(ptes))) && w' <= w
    ensures Stuck(waits, w', patience, RewrittenPtes(Below(ptes)))
  {
    StuckWider(waits, w, w', patience, RewrittenPtes(Below(ptes)), RewrittenPtes(Below(ptes)));
  }

  lemma BufferedExist(m: Machine, t: TrimInformation)
    requires Tracks(m, t, {})
    ensures t.total <= t.pteStorage.Length && Elements(t.pteStorage[..t.total]) <= Below(|m.s.virtuals|)
  {
  }

  // ----- passes ---------------------------------------------------------------------------------

  /** How far a pass over the PTEs of a section got: it looked at those before
      `end` and chose those in `marked` to go. */
  datatype Stop = Stop(end: nat, marked: set<nat>)

  /** The pass looked at every PTE of the section, or the section's counter of
      valid PTEs said that there are no more, or it marked as many as it may.
      The counter is shared with faulting threads; `counter(v)` is what it says
      when the trimmer comes to PTE v. */
  ghost predicate Passed(trace: seq<State>, own: seq<Step>, n: int, o: nat, trimAccessed: bool, from: nat, to: nat,
                         counter: nat -> nat,
                         stop: Stop) {
    && from <= stop.end <= to && AllExamined(trace, own, n, o, trimAccessed, from, stop.end)
    && (forall v :: v in stop.marked ==> from <= v < stop.end && WasChosen(trace, own, o, trimAccessed, v))
    && (stop.end == to || counter(stop.end) == |stop.marked| || |stop.marked| == TRIM_PER_SECTION)
  }

  lemma PassedStays(trace: seq<State>, own: seq<Step>, longer: seq<State>, more: seq<Step>, n: int, o: nat,
                    trimAccessed: bool,
                    from: nat, to: nat, counter: nat -> nat, stop: Stop)
    requires Grows(trace, own, longer, more) && Passed(trace, own, n, o, trimAccessed, from, to, counter, stop)
    ensures Passed(longer, more, n, o, trimAccessed, from, to, counter, stop)
  {
    AllExaminedStays(trace, own, longer, more, n, o, trimAccessed, from, stop.end);
    AllChosenStay(trace, own, longer, more, o, trimAccessed, stop.marked);
  }

  lemma AllChosenStay(trace: seq<State>, own: seq<Step>, longer: seq<State>, more: seq<Step>, o: nat,
                      trimAccessed: bool, marked: set<nat>)
    requires Extends(trace, longer) && Extends(own, more)
    requires forall v :: v in marked ==> WasChosen(trace, own, o, trimAccessed, v)
    ensures forall v :: v in marked ==> WasChosen(longer, more, o, trimAccessed, v)
  {
    hide WasChosen;
    forall v | v in marked ensures WasChosen(longer, more, o, trimAccessed, v) {
      ChosenStays(trace, own, longer, more, o, trimAccessed, v);
    }
  }

  /** How such a pass stands after the PTEs before v. */
  ghost predicate Passing(trace: seq<State>, own: seq<Step>, n: int, o: nat, trimAccessed: bool, from: nat, v: int,
                          marked: set<nat>,
                          count: nat) {
    && from <= v && n < |trace| && o <= |own| && AllExamined(trace, own, n, o, trimAccessed, from, v)
    && (forall u :: u in marked ==> from <= u < v && WasChosen(trace, own, o, trimAccessed, u)) && |marked| == count
  }

  lemma PassingOn(trace: seq<State>, own: seq<Step>, longer: seq<State>, more: seq<Step>, n: int, o: nat,
                  trimAccessed: bool,
                  from: nat, v: nat, marked: set<nat>, count: nat, ok: bool)
    requires Grows(trace, own, longer, more) && Passing(trace, own, n, o, trimAccessed, from, v, marked, count)
    requires Examined(longer, more, n, o, trimAccessed, v) && (ok ==> WasChosen(longer, more, o, trimAccessed, v))
    ensures Passing(longer, more, n, o, trimAccessed, from, v + 1,
                    if ok then marked + {v} else marked, if ok then count + 1 else count)
  {
    hide WasChosen, Examined;
    AllExaminedStays(trace, own, longer, more, n, o, trimAccessed, from, v);
    AllChosenStay(trace, own, longer, more, o, trimAccessed, marked);
  }

  /** get_ptes_from_pte_section. */
  method MarkSection(m: Machine, t: TrimInformation, from: nat, to: nat, trimAccessed: bool, counter: nat -> nat,
                     ghost n: int, ghost o: nat)
    returns (ghost stop: Stop)
    requires Tracks(m, t, {}) && from <= to <= |m.s.virtuals| && n < |m.trace| && o <= |m.own|
    requires t.total + TRIM_PER_SECTION <= TRIM_STORAGE_TARGET <= t.pteStorage.Length
    modifies m, t, t.pteStorage, t.toModified, t.toStandby
    ensures m.Later() && Tracks(m, t, {}) && t.total <= old(t.total) + TRIM_PER_SECTION
    ensures Passed(m.trace, m.own, n, o, trimAccessed, from, to, counter, stop)
  {
    hide Inv, Lawful, Recorded, Justified, Kept, Tracks;
    var count := 0;
    ghost var marked: set<nat> := {};
    var v := from;
    while v < to && counter(v) != count && count < TRIM_PER_SECTION && t.total < TRIM_STORAGE_TARGET
      invariant m.Later() && Tracks(m, t, {}) && Passing(m.trace, m.own, n, o, trimAccessed, from, v, marked, count)
                && v <= to
      invariant count <= TRIM_PER_SECTION && t.total == old(t.total) + count
    {
      ghost var more;
      count, more := ExamineNext(m, t, from, v, count, trimAccessed, n, o, marked);
      marked := more;
      v := v + 1;
    }
    stop := Stop(v, marked);
  }

  method ExamineNext(m: Machine, t: TrimInformation, ghost from: nat, v: nat, count: nat, trimAccessed: bool,
                     ghost n: int, ghost o: nat, ghost marked: set<nat>)
    returns (count': nat, ghost marked': set<nat>)
    requires Tracks(m, t, {}) && v < |m.s.virtuals| && t.total < t.pteStorage.Length && n < |m.trace| && o <= |m.own|
    requires Passing(m.trace, m.own, n, o, trimAccessed, from, v, marked, count)
    modifies m, t, t.pteStorage, t.toModified, t.toStandby
    ensures m.Later() && Tracks(m, t, {}) && Passing(m.trace, m.own, n, o, trimAccessed, from, v + 1, marked', count')
    ensures count <= count' <= count + 1 && t.total == old(t.total) + (count' - count)
  {
    hide Inv, Lawful, Recorded, Justified, Kept, Tracks, Passing, Examined;
    ghost var trace, own := m.trace, m.own;
    var ok := ExaminePte(m, t, v, trimAccessed, n, o);
    count', marked' := if ok then count + 1 else count, if ok then marked + {v} else marked;
    PassingOn(trace, own, m.trace, m.own, n, o, trimAccessed, from, v, marked, count, ok);
  }

  /** Reads a PTE, and marks it if it can be marked. */
  method ExaminePte(m: Machine, t: TrimInformation, v: nat, trimAccessed: bool, ghost n: int, ghost o: nat)
    returns (ok: bool)
    requires Tracks(m, t, {}) && v < |m.s.virtuals| && t.total < t.pteStorage.Length && n < |m.trace| && o <= |m.own|
    modifies m, t, t.pteStorage, t.toModified, t.toStandby
    ensures m.Later() && Tracks(m, t, {}) && t.total == old(t.total) + if ok then 1 else 0
    ensures Examined(m.trace, m.own, n, o, trimAccessed, v)
    ensures ok ==> WasChosen(m.trace, m.own, o, trimAccessed, v) && |m.own| > |old(m.own)|
  {
    hide Inv, Lawful, Recorded, Justified, Kept, WasChosen, WasSpared, Changed, WasUntrimmable;
    var copy := m.s.virtuals[v].pte;
    ok := false;
    if Untrimmable(copy) {
      UntrimmableNow(m, n, v);
    } else {
      ok := TrimSingle(m, t, v, copy, trimAccessed, n, o);
    }
  }

  /** trim_accessed_ptes after the first sections: what the last of them that had
      any valid PTEs set it to. */
  ghost function FlagAfter(was: bool, sections: nat, per: nat, counter: nat -> nat, scarce: nat -> bool): bool {
    if sections == 0 then was
    else if counter((sections - 1) * per) != 0 then scarce(sections - 1)
    else FlagAfter(was, sections - 1, per, counter, scarce)
  }

  /** handle_trim_all_pte_sections.  Flushing at half the target leaves room for
      every section: the buffers never run over.  Whether pages are so scarce
      that accessed PTEs are trimmed as well, `scarce` says for each section;
      `before` is what was last said of that, and `after` is so then. */
  method TrimSections(m: Machine, t: TrimInformation, sections: nat, per: nat, counter: nat -> nat,
                      scarce: nat -> bool, before: bool, patience: nat, ghost n: int, ghost o: nat)
    returns (done: bool, after: bool, ghost stops: seq<Stop>)
    requires Tracks(m, t, {}) && t.total == 0 && sections * per <= |m.s.virtuals| && n < |m.trace| && o <= |m.own|
    requires t.pteStorage.Length >= TRIM_STORAGE_TARGET
    modifies m, t, t.pteStorage, t.toModified, t.toStandby
    ensures m.Later()
    ensures if done then Tracks(m, t, {}) && t.total == 0
            else Stuck(m.waits, |old(m.waits)|, patience, RewrittenPtes(Below(|m.s.virtuals|)))
    ensures done ==> |stops| == sections && AllPassed(m.trace, m.own, n, o, scarce, per, counter, stops)
    ensures done ==> after == FlagAfter(before, sections, per, counter, scarce)
  {
    hide Inv, Lawful, Recorded, Justified, Kept, Tracks, Passed, Stuck;
    stops, after := [], before;
    for section := 0 to sections
      invariant m.Later() && Tracks(m, t, {}) && t.total < TRIM_STORAGE_TARGET / 2
      invariant after == FlagAfter(before, section, per, counter, scarce)
      invariant |stops| == section && AllPassed(m.trace, m.own, n, o, scarce, per, counter, stops)
    {
      assert section * per <= (section + 1) * per <= sections * per;
      ghost var more, waited := [], |m.waits|;
      done, more := TrimSection(m, t, section, per, counter, scarce, patience, n, o, stops);
      stops := more;
      if counter(section * per) != 0 { after := scarce(section); }
      if !done {
        StillRewritten(m.waits, waited, |old(m.waits)|, patience, |m.s.virtuals|);
        return;
      }
    }
    done := true;
    if t.total > 0 {
      ghost var trace, own := m.trace, m.own;
      done := FlushBuffers(m, t, patience, |old(m.waits)|);
      AllPassedStays(trace, own, m.trace, m.own, n, o, scarce, per, counter, stops);
    }
  }

  /** The first sections have been passed. */
  ghost predicate AllPassed(trace: seq<State>, own: seq<Step>, n: int, o: nat, scarce: nat -> bool, per: nat,
                            counter: nat -> nat,
                            stops: seq<Stop>) {
    forall k :: 0 <= k < |stops| ==> Passed(trace, own, n, o, scarce(k), k * per, k * per + per, counter, stops[k])
  }

  lemma AllPassedStays(trace: seq<State>, own: seq<Step>, longer: seq<State>, more: seq<Step>, n: int, o: nat,
                       scarce: nat -> bool,
                       per: nat, counter: nat -> nat, stops: seq<Stop>)
    requires Grows(trace, own, longer, more) && AllPassed(trace, own, n, o, scarce, per, counter, stops)
    ensures AllPassed(longer, more, n, o, scarce, per, counter, stops)
  {
    forall k | 0 <= k < |stops| ensures Passed(longer, more, n, o, scarce(k), k * per, k * per + per, counter,
        stops[k]) {
      PassedStays(trace, own, longer, more, n, o, scarce(k), k * per, k * per + per, counter, stops[k]);
    }
  }

  /** One section, and the flush if the buffers are half full. */
  method TrimSection(m: Machine, t: TrimInformation, section: nat, per: nat, counter: nat -> nat, scarce: nat -> bool,
                     patience: nat, ghost n: int, ghost o: nat, ghost stops: seq<Stop>)
    returns (done: bool, ghost more: seq<Stop>)
    requires Tracks(m, t, {}) && t.total < TRIM_STORAGE_TARGET / 2 && t.pteStorage.Length >= TRIM_STORAGE_TARGET
    requires section * per + per <= |m.s.virtuals| && n < |m.trace| && o <= |m.own|
    requires |stops| == section && AllPassed(m.trace, m.own, n, o, scarce, per, counter, stops)
    modifies m, t, t.pteStorage, t.toModified, t.toStandby
    ensures m.Later()
    ensures if done then Tracks(m, t, {}) && t.total < TRIM_STORAGE_TARGET / 2
            else Stuck(m.waits, |old(m.waits)|, patience, RewrittenPtes(Below(|m.s.virtuals|)))
    ensures |more| == section + 1 && AllPassed(m.trace, m.own, n, o, scarce, per, counter, more)
  {
    hide Inv, Lawful, Recorded, Justified, Kept, Tracks, Passed;
    ghost var trace, own := m.trace, m.own;
    ghost var stop := MarkSection(m, t, section * per, section * per + per, scarce(section), counter, n, o);
    AllPassedStays(trace, own, m.trace, m.own, n, o, scarce, per, counter, stops);
    more := stops + [stop];
    done := true;
    if t.total >= TRIM_STORAGE_TARGET / 2 {
      trace, own := m.trace, m.own;
      done := FlushBuffers(m, t, patience, |old(m.waits)|);
      AllPassedStays(trace, own, m.trace, m.own, n, o, scarce, per, counter, more);
    }
  }

  // ----- trimming behind the faulting threads ---------------------------------------------------

  /** One thread's buffer. */
  ghost function Row(buffers: array2<Option<nat>>, thread: nat): (r: seq<Option<nat>>)
    requires thread < buffers.Length0
    reads buffers
    ensures |r| == buffers.Length1 && forall i :: 0 <= i < |r| ==> r[i] == buffers[thread, i]
  {
    seq(buffers.Length1, i requires 0 <= i < buffers.Length1 reads buffers => buffers[thread, i])
  }

  /** The first entries of a buffer, `row` before and `now` after: each has been
      dealt with and taken out, or is still there because the trimmer has as many
      PTEs as it wants. */
  ghost predicate RowExamined(trace: seq<State>, own: seq<Step>, n: int, o: nat, trimAccessed: bool,
                              row: seq<Option<nat>>, now: seq<Option<nat>>, upTo: int, ptes: nat, stored: nat) {
    |now| == |row| && forall i :: 0 <= i < upTo && i < |row| ==>
      if now[i] == None then row[i].Some? && row[i].value < ptes ==>
                               Examined(trace, own, n, o, trimAccessed, row[i].value)
      else now[i] == row[i] && stored >= TRIM_STORAGE_TARGET
  }

  lemma RowExaminedStays(trace: seq<State>, own: seq<Step>, longer: seq<State>, more: seq<Step>, n: int, o: nat,
                         trimAccessed: bool, row: seq<Option<nat>>, now: seq<Option<nat>>, upTo: int, ptes: nat,
                         stored: nat, stored': nat)
    requires Grows(trace, own, longer, more) && stored <= stored'
    requires RowExamined(trace, own, n, o, trimAccessed, row, now, upTo, ptes, stored)
    ensures RowExamined(longer, more, n, o, trimAccessed, row, now, upTo, ptes, stored')
  {
    hide Examined;
    forall i | 0 <= i < upTo && i < |row| && now[i] == None && row[i].Some? && row[i].value < ptes
      ensures Examined(longer, more, n, o, trimAccessed, row[i].value)
    {
      ExaminedStays(trace, own, longer, more, n, o, trimAccessed, row[i].value);
    }
  }

  /** The PTEs stored since then were marked by as many steps at least. */
  twostate predicate Earned(m: Machine, t: TrimInformation)
    reads m, t
  {
    old(t.total) <= t.total && t.total - old(t.total) <= |m.own| - |old(m.own)|
  }

  method ExamineEntry(m: Machine, t: TrimInformation, entry: Option<nat>, trimAccessed: bool, ghost n: int,
                      ghost o: nat)
    requires Tracks(m, t, {}) && t.total < t.pteStorage.Length && n < |m.trace| && o <= |m.own|
    modifies m, t, t.pteStorage, t.toModified, t.toStandby
    ensures m.Later() && Tracks(m, t, {}) && t.total <= old(t.total) + 1 && Earned(m, t)
    ensures entry.Some? && entry.value < |m.s.virtuals| ==> Examined(m.trace, m.own, n, o, trimAccessed, entry.value)
  {
    hide Inv, Lawful, Recorded, Justified, Kept, Tracks, Examined;
    if entry.Some? && entry.value < |m.s.virtuals| {
      var ok := ExaminePte(m, t, entry.value, trimAccessed, n, o);
    }
  }

  method MarkThreadBuffer(m: Machine, t: TrimInformation, buffers: array2<Option<nat>>, thread: nat, trimAccessed: bool,
                          ghost n: int, ghost o: nat)
    requires Tracks(m, t, {}) && thread < buffers.Length0 && buffers.Length1 == THREAD_TRIM_STORAGE_SIZE
    requires t.total + THREAD_TRIM_STORAGE_SIZE <= t.pteStorage.Length && n < |m.trace| && o <= |m.own|
    modifies m, t, t.pteStorage, t.toModified, t.toStandby, buffers
    ensures m.Later() && Tracks(m, t, {}) && t.total <= old(t.total) + THREAD_TRIM_STORAGE_SIZE && Earned(m, t)
    ensures RowExamined(m.trace, m.own, n, o, trimAccessed, old(Row(buffers, thread)), Row(buffers, thread),
                        THREAD_TRIM_STORAGE_SIZE, |m.s.virtuals|, t.total)
    ensures forall k: nat, i: nat :: k < buffers.Length0 && i < buffers.Length1 && k != thread ==>
              buffers[k, i] == old(buffers[k, i])
  {
    hide Inv, Lawful, Recorded, Justified, Kept, Tracks, Examined, RowExamined;
    ghost var row := Row(buffers, thread);
    var i, full := 0, false;
    NoneExamined(m.trace, m.own, n, o, trimAccessed, row, |m.s.virtuals|, t.total);
    while i < THREAD_TRIM_STORAGE_SIZE && !full
      invariant 0 <= i <= THREAD_TRIM_STORAGE_SIZE && m.Later() && Tracks(m, t, {}) && t.total <= old(t.total) + i
                && Earned(m, t)
      invariant forall j :: i <= j < THREAD_TRIM_STORAGE_SIZE ==> buffers[thread, j] == row[j]
      invariant forall k: nat, j: nat :: k < buffers.Length0 && j < buffers.Length1 && k != thread ==>
                  buffers[k, j] == old(buffers[k, j])
      invariant RowExamined(m.trace, m.own, n, o, trimAccessed, row, Row(buffers, thread), i, |m.s.virtuals|, t.total)
      invariant full ==> t.total >= TRIM_STORAGE_TARGET
    {
      ghost var now := Row(buffers, thread);
      full := ExamineSlot(m, t, buffers[thread, i], trimAccessed, n, o, row, now, i);
      buffers[thread, i] := None;
      assert Row(buffers, thread) == now[i := None];
      i := i + 1;
    }
    RestIsThere(m.trace, m.own, n, o, trimAccessed, row, Row(buffers, thread), i, |m.s.virtuals|, t.total);
  }

  lemma NoneExamined(trace: seq<State>, own: seq<Step>, n: int, o: nat, trimAccessed: bool, row: seq<Option<nat>>,
                     ptes: nat, stored: nat)
    ensures RowExamined(trace, own, n, o, trimAccessed, row, row, 0, ptes, stored)
  {
  }

  lemma RestIsThere(trace: seq<State>, own: seq<Step>, n: int, o: nat, trimAccessed: bool, row: seq<Option<nat>>,
                    now: seq<Option<nat>>, i: nat, ptes: nat, stored: nat)
    requires RowExamined(trace, own, n, o, trimAccessed, row, now, i, ptes, stored)
    requires forall j :: i <= j < |row| ==> now[j] == row[j]
    requires i >= |row| || stored >= TRIM_STORAGE_TARGET
    ensures RowExamined(trace, own, n, o, trimAccessed, row, now, |row|, ptes, stored)
  {
  }

  /** One entry.  Only after an attempt to mark a PTE the trimmer looks whether
      it has as many as it wants. */
  method ExamineSlot(m: Machine, t: TrimInformation, entry: Option<nat>, trimAccessed: bool, ghost n: int, ghost o: nat,
                     ghost row: seq<Option<nat>>, ghost now: seq<Option<nat>>, ghost i: nat)
    returns (full: bool)
    requires Tracks(m, t, {}) && t.total < t.pteStorage.Length && n < |m.trace| && o <= |m.own| && i < |row|
             && row[i] == entry
    requires RowExamined(m.trace, m.own, n, o, trimAccessed, row, now, i, |m.s.virtuals|, t.total)
    modifies m, t, t.pteStorage, t.toModified, t.toStandby
    ensures m.Later() && Tracks(m, t, {}) && t.total <= old(t.total) + 1 && Earned(m, t) && |now| == |row|
    ensures RowExamined(m.trace, m.own, n, o, trimAccessed, row, now[i := None], i + 1, |m.s.virtuals|, t.total)
    ensures full ==> t.total >= TRIM_STORAGE_TARGET
  {
    hide Inv, Lawful, Recorded, Justified, Kept, Tracks, Examined;
    ghost var trace, own, stored := m.trace, m.own, t.total;
    var candidate := entry.Some? && entry.value < |m.s.virtuals| && !Untrimmable(m.s.virtuals[entry.value].pte);
    ExamineEntry(m, t, entry, trimAccessed, n, o);
    full := candidate && t.total == TRIM_STORAGE_TARGET;
    RowExaminedStays(trace, own, m.trace, m.own, n, o, trimAccessed, row, now, i, |m.s.virtuals|, stored, t.total);
  }

  /** The buffers of all threads that have enough entries, by what `counts` says
      of them, before and after; the others are as they were. */
  ghost predicate BuffersExamined(trace: seq<State>, own: seq<Step>, n: int, o: nat, trimAccessed: bool,
                                  rows: seq<seq<Option<nat>>>, now: seq<seq<Option<nat>>>, upTo: int,
                                  counts: nat -> nat, ptes: nat, stored: nat) {
    |now| == |rows| && forall k: nat :: k < upTo && k < |rows| ==>
      if counts(k) >= THREAD_TRIM_STORAGE_SIZE / 4
      then RowExamined(trace, own, n, o, trimAccessed, rows[k], now[k], |rows[k]|, ptes, stored)
      else now[k] == rows[k]
  }

  lemma BuffersExaminedStays(trace: seq<State>, own: seq<Step>, longer: seq<State>, more: seq<Step>, n: int, o: nat,
                             trimAccessed: bool, rows: seq<seq<Option<nat>>>, now: seq<seq<Option<nat>>>,
                             now': seq<seq<Option<nat>>>, upTo: int, counts: nat -> nat, ptes: nat, stored: nat,
                             stored': nat)
    requires Grows(trace, own, longer, more) && stored <= stored'
    requires BuffersExamined(trace, own, n, o, trimAccessed, rows, now, upTo, counts, ptes, stored)
    requires |now'| == |now| && forall k :: 0 <= k < upTo && k < |now| ==> now'[k] == now[k]
    ensures BuffersExamined(longer, more, n, o, trimAccessed, rows, now', upTo, counts, ptes, stored')
  {
    hide RowExamined;
    forall k: nat | k < upTo && k < |rows| && counts(k) >= THREAD_TRIM_STORAGE_SIZE / 4
      ensures RowExamined(longer, more, n, o, trimAccessed, rows[k], now'[k], |rows[k]|, ptes, stored')
    {
      RowExaminedStays(trace, own, longer, more, n, o, trimAccessed, rows[k], now[k], |rows[k]|, ptes, stored,
                       stored');
    }
  }

  ghost function Rows(buffers: array2<Option<nat>>): (r: seq<seq<Option<nat>>>)
    reads buffers
    ensures |r| == buffers.Length0 && forall k :: 0 <= k < |r| ==> r[k] == Row(buffers, k)
  {
    seq(buffers.Length0, k requires 0 <= k < buffers.Length0 reads buffers => Row(buffers, k))
  }

  /** get_ptes_from_trim_behind.  What is in the threads' buffers is for them to
      say: any PTEs, the same one in several, or nothing. */
  method MarkBehind(m: Machine, t: TrimInformation, buffers: array2<Option<nat>>, trimAccessed: bool,
                    counts: nat -> nat, ghost n: int, ghost o: nat)
    requires Tracks(m, t, {}) && t.total == 0 && n < |m.trace| && o <= |m.own|
    requires buffers.Length1 == THREAD_TRIM_STORAGE_SIZE
    requires t.pteStorage.Length >= THREAD_TRIM_STORAGE_SIZE * buffers.Length0
    modifies m, t, t.pteStorage, t.toModified, t.toStandby, buffers
    ensures m.Later() && Tracks(m, t, {}) && t.total <= THREAD_TRIM_STORAGE_SIZE * buffers.Length0 && Earned(m, t)
    ensures BuffersExamined(m.trace, m.own, n, o, trimAccessed, old(Rows(buffers)), Rows(buffers), buffers.Length0,
                            counts, |m.s.virtuals|, t.total)
  {
    hide Inv, Lawful, Recorded, Justified, Kept, Tracks, RowExamined;
    ghost var rows := Rows(buffers);
    for thread := 0 to buffers.Length0
      invariant m.Later() && Tracks(m, t, {}) && t.total <= THREAD_TRIM_STORAGE_SIZE * thread && Earned(m, t)
      invariant forall k: nat, i: nat :: thread <= k < buffers.Length0 && i < buffers.Length1 ==>
                  buffers[k, i] == old(buffers[k, i])
      invariant BuffersExamined(m.trace, m.own, n, o, trimAccessed, rows, Rows(buffers), thread, counts,
                                |m.s.virtuals|, t.total)
    {
      assert Row(buffers, thread) == rows[thread];
      if counts(thread) >= THREAD_TRIM_STORAGE_SIZE / 4 {
        ghost var trace, own, stored, now := m.trace, m.own, t.total, Rows(buffers);
        MarkThreadBuffer(m, t, buffers, thread, trimAccessed, n, o);
        OtherRows(now, Rows(buffers), thread);
        BuffersExaminedStays(trace, own, m.trace, m.own, n, o, trimAccessed, rows, now, Rows(buffers), thread, counts,
                             |m.s.virtuals|, stored, t.total);
      }
    }
  }

  lemma OtherRows(now: seq<seq<Option<nat>>>, now': seq<seq<Option<nat>>>, thread: nat)
    requires |now'| == |now| && forall k :: 0 <= k < |now| ==> |now'[k]| == |now[k]|
    requires forall k, i :: 0 <= k < |now| && k != thread && 0 <= i < |now[k]| ==> now'[k][i] == now[k][i]
    ensures forall k :: 0 <= k < |now| && k != thread ==> now'[k] == now[k]
  {
  }

  /** handle_trim_behind.  `stored` is how many PTEs it collected. */
  method TrimBehind(m: Machine, t: TrimInformation, buffers: array2<Option<nat>>, trimAccessed: bool,
                    counts: nat -> nat, patience: nat, ghost n: int, ghost o: nat)
    returns (done: bool, ghost stored: nat)
    requires Tracks(m, t, {}) && t.total == 0 && buffers.Length1 == THREAD_TRIM_STORAGE_SIZE
    requires t.pteStorage.Length >= THREAD_TRIM_STORAGE_SIZE * buffers.Length0 && n < |m.trace| && o <= |m.own|
    modifies m, t, t.pteStorage, t.toModified, t.toStandby, buffers
    ensures m.Later()
    ensures if done then Tracks(m, t, {}) && t.total == 0
            else Stuck(m.waits, |old(m.waits)|, patience, RewrittenPtes(Below(|m.s.virtuals|)))
    ensures stored <= |m.own| - |old(m.own)|
    ensures BuffersExamined(m.trace, m.own, n, o, trimAccessed, old(Rows(buffers)), Rows(buffers), buffers.Length0,
                            counts, |m.s.virtuals|, stored)
  {
    hide Inv, Lawful, Recorded, Justified, Kept, Tracks, BuffersExamined;
    ghost var rows := Rows(buffers);
    MarkBehind(m, t, buffers, trimAccessed, counts, n, o);
    stored := t.total;
    done := true;
    if t.total > 0 {
      ghost var trace, own, now := m.trace, m.own, Rows(buffers);
      done := FlushBuffers(m, t, patience, |old(m.waits)|);
      assert Rows(buffers) == now;
      BuffersExaminedStays(trace, own, m.trace, m.own, n, o, trimAccessed, rows, now, now, buffers.Length0, counts,
                           |m.s.virtuals|, stored, stored);
    }
  }

  lemma Started(m: Machine, t: TrimInformation)
    requires Tracks(m, t, {})
    ensures m.trace != []
  {
  }

  // ----- what becomes of the chosen PTEs ------------------------------------------------------

  /** The step from s to s' ends it: the PTE is in transition format now, with its
      frame, or somebody else has rewritten it. */
  ghost predicate EndsTrim(s: State, s': State, v: nat) {
    && InBoth(s, s', v) && Trimming(s.virtuals[v])
    && (|| s'.virtuals[v].pte == Transition(s.virtuals[v].pte.frame)
        || (!StillMarked(s'.virtuals[v].pte) && Typed(s)
            && exists a: Action :: !a.Trim? && Enabled(s, a) && s' == Apply(s, a)))
  }

  /** That happened to v, at some time from c on. */
  ghost predicate Finished(trace: seq<State>, c: int, v: nat) {
    exists j :: 0 <= j && c <= j && j + 1 < |trace| && EndsTrim(trace[j], trace[j + 1], v)
  }

  /** To every PTE that was chosen to go at some time from n on. */
  ghost predicate AllFinished(trace: seq<State>, n: int) {
    forall c: nat, v: nat :: n <= c < |trace| && v < |trace[c].virtuals| && Trimming(trace[c].virtuals[v]) ==>
      Finished(trace, c, v)
  }

  /** Until then it stays as it is, whatever step anybody takes. */
  lemma TrimmingStays(s: State, a: Action, v: nat)
    requires Sound(s) && Enabled(s, a) && v < |s.virtuals| && Trimming(s.virtuals[v])
    ensures InBoth(s, Apply(s, a), v)
    ensures Trimming(Apply(s, a).virtuals[v]) || EndsTrim(s, Apply(s, a), v)
  {
    if a.Trim? {
      assert VirtualOk(s, v);
      TrimStepOn(s, a.trim, v);
    } else {
      ForeignStepKeeps(s, a, Only({}).(trimmer := true));
    }
  }

  lemma TrimStepOn(s: State, a: TrimAction, v: nat)
    requires Sound(s) && TrimEnabled(s, a) && v < |s.virtuals| && Trimming(s.virtuals[v])
    ensures v < |TrimApply(s, a).virtuals|
    ensures Trimming(TrimApply(s, a).virtuals[v])
            || TrimApply(s, a).virtuals[v].pte == Transition(s.virtuals[v].pte.frame)
  {
    assert VirtualOk(s, v);
  }

  lemma TrimmingStep(trace: seq<State>, i: nat, v: nat)
    requires Lawful(trace) && i + 1 < |trace| && v < |trace[i].virtuals| && Trimming(trace[i].virtuals[v])
    ensures InBoth(trace[i], trace[i + 1], v)
    ensures Trimming(trace[i + 1].virtuals[v]) || EndsTrim(trace[i], trace[i + 1], v)
  {
    hide Sound, Enabled, Apply, Trimming, EndsTrim;
    assert Follows(trace[i], trace[i + 1]);
    var a: Action :| Enabled(trace[i], a) && trace[i + 1] == Apply(trace[i], a);
    TrimmingStays(trace[i], a, v);
  }

  lemma {:induction false} TrimmingEnds(trace: seq<State>, c: nat, e: nat, v: nat)
    requires Lawful(trace) && c <= e < |trace| && v < |trace[c].virtuals| && Trimming(trace[c].virtuals[v])
    requires v < |trace[e].virtuals| ==> !Trimming(trace[e].virtuals[v])
    ensures Finished(trace, c, v)
    decreases e - c
  {
    hide Lawful, Trimming, EndsTrim, Finished;
    TrimmingStep(trace, c, v);
    if EndsTrim(trace[c], trace[c + 1], v) {
      FinishedNow(trace, c, v);
    } else {
      TrimmingEnds(trace, c + 1, e, v);
      FinishedLater(trace, c, v);
    }
  }

  lemma FinishedNow(trace: seq<State>, c: nat, v: nat)
    requires c + 1 < |trace| && EndsTrim(trace[c], trace[c + 1], v)
    ensures Finished(trace, c, v)
  {
  }

  lemma FinishedLater(trace: seq<State>, c: nat, v: nat)
    requires Finished(trace, c + 1, v)
    ensures Finished(trace, c, v)
  {
    hide EndsTrim;
  }

  lemma NoneLeft(m: Machine, t: TrimInformation, n: int)
    requires Tracks(m, t, {}) && t.total == 0
    ensures AllFinished(m.trace, n)
  {
    hide Inv, Lawful, Recorded, Justified, AllFinished;
    assert NoneTrimmed(m.s);
    AllEnd(m.trace, n);
  }

  ghost predicate NoneTrimmed(s: State) {
    forall v :: 0 <= v < |s.virtuals| ==> s.virtuals[v].trim.NoTrim?
  }

  lemma AllEnd(trace: seq<State>, n: int)
    requires Lawful(trace) && trace != [] && NoneTrimmed(trace[|trace| - 1])
    ensures AllFinished(trace, n)
  {
    hide Lawful, Finished;
    forall c: nat, v: nat | n <= c < |trace| && v < |trace[c].virtuals| && Trimming(trace[c].virtuals[v])
      ensures Finished(trace, c, v)
    {
      TrimmingEnds(trace, c, |trace| - 1, v);
    }
  }

  // ----- one turn of the trimmer ---------------------------------------------------------------

  /** The other threads use their buffers while the trimmer goes through the page
      table; `filled` says what is in there then. */
  method ThreadsFill(buffers: array2<Option<nat>>, filled: (nat, nat) -> Option<nat>)
    modifies buffers
    ensures forall k: nat, i: nat :: k < buffers.Length0 && i < buffers.Length1 ==> buffers[k, i] == filled(k, i)
  {
    forall k: nat, i: nat | k < buffers.Length0 && i < buffers.Length1 {
      buffers[k, i] := filled(k, i);
    }
  }

  ghost function RowsOf(filled: (nat, nat) -> Option<nat>, threads: nat): seq<seq<Option<nat>>> {
    seq(threads, k requires 0 <= k < threads =>
      seq(THREAD_TRIM_STORAGE_SIZE, i requires 0 <= i < THREAD_TRIM_STORAGE_SIZE => filled(k, i)))
  }

  lemma FilledRows(rows: seq<seq<Option<nat>>>, filled: (nat, nat) -> Option<nat>)
    requires forall k :: 0 <= k < |rows| ==> |rows[k]| == THREAD_TRIM_STORAGE_SIZE
    requires forall k: nat, i: nat :: k < |rows| && i < THREAD_TRIM_STORAGE_SIZE ==> rows[k][i] == filled(k, i)
    ensures rows == RowsOf(filled, |rows|)
  {
    forall k | 0 <= k < |rows| ensures rows[k] == RowsOf(filled, |rows|)[k] {
      assert rows[k] == seq(THREAD_TRIM_STORAGE_SIZE, i requires 0 <= i < THREAD_TRIM_STORAGE_SIZE => filled(k, i));
    }
  }

  /** What a turn finds in the threads' buffers: what the threads' counters say
      before and after it, and what is in the buffers when it comes back to
      them. */
  datatype Behind = Behind(counts: nat -> nat, countsAfter: nat -> nat, filled: (nat, nat) -> Option<nat>)

  /** What it leaves in the buffers the first time, how many PTEs it took from them
      each time, and where it stopped in each section. */
  datatype Turn = Turn(left: seq<seq<Option<nat>>>, stored: nat, storedAfter: nat, stops: seq<Stop>)

  /** One turn of thread_trimming: trim behind, all sections, trim behind.  It
      deals with the entries of the buffers, and in every section with every PTE
      up to where it may stop.  When it gets to the end every PTE that it chose
      to go has been put in transition format, or somebody else has rewritten
      it, and no PTE is left marked; it stops short only after `patience` failed
      attempts.  `before` is what trim_accessed_ptes was left at. */
  method TrimOnce(m: Machine, t: TrimInformation, buffers: array2<Option<nat>>, sections: nat, per: nat, patience: nat,
                  behind: Behind, counter: nat -> nat, scarce: nat -> bool, before: bool)
    returns (done: bool, after: bool, ghost turn: Turn)
    requires Tracks(m, t, {}) && t.total == 0 && sections * per <= |m.s.virtuals|
    requires buffers.Length1 == THREAD_TRIM_STORAGE_SIZE
    requires t.pteStorage.Length >= TRIM_STORAGE_TARGET
             && t.pteStorage.Length >= THREAD_TRIM_STORAGE_SIZE * buffers.Length0
    modifies m, t, t.pteStorage, t.toModified, t.toStandby, buffers
    ensures m.Later()
    ensures if done then Tracks(m, t, {}) && t.total == 0
            else Stuck(m.waits, |old(m.waits)|, patience, RewrittenPtes(Below(|m.s.virtuals|)))
    ensures turn.stored <= |m.own| - |old(m.own)|
    ensures BuffersExamined(m.trace, m.own, |old(m.trace)| - 1, |old(m.own)|, before, old(Rows(buffers)), turn.left,
                            buffers.Length0, behind.counts, |m.s.virtuals|, turn.stored)
    ensures done ==> |turn.stops| == sections
    ensures done ==> AllPassed(m.trace, m.own, |old(m.trace)| - 1, |old(m.own)|, scarce, per, counter, turn.stops)
    ensures done ==> turn.stored + turn.storedAfter <= |m.own| - |old(m.own)|
    ensures done ==> after == FlagAfter(before, sections, per, counter, scarce)
    ensures done ==> BuffersExamined(m.trace, m.own, |old(m.trace)| - 1, |old(m.own)|, after,
                                     RowsOf(behind.filled, buffers.Length0), Rows(buffers), buffers.Length0,
                                     behind.countsAfter, |m.s.virtuals|, turn.storedAfter)
    ensures done ==> AllFinished(m.trace, |old(m.trace)| - 1)
    ensures done ==> forall v :: 0 <= v < |m.s.virtuals| ==> !StillMarked(m.s.virtuals[v].pte)
  {
    hide Inv, Lawful, Recorded, Justified, Kept, Tracks, BuffersExamined, Passed, AllFinished, FlagAfter;
    ghost var rows, n, o, stored, storedAfter, stops := Rows(buffers), |m.trace| - 1, |m.own|, 0, 0, [];
    Started(m, t);
    after := before;
    done, stored := TrimBehind(m, t, buffers, before, behind.counts, patience, n, o);
    ghost var left := Rows(buffers);
    turn := Turn(left, stored, 0, []);
    if !done { return; }
    ghost var trace, own, waited := m.trace, m.own, |m.waits|;
    done, after, stops, storedAfter := TrimTheRest(m, t, buffers, sections, per, patience, behind, counter, scarce,
                                                   before, n, o);
    turn := Turn(left, stored, storedAfter, stops);
    BuffersExaminedStays(trace, own, m.trace, m.own, n, o, before, rows, left, left, buffers.Length0, behind.counts,
                         |m.s.virtuals|, stored, stored);
    if done {
      NoneMarked(m, t);
      NoneLeft(m, t, n);
    } else {
      StillRewritten(m.waits, waited, |old(m.waits)|, patience, |m.s.virtuals|);
    }
  }

  lemma NoneMarked(m: Machine, t: TrimInformation)
    requires Tracks(m, t, {}) && t.total == 0
    ensures forall v :: 0 <= v < |m.s.virtuals| ==> !StillMarked(m.s.virtuals[v].pte)
  {
    forall v | 0 <= v < |m.s.virtuals| ensures !StillMarked(m.s.virtuals[v].pte) { DoneIsNotMarked(m.s, v); }
  }

  method TrimTheRest(m: Machine, t: TrimInformation, buffers: array2<Option<nat>>, sections: nat, per: nat,
                     patience: nat, behind: Behind, counter: nat -> nat, scarce: nat -> bool, before: bool,
                     ghost n: int, ghost o: nat)
    returns (done: bool, after: bool, ghost stops: seq<Stop>, ghost stored: nat)
    requires Tracks(m, t, {}) && t.total == 0 && sections * per <= |m.s.virtuals| && n < |m.trace| && o <= |m.own|
    requires buffers.Length1 == THREAD_TRIM_STORAGE_SIZE
    requires t.pteStorage.Length >= TRIM_STORAGE_TARGET
             && t.pteStorage.Length >= THREAD_TRIM_STORAGE_SIZE * buffers.Length0
    modifies m, t, t.pteStorage, t.toModified, t.toStandby, buffers
    ensures m.Later() && stored <= |m.own| - |old(m.own)|
    ensures if done then Tracks(m, t, {}) && t.total == 0
            else Stuck(m.waits, |old(m.waits)|, patience, RewrittenPtes(Below(|m.s.virtuals|)))
    ensures done ==> |stops| == sections && AllPassed(m.trace, m.own, n, o, scarce, per, counter, stops)
    ensures done ==> after == FlagAfter(before, sections, per, counter, scarce)
    ensures done ==> BuffersExamined(m.trace, m.own, n, o, after, RowsOf(behind.filled, buffers.Length0),
                                     Rows(buffers), buffers.Length0, behind.countsAfter, |m.s.virtuals|, stored)
  {
    hide Inv, Lawful, Recorded, Justified, Kept, Tracks, BuffersExamined, AllPassed, FlagAfter, Stuck;
    stored := 0;
    done, after, stops := TrimSections(m, t, sections, per, counter, scarce, before, patience, n, o);
    if !done { return; }
    ghost var trace, own, waited := m.trace, m.own, |m.waits|;
    ThreadsFill(buffers, behind.filled);
    FilledRows(Rows(buffers), behind.filled);
    done, stored := TrimBehind(m, t, buffers, after, behind.countsAfter, patience, n, o);
    AllPassedStays(trace, own, m.trace, m.own, n, o, scarce, per, counter, stops);
    if !done { StillRewritten(m.waits, waited, |old(m.waits)|, patience, |m.s.virtuals|); }
  }
}
