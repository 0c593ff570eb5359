/** Which lock governs a PTE, and how a faulting thread takes the right to read
    a run of disk PTEs while it holds the governing locks. */
module ReadRights {
  import opened PageState

  const PTES_PER_LOCKSECTION: nat := 512
  const MAX_PAGES_READABLE: nat := 16

  // ----- lock sections ------------------------------------------------------------

  function LockCount(v: nat): (r: nat)
    ensures r > 0
  {
    if v / PTES_PER_LOCKSECTION > 1 then v / PTES_PER_LOCKSECTION else 1
  }

  /** pte_to_locksection. */
  function SectionOf(i: nat, v: nat): nat
    requires i < v
  {
    PerSection(v);
    i / (v / LockCount(v))
  }

  lemma PerSection(v: nat)
    requires v > 0
    ensures v / LockCount(v) > 0
  {
    var n := LockCount(v);
    assert n <= v;
  }

  /** final_pte_index, as initialize_pagetable stores it. */
  function FinalIndex(section: nat): int {
    PTES_PER_LOCKSECTION * (section + 1) - 1
  }

  /** The two views of a section agree: every PTE has a section, which ends
      where it is said to end. */
  ghost predicate Governed(v: nat) {
    forall i: nat, j: nat :: i <= j < v ==>
      && SectionOf(i, v) < LockCount(v)
      && (SectionOf(j, v) == SectionOf(i, v) <==> j <= FinalIndex(SectionOf(i, v)))
  }

  lemma SectionIsQuotient(v: nat, i: nat)
    requires i < v && (v <= 512 || v % 512 == 0)
    ensures SectionOf(i, v) == i / 512 < LockCount(v)
  {
    if v >= 512 {
      assert v == 512 * (v / 512);
      Divides(v / 512);
    }
  }

  lemma Divides(n: nat)
    requires n > 0
    ensures (512 * n) / n == 512
  {
    var d := (512 * n) / n - 512;
    assert 512 * n == n * ((512 * n) / n) + (512 * n) % n;
    assert n * d == -((512 * n) % n);
    assert d >= 1 ==> n * d >= n;
    assert d <= -1 ==> n * d <= 0 - n;
  }

  lemma SectionsTooLong(v: nat)
    requires v > 512 && v / LockCount(v) > 512
    ensures !Governed(v)
  {
    assert SectionOf(0, v) == 0;
    assert SectionOf(512, v) == 0;
  }

  lemma AtLeast512(v: nat, n: nat)
    requires n > 0 && n * 512 <= v
    ensures v / n >= 512
  {
    var q := v / n;
    assert v == n * q + v % n;
    assert q <= 511 ==> n * q <= n * 511;
  }

  lemma SectionTooMany(v: nat)
    requires v > 512 && v % 512 != 0 && v / LockCount(v) <= 512
    ensures !Governed(v)
  {
    AtLeast512(v, LockCount(v));
    assert SectionOf(v - 1, v) == LockCount(v);
  }

  /** The lock of a PTE is the one its section claims exactly if the pages fill
      their sections, or there is only one section that is full at most. */
  lemma GovernedIff(v: nat)
    requires v > 0
    ensures Governed(v) <==> v <= 512 || v % 512 == 0
  {
    if v <= 512 || v % 512 == 0 {
      forall i: nat, j: nat | i <= j < v
        ensures SectionOf(i, v) < LockCount(v)
                && (SectionOf(j, v) == SectionOf(i, v) <==> j <= FinalIndex(SectionOf(i, v)))
      {
        SectionIsQuotient(v, i);
        SectionIsQuotient(v, j);
      }
    } else if v / LockCount(v) > 512 {
      SectionsTooLong(v);
    } else {
      SectionTooMany(v);
    }
  }

  /** initialize_pagetable: no PTE has been accessed, and the sections are told
      where they end. */
  method InitializePagetable(v: nat) returns (ptes: array<Pte>, finalIndices: array<int>)
    ensures fresh(ptes) && ptes.Length == v && forall i :: 0 <= i < v ==> ptes[i] == Unused
    ensures fresh(finalIndices) && finalIndices.Length == LockCount(v)
    ensures forall k :: 0 <= k < finalIndices.Length ==> finalIndices[k] == FinalIndex(k)
  {
    ptes := new Pte[v];
    for i := 0 to v
      invariant forall j :: 0 <= j < i ==> ptes[j] == Unused
    {
      ptes[i] := Unused;
    }
    finalIndices := new int[LockCount(v)];
    for k := 0 to finalIndices.Length
      invariant forall i :: 0 <= i < v ==> ptes[i] == Unused
      invariant forall j :: 0 <= j < k ==> finalIndices[j] == FinalIndex(j)
    {
      finalIndices[k] := PTES_PER_LOCKSECTION * (k + 1) - 1;
    }
  }

  // ----- looking without a lock --------------------------------------------------------

  predicate Unread(t: Pte) {
    t.Disk? && !t.reading
  }

  /** The indices found: in order, in the window, and all that looked unread. */
  ghost predicate Found(found: seq<nat>, start: nat, end: nat, look: seq<Pte>)
    requires end <= |look|
  {
    && (forall k :: 0 <= k < |found| ==> start <= found[k] < end && Unread(look[found[k]]))
    && (forall k, l :: 0 <= k < l < |found| ==> found[k] < found[l])
    && (forall i :: start <= i < end && look[i].Disk? && !look[i].reading ==> i in found)
  }

  /** The first of the indices found that lies beyond the section of the first. */
  ghost predicate Switches(found: seq<nat>, at: Option<nat>, v: nat)
    requires forall k :: 0 <= k < |found| ==> found[k] < v
  {
    match at
    case Some(k) =>
      0 < k < |found|
      && forall l :: 0 <= l < |found| ==> (l < k <==> found[l] <= FinalIndex(SectionOf(found[0], v)))
    case None => forall l :: 0 <= l < |found| ==> found[l] <= FinalIndex(SectionOf(found[0], v))
  }

  lemma FoundGrows(found: seq<nat>, start: nat, i: nat, look: seq<Pte>)
    requires start <= i < |look| && Found(found, start, i, look)
    ensures Unread(look[i]) ==> Found(found + [i], start, i + 1, look)
    ensures !Unread(look[i]) ==> Found(found, start, i + 1, look)
  {
    var more := found + [i];
    forall j | start <= j <= i && Unread(look[j]) ensures j in more {
      if j < i { assert j in found; }
    }
  }

  lemma SwitchesGrows(found: seq<nat>, at: Option<nat>, v: nat, i: nat)
    requires i < v && Governed(v) && (forall k :: 0 <= k < |found| ==> found[k] < i) && Switches(found, at, v)
    ensures var final := FinalIndex(SectionOf((found + [i])[0], v));
            Switches(found + [i], if at == None && i > final then Some(|found|) else at, v)
  {
    assert found != [] ==> (found + [i])[0] == found[0];
    assert at.Some? ==> found[at.value] < i && found[at.value] > FinalIndex(SectionOf(found[0], v));
    InSection(i, v);
    var more := found + [i];
    assert forall l :: 0 <= l < |found| ==> more[l] == found[l];
  }

  lemma InSection(i: nat, v: nat)
    requires i < v && Governed(v)
    ensures i <= FinalIndex(SectionOf(i, v))
  {
  }

  lemma NothingFound(start: nat, look: seq<Pte>, v: nat)
    requires start <= |look|
    ensures Found([], start, start, look) && Switches([], None, v)
  {
  }

  /** find_unread_sequential_disk_ptes.  `look` is what the thread reads at
      each PTE, with no lock held; it can be out of date at once. */
  method FindUnread(v: nat, start: nat, num: nat, look: seq<Pte>) returns (found: seq<nat>, at: Option<nat>)
    requires start < v == |look| && Governed(v)
    ensures Found(found, start, WindowEnd(start, num, v), look)
    ensures forall i :: start <= i < start + num && i < v && look[i].Disk? && !look[i].reading ==> i in found
    ensures Switches(found, at, v)
  {
    hide Found, Switches, Governed;
    found, at := [], None;
    NothingFound(start, look, v);
    var final: Option<int> := None;
    var i, checked := start, 0;
    while checked < num
      invariant checked <= num && i == start + checked < v
      invariant Found(found, start, i, look) && (forall k :: 0 <= k < |found| ==> found[k] < i)
                && Switches(found, at, v)
      invariant if found == [] then final == None && at == None else final == Some(FinalIndex(SectionOf(found[0], v)))
    {
      FoundGrows(found, start, i, look);
      if Unread(look[i]) {
        SwitchesGrows(found, at, v, i);
        if final == None {
          final := Some(FinalIndex(SectionOf(i, v)));
        }
        if at == None && i > final.value {
          at := Some(|found|);
        }
        found := found + [i];
      }
      i := i + 1;
      if i == v { break; }
      checked := checked + 1;
    }
    FoundAll(found, start, num, v, look);
  }

  lemma FoundAll(found: seq<nat>, start: nat, num: nat, v: nat, look: seq<Pte>)
    requires start < v == |look| && Found(found, start, WindowEnd(start, num, v), look)
    ensures forall i :: start <= i < start + num && i < v && look[i].Disk? && !look[i].reading ==> i in found
  {
  }

  // ----- taking the rights ------------------------------------------------------------------

  /** The thread looked at a PTE while it held the lock of a section. */
  datatype Visit = Visit(pte: nat, under: Option<nat>, seen: Pte)

  function Visited(visits: seq<Visit>): (r: seq<nat>)
    ensures |r| == |visits| && forall k :: 0 <= k < |r| ==> r[k] == visits[k].pte
  {
    seq(|visits|, k requires 0 <= k < |visits| => visits[k].pte)
  }

  /** The visits to unread PTEs, in order. */
  function Hits(visits: seq<Visit>): seq<Visit> {
    if visits == [] then []
    else
      var last := visits[|visits| - 1];
      Hits(visits[..|visits| - 1]) + if Unread(last.seen) then [last] else []
  }

  lemma HitsGrow(visits: seq<Visit>, visit: Visit)
    ensures Hits(visits + [visit]) == Hits(visits) + if Unread(visit.seen) then [visit] else []
  {
    assert (visits + [visit])[..|visits|] == visits;
  }

  lemma {:induction false} HitsAre(visits: seq<Visit>, visit: Visit)
    ensures visit in Hits(visits) <==> visit in visits && visit.seen.Disk? && !visit.seen.reading
  {
    if visits != [] {
      var before, last := visits[..|visits| - 1], visits[|visits| - 1];
      HitsAre(before, visit);
      assert visits == before + [last];
    }
  }

  /** The end of a window. */
  function WindowEnd(start: nat, num: nat, v: nat): nat {
    if start + num < v then start + num else v
  }

  lemma FoundInWindow(found: seq<nat>, start: nat, end: nat, look: seq<Pte>)
    requires end <= |look| && Found(found, start, end, look)
    ensures forall k :: 0 <= k < |found| ==> start <= found[k] < end
    ensures forall k, l :: 0 <= k < l < |found| ==> found[k] < found[l]
  {
  }

  class PageTable {
    const ptes: array<Pte>
    var section: Option<nat>         // the PTE lock section whose lock the thread holds
    ghost var log: seq<Visit>

    constructor (ptes: array<Pte>)
      ensures this.ptes == ptes && section == None
    {
      this.ptes, section := ptes, None;
      log := [];
    }

    /** EnterCriticalSection.  Until it returns other threads change PTEs at
        will, except those that someone has the right to read. */
    method Enter(k: nat, rights: set<nat>)
      requires section == None && k < LockCount(ptes.Length)
      modifies `section, ptes
      ensures section == Some(k)
      ensures forall i :: 0 <= i < ptes.Length && i in rights ==> ptes[i] == old(ptes[i])
    {
      for i := 0 to ptes.Length
        invariant section == None
        invariant forall j :: 0 <= j < ptes.Length && j in rights ==> ptes[j] == old(ptes[j])
      {
        var t: Pte := *;
        if i !in rights { ptes[i] := t; }
      }
      section := Some(k);
    }

    method Leave()
      requires section.Some?
      modifies `section
      ensures section == None
    {
      section := None;
    }

    /** The write that gives the right to read a PTE: only under the lock of
        the section that governs it. */
    method SetReading(i: nat)
      requires i < ptes.Length && section == Some(SectionOf(i, ptes.Length)) && Unread(ptes[i])
      modifies ptes
      ensures ptes[..] == old(ptes[..])[i := old(ptes[i]).(reading := true)]
    {
      ptes[i] := Disk(ptes[i].slot, true);
    }

    ghost predicate Reading(i: nat)
      reads ptes
    {
      i < ptes.Length && ptes[i].Disk? && ptes[i].reading
    }

    /** The rights given before, and those this thread has got since. */
    ghost predicate Holds(rights: set<nat>, got: seq<nat>, was: seq<Pte>)
      reads ptes
    {
      && |was| == ptes.Length
      && (forall i :: i in rights ==> Reading(i) && ptes[i] == was[i])
      && (forall k :: 0 <= k < |got| ==> Reading(got[k]) && got[k] !in rights)
      && (forall k, l :: 0 <= k < l < |got| ==> got[k] < got[l])
    }

    /** The PTEs taken are those visited that were unread; each is as it was when
        it was visited, but for the right. */
    ghost predicate TakenFrom(visits: seq<Visit>, got: seq<nat>)
      reads ptes
    {
      && got == Visited(Hits(visits))
      && forall k :: 0 <= k < |got| ==>
           && got[k] < ptes.Length && Hits(visits)[k].seen.Disk? && !Hits(visits)[k].seen.reading
           && ptes[got[k]] == Disk(Hits(visits)[k].seen.slot, true)
    }

    lemma TakenMore(before: seq<Pte>, visits: seq<Visit>, got: seq<nat>, visit: Visit, more: seq<nat>)
      requires |before| == ptes.Length && got == Visited(Hits(visits))
      requires forall k :: 0 <= k < |got| ==>
                 && got[k] < |before| && got[k] != visit.pte && Unread(Hits(visits)[k].seen)
                 && before[got[k]] == Disk(Hits(visits)[k].seen.slot, true)
      requires visit.pte < |before| && visit.seen == before[visit.pte]
      requires more == got + if Unread(visit.seen) then [visit.pte] else []
      requires forall j :: 0 <= j < ptes.Length && j != visit.pte ==> ptes[j] == before[j]
      requires Unread(visit.seen) ==> ptes[visit.pte] == Disk(visit.seen.slot, true)
      ensures TakenFrom(visits + [visit], more)
    {
      HitsGrow(visits, visit);
      hide Hits;
      var hits := Hits(visits + [visit]);
      assert more == Visited(hits);
      forall k | 0 <= k < |more|
        ensures more[k] < ptes.Length && Unread(hits[k].seen) && ptes[more[k]] == Disk(hits[k].seen.slot, true)
      {
        if k < |got| { assert hits[k] == Hits(visits)[k] && more[k] == got[k]; }
      }
    }

    method EnterHolding(k: nat, rights: set<nat>, got: seq<nat>, ghost visits: seq<Visit>, ghost was: seq<Pte>)
      requires section == None && k < LockCount(ptes.Length) && Holds(rights, got, was) && TakenFrom(visits, got)
      modifies `section, ptes
      ensures section == Some(k) && Holds(rights, got, was) && TakenFrom(visits, got)
    {
      Enter(k, rights + set i | i in got);
    }

    /** Under the lock the PTE is looked at again, and taken if it is unread. */
    method TakeRight(i: nat, rights: set<nat>, got: seq<nat>, ghost was: seq<Pte>) returns (more: seq<nat>)
      requires i < ptes.Length && section == Some(SectionOf(i, ptes.Length)) && Holds(rights, got, was)
      requires forall k :: 0 <= k < |got| ==> got[k] < i
      modifies ptes, `log
      ensures Holds(rights, more, was) && log == old(log) + [Visit(i, section, old(ptes[i]))]
      ensures more == got + if old(Unread(ptes[i])) then [i] else []
      ensures forall j :: 0 <= j < ptes.Length && j != i ==> ptes[j] == old(ptes[j])
      ensures old(Unread(ptes[i])) ==> ptes[i] == Disk(old(ptes[i]).slot, true)
    {
      more := got;
      log := log + [Visit(i, section, ptes[i])];
      if Unread(ptes[i]) {
        SetReading(i);
        more := got + [i];
      }
    }

    /** The first k of the PTEs have been visited. */
    ghost predicate Visiting(found: seq<nat>, k: int, got: seq<nat>, visits: seq<Visit>) {
      && (forall j :: 0 <= j < |found| ==> found[j] < ptes.Length)
      && (forall i, j :: 0 <= i < j < |found| ==> found[i] < found[j])
      && |visits| == k <= |found| && got == Visited(Hits(visits))
      && (forall j :: 0 <= j < k ==>
         visits[j].pte == found[j] && visits[j].under == Some(SectionOf(found[j], ptes.Length)))
      && (forall i, j :: 0 <= i < |got| && k <= j < |found| ==> got[i] < found[j])
    }

    method VisitNext(found: seq<nat>, k: nat, rights: set<nat>, got: seq<nat>, ghost visits: seq<Visit>,
                     ghost was: seq<Pte>)
      returns (more: seq<nat>, ghost visits': seq<Visit>)
      requires k < |found| && Visiting(found, k, got, visits) && Holds(rights, got, was) && TakenFrom(visits, got)
      requires section == Some(SectionOf(found[k], ptes.Length))
      modifies ptes, `log
      ensures Visiting(found, k + 1, more, visits') && Holds(rights, more, was) && TakenFrom(visits', more)
      ensures exists visit :: log == old(log) + [visit] && visits' == visits + [visit]
    {
      ghost var visit, before := Visit(found[k], section, ptes[found[k]]), ptes[..];
      more := TakeRight(found[k], rights, got, was);
      HitsGrow(visits, visit);
      visits' := visits + [visit];
      TakenMore(before, visits, got, visit, more);
    }

    /** acquire_sequential_disk_read_rights.  `rights` are the PTEs somebody has
        the right to read already.  The thread visits the PTEs of the window that
        looked unread, each under the lock of its own section, and takes those
        that still are; no right is given twice, and no lock is left behind. */
    method Acquire(start: nat, num: nat, look: seq<Pte>, rights: set<nat>)
      returns (got: seq<nat>, ghost visits: seq<Visit>)
      requires start < ptes.Length == |look| && Governed(ptes.Length) && 0 < num <= MAX_PAGES_READABLE
      requires section == None && forall i :: i in rights ==> Reading(i)
      modifies `section, `log, ptes
      ensures section == None && Holds(rights, got, old(ptes[..]))
      ensures log == old(log) + visits && TakenFrom(visits, got)
      ensures forall k :: 0 <= k < |visits| ==>
                (visits[k].pte in got <==> visits[k].seen.Disk? && !visits[k].seen.reading)
      ensures Found(Visited(visits), start, WindowEnd(start, num, ptes.Length), look)
      ensures forall k :: 0 <= k < |visits| ==> visits[k].under == Some(SectionOf(visits[k].pte, ptes.Length))
    {
      hide Found, Holds, Governed, TakenFrom;
      got, visits := [], [];
      var found, at := FindUnread(ptes.Length, start, num, look);
      FoundInWindow(found, start, WindowEnd(start, num, ptes.Length), look);
      if |found| == 0 {
        HoldsAtFirst(rights);
        TakenAtFirst();
      } else {
        SectionsNearby(found, at, start, ptes.Length);
        got, visits := VisitAll(found, at, rights);
      }
      assert Visited(visits) == found;
      JustTheUnread(visits, got);
    }

    lemma TakenAtFirst()
      ensures TakenFrom([], [])
    {
    }

    lemma JustTheUnread(visits: seq<Visit>, got: seq<nat>)
      requires TakenFrom(visits, got)
      requires forall k, l :: 0 <= k < l < |visits| ==> visits[k].pte != visits[l].pte
      ensures forall k :: 0 <= k < |visits| ==>
                (visits[k].pte in got <==> visits[k].seen.Disk? && !visits[k].seen.reading)
    {
      forall k | 0 <= k < |visits|
        ensures visits[k].pte in got <==> visits[k].seen.Disk? && !visits[k].seen.reading
      {
        HitsAre(visits, visits[k]);
        if visits[k] in Hits(visits) {
          var i :| 0 <= i < |Hits(visits)| && Hits(visits)[i] == visits[k];
          assert got[i] == visits[k].pte;
        }
        if visits[k].pte in got {
          var i :| 0 <= i < |got| && got[i] == visits[k].pte;
          HitsAre(visits, Hits(visits)[i]);
          assert Hits(visits)[i] in Hits(visits);
        }
      }
    }

    lemma HoldsAtFirst(rights: set<nat>)
      requires forall i :: i in rights ==> Reading(i)
      ensures Holds(rights, [], ptes[..])
    {
    }

    method VisitAll(found: seq<nat>, at: Option<nat>, rights: set<nat>)
      returns (got: seq<nat>, ghost visits: seq<Visit>)
      requires section == None && |found| > 0 && forall i :: i in rights ==> Reading(i)
      requires forall j :: 0 <= j < |found| ==> found[j] < ptes.Length
      requires forall i, j :: 0 <= i < j < |found| ==> found[i] < found[j]
      requires forall k :: 0 <= k < |found| ==>
                 SectionOf(found[k], ptes.Length)
                 == SectionOf(found[0], ptes.Length) + (if at.Some? && at.value <= k then 1 else 0)
                 && SectionOf(found[k], ptes.Length) < LockCount(ptes.Length)
      modifies `section, `log, ptes
      ensures section == None && Holds(rights, got, old(ptes[..])) && Visiting(found, |found|, got, visits)
      ensures log == old(log) + visits && TakenFrom(visits, got)
    {
      hide Holds, TakenFrom;
      got, visits := [], [];
      ghost var was := ptes[..];
      HoldsAtFirst(rights);
      TakenAtFirst();
      var current := SectionOf(found[0], ptes.Length);
      EnterHolding(current, rights, got, visits, was);
      for k := 0 to |found|
        invariant section == Some(current) && log == old(log) + visits
        invariant current == SectionOf(found[0], ptes.Length) + if at.Some? && at.value < k then 1 else 0
        invariant Holds(rights, got, was) && Visiting(found, k, got, visits) && TakenFrom(visits, got)
      {
        if at == Some(k) {
          Leave();
          current := current + 1;
          EnterHolding(current, rights, got, visits, was);
        }
        assert current == SectionOf(found[k], ptes.Length);
        got, visits := VisitNext(found, k, rights, got, visits, was);
      }
      Leave();
    }

    /** release_sequential_disk_read_rights.  `taken` says how the PTEs were when
        the thread took the rights: they are so again, with their slots, and can
        be read by others; the other PTEs stay as they are. */
    method ReleaseRights(got: seq<nat>, ghost taken: seq<Pte>)
      requires |taken| == |got| && forall k, l :: 0 <= k < l < |got| ==> got[k] != got[l]
      requires forall k :: 0 <= k < |got| ==>
                 got[k] < ptes.Length && Unread(taken[k]) && ptes[got[k]] == taken[k].(reading := true)
      modifies ptes
      ensures forall k :: 0 <= k < |got| ==> ptes[got[k]] == taken[k] && taken[k].Disk? && !taken[k].reading
      ensures forall i :: 0 <= i < ptes.Length && i !in got ==> ptes[i] == old(ptes[i])
    {
      for k := 0 to |got|
        invariant forall l :: 0 <= l < |got| ==> ptes[got[l]] == if l < k then taken[l] else taken[l].(reading := true)
        invariant forall i :: 0 <= i < ptes.Length && i !in got ==> ptes[i] == old(ptes[i])
      {
        ptes[got[k]] := Disk(ptes[got[k]].slot, false);
      }
    }
  }

  /** A window of at most 16 PTEs touches two sections at most, and the second
      begins at the switch. */
  lemma SectionsNearby(found: seq<nat>, at: Option<nat>, start: nat, v: nat)
    requires Governed(v) && 0 < |found|
             && (forall k :: 0 <= k < |found| ==> start <= found[k] < start + MAX_PAGES_READABLE && found[k] < v)
    requires (forall k, l :: 0 <= k < l < |found| ==> found[k] < found[l]) && Switches(found, at, v)
    ensures forall k :: 0 <= k < |found| ==>
              SectionOf(found[k], v)
              == SectionOf(found[0], v) + (if at.Some? && at.value <= k then 1 else 0) < LockCount(v)
  {
    GovernedIff(v);
    forall k | 0 <= k < |found|
      ensures SectionOf(found[k], v)
              == SectionOf(found[0], v) + (if at.Some? && at.value <= k then 1 else 0) < LockCount(v)
    {
      SectionIsQuotient(v, found[0]);
      SectionIsQuotient(v, found[k]);
    }
  }
}
