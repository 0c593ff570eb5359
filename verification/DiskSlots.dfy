/** The pagefile's slot allocator: a padded array of slot statuses in sections,
    and a count of open slots for each section. */
module DiskSlots {

  function Max(a: nat, b: nat): nat {
    if a > b then a else b
  }

  /** Free slots among those from lo to hi. */
  function Free(statuses: seq<bool>, lo: nat, hi: nat): (r: set<nat>)
    requires hi <= |statuses|
    ensures forall k :: k in r <==> lo <= k < hi && !statuses[k]
  {
    set k: nat | lo <= k < hi && !statuses[k]
  }

  // ----- tiling -----------------------------------------------------------------

  /** How initialize_disk divides n slots. */
  function Sections(n: nat): nat {
    Max(n / 256, 1)
  }

  function SlotsPerSection(n: nat): nat {
    n / Sections(n)
  }

  function Remaining(n: nat): nat {
    n % Sections(n)
  }

  function SectionCount(n: nat): nat {
    if Remaining(n) != 0 then Sections(n) + 1 else Sections(n)
  }

  /** extra_invalid_slot_count is an unsigned subtraction: it must not wrap. */
  function PaddedLength(n: nat): int {
    if Remaining(n) != 0 then n + (SlotsPerSection(n) - Remaining(n)) else n
  }

  /** For every disk size the sections exactly tile the padded array, the
      padding does not wrap around, and it is shorter than one section. */
  lemma SectionsTile(n: nat)
    requires n > 0
    ensures Remaining(n) != 0 ==> Remaining(n) < SlotsPerSection(n)
    ensures SlotsPerSection(n) > 0 && PaddedLength(n) == SectionCount(n) * SlotsPerSection(n)
    ensures n <= PaddedLength(n) < n + SlotsPerSection(n)
  {
    var s := Sections(n);
    assert n == s * (n / s) + n % s;
    if n >= 256 {
      assert s == n / 256 && 256 * s <= n;
      Quotient(n, s);
    }
  }

  lemma AtLeast256(n: nat, s: nat)
    requires s > 0 && s * 256 <= n
    ensures n / s >= 256
  {
    var q := n / s;
    assert n == s * q + n % s;
    assert q <= 255 ==> s * q <= s * 255;
  }

  /** The remainder is smaller than the number of sections, which is at most
      256 or leaves exactly 256 slots to each. */
  lemma Quotient(n: nat, s: nat)
    requires n >= 256 && s == n / 256
    ensures n / s >= 256 && n % s < n / s
  {
    AtLeast256(n, s);
    if s > 256 { DivMod(n, s, 256, n % 256); }
  }

  lemma DivMod(n: nat, s: nat, q: nat, r: nat)
    requires s > 0 && n == s * q + r && r < s
    ensures n / s == q && n % s == r
  {
    var d := n / s - q;
    assert s * (n / s) + n % s == s * q + r;
    assert s * d == r - n % s;
    assert d >= 1 ==> s * d >= s;
    assert d <= -1 ==> s * d <= 0 - s;
  }

  // ----- sets of free slots ----------------------------------------------------------

  lemma {:induction false} AllFree(statuses: seq<bool>, lo: nat, hi: nat)
    requires lo <= hi <= |statuses| && forall k :: lo <= k < hi ==> !statuses[k]
    ensures |Free(statuses, lo, hi)| == hi - lo
    decreases hi - lo
  {
    if lo < hi {
      AllFree(statuses, lo, hi - 1);
      assert Free(statuses, lo, hi) == Free(statuses, lo, hi - 1) + {hi - 1};
    } else {
      assert Free(statuses, lo, hi) == {};
    }
  }

  lemma FreeSplits(statuses: seq<bool>, lo: nat, mid: nat, hi: nat)
    requires lo <= mid <= hi <= |statuses|
    ensures |Free(statuses, lo, hi)| == |Free(statuses, lo, mid)| + |Free(statuses, mid, hi)|
  {
    assert Free(statuses, lo, hi) == Free(statuses, lo, mid) + Free(statuses, mid, hi);
  }

  /** One slot changes hands: the count of every range that holds it changes by one. */
  lemma FreeChanges(statuses: seq<bool>, k: nat, lo: nat, hi: nat)
    requires k < |statuses| && hi <= |statuses| && !statuses[k]
    ensures |Free(statuses[k := true], lo, hi)| == |Free(statuses, lo, hi)| - if lo <= k < hi then 1 else 0
  {
    if lo <= k < hi {
      assert Free(statuses, lo, hi) == Free(statuses[k := true], lo, hi) + {k};
    } else {
      assert Free(statuses, lo, hi) == Free(statuses[k := true], lo, hi);
    }
  }

  function Sum(c: seq<int>): int {
    if c == [] then 0 else Sum(c[..|c| - 1]) + c[|c| - 1]
  }

  // ----- sections ------------------------------------------------------------------------

  function Start(section: nat, per: nat): nat {
    section * per
  }

  lemma SectionWithin(section: nat, count: nat, per: nat)
    requires section < count
    ensures Start(section, per) + per == Start(section + 1, per) <= Start(count, per)
  {
    assert (section + 1) * per <= count * per;
  }

  lemma SectionOf(k: nat, section: nat, per: nat)
    requires per > 0 && Start(section, per) <= k < Start(section, per) + per
    ensures k / per == section
  {
    DivMod(k, per, section, k - Start(section, per));
  }

  /** A slot lies in the section its index names, and in no other. */
  lemma InOwnSection(k: nat, count: nat, per: nat)
    requires per > 0 && k < Start(count, per)
    ensures k / per < count
    ensures forall section: nat :: Start(section, per) <= k < Start(section, per) + per <==> section == k / per
  {
    assert k == per * (k / per) + k % per;
    if k / per >= count { assert per * (k / per) >= per * count; }
    forall section: nat ensures Start(section, per) <= k < Start(section, per) + per <==> section == k / per {
      if Start(section, per) <= k < Start(section, per) + per { SectionOf(k, section, per); }
    }
  }

  ghost predicate Counted(statuses: seq<bool>, counts: seq<int>, per: nat)
    requires per > 0 && |statuses| == Start(|counts|, per)
  {
    forall i :: 0 <= i < |counts| ==> SectionCounted(statuses, counts, per, i)
  }

  ghost predicate SectionCounted(statuses: seq<bool>, counts: seq<int>, per: nat, i: nat)
    requires per > 0 && |statuses| == Start(|counts|, per) && i < |counts|
  {
    SectionWithin(i, |counts|, per);
    counts[i] == |Free(statuses, Start(i, per), Start(i, per) + per)|
  }

  /** The counts of the sections add up to the number of free slots. */
  lemma {:induction false} CountsAddUp(statuses: seq<bool>, counts: seq<int>, per: nat, m: nat)
    requires per > 0 && |statuses| == Start(|counts|, per) && Counted(statuses, counts, per) && m <= |counts|
    ensures Start(m, per) <= |statuses| && Sum(counts[..m]) == |Free(statuses, 0, Start(m, per))|
    decreases m
  {
    if m == 0 {
      assert Free(statuses, 0, 0) == {};
    } else {
      CountsAddUp(statuses, counts, per, m - 1);
      SectionWithin(m - 1, |counts|, per);
      assert SectionCounted(statuses, counts, per, m - 1);
      FreeSplits(statuses, 0, Start(m - 1, per), Start(m, per));
      assert counts[..m][..m - 1] == counts[..m - 1];
    }
  }

  lemma TakeCounted(statuses: seq<bool>, counts: seq<int>, per: nat, k: nat)
    requires per > 0 && |statuses| == Start(|counts|, per) && Counted(statuses, counts, per)
    requires k < |statuses| && !statuses[k]
    ensures k / per < |counts| && counts[k / per] > 0
    ensures Counted(statuses[k := true], counts[k / per := counts[k / per] - 1], per)
  {
    InOwnSection(k, |counts|, per);
    var own := k / per;
    assert SectionCounted(statuses, counts, per, own);
    SectionWithin(own, |counts|, per);
    assert k in Free(statuses, Start(own, per), Start(own, per) + per);
    var counts' := counts[own := counts[own] - 1];
    var statuses' := statuses[k := true];
    forall i | 0 <= i < |counts| ensures SectionCounted(statuses', counts', per, i) {
      assert SectionCounted(statuses, counts, per, i);
      SectionWithin(i, |counts|, per);
      FreeChanges(statuses, k, Start(i, per), Start(i, per) + per);
    }
  }

  lemma GiveCounted(statuses: seq<bool>, counts: seq<int>, per: nat, k: nat)
    requires per > 0 && |statuses| == Start(|counts|, per) && Counted(statuses, counts, per)
    requires k < |statuses| && statuses[k]
    ensures k / per < |counts|
    ensures Counted(statuses[k := false], counts[k / per := counts[k / per] + 1], per)
  {
    InOwnSection(k, |counts|, per);
    var counts' := counts[k / per := counts[k / per] + 1];
    var statuses' := statuses[k := false];
    assert statuses'[k := true] == statuses;
    forall i | 0 <= i < |counts| ensures SectionCounted(statuses', counts', per, i) {
      assert SectionCounted(statuses, counts, per, i);
      SectionWithin(i, |counts|, per);
      FreeChanges(statuses', k, Start(i, per), Start(i, per) + per);
    }
  }

  // ----- runs of allocations and releases -------------------------------------------------

  function MarkedUsed(statuses: seq<bool>, slots: seq<nat>): (r: seq<bool>)
    requires forall i :: 0 <= i < |slots| ==> slots[i] < |statuses|
    ensures |r| == |statuses| && forall k :: 0 <= k < |r| ==> r[k] == (statuses[k] || k in slots)
  {
    seq(|statuses|, k requires 0 <= k < |statuses| => statuses[k] || k in slots)
  }

  function Given(statuses: seq<bool>, slots: seq<nat>): (r: seq<bool>)
    requires forall i :: 0 <= i < |slots| ==> slots[i] < |statuses|
    ensures |r| == |statuses|
  {
    if slots == [] then statuses
    else Given(statuses, slots[1..])[slots[0] := false]
  }

  lemma {:induction false} GivenFrees(statuses: seq<bool>, slots: seq<nat>)
    requires forall i :: 0 <= i < |slots| ==> slots[i] < |statuses|
    ensures forall k :: 0 <= k < |statuses| ==> Given(statuses, slots)[k] == (statuses[k] && k !in slots)
  {
    if slots != [] {
      GivenFrees(statuses, slots[1..]);
      assert slots == [slots[0]] + slots[1..];
    }
  }

  /** Releasing what was allocated, in any order, undoes the allocation. */
  lemma ReleaseInverts(statuses: seq<bool>, slots: seq<nat>, released: seq<nat>)
    requires forall i :: 0 <= i < |slots| ==> slots[i] < |statuses| && !statuses[slots[i]]
    requires multiset(released) == multiset(slots)
    ensures forall i :: 0 <= i < |released| ==> released[i] < |statuses|
    ensures Given(MarkedUsed(statuses, slots), released) == statuses
  {
    forall k ensures k in released <==> k in slots {
      assert k in multiset(released) <==> k in multiset(slots);
    }
    forall i | 0 <= i < |released| ensures released[i] < |statuses| { assert released[i] in slots; }
    GivenFrees(MarkedUsed(statuses, slots), released);
  }

  class Disk {
    const size: nat                  // DISK_STORAGE_SLOTS
    const per: nat                   // slots_per_section
    const statuses: array<bool>      // disk_slot_statuses: true for DISK_USEDSLOT
    const counts: array<int>         // open_slot_counts
    var total: int                   // total_available_slots

    ghost predicate Valid()
      reads this, statuses, counts
    {
      && per > 0 && size <= statuses.Length && statuses.Length == Start(counts.Length, per)
      && size > 0 && statuses[0] && (forall k :: size <= k < statuses.Length ==> statuses[k])
      && Counted(statuses[..], counts[..], per)
      && total == |Free(statuses[..], 0, statuses.Length)|
    }

    /** initialize_disk: slot 0 and the padding are used, all others free. */
    constructor (n: nat)
      requires n > 0
      ensures Valid() && size == n && fresh(statuses) && fresh(counts) && total == n - 1
      ensures forall k :: 0 < k < n ==> !statuses[k]
    {
      size, per := n, SlotsPerSection(n);
      SectionsTile(n);
      var sections := SectionCount(n);
      var st := new bool[PaddedLength(n)];
      var open := new int[sections];
      st[0] := true;
      for k := 1 to n
        invariant st[0] && forall j :: 1 <= j < k ==> !st[j]
      {
        st[k] := false;
      }
      for k := n to st.Length
        invariant st[0] && (forall j :: 1 <= j < n ==> !st[j]) && forall j :: n <= j < k ==> st[j]
      {
        st[k] := true;
      }
      ghost var initial := st[..];
      assert Fresh(n, initial);
      for i := 0 to sections
        invariant st[..] == initial
        invariant forall j :: 0 <= j < i ==> open[j] == InitialCount(n, j)
      {
        if i == 0 {
          open[i] := SlotsPerSection(n) - 1;
        } else if Remaining(n) != 0 && i == sections - 1 {
          open[i] := Remaining(n);
        } else {
          open[i] := SlotsPerSection(n);
        }
      }
      statuses, counts, total := st, open, n - 1;
      InitialCounted(n, st[..], open[..]);
    }

    /** The part of an allocation that deals with one free slot. */
    method Take(k: nat, section: nat)
      requires Valid() && k < statuses.Length && !statuses[k] && Start(section, per) <= k < Start(section, per) + per
      modifies `total, statuses, counts
      ensures Valid() && total == old(total) - 1 && section < counts.Length
      ensures statuses[..] == old(statuses[..])[k := true]
    {
      SectionOf(k, section, per);
      TakeCounted(statuses[..], counts[..], per, k);
      FreeChanges(statuses[..], k, 0, statuses.Length);
      ghost var st, c := statuses[..], counts[..];
      statuses[k] := true;
      counts[section] := counts[section] - 1;
      total := total - 1;
      assert statuses[..] == st[k := true] && counts[..] == c[section := c[section] - 1];
    }

    lemma EmptySection(section: nat)
      requires Valid() && section < counts.Length && counts[section] == 0
      ensures forall k :: Start(section, per) <= k < Start(section, per) + per && k < statuses.Length ==> statuses[k]
    {
      assert SectionCounted(statuses[..], counts[..], per, section);
      SectionWithin(section, counts.Length, per);
      forall k | Start(section, per) <= k < Start(section, per) + per && k < statuses.Length ensures statuses[k] {
        assert k !in Free(statuses[..], Start(section, per), Start(section, per) + per);
      }
    }

    /** What an allocation has done to the statuses that were `was`: the first
        free slots, in order, are used, and everything below `upTo` is. */
    ghost predicate Allocated(was: seq<bool>, slots: seq<nat>, upTo: int)
      reads this, statuses, counts
    {
      && Valid() && |was| == statuses.Length
      && (forall i :: 0 <= i < |slots| ==> slots[i] < |was| && !was[slots[i]] && slots[i] < upTo)
      && (forall i, j :: 0 <= i < j < |slots| ==> slots[i] < slots[j])
      && statuses[..] == MarkedUsed(was, slots)
      && (forall k :: 0 <= k < upTo && k < |was| ==> statuses[k])
    }

    lemma TakeNext(was: seq<bool>, before: seq<bool>, slots: seq<nat>, k: nat)
      requires |was| == |before| && k < |was|
      requires forall i :: 0 <= i < |slots| ==> slots[i] < |was|
      requires before == MarkedUsed(was, slots)
      ensures before[k := true] == MarkedUsed(was, slots + [k])
    {
    }

    /** One section of allocate_many_disk_slots. */
    method AllocateInSection(section: nat, n: nat, slots0: seq<nat>, ghost was: seq<bool>) returns (slots: seq<nat>)
      requires section < counts.Length && counts[section] != 0
      requires Allocated(was, slots0, Start(section, per)) && (n == 0 || |slots0| < n)
      modifies `total, statuses, counts
      ensures total + |slots| == old(total) + |slots0|
      ensures if n != 0 && |slots| == n then exists k :: Allocated(was, slots, k)
              else (n == 0 || |slots| < n) && Allocated(was, slots, Start(section + 1, per))
    {
      SectionWithin(section, counts.Length, per);
      slots := slots0;
      var k := Start(section, per);
      while k < Start(section, per) + per
        invariant Start(section, per) <= k <= Start(section, per) + per
        invariant Allocated(was, slots, k) && (n == 0 || |slots| < n)
        invariant total + |slots| == old(total) + |slots0|
      {
        if !statuses[k] {
          ghost var before := statuses[..];
          Take(k, section);
          TakeNext(was, before, slots, k);
          slots := slots + [k];
          assert Allocated(was, slots, k + 1);
          if |slots| == n { return; }
          if counts[section] == 0 {
            EmptySection(section);
            return;
          }
        }
        k := k + 1;
      }
    }

    /** allocate_many_disk_slots: the n lowest free slots, or all there are.
        Asked for none it does not stop before it has taken every slot. */
    method AllocateMany(n: nat) returns (slots: seq<nat>)
      requires Valid()
      modifies `total, statuses, counts
      ensures Valid() && total == old(total) - |slots|
      ensures |slots| == if n == 0 || old(total) < n then old(total) else n
      ensures forall i :: 0 <= i < |slots| ==> 0 < slots[i] < size && !old(statuses[..])[slots[i]]
      ensures forall i, j :: 0 <= i < j < |slots| ==> slots[i] < slots[j]
      ensures statuses[..] == MarkedUsed(old(statuses[..]), slots)
      ensures forall i, k :: 0 <= i < |slots| && 0 <= k < statuses.Length && !statuses[k] ==> slots[i] < k
    {
      slots := [];
      ghost var was := statuses[..];
      assert MarkedUsed(was, []) == was;
      var section := 0;
      while section < counts.Length
        invariant 0 <= section <= counts.Length
        invariant Allocated(was, slots, Start(section, per)) && (n == 0 || |slots| < n)
        invariant total + |slots| == old(total)
      {
        SectionWithin(section, counts.Length, per);
        if counts[section] == 0 {
          EmptySection(section);
        } else {
          slots := AllocateInSection(section, n, slots, was);
          if n != 0 && |slots| == n { return; }
        }
        section := section + 1;
      }
      assert Free(statuses[..], 0, statuses.Length) == {};
    }

    /** release_single_disk_slot.  Index `size` passes the check of the source,
        which is off by one: giving it back would make a slot of padding. */
    method ReleaseSingle(k: nat) returns (ok: bool)
      requires Valid() && (k == size ==> k < statuses.Length)
      modifies `total, statuses, counts
      ensures ok <==> k != 0 && k <= size && old(statuses[..])[k]
      ensures statuses[..] == if ok then old(statuses[..])[k := false] else old(statuses[..])
      ensures total == old(total) + if ok then 1 else 0
      ensures Valid() <==> k != size
    {
      if k == 0 || k > size { return false; }
      if !statuses[k] { return false; }
      InOwnSection(k, counts.Length, per);
      GiveCounted(statuses[..], counts[..], per, k);
      ghost var st, c := statuses[..], counts[..];
      assert st[k := false][k := true] == st;
      FreeChanges(st[k := false], k, 0, statuses.Length);
      counts[k / per] := counts[k / per] + 1;
      statuses[k] := false;
      total := total + 1;
      assert statuses[..] == st[k := false] && counts[..] == c[k / per := c[k / per] + 1];
      return true;
    }
  }

  function InitialCount(n: nat, section: nat): int
    requires n > 0
  {
    SectionsTile(n);
    if section == 0 then SlotsPerSection(n) - 1
    else if Remaining(n) != 0 && section == SectionCount(n) - 1 then Remaining(n)
    else SlotsPerSection(n)
  }

  ghost predicate Fresh(n: nat, statuses: seq<bool>)
  {
    && 0 < n <= |statuses| && statuses[0]
    && (forall k :: 0 < k < n ==> !statuses[k]) && (forall k :: n <= k < |statuses| ==> statuses[k])
  }

  lemma FreshRange(n: nat, statuses: seq<bool>, lo: nat, hi: nat)
    requires Fresh(n, statuses) && lo <= hi <= |statuses|
    ensures |Free(statuses, lo, hi)|
            == (if hi > n then n else hi) - (if lo > n then n else lo) - if lo == 0 < hi then 1 else 0
  {
    var first, last := if lo == 0 < hi then 1 else lo, if hi > n then n else hi;
    if first <= last {
      AllFree(statuses, first, last);
      assert Free(statuses, lo, hi) == Free(statuses, first, last);
    } else {
      assert Free(statuses, lo, hi) == {};
    }
  }

  /** Sections before the last one lie below n; the last one, if there is a
      remainder, straddles it. */
  lemma SectionBounds(n: nat, i: nat)
    requires n > 0 && i < SectionCount(n)
    ensures var per, lo := SlotsPerSection(n), Start(i, SlotsPerSection(n));
            && per > 0 && (i > 0 ==> lo > 0)
            && (if i < Sections(n) then lo + per <= n else lo == n - Remaining(n) && n <= lo + per)
  {
    SectionsTile(n);
    var per := SlotsPerSection(n);
    assert n == Sections(n) * per + Remaining(n);
    if i < Sections(n) { SectionWithin(i, Sections(n), per); }
    if i > 0 { SectionWithin(0, i, per); }
  }

  lemma InitialSection(n: nat, statuses: seq<bool>, counts: seq<int>, i: nat)
    requires n > 0 && Fresh(n, statuses) && |statuses| == PaddedLength(n) && |counts| == SectionCount(n)
    requires i < |counts| && counts[i] == InitialCount(n, i)
    ensures SlotsPerSection(n) > 0 && |statuses| == Start(|counts|, SlotsPerSection(n))
    ensures SectionCounted(statuses, counts, SlotsPerSection(n), i)
  {
    SectionsTile(n);
    SectionBounds(n, i);
    var per := SlotsPerSection(n);
    SectionWithin(i, |counts|, per);
    FreshRange(n, statuses, Start(i, per), Start(i, per) + per);
  }

  lemma InitialCounted(n: nat, statuses: seq<bool>, counts: seq<int>)
    requires n > 0 && Fresh(n, statuses) && |statuses| == PaddedLength(n) && |counts| == SectionCount(n)
    requires forall i :: 0 <= i < |counts| ==> counts[i] == InitialCount(n, i)
    ensures SlotsPerSection(n) > 0 && |statuses| == Start(|counts|, SlotsPerSection(n))
    ensures Counted(statuses, counts, SlotsPerSection(n)) && |Free(statuses, 0, |statuses|)| == n - 1
  {
    SectionsTile(n);
    FreshRange(n, statuses, 0, |statuses|);
    forall i | 0 <= i < |counts| ensures SectionCounted(statuses, counts, SlotsPerSection(n), i) {
      InitialSection(n, statuses, counts, i);
    }
  }
}
