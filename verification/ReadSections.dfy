/** The windows through which faulting threads read from disk.  Each thread has
    its own run of them, uses them in turn, and clears them all at once. */
module ReadSections {

  datatype SectionStatus = SectionOpen | SectionUsed | NeedsFlush

  /** THREAD_DISK_READ_RESOURCES and the statuses it shares with other threads. */
  class Sections {
    const statuses: array<SectionStatus>
    const min: nat
    const max: nat
    var curr: nat

    /** Between two reads of the thread none of its sections is in use. */
    ghost predicate Valid()
      reads this, statuses
    {
      min <= curr <= max < statuses.Length && forall k :: min <= k <= max ==> !statuses[k].SectionUsed?
    }

    constructor (statuses: array<SectionStatus>, min: nat, max: nat)
      requires min <= max < statuses.Length && forall k :: min <= k <= max ==> statuses[k].SectionOpen?
      ensures Valid() && this.statuses == statuses && this.min == min && this.max == max
    {
      this.statuses, this.min, this.max, curr := statuses, min, max, min;
    }

    /** acquire_disk_readsection: only the next section is tried. */
    method Acquire() returns (ok: bool, k: nat)
      requires Valid()
      modifies `curr, statuses
      ensures k == if old(curr) == max then min else old(curr) + 1
      ensures min <= curr == k <= max && ok == old(statuses[..])[k].SectionOpen?
      ensures statuses[..] == if ok then old(statuses[..])[k := SectionUsed] else old(statuses[..])
    {
      curr := if curr == max then min else curr + 1;
      k := curr;
      ok := statuses[k].SectionOpen?;
      if ok { statuses[k] := SectionUsed; }
    }

    /** refresh_disk_readslots: all sections of this thread, and no others. */
    method Refresh()
      requires Valid()
      modifies statuses
      ensures Valid() && forall k :: 0 <= k < statuses.Length ==>
                statuses[k] == if min <= k <= max then SectionOpen else old(statuses[k])
    {
      for k := min to max + 1
        invariant Valid() && forall j :: 0 <= j < statuses.Length ==>
                    statuses[j] == if min <= j < k then SectionOpen else old(statuses[j])
      {
        statuses[k] := SectionOpen;
      }
    }

    /** The section a read takes, and the marks it makes: the loop of the source
        goes round twice at most, the section is the thread's own, and it is
        left for the next flush. */
    method Read() returns (k: nat, refreshes: nat)
      requires Valid()
      modifies `curr, statuses
      ensures Valid() && min <= k <= max && refreshes <= 1 && statuses[k].NeedsFlush?
      ensures forall j :: 0 <= j < statuses.Length && !(min <= j <= max) ==> statuses[j] == old(statuses[j])
    {
      refreshes := 0;
      var ok: bool;
      ok, k := Acquire();
      while !ok
        invariant min <= curr == k <= max < statuses.Length && refreshes <= 1 && (refreshes == 1 ==> ok)
        invariant forall j :: min <= j <= max ==> (statuses[j].SectionUsed? <==> ok && j == k)
        invariant forall j :: 0 <= j < statuses.Length && !(min <= j <= max) ==> statuses[j] == old(statuses[j])
        decreases 1 - refreshes
      {
        Refresh();
        refreshes := refreshes + 1;
        ok, k := Acquire();
      }
      statuses[k] := NeedsFlush;     // one more than SectionUsed
    }
  }
}
