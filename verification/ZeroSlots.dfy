/** The zeroing thread's slots.  The refresher fills open slots in turn while
    the zeroing thread empties the ready ones. */
module ZeroSlots {

  datatype SlotStatus = Open | Claimed | Ready

  const TWO_64: nat := 0x1_0000_0000_0000_0000

  /** The pages in ready slots, by slot. */
  function Waiting(status: seq<SlotStatus>, pages: seq<nat>): seq<nat>
    requires |status| == |pages|
  {
    if status == [] then []
    else (if status[0].Ready? then [pages[0]] else []) + Waiting(status[1..], pages[1..])
  }

  lemma {:induction false} SlotFills(status: seq<SlotStatus>, pages: seq<nat>, k: nat, page: nat)
    requires k < |status| == |pages| && !status[k].Ready?
    ensures multiset(Waiting(status[k := Ready], pages[k := page]))
            == multiset(Waiting(status, pages)) + multiset{page}
    ensures |Waiting(status[k := Ready], pages[k := page])| == |Waiting(status, pages)| + 1
  {
    if k == 0 {
      assert status[k := Ready][1..] == status[1..] && pages[k := page][1..] == pages[1..];
    } else {
      assert status[k := Ready][1..] == status[1..][k - 1 := Ready];
      assert pages[k := page][1..] == pages[1..][k - 1 := page];
      SlotFills(status[1..], pages[1..], k - 1, page);
    }
  }

  lemma {:induction false} SlotEmpties(status: seq<SlotStatus>, pages: seq<nat>, k: nat)
    requires k < |status| == |pages| && status[k].Ready?
    ensures multiset(Waiting(status, pages))
            == multiset(Waiting(status[k := Open], pages)) + multiset{pages[k]}
    ensures |Waiting(status, pages)| == |Waiting(status[k := Open], pages)| + 1
  {
    if k == 0 {
      assert status[k := Open][1..] == status[1..];
    } else {
      assert status[k := Open][1..] == status[1..][k - 1 := Open];
      SlotEmpties(status[1..], pages[1..], k - 1);
    }
  }

  lemma {:induction false} NoneReady(status: seq<SlotStatus>, pages: seq<nat>)
    requires |status| == |pages| && forall k :: 0 <= k < |status| ==> !status[k].Ready?
    ensures Waiting(status, pages) == []
  {
    if status != [] { NoneReady(status[1..], pages[1..]); }
  }

  /** A slot that is not ready before or after does not count. */
  lemma {:induction false} SlotIdle(status: seq<SlotStatus>, pages: seq<nat>, k: nat, st: SlotStatus, page: nat)
    requires k < |status| == |pages| && !status[k].Ready? && !st.Ready?
    ensures Waiting(status[k := st], pages[k := page]) == Waiting(status, pages)
  {
    if k == 0 {
      assert status[k := st][1..] == status[1..] && pages[k := page][1..] == pages[1..];
    } else {
      assert status[k := st][1..] == status[1..][k - 1 := st];
      assert pages[k := page][1..] == pages[1..][k - 1 := page];
      SlotIdle(status[1..], pages[1..], k - 1, st, page);
    }
  }

  lemma WaitingSplits(status: seq<SlotStatus>, pages: seq<nat>, k: nat)
    requires k < |status| == |pages|
    ensures Waiting(status[k..], pages[k..])
            == (if status[k].Ready? then [pages[k]] else []) + Waiting(status[k + 1..], pages[k + 1..])
  {
    assert status[k..][1..] == status[k + 1..] && pages[k..][1..] == pages[k + 1..];
  }

  lemma OneMore(start: multiset<nat>, before: multiset<nat>, after: multiset<nat>, pages: seq<nat>, k: nat)
    requires k < |pages| && before == start + multiset(pages[..k]) && after == before + multiset([pages[k]])
    ensures after == start + multiset(pages[..k + 1])
  {
    assert pages[..k + 1] == pages[..k] + [pages[k]];
  }

  lemma ThreeRuns(popped: seq<nat>, start: nat, zeroed: nat)
    requires start <= |popped| && start + zeroed <= |popped|
    ensures popped[start..][..zeroed] == popped[start..start + zeroed]
    ensures zeroed + |popped[..start] + popped[start + zeroed..]| == |popped|
  {
  }

  lemma Regroup(a: seq<nat>, b: seq<nat>, c: seq<nat>)
    ensures a + b + c == a + (b + c)
  {
  }

  /** The slot of the j-th try, counted from 0, after the 64-bit counter stood at c. */
  function SlotAt(c: nat, j: nat, slots: nat): (k: nat)
    requires slots > 0
    ensures k < slots
  {
    ((c + j + 1) % TWO_64) % slots
  }

  /** The counter after the tries up to the j-th. */
  predicate Counts(c: nat, j: nat, now: nat) {
    now == (c + j) % TWO_64
  }

  lemma CounterMoves(c: nat, j: nat, now: nat, slots: nat)
    requires slots > 0 && Counts(c, j, now)
    ensures Counts(c, j + 1, (now + 1) % TWO_64) && (now + 1) % TWO_64 % slots == SlotAt(c, j, slots)
  {
  }

  lemma CounterStarts(c: nat)
    requires c < TWO_64
    ensures Counts(c, 0, c)
  {
  }

  lemma CounterIs(c: nat, j: nat, now: nat)
    requires Counts(c, j, now)
    ensures now == (c + j) % TWO_64
  {
  }

  /** Until the counter wraps around, as many tries in a row as there are slots
      go to different slots. */
  lemma TriesDiffer(c: nat, i: nat, j: nat, slots: nat)
    requires i < j < i + slots && c + j + 1 < TWO_64
    ensures SlotAt(c, i, slots) != SlotAt(c, j, slots)
  {
    BeforeWrap(c, i, slots);
    BeforeWrap(c, j, slots);
    hide SlotAt;
    RemaindersDiffer(c + i + 1, c + j + 1, slots);
  }

  lemma BeforeWrap(c: nat, j: nat, slots: nat)
    requires slots > 0 && c + j + 1 < TWO_64
    ensures SlotAt(c, j, slots) == (c + j + 1) % slots
  {
    assert (c + j + 1) % TWO_64 == c + j + 1;
  }

  lemma RemaindersDiffer(a: nat, b: nat, n: nat)
    requires a < b < a + n
    ensures a % n != b % n
  {
    if a % n == b % n {
      var k := b / n - a / n;
      assert n * k == b - a;
      NoMultipleBetween(k, n);
    }
  }

  lemma NoMultipleBetween(k: int, n: nat)
    ensures !(0 < n * k < n)
  {
    if k >= 1 { assert n * k >= n; } else { assert n * k <= 0; }
  }

  /** They do so for every state of the counter if and only if the number of slots
      divides 2 to the 64. */
  lemma AlwaysDifferIff(slots: nat)
    requires 0 < slots < TWO_64
    ensures (forall c: nat, i: nat, j: nat :: c < TWO_64 && i < j < slots ==>
               SlotAt(c, i, slots) != SlotAt(c, j, slots))
       <==> TWO_64 % slots == 0
  {
    if TWO_64 % slots == 0 {
      forall c: nat, i: nat, j: nat | c < TWO_64 && i < j < slots ensures SlotAt(c, i, slots) != SlotAt(c, j, slots) {
        WrapIsHarmless(c + i + 1, slots);
        WrapIsHarmless(c + j + 1, slots);
        RemaindersDiffer(c + i + 1, c + j + 1, slots);
      }
    } else {
      CollisionAtWrap(slots);
      assert TWO_64 - 2 < TWO_64 && 0 < TWO_64 % slots < slots;
    }
  }

  lemma WrapIsHarmless(a: nat, n: nat)
    requires 0 < n < TWO_64 && TWO_64 % n == 0 && a < 2 * TWO_64
    ensures (a % TWO_64) % n == a % n
  {
    if a >= TWO_64 {
      var q, b := TWO_64 / n, a - TWO_64;
      assert a == q * n + b;
      SameRemainder(q, b, n);
    }
  }

  lemma SameRemainder(q: nat, b: nat, n: nat)
    requires n > 0
    ensures (q * n + b) % n == b % n
  {
    var k := b / n;
    assert q * n + b == (q + k) * n + b % n;
    RemainderOf(q + k, b % n, n);
  }

  lemma RemainderOf(q: nat, r: nat, n: nat)
    requires r < n
    ensures (q * n + r) % n == r
  {
    var x := q * n + r;
    var k := x / n - q;
    assert n * k == r - x % n;
    NoMultipleBetween(k, n);
    NoMultipleBetween(-k, n);
  }

  /** Otherwise two tries around the wrap go to the same slot. */
  lemma CollisionAtWrap(slots: nat)
    requires 0 < slots < TWO_64 && TWO_64 % slots != 0
    ensures SlotAt(TWO_64 - 2, 0, slots) == SlotAt(TWO_64 - 2, TWO_64 % slots, slots)
  {
    var q, r := TWO_64 / slots, TWO_64 % slots;
    assert TWO_64 - 1 == q * slots + (r - 1);
    RemainderOf(q, r - 1, slots);
    RemainderOf(0, r - 1, slots);
    assert TWO_64 - 2 + r + 1 == TWO_64 + (r - 1);
    assert (TWO_64 + (r - 1)) % TWO_64 == r - 1;
  }

  /** Slots were emptied, and nothing else happened to any. */
  predicate OnlyEmptied(was: seq<SlotStatus>, now: seq<SlotStatus>) {
    |was| == |now| && forall k :: 0 <= k < |now| ==> now[k] == was[k] || (now[k].Open? && was[k].Ready?)
  }

  lemma NothingEmptied(status: seq<SlotStatus>)
    ensures OnlyEmptied(status, status)
  {
  }

  /** One of the first n tries went to slot k. */
  ghost predicate SlotTried(c: nat, n: nat, slots: nat, k: nat)
    requires slots > 0
  {
    exists j: nat :: j < n && SlotAt(c, j, slots) == k
  }

  /** The first n pages are in the slots their tries went to, unless a later one
      of them went there too; no other slot's page was touched. */
  ghost predicate InTurn(was: seq<nat>, now: seq<nat>, pages: seq<nat>, n: nat, c: nat)
    requires n <= |pages| && |was| == |now| > 0
  {
    && (forall j: nat {:trigger SlotAt(c, j, |now|)} :: j < n ==>
          now[SlotAt(c, j, |now|)] == pages[j]
          || exists i: nat :: j < i < n && SlotAt(c, i, |now|) == SlotAt(c, j, |now|))
    && (forall k :: 0 <= k < |now| && !SlotTried(c, n, |now|, k) ==> now[k] == was[k])
  }

  /** Only slot k can have been filled. */
  predicate OnlyFills(was: seq<SlotStatus>, now: seq<SlotStatus>, k: nat) {
    |was| == |now| && forall j :: 0 <= j < |now| && j != k && !now[j].Open? ==> !was[j].Open?
  }

  /** A slot that is not open was not before, or is one of those tried. */
  ghost predicate OnlyTried(was: seq<SlotStatus>, now: seq<SlotStatus>, n: nat, c: nat) {
    |was| == |now| > 0 && forall k :: 0 <= k < |now| && !now[k].Open? ==> !was[k].Open? || SlotTried(c, n, |now|, k)
  }

  lemma FillsOne(s0: seq<SlotStatus>, s1: seq<SlotStatus>, s2: seq<SlotStatus>, s3: seq<SlotStatus>, k: nat)
    requires k < |s2| && OnlyEmptied(s0, s1) && OnlyEmptied(s1, s2) && OnlyEmptied(s2[k := Ready], s3)
    ensures OnlyFills(s0, s3, k)
  {
  }

  lemma ClaimsOne(s0: seq<SlotStatus>, s1: seq<SlotStatus>, s2: seq<SlotStatus>, k: nat)
    requires k < |s1| && OnlyEmptied(s0, s1) && (s2 == s1 || OnlyFills(s1[k := Claimed], s2, k))
    ensures OnlyFills(s0, s2, k) && (!s1[k].Open? ==> !s0[k].Open?)
  {
  }

  lemma OneMoreTurn(was: seq<nat>, now: seq<nat>, next: seq<nat>, pages: seq<nat>, n: nat, c: nat)
    requires n < |pages| && |was| == |now| > 0 && InTurn(was, now, pages, n, c)
    requires next == now[SlotAt(c, n, |now|) := pages[n]]
    ensures InTurn(was, next, pages, n + 1, c)
  {
    forall j: nat | j < n + 1
      ensures next[SlotAt(c, j, |now|)] == pages[j]
              || exists i: nat :: j < i < n + 1 && SlotAt(c, i, |now|) == SlotAt(c, j, |now|)
    {
      if j < n && SlotAt(c, j, |now|) != SlotAt(c, n, |now|) && now[SlotAt(c, j, |now|)] != pages[j] {
        var i: nat :| j < i < n && SlotAt(c, i, |now|) == SlotAt(c, j, |now|);
      }
    }
    forall k | 0 <= k < |now| && !SlotTried(c, n + 1, |now|, k) ensures next[k] == was[k] {
      assert SlotAt(c, n, |now|) != k;
      VisitedStays(c, n, |now|, k);
    }
  }

  lemma VisitedStays(c: nat, n: nat, slots: nat, k: nat)
    requires slots > 0
    ensures SlotTried(c, n + 1, slots, k) <==> SlotTried(c, n, slots, k) || SlotAt(c, n, slots) == k
  {
    if SlotTried(c, n, slots, k) {
      var j: nat :| j < n && SlotAt(c, j, slots) == k;
      assert j < n + 1;
    }
    assert n < n + 1;
  }

  lemma NoTurnYet(status: seq<SlotStatus>, stored: seq<nat>, pages: seq<nat>, c: nat)
    requires |status| == |stored| > 0
    ensures InTurn(stored, stored, pages, 0, c) && OnlyTried(status, status, 0, c)
  {
  }

  lemma WhyStopped(was: seq<SlotStatus>, now: seq<SlotStatus>, n: nat, c: nat, k: nat)
    requires OnlyTried(was, now, n, c) && k < |now| && !now[k].Open?
    ensures !was[k].Open? || SlotTried(c, n, |now|, k)
  {
  }

  lemma OneMoreTried(was: seq<SlotStatus>, now: seq<SlotStatus>, next: seq<SlotStatus>, n: nat, c: nat)
    requires OnlyTried(was, now, n, c) && OnlyFills(now, next, SlotAt(c, n, |now|))
    ensures OnlyTried(was, next, n + 1, c)
  {
    forall k | 0 <= k < |next| && !next[k].Open? ensures !was[k].Open? || SlotTried(c, n + 1, |next|, k) {
      VisitedStays(c, n, |next|, k);
    }
  }

  predicate AllOpen(status: seq<SlotStatus>) {
    forall k :: 0 <= k < |status| ==> status[k].Open?
  }

  /** With every slot open at first and no more pages than slots, no try before
      the wrap can fail. */
  lemma NoneFails(was: seq<SlotStatus>, n: nat, c: nat)
    requires n < |was| && c + n + 1 < TWO_64 && AllOpen(was)
    ensures !(!was[SlotAt(c, n, |was|)].Open? || SlotTried(c, n, |was|, SlotAt(c, n, |was|)))
  {
    forall j: nat | j < n ensures SlotAt(c, j, |was|) != SlotAt(c, n, |was|) { TriesDiffer(c, j, n, |was|); }
  }

  class PageZeroing {
    const statusMap: array<SlotStatus>
    const pagesToZero: array<nat>
    var currIdx: nat                 // a 64-bit counter
    var slotsUsed: int               // total_slots_used
    ghost var taken: seq<nat>        // the pages the zeroing thread took, in order
    ghost var claimed: set<nat>      // the slots the refresher has claimed
    ghost var uncounted: nat         // the slots it made ready and has not counted

    /** The counter runs behind the slots the refresher has just made ready: while
        it does it can be below 0, which in its 64 unsigned bits is a large number. */
    ghost predicate Valid()
      reads this, statusMap, pagesToZero
    {
      && statusMap.Length == pagesToZero.Length > 0 && currIdx < TWO_64
      && (forall k :: 0 <= k < statusMap.Length ==> (statusMap[k].Claimed? <==> k in claimed))
      && slotsUsed + uncounted == |WaitingPages()|
    }

    /** The refresher is between two slots. */
    ghost predicate Resting()
      reads this
    {
      claimed == {} && uncounted == 0
    }

    ghost function WaitingPages(): seq<nat>
      requires statusMap.Length == pagesToZero.Length
      reads this, statusMap, pagesToZero
    {
      Waiting(statusMap[..], pagesToZero[..])
    }

    /** Every page that was ever put in a slot: it waits, or it was taken. */
    ghost function Entrusted(): multiset<nat>
      requires statusMap.Length == pagesToZero.Length
      reads this, statusMap, pagesToZero
    {
      multiset(WaitingPages()) + multiset(taken)
    }

    constructor (slots: nat)
      requires slots > 0
      ensures Valid() && Resting() && WaitingPages() == [] && taken == [] && statusMap.Length == slots
      ensures fresh(statusMap) && fresh(pagesToZero)
    {
      statusMap := new SlotStatus[slots](_ => Open);
      pagesToZero := new nat[slots](_ => 0);
      currIdx, slotsUsed := 0, 0;
      taken, claimed, uncounted := [], {}, 0;
      new;
      NoneReady(statusMap[..], pagesToZero[..]);
    }

    lemma SameLengths()
      requires Valid()
      ensures statusMap.Length == pagesToZero.Length > 0 && currIdx < TWO_64
    {
    }

    // ----- the zeroing thread ------------------------------------------------------------

    /** Slot k from READY to OPEN: its page may be overwritten from now on. */
    method Empty(k: nat) returns (page: nat)
      requires Valid() && k < statusMap.Length && statusMap[k].Ready?
      modifies `slotsUsed, `taken, statusMap
      ensures Valid() && page == pagesToZero[k] && statusMap[..] == old(statusMap[..])[k := Open]
      ensures taken == old(taken) + [page] && Entrusted() == old(Entrusted())
    {
      SlotEmpties(statusMap[..], pagesToZero[..], k);
      page := pagesToZero[k];
      ghost var status := statusMap[..];
      statusMap[k] := Open;
      assert statusMap[..] == status[k := Open];
      slotsUsed := slotsUsed - 1;
      taken := taken + [page];
    }

    /** The zeroing thread at work while the refresher is: it takes any pages
        that are ready. */
    method ZeroingMeanwhile()
      requires Valid()
      modifies `slotsUsed, `taken, statusMap
      ensures Valid() && old(taken) <= taken && Entrusted() == old(Entrusted())
      ensures OnlyEmptied(old(statusMap[..]), statusMap[..])
    {
      hide Valid, Waiting, OnlyEmptied;
      SameLengths();
      NothingEmptied(statusMap[..]);
      var n: nat := *;
      while n > 0
        invariant statusMap.Length == pagesToZero.Length
        invariant Valid() && old(taken) <= taken && Entrusted() == old(Entrusted())
        invariant OnlyEmptied(old(statusMap[..]), statusMap[..])
      {
        EmptySome(old(statusMap[..]));
        n := n - 1;
      }
    }

    method EmptySome(ghost was: seq<SlotStatus>)
      requires Valid() && OnlyEmptied(was, statusMap[..])
      modifies `slotsUsed, `taken, statusMap
      ensures Valid() && old(taken) <= taken && Entrusted() == old(Entrusted())
      ensures OnlyEmptied(was, statusMap[..])
    {
      hide Valid, Waiting;
      var k: nat := *;
      if k < statusMap.Length {
        var page := TakeIfReady(k);
      }
    }

    method TakeIfReady(k: nat) returns (page: seq<nat>)
      requires Valid() && k < statusMap.Length
      modifies `slotsUsed, `taken, statusMap
      ensures Valid() && taken == old(taken) + page && Entrusted() == old(Entrusted())
      ensures statusMap[..] == if old(statusMap[k]).Ready? then old(statusMap[..])[k := Open] else old(statusMap[..])
    {
      hide Valid, Waiting;
      page := [];
      if statusMap[k].Ready? {
        var p := Empty(k);
        page := [p];
      }
    }

    /** Takes the page of slot k, if there is one. */
    method EmptyIfReady(k: nat) returns (page: seq<nat>)
      requires Valid() && k < statusMap.Length
      modifies `slotsUsed, `taken, statusMap
      ensures Valid() && !statusMap[k].Ready? && taken == old(taken) + page
      ensures forall j :: 0 <= j < statusMap.Length && j != k ==> statusMap[j] == old(statusMap[j])
      ensures Waiting(old(statusMap[k..]), pagesToZero[k..])
              == page + Waiting(old(statusMap[k + 1..]), pagesToZero[k + 1..])
    {
      WaitingSplits(statusMap[..], pagesToZero[..], k);
      assert statusMap[..][k..] == statusMap[k..] && statusMap[..][k + 1..] == statusMap[k + 1..];
      assert pagesToZero[..][k..] == pagesToZero[k..] && pagesToZero[..][k + 1..] == pagesToZero[k + 1..];
      page := [];
      if statusMap[k].Ready? {
        var p := Empty(k);
        page := [p];
      }
    }

    /** zero_list_get_pages_to_clear, whatever the refresher is in the middle of. */
    method GetPagesToClear() returns (pages: seq<nat>)
      requires Valid()
      modifies `slotsUsed, `taken, statusMap
      ensures Valid() && pages == old(WaitingPages()) && WaitingPages() == [] && taken == old(taken) + pages
    {
      pages := [];
      assert statusMap[0..] == statusMap[..] && pagesToZero[0..] == pagesToZero[..];
      for k := 0 to statusMap.Length
        invariant Valid() && taken == old(taken) + pages
        invariant forall j :: 0 <= j < k ==> !statusMap[j].Ready?
        invariant old(WaitingPages()) == pages + Waiting(statusMap[k..], pagesToZero[k..])
      {
        ghost var rest := statusMap[k + 1..];
        var page := EmptyIfReady(k);
        assert statusMap[k + 1..] == rest;
        Regroup(old(taken), pages, page);
        Regroup(pages, page, Waiting(rest, pagesToZero[k + 1..]));
        pages := pages + page;
      }
      NoneReady(statusMap[..], pagesToZero[..]);
    }

    // ----- the refresher --------------------------------------------------------------------

    /** get_zeroing_struct_idx. */
    method NextIndex() returns (k: nat)
      requires Valid()
      modifies `currIdx
      ensures Valid() && k < statusMap.Length && Entrusted() == old(Entrusted())
      ensures currIdx == (old(currIdx) + 1) % TWO_64 && k == currIdx % statusMap.Length
    {
      currIdx := (currIdx + 1) % TWO_64;
      k := currIdx % statusMap.Length;
    }

    /** Slot k from OPEN to CLAIMED, unless it is not open. */
    method Claim(k: nat) returns (ok: bool)
      requires Valid() && k < statusMap.Length
      modifies `claimed, statusMap
      ensures Valid() && Entrusted() == old(Entrusted()) && ok == old(statusMap[k]).Open?
      ensures statusMap[..] == if ok then old(statusMap[..])[k := Claimed] else old(statusMap[..])
      ensures claimed == if ok then old(claimed) + {k} else old(claimed)
    {
      hide Waiting;
      ok := statusMap[k].Open?;
      if ok {
        SlotIdle(statusMap[..], pagesToZero[..], k, Claimed, pagesToZero[k]);
        assert pagesToZero[..][k := pagesToZero[k]] == pagesToZero[..];
        ghost var status := statusMap[..];
        statusMap[k] := Claimed;
        assert statusMap[..] == status[k := Claimed];
        claimed := claimed + {k};
      }
    }

    /** The page goes in while the slot is claimed: nobody looks at it yet. */
    method Deposit(k: nat, page: nat)
      requires Valid() && k in claimed && k < statusMap.Length
      modifies pagesToZero
      ensures Valid() && Entrusted() == old(Entrusted())
      ensures pagesToZero[..] == old(pagesToZero[..])[k := page]
    {
      SlotIdle(statusMap[..], pagesToZero[..], k, Claimed, page);
      assert statusMap[..][k := Claimed] == statusMap[..];
      ghost var pages := pagesToZero[..];
      pagesToZero[k] := page;
      assert pagesToZero[..] == pages[k := page];
    }

    /** Slot k from CLAIMED to READY; it is counted later. */
    method Announce(k: nat)
      requires Valid() && k in claimed && k < statusMap.Length
      modifies `claimed, `uncounted, statusMap
      ensures Valid() && Entrusted() == old(Entrusted()) + multiset{pagesToZero[k]}
      ensures statusMap[..] == old(statusMap[..])[k := Ready]
      ensures claimed == old(claimed) - {k} && uncounted == old(uncounted) + 1
    {
      hide Waiting;
      SlotFills(statusMap[..], pagesToZero[..], k, pagesToZero[k]);
      assert pagesToZero[..][k := pagesToZero[k]] == pagesToZero[..];
      ghost var status := statusMap[..];
      statusMap[k] := Ready;
      assert statusMap[..] == status[k := Ready];
      claimed, uncounted := claimed - {k}, uncounted + 1;
    }

    method Count()
      requires Valid() && uncounted > 0
      modifies `slotsUsed, `uncounted
      ensures Valid() && Entrusted() == old(Entrusted()) && uncounted == old(uncounted) - 1
    {
      slotsUsed, uncounted := slotsUsed + 1, uncounted - 1;
    }

    /** From CLAIMED to READY with a page in it, while the zeroing thread is at
        work.  Nobody has touched the slot in the meantime. */
    method Fill(k: nat, page: nat)
      requires Valid() && claimed == {k} && uncounted == 0 && k < statusMap.Length
      modifies `slotsUsed, `taken, `claimed, `uncounted, statusMap, pagesToZero
      ensures Valid() && Resting() && old(taken) <= taken
      ensures Entrusted() == old(Entrusted()) + multiset{page}
      ensures pagesToZero[..] == old(pagesToZero[..])[k := page]
      ensures OnlyFills(old(statusMap[..]), statusMap[..], k)
    {
      hide Waiting, OnlyEmptied, OnlyFills;
      ghost var s0 := statusMap[..];
      ZeroingMeanwhile();
      ghost var s1 := statusMap[..];
      Deposit(k, page);
      ZeroingMeanwhile();
      ghost var s2 := statusMap[..];
      Announce(k);
      ZeroingMeanwhile();
      FillsOne(s0, s1, s2, statusMap[..], k);
      Count();
    }

    /** Offers one page to the next slot. */
    method Offer(page: nat) returns (ok: bool, k: nat)
      requires Valid() && Resting()
      modifies this, statusMap, pagesToZero
      ensures Valid() && Resting() && old(taken) <= taken
      ensures Entrusted() == old(Entrusted()) + multiset(if ok then [page] else [])
      ensures currIdx == (old(currIdx) + 1) % TWO_64 && k == currIdx % statusMap.Length
      ensures pagesToZero[..] == if ok then old(pagesToZero[..])[k := page] else old(pagesToZero[..])
      ensures !ok ==> !old(statusMap[k]).Open?
      ensures OnlyFills(old(statusMap[..]), statusMap[..], k)
    {
      hide Valid, Entrusted, OnlyEmptied, OnlyFills;
      SameLengths();
      ghost var s0 := statusMap[..];
      ZeroingMeanwhile();
      ghost var s1 := statusMap[..];
      k := NextIndex();
      ok := Claim(k);
      if ok { Fill(k, page); }
      ClaimsOne(s0, s1, statusMap[..], k);
    }

    method OfferNext(pages: seq<nat>, k: nat, ghost start: multiset<nat>) returns (ok: bool, slot: nat)
      requires Valid() && Resting() && k < |pages| && Entrusted() == start + multiset(pages[..k])
      modifies this, statusMap, pagesToZero
      ensures Valid() && Resting() && old(taken) <= taken
      ensures Entrusted() == start + multiset(pages[..if ok then k + 1 else k])
      ensures currIdx == (old(currIdx) + 1) % TWO_64 && slot == currIdx % statusMap.Length
      ensures pagesToZero[..] == if ok then old(pagesToZero[..])[slot := pages[k]] else old(pagesToZero[..])
      ensures !ok ==> !old(statusMap[slot]).Open?
      ensures OnlyFills(old(statusMap[..]), statusMap[..], slot)
    {
      ghost var before := Entrusted();
      ok, slot := Offer(pages[k]);
      ghost var after := Entrusted();
      if ok {
        OneMore(start, before, after, pages, k);
      }
    }

    /** Offers the pages to slots in turn until one of them is not open.  It
        stops early only at a slot that was not open when it began, or that it
        has filled itself since. */
    method FillSlots(pages: seq<nat>) returns (zeroed: nat)
      requires Valid() && Resting()
      modifies this, statusMap, pagesToZero
      ensures Valid() && Resting() && zeroed <= |pages| && old(taken) <= taken
      ensures Entrusted() == old(Entrusted()) + multiset(pages[..zeroed])
      ensures InTurn(old(pagesToZero[..]), pagesToZero[..], pages, zeroed, old(currIdx))
      ensures currIdx == (old(currIdx) + if zeroed < |pages| then zeroed + 1 else zeroed) % TWO_64
      ensures zeroed < |pages| ==>
                var k := SlotAt(old(currIdx), zeroed, statusMap.Length);
                !old(statusMap[k]).Open? || SlotTried(old(currIdx), zeroed, statusMap.Length, k)
    {
      hide Valid, Entrusted, OnlyFills, InTurn, OnlyTried, SlotAt, SlotTried, Counts;
      SameLengths();
      zeroed := 0;
      assert pages[..0] == [];
      NoTurnYet(statusMap[..], pagesToZero[..], pages, currIdx);
      CounterStarts(currIdx);
      while zeroed < |pages|
        invariant zeroed <= |pages| && Valid() && Resting() && old(taken) <= taken
        invariant Entrusted() == old(Entrusted()) + multiset(pages[..zeroed])
        invariant Counts(old(currIdx), zeroed, currIdx)
        invariant InTurn(old(pagesToZero[..]), pagesToZero[..], pages, zeroed, old(currIdx))
        invariant OnlyTried(old(statusMap[..]), statusMap[..], zeroed, old(currIdx))
      {
        CounterMoves(old(currIdx), zeroed, currIdx, statusMap.Length);
        ghost var status, stored := statusMap[..], pagesToZero[..];
        var ok, k := OfferNext(pages, zeroed, old(Entrusted()));
        if !ok {
          WhyStopped(old(statusMap[..]), status, zeroed, old(currIdx), k);
          CounterIs(old(currIdx), zeroed + 1, currIdx);
          return;
        }
        OneMoreTurn(old(pagesToZero[..]), stored, pagesToZero[..], pages, zeroed, old(currIdx));
        OneMoreTried(old(statusMap[..]), status, statusMap[..], zeroed, old(currIdx));
        zeroed := zeroed + 1;
      }
      CounterIs(old(currIdx), zeroed, currIdx);
    }

    /** refresh_free_and_zero_lists, and with freeFirst 0 refresh_zero_lists,
        from the pages they popped on.  Each page lands once, on a free list or
        in a slot; only a slot that is not open sends the rest to the free
        lists; no page that waits in a slot is overwritten before it is taken;
        and the sums the source asserts hold. */
    method Refresh(popped: seq<nat>, freeFirst: nat) returns (free: seq<nat>, zeroed: nat)
      requires Valid() && Resting()
      modifies this, statusMap, pagesToZero
      ensures Valid() && Resting() && zeroed + |free| == |popped| && old(taken) <= taken
      ensures var start := if freeFirst < |popped| then freeFirst else |popped|;
              && start + zeroed <= |popped| && free == popped[..start] + popped[start + zeroed..]
              && Entrusted() == old(Entrusted()) + multiset(popped[start..start + zeroed])
              && InTurn(old(pagesToZero[..]), pagesToZero[..], popped[start..], zeroed, old(currIdx))
              && (start + zeroed < |popped| ==>
                    var k := SlotAt(old(currIdx), zeroed, statusMap.Length);
                    !old(statusMap[k]).Open? || SlotTried(old(currIdx), zeroed, statusMap.Length, k))
      ensures AllOpen(old(statusMap[..])) && |popped| <= statusMap.Length && old(currIdx) + |popped| < TWO_64 ==>
                zeroed + freeFirst >= |popped|
    {
      var start := if freeFirst < |popped| then freeFirst else |popped|;
      zeroed := FillSlots(popped[start..]);
      if start + zeroed < |popped| && AllOpen(old(statusMap[..])) && |popped| <= statusMap.Length
         && old(currIdx) + |popped| < TWO_64 {
        NoneFails(old(statusMap[..]), zeroed, old(currIdx));
      }
      ThreeRuns(popped, start, zeroed);
      free := popped[..start] + popped[start + zeroed..];
    }
  }
}
