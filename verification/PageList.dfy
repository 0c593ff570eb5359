/** The page lists: intrusive, doubly linked, with a sentinel at each end.

    Operations first try to lock the neighbours they are going to write to
    while they share the list lock with others; if any lock is not to be had
    they let go, take the list lock exclusively and finish alone.  A try-lock
    is an arbitrary choice here.  Other threads are at work between any two
    actions of the first phase, but they leave the links of locked pages
    alone; in the gap between the phases they may insert and unlink any pages
    of their own. */
module PageList {
  import opened PageState

  class Page {
    var flink: Page?
    var blink: Page?
    var held: bool       // the pagelock belongs to the thread at hand
    var status: Status

    constructor ()
      ensures flink == null && blink == null && !held
    {
      flink, blink, held, status := null, null, false, Free;
    }
  }

  // ----- lists as sequences ----------------------------------------------------

  /** c without the pages in gone, in the same order. */
  function Without(c: seq<Page>, gone: set<Page>): seq<Page> {
    if c == [] then [] else (if c[0] in gone then [] else [c[0]]) + Without(c[1..], gone)
  }

  lemma {:induction false} WithoutMember(c: seq<Page>, gone: set<Page>, p: Page)
    ensures p in Without(c, gone) <==> p in c && p !in gone
  {
    if c != [] {
      WithoutMember(c[1..], gone, p);
      assert p in c <==> p == c[0] || p in c[1..];
    }
  }

  function Reversed(c: seq<Page>): (r: seq<Page>)
    ensures |r| == |c| && forall i :: 0 <= i < |c| ==> r[i] == c[|c| - 1 - i]
  {
    if c == [] then [] else Reversed(c[1..]) + [c[0]]
  }

  lemma {:induction false} WithoutConcat(a: seq<Page>, b: seq<Page>, gone: set<Page>)
    ensures Without(a + b, gone) == Without(a, gone) + Without(b, gone)
  {
    if a == [] {
      assert a + b == b;
    } else {
      assert (a + b)[1..] == a[1..] + b;
      WithoutConcat(a[1..], b, gone);
    }
  }

  lemma {:induction false} WithoutTwice(c: seq<Page>, gone: set<Page>, more: set<Page>)
    ensures Without(Without(c, gone), more) == Without(c, gone + more)
  {
    if c != [] {
      WithoutTwice(c[1..], gone, more);
      WithoutConcat(if c[0] in gone then [] else [c[0]], Without(c[1..], gone), more);
    }
  }

  lemma {:induction false} WithoutStrangers(c: seq<Page>, gone: set<Page>)
    requires forall p :: p in c ==> p !in gone
    ensures Without(c, gone) == c
  {
    if c != [] {
      WithoutStrangers(c[1..], gone);
      assert c == [c[0]] + c[1..];
    }
  }

  lemma WithoutMembers(c: seq<Page>, gone: set<Page>)
    ensures forall i :: 0 <= i < |Without(c, gone)| ==> Without(c, gone)[i] in c && Without(c, gone)[i] !in gone
  {
    var r := Without(c, gone);
    forall i | 0 <= i < |r| ensures r[i] in c && r[i] !in gone { WithoutMember(c, gone, r[i]); }
  }

  lemma {:induction false} WithoutOne(c: seq<Page>, i: nat, p: Page)
    requires Distinct(c) && i < |c| && c[i] == p
    ensures Without(c, {p}) == c[..i] + c[i + 1..]
  {
    if i == 0 {
      WithoutStrangers(c[1..], {p});
    } else {
      calc {
        Without(c, {p});
        [c[0]] + Without(c[1..], {p});
        { WithoutOne(c[1..], i - 1, p); }
        [c[0]] + (c[1..][..i - 1] + c[1..][i..]);
        c[..i] + c[i + 1..];
      }
    }
  }

  /** What other threads did to a list: `added` went in at the head, `removed`
      came out.  A page that was removed can be among those added again. */
  datatype Change = Change(added: seq<Page>, removed: set<Page>)

  const NO_CHANGE := Change([], {})

  function After(c: seq<Page>, d: Change): seq<Page> {
    d.added + Without(c, d.removed)
  }

  function Then(d: Change, e: Change): Change {
    Change(e.added + Without(d.added, e.removed), d.removed + e.removed)
  }

  lemma AfterThen(c: seq<Page>, d: Change, e: Change)
    ensures After(c, Then(d, e)) == After(After(c, d), e)
  {
    WithoutConcat(d.added, Without(c, d.removed), e.removed);
    WithoutTwice(c, d.removed, e.removed);
  }

  lemma AfterNoChange(c: seq<Page>)
    ensures After(c, NO_CHANGE) == c
  {
    WithoutStrangers(c, {});
  }

  lemma ThenAssociates(c: Change, d: Change, e: Change)
    ensures Then(Then(c, d), e) == Then(c, Then(d, e))
  {
    AfterThen(c.added, d, e);
  }

  /** Several changes, one after the other. */
  function Fold(log: seq<Change>): Change {
    if log == [] then NO_CHANGE else Then(Fold(log[..|log| - 1]), log[|log| - 1])
  }

  lemma {:induction false} FoldConcat(a: seq<Change>, b: seq<Change>)
    ensures Fold(a + b) == Then(Fold(a), Fold(b))
  {
    if b == [] {
      assert a + b == a;
      AfterNoChange(Fold(a).added);
    } else {
      var front, last := b[..|b| - 1], b[|b| - 1];
      assert (a + b)[..|a + b| - 1] == a + front;
      FoldConcat(a, front);
      ThenAssociates(Fold(a), Fold(front), last);
    }
  }

  /** The log went on from `start`, and what was noted since adds up to d. */
  predicate Notes(start: seq<Change>, log: seq<Change>, d: Change) {
    |start| <= |log| && log[..|start|] == start && Fold(log[|start|..]) == d
  }

  lemma NotesNone(log: seq<Change>)
    ensures Notes(log, log, NO_CHANGE)
  {
  }

  lemma NotesOne(log: seq<Change>, d: Change)
    ensures Notes(log, log + [d], d)
  {
    assert (log + [d])[|log|..] == [d] && [d][..0] == [];
    assert Fold([d]) == Then(NO_CHANGE, d);
  }

  lemma NotesThen(start: seq<Change>, log: seq<Change>, more: seq<Change>, d: Change, e: Change)
    requires Notes(start, log, d) && Notes(log, more, e)
    ensures Notes(start, more, Then(d, e))
  {
    assert more[|start|..] == log[|start|..] + more[|log|..];
    FoldConcat(log[|start|..], more[|log|..]);
  }

  /** At some moment up to now the changes noted added up to d. */
  ghost predicate ByThen(start: seq<Change>, log: seq<Change>, d: Change) {
    exists k: nat :: k <= |log| && Notes(start, log[..k], d)
  }

  lemma ByThenWas(start: seq<Change>, mid: seq<Change>, log: seq<Change>, d: Change, e: Change)
    requires Notes(start, mid, d) && Notes(mid, log, e)
    ensures ByThen(start, log, d)
  {
    assert log[..|mid|] == mid;
  }

  /** An attempt to lock a page failed, after the thread had seen the page when
      the log was that long. */
  datatype Miss = Miss(page: Page, seen: nat)

  /** The page was on the list then; `was` is the list when the log was `start`. */
  predicate Missed(was: seq<Page>, start: seq<Change>, log: seq<Change>, miss: Miss) {
    |start| <= miss.seen <= |log| && miss.page in After(was, Fold(log[|start|..miss.seen]))
  }

  predicate AllMissed(was: seq<Page>, start: seq<Change>, log: seq<Change>, misses: seq<Miss>, b: nat) {
    b <= |misses| && forall k :: b <= k < |misses| ==> Missed(was, start, log, misses[k])
  }

  lemma AllMissedStays(was: seq<Page>, start: seq<Change>, log: seq<Change>, more: seq<Change>, misses: seq<Miss>,
                       b: nat)
    requires AllMissed(was, start, log, misses, b) && log <= more
    ensures AllMissed(was, start, more, misses, b)
  {
    forall k | b <= k < |misses| ensures Missed(was, start, more, misses[k]) {
      assert Missed(was, start, log, misses[k]);
      assert more[|start|..misses[k].seen] == log[|start|..misses[k].seen];
    }
  }

  /** The list is now as d has left it; if an attempt fails it is for one of its pages. */
  lemma MissedMore(was: seq<Page>, start: seq<Change>, log: seq<Change>, more: seq<Change>, misses: seq<Miss>,
                   longer: seq<Miss>, b: nat, d: Change, p: Page)
    requires AllMissed(was, start, log, misses, b) && Notes(start, log, d) && log <= more && p in After(was, d)
    requires longer == misses || longer == misses + [Miss(p, |log|)]
    ensures AllMissed(was, start, more, longer, b)
  {
    AllMissedStays(was, start, log, more, misses, b);
    assert more[|start|..|log|] == log[|start|..];
  }

  /** The change leaves the given pages alone. */
  ghost predicate Spares(d: Change, mine: set<Page>) {
    (forall p :: p in d.added ==> p !in mine) && d.removed !! mine
  }

  // ----- the list ------------------------------------------------------------------

  class PageList {
    const head: Page
    const tail: Page
    const pool: seq<Page>        // all pages there are
    var length: int              // list_length
    var contents: seq<Page>      // auxiliary: the pages from head to tail; never read by an operation
    ghost var log: seq<Change>   // what other threads did to the list
    ghost var misses: seq<Miss>  // attempts to lock the next page that failed

    ghost function Everything(): set<Page> {
      Elements(pool) + {head, tail}
    }

    ghost function Nodes(): seq<Page>
      reads `contents
    {
      [head] + contents + [tail]
    }

    /** Forward and backward links are inverse to each other and run through
        the contents. */
    ghost predicate Linked()
      reads `contents, Everything()`flink, Everything()`blink
    {
      && Distinct(Nodes()) && head !in pool && tail !in pool
      && (forall i :: 0 <= i < |contents| ==> contents[i] in pool)
      && Chained(Nodes())
    }

    ghost predicate Valid()
      reads `contents, `length, Everything()`flink, Everything()`blink
    {
      Linked() && length == |contents|
    }

    /** An empty list over a pool of pages. */
    constructor (pool: seq<Page>)
      ensures Valid() && contents == [] && this.pool == pool
      ensures fresh(head) && fresh(tail) && !head.held && !tail.held
    {
      var h := new Page();
      var t := new Page();
      head, tail, this.pool := h, t, pool;
      length, contents := 0, [];
      log, misses := [], [];
      new;
      head.flink, head.blink := tail, tail;
      tail.flink, tail.blink := head, head;
    }

    // ----- pagelocks -------------------------------------------------------------------

    /** Fails on a page the thread holds already, and may fail on any other. */
    method TryLock(p: Page) returns (ok: bool)
      requires Linked()
      modifies p`held
      ensures Linked()
      ensures p.held == (old(p.held) || ok) && (ok ==> !old(p.held))
    {
      ok := *;
      if p.held { ok := false; }
      if ok { p.held := true; }
    }

    method Release(p: Page)
      requires Linked()
      modifies p`held
      ensures Linked() && !p.held
    {
      p.held := false;
    }

    lemma Neighbours(p: Page)
      requires Linked() && p in contents
      ensures p.flink in Everything() && p.blink in Everything()
      ensures p.flink != p && p.blink != p && p.flink != p.blink
    {
      var i := Position(contents, p);
      assert Nodes()[i + 1] == p && p.blink == Nodes()[i] && p.flink == Nodes()[i + 2];
    }

    // ----- pointer surgery ----------------------------------------------------------------

    /** Takes contents[lo..hi] out, between its neighbours. */
    method Bridge(behind: Page, ahead: Page, lo: nat, hi: nat)
      requires Linked() && lo <= hi <= |contents| && behind == Nodes()[lo] && ahead == Nodes()[hi + 1]
      modifies `contents, behind`flink, ahead`blink
      ensures Linked() && contents == old(contents[..lo] + contents[hi..])
    {
      ghost var left, right := Nodes()[..lo + 1], Nodes()[hi + 1..];
      DistinctEnds(Nodes(), lo + 1, hi + 1);
      Join(behind, ahead, left, right);
      contents := contents[..lo] + contents[hi..];
      assert Nodes() == left + right;
    }

    /** Takes one page out. */
    method TakeOut(p: Page, ahead: Page, behind: Page)
      requires Linked() && p in contents && ahead == p.flink && behind == p.blink
      modifies this`contents, behind`flink, ahead`blink, p`flink, p`blink
      ensures Linked() && contents == Without(old(contents), {p}) && |contents| == |old(contents)| - 1
      ensures p.flink == null && p.blink == null
      ensures StrangersKept(old(contents))
    {
      var i := Position(contents, p);
      assert Distinct(contents) by { assert forall j :: 0 <= j < |contents| ==> contents[j] == Nodes()[j + 1]; }
      WithoutOne(contents, i, p);
      assert Nodes()[i] == behind && Nodes()[i + 1] == p && Nodes()[i + 2] == ahead;
      Bridge(behind, ahead, i, i + 1);
      assert p !in Nodes();
      p.flink, p.blink := null, null;
    }

    /** Puts a chain of pages in at the head. */
    method PutIn(front: Page, beginning: Page, end: Page, section: seq<Page>)
      requires Linked() && front == head.flink && Chained(section)
      requires |section| > 0 && beginning == section[0] && end == section[|section| - 1]
      requires Distinct(section) && forall p :: p in section ==> p in pool && p !in contents
      modifies this`contents, head`flink, front`blink, beginning`blink, end`flink
      ensures Linked() && contents == section + old(contents)
    {
      ghost var nodes := Nodes();
      assert nodes[0] == head && front == nodes[1];
      DistinctConcat(nodes[..1], nodes[1..], section);
      head.flink := beginning;
      front.blink := end;
      beginning.blink := head;
      end.flink := front;
      contents := section + contents;
      assert Nodes() == [head] + section + nodes[1..];
      ChainedConcat([head], section);
      ChainedConcat([head] + section, nodes[1..]);
    }

    // ----- other threads --------------------------------------------------------------------

    method OtherInserts(q: Page)
      requires Linked() && q in pool && q !in contents
      modifies this`contents, this`length, Everything()
      ensures Linked() && contents == After(old(contents), Change([q], {}))
      ensures length == old(length) + 1 && |contents| == |old(contents)| + 1
      ensures LocksKept()
      ensures LinksKept({q, head, old(head.flink)}) && StrangersKept([q] + old(contents))
    {
      WithoutStrangers(contents, {});
      assert Nodes()[0] == head && Nodes()[1] in Everything();
      PutIn(head.flink, q, q, [q]);
      length := length + 1;
    }

    method OtherUnlinks(q: Page)
      requires Linked() && q in contents
      modifies this`contents, this`length, Everything()
      ensures Linked() && contents == After(old(contents), Change([], {q}))
      ensures length == old(length) - 1 && |contents| == |old(contents)| - 1
      ensures LocksKept()
      ensures LinksKept({q, old(q.flink), old(q.blink)}) && StrangersKept(old(contents))
    {
      var i := Position(contents, q);
      assert Nodes()[i + 1] == q && Nodes()[i] in Everything() && Nodes()[i + 2] in Everything();
      TakeOut(q, q.flink, q.blink);
      length := length - 1;
    }

    /** Pages of the pool that are not among c keep their links. */
    twostate predicate StrangersKept(c: seq<Page>)
      reads Everything()`flink, Everything()`blink
    {
      forall p :: p in pool && p !in c ==> p.flink == old(p.flink) && p.blink == old(p.blink)
    }

    /** No links were written but those of the given pages. */
    twostate predicate LinksKept(new written: set<Page?>)
      reads Everything()`flink, Everything()`blink
    {
      forall p :: p in Everything() && p !in written ==> p.flink == old(p.flink) && p.blink == old(p.blink)
    }

    /** Pages of `mine` that were on no list are on none, with their links as
        they were. */
    twostate predicate MineKept(mine: set<Page>)
      reads `contents, Everything()`flink, Everything()`blink
    {
      forall p :: p in mine && p in pool && p !in old(contents) ==>
        p !in contents && p.flink == old(p.flink) && p.blink == old(p.blink)
    }

    /** The links of a locked page stay. */
    twostate predicate HeldLinksKept()
      reads Everything()
    {
      forall p :: p in Everything() && p.held ==> p.flink == old(p.flink) && p.blink == old(p.blink)
    }

    twostate predicate LocksKept()
      reads Everything()`held
    {
      forall p :: p in Everything() ==> p.held == old(p.held)
    }

    /** While the list lock is free: any number of times another thread puts a
        page in at the head, or unlinks a page it holds.  It does not touch
        the pages in `mine`, except to change a link to a neighbour. */
    method Meanwhile(mine: set<Page>) returns (ghost d: Change)
      requires Linked()
      modifies `contents, `length, `log, Everything()
      ensures Notes(old(log), log, d)
      ensures Linked() && contents == After(old(contents), d) && Spares(d, mine)
      ensures length - |contents| == old(length - |contents|)
      ensures LocksKept() && MineKept(mine)
    {
      d := NO_CHANGE;
      AfterNoChange(contents);
      var n: nat := *;
      while n > 0
        invariant Linked() && contents == After(old(contents), d) && Spares(d, mine) && log == old(log)
        invariant length - |contents| == old(length - |contents|)
        invariant LocksKept() && MineKept(mine)
      {
        ghost var e := NO_CHANGE;
        ghost var before := contents;
        var k: nat := *;
        var insert: bool := *;
        if insert && 0 <= k < |pool| && pool[k] !in mine && pool[k] !in contents {
          e := Change([pool[k]], {});
          OtherInserts(pool[k]);
        } else if !insert && 0 <= k < |contents| && contents[k] !in mine {
          e := Change([], {contents[k]});
          OtherUnlinks(contents[k]);
        } else {
          AfterNoChange(contents);
        }
        assert contents == After(before, e);
        WithoutMembers(before, e.removed);
        WithoutMembers(d.added, e.removed);
        AfterThen(old(contents), d, e);
        d := Then(d, e);
        n := n - 1;
      }
      NotesOne(log, d);
      log := log + [d];
    }

    /** One step of another thread that shares the list lock.  It holds the locks
        of all pages whose links it writes, so this thread holds none of them. */
    method OtherShares(mine: set<Page>) returns (ghost e: Change)
      requires Linked()
      modifies `contents, `length, Everything()
      ensures Linked() && contents == After(old(contents), e) && Spares(e, mine)
      ensures length - |contents| == old(length - |contents|)
      ensures LocksKept() && MineKept(mine) && HeldLinksKept()
    {
      e := NO_CHANGE;
      AfterNoChange(contents);
      assert Nodes()[0] == head && Nodes()[1] in Everything();
      var k: nat := *;
      var insert: bool := *;
      if insert && 0 <= k < |pool| && pool[k] !in mine && pool[k] !in contents {
        if !pool[k].held && !head.held && !head.flink.held {
          e := Change([pool[k]], {});
          OtherInserts(pool[k]);
        }
      } else if !insert && 0 <= k < |contents| && contents[k] !in mine {
        Neighbours(contents[k]);
        if !contents[k].held && !contents[k].flink.held && !contents[k].blink.held {
          e := Change([], {contents[k]});
          StrangersStay(contents, {contents[k]});
          OtherUnlinks(contents[k]);
        }
      }
    }

    /** What others have done since `was`, without touching the pages in mine. */
    ghost predicate Since(was: seq<Page>, start: seq<Change>, d: Change, mine: set<Page>)
      reads `contents, `log
    {
      contents == After(was, d) && Notes(start, log, d) && Spares(d, mine)
    }

    lemma SinceNow(mine: set<Page>)
      ensures Since(contents, log, NO_CHANGE, mine)
    {
      AfterNoChange(contents);
      NotesNone(log);
    }

    /** While this thread shares the list lock: any number of steps of others
        that share it too. */
    method Pause(mine: set<Page>, ghost was: seq<Page>, ghost start: seq<Change>, ghost d0: Change)
      returns (ghost d: Change)
      requires Linked() && Since(was, start, d0, mine)
      modifies `contents, `length, `log, Everything()
      ensures Linked() && Since(was, start, d, mine)
      ensures length - |contents| == old(length - |contents|)
      ensures LocksKept() && MineKept(mine) && HeldLinksKept()
    {
      d := d0;
      var n: nat := *;
      while n > 0
        invariant Linked() && Since(was, start, d, mine)
        invariant length - |contents| == old(length - |contents|)
        invariant LocksKept() && MineKept(mine) && HeldLinksKept()
      {
        ghost var before, e := log, NO_CHANGE;
        e := OtherShares(mine);
        NotesOne(log, e);
        log := log + [e];
        SinceThen(was, start, before, d, e, mine);
        d := Then(d, e);
        n := n - 1;
      }
    }

    lemma SinceThen(was: seq<Page>, start: seq<Change>, before: seq<Change>, d: Change, e: Change, mine: set<Page>)
      requires Notes(start, before, d) && Notes(before, log, e) && contents == After(After(was, d), e)
      requires Spares(d, mine) && Spares(e, mine)
      ensures Since(was, start, Then(d, e), mine)
    {
      AfterThen(was, d, e);
      NotesThen(start, before, log, d, e);
      SparesThen(d, e, mine);
    }

    // ----- unlinking scattered pages ---------------------------------------------------------

    /** Has locked the given pages on top. */
    twostate predicate LockedToo(new taken: set<Page>)
      reads Everything()`held
    {
      forall p :: p in Everything() ==> (p.held <==> old(p.held) || p in taken) && !(old(p.held) && p in taken)
    }

    /** A page of this thread while it tries for the neighbours' locks. */
    ghost predicate Held(p: Page, was: seq<Page>, start: seq<Change>, d: Change, mine: set<Page>)
      reads `contents, `log, Everything()
    {
      Linked() && Since(was, start, d, mine) && p in was && p in mine && p in Everything() && p.held
    }

    /** Others at work, who cannot take a held page's neighbours away. */
    method PauseNextTo(p: Page, mine: set<Page>, ghost was: seq<Page>, ghost start: seq<Change>, ghost d0: Change)
      returns (ghost d: Change)
      requires Held(p, was, start, d0, mine)
      modifies `contents, `length, `log, Everything()
      ensures Held(p, was, start, d, mine) && p.flink == old(p.flink) && p.blink == old(p.blink)
      ensures p.flink in Everything() && p.blink in Everything()
      ensures length - |contents| == old(length - |contents|) && LocksKept() && MineKept(mine)
    {
      d := Pause(mine, was, start, d0);
      StillIn(was, d, p);
      Neighbours(p);
    }

    method TryLockNextTo(q: Page, p: Page, mine: set<Page>,
                         ghost was: seq<Page>, ghost start: seq<Change>, ghost d: Change) returns (ok: bool)
      requires Held(p, was, start, d, mine)
      modifies q`held
      ensures Held(p, was, start, d, mine) && q.held == (old(q.held) || ok) && (ok ==> !old(q.held) && q != p)
    {
      ok := TryLock(q);
    }

    method FindNeighbours(p: Page, mine: set<Page>, ghost was: seq<Page>, ghost start: seq<Change>, ghost d0: Change)
      returns (ahead: Page, behind: Page, ghost d: Change)
      requires Held(p, was, start, d0, mine)
      modifies `contents, `length, `log, Everything()
      ensures Held(p, was, start, d, mine) && ahead == p.flink && behind == p.blink
      ensures ahead in Everything() && behind in Everything()
      ensures length - |contents| == old(length - |contents|) && LocksKept() && MineKept(mine)
    {
      hide Held;
      d := PauseNextTo(p, mine, was, start, d0);
      ahead := p.flink;
      d := PauseNextTo(p, mine, was, start, d);
      behind := p.blink;
      d := PauseNextTo(p, mine, was, start, d);
    }

    /** Tries to lock both neighbours of a page this thread holds, which keeps them
        as long.  A neighbour still to come in the batch is locked already. */
    method LockNeighbours(p: Page, ahead: Page, behind: Page, rest: seq<Page>, mine: set<Page>,
                          ghost was: seq<Page>, ghost start: seq<Change>, ghost d0: Change)
      returns (ok: bool, taken: set<Page>, ghost d: Change)
      requires Held(p, was, start, d0, mine) && ahead == p.flink && behind == p.blink
      requires ahead in Everything() && behind in Everything()
      modifies `contents, `length, `log, Everything()
      ensures Held(p, was, start, d, mine) && ahead == p.flink && behind == p.blink
      ensures length - |contents| == old(length - |contents|) && MineKept(mine)
      ensures LockedToo(taken) && taken <= {ahead, behind} && (!ok ==> taken == {})
      ensures ok ==> (ahead in taken || ahead in rest) && (behind in taken || behind in rest)
    {
      hide Held;
      d, taken, ok := d0, {}, false;
      var lockedAhead := TryLockNextTo(ahead, p, mine, was, start, d);
      if lockedAhead || ahead in rest {
        taken := if lockedAhead then {ahead} else {};
        ok, taken, d := LockBehind(p, behind, rest, taken, mine, was, start, d);
        if !ok && lockedAhead {
          ReleaseNextTo(ahead, p, mine, was, start, d);
          taken := {};
        }
      }
    }

    method LockBehind(p: Page, behind: Page, rest: seq<Page>, first: set<Page>, mine: set<Page>,
                      ghost was: seq<Page>, ghost start: seq<Change>, ghost d0: Change)
      returns (ok: bool, taken: set<Page>, ghost d: Change)
      requires Held(p, was, start, d0, mine) && behind in Everything()
      requires forall q :: q in first ==> q in Everything() && q.held
      modifies `contents, `length, `log, Everything()
      ensures Held(p, was, start, d, mine) && p.flink == old(p.flink) && p.blink == old(p.blink)
      ensures length - |contents| == old(length - |contents|) && MineKept(mine)
      ensures taken <= first + {behind} && first <= taken && (ok ==> behind in taken || behind in rest)
      ensures LockedToo(taken - first) && (!ok ==> taken == first)
    {
      hide Held;
      taken, ok := first, false;
      d := PauseNextTo(p, mine, was, start, d0);
      var lockedBehind := TryLockNextTo(behind, p, mine, was, start, d);
      if lockedBehind || behind in rest {
        ok := true;
        taken := first + if lockedBehind then {behind} else {};
      }
    }

    method ReleaseNextTo(q: Page, p: Page, mine: set<Page>,
                         ghost was: seq<Page>, ghost start: seq<Change>, ghost d: Change)
      requires Held(p, was, start, d, mine) && q != p
      modifies q`held
      ensures Held(p, was, start, d, mine) && !q.held
    {
      Release(q);
    }

    /** Takes a page out whose neighbours are locked, and releases those. */
    method TakeOutLocked(p: Page, ahead: Page, behind: Page, taken: set<Page>)
      requires Linked() && p in contents && ahead == p.flink && behind == p.blink && taken <= {ahead, behind}
      modifies `contents, Everything()
      ensures Linked() && contents == Without(old(contents), {p}) && |contents| == |old(contents)| - 1
      ensures p.flink == null && p.blink == null && StrangersKept(old(contents))
      ensures forall q :: q in Everything() ==> q.held == (old(q.held) && q !in taken)
    {
      Neighbours(p);
      TakeOut(p, ahead, behind);
      if ahead in taken { Release(ahead); }
      if behind in taken { Release(behind); }
    }

    /** One turn of the first phase: `rest` are the pages of the batch still to
        come, whose locks the thread holds. */
    method UnlinkShared(p: Page, rest: seq<Page>, mine: set<Page>,
                        ghost was: seq<Page>, ghost start: seq<Change>, ghost d0: Change)
      returns (blocked: bool, ghost d: Change)
      requires Linked() && Since(was, start, d0, mine) && p in was && p in mine && p.held
      modifies `contents, `length, `log, Everything()
      ensures Notes(start, log, d) && Spares(d, mine)
      ensures Linked() && LocksKept() && MineKept(mine)
      ensures contents == if blocked then After(was, d) else Without(After(was, d), {p})
      ensures length - |contents| == old(length - |contents|) + if blocked then 0 else 1
      ensures !blocked ==> p.flink == null && p.blink == null
    {
      StillIn(was, d0, p);
      var ahead, behind;
      ahead, behind, d := FindNeighbours(p, mine, was, start, d0);
      var ok, taken;
      ok, taken, d := LockNeighbours(p, ahead, behind, rest, mine, was, start, d);
      blocked := !ok;
      if ok {
        StillIn(was, d, p);
        StrangersStay(contents, {p});
        TakeOutLocked(p, ahead, behind, taken);
      }
    }

    ghost predicate Batch(was: seq<Page>, batch: seq<Page>) {
      Distinct(batch) && forall p :: p in batch ==> p in was && p in pool
    }

    /** The first i pages of the batch have left the list that was `was`, to which
        others have done d in the meantime.  Their links are cleared. */
    ghost predicate Left(was: seq<Page>, d: Change, batch: seq<Page>, i: int)
      reads `contents, Everything()`flink, Everything()`blink
    {
      && 0 <= i <= |batch| && Linked() && Batch(was, batch) && Spares(d, Elements(batch))
      && contents == Without(After(was, d), Elements(batch[..i]))
      && forall k :: 0 <= k < i ==> batch[k].flink == null && batch[k].blink == null
    }

    method TurnShared(batch: seq<Page>, i: nat, ghost was: seq<Page>, ghost start: seq<Change>, ghost d0: Change)
      returns (blocked: bool, ghost d: Change)
      requires Left(was, d0, batch, i) && Notes(start, log, d0) && i < |batch| && forall p :: p in batch ==> p.held
      modifies `contents, `length, `log, Everything()
      ensures Left(was, d, batch, if blocked then i else i + 1) && Notes(start, log, d) && LocksKept()
      ensures length - |contents| == old(length - |contents|) + if blocked then 0 else 1
    {
      hide Without, Fold, Notes, Chained;
      ghost var before, here := log, contents;
      StillThere(was, d0, batch);
      RestOfBatch(After(was, d0), batch, i);
      FirstAreOut(After(was, d0), batch, i);
      SinceNow(Elements(batch));
      ghost var e;
      blocked, e := UnlinkShared(batch[i], batch[i + 1..], Elements(batch), here, before, NO_CHANGE);
      NotesThen(start, before, log, d0, e);
      SparesThen(d0, e, Elements(batch));
      TurnMade(was, d0, e, batch, i);
      d := Then(d0, e);
    }

    method TurnAlone(batch: seq<Page>, i: nat, ghost was: seq<Page>, ghost d: Change)
      requires Left(was, d, batch, i) && i < |batch|
      modifies `contents, Everything()
      ensures Left(was, d, batch, i + 1) && LocksKept() && |contents| == |old(contents)| - 1
    {
      StillThere(was, d, batch);
      RestOfBatch(After(was, d), batch, i);
      FirstAreOut(After(was, d), batch, i);
      OneMore(After(was, d), batch, i);
      Neighbours(batch[i]);
      TakeOut(batch[i], batch[i].flink, batch[i].blink);
    }

    lemma NoneLeft(batch: seq<Page>)
      requires Linked() && Batch(contents, batch)
      ensures Left(contents, NO_CHANGE, batch, 0)
    {
      AfterNoChange(contents);
      WithoutStrangers(contents, {});
      assert Elements(batch[..0]) == {};
    }

    /** The first phase, with others who share the list lock at work.  It stops
        at the first page with a neighbour that cannot be locked. */
    method UnlinkWhileShared(batch: seq<Page>) returns (i: nat, ghost d: Change)
      requires Linked() && Batch(contents, batch) && forall p :: p in batch ==> p.held
      modifies `contents, `length, `log, Everything()
      ensures Left(old(contents), d, batch, i) && Notes(old(log), log, d) && LocksKept()
      ensures length - |contents| == old(length - |contents|) + i
    {
      NoneLeft(batch);
      NotesNone(log);
      i, d := 0, NO_CHANGE;
      while i < |batch|
        invariant Left(old(contents), d, batch, i) && Notes(old(log), log, d) && LocksKept()
        invariant length - |contents| == old(length - |contents|) + i
      {
        hide Left, Notes;
        var blocked;
        blocked, d := TurnShared(batch, i, old(contents), old(log), d);
        if blocked { break; }
        i := i + 1;
      }
    }

    /** The second phase needs no locks. */
    method UnlinkAlone(batch: seq<Page>, start: nat, ghost was: seq<Page>, ghost d: Change)
      requires Left(was, d, batch, start)
      modifies `contents, Everything()
      ensures Left(was, d, batch, |batch|) && LocksKept()
      ensures |contents| == |old(contents)| - (|batch| - start)
    {
      var i := start;
      while i < |batch|
        invariant start <= i <= |batch| && Left(was, d, batch, i) && LocksKept()
        invariant |contents| == |old(contents)| - (i - start)
      {
        hide Left;
        TurnAlone(batch, i, was, d);
        i := i + 1;
      }
    }

    /** Between the phases the list lock is free. */
    method LetGo(batch: seq<Page>, i: nat, ghost was: seq<Page>, ghost start: seq<Change>, ghost d0: Change)
      returns (ghost d: Change)
      requires Left(was, d0, batch, i) && Notes(start, log, d0)
      modifies `contents, `length, `log, Everything()
      ensures Left(was, d, batch, i) && Notes(start, log, d) && LocksKept()
      ensures length - |contents| == old(length - |contents|)
    {
      ghost var before := log;
      FirstAreOut(After(was, d0), batch, i);
      ghost var e := Meanwhile(Elements(batch));
      NotesThen(start, before, log, d0, e);
      SparesThen(d0, e, Elements(batch));
      SparesFewer(e, batch, i);
      SparedCommutes(After(was, d0), Elements(batch[..i]), e);
      AfterThen(was, d0, e);
      d := Then(d0, e);
    }

    /** unlink_batch_scattered_pages.  Whatever the try-locks say, wherever the
        first phase stops and whatever others do in either phase: the pages
        are gone, the rest of the list is in order, the pagelocks are as
        before. */
    method UnlinkBatch(batch: seq<Page>) returns (ghost d: Change)
      requires Valid() && Batch(contents, batch) && forall p :: p in batch ==> p.held
      modifies `contents, `length, `log, Everything()
      ensures Notes(old(log), log, d)
      ensures Valid() && LocksKept() && Spares(d, Elements(batch))
      ensures forall k :: 0 <= k < |batch| ==> batch[k].flink == null && batch[k].blink == null
      ensures contents == Without(After(old(contents), d), Elements(batch))
    {
      d := NO_CHANGE;
      NotesNone(log);
      assert batch[..|batch|] == batch;
      if |batch| == 0 {
        NoneLeft(batch);
      } else {
        var i;
        i, d := UnlinkWhileShared(batch);
        if i < |batch| {
          d := LetGo(batch, i, old(contents), old(log), d);
          UnlinkAlone(batch, i, old(contents), d);
        }
        length := length - |batch|;
      }
    }

    /** unlink_page, for a page the thread holds. */
    method UnlinkPage(p: Page) returns (ghost d: Change)
      requires Valid() && p in contents && p.held
      modifies `contents, `length, `log, Everything()
      ensures Notes(old(log), log, d)
      ensures Valid() && LocksKept() && Spares(d, {p})
      ensures contents == Without(After(old(contents), d), {p})
      ensures p.flink == null && p.blink == null
    {
      SinceNow({p});
      var blocked;
      blocked, d := UnlinkShared(p, [], {p}, contents, log, NO_CHANGE);
      if blocked {
        d := UnlinkPageAlone(p, old(contents), old(log), d);
      }
      length := length - 1;
    }

    method UnlinkPageAlone(p: Page, ghost was: seq<Page>, ghost start: seq<Change>, ghost d0: Change)
      returns (ghost d: Change)
      requires Linked() && p in was && Since(was, start, d0, {p})
      modifies `contents, `length, `log, Everything()
      ensures Notes(start, log, d)
      ensures Linked() && LocksKept() && Spares(d, {p})
      ensures contents == Without(After(was, d), {p}) && length - |contents| == old(length - |contents|) + 1
      ensures p.flink == null && p.blink == null
    {
      hide Without, Fold, Notes, Chained;
      ghost var before := log;
      ghost var e := Meanwhile({p});
      SinceThen(was, start, before, d0, e, {p});
      d := Then(d0, e);
      StillIn(was, d, p);
      Neighbours(p);
      TakeOut(p, p.flink, p.blink);
    }

    // ----- inserting a section -----------------------------------------------------------------

    /** insert_page_section, and with `release` off insert_page_section_no_release. */
    method InsertSection(section: seq<Page>, release: bool) returns (ghost d: Change)
      requires Valid() && Insertable(section)
      modifies `contents, `length, `log, Everything()
      ensures Notes(old(log), log, d)
      ensures Valid() && contents == section + After(old(contents), d) && Spares(d, Elements(section))
      ensures forall p :: p in Everything() ==> p.held == (old(p.held) && !(release && p in section))
    {
      var done;
      done, d := InsertShared(section);
      if !done {
        d := InsertAlone(section, old(contents), old(log), d);
      }
      length := length + |section|;
      if release {
        ReleaseSection(section);
      }
    }

    ghost predicate Insertable(section: seq<Page>)
      reads `contents, Elements(section)`flink, Elements(section)`blink
    {
      && |section| > 0 && Distinct(section) && Chained(section)
      && forall p :: p in section ==> p in pool && p !in contents
    }

    /** A section while its thread tries for the locks on the head and the front. */
    ghost predicate Inserting(section: seq<Page>, was: seq<Page>, start: seq<Change>, d: Change)
      reads `contents, `log, Everything(), Elements(section)`flink, Elements(section)`blink
    {
      Linked() && Insertable(section) && Since(was, start, d, Elements(section))
    }

    /** Others at work, who leave the section alone, and a locked head too. */
    method PauseWith(section: seq<Page>, ghost was: seq<Page>, ghost start: seq<Change>, ghost d0: Change)
      returns (ghost d: Change)
      requires Inserting(section, was, start, d0)
      modifies `contents, `length, `log, Everything()
      ensures Inserting(section, was, start, d)
      ensures length - |contents| == old(length - |contents|) && LocksKept()
      ensures head.held ==> head.flink == old(head.flink)
      ensures head.flink in Everything() && head.flink != head
    {
      d := Pause(Elements(section), was, start, d0);
      assert Nodes()[0] == head && Nodes()[1] in Everything() && Nodes()[1] != head;
    }

    method TryLockWith(q: Page, section: seq<Page>, ghost was: seq<Page>, ghost start: seq<Change>, ghost d: Change)
      returns (ok: bool)
      requires Inserting(section, was, start, d)
      modifies q`held
      ensures Inserting(section, was, start, d) && q.held == (old(q.held) || ok) && (ok ==> !old(q.held))
    {
      ok := TryLock(q);
    }

    /** What the first phase leaves. */
    ghost predicate Inserted(done: bool, section: seq<Page>, was: seq<Page>, start: seq<Change>, d: Change)
      reads `contents, `log, Everything(), Elements(section)`flink, Elements(section)`blink
    {
      if done then
        Linked() && contents == section + After(was, d) && Notes(start, log, d) && Spares(d, Elements(section))
      else
        Inserting(section, was, start, d)
    }

    /** The first phase: with the head and the front page locked. */
    method InsertShared(section: seq<Page>) returns (done: bool, ghost d: Change)
      requires Linked() && Insertable(section)
      modifies `contents, `length, `log, Everything()
      ensures Inserted(done, section, old(contents), old(log), d) && LocksKept()
      ensures length - |contents| == old(length - |contents|) - if done then |section| else 0
    {
      hide Inserting, Inserted, Insertable, Since, Linked;
      SinceNow(Elements(section));
      NothingDone(section);
      d := PauseWith(section, contents, log, NO_CHANGE);
      done := false;
      var lockedHead := TryLockWith(head, section, old(contents), old(log), d);
      if lockedHead {
        d := PauseWith(section, old(contents), old(log), d);
        var front: Page := head.flink;
        done, d := InsertBehindHead(section, front, old(contents), old(log), d);
        ReleaseInserted(head, done, section, old(contents), old(log), d);
      } else {
        NotInserted(section, old(contents), old(log), d);
      }
    }

    lemma NothingDone(section: seq<Page>)
      requires Linked() && Insertable(section) && Since(contents, log, NO_CHANGE, Elements(section))
      ensures Inserting(section, contents, log, NO_CHANGE)
    {
    }

    lemma NotInserted(section: seq<Page>, was: seq<Page>, start: seq<Change>, d: Change)
      requires Inserting(section, was, start, d)
      ensures Inserted(false, section, was, start, d)
    {
    }

    method InsertBehindHead(section: seq<Page>, front: Page,
                            ghost was: seq<Page>, ghost start: seq<Change>, ghost d0: Change)
      returns (done: bool, ghost d: Change)
      requires Inserting(section, was, start, d0)
      requires head.held && front == head.flink && front in Everything() && front != head
      modifies `contents, `length, `log, Everything()
      ensures Inserted(done, section, was, start, d) && LocksKept()
      ensures length - |contents| == old(length - |contents|) - if done then |section| else 0
    {
      hide Inserting, Inserted;
      d := PauseWith(section, was, start, d0);
      done := TryLockWith(front, section, was, start, d);
      if done {
        d := PauseWith(section, was, start, d);
        PutInFront(section, front, was, start, d);
        ReleaseInserted(front, true, section, was, start, d);
      } else {
        NotInserted(section, was, start, d);
      }
    }

    method PutInFront(section: seq<Page>, front: Page, ghost was: seq<Page>, ghost start: seq<Change>, ghost d: Change)
      requires Inserting(section, was, start, d) && front == head.flink
      modifies `contents, Everything()
      ensures Inserted(true, section, was, start, d) && LocksKept() && |contents| == |old(contents)| + |section|
    {
      assert Nodes()[0] == head && Nodes()[1] in Everything();
      PutIn(front, section[0], section[|section| - 1], section);
    }

    method ReleaseInserted(q: Page, ghost done: bool, ghost section: seq<Page>,
                           ghost was: seq<Page>, ghost start: seq<Change>, ghost d: Change)
      requires Inserted(done, section, was, start, d)
      modifies q`held
      ensures Inserted(done, section, was, start, d) && !q.held
    {
      q.held := false;
    }

    method InsertAlone(section: seq<Page>, ghost was: seq<Page>, ghost start: seq<Change>, ghost d0: Change)
      returns (ghost d: Change)
      requires Linked() && Insertable(section) && Since(was, start, d0, Elements(section))
      modifies `contents, `length, `log, Everything()
      ensures Linked() && LocksKept() && Notes(start, log, d) && Spares(d, Elements(section))
      ensures contents == section + After(was, d)
      ensures length - |contents| == old(length - |contents|) - |section|
    {
      ghost var before := log;
      ghost var e := Meanwhile(Elements(section));
      SinceThen(was, start, before, d0, e, Elements(section));
      d := Then(d0, e);
      assert Nodes()[0] == head && Nodes()[1] in Everything();
      PutIn(head.flink, section[0], section[|section| - 1], section);
    }

    /** Walks the section by its forward links. */
    method ReleaseSection(section: seq<Page>)
      requires Linked() && |section| > 0 && section <= contents
      modifies Everything()`held
      ensures Linked()
      ensures forall p :: p in Everything() ==> p.held == (old(p.held) && p !in section)
    {
      var curr, end := section[0], section[|section| - 1];
      ghost var k := 0;
      ghost var freed: set<Page> := {};
      while curr != end
        invariant 0 <= k < |section| && curr == section[k] && freed == Elements(section[..k])
        invariant forall p :: p in Everything() ==> p.held == (old(p.held) && p !in freed)
        decreases |section| - k
      {
        NextInSection(section, k);
        curr.held := false;
        freed := freed + {curr};
        curr := curr.flink;
        k := k + 1;
      }
      end.held := false;
      LastOfSection(section, k);
    }

    lemma NextInSection(section: seq<Page>, k: nat)
      requires Linked() && section <= contents && k + 1 < |section|
      ensures section[k].flink == section[k + 1] && section[k] in Everything()
      ensures Elements(section[..k + 1]) == Elements(section[..k]) + {section[k]}
    {
      assert Nodes()[k + 1] == section[k] && Nodes()[k + 2] == section[k + 1];
      assert section[..k + 1] == section[..k] + [section[k]];
    }

    lemma LastOfSection(section: seq<Page>, k: nat)
      requires Linked() && section <= contents && k < |section| && section[k] == section[|section| - 1]
      ensures Elements(section) == Elements(section[..k]) + {section[k]}
    {
      assert Nodes()[k + 1] == section[k] && Nodes()[|section|] == section[|section| - 1];
      assert k == |section| - 1;
      assert section == section[..k] + [section[k]];
    }

    // ----- popping a batch from the tail -----------------------------------------------------

    /** The pages the thread has locked are the oldest of the list. */
    ghost predicate Oldest(got: seq<Page>)
      reads `contents
    {
      EndsWith(contents, Reversed(got))
    }

    /** Who holds which lock, when the pages in got were locked on top. */
    twostate predicate Locked(new got: seq<Page>)
      reads Everything()`held
    {
      && (forall i :: 0 <= i < |got| ==> got[i] in pool)
      && (forall p :: p in Everything() ==> (p.held <==> old(p.held) || p in got) && !(old(p.held) && p in got))
    }

    /** What a batch of locked pages looks like while it grows. */
    twostate predicate Acquired(new got: seq<Page>, new d: Change)
      reads `contents, `length, `log, Everything()
    {
      && Linked() && contents == After(old(contents), d) && Notes(old(log), log, d)
         && length - |contents| == old(length - |contents|)
      && Oldest(got) && Locked(got)
    }

    /** One attempt to lock the page next to `curr` on the way to the head.
        Other threads are at work between the look and the lock, so the look
        is repeated under the lock. */
    method TryNext(curr: Page, mine: set<Page>) returns (found: seq<Page>, ghost d: Change)
      requires Linked() && curr in Everything() && curr.blink in pool
      modifies `contents, `length, `log, `misses, Everything()
      ensures misses == old(misses) + if found == [] then [Miss(old(curr.blink), |old(log)|)] else []
      ensures Notes(old(log), log, d)
      ensures Linked() && contents == After(old(contents), d) && Spares(d, mine)
      ensures length - |contents| == old(length - |contents|)
      ensures |found| <= 1 && Locked(found) && (|found| == 1 ==> found[0] == curr.blink)
    {
      var potential: Page := curr.blink;
      ghost var seen := |log|;
      d := Meanwhile(mine);
      found := [];
      var ok := TryLock(potential);
      if ok && potential == curr.blink {
        found := [potential];
      } else if ok {
        Release(potential);
      }
      if found == [] { misses := misses + [Miss(potential, seen)]; }
    }

    /** One attempt at the page next to the tail; d0 is what others have done to
        the list that was `was`. */
    method TryTail(ghost was: seq<Page>, ghost start: seq<Change>, ghost d0: Change)
      returns (got: seq<Page>, ghost d: Change)
      requires Linked() && contents == After(was, d0) && Notes(start, log, d0) && contents != []
      modifies `contents, `length, `log, `misses, Everything()
      ensures Linked() && contents == After(was, d) && Notes(start, log, d) && old(log) <= log
      ensures length - |contents| == old(length - |contents|)
      ensures misses == old(misses) + if got == [] then [Miss(old(contents[|contents| - 1]), |old(log)|)] else []
      ensures |got| <= 1 && Oldest(got) && Locked(got)
    {
      LastNode();
      ghost var e;
      got, e := TryNext(tail, {});
      LastNode();
      AfterThen(was, d0, e);
      NotesThen(start, old(log), log, d0, e);
      d := Then(d0, e);
    }

    /** acquire_list_tail_pagelock.  The source spins without end on a lock it
        cannot get; here `patience` bounds the failed attempts. */
    method AcquireTail(patience: nat) returns (got: seq<Page>, left: nat, ghost d: Change)
      requires Linked()
      modifies `contents, `length, `log, `misses, Everything()
      ensures Acquired(got, d) && |got| <= 1
      ensures left + |misses| == patience + |old(misses)|
      ensures AllMissed(old(contents), old(log), log, misses, |old(misses)|)
      ensures got == [] && left > 0 ==> contents == []
    {
      d := NO_CHANGE;
      AfterNoChange(contents);
      NotesNone(log);
      got, left := [], patience;
      while left > 0 && got == []
        invariant Acquired(got, d) && |got| <= 1 && left + |misses| == patience + |old(misses)|
        invariant AllMissed(old(contents), old(log), log, misses, |old(misses)|)
        decreases left, 1 - |got|
      {
        LastNode();
        if tail.blink == head { break; }
        ghost var before, missed, d0, p := log, misses, d, contents[|contents| - 1];
        got, d := TryTail(old(contents), old(log), d);
        MissedMore(old(contents), old(log), before, log, missed, misses, |old(misses)|, d0, p);
        if got == [] { left := left - 1; }
      }
    }

    lemma LastNode()
      requires Linked()
      ensures tail.blink == if contents == [] then head else contents[|contents| - 1]
      ensures contents != [] ==> tail.blink in pool
    {
      assert Nodes()[|contents| + 1] == tail && tail.blink == Nodes()[|contents|];
    }

    lemma BeforeOldest(got: seq<Page>)
      requires Linked() && |got| > 0 && Oldest(got)
      ensures got[|got| - 1] in pool
      ensures got[|got| - 1].blink == if |got| == |contents| then head else contents[|contents| - |got| - 1]
    {
      var i := |contents| - |got|;
      assert Reversed(got)[0] == got[|got| - 1] == contents[i..][0];
      assert Nodes()[i + 1] == got[|got| - 1] && got[|got| - 1].blink == Nodes()[i];
    }

    lemma OneOlder(got: seq<Page>)
      requires |got| < |contents| && Oldest(got)
      ensures Oldest(got + [contents[|contents| - |got| - 1]])
    {
      var i := |contents| - |got|;
      assert contents[i - 1..] == [contents[i - 1]] + contents[i..] == Reversed(got + [contents[i - 1]]);
    }

    lemma FoundIsOldest(got: seq<Page>, found: seq<Page>)
      requires Linked() && |got| > 0 && Oldest(got)
      requires |found| <= 1 && forall i :: 0 <= i < |found| ==> found[i] in pool && found[i] == got[|got| - 1].blink
      ensures Oldest(got + found)
    {
      BeforeOldest(got);
      if found == [] {
        assert got + found == got;
      } else {
        assert head !in pool && found[0] in pool;
        OneOlder(got);
        assert found == [contents[|contents| - |got| - 1]];
      }
    }

    /** acquire_batch_list_tail_pagelocks. */
    method AcquireBatch(n: nat, patience: nat) returns (got: seq<Page>, left: nat, ghost d: Change)
      requires Linked()
      modifies `contents, `length, `log, `misses, Everything()
      ensures Acquired(got, d) && |got| <= if n == 0 then 1 else n
      ensures left + |misses| == patience + |old(misses)|
      ensures AllMissed(old(contents), old(log), log, misses, |old(misses)|)
      ensures left > 0 ==> |got| >= n || |got| == |contents|
      ensures got == [] && left > 0 ==> contents == []
    {
      got, left, d := AcquireTail(patience);
      if got == [] { return; }
      BeforeOldest(got);
      while |got| < n && left > 0 && got[|got| - 1].blink != head
        invariant Acquired(got, d) && 0 < |got| <= (if n == 0 then 1 else n)
        invariant left + |misses| == patience + |old(misses)|
        invariant AllMissed(old(contents), old(log), log, misses, |old(misses)|)
        invariant got[|got| - 1].blink == if |got| == |contents| then head else contents[|contents| - |got| - 1]
        decreases left, n - |got|
      {
        var found: seq<Page>;
        ghost var before, missed, d0, p := log, misses, d, contents[|contents| - |got| - 1];
        found, d := NextOfBatch(got, old(contents), old(log), d);
        MissedMore(old(contents), old(log), before, log, missed, misses, |old(misses)|, d0, p);
        got := got + found;
        BeforeOldest(got);
        if found == [] { left := left - 1; }
      }
    }

    method NextOfBatch(got: seq<Page>, ghost was: seq<Page>, ghost start: seq<Change>, ghost d0: Change)
      returns (found: seq<Page>, ghost d: Change)
      requires Linked() && contents == After(was, d0) && Notes(start, log, d0) && 0 < |got| < |contents| && Oldest(got)
      modifies `contents, `length, `log, `misses, Everything()
      ensures Linked() && contents == After(was, d) && Notes(start, log, d) && old(log) <= log
      ensures length - |contents| == old(length - |contents|)
      ensures misses == old(misses)
                + if found == [] then [Miss(old(contents[|contents| - |got| - 1]), |old(log)|)] else []
      ensures |found| <= 1 && Oldest(got + found) && Locked(found)
    {
      BeforeOldest(got);
      ghost var e;
      found, e := TryNext(got[|got| - 1], Elements(got));
      OldestStay(old(contents), got, e);
      FoundIsOldest(got, found);
      AfterThen(was, d0, e);
      NotesThen(start, old(log), log, d0, e);
      d := Then(d0, e);
    }

    // ----- removing the batch ----------------------------------------------------------------

    /** remove_page_section, for the section at the tail end, whose pagelocks the
        thread holds. */
    method RemoveSection(got: seq<Page>) returns (ghost d: Change)
      requires Valid() && |got| > 0 && Oldest(got) && forall p :: p in got ==> p.held
      modifies `contents, `length, `log, Everything()
      ensures Notes(old(log), log, d)
      ensures Valid() && LocksKept()
      ensures contents + Reversed(got) == After(old(contents), d)
    {
      var removed;
      removed, d := RemoveShared(got);
      if !removed {
        d := RemoveAlone(got, old(contents), old(log), d);
      }
      length := length - |got|;
    }

    lemma SectionEnds(got: seq<Page>)
      requires Linked() && |got| > 0 && Oldest(got)
      ensures got[0].flink == tail && got[|got| - 1].blink == Nodes()[|contents| - |got|]
      ensures got[|got| - 1].blink in Everything() && got[|got| - 1] in Everything()
    {
      BeforeOldest(got);
      assert Reversed(got)[|got| - 1] == got[0] == contents[|contents| - 1];
      assert Nodes()[|contents|] == got[0] && Nodes()[|contents| + 1] == tail;
    }

    lemma GotInPool(got: seq<Page>)
      requires Linked() && Oldest(got)
      ensures forall p :: p in got ==> p in Everything()
    {
      ReversedMembers(got);
      forall p | p in got ensures p in Everything() {
        assert p in Elements(Reversed(got));
        assert p in contents[|contents| - |got|..];
      }
    }

    /** A locked section at the tail end, while its thread tries for the locks on
        both sides. */
    ghost predicate HeldEnd(got: seq<Page>, was: seq<Page>, start: seq<Change>, d: Change)
      reads `contents, `log, Everything()
    {
      && Linked() && Since(was, start, d, Elements(got)) && |got| > 0 && EndsWith(was, Reversed(got)) && Oldest(got)
      && forall p :: p in got ==> p in Everything() && p.held
    }

    /** Others at work, who cannot take away what is on either side. */
    method PauseAround(got: seq<Page>, ghost was: seq<Page>, ghost start: seq<Change>, ghost d0: Change)
      returns (ghost d: Change)
      requires HeldEnd(got, was, start, d0)
      modifies `contents, `length, `log, Everything()
      ensures HeldEnd(got, was, start, d) && LocksKept() && length - |contents| == old(length - |contents|)
      ensures got[0].flink == tail && got[|got| - 1].blink == old(got[|got| - 1].blink)
      ensures got[|got| - 1].blink in Everything()
    {
      SectionEnds(got);
      d := Pause(Elements(got), was, start, d0);
      OldestStay(was, got, d);
      SectionEnds(got);
    }

    method TryLockAround(q: Page, got: seq<Page>, ghost was: seq<Page>, ghost start: seq<Change>, ghost d: Change)
      returns (ok: bool)
      requires HeldEnd(got, was, start, d)
      modifies q`held
      ensures HeldEnd(got, was, start, d) && q.held == (old(q.held) || ok) && (ok ==> !old(q.held) && q !in got)
    {
      ok := TryLock(q);
    }

    method ReleaseAround(q: Page, got: seq<Page>, ghost was: seq<Page>, ghost start: seq<Change>, ghost d: Change)
      requires HeldEnd(got, was, start, d) && q !in got
      modifies q`held
      ensures HeldEnd(got, was, start, d) && !q.held
    {
      Release(q);
    }

    /** What the first phase leaves. */
    ghost predicate Removed(removed: bool, got: seq<Page>, was: seq<Page>, start: seq<Change>, d: Change)
      reads `contents, `log, Everything()
    {
      if removed then
        Linked() && contents + Reversed(got) == After(was, d) && Notes(start, log, d) && Spares(d, Elements(got))
      else
        HeldEnd(got, was, start, d)
    }

    /** The first phase: with the locks on both sides. */
    method RemoveShared(got: seq<Page>) returns (removed: bool, ghost d: Change)
      requires Linked() && |got| > 0 && Oldest(got) && forall p :: p in got ==> p.held
      modifies `contents, `length, `log, Everything()
      ensures Removed(removed, got, old(contents), old(log), d) && LocksKept()
      ensures length - |contents| == old(length - |contents|) + if removed then |got| else 0
    {
      hide HeldEnd, Removed, Linked;
      var ahead, behind;
      ahead, behind, d := FindAround(got);
      removed, d := LockAround(got, ahead, behind, old(contents), old(log), d);
      if removed {
        CutLocked(got, ahead, behind, old(contents), old(log), d);
      } else {
        NotRemoved(got, old(contents), old(log), d);
      }
    }

    lemma NotRemoved(got: seq<Page>, was: seq<Page>, start: seq<Change>, d: Change)
      requires HeldEnd(got, was, start, d)
      ensures Removed(false, got, was, start, d)
    {
    }

    method FindAround(got: seq<Page>) returns (ahead: Page, behind: Page, ghost d: Change)
      requires Linked() && |got| > 0 && Oldest(got) && forall p :: p in got ==> p.held
      modifies `contents, `length, `log, Everything()
      ensures HeldEnd(got, old(contents), old(log), d) && LocksKept()
      ensures length - |contents| == old(length - |contents|)
      ensures ahead == tail && behind == got[|got| - 1].blink && behind in Everything()
    {
      SinceNow(Elements(got));
      GotInPool(got);
      d := PauseAround(got, contents, log, NO_CHANGE);
      ahead := got[0].flink;
      d := PauseAround(got, old(contents), old(log), d);
      behind := got[|got| - 1].blink;
    }

    method CutLocked(got: seq<Page>, ahead: Page, behind: Page,
                     ghost was: seq<Page>, ghost start: seq<Change>, ghost d: Change)
      requires |got| > 0 && HeldEnd(got, was, start, d) && ahead == tail && behind == got[|got| - 1].blink
      modifies `contents, Everything()
      ensures Removed(true, got, was, start, d) && |contents| == |old(contents)| - |got|
      ensures forall p :: p in Everything() ==> p.held == (old(p.held) && p != ahead && p != behind)
    {
      SectionEnds(got);
      CutTail(got, ahead, behind);
      ahead.held := false;
      behind.held := false;
    }

    method LockAround(got: seq<Page>, ahead: Page, behind: Page,
                      ghost was: seq<Page>, ghost start: seq<Change>, ghost d0: Change)
      returns (ok: bool, ghost d: Change)
      requires |got| > 0 && HeldEnd(got, was, start, d0) && behind == got[|got| - 1].blink
      requires ahead in Everything() && behind in Everything()
      modifies `contents, `length, `log, Everything()
      ensures HeldEnd(got, was, start, d) && behind == got[|got| - 1].blink
      ensures length - |contents| == old(length - |contents|)
      ensures LockedToo(if ok then {ahead, behind} else {}) && (ok ==> ahead != behind)
    {
      hide HeldEnd;
      d := PauseAround(got, was, start, d0);
      ok := TryLockAround(ahead, got, was, start, d);
      if ok {
        ok, d := LockOther(got, ahead, behind, was, start, d);
      }
    }

    /** With the lock on one side, which it gives back if the other is not to be had. */
    method LockOther(got: seq<Page>, ahead: Page, behind: Page,
                     ghost was: seq<Page>, ghost start: seq<Change>, ghost d0: Change)
      returns (ok: bool, ghost d: Change)
      requires |got| > 0 && HeldEnd(got, was, start, d0) && behind == got[|got| - 1].blink
      requires ahead in Everything() && behind in Everything() && ahead.held && ahead !in got
      modifies `contents, `length, `log, Everything()
      ensures HeldEnd(got, was, start, d) && behind == got[|got| - 1].blink
      ensures length - |contents| == old(length - |contents|)
      ensures if ok then LockedToo({behind})
              else forall p :: p in Everything() ==> p.held == (old(p.held) && p != ahead)
    {
      hide HeldEnd;
      d := PauseAround(got, was, start, d0);
      ok := TryLockAround(behind, got, was, start, d);
      if ok {
        d := PauseAround(got, was, start, d);
      } else {
        ReleaseAround(ahead, got, was, start, d);
      }
    }

    /** Takes the section out, between its neighbours. */
    method CutTail(got: seq<Page>, ahead: Page, behind: Page)
      requires Linked() && |got| > 0 && Oldest(got) && ahead == tail && behind == got[|got| - 1].blink
      modifies `contents, Everything()
      ensures Linked() && LocksKept() && contents + Reversed(got) == old(contents)
    {
      SectionEnds(got);
      Bridge(behind, ahead, |contents| - |got|, |contents|);
    }

    method RemoveAlone(got: seq<Page>, ghost was: seq<Page>, ghost start: seq<Change>, ghost d0: Change)
      returns (ghost d: Change)
      requires Linked() && |got| > 0 && EndsWith(was, Reversed(got)) && Since(was, start, d0, Elements(got))
      modifies `contents, `length, `log, Everything()
      ensures Linked() && LocksKept() && Notes(start, log, d)
      ensures contents + Reversed(got) == After(was, d)
      ensures length - |contents| == old(length - |contents|) + |got|
    {
      ghost var before := log;
      ghost var e := Meanwhile(Elements(got));
      SinceThen(was, start, before, d0, e, Elements(got));
      d := Then(d0, e);
      OldestStay(was, got, d);
      SectionEnds(got);
      CutTail(got, got[0].flink, got[|got| - 1].blink);
    }

    /** standby_pop_batch.  What is popped are the oldest pages of the list as
        others had made it by then (d1), oldest first, each locked by this
        thread: as many as asked for or all there were, unless `patience`
        attempts failed. */
    method PopBatch(n: nat, patience: nat) returns (got: seq<Page>, left: nat, ghost d1: Change, ghost d: Change)
      requires Valid()
      modifies `contents, `length, `log, `misses, Everything()
      ensures Notes(old(log), log, d) && EndsWith(After(old(contents), d1), Reversed(got))
      ensures ByThen(old(log), log, d1)
      ensures Valid() && contents + Reversed(got) == After(old(contents), d)
      ensures Locked(got) && |got| <= if n == 0 then 1 else n
      ensures left + |misses| == patience + |old(misses)|
      ensures AllMissed(old(contents), old(log), log, misses, |old(misses)|)
      ensures left > 0 ==> |got| >= n || Reversed(got) == After(old(contents), d1)
      ensures left > 0 && got == [] ==> After(old(contents), d1) == []
    {
      hide Without, Fold, Chained, Missed;
      d, d1 := NO_CHANGE, NO_CHANGE;
      got, left := [], patience;
      AfterNoChange(contents);
      NotesNone(log);
      ByThenWas(log, log, log, d1, d);
      if length == 0 { return; }
      got, left, d1 := AcquireBatch(n, patience);
      d := d1;
      AllOrSome(got);
      NotesNone(log);
      ByThenWas(old(log), log, log, d1, NO_CHANGE);
      if got != [] {
        ghost var acquired := log;
        d := RemoveAcquired(got, old(contents), old(log), d1);
        AllMissedStays(old(contents), old(log), acquired, log, misses, |old(misses)|);
      }
    }

    method RemoveAcquired(got: seq<Page>, ghost was: seq<Page>, ghost start: seq<Change>, ghost d1: Change)
      returns (ghost d: Change)
      requires Valid() && |got| > 0 && Oldest(got) && forall p :: p in got ==> p.held
      requires contents == After(was, d1) && Notes(start, log, d1)
      modifies `contents, `length, `log, Everything()
      ensures Valid() && LocksKept() && contents + Reversed(got) == After(was, d)
      ensures Notes(start, log, d) && ByThen(start, log, d1) && old(log) <= log
    {
      hide Without, Fold, Chained;
      ghost var before := log;
      ghost var e := RemoveSection(got);
      AfterThen(was, d1, e);
      NotesThen(start, before, log, d1, e);
      ByThenWas(start, before, log, d1, e);
      d := Then(d1, e);
    }

    lemma AllOrSome(got: seq<Page>)
      requires Oldest(got)
      ensures |got| == |contents| ==> contents == Reversed(got)
    {
    }
  }

  ghost predicate Chained(c: seq<Page>)
    reads Elements(c)`flink, Elements(c)`blink
  {
    forall i, j :: 0 <= i < |c| && 0 <= j < |c| && j == i + 1 ==> c[i].flink == c[j] && c[j].blink == c[i]
  }

  /** create_chain_of_pages: links the pages in array order and gives them all
      the status of the list they are meant for. */
  method CreateChain(pages: seq<Page>, status: Status)
    requires |pages| > 0 && Distinct(pages)
    modifies Elements(pages)`flink, Elements(pages)`blink, Elements(pages)`status
    ensures Chained(pages) && forall p :: p in pages ==> p.status == status
  {
    for i := 0 to |pages| - 1
      invariant Chained(pages[..i + 1]) && forall k :: 0 <= k < i ==> pages[k].status == status
    {
      pages[i].status := status;
      ChainNext(pages[i], pages[i + 1], pages, i);
    }
    pages[|pages| - 1].status := status;
    assert pages[..|pages|] == pages;
  }

  method ChainNext(curr: Page, next: Page, ghost pages: seq<Page>, ghost i: nat)
    requires Distinct(pages) && i + 1 < |pages| && Chained(pages[..i + 1]) && curr == pages[i] && next == pages[i + 1]
    modifies curr`flink, next`blink
    ensures Chained(pages[..i + 2])
  {
    curr.flink := next;
    next.blink := curr;
  }

  lemma RestOfBatch(c: seq<Page>, batch: seq<Page>, i: nat)
    requires Distinct(batch) && i <= |batch| && forall p :: p in batch ==> p in c
    ensures forall k :: i <= k < |batch| ==> batch[k] in Without(c, Elements(batch[..i]))
  {
    forall k | i <= k < |batch| ensures batch[k] in Without(c, Elements(batch[..i])) {
      WithoutMember(c, Elements(batch[..i]), batch[k]);
    }
  }

  lemma OneMore(c: seq<Page>, batch: seq<Page>, i: nat)
    requires i < |batch|
    ensures Without(Without(c, Elements(batch[..i])), {batch[i]}) == Without(c, Elements(batch[..i + 1]))
  {
    WithoutTwice(c, Elements(batch[..i]), {batch[i]});
    assert Elements(batch[..i]) + {batch[i]} == Elements(batch[..i + 1]);
  }

  /** Removing a batch in two goes, with other threads in between. */
  lemma PhasesMeet(c: seq<Page>, batch: seq<Page>, i: nat, d: Change)
    requires Distinct(batch) && i <= |batch| && Spares(d, Elements(batch)) && forall p :: p in batch ==> p in c
    ensures Without(After(Without(c, Elements(batch[..i])), d), Elements(batch[i..]))
            == Without(After(c, d), Elements(batch))
    ensures forall k :: i <= k < |batch| ==> batch[k] in After(Without(c, Elements(batch[..i])), d)
  {
    var first, rest, all := Elements(batch[..i]), Elements(batch[i..]), Elements(batch);
    WithoutTwice(c, first, d.removed);
    WithoutConcat(d.added, Without(c, first + d.removed), rest);
    WithoutTwice(c, first + d.removed, rest);
    WithoutConcat(d.added, Without(c, d.removed), all);
    WithoutTwice(c, d.removed, all);
    WithoutStrangers(d.added, rest);
    WithoutStrangers(d.added, all);
    assert batch == batch[..i] + batch[i..];
    assert first + d.removed + rest == d.removed + all;
    RestOfBatch(c, batch, i);
    forall k | i <= k < |batch| ensures batch[k] in After(Without(c, first), d) {
      WithoutMember(Without(c, first), d.removed, batch[k]);
    }
  }

  lemma StillIn(c: seq<Page>, d: Change, p: Page)
    requires p in c && p !in d.removed
    ensures p in After(c, d)
  {
    WithoutMember(c, d.removed, p);
  }

  lemma SparesThen(d: Change, e: Change, mine: set<Page>)
    requires Spares(d, mine) && Spares(e, mine)
    ensures Spares(Then(d, e), mine)
  {
    forall p | p in Then(d, e).added ensures p !in mine { WithoutMember(d.added, e.removed, p); }
  }

  /** A change that spares some pages does the same before and after they go. */
  lemma SparedCommutes(c: seq<Page>, gone: set<Page>, e: Change)
    requires Spares(e, gone)
    ensures After(Without(c, gone), e) == Without(After(c, e), gone)
  {
    WithoutTwice(c, gone, e.removed);
    WithoutTwice(c, e.removed, gone);
    WithoutConcat(e.added, Without(c, e.removed), gone);
    WithoutStrangers(e.added, gone);
    assert gone + e.removed == e.removed + gone;
  }

  lemma SparesFewer(e: Change, batch: seq<Page>, i: nat)
    requires i <= |batch| && Spares(e, Elements(batch))
    ensures Spares(e, Elements(batch[..i]))
  {
    assert Elements(batch[..i]) <= Elements(batch);
  }

  lemma StillThere(was: seq<Page>, d: Change, batch: seq<Page>)
    requires Spares(d, Elements(batch)) && forall p :: p in batch ==> p in was
    ensures forall p :: p in batch ==> p in After(was, d)
  {
    forall p | p in batch ensures p in After(was, d) { StillIn(was, d, p); }
  }

  /** One turn: others do e, and page i of the batch leaves, unless it stays. */
  lemma TurnMade(was: seq<Page>, d: Change, e: Change, batch: seq<Page>, i: nat)
    requires i < |batch| && Spares(e, Elements(batch))
    ensures var first := Elements(batch[..i]);
            && After(Without(After(was, d), first), e) == Without(After(was, Then(d, e)), first)
            && Without(After(Without(After(was, d), first), e), {batch[i]})
               == Without(After(was, Then(d, e)), Elements(batch[..i + 1]))
  {
    SparesFewer(e, batch, i);
    AfterThen(was, d, e);
    SparedCommutes(After(was, d), Elements(batch[..i]), e);
    OneMore(After(was, Then(d, e)), batch, i);
  }

  predicate EndsWith(c: seq<Page>, older: seq<Page>) {
    |older| <= |c| && c[|c| - |older|..] == older
  }

  lemma SuffixEnds(newer: seq<Page>, older: seq<Page>)
    ensures EndsWith(newer + older, older)
  {
  }

  /** Other threads cannot break up the locked tail end of a list. */
  lemma TailStays(c: seq<Page>, older: seq<Page>, d: Change)
    requires EndsWith(c, older) && Spares(d, Elements(older))
    ensures EndsWith(After(c, d), older)
  {
    var newer := c[..|c| - |older|];
    assert c == newer + older;
    WithoutConcat(newer, older, d.removed);
    WithoutStrangers(older, d.removed);
    SuffixEnds(d.added + Without(newer, d.removed), older);
    assert After(c, d) == (d.added + Without(newer, d.removed)) + older;
  }

  lemma ReversedMembers(c: seq<Page>)
    ensures Elements(Reversed(c)) == Elements(c)
  {
    assert forall i :: 0 <= i < |c| ==> c[i] == Reversed(c)[|c| - 1 - i];
  }

  lemma OldestStay(c: seq<Page>, got: seq<Page>, d: Change)
    requires EndsWith(c, Reversed(got)) && Spares(d, Elements(got))
    ensures EndsWith(After(c, d), Reversed(got))
  {
    ReversedMembers(got);
    TailStays(c, Reversed(got), d);
  }

  lemma DistinctEnds(c: seq<Page>, lo: nat, hi: nat)
    requires Distinct(c) && lo <= hi <= |c|
    ensures Distinct(c[..lo] + c[hi..])
  {
  }

  /** Links the last page of one chain to the first of another. */
  method Join(behind: Page, ahead: Page, ghost left: seq<Page>, ghost right: seq<Page>)
    requires |left| > 0 && |right| > 0 && left[|left| - 1] == behind && right[0] == ahead
    requires Distinct(left + right) && Chained(left) && Chained(right)
    modifies behind`flink, ahead`blink
    ensures Chained(left + right)
  {
    assert forall i :: 0 <= i < |left| ==> left[i] == (left + right)[i];
    assert forall i :: 0 <= i < |right| ==> right[i] == (left + right)[|left| + i];
    ahead.blink := behind;
    behind.flink := ahead;
    ChainedConcat(left, right);
  }

  lemma FirstAreOut(c: seq<Page>, batch: seq<Page>, i: nat)
    requires i <= |batch|
    ensures forall k :: 0 <= k < i ==> batch[k] !in Without(c, Elements(batch[..i]))
  {
    forall k | 0 <= k < i ensures batch[k] !in Without(c, Elements(batch[..i])) {
      assert batch[..i][k] == batch[k];
      WithoutMember(c, Elements(batch[..i]), batch[k]);
    }
  }

  lemma StrangersStay(c: seq<Page>, gone: set<Page>)
    ensures forall p: Page :: p !in c ==> p !in Without(c, gone)
  {
    forall p: Page | p !in c ensures p !in Without(c, gone) { WithoutMember(c, gone, p); }
  }

  lemma ChainedConcat(a: seq<Page>, b: seq<Page>)
    requires |a| > 0 && |b| > 0 && Chained(a) && Chained(b)
    requires a[|a| - 1].flink == b[0] && b[0].blink == a[|a| - 1]
    ensures Chained(a + b)
  {
  }

  lemma DistinctConcat(a: seq<Page>, b: seq<Page>, section: seq<Page>)
    requires Distinct(a + b) && Distinct(section)
    requires forall i :: 0 <= i < |section| ==> section[i] !in a + b
    ensures Distinct(a + section + b)
  {
    assert forall i :: 0 <= i < |a| ==> a[i] == (a + b)[i];
    assert forall i :: 0 <= i < |b| ==> b[i] == (a + b)[|a| + i];
  }
}
